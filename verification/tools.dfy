/**
  The tool catalog (`src/ai_tools.rs`): the function definitions the
  application can advertise to a backend, and the selection of the catalog
  entries a model may use under a `SupportedFunctions` policy.

  Loading the catalog file is not modelled: a manager holds either the
  parsed catalog or nothing (a file that could not be read or parsed).
 */
module Tools {
  import opened Wrappers
  import opened AiConfig

  datatype ToolParamProperty = ToolParamProperty(kind: string, description: string)

  datatype FunctionParameters = FunctionParameters(
    kind: string, properties: map<string, ToolParamProperty>, required: seq<string>)

  datatype FunctionDef = FunctionDef(name: string, description: string, parameters: FunctionParameters)

  /** One catalog entry; `kind` is the serde `type` field ("function"). */
  datatype Tool = Tool(kind: string, def: FunctionDef)

  /** `AIToolManager`: the catalog in file order, or None when it failed to load. */
  datatype ToolManager = ToolManager(catalog: Option<seq<Tool>>)

  /**
    The catalog entries whose function name is in `names`, in catalog order.
    As a multiset, every entry is kept as often as the catalog lists it when
    its name is selected and dropped otherwise.
   */
  function Selected(catalog: seq<Tool>, names: set<string>): (r: seq<Tool>)
    ensures |r| <= |catalog|
    ensures forall t :: t in r <==> t in catalog && t.def.name in names
  {
    if |catalog| == 0 then []
    else
      var rest := Selected(catalog[1..], names);
      assert catalog == [catalog[0]] + catalog[1..];
      if catalog[0].def.name in names then [catalog[0]] + rest else rest
  }

  /**
    `get_common_tools`: NONE gives None; ALL gives the whole catalog; a name
    list gives the catalog filtered by membership in the set of those names.
    The catalog must be loaded for ALL and for a name list (the source
    unwraps it).
   */
  function GetCommonTools(mgr: ToolManager, functions: SupportedFunctions): (r: Option<seq<Tool>>)
    requires functions.NONE? || mgr.catalog.Some?
    ensures r.None? <==> functions.NONE?
    ensures functions.ALL? ==> r == mgr.catalog
    ensures functions.Functions? ==> |r.value| <= |mgr.catalog.value|
    ensures functions.Functions? ==>
              forall t :: t in r.value <==> t in mgr.catalog.value && t.def.name in functions.names
  {
    match functions
    case NONE => None
    case ALL => Some(mgr.catalog.value)
    case Functions(names) => Some(Selected(mgr.catalog.value, set n | n in names))
  }

  /** Selection keeps each selected entry exactly as many times as the catalog lists it; a name listed twice adds nothing. */
  lemma {:induction false} SelectedCount(catalog: seq<Tool>, names: set<string>, t: Tool)
    ensures multiset(Selected(catalog, names))[t] == if t.def.name in names then multiset(catalog)[t] else 0
    decreases |catalog|
  {
    if |catalog| > 0 {
      SelectedCount(catalog[1..], names, t);
      assert catalog == [catalog[0]] + catalog[1..];
      assert multiset(catalog) == multiset([catalog[0]]) + multiset(catalog[1..]);
    }
  }

  /** Selection distributes over concatenation, so it keeps catalog order. */
  lemma {:induction false} SelectedAppend(a: seq<Tool>, b: seq<Tool>, names: set<string>)
    ensures Selected(a + b, names) == Selected(a, names) + Selected(b, names)
    decreases |a|
  {
    if |a| == 0 {
      assert a + b == b;
    } else {
      assert (a + b)[0] == a[0];
      assert (a + b)[1..] == a[1..] + b;
      SelectedAppend(a[1..], b, names);
      var head: seq<Tool> := if a[0].def.name in names then [a[0]] else [];
      assert Selected(a + b, names) == head + Selected(a[1..] + b, names);
      assert Selected(a, names) == head + Selected(a[1..], names);
    }
  }

  /** Naming every catalog function selects the whole catalog, as ALL does. */
  lemma {:induction false} SelectedEverything(catalog: seq<Tool>, names: set<string>)
    requires forall i :: 0 <= i < |catalog| ==> catalog[i].def.name in names
    ensures Selected(catalog, names) == catalog
    decreases |catalog|
  {
    if |catalog| > 0 {
      SelectedEverything(catalog[1..], names);
      assert [catalog[0]] + catalog[1..] == catalog;
    }
  }

  /** Naming no catalog function selects nothing, though the result is still Some. */
  lemma {:induction false} SelectedNothing(catalog: seq<Tool>, names: set<string>)
    requires forall i :: 0 <= i < |catalog| ==> catalog[i].def.name !in names
    ensures Selected(catalog, names) == []
    decreases |catalog|
  {
    if |catalog| > 0 {
      SelectedNothing(catalog[1..], names);
    }
  }

  /** A name list that covers the catalog gives the same tools as ALL. */
  lemma FunctionsCoveringCatalog(mgr: ToolManager, names: seq<string>)
    requires mgr.catalog.Some?
    requires forall t :: t in mgr.catalog.value ==> t.def.name in names
    ensures GetCommonTools(mgr, Functions(names)) == GetCommonTools(mgr, ALL)
  {
    var catalog := mgr.catalog.value;
    forall i | 0 <= i < |catalog|
      ensures catalog[i].def.name in set n | n in names
    {
      assert catalog[i] in catalog;
    }
    SelectedEverything(catalog, set n | n in names);
  }

  /** Only the set of names matters: repeating or reordering names changes nothing. */
  lemma FunctionsBySet(mgr: ToolManager, names1: seq<string>, names2: seq<string>)
    requires mgr.catalog.Some?
    requires forall n :: n in names1 <==> n in names2
    ensures GetCommonTools(mgr, Functions(names1)) == GetCommonTools(mgr, Functions(names2))
  {
    assert (set n | n in names1) == (set n | n in names2);
  }
}

/** The catalog selections exercised by the crate's own unit tests, on a three-entry catalog of the same shape. */
module ToolExamples {
  import opened Wrappers
  import opened AiConfig
  import opened Tools

  function NamedTool(name: string): Tool {
    Tool("function", FunctionDef(name, "", FunctionParameters("object", map[], [])))
  }

  function Catalog(): seq<Tool> {
    [NamedTool("get_current_weather"), NamedTool("get_current_time"), NamedTool("do_math_expressions")]
  }

  lemma AllKeepsOrder()
    ensures GetCommonTools(ToolManager(Some(Catalog())), ALL).value[0].def.name == "get_current_weather"
    ensures GetCommonTools(ToolManager(Some(Catalog())), ALL).value[2].def.name == "do_math_expressions"
  {
  }

  lemma OneCommonName()
    ensures GetCommonTools(ToolManager(Some(Catalog())), Functions(["do_math_expressions"])) == Some([NamedTool("do_math_expressions")])
  {
    var names: set<string> := {"do_math_expressions"};
    assert (set n | n in ["do_math_expressions"]) == names;
    var c := Catalog();
    assert c[1..][1..][1..] == [];
    assert Selected(c[1..][1..], names) == [NamedTool("do_math_expressions")];
    assert Selected(c[1..], names) == [NamedTool("do_math_expressions")];
  }

  lemma NoCommonName()
    ensures GetCommonTools(ToolManager(Some(Catalog())), Functions(["do_nothing"])) == Some([])
  {
    var names: set<string> := {"do_nothing"};
    assert (set n | n in ["do_nothing"]) == names;
    SelectedNothing(Catalog(), names);
  }

  lemma NoneWithoutCatalog()
    ensures GetCommonTools(ToolManager(None), NONE).None?
  {
  }
}
