/**
  A YAML node as the loaded configuration presents it, with the typed
  accessors of `yaml_rust2::Yaml` that the core uses. A missing key reads
  as `YBadValue`, which every accessor rejects, so "absent" and "of the
  wrong type" fall back to the same default.
 */
module Yaml {
  import opened Wrappers

  datatype Yaml =
    | YString(s: string)
    | YInt(i: int)       // yaml_rust2 keeps integers as i64; the loader only produces those
    | YBool(b: bool)
    | YReal(text: string)
    | YList(items: seq<Yaml>)
    | YNull
    | YBadValue

  function AsStr(y: Yaml): (r: Option<string>)
    ensures r.Some? <==> y.YString?
  {
    if y.YString? then Some(y.s) else None
  }

  function AsI64(y: Yaml): (r: Option<int>)
    ensures r.Some? <==> y.YInt?
  {
    if y.YInt? then Some(y.i) else None
  }

  function AsBool(y: Yaml): (r: Option<bool>)
    ensures r.Some? <==> y.YBool?
  {
    if y.YBool? then Some(y.b) else None
  }

  /**
    `convert_yaml_to_vec_string` of the `bt_yaml_utils` crate, whose source is
    not part of this model: taken to be the string items of a YAML list, in
    order, and nothing for any other node.
   */
  function StringList(y: Yaml): (names: seq<string>)
    ensures !y.YList? ==> names == []
    ensures y.YList? ==> |names| <= |y.items|
  {
    if y.YList? then StringItems(y.items) else []
  }

  function StringItems(items: seq<Yaml>): (names: seq<string>)
    ensures |names| <= |items|
    ensures forall n :: n in names <==> YString(n) in items
  {
    if |items| == 0 then []
    else
      var rest := StringItems(items[1..]);
      assert forall y :: y in items <==> y == items[0] || y in items[1..];
      if items[0].YString? then [items[0].s] + rest else rest
  }
}
