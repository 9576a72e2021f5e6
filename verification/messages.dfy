/**
  The conversational unit (`src/message.rs`) and the tool call a model asks
  the application to run (`src/ai_tool_to_call.rs`; `src/ai_tools.rs`
  declares an identical copy, modelled once here), together with their JSON
  wire form as serde derives it.
 */
module Messages {
  import opened Wrappers
  import opened Json
  import Collections

  /** The five roles of a message; the wire form is the lower-case name. */
  datatype Role = User | Assistant | System | Tool | Error

  function RoleName(r: Role): string {
    match r
    case User => "user"
    case Assistant => "assistant"
    case System => "system"
    case Tool => "tool"
    case Error => "error"
  }

  /** Reads a role back from its wire name; exactly the five lower-case names are accepted. */
  function ParseRole(name: string): (r: Option<Role>)
    ensures r.Some? ==> RoleName(r.value) == name
    ensures forall role: Role :: RoleName(role) == name ==> r == Some(role)
  {
    if name == "user" then Some(User)
    else if name == "assistant" then Some(Assistant)
    else if name == "system" then Some(System)
    else if name == "tool" then Some(Tool)
    else if name == "error" then Some(Error)
    else None
  }

  datatype FunctionToCall = FunctionToCall(name: string, arguments: map<string, Json>)

  datatype ToolToCall = ToolToCall(call: FunctionToCall)

  function GetFunctionName(t: ToolToCall): string {
    t.call.name
  }

  /** `ToolToCall::new`: the name and the argument map are stored as given. */
  function NewToolToCall(name: string, args: map<string, Json>): (t: ToolToCall)
    ensures GetFunctionName(t) == name
    ensures t.call.arguments == args
  {
    ToolToCall(FunctionToCall(name, args))
  }

  /**
    `get_arguments`: every argument value as its JSON text rather than as a
    native value. The key set and the size are those of the stored map.
   */
  function GetArguments(t: ToolToCall): (out: map<string, string>)
    ensures out.Keys == t.call.arguments.Keys
    ensures |out| == |t.call.arguments|
    ensures forall k :: k in out ==> out[k] == Render(t.call.arguments[k])
  {
    var args := t.call.arguments;
    var out := map k | k in args :: Render(args[k]);
    assert out.Keys == args.Keys;
    out
  }

  /** A string argument comes out as a JSON string literal that decodes back to the stored string. */
  lemma GetArgumentsOfString(t: ToolToCall, k: string)
    requires k in t.call.arguments && t.call.arguments[k].JString?
    ensures k in GetArguments(t)
    ensures ParseStringLiteral(GetArguments(t)[k]) == Some(t.call.arguments[k].s)
  {
    RenderStringRoundTrip(t.call.arguments[k].s);
  }

  datatype Message = Message(role: Role, content: string, toolCalls: Option<seq<ToolToCall>>)

  function GetContent(m: Message): string {
    m.content
  }

  function GetRole(m: Message): Role {
    m.role
  }

  function GetTools(m: Message): Option<seq<ToolToCall>> {
    m.toolCalls
  }

  /** `Message::new`: a message without tool calls. */
  function NewMessage(role: Role, content: string): (m: Message)
    ensures GetRole(m) == role && GetContent(m) == content
    ensures GetTools(m).None?
  {
    Message(role, content, None)
  }

  /** `Message::new_with_tools`: a message carrying the given tool calls. */
  function NewWithTools(role: Role, content: string, tools: seq<ToolToCall>): (m: Message)
    ensures GetRole(m) == role && GetContent(m) == content
    ensures GetTools(m) == Some(tools)
  {
    Message(role, content, Some(tools))
  }

  // ---------------------------------------------------------------------
  // Wire form

  function MembersFor(keys: seq<string>, args: map<string, Json>): (ms: seq<Member>)
    requires forall i :: 0 <= i < |keys| ==> keys[i] in args
    ensures |ms| == |keys|
    ensures forall i :: 0 <= i < |keys| ==> ms[i] == Member(keys[i], args[keys[i]])
  {
    seq(|keys|, i requires 0 <= i < |keys| => Member(keys[i], args[keys[i]]))
  }

  /** The argument map as object members, in the map's (unspecified) iteration order. */
  ghost function ArgumentsToJson(args: map<string, Json>): (j: Json)
    ensures j.JObject?
    ensures forall i, k :: 0 <= i < k < |j.members| ==> j.members[i].key != j.members[k].key
    ensures forall i :: 0 <= i < |j.members| ==> j.members[i].key in args && j.members[i].value == args[j.members[i].key]
  {
    JObject(MembersFor(Collections.SetToSeq(args.Keys), args))
  }

  /** Every argument is written. */
  lemma ArgumentsToJsonCovers(args: map<string, Json>, key: string)
    requires key in args
    ensures exists i :: 0 <= i < |ArgumentsToJson(args).members| && ArgumentsToJson(args).members[i].key == key
  {
    var keys := Collections.SetToSeq(args.Keys);
    var ms := MembersFor(keys, args);
    assert ArgumentsToJson(args).members == ms;
    assert key in keys;
    var i :| 0 <= i < |keys| && keys[i] == key;
    assert ms[i].key == key;
  }

  ghost function ToolCallToJson(t: ToolToCall): Json {
    JObject([Member("function", JObject([Member("name", JString(t.call.name)),
                                         Member("arguments", ArgumentsToJson(t.call.arguments))]))])
  }

  ghost function ToolCallsToJson(ts: seq<ToolToCall>): (items: seq<Json>)
    ensures |items| == |ts|
  {
    if |ts| == 0 then [] else [ToolCallToJson(ts[0])] + ToolCallsToJson(ts[1..])
  }

  /**
    The serde shape of a message: `role` as its lower-case name, `content`,
    and `tool_calls` only when there are tool calls.
   */
  ghost function MessageToJson(m: Message): (j: Json)
    ensures j.JObject?
    ensures Keys(j) == ["role", "content"] + (if m.toolCalls.Some? then ["tool_calls"] else [])
    ensures "tool_calls" in Keys(j) <==> m.toolCalls.Some?
    ensures j.members[0].value == JString(RoleName(m.role)) && j.members[1].value == JString(m.content)
  {
    var base := [Member("role", JString(RoleName(m.role))), Member("content", JString(m.content))];
    match m.toolCalls
    case None => JObject(base)
    case Some(ts) =>
      JObject(base + [Member("tool_calls", JArray(ToolCallsToJson(ts)))])
  }

  /** The value of the first member named `key`. */
  function Field(ms: seq<Member>, key: string): (r: Option<Json>)
    ensures r.Some? ==> exists i :: 0 <= i < |ms| && ms[i] == Member(key, r.value)
  {
    if |ms| == 0 then None
    else if ms[0].key == key then Some(ms[0].value)
    else Field(ms[1..], key)
  }

  /** The members of an object as (key, value) pairs, in written order. */
  function MemberPairs(ms: seq<Member>): (ps: seq<(string, Json)>)
    ensures |ps| == |ms|
    ensures forall i :: 0 <= i < |ms| ==> ps[i] == (ms[i].key, ms[i].value)
  {
    seq(|ms|, i requires 0 <= i < |ms| => (ms[i].key, ms[i].value))
  }

  /** Decodes an argument object; a key written twice keeps its last value. */
  function ArgumentsFromJson(j: Json): Option<map<string, Json>> {
    if j.JObject? then Some(Collections.FromPairs(MemberPairs(j.members))) else None
  }

  function ToolCallFromJson(j: Json): Option<ToolToCall> {
    if !j.JObject? then None
    else
      var f := Field(j.members, "function");
      if f.None? || !f.value.JObject? then None
      else
        var name := Field(f.value.members, "name");
        var args := Field(f.value.members, "arguments");
        if name.None? || !name.value.JString? || args.None? then None
        else
          var decoded := ArgumentsFromJson(args.value);
          if decoded.None? then None else Some(NewToolToCall(name.value.s, decoded.value))
  }

  function ToolCallsFromJson(items: seq<Json>): (r: Option<seq<ToolToCall>>)
    ensures r.Some? ==> |r.value| == |items|
  {
    if |items| == 0 then Some([])
    else
      var head := ToolCallFromJson(items[0]);
      var tail := ToolCallsFromJson(items[1..]);
      if head.None? || tail.None? then None else Some([head.value] + tail.value)
  }

  /** The serde decoding of a message: an absent `tool_calls` reads as None. */
  function MessageFromJson(j: Json): Option<Message> {
    if !j.JObject? then None
    else MessageFromFields(Field(j.members, "role"), Field(j.members, "content"), Field(j.members, "tool_calls"))
  }

  function MessageFromFields(role: Option<Json>, content: Option<Json>, toolCalls: Option<Json>): Option<Message> {
    if role.None? || !role.value.JString? || content.None? || !content.value.JString? then None
    else
      var r := ParseRole(role.value.s);
      if r.None? then None
      else if toolCalls.None? then Some(Message(r.value, content.value.s, None))
      else if !toolCalls.value.JArray? then None
      else
        var ts := ToolCallsFromJson(toolCalls.value.items);
        if ts.None? then None else Some(Message(r.value, content.value.s, Some(ts.value)))
  }

  lemma ArgumentsPairsRoundTrip(args: map<string, Json>)
    ensures Collections.FromPairs(MemberPairs(ArgumentsToJson(args).members)) == args
  {
    var j := ArgumentsToJson(args);
    var pairs := MemberPairs(j.members);
    forall key | key in args
      ensures exists i :: 0 <= i < |pairs| && pairs[i].0 == key
    {
      ArgumentsToJsonCovers(args, key);
      var i :| 0 <= i < |j.members| && j.members[i].key == key;
      assert pairs[i].0 == key;
    }
    Collections.FromPairsOfMap(pairs, args);
  }

  /** Decoding the written argument object gives the argument map back. */
  lemma ArgumentsRoundTrip(args: map<string, Json>)
    ensures ArgumentsFromJson(ArgumentsToJson(args)) == Some(args)
  {
    ArgumentsPairsRoundTrip(args);
  }

  lemma ToolCallRoundTrip(t: ToolToCall)
    ensures ToolCallFromJson(ToolCallToJson(t)) == Some(t)
  {
    var j := ToolCallToJson(t);
    var f := j.members[0].value;
    assert Field(j.members, "function") == Some(f);
    assert Field(f.members, "name") == Some(JString(t.call.name));
    assert Field(f.members, "arguments") == Some(ArgumentsToJson(t.call.arguments));
    ArgumentsRoundTrip(t.call.arguments);
  }

  lemma {:induction false} ToolCallsRoundTrip(ts: seq<ToolToCall>)
    ensures ToolCallsFromJson(ToolCallsToJson(ts)) == Some(ts)
  {
    if |ts| > 0 {
      var items := ToolCallsToJson(ts);
      assert items[0] == ToolCallToJson(ts[0]);
      assert items[1..] == ToolCallsToJson(ts[1..]);
      ToolCallRoundTrip(ts[0]);
      ToolCallsRoundTrip(ts[1..]);
      assert [ts[0]] + ts[1..] == ts;
    }
  }

  /** Decoding the wire form of a message gives the message back, tool calls included. */
  lemma MessageRoundTrip(m: Message)
    ensures MessageFromJson(MessageToJson(m)) == Some(m)
  {
    var ms := MessageToJson(m).members;
    var role := JString(RoleName(m.role));
    var content := JString(m.content);
    assert ms[0] == Member("role", role) && ms[1] == Member("content", content);
    assert Field(ms, "role") == Some(role);
    assert Field(ms, "content") == Some(content);
    var rest := ms[1..][1..];
    assert Field(ms, "tool_calls") == Field(rest, "tool_calls");
    if m.toolCalls.None? {
      assert rest == [];
      assert MessageFromFields(Some(role), Some(content), None) == Some(m);
    } else {
      var tc := JArray(ToolCallsToJson(m.toolCalls.value));
      assert rest == [Member("tool_calls", tc)];
      ToolCallsRoundTrip(m.toolCalls.value);
      assert MessageFromFields(Some(role), Some(content), Some(tc)) == Some(m);
    }
  }
}

/** The unit-test cases of `src/message.rs` and `src/ai_tool_to_call.rs`, stated over the model. */
module MessageExamples {
  import opened Wrappers
  import opened Json
  import opened Messages

  /** The unit-test case: `ARG1 = "Value1"` is returned as the text `"Value1"` with its quotes. */
  lemma GetArgumentsExample()
    ensures GetArguments(NewToolToCall("FunctName", map["ARG1" := JString("Value1")]))["ARG1"] == "\"Value1\""
  {
    var args := map["ARG1" := JString("Value1")];
    var out := GetArguments(NewToolToCall("FunctName", args));
    assert "ARG1" in args;
    assert out["ARG1"] == Render(JString("Value1"));
    Value1Text();
  }

  lemma Value1Text()
    ensures Render(JString("Value1")) == "\"Value1\""
  {
    Value1Plain();
    RenderPlainString("Value1");
    assert "\"" + "Value1" + "\"" == "\"Value1\"";
  }

  lemma Value1Plain()
    ensures forall k :: 0 <= k < |"Value1"| ==> !NeedsEscape("Value1"[k])
  {
  }

  /** The unit-test case: the first stored tool call keeps its function name. */
  lemma GetToolsExample()
    ensures var m := Message(User, "This is a prompt", Some([NewToolToCall("FunctName", map["ARG1" := JString("Value1")])]));
            GetRole(m) == User && GetFunctionName(GetTools(m).value[0]) == "FunctName"
  {
  }
}
