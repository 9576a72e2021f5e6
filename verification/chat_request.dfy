/**
  The chat request builder (`src/ai_chat_helper.rs`): the request body sent
  to a chat endpoint, assembled from an optional system prompt stamped with
  the current date and time, the prior conversation and the new message,
  and its serde JSON text.

  The clock is not read here: date and time arrive as already formatted
  strings.
 */
module ChatRequests {
  import opened Wrappers
  import opened Json
  import opened Messages
  import opened Tools
  import Collections

  /** `AIChatRequest`. */
  datatype ChatRequest = ChatRequest(model: string, messages: seq<Message>, stream: bool, tools: Option<seq<Tool>>)

  /** The system prompt as sent: the configured text followed by the date and time sentence. */
  function SystemPrompt(system: string, date: string, time: string): string {
    system + ". The current date is " + date + " and the current time is " + time
  }

  /** Number of leading messages the builder adds before the prior conversation. */
  function Offset(system: Option<string>): nat {
    if system.Some? then 1 else 0
  }

  /**
    `get_chat_ai_chat_request`: [system prompt], then the context in its
    order, then the new message; model, stream flag and tools copied.
   */
  function BuildChatRequest(
    model: string, role: Role, text: string, context: seq<Message>, system: Option<string>,
    tools: Option<seq<Tool>>, date: string, time: string, stream: bool): (r: ChatRequest)
    ensures r.model == model && r.stream == stream && r.tools == tools
    ensures |r.messages| == Offset(system) + |context| + 1
    ensures system.Some? ==> r.messages[0] == NewMessage(System, SystemPrompt(system.value, date, time))
    ensures r.messages[Offset(system)..Offset(system) + |context|] == context
    ensures r.messages[|r.messages| - 1] == NewMessage(role, text)
  {
    var initial := if system.Some? then [NewMessage(System, SystemPrompt(system.value, date, time))] else [];
    var messages := initial + context + [NewMessage(role, text)];
    assert messages[|initial|..|initial| + |context|] == context;
    ChatRequest(model, messages, stream, tools)
  }

  /**
    The history the caller keeps for the next turn (the request without its
    system prompt) is the previous history followed by the new message, so
    feeding it back as context grows the conversation one message per turn.
   */
  lemma HistoryGrows(
    model: string, role: Role, text: string, context: seq<Message>, system: Option<string>,
    tools: Option<seq<Tool>>, date: string, time: string, stream: bool)
    ensures var r := BuildChatRequest(model, role, text, context, system, tools, date, time, stream);
            r.messages[Offset(system)..] == context + [NewMessage(role, text)]
  {
    var r := BuildChatRequest(model, role, text, context, system, tools, date, time, stream);
    var off := Offset(system);
    assert r.messages[off..] == r.messages[off..off + |context|] + [r.messages[|r.messages| - 1]];
  }

  /** Without a system prompt the request carries no message the caller did not supply. */
  lemma NoSystemPromptAdded(
    model: string, role: Role, text: string, context: seq<Message>,
    tools: Option<seq<Tool>>, date: string, time: string, stream: bool)
    ensures BuildChatRequest(model, role, text, context, None, tools, date, time, stream).messages
            == context + [NewMessage(role, text)]
  {
    HistoryGrows(model, role, text, context, None, tools, date, time, stream);
  }

  // ---------------------------------------------------------------------
  // Wire form

  ghost function PropertyToJson(p: ToolParamProperty): Json {
    JObject([Member("type", JString(p.kind)), Member("description", JString(p.description))])
  }

  /** The properties map as an object, in the map's (unspecified) iteration order. */
  ghost function PropertiesToJson(props: map<string, ToolParamProperty>): (j: Json)
    ensures j.JObject? && |j.members| == |props|
    ensures forall i :: 0 <= i < |j.members| ==>
              j.members[i].key in props && j.members[i].value == PropertyToJson(props[j.members[i].key])
  {
    var keys := Collections.SetToSeq(props.Keys);
    JObject(seq(|keys|, i requires 0 <= i < |keys| => Member(keys[i], PropertyToJson(props[keys[i]]))))
  }

  /** A catalog entry as serde writes it, `kind` fields under their wire name `type`. */
  ghost function ToolToJson(t: Tool): Json {
    var ps := t.def.parameters;
    JObject([
      Member("type", JString(t.kind)),
      Member("function", JObject([
        Member("name", JString(t.def.name)),
        Member("description", JString(t.def.description)),
        Member("parameters", JObject([
          Member("type", JString(ps.kind)),
          Member("properties", PropertiesToJson(ps.properties)),
          Member("required", JArray(seq(|ps.required|, i requires 0 <= i < |ps.required| => JString(ps.required[i]))))]))]))])
  }

  ghost function MessagesToJson(ms: seq<Message>): (items: seq<Json>)
    ensures |items| == |ms|
    ensures forall i :: 0 <= i < |ms| ==> items[i] == MessageToJson(ms[i])
  {
    seq(|ms|, i requires 0 <= i < |ms| => MessageToJson(ms[i]))
  }

  /** The serde shape of a request: model, messages, stream, and `tools` only when present. */
  ghost function RequestToJson(r: ChatRequest): (j: Json)
    ensures Keys(j) == ["model", "messages", "stream"] + (if r.tools.Some? then ["tools"] else [])
  {
    var base := [Member("model", JString(r.model)), Member("messages", JArray(MessagesToJson(r.messages))),
                 Member("stream", JBool(r.stream))];
    match r.tools
    case None => JObject(base)
    case Some(ts) => JObject(base + [Member("tools", JArray(seq(|ts|, i requires 0 <= i < |ts| => ToolToJson(ts[i]))))])
  }

  /** `get_chat_request_json` when serialisation succeeds: the compact JSON text of the request. */
  ghost function ChatRequestJson(r: ChatRequest): (text: string)
    ensures |text| >= 2 && text[0] == '{' && text[|text| - 1] == '}'
  {
    Render(RequestToJson(r))
  }

  // ---------------------------------------------------------------------
  // The text of requests whose strings need no escaping

  predicate Plain(s: string) {
    forall k :: 0 <= k < |s| ==> !NeedsEscape(s[k])
  }

  /** The expected text of a message without tool calls, written out by hand. */
  function MessageText(m: Message): string {
    "{\"role\":\"" + RoleName(m.role) + "\",\"content\":\"" + m.content + "\"}"
  }

  function MessagesText(ms: seq<Message>): string {
    if |ms| == 0 then "" else MessageText(ms[0]) + (if |ms| == 1 then "" else "," + MessagesText(ms[1..]))
  }

  /** The expected text of a request without tools, written out by hand. */
  function RequestText(r: ChatRequest): string {
    "{\"model\":\"" + r.model + "\",\"messages\":[" + MessagesText(r.messages) + "],\"stream\":"
      + (if r.stream then "true" else "false") + "}"
  }

  lemma PlainConcat(a: string, b: string)
    ensures Plain(a + b) <==> Plain(a) && Plain(b)
  {
    if Plain(a) && Plain(b) {
      forall k | 0 <= k < |a + b|
        ensures !NeedsEscape((a + b)[k])
      {
        if k < |a| {
          assert (a + b)[k] == a[k];
        } else {
          assert (a + b)[k] == b[k - |a|];
        }
      }
    }
    if Plain(a + b) {
      assert forall k :: 0 <= k < |a| ==> a[k] == (a + b)[k];
      assert forall k :: 0 <= k < |b| ==> b[k] == (a + b)[|a| + k];
    }
  }

  lemma RoleNamePlain(role: Role)
    ensures Plain(RoleName(role))
  {
  }

  lemma KeyText(key: string)
    requires Plain(key)
    ensures Quote(key) == "\"" + key + "\""
  {
    EscapeOfPlain(key);
  }

  /** Regrouping of the rendered message text; the pieces are arbitrary strings. */
  lemma MessageShape(role: string, content: string, lb: string, kr: string, colon: string, q: string,
                     comma: string, kc: string, rb: string)
    ensures lb + (kr + colon + (q + role + q) + (comma + (kc + colon + (q + content + q) + ""))) + rb
            == (lb + kr + colon + q) + role + (q + comma + kc + colon + q) + content + (q + rb)
  {
  }

  /** Regrouping of the rendered request text; the pieces are arbitrary strings. */
  lemma RequestShape(model: string, items: string, flag: string, lb: string, km: string, colon: string, q: string,
                     comma: string, kms: string, lsb: string, rsb: string, ks: string, rb: string)
    ensures lb + (km + colon + (q + model + q) + (comma + (kms + colon + (lsb + items + rsb) + (comma + (ks + colon + flag + ""))))) + rb
            == (lb + km + colon + q) + model + (q + comma + kms + colon + lsb) + items + (rsb + comma + ks + colon) + flag + rb
  {
  }

  /** A message without tool calls whose content needs no escaping is written as `{"role":..,"content":..}`. */
  lemma RenderPlainMessage(m: Message)
    requires m.toolCalls.None? && Plain(m.content)
    ensures Render(MessageToJson(m)) == MessageText(m)
  {
    var role := RoleName(m.role);
    var content := m.content;
    var ms := [Member("role", JString(role)), Member("content", JString(content))];
    assert MessageToJson(m) == JObject(ms);
    assert ms[1..] == [Member("content", JString(content))];
    RoleNamePlain(m.role);
    RenderPlainString(role);
    RenderPlainString(content);
    MessageKeys();
    var kr, kc := "\"" + "role" + "\"", "\"" + "content" + "\"";
    calc {
      Render(MessageToJson(m));
      "{" + RenderMembers(ms) + "}";
      "{" + (Quote("role") + ":" + Render(JString(role)) + ("," + (Quote("content") + ":" + Render(JString(content)) + ""))) + "}";
      "{" + (kr + ":" + ("\"" + role + "\"") + ("," + (kc + ":" + ("\"" + content + "\"") + ""))) + "}";
      { MessageShape(role, content, "{", kr, ":", "\"", ",", kc, "}"); }
      ("{" + kr + ":" + "\"") + role + ("\"" + "," + kc + ":" + "\"") + content + ("\"" + "}");
      { MessagePieces(); }
      MessageText(m);
    }
  }

  lemma MessageKeys()
    ensures Quote("role") == "\"" + "role" + "\"" && Quote("content") == "\"" + "content" + "\""
  {
    KeyText("role");
    KeyText("content");
  }

  lemma ModelKey()
    ensures Quote("model") == "\"" + "model" + "\""
  {
    KeyText("model");
  }

  lemma MessagesKey()
    ensures Quote("messages") == "\"" + "messages" + "\""
  {
    KeyText("messages");
  }

  lemma StreamKey()
    ensures Quote("stream") == "\"" + "stream" + "\""
  {
    KeyText("stream");
  }

  // Spells out literal concatenations for the verifier; no model content.
  lemma MessagePieces()
    ensures "{" + ("\"" + "role" + "\"") + ":" + "\"" == "{\"role\":\""
    ensures "\"" + "," + ("\"" + "content" + "\"") + ":" + "\"" == "\",\"content\":\""
    ensures "\"" + "}" == "\"}"
  {
  }

  lemma {:induction false} RenderPlainMessages(ms: seq<Message>)
    requires forall i :: 0 <= i < |ms| ==> ms[i].toolCalls.None? && Plain(ms[i].content)
    ensures RenderItems(MessagesToJson(ms)) == MessagesText(ms)
    decreases |ms|
  {
    if |ms| > 0 {
      RenderPlainMessage(ms[0]);
      if |ms| > 1 {
        RenderPlainMessages(ms[1..]);
        assert MessagesToJson(ms)[1..] == MessagesToJson(ms[1..]);
      }
    }
  }

  /** The members of a request without tools, keys quoted, before regrouping. */
  lemma RequestMembersText(model: string, items: seq<Json>, stream: bool)
    requires Plain(model)
    ensures RenderMembers([Member("model", JString(model)), Member("messages", JArray(items)), Member("stream", JBool(stream))])
            == ("\"" + "model" + "\"") + ":" + ("\"" + model + "\"")
               + ("," + (("\"" + "messages" + "\"") + ":" + ("[" + RenderItems(items) + "]")
                         + ("," + (("\"" + "stream" + "\"") + ":" + (if stream then "true" else "false") + ""))))
  {
    var ms := [Member("model", JString(model)), Member("messages", JArray(items)), Member("stream", JBool(stream))];
    assert ms[1..] == [Member("messages", JArray(items)), Member("stream", JBool(stream))];
    assert ms[1..][1..] == [Member("stream", JBool(stream))];
    RenderPlainString(model);
    ModelKey();
    MessagesKey();
    StreamKey();
    var streamText := Quote("stream") + ":" + Render(JBool(stream)) + "";
    assert RenderMembers(ms[1..][1..]) == streamText;
    assert RenderMembers(ms[1..]) == Quote("messages") + ":" + Render(JArray(items)) + ("," + streamText);
  }

  /** A request without tools whose strings need no escaping is written exactly as `RequestText` spells it. */
  lemma RenderPlainRequest(r: ChatRequest)
    requires r.tools.None? && Plain(r.model)
    requires forall i :: 0 <= i < |r.messages| ==> r.messages[i].toolCalls.None? && Plain(r.messages[i].content)
    ensures ChatRequestJson(r) == RequestText(r)
  {
    var items := MessagesToJson(r.messages);
    var ms := [Member("model", JString(r.model)), Member("messages", JArray(items)), Member("stream", JBool(r.stream))];
    assert RequestToJson(r) == JObject(ms);
    RenderPlainMessages(r.messages);
    RequestMembersText(r.model, items, r.stream);
    var text := MessagesText(r.messages);
    var flag := if r.stream then "true" else "false";
    var km, kms, ks := "\"" + "model" + "\"", "\"" + "messages" + "\"", "\"" + "stream" + "\"";
    calc {
      ChatRequestJson(r);
      "{" + RenderMembers(ms) + "}";
      "{" + (km + ":" + ("\"" + r.model + "\"")
             + ("," + (kms + ":" + ("[" + text + "]")
                       + ("," + (ks + ":" + flag + ""))))) + "}";
      { RequestShape(r.model, text, flag, "{", km, ":", "\"", ",", kms, "[", "]", ks, "}"); }
      ("{" + km + ":" + "\"") + r.model + ("\"" + "," + kms + ":" + "[") + text + ("]" + "," + ks + ":") + flag + "}";
      { RequestPieces(); }
      RequestText(r);
    }
  }

  // Spells out literal concatenations for the verifier; no model content.
  lemma RequestPieces()
    ensures "{" + ("\"" + "model" + "\"") + ":" + "\"" == "{\"model\":\""
    ensures "\"" + "," + ("\"" + "messages" + "\"") + ":" + "[" == "\",\"messages\":["
    ensures "]" + "," + ("\"" + "stream" + "\"") + ":" == "],\"stream\":"
  {
  }
}

/** The unit-test request of `src/ai_chat_helper.rs`, stated over the model. */
module ChatRequestExamples {
  import opened Wrappers
  import opened Json
  import opened Messages
  import opened ChatRequests

  const SystemText: string := "AI Assistant" + ". The current date is " + "03/27/2025" + " and the current time is " + "6:45 PM"

  const SystemJson: string := "{\"role\":\"system\",\"content\":\"" + SystemText + "\"}"

  const UserJson: string := "{\"role\":\"user\",\"content\":\"The prompt\"}"

  /** The body the unit test expects, written in three pieces. */
  const ExpectedJson: string := "{\"model\":\"llama3.1\",\"messages\":[" + SystemJson + "," + UserJson + "],\"stream\":false}"

  function TestRequest(): ChatRequest {
    BuildChatRequest("llama3.1", User, "The prompt", [], Some("AI Assistant"), None, "03/27/2025", "6:45 PM", false)
  }

  lemma TestRequestMessages()
    ensures TestRequest() == ChatRequest("llama3.1", [NewMessage(System, SystemText), NewMessage(User, "The prompt")], false, None)
  {
  }

  // Reassociates a concatenation for the verifier; no model content.
  lemma Regroup(a: string, b: string, c: string, d: string, e: string)
    ensures a + b + c + d + e == (a + b + c) + d + e
  {
  }

  lemma SystemMessageText()
    ensures MessageText(NewMessage(System, SystemText)) == SystemJson
  {
    Regroup("{\"role\":\"", "system", "\",\"content\":\"", SystemText, "\"}");
    assert "{\"role\":\"" + "system" + "\",\"content\":\"" == "{\"role\":\"system\",\"content\":\"";
  }

  lemma UserMessageText()
    ensures MessageText(NewMessage(User, "The prompt")) == UserJson
  {
    assert "{\"role\":\"" + "user" == "{\"role\":\"user";
    assert "{\"role\":\"user" + "\",\"content\":\"" == "{\"role\":\"user\",\"content\":\"";
    assert "{\"role\":\"user\",\"content\":\"" + "The prompt" == "{\"role\":\"user\",\"content\":\"The prompt";
  }

  // Reassociates a concatenation for the verifier; no model content.
  lemma RequestRegroup(h1: string, model: string, h2: string, x: string, y: string, t1: string, flag: string, t2: string)
    ensures h1 + model + h2 + (x + ("," + y)) + t1 + flag + t2 == (h1 + model + h2) + x + "," + y + (t1 + flag + t2)
  {
  }

  lemma TestRequestText()
    ensures RequestText(ChatRequest("llama3.1", [NewMessage(System, SystemText), NewMessage(User, "The prompt")], false, None))
            == ExpectedJson
  {
    var ms := [NewMessage(System, SystemText), NewMessage(User, "The prompt")];
    assert ms[1..] == [NewMessage(User, "The prompt")];
    assert MessagesText(ms) == MessageText(ms[0]) + ("," + MessageText(ms[1]));
    SystemMessageText();
    UserMessageText();
    RequestRegroup("{\"model\":\"", "llama3.1", "\",\"messages\":[", SystemJson, UserJson, "],\"stream\":", "false", "}");
    assert "{\"model\":\"" + "llama3.1" + "\",\"messages\":[" == "{\"model\":\"llama3.1\",\"messages\":[";
    assert "],\"stream\":" + "false" + "}" == "],\"stream\":false}";
  }

  lemma TestStringsPlain()
    ensures Plain(SystemText) && Plain("The prompt") && Plain("llama3.1")
  {
    SystemTextPlain();
    assert Plain("The prompt");
  }

  lemma SystemTextPlain()
    ensures Plain(SystemText)
  {
    ShortPiecesPlain();
    DatePhrasePlain();
    TimePhrasePlain();
    PlainFive("AI Assistant", ". The current date is ", "03/27/2025", " and the current time is ", "6:45 PM");
  }

  // Chains PlainConcat over five pieces for the verifier; no model content.
  lemma PlainFive(a: string, b: string, c: string, d: string, e: string)
    requires Plain(a) && Plain(b) && Plain(c) && Plain(d) && Plain(e)
    ensures Plain(a + b + c + d + e)
  {
    PlainConcat(a, b);
    PlainConcat(a + b, c);
    PlainConcat(a + b + c, d);
    PlainConcat(a + b + c + d, e);
  }

  lemma ShortPiecesPlain()
    ensures Plain("AI Assistant") && Plain("03/27/2025") && Plain("6:45 PM")
  {
  }

  lemma DatePhrasePlain()
    ensures Plain(". The current date is ")
  {
    PiecePlain(". The current date is ");
  }

  lemma TimePhrasePlain()
    ensures Plain(" and the current time is ")
  {
    PiecePlain(" and the current time is ");
  }

  /** Printable ASCII text needs no escaping. */
  lemma PiecePlain(s: string)
    requires forall k :: 0 <= k < |s| ==> ' ' <= s[k] <= '~' && s[k] != '"' && s[k] != '\\'
    ensures Plain(s)
  {
  }

  /** The request of the unit test is serialised to exactly the text the test expects. */
  lemma TestRequestJson()
    ensures ChatRequestJson(TestRequest()) == ExpectedJson
  {
    TestRequestMessages();
    TestStringsPlain();
    RenderPlainRequest(TestRequest());
    TestRequestText();
  }
}
