/**
  The stream aggregator (`src/ai_stream_helper.rs`): folds the chunks of a
  streamed chat answer into one response. Parsed chunks contribute their
  content in arrival order; the first non-empty tool-call list wins; the
  metadata of the last parsed chunk is kept; malformed chunks are counted,
  each followed by a growing back-off delay, and the seventh one ends the
  read.

  The HTTP transport is a parameter: the chunks arrive as a sequence, each
  already classified as a parsed chat event or as a body that does not
  parse. The back-off sleeps are returned as their lengths in milliseconds
  instead of being slept. Status code and headers, which the aggregator
  copies from the transport unchanged, are left out.
 */
module Streams {
  import opened Wrappers
  import opened Messages

  const MaxNumErrors: nat := 5

  /** One chat event (`AIChatResponse` as the stream helper builds it). */
  datatype ChatResponse = ChatResponse(
    model: string, createdAt: string, message: Message, doneReason: Option<string>, done: bool,
    totalDuration: Option<nat>, loadDuration: Option<nat>, promptEvalCount: Option<nat>,
    promptEvalDuration: Option<nat>, evalCount: Option<nat>, evalDuration: Option<nat>)

  /** A chunk body either parses as a chat event or does not. */
  datatype Body = Parsed(event: ChatResponse) | Malformed

  /** One read from the transport: the peer address and the body. */
  datatype Chunk = Chunk(remoteAddress: string, body: Body)

  /** The event reported when no chunk parsed. */
  function NoResponse(): ChatResponse {
    ChatResponse("UNKNOWN_MODEL_ERROR", "", NewMessage(Error, "NO RESPONSE ERROR!"), Some("error"), true,
                 Some(0), Some(0), Some(0), Some(0), Some(0), Some(0))
  }

  // ---------------------------------------------------------------------
  // Reference definitions over a sequence of chunks

  /** Number of malformed chunks. */
  function MalformedCount(cs: seq<Chunk>): nat {
    if |cs| == 0 then 0
    else MalformedCount(cs[..|cs| - 1]) + (if cs[|cs| - 1].body.Malformed? then 1 else 0)
  }

  /** The contents of the parsed chunks, concatenated in arrival order. */
  function Contents(cs: seq<Chunk>): string {
    if |cs| == 0 then ""
    else
      var c := cs[|cs| - 1];
      Contents(cs[..|cs| - 1]) + (if c.body.Parsed? then c.body.event.message.content else "")
  }

  /** The tool calls of the first parsed chunk that carries some; None when none does. */
  function FirstTools(cs: seq<Chunk>): Option<seq<ToolToCall>> {
    if |cs| == 0 then None
    else if cs[0].body.Parsed? && cs[0].body.event.message.toolCalls.Some? then cs[0].body.event.message.toolCalls
    else FirstTools(cs[1..])
  }

  /** The last parsed event, or the no-response event when nothing parsed. */
  function LastEvent(cs: seq<Chunk>): ChatResponse {
    if |cs| == 0 then NoResponse()
    else if cs[|cs| - 1].body.Parsed? then cs[|cs| - 1].body.event
    else LastEvent(cs[..|cs| - 1])
  }

  /**
    How many chunks are read: chunk `i` is read exactly when at most six of
    the chunks before it were malformed, so reading stops right after the
    seventh malformed chunk.
   */
  function Consumed(cs: seq<Chunk>): (n: nat)
    ensures n <= |cs|
  {
    if |cs| == 0 then 0
    else if MalformedCount(cs[..|cs| - 1]) <= MaxNumErrors + 1 then |cs|
    else Consumed(cs[..|cs| - 1])
  }

  /** The back-off delays after the first `k` malformed chunks: 1, 2, ..., k milliseconds. */
  function Delays(k: nat): (ds: seq<nat>)
    ensures |ds| == k
    ensures forall i :: 0 <= i < k ==> ds[i] == i + 1
  {
    if k == 0 then [] else Delays(k - 1) + [k]
  }

  /** The message of the aggregated answer. */
  function FinalMessage(role: Role, content: string, tools: Option<seq<ToolToCall>>): (m: Message)
    ensures m.role == role && m.content == content && m.toolCalls == tools
  {
    match tools
    case Some(t) => NewWithTools(role, content, t)
    case None => NewMessage(role, content)
  }

  // ---------------------------------------------------------------------
  // Facts about the reference definitions

  lemma PrefixOfPrefix(cs: seq<Chunk>, i: nat)
    requires i < |cs|
    ensures cs[..i + 1][..i] == cs[..i]
    ensures cs[..i + 1][i] == cs[i]
  {
  }

  /** Reading a longer prefix never lowers the malformed count. */
  lemma {:induction false} MalformedCountMonotone(cs: seq<Chunk>, i: nat, j: nat)
    requires i <= j <= |cs|
    ensures MalformedCount(cs[..i]) <= MalformedCount(cs[..j])
    decreases j - i
  {
    if i < j {
      MalformedCountMonotone(cs, i, j - 1);
      PrefixOfPrefix(cs, j - 1);
    }
  }

  /** With at most seven malformed chunks before the last one, everything is read. */
  lemma ConsumedAll(cs: seq<Chunk>)
    requires |cs| == 0 || MalformedCount(cs[..|cs| - 1]) <= MaxNumErrors + 1
    ensures Consumed(cs) == |cs|
  {
  }

  /** A stream without malformed chunks is read to its end. */
  lemma NoMalformedReadsAll(cs: seq<Chunk>)
    requires forall i :: 0 <= i < |cs| ==> cs[i].body.Parsed?
    ensures Consumed(cs) == |cs|
  {
    if |cs| > 0 {
      NoMalformedCount(cs[..|cs| - 1]);
    }
  }

  lemma {:induction false} NoMalformedCount(cs: seq<Chunk>)
    requires forall i :: 0 <= i < |cs| ==> cs[i].body.Parsed?
    ensures MalformedCount(cs) == 0
  {
    if |cs| > 0 {
      NoMalformedCount(cs[..|cs| - 1]);
    }
  }

  /** The seventh malformed chunk is the last one read. */
  lemma {:induction false} ConsumedStops(cs: seq<Chunk>, i: nat)
    requires i < |cs| && cs[i].body.Malformed?
    requires MalformedCount(cs[..i]) == MaxNumErrors + 1
    ensures Consumed(cs) == i + 1
  {
    if |cs| > i + 1 {
      var init := cs[..|cs| - 1];
      PrefixOfPrefix(cs, i);
      MalformedCountMonotone(cs, i + 1, |cs| - 1);
      assert init[..i] == cs[..i];
      ConsumedStops(init, i);
    }
  }

  /** Every chunk before the stop point was preceded by at most six malformed chunks. */
  lemma {:induction false} ConsumedBound(cs: seq<Chunk>, i: nat)
    requires i < Consumed(cs)
    ensures MalformedCount(cs[..i]) <= MaxNumErrors + 1
  {
    if MalformedCount(cs[..|cs| - 1]) <= MaxNumErrors + 1 {
      MalformedCountMonotone(cs, i, |cs| - 1);
    } else {
      var init := cs[..|cs| - 1];
      ConsumedBound(init, i);
      assert init[..i] == cs[..i];
    }
  }

  /** Contents distribute over concatenation: chunk order is content order. */
  lemma {:induction false} ContentsAppend(a: seq<Chunk>, b: seq<Chunk>)
    ensures Contents(a + b) == Contents(a) + Contents(b)
    decreases |b|
  {
    if |b| == 0 {
      assert a + b == a;
    } else {
      var b0 := b[..|b| - 1];
      assert (a + b)[..|a + b| - 1] == a + b0;
      ContentsAppend(a, b0);
    }
  }

  /** The first parsed chunk carrying tool calls decides the tool calls, whatever follows. */
  lemma {:induction false} FirstToolsWins(cs: seq<Chunk>, i: nat)
    requires i < |cs| && cs[i].body.Parsed? && cs[i].body.event.message.toolCalls.Some?
    requires forall j :: 0 <= j < i ==> !(cs[j].body.Parsed? && cs[j].body.event.message.toolCalls.Some?)
    ensures FirstTools(cs) == cs[i].body.event.message.toolCalls
  {
    if i > 0 {
      FirstToolsWins(cs[1..], i - 1);
    }
  }

  lemma {:induction false} FirstToolsExtend(cs: seq<Chunk>, i: nat)
    requires i < |cs|
    requires FirstTools(cs[..i]).None?
    ensures FirstTools(cs[..i + 1]) ==
              if cs[i].body.Parsed? then cs[i].body.event.message.toolCalls else None
  {
    if i > 0 {
      assert cs[..i + 1][1..] == cs[1..][..i];
      assert cs[..i][1..] == cs[1..][..i - 1];
      FirstToolsExtend(cs[1..], i - 1);
    }
  }

  lemma {:induction false} FirstToolsKeep(cs: seq<Chunk>, i: nat)
    requires i < |cs|
    requires FirstTools(cs[..i]).Some?
    ensures FirstTools(cs[..i + 1]) == FirstTools(cs[..i])
  {
    if i > 0 && !(cs[0].body.Parsed? && cs[0].body.event.message.toolCalls.Some?) {
      assert cs[..i + 1][1..] == cs[1..][..i];
      assert cs[..i][1..] == cs[1..][..i - 1];
      FirstToolsKeep(cs[1..], i - 1);
    }
  }

  // ---------------------------------------------------------------------
  // The aggregator

  /**
    `process_stream`: reads chunks until the transport is exhausted or the
    seventh malformed chunk, and returns the aggregated answer (metadata of
    the last parsed event, role included, with the concatenated content and
    the first tool-call list), the address of the last chunk read ("0.0.0.0"
    when none was), the number of recorded failures and the back-off delays
    slept after them.
   */
  method ProcessStream(chunks: seq<Chunk>)
    returns (response: ChatResponse, remoteAddress: string, errorCount: nat, delays: seq<nat>)
    ensures var read := chunks[..Consumed(chunks)];
            var last := LastEvent(read);
            && response == last.(message := FinalMessage(last.message.role, Contents(read), FirstTools(read)))
            && remoteAddress == (if |read| == 0 then "0.0.0.0" else read[|read| - 1].remoteAddress)
            && errorCount == (if MalformedCount(read) <= MaxNumErrors + 1 then MalformedCount(read) else MaxNumErrors + 1)
            && delays == Delays(errorCount)
    ensures errorCount <= MaxNumErrors + 1
  {
    var content := "";
    var tools: Option<seq<ToolToCall>> := None;
    var last := NoResponse();
    remoteAddress := "0.0.0.0";
    errorCount := 0;
    delays := [];
    var i := 0;
    ghost var read := 0;
    while i < |chunks|
      invariant 0 <= i <= |chunks|
      invariant errorCount == MalformedCount(chunks[..i]) <= MaxNumErrors + 1
      invariant content == Contents(chunks[..i]) && tools == FirstTools(chunks[..i])
      invariant last == LastEvent(chunks[..i])
      invariant remoteAddress == if i == 0 then "0.0.0.0" else chunks[i - 1].remoteAddress
      invariant delays == Delays(errorCount)
      invariant read == i
    {
      var c := chunks[i];
      remoteAddress := c.remoteAddress;
      match c.body {
        case Parsed(event) =>
          ReadParsed(chunks, i);
          last := event;
          content := content + event.message.content;
          if tools.None? {
            FirstToolsExtend(chunks, i);
            tools := event.message.toolCalls;
          } else {
            FirstToolsKeep(chunks, i);
          }
        case Malformed =>
          ReadMalformed(chunks, i);
          if errorCount > MaxNumErrors {
            ConsumedStops(chunks, i);
            read := i + 1;
            break;
          }
          errorCount := errorCount + 1;
          delays := delays + [errorCount];
      }
      i := i + 1;
      read := i;
    }
    if read == |chunks| && |chunks| > 0 {
      MalformedCountMonotone(chunks, |chunks| - 1, |chunks|);
      ConsumedAll(chunks);
    }
    assert chunks[..Consumed(chunks)] == chunks[..read];
    response := last.(message := FinalMessage(last.message.role, content, tools));
  }

  /** Reading a parsed chunk appends its content and makes it the last event. */
  lemma ReadParsed(cs: seq<Chunk>, i: nat)
    requires i < |cs| && cs[i].body.Parsed?
    ensures MalformedCount(cs[..i + 1]) == MalformedCount(cs[..i])
    ensures Contents(cs[..i + 1]) == Contents(cs[..i]) + cs[i].body.event.message.content
    ensures LastEvent(cs[..i + 1]) == cs[i].body.event
  {
    PrefixOfPrefix(cs, i);
  }

  /** Reading a malformed chunk only adds one to the malformed count. */
  lemma ReadMalformed(cs: seq<Chunk>, i: nat)
    requires i < |cs| && cs[i].body.Malformed?
    ensures MalformedCount(cs[..i + 1]) == MalformedCount(cs[..i]) + 1
    ensures Contents(cs[..i + 1]) == Contents(cs[..i])
    ensures LastEvent(cs[..i + 1]) == LastEvent(cs[..i])
    ensures FirstTools(cs[..i + 1]) == FirstTools(cs[..i])
  {
    PrefixOfPrefix(cs, i);
    if FirstTools(cs[..i]).None? {
      FirstToolsExtend(cs, i);
    } else {
      FirstToolsKeep(cs, i);
    }
  }
}

/** Small streams showing the aggregation and the error cut-off. */
module StreamExamples {
  import opened Wrappers
  import opened Messages
  import opened Streams

  function Event(content: string, done: bool): ChatResponse {
    ChatResponse("llama3.1", "2025-03-27T18:45:00Z", NewMessage(Assistant, content), None, done,
                 None, None, None, None, None, None)
  }

  function Good(content: string, done: bool): Chunk {
    Chunk("127.0.0.1:11434", Parsed(Event(content, done)))
  }

  function Bad(): Chunk {
    Chunk("127.0.0.1:11434", Malformed)
  }

  /** Three content chunks are all read and aggregate to "abc", with the metadata of the last one. */
  lemma ThreeChunks()
    ensures var cs := [Good("a", false), Good("b", false), Good("c", true)];
            && Consumed(cs) == 3
            && Contents(cs) == "abc"
            && LastEvent(cs) == Event("c", true)
            && FirstTools(cs).None?
  {
    var cs := [Good("a", false), Good("b", false), Good("c", true)];
    NoMalformedReadsAll(cs);
    assert cs[..0] == [];
    ReadParsed(cs, 0);
    ReadParsed(cs, 1);
    ReadParsed(cs, 2);
    assert cs[..3] == cs;
    assert "" + "a" == "a";
    assert "a" + "b" == "ab";
    assert "ab" + "c" == "abc";
  }

  /** A malformed chunk between two events is counted and skipped; reading goes on. */
  lemma GarbageInBetween()
    ensures var cs := [Good("a", false), Bad(), Good("b", true)];
            && Consumed(cs) == 3
            && Contents(cs) == "ab"
            && MalformedCount(cs) == 1
            && LastEvent(cs) == Event("b", true)
  {
    var cs := [Good("a", false), Bad(), Good("b", true)];
    assert cs[..0] == [];
    ReadParsed(cs, 0);
    ReadMalformed(cs, 1);
    ReadParsed(cs, 2);
    assert cs[..3] == cs;
    ConsumedAll(cs);
    assert "" + "a" == "a";
    assert "a" + "b" == "ab";
  }

  /** Seven malformed chunks end the read: a chunk after them is never consumed, and the no-response event stands. */
  lemma SeventhErrorStops(late: Chunk)
    ensures var cs := [Bad(), Bad(), Bad(), Bad(), Bad(), Bad(), Bad(), late];
            && Consumed(cs) == 7
            && Contents(cs[..7]) == ""
            && LastEvent(cs[..7]) == NoResponse()
  {
    var cs := [Bad(), Bad(), Bad(), Bad(), Bad(), Bad(), Bad(), late];
    assert cs[..0] == [];
    var k := 0;
    while k < 6
      invariant 0 <= k <= 6
      invariant MalformedCount(cs[..k]) == k
      invariant Contents(cs[..k]) == "" && LastEvent(cs[..k]) == NoResponse()
    {
      ReadMalformed(cs, k);
      k := k + 1;
    }
    ConsumedStops(cs, 6);
    ReadMalformed(cs, 6);
  }
}
