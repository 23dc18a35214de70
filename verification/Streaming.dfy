/** Streaming a turn with recursive tool continuation (apps/cli/src/agent/process.rs,
    `stream_with_tool_execution` and `stream_continuation_with_tool_result`). */
module Streaming {
  import opened Wrappers
  import opened Chat
  import opened Utf8

  datatype ToolOutcome = Ran(output: string, isError: bool) | Broke(error: string)

  /** What the provider streams.  A tool call carries what the tool will do and what the provider
      will stream when asked to continue after it: a finite tree is a finite chain of tools. */
  datatype Chunk =
    | Words(text: string)
    | Call(use: ToolUse, server: string, tool: ToolOutcome, continuation: seq<Chunk>)
    | Done
    | Ignored
    | Fail(error: string)

  datatype Broadcast =
    | StreamChunk(text: string)
    | ToolCallStart(id: string)
    | StatusUpdate(status: string)
    | ToolResultSent(id: string, isError: bool)
    | ErrorSent(message: string)
    | StreamEnd

  const LOCAL := "cli-local"

  /** The tool call and its result, as appended for the continuation. */
  function Exchange(use: ToolUse, output: string): seq<Message> {
    [Message(Assistant, Blocks([ToolUseBlock(use)])), ResultMessage(ToolResult(use.id, output, false))]
  }

  /** `calls` lists the histories the provider was asked to continue. */
  datatype Trace = Trace(result: Result<string, Fault>, sent: seq<Broadcast>, calls: seq<seq<Message>>)

  // ----- reference semantics -----

  function Emit(sent: seq<Broadcast>, t: Trace): Trace {
    t.(sent := sent + t.sent)
  }

  function Prepend(text: string, r: Result<string, Fault>): Result<string, Fault> {
    if r.Ok? then Ok(text + r.value) else r
  }

  lemma PrependTwice(a: string, b: string, r: Result<string, Fault>)
    ensures Prepend("", r) == r
    ensures Prepend(a, Prepend(b, r)) == Prepend(a + b, r)
  {
    if r.Ok? {
      assert "" + r.value == r.value;
      assert a + (b + r.value) == (a + b) + r.value;
    }
  }

  function Opening(c: Chunk): seq<Broadcast>
    requires c.Call?
  {
    [ToolCallStart(c.use.id), StatusUpdate("Executing: " + c.use.name),
     ToolResultSent(c.use.id, c.tool.Broke? || c.tool.isError)]
  }

  /** The chunk executes a tool and hands the turn to its continuation. */
  predicate Continues(c: Chunk) {
    c.Call? && c.server == LOCAL && c.tool.Ran?
  }

  function Handed(t: Trace): seq<Broadcast> {
    [StatusUpdate("Processing tool result...")] + t.sent
    + match t.result case Err(Reported(e)) => [ErrorSent("Continuation failed: " + e)] case _ => []
  }

  /** Logging a preview of the continued text cuts it after 100 bytes, which panics inside a character;
      a panic ends all the streams that wait for the continuation. */
  function Taken(logs: bool, r: Result<string, Fault>): Result<string, Fault> {
    match r
    case Err(Reported(_)) => Ok("")
    case Err(Panic) => r
    case Ok(text) => if logs && Splits(text, 100) then Err(Panic) else r
  }

  /** The rest of a stream that hands over at `c` to a continuation with trace `t`. */
  function HandOver(logs: bool, c: Chunk, t: Trace): Trace
    requires c.Call?
  {
    var r := Taken(logs, t.result);
    Trace(r, Opening(c) + Handed(t) + (if r.Ok? then [StreamEnd] else []), t.calls)
  }

  /** Reading the stream `s` from its current chunk on. */
  function Read(logs: bool, s: seq<Chunk>, h: seq<Message>): Trace
    decreases s, 0
  {
    if s == [] then Trace(Ok(""), [StreamEnd], []) else ReadChunk(logs, s[0], h, Read(logs, s[1..], h))
  }

  /** What reading `c` makes of the trace `rest` of the chunks behind it. */
  function ReadChunk(logs: bool, c: Chunk, h: seq<Message>, rest: Trace): Trace
    decreases c, 2
  {
    match c
    case Words(text) => Emit([StreamChunk(text)], rest.(result := Prepend(text, rest.result)))
    case Done => Trace(Ok(""), [StreamEnd, StreamEnd], [])
    case Ignored => rest
    case Fail(e) => Trace(Err(Reported(e)), [ErrorSent(e)], [])
    case Call(use, server, tool, continuation) =>
      if server != LOCAL then rest
      else if tool.Broke? then Emit(Opening(c), rest)
      else HandOver(logs, c, Play(logs, continuation, h + Exchange(use, tool.output)))
  }

  /** A whole stream, asked for with history `h`. */
  function Play(logs: bool, s: seq<Chunk>, h: seq<Message>): Trace
    decreases s, 1
  {
    var t := Read(logs, s, h);
    t.(calls := [h] + t.calls)
  }

  /** Reading on from position `i`, in terms of reading on from the next one. */
  lemma ReadAt(logs: bool, s: seq<Chunk>, i: nat, h: seq<Message>)
    requires i < |s|
    ensures Read(logs, s[i..], h) == ReadChunk(logs, s[i], h, Read(logs, s[i + 1..], h))
  {
    assert s[i..][1..] == s[i + 1..];
  }

  lemma ReadNothing(logs: bool, s: seq<Chunk>, h: seq<Message>)
    ensures s[0..] == s && Read(logs, s[|s|..], h) == Trace(Ok(""), [StreamEnd], [])
  {
  }

  // ----- the two functions -----

  datatype Flow = GoOn | Stop | Abort(fault: Fault)

  class Session {
    var sent: seq<Broadcast>
    ghost var calls: seq<seq<Message>>
    /** Whether informative messages are logged. */
    const logs: bool

    constructor (logs: bool)
      ensures sent == [] && calls == [] && this.logs == logs
    {
      this.logs := logs;
      sent, calls := [], [];
    }

    method Send(b: Broadcast)
      modifies this`sent
      ensures sent == old(sent) + [b]
    {
      sent := sent + [b];
    }

    method StreamWithToolExecution(stream: seq<Chunk>, history: seq<Message>) returns (r: Result<string, Fault>)
      modifies this
      ensures var t := Play(logs, stream, history);
              r == t.result && sent == old(sent) + t.sent && calls == old(calls) + t.calls
      decreases stream, 1
    {
      hide Read, ReadChunk;
      calls := calls + [history];
      var full := "";
      var i := 0;
      ReadNothing(logs, stream, history);
      PrependTwice("", "", Read(logs, stream, history).result);
      while i < |stream|
        invariant i <= |stream|
        invariant var t, rest := Read(logs, stream, history), Read(logs, stream[i..], history);
                  && old(sent) + t.sent == sent + rest.sent
                  && t.calls == rest.calls
                  && t.result == Prepend(full, rest.result)
        invariant calls == old(calls) + [history]
      {
        ReadAt(logs, stream, i, history);
        ghost var rest := Read(logs, stream[i + 1..], history);
        var text, flow := HandleChunk(stream[i], history, rest);
        PrependTwice(full, text, rest.result);
        match flow {
          case GoOn =>
            full := full + text;
            i := i + 1;
          case Stop =>
            full := full + text;
            Send(StreamEnd);
            return Ok(full);
          case Abort(e) =>
            return Err(e);
        }
      }
      assert full + "" == full;
      Send(StreamEnd);
      r := Ok(full);
    }

    /** The body of the loop for one chunk: the words it adds, and whether reading goes on. */
    method HandleChunk(chunk: Chunk, history: seq<Message>, ghost rest: Trace) returns (text: string, flow: Flow)
      modifies this
      ensures var t := ReadChunk(logs, chunk, history, rest);
              match flow
              case GoOn =>
                && old(sent) + t.sent == sent + rest.sent && calls == old(calls) && t.calls == rest.calls
                && t.result == Prepend(text, rest.result)
              case Stop =>
                old(sent) + t.sent == sent + [StreamEnd] && calls == old(calls) + t.calls && t.result == Ok(text)
              case Abort(e) =>
                sent == old(sent) + t.sent && calls == old(calls) + t.calls && t.result == Err(e)
      decreases chunk, 2
    {
      hide Opening, Handed;
      text, flow := "", GoOn;
      PrependTwice("", "", rest.result);
      match chunk {
        case Words(words) =>
          text := words;
          Send(StreamChunk(words));
        case Done =>
          Send(StreamEnd);
          flow := Stop;
        case Ignored =>
        case Fail(e) =>
          Send(ErrorSent(e));
          flow := Abort(Reported(e));
        case Call(use, server, tool, continuation) =>
          if server == LOCAL {
            SendOpening(chunk);
            if tool.Ran? {
              var taken := ContinueAfter(chunk, history);
              match taken {
                case Ok(more) => text, flow := more, Stop;
                case Err(fault) => flow := Abort(fault);
              }
            }
          }
      }
    }

    method SendOpening(c: Chunk)
      requires c.Call?
      modifies this`sent
      ensures sent == old(sent) + Opening(c)
    {
      Send(ToolCallStart(c.use.id));
      Send(StatusUpdate("Executing: " + c.use.name));
      Send(ToolResultSent(c.use.id, c.tool.Broke? || c.tool.isError));
    }

    /** A failed continuation is reported but contributes no text. */
    method ContinueAfter(call: Chunk, history: seq<Message>) returns (taken: Result<string, Fault>)
      requires Continues(call)
      modifies this
      ensures var t := Play(logs, call.continuation, history + Exchange(call.use, call.tool.output));
              && taken == Taken(logs, t.result)
              && sent == old(sent) + Handed(t)
              && calls == old(calls) + t.calls
      decreases call, 1
    {
      Send(StatusUpdate("Processing tool result..."));
      var continued := StreamContinuation(call, history);
      match continued {
        case Ok(text) =>
          taken := if logs && Splits(text, 100) then Err(Panic) else Ok(text);
        case Err(Reported(error)) =>
          Send(ErrorSent("Continuation failed: " + error));
          taken := Ok("");
        case Err(Panic) =>
          taken := continued;
      }
    }

    method StreamContinuation(call: Chunk, history: seq<Message>) returns (r: Result<string, Fault>)
      requires Continues(call)
      modifies this
      ensures var t := Play(logs, call.continuation, history + Exchange(call.use, call.tool.output));
              r == t.result && sent == old(sent) + t.sent && calls == old(calls) + t.calls
      decreases call, 0
    {
      var updated := history + [Message(Assistant, Blocks([ToolUseBlock(call.use)]))];
      updated := updated + [ResultMessage(ToolResult(call.use.id, call.tool.output, false))];
      assert updated == history + Exchange(call.use, call.tool.output);
      r := StreamWithToolExecution(call.continuation, updated);
    }
  }

  // ----- what viewers saw against what the caller gets -----

  ghost function TextOf(sent: seq<Broadcast>): string {
    if sent == [] then ""
    else (if sent[0].StreamChunk? then sent[0].text else "") + TextOf(sent[1..])
  }

  lemma {:induction false} TextOfConcat(a: seq<Broadcast>, b: seq<Broadcast>)
    ensures TextOf(a + b) == TextOf(a) + TextOf(b)
  {
    if a == [] {
      assert a + b == b;
    } else {
      assert (a + b)[1..] == a[1..] + b;
      TextOfConcat(a[1..], b);
    }
  }

  /** The stream itself fails before it ends or hands over. */
  predicate Breaks(s: seq<Chunk>) {
    s != [] && (s[0].Fail? || (!s[0].Done? && !Continues(s[0]) && Breaks(s[1..])))
  }

  /** The text that the stream is worth, unless it fails or something panics. */
  function Answer(s: seq<Chunk>): string {
    if s == [] || s[0].Done? || s[0].Fail? then ""
    else if Continues(s[0]) then if Breaks(s[0].continuation) then "" else Answer(s[0].continuation)
    else (if s[0].Words? then s[0].text else "") + Answer(s[1..])
  }

  /** How many streams of the chain, from the first one on, a panic cuts off; none if nothing
      panics.  The innermost continuation whose text cannot be cut is the one that panics. */
  function CutOff(logs: bool, s: seq<Chunk>): nat {
    if s == [] || s[0].Done? || s[0].Fail? then 0
    else if Continues(s[0]) then
      var inner := CutOff(logs, s[0].continuation);
      if inner > 0 then inner + 1
      else if logs && !Breaks(s[0].continuation) && Splits(Answer(s[0].continuation), 100) then 1 else 0
    else CutOff(logs, s[1..])
  }

  /** All words shown to viewers. */
  function Shown(s: seq<Chunk>): string {
    if s == [] || s[0].Done? || s[0].Fail? then ""
    else if Continues(s[0]) then Shown(s[0].continuation)
    else (if s[0].Words? then s[0].text else "") + Shown(s[1..])
  }

  /** Words shown to viewers by a continuation that then failed: the only ones not returned. */
  function LostWords(s: seq<Chunk>): string {
    if s == [] || s[0].Done? || s[0].Fail? then ""
    else if Continues(s[0]) then
      if Breaks(s[0].continuation) then Shown(s[0].continuation) else LostWords(s[0].continuation)
    else LostWords(s[1..])
  }

  lemma {:induction false} ShownIsAnswered(s: seq<Chunk>)
    ensures !Breaks(s) ==> Shown(s) == Answer(s) + LostWords(s)
    decreases s
  {
    if s == [] || s[0].Done? || s[0].Fail? {
    } else if Continues(s[0]) {
      ShownIsAnswered(s[0].continuation);
    } else {
      ShownIsAnswered(s[1..]);
      var own := if s[0].Words? then s[0].text else "";
      assert own + (Answer(s[1..]) + LostWords(s[1..])) == (own + Answer(s[1..])) + LostWords(s[1..]);
    }
  }

  /** How a stream ends: with its own error, with a panic behind some continuation, or with text. */
  ghost predicate Results(logs: bool, s: seq<Chunk>, r: Result<string, Fault>) {
    if Breaks(s) then r.Err? && r.error.Reported?
    else if CutOff(logs, s) > 0 then r == Err(Panic)
    else r == Ok(Answer(s))
  }

  lemma {:induction false} BrokenHasNoPanic(logs: bool, s: seq<Chunk>)
    requires Breaks(s)
    ensures CutOff(logs, s) == 0
  {
    if !s[0].Fail? {
      BrokenHasNoPanic(logs, s[1..]);
    }
  }

  /** A stream fails exactly if an error comes before its end or hand-over, and panics exactly if a
      continuation returns text that the preview cannot cut. */
  lemma {:induction false} ReadFailsIff(logs: bool, s: seq<Chunk>, h: seq<Message>)
    ensures Results(logs, s, Read(logs, s, h).result)
    decreases s
  {
    if s == [] || s[0].Done? || s[0].Fail? {
    } else if Continues(s[0]) {
      var c := s[0];
      if Breaks(c.continuation) {
        BrokenHasNoPanic(logs, c.continuation);
      }
      ReadFailsIff(logs, c.continuation, h + Exchange(c.use, c.tool.output));
      assert Read(logs, s, h) == HandOver(logs, c, Play(logs, c.continuation, h + Exchange(c.use, c.tool.output)));
    } else {
      ReadFailsIff(logs, s[1..], h);
      assert "" + Answer(s[1..]) == Answer(s[1..]);
    }
  }

  /** Viewers are shown all words up to where reading ends, in every case. */
  lemma {:induction false} ReadText(logs: bool, s: seq<Chunk>, h: seq<Message>)
    ensures TextOf(Read(logs, s, h).sent) == Shown(s)
    decreases s
  {
    if s == [] || s[0].Fail? {
    } else if s[0].Done? {
      TextOfConcat([StreamEnd], [StreamEnd]);
    } else if Continues(s[0]) {
      var c := s[0];
      var t := Play(logs, c.continuation, h + Exchange(c.use, c.tool.output));
      ReadText(logs, c.continuation, h + Exchange(c.use, c.tool.output));
      HandOverText(logs, c, t);
      assert Read(logs, s, h) == HandOver(logs, c, t);
    } else {
      var c, rest := s[0], Read(logs, s[1..], h);
      ReadText(logs, s[1..], h);
      if c.Words? {
        TextOfConcat([StreamChunk(c.text)], rest.sent);
        assert TextOf([StreamChunk(c.text)]) == c.text;
      } else if c.Call? && c.server == LOCAL {
        SilentOpening(c);
        TextOfConcat(Opening(c), rest.sent);
      }
    }
  }

  lemma SilentOpening(c: Chunk)
    requires c.Call?
    ensures TextOf(Opening(c)) == "" && Ends(Opening(c)) == 0
  {
    var o := Opening(c);
    assert o == [o[0]] + ([o[1]] + [o[2]]);
    TextOfConcat([o[0]], [o[1]] + [o[2]]);
    TextOfConcat([o[1]], [o[2]]);
    EndsConcat([o[0]], [o[1]] + [o[2]]);
    EndsConcat([o[1]], [o[2]]);
  }

  /** Handing over adds no text to what the continuation sends, and one end of stream unless
      something panics. */
  lemma HandOverText(logs: bool, c: Chunk, t: Trace)
    requires c.Call?
    ensures TextOf(HandOver(logs, c, t).sent) == TextOf(t.sent)
    ensures Ends(HandOver(logs, c, t).sent) == Ends(t.sent) + if Taken(logs, t.result).Ok? then 1 else 0
  {
    var status := [StatusUpdate("Processing tool result...")];
    var tail := Handed(t)[|status + t.sent|..];
    var end := if Taken(logs, t.result).Ok? then [StreamEnd] else [];
    SilentOpening(c);
    assert Handed(t) == status + t.sent + tail;
    TextOfConcat(Opening(c) + Handed(t), end);
    TextOfConcat(Opening(c), Handed(t));
    TextOfConcat(status + t.sent, tail);
    TextOfConcat(status, t.sent);
    EndsConcat(Opening(c) + Handed(t), end);
    EndsConcat(Opening(c), Handed(t));
    EndsConcat(status + t.sent, tail);
    EndsConcat(status, t.sent);
  }

  /** For a turn that neither fails nor panics: the returned text is exactly what was broadcast if
      and only if no continuation failed after showing words; what is missing otherwise is what
      that continuation had shown. */
  lemma ReturnedIsBroadcast(logs: bool, s: seq<Chunk>, h: seq<Message>)
    requires !Breaks(s) && CutOff(logs, s) == 0
    ensures var t := Play(logs, s, h);
            && t.result.Ok?
            && TextOf(t.sent) == t.result.value + LostWords(s)
            && (TextOf(t.sent) == t.result.value <==> LostWords(s) == "")
  {
    ReadText(logs, s, h);
    ReadFailsIff(logs, s, h);
    ShownIsAnswered(s);
    var v := Play(logs, s, h).result.value;
    if v + LostWords(s) == v {
      assert |LostWords(s)| == 0;
    }
  }

  /** A turn whose viewers see "hi" while the caller gets the empty text. */
  lemma WordsCanBeLost(logs: bool, use: ToolUse, h: seq<Message>)
    ensures var s := [Call(use, LOCAL, Ran("out", false), [Words("hi"), Fail("x")])];
            && Play(logs, s, h).result == Ok("")
            && TextOf(Play(logs, s, h).sent) == LostWords(s) == "hi"
  {
    var inner := [Words("hi"), Fail("x")];
    var s := [Call(use, LOCAL, Ran("out", false), inner)];
    assert inner[1..] == [Fail("x")];
    assert Breaks(inner[1..]) && Shown(inner[1..]) == "";
    assert Breaks(inner) && Shown(inner) == "hi" + "";
    BrokenHasNoPanic(logs, inner);
    ReadFailsIff(logs, inner, h + Exchange(use, "out"));
    assert Read(logs, s, h) == HandOver(logs, s[0], Play(logs, inner, h + Exchange(use, "out")));
    ReturnedIsBroadcast(logs, s, h);
  }

  /** A turn whose only words come from one continuation, and cannot be cut. */
  lemma UncutWordsPanic(use: ToolUse, words: string, h: seq<Message>)
    requires Splits(words, 100)
    ensures var s := [Call(use, LOCAL, Ran("out", false), [Words(words)])];
            Play(true, s, h).result == Err(Panic) && TextOf(Play(true, s, h).sent) == words
  {
    hide Splits;
    var inner := [Words(words)];
    var s := [Call(use, LOCAL, Ran("out", false), inner)];
    assert inner[1..] == [] && words + "" == words;
    assert !Breaks([]) && Answer([]) == "" && Shown([]) == "" && CutOff(true, []) == 0;
    assert !Breaks(inner) && Answer(inner) == words && Shown(inner) == words && CutOff(true, inner) == 0;
    assert CutOff(true, s) == 1;
    ReadFailsIff(true, s, h);
    ReadText(true, s, h);
  }

  /** 34 characters of three bytes: a turn that panics after viewers saw all its words. */
  lemma PreviewCanPanic(use: ToolUse, h: seq<Message>)
    ensures var words := Repeat('\U{20AC}', 34);
            var s := [Call(use, LOCAL, Ran("out", false), [Words(words)])];
            Play(true, s, h).result == Err(Panic) && TextOf(Play(true, s, h).sent) == words
  {
    RepeatSplits('\U{20AC}', 34, 100);
    UncutWordsPanic(use, Repeat('\U{20AC}', 34), h);
  }

  // ----- histories along the chain of tools -----

  datatype Executed = Executed(use: ToolUse, output: string)

  /** The tools executed in this turn, in order. */
  function Chain(s: seq<Chunk>): seq<Executed> {
    if s == [] || s[0].Done? || s[0].Fail? then []
    else if Continues(s[0]) then [Executed(s[0].use, s[0].tool.output)] + Chain(s[0].continuation)
    else Chain(s[1..])
  }

  function Exchanges(chain: seq<Executed>): seq<Message> {
    if chain == [] then [] else Exchange(chain[0].use, chain[0].output) + Exchanges(chain[1..])
  }

  lemma CallsOfRead(logs: bool, s: seq<Chunk>, h: seq<Message>)
    ensures s == [] || s[0].Done? || s[0].Fail? ==> Read(logs, s, h).calls == []
    ensures s != [] && Continues(s[0]) ==>
              Read(logs, s, h).calls == Play(logs, s[0].continuation, h + Exchange(s[0].use, s[0].tool.output)).calls
    ensures s != [] && !s[0].Done? && !s[0].Fail? && !Continues(s[0]) ==>
              Read(logs, s, h).calls == Read(logs, s[1..], h).calls
  {
    hide Opening, Handed, Prepend;
  }

  /** The d-th continuation is asked for with the starting history and exactly the first d tool
      calls, each followed by its own result. */
  lemma {:induction false} HistoryAtDepth(logs: bool, s: seq<Chunk>, h: seq<Message>, d: nat)
    requires d <= |Chain(s)|
    ensures var calls := Play(logs, s, h).calls;
            |calls| == |Chain(s)| + 1 && calls[d] == h + Exchanges(Chain(s)[..d])
    decreases s
  {
    hide Read, Exchange;
    CallsOfRead(logs, s, h);
    assert Play(logs, s, h).calls == [h] + Read(logs, s, h).calls;
    assert h + Exchanges([]) == h;
    if s == [] || s[0].Done? || s[0].Fail? {
    } else if Continues(s[0]) {
      var x := Exchange(s[0].use, s[0].tool.output);
      var later := Chain(s[0].continuation);
      HistoryAtDepth(logs, s[0].continuation, h + x, if d == 0 then 0 else d - 1);
      if d > 0 {
        assert Chain(s)[..d][1..] == later[..d - 1];
        assert (h + x) + Exchanges(later[..d - 1]) == h + (x + Exchanges(later[..d - 1]));
      }
    } else {
      HistoryAtDepth(logs, s[1..], h, d);
      assert Play(logs, s[1..], h).calls == [h] + Read(logs, s[1..], h).calls;
    }
  }

  lemma {:induction false} ExchangesOfOneMore(chain: seq<Executed>)
    requires chain != []
    ensures var n, last := |chain| - 1, chain[|chain| - 1];
            Exchanges(chain) == Exchanges(chain[..n]) + Exchange(last.use, last.output)
  {
    if |chain| == 1 {
      assert chain[1..] == [] && chain[..0] == [];
    } else {
      ExchangesOfOneMore(chain[1..]);
      assert chain[..|chain| - 1][1..] == chain[1..][..|chain| - 2];
    }
  }

  /** What is new in the d-th request: the tool call just executed, as the assistant's, and behind it
      the output of that very call, as the user's and not as an error. */
  lemma RequestEndsWithResult(logs: bool, s: seq<Chunk>, h: seq<Message>, d: nat)
    requires 0 < d <= |Chain(s)|
    ensures var calls, executed := Play(logs, s, h).calls, Chain(s)[d - 1];
            && |calls| == |Chain(s)| + 1
            && calls[d] == calls[d - 1]
                           + [Message(Assistant, Blocks([ToolUseBlock(executed.use)]))]
                           + [Message(User, Blocks([ToolResultBlock(ToolResult(executed.use.id, executed.output,
                                                                               false))]))]
  {
    hide Play, Chain, Exchanges;
    HistoryAtDepth(logs, s, h, d);
    HistoryAtDepth(logs, s, h, d - 1);
    ExchangesOfOneMore(Chain(s)[..d]);
    assert Chain(s)[..d][..d - 1] == Chain(s)[..d - 1];
  }

  lemma {:induction false} ExchangesWellFormed(chain: seq<Executed>)
    ensures WellFormed(Exchanges(chain)) && |Exchanges(chain)| == 2 * |chain|
  {
    if chain == [] {
    } else {
      var call := Message(Assistant, Blocks([ToolUseBlock(chain[0].use)]));
      var result := ResultMessage(ToolResult(chain[0].use.id, chain[0].output, false));
      assert [ToolUseBlock(chain[0].use)][1..] == [] && UsesIn([]) == [];
      assert UsesIn([ToolUseBlock(chain[0].use)]) == [chain[0].use] + [];
      assert ToolUses(call) == [chain[0].use] && !HasResult(call) && IsResult(result);
      WellFormedRound(call, [result]);
      assert Exchange(chain[0].use, chain[0].output) == [call] + [result];
      ExchangesWellFormed(chain[1..]);
      WellFormedConcat(Exchange(chain[0].use, chain[0].output), Exchanges(chain[1..]));
    }
  }

  /** Hence every request of the turn shows the provider a well-formed history. */
  lemma EveryRequestWellFormed(logs: bool, s: seq<Chunk>, h: seq<Message>, d: nat)
    requires WellFormed(h) && d <= |Chain(s)|
    ensures |Play(logs, s, h).calls| == |Chain(s)| + 1 && WellFormed(Play(logs, s, h).calls[d])
  {
    HistoryAtDepth(logs, s, h, d);
    ExchangesWellFormed(Chain(s)[..d]);
    WellFormedConcat(h, Exchanges(Chain(s)[..d]));
  }

  // ----- what viewers are told about tools and errors -----

  ghost function Only(sent: seq<Broadcast>, keep: Broadcast -> bool): seq<Broadcast> {
    if sent == [] then [] else (if keep(sent[0]) then [sent[0]] else []) + Only(sent[1..], keep)
  }

  lemma {:induction false} OnlyOfConcat(a: seq<Broadcast>, b: seq<Broadcast>, keep: Broadcast -> bool)
    ensures Only(a + b, keep) == Only(a, keep) + Only(b, keep)
  {
    if a == [] {
      assert a + b == b;
    } else {
      hide Only;
      assert (a + b)[1..] == a[1..] + b;
      OnlyOfConcat(a[1..], b, keep);
      OnlyFirst(a, keep);
      OnlyFirst(a + b, keep);
    }
  }

  lemma OnlyFirst(sent: seq<Broadcast>, keep: Broadcast -> bool)
    requires sent != []
    ensures Only(sent, keep) == if keep(sent[0]) then [sent[0]] + Only(sent[1..], keep) else Only(sent[1..], keep)
  {
  }

  predicate AboutTools(b: Broadcast) {
    b.ToolCallStart? || b.ToolResultSent? || b.StatusUpdate?
  }

  predicate AboutErrors(b: Broadcast) {
    b.ErrorSent?
  }

  /** The calls for this program that the turn reaches, in order; calls for other servers are ignored. */
  ghost function LocalCalls(s: seq<Chunk>): seq<Chunk> {
    if s == [] || s[0].Done? || s[0].Fail? then []
    else if s[0].Call? && s[0].server == "cli-local" then
      [s[0]] + if s[0].tool.Ran? then LocalCalls(s[0].continuation) else LocalCalls(s[1..])
    else LocalCalls(s[1..])
  }

  /** Each such call is announced once and its outcome once, with its id, and so is what goes on. */
  ghost function Announced(calls: seq<Chunk>): seq<Broadcast>
    requires forall i :: 0 <= i < |calls| ==> calls[i].Call?
  {
    if calls == [] then [] else Announcement(calls[0]) + Announced(calls[1..])
  }

  ghost function Announcement(c: Chunk): seq<Broadcast>
    requires c.Call?
  {
    var failed := match c.tool case Ran(_, isError) => isError case Broke(_) => true;
    [ToolCallStart(c.use.id), StatusUpdate("Executing: " + c.use.name), ToolResultSent(c.use.id, failed)]
    + if c.tool.Ran? then [StatusUpdate("Processing tool result...")] else []
  }

  lemma {:induction false} LocalCallsAreCalls(s: seq<Chunk>)
    ensures forall i :: 0 <= i < |LocalCalls(s)| ==> LocalCalls(s)[i].Call?
    decreases s
  {
    if s == [] || s[0].Done? || s[0].Fail? {
    } else {
      LocalCallsAreCalls(s[1..]);
      if Continues(s[0]) {
        LocalCallsAreCalls(s[0].continuation);
      }
    }
  }

  /** The errors of a turn, innermost first: a stream's own, and one for each failed continuation. */
  ghost function Errors(s: seq<Chunk>): seq<Broadcast> {
    if s == [] || s[0].Done? then []
    else if s[0].Fail? then [ErrorSent(s[0].error)]
    else if s[0].Call? && s[0].server == "cli-local" && s[0].tool.Ran? then
      Errors(s[0].continuation)
      + if Breaks(s[0].continuation) then [ErrorSent("Continuation failed: " + OwnError(s[0].continuation))] else []
    else Errors(s[1..])
  }

  ghost function OwnError(s: seq<Chunk>): string
    requires Breaks(s)
  {
    if s[0].Fail? then s[0].error else OwnError(s[1..])
  }

  lemma {:induction false} ReportsOwnError(logs: bool, s: seq<Chunk>, h: seq<Message>)
    requires Breaks(s)
    ensures Read(logs, s, h).result == Err(Reported(OwnError(s)))
  {
    if s[0].Fail? {
    } else {
      ReportsOwnError(logs, s[1..], h);
    }
  }

  lemma OpeningTells(c: Chunk)
    requires c.Call?
    ensures Announcement(c) ==
            Only(Opening(c), AboutTools) + if c.tool.Ran? then [StatusUpdate("Processing tool result...")] else []
    ensures Only(Opening(c), AboutErrors) == []
  {
    var o := Opening(c);
    assert o == [o[0]] + ([o[1]] + [o[2]]);
    OnlyOfConcat([o[0]], [o[1]] + [o[2]], AboutTools);
    OnlyOfConcat([o[1]], [o[2]], AboutTools);
    OnlyOfConcat([o[0]], [o[1]] + [o[2]], AboutErrors);
    OnlyOfConcat([o[1]], [o[2]], AboutErrors);
  }

  function Failure(t: Trace): seq<Broadcast> {
    match t.result case Err(Reported(e)) => [ErrorSent("Continuation failed: " + e)] case _ => []
  }

  lemma HandOverParts(logs: bool, c: Chunk, t: Trace, keep: Broadcast -> bool)
    requires c.Call? && !keep(StreamEnd)
    ensures Only(HandOver(logs, c, t).sent, keep) ==
            Only(Opening(c), keep) + Only([StatusUpdate("Processing tool result...")], keep)
            + Only(t.sent, keep) + Only(Failure(t), keep)
  {
    hide Opening, Failure, Only, Handed, Taken;
    var status := StatusUpdate("Processing tool result...");
    var end := if Taken(logs, t.result).Ok? then [StreamEnd] else [];
    HandedParts(t);
    ThreeParts(Opening(c), [status], t.sent, Failure(t), end, keep);
    OnlyNone(StreamEnd, keep);
  }

  lemma OnlyNone(b: Broadcast, keep: Broadcast -> bool)
    requires !keep(b)
    ensures Only([b], keep) == [] && Only([], keep) == []
  {
  }

  lemma HandedParts(t: Trace)
    ensures Handed(t) == [StatusUpdate("Processing tool result...")] + t.sent + Failure(t)
  {
  }

  lemma HandOverTells(logs: bool, c: Chunk, t: Trace)
    requires Continues(c)
    ensures Only(HandOver(logs, c, t).sent, AboutTools) == Announcement(c) + Only(t.sent, AboutTools)
    ensures Only(HandOver(logs, c, t).sent, AboutErrors) == Only(t.sent, AboutErrors) + Failure(t)
  {
    hide Opening, Announcement, HandOver;
    OpeningTells(c);
    OnlyNone(StatusUpdate("Processing tool result..."), AboutErrors);
    HandOverParts(logs, c, t, AboutTools);
    HandOverParts(logs, c, t, AboutErrors);
  }

  lemma AnnouncedFirst(c: Chunk, rest: seq<Chunk>)
    requires c.Call? && forall i :: 0 <= i < |rest| ==> rest[i].Call?
    ensures Announced([c] + rest) == Announcement(c) + Announced(rest)
  {
    hide Announcement;
    assert ([c] + rest)[1..] == rest;
  }

  lemma ThreeParts(a: seq<Broadcast>, b: seq<Broadcast>, c: seq<Broadcast>, d: seq<Broadcast>, e: seq<Broadcast>,
                   keep: Broadcast -> bool)
    ensures Only(a + (b + c + d) + e, keep) ==
            Only(a, keep) + Only(b, keep) + Only(c, keep) + Only(d, keep) + Only(e, keep)
  {
    hide Only;
    OnlyOfConcat(a + (b + c + d), e, keep);
    OnlyOfConcat(a, b + c + d, keep);
    OnlyOfConcat(b + c, d, keep);
    OnlyOfConcat(b, c, keep);
  }

  /** Viewers learn of each call for this program when it starts and when it is over, and of no other. */
  lemma {:induction false} ToolsAreAnnounced(logs: bool, s: seq<Chunk>, h: seq<Message>)
    ensures forall i :: 0 <= i < |LocalCalls(s)| ==> LocalCalls(s)[i].Call?
    ensures Only(Read(logs, s, h).sent, AboutTools) == Announced(LocalCalls(s))
    decreases s
  {
    hide Opening, Handed, HandOver, Announced, Announcement;
    LocalCallsAreCalls(s);
    if s == [] || s[0].Done? || s[0].Fail? {
      NothingAnnounced();
    } else if Continues(s[0]) {
      var c := s[0];
      var t := Play(logs, c.continuation, h + Exchange(c.use, c.tool.output));
      ToolsAreAnnounced(logs, c.continuation, h + Exchange(c.use, c.tool.output));
      HandOverTells(logs, c, t);
      AnnouncedFirst(c, LocalCalls(c.continuation));
      assert Read(logs, s, h) == HandOver(logs, c, t);
    } else {
      PassingTells(logs, s, h);
      ToolsAreAnnounced(logs, s[1..], h);
      if s[0].Call? && s[0].server == LOCAL {
        AnnouncedFirst(s[0], LocalCalls(s[1..]));
      }
    }
  }

  lemma NothingAnnounced()
    ensures Announced([]) == []
  {
  }

  /** What a chunk adds that does not stop the reading. */
  lemma PassingTells(logs: bool, s: seq<Chunk>, h: seq<Message>)
    requires s != [] && !s[0].Done? && !s[0].Fail? && !Continues(s[0])
    ensures Only(Read(logs, s, h).sent, AboutTools) ==
            (if s[0].Call? && s[0].server == LOCAL then Announcement(s[0]) else [])
            + Only(Read(logs, s[1..], h).sent, AboutTools)
    ensures Only(Read(logs, s, h).sent, AboutErrors) == Only(Read(logs, s[1..], h).sent, AboutErrors)
  {
    hide Opening, Handed, HandOver, Announced, Announcement, Only;
    var rest := Read(logs, s[1..], h).sent;
    if s[0].Words? {
      OnlyNone(StreamChunk(s[0].text), AboutTools);
      OnlyNone(StreamChunk(s[0].text), AboutErrors);
      OnlyOfConcat([StreamChunk(s[0].text)], rest, AboutTools);
      OnlyOfConcat([StreamChunk(s[0].text)], rest, AboutErrors);
    } else if s[0].Call? && s[0].server == LOCAL {
      OpeningTells(s[0]);
      OnlyOfConcat(Opening(s[0]), rest, AboutTools);
      OnlyOfConcat(Opening(s[0]), rest, AboutErrors);
    }
  }

  /** Viewers are shown exactly the errors of the turn, innermost first. */
  lemma {:induction false} ErrorsAreShown(logs: bool, s: seq<Chunk>, h: seq<Message>)
    ensures Only(Read(logs, s, h).sent, AboutErrors) == Errors(s)
    decreases s
  {
    hide Opening, Handed, HandOver;
    if s == [] || s[0].Done? || s[0].Fail? {
    } else if Continues(s[0]) {
      var c := s[0];
      var t := Play(logs, c.continuation, h + Exchange(c.use, c.tool.output));
      ErrorsAreShown(logs, c.continuation, h + Exchange(c.use, c.tool.output));
      HandOverTells(logs, c, t);
      ReadFailsIff(logs, c.continuation, h + Exchange(c.use, c.tool.output));
      if Breaks(c.continuation) {
        ReportsOwnError(logs, c.continuation, h + Exchange(c.use, c.tool.output));
      }
      assert Read(logs, s, h) == HandOver(logs, c, t);
    } else {
      PassingTells(logs, s, h);
      ErrorsAreShown(logs, s[1..], h);
    }
  }

  // ----- how often the turn is announced as over -----

  ghost function Ends(sent: seq<Broadcast>): nat {
    if sent == [] then 0 else (if sent[0].StreamEnd? then 1 else 0) + Ends(sent[1..])
  }

  lemma {:induction false} EndsConcat(a: seq<Broadcast>, b: seq<Broadcast>)
    ensures Ends(a + b) == Ends(a) + Ends(b)
  {
    if a == [] {
      assert a + b == b;
    } else {
      assert (a + b)[1..] == a[1..] + b;
      EndsConcat(a[1..], b);
    }
  }

  /** How the innermost stream of the turn stops. */
  datatype StreamStop = Exhausted | SaidDone | Failed

  function LastStop(s: seq<Chunk>): StreamStop {
    if s == [] then Exhausted
    else if s[0].Done? then SaidDone
    else if s[0].Fail? then Failed
    else if Continues(s[0]) then LastStop(s[0].continuation)
    else LastStop(s[1..])
  }

  /** `StreamEnd` is sent once per stream of the chain that neither fails nor is cut off by a panic,
      and once more when the innermost one says it is done: exactly once only for a turn without
      tools whose stream just stops. */
  lemma {:induction false} EndCount(logs: bool, s: seq<Chunk>, h: seq<Message>)
    ensures Ends(Read(logs, s, h).sent) + CutOff(logs, s) ==
            |Chain(s)| + match LastStop(s) case Exhausted => 1 case SaidDone => 2 case Failed => 0
    decreases s
  {
    hide Opening, Handed, Results;
    if s == [] {
    } else {
      match s[0] {
        case Words(text) =>
          EndCount(logs, s[1..], h);
          EndsConcat([StreamChunk(text)], Read(logs, s[1..], h).sent);
        case Done =>
          EndsConcat([StreamEnd], [StreamEnd]);
        case Ignored =>
          EndCount(logs, s[1..], h);
        case Fail(e) =>
        case Call(use, server, tool, continuation) =>
          SilentOpening(s[0]);
          if Continues(s[0]) {
            var t := Play(logs, continuation, h + Exchange(use, tool.output));
            EndCount(logs, continuation, h + Exchange(use, tool.output));
            HandOverText(logs, s[0], t);
            TakenIff(logs, continuation, h + Exchange(use, tool.output));
          } else {
            EndCount(logs, s[1..], h);
            EndsConcat(Opening(s[0]), Read(logs, s[1..], h).sent);
          }
      }
    }
  }

  /** What a waiting stream takes from its continuation. */
  lemma TakenIff(logs: bool, s: seq<Chunk>, h: seq<Message>)
    ensures Taken(logs, Play(logs, s, h).result).Ok? <==>
            CutOff(logs, s) == 0 && !(logs && !Breaks(s) && Splits(Answer(s), 100))
  {
    ReadFailsIff(logs, s, h);
    if Breaks(s) {
      BrokenHasNoPanic(logs, s);
    }
  }
}
