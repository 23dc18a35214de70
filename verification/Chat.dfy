/** Chat messages, tool calls and their results, as all agents exchange them with a provider. */
module Chat {
  import opened Wrappers

  datatype Role = System | User | Assistant

  /** Tool arguments keep only what the agents look at: the two spellings of a path. */
  datatype Argument = Text(value: string) | Other
  datatype Input = Input(path: Option<Argument>, filePath: Option<Argument>)

  datatype ToolUse = ToolUse(id: string, name: string, input: Input)
  datatype ToolResult = ToolResult(toolUseId: string, content: string, isError: bool)

  datatype Block =
    | TextBlock(text: string)
    | ToolUseBlock(use: ToolUse)
    | ToolResultBlock(result: ToolResult)
    | ImageBlock

  datatype Content = Plain(text: string) | Blocks(blocks: seq<Block>)
  datatype Message = Message(role: Role, content: Content)

  /** `text` is the text the framework finds in the message, if any. */
  datatype ChatResponse =
    ChatResponse(message: Message, text: Option<string>, finishReason: Option<string>, tokens: nat)

  function UsesIn(blocks: seq<Block>): seq<ToolUse> {
    if blocks == [] then []
    else (if blocks[0].ToolUseBlock? then [blocks[0].use] else []) + UsesIn(blocks[1..])
  }

  function ToolUses(m: Message): seq<ToolUse> {
    match m.content
    case Plain(_) => []
    case Blocks(blocks) => UsesIn(blocks)
  }

  function ResultMessage(r: ToolResult): (m: Message)
    ensures ToolUses(m) == []
  {
    var blocks := [ToolResultBlock(r)];
    assert blocks[1..] == [] && UsesIn(blocks) == [];
    Message(User, Blocks(blocks))
  }

  function UserText(text: string): (m: Message)
    ensures ToolUses(m) == []
  {
    Message(User, Plain(text))
  }

  predicate Finished(r: ChatResponse) {
    r.finishReason == Some("end_turn") || r.finishReason == Some("stop")
  }

  /** Both ways of ending a turn: the provider says so, or it asks for no tool. */
  predicate Completes(r: ChatResponse) {
    Finished(r) || ToolUses(r.message) == []
  }

  function FinalText(r: ChatResponse): string {
    if r.text.Some? then r.text.value else "Task completed"
  }

  // ----- which tool uses and texts a message has -----

  /** How many tool-use blocks stand before position `i`. */
  function CallsBefore(blocks: seq<Block>, i: nat): nat
    requires i <= |blocks|
  {
    if i == 0 then 0 else CallsBefore(blocks, i - 1) + if blocks[i - 1].ToolUseBlock? then 1 else 0
  }

  lemma {:induction false} CallsBehindFirst(blocks: seq<Block>, i: nat)
    requires 0 < i <= |blocks|
    ensures CallsBefore(blocks, i) == CallsBefore(blocks[1..], i - 1) + if blocks[0].ToolUseBlock? then 1 else 0
  {
    if i == 1 {
    } else {
      CallsBehindFirst(blocks, i - 1);
    }
  }

  /** The tool uses of a list of blocks are those of all its tool-use blocks, in order. */
  lemma {:induction false} UsesAreBlocks(blocks: seq<Block>, i: nat)
    requires i <= |blocks|
    ensures |UsesIn(blocks)| == CallsBefore(blocks, |blocks|)
    ensures CallsBefore(blocks, i) <= |UsesIn(blocks)|
    ensures i < |blocks| && blocks[i].ToolUseBlock? ==>
              CallsBefore(blocks, i) < |UsesIn(blocks)| && UsesIn(blocks)[CallsBefore(blocks, i)] == blocks[i].use
  {
    if blocks == [] {
    } else {
      UsesAreBlocks(blocks[1..], if i == 0 then 0 else i - 1);
      CallsBehindFirst(blocks, |blocks|);
      if i > 0 {
        CallsBehindFirst(blocks, i);
      }
    }
  }

  lemma {:induction false} RankedBlock(blocks: seq<Block>, j: nat) returns (i: nat)
    requires j < CallsBefore(blocks, |blocks|)
    ensures i < |blocks| && blocks[i].ToolUseBlock? && CallsBefore(blocks, i) == j
  {
    i := |blocks|;
    while CallsBefore(blocks, i) > j
      invariant i <= |blocks| && j <= CallsBefore(blocks, i)
      invariant i < |blocks| && CallsBefore(blocks, i) == j ==> blocks[i].ToolUseBlock?
      invariant i == |blocks| ==> CallsBefore(blocks, i) > j
      decreases i
    {
      i := i - 1;
    }
  }

  /** The provider says that it is done, or its message has no tool-use block. */
  ghost predicate EndsTurn(r: ChatResponse) {
    || r.finishReason == Some("end_turn") || r.finishReason == Some("stop")
    || r.message.content.Plain?
    || forall i :: 0 <= i < |r.message.content.blocks| ==> !r.message.content.blocks[i].ToolUseBlock?
  }

  lemma CompletesIff(r: ChatResponse)
    ensures Completes(r) <==> EndsTurn(r)
  {
    if r.message.content.Blocks? {
      var blocks := r.message.content.blocks;
      UsesAreBlocks(blocks, |blocks|);
      forall i | 0 <= i < |blocks| && blocks[i].ToolUseBlock? ensures UsesIn(blocks) != [] {
        UsesAreBlocks(blocks, i);
      }
      if UsesIn(blocks) != [] {
        var i := RankedBlock(blocks, 0);
      }
    }
  }

  // ----- histories a provider accepts -----

  ghost predicate IsResultFor(m: Message, use: ToolUse) {
    && m.content.Blocks? && |m.content.blocks| == 1
    && m.content.blocks[0].ToolResultBlock?
    && m.content.blocks[0].result.toolUseId == use.id
  }

  /** The tool uses of message `i` are answered, one message each and in order, right after it. */
  ghost predicate AnsweredAt(h: seq<Message>, i: nat)
    requires i < |h|
  {
    var uses := ToolUses(h[i]);
    i + |uses| < |h| && forall k :: 0 <= k < |uses| ==> IsResultFor(h[i + 1 + k], uses[k])
  }

  ghost predicate HasResult(m: Message) {
    m.content.Blocks? && exists b :: 0 <= b < |m.content.blocks| && m.content.blocks[b].ToolResultBlock?
  }

  /** Message `j` brings no result, or it stands among the answers to the tool uses of message `i`. */
  ghost predicate CalledFor(h: seq<Message>, j: nat)
    requires j < |h|
  {
    HasResult(h[j]) ==> exists i :: 0 <= i < j && j <= i + |ToolUses(h[i])|
  }

  /** Every tool use has its result right after it, and there are no other results. */
  ghost predicate WellFormed(h: seq<Message>) {
    forall i :: 0 <= i < |h| ==> AnsweredAt(h, i) && CalledFor(h, i)
  }

  lemma FrontStaysWellFormed(a: seq<Message>, b: seq<Message>, i: nat)
    requires WellFormed(a) && i < |a|
    ensures AnsweredAt(a + b, i) && CalledFor(a + b, i)
  {
    hide ToolUses, IsResultFor, HasResult;
    var h := a + b;
    assert AnsweredAt(a, i) && CalledFor(a, i) && h[i] == a[i];
    if HasResult(h[i]) {
      var j :| 0 <= j < i && i <= j + |ToolUses(a[j])|;
      assert h[j] == a[j];
    }
  }

  lemma BackStaysWellFormed(a: seq<Message>, b: seq<Message>, i: nat)
    requires WellFormed(b) && i < |b|
    ensures AnsweredAt(a + b, |a| + i) && CalledFor(a + b, |a| + i)
  {
    hide ToolUses, IsResultFor, HasResult;
    var h := a + b;
    assert AnsweredAt(b, i) && CalledFor(b, i) && h[|a| + i] == b[i];
    forall k | 0 <= k < |ToolUses(b[i])| ensures IsResultFor(h[|a| + i + 1 + k], ToolUses(b[i])[k]) {
      assert h[|a| + i + 1 + k] == b[i + 1 + k];
    }
    if HasResult(h[|a| + i]) {
      var j :| 0 <= j < i && i <= j + |ToolUses(b[j])|;
      assert h[|a| + j] == b[j];
    }
  }

  lemma WellFormedConcat(a: seq<Message>, b: seq<Message>)
    requires WellFormed(a) && WellFormed(b)
    ensures WellFormed(a + b)
  {
    hide AnsweredAt, CalledFor;
    var h := a + b;
    forall i | 0 <= i < |h| ensures AnsweredAt(h, i) && CalledFor(h, i) {
      if i < |a| {
        FrontStaysWellFormed(a, b, i);
      } else {
        BackStaysWellFormed(a, b, i - |a|);
      }
    }
  }

  lemma WellFormedText(text: string)
    ensures WellFormed([UserText(text)])
  {
  }

  ghost predicate IsResult(m: Message) {
    m.content.Blocks? && |m.content.blocks| == 1 && m.content.blocks[0].ToolResultBlock?
  }

  lemma ResultHasNoUses(m: Message)
    requires IsResult(m)
    ensures ToolUses(m) == [] && HasResult(m)
  {
    assert m.content.blocks[1..] == [] && UsesIn([]) == [];
  }

  /** A message followed by results is well formed exactly if it brings no result itself and the
      results are those of its tool uses: all of them, in order, and no more. */
  lemma WellFormedRound(m: Message, results: seq<Message>)
    requires forall k :: 0 <= k < |results| ==> IsResult(results[k])
    ensures WellFormed([m] + results) <==>
            && !HasResult(m) && |results| == |ToolUses(m)|
            && forall k :: 0 <= k < |results| ==> IsResultFor(results[k], ToolUses(m)[k])
  {
    hide WellFormed;
    if WellFormed([m] + results) {
      RoundIsExact(m, results);
    } else if !HasResult(m) && |results| == |ToolUses(m)|
              && forall k :: 0 <= k < |results| ==> IsResultFor(results[k], ToolUses(m)[k]) {
      AnswersMakeRound(m, results);
    }
  }

  lemma AnswersMakeRound(m: Message, results: seq<Message>)
    requires !HasResult(m) && |results| == |ToolUses(m)|
    requires forall k :: 0 <= k < |results| ==> IsResultFor(results[k], ToolUses(m)[k])
    ensures WellFormed([m] + results)
  {
    var h := [m] + results;
    forall i | 0 <= i < |h| ensures AnsweredAt(h, i) && CalledFor(h, i) {
      if i > 0 {
        assert IsResultFor(results[i - 1], ToolUses(m)[i - 1]);
        ResultHasNoUses(h[i]);
        assert 0 <= 0 < i && i <= 0 + |ToolUses(h[0])|;
      }
    }
  }

  lemma RoundIsExact(m: Message, results: seq<Message>)
    requires forall k :: 0 <= k < |results| ==> IsResult(results[k])
    requires WellFormed([m] + results)
    ensures !HasResult(m) && |results| == |ToolUses(m)|
    ensures forall k :: 0 <= k < |results| ==> IsResultFor(results[k], ToolUses(m)[k])
  {
    var h := [m] + results;
    assert AnsweredAt(h, 0) && CalledFor(h, 0);
    forall k | 0 <= k < |ToolUses(m)| ensures IsResultFor(results[k], ToolUses(m)[k]) {
      assert h[0 + 1 + k] == results[k];
    }
    if results != [] {
      var last := |results|;
      assert CalledFor(h, last) && h[last] == results[last - 1];
      ResultHasNoUses(results[last - 1]);
      var i :| 0 <= i < last && last <= i + |ToolUses(h[i])|;
      if i > 0 {
        ResultHasNoUses(results[i - 1]);
      }
    }
  }

  // ----- calls and results of a whole history -----

  function IdsOfUses(uses: seq<ToolUse>): seq<string> {
    seq(|uses|, k requires 0 <= k < |uses| => uses[k].id)
  }

  function ResultIdsIn(blocks: seq<Block>): seq<string> {
    if blocks == [] then []
    else (if blocks[0].ToolResultBlock? then [blocks[0].result.toolUseId] else []) + ResultIdsIn(blocks[1..])
  }

  /** The ids of all tool uses of a history, in order. */
  function CallIds(h: seq<Message>): seq<string> {
    if h == [] then [] else IdsOfUses(ToolUses(h[0])) + CallIds(h[1..])
  }

  /** The ids that the results of a history answer, in order. */
  function ResultIds(h: seq<Message>): seq<string> {
    if h == [] then []
    else (match h[0].content case Plain(_) => [] case Blocks(blocks) => ResultIdsIn(blocks)) + ResultIds(h[1..])
  }

  lemma NoResultNoIds(blocks: seq<Block>)
    requires forall b :: 0 <= b < |blocks| ==> !blocks[b].ToolResultBlock?
    ensures ResultIdsIn(blocks) == []
  {
  }

  lemma ResultFirst(h: seq<Message>, use: ToolUse)
    requires h != [] && IsResultFor(h[0], use)
    ensures ResultIds(h) == [use.id] + ResultIds(h[1..]) && CallIds(h) == CallIds(h[1..])
  {
    ResultHasNoUses(h[0]);
    assert h[0].content.blocks[1..] == [];
    assert ResultIdsIn(h[0].content.blocks) == [use.id] + ResultIdsIn([]);
    assert IdsOfUses(ToolUses(h[0])) == [];
  }

  /** A run of results in front: they make up `uses` and nothing else. */
  lemma {:induction false} AnswersFirst(h: seq<Message>, uses: seq<ToolUse>)
    requires |uses| <= |h| && forall k :: 0 <= k < |uses| ==> IsResultFor(h[k], uses[k])
    ensures ResultIds(h) == IdsOfUses(uses) + ResultIds(h[|uses|..])
    ensures CallIds(h) == CallIds(h[|uses|..])
  {
    hide IsResultFor, ResultIds, CallIds;
    if uses == [] {
      assert h[0..] == h;
    } else {
      ResultFirst(h, uses[0]);
      AnswersFirst(h[1..], uses[1..]);
      assert h[1..][|uses[1..]|..] == h[|uses|..];
      assert IdsOfUses(uses) == [uses[0].id] + IdsOfUses(uses[1..]);
    }
  }

  /** Behind a message and its answers a well-formed history goes on as a well-formed one. */
  lemma RestIsWellFormed(h: seq<Message>)
    requires WellFormed(h) && h != []
    ensures |ToolUses(h[0])| < |h| && WellFormed(h[1 + |ToolUses(h[0])|..])
  {
    assert AnsweredAt(h, 0);
    var n := 1 + |ToolUses(h[0])|;
    var rest := h[n..];
    forall j | 0 <= j < |rest| ensures AnsweredAt(rest, j) && CalledFor(rest, j) {
      assert AnsweredAt(h, n + j) && CalledFor(h, n + j);
      forall k | 0 <= k < |rest| ensures rest[k] == h[n + k] {}
      if HasResult(rest[j]) {
        var i :| 0 <= i < n + j && n + j <= i + |ToolUses(h[i])|;
        if 0 < i < n {
          assert h[i] == h[0 + 1 + (i - 1)] && IsResultFor(h[0 + 1 + (i - 1)], ToolUses(h[0])[i - 1]);
          ResultHasNoUses(h[i]);
        }
        assert n <= i && rest[i - n] == h[i];
      }
    }
  }

  /** In a well-formed history the results answer exactly the calls, one by one and in order. */
  lemma {:induction false} ResultsAreCalls(h: seq<Message>)
    requires WellFormed(h)
    ensures ResultIds(h) == CallIds(h)
    decreases |h|
  {
    if h == [] {
    } else {
      var uses := ToolUses(h[0]);
      RestIsWellFormed(h);
      assert AnsweredAt(h, 0) && CalledFor(h, 0);
      forall k | 0 <= k < |uses| ensures IsResultFor(h[1..][k], uses[k]) {
        assert IsResultFor(h[0 + 1 + k], uses[k]);
      }
      AnswersFirst(h[1..], uses);
      assert h[1..][|uses|..] == h[1 + |uses|..];
      ResultsAreCalls(h[1 + |uses|..]);
      if h[0].content.Blocks? {
        NoResultNoIds(h[0].content.blocks);
      }
    }
  }
}
