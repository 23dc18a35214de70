/** The bounded chat-and-tools loop of the worker and of the orchestrator
    (apps/cli/src/agents/worker.rs, `execute`; apps/cli/src/agents/orchestrator.rs,
    `execute_internal`). */
module ToolLoop {
  import opened Wrappers
  import opened Chat
  import opened Utf8

  /** The provider, told the number of the call and the history. */
  type Provider = (nat, seq<Message>) -> Result<ChatResponse, string>

  /** The tool executor, told the iteration and the position of the call in it. */
  type Executor = (nat, nat, ToolUse) -> Result<ToolResult, string>

  datatype TaskStatus = Completed | Failed

  datatype AgentResponse = AgentResponse(message: string, isComplete: bool, status: TaskStatus, iterations: nat)

  /** `calls` lists the history shown to the provider at each call. */
  datatype Run = Run(result: Result<AgentResponse, Fault>, history: seq<Message>, calls: seq<seq<Message>>)

  // ----- reference semantics -----

  /** Printing a preview of a successful result cuts it after 200 bytes, which panics inside a character. */
  predicate PreviewPanics(previews: bool, result: ToolResult) {
    previews && !result.isError && Splits(result.content, 200)
  }

  /** The results of the tool calls from position `k` on, up to the first executor error or panic. */
  function ToolRound(exec: Executor, previews: bool, n: nat, uses: seq<ToolUse>, k: nat): (seq<Message>, Option<Fault>)
    requires k <= |uses|
    decreases |uses| - k
  {
    if k == |uses| then ([], None)
    else match exec(n, k, uses[k])
      case Err(e) => ([], Some(Reported(e)))
      case Ok(result) =>
        if PreviewPanics(previews, result) then ([], Some(Panic))
        else
          var (rest, fault) := ToolRound(exec, previews, n, uses, k + 1);
          ([ResultMessage(result)] + rest, fault)
  }

  /** One iteration: an error, the end of the run, or a longer history. */
  datatype Turn = Broken(fault: Fault, history: seq<Message>) | Ended(text: string) | Continues(history: seq<Message>)

  function TakeTurn(chat: Provider, exec: Executor, previews: bool, n: nat, h: seq<Message>): Turn {
    match chat(n, h)
    case Err(e) => Broken(Reported(e), h)
    case Ok(response) =>
      if Completes(response) then Ended(FinalText(response))
      else
        var (results, fault) := ToolRound(exec, previews, n, ToolUses(response.message), 0);
        var h' := h + ([response.message] + results);
        if fault.Some? then Broken(fault.value, h') else Continues(h')
  }

  /** The loop from iteration `n` on. */
  function LoopFrom(chat: Provider, exec: Executor, previews: bool, max: nat, n: nat, h: seq<Message>): Run
    requires n <= max
    decreases max - n
  {
    if n == max then
      Run(Ok(AgentResponse("Task failed: exceeded maximum iterations", true, Failed, n + 1)), h, [])
    else match TakeTurn(chat, exec, previews, n, h)
      case Broken(e, h') => Run(Err(e), h', [h])
      case Ended(text) => Run(Ok(AgentResponse(text, true, Completed, n + 1)), h, [h])
      case Continues(h') =>
        var rest := LoopFrom(chat, exec, previews, max, n + 1, h');
        rest.(calls := [h] + rest.calls)
  }

  // ----- the loop -----

  class Context {
    var history: seq<Message>

    constructor (history: seq<Message>)
      ensures this.history == history
    {
      this.history := history;
    }
  }

  /** The worker, when `previews` holds, and through `OrchestratorExecute` the orchestrator. */
  method Execute(context: Context, task: string, max: nat, chat: Provider, exec: Executor, previews: bool)
    returns (result: Result<AgentResponse, Fault>, ghost calls: seq<seq<Message>>)
    modifies context
    ensures Run(result, context.history, calls) ==
            LoopFrom(chat, exec, previews, max, 0, old(context.history) + [Message(User, Plain(task))])
  {
    hide TakeTurn;
    context.history := context.history + [UserText(task)];
    calls := [];
    ghost var spec := LoopFrom(chat, exec, previews, max, 0, context.history);
    var iterations := 0;
    while true
      invariant iterations <= max
      invariant var rest := LoopFrom(chat, exec, previews, max, iterations, context.history);
                spec == rest.(calls := calls + rest.calls)
      decreases max - iterations
    {
      ghost var rest := LoopFrom(chat, exec, previews, max, iterations, context.history);
      ghost var earlier := calls;
      iterations := iterations + 1;
      if iterations > max {
        result := Ok(AgentResponse("Task failed: exceeded maximum iterations", true, Failed, iterations));
        return;
      }
      calls := calls + [context.history];
      var turn := PerformTurn(context, iterations - 1, chat, exec, previews);
      match turn {
        case Broken(e, _) =>
          return Err(e), calls;
        case Ended(text) =>
          return Ok(AgentResponse(text, true, Completed, iterations)), calls;
        case Continues(_) =>
          assert earlier + rest.calls == calls + rest.calls[1..];
      }
    }
  }

  /** The body of the loop: ask the provider, then run its tools and record their results. */
  method PerformTurn(context: Context, n: nat, chat: Provider, exec: Executor, previews: bool) returns (turn: Turn)
    modifies context
    ensures turn == TakeTurn(chat, exec, previews, n, old(context.history))
    ensures context.history == if turn.Ended? then old(context.history) else turn.history
  {
    var reply := chat(n, context.history);
    if reply.Err? {
      return Broken(Reported(reply.error), context.history);
    }
    var response := reply.value;
    if Finished(response) {
      return Ended(FinalText(response));
    }
    var uses := ToolUses(response.message);
    if uses == [] {
      return Ended(FinalText(response));
    }
    ghost var final := context.history + ([response.message] + ToolRound(exec, previews, n, uses, 0).0);
    context.history := context.history + [response.message];
    for k := 0 to |uses|
      invariant ToolRound(exec, previews, n, uses, 0).1 == ToolRound(exec, previews, n, uses, k).1
      invariant final == context.history + ToolRound(exec, previews, n, uses, k).0
    {
      var outcome := exec(n, k, uses[k]);
      if outcome.Err? {
        return Broken(Reported(outcome.error), context.history);
      }
      if PreviewPanics(previews, outcome.value) {
        return Broken(Panic, context.history);
      }
      context.history := context.history + [ResultMessage(outcome.value)];
    }
    turn := Continues(context.history);
  }

  /** The orchestrator keeps `task_` tools for its task manager, which cannot fail. */
  function Dispatch(taskManager: (nat, nat, ToolUse) -> ToolResult, executor: Executor): Executor {
    (n: nat, k: nat, use: ToolUse) => if "task_" <= use.name then Ok(taskManager(n, k, use)) else executor(n, k, use)
  }

  method OrchestratorExecute(context: Context, task: string, maxIterations: nat, chat: Provider,
                             taskManager: (nat, nat, ToolUse) -> ToolResult, executor: Executor)
    returns (result: Result<AgentResponse, Fault>, ghost calls: seq<seq<Message>>)
    modifies context
    ensures Run(result, context.history, calls) ==
            LoopFrom(chat, Dispatch(taskManager, executor), false, maxIterations, 0,
                     old(context.history) + [Message(User, Plain(task))])
  {
    result, calls := Execute(context, task, maxIterations, chat, Dispatch(taskManager, executor), false);
  }

  // ----- properties -----

  /** Executors label a result with the id of the call it answers. */
  ghost predicate Echoes(exec: Executor) {
    forall n, k, use :: exec(n, k, use).Ok? ==> exec(n, k, use).value.toolUseId == use.id
  }

  /** Answers of the provider call tools and bring no results of their own. */
  ghost predicate BringsNoResults(chat: Provider) {
    forall n, h :: chat(n, h).Ok? ==> !HasResult(chat(n, h).value.message)
  }

  lemma {:induction false} RoundAnswers(exec: Executor, previews: bool, n: nat, uses: seq<ToolUse>, k: nat)
    requires Echoes(exec) && k <= |uses|
    requires ToolRound(exec, previews, n, uses, k).1.None?
    ensures var results := ToolRound(exec, previews, n, uses, k).0;
            && |results| == |uses| - k
            && forall j :: 0 <= j < |results| ==> IsResultFor(results[j], uses[k + j])
    decreases |uses| - k
  {
    if k == |uses| {
    } else {
      RoundAnswers(exec, previews, n, uses, k + 1);
    }
  }

  /** A turn that goes on keeps the history well formed exactly if the answer brings no result. */
  lemma TurnKeepsWellFormed(chat: Provider, exec: Executor, previews: bool, n: nat, h: seq<Message>)
    requires Echoes(exec) && WellFormed(h) && TakeTurn(chat, exec, previews, n, h).Continues?
    ensures WellFormed(TakeTurn(chat, exec, previews, n, h).history) <==> !HasResult(chat(n, h).value.message)
  {
    hide WellFormed;
    var m := chat(n, h).value.message;
    var results := ToolRound(exec, previews, n, ToolUses(m), 0).0;
    RoundAnswers(exec, previews, n, ToolUses(m), 0);
    forall k | 0 <= k < |results| ensures IsResult(results[k]) {
      assert IsResultFor(results[k], ToolUses(m)[k]);
    }
    WellFormedRound(m, results);
    if WellFormed([m] + results) {
      WellFormedConcat(h, [m] + results);
    } else {
      StrayResultShows(h, m, results);
    }
  }

  /** Complete rounds before a message do not account for a result that it brings. */
  lemma StrayResultShows(h: seq<Message>, m: Message, results: seq<Message>)
    requires WellFormed(h) && HasResult(m)
    ensures !WellFormed(h + ([m] + results))
  {
    var g := h + ([m] + results);
    assert g[|h|] == m;
    forall i | 0 <= i < |h| ensures i + |ToolUses(g[i])| < |h| {
      assert AnsweredAt(h, i);
    }
    assert !CalledFor(g, |h|);
  }

  /** At every provider call each tool use is followed at once by its result and there are no other
      results, and so it is in the history left behind by a run that does not end in an error. */
  lemma {:induction false} HistoriesWellFormed(chat: Provider, exec: Executor, previews: bool,
                                               max: nat, n: nat, h: seq<Message>)
    requires Echoes(exec) && BringsNoResults(chat) && WellFormed(h) && n <= max
    ensures var run := LoopFrom(chat, exec, previews, max, n, h);
            && (forall i :: 0 <= i < |run.calls| ==> WellFormed(run.calls[i]))
            && (run.result.Ok? ==> WellFormed(run.history))
    decreases max - n
  {
    hide WellFormed, TakeTurn;
    if n == max {
    } else if TakeTurn(chat, exec, previews, n, h).Continues? {
      TurnKeepsWellFormed(chat, exec, previews, n, h);
      AnswerOf(chat, exec, previews, n, h);
      HistoriesWellFormed(chat, exec, previews, max, n + 1, TakeTurn(chat, exec, previews, n, h).history);
    }
  }

  lemma AnswerOf(chat: Provider, exec: Executor, previews: bool, n: nat, h: seq<Message>)
    ensures TakeTurn(chat, exec, previews, n, h).Continues? ==> chat(n, h).Ok?
  {
  }

  /** At most `max` provider calls; the run fails exactly when it made all of them without the
      provider ending the turn, and the reported iterations count the calls. */
  lemma {:induction false} CallsBounded(chat: Provider, exec: Executor, previews: bool,
                                        max: nat, n: nat, h: seq<Message>)
    requires n <= max
    ensures var run := LoopFrom(chat, exec, previews, max, n, h);
            && n + |run.calls| <= max
            && (run.result.Ok? ==>
                  var r := run.result.value;
                  if r.status == Failed then n + |run.calls| == max && r.iterations == max + 1
                  else r.iterations == n + |run.calls|)
    decreases max - n
  {
    if n == max {
    } else if TakeTurn(chat, exec, previews, n, h).Continues? {
      CallsBounded(chat, exec, previews, max, n + 1, TakeTurn(chat, exec, previews, n, h).history);
    }
  }

  /** Both agents, from any well-formed history. */
  lemma AgentsKeepHistoriesWellFormed(chat: Provider, taskManager: (nat, nat, ToolUse) -> ToolResult,
                                      executor: Executor, max: nat, h: seq<Message>, task: string)
    requires WellFormed(h) && BringsNoResults(chat) && Echoes(executor)
    requires forall n, k, use :: taskManager(n, k, use).toolUseId == use.id
    ensures var worker := LoopFrom(chat, executor, true, max, 0, h + [UserText(task)]);
            forall i :: 0 <= i < |worker.calls| ==> WellFormed(worker.calls[i])
    ensures var orchestrator := LoopFrom(chat, Dispatch(taskManager, executor), false, max, 0, h + [UserText(task)]);
            forall i :: 0 <= i < |orchestrator.calls| ==> WellFormed(orchestrator.calls[i])
  {
    WellFormedText(task);
    WellFormedConcat(h, [UserText(task)]);
    HistoriesWellFormed(chat, executor, true, max, 0, h + [UserText(task)]);
    HistoriesWellFormed(chat, Dispatch(taskManager, executor), false, max, 0, h + [UserText(task)]);
  }

  // ----- what a run is made of -----

  /** `results` are the messages with the results of the first `count` tool-use blocks, in order. */
  ghost predicate Performed(exec: Executor, n: nat, blocks: seq<Block>, results: seq<Message>, count: nat) {
    && |results| == count <= CallsBefore(blocks, |blocks|)
    && forall i :: 0 <= i < |blocks| && blocks[i].ToolUseBlock? && CallsBefore(blocks, i) < count ==>
         var j := CallsBefore(blocks, i);
         && exec(n, j, blocks[i].use).Ok?
         && results[j] == Message(User, Blocks([ToolResultBlock(exec(n, j, blocks[i].use).value)]))
  }

  /** Tool-use block number `j` ends the run with `fault`. */
  ghost predicate StopsAt(exec: Executor, previews: bool, n: nat, blocks: seq<Block>, j: nat, fault: Fault) {
    exists i :: 0 <= i < |blocks| && blocks[i].ToolUseBlock? && CallsBefore(blocks, i) == j
      && match exec(n, j, blocks[i].use)
         case Err(e) => fault == Reported(e)
         case Ok(result) => fault == Panic && previews && !result.isError && Splits(result.content, 200)
  }

  /** The answer `r` to history `h` starts a round that leaves `g` after `count` results. */
  ghost predicate RoundLeaves(exec: Executor, n: nat, r: ChatResponse, h: seq<Message>, g: seq<Message>, count: nat) {
    && !EndsTurn(r) && |g| == |h| + 1 + count
    && g[..|h|] == h && g[|h|] == r.message
    && Performed(exec, n, r.message.content.blocks, g[|h| + 1..], count)
  }

  ghost predicate TurnExplained(chat: Provider, exec: Executor, previews: bool, n: nat, h: seq<Message>, turn: Turn) {
    match turn
    case Ended(text) =>
      && chat(n, h).Ok? && EndsTurn(chat(n, h).value)
      && text == (if chat(n, h).value.text.Some? then chat(n, h).value.text.value else "Task completed")
    case Continues(g) =>
      && chat(n, h).Ok? && !EndsTurn(chat(n, h).value)
      && var r := chat(n, h).value;
      RoundLeaves(exec, n, r, h, g, CallsBefore(r.message.content.blocks, |r.message.content.blocks|))
    case Broken(fault, g) =>
      match chat(n, h)
      case Err(e) => fault == Reported(e) && g == h
      case Ok(r) =>
        && !EndsTurn(r) && |g| > |h|
        && RoundLeaves(exec, n, r, h, g, |g| - |h| - 1)
        && StopsAt(exec, previews, n, r.message.content.blocks, |g| - |h| - 1, fault)
  }

  ghost predicate ResultOf(exec: Executor, n: nat, uses: seq<ToolUse>, j: nat, m: Message) {
    && j < |uses| && exec(n, j, uses[j]).Ok?
    && m == Message(User, Blocks([ToolResultBlock(exec(n, j, uses[j]).value)]))
  }

  /** `results` are those of the calls from position `k` on. */
  ghost predicate ResultsFrom(exec: Executor, n: nat, uses: seq<ToolUse>, k: nat, results: seq<Message>) {
    forall j :: 0 <= j < |results| ==> ResultOf(exec, n, uses, k + j, results[j])
  }

  /** Call `j` fails with `fault`. */
  ghost predicate FaultOf(exec: Executor, previews: bool, n: nat, uses: seq<ToolUse>, j: nat, fault: Fault) {
    j < |uses| &&
    match exec(n, j, uses[j])
    case Err(e) => fault == Reported(e)
    case Ok(r) => fault == Panic && previews && !r.isError && Splits(r.content, 200)
  }

  lemma ResultInFront(exec: Executor, n: nat, uses: seq<ToolUse>, k: nat, m: Message, rest: seq<Message>)
    requires ResultOf(exec, n, uses, k, m) && ResultsFrom(exec, n, uses, k + 1, rest)
    ensures ResultsFrom(exec, n, uses, k, [m] + rest)
  {
    hide ResultOf;
    forall j | 0 <= j < |rest| + 1 ensures ResultOf(exec, n, uses, k + j, ([m] + rest)[j]) {
      if j > 0 {
        assert ResultOf(exec, n, uses, (k + 1) + (j - 1), rest[j - 1]);
      }
    }
  }

  lemma {:induction false} RoundOfUses(exec: Executor, previews: bool, n: nat, uses: seq<ToolUse>, k: nat)
    requires k <= |uses|
    ensures var (results, fault) := ToolRound(exec, previews, n, uses, k);
            && k + |results| <= |uses| && ResultsFrom(exec, n, uses, k, results)
            && (fault.None? <==> k + |results| == |uses|)
            && (fault.Some? ==> FaultOf(exec, previews, n, uses, k + |results|, fault.value))
    decreases |uses| - k
  {
    if k == |uses| {
    } else if exec(n, k, uses[k]).Err? || PreviewPanics(previews, exec(n, k, uses[k]).value) {
    } else {
      hide ResultsFrom, FaultOf, PreviewPanics;
      RoundOfUses(exec, previews, n, uses, k + 1);
      var first, rest := ResultMessage(exec(n, k, uses[k]).value), ToolRound(exec, previews, n, uses, k + 1).0;
      ResultInFront(exec, n, uses, k, first, rest);
    }
  }

  /** One turn, told from the blocks of the answer: it ends with the provider's text, or goes on
      with every tool-use block executed and answered in order, or stops at the first that fails. */
  lemma TurnIsExplained(chat: Provider, exec: Executor, previews: bool, n: nat, h: seq<Message>)
    ensures TurnExplained(chat, exec, previews, n, h, TakeTurn(chat, exec, previews, n, h))
  {
    hide Splits, EndsTurn, Completes, Performed, StopsAt;
    if chat(n, h).Ok? {
      var r := chat(n, h).value;
      CompletesIff(r);
      if !EndsTurn(r) {
        OpenTurnHasBlocks(r);
        var (results, fault) := ToolRound(exec, previews, n, ToolUses(r.message), 0);
        RoundIsPerformed(exec, previews, n, r.message.content.blocks);
        var g := h + ([r.message] + results);
        assert g[..|h|] == h && g[|h|] == r.message && g[|h| + 1..] == results;
      }
    }
  }

  lemma OpenTurnHasBlocks(r: ChatResponse)
    requires !EndsTurn(r)
    ensures r.message.content.Blocks? && ToolUses(r.message) == UsesIn(r.message.content.blocks)
  {
  }

  lemma RoundIsPerformed(exec: Executor, previews: bool, n: nat, blocks: seq<Block>)
    ensures var (results, fault) := ToolRound(exec, previews, n, UsesIn(blocks), 0);
            && Performed(exec, n, blocks, results, |results|)
            && (fault.None? ==> |results| == CallsBefore(blocks, |blocks|))
            && (fault.Some? ==> StopsAt(exec, previews, n, blocks, |results|, fault.value))
  {
    hide Splits;
    var (results, fault) := ToolRound(exec, previews, n, UsesIn(blocks), 0);
    RoundOfUses(exec, previews, n, UsesIn(blocks), 0);
    UsesAreBlocks(blocks, |blocks|);
    forall i | 0 <= i < |blocks| && blocks[i].ToolUseBlock? ensures
      CallsBefore(blocks, i) < |UsesIn(blocks)| && UsesIn(blocks)[CallsBefore(blocks, i)] == blocks[i].use
    {
      UsesAreBlocks(blocks, i);
    }
    forall i | 0 <= i < |blocks| && blocks[i].ToolUseBlock? && CallsBefore(blocks, i) < |results|
      ensures var j := CallsBefore(blocks, i);
              && exec(n, j, blocks[i].use).Ok?
              && results[j] == Message(User, Blocks([ToolResultBlock(exec(n, j, blocks[i].use).value)]))
    {
      var j := CallsBefore(blocks, i);
      assert ResultOf(exec, n, UsesIn(blocks), 0 + j, results[j]) && UsesIn(blocks)[j] == blocks[i].use;
    }
    if fault.Some? {
      var i := RankedBlock(blocks, |results|);
    }
  }

  /** A whole run: every provider call is made with the history listed for it, each next history is
      what the round before left, and the outcome is that of the last turn. */
  ghost predicate RunExplained(chat: Provider, exec: Executor, previews: bool, max: nat, n: nat,
                               h: seq<Message>, run: Run)
    requires n <= max
  {
    && (run.calls == [] <==> n == max)
    && (run.calls != [] ==> run.calls[0] == h)
    && (forall i :: 0 <= i < |run.calls| - 1 ==>
          TurnExplained(chat, exec, previews, n + i, run.calls[i], Continues(run.calls[i + 1])))
    && var last := |run.calls| - 1;
    match run.result
    case Err(fault) =>
      last >= 0 && TurnExplained(chat, exec, previews, n + last, run.calls[last], Broken(fault, run.history))
    case Ok(r) =>
      && r.isComplete
      && (r.status == Completed ==>
            && last >= 0 && run.history == run.calls[last] && r.iterations == n + last + 1
            && TurnExplained(chat, exec, previews, n + last, run.calls[last], Ended(r.message)))
      && (r.status == Failed ==>
            && n + last + 1 == max && r.iterations == max + 1
            && r.message == "Task failed: exceeded maximum iterations"
            && if last < 0 then run.history == h
               else TurnExplained(chat, exec, previews, n + last, run.calls[last], Continues(run.history)))
  }

  lemma {:induction false} RunIsExplained(chat: Provider, exec: Executor, previews: bool,
                                          max: nat, n: nat, h: seq<Message>)
    requires n <= max
    ensures RunExplained(chat, exec, previews, max, n, h, LoopFrom(chat, exec, previews, max, n, h))
    decreases max - n
  {
    hide TurnExplained, TakeTurn;
    if n == max {
    } else {
      TurnIsExplained(chat, exec, previews, n, h);
      match TakeTurn(chat, exec, previews, n, h) {
        case Continues(g) =>
          RunIsExplained(chat, exec, previews, max, n + 1, g);
        case _ =>
      }
    }
  }

  ghost predicate IsTaskTool(use: ToolUse) {
    |use.name| >= 5 && use.name[..5] == "task_"
  }

  /** Task manager and executor give the same answers where they are asked. */
  ghost predicate SameAnswers(tm1: (nat, nat, ToolUse) -> ToolResult, ex1: Executor,
                              tm2: (nat, nat, ToolUse) -> ToolResult, ex2: Executor)
  {
    && (forall n, k, use :: IsTaskTool(use) ==> tm1(n, k, use) == tm2(n, k, use))
    && (forall n, k, use :: !IsTaskTool(use) ==> ex1(n, k, use) == ex2(n, k, use))
  }

  lemma {:induction false} SameRound(tm1: (nat, nat, ToolUse) -> ToolResult, ex1: Executor,
                                     tm2: (nat, nat, ToolUse) -> ToolResult, ex2: Executor,
                                     n: nat, uses: seq<ToolUse>, k: nat)
    requires SameAnswers(tm1, ex1, tm2, ex2) && k <= |uses|
    ensures ToolRound(Dispatch(tm1, ex1), false, n, uses, k) == ToolRound(Dispatch(tm2, ex2), false, n, uses, k)
    decreases |uses| - k
  {
    if k == |uses| {
    } else {
      assert "task_" <= uses[k].name <==> IsTaskTool(uses[k]);
      assert Dispatch(tm1, ex1)(n, k, uses[k]) == Dispatch(tm2, ex2)(n, k, uses[k]);
      SameRound(tm1, ex1, tm2, ex2, n, uses, k + 1);
    }
  }

  /** The executor never matters to tools named `task_`, nor the task manager to any other: an
      orchestrator's run is the same whatever they would have answered to those. */
  lemma {:induction false} DispatchSeparates(tm1: (nat, nat, ToolUse) -> ToolResult, ex1: Executor,
                                             tm2: (nat, nat, ToolUse) -> ToolResult, ex2: Executor,
                                             chat: Provider, max: nat, n: nat, h: seq<Message>)
    requires SameAnswers(tm1, ex1, tm2, ex2) && n <= max
    ensures LoopFrom(chat, Dispatch(tm1, ex1), false, max, n, h) == LoopFrom(chat, Dispatch(tm2, ex2), false, max, n, h)
    decreases max - n
  {
    hide SameAnswers, Dispatch;
    if n == max {
    } else {
      if chat(n, h).Ok? {
        SameRound(tm1, ex1, tm2, ex2, n, ToolUses(chat(n, h).value.message), 0);
      }
      var turn := TakeTurn(chat, Dispatch(tm1, ex1), false, n, h);
      assert turn == TakeTurn(chat, Dispatch(tm2, ex2), false, n, h);
      hide TakeTurn;
      if turn.Continues? {
        DispatchSeparates(tm1, ex1, tm2, ex2, chat, max, n + 1, turn.history);
      }
    }
  }

  // ----- panics -----

  /** The call at position `j` succeeds with a result whose byte 200 lies inside a character. */
  ghost predicate PanicsAt(exec: Executor, n: nat, uses: seq<ToolUse>, j: nat)
    requires j < |uses|
  {
    && exec(n, j, uses[j]).Ok? && !exec(n, j, uses[j]).value.isError
    && Splits(exec(n, j, uses[j]).value.content, 200)
  }

  ghost predicate PanicsFirst(exec: Executor, n: nat, uses: seq<ToolUse>, k: nat, j: nat) {
    && k <= j < |uses| && PanicsAt(exec, n, uses, j)
    && forall i :: k <= i < j ==> exec(n, i, uses[i]).Ok? && !PanicsAt(exec, n, uses, i)
  }

  /** A round of the worker panics exactly at the first such result, unless the executor failed before. */
  lemma {:induction false} RoundPanicsIff(exec: Executor, n: nat, uses: seq<ToolUse>, k: nat)
    requires k <= |uses|
    ensures ToolRound(exec, true, n, uses, k).1 == Some(Panic) <==> exists j: nat :: PanicsFirst(exec, n, uses, k, j)
    decreases |uses| - k
  {
    if k == |uses| {
    } else if exec(n, k, uses[k]).Err? {
    } else if PanicsAt(exec, n, uses, k) {
      assert PanicsFirst(exec, n, uses, k, k);
    } else {
      RoundPanicsIff(exec, n, uses, k + 1);
      var next := k + 1;
      forall j: nat | PanicsFirst(exec, n, uses, next, j) ensures PanicsFirst(exec, n, uses, k, j) {
      }
      forall j: nat | PanicsFirst(exec, n, uses, k, j) ensures PanicsFirst(exec, n, uses, next, j) {
      }
    }
  }

  lemma {:induction false} NoPreviewNoPanic(chat: Provider, exec: Executor, max: nat, n: nat, h: seq<Message>)
    requires n <= max
    ensures LoopFrom(chat, exec, false, max, n, h).result != Err(Panic)
    decreases max - n
  {
    hide TakeTurn;
    if n == max {
    } else {
      TurnWithoutPanic(chat, exec, n, h);
      if TakeTurn(chat, exec, false, n, h).Continues? {
        NoPreviewNoPanic(chat, exec, max, n + 1, TakeTurn(chat, exec, false, n, h).history);
      }
    }
  }

  lemma TurnWithoutPanic(chat: Provider, exec: Executor, n: nat, h: seq<Message>)
    ensures var turn := TakeTurn(chat, exec, false, n, h); turn.Broken? ==> turn.fault != Panic
  {
    if chat(n, h).Ok? {
      RoundWithoutPanic(exec, n, ToolUses(chat(n, h).value.message), 0);
    }
  }

  lemma {:induction false} RoundWithoutPanic(exec: Executor, n: nat, uses: seq<ToolUse>, k: nat)
    requires k <= |uses|
    ensures ToolRound(exec, false, n, uses, k).1 != Some(Panic)
    decreases |uses| - k
  {
    if k == |uses| {
    } else {
      RoundWithoutPanic(exec, n, uses, k + 1);
    }
  }

  /** What the only call of an answer leaves when its result cannot be cut. */
  lemma UncutResultPanics(chat: Provider, exec: Executor, use: ToolUse, m: Message, n: nat, h: seq<Message>)
    requires ToolUses(m) == [use] && chat(n, h) == Ok(ChatResponse(m, None, None, 0))
    requires PanicsAt(exec, n, [use], 0)
    ensures TakeTurn(chat, exec, true, n, h) == Broken(Panic, h + [m])
    ensures TakeTurn(chat, exec, false, n, h).Continues?
  {
    hide Splits;
    assert ToolRound(exec, true, n, [use], 0) == ([], Some(Panic));
    assert [m] + [] == [m];
    assert ToolRound(exec, false, n, [use], 1) == ([], None);
    assert ToolRound(exec, false, n, [use], 0).1 == None;
  }

  /** A file of 67 three-byte characters read by the worker's first call stops it for good, and the
      call is left without its result; the orchestrator goes on. */
  lemma PreviewCanPanic(use: ToolUse, h: seq<Message>, max: nat)
    requires max > 0
    ensures var m := Message(Assistant, Blocks([ToolUseBlock(use)]));
            var chat: Provider := (n, h) => Ok(ChatResponse(m, None, None, 0));
            var exec: Executor := (n, k, use: ToolUse) => Ok(ToolResult(use.id, Repeat('\U{20AC}', 67), false));
            && LoopFrom(chat, exec, true, max, 0, h) == Run(Err(Panic), h + [m], [h])
            && TakeTurn(chat, exec, false, 0, h).Continues?
  {
    hide TakeTurn;
    var m := Message(Assistant, Blocks([ToolUseBlock(use)]));
    var chat: Provider := (n, h) => Ok(ChatResponse(m, None, None, 0));
    var exec: Executor := (n, k, use: ToolUse) => Ok(ToolResult(use.id, Repeat('\U{20AC}', 67), false));
    OneUse(use);
    RepeatSplits('\U{20AC}', 67, 200);
    UncutResultPanics(chat, exec, use, m, 0, h);
  }

  lemma OneUse(use: ToolUse)
    ensures ToolUses(Message(Assistant, Blocks([ToolUseBlock(use)]))) == [use]
  {
    assert [ToolUseBlock(use)][1..] == [] && UsesIn([]) == [];
    assert UsesIn([ToolUseBlock(use)]) == [use] + [];
  }
}
