/** The conversation of a task agent (apps/cli/src/agents/task_agent.rs, `execute`): which histories
    the provider is shown, given that a call completed by an earlier run is skipped without a
    result. */
module TaskConversation {
  import opened Wrappers
  import opened Chat
  import opened AgentProtocol

  // ----- gaps -----

  /** Tool use `k` of message `p` has no result at its place: the history ends there, or something
      else follows. */
  ghost predicate GapAt(h: seq<Message>, p: int, k: int) {
    && 0 <= p < |h| && 0 <= k < |ToolUses(h[p])| && p + 1 + k <= |h|
    && (p + 1 + k < |h| ==> !IsResult(h[p + 1 + k]))
  }

  ghost predicate Gapped(h: seq<Message>) {
    exists p, k :: GapAt(h, p, k)
  }

  /** A gap that later results cannot fill. */
  ghost predicate GappedForGood(h: seq<Message>) {
    exists p, k :: GapAt(h, p, k) && p + 1 + k < |h|
  }

  lemma GapBreaks(h: seq<Message>)
    requires Gapped(h)
    ensures !WellFormed(h)
  {
    var p, k :| GapAt(h, p, k);
    assert p + 1 + k < |h| ==> !IsResultFor(h[p + 1 + k], ToolUses(h[p])[k]);
    assert !AnsweredAt(h, p);
  }

  lemma GapStays(h: seq<Message>, m: Message)
    requires GappedForGood(h) || (Gapped(h) && !IsResult(m))
    ensures GappedForGood(h + [m])
  {
    var g := h + [m];
    var p, k :| GapAt(h, p, k) && (p + 1 + k < |h| || !IsResult(m));
    assert g[p] == h[p] && (p + 1 + k < |h| ==> g[p + 1 + k] == h[p + 1 + k]);
    assert GapAt(g, p, k) && p + 1 + k < |g|;
  }

  // ----- one round of tool calls -----

  /** The answer at position `q` is being worked on: results follow it, and `open` are its tool
      uses that are still to be handled. */
  ghost predicate InRound(h: seq<Message>, q: int, open: seq<ToolUse>, skipped: bool) {
    && 0 <= q < |h| && !HasResult(h[q]) && |h| - q - 1 + |open| <= |ToolUses(h[q])|
    && (forall i :: q < i < |h| ==> IsResult(h[i]))
    && if skipped then GappedForGood(h) || |h| - q - 1 + |open| < |ToolUses(h[q])|
       else WellFormed(h[..q]) && Answered(h, q, open)
  }

  /** The results so far are those of the first uses, and the others are open. */
  ghost predicate Answered(h: seq<Message>, q: int, open: seq<ToolUse>)
    requires 0 <= q < |h|
  {
    var uses, n := ToolUses(h[q]), |h| - q - 1;
    n <= |uses| && open == uses[n..] && forall k :: 0 <= k < n ==> IsResultFor(h[q + 1 + k], uses[k])
  }

  lemma StartRound(h: seq<Message>, m: Message, skipped: bool)
    requires !HasResult(m) && if skipped then Gapped(h) else WellFormed(h)
    ensures InRound(h + [m], |h|, ToolUses(m), skipped)
  {
    var g := h + [m];
    assert g[..|h|] == h && g[|h|] == m;
    if skipped {
      assert !IsResult(m) by {
        if IsResult(m) {
          ResultHasNoUses(m);
        }
      }
      GapStays(h, m);
    }
  }

  lemma AnswerOne(h: seq<Message>, q: int, open: seq<ToolUse>, skipped: bool, m: Message)
    requires InRound(h, q, open, skipped) && open != [] && IsResultFor(m, open[0])
    ensures InRound(h + [m], q, open[1..], skipped)
  {
    hide WellFormed, HasResult, ToolUses;
    var g := h + [m];
    assert g[q] == h[q] && g[..q] == h[..q];
    forall i | q < i < |g| ensures IsResult(g[i]) {
      assert i < |h| ==> g[i] == h[i];
    }
    if skipped {
      if GappedForGood(h) {
        GapStays(h, m);
      }
    } else {
      var uses, n := ToolUses(h[q]), |h| - q - 1;
      assert open[0] == uses[n] && open[1..] == uses[n + 1..];
      forall k | 0 <= k < n + 1 ensures IsResultFor(g[q + 1 + k], uses[k]) {
        assert k < n ==> g[q + 1 + k] == h[q + 1 + k];
      }
    }
  }

  lemma SkipOne(h: seq<Message>, q: int, open: seq<ToolUse>, skipped: bool)
    requires InRound(h, q, open, skipped) && open != []
    ensures InRound(h, q, open[1..], true)
  {
  }

  lemma EndRound(h: seq<Message>, q: int, skipped: bool)
    requires InRound(h, q, [], skipped)
    ensures if skipped then Gapped(h) else WellFormed(h)
  {
    if skipped {
      if !GappedForGood(h) {
        assert GapAt(h, q, |h| - q - 1);
      }
    } else {
      CompleteRound(h, q);
    }
  }

  lemma CompleteRound(h: seq<Message>, q: int)
    requires 0 <= q < |h| && !HasResult(h[q]) && WellFormed(h[..q]) && Answered(h, q, [])
    ensures WellFormed(h)
  {
    hide WellFormed, HasResult, IsResultFor, ToolUses;
    var results := h[q + 1..];
    forall k | 0 <= k < |results| ensures IsResultFor(results[k], ToolUses(h[q])[k]) {
      assert results[k] == h[q + 1 + k];
    }
    AnswersMakeRound(h[q], results);
    WellFormedConcat(h[..q], [h[q]] + results);
    assert h == h[..q] + ([h[q]] + results);
  }

  // ----- the agent -----

  /** The tool uses of the current answer that have no result yet and may still get one. */
  function Open(s: State): seq<ToolUse> {
    match s.phase
    case Tools(uses) => uses
    case Waiting(uses, _) => uses
    case Running(uses, _) => uses
    case Marking(uses, _) => if uses == [] then [] else uses[1..]
    case Unlocking(uses, _, _) => if uses == [] then [] else uses[1..]
    case _ => []
  }

  predicate Aborting(s: State) {
    Stopping(s) || (s.phase.Unlocking? && s.phase.abort.Some?)
  }

  /** Between rounds the history is well formed exactly if nothing was skipped. */
  ghost predicate Settled(h: seq<Message>, skipped: bool) {
    if skipped then Gapped(h) else WellFormed(h)
  }

  ghost predicate Working(h: seq<Message>, open: seq<ToolUse>, skipped: bool) {
    exists q :: InRound(h, q, open, skipped)
  }

  ghost predicate Converses(s: State, skipped: bool) {
    if Aborting(s) then true
    else if CurrentUses(s) != [] then Working(s.history, Open(s), skipped)
    else
      && Settled(s.history, skipped)
      && (s.phase.Recording? ==> !HasResult(s.phase.response.message))
      && (s.phase.Checking? ==> !HasResult(s.phase.response.message))
  }

  /** The provider brings no results, and the executor labels a result with the id of its call. */
  ghost predicate Proper(s: State, e: Event) {
    && (e.Called? ==> !HasResult(e.response.message))
    && (e.Executed? && CurrentUses(s) != [] ==> e.result.toolUseId == CurrentUses(s)[0].id)
  }

  lemma TextKeepsSettled(h: seq<Message>, text: string, skipped: bool)
    requires Settled(h, skipped)
    ensures Settled(h + [UserText(text)], skipped)
  {
    if skipped {
      GapStays(h, UserText(text));
    } else {
      WellFormedText(text);
      WellFormedConcat(h, [UserText(text)]);
    }
  }

  lemma BudgetConverses(s: State, r: ChatResponse, skipped: bool)
    requires Settled(s.history, skipped) && !HasResult(r.message)
    ensures Converses(AfterBudget(s, r), skipped)
  {
    hide Gapped, WellFormed, HasResult, InRound;
    if !Completes(r) {
      StartRound(s.history, r.message, skipped);
      assert InRound(s.history + [r.message], |s.history|, ToolUses(r.message), skipped);
    }
  }

  lemma CallConverses(cfg: Config, s: State, r: ChatResponse, skipped: bool)
    requires Settled(s.history, skipped) && !HasResult(r.message)
    ensures Converses(AfterCall(cfg, s, r), skipped)
  {
    hide Settled, HasResult;
    var t := s.(calls := s.calls + 1, tokens := s.tokens + r.tokens, lastCall := r.tokens,
                largestCall := if r.tokens > s.largestCall then r.tokens else s.largestCall);
    BudgetConverses(t, r, skipped);
  }

  lemma AnswerConverses(cfg: Config, s: State, e: Event, skipped: bool)
    requires Answering(s) && NextAnswer(cfg, s, e).Some? && Converses(s, skipped) && Proper(s, e)
    ensures Converses(NextAnswer(cfg, s, e).value, skipped) && !e.Skipped?
  {
    hide AfterCall, Settled, HasResult;
    if e.Called? {
      CallConverses(cfg, s, e.response, skipped);
    }
    if e.HelpReceived? {
      TextKeepsSettled(s.history, e.text, skipped);
    }
    if e.Registered? {
      TextKeepsSettled(s.history, cfg.description, skipped);
    }
  }

  lemma VerdictConverses(cfg: Config, s: State, e: Event, skipped: bool)
    requires Judging(s) && NextVerdict(cfg, s, e).Some? && Converses(s, skipped)
    ensures Converses(NextVerdict(cfg, s, e).value, skipped) && !e.Skipped?
  {
    hide AfterBudget, Settled, HasResult;
    if s.phase.Checking? {
      BudgetConverses(s, s.phase.response, skipped);
    }
    if e.Validated? && e.v.Rejected? {
      TextKeepsSettled(s.history, e.v.feedback, skipped);
    }
  }

  /** The first of the open uses is done with: with a result, or skipped. */
  lemma UseDone(h: seq<Message>, g: seq<Message>, open: seq<ToolUse>, before: bool, after: bool)
    requires Working(h, open, before) && open != []
    requires || (after && g == h)
             || (after == before && exists m :: g == h + [m] && IsResultFor(m, open[0]))
    ensures Working(g, open[1..], after)
  {
    hide InRound;
    var q :| InRound(h, q, open, before);
    if g == h {
      SkipOne(h, q, open, before);
    } else {
      var m :| g == h + [m] && IsResultFor(m, open[0]);
      AnswerOne(h, q, open, before, m);
    }
  }

  lemma RoundDone(h: seq<Message>, skipped: bool)
    requires Working(h, [], skipped)
    ensures Settled(h, skipped)
  {
    hide InRound;
    var q :| InRound(h, q, [], skipped);
    EndRound(h, q, skipped);
  }

  /** After a tool call the round goes on, or it is over. */
  lemma AfterToolConverses(s: State, uses: seq<ToolUse>, skipped: bool)
    requires uses != [] && s.phase == AfterTool(uses) && Working(s.history, uses[1..], skipped)
    ensures Converses(s, skipped)
  {
    hide Working, Settled;
    if |uses| == 1 {
      assert uses[1..] == [];
      RoundDone(s.history, skipped);
    }
  }

  lemma ResultAnswers(use: ToolUse, r: ToolResult)
    requires r.toolUseId == use.id
    ensures IsResultFor(ResultMessage(r), use)
  {
  }

  lemma ResultConverses(cfg: Config, s: State, e: Event, skipped: bool)
    requires CurrentUses(s) != [] && NextTool(cfg, s, CurrentUses(s), e).Some?
    requires Converses(s, skipped) && Proper(s, e) && (e.Executed? || e.LockDenied?)
    ensures Converses(NextTool(cfg, s, CurrentUses(s), e).value, skipped)
  {
    hide Working, Settled, IsResultFor;
    var uses, t := CurrentUses(s), NextTool(cfg, s, CurrentUses(s), e).value;
    var r := if e.Executed? then e.result else DeniedResult(uses[0], e.error);
    ResultAnswers(uses[0], r);
    UseDone(s.history, t.history, uses, skipped, skipped);
    if t.phase == AfterTool(uses) {
      AfterToolConverses(t, uses, skipped);
    }
  }

  lemma ToolConverses(cfg: Config, s: State, e: Event, skipped: bool)
    requires CurrentUses(s) != [] && NextTool(cfg, s, CurrentUses(s), e).Some?
    requires Converses(s, skipped) && Proper(s, e)
    ensures Converses(NextTool(cfg, s, CurrentUses(s), e).value, skipped || e.Skipped?)
  {
    hide Working, Settled;
    if e.Executed? || e.LockDenied? {
      ResultConverses(cfg, s, e, skipped);
    } else if !e.ExecutionFailed? {
      StepConverses(cfg, s, e, skipped);
    }
  }

  lemma StepConverses(cfg: Config, s: State, e: Event, skipped: bool)
    requires CurrentUses(s) != [] && NextTool(cfg, s, CurrentUses(s), e).Some?
    requires Converses(s, skipped) && !e.Executed? && !e.LockDenied? && !e.ExecutionFailed?
    ensures Converses(NextTool(cfg, s, CurrentUses(s), e).value, skipped || e.Skipped?)
  {
    hide Working, Settled;
    var uses, t := CurrentUses(s), NextTool(cfg, s, CurrentUses(s), e).value;
    if e.Skipped? {
      UseDone(s.history, t.history, uses, skipped, true);
      AfterToolConverses(t, uses, true);
    } else if (e.Marked? || e.LockReleased?) && t.phase == AfterTool(uses) && !Aborting(s) {
      AfterToolConverses(t, uses, skipped);
    }
  }

  lemma NextConverses(cfg: Config, s: State, e: Event, skipped: bool)
    requires Next(cfg, s, e).Some? && Converses(s, skipped) && Proper(s, e)
    ensures Converses(Next(cfg, s, e).value, skipped || e.Skipped?)
  {
    hide NextAnswer, NextVerdict, NextTool, NextExit, Converses, Proper;
    if Answering(s) {
      AnswerConverses(cfg, s, e, skipped);
    } else if Judging(s) {
      VerdictConverses(cfg, s, e, skipped);
    } else if CurrentUses(s) != [] {
      ToolConverses(cfg, s, e, skipped);
    } else {
      ExitConverses(s, e, skipped);
    }
  }

  lemma ExitConverses(s: State, e: Event, skipped: bool)
    requires NextExit(s, e).Some?
    ensures Converses(NextExit(s, e).value, skipped) && !e.Skipped?
  {
    hide Settled, Working;
  }

  // ----- whole runs -----

  ghost predicate AllProper(cfg: Config, start: State, log: seq<Event>) {
    forall i :: 0 <= i < |log| && After(cfg, start, log[..i]).Some? ==>
      Proper(After(cfg, start, log[..i]).value, log[i])
  }

  ghost predicate HasSkip(log: seq<Event>) {
    exists i :: 0 <= i < |log| && log[i].Skipped?
  }

  lemma {:induction false} RunsConverse(cfg: Config, start: State, log: seq<Event>)
    requires start.phase.Starting? && WellFormed(start.history)
    requires After(cfg, start, log).Some? && AllProper(cfg, start, log)
    ensures Converses(After(cfg, start, log).value, HasSkip(log))
  {
    hide Next, Converses, Proper;
    if log == [] {
      StartConverses(start);
    } else {
      var n := |log| - 1;
      forall i | 0 <= i < n ensures log[..n][..i] == log[..i] {}
      RunsConverse(cfg, start, log[..n]);
      var before := After(cfg, start, log[..n]).value;
      assert Proper(before, log[n]);
      NextConverses(cfg, before, log[n], HasSkip(log[..n]));
      SkipsSoFar(log);
    }
  }

  lemma StartConverses(start: State)
    requires start.phase.Starting? && WellFormed(start.history)
    ensures Converses(start, HasSkip([]))
  {
  }

  lemma SkipsSoFar(log: seq<Event>)
    requires log != []
    ensures HasSkip(log) <==> HasSkip(log[..|log| - 1]) || log[|log| - 1].Skipped?
  {
    var n := |log| - 1;
    forall i | 0 <= i < n ensures log[..n][i] == log[i] {}
    if HasSkip(log[..n]) {
      var i :| 0 <= i < n && log[..n][i].Skipped?;
      assert log[i].Skipped?;
    }
  }

  lemma CallsFromTheTop(cfg: Config, s: State, e: Event)
    requires Next(cfg, s, e).Some? && IsCall(e)
    ensures s.phase.Deciding? || s.phase.Calling?
  {
    hide NextExit;
    if !Answering(s) && !Judging(s) && CurrentUses(s) == [] {
      ExitCallsNobody(s, e);
    }
  }

  lemma ExitCallsNobody(s: State, e: Event)
    requires NextExit(s, e).Some?
    ensures !IsCall(e)
  {
  }

  lemma PrefixOfRun(cfg: Config, start: State, log: seq<Event>, i: nat)
    requires After(cfg, start, log).Some? && i <= |log|
    ensures After(cfg, start, log[..i]).Some?
    decreases |log| - i
  {
    hide Next;
    if i == |log| {
      assert log[..i] == log;
    } else {
      PrefixOfRun(cfg, start, log, i + 1);
      assert log[..i + 1][..i] == log[..i];
    }
  }

  /** From a well-formed history, with an executor that labels its results and answers that bring
      none, the provider is shown a well-formed history if and only if no call was skipped before. */
  lemma CallsSeeWellFormed(cfg: Config, history: seq<Message>, n: nat, log: seq<Event>, i: nat)
    requires WellFormed(history) && AllProper(cfg, Initial(history, n), log)
    requires After(cfg, Initial(history, n), log).Some? && i < |log| && IsCall(log[i])
    ensures var before := After(cfg, Initial(history, n), log[..i]);
            before.Some? && (WellFormed(before.value.history) <==> !HasSkip(log[..i]))
  {
    hide Next, Proper, HasSkip, WellFormed;
    var start := Initial(history, n);
    PrefixOfRun(cfg, start, log, i);
    PrefixOfRun(cfg, start, log, i + 1);
    assert log[..i + 1][..i] == log[..i];
    forall k | 0 <= k < i ensures log[..i][..k] == log[..k] {}
    RunsConverse(cfg, start, log[..i]);
    var before := After(cfg, start, log[..i]).value;
    CallsFromTheTop(cfg, before, log[i]);
    if Gapped(before.history) {
      GapBreaks(before.history);
    }
  }
}
