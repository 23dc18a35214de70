/** What the log of a task agent's run says (apps/cli/src/agents/task_agent.rs, `execute`): the
    conversation that it leads, why it ends, what it reports to the session budget, and what it
    marks and skips. */
module TaskReport {
  import opened Wrappers
  import opened Chat
  import opened AgentProtocol
  import CrashResume

  /** The state before event `i`, or after the whole log. */
  ghost function At(cfg: Config, start: State, log: seq<Event>, i: nat): State
    requires i <= |log| && After(cfg, start, log).Some?
  {
    PrefixIsRun(cfg, start, log, i);
    After(cfg, start, log[..i]).value
  }

  lemma {:induction false} PrefixIsRun(cfg: Config, start: State, log: seq<Event>, i: nat)
    requires i <= |log| && After(cfg, start, log).Some?
    ensures After(cfg, start, log[..i]).Some?
    decreases |log| - i
  {
    hide Next;
    if i == |log| {
      assert log[..i] == log;
    } else {
      PrefixIsRun(cfg, start, log, i + 1);
      assert log[..i + 1][..i] == log[..i];
    }
  }

  lemma StepAt(cfg: Config, start: State, log: seq<Event>, i: nat)
    requires i < |log| && After(cfg, start, log).Some?
    ensures Next(cfg, At(cfg, start, log, i), log[i]) == Some(At(cfg, start, log, i + 1))
  {
    hide Next;
    PrefixIsRun(cfg, start, log, i);
    PrefixIsRun(cfg, start, log, i + 1);
    assert log[..i + 1][..i] == log[..i];
  }

  // ----- the conversation -----

  function FromUser(text: string): seq<Message> {
    [Message(User, Plain(text))]
  }

  function ResultOf(id: string, content: string, isError: bool): seq<Message> {
    [Message(User, Blocks([ToolResultBlock(ToolResult(id, content, isError))]))]
  }

  /** The answer enters the conversation when its tools are run. */
  ghost function AnswerOf(r: ChatResponse): seq<Message> {
    if EndsTurn(r) then [] else [r.message]
  }

  /** What an event in state `s` adds to the conversation. */
  ghost function Uttered(cfg: Config, s: State, e: Event): seq<Message> {
    match e
    case Registered(ok) => if ok then FromUser(cfg.description) else []
    case HelpReceived(text) => FromUser(text)
    case Called(r) =>
      if cfg.hasSession || (cfg.maxTotalTokens.Some? && s.tokens + r.tokens > cfg.maxTotalTokens.value) then []
      else AnswerOf(r)
    case Checked(pass) => if pass && s.phase.Checking? then AnswerOf(s.phase.response) else []
    case Validated(v) => if v.Rejected? then FromUser(v.feedback) else []
    case LockDenied(error) =>
      if CurrentUses(s) == [] then [] else ResultOf(CurrentUses(s)[0].id, "Could not acquire file lock: " + error, true)
    case Executed(r) => ResultOf(r.toolUseId, r.content, r.isError)
    case _ => []
  }

  lemma BudgetUtters(s: State, r: ChatResponse)
    ensures AfterBudget(s, r).history == s.history + AnswerOf(r)
  {
    CompletesIff(r);
  }

  lemma AnswerUtters(cfg: Config, s: State, e: Event)
    requires Answering(s) && NextAnswer(cfg, s, e).Some?
    ensures NextAnswer(cfg, s, e).value.history == s.history + Uttered(cfg, s, e)
  {
    hide AfterBudget, AnswerOf;
    if e.Called? {
      var t := s.(calls := s.calls + 1, tokens := s.tokens + e.response.tokens, lastCall := e.response.tokens,
                  largestCall := if e.response.tokens > s.largestCall then e.response.tokens else s.largestCall);
      BudgetUtters(t, e.response);
    }
  }

  lemma VerdictUtters(cfg: Config, s: State, e: Event)
    requires Judging(s) && NextVerdict(cfg, s, e).Some?
    ensures NextVerdict(cfg, s, e).value.history == s.history + Uttered(cfg, s, e)
  {
    hide AfterBudget, AnswerOf;
    if s.phase.Checking? {
      BudgetUtters(s, s.phase.response);
    }
  }

  lemma ToolUtters(cfg: Config, s: State, e: Event)
    requires CurrentUses(s) != [] && NextTool(cfg, s, CurrentUses(s), e).Some?
    ensures NextTool(cfg, s, CurrentUses(s), e).value.history == s.history + Uttered(cfg, s, e)
  {
  }

  lemma ExitUtters(cfg: Config, s: State, e: Event)
    requires NextExit(s, e).Some?
    ensures NextExit(s, e).value.history == s.history + Uttered(cfg, s, e)
  {
  }

  lemma NextUtters(cfg: Config, s: State, e: Event)
    requires Next(cfg, s, e).Some?
    ensures Next(cfg, s, e).value.history == s.history + Uttered(cfg, s, e)
  {
    hide NextAnswer, NextVerdict, NextTool, NextExit, Uttered;
    if Answering(s) {
      AnswerUtters(cfg, s, e);
    } else if Judging(s) {
      VerdictUtters(cfg, s, e);
    } else if CurrentUses(s) != [] {
      ToolUtters(cfg, s, e);
    } else {
      ExitUtters(cfg, s, e);
    }
  }

  /** The conversation is what was there and what the events added, one after the other: the task's
      description, answers with tools, results and refusals, help and feedback, and nothing else. */
  lemma HistoryStep(cfg: Config, start: State, log: seq<Event>, i: nat)
    requires i < |log| && After(cfg, start, log).Some?
    ensures At(cfg, start, log, i + 1).history ==
            At(cfg, start, log, i).history + Uttered(cfg, At(cfg, start, log, i), log[i])
  {
    hide Next, Uttered, At;
    StepAt(cfg, start, log, i);
    NextUtters(cfg, At(cfg, start, log, i), log[i]);
  }

  // ----- what has happened so far -----

  /** Tokens of all answers and of the most expensive one, the last answer, tokens reported to the
      session budget, iterations started, and whether the events that end a run or delete the
      checkpoint have occurred. */
  datatype Facts = Facts(
    tokens: nat,
    largest: nat,
    answer: Option<ChatResponse>,
    recorded: nat,
    iterations: nat,
    timedOut: bool,
    atLimit: bool,
    overSession: bool,
    accepted: bool,
    deleted: bool)

  const NOTHING := Facts(0, 0, None, 0, 0, false, false, false, false, false)

  function Learn(f: Facts, e: Event): Facts {
    match e
    case Called(r) =>
      f.(tokens := f.tokens + r.tokens, answer := Some(r),
         largest := if f.largest < r.tokens then r.tokens else f.largest)
    case Recorded(tokens) => f.(recorded := f.recorded + tokens)
    case IterationStarted => f.(iterations := f.iterations + 1)
    case TimedOut => f.(timedOut := true)
    case LimitReached => f.(atLimit := true)
    case Checked(pass) => if pass then f else f.(overSession := true)
    case Validated(v) => if v.Rejected? then f else f.(accepted := true)
    case CheckpointDeleted(_) => f.(deleted := true)
    case _ => f
  }

  function FactsOf(log: seq<Event>): Facts {
    if log == [] then NOTHING else Learn(FactsOf(log[..|log| - 1]), log[|log| - 1])
  }

  lemma InLonger(log: seq<Event>, e: Event)
    requires log != []
    ensures e in log <==> e in log[..|log| - 1] || e == log[|log| - 1]
  {
    assert log == log[..|log| - 1] + [log[|log| - 1]];
  }

  /** The facts of a log are facts about its events. */
  lemma {:induction false} FactsAreEvents(log: seq<Event>)
    ensures FactsOf(log).timedOut <==> TimedOut in log
    ensures FactsOf(log).atLimit <==> LimitReached in log
    ensures FactsOf(log).overSession <==> Checked(false) in log
  {
    if log == [] {
    } else {
      FactsAreEvents(log[..|log| - 1]);
      InLonger(log, TimedOut);
      InLonger(log, LimitReached);
      InLonger(log, Checked(false));
    }
  }

  lemma {:induction false} DeletionIsEvent(log: seq<Event>)
    ensures FactsOf(log).deleted <==> CheckpointDeleted(true) in log || CheckpointDeleted(false) in log
  {
    if log == [] {
    } else {
      DeletionIsEvent(log[..|log| - 1]);
      InLonger(log, CheckpointDeleted(true));
      InLonger(log, CheckpointDeleted(false));
    }
  }

  /** Event `i` is the last answer of the provider. */
  ghost predicate AnswersLast(log: seq<Event>, i: int, r: ChatResponse) {
    0 <= i < |log| && log[i] == Called(r) && forall j :: i < j < |log| ==> !log[j].Called?
  }

  lemma {:induction false} AnswerIsEvent(log: seq<Event>)
    ensures match FactsOf(log).answer
            case None => forall i :: 0 <= i < |log| ==> !log[i].Called?
            case Some(r) => exists i :: AnswersLast(log, i, r)
  {
    if log == [] {
    } else {
      var n := |log| - 1;
      AnswerIsEvent(log[..n]);
      forall j | 0 <= j < n ensures log[..n][j] == log[j] {}
      if log[n].Called? {
        assert FactsOf(log).answer == Some(log[n].response);
        assert AnswersLast(log, n, FactsOf(log).answer.value);
      } else if FactsOf(log[..n]).answer.Some? {
        var i :| AnswersLast(log[..n], i, FactsOf(log[..n]).answer.value);
        assert FactsOf(log).answer == FactsOf(log[..n]).answer;
        assert AnswersLast(log, i, FactsOf(log).answer.value);
      }
    }
  }

  ghost predicate IsAccepted(e: Event) {
    e.Validated? && !e.v.Rejected?
  }

  lemma {:induction false} AcceptanceIsEvent(log: seq<Event>)
    ensures FactsOf(log).accepted <==> exists e :: e in log && IsAccepted(e)
  {
    if log == [] {
    } else {
      var before, last := log[..|log| - 1], log[|log| - 1];
      AcceptanceIsEvent(before);
      forall e ensures e in log <==> e in before || e == last {
        InLonger(log, e);
      }
      assert FactsOf(log).accepted <==> FactsOf(before).accepted || IsAccepted(last);
      assert last in log;
    }
  }

  // ----- how a run ends -----

  ghost predicate OverTokens(cfg: Config, f: Facts) {
    cfg.maxTotalTokens.Some? && f.tokens > cfg.maxTotalTokens.value
  }

  /** The last answer ended its turn with this text. */
  ghost predicate EndedWith(f: Facts, text: string) {
    && f.answer.Some? && EndsTurn(f.answer.value)
    && text == if f.answer.value.text.Some? then f.answer.value.text.value else "Task completed"
  }

  /** The ending of a run and what happened in it agree, in both directions. */
  ghost predicate Justified(cfg: Config, f: Facts, ending: Ending) {
    && (ending == Failure(Timeout) <==> f.timedOut)
    && (ending == Failure(IterationLimit) <==> f.atLimit)
    && (ending == Failure(TokenBudget) <==> OverTokens(cfg, f))
    && (ending == Failure(SessionBudget) <==> f.overSession)
    && (ending.Success? <==> f.accepted)
    && (ending.Success? ==> EndedWith(f, ending.text))
  }

  /** Nothing that ends a run has happened. */
  ghost predicate Unfinished(cfg: Config, f: Facts) {
    !f.timedOut && !f.atLimit && !OverTokens(cfg, f) && !f.overSession && !f.accepted
  }

  ghost predicate Telling(cfg: Config, f: Facts, phase: Phase) {
    match phase
    case EndTask(ending) => Justified(cfg, f, ending)
    case SendResult(ending) => Justified(cfg, f, ending)
    case Unregister(ending) => Justified(cfg, f, ending)
    case ReleaseAll(ending) => Justified(cfg, f, ending)
    case DeleteCheckpoint(ending) => Justified(cfg, f, ending)
    case Returning(outcome) => outcome.Finished? ==> Justified(cfg, f, outcome.ending)
    case Over(outcome) => outcome.Finished? ==> Justified(cfg, f, outcome.ending)
    case Recording(r) => Unfinished(cfg, f) && f.answer == Some(r)
    case Checking(r) => Unfinished(cfg, f) && f.answer == Some(r)
    case Validating(text) => Unfinished(cfg, f) && EndedWith(f, text)
    case _ => Unfinished(cfg, f)
  }

  ghost predicate Tells(cfg: Config, f: Facts, s: State) {
    s.tokens == f.tokens && Telling(cfg, f, s.phase)
  }

  lemma CallTells(cfg: Config, f: Facts, s: State, r: ChatResponse)
    requires Tells(cfg, f, s) && Answering(s)
    ensures Tells(cfg, Learn(f, Called(r)), AfterCall(cfg, s, r))
  {
    hide EndsTurn, Completes;
    CompletesIff(r);
  }

  lemma AnswerTells(cfg: Config, f: Facts, s: State, e: Event)
    requires Tells(cfg, f, s) && Answering(s) && NextAnswer(cfg, s, e).Some?
    ensures Tells(cfg, Learn(f, e), NextAnswer(cfg, s, e).value)
  {
    hide AfterCall, EndedWith;
    if e.Called? {
      hide Telling;
      CallTells(cfg, f, s, e.response);
    }
  }

  lemma VerdictTells(cfg: Config, f: Facts, s: State, e: Event)
    requires Tells(cfg, f, s) && Judging(s) && NextVerdict(cfg, s, e).Some?
    ensures Tells(cfg, Learn(f, e), NextVerdict(cfg, s, e).value)
  {
    hide EndsTurn, Completes;
    if s.phase.Checking? {
      CompletesIff(s.phase.response);
    }
  }

  lemma ToolTells(cfg: Config, f: Facts, s: State, e: Event)
    requires Tells(cfg, f, s) && CurrentUses(s) != [] && NextTool(cfg, s, CurrentUses(s), e).Some?
    ensures Tells(cfg, Learn(f, e), NextTool(cfg, s, CurrentUses(s), e).value)
  {
    hide Unfinished, EndedWith;
    ToolTeachesNothing(cfg, f, s, e);
    hide Learn;
  }

  lemma ToolTeachesNothing(cfg: Config, f: Facts, s: State, e: Event)
    requires CurrentUses(s) != [] && NextTool(cfg, s, CurrentUses(s), e).Some?
    ensures Learn(f, e) == f
  {
  }

  lemma ExitTells(cfg: Config, f: Facts, s: State, e: Event)
    requires Tells(cfg, f, s) && NextExit(s, e).Some?
    ensures Tells(cfg, Learn(f, e), NextExit(s, e).value)
  {
    hide EndsTurn;
  }

  lemma NextTells(cfg: Config, f: Facts, s: State, e: Event)
    requires Tells(cfg, f, s) && Next(cfg, s, e).Some?
    ensures Tells(cfg, Learn(f, e), Next(cfg, s, e).value)
  {
    hide NextAnswer, NextVerdict, NextTool, NextExit, Tells, Learn;
    if Answering(s) {
      AnswerTells(cfg, f, s, e);
    } else if Judging(s) {
      VerdictTells(cfg, f, s, e);
    } else if CurrentUses(s) != [] {
      ToolTells(cfg, f, s, e);
    } else {
      ExitTells(cfg, f, s, e);
    }
  }

  lemma {:induction false} RunsTell(cfg: Config, history: seq<Message>, n: nat, log: seq<Event>)
    requires After(cfg, Initial(history, n), log).Some?
    ensures Tells(cfg, FactsOf(log), After(cfg, Initial(history, n), log).value)
  {
    hide Next, Learn;
    if log == [] {
    } else {
      hide Tells;
      var k := |log| - 1;
      RunsTell(cfg, history, n, log[..k]);
      NextTells(cfg, FactsOf(log[..k]), After(cfg, Initial(history, n), log[..k]).value, log[k]);
    }
  }

  /** A finished run names the one reason that it had: a failure exactly what happened, a success
      an accepted completion with the text of the last answer. */
  lemma EndingIsJustified(cfg: Config, history: seq<Message>, n: nat, log: seq<Event>, outcome: Outcome)
    requires After(cfg, Initial(history, n), log).Some?
    requires After(cfg, Initial(history, n), log).value.phase == Over(outcome) && outcome.Finished?
    ensures Justified(cfg, FactsOf(log), outcome.ending)
  {
    hide Next, Justified;
    RunsTell(cfg, history, n, log);
  }

  // ----- why a run is aborted -----

  /** The error of the registration, of the provider or of the executor. */
  ghost predicate FailedWith(e: Event, error: string) {
    e == CallFailed(error) || e == ExecutionFailed(error) || (e == Registered(false) && error == "registration failed")
  }

  /** The error that the run is being aborted with. */
  ghost function AbortOf(phase: Phase): Option<string> {
    match phase
    case Unlocking(_, _, abort) => abort
    case Returning(Aborted(error)) => Some(error)
    case Over(Aborted(error)) => Some(error)
    case _ => None
  }

  ghost predicate AbortStep(s: State, e: Event, t: State) {
    AbortOf(t.phase).Some? ==> FailedWith(e, AbortOf(t.phase).value) || AbortOf(s.phase) == AbortOf(t.phase)
  }

  lemma AnswerAborts(cfg: Config, s: State, e: Event)
    requires Answering(s) && NextAnswer(cfg, s, e).Some?
    ensures AbortStep(s, e, NextAnswer(cfg, s, e).value)
  {
  }

  lemma VerdictAborts(cfg: Config, s: State, e: Event)
    requires Judging(s) && NextVerdict(cfg, s, e).Some?
    ensures AbortStep(s, e, NextVerdict(cfg, s, e).value)
  {
  }

  lemma ToolAborts(cfg: Config, s: State, e: Event)
    requires CurrentUses(s) != [] && NextTool(cfg, s, CurrentUses(s), e).Some?
    ensures AbortStep(s, e, NextTool(cfg, s, CurrentUses(s), e).value)
  {
  }

  lemma ExitAborts(s: State, e: Event)
    requires NextExit(s, e).Some?
    ensures AbortStep(s, e, NextExit(s, e).value)
  {
  }

  lemma NextAborts(cfg: Config, s: State, e: Event)
    requires Next(cfg, s, e).Some?
    ensures AbortStep(s, e, Next(cfg, s, e).value)
  {
    hide NextAnswer, NextVerdict, NextTool, NextExit, AbortStep;
    if Answering(s) {
      AnswerAborts(cfg, s, e);
    } else if Judging(s) {
      VerdictAborts(cfg, s, e);
    } else if CurrentUses(s) != [] {
      ToolAborts(cfg, s, e);
    } else {
      ExitAborts(s, e);
    }
  }

  /** A run aborts only with an error that was reported to it, and returns that very error. */
  lemma {:induction false} AbortsAreReported(cfg: Config, start: State, log: seq<Event>, error: string)
    requires start.phase.Starting? && After(cfg, start, log).Some?
    requires AbortOf(After(cfg, start, log).value.phase) == Some(error)
    ensures exists e :: e in log && FailedWith(e, error)
  {
    hide Next, FailedWith;
    if log == [] {
    } else {
      var n := |log| - 1;
      NextAborts(cfg, After(cfg, start, log[..n]).value, log[n]);
      if FailedWith(log[n], error) {
        assert log[n] in log;
      } else {
        AbortsAreReported(cfg, start, log[..n], error);
        var e :| e in log[..n] && FailedWith(e, error);
        InLonger(log, e);
      }
    }
  }

  // ----- as configured -----

  /** Timeouts and validations happen as configured, and the status tells when the agent waits for a
      lock, for which file, and that it works when it has got it. */
  lemma StepIsConfigured(cfg: Config, s: State, e: Event)
    requires Next(cfg, s, e).Some?
    ensures e.TimedOut? ==> cfg.hasTimeout
    ensures e.Validated? ==> (e.v.Disabled? <==> !cfg.validates)
    ensures e.LockRequested? ==> Next(cfg, s, e).value.status == WaitingForLock(e.lock.path)
    ensures e.LockGranted? || e.Executed? ==> Next(cfg, s, e).value.status == Working
  {
    hide NextAnswer, NextVerdict, NextTool, NextExit;
    if Answering(s) {
      AnswerIsConfigured(cfg, s, e);
    } else if Judging(s) {
      VerdictIsConfigured(cfg, s, e);
    } else if CurrentUses(s) != [] {
      ToolIsConfigured(cfg, s, e);
    } else {
      ExitIsConfigured(s, e);
    }
  }

  predicate IsToolStep(e: Event) {
    e.LockRequested? || e.LockGranted? || e.Executed?
  }

  lemma AnswerIsConfigured(cfg: Config, s: State, e: Event)
    requires Answering(s) && NextAnswer(cfg, s, e).Some?
    ensures !IsToolStep(e) && !e.Validated? && (e.TimedOut? ==> cfg.hasTimeout)
  {
  }

  lemma VerdictIsConfigured(cfg: Config, s: State, e: Event)
    requires Judging(s) && NextVerdict(cfg, s, e).Some?
    ensures !IsToolStep(e) && !e.TimedOut? && (e.Validated? ==> (e.v.Disabled? <==> !cfg.validates))
  {
  }

  lemma ToolIsConfigured(cfg: Config, s: State, e: Event)
    requires CurrentUses(s) != [] && NextTool(cfg, s, CurrentUses(s), e).Some?
    ensures !e.TimedOut? && !e.Validated?
    ensures var t := NextTool(cfg, s, CurrentUses(s), e).value;
            && (e.LockRequested? ==> t.status == WaitingForLock(e.lock.path))
            && (e.LockGranted? || e.Executed? ==> t.status == Working)
  {
  }

  lemma ExitIsConfigured(s: State, e: Event)
    requires NextExit(s, e).Some?
    ensures !IsToolStep(e) && !e.TimedOut? && !e.Validated?
  {
  }

  // ----- how often, how much -----

  /** Tokens of a last answer that was not reported: it broke the agent's own limit, or the report
      is the next thing to do. */
  ghost function Unreported(cfg: Config, s: State): nat {
    if s.phase.Recording? || (cfg.maxTotalTokens.Some? && s.tokens > cfg.maxTotalTokens.value) then s.lastCall else 0
  }

  ghost predicate Measured(cfg: Config, f: Facts, s: State) {
    && s.tokens == f.tokens && s.iterations == f.iterations && s.largestCall == f.largest
    && s.lastCall == (if f.answer.Some? then f.answer.value.tokens else 0)
    && f.recorded == (if cfg.hasSession then f.tokens - Unreported(cfg, s) else 0)
    && (s.phase.Recording? ==> cfg.hasSession && s.phase.response.tokens == s.lastCall)
    && (cfg.maxTotalTokens.Some? && s.tokens > cfg.maxTotalTokens.value ==> Stopping(s))
    && (Answering(s) && !s.phase.Deciding? && !s.phase.Calling? ==>
          s.iterations == 0 || s.iterations < cfg.maxIterations)
    && (s.phase.Deciding? ==> 0 < s.iterations && (s.iterations == 1 || s.iterations <= cfg.maxIterations))
    && ((!Answering(s) && !Stopping(s)) || s.phase.Calling? ==> s.iterations < cfg.maxIterations)
    && (f.atLimit ==> Stopping(s) && s.iterations == if cfg.maxIterations == 0 then 1 else cfg.maxIterations)
  }

  lemma AnswerMeasured(cfg: Config, f: Facts, s: State, e: Event)
    requires Measured(cfg, f, s) && Answering(s) && NextAnswer(cfg, s, e).Some?
    ensures Measured(cfg, Learn(f, e), NextAnswer(cfg, s, e).value)
  {
    if e.Called? {
      hide Measured, AfterCall;
      CallMeasured(cfg, f, s, e.response);
    }
  }

  lemma CallMeasured(cfg: Config, f: Facts, s: State, r: ChatResponse)
    requires Measured(cfg, f, s) && Answering(s)
    requires s.phase.Calling? || (s.phase.Deciding? && s.iterations < cfg.maxIterations)
    ensures Measured(cfg, Learn(f, Called(r)), AfterCall(cfg, s, r))
  {
    hide Completes;
  }

  lemma VerdictMeasured(cfg: Config, f: Facts, s: State, e: Event)
    requires Measured(cfg, f, s) && Judging(s) && NextVerdict(cfg, s, e).Some?
    ensures Measured(cfg, Learn(f, e), NextVerdict(cfg, s, e).value)
  {
  }

  lemma ToolMeasured(cfg: Config, f: Facts, s: State, e: Event)
    requires Measured(cfg, f, s) && CurrentUses(s) != [] && NextTool(cfg, s, CurrentUses(s), e).Some?
    ensures Measured(cfg, Learn(f, e), NextTool(cfg, s, CurrentUses(s), e).value)
  {
    ToolTeachesNothing(cfg, f, s, e);
    hide Learn;
  }

  lemma ExitMeasured(cfg: Config, f: Facts, s: State, e: Event)
    requires Measured(cfg, f, s) && NextExit(s, e).Some?
    ensures Measured(cfg, Learn(f, e), NextExit(s, e).value)
  {
    ExitTeachesDeletion(f, s, e);
    hide Learn;
  }

  lemma ExitTeachesDeletion(f: Facts, s: State, e: Event)
    requires NextExit(s, e).Some?
    ensures Learn(f, e) == f.(deleted := f.deleted || e.CheckpointDeleted?)
  {
  }

  lemma NextMeasured(cfg: Config, f: Facts, s: State, e: Event)
    requires Measured(cfg, f, s) && Next(cfg, s, e).Some?
    ensures Measured(cfg, Learn(f, e), Next(cfg, s, e).value)
  {
    hide NextAnswer, NextVerdict, NextTool, NextExit, Measured, Learn;
    if Answering(s) {
      AnswerMeasured(cfg, f, s, e);
    } else if Judging(s) {
      VerdictMeasured(cfg, f, s, e);
    } else if CurrentUses(s) != [] {
      ToolMeasured(cfg, f, s, e);
    } else {
      ExitMeasured(cfg, f, s, e);
    }
  }

  /** With a session every answer's tokens are reported, except those of an answer that broke the
      agent's own limit, and a run that hits the iteration limit started exactly as many iterations
      as it allows, one if it allows none. */
  lemma {:induction false} RunsAreMeasured(cfg: Config, history: seq<Message>, n: nat, log: seq<Event>)
    requires After(cfg, Initial(history, n), log).Some?
    ensures Measured(cfg, FactsOf(log), After(cfg, Initial(history, n), log).value)
  {
    hide Next, Learn;
    if log == [] {
    } else {
      hide Measured;
      var k := |log| - 1;
      RunsAreMeasured(cfg, history, n, log[..k]);
      NextMeasured(cfg, FactsOf(log[..k]), After(cfg, Initial(history, n), log[..k]).value, log[k]);
    }
  }

  lemma AnswerCountsBoth(cfg: Config, s: State, e: Event)
    requires Answering(s) && NextAnswer(cfg, s, e).Some?
    ensures var t := NextAnswer(cfg, s, e).value; t.taskIterations - s.taskIterations == t.iterations - s.iterations
  {
  }

  lemma NextCountsBoth(cfg: Config, s: State, e: Event)
    requires Next(cfg, s, e).Some?
    ensures var t := Next(cfg, s, e).value; t.taskIterations - s.taskIterations == t.iterations - s.iterations
  {
    hide NextAnswer, NextVerdict, NextTool, NextExit;
    if Answering(s) {
      AnswerCountsBoth(cfg, s, e);
    }
  }

  /** The task's own count goes along with that of the run. */
  lemma {:induction false} TaskCountsIterations(cfg: Config, history: seq<Message>, n: nat, log: seq<Event>)
    requires After(cfg, Initial(history, n), log).Some?
    ensures var s := After(cfg, Initial(history, n), log).value; s.taskIterations == n + s.iterations
  {
    hide Next;
    if log == [] {
    } else {
      var k := |log| - 1;
      TaskCountsIterations(cfg, history, n, log[..k]);
      NextCountsBoth(cfg, After(cfg, Initial(history, n), log[..k]).value, log[k]);
    }
  }

  // ----- marks, skips and the checkpoint -----

  /** A call is marked right after it ended without error, and always then if there is a store. */
  lemma MarksFollowSuccess(cfg: Config, start: State, log: seq<Event>, i: nat)
    requires start.phase.Starting? && After(cfg, start, log).Some? && i + 1 < |log|
    ensures log[i + 1].Marked? <==>
            log[i].Executed? && !log[i].result.isError && At(cfg, start, log, i).hasStore
  {
    hide Next;
    MemoryAt(cfg, start, log, i);
    MemoryAt(cfg, start, log, i + 1);
  }

  lemma MemoryAt(cfg: Config, start: State, log: seq<Event>, i: nat)
    requires start.phase.Starting? && After(cfg, start, log).Some? && i < |log|
    ensures Coherent(cfg, At(cfg, start, log, i))
    ensures CrashResume.MemoryStep(At(cfg, start, log, i), log[i], At(cfg, start, log, i + 1))
  {
    hide Next;
    PrefixIsRun(cfg, start, log, i);
    StepAt(cfg, start, log, i);
    RunsAreCoherent(cfg, start, log[..i]);
    CrashResume.NextMemory(cfg, At(cfg, start, log, i), log[i]);
  }

  /** The ids found in the checkpoint and those marked since. */
  ghost function Known(cfg: Config, start: State, log: seq<Event>): set<string> {
    if log == [] then {}
    else
      var n := |log| - 1;
      var s := After(cfg, start, log[..n]);
      match log[n]
      case Loaded(Found(ids)) => ids
      case Marked(ok) =>
        Known(cfg, start, log[..n])
        + if ok && s.Some? && CurrentUses(s.value) != [] then {CurrentUses(s.value)[0].id} else {}
      case _ => Known(cfg, start, log[..n])
  }

  lemma {:induction false} MemoryIsKnown(cfg: Config, start: State, log: seq<Event>)
    requires start.phase.Starting? && start.memory == {} && After(cfg, start, log).Some?
    ensures var s := After(cfg, start, log).value;
            s.memory == Known(cfg, start, log) && (s.phase.Starting? || s.phase.Loading? ==> s.memory == {})
  {
    hide Next;
    if log == [] {
    } else {
      var n := |log| - 1;
      MemoryIsKnown(cfg, start, log[..n]);
      RunsAreCoherent(cfg, start, log[..n]);
      CrashResume.NextMemory(cfg, After(cfg, start, log[..n]).value, log[n]);
    }
  }

  /** A call is skipped exactly if its id was found in the checkpoint or marked since. */
  lemma SkipsAreKnown(cfg: Config, start: State, log: seq<Event>, i: nat)
    requires start.phase.Starting? && start.memory == {} && After(cfg, start, log).Some? && i < |log|
    requires At(cfg, start, log, i).phase.Tools?
    ensures var uses := At(cfg, start, log, i).phase.uses;
            && uses != []
            && (log[i].Skipped? <==> uses[0].id in Known(cfg, start, log[..i]))
            && (log[i].Skipped? ==> log[i].id == uses[0].id)
  {
    hide NextAnswer, NextVerdict, NextExit;
    PrefixIsRun(cfg, start, log, i);
    StepAt(cfg, start, log, i);
    MemoryIsKnown(cfg, start, log[..i]);
    RunsAreCoherent(cfg, start, log[..i]);
  }

  ghost predicate DeletedInTime(f: Facts, phase: Phase, hasStore: bool) {
    match phase
    case Returning(Finished(ending, _)) => f.deleted <==> ending.Success? && hasStore
    case Over(Finished(ending, _)) => f.deleted <==> ending.Success? && hasStore
    case DeleteCheckpoint(ending) => !f.deleted && ending.Success? && hasStore
    case _ => !f.deleted
  }

  lemma ExitDeletes(f: Facts, s: State, e: Event)
    requires DeletedInTime(f, s.phase, s.hasStore) && NextExit(s, e).Some?
    ensures DeletedInTime(Learn(f, e), NextExit(s, e).value.phase, NextExit(s, e).value.hasStore)
  {
  }

  /** Neither deletes the checkpoint nor finishes the run. */
  ghost predicate KeepsGoing(f: Facts, e: Event, phase: Phase) {
    && Learn(f, e).deleted == f.deleted && !phase.DeleteCheckpoint?
    && !(phase.Returning? && phase.outcome.Finished?) && !(phase.Over? && phase.outcome.Finished?)
  }

  lemma AnswerKeepsGoing(cfg: Config, f: Facts, s: State, e: Event)
    requires Answering(s) && NextAnswer(cfg, s, e).Some?
    ensures KeepsGoing(f, e, NextAnswer(cfg, s, e).value.phase)
  {
    if e.Called? {
      hide AfterCall;
      CallKeepsGoing(cfg, f, s, e.response);
    }
  }

  lemma CallKeepsGoing(cfg: Config, f: Facts, s: State, r: ChatResponse)
    ensures KeepsGoing(f, Called(r), AfterCall(cfg, s, r).phase)
  {
  }

  lemma VerdictKeepsGoing(cfg: Config, f: Facts, s: State, e: Event)
    requires Judging(s) && NextVerdict(cfg, s, e).Some?
    ensures KeepsGoing(f, e, NextVerdict(cfg, s, e).value.phase)
  {
  }

  lemma ToolKeepsGoing(cfg: Config, f: Facts, s: State, e: Event)
    requires CurrentUses(s) != [] && NextTool(cfg, s, CurrentUses(s), e).Some?
    ensures KeepsGoing(f, e, NextTool(cfg, s, CurrentUses(s), e).value.phase)
  {
    ToolTeachesNothing(cfg, f, s, e);
    hide Learn;
  }

  lemma NextDeletes(cfg: Config, f: Facts, s: State, e: Event)
    requires DeletedInTime(f, s.phase, s.hasStore) && Next(cfg, s, e).Some?
    ensures DeletedInTime(Learn(f, e), Next(cfg, s, e).value.phase, Next(cfg, s, e).value.hasStore)
  {
    hide Learn, NextAnswer, NextVerdict, NextTool, NextExit;
    if Answering(s) {
      AnswerKeepsGoing(cfg, f, s, e);
    } else if Judging(s) {
      VerdictKeepsGoing(cfg, f, s, e);
    } else if CurrentUses(s) != [] {
      ToolKeepsGoing(cfg, f, s, e);
    } else {
      ExitDeletes(f, s, e);
    }
  }

  /** The checkpoint is deleted by successful runs that have a store, and by no others. */
  lemma {:induction false} OnlySuccessDeletes(cfg: Config, start: State, log: seq<Event>)
    requires start.phase.Starting? && After(cfg, start, log).Some?
    ensures var s := After(cfg, start, log).value; DeletedInTime(FactsOf(log), s.phase, s.hasStore)
  {
    hide Next, Learn;
    if log == [] {
    } else {
      hide DeletedInTime;
      var n := |log| - 1;
      OnlySuccessDeletes(cfg, start, log[..n]);
      NextDeletes(cfg, FactsOf(log[..n]), After(cfg, start, log[..n]).value, log[n]);
    }
  }
}
