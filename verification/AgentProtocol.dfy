/** What one task agent does, step by step (apps/cli/src/agents/task_agent.rs, `execute`).

    `Next` says which interaction with the outside an agent may have after the ones it had; the
    class in TaskAgent.dfy is proved to follow it, and the theorems about crashes, budgets and
    locks are proved about everything that follows it. */
module AgentProtocol {
  import opened Wrappers
  import opened Chat

  datatype LockKind = Read | Write
  datatype Lock = Lock(path: string, kind: LockKind)

  /** `lockFor` is the lock table, `LockRequirement` for the agents of this repository. */
  datatype Config = Config(
    description: string,
    maxIterations: nat,
    hasTimeout: bool,
    maxTotalTokens: Option<nat>,
    hasSession: bool,
    validates: bool,
    lockFor: ToolUse -> Option<Lock>)

  datatype Reason = Timeout | IterationLimit | TokenBudget | SessionBudget

  datatype Ending = Success(text: string) | Failure(reason: Reason)

  datatype Outcome = Finished(ending: Ending, iterations: nat) | Aborted(error: string)

  datatype Load = Found(ids: set<string>) | NotFound | LoadFailed | NoStore

  datatype Validation = Disabled | Passed | Rejected(feedback: string) | Broken

  datatype TaskState = Pending | InProgress | TaskCompleted(text: string) | TaskFailed(reason: Reason)

  datatype Status = Idle | Working | WaitingForLock(path: string) | Completed(text: string) | Failed(reason: Reason)

  datatype Event =
    | Registered(ok: bool)
    | Loaded(load: Load)
    | IterationStarted
    | TimedOut
    | LimitReached
    | HelpReceived(text: string)
    | Called(response: ChatResponse)
    | CallFailed(error: string)
    | Recorded(tokens: nat)
    | Checked(pass: bool)
    | Validated(v: Validation)
    | Skipped(id: string)
    | LockRequested(lock: Lock)
    | LockGranted
    | LockDenied(error: string)
    | Executed(result: ToolResult)
    | ExecutionFailed(error: string)
    | Marked(ok: bool)
    | LockReleased
    | TaskEnded(ending: Ending)
    | ResultSent(success: bool)
    | Unregistered
    | AllLocksReleased
    | CheckpointDeleted(ok: bool)
    | Returned(outcome: Outcome)

  /** Where the agent is.  `uses` are the tool calls of the current answer that remain; the first
      is the one being handled.  `lock` is the file lock held meanwhile, if any. */
  datatype Phase =
    | Starting
    | Loading
    | LoopTop
    | Deciding
    | Calling
    | Recording(response: ChatResponse)
    | Checking(response: ChatResponse)
    | Validating(text: string)
    | Tools(uses: seq<ToolUse>)
    | Waiting(uses: seq<ToolUse>, wanted: Lock)
    | Running(uses: seq<ToolUse>, held: Lock)
    | Marking(uses: seq<ToolUse>, lock: Option<Lock>)
    | Unlocking(uses: seq<ToolUse>, held: Lock, abort: Option<string>)
    | EndTask(ending: Ending)
    | SendResult(ending: Ending)
    | Unregister(ending: Ending)
    | ReleaseAll(ending: Ending)
    | DeleteCheckpoint(ending: Ending)
    | Returning(outcome: Outcome)
    | Over(outcome: Outcome)

  /** `memory`: the completed tool calls known to this run; `taskIterations`: the task's own count;
      `lastCall` and `largestCall`: tokens of the latest and of the most expensive provider call. */
  datatype State = State(
    phase: Phase,
    iterations: nat,
    taskIterations: nat,
    calls: nat,
    tokens: nat,
    lastCall: nat,
    largestCall: nat,
    hasStore: bool,
    memory: set<string>,
    history: seq<Message>,
    task: TaskState,
    status: Status,
    registered: bool,
    results: seq<bool>)

  function Initial(history: seq<Message>, taskIterations: nat): State {
    State(Starting, 0, taskIterations, 0, 0, 0, 0, false, {}, history, Pending, Idle, false, [])
  }

  // ----- the lock table -----

  /** `path` wins over `file_path`, even when it is not a string. */
  function PathOf(input: Input): Option<string> {
    var argument := if input.path.Some? then input.path else input.filePath;
    match argument
    case Some(Text(value)) => Some(value)
    case _ => None
  }

  function LockRequirement(use: ToolUse): Option<Lock> {
    match PathOf(use.input)
    case None => None
    case Some(path) =>
      if use.name in {"read_file", "list_directory", "search_code"} then Some(Lock(path, Read))
      else if use.name in {"write_file", "edit_file", "patch_file", "delete_file", "create_directory"}
      then Some(Lock(path, Write))
      else None
  }

  // ----- transitions -----

  function AfterTool(uses: seq<ToolUse>): Phase
    requires uses != []
  {
    if |uses| == 1 then LoopTop else Tools(uses[1..])
  }

  /** An answer that passed the budgets ends the turn or starts its tools. */
  function AfterBudget(s: State, r: ChatResponse): State {
    if Completes(r) then s.(phase := Validating(FinalText(r)))
    else s.(phase := Tools(ToolUses(r.message)), history := s.history + [r.message])
  }

  function AfterCall(cfg: Config, s: State, r: ChatResponse): State {
    var t := s.(calls := s.calls + 1, tokens := s.tokens + r.tokens, lastCall := r.tokens,
                largestCall := if r.tokens > s.largestCall then r.tokens else s.largestCall);
    if cfg.maxTotalTokens.Some? && t.tokens > cfg.maxTotalTokens.value then t.(phase := EndTask(Failure(TokenBudget)))
    else if cfg.hasSession then t.(phase := Recording(r))
    else AfterBudget(t, r)
  }

  /** The tool returned; a call without error is to be marked complete when there is a store. */
  function AfterExecution(s: State, uses: seq<ToolUse>, lock: Option<Lock>, r: ToolResult): State
    requires uses != []
  {
    var t := s.(history := s.history + [ResultMessage(r)], status := Working);
    if !r.isError && s.hasStore then t.(phase := Marking(uses, lock)) else Unlock(t, uses, lock)
  }

  function Unlock(s: State, uses: seq<ToolUse>, lock: Option<Lock>): State
    requires uses != []
  {
    s.(phase := if lock.Some? then Unlocking(uses, lock.value, None) else AfterTool(uses))
  }

  function Decide(cfg: Config, s: State, e: Event): Option<State> {
    match e
    case Called(r) => Some(AfterCall(cfg, s, r))
    case CallFailed(error) => Some(s.(phase := Returning(Aborted(error)), calls := s.calls + 1))
    case _ => None
  }

  function HandleTool(cfg: Config, s: State, uses: seq<ToolUse>, e: Event): Option<State>
    requires uses != []
  {
    var use := uses[0];
    if use.id in s.memory then
      if e == Skipped(use.id) then Some(s.(phase := AfterTool(uses))) else None
    else match cfg.lockFor(use)
      case Some(lock) =>
        if e == LockRequested(lock)
        then Some(s.(phase := Waiting(uses, lock), status := WaitingForLock(lock.path))) else None
      case None =>
        match e
        case Executed(r) => Some(AfterExecution(s, uses, None, r))
        case ExecutionFailed(error) => Some(s.(phase := Returning(Aborted(error)), status := Working))
        case _ => None
  }

  function DeniedResult(use: ToolUse, error: string): ToolResult {
    ToolResult(use.id, "Could not acquire file lock: " + error, true)
  }

  /** Up to an answer from the provider. */
  function NextAnswer(cfg: Config, s: State, e: Event): Option<State> {
    match s.phase
    case Starting =>
      (match e
       case Registered(ok) =>
         if ok then Some(s.(phase := Loading, registered := true, task := InProgress, status := Working,
                            history := s.history + [UserText(cfg.description)]))
         else Some(s.(phase := Returning(Aborted("registration failed"))))
       case _ => None)
    case Loading =>
      (match e
       case Loaded(load) =>
         Some(s.(phase := LoopTop, hasStore := !load.NoStore?, memory := if load.Found? then load.ids else {}))
       case _ => None)
    case LoopTop =>
      if e == IterationStarted
      then Some(s.(phase := Deciding, iterations := s.iterations + 1, taskIterations := s.taskIterations + 1)) else None
    case Deciding =>
      if e == TimedOut then
        if cfg.hasTimeout then Some(s.(phase := EndTask(Failure(Timeout)))) else None
      else if s.iterations >= cfg.maxIterations then
        if e == LimitReached then Some(s.(phase := EndTask(Failure(IterationLimit)))) else None
      else if e.HelpReceived? then Some(s.(phase := Calling, history := s.history + [UserText(e.text)]))
      else Decide(cfg, s, e)
    case Calling => Decide(cfg, s, e)
    case _ => None
  }

  /** What becomes of an answer. */
  function NextVerdict(cfg: Config, s: State, e: Event): (r: Option<State>)
    ensures r.Some? ==> r.value == s.(phase := r.value.phase, history := r.value.history)
    ensures r.Some? && Answering(r.value) ==> r.value.phase.LoopTop?
  {
    match s.phase
    case Recording(r) => if e == Recorded(r.tokens) then Some(s.(phase := Checking(r))) else None
    case Checking(r) =>
      (match e
       case Checked(pass) => Some(if pass then AfterBudget(s, r) else s.(phase := EndTask(Failure(SessionBudget))))
       case _ => None)
    case Validating(text) =>
      (match e
       case Validated(v) =>
         if v.Disabled? == cfg.validates then None
         else if v.Rejected? then Some(s.(phase := LoopTop, history := s.history + [UserText(v.feedback)]))
         else Some(s.(phase := EndTask(Success(text))))
       case _ => None)
    case _ => None
  }

  /** Handling the tool calls of an answer, one after the other. */
  function NextTool(cfg: Config, s: State, uses: seq<ToolUse>, e: Event): (r: Option<State>)
    requires uses != []
    ensures r.Some? ==> r.value == s.(phase := r.value.phase, history := r.value.history,
                                      memory := r.value.memory, status := r.value.status)
    ensures r.Some? && Answering(r.value) ==> r.value.phase.LoopTop?
  {
    match s.phase
    case Tools(_) => HandleTool(cfg, s, uses, e)
    case Waiting(_, lock) =>
      (match e
       case LockGranted => Some(s.(phase := Running(uses, lock), status := Working))
       case LockDenied(error) =>
         Some(s.(phase := AfterTool(uses), history := s.history + [ResultMessage(DeniedResult(uses[0], error))]))
       case _ => None)
    case Running(_, lock) =>
      (match e
       case Executed(r) => Some(AfterExecution(s, uses, Some(lock), r))
       case ExecutionFailed(error) => Some(s.(phase := Unlocking(uses, lock, Some(error))))
       case _ => None)
    case Marking(_, lock) =>
      (match e
       case Marked(ok) => Some(Unlock(if ok then s.(memory := s.memory + {uses[0].id}) else s, uses, lock))
       case _ => None)
    case Unlocking(_, lock, abort) =>
      if e == LockReleased
      then Some(s.(phase := if abort.Some? then Returning(Aborted(abort.value)) else AfterTool(uses))) else None
    case _ => None
  }

  /** The way out, shared by all endings. */
  function NextExit(s: State, e: Event): (r: Option<State>)
    ensures r.Some? ==> r.value == s.(phase := r.value.phase, task := r.value.task, status := r.value.status,
                                      results := r.value.results, registered := r.value.registered)
    ensures r.Some? ==> Stopping(s) && Stopping(r.value)
  {
    match s.phase
    case EndTask(ending) =>
      if e != TaskEnded(ending) then None
      else (match ending
            case Success(text) =>
              Some(s.(phase := SendResult(ending), task := TaskCompleted(text), status := Completed(text)))
            case Failure(reason) =>
              Some(s.(phase := SendResult(ending), task := TaskFailed(reason), status := Failed(reason))))
    case SendResult(ending) =>
      if e == ResultSent(ending.Success?)
      then Some(s.(phase := Unregister(ending), results := s.results + [ending.Success?])) else None
    case Unregister(ending) =>
      if e == Unregistered then Some(s.(phase := ReleaseAll(ending), registered := false)) else None
    case ReleaseAll(ending) =>
      if e != AllLocksReleased then None
      else if ending.Success? && s.hasStore then Some(s.(phase := DeleteCheckpoint(ending)))
      else Some(s.(phase := Returning(Done(s, ending))))
    case DeleteCheckpoint(ending) =>
      (match e
       case CheckpointDeleted(_) => Some(s.(phase := Returning(Done(s, ending))))
       case _ => None)
    case Returning(outcome) => if e == Returned(outcome) then Some(s.(phase := Over(outcome))) else None
    case _ => None
  }

  function CurrentUses(s: State): seq<ToolUse> {
    match s.phase
    case Tools(uses) => uses
    case Waiting(uses, _) => uses
    case Running(uses, _) => uses
    case Marking(uses, _) => uses
    case Unlocking(uses, _, _) => uses
    case _ => []
  }

  predicate Answering(s: State) {
    s.phase.Starting? || s.phase.Loading? || s.phase.LoopTop? || s.phase.Deciding? || s.phase.Calling?
  }

  predicate Judging(s: State) {
    s.phase.Recording? || s.phase.Checking? || s.phase.Validating?
  }

  function Next(cfg: Config, s: State, e: Event): Option<State> {
    if Answering(s) then NextAnswer(cfg, s, e)
    else if Judging(s) then NextVerdict(cfg, s, e)
    else if CurrentUses(s) != [] then NextTool(cfg, s, CurrentUses(s), e)
    else NextExit(s, e)
  }

  /** A success reports the task's own iteration count, a failure that of this run. */
  function Done(s: State, ending: Ending): Outcome {
    Finished(ending, if ending.Success? then s.taskIterations else s.iterations)
  }

  /** The state after the events of `log`, or `None` if some event was not allowed. */
  ghost function After(cfg: Config, start: State, log: seq<Event>): Option<State> {
    if log == [] then Some(start)
    else match After(cfg, start, log[..|log| - 1])
      case None => None
      case Some(s) => Next(cfg, s, log[|log| - 1])
  }

  // ----- facts about single runs -----

  ghost function Count(log: seq<Event>, wanted: Event -> bool): nat {
    if log == [] then 0 else Count(log[..|log| - 1], wanted) + if wanted(log[|log| - 1]) then 1 else 0
  }

  /** The file lock held by the agent. */
  function Held(s: State): Option<Lock> {
    match s.phase
    case Running(_, lock) => Some(lock)
    case Marking(_, lock) => lock
    case Unlocking(_, lock, _) => Some(lock)
    case _ => None
  }

  function Wanted(s: State): Option<Lock> {
    if s.phase.Waiting? then Some(s.phase.wanted) else None
  }

  /** The remaining tool calls are never empty, and a held or wanted lock is the one the current
      call requires. */
  ghost predicate Coherent(cfg: Config, s: State) {
    match s.phase
    case Tools(uses) => uses != []
    case Waiting(uses, lock) => uses != [] && cfg.lockFor(uses[0]) == Some(lock) && uses[0].id !in s.memory
    case Running(uses, lock) => uses != [] && cfg.lockFor(uses[0]) == Some(lock) && uses[0].id !in s.memory
    case Marking(uses, lock) => uses != [] && cfg.lockFor(uses[0]) == lock && uses[0].id !in s.memory && s.hasStore
    case Unlocking(uses, lock, _) => uses != [] && cfg.lockFor(uses[0]) == Some(lock)
    case _ => true
  }

  lemma ToolKeepsCoherent(cfg: Config, s: State, e: Event)
    requires Coherent(cfg, s) && CurrentUses(s) != [] && NextTool(cfg, s, CurrentUses(s), e).Some?
    ensures Coherent(cfg, NextTool(cfg, s, CurrentUses(s), e).value)
  {
    match s.phase {
      case Tools(uses) =>
      case Waiting(uses, lock) =>
      case Running(uses, lock) =>
      case Marking(uses, lock) =>
      case Unlocking(uses, lock, abort) =>
      case _ =>
    }
  }

  lemma AnswerKeepsCoherent(cfg: Config, s: State, e: Event)
    requires Answering(s) && NextAnswer(cfg, s, e).Some?
    ensures Coherent(cfg, NextAnswer(cfg, s, e).value)
  {
  }

  lemma VerdictKeepsCoherent(cfg: Config, s: State, e: Event)
    requires Judging(s) && NextVerdict(cfg, s, e).Some?
    ensures Coherent(cfg, NextVerdict(cfg, s, e).value)
  {
  }

  lemma NextKeepsCoherent(cfg: Config, s: State, e: Event)
    requires Coherent(cfg, s) && Next(cfg, s, e).Some?
    ensures Coherent(cfg, Next(cfg, s, e).value)
  {
    hide NextAnswer, NextVerdict, NextTool, NextExit;
    if Answering(s) {
      AnswerKeepsCoherent(cfg, s, e);
    } else if Judging(s) {
      VerdictKeepsCoherent(cfg, s, e);
    } else if CurrentUses(s) != [] {
      ToolKeepsCoherent(cfg, s, e);
    }
  }

  lemma {:induction false} RunsAreCoherent(cfg: Config, start: State, log: seq<Event>)
    requires start.phase.Starting? && After(cfg, start, log).Some?
    ensures Coherent(cfg, After(cfg, start, log).value)
  {
    if log == [] {
    } else {
      RunsAreCoherent(cfg, start, log[..|log| - 1]);
      NextKeepsCoherent(cfg, After(cfg, start, log[..|log| - 1]).value, log[|log| - 1]);
    }
  }

  // ----- the conversation -----

  lemma AnswerKeepsHistory(cfg: Config, s: State, e: Event)
    requires Answering(s) && NextAnswer(cfg, s, e).Some?
    ensures s.history <= NextAnswer(cfg, s, e).value.history
  {
  }

  lemma VerdictKeepsHistory(cfg: Config, s: State, e: Event)
    requires Judging(s) && NextVerdict(cfg, s, e).Some?
    ensures s.history <= NextVerdict(cfg, s, e).value.history
  {
  }

  lemma ToolKeepsHistory(cfg: Config, s: State, e: Event)
    requires CurrentUses(s) != [] && NextTool(cfg, s, CurrentUses(s), e).Some?
    ensures s.history <= NextTool(cfg, s, CurrentUses(s), e).value.history
  {
  }

  lemma NextKeepsHistory(cfg: Config, s: State, e: Event)
    requires Next(cfg, s, e).Some?
    ensures s.history <= Next(cfg, s, e).value.history
  {
    hide NextAnswer, NextVerdict, NextTool;
    if Answering(s) {
      AnswerKeepsHistory(cfg, s, e);
    } else if Judging(s) {
      VerdictKeepsHistory(cfg, s, e);
    } else if CurrentUses(s) != [] {
      ToolKeepsHistory(cfg, s, e);
    }
  }

  /** The conversation only grows, and continues the one found with the description of the task. */
  lemma {:induction false} HistoryOnlyGrows(cfg: Config, history: seq<Message>, n: nat, log: seq<Event>)
    requires After(cfg, Initial(history, n), log).Some? && log != [] && log[0] == Registered(true)
    ensures history + [UserText(cfg.description)] <= After(cfg, Initial(history, n), log).value.history
  {
    hide NextVerdict, NextTool, NextExit;
    var before := log[..|log| - 1];
    if before != [] {
      hide Next;
      HistoryOnlyGrows(cfg, history, n, before);
      NextKeepsHistory(cfg, After(cfg, Initial(history, n), before).value, log[|log| - 1]);
    } else {
      assert After(cfg, Initial(history, n), before) == Some(Initial(history, n));
    }
  }

  // ----- provider calls and tokens -----

  ghost predicate CallsCounted(cfg: Config, s: State) {
    && s.calls <= s.iterations
    && (s.phase.Deciding? || s.phase.Calling? ==> s.calls < s.iterations)
    && (s.phase.Calling? ==> s.iterations < cfg.maxIterations)
    && (s.calls > 0 ==> s.calls < cfg.maxIterations)
  }

  ghost predicate WithinTokens(cfg: Config, s: State) {
    cfg.maxTotalTokens.Some? ==>
      && s.tokens <= cfg.maxTotalTokens.value + s.lastCall
      && (s.tokens > cfg.maxTotalTokens.value ==> Stopping(s))
  }

  /** Only the closing steps of a run are left. */
  predicate Stopping(s: State) {
    s.phase.EndTask? || s.phase.SendResult? || s.phase.Unregister? || s.phase.ReleaseAll? || s.phase.DeleteCheckpoint?
    || s.phase.Returning? || s.phase.Over?
  }

  ghost predicate Counted(cfg: Config, s: State) {
    CallsCounted(cfg, s) && WithinTokens(cfg, s)
  }

  predicate IsCall(e: Event) {
    e.Called? || e.CallFailed?
  }

  /** Counts stay within their limits from `s` to `t`, and only a provider call adds to them. */
  ghost predicate CountsStep(cfg: Config, s: State, e: Event, t: State) {
    && Counted(cfg, t)
    && t.calls == s.calls + (if IsCall(e) then 1 else 0)
    && t.tokens == s.tokens + (if e.Called? then e.response.tokens else 0)
  }

  lemma AfterCallCounts(cfg: Config, s: State, r: ChatResponse)
    requires Counted(cfg, s) && s.calls < s.iterations < cfg.maxIterations && !Stopping(s)
    ensures CountsStep(cfg, s, Called(r), AfterCall(cfg, s, r))
  {
  }

  lemma AnswerKeepsCounts(cfg: Config, s: State, e: Event)
    requires Counted(cfg, s) && Answering(s) && NextAnswer(cfg, s, e).Some?
    ensures CountsStep(cfg, s, e, NextAnswer(cfg, s, e).value)
  {
    hide AfterCall;
    if e.Called? {
      AfterCallCounts(cfg, s, e.response);
    }
  }

  lemma VerdictKeepsCounts(cfg: Config, s: State, e: Event)
    requires Counted(cfg, s) && Judging(s) && NextVerdict(cfg, s, e).Some?
    ensures CountsStep(cfg, s, e, NextVerdict(cfg, s, e).value)
  {
  }

  lemma ToolKeepsCounts(cfg: Config, s: State, e: Event)
    requires Counted(cfg, s) && CurrentUses(s) != [] && NextTool(cfg, s, CurrentUses(s), e).Some?
    ensures CountsStep(cfg, s, e, NextTool(cfg, s, CurrentUses(s), e).value)
  {
  }

  lemma ExitKeepsCounts(cfg: Config, s: State, e: Event)
    requires Counted(cfg, s) && NextExit(s, e).Some?
    ensures CountsStep(cfg, s, e, NextExit(s, e).value)
  {
  }

  lemma NextKeepsCounts(cfg: Config, s: State, e: Event)
    requires Counted(cfg, s) && Next(cfg, s, e).Some?
    ensures CountsStep(cfg, s, e, Next(cfg, s, e).value)
  {
    hide NextAnswer, NextVerdict, NextTool, NextExit, CountsStep;
    if Answering(s) {
      AnswerKeepsCounts(cfg, s, e);
    } else if Judging(s) {
      VerdictKeepsCounts(cfg, s, e);
    } else if CurrentUses(s) != [] {
      ToolKeepsCounts(cfg, s, e);
    } else {
      ExitKeepsCounts(cfg, s, e);
    }
  }

  /** At most `maxIterations - 1` provider calls are made, none at all for a limit of 0 or 1; an agent
      overshoots its token limit by at most its last call, and then only closes down. */
  lemma {:induction false} RunsWithinLimits(cfg: Config, history: seq<Message>, n: nat, log: seq<Event>)
    requires After(cfg, Initial(history, n), log).Some?
    ensures var s := After(cfg, Initial(history, n), log).value;
            && s.calls == Count(log, IsCall)
            && (if cfg.maxIterations == 0 then s.calls == 0 else s.calls <= cfg.maxIterations - 1)
            && Counted(cfg, s)
  {
    if log == [] {
    } else {
      var before := After(cfg, Initial(history, n), log[..|log| - 1]).value;
      RunsWithinLimits(cfg, history, n, log[..|log| - 1]);
      NextKeepsCounts(cfg, before, log[|log| - 1]);
    }
  }

  // ----- exits -----

  /** What task, status, results and registration look like on the way out. */
  ghost predicate Agrees(s: State) {
    match s.phase
    case SendResult(ending) => Settled(s, ending) && s.results == []
    case Unregister(ending) => Settled(s, ending) && s.results == [ending.Success?]
    case ReleaseAll(ending) => Settled(s, ending) && s.results == [ending.Success?] && !s.registered
    case DeleteCheckpoint(ending) => Settled(s, ending) && s.results == [ending.Success?] && !s.registered
    case Returning(outcome) => OutcomeAgrees(s, outcome)
    case Over(outcome) => OutcomeAgrees(s, outcome)
    case _ => s.results == [] && !s.task.TaskCompleted? && !s.task.TaskFailed?
  }

  ghost predicate Settled(s: State, ending: Ending) {
    match ending
    case Success(text) => s.task == TaskCompleted(text) && s.status == Completed(text)
    case Failure(reason) => s.task == TaskFailed(reason) && s.status == Failed(reason)
  }

  /** A run that finishes agrees with itself everywhere; an aborted one has not announced anything. */
  ghost predicate OutcomeAgrees(s: State, outcome: Outcome) {
    match outcome
    case Finished(ending, iterations) =>
      && Settled(s, ending) && s.results == [ending.Success?] && !s.registered
      && iterations == if ending.Success? then s.taskIterations else s.iterations
    case Aborted(_) => s.results == [] && !s.task.TaskCompleted? && !s.task.TaskFailed?
  }

  lemma AnswerKeepsAgreement(cfg: Config, s: State, e: Event)
    requires Agrees(s) && Answering(s) && NextAnswer(cfg, s, e).Some?
    ensures Agrees(NextAnswer(cfg, s, e).value)
  {
    hide AfterCall;
    if e.Called? {
      AfterCallAgrees(cfg, s, e.response);
    }
  }

  lemma AfterCallAgrees(cfg: Config, s: State, r: ChatResponse)
    requires Agrees(s) && Answering(s)
    ensures Agrees(AfterCall(cfg, s, r))
  {
  }

  lemma VerdictKeepsAgreement(cfg: Config, s: State, e: Event)
    requires Agrees(s) && Judging(s) && NextVerdict(cfg, s, e).Some?
    ensures Agrees(NextVerdict(cfg, s, e).value)
  {
  }

  lemma ToolKeepsAgreement(cfg: Config, s: State, e: Event)
    requires Agrees(s) && CurrentUses(s) != [] && NextTool(cfg, s, CurrentUses(s), e).Some?
    ensures Agrees(NextTool(cfg, s, CurrentUses(s), e).value)
  {
  }

  lemma ExitKeepsAgreement(s: State, e: Event)
    requires Agrees(s) && NextExit(s, e).Some?
    ensures Agrees(NextExit(s, e).value)
  {
  }

  lemma NextKeepsAgreement(cfg: Config, s: State, e: Event)
    requires Agrees(s) && Next(cfg, s, e).Some?
    ensures Agrees(Next(cfg, s, e).value)
  {
    hide NextAnswer, NextVerdict, NextTool, NextExit;
    if Answering(s) {
      AnswerKeepsAgreement(cfg, s, e);
    } else if Judging(s) {
      VerdictKeepsAgreement(cfg, s, e);
    } else if CurrentUses(s) != [] {
      ToolKeepsAgreement(cfg, s, e);
    } else {
      ExitKeepsAgreement(s, e);
    }
  }

  /** Every way out: task, status, result flag and the single broadcast result say the same, the
      agent is unregistered and holds no lock. */
  lemma {:induction false} ExitsAgree(cfg: Config, history: seq<Message>, n: nat, log: seq<Event>)
    requires After(cfg, Initial(history, n), log).Some?
    ensures Agrees(After(cfg, Initial(history, n), log).value)
    ensures var s := After(cfg, Initial(history, n), log).value;
            s.phase.Over? ==> OutcomeAgrees(s, s.phase.outcome) && Held(s).None?
  {
    if log == [] {
    } else {
      ExitsAgree(cfg, history, n, log[..|log| - 1]);
      NextKeepsAgreement(cfg, After(cfg, Initial(history, n), log[..|log| - 1]).value, log[|log| - 1]);
    }
  }
}
