/** The task agent (apps/cli/src/agents/task_agent.rs): the run loop with its checkpoint, file
    locks, budgets and exits, as an object whose fields the run updates. */
module TaskAgent {
  import opened Wrappers
  import opened Chat
  import opened AgentProtocol

  /** How the outside answers.  Iterations are counted from 1; tool calls are told apart by the
      iteration and the number of calls that remain in it. */
  datatype Env = Env(
    registers: bool,
    load: Load,
    timedOut: nat -> bool,
    help: nat -> Option<string>,
    chat: (nat, seq<Message>) -> Result<ChatResponse, string>,
    withinSession: nat -> bool,
    validate: nat -> Validation,
    lockError: (nat, nat) -> Option<string>,
    execute: (nat, nat, ToolUse) -> Result<ToolResult, string>,
    mark: (nat, nat) -> bool,
    deletes: bool)

  /** The event reports what the outside really answered in state `s`. */
  ghost predicate Matches(cfg: Config, env: Env, s: State, e: Event) {
    match e
    case Registered(ok) => ok == env.registers
    case Loaded(load) => load == env.load
    case TimedOut => env.timedOut(s.iterations)
    case LimitReached => InTime(cfg, env, s)
    case HelpReceived(text) => InTime(cfg, env, s) && env.help(s.iterations) == Some(text)
    case Called(response) => MayCall(cfg, env, s) && env.chat(s.iterations, s.history) == Ok(response)
    case CallFailed(error) => MayCall(cfg, env, s) && env.chat(s.iterations, s.history) == Err(error)
    case Checked(pass) => pass == env.withinSession(s.iterations)
    case Validated(v) => v == if cfg.validates then Verdict(env.validate(s.iterations)) else Disabled
    case LockGranted => env.lockError(s.iterations, |CurrentUses(s)|) == None
    case LockDenied(error) => env.lockError(s.iterations, |CurrentUses(s)|) == Some(error)
    case Executed(result) =>
      CurrentUses(s) != [] && env.execute(s.iterations, |CurrentUses(s)|, CurrentUses(s)[0]) == Ok(result)
    case ExecutionFailed(error) =>
      CurrentUses(s) != [] && env.execute(s.iterations, |CurrentUses(s)|, CurrentUses(s)[0]) == Err(error)
    case Marked(ok) => ok == env.mark(s.iterations, |CurrentUses(s)|)
    case CheckpointDeleted(ok) => ok == env.deletes
    case _ => true
  }

  ghost predicate InTime(cfg: Config, env: Env, s: State) {
    s.phase.Deciding? && cfg.hasTimeout ==> !env.timedOut(s.iterations)
  }

  ghost predicate MayCall(cfg: Config, env: Env, s: State) {
    s.phase.Deciding? ==> InTime(cfg, env, s) && env.help(s.iterations).None?
  }

  /** A validation that runs passes, rejects or breaks. */
  function Verdict(v: Validation): Validation {
    if v.Disabled? then Passed else v
  }

  ghost predicate Follows(cfg: Config, env: Env, start: State, log: seq<Event>) {
    log == [] ||
    (Follows(cfg, env, start, log[..|log| - 1])
     && After(cfg, start, log[..|log| - 1]).Some?
     && Matches(cfg, env, After(cfg, start, log[..|log| - 1]).value, log[|log| - 1]))
  }

  lemma LogOneMore(cfg: Config, env: Env, start: State, log: seq<Event>, s: State, e: Event)
    requires After(cfg, start, log) == Some(s) && Follows(cfg, env, start, log)
    requires Next(cfg, s, e).Some? && Matches(cfg, env, s, e)
    ensures After(cfg, start, log + [e]) == Next(cfg, s, e) && Follows(cfg, env, start, log + [e])
  {
    hide Next, Matches;
    assert (log + [e])[..|log|] == log;
  }

  /** The steps on the way out need no answer from outside. */
  lemma ExitSteps(cfg: Config, env: Env, s: State, ending: Ending)
    ensures Matches(cfg, env, s, ResultSent(ending.Success?)) && Matches(cfg, env, s, Unregistered)
            && Matches(cfg, env, s, AllLocksReleased)
    ensures s.phase == SendResult(ending) ==>
              Next(cfg, s, ResultSent(ending.Success?)) ==
              Some(s.(phase := AgentProtocol.Unregister(ending), results := s.results + [ending.Success?]))
    ensures s.phase == AgentProtocol.Unregister(ending) ==>
              Next(cfg, s, Unregistered) == Some(s.(phase := AgentProtocol.ReleaseAll(ending), registered := false))
    ensures s.phase == AgentProtocol.ReleaseAll(ending) ==>
              Next(cfg, s, AllLocksReleased) ==
              Some(s.(phase := if ending.Success? && s.hasStore then DeleteCheckpoint(ending)
                               else Returning(Done(s, ending))))
  {
    hide NextAnswer, NextVerdict, NextTool;
  }

  /** The provider may be asked, and its answer leads where `AfterCall` says. */
  lemma CallSteps(cfg: Config, env: Env, s: State)
    requires s.iterations < cfg.maxIterations && (s.phase.Calling? || s.phase.Deciding?) && MayCall(cfg, env, s)
    ensures match env.chat(s.iterations, s.history)
            case Ok(response) =>
              && Matches(cfg, env, s, Called(response))
              && Next(cfg, s, Called(response)) == Some(AfterCall(cfg, s, response))
            case Err(error) =>
              && Matches(cfg, env, s, CallFailed(error))
              && Next(cfg, s, CallFailed(error)) == Some(s.(phase := Returning(Aborted(error)), calls := s.calls + 1))
  {
    hide AfterCall, NextVerdict, NextTool, NextExit;
  }

  lemma StartSteps(cfg: Config, env: Env, s: State)
    ensures Matches(cfg, env, s, Registered(env.registers)) && Matches(cfg, env, s, Loaded(env.load))
    ensures s.phase.Starting? ==>
              Next(cfg, s, Registered(env.registers)) ==
              Some(if env.registers
                   then s.(phase := Loading, registered := true, task := InProgress, status := Working,
                           history := s.history + [UserText(cfg.description)])
                   else s.(phase := Returning(Aborted("registration failed"))))
    ensures s.phase.Loading? ==>
              Next(cfg, s, Loaded(env.load)) ==
              Some(s.(phase := LoopTop, hasStore := !env.load.NoStore?,
                      memory := if env.load.Found? then env.load.ids else {}))
  {
    hide NextVerdict, NextTool, NextExit;
  }

  /** The top of the loop, down to the call of the provider. */
  lemma LoopSteps(cfg: Config, env: Env, s: State)
    ensures s.phase.LoopTop? ==>
              && Matches(cfg, env, s, IterationStarted)
              && Next(cfg, s, IterationStarted) ==
                 Some(s.(phase := Deciding, iterations := s.iterations + 1, taskIterations := s.taskIterations + 1))
    ensures s.phase.Deciding? && cfg.hasTimeout && env.timedOut(s.iterations) ==>
              Matches(cfg, env, s, TimedOut) && Next(cfg, s, TimedOut) == Some(s.(phase := EndTask(Failure(Timeout))))
    ensures s.phase.Deciding? && InTime(cfg, env, s) && s.iterations >= cfg.maxIterations ==>
              && Matches(cfg, env, s, LimitReached)
              && Next(cfg, s, LimitReached) == Some(s.(phase := EndTask(Failure(IterationLimit))))
    ensures s.phase.Deciding? && InTime(cfg, env, s) && s.iterations < cfg.maxIterations
            && env.help(s.iterations).Some? ==>
              var text := env.help(s.iterations).value;
              && Matches(cfg, env, s, HelpReceived(text))
              && Next(cfg, s, HelpReceived(text)) == Some(s.(phase := Calling, history := s.history + [UserText(text)]))
  {
    hide NextVerdict, NextTool, NextExit;
  }

  lemma EndStep(cfg: Config, env: Env, s: State, ending: Ending)
    requires s.phase == EndTask(ending)
    ensures Matches(cfg, env, s, TaskEnded(ending))
    ensures Next(cfg, s, TaskEnded(ending)) ==
            Some(match ending
                 case Success(text) =>
                   s.(phase := SendResult(ending), task := TaskCompleted(text), status := AgentProtocol.Completed(text))
                 case Failure(reason) =>
                   s.(phase := SendResult(ending), task := TaskFailed(reason), status := Failed(reason)))
  {
    hide NextAnswer, NextVerdict, NextTool;
  }

  lemma DeleteStep(cfg: Config, env: Env, s: State, ending: Ending)
    requires s.phase == DeleteCheckpoint(ending)
    ensures Matches(cfg, env, s, CheckpointDeleted(env.deletes))
    ensures Next(cfg, s, CheckpointDeleted(env.deletes)) == Some(s.(phase := Returning(Done(s, ending))))
  {
    hide NextAnswer, NextVerdict, NextTool;
  }

  lemma ReturnStep(cfg: Config, env: Env, s: State, outcome: Outcome)
    requires s.phase == Returning(outcome)
    ensures Matches(cfg, env, s, Returned(outcome))
    ensures Next(cfg, s, Returned(outcome)) == Some(s.(phase := Over(outcome)))
  {
    hide NextAnswer, NextVerdict, NextTool;
  }

  /** The first of the remaining calls is skipped, or asks for its lock, or runs without one. */
  lemma CallStep(cfg: Config, env: Env, s: State, uses: seq<ToolUse>)
    requires uses != [] && s.phase == Tools(uses)
    ensures var use := uses[0];
            if use.id in s.memory then
              && Matches(cfg, env, s, Skipped(use.id))
              && Next(cfg, s, Skipped(use.id)) == Some(s.(phase := AfterTool(uses)))
            else match cfg.lockFor(use)
              case Some(lock) =>
                && Matches(cfg, env, s, LockRequested(lock))
                && Next(cfg, s, LockRequested(lock)) ==
                   Some(s.(phase := Waiting(uses, lock), status := WaitingForLock(lock.path)))
              case None =>
                match env.execute(s.iterations, |uses|, use)
                case Ok(result) =>
                  && Matches(cfg, env, s, Executed(result))
                  && Next(cfg, s, Executed(result)) == Some(AfterExecution(s, uses, None, result))
                case Err(error) =>
                  && Matches(cfg, env, s, ExecutionFailed(error))
                  && Next(cfg, s, ExecutionFailed(error)) ==
                     Some(s.(phase := Returning(Aborted(error)), status := Working))
  {
    hide NextAnswer, NextVerdict, NextExit, AfterExecution;
  }

  lemma WaitStep(cfg: Config, env: Env, s: State, uses: seq<ToolUse>, lock: Lock)
    requires uses != [] && s.phase == Waiting(uses, lock)
    ensures match env.lockError(s.iterations, |uses|)
            case Some(error) =>
              && Matches(cfg, env, s, LockDenied(error))
              && Next(cfg, s, LockDenied(error)) ==
                 Some(s.(phase := AfterTool(uses),
                         history := s.history + [ResultMessage(DeniedResult(uses[0], error))]))
            case None =>
              && Matches(cfg, env, s, LockGranted)
              && Next(cfg, s, LockGranted) == Some(s.(phase := Running(uses, lock), status := Working))
  {
    hide NextAnswer, NextVerdict, NextExit;
  }

  lemma RunStep(cfg: Config, env: Env, s: State, uses: seq<ToolUse>, lock: Lock)
    requires uses != [] && s.phase == Running(uses, lock)
    ensures match env.execute(s.iterations, |uses|, uses[0])
            case Ok(result) =>
              && Matches(cfg, env, s, Executed(result))
              && Next(cfg, s, Executed(result)) == Some(AfterExecution(s, uses, Some(lock), result))
            case Err(error) =>
              && Matches(cfg, env, s, ExecutionFailed(error))
              && Next(cfg, s, ExecutionFailed(error)) == Some(s.(phase := Unlocking(uses, lock, Some(error))))
  {
    hide NextAnswer, NextVerdict, NextExit, AfterExecution;
  }

  lemma UnlockStep(cfg: Config, env: Env, s: State, uses: seq<ToolUse>, lock: Lock, abort: Option<string>)
    requires uses != [] && s.phase == Unlocking(uses, lock, abort)
    ensures Matches(cfg, env, s, LockReleased)
    ensures Next(cfg, s, LockReleased) ==
            Some(s.(phase := if abort.Some? then Returning(Aborted(abort.value)) else AfterTool(uses)))
  {
    hide NextAnswer, NextVerdict, NextExit;
  }

  // ----- what single steps send to the outside -----

  /** Running the first of the remaining calls, once the lock it requires is held. */
  function RunLog(env: Env, iteration: nat, hasStore: bool, uses: seq<ToolUse>, locked: bool): seq<Event>
    requires uses != []
  {
    var unlock := if locked then [LockReleased] else [];
    match env.execute(iteration, |uses|, uses[0])
    case Err(error) => [ExecutionFailed(error)] + unlock + [Returned(Aborted(error))]
    case Ok(result) =>
      [Executed(result)] + (if !result.isError && hasStore then [Marked(env.mark(iteration, |uses|))] else []) + unlock
  }

  /** Handling it from the start. */
  function CallLog(cfg: Config, env: Env, iteration: nat, hasStore: bool, completed: set<string>,
                   uses: seq<ToolUse>): seq<Event>
    requires uses != []
  {
    if uses[0].id in completed then [Skipped(uses[0].id)]
    else match cfg.lockFor(uses[0])
      case None => RunLog(env, iteration, hasStore, uses, false)
      case Some(lock) => [LockRequested(lock)] + LockLog(env, iteration, hasStore, uses)
  }

  function LockLog(env: Env, iteration: nat, hasStore: bool, uses: seq<ToolUse>): seq<Event>
    requires uses != []
  {
    match env.lockError(iteration, |uses|)
    case Some(error) => [LockDenied(error)]
    case None => [LockGranted] + RunLog(env, iteration, hasStore, uses, true)
  }

  /** Announcing how the run ended. */
  function ExitLog(ending: Ending): seq<Event> {
    [TaskEnded(ending), ResultSent(ending.Success?), Unregistered, AllLocksReleased]
  }

  function SuccessLog(env: Env, text: string, hasStore: bool, outcome: Outcome): seq<Event> {
    ExitLog(Success(text))
    + ((if hasStore then [CheckpointDeleted(env.deletes)] else []) + [Returned(outcome)])
  }

  class TaskAgent {
    const cfg: Config
    const env: Env
    ghost const start: State

    var task: TaskState
    var taskIterations: nat
    var status: Status
    var history: seq<Message>
    var registered: bool
    // The variables of one run.
    var iterations: nat
    var totalTokens: nat
    var completedIds: set<string>
    var hasStore: bool

    /** The interactions so far and the protocol state they lead to. */
    ghost var log: seq<Event>
    ghost var at: State

    constructor (cfg: Config, env: Env, history: seq<Message>, taskIterations: nat)
      ensures Valid() && log == [] && at == start == Initial(history, taskIterations)
      ensures this.cfg == cfg && this.env == env
    {
      this.cfg, this.env, this.history, this.taskIterations := cfg, env, history, taskIterations;
      task, status, registered := Pending, Idle, false;
      iterations, totalTokens, completedIds, hasStore := 0, 0, {}, false;
      start, at, log := Initial(history, taskIterations), Initial(history, taskIterations), [];
    }

    ghost predicate Tracks(s: State)
      reads this
    {
      && task == s.task && taskIterations == s.taskIterations && status == s.status && history == s.history
      && registered == s.registered && iterations == s.iterations && totalTokens == s.tokens
      && completedIds == s.memory && hasStore == s.hasStore
    }

    ghost predicate Valid()
      reads this
    {
      Logged() && Tracks(at)
    }

    ghost predicate Logged()
      reads this`log, this`at
    {
      After(cfg, start, log) == Some(at) && Follows(cfg, env, start, log)
    }

    /** Records one interaction, which must be allowed now and leave the fields as they are. */
    ghost method Emit(e: Event)
      requires Logged()
      requires Next(cfg, at, e).Some? && Matches(cfg, env, at, e)
      requires Tracks(Next(cfg, at, e).value)
      modifies this`log, this`at
      ensures Valid() && log == old(log) + [e] && Some(at) == Next(cfg, old(at), e)
    {
      hide Next, Matches, After, Follows;
      LogOneMore(cfg, env, start, log, at, e);
      at := Next(cfg, at, e).value;
      log := log + [e];
    }

    /** A whole run.  It follows the protocol to its end, and what it reports agrees with the task,
        the status, the registration and the one broadcast result. */
    method Execute() returns (outcome: Outcome)
      requires Valid() && log == [] && at == Initial(history, taskIterations)
      modifies this
      ensures Valid() && at.phase == Over(outcome)
      ensures OutcomeAgrees(at, outcome) && Held(at).None?
      ensures outcome.Finished? ==> !registered && (outcome.ending.Success? <==> task.TaskCompleted?)
      ensures outcome.Finished? && outcome.ending.Failure? ==>
                task == TaskFailed(outcome.ending.reason) && status == Failed(outcome.ending.reason)
      ensures outcome.Finished? && outcome.ending.Success? ==>
                task == TaskCompleted(outcome.ending.text) && status == Completed(outcome.ending.text)
      ensures env.registers ==> old(history) + [UserText(cfg.description)] <= history
      ensures Count(log, IsCall) <= (if cfg.maxIterations == 0 then 0 else cfg.maxIterations - 1)
    {
      outcome := Run();
      if env.registers {
        HistoryOnlyGrows(cfg, start.history, start.taskIterations, log);
      }
      ExitsAgree(cfg, start.history, start.taskIterations, log);
      RunsWithinLimits(cfg, start.history, start.taskIterations, log);
    }

    method Run() returns (outcome: Outcome)
      requires Valid() && at.phase.Starting?
      modifies this
      ensures Valid() && at.phase == Over(outcome)
      ensures old(log) + [Registered(env.registers)] <= log
    {
      hide Logged, Next, Matches;
      StartSteps(cfg, env, at);
      if !env.registers {
        outcome := Aborted("registration failed");
        Emit(Registered(false));
        var _ := Return(outcome);
        return;
      }
      Begin();
      LoadCheckpoint();
      while true
        invariant Valid() && at.phase.LoopTop?
        invariant old(log) + [Registered(env.registers)] <= log
        decreases cfg.maxIterations - iterations
      {
        var finished := Iterate();
        if finished.Some? {
          return finished.value;
        }
      }
    }

    /** The task starts with its description as a message of the user. */
    method Begin()
      requires Valid() && at.phase.Starting? && env.registers
      modifies this`registered, this`task, this`status, this`history, this`log, this`at
      ensures Valid() && at.phase.Loading? && log == old(log) + [Registered(true)]
      ensures history == old(history) + [UserText(cfg.description)]
    {
      hide Logged, Next, Matches;
      StartSteps(cfg, env, at);
      registered, task, status := true, InProgress, Working;
      history := history + [UserText(cfg.description)];
      Emit(Registered(true));
    }

    /** What an earlier run completed is known only if the checkpoint can be loaded. */
    method LoadCheckpoint()
      requires Valid() && at.phase.Loading?
      modifies this`hasStore, this`completedIds, this`log, this`at
      ensures Valid() && at.phase.LoopTop? && log == old(log) + [Loaded(env.load)]
      ensures completedIds == (if env.load.Found? then env.load.ids else {}) && hasStore == !env.load.NoStore?
    {
      hide Logged, Next, Matches;
      StartSteps(cfg, env, at);
      hasStore := !env.load.NoStore?;
      completedIds := if env.load.Found? then env.load.ids else {};
      Emit(Loaded(env.load));
    }

    /** One iteration of the loop; `Some` when the run is over. */
    method Iterate() returns (finished: Option<Outcome>)
      requires Valid() && at.phase.LoopTop?
      modifies this
      ensures Valid() && iterations == old(iterations) + 1 && old(log) + [IterationStarted] <= log
      ensures if finished.Some? then at.phase == Over(finished.value)
              else at.phase.LoopTop? && iterations < cfg.maxIterations
    {
      hide Logged, Next, Matches;
      LoopSteps(cfg, env, at);
      iterations, taskIterations := iterations + 1, taskIterations + 1;
      Emit(IterationStarted);
      finished := GoOn();
    }

    method GoOn() returns (finished: Option<Outcome>)
      requires Valid() && at.phase.Deciding?
      modifies this
      ensures Valid() && iterations == old(iterations) && old(log) <= log
      ensures if finished.Some? then at.phase == Over(finished.value)
              else at.phase.LoopTop? && iterations < cfg.maxIterations
    {
      hide Logged, Next, Matches;
      LoopSteps(cfg, env, at);
      if cfg.hasTimeout && env.timedOut(iterations) {
        Emit(TimedOut);
        finished := FailAgent(Timeout);
        return;
      }
      if iterations >= cfg.maxIterations {
        Emit(LimitReached);
        finished := FailAgent(IterationLimit);
        return;
      }
      ReceiveHelp();
      finished := CallProvider();
    }

    /** A waiting answer to a request for help joins the conversation. */
    method ReceiveHelp()
      requires Valid() && at.phase.Deciding? && InTime(cfg, env, at) && iterations < cfg.maxIterations
      modifies this`history, this`log, this`at
      ensures Valid() && (at.phase.Calling? || (at.phase.Deciding? && MayCall(cfg, env, at)))
      ensures var help := env.help(iterations);
              if help.None? then history == old(history) && log == old(log)
              else history == old(history) + [UserText(help.value)] && log == old(log) + [HelpReceived(help.value)]
    {
      hide Logged, Next, Matches;
      LoopSteps(cfg, env, at);
      var help := env.help(iterations);
      if help.Some? {
        history := history + [UserText(help.value)];
        Emit(HelpReceived(help.value));
      }
    }

    method CallProvider() returns (finished: Option<Outcome>)
      requires Valid() && iterations < cfg.maxIterations
      requires at.phase.Calling? || (at.phase.Deciding? && MayCall(cfg, env, at))
      modifies this
      ensures Valid() && iterations == old(iterations) && old(log) <= log
      ensures if finished.Some? then at.phase == Over(finished.value) else at.phase.LoopTop?
    {
      hide Logged, Next, Matches, AfterCall;
      CallSteps(cfg, env, at);
      var answer := env.chat(iterations, history);
      if answer.Err? {
        Emit(CallFailed(answer.error));
        finished := Return(Aborted(answer.error));
        return;
      }
      var withinLimit := CountTokens(answer.value);
      finished := JudgeAnswer(answer.value, withinLimit);
    }

    /** The agent's own token limit comes first. */
    method CountTokens(response: ChatResponse) returns (withinLimit: bool)
      requires Valid() && Matches(cfg, env, at, Called(response))
      requires Next(cfg, at, Called(response)) == Some(AfterCall(cfg, at, response))
      modifies this`totalTokens, this`history, this`log, this`at
      ensures Valid() && log == old(log) + [Called(response)] && totalTokens == old(totalTokens) + response.tokens
      ensures Answered(response, withinLimit)
      ensures withinLimit <==> cfg.maxTotalTokens.Some? ==> totalTokens <= cfg.maxTotalTokens.value
    {
      hide Logged, Next, Matches;
      totalTokens := totalTokens + response.tokens;
      withinLimit := !(cfg.maxTotalTokens.Some? && totalTokens > cfg.maxTotalTokens.value);
      if withinLimit && !cfg.hasSession && !Completes(response) {
        history := history + [response.message];
      }
      Emit(Called(response));
    }

    /** Where an answer leads before the session budget is asked. */
    ghost predicate Answered(response: ChatResponse, withinLimit: bool)
      reads this`at
    {
      if !withinLimit then at.phase == EndTask(Failure(TokenBudget))
      else if cfg.hasSession then at.phase == Recording(response)
      else at.phase == Judged(response)
    }

    function Judged(response: ChatResponse): Phase {
      if Completes(response) then Validating(FinalText(response)) else Tools(ToolUses(response.message))
    }

    method JudgeAnswer(response: ChatResponse, withinLimit: bool) returns (finished: Option<Outcome>)
      requires Valid() && Answered(response, withinLimit)
      modifies this
      ensures Valid() && iterations == old(iterations) && old(log) <= log
      ensures if finished.Some? then at.phase == Over(finished.value) else at.phase.LoopTop?
    {
      hide Logged, Next, Matches;
      if !withinLimit {
        finished := FailAgent(TokenBudget);
        return;
      }
      if cfg.hasSession {
        var pass := CheckSession(response);
        if !pass {
          finished := FailAgent(SessionBudget);
          return;
        }
      }
      if Chat.Finished(response) || ToolUses(response.message) == [] {
        finished := Complete(FinalText(response));
      } else {
        finished := RunTools(ToolUses(response.message));
      }
    }

    /** Records the tokens in the shared budget, then looks at its total. */
    method CheckSession(response: ChatResponse) returns (pass: bool)
      requires Valid() && at.phase == Recording(response)
      modifies this
      ensures Valid() && iterations == old(iterations) && old(log) <= log
      ensures at.phase == if pass then Judged(response) else EndTask(Failure(SessionBudget))
    {
      hide Logged, NextAnswer, NextTool, NextExit;
      Emit(Recorded(response.tokens));
      pass := env.withinSession(iterations);
      if pass && !Completes(response) {
        history := history + [response.message];
      }
      Emit(Checked(pass));
    }

    /** A completion is final only when validation does not reject it. */
    method Complete(text: string) returns (finished: Option<Outcome>)
      requires Valid() && at.phase == Validating(text)
      modifies this
      ensures Valid() && iterations == old(iterations)
      ensures finished.None? <==> cfg.validates && env.validate(iterations).Rejected?
      ensures if finished.Some? then at.phase == Over(finished.value) else at.phase.LoopTop?
      ensures finished.Some? ==>
                finished.value == Outcome.Finished(Success(text), old(taskIterations)) && history == old(history)
      ensures finished.None? ==> history == old(history) + [UserText(env.validate(iterations).feedback)]
      ensures var verdict := if cfg.validates then Verdict(env.validate(iterations)) else Disabled;
              log == old(log) + [Validated(verdict)]
                     + if finished.None? then [] else SuccessLog(env, text, old(hasStore), finished.value)
    {
      hide Logged, NextAnswer, NextTool, NextExit;
      var verdict := if cfg.validates then Verdict(env.validate(iterations)) else Disabled;
      if verdict.Rejected? {
        history := history + [UserText(verdict.feedback)];
        Emit(Validated(verdict));
        return None;
      }
      Emit(Validated(verdict));
      finished := Succeed(text);
    }

    method Succeed(text: string) returns (finished: Option<Outcome>)
      requires Valid() && at.phase == EndTask(Success(text))
      modifies this
      ensures Valid() && iterations == old(iterations) && history == old(history)
      ensures finished == Some(Outcome.Finished(Success(text), old(taskIterations))) && at.phase == Over(finished.value)
      ensures log == old(log) + SuccessLog(env, text, old(hasStore), finished.value)
    {
      hide Logged, Next, Matches;
      Conclude(Success(text));
      finished := DiscardCheckpoint(text);
    }

    /** Nothing is left to resume after a success. */
    method DiscardCheckpoint(text: string) returns (finished: Option<Outcome>)
      requires Valid()
      requires at.phase == if hasStore then DeleteCheckpoint(Success(text))
                           else Returning(Outcome.Finished(Success(text), taskIterations))
      modifies this`log, this`at
      ensures Valid() && finished == Some(Outcome.Finished(Success(text), taskIterations))
      ensures at.phase == Over(finished.value)
      ensures log == old(log) + ((if hasStore then [CheckpointDeleted(env.deletes)] else [])
                                 + [Returned(finished.value)])
    {
      hide Logged, Next, Matches;
      if hasStore {
        DeleteStep(cfg, env, at, Success(text));
        Emit(CheckpointDeleted(env.deletes));
      }
      finished := Return(Outcome.Finished(Success(text), taskIterations));
    }

    /** The shared way out of a run that fails for `reason`. */
    method FailAgent(reason: Reason) returns (finished: Option<Outcome>)
      requires Valid() && at.phase == EndTask(Failure(reason))
      modifies this
      ensures Valid() && iterations == old(iterations) && history == old(history)
      ensures finished == Some(Outcome.Finished(Failure(reason), iterations)) && at.phase == Over(finished.value)
      ensures log == old(log) + (ExitLog(Failure(reason)) + [Returned(finished.value)])
    {
      hide Logged, Next, Matches;
      Conclude(Failure(reason));
      finished := Return(Outcome.Finished(Failure(reason), iterations));
    }

    /** Settles task and status, then announces it. */
    method Conclude(ending: Ending)
      requires Valid() && at.phase == EndTask(ending)
      modifies this`task, this`status, this`registered, this`log, this`at
      ensures Valid() && log == old(log) + ExitLog(ending)
      ensures at.phase == if ending.Success? && hasStore then DeleteCheckpoint(ending)
                          else Returning(Outcome.Finished(ending,
                                                          if ending.Success? then taskIterations else iterations))
    {
      hide Logged, Next, Matches;
      EndStep(cfg, env, at, ending);
      match ending {
        case Success(text) => task, status := TaskCompleted(text), Completed(text);
        case Failure(reason) => task, status := TaskFailed(reason), Failed(reason);
      }
      Emit(TaskEnded(ending));
      Announce(ending);
    }

    /** Broadcasts the result, leaves the hub and gives up all locks. */
    method Announce(ending: Ending)
      requires Valid() && at.phase == SendResult(ending)
      modifies this`registered, this`log, this`at
      ensures Valid() && log == old(log) + ExitLog(ending)[1..]
      ensures at.phase == if ending.Success? && hasStore then DeleteCheckpoint(ending)
                          else Returning(Outcome.Finished(ending,
                                                          if ending.Success? then taskIterations else iterations))
    {
      hide Logged, Next, Matches;
      ExitSteps(cfg, env, at, ending);
      Emit(ResultSent(ending.Success?));
      registered := false;
      ExitSteps(cfg, env, at, ending);
      Emit(Unregistered);
      ExitSteps(cfg, env, at, ending);
      Emit(AllLocksReleased);
    }

    method Return(outcome: Outcome) returns (finished: Option<Outcome>)
      requires Valid() && at.phase == Returning(outcome)
      modifies this`log, this`at
      ensures Valid() && log == old(log) + [Returned(outcome)]
      ensures finished == Some(outcome) && at.phase == Over(outcome)
    {
      hide Logged, Next, Matches;
      ReturnStep(cfg, env, at, outcome);
      Emit(Returned(outcome));
      finished := Some(outcome);
    }

    method RunTools(uses: seq<ToolUse>) returns (finished: Option<Outcome>)
      requires Valid() && uses != [] && at.phase == Tools(uses)
      modifies this
      ensures Valid() && iterations == old(iterations) && old(log) <= log
      ensures if finished.Some? then at.phase == Over(finished.value) else at.phase.LoopTop?
    {
      hide Logged;
      for k := 0 to |uses|
        invariant Valid() && iterations == old(iterations) && old(log) <= log
        invariant at.phase == if k < |uses| then Tools(uses[k..]) else LoopTop
      {
        assert uses[k..][1..] == uses[k + 1..];
        finished := HandleCall(uses[k..]);
        if finished.Some? {
          return;
        }
      }
      finished := None;
    }

    /** The first of the remaining calls: skipped if an earlier run completed it, otherwise run
        under the lock it requires, if any. */
    method HandleCall(uses: seq<ToolUse>) returns (finished: Option<Outcome>)
      requires Valid() && uses != [] && at.phase == Tools(uses)
      modifies this
      ensures Valid() && iterations == old(iterations)
      ensures log == old(log) + CallLog(cfg, env, iterations, old(hasStore), old(completedIds), uses)
      ensures at.phase == if finished.Some? then Over(finished.value) else AfterTool(uses)
    {
      hide Logged, Next, Matches, RunLog, LockLog;
      CallStep(cfg, env, at, uses);
      var use := uses[0];
      if use.id in completedIds {
        Emit(Skipped(use.id));
        return None;
      }
      var lock := cfg.lockFor(use);
      if lock.None? {
        finished := RunUnlocked(uses);
        return;
      }
      status := WaitingForLock(lock.value.path);
      Emit(LockRequested(lock.value));
      finished := AcquireAndRun(uses, lock.value);
    }

    /** A refused lock is reported to the model as a failed tool call. */
    method AcquireAndRun(uses: seq<ToolUse>, lock: Lock) returns (finished: Option<Outcome>)
      requires Valid() && uses != [] && at.phase == Waiting(uses, lock)
      modifies this
      ensures Valid() && iterations == old(iterations)
      ensures log == old(log) + LockLog(env, iterations, old(hasStore), uses)
      ensures at.phase == if finished.Some? then Over(finished.value) else AfterTool(uses)
    {
      hide Logged, Next, Matches, RunLog;
      WaitStep(cfg, env, at, uses, lock);
      var refused := env.lockError(iterations, |uses|);
      if refused.Some? {
        history := history + [ResultMessage(DeniedResult(uses[0], refused.value))];
        Emit(LockDenied(refused.value));
        return None;
      }
      status := Working;
      Emit(LockGranted);
      finished := RunLocked(uses, lock);
    }

    method RunUnlocked(uses: seq<ToolUse>) returns (finished: Option<Outcome>)
      requires Valid() && uses != [] && at.phase == Tools(uses)
      requires uses[0].id !in completedIds && cfg.lockFor(uses[0]).None?
      modifies this
      ensures Valid() && iterations == old(iterations)
      ensures log == old(log) + RunLog(env, iterations, old(hasStore), uses, false)
      ensures at.phase == if finished.Some? then Over(finished.value) else AfterTool(uses)
    {
      hide Logged, Next, Matches, AfterExecution;
      CallStep(cfg, env, at, uses);
      status := Working;
      var result := env.execute(iterations, |uses|, uses[0]);
      if result.Err? {
        finished := AbortUnlocked(result.error);
        return;
      }
      RecordResult(uses, None, result.value);
      finished := None;
    }

    method AbortUnlocked(error: string) returns (finished: Option<Outcome>)
      requires Logged() && Tracks(at.(status := Working)) && Matches(cfg, env, at, ExecutionFailed(error))
      requires Next(cfg, at, ExecutionFailed(error)) == Some(at.(phase := Returning(Aborted(error)), status := Working))
      modifies this`log, this`at
      ensures Valid() && finished == Some(Aborted(error)) && at.phase == Over(Aborted(error))
      ensures log == old(log) + ([ExecutionFailed(error)] + [Returned(Aborted(error))])
    {
      hide Logged, Next, Matches;
      Emit(ExecutionFailed(error));
      finished := Return(Aborted(error));
    }

    method RunLocked(uses: seq<ToolUse>, lock: Lock) returns (finished: Option<Outcome>)
      requires Valid() && uses != [] && at.phase == Running(uses, lock) && status == Working
      modifies this
      ensures Valid() && iterations == old(iterations)
      ensures log == old(log) + RunLog(env, iterations, old(hasStore), uses, true)
      ensures at.phase == if finished.Some? then Over(finished.value) else AfterTool(uses)
    {
      hide Logged, Next, Matches, AfterExecution;
      RunStep(cfg, env, at, uses, lock);
      var result := env.execute(iterations, |uses|, uses[0]);
      if result.Err? {
        finished := AbortLocked(uses, lock, result.error);
        return;
      }
      RecordResult(uses, Some(lock), result.value);
      ReleaseLock(uses, lock, None);
      finished := None;
    }

    /** An error of the executor ends the run; the lock is dropped on the way out. */
    method AbortLocked(uses: seq<ToolUse>, lock: Lock, error: string) returns (finished: Option<Outcome>)
      requires Valid() && uses != [] && Matches(cfg, env, at, ExecutionFailed(error))
      requires Next(cfg, at, ExecutionFailed(error)) == Some(at.(phase := Unlocking(uses, lock, Some(error))))
      modifies this`log, this`at
      ensures Valid() && finished == Some(Aborted(error)) && at.phase == Over(Aborted(error))
      ensures log == old(log) + ([ExecutionFailed(error)] + [LockReleased] + [Returned(Aborted(error))])
    {
      hide Logged, Next, Matches;
      Emit(ExecutionFailed(error));
      ReleaseLock(uses, lock, Some(error));
      finished := Return(Aborted(error));
    }

    method ReleaseLock(uses: seq<ToolUse>, lock: Lock, abort: Option<string>)
      requires Valid() && uses != [] && at.phase == Unlocking(uses, lock, abort)
      modifies this`log, this`at
      ensures Valid() && log == old(log) + [LockReleased]
      ensures at.phase == if abort.Some? then Returning(Aborted(abort.value)) else AfterTool(uses)
    {
      hide Logged, Next, Matches;
      UnlockStep(cfg, env, at, uses, lock, abort);
      Emit(LockReleased);
    }

    /** The result joins the conversation, then the completion is persisted. */
    method RecordResult(uses: seq<ToolUse>, lock: Option<Lock>, result: ToolResult)
      requires Logged() && Tracks(at.(status := Working)) && uses != []
      requires Matches(cfg, env, at, Executed(result))
      requires Next(cfg, at, Executed(result)) == Some(AfterExecution(at, uses, lock, result))
      modifies this`history, this`completedIds, this`log, this`at
      ensures Valid() && history == old(history) + [ResultMessage(result)]
      ensures log == old(log) + ([Executed(result)]
                                 + if !result.isError && hasStore then [Marked(env.mark(iterations, |uses|))] else [])
      ensures at.phase == if lock.Some? then Unlocking(uses, lock.value, None) else AfterTool(uses)
    {
      hide Logged, Next, Matches;
      history := history + [ResultMessage(result)];
      Emit(Executed(result));
      MarkCompleted(uses, lock, result.isError);
    }

    /** Persists the completion of a call that did not fail; a failed write is not remembered. */
    method MarkCompleted(uses: seq<ToolUse>, lock: Option<Lock>, isError: bool)
      requires Valid() && uses != []
      requires at.phase == if !isError && hasStore then Marking(uses, lock)
                           else if lock.Some? then Unlocking(uses, lock.value, None) else AfterTool(uses)
      modifies this`completedIds, this`log, this`at
      ensures Valid()
      ensures log == old(log) + if !isError && hasStore then [Marked(env.mark(iterations, |uses|))] else []
      ensures at.phase == if lock.Some? then Unlocking(uses, lock.value, None) else AfterTool(uses)
    {
      hide Logged;
      if !isError && hasStore {
        var ok := env.mark(iterations, |uses|);
        if ok {
          completedIds := completedIds + {uses[0].id};
        }
        Emit(Marked(ok));
      }
    }
  }
}
