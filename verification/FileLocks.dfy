/** Any number of task agents on one read/write lock table (apps/cli/src/agents/task_agent.rs,
    `execute` and `get_lock_requirement`).

    The lock manager grants a lock only when it is compatible with the locks held; it may also
    refuse at any time.  Each step of an agent is atomic, steps of different agents interleave
    freely, and an agent may be killed at any point, which drops its lock. */
module FileLocks {
  import opened Wrappers
  import opened Chat
  import opened AgentProtocol

  datatype Step = Act(i: nat, e: Event) | Kill(i: nat)

  predicate Conflict(a: Lock, b: Lock) {
    a.path == b.path && (a.kind.Write? || b.kind.Write?)
  }

  /** Agent i wants a lock that conflicts with the one agent j holds. */
  predicate BlockedBy(agents: seq<State>, i: nat, j: nat)
    requires i < |agents| && j < |agents|
  {
    Wanted(agents[i]).Some? && Held(agents[j]).Some? && Conflict(Wanted(agents[i]).value, Held(agents[j]).value)
  }

  ghost predicate Grantable(agents: seq<State>, i: nat)
    requires i < |agents|
  {
    forall j :: 0 <= j < |agents| ==> !BlockedBy(agents, i, j)
  }

  ghost predicate Enabled(cfgs: seq<Config>, agents: seq<State>, step: Step)
    requires |cfgs| == |agents|
  {
    match step
    case Act(i, e) =>
      i < |agents| && Next(cfgs[i], agents[i], e).Some? && (e.LockGranted? ==> Grantable(agents, i))
    case Kill(i) => i < |agents|
  }

  ghost function Apply(cfgs: seq<Config>, agents: seq<State>, step: Step): (after: seq<State>)
    requires |cfgs| == |agents| && Enabled(cfgs, agents, step)
    ensures |after| == |agents|
  {
    match step
    case Act(i, e) => agents[i := Next(cfgs[i], agents[i], e).value]
    case Kill(i) => agents[i := agents[i].(phase := Over(Aborted("killed")))]
  }

  ghost predicate AllStarting(agents: seq<State>) {
    forall i :: 0 <= i < |agents| ==> agents[i].phase.Starting?
  }

  ghost predicate IsRun(cfgs: seq<Config>, run: seq<seq<State>>, steps: seq<Step>) {
    && |run| == |steps| + 1
    && (forall i :: 0 <= i < |run| ==> |run[i]| == |cfgs|)
    && AllStarting(run[0])
    && forall i :: 0 <= i < |steps| ==> Enabled(cfgs, run[i], steps[i]) && run[i + 1] == Apply(cfgs, run[i], steps[i])
  }

  // ----- one agent and its lock -----

  /** A lock is gained only by a grant of the one wanted, and kept or dropped otherwise. */
  lemma LockStep(cfg: Config, s: State, e: Event)
    requires Next(cfg, s, e).Some?
    ensures var t := Next(cfg, s, e).value;
            if e.LockGranted? then Wanted(s).Some? && Held(t) == Wanted(s) else Held(t).None? || Held(t) == Held(s)
  {
    if CurrentUses(s) != [] {
      hide NextAnswer, NextVerdict, NextExit;
    } else {
      NoToolNoLock(cfg, s, e);
      hide Next;
    }
  }

  predicate IsToolEvent(e: Event) {
    e.LockGranted? || e.LockReleased? || e.Executed? || e.ExecutionFailed?
  }

  lemma AnswerNoTool(cfg: Config, s: State, e: Event)
    requires Answering(s) && NextAnswer(cfg, s, e).Some?
    ensures !IsToolEvent(e) && Held(NextAnswer(cfg, s, e).value).None?
  {
  }

  lemma VerdictNoTool(cfg: Config, s: State, e: Event)
    requires Judging(s) && NextVerdict(cfg, s, e).Some?
    ensures !IsToolEvent(e) && Held(NextVerdict(cfg, s, e).value).None?
  {
  }

  lemma ExitNoTool(s: State, e: Event)
    requires NextExit(s, e).Some?
    ensures !IsToolEvent(e) && Held(NextExit(s, e).value).None?
  {
  }

  /** Without a tool call in hand there is no lock and nothing runs. */
  lemma NoToolNoLock(cfg: Config, s: State, e: Event)
    requires Next(cfg, s, e).Some? && CurrentUses(s) == []
    ensures !IsToolEvent(e) && Held(Next(cfg, s, e).value).None?
  {
    hide NextAnswer, NextVerdict, NextTool, NextExit;
    if Answering(s) {
      AnswerNoTool(cfg, s, e);
    } else if Judging(s) {
      VerdictNoTool(cfg, s, e);
    } else {
      ExitNoTool(s, e);
    }
  }

  /** A tool runs exactly while the agent holds the lock that the table names for it, and no lock
      if the table names none. */
  lemma ToolsRunUnderTheirLock(cfg: Config, s: State, e: Event)
    requires Coherent(cfg, s) && Next(cfg, s, e).Some? && (e.Executed? || e.ExecutionFailed?)
    ensures CurrentUses(s) != [] && Held(s) == cfg.lockFor(CurrentUses(s)[0])
  {
    if CurrentUses(s) == [] {
      NoToolNoLock(cfg, s, e);
    }
    hide NextAnswer, NextVerdict, NextExit;
  }

  // ----- exclusion -----

  ghost predicate Exclusive(agents: seq<State>) {
    forall i, j :: 0 <= i < |agents| && 0 <= j < |agents| && i != j ==> Compatible(agents[i], agents[j])
  }

  predicate Compatible(a: State, b: State) {
    Held(a).Some? && Held(b).Some? ==> !Conflict(Held(a).value, Held(b).value)
  }

  lemma StepKeepsExclusive(cfgs: seq<Config>, agents: seq<State>, step: Step)
    requires |cfgs| == |agents| && Exclusive(agents) && Enabled(cfgs, agents, step)
    ensures Exclusive(Apply(cfgs, agents, step))
  {
    hide Next;
    if step.Act? {
      LockStep(cfgs[step.i], agents[step.i], step.e);
      if step.e.LockGranted? {
        var i, t := step.i, Next(cfgs[step.i], agents[step.i], step.e).value;
        forall j | 0 <= j < |agents| ensures Compatible(t, agents[j]) && Compatible(agents[j], t) {
          assert !BlockedBy(agents, i, j);
        }
      }
    }
  }

  ghost predicate AllCoherent(cfgs: seq<Config>, agents: seq<State>)
    requires |cfgs| == |agents|
  {
    forall i :: 0 <= i < |agents| ==> Coherent(cfgs[i], agents[i])
  }

  lemma StepKeepsCoherent(cfgs: seq<Config>, agents: seq<State>, step: Step)
    requires |cfgs| == |agents| && AllCoherent(cfgs, agents) && Enabled(cfgs, agents, step)
    ensures AllCoherent(cfgs, Apply(cfgs, agents, step))
  {
    hide Next;
    if step.Act? {
      NextKeepsCoherent(cfgs[step.i], agents[step.i], step.e);
    }
  }

  /** In every interleaving no file has a writer beside another holder. */
  lemma {:induction false} WritersAlone(cfgs: seq<Config>, run: seq<seq<State>>, steps: seq<Step>, n: nat)
    requires IsRun(cfgs, run, steps) && n < |run|
    ensures Exclusive(run[n]) && AllCoherent(cfgs, run[n])
  {
    hide Next;
    if n == 0 {
    } else {
      WritersAlone(cfgs, run, steps, n - 1);
      StepKeepsExclusive(cfgs, run[n - 1], steps[n - 1]);
      StepKeepsCoherent(cfgs, run[n - 1], steps[n - 1]);
    }
  }

  /** In every interleaving, while a tool runs, its agent holds the lock that the table names for
      it and nobody holds a conflicting one. */
  lemma ToolsRunProtected(cfgs: seq<Config>, run: seq<seq<State>>, steps: seq<Step>, n: nat)
    requires IsRun(cfgs, run, steps) && n < |steps|
    requires steps[n].Act? && (steps[n].e.Executed? || steps[n].e.ExecutionFailed?)
    ensures var i := steps[n].i;
            && i < |cfgs| && CurrentUses(run[n][i]) != []
            && var required := cfgs[i].lockFor(CurrentUses(run[n][i])[0]);
            && Held(run[n][i]) == required
            && forall j :: 0 <= j < |cfgs| && j != i && required.Some? && Held(run[n][j]).Some? ==>
                 !Conflict(required.value, Held(run[n][j]).value)
  {
    hide Next;
    var i := steps[n].i;
    WritersAlone(cfgs, run, steps, n);
    ToolsRunUnderTheirLock(cfgs[i], run[n][i], steps[n].e);
    assert forall j :: 0 <= j < |cfgs| && j != i ==> Compatible(run[n][i], run[n][j]);
  }

  const WRITERS := {"write_file", "edit_file", "patch_file", "delete_file", "create_directory"}
  const READERS := {"read_file", "list_directory", "search_code"}

  ghost predicate HoldsOn(s: State, path: string) {
    Held(s).Some? && Held(s).value.path == path
  }

  /** A call names a file by its argument `path`, or by `file_path` when there is no `path`. */
  ghost predicate Names(use: ToolUse, path: string) {
    || use.input.path == Some(Text(path))
    || (use.input.path == None && use.input.filePath == Some(Text(path)))
  }

  /** With the lock table of this repository: while a listed writer runs on a path nobody else holds
      any lock on it, while a listed reader does nobody holds it for writing, and every other tool,
      `append_to_file` among them, and every call that names no file, runs without a lock. */
  lemma ListedToolsAreIsolated(cfgs: seq<Config>, run: seq<seq<State>>, steps: seq<Step>, n: nat)
    requires IsRun(cfgs, run, steps) && n < |steps|
    requires forall i, use :: 0 <= i < |cfgs| ==> cfgs[i].lockFor(use) == LockRequirement(use)
    requires steps[n].Act? && (steps[n].e.Executed? || steps[n].e.ExecutionFailed?)
    ensures var i := steps[n].i;
            && i < |cfgs| && CurrentUses(run[n][i]) != []
            && var use := CurrentUses(run[n][i])[0];
            && (forall path :: Names(use, path) && use.name in WRITERS ==>
                  && Held(run[n][i]) == Some(Lock(path, Write))
                  && forall j :: 0 <= j < |cfgs| && j != i ==> !HoldsOn(run[n][j], path))
            && (forall path :: Names(use, path) && use.name in READERS ==>
                  && Held(run[n][i]) == Some(Lock(path, Read))
                  && forall j :: 0 <= j < |cfgs| ==> Held(run[n][j]) != Some(Lock(path, Write)))
            && (use.name !in WRITERS + READERS || (forall path :: !Names(use, path)) ==> Held(run[n][i]).None?)
  {
    hide Next, LockRequirement;
    ToolsRunProtected(cfgs, run, steps, n);
    var i := steps[n].i;
    var use := CurrentUses(run[n][i])[0];
    assert Held(run[n][i]) == LockRequirement(use);
    TableIsListed(use);
  }

  lemma TableIsListed(use: ToolUse)
    ensures forall path :: Names(use, path) && use.name in WRITERS ==> LockRequirement(use) == Some(Lock(path, Write))
    ensures forall path :: Names(use, path) && use.name in READERS ==> LockRequirement(use) == Some(Lock(path, Read))
    ensures use.name !in WRITERS + READERS || (forall path :: !Names(use, path)) ==> LockRequirement(use).None?
  {
    if PathOf(use.input).Some? {
      assert Names(use, PathOf(use.input).value);
    }
  }

  /** Readers of one file do not keep each other waiting. */
  lemma ReadersShare(agents: seq<State>, i: nat, path: string)
    requires i < |agents| && Wanted(agents[i]) == Some(Lock(path, Read))
    requires forall j :: 0 <= j < |agents| && HoldsOn(agents[j], path) ==> Held(agents[j]) == Some(Lock(path, Read))
    ensures Grantable(agents, i)
  {
  }

  // ----- one lock at a time -----

  predicate IsGrant(e: Event) {
    e.LockGranted?
  }

  predicate IsRelease(e: Event) {
    e.LockReleased?
  }

  lemma LockBalance(cfg: Config, s: State, e: Event)
    requires Next(cfg, s, e).Some?
    ensures var t := Next(cfg, s, e).value;
            (if Held(t).Some? then 1 else 0) ==
            (if Held(s).Some? then 1 else 0) + (if e.LockGranted? then 1 else 0) - (if e.LockReleased? then 1 else 0)
  {
    if CurrentUses(s) == [] {
      NoToolNoLock(cfg, s, e);
      hide Next;
    } else {
      ToolLockBalance(cfg, s, e);
      hide NextTool;
    }
  }

  lemma ToolLockBalance(cfg: Config, s: State, e: Event)
    requires CurrentUses(s) != [] && NextTool(cfg, s, CurrentUses(s), e).Some?
    ensures var t := NextTool(cfg, s, CurrentUses(s), e).value;
            (if Held(t).Some? then 1 else 0) ==
            (if Held(s).Some? then 1 else 0) + (if e.LockGranted? then 1 else 0) - (if e.LockReleased? then 1 else 0)
  {
  }

  /** An agent holds at most one lock, none while it waits for one, and gives back each it got. */
  lemma {:induction false} OneLockAtATime(cfg: Config, start: State, log: seq<Event>)
    requires start.phase.Starting? && After(cfg, start, log).Some?
    ensures var s := After(cfg, start, log).value;
            && Count(log, IsGrant) - Count(log, IsRelease) == (if Held(s).Some? then 1 else 0)
            && (Wanted(s).Some? || s.phase.Over? ==> Count(log, IsGrant) == Count(log, IsRelease))
  {
    hide Next;
    if log == [] {
    } else {
      OneLockAtATime(cfg, start, log[..|log| - 1]);
      LockBalance(cfg, After(cfg, start, log[..|log| - 1]).value, log[|log| - 1]);
    }
  }

  // ----- no deadlock -----

  /** Who blocks others is not blocked itself: waiting never chains, let alone in a circle. */
  lemma NoChains(agents: seq<State>, i: nat, j: nat, k: nat)
    requires i < |agents| && j < |agents| && k < |agents|
    requires BlockedBy(agents, i, j)
    ensures !BlockedBy(agents, j, k)
  {
  }

  function SomeResult(): ToolResult {
    ToolResult("", "", false)
  }

  /** An agent that is neither over nor waiting can always step, whatever the others do. */
  lemma CanStep(cfg: Config, s: State) returns (e: Event)
    requires Coherent(cfg, s) && !s.phase.Over? && !s.phase.Waiting?
    ensures Next(cfg, s, e).Some? && !e.LockGranted? && !e.LockDenied?
  {
    match s.phase {
      case Starting => e := Registered(true);
      case Loading => e := Loaded(NotFound);
      case LoopTop => e := IterationStarted;
      case Deciding => e := if s.iterations >= cfg.maxIterations then LimitReached else CallFailed("");
      case Calling => e := CallFailed("");
      case Recording(r) => e := Recorded(r.tokens);
      case Checking(r) => e := Checked(false);
      case Validating(text) => e := Validated(if cfg.validates then Passed else Disabled);
      case Tools(uses) =>
        e := if uses[0].id in s.memory then Skipped(uses[0].id)
             else if cfg.lockFor(uses[0]).Some? then LockRequested(cfg.lockFor(uses[0]).value)
             else Executed(SomeResult());
      case Running(uses, lock) => e := Executed(SomeResult());
      case Marking(uses, lock) => e := Marked(false);
      case Unlocking(uses, lock, abort) => e := LockReleased;
      case EndTask(ending) => e := TaskEnded(ending);
      case SendResult(ending) => e := ResultSent(ending.Success?);
      case Unregister(ending) => e := Unregistered;
      case ReleaseAll(ending) => e := AllLocksReleased;
      case DeleteCheckpoint(ending) => e := CheckpointDeleted(true);
      case Returning(outcome) => e := Returned(outcome);
    }
  }

  /** In every reachable state with an agent that is not done, some agent can step without a lock
      being refused: a waiting agent gets its lock, or the one that holds it can go on. */
  lemma NoDeadlock(cfgs: seq<Config>, run: seq<seq<State>>, steps: seq<Step>, n: nat, i: nat) returns (step: Step)
    requires IsRun(cfgs, run, steps) && n < |run| && i < |cfgs| && !run[n][i].phase.Over?
    ensures step.Act? && !step.e.LockDenied? && Enabled(cfgs, run[n], step)
  {
    hide Next;
    WritersAlone(cfgs, run, steps, n);
    var agents := run[n];
    if !agents[i].phase.Waiting? {
      var e := CanStep(cfgs[i], agents[i]);
      step := Act(i, e);
    } else if Grantable(agents, i) {
      GrantIsAllowed(cfgs[i], agents[i]);
      step := Act(i, LockGranted);
    } else {
      var j :| 0 <= j < |agents| && BlockedBy(agents, i, j);
      var e := CanStep(cfgs[j], agents[j]);
      step := Act(j, e);
    }
  }

  lemma GrantIsAllowed(cfg: Config, s: State)
    requires Coherent(cfg, s) && s.phase.Waiting?
    ensures Next(cfg, s, LockGranted).Some?
  {
  }
}
