/** Crash and resume of one task (apps/cli/src/agents/task_agent.rs, the workflow checkpoint in
    `execute`): every run loads the checkpoint of its task, skips the tool calls that it lists, and
    adds each call that ends without error; validated success deletes it.

    A run may be cut at any point, in particular between executing a call and marking it.  The
    store may fail to load, to mark or to delete, and a failed write may still have happened. */
module CrashResume {
  import opened Wrappers
  import opened Chat
  import opened AgentProtocol

  /** `sideEffect`: whether a write that is reported as failed took place all the same. */
  datatype Step = Begin(history: seq<Message>) | Do(e: Event, sideEffect: bool) | Crash

  /** `durable`: the stored checkpoint; `agent`: the run under way.  For the tool call `x` that is
      watched, since the checkpoint was last deleted: `done` counts executions without error,
      `marked` those marked complete, `lost` those that will not be marked; `blind` counts runs that
      could not load the checkpoint, and `isBlind` says whether this run is one. */
  datatype World = World(
    durable: Option<set<string>>,
    agent: Option<State>,
    done: nat,
    marked: nat,
    lost: nat,
    blind: nat,
    isBlind: bool)

  const NEW: World := World(None, None, 0, 0, 0, 0, false)

  /** Loading reports what is stored, or fails. */
  ghost predicate Enabled(cfg: Config, w: World, step: Step) {
    match step
    case Begin(_) => w.agent.None? || w.agent.value.phase.Over?
    case Do(e, _) =>
      && w.agent.Some? && Next(cfg, w.agent.value, e).Some?
      && (e.Loaded? && e.load.Found? ==> w.durable == Some(e.load.ids))
      && (e == Loaded(NotFound) ==> w.durable == None)
    case Crash => w.agent.Some?
  }

  /** The current tool call is `x`. */
  predicate On(s: State, x: string) {
    CurrentUses(s) != [] && CurrentUses(s)[0].id == x
  }

  predicate MarkDue(s: State, x: string) {
    s.phase.Marking? && On(s, x)
  }

  function Stored(durable: Option<set<string>>, id: string): Option<set<string>> {
    Some((if durable.Some? then durable.value else {}) + {id})
  }

  /** What an event does to the store. */
  function StoreAfter(durable: Option<set<string>>, s: State, e: Event, sideEffect: bool): Option<set<string>> {
    match e
    case Marked(ok) =>
      if (ok || sideEffect) && CurrentUses(s) != [] then Stored(durable, CurrentUses(s)[0].id) else durable
    case CheckpointDeleted(ok) => if ok || sideEffect then None else durable
    case _ => durable
  }

  ghost function Apply(cfg: Config, x: string, w: World, step: Step): World
    requires Enabled(cfg, w, step)
  {
    match step
    case Begin(history) => w.(agent := Some(Initial(history, 0)), isBlind := false)
    case Crash => w.(agent := None, lost := w.lost + if MarkDue(w.agent.value, x) then 1 else 0)
    case Do(e, sideEffect) =>
      var s := w.agent.value;
      var v := w.(agent := Next(cfg, s, e), durable := StoreAfter(w.durable, s, e, sideEffect));
      if e.CheckpointDeleted? && (e.ok || sideEffect) then v.(done := 0, marked := 0, lost := 0, blind := 0)
      else if e.Executed? && !e.result.isError && On(s, x) then
        v.(done := w.done + 1, lost := w.lost + if s.hasStore then 0 else 1)
      else if e.Marked? && On(s, x) then
        if e.ok then v.(marked := w.marked + 1) else v.(lost := w.lost + 1)
      else if e == Loaded(LoadFailed) then v.(blind := w.blind + 1, isBlind := true)
      else v
  }

  ghost predicate IsRun(cfg: Config, x: string, run: seq<World>, steps: seq<Step>) {
    && |run| == |steps| + 1 && run[0] == NEW
    && forall i :: 0 <= i < |steps| ==> Enabled(cfg, run[i], steps[i]) && run[i + 1] == Apply(cfg, x, run[i], steps[i])
  }

  // ----- what one step does to a run's memory -----

  /** The run is between loading the checkpoint and deleting it. */
  predicate InProgress(s: State) {
    !s.phase.Starting? && !s.phase.Loading? && !s.phase.Returning? && !s.phase.Over?
  }

  /** How memory, store and the pending mark change in a step from `s` to `t`. */
  ghost predicate MemoryStep(s: State, e: Event, t: State) {
    && (e.Loaded? <==> s.phase.Loading?)
    && (e.Marked? <==> s.phase.Marking?)
    && (e.CheckpointDeleted? <==> s.phase.DeleteCheckpoint?)
    && (e.Executed? ==> CurrentUses(s) != [] && CurrentUses(s)[0].id !in s.memory)
    && (e.Executed? && !e.result.isError && s.hasStore <==> t.phase.Marking?)
    && (t.phase.Marking? ==> CurrentUses(t) == CurrentUses(s))
    && (e.CheckpointDeleted? ==> !InProgress(t))
    && (t.phase.Starting? || t.phase.Loading? ==> s.phase.Starting?)
    && (InProgress(t) ==> InProgress(s) || e.Loaded?)
    && (if e.Loaded? then t.memory == (if e.load.Found? then e.load.ids else {}) && t.hasStore == !e.load.NoStore?
        else if e.Marked? && e.ok then
          CurrentUses(s) != [] && t.memory == s.memory + {CurrentUses(s)[0].id} && t.hasStore == s.hasStore
        else t.memory == s.memory && t.hasStore == s.hasStore)
  }

  lemma AnswerMemory(cfg: Config, s: State, e: Event)
    requires Answering(s) && NextAnswer(cfg, s, e).Some?
    ensures MemoryStep(s, e, NextAnswer(cfg, s, e).value)
  {
  }

  lemma VerdictMemory(cfg: Config, s: State, e: Event)
    requires Judging(s) && NextVerdict(cfg, s, e).Some?
    ensures MemoryStep(s, e, NextVerdict(cfg, s, e).value)
  {
  }

  lemma ToolMemory(cfg: Config, s: State, e: Event)
    requires Coherent(cfg, s) && CurrentUses(s) != [] && NextTool(cfg, s, CurrentUses(s), e).Some?
    ensures MemoryStep(s, e, NextTool(cfg, s, CurrentUses(s), e).value)
  {
    match s.phase {
      case Tools(uses) =>
      case Waiting(uses, lock) =>
      case Running(uses, lock) =>
      case Marking(uses, lock) =>
      case Unlocking(uses, lock, abort) =>
      case _ =>
    }
  }

  lemma ExitMemory(s: State, e: Event)
    requires CurrentUses(s) == [] && NextExit(s, e).Some?
    ensures MemoryStep(s, e, NextExit(s, e).value)
  {
  }

  lemma NextMemory(cfg: Config, s: State, e: Event)
    requires Coherent(cfg, s) && Next(cfg, s, e).Some?
    ensures MemoryStep(s, e, Next(cfg, s, e).value)
  {
    hide NextAnswer, NextVerdict, NextTool, NextExit, MemoryStep;
    if Answering(s) {
      AnswerMemory(cfg, s, e);
    } else if Judging(s) {
      VerdictMemory(cfg, s, e);
    } else if CurrentUses(s) != [] {
      ToolMemory(cfg, s, e);
    } else {
      ExitMemory(s, e);
    }
  }

  // ----- the invariant -----

  /** What the run knows is stored; a run that could load knows every call marked so far. */
  ghost predicate Remembers(w: World, x: string, s: State) {
    InProgress(s) ==>
      && (s.hasStore && s.memory != {} ==> w.durable.Some? && s.memory <= w.durable.value)
      && (!s.hasStore ==> s.memory == {})
      && (s.hasStore && !w.isBlind && w.marked > 0 ==> x in s.memory)
      && (w.isBlind && x !in s.memory ==> w.marked <= w.blind)
  }

  ghost predicate Sound(cfg: Config, w: World, x: string) {
    && w.marked <= 1 + w.blind
    && (w.marked > 0 ==> w.durable.Some? && x in w.durable.value)
    && w.done == w.marked + w.lost + (if w.agent.Some? && MarkDue(w.agent.value, x) then 1 else 0)
    && (w.agent.Some? ==> Coherent(cfg, w.agent.value) && Remembers(w, x, w.agent.value))
    && (w.agent.Some? && (w.agent.value.phase.Starting? || w.agent.value.phase.Loading?) ==> !w.isBlind)
  }

  lemma BeginKeepsSound(cfg: Config, x: string, w: World, history: seq<Message>)
    requires Sound(cfg, w, x) && Enabled(cfg, w, Begin(history))
    ensures Sound(cfg, Apply(cfg, x, w, Begin(history)), x)
  {
    hide Next;
  }

  lemma DoKeepsSound(cfg: Config, x: string, w: World, e: Event, sideEffect: bool)
    requires Sound(cfg, w, x) && Enabled(cfg, w, Do(e, sideEffect))
    ensures Sound(cfg, Apply(cfg, x, w, Do(e, sideEffect)), x)
  {
    hide Next;
    var s := w.agent.value;
    NextMemory(cfg, s, e);
    NextKeepsCoherent(cfg, s, e);
  }

  lemma StepKeepsSound(cfg: Config, x: string, w: World, step: Step)
    requires Sound(cfg, w, x) && Enabled(cfg, w, step)
    ensures Sound(cfg, Apply(cfg, x, w, step), x)
  {
    hide Next;
    match step {
      case Begin(history) => BeginKeepsSound(cfg, x, w, history);
      case Do(e, sideEffect) => DoKeepsSound(cfg, x, w, e, sideEffect);
      case Crash =>
    }
  }

  lemma {:induction false} RunsAreSound(cfg: Config, x: string, run: seq<World>, steps: seq<Step>, n: nat)
    requires IsRun(cfg, x, run, steps) && n < |run|
    ensures Sound(cfg, run[n], x)
  {
    hide Next;
    if n == 0 {
    } else {
      RunsAreSound(cfg, x, run, steps, n - 1);
      StepKeepsSound(cfg, x, run[n - 1], steps[n - 1]);
    }
  }

  // ----- consequences -----

  /** Until validated success deletes the checkpoint, over any number of runs cut anywhere, a tool
      call ends without error at most once, plus once for each run that could not load the
      checkpoint, plus once for each such execution that was not followed by a successful mark. */
  lemma ExecutionsBounded(cfg: Config, x: string, run: seq<World>, steps: seq<Step>, n: nat)
    requires IsRun(cfg, x, run, steps) && n < |run|
    ensures var w := run[n];
            w.done <= 1 + w.blind + w.lost + (if w.agent.Some? && MarkDue(w.agent.value, x) then 1 else 0)
  {
    RunsAreSound(cfg, x, run, steps, n);
  }

  /** What a run remembers as completed is in the checkpoint. */
  lemma MemoryIsDurable(cfg: Config, x: string, run: seq<World>, steps: seq<Step>, n: nat)
    requires IsRun(cfg, x, run, steps) && n < |run|
    requires run[n].agent.Some? && InProgress(run[n].agent.value)
    ensures run[n].agent.value.memory <= if run[n].durable.Some? then run[n].durable.value else {}
  {
    RunsAreSound(cfg, x, run, steps, n);
  }

  ghost predicate Runs(step: Step, s: State, x: string) {
    step.Do? && (step.e.Executed? || step.e.ExecutionFailed?) && On(s, x)
  }

  lemma RunsOnlyUnknown(cfg: Config, s: State, step: Step, x: string)
    requires Coherent(cfg, s) && step.Do? && Next(cfg, s, step.e).Some? && Runs(step, s, x)
    ensures x !in s.memory && InProgress(s)
  {
    hide NextAnswer, NextVerdict, NextExit;
  }

  /** A call marked complete since the last deletion is executed again only by a run that could not
      load the checkpoint or has no store. */
  lemma MarkedIsNotRepeated(cfg: Config, x: string, run: seq<World>, steps: seq<Step>, n: nat)
    requires IsRun(cfg, x, run, steps) && n < |steps|
    requires run[n].agent.Some? && Runs(steps[n], run[n].agent.value, x)
    ensures run[n].marked == 0 || run[n].isBlind || !run[n].agent.value.hasStore
  {
    RunsAreSound(cfg, x, run, steps, n);
    RunsOnlyUnknown(cfg, run[n].agent.value, steps[n], x);
  }

  /** Once the checkpoint was deleted, a later run finds none until some call is marked again. */
  lemma DeletionForgets(cfg: Config, x: string, run: seq<World>, steps: seq<Step>, m: nat, n: nat)
    requires IsRun(cfg, x, run, steps) && m < n < |run|
    requires steps[m].Do? && steps[m].e.CheckpointDeleted? && (steps[m].e.ok || steps[m].sideEffect)
    requires forall i :: m < i < n ==> !(steps[i].Do? && steps[i].e.Marked?)
    ensures run[n].durable == None
    ensures n < |steps| && steps[n].Do? && steps[n].e.Loaded? ==> !steps[n].e.load.Found?
    decreases n
  {
    hide Next;
    if n > m + 1 {
      DeletionForgets(cfg, x, run, steps, m, n - 1);
    }
    assert run[n] == Apply(cfg, x, run[n - 1], steps[n - 1]);
  }

  lemma {:induction false} MemoryGrows(cfg: Config, x: string, run: seq<World>, steps: seq<Step>, m: nat, n: nat)
    requires IsRun(cfg, x, run, steps) && m <= n < |run|
    requires forall i :: m <= i < n ==> steps[i].Do?
    requires run[m].agent.Some? && !run[m].agent.value.phase.Starting? && !run[m].agent.value.phase.Loading?
    ensures run[n].agent.Some? && !run[n].agent.value.phase.Starting? && !run[n].agent.value.phase.Loading?
    ensures run[m].agent.value.memory <= run[n].agent.value.memory
  {
    hide Next;
    if m == n {
    } else {
      MemoryGrows(cfg, x, run, steps, m, n - 1);
      RunsAreSound(cfg, x, run, steps, n - 1);
      NextMemory(cfg, run[n - 1].agent.value, steps[n - 1].e);
    }
  }

  /** After a successful load, whatever the checkpoint listed then is not executed in that run,
      whoever marked it and whether or not the mark was reported as written. */
  lemma StoredIsNotRepeated(cfg: Config, x: string, run: seq<World>, steps: seq<Step>, m: nat, n: nat)
    requires IsRun(cfg, x, run, steps) && m < n < |steps|
    requires steps[m].Do? && steps[m].e.Loaded? && (steps[m].e.load.Found? || steps[m].e.load.NotFound?)
    requires run[m].durable.Some? && x in run[m].durable.value
    requires forall i :: m < i < n ==> steps[i].Do?
    requires run[n].agent.Some?
    ensures !Runs(steps[n], run[n].agent.value, x)
  {
    LoadRemembers(cfg, x, run, steps, m);
    MemoryGrows(cfg, x, run, steps, m + 1, n);
    RunsAreSound(cfg, x, run, steps, n);
    if Runs(steps[n], run[n].agent.value, x) {
      RunsOnlyUnknown(cfg, run[n].agent.value, steps[n], x);
    }
  }

  lemma LoadRemembers(cfg: Config, x: string, run: seq<World>, steps: seq<Step>, m: nat)
    requires IsRun(cfg, x, run, steps) && m < |steps|
    requires steps[m].Do? && steps[m].e.Loaded? && (steps[m].e.load.Found? || steps[m].e.load.NotFound?)
    requires run[m].durable.Some? && x in run[m].durable.value
    ensures run[m + 1].agent.Some? && x in run[m + 1].agent.value.memory
    ensures !run[m + 1].agent.value.phase.Starting? && !run[m + 1].agent.value.phase.Loading?
  {
    hide Next;
    RunsAreSound(cfg, x, run, steps, m);
    NextMemory(cfg, run[m].agent.value, steps[m].e);
  }
}
