/** The file watcher of the development server (services/dev-server/src/watcher.rs): a pump thread
    forwards relevant file events as bare signals, a task gathers signals for a while and builds. */
module Watcher {
  import opened Utf8

  datatype EventKind = Access | Create | Modify | Remove | OtherKind

  /** What the watched directories report; `extensions` are those of the event's paths. */
  datatype FsEvent = WatchError | Event(kind: EventKind, extensions: seq<string>)

  datatype DevEvent = WasmBuilding | WasmRebuilt | WasmFailed

  predicate IsSource(extension: string) {
    extension == "rs" || extension == "wgsl" || extension == "toml"
  }

  predicate IsRelevant(e: FsEvent) {
    && e.Event?
    && (e.kind.Create? || e.kind.Modify? || e.kind.Remove?)
    && exists i :: 0 <= i < |e.extensions| && IsSource(e.extensions[i])
  }

  const CAPACITY: nat := 64

  datatype BuildResult = Built | NotStarted | BuildFailed(output: string)

  /** A long output is cut down to its last 2048 bytes, which panics inside a character. */
  predicate TailPanics(r: BuildResult) {
    r.BuildFailed? && SplitsTail(r.output, 2048)
  }

  /** `Dead`: the build task panicked, and its end of the channel is gone. */
  datatype Phase = Waiting | Sleeping | Draining | Building | Stopped | Dead

  /** `notify`: events not yet seen by the pump; `holding`: the pump has a signal to send;
      `signals`: signals in the bounded channel.  Every step takes one tick of `now`. */
  datatype State = State(
    notify: seq<FsEvent>,
    closed: bool,
    pumpEnded: bool,
    holding: bool,
    signals: nat,
    phase: Phase,
    broadcast: seq<DevEvent>,
    now: nat,
    lastEdit: nat,
    lastBuildStart: nat)

  const INITIAL: State := State([], false, false, false, 0, Waiting, [], 0, 0, 0)

  // ----- steps -----

  datatype Step =
    | FileEvent(e: FsEvent)
    | Close
    | PumpTake
    | PumpSend
    | PumpEnd
    | TaskReceive
    | TaskWake
    | TaskDrainOne
    | TaskBuild
    | TaskBuilt(r: BuildResult)
    | TaskStop

  predicate FromOutside(step: Step) {
    step.FileEvent? || step.Close?
  }

  predicate Enabled(s: State, step: Step) {
    match step
    case FileEvent(_) => !s.closed
    case Close => !s.closed
    case PumpTake => !s.pumpEnded && !s.holding && s.notify != []
    case PumpSend => s.holding && (s.signals < CAPACITY || s.phase == Dead)
    case PumpEnd => !s.pumpEnded && !s.holding && s.notify == [] && s.closed
    case TaskReceive => s.phase == Waiting && s.signals > 0
    case TaskWake => s.phase == Sleeping
    case TaskDrainOne => s.phase == Draining && s.signals > 0
    case TaskBuild => s.phase == Draining && s.signals == 0
    case TaskBuilt(_) => s.phase == Building
    case TaskStop => s.phase == Waiting && s.signals == 0 && s.pumpEnded
  }

  function Apply(s: State, step: Step): State
    requires Enabled(s, step)
  {
    var t := s.(now := s.now + 1);
    match step
    case FileEvent(e) => t.(notify := s.notify + [e], lastEdit := if IsRelevant(e) then t.now else s.lastEdit)
    case Close => t.(closed := true)
    case PumpTake => t.(notify := s.notify[1..], holding := IsRelevant(s.notify[0]))
    case PumpSend => t.(holding := false, signals := if s.phase == Dead then 0 else s.signals + 1)
    case PumpEnd => t.(pumpEnded := true)
    case TaskReceive => t.(signals := s.signals - 1, phase := Sleeping)
    case TaskWake => t.(phase := Draining)
    case TaskDrainOne => t.(signals := s.signals - 1)
    case TaskBuild => t.(phase := Building, broadcast := s.broadcast + [WasmBuilding], lastBuildStart := t.now)
    case TaskBuilt(r) =>
      if TailPanics(r) then t.(phase := Dead, signals := 0)
      else t.(phase := Waiting, broadcast := s.broadcast + [if r.Built? then WasmRebuilt else WasmFailed])
    case TaskStop => t.(phase := Stopped)
  }

  /** The pump thread and the build task, one step at a time: a step method does what its loop
      does next, or nothing when the loop is blocked. */
  class DevWatcher {
    var notify: seq<FsEvent>
    var closed: bool
    var pumpEnded: bool
    var holding: bool
    var signals: nat
    var phase: Phase
    var broadcast: seq<DevEvent>
    ghost var now: nat
    ghost var lastEdit: nat
    ghost var lastBuildStart: nat

    ghost function Snapshot(): State
      reads this
    {
      State(notify, closed, pumpEnded, holding, signals, phase, broadcast, now, lastEdit, lastBuildStart)
    }

    constructor ()
      ensures Snapshot() == INITIAL
    {
      notify, closed, pumpEnded, holding := [], false, false, false;
      signals, phase, broadcast := 0, Waiting, [];
      now, lastEdit, lastBuildStart := 0, 0, 0;
    }

    method PumpStep() returns (moved: bool, ghost step: Step)
      modifies this
      ensures moved ==>
                !FromOutside(step) && Enabled(old(Snapshot()), step) && Snapshot() == Apply(old(Snapshot()), step)
      ensures !moved ==> unchanged(this)
      ensures moved <==>
                Enabled(old(Snapshot()), PumpTake) || Enabled(old(Snapshot()), PumpSend)
                || Enabled(old(Snapshot()), PumpEnd)
    {
      moved, step := true, PumpTake;
      if holding {
        if signals >= CAPACITY && phase != Dead {
          return false, step;
        }
        step := PumpSend;
        holding, signals := false, if phase == Dead then 0 else signals + 1;
      } else if pumpEnded {
        return false, step;
      } else if notify != [] {
        holding, notify := IsRelevant(notify[0]), notify[1..];
      } else if closed {
        step := PumpEnd;
        pumpEnded := true;
      } else {
        return false, step;
      }
      now := now + 1;
    }

    method TaskStep(result: BuildResult) returns (moved: bool, ghost step: Step)
      modifies this
      ensures moved ==>
                !FromOutside(step) && Enabled(old(Snapshot()), step) && Snapshot() == Apply(old(Snapshot()), step)
      ensures !moved ==> unchanged(this)
      ensures moved <==> (old(phase) == Waiting && (old(signals) > 0 || old(pumpEnded)))
                         || old(phase) == Sleeping || old(phase) == Draining || old(phase) == Building
    {
      hide TailPanics, IsRelevant;
      moved, step := true, TaskWake;
      match phase {
        case Waiting =>
          if signals > 0 {
            step := TaskReceive;
            signals, phase := signals - 1, Sleeping;
          } else if pumpEnded {
            step := TaskStop;
            phase := Stopped;
          } else {
            return false, step;
          }
        case Sleeping =>
          phase := Draining;
        case Draining =>
          if signals > 0 {
            step := TaskDrainOne;
            signals := signals - 1;
          } else {
            step := TaskBuild;
            broadcast := broadcast + [WasmBuilding];
            phase, lastBuildStart := Building, now + 1;
          }
        case Building =>
          step := TaskBuilt(result);
          if TailPanics(result) {
            phase, signals := Dead, 0;
          } else {
            broadcast := broadcast + [if result.Built? then WasmRebuilt else WasmFailed];
            phase := Waiting;
          }
        case Stopped =>
          return false, step;
        case Dead =>
          return false, step;
      }
      now := now + 1;
    }
  }

  ghost predicate IsRun(run: seq<State>, steps: seq<Step>) {
    && |run| == |steps| + 1 && run[0] == INITIAL
    && forall i :: 0 <= i < |steps| ==> Enabled(run[i], steps[i]) && run[i + 1] == Apply(run[i], steps[i])
  }

  // ----- no edit is lost -----

  ghost predicate HasRelevant(q: seq<FsEvent>) {
    exists i :: 0 <= i < |q| && IsRelevant(q[i])
  }

  /** A signal is on its way to a build that has not started. */
  ghost predicate BuildDue(s: State) {
    HasRelevant(s.notify) || s.holding || s.signals > 0 || s.phase == Sleeping || s.phase == Draining
  }

  /** Complete builds, and one more start while a build is under way. */
  ghost predicate Alternates(broadcast: seq<DevEvent>, building: bool) {
    && |broadcast| % 2 == (if building then 1 else 0)
    && forall i :: 0 <= i < |broadcast| ==> (broadcast[i] == WasmBuilding <==> i % 2 == 0)
  }

  ghost predicate Sound(s: State) {
    && s.lastEdit <= s.now && s.lastBuildStart <= s.now
    && (s.lastEdit > s.lastBuildStart && s.phase != Dead ==> BuildDue(s))
    && Alternates(s.broadcast, s.phase == Building || s.phase == Dead)
    && (s.pumpEnded ==> s.closed && s.notify == [] && !s.holding)
    && (s.phase == Stopped ==> s.pumpEnded && s.signals == 0)
  }

  lemma RelevantAfterEvent(q: seq<FsEvent>, e: FsEvent)
    ensures HasRelevant(q + [e]) <==> HasRelevant(q) || IsRelevant(e)
  {
    if HasRelevant(q) {
      var i :| 0 <= i < |q| && IsRelevant(q[i]);
      assert IsRelevant((q + [e])[i]);
    }
    if IsRelevant(e) {
      assert IsRelevant((q + [e])[|q|]);
    }
  }

  lemma RelevantAfterTake(q: seq<FsEvent>)
    requires q != []
    ensures HasRelevant(q) ==> HasRelevant(q[1..]) || IsRelevant(q[0])
  {
    if HasRelevant(q) && !IsRelevant(q[0]) {
      var i :| 0 <= i < |q| && IsRelevant(q[i]);
      assert IsRelevant(q[1..][i - 1]);
    }
  }

  lemma StepKeepsSound(s: State, step: Step)
    requires Sound(s) && Enabled(s, step)
    ensures Sound(Apply(s, step))
  {
    hide HasRelevant, IsRelevant;
    match step {
      case FileEvent(e) => RelevantAfterEvent(s.notify, e);
      case PumpTake => RelevantAfterTake(s.notify);
      case _ =>
    }
  }

  lemma {:induction false} RunsAreSound(run: seq<State>, steps: seq<Step>, i: nat)
    requires IsRun(run, steps) && i < |run|
    ensures Sound(run[i])
  {
    if i == 0 {
    } else {
      RunsAreSound(run, steps, i - 1);
      StepKeepsSound(run[i - 1], steps[i - 1]);
    }
  }

  /** The task is blocked, both channels are empty and the pump has nothing in hand. */
  ghost predicate Quiet(s: State) {
    (s.phase == Waiting || s.phase == Stopped) && s.notify == [] && s.signals == 0 && !s.holding
  }

  lemma QuietIsBuilt(run: seq<State>, steps: seq<Step>, i: nat)
    requires IsRun(run, steps) && i < |run| && Quiet(run[i])
    ensures run[i].lastEdit <= run[i].lastBuildStart
  {
    RunsAreSound(run, steps, i);
  }

  /** A source file was created, modified or removed. */
  ghost predicate IsEdit(step: Step) {
    && step.FileEvent? && step.e.Event? && step.e.kind in {Create, Modify, Remove}
    && exists x :: x in step.e.extensions && x in {"rs", "wgsl", "toml"}
  }

  lemma EditIsRelevant(step: Step)
    ensures IsEdit(step) <==> step.FileEvent? && IsRelevant(step.e)
  {
    if IsEdit(step) {
      var x :| x in step.e.extensions && x in {"rs", "wgsl", "toml"};
      var i :| 0 <= i < |step.e.extensions| && step.e.extensions[i] == x;
      assert IsSource(step.e.extensions[i]);
    }
    if step.FileEvent? && IsRelevant(step.e) {
      var i :| 0 <= i < |step.e.extensions| && IsSource(step.e.extensions[i]);
      assert step.e.extensions[i] in step.e.extensions;
    }
  }

  /** The counters of a run are positions in it. */
  lemma {:induction false} CountersArePositions(run: seq<State>, steps: seq<Step>, i: nat)
    requires IsRun(run, steps) && i < |run|
    ensures run[i].now == i && run[i].lastBuildStart <= i
    ensures run[i].lastBuildStart > 0 ==> steps[run[i].lastBuildStart - 1].TaskBuild?
  {
    hide IsRelevant, TailPanics;
    if i == 0 {
    } else {
      CountersArePositions(run, steps, i - 1);
    }
  }

  lemma {:induction false} EditIsCounted(run: seq<State>, steps: seq<Step>, j: nat, i: nat)
    requires IsRun(run, steps) && j < i < |run| && IsEdit(steps[j])
    ensures run[i].lastEdit > j
  {
    hide IsRelevant, TailPanics, IsEdit;
    CountersArePositions(run, steps, i - 1);
    if j == i - 1 {
      EditIsRelevant(steps[j]);
    } else {
      EditIsCounted(run, steps, j, i - 1);
    }
  }

  /** Whenever everything is quiet, a build has started after each edit of a source file. */
  lemma NoEditLost(run: seq<State>, steps: seq<Step>, j: nat, i: nat)
    requires IsRun(run, steps) && j < i < |run| && IsEdit(steps[j]) && Quiet(run[i])
    ensures exists k :: j < k < i && steps[k].TaskBuild?
  {
    hide IsEdit;
    QuietIsBuilt(run, steps, i);
    EditIsCounted(run, steps, j, i);
    CountersArePositions(run, steps, i);
    var k := run[i].lastBuildStart - 1;
    assert k >= j && steps[k].TaskBuild?;
    assert k != j by {
      if k == j {
        EditIsNoBuild(steps[j]);
      }
    }
  }

  lemma EditIsNoBuild(step: Step)
    requires IsEdit(step)
    ensures !step.TaskBuild?
  {
  }

  ghost predicate Idle(s: State) {
    !HasRelevant(s.notify) && !s.holding && s.signals == 0 && (s.phase == Waiting || s.phase == Stopped)
  }

  /** Nothing is built unless a source file was edited. */
  lemma {:induction false} NoEditNoBuild(run: seq<State>, steps: seq<Step>, i: nat)
    requires IsRun(run, steps) && i < |run|
    requires forall j :: 0 <= j < i ==> !IsEdit(steps[j])
    ensures Idle(run[i]) && run[i].broadcast == []
    ensures forall j :: 0 <= j < i ==> !steps[j].TaskBuild?
  {
    hide HasRelevant, IsRelevant, TailPanics, IsEdit;
    if i == 0 {
      NothingNotified();
    } else {
      NoEditNoBuild(run, steps, i - 1);
      var s, step := run[i - 1], steps[i - 1];
      EditIsRelevant(step);
      match step {
        case FileEvent(e) => RelevantAfterEvent(s.notify, e);
        case PumpTake =>
          RelevantAfterTake(s.notify);
          IrrelevantTaken(s.notify);
        case _ =>
      }
    }
  }

  lemma NothingNotified()
    ensures !HasRelevant([])
  {
  }

  lemma IrrelevantTaken(q: seq<FsEvent>)
    requires q != [] && !HasRelevant(q)
    ensures !IsRelevant(q[0]) && !HasRelevant(q[1..])
  {
    hide IsRelevant;
    forall i | 0 <= i < |q[1..]| ensures !IsRelevant(q[1..][i]) {
      assert q[1..][i] == q[i + 1];
    }
  }

  // ----- what viewers are told -----

  /** A character stands across the 2048th byte from the end. */
  ghost predicate CutsCharacter(output: string) {
    exists k :: 0 <= k < |output|
      && Bytes(output[..k]) < Bytes(output) - 2048 < Bytes(output[..k]) + Width(output[k])
  }

  lemma TailPanicsIff(r: BuildResult)
    ensures TailPanics(r) <==> r.BuildFailed? && CutsCharacter(r.output)
  {
    if r.BuildFailed? && Bytes(r.output) > 2048 {
      SplitsIff(r.output, Bytes(r.output) - 2048);
    }
  }

  /** The start of each build, and its outcome: a rebuild exactly if it succeeded, and no outcome for
      the one whose output cannot be cut. */
  ghost function Told(steps: seq<Step>): seq<DevEvent> {
    if steps == [] then []
    else
      var last := steps[|steps| - 1];
      Told(steps[..|steps| - 1])
      + if last.TaskBuild? then [WasmBuilding]
        else if last.TaskBuilt? && last.r.Built? then [WasmRebuilt]
        else if last.TaskBuilt? && !(last.r.BuildFailed? && CutsCharacter(last.r.output)) then [WasmFailed]
        else []
  }

  /** On every run viewers are told exactly that. */
  lemma {:induction false} BroadcastIsTold(run: seq<State>, steps: seq<Step>, i: nat)
    requires IsRun(run, steps) && i < |run|
    ensures run[i].broadcast == Told(steps[..i])
  {
    hide IsRelevant, TailPanics, CutsCharacter;
    if i == 0 {
    } else {
      BroadcastIsTold(run, steps, i - 1);
      assert steps[..i][..i - 1] == steps[..i - 1];
      if steps[i - 1].TaskBuilt? {
        TailPanicsIff(steps[i - 1].r);
      }
    }
  }

  /** A build starts only when the signals that came in meanwhile are drained. */
  lemma BuildStartsDrained(run: seq<State>, steps: seq<Step>, i: nat)
    requires IsRun(run, steps) && i < |steps| && steps[i].TaskBuild?
    ensures run[i].signals == 0
  {
    hide Apply;
  }

  lemma {:induction false} ChannelIsBounded(run: seq<State>, steps: seq<Step>, i: nat)
    requires IsRun(run, steps) && i < |run|
    ensures run[i].signals <= 64
  {
    hide IsRelevant, TailPanics;
    if i == 0 {
    } else {
      ChannelIsBounded(run, steps, i - 1);
    }
  }

  /** Viewers see builds one after the other: each start is followed by exactly one outcome, except
      for the build that the task dies of. */
  lemma BroadcastsAlternate(run: seq<State>, steps: seq<Step>, i: nat)
    requires IsRun(run, steps) && i < |run|
    ensures Alternates(run[i].broadcast, run[i].phase == Building || run[i].phase == Dead)
  {
    RunsAreSound(run, steps, i);
  }

  // ----- quiet is reached -----

  /** Steps of pump and task that can still follow without further file events. */
  function Remaining(s: State): nat {
    6 * |s.notify| + (if s.holding then 5 else 0) + 4 * s.signals
    + (match s.phase case Waiting => 1 case Sleeping => 4 case Draining => 3 case Building => 2
                     case Stopped => 0 case Dead => 0)
    + (if s.pumpEnded then 0 else 1)
  }

  lemma InsideStepsAreFinite(s: State, step: Step)
    requires Enabled(s, step) && !FromOutside(step)
    ensures Remaining(Apply(s, step)) < Remaining(s)
  {
  }

  /** Pump and task never block each other: until everything is quiet or the task is dead, one of
      them can step, even with the channel full. */
  lemma NotStuck(s: State) returns (step: Step)
    requires Sound(s) && !Quiet(s) && s.phase != Dead
    ensures !FromOutside(step) && Enabled(s, step)
  {
    match s.phase {
      case Sleeping => step := TaskWake;
      case Draining => step := if s.signals > 0 then TaskDrainOne else TaskBuild;
      case Building => step := TaskBuilt(Built);
      case Waiting =>
        step := if s.signals > 0 then TaskReceive else if s.holding then PumpSend else PumpTake;
      case Stopped =>
        assert false;
    }
  }

  lemma {:induction false} InsideRunsAreShort(run: seq<State>, steps: seq<Step>, from: nat, i: nat)
    requires IsRun(run, steps) && from <= i < |run|
    requires forall j :: from <= j < |steps| ==> !FromOutside(steps[j])
    ensures i - from + Remaining(run[i]) <= Remaining(run[from])
  {
    hide Apply, Remaining;
    if from == i {
    } else {
      InsideRunsAreShort(run, steps, from, i - 1);
      InsideStepsAreFinite(run[i - 1], steps[i - 1]);
    }
  }

  /** Neither the pump nor the build task can step. */
  ghost predicate Stuck(s: State) {
    forall step :: Enabled(s, step) ==> FromOutside(step)
  }

  /** Once file events stop, at most `Remaining` further steps follow on any schedule, and when none
      is left all is quiet and the last edit has been built, or the build task is dead. */
  lemma SettlesAfterLastEvent(run: seq<State>, steps: seq<Step>, from: nat)
    requires IsRun(run, steps) && from < |run|
    requires forall j :: from <= j < |steps| ==> !FromOutside(steps[j])
    ensures |steps| - from <= Remaining(run[from])
    ensures Stuck(run[|steps|]) || |steps| - from == Remaining(run[from]) ==>
              || run[|steps|].phase == Dead
              || (Quiet(run[|steps|]) && run[|steps|].lastEdit <= run[|steps|].lastBuildStart)
  {
    hide Apply;
    var last := run[|steps|];
    InsideRunsAreShort(run, steps, from, |steps|);
    RunsAreSound(run, steps, |steps|);
    if !Quiet(last) && last.phase != Dead {
      var step := NotStuck(last);
      InsideStepsAreFinite(last, step);
    }
    if Quiet(last) {
      QuietIsBuilt(run, steps, |steps|);
    }
  }

  // ----- the death of the build task -----

  /** The task dies exactly of a failed build whose output cannot be cut. */
  lemma DiesIff(s: State, step: Step)
    requires Enabled(s, step) && s.phase != Dead
    ensures Apply(s, step).phase == Dead <==> step.TaskBuilt? && TailPanics(step.r)
  {
    hide IsRelevant, TailPanics;
  }

  /** From then on nothing is built or announced any more, whatever is edited. */
  lemma {:induction false} DeadForever(run: seq<State>, steps: seq<Step>, i: nat, j: nat)
    requires IsRun(run, steps) && i <= j < |run| && run[i].phase == Dead
    ensures run[j].phase == Dead
    ensures run[j].broadcast == run[i].broadcast && run[j].lastBuildStart == run[i].lastBuildStart
  {
    hide IsRelevant, TailPanics;
    if i == j {
    } else {
      DeadForever(run, steps, i, j - 1);
    }
  }

  /** One more step of a run that ended in `s`. */
  lemma RunOn(run: seq<State>, steps: seq<Step>, s: State, step: Step)
    requires IsRunTo(run, steps, s) && Enabled(s, step)
    ensures IsRunTo(run + [Apply(s, step)], steps + [step], Apply(s, step))
  {
    hide Enabled, Apply;
    var longer, all := run + [Apply(s, step)], steps + [step];
    forall i | 0 <= i < |all| ensures Enabled(longer[i], all[i]) && longer[i + 1] == Apply(longer[i], all[i]) {
      if i < |steps| {
        assert longer[i] == run[i] && longer[i + 1] == run[i + 1] && all[i] == steps[i];
      }
    }
  }

  ghost predicate IsRunTo(run: seq<State>, steps: seq<Step>, last: State) {
    IsRun(run, steps) && run[|steps|] == last
  }

  lemma Move(run: seq<State>, steps: seq<Step>, s: State, step: Step)
    returns (longer: seq<State>, more: seq<Step>, t: State)
    requires IsRunTo(run, steps, s) && Enabled(s, step)
    ensures IsRunTo(longer, more, t) && t == Apply(s, step) && more == steps + [step]
  {
    RunOn(run, steps, s, step);
    t := Apply(s, step);
    longer, more := run + [t], steps + [step];
  }

  /** A first edit reaches the build that the task dies of. */
  lemma DyingRun(e: FsEvent, r: BuildResult) returns (run: seq<State>, steps: seq<Step>, s: State)
    requires IsRelevant(e) && TailPanics(r)
    ensures IsRunTo(run, steps, s) && TaskBuilt(r) in steps
    ensures s == State([], false, false, false, 0, Dead, [WasmBuilding], 7, 1, 6)
  {
    hide IsRunTo, IsRelevant, TailPanics;
    run, steps, s := [INITIAL], [], INITIAL;
    RunStarts();
    run, steps, s := Move(run, steps, s, FileEvent(e));
    assert s.notify == [e];
    run, steps, s := Move(run, steps, s, PumpTake);
    run, steps, s := Move(run, steps, s, PumpSend);
    run, steps, s := Move(run, steps, s, TaskReceive);
    run, steps, s := Move(run, steps, s, TaskWake);
    run, steps, s := Move(run, steps, s, TaskBuild);
    run, steps, s := Move(run, steps, s, TaskBuilt(r));
  }

  lemma LongLogPanics()
    ensures TailPanics(BuildFailed(Repeat('\U{20AC}', 683)))
  {
    RepeatSplits('\U{20AC}', 683, 1);
  }

  lemma RunStarts()
    ensures IsRunTo([INITIAL], [], INITIAL)
  {
  }

  /** A build log in three-byte characters, longer than 2048 bytes: the edit after it is lost
      although the pump is idle and the channel empty. */
  lemma EditCanBeLost(e: FsEvent) returns (run: seq<State>, steps: seq<Step>, s: State)
    requires IsRelevant(e)
    ensures IsRunTo(run, steps, s) && TaskBuilt(BuildFailed(Repeat('\U{20AC}', 683))) in steps
    ensures s.phase == Dead && s.lastEdit > s.lastBuildStart && s.notify == [] && !s.holding && s.signals == 0
  {
    hide IsRunTo, IsRelevant, TailPanics;
    var r := BuildFailed(Repeat('\U{20AC}', 683));
    LongLogPanics();
    run, steps, s := DyingRun(e, r);
    run, steps, s := Move(run, steps, s, FileEvent(e));
    assert s.notify == [e];
    run, steps, s := Move(run, steps, s, PumpTake);
    run, steps, s := Move(run, steps, s, PumpSend);
  }
}
