/** The pool of background agents (apps/cli/src/agents/pool.rs).

    Every critical section under the pool's lock is one atomic step.  Spawning takes two of them,
    a check and an insertion, so several callers can pass the check together. */
module AgentPool {

  /** Agent ids are fresh for every spawn. */
  type Id = nat

  datatype Removal = Stopped | Awaited | CleanedUp | ShutDown

  /** `finished`: agents whose task has ended; `locks`: file locks with their holder; `removed`: how
      each handle left the pool; `awaiting`: handles taken by a caller still joining them;
      `results`: the agents whose result was handed out, in order. */
  datatype Pool = Pool(
    agents: set<Id>,
    finished: set<Id>,
    locks: set<(Id, string)>,
    removed: map<Id, Removal>,
    awaiting: set<Id>,
    results: seq<Id>)

  // ----- the critical sections -----

  function LocksOfOthers(locks: set<(Id, string)>, gone: set<Id>): set<(Id, string)> {
    set l | l in locks && l.0 !in gone
  }

  function Insert(p: Pool, id: Id): Pool {
    p.(agents := p.agents + {id})
  }

  function Stop(p: Pool, id: Id): Pool {
    if id !in p.agents then p
    else p.(agents := p.agents - {id}, locks := LocksOfOthers(p.locks, {id}), removed := p.removed[id := Stopped])
  }

  function Take(p: Pool, id: Id): Pool {
    if id !in p.agents then p
    else p.(agents := p.agents - {id}, awaiting := p.awaiting + {id}, removed := p.removed[id := Awaited])
  }

  function Join(p: Pool, id: Id): Pool {
    if id in p.awaiting && id in p.finished then p.(awaiting := p.awaiting - {id}, results := p.results + [id]) else p
  }

  function Collect(p: Pool, id: Id): Pool {
    if id !in p.agents then p
    else p.(agents := p.agents - {id}, removed := p.removed[id := CleanedUp], results := p.results + [id])
  }

  function CollectAll(p: Pool, ids: seq<Id>): Pool {
    if ids == [] then p else Collect(CollectAll(p, ids[..|ids| - 1]), ids[|ids| - 1])
  }

  function Shutdown(p: Pool): Pool {
    p.(agents := {}, locks := LocksOfOthers(p.locks, p.agents),
       removed := WithShutDown(p.removed, p.agents))
  }

  function WithShutDown(removed: map<Id, Removal>, gone: set<Id>): map<Id, Removal> {
    removed + map id | id in gone :: ShutDown
  }

  class AgentPool {
    const maxAgents: nat
    var agents: set<Id>
    var finished: set<Id>
    var locks: set<(Id, string)>
    var results: seq<Id>
    ghost var removed: map<Id, Removal>
    ghost var awaiting: set<Id>

    ghost function Snapshot(): Pool
      reads this
    {
      Pool(agents, finished, locks, removed, awaiting, results)
    }

    constructor (maxAgents: nat)
      ensures this.maxAgents == maxAgents && Snapshot() == Pool({}, {}, {}, map[], {}, [])
    {
      this.maxAgents := maxAgents;
      agents, finished, locks, results := {}, {}, {}, [];
      removed, awaiting := map[], {};
    }

    /** First half of spawning: refuse when the pool is full. */
    method CheckCapacity() returns (ok: bool)
      ensures ok <==> |agents| < maxAgents
    {
      ok := !(|agents| >= maxAgents);
    }

    /** Second half: the pool is not looked at again. */
    method InsertAgent(id: Id)
      modifies this
      ensures Snapshot() == Insert(old(Snapshot()), id)
    {
      agents := agents + {id};
    }

    method StopAgent(id: Id) returns (found: bool)
      modifies this
      ensures Snapshot() == Stop(old(Snapshot()), id)
      ensures found <==> id in old(agents)
      ensures agents == old(agents) - {id}
      ensures forall l :: l in locks <==> l in old(locks) && !(found && l.0 == id)
    {
      found := id in agents;
      if found {
        agents := agents - {id};
        removed := removed[id := Stopped];
        ReleaseAllLocks({id});
      }
    }

    method ReleaseAllLocks(gone: set<Id>)
      modifies this`locks
      ensures locks == LocksOfOthers(old(locks), gone)
    {
      locks := set l | l in locks && l.0 !in gone;
    }

    method TakeHandle(id: Id) returns (found: bool)
      modifies this
      ensures Snapshot() == Take(old(Snapshot()), id)
      ensures (found <==> id in old(agents)) && agents == old(agents) - {id} && locks == old(locks)
    {
      found := id in agents;
      if found {
        agents := agents - {id};
        awaiting, removed := awaiting + {id}, removed[id := Awaited];
      }
    }

    /** First half of a clean-up: who has finished? */
    method ScanFinished() returns (ids: seq<Id>)
      ensures forall id :: id in ids <==> id in agents && id in finished
    {
      ids := [];
      var rest := agents;
      while rest != {}
        invariant rest <= agents
        invariant forall id :: id in ids <==> id in agents - rest && id in finished
      {
        var id :| id in rest;
        rest := rest - {id};
        if id in finished {
          ids := ids + [id];
        }
      }
    }

    /** Second half: whatever of it is still there is removed and its result collected. */
    method RemoveFinished(ids: seq<Id>) returns (completed: seq<Id>)
      modifies this
      ensures Snapshot() == CollectAll(old(Snapshot()), ids)
      ensures results == old(results) + completed
      ensures forall id :: id in completed <==> id in ids && id in old(agents)
      ensures forall id :: id in agents <==> id in old(agents) && id !in ids
    {
      completed := [];
      for i := 0 to |ids|
        invariant forall id :: id in completed <==> id in ids[..i] && id in old(agents)
        invariant forall id :: id in agents <==> id in old(agents) && id !in ids[..i]
        invariant Snapshot() == CollectAll(old(Snapshot()), ids[..i])
        invariant results == old(results) + completed
      {
        assert ids[..i + 1][..i] == ids[..i];
        if ids[i] in agents {
          agents := agents - {ids[i]};
          removed := removed[ids[i] := CleanedUp];
          results := results + [ids[i]];
          completed := completed + [ids[i]];
        }
      }
      assert ids[..|ids|] == ids;
    }

    method ShutdownAll()
      modifies this
      ensures Snapshot() == Shutdown(old(Snapshot()))
      ensures agents == {} && forall l :: l in locks <==> l in old(locks) && l.0 !in old(agents)
    {
      hide LocksOfOthers;
      var drained := agents;
      ghost var held, before := locks, removed;
      agents := {};
      var rest := drained;
      NothingDropped(held, before);
      assert drained - rest == {};
      while rest != {}
        invariant rest <= drained && agents == {}
        invariant locks == LocksOfOthers(held, drained - rest)
        invariant removed == WithShutDown(before, drained - rest)
        invariant unchanged(`finished) && unchanged(`results) && unchanged(`awaiting)
      {
        var id :| id in rest;
        OneMoreDropped(held, before, drained - rest, id);
        assert drained - (rest - {id}) == (drained - rest) + {id};
        rest := rest - {id};
        removed := removed[id := ShutDown];
        ReleaseAllLocks({id});
      }
      assert drained - rest == drained;
      DroppedAreGone(held, drained);
    }
  }

  lemma NothingDropped(locks: set<(Id, string)>, removed: map<Id, Removal>)
    ensures LocksOfOthers(locks, {}) == locks && WithShutDown(removed, {}) == removed
  {
  }

  lemma OneMoreDropped(locks: set<(Id, string)>, removed: map<Id, Removal>, gone: set<Id>, id: Id)
    ensures LocksOfOthers(LocksOfOthers(locks, gone), {id}) == LocksOfOthers(locks, gone + {id})
    ensures WithShutDown(removed, gone)[id := ShutDown] == WithShutDown(removed, gone + {id})
  {
  }

  lemma DroppedAreGone(locks: set<(Id, string)>, gone: set<Id>)
    ensures forall l :: l in LocksOfOthers(locks, gone) <==> l in locks && l.0 !in gone
  {
  }

  // ----- any number of callers -----

  /** `checked[i]`: spawner i has passed the capacity check and not yet inserted; `scans`: clean-ups
      between their two halves; `spawned`: all ids ever inserted. */
  datatype System = System(pool: Pool, checked: seq<bool>, scans: seq<seq<Id>>, spawned: set<Id>)

  datatype Step =
    | DoCheck(i: nat)
    | DoInsert(i: nat, id: Id)
    | DoStop(id: Id)
    | DoTake(id: Id)
    | DoJoin(id: Id)
    | DoScan(ids: seq<Id>)
    | DoRemove(j: nat)
    | DoShutdown
    | AgentFinishes(id: Id)
    | AgentLocks(id: Id, path: string)
    | AgentUnlocks(id: Id, path: string)

  ghost predicate Enabled(s: System, max: nat, step: Step) {
    match step
    case DoCheck(i) => i < |s.checked| && !s.checked[i] && |s.pool.agents| < max
    case DoInsert(i, id) => i < |s.checked| && s.checked[i] && id !in s.spawned
    case DoScan(ids) => forall id :: id in ids <==> id in s.pool.agents && id in s.pool.finished
    case DoRemove(j) => j < |s.scans|
    case AgentFinishes(id) => id in s.spawned
    case AgentLocks(id, _) => id in s.spawned
    case _ => true
  }

  ghost function Apply(s: System, max: nat, step: Step): System {
    if !Enabled(s, max, step) then s
    else
      var p := s.pool;
      match step
      case DoCheck(i) => s.(checked := s.checked[i := true])
      case DoInsert(i, id) => s.(pool := Insert(p, id), checked := s.checked[i := false], spawned := s.spawned + {id})
      case DoStop(id) => s.(pool := Stop(p, id))
      case DoTake(id) => s.(pool := Take(p, id))
      case DoJoin(id) => s.(pool := Join(p, id))
      case DoScan(ids) => s.(scans := s.scans + [ids])
      case DoRemove(j) => s.(pool := CollectAll(p, s.scans[j]), scans := s.scans[..j] + s.scans[j + 1..])
      case DoShutdown => s.(pool := Shutdown(p))
      case AgentFinishes(id) => s.(pool := p.(finished := p.finished + {id}))
      case AgentLocks(id, path) => s.(pool := p.(locks := p.locks + {(id, path)}))
      case AgentUnlocks(id, path) => s.(pool := p.(locks := p.locks - {(id, path)}))
  }

  ghost function Run(k: nat, max: nat, steps: seq<Step>): System {
    if steps == [] then System(Pool({}, {}, {}, map[], {}, []), seq(k, i => false), [], {})
    else Apply(Run(k, max, steps[..|steps| - 1]), max, steps[|steps| - 1])
  }

  ghost function Pending(checked: seq<bool>): nat {
    if checked == [] then 0 else Pending(checked[1..]) + if checked[0] then 1 else 0
  }

  lemma {:induction false} PendingUpdate(checked: seq<bool>, i: nat, b: bool)
    requires i < |checked|
    ensures Pending(checked[i := b]) == Pending(checked) + (if b then 1 else 0) - (if checked[i] then 1 else 0)
    ensures Pending(checked) <= |checked|
  {
    if i == 0 {
      assert checked[0 := b][1..] == checked[1..];
      PendingBound(checked);
    } else {
      assert checked[i := b][1..] == checked[1..][i - 1 := b];
      PendingUpdate(checked[1..], i - 1, b);
    }
  }

  lemma PendingBound(checked: seq<bool>)
    ensures Pending(checked) <= |checked|
  {
  }

  // ----- capacity -----

  ghost predicate WithinCapacity(s: System, max: nat) {
    |s.pool.agents| + Pending(s.checked) < max + |s.checked|
  }

  lemma CollectAllShrinks(p: Pool, ids: seq<Id>)
    ensures |CollectAll(p, ids).agents| <= |p.agents|
  {
  }

  lemma StepKeepsCapacity(s: System, max: nat, step: Step)
    requires WithinCapacity(s, max)
    ensures WithinCapacity(Apply(s, max, step), max)
  {
    if Enabled(s, max, step) {
      match step {
        case DoCheck(i) =>
          PendingUpdate(s.checked, i, true);
          PendingBound(s.checked[i := true]);
        case DoInsert(i, id) =>
          PendingUpdate(s.checked, i, false);
        case DoRemove(j) =>
          CollectAllShrinks(s.pool, s.scans[j]);
        case _ =>
      }
    }
  }

  lemma {:induction false} NothingPending(k: nat)
    ensures Pending(seq(k, i => false)) == 0
  {
    if k == 0 {
    } else {
      NothingPending(k - 1);
      assert seq(k, i => false)[1..] == seq(k - 1, i => false);
    }
  }

  /** With k callers spawning, the pool never holds more than `max + k - 1` agents; with one caller
      it never holds more than `max`. */
  lemma {:induction false} PoolBounded(k: nat, max: nat, steps: seq<Step>)
    requires k > 0
    ensures |Run(k, max, steps).checked| == k
    ensures WithinCapacity(Run(k, max, steps), max)
    ensures |Run(k, max, steps).pool.agents| <= max + k - 1
  {
    if steps == [] {
      NothingPending(k);
    } else {
      PoolBounded(k, max, steps[..|steps| - 1]);
      StepKeepsCapacity(Run(k, max, steps[..|steps| - 1]), max, steps[|steps| - 1]);
    }
  }

  // ----- the bound is reached -----

  lemma RunSnoc(k: nat, max: nat, steps: seq<Step>, step: Step)
    ensures Run(k, max, steps + [step]) == Apply(Run(k, max, steps), max, step)
  {
    assert (steps + [step])[..|steps|] == steps;
  }

  ghost predicate Holds(s: System, n: nat, checked: seq<bool>) {
    s.pool.agents == s.spawned && |s.spawned| == n && s.checked == checked && forall id :: id in s.spawned ==> id < n
  }

  lemma InsertOne(s: System, max: nat, i: nat, n: nat)
    requires i < |s.checked| && s.checked[i] && Holds(s, n, s.checked)
    ensures Holds(Apply(s, max, DoInsert(i, n)), n + 1, s.checked[i := false])
  {
  }

  lemma {:induction false} FillSerially(k: nat, max: nat, n: nat) returns (steps: seq<Step>)
    requires k > 0 && n <= max
    ensures Holds(Run(k, max, steps), n, seq(k, i => false))
  {
    steps := [];
    if n == 0 {
    } else {
      steps := FillSerially(k, max, n - 1);
      RunSnoc(k, max, steps, DoCheck(0));
      RunSnoc(k, max, steps + [DoCheck(0)], DoInsert(0, n - 1));
      InsertOne(Run(k, max, steps + [DoCheck(0)]), max, 0, n - 1);
      assert seq(k, i => false)[0 := true][0 := false] == seq(k, i => false);
      steps := steps + [DoCheck(0)] + [DoInsert(0, n - 1)];
    }
  }

  lemma {:induction false} AllCheck(k: nat, max: nat, n: nat, j: nat) returns (steps: seq<Step>)
    requires n < max && j <= k && k > 0
    ensures Holds(Run(k, max, steps), n, seq(k, i => i < j))
  {
    if j == 0 {
      steps := FillSerially(k, max, n);
      assert seq(k, i => false) == seq(k, i => i < 0);
    } else {
      steps := AllCheck(k, max, n, j - 1);
      RunSnoc(k, max, steps, DoCheck(j - 1));
      assert seq(k, i => i < j - 1)[j - 1 := true] == seq(k, i => i < j);
      steps := steps + [DoCheck(j - 1)];
    }
  }

  lemma {:induction false} AllInsert(k: nat, max: nat, j: nat) returns (steps: seq<Step>)
    requires max > 0 && j <= k && k > 0
    ensures Holds(Run(k, max, steps), max - 1 + j, seq(k, i => j <= i))
  {
    if j == 0 {
      steps := AllCheck(k, max, max - 1, k);
      assert seq(k, i => i < k) == seq(k, i => 0 <= i);
    } else {
      steps := AllInsert(k, max, j - 1);
      RunSnoc(k, max, steps, DoInsert(j - 1, max - 1 + (j - 1)));
      InsertOne(Run(k, max, steps), max, j - 1, max - 1 + (j - 1));
      assert seq(k, i => j - 1 <= i)[j - 1 := false] == seq(k, i => j <= i);
      steps := steps + [DoInsert(j - 1, max - 1 + (j - 1))];
    }
  }

  /** The capacity check is only exact for one caller: k callers can overfill the pool by k - 1. */
  lemma BoundIsReached(k: nat, max: nat) returns (steps: seq<Step>)
    requires k > 0 && max > 0
    ensures |Run(k, max, steps).pool.agents| == max + k - 1
  {
    steps := AllInsert(k, max, k);
  }

  // ----- every handle is removed once -----

  ghost predicate NoDuplicates(s: seq<Id>) {
    forall i, j :: 0 <= i < j < |s| ==> s[i] != s[j]
  }

  ghost predicate RemovedOnce(s: System) {
    PoolConsistent(s.pool, s.spawned)
  }

  ghost predicate PoolConsistent(p: Pool, spawned: set<Id>) {
    && p.agents + p.removed.Keys == spawned && p.agents !! p.removed.Keys
    && p.awaiting <= p.removed.Keys
    && NoDuplicates(p.results)
    && (forall id :: id in p.awaiting ==> p.removed[id] == Awaited && id !in p.results)
    && (forall id :: id in p.results ==> id in p.removed && (p.removed[id] == Awaited || p.removed[id] == CleanedUp))
    && (forall id :: id in p.removed && p.removed[id] == CleanedUp ==> id in p.results)
    && (forall id :: id in p.removed && p.removed[id] == Awaited ==> id in p.awaiting || id in p.results)
  }

  lemma AppendNew(s: seq<Id>, id: Id)
    requires NoDuplicates(s) && id !in s
    ensures NoDuplicates(s + [id])
  {
  }

  lemma CollectConsistent(p: Pool, spawned: set<Id>, id: Id)
    requires PoolConsistent(p, spawned)
    ensures PoolConsistent(Collect(p, id), spawned)
  {
    if id in p.agents {
      AppendNew(p.results, id);
    }
  }

  lemma {:induction false} CollectAllConsistent(p: Pool, spawned: set<Id>, ids: seq<Id>)
    requires PoolConsistent(p, spawned)
    ensures PoolConsistent(CollectAll(p, ids), spawned)
  {
    if ids == [] {
    } else {
      CollectAllConsistent(p, spawned, ids[..|ids| - 1]);
      CollectConsistent(CollectAll(p, ids[..|ids| - 1]), spawned, ids[|ids| - 1]);
    }
  }

  lemma JoinConsistent(p: Pool, spawned: set<Id>, id: Id)
    requires PoolConsistent(p, spawned)
    ensures PoolConsistent(Join(p, id), spawned)
  {
    if id in p.awaiting {
      AppendNew(p.results, id);
    }
  }

  lemma RemovalConsistent(p: Pool, spawned: set<Id>, id: Id)
    requires PoolConsistent(p, spawned)
    ensures PoolConsistent(Stop(p, id), spawned) && PoolConsistent(Take(p, id), spawned)
  {
    if id in p.agents {
      assert Stop(p, id).removed.Keys == p.removed.Keys + {id};
      assert Take(p, id).removed.Keys == p.removed.Keys + {id};
    }
  }

  lemma ShutdownConsistent(p: Pool, spawned: set<Id>)
    requires PoolConsistent(p, spawned)
    ensures PoolConsistent(Shutdown(p), spawned)
  {
    assert Shutdown(p).removed.Keys == p.removed.Keys + p.agents;
  }

  lemma InsertConsistent(p: Pool, spawned: set<Id>, id: Id)
    requires PoolConsistent(p, spawned) && id !in spawned
    ensures PoolConsistent(Insert(p, id), spawned + {id})
  {
  }

  lemma StepRemovesOnce(s: System, max: nat, step: Step)
    requires RemovedOnce(s)
    ensures RemovedOnce(Apply(s, max, step))
  {
    if Enabled(s, max, step) {
      match step {
        case DoInsert(i, id) => InsertConsistent(s.pool, s.spawned, id);
        case DoStop(id) => RemovalConsistent(s.pool, s.spawned, id);
        case DoTake(id) => RemovalConsistent(s.pool, s.spawned, id);
        case DoJoin(id) => JoinConsistent(s.pool, s.spawned, id);
        case DoRemove(j) => CollectAllConsistent(s.pool, s.spawned, s.scans[j]);
        case DoShutdown => ShutdownConsistent(s.pool, s.spawned);
        case _ =>
      }
    }
  }

  /** On every run, each spawned agent is either in the pool or was removed in exactly one way, and
      no result is handed out twice, nor for an agent that was stopped or shut down. */
  lemma {:induction false} EveryRunRemovesOnce(k: nat, max: nat, steps: seq<Step>)
    ensures RemovedOnce(Run(k, max, steps))
  {
    if steps == [] {
    } else {
      EveryRunRemovesOnce(k, max, steps[..|steps| - 1]);
      StepRemovesOnce(Run(k, max, steps[..|steps| - 1]), max, steps[|steps| - 1]);
    }
  }

  lemma StepKeepsRemoval(s: System, max: nat, step: Step, id: Id)
    requires RemovedOnce(s) && id in s.pool.removed
    ensures var after := Apply(s, max, step);
            id in after.pool.removed && after.pool.removed[id] == s.pool.removed[id] && id !in after.pool.agents
  {
    if Enabled(s, max, step) && step.DoRemove? {
      CollectAllKeepsRemoved(s.pool, s.scans[step.j], id);
    }
  }

  /** An agent loses a lock only by giving it back, by being stopped, or in a shutdown of the pool it is in. */
  lemma OthersKeepLocks(s: System, max: nat, step: Step, id: Id, path: string)
    requires (id, path) in s.pool.locks
    requires step != AgentUnlocks(id, path) && step != DoStop(id) && (step.DoShutdown? ==> id !in s.pool.agents)
    ensures (id, path) in Apply(s, max, step).pool.locks
  {
    if Enabled(s, max, step) && step.DoRemove? {
      CollectKeepsLocks(s.pool, s.scans[step.j]);
    }
  }

  lemma {:induction false} CollectKeepsLocks(p: Pool, ids: seq<Id>)
    ensures CollectAll(p, ids).locks == p.locks
  {
    if ids == [] {
    } else {
      CollectKeepsLocks(p, ids[..|ids| - 1]);
    }
  }

  /** How an agent was removed never changes, whatever follows: a second caller finds nothing to
      remove, and the agent never returns to the pool. */
  lemma {:induction false} RemovalIsFinal(k: nat, max: nat, steps: seq<Step>, later: seq<Step>, id: Id)
    requires id in Run(k, max, steps).pool.removed
    ensures var removed, end := Run(k, max, steps).pool.removed, Run(k, max, steps + later).pool;
            id in end.removed && end.removed[id] == removed[id] && id !in end.agents
    decreases |later|
  {
    hide Apply, RemovedOnce;
    if later == [] {
      assert steps + later == steps;
      EveryRunRemovesOnce(k, max, steps);
      RemovedIsGone(Run(k, max, steps), id);
    } else {
      var n := |later| - 1;
      assert (steps + later)[..|steps + later| - 1] == steps + later[..n];
      RemovalIsFinal(k, max, steps, later[..n], id);
      EveryRunRemovesOnce(k, max, steps + later[..n]);
      StepKeepsRemoval(Run(k, max, steps + later[..n]), max, later[n], id);
    }
  }

  lemma RemovedIsGone(s: System, id: Id)
    requires RemovedOnce(s) && id in s.pool.removed
    ensures id !in s.pool.agents
  {
  }

  lemma {:induction false} CollectAllKeepsRemoved(p: Pool, ids: seq<Id>, id: Id)
    requires id in p.removed && id !in p.agents
    ensures var q := CollectAll(p, ids);
            id in q.removed && q.removed[id] == p.removed[id] && id !in q.agents
  {
    if ids == [] {
    } else {
      CollectAllKeepsRemoved(p, ids[..|ids| - 1], id);
    }
  }
}
