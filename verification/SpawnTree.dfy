/** The tree of agent processes (apps/cli/src/agent/spawn.rs).

    An agent is live while its metadata file exists.  Spawning a child reads the parent's depth
    first and writes the child's metadata later; in between, any agent may spawn or be cleaned up. */
module SpawnTree {
  import opened Wrappers

  /** Session ids are fresh: they are numbered in the order in which they are generated. */
  type Id = nat

  const MAX_AGENT_DEPTH: nat := 5

  type Metadata = map<Id, Option<Id>>

  /** `pending`: children whose spawn passed the depth check and has not written metadata yet;
      `born`: agents whose metadata was written at some time. */
  datatype Forest = Forest(metadata: Metadata, pending: map<Id, Id>, born: set<Id>, next: Id)

  // ----- depth -----

  /** The depth of a live agent, 0 for a root, counted along links to older agents (all are,
      see `ParentsOlder`).  What a link to a parent that is gone counts for is
      decided by the framework: `dangling` is 0 or 1. */
  ghost function Depth(m: Metadata, id: Id, dangling: nat): nat
    requires id in m
  {
    match m[id]
    case None => 0
    case Some(parent) => if parent in m && parent < id then 1 + Depth(m, parent, dangling) else dangling
  }

  // ----- steps -----

  datatype Step =
    | SpawnRoot
    | CheckChild(parent: Id)
    | WriteChild(child: Id)
    | AbandonChild(child: Id)
    | CleanUp(id: Id)

  /** A child is spawned by an agent that has run, though it may be gone by now; a live parent must
      be above the depth limit. */
  ghost predicate Enabled(f: Forest, dangling: nat, step: Step) {
    match step
    case SpawnRoot => true
    case CheckChild(parent) =>
      parent in f.born && (parent in f.metadata ==> Depth(f.metadata, parent, dangling) < MAX_AGENT_DEPTH)
    case WriteChild(child) => child in f.pending
    case AbandonChild(child) => child in f.pending
    case CleanUp(_) => true
  }

  function Apply(f: Forest, step: Step): Forest {
    match step
    case SpawnRoot =>
      f.(metadata := f.metadata[f.next := None], born := f.born + {f.next}, next := f.next + 1)
    case CheckChild(parent) =>
      f.(pending := f.pending[f.next := parent], next := f.next + 1)
    case WriteChild(child) =>
      if child !in f.pending then f
      else f.(metadata := f.metadata[child := Some(f.pending[child])], pending := f.pending - {child},
              born := f.born + {child})
    case AbandonChild(child) => f.(pending := f.pending - {child})
    case CleanUp(id) => f.(metadata := f.metadata - {id})
  }

  // ----- the invariant -----

  /** Parent links lead to agents with smaller ids, so following them ends. */
  ghost predicate ParentsOlder(m: Metadata) {
    forall id :: id in m && m[id].Some? ==> m[id].value < id
  }

  ghost predicate Consistent(f: Forest) {
    && (forall id :: id in f.born ==> id < f.next && id !in f.pending)
    && f.metadata.Keys <= f.born
    && (forall id :: id in f.metadata && f.metadata[id].Some? ==>
          f.metadata[id].value in f.born && f.metadata[id].value < id)
    && (forall child :: child in f.pending ==>
          child < f.next && f.pending[child] in f.born && f.pending[child] < child)
  }

  ghost predicate DepthsBounded(f: Forest, dangling: nat) {
    && (forall id :: id in f.metadata ==> Depth(f.metadata, id, dangling) <= MAX_AGENT_DEPTH)
    && (forall child :: child in f.pending && f.pending[child] in f.metadata ==>
          Depth(f.metadata, f.pending[child], dangling) < MAX_AGENT_DEPTH)
  }

  ghost predicate Sound(f: Forest, dangling: nat) {
    Consistent(f) && ParentsOlder(f.metadata) && DepthsBounded(f, dangling)
  }

  /** Cleaning up an agent can only bring the others closer to a root. */
  lemma {:induction false} CleanUpShrinksDepth(m: Metadata, gone: Id, id: Id, dangling: nat)
    requires ParentsOlder(m) && id in m && id != gone && dangling <= 1
    ensures ParentsOlder(m - {gone}) && Depth(m - {gone}, id, dangling) <= Depth(m, id, dangling)
    decreases id
  {
    if m[id].Some? && m[id].value in m && m[id].value != gone {
      CleanUpShrinksDepth(m, gone, m[id].value, dangling);
    }
  }

  /** A new agent is nobody's parent yet, so it moves nobody. */
  lemma {:induction false} NewAgentKeepsDepth(m: Metadata, newId: Id, parent: Option<Id>, id: Id, dangling: nat)
    requires ParentsOlder(m) && id in m && newId !in m
    requires parent.Some? ==> parent.value < newId
    requires forall x :: x in m && m[x].Some? ==> m[x].value != newId
    ensures ParentsOlder(m[newId := parent])
    ensures Depth(m[newId := parent], id, dangling) == Depth(m, id, dangling)
    decreases id
  {
    if m[id].Some? && m[id].value in m {
      NewAgentKeepsDepth(m, newId, parent, m[id].value, dangling);
    }
  }

  lemma AddKeepsSound(f: Forest, newId: Id, parent: Option<Id>, dangling: nat)
    requires Sound(f, dangling) && dangling <= 1
    requires newId !in f.born && forall child :: child in f.pending ==> f.pending[child] != newId
    requires parent.Some? ==> parent.value < newId
    requires parent.Some? && parent.value in f.metadata ==> Depth(f.metadata, parent.value, dangling) < MAX_AGENT_DEPTH
    ensures var m := f.metadata[newId := parent];
            ParentsOlder(m) && DepthsBounded(f.(metadata := m), dangling)
  {
    var m := f.metadata[newId := parent];
    forall id | id in f.metadata ensures Depth(m, id, dangling) == Depth(f.metadata, id, dangling) {
      NewAgentKeepsDepth(f.metadata, newId, parent, id, dangling);
    }
  }

  lemma StepKeepsSound(f: Forest, dangling: nat, step: Step)
    requires Sound(f, dangling) && dangling <= 1 && Enabled(f, dangling, step)
    ensures Sound(Apply(f, step), dangling)
  {
    match step {
      case SpawnRoot =>
        AddKeepsSound(f, f.next, None, dangling);
      case CheckChild(parent) =>
      case WriteChild(child) =>
        AddKeepsSound(f, child, Some(f.pending[child]), dangling);
      case AbandonChild(child) =>
      case CleanUp(gone) =>
        forall id | id in f.metadata && id != gone
          ensures ParentsOlder(f.metadata - {gone})
          ensures Depth(f.metadata - {gone}, id, dangling) <= Depth(f.metadata, id, dangling)
        {
          CleanUpShrinksDepth(f.metadata, gone, id, dangling);
        }
    }
  }

  ghost predicate IsRun(run: seq<Forest>, steps: seq<Step>, dangling: nat) {
    && |run| == |steps| + 1 && run[0] == Forest(map[], map[], {}, 0)
    && forall i :: 0 <= i < |steps| ==> Enabled(run[i], dangling, steps[i]) && run[i + 1] == Apply(run[i], steps[i])
  }

  /** In every interleaving of spawns and clean-ups every live agent is at depth at most
      `MAX_AGENT_DEPTH`: the parent's depth may be stale when the child appears, but only too large. */
  lemma {:induction false} DepthNeverExceeded(run: seq<Forest>, steps: seq<Step>, dangling: nat, i: nat)
    requires IsRun(run, steps, dangling) && dangling <= 1 && i < |run|
    ensures Sound(run[i], dangling)
    ensures forall id :: id in run[i].metadata ==> Depth(run[i].metadata, id, dangling) <= MAX_AGENT_DEPTH
  {
    if i == 0 {
    } else {
      DepthNeverExceeded(run, steps, dangling, i - 1);
      StepKeepsSound(run[i - 1], dangling, steps[i - 1]);
    }
  }

  /** That a parent must have had metadata before is needed: a child of an agent that is only about
      to get its own, two levels below one at depth `MAX_AGENT_DEPTH - 1`, ends up too deep. */
  lemma UnbornParentIsTooDeep(f: Forest, parent: Id, dangling: nat)
    requires Sound(f, dangling) && parent in f.pending && f.pending[parent] in f.metadata
    requires Depth(f.metadata, f.pending[parent], dangling) == MAX_AGENT_DEPTH - 1
    ensures var g := Apply(Apply(Apply(f, CheckChild(parent)), WriteChild(parent)), WriteChild(f.next));
            f.next in g.metadata && Depth(g.metadata, f.next, dangling) == MAX_AGENT_DEPTH + 1
  {
    var above, m := f.pending[parent], f.metadata[parent := Some(f.pending[parent])];
    NewAgentKeepsDepth(f.metadata, parent, Some(above), above, dangling);
    assert Depth(m, parent, dangling) == MAX_AGENT_DEPTH;
    NewAgentKeepsDepth(m, f.next, Some(parent), parent, dangling);
    var g := Apply(Apply(Apply(f, CheckChild(parent)), WriteChild(parent)), WriteChild(f.next));
    assert g.metadata == m[f.next := Some(parent)];
  }

  // ----- no cycles -----

  /** `chain` follows parent links upwards. */
  ghost predicate IsChain(m: Metadata, chain: seq<Id>) {
    forall i :: 0 <= i < |chain| - 1 ==> chain[i] in m && m[chain[i]] == Some(chain[i + 1])
  }

  lemma {:induction false} ChainDescends(m: Metadata, chain: seq<Id>, i: nat, j: nat)
    requires ParentsOlder(m) && IsChain(m, chain) && i < j < |chain|
    ensures chain[j] < chain[i]
    decreases j
  {
    assert m[chain[j - 1]] == Some(chain[j - 1 + 1]);
    if i < j - 1 {
      ChainDescends(m, chain, i, j - 1);
    }
  }

  /** Hence no agent is its own ancestor in any reachable forest. */
  lemma NoCycles(run: seq<Forest>, steps: seq<Step>, dangling: nat, i: nat, chain: seq<Id>)
    requires IsRun(run, steps, dangling) && dangling <= 1 && i < |run|
    requires |chain| > 1 && IsChain(run[i].metadata, chain)
    ensures chain[0] != chain[|chain| - 1]
  {
    DepthNeverExceeded(run, steps, dangling, i);
    ChainDescends(run[i].metadata, chain, 0, |chain| - 1);
  }

  // ----- what depth and life mean -----

  /** The depth of an agent is its distance from the root above it. */
  lemma {:induction false} DepthIsDistance(m: Metadata, chain: seq<Id>, dangling: nat)
    requires ParentsOlder(m) && chain != [] && IsChain(m, chain)
    requires chain[|chain| - 1] in m && m[chain[|chain| - 1]] == None
    ensures chain[0] in m && Depth(m, chain[0], dangling) == |chain| - 1
    decreases |chain|
  {
    if |chain| == 1 {
    } else {
      assert m[chain[0]] == Some(chain[0 + 1]);
      forall i | 0 <= i < |chain[1..]| - 1 ensures chain[1..][i] in m && m[chain[1..][i]] == Some(chain[1..][i + 1]) {
        assert m[chain[i + 1]] == Some(chain[i + 1 + 1]);
      }
      DepthIsDistance(m, chain[1..], dangling);
    }
  }

  lemma {:induction false} DepthCoversChain(m: Metadata, chain: seq<Id>, dangling: nat)
    requires ParentsOlder(m) && chain != [] && IsChain(m, chain) && chain[|chain| - 1] in m
    ensures chain[0] in m && Depth(m, chain[0], dangling) >= |chain| - 1
    decreases |chain|
  {
    if |chain| == 1 {
    } else {
      assert m[chain[0]] == Some(chain[0 + 1]);
      forall i | 0 <= i < |chain[1..]| - 1 ensures chain[1..][i] in m && m[chain[1..][i]] == Some(chain[1..][i + 1]) {
        assert m[chain[i + 1]] == Some(chain[i + 1 + 1]);
      }
      DepthCoversChain(m, chain[1..], dangling);
    }
  }

  /** In every reachable forest no line of live agents, each the parent of the one before, is longer
      than six. */
  lemma LinesAreShort(run: seq<Forest>, steps: seq<Step>, dangling: nat, i: nat, chain: seq<Id>)
    requires IsRun(run, steps, dangling) && dangling <= 1 && i < |run|
    requires chain != [] && IsChain(run[i].metadata, chain) && chain[|chain| - 1] in run[i].metadata
    ensures |chain| <= 6
  {
    DepthNeverExceeded(run, steps, dangling, i);
    DepthCoversChain(run[i].metadata, chain, dangling);
  }

  /** An agent that was cleaned up never comes back. */
  lemma {:induction false} GoneForGood(run: seq<Forest>, steps: seq<Step>, dangling: nat, i: nat, j: nat, id: Id)
    requires IsRun(run, steps, dangling) && dangling <= 1 && i < j < |run|
    requires id in run[i].born && steps[i] == CleanUp(id)
    ensures id in run[j].born && id !in run[j].metadata
  {
    hide Depth, DepthsBounded;
    DepthNeverExceeded(run, steps, dangling, j - 1);
    if i == j - 1 {
    } else {
      GoneForGood(run, steps, dangling, i, j - 1, id);
    }
  }

  /** A child whose metadata was written stays live below its parent until it is cleaned up. */
  lemma {:induction false} LivesUntilCleanUp(run: seq<Forest>, steps: seq<Step>, dangling: nat, i: nat, j: nat, id: Id)
    requires IsRun(run, steps, dangling) && dangling <= 1 && i < j < |run|
    requires id in run[i].pending && steps[i] == WriteChild(id)
    requires forall k :: i < k < j ==> steps[k] != CleanUp(id)
    ensures id in run[j].born && id in run[j].metadata && run[j].metadata[id] == Some(run[i].pending[id])
  {
    hide Depth, DepthsBounded;
    DepthNeverExceeded(run, steps, dangling, j - 1);
    if i == j - 1 {
    } else {
      LivesUntilCleanUp(run, steps, dangling, i, j - 1, id);
    }
  }

  // ----- the metadata directory -----

  /** Each method is one atomic access.  `dangling` is the framework's choice, see `Depth`. */
  class Registry {
    const dangling: nat
    var metadata: Metadata
    var next: Id
    ghost var pending: map<Id, Id>
    ghost var born: set<Id>

    ghost function Snapshot(): Forest
      reads this
    {
      Forest(metadata, pending, born, next)
    }

    /** Holds in every reachable forest; live agents are within the depth limit. */
    ghost predicate Valid()
      reads this
    {
      dangling <= 1 && Sound(Snapshot(), dangling)
    }

    constructor (dangling: nat)
      requires dangling <= 1
      ensures Valid() && Snapshot() == Forest(map[], map[], {}, 0) && this.dangling == dangling
    {
      this.dangling := dangling;
      metadata, next := map[], 0;
      pending, born := map[], {};
    }

    method SpawnRootAgent() returns (id: Id)
      requires Valid()
      modifies this
      ensures Valid() && Snapshot() == Apply(old(Snapshot()), SpawnRoot) && id == old(next)
      ensures metadata == old(metadata)[id := None]
    {
      StepKeepsSound(Snapshot(), dangling, SpawnRoot);
      id := next;
      next := next + 1;
      metadata := metadata[id := None];
      born := born + {id};
    }

    /** Follows the parent links of a live agent. */
    method AgentDepth(id: Id) returns (depth: nat)
      requires id in metadata
      ensures depth == Depth(metadata, id, dangling)
    {
      depth := 0;
      var at := id;
      while metadata[at].Some? && metadata[at].value in metadata && metadata[at].value < at
        invariant at in metadata && depth + Depth(metadata, at, dangling) == Depth(metadata, id, dangling)
        decreases at
      {
        depth, at := depth + 1, metadata[at].value;
      }
      if metadata[at].Some? {
        depth := depth + dangling;
      }
    }

    /** The depth check; `whenGone` is what the framework reports for a parent without metadata,
        if not an error. */
    method BeginSpawn(parent: Id, whenGone: Option<nat>) returns (child: Option<Id>)
      requires Valid() && parent in born
      modifies this
      ensures Valid()
      ensures child.Some? <==>
                if parent in old(metadata) then Depth(old(metadata), parent, dangling) < 5
                else whenGone.Some? && whenGone.value < 5
      ensures child.Some? ==>
                && child.value == old(next)
                && Enabled(old(Snapshot()), dangling, CheckChild(parent))
                && Snapshot() == Apply(old(Snapshot()), CheckChild(parent))
      ensures child.None? ==> Snapshot() == old(Snapshot())
    {
      var parentDepth := whenGone;
      if parent in metadata {
        var depth := AgentDepth(parent);
        parentDepth := Some(depth);
      }
      if parentDepth.None? || parentDepth.value >= MAX_AGENT_DEPTH {
        return None;
      }
      StepKeepsSound(Snapshot(), dangling, CheckChild(parent));
      child := Some(next);
      pending := pending[next := parent];
      next := next + 1;
    }

    /** `written`: the child's metadata could be written; `started`: its process then opened its
        socket in time, otherwise the metadata goes again. */
    method FinishSpawn(child: Id, parent: Id, written: bool, started: bool)
      requires Valid() && child in pending && pending[child] == parent
      modifies this
      ensures Valid()
      ensures var f := old(Snapshot());
              var step := if written then WriteChild(child) else AbandonChild(child);
              && Enabled(f, dangling, step)
              && Snapshot() == if written && !started then Apply(Apply(f, step), CleanUp(child)) else Apply(f, step)
      ensures metadata == if written && started then old(metadata)[child := Some(parent)] else old(metadata) - {child}
    {
      StepKeepsSound(Snapshot(), dangling, if written then WriteChild(child) else AbandonChild(child));
      pending := pending - {child};
      if written {
        metadata := metadata[child := Some(parent)];
        born := born + {child};
        if !started {
          CleanupAgent(child);
        }
      }
    }

    method CleanupAgent(id: Id)
      requires Valid()
      modifies this`metadata
      ensures Valid() && Snapshot() == Apply(old(Snapshot()), CleanUp(id))
      ensures metadata == old(metadata) - {id}
    {
      StepKeepsSound(Snapshot(), dangling, CleanUp(id));
      metadata := metadata - {id};
    }
  }
}
