/** Subtask evaluation in MDAP mode (apps/cli/src/agents/orchestrator.rs, `execute_mdap`).

    The orchestrator walks the subtasks in some dependency order, feeds each one the values of
    its successful dependencies, and collects the winners in a map.  `Eval` below is what that
    loop is meant to compute: a recursive evaluation of the dependency graph that knows nothing
    about the order of the walk. */
module Mdap {
  import opened Wrappers

  datatype Json = Null | Scalar(text: string) | Object(fields: map<string, Json>)

  datatype Subtask = Subtask(id: string, dependsOn: seq<string>, inputState: Json)

  /** The voter: `None` when no answer wins. */
  type Voter = (Subtask, Json) -> Option<Json>
  type Results = map<string, Json>

  datatype Outcome =
    | Done(results: Results, failedSteps: nat)
    | SubtaskFailed(id: string)
    | Panicked(id: string)

  // ----- the input of one subtask -----

  function Fields(state: Json): map<string, Json>
    requires !state.Scalar?
  {
    if state.Null? then map[] else state.fields
  }

  function Put(state: Json, key: string, value: Json): Json
    requires !state.Scalar?
  {
    Object(Fields(state)[key := value])
  }

  /** A subtask's own state, overridden by the values of those dependencies that have one.  Indexed
      assignment needs an object, or a null which it turns into one; any other state panics. */
  function InputFor(s: Subtask, results: Results): (input: Option<Json>)
    ensures input.None? <==> s.inputState.Scalar? && exists d :: d in s.dependsOn && d in results
  {
    var won := map d | d in s.dependsOn && d in results :: results[d];
    assert forall d :: d in won <==> d in s.dependsOn && d in results;
    assert won != map[] ==> exists d :: d in won;
    if won == map[] then Some(s.inputState)
    else if s.inputState.Scalar? then None
    else Some(Object(Fields(s.inputState) + won))
  }

  /** One more dependency adds at most its own entry. */
  lemma InputExtends(s: Subtask, results: Results, k: nat)
    requires k < |s.dependsOn|
    ensures var before := InputFor(s.(dependsOn := s.dependsOn[..k]), results);
            var after := InputFor(s.(dependsOn := s.dependsOn[..k + 1]), results);
            var d := s.dependsOn[k];
            after == if before.None? || d !in results then before
                     else if before.value.Scalar? then None
                     else Some(Put(before.value, d, results[d]))
  {
    var d := s.dependsOn[k];
    var old_ := map x | x in s.dependsOn[..k] && x in results :: results[x];
    var new_ := map x | x in s.dependsOn[..k + 1] && x in results :: results[x];
    assert s.dependsOn[..k + 1] == s.dependsOn[..k] + [d];
    if d in results {
      assert d in new_;
      assert new_ == old_[d := results[d]];
      if !s.inputState.Scalar? {
        assert Fields(s.inputState) + new_ == (Fields(s.inputState) + old_)[d := results[d]];
        if old_ == map[] {
          assert Fields(s.inputState) + old_ == Fields(s.inputState);
        }
      }
    } else {
      assert new_ == old_;
    }
  }

  /** `None` when an assignment panics. */
  method GatherInput(s: Subtask, results: Results) returns (gathered: Option<Json>)
    ensures gathered == InputFor(s, results)
  {
    var input := s.inputState;
    for k := 0 to |s.dependsOn|
      invariant Some(input) == InputFor(s.(dependsOn := s.dependsOn[..k]), results)
    {
      InputExtends(s, results, k);
      if s.dependsOn[k] in results {
        if input.Scalar? {
          assert s.dependsOn[k] in s.dependsOn;
          return None;
        }
        input := Put(input, s.dependsOn[k], results[s.dependsOn[k]]);
      }
    }
    assert s.dependsOn[..|s.dependsOn|] == s.dependsOn;
    gathered := Some(input);
  }

  /** The value of a subtask, given those of others; none if it cannot run. */
  function Run(s: Subtask, results: Results, vote: Voter): Option<Json> {
    var input := InputFor(s, results);
    if input.None? then None else vote(s, input.value)
  }

  /** Only the entries of its dependencies matter to a subtask. */
  lemma InputDependsOnDependencies(s: Subtask, r1: Results, r2: Results)
    requires forall d :: d in s.dependsOn ==> (d in r1 <==> d in r2) && (d in r1 ==> r1[d] == r2[d])
    ensures InputFor(s, r1) == InputFor(s, r2)
  {
    assert (map d | d in s.dependsOn && d in r1 :: r1[d]) == (map d | d in s.dependsOn && d in r2 :: r2[d]);
  }

  // ----- recursive evaluation of the dependency graph -----

  type Graph = map<string, Subtask>

  ghost predicate WellFormed(g: Graph) {
    forall id :: id in g ==> g[id].id == id
  }

  /** A certificate that the graph has no cycle: dependencies rank below their dependents. */
  ghost predicate Ranked(g: Graph, rank: map<string, nat>) {
    && g.Keys <= rank.Keys
    && forall id, d :: id in g && d in g[id].dependsOn && d in g ==> rank[d] < rank[id]
  }

  ghost function Eval(g: Graph, rank: map<string, nat>, vote: Voter, id: string): Option<Json>
    requires WellFormed(g) && Ranked(g, rank) && id in g
    decreases rank[id]
  {
    var deps := map d | d in g[id].dependsOn && d in g && Eval(g, rank, vote, d).Some?
                     :: Eval(g, rank, vote, d).value;
    Run(g[id], deps, vote)
  }

  /** The values of all subtasks that succeed. */
  ghost function Evaluation(g: Graph, rank: map<string, nat>, vote: Voter): Results
    requires WellFormed(g) && Ranked(g, rank)
  {
    map id | id in g && Eval(g, rank, vote, id).Some? :: Eval(g, rank, vote, id).value
  }

  /** The certificate of acyclicity does not influence the evaluation. */
  lemma {:induction false} EvalIgnoresRank(g: Graph, r1: map<string, nat>, r2: map<string, nat>,
                                           vote: Voter, id: string)
    requires WellFormed(g) && Ranked(g, r1) && Ranked(g, r2) && id in g
    ensures Eval(g, r1, vote, id) == Eval(g, r2, vote, id)
    decreases r1[id]
  {
    forall d | d in g[id].dependsOn && d in g
      ensures Eval(g, r1, vote, d) == Eval(g, r2, vote, d)
    {
      EvalIgnoresRank(g, r1, r2, vote, d);
    }
    var d1 := map d | d in g[id].dependsOn && d in g && Eval(g, r1, vote, d).Some? :: Eval(g, r1, vote, d).value;
    var d2 := map d | d in g[id].dependsOn && d in g && Eval(g, r2, vote, d).Some? :: Eval(g, r2, vote, d).value;
    assert d1 == d2;
  }

  // ----- dependency orders -----

  ghost predicate UniqueIds(ts: seq<Subtask>) {
    forall i, j :: 0 <= i < j < |ts| ==> ts[i].id != ts[j].id
  }

  /** Every dependency that is itself in the list comes earlier. */
  ghost predicate Respects(ts: seq<Subtask>) {
    forall i, j :: 0 <= i < |ts| && 0 <= j < |ts| && ts[j].id in ts[i].dependsOn ==> j < i
  }

  ghost predicate Schedulable(ts: seq<Subtask>) {
    UniqueIds(ts) && Respects(ts)
  }

  /** The ids of the first `k` subtasks. */
  ghost function Ids(ts: seq<Subtask>, k: nat): set<string>
    requires k <= |ts|
  {
    if k == 0 then {} else Ids(ts, k - 1) + {ts[k - 1].id}
  }

  lemma IdsAreIds(ts: seq<Subtask>, k: nat)
    requires k <= |ts|
    ensures forall id :: id in Ids(ts, k) <==> exists i :: 0 <= i < k && ts[i].id == id
  {
  }

  ghost function GraphOf(ts: seq<Subtask>): (g: Graph)
    requires UniqueIds(ts)
    ensures forall i :: 0 <= i < |ts| ==> ts[i].id in g && g[ts[i].id] == ts[i]
    ensures forall id :: id in g ==> g[id] in ts && g[id].id == id
  {
    map s | s in ts :: s.id := s
  }

  ghost function Position(ts: seq<Subtask>): (rank: map<string, nat>)
    requires UniqueIds(ts)
    ensures forall i :: 0 <= i < |ts| ==> ts[i].id in rank && rank[ts[i].id] == i
    ensures rank.Keys == GraphOf(ts).Keys
  {
    map i | 0 <= i < |ts| :: ts[i].id := i
  }

  lemma PositionRanks(ts: seq<Subtask>)
    requires Schedulable(ts)
    ensures WellFormed(GraphOf(ts)) && Ranked(GraphOf(ts), Position(ts))
  {
    var g, rank := GraphOf(ts), Position(ts);
    forall id, d | id in g && d in g[id].dependsOn && d in g
      ensures rank[d] < rank[id]
    {
      var i :| 0 <= i < |ts| && ts[i] == g[id];
      var j :| 0 <= j < |ts| && ts[j] == g[d];
    }
  }

  /** What a walk in the order `ts` stands for. */
  ghost function Meaning(ts: seq<Subtask>, vote: Voter): Results
    requires Schedulable(ts)
  {
    PositionRanks(ts);
    Evaluation(GraphOf(ts), Position(ts), vote)
  }

  lemma SameGraph(ts: seq<Subtask>, us: seq<Subtask>)
    requires UniqueIds(ts) && UniqueIds(us) && multiset(ts) == multiset(us)
    ensures GraphOf(ts) == GraphOf(us)
  {
    forall s ensures s in ts <==> s in us {
      assert s in multiset(ts) <==> s in multiset(us);
    }
  }

  lemma EvaluationIgnoresRank(g: Graph, r1: map<string, nat>, r2: map<string, nat>, vote: Voter)
    requires WellFormed(g) && Ranked(g, r1) && Ranked(g, r2)
    ensures Evaluation(g, r1, vote) == Evaluation(g, r2, vote)
  {
    hide Eval;
    forall id | id in g ensures Eval(g, r1, vote, id) == Eval(g, r2, vote, id) {
      EvalIgnoresRank(g, r1, r2, vote, id);
    }
  }

  /** Any two dependency orders of the same subtasks mean the same results. */
  lemma OrderIrrelevant(ts: seq<Subtask>, us: seq<Subtask>, vote: Voter)
    requires Schedulable(ts) && Schedulable(us)
    requires multiset(ts) == multiset(us)
    ensures Meaning(ts, vote) == Meaning(us, vote)
  {
    PositionRanks(ts);
    PositionRanks(us);
    SameGraph(ts, us);
    EvaluationIgnoresRank(GraphOf(ts), Position(ts), Position(us), vote);
  }

  // ----- the loop -----

  ghost predicate Agrees(meaning: Results, s: Subtask, vote: Voter) {
    Run(s, meaning, vote) == if s.id in meaning then Some(meaning[s.id]) else None
  }

  /** `meaning` holds exactly the subtasks whose vote succeeds on the inputs it provides. */
  ghost predicate Solves(meaning: Results, ts: seq<Subtask>, vote: Voter) {
    && (forall i :: 0 <= i < |ts| ==> Agrees(meaning, ts[i], vote))
    && meaning.Keys <= Ids(ts, |ts|)
  }

  lemma MeaningSolves(ts: seq<Subtask>, vote: Voter)
    requires Schedulable(ts)
    ensures Solves(Meaning(ts, vote), ts, vote)
  {
    PositionRanks(ts);
    var g, rank, meaning := GraphOf(ts), Position(ts), Meaning(ts, vote);
    forall i | 0 <= i < |ts|
      ensures Agrees(meaning, ts[i], vote)
    {
      var deps := map d | d in ts[i].dependsOn && d in g && Eval(g, rank, vote, d).Some?
                       :: Eval(g, rank, vote, d).value;
      InputDependsOnDependencies(ts[i], meaning, deps);
      assert Eval(g, rank, vote, ts[i].id) == Run(ts[i], deps, vote);
    }
    IdsAreIds(ts, |ts|);
    forall id | id in meaning ensures exists i :: 0 <= i < |ts| && ts[i].id == id {
      assert g[id] in ts;
    }
  }

  /** `results` is `meaning` restricted to the first `k` subtasks. */
  ghost predicate Covers(results: Results, ts: seq<Subtask>, meaning: Results, k: nat)
    requires k <= |ts|
  {
    && (forall i :: 0 <= i < k ==>
          (ts[i].id in results <==> ts[i].id in meaning)
          && (ts[i].id in results ==> results[ts[i].id] == meaning[ts[i].id]))
    && results.Keys <= Ids(ts, k)
  }

  /** With everything before `k` covered, subtask `k` gets the input and the value it has in `meaning`. */
  lemma VoteIsFinal(results: Results, ts: seq<Subtask>, vote: Voter, meaning: Results, k: nat)
    requires Schedulable(ts) && Solves(meaning, ts, vote) && k < |ts| && Covers(results, ts, meaning, k)
    ensures InputFor(ts[k], results) == InputFor(ts[k], meaning)
    ensures Run(ts[k], results, vote) ==
            if ts[k].id in meaning then Some(meaning[ts[k].id]) else None
  {
    IdsAreIds(ts, |ts|);
    IdsAreIds(ts, k);
    forall d | d in ts[k].dependsOn
      ensures (d in results <==> d in meaning) && (d in results ==> results[d] == meaning[d])
    {
      if d in meaning {
        var j :| 0 <= j < |ts| && ts[j].id == d;
        assert j < k;
      }
    }
    InputDependsOnDependencies(ts[k], results, meaning);
    assert Agrees(meaning, ts[k], vote);
  }

  lemma CoverStep(results: Results, ts: seq<Subtask>, meaning: Results, k: nat)
    requires UniqueIds(ts) && k < |ts| && Covers(results, ts, meaning, k)
    ensures ts[k].id !in results
    ensures ts[k].id in meaning ==> Covers(results[ts[k].id := meaning[ts[k].id]], ts, meaning, k + 1)
    ensures ts[k].id !in meaning ==> Covers(results, ts, meaning, k + 1)
  {
    IdsAreIds(ts, k);
  }

  lemma FullCover(results: Results, ts: seq<Subtask>, vote: Voter, meaning: Results)
    requires Schedulable(ts) && Solves(meaning, ts, vote) && Covers(results, ts, meaning, |ts|)
    ensures results == meaning
  {
    IdsAreIds(ts, |ts|);
  }

  // ----- what the results mean to each subtask -----

  /** `x` is what a subtask must be voted on: its own state when no dependency has a result, and
      otherwise an object with the dependencies' results over the fields of its own state. */
  ghost predicate IsInput(s: Subtask, results: Results, x: Json) {
    if forall d :: d in s.dependsOn ==> d !in results then x == s.inputState
    else
      && x.Object? && !s.inputState.Scalar?
      && (forall d :: d in s.dependsOn && d in results ==> d in x.fields && x.fields[d] == results[d])
      && forall key :: !(key in s.dependsOn && key in results) ==>
           if s.inputState.Object? && key in s.inputState.fields
           then key in x.fields && x.fields[key] == s.inputState.fields[key] else key !in x.fields
  }

  lemma InputIsInput(s: Subtask, results: Results)
    requires InputFor(s, results).Some?
    ensures IsInput(s, results, InputFor(s, results).value)
  {
    var won := map d | d in s.dependsOn && d in results :: results[d];
    assert forall d :: d in won <==> d in s.dependsOn && d in results;
    assert won == map[] <==> forall d :: d in s.dependsOn ==> d !in results;
  }

  /** Subtask `s`, voted on its input, has the result that is recorded, or none. */
  ghost predicate Explained(s: Subtask, results: Results, vote: Voter) {
    exists x :: IsInput(s, results, x)
                && vote(s, x) == if s.id in results then Some(results[s.id]) else None
  }

  lemma SolvedIsExplained(s: Subtask, meaning: Results, vote: Voter)
    requires Agrees(meaning, s, vote) && InputFor(s, meaning).Some?
    ensures Explained(s, meaning, vote)
  {
    InputIsInput(s, meaning);
  }

  /** Subtask `s` ends the walk: its input panics, or it fails and failures are not tolerated. */
  ghost predicate Ends(s: Subtask, meaning: Results, failFast: bool) {
    InputFor(s, meaning).None? || (failFast && s.id !in meaning)
  }

  ghost predicate EndsFirst(ts: seq<Subtask>, i: int, meaning: Results, failFast: bool) {
    0 <= i < |ts| && Ends(ts[i], meaning, failFast) && forall j :: 0 <= j < i ==> !Ends(ts[j], meaning, failFast)
  }

  /** The subtask loop: unless a subtask ends it, its map is the recursive evaluation and every other
      subtask is counted as failed, each having been voted on its own state overridden by the results
      of its dependencies; otherwise the outcome is that of the first subtask that ends it. */
  method ExecuteSubtasks(ts: seq<Subtask>, vote: Voter, failFast: bool) returns (outcome: Outcome)
    requires Schedulable(ts)
    ensures var meaning := Meaning(ts, vote);
            match outcome
            case Done(results, failedSteps) =>
              && results == meaning && failedSteps == |ts| - |results|
              && results.Keys <= Ids(ts, |ts|)
              && forall i :: 0 <= i < |ts| ==> Explained(ts[i], results, vote) && !Ends(ts[i], meaning, failFast)
            case Panicked(id) =>
              exists i :: EndsFirst(ts, i, meaning, failFast) && ts[i].id == id && InputFor(ts[i], meaning).None?
            case SubtaskFailed(id) =>
              exists i :: EndsFirst(ts, i, meaning, failFast) && ts[i].id == id && InputFor(ts[i], meaning).Some?
  {
    ghost var meaning := Meaning(ts, vote);
    MeaningSolves(ts, vote);
    var results: Results := map[];
    var failedSteps := 0;
    for k := 0 to |ts|
      invariant Covers(results, ts, meaning, k)
      invariant failedSteps == k - |results|
      invariant forall i :: 0 <= i < k ==> !Ends(ts[i], meaning, failFast)
    {
      VoteIsFinal(results, ts, vote, meaning, k);
      CoverStep(results, ts, meaning, k);
      var input := GatherInput(ts[k], results);
      if input.None? {
        assert EndsFirst(ts, k, meaning, failFast);
        return Panicked(ts[k].id);
      }
      var verdict := vote(ts[k], input.value);
      match verdict {
        case Some(winner) =>
          results := results[ts[k].id := winner];
        case None =>
          failedSteps := failedSteps + 1;
          if failFast {
            assert EndsFirst(ts, k, meaning, failFast);
            return SubtaskFailed(ts[k].id);
          }
      }
    }
    FullCover(results, ts, vote, meaning);
    forall i | 0 <= i < |ts| ensures Explained(ts[i], results, vote) {
      assert !Ends(ts[i], meaning, failFast) && Agrees(meaning, ts[i], vote);
      SolvedIsExplained(ts[i], meaning, vote);
    }
    outcome := Done(results, failedSteps);
  }

  lemma EndIsShared(ts: seq<Subtask>, us: seq<Subtask>, meaning: Results, failFast: bool)
    requires multiset(ts) == multiset(us)
    requires exists i :: 0 <= i < |ts| && Ends(ts[i], meaning, failFast)
    ensures exists i :: 0 <= i < |us| && Ends(us[i], meaning, failFast)
  {
    hide Ends;
    var i :| 0 <= i < |ts| && Ends(ts[i], meaning, failFast);
    assert ts[i] in multiset(us);
    var j :| 0 <= j < |us| && us[j] == ts[i];
    assert Ends(us[j], meaning, failFast);
  }

  /** Whether the walk is ended at all does not depend on the order either. */
  lemma EndIsOrderIrrelevant(ts: seq<Subtask>, us: seq<Subtask>, vote: Voter, failFast: bool)
    requires Schedulable(ts) && Schedulable(us) && multiset(ts) == multiset(us)
    ensures (exists i :: 0 <= i < |ts| && Ends(ts[i], Meaning(ts, vote), failFast)) <==>
            (exists i :: 0 <= i < |us| && Ends(us[i], Meaning(us, vote), failFast))
  {
    hide Ends, Meaning, Schedulable;
    OrderIrrelevant(ts, us, vote);
    var meaning := Meaning(ts, vote);
    if exists i :: 0 <= i < |ts| && Ends(ts[i], meaning, failFast) {
      EndIsShared(ts, us, meaning, failFast);
    }
    if exists i :: 0 <= i < |us| && Ends(us[i], meaning, failFast) {
      EndIsShared(us, ts, meaning, failFast);
    }
  }
}
