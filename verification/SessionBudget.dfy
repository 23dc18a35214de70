/** Any number of task agents on one session budget (apps/cli/src/agents/task_agent.rs, the budget
    enforcement in `execute`): after each provider call an agent records the tokens, then checks the
    shared total.  Other agents may record between the two. */
module SessionBudget {
  import opened Chat
  import opened AgentProtocol

  datatype Step = Join(cfg: Config, history: seq<Message>) | Act(i: nat, e: Event) | Kill(i: nat)

  datatype Session = Session(cfgs: seq<Config>, agents: seq<State>, recorded: nat)

  /** The budget lets an agent pass only when the recorded total is within the cap. */
  ghost predicate Enabled(cap: nat, s: Session, step: Step) {
    |s.cfgs| == |s.agents| &&
    match step
    case Join(_, _) => true
    case Act(i, e) =>
      i < |s.agents| && Next(s.cfgs[i], s.agents[i], e).Some? && (e == Checked(true) ==> s.recorded <= cap)
    case Kill(i) => i < |s.agents|
  }

  ghost function Apply(cap: nat, s: Session, step: Step): Session
    requires Enabled(cap, s, step)
  {
    match step
    case Join(cfg, history) => s.(cfgs := s.cfgs + [cfg], agents := s.agents + [Initial(history, 0)])
    case Act(i, e) =>
      s.(agents := s.agents[i := Next(s.cfgs[i], s.agents[i], e).value],
         recorded := s.recorded + if e.Recorded? then e.tokens else 0)
    case Kill(i) => s.(agents := s.agents[i := s.agents[i].(phase := Over(Aborted("killed")))])
  }

  ghost predicate IsRun(cap: nat, run: seq<Session>, steps: seq<Step>) {
    && |run| == |steps| + 1 && run[0] == Session([], [], 0)
    && forall i :: 0 <= i < |steps| ==> Enabled(cap, run[i], steps[i]) && run[i + 1] == Apply(cap, run[i], steps[i])
  }

  // ----- one agent -----

  ghost predicate Shaped(s: State) {
    s.lastCall <= s.largestCall && (s.phase.Recording? ==> s.phase.response.tokens == s.lastCall)
  }

  /** Tokens the agent has recorded since it last passed a check. */
  function Unchecked(s: State): nat {
    if s.phase.Checking? || Stopping(s) then s.lastCall else 0
  }

  ghost predicate AgentStep(s: State, e: Event, t: State) {
    && Shaped(t)
    && (e.Recorded? ==> Unchecked(s) == 0 && Unchecked(t) == e.tokens)
    && (!e.Recorded? && e != Checked(true) ==> Unchecked(s) <= Unchecked(t))
  }

  lemma AnswerStep(cfg: Config, s: State, e: Event)
    requires Shaped(s) && Answering(s) && NextAnswer(cfg, s, e).Some?
    ensures AgentStep(s, e, NextAnswer(cfg, s, e).value)
  {
  }

  lemma VerdictStep(cfg: Config, s: State, e: Event)
    requires Shaped(s) && Judging(s) && NextVerdict(cfg, s, e).Some?
    ensures AgentStep(s, e, NextVerdict(cfg, s, e).value)
  {
  }

  lemma ToolStep(cfg: Config, s: State, e: Event)
    requires Shaped(s) && CurrentUses(s) != [] && NextTool(cfg, s, CurrentUses(s), e).Some?
    ensures AgentStep(s, e, NextTool(cfg, s, CurrentUses(s), e).value)
  {
  }

  lemma ExitStep(s: State, e: Event)
    requires Shaped(s) && NextExit(s, e).Some?
    ensures AgentStep(s, e, NextExit(s, e).value)
  {
  }

  lemma NextStep(cfg: Config, s: State, e: Event)
    requires Shaped(s) && Next(cfg, s, e).Some?
    ensures AgentStep(s, e, Next(cfg, s, e).value)
  {
    hide NextAnswer, NextVerdict, NextTool, NextExit, AgentStep;
    if Answering(s) {
      AnswerStep(cfg, s, e);
    } else if Judging(s) {
      VerdictStep(cfg, s, e);
    } else if CurrentUses(s) != [] {
      ToolStep(cfg, s, e);
    } else {
      ExitStep(s, e);
    }
  }

  // ----- sums over agents -----

  ghost function Sum(agents: seq<State>, f: State -> nat): nat {
    if agents == [] then 0 else Sum(agents[..|agents| - 1], f) + f(agents[|agents| - 1])
  }

  lemma {:induction false} SumUpdate(agents: seq<State>, i: nat, s: State, f: State -> nat)
    requires i < |agents|
    ensures Sum(agents[i := s], f) == Sum(agents, f) - f(agents[i]) + f(s)
  {
    var n := |agents| - 1;
    if i == n {
      assert agents[i := s][..n] == agents[..n];
    } else {
      assert agents[i := s][..n] == agents[..n][i := s];
      SumUpdate(agents[..n], i, s, f);
    }
  }

  lemma SumAppend(agents: seq<State>, s: State, f: State -> nat)
    ensures Sum(agents + [s], f) == Sum(agents, f) + f(s)
  {
    assert (agents + [s])[..|agents|] == agents;
  }

  lemma {:induction false} SumMonotone(agents: seq<State>, f: State -> nat, g: State -> nat)
    requires forall i :: 0 <= i < |agents| ==> f(agents[i]) <= g(agents[i])
    ensures Sum(agents, f) <= Sum(agents, g)
  {
    if agents == [] {
    } else {
      SumMonotone(agents[..|agents| - 1], f, g);
    }
  }

  function LargestCall(s: State): nat {
    s.largestCall
  }

  // ----- the session -----

  ghost predicate AllShaped(agents: seq<State>) {
    forall i :: 0 <= i < |agents| ==> Shaped(agents[i])
  }

  /** The total exceeds the cap by no more than what was recorded and not checked since. */
  ghost predicate Bounded(cap: nat, s: Session) {
    AllShaped(s.agents) && s.recorded <= cap + Sum(s.agents, Unchecked)
  }

  lemma StepKeepsBound(cap: nat, s: Session, step: Step)
    requires Bounded(cap, s) && Enabled(cap, s, step)
    ensures Bounded(cap, Apply(cap, s, step))
  {
    hide Next, Unchecked, Shaped;
    match step {
      case Join(cfg, history) =>
        InitialIsShaped(history);
        SumAppend(s.agents, Initial(history, 0), Unchecked);
      case Act(i, e) =>
        NextStep(s.cfgs[i], s.agents[i], e);
        SumUpdate(s.agents, i, Next(s.cfgs[i], s.agents[i], e).value, Unchecked);
      case Kill(i) =>
        KilledIsShaped(s.agents[i]);
        SumUpdate(s.agents, i, s.agents[i].(phase := Over(Aborted("killed"))), Unchecked);
    }
  }

  lemma InitialIsShaped(history: seq<Message>)
    ensures Shaped(Initial(history, 0)) && Unchecked(Initial(history, 0)) == 0
  {
  }

  lemma KilledIsShaped(s: State)
    requires Shaped(s)
    ensures var t := s.(phase := Over(Aborted("killed")));
            Shaped(t) && Unchecked(s) <= Unchecked(t)
  {
  }

  lemma {:induction false} RunsAreBounded(cap: nat, run: seq<Session>, steps: seq<Step>, n: nat)
    requires IsRun(cap, run, steps) && n < |run|
    ensures Bounded(cap, run[n])
  {
    hide Next;
    if n == 0 {
    } else {
      RunsAreBounded(cap, run, steps, n - 1);
      StepKeepsBound(cap, run[n - 1], steps[n - 1]);
    }
  }

  /** In every interleaving the recorded total exceeds the cap by at most one call per agent ever
      started: the sum of their largest calls. */
  lemma OvershootBounded(cap: nat, run: seq<Session>, steps: seq<Step>, n: nat)
    requires IsRun(cap, run, steps) && n < |run|
    ensures run[n].recorded <= cap + Sum(run[n].agents, LargestCall)
  {
    RunsAreBounded(cap, run, steps, n);
    var agents := run[n].agents;
    forall i | 0 <= i < |agents| ensures Unchecked(agents[i]) <= LargestCall(agents[i]) {
      assert Shaped(agents[i]);
    }
    SumMonotone(agents, Unchecked, LargestCall);
  }

  /** The total is what all agents together have reported so far. */
  ghost function Reported(steps: seq<Step>): nat {
    if steps == [] then 0
    else
      var last := steps[|steps| - 1];
      Reported(steps[..|steps| - 1]) + if last.Act? && last.e.Recorded? then last.e.tokens else 0
  }

  lemma {:induction false} TotalIsReported(cap: nat, run: seq<Session>, steps: seq<Step>, n: nat)
    requires IsRun(cap, run, steps) && n < |run|
    ensures run[n].recorded == Reported(steps[..n])
  {
    hide Next;
    if n == 0 {
    } else {
      TotalIsReported(cap, run, steps, n - 1);
      assert steps[..n][..n - 1] == steps[..n - 1];
    }
  }

  // ----- after a failed check -----

  lemma StoppedStaysStopped(cfg: Config, s: State, e: Event)
    requires Stopping(s) && Next(cfg, s, e).Some?
    ensures Stopping(Next(cfg, s, e).value) && !e.Called? && !e.CallFailed? && !e.Recorded?
  {
    hide NextAnswer, NextVerdict, NextTool;
  }

  lemma FailedCheckStops(cfg: Config, s: State)
    requires Next(cfg, s, Checked(false)).Some?
    ensures Stopping(Next(cfg, s, Checked(false)).value)
  {
    if !Judging(s) {
      OnlyJudgesCheck(cfg, s);
    }
    hide NextAnswer, NextTool, NextExit;
  }

  lemma OnlyJudgesCheck(cfg: Config, s: State)
    requires !Judging(s)
    ensures Next(cfg, s, Checked(false)).None?
  {
  }

  /** An agent that failed a check never asks the provider or records tokens again. */
  lemma {:induction false} FailedCheckIsLast(cfg: Config, start: State, log: seq<Event>, i: nat)
    requires After(cfg, start, log).Some? && i < |log| && log[i] == Checked(false)
    ensures Stopping(After(cfg, start, log).value)
    ensures forall j :: i < j < |log| ==> !log[j].Called? && !log[j].CallFailed? && !log[j].Recorded?
  {
    hide Next, Stopping;
    var n := |log| - 1;
    var before := After(cfg, start, log[..n]).value;
    if i == n {
      FailedCheckStops(cfg, before);
    } else {
      FailedCheckIsLast(cfg, start, log[..n], i);
      StoppedStaysStopped(cfg, before, log[n]);
      forall j | i < j < n ensures log[j] == log[..n][j] {}
    }
  }
}
