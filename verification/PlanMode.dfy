/** Plan mode (apps/cli/src/agent/plan_mode.rs): the agent swaps its conversation for an isolated
    planning transcript and restores it on exit, while storage may fail at any step. */
module PlanMode {
  import opened Wrappers
  import opened Chat
  import opened Utf8

  datatype Display = Display(role: string, content: string)

  datatype PlanState = PlanState(messages: seq<Display>, history: seq<Message>, focus: Option<string>, active: bool)

  datatype MainContext = MainContext(messages: seq<Display>, history: seq<Message>, status: string)

  /** `stored` holds every plan state that was ever saved successfully. */
  datatype View = View(
    live: MainContext,
    isPlanMode: bool,
    plan: Option<PlanState>,
    saved: Option<MainContext>,
    stored: set<PlanState>)

  datatype Reply = Entered | Exited(summary: Option<string>) | Refused | StorageFailed | Panicked | Done

  /** The text of the plan-mode system prompt for a focus. */
  type Prompt = Option<string> -> string

  // ----- reference semantics of the steps -----

  function NonSystem(h: seq<Message>): seq<Message> {
    if h == [] then []
    else (if h[0].role.System? then [] else [h[0]]) + NonSystem(h[1..])
  }

  function SystemOnly(h: seq<Message>): seq<Message> {
    if h == [] then []
    else (if h[0].role.System? then [h[0]] else []) + SystemOnly(h[1..])
  }

  function PlanHistory(prompt: Prompt, p: PlanState): seq<Message> {
    [Message(System, Plain(prompt(p.focus)))] + p.history
  }

  function FocusText(focus: Option<string>): string {
    if focus.Some? then focus.value else "general planning"
  }

  function Resume(found: Option<PlanState>, focus: Option<string>): PlanState {
    if found.Some? then found.value.(active := true, focus := if focus.Some? then focus else found.value.focus)
    else PlanState([], [], focus, true)
  }

  function EnterView(v: View, prompt: Prompt, focus: Option<string>, opens: bool,
                     found: Option<PlanState>, saves: bool): View
  {
    if v.isPlanMode then v
    else if !opens then v.(saved := Some(v.live))
    else
      var p := Resume(found, focus);
      View(MainContext(p.messages, PlanHistory(prompt, p), "Plan Mode - Focus: " + FocusText(focus)),
           true, Some(p), Some(v.live), if saves then v.stored + {p} else v.stored)
  }

  /** The plan state as written back on exit. */
  function Closed(v: View): PlanState
    requires v.plan.Some?
  {
    v.plan.value.(messages := v.live.messages, history := NonSystem(v.live.history), active := false)
  }

  /** The last long assistant message, from the end. */
  function LastLongAnswer(messages: seq<Display>): Option<string> {
    if messages == [] then None
    else
      var last := messages[|messages| - 1];
      if last.role == "assistant" && Bytes(last.content) > 100 then Some(last.content)
      else LastLongAnswer(messages[..|messages| - 1])
  }

  predicate Occurs(part: string, text: string) {
    exists i :: 0 <= i <= |text| && part <= text[i..]
  }

  predicate LooksLikePlan(text: string) {
    '#' in text || Occurs("- ", text) || Occurs("1.", text)
  }

  /** Leaving cuts a plan-like answer after 500 bytes, which panics inside a character. */
  predicate SummaryPanics(messages: seq<Display>) {
    var answer := LastLongAnswer(messages);
    answer.Some? && LooksLikePlan(answer.value) && Splits(answer.value, 500)
  }

  function Summary(messages: seq<Display>): Option<string>
    requires !SummaryPanics(messages)
  {
    var answer := LastLongAnswer(messages);
    if answer.None? || !LooksLikePlan(answer.value) then None
    else if Bytes(answer.value) > 500 then Some(Cut(answer.value, 500).value + "...")
    else answer
  }

  // ----- what a summary is -----

  /** Message `i` is the last one of the assistant with more than 100 bytes. */
  ghost predicate IsLastLong(messages: seq<Display>, i: int) {
    && 0 <= i < |messages| && messages[i].role == "assistant" && Bytes(messages[i].content) > 100
    && forall j :: i < j < |messages| ==> !(messages[j].role == "assistant" && Bytes(messages[j].content) > 100)
  }

  /** The text has a heading or a list in it. */
  ghost predicate IsPlan(text: string) {
    || (exists i :: 0 <= i < |text| && text[i] == '#')
    || (exists i :: 0 <= i < |text| - 1 && text[i] == '-' && text[i + 1] == ' ')
    || (exists i :: 0 <= i < |text| - 1 && text[i] == '1' && text[i + 1] == '.')
  }

  /** The last long answer if it is a plan, cut after exactly 500 bytes if it has more. */
  ghost predicate IsSummary(messages: seq<Display>, summary: Option<string>) {
    match summary
    case None => forall i :: IsLastLong(messages, i) ==> !IsPlan(messages[i].content)
    case Some(text) =>
      exists i :: IsLastLong(messages, i) && IsPlan(messages[i].content)
        && var content := messages[i].content;
        if Bytes(content) <= 500 then text == content
        else exists k :: 0 <= k <= |content| && Bytes(content[..k]) == 500 && text == content[..k] + "..."
  }

  /** A character stands across byte 500 of the plan. */
  ghost predicate CannotSummarize(messages: seq<Display>) {
    exists i :: IsLastLong(messages, i) && IsPlan(messages[i].content)
      && var content := messages[i].content;
      exists k :: 0 <= k < |content| && Bytes(content[..k]) < 500 < Bytes(content[..k]) + Width(content[k])
  }

  lemma {:induction false} LastLongIs(messages: seq<Display>)
    ensures match LastLongAnswer(messages)
            case None => forall i :: !IsLastLong(messages, i)
            case Some(content) =>
              exists i :: 0 <= i < |messages| && IsLastLong(messages, i) && messages[i].content == content
  {
    if messages == [] {
    } else {
      var n := |messages| - 1;
      LastLongIs(messages[..n]);
      var last := messages[n];
      if last.role == "assistant" && Bytes(last.content) > 100 {
        assert IsLastLong(messages, n);
      } else {
        forall i ensures IsLastLong(messages, i) <==> IsLastLong(messages[..n], i) {
        }
      }
    }
  }

  lemma OneLastLong(messages: seq<Display>, i: int, j: int)
    requires IsLastLong(messages, i) && IsLastLong(messages, j)
    ensures i == j
  {
  }

  lemma PlanIsPlan(text: string)
    ensures LooksLikePlan(text) <==> IsPlan(text)
  {
    OccursTwo("- ", text);
    OccursTwo("1.", text);
  }

  lemma OccursTwo(part: string, text: string)
    requires |part| == 2
    ensures Occurs(part, text) <==> exists i :: 0 <= i < |text| - 1 && text[i] == part[0] && text[i + 1] == part[1]
  {
    if Occurs(part, text) {
      var i :| 0 <= i <= |text| && part <= text[i..];
      assert text[i..][0] == text[i] && text[i..][1] == text[i + 1];
    }
    if i :| 0 <= i < |text| - 1 && text[i] == part[0] && text[i + 1] == part[1] {
      assert part <= text[i..];
    }
  }

  lemma SummaryIsSummary(messages: seq<Display>)
    ensures SummaryPanics(messages) <==> CannotSummarize(messages)
    ensures !SummaryPanics(messages) ==> IsSummary(messages, Summary(messages))
  {
    hide LooksLikePlan, IsPlan, IsLastLong, LastLongAnswer;
    LastLongIs(messages);
    if LastLongAnswer(messages).Some? {
      var content := LastLongAnswer(messages).value;
      var i :| 0 <= i < |messages| && IsLastLong(messages, i) && messages[i].content == content;
      forall j | IsLastLong(messages, j) ensures j == i {
        OneLastLong(messages, i, j);
      }
      PlanIsPlan(content);
      SplitsIff(content, 500);
      CutsAt(content, 500);
    }
  }

  /** A cut that succeeds is the prefix with that many bytes; one inside a character lies inside the text. */
  lemma CutsAt(text: string, n: nat)
    ensures n < Bytes(text) && !Splits(text, n) ==>
              && Cut(text, n).Some?
              && exists k :: 0 <= k <= |text| && Bytes(text[..k]) == n && Cut(text, n).value == text[..k]
  {
    if n < Bytes(text) && !Splits(text, n) {
      CutIsPrefix(text, n);
      var k := |Cut(text, n).value|;
      assert text[..k] == Cut(text, n).value;
    }
  }

  function ExitView(v: View, model: string, opens: bool, saves: bool): View {
    if !v.isPlanMode then v
    else
      var w := if v.plan.None? then v else v.(plan := Some(Closed(v)));
      if v.plan.Some? && !opens then w
      else
        var x := w.(stored := if v.plan.Some? && saves then v.stored + {Closed(v)} else v.stored);
        if SummaryPanics(v.live.messages) then x
        else x.(
          live := if v.saved.Some? then v.saved.value else v.live.(status := "Ready - Model: " + model),
          saved := None,
          isPlanMode := false)
  }

  function ExitReply(v: View, opens: bool): Reply {
    if !v.isPlanMode then Refused
    else if v.plan.Some? && !opens then StorageFailed
    else if SummaryPanics(v.live.messages) then Panicked
    else Exited(Summary(v.live.messages))
  }

  function Say(v: View, role: Role, name: string, text: string): View {
    var d, m := Display(name, text), Message(role, Plain(text));
    v.(live := v.live.(messages := v.live.messages + [d], history := v.live.history + [m]),
       plan := if v.plan.None? then None
               else Some(v.plan.value.(messages := v.plan.value.messages + [d], history := v.plan.value.history + [m])))
  }

  function InputView(v: View, content: string, answer: string): View {
    if !v.isPlanMode then v
    else
      var asked := Say(v, User, "user", content);
      if answer == "" then asked else Say(asked, Assistant, "assistant", answer)
  }

  function ClearView(v: View, opens: bool, saves: bool): View {
    var w := if v.plan.None? then v else v.(plan := Some(v.plan.value.(messages := [], history := [])));
    if v.plan.Some? && !opens then w
    else
      var x := if v.plan.Some? && saves then w.(stored := w.stored + {w.plan.value}) else w;
      if v.isPlanMode then x.(live := x.live.(messages := [], history := SystemOnly(x.live.history))) else x
  }

  // ----- the agent state -----

  datatype StreamChunk = Words(text: string) | StreamDone | Ignored | StreamFailed

  /** The words streamed before the end or an error. */
  function Spoken(s: seq<StreamChunk>): string {
    if s == [] || s[0].StreamDone? || s[0].StreamFailed? then ""
    else (if s[0].Words? then s[0].text else "") + Spoken(s[1..])
  }

  /** All words of a stream, wherever they stand. */
  function WordsOf(s: seq<StreamChunk>): string {
    if s == [] then "" else (if s[0].Words? then s[0].text else "") + WordsOf(s[1..])
  }

  /** The answer is made of all words before the end or the first error, and of no later ones. */
  lemma {:induction false} SpokenUntilEnd(s: seq<StreamChunk>, stop: StreamChunk, rest: seq<StreamChunk>)
    requires forall i :: 0 <= i < |s| ==> !s[i].StreamDone? && !s[i].StreamFailed?
    requires stop.StreamDone? || stop.StreamFailed?
    ensures Spoken(s + [stop] + rest) == Spoken(s) == WordsOf(s)
  {
    if s == [] {
    } else {
      SpokenUntilEnd(s[1..], stop, rest);
      assert (s + [stop] + rest)[1..] == s[1..] + [stop] + rest;
    }
  }

  class AgentState {
    var messages: seq<Display>
    var conversationHistory: seq<Message>
    var status: string
    var isPlanMode: bool
    var planModeState: Option<PlanState>
    var savedMainContext: Option<MainContext>
    var isBusy: bool
    var stored: set<PlanState>
    const model: string
    const prompt: Prompt

    ghost function Snapshot(): View
      reads this
    {
      View(MainContext(messages, conversationHistory, status), isPlanMode, planModeState, savedMainContext, stored)
    }

    constructor (model: string, prompt: Prompt, main: MainContext, stored: set<PlanState>)
      ensures Snapshot() == View(main, false, None, None, stored)
      ensures this.model == model && this.prompt == prompt
    {
      this.model, this.prompt, this.stored := model, prompt, stored;
      messages, conversationHistory, status := main.messages, main.history, main.status;
      isPlanMode, planModeState, savedMainContext, isBusy := false, None, None, false;
    }

    /** `opens`: the database can be opened; `found`: the active plan state found there, if any;
        `saves`: the new state can be written. */
    method EnterPlanMode(focus: Option<string>, opens: bool, found: Option<PlanState>, saves: bool) returns (r: Reply)
      modifies this
      ensures Snapshot() == EnterView(old(Snapshot()), prompt, focus, opens, found, saves)
      ensures r == if old(isPlanMode) then Refused else if opens then Entered else StorageFailed
      ensures r.StorageFailed? ==>
                && savedMainContext == old(Some(MainContext(messages, conversationHistory, status)))
                && unchanged(`messages, `conversationHistory, `status, `isPlanMode, `planModeState, `stored)
      // The transcript found is shown behind a system prompt for the focus, which a new one replaces.
      ensures r.Entered? ==>
                var (told, said, aim) :=
                  match found
                  case Some(p) => (p.messages, p.history, if focus.Some? then focus else p.focus)
                  case None => ([], [], focus);
                && isPlanMode && savedMainContext == old(Some(MainContext(messages, conversationHistory, status)))
                && messages == told && conversationHistory == [Message(System, Plain(prompt(aim)))] + said
                && planModeState == Some(PlanState(told, said, aim, true))
                && status == "Plan Mode - Focus: " + (if focus.Some? then focus.value else "general planning")
                && stored == if saves then old(stored) + {PlanState(told, said, aim, true)} else old(stored)
    {
      if isPlanMode {
        return Refused;
      }
      savedMainContext := Some(MainContext(messages, conversationHistory, status));
      if !opens {
        return StorageFailed;
      }
      var plan := Resume(found, focus);
      planModeState := Some(plan);
      isPlanMode := true;
      messages := plan.messages;
      conversationHistory := PlanHistory(prompt, plan);
      status := "Plan Mode - Focus: " + FocusText(focus);
      if saves {
        stored := stored + {plan};
      }
      r := Entered;
    }

    method ExitPlanMode(opens: bool, saves: bool) returns (r: Reply)
      modifies this
      ensures Snapshot() == ExitView(old(Snapshot()), model, opens, saves)
      ensures r == ExitReply(old(Snapshot()), opens)
      ensures r.Exited? ==> !isPlanMode && savedMainContext == None && IsSummary(old(messages), r.summary)
      ensures r.Exited? && old(savedMainContext).Some? ==>
                old(savedMainContext) == Some(MainContext(messages, conversationHistory, status))
      ensures r.Panicked? ==> CannotSummarize(old(messages))
      ensures r.Panicked? || r.StorageFailed? ==>
                unchanged(`messages, `conversationHistory, `status, `isPlanMode, `savedMainContext)
      ensures old(isPlanMode) && old(planModeState).Some? ==>
                && planModeState.Some? && planModeState.value.messages == old(messages)
                && planModeState.value.history == NonSystem(old(conversationHistory))
                && planModeState.value.focus == old(planModeState).value.focus && !planModeState.value.active
                && stored == if saves && !r.StorageFailed? then old(stored) + {planModeState.value} else old(stored)
    {
      if !isPlanMode {
        return Refused;
      }
      if planModeState.Some? {
        var plan := planModeState.value;
        plan := plan.(messages := messages);
        plan := plan.(history := NonSystem(conversationHistory));
        plan := plan.(active := false);
        planModeState := Some(plan);
        if !opens {
          return StorageFailed;
        }
        if saves {
          stored := stored + {plan};
        }
      }
      SummaryIsSummary(messages);
      if SummaryPanics(messages) {
        return Panicked;
      }
      var summary := Summary(messages);
      if savedMainContext.Some? {
        var main := savedMainContext.value;
        savedMainContext := None;
        messages, conversationHistory, status := main.messages, main.history, main.status;
      } else {
        status := "Ready - Model: " + model;
      }
      isPlanMode := false;
      r := Exited(summary);
    }

    method Record(role: Role, name: string, text: string)
      modifies this
      ensures Snapshot() == Say(old(Snapshot()), role, name, text)
    {
      messages := messages + [Display(name, text)];
      conversationHistory := conversationHistory + [Message(role, Plain(text))];
      if planModeState.Some? {
        var plan := planModeState.value;
        planModeState := Some(plan.(messages := plan.messages + [Display(name, text)],
                                    history := plan.history + [Message(role, Plain(text))]));
      }
    }

    method ProcessPlanModeInput(content: string, stream: seq<StreamChunk>) returns (r: Reply)
      modifies this
      ensures Snapshot() == InputView(old(Snapshot()), content, Spoken(stream))
      ensures r == if old(isPlanMode) then Done else Refused
      ensures old(isPlanMode) ==>
                && !isBusy
                && messages == old(messages) + [Display("user", content)]
                               + (if Spoken(stream) == "" then [] else [Display("assistant", Spoken(stream))])
                && conversationHistory == old(conversationHistory) + [Message(User, Plain(content))]
                     + (if Spoken(stream) == "" then [] else [Message(Assistant, Plain(Spoken(stream)))])
                && status == old(status)
    {
      if !isPlanMode {
        return Refused;
      }
      Record(User, "user", content);
      isBusy := true;
      var response := "";
      var i := 0;
      while i < |stream|
        invariant i <= |stream|
        invariant response + Spoken(stream[i..]) == Spoken(stream)
        invariant Snapshot() == Say(old(Snapshot()), User, "user", content)
      {
        var chunk := stream[i];
        assert stream[i..][1..] == stream[i + 1..];
        if chunk.StreamDone? || chunk.StreamFailed? {
          break;
        }
        if chunk.Words? {
          assert response + (chunk.text + Spoken(stream[i + 1..])) == (response + chunk.text) + Spoken(stream[i + 1..]);
          response := response + chunk.text;
        }
        i := i + 1;
      }
      assert response == Spoken(stream);
      if response != "" {
        Record(Assistant, "assistant", response);
      }
      isBusy := false;
      r := Done;
    }

    method ClearPlanMode(opens: bool, saves: bool) returns (r: Reply)
      modifies this
      ensures Snapshot() == ClearView(old(Snapshot()), opens, saves)
      ensures r == if old(planModeState).Some? && !opens then StorageFailed else Done
      ensures planModeState.Some? <==> old(planModeState).Some?
      ensures planModeState.Some? ==> planModeState.value.messages == [] && planModeState.value.history == []
      ensures if r.Done? && isPlanMode
              then messages == [] && conversationHistory == SystemOnly(old(conversationHistory))
              else messages == old(messages) && conversationHistory == old(conversationHistory)
      ensures savedMainContext == old(savedMainContext) && isPlanMode == old(isPlanMode)
    {
      if planModeState.Some? {
        planModeState := Some(planModeState.value.(messages := [], history := []));
        if !opens {
          return StorageFailed;
        }
        if saves {
          stored := stored + {planModeState.value};
        }
      }
      if isPlanMode {
        messages := [];
        conversationHistory := SystemOnly(conversationHistory);
      }
      r := Done;
    }
  }

  // ----- runs -----

  /** A plan-mode step, or a change of the main conversation made outside plan mode. */
  datatype Step =
    | Enter(focus: Option<string>, opens: bool, found: Option<PlanState>, saves: bool)
    | Exit(opens: bool, saves: bool)
    | Ask(content: string, answer: string)
    | Clear(opens: bool, saves: bool)
    | EditMain(live: MainContext)

  datatype Agent = Agent(view: View, entry: Option<MainContext>)

  /** The lookup only returns active states that were saved before. */
  ghost predicate Enabled(a: Agent, s: Step) {
    match s
    case Enter(_, _, found, _) => found.Some? ==> found.value in a.view.stored && found.value.active
    case EditMain(_) => !a.view.isPlanMode
    case _ => true
  }

  /** `entry` remembers the main context at the last successful entry. */
  function Apply(a: Agent, prompt: Prompt, model: string, s: Step): Agent {
    var v := a.view;
    match s
    case Enter(focus, opens, found, saves) =>
      Agent(EnterView(v, prompt, focus, opens, found, saves), if !v.isPlanMode && opens then Some(v.live) else a.entry)
    case Exit(opens, saves) => a.(view := ExitView(v, model, opens, saves))
    case Ask(content, answer) => a.(view := InputView(v, content, answer))
    case Clear(opens, saves) => a.(view := ClearView(v, opens, saves))
    case EditMain(live) => a.(view := v.(live := live))
  }

  function Start(main: MainContext): Agent {
    Agent(View(main, false, None, None, {}), None)
  }

  ghost predicate IsRun(run: seq<Agent>, steps: seq<Step>, main: MainContext, prompt: Prompt, model: string) {
    && |run| == |steps| + 1 && run[0] == Start(main)
    && forall i :: 0 <= i < |steps| ==>
         Enabled(run[i], steps[i]) && run[i + 1] == Apply(run[i], prompt, model, steps[i])
  }

  ghost predicate NoSystem(h: seq<Message>) {
    forall i :: 0 <= i < |h| ==> !h[i].role.System?
  }

  /** While planning, the main context of the entry is safe, and the live transcript is the plan
      state's one, possibly after an older part, behind a single leading system message. */
  ghost predicate Safe(a: Agent) {
    var v := a.view;
    && (forall p :: p in v.stored ==> NoSystem(p.history))
    && (v.plan.Some? ==> NoSystem(v.plan.value.history))
    && (v.isPlanMode ==>
          && v.saved.Some? && v.saved == a.entry
          && v.plan.Some?
          && v.live.history != [] && v.live.history[0].role.System? && NoSystem(v.live.history[1..])
          && Behind(v.plan.value, v.live))
  }

  ghost predicate IsSuffix<T>(s: seq<T>, t: seq<T>) {
    |s| <= |t| && t[|t| - |s|..] == s
  }

  ghost predicate Behind(p: PlanState, live: MainContext)
    requires live.history != []
  {
    IsSuffix(p.messages, live.messages) && IsSuffix(p.history, live.history[1..])
  }

  /** The plan state's transcript is the live one. */
  ghost predicate InSync(v: View) {
    v.isPlanMode ==>
      && v.plan.Some? && v.live.history != []
      && v.plan.value.messages == v.live.messages && v.plan.value.history == v.live.history[1..]
  }

  lemma FilterWithoutSystem(h: seq<Message>)
    requires NoSystem(h)
    ensures NonSystem(h) == h && SystemOnly(h) == []
  {
    if h != [] {
      assert h == [h[0]] + h[1..];
    }
  }

  lemma FilterPlanHistory(h: seq<Message>)
    requires h != [] && h[0].role.System? && NoSystem(h[1..])
    ensures NonSystem(h) == h[1..] && SystemOnly(h) == [h[0]]
  {
    FilterWithoutSystem(h[1..]);
  }

  lemma SuffixAppend<T>(s: seq<T>, t: seq<T>, x: T)
    ensures IsSuffix(s, t) ==> IsSuffix(s + [x], t + [x])
    ensures s + [x] == t + [x] <==> s == t
  {
    if s + [x] == t + [x] {
      assert s == (s + [x])[..|s|];
    }
  }

  /** Saying something keeps the two transcripts in step, or out of step as they were. */
  lemma SayKeepsSafe(a: Agent, role: Role, name: string, text: string)
    requires Safe(a) && a.view.isPlanMode && !role.System?
    ensures var b := a.(view := Say(a.view, role, name, text));
            Safe(b) && (InSync(b.view) <==> InSync(a.view))
  {
    var p, live := a.view.plan.value, a.view.live;
    var m, d := Message(role, Plain(text)), Display(name, text);
    SuffixAppend(p.messages, live.messages, d);
    SuffixAppend(p.history, live.history[1..], m);
    assert (live.history + [m])[1..] == live.history[1..] + [m];
  }

  lemma AskKeepsSafe(a: Agent, content: string, answer: string)
    requires Safe(a)
    ensures var b := a.(view := InputView(a.view, content, answer));
            Safe(b) && (InSync(b.view) <==> InSync(a.view))
  {
    if a.view.isPlanMode {
      SayKeepsSafe(a, User, "user", content);
      if answer != "" {
        SayKeepsSafe(a.(view := Say(a.view, User, "user", content)), Assistant, "assistant", answer);
      }
    }
  }

  /** Whether the two transcripts agree after a step that started with agreement or not: only
      clearing with a database that cannot be opened drives them apart, and only if there was
      something to clear, because the plan state is emptied before the database is opened. */
  ghost predicate SyncAfter(v: View, s: Step) {
    match s
    case Enter(_, opens, _, _) => v.isPlanMode ==> InSync(v)
    case Exit(_, _) => true
    case Ask(_, _) => InSync(v)
    case Clear(opens, _) => v.isPlanMode && !opens ==> v.live.messages == [] && |v.live.history| == 1
    case EditMain(_) => true
  }

  lemma EnterKeepsSafe(a: Agent, prompt: Prompt, model: string, s: Step)
    requires Safe(a) && Enabled(a, s) && s.Enter?
    ensures Safe(Apply(a, prompt, model, s))
    ensures InSync(Apply(a, prompt, model, s).view) <==> SyncAfter(a.view, s)
  {
    if !a.view.isPlanMode && s.opens {
      var p := Resume(s.found, s.focus);
      assert PlanHistory(prompt, p)[1..] == p.history;
    }
  }

  lemma ExitKeepsSafe(a: Agent, prompt: Prompt, model: string, s: Step)
    requires Safe(a) && s.Exit?
    ensures Safe(Apply(a, prompt, model, s))
    ensures InSync(Apply(a, prompt, model, s).view)
  {
    hide SummaryPanics;
    if a.view.isPlanMode {
      FilterPlanHistory(a.view.live.history);
    }
  }

  lemma ClearKeepsSafe(a: Agent, prompt: Prompt, model: string, s: Step)
    requires Safe(a) && s.Clear?
    ensures Safe(Apply(a, prompt, model, s))
    ensures InSync(Apply(a, prompt, model, s).view) <==> SyncAfter(a.view, s)
  {
    if a.view.isPlanMode {
      FilterPlanHistory(a.view.live.history);
    }
  }

  lemma StepKeepsSafe(a: Agent, prompt: Prompt, model: string, s: Step)
    requires Safe(a) && Enabled(a, s)
    ensures Safe(Apply(a, prompt, model, s))
    ensures InSync(Apply(a, prompt, model, s).view) <==> SyncAfter(a.view, s)
  {
    hide EnterView, ExitView, InputView, ClearView;
    match s {
      case Enter(_, _, _, _) => EnterKeepsSafe(a, prompt, model, s);
      case Exit(_, _) => ExitKeepsSafe(a, prompt, model, s);
      case Ask(content, answer) => AskKeepsSafe(a, content, answer);
      case Clear(_, _) => ClearKeepsSafe(a, prompt, model, s);
      case EditMain(live) =>
    }
  }

  /** On every run, with storage failing anywhere, the main context of the last entry is kept
      while planning. */
  lemma {:induction false} MainContextNeverLost(run: seq<Agent>, steps: seq<Step>, main: MainContext,
                                                prompt: Prompt, model: string, i: nat)
    requires IsRun(run, steps, main, prompt, model) && i < |run|
    ensures Safe(run[i])
  {
    if i == 0 {
    } else {
      MainContextNeverLost(run, steps, main, prompt, model, i - 1);
      StepKeepsSafe(run[i - 1], prompt, model, steps[i - 1]);
    }
  }

  /** A step that leaves plan mode puts back exactly the context of the last entry; a failed
      attempt to leave stays in plan mode and keeps it.  An attempt succeeds exactly when the
      database opens and no character stands across byte 500 of the answer to be summed up. */
  lemma ExitRestoresEntry(run: seq<Agent>, steps: seq<Step>, main: MainContext, prompt: Prompt, model: string, i: nat)
    requires IsRun(run, steps, main, prompt, model) && i < |steps|
    requires run[i].view.isPlanMode
    ensures if run[i + 1].view.isPlanMode
            then run[i + 1].entry == run[i].entry && run[i + 1].view.saved == run[i].entry
            else run[i].entry == Some(run[i + 1].view.live)
    ensures !run[i + 1].view.isPlanMode <==>
            steps[i].Exit? && steps[i].opens && !SummaryPanics(run[i].view.live.messages)
  {
    MainContextNeverLost(run, steps, main, prompt, model, i);
    MainContextNeverLost(run, steps, main, prompt, model, i + 1);
  }

  /** A plan in three-byte characters: planning cannot be left although the database opens, not
      even by trying again, and the main context stays saved. */
  lemma ExitCanPanic(prompt: Prompt, model: string, main: MainContext, saves: bool)
    ensures var entered := Apply(Start(main), prompt, model, Enter(None, true, None, true));
            var asked := Apply(entered, prompt, model, Ask("why?", "#" + Repeat('\U{20AC}', 167)));
            var tried := Apply(asked, prompt, model, Exit(true, saves));
            && tried.view.isPlanMode && tried.view.saved == Some(main)
            && ExitReply(asked.view, true) == Panicked && ExitReply(tried.view, true) == Panicked
  {
    var answer := "#" + Repeat('\U{20AC}', 167);
    var asked := [Display("user", "why?"), Display("assistant", answer)];
    LongPlanSplits();
    assert asked[|asked| - 1] == Display("assistant", answer);
    assert [] + [Display("user", "why?")] + [Display("assistant", answer)] == asked;
  }

  lemma LongPlanSplits()
    ensures var answer := "#" + Repeat('\U{20AC}', 167);
            Bytes(answer) > 100 && LooksLikePlan(answer) && Splits(answer, 500)
  {
    var euros := Repeat('\U{20AC}', 167);
    var answer := "#" + euros;
    RepeatSplits('\U{20AC}', 167, 499);
    assert answer[0] == '#' && answer[1..] == euros;
  }

  lemma StepKeepsSync(a: Agent, prompt: Prompt, model: string, s: Step)
    requires Safe(a) && Enabled(a, s) && InSync(a.view) && (s.Clear? ==> s.opens)
    ensures InSync(Apply(a, prompt, model, s).view)
  {
    StepKeepsSafe(a, prompt, model, s);
  }

  /** Unless a clear failed to open the database, the plan state follows the live transcript. */
  lemma {:induction false} InSyncWithoutFailedClear(run: seq<Agent>, steps: seq<Step>, main: MainContext,
                                                    prompt: Prompt, model: string, i: nat)
    requires IsRun(run, steps, main, prompt, model) && i < |run|
    requires forall j :: 0 <= j < i && steps[j].Clear? ==> steps[j].opens
    ensures InSync(run[i].view)
  {
    if i == 0 {
    } else {
      InSyncWithoutFailedClear(run, steps, main, prompt, model, i - 1);
      MainContextNeverLost(run, steps, main, prompt, model, i - 1);
      StepKeepsSync(run[i - 1], prompt, model, steps[i - 1]);
    }
  }

  /** A failed clear after one question: the plan state is empty, the live transcript is not. */
  lemma FailedClearDesyncs(prompt: Prompt, model: string, main: MainContext)
    ensures var entered := Apply(Start(main), prompt, model, Enter(None, true, None, true));
            var asked := Apply(entered, prompt, model, Ask("why?", ""));
            !InSync(Apply(asked, prompt, model, Clear(false, true)).view)
  {
  }
}
