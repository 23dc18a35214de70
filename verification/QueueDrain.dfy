/** Draining the message queue (apps/cli/src/agent/process.rs, `process_queued_messages`).

    A drain delivers messages from the front until the queue is empty or a delivery fails; the
    failed message is re-queued for the next drain.  What the drains do together, however they are
    cut into separate calls, is a sequence of delivery attempts on the front of the queue. */
module QueueDrain {
  import opened Wrappers
  import opened MessageQueue

  // ----- delivery attempts -----

  /** The queue together with what has left it. */
  datatype Ledger = Ledger(queue: seq<Message>, delivered: seq<Message>, discarded: seq<Message>)

  /** What becomes of a popped message: delivered, re-queued for another try, or given up. */
  function Settle(l: Ledger, maxSize: nat, m: Message, ok: bool): Ledger {
    if ok then l.(delivered := l.delivered + [m])
    else if RequeueFate(|l.queue|, maxSize, m) == Requeued then l.(queue := Insert(l.queue, m.IncrementRetry()))
    else l.(discarded := l.discarded + [m.IncrementRetry()])
  }

  function Attempt(l: Ledger, maxSize: nat, ok: bool): Ledger {
    if l.queue == [] then l
    else Settle(l.(queue := l.queue[1..]), maxSize, l.queue[0], ok)
  }

  /** The attempts whose outcomes `script` lists; attempts on an empty queue do nothing. */
  function Attempts(l: Ledger, maxSize: nat, script: seq<bool>): Ledger {
    if script == [] then l
    else Attempt(Attempts(l, maxSize, script[..|script| - 1]), maxSize, script[|script| - 1])
  }

  /** A panic during a delivery ends the drain before the message is settled. */
  datatype Delivery = Succeeded | Failed | Died

  /** One drain: deliveries until the queue is empty or one does not succeed.  `deliveries(k)` says
      how the k-th one ends; `script` lists the outcomes of those that were settled, and `lost` is
      the message whose delivery panicked: it is neither requeued nor delivered. */
  method ProcessQueuedMessages(q: Queue, deliveries: nat -> Delivery, saveOk: bool, logs: bool, ghost before: Ledger)
    returns (lost: Option<Message>, ghost after: Ledger, ghost script: seq<bool>)
    requires q.Valid() && before.queue == q.queue
    modifies q
    ensures q.Valid() && after == Attempts(before, q.maxSize, script)
    ensures if lost.None? then q.queue == after.queue
            else after.queue == [lost.value] + q.queue && deliveries(|script|) == Died
    ensures forall i :: 0 <= i < |script| ==> deliveries(i) == if script[i] then Succeeded else Failed
    ensures forall i :: 0 <= i < |script| - 1 ==> script[i]
    ensures lost.None? && q.queue != [] ==> script != [] && !script[|script| - 1]
    ensures |script| <= old(|q.queue|)
  {
    hide Attempts, Insert, Ordered;
    lost, after, script := None, before, [];
    NoAttempts(before, q.maxSize);
    var k := 0;
    while true
      invariant q.Valid() && q.queue == after.queue
      invariant after == Attempts(before, q.maxSize, script)
      invariant k == |script| == old(|q.queue|) - |q.queue|
      invariant forall i :: 0 <= i < k ==> script[i] && deliveries(i) == Succeeded
      decreases |q.queue|
    {
      var popped := q.Pop(saveOk);
      if popped.None? {
        return;
      }
      var delivery := deliveries(k);
      if delivery == Died {
        lost := popped;
        return;
      }
      var ok := delivery == Succeeded;
      OneMoreAttempt(before, q.maxSize, script, ok);
      script := script + [ok];
      after := Attempt(after, q.maxSize, ok);
      if !ok {
        var _ := q.RequeueMessage(popped.value, saveOk, logs);
        return;
      }
      k := k + 1;
    }
  }

  lemma NoAttempts(l: Ledger, maxSize: nat)
    ensures Attempts(l, maxSize, []) == l
  {
  }

  lemma OneMoreAttempt(l: Ledger, maxSize: nat, script: seq<bool>, ok: bool)
    ensures Attempts(l, maxSize, script + [ok]) == Attempt(Attempts(l, maxSize, script), maxSize, ok)
  {
    hide Attempt;
    assert (script + [ok])[..|script|] == script;
  }

  // ----- the retry budget -----

  /** Delivery attempts a message may still cost. */
  function Weight(m: Message): (w: nat)
    ensures w > 0
  {
    if m.retryCount > m.maxRetries then 1 else m.maxRetries + 1 - m.retryCount
  }

  /** The total budget of the messages of priority `p` and above. */
  ghost function WeightFrom(q: seq<Message>, p: Priority): nat {
    if q == [] then 0
    else WeightFrom(q[1..], p) + if Value(q[0].priority) >= Value(p) then Weight(q[0]) else 0
  }

  lemma {:induction false} WeightOfConcat(a: seq<Message>, b: seq<Message>, p: Priority)
    ensures WeightFrom(a + b, p) == WeightFrom(a, p) + WeightFrom(b, p)
  {
    if a == [] {
      assert a + b == b;
    } else {
      assert (a + b)[1..] == a[1..] + b;
      WeightOfConcat(a[1..], b, p);
    }
  }

  lemma WeightOfInsert(q: seq<Message>, m: Message, p: Priority)
    ensures WeightFrom(Insert(q, m), p) == WeightFrom(q, p) + if Value(m.priority) >= Value(p) then Weight(m) else 0
  {
    var i := InsertPosition(q, m.priority);
    SplitAt(q, i);
    WeightOfConcat(q[..i] + [m], q[i..], p);
    WeightOfConcat(q[..i], [m], p);
    WeightOfConcat(q[..i], q[i..], p);
    assert WeightFrom([m], p) == if Value(m.priority) >= Value(p) then Weight(m) else 0;
  }

  lemma WeightZeroIff(q: seq<Message>, p: Priority)
    ensures WeightFrom(q, p) == 0 <==> forall i :: 0 <= i < |q| ==> Value(q[i].priority) < Value(p)
  {
    if q != [] {
      WeightZeroIff(q[1..], p);
      forall i | 0 < i < |q| ensures q[i] == q[1..][i - 1] {}
      if WeightFrom(q, p) == 0 {
        forall i | 0 <= i < |q| ensures Value(q[i].priority) < Value(p) {
          assert i > 0 ==> q[i] == q[1..][i - 1];
        }
      }
    }
  }

  lemma AttemptKeepsShape(l: Ledger, maxSize: nat, ok: bool)
    requires Ordered(l.queue)
    ensures var after := Attempt(l, maxSize, ok).queue;
            Ordered(after) && |after| <= |l.queue|
  {
    if l.queue != [] {
      InsertKeepsOrder(l.queue[1..], l.queue[0].IncrementRetry());
    }
  }

  /** An attempt at priority `p` or above spends from that budget, any other leaves it alone. */
  lemma AttemptSpends(l: Ledger, maxSize: nat, ok: bool, p: Priority)
    requires l.queue != []
    ensures var after := Attempt(l, maxSize, ok).queue;
            if Value(l.queue[0].priority) >= Value(p)
            then WeightFrom(after, p) < WeightFrom(l.queue, p)
            else WeightFrom(after, p) == WeightFrom(l.queue, p)
  {
    WeightOfInsert(l.queue[1..], l.queue[0].IncrementRetry(), p);
  }

  lemma {:induction false} AttemptsSpend(l: Ledger, maxSize: nat, script: seq<bool>, p: Priority)
    requires Ordered(l.queue)
    ensures var after := Attempts(l, maxSize, script).queue;
            && Ordered(after) && |after| <= |l.queue|
            && (WeightFrom(after, p) + |script| <= WeightFrom(l.queue, p) || WeightFrom(after, p) == 0)
  {
    if script == [] {
    } else {
      var n := |script| - 1;
      var mid := Attempts(l, maxSize, script[..n]);
      AttemptsSpend(l, maxSize, script[..n], p);
      if mid.queue != [] {
        AttemptSpends(mid, maxSize, script[n], p);
        AttemptKeepsShape(mid, maxSize, script[n]);
        if Value(mid.queue[0].priority) < Value(p) {
          WeightZeroIff(mid.queue, p);
        }
      }
    }
  }

  /** With no new arrivals, once as many attempts were made as the messages of priority `p` and
      above allow, none of them is left, whatever failed: nothing starves behind a failing message,
      and with `p == Low` the queue is empty. */
  lemma Settles(l: Ledger, maxSize: nat, script: seq<bool>, p: Priority)
    requires Ordered(l.queue) && |script| >= WeightFrom(l.queue, p)
    ensures forall m :: m in Attempts(l, maxSize, script).queue ==> Value(m.priority) < Value(p)
  {
    AttemptsSpend(l, maxSize, script, p);
    WeightZeroIff(Attempts(l, maxSize, script).queue, p);
  }

  // ----- the fate of one message -----

  ghost function IdsOf(q: seq<Message>): multiset<string> {
    if q == [] then multiset{} else multiset{q[0].id} + IdsOf(q[1..])
  }

  ghost function AllIds(l: Ledger): multiset<string> {
    IdsOf(l.queue) + IdsOf(l.delivered) + IdsOf(l.discarded)
  }

  lemma {:induction false} IdsOfConcat(a: seq<Message>, b: seq<Message>)
    ensures IdsOf(a + b) == IdsOf(a) + IdsOf(b)
  {
    if a == [] {
      assert a + b == b;
    } else {
      assert (a + b)[1..] == a[1..] + b;
      IdsOfConcat(a[1..], b);
    }
  }

  lemma IdsOfInsert(q: seq<Message>, m: Message)
    ensures IdsOf(Insert(q, m)) == IdsOf(q) + multiset{m.id}
  {
    var i := InsertPosition(q, m.priority);
    SplitAt(q, i);
    IdsOfConcat(q[..i] + [m], q[i..]);
    IdsOfConcat(q[..i], [m]);
    IdsOfConcat(q[..i], q[i..]);
  }

  lemma MemberHasId(q: seq<Message>, m: Message)
    requires m in q
    ensures IdsOf(q)[m.id] > 0
  {
    if q[0] != m {
      MemberHasId(q[1..], m);
    }
  }

  lemma SettleAddsId(l: Ledger, maxSize: nat, m: Message, ok: bool)
    ensures AllIds(Settle(l, maxSize, m, ok)) == AllIds(l) + multiset{m.id}
  {
    var again := m.IncrementRetry();
    if ok {
      IdsOfConcat(l.delivered, [m]);
      assert IdsOf([m]) == multiset{m.id};
    } else if RequeueFate(|l.queue|, maxSize, m) == Requeued {
      IdsOfInsert(l.queue, again);
    } else {
      IdsOfConcat(l.discarded, [again]);
      assert IdsOf([again]) == multiset{m.id};
    }
  }

  lemma AttemptKeepsIds(l: Ledger, maxSize: nat, ok: bool)
    ensures AllIds(Attempt(l, maxSize, ok)) == AllIds(l)
  {
    if l.queue != [] {
      SettleAddsId(l.(queue := l.queue[1..]), maxSize, l.queue[0], ok);
    }
  }

  ghost predicate Unique(l: Ledger) {
    forall id :: AllIds(l)[id] <= 1
  }

  /** The record of `m` after `failures` failed attempts. */
  function After(m: Message, failures: nat): Message {
    m.(retryCount := m.retryCount + failures)
  }

  ghost predicate IsQueued(m: Message, l: Ledger, failures: nat) {
    After(m, failures) in l.queue && failures < Weight(m)
  }

  ghost predicate IsDelivered(m: Message, l: Ledger, failures: nat) {
    After(m, failures) in l.delivered && failures < Weight(m)
  }

  ghost predicate IsDiscarded(m: Message, l: Ledger, failures: nat) {
    After(m, failures) in l.discarded && failures == Weight(m)
  }

  ghost predicate HasFate(m: Message, l: Ledger, failures: nat) {
    IsQueued(m, l, failures) || IsDelivered(m, l, failures) || IsDiscarded(m, l, failures)
  }

  /** Failed attempts on the message called `id`. */
  ghost function FailuresOf(l: Ledger, maxSize: nat, script: seq<bool>, id: string): nat {
    if script == [] then 0
    else
      var n := |script| - 1;
      var mid := Attempts(l, maxSize, script[..n]);
      FailuresOf(l, maxSize, script[..n], id)
      + if mid.queue != [] && mid.queue[0].id == id && !script[n] then 1 else 0
  }

  /** A message at the front with the id of a settled one would be a second copy. */
  lemma FrontIsTheRecord(m: Message, l: Ledger, failures: nat)
    requires Unique(l) && HasFate(m, l, failures) && l.queue != [] && l.queue[0].id == m.id
    ensures l.queue[0] == After(m, failures) && failures < Weight(m)
  {
    var r := After(m, failures);
    assert AllIds(l)[m.id] <= 1;
    if r in l.queue {
      if r != l.queue[0] {
        MemberHasId(l.queue[1..], r);
      } else if r in l.discarded {
        MemberHasId(l.discarded, r);
      }
    } else if r in l.delivered {
      MemberHasId(l.delivered, r);
    } else {
      MemberHasId(l.discarded, r);
    }
  }

  lemma InsertKeepsMembers(q: seq<Message>, m: Message, x: Message)
    ensures x in Insert(q, m) <==> x in q || x == m
  {
    InsertKeepsMessages(q, m);
    assert x in Insert(q, m) <==> x in multiset(Insert(q, m));
  }

  lemma OtherAttemptKeepsFate(m: Message, l: Ledger, maxSize: nat, ok: bool, failures: nat)
    requires HasFate(m, l, failures) && l.queue != [] && l.queue[0].id != m.id
    ensures HasFate(m, Attempt(l, maxSize, ok), failures)
  {
    hide Insert;
    InsertKeepsMembers(l.queue[1..], l.queue[0].IncrementRetry(), After(m, failures));
  }

  lemma OwnAttemptKeepsFate(m: Message, l: Ledger, maxSize: nat, ok: bool, failures: nat)
    requires |l.queue| <= maxSize && l.queue != [] && l.queue[0] == After(m, failures) && failures < Weight(m)
    ensures HasFate(m, Attempt(l, maxSize, ok), if ok then failures else failures + 1)
  {
    hide Insert;
    var again := After(m, failures + 1);
    assert l.queue[0].IncrementRetry() == again;
    InsertKeepsMembers(l.queue[1..], again, again);
  }

  lemma AttemptKeepsFate(m: Message, l: Ledger, maxSize: nat, ok: bool, failures: nat)
    requires Unique(l) && |l.queue| <= maxSize && HasFate(m, l, failures) && l.queue != []
    ensures HasFate(m, Attempt(l, maxSize, ok), if l.queue[0].id == m.id && !ok then failures + 1 else failures)
  {
    hide Attempt, HasFate;
    if l.queue[0].id == m.id {
      FrontIsTheRecord(m, l, failures);
      OwnAttemptKeepsFate(m, l, maxSize, ok, failures);
    } else {
      OtherAttemptKeepsFate(m, l, maxSize, ok, failures);
    }
  }

  /** Every message is, at any time, queued with exactly as many more retries as it had failures, or
      delivered after fewer failures than it is allowed, or discarded after exactly that many. */
  lemma {:induction false} FateOfEachMessage(m: Message, l: Ledger, maxSize: nat, script: seq<bool>)
    requires Ordered(l.queue) && |l.queue| <= maxSize && Unique(l) && m in l.queue
    ensures var after := Attempts(l, maxSize, script);
            Unique(after) && HasFate(m, after, FailuresOf(l, maxSize, script, m.id))
  {
    if script == [] {
      assert After(m, 0) == m;
    } else {
      hide Attempt, Attempts, FailuresOf, HasFate, AllIds, Unique, Ordered;
      var n := |script| - 1;
      var mid := Attempts(l, maxSize, script[..n]);
      LastAttempt(l, maxSize, script, m.id);
      FateOfEachMessage(m, l, maxSize, script[..n]);
      AttemptsSpend(l, maxSize, script[..n], Low);
      AttemptKeepsIds(mid, maxSize, script[n]);
      SameIdsUnique(mid, Attempt(mid, maxSize, script[n]));
      if mid.queue == [] {
        AttemptOnNothing(mid, maxSize, script[n]);
      } else {
        AttemptKeepsFate(m, mid, maxSize, script[n], FailuresOf(l, maxSize, script[..n], m.id));
      }
    }
  }

  lemma SameIdsUnique(a: Ledger, b: Ledger)
    requires Unique(a) && AllIds(b) == AllIds(a)
    ensures Unique(b)
  {
  }

  lemma LastAttempt(l: Ledger, maxSize: nat, script: seq<bool>, id: string)
    requires script != []
    ensures var n := |script| - 1;
            var mid := Attempts(l, maxSize, script[..n]);
            && Attempts(l, maxSize, script) == Attempt(mid, maxSize, script[n])
            && FailuresOf(l, maxSize, script, id) ==
               FailuresOf(l, maxSize, script[..n], id)
               + if mid.queue != [] && mid.queue[0].id == id && !script[n] then 1 else 0
  {
    hide Attempt;
  }

  lemma AttemptOnNothing(l: Ledger, maxSize: nat, ok: bool)
    requires l.queue == []
    ensures Attempt(l, maxSize, ok) == l
  {
  }

  /** The three fates exclude each other. */
  lemma FatesExclusive(m: Message, l: Ledger, f: nat, g: nat)
    requires Unique(l)
    ensures !(IsQueued(m, l, f) && IsDelivered(m, l, g))
    ensures !(IsQueued(m, l, f) && IsDiscarded(m, l, g))
    ensures !(IsDelivered(m, l, f) && IsDiscarded(m, l, g))
  {
    assert AllIds(l)[m.id] <= 1;
    if After(m, f) in l.queue { MemberHasId(l.queue, After(m, f)); }
    if After(m, f) in l.delivered { MemberHasId(l.delivered, After(m, f)); }
    if After(m, g) in l.delivered { MemberHasId(l.delivered, After(m, g)); }
    if After(m, g) in l.discarded { MemberHasId(l.discarded, After(m, g)); }
  }

  // ----- arrivals and overlapping drains -----

  /** Messages may arrive while others are being delivered, and several drains may overlap; the
      queue is locked only for one push, pop or re-queue at a time. */
  datatype Event = Arrive(m: Message) | Pop | Finish(i: nat, ok: bool)

  datatype Shared = Shared(ledger: Ledger, inFlight: seq<Message>, accepted: multiset<string>)

  function Step(s: Shared, maxSize: nat, e: Event): Shared {
    var l := s.ledger;
    match e
    case Arrive(m) =>
      if |l.queue| >= maxSize then s
      else s.(ledger := l.(queue := Insert(l.queue, m)), accepted := s.accepted + multiset{m.id})
    case Pop =>
      if l.queue == [] then s
      else s.(ledger := l.(queue := l.queue[1..]), inFlight := s.inFlight + [l.queue[0]])
    case Finish(i, ok) =>
      if i >= |s.inFlight| then s
      else
        s.(ledger := Settle(l, maxSize, s.inFlight[i], ok), inFlight := s.inFlight[..i] + s.inFlight[i + 1..])
  }

  function Run(maxSize: nat, events: seq<Event>): Shared {
    if events == [] then Shared(Ledger([], [], []), [], multiset{})
    else Step(Run(maxSize, events[..|events| - 1]), maxSize, events[|events| - 1])
  }

  ghost predicate Accounted(s: Shared) {
    Ordered(s.ledger.queue) && AllIds(s.ledger) + IdsOf(s.inFlight) == s.accepted
  }

  lemma StepKeepsAccount(s: Shared, maxSize: nat, e: Event)
    requires Accounted(s)
    ensures Accounted(Step(s, maxSize, e))
  {
    hide Accounted;
    match e {
      case Arrive(m) => ArriveKeepsAccount(s, maxSize, m);
      case Pop => PopKeepsAccount(s, maxSize);
      case Finish(i, ok) =>
        if i < |s.inFlight| {
          FinishKeepsAccount(s, maxSize, i, ok);
        }
    }
  }

  lemma ArriveKeepsAccount(s: Shared, maxSize: nat, m: Message)
    requires Accounted(s)
    ensures Accounted(Step(s, maxSize, Arrive(m)))
  {
    hide Insert, IdsOf;
    InsertKeepsOrder(s.ledger.queue, m);
    IdsOfInsert(s.ledger.queue, m);
  }

  lemma PopKeepsAccount(s: Shared, maxSize: nat)
    requires Accounted(s)
    ensures Accounted(Step(s, maxSize, Pop))
  {
    if s.ledger.queue != [] {
      var m := s.ledger.queue[0];
      IdsOfConcat(s.inFlight, [m]);
      assert IdsOf([m]) == multiset{m.id};
    }
  }

  lemma FinishKeepsAccount(s: Shared, maxSize: nat, i: nat, ok: bool)
    requires Accounted(s) && i < |s.inFlight|
    ensures Accounted(Step(s, maxSize, Finish(i, ok)))
  {
    var l, m, rest := s.ledger, s.inFlight[i], s.inFlight[..i] + s.inFlight[i + 1..];
    SettleKeepsOrder(l, maxSize, m, ok);
    SettleAddsId(l, maxSize, m, ok);
    IdsOfRemove(s.inFlight, i);
    assert Step(s, maxSize, Finish(i, ok)) == s.(ledger := Settle(l, maxSize, m, ok), inFlight := rest);
    Regroup(AllIds(Settle(l, maxSize, m, ok)), IdsOf(rest), AllIds(l), multiset{m.id}, IdsOf(s.inFlight));
  }

  lemma SettleKeepsOrder(l: Ledger, maxSize: nat, m: Message, ok: bool)
    requires Ordered(l.queue)
    ensures Ordered(Settle(l, maxSize, m, ok).queue)
  {
    InsertKeepsOrder(l.queue, m.IncrementRetry());
  }

  lemma Regroup(settled: multiset<string>, rest: multiset<string>, before: multiset<string>,
                one: multiset<string>, all: multiset<string>)
    requires settled == before + one && all == rest + one
    ensures settled + rest == before + all
  {
  }

  lemma IdsOfRemove(q: seq<Message>, i: nat)
    requires i < |q|
    ensures IdsOf(q) == IdsOf(q[..i] + q[i + 1..]) + multiset{q[i].id}
  {
    hide IdsOf;
    assert q == q[..i] + ([q[i]] + q[i + 1..]);
    IdsOfConcat(q[..i], [q[i]] + q[i + 1..]);
    IdsOfConcat([q[i]], q[i + 1..]);
    IdsOfConcat(q[..i], q[i + 1..]);
    IdsOfOne(q[i]);
  }

  lemma IdsOfOne(m: Message)
    ensures IdsOf([m]) == multiset{m.id}
  {
  }

  /** On every run the queue is four ordered lanes, and the accepted messages are exactly those
      queued, in flight, delivered and discarded, each as often as it was accepted. */
  lemma {:induction false} EveryRunAccounted(maxSize: nat, events: seq<Event>)
    ensures Accounted(Run(maxSize, events))
  {
    if events == [] {
    } else {
      EveryRunAccounted(maxSize, events[..|events| - 1]);
      StepKeepsAccount(Run(maxSize, events[..|events| - 1]), maxSize, events[|events| - 1]);
    }
  }

  lemma InsertAddsOne(q: seq<Message>, m: Message)
    ensures |Insert(q, m)| == |q| + 1
  {
  }

  lemma StepKeepsCapacity(s: Shared, maxSize: nat, e: Event)
    requires |s.ledger.queue| <= maxSize
    ensures |Step(s, maxSize, e).ledger.queue| <= maxSize
  {
    hide Insert;
    match e {
      case Arrive(m) => InsertAddsOne(s.ledger.queue, m);
      case Pop =>
      case Finish(i, ok) =>
        if i < |s.inFlight| {
          InsertAddsOne(s.ledger.queue, s.inFlight[i].IncrementRetry());
        }
    }
  }

  /** On every run the queue holds at most `maxSize` messages, and an arrival is accepted exactly
      while it holds fewer. */
  lemma {:induction false} NeverOverfull(maxSize: nat, events: seq<Event>, m: Message)
    ensures var s, next := Run(maxSize, events), Run(maxSize, events + [Arrive(m)]);
            && |s.ledger.queue| <= maxSize
            && next.accepted == s.accepted + if |s.ledger.queue| < maxSize then multiset{m.id} else multiset{}
  {
    if events == [] {
    } else {
      NeverOverfull(maxSize, events[..|events| - 1], m);
      StepKeepsCapacity(Run(maxSize, events[..|events| - 1]), maxSize, events[|events| - 1]);
    }
    hide Insert;
    assert (events + [Arrive(m)])[..|events|] == events;
  }

  // ----- the fate of one message in every run -----

  /** Event `e` is a failed delivery of the message called `id`. */
  ghost predicate Fails(s: Shared, e: Event, id: string) {
    e.Finish? && !e.ok && e.i < |s.inFlight| && s.inFlight[e.i].id == id
  }

  /** Failed deliveries of the message called `id` among the events from position `n` on. */
  ghost function FailuresSince(maxSize: nat, events: seq<Event>, n: nat, id: string): nat {
    if |events| <= n then 0
    else
      var k := |events| - 1;
      FailuresSince(maxSize, events[..k], n, id) + if Fails(Run(maxSize, events[..k]), events[k], id) then 1 else 0
  }

  /** One of these failures found the queue full. */
  ghost predicate RefusedSince(maxSize: nat, events: seq<Event>, n: nat, id: string) {
    |events| > n &&
    var k := |events| - 1;
    var s := Run(maxSize, events[..k]);
    RefusedSince(maxSize, events[..k], n, id) || (Fails(s, events[k], id) && |s.ledger.queue| >= maxSize)
  }

  /** Where `m` is after `failures` failed deliveries: given up once they are all that it is allowed
      or a full queue refused it, and otherwise still queued, in flight or delivered. */
  ghost predicate RunFate(m: Message, s: Shared, failures: nat, refused: bool) {
    var r := After(m, failures);
    && failures <= Weight(m)
    && if failures == Weight(m) || refused then r in s.ledger.discarded
       else r in s.ledger.queue || r in s.inFlight || r in s.ledger.delivered
  }

  lemma RemovedIsThere(q: seq<Message>, i: nat, x: Message)
    requires i < |q| && x in q && x != q[i]
    ensures x in q[..i] + q[i + 1..]
  {
    var j :| 0 <= j < |q| && q[j] == x;
    assert (q[..i] + q[i + 1..])[if j < i then j else j - 1] == x;
  }

  /** A message in flight with the id of a settled one would be a second copy. */
  lemma InFlightIsTheRecord(m: Message, s: Shared, i: nat, failures: nat, refused: bool)
    requires Accounted(s) && s.accepted[m.id] <= 1 && RunFate(m, s, failures, refused)
    requires i < |s.inFlight| && s.inFlight[i].id == m.id
    ensures s.inFlight[i] == After(m, failures) && failures < Weight(m) && !refused
  {
    var r, l := After(m, failures), s.ledger;
    var rest := s.inFlight[..i] + s.inFlight[i + 1..];
    IdsOfRemove(s.inFlight, i);
    assert IdsOf(l.queue)[m.id] + IdsOf(l.delivered)[m.id] + IdsOf(l.discarded)[m.id] + IdsOf(rest)[m.id] == 0;
    if r in l.queue {
      MemberHasId(l.queue, r);
    } else if r in l.delivered {
      MemberHasId(l.delivered, r);
    } else if r in l.discarded {
      MemberHasId(l.discarded, r);
    } else if r != s.inFlight[i] {
      RemovedIsThere(s.inFlight, i, r);
      MemberHasId(rest, r);
    }
  }

  lemma OtherEventKeepsFate(m: Message, s: Shared, maxSize: nat, e: Event, failures: nat, refused: bool)
    requires RunFate(m, s, failures, refused)
    requires e.Finish? && e.i < |s.inFlight| ==> s.inFlight[e.i].id != m.id
    ensures RunFate(m, Step(s, maxSize, e), failures, refused)
  {
    hide Insert, Weight;
    var r := After(m, failures);
    match e {
      case Arrive(other) =>
        InsertKeepsMembers(s.ledger.queue, other, r);
      case Pop =>
      case Finish(i, ok) =>
        if i < |s.inFlight| {
          InsertKeepsMembers(s.ledger.queue, s.inFlight[i].IncrementRetry(), r);
          if r in s.inFlight {
            RemovedIsThere(s.inFlight, i, r);
          }
        }
    }
  }

  lemma OwnFinishKeepsFate(m: Message, s: Shared, maxSize: nat, i: nat, ok: bool, failures: nat)
    requires i < |s.inFlight| && s.inFlight[i] == After(m, failures) && failures < Weight(m)
    ensures RunFate(m, Step(s, maxSize, Finish(i, ok)), if ok then failures else failures + 1,
                    !ok && |s.ledger.queue| >= maxSize)
  {
    hide Insert;
    var again := After(m, failures + 1);
    assert s.inFlight[i].IncrementRetry() == again;
    InsertKeepsMembers(s.ledger.queue, again, again);
  }

  lemma EventKeepsFate(m: Message, s: Shared, maxSize: nat, e: Event, failures: nat, refused: bool)
    requires Accounted(s) && s.accepted[m.id] <= 1 && RunFate(m, s, failures, refused)
    ensures var failed := Fails(s, e, m.id);
            RunFate(m, Step(s, maxSize, e), if failed then failures + 1 else failures,
                    refused || (failed && |s.ledger.queue| >= maxSize))
  {
    hide RunFate, Step, Accounted;
    if e.Finish? && e.i < |s.inFlight| && s.inFlight[e.i].id == m.id {
      InFlightIsTheRecord(m, s, e.i, failures, refused);
      OwnFinishKeepsFate(m, s, maxSize, e.i, e.ok, failures);
    } else {
      OtherEventKeepsFate(m, s, maxSize, e, failures, refused);
    }
  }

  lemma ArrivalIsQueued(m: Message, s: Shared, maxSize: nat)
    requires |s.ledger.queue| < maxSize
    ensures RunFate(m, Step(s, maxSize, Arrive(m)), 0, false)
  {
    hide Insert;
    InsertKeepsMembers(s.ledger.queue, m, m);
    assert After(m, 0) == m;
  }

  /** What is queued, in flight or delivered is not given up. */
  lemma NotGivenUp(s: Shared, r: Message)
    requires Accounted(s) && s.accepted[r.id] <= 1
    requires r in s.ledger.queue || r in s.inFlight || r in s.ledger.delivered
    ensures r !in s.ledger.discarded
  {
    var l := s.ledger;
    if r in l.queue { MemberHasId(l.queue, r); }
    if r in s.inFlight { MemberHasId(s.inFlight, r); }
    if r in l.delivered { MemberHasId(l.delivered, r); }
    if r in l.discarded { MemberHasId(l.discarded, r); }
  }

  /** With arrivals and overlapping drains at any time, a message accepted at event `n` is queued,
      in flight or delivered with fewer failures than it is allowed, or was given up; and it is
      given up exactly when it used all its tries or a failed delivery found the queue full. */
  lemma FateInEveryRun(m: Message, maxSize: nat, events: seq<Event>, n: nat)
    requires n < |events| && events[n] == Arrive(m) && |Run(maxSize, events[..n]).ledger.queue| < maxSize
    requires Run(maxSize, events).accepted[m.id] <= 1
    ensures var s, failures := Run(maxSize, events), FailuresSince(maxSize, events, n + 1, m.id);
            var refused := RefusedSince(maxSize, events, n + 1, m.id);
            && RunFate(m, s, failures, refused)
            && (After(m, failures) in s.ledger.discarded <==> failures == Weight(m) || refused)
  {
    hide Step, Accounted, Run, FailuresSince, RefusedSince;
    FateOfArrival(m, maxSize, events, n);
    EveryRunAccounted(maxSize, events);
    var s, failures := Run(maxSize, events), FailuresSince(maxSize, events, n + 1, m.id);
    if !(failures == Weight(m) || RefusedSince(maxSize, events, n + 1, m.id)) {
      NotGivenUp(s, After(m, failures));
    }
  }

  lemma {:induction false} FateOfArrival(m: Message, maxSize: nat, events: seq<Event>, n: nat)
    requires n < |events| && events[n] == Arrive(m) && |Run(maxSize, events[..n]).ledger.queue| < maxSize
    requires Run(maxSize, events).accepted[m.id] <= 1
    ensures RunFate(m, Run(maxSize, events), FailuresSince(maxSize, events, n + 1, m.id),
                    RefusedSince(maxSize, events, n + 1, m.id))
  {
    hide RunFate, Step, Accounted;
    var k := |events| - 1;
    var before := Run(maxSize, events[..k]);
    if n == k {
      ArrivalIsQueued(m, before, maxSize);
    } else {
      assert events[..k][..n] == events[..n];
      AcceptedOnlyGrows(before, maxSize, events[k]);
      FateOfArrival(m, maxSize, events[..k], n);
      EveryRunAccounted(maxSize, events[..k]);
      EventKeepsFate(m, before, maxSize, events[k], FailuresSince(maxSize, events[..k], n + 1, m.id),
                     RefusedSince(maxSize, events[..k], n + 1, m.id));
    }
  }

  /** The latter happens: an arrival takes the place of the message being delivered. */
  lemma FullQueueDrops(m: Message, other: Message)
    requires Weight(m) > 1
    ensures Run(1, [Arrive(m), Pop, Arrive(other), Finish(0, false)]).ledger ==
            Ledger([other], [], [After(m, 1)])
  {
    hide Step;
    var events := [Arrive(m), Pop, Arrive(other), Finish(0, false)];
    RunPrefix(1, events, 0);
    RunPrefix(1, events, 1);
    RunPrefix(1, events, 2);
    RunPrefix(1, events, 3);
    assert events[..0] == [] && events[..4] == events;
    assert Run(1, []) == Shared(Ledger([], [], []), [], multiset{});
    TakesThePlace(m, other);
  }

  lemma TakesThePlace(m: Message, other: Message)
    requires Weight(m) > 1
    ensures var start := Shared(Ledger([], [], []), [], multiset{});
            Step(Step(Step(Step(start, 1, Arrive(m)), 1, Pop), 1, Arrive(other)), 1, Finish(0, false)).ledger ==
            Ledger([other], [], [After(m, 1)])
  {
    assert Insert([], m) == [m] && Insert([], other) == [other];
    RetriesLeft(m);
    hide Insert, RequeueFate, Weight;
  }

  lemma RetriesLeft(m: Message)
    requires Weight(m) > 1
    ensures RequeueFate(1, 1, m) == Overflowed && m.IncrementRetry() == After(m, 1)
  {
  }

  lemma RunPrefix(maxSize: nat, events: seq<Event>, k: nat)
    requires k < |events|
    ensures Run(maxSize, events[..k + 1]) == Step(Run(maxSize, events[..k]), maxSize, events[k])
  {
    assert events[..k + 1][..k] == events[..k];
  }

  lemma AcceptedOnlyGrows(s: Shared, maxSize: nat, e: Event)
    ensures s.accepted <= Step(s, maxSize, e).accepted
  {
  }
}
