/** The priority message queue (apps/cli/src/agent/message_queue.rs): one deque that stands for
    four first-in-first-out lanes. */
module MessageQueue {
  import opened Wrappers
  import opened Utf8

  datatype Priority = Low | Normal | High | System

  datatype Message = Message(id: string, content: string, priority: Priority, retryCount: nat, maxRetries: nat)
  {
    function IncrementRetry(): Message {
      this.(retryCount := retryCount + 1)
    }

    predicate RetriesExhausted() {
      retryCount > maxRetries
    }
  }

  datatype QueueError = Full | SaveFailed | Panicked

  function Value(p: Priority): nat {
    match p
    case System => 3
    case High => 2
    case Normal => 1
    case Low => 0
  }

  // ----- the deque and its lanes -----

  ghost predicate Ordered(q: seq<Message>) {
    forall i, j :: 0 <= i < j < |q| ==> Value(q[j].priority) <= Value(q[i].priority)
  }

  function Lane(q: seq<Message>, p: Priority): seq<Message> {
    if q == [] then []
    else (if q[0].priority == p then [q[0]] else []) + Lane(q[1..], p)
  }

  /** The first position held by a message of lower priority. */
  function InsertPosition(q: seq<Message>, p: Priority): (i: nat)
    ensures i <= |q|
    ensures forall j :: 0 <= j < i ==> Value(p) <= Value(q[j].priority)
    ensures i < |q| ==> Value(q[i].priority) < Value(p)
  {
    if q == [] || Value(p) > Value(q[0].priority) then 0 else 1 + InsertPosition(q[1..], p)
  }

  function Insert(q: seq<Message>, m: Message): seq<Message> {
    var i := InsertPosition(q, m.priority);
    q[..i] + [m] + q[i..]
  }

  lemma InsertKeepsMessages(q: seq<Message>, m: Message)
    ensures multiset(Insert(q, m)) == multiset(q) + multiset{m}
  {
    var i := InsertPosition(q, m.priority);
    assert q == q[..i] + q[i..];
  }

  lemma {:induction false} LaneOfConcat(a: seq<Message>, b: seq<Message>, p: Priority)
    ensures Lane(a + b, p) == Lane(a, p) + Lane(b, p)
  {
    if a == [] {
      assert a + b == b;
    } else {
      hide Lane;
      assert (a + b)[1..] == a[1..] + b;
      LaneOfConcat(a[1..], b, p);
      LaneOfCons(a, p);
      LaneOfCons(a + b, p);
      ConsConcat(a[0], Lane(a[1..], p), Lane(b, p));
    }
  }

  lemma LaneEmpty(q: seq<Message>, p: Priority)
    requires forall i :: 0 <= i < |q| ==> q[i].priority != p
    ensures Lane(q, p) == []
  {
  }

  /** The front of the deque is the front of the first lane that is not empty. */
  lemma FrontOfFirstLane(q: seq<Message>, p: Priority)
    requires Ordered(q) && q != []
    ensures Ordered(q[1..])
    ensures Value(p) > Value(q[0].priority) ==> Lane(q, p) == []
    ensures Lane(q, q[0].priority) == [q[0]] + Lane(q[1..], q[0].priority)
    ensures p != q[0].priority ==> Lane(q, p) == Lane(q[1..], p)
  {
    if Value(p) > Value(q[0].priority) {
      LaneEmpty(q, p);
    }
  }

  function Lanes(q: seq<Message>): seq<Message> {
    Lane(q, System) + (Lane(q, High) + (Lane(q, Normal) + Lane(q, Low)))
  }

  lemma ConsConcat(x: Message, a: seq<Message>, b: seq<Message>)
    ensures ([x] + a) + b == [x] + (a + b)
  {
  }

  lemma LaneOfCons(q: seq<Message>, p: Priority)
    requires q != []
    ensures Lane(q, p) == if q[0].priority == p then [q[0]] + Lane(q[1..], p) else Lane(q[1..], p)
  {
  }

  lemma LanesOfCons(q: seq<Message>)
    requires q != []
    requires forall p :: Value(p) > Value(q[0].priority) ==> Lane(q, p) == []
    ensures Lanes(q) == [q[0]] + Lanes(q[1..])
  {
    hide Lane;
    var x, t := q[0], q[1..];
    LaneOfCons(q, System);
    LaneOfCons(q, High);
    LaneOfCons(q, Normal);
    LaneOfCons(q, Low);
    var s, h, n, l := Lane(t, System), Lane(t, High), Lane(t, Normal), Lane(t, Low);
    match x.priority {
      case System => ConsConcat(x, s, h + (n + l));
      case High => ConsConcat(x, h, n + l);
      case Normal => ConsConcat(x, n, l);
      case Low =>
    }
  }

  /** An ordered deque is its four lanes, one after the other. */
  lemma {:induction false} LanesMakeDeque(q: seq<Message>)
    requires Ordered(q)
    ensures q == Lanes(q)
  {
    if q == [] {
    } else {
      forall p | Value(p) > Value(q[0].priority) ensures Lane(q, p) == [] {
        LaneEmpty(q, p);
      }
      LanesMakeDeque(q[1..]);
      LanesOfCons(q);
    }
  }

  lemma InsertKeepsOrder(q: seq<Message>, m: Message)
    requires Ordered(q)
    ensures Ordered(Insert(q, m))
  {
    var i, r := InsertPosition(q, m.priority), Insert(q, m);
    forall k | 0 <= k < |r|
      ensures r[k] == if k < i then q[k] else if k == i then m else q[k - 1]
    {
    }
  }

  lemma LaneAround(a: seq<Message>, m: Message, b: seq<Message>, p: Priority)
    requires p == m.priority ==> Lane(b, p) == []
    ensures Lane(a + [m] + b, p) == if p == m.priority then Lane(a + b, p) + [m] else Lane(a + b, p)
  {
    LaneOfConcat(a + [m], b, p);
    LaneOfConcat(a, [m], p);
    LaneOfConcat(a, b, p);
    assert Lane([m], p) == if p == m.priority then [m] else [];
  }

  lemma LaneBehindInsertion(q: seq<Message>, p: Priority)
    requires Ordered(q)
    ensures Lane(q[InsertPosition(q, p)..], p) == []
  {
    LaneEmpty(q[InsertPosition(q, p)..], p);
  }

  /** Insertion appends to the message's own lane and leaves the other lanes alone. */
  lemma InsertAppendsToLane(q: seq<Message>, m: Message, p: Priority)
    requires Ordered(q)
    ensures Lane(Insert(q, m), p) == if p == m.priority then Lane(q, p) + [m] else Lane(q, p)
  {
    LaneBehindInsertion(q, m.priority);
    SplitAt(q, InsertPosition(q, m.priority));
    LaneAround(q[..InsertPosition(q, m.priority)], m, q[InsertPosition(q, m.priority)..], p);
  }

  lemma SplitAt(q: seq<Message>, i: nat)
    requires i <= |q|
    ensures q[..i] + q[i..] == q
  {
  }

  // ----- re-queueing -----

  datatype Fate = Requeued | Exhausted | Overflowed

  function RequeueFate(size: nat, maxSize: nat, m: Message): Fate {
    if m.IncrementRetry().RetriesExhausted() then Exhausted
    else if size >= maxSize then Overflowed
    else Requeued
  }

  /** A failed message goes to the tail of its lane with one more retry, or is gone. */
  function Requeue(q: seq<Message>, maxSize: nat, m: Message): seq<Message> {
    if RequeueFate(|q|, maxSize, m) == Requeued then Insert(q, m.IncrementRetry()) else q
  }

  // ----- the queue object -----

  /** `disk` is the persisted copy; `saveOk` parameters say whether writing it succeeds. */
  class Queue {
    var queue: seq<Message>
    const persistent: bool
    const maxSize: nat
    var disk: Option<seq<Message>>

    ghost predicate Valid()
      reads this
    {
      Ordered(queue) && (disk.Some? ==> Ordered(disk.value))
    }

    constructor (maxSize: nat)
      ensures Valid() && queue == [] && !persistent && disk == None && this.maxSize == maxSize
    {
      this.maxSize, persistent := maxSize, false;
      queue, disk := [], None;
    }

    /** Opens the persisted copy left by an earlier queue, if there is one. */
    constructor WithPersistence(maxSize: nat, stored: Option<seq<Message>>)
      requires stored.Some? ==> Ordered(stored.value)
      ensures Valid() && persistent && disk == stored && this.maxSize == maxSize
      ensures queue == if stored.Some? then stored.value else []
    {
      this.maxSize, persistent := maxSize, true;
      queue, disk := if stored.Some? then stored.value else [], stored;
    }

    method Save(saveOk: bool)
      requires Valid()
      modifies this`disk
      ensures Valid() && disk == if persistent && saveOk then Some(queue) else old(disk)
    {
      if persistent && saveOk {
        disk := Some(queue);
      }
    }

    method FindInsertPosition(m: Message) returns (position: nat)
      ensures position == InsertPosition(queue, m.priority)
    {
      position := 0;
      while position < |queue|
        invariant position <= |queue|
        invariant position + InsertPosition(queue[position..], m.priority) == InsertPosition(queue, m.priority)
      {
        if Value(m.priority) > Value(queue[position].priority) {
          return;
        }
        assert queue[position..][1..] == queue[position + 1..];
        position := position + 1;
      }
    }

    /** A save error is reported although the message is queued. */
    method Push(m: Message, saveOk: bool) returns (r: Result<(), QueueError>)
      requires Valid()
      modifies this
      ensures Valid()
      ensures queue == if old(|queue|) >= maxSize then old(queue) else Insert(old(queue), m)
      ensures disk == if persistent && saveOk && old(|queue|) < maxSize then Some(queue) else old(disk)
      ensures r == if old(|queue|) >= maxSize then Err(Full)
                   else if persistent && !saveOk then Err(SaveFailed) else Ok(())
    {
      if |queue| >= maxSize {
        return Err(Full);
      }
      var position := FindInsertPosition(m);
      InsertKeepsOrder(queue, m);
      queue := queue[..position] + [m] + queue[position..];
      Save(saveOk);
      r := if persistent && !saveOk then Err(SaveFailed) else Ok(());
    }

    method Pop(saveOk: bool) returns (m: Option<Message>)
      requires Valid()
      modifies this
      ensures Valid()
      ensures m == if old(queue) == [] then None else Some(old(queue)[0])
      ensures queue == if old(queue) == [] then [] else old(queue)[1..]
      ensures disk == if persistent && saveOk && old(queue) != [] then Some(queue) else old(disk)
    {
      if queue == [] {
        return None;
      }
      m := Some(queue[0]);
      queue := queue[1..];
      Save(saveOk);
    }

    /** `logs`: warnings are logged.  The one about a discarded message cuts it after 50 bytes, which
        panics inside a character; the message is gone either way. */
    method RequeueMessage(m: Message, saveOk: bool, logs: bool) returns (r: Result<(), QueueError>)
      requires Valid()
      modifies this
      ensures Valid()
      ensures queue == Requeue(old(queue), maxSize, m)
      ensures disk == if persistent && saveOk && RequeueFate(old(|queue|), maxSize, m) == Requeued
                      then Some(queue) else old(disk)
      ensures r == match RequeueFate(old(|queue|), maxSize, m)
                   case Exhausted => if logs && Splits(m.content, 50) then Err(Panicked) else Ok(())
                   case Overflowed => Err(Full)
                   case Requeued => if persistent && !saveOk then Err(SaveFailed) else Ok(())
    {
      var again := m.IncrementRetry();
      if again.RetriesExhausted() {
        return if logs && Splits(again.content, 50) then Err(Panicked) else Ok(());
      }
      r := Push(again, saveOk);
    }

    method Clear(saveOk: bool) returns (r: Result<(), QueueError>)
      requires Valid()
      modifies this
      ensures Valid() && queue == []
      ensures disk == if persistent && saveOk then Some([]) else old(disk)
      ensures r == if persistent && !saveOk then Err(SaveFailed) else Ok(())
    {
      queue := [];
      Save(saveOk);
      r := if persistent && !saveOk then Err(SaveFailed) else Ok(());
    }

    method Drain(saveOk: bool) returns (messages: seq<Message>)
      requires Valid()
      modifies this
      ensures Valid() && queue == [] && messages == old(queue)
      ensures disk == if persistent && saveOk then Some([]) else old(disk)
    {
      messages := queue;
      queue := [];
      Save(saveOk);
    }

    method ByPriority(p: Priority) returns (messages: seq<Message>)
      ensures messages == Lane(queue, p)
    {
      messages := [];
      for i := 0 to |queue|
        invariant messages + Lane(queue[i..], p) == Lane(queue, p)
      {
        assert queue[i..][1..] == queue[i + 1..];
        if queue[i].priority == p {
          messages := messages + [queue[i]];
        }
      }
    }
  }
}
