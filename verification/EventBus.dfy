/** The fan-out of `backend/app/state/events.py` and the streaming loop of
    `backend/app/api/websocket.py`: per-subscriber bounded queues that drop their oldest event, and a
    degraded flag that is read and cleared with the next delivered event. */
module EventBus {
  import opened Basics
  import opened Store

  datatype BusEvent = BusEvent(seqNo: nat, event: StoreEvent)

  datatype SubscriptionState = SubscriptionState(queue: seq<BusEvent>, capacity: nat, degraded: bool, closed: bool)

  /** One wire message of the stream. */
  datatype Message = Message(seqNo: nat, event: StoreEvent, degraded: bool)

  /** `publish`, as one subscriber sees it. */
  function Offered(s: SubscriptionState, e: BusEvent): (r: SubscriptionState)
    requires s.capacity >= 1
  {
    if |s.queue| < s.capacity then s.(queue := s.queue + [e])
    else s.(queue := s.queue[|s.queue| - s.capacity + 1..] + [e], degraded := true)
  }

  /** Several events published one after the other, from bus counter `published` on. */
  function OfferedAll(s: SubscriptionState, published: nat, events: seq<StoreEvent>): (r: SubscriptionState)
    requires s.capacity >= 1
    ensures r.capacity == s.capacity
    decreases |events|
  {
    if events == [] then s else OfferedAll(Offered(s, BusEvent(published + 1, events[0])), published + 1, events[1..])
  }

  /** One turn of `_stream_events`: events the snapshot covers are skipped silently; any other is
      sent with the degraded flag, which is then clear. */
  function StreamTurn(s: SubscriptionState, afterSeq: nat): (r: (SubscriptionState, Option<Message>))
    requires s.queue != []
  {
    var e := s.queue[0];
    if e.seqNo <= afterSeq then (s.(queue := s.queue[1..]), None)
    else (s.(queue := s.queue[1..], degraded := false), Some(Message(e.seqNo, e.event, s.degraded)))
  }

  class Subscription {
    var queue: seq<BusEvent>
    const capacity: nat
    var degraded: bool
    var closed: bool

    function Model(): SubscriptionState
      reads this
    {
      SubscriptionState(queue, capacity, degraded, closed)
    }

    constructor (capacity: nat)
      ensures Model() == SubscriptionState([], capacity, false, false)
    {
      queue, degraded, closed := [], false, false;
      this.capacity := capacity;
    }

    method PutNowait(e: BusEvent) returns (full: bool)
      modifies this`queue
      ensures full <==> |old(queue)| >= capacity
      ensures queue == if full then old(queue) else old(queue) + [e]
    {
      full := |queue| >= capacity;
      if !full {
        queue := queue + [e];
      }
    }

    /** A subscriber's part of `publish`: put, or drop the oldest and put. */
    method Offer(e: BusEvent)
      requires 1 <= capacity && |queue| <= capacity
      modifies this`queue, this`degraded
      ensures Model() == Offered(old(Model()), e) && |queue| <= capacity
    {
      var full := PutNowait(e);
      if full {
        queue := queue[1..];
        degraded := true;
        full := PutNowait(e);
      }
    }

    method ConsumeDegraded() returns (was: bool)
      modifies this`degraded
      ensures was == old(degraded) && !degraded
    {
      was, degraded := degraded, false;
    }

    /** `__anext__` once the queue holds an event; `None` ends the iteration. */
    method Next() returns (e: Option<BusEvent>)
      requires closed || queue != []
      modifies this`queue
      ensures e == if closed then None else Some(old(queue)[0])
      ensures queue == if closed then old(queue) else old(queue)[1..]
    {
      if closed {
        return None;
      }
      e := Some(queue[0]);
      queue := queue[1..];
    }

    /** One turn of `_stream_events` on this subscription. */
    method StreamNext(afterSeq: nat) returns (message: Option<Message>)
      requires !closed && queue != []
      modifies this
      ensures (Model(), message) == StreamTurn(old(Model()), afterSeq)
    {
      var next := Next();
      var e := next.value;
      if e.seqNo <= afterSeq {
        return None;
      }
      var lost := ConsumeDegraded();
      return Some(Message(e.seqNo, e.event, lost));
    }
  }

  class EventBus {
    var seqNo: nat
    var subscriptions: set<Subscription>
    const maxQueue: nat

    ghost predicate Valid()
      reads this, subscriptions
    {
      maxQueue >= 1 && forall s | s in subscriptions :: s.capacity == maxQueue && |s.queue| <= maxQueue
    }

    constructor (maxQueue: int)
      ensures Valid() && seqNo == 0 && subscriptions == {}
      ensures this.maxQueue == if maxQueue < 1 then 1 else maxQueue
    {
      seqNo, subscriptions := 0, {};
      this.maxQueue := if maxQueue < 1 then 1 else maxQueue;
    }

    method Subscribe() returns (s: Subscription)
      requires Valid()
      modifies this`subscriptions
      ensures Valid() && fresh(s) && subscriptions == old(subscriptions) + {s}
      ensures s.Model() == SubscriptionState([], maxQueue, false, false)
    {
      s := new Subscription(maxQueue);
      subscriptions := subscriptions + {s};
    }

    /** `aclose`: unsubscribe, idempotently. */
    method Close(s: Subscription)
      requires Valid()
      modifies this`subscriptions, s`closed
      ensures Valid() && s.closed && subscriptions == old(subscriptions) - {s}
    {
      s.closed := true;
      subscriptions := subscriptions - {s};
    }

    method Publish(event: StoreEvent)
      requires Valid()
      modifies this`seqNo, subscriptions
      ensures Valid() && seqNo == old(seqNo) + 1
      ensures forall s | s in subscriptions :: s.Model() == Offered(old(s.Model()), BusEvent(seqNo, event))
    {
      seqNo := seqNo + 1;
      var busEvent := BusEvent(seqNo, event);
      var todo := subscriptions;
      while todo != {}
        invariant todo <= subscriptions && seqNo == old(seqNo) + 1
        invariant forall s | s in todo :: s.Model() == old(s.Model())
        invariant forall s | s in subscriptions - todo :: s.Model() == Offered(old(s.Model()), busEvent)
        decreases todo
      {
        var s :| s in todo;
        todo := todo - {s};
        s.Offer(busEvent);
      }
    }
  }

  /** `StateStore._emit` with the bus's `publish` attached as the notify hook. */
  method Emit(bus: EventBus, events: seq<StoreEvent>)
    requires bus.Valid()
    modifies bus`seqNo, bus.subscriptions
    ensures bus.Valid() && bus.seqNo == old(bus.seqNo) + |events|
    ensures forall s | s in bus.subscriptions :: s.Model() == OfferedAll(old(s.Model()), old(bus.seqNo), events)
  {
    for i := 0 to |events|
      invariant bus.Valid() && bus.seqNo == old(bus.seqNo) + i
      invariant forall s | s in bus.subscriptions ::
              s.Model() == OfferedAll(old(s.Model()), old(bus.seqNo), events[..i])
    {
      bus.Publish(events[i]);
      assert events[..i + 1] == events[..i] + [events[i]];
      forall s | s in bus.subscriptions
        ensures s.Model() == OfferedAll(old(s.Model()), old(bus.seqNo), events[..i + 1])
      {
        OfferedAllSnoc(old(s.Model()), old(bus.seqNo), events[..i], events[i]);
      }
    }
    assert events[..|events|] == events;
  }

  lemma {:induction false} OfferedAllSnoc(s: SubscriptionState, published: nat, events: seq<StoreEvent>, e: StoreEvent)
    requires s.capacity >= 1
    ensures OfferedAll(s, published, events + [e])
            == Offered(OfferedAll(s, published, events), BusEvent(published + |events| + 1, e))
    decreases |events|
  {
    if events == [] {
      assert [e][1..] == [];
    } else {
      assert (events + [e])[1..] == events[1..] + [e];
      OfferedAllSnoc(Offered(s, BusEvent(published + 1, events[0])), published + 1, events[1..], e);
    }
  }

  // ----- the stream of a whole queue -----

  /** The messages a queue still turns into, one turn of the stream after the other. */
  function Sent(s: SubscriptionState, afterSeq: nat): seq<Message>
    decreases |s.queue|
  {
    if s.queue == [] then []
    else
      var (t, message) := StreamTurn(s, afterSeq);
      (match message case None => [] case Some(m) => [m]) + Sent(t, afterSeq)
  }

  /** The events of a queue that come after the snapshot. */
  function Later(queue: seq<BusEvent>, afterSeq: nat): seq<BusEvent> {
    if queue == [] then []
    else (if afterSeq < queue[0].seqNo then [queue[0]] else []) + Later(queue[1..], afterSeq)
  }

  /** A queue is sent as its events after the snapshot, in order; the first carries the degraded flag, and
      no other does. */
  lemma {:induction false} SentIsLater(s: SubscriptionState, afterSeq: nat)
    ensures |Sent(s, afterSeq)| == |Later(s.queue, afterSeq)|
    ensures forall k | 0 <= k < |Sent(s, afterSeq)| ::
              var e := Later(s.queue, afterSeq)[k];
              Sent(s, afterSeq)[k] == Message(e.seqNo, e.event, k == 0 && s.degraded)
    decreases |s.queue|
  {
    if s.queue != [] {
      var t := StreamTurn(s, afterSeq).0;
      assert t.queue == s.queue[1..];
      SentIsLater(t, afterSeq);
    }
  }
}
