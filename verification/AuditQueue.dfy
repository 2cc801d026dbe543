/** The audit writer's queue (`backend/app/audit/service.py`): a bounded queue that drops its oldest
    event, drop accounting, the shutdown sentinel, and the consumer's bounded batches. */
module AuditQueue {
  import opened Basics

  const BATCH_MAX: nat := 100

  datatype Item<E> = Entry(event: E) | Stop

  /** `capacity` 0 means unbounded, as in `asyncio.Queue`.  `reported` adds up the counts of the
      aggregate overflow errors logged so far. */
  datatype QueueState<E> = QueueState(queue: seq<Item<E>>, capacity: nat, unfinished: int, closed: bool,
                                      droppedTotal: nat, droppedSinceLog: nat, lastDropLog: real, reported: nat)
  {
    predicate Full() {
      capacity > 0 && |queue| >= capacity
    }

    predicate Bounded() {
      capacity > 0 ==> |queue| <= capacity
    }
  }

  /** Drop the oldest entry, if the queue is full. */
  function MadeRoom<E>(s: QueueState<E>): (r: QueueState<E>)
  {
    if s.Full() && s.queue != [] then s.(queue := s.queue[1..], unfinished := s.unfinished - 1) else s
  }

  function Put<E>(s: QueueState<E>, item: Item<E>): QueueState<E> {
    s.(queue := s.queue + [item], unfinished := s.unfinished + 1)
  }

  /** `_note_drop`: one aggregate report per interval, and always one for the first drop. */
  function DropNoted<E>(s: QueueState<E>, now: real, interval: real): (r: QueueState<E>)
  {
    var counted := s.(droppedTotal := s.droppedTotal + 1, droppedSinceLog := s.droppedSinceLog + 1);
    if s.lastDropLog != 0.0 && now - s.lastDropLog < interval then counted
    else counted.(reported := s.reported + counted.droppedSinceLog, droppedSinceLog := 0, lastDropLog := now)
  }

  /** `_enqueue`. */
  function Enqueued<E>(s: QueueState<E>, event: E, now: real, interval: real): QueueState<E> {
    if s.closed then s
    else Put(if s.Full() && s.queue != [] then DropNoted(MadeRoom(s), now, interval) else s, Entry(event))
  }

  /** The queue side of `close`, with a consumer to stop. */
  function CloseRequested<E>(s: QueueState<E>): QueueState<E> {
    if s.closed then s else Put(MadeRoom(s).(closed := true), Stop)
  }

  /** Leading entries of the queue, at most `n`. */
  function Leading<E>(queue: seq<Item<E>>, n: nat): (k: nat)
    ensures k <= n && k <= |queue|
    ensures forall i | 0 <= i < k :: queue[i].Entry?
    ensures k < n && k < |queue| ==> queue[k].Stop?
  {
    if n == 0 || queue == [] || queue[0].Stop? then 0 else 1 + Leading(queue[1..], n - 1)
  }

  function Events<E>(items: seq<Item<E>>): (r: seq<E>)
    requires forall i | 0 <= i < |items| :: items[i].Entry?
    ensures |r| == |items| && forall i | 0 <= i < |r| :: r[i] == items[i].event
  {
    if items == [] then [] else [items[0].event] + Events(items[1..])
  }

  /** One batch: up to `BATCH_MAX` entries; a sentinel met before that is consumed and ends it. */
  function Batched<E>(queue: seq<Item<E>>): (r: (seq<Item<E>>, seq<E>, bool))
    requires queue != []
  {
    var k := Leading(queue, BATCH_MAX);
    var stop := k < BATCH_MAX && k < |queue|;
    (queue[if stop then k + 1 else k..], Events(queue[..k]), stop)
  }

  class AuditService<E(==)> {
    var queue: seq<Item<E>>
    const capacity: nat
    var unfinished: int
    var closed: bool
    var droppedTotal: nat
    var droppedSinceLog: nat
    var lastDropLog: real
    var reported: nat
    const dropLogInterval: real

    function Model(): QueueState<E>
      reads this
    {
      QueueState(queue, capacity, unfinished, closed, droppedTotal, droppedSinceLog, lastDropLog, reported)
    }

    constructor (capacity: nat, interval: real)
      ensures Model() == QueueState([], capacity, 0, false, 0, 0, 0.0, 0) && dropLogInterval == interval
    {
      queue, unfinished, closed := [], 0, false;
      droppedTotal, droppedSinceLog, lastDropLog, reported := 0, 0, 0.0, 0;
      this.capacity, dropLogInterval := capacity, interval;
    }

    method PutNowait(item: Item<E>) returns (full: bool)
      modifies this`queue, this`unfinished
      ensures full <==> old(Model()).Full()
      ensures Model() == if full then old(Model()) else Put(old(Model()), item)
    {
      full := capacity > 0 && |queue| >= capacity;
      if !full {
        queue := queue + [item];
        unfinished := unfinished + 1;
      }
    }

    method NoteDrop(now: real)
      modifies this`droppedTotal, this`droppedSinceLog, this`lastDropLog, this`reported
      ensures Model() == DropNoted(old(Model()), now, dropLogInterval)
    {
      droppedTotal := droppedTotal + 1;
      droppedSinceLog := droppedSinceLog + 1;
      if lastDropLog != 0.0 && now - lastDropLog < dropLogInterval {
        return;
      }
      reported := reported + droppedSinceLog;
      droppedSinceLog := 0;
      lastDropLog := now;
    }

    /** `_enqueue`: never raises and never blocks. */
    method Enqueue(event: E, now: real)
      requires Model().Bounded()
      modifies this
      ensures Model() == Enqueued(old(Model()), event, now, dropLogInterval) && Model().Bounded()
    {
      if closed {
        return;
      }
      var full := PutNowait(Entry(event));
      while full
        invariant full ==> old(Model()).Full() && old(queue) != []
        invariant full ==> Model() == old(Model())
        invariant !full ==> Model() == Enqueued(old(Model()), event, now, dropLogInterval) && Model().Bounded()
        decreases full
      {
        queue := queue[1..];
        unfinished := unfinished - 1;
        NoteDrop(now);
        full := PutNowait(Entry(event));
      }
    }

    /** The queue side of `close`. */
    method RequestClose()
      requires Model().Bounded()
      modifies this
      ensures Model() == CloseRequested(old(Model())) && Model().Bounded()
    {
      if closed {
        return;
      }
      closed := true;
      var full := PutNowait(Stop);
      while full
        invariant full ==> old(Model()).Full() && old(queue) != []
        invariant full ==> Model() == old(Model()).(closed := true)
        invariant !full ==> Model() == CloseRequested(old(Model())) && Model().Bounded()
        decreases full
      {
        queue := queue[1..];
        unfinished := unfinished - 1;
        full := PutNowait(Stop);
      }
    }

    /** One round of `_consume` up to the write: wait for an item, then drain what is there. */
    method TakeBatch() returns (batch: seq<E>, stop: bool)
      requires queue != []
      modifies this`queue
      ensures (queue, batch, stop) == Batched(old(queue))
    {
      ghost var q := queue;
      var item := queue[0];
      queue := queue[1..];
      stop, batch := item.Stop?, [];
      if stop {
        return;
      }
      batch := [item.event];
      LeadingTail(q, BATCH_MAX);
      while |batch| < BATCH_MAX
        invariant 1 <= |batch| <= BATCH_MAX && |batch| <= |q| && queue == q[|batch|..] && !stop
        invariant forall i | 0 <= i < |batch| :: q[i].Entry? && batch[i] == q[i].event
        invariant Leading(q, BATCH_MAX) == |batch| + Leading(queue, BATCH_MAX - |batch|)
      {
        if queue == [] {
          break;
        }
        var next := queue[0];
        assert queue[1..] == q[|batch| + 1..];
        queue := queue[1..];
        if next.Stop? {
          stop := true;
          break;
        }
        batch := batch + [next.event];
      }
      assert batch == Events(q[..|batch|]);
    }

    /** The `task_done` calls after a batch. */
    method BatchDone(size: nat, stop: bool)
      modifies this`unfinished
      ensures unfinished == old(unfinished) - size - (if stop then 1 else 0)
    {
      for i := 0 to size + (if stop then 1 else 0)
        invariant unfinished == old(unfinished) - i
      {
        unfinished := unfinished - 1;
      }
    }
  }

  lemma LeadingTail<E>(queue: seq<Item<E>>, n: nat)
    requires 1 <= n && queue != [] && queue[0].Entry?
    ensures Leading(queue, n) == 1 + Leading(queue[1..], n - 1)
  {
  }

  // ----- writing a batch -----

  /** Each event in its own transaction, failing ones skipped. */
  function OneByOne<Db, E>(db: Db, events: seq<E>, execute: (Db, E) -> Option<Db>): (r: Db)
    decreases |events|
  {
    if events == [] then db else OneByOne(execute(db, events[0]).GetOr(db), events[1..], execute)
  }

  /** `_write_batch`: one transaction, rolled back on any failure and retried event by event. */
  method WriteBatch<Db, E>(db: Db, batch: seq<E>, execute: (Db, E) -> Option<Db>) returns (after: Db)
    ensures after == OneByOne(db, batch, execute)
    decreases |batch|
  {
    var session := db;
    var failed := false;
    var i := 0;
    while i < |batch| && !failed
      invariant i <= |batch|
      invariant !failed ==> OneByOne(db, batch, execute) == OneByOne(session, batch[i..], execute)
      invariant failed ==> batch != [] && (|batch| == 1 ==> execute(db, batch[0]) == None)
      invariant i == 0 ==> session == db
    {
      assert batch[i..][1..] == batch[i + 1..];
      match execute(session, batch[i]) {
        case Some(next) => session := next;
        case None => failed := true;
      }
      i := i + 1;
    }
    if !failed {
      return session;
    }
    after := db;
    if |batch| == 1 {
      return;
    }
    for j := 0 to |batch|
      invariant OneByOne(db, batch, execute) == OneByOne(after, batch[j..], execute)
    {
      assert batch[j..][1..] == batch[j + 1..];
      OneByOneSingle(after, batch[j], execute);
      after := WriteBatch(after, [batch[j]], execute);
    }
  }

  lemma OneByOneSingle<Db, E>(db: Db, e: E, execute: (Db, E) -> Option<Db>)
    ensures OneByOne(db, [e], execute) == execute(db, e).GetOr(db)
  {
    assert [e][1..] == [];
  }

  lemma {:induction false} OneByOneAppend<Db, E>(db: Db, a: seq<E>, b: seq<E>, execute: (Db, E) -> Option<Db>)
    ensures OneByOne(db, a + b, execute) == OneByOne(OneByOne(db, a, execute), b, execute)
    decreases |a|
  {
    if a == [] {
      assert a + b == b;
    } else {
      assert (a + b)[1..] == a[1..] + b;
      OneByOneAppend(execute(db, a[0]).GetOr(db), a[1..], b, execute);
    }
  }

  function Flatten<E>(batches: seq<seq<E>>): seq<E> {
    if batches == [] then [] else batches[0] + Flatten(batches[1..])
  }

  /** The database after the consumer wrote one batch after the other. */
  function WriteAll<Db, E>(db: Db, batches: seq<seq<E>>, execute: (Db, E) -> Option<Db>): Db
    decreases |batches|
  {
    if batches == [] then db else WriteAll(OneByOne(db, batches[0], execute), batches[1..], execute)
  }

  lemma {:induction false} WriteAllFlat<Db, E>(db: Db, batches: seq<seq<E>>, execute: (Db, E) -> Option<Db>)
    ensures WriteAll(db, batches, execute) == OneByOne(db, Flatten(batches), execute)
    decreases |batches|
  {
    if batches != [] {
      OneByOneAppend(db, batches[0], Flatten(batches[1..]), execute);
      WriteAllFlat(OneByOne(db, batches[0], execute), batches[1..], execute);
    }
  }

  /** Batching is transparent: however the same stream of events is split into batches, the database
      ends up the same. */
  lemma BatchingTransparent<Db, E>(db: Db, one: seq<seq<E>>, other: seq<seq<E>>, execute: (Db, E) -> Option<Db>)
    requires Flatten(one) == Flatten(other)
    ensures WriteAll(db, one, execute) == WriteAll(db, other, execute)
  {
    WriteAllFlat(db, one, execute);
    WriteAllFlat(db, other, execute);
  }
}
