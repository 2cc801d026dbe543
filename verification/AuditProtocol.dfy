/** The life of the audit writer: producers, the consumer and shutdown interleaved.  Accepted events
    are numbered 0, 1, 2, ... in acceptance order. */
module AuditProtocol {
  import opened Basics
  import opened AuditQueue

  datatype Consumer =
    | NotStarted
    | Waiting
    | Writing(batch: seq<nat>, stop: bool)
    | Exited
    /** Cancelled by the drain timeout, with the first `written` events of its batch committed. */
    | Killed(batch: seq<nat>, written: nat)
  {
    function InHand(): seq<nat> {
      match this
      case Writing(batch, _) => batch
      case Killed(batch, _) => batch
      case _ => []
    }

    predicate Running() { Waiting? || Writing? }
  }

  datatype Setup<!Db> = Setup(initial: Db, execute: (Db, nat) -> Option<Db>, capacity: nat, interval: real)

  /** `dropped` went to overflow, `sacrificed` to make room for the sentinel; both in drop order. */
  datatype Audit<Db> = Audit(q: QueueState<nat>, consumer: Consumer, accepted: nat, dropped: seq<nat>,
                             sacrificed: seq<nat>, processed: seq<nat>, stopSent: bool, stopInHand: bool, db: Db)

  datatype Step =
    | Record(now: real)
    | Start
    | Take
    | Written
    | Close
    | Timeout(written: nat)

  predicate Enabled<Db>(s: Audit<Db>, step: Step) {
    match step
    case Record(_) => true
    case Start => s.consumer.NotStarted?
    case Take => s.consumer.Waiting? && s.q.queue != []
    case Written => s.consumer.Writing?
    case Close => true
    case Timeout(written) => s.stopSent && s.consumer.Running() && written <= |s.consumer.InHand()|
  }

  function EventOf(items: seq<Item<nat>>): seq<nat> {
    if items != [] && items[0].Entry? then [items[0].event] else []
  }

  function Recorded<Db>(setup: Setup<Db>, s: Audit<Db>, now: real): Audit<Db> {
    s.(q := Enqueued(s.q, s.accepted, now, setup.interval),
       accepted := if s.q.closed then s.accepted else s.accepted + 1,
       dropped := if !s.q.closed && s.q.Full() then s.dropped + EventOf(s.q.queue) else s.dropped)
  }

  function Taken<Db>(s: Audit<Db>): Audit<Db>
    requires s.q.queue != []
  {
    var (queue, batch, stop) := Batched(s.q.queue);
    s.(q := s.q.(queue := queue), consumer := Writing(batch, stop), stopInHand := stop)
  }

  function BatchWritten<Db>(setup: Setup<Db>, s: Audit<Db>): Audit<Db>
    requires s.consumer.Writing?
  {
    var batch, stop := s.consumer.batch, s.consumer.stop;
    s.(db := OneByOne(s.db, batch, setup.execute), processed := s.processed + batch, stopInHand := false,
       q := s.q.(unfinished := s.q.unfinished - |batch| - if stop then 1 else 0),
       consumer := if stop then Exited else Waiting)
  }

  /** `close` up to its wait: without a consumer it only shuts the door. */
  function Closing<Db>(s: Audit<Db>): Audit<Db> {
    if s.consumer.NotStarted? then s.(q := s.q.(closed := true))
    else
      s.(q := CloseRequested(s.q), stopSent := s.stopSent || !s.q.closed,
         sacrificed := if !s.q.closed && s.q.Full() then EventOf(s.q.queue) else s.sacrificed)
  }

  function TimedOut<Db>(setup: Setup<Db>, s: Audit<Db>, written: nat): Audit<Db>
    requires written <= |s.consumer.InHand()|
  {
    s.(db := OneByOne(s.db, s.consumer.InHand()[..written], setup.execute),
       consumer := Killed(s.consumer.InHand(), written))
  }

  function Next<Db>(setup: Setup<Db>, s: Audit<Db>, step: Step): Audit<Db>
    requires Enabled(s, step)
  {
    match step
    case Record(now) => Recorded(setup, s, now)
    case Start => s.(consumer := Waiting)
    case Take => Taken(s)
    case Written => BatchWritten(setup, s)
    case Close => Closing(s)
    case Timeout(written) => TimedOut(setup, s, written)
  }

  function Initial<Db>(setup: Setup<Db>): Audit<Db> {
    Audit(QueueState([], setup.capacity, 0, false, 0, 0, 0.0, 0), NotStarted, 0, [], [], [], false, false,
          setup.initial)
  }

  predicate Runs<Db>(setup: Setup<Db>, s: Audit<Db>, steps: seq<Step>)
    decreases |steps|
  {
    steps == [] || (Enabled(s, steps[0]) && Runs(setup, Next(setup, s, steps[0]), steps[1..]))
  }

  function After<Db>(setup: Setup<Db>, s: Audit<Db>, steps: seq<Step>): Audit<Db>
    requires Runs(setup, s, steps)
    decreases |steps|
  {
    if steps == [] then s else After(setup, Next(setup, s, steps[0]), steps[1..])
  }

  ghost predicate Reachable<Db(!new)>(setup: Setup<Db>, s: Audit<Db>) {
    exists steps: seq<Step> :: Runs(setup, Initial(setup), steps) && After(setup, Initial(setup), steps) == s
  }

  // ----- what every reachable state keeps -----

  predicate SentinelLast(queue: seq<Item<nat>>) {
    queue != [] && queue[|queue| - 1].Stop?
  }

  function Entries(queue: seq<Item<nat>>): (n: nat)
    ensures n <= |queue|
  {
    if SentinelLast(queue) then |queue| - 1 else |queue|
  }

  /** The queue is a contiguous run of accepted events up to the newest, then perhaps the sentinel. */
  predicate SuffixOk(queue: seq<Item<nat>>, accepted: nat) {
    Entries(queue) <= accepted
    && forall i | 0 <= i < Entries(queue) :: queue[i] == Entry(accepted - Entries(queue) + i)
  }

  predicate SentinelOk<Db>(s: Audit<Db>) {
    && (SentinelLast(s.q.queue) ==> s.stopSent)
    && (s.stopSent ==> s.q.closed && !s.consumer.NotStarted?)
    && (s.stopSent && (s.consumer.Waiting? || (s.consumer.Writing? && !s.consumer.stop)) ==> SentinelLast(s.q.queue))
    && (s.consumer.Exited? || (s.consumer.Writing? && s.consumer.stop) ==> s.stopSent && s.q.queue == [])
    && (s.consumer.Killed? ==>
          s.stopSent && s.consumer.written <= |s.consumer.batch| && (s.stopInHand <==> !SentinelLast(s.q.queue)))
  }

  predicate CountsOk<Db>(setup: Setup<Db>, s: Audit<Db>) {
    && s.q.capacity == setup.capacity && s.q.Bounded()
    && s.q.unfinished == |s.q.queue| + |s.consumer.InHand()| + (if s.stopInHand then 1 else 0)
    && (s.consumer.Writing? ==> s.stopInHand == s.consumer.stop)
    && (s.stopInHand ==> s.consumer.Writing? || s.consumer.Killed?)
    && s.q.droppedTotal == |s.dropped| == s.q.reported + s.q.droppedSinceLog
    && |s.sacrificed| <= 1
    && (!s.stopSent ==> s.sacrificed == [])
  }

  function Handled<Db>(s: Audit<Db>): multiset<nat> {
    multiset(s.dropped) + multiset(s.sacrificed) + multiset(s.processed) + multiset(s.consumer.InHand())
  }

  /** Every event no longer queued was handled exactly once; no other event was handled. */
  ghost predicate ExactlyOnce(handled: multiset<nat>, first: int) {
    forall k: nat :: handled[k] == if k < first then 1 else 0
  }

  predicate Increasing(s: seq<nat>) {
    forall i, j | 0 <= i < j < |s| :: s[i] < s[j]
  }

  ghost predicate LedgerOk<Db>(s: Audit<Db>) {
    && SuffixOk(s.q.queue, s.accepted)
    && ExactlyOnce(Handled(s), s.accepted - Entries(s.q.queue))
    && Increasing(s.processed + s.consumer.InHand())
    && Increasing(s.dropped)
  }

  function Committed<Db>(s: Audit<Db>): seq<nat>
    requires s.consumer.Killed? ==> s.consumer.written <= |s.consumer.batch|
  {
    s.processed + if s.consumer.Killed? then s.consumer.batch[..s.consumer.written] else []
  }

  ghost predicate Inv<Db>(setup: Setup<Db>, s: Audit<Db>) {
    && SentinelOk(s)
    && CountsOk(setup, s)
    && LedgerOk(s)
    && s.db == OneByOne(setup.initial, Committed(s), setup.execute)
  }

  function Range(lo: nat, hi: nat): (r: seq<nat>)
    requires lo <= hi
  {
    seq(hi - lo, i requires 0 <= i => lo + i)
  }

  lemma {:induction false} RangeCounts(lo: nat, hi: nat, k: nat)
    requires lo <= hi
    ensures multiset(Range(lo, hi))[k] == if lo <= k < hi then 1 else 0
    decreases hi
  {
    if lo < hi {
      assert Range(lo, hi) == Range(lo, hi - 1) + [hi - 1];
      RangeCounts(lo, hi - 1, k);
    } else {
      assert Range(lo, hi) == [];
    }
  }

  /** Handling the next `hi - lo` events in order keeps the ledger exact. */
  lemma HandledNext(handled: multiset<nat>, lo: nat, hi: nat)
    requires lo <= hi && ExactlyOnce(handled, lo)
    ensures ExactlyOnce(handled + multiset(Range(lo, hi)), hi)
  {
    forall k: nat ensures (handled + multiset(Range(lo, hi)))[k] == if k < hi then 1 else 0 {
      RangeCounts(lo, hi, k);
    }
  }

  lemma StaysIncreasing(s: seq<nat>, lo: nat, hi: nat)
    requires lo <= hi && Increasing(s) && forall k <- s :: k < lo
    ensures Increasing(s + Range(lo, hi))
  {
    forall i, j | 0 <= i < j < |s + Range(lo, hi)| ensures (s + Range(lo, hi))[i] < (s + Range(lo, hi))[j] {
      if i < |s| { assert s[i] in s; }
    }
  }

  /** What overflow or the sentinel pushes out is the next event of the ledger. */
  lemma OldestIsNext(queue: seq<Item<nat>>, accepted: nat)
    requires SuffixOk(queue, accepted) && queue != [] && !SentinelLast(queue)
    ensures EventOf(queue) == Range(accepted - |queue|, accepted - |queue| + 1) == [accepted - |queue|]
    ensures SuffixOk(queue[1..], accepted) && !SentinelLast(queue[1..])
  {
    var rest := queue[1..];
    if rest != [] { assert rest[|rest| - 1] == queue[|queue| - 1]; }
    assert forall i | 0 <= i < |rest| :: rest[i] == queue[i + 1];
  }

  /** Putting the next event in `into`, and one item at the end of the queue. */
  lemma LedgerNext(queue: seq<Item<nat>>, accepted: nat, kept: seq<Item<nat>>, handled: multiset<nat>, into: seq<nat>,
                   full: bool)
    requires SuffixOk(queue, accepted) && !SentinelLast(queue)
    requires ExactlyOnce(handled, accepted - Entries(queue))
    requires kept == if full && queue != [] then queue[1..] else queue
    requires forall k <- into :: k in handled
    requires Increasing(into)
    ensures full ==> ExactlyOnce(handled + multiset(EventOf(queue)), accepted - |kept|)
    ensures full ==> Increasing(into + EventOf(queue))
    ensures !full ==> ExactlyOnce(handled, accepted - |kept|)
    ensures SuffixOk(kept, accepted) && !SentinelLast(kept) && |kept| <= accepted
  {
    if full && queue != [] {
      OldestIsNext(queue, accepted);
      var first := accepted - |queue|;
      HandledNext(handled, first, first + 1);
      StaysIncreasing(into, first, first + 1);
    } else if full {
      assert handled + multiset(EventOf(queue)) == handled;
      assert into + EventOf(queue) == into;
    }
  }

  lemma SuffixPut(kept: seq<Item<nat>>, accepted: nat)
    requires SuffixOk(kept, accepted) && !SentinelLast(kept)
    ensures SuffixOk(kept + [Entry(accepted)], accepted + 1)
    ensures Entries(kept + [Entry(accepted)]) == |kept| + 1 && !SentinelLast(kept + [Entry(accepted)])
    ensures SuffixOk(kept + [Stop], accepted) && Entries(kept + [Stop]) == |kept| && SentinelLast(kept + [Stop])
  {
    var put, stopped := kept + [Entry(accepted)], kept + [Stop];
    assert put[|put| - 1] == Entry(accepted) && stopped[|stopped| - 1] == Stop;
    assert forall i | 0 <= i < |kept| :: put[i] == kept[i] && stopped[i] == kept[i];
  }

  lemma RecordedIs<Db>(setup: Setup<Db>, s: Audit<Db>, now: real, kept: seq<Item<nat>>)
    requires !s.q.closed
    requires kept == if s.q.Full() && s.q.queue != [] then s.q.queue[1..] else s.q.queue
    ensures var t := Recorded(setup, s, now);
            && t.q.queue == kept + [Entry(s.accepted)] && t.accepted == s.accepted + 1
            && t == s.(q := t.q, accepted := s.accepted + 1,
                       dropped := if s.q.Full() then s.dropped + EventOf(s.q.queue) else s.dropped)
  {
  }

  /** The handled events once one more is queued, and perhaps one more dropped. */
  lemma HandledStaysExact<Db>(s: Audit<Db>, t: Audit<Db>, kept: seq<Item<nat>>, full: bool)
    requires LedgerOk(s) && !SentinelLast(s.q.queue)
    requires kept == if full && s.q.queue != [] then s.q.queue[1..] else s.q.queue
    requires t.sacrificed == s.sacrificed && t.processed == s.processed && t.consumer == s.consumer
    requires t.dropped == if full then s.dropped + EventOf(s.q.queue) else s.dropped
    ensures ExactlyOnce(Handled(t), s.accepted - |kept|) && Increasing(t.dropped)
    ensures SuffixOk(kept, s.accepted) && !SentinelLast(kept)
  {
    LedgerNext(s.q.queue, s.accepted, kept, Handled(s), s.dropped, full);
    HandledGrows(s, t, full);
  }

  /** A ledger with one more event queued, and perhaps one more dropped. */
  lemma LedgerGrows<Db>(s: Audit<Db>, t: Audit<Db>, kept: seq<Item<nat>>, full: bool)
    requires LedgerOk(s) && !SentinelLast(s.q.queue)
    requires kept == if full && s.q.queue != [] then s.q.queue[1..] else s.q.queue
    requires t.sacrificed == s.sacrificed && t.processed == s.processed && t.consumer == s.consumer
    requires t.dropped == if full then s.dropped + EventOf(s.q.queue) else s.dropped
    requires t.accepted == s.accepted + 1 && t.q.queue == kept + [Entry(s.accepted)]
    ensures LedgerOk(t) && !SentinelLast(t.q.queue)
  {
    HandledStaysExact(s, t, kept, full);
    SuffixPut(kept, s.accepted);
  }

  lemma HandledGrows<Db>(s: Audit<Db>, t: Audit<Db>, full: bool)
    requires t.sacrificed == s.sacrificed && t.processed == s.processed && t.consumer == s.consumer
    requires t.dropped == if full then s.dropped + EventOf(s.q.queue) else s.dropped
    ensures Handled(t) == if full then Handled(s) + multiset(EventOf(s.q.queue)) else Handled(s)
  {
  }

  lemma RecordKeepsLedger<Db>(setup: Setup<Db>, s: Audit<Db>, now: real)
    requires LedgerOk(s) && !SentinelLast(s.q.queue) && !s.q.closed
    ensures LedgerOk(Recorded(setup, s, now))
    ensures !SentinelLast(Recorded(setup, s, now).q.queue)
  {
    var kept := if s.q.Full() && s.q.queue != [] then s.q.queue[1..] else s.q.queue;
    RecordedIs(setup, s, now, kept);
    LedgerGrows(s, Recorded(setup, s, now), kept, s.q.Full());
  }

  lemma RecordKeepsInv<Db>(setup: Setup<Db>, s: Audit<Db>, now: real)
    requires Inv(setup, s) && !s.q.closed
    ensures Inv(setup, Recorded(setup, s, now))
  {
    RecordKeepsLedger(setup, s, now);
    RecordKeepsCounts(setup, s, now);
  }

  lemma RecordKeepsCounts<Db>(setup: Setup<Db>, s: Audit<Db>, now: real)
    requires CountsOk(setup, s) && !SentinelLast(s.q.queue) && SuffixOk(s.q.queue, s.accepted) && !s.q.closed
    ensures CountsOk(setup, Recorded(setup, s, now))
  {
    if s.q.queue != [] { OldestIsNext(s.q.queue, s.accepted); }
  }

  lemma CloseKeepsLedger<Db>(s: Audit<Db>)
    requires LedgerOk(s) && !SentinelLast(s.q.queue) && !s.q.closed && !s.consumer.NotStarted? && s.sacrificed == []
    ensures LedgerOk(Closing(s)) && SentinelLast(Closing(s).q.queue)
  {
    var t := Closing(s);
    var queue := s.q.queue;
    var kept := if s.q.Full() && queue != [] then queue[1..] else queue;
    assert t.q.queue == kept + [Stop];
    LedgerNext(queue, s.accepted, kept, Handled(s), [], s.q.Full());
    SuffixPut(kept, s.accepted);
    if s.q.Full() {
      assert Handled(t) == Handled(s) + multiset(EventOf(queue));
    } else {
      assert Handled(t) == Handled(s);
    }
  }

  lemma CloseKeepsCounts<Db>(setup: Setup<Db>, s: Audit<Db>)
    requires CountsOk(setup, s) && !s.q.closed && !s.consumer.NotStarted? && s.sacrificed == []
    ensures CountsOk(setup, Closing(s))
  {
  }

  lemma CloseKeepsInv<Db>(setup: Setup<Db>, s: Audit<Db>)
    requires Inv(setup, s) && !s.q.closed && !s.consumer.NotStarted?
    ensures Inv(setup, Closing(s))
  {
    CloseKeepsLedger(s);
    CloseKeepsCounts(setup, s);
    var t := Closing(s);
    assert t.consumer == s.consumer && t.db == s.db && t.processed == s.processed && t.stopSent && t.q.closed;
    assert SentinelOk(t);
  }

  lemma BatchIsNext(queue: seq<Item<nat>>, accepted: nat)
    requires SuffixOk(queue, accepted) && queue != []
    ensures var (rest, batch, stop) := Batched(queue);
            var first := accepted - Entries(queue);
            && 0 <= first <= first + |batch| <= accepted
            && batch == Range(first, first + |batch|)
            && Entries(rest) == Entries(queue) - |batch| && SuffixOk(rest, accepted)
            && |rest| == |queue| - |batch| - (if stop then 1 else 0)
            && (stop ==> rest == [] && SentinelLast(queue))
            && (!stop ==> SentinelLast(rest) == SentinelLast(queue))
  {
    var (rest, batch, stop) := Batched(queue);
    var k := Leading(queue, BATCH_MAX);
    assert k <= Entries(queue);
    assert stop ==> k == |queue| - 1;
    assert forall i | 0 <= i < |rest| :: rest[i] == queue[|queue| - |rest| + i];
    if !stop && rest == [] { assert k == |queue|; }
  }

  lemma TakenFacts<Db>(s: Audit<Db>)
    requires SuffixOk(s.q.queue, s.accepted) && s.consumer.Waiting? && s.q.queue != []
    ensures var t := Taken(s);
            && t.consumer.Writing?
            && t == s.(q := s.q.(queue := t.q.queue), consumer := t.consumer, stopInHand := t.consumer.stop)
            && SuffixOk(t.q.queue, s.accepted)
            && 0 <= s.accepted - Entries(s.q.queue) <= s.accepted - Entries(t.q.queue)
            && t.consumer.batch == Range(s.accepted - Entries(s.q.queue), s.accepted - Entries(t.q.queue))
  {
    BatchIsNext(s.q.queue, s.accepted);
  }

  lemma BatchKeepsLedger(dropped: multiset<nat>, processed: seq<nat>, lo: nat, hi: nat)
    requires lo <= hi
    requires ExactlyOnce(dropped + multiset(processed) + multiset([]), lo) && Increasing(processed)
    ensures ExactlyOnce(dropped + multiset(processed) + multiset(Range(lo, hi)), hi)
    ensures Increasing(processed + Range(lo, hi))
  {
    var handled := dropped + multiset(processed) + multiset([]);
    HandledNext(handled, lo, hi);
    assert handled == dropped + multiset(processed);
    assert forall k <- processed :: k in handled;
    StaysIncreasing(processed, lo, hi);
  }

  lemma HandMovesLedger<Db>(s: Audit<Db>, t: Audit<Db>)
    requires LedgerOk(s) && s.consumer.Waiting? && t.consumer.Writing?
    requires t.dropped == s.dropped && t.sacrificed == s.sacrificed && t.processed == s.processed
            && t.accepted == s.accepted
    requires SuffixOk(t.q.queue, s.accepted)
    requires 0 <= s.accepted - Entries(s.q.queue) <= s.accepted - Entries(t.q.queue)
    requires t.consumer.batch == Range(s.accepted - Entries(s.q.queue), s.accepted - Entries(t.q.queue))
    ensures LedgerOk(t)
  {
    assert s.processed + s.consumer.InHand() == s.processed;
    BatchKeepsLedger(multiset(s.dropped) + multiset(s.sacrificed), s.processed,
                     s.accepted - Entries(s.q.queue), s.accepted - Entries(t.q.queue));
  }

  lemma TakeKeepsLedger<Db>(s: Audit<Db>)
    requires LedgerOk(s) && s.consumer.Waiting? && s.q.queue != []
    ensures LedgerOk(Taken(s))
  {
    TakenFacts(s);
    HandMovesLedger(s, Taken(s));
  }

  lemma TakeKeepsInv<Db>(setup: Setup<Db>, s: Audit<Db>)
    requires Inv(setup, s) && Enabled(s, Take)
    ensures Inv(setup, Taken(s))
  {
    TakeKeepsLedger(s);
    BatchIsNext(s.q.queue, s.accepted);
  }

  lemma WrittenKeepsInv<Db>(setup: Setup<Db>, s: Audit<Db>)
    requires Inv(setup, s) && s.consumer.Writing?
    ensures Inv(setup, BatchWritten(setup, s))
  {
    var t := BatchWritten(setup, s);
    OneByOneAppend(setup.initial, s.processed, s.consumer.batch, setup.execute);
    assert Committed(s) == s.processed && Committed(t) == s.processed + s.consumer.batch;
    assert t.processed + t.consumer.InHand() == s.processed + s.consumer.InHand();
    assert Handled(t) == Handled(s);
  }

  lemma TimeoutKeepsInv<Db>(setup: Setup<Db>, s: Audit<Db>, written: nat)
    requires Inv(setup, s) && Enabled(s, Timeout(written))
    ensures Inv(setup, TimedOut(setup, s, written))
  {
    var t := TimedOut(setup, s, written);
    OneByOneAppend(setup.initial, s.processed, s.consumer.InHand()[..written], setup.execute);
    assert Committed(s) == s.processed && Committed(t) == s.processed + s.consumer.InHand()[..written];
    assert Handled(t) == Handled(s);
  }

  lemma StepKeepsInv<Db>(setup: Setup<Db>, s: Audit<Db>, step: Step)
    requires Inv(setup, s) && Enabled(s, step)
    ensures Inv(setup, Next(setup, s, step))
  {
    match step
    case Record(now) => if !s.q.closed { RecordKeepsInv(setup, s, now); }
    case Start => assert Handled(Next(setup, s, step)) == Handled(s);
    case Take => TakeKeepsInv(setup, s);
    case Written => WrittenKeepsInv(setup, s);
    case Close => if !s.q.closed && !s.consumer.NotStarted? { CloseKeepsInv(setup, s); }
    case Timeout(written) => TimeoutKeepsInv(setup, s, written);
  }

  lemma {:induction false} RunKeepsInv<Db>(setup: Setup<Db>, s: Audit<Db>, steps: seq<Step>)
    requires Inv(setup, s) && Runs(setup, s, steps)
    ensures Inv(setup, After(setup, s, steps))
    decreases |steps|
  {
    if steps != [] {
      StepKeepsInv(setup, s, steps[0]);
      RunKeepsInv(setup, Next(setup, s, steps[0]), steps[1..]);
    }
  }

  lemma ReachableInv<Db(!new)>(setup: Setup<Db>, s: Audit<Db>)
    requires Reachable(setup, s)
    ensures Inv(setup, s)
  {
    var steps: seq<Step> :| Runs(setup, Initial(setup), steps) && After(setup, Initial(setup), steps) == s;
    RunKeepsInv(setup, Initial(setup), steps);
  }

  // ----- main results -----

  /** Conservation: every accepted event is exactly one of queued, in the consumer's hand, processed,
      dropped by overflow, or sacrificed to the sentinel; processing follows acceptance order. */
  lemma Conservation<Db(!new)>(setup: Setup<Db>, s: Audit<Db>)
    requires Reachable(setup, s)
    ensures SuffixOk(s.q.queue, s.accepted) && s.q.Bounded()
    ensures forall k: nat :: Handled(s)[k] + multiset(s.q.queue)[Entry(k)] == if k < s.accepted then 1 else 0
    ensures Increasing(s.processed + s.consumer.InHand())
    ensures |s.sacrificed| <= 1 && s.q.droppedTotal == |s.dropped| == s.q.reported + s.q.droppedSinceLog
  {
    ReachableInv(setup, s);
    forall k: nat
      ensures multiset(s.q.queue)[Entry(k)] == if s.accepted - Entries(s.q.queue) <= k < s.accepted then 1 else 0
    {
      QueueCounts(s.q.queue, s.accepted, k);
    }
  }

  lemma {:induction false} QueueCounts(queue: seq<Item<nat>>, accepted: nat, k: nat)
    requires SuffixOk(queue, accepted)
    ensures multiset(queue)[Entry(k)] == if accepted - Entries(queue) <= k < accepted then 1 else 0
    decreases |queue|
  {
    if SentinelLast(queue) {
      var front := queue[..|queue| - 1];
      assert queue == front + [Stop];
      assert forall i | 0 <= i < |front| :: front[i].Entry?;
      assert Entries(front) == |front|;
      QueueCounts(front, accepted, k);
    } else if queue != [] {
      OldestIsNext(queue, accepted);
      assert queue == [queue[0]] + queue[1..];
      QueueCounts(queue[1..], accepted, k);
    }
  }

  /** `flush` waits for the unfinished counter to reach zero: it does exactly when every accepted
      event was processed, dropped or sacrificed, and `task_done` is never called too often. */
  lemma FlushIsExact<Db(!new)>(setup: Setup<Db>, s: Audit<Db>)
    requires Reachable(setup, s)
    ensures s.q.unfinished >= 0
    ensures s.q.unfinished == 0
            <==> s.q.queue == [] && !s.stopInHand
                 && ExactlyOnce(multiset(s.dropped) + multiset(s.sacrificed) + multiset(s.processed), s.accepted)
  {
    ReachableInv(setup, s);
    var settled := multiset(s.dropped) + multiset(s.sacrificed) + multiset(s.processed);
    if s.q.queue == [] {
      SettledUnlessInHand(settled, s.consumer.InHand(), s.accepted);
    }
  }

  lemma SettledUnlessInHand(settled: multiset<nat>, inHand: seq<nat>, first: int)
    requires ExactlyOnce(settled + multiset(inHand), first)
    ensures ExactlyOnce(settled, first) <==> inHand == []
  {
    if inHand != [] {
      var k := inHand[0];
      assert k in inHand && (settled + multiset(inHand))[k] <= 1 && multiset(inHand)[k] >= 1;
      assert settled[k] == 0 && k < first;
    } else {
      assert settled + multiset(inHand) == settled;
    }
  }

  /** Whatever the split into batches, the database holds the committed events applied one at a time
      in acceptance order, failing ones skipped. */
  lemma DatabaseIsOneByOne<Db(!new)>(setup: Setup<Db>, s: Audit<Db>)
    requires Reachable(setup, s)
    ensures s.consumer.Killed? ==> s.consumer.written <= |s.consumer.batch|
    ensures Increasing(Committed(s))
    ensures s.db == OneByOne(setup.initial, Committed(s), setup.execute)
  {
    ReachableInv(setup, s);
    var all := s.processed + s.consumer.InHand();
    assert Committed(s) == all[..|Committed(s)|];
  }

  /** A consumer that exits by itself leaves nothing behind: the queue is empty and every event ever
      accepted was processed, dropped by overflow, or the single one sacrificed to the sentinel. */
  lemma CleanExit<Db(!new)>(setup: Setup<Db>, s: Audit<Db>)
    requires Reachable(setup, s) && s.consumer.Exited?
    ensures s.q.closed && s.q.queue == [] && s.q.unfinished == 0
    ensures ExactlyOnce(multiset(s.dropped) + multiset(s.sacrificed) + multiset(s.processed), s.accepted)
    ensures |s.sacrificed| <= 1
    ensures s.db == OneByOne(setup.initial, s.processed, setup.execute)
  {
    ReachableInv(setup, s);
    assert Handled(s) == multiset(s.dropped) + multiset(s.sacrificed) + multiset(s.processed);
    assert Committed(s) == s.processed;
  }

  /** How many consumer steps the drain can still take. */
  function DrainRank<Db>(s: Audit<Db>): nat {
    2 * |s.q.queue| + if s.consumer.Writing? then 1 else 0
  }

  /** After the sentinel was sent, a running consumer always has a step to take, each one brings the
      exit nearer, and nothing a producer does pushes it away. */
  lemma DrainProgress<Db(!new)>(setup: Setup<Db>, s: Audit<Db>)
    requires Reachable(setup, s) && s.stopSent && s.consumer.Running()
    ensures Enabled(s, Take) || Enabled(s, Written)
    ensures Enabled(s, Take) ==> DrainRank(Next(setup, s, Take)) < DrainRank(s)
    ensures Enabled(s, Written) ==> DrainRank(Next(setup, s, Written)) < DrainRank(s)
    ensures forall now :: Next(setup, s, Record(now)) == s
    ensures Next(setup, s, Close) == s
  {
    ReachableInv(setup, s);
    if s.consumer.Waiting? { BatchIsNext(s.q.queue, s.accepted); }
  }

  lemma {:induction false} AfterSnoc<Db>(setup: Setup<Db>, s: Audit<Db>, steps: seq<Step>, last: Step)
    requires Runs(setup, s, steps) && Enabled(After(setup, s, steps), last)
    ensures Runs(setup, s, steps + [last])
    ensures After(setup, s, steps + [last]) == Next(setup, After(setup, s, steps), last)
    decreases |steps|
  {
    if steps != [] {
      assert (steps + [last])[1..] == steps[1..] + [last];
      AfterSnoc(setup, Next(setup, s, steps[0]), steps[1..], last);
    } else {
      assert steps + [last] == [last];
    }
  }

  lemma ReachableNext<Db(!new)>(setup: Setup<Db>, s: Audit<Db>, step: Step)
    requires Reachable(setup, s) && Enabled(s, step)
    ensures Reachable(setup, Next(setup, s, step))
  {
    var steps: seq<Step> :| Runs(setup, Initial(setup), steps) && After(setup, Initial(setup), steps) == s;
    AfterSnoc(setup, Initial(setup), steps, step);
  }

  /** Shutdown with events still to write does happen. */
  lemma DrainExists<Db(!new)>(setup: Setup<Db>, now: real)
    requires setup.capacity == 0 || setup.capacity >= 2
    ensures exists s: Audit<Db> ::
            Reachable(setup, s) && s.stopSent && s.consumer.Waiting? && s.q.queue == [Entry(0), Stop]
  {
    var s := OneQueued(setup, now);
    ReachableNext(setup, s, Close);
    assert Next(setup, s, Close).q.queue == [Entry(0), Stop];
  }

  predicate ConsumerStep(step: Step) { step.Take? || step.Written? }

  /** What the consumer has processed once it is through with its hand and the queue. */
  function Outstanding<Db>(s: Audit<Db>): seq<nat>
    requires Entries(s.q.queue) <= s.accepted
  {
    s.processed + s.consumer.InHand() + Range(s.accepted - Entries(s.q.queue), s.accepted)
  }

  lemma TakeKeepsOutstanding<Db>(s: Audit<Db>, t: Audit<Db>)
    requires s.consumer.Waiting? && t.consumer.Writing? && t.processed == s.processed && t.accepted == s.accepted
    requires 0 <= s.accepted - Entries(s.q.queue) <= s.accepted - Entries(t.q.queue)
    requires t.consumer.batch == Range(s.accepted - Entries(s.q.queue), s.accepted - Entries(t.q.queue))
    ensures Outstanding(t) == Outstanding(s)
  {
    var lo, mid := s.accepted - Entries(s.q.queue), s.accepted - Entries(t.q.queue);
    assert Range(lo, s.accepted) == Range(lo, mid) + Range(mid, s.accepted);
  }

  lemma OutstandingKept<Db>(setup: Setup<Db>, s: Audit<Db>, step: Step)
    requires SuffixOk(s.q.queue, s.accepted) && Enabled(s, step) && ConsumerStep(step)
    ensures var next := Next(setup, s, step);
            && SuffixOk(next.q.queue, next.accepted) && Outstanding(next) == Outstanding(s)
  {
    if step.Take? {
      TakenFacts(s);
      TakeKeepsOutstanding(s, Taken(s));
    } else {
      assert BatchWritten(setup, s).consumer.InHand() == [];
    }
  }

  /** Without a timeout the drain finishes: the consumer alone reaches its exit, having processed
      exactly what was in its hand and queued, in order. */
  lemma {:induction false} DrainCompletes<Db(!new)>(setup: Setup<Db>, s: Audit<Db>) returns (steps: seq<Step>)
    requires Reachable(setup, s) && s.stopSent && s.consumer.Running()
    ensures forall step <- steps :: ConsumerStep(step)
    ensures |steps| <= DrainRank(s) && Runs(setup, s, steps)
    ensures Entries(s.q.queue) <= s.accepted
    ensures After(setup, s, steps).consumer.Exited?
    ensures After(setup, s, steps).processed == Outstanding(s)
    decreases DrainRank(s)
  {
    DrainProgress(setup, s);
    ReachableInv(setup, s);
    var step := if s.consumer.Waiting? then Take else Written;
    var next := Next(setup, s, step);
    ReachableNext(setup, s, step);
    OutstandingKept(setup, s, step);
    if next.consumer.Exited? {
      steps := [step];
      assert steps[1..] == [];
      assert After(setup, s, steps) == next;
      ReachableInv(setup, next);
      assert Outstanding(next) == next.processed;
    } else {
      var rest := DrainCompletes(setup, next);
      steps := [step] + rest;
      assert steps[1..] == rest;
    }
  }

  // ----- when the drain times out -----

  /** The number in the error log: `qsize`, sentinel included. */
  function LoggedLost<Db>(s: Audit<Db>): nat {
    |s.q.queue|
  }

  /** The events really lost: those still queued, and those of the batch that were not committed. */
  function ReallyLost<Db>(s: Audit<Db>): int {
    Entries(s.q.queue) + match s.consumer case Killed(batch, written) => |batch| - written case _ => 0
  }

  /** After a drain timeout every accepted event is exactly one of dropped, sacrificed, committed, an
      uncommitted one of the batch, or still queued; the last two are the lost ones. */
  lemma TimeoutLosses<Db(!new)>(setup: Setup<Db>, s: Audit<Db>)
    requires Reachable(setup, s) && s.consumer.Killed?
    ensures s.consumer.written <= |s.consumer.batch|
    ensures ExactlyOnce(multiset(s.dropped) + multiset(s.sacrificed) + multiset(Committed(s))
                        + multiset(s.consumer.batch[s.consumer.written..]), s.accepted - Entries(s.q.queue))
    ensures SuffixOk(s.q.queue, s.accepted)
    ensures ReallyLost(s) == |s.consumer.batch[s.consumer.written..]| + Entries(s.q.queue)
  {
    ReachableInv(setup, s);
    SplitBatch(s);
  }

  lemma SplitBatch<Db>(s: Audit<Db>)
    requires s.consumer.Killed? && s.consumer.written <= |s.consumer.batch|
    ensures Handled(s) == multiset(s.dropped) + multiset(s.sacrificed) + multiset(Committed(s))
                          + multiset(s.consumer.batch[s.consumer.written..])
  {
    var batch, written := s.consumer.batch, s.consumer.written;
    assert batch == batch[..written] + batch[written..];
  }

  /** The log is right if and only if as many events of the batch are uncommitted as there are sentinels
      in the queue: one, unless the consumer had already met it. */
  lemma LossReportExact<Db(!new)>(setup: Setup<Db>, s: Audit<Db>)
    requires Reachable(setup, s) && s.consumer.Killed?
    ensures s.consumer.written <= |s.consumer.batch|
    ensures LoggedLost(s) == ReallyLost(s) <==>
              |s.consumer.batch| - s.consumer.written == if s.stopInHand then 0 else 1
    ensures LoggedLost(s) > ReallyLost(s) <==> !s.stopInHand && s.consumer.written == |s.consumer.batch|
  {
    ReachableInv(setup, s);
  }

  /** A drain that times out just after its only event was committed reports it lost. */
  lemma OverReport<Db(!new)>(setup: Setup<Db>, now: real)
    requires setup.capacity == 0 || setup.capacity >= 2
    ensures exists s: Audit<Db> :: Reachable(setup, s) && s.consumer.Killed? && LoggedLost(s) == 1 && ReallyLost(s) == 0
  {
    var s3 := HeldThenClosed(setup, now);
    ReachableNext(setup, s3, Timeout(1));
    var s4 := Next(setup, s3, Timeout(1));
    assert LoggedLost(s4) == 1 && ReallyLost(s4) == 0;
  }

  /** One event in the consumer's hand, the sentinel behind it. */
  lemma HeldThenClosed<Db(!new)>(setup: Setup<Db>, now: real) returns (s: Audit<Db>)
    requires setup.capacity == 0 || setup.capacity >= 2
    ensures Reachable(setup, s) && s.consumer == Writing([0], false) && s.q.queue == [Stop] && s.stopSent
  {
    var waiting := OneQueued(setup, now);
    ReachableNext(setup, waiting, Take);
    var held := Next(setup, waiting, Take);
    OneBatch(Entry(0), []);
    ReachableNext(setup, held, Close);
    s := Next(setup, held, Close);
    assert s.q.queue == [Stop];
  }

  lemma OneQueued<Db(!new)>(setup: Setup<Db>, now: real) returns (s: Audit<Db>)
    requires setup.capacity == 0 || setup.capacity >= 2
    ensures Reachable(setup, s) && s.consumer.Waiting? && s.q.queue == [Entry(0)] && !s.q.closed
            && s.q.capacity == setup.capacity
  {
    var s0 := Initial(setup);
    assert Runs(setup, s0, []) && After(setup, s0, []) == s0;
    ReachableNext(setup, s0, Start);
    var s1 := Next(setup, s0, Start);
    ReachableNext(setup, s1, Record(now));
    s := Next(setup, s1, Record(now));
    assert s.q.queue == [Entry(0)];
  }

  lemma OneBatch(item: Item<nat>, rest: seq<Item<nat>>)
    requires item.Entry? && (rest == [] || rest == [Stop])
    ensures Batched([item] + rest) == ([], [item.event], rest != [])
  {
    var queue := [item] + rest;
    assert queue[1..] == rest;
    assert Leading(rest, BATCH_MAX - 1) == 0;
    LeadingTail(queue, BATCH_MAX);
    assert queue[..1] == [item] && queue[|queue|..] == [];
    assert Events([item]) == [item.event];
  }

  /** A drain that times out with the sentinel and an uncommitted event in hand reports nothing lost. */
  lemma UnderReport<Db(!new)>(setup: Setup<Db>, now: real)
    requires setup.capacity == 0 || setup.capacity >= 2
    ensures exists s: Audit<Db> :: Reachable(setup, s) && s.consumer.Killed? && LoggedLost(s) == 0 && ReallyLost(s) == 1
  {
    var waiting := OneQueued(setup, now);
    ReachableNext(setup, waiting, Close);
    var closing := Next(setup, waiting, Close);
    assert closing.q.queue == [Entry(0)] + [Stop];
    OneBatch(Entry(0), [Stop]);
    ReachableNext(setup, closing, Take);
    var held := Next(setup, closing, Take);
    assert held.consumer == Writing([0], true) && held.q.queue == [];
    ReachableNext(setup, held, Timeout(0));
    var killed := Next(setup, held, Timeout(0));
    assert LoggedLost(killed) == 0 && ReallyLost(killed) == 1;
  }

  lemma {:induction false} KilledStays<Db>(setup: Setup<Db>, s: Audit<Db>, steps: seq<Step>)
    requires s.consumer.Killed? && s.q.closed && Runs(setup, s, steps)
    ensures After(setup, s, steps) == s
    decreases |steps|
  {
    if steps != [] {
      KilledStays(setup, Next(setup, s, steps[0]), steps[1..]);
    }
  }

  /** Once the drain has timed out `flush` never returns: over every continuation the unfinished
      counter keeps its value, which is positive because the sentinel was never ticked off. */
  lemma FlushHangsAfterTimeout<Db(!new)>(setup: Setup<Db>, s: Audit<Db>, steps: seq<Step>)
    requires Reachable(setup, s) && s.consumer.Killed? && Runs(setup, s, steps)
    ensures After(setup, s, steps).q.unfinished == s.q.unfinished > 0
  {
    ReachableInv(setup, s);
    KilledStays(setup, s, steps);
  }

  // ----- single steps, written out -----

  predicate AtCapacity<Db>(setup: Setup<Db>, s: Audit<Db>) {
    0 < setup.capacity == |s.q.queue|
  }

  /** A queue at its capacity makes room at its oldest end. */
  function Room<Db>(setup: Setup<Db>, s: Audit<Db>): seq<Item<nat>> {
    if AtCapacity(setup, s) then s.q.queue[1..] else s.q.queue
  }

  /** A closed door takes nothing; an open one queues the event, and drops the oldest only at capacity.  A
      drop is reported at once, with all that were not yet, unless a report was made less than the
      interval ago. */
  lemma RecordExact<Db(!new)>(setup: Setup<Db>, s: Audit<Db>, now: real)
    requires Reachable(setup, s)
    ensures s.q.closed ==> Next(setup, s, Record(now)) == s
    ensures !s.q.closed ==>
              var t := Next(setup, s, Record(now));
              && t.q.queue == Room(setup, s) + [Entry(s.accepted)] && !t.q.closed
              && t.accepted == s.accepted + 1 && t.consumer == s.consumer
              && (AtCapacity(setup, s) ==> s.q.queue[0].Entry? && t.dropped == s.dropped + [s.q.queue[0].event])
              && (!AtCapacity(setup, s) ==> t.dropped == s.dropped && t.q.reported == s.q.reported
                                            && t.q.lastDropLog == s.q.lastDropLog)
    ensures !s.q.closed && AtCapacity(setup, s) ==>
              var t := Next(setup, s, Record(now));
              if s.q.lastDropLog != 0.0 && now < s.q.lastDropLog + setup.interval then
                t.q.reported == s.q.reported && t.q.lastDropLog == s.q.lastDropLog
              else t.q.reported == |t.dropped| && t.q.lastDropLog == now
  {
    ReachableInv(setup, s);
    if !s.q.closed && AtCapacity(setup, s) {
      OldestIsNext(s.q.queue, s.accepted);
      RecordKeepsCounts(setup, s, now);
    }
  }

  /** The first `close` with a consumer puts the sentinel last, at capacity in the place of the oldest event;
      without one it only shuts the door, and a second does nothing. */
  lemma CloseExact<Db(!new)>(setup: Setup<Db>, s: Audit<Db>)
    requires Reachable(setup, s)
    ensures s.q.closed ==> Next(setup, s, Close) == s
    ensures !s.q.closed ==>
              var t := Next(setup, s, Close);
              && t.q.closed && t.accepted == s.accepted && t.dropped == s.dropped && t.consumer == s.consumer
              && (s.consumer.NotStarted? ==> t.q.queue == s.q.queue && t.sacrificed == [] && !t.stopSent)
              && (!s.consumer.NotStarted? ==>
                    && t.stopSent && t.q.queue == Room(setup, s) + [Stop]
                    && (AtCapacity(setup, s) ==> s.q.queue[0].Entry? && t.sacrificed == [s.q.queue[0].event])
                    && (!AtCapacity(setup, s) ==> t.sacrificed == []))
  {
    ReachableInv(setup, s);
    if !s.q.closed && AtCapacity(setup, s) { OldestIsNext(s.q.queue, s.accepted); }
  }

  /** A batch is everything queued, in order, up to a hundred events; it takes the sentinel with it when it
      gets that far. */
  lemma TakeExact<Db(!new)>(setup: Setup<Db>, s: Audit<Db>)
    requires Reachable(setup, s) && Enabled(s, Take)
    ensures var t, n := Next(setup, s, Take).consumer, Entries(s.q.queue);
            && t.Writing? && |t.batch| == (if n < 100 then n else 100)
            && (forall i | 0 <= i < |t.batch| :: s.q.queue[i] == Entry(t.batch[i]))
            && (t.stop <==> n < 100 && n < |s.q.queue|)
            && Next(setup, s, Take).q.queue == s.q.queue[|t.batch| + if t.stop then 1 else 0..]
  {
    ReachableInv(setup, s);
    var q := s.q.queue;
    var k := Leading(q, BATCH_MAX);
    var n := Entries(q);
    assert forall i | 0 <= i < n :: q[i].Entry?;
    assert n < |q| ==> q[n].Stop?;
  }
}
