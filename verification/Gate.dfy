/** The priority gate of `backend/app/llm/runtime.py`: a mutex with a foreground and a background
    FIFO queue, direct ownership hand-off, and waiters that may be cancelled at any time.

    A future is identified by its ticket, its position in the order of creation.  The gate's value
    is a `GateState`; the class below updates its fields in place and is specified by the functions
    on that value. */
module Gate {
  import opened Basics

  datatype FutureState = Pending | Resolved | Cancelled

  /** The future a queued `acquire` awaits, with the call that created it and its priority class. */
  datatype Future = Future(caller: nat, background: bool, state: FutureState)

  datatype GateState = GateState(locked: bool, foreground: seq<nat>, background: seq<nat>, futures: seq<Future>)
  {
    function Queue(bg: bool): seq<nat> {
      if bg then background else foreground
    }

    predicate InRange() {
      Below(foreground, |futures|) && Below(background, |futures|)
    }

    predicate Live(t: nat) {
      t < |futures| && futures[t].state == Pending
    }

    /** Owner plus queued futures. */
    function Depth(): nat {
      (if locked then 1 else 0) + |foreground| + |background|
    }

    /** Waiter `u` is served before waiter `t`: foreground first, then order of arrival. */
    predicate Precedes(u: nat, t: nat)
      requires u < |futures| && t < |futures|
    {
      if futures[u].background == futures[t].background then u < t else futures[t].background
    }
  }

  predicate Below(queue: seq<nat>, n: nat) {
    forall i | 0 <= i < |queue| :: queue[i] < n
  }

  /** How an `acquire` (or the generation holding the gate) ended for its caller. */
  datatype Exit = Returned | ModelError | TimeoutError | CancelledError | ValueError

  const EMPTY_GATE := GateState(false, [], [], [])

  // ----- specification of the operations -----

  /** Position of the first waiter in `queue` that can still be granted, or `|queue|`. */
  function FirstLive(queue: seq<nat>, futures: seq<Future>): (i: nat)
    requires Below(queue, |futures|)
    ensures i <= |queue|
    ensures forall k | 0 <= k < i :: futures[queue[k]].state != Pending
    ensures i < |queue| ==> futures[queue[i]].state == Pending
  {
    if queue == [] || futures[queue[0]].state == Pending then 0 else 1 + FirstLive(queue[1..], futures)
  }

  lemma FirstLiveIs(queue: seq<nat>, futures: seq<Future>, k: nat)
    requires Below(queue, |futures|) && k <= |queue|
    requires forall i | 0 <= i < k :: futures[queue[i]].state != Pending
    requires k < |queue| ==> futures[queue[k]].state == Pending
    ensures FirstLive(queue, futures) == k
  {
  }

  function SetState(futures: seq<Future>, t: nat, state: FutureState): (r: seq<Future>)
    requires t < |futures|
  {
    futures[t := futures[t].(state := state)]
  }

  /** The waiter `release` hands the gate to: foreground first, each class in queue order. */
  function NextOwner(g: GateState): (ticket: Option<nat>)
    requires g.InRange()
    ensures ticket.Some? ==> g.Live(ticket.value)
  {
    var f := FirstLive(g.foreground, g.futures);
    var b := FirstLive(g.background, g.futures);
    if f < |g.foreground| then Some(g.foreground[f])
    else if b < |g.background| then Some(g.background[b])
    else None
  }

  /** `release`: every entry up to and including the new owner leaves the queues. */
  function Released(g: GateState): (r: GateState)
    requires g.InRange()
  {
    var f := FirstLive(g.foreground, g.futures);
    var b := FirstLive(g.background, g.futures);
    if f < |g.foreground| then
      GateState(g.locked, g.foreground[f + 1..], g.background, SetState(g.futures, g.foreground[f], Resolved))
    else if b < |g.background| then
      GateState(g.locked, [], g.background[b + 1..], SetState(g.futures, g.background[b], Resolved))
    else
      GateState(false, [], [], g.futures)
  }

  /** `acquire` up to its first suspension point: take the free gate, or join a queue. */
  function Entered(g: GateState, caller: nat, background: bool): (r: GateState)
  {
    if !g.locked then g.(locked := true)
    else
      var t := |g.futures|;
      var queued := g.(futures := g.futures + [Future(caller, background, Pending)]);
      if background then queued.(background := g.background + [t])
      else queued.(foreground := g.foreground + [t])
  }

  /** Cancelling a task that awaits its future cancels the future, unless it is already resolved. */
  function FutureCancelled(g: GateState, t: nat): (r: GateState)
    requires t < |g.futures|
  {
    if g.futures[t].state == Pending then g.(futures := SetState(g.futures, t, Cancelled)) else g
  }

  function IndexOf(queue: seq<nat>, t: nat): (i: nat)
    ensures i <= |queue|
    ensures i < |queue| ==> queue[i] == t
    ensures i == |queue| <==> t !in queue
  {
    if queue == [] || queue[0] == t then 0 else 1 + IndexOf(queue[1..], t)
  }

  /** The `except CancelledError` handler of `acquire`: pass an already granted gate on, otherwise
      remove the future from its queue, which raises `ValueError` when it is no longer there. */
  function AcquireCancelled(g: GateState, t: nat): (r: (GateState, Exit))
    requires g.InRange() && t < |g.futures|
  {
    var queue := g.Queue(g.futures[t].background);
    if g.futures[t].state == Resolved then (Released(g), CancelledError)
    else if t !in queue then (g, ValueError)
    else if g.futures[t].background then (g.(background := RemoveFirst(queue, t)), CancelledError)
    else (g.(foreground := RemoveFirst(queue, t)), CancelledError)
  }

  // ----- the object -----

  class PriorityGate {
    var locked: bool
    var foreground: seq<nat>
    var background: seq<nat>
    var futures: seq<Future>

    function Model(): GateState
      reads this
    {
      GateState(locked, foreground, background, futures)
    }

    constructor ()
      ensures Model() == EMPTY_GATE
    {
      locked, foreground, background, futures := false, [], [], [];
    }

    /** `acquire` up to the `await`; `None` means the gate was free and is now held. */
    method BeginAcquire(caller: nat, bg: bool) returns (ticket: Option<nat>)
      requires Model().InRange()
      modifies this
      ensures Model() == Entered(old(Model()), caller, bg) && Model().InRange()
      ensures ticket == if old(locked) then Some(|old(futures)|) else None
    {
      if !locked {
        locked := true;
        return None;
      }
      var t := |futures|;
      futures := futures + [Future(caller, bg, Pending)];
      if bg {
        background := background + [t];
      } else {
        foreground := foreground + [t];
      }
      return Some(t);
    }

    /** Task cancellation reaching the future an `acquire` awaits. */
    method CancelFuture(t: nat)
      requires Model().InRange() && t < |futures|
      modifies this`futures
      ensures Model() == FutureCancelled(old(Model()), t)
    {
      if futures[t].state == Pending {
        futures := SetState(futures, t, Cancelled);
      }
    }

    /** The rest of an `acquire` whose task was cancelled while it waited. */
    method ResumeCancelled(t: nat) returns (exit: Exit)
      requires Model().InRange() && t < |futures|
      modifies this
      ensures (Model(), exit) == AcquireCancelled(old(Model()), t)
    {
      if futures[t].state == Resolved {
        Release();
        return CancelledError;
      }
      var queue := if futures[t].background then background else foreground;
      if t !in queue {
        return ValueError;
      }
      if futures[t].background {
        background := RemoveFirst(background, t);
      } else {
        foreground := RemoveFirst(foreground, t);
      }
      return CancelledError;
    }

    method Release()
      requires Model().InRange()
      modifies this
      ensures Model() == Released(old(Model()))
    {
      ghost var fg, bg := foreground, background;
      ghost var k := 0;
      while foreground != []
        invariant locked == old(locked) && background == bg && futures == old(futures)
        invariant k <= |fg| && foreground == fg[k..]
        invariant forall i | 0 <= i < k :: futures[fg[i]].state != Pending
        decreases |foreground|
      {
        var fut := foreground[0];
        assert fut == fg[k] && foreground[1..] == fg[k + 1..];
        foreground, k := foreground[1..], k + 1;
        if futures[fut].state == Pending {
          FirstLiveIs(fg, futures, k - 1);
          futures := SetState(futures, fut, Resolved);
          return;
        }
      }
      FirstLiveIs(fg, futures, |fg|);
      k := 0;
      while background != []
        invariant locked == old(locked) && foreground == [] && futures == old(futures)
        invariant k <= |bg| && background == bg[k..]
        invariant forall i | 0 <= i < k :: futures[bg[i]].state != Pending
        invariant FirstLive(fg, futures) == |fg|
        decreases |background|
      {
        var fut := background[0];
        assert fut == bg[k] && background[1..] == bg[k + 1..];
        background, k := background[1..], k + 1;
        if futures[fut].state == Pending {
          FirstLiveIs(bg, futures, k - 1);
          futures := SetState(futures, fut, Resolved);
          return;
        }
      }
      FirstLiveIs(bg, futures, |bg|);
      locked := false;
    }
  }

  // ----- facts about one operation -----

  ghost predicate Increasing(queue: seq<nat>) {
    forall i, j | 0 <= i < j < |queue| :: queue[i] < queue[j]
  }

  /** A queue holds tickets of its own class that were not granted, in order of arrival. */
  ghost predicate QueueOk(queue: seq<nat>, bg: bool, futures: seq<Future>) {
    && Increasing(queue)
    && Below(queue, |futures|)
    && (forall i | 0 <= i < |queue| :: futures[queue[i]].background == bg && futures[queue[i]].state != Resolved)
    && (forall t | 0 <= t < |futures| && futures[t].background == bg && futures[t].state == Pending :: t in queue)
  }

  ghost predicate Fifo(futures: seq<Future>) {
    forall t, u | 0 <= t < u < |futures| && futures[t].background == futures[u].background &&
                  futures[u].state == Resolved :: futures[t].state != Pending
  }

  /** What every operation keeps: sound queues holding every live waiter, nobody waiting at a free
      gate, and grants within a class in order of arrival. */
  ghost predicate GateOk(g: GateState) {
    && QueueOk(g.foreground, false, g.futures)
    && QueueOk(g.background, true, g.futures)
    && (!g.locked ==> g.foreground == [] && g.background == [])
    && Fifo(g.futures)
  }

  lemma FirstLiveIsLeast(queue: seq<nat>, bg: bool, futures: seq<Future>)
    requires QueueOk(queue, bg, futures)
    ensures var i := FirstLive(queue, futures);
            && (i < |queue| ==> forall u | 0 <= u < |futures| && futures[u].background == bg
                 && futures[u].state == Pending :: queue[i] <= u)
            && (i == |queue| ==> forall u | 0 <= u < |futures| && futures[u].background == bg ::
                 futures[u].state != Pending)
  {
    var i := FirstLive(queue, futures);
    forall u | 0 <= u < |futures| && futures[u].background == bg && futures[u].state == Pending
      ensures i < |queue| && queue[i] <= u
    {
      var k :| 0 <= k < |queue| && queue[k] == u;
    }
  }

  /** Priority and FIFO of a single hand-off, in both directions: `release` picks a live waiter that
      no other live waiter precedes, and it unlocks only when nobody live is waiting. */
  lemma NextOwnerIsFirstInLine(g: GateState)
    requires GateOk(g)
    ensures forall t: nat :: NextOwner(g) == Some(t) <==>
              g.Live(t) && forall u: nat | g.Live(u) && u != t :: !g.Precedes(u, t)
    ensures NextOwner(g) == None <==> forall t: nat :: !g.Live(t)
  {
    FirstLiveIsLeast(g.foreground, false, g.futures);
    FirstLiveIsLeast(g.background, true, g.futures);
    if NextOwner(g).Some? {
      var o := NextOwner(g).value;
      forall t: nat | g.Live(t) && t != o
        ensures g.Precedes(o, t) && !g.Precedes(t, o)
      {
      }
    }
  }

  /** What `release` does to the futures and to the lock: it resolves exactly the next owner, or
      unlocks the gate when nobody live is waiting. */
  lemma ReleasedEffect(g: GateState)
    requires GateOk(g)
    ensures match NextOwner(g)
            case Some(t) => Released(g).futures == SetState(g.futures, t, Resolved) && Released(g).locked == g.locked
            case None => Released(g) == GateState(false, [], [], g.futures)
  {
    FirstLiveIsLeast(g.foreground, false, g.futures);
    FirstLiveIsLeast(g.background, true, g.futures);
  }

  lemma TailIncreasing(queue: seq<nat>, i: nat)
    requires Increasing(queue) && i < |queue|
    ensures Increasing(queue[i + 1..])
    ensures forall t: nat :: t in queue[i + 1..] <==> t in queue && t > queue[i]
  {
    var rest := queue[i + 1..];
    forall t: nat | t in queue && t > queue[i]
      ensures t in rest
    {
      var k :| 0 <= k < |queue| && queue[k] == t;
      assert rest[k - i - 1] == t;
    }
    forall j, k | 0 <= j < k < |rest|
      ensures rest[j] < rest[k]
    {
      assert rest[j] == queue[i + 1 + j] && rest[k] == queue[i + 1 + k];
    }
    forall t: nat | t in rest
      ensures t in queue && t > queue[i]
    {
      var k :| 0 <= k < |rest| && rest[k] == t;
      assert queue[i + 1 + k] == t;
    }
  }

  lemma TailOk(queue: seq<nat>, bg: bool, futures: seq<Future>, i: nat)
    requires QueueOk(queue, bg, futures) && i == FirstLive(queue, futures) < |queue|
    ensures QueueOk(queue[i + 1..], bg, SetState(futures, queue[i], Resolved))
  {
    var after := SetState(futures, queue[i], Resolved);
    var rest := queue[i + 1..];
    TailIncreasing(queue, i);
    FirstLiveIsLeast(queue, bg, futures);
    forall k | 0 <= k < |rest|
      ensures rest[k] < |after| && after[rest[k]].background == bg && after[rest[k]].state != Resolved
    {
      assert rest[k] == queue[i + 1 + k] && rest[k] in rest;
    }
    forall t | 0 <= t < |after| && after[t].background == bg && after[t].state == Pending
      ensures t in rest
    {
      assert futures[t].state == Pending;
    }
  }

  lemma OtherQueueOk(queue: seq<nat>, bg: bool, futures: seq<Future>, t: nat, state: FutureState)
    requires QueueOk(queue, bg, futures) && t < |futures| && futures[t].background != bg && state != Pending
    ensures QueueOk(queue, bg, SetState(futures, t, state))
  {
    var after := SetState(futures, t, state);
    forall u | 0 <= u < |after| && after[u].background == bg && after[u].state == Pending
      ensures u in queue
    {
      assert futures[u].background == bg && futures[u].state == Pending;
    }
  }

  lemma GrantKeepsFifo(futures: seq<Future>, t: nat)
    requires Fifo(futures) && t < |futures|
    requires forall u | 0 <= u < t && futures[u].background == futures[t].background :: futures[u].state != Pending
    ensures Fifo(SetState(futures, t, Resolved))
  {
  }

  /** Granting the first live waiter of a queue keeps that queue, the other one and the order. */
  lemma GrantKeepsQueues(queue: seq<nat>, other: seq<nat>, bg: bool, futures: seq<Future>, i: nat)
    requires QueueOk(queue, bg, futures) && QueueOk(other, !bg, futures) && Fifo(futures)
    requires i == FirstLive(queue, futures) < |queue|
    ensures var after := SetState(futures, queue[i], Resolved);
            QueueOk(queue[i + 1..], bg, after) && QueueOk(other, !bg, after) && Fifo(after)
  {
    FirstLiveIsLeast(queue, bg, futures);
    TailOk(queue, bg, futures, i);
    OtherQueueOk(other, !bg, futures, queue[i], Resolved);
    GrantKeepsFifo(futures, queue[i]);
  }

  lemma EmptyQueueOk(bg: bool, futures: seq<Future>)
    requires forall t | 0 <= t < |futures| && futures[t].background == bg :: futures[t].state != Pending
    ensures QueueOk([], bg, futures)
  {
  }

  lemma ReleasedKeepsGateOk(g: GateState)
    requires GateOk(g)
    ensures GateOk(Released(g))
  {
    var f := FirstLive(g.foreground, g.futures);
    var b := FirstLive(g.background, g.futures);
    if f < |g.foreground| {
      GrantKeepsQueues(g.foreground, g.background, false, g.futures, f);
    } else {
      FirstLiveIsLeast(g.foreground, false, g.futures);
      EmptyQueueOk(false, g.futures);
      if b < |g.background| {
        GrantKeepsQueues(g.background, [], true, g.futures, b);
      } else {
        FirstLiveIsLeast(g.background, true, g.futures);
        EmptyQueueOk(true, g.futures);
      }
    }
  }

  /** Exactly which queued futures a `release` discards from its queue: the one it resolves, and
      those that no other live waiter precedes. */
  lemma ReleaseDiscards(g: GateState, t: nat)
    requires GateOk(g) && t < |g.futures| && t in g.Queue(g.futures[t].background)
    ensures t !in Released(g).Queue(g.futures[t].background) <==>
            forall u: nat | g.Live(u) && u != t :: !g.Precedes(u, t)
  {
    NextOwnerIsFirstInLine(g);
    FirstLiveIsLeast(g.foreground, false, g.futures);
    FirstLiveIsLeast(g.background, true, g.futures);
    var bg := g.futures[t].background;
    var q := g.Queue(bg);
    var i := FirstLive(q, g.futures);
    if i < |q| {
      TailIncreasing(q, i);
      assert q[i] in q;
    }
  }

  lemma EnteredKeepsGateOk(g: GateState, caller: nat, bg: bool)
    requires GateOk(g)
    ensures GateOk(Entered(g, caller, bg))
  {
  }

  lemma CancelledKeepsGateOk(g: GateState, t: nat)
    requires GateOk(g) && t < |g.futures|
    ensures GateOk(FutureCancelled(g, t))
  {
    if g.futures[t].state == Pending {
      OtherQueueOk(g.Queue(!g.futures[t].background), !g.futures[t].background, g.futures, t, Cancelled);
    }
  }

  lemma {:induction false} RemoveAbsent(queue: seq<nat>, t: nat)
    requires t !in queue
    ensures RemoveFirst(queue, t) == queue
  {
    if queue != [] {
      assert queue[0] in queue && t !in queue[1..];
      RemoveAbsent(queue[1..], t);
    }
  }

  lemma {:induction false} RemovedMembers(queue: seq<nat>, t: nat)
    requires t in queue
    ensures var rest, i := RemoveFirst(queue, t), IndexOf(queue, t);
            && |rest| == |queue| - 1
            && (forall k | 0 <= k < i :: rest[k] == queue[k])
            && (forall k | i <= k < |rest| :: rest[k] == queue[k + 1])
  {
    if queue[0] != t {
      var tail := queue[1..];
      assert t in tail;
      RemovedMembers(tail, t);
      var rest := RemoveFirst(queue, t);
      assert forall k | 0 < k < |rest| :: rest[k] == RemoveFirst(tail, t)[k - 1];
    }
  }

  lemma RemovalKeepsOthers(queue: seq<nat>, t: nat)
    requires Increasing(queue)
    ensures Increasing(RemoveFirst(queue, t))
    ensures forall u: nat :: u in RemoveFirst(queue, t) <==> u in queue && u != t
  {
    if t !in queue {
      RemoveAbsent(queue, t);
    } else {
      var rest, i := RemoveFirst(queue, t), IndexOf(queue, t);
      RemovedMembers(queue, t);
      SkippingKeepsOthers(queue, rest, i, t);
    }
  }

  lemma SkippingKeepsOthers(queue: seq<nat>, rest: seq<nat>, i: nat, t: nat)
    requires Increasing(queue) && i < |queue| && queue[i] == t && |rest| == |queue| - 1
    requires forall k | 0 <= k < i :: rest[k] == queue[k]
    requires forall k | i <= k < |rest| :: rest[k] == queue[k + 1]
    ensures Increasing(rest)
    ensures forall u: nat :: u in rest <==> u in queue && u != t
  {
    forall j, k | 0 <= j < k < |rest|
      ensures rest[j] < rest[k]
    {
      var j', k' := if j < i then j else j + 1, if k < i then k else k + 1;
      assert rest[j] == queue[j'] && rest[k] == queue[k'];
    }
    forall u: nat | u in queue && u != t
      ensures u in rest
    {
      var k :| 0 <= k < |queue| && queue[k] == u;
      if k < i { assert rest[k] == u; } else { assert rest[k - 1] == u; }
    }
    forall u: nat | u in rest
      ensures u in queue && u != t
    {
      var k :| 0 <= k < |rest| && rest[k] == u;
      if k < i { assert queue[k] == u; } else { assert queue[k + 1] == u; }
    }
  }

  lemma LeavingKeepsQueueOk(queue: seq<nat>, bg: bool, futures: seq<Future>, t: nat)
    requires QueueOk(queue, bg, futures) && t < |futures| && futures[t].state != Pending
    ensures QueueOk(RemoveFirst(queue, t), bg, futures)
  {
    RemovalKeepsOthers(queue, t);
    var rest := RemoveFirst(queue, t);
    forall i | 0 <= i < |rest|
      ensures rest[i] < |futures| && futures[rest[i]].background == bg && futures[rest[i]].state != Resolved
    {
      assert rest[i] in queue;
    }
  }

  lemma AcquireCancelledKeepsGateOk(g: GateState, t: nat)
    requires GateOk(g) && t < |g.futures| && g.futures[t].state != Pending
    ensures GateOk(AcquireCancelled(g, t).0)
  {
    if g.futures[t].state == Resolved {
      ReleasedKeepsGateOk(g);
    } else {
      LeavingKeepsQueueOk(g.foreground, false, g.futures, t);
      LeavingKeepsQueueOk(g.background, true, g.futures, t);
    }
  }
}
