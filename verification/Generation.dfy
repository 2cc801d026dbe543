/** `LlamaRuntime.generate` (`backend/app/llm/runtime.py`) as a step system: any number of foreground
    and background calls, each step the code between two suspension points, interleaved with task
    cancellation, per-call timeouts, model crashes and inference threads their caller abandoned. */
module Generation {
  import opened Basics
  import opened Gate

  /** How the inference thread ended.  `RaisedTimeout` is a model error that is itself a
      `TimeoutError`, which `generate` cannot tell from its own per-call guard. */
  datatype Outcome = Completed | Raised(error: string) | RaisedTimeout(error: string)

  datatype Work = NotStarted | InModel | Finished(outcome: Outcome)

  /** One `generate` call.  `Waiting` with `cancelled` has a `CancelledError` on its way;
      `Abandoned` has already failed for its caller while its thread still holds the gate. */
  datatype Call =
    | Waiting(ticket: nat, cancelled: bool)
    | Inside(work: Work)
    | Abandoned(work: Work, exit: Exit)
    | Done(exit: Exit)

  datatype RuntimeState = RuntimeState(gate: GateState, healthy: bool, lastError: Option<string>)

  function MarkedUnhealthy(r: RuntimeState, error: string): RuntimeState {
    r.(healthy := false, lastError := Some(error))
  }

  /** A caller that resumes from `await shield(work)` with the thread finished. */
  function Resumed(r: RuntimeState, outcome: Outcome): (s: RuntimeState)
    requires r.gate.InRange()
  {
    match outcome
    case Completed => RuntimeState(Released(r.gate), true, None)
    case Raised(error) => MarkedUnhealthy(r.(gate := Released(r.gate)), error)
    case RaisedTimeout(_) => r
  }

  /** The done-callback of an abandoned thread. */
  function AbandonedFinished(r: RuntimeState, outcome: Outcome): (s: RuntimeState)
    requires r.gate.InRange()
  {
    var released := r.(gate := Released(r.gate));
    if outcome.Completed? then released else MarkedUnhealthy(released, outcome.error)
  }

  class LlamaRuntime {
    const gate: PriorityGate
    var healthy: bool
    var lastError: Option<string>

    function Model(): RuntimeState
      reads this, gate
    {
      RuntimeState(gate.Model(), healthy, lastError)
    }

    constructor ()
      ensures Model() == RuntimeState(EMPTY_GATE, true, None)
      ensures fresh(gate)
    {
      gate := new PriorityGate();
      healthy, lastError := true, None;
    }

    method MarkUnhealthy(error: string)
      modifies this
      ensures Model() == MarkedUnhealthy(old(Model()), error)
    {
      healthy, lastError := false, Some(error);
    }

    /** The end of `generate`: the handlers and the `else` branch of its `try`.  `None` means the
        caller is done; otherwise the gate is still held and the exit is a timeout. */
    method FinishGeneration(outcome: Outcome) returns (abandoned: bool)
      requires Model().gate.InRange()
      modifies this, gate
      ensures Model() == Resumed(old(Model()), outcome)
      ensures abandoned <==> outcome.RaisedTimeout?
    {
      match outcome
      case RaisedTimeout(_) =>
        return true;
      case Raised(error) =>
        gate.Release();
        MarkUnhealthy(error);
        return false;
      case Completed =>
        gate.Release();
        healthy, lastError := true, None;
        return false;
    }

    method ReleaseAfterAbandoned(outcome: Outcome)
      requires Model().gate.InRange()
      modifies this, gate
      ensures Model() == AbandonedFinished(old(Model()), outcome)
    {
      gate.Release();
      if !outcome.Completed? {
        MarkUnhealthy(outcome.error);
      }
    }
  }

  // ----- the step system -----

  datatype LockEvent = Acquired(call: nat) | Freed(call: nat)

  /** `log` records every acquisition and every `release()` with the call responsible for it. */
  datatype System = System(runtime: RuntimeState, calls: seq<Call>, log: seq<LockEvent>)

  datatype Step =
    | Enter(background: bool)          // generate() up to its first await
    | CancelWaiter(call: nat)          // task.cancel() on a call queued at the gate
    | Resume(call: nat)                // a queued call runs again: granted, or cancelled
    | StartThread(call: nat)
    | ThreadDone(call: nat, outcome: Outcome)
    | Finish(call: nat)                // the caller observes the finished thread
    | Interrupt(call: nat, timeout: bool)  // timeout or cancellation while awaiting the thread
    | Callback(call: nat)              // the abandoned thread's done-callback

  const INITIAL := System(RuntimeState(EMPTY_GATE, true, None), [], [])

  ghost predicate Enabled(s: System, step: Step) {
    var g := s.runtime.gate;
    if step.Enter? then true
    else
      && step.call < |s.calls|
      && var c := s.calls[step.call];
         match step
         case CancelWaiter(_) => c.Waiting? && c.ticket < |g.futures|
         case Resume(_) => c.Waiting? && g.InRange() && c.ticket < |g.futures| && g.futures[c.ticket].state != Pending
         case StartThread(_) => (c.Inside? || c.Abandoned?) && c.work == NotStarted
         case ThreadDone(_, _) => (c.Inside? || c.Abandoned?) && c.work == InModel
         case Finish(_) => c.Inside? && c.work.Finished? && g.InRange()
         case Interrupt(_, _) => c.Inside?
         case Callback(_) => c.Abandoned? && c.work.Finished? && g.InRange()
  }

  function WithWork(c: Call, work: Work): (r: Call)
    requires c.Inside? || c.Abandoned?
  {
    if c.Inside? then Inside(work) else Abandoned(work, c.exit)
  }

  /** A `release()` by `call`: the hand-off, if any, is the next owner's acquisition. */
  function LogRelease(g: GateState, log: seq<LockEvent>, call: nat): seq<LockEvent>
    requires g.InRange()
  {
    match NextOwner(g)
    case None => log + [Freed(call)]
    case Some(t) => log + [Freed(call), Acquired(g.futures[t].caller)]
  }

  ghost function Next(s: System, step: Step): (r: System)
    requires Enabled(s, step)
  {
    var g := s.runtime.gate;
    match step
    case Enter(bg) =>
      var me := |s.calls|;
      var runtime := s.runtime.(gate := Entered(g, me, bg));
      if g.locked then System(runtime, s.calls + [Waiting(|g.futures|, false)], s.log)
      else System(runtime, s.calls + [Inside(NotStarted)], s.log + [Acquired(me)])
    case CancelWaiter(i) =>
      var t := s.calls[i].ticket;
      s.(runtime := s.runtime.(gate := FutureCancelled(g, t)), calls := s.calls[i := Waiting(t, true)])
    case Resume(i) =>
      var t := s.calls[i].ticket;
      if !s.calls[i].cancelled then s.(calls := s.calls[i := Inside(NotStarted)])
      else
        var (gate, exit) := AcquireCancelled(g, t);
        System(s.runtime.(gate := gate), s.calls[i := Done(exit)],
               if g.futures[t].state == Resolved then LogRelease(g, s.log, i) else s.log)
    case StartThread(i) => s.(calls := s.calls[i := WithWork(s.calls[i], InModel)])
    case ThreadDone(i, outcome) => s.(calls := s.calls[i := WithWork(s.calls[i], Finished(outcome))])
    case Finish(i) =>
      var work := s.calls[i].work;
      var runtime := Resumed(s.runtime, work.outcome);
      if work.outcome.RaisedTimeout? then System(runtime, s.calls[i := Abandoned(work, TimeoutError)], s.log)
      else System(runtime, s.calls[i := Done(if work.outcome.Completed? then Returned else ModelError)],
          LogRelease(g, s.log, i))
    case Interrupt(i, timeout) =>
      s.(calls := s.calls[i := Abandoned(s.calls[i].work, if timeout then TimeoutError else CancelledError)])
    case Callback(i) =>
      System(AbandonedFinished(s.runtime, s.calls[i].work.outcome), s.calls[i := Done(s.calls[i].exit)],
          LogRelease(g, s.log, i))
  }

  ghost predicate Runs(s: System, steps: seq<Step>)
    decreases |steps|
  {
    steps == [] || (Enabled(s, steps[0]) && Runs(Next(s, steps[0]), steps[1..]))
  }

  ghost function After(s: System, steps: seq<Step>): (r: System)
    requires Runs(s, steps)
    decreases |steps|
  {
    if steps == [] then s else After(Next(s, steps[0]), steps[1..])
  }

  // ----- the invariant -----

  /** Who owns the gate: a call awaiting its thread, a thread its caller abandoned, or a waiter the
      gate was handed to that has not run since. */
  ghost predicate Owns(futures: seq<Future>, calls: seq<Call>, i: nat) {
    && i < |calls|
    && (calls[i].Inside? || calls[i].Abandoned? ||
        (calls[i].Waiting? && calls[i].ticket < |futures| && futures[calls[i].ticket].state == Resolved))
  }

  ghost predicate SoleOwner(futures: seq<Future>, calls: seq<Call>, owner: Option<nat>) {
    forall i: nat :: Owns(futures, calls, i) <==> owner == Some(i)
  }

  /** A call that waits has its own future; cancelling the call cancelled a pending future. */
  ghost predicate CallLinked(futures: seq<Future>, c: Call, i: nat) {
    c.Waiting? ==>
      && c.ticket < |futures|
      && futures[c.ticket].caller == i
      && (if c.cancelled then futures[c.ticket].state != Pending else futures[c.ticket].state != Cancelled)
  }

  /** A future belongs to one call, which still waits on it while it is pending or queued. */
  ghost predicate FutureLinked(g: GateState, calls: seq<Call>, t: nat)
    requires t < |g.futures|
  {
    && g.futures[t].caller < |calls|
    && (calls[g.futures[t].caller].Waiting? ==> calls[g.futures[t].caller].ticket == t)
    && (g.futures[t].state == Pending || t in g.foreground || t in g.background ==> calls[g.futures[t].caller].Waiting?)
  }

  ghost predicate Linked(g: GateState, calls: seq<Call>) {
    && (forall i | 0 <= i < |calls| :: CallLinked(g.futures, calls[i], i))
    && (forall t | 0 <= t < |g.futures| :: FutureLinked(g, calls, t))
  }

  /** Who holds the lock after a log, or `None` when the log double-acquires, releases a free
      lock, or lets anyone but the holder release it. */
  ghost function Holder(log: seq<LockEvent>): Option<Option<nat>>
  {
    if log == [] then Some(None)
    else
      var before := Holder(log[..|log| - 1]);
      match log[|log| - 1]
      case Acquired(i) => if before == Some(None) then Some(Some(i)) else None
      case Freed(i) => if before == Some(Some(i)) then Some(None) else None
  }

  ghost predicate LogOk(futures: seq<Future>, calls: seq<Call>, log: seq<LockEvent>, owner: Option<nat>) {
    && Holder(log) == Some(owner)
    && (forall i: nat :: multiset(log)[Acquired(i)] <= 1)
    && (forall i: nat | multiset(log)[Acquired(i)] > 0 ::
         i < |calls| && (calls[i].Waiting? ==> Owns(futures, calls, i)))
  }

  ghost predicate InvOwned(s: System, owner: Option<nat>) {
    && GateOk(s.runtime.gate)
    && (owner.Some? <==> s.runtime.gate.locked)
    && Linked(s.runtime.gate, s.calls)
    && SoleOwner(s.runtime.gate.futures, s.calls, owner)
    && LogOk(s.runtime.gate.futures, s.calls, s.log, owner)
    && (s.runtime.healthy <==> s.runtime.lastError.None?)
  }

  ghost predicate Inv(s: System) {
    exists owner :: InvOwned(s, owner)
  }

  // ----- every step keeps the invariant -----

  lemma HolderSnoc(log: seq<LockEvent>, e: LockEvent)
    ensures Holder(log + [e]) ==
            match e
            case Acquired(i) => (if Holder(log) == Some(None) then Some(Some(i)) else None)
            case Freed(i) => (if Holder(log) == Some(Some(i)) then Some(None) else None)
  {
    assert (log + [e])[..|log|] == log;
  }

  function HandedTo(g: GateState): Option<nat>
    requires g.InRange()
  {
    match NextOwner(g)
    case None => None
    case Some(t) => Some(g.futures[t].caller)
  }

  lemma LogReleaseOk(g: GateState, log: seq<LockEvent>, i: nat)
    requires g.InRange() && Holder(log) == Some(Some(i))
    ensures Holder(LogRelease(g, log, i)) == Some(HandedTo(g))
    ensures multiset(LogRelease(g, log, i)) == multiset(log) + multiset{Freed(i)} +
            (if HandedTo(g).Some? then multiset{Acquired(HandedTo(g).value)} else multiset{})
  {
    HolderSnoc(log, Freed(i));
    match NextOwner(g)
    case None =>
    case Some(t) =>
      var e := Acquired(g.futures[t].caller);
      HolderSnoc(log + [Freed(i)], e);
      assert log + [Freed(i), e] == (log + [Freed(i)]) + [e];
  }

  lemma ReleasedQueues(g: GateState)
    requires GateOk(g)
    ensures forall t: nat | t in Released(g).foreground :: t in g.foreground && Some(t) != NextOwner(g)
    ensures forall t: nat | t in Released(g).background :: t in g.background && Some(t) != NextOwner(g)
  {
    var f := FirstLive(g.foreground, g.futures);
    var b := FirstLive(g.background, g.futures);
    if f < |g.foreground| {
      TailIncreasing(g.foreground, f);
    } else if b < |g.background| {
      TailIncreasing(g.background, b);
    }
  }

  /** The hand-off seen from the calls: waiter `next`, if any, becomes the sole owner. */
  lemma HandOff(g: GateState, g': GateState, calls: seq<Call>, i: nat, exit: Exit, next: Option<nat>)
    requires Linked(g, calls) && SoleOwner(g.futures, calls, Some(i)) && i < |calls|
    requires forall t: nat | t < |g.futures| && (t in g.foreground || t in g.background) ::
            g.futures[t].state != Resolved
    requires next.Some? ==> g.Live(next.value)
    requires g'.futures == if next.Some? then SetState(g.futures, next.value, Resolved) else g.futures
    requires forall t: nat | t in g'.foreground :: t in g.foreground
    requires forall t: nat | t in g'.background :: t in g.background
    ensures Linked(g', calls[i := Done(exit)])
    ensures SoleOwner(g'.futures, calls[i := Done(exit)],
                      if next.Some? then Some(g.futures[next.value].caller) else None)
  {
    var calls' := calls[i := Done(exit)];
    assert Owns(g.futures, calls, i);
    forall t | 0 <= t < |g'.futures|
      ensures FutureLinked(g', calls', t)
    {
      assert FutureLinked(g, calls, t);
      if g.futures[t].caller == i {
        assert CallLinked(g.futures, calls[i], i);
      }
    }
    forall j | 0 <= j < |calls'|
      ensures CallLinked(g'.futures, calls'[j], j)
    {
      assert CallLinked(g.futures, calls[j], j);
    }
    var owner := if next.Some? then Some(g.futures[next.value].caller) else None;
    if next.Some? {
      assert FutureLinked(g, calls, next.value);
      assert !Owns(g.futures, calls, owner.value);
    }
    forall j: nat
      ensures Owns(g'.futures, calls', j) <==> owner == Some(j)
    {
      assert Owns(g.futures, calls, j) <==> j == i;
    }
  }

  lemma LogHandOff(g: GateState, futures': seq<Future>, calls: seq<Call>, calls': seq<Call>, log: seq<LockEvent>,
                   i: nat)
    requires g.InRange() && LogOk(g.futures, calls, log, Some(i)) && i < |calls| && |calls'| == |calls|
    requires SoleOwner(g.futures, calls, Some(i)) && SoleOwner(futures', calls', HandedTo(g))
    requires forall j | 0 <= j < |calls| && calls'[j].Waiting? :: calls[j].Waiting? && j != i
    requires HandedTo(g).Some? ==>
            HandedTo(g).value < |calls| && calls[HandedTo(g).value].Waiting? && HandedTo(g).value != i
    ensures LogOk(futures', calls', LogRelease(g, log, i), HandedTo(g))
  {
    LogReleaseOk(g, log, i);
    var log' := LogRelease(g, log, i);
    forall j: nat
      ensures multiset(log')[Acquired(j)] <= 1
      ensures multiset(log')[Acquired(j)] > 0 ==> j < |calls'| && (calls'[j].Waiting? ==> Owns(futures', calls', j))
    {
      assert Owns(g.futures, calls, j) <==> j == i;
      assert Owns(futures', calls', j) <==> HandedTo(g) == Some(j);
    }
  }

  /** A `release()` by the owner, on whichever path: the gate goes to the next live waiter. */
  lemma ReleaseKeepsInv(s: System, i: nat, exit: Exit, s': System)
    requires InvOwned(s, Some(i)) && i < |s.calls|
    requires s'.runtime.gate == Released(s.runtime.gate) && s'.calls == s.calls[i := Done(exit)]
    requires s'.log == LogRelease(s.runtime.gate, s.log, i)
    requires s'.runtime.healthy <==> s'.runtime.lastError.None?
    ensures InvOwned(s', HandedTo(s.runtime.gate))
  {
    var g, g' := s.runtime.gate, s'.runtime.gate;
    var next := NextOwner(g);
    ReleasedKeepsGateOk(g);
    ReleasedEffect(g);
    ReleasedQueues(g);
    forall t: nat | t < |g.futures|
      ensures g.futures[t].state == Resolved ==> t !in g.foreground && t !in g.background
    {
      QueuesApart(g, t);
    }
    HandOff(g, g', s.calls, i, exit, next);
    if next.Some? {
      assert FutureLinked(g, s.calls, next.value);
      assert Owns(g.futures, s.calls, i);
      assert CallLinked(g.futures, s.calls[i], i);
    }
    LogHandOff(g, g'.futures, s.calls, s'.calls, s.log, i);
  }

  lemma EnterLinked(g: GateState, g': GateState, calls: seq<Call>, calls': seq<Call>)
    requires Linked(g, calls) && !g.locked && g' == g.(locked := true) && calls' == calls + [Inside(NotStarted)]
    ensures Linked(g', calls')
  {
    forall t | 0 <= t < |g'.futures| ensures FutureLinked(g', calls', t) { assert FutureLinked(g, calls, t); }
    forall j | 0 <= j < |calls'|
      ensures CallLinked(g'.futures, calls'[j], j)
    {
      if j < |calls| { assert CallLinked(g.futures, calls[j], j); }
    }
  }

  lemma QueueLinked(g: GateState, g': GateState, calls: seq<Call>, calls': seq<Call>, bg: bool)
    requires GateOk(g) && Linked(g, calls) && g.locked && g' == Entered(g, |calls|, bg)
    requires calls' == calls + [Waiting(|g.futures|, false)]
    ensures Linked(g', calls')
  {
    forall t | 0 <= t < |g'.futures|
      ensures FutureLinked(g', calls', t)
    {
      if t < |g.futures| { assert FutureLinked(g, calls, t); }
    }
    forall j | 0 <= j < |calls'|
      ensures CallLinked(g'.futures, calls'[j], j)
    {
      if j < |calls| { assert CallLinked(g.futures, calls[j], j); }
    }
  }

  lemma EnterKeepsInv(s: System, owner: Option<nat>, bg: bool)
    requires InvOwned(s, owner)
    ensures InvOwned(Next(s, Enter(bg)), if owner.Some? then owner else Some(|s.calls|))
  {
    var s' := Next(s, Enter(bg));
    var g, g' := s.runtime.gate, s'.runtime.gate;
    EnteredKeepsGateOk(g, |s.calls|, bg);
    if g.locked { QueueLinked(g, g', s.calls, s'.calls, bg); } else { EnterLinked(g, g', s.calls, s'.calls); }
    EnterOwner(g, g', s.calls, s'.calls, owner);
    EnterLog(g.futures, g'.futures, s.calls, s'.calls, s.log, owner);
  }

  lemma EnterOwner(g: GateState, g': GateState, calls: seq<Call>, calls': seq<Call>, owner: Option<nat>)
    requires Linked(g, calls) && SoleOwner(g.futures, calls, owner)
    requires g.futures <= g'.futures && calls < calls' && |calls'| == |calls| + 1
    requires if owner.Some? then calls'[|calls|].Waiting? && calls'[|calls|].ticket < |g'.futures|
            && g'.futures[calls'[|calls|].ticket].state == Pending
            else calls'[|calls|].Inside?
    ensures SoleOwner(g'.futures, calls', if owner.Some? then owner else Some(|calls|))
  {
    forall j: nat
      ensures Owns(g'.futures, calls', j) <==> (if owner.Some? then owner else Some(|calls|)) == Some(j)
    {
      assert Owns(g.futures, calls, j) <==> owner == Some(j);
      if j < |calls| {
        assert calls'[j] == calls[j];
        assert CallLinked(g.futures, calls[j], j);
      }
    }
  }

  lemma EnterLog(futures: seq<Future>, futures': seq<Future>, calls: seq<Call>, calls': seq<Call>,
                 log: seq<LockEvent>, owner: Option<nat>)
    requires LogOk(futures, calls, log, owner) && SoleOwner(futures, calls, owner)
    requires futures <= futures' && calls < calls' && |calls'| == |calls| + 1
    requires SoleOwner(futures', calls', if owner.Some? then owner else Some(|calls|))
    ensures LogOk(futures', calls', if owner.Some? then log else log + [Acquired(|calls|)],
                  if owner.Some? then owner else Some(|calls|))
  {
    HolderSnoc(log, Acquired(|calls|));
    var log' := if owner.Some? then log else log + [Acquired(|calls|)];
    forall j: nat
      ensures multiset(log')[Acquired(j)] <= 1
      ensures multiset(log')[Acquired(j)] > 0 ==> j < |calls'| && (calls'[j].Waiting? ==> Owns(futures', calls', j))
    {
      if j < |calls| {
        assert Owns(futures, calls, j) ==> Owns(futures', calls', j);
      }
    }
  }

  lemma CancelWaiterKeepsInv(s: System, owner: Option<nat>, i: nat)
    requires InvOwned(s, owner) && Enabled(s, CancelWaiter(i))
    ensures InvOwned(Next(s, CancelWaiter(i)), owner)
  {
    var s' := Next(s, CancelWaiter(i));
    var g, g' := s.runtime.gate, s'.runtime.gate;
    CancelledKeepsGateOk(g, s.calls[i].ticket);
    assert CallLinked(g.futures, s.calls[i], i);
    forall t | 0 <= t < |g'.futures|
      ensures FutureLinked(g', s'.calls, t)
    {
      assert FutureLinked(g, s.calls, t);
    }
    forall j | 0 <= j < |s'.calls|
      ensures CallLinked(g'.futures, s'.calls[j], j)
      ensures Owns(g'.futures, s'.calls, j) <==> Owns(g.futures, s.calls, j)
    {
      assert CallLinked(g.futures, s.calls[j], j);
    }
    forall j: nat
      ensures Owns(g'.futures, s'.calls, j) <==> owner == Some(j)
    {
      assert Owns(g.futures, s.calls, j) <==> owner == Some(j);
    }
  }

  /** The steps after which the owner, if any, stays the owner. */
  lemma OwnerStepKeepsInv(s: System, owner: Option<nat>, i: nat, c: Call, g': GateState)
    requires InvOwned(s, owner) && i < |s.calls| && GateOk(g') && g'.futures == s.runtime.gate.futures
    requires g'.locked == s.runtime.gate.locked && !c.Waiting?
    requires c.Inside? || c.Abandoned? <==> Owns(g'.futures, s.calls, i)
    requires s.calls[i].Waiting? ==>
            s.calls[i].ticket !in g'.foreground && s.calls[i].ticket !in g'.background && !g'.Live(s.calls[i].ticket)
    requires forall t: nat | t in g'.foreground :: t in s.runtime.gate.foreground
    requires forall t: nat | t in g'.background :: t in s.runtime.gate.background
    ensures InvOwned(System(s.runtime.(gate := g'), s.calls[i := c], s.log), owner)
  {
    var g := s.runtime.gate;
    var calls' := s.calls[i := c];
    forall t | 0 <= t < |g'.futures|
      ensures FutureLinked(g', calls', t)
    {
      assert FutureLinked(g, s.calls, t);
    }
    forall j | 0 <= j < |calls'|
      ensures CallLinked(g'.futures, calls'[j], j)
    {
      assert CallLinked(g.futures, s.calls[j], j);
    }
    forall j: nat
      ensures Owns(g'.futures, calls', j) <==> owner == Some(j)
    {
      assert Owns(g.futures, s.calls, j) <==> owner == Some(j);
    }
  }

  lemma ResumeKeepsInv(s: System, owner: Option<nat>, i: nat)
    requires InvOwned(s, owner) && Enabled(s, Resume(i))
    ensures Inv(Next(s, Resume(i)))
  {
    var s' := Next(s, Resume(i));
    var g := s.runtime.gate;
    var t := s.calls[i].ticket;
    assert Owns(g.futures, s.calls, i) <==> owner == Some(i);
    assert CallLinked(g.futures, s.calls[i], i) && FutureLinked(g, s.calls, t);
    if s.calls[i].cancelled && g.futures[t].state == Resolved {
      ReleaseKeepsInv(s, i, CancelledError, s');
    } else {
      AcquireCancelledKeepsGateOk(g, t);
      RemovalKeepsOthers(g.foreground, t);
      RemovalKeepsOthers(g.background, t);
      QueuesApart(g, t);
      OwnerStepKeepsInv(s, owner, i, s'.calls[i], s'.runtime.gate);
      assert InvOwned(s', owner);
    }
  }

  lemma QueuesApart(g: GateState, t: nat)
    requires GateOk(g) && t < |g.futures|
    ensures t !in g.Queue(!g.futures[t].background)
    ensures g.futures[t].state == Resolved ==> t !in g.foreground && t !in g.background
  {
  }

  lemma StepKeepsInv(s: System, step: Step)
    requires Inv(s) && Enabled(s, step)
    ensures Inv(Next(s, step))
  {
    var owner :| InvOwned(s, owner);
    var s' := Next(s, step);
    match step
    case Enter(bg) => EnterKeepsInv(s, owner, bg);
    case CancelWaiter(i) => CancelWaiterKeepsInv(s, owner, i);
    case Resume(i) => ResumeKeepsInv(s, owner, i);
    case StartThread(i) => OwnerStepKeepsInv(s, owner, i, s'.calls[i], s.runtime.gate);
    case ThreadDone(i, _) => OwnerStepKeepsInv(s, owner, i, s'.calls[i], s.runtime.gate);
    case Interrupt(i, _) => OwnerStepKeepsInv(s, owner, i, s'.calls[i], s.runtime.gate);
    case Finish(i) =>
      assert Owns(s.runtime.gate.futures, s.calls, i) <==> owner == Some(i);
      if s.calls[i].work.outcome.RaisedTimeout? {
        OwnerStepKeepsInv(s, owner, i, s'.calls[i], s.runtime.gate);
      } else {
        ReleaseKeepsInv(s, i, s'.calls[i].exit, s');
      }
    case Callback(i) =>
      assert Owns(s.runtime.gate.futures, s.calls, i) <==> owner == Some(i);
      ReleaseKeepsInv(s, i, s.calls[i].exit, s');
  }

  lemma {:induction false} RunKeepsInv(s: System, steps: seq<Step>)
    requires Inv(s) && Runs(s, steps)
    ensures Inv(After(s, steps))
    decreases |steps|
  {
    if steps != [] {
      StepKeepsInv(s, steps[0]);
      RunKeepsInv(Next(s, steps[0]), steps[1..]);
    }
  }

  lemma InitialInv()
    ensures Inv(INITIAL)
  {
    assert InvOwned(INITIAL, None);
  }

  ghost predicate Reachable(s: System) {
    exists steps :: Runs(INITIAL, steps) && After(INITIAL, steps) == s
  }

  lemma ReachableInv(s: System)
    requires Reachable(s)
    ensures Inv(s)
  {
    var steps :| Runs(INITIAL, steps) && After(INITIAL, steps) == s;
    InitialInv();
    RunKeepsInv(INITIAL, steps);
  }
}
