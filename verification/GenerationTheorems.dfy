/** What the generation protocol guarantees in every reachable state and over every run. */
module GenerationTheorems {
  import opened Basics
  import opened Gate
  import opened Generation

  ghost predicate ThreadInModel(s: System, i: nat) {
    i < |s.calls| && (s.calls[i].Inside? || s.calls[i].Abandoned?) && s.calls[i].work == InModel
  }

  /** Mutual exclusion, abandoned threads included, and the meaning of the locked flag. */
  lemma MutualExclusion(s: System)
    requires Reachable(s)
    ensures forall i: nat, j: nat :: ThreadInModel(s, i) && ThreadInModel(s, j) ==> i == j
    ensures forall i: nat, j: nat ::
            Owns(s.runtime.gate.futures, s.calls, i) && Owns(s.runtime.gate.futures, s.calls, j) ==> i == j
    ensures s.runtime.gate.locked <==> exists i: nat :: Owns(s.runtime.gate.futures, s.calls, i)
    ensures s.runtime.healthy <==> s.runtime.lastError == None
  {
    ReachableInv(s);
    var owner :| InvOwned(s, owner);
    forall i: nat
      ensures ThreadInModel(s, i) ==> Owns(s.runtime.gate.futures, s.calls, i)
      ensures Owns(s.runtime.gate.futures, s.calls, i) <==> owner == Some(i)
    {
    }
  }

  /** No hand-off is lost: nobody waits at a free gate, every live waiter has an owner in front of
      it, and each call that is over released the gate exactly as often as it acquired it. */
  lemma NoLostHandOff(s: System)
    requires Reachable(s)
    ensures !s.runtime.gate.locked ==>
              && s.runtime.gate.foreground == [] && s.runtime.gate.background == []
              && forall t: nat :: !s.runtime.gate.Live(t)
    ensures (exists t: nat :: s.runtime.gate.Live(t)) ==> exists i: nat :: Owns(s.runtime.gate.futures, s.calls, i)
    ensures Holder(s.log).Some?
    ensures forall i: nat :: multiset(s.log)[Freed(i)] <= multiset(s.log)[Acquired(i)] <= 1
    ensures forall i | 0 <= i < |s.calls| && s.calls[i].Done? ::
            multiset(s.log)[Freed(i)] == multiset(s.log)[Acquired(i)]
  {
    MutualExclusion(s);
    ReachableInv(s);
    var owner :| InvOwned(s, owner);
    forall i: nat
      ensures multiset(s.log)[Acquired(i)] == multiset(s.log)[Freed(i)] + if owner == Some(i) then 1 else 0
    {
      HolderCounts(s.log, i);
    }
    forall i | 0 <= i < |s.calls| && s.calls[i].Done?
      ensures owner != Some(i)
    {
      assert !Owns(s.runtime.gate.futures, s.calls, i);
    }
  }

  lemma {:induction false} HolderCounts(log: seq<LockEvent>, i: nat)
    requires Holder(log).Some?
    ensures multiset(log)[Acquired(i)] == multiset(log)[Freed(i)] + if Holder(log) == Some(Some(i)) then 1 else 0
  {
    if log != [] {
      var before := log[..|log| - 1];
      HolderCounts(before, i);
      assert log == before + [log[|log| - 1]];
    }
  }

  // ----- queue depth -----

  ghost predicate Queued(s: System, i: nat) {
    && i < |s.calls| && s.calls[i].Waiting?
    && (s.calls[i].ticket in s.runtime.gate.foreground || s.calls[i].ticket in s.runtime.gate.background)
  }

  ghost function CallersOf(queue: seq<nat>, futures: seq<Future>): (r: set<nat>)
    requires Below(queue, |futures|)
    ensures forall i: nat :: i in r <==> exists k :: 0 <= k < |queue| && futures[queue[k]].caller == i
  {
    if queue == [] then {}
    else
      assert queue == [queue[0]] + queue[1..];
      {futures[queue[0]].caller} + CallersOf(queue[1..], futures)
  }

  lemma {:induction false} CallersOfSize(queue: seq<nat>, futures: seq<Future>)
    requires Below(queue, |futures|)
    requires forall j, k | 0 <= j < k < |queue| :: futures[queue[j]].caller != futures[queue[k]].caller
    ensures |CallersOf(queue, futures)| == |queue|
  {
    if queue != [] {
      CallersOfSize(queue[1..], futures);
      assert futures[queue[0]].caller !in CallersOf(queue[1..], futures);
    }
  }

  lemma BothQueues(g: GateState, both: seq<nat>)
    requires GateOk(g) && both == g.foreground + g.background
    ensures Below(both, |g.futures|)
    ensures forall k | 0 <= k < |both| :: both[k] in g.foreground || both[k] in g.background
    ensures forall j, k | 0 <= j < k < |both| :: both[j] != both[k]
  {
    forall k | 0 <= k < |both|
      ensures both[k] < |g.futures| && (both[k] in g.foreground || both[k] in g.background)
    {
      assert both[k] == if k < |g.foreground| then g.foreground[k] else g.background[k - |g.foreground|];
    }
    forall j, k | 0 <= j < k < |both|
      ensures both[j] != both[k]
    {
      QueuesApart(g, both[j]);
    }
  }

  /** A call waiting on a queued future is its caller. */
  lemma CallerQueued(g: GateState, calls: seq<Call>, both: seq<nat>, i: nat)
    requires Linked(g, calls) && Below(both, |g.futures|)
    requires i < |calls| && calls[i].Waiting? && calls[i].ticket in both
    ensures i in CallersOf(both, g.futures)
  {
    assert CallLinked(g.futures, calls[i], i);
    var k :| 0 <= k < |both| && both[k] == calls[i].ticket;
  }

  lemma QueuedCalls(g: GateState, calls: seq<Call>, both: seq<nat>)
    requires GateOk(g) && Linked(g, calls) && both == g.foreground + g.background
    ensures Below(both, |g.futures|) && |CallersOf(both, g.futures)| == |both|
    ensures forall i: nat :: i in CallersOf(both, g.futures) <==>
              i < |calls| && calls[i].Waiting? && (calls[i].ticket in g.foreground || calls[i].ticket in g.background)
  {
    BothQueues(g, both);
    forall k | 0 <= k < |both|
      ensures g.futures[both[k]].caller < |calls| && calls[g.futures[both[k]].caller].Waiting?
              && calls[g.futures[both[k]].caller].ticket == both[k]
    {
      assert FutureLinked(g, calls, both[k]);
    }
    CallersOfSize(both, g.futures);
    forall i: nat | i < |calls| && calls[i].Waiting?
        && (calls[i].ticket in g.foreground || calls[i].ticket in g.background)
      ensures i in CallersOf(both, g.futures)
    {
      assert calls[i].ticket in both;
      CallerQueued(g, calls, both, i);
    }
  }

  /** `depth` counts the owner of the gate, which may be an abandoned thread, and the calls whose
      future is still in a queue, cancelled ones included. */
  lemma DepthCountsCalls(s: System, counted: set<nat>)
    requires Reachable(s)
    requires forall i: nat :: i in counted <==> Owns(s.runtime.gate.futures, s.calls, i) || Queued(s, i)
    ensures |counted| == s.runtime.gate.Depth()
  {
    ReachableInv(s);
    var owner :| InvOwned(s, owner);
    var g := s.runtime.gate;
    QueuedCalls(g, s.calls, g.foreground + g.background);
    var queued := CallersOf(g.foreground + g.background, g.futures);
    assert owner.Some? ==> Owns(g.futures, s.calls, owner.value);
    forall i: nat | i in queued
      ensures owner != Some(i)
    {
      assert CallLinked(g.futures, s.calls[i], i);
      QueuesApart(g, s.calls[i].ticket);
      assert !Owns(g.futures, s.calls, i);
    }
    assert forall i: nat :: i in counted <==> owner == Some(i) || i in queued;
    UnionSize(counted, owner, queued);
  }

  lemma UnionSize(all: set<nat>, one: Option<nat>, others: set<nat>)
    requires one.Some? ==> one.value !in others
    requires forall i: nat :: i in all <==> one == Some(i) || i in others
    ensures |all| == |others| + if one.Some? then 1 else 0
  {
    assert all == others + if one.Some? then {one.value} else {};
  }

  // ----- priority, FIFO and bounded overtaking -----

  /** Live waiters of one class among the first `n` futures. */
  ghost function LiveBefore(futures: seq<Future>, bg: bool, n: nat): nat
    requires n <= |futures|
  {
    if n == 0 then 0
    else LiveBefore(futures, bg, n - 1) + if futures[n - 1].background == bg
        && futures[n - 1].state == Pending then 1 else 0
  }

  /** How many live waiters are served before waiter `t`, as things stand. */
  ghost function Rank(g: GateState, t: nat): nat
    requires t < |g.futures|
  {
    if g.futures[t].background then LiveBefore(g.futures, false, |g.futures|) + LiveBefore(g.futures, true, t)
    else LiveBefore(g.futures, false, t)
  }

  lemma {:induction false} LiveBeforeSettled(futures: seq<Future>, bg: bool, n: nat, t: nat, state: FutureState)
    requires n <= |futures| && t < |futures| && futures[t].state == Pending && state != Pending
    ensures LiveBefore(SetState(futures, t, state), bg, n) == LiveBefore(futures, bg, n) - if t < n
            && futures[t].background == bg then 1 else 0
  {
    if n > 0 {
      LiveBeforeSettled(futures, bg, n - 1, t, state);
    }
  }

  lemma {:induction false} LiveBeforePrefix(futures: seq<Future>, longer: seq<Future>, bg: bool, n: nat)
    requires n <= |futures| && futures <= longer
    ensures LiveBefore(longer, bg, n) == LiveBefore(futures, bg, n)
  {
    if n > 0 {
      LiveBeforePrefix(futures, longer, bg, n - 1);
    }
  }

  /** The steps that call `release`. */
  ghost predicate IsRelease(s: System, step: Step)
    requires Enabled(s, step)
  {
    match step
    case Finish(i) => !s.calls[i].work.outcome.RaisedTimeout?
    case Callback(_) => true
    case Resume(i) => s.calls[i].cancelled && s.runtime.gate.futures[s.calls[i].ticket].state == Resolved
    case _ => false
  }

  ghost function Releases(s: System, steps: seq<Step>): nat
    requires Runs(s, steps)
    decreases |steps|
  {
    if steps == [] then 0
    else (if IsRelease(s, steps[0]) then 1 else 0) + Releases(Next(s, steps[0]), steps[1..])
  }

  ghost function ForegroundArrivals(steps: seq<Step>): nat {
    if steps == [] then 0
    else (if steps[0] == Enter(false) then 1 else 0) + ForegroundArrivals(steps[1..])
  }

  /** The four ways a step changes the futures. */
  ghost predicate FuturesStep(s: System, step: Step)
    requires Enabled(s, step) && s.runtime.gate.InRange()
  {
    var f, f' := s.runtime.gate.futures, Next(s, step).runtime.gate.futures;
    if IsRelease(s, step) then
      f' == match NextOwner(s.runtime.gate)
            case Some(t) => SetState(f, t, Resolved)
            case None => f
    else if step.CancelWaiter? then
      f' == FutureCancelled(s.runtime.gate, s.calls[step.call].ticket).futures
    else if step.Enter? then
      f' == if s.runtime.gate.locked then f + [Future(|s.calls|, step.background, Pending)] else f
    else f' == f
  }

  lemma ReleaseOnFutures(s: System, step: Step)
    requires GateOk(s.runtime.gate) && Enabled(s, step) && IsRelease(s, step)
    ensures Next(s, step).runtime.gate == Released(s.runtime.gate)
  {
  }

  lemma StepOnFutures(s: System, step: Step)
    requires Inv(s) && Enabled(s, step)
    ensures s.runtime.gate.InRange() && FuturesStep(s, step)
  {
    InvGateOk(s);
    GateStepOnFutures(s, step);
  }

  lemma GateStepOnFutures(s: System, step: Step)
    requires GateOk(s.runtime.gate) && Enabled(s, step)
    ensures s.runtime.gate.InRange() && FuturesStep(s, step)
  {
    if IsRelease(s, step) {
      ReleaseOnFutures(s, step);
      ReleasedEffect(s.runtime.gate);
    }
  }

  /** Granting the next owner brings every waiter that stays live one place nearer. */
  lemma GrantRank(g: GateState, g': GateState, t: nat, o: nat)
    requires GateOk(g) && NextOwner(g) == Some(o) && g'.futures == SetState(g.futures, o, Resolved)
    requires t < |g.futures| && g'.Live(t)
    ensures g.Live(t) && Rank(g', t) + 1 <= Rank(g, t)
  {
    NextOwnerIsFirstInLine(g);
    assert g.Precedes(o, t) by { assert !g.Precedes(t, o); }
    LiveBeforeSettled(g.futures, false, |g.futures|, o, Resolved);
    LiveBeforeSettled(g.futures, true, t, o, Resolved);
    LiveBeforeSettled(g.futures, false, t, o, Resolved);
  }

  lemma CancelRank(g: GateState, g': GateState, t: nat, u: nat)
    requires u < |g.futures| && t < |g.futures| && g'.futures == FutureCancelled(g, u).futures && g'.Live(t)
    ensures g.Live(t) && Rank(g', t) <= Rank(g, t)
  {
    if g.Live(u) {
      LiveBeforeSettled(g.futures, false, |g.futures|, u, Cancelled);
      LiveBeforeSettled(g.futures, true, t, u, Cancelled);
      LiveBeforeSettled(g.futures, false, t, u, Cancelled);
    }
  }

  lemma ArrivalRank(g: GateState, g': GateState, t: nat, arrived: Future)
    requires g'.futures == g.futures + [arrived] && t < |g.futures|
    ensures Rank(g', t) <= Rank(g, t) + if g.futures[t].background && !arrived.background then 1 else 0
    ensures g'.futures[t] == g.futures[t]
  {
    LiveBeforePrefix(g.futures, g'.futures, false, |g.futures|);
    LiveBeforePrefix(g.futures, g'.futures, true, t);
    LiveBeforePrefix(g.futures, g'.futures, false, t);
  }

  lemma StepRank(s: System, step: Step, t: nat)
    requires Inv(s) && Enabled(s, step)
    requires t < |s.runtime.gate.futures|
    ensures var g, g' := s.runtime.gate, Next(s, step).runtime.gate;
            && t < |g'.futures| && g'.futures[t].background == g.futures[t].background
            && (g'.Live(t) ==> g.Live(t))
            && (g'.Live(t) ==>
                  Rank(g', t) + (if IsRelease(s, step) then 1 else 0) <= Rank(g, t) + if g.futures[t].background
                      && step == Enter(false) then 1 else 0)
  {
    StepOnFutures(s, step);
    InvGateOk(s);
    GateStepRank(s, step, s.runtime.gate, Next(s, step).runtime.gate, t);
  }

  lemma GateStepRank(s: System, step: Step, g: GateState, g': GateState, t: nat)
    requires GateOk(g) && Enabled(s, step) && g == s.runtime.gate && g' == Next(s, step).runtime.gate
    requires FuturesStep(s, step) && t < |g.futures|
    ensures t < |g'.futures| && g'.futures[t].background == g.futures[t].background
    ensures g'.Live(t) ==> g.Live(t)
    ensures g'.Live(t) ==>
              Rank(g', t) + (if IsRelease(s, step) then 1 else 0) <= Rank(g, t) + if g.futures[t].background
                  && step == Enter(false) then 1 else 0
  {
    if IsRelease(s, step) {
      if g'.Live(t) {
        NextOwnerIsFirstInLine(g);
        assert g.Live(t);
        GrantRank(g, g', t, NextOwner(g).value);
      }
    } else if step.CancelWaiter? {
      if g'.Live(t) { CancelRank(g, g', t, s.calls[step.call].ticket); }
    } else if step.Enter? && g.locked {
      ArrivalRank(g, g', t, Future(|s.calls|, step.background, Pending));
    }
  }

  /** Bounded overtaking: while waiter `t` stays live, every release brings it one place nearer, and
      only foreground arrivals can push a background waiter back. */
  lemma {:induction false} WaitMeasure(s: System, steps: seq<Step>, t: nat)
    requires Inv(s) && Runs(s, steps) && t < |s.runtime.gate.futures|
    ensures var g, g' := s.runtime.gate, After(s, steps).runtime.gate;
            && t < |g'.futures|
            && (g'.Live(t) ==> g.Live(t))
            && (g'.Live(t) ==>
                  Rank(g', t) + Releases(s, steps) <=
                  Rank(g, t) + if g.futures[t].background then ForegroundArrivals(steps) else 0)
    decreases |steps|
  {
    if steps != [] {
      StepRank(s, steps[0], t);
      StepKeepsInv(s, steps[0]);
      WaitMeasure(Next(s, steps[0]), steps[1..], t);
    }
  }

  /** A foreground waiter with `k` live foreground waiters ahead is granted within `k + 1` releases,
      whatever else happens, unless its own call is cancelled. */
  lemma ForegroundGrantedWithin(s: System, steps: seq<Step>, i: nat)
    requires Reachable(s) && Runs(s, steps)
    requires i < |s.calls| && s.calls[i].Waiting? && !s.calls[i].cancelled
    requires s.calls[i].ticket < |s.runtime.gate.futures| && !s.runtime.gate.futures[s.calls[i].ticket].background
    requires Releases(s, steps) >= LiveBefore(s.runtime.gate.futures, false, s.calls[i].ticket) + 1
    requires CancelWaiter(i) !in steps
    ensures var t := s.calls[i].ticket;
            t < |After(s, steps).runtime.gate.futures| && After(s, steps).runtime.gate.futures[t].state == Resolved
  {
    ReachableInv(s);
    var t := s.calls[i].ticket;
    var owner :| InvOwned(s, owner);
    assert CallLinked(s.runtime.gate.futures, s.calls[i], i);
    WaitMeasure(s, steps, t);
    NotCancelled(s, steps, t);
  }

  lemma StepNotCancelled(s: System, step: Step, t: nat)
    requires Enabled(s, step) && s.runtime.gate.InRange() && FuturesStep(s, step) && t < |s.runtime.gate.futures|
    requires step.CancelWaiter? && step.call < |s.calls| ==>
            CallLinked(s.runtime.gate.futures, s.calls[step.call], step.call)
    requires s.runtime.gate.futures[t].state != Cancelled && CancelWaiter(s.runtime.gate.futures[t].caller) != step
    ensures var f, f' := s.runtime.gate.futures, Next(s, step).runtime.gate.futures;
            t < |f'| && f'[t].caller == f[t].caller && f'[t].state != Cancelled
  {
  }

  lemma {:induction false} NotCancelled(s: System, steps: seq<Step>, t: nat)
    requires Inv(s) && Runs(s, steps) && t < |s.runtime.gate.futures|
    requires s.runtime.gate.futures[t].state != Cancelled && CancelWaiter(s.runtime.gate.futures[t].caller) !in steps
    ensures t < |After(s, steps).runtime.gate.futures| && After(s, steps).runtime.gate.futures[t].state != Cancelled
    decreases |steps|
  {
    if steps != [] {
      StepKeepsInv(s, steps[0]);
      StepOnFutures(s, steps[0]);
      LinkedAt(s, steps[0]);
      StepNotCancelled(s, steps[0], t);
      NotCancelled(Next(s, steps[0]), steps[1..], t);
    }
  }

  lemma LinkedAt(s: System, step: Step)
    requires Inv(s)
    ensures !step.Enter? && step.call < |s.calls| ==> CallLinked(s.runtime.gate.futures, s.calls[step.call], step.call)
  {
    var owner :| InvOwned(s, owner);
  }

  /** Priority and FIFO over every run: a step that grants waiter `t` is a release, and leaves no live
      waiter that `t` had to let pass, so a background waiter is granted only when no live foreground
      waiter exists.  Grants within a class therefore follow the order of arrival. */
  lemma GrantsInOrder(s: System, step: Step, t: nat)
    requires Reachable(s) && Enabled(s, step) && s.runtime.gate.Live(t)
    requires t < |Next(s, step).runtime.gate.futures| && Next(s, step).runtime.gate.futures[t].state == Resolved
    ensures IsRelease(s, step)
    ensures forall u: nat | s.runtime.gate.Live(u) && u != t ::
              (s.runtime.gate.futures[t].background ==> s.runtime.gate.futures[u].background)
                  && !s.runtime.gate.Precedes(u, t)
    ensures forall u: nat, v: nat | u < v < |s.runtime.gate.futures| && s.runtime.gate.futures[v].state == Resolved &&
                    s.runtime.gate.futures[u].background == s.runtime.gate.futures[v].background ::
                        !s.runtime.gate.Live(u)
  {
    ReachableInv(s);
    var owner :| InvOwned(s, owner);
    StepOnFutures(s, step);
    NextOwnerIsFirstInLine(s.runtime.gate);
  }

  // ----- progress -----

  ghost predicate OwnStep(step: Step, i: nat) {
    !step.Enter? && !step.CancelWaiter? && !step.Interrupt? && step.call == i
  }

  /** How far owner `i` is from its release. */
  ghost function ToRelease(c: Call): nat {
    match c
    case Waiting(_, _) => 5
    case Inside(NotStarted) => 4
    case Inside(InModel) => 3
    case Inside(Finished(_)) => 2
    case Abandoned(NotStarted, _) => 4
    case Abandoned(InModel, _) => 3
    case Abandoned(Finished(_), _) => 1
    case Done(_) => 0
  }

  /** The owner's next step: it releases the gate, or leaves it alone and comes nearer to its release. */
  lemma OwnerStep(s: System, i: nat) returns (step: Step)
    requires Inv(s) && Owns(s.runtime.gate.futures, s.calls, i)
    ensures OwnStep(step, i) && Enabled(s, step)
    ensures var t := Next(s, step);
            || t.runtime.gate == Released(s.runtime.gate)
            || (&& t.runtime.gate == s.runtime.gate && Owns(t.runtime.gate.futures, t.calls, i)
                && ToRelease(t.calls[i]) < ToRelease(s.calls[i]))
  {
    InvGateOk(s);
    match s.calls[i] {
      case Waiting(_, _) => step := Resume(i);
      case Inside(NotStarted) => step := StartThread(i);
      case Inside(InModel) => step := ThreadDone(i, Completed);
      case Inside(Finished(_)) => step := Finish(i);
      case Abandoned(NotStarted, _) => step := StartThread(i);
      case Abandoned(InModel, _) => step := ThreadDone(i, Completed);
      case Abandoned(Finished(_), _) => step := Callback(i);
    }
  }

  /** Left to itself, the owner of the gate gets to a release. */
  lemma {:induction false} OwnerReleases(s: System, i: nat) returns (steps: seq<Step>)
    requires Inv(s) && Owns(s.runtime.gate.futures, s.calls, i)
    ensures Runs(s, steps) && forall k | 0 <= k < |steps| :: OwnStep(steps[k], i)
    ensures s.runtime.gate.InRange() && After(s, steps).runtime.gate == Released(s.runtime.gate)
    ensures Inv(After(s, steps))
    decreases ToRelease(s.calls[i])
  {
    InvGateOk(s);
    var step := OwnerStep(s, i);
    StepKeepsInv(s, step);
    var t := Next(s, step);
    if t.runtime.gate == Released(s.runtime.gate) {
      steps := [step];
      RunsCons(s, step, []);
      assert [step] + [] == [step];
    } else {
      var rest := OwnerReleases(t, i);
      steps := [step] + rest;
      RunsCons(s, step, rest);
    }
  }

  /** From every reachable state with a live waiter, steps of the owner alone lead to a release that
      grants the gate to the waiter first in line. */
  lemma NextInLineCanBeGranted(s: System) returns (i: nat, steps: seq<Step>)
    requires Reachable(s) && exists t: nat :: s.runtime.gate.Live(t)
    ensures Owns(s.runtime.gate.futures, s.calls, i)
    ensures Runs(s, steps) && forall k | 0 <= k < |steps| :: OwnStep(steps[k], i)
    ensures s.runtime.gate.InRange() && NextOwner(s.runtime.gate).Some?
    ensures After(s, steps).runtime.gate.futures
            == SetState(s.runtime.gate.futures, NextOwner(s.runtime.gate).value, Resolved)
  {
    NoLostHandOff(s);
    ReachableInv(s);
    InvGateOk(s);
    i :| Owns(s.runtime.gate.futures, s.calls, i);
    steps := OwnerReleases(s, i);
    NextOwnerIsFirstInLine(s.runtime.gate);
    ReleasedEffect(s.runtime.gate);
  }

  /** No waiter is stuck: from every reachable state, each live waiter can still be granted the gate,
      by nothing but successive owners doing their steps. */
  lemma {:induction false} EveryWaiterCanBeGranted(s: System, t: nat) returns (steps: seq<Step>)
    requires Inv(s) && s.runtime.gate.Live(t)
    ensures Runs(s, steps) && forall k | 0 <= k < |steps| ::
            !steps[k].Enter? && !steps[k].CancelWaiter? && !steps[k].Interrupt?
    ensures t < |After(s, steps).runtime.gate.futures| && After(s, steps).runtime.gate.futures[t].state == Resolved
    decreases Rank(s.runtime.gate, t)
  {
    InvGateOk(s);
    var i := OwnerOf(s, t);
    steps := OwnerReleases(s, i);
    var s1 := After(s, steps);
    NextOwnerIsFirstInLine(s.runtime.gate);
    ReleasedEffect(s.runtime.gate);
    var o := NextOwner(s.runtime.gate).value;
    if o != t {
      GrantRank(s.runtime.gate, s1.runtime.gate, t, o);
      var rest := EveryWaiterCanBeGranted(s1, t);
      RunsJoin(s, steps, rest);
      steps := steps + rest;
    }
  }

  lemma OwnerOf(s: System, t: nat) returns (i: nat)
    requires Inv(s) && s.runtime.gate.Live(t)
    ensures Owns(s.runtime.gate.futures, s.calls, i)
  {
    var owner :| InvOwned(s, owner);
    assert s.runtime.gate.locked by {
      assert t in s.runtime.gate.Queue(s.runtime.gate.futures[t].background);
    }
    i := owner.value;
  }

  lemma {:induction false} RunsJoin(s: System, steps: seq<Step>, more: seq<Step>)
    requires Runs(s, steps) && Runs(After(s, steps), more)
    ensures Runs(s, steps + more) && After(s, steps + more) == After(After(s, steps), more)
    decreases |steps|
  {
    if steps == [] {
      assert steps + more == more;
    } else {
      assert (steps + more)[1..] == steps[1..] + more;
      RunsJoin(Next(s, steps[0]), steps[1..], more);
    }
  }

  // ----- the exit of a cancelled waiter -----

  /** Nothing live stands between waiter `t` and the head of the line. */
  ghost predicate NobodyAhead(g: GateState, t: nat)
    requires t < |g.futures|
  {
    forall u: nat | g.Live(u) && u != t :: !g.Precedes(u, t)
  }

  /** Some release of the run reached waiter `t` while nobody live was ahead of it. */
  ghost predicate Overrun(s: System, steps: seq<Step>, t: nat)
    requires Runs(s, steps)
    decreases |steps|
  {
    steps != [] &&
    ((IsRelease(s, steps[0]) && t < |s.runtime.gate.futures| && NobodyAhead(s.runtime.gate, t)) ||
     Overrun(Next(s, steps[0]), steps[1..], t))
  }

  ghost predicate InItsQueue(g: GateState, t: nat) {
    t < |g.futures| && t in g.Queue(g.futures[t].background)
  }

  lemma ReleaseOnQueue(g: GateState, g': GateState, t: nat)
    requires GateOk(g) && g' == Released(g) && t < |g.futures| && t < |g'.futures|
    requires g'.futures[t] == g.futures[t]
    ensures InItsQueue(g', t) <==> InItsQueue(g, t) && !NobodyAhead(g, t)
  {
    ReleasedQueues(g);
    if InItsQueue(g, t) {
      ReleaseDiscards(g, t);
    }
  }

  lemma StepOnQueue(s: System, step: Step, i: nat)
    requires GateOk(s.runtime.gate) && Enabled(s, step) && i < |s.calls| && s.calls[i].Waiting? && s.calls[i].cancelled
    requires s.calls[i].ticket < |s.runtime.gate.futures|
            && s.runtime.gate.futures[s.calls[i].ticket].state == Cancelled
    requires step != Resume(i) && FuturesStep(s, step)
    requires CallLinked(s.runtime.gate.futures, s.calls[i], i)
    requires !step.Enter? ==> CallLinked(s.runtime.gate.futures, s.calls[step.call], step.call)
    ensures i < |Next(s, step).calls| && Next(s, step).calls[i] == s.calls[i]
    ensures var g, g', t := s.runtime.gate, Next(s, step).runtime.gate, s.calls[i].ticket;
            && t < |g'.futures| && g'.futures[t] == g.futures[t]
            && (InItsQueue(g', t) <==> InItsQueue(g, t) && !(IsRelease(s, step) && NobodyAhead(g, t)))
  {
    var g, g', t := s.runtime.gate, Next(s, step).runtime.gate, s.calls[i].ticket;
    if IsRelease(s, step) {
      ReleaseOnFutures(s, step);
      NextOwnerIsFirstInLine(g);
      ReleaseOnQueue(g, g', t);
    } else if step.Resume? {
      RemovalKeepsOthers(g.foreground, s.calls[step.call].ticket);
      RemovalKeepsOthers(g.background, s.calls[step.call].ticket);
    } else if step.Enter? {
      var bg := g.futures[t].background;
      assert g'.Queue(bg) == g.Queue(bg) || g'.Queue(bg) == g.Queue(bg) + [|g.futures|];
    }
  }

  lemma InvGateOk(s: System)
    requires Inv(s)
    ensures GateOk(s.runtime.gate)
  {
    var owner :| InvOwned(s, owner);
  }

  lemma {:induction false} CancelledStaysQueued(s: System, steps: seq<Step>, i: nat)
    requires Inv(s) && Runs(s, steps) && i < |s.calls| && s.calls[i].Waiting? && s.calls[i].cancelled
    requires s.calls[i].ticket < |s.runtime.gate.futures|
            && s.runtime.gate.futures[s.calls[i].ticket].state == Cancelled
    requires Resume(i) !in steps
    ensures i < |After(s, steps).calls| && After(s, steps).calls[i] == s.calls[i]
    ensures var g, g', t := s.runtime.gate, After(s, steps).runtime.gate, s.calls[i].ticket;
            && t < |g'.futures| && g'.futures[t] == g.futures[t]
            && (InItsQueue(g', t) <==> InItsQueue(g, t) && !Overrun(s, steps, t))
    decreases |steps|
  {
    if steps != [] {
      StepKeepsInv(s, steps[0]);
      StepOnFutures(s, steps[0]);
      LinkedAt(s, steps[0]);
      LinkedAt(s, Resume(i));
      InvGateOk(s);
      StepOnQueue(s, steps[0], i);
      CancelledStaysQueued(Next(s, steps[0]), steps[1..], i);
    }
  }

  /** A waiter cancelled before its grant should leave with `CancelledError`.  It does exactly when
      no release overran it between the cancellation and the moment its task runs again; otherwise
      removing its future raises `ValueError`. */
  lemma CancelledWaiterExit(s: System, steps: seq<Step>, i: nat)
    requires Reachable(s) && Enabled(s, CancelWaiter(i)) && s.runtime.gate.Live(s.calls[i].ticket)
    requires Runs(Next(s, CancelWaiter(i)), steps) && Resume(i) !in steps
    ensures var end := After(Next(s, CancelWaiter(i)), steps);
            && Enabled(end, Resume(i))
            && Next(end, Resume(i)).calls[i] ==
               Done(if Overrun(Next(s, CancelWaiter(i)), steps, s.calls[i].ticket) then ValueError else CancelledError)
  {
    ReachableInv(s);
    var t := s.calls[i].ticket;
    var s1 := Next(s, CancelWaiter(i));
    assert InItsQueue(s.runtime.gate, t) by {
      var owner :| InvOwned(s, owner);
      assert GateOk(s.runtime.gate);
    }
    StepKeepsInv(s, CancelWaiter(i));
    RunKeepsInv(s1, steps);
    CancelledStaysQueued(s1, steps, i);
    var end := After(s1, steps);
    var owner :| InvOwned(end, owner);
  }

  /** The overrun happens: the holder finishes between the cancellation of the only waiter and its
      next step, and the waiter's `acquire` raises `ValueError`. */
  lemma ValueErrorRun()
    ensures var run := [Enter(false), Enter(false), StartThread(0), ThreadDone(0, Completed), CancelWaiter(1),
            Finish(0), Resume(1)];
            Runs(INITIAL, run) && |After(INITIAL, run).calls| == 2 && After(INITIAL, run).calls[1] == Done(ValueError)
  {
    var s1 := Next(INITIAL, Enter(false));
    var s2 := Next(s1, Enter(false));
    assert s2.runtime.gate == GateState(true, [0], [], [Future(1, false, Pending)]);
    assert s2.calls == [Inside(NotStarted), Waiting(0, false)];
    var rest := [StartThread(0), ThreadDone(0, Completed), CancelWaiter(1), Finish(0), Resume(1)];
    HolderOverrun(s2);
    RunsCons(s1, Enter(false), rest);
    RunsCons(INITIAL, Enter(false), [Enter(false)] + rest);
    assert [Enter(false), Enter(false), StartThread(0), ThreadDone(0, Completed), CancelWaiter(1), Finish(0), Resume(1)]
        == [Enter(false)] + ([Enter(false)] + rest);
  }

  lemma HolderOverrun(s: System)
    requires s.runtime == RuntimeState(GateState(true, [0], [], [Future(1, false, Pending)]), true, None)
    requires s.calls == [Inside(NotStarted), Waiting(0, false)]
    ensures var run := [StartThread(0), ThreadDone(0, Completed), CancelWaiter(1), Finish(0), Resume(1)];
            Runs(s, run) && |After(s, run).calls| == 2 && After(s, run).calls[1] == Done(ValueError)
  {
    var s1 := Next(s, StartThread(0));
    var s2 := Next(s1, ThreadDone(0, Completed));
    assert s2.calls == [Inside(Finished(Completed)), Waiting(0, false)];
    var rest := [CancelWaiter(1), Finish(0), Resume(1)];
    WaiterOverrun(s2);
    RunsCons(s1, ThreadDone(0, Completed), rest);
    RunsCons(s, StartThread(0), [ThreadDone(0, Completed)] + rest);
    assert [StartThread(0), ThreadDone(0, Completed), CancelWaiter(1), Finish(0), Resume(1)]
        == [StartThread(0)] + ([ThreadDone(0, Completed)] + rest);
  }

  lemma WaiterOverrun(s: System)
    requires s.runtime == RuntimeState(GateState(true, [0], [], [Future(1, false, Pending)]), true, None)
    requires s.calls == [Inside(Finished(Completed)), Waiting(0, false)]
    ensures var run := [CancelWaiter(1), Finish(0), Resume(1)];
            Runs(s, run) && |After(s, run).calls| == 2 && After(s, run).calls[1] == Done(ValueError)
  {
    var s1 := Next(s, CancelWaiter(1));
    assert s1.runtime.gate == GateState(true, [0], [], [Future(1, false, Cancelled)]);
    assert [0][1..] == [] && FirstLive([0], s1.runtime.gate.futures) == 1;
    var s2 := Next(s1, Finish(0));
    assert s2.runtime.gate == GateState(false, [], [], [Future(1, false, Cancelled)]);
    RunsCons(s2, Resume(1), []);
    RunsCons(s1, Finish(0), [Resume(1)]);
    RunsCons(s, CancelWaiter(1), [Finish(0), Resume(1)]);
    assert [CancelWaiter(1), Finish(0), Resume(1)] == [CancelWaiter(1)] + [Finish(0), Resume(1)];
    assert [Finish(0), Resume(1)] == [Finish(0)] + [Resume(1)];
  }

  lemma RunsCons(s: System, step: Step, rest: seq<Step>)
    requires Enabled(s, step) && Runs(Next(s, step), rest)
    ensures Runs(s, [step] + rest) && After(s, [step] + rest) == After(Next(s, step), rest)
  {
    assert ([step] + rest)[1..] == rest;
  }
}
