/** What the steps of a run alone say about the runtime's health, about what each caller was told, and
    about the priority class each waiter queues in. */
module GenerationOutcomes {
  import opened Basics
  import opened Gate
  import opened Generation
  import opened GenerationTheorems

  // ----- the steps' own account -----

  /** How the thread of call `i` ended. */
  function ThreadEnding(steps: seq<Step>, i: nat): Option<Outcome> {
    if steps == [] then None
    else
      var last := steps[|steps| - 1];
      if last.ThreadDone? && last.call == i then Some(last.outcome) else ThreadEnding(steps[..|steps| - 1], i)
  }

  /** The error the runtime was last found broken with, if no completion observed since cleared it: a caller
      that sees its thread complete or crash decides, and so does an abandoned thread that crashed. */
  function Verdict(steps: seq<Step>): Option<string> {
    if steps == [] then None
    else
      var last, front := steps[|steps| - 1], steps[..|steps| - 1];
      match last
      case Finish(i) =>
        (match ThreadEnding(front, i)
         case Some(Completed) => None
         case Some(Raised(error)) => Some(error)
         case _ => Verdict(front))
      case Callback(i) =>
        (match ThreadEnding(front, i)
         case Some(Raised(error)) => Some(error)
         case Some(RaisedTimeout(error)) => Some(error)
         case _ => Verdict(front))
      case _ => Verdict(front)
  }

  /** What the caller of call `i` was told when it stopped awaiting its thread. */
  function Told(steps: seq<Step>, i: nat): Option<Exit> {
    if steps == [] then None
    else
      var last, front := steps[|steps| - 1], steps[..|steps| - 1];
      if last == Finish(i) then
        match ThreadEnding(front, i)
        case Some(Completed) => Some(Returned)
        case Some(Raised(_)) => Some(ModelError)
        case _ => Some(TimeoutError)
      else if last == Interrupt(i, true) then Some(TimeoutError)
      else if last == Interrupt(i, false) then Some(CancelledError)
      else Told(front, i)
  }

  function Entries(steps: seq<Step>): nat {
    if steps == [] then 0
    else Entries(steps[..|steps| - 1]) + if steps[|steps| - 1].Enter? then 1 else 0
  }

  /** The `i`-th call to enter did so as `background`. */
  predicate EnteredAs(steps: seq<Step>, i: nat, background: bool) {
    exists k :: 0 <= k < |steps| && steps[k] == Enter(background) && Entries(steps[..k]) == i
  }

  // ----- runs, from the end -----

  lemma {:induction false} RunsFront(s: System, steps: seq<Step>)
    requires Runs(s, steps) && steps != []
    ensures var front, last := steps[..|steps| - 1], steps[|steps| - 1];
            Runs(s, front) && Enabled(After(s, front), last) && After(s, steps) == Next(After(s, front), last)
    decreases |steps|
  {
    if |steps| > 1 {
      var front := steps[..|steps| - 1];
      RunsFront(Next(s, steps[0]), steps[1..]);
      assert steps[1..][..|steps[1..]| - 1] == front[1..];
    }
  }

  // ----- health -----

  ghost predicate ThreadsTold(s: System, steps: seq<Step>) {
    forall i | 0 <= i < |s.calls| && (s.calls[i].Inside? || s.calls[i].Abandoned?) && s.calls[i].work.Finished? ::
      ThreadEnding(steps, i) == Some(s.calls[i].work.outcome)
  }

  lemma ThreadsToldNext(s: System, front: seq<Step>, last: Step)
    requires ThreadsTold(s, front) && Enabled(s, last)
    ensures ThreadsTold(Next(s, last), front + [last])
  {
    var steps := front + [last];
    assert steps[..|steps| - 1] == front;
    forall i | 0 <= i < |Next(s, last).calls| && (Next(s, last).calls[i].Inside? || Next(s, last).calls[i].Abandoned?)
        && Next(s, last).calls[i].work.Finished?
      ensures ThreadEnding(steps, i) == Some(Next(s, last).calls[i].work.outcome)
    {
    }
  }

  ghost predicate HealthTold(r: RuntimeState, steps: seq<Step>) {
    r.lastError == Verdict(steps) && (r.healthy <==> Verdict(steps) == None)
  }

  lemma HealthToldNext(s: System, front: seq<Step>, last: Step)
    requires ThreadsTold(s, front) && HealthTold(s.runtime, front) && Enabled(s, last)
    ensures HealthTold(Next(s, last).runtime, front + [last])
  {
    assert (front + [last])[..|front|] == front;
  }

  /** Over every run, the runtime's last error is the steps' verdict, and it is healthy exactly when there
      is none. */
  lemma {:induction false} HealthFollowsVerdicts(steps: seq<Step>)
    requires Runs(INITIAL, steps)
    ensures After(INITIAL, steps).runtime.lastError == Verdict(steps)
    ensures After(INITIAL, steps).runtime.healthy <==> Verdict(steps) == None
    ensures ThreadsTold(After(INITIAL, steps), steps)
    decreases |steps|
  {
    if steps != [] {
      var front, last := steps[..|steps| - 1], steps[|steps| - 1];
      RunsFront(INITIAL, steps);
      HealthFollowsVerdicts(front);
      ThreadsToldNext(After(INITIAL, front), front, last);
      HealthToldNext(After(INITIAL, front), front, last);
      assert front + [last] == steps;
    }
  }

  // ----- what callers are told -----

  /** A caller that stopped awaiting its thread was told what the steps say.  One that never got to its
      thread was cancelled in the queue, and was told so or, on an overrun future, got `ValueError`. */
  ghost predicate CallerTold(c: Call, steps: seq<Step>, i: nat) {
    match c
    case Waiting(_, cancelled) => Told(steps, i) == None && (cancelled <==> CancelWaiter(i) in steps)
    case Inside(_) => Told(steps, i) == None
    case Abandoned(_, exit) => Told(steps, i) == Some(exit)
    case Done(exit) =>
      || Told(steps, i) == Some(exit)
      || (Told(steps, i) == None && CancelWaiter(i) in steps && exit in {CancelledError, ValueError})
  }

  ghost predicate CallersTold(s: System, steps: seq<Step>) {
    && (forall i | 0 <= i < |s.calls| :: CallerTold(s.calls[i], steps, i))
    && (forall i: nat | i >= |s.calls| :: Told(steps, i) == None && CancelWaiter(i) !in steps)
  }

  lemma CallersToldNext(s: System, front: seq<Step>, last: Step)
    requires ThreadsTold(s, front) && CallersTold(s, front) && Enabled(s, last)
    ensures CallersTold(Next(s, last), front + [last])
  {
    var steps, t := front + [last], Next(s, last);
    assert steps[..|steps| - 1] == front;
    forall i | 0 <= i < |t.calls| ensures CallerTold(t.calls[i], steps, i) {
      if i < |s.calls| { assert CallerTold(s.calls[i], front, i); }
    }
  }

  lemma {:induction false} CallersAreTold(steps: seq<Step>)
    requires Runs(INITIAL, steps)
    ensures CallersTold(After(INITIAL, steps), steps)
    decreases |steps|
  {
    if steps != [] {
      var front, last := steps[..|steps| - 1], steps[|steps| - 1];
      RunsFront(INITIAL, steps);
      CallersAreTold(front);
      HealthFollowsVerdicts(front);
      CallersToldNext(After(INITIAL, front), front, last);
      assert front + [last] == steps;
    }
  }

  /** A cancelled waiter the gate was already handed to leaves with `CancelledError` and passes it on. */
  lemma GrantedThenCancelled(s: System, i: nat)
    requires Reachable(s) && Enabled(s, Resume(i)) && s.calls[i].cancelled
    requires s.runtime.gate.futures[s.calls[i].ticket].state == Resolved
    ensures Next(s, Resume(i)).calls[i] == Done(CancelledError)
    ensures Next(s, Resume(i)).log[|s.log|..] != [] && Next(s, Resume(i)).log[|s.log|] == Freed(i)
    ensures Next(s, Resume(i)).runtime.gate == Released(s.runtime.gate)
  {
  }

  // ----- priority classes -----

  ghost predicate ClassesTold(s: System, steps: seq<Step>) {
    && |s.calls| == Entries(steps)
    && forall t | 0 <= t < |s.runtime.gate.futures| ::
         EnteredAs(steps, s.runtime.gate.futures[t].caller, s.runtime.gate.futures[t].background)
  }

  lemma EnteredAsNext(front: seq<Step>, last: Step, i: nat, background: bool)
    ensures EnteredAs(front, i, background) ==> EnteredAs(front + [last], i, background)
    ensures last == Enter(background) ==> EnteredAs(front + [last], Entries(front), background)
  {
    var steps := front + [last];
    if EnteredAs(front, i, background) {
      var k :| 0 <= k < |front| && front[k] == Enter(background) && Entries(front[..k]) == i;
      assert steps[k] == front[k] && steps[..k] == front[..k];
    }
    assert steps[|front|] == last && steps[..|front|] == front;
  }

  lemma ClassesToldNext(s: System, front: seq<Step>, last: Step)
    requires Inv(s) && ClassesTold(s, front) && Enabled(s, last)
    ensures ClassesTold(Next(s, last), front + [last])
  {
    var steps, f, f' := front + [last], s.runtime.gate.futures, Next(s, last).runtime.gate.futures;
    assert steps[..|steps| - 1] == front;
    StepOnFutures(s, last);
    forall t | 0 <= t < |f'|
      ensures EnteredAs(steps, f'[t].caller, f'[t].background)
    {
      if t < |f| { assert f'[t].caller == f[t].caller && f'[t].background == f[t].background; }
      EnteredAsNext(front, last, f'[t].caller, f'[t].background);
    }
  }

  lemma {:induction false} ClassesAreTold(steps: seq<Step>)
    requires Runs(INITIAL, steps)
    ensures ClassesTold(After(INITIAL, steps), steps)
    decreases |steps|
  {
    if steps != [] {
      var front, last := steps[..|steps| - 1], steps[|steps| - 1];
      RunsFront(INITIAL, steps);
      ClassesAreTold(front);
      InitialInv();
      RunKeepsInv(INITIAL, front);
      ClassesToldNext(After(INITIAL, front), front, last);
      assert front + [last] == steps;
    }
  }

  /** Over every run, a waiting call queues in the class it entered with. */
  lemma WaitersKeepTheirClass(steps: seq<Step>, i: nat)
    requires Runs(INITIAL, steps) && i < |After(INITIAL, steps).calls| && After(INITIAL, steps).calls[i].Waiting?
    ensures var s := After(INITIAL, steps); var t := s.calls[i].ticket;
            && t < |s.runtime.gate.futures| && EnteredAs(steps, i, s.runtime.gate.futures[t].background)
            && t !in s.runtime.gate.Queue(!s.runtime.gate.futures[t].background)
  {
    var s := After(INITIAL, steps);
    ClassesAreTold(steps);
    InitialInv();
    RunKeepsInv(INITIAL, steps);
    var owner :| InvOwned(s, owner);
    assert CallLinked(s.runtime.gate.futures, s.calls[i], i);
    QueuesApart(s.runtime.gate, s.calls[i].ticket);
  }
}
