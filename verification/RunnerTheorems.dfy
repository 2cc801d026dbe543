/** What the agent runner guarantees in every reachable state and over every run. */
module RunnerTheorems {
  import opened Basics
  import opened Store
  import opened StoreInvariants
  import opened AgentTrail
  import opened AgentRunner
  import opened RunnerProtocol
  import opened RunnerTrails

  function CallsOf(t: Task): nat {
    match t
    case Assigned(_) => 0
    case Working(_, calls) => calls
    case Unwinding(calls) => calls
    case Ended(_, calls) => calls
  }

  lemma LifecycleOf(s: System, id: Id)
    requires Inv(s) && id in s.specs
    ensures id in s.last && (id in s.service.mirror.store.agents ==> s.service.mirror.store.agents[id] == s.last[id])
    ensures id !in s.service.mirror.store.agents ==> s.last[id].state.Terminal()
    ensures var trail := TrailOf(s.service.mirror.trails, id);
            && StageOf(trail) == StageFor(s.last[id].state)
            && TerminalEvents(trail) == (if s.last[id].state.Terminal() then 1 else 0)
            && (s.last[id].state.Terminal() ==>
                 trail != [] && trail[|trail| - 1].eventType == TerminalType(s.last[id].state))
    ensures s.maxSteps > 0 && id in s.tasks ==> CallsOf(s.tasks[id]) <= s.maxSteps
  {
    assert AgentOkIn(s, id);
    AtMostOneTerminal(TrailOf(s.service.mirror.trails, id));
  }

  /** The lifecycle events of every agent form a legal trail whose stage is the agent's live state:
      at most one terminal event, present exactly when the store settled the agent.  With a positive
      limit no agent makes more model calls than that. */
  lemma LifecycleLanguage(s: System, id: Id)
    requires Reachable(s) && id in s.specs
    ensures id in s.last && (id in s.service.mirror.store.agents ==> s.service.mirror.store.agents[id] == s.last[id])
    ensures id !in s.service.mirror.store.agents ==> s.last[id].state.Terminal()
    ensures var trail := TrailOf(s.service.mirror.trails, id);
            && StageOf(trail) == StageFor(s.last[id].state)
            && TerminalEvents(trail) == (if s.last[id].state.Terminal() then 1 else 0)
            && (s.last[id].state.Terminal() ==>
                 trail != [] && trail[|trail| - 1].eventType == TerminalType(s.last[id].state))
    ensures s.maxSteps > 0 && id in s.tasks ==> CallsOf(s.tasks[id]) <= s.maxSteps
  {
    ReachableInv(s);
    LifecycleOf(s, id);
  }

  /** Folding an agent's complete audit trail yields the task it was spawned with and its last live
      snapshot: on six fields always, on the error exactly unless the wall clock cancelled it, on the
      fraction exactly when it completed or its last reported fraction lies in the unit interval. */
  lemma ReconstructionAgrees(s: System, id: Id)
    requires Reachable(s) && id in s.specs
    ensures id in s.last
    ensures var trail := TrailOf(s.service.mirror.trails, id); var d := Reconstructed(trail); var a := s.last[id];
            && d.kind == a.kind && d.sessionId == a.sessionId && d.requestId == a.requestId && d.state == a.state
            && d.progressPhase == a.progressPhase && d.lastResult == a.lastResult
            && (d.error == a.error <==> !CancelledByWallClock(trail))
            && (d.progressFraction == a.progressFraction <==> a.state == Completed || InUnit(LastReported(trail)))
            && d.task == Some(s.specs[id].task) && d.kind == s.specs[id].kind
            && d.sessionId == s.specs[id].sessionId && d.requestId == s.specs[id].requestId
  {
    ReachableInv(s);
    assert AgentOkIn(s, id);
    TrailsBeginWithSpawn(s);
    BornIsRebuilt(TrailOf(s.service.mirror.trails, id), s.specs[id]);
    ReconstructionExact(TrailOf(s.service.mirror.trails, id), s.last[id]);
  }

  /** After `close` returned nothing is queued or running, spawns are refused, and the only agents
      not settled are those whose task was cancelled before its first step. */
  lemma ClosedState(s: System, spec: AgentSpec, clock: Clock)
    requires Reachable(s) && s.phase == Closed
    ensures s.service.queue == [] && s.service.running == {}
    ensures RunsHavePhases(s.service.mirror.store) && SpawnOutcome(s.service, spec, s.kinds, clock).1 == ShutDown
    ensures forall id | id in s.specs :: id in s.last &&
              (!s.last[id].state.Terminal() ==>
                  s.last[id].state == Pending && id in s.tasks && s.tasks[id].Ended? && !s.tasks[id].entered)
  {
    ReachableInv(s);
    forall id | id in s.specs
      ensures id in s.last && (!s.last[id].state.Terminal() ==>
              s.last[id].state == Pending && id in s.tasks && s.tasks[id].Ended? && !s.tasks[id].entered)
    {
      assert AgentOkIn(s, id);
    }
  }

  // ----- shutdown -----

  /** The agent a step is about, if any. */
  function About(s: System, step: Step): Option<Id> {
    match step
    case Spawn(spec, _) => Some(spec.agentId)
    case CancelAgent(id, _) => Some(id)
    case FirstStep(id, _) => Some(id)
    case Progress(id, _, _, _) => Some(id)
    case Custom(id, _) => Some(id)
    case ModelCall(id) => Some(id)
    case Finish(id, _, _) => Some(id)
    case SettleCancelled(id, _) => Some(id)
    case _ => None
  }

  lemma SettledFrame(s: System, id: Id, state: AgentState, result: Option<string>, error: Option<string>,
                     payload: Payload, clock: Clock)
    requires Inv(s) && id in s.specs && state.Terminal()
    ensures var last' := Noted(s.last,
            SettledAs(s.service.mirror, id, state, s.specs[id].requestId, result, error, payload, clock).1);
            && last'.Keys == s.last.Keys && last'[id].state.Terminal()
            && (s.last[id].state.Terminal() ==> last'[id] == s.last[id])
            && (forall other | other in s.last && other != id :: last'[other] == s.last[other])
  {
    assert AgentOkIn(s, id);
    SettledMirrorStep(s.service.mirror, s.last, id, state, s.specs[id].requestId, result, error, payload, clock);
  }

  ghost predicate OthersKept(before: map<Id, Agent>, after: map<Id, Agent>, id: Id) {
    && before.Keys <= after.Keys
    && (forall other | other in before && other != id :: after[other] == before[other])
    && (id in before && before[id].state != Pending ==> after[id].state != Pending)
  }

  lemma CancelFrame(s: System, id: Id, clock: Clock)
    requires Inv(s) && Enabled(s, CancelAgent(id, clock))
    ensures OthersKept(s.last, Next(s, CancelAgent(id, clock)).last, id)
  {
    if id in s.service.mirror.store.agents && id !in s.service.running
        && s.service.mirror.store.agents[id].state == Pending {
      assert AgentOkIn(s, id);
      SettledFrame(s, id, Cancelled, None, None, ReasonPayload("cancelled while pending"), clock);
    }
  }

  /** An update of one agent, seen from the last snapshots. */
  lemma UpdateFrame(s: System, id: Id, u: AgentUpdate, clock: Clock)
    requires Inv(s) && id in s.specs && u.state != Some(Pending)
    ensures RunsHavePhases(s.service.mirror.store)
    ensures OthersKept(s.last, Noted(s.last, Apply(s.service.mirror.store, UpdateAgent(id, u), clock).1), id)
  {
    assert AgentOkIn(s, id);
    UpdateOnLast(s.service.mirror.store, s.last, id, u, clock);
  }

  lemma FirstStepFrame(s: System, id: Id, clock: Clock)
    requires Inv(s) && Enabled(s, FirstStep(id, clock))
    ensures OthersKept(s.last, Next(s, FirstStep(id, clock)).last, id)
    ensures s.tasks[id].cancelRequested ==> Next(s, FirstStep(id, clock)).last == s.last
  {
    UpdateFrame(s, id, STATE_ONLY.(state := Some(Running)), clock);
    SpecIds(s, id);
  }

  lemma SpecIds(s: System, id: Id)
    requires Inv(s) && id in s.specs
    ensures s.specs[id].agentId == id
  {
  }

  lemma ProgressFrame(s: System, id: Id, phase: string, fraction: Option<real>, clock: Clock)
    requires Inv(s) && Enabled(s, Progress(id, phase, fraction, clock))
    ensures OthersKept(s.last, Next(s, Progress(id, phase, fraction, clock)).last, id)
  {
    UpdateFrame(s, id, STATE_ONLY.(progressPhase := Some(phase), progressFraction := fraction), clock);
    SpecIds(s, id);
  }

  /** Steps that concern no agent leave agents and tasks alone, once the service closes. */
  lemma QuietFrame(s: System, step: Step)
    requires Inv(s) && Enabled(s, step) && s.phase != Open && About(s, step) == None
    ensures Next(s, step).phase != Open && Next(s, step).specs == s.specs && Next(s, step).last == s.last
            && Next(s, step).tasks == s.tasks
  {
    assert PhaseOk(s);
  }

  lemma RefusedSpawn(s: System, spec: AgentSpec, clock: Clock)
    requires Inv(s) && Enabled(s, Spawn(spec, clock)) && s.phase != Open
    ensures Next(s, Spawn(spec, clock)) == s
  {
    assert PhaseOk(s);
  }

  lemma SamePhase(s: System, step: Step)
    requires Enabled(s, step) && About(s, step).Some? && !step.Spawn?
    ensures Next(s, step).phase == s.phase && Next(s, step).specs == s.specs
    ensures forall other | other != About(s, step).value :: TaskOf(Next(s, step).tasks, other) == TaskOf(s.tasks, other)
  {
  }

  lemma ClosingFrame(s: System, step: Step)
    requires Inv(s) && Enabled(s, step) && s.phase != Open
    ensures Next(s, step).phase != Open && Next(s, step).specs == s.specs
    ensures match About(s, step)
            case None => Next(s, step).last == s.last && Next(s, step).tasks == s.tasks
            case Some(x) => OthersKept(s.last, Next(s, step).last, x) && forall other | other != x ::
                TaskOf(Next(s, step).tasks, other) == TaskOf(s.tasks, other)
  {
    if About(s, step) == None {
      QuietFrame(s, step);
    } else if step.Spawn? {
      RefusedSpawn(s, step.spec, step.clock);
    } else {
      SamePhase(s, step);
      AgentFrame(s, step);
    }
  }

  lemma AgentFrame(s: System, step: Step)
    requires Inv(s) && Enabled(s, step) && About(s, step).Some? && !step.Spawn?
    ensures OthersKept(s.last, Next(s, step).last, About(s, step).value)
  {
    match step
    case CancelAgent(id, clock) => CancelFrame(s, id, clock);
    case FirstStep(id, clock) => FirstStepFrame(s, id, clock);
    case Progress(id, phase, fraction, clock) => ProgressFrame(s, id, phase, fraction, clock);
    case Finish(id, outcome, clock) => FinishFrame(s, id, outcome, clock);
    case SettleCancelled(id, clock) => FinishFrame(s, id, RaisedCancelled, clock);
    case _ =>
  }

  lemma FinishFrame(s: System, id: Id, outcome: Outcome, clock: Clock)
    requires Inv(s) && id in s.specs
    ensures RunsHavePhases(s.service.mirror.store)
    ensures OthersKept(s.last, Noted(s.last, Finished(s.service.mirror, s.specs[id], outcome, clock).1), id)
  {
    var (state, result, error, payload) := Verdict(outcome);
    assert s.specs[id].agentId == id;
    SettledFrame(s, id, state, result, error, payload, clock);
  }

  /** An agent shutdown will never settle: pending, its task cancelled before its first step. */
  ghost predicate Stuck(s: System, id: Id) {
    && id in s.specs && id in s.last && s.last[id].state == Pending && id in s.tasks
    && (s.tasks[id] == Assigned(true) || s.tasks[id].Ended?)
  }

  lemma StuckFirstStep(s: System, id: Id, clock: Clock)
    requires Enabled(s, FirstStep(id, clock)) && Stuck(s, id)
    ensures Stuck(Next(s, FirstStep(id, clock)), id)
  {
  }

  lemma StuckCancel(s: System, id: Id, clock: Clock)
    requires Inv(s) && Enabled(s, CancelAgent(id, clock)) && Stuck(s, id)
    ensures var t := Next(s, CancelAgent(id, clock));
            if id in s.service.running then Stuck(t, id) else id in t.last && t.last[id].state != Pending
  {
    assert AgentOkIn(s, id);
    if id !in s.service.running {
      SettledFrame(s, id, Cancelled, None, None, ReasonPayload("cancelled while pending"), clock);
    }
  }

  /** A cancel request for an agent no worker lists as running any more. */
  ghost predicate LateCancelNow(s: System, step: Step, id: Id) {
    step.CancelAgent? && step.id == id && id !in s.service.running
  }

  /** The only way out for a stuck agent is a late cancel request. */
  lemma StuckStep(s: System, step: Step, id: Id)
    requires Inv(s) && Enabled(s, step) && s.phase != Open && Stuck(s, id)
    ensures if LateCancelNow(s, step, id) then id in Next(s, step).last && Next(s, step).last[id].state != Pending
            else Stuck(Next(s, step), id)
  {
    ClosingFrame(s, step);
    if About(s, step) != Some(id) {
      assert TaskOf(Next(s, step).tasks, id) == TaskOf(s.tasks, id);
    } else if step.CancelAgent? {
      StuckCancel(s, id, step.clock);
    } else if step.FirstStep? {
      StuckFirstStep(s, id, step.clock);
    }
  }

  /** While the service closes, whatever happens: an agent no longer pending stays so, and one that is
      stuck stays stuck until a late cancel request. */
  lemma ClosingStep(s: System, step: Step, id: Id)
    requires Inv(s) && Enabled(s, step) && s.phase != Open && id in s.specs && id in s.last
    ensures var t := Next(s, step);
            && t.phase != Open && t.specs == s.specs && id in t.last
            && (s.last[id].state != Pending ==> t.last[id].state != Pending)
            && (Stuck(s, id) ==> if LateCancelNow(s, step, id) then t.last[id].state != Pending else Stuck(t, id))
  {
    ClosingFrame(s, step);
    if Stuck(s, id) { StuckStep(s, step, id); }
  }

  /** Some step of the run is a late cancel request for the agent. */
  ghost predicate LateCancel(s: System, steps: seq<Step>, id: Id)
    requires Runs(s, steps)
    decreases |steps|
  {
    steps != [] && (LateCancelNow(s, steps[0], id) || LateCancel(Next(s, steps[0]), steps[1..], id))
  }

  lemma {:induction false} ClosingRun(s: System, steps: seq<Step>, id: Id)
    requires Inv(s) && Runs(s, steps) && s.phase != Open && id in s.specs && id in s.last
    ensures After(s, steps).specs == s.specs && id in After(s, steps).last
    ensures s.last[id].state != Pending ==> After(s, steps).last[id].state != Pending
    ensures Stuck(s, id) ==> (After(s, steps).last[id].state != Pending <==> LateCancel(s, steps, id))
    decreases |steps|
  {
    if steps != [] {
      StepKeepsInv(s, steps[0]);
      ClosingStep(s, steps[0], id);
      ClosingRun(Next(s, steps[0]), steps[1..], id);
    }
  }

  lemma BeginCloseIs(s: System, clock: Clock)
    requires Inv(s) && Enabled(s, BeginClose(clock))
    ensures var t := Next(s, BeginClose(clock));
            && t.phase != Open && t.specs == s.specs && t.tasks == RequestCancel(s.tasks, s.service.running)
            && SettledOnly(s.last, t.last, QueuedIds(s.service.queue))
  {
    QueueDrainable(s);
    DrainKeepsInv(s, s.service.queue, clock);
  }

  /** A pending agent no longer queued belongs to a task that has not entered its body. */
  lemma PendingIsAssigned(s: System, id: Id)
    requires Inv(s) && id in s.specs
    ensures id in s.last
    ensures s.last[id].state == Pending && !Queued(s.service.queue, id) ==>
              id in s.tasks && (s.tasks[id].Ended? || (s.tasks[id].Assigned? && id in s.service.running))
    ensures Queued(s.service.queue, id) ==> s.last[id].state != Running
  {
    assert AgentOkIn(s, id);
  }

  lemma BeginCloseSplits(s: System, clock: Clock, id: Id)
    requires Inv(s) && Enabled(s, BeginClose(clock)) && id in s.specs
    ensures id in s.last
    ensures Next(s, BeginClose(clock)).phase != Open && Next(s, BeginClose(clock)).specs == s.specs
            && id in Next(s, BeginClose(clock)).last
    ensures s.last[id].state == Pending && !Queued(s.service.queue, id) ==> Stuck(Next(s, BeginClose(clock)), id)
    ensures s.last[id].state != Pending || Queued(s.service.queue, id) ==>
            Next(s, BeginClose(clock)).last[id].state != Pending
  {
    BeginCloseIs(s, clock);
    PendingIsAssigned(s, id);
  }

  /** A worker took the agent, but its task has not run yet. */
  ghost predicate Taken(s: System, id: Id)
    requires id in s.last
  {
    s.last[id].state == Pending && !Queued(s.service.queue, id)
  }

  /** At the end every agent is settled but those taken at the start and not cancelled late. */
  ghost predicate Fate(s: System, end: System, id: Id, late: bool) {
    id in s.last && id in end.last && (end.last[id].state.Terminal() <==> Taken(s, id) ==> late)
  }

  /** One agent over the whole shutdown. */
  lemma ShutdownOne(s: System, clock: Clock, steps: seq<Step>, id: Id)
    requires Inv(s) && Enabled(s, BeginClose(clock)) && Runs(Next(s, BeginClose(clock)), steps) && id in s.specs
    requires After(Next(s, BeginClose(clock)), steps).phase == Closed
    ensures var s1 := Next(s, BeginClose(clock));
            After(s1, steps).specs == s.specs && Fate(s, After(s1, steps), id, LateCancel(s1, steps, id))
  {
    var s1 := Next(s, BeginClose(clock));
    StepKeepsInv(s, BeginClose(clock));
    RunKeepsInv(s1, steps);
    BeginCloseSplits(s, clock, id);
    ClosingRun(s1, steps, id);
    EndState(After(s1, steps), id);
  }

  lemma ShutdownSpecs(s: System, clock: Clock, steps: seq<Step>)
    requires Inv(s) && Enabled(s, BeginClose(clock)) && Runs(Next(s, BeginClose(clock)), steps)
    ensures After(Next(s, BeginClose(clock)), steps).specs == s.specs
  {
    StepKeepsInv(s, BeginClose(clock));
    BeginCloseIs(s, clock);
    SpecsKept(Next(s, BeginClose(clock)), steps);
  }

  ghost predicate AllSettled(s: System) {
    forall id | id in s.specs :: id in s.last && s.last[id].state.Terminal()
  }

  /** Over every shutdown that ends: all agents are settled if and only if each one a worker had taken but
      not run when `close` was called gets a cancel request after its worker let go of it. */
  lemma ShutdownSettlesExactly(s: System, clock: Clock, steps: seq<Step>)
    requires Reachable(s) && Enabled(s, BeginClose(clock)) && Runs(Next(s, BeginClose(clock)), steps)
    requires After(Next(s, BeginClose(clock)), steps).phase == Closed
    ensures s.specs.Keys <= s.last.Keys
    ensures AllSettled(After(Next(s, BeginClose(clock)), steps)) <==>
              forall id | id in s.specs && Taken(s, id) :: LateCancel(Next(s, BeginClose(clock)), steps, id)
  {
    ReachableInv(s);
    var s1 := Next(s, BeginClose(clock));
    ShutdownSpecs(s, clock, steps);
    forall id | id in s.specs
      ensures Fate(s, After(s1, steps), id, LateCancel(s1, steps, id))
    {
      ShutdownOne(s, clock, steps, id);
    }
  }

  /** Every pending agent is still in the queue when `close` is called. */
  ghost predicate PendingAreQueued(s: System)
    requires s.specs.Keys <= s.last.Keys
  {
    forall id | id in s.specs :: !Taken(s, id)
  }

  /** So shutdown settles every agent if every pending one is still queued, whatever else happens
      meanwhile; and without cancel requests only then. */
  lemma ShutdownSettlesQueued(s: System, clock: Clock, steps: seq<Step>)
    requires Reachable(s) && Enabled(s, BeginClose(clock)) && Runs(Next(s, BeginClose(clock)), steps)
    requires After(Next(s, BeginClose(clock)), steps).phase == Closed
    ensures s.specs.Keys <= s.last.Keys
    ensures PendingAreQueued(s) ==> AllSettled(After(Next(s, BeginClose(clock)), steps))
    ensures NoCancels(steps) && AllSettled(After(Next(s, BeginClose(clock)), steps)) ==> PendingAreQueued(s)
  {
    ShutdownSettlesExactly(s, clock, steps);
    if NoCancels(steps) {
      forall id ensures !LateCancel(Next(s, BeginClose(clock)), steps, id) {
        NoneLate(Next(s, BeginClose(clock)), steps, id);
      }
    }
  }

  ghost predicate NoCancels(steps: seq<Step>) {
    forall k | 0 <= k < |steps| :: !steps[k].CancelAgent?
  }

  lemma {:induction false} NoneLate(s: System, steps: seq<Step>, id: Id)
    requires Runs(s, steps) && NoCancels(steps)
    ensures !LateCancel(s, steps, id)
    decreases |steps|
  {
    if steps != [] { NoneLate(Next(s, steps[0]), steps[1..], id); }
  }

  lemma EndState(s: System, id: Id)
    requires Inv(s) && s.phase == Closed && id in s.specs
    ensures id in s.last && (s.last[id].state.Terminal() <==> s.last[id].state != Pending)
  {
    assert AgentOkIn(s, id);
  }

  lemma {:induction false} SpecsKept(s: System, steps: seq<Step>)
    requires Inv(s) && Runs(s, steps) && s.phase != Open
    ensures After(s, steps).specs == s.specs
    decreases |steps|
  {
    if steps != [] {
      StepKeepsInv(s, steps[0]);
      SpecsKept(Next(s, steps[0]), steps[1..]);
    }
  }

  lemma {:induction false} RunsSnoc(s: System, steps: seq<Step>, step: Step)
    requires Runs(s, steps) && Enabled(After(s, steps), step)
    ensures Runs(s, steps + [step]) && After(s, steps + [step]) == Next(After(s, steps), step)
    decreases |steps|
  {
    if steps == [] {
      assert [step][1..] == [] && steps + [step] == [step];
    } else {
      assert (steps + [step])[1..] == steps[1..] + [step];
      RunsSnoc(Next(s, steps[0]), steps[1..], step);
    }
  }

  lemma ReachableNext(s: System, step: Step)
    requires Reachable(s) && Enabled(s, step)
    ensures Reachable(Next(s, step))
  {
    var maxRuns: int, maxAgents: int, workers: nat, kinds: set<string>, maxSteps: nat, steps :|
      Runs(Initial(EmptyStore(maxRuns, maxAgents), workers, kinds, maxSteps), steps) &&
      After(Initial(EmptyStore(maxRuns, maxAgents), workers, kinds, maxSteps), steps) == s;
    RunsSnoc(Initial(EmptyStore(maxRuns, maxAgents), workers, kinds, maxSteps), steps, step);
  }

  lemma ReachableInitial(maxRuns: int, maxAgents: int, workers: nat, kinds: set<string>, maxSteps: nat)
    ensures Reachable(Initial(EmptyStore(maxRuns, maxAgents), workers, kinds, maxSteps))
  {
    var s := Initial(EmptyStore(maxRuns, maxAgents), workers, kinds, maxSteps);
    assert Runs(s, []) && After(s, []) == s;
  }

  // ----- shutdown comes to its end -----

  predicate TaskStep(step: Step) {
    step.FirstStep? || step.Finish? || step.SettleCancelled?
  }

  /** `t` is `s` but for the agent `id`, whose task has moved. */
  ghost predicate OnlyTask(s: System, t: System, id: Id) {
    && t.phase == s.phase && t.specs == s.specs && t.service.running == s.service.running
         && t.tasks.Keys == s.tasks.Keys
    && forall other | other in s.tasks && other != id :: t.tasks[other] == s.tasks[other]
  }

  ghost predicate TaskMoved(s: System, t: System, id: Id) {
    && OnlyTask(s, t, id) && id in s.tasks
    && (t.tasks[id].Ended? || (s.tasks[id].Assigned? && t.tasks[id].Working?))
  }

  lemma AssignedMoves(s: System, id: Id, clock: Clock)
    requires RunsHavePhases(s.service.mirror.store) && id in s.tasks && s.tasks[id].Assigned? && id in s.specs
    ensures Enabled(s, FirstStep(id, clock)) && TaskMoved(s, Next(s, FirstStep(id, clock)), id)
  {
  }

  lemma WorkingMoves(s: System, id: Id, clock: Clock)
    requires RunsHavePhases(s.service.mirror.store) && id in s.tasks && s.tasks[id].Working? && id in s.specs
    ensures Enabled(s, Finish(id, Returned(""), clock)) && TaskMoved(s, Next(s, Finish(id, Returned(""), clock)), id)
  {
  }

  lemma UnwindingMoves(s: System, id: Id, clock: Clock)
    requires RunsHavePhases(s.service.mirror.store) && id in s.tasks && s.tasks[id].Unwinding? && id in s.specs
    ensures Enabled(s, SettleCancelled(id, clock)) && TaskMoved(s, Next(s, SettleCancelled(id, clock)), id)
  {
  }

  lemma TaskMoves(s: System, id: Id, clock: Clock) returns (step: Step)
    requires Inv(s) && id in s.tasks && !s.tasks[id].Ended?
    ensures TaskStep(step) && Enabled(s, step) && TaskMoved(s, Next(s, step), id)
  {
    match s.tasks[id] {
      case Assigned(_) =>
        step := FirstStep(id, clock);
        AssignedMoves(s, id, clock);
      case Working(_, _) =>
        step := Finish(id, Returned(""), clock);
        WorkingMoves(s, id, clock);
      case Unwinding(_) =>
        step := SettleCancelled(id, clock);
        UnwindingMoves(s, id, clock);
    }
  }

  function TaskRank(t: Task): nat {
    match t case Ended(_, _) => 0 case Assigned(_) => 2 case _ => 1
  }

  lemma TaskAdvances(s: System, id: Id, clock: Clock) returns (step: Step, t: System)
    requires Inv(s) && id in s.tasks && !s.tasks[id].Ended?
    ensures TaskStep(step) && Runs(s, [step]) && After(s, [step]) == t
    ensures Inv(t) && OnlyTask(s, t, id) && TaskRank(t.tasks[id]) < TaskRank(s.tasks[id])
  {
    step := TaskMoves(s, id, clock);
    StepKeepsInv(s, step);
    t := Next(s, step);
    RunsOne(s, step);
    RankDrops(s, t, id);
  }

  lemma RunsOne(s: System, step: Step)
    requires Enabled(s, step)
    ensures Runs(s, [step]) && After(s, [step]) == Next(s, step)
  {
    assert [step][1..] == [];
    assert Runs(Next(s, step), []);
  }

  lemma RankDrops(s: System, t: System, id: Id)
    requires id in s.tasks && id in t.tasks && !s.tasks[id].Ended?
    requires t.tasks[id].Ended? || (s.tasks[id].Assigned? && t.tasks[id].Working?)
    ensures TaskRank(t.tasks[id]) < TaskRank(s.tasks[id])
  {
  }

  lemma OnlyTaskTwice(s: System, t: System, u: System, id: Id)
    requires OnlyTask(s, t, id) && OnlyTask(t, u, id)
    ensures OnlyTask(s, u, id)
  {
  }

  ghost predicate AllTaskSteps(steps: seq<Step>) {
    forall k | 0 <= k < |steps| :: TaskStep(steps[k])
  }

  /** One task step, then a run of them. */
  lemma TaskStepFirst(s: System, step: Step, u: System, rest: seq<Step>, t: System)
    requires TaskStep(step) && Runs(s, [step]) && After(s, [step]) == u
    requires AllTaskSteps(rest) && Runs(u, rest) && After(u, rest) == t
    ensures AllTaskSteps([step] + rest) && Runs(s, [step] + rest) && After(s, [step] + rest) == t
  {
    RunsJoin(s, [step], rest);
  }

  lemma {:induction false} TaskEnds(s: System, id: Id, clock: Clock) returns (steps: seq<Step>, t: System)
    requires Inv(s) && id in s.tasks
    ensures AllTaskSteps(steps) && Runs(s, steps) && After(s, steps) == t
    ensures Inv(t) && OnlyTask(s, t, id) && t.tasks[id].Ended?
    decreases TaskRank(s.tasks[id])
  {
    if s.tasks[id].Ended? {
      steps, t := [], s;
    } else {
      var step, u := TaskAdvances(s, id, clock);
      var rest;
      rest, t := TaskEnds(u, id, clock);
      steps := [step] + rest;
      TaskStepFirst(s, step, u, rest, t);
      OnlyTaskTwice(s, u, t, id);
    }
  }

  /** `t` is `s` but for the tasks of running agents, none of `ids` left unended. */
  ghost predicate TasksEnded(s: System, t: System, ids: set<Id>) {
    && t.phase == s.phase && t.specs == s.specs && t.service.running == s.service.running
         && t.tasks.Keys == s.tasks.Keys
    && (forall id | id in ids && id in s.tasks :: t.tasks[id].Ended?)
    && (forall id | id in s.tasks && s.tasks[id].Ended? :: t.tasks[id].Ended?)
  }

  lemma OneMoreEnded(s: System, t: System, u: System, id: Id, ids: set<Id>)
    requires id in s.tasks && OnlyTask(s, t, id) && t.tasks[id].Ended? && TasksEnded(t, u, ids - {id})
    ensures TasksEnded(s, u, ids)
  {
  }

  lemma {:induction false} TasksEnd(s: System, ids: set<Id>, clock: Clock) returns (steps: seq<Step>)
    requires Inv(s) && ids <= s.tasks.Keys
    ensures AllTaskSteps(steps) && Runs(s, steps)
    ensures TasksEnded(s, After(s, steps), ids)
    decreases |ids|
  {
    if ids == {} {
      steps := [];
    } else {
      var id :| id in ids;
      var first, t := TaskEnds(s, id, clock);
      var rest := TasksEnd(t, ids - {id}, clock);
      RunsJoin(s, first, rest);
      steps := first + rest;
      OneMoreEnded(s, t, After(t, rest), id, ids);
    }
  }

  /** From every reachable state of a shutdown, steps of the running agents' own tasks and the end of
      `close` lead to the closed state. */
  lemma ShutdownCanFinish(s: System, clock: Clock) returns (steps: seq<Step>)
    requires Reachable(s) && s.phase == Draining
    ensures AllTaskSteps(steps) && Runs(s, steps + [EndClose])
    ensures After(s, steps + [EndClose]).phase == Closed
  {
    ReachableInv(s);
    steps := TasksEnd(s, s.service.running, clock);
    RunKeepsInv(s, steps);
    RunsSnoc(s, steps, EndClose);
  }

  lemma {:induction false} RunsJoin(s: System, steps: seq<Step>, more: seq<Step>)
    requires Runs(s, steps) && Runs(After(s, steps), more)
    ensures Runs(s, steps + more) && After(s, steps + more) == After(After(s, steps), more)
    decreases |steps|
  {
    if steps == [] {
      assert steps + more == more;
    } else {
      assert (steps + more)[1..] == steps[1..] + more;
      RunsJoin(Next(s, steps[0]), steps[1..], more);
    }
  }
}
