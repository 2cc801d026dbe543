/** What each transition of a background agent leaves in the registry and in the audit trail, written
    out: the agent's last live snapshot and the row added, in every reachable state. */
module RunnerOutcomes {
  import opened Basics
  import opened Store
  import opened StoreInvariants
  import opened AgentTrail
  import opened AgentRunner
  import opened RunnerProtocol
  import opened RunnerTheorems

  /** Agent `id` is now as `a`, with `row` added to its trail; every other agent is as it was. */
  ghost predicate Becomes(s: System, t: System, id: Id, a: Agent, row: AgentEvent) {
    && id in s.last && t.last == s.last[id := a]
    && TrailOf(t.service.mirror.trails, id) == TrailOf(s.service.mirror.trails, id) + [row]
    && forall other | other != id :: TrailOf(t.service.mirror.trails, other) == TrailOf(s.service.mirror.trails, other)
  }

  /** No agent has moved. */
  ghost predicate Unmoved(s: System, t: System) {
    t.last == s.last && t.service.mirror.trails == s.service.mirror.trails
  }

  /** A settled agent's snapshot: everything but the state, what it ends with, the emptied queue and the stamp. */
  function AtEnd(a: Agent, state: AgentState, result: Option<string>, error: Option<string>, now: Time): Agent {
    a.(state := state, lastResult := result, error := error, queuedTasks := [], updatedAt := now)
  }

  function Finally(a: Agent, state: AgentState, result: Option<string>, error: Option<string>, now: Time): Agent {
    if state == Completed then AtEnd(a, state, result, error, now).(progressFraction := Some(1.0))
    else AtEnd(a, state, result, error, now)
  }

  lemma SettledForm(a: Agent, state: AgentState, result: Option<string>, error: Option<string>, now: Time)
    requires state.Terminal() && a.lastResult == None && a.error == None
    ensures UpdatedAgent(a, SettleUpdate(state, result, error), now) == Finally(a, state, result, error, now)
  {
  }

  /** An unsettled agent has neither result nor error yet. */
  lemma Unsettled(s: System, id: Id)
    requires Inv(s) && id in s.specs
    ensures s.specs[id].agentId == id && id in s.last && s.last[id].agentId == id
    ensures !s.last[id].state.Terminal() ==> s.last[id].lastResult == None && s.last[id].error == None
    ensures RegistryOk(s.service.mirror.store) && LastOk(s.service.mirror.store.agents, s.last)
  {
    assert AgentOkIn(s, id);
  }

  lemma StepBecomes(s: System, t: System, r: (Mirror, seq<StoreEvent>), id: Id, a: Agent, row: AgentEvent)
    requires MirrorStep(s.service.mirror, s.last, r, id)
    requires t.service.mirror == r.0 && t.last == Noted(s.last, r.1)
    requires Noted(s.last, r.1)[id] == a && TrailOf(r.0.trails, id) == TrailOf(s.service.mirror.trails, id) + [row]
    ensures Becomes(s, t, id, a, row)
  {
  }

  lemma SettleBecomes(s: System, t: System, id: Id, state: AgentState, result: Option<string>, error: Option<string>,
                      payload: Payload, clock: Clock)
    requires Inv(s) && id in s.specs && state.Terminal() && id in s.last && !s.last[id].state.Terminal()
    requires RunsHavePhases(s.service.mirror.store)
    requires var r := SettledAs(s.service.mirror, id, state, s.specs[id].requestId, result, error, payload, clock);
             t.service.mirror == r.0 && t.last == Noted(s.last, r.1)
    ensures Becomes(s, t, id, Finally(s.last[id], state, result, error, clock.now),
                    SettleRow(id, state, s.specs[id].requestId, result, payload))
  {
    Unsettled(s, id);
    SettledForm(s.last[id], state, result, error, clock.now);
    SettledMirrorStep(s.service.mirror, s.last, id, state, s.specs[id].requestId, result, error, payload, clock);
    var r := SettledAs(s.service.mirror, id, state, s.specs[id].requestId, result, error, payload, clock);
    StepBecomes(s, t, r, id, Finally(s.last[id], state, result, error, clock.now),
                SettleRow(id, state, s.specs[id].requestId, result, payload));
  }

  /** The step by which an agent's run ends so: a cancelled one settles in a step of its own. */
  function Ending(id: Id, outcome: Outcome, clock: Clock): Step {
    if outcome == RaisedCancelled then SettleCancelled(id, clock) else Finish(id, outcome, clock)
  }

  lemma EndingAgent(s: System, id: Id, outcome: Outcome, clock: Clock)
    requires Inv(s) && Enabled(s, Ending(id, outcome, clock))
    ensures id in s.specs && id in s.last && s.last[id].state == Running && s.specs[id].agentId == id
  {
    assert AgentOkIn(s, id);
  }

  lemma EndingIs(s: System, id: Id, outcome: Outcome, clock: Clock)
    requires Enabled(s, Ending(id, outcome, clock)) && id in s.specs
    ensures RunsHavePhases(s.service.mirror.store)
    ensures var r := Finished(s.service.mirror, s.specs[id], outcome, clock);
            var t := Next(s, Ending(id, outcome, clock));
            t.service.mirror == r.0 && t.last == Noted(s.last, r.1)
  {
  }

  lemma RunningSettles(s: System, t: System, id: Id, outcome: Outcome, clock: Clock)
    requires Inv(s) && id in s.specs && id in s.last && s.last[id].state == Running
    requires RunsHavePhases(s.service.mirror.store) && s.specs[id].agentId == id
    requires var r := Finished(s.service.mirror, s.specs[id], outcome, clock);
             t.service.mirror == r.0 && t.last == Noted(s.last, r.1)
    ensures Settles(s, t, id, outcome, clock.now)
  {
    match outcome
    case Returned(text) => SettleBecomes(s, t, id, Completed, Some(text), None, NoPayload, clock);
    case Raised(error) => SettleBecomes(s, t, id, Failed, None, Some(error), ErrorPayload(error), clock);
    case GenerationTimeout(error) => SettleBecomes(s, t, id, Failed, None, Some(error), ErrorPayload(error), clock);
    case WallClockTimeout(error) =>
      SettleBecomes(s, t, id, Cancelled, None, Some(error), ReasonPayload(WALL_CLOCK), clock);
    case RaisedCancelled =>
      SettleBecomes(s, t, id, Cancelled, None, None, ReasonPayload("cancelled while running"), clock);
  }

  /** The agent has settled as an `outcome` of its run calls for, with one row that says so. */
  ghost predicate Settles(s: System, t: System, id: Id, outcome: Outcome, now: Time)
    requires id in s.specs && id in s.last
  {
    var a, request := s.last[id], s.specs[id].requestId;
    match outcome
    case Returned(text) =>
      Becomes(s, t, id, AtEnd(a, Completed, Some(text), None, now).(progressFraction := Some(1.0)),
              AgentEvent(id, CompletedEvent, request, Some(Completed), ResultPayload(text)))
    case Raised(error) =>
      Becomes(s, t, id, AtEnd(a, Failed, None, Some(error), now),
              AgentEvent(id, FailedEvent, request, Some(Failed), ErrorPayload(error)))
    case GenerationTimeout(error) =>
      Becomes(s, t, id, AtEnd(a, Failed, None, Some(error), now),
              AgentEvent(id, FailedEvent, request, Some(Failed), ErrorPayload(error)))
    case WallClockTimeout(error) =>
      Becomes(s, t, id, AtEnd(a, Cancelled, None, Some(error), now),
              AgentEvent(id, CancelledEvent, request, Some(Cancelled), ReasonPayload("wall-clock timeout")))
    case RaisedCancelled =>
      Becomes(s, t, id, AtEnd(a, Cancelled, None, None, now),
              AgentEvent(id, CancelledEvent, request, Some(Cancelled), ReasonPayload("cancelled while running")))
  }

  /** However `agent.run` ends, the agent settles as that ending calls for. */
  lemma EndingSettles(s: System, id: Id, outcome: Outcome, clock: Clock)
    requires Reachable(s) && Enabled(s, Ending(id, outcome, clock))
    ensures id in s.specs && id in s.last && s.last[id].state == Running
    ensures Settles(s, Next(s, Ending(id, outcome, clock)), id, outcome, clock.now)
  {
    ReachableInv(s);
    EndingAgent(s, id, outcome, clock);
    EndingIs(s, id, outcome, clock);
    RunningSettles(s, Next(s, Ending(id, outcome, clock)), id, outcome, clock);
  }

  /** A cancellation raised in `agent.run` moves nothing yet: the agent settles in a step of its own. */
  lemma CancellationUnwinds(s: System, id: Id, clock: Clock)
    requires Reachable(s) && Enabled(s, Finish(id, RaisedCancelled, clock))
    ensures Unmoved(s, Next(s, Finish(id, RaisedCancelled, clock)))
    ensures Enabled(Next(s, Finish(id, RaisedCancelled, clock)), Ending(id, RaisedCancelled, clock))
  {
  }

  // ----- the other transitions -----

  /** `agentId` is registered as pending with its task queued, and its spawn is the first row. */
  lemma SpawnRegisters(s: System, spec: AgentSpec, clock: Clock)
    requires Reachable(s) && Enabled(s, Spawn(spec, clock))
    ensures var t := Next(s, Spawn(spec, clock));
            if s.service.closed || spec.kind !in s.kinds then t == s
            else
              && t.last == s.last[spec.agentId :=
                   Agent(spec.agentId, spec.kind, spec.sessionId, spec.requestId, Pending, clock.now, clock.now,
                         None, None, None, None, [AgentTask(spec.agentId, spec.task, clock.now)])]
              && t.specs == s.specs[spec.agentId := spec] && t.service.queue == s.service.queue + [spec]
              && t.service.mirror.trails == s.service.mirror.trails[spec.agentId :=
                   [AgentEvent(spec.agentId, SpawnedEvent, spec.requestId, Some(Pending),
                      SpawnPayload(spec.kind, spec.task, spec.sessionId))]]
  {
    ReachableInv(s);
    var store := s.service.mirror.store;
    if !s.service.closed && spec.kind in s.kinds {
      assert spec.agentId !in store.agents && TrailOf(s.service.mirror.trails, spec.agentId) == [];
      assert [] + [SpawnEvent(spec)] == [SpawnEvent(spec)];
      RegisterOnLast(store, s.last,
          RegisterAgent(spec.agentId, spec.kind, spec.task, spec.sessionId, spec.requestId), clock);
    }
  }

  /** What the runner answers to a spawn, in this order, and that a refused one leaves no trace. */
  lemma SpawnAnswers(s: Service, spec: AgentSpec, kinds: set<string>, clock: Clock)
    requires RunsHavePhases(s.mirror.store)
    ensures var (t, reply, events) := SpawnOutcome(s, spec, kinds, clock);
            && (reply == ShutDown <==> s.closed)
            && (reply == UnknownKind <==> !s.closed && spec.kind !in kinds)
            && (reply == DuplicateId <==> !s.closed && spec.kind in kinds && spec.agentId in s.mirror.store.agents)
            && (reply != Spawned ==> t == s && events == [])
  {
  }

  /** A worker takes the agent that has waited longest, which no worker has taken before. */
  lemma PickupTakesOldest(s: System, w: nat)
    requires Reachable(s) && Enabled(s, Pickup(w))
    ensures var t, spec := Next(s, Pickup(w)), s.service.queue[0];
            && spec.agentId !in s.tasks && spec.agentId !in s.service.running && Unmoved(s, t)
            && t.service.queue == s.service.queue[1..] && t.workers == s.workers[w := Some(spec.agentId)]
            && t.service.running == s.service.running + {spec.agentId}
            && t.tasks == s.tasks[spec.agentId := Assigned(false)]
  {
    ReachableInv(s);
    QueueDrainable(s);
    assert Drainable(s, s.service.queue[0]);
  }

  /** What a cancel request answers: whether the agent could still be cancelled, and whether by its task. */
  lemma CancelAnswers(s: System, id: Id, clock: Clock)
    requires Reachable(s)
    ensures RunsHavePhases(s.service.mirror.store)
    ensures var (_, accepted, cancelTask, _) := CancelOutcome(s.service, id, clock);
            && (accepted <==> id in s.last && s.last[id].state in {Pending, Running})
            && (cancelTask <==> accepted && id in s.service.running)
  {
    ReachableInv(s);
    if id in s.last && !s.last[id].state.Terminal() {
      assert AgentOkIn(s, id);
      Unsettled(s, id);
    }
  }

  /** An update of one agent by the runner, with the row that goes with it. */
  lemma UpdateBecomes(s: System, t: System, id: Id, u: AgentUpdate, clock: Clock, row: AgentEvent)
    requires Inv(s) && id in s.specs && id in s.last && !s.last[id].state.Terminal() && row.agentId == id
    requires RunsHavePhases(s.service.mirror.store)
    requires var (store, events) := Apply(s.service.mirror.store, UpdateAgent(id, u), clock);
             t.service.mirror == Mirror(store, Recorded(s.service.mirror.trails, row))
             && t.last == Noted(s.last, events)
    ensures Becomes(s, t, id, UpdatedAgent(s.last[id], u, clock.now), row)
  {
    Unsettled(s, id);
    UpdateOnLast(s.service.mirror.store, s.last, id, u, clock);
  }

  lemma FirstStepSkips(s: System, id: Id, clock: Clock)
    requires Inv(s) && Enabled(s, FirstStep(id, clock)) && id in s.last
    requires s.tasks[id].cancelRequested || s.last[id].state.Terminal()
    ensures var t := Next(s, FirstStep(id, clock));
            Unmoved(s, t) && t.tasks == s.tasks[id := RunnerProtocol.Ended(!s.tasks[id].cancelRequested, 0)]
  {
    Unsettled(s, id);
    UpdateOnLast(s.service.mirror.store, s.last, id, STATE_ONLY.(state := Some(Running)), clock);
  }

  lemma FirstStepRuns(s: System, id: Id, clock: Clock)
    requires Inv(s) && Enabled(s, FirstStep(id, clock)) && id in s.last && s.last[id].state == Pending
    requires !s.tasks[id].cancelRequested
    ensures var t, a := Next(s, FirstStep(id, clock)), s.last[id];
            && Becomes(s, t, id, a.(state := Running, queuedTasks := [], updatedAt := clock.now),
                       AgentEvent(id, StartedEvent, s.specs[id].requestId, Some(Running), NoPayload))
            && t.tasks == s.tasks[id := Working(0, 0)]
  {
    Unsettled(s, id);
    var u := STATE_ONLY.(state := Some(Running));
    UpdateOnLast(s.service.mirror.store, s.last, id, u, clock);
    UpdateBecomes(s, Next(s, FirstStep(id, clock)), id, u, clock,
                  AgentEvent(id, StartedEvent, s.specs[id].requestId, Some(Running), NoPayload));
  }

  /** The first step of a task: it does nothing if it was cancelled or its agent settled meanwhile, and
      otherwise the agent is running, its task off the queue. */
  lemma FirstStepStarts(s: System, id: Id, clock: Clock)
    requires Reachable(s) && Enabled(s, FirstStep(id, clock))
    ensures id in s.last && s.last[id].state != Running
    ensures var t, a := Next(s, FirstStep(id, clock)), s.last[id];
            if s.tasks[id].cancelRequested || a.state != Pending then
              Unmoved(s, t) && t.tasks == s.tasks[id := RunnerProtocol.Ended(!s.tasks[id].cancelRequested, 0)]
            else
              && Becomes(s, t, id, a.(state := Running, queuedTasks := [], updatedAt := clock.now),
                         AgentEvent(id, StartedEvent, s.specs[id].requestId, Some(Running), NoPayload))
              && t.tasks == s.tasks[id := Working(0, 0)]
  {
    ReachableInv(s);
    assert AgentOkIn(s, id);
    if s.tasks[id].cancelRequested || s.last[id].state != Pending {
      FirstStepSkips(s, id, clock);
    } else {
      FirstStepRuns(s, id, clock);
    }
  }

  /** Progress shows in the registry, the fraction moved into the unit interval, and in the trail as reported. */
  lemma ProgressShows(s: System, id: Id, phase: string, fraction: Option<real>, clock: Clock)
    requires Reachable(s) && Enabled(s, Progress(id, phase, fraction, clock))
    ensures id in s.last && s.last[id].state == Running
    ensures var t, a := Next(s, Progress(id, phase, fraction, clock)), s.last[id];
            var shown := match fraction
                         case None => a.progressFraction
                         case Some(x) => Some(if x < 0.0 then 0.0 else if 1.0 < x then 1.0 else x);
            Becomes(s, t, id, a.(progressPhase := Some(phase), progressFraction := shown, updatedAt := clock.now),
                    AgentEvent(id, ProgressEvent, s.specs[id].requestId, Some(Running),
                               ProgressPayload(phase, fraction)))
  {
    ReachableInv(s);
    assert AgentOkIn(s, id);
    Unsettled(s, id);
    UpdateBecomes(s, Next(s, Progress(id, phase, fraction, clock)), id,
                  STATE_ONLY.(progressPhase := Some(phase), progressFraction := fraction), clock,
                  AgentEvent(id, ProgressEvent, s.specs[id].requestId, Some(Running),
                             ProgressPayload(phase, fraction)));
  }

  /** Attempt `n` of an agent reaches the model exactly if there is no limit or `n` is within it. */
  lemma AttemptsWithinLimit(s: System, id: Id)
    requires Reachable(s) && Enabled(s, ModelCall(id))
    ensures var attempts, calls := s.tasks[id].steps + 1, s.tasks[id].calls;
            && Unmoved(s, Next(s, ModelCall(id)))
            && Next(s, ModelCall(id)).tasks == s.tasks[id :=
                 Working(attempts, if s.maxSteps == 0 || attempts <= s.maxSteps then calls + 1 else calls)]
  {
  }

  lemma CancelPending(s: System, id: Id, clock: Clock)
    requires Inv(s) && Enabled(s, CancelAgent(id, clock)) && id in s.specs && id !in s.service.running
    requires id in s.last && !s.last[id].state.Terminal()
    ensures s.last[id].state == Pending
    ensures Next(s, CancelAgent(id, clock)).tasks == s.tasks
    ensures Becomes(s, Next(s, CancelAgent(id, clock)), id, AtEnd(s.last[id], Cancelled, None, None, clock.now),
                    AgentEvent(id, CancelledEvent, s.specs[id].requestId, Some(Cancelled),
                               ReasonPayload("cancelled while pending")))
  {
    assert AgentOkIn(s, id);
    Unsettled(s, id);
    SettleBecomes(s, Next(s, CancelAgent(id, clock)), id, Cancelled, None, None,
                  ReasonPayload("cancelled while pending"), clock);
  }

  lemma CancelOthers(s: System, id: Id, clock: Clock)
    requires Inv(s) && Enabled(s, CancelAgent(id, clock))
    ensures id !in s.last || s.last[id].state.Terminal() ==> Next(s, CancelAgent(id, clock)) == s
    ensures id in s.last && !s.last[id].state.Terminal() && id in s.service.running ==>
              && Unmoved(s, Next(s, CancelAgent(id, clock)))
              && Next(s, CancelAgent(id, clock)).tasks == RequestCancel(s.tasks, {id})
  {
  }

  /** A cancel request: nothing happens to an unknown or settled agent; a running one's task is told; any
      other is settled as cancelled on the spot. */
  lemma CancelSettles(s: System, id: Id, clock: Clock)
    requires Reachable(s) && Enabled(s, CancelAgent(id, clock))
    ensures id in s.specs <==> id in s.last
    ensures var t := Next(s, CancelAgent(id, clock));
            if id !in s.last || s.last[id].state in {Completed, Failed, Cancelled} then t == s
            else if id in s.service.running then
              Unmoved(s, t) && t.tasks.Keys == s.tasks.Keys
              && forall x | x in s.tasks ::
                   t.tasks[x] == if x == id && s.tasks[x].Assigned? then Assigned(true) else s.tasks[x]
            else
              s.last[id].state == Pending && t.tasks == s.tasks
              && Becomes(s, t, id, AtEnd(s.last[id], Cancelled, None, None, clock.now),
                   AgentEvent(id, CancelledEvent, s.specs[id].requestId, Some(Cancelled),
                              ReasonPayload("cancelled while pending")))
  {
    ReachableInv(s);
    CancelOthers(s, id, clock);
    if id in s.last && !s.last[id].state.Terminal() && id !in s.service.running {
      CancelPending(s, id, clock);
    }
  }

  // ----- shutdown -----

  /** Agent `id` as shutdown leaves it: settled as cancelled if it was in `queue` and unsettled. */
  ghost predicate DrainedOne(last: map<Id, Agent>, trails: Trails, last': map<Id, Agent>, trails': Trails,
                             queue: seq<AgentSpec>, specs: map<Id, AgentSpec>, id: Id, now: Time)
    requires id in specs && id in last
  {
    && id in last'
    && if Queued(queue, id) && last[id].state in {Pending, Running} then
         && last'[id] == AtEnd(last[id], Cancelled, None, None, now)
         && TrailOf(trails', id) == TrailOf(trails, id) + [AgentEvent(id, CancelledEvent, specs[id].requestId,
              Some(Cancelled), ReasonPayload("service shutdown before start"))]
       else last'[id] == last[id] && TrailOf(trails', id) == TrailOf(trails, id)
  }

  lemma DrainFirst(s: System, s1: System, queue: seq<AgentSpec>, clock: Clock, id: Id)
    requires Inv(s) && queue != [] && Drainable(s, queue[0]) && id in s.specs && id in s.last
    requires RunsHavePhases(s.service.mirror.store)
    requires s1 == WithMirror(s, ShutdownSettle(s.service.mirror, queue[0], clock))
    ensures DrainedOne(s.last, s.service.mirror.trails, s1.last, s1.service.mirror.trails, [queue[0]], s.specs, id,
                       clock.now)
  {
    var first := queue[0].agentId;
    Unsettled(s, first);
    if s.last[first].state.Terminal() {
      SettledMirrorStep(s.service.mirror, s.last, first, Cancelled, queue[0].requestId, None, None,
          ReasonPayload("service shutdown before start"), clock);
    } else {
      SettleBecomes(s, s1, first, Cancelled, None, None, ReasonPayload("service shutdown before start"), clock);
    }
    assert Queued([queue[0]], id) <==> id == first by {
      assert [queue[0]][0] == queue[0];
    }
  }

  lemma {:induction false} DrainSettles(s: System, queue: seq<AgentSpec>, clock: Clock, id: Id)
    requires Inv(s) && id in s.specs && id in s.last && RunsHavePhases(s.service.mirror.store)
    requires forall k | 0 <= k < |queue| :: Drainable(s, queue[k])
    ensures var r := Drained(s.service.mirror, queue, clock);
            DrainedOne(s.last, s.service.mirror.trails, Noted(s.last, r.1), r.0.trails, queue, s.specs, id, clock.now)
    decreases |queue|
  {
    if queue != [] {
      DrainOne(s, queue[0], clock);
      DrainedIs(s, queue, clock);
      var s1 := WithMirror(s, ShutdownSettle(s.service.mirror, queue[0], clock));
      StillDrainable(s, queue, s1);
      DrainFirst(s, s1, queue, clock, id);
      DrainSettles(s1, queue[1..], clock, id);
      var r := Drained(s1.service.mirror, queue[1..], clock);
      DrainTwice(s.last, s.service.mirror.trails, s1.last, s1.service.mirror.trails, Noted(s1.last, r.1), r.0.trails,
                 queue, s.specs, id, clock.now);
    }
  }

  lemma DrainTwice(last: map<Id, Agent>, trails: Trails, last1: map<Id, Agent>, trails1: Trails,
                   last2: map<Id, Agent>, trails2: Trails, queue: seq<AgentSpec>, specs: map<Id, AgentSpec>, id: Id,
                   now: Time)
    requires id in specs && id in last && queue != []
    requires DrainedOne(last, trails, last1, trails1, [queue[0]], specs, id, now)
    requires DrainedOne(last1, trails1, last2, trails2, queue[1..], specs, id, now)
    ensures DrainedOne(last, trails, last2, trails2, queue, specs, id, now)
  {
    assert queue == [queue[0]] + queue[1..] && [queue[0]] + [] == [queue[0]];
    QueuedCons(queue[0], queue[1..], id);
    QueuedCons(queue[0], [], id);
  }

  /** `close` settles as cancelled, each with its row, just the agents still queued and unsettled. */
  lemma CloseSettlesQueue(s: System, clock: Clock, id: Id)
    requires Reachable(s) && Enabled(s, BeginClose(clock)) && id in s.specs
    ensures id in s.last
    ensures var t := Next(s, BeginClose(clock));
            && DrainedOne(s.last, s.service.mirror.trails, t.last, t.service.mirror.trails, s.service.queue, s.specs,
                          id, clock.now)
            && t.service.queue == [] && t.service.closed && t.service.running == s.service.running
            && TaskOf(t.tasks, id) == (if id in s.service.running && TaskOf(s.tasks, id) == Some(Assigned(false)) then
                                         Some(Assigned(true))
                                       else TaskOf(s.tasks, id))
  {
    ReachableInv(s);
    Unsettled(s, id);
    QueueDrainable(s);
    DrainSettles(s, s.service.queue, clock, id);
  }
}
