/** Concrete runs of the agent runner in which a promise fails, and shutdown reaching its end. */
module RunnerWitnesses {
  import opened Basics
  import opened Store
  import opened StoreInvariants
  import opened AgentTrail
  import opened AgentRunner
  import opened RunnerProtocol
  import opened RunnerTheorems

  // ----- one agent alone -----

  lemma PhasesKept(s: System)
    requires Reachable(s)
    ensures RunsHavePhases(s.service.mirror.store)
  {
    ReachableInv(s);
  }

  lemma NextReachable(s: System, step: Step)
    requires Reachable(s) && Enabled(s, step)
    ensures Reachable(Next(s, step)) && RunsHavePhases(Next(s, step).service.mirror.store)
  {
    ReachableNext(s, step);
    PhasesKept(Next(s, step));
  }

  lemma SpawnedAlone(spec: AgentSpec, clock: Clock) returns (s: System)
    ensures Reachable(s) && RunsHavePhases(s.service.mirror.store) && s.phase == Open
    ensures s.service.queue == [spec] && s.workers == [None] && s.specs == map[spec.agentId := spec]
    ensures s.service.running == {} && s.tasks == map[]
    ensures TrailOf(s.service.mirror.trails, spec.agentId) == [SpawnEvent(spec)]
  {
    var s0 := Initial(EmptyStore(8, 8), 1, {spec.kind}, 0);
    ReachableInitial(8, 8, 1, {spec.kind}, 0);
    NextReachable(s0, Spawn(spec, clock));
    s := Next(s0, Spawn(spec, clock));
    assert s.service.queue == [spec];
  }

  /** An agent whose trail is its spawn event is pending. */
  lemma PendingByTrail(s: System, spec: AgentSpec)
    requires Reachable(s) && spec.agentId in s.specs
    requires TrailOf(s.service.mirror.trails, spec.agentId) == [SpawnEvent(spec)]
    ensures spec.agentId in s.last && s.last[spec.agentId].state == Pending
  {
    ReachableInv(s);
    assert AgentOkIn(s, spec.agentId);
    assert [] + [SpawnEvent(spec)] == [SpawnEvent(spec)];
    MirrorsSnoc([], SpawnEvent(spec));
  }

  lemma PickedUpAlone(s: System, spec: AgentSpec) returns (t: System)
    requires Reachable(s) && RunsHavePhases(s.service.mirror.store) && s.phase == Open
    requires s.service.queue == [spec] && s.workers == [None] && s.specs == map[spec.agentId := spec]
    requires s.service.running == {} && s.tasks == map[]
    ensures Reachable(t) && RunsHavePhases(t.service.mirror.store) && t.phase == Open
    ensures t.specs == s.specs && t.tasks == map[spec.agentId := Assigned(false)]
    ensures t.service == s.service.(queue := [], running := {spec.agentId}) && t.last == s.last
  {
    NextReachable(s, Pickup(0));
    t := Next(s, Pickup(0));
    assert s.service.queue[1..] == [];
  }

  // ----- an orphan -----

  lemma ClosingAlone(s: System, id: Id, clock: Clock) returns (t: System)
    requires Reachable(s) && RunsHavePhases(s.service.mirror.store) && s.phase == Open
    requires s.service.queue == [] && s.service.running == {id} && id in s.specs
    requires s.tasks == map[id := Assigned(false)]
    ensures Reachable(t) && RunsHavePhases(t.service.mirror.store) && t.phase == Draining
    ensures t.service.running == {id} && t.tasks == map[id := Assigned(true)] && t.last == s.last && t.specs == s.specs
  {
    NextReachable(s, BeginClose(clock));
    t := Next(s, BeginClose(clock));
    assert Noted(s.last, []) == s.last;
  }

  lemma OrphanedAlone(s: System, id: Id, clock: Clock) returns (t: System)
    requires Reachable(s) && RunsHavePhases(s.service.mirror.store) && s.phase == Draining
    requires s.service.running == {id} && s.tasks == map[id := Assigned(true)] && id in s.specs
    ensures Reachable(t) && t.phase == Closed && t.last == s.last
  {
    NextReachable(s, FirstStep(id, clock));
    var ended := Next(s, FirstStep(id, clock));
    assert ended.tasks[id].Ended?;
    NextReachable(ended, EndClose);
    t := Next(ended, EndClose);
  }

  /** The exception happens: an agent is spawned and picked up, the service shuts down before the
      agent's task runs, and `close` returns with the agent pending. */
  lemma OrphanRun(spec: AgentSpec, clock: Clock)
    ensures exists s: System ::
              Reachable(s) && s.phase == Closed && spec.agentId in s.last && s.last[spec.agentId].state == Pending
  {
    var spawned := SpawnedAlone(spec, clock);
    PendingByTrail(spawned, spec);
    var taken := PickedUpAlone(spawned, spec);
    var closing := ClosingAlone(taken, spec.agentId, clock);
    var closed := OrphanedAlone(closing, spec.agentId, clock);
  }

  // ----- what reconstruction misses -----

  /** A reachable state in which an agent runs and has reported no fraction. */
  ghost predicate RunningAlone(s: System, spec: AgentSpec) {
    var id := spec.agentId;
    && Reachable(s) && RunsHavePhases(s.service.mirror.store)
    && id in s.specs && s.specs[id] == spec && id in s.tasks && s.tasks[id].Working?
    && LastReported(TrailOf(s.service.mirror.trails, id)) == None
  }

  lemma StartedAlone(spec: AgentSpec, clock: Clock) returns (t: System)
    ensures RunningAlone(t, spec)
  {
    var s1 := SpawnedAlone(spec, clock);
    var s2 := PickedUpAlone(s1, spec);
    FirstStepRuns(s2, spec, clock);
    t := Next(s2, FirstStep(spec.agentId, clock));
  }

  /** The first step of a pending agent whose task was not cancelled. */
  lemma PickupTakes(s: System, spec: AgentSpec, clock: Clock)
    requires Inv(s) && spec.agentId in s.specs && s.specs[spec.agentId] == spec
    requires spec.agentId in s.last && s.last[spec.agentId].state == Pending
    ensures RunsHavePhases(s.service.mirror.store)
    ensures PickedUp(s.service.mirror, spec, clock).1 != []
  {
    assert AgentOkIn(s, spec.agentId);
    UpdateOnLast(s.service.mirror.store, s.last, spec.agentId, STATE_ONLY.(state := Some(Running)), clock);
  }

  lemma NothingReported(spec: AgentSpec, started: AgentEvent)
    requires started.eventType == StartedEvent
    ensures LastReported([SpawnEvent(spec)] + [started]) == None
  {
    MirrorsSnoc([SpawnEvent(spec)], started);
    MirrorsSnoc([], SpawnEvent(spec));
    assert [] + [SpawnEvent(spec)] == [SpawnEvent(spec)];
  }

  lemma FirstStepRuns(s: System, spec: AgentSpec, clock: Clock)
    requires Reachable(s) && RunsHavePhases(s.service.mirror.store)
    requires s.specs == map[spec.agentId := spec] && s.tasks == map[spec.agentId := Assigned(false)]
    requires TrailOf(s.service.mirror.trails, spec.agentId) == [SpawnEvent(spec)]
    ensures Enabled(s, FirstStep(spec.agentId, clock)) && RunningAlone(Next(s, FirstStep(spec.agentId, clock)), spec)
  {
    var id := spec.agentId;
    PendingByTrail(s, spec);
    ReachableInv(s);
    PickupTakes(s, spec, clock);
    NextReachable(s, FirstStep(id, clock));
    var t := Next(s, FirstStep(id, clock));
    var started := AgentEvent(id, StartedEvent, spec.requestId, Some(Running), NoPayload);
    assert TrailOf(t.service.mirror.trails, id) == [SpawnEvent(spec)] + [started];
    NothingReported(spec, started);
  }

  /** How a running agent ends: its trail gains the terminal row, its last snapshot the settled fields. */
  lemma EndsAs(s: System, spec: AgentSpec, outcome: Outcome, clock: Clock)
    requires Reachable(s) && RunsHavePhases(s.service.mirror.store) && outcome != RaisedCancelled
    requires spec.agentId in s.specs && s.specs[spec.agentId] == spec
    requires spec.agentId in s.tasks && s.tasks[spec.agentId].Working?
    ensures Enabled(s, Finish(spec.agentId, outcome, clock))
    ensures var id, v := spec.agentId, Verdict(outcome); var t := Next(s, Finish(id, outcome, clock));
            && Reachable(t) && id in t.specs && id in t.last && t.last[id].state == v.0
                 && Mirrors(TrailOf(t.service.mirror.trails, id), t.last[id])
            && (v.2.Some? ==> t.last[id].error == v.2)
            && TrailOf(t.service.mirror.trails, id) == TrailOf(s.service.mirror.trails, id)
                 + [AgentEvent(id, TerminalType(v.0), spec.requestId, Some(v.0),
                     if v.1.Some? then ResultPayload(v.1.value) else v.3)]
  {
    var id, v := spec.agentId, Verdict(outcome);
    ReachableInv(s);
    assert AgentOkIn(s, id);
    ReachableNext(s, Finish(id, outcome, clock));
    SettledMirrorStep(s.service.mirror, s.last, id, v.0, spec.requestId, v.1, v.2, v.3, clock);
    ReachableInv(Next(s, Finish(id, outcome, clock)));
    assert AgentOkIn(Next(s, Finish(id, outcome, clock)), id);
  }

  /** A wall-clock cancellation: the registry shows the error, the reconstruction has none. */
  lemma WallClockErrorLost(spec: AgentSpec, error: string, clock: Clock)
    ensures exists s: System :: Reachable(s) && spec.agentId in s.last && s.last[spec.agentId].state == Cancelled
              && s.last[spec.agentId].error == Some(error)
              && Reconstructed(TrailOf(s.service.mirror.trails, spec.agentId)).error == None
  {
    var s := StartedAlone(spec, clock);
    var outcome := WallClockTimeout(error);
    EndsAs(s, spec, outcome, clock);
    var trail := TrailOf(s.service.mirror.trails, spec.agentId);
    var row := AgentEvent(spec.agentId, CancelledEvent, spec.requestId, Some(Cancelled), ReasonPayload(WALL_CLOCK));
    MirrorsSnoc(trail, row);
    var t := Next(s, Finish(spec.agentId, outcome, clock));
    assert TrailOf(t.service.mirror.trails, spec.agentId) == trail + [row];
  }

  /** A fraction reported outside the unit interval by an agent that then fails: clamped in the
      registry, raw in the reconstruction. */
  lemma FractionUnclamped(spec: AgentSpec, error: string, clock: Clock)
    ensures exists s: System :: Reachable(s) && spec.agentId in s.last && s.last[spec.agentId].state == Failed
              && s.last[spec.agentId].progressFraction == Some(1.0)
              && Reconstructed(TrailOf(s.service.mirror.trails, spec.agentId)).progressFraction == Some(2.0)
  {
    var s := StartedAlone(spec, clock);
    var id := spec.agentId;
    var step := Progress(id, "half", Some(2.0), clock);
    ReachableNext(s, step);
    var u := Next(s, step);
    PhasesKept(u);
    var trail := TrailOf(s.service.mirror.trails, id);
    var report := AgentEvent(id, ProgressEvent, spec.requestId, Some(Running), ProgressPayload("half", Some(2.0)));
    assert TrailOf(u.service.mirror.trails, id) == trail + [report];
    MirrorsSnoc(trail, report);
    EndsAs(u, spec, Raised(error), clock);
    var t := Next(u, Finish(id, Raised(error), clock));
    var row := AgentEvent(id, FailedEvent, spec.requestId, Some(Failed), ErrorPayload(error));
    MirrorsSnoc(trail + [report], row);
    assert TrailOf(t.service.mirror.trails, id) == trail + [report] + [row];
  }
}
