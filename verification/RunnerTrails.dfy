/** The audit trails over whole runs: rows are only ever appended, and every trail begins with the row
    its agent was spawned by. */
module RunnerTrails {
  import opened Basics
  import opened Store
  import opened AgentTrail
  import opened AgentRunner
  import opened RunnerProtocol

  ghost predicate Grows(before: Trails, after: Trails) {
    forall id :: TrailOf(before, id) <= TrailOf(after, id)
  }

  lemma SettledAsGrows(m: Mirror, id: Id, state: AgentState, requestId: Option<Id>, result: Option<string>,
                       error: Option<string>, payload: Payload, clock: Clock)
    requires RunsHavePhases(m.store) && state.Terminal()
    ensures Grows(m.trails, SettledAs(m, id, state, requestId, result, error, payload, clock).0.trails)
  {
  }

  lemma {:induction false} DrainedGrows(m: Mirror, queue: seq<AgentSpec>, clock: Clock)
    requires RunsHavePhases(m.store)
    ensures Grows(m.trails, Drained(m, queue, clock).0.trails)
    decreases |queue|
  {
    if queue != [] {
      var reason := ReasonPayload("service shutdown before start");
      SettledAsGrows(m, queue[0].agentId, Cancelled, queue[0].requestId, None, None, reason, clock);
      var m1 := SettledAs(m, queue[0].agentId, Cancelled, queue[0].requestId, None, None, reason, clock).0;
      DrainedGrows(m1, queue[1..], clock);
      GrowsTwice(m.trails, m1.trails, Drained(m1, queue[1..], clock).0.trails);
    }
  }

  lemma GrowsTwice(a: Trails, b: Trails, c: Trails)
    requires Grows(a, b) && Grows(b, c)
    ensures Grows(a, c)
  {
    forall id ensures TrailOf(a, id) <= TrailOf(c, id) {
      assert TrailOf(a, id) <= TrailOf(b, id) <= TrailOf(c, id);
    }
  }

  /** Audit rows are never changed or removed. */
  lemma TrailsAreAppendOnly(s: System, step: Step)
    requires Enabled(s, step)
    ensures Grows(s.service.mirror.trails, Next(s, step).service.mirror.trails)
  {
    match step
    case BeginClose(clock) => DrainedGrows(s.service.mirror, s.service.queue, clock);
    case _ =>
  }

  /** The first row says what was asked for. */
  ghost predicate BornAs(trail: seq<AgentEvent>, spec: AgentSpec) {
    trail != [] && trail[0] == AgentEvent(spec.agentId, SpawnedEvent, spec.requestId, Some(Pending),
                                          SpawnPayload(spec.kind, spec.task, spec.sessionId))
  }

  ghost predicate AllBorn(s: System) {
    forall id | id in s.specs :: BornAs(TrailOf(s.service.mirror.trails, id), s.specs[id])
  }

  lemma SpecsGrow(s: System, step: Step)
    requires Enabled(s, step)
    ensures forall id | id in s.specs :: id in Next(s, step).specs && Next(s, step).specs[id] == s.specs[id]
    ensures forall id | id in Next(s, step).specs && id !in s.specs :: step.Spawn? && step.spec.agentId == id
  {
  }

  lemma StepKeepsBorn(s: System, step: Step)
    requires Inv(s) && AllBorn(s) && Enabled(s, step)
    ensures AllBorn(Next(s, step))
  {
    var t := Next(s, step);
    SpecsGrow(s, step);
    TrailsAreAppendOnly(s, step);
    forall id | id in t.specs
      ensures BornAs(TrailOf(t.service.mirror.trails, id), t.specs[id])
    {
      if id in s.specs {
        assert TrailOf(s.service.mirror.trails, id) <= TrailOf(t.service.mirror.trails, id);
      } else {
        assert TrailOf(s.service.mirror.trails, id) == [];
      }
    }
  }

  lemma {:induction false} RunKeepsBorn(s: System, steps: seq<Step>)
    requires Inv(s) && AllBorn(s) && Runs(s, steps)
    ensures AllBorn(After(s, steps))
    decreases |steps|
  {
    if steps != [] {
      StepKeepsInv(s, steps[0]);
      StepKeepsBorn(s, steps[0]);
      RunKeepsBorn(Next(s, steps[0]), steps[1..]);
    }
  }

  /** Every trail begins with the row of its spawn. */
  lemma TrailsBeginWithSpawn(s: System)
    requires Reachable(s)
    ensures AllBorn(s)
  {
    var maxRuns: int, maxAgents: int, workers: nat, kinds: set<string>, maxSteps: nat, steps :|
      Runs(Initial(EmptyStore(maxRuns, maxAgents), workers, kinds, maxSteps), steps) &&
      After(Initial(EmptyStore(maxRuns, maxAgents), workers, kinds, maxSteps), steps) == s;
    RunKeepsBorn(Initial(EmptyStore(maxRuns, maxAgents), workers, kinds, maxSteps), steps);
  }

  lemma {:induction false} SpawnedOnce(trail: seq<AgentEvent>)
    requires StageOf(trail) != Illegal
    ensures trail != [] ==> StageOf(trail) != Unborn
    ensures forall j | 1 <= j < |trail| :: trail[j].eventType != SpawnedEvent
  {
    if trail != [] {
      SpawnedOnce(trail[..|trail| - 1]);
    }
  }

  /** What a legal trail is rebuilt to says what the agent was asked to do, and for whom. */
  lemma BornIsRebuilt(trail: seq<AgentEvent>, spec: AgentSpec)
    requires StageOf(trail) != Illegal && BornAs(trail, spec)
    ensures Reconstructed(trail).task == Some(spec.task) && Reconstructed(trail).kind == spec.kind
    ensures Reconstructed(trail).sessionId == spec.sessionId
  {
    SpawnedOnce(trail);
    LastRowDecides(trail, TaskField);
    LastRowDecides(trail, KindField);
    LastRowDecides(trail, SessionField);
    assert Speaks(trail[0], TaskField) && Speaks(trail[0], KindField) && Speaks(trail[0], SessionField);
  }
}
