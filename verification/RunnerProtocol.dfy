/** Background agents as a step system: spawn, worker pickup, execution, progress, model calls,
    failure, timeout, cancellation and shutdown, in any interleaving
    (`backend/app/orchestration/runner.py`, `backend/app/orchestration/agents/base.py`). */
module RunnerProtocol {
  import opened Basics
  import opened Store
  import opened StoreInvariants
  import opened StoreHistory
  import opened AgentTrail
  import opened AgentRunner

  /** The task of one picked-up agent.  `Assigned`: created, first step still to come.  `Unwinding`:
      cancelled, its shielded settle scheduled.  `Ended(entered)`: over, having entered `_execute`'s
      body or not; its worker may not have noticed yet. */
  datatype Task =
    | Assigned(cancelRequested: bool)
    | Working(steps: nat, calls: nat)
    | Unwinding(calls: nat)
    | Ended(entered: bool, calls: nat)

  datatype Phase = Open | Draining | Closed

  /** `specs` and `last` remember every agent ever spawned and its last live snapshot. */
  datatype System = System(service: Service, tasks: map<Id, Task>, workers: seq<Option<Id>>, phase: Phase,
                           specs: map<Id, AgentSpec>, last: map<Id, Agent>, kinds: set<string>, maxSteps: nat)

  datatype Step =
    | Spawn(spec: AgentSpec, clock: Clock)
    | CancelAgent(id: Id, clock: Clock)
    | Pickup(worker: nat)
    | FirstStep(id: Id, clock: Clock)
    | Progress(id: Id, phase: string, fraction: Option<real>, clock: Clock)
    | Custom(id: Id, name: string)
    | ModelCall(id: Id)
    | Finish(id: Id, outcome: Outcome, clock: Clock)
    | SettleCancelled(id: Id, clock: Clock)
    | WorkerResumes(worker: nat)
    | Elsewhere(mutation: Mutation, clock: Clock)   // the rest of the service uses the same store
    | BeginClose(clock: Clock)
    | EndClose

  function Initial(store: StoreState, workers: nat, kinds: set<string>, maxSteps: nat): System {
    System(Service(Mirror(store, map[]), [], {}, false), map[], seq(if workers == 0 then 1 else workers, _ => None),
        Open,
           map[], map[], kinds, maxSteps)
  }

  /** The registry snapshots among a mutation's events. */
  function Noted(last: map<Id, Agent>, events: seq<StoreEvent>): map<Id, Agent>
    decreases |events|
  {
    if events == [] then last
    else
      var e := events[0];
      Noted(if e.AgentUpdated? then last[e.agent.agentId := e.agent] else last, events[1..])
  }

  predicate Has(s: System, id: Id, kind: Task -> bool) {
    id in s.tasks && id in s.specs && kind(s.tasks[id])
  }

  ghost predicate Enabled(s: System, step: Step) {
    && RunsHavePhases(s.service.mirror.store)
    && match step
       case Spawn(spec, _) => spec.agentId !in s.specs   // ids are fresh UUIDs
       case CancelAgent(_, _) => true
       case Pickup(w) => w < |s.workers| && s.workers[w] == None && s.service.queue != [] && s.phase != Closed
       case FirstStep(id, _) => Has(s, id, (t: Task) => t.Assigned?)
       case Progress(id, _, _, _) => Has(s, id, (t: Task) => t.Working?)
       case Custom(id, _) => Has(s, id, (t: Task) => t.Working?)
       case ModelCall(id) => Has(s, id, (t: Task) => t.Working?)
       case Finish(id, _, _) => Has(s, id, (t: Task) => t.Working?)
       case SettleCancelled(id, _) => Has(s, id, (t: Task) => t.Unwinding?)
       case WorkerResumes(w) => w < |s.workers| && s.workers[w].Some? && Has(s, s.workers[w].value, (t: Task) =>
           t.Ended?)
       case Elsewhere(m, _) => !m.RegisterAgent? && !m.UpdateAgent?
       case BeginClose(_) => s.phase == Open
       case EndClose => s.phase == Draining && forall id | id in s.service.running ::
           id in s.tasks && s.tasks[id].Ended?
  }

  /** The step budget of `AgentContext.generate`: every attempt counts, an over-budget one raises
      before it reaches the runtime. */
  function Budgeted(t: Task, maxSteps: nat): Task
    requires t.Working?
  {
    var steps := t.steps + 1;
    if maxSteps > 0 && steps > maxSteps then Working(steps, t.calls) else Working(steps, t.calls + 1)
  }

  function WithMirror(s: System, r: (Mirror, seq<StoreEvent>)): System {
    s.(service := s.service.(mirror := r.0), last := Noted(s.last, r.1))
  }

  function RequestCancel(tasks: map<Id, Task>, ids: set<Id>): map<Id, Task> {
    map id | id in tasks :: if id in ids && tasks[id].Assigned? then Assigned(true) else tasks[id]
  }

  ghost function Next(s: System, step: Step): System
    requires Enabled(s, step)
  {
    var m := s.service.mirror;
    match step
    case Spawn(spec, clock) =>
      var (service, reply, events) := SpawnOutcome(s.service, spec, s.kinds, clock);
      if reply == Spawned then s.(service := service, specs := s.specs[spec.agentId := spec],
          last := Noted(s.last, events)) else s
    case CancelAgent(id, clock) =>
      var (service, accepted, cancelTask, events) := CancelOutcome(s.service, id, clock);
      s.(service := service, last := Noted(s.last, events),
         tasks := if cancelTask then RequestCancel(s.tasks, {id}) else s.tasks)
    case Pickup(w) =>
      var spec := s.service.queue[0];
      s.(service := s.service.(queue := s.service.queue[1..], running := s.service.running + {spec.agentId}),
         tasks := s.tasks[spec.agentId := Assigned(false)], workers := s.workers[w := Some(spec.agentId)])
    case FirstStep(id, clock) =>
      if s.tasks[id].cancelRequested then s.(tasks := s.tasks[id := Ended(false, 0)])
      else
        var r := PickedUp(m, s.specs[id], clock);
        WithMirror(s, r).(tasks := s.tasks[id := if r.1 == [] then Ended(true, 0) else Working(0, 0)])
    case Progress(id, phase, fraction, clock) => WithMirror(s, Reported(m, s.specs[id], phase, fraction, clock))
    case Custom(id, name) =>
      var e := CustomRow(s.specs[id], name);
      s.(service := s.service.(mirror := m.(trails := Recorded(m.trails, e))))
    case ModelCall(id) => s.(tasks := s.tasks[id := Budgeted(s.tasks[id], s.maxSteps)])
    case Finish(id, outcome, clock) =>
      if outcome == RaisedCancelled then s.(tasks := s.tasks[id := Unwinding(s.tasks[id].calls)])
      else WithMirror(s, Finished(m, s.specs[id], outcome,
          clock)).(tasks := s.tasks[id := Ended(true, s.tasks[id].calls)])
    case SettleCancelled(id, clock) =>
      WithMirror(s, Finished(m, s.specs[id], RaisedCancelled,
          clock)).(tasks := s.tasks[id := Ended(true, s.tasks[id].calls)])
    case WorkerResumes(w) =>
      s.(service := s.service.(running := s.service.running - {s.workers[w].value}), workers := s.workers[w := None])
    case Elsewhere(mutation, clock) =>
      var (store, events) := Apply(m.store, mutation, clock);
      s.(service := s.service.(mirror := m.(store := store)))
    case BeginClose(clock) =>
      var r := Drained(m, s.service.queue, clock);
      WithMirror(s, r).(service := Service(r.0, [], s.service.running, true), phase := Draining,
                        tasks := RequestCancel(s.tasks, s.service.running))
    case EndClose =>
      s.(service := s.service.(running := {}), phase := Closed, workers := [])
  }

  ghost predicate Runs(s: System, steps: seq<Step>)
    decreases |steps|
  {
    steps == [] || (Enabled(s, steps[0]) && Runs(Next(s, steps[0]), steps[1..]))
  }

  ghost function After(s: System, steps: seq<Step>): System
    requires Runs(s, steps)
    decreases |steps|
  {
    if steps == [] then s else After(Next(s, steps[0]), steps[1..])
  }

  // ----- store and last snapshots -----

  /** `last` extends the registry, and an agent it shows unsettled is still registered. */
  ghost predicate LastOk(agents: map<Id, Agent>, last: map<Id, Agent>) {
    && (forall id | id in agents :: id in last && last[id] == agents[id])
    && (forall id | id in last && !last[id].state.Terminal() :: id in agents)
  }

  lemma {:induction false} NotedEvictions(s: StoreState, last: map<Id, Agent>)
    ensures Noted(last, EvictAgents(s).1) == last
    decreases |s.finishedAgents|
  {
    if |s.finishedAgents| > s.maxFinishedAgents {
      var (s1, events) := EvictAgent(s);
      NotedEvictions(s1, last);
      if events != [] {
        assert (events + EvictAgents(s1).1)[1..] == EvictAgents(s1).1;
      } else {
        assert events + EvictAgents(s1).1 == EvictAgents(s1).1;
      }
    }
  }

  /** What the runner relies on of the store. */
  ghost predicate RegistryOk(s: StoreState) {
    RunsHavePhases(s) && AgentsOk(s.agents, s.finishedAgents)
  }

  /** An update that settles an agent, with the evictions it causes. */
  lemma SettleOnLast(s: StoreState, last: map<Id, Agent>, id: Id, u: AgentUpdate, clock: Clock)
    requires RegistryOk(s) && LastOk(s.agents, last) && id in last && last[id].agentId == id
    requires !last[id].state.Terminal() && UpdatedAgent(last[id], u, clock.now).state.Terminal()
    ensures var (s', events) := Apply(s, UpdateAgent(id, u), clock);
            && RegistryOk(s') && LastOk(s'.agents, Noted(last, events))
            && events != [] && Noted(last, events) == last[id := UpdatedAgent(last[id], u, clock.now)]
  {
    var agent := UpdatedAgent(s.agents[id], u, clock.now);
    var (s', events) := Apply(s, UpdateAgent(id, u), clock);
    var middle := BeforeAgentEviction(s, id, agent);
    SettleKeepsAgentsOk(s.agents, s.finishedAgents, id, agent);
    EvictAgentsKeepsAgentsOk(middle);
    NotedEvictions(middle, last[id := agent]);
    assert events[1..] == EvictAgents(middle).1;
    LastAfterUpdate(s.agents, s'.agents, last, id, agent);
  }

  /** An update reaches exactly the unsettled agents, evicted or not, and becomes the last snapshot. */
  lemma UpdateOnLast(s: StoreState, last: map<Id, Agent>, id: Id, u: AgentUpdate, clock: Clock)
    requires RegistryOk(s) && LastOk(s.agents, last) && id in last && last[id].agentId == id
    ensures var (s', events) := Apply(s, UpdateAgent(id, u), clock);
            && RegistryOk(s') && LastOk(s'.agents, Noted(last, events))
            && (if last[id].state.Terminal() then events == [] && s' == s
                else events != [] && Noted(last, events) == last[id := UpdatedAgent(last[id], u, clock.now)])
  {
    if !last[id].state.Terminal() {
      var agent := UpdatedAgent(s.agents[id], u, clock.now);
      if agent.state.Terminal() {
        SettleOnLast(s, last, id, u, clock);
      } else {
        LiveKeepsAgentsOk(s.agents, s.finishedAgents, id, agent);
        assert Apply(s, UpdateAgent(id, u), clock).1[1..] == [];
        LastAfterUpdate(s.agents, s.agents[id := agent], last, id, agent);
      }
    }
  }

  lemma LastAfterUpdate(agents: map<Id, Agent>, after: map<Id, Agent>, last: map<Id, Agent>, id: Id, agent: Agent)
    requires LastOk(agents, last) && OnlyFinishedAgentsLeave(agents[id := agent], after)
    ensures LastOk(after, last[id := agent])
  {
  }

  lemma RegisterOnLast(s: StoreState, last: map<Id, Agent>, m: Mutation, clock: Clock)
    requires RegistryOk(s) && LastOk(s.agents, last) && m.RegisterAgent? && m.agentId !in s.agents
    ensures var (s', events) := Apply(s, m, clock);
            && RegistryOk(s') && m.agentId in s'.agents
            && LastOk(s'.agents, Noted(last, events)) && Noted(last, events) == last[m.agentId := s'.agents[m.agentId]]
  {
    var agent := Apply(s, m, clock).0.agents[m.agentId];
    LiveKeepsAgentsOk(s.agents, s.finishedAgents, m.agentId, agent);
    assert Apply(s, m, clock).1[1..] == [];
  }

  lemma ElsewhereKeepsAgents(s: StoreState, m: Mutation, clock: Clock)
    requires RegistryOk(s) && !m.RegisterAgent? && !m.UpdateAgent?
    ensures RegistryOk(Apply(s, m, clock).0) && Apply(s, m, clock).0.agents == s.agents
  {
    ApplyKeepsPhases(s, m, clock);
    OnlyAgentMutationsTouchAgents(s, m, clock);
  }

  // ----- the invariant -----

  function TaskOf(tasks: map<Id, Task>, id: Id): Option<Task> {
    if id in tasks then Some(tasks[id]) else None
  }

  ghost predicate Queued(queue: seq<AgentSpec>, id: Id) {
    exists k :: 0 <= k < |queue| && queue[k].agentId == id
  }

  predicate WithinBudget(calls: nat, maxSteps: nat) {
    maxSteps > 0 ==> calls <= maxSteps
  }

  /** One agent: its trail mirrors its last snapshot, and its state fits where it is. */
  ghost predicate AgentOk(spec: AgentSpec, a: Agent, trail: seq<AgentEvent>, task: Option<Task>, queued: bool,
                          running: bool, maxSteps: nat) {
    && a.agentId == spec.agentId && a.requestId == spec.requestId
    && Mirrors(trail, a)
    && match task
       case None => !running && (if queued then a.state != Running else a.state.Terminal())
       case Some(Assigned(_)) => running && !queued && a.state != Running
       case Some(Working(steps, calls)) =>
         running && !queued && a.state == Running
             && calls == (if maxSteps > 0 && steps > maxSteps then maxSteps else steps)
       case Some(Unwinding(calls)) => running && !queued && a.state == Running && WithinBudget(calls, maxSteps)
       case Some(Ended(entered, calls)) =>
           !queued && a.state != Running && (entered ==> a.state.Terminal()) && WithinBudget(calls, maxSteps)
  }

  ghost function QueuedIds(queue: seq<AgentSpec>): (r: set<Id>)
    ensures forall id :: id in r <==> Queued(queue, id)
  {
    set k | 0 <= k < |queue| :: queue[k].agentId
  }

  ghost predicate AgentOkIn(s: System, id: Id)
    requires id in s.specs && id in s.last
  {
    AgentOk(s.specs[id], s.last[id], TrailOf(s.service.mirror.trails, id), TaskOf(s.tasks, id),
            Queued(s.service.queue, id), id in s.service.running, s.maxSteps)
  }

  ghost predicate QueueSound(queue: seq<AgentSpec>, specs: map<Id, AgentSpec>) {
    && (forall k | 0 <= k < |queue| :: queue[k].agentId in specs && specs[queue[k].agentId] == queue[k])
    && (forall j, k | 0 <= j < k < |queue| :: queue[j].agentId != queue[k].agentId)
  }

  ghost predicate PhaseOk(s: System) {
    match s.phase
    case Open => !s.service.closed
    case Draining => s.service.closed && s.service.queue == []
    case Closed => s.service.closed && s.service.queue == [] && s.service.running == {}
                   && forall id | id in s.tasks :: s.tasks[id].Ended?
  }

  // ----- transitions of one agent -----

  lemma SpawnMirrors(spec: AgentSpec, now: Time, a: Agent)
    requires a.agentId == spec.agentId && a.kind == spec.kind && a.sessionId == spec.sessionId
            && a.requestId == spec.requestId
    requires a.state == Pending && a.progressPhase == None && a.progressFraction == None && a.lastResult == None
            && a.error == None
    ensures Mirrors([SpawnEvent(spec)], a)
  {
    assert [SpawnEvent(spec)] == [] + [SpawnEvent(spec)];
    MirrorsSnoc([], SpawnEvent(spec));
  }

  lemma StartMirrors(trail: seq<AgentEvent>, a: Agent, now: Time)
    requires Mirrors(trail, a) && a.state == Pending
    ensures Mirrors(trail + [AgentEvent(a.agentId, StartedEvent, a.requestId, Some(Running), NoPayload)],
                    UpdatedAgent(a, STATE_ONLY.(state := Some(Running)), now))
  {
    MirrorsSnoc(trail, AgentEvent(a.agentId, StartedEvent, a.requestId, Some(Running), NoPayload));
  }

  lemma ProgressMirrors(trail: seq<AgentEvent>, a: Agent, phase: string, fraction: Option<real>, now: Time)
    requires Mirrors(trail, a) && a.state == Running
    ensures Mirrors(trail + [AgentEvent(a.agentId, ProgressEvent, a.requestId, Some(Running),
            ProgressPayload(phase, fraction))],
                    UpdatedAgent(a, STATE_ONLY.(progressPhase := Some(phase), progressFraction := fraction), now))
  {
    MirrorsSnoc(trail, AgentEvent(a.agentId, ProgressEvent, a.requestId, Some(Running),
        ProgressPayload(phase, fraction)));
  }

  lemma CustomMirrors(trail: seq<AgentEvent>, a: Agent, name: string)
    requires Mirrors(trail, a) && a.state == Running
    ensures Mirrors(trail + [AgentEvent(a.agentId, CustomEvent(name), a.requestId, Some(Running), OtherPayload)], a)
  {
    MirrorsSnoc(trail, AgentEvent(a.agentId, CustomEvent(name), a.requestId, Some(Running), OtherPayload));
  }

  /** The payloads `_settle` is called with. */
  predicate SettleArguments(state: AgentState, result: Option<string>, error: Option<string>, payload: Payload) {
    match state
    case Completed => result.Some? && error == None
    case Failed => result == None && error.Some? && payload == ErrorPayload(error.value)
    case Cancelled => result == None && payload.ReasonPayload? && (error.Some? <==> payload.reason == WALL_CLOCK)
    case _ => false
  }

  lemma SettleMirrors(trail: seq<AgentEvent>, a: Agent, state: AgentState, result: Option<string>,
                      error: Option<string>, payload: Payload, now: Time)
    requires Mirrors(trail, a) && (a.state == Running || (a.state == Pending && state == Cancelled)) && state.Terminal()
    requires SettleArguments(state, result, error, payload)
    ensures var p := if result.Some? then ResultPayload(result.value) else payload;
            Mirrors(trail + [AgentEvent(a.agentId, TerminalType(state), a.requestId, Some(state), p)],
                    UpdatedAgent(a, AgentUpdate(Some(state), None, if state == Completed then Some(1.0) else None,
                        result, error), now))
  {
    var p := if result.Some? then ResultPayload(result.value) else payload;
    MirrorsSnoc(trail, AgentEvent(a.agentId, TerminalType(state), a.requestId, Some(state), p));
  }

  // ----- steps keep the invariant -----

  /** What one mirrored transition of agent `id` does: nothing, or one snapshot and one row. */
  ghost predicate MirrorStep(m: Mirror, last: map<Id, Agent>, r: (Mirror, seq<StoreEvent>), id: Id)
  {
    && RegistryOk(r.0.store) && LastOk(r.0.store.agents, Noted(last, r.1))
    && (forall other | other != id :: TrailOf(r.0.trails, other) == TrailOf(m.trails, other))
    && r.0.trails.Keys <= m.trails.Keys + {id}
    && id in last && Noted(last, r.1).Keys == last.Keys
    && (forall other | other in last && other != id :: Noted(last, r.1)[other] == last[other])
  }

  /** The store update and the audit row of a settling. */
  function SettleUpdate(state: AgentState, result: Option<string>, error: Option<string>): AgentUpdate {
    AgentUpdate(Some(state), None, if state == Completed then Some(1.0) else None, result, error)
  }

  function SettleRow(id: Id, state: AgentState, requestId: Option<Id>, result: Option<string>,
                     payload: Payload): AgentEvent
    requires state.Terminal()
  {
    AgentEvent(id, TerminalType(state), requestId, Some(state),
               if result.Some? then ResultPayload(result.value) else payload)
  }

  lemma SettledMirrorStep(m: Mirror, last: map<Id, Agent>, id: Id, state: AgentState, requestId: Option<Id>,
                          result: Option<string>, error: Option<string>, payload: Payload, clock: Clock)
    requires RegistryOk(m.store) && LastOk(m.store.agents, last) && id in last
            && last[id].agentId == id
    requires state.Terminal()
    ensures var r := SettledAs(m, id, state, requestId, result, error, payload, clock);
            && MirrorStep(m, last, r, id)
            && (r.1 == [] <==> last[id].state.Terminal())
            && (last[id].state.Terminal() ==> r.0 == m && Noted(last, r.1) == last)
            && (!last[id].state.Terminal() ==>
                  && Noted(last, r.1)[id] == UpdatedAgent(last[id], SettleUpdate(state, result, error), clock.now)
                  && TrailOf(r.0.trails, id)
                     == TrailOf(m.trails, id) + [SettleRow(id, state, requestId, result, payload)])
  {
    UpdateOnLast(m.store, last, id, SettleUpdate(state, result, error), clock);
  }

  lemma SettledAsStep(m: Mirror, last: map<Id, Agent>, id: Id, state: AgentState, requestId: Option<Id>,
                      result: Option<string>, error: Option<string>, payload: Payload, clock: Clock)
    requires RegistryOk(m.store) && LastOk(m.store.agents, last) && id in last
            && last[id].agentId == id
    requires last[id].requestId == requestId && state.Terminal() && SettleArguments(state, result, error, payload)
    requires Mirrors(TrailOf(m.trails, id), last[id])
    requires last[id].state == Pending ==> state == Cancelled
    ensures MirrorStep(m, last, SettledAs(m, id, state, requestId, result, error, payload, clock), id)
    ensures var r := SettledAs(m, id, state, requestId, result, error, payload, clock); var a' := Noted(last, r.1)[id];
            && a'.state.Terminal() && a'.agentId == id && a'.requestId == requestId
            && Mirrors(TrailOf(r.0.trails, id), a')
            && (r.1 == [] <==> last[id].state.Terminal())
            && (r.1 == [] ==> a' == last[id])
  {
    SettledMirrorStep(m, last, id, state, requestId, result, error, payload, clock);
    if !last[id].state.Terminal() {
      SettleMirrors(TrailOf(m.trails, id), last[id], state, result, error, payload, clock.now);
    }
  }

  lemma SettledAgentOk(spec: AgentSpec, a: Agent, a': Agent, trail: seq<AgentEvent>, trail': seq<AgentEvent>,
                       task: Option<Task>, task': Option<Task>, queued: bool, running: bool, maxSteps: nat)
    requires AgentOk(spec, a, trail, task, queued, running, maxSteps)
    requires a'.state.Terminal() && a'.agentId == a.agentId && a'.requestId == a.requestId && Mirrors(trail', a')
    requires if task' == task then task.Some? ==> !task.value.Working? && !task.value.Unwinding?
             else task.Some? && task'.Some? && task'.value.Ended? && WithinBudget(task'.value.calls, maxSteps)
    ensures AgentOk(spec, a', trail', task', queued, running, maxSteps)
  {
  }

  ghost predicate AllAgentsOk(s: System) {
    s.specs.Keys <= s.last.Keys && forall id {:trigger AgentOkIn(s, id)} | id in s.specs :: AgentOkIn(s, id)
  }

  /** Replacing one agent's part of the system keeps every other agent's. */
  lemma ReplaceOne(s: System, s': System, id: Id)
    requires AllAgentsOk(s) && id in s.specs
    requires s'.specs == s.specs && s'.maxSteps == s.maxSteps
    requires s'.service.queue == s.service.queue && s'.service.running == s.service.running
    requires s'.last.Keys == s.last.Keys && forall other | other in s.last && other != id ::
            s'.last[other] == s.last[other]
    requires s'.tasks.Keys == s.tasks.Keys && forall other | other in s.tasks && other != id ::
            s'.tasks[other] == s.tasks[other]
    requires forall other | other != id ::
            TrailOf(s'.service.mirror.trails, other) == TrailOf(s.service.mirror.trails, other)
    requires AgentOkIn(s', id)
    ensures AllAgentsOk(s')
  {
    forall other | other in s'.specs
      ensures AgentOkIn(s', other)
    {
      if other != id {
        assert AgentOkIn(s, other);
      }
    }
  }

  lemma SettledAgent(m: Mirror, last: map<Id, Agent>, spec: AgentSpec, state: AgentState, result: Option<string>,
                     error: Option<string>, payload: Payload, clock: Clock, task: Option<Task>, task': Option<Task>,
                     queued: bool, running: bool, maxSteps: nat)
    requires RegistryOk(m.store) && LastOk(m.store.agents, last) && spec.agentId in last
    requires AgentOk(spec, last[spec.agentId], TrailOf(m.trails, spec.agentId), task, queued, running, maxSteps)
    requires state.Terminal() && SettleArguments(state, result, error, payload)
    requires last[spec.agentId].state == Pending ==> state == Cancelled
    requires if task' == task then task.Some? ==> !task.value.Working? && !task.value.Unwinding?
             else task.Some? && task'.Some? && task'.value.Ended? && WithinBudget(task'.value.calls, maxSteps)
    ensures var r := SettledAs(m, spec.agentId, state, spec.requestId, result, error, payload, clock);
            && MirrorStep(m, last, r, spec.agentId)
            && AgentOk(spec, Noted(last, r.1)[spec.agentId], TrailOf(r.0.trails, spec.agentId), task', queued, running,
                 maxSteps)
            && Noted(last, r.1)[spec.agentId].state.Terminal()
  {
    var id := spec.agentId;
    SettledAsStep(m, last, id, state, spec.requestId, result, error, payload, clock);
    var r := SettledAs(m, id, state, spec.requestId, result, error, payload, clock);
    SettledAgentOk(spec, last[id], Noted(last, r.1)[id], TrailOf(m.trails, id), TrailOf(r.0.trails, id), task, task',
        queued, running, maxSteps);
  }

  ghost predicate InvRest(s: System) {
    && RegistryOk(s.service.mirror.store)
    && LastOk(s.service.mirror.store.agents, s.last)
    && (forall id | id in s.specs :: s.specs[id].agentId == id)
    && s.specs.Keys == s.last.Keys && s.tasks.Keys <= s.specs.Keys && s.service.running <= s.tasks.Keys
    && s.service.mirror.trails.Keys <= s.specs.Keys
    && QueueSound(s.service.queue, s.specs)
    && PhaseOk(s)
  }

  ghost predicate Inv(s: System) {
    InvRest(s) && AllAgentsOk(s)
  }

  lemma MirrorStepRest(s: System, r: (Mirror, seq<StoreEvent>), id: Id, tasks: map<Id, Task>)
    requires InvRest(s) && id in s.specs && MirrorStep(s.service.mirror, s.last, r, id)
    requires tasks.Keys == s.tasks.Keys && forall other | other in s.tasks && s.tasks[other].Ended? ::
            tasks[other].Ended?
    ensures InvRest(WithMirror(s, r).(tasks := tasks))
  {
    var s' := WithMirror(s, r).(tasks := tasks);
    assert s'.service.mirror.trails.Keys <= s'.specs.Keys;
    assert PhaseOk(s');
  }

  /** A mirrored transition of one agent, its task moved on or not. */
  lemma MirrorStepKeepsInv(s: System, r: (Mirror, seq<StoreEvent>), id: Id, tasks: map<Id, Task>)
    requires Inv(s) && id in s.specs && MirrorStep(s.service.mirror, s.last, r, id)
    requires tasks.Keys == s.tasks.Keys && forall other | other in s.tasks && other != id ::
            tasks[other] == s.tasks[other]
    requires id in s.tasks && s.tasks[id].Ended? ==> tasks[id].Ended?
    requires AgentOk(s.specs[id], Noted(s.last, r.1)[id], TrailOf(r.0.trails, id), TaskOf(tasks, id),
                     Queued(s.service.queue, id), id in s.service.running, s.maxSteps)
    ensures Inv(WithMirror(s, r).(tasks := tasks))
  {
    MirrorStepRest(s, r, id, tasks);
    MirrorStepAgents(s, r, id, tasks);
  }

  lemma MirrorStepAgents(s: System, r: (Mirror, seq<StoreEvent>), id: Id, tasks: map<Id, Task>)
    requires AllAgentsOk(s) && id in s.specs && MirrorStep(s.service.mirror, s.last, r, id)
    requires tasks.Keys == s.tasks.Keys && forall other | other in s.tasks && other != id ::
            tasks[other] == s.tasks[other]
    requires AgentOk(s.specs[id], Noted(s.last, r.1)[id], TrailOf(r.0.trails, id), TaskOf(tasks, id),
                     Queued(s.service.queue, id), id in s.service.running, s.maxSteps)
    ensures AllAgentsOk(WithMirror(s, r).(tasks := tasks))
  {
    var s' := WithMirror(s, r).(tasks := tasks);
    ReplaceOne(s, s', id);
  }

  /** A settle of one agent, wherever it is, with its task moved on or left alone. */
  lemma SettleKeepsInv(s: System, id: Id, state: AgentState, result: Option<string>, error: Option<string>,
                       payload: Payload, clock: Clock, tasks: map<Id, Task>)
    requires Inv(s) && id in s.specs && state.Terminal() && SettleArguments(state, result, error, payload)
    requires s.last[id].state == Pending ==> state == Cancelled
    requires tasks.Keys == s.tasks.Keys && forall other | other in s.tasks && other != id ::
            tasks[other] == s.tasks[other]
    requires id in tasks ==>
               if tasks[id] == s.tasks[id] then !tasks[id].Working? && !tasks[id].Unwinding?
               else tasks[id].Ended? && WithinBudget(tasks[id].calls, s.maxSteps)
    ensures s.specs[id].agentId == id
    ensures Inv(WithMirror(s, SettledAs(s.service.mirror, id, state, s.specs[id].requestId, result, error, payload,
            clock)).(tasks := tasks))
  {
    assert AgentOkIn(s, id);
    SettledAgent(s.service.mirror, s.last, s.specs[id], state, result, error, payload, clock, TaskOf(s.tasks, id),
        TaskOf(tasks, id),
                 Queued(s.service.queue, id), id in s.service.running, s.maxSteps);
    MirrorStepKeepsInv(s, SettledAs(s.service.mirror, id, state, s.specs[id].requestId, result, error, payload, clock),
        id, tasks);
  }

  lemma AcceptedSpawn(s: System, spec: AgentSpec, clock: Clock)
    requires InvRest(s) && Enabled(s, Spawn(spec, clock)) && !s.service.closed && spec.kind in s.kinds
    ensures var s' := Next(s, Spawn(spec, clock));
            && SpawnedFrom(s, s', spec) && RegistryOk(s'.service.mirror.store)
            && LastOk(s'.service.mirror.store.agents, s'.last) && JustSpawned(s'.last[spec.agentId], spec)
  {
    var id := spec.agentId;
    assert id !in s.service.mirror.store.agents;
    RegisterOnLast(s.service.mirror.store, s.last,
        RegisterAgent(id, spec.kind, spec.task, spec.sessionId, spec.requestId), clock);
  }

  ghost predicate JustSpawned(a: Agent, spec: AgentSpec) {
    && a.agentId == spec.agentId && a.kind == spec.kind && a.sessionId == spec.sessionId
    && a.requestId == spec.requestId && a.state == Pending && a.progressPhase == None && a.progressFraction == None
    && a.lastResult == None && a.error == None
  }

  lemma SpawnKeepsInv(s: System, spec: AgentSpec, clock: Clock)
    requires Inv(s) && Enabled(s, Spawn(spec, clock))
    ensures Inv(Next(s, Spawn(spec, clock)))
  {
    if !s.service.closed && spec.kind in s.kinds {
      AcceptedSpawn(s, spec, clock);
      var s' := Next(s, Spawn(spec, clock));
      SpawnRest(s, s', spec);
      SpawnAgents(s, s', spec);
    }
  }

  /** What an accepted spawn changes, besides the store. */
  ghost predicate SpawnedFrom(s: System, s': System, spec: AgentSpec) {
    && spec.agentId !in s.specs
    && s'.specs == s.specs[spec.agentId := spec] && s'.tasks == s.tasks && s'.phase == s.phase
         && s'.maxSteps == s.maxSteps
    && s'.service.queue == s.service.queue + [spec] && s'.service.running == s.service.running
         && s'.service.closed == s.service.closed
    && s'.service.mirror.trails == Recorded(s.service.mirror.trails, SpawnEvent(spec))
    && spec.agentId in s'.last && s'.last == s.last[spec.agentId := s'.last[spec.agentId]]
  }

  lemma SpawnRest(s: System, s': System, spec: AgentSpec)
    requires InvRest(s) && SpawnedFrom(s, s', spec) && !s.service.closed
    requires RegistryOk(s'.service.mirror.store)
            && LastOk(s'.service.mirror.store.agents, s'.last)
    ensures InvRest(s')
  {
    assert QueueSound(s'.service.queue, s'.specs);
  }

  lemma SpawnedAgent(s: System, s': System, spec: AgentSpec)
    requires InvRest(s) && SpawnedFrom(s, s', spec)
    requires JustSpawned(s'.last[spec.agentId], spec)
    ensures AgentOkIn(s', spec.agentId)
  {
    var id := spec.agentId;
    SpawnMirrors(spec, 0, s'.last[id]);
    assert TrailOf(s'.service.mirror.trails, id) == [SpawnEvent(spec)];
    assert s'.service.queue[|s.service.queue|] == spec;
  }

  lemma OtherAgent(s: System, s': System, spec: AgentSpec, other: Id)
    requires SpawnedFrom(s, s', spec) && other in s.specs && other in s.last && AgentOkIn(s, other)
    ensures other in s'.specs && other in s'.last && AgentOkIn(s', other)
  {
    QueuedSnoc(s.service.queue, spec, other);
    assert TrailOf(s'.service.mirror.trails, other) == TrailOf(s.service.mirror.trails, other);
  }

  lemma SpawnAgents(s: System, s': System, spec: AgentSpec)
    requires AllAgentsOk(s) && InvRest(s) && SpawnedFrom(s, s', spec)
    requires JustSpawned(s'.last[spec.agentId], spec)
    ensures AllAgentsOk(s')
  {
    SpawnedAgent(s, s', spec);
    forall other | other in s.specs
      ensures other in s'.last && AgentOkIn(s', other)
    {
      assert AgentOkIn(s, other);
      OtherAgent(s, s', spec, other);
    }
  }

  lemma QueuedSnoc(queue: seq<AgentSpec>, spec: AgentSpec, id: Id)
    ensures Queued(queue + [spec], id) <==> Queued(queue, id) || spec.agentId == id
  {
    if Queued(queue, id) {
      var k :| 0 <= k < |queue| && queue[k].agentId == id;
      assert (queue + [spec])[k].agentId == id;
    }
    assert (queue + [spec])[|queue|] == spec;
  }

  lemma RequestCancelAgent(s: System, ids: set<Id>, id: Id)
    requires id in s.specs && id in s.last && AgentOkIn(s, id)
    ensures AgentOkIn(s.(tasks := RequestCancel(s.tasks, ids)), id)
  {
  }

  lemma RequestCancelRest(s: System, ids: set<Id>)
    requires InvRest(s)
    ensures InvRest(s.(tasks := RequestCancel(s.tasks, ids)))
  {
  }

  lemma RequestCancelKeepsInv(s: System, ids: set<Id>)
    requires Inv(s)
    ensures Inv(s.(tasks := RequestCancel(s.tasks, ids)))
  {
    var s' := s.(tasks := RequestCancel(s.tasks, ids));
    RequestCancelRest(s, ids);
    forall id | id in s'.specs
      ensures AgentOkIn(s', id)
    {
      assert AgentOkIn(s, id);
      RequestCancelAgent(s, ids, id);
    }
  }

  lemma CancelKeepsInv(s: System, id: Id, clock: Clock)
    requires Inv(s) && Enabled(s, CancelAgent(id, clock))
    ensures Inv(Next(s, CancelAgent(id, clock)))
  {
    var agents := s.service.mirror.store.agents;
    if id in agents && !agents[id].state.Terminal() {
      assert id in s.specs && s.last[id] == agents[id];
      assert AgentOkIn(s, id);
      if id in s.service.running {
        RequestCancelKeepsInv(s, {id});
        assert Next(s, CancelAgent(id, clock)) == s.(tasks := RequestCancel(s.tasks, {id}));
      } else if agents[id].state == Pending {
        SettleKeepsInv(s, id, Cancelled, None, None, ReasonPayload("cancelled while pending"), clock, s.tasks);
        var r := SettledAs(s.service.mirror, id, Cancelled, s.specs[id].requestId, None, None,
            ReasonPayload("cancelled while pending"), clock);
        assert Next(s, CancelAgent(id, clock)) == WithMirror(s, r).(tasks := s.tasks);
      }
    }
  }

  lemma PickupRest(s: System, w: nat)
    requires InvRest(s) && Enabled(s, Pickup(w)) && s.service.queue[0].agentId !in s.tasks
    ensures InvRest(Next(s, Pickup(w)))
  {
    var s' := Next(s, Pickup(w));
    assert s.service.queue[0].agentId in s.specs;
    assert QueueSound(s'.service.queue, s'.specs);
    assert PhaseOk(s');
  }

  lemma PickupAgents(s: System, s': System)
    requires AllAgentsOk(s) && s.service.queue != [] && QueueSound(s.service.queue, s.specs)
    requires s'.specs == s.specs && s'.last == s.last && s'.service.mirror == s.service.mirror
            && s'.maxSteps == s.maxSteps
    requires s'.service.queue == s.service.queue[1..]
    requires s'.service.running == s.service.running + {s.service.queue[0].agentId}
    requires s'.tasks == s.tasks[s.service.queue[0].agentId := Assigned(false)]
    requires TaskOf(s.tasks, s.service.queue[0].agentId) == None
    ensures AllAgentsOk(s')
  {
    var q := s.service.queue;
    assert Queued(q, q[0].agentId);
    forall other | other in s'.specs
      ensures AgentOkIn(s', other)
    {
      assert AgentOkIn(s, other);
      QueuedTail(q, s.specs, other);
    }
  }

  lemma PickupKeepsInv(s: System, w: nat)
    requires Inv(s) && Enabled(s, Pickup(w))
    ensures Inv(Next(s, Pickup(w)))
  {
    var id := s.service.queue[0].agentId;
    assert Queued(s.service.queue, id);
    assert AgentOkIn(s, id);
    PickupRest(s, w);
    PickupAgents(s, Next(s, Pickup(w)));
  }

  lemma QueuedTail(queue: seq<AgentSpec>, specs: map<Id, AgentSpec>, id: Id)
    requires queue != [] && QueueSound(queue, specs)
    ensures Queued(queue[1..], id) <==> Queued(queue, id) && id != queue[0].agentId
  {
    if Queued(queue, id) && id != queue[0].agentId {
      var k :| 0 <= k < |queue| && queue[k].agentId == id;
      assert queue[1..][k - 1].agentId == id;
    }
    if Queued(queue[1..], id) {
      var k :| 0 <= k < |queue[1..]| && queue[1..][k].agentId == id;
      assert queue[k + 1].agentId == id;
    }
  }

  /** A step that only moves one agent's task. */
  lemma TaskStepKeepsInv(s: System, id: Id, task: Task)
    requires Inv(s) && id in s.specs && id in s.tasks && (s.tasks[id].Ended? ==> task.Ended?)
    requires AgentOk(s.specs[id], s.last[id], TrailOf(s.service.mirror.trails, id), Some(task),
            Queued(s.service.queue, id), id in s.service.running, s.maxSteps)
    ensures Inv(s.(tasks := s.tasks[id := task]))
  {
    var s' := s.(tasks := s.tasks[id := task]);
    ReplaceOne(s, s', id);
    assert InvRest(s');
  }

  lemma PickedUpAgent(m: Mirror, last: map<Id, Agent>, spec: AgentSpec, clock: Clock, queued: bool, running: bool,
                      maxSteps: nat)
    requires RegistryOk(m.store) && LastOk(m.store.agents, last) && spec.agentId in last
    requires AgentOk(spec, last[spec.agentId], TrailOf(m.trails, spec.agentId), Some(Assigned(false)), queued, running,
            maxSteps)
    ensures var r := PickedUp(m, spec, clock);
            && MirrorStep(m, last, r, spec.agentId)
            && AgentOk(spec, Noted(last, r.1)[spec.agentId], TrailOf(r.0.trails, spec.agentId),
                       Some(if r.1 == [] then Ended(true, 0) else Working(0, 0)), queued, running, maxSteps)
  {
    var id := spec.agentId;
    UpdateOnLast(m.store, last, id, STATE_ONLY.(state := Some(Running)), clock);
    if last[id].state == Pending {
      StartMirrors(TrailOf(m.trails, id), last[id], clock.now);
    }
  }

  lemma EnterKeepsInv(s: System, id: Id, clock: Clock)
    requires Inv(s) && id in s.specs && id in s.tasks && s.tasks[id] == Assigned(false)
    ensures var r := PickedUp(s.service.mirror, s.specs[id], clock);
            Inv(WithMirror(s, r).(tasks := s.tasks[id := if r.1 == [] then Ended(true, 0) else Working(0, 0)]))
  {
    var queued, running := Queued(s.service.queue, id), id in s.service.running;
    assert s.specs[id].agentId == id;
    assert AgentOk(s.specs[id], s.last[id], TrailOf(s.service.mirror.trails, id), Some(Assigned(false)), queued,
        running, s.maxSteps) by {
      assert AgentOkIn(s, id);
    }
    PickedUpAgent(s.service.mirror, s.last, s.specs[id], clock, queued, running, s.maxSteps);
    var r := PickedUp(s.service.mirror, s.specs[id], clock);
    MirrorTaskKeepsInv(s, r, id, if r.1 == [] then Ended(true, 0) else Working(0, 0));
  }

  lemma MirrorTaskKeepsInv(s: System, r: (Mirror, seq<StoreEvent>), id: Id, task: Task)
    requires Inv(s) && id in s.specs && MirrorStep(s.service.mirror, s.last, r, id)
    requires id in s.tasks && !s.tasks[id].Ended?
    requires AgentOk(s.specs[id], Noted(s.last, r.1)[id], TrailOf(r.0.trails, id), Some(task),
                     Queued(s.service.queue, id), id in s.service.running, s.maxSteps)
    ensures Inv(WithMirror(s, r).(tasks := s.tasks[id := task]))
  {
    MirrorStepKeepsInv(s, r, id, s.tasks[id := task]);
  }

  lemma SkipKeepsInv(s: System, id: Id)
    requires Inv(s) && id in s.specs && id in s.tasks && s.tasks[id] == Assigned(true)
    ensures Inv(s.(tasks := s.tasks[id := Ended(false, 0)]))
  {
    assert AgentOkIn(s, id);
    TaskStepKeepsInv(s, id, Ended(false, 0));
  }

  lemma FirstStepKeepsInv(s: System, id: Id, clock: Clock)
    requires Inv(s) && Enabled(s, FirstStep(id, clock))
    ensures Inv(Next(s, FirstStep(id, clock)))
  {
    if s.tasks[id].cancelRequested {
      SkipKeepsInv(s, id);
    } else {
      EnterKeepsInv(s, id, clock);
    }
  }

  lemma ReportedAgent(m: Mirror, last: map<Id, Agent>, spec: AgentSpec, phase: string, fraction: Option<real>,
                      clock: Clock, task: Task, queued: bool, running: bool, maxSteps: nat)
    requires RegistryOk(m.store) && LastOk(m.store.agents, last) && spec.agentId in last
            && task.Working?
    requires AgentOk(spec, last[spec.agentId], TrailOf(m.trails, spec.agentId), Some(task), queued, running, maxSteps)
    ensures var r := Reported(m, spec, phase, fraction, clock);
            && MirrorStep(m, last, r, spec.agentId)
            && AgentOk(spec, Noted(last, r.1)[spec.agentId], TrailOf(r.0.trails, spec.agentId), Some(task), queued,
                 running, maxSteps)
  {
    var id := spec.agentId;
    UpdateOnLast(m.store, last, id, STATE_ONLY.(progressPhase := Some(phase), progressFraction := fraction), clock);
    ProgressMirrors(TrailOf(m.trails, id), last[id], phase, fraction, clock.now);
  }

  lemma ProgressKeepsInv(s: System, id: Id, phase: string, fraction: Option<real>, clock: Clock)
    requires Inv(s) && Enabled(s, Progress(id, phase, fraction, clock))
    ensures Inv(Next(s, Progress(id, phase, fraction, clock)))
  {
    assert AgentOkIn(s, id);
    ReportedAgent(s.service.mirror, s.last, s.specs[id], phase, fraction, clock, s.tasks[id],
        Queued(s.service.queue, id), id in s.service.running, s.maxSteps);
    var r := Reported(s.service.mirror, s.specs[id], phase, fraction, clock);
    MirrorStepKeepsInv(s, r, id, s.tasks);
    assert WithMirror(s, r).(tasks := s.tasks) == WithMirror(s, r);
  }

  function CustomRow(spec: AgentSpec, name: string): AgentEvent {
    AgentEvent(spec.agentId, CustomEvent(name), spec.requestId, Some(Running), OtherPayload)
  }

  lemma CustomAgent(m: Mirror, last: map<Id, Agent>, spec: AgentSpec, name: string, task: Task, queued: bool,
                    running: bool, maxSteps: nat)
    requires RegistryOk(m.store) && LastOk(m.store.agents, last) && spec.agentId in last
            && task.Working?
    requires AgentOk(spec, last[spec.agentId], TrailOf(m.trails, spec.agentId), Some(task), queued, running, maxSteps)
    ensures var r := (m.(trails := Recorded(m.trails, CustomRow(spec, name))), []);
            && MirrorStep(m, last, r, spec.agentId)
            && AgentOk(spec, Noted(last, [])[spec.agentId], TrailOf(r.0.trails, spec.agentId), Some(task), queued,
                 running, maxSteps)
  {
    CustomMirrors(TrailOf(m.trails, spec.agentId), last[spec.agentId], name);
  }

  lemma CustomKeepsInv(s: System, id: Id, name: string)
    requires Inv(s) && Enabled(s, Custom(id, name))
    ensures Inv(Next(s, Custom(id, name)))
  {
    assert AgentOkIn(s, id);
    var m := s.service.mirror;
    CustomAgent(m, s.last, s.specs[id], name, s.tasks[id], Queued(s.service.queue, id), id in s.service.running,
        s.maxSteps);
    var r: (Mirror, seq<StoreEvent>) := (m.(trails := Recorded(m.trails, CustomRow(s.specs[id], name))), []);
    MirrorStepKeepsInv(s, r, id, s.tasks);
    assert WithMirror(s, r).(tasks := s.tasks) == Next(s, Custom(id, name));
  }

  lemma FinishKeepsInv(s: System, id: Id, outcome: Outcome, clock: Clock)
    requires Inv(s) && Has(s, id, (t: Task) => t.Working? || t.Unwinding?)
    ensures Inv(WithMirror(s, Finished(s.service.mirror, s.specs[id], outcome,
            clock)).(tasks := s.tasks[id := Ended(true, s.tasks[id].calls)]))
  {
    assert AgentOkIn(s, id);
    var (state, result, error, payload) := Verdict(outcome);
    SettleKeepsInv(s, id, state, result, error, payload, clock, s.tasks[id := Ended(true, s.tasks[id].calls)]);
  }

  lemma ModelCallKeepsInv(s: System, id: Id)
    requires Inv(s) && Enabled(s, ModelCall(id))
    ensures Inv(Next(s, ModelCall(id)))
  {
    assert AgentOkIn(s, id);
    TaskStepKeepsInv(s, id, Budgeted(s.tasks[id], s.maxSteps));
  }

  lemma UnwindKeepsInv(s: System, id: Id)
    requires Inv(s) && Has(s, id, (t: Task) => t.Working?)
    ensures Inv(s.(tasks := s.tasks[id := Unwinding(s.tasks[id].calls)]))
  {
    assert AgentOkIn(s, id);
    TaskStepKeepsInv(s, id, Unwinding(s.tasks[id].calls));
  }

  lemma WorkerResumesKeepsInv(s: System, w: nat)
    requires Inv(s) && Enabled(s, WorkerResumes(w))
    ensures Inv(Next(s, WorkerResumes(w)))
  {
    var s' := Next(s, WorkerResumes(w));
    forall id | id in s'.specs
      ensures AgentOkIn(s', id)
    {
      assert AgentOkIn(s, id);
    }
    assert PhaseOk(s') by { assert PhaseOk(s); }
  }

  lemma EndCloseKeepsInv(s: System)
    requires Inv(s) && Enabled(s, EndClose)
    ensures Inv(Next(s, EndClose))
  {
    var s' := Next(s, EndClose);
    forall id | id in s'.specs
      ensures AgentOkIn(s', id) && (id in s.tasks ==> s.tasks[id].Ended?)
    {
      assert AgentOkIn(s, id);
    }
  }

  lemma {:induction false} NotedAppend(last: map<Id, Agent>, a: seq<StoreEvent>, b: seq<StoreEvent>)
    ensures Noted(last, a + b) == Noted(Noted(last, a), b)
    decreases |a|
  {
    if a == [] {
      assert a + b == b;
    } else {
      assert (a + b)[1..] == a[1..] + b;
      NotedAppend(if a[0].AgentUpdated? then last[a[0].agent.agentId := a[0].agent] else last, a[1..], b);
    }
  }

  ghost predicate Drainable(s: System, spec: AgentSpec) {
    && spec.agentId in s.specs && s.specs[spec.agentId] == spec && spec.agentId !in s.tasks
    && spec.agentId in s.last && s.last[spec.agentId].state != Running
  }

  /** What draining leaves of the last snapshots: the agents in `ids` settled, the others as they were. */
  ghost predicate SettledOnly(before: map<Id, Agent>, after: map<Id, Agent>, ids: set<Id>) {
    && after.Keys == before.Keys
    && (forall id | id in before && (before[id].state.Terminal() || id !in ids) :: after[id] == before[id])
    && (forall id | id in before && id in ids :: after[id].state.Terminal())
  }

  function ShutdownSettle(m: Mirror, spec: AgentSpec, clock: Clock): (Mirror, seq<StoreEvent>)
    requires RunsHavePhases(m.store)
  {
    SettledAs(m, spec.agentId, Cancelled, spec.requestId, None, None, ReasonPayload("service shutdown before start"),
        clock)
  }

  lemma DrainOneSettles(s: System, spec: AgentSpec, clock: Clock)
    requires Inv(s) && Drainable(s, spec)
    ensures SettledOnly(s.last, Noted(s.last, ShutdownSettle(s.service.mirror, spec, clock).1), {spec.agentId})
  {
    assert AgentOkIn(s, spec.agentId);
    SettledAsStep(s.service.mirror, s.last, spec.agentId, Cancelled, spec.requestId, None, None,
        ReasonPayload("service shutdown before start"), clock);
  }

  lemma DrainOne(s: System, spec: AgentSpec, clock: Clock)
    requires Inv(s) && Drainable(s, spec)
    ensures Inv(WithMirror(s, ShutdownSettle(s.service.mirror, spec, clock)))
    ensures SettledOnly(s.last, Noted(s.last, ShutdownSettle(s.service.mirror, spec, clock).1), {spec.agentId})
  {
    SettleKeepsInv(s, spec.agentId, Cancelled, None, None, ReasonPayload("service shutdown before start"), clock,
        s.tasks);
    var s' := WithMirror(s, ShutdownSettle(s.service.mirror, spec, clock));
    assert s' == s'.(tasks := s.tasks);
    DrainOneSettles(s, spec, clock);
  }

  lemma StillDrainable(s: System, queue: seq<AgentSpec>, s1: System)
    requires queue != [] && forall k | 0 <= k < |queue| :: Drainable(s, queue[k])
    requires s1.specs == s.specs && s1.tasks == s.tasks && SettledOnly(s.last, s1.last, {queue[0].agentId})
    ensures forall k | 0 <= k < |queue[1..]| :: Drainable(s1, queue[1..][k])
  {
    forall k | 0 <= k < |queue[1..]|
      ensures Drainable(s1, queue[1..][k])
    {
      assert Drainable(s, queue[k + 1]);
    }
  }

  lemma DrainedIs(s: System, queue: seq<AgentSpec>, clock: Clock)
    requires RunsHavePhases(s.service.mirror.store) && queue != []
    ensures var r1 := ShutdownSettle(s.service.mirror, queue[0], clock);
            && RunsHavePhases(r1.0.store)
            && var s1 := WithMirror(s, r1);
            var r2 := Drained(s1.service.mirror, queue[1..], clock);
            && WithMirror(s, Drained(s.service.mirror, queue, clock)) == WithMirror(s1, r2)
            && Noted(s.last, Drained(s.service.mirror, queue, clock).1) == Noted(s1.last, r2.1)
  {
    var r1 := ShutdownSettle(s.service.mirror, queue[0], clock);
    NotedAppend(s.last, r1.1, Drained(r1.0, queue[1..], clock).1);
  }

  /** Draining settles exactly the queued agents that were still unsettled. */
  lemma {:induction false} DrainKeepsInv(s: System, queue: seq<AgentSpec>, clock: Clock)
    requires Inv(s)
    requires forall k | 0 <= k < |queue| :: Drainable(s, queue[k])
    ensures Inv(WithMirror(s, Drained(s.service.mirror, queue, clock)))
    ensures SettledOnly(s.last, Noted(s.last, Drained(s.service.mirror, queue, clock).1), QueuedIds(queue))
    decreases |queue|
  {
    if queue == [] {
      assert WithMirror(s, (s.service.mirror, [])) == s;
    } else {
      DrainOne(s, queue[0], clock);
      DrainedIs(s, queue, clock);
      var s1 := WithMirror(s, ShutdownSettle(s.service.mirror, queue[0], clock));
      StillDrainable(s, queue, s1);
      DrainKeepsInv(s1, queue[1..], clock);
      SettledOnlyTwice(s.last, s1.last, Noted(s1.last, Drained(s1.service.mirror, queue[1..], clock).1), queue);
    }
  }

  lemma SettledOnlyTwice(a: map<Id, Agent>, b: map<Id, Agent>, c: map<Id, Agent>, queue: seq<AgentSpec>)
    requires queue != []
    requires SettledOnly(a, b, {queue[0].agentId}) && SettledOnly(b, c, QueuedIds(queue[1..]))
    ensures SettledOnly(a, c, QueuedIds(queue))
  {
    assert queue == [queue[0]] + queue[1..];
    forall id ensures id in QueuedIds(queue) <==> id == queue[0].agentId || id in QueuedIds(queue[1..]) {
      QueuedCons(queue[0], queue[1..], id);
    }
  }

  lemma QueuedCons(spec: AgentSpec, queue: seq<AgentSpec>, id: Id)
    ensures Queued([spec] + queue, id) <==> spec.agentId == id || Queued(queue, id)
  {
    assert ([spec] + queue)[0] == spec;
    if Queued(queue, id) {
      var k :| 0 <= k < |queue| && queue[k].agentId == id;
      assert ([spec] + queue)[k + 1].agentId == id;
    }
    if Queued([spec] + queue, id) && spec.agentId != id {
      var k :| 0 <= k < |[spec] + queue| && ([spec] + queue)[k].agentId == id;
      assert queue[k - 1].agentId == id;
    }
  }

  lemma QueueDrainable(s: System)
    requires Inv(s)
    ensures forall k | 0 <= k < |s.service.queue| :: Drainable(s, s.service.queue[k])
  {
    var q := s.service.queue;
    forall k | 0 <= k < |q|
      ensures Drainable(s, q[k])
    {
      assert Queued(q, q[k].agentId);
      assert AgentOkIn(s, q[k].agentId);
    }
  }

  lemma BeginCloseKeepsInv(s: System, clock: Clock)
    requires Inv(s) && Enabled(s, BeginClose(clock))
    ensures Inv(Next(s, BeginClose(clock)))
  {
    var q := s.service.queue;
    QueueDrainable(s);
    DrainKeepsInv(s, q, clock);
    var s1 := WithMirror(s, Drained(s.service.mirror, q, clock));
    RequestCancelKeepsInv(s1, s.service.running);
    var s2 := s1.(tasks := RequestCancel(s.tasks, s.service.running));
    var s' := Next(s, BeginClose(clock));
    assert s' == s2.(service := Service(s2.service.mirror, [], s.service.running, true), phase := Draining);
    EmptyQueueKeepsInv(s2, s');
  }

  lemma EmptyQueueKeepsInv(s: System, s': System)
    requires Inv(s) && s' == s.(service := Service(s.service.mirror, [], s.service.running, true), phase := Draining)
    requires forall id | id in s.last && Queued(s.service.queue, id) :: s.last[id].state.Terminal()
    ensures Inv(s')
  {
    forall id | id in s'.specs
      ensures AgentOkIn(s', id)
    {
      assert AgentOkIn(s, id);
    }
  }

  lemma StepKeepsInv(s: System, step: Step)
    requires Inv(s) && Enabled(s, step)
    ensures Inv(Next(s, step))
  {
    match step
    case Spawn(spec, clock) => SpawnKeepsInv(s, spec, clock);
    case CancelAgent(id, clock) => CancelKeepsInv(s, id, clock);
    case Pickup(w) => PickupKeepsInv(s, w);
    case FirstStep(id, clock) => FirstStepKeepsInv(s, id, clock);
    case Progress(id, phase, fraction, clock) => ProgressKeepsInv(s, id, phase, fraction, clock);
    case Custom(id, name) => CustomKeepsInv(s, id, name);
    case ModelCall(id) => ModelCallKeepsInv(s, id);
    case Finish(id, outcome, clock) =>
      if outcome == RaisedCancelled {
        UnwindKeepsInv(s, id);
      } else {
        FinishKeepsInv(s, id, outcome, clock);
      }
    case SettleCancelled(id, clock) => FinishKeepsInv(s, id, RaisedCancelled, clock);
    case WorkerResumes(w) => WorkerResumesKeepsInv(s, w);
    case Elsewhere(mutation, clock) => ElsewhereKeepsInv(s, mutation, clock);
    case BeginClose(clock) => BeginCloseKeepsInv(s, clock);
    case EndClose => EndCloseKeepsInv(s);
  }

  lemma ElsewhereKeepsInv(s: System, mutation: Mutation, clock: Clock)
    requires Inv(s) && Enabled(s, Elsewhere(mutation, clock))
    ensures Inv(Next(s, Elsewhere(mutation, clock)))
  {
    var s' := Next(s, Elsewhere(mutation, clock));
    ElsewhereKeepsAgents(s.service.mirror.store, mutation, clock);
    forall id | id in s'.specs
      ensures AgentOkIn(s', id)
    {
      assert AgentOkIn(s, id);
    }
  }

  lemma {:induction false} RunKeepsInv(s: System, steps: seq<Step>)
    requires Inv(s) && Runs(s, steps)
    ensures Inv(After(s, steps))
    decreases |steps|
  {
    if steps != [] {
      StepKeepsInv(s, steps[0]);
      RunKeepsInv(Next(s, steps[0]), steps[1..]);
    }
  }

  ghost predicate Reachable(s: System) {
    exists maxRuns: int, maxAgents: int, workers: nat, kinds: set<string>, maxSteps: nat, steps ::
      Runs(Initial(EmptyStore(maxRuns, maxAgents), workers, kinds, maxSteps), steps) &&
      After(Initial(EmptyStore(maxRuns, maxAgents), workers, kinds, maxSteps), steps) == s
  }

  lemma ReachableInv(s: System)
    requires Reachable(s)
    ensures Inv(s)
  {
    var maxRuns: int, maxAgents: int, workers: nat, kinds: set<string>, maxSteps: nat, steps :|
      Runs(Initial(EmptyStore(maxRuns, maxAgents), workers, kinds, maxSteps), steps) &&
      After(Initial(EmptyStore(maxRuns, maxAgents), workers, kinds, maxSteps), steps) == s;
    RunKeepsInv(Initial(EmptyStore(maxRuns, maxAgents), workers, kinds, maxSteps), steps);
  }
}
