/** The runner object of `backend/app/orchestration/runner.py`: every lifecycle transition is written
    to the store's agent registry and to the audit trail in one step.  Store calls never suspend,
    because the store's lock is never held across a suspension point. */
module AgentRunner {
  import opened Basics
  import opened Store
  import opened AgentTrail
  import opened S = StateStore

  datatype AgentSpec = AgentSpec(agentId: Id, kind: string, task: string, requestId: Option<Id>, sessionId: Option<Id>)

  /** The audit rows of each agent, oldest first. */
  type Trails = map<Id, seq<AgentEvent>>

  function TrailOf(trails: Trails, id: Id): seq<AgentEvent> {
    if id in trails then trails[id] else []
  }

  function Recorded(trails: Trails, e: AgentEvent): Trails {
    trails[e.agentId := TrailOf(trails, e.agentId) + [e]]
  }

  /** Live state and audit, the two sides every transition is mirrored to. */
  datatype Mirror = Mirror(store: StoreState, trails: Trails)

  datatype Service = Service(mirror: Mirror, queue: seq<AgentSpec>, running: set<Id>, closed: bool)

  datatype SpawnReply = Spawned | ShutDown | UnknownKind | DuplicateId

  /** The ways `agent.run` can end for the runner. */
  datatype Outcome =
    | Returned(summary: string)
    | Raised(error: string)
    | GenerationTimeout(error: string)
    | WallClockTimeout(error: string)
    | RaisedCancelled

  const STATE_ONLY := AgentUpdate(None, None, None, None, None)

  // ----- specification -----

  function SpawnEvent(spec: AgentSpec): AgentEvent {
    AgentEvent(spec.agentId, SpawnedEvent, spec.requestId, Some(Pending),
        SpawnPayload(spec.kind, spec.task, spec.sessionId))
  }

  function SpawnOutcome(s: Service, spec: AgentSpec, kinds: set<string>,
                        clock: Clock): (r: (Service, SpawnReply, seq<StoreEvent>))
    requires RunsHavePhases(s.mirror.store)
  {
    if s.closed then (s, ShutDown, [])
    else if spec.kind !in kinds then (s, UnknownKind, [])
    else if spec.agentId in s.mirror.store.agents then (s, DuplicateId, [])
    else
      var (store, events) := Apply(s.mirror.store,
          RegisterAgent(spec.agentId, spec.kind, spec.task, spec.sessionId, spec.requestId), clock);
      (s.(mirror := Mirror(store, Recorded(s.mirror.trails, SpawnEvent(spec))), queue := s.queue + [spec]), Spawned,
          events)
  }

  function TerminalType(state: AgentState): EventType
    requires state.Terminal()
  {
    match state case Completed => CompletedEvent case Failed => FailedEvent case Cancelled => CancelledEvent
  }

  /** `_settle`: the first terminal transition wins and is the only one audited. */
  function SettledAs(m: Mirror, id: Id, state: AgentState, requestId: Option<Id>, result: Option<string>,
                     error: Option<string>, payload: Payload, clock: Clock): (r: (Mirror, seq<StoreEvent>))
    requires RunsHavePhases(m.store) && state.Terminal()
    ensures r.0.store.runs == m.store.runs
  {
    var update := AgentUpdate(Some(state), None, if state == Completed then Some(1.0) else None, result, error);
    var (store, events) := Apply(m.store, UpdateAgent(id, update), clock);
    if events == [] then (m, [])
    else
      var p := if result.Some? then ResultPayload(result.value) else payload;
      (Mirror(store, Recorded(m.trails, AgentEvent(id, TerminalType(state), requestId, Some(state), p))), events)
  }

  /** `_execute` up to `agent.run`: the pickup gate. */
  function PickedUp(m: Mirror, spec: AgentSpec, clock: Clock): (r: (Mirror, seq<StoreEvent>))
    requires RunsHavePhases(m.store)
  {
    var (store, events) := Apply(m.store, UpdateAgent(spec.agentId, STATE_ONLY.(state := Some(Running))), clock);
    if events == [] then (m, [])
    else (Mirror(store, Recorded(m.trails,
        AgentEvent(spec.agentId, StartedEvent, spec.requestId, Some(Running), NoPayload))), events)
  }

  function Reported(m: Mirror, spec: AgentSpec, phase: string, fraction: Option<real>,
                    clock: Clock): (r: (Mirror, seq<StoreEvent>))
    requires RunsHavePhases(m.store)
  {
    var update := STATE_ONLY.(progressPhase := Some(phase), progressFraction := fraction);
    var (store, events) := Apply(m.store, UpdateAgent(spec.agentId, update), clock);
    (Mirror(store, Recorded(m.trails,
        AgentEvent(spec.agentId, ProgressEvent, spec.requestId, Some(Running), ProgressPayload(phase, fraction)))),
        events)
  }

  /** How `_execute` settles each way `agent.run` can end: state, result, error, audit payload. */
  function Verdict(outcome: Outcome): (v: (AgentState, Option<string>, Option<string>, Payload))
    ensures v.0.Terminal()
  {
    match outcome
    case Returned(summary) => (Completed, Some(summary), None, NoPayload)
    case Raised(error) => (Failed, None, Some(error), ErrorPayload(error))
    case GenerationTimeout(error) => (Failed, None, Some(error), ErrorPayload(error))
    case WallClockTimeout(error) => (Cancelled, None, Some(error), ReasonPayload(WALL_CLOCK))
    case RaisedCancelled => (Cancelled, None, None, ReasonPayload("cancelled while running"))
  }

  /** The `except`/`else` branches of `_execute`. */
  function Finished(m: Mirror, spec: AgentSpec, outcome: Outcome, clock: Clock): (r: (Mirror, seq<StoreEvent>))
    requires RunsHavePhases(m.store)
  {
    var (state, result, error, payload) := Verdict(outcome);
    SettledAs(m, spec.agentId, state, spec.requestId, result, error, payload, clock)
  }

  /** `cancel`: whether the agent was still cancellable, and whether its task gets cancelled. */
  function CancelOutcome(s: Service, id: Id, clock: Clock): (r: (Service, bool, bool, seq<StoreEvent>))
    requires RunsHavePhases(s.mirror.store)
  {
    if id !in s.mirror.store.agents || s.mirror.store.agents[id].state.Terminal() then (s, false, false, [])
    else if id in s.running then (s, true, true, [])
    else if s.mirror.store.agents[id].state != Pending then (s, false, false, [])
    else
      var (mirror, events) := SettledAs(s.mirror, id, Cancelled, s.mirror.store.agents[id].requestId, None, None,
                                        ReasonPayload("cancelled while pending"), clock);
      (s.(mirror := mirror), true, false, events)
  }

  /** The first loop of `close`: everything still queued is settled as cancelled. */
  function Drained(m: Mirror, queue: seq<AgentSpec>, clock: Clock): (r: (Mirror, seq<StoreEvent>))
    requires RunsHavePhases(m.store)
    ensures RunsHavePhases(r.0.store)
    decreases |queue|
  {
    if queue == [] then (m, [])
    else
      var (m1, events) := SettledAs(m, queue[0].agentId, Cancelled, queue[0].requestId, None, None,
                                    ReasonPayload("service shutdown before start"), clock);
      var (m2, more) := Drained(m1, queue[1..], clock);
      (m2, events + more)
  }

  // ----- the object -----

  class AgentRunner {
    const store: StateStore
    const kinds: set<string>
    var trails: Trails
    var queue: seq<AgentSpec>
    var running: set<Id>
    var closed: bool

    function Model(): Service
      reads this, store
    {
      Service(Mirror(store.Model(), trails), queue, running, closed)
    }

    constructor (store: StateStore, kinds: set<string>)
      ensures this.store == store && this.kinds == kinds
      ensures Model() == Service(Mirror(store.Model(), map[]), [], {}, false)
    {
      this.store, this.kinds := store, kinds;
      trails, queue, running, closed := map[], [], {}, false;
    }

    method Record(e: AgentEvent)
      modifies this`trails
      ensures trails == Recorded(old(trails), e)
    {
      trails := trails[e.agentId := TrailOf(trails, e.agentId) + [e]];
    }

    method Spawn(spec: AgentSpec, clock: Clock) returns (reply: SpawnReply, events: seq<StoreEvent>)
      requires RunsHavePhases(store.Model())
      modifies this, store
      ensures (Model(), reply, events) == SpawnOutcome(old(Model()), spec, kinds, clock)
    {
      if closed {
        return ShutDown, [];
      }
      if spec.kind !in kinds {
        return UnknownKind, [];
      }
      var registered, emitted := store.RegisterAgent(spec.agentId, spec.kind, spec.task, spec.sessionId,
          spec.requestId, clock);
      if registered == S.ValueError {
        return DuplicateId, [];
      }
      Record(SpawnEvent(spec));
      queue := queue + [spec];
      return Spawned, emitted;
    }

    method Settle(id: Id, state: AgentState, requestId: Option<Id>, result: Option<string>, error: Option<string>,
                  payload: Payload, clock: Clock)
      returns (events: seq<StoreEvent>)
      requires RunsHavePhases(store.Model()) && state.Terminal()
      modifies this`trails, store
      ensures (Mirror(store.Model(), trails), events)
              == SettledAs(old(Mirror(store.Model(), trails)), id, state, requestId, result, error, payload, clock)
    {
      var reply;
      var fraction := if state == Completed then Some(1.0) else None;
      reply, events := store.UpdateAgent(id, AgentUpdate(Some(state), None, fraction, result, error), clock);
      if reply == S.Applied {
        Record(AgentEvent(id, TerminalType(state), requestId, Some(state),
            if result.Some? then ResultPayload(result.value) else payload));
      }
    }

    method Cancel(id: Id, clock: Clock) returns (accepted: bool, cancelTask: bool, events: seq<StoreEvent>)
      requires RunsHavePhases(store.Model())
      modifies this, store
      ensures (Model(), accepted, cancelTask, events) == CancelOutcome(old(Model()), id, clock)
    {
      if id !in store.agents || store.agents[id].state.Terminal() {
        return false, false, [];
      }
      if id in running {
        return true, true, [];
      }
      if store.agents[id].state != Pending {
        return false, false, [];
      }
      events := Settle(id, Cancelled, store.agents[id].requestId, None, None, ReasonPayload("cancelled while pending"),
          clock);
      return true, false, events;
    }

    /** A worker between `queue.get()` and its `await`. */
    method TakeNext() returns (spec: AgentSpec)
      requires queue != []
      modifies this`queue, this`running
      ensures spec == old(queue)[0] && queue == old(queue)[1..] && running == old(running) + {spec.agentId}
    {
      spec := queue[0];
      queue := queue[1..];
      running := running + {spec.agentId};
    }

    /** `_execute` up to `agent.run`; `false` when the agent was cancelled while pending. */
    method BeginExecute(spec: AgentSpec, clock: Clock) returns (go: bool, events: seq<StoreEvent>)
      requires RunsHavePhases(store.Model())
      modifies this`trails, store
      ensures (Mirror(store.Model(), trails), events) == PickedUp(old(Mirror(store.Model(), trails)), spec, clock)
      ensures go <==> events != []
    {
      var reply;
      reply, events := store.UpdateAgent(spec.agentId, AgentUpdate(Some(Running), None, None, None, None), clock);
      go := reply == S.Applied;
      if go {
        Record(AgentEvent(spec.agentId, StartedEvent, spec.requestId, Some(Running), NoPayload));
      }
    }

    method ReportProgress(spec: AgentSpec, phase: string, fraction: Option<real>, clock: Clock)
      returns (events: seq<StoreEvent>)
      requires RunsHavePhases(store.Model())
      modifies this`trails, store
      ensures (Mirror(store.Model(), trails), events)
              == Reported(old(Mirror(store.Model(), trails)), spec, phase, fraction, clock)
    {
      var reply;
      reply, events := store.UpdateAgent(spec.agentId, AgentUpdate(None, Some(phase), fraction, None, None), clock);
      Record(AgentEvent(spec.agentId, ProgressEvent, spec.requestId, Some(Running), ProgressPayload(phase, fraction)));
    }

    /** The part of `_execute` after `agent.run`. */
    method EndExecute(spec: AgentSpec, outcome: Outcome, clock: Clock) returns (events: seq<StoreEvent>)
      requires RunsHavePhases(store.Model())
      modifies this`trails, store
      ensures (Mirror(store.Model(), trails), events)
              == Finished(old(Mirror(store.Model(), trails)), spec, outcome, clock)
    {
      match outcome
      case Returned(summary) =>
        events := Settle(spec.agentId, Completed, spec.requestId, Some(summary), None, NoPayload, clock);
      case Raised(error) =>
        events := Settle(spec.agentId, Failed, spec.requestId, None, Some(error), ErrorPayload(error), clock);
      case GenerationTimeout(error) =>
        events := Settle(spec.agentId, Failed, spec.requestId, None, Some(error), ErrorPayload(error), clock);
      case WallClockTimeout(error) =>
        events := Settle(spec.agentId, Cancelled, spec.requestId, None, Some(error), ReasonPayload(WALL_CLOCK), clock);
      case RaisedCancelled =>
        events := Settle(spec.agentId, Cancelled, spec.requestId, None, None, ReasonPayload("cancelled while running"),
            clock);
    }

    /** `close` up to its first wait: refuse spawns and settle everything still queued. */
    method BeginClose(clock: Clock) returns (events: seq<StoreEvent>)
      requires RunsHavePhases(store.Model()) && !closed
      modifies this, store
      ensures closed && queue == [] && running == old(running)
      ensures (Mirror(store.Model(), trails), events) == Drained(old(Mirror(store.Model(), trails)), old(queue), clock)
    {
      closed := true;
      events := [];
      ghost var start := Drained(Mirror(store.Model(), trails), queue, clock);
      assert [] + start.1 == start.1;
      while queue != []
        invariant closed && running == old(running) && RunsHavePhases(store.Model())
        invariant StillToDrain(start, Mirror(store.Model(), trails), queue, events, clock)
        decreases |queue|
      {
        var spec := queue[0];
        ghost var mirror, waiting, soFar := Mirror(store.Model(), trails), queue, events;
        queue := queue[1..];
        var settled := Settle(spec.agentId, Cancelled, spec.requestId, None, None,
            ReasonPayload("service shutdown before start"), clock);
        events := events + settled;
        DrainedNext(start, mirror, waiting, soFar, clock);
      }
      assert events + [] == events;
    }
  }

  /** What is left of a drain that began as `start` and has emitted `events`. */
  ghost predicate StillToDrain(start: (Mirror, seq<StoreEvent>), m: Mirror, queue: seq<AgentSpec>,
                               events: seq<StoreEvent>, clock: Clock)
    requires RunsHavePhases(m.store)
  {
    start == (Drained(m, queue, clock).0, events + Drained(m, queue, clock).1)
  }

  lemma DrainedNext(start: (Mirror, seq<StoreEvent>), m: Mirror, queue: seq<AgentSpec>, events: seq<StoreEvent>,
                    clock: Clock)
    requires RunsHavePhases(m.store) && queue != [] && StillToDrain(start, m, queue, events, clock)
    ensures var (m1, settled) := SettledAs(m, queue[0].agentId, Cancelled, queue[0].requestId, None, None,
                                           ReasonPayload("service shutdown before start"), clock);
            RunsHavePhases(m1.store) && StillToDrain(start, m1, queue[1..], events + settled, clock)
  {
    var (m1, settled) := SettledAs(m, queue[0].agentId, Cancelled, queue[0].requestId, None, None,
                                   ReasonPayload("service shutdown before start"), clock);
    var rest := Drained(m1, queue[1..], clock).1;
    assert events + (settled + rest) == (events + settled) + rest;
  }
}
