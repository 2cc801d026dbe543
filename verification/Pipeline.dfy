/** One prompt request through `backend/app/orchestration/pipeline.py` and the nodes of
    `backend/app/orchestration/graph.py`: which store mutations and audit records each stretch of
    code between two suspension points performs. */
module Pipeline {
  import opened Basics
  import opened Store
  import opened StoreInvariants
  import opened S = StateStore
  import A = AgentRunner

  /** The audit records of requests and agents in the order they are queued, without their payloads. */
  datatype AuditRecord =
    | SessionSeen(sessionId: Id)
    | PromptRequest(requestId: Id, sessionId: Id, approved: bool)
    | PromptResponse(requestId: Id, failed: bool)
    | AgentRow(agentId: Id, onBehalfOf: Option<Id>)

  /** What the pipeline writes to; `events` is everything the store emitted so far.  Of the agent
      runner it has the door, and the kinds of agent it knows. */
  datatype World = World(store: StoreState, events: seq<StoreEvent>, audit: seq<AuditRecord>, runnerClosed: bool,
                         kinds: set<string>)

  datatype Prompt = Prompt(requestId: Id, sessionId: Id, userId: Option<string>)

  /** The verdict of the intake's review. */
  datatype Review = Approved | Refused(error: string)

  datatype BeginReply = Busy | Rejected | GraphStarted

  function Mutated(w: World, m: Mutation, clock: Clock): (r: World)
    requires RunsHavePhases(w.store)
  {
    var (store, events) := Apply(w.store, m, clock);
    w.(store := store, events := w.events + events)
  }

  function Logged(w: World, record: AuditRecord): World {
    w.(audit := w.audit + [record])
  }

  function Registered(w: World, p: Prompt, clock: Clock): World
    requires RunsHavePhases(w.store)
  {
    Logged(Mutated(w, StartRun(p.requestId, p.sessionId, p.userId), clock), SessionSeen(p.sessionId))
  }

  /** Registration and the governance phase, up to the review. */
  function Opened(w: World, p: Prompt, clocks: (Clock, Clock, Clock)): (v: World)
    requires RunsHavePhases(w.store)
    ensures RunsHavePhases(v.store)
  {
    ApplyKeepsPhases(w.store, StartRun(p.requestId, p.sessionId, p.userId), clocks.0);
    var registered := Registered(w, p, clocks.0);
    ApplyKeepsPhases(registered.store, UpdateRunPhase(p.requestId, Governance, None), clocks.1);
    Mutated(registered, UpdateRunPhase(p.requestId, Governance, None), clocks.1)
  }

  /** The review's verdict. */
  function Decided(v: World, p: Prompt, review: Review, clock: Clock): World
    requires RunsHavePhases(v.store)
  {
    Logged(if review.Refused? then Mutated(v, FailRun(p.requestId, review.error), clock) else v,
           PromptRequest(p.requestId, p.sessionId, review.Approved?))
  }

  /** `run` up to the start of the graph, when the busy guard lets it through. */
  function Begun(w: World, p: Prompt, review: Review, clocks: (Clock, Clock, Clock)): World
    requires RunsHavePhases(w.store)
  {
    Decided(Opened(w, p, clocks), p, review, clocks.2)
  }

  /** The tail of `run` after the graph answered. */
  function Answered(w: World, requestId: Id, summary: string, clock: Clock): World
    requires RunsHavePhases(w.store)
  {
    Logged(Mutated(w, CompleteRun(requestId, Some(summary)), clock), PromptResponse(requestId, false))
  }

  /** The tail of `run` after the graph failed or its time was up. */
  function Unanswered(w: World, requestId: Id, error: string, clock: Clock): World
    requires RunsHavePhases(w.store)
  {
    Logged(Mutated(w, FailRun(requestId, error), clock), PromptResponse(requestId, true))
  }

  // ----- the graph -----

  const SUMMARY_MAX_CHARS: nat := 200

  function Summarized(text: string): string {
    if |text| <= SUMMARY_MAX_CHARS then text else text[..SUMMARY_MAX_CHARS - 1] + "\U{2026}"
  }

  /** The node that runs next, as the phase it advances the run to; `None` is the graph's end.
      `agents` says whether a runner is bound, `needsWork` what the review asked for. */
  function NextNode(path: seq<RunPhase>, agents: bool, needsWork: bool): Option<RunPhase> {
    if path == [] then Some(Engineering)
    else
      match path[|path| - 1]
      case Engineering => Some(Reviewing)
      case Reviewing => if agents && needsWork then Some(Spawning) else Some(Responding)
      case Spawning => Some(Responding)
      case _ => None
  }

  function NodeName(phase: RunPhase): string {
    match phase
    case Engineering => "prompt_engineering"
    case Reviewing => "llm_review"
    case Spawning => "agent_spawn"
    case _ => "respond"
  }

  /** The wrapper of `_tracked`, before the node's body. */
  function NodeEntered(w: World, requestId: Id, phase: RunPhase, clock: Clock): World
    requires RunsHavePhases(w.store)
  {
    Mutated(w, UpdateRunPhase(requestId, phase, Some(NodeName(phase))), clock)
  }

  const AGENT_KIND := "research"

  /** What `spawn_background_agent` asks the runner for. */
  function SpecFor(requestId: Id, sessionId: Id, agentId: Id, task: string): A.AgentSpec {
    A.AgentSpec(agentId, AGENT_KIND, task, Some(requestId), Some(sessionId))
  }

  /** The runner takes the agent: it is open, knows the kind, and the id is not registered. */
  predicate Accepts(w: World, spec: A.AgentSpec) {
    !w.runnerClosed && spec.kind in w.kinds && spec.agentId !in w.store.agents
  }

  function Registration(spec: A.AgentSpec): Mutation {
    RegisterAgent(spec.agentId, spec.kind, spec.task, spec.sessionId, spec.requestId)
  }

  /** `runner.spawn` as the rest of the service sees it; a refusal is swallowed by the node. */
  function Spawned(w: World, spec: A.AgentSpec, clock: Clock): World
    requires RunsHavePhases(w.store)
  {
    if Accepts(w, spec) then Logged(Mutated(w, Registration(spec), clock), AgentRow(spec.agentId, spec.requestId))
    else w
  }

  /** One node from its entry to its first suspension point: only `agent_spawn` writes anything itself. */
  function NodeRun(w: World, requestId: Id, phase: RunPhase, spec: A.AgentSpec, clocks: (Clock, Clock)): World
    requires RunsHavePhases(w.store)
  {
    var entered := NodeEntered(w, requestId, phase, clocks.0);
    ApplyKeepsPhases(w.store, UpdateRunPhase(requestId, phase, Some(NodeName(phase))), clocks.0);
    if phase == Spawning then Spawned(entered, spec, clocks.1) else entered
  }

  /** The runner's own account of the same spawn: its reply, the store and the events. */
  lemma SpawnedIs(w: World, service: A.Service, spec: A.AgentSpec, clock: Clock)
    requires RunsHavePhases(w.store) && service.mirror.store == w.store && service.closed == w.runnerClosed
    ensures var (after, reply, events) := A.SpawnOutcome(service, spec, w.kinds, clock);
            && (reply == A.Spawned <==> Accepts(w, spec))
            && Spawned(w, spec, clock).store == after.mirror.store
            && Spawned(w, spec, clock).events == w.events + events
            && after.closed == service.closed
  {
    assert w.events + [] == w.events;
  }

  // ----- the object -----

  class PromptPipeline {
    const store: StateStore
    const runner: A.AgentRunner?
    var events: seq<StoreEvent>
    var audit: seq<AuditRecord>
    const maxQueueDepth: nat

    /** Without a runner nothing can be spawned. */
    function Model(): World
      reads this, store, runner
    {
      World(store.Model(), events, audit, if runner == null then true else runner.closed,
            if runner == null then {} else runner.kinds)
    }

    ghost predicate Wired()
      reads this
    {
      runner != null ==> runner.store == store
    }

    constructor (store: StateStore, runner: A.AgentRunner?, maxQueueDepth: nat)
      requires runner != null ==> runner.store == store
      ensures Wired() && this.store == store && this.runner == runner && this.maxQueueDepth == maxQueueDepth
      ensures Model() == World(store.Model(), [], [], runner == null || runner.closed,
                               if runner == null then {} else runner.kinds)
    {
      this.store, this.runner, this.maxQueueDepth := store, runner, maxQueueDepth;
      events, audit := [], [];
    }

    /** The part of `run` that registers the request and enters governance. */
    method Open(p: Prompt, clocks: (Clock, Clock, Clock))
      requires RunsHavePhases(store.Model()) && p.requestId !in store.runs
      modifies this, store
      ensures Model() == Opened(old(Model()), p, clocks) && RunsHavePhases(store.Model())
    {
      ApplyKeepsPhases(store.Model(), StartRun(p.requestId, p.sessionId, p.userId), clocks.0);
      var _, started := store.StartRun(p.requestId, p.sessionId, p.userId, clocks.0);
      audit := audit + [SessionSeen(p.sessionId)];
      events := events + started;
      ApplyKeepsPhases(store.Model(), UpdateRunPhase(p.requestId, Governance, None), clocks.1);
      var _, governed := store.UpdateRunPhase(p.requestId, Governance, None, clocks.1);
      events := events + governed;
    }

    /** `run` up to `_invoke_graph`. */
    method Begin(p: Prompt, queueDepth: nat, review: Review, clocks: (Clock, Clock, Clock)) returns (reply: BeginReply)
      requires RunsHavePhases(store.Model()) && p.requestId !in store.runs
      modifies this, store
      ensures reply == if maxQueueDepth > 0 && queueDepth >= maxQueueDepth then Busy
                       else if review.Refused? then Rejected else GraphStarted
      ensures Model() == if reply == Busy then old(Model()) else Begun(old(Model()), p, review, clocks)
      ensures RunsHavePhases(store.Model())
    {
      if maxQueueDepth > 0 && queueDepth >= maxQueueDepth {
        return Busy;
      }
      Open(p, clocks);
      reply := GraphStarted;
      if review.Refused? {
        reply := Rejected;
        ApplyKeepsPhases(store.Model(), FailRun(p.requestId, review.error), clocks.2);
        var _, failed := store.FailRun(p.requestId, review.error, clocks.2);
        events := events + failed;
      }
      audit := audit + [PromptRequest(p.requestId, p.sessionId, review.Approved?)];
    }

    /** The wrapper of `_tracked` with the node it wraps, up to the node's first suspension point.  The
        graph has an `agent_spawn` node only when a runner is bound. */
    method EnterNode(requestId: Id, phase: RunPhase, spec: A.AgentSpec, clocks: (Clock, Clock))
      requires Wired() && RunsHavePhases(store.Model()) && (phase == Spawning ==> runner != null)
      modifies this`events, this`audit, store, runner
      ensures Wired() && RunsHavePhases(store.Model())
      ensures Model() == NodeRun(old(Model()), requestId, phase, spec, clocks)
      ensures runner != null ==>
                runner.queue == old(runner.queue) + if phase == Spawning
                    && Accepts(old(Model()), spec) then [spec] else []
    {
      ghost var before := Model();
      ApplyKeepsPhases(store.Model(), UpdateRunPhase(requestId, phase, Some(NodeName(phase))), clocks.0);
      var _, emitted := store.UpdateRunPhase(requestId, phase, Some(NodeName(phase)), clocks.0);
      events := events + emitted;
      if phase == Spawning {
        SpawnedIs(Model(), runner.Model(), spec, clocks.1);
        ApplyKeepsPhases(store.Model(), Registration(spec), clocks.1);
        var reply, spawned := runner.Spawn(spec, clocks.1);
        events := events + spawned;
        if reply == A.Spawned {
          audit := audit + [AgentRow(spec.agentId, spec.requestId)];
        }
      }
    }

    /** `run` from the graph's outcome on; `None` when it failed or timed out. */
    method Settle(requestId: Id, output: Option<string>, error: string, clock: Clock)
      requires RunsHavePhases(store.Model())
      modifies this, store
      ensures Model() == if output.Some? then Answered(old(Model()), requestId, Summarized(output.value), clock)
                         else Unanswered(old(Model()), requestId, error, clock)
      ensures RunsHavePhases(store.Model())
    {
      var emitted;
      if output.None? {
        ApplyKeepsPhases(store.Model(), FailRun(requestId, error), clock);
        var _, failed := store.FailRun(requestId, error, clock);
        emitted := failed;
      } else {
        ApplyKeepsPhases(store.Model(), CompleteRun(requestId, Some(Summarized(output.value))), clock);
        var _, completed := store.CompleteRun(requestId, Some(Summarized(output.value)), clock);
        emitted := completed;
      }
      events := events + emitted;
      audit := audit + [PromptResponse(requestId, output.None?)];
    }
  }
}
