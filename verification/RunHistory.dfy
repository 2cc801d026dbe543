/** Every interleaving of prompt requests, graph nodes, timeouts and abandoned graphs over one store,
    and what each request's phase history and audit chain look like in all of them. */
module RunHistory {
  import opened Basics
  import opened Store
  import opened StoreInvariants
  import opened StoreHistory
  import opened Pipeline
  import A = AgentRunner

  /** How `run` left the request: still waiting for its graph, or one of its exits. */
  datatype Stage = Awaiting | Declined | Delivered | Broken | TimedOut

  datatype Graph = InProgress | Finished | Crashed

  /** `path` is every node its graph has entered, `reached` those entered before `run` exited. */
  datatype Request = Request(sessionId: Id, stage: Stage, graph: Graph, path: seq<RunPhase>, reached: seq<RunPhase>)

  /** `hired` remembers every agent the runner took, with the request it was spawned for. */
  datatype System = System(world: World, requests: map<Id, Request>, hired: map<Id, Id>)

  datatype Step =
    | Begin(prompt: Prompt, review: Review, clocks: (Clock, Clock, Clock))
    /** A node up to its first suspension point; the agent is the one `agent_spawn` would ask for. */
    | EnterNode(id: Id, needsWork: bool, agentId: Id, task: string, times: (Clock, Clock))
    | GraphEnd(id: Id)
    | GraphCrash(id: Id)
    | Deliver(id: Id, output: string, clock: Clock)
    | Fail(id: Id, error: string, clock: Clock)
    | TimeOut(id: Id, error: string, clock: Clock)
    /** The runner moves an agent on: a store update, an audit row, or both. */
    | AgentMoves(agentId: Id, update: AgentUpdate, audited: bool, clock: Clock)
    | CloseRunner
    | Touch(sessionId: Id, userId: Option<string>, clock: Clock)

  predicate OfNoRun(m: Mutation) {
    m.TouchSession? || m.RegisterAgent? || m.UpdateAgent?
  }

  /** Request ids are fresh; the wall-clock limit may strike whatever the graph has done by then. */
  predicate Enabled(s: System, step: Step, agents: bool) {
    && RunsHavePhases(s.world.store)
    && match step
       case Begin(prompt, _, _) => prompt.requestId !in s.requests
       case EnterNode(id, needsWork, _, _, _) =>
         id in s.requests && s.requests[id].stage != Declined && s.requests[id].graph.InProgress?
         && NextNode(s.requests[id].path, agents, needsWork).Some?
       case GraphEnd(id) =>
         id in s.requests && s.requests[id].stage != Declined && s.requests[id].graph.InProgress?
         && NextNode(s.requests[id].path, agents, false).None?
       case GraphCrash(id) => id in s.requests && s.requests[id].stage != Declined && s.requests[id].graph.InProgress?
       case Deliver(id, _, _) => id in s.requests && s.requests[id].stage.Awaiting? && s.requests[id].graph.Finished?
       case Fail(id, _, _) => id in s.requests && s.requests[id].stage.Awaiting? && s.requests[id].graph.Crashed?
       case TimeOut(id, _, _) => id in s.requests && s.requests[id].stage.Awaiting?
       case AgentMoves(agentId, _, _, _) => agentId in s.hired
       case CloseRunner => true
       case Touch(_, _, _) => true
  }

  function Entered(r: Request, phase: RunPhase): Request {
    r.(path := r.path + [phase], reached := if r.stage.Awaiting? then r.reached + [phase] else r.reached)
  }

  function Next(s: System, step: Step, agents: bool): System
    requires Enabled(s, step, agents)
  {
    match step
    case Begin(p, review, clocks) =>
      var stage := if review.Refused? then Declined else Awaiting;
      s.(world := Begun(s.world, p, review, clocks),
         requests := s.requests[p.requestId := Request(p.sessionId, stage, InProgress, [], [])])
    case EnterNode(id, needsWork, agentId, task, clocks) =>
      var phase := NextNode(s.requests[id].path, agents, needsWork).value;
      System(NodeRun(s.world, id, phase, Asked(s, step), clocks), s.requests[id := Entered(s.requests[id], phase)],
             if SpawnAccepted(s, step, agents) then s.hired[agentId := id] else s.hired)
    case GraphEnd(id) => s.(requests := s.requests[id := s.requests[id].(graph := Finished)])
    case GraphCrash(id) => s.(requests := s.requests[id := s.requests[id].(graph := Crashed)])
    case Deliver(id, output, clock) =>
      s.(world := Answered(s.world, id, Summarized(output), clock),
          requests := s.requests[id := s.requests[id].(stage := Delivered)])
    case Fail(id, error, clock) =>
      s.(world := Unanswered(s.world, id, error, clock), requests := s.requests[id := s.requests[id].(stage := Broken)])
    case TimeOut(id, error, clock) =>
      s.(world := Unanswered(s.world, id, error, clock),
          requests := s.requests[id := s.requests[id].(stage := TimedOut)])
    case AgentMoves(agentId, update, audited, clock) =>
      var moved := Mutated(s.world, UpdateAgent(agentId, update), clock);
      s.(world := if audited then Logged(moved, AgentRow(agentId, Some(s.hired[agentId]))) else moved)
    case CloseRunner => s.(world := s.world.(runnerClosed := true))
    case Touch(sessionId, userId, clock) => s.(world := Mutated(s.world, TouchSession(sessionId, userId), clock))
  }

  /** The agent a node entry would ask the runner for. */
  function Asked(s: System, step: Step): A.AgentSpec
    requires step.EnterNode? && step.id in s.requests
  {
    SpecFor(step.id, s.requests[step.id].sessionId, step.agentId, step.task)
  }

  /** The step enters `agent_spawn` and the runner takes the agent. */
  predicate SpawnAccepted(s: System, step: Step, agents: bool) {
    && step.EnterNode? && step.id in s.requests
    && NextNode(s.requests[step.id].path, agents, step.needsWork) == Some(Spawning)
    && Accepts(s.world, Asked(s, step))
  }

  // ----- what the emitted events say about each run -----

  function Phases(r: RunRecord): seq<RunPhase> {
    seq(|r.phases|, i requires 0 <= i < |r.phases| => r.phases[i].phase)
  }

  function PhasesSeen(r: RunSnapshot): seq<RunPhase> {
    seq(|r.phases|, i requires 0 <= i < |r.phases| => r.phases[i].phase)
  }

  type Histories = map<Id, seq<RunPhase>>

  /** The phase history each run last reported. */
  function Seen(h: Histories, events: seq<StoreEvent>): Histories
    decreases |events|
  {
    if events == [] then h
    else
      var next := if events[0].RunUpdated? then h[events[0].run.requestId := PhasesSeen(events[0].run)] else h;
      Seen(next, events[1..])
  }

  function History(w: World): Histories {
    Seen(map[], w.events)
  }

  lemma {:induction false} SeenAppend(h: Histories, a: seq<StoreEvent>, b: seq<StoreEvent>)
    ensures Seen(h, a + b) == Seen(Seen(h, a), b)
    decreases |a|
  {
    if a == [] {
      assert a + b == b;
    } else {
      assert (a + b)[1..] == a[1..] + b;
      SeenAppend(if a[0].RunUpdated? then h[a[0].run.requestId := PhasesSeen(a[0].run)] else h, a[1..], b);
    }
  }

  lemma {:induction false} SeenNothing(h: Histories, events: seq<StoreEvent>)
    requires forall i | 0 <= i < |events| :: !events[i].RunUpdated?
    ensures Seen(h, events) == h
    decreases |events|
  {
    if events != [] { SeenNothing(h, events[1..]); }
  }

  lemma {:induction false} EvictionsReportNoRun(s: StoreState)
    requires RunsHavePhases(s)
    ensures forall i | 0 <= i < |EvictRuns(s).1| :: !EvictRuns(s).1[i].RunUpdated?
    decreases |s.finished|
  {
    if |s.finished| > s.maxFinishedRuns { EvictionsReportNoRun(EvictRun(s).0); }
  }

  lemma {:induction false} AgentEvictionsReportNoRun(s: StoreState)
    ensures forall i | 0 <= i < |EvictAgents(s).1| :: !EvictAgents(s).1[i].RunUpdated?
    decreases |s.finishedAgents|
  {
    if |s.finishedAgents| > s.maxFinishedAgents { AgentEvictionsReportNoRun(EvictAgent(s).0); }
  }

  // ----- one mutation's effect on the runs -----

  predicate Over(phases: seq<RunPhase>) {
    phases != [] && phases[|phases| - 1].Terminal()
  }

  /** `id` moves on to `phases` and nothing happens to any other run, but finished ones may leave. */
  ghost predicate Advances(before: World, after: World, id: Id, phases: seq<RunPhase>) {
    && History(after) == History(before)[id := phases]
    && (forall x | x in after.store.runs && x != id ::
         x in before.store.runs && after.store.runs[x] == before.store.runs[x])
    && (forall x | x in before.store.runs && x != id && !before.store.runs[x].Terminal() :: x in after.store.runs)
    && (id in after.store.runs ==> Phases(after.store.runs[id]) == phases)
    && (!Over(phases) ==> id in after.store.runs)
  }

  lemma EnterPhasePhases(r: RunRecord, phase: RunPhase, node: Option<string>, clock: Clock)
    ensures Phases(EnterPhase(r, phase, node, clock)) == Phases(r) + [phase]
    ensures PhasesSeen(EnterPhase(r, phase, node, clock).Snapshot()) == Phases(r) + [phase]
  {
  }

  lemma MutatedHistory(w: World, m: Mutation, clock: Clock)
    requires RunsHavePhases(w.store)
    ensures History(Mutated(w, m, clock)) == Seen(History(w), Apply(w.store, m, clock).1)
  {
    SeenAppend(map[], w.events, Apply(w.store, m, clock).1);
  }

  lemma SeenTwo(h: Histories, run: RunSnapshot, session: SessionSnapshot)
    ensures Seen(h, [RunUpdated(run), SessionUpdated(session)]) == h[run.requestId := PhasesSeen(run)]
  {
    var events := [RunUpdated(run), SessionUpdated(session)];
    assert events[1..] == [SessionUpdated(session)];
    SeenNothing(h[run.requestId := PhasesSeen(run)], events[1..]);
  }

  lemma StartAdvances(w: World, p: Prompt, clock: Clock)
    requires StoreOk(w.store) && p.requestId !in w.store.runs && RunsHavePhases(w.store)
    ensures Advances(w, Mutated(w, StartRun(p.requestId, p.sessionId, p.userId), clock), p.requestId, [Received])
  {
    var m := StartRun(p.requestId, p.sessionId, p.userId);
    MutatedHistory(w, m, clock);
    var empty := RunRecord(p.requestId, p.sessionId, clock.now, clock.now, None, None, []);
    EnterPhasePhases(empty, Received, None, clock);
    var upserted := UpsertedSession(w.store, p.sessionId, p.userId, clock.now);
    SeenTwo(History(w), EnterPhase(empty, Received, None, clock).Snapshot(),
            upserted.(runIds := upserted.runIds + [p.requestId]).Snapshot());
    assert Phases(empty) + [Received] == [Received];
  }

  lemma PhaseAdvances(w: World, id: Id, phase: RunPhase, node: Option<string>, clock: Clock)
    requires StoreOk(w.store) && RunsHavePhases(w.store)
    requires id in w.store.runs && !w.store.runs[id].Terminal() && !phase.Terminal()
    ensures Advances(w, Mutated(w, UpdateRunPhase(id, phase, node), clock), id, Phases(w.store.runs[id]) + [phase])
  {
    MutatedHistory(w, UpdateRunPhase(id, phase, node), clock);
    EnterPhasePhases(w.store.runs[id], phase, node, clock);
    var events := Apply(w.store, UpdateRunPhase(id, phase, node), clock).1;
    assert |events| == 1 && events[1..] == [];
  }

  /** A phase update of a run that is over, or gone, changes nothing. */
  lemma PhaseIgnored(w: World, id: Id, phase: RunPhase, node: Option<string>, clock: Clock)
    requires RunsHavePhases(w.store)
    requires id in w.store.runs ==> w.store.runs[id].Terminal()
    ensures Mutated(w, UpdateRunPhase(id, phase, node), clock) == w
  {
    assert w.events + [] == w.events;
  }

  predicate Finishing(m: Mutation, id: Id, phase: RunPhase) {
    || (m.CompleteRun? && m.requestId == id && phase == RunCompleted)
    || (m.FailRun? && m.requestId == id && phase == RunFailed)
  }

  /** What finishing does to the runs, evictions included. */
  lemma FinishedRuns(s: StoreState, id: Id, phase: RunPhase, summary: Option<string>, error: Option<string>,
                     clock: Clock)
    requires StoreOk(s) && RunsHavePhases(s) && id in s.runs && !s.runs[id].Terminal() && phase.Terminal()
    ensures var after := FinishRun(s, id, phase, summary, error, clock).0.runs;
            && OnlyFinishedRunsLeave(s.runs[id := FinishedRecord(s.runs[id], phase, summary, error, clock)], after)
  {
    FinishRunBeforeEviction(s, id, phase, summary, error, clock);
    EvictRunsRestoresBound(BeforeRunEviction(s, id, FinishedRecord(s.runs[id], phase, summary, error, clock)));
  }

  lemma FinishedSeen(h: Histories, s: StoreState, id: Id, phase: RunPhase, summary: Option<string>,
                     error: Option<string>, clock: Clock)
    requires StoreOk(s) && RunsHavePhases(s) && id in s.runs && !s.runs[id].Terminal() && phase.Terminal()
    ensures Seen(h, FinishRun(s, id, phase, summary, error, clock).1) == h[id := Phases(s.runs[id]) + [phase]]
  {
    var record := FinishedRecord(s.runs[id], phase, summary, error, clock);
    var middle := BeforeRunEviction(s, id, record);
    FinishRunBeforeEviction(s, id, phase, summary, error, clock);
    EnterPhasePhases(s.runs[id], phase, None, clock);
    EvictionsReportNoRun(middle);
    var evictions := EvictRuns(middle).1;
    SeenNothing(h[id := Phases(s.runs[id]) + [phase]], evictions);
    var events := [RunUpdated(record.Snapshot())] + evictions;
    assert events[0] == RunUpdated(record.Snapshot()) && events[1..] == evictions;
    assert PhasesSeen(record.Snapshot()) == Phases(s.runs[id]) + [phase];
  }

  lemma FinishIs(w: World, id: Id, m: Mutation, phase: RunPhase, summary: Option<string>, error: Option<string>,
                 clock: Clock)
    requires RunsHavePhases(w.store) && Finishing(m, id, phase)
    requires summary == (if m.CompleteRun? then m.resultSummary else None)
            && error == (if m.FailRun? then Some(m.error) else None)
    ensures Apply(w.store, m, clock) == FinishRun(w.store, id, phase, summary, error, clock)
    ensures Mutated(w, m, clock).store == FinishRun(w.store, id, phase, summary, error, clock).0
  {
  }

  lemma FinishAdvances(w: World, id: Id, m: Mutation, phase: RunPhase, clock: Clock)
    requires StoreOk(w.store) && RunsHavePhases(w.store)
    requires id in w.store.runs && !w.store.runs[id].Terminal() && Finishing(m, id, phase)
    ensures Advances(w, Mutated(w, m, clock), id, Phases(w.store.runs[id]) + [phase])
  {
    var summary := if m.CompleteRun? then m.resultSummary else None;
    var error := if m.FailRun? then Some(m.error) else None;
    FinishIs(w, id, m, phase, summary, error, clock);
    MutatedHistory(w, m, clock);
    FinishedSeen(History(w), w.store, id, phase, summary, error, clock);
    FinishedRuns(w.store, id, phase, summary, error, clock);
    EnterPhasePhases(w.store.runs[id], phase, None, clock);
    var record := FinishedRecord(w.store.runs[id], phase, summary, error, clock);
    LeavingAdvances(w, Mutated(w, m, clock), id, record, phase);
  }

  lemma LeavingAdvances(w: World, v: World, id: Id, record: RunRecord, phase: RunPhase)
    requires id in w.store.runs && phase.Terminal()
    requires History(v) == History(w)[id := Phases(w.store.runs[id]) + [phase]]
    requires OnlyFinishedRunsLeave(w.store.runs[id := record], v.store.runs)
    requires Phases(record) == Phases(w.store.runs[id]) + [phase]
    ensures Advances(w, v, id, Phases(w.store.runs[id]) + [phase])
  {
  }

  lemma ElsewhereLeavesRuns(w: World, m: Mutation, clock: Clock)
    requires RunsHavePhases(w.store) && OfNoRun(m)
    ensures Mutated(w, m, clock).store.runs == w.store.runs
    ensures History(Mutated(w, m, clock)) == History(w)
  {
    MutatedHistory(w, m, clock);
    var events := Apply(w.store, m, clock).1;
    if m.UpdateAgent? && m.agentId in w.store.agents && !w.store.agents[m.agentId].state.Terminal() {
      var agent := UpdatedAgent(w.store.agents[m.agentId], m.update, clock.now);
      AgentEvictionsReportNoRun(BeforeAgentEviction(w.store, m.agentId, agent));
    }
    SeenNothing(History(w), events);
  }

  lemma AdvancesTwice(a: World, b: World, c: World, id: Id, first: seq<RunPhase>, second: seq<RunPhase>)
    requires Advances(a, b, id, first) && Advances(b, c, id, second)
    ensures Advances(a, c, id, second)
  {
  }

  // ----- what every reachable state keeps -----

  const OPENING: seq<RunPhase> := [Received, Governance]
  const PLAIN: seq<RunPhase> := [Engineering, Reviewing, Responding]
  const DETOUR: seq<RunPhase> := [Engineering, Reviewing, Spawning, Responding]

  predicate FullPath(path: seq<RunPhase>, agents: bool) {
    path == PLAIN || (agents && path == DETOUR)
  }

  predicate PathOk(path: seq<RunPhase>, agents: bool) {
    path <= PLAIN || (agents && path <= DETOUR)
  }

  function Ending(stage: Stage): seq<RunPhase> {
    match stage
    case Awaiting => []
    case Delivered => [RunCompleted]
    case _ => [RunFailed]
  }

  function Told(r: Request): seq<RunPhase> {
    OPENING + r.reached + Ending(r.stage)
  }

  predicate RequestOk(r: Request, agents: bool) {
    && PathOk(r.path, agents)
    && r.reached <= r.path
    && (r.stage.Awaiting? ==> r.reached == r.path)
    && (r.stage.Declined? ==> r.path == [])
    && (r.graph.Finished? ==> FullPath(r.path, agents))
    && (r.stage.Delivered? ==> r.graph.Finished? && r.reached == r.path)
  }

  ghost predicate RunOk(w: World, id: Id, r: Request) {
    && id in History(w) && History(w)[id] == Told(r)
    && (id in w.store.runs ==> Phases(w.store.runs[id]) == Told(r))
    && (r.stage.Awaiting? ==> id in w.store.runs)
  }

  /** The audit records that carry a request's id, oldest first. */
  function Chain(audit: seq<AuditRecord>, id: Id): seq<AuditRecord> {
    if audit == [] then []
    else
      var last := audit[|audit| - 1];
      Chain(audit[..|audit| - 1], id)
      + if (last.PromptRequest? || last.PromptResponse?) && last.requestId == id then [last] else []
  }

  function ChainTold(id: Id, r: Request): seq<AuditRecord> {
    [PromptRequest(id, r.sessionId, !r.stage.Declined?)]
    + match r.stage
      case Awaiting => []
      case Declined => []
      case Delivered => [PromptResponse(id, false)]
      case _ => [PromptResponse(id, true)]
  }

  /** The foreign keys of the record at `i` find their rows among the earlier records. */
  ghost predicate Preceded(audit: seq<AuditRecord>, i: nat)
    requires i < |audit|
  {
    match audit[i]
    case SessionSeen(_) => true
    case PromptRequest(_, sid, _) => exists j | 0 <= j < i :: audit[j] == SessionSeen(sid)
    case PromptResponse(id, _) => exists j | 0 <= j < i :: audit[j].PromptRequest? && audit[j].requestId == id
    case AgentRow(_, id) =>
      id.Some? ==> exists j | 0 <= j < i :: audit[j].PromptRequest? && audit[j].requestId == id.value
  }

  ghost predicate Linked(audit: seq<AuditRecord>) {
    forall i | 0 <= i < |audit| :: Preceded(audit, i)
  }

  ghost predicate AllRunsOk(s: System, agents: bool) {
    forall id {:trigger RunOk(s.world, id, s.requests[id])} | id in s.requests ::
      RequestOk(s.requests[id], agents) && RunOk(s.world, id, s.requests[id])
  }

  ghost predicate ChainsTold(audit: seq<AuditRecord>, requests: map<Id, Request>) {
    forall id :: Chain(audit, id) == if id in requests then ChainTold(id, requests[id]) else []
  }

  ghost predicate AuditOk(audit: seq<AuditRecord>, requests: map<Id, Request>) {
    Linked(audit) && ChainsTold(audit, requests)
  }

  ghost predicate Inv(s: System, agents: bool) {
    && StoreOk(s.world.store)
    && (forall id | id in s.world.store.runs :: id in s.requests)
    && (forall agentId | agentId in s.hired :: s.hired[agentId] in s.requests)
    && AllRunsOk(s, agents)
    && AuditOk(s.world.audit, s.requests)
  }

  // ----- each step keeps it -----

  lemma ChainSnoc(audit: seq<AuditRecord>, last: AuditRecord, id: Id)
    ensures Chain(audit + [last], id)
            == Chain(audit, id) + if (last.PromptRequest? || last.PromptResponse?)
                && last.requestId == id then [last] else []
  {
    assert (audit + [last])[..|audit|] == audit;
  }

  lemma {:induction false} ChainWitness(audit: seq<AuditRecord>, id: Id, k: nat) returns (j: nat)
    requires k < |Chain(audit, id)|
    ensures j < |audit| && audit[j] == Chain(audit, id)[k]
  {
    j := |audit| - 1;
    if k < |Chain(audit[..|audit| - 1], id)| {
      j := ChainWitness(audit[..|audit| - 1], id, k);
    }
  }

  lemma LinkedSnoc(audit: seq<AuditRecord>, last: AuditRecord)
    requires Linked(audit) && Preceded(audit + [last], |audit|)
    ensures Linked(audit + [last])
  {
    forall i | 0 <= i < |audit + [last]| ensures Preceded(audit + [last], i) {
      if i < |audit| {
        assert Preceded(audit, i);
        if audit[i].PromptRequest? {
          var j :| 0 <= j < i && audit[j] == SessionSeen(audit[i].sessionId);
          assert (audit + [last])[j] == SessionSeen(audit[i].sessionId);
        } else if audit[i].PromptResponse? {
          var j :| 0 <= j < i && audit[j].PromptRequest? && audit[j].requestId == audit[i].requestId;
          assert (audit + [last])[j] == audit[j];
        } else if audit[i].AgentRow? && audit[i].onBehalfOf.Some? {
          var j :| 0 <= j < i && audit[j].PromptRequest? && audit[j].requestId == audit[i].onBehalfOf.value;
          assert (audit + [last])[j] == audit[j];
        }
      }
    }
  }

  /** An agent's row changes no request's chain, and finds the request it refers to. */
  lemma AgentRowKeepsAudit(audit: seq<AuditRecord>, requests: map<Id, Request>, agentId: Id, id: Id)
    requires AuditOk(audit, requests) && id in requests
    ensures AuditOk(audit + [AgentRow(agentId, Some(id))], requests)
  {
    var last := AgentRow(agentId, Some(id));
    assert Chain(audit, id) == ChainTold(id, requests[id]);
    var j := ChainWitness(audit, id, 0);
    assert (audit + [last])[j].PromptRequest? && (audit + [last])[j].requestId == id;
    LinkedSnoc(audit, last);
    forall x ensures Chain(audit + [last], x) == if x in requests then ChainTold(x, requests[x]) else [] {
      ChainSnoc(audit, last, x);
      assert Chain(audit, x) == if x in requests then ChainTold(x, requests[x]) else [];
    }
  }

  lemma ChainsAfterRequest(audit: seq<AuditRecord>, requests: map<Id, Request>, id: Id, r: Request)
    requires ChainsTold(audit, requests) && id !in requests && (r.stage.Awaiting? || r.stage.Declined?)
    ensures ChainsTold(audit + [SessionSeen(r.sessionId)] + [PromptRequest(id, r.sessionId, !r.stage.Declined?)],
            requests[id := r])
  {
    var one := audit + [SessionSeen(r.sessionId)];
    var request := PromptRequest(id, r.sessionId, !r.stage.Declined?);
    forall x
      ensures Chain(one + [request], x) == if x in requests[id := r] then ChainTold(x, requests[id := r][x]) else []
    {
      ChainSnoc(audit, SessionSeen(r.sessionId), x);
      ChainSnoc(one, request, x);
      assert Chain(audit, x) == if x in requests then ChainTold(x, requests[x]) else [];
    }
  }

  lemma RequestLinked(audit: seq<AuditRecord>, id: Id, sessionId: Id, approved: bool)
    requires Linked(audit)
    ensures Linked(audit + [SessionSeen(sessionId)] + [PromptRequest(id, sessionId, approved)])
  {
    var one := audit + [SessionSeen(sessionId)];
    LinkedSnoc(audit, SessionSeen(sessionId));
    assert (one + [PromptRequest(id, sessionId, approved)])[|audit|] == SessionSeen(sessionId);
    LinkedSnoc(one, PromptRequest(id, sessionId, approved));
  }

  lemma BeginKeepsAudit(audit: seq<AuditRecord>, requests: map<Id, Request>, id: Id, r: Request)
    requires AuditOk(audit, requests) && id !in requests && (r.stage.Awaiting? || r.stage.Declined?)
    ensures AuditOk(audit + [SessionSeen(r.sessionId)] + [PromptRequest(id, r.sessionId, !r.stage.Declined?)],
            requests[id := r])
  {
    RequestLinked(audit, id, r.sessionId, !r.stage.Declined?);
    ChainsAfterRequest(audit, requests, id, r);
  }

  lemma ResponseLinked(audit: seq<AuditRecord>, id: Id, failed: bool)
    requires Linked(audit) && |Chain(audit, id)| > 0 && Chain(audit, id)[0].PromptRequest?
            && Chain(audit, id)[0].requestId == id
    ensures Linked(audit + [PromptResponse(id, failed)])
  {
    var last := PromptResponse(id, failed);
    var j := ChainWitness(audit, id, 0);
    assert (audit + [last])[j].PromptRequest? && (audit + [last])[j].requestId == id;
    LinkedSnoc(audit, last);
  }

  lemma ChainsAfterResponse(audit: seq<AuditRecord>, requests: map<Id, Request>, id: Id, stage: Stage)
    requires ChainsTold(audit, requests) && id in requests && requests[id].stage.Awaiting?
    requires stage.Delivered? || stage.Broken? || stage.TimedOut?
    ensures ChainsTold(audit + [PromptResponse(id, !stage.Delivered?)], requests[id := requests[id].(stage := stage)])
  {
    var last := PromptResponse(id, !stage.Delivered?);
    var after := requests[id := requests[id].(stage := stage)];
    forall x ensures Chain(audit + [last], x) == if x in after then ChainTold(x, after[x]) else [] {
      ChainSnoc(audit, last, x);
      assert Chain(audit, x) == if x in requests then ChainTold(x, requests[x]) else [];
    }
  }

  lemma SettleKeepsAudit(audit: seq<AuditRecord>, requests: map<Id, Request>, id: Id, stage: Stage)
    requires AuditOk(audit, requests) && id in requests && requests[id].stage.Awaiting?
    requires stage.Delivered? || stage.Broken? || stage.TimedOut?
    ensures AuditOk(audit + [PromptResponse(id, !stage.Delivered?)], requests[id := requests[id].(stage := stage)])
  {
    ChainsAfterResponse(audit, requests, id, stage);
    assert Chain(audit, id) == ChainTold(id, requests[id]);
    ResponseLinked(audit, id, !stage.Delivered?);
  }

  /** A request's run advancing keeps every other request's run as it is. */
  lemma AdvanceKeepsRunsOk(s: System, t: System, id: Id, agents: bool)
    requires AllRunsOk(s, agents) && id in t.requests
    requires t.requests == s.requests[id := t.requests[id]]
    requires Advances(s.world, t.world, id, Told(t.requests[id]))
    requires RequestOk(t.requests[id], agents)
    requires forall x | x in s.world.store.runs :: x in s.requests
    ensures AllRunsOk(t, agents)
    ensures forall x | x in t.world.store.runs :: x in t.requests
  {
    forall x | x in t.requests
      ensures RequestOk(t.requests[x], agents) && RunOk(t.world, x, t.requests[x])
    {
      if x != id {
        assert RunOk(s.world, x, s.requests[x]);
        if s.requests[x].stage.Awaiting? {
          NotOver(s.requests[x], agents);
          PhasesTerminal(s.world.store.runs[x]);
        }
      } else if t.requests[x].stage.Awaiting? {
        NotOver(t.requests[x], agents);
      }
    }
  }

  lemma NotOver(r: Request, agents: bool)
    requires RequestOk(r, agents)
    ensures Over(Told(r)) <==> !r.stage.Awaiting?
  {
    var told := Told(r);
    if r.stage.Awaiting? && r.reached != [] {
      assert told[|told| - 1] == r.reached[|r.reached| - 1];
      if r.path <= PLAIN { assert r.path[|r.path| - 1] == PLAIN[|r.path| - 1]; }
      else { assert r.path[|r.path| - 1] == DETOUR[|r.path| - 1]; }
    }
  }

  lemma PhasesTerminal(r: RunRecord)
    ensures r.Terminal() <==> Over(Phases(r))
  {
  }

  lemma RegisterAdvances(w: World, p: Prompt, clock: Clock)
    requires StoreOk(w.store) && p.requestId !in w.store.runs && RunsHavePhases(w.store)
    ensures Advances(w, Registered(w, p, clock), p.requestId, [Received])
    ensures StoreOk(Registered(w, p, clock).store)
    ensures Registered(w, p, clock).audit == w.audit + [SessionSeen(p.sessionId)]
  {
    StartAdvances(w, p, clock);
    ApplyKeepsStoreOk(w.store, StartRun(p.requestId, p.sessionId, p.userId), clock);
  }

  lemma GovernAdvances(w: World, id: Id, clock: Clock)
    requires StoreOk(w.store) && RunsHavePhases(w.store) && id in w.store.runs && Phases(w.store.runs[id]) == [Received]
    ensures var v := Mutated(w, UpdateRunPhase(id, Governance, None), clock);
            Advances(w, v, id, OPENING) && v.audit == w.audit
  {
    PhasesTerminal(w.store.runs[id]);
    PhaseAdvances(w, id, Governance, None, clock);
    assert [Received] + [Governance] == OPENING;
  }

  lemma RefuseAdvances(w: World, id: Id, error: string, clock: Clock)
    requires StoreOk(w.store) && RunsHavePhases(w.store) && id in w.store.runs && Phases(w.store.runs[id]) == OPENING
    ensures var v := Mutated(w, FailRun(id, error), clock);
            && Advances(w, v, id, OPENING + [RunFailed]) && StoreOk(v.store) && v.audit == w.audit
  {
    PhasesTerminal(w.store.runs[id]);
    FinishAdvances(w, id, FailRun(id, error), RunFailed, clock);
    ApplyKeepsStoreOk(w.store, FailRun(id, error), clock);
  }

  lemma OpeningAdvances(w: World, p: Prompt, clocks: (Clock, Clock, Clock))
    requires StoreOk(w.store) && p.requestId !in w.store.runs && RunsHavePhases(w.store)
    ensures var v := Opened(w, p, clocks);
            Advances(w, v, p.requestId, OPENING) && v.audit == w.audit + [SessionSeen(p.sessionId)]
  {
    RegisterAdvances(w, p, clocks.0);
    var registered := Registered(w, p, clocks.0);
    GovernAdvances(registered, p.requestId, clocks.1);
    var governed := Mutated(registered, UpdateRunPhase(p.requestId, Governance, None), clocks.1);
    AdvancesTwice(w, registered, governed, p.requestId, [Received], OPENING);
  }

  lemma OpenedOk(w: World, p: Prompt, clocks: (Clock, Clock, Clock))
    requires StoreOk(w.store) && RunsHavePhases(w.store)
    ensures StoreOk(Opened(w, p, clocks).store)
  {
    MutatedOk(w, StartRun(p.requestId, p.sessionId, p.userId), clocks.0);
    MutatedOk(Registered(w, p, clocks.0), UpdateRunPhase(p.requestId, Governance, None), clocks.1);
  }

  lemma BegunEffect(w: World, p: Prompt, review: Review, clocks: (Clock, Clock, Clock))
    requires StoreOk(w.store) && p.requestId !in w.store.runs && RunsHavePhases(w.store)
    ensures var v := Begun(w, p, review, clocks);
            && Advances(w, v, p.requestId, OPENING + if review.Refused? then [RunFailed] else []) && StoreOk(v.store)
            && v.audit == w.audit + [SessionSeen(p.sessionId)] + [PromptRequest(p.requestId, p.sessionId,
                 review.Approved?)]
  {
    OpeningAdvances(w, p, clocks);
    OpenedOk(w, p, clocks);
    DecidedEffect(w, Opened(w, p, clocks), p, review, clocks.2);
  }

  lemma DecidedEffect(w: World, governed: World, p: Prompt, review: Review, clock: Clock)
    requires StoreOk(governed.store) && RunsHavePhases(governed.store) && Advances(w, governed, p.requestId, OPENING)
    ensures var v := Decided(governed, p, review, clock);
            && Advances(w, v, p.requestId, OPENING + if review.Refused? then [RunFailed] else []) && StoreOk(v.store)
            && v.audit == governed.audit + [PromptRequest(p.requestId, p.sessionId, review.Approved?)]
  {
    var id := p.requestId;
    var request := PromptRequest(id, p.sessionId, review.Approved?);
    if review.Refused? {
      var failed := Mutated(governed, FailRun(id, review.error), clock);
      RefuseAdvances(governed, id, review.error, clock);
      AdvancesTwice(w, governed, failed, id, OPENING, OPENING + [RunFailed]);
      LoggedAdvances(w, failed, id, OPENING + [RunFailed], request);
    } else {
      assert OPENING + [] == OPENING;
      LoggedAdvances(w, governed, id, OPENING, request);
    }
  }

  lemma LoggedAdvances(w: World, v: World, id: Id, phases: seq<RunPhase>, record: AuditRecord)
    requires Advances(w, v, id, phases)
    ensures Advances(w, Logged(v, record), id, phases)
  {
  }

  lemma BeginKeepsInv(s: System, step: Step, agents: bool)
    requires Inv(s, agents) && step.Begin? && Enabled(s, step, agents)
    ensures Inv(Next(s, step, agents), agents)
  {
    BegunKeepsInv(s, step.prompt, step.review, step.clocks, if step.review.Refused? then Declined else Awaiting,
        agents);
  }

  lemma BegunKeepsInv(s: System, p: Prompt, review: Review, clocks: (Clock, Clock, Clock), stage: Stage, agents: bool)
    requires Inv(s, agents) && p.requestId !in s.requests && stage == if review.Refused? then Declined else Awaiting
    ensures Inv(s.(world := Begun(s.world, p, review, clocks),
                   requests := s.requests[p.requestId := Request(p.sessionId, stage, InProgress, [], [])]), agents)
  {
    FreshRun(s, p.requestId, agents);
    BegunEffect(s.world, p, review, clocks);
    var r := Request(p.sessionId, stage, InProgress, [], []);
    ToldFresh(p.sessionId, stage, agents);
    AddedKeepsInv(s, Begun(s.world, p, review, clocks), p.requestId, r, agents);
  }

  lemma FreshRun(s: System, id: Id, agents: bool)
    requires Inv(s, agents) && id !in s.requests
    ensures id !in s.world.store.runs && RunsHavePhases(s.world.store)
  {
  }

  lemma ToldFresh(sessionId: Id, stage: Stage, agents: bool)
    requires stage.Awaiting? || stage.Declined?
    ensures var r := Request(sessionId, stage, InProgress, [], []);
            Told(r) == (OPENING + if stage.Declined? then [RunFailed] else []) && RequestOk(r, agents)
  {
    assert OPENING + [] == OPENING;
  }

  lemma AddedKeepsInv(s: System, w: World, id: Id, r: Request, agents: bool)
    requires Inv(s, agents) && id !in s.requests && (r.stage.Awaiting? || r.stage.Declined?)
    requires RequestOk(r, agents) && Advances(s.world, w, id, Told(r)) && StoreOk(w.store)
    requires w.audit == s.world.audit + [SessionSeen(r.sessionId)] + [PromptRequest(id, r.sessionId,
            !r.stage.Declined?)]
    ensures Inv(s.(world := w, requests := s.requests[id := r]), agents)
  {
    BeginKeepsAudit(s.world.audit, s.requests, id, r);
    AdvanceKeepsRunsOk(s, s.(world := w, requests := s.requests[id := r]), id, agents);
  }

  lemma NextNodeKeepsPathOk(path: seq<RunPhase>, agents: bool, needsWork: bool)
    requires PathOk(path, agents)
    ensures NextNode(path, agents, needsWork).Some? ==> PathOk(path + [NextNode(path, agents, needsWork).value], agents)
    ensures NextNode(path, agents, needsWork).Some? ==> !NextNode(path, agents, needsWork).value.Terminal()
    ensures NextNode(path, agents, needsWork).None? <==> FullPath(path, agents)
    ensures path == [Engineering, Reviewing] ==>
              (NextNode(path, agents, needsWork) == Some(Spawning) <==> agents && needsWork)
  {
    if path <= PLAIN { assert path == PLAIN[..|path|]; } else { assert path == DETOUR[..|path|]; }
  }

  lemma ToldSnoc(r: Request, phase: RunPhase, stage: Stage)
    requires r.stage.Awaiting?
    ensures Told(Entered(r, phase)) == Told(r) + [phase]
    ensures Told(r.(stage := stage)) == Told(r) + Ending(stage)
  {
  }

  lemma MutatedOk(w: World, m: Mutation, clock: Clock)
    requires StoreOk(w.store) && RunsHavePhases(w.store)
    ensures StoreOk(Mutated(w, m, clock).store) && Mutated(w, m, clock).audit == w.audit
  {
    ApplyKeepsStoreOk(w.store, m, clock);
  }

  lemma StillLive(w: World, id: Id, r: Request, agents: bool)
    requires RequestOk(r, agents) && RunOk(w, id, r) && r.stage.Awaiting?
    ensures id in w.store.runs && !w.store.runs[id].Terminal() && Phases(w.store.runs[id]) == Told(r)
  {
    NotOver(r, agents);
    PhasesTerminal(w.store.runs[id]);
  }

  /** Entering a node of a request still awaited moves its run on. */
  lemma EnterLive(w: World, id: Id, r: Request, phase: RunPhase, clock: Clock, agents: bool)
    requires StoreOk(w.store) && RunsHavePhases(w.store) && RequestOk(r, agents) && RunOk(w, id, r) && r.stage.Awaiting?
    requires !phase.Terminal()
    ensures Advances(w, NodeEntered(w, id, phase, clock), id, Told(Entered(r, phase)))
  {
    StillLive(w, id, r, agents);
    PhaseAdvances(w, id, phase, Some(NodeName(phase)), clock);
    ToldSnoc(r, phase, r.stage);
  }

  lemma EnterAbandoned(w: World, id: Id, r: Request, phase: RunPhase, clock: Clock, agents: bool)
    requires RunsHavePhases(w.store) && RequestOk(r, agents) && RunOk(w, id, r) && !r.stage.Awaiting?
    ensures NodeEntered(w, id, phase, clock) == w
  {
    NotOver(r, agents);
    if id in w.store.runs { PhasesTerminal(w.store.runs[id]); }
    PhaseIgnored(w, id, phase, Some(NodeName(phase)), clock);
  }

  /** A just registered agent. */
  function Fresh(spec: A.AgentSpec, now: Time): Agent {
    Agent(spec.agentId, spec.kind, spec.sessionId, spec.requestId, Pending, now, now, None, None, None, None,
          [AgentTask(spec.agentId, spec.task, now)])
  }

  /** What a spawn does to the world: one pending agent and its audit row, or nothing. */
  lemma SpawnedEffect(w: World, spec: A.AgentSpec, clock: Clock)
    requires StoreOk(w.store) && RunsHavePhases(w.store)
    ensures var v := Spawned(w, spec, clock);
            && StoreOk(v.store) && v.store == w.store.(agents := v.store.agents) && History(v) == History(w)
            && v.audit == w.audit + (if Accepts(w, spec) then [AgentRow(spec.agentId, spec.requestId)] else [])
            && (Accepts(w, spec) <==> v != w)
            && (Accepts(w, spec) ==>
                  && v.store.agents == w.store.agents[spec.agentId := Fresh(spec, clock.now)]
                  && v.events == w.events + [AgentUpdated(Fresh(spec, clock.now))])
  {
    if Accepts(w, spec) {
      ElsewhereLeavesRuns(w, Registration(spec), clock);
      MutatedOk(w, Registration(spec), clock);
      assert |Spawned(w, spec, clock).events| == |w.events| + 1;
    } else {
      assert w.audit + [] == w.audit;
    }
  }

  lemma NodeEnteredKeepsAgents(w: World, id: Id, phase: RunPhase, clock: Clock)
    requires RunsHavePhases(w.store)
    ensures var v := NodeEntered(w, id, phase, clock);
            v.store.agents == w.store.agents && v.runnerClosed == w.runnerClosed && v.kinds == w.kinds
                && v.audit == w.audit
  {
  }

  /** A node's entry over a request still awaited. */
  lemma EnteredLive(w: World, id: Id, r: Request, phase: RunPhase, clock: Clock, agents: bool)
    requires StoreOk(w.store) && RunsHavePhases(w.store) && RequestOk(r, agents) && RunOk(w, id, r) && r.stage.Awaiting?
    requires !phase.Terminal()
    ensures var v := NodeEntered(w, id, phase, clock);
            Advances(w, v, id, Told(Entered(r, phase))) && StoreOk(v.store) && RunsHavePhases(v.store)
  {
    EnterLive(w, id, r, phase, clock, agents);
    MutatedOk(w, UpdateRunPhase(id, phase, Some(NodeName(phase))), clock);
    ApplyKeepsPhases(w.store, UpdateRunPhase(id, phase, Some(NodeName(phase))), clock);
  }

  /** And the spawn that may follow. */
  lemma SpawnedLive(w: World, v: World, id: Id, phases: seq<RunPhase>, spec: A.AgentSpec, clock: Clock)
    requires Advances(w, v, id, phases) && StoreOk(v.store) && RunsHavePhases(v.store)
    ensures Advances(w, Spawned(v, spec, clock), id, phases) && StoreOk(Spawned(v, spec, clock).store)
  {
    SpawnedEffect(v, spec, clock);
    SameRunsAdvance(w, v, Spawned(v, spec, clock), id, phases);
  }

  /** A node's entry and body over a request still awaited. */
  lemma RunLive(w: World, id: Id, r: Request, phase: RunPhase, spec: A.AgentSpec, clocks: (Clock, Clock), agents: bool)
    requires StoreOk(w.store) && RunsHavePhases(w.store) && RequestOk(r, agents) && RunOk(w, id, r) && r.stage.Awaiting?
    requires !phase.Terminal()
    ensures var v := NodeRun(w, id, phase, spec, clocks);
            Advances(w, v, id, Told(Entered(r, phase))) && StoreOk(v.store)
  {
    EnteredLive(w, id, r, phase, clocks.0, agents);
    if phase == Spawning {
      SpawnedLive(w, NodeEntered(w, id, phase, clocks.0), id, Told(Entered(r, phase)), spec, clocks.1);
    }
  }

  lemma SameRunsAdvance(w: World, u: World, v: World, id: Id, phases: seq<RunPhase>)
    requires Advances(w, u, id, phases) && v.store.runs == u.store.runs && History(v) == History(u)
    ensures Advances(w, v, id, phases)
  {
  }

  /** The runs after a node's entry, of an awaited request or an abandoned one. */
  lemma EnterKeepsRuns(s: System, step: Step, agents: bool)
    requires Inv(s, agents) && step.EnterNode? && Enabled(s, step, agents)
    ensures var t := Next(s, step, agents);
            && StoreOk(t.world.store) && AllRunsOk(t, agents)
            && (forall id | id in t.world.store.runs :: id in t.requests)
  {
    var r := s.requests[step.id];
    var phase := NextNode(r.path, agents, step.needsWork).value;
    var t := Next(s, step, agents);
    assert RunOk(s.world, step.id, r);
    NextNodeKeepsPathOk(r.path, agents, step.needsWork);
    if r.stage.Awaiting? {
      RunLive(s.world, step.id, r, phase, Asked(s, step), step.times, agents);
      AdvanceKeepsRunsOk(s, t, step.id, agents);
    } else {
      EnterAbandoned(s.world, step.id, r, phase, step.times.0, agents);
      SpawnedEffect(s.world, Asked(s, step), step.times.1);
      SameRunsKeepRunsOk(s, t, step.id, agents);
    }
  }

  lemma EnterAudit(s: System, step: Step, agents: bool)
    requires Inv(s, agents) && step.EnterNode? && Enabled(s, step, agents)
    ensures Next(s, step, agents).world.audit
            == s.world.audit + if SpawnAccepted(s, step, agents) then [AgentRow(step.agentId, Some(step.id))] else []
  {
    var r := s.requests[step.id];
    var phase := NextNode(r.path, agents, step.needsWork).value;
    NodeEnteredKeepsAgents(s.world, step.id, phase, step.times.0);
    assert s.world.audit + [] == s.world.audit;
  }

  lemma EnterKeepsAudit(s: System, step: Step, agents: bool)
    requires Inv(s, agents) && step.EnterNode? && Enabled(s, step, agents)
    ensures AuditOk(Next(s, step, agents).world.audit, Next(s, step, agents).requests)
  {
    var t := Next(s, step, agents);
    EnterAudit(s, step, agents);
    SameChain(s, s.(requests := t.requests), step.id);
    if SpawnAccepted(s, step, agents) {
      AgentRowKeepsAudit(s.world.audit, t.requests, step.agentId, step.id);
    } else {
      assert s.world.audit + [] == s.world.audit;
    }
  }

  lemma EnterKeepsInv(s: System, step: Step, agents: bool)
    requires Inv(s, agents) && step.EnterNode? && Enabled(s, step, agents)
    ensures Inv(Next(s, step, agents), agents)
  {
    EnterKeepsRuns(s, step, agents);
    EnterKeepsAudit(s, step, agents);
  }

  lemma SameRunsKeepRunsOk(s: System, t: System, id: Id, agents: bool)
    requires AllRunsOk(s, agents) && t.world.store.runs == s.world.store.runs && History(t.world) == History(s.world)
    requires id in s.requests && id in t.requests
    requires t.requests == s.requests[id := t.requests[id]] && RequestOk(t.requests[id], agents)
    requires t.requests[id].stage == s.requests[id].stage && t.requests[id].reached == s.requests[id].reached
    ensures AllRunsOk(t, agents)
  {
    forall x | x in t.requests
      ensures RequestOk(t.requests[x], agents) && RunOk(t.world, x, t.requests[x])
    {
      assert RunOk(s.world, x, s.requests[x]);
    }
  }

  lemma SameChain(s: System, t: System, id: Id)
    requires AuditOk(s.world.audit, s.requests) && t.world.audit == s.world.audit && id in s.requests
            && id in t.requests
    requires t.requests == s.requests[id := t.requests[id]]
    requires t.requests[id].stage == s.requests[id].stage && t.requests[id].sessionId == s.requests[id].sessionId
    ensures AuditOk(t.world.audit, t.requests)
  {
  }

  lemma GraphOverKeepsInv(s: System, step: Step, agents: bool)
    requires Inv(s, agents) && (step.GraphEnd? || step.GraphCrash?) && Enabled(s, step, agents)
    ensures Inv(Next(s, step, agents), agents)
    ensures Next(s, step, agents).world == s.world
  {
    var t := Next(s, step, agents);
    var r := s.requests[step.id];
    assert RunOk(s.world, step.id, r);
    NextNodeKeepsPathOk(r.path, agents, false);
    SameRunsKeepRunsOk(s, t, step.id, agents);
    SameChain(s, t, step.id);
  }

  lemma SettleAdvances(w: World, id: Id, r: Request, m: Mutation, stage: Stage, clock: Clock, agents: bool)
    requires StoreOk(w.store) && RunsHavePhases(w.store) && RequestOk(r, agents) && RunOk(w, id, r) && r.stage.Awaiting?
    requires stage.Delivered? || stage.Broken? || stage.TimedOut?
    requires Finishing(m, id, if stage.Delivered? then RunCompleted else RunFailed)
    ensures Advances(w, Mutated(w, m, clock), id, Told(r.(stage := stage)))
  {
    StillLive(w, id, r, agents);
    FinishAdvances(w, id, m, if stage.Delivered? then RunCompleted else RunFailed, clock);
    ToldSnoc(r, RunFailed, stage);
  }

  lemma SettleKeepsInv(s: System, t: System, id: Id, m: Mutation, stage: Stage, clock: Clock, agents: bool)
    requires Inv(s, agents) && RunsHavePhases(s.world.store) && id in s.requests && s.requests[id].stage.Awaiting?
    requires stage.Delivered? || stage.Broken? || stage.TimedOut?
    requires stage.Delivered? ==> s.requests[id].graph.Finished?
    requires Finishing(m, id, if stage.Delivered? then RunCompleted else RunFailed)
    requires t.world == Logged(Mutated(s.world, m, clock), PromptResponse(id, !stage.Delivered?))
    requires t.requests == s.requests[id := s.requests[id].(stage := stage)] && t.hired == s.hired
    ensures Inv(t, agents)
  {
    assert RunOk(s.world, id, s.requests[id]);
    SettleAdvances(s.world, id, s.requests[id], m, stage, clock, agents);
    MutatedOk(s.world, m, clock);
    LoggedAdvances(s.world, Mutated(s.world, m, clock), id, Told(t.requests[id]),
        PromptResponse(id, !stage.Delivered?));
    AdvanceKeepsRunsOk(s, t, id, agents);
    SettleKeepsAudit(s.world.audit, s.requests, id, stage);
  }

  /** Traffic that leaves the runs alone, with at most one agent's row. */
  lemma ElsewhereKeepsInv(s: System, w: World, agents: bool)
    requires Inv(s, agents) && StoreOk(w.store)
    requires w.store.runs == s.world.store.runs && History(w) == History(s.world)
    requires AuditOk(w.audit, s.requests)
    ensures Inv(s.(world := w), agents)
  {
    var t := s.(world := w);
    forall x | x in t.requests
      ensures RequestOk(t.requests[x], agents) && RunOk(t.world, x, t.requests[x])
    {
      assert RunOk(s.world, x, s.requests[x]);
    }
  }

  lemma AgentMovesKeepsInv(s: System, step: Step, agents: bool)
    requires Inv(s, agents) && step.AgentMoves? && Enabled(s, step, agents)
    ensures Inv(Next(s, step, agents), agents)
  {
    var m := UpdateAgent(step.agentId, step.update);
    ElsewhereLeavesRuns(s.world, m, step.clock);
    MutatedOk(s.world, m, step.clock);
    if step.audited { AgentRowKeepsAudit(s.world.audit, s.requests, step.agentId, s.hired[step.agentId]); }
    ElsewhereKeepsInv(s, Next(s, step, agents).world, agents);
  }

  lemma TouchKeepsInv(s: System, step: Step, agents: bool)
    requires Inv(s, agents) && step.Touch? && Enabled(s, step, agents)
    ensures Inv(Next(s, step, agents), agents)
  {
    ElsewhereLeavesRuns(s.world, TouchSession(step.sessionId, step.userId), step.clock);
    MutatedOk(s.world, TouchSession(step.sessionId, step.userId), step.clock);
    ElsewhereKeepsInv(s, Next(s, step, agents).world, agents);
  }

  lemma StepKeepsInv(s: System, step: Step, agents: bool)
    requires Inv(s, agents) && Enabled(s, step, agents)
    ensures Inv(Next(s, step, agents), agents)
  {
    var t := Next(s, step, agents);
    match step
    case Begin(_, _, _) => BeginKeepsInv(s, step, agents);
    case EnterNode(_, _, _, _, _) => EnterKeepsInv(s, step, agents);
    case GraphEnd(_) => GraphOverKeepsInv(s, step, agents);
    case GraphCrash(_) => GraphOverKeepsInv(s, step, agents);
    case Deliver(id, output, clock) =>
      SettleKeepsInv(s, t, id, CompleteRun(id, Some(Summarized(output))), Delivered, clock, agents);
    case Fail(id, error, clock) => SettleKeepsInv(s, t, id, FailRun(id, error), Broken, clock, agents);
    case TimeOut(id, error, clock) => SettleKeepsInv(s, t, id, FailRun(id, error), TimedOut, clock, agents);
    case AgentMoves(_, _, _, _) => AgentMovesKeepsInv(s, step, agents);
    case CloseRunner => ElsewhereKeepsInv(s, t.world, agents);
    case Touch(_, _, _) => TouchKeepsInv(s, step, agents);
  }

  // ----- runs of the system -----

  function Initial(maxRuns: int, maxAgents: int, kinds: set<string>): System {
    System(World(EmptyStore(maxRuns, maxAgents), [], [], false, kinds), map[], map[])
  }

  predicate Runs(s: System, steps: seq<Step>, agents: bool)
    decreases |steps|
  {
    steps == [] || (Enabled(s, steps[0], agents) && Runs(Next(s, steps[0], agents), steps[1..], agents))
  }

  function After(s: System, steps: seq<Step>, agents: bool): System
    requires Runs(s, steps, agents)
    decreases |steps|
  {
    if steps == [] then s else After(Next(s, steps[0], agents), steps[1..], agents)
  }

  ghost predicate Reachable(s: System, agents: bool) {
    exists maxRuns: int, maxAgents: int, kinds: set<string>, steps: seq<Step> ::
      Runs(Initial(maxRuns, maxAgents, kinds), steps, agents)
          && After(Initial(maxRuns, maxAgents, kinds), steps, agents) == s
  }

  lemma {:induction false} RunKeepsInv(s: System, steps: seq<Step>, agents: bool)
    requires Inv(s, agents) && Runs(s, steps, agents)
    ensures Inv(After(s, steps, agents), agents)
    decreases |steps|
  {
    if steps != [] {
      StepKeepsInv(s, steps[0], agents);
      RunKeepsInv(Next(s, steps[0], agents), steps[1..], agents);
    }
  }

  lemma ReachableInv(s: System, agents: bool)
    requires Reachable(s, agents)
    ensures Inv(s, agents)
  {
    var maxRuns: int, maxAgents: int, kinds: set<string>, steps: seq<Step> :|
      Runs(Initial(maxRuns, maxAgents, kinds), steps, agents)
          && After(Initial(maxRuns, maxAgents, kinds), steps, agents) == s;
    EmptyStoreOk(maxRuns, maxAgents);
    RunKeepsInv(Initial(maxRuns, maxAgents, kinds), steps, agents);
  }

  lemma {:induction false} RunsSnoc(s: System, steps: seq<Step>, last: Step, agents: bool)
    requires Runs(s, steps, agents) && Enabled(After(s, steps, agents), last, agents)
    ensures Runs(s, steps + [last], agents)
    ensures After(s, steps + [last], agents) == Next(After(s, steps, agents), last, agents)
    decreases |steps|
  {
    if steps == [] {
      assert steps + [last] == [last] && [last][1..] == [];
    } else {
      assert (steps + [last])[1..] == steps[1..] + [last];
      RunsSnoc(Next(s, steps[0], agents), steps[1..], last, agents);
    }
  }

  lemma ReachableStep(s: System, step: Step, agents: bool)
    requires Reachable(s, agents) && Enabled(s, step, agents)
    ensures Reachable(Next(s, step, agents), agents)
  {
    var maxRuns: int, maxAgents: int, kinds: set<string>, steps: seq<Step> :|
      Runs(Initial(maxRuns, maxAgents, kinds), steps, agents)
      && After(Initial(maxRuns, maxAgents, kinds), steps, agents) == s;
    RunsSnoc(Initial(maxRuns, maxAgents, kinds), steps, step, agents);
  }

  lemma ReachableNext(s: System, step: Step, agents: bool)
    requires Reachable(s, agents) && Enabled(s, step, agents)
    ensures Reachable(Next(s, step, agents), agents)
    ensures RunsHavePhases(Next(s, step, agents).world.store)
  {
    ReachableStep(s, step, agents);
    ReachablePhases(Next(s, step, agents), agents);
  }

  lemma ReachablePhases(s: System, agents: bool)
    requires Reachable(s, agents)
    ensures RunsHavePhases(s.world.store)
  {
    ReachableInv(s, agents);
    FreshRunOk(s, agents);
  }

  lemma FreshRunOk(s: System, agents: bool)
    requires Inv(s, agents)
    ensures RunsHavePhases(s.world.store)
  {
  }

  // ----- main results -----

  /** Every request's phase history is received, governance, a prefix of the graph's path, then at
      most one terminal phase, which is there exactly when `run` exited, and is completed only after
      the full path.  A retained run's live phases are that history. */
  lemma PhaseHistory(s: System, id: Id, agents: bool)
    requires Reachable(s, agents) && id in s.requests
    ensures var r := s.requests[id];
            && id in History(s.world)
            && History(s.world)[id] == [Received, Governance] + r.reached + Ending(r.stage)
            && PathOk(r.reached, agents)
            && (r.stage.Delivered? ==> FullPath(r.reached, agents))
            && (r.stage.Declined? ==> r.reached == [])
    ensures id in s.world.store.runs ==> Phases(s.world.store.runs[id]) == History(s.world)[id]
    ensures s.requests[id].stage.Awaiting? ==> id in s.world.store.runs
  {
    ReachableInv(s, agents);
    assert RunOk(s.world, id, s.requests[id]);
  }

  /** The agent a request's graph asks for when it enters `agent_spawn`, as the registry first holds it. */
  function Hired(s: System, step: Step): Agent
    requires step.EnterNode? && step.id in s.requests
  {
    Agent(step.agentId, "research", Some(s.requests[step.id].sessionId), Some(step.id), Pending, step.times.1.now,
          step.times.1.now, None, None, None, None, [AgentTask(step.agentId, step.task, step.times.1.now)])
  }

  /** A spawn after a node's entry, seen from before the entry. */
  lemma SpawnAfterEntry(w: World, id: Id, spec: A.AgentSpec, clocks: (Clock, Clock))
    requires StoreOk(w.store) && RunsHavePhases(w.store)
    ensures var v := NodeRun(w, id, Spawning, spec, clocks);
            if Accepts(w, spec) then
              && v.store.agents == w.store.agents[spec.agentId := Fresh(spec, clocks.1.now)]
              && v.events != [] && v.events[|v.events| - 1] == AgentUpdated(Fresh(spec, clocks.1.now))
            else v.store.agents == w.store.agents
  {
    var m := UpdateRunPhase(id, Spawning, Some(NodeName(Spawning)));
    NodeEnteredKeepsAgents(w, id, Spawning, clocks.0);
    MutatedOk(w, m, clocks.0);
    ApplyKeepsPhases(w.store, m, clocks.0);
    SpawnedEffect(NodeEntered(w, id, Spawning, clocks.0), spec, clocks.1);
  }

  /** Entering a node registers an agent exactly when the node is `agent_spawn`, the runner is open and knows
      the kind, and the id is free; then the agent is the request's own, and no other agent changes. */
  lemma SpawnsExactly(s: System, step: Step, agents: bool)
    requires Reachable(s, agents) && step.EnterNode? && Enabled(s, step, agents)
    ensures var before, after := s.world, Next(s, step, agents).world;
            if NextNode(s.requests[step.id].path, agents, step.needsWork) == Some(Spawning)
               && !before.runnerClosed && "research" in before.kinds && step.agentId !in before.store.agents then
              && after.store.agents == before.store.agents[step.agentId := Hired(s, step)]
              && after.audit == before.audit + [AgentRow(step.agentId, Some(step.id))]
              && after.events != [] && after.events[|after.events| - 1] == AgentUpdated(Hired(s, step))
            else after.store.agents == before.store.agents && after.audit == before.audit
  {
    ReachableInv(s, agents);
    EnterAudit(s, step, agents);
    var phase := NextNode(s.requests[step.id].path, agents, step.needsWork).value;
    if phase == Spawning {
      SpawnAfterEntry(s.world, step.id, Asked(s, step), step.times);
    } else {
      NodeEnteredKeepsAgents(s.world, step.id, phase, step.times.0);
    }
  }

  predicate OfGraph(step: Step) {
    step.EnterNode? || step.GraphEnd? || step.GraphCrash?
  }

  lemma AbandonedStep(s: System, step: Step, agents: bool)
    requires Inv(s, agents) && OfGraph(step) && Enabled(s, step, agents) && !s.requests[step.id].stage.Awaiting?
    ensures Next(s, step, agents).world
            == if SpawnAccepted(s, step, agents) then Spawned(s.world, Asked(s, step), step.times.1) else s.world
  {
    if step.EnterNode? {
      var r := s.requests[step.id];
      assert RunOk(s.world, step.id, r);
      EnterAbandoned(s.world, step.id, r, NextNode(r.path, agents, step.needsWork).value, step.times.0, agents);
    }
  }

  /** What an abandoned graph can still do: a step of it changes the world if and only if it enters
      `agent_spawn` and the runner takes the agent; then one pending agent is registered, reported and
      audited.  Runs, sessions, reported histories and every request's chain never change. */
  lemma AbandonedGraphOnlySpawns(s: System, step: Step, agents: bool)
    requires Reachable(s, agents) && OfGraph(step) && Enabled(s, step, agents)
    requires !s.requests[step.id].stage.Awaiting?
    ensures var w := Next(s, step, agents).world;
            && (w == s.world <==> !SpawnAccepted(s, step, agents))
            && w.store == s.world.store.(agents := w.store.agents)
            && History(w) == History(s.world)
            && (forall id :: Chain(w.audit, id) == Chain(s.world.audit, id))
    ensures SpawnAccepted(s, step, agents) ==>
              var w := Next(s, step, agents).world;
              && w.audit == s.world.audit + [AgentRow(step.agentId, Some(step.id))]
              && w.store.agents == s.world.store.agents[step.agentId := Hired(s, step)]
              && w.events == s.world.events + [AgentUpdated(Hired(s, step))]
  {
    ReachableInv(s, agents);
    AbandonedStep(s, step, agents);
    if SpawnAccepted(s, step, agents) {
      SpawnedEffect(s.world, Asked(s, step), step.times.1);
      assert Fresh(Asked(s, step), step.times.1.now) == Hired(s, step);
      forall id ensures Chain(s.world.audit + [AgentRow(step.agentId, Some(step.id))], id) == Chain(s.world.audit, id) {
        ChainSnoc(s.world.audit, AgentRow(step.agentId, Some(step.id)), id);
      }
    }
  }

  /** A reachable state with a runner bound, open and empty, in which a request is where `r` says. */
  ghost predicate Staged(s: System, id: Id, r: Request, kinds: set<string>) {
    && Reachable(s, true) && RunsHavePhases(s.world.store)
    && id in s.requests && s.requests[id] == r
    && !s.world.runnerClosed && s.world.kinds == kinds && s.world.store.agents == map[]
  }

  lemma BegunRun(p: Prompt, kinds: set<string>, clock: Clock) returns (s: System)
    ensures Staged(s, p.requestId, Request(p.sessionId, Awaiting, InProgress, [], []), kinds)
  {
    var start := Initial(1, 1, kinds);
    EmptyStoreOk(1, 1);
    assert Runs(start, [], true) && After(start, [], true) == start;
    var step := Begin(p, Approved, (clock, clock, clock));
    ReachableNext(start, step, true);
    s := Next(start, step, true);
  }

  lemma NodeTaken(s: System, id: Id, r: Request, kinds: set<string>, clock: Clock, phase: RunPhase) returns (t: System)
    requires Staged(s, id, r, kinds) && r.stage.Awaiting? && r.graph.InProgress? && phase != Spawning
    requires NextNode(r.path, true, false) == Some(phase)
    ensures Staged(t, id, Entered(r, phase), kinds)
  {
    var step := EnterNode(id, false, "", "", (clock, clock));
    assert Enabled(s, step, true);
    ReachableNext(s, step, true);
    NodeEnteredKeepsAgents(s.world, id, phase, clock);
    t := Next(s, step, true);
  }

  lemma TimedOutRun(s: System, id: Id, r: Request, kinds: set<string>, clock: Clock) returns (t: System)
    requires Staged(s, id, r, kinds) && r.stage.Awaiting?
    ensures Staged(t, id, r.(stage := TimedOut), kinds)
  {
    var step := TimeOut(id, "late", clock);
    assert Enabled(s, step, true);
    ReachableNext(s, step, true);
    ReachableInv(s, true);
    FailKeepsAgents(s.world, id, "late", clock);
    t := Next(s, step, true);
  }

  /** A request that times out during its review. */
  lemma TimedOutInReview(p: Prompt, kinds: set<string>, clock: Clock) returns (s: System, r: Request)
    ensures Staged(s, p.requestId, r, kinds) && r.stage.TimedOut? && r.graph.InProgress?
    ensures r.path != [] && r.path[|r.path| - 1] == Reviewing
  {
    r := Request(p.sessionId, Awaiting, InProgress, [], []);
    s := BegunRun(p, kinds, clock);
    s := NodeTaken(s, p.requestId, r, kinds, clock, Engineering);
    r := Entered(r, Engineering);
    s := NodeTaken(s, p.requestId, r, kinds, clock, Reviewing);
    r := Entered(r, Reviewing);
    s := TimedOutRun(s, p.requestId, r, kinds, clock);
    r := r.(stage := TimedOut);
  }

  /** It does happen: a request times out during its review, whose verdict then sends the abandoned
      graph through `agent_spawn`, and an agent is registered for the failed request. */
  lemma AbandonedGraphSpawns(p: Prompt, agentId: Id, task: string, kinds: set<string>, clock: Clock)
    requires AGENT_KIND in kinds
    ensures exists s: System, step: Step ::
              && Reachable(s, true) && p.requestId in s.requests && s.requests[p.requestId].stage.TimedOut?
              && step.EnterNode? && step.id == p.requestId && Enabled(s, step, true)
              && agentId !in s.world.store.agents && agentId in Next(s, step, true).world.store.agents
  {
    var s, r := TimedOutInReview(p, kinds, clock);
    var step := EnterNode(p.requestId, true, agentId, task, (clock, clock));
    assert Enabled(s, step, true) && SpawnAccepted(s, step, true);
    AbandonedGraphOnlySpawns(s, step, true);
    assert agentId in Next(s, step, true).world.store.agents;
  }

  lemma FailKeepsAgents(w: World, id: Id, error: string, clock: Clock)
    requires StoreOk(w.store) && RunsHavePhases(w.store)
    ensures Unanswered(w, id, error, clock).store.agents == w.store.agents
  {
    OnlyAgentMutationsTouchAgents(w.store, FailRun(id, error), clock);
  }

  lemma SettledStays(s: System, step: Step, id: Id, agents: bool)
    requires Enabled(s, step, agents) && id in s.requests && !s.requests[id].stage.Awaiting?
    ensures var t := Next(s, step, agents);
            && id in t.requests && t.requests[id].stage == s.requests[id].stage
            && t.requests[id].reached == s.requests[id].reached && t.requests[id].sessionId == s.requests[id].sessionId
  {
  }

  /** A settled request's history and audit chain are final, whatever happens next. */
  lemma SettledIsFinal(s: System, step: Step, id: Id, agents: bool)
    requires Reachable(s, agents) && Enabled(s, step, agents)
    requires id in s.requests && !s.requests[id].stage.Awaiting?
    ensures var t := Next(s, step, agents);
            && id in History(s.world) && id in History(t.world) && History(t.world)[id] == History(s.world)[id]
            && Chain(t.world.audit, id) == Chain(s.world.audit, id)
  {
    ReachableInv(s, agents);
    StepKeepsInv(s, step, agents);
    SettledStays(s, step, id, agents);
    SameTale(s, Next(s, step, agents), id, agents);
  }

  lemma SameTale(s: System, t: System, id: Id, agents: bool)
    requires AllRunsOk(s, agents) && AllRunsOk(t, agents)
    requires AuditOk(s.world.audit, s.requests) && AuditOk(t.world.audit, t.requests)
    requires id in s.requests && id in t.requests && t.requests[id].stage == s.requests[id].stage
    requires t.requests[id].reached == s.requests[id].reached && t.requests[id].sessionId == s.requests[id].sessionId
    ensures id in History(s.world) && id in History(t.world) && History(t.world)[id] == History(s.world)[id]
    ensures Chain(t.world.audit, id) == Chain(s.world.audit, id)
  {
    assert RunOk(s.world, id, s.requests[id]);
    assert RunOk(t.world, id, t.requests[id]);
  }

  /** A request is audited once, and answered once exactly when it was accepted and settled; the
      answer agrees with the run's terminal phase. */
  lemma AuditChain(s: System, id: Id, agents: bool)
    requires Reachable(s, agents) && id in s.requests
    ensures |Chain(s.world.audit, id)| >= 1
    ensures Chain(s.world.audit, id)[0] == PromptRequest(id, s.requests[id].sessionId, !s.requests[id].stage.Declined?)
    ensures id in History(s.world) && |History(s.world)[id]| >= 2
    ensures Agree(id, Chain(s.world.audit, id)[1..], History(s.world)[id][|History(s.world)[id]| - 1],
            s.requests[id].stage)
  {
    ReachableInv(s, agents);
    var r := s.requests[id];
    assert RunOk(s.world, id, r);
    assert Chain(s.world.audit, id) == ChainTold(id, r);
    ToldAgrees(id, r, agents);
  }

  predicate Agree(id: Id, responses: seq<AuditRecord>, last: RunPhase, stage: Stage) {
    && (responses == [PromptResponse(id, false)] <==> last == RunCompleted)
    && (responses == [PromptResponse(id, true)] <==> last == RunFailed && !stage.Declined?)
    && (responses == [] <==> !last.Terminal() || stage.Declined?)
    && (last.Terminal() <==> !stage.Awaiting?)
  }

  lemma ToldAgrees(id: Id, r: Request, agents: bool)
    requires RequestOk(r, agents)
    ensures Agree(id, ChainTold(id, r)[1..], Told(r)[|Told(r)| - 1], r.stage)
  {
    assert ChainTold(id, r)[1..] == if r.stage.Delivered? then [PromptResponse(id, false)]
                                    else if r.stage.Broken? || r.stage.TimedOut? then [PromptResponse(id, true)]
                                    else [];
    NotOver(r, agents);
  }

  /** The records reach the audit queue in an order that respects the foreign keys. */
  lemma AuditRespectsForeignKeys(s: System, i: nat, agents: bool)
    requires Reachable(s, agents) && i < |s.world.audit|
    ensures Preceded(s.world.audit, i)
  {
    ReachableInv(s, agents);
  }
}
