/** The live-state store of `backend/app/state/store.py`.

    Every mutation body runs to completion under an uncontended lock and `_emit` follows without an
    await, so a mutation together with the events it emits is one step.  The functions below say
    what each mutation does to the store's value and which events it emits; the class performs them
    on its dictionaries and deques in place.  Clock readings are parameters. */
module Store {
  import opened Basics

  type Id = string
  type Time = int

  // ----- entities -----

  datatype RunPhase =
    | Received | Governance | Engineering | Reviewing | Spawning | Responding | RunCompleted | RunFailed
  {
    predicate Terminal() { RunCompleted? || RunFailed? }
  }

  datatype PhaseEntry = PhaseEntry(phase: RunPhase, node: Option<string>, enteredAt: Time, perfStarted: real,
                                   durationMs: Option<real>)

  datatype RunRecord = RunRecord(requestId: Id, sessionId: Id, createdAt: Time, updatedAt: Time,
                                 resultSummary: Option<string>, error: Option<string>, phases: seq<PhaseEntry>)
  {
    predicate Terminal() {
      phases != [] && phases[|phases| - 1].phase.Terminal()
    }

    function Snapshot(): RunSnapshot
      requires phases != []
    {
      var current := phases[|phases| - 1];
      RunSnapshot(requestId, sessionId, current.phase, current.node, createdAt, updatedAt, resultSummary, error,
                  seq(|phases|, i requires 0 <= i < |phases| =>
                    PhaseTransition(phases[i].phase, phases[i].node, phases[i].enteredAt, phases[i].durationMs)))
    }
  }

  datatype PhaseTransition = PhaseTransition(phase: RunPhase, node: Option<string>, enteredAt: Time,
                                             durationMs: Option<real>)

  datatype RunSnapshot = RunSnapshot(requestId: Id, sessionId: Id, phase: RunPhase, currentNode: Option<string>,
                                     createdAt: Time, updatedAt: Time, resultSummary: Option<string>,
                                     error: Option<string>, phases: seq<PhaseTransition>)

  /** `runIds` oldest first in the record, newest first in the snapshot. */
  datatype SessionRecord = SessionRecord(sessionId: Id, userId: Option<string>, createdAt: Time, lastActivityAt: Time,
                                         runIds: seq<Id>) {
    function Snapshot(): SessionSnapshot {
      SessionSnapshot(sessionId, userId, createdAt, lastActivityAt, Reverse(runIds))
    }
  }

  datatype SessionSnapshot = SessionSnapshot(sessionId: Id, userId: Option<string>, createdAt: Time,
                                             lastActivityAt: Time, runIds: seq<Id>)

  datatype AgentState = Pending | Running | Completed | Failed | Cancelled {
    predicate Terminal() { Completed? || Failed? || Cancelled? }
  }

  datatype AgentTask = AgentTask(taskId: Id, description: string, enqueuedAt: Time)

  /** An agent's registry entry; its snapshot has the same fields. */
  datatype Agent = Agent(agentId: Id, kind: string, sessionId: Option<Id>, requestId: Option<Id>, state: AgentState,
                         createdAt: Time, updatedAt: Time, progressPhase: Option<string>,
                         progressFraction: Option<real>, lastResult: Option<string>, error: Option<string>,
                         queuedTasks: seq<AgentTask>)

  datatype StoreEvent =
    | RunUpdated(run: RunSnapshot)
    | RunEvicted(run: RunSnapshot)
    | SessionUpdated(session: SessionSnapshot)
    | AgentUpdated(agent: Agent)
    | AgentEvicted(agent: Agent)

  /** `runOrder` is the insertion order of the `_runs` dictionary. */
  datatype StoreState = StoreState(runs: map<Id, RunRecord>, runOrder: seq<Id>, sessions: map<Id, SessionRecord>,
                                   agents: map<Id, Agent>, finished: seq<Id>, finishedAgents: seq<Id>,
                                   maxFinishedRuns: nat, maxFinishedAgents: nat)

  function EmptyStore(maxRuns: int, maxAgents: int): StoreState {
    StoreState(map[], [], map[], map[], [], [],
               if maxRuns < 0 then 0 else maxRuns, if maxAgents < 0 then 0 else maxAgents)
  }

  predicate RunsHavePhases(s: StoreState) {
    forall x | x in s.runs :: s.runs[x].phases != []
  }

  // ----- sequences -----

  function Reverse(s: seq<Id>): (r: seq<Id>)
    ensures |r| == |s|
    ensures forall x :: x in r <==> x in s
  {
    if s == [] then [] else
      assert s == [s[0]] + s[1..];
      Reverse(s[1..]) + [s[0]]
  }

  ghost predicate NoDup(s: seq<Id>) {
    forall i, j | 0 <= i < j < |s| :: s[i] != s[j]
  }

  function Without(s: seq<Id>, x: Id): (r: seq<Id>)
    ensures forall y :: y in r <==> y in s && y != x
  {
    if s == [] then [] else
      assert s == [s[0]] + s[1..];
      if s[0] == x then Without(s[1..], x) else [s[0]] + Without(s[1..], x)
  }

  // ----- mutations -----

  datatype Mutation =
    | StartRun(requestId: Id, sessionId: Id, userId: Option<string>)
    | UpdateRunPhase(requestId: Id, phase: RunPhase, node: Option<string>)
    | CompleteRun(requestId: Id, resultSummary: Option<string>)
    | FailRun(requestId: Id, error: string)
    | TouchSession(sessionId: Id, userId: Option<string>)
    | RegisterAgent(agentId: Id, kind: string, task: string, forSession: Option<Id>, forRequest: Option<Id>)
    | UpdateAgent(agentId: Id, update: AgentUpdate)

  /** The keyword arguments of `update_agent`; `None` leaves a field alone. */
  datatype AgentUpdate = AgentUpdate(state: Option<AgentState>, progressPhase: Option<string>,
                                     progressFraction: Option<real>, lastResult: Option<string>,
                                     error: Option<string>)

  /** One reading of the wall clock and of the performance counter. */
  datatype Clock = Clock(now: Time, perf: real)

  function EnterPhase(r: RunRecord, phase: RunPhase, node: Option<string>, clock: Clock): (s: RunRecord)
    ensures s.phases != []
  {
    var n := |r.phases|;
    var closed := if n == 0 then [] else
      var last := r.phases[n - 1];
      r.phases[n - 1 := last.(durationMs := Some((clock.perf - last.perfStarted) * 1000.0))];
    r.(phases := closed + [PhaseEntry(phase, node, clock.now, clock.perf, None)], updatedAt := clock.now)
  }

  function UpsertedSession(s: StoreState, sessionId: Id, userId: Option<string>, now: Time): SessionRecord {
    if sessionId in s.sessions then
      var known := s.sessions[sessionId];
      known.(lastActivityAt := now, userId := if userId.Some? then userId else known.userId)
    else SessionRecord(sessionId, userId, now, now, [])
  }

  function UpdatedAgent(a: Agent, u: AgentUpdate, now: Time): Agent {
    a.(state := u.state.GetOr(a.state),
       queuedTasks := if u.state.Some? && u.state != Some(Pending) then [] else a.queuedTasks,
       progressPhase := if u.progressPhase.Some? then u.progressPhase else a.progressPhase,
       progressFraction := if u.progressFraction.Some? then Some(Clamp(u.progressFraction.value))
                           else a.progressFraction,
       lastResult := if u.lastResult.Some? then u.lastResult else a.lastResult,
       error := if u.error.Some? then u.error else a.error,
       updatedAt := now)
  }

  function Clamp(x: real): real {
    if x < 0.0 then 0.0 else if x > 1.0 then 1.0 else x
  }

  /** The retention loops: evict the oldest finished entries until the cap is met. */
  function EvictRuns(s: StoreState): (r: (StoreState, seq<StoreEvent>))
    requires RunsHavePhases(s)
    decreases |s.finished|
  {
    if |s.finished| <= s.maxFinishedRuns then (s, [])
    else
      var (evicted, events) := EvictRun(s);
      var (rest, more) := EvictRuns(evicted);
      (rest, events + more)
  }

  function EvictRun(s: StoreState): (r: (StoreState, seq<StoreEvent>))
    requires s.finished != []
    requires RunsHavePhases(s)
    ensures r.0.finished == s.finished[1..]
    ensures forall x | x in r.0.runs :: x in s.runs && r.0.runs[x] == s.runs[x]
  {
    var id := s.finished[0];
    var popped := s.(finished := s.finished[1..]);
    if id !in s.runs then (popped, [])
    else
      var victim := s.runs[id];
      var sessions :=
        if victim.sessionId in s.sessions && id in s.sessions[victim.sessionId].runIds then
          var session := s.sessions[victim.sessionId];
          s.sessions[victim.sessionId := session.(runIds := RemoveFirst(session.runIds, id))]
        else s.sessions;
      (popped.(runs := s.runs - {id}, runOrder := RemoveFirst(s.runOrder, id), sessions := sessions),
          [RunEvicted(victim.Snapshot())])
  }

  function EvictAgents(s: StoreState): (r: (StoreState, seq<StoreEvent>))
    ensures r.0 == s.(agents := r.0.agents, finishedAgents := r.0.finishedAgents)
    decreases |s.finishedAgents|
  {
    if |s.finishedAgents| <= s.maxFinishedAgents then (s, [])
    else
      var (evicted, events) := EvictAgent(s);
      var (rest, more) := EvictAgents(evicted);
      (rest, events + more)
  }

  function EvictAgent(s: StoreState): (r: (StoreState, seq<StoreEvent>))
    requires s.finishedAgents != []
    ensures r.0.finishedAgents == s.finishedAgents[1..]
  {
    var id := s.finishedAgents[0];
    var popped := s.(finishedAgents := s.finishedAgents[1..]);
    if id !in s.agents then (popped, []) else (popped.(agents := s.agents - {id}), [AgentEvicted(s.agents[id])])
  }

  function FinishRun(s: StoreState, requestId: Id, phase: RunPhase, resultSummary: Option<string>,
                     error: Option<string>, clock: Clock): (r: (StoreState, seq<StoreEvent>))
    requires RunsHavePhases(s)
  {
    if requestId !in s.runs || s.runs[requestId].Terminal() then (s, [])
    else
      var record := EnterPhase(s.runs[requestId], phase, None, clock).(resultSummary := resultSummary, error := error);
      var (after, evictions) := EvictRuns(s.(runs := s.runs[requestId := record],
          finished := s.finished + [requestId]));
      (after, [RunUpdated(record.Snapshot())] + evictions)
  }

  /** A mutation's effect and the events it emits.  No event means it was rejected or ignored. */
  function Apply(s: StoreState, m: Mutation, clock: Clock): (r: (StoreState, seq<StoreEvent>))
    requires RunsHavePhases(s)
  {
    match m
    case StartRun(id, sid, userId) =>
      if id in s.runs then (s, [])
      else
        var upserted := UpsertedSession(s, sid, userId, clock.now);
        var session := upserted.(runIds := upserted.runIds + [id]);
        var record := EnterPhase(RunRecord(id, sid, clock.now, clock.now, None, None, []), Received, None, clock);
        (s.(runs := s.runs[id := record], runOrder := s.runOrder + [id], sessions := s.sessions[sid := session]),
         [RunUpdated(record.Snapshot()), SessionUpdated(session.Snapshot())])
    case UpdateRunPhase(id, phase, node) =>
      if phase.Terminal() || id !in s.runs || s.runs[id].Terminal() then (s, [])
      else
        var record := EnterPhase(s.runs[id], phase, node, clock);
        (s.(runs := s.runs[id := record]), [RunUpdated(record.Snapshot())])
    case CompleteRun(id, summary) => FinishRun(s, id, RunCompleted, summary, None, clock)
    case FailRun(id, error) => FinishRun(s, id, RunFailed, None, Some(error), clock)
    case TouchSession(sid, userId) =>
      var session := UpsertedSession(s, sid, userId, clock.now);
      (s.(sessions := s.sessions[sid := session]), [SessionUpdated(session.Snapshot())])
    case RegisterAgent(id, kind, task, sid, rid) =>
      if id in s.agents then (s, [])
      else
        var agent := Agent(id, kind, sid, rid, Pending, clock.now, clock.now, None, None, None, None,
            [AgentTask(id, task, clock.now)]);
        (s.(agents := s.agents[id := agent]), [AgentUpdated(agent)])
    case UpdateAgent(id, update) =>
      if id !in s.agents || s.agents[id].state.Terminal() then (s, [])
      else
        var agent := UpdatedAgent(s.agents[id], update, clock.now);
        var updated := s.(agents := s.agents[id := agent]);
        if agent.state.Terminal() then
          var (after, evictions) := EvictAgents(updated.(finishedAgents := s.finishedAgents + [id]));
          (after, [AgentUpdated(agent)] + evictions)
        else (updated, [AgentUpdated(agent)])
  }
}
