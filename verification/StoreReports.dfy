/** What each mutation of the store (`backend/app/state/store.py`) publishes, field by field, said of
    its arguments, the clock and the records before it. */
module StoreReports {
  import opened Basics
  import opened Store
  import opened StoreInvariants

  // ----- snapshots, field by field -----

  /** A run's snapshot shows the run's record. */
  ghost predicate Shows(run: RunSnapshot, r: RunRecord) {
    && run.requestId == r.requestId && run.sessionId == r.sessionId
    && run.createdAt == r.createdAt && run.updatedAt == r.updatedAt
    && run.resultSummary == r.resultSummary && run.error == r.error
    && r.phases != [] && run.phase == r.phases[|r.phases| - 1].phase
    && run.currentNode == r.phases[|r.phases| - 1].node
    && |run.phases| == |r.phases|
    && forall k | 0 <= k < |r.phases| :: run.phases[k] ==
         PhaseTransition(r.phases[k].phase, r.phases[k].node, r.phases[k].enteredAt, r.phases[k].durationMs)
  }

  /** A session's snapshot shows its record, the runs newest first. */
  ghost predicate ShowsSession(session: SessionSnapshot, r: SessionRecord) {
    && session.sessionId == r.sessionId && session.userId == r.userId
    && session.createdAt == r.createdAt && session.lastActivityAt == r.lastActivityAt
    && NewestFirst(session.runIds, r.runIds)
  }

  ghost predicate NewestFirst(shown: seq<Id>, ids: seq<Id>) {
    |shown| == |ids| && forall k | 0 <= k < |ids| :: shown[k] == ids[|ids| - 1 - k]
  }

  lemma SnapshotShows(r: RunRecord)
    requires r.phases != []
    ensures Shows(r.Snapshot(), r)
  {
  }

  lemma {:induction false} ReverseIsNewestFirst(ids: seq<Id>)
    ensures NewestFirst(Reverse(ids), ids)
  {
    if ids != [] {
      ReverseIsNewestFirst(ids[1..]);
    }
  }

  lemma SessionSnapshotShows(r: SessionRecord)
    ensures ShowsSession(r.Snapshot(), r)
  {
    ReverseIsNewestFirst(r.runIds);
  }

  // ----- runs -----

  ghost predicate InFlight(s: StoreState, id: Id) {
    id in s.runs && s.runs[id].phases != []
    && s.runs[id].phases[|s.runs[id].phases| - 1].phase !in {RunCompleted, RunFailed}
  }

  ghost predicate Unsettled(s: StoreState, id: Id) {
    id in s.agents && s.agents[id].state in {Pending, Running}
  }

  /** The mutation is neither rejected nor ignored. */
  ghost predicate TakesEffect(s: StoreState, m: Mutation) {
    match m
    case StartRun(id, _, _) => id !in s.runs
    case UpdateRunPhase(id, phase, _) => phase !in {RunCompleted, RunFailed} && InFlight(s, id)
    case CompleteRun(id, _) => InFlight(s, id)
    case FailRun(id, _) => InFlight(s, id)
    case TouchSession(_, _) => true
    case RegisterAgent(id, _, _, _, _) => id !in s.agents
    case UpdateAgent(id, _) => Unsettled(s, id)
  }

  /** The history `before` with its last phase closed and a new one opened. */
  ghost predicate MovedOn(before: seq<PhaseEntry>, after: seq<PhaseTransition>, phase: RunPhase, node: Option<string>,
                          clock: Clock)
    requires before != []
  {
    var n := |before|;
    && |after| == n + 1
    && after[n] == PhaseTransition(phase, node, clock.now, None)
    && after[n - 1] == PhaseTransition(before[n - 1].phase, before[n - 1].node, before[n - 1].enteredAt,
                                       Some((clock.perf - before[n - 1].perfStarted) * 1000.0))
    && forall k | 0 <= k < n - 1 ::
         after[k] == PhaseTransition(before[k].phase, before[k].node, before[k].enteredAt, before[k].durationMs)
  }

  /** The snapshot published when run `r` enters `phase`. */
  ghost predicate ReportsRun(e: StoreEvent, r: RunRecord, phase: RunPhase, node: Option<string>,
                             summary: Option<string>, error: Option<string>, clock: Clock)
    requires r.phases != []
  {
    && e.RunUpdated?
    && e.run.requestId == r.requestId && e.run.sessionId == r.sessionId
    && e.run.createdAt == r.createdAt && e.run.updatedAt == clock.now
    && e.run.resultSummary == summary && e.run.error == error
    && e.run.phase == phase && e.run.currentNode == node
    && MovedOn(r.phases, e.run.phases, phase, node, clock)
  }

  /** The evictions that follow a finish: the oldest finished runs, in order, each as it was last. */
  ghost predicate ReportsEvicted(events: seq<StoreEvent>, finished: seq<Id>, runs: map<Id, RunRecord>, cap: nat) {
    && |events| == (if |finished| > cap then |finished| - cap else 0)
    && forall k | 0 <= k < |events| ::
         events[k].RunEvicted? && finished[k] in runs && Shows(events[k].run, runs[finished[k]])
  }

  lemma {:induction false} EvictRunsReports(s: StoreState)
    requires Coherent(s) && RunsHavePhases(s)
    ensures ReportsEvicted(EvictRuns(s).1, s.finished, s.runs, s.maxFinishedRuns)
    decreases |s.finished|
  {
    if |s.finished| > s.maxFinishedRuns {
      var id := s.finished[0];
      assert id in s.finished;
      EvictRunKeepsCoherent(s);
      EvictRunFrame(s);
      EvictRunsReports(EvictRun(s).0);
      SnapshotShows(s.runs[id]);
      EvictionFirst(EvictRun(s).1, EvictRuns(EvictRun(s).0).1, s.finished, s.runs, EvictRun(s).0.runs,
                    s.maxFinishedRuns);
    }
  }

  lemma EvictionFirst(first: seq<StoreEvent>, rest: seq<StoreEvent>, finished: seq<Id>, runs: map<Id, RunRecord>,
                      left: map<Id, RunRecord>, cap: nat)
    requires |finished| > cap && finished[0] in runs
    requires |first| == 1 && first[0].RunEvicted? && Shows(first[0].run, runs[finished[0]])
    requires ReportsEvicted(rest, finished[1..], left, cap)
    requires forall x | x in left :: x in runs && left[x] == runs[x]
    ensures ReportsEvicted(first + rest, finished, runs, cap)
  {
    forall k | 1 <= k < |first + rest|
      ensures (first + rest)[k].RunEvicted? && finished[k] in runs && Shows((first + rest)[k].run, runs[finished[k]])
    {
      assert (first + rest)[k] == rest[k - 1] && finished[k] == finished[1..][k - 1];
    }
  }

  lemma EnteredReports(r: RunRecord, phase: RunPhase, node: Option<string>, clock: Clock, summary: Option<string>,
                       error: Option<string>)
    requires r.phases != []
    ensures var record := EnterPhase(r, phase, node, clock).(resultSummary := summary, error := error);
            ReportsRun(RunUpdated(record.Snapshot()), r, phase, node, summary, error, clock)
  {
  }

  /** The snapshot of a run that finishes, then the evictions. */
  ghost predicate ReportsFinish(events: seq<StoreEvent>, s: StoreState, id: Id, phase: RunPhase,
                                summary: Option<string>, error: Option<string>, clock: Clock)
    requires InFlight(s, id)
  {
    && events != []
    && ReportsRun(events[0], s.runs[id], phase, None, summary, error, clock)
    && exists record: RunRecord :: Shows(events[0].run, record)
         && ReportsEvicted(events[1..], s.finished + [id], s.runs[id := record], s.maxFinishedRuns)
  }

  lemma FinishReports(s: StoreState, id: Id, phase: RunPhase, summary: Option<string>, error: Option<string>,
                      clock: Clock)
    requires StoreOk(s) && RunsHavePhases(s) && InFlight(s, id) && phase in {RunCompleted, RunFailed}
    ensures ReportsFinish(FinishRun(s, id, phase, summary, error, clock).1, s, id, phase, summary, error, clock)
  {
    var record := FinishedRecord(s.runs[id], phase, summary, error, clock);
    FinishRunBeforeEviction(s, id, phase, summary, error, clock);
    EvictRunsReports(BeforeRunEviction(s, id, record));
    EnteredReports(s.runs[id], phase, None, clock, summary, error);
    SnapshotShows(record);
    var events := FinishRun(s, id, phase, summary, error, clock).1;
    assert events[1..] == EvictRuns(BeforeRunEviction(s, id, record)).1;
  }

  // ----- sessions -----

  /** The session's snapshot after a mutation by `userId`; `added` are the runs it starts. */
  ghost predicate ReportsSession(e: StoreEvent, s: StoreState, sid: Id, userId: Option<string>, added: seq<Id>,
                                 now: Time)
  {
    && e.SessionUpdated?
    && e.session.sessionId == sid && e.session.lastActivityAt == now
    && e.session.userId == (if userId.None? && sid in s.sessions then s.sessions[sid].userId else userId)
    && e.session.createdAt == (if sid in s.sessions then s.sessions[sid].createdAt else now)
    && NewestFirst(e.session.runIds, (if sid in s.sessions then s.sessions[sid].runIds else []) + added)
  }

  lemma SessionReports(s: StoreState, sid: Id, userId: Option<string>, added: seq<Id>, now: Time)
    requires sid in s.sessions ==> s.sessions[sid].sessionId == sid
    ensures var upserted := UpsertedSession(s, sid, userId, now);
            ReportsSession(SessionUpdated(upserted.(runIds := upserted.runIds + added).Snapshot()), s, sid, userId,
                           added, now)
  {
    var upserted := UpsertedSession(s, sid, userId, now);
    SessionSnapshotShows(upserted.(runIds := upserted.runIds + added));
  }

  // ----- agents -----

  /** An agent's snapshot after `update`, field by field. */
  ghost predicate ReportsAgent(e: StoreEvent, a: Agent, u: AgentUpdate, now: Time) {
    && e.AgentUpdated?
    && e.agent.agentId == a.agentId && e.agent.kind == a.kind && e.agent.sessionId == a.sessionId
    && e.agent.requestId == a.requestId && e.agent.createdAt == a.createdAt && e.agent.updatedAt == now
    && e.agent.state == (if u.state == None then a.state else u.state.value)
    && e.agent.progressPhase == (if u.progressPhase == None then a.progressPhase else u.progressPhase)
    && e.agent.lastResult == (if u.lastResult == None then a.lastResult else u.lastResult)
    && e.agent.error == (if u.error == None then a.error else u.error)
    && e.agent.queuedTasks == (if u.state in {None, Some(Pending)} then a.queuedTasks else [])
    && match u.progressFraction
       case None => e.agent.progressFraction == a.progressFraction
       case Some(x) => e.agent.progressFraction.Some? && NearestInUnit(e.agent.progressFraction.value, x)
  }

  /** `y` is the point of the unit interval nearest to `x`. */
  ghost predicate NearestInUnit(y: real, x: real) {
    0.0 <= y <= 1.0 && (0.0 <= x <= 1.0 ==> y == x) && (x < 0.0 ==> y == 0.0) && (x > 1.0 ==> y == 1.0)
  }

  ghost predicate ReportsEvictedAgents(events: seq<StoreEvent>, finished: seq<Id>, agents: map<Id, Agent>, cap: nat) {
    && |events| == (if |finished| > cap then |finished| - cap else 0)
    && forall k | 0 <= k < |events| :: finished[k] in agents && events[k] == AgentEvicted(agents[finished[k]])
  }

  lemma {:induction false} EvictAgentsReports(s: StoreState)
    requires AgentsOk(s.agents, s.finishedAgents)
    ensures ReportsEvictedAgents(EvictAgents(s).1, s.finishedAgents, s.agents, s.maxFinishedAgents)
    decreases |s.finishedAgents|
  {
    if |s.finishedAgents| > s.maxFinishedAgents {
      assert s.finishedAgents[0] in s.finishedAgents;
      EvictAgentKeepsAgentsOk(s);
      EvictAgentsReports(EvictAgent(s).0);
      var first, rest := EvictAgent(s).1, EvictAgents(EvictAgent(s).0).1;
      forall k | 1 <= k < |first + rest|
        ensures s.finishedAgents[k] in s.agents && (first + rest)[k] == AgentEvicted(s.agents[s.finishedAgents[k]])
      {
        assert (first + rest)[k] == rest[k - 1] && s.finishedAgents[k] == s.finishedAgents[1..][k - 1];
      }
    }
  }

  /** The snapshot of the agent, then, when the update settles it, the evictions. */
  ghost predicate ReportsUpdate(events: seq<StoreEvent>, s: StoreState, id: Id, u: AgentUpdate, now: Time)
    requires id in s.agents
  {
    && events != [] && ReportsAgent(events[0], s.agents[id], u, now)
    && if u.state in {Some(Completed), Some(Failed), Some(Cancelled)} then
         ReportsEvictedAgents(events[1..], s.finishedAgents + [id], s.agents[id := events[0].agent],
                              s.maxFinishedAgents)
       else |events| == 1
  }

  lemma UpdateReports(s: StoreState, id: Id, u: AgentUpdate, clock: Clock)
    requires StoreOk(s) && RunsHavePhases(s) && Unsettled(s, id)
    ensures ReportsUpdate(Apply(s, UpdateAgent(id, u), clock).1, s, id, u, clock.now)
  {
    var agent := UpdatedAgent(s.agents[id], u, clock.now);
    var events := Apply(s, UpdateAgent(id, u), clock).1;
    assert ReportsAgent(AgentUpdated(agent), s.agents[id], u, clock.now);
    if agent.state.Terminal() {
      SettleKeepsAgentsOk(s.agents, s.finishedAgents, id, agent);
      EvictAgentsReports(BeforeAgentEviction(s, id, agent));
      assert events[1..] == EvictAgents(BeforeAgentEviction(s, id, agent)).1;
    }
  }

  // ----- every mutation -----

  ghost predicate Reports(events: seq<StoreEvent>, s: StoreState, m: Mutation, clock: Clock)
    requires TakesEffect(s, m)
  {
    match m
    case StartRun(id, sid, userId) =>
      && |events| == 2
      && events[0] == RunUpdated(RunSnapshot(id, sid, Received, None, clock.now, clock.now, None, None,
                                             [PhaseTransition(Received, None, clock.now, None)]))
      && ReportsSession(events[1], s, sid, userId, [id], clock.now)
    case UpdateRunPhase(id, phase, node) =>
      && |events| == 1
      && ReportsRun(events[0], s.runs[id], phase, node, s.runs[id].resultSummary, s.runs[id].error, clock)
    case CompleteRun(id, summary) => ReportsFinish(events, s, id, RunCompleted, summary, None, clock)
    case FailRun(id, error) => ReportsFinish(events, s, id, RunFailed, None, Some(error), clock)
    case TouchSession(sid, userId) =>
      |events| == 1 && ReportsSession(events[0], s, sid, userId, [], clock.now)
    case RegisterAgent(id, kind, task, sid, rid) =>
      events == [AgentUpdated(Agent(id, kind, sid, rid, Pending, clock.now, clock.now, None, None, None, None,
                                    [AgentTask(id, task, clock.now)]))]
    case UpdateAgent(id, u) => ReportsUpdate(events, s, id, u, clock.now)
  }

  lemma RunMutationReports(s: StoreState, m: Mutation, clock: Clock)
    requires StoreOk(s) && RunsHavePhases(s) && TakesEffect(s, m)
    requires m.StartRun? || m.UpdateRunPhase? || m.CompleteRun? || m.FailRun?
    ensures Reports(Apply(s, m, clock).1, s, m, clock)
  {
    match m
    case StartRun(id, sid, userId) =>
      SessionReports(s, sid, userId, [id], clock.now);
      StartReports(s, id, sid, userId, clock);
    case UpdateRunPhase(id, phase, node) =>
      EnteredReports(s.runs[id], phase, node, clock, s.runs[id].resultSummary, s.runs[id].error);
    case CompleteRun(id, summary) => FinishReports(s, id, RunCompleted, summary, None, clock);
    case FailRun(id, error) => FinishReports(s, id, RunFailed, None, Some(error), clock);
  }

  lemma OtherMutationReports(s: StoreState, m: Mutation, clock: Clock)
    requires StoreOk(s) && RunsHavePhases(s) && TakesEffect(s, m)
    requires m.TouchSession? || m.RegisterAgent? || m.UpdateAgent?
    ensures Reports(Apply(s, m, clock).1, s, m, clock)
  {
    match m
    case TouchSession(sid, userId) =>
      SessionReports(s, sid, userId, [], clock.now);
      var upserted := UpsertedSession(s, sid, userId, clock.now);
      assert upserted.(runIds := upserted.runIds + []) == upserted;
    case RegisterAgent(_, _, _, _, _) =>
    case UpdateAgent(id, u) => UpdateReports(s, id, u, clock);
  }

  /** Every mutation that takes effect publishes just the snapshots its arguments and the records before
      it call for; every other mutation publishes nothing and changes nothing. */
  lemma MutationReports(s: StoreState, m: Mutation, clock: Clock)
    requires StoreOk(s)
    ensures RunsHavePhases(s)
    ensures TakesEffect(s, m) ==> Apply(s, m, clock).1 != [] && Reports(Apply(s, m, clock).1, s, m, clock)
    ensures !TakesEffect(s, m) ==> Apply(s, m, clock) == (s, [])
  {
    if !TakesEffect(s, m) {
      IgnoredMutation(s, m, clock);
    } else if m.TouchSession? || m.RegisterAgent? || m.UpdateAgent? {
      OtherMutationReports(s, m, clock);
    } else {
      RunMutationReports(s, m, clock);
    }
  }

  lemma IgnoredMutation(s: StoreState, m: Mutation, clock: Clock)
    requires RunsHavePhases(s) && !TakesEffect(s, m)
    ensures Apply(s, m, clock) == (s, [])
  {
  }

  lemma StartReports(s: StoreState, id: Id, sid: Id, userId: Option<string>, clock: Clock)
    requires RunsHavePhases(s) && id !in s.runs
    ensures var events := Apply(s, StartRun(id, sid, userId), clock).1;
            && |events| == 2
            && events[0] == RunUpdated(RunSnapshot(id, sid, Received, None, clock.now, clock.now, None, None,
                                                   [PhaseTransition(Received, None, clock.now, None)]))
            && var upserted := UpsertedSession(s, sid, userId, clock.now);
               events[1] == SessionUpdated(upserted.(runIds := upserted.runIds + [id]).Snapshot())
  {
    var record := EnterPhase(RunRecord(id, sid, clock.now, clock.now, None, None, []), Received, None, clock);
    assert record.Snapshot().phases == [PhaseTransition(Received, None, clock.now, None)];
  }
}
