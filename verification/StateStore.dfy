/** The store object of `backend/app/state/store.py`, its dictionaries and deques updated in place.
    Each mutation returns the events `_emit` hands to the notify hook. */
module StateStore {
  import opened Basics
  import opened Store

  /** What a mutation tells its caller besides the events. */
  datatype Reply = Applied | Ignored | ValueError

  lemma Associative(a: seq<StoreEvent>, b: seq<StoreEvent>, c: seq<StoreEvent>)
    ensures a + b + c == a + (b + c)
  {
  }

  lemma EvictAgentsStep(s: StoreState, soFar: seq<StoreEvent>)
    requires |s.finishedAgents| > s.maxFinishedAgents
    ensures var (evicted, events) := EvictAgent(s);
            && EvictAgents(evicted).0 == EvictAgents(s).0
            && soFar + events + EvictAgents(evicted).1 == soFar + EvictAgents(s).1
  {
    var (evicted, events) := EvictAgent(s);
    Associative(soFar, events, EvictAgents(evicted).1);
  }

  class StateStore {
    var runs: map<Id, RunRecord>
    var runOrder: seq<Id>
    var sessions: map<Id, SessionRecord>
    var agents: map<Id, Agent>
    var finished: seq<Id>
    var finishedAgents: seq<Id>
    const maxFinishedRuns: nat
    const maxFinishedAgents: nat

    function Model(): StoreState
      reads this
    {
      StoreState(runs, runOrder, sessions, agents, finished, finishedAgents, maxFinishedRuns, maxFinishedAgents)
    }

    constructor (maxRuns: int, maxAgents: int)
      ensures Model() == EmptyStore(maxRuns, maxAgents)
    {
      runs, runOrder, sessions, agents, finished, finishedAgents := map[], [], map[], map[], [], [];
      maxFinishedRuns := if maxRuns < 0 then 0 else maxRuns;
      maxFinishedAgents := if maxAgents < 0 then 0 else maxAgents;
    }

    method UpsertSession(sessionId: Id, userId: Option<string>, now: Time) returns (session: SessionRecord)
      modifies this`sessions
      ensures session == UpsertedSession(old(Model()), sessionId, userId, now)
      ensures sessions == old(sessions)[sessionId := session]
    {
      if sessionId !in sessions {
        session := SessionRecord(sessionId, userId, now, now, []);
      } else {
        session := sessions[sessionId].(lastActivityAt := now);
        if userId.Some? {
          session := session.(userId := userId);
        }
      }
      sessions := sessions[sessionId := session];
    }

    method StartRun(requestId: Id, sessionId: Id, userId: Option<string>, clock: Clock) returns (reply: Reply,
                    events: seq<StoreEvent>)
      requires RunsHavePhases(Model())
      modifies this
      ensures (Model(), events) == Apply(old(Model()), Store.StartRun(requestId, sessionId, userId), clock)
      ensures reply == if requestId in old(runs) then ValueError else Applied
    {
      if requestId in runs {
        return ValueError, [];
      }
      var session := UpsertSession(sessionId, userId, clock.now);
      session := session.(runIds := session.runIds + [requestId]);
      sessions := sessions[sessionId := session];
      var record := RunRecord(requestId, sessionId, clock.now, clock.now, None, None, []);
      record := EnterPhase(record, Received, None, clock);
      runs := runs[requestId := record];
      runOrder := runOrder + [requestId];
      assert sessions == old(sessions)[sessionId := session];
      return Applied, [RunUpdated(record.Snapshot()), SessionUpdated(session.Snapshot())];
    }

    method UpdateRunPhase(requestId: Id, phase: RunPhase, node: Option<string>, clock: Clock) returns (reply: Reply,
                          events: seq<StoreEvent>)
      requires RunsHavePhases(Model())
      modifies this`runs
      ensures (Model(), events) == Apply(old(Model()), Store.UpdateRunPhase(requestId, phase, node), clock)
      ensures reply == if phase.Terminal() then ValueError else if events == [] then Ignored else Applied
    {
      if phase.Terminal() {
        return ValueError, [];
      }
      if requestId !in runs || runs[requestId].Terminal() {
        return Ignored, [];
      }
      runs := runs[requestId := EnterPhase(runs[requestId], phase, node, clock)];
      return Applied, [RunUpdated(runs[requestId].Snapshot())];
    }

    method CompleteRun(requestId: Id, resultSummary: Option<string>, clock: Clock) returns (reply: Reply,
                       events: seq<StoreEvent>)
      requires RunsHavePhases(Model())
      modifies this
      ensures (Model(), events) == Apply(old(Model()), Store.CompleteRun(requestId, resultSummary), clock)
      ensures reply == if events == [] then Ignored else Applied
    {
      reply, events := FinishRun(requestId, RunCompleted, resultSummary, None, clock);
    }

    method FailRun(requestId: Id, error: string, clock: Clock) returns (reply: Reply, events: seq<StoreEvent>)
      requires RunsHavePhases(Model())
      modifies this
      ensures (Model(), events) == Apply(old(Model()), Store.FailRun(requestId, error), clock)
      ensures reply == if events == [] then Ignored else Applied
    {
      reply, events := FinishRun(requestId, RunFailed, None, Some(error), clock);
    }

    method FinishRun(requestId: Id, phase: RunPhase, resultSummary: Option<string>, error: Option<string>, clock: Clock)
      returns (reply: Reply, events: seq<StoreEvent>)
      requires RunsHavePhases(Model())
      modifies this
      ensures (Model(), events) == Store.FinishRun(old(Model()), requestId, phase, resultSummary, error, clock)
      ensures reply == if events == [] then Ignored else Applied
    {
      if requestId !in runs || runs[requestId].Terminal() {
        return Ignored, [];
      }
      var record := EnterPhase(runs[requestId], phase, None, clock);
      record := record.(resultSummary := resultSummary, error := error);
      runs := runs[requestId := record];
      var evictions := EvictFinished(requestId);
      return Applied, [RunUpdated(record.Snapshot())] + evictions;
    }

    /** `_evict_finished`: roll the retention window of finished runs forward. */
    method EvictFinished(requestId: Id) returns (events: seq<StoreEvent>)
      requires RunsHavePhases(Model())
      modifies this
      ensures (Model(), events) == EvictRuns(old(Model()).(finished := old(finished) + [requestId]))
    {
      finished := finished + [requestId];
      events := [];
      ghost var start := Model();
      assert [] + EvictRuns(start).1 == EvictRuns(start).1;
      while |finished| > maxFinishedRuns
        invariant RunsHavePhases(Model())
        invariant Model().maxFinishedRuns == start.maxFinishedRuns
        invariant EvictRuns(start) == (EvictRuns(Model()).0, events + EvictRuns(Model()).1)
        decreases |finished|
      {
        ghost var before, soFar := Model(), events;
        var evicted := EvictOldestRun();
        events := events + evicted;
        assert events + EvictRuns(Model()).1 == soFar + EvictRuns(before).1;
      }
      assert events + [] == events;
    }

    /** One turn of the eviction loop. */
    method EvictOldestRun() returns (events: seq<StoreEvent>)
      requires RunsHavePhases(Model()) && finished != []
      modifies this
      ensures (Model(), events) == EvictRun(old(Model()))
    {
      var victimId := finished[0];
      finished := finished[1..];
      if victimId !in runs {
        return [];
      }
      var victim := runs[victimId];
      runs := runs - {victimId};
      runOrder := RemoveFirst(runOrder, victimId);
      if victim.sessionId in sessions && victimId in sessions[victim.sessionId].runIds {
        var session := sessions[victim.sessionId];
        sessions := sessions[victim.sessionId := session.(runIds := RemoveFirst(session.runIds, victimId))];
      }
      return [RunEvicted(victim.Snapshot())];
    }

    method TouchSession(sessionId: Id, userId: Option<string>, clock: Clock) returns (events: seq<StoreEvent>)
      requires RunsHavePhases(Model())
      modifies this`sessions
      ensures (Model(), events) == Apply(old(Model()), Store.TouchSession(sessionId, userId), clock)
    {
      var session := UpsertSession(sessionId, userId, clock.now);
      return [SessionUpdated(session.Snapshot())];
    }

    method RegisterAgent(agentId: Id, kind: string, task: string, sessionId: Option<Id>, requestId: Option<Id>,
                         clock: Clock)
      returns (reply: Reply, events: seq<StoreEvent>)
      requires RunsHavePhases(Model())
      modifies this`agents
      ensures (Model(), events) == Apply(old(Model()), Store.RegisterAgent(agentId, kind, task, sessionId, requestId),
              clock)
      ensures reply == if agentId in old(agents) then ValueError else Applied
    {
      if agentId in agents {
        return ValueError, [];
      }
      var record := Agent(agentId, kind, sessionId, requestId, Pending, clock.now, clock.now, None, None, None, None,
          []);
      record := record.(queuedTasks := record.queuedTasks + [AgentTask(agentId, task, clock.now)]);
      assert record.queuedTasks == [AgentTask(agentId, task, clock.now)];
      agents := agents[agentId := record];
      return Applied, [AgentUpdated(record)];
    }

    method UpdateAgent(agentId: Id, u: AgentUpdate, clock: Clock) returns (reply: Reply, events: seq<StoreEvent>)
      requires RunsHavePhases(Model())
      modifies this
      ensures (Model(), events) == Apply(old(Model()), Store.UpdateAgent(agentId, u), clock)
      ensures reply == if events == [] then Ignored else Applied
    {
      if agentId !in agents || agents[agentId].state.Terminal() {
        return Ignored, [];
      }
      var record := agents[agentId];
      if u.state.Some? {
        record := record.(state := u.state.value);
        if u.state.value != Pending {
          record := record.(queuedTasks := []);
        }
      }
      if u.progressPhase.Some? {
        record := record.(progressPhase := u.progressPhase);
      }
      if u.progressFraction.Some? {
        record := record.(progressFraction := Some(Clamp(u.progressFraction.value)));
      }
      if u.lastResult.Some? {
        record := record.(lastResult := u.lastResult);
      }
      if u.error.Some? {
        record := record.(error := u.error);
      }
      record := record.(updatedAt := clock.now);
      assert record == UpdatedAgent(agents[agentId], u, clock.now);
      agents := agents[agentId := record];
      events := [AgentUpdated(record)];
      if record.state.Terminal() {
        var evictions := EvictFinishedAgents(agentId);
        events := events + evictions;
      }
      return Applied, events;
    }

    /** `_evict_finished_agents`: roll the retention window of settled agents forward. */
    method EvictFinishedAgents(agentId: Id) returns (events: seq<StoreEvent>)
      modifies this
      ensures (Model(), events) == EvictAgents(old(Model()).(finishedAgents := old(finishedAgents) + [agentId]))
    {
      finishedAgents := finishedAgents + [agentId];
      events := [];
      ghost var start := Model();
      assert [] + EvictAgents(start).1 == EvictAgents(start).1;
      while |finishedAgents| > maxFinishedAgents
        invariant Model().maxFinishedAgents == start.maxFinishedAgents
        invariant EvictAgents(start) == (EvictAgents(Model()).0, events + EvictAgents(Model()).1)
        decreases |finishedAgents|
      {
        ghost var before, soFar := Model(), events;
        var victimId := finishedAgents[0];
        finishedAgents := finishedAgents[1..];
        if victimId in agents {
          events := events + [AgentEvicted(agents[victimId])];
          agents := agents - {victimId};
        }
        assert Model() == EvictAgent(before).0;
        assert events == soFar + EvictAgent(before).1;
        EvictAgentsStep(before, soFar);
      }
      assert events + [] == events;
    }
  }
}
