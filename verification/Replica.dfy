/** What a client that folds the event stream holds, and why each mutation's events carry exactly
    the change of the store's view. */
module Replica {
  import opened Basics
  import opened Store
  import opened StoreInvariants

  /** The payload of the connect-time snapshot message, keyed by id. */
  datatype View = View(runs: map<Id, RunSnapshot>, sessions: map<Id, SessionSnapshot>, agents: map<Id, Agent>)

  const EMPTY_VIEW := View(map[], map[], map[])

  function ViewOf(s: StoreState): View
    requires RunsHavePhases(s)
  {
    View(map id | id in s.runs :: s.runs[id].Snapshot(), map id | id in s.sessions ::
        s.sessions[id].Snapshot(), s.agents)
  }

  /** One message applied to the client's copy.  The store edits the session of an evicted run
      without a `session_updated`, so the client has to follow `run_evicted` there too. */
  function Fold(v: View, e: StoreEvent): View {
    match e
    case RunUpdated(run) => v.(runs := v.runs[run.requestId := run])
    case SessionUpdated(session) => v.(sessions := v.sessions[session.sessionId := session])
    case AgentUpdated(agent) => v.(agents := v.agents[agent.agentId := agent])
    case AgentEvicted(agent) => v.(agents := v.agents - {agent.agentId})
    case RunEvicted(run) =>
      var sessions :=
        if run.sessionId in v.sessions then
          var session := v.sessions[run.sessionId];
          v.sessions[run.sessionId := session.(runIds := Without(session.runIds, run.requestId))]
        else v.sessions;
      v.(runs := v.runs - {run.requestId}, sessions := sessions)
  }

  function FoldAll(v: View, events: seq<StoreEvent>): View
    decreases |events|
  {
    if events == [] then v else FoldAll(Fold(v, events[0]), events[1..])
  }

  lemma {:induction false} FoldAllAppend(v: View, a: seq<StoreEvent>, b: seq<StoreEvent>)
    ensures FoldAll(v, a + b) == FoldAll(FoldAll(v, a), b)
    decreases |a|
  {
    if a == [] {
      assert a + b == b;
    } else {
      assert (a + b)[1..] == a[1..] + b;
      FoldAllAppend(Fold(v, a[0]), a[1..], b);
    }
  }

  lemma FoldOne(v: View, e: StoreEvent)
    ensures FoldAll(v, [e]) == Fold(v, e)
  {
  }

  // ----- a mutation's events fold the old view into the new one -----

  lemma RunsUpdated(s: StoreState, record: RunRecord)
    requires RunsHavePhases(s) && record.phases != []
    ensures var s' := s.(runs := s.runs[record.requestId := record]);
            RunsHavePhases(s') && ViewOf(s').runs == ViewOf(s).runs[record.requestId := record.Snapshot()]
  {
  }

  lemma FoldRunUpdated(s: StoreState, record: RunRecord)
    requires RunsHavePhases(s) && record.phases != []
    ensures RunsHavePhases(s.(runs := s.runs[record.requestId := record]))
    ensures Fold(ViewOf(s), RunUpdated(record.Snapshot())) == ViewOf(s.(runs := s.runs[record.requestId := record]))
  {
    RunsUpdated(s, record);
  }

  /** The session of an evicted run, in the store and in the client's copy. */
  lemma SessionWithoutRun(session: SessionRecord, id: Id)
    ensures session.(runIds := Without(session.runIds, id)).Snapshot()
            == session.Snapshot().(runIds := Without(session.Snapshot().runIds, id))
  {
    WithoutReverse(session.runIds, id);
  }

  lemma FoldRunEvicted(s: StoreState, s': StoreState, victim: RunRecord, session: SessionRecord)
    requires RunsHavePhases(s) && victim.phases != []
    requires victim.sessionId in s.sessions && s.sessions[victim.sessionId] == session
    requires s'.runs == s.runs - {victim.requestId} && s'.agents == s.agents
    requires s'.sessions
             == s.sessions[victim.sessionId := session.(runIds := Without(session.runIds, victim.requestId))]
    ensures RunsHavePhases(s') && Fold(ViewOf(s), RunEvicted(victim.Snapshot())) == ViewOf(s')
  {
    SessionWithoutRun(session, victim.requestId);
    SessionsUpdated(s, s', session.(runIds := Without(session.runIds, victim.requestId)), victim.sessionId);
    RunsRemoved(s, s', victim.requestId);
  }

  lemma RunsRemoved(s: StoreState, s': StoreState, id: Id)
    requires RunsHavePhases(s) && s'.runs == s.runs - {id}
    ensures RunsHavePhases(s') && ViewOf(s').runs == ViewOf(s).runs - {id}
  {
  }

  lemma SessionsUpdated(s: StoreState, s': StoreState, session: SessionRecord, id: Id)
    requires RunsHavePhases(s) && RunsHavePhases(s') && s'.sessions == s.sessions[id := session]
    ensures ViewOf(s').sessions == ViewOf(s).sessions[id := session.Snapshot()]
  {
  }

  lemma FoldEvictRun(s: StoreState)
    requires Coherent(s) && RunsHavePhases(s) && s.finished != []
    ensures RunsHavePhases(EvictRun(s).0)
    ensures FoldAll(ViewOf(s), EvictRun(s).1) == ViewOf(EvictRun(s).0)
  {
    var id := s.finished[0];
    assert id in s.finished;
    var victim := s.runs[id];
    SessionRunsRemovable(s, id);
    FoldRunEvicted(s, EvictRun(s).0, victim, s.sessions[victim.sessionId]);
    FoldOne(ViewOf(s), RunEvicted(victim.Snapshot()));
  }

  lemma {:induction false} FoldEvictRuns(s: StoreState)
    requires Coherent(s) && RunsHavePhases(s)
    ensures RunsHavePhases(EvictRuns(s).0)
    ensures FoldAll(ViewOf(s), EvictRuns(s).1) == ViewOf(EvictRuns(s).0)
    decreases |s.finished|
  {
    if |s.finished| > s.maxFinishedRuns {
      FoldEvictRun(s);
      EvictRunKeepsCoherent(s);
      var (s1, events) := EvictRun(s);
      FoldEvictRuns(s1);
      FoldAllAppend(ViewOf(s), events, EvictRuns(s1).1);
    }
  }

  lemma {:induction false} FoldEvictAgents(s: StoreState)
    requires Coherent(s) && RunsHavePhases(s)
    ensures RunsHavePhases(EvictAgents(s).0)
    ensures FoldAll(ViewOf(s), EvictAgents(s).1) == ViewOf(EvictAgents(s).0)
    decreases |s.finishedAgents|
  {
    if |s.finishedAgents| > s.maxFinishedAgents {
      var id := s.finishedAgents[0];
      assert id in s.finishedAgents;
      var (s1, events) := EvictAgent(s);
      FoldOne(ViewOf(s), AgentEvicted(s.agents[id]));
      EvictAgentKeepsCoherent(s);
      FoldEvictAgents(s1);
      FoldAllAppend(ViewOf(s), events, EvictAgents(s1).1);
    }
  }

  lemma FoldFinishRun(s: StoreState, id: Id, phase: RunPhase, summary: Option<string>, error: Option<string>,
                      clock: Clock)
    requires StoreOk(s) && RunsHavePhases(s) && phase.Terminal()
    ensures RunsHavePhases(FinishRun(s, id, phase, summary, error, clock).0)
    ensures FoldAll(ViewOf(s), FinishRun(s, id, phase, summary, error, clock).1)
            == ViewOf(FinishRun(s, id, phase, summary, error, clock).0)
  {
    if id in s.runs && !s.runs[id].Terminal() {
      var record := FinishedRecord(s.runs[id], phase, summary, error, clock);
      var middle := BeforeRunEviction(s, id, record);
      FinishRunBeforeEviction(s, id, phase, summary, error, clock);
      FoldRunUpdated(s, record);
      assert ViewOf(middle) == ViewOf(s.(runs := s.runs[id := record]));
      FoldOne(ViewOf(s), RunUpdated(record.Snapshot()));
      FoldEvictRuns(middle);
      FoldAllAppend(ViewOf(s), [RunUpdated(record.Snapshot())], EvictRuns(middle).1);
    }
  }

  lemma FoldUpdateAgent(s: StoreState, id: Id, update: AgentUpdate, clock: Clock)
    requires StoreOk(s) && RunsHavePhases(s)
    ensures RunsHavePhases(Apply(s, UpdateAgent(id, update), clock).0)
    ensures FoldAll(ViewOf(s), Apply(s, UpdateAgent(id, update), clock).1)
            == ViewOf(Apply(s, UpdateAgent(id, update), clock).0)
  {
    if id in s.agents && !s.agents[id].state.Terminal() {
      var agent := UpdatedAgent(s.agents[id], update, clock.now);
      FoldOne(ViewOf(s), AgentUpdated(agent));
      if agent.state.Terminal() {
        var middle := BeforeAgentEviction(s, id, agent);
        SettleBeforeEviction(s, id, agent);
        assert ViewOf(middle) == Fold(ViewOf(s), AgentUpdated(agent));
        FoldEvictAgents(middle);
        FoldAllAppend(ViewOf(s), [AgentUpdated(agent)], EvictAgents(middle).1);
      }
    }
  }

  lemma FoldStartRun(s: StoreState, id: Id, sid: Id, userId: Option<string>, clock: Clock)
    requires RunsHavePhases(s) && (sid in s.sessions ==> s.sessions[sid].sessionId == sid)
    ensures RunsHavePhases(Apply(s, StartRun(id, sid, userId), clock).0)
    ensures FoldAll(ViewOf(s), Apply(s, StartRun(id, sid, userId), clock).1)
            == ViewOf(Apply(s, StartRun(id, sid, userId), clock).0)
  {
    if id !in s.runs {
      var record := EnterPhase(RunRecord(id, sid, clock.now, clock.now, None, None, []), Received, None, clock);
      var upserted := UpsertedSession(s, sid, userId, clock.now);
      var session := upserted.(runIds := upserted.runIds + [id]);
      FoldRunUpdated(s, record);
      FoldSessionUpdated(s.(runs := s.runs[id := record]), session, s.runOrder + [id]);
      FoldTwo(ViewOf(s), RunUpdated(record.Snapshot()), SessionUpdated(session.Snapshot()));
    }
  }

  lemma FoldTwo(v: View, a: StoreEvent, b: StoreEvent)
    ensures FoldAll(v, [a, b]) == Fold(Fold(v, a), b)
  {
    assert [a, b][1..] == [b];
    FoldOne(Fold(v, a), b);
  }

  lemma FoldSessionUpdated(s: StoreState, session: SessionRecord, order: seq<Id>)
    requires RunsHavePhases(s)
    ensures var s' := s.(sessions := s.sessions[session.sessionId := session], runOrder := order);
            RunsHavePhases(s') && Fold(ViewOf(s), SessionUpdated(session.Snapshot())) == ViewOf(s')
  {
    var s' := s.(sessions := s.sessions[session.sessionId := session], runOrder := order);
    assert Fold(ViewOf(s), SessionUpdated(session.Snapshot())).sessions == ViewOf(s').sessions;
  }

  lemma FoldUpdateRunPhase(s: StoreState, id: Id, phase: RunPhase, node: Option<string>, clock: Clock)
    requires RunsHavePhases(s) && (id in s.runs ==> s.runs[id].requestId == id)
    ensures RunsHavePhases(Apply(s, UpdateRunPhase(id, phase, node), clock).0)
    ensures FoldAll(ViewOf(s), Apply(s, UpdateRunPhase(id, phase, node), clock).1)
            == ViewOf(Apply(s, UpdateRunPhase(id, phase, node), clock).0)
  {
    if !phase.Terminal() && id in s.runs && !s.runs[id].Terminal() {
      var record := EnterPhase(s.runs[id], phase, node, clock);
      FoldRunUpdated(s, record);
      FoldOne(ViewOf(s), RunUpdated(record.Snapshot()));
    }
  }

  lemma FoldTouchSession(s: StoreState, sid: Id, userId: Option<string>, clock: Clock)
    requires RunsHavePhases(s) && (sid in s.sessions ==> s.sessions[sid].sessionId == sid)
    ensures FoldAll(ViewOf(s), Apply(s, TouchSession(sid, userId), clock).1)
            == ViewOf(Apply(s, TouchSession(sid, userId), clock).0)
  {
    var session := UpsertedSession(s, sid, userId, clock.now);
    FoldOne(ViewOf(s), SessionUpdated(session.Snapshot()));
    assert Fold(ViewOf(s), SessionUpdated(session.Snapshot())).sessions
        == ViewOf(Apply(s, TouchSession(sid, userId), clock).0).sessions;
  }

  lemma FoldRegisterAgent(s: StoreState, m: Mutation, clock: Clock)
    requires RunsHavePhases(s) && m.RegisterAgent?
    ensures FoldAll(ViewOf(s), Apply(s, m, clock).1) == ViewOf(Apply(s, m, clock).0)
  {
    if m.agentId !in s.agents {
      FoldOne(ViewOf(s), Apply(s, m, clock).1[0]);
    }
  }

  /** Every mutation, evictions included, emits exactly what turns the old view into the new one. */
  lemma FoldMutation(s: StoreState, m: Mutation, clock: Clock)
    requires StoreOk(s)
    ensures RunsHavePhases(s) && RunsHavePhases(Apply(s, m, clock).0)
    ensures FoldAll(ViewOf(s), Apply(s, m, clock).1) == ViewOf(Apply(s, m, clock).0)
  {
    match m
    case StartRun(id, sid, userId) => FoldStartRun(s, id, sid, userId, clock);
    case UpdateRunPhase(id, phase, node) => FoldUpdateRunPhase(s, id, phase, node, clock);
    case CompleteRun(id, summary) => FoldFinishRun(s, id, RunCompleted, summary, None, clock);
    case FailRun(id, error) => FoldFinishRun(s, id, RunFailed, None, Some(error), clock);
    case TouchSession(sid, userId) => FoldTouchSession(s, sid, userId, clock);
    case RegisterAgent(_, _, _, _, _) => FoldRegisterAgent(s, m, clock);
    case UpdateAgent(id, update) => FoldUpdateAgent(s, id, update, clock);
  }
}
