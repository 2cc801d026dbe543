/** What every mutation of the store keeps: coherent indexes, bounded retention windows, phase
    histories whose timing adds up, and session run lists in start order. */
module StoreInvariants {
  import opened Basics
  import opened Store

  // ----- phase histories -----

  /** All phases but the last are closed, the last is open, and only the last may be terminal. */
  ghost predicate PhasesOk(p: seq<PhaseEntry>) {
    && p != []
    && (forall k | 0 <= k < |p| - 1 ::
         p[k].durationMs == Some((p[k + 1].perfStarted - p[k].perfStarted) * 1000.0) && !p[k].phase.Terminal())
    && p[|p| - 1].durationMs == None
  }

  ghost function ClosedMs(p: seq<PhaseEntry>): real {
    if p == [] then 0.0 else ClosedMs(p[..|p| - 1]) + p[|p| - 1].durationMs.GetOr(0.0)
  }

  /** Phase timing is conserved: the closed durations add up to the time from the start of the first
      phase to the start of the last. */
  lemma {:induction false} DurationsAddUp(p: seq<PhaseEntry>)
    requires PhasesOk(p)
    ensures ClosedMs(p) == (p[|p| - 1].perfStarted - p[0].perfStarted) * 1000.0
  {
    SumClosed(p, |p| - 1);
    assert p[..|p| - 1] + [p[|p| - 1]] == p;
  }

  lemma {:induction false} SumClosed(p: seq<PhaseEntry>, n: nat)
    requires PhasesOk(p) && n < |p|
    ensures ClosedMs(p[..n]) == (p[n].perfStarted - p[0].perfStarted) * 1000.0
  {
    if n > 0 {
      SumClosed(p, n - 1);
      assert p[..n][..n - 1] == p[..n - 1];
    }
  }

  lemma EnterPhaseKeepsPhasesOk(r: RunRecord, phase: RunPhase, node: Option<string>, clock: Clock)
    requires r.phases == [] || (PhasesOk(r.phases) && !r.Terminal())
    ensures PhasesOk(EnterPhase(r, phase, node, clock).phases)
  {
  }

  // ----- coherence -----

  /** A session's retained runs, oldest start first. */
  ghost function RunsOf(order: seq<Id>, runs: map<Id, RunRecord>, sid: Id): seq<Id> {
    if order == [] then []
    else RunsOf(order[..|order| - 1], runs, sid) +
         if order[|order| - 1] in runs && runs[order[|order| - 1]].sessionId == sid then [order[|order| - 1]] else []
  }

  ghost predicate RunsOk(runs: map<Id, RunRecord>, order: seq<Id>) {
    && (forall x | x in runs :: runs[x].requestId == x && PhasesOk(runs[x].phases))
    && NoDup(order)
    && (forall x :: x in order <==> x in runs)
  }

  ghost predicate SessionsOk(sessions: map<Id, SessionRecord>, runs: map<Id, RunRecord>, order: seq<Id>) {
    && (forall x | x in runs :: runs[x].sessionId in sessions)
    && (forall sid | sid in sessions ::
         sessions[sid].sessionId == sid && sessions[sid].runIds == RunsOf(order, runs, sid))
  }

  ghost predicate FinishedOk(finished: seq<Id>, runs: map<Id, RunRecord>) {
    && NoDup(finished)
    && (forall x :: x in finished <==> x in runs && runs[x].Terminal())
  }

  ghost predicate AgentsOk(agents: map<Id, Agent>, finishedAgents: seq<Id>) {
    && (forall x | x in agents :: agents[x].agentId == x)
    && NoDup(finishedAgents)
    && (forall x :: x in finishedAgents <==> x in agents && agents[x].state.Terminal())
  }

  /** Everything but the retention bounds, which the eviction loops restore. */
  ghost predicate Coherent(s: StoreState) {
    && RunsOk(s.runs, s.runOrder)
    && SessionsOk(s.sessions, s.runs, s.runOrder)
    && FinishedOk(s.finished, s.runs)
    && AgentsOk(s.agents, s.finishedAgents)
  }

  ghost predicate StoreOk(s: StoreState) {
    Coherent(s) && |s.finished| <= s.maxFinishedRuns && |s.finishedAgents| <= s.maxFinishedAgents
  }

  // ----- sequence facts -----

  lemma {:induction false} RemoveFirstIsWithout(s: seq<Id>, x: Id)
    requires NoDup(s)
    ensures RemoveFirst(s, x) == Without(s, x)
  {
    if s != [] {
      assert NoDup(s[1..]);
      if s[0] == x {
        assert x !in s[1..];
        WithoutAbsent(s[1..], x);
      } else {
        RemoveFirstIsWithout(s[1..], x);
      }
    }
  }

  lemma {:induction false} WithoutAbsent(s: seq<Id>, x: Id)
    requires x !in s
    ensures Without(s, x) == s
  {
    if s != [] {
      WithoutAbsent(s[1..], x);
    }
  }

  lemma {:induction false} WithoutSnoc(s: seq<Id>, y: Id, x: Id)
    ensures Without(s + [y], x) == Without(s, x) + if y == x then [] else [y]
  {
    if s != [] {
      assert (s + [y])[1..] == s[1..] + [y];
      WithoutSnoc(s[1..], y, x);
    }
  }

  lemma {:induction false} WithoutReverse(s: seq<Id>, x: Id)
    ensures Without(Reverse(s), x) == Reverse(Without(s, x))
  {
    if s != [] {
      WithoutSnoc(Reverse(s[1..]), s[0], x);
      WithoutReverse(s[1..], x);
    }
  }

  lemma {:induction false} WithoutNoDup(s: seq<Id>, x: Id)
    requires NoDup(s)
    ensures NoDup(Without(s, x))
  {
    if s != [] {
      assert NoDup(s[1..]);
      WithoutNoDup(s[1..], x);
      var w := Without(s[1..], x);
      if s[0] != x {
        forall i, j | 0 <= i < j < |[s[0]] + w|
          ensures ([s[0]] + w)[i] != ([s[0]] + w)[j]
        {
          assert w[j - 1] in w;
        }
      }
    }
  }

  lemma {:induction false} RunsOfMembers(order: seq<Id>, runs: map<Id, RunRecord>, sid: Id)
    ensures forall x :: x in RunsOf(order, runs, sid) <==> x in order && x in runs && runs[x].sessionId == sid
  {
    if order != [] {
      RunsOfMembers(order[..|order| - 1], runs, sid);
      assert order == order[..|order| - 1] + [order[|order| - 1]];
    }
  }

  lemma {:induction false} RunsOfNoDup(order: seq<Id>, runs: map<Id, RunRecord>, sid: Id)
    requires NoDup(order)
    ensures NoDup(RunsOf(order, runs, sid))
  {
    if order != [] {
      var last := order[|order| - 1];
      var front := order[..|order| - 1];
      RunsOfNoDup(front, runs, sid);
      RunsOfMembers(front, runs, sid);
      assert last !in front;
    }
  }

  /** Dropping a run from the dictionary drops it from its session's list and no other. */
  lemma {:induction false} RunsOfWithout(order: seq<Id>, runs: map<Id, RunRecord>, sid: Id, x: Id)
    ensures RunsOf(Without(order, x), runs - {x}, sid) == Without(RunsOf(order, runs, sid), x)
  {
    if order != [] {
      var last, front := order[|order| - 1], order[..|order| - 1];
      assert order == front + [last];
      WithoutSnoc(front, last, x);
      RunsOfWithout(front, runs, sid, x);
      RunsOfSnoc(front, runs, sid, last);
      RunsOfSnoc(Without(front, x), runs - {x}, sid, last);
      WithoutSnoc(RunsOf(front, runs, sid), last, x);
      if last == x {
        assert Without(order, x) == Without(front, x);
      }
      assert RunsOf(front, runs, sid) + [] == RunsOf(front, runs, sid);
    }
  }

  lemma RunsOfSnoc(order: seq<Id>, runs: map<Id, RunRecord>, sid: Id, last: Id)
    ensures RunsOf(order + [last], runs, sid) == RunsOf(order, runs, sid) + if last in runs
            && runs[last].sessionId == sid then [last] else []
  {
    assert (order + [last])[..|order + [last]| - 1] == order;
  }

  lemma {:induction false} RunsOfSame(order: seq<Id>, runs: map<Id, RunRecord>, runs': map<Id, RunRecord>, sid: Id)
    requires forall x | x in order ::
            (x in runs <==> x in runs') && (x in runs ==> runs[x].sessionId == runs'[x].sessionId)
    ensures RunsOf(order, runs, sid) == RunsOf(order, runs', sid)
  {
    if order != [] {
      RunsOfSame(order[..|order| - 1], runs, runs', sid);
    }
  }

  // ----- mutations keep the store coherent -----

  lemma UpdateRunKeepsOk(s: StoreState, id: Id, record: RunRecord)
    requires RunsOk(s.runs, s.runOrder) && SessionsOk(s.sessions, s.runs, s.runOrder) && id in s.runs
    requires record.requestId == id && record.sessionId == s.runs[id].sessionId && PhasesOk(record.phases)
    ensures RunsOk(s.runs[id := record], s.runOrder) && SessionsOk(s.sessions, s.runs[id := record], s.runOrder)
  {
    forall sid | sid in s.sessions
      ensures RunsOf(s.runOrder, s.runs, sid) == RunsOf(s.runOrder, s.runs[id := record], sid)
    {
      RunsOfSame(s.runOrder, s.runs, s.runs[id := record], sid);
    }
  }

  lemma EmptyOrMember(s: seq<Id>)
    ensures s == [] || exists x :: x in s
  {
    if s != [] {
      assert s[0] in s;
    }
  }

  lemma NoRunsYet(sessions: map<Id, SessionRecord>, runs: map<Id, RunRecord>, order: seq<Id>, sid: Id)
    requires SessionsOk(sessions, runs, order) && sid !in sessions
    ensures RunsOf(order, runs, sid) == []
  {
    RunsOfMembers(order, runs, sid);
    EmptyOrMember(RunsOf(order, runs, sid));
  }

  lemma UpsertKeepsSessionsOk(s: StoreState, sid: Id, userId: Option<string>, now: Time)
    requires SessionsOk(s.sessions, s.runs, s.runOrder)
    ensures SessionsOk(s.sessions[sid := UpsertedSession(s, sid, userId, now)], s.runs, s.runOrder)
  {
    if sid !in s.sessions {
      NoRunsYet(s.sessions, s.runs, s.runOrder, sid);
    }
  }

  lemma StartRunKeepsSessionsOk(sessions: map<Id, SessionRecord>, runs: map<Id, RunRecord>, order: seq<Id>,
                                record: RunRecord)
    requires SessionsOk(sessions, runs, order) && record.sessionId in sessions
    requires record.requestId !in runs && record.requestId !in order
    ensures var session := sessions[record.sessionId];
            SessionsOk(sessions[record.sessionId := session.(runIds := session.runIds + [record.requestId])],
                       runs[record.requestId := record], order + [record.requestId])
  {
    var id := record.requestId;
    forall sid
      ensures RunsOf(order + [id], runs[id := record], sid) ==
              RunsOf(order, runs, sid) + if sid == record.sessionId then [id] else []
    {
      RunsOfSnoc(order, runs[id := record], sid, id);
      RunsOfSame(order, runs, runs[id := record], sid);
    }
  }

  lemma StartRunKeepsCoherent(s: StoreState, id: Id, sid: Id, userId: Option<string>, clock: Clock)
    requires Coherent(s) && RunsHavePhases(s) && id !in s.runs
    ensures Coherent(Apply(s, StartRun(id, sid, userId), clock).0)
  {
    var record := EnterPhase(RunRecord(id, sid, clock.now, clock.now, None, None, []), Received, None, clock);
    assert record.phases == [PhaseEntry(Received, None, clock.now, clock.perf, None)];
    UpsertKeepsSessionsOk(s, sid, userId, clock.now);
    var session := UpsertedSession(s, sid, userId, clock.now);
    var upserted := s.sessions[sid := session];
    StartRunKeepsSessionsOk(upserted, s.runs, s.runOrder, record);
    assert upserted[sid := session.(runIds := session.runIds + [id])]
        == s.sessions[sid := session.(runIds := session.runIds + [id])];
    StartRunKeepsRest(s.runs, s.runOrder, s.finished, record);
  }

  lemma StartRunKeepsRest(runs: map<Id, RunRecord>, order: seq<Id>, finished: seq<Id>, record: RunRecord)
    requires RunsOk(runs, order) && FinishedOk(finished, runs) && record.requestId !in runs
    requires PhasesOk(record.phases) && !record.Terminal()
    ensures RunsOk(runs[record.requestId := record], order + [record.requestId])
    ensures FinishedOk(finished, runs[record.requestId := record])
  {
    assert record.requestId !in finished && record.requestId !in order;
  }

  lemma RunsOfEvicted(order: seq<Id>, runs: map<Id, RunRecord>, id: Id, sid: Id)
    requires id in runs
    ensures RunsOf(Without(order, id), runs - {id}, sid) ==
            if sid == runs[id].sessionId then Without(RunsOf(order, runs, sid), id) else RunsOf(order, runs, sid)
  {
    RunsOfWithout(order, runs, sid, id);
    if sid != runs[id].sessionId {
      RunsOfMembers(order, runs, sid);
      WithoutAbsent(RunsOf(order, runs, sid), id);
    }
  }

  lemma SessionRunsRemovable(s: StoreState, id: Id)
    requires RunsOk(s.runs, s.runOrder) && SessionsOk(s.sessions, s.runs, s.runOrder) && id in s.runs
    ensures var ids := s.sessions[s.runs[id].sessionId].runIds;
            id in ids && RemoveFirst(ids, id) == Without(ids, id)
  {
    var sid := s.runs[id].sessionId;
    RunsOfMembers(s.runOrder, s.runs, sid);
    RunsOfNoDup(s.runOrder, s.runs, sid);
    RemoveFirstIsWithout(s.sessions[sid].runIds, id);
  }

  lemma EvictRunKeepsSessionsOk(sessions: map<Id, SessionRecord>, runs: map<Id, RunRecord>, order: seq<Id>, id: Id)
    requires SessionsOk(sessions, runs, order) && id in runs
    ensures var session := sessions[runs[id].sessionId];
            SessionsOk(sessions[session.sessionId := session.(runIds := Without(session.runIds, id))], runs - {id},
                Without(order, id))
  {
    forall other | other in sessions
      ensures RunsOf(Without(order, id), runs - {id}, other) ==
              if other == runs[id].sessionId then Without(sessions[other].runIds, id) else sessions[other].runIds
    {
      RunsOfEvicted(order, runs, id, other);
    }
  }

  lemma TailNoDup(s: seq<Id>)
    requires NoDup(s) && s != []
    ensures NoDup(s[1..]) && s[0] !in s[1..] && forall x :: x in s <==> x == s[0] || x in s[1..]
  {
    assert s == [s[0]] + s[1..];
  }

  lemma EvictRunKeepsCoherent(s: StoreState)
    requires Coherent(s) && RunsHavePhases(s) && s.finished != []
    ensures Coherent(EvictRun(s).0)
    ensures s.finished[0] in s.runs && s.runs[s.finished[0]].Terminal()
  {
    var id := s.finished[0];
    assert id in s.finished;
    TailNoDup(s.finished);
    SessionRunsRemovable(s, id);
    EvictRunKeepsSessionsOk(s.sessions, s.runs, s.runOrder, id);
    RemoveFirstIsWithout(s.runOrder, id);
    WithoutNoDup(s.runOrder, id);
  }

  lemma EvictAgentKeepsCoherent(s: StoreState)
    requires Coherent(s) && s.finishedAgents != []
    ensures Coherent(EvictAgent(s).0)
  {
    assert s.finishedAgents[0] in s.finishedAgents;
    TailNoDup(s.finishedAgents);
  }

  /** The windows: what the retention loop leaves of a finished queue. */
  ghost function Newest(s: seq<Id>, n: nat): seq<Id> {
    if |s| <= n then s else s[|s| - n..]
  }

  /** Nothing in flight is evicted, and nothing retained changes. */
  ghost predicate OnlyFinishedRunsLeave(before: map<Id, RunRecord>, after: map<Id, RunRecord>) {
    && (forall x | x in after :: x in before && after[x] == before[x])
    && (forall x | x in before && !before[x].Terminal() :: x in after)
  }

  lemma EvictRunFrame(s: StoreState)
    requires Coherent(s) && RunsHavePhases(s) && s.finished != []
    ensures var r := EvictRun(s).0;
            && RunsHavePhases(r)
            && r == s.(runs := r.runs, runOrder := r.runOrder, sessions := r.sessions, finished := s.finished[1..])
            && OnlyFinishedRunsLeave(s.runs, r.runs)
  {
    EvictRunKeepsCoherent(s);
  }

  lemma {:induction false} EvictRunsKeepsCoherent(s: StoreState)
    requires Coherent(s) && RunsHavePhases(s)
    ensures Coherent(EvictRuns(s).0)
    decreases |s.finished|
  {
    if |s.finished| > s.maxFinishedRuns {
      EvictRunKeepsCoherent(s);
      EvictRunFrame(s);
      EvictRunsKeepsCoherent(EvictRun(s).0);
    }
  }

  lemma {:induction false} EvictRunsFrame(s: StoreState)
    requires RunsHavePhases(s)
    ensures var r := EvictRuns(s).0;
            && r.finished == Newest(s.finished, s.maxFinishedRuns)
            && r == s.(runs := r.runs, runOrder := r.runOrder, sessions := r.sessions, finished := r.finished)
    decreases |s.finished|
  {
    if |s.finished| > s.maxFinishedRuns {
      EvictRunsFrame(EvictRun(s).0);
    }
  }

  lemma {:induction false} EvictRunsLeaveRest(s: StoreState)
    requires Coherent(s) && RunsHavePhases(s)
    ensures OnlyFinishedRunsLeave(s.runs, EvictRuns(s).0.runs)
    decreases |s.finished|
  {
    if |s.finished| > s.maxFinishedRuns {
      EvictRunKeepsCoherent(s);
      EvictRunFrame(s);
      var s1 := EvictRun(s).0;
      EvictRunsLeaveRest(s1);
      LeaveTransitive(s.runs, s1.runs, EvictRuns(s1).0.runs);
    }
  }

  lemma EvictRunsRestoresBound(s: StoreState)
    requires Coherent(s) && RunsHavePhases(s)
    ensures var r := EvictRuns(s).0;
            && Coherent(r) && r.finished == Newest(s.finished, s.maxFinishedRuns)
            && r == s.(runs := r.runs, runOrder := r.runOrder, sessions := r.sessions, finished := r.finished)
            && OnlyFinishedRunsLeave(s.runs, r.runs)
  {
    EvictRunsKeepsCoherent(s);
    EvictRunsFrame(s);
    EvictRunsLeaveRest(s);
  }

  lemma LeaveTransitive(a: map<Id, RunRecord>, b: map<Id, RunRecord>, c: map<Id, RunRecord>)
    requires OnlyFinishedRunsLeave(a, b) && OnlyFinishedRunsLeave(b, c)
    ensures OnlyFinishedRunsLeave(a, c)
  {
  }

  ghost predicate OnlyFinishedAgentsLeave(before: map<Id, Agent>, after: map<Id, Agent>) {
    && (forall x | x in after :: x in before && after[x] == before[x])
    && (forall x | x in before && !before[x].state.Terminal() :: x in after)
  }

  lemma AgentsLeaveTransitive(a: map<Id, Agent>, b: map<Id, Agent>, c: map<Id, Agent>)
    requires OnlyFinishedAgentsLeave(a, b) && OnlyFinishedAgentsLeave(b, c)
    ensures OnlyFinishedAgentsLeave(a, c)
  {
  }

  lemma EvictAgentKeepsAgentsOk(s: StoreState)
    requires AgentsOk(s.agents, s.finishedAgents) && s.finishedAgents != []
    ensures AgentsOk(EvictAgent(s).0.agents, EvictAgent(s).0.finishedAgents)
    ensures OnlyFinishedAgentsLeave(s.agents, EvictAgent(s).0.agents)
  {
    assert s.finishedAgents[0] in s.finishedAgents;
    TailNoDup(s.finishedAgents);
  }

  lemma {:induction false} EvictAgentsKeepsAgentsOk(s: StoreState)
    requires AgentsOk(s.agents, s.finishedAgents)
    ensures AgentsOk(EvictAgents(s).0.agents, EvictAgents(s).0.finishedAgents)
    ensures OnlyFinishedAgentsLeave(s.agents, EvictAgents(s).0.agents)
    decreases |s.finishedAgents|
  {
    if |s.finishedAgents| > s.maxFinishedAgents {
      EvictAgentKeepsAgentsOk(s);
      var s1 := EvictAgent(s).0;
      EvictAgentsKeepsAgentsOk(s1);
      AgentsLeaveTransitive(s.agents, s1.agents, EvictAgents(s1).0.agents);
    }
  }

  lemma NewestTail(s: seq<Id>, n: nat)
    requires |s| > n
    ensures Newest(s[1..], n) == Newest(s, n)
  {
  }

  lemma {:induction false} EvictAgentsKeepsNewest(s: StoreState)
    ensures EvictAgents(s).0.finishedAgents == Newest(s.finishedAgents, s.maxFinishedAgents)
    decreases |s.finishedAgents|
  {
    if |s.finishedAgents| > s.maxFinishedAgents {
      var s1 := EvictAgent(s).0;
      assert s1.maxFinishedAgents == s.maxFinishedAgents && EvictAgents(s).0 == EvictAgents(s1).0;
      EvictAgentsKeepsNewest(s1);
      NewestTail(s.finishedAgents, s.maxFinishedAgents);
    }
  }

  lemma EvictAgentsRestoresBound(s: StoreState)
    requires Coherent(s)
    ensures Coherent(EvictAgents(s).0)
    ensures var r := EvictAgents(s).0;
            && r.finishedAgents == Newest(s.finishedAgents, s.maxFinishedAgents)
            && r == s.(agents := r.agents, finishedAgents := r.finishedAgents)
    ensures OnlyFinishedAgentsLeave(s.agents, EvictAgents(s).0.agents)
  {
    EvictAgentsKeepsAgentsOk(s);
    EvictAgentsKeepsNewest(s);
  }

  /** The state in which the run-eviction loop starts. */
  ghost function BeforeRunEviction(s: StoreState, id: Id, record: RunRecord): StoreState {
    s.(runs := s.runs[id := record], finished := s.finished + [id])
  }

  ghost function FinishedRecord(r: RunRecord, phase: RunPhase, summary: Option<string>, error: Option<string>,
                                clock: Clock): RunRecord {
    EnterPhase(r, phase, None, clock).(resultSummary := summary, error := error)
  }

  lemma FinishKeepsFinishedOk(finished: seq<Id>, runs: map<Id, RunRecord>, id: Id, record: RunRecord)
    requires FinishedOk(finished, runs) && id in runs && !runs[id].Terminal() && record.Terminal()
    ensures FinishedOk(finished + [id], runs[id := record])
  {
    assert id !in finished;
  }

  lemma LiveKeepsFinishedOk(finished: seq<Id>, runs: map<Id, RunRecord>, id: Id, record: RunRecord)
    requires FinishedOk(finished, runs) && id in runs && !runs[id].Terminal() && !record.Terminal()
    ensures FinishedOk(finished, runs[id := record])
  {
  }

  lemma FinishRunBeforeEviction(s: StoreState, id: Id, phase: RunPhase, summary: Option<string>,
                                error: Option<string>, clock: Clock)
    requires Coherent(s) && id in s.runs && !s.runs[id].Terminal() && phase.Terminal()
    ensures var m := BeforeRunEviction(s, id, FinishedRecord(s.runs[id], phase, summary, error, clock));
            Coherent(m) && RunsHavePhases(m)
  {
    var record := FinishedRecord(s.runs[id], phase, summary, error, clock);
    EnterPhaseKeepsPhasesOk(s.runs[id], phase, None, clock);
    UpdateRunKeepsOk(s, id, record);
    FinishKeepsFinishedOk(s.finished, s.runs, id, record);
  }

  ghost function BeforeAgentEviction(s: StoreState, id: Id, agent: Agent): StoreState {
    s.(agents := s.agents[id := agent], finishedAgents := s.finishedAgents + [id])
  }

  lemma SettleBeforeEviction(s: StoreState, id: Id, agent: Agent)
    requires Coherent(s) && id in s.agents && !s.agents[id].state.Terminal() && agent.state.Terminal()
            && agent.agentId == id
    ensures Coherent(BeforeAgentEviction(s, id, agent))
  {
    assert id !in s.finishedAgents;
  }

  /** Finishing is the terminal transition, then the eviction loop. */
  lemma FinishIsEviction(s: StoreState, id: Id, phase: RunPhase, summary: Option<string>, error: Option<string>,
                         clock: Clock)
    requires RunsHavePhases(s) && id in s.runs && !s.runs[id].Terminal()
    ensures var m := BeforeRunEviction(s, id, FinishedRecord(s.runs[id], phase, summary, error, clock));
            RunsHavePhases(m) && FinishRun(s, id, phase, summary, error, clock).0 == EvictRuns(m).0
  {
  }

  lemma EvictRunsMakesStoreOk(m: StoreState)
    requires Coherent(m) && RunsHavePhases(m) && |m.finishedAgents| <= m.maxFinishedAgents
    ensures StoreOk(EvictRuns(m).0)
  {
    EvictRunsRestoresBound(m);
  }

  lemma FinishRunKeepsStoreOk(s: StoreState, id: Id, phase: RunPhase, summary: Option<string>, error: Option<string>,
                              clock: Clock)
    requires StoreOk(s) && RunsHavePhases(s) && phase.Terminal()
    ensures StoreOk(FinishRun(s, id, phase, summary, error, clock).0)
  {
    if id in s.runs && !s.runs[id].Terminal() {
      FinishRunBeforeEviction(s, id, phase, summary, error, clock);
      FinishIsEviction(s, id, phase, summary, error, clock);
      EvictRunsMakesStoreOk(BeforeRunEviction(s, id, FinishedRecord(s.runs[id], phase, summary, error, clock)));
    }
  }

  lemma UpdateRunPhaseKeepsStoreOk(s: StoreState, id: Id, phase: RunPhase, node: Option<string>, clock: Clock)
    requires StoreOk(s) && RunsHavePhases(s)
    ensures StoreOk(Apply(s, UpdateRunPhase(id, phase, node), clock).0)
  {
    if !phase.Terminal() && id in s.runs && !s.runs[id].Terminal() {
      var record := EnterPhase(s.runs[id], phase, node, clock);
      EnterPhaseKeepsPhasesOk(s.runs[id], phase, node, clock);
      UpdateRunKeepsOk(s, id, record);
      LiveKeepsFinishedOk(s.finished, s.runs, id, record);
    }
  }

  lemma UpdateAgentKeepsStoreOk(s: StoreState, id: Id, update: AgentUpdate, clock: Clock)
    requires StoreOk(s) && RunsHavePhases(s)
    ensures StoreOk(Apply(s, UpdateAgent(id, update), clock).0)
  {
    if id in s.agents && !s.agents[id].state.Terminal() {
      var agent := UpdatedAgent(s.agents[id], update, clock.now);
      if agent.state.Terminal() {
        SettleBeforeEviction(s, id, agent);
        EvictAgentsRestoresBound(BeforeAgentEviction(s, id, agent));
      }
    }
  }

  lemma StartRunKeepsStoreOk(s: StoreState, id: Id, sid: Id, userId: Option<string>, clock: Clock)
    requires StoreOk(s) && RunsHavePhases(s)
    ensures StoreOk(Apply(s, StartRun(id, sid, userId), clock).0)
  {
    if id !in s.runs {
      StartRunKeepsCoherent(s, id, sid, userId, clock);
    }
  }

  lemma TouchKeepsStoreOk(s: StoreState, sid: Id, userId: Option<string>, clock: Clock)
    requires StoreOk(s) && RunsHavePhases(s)
    ensures StoreOk(Apply(s, TouchSession(sid, userId), clock).0)
  {
    UpsertKeepsSessionsOk(s, sid, userId, clock.now);
  }

  lemma RegisterKeepsStoreOk(s: StoreState, m: Mutation, clock: Clock)
    requires StoreOk(s) && RunsHavePhases(s) && m.RegisterAgent?
    ensures StoreOk(Apply(s, m, clock).0)
  {
    if m.agentId !in s.agents {
      LiveKeepsAgentsOk(s.agents, s.finishedAgents, m.agentId, Apply(s, m, clock).0.agents[m.agentId]);
    }
  }

  /** Every mutation keeps the store coherent and within its retention bounds. */
  lemma ApplyKeepsStoreOk(s: StoreState, m: Mutation, clock: Clock)
    requires StoreOk(s)
    ensures RunsHavePhases(s) && StoreOk(Apply(s, m, clock).0)
  {
    match m
    case StartRun(id, sid, userId) => StartRunKeepsStoreOk(s, id, sid, userId, clock);
    case UpdateRunPhase(id, phase, node) => UpdateRunPhaseKeepsStoreOk(s, id, phase, node, clock);
    case CompleteRun(id, summary) => FinishRunKeepsStoreOk(s, id, RunCompleted, summary, None, clock);
    case FailRun(id, error) => FinishRunKeepsStoreOk(s, id, RunFailed, None, Some(error), clock);
    case TouchSession(sid, userId) => TouchKeepsStoreOk(s, sid, userId, clock);
    case RegisterAgent(_, _, _, _, _) => RegisterKeepsStoreOk(s, m, clock);
    case UpdateAgent(id, update) => UpdateAgentKeepsStoreOk(s, id, update, clock);
  }

  lemma EmptyStoreOk(maxRuns: int, maxAgents: int)
    ensures StoreOk(EmptyStore(maxRuns, maxAgents))
  {
  }

  // ----- what holds of runs without phases and of agents alone -----

  lemma {:induction false} EvictRunsKeepsPhases(s: StoreState)
    requires RunsHavePhases(s)
    ensures RunsHavePhases(EvictRuns(s).0)
    decreases |s.finished|
  {
    if |s.finished| > s.maxFinishedRuns { EvictRunsKeepsPhases(EvictRun(s).0); }
  }

  lemma FinishKeepsPhases(s: StoreState, id: Id, phase: RunPhase, summary: Option<string>, error: Option<string>,
                          clock: Clock)
    requires RunsHavePhases(s)
    ensures RunsHavePhases(FinishRun(s, id, phase, summary, error, clock).0)
  {
    if id in s.runs && !s.runs[id].Terminal() {
      EvictRunsKeepsPhases(BeforeRunEviction(s, id, FinishedRecord(s.runs[id], phase, summary, error, clock)));
    }
  }

  /** No mutation leaves a run without a phase. */
  lemma ApplyKeepsPhases(s: StoreState, m: Mutation, clock: Clock)
    requires RunsHavePhases(s)
    ensures RunsHavePhases(Apply(s, m, clock).0)
  {
    match m
    case CompleteRun(id, summary) => FinishKeepsPhases(s, id, RunCompleted, summary, None, clock);
    case FailRun(id, error) => FinishKeepsPhases(s, id, RunFailed, None, Some(error), clock);
    case _ =>
  }

  lemma FinishKeepsAgents(s: StoreState, id: Id, phase: RunPhase, summary: Option<string>, error: Option<string>,
                          clock: Clock)
    requires RunsHavePhases(s)
    ensures var after := FinishRun(s, id, phase, summary, error, clock).0;
            after.agents == s.agents && after.finishedAgents == s.finishedAgents
  {
    if id in s.runs && !s.runs[id].Terminal() {
      FinishIsEviction(s, id, phase, summary, error, clock);
      EvictRunsFrame(BeforeRunEviction(s, id, FinishedRecord(s.runs[id], phase, summary, error, clock)));
    }
  }

  lemma OnlyAgentMutationsTouchAgents(s: StoreState, m: Mutation, clock: Clock)
    requires RunsHavePhases(s) && !m.UpdateAgent? && !m.RegisterAgent?
    ensures Apply(s, m, clock).0.agents == s.agents && Apply(s, m, clock).0.finishedAgents == s.finishedAgents
  {
    match m
    case CompleteRun(id, summary) => FinishKeepsAgents(s, id, RunCompleted, summary, None, clock);
    case FailRun(id, error) => FinishKeepsAgents(s, id, RunFailed, None, Some(error), clock);
    case _ =>
  }

  lemma SettleKeepsAgentsOk(agents: map<Id, Agent>, finished: seq<Id>, id: Id, agent: Agent)
    requires AgentsOk(agents, finished) && id in agents && !agents[id].state.Terminal()
    requires agent.state.Terminal() && agent.agentId == id
    ensures AgentsOk(agents[id := agent], finished + [id])
  {
    assert id !in finished;
  }

  lemma LiveKeepsAgentsOk(agents: map<Id, Agent>, finished: seq<Id>, id: Id, agent: Agent)
    requires AgentsOk(agents, finished) && (id in agents ==> !agents[id].state.Terminal())
    requires !agent.state.Terminal() && agent.agentId == id
    ensures AgentsOk(agents[id := agent], finished)
  {
  }
}
