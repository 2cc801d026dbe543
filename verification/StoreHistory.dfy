/** Retention over whole histories of the store (`backend/app/state/store.py`). */
module StoreHistory {
  import opened Basics
  import opened Store
  import opened StoreInvariants

  datatype Timed = Timed(mutation: Mutation, clock: Clock)

  ghost function After(s: StoreState, ms: seq<Timed>): StoreState
    requires StoreOk(s)
    decreases |ms|
  {
    if ms == [] then s else
      ApplyKeepsStoreOk(s, ms[0].mutation, ms[0].clock);
      After(Apply(s, ms[0].mutation, ms[0].clock).0, ms[1..])
  }

  /** The run a mutation finishes, if any; a repeat on a terminal run finishes nothing. */
  ghost function Finishes(s: StoreState, m: Mutation): seq<Id> {
    if (m.CompleteRun? || m.FailRun?) && m.requestId in s.runs
        && !s.runs[m.requestId].Terminal() then [m.requestId] else []
  }

  /** The agent a mutation settles, if any. */
  ghost function Settles(s: StoreState, m: Mutation): seq<Id> {
    if m.UpdateAgent? && m.agentId in s.agents && !s.agents[m.agentId].state.Terminal() &&
       m.update.state.Some? && m.update.state.value.Terminal() then [m.agentId] else []
  }

  /** The runs a history finishes, in the order they finish. */
  ghost function FinishOrder(s: StoreState, ms: seq<Timed>): seq<Id>
    requires StoreOk(s)
    decreases |ms|
  {
    if ms == [] then [] else
      ApplyKeepsStoreOk(s, ms[0].mutation, ms[0].clock);
      Finishes(s, ms[0].mutation) + FinishOrder(Apply(s, ms[0].mutation, ms[0].clock).0, ms[1..])
  }

  /** The agents a history settles, in order. */
  ghost function SettleOrder(s: StoreState, ms: seq<Timed>): seq<Id>
    requires StoreOk(s)
    decreases |ms|
  {
    if ms == [] then [] else
      ApplyKeepsStoreOk(s, ms[0].mutation, ms[0].clock);
      Settles(s, ms[0].mutation) + SettleOrder(Apply(s, ms[0].mutation, ms[0].clock).0, ms[1..])
  }

  lemma NewestNewest(a: seq<Id>, b: seq<Id>, n: nat)
    ensures Newest(Newest(a, n) + b, n) == Newest(a + b, n)
  {
  }

  /** Live agents other than `except` are kept, unchanged. */
  ghost predicate LiveKept(before: map<Id, Agent>, after: map<Id, Agent>, except: Id) {
    forall x | x in before && !before[x].state.Terminal() && x != except :: x in after && after[x] == before[x]
  }

  /** In-flight runs other than `except` are kept, unchanged. */
  ghost predicate InFlightKept(before: map<Id, RunRecord>, after: map<Id, RunRecord>, except: Id) {
    forall x | x in before && !before[x].Terminal() && x != except :: x in after && after[x] == before[x]
  }

  lemma OthersStay(agents: map<Id, Agent>, id: Id, agent: Agent, after: map<Id, Agent>)
    requires OnlyFinishedAgentsLeave(agents[id := agent], after)
    ensures LiveKept(agents, after, id)
  {
  }

  lemma OtherRunsStay(runs: map<Id, RunRecord>, id: Id, record: RunRecord, after: map<Id, RunRecord>)
    requires OnlyFinishedRunsLeave(runs[id := record], after)
    ensures InFlightKept(runs, after, id)
  {
  }

  lemma SettleWindows(s: StoreState, id: Id, update: AgentUpdate, clock: Clock)
    requires StoreOk(s) && RunsHavePhases(s)
    ensures var s' := Apply(s, UpdateAgent(id, update), clock).0;
            && s' == s.(agents := s'.agents, finishedAgents := s'.finishedAgents)
            && s'.finishedAgents == Newest(s.finishedAgents + Settles(s, UpdateAgent(id, update)), s.maxFinishedAgents)
            && LiveKept(s.agents, s'.agents, id)
  {
    if id in s.agents && !s.agents[id].state.Terminal() {
      var agent := UpdatedAgent(s.agents[id], update, clock.now);
      if agent.state.Terminal() {
        SettleBeforeEviction(s, id, agent);
        var middle := BeforeAgentEviction(s, id, agent);
        EvictAgentsRestoresBound(middle);
        OthersStay(s.agents, id, agent, EvictAgents(middle).0.agents);
      }
    }
  }

  ghost predicate SameCaps(s: StoreState, t: StoreState) {
    s.maxFinishedRuns == t.maxFinishedRuns && s.maxFinishedAgents == t.maxFinishedAgents
  }

  /** What a mutation leaves of the windows and the caps. */
  ghost predicate WindowsRolled(s: StoreState, m: Mutation, after: StoreState) {
    && SameCaps(s, after)
    && after.finished == Newest(s.finished + Finishes(s, m), s.maxFinishedRuns)
    && after.finishedAgents == Newest(s.finishedAgents + Settles(s, m), s.maxFinishedAgents)
  }

  ghost predicate WithinBounds(s: StoreState) {
    |s.finished| <= s.maxFinishedRuns && |s.finishedAgents| <= s.maxFinishedAgents
  }

  lemma StartWindows(s: StoreState, id: Id, sid: Id, userId: Option<string>, clock: Clock)
    requires WithinBounds(s) && RunsHavePhases(s)
    ensures WindowsRolled(s, StartRun(id, sid, userId), Apply(s, StartRun(id, sid, userId), clock).0)
    ensures forall x :: InFlightKept(s.runs, Apply(s, StartRun(id, sid, userId), clock).0.runs, x)
  {
  }

  lemma PhaseWindows(s: StoreState, id: Id, phase: RunPhase, node: Option<string>, clock: Clock)
    requires WithinBounds(s) && RunsHavePhases(s)
    ensures WindowsRolled(s, UpdateRunPhase(id, phase, node), Apply(s, UpdateRunPhase(id, phase, node), clock).0)
    ensures InFlightKept(s.runs, Apply(s, UpdateRunPhase(id, phase, node), clock).0.runs, id)
  {
  }

  /** Sessions and registrations leave runs and windows alone. */
  lemma QuietWindows(s: StoreState, m: Mutation, clock: Clock)
    requires WithinBounds(s) && RunsHavePhases(s) && (m.TouchSession? || m.RegisterAgent?)
    ensures WindowsRolled(s, m, Apply(s, m, clock).0) && Apply(s, m, clock).0.runs == s.runs
  {
  }

  lemma StepWindows(s: StoreState, m: Mutation, clock: Clock)
    requires StoreOk(s)
    ensures RunsHavePhases(s) && WindowsRolled(s, m, Apply(s, m, clock).0)
  {
    match m
    case StartRun(id, sid, userId) => StartWindows(s, id, sid, userId, clock);
    case UpdateRunPhase(id, phase, node) => PhaseWindows(s, id, phase, node, clock);
    case CompleteRun(id, summary) => FinishWindows(s, id, RunCompleted, summary, None, clock);
    case FailRun(id, error) => FinishWindows(s, id, RunFailed, None, Some(error), clock);
    case UpdateAgent(id, update) => SettleWindows(s, id, update, clock);
    case _ => QuietWindows(s, m, clock);
  }

  /** The run a mutation is about, if it may change one already there. */
  function Subject(m: Mutation): Option<Id> {
    match m
    case CompleteRun(id, _) => Some(id)
    case FailRun(id, _) => Some(id)
    case UpdateRunPhase(id, _, _) => Some(id)
    case _ => None
  }

  /** In-flight runs are never evicted, nor changed by mutations of other runs. */
  lemma NoInFlightRunIsEvicted(s: StoreState, m: Mutation, clock: Clock)
    requires StoreOk(s)
    ensures RunsHavePhases(s)
    ensures forall id ::
              Subject(m) == None || Subject(m) == Some(id) ==> InFlightKept(s.runs, Apply(s, m, clock).0.runs, id)
  {
    match m
    case StartRun(id, sid, userId) => StartWindows(s, id, sid, userId, clock);
    case UpdateRunPhase(id, phase, node) => PhaseWindows(s, id, phase, node, clock);
    case CompleteRun(id, summary) => FinishWindows(s, id, RunCompleted, summary, None, clock);
    case FailRun(id, error) => FinishWindows(s, id, RunFailed, None, Some(error), clock);
    case UpdateAgent(id, update) => SettleWindows(s, id, update, clock);
    case _ => QuietWindows(s, m, clock);
  }

  /** Live agents are never evicted, nor changed by mutations of other agents. */
  lemma NoLiveAgentIsEvicted(s: StoreState, m: Mutation, clock: Clock)
    requires StoreOk(s)
    ensures RunsHavePhases(s)
    ensures if m.UpdateAgent? then LiveKept(s.agents, Apply(s, m, clock).0.agents, m.agentId)
            else forall id :: LiveKept(s.agents, Apply(s, m, clock).0.agents, id)
  {
    if m.UpdateAgent? {
      SettleWindows(s, m.agentId, m.update, clock);
    } else if !m.RegisterAgent? {
      OnlyAgentMutationsTouchAgents(s, m, clock);
    }
  }

  lemma FinishWindows(s: StoreState, id: Id, phase: RunPhase, summary: Option<string>, error: Option<string>,
                      clock: Clock)
    requires StoreOk(s) && RunsHavePhases(s) && phase.Terminal()
    ensures var s' := FinishRun(s, id, phase, summary, error, clock).0;
            && s'.maxFinishedRuns == s.maxFinishedRuns && s'.maxFinishedAgents == s.maxFinishedAgents
            && s'.finished == Newest(s.finished + (if id in s.runs && !s.runs[id].Terminal() then [id] else []),
                 s.maxFinishedRuns)
            && s'.finishedAgents == s.finishedAgents && s'.agents == s.agents
            && InFlightKept(s.runs, s'.runs, id)
  {
    if id in s.runs && !s.runs[id].Terminal() {
      FinishRunBeforeEviction(s, id, phase, summary, error, clock);
      var middle := BeforeRunEviction(s, id, FinishedRecord(s.runs[id], phase, summary, error, clock));
      EvictRunsRestoresBound(middle);
      OtherRunsStay(s.runs, id, FinishedRecord(s.runs[id], phase, summary, error, clock), EvictRuns(middle).0.runs);
    }
  }

  /** The retention windows over every history: the finished queue is exactly the last finishers that
      fit, without duplicates, and a terminal run is retained exactly when it is among them.  The
      agent registry keeps the corresponding window. */
  lemma {:induction false} RetentionWindows(s: StoreState, ms: seq<Timed>)
    requires StoreOk(s)
    ensures var s' := After(s, ms);
            && StoreOk(s')
            && SameCaps(s, s')
            && s'.finished == Newest(s.finished + FinishOrder(s, ms), s.maxFinishedRuns)
            && s'.finishedAgents == Newest(s.finishedAgents + SettleOrder(s, ms), s.maxFinishedAgents)
    decreases |ms|
  {
    if ms == [] {
      assert s.finished + [] == s.finished && s.finishedAgents + [] == s.finishedAgents;
    } else {
      var m := ms[0].mutation;
      StepWindows(s, m, ms[0].clock);
      ApplyKeepsStoreOk(s, m, ms[0].clock);
      var s1 := Apply(s, m, ms[0].clock).0;
      RetentionWindows(s1, ms[1..]);
      WindowStep(s.finished, Finishes(s, m), s1.finished, FinishOrder(s1, ms[1..]), s.maxFinishedRuns);
      WindowStep(s.finishedAgents, Settles(s, m), s1.finishedAgents, SettleOrder(s1, ms[1..]), s.maxFinishedAgents);
    }
  }

  lemma WindowStep(before: seq<Id>, now: seq<Id>, after: seq<Id>, later: seq<Id>, n: nat)
    requires after == Newest(before + now, n)
    ensures Newest(after + later, n) == Newest(before + (now + later), n)
  {
    NewestNewest(before + now, later, n);
    assert before + now + later == before + (now + later);
  }

  /** What is retained after a history from startup: terminal runs and agents exactly as long as they
      are among the newest finishers, without duplicates, each session listing exactly its retained
      runs in start order, and every phase history closed up to its last entry. */
  lemma RetainedAfter(maxRuns: int, maxAgents: int, ms: seq<Timed>)
    ensures StoreOk(EmptyStore(maxRuns, maxAgents))
    ensures var empty := EmptyStore(maxRuns, maxAgents); var s := After(empty, ms);
            var runCap: nat := if maxRuns > 0 then maxRuns else 0;
            var agentCap: nat := if maxAgents > 0 then maxAgents else 0;
            && NoDup(Newest(FinishOrder(empty, ms), runCap)) && NoDup(Newest(SettleOrder(empty, ms), agentCap))
            && (forall x :: x in Newest(FinishOrder(empty, ms), runCap) <==> x in s.runs && s.runs[x].Terminal())
            && (forall x :: x in Newest(SettleOrder(empty, ms), agentCap) <==>
                 x in s.agents && s.agents[x].state.Terminal())
            && NoDup(s.runOrder) && (forall x :: x in s.runOrder <==> x in s.runs)
            && (forall sid | sid in s.sessions :: s.sessions[sid].runIds == RunsOf(s.runOrder, s.runs, sid))
            && (forall x | x in s.runs :: s.runs[x].sessionId in s.sessions && PhasesOk(s.runs[x].phases))
  {
    EmptyStoreOk(maxRuns, maxAgents);
    var empty := EmptyStore(maxRuns, maxAgents);
    RetentionWindows(empty, ms);
    assert [] + FinishOrder(empty, ms) == FinishOrder(empty, ms);
    assert [] + SettleOrder(empty, ms) == SettleOrder(empty, ms);
  }
}
