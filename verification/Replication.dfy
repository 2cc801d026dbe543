/** Live-state replication end to end: store mutations, the bus, bounded subscriptions, the websocket
    stream and a client that folds it.  `backend/app/state/store.py`, `backend/app/state/events.py`,
    `backend/app/api/websocket.py`, `frontend/src/api/ws.ts`, `frontend/src/state/AppState.tsx`. */
module Replication {
  import opened Basics
  import opened Store
  import opened StoreInvariants
  import opened StoreReports
  import opened EventBus
  import opened Replica
  import opened Stamps
  import R = Registry

  /** One connection.  `view` folds every message; `registry` is the agent map the frontend reducer
      keeps.  `resync` is set once a degraded message arrived, upon which the client disconnects. */
  datatype Client = Client(sub: SubscriptionState, snapshotSeq: nat, lastSeq: nat, open: bool, resync: bool,
                           view: View, registry: R.Registry)

  /** `log` is everything ever published, event `k` carrying sequence number `k + 1`; `history` is
      the store's view after each mutation, by the bus counter at that moment.  `latest` is the clock
      reading furthest on in the text order, and `steady` says no later one fell behind it. */
  datatype Live = Live(store: StoreState, log: seq<StoreEvent>, clients: seq<Client>, maxQueue: nat,
                       history: map<nat, View>, latest: Option<Time>, steady: bool)

  datatype Step =
    | Mutate(m: Mutation, clock: Clock)
    | Connect(agentList: seq<Agent>)   // subscribe and snapshot, one step
    | Deliver(client: nat)             // one turn of the stream loop, received by the client
    | Disconnect(client: nat)

  function Start(maxRuns: int, maxAgents: int, maxQueue: nat): Live {
    Live(EmptyStore(maxRuns, maxAgents), [], [], maxQueue, map[0 := EMPTY_VIEW], None, true)
  }

  predicate Follows(latest: Option<Time>, now: Time) {
    latest.Some? ==> TextOrder(latest.value) <= TextOrder(now)
  }

  function Published(c: Client, published: nat, events: seq<StoreEvent>): Client
    requires c.sub.capacity >= 1
  {
    if c.open then c.(sub := OfferedAll(c.sub, published, events)) else c
  }

  function Received(c: Client, m: Message): Client {
    c.(lastSeq := m.seqNo, resync := c.resync || m.degraded, open := !m.degraded,
       view := Fold(c.view, m.event), registry := R.Streamed(c.registry, m.event))
  }

  ghost predicate Enabled(s: Live, step: Step) {
    && RunsHavePhases(s.store) && s.maxQueue >= 1
    && (forall i | 0 <= i < |s.clients| :: s.clients[i].sub.capacity >= 1)
    && match step
       case Mutate(_, _) => true
       case Connect(list) => forall a :: a in list <==> exists id :: id in s.store.agents && s.store.agents[id] == a
       case Deliver(i) => i < |s.clients| && s.clients[i].open && s.clients[i].sub.queue != []
       case Disconnect(i) => i < |s.clients|
  }

  ghost function Next(s: Live, step: Step): Live
    requires Enabled(s, step)
  {
    match step
    case Mutate(m, clock) =>
      var (store, events) := Apply(s.store, m, clock);
      var log := s.log + events;
      s.(store := store, log := log,
         clients := seq(|s.clients|, i requires 0 <= i < |s.clients| && s.clients[i].sub.capacity >= 1 =>
             Published(s.clients[i], |s.log|, events)),
         history := if RunsHavePhases(store) then s.history[|log| := ViewOf(store)] else s.history,
         latest := if Follows(s.latest, clock.now) then Some(clock.now) else s.latest,
         steady := s.steady && Follows(s.latest, clock.now))
    case Connect(list) =>
      var c := Client(SubscriptionState([], s.maxQueue, false, false), |s.log|, |s.log|, true, false, ViewOf(s.store),
          R.Synced(list));
      s.(clients := s.clients + [c])
    case Deliver(i) =>
      var c := s.clients[i];
      var (sub, message) := StreamTurn(c.sub, c.snapshotSeq);
      var popped := c.(sub := sub);
      s.(clients := s.clients[i := match message case None => popped case Some(m) => Received(popped, m)])
    case Disconnect(i) =>
      s.(clients := s.clients[i := s.clients[i].(open := false)])
  }

  ghost predicate Runs(s: Live, steps: seq<Step>)
    decreases |steps|
  {
    steps == [] || (Enabled(s, steps[0]) && Runs(Next(s, steps[0]), steps[1..]))
  }

  ghost function After(s: Live, steps: seq<Step>): Live
    requires Runs(s, steps)
    decreases |steps|
  {
    if steps == [] then s else After(Next(s, steps[0]), steps[1..])
  }

  // ----- a subscription against the log -----

  /** The queue is a contiguous run of events ending at the bus counter and within its bound; the
      degraded flag says exactly whether events after `last` were dropped. */
  ghost predicate SubOk(log: seq<StoreEvent>, s: SubscriptionState, last: nat) {
    && 1 <= s.capacity && |s.queue| <= s.capacity
    && last + |s.queue| <= |log|
    && (forall k | 0 <= k < |s.queue| :: s.queue[k] == BusEvent(|log| - |s.queue| + k + 1, log[|log| - |s.queue| + k]))
    && (s.degraded <==> last + |s.queue| < |log|)
    && (s.queue == [] ==> !s.degraded)
  }

  lemma OfferedKeepsSubOk(log: seq<StoreEvent>, s: SubscriptionState, last: nat, e: StoreEvent)
    requires SubOk(log, s, last)
    ensures SubOk(log + [e], Offered(s, BusEvent(|log| + 1, e)), last)
  {
  }

  lemma {:induction false} OfferedAllKeepsSubOk(log: seq<StoreEvent>, s: SubscriptionState, last: nat,
                                                events: seq<StoreEvent>)
    requires SubOk(log, s, last)
    ensures SubOk(log + events, OfferedAll(s, |log|, events), last)
    decreases |events|
  {
    if events == [] {
      assert log + events == log;
    } else {
      OfferedKeepsSubOk(log, s, last, events[0]);
      OfferedAllKeepsSubOk(log + [events[0]], Offered(s, BusEvent(|log| + 1, events[0])), last, events[1..]);
      assert log + [events[0]] + events[1..] == log + events;
    }
  }

  // ----- stamps -----

  ghost predicate StampsAscend(log: seq<StoreEvent>) {
    forall j, k | 0 <= j < k < |log| && log[j].AgentUpdated? && log[k].AgentUpdated? ::
        TextOrder(log[j].agent.updatedAt) <= TextOrder(log[k].agent.updatedAt)
  }

  lemma {:induction false} EvictAgentsEvents(s: StoreState)
    ensures forall e | e in EvictAgents(s).1 :: e.AgentEvicted?
    decreases |s.finishedAgents|
  {
    if |s.finishedAgents| > s.maxFinishedAgents {
      EvictAgentsEvents(EvictAgent(s).0);
    }
  }

  lemma {:induction false} EvictRunsEvents(s: StoreState)
    requires RunsHavePhases(s)
    ensures forall e | e in EvictRuns(s).1 :: e.RunEvicted?
    decreases |s.finished|
  {
    if |s.finished| > s.maxFinishedRuns {
      EvictRunsEvents(EvictRun(s).0);
    }
  }

  /** Every agent snapshot a mutation publishes carries the mutation's clock reading. */
  lemma MutationStamps(s: StoreState, m: Mutation, clock: Clock)
    requires RunsHavePhases(s)
    ensures forall e | e in Apply(s, m, clock).1 && e.AgentUpdated? :: e.agent.updatedAt == clock.now
  {
    match m
    case CompleteRun(id, summary) => FinishRunEvents(s, id, RunCompleted, summary, None, clock);
    case FailRun(id, error) => FinishRunEvents(s, id, RunFailed, None, Some(error), clock);
    case UpdateAgent(id, update) =>
      if id in s.agents && !s.agents[id].state.Terminal() {
        EvictAgentsEvents(BeforeAgentEviction(s, id, UpdatedAgent(s.agents[id], update, clock.now)));
      }
    case _ =>
  }

  lemma FinishRunEvents(s: StoreState, id: Id, phase: RunPhase, summary: Option<string>, error: Option<string>,
                        clock: Clock)
    requires RunsHavePhases(s)
    ensures forall e | e in FinishRun(s, id, phase, summary, error, clock).1 :: e.RunUpdated? || e.RunEvicted?
  {
    if id in s.runs && !s.runs[id].Terminal() {
      EvictRunsEvents(BeforeRunEviction(s, id, FinishedRecord(s.runs[id], phase, summary, error, clock)));
    }
  }

  ghost predicate StampsBefore(log: seq<StoreEvent>, latest: Option<Time>) {
    forall e | e in log && e.AgentUpdated? :: latest.Some? && TextOrder(e.agent.updatedAt) <= TextOrder(latest.value)
  }

  lemma AppendStamps(log: seq<StoreEvent>, events: seq<StoreEvent>, latest: Option<Time>, now: Time)
    requires StampsAscend(log) && Follows(latest, now) && StampsBefore(log, latest)
    requires forall e | e in events && e.AgentUpdated? :: e.agent.updatedAt == now
    ensures StampsAscend(log + events) && StampsBefore(log + events, Some(now))
  {
    var all := log + events;
    forall j, k | 0 <= j < k < |all| && all[j].AgentUpdated? && all[k].AgentUpdated?
      ensures TextOrder(all[j].agent.updatedAt) <= TextOrder(all[k].agent.updatedAt)
    {
      if k < |log| {
        assert all[j] == log[j] && all[k] == log[k];
      } else {
        assert all[k] in events;
        if j < |log| {
          assert all[j] in log;
        } else {
          assert all[j] in events;
        }
      }
    }
  }

  /** Every agent in a folded view was published by some `agent_updated` before. */
  lemma {:induction false} ViewAgentsPublished(log: seq<StoreEvent>)
    ensures forall id | id in FoldAll(EMPTY_VIEW, log).agents ::
              exists j :: 0 <= j < |log| && log[j] == AgentUpdated(FoldAll(EMPTY_VIEW,
                  log).agents[id]) && log[j].agent.agentId == id
  {
    if log != [] {
      var front, last := log[..|log| - 1], log[|log| - 1];
      ViewAgentsPublished(front);
      assert log == front + [last];
      FoldAllAppend(EMPTY_VIEW, front, [last]);
      FoldOne(FoldAll(EMPTY_VIEW, front), last);
      var v, w := FoldAll(EMPTY_VIEW, front), FoldAll(EMPTY_VIEW, log);
      forall id | id in w.agents
        ensures exists j :: 0 <= j < |log| && log[j] == AgentUpdated(w.agents[id]) && log[j].agent.agentId == id
      {
        if last.AgentUpdated? && last.agent.agentId == id {
          assert log[|log| - 1] == AgentUpdated(w.agents[id]);
        } else {
          var j :| 0 <= j < |front| && front[j] == AgentUpdated(v.agents[id]) && front[j].agent.agentId == id;
          assert log[j] == front[j];
        }
      }
    }
  }

  // ----- the registry against the log -----

  /** The store's view after the first `n` events. */
  function ViewAt(log: seq<StoreEvent>, n: nat): View
    requires n <= |log|
  {
    FoldAll(EMPTY_VIEW, log[..n])
  }

  /** The reducer's registry after the events up to `n`, synced from the view at `start`. */
  function RegistryAt(log: seq<StoreEvent>, start: nat, n: nat): R.Registry
    requires start <= n <= |log|
  {
    if n == start then ViewAt(log, start).agents else R.Streamed(RegistryAt(log, start, n - 1), log[n - 1])
  }

  /** Event `n` is not an agent's snapshot that comes, as text, before the one the store published last. */
  predicate StampOk(log: seq<StoreEvent>, n: nat)
    requires n < |log|
  {
    var held := ViewAt(log, n).agents;
    log[n].AgentUpdated? && log[n].agent.agentId in held ==>
      var last := held[log[n].agent.agentId];
      TextOrder(last.updatedAt) <= TextOrder(log[n].agent.updatedAt)
  }

  ghost predicate KeepsUp(log: seq<StoreEvent>, start: nat, end: nat)
    requires start <= end <= |log|
  {
    forall n | start <= n < end :: StampOk(log, n)
  }

  lemma ViewStep(log: seq<StoreEvent>, n: nat)
    requires n < |log|
    ensures ViewAt(log, n + 1) == Fold(ViewAt(log, n), log[n])
  {
    assert log[..n + 1] == log[..n] + [log[n]];
    FoldAllAppend(EMPTY_VIEW, log[..n], [log[n]]);
    FoldOne(ViewAt(log, n), log[n]);
  }

  /** The reducer's upsert and the plain one agree on the next event exactly when its stamp is in order. */
  lemma StreamStep(log: seq<StoreEvent>, n: nat)
    requires n < |log|
    ensures R.Streamed(ViewAt(log, n).agents, log[n]) == Fold(ViewAt(log, n), log[n]).agents <==> StampOk(log, n)
  {
    var v, e := ViewAt(log, n), log[n];
    if e.AgentUpdated? && e.agent.agentId in v.agents {
      assert Fold(v, e).agents[e.agent.agentId] == e.agent;
      if !StampOk(log, n) { assert R.Streamed(v.agents, e)[e.agent.agentId] == v.agents[e.agent.agentId]; }
    }
  }

  ghost predicate Tracks(log: seq<StoreEvent>, start: nat, end: nat)
    requires start <= end <= |log|
  {
    forall n | start <= n <= end :: RegistryAt(log, start, n) == ViewAt(log, n).agents
  }

  /** The registry equals the store's agents after every event if and only if no event's stamp comes
      before the one published last for its agent. */
  lemma {:induction false} TracksExactly(log: seq<StoreEvent>, start: nat, end: nat)
    requires start <= end <= |log|
    ensures Tracks(log, start, end) <==> KeepsUp(log, start, end)
    decreases end
  {
    if start < end {
      TracksExactly(log, start, end - 1);
      ViewStep(log, end - 1);
      StreamStep(log, end - 1);
      if Tracks(log, start, end) { assert Tracks(log, start, end - 1); }
      if KeepsUp(log, start, end) { assert KeepsUp(log, start, end - 1) && StampOk(log, end - 1); }
      if Tracks(log, start, end - 1) {
        assert RegistryAt(log, start, end - 1) == ViewAt(log, end - 1).agents;
      }
    }
  }

  /** Ascending stamps keep up. */
  lemma AscendingKeepsUp(log: seq<StoreEvent>, start: nat, end: nat)
    requires StampsAscend(log) && start <= end <= |log|
    ensures KeepsUp(log, start, end)
  {
    forall n | start <= n < end
      ensures StampOk(log, n)
    {
      var v := ViewAt(log, n);
      ViewAgentsPublished(log[..n]);
      if log[n].AgentUpdated? && log[n].agent.agentId in v.agents {
        var j :| 0 <= j < n && log[..n][j] == AgentUpdated(v.agents[log[n].agent.agentId]);
        assert TextOrder(log[j].agent.updatedAt) <= TextOrder(log[n].agent.updatedAt);
      }
    }
  }

  /** Later events do not change what went before. */
  lemma {:induction false} EarlierSame(log: seq<StoreEvent>, events: seq<StoreEvent>, start: nat, n: nat)
    requires start <= n <= |log|
    ensures ViewAt(log + events, n) == ViewAt(log, n) && RegistryAt(log + events, start, n) == RegistryAt(log, start, n)
    decreases n
  {
    assert (log + events)[..n] == log[..n];
    if start < n {
      EarlierSame(log, events, start, n - 1);
    } else {
      assert (log + events)[..start] == log[..start];
    }
  }

  // ----- the invariant -----

  ghost predicate ClientOk(log: seq<StoreEvent>, c: Client) {
    && c.sub.capacity >= 1
    && c.snapshotSeq <= c.lastSeq <= |log|
    && (c.open ==> !c.resync && SubOk(log, c.sub, c.lastSeq))
    && (!c.resync ==> c.view == ViewAt(log, c.lastSeq) && c.registry == RegistryAt(log, c.snapshotSeq, c.lastSeq))
  }

  ghost predicate HistoryOk(log: seq<StoreEvent>, history: map<nat, View>) {
    forall n | n in history :: n <= |log| && history[n] == FoldAll(EMPTY_VIEW, log[..n])
  }

  ghost predicate Inv(s: Live) {
    && StoreOk(s.store) && RunsHavePhases(s.store) && s.maxQueue >= 1
    && ViewOf(s.store) == FoldAll(EMPTY_VIEW, s.log)
    && HistoryOk(s.log, s.history)
    && (s.steady ==> StampsAscend(s.log) && StampsBefore(s.log, s.latest))
    && (forall i | 0 <= i < |s.clients| :: ClientOk(s.log, s.clients[i]))
  }

  lemma PublishedKeepsClientOk(log: seq<StoreEvent>, c: Client, events: seq<StoreEvent>)
    requires ClientOk(log, c)
    ensures ClientOk(log + events, Published(c, |log|, events))
  {
    if c.open {
      OfferedAllKeepsSubOk(log, c.sub, c.lastSeq, events);
    }
    EarlierSame(log, events, c.snapshotSeq, c.lastSeq);
  }

  lemma DeliverKeepsClientOk(log: seq<StoreEvent>, c: Client)
    requires ClientOk(log, c) && c.open && c.sub.queue != []
    ensures var (sub, message) := StreamTurn(c.sub, c.snapshotSeq);
            && message.Some?
            && message.value.seqNo == |log| - |c.sub.queue| + 1 && message.value.event == log[message.value.seqNo - 1]
            && message.value.seqNo > c.lastSeq
            && (message.value.degraded <==> message.value.seqNo > c.lastSeq + 1)
            && ClientOk(log, Received(c.(sub := sub), message.value))
  {
    var (sub, message) := StreamTurn(c.sub, c.snapshotSeq);
    var m := message.value;
    if !m.degraded {
      var n := c.lastSeq;
      assert m.seqNo == n + 1;
      ViewStep(log, n);
      assert RegistryAt(log, c.snapshotSeq, n + 1) == R.Streamed(RegistryAt(log, c.snapshotSeq, n), log[n]);
      assert SubOk(log, sub, n + 1);
    }
  }

  lemma HistoryGrows(log: seq<StoreEvent>, history: map<nat, View>, events: seq<StoreEvent>, view: View)
    requires HistoryOk(log, history) && view == FoldAll(EMPTY_VIEW, log + events)
    ensures HistoryOk(log + events, history[|log + events| := view])
  {
    var longer := log + events;
    assert longer[..|longer|] == longer;
    forall n | n in history
      ensures longer[..n] == log[..n]
    {
    }
  }

  /** The store's side of a mutation. */
  lemma MutateFolds(s: StoreState, log: seq<StoreEvent>, m: Mutation, clock: Clock)
    requires StoreOk(s) && RunsHavePhases(s) && ViewOf(s) == FoldAll(EMPTY_VIEW, log)
    ensures var (s', events) := Apply(s, m, clock);
            StoreOk(s') && RunsHavePhases(s') && ViewOf(s') == FoldAll(EMPTY_VIEW, log + events)
  {
    ApplyKeepsStoreOk(s, m, clock);
    FoldMutation(s, m, clock);
    FoldAllAppend(EMPTY_VIEW, log, Apply(s, m, clock).1);
  }

  lemma MutateKeepsInv(s: Live, m: Mutation, clock: Clock)
    requires Inv(s) && Enabled(s, Mutate(m, clock))
    ensures Inv(Next(s, Mutate(m, clock)))
  {
    var s' := Next(s, Mutate(m, clock));
    var events := Apply(s.store, m, clock).1;
    MutateFolds(s.store, s.log, m, clock);
    HistoryGrows(s.log, s.history, events, ViewOf(s'.store));
    MutationStamps(s.store, m, clock);
    if s'.steady {
      AppendStamps(s.log, events, s.latest, clock.now);
    }
    forall i | 0 <= i < |s'.clients|
      ensures ClientOk(s'.log, s'.clients[i])
    {
      PublishedKeepsClientOk(s.log, s.clients[i], events);
    }
  }

  lemma ConnectKeepsInv(s: Live, list: seq<Agent>)
    requires Inv(s) && Enabled(s, Connect(list))
    ensures Inv(Next(s, Connect(list)))
  {
    R.SyncRestores(list, s.store.agents);
    assert s.log[..|s.log|] == s.log;
  }

  lemma StepKeepsInv(s: Live, step: Step)
    requires Inv(s) && Enabled(s, step)
    ensures Inv(Next(s, step))
  {
    match step
    case Mutate(m, clock) => MutateKeepsInv(s, m, clock);
    case Connect(list) => ConnectKeepsInv(s, list);
    case Deliver(i) => DeliverKeepsClientOk(s.log, s.clients[i]);
    case Disconnect(i) =>
  }

  lemma {:induction false} RunKeepsInv(s: Live, steps: seq<Step>)
    requires Inv(s) && Runs(s, steps)
    ensures Inv(After(s, steps))
    decreases |steps|
  {
    if steps != [] {
      StepKeepsInv(s, steps[0]);
      RunKeepsInv(Next(s, steps[0]), steps[1..]);
    }
  }

  ghost predicate Reachable(s: Live) {
    exists maxRuns: int, maxAgents: int, maxQueue: nat, steps ::
      maxQueue >= 1 && Runs(Start(maxRuns, maxAgents, maxQueue), steps)
          && After(Start(maxRuns, maxAgents, maxQueue), steps) == s
  }

  lemma ReachableInv(s: Live)
    requires Reachable(s)
    ensures Inv(s)
  {
    var maxRuns: int, maxAgents: int, maxQueue: nat, steps :|
      maxQueue >= 1 && Runs(Start(maxRuns, maxAgents, maxQueue), steps)
          && After(Start(maxRuns, maxAgents, maxQueue), steps) == s;
    EmptyStoreOk(maxRuns, maxAgents);
    assert ViewOf(EmptyStore(maxRuns, maxAgents)) == EMPTY_VIEW;
    RunKeepsInv(Start(maxRuns, maxAgents, maxQueue), steps);
  }

  // ----- theorems -----

  /** Replica agreement: a client that saw no degraded message holds the store as of its last
      delivered sequence number, and with an empty queue the store as it is now. */
  lemma ReplicaAgreement(s: Live, i: nat)
    requires Reachable(s) && i < |s.clients| && !s.clients[i].resync
    ensures s.clients[i].lastSeq in s.history ==> s.clients[i].view == s.history[s.clients[i].lastSeq]
    ensures s.clients[i].lastSeq <= |s.log| && s.clients[i].view == FoldAll(EMPTY_VIEW, s.log[..s.clients[i].lastSeq])
    ensures s.clients[i].open && s.clients[i].sub.queue == [] ==>
            RunsHavePhases(s.store) && s.clients[i].view == ViewOf(s.store)
  {
    ReachableInv(s);
    assert s.log[..|s.log|] == s.log;
  }

  /** Field by field: a client in sync with nothing left to deliver shows the store's runs, its sessions with
      their runs newest first, and its agents. */
  lemma ReplicaShowsStore(s: Live, i: nat)
    requires Reachable(s) && i < |s.clients| && !s.clients[i].resync
    requires s.clients[i].open && s.clients[i].sub.queue == []
    ensures var view := s.clients[i].view;
            && view.runs.Keys == s.store.runs.Keys && view.sessions.Keys == s.store.sessions.Keys
            && (forall id | id in view.runs :: Shows(view.runs[id], s.store.runs[id]))
            && (forall id | id in view.sessions :: ShowsSession(view.sessions[id], s.store.sessions[id]))
            && view.agents == s.store.agents
  {
    ReplicaAgreement(s, i);
    ViewShows(s.store);
  }

  lemma ViewShows(s: StoreState)
    requires RunsHavePhases(s)
    ensures var view := ViewOf(s);
            && view.runs.Keys == s.runs.Keys && view.sessions.Keys == s.sessions.Keys && view.agents == s.agents
            && (forall id | id in view.runs :: Shows(view.runs[id], s.runs[id]))
            && (forall id | id in view.sessions :: ShowsSession(view.sessions[id], s.sessions[id]))
  {
    forall id | id in s.runs ensures Shows(ViewOf(s).runs[id], s.runs[id]) {
      SnapshotShows(s.runs[id]);
    }
    forall id | id in s.sessions ensures ShowsSession(ViewOf(s).sessions[id], s.sessions[id]) {
      SessionSnapshotShows(s.sessions[id]);
    }
  }

  /** Exact gap detection: the next delivered event is later than the last one, and it is degraded
      exactly when events between them were dropped. */
  lemma ExactGapDetection(s: Live, i: nat)
    requires Reachable(s) && Enabled(s, Deliver(i))
    ensures var c, c' := s.clients[i], Next(s, Deliver(i)).clients[i];
            && SubOk(s.log, c.sub, c.lastSeq)
            && c'.lastSeq > c.lastSeq && c'.lastSeq == |s.log| - |c.sub.queue| + 1
            && (c'.resync <==> c'.lastSeq != c.lastSeq + 1)
            && (c'.open <==> !c'.resync)
  {
    ReachableInv(s);
    DeliverKeepsClientOk(s.log, s.clients[i]);
  }

  /** The frontend's agent registry: a client that saw no degraded message held the store's agents after
      each of its events if and only if no event's stamp came, as text, before the one published last
      for its agent. */
  lemma RegistryTracksExactly(s: Live, i: nat)
    requires Reachable(s) && i < |s.clients| && !s.clients[i].resync
    ensures s.clients[i].snapshotSeq <= s.clients[i].lastSeq <= |s.log|
    ensures s.clients[i].registry == RegistryAt(s.log, s.clients[i].snapshotSeq, s.clients[i].lastSeq)
    ensures Tracks(s.log, s.clients[i].snapshotSeq, s.clients[i].lastSeq) <==>
            KeepsUp(s.log, s.clients[i].snapshotSeq, s.clients[i].lastSeq)
  {
    ReachableInv(s);
    TracksExactly(s.log, s.clients[i].snapshotSeq, s.clients[i].lastSeq);
  }

  /** So it agrees with the store as long as the rendered clock never fell behind an earlier reading. */
  lemma RegistryAgreement(s: Live, i: nat)
    requires Reachable(s) && i < |s.clients| && !s.clients[i].resync && s.steady
    ensures s.clients[i].registry == s.clients[i].view.agents
    ensures s.clients[i].open && s.clients[i].sub.queue == [] ==> s.clients[i].registry == s.store.agents
  {
    ReachableInv(s);
    var c := s.clients[i];
    assert s.log[..|s.log|] == s.log;
    AscendingKeepsUp(s.log, c.snapshotSeq, c.lastSeq);
    TracksExactly(s.log, c.snapshotSeq, c.lastSeq);
    assert RegistryAt(s.log, c.snapshotSeq, c.lastSeq) == ViewAt(s.log, c.lastSeq).agents;
  }

  lemma RunsCons(s: Live, step: Step, rest: seq<Step>)
    requires Enabled(s, step) && Runs(Next(s, step), rest)
    ensures Runs(s, [step] + rest) && After(s, [step] + rest) == After(Next(s, step), rest)
  {
    assert ([step] + rest)[1..] == rest;
  }

  /** Otherwise: the delivery of an agent snapshot keeps registry and view together exactly when its
      stamp does not come, as text, before the one held. */
  lemma RegistryStepExact(s: Live, i: nat)
    requires Reachable(s) && Enabled(s, Deliver(i)) && s.clients[i].registry == s.clients[i].view.agents
    ensures var c, e := s.clients[i], s.clients[i].sub.queue[0].event;
            Next(s, Deliver(i)).clients[i].registry == Next(s, Deliver(i)).clients[i].view.agents <==>
            !(e.AgentUpdated? && e.agent.agentId in c.registry
              && TextOrder(e.agent.updatedAt) < TextOrder(c.registry[e.agent.agentId].updatedAt))
  {
    ReachableInv(s);
    DeliverKeepsClientOk(s.log, s.clients[i]);
    var c, e := s.clients[i], s.clients[i].sub.queue[0].event;
    if e.AgentUpdated? && e.agent.agentId in c.registry
        && TextOrder(e.agent.updatedAt) < TextOrder(c.registry[e.agent.agentId].updatedAt) {
      assert Fold(c.view, e).agents[e.agent.agentId] == e.agent;
      assert R.Streamed(c.registry, e)[e.agent.agentId] == c.registry[e.agent.agentId];
    }
  }

  lemma {:induction false} RunsAppend(s: Live, a: seq<Step>, b: seq<Step>)
    requires Runs(s, a) && Runs(After(s, a), b)
    ensures Runs(s, a + b) && After(s, a + b) == After(After(s, a), b)
    decreases |a|
  {
    if a == [] {
      assert a + b == b;
    } else {
      assert (a + b)[1..] == a[1..] + b;
      RunsAppend(Next(s, a[0]), a[1..], b);
    }
  }

  ghost predicate InSync(s: Live, s': Live, agent: Agent)
    requires |s.clients| == 1
  {
    && s'.maxQueue == s.maxQueue && |s'.log| == |s.log| + 1 && |s'.clients| == 1
    && var c := s'.clients[0];
       && c.open && !c.resync && c.snapshotSeq <= |s'.log| && c.sub == SubscriptionState([], 1, false, false)
       && c.registry == R.Updated(s.clients[0].registry, agent)
  }

  /** One client in sync with an empty queue: a mutation with a single agent event, then its delivery. */
  lemma PublishAndDeliver(s: Live, m: Mutation, clock: Clock, agent: Agent)
    requires RunsHavePhases(s.store) && s.maxQueue >= 1 && |s.clients| == 1
    requires s.clients[0].open && !s.clients[0].resync && s.clients[0].snapshotSeq <= |s.log|
    requires s.clients[0].sub == SubscriptionState([], 1, false, false)
    requires Apply(s.store, m, clock).1 == [AgentUpdated(agent)] && RunsHavePhases(Apply(s.store, m, clock).0)
    ensures var steps := [Mutate(m, clock), Deliver(0)];
            Runs(s, steps) && InSync(s, After(s, steps), agent) && After(s, steps).store == Apply(s.store, m, clock).0
  {
    var c := s.clients[0];
    var s1 := Next(s, Mutate(m, clock));
    OneOffer(c.sub, |s.log|, AgentUpdated(agent));
    assert s1.clients[0].sub.queue == [BusEvent(|s.log| + 1, AgentUpdated(agent))];
    var s2 := Next(s1, Deliver(0));
    assert s2.clients[0].sub.queue == [];
    RunsCons(s1, Deliver(0), []);
    RunsCons(s, Mutate(m, clock), [Deliver(0)]);
    assert [Mutate(m, clock), Deliver(0)] == [Mutate(m, clock)] + [Deliver(0)];
  }

  /** A client in sync sees an agent registered at `first` and picked up at `second`. */
  lemma LaggingFrom(s: Live, first: Time, second: Time) returns (steps: seq<Step>)
    requires TextOrder(second) < TextOrder(first)
    requires s == After(Start(1, 1, 1), [Connect([])]) && Runs(Start(1, 1, 1), [Connect([])])
    ensures Runs(s, steps)
    ensures var t := After(s, steps);
            && |t.clients| == 1 && !t.clients[0].resync && t.clients[0].sub.queue == []
            && "a" in t.store.agents && "a" in t.clients[0].registry
            && t.store.agents["a"].state == Running && t.clients[0].registry["a"].state == Pending
  {
    var register := RegisterAgent("a", "research", "t", None, None);
    var pickup := UpdateAgent("a", AgentUpdate(Some(Running), None, None, None, None));
    var pending := Agent("a", "research", None, None, Pending, first, first, None, None, None, None,
        [AgentTask("a", "t", first)]);
    var running := pending.(state := Running, queuedTasks := [], updatedAt := second);
    PublishAndDeliver(s, register, Clock(first, 0.0), pending);
    var one := [Mutate(register, Clock(first, 0.0)), Deliver(0)];
    var s2 := After(s, one);
    assert s2.store.agents == map["a" := pending];
    PublishAndDeliver(s2, pickup, Clock(second, 0.0), running);
    var two := [Mutate(pickup, Clock(second, 0.0)), Deliver(0)];
    RunsAppend(s, one, two);
    steps := one + two;
    assert After(s, steps).store.agents["a"] == running;
  }

  /** A run in which the frontend keeps showing a pending agent that is running. */
  lemma LaggingRun(first: Time, second: Time)
    requires TextOrder(second) < TextOrder(first)
    ensures exists steps :: Runs(Start(1, 1, 1), steps) && var s := After(Start(1, 1, 1), steps);
              |s.clients| == 1 && !s.clients[0].resync && s.clients[0].sub.queue == []
                  && s.clients[0].registry != s.store.agents
  {
    var s0 := Start(1, 1, 1);
    RunsCons(s0, Connect([]), []);
    assert [Connect([])] + [] == [Connect([])];
    var s1 := After(s0, [Connect([])]);
    var rest := LaggingFrom(s1, first, second);
    RunsAppend(s0, [Connect([])], rest);
  }

  /** It takes no clock that runs backwards: the first stamp on a whole second will do, with the second
      one later within it. */
  lemma ForwardClockRun(second: int, micro: nat)
    requires 0 < micro < SECOND
    ensures second * SECOND < second * SECOND + micro
    ensures exists steps :: Runs(Start(1, 1, 1), steps) && var s := After(Start(1, 1, 1), steps);
              |s.clients| == 1 && !s.clients[0].resync && s.clients[0].sub.queue == []
                  && s.clients[0].registry != s.store.agents
  {
    assert (second * SECOND) % SECOND == 0 && (second * SECOND + micro) % SECOND == micro;
    LaggingRun(second * SECOND, second * SECOND + micro);
  }

  lemma OneOffer(s: SubscriptionState, published: nat, e: StoreEvent)
    requires s.queue == [] && s.capacity >= 1
    ensures OfferedAll(s, published, [e]) == s.(queue := [BusEvent(published + 1, e)])
  {
    assert OfferedAll(Offered(s, BusEvent(published + 1, e)), published + 1, [e][1..])
        == Offered(s, BusEvent(published + 1, e));
  }
}
