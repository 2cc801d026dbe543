/** The agent registry of the frontend reducer (`frontend/src/state/AppState.tsx`): upserts that never
    roll an agent back, evictions, and wholesale resync. */
module Registry {
  import opened Basics
  import opened Store
  import opened Stamps

  type Registry = map<Id, Agent>

  /** `agent_updated`: a snapshot whose stamp is before the one held, as text, is dropped. */
  function Updated(agents: Registry, agent: Agent): Registry {
    if agent.agentId in agents && TextOrder(agents[agent.agentId].updatedAt) > TextOrder(agent.updatedAt) then agents
    else agents[agent.agentId := agent]
  }

  function Evicted(agents: Registry, agentId: Id): Registry {
    agents - {agentId}
  }

  /** `agents_synced`: the list replaces the registry, later entries winning. */
  function Synced(list: seq<Agent>): Registry {
    if list == [] then map[] else Synced(list[..|list| - 1])[list[|list| - 1].agentId := list[|list| - 1]]
  }

  function UpdatedAll(agents: Registry, snapshots: seq<Agent>): Registry {
    if snapshots == [] then agents
    else Updated(UpdatedAll(agents, snapshots[..|snapshots| - 1]), snapshots[|snapshots| - 1])
  }

  /** How `useWebSocket` dispatches a streamed event; the other kinds do not touch the registry. */
  function Streamed(agents: Registry, e: StoreEvent): Registry {
    match e
    case AgentUpdated(agent) => Updated(agents, agent)
    case AgentEvicted(agent) => Evicted(agents, agent.agentId)
    case _ => agents
  }

  /** Two snapshots of one agent with the same stamp are the same snapshot. */
  ghost predicate DistinctStamps(snapshots: set<Agent>) {
    forall a, b | a in snapshots && b in snapshots && a.agentId == b.agentId && a.updatedAt == b.updatedAt :: a == b
  }

  ghost function Members(s: seq<Agent>): set<Agent> {
    set a | a in s
  }

  /** `r` holds, for each agent with a snapshot in `snapshots`, the one whose stamp comes last as text. */
  ghost predicate HoldsLatest(r: Registry, snapshots: set<Agent>) {
    && (forall id :: id in r <==> exists a :: a in snapshots && a.agentId == id)
    && (forall id | id in r :: r[id] in snapshots && r[id].agentId == id)
    && (forall id, a | id in r && a in snapshots && a.agentId == id ::
         TextOrder(a.updatedAt) <= TextOrder(r[id].updatedAt))
  }

  lemma {:induction false} FoldHoldsLatest(snapshots: seq<Agent>)
    ensures HoldsLatest(UpdatedAll(map[], snapshots), Members(snapshots))
  {
    if snapshots != [] {
      var front, last := snapshots[..|snapshots| - 1], snapshots[|snapshots| - 1];
      FoldHoldsLatest(front);
      assert snapshots == front + [last];
      assert Members(snapshots) == Members(front) + {last};
      LatestStep(UpdatedAll(map[], front), Members(front), last);
    }
  }

  lemma LatestStep(r: Registry, snapshots: set<Agent>, last: Agent)
    requires HoldsLatest(r, snapshots)
    ensures HoldsLatest(Updated(r, last), snapshots + {last})
  {
    var r' := Updated(r, last);
    forall id
      ensures id in r' <==> exists a :: a in snapshots + {last} && a.agentId == id
    {
      if id in r {
        var a :| a in snapshots && a.agentId == id;
        assert a in snapshots + {last};
      } else if id == last.agentId {
        assert last in snapshots + {last};
      }
    }
  }

  // ----- convergence -----

  /** No snapshot of its agent has a later stamp, as text. */
  ghost predicate Top(snapshots: set<Agent>, a: Agent) {
    a in snapshots
    && forall b | b in snapshots && b.agentId == a.agentId :: TextOrder(b.updatedAt) <= TextOrder(a.updatedAt)
  }

  /** Each agent has one topmost snapshot at most. */
  ghost predicate NoTies(snapshots: set<Agent>) {
    forall a, b | Top(snapshots, a) && Top(snapshots, b) && a.agentId == b.agentId :: a == b
  }

  /** All deliveries of these snapshots, in any order and with any duplication, leave one registry. */
  ghost predicate Converges(snapshots: set<Agent>) {
    forall p: seq<Agent>, q: seq<Agent> | Members(p) == snapshots && Members(q) == snapshots ::
      UpdatedAll(map[], p) == UpdatedAll(map[], q)
  }

  lemma SameTop(r: Registry, q: Registry, snapshots: set<Agent>)
    requires HoldsLatest(r, snapshots) && HoldsLatest(q, snapshots) && NoTies(snapshots)
    ensures r == q
  {
    forall id
      ensures id in r <==> id in q
      ensures id in r ==> r[id] == q[id]
    {
      if id in r {
        assert Top(snapshots, r[id]) && Top(snapshots, q[id]);
      }
    }
  }

  /** Delivered last, a topmost snapshot is the one held. */
  lemma TopLast(p: seq<Agent>, a: Agent)
    requires Top(Members(p), a)
    ensures Members(p + [a]) == Members(p)
    ensures a.agentId in UpdatedAll(map[], p + [a]) && UpdatedAll(map[], p + [a])[a.agentId] == a
  {
    FoldHoldsLatest(p);
    assert (p + [a])[..|p|] == p;
    var held := UpdatedAll(map[], p);
    if a.agentId in held { assert held[a.agentId] in Members(p); }
  }

  /** Deliveries converge if and only if no agent's topmost snapshots differ: a tie between older
      snapshots does no harm, one at the top always does. */
  lemma ConvergesExactly(p: seq<Agent>)
    ensures Converges(Members(p)) <==> NoTies(Members(p))
  {
    var snapshots := Members(p);
    if NoTies(snapshots) {
      forall one: seq<Agent>, other: seq<Agent> | Members(one) == snapshots && Members(other) == snapshots
        ensures UpdatedAll(map[], one) == UpdatedAll(map[], other)
      {
        FoldHoldsLatest(one);
        FoldHoldsLatest(other);
        SameTop(UpdatedAll(map[], one), UpdatedAll(map[], other), snapshots);
      }
    }
    if Converges(snapshots) {
      forall a, b | Top(snapshots, a) && Top(snapshots, b) && a.agentId == b.agentId
        ensures a == b
      {
        TopLast(p, a);
        TopLast(p, b);
        assert UpdatedAll(map[], p + [a]) == UpdatedAll(map[], p + [b]);
      }
    }
  }

  /** In particular any two deliveries of distinctly stamped snapshots leave the same registry. */
  lemma RegistryConverges(a: seq<Agent>, b: seq<Agent>)
    requires Members(a) == Members(b) && DistinctStamps(Members(a))
    ensures UpdatedAll(map[], a) == UpdatedAll(map[], b)
  {
    forall x, y | Top(Members(a), x) && Top(Members(a), y) && x.agentId == y.agentId
      ensures x == y
    {
      TextOrderExact(x.updatedAt, y.updatedAt);
    }
    ConvergesExactly(a);
  }

  /** Two stamps of one agent whose text order is not their time order. */
  predicate Clash(a: Agent, b: Agent) {
    && a.agentId == b.agentId && a.updatedAt != b.updatedAt && a.updatedAt / SECOND == b.updatedAt / SECOND
    && (a.updatedAt % SECOND == 0 || b.updatedAt % SECOND == 0)
  }

  /** The registry keeps an agent's newest snapshot if and only if none of its newest ones is beaten by
      an older one that clashes with it. */
  lemma NewestHeld(snapshots: seq<Agent>, newest: Agent)
    requires DistinctStamps(Members(snapshots)) && newest in snapshots
    requires forall a | a in snapshots && a.agentId == newest.agentId :: a.updatedAt <= newest.updatedAt
    ensures newest.agentId in UpdatedAll(map[], snapshots)
    ensures UpdatedAll(map[], snapshots)[newest.agentId] == newest <==>
              forall a | a in snapshots :: !(Clash(a, newest) && TextOrder(a.updatedAt) > TextOrder(newest.updatedAt))
  {
    FoldHoldsLatest(snapshots);
    var r := UpdatedAll(map[], snapshots);
    var id := newest.agentId;
    assert newest in Members(snapshots);
    assert id in r && r[id] in Members(snapshots);
    if r[id] != newest {
      assert TextOrder(newest.updatedAt) <= TextOrder(r[id].updatedAt);
      TextOrderExact(newest.updatedAt, r[id].updatedAt);
      TextOrderExact(r[id].updatedAt, newest.updatedAt);
      assert Clash(r[id], newest);
    } else {
      forall a | a in snapshots && a.agentId == id ensures TextOrder(a.updatedAt) <= TextOrder(newest.updatedAt) {
        assert a in Members(snapshots);
      }
    }
  }

  /** Two snapshots tied at the top: the last delivery wins, so order matters. */
  lemma EqualStampsDiverge()
    ensures exists a: Agent, b: Agent ::
            Members([a, b]) == Members([b, a]) && UpdatedAll(map[], [a, b]) != UpdatedAll(map[], [b, a])
  {
    var a := Agent("a", "research", None, None, Running, 0, 1, None, None, None, None, []);
    var b := a.(state := Completed);
    assert Members([a, b]) == Members([b, a]);
    TwoUpdates(a, b);
    TwoUpdates(b, a);
    assert UpdatedAll(map[], [a, b])["a"] == b && UpdatedAll(map[], [b, a])["a"] == a;
  }

  lemma TwoUpdates(a: Agent, b: Agent)
    ensures UpdatedAll(map[], [a, b]) == Updated(map[a.agentId := a], b)
  {
    assert [a, b][..1] == [a] && [a][..0] == [];
    assert UpdatedAll(map[], [a]) == map[a.agentId := a];
  }

  lemma {:induction false} SyncedIsMap(list: seq<Agent>, agents: Registry)
    requires forall a | a in list :: a.agentId in agents && agents[a.agentId] == a
    ensures forall id :: id in Synced(list) <==> exists a :: a in list && a.agentId == id
    ensures forall id | id in Synced(list) :: id in agents && Synced(list)[id] == agents[id]
  {
    if list != [] {
      var front, last := list[..|list| - 1], list[|list| - 1];
      SyncedIsMap(front, agents);
      assert list == front + [last];
      assert last in list;
      assert forall a :: a in list <==> a in front || a == last;
    }
  }

  /** The connect snapshot lists every registered agent once; syncing restores the store's map. */
  lemma SyncRestores(list: seq<Agent>, agents: Registry)
    requires forall id | id in agents :: agents[id].agentId == id
    requires forall a :: a in list <==> exists id :: id in agents && agents[id] == a
    ensures Synced(list) == agents
  {
    forall a | a in list
      ensures a.agentId in agents && agents[a.agentId] == a
    {
    }
    SyncedIsMap(list, agents);
    forall id | id in agents
      ensures id in Synced(list)
    {
      assert agents[id] in list;
    }
  }
}
