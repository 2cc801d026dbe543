/** Audit data retention (`backend/app/audit/retention.py`) over the four tables of
    `backend/app/audit/models.py`, with the foreign keys' ON DELETE actions. */
module Retention {
  import opened Basics

  type Id = string
  type Key = nat
  type Time = int

  /** Time is counted in microseconds. */
  const DAY: int := 86_400_000_000

  datatype SessionRow = SessionRow(updatedAt: Time)
  datatype RequestRow = RequestRow(sessionId: Option<Id>, timestamp: Time)
  datatype ResponseRow = ResponseRow(requestId: Id, timestamp: Time)
  datatype EventRow = EventRow(requestId: Option<Id>, timestamp: Time)

  datatype Database = Database(responses: map<Key, ResponseRow>, events: map<Key, EventRow>,
                               requests: map<Id, RequestRow>, sessions: map<Id, SessionRow>)

  datatype Table = PromptResponses | AgentEvents | PromptRequests | Sessions

  /** Children before parents. */
  const TABLES: seq<Table> := [PromptResponses, AgentEvents, PromptRequests, Sessions]

  /** Days per table; a missing or non-positive window keeps that table's rows. */
  type Windows = map<Table, int>

  predicate ForeignKeysOk(d: Database) {
    && (forall k | k in d.responses :: d.responses[k].requestId in d.requests)
    && (forall k | k in d.events :: d.events[k].requestId.Some? ==> d.events[k].requestId.value in d.requests)
    && (forall k | k in d.requests :: d.requests[k].sessionId.Some? ==> d.requests[k].sessionId.value in d.sessions)
  }

  /** `resolve_windows`: the override for a table, or else the default. */
  function ResolvedWindows(defaultDays: int, overrides: Windows): (w: Windows)
    ensures forall t :: t in w && Window(w, t) == if t in overrides then overrides[t] else defaultDays
  {
    map t: Table | true :: if t in overrides then overrides[t] else defaultDays
  }

  function Window(windows: Windows, table: Table): int {
    if table in windows then windows[table] else 0
  }

  /** Whether a row of `table` stamped `stamp` has outlived its window. */
  predicate Outlived(windows: Windows, table: Table, now: Time, stamp: Time) {
    Window(windows, table) > 0 && stamp < now - Window(windows, table) * DAY
  }

  // ----- the DELETE statements -----

  /** A reference that ON DELETE SET NULL clears when its target goes. */
  function Cleared(reference: Option<Id>, gone: set<Id>): Option<Id> {
    if reference.Some? && reference.value in gone then None else reference
  }

  /** ON DELETE CASCADE: responses of deleted requests go with them. */
  function Cascade(responses: map<Key, ResponseRow>, gone: set<Id>): map<Key, ResponseRow> {
    map k | k in responses && responses[k].requestId !in gone :: responses[k]
  }

  function ClearedEvents(events: map<Key, EventRow>, gone: set<Id>): map<Key, EventRow> {
    map k | k in events :: events[k].(requestId := Cleared(events[k].requestId, gone))
  }

  function ClearedRequests(requests: map<Id, RequestRow>, gone: set<Id>): map<Id, RequestRow> {
    map k | k in requests :: requests[k].(sessionId := Cleared(requests[k].sessionId, gone))
  }

  function ExpiredRequests(d: Database, windows: Windows, now: Time): set<Id> {
    set k | k in d.requests && Outlived(windows, PromptRequests, now, d.requests[k].timestamp)
  }

  function ExpiredSessions(d: Database, windows: Windows, now: Time): set<Id> {
    set k | k in d.sessions && Outlived(windows, Sessions, now, d.sessions[k].updatedAt)
  }

  function ExpiredResponses(d: Database, windows: Windows, now: Time): set<Key> {
    set k | k in d.responses && Outlived(windows, PromptResponses, now, d.responses[k].timestamp)
  }

  function ExpiredEvents(d: Database, windows: Windows, now: Time): set<Key> {
    set k | k in d.events && Outlived(windows, AgentEvents, now, d.events[k].timestamp)
  }

  /** One table's DELETE, with what the foreign keys do to its children. */
  function Swept(d: Database, table: Table, windows: Windows, now: Time): Database {
    match table
    case PromptResponses => d.(responses := d.responses - ExpiredResponses(d, windows, now))
    case AgentEvents => d.(events := d.events - ExpiredEvents(d, windows, now))
    case PromptRequests =>
      var gone := ExpiredRequests(d, windows, now);
      d.(requests := d.requests - gone, responses := Cascade(d.responses, gone),
          events := ClearedEvents(d.events, gone))
    case Sessions =>
      var gone := ExpiredSessions(d, windows, now);
      d.(sessions := d.sessions - gone, requests := ClearedRequests(d.requests, gone))
  }

  /** The rows a table's DELETE matches, and its SELECT counts. */
  function Matched(d: Database, table: Table, windows: Windows, now: Time): nat {
    match table
    case PromptResponses => |ExpiredResponses(d, windows, now)|
    case AgentEvents => |ExpiredEvents(d, windows, now)|
    case PromptRequests => |ExpiredRequests(d, windows, now)|
    case Sessions => |ExpiredSessions(d, windows, now)|
  }

  function SweptAll(d: Database, tables: seq<Table>, windows: Windows, now: Time): Database {
    if tables == [] then d
    else Swept(SweptAll(d, tables[..|tables| - 1], windows, now), tables[|tables| - 1], windows, now)
  }

  function Retained(d: Database, windows: Windows, now: Time): Database {
    SweptAll(d, TABLES, windows, now)
  }

  /** `apply_retention`.  The real run deletes exactly what retention keeps out and reports the very
      counts the dry run reports, which are those of the database as it was at the start. */
  method ApplyRetention(d: Database, windows: Windows, now: Time, dryRun: bool) returns (after: Database,
                        affected: map<Table, nat>)
    ensures after == if dryRun then d else Retained(d, windows, now)
    ensures affected == map t: Table | true :: Matched(d, t, windows, now)
  {
    after, affected := d, map[];
    for i := 0 to |TABLES|
      invariant after == if dryRun then d else SweptAll(d, TABLES[..i], windows, now)
      invariant forall t :: t in affected <==> t in TABLES[..i]
      invariant forall t | t in affected :: affected[t] == Matched(d, t, windows, now)
    {
      var table := TABLES[i];
      TableInTurn(d, i, windows, now);
      var days := Window(windows, table);
      if days <= 0 {
        NothingExpired(after, table, windows, now);
        affected := affected[table := 0];
      } else {
        affected := affected[table := Matched(after, table, windows, now)];
        if !dryRun {
          after := Swept(after, table, windows, now);
        }
      }
    }
    assert TABLES[..|TABLES|] == TABLES;
    EveryTable();
  }

  lemma TableInTurn(d: Database, i: nat, windows: Windows, now: Time)
    requires i < |TABLES|
    ensures SweptAll(d, TABLES[..i + 1], windows, now)
            == Swept(SweptAll(d, TABLES[..i], windows, now), TABLES[i], windows, now)
    ensures Matched(SweptAll(d, TABLES[..i], windows, now), TABLES[i], windows, now)
            == Matched(d, TABLES[i], windows, now)
    ensures forall t :: t in TABLES[..i + 1] <==> t in TABLES[..i] || t == TABLES[i]
  {
    assert TABLES[..i + 1] == TABLES[..i] + [TABLES[i]];
    SweptSnoc(d, TABLES[..i], TABLES[i], windows, now);
    LaterTablesUntouched(d, i, windows, now);
  }

  /** With its window off, a table's DELETE would match no row and change nothing. */
  lemma NothingExpired(d: Database, table: Table, windows: Windows, now: Time)
    requires Window(windows, table) <= 0
    ensures Matched(d, table, windows, now) == 0 && Swept(d, table, windows, now) == d
  {
    match table
    case PromptResponses => assert ExpiredResponses(d, windows, now) == {};
    case AgentEvents => assert ExpiredEvents(d, windows, now) == {};
    case PromptRequests =>
      assert ExpiredRequests(d, windows, now) == {};
      assert Swept(d, table, windows, now).responses == d.responses;
    case Sessions => assert ExpiredSessions(d, windows, now) == {};
  }

  /** Deleting children first leaves the tables still to come as they were, up to cleared references. */
  lemma LaterTablesUntouched(d: Database, i: nat, windows: Windows, now: Time)
    requires i < |TABLES|
    ensures Matched(SweptAll(d, TABLES[..i], windows, now), TABLES[i], windows, now)
            == Matched(d, TABLES[i], windows, now)
  {
    PartlySwept(d, i, windows, now);
    var e := SweptAll(d, TABLES[..i], windows, now);
    if i == 0 { assert e == d; }
    else if i == 1 { assert ExpiredEvents(e, windows, now) == ExpiredEvents(d, windows, now); }
    else if i == 2 { assert ExpiredRequests(e, windows, now) == ExpiredRequests(d, windows, now); }
    else { assert ExpiredSessions(e, windows, now) == ExpiredSessions(d, windows, now); }
  }

  // ----- what a run, finished or interrupted, leaves -----

  function RequestsGone(d: Database, i: nat, windows: Windows, now: Time): set<Id> {
    if i >= 3 then ExpiredRequests(d, windows, now) else {}
  }

  function SessionsGone(d: Database, i: nat, windows: Windows, now: Time): set<Id> {
    if i >= 4 then ExpiredSessions(d, windows, now) else {}
  }

  function SessionsLeft(d: Database, i: nat, windows: Windows, now: Time): map<Id, SessionRow> {
    d.sessions - SessionsGone(d, i, windows, now)
  }

  function RequestsLeft(d: Database, i: nat, windows: Windows, now: Time): map<Id, RequestRow> {
    ClearedRequests(d.requests - RequestsGone(d, i, windows, now), SessionsGone(d, i, windows, now))
  }

  function ResponsesLeft(d: Database, i: nat, windows: Windows, now: Time): map<Key, ResponseRow> {
    Cascade(d.responses - (if i >= 1 then ExpiredResponses(d, windows, now) else {}), RequestsGone(d, i, windows, now))
  }

  function EventsLeft(d: Database, i: nat, windows: Windows, now: Time): map<Key, EventRow> {
    ClearedEvents(d.events - (if i >= 2 then ExpiredEvents(d, windows, now) else {}), RequestsGone(d, i, windows, now))
  }

  /** What is left once the first `i` tables were swept, row by row. */
  ghost predicate Leaves(d: Database, e: Database, i: nat, windows: Windows, now: Time) {
    && e.sessions == SessionsLeft(d, i, windows, now)
    && e.requests == RequestsLeft(d, i, windows, now)
    && e.responses == ResponsesLeft(d, i, windows, now)
    && e.events == EventsLeft(d, i, windows, now)
  }

  lemma PartlySwept(d: Database, i: nat, windows: Windows, now: Time)
    requires i <= |TABLES|
    ensures Leaves(d, SweptAll(d, TABLES[..i], windows, now), i, windows, now)
  {
    if i == 0 {
      assert TABLES[..0] == [];
      SweepNothing(d, windows, now);
    } else {
      PartlySwept(d, i - 1, windows, now);
      var e := SweptAll(d, TABLES[..i - 1], windows, now);
      assert TABLES[..i] == TABLES[..i - 1] + [TABLES[i - 1]];
      SweptSnoc(d, TABLES[..i - 1], TABLES[i - 1], windows, now);
      if i == 1 { assert TABLES[..0] == []; SweepNothing(d, windows, now); SweepResponses(d, windows, now); }
      else if i == 2 { SweepEvents(d, e, windows, now); }
      else if i == 3 { SweepRequests(d, e, windows, now); }
      else { SweepSessions(d, e, windows, now); }
    }
  }

  lemma EveryTable()
    ensures forall t: Table :: t in TABLES
  {
    forall t: Table ensures t in TABLES {
      assert TABLES[0] == PromptResponses && TABLES[1] == AgentEvents && TABLES[2] == PromptRequests
          && TABLES[3] == Sessions;
      match t case PromptResponses => case AgentEvents => case PromptRequests => case Sessions =>
    }
  }

  lemma SweptSnoc(d: Database, tables: seq<Table>, last: Table, windows: Windows, now: Time)
    ensures SweptAll(d, tables + [last], windows, now) == Swept(SweptAll(d, tables, windows, now), last, windows, now)
  {
    assert (tables + [last])[..|tables|] == tables;
  }

  lemma NothingGone(responses: map<Key, ResponseRow>, events: map<Key, EventRow>, requests: map<Id, RequestRow>)
    ensures Cascade(responses, {}) == responses && ClearedEvents(events, {}) == events
            && ClearedRequests(requests, {}) == requests
  {
  }

  lemma SweepNothing(d: Database, windows: Windows, now: Time)
    ensures Leaves(d, d, 0, windows, now) && SweptAll(d, [], windows, now) == d
  {
    NothingGone(d.responses - {}, d.events - {}, d.requests - {});
    assert d.sessions - {} == d.sessions && d.requests - {} == d.requests;
    assert d.responses - {} == d.responses && d.events - {} == d.events;
  }

  lemma SweepResponses(d: Database, windows: Windows, now: Time)
    ensures Leaves(d, Swept(d, PromptResponses, windows, now), 1, windows, now)
  {
    SweepNothing(d, windows, now);
    NothingGone(d.responses - ExpiredResponses(d, windows, now), d.events, d.requests);
  }

  lemma SweepEvents(d: Database, e: Database, windows: Windows, now: Time)
    requires Leaves(d, e, 1, windows, now)
    ensures Leaves(d, Swept(e, AgentEvents, windows, now), 2, windows, now)
  {
    SweepNothing(d, windows, now);
    NothingGone(d.responses - ExpiredResponses(d, windows, now), d.events - ExpiredEvents(d, windows, now), d.requests);
    assert e.events == d.events;
  }

  lemma SweepRequests(d: Database, e: Database, windows: Windows, now: Time)
    requires Leaves(d, e, 2, windows, now)
    ensures Leaves(d, Swept(e, PromptRequests, windows, now), 3, windows, now)
  {
    SweepNothing(d, windows, now);
    NothingGone(d.responses - ExpiredResponses(d, windows, now), d.events - ExpiredEvents(d, windows, now),
                d.requests - ExpiredRequests(d, windows, now));
    assert e.requests == d.requests;
    assert e.responses == d.responses - ExpiredResponses(d, windows, now);
  }

  lemma SweepSessions(d: Database, e: Database, windows: Windows, now: Time)
    requires Leaves(d, e, 3, windows, now)
    ensures Leaves(d, Swept(e, Sessions, windows, now), 4, windows, now)
  {
    SweepNothing(d, windows, now);
    NothingGone(d.responses, d.events, d.requests - ExpiredRequests(d, windows, now));
    assert e.sessions == d.sessions;
  }

  lemma RetainedLeaves(d: Database, windows: Windows, now: Time)
    ensures Leaves(d, Retained(d, windows, now), 4, windows, now)
  {
    assert TABLES[..4] == TABLES;
    PartlySwept(d, 4, windows, now);
  }

  /** A response stays exactly when it is inside its own window and its request stays, a request or
      an event when it is inside its own; references to deleted parents are cleared, others kept. */
  lemma WhatSurvives(d: Database, windows: Windows, now: Time)
    requires ForeignKeysOk(d)
    ensures var e := Retained(d, windows, now);
            && (forall k :: k in e.responses <==>
                  k in d.responses && !Outlived(windows, PromptResponses, now, d.responses[k].timestamp)
                  && d.responses[k].requestId in e.requests)
            && (forall k | k in e.responses :: e.responses[k] == d.responses[k])
            && (forall k :: k in e.events <==>
                 k in d.events && !Outlived(windows, AgentEvents, now, d.events[k].timestamp))
            && (forall k | k in e.events :: e.events[k].timestamp == d.events[k].timestamp
                 && e.events[k].requestId ==
                    if d.events[k].requestId.Some? && d.events[k].requestId.value !in e.requests then None
                    else d.events[k].requestId)
            && (forall k :: k in e.requests <==>
                 k in d.requests && !Outlived(windows, PromptRequests, now, d.requests[k].timestamp))
            && (forall k | k in e.requests :: e.requests[k].timestamp == d.requests[k].timestamp
                 && e.requests[k].sessionId ==
                    if d.requests[k].sessionId.Some? && d.requests[k].sessionId.value !in e.sessions then None
                    else d.requests[k].sessionId)
            && (forall k :: k in e.sessions <==>
                 k in d.sessions && !Outlived(windows, Sessions, now, d.sessions[k].updatedAt))
  {
    RetainedLeaves(d, windows, now);
  }

  /** After any prefix of the tables, an interrupted run included, every foreign key still holds. */
  lemma KeepsForeignKeys(d: Database, i: nat, windows: Windows, now: Time)
    requires ForeignKeysOk(d) && i <= |TABLES|
    ensures ForeignKeysOk(SweptAll(d, TABLES[..i], windows, now))
  {
    PartlySwept(d, i, windows, now);
  }

  /** Whatever an interrupted run got done, the next run, then or later, ends where an uninterrupted
      one would have. */
  lemma NextRunCompletes(d: Database, i: nat, windows: Windows, now: Time, later: Time)
    requires i <= |TABLES| && now <= later
    ensures Retained(SweptAll(d, TABLES[..i], windows, now), windows, later) == Retained(d, windows, later)
  {
    var e := SweptAll(d, TABLES[..i], windows, now);
    PartlySwept(d, i, windows, now);
    RetainedLeaves(e, windows, later);
    RetainedLeaves(d, windows, later);
    SameParents(d, e, i, windows, now, later);
    SameResponses(d, e, i, windows, now, later);
    SameEvents(d, e, i, windows, now, later);
  }

  /** What a partial run left of what will have expired by the next one. */
  lemma ExpiredAgain(d: Database, e: Database, i: nat, windows: Windows, now: Time, later: Time)
    requires i <= |TABLES| && now <= later
    requires e.requests == RequestsLeft(d, i, windows, now) && e.sessions == SessionsLeft(d, i, windows, now)
    ensures ExpiredRequests(e, windows, later) == ExpiredRequests(d, windows, later) - RequestsGone(d, i, windows, now)
    ensures ExpiredSessions(e, windows, later) == ExpiredSessions(d, windows, later) - SessionsGone(d, i, windows, now)
    ensures RequestsGone(d, i, windows, now) <= ExpiredRequests(d, windows, later)
    ensures SessionsGone(d, i, windows, now) <= ExpiredSessions(d, windows, later)
  {
  }

  lemma SameParents(d: Database, e: Database, i: nat, windows: Windows, now: Time, later: Time)
    requires i <= |TABLES| && now <= later
    requires e.requests == RequestsLeft(d, i, windows, now) && e.sessions == SessionsLeft(d, i, windows, now)
    ensures SessionsLeft(e, 4, windows, later) == SessionsLeft(d, 4, windows, later)
    ensures RequestsLeft(e, 4, windows, later) == RequestsLeft(d, 4, windows, later)
  {
    ExpiredAgain(d, e, i, windows, now, later);
  }

  lemma SameResponses(d: Database, e: Database, i: nat, windows: Windows, now: Time, later: Time)
    requires i <= |TABLES| && now <= later
    requires e.requests == RequestsLeft(d, i, windows, now) && e.sessions == SessionsLeft(d, i, windows, now)
    requires e.responses == ResponsesLeft(d, i, windows, now)
    ensures ResponsesLeft(e, 4, windows, later) == ResponsesLeft(d, 4, windows, later)
  {
    ExpiredAgain(d, e, i, windows, now, later);
  }

  lemma ExpiredEventsAgain(d: Database, e: Database, i: nat, windows: Windows, now: Time, later: Time)
    requires i <= |TABLES| && now <= later && e.events == EventsLeft(d, i, windows, now)
    ensures ExpiredEvents(e, windows, later)
            == ExpiredEvents(d, windows, later) - (if i >= 2 then ExpiredEvents(d, windows, now) else {})
    ensures ExpiredEvents(d, windows, now) <= ExpiredEvents(d, windows, later)
  {
  }

  lemma SameEvents(d: Database, e: Database, i: nat, windows: Windows, now: Time, later: Time)
    requires i <= |TABLES| && now <= later
    requires e.requests == RequestsLeft(d, i, windows, now) && e.sessions == SessionsLeft(d, i, windows, now)
    requires e.events == EventsLeft(d, i, windows, now)
    ensures EventsLeft(e, 4, windows, later) == EventsLeft(d, 4, windows, later)
  {
    ExpiredAgain(d, e, i, windows, now, later);
    ExpiredEventsAgain(d, e, i, windows, now, later);
    ClearedTwice(d.events, if i >= 2 then ExpiredEvents(d, windows, now) else {}, ExpiredEvents(d, windows, later),
                 RequestsGone(d, i, windows, now), ExpiredRequests(d, windows, later));
  }

  /** Sweeping and clearing a second time, with what was left to sweep, is doing it once in full. */
  lemma ClearedTwice(events: map<Key, EventRow>, first: set<Key>, all: set<Key>, gone: set<Id>, allGone: set<Id>)
    requires first <= all && gone <= allGone
    ensures ClearedEvents(ClearedEvents(events - first, gone) - (all - first), allGone - gone)
            == ClearedEvents(events - all, allGone)
  {
  }

  /** A second run at the same instant finds nothing to delete. */
  lemma SecondRunAffectsNothing(d: Database, windows: Windows, now: Time, table: Table)
    ensures Matched(Retained(d, windows, now), table, windows, now) == 0
    ensures Retained(Retained(d, windows, now), windows, now) == Retained(d, windows, now)
  {
    var e := Retained(d, windows, now);
    RetainedLeaves(d, windows, now);
    assert ExpiredResponses(e, windows, now) == {};
    assert ExpiredEvents(e, windows, now) == {};
    assert ExpiredRequests(e, windows, now) == {};
    assert ExpiredSessions(e, windows, now) == {};
    assert TABLES[..4] == TABLES;
    NextRunCompletes(d, 4, windows, now, now);
  }

  // ----- what the windows decide -----

  /** A row is safe in its own table at all times exactly when the table's resolved window, its override
      or else the default, is off. */
  lemma SafeExactly(defaultDays: int, overrides: Windows, table: Table, stamp: Time)
    ensures (forall now: Time :: !Outlived(ResolvedWindows(defaultDays, overrides), table, now, stamp)) <==>
              (if table in overrides then overrides[table] else defaultDays) <= 0
  {
    var windows := ResolvedWindows(defaultDays, overrides);
    var days := Window(windows, table);
    if days > 0 {
      assert Outlived(windows, table, stamp + days * DAY + 1, stamp);
    }
  }

  predicate Off(defaultDays: int, overrides: Windows, table: Table) {
    (if table in overrides then overrides[table] else defaultDays) <= 0
  }

  /** So retention under resolved windows keeps an agent event, a request or a session at all times
      exactly when its table's window is off, but a response only when both its own and its request's
      are. */
  lemma KeptForeverExactly(d: Database, defaultDays: int, overrides: Windows)
    requires ForeignKeysOk(d)
    ensures var w := ResolvedWindows(defaultDays, overrides);
            && (forall k | k in d.events ::
                 (forall now: Time :: k in Retained(d, w, now).events) <==> Off(defaultDays, overrides, AgentEvents))
            && (forall k | k in d.requests ::
                 (forall now: Time :: k in Retained(d, w, now).requests) <==>
                   Off(defaultDays, overrides, PromptRequests))
            && (forall k | k in d.sessions ::
                 (forall now: Time :: k in Retained(d, w, now).sessions) <==> Off(defaultDays, overrides, Sessions))
            && (forall k | k in d.responses ::
                 (forall now: Time :: k in Retained(d, w, now).responses) <==>
                   Off(defaultDays, overrides, PromptResponses) && Off(defaultDays, overrides, PromptRequests))
  {
    var w := ResolvedWindows(defaultDays, overrides);
    forall k | k in d.events
      ensures (forall now: Time :: k in Retained(d, w, now).events) <==> Off(defaultDays, overrides, AgentEvents)
    {
      SafeExactly(defaultDays, overrides, AgentEvents, d.events[k].timestamp);
      forall now: Time
        ensures k in Retained(d, w, now).events <==> !Outlived(w, AgentEvents, now, d.events[k].timestamp)
      {
        WhatSurvives(d, w, now);
      }
    }
    forall k | k in d.requests
      ensures (forall now: Time :: k in Retained(d, w, now).requests) <==> Off(defaultDays, overrides, PromptRequests)
    {
      SafeExactly(defaultDays, overrides, PromptRequests, d.requests[k].timestamp);
      forall now: Time
        ensures k in Retained(d, w, now).requests <==> !Outlived(w, PromptRequests, now, d.requests[k].timestamp)
      {
        WhatSurvives(d, w, now);
      }
    }
    forall k | k in d.sessions
      ensures (forall now: Time :: k in Retained(d, w, now).sessions) <==> Off(defaultDays, overrides, Sessions)
    {
      SafeExactly(defaultDays, overrides, Sessions, d.sessions[k].updatedAt);
      forall now: Time
        ensures k in Retained(d, w, now).sessions <==> !Outlived(w, Sessions, now, d.sessions[k].updatedAt)
      {
        WhatSurvives(d, w, now);
      }
    }
    forall k | k in d.responses
      ensures (forall now: Time :: k in Retained(d, w, now).responses) <==>
                Off(defaultDays, overrides, PromptResponses) && Off(defaultDays, overrides, PromptRequests)
    {
      var request := d.requests[d.responses[k].requestId];
      SafeExactly(defaultDays, overrides, PromptResponses, d.responses[k].timestamp);
      SafeExactly(defaultDays, overrides, PromptRequests, request.timestamp);
      forall now: Time
        ensures k in Retained(d, w, now).responses <==>
                  !Outlived(w, PromptResponses, now, d.responses[k].timestamp)
                  && !Outlived(w, PromptRequests, now, request.timestamp)
      {
        WhatSurvives(d, w, now);
      }
    }
  }

  /** A row whose table keeps rows for `days`, no limit if not positive, is still young enough. */
  predicate Young(days: int, now: Time, stamp: Time) {
    days <= 0 || now - stamp <= days * 24 * 60 * 60 * 1_000_000
  }

  /** Age decides: with the windows resolved from a default and overrides, a row is kept as long as it is no
      older than its table's days, and no longer; a response also goes with its request. */
  lemma KeptWhileYoung(d: Database, defaultDays: int, overrides: Windows, now: Time)
    requires ForeignKeysOk(d)
    ensures var e := Retained(d, ResolvedWindows(defaultDays, overrides), now);
            && (forall k | k in d.sessions :: k in e.sessions <==>
                 Young(Days(defaultDays, overrides, Sessions), now, d.sessions[k].updatedAt))
            && (forall k | k in d.requests :: k in e.requests <==>
                 Young(Days(defaultDays, overrides, PromptRequests), now, d.requests[k].timestamp))
            && (forall k | k in d.events :: k in e.events <==>
                 Young(Days(defaultDays, overrides, AgentEvents), now, d.events[k].timestamp))
            && (forall k | k in d.responses :: k in e.responses <==>
                 Young(Days(defaultDays, overrides, PromptResponses), now, d.responses[k].timestamp)
                 && Young(Days(defaultDays, overrides, PromptRequests), now,
                          d.requests[d.responses[k].requestId].timestamp))
  {
    var windows := ResolvedWindows(defaultDays, overrides);
    WhatSurvives(d, windows, now);
    forall table: Table, stamp: Time
      ensures Outlived(windows, table, now, stamp) <==> !Young(Days(defaultDays, overrides, table), now, stamp)
    {
      OutlivedIsOld(defaultDays, overrides, table, now, stamp);
    }
  }

  function Days(defaultDays: int, overrides: Windows, table: Table): int {
    if table in overrides then overrides[table] else defaultDays
  }

  lemma OutlivedIsOld(defaultDays: int, overrides: Windows, table: Table, now: Time, stamp: Time)
    ensures Outlived(ResolvedWindows(defaultDays, overrides), table, now, stamp)
            <==> !Young(Days(defaultDays, overrides, table), now, stamp)
  {
  }

  // ----- are the reported counts honest? -----

  /** Responses inside their own window whose request has outlived its own. */
  function Cascaded(d: Database, windows: Windows, now: Time): set<Key> {
    set k | k in d.responses && k !in ExpiredResponses(d, windows, now)
            && d.responses[k].requestId in ExpiredRequests(d, windows, now)
  }

  /** The reported response count falls short of the rows really removed by exactly the cascaded
      ones, so it is honest if and only if no young response belongs to an expired request. */
  lemma HonestResponseCount(d: Database, windows: Windows, now: Time)
    ensures |d.responses| - |Retained(d, windows, now).responses|
            == Matched(d, PromptResponses, windows, now) + |Cascaded(d, windows, now)|
    ensures |d.responses| - |Retained(d, windows, now).responses| == Matched(d, PromptResponses, windows, now)
            <==> forall k | k in d.responses && d.responses[k].requestId in ExpiredRequests(d, windows, now) ::
                   Outlived(windows, PromptResponses, now, d.responses[k].timestamp)
  {
    RetainedLeaves(d, windows, now);
    LeftResponses(d, Retained(d, windows, now).responses, windows, now);
    var own, cascaded := ExpiredResponses(d, windows, now), Cascaded(d, windows, now);
    if cascaded == {} {
      forall k | k in d.responses && d.responses[k].requestId in ExpiredRequests(d, windows, now) ensures k in own {
        assert k !in cascaded;
      }
    } else {
      var k :| k in cascaded;
      assert |cascaded| == 1 + |cascaded - {k}|;
    }
  }

  lemma LeftResponses(d: Database, responses: map<Key, ResponseRow>, windows: Windows, now: Time)
    requires responses == ResponsesLeft(d, 4, windows, now)
    ensures |d.responses| - |responses| == |ExpiredResponses(d, windows, now)| + |Cascaded(d, windows, now)|
  {
    var own := ExpiredResponses(d, windows, now);
    MinusCount(d.responses, own);
    CascadeCount(d.responses - own, RequestsGone(d, 4, windows, now), Cascaded(d, windows, now));
  }

  lemma CascadeCount(responses: map<Key, ResponseRow>, gone: set<Id>, cascaded: set<Key>)
    requires forall k :: k in cascaded <==> k in responses && responses[k].requestId in gone
    ensures |Cascade(responses, gone)| == |responses| - |cascaded|
  {
    MinusCount(responses, cascaded);
    assert Cascade(responses, gone) == responses - cascaded;
  }

  lemma MinusCount<K, V>(m: map<K, V>, gone: set<K>)
    requires gone <= m.Keys
    ensures |m - gone| == |m| - |gone|
  {
    Parted(m.Keys, (m - gone).Keys, gone);
  }

  lemma ClearingKeepsRows(events: map<Key, EventRow>, gone: set<Id>, requests: map<Id, RequestRow>, gone': set<Id>)
    ensures |ClearedEvents(events, gone)| == |events| && |ClearedRequests(requests, gone')| == |requests|
  {
    assert ClearedEvents(events, gone).Keys == events.Keys;
    assert ClearedRequests(requests, gone').Keys == requests.Keys;
  }

  /** The other three tables' counts are always those of the rows really removed. */
  lemma HonestOtherCounts(d: Database, windows: Windows, now: Time, e: Database)
    requires e == Retained(d, windows, now)
    ensures |d.events| - |e.events| == Matched(d, AgentEvents, windows, now)
    ensures |d.requests| - |e.requests| == Matched(d, PromptRequests, windows, now)
    ensures |d.sessions| - |e.sessions| == Matched(d, Sessions, windows, now)
  {
    LeftFields(d, e, windows, now);
    LeftEvents(d, e.events, windows, now);
    LeftRequests(d, e.requests, windows, now);
    LeftSessions(d, e.sessions, windows, now);
  }

  lemma LeftFields(d: Database, e: Database, windows: Windows, now: Time)
    requires e == Retained(d, windows, now)
    ensures e.events == EventsLeft(d, 4, windows, now) && e.requests == RequestsLeft(d, 4, windows, now)
    ensures e.sessions == SessionsLeft(d, 4, windows, now)
  {
    RetainedLeaves(d, windows, now);
  }

  lemma LeftSessions(d: Database, left: map<Id, SessionRow>, windows: Windows, now: Time)
    requires left == SessionsLeft(d, 4, windows, now)
    ensures |d.sessions| - |left| == Matched(d, Sessions, windows, now)
  {
    MinusCount(d.sessions, ExpiredSessions(d, windows, now));
  }

  lemma LeftEvents(d: Database, left: map<Key, EventRow>, windows: Windows, now: Time)
    requires left == EventsLeft(d, 4, windows, now)
    ensures |d.events| - |left| == Matched(d, AgentEvents, windows, now)
  {
    MinusCount(d.events, ExpiredEvents(d, windows, now));
    ClearingKeepsRows(d.events - ExpiredEvents(d, windows, now), RequestsGone(d, 4, windows, now), map[], {});
  }

  lemma LeftRequests(d: Database, left: map<Id, RequestRow>, windows: Windows, now: Time)
    requires left == RequestsLeft(d, 4, windows, now)
    ensures |d.requests| - |left| == Matched(d, PromptRequests, windows, now)
  {
    MinusCount(d.requests, ExpiredRequests(d, windows, now));
    ClearingKeepsRows(map[], {}, d.requests - ExpiredRequests(d, windows, now), SessionsGone(d, 4, windows, now));
  }

  lemma Parted<K>(all: set<K>, kept: set<K>, gone: set<K>)
    requires kept !! gone && all == kept + gone
    ensures |all| == |kept| + |gone|
  {
  }

  /** Equal windows do not help: a response one day old whose request is three days old, both kept for
      two days.  The response goes with its request, and the report counts no response. */
  lemma DishonestCount(windows: Windows, d: Database)
    requires windows == map[PromptRequests := 2, PromptResponses := 2]
    requires d.requests == map["r" := RequestRow(None, -3 * DAY)]
    requires d.responses == map[0 := ResponseRow("r", -1 * DAY)] && d.events == map[] && d.sessions == map[]
    ensures ForeignKeysOk(d)
    ensures Matched(d, PromptResponses, windows, 0) == 0
    ensures 0 !in Retained(d, windows, 0).responses
  {
    WhatSurvives(d, windows, 0);
    assert ExpiredResponses(d, windows, 0) == {};
    assert Outlived(windows, PromptRequests, 0, d.requests["r"].timestamp);
  }
}
