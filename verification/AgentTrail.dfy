/** Agent audit events (`backend/app/audit/service.py`, `backend/app/orchestration/runner.py`), the
    lifecycle language they form, and the reconstruction of an agent from its trail
    (`backend/app/api/routes/agents.py`). */
module AgentTrail {
  import opened Basics
  import opened Store

  datatype EventType =
    | SpawnedEvent | StartedEvent | ProgressEvent | CompletedEvent | FailedEvent | CancelledEvent
    | CustomEvent(name: string)

  /** The JSON payloads the runner writes, by the keys they hold. */
  datatype Payload =
    | NoPayload
    | SpawnPayload(kind: string, task: string, sessionId: Option<Id>)
    | ProgressPayload(phase: string, fraction: Option<real>)
    | ResultPayload(summary: string)
    | ErrorPayload(error: string)
    | ReasonPayload(reason: string)
    | OtherPayload

  datatype AgentEvent = AgentEvent(agentId: Id, eventType: EventType, requestId: Option<Id>,
                                   state: Option<AgentState>, payload: Payload)

  const WALL_CLOCK := "wall-clock timeout"

  /** The fields of `AgentDetail` that `_reconstruct_detail` rebuilds. */
  datatype Detail = Detail(kind: string, task: Option<string>, sessionId: Option<Id>, requestId: Option<Id>,
                           state: AgentState, progressPhase: Option<string>, progressFraction: Option<real>,
                           lastResult: Option<string>, error: Option<string>)

  const BLANK := Detail("unknown", None, None, None, Pending, None, None, None, None)

  function Rebuilt(d: Detail, e: AgentEvent): Detail {
    var d := d.(requestId := if e.requestId.Some? then e.requestId else d.requestId, state := e.state.GetOr(d.state));
    match e.eventType
    case SpawnedEvent =>
      if e.payload.SpawnPayload? then d.(kind := e.payload.kind, task := Some(e.payload.task),
          sessionId := e.payload.sessionId)
      else d.(task := None, sessionId := None)
    case ProgressEvent =>
      if e.payload.ProgressPayload? then
        d.(progressPhase := Some(e.payload.phase),
           progressFraction := if e.payload.fraction.Some? then e.payload.fraction else d.progressFraction)
      else d
    case CompletedEvent =>
      d.(lastResult := if e.payload.ResultPayload? then Some(e.payload.summary) else None,
          progressFraction := Some(1.0))
    case FailedEvent => d.(error := if e.payload.ErrorPayload? then Some(e.payload.error) else None)
    case _ => d
  }

  function Reconstructed(events: seq<AgentEvent>): Detail {
    if events == [] then BLANK else Rebuilt(Reconstructed(events[..|events| - 1]), events[|events| - 1])
  }

  /** `_reconstruct_detail`: one pass over the rows, oldest first. */
  method ReconstructDetail(events: seq<AgentEvent>) returns (d: Detail)
    ensures d == Reconstructed(events)
  {
    var task: Option<string> := None;
    var kind := "unknown";
    var sessionId: Option<Id> := None;
    var requestId: Option<Id> := None;
    var state := Pending;
    var progressPhase: Option<string> := None;
    var progressFraction: Option<real> := None;
    var lastResult: Option<string> := None;
    var error: Option<string> := None;
    for i := 0 to |events|
      invariant Detail(kind, task, sessionId, requestId, state, progressPhase, progressFraction, lastResult, error)
              == Reconstructed(events[..i])
    {
      var event := events[i];
      assert events[..i + 1][..i] == events[..i];
      if event.requestId.Some? {
        requestId := event.requestId;
      }
      if event.state.Some? {
        state := event.state.value;
      }
      match event.eventType {
        case SpawnedEvent =>
          if event.payload.SpawnPayload? {
            kind, task, sessionId := event.payload.kind, Some(event.payload.task), event.payload.sessionId;
          } else {
            task, sessionId := None, None;
          }
        case ProgressEvent =>
          if event.payload.ProgressPayload? {
            progressPhase := Some(event.payload.phase);
            if event.payload.fraction.Some? {
              progressFraction := event.payload.fraction;
            }
          }
        case CompletedEvent =>
          lastResult := if event.payload.ResultPayload? then Some(event.payload.summary) else None;
          progressFraction := Some(1.0);
        case FailedEvent =>
          error := if event.payload.ErrorPayload? then Some(event.payload.error) else None;
        case _ =>
      }
    }
    assert events[..|events|] == events;
    d := Detail(kind, task, sessionId, requestId, state, progressPhase, progressFraction, lastResult, error);
  }

  // ----- each rebuilt field comes from one row -----

  datatype Field =
    | KindField | TaskField | SessionField | RequestField | StateField | PhaseField | FractionField | ResultField
    | ErrorField

  /** The row has something to say about the field. */
  predicate Speaks(e: AgentEvent, field: Field) {
    match field
    case KindField => e.eventType == SpawnedEvent && e.payload.SpawnPayload?
    case TaskField => e.eventType == SpawnedEvent
    case SessionField => e.eventType == SpawnedEvent
    case RequestField => e.requestId != None
    case StateField => e.state != None
    case PhaseField => e.eventType == ProgressEvent && e.payload.ProgressPayload?
    case FractionField =>
      e.eventType == CompletedEvent
      || (e.eventType == ProgressEvent && e.payload.ProgressPayload? && e.payload.fraction != None)
    case ResultField => e.eventType == CompletedEvent
    case ErrorField => e.eventType == FailedEvent
  }

  /** The field reads in `d` as the row says. */
  predicate Reads(d: Detail, field: Field, e: AgentEvent)
    requires Speaks(e, field)
  {
    var p := e.payload;
    match field
    case KindField => d.kind == p.kind
    case TaskField => d.task == if p.SpawnPayload? then Some(p.task) else None
    case SessionField => d.sessionId == if p.SpawnPayload? then p.sessionId else None
    case RequestField => d.requestId == e.requestId
    case StateField => Some(d.state) == e.state
    case PhaseField => d.progressPhase == Some(p.phase)
    case FractionField => d.progressFraction == if e.eventType == CompletedEvent then Some(1.0) else p.fraction
    case ResultField => d.lastResult == if p.ResultPayload? then Some(p.summary) else None
    case ErrorField => d.error == if p.ErrorPayload? then Some(p.error) else None
  }

  predicate ReadsBlank(d: Detail, field: Field) {
    match field
    case KindField => d.kind == "unknown"
    case TaskField => d.task == None
    case SessionField => d.sessionId == None
    case RequestField => d.requestId == None
    case StateField => d.state == Pending
    case PhaseField => d.progressPhase == None
    case FractionField => d.progressFraction == None
    case ResultField => d.lastResult == None
    case ErrorField => d.error == None
  }

  lemma RowDecides(d: Detail, e: AgentEvent, field: Field)
    ensures if Speaks(e, field) then Reads(Rebuilt(d, e), field, e)
            else ReadsBlank(d, field) ==> ReadsBlank(Rebuilt(d, e), field)
  {
  }

  lemma SilentRow(d: Detail, e: AgentEvent, field: Field, spoken: AgentEvent)
    requires !Speaks(e, field) && Speaks(spoken, field) && Reads(d, field, spoken)
    ensures Reads(Rebuilt(d, e), field, spoken)
  {
  }

  /** Over every list of rows, legal trail or not: each rebuilt field reads as the last row that speaks
      about it says, and keeps its default when none does. */
  lemma {:induction false} LastRowDecides(events: seq<AgentEvent>, field: Field)
    ensures (forall j | 0 <= j < |events| :: !Speaks(events[j], field)) ==> ReadsBlank(Reconstructed(events), field)
    ensures forall k | 0 <= k < |events| && Speaks(events[k], field)
                       && forall j | k < j < |events| :: !Speaks(events[j], field) ::
              Reads(Reconstructed(events), field, events[k])
  {
    if events != [] {
      var front, last := events[..|events| - 1], events[|events| - 1];
      LastRowDecides(front, field);
      RowDecides(Reconstructed(front), last, field);
      forall k | 0 <= k < |front| && Speaks(events[k], field)
                 && forall j | k < j < |events| :: !Speaks(events[j], field)
        ensures Reads(Reconstructed(events), field, events[k])
      {
        assert front[k] == events[k] && forall j | k < j < |front| :: front[j] == events[j];
        SilentRow(Reconstructed(front), last, field, events[k]);
      }
    }
  }

  // ----- the lifecycle language -----

  datatype Stage = Unborn | Born | Active | Settled(outcome: EventType) | Illegal

  /** spawned (cancelled | started (progress | custom)* (completed | failed | cancelled)?)? */
  function Advance(stage: Stage, e: EventType): Stage {
    match (stage, e)
    case (Unborn, SpawnedEvent) => Born
    case (Born, StartedEvent) => Active
    case (Born, CancelledEvent) => Settled(e)
    case (Active, ProgressEvent) => Active
    case (Active, CustomEvent(_)) => Active
    case (Active, CompletedEvent) => Settled(e)
    case (Active, FailedEvent) => Settled(e)
    case (Active, CancelledEvent) => Settled(e)
    case _ => Illegal
  }

  function StageOf(events: seq<AgentEvent>): Stage {
    if events == [] then Unborn else Advance(StageOf(events[..|events| - 1]), events[|events| - 1].eventType)
  }

  function StageFor(state: AgentState): Stage {
    match state
    case Pending => Born
    case Running => Active
    case Completed => Settled(CompletedEvent)
    case Failed => Settled(FailedEvent)
    case Cancelled => Settled(CancelledEvent)
  }

  predicate IsTerminalEvent(e: EventType) {
    e == CompletedEvent || e == FailedEvent || e == CancelledEvent
  }

  function TerminalEvents(events: seq<AgentEvent>): nat {
    if events == [] then 0
    else TerminalEvents(events[..|events| - 1]) + if IsTerminalEvent(events[|events| - 1].eventType) then 1 else 0
  }

  /** In a legal trail there is at most one terminal event, it comes last, and it is there exactly
      when the trail is settled. */
  lemma {:induction false} AtMostOneTerminal(events: seq<AgentEvent>)
    requires StageOf(events) != Illegal
    ensures TerminalEvents(events) == if StageOf(events).Settled? then 1 else 0
    ensures StageOf(events).Settled? ==> events != [] && IsTerminalEvent(events[|events| - 1].eventType)
  {
    if events != [] {
      AtMostOneTerminal(events[..|events| - 1]);
    }
  }

  // ----- agreement with the registry -----

  /** The fraction the agent reported last, unless it completed. */
  function LastReported(events: seq<AgentEvent>): Option<real> {
    if events == [] then None
    else
      var e := events[|events| - 1];
      if e.eventType.ProgressEvent? && e.payload.ProgressPayload? && e.payload.fraction.Some? then e.payload.fraction
      else LastReported(events[..|events| - 1])
  }

  predicate CancelledByWallClock(events: seq<AgentEvent>) {
    events != [] && events[|events| - 1].eventType == CancelledEvent
        && events[|events| - 1].payload == ReasonPayload(WALL_CLOCK)
  }

  function ClampOption(x: Option<real>): Option<real> {
    match x case None => None case Some(v) => Some(Clamp(v))
  }

  /** What relates a trail to the last live snapshot of its agent. */
  predicate Mirrors(events: seq<AgentEvent>, a: Agent) {
    var d := Reconstructed(events);
    && StageOf(events) == StageFor(a.state)
    && d.kind == a.kind && d.sessionId == a.sessionId && d.requestId == a.requestId && d.state == a.state
    && d.progressPhase == a.progressPhase && d.lastResult == a.lastResult
    && a.progressFraction == ClampOption(d.progressFraction)
    && d.progressFraction == (if a.state == Completed then Some(1.0) else LastReported(events))
    && (!a.state.Terminal() ==> a.error == None && a.lastResult == None)
    && (if CancelledByWallClock(events) then d.error == None && a.error.Some? else d.error == a.error)
  }

  lemma MirrorsSnoc(events: seq<AgentEvent>, e: AgentEvent)
    ensures StageOf(events + [e]) == Advance(StageOf(events), e.eventType)
    ensures Reconstructed(events + [e]) == Rebuilt(Reconstructed(events), e)
    ensures LastReported(events + [e]) ==
            if e.eventType.ProgressEvent? && e.payload.ProgressPayload?
                && e.payload.fraction.Some? then e.payload.fraction else LastReported(events)
    ensures CancelledByWallClock(events + [e]) <==>
            e.eventType == CancelledEvent && e.payload == ReasonPayload(WALL_CLOCK)
  {
    assert (events + [e])[..|events + [e]| - 1] == events;
  }

  predicate InUnit(x: Option<real>) {
    x.Some? ==> 0.0 <= x.value <= 1.0
  }

  /** Reconstruction agrees with the last live snapshot on six fields always, on the error exactly
      when the agent was not cancelled by the wall clock, and on the fraction exactly when it
      completed or last reported one within the unit interval. */
  lemma ReconstructionExact(events: seq<AgentEvent>, a: Agent)
    requires Mirrors(events, a)
    ensures var d := Reconstructed(events);
            && d.kind == a.kind && d.sessionId == a.sessionId && d.requestId == a.requestId && d.state == a.state
            && d.progressPhase == a.progressPhase && d.lastResult == a.lastResult
            && (d.error == a.error <==> !CancelledByWallClock(events))
            && (d.progressFraction == a.progressFraction <==> a.state == Completed || InUnit(LastReported(events)))
  {
  }
}
