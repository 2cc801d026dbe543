/** What the store last published about each request's run, over every interleaving of requests: the
    summary of its output or its error, as the steps of the run alone say, and the node it is in. */
module RunReports {
  import opened Basics
  import opened Store
  import opened StoreInvariants
  import opened StoreReports
  import opened Replica
  import opened Pipeline
  import opened RunHistory
  import A = AgentRunner

  // ----- the last report -----

  /** The last snapshot published of run `id`. */
  function LastReport(events: seq<StoreEvent>, id: Id): Option<RunSnapshot> {
    if events == [] then None
    else
      var e := events[|events| - 1];
      if e.RunUpdated? && e.run.requestId == id then Some(e.run) else LastReport(events[..|events| - 1], id)
  }

  lemma {:induction false} LastReportQuiet(events: seq<StoreEvent>, more: seq<StoreEvent>, id: Id)
    requires forall k | 0 <= k < |more| :: !(more[k].RunUpdated? && more[k].run.requestId == id)
    ensures LastReport(events + more, id) == LastReport(events, id)
    decreases |more|
  {
    if more == [] {
      assert events + more == events;
    } else {
      var front := more[..|more| - 1];
      assert (events + more)[..|events + more| - 1] == events + front;
      LastReportQuiet(events, front, id);
    }
  }

  lemma LastReportFirst(events: seq<StoreEvent>, more: seq<StoreEvent>, id: Id)
    requires more != [] && more[0].RunUpdated? && more[0].run.requestId == id
    requires forall k | 1 <= k < |more| :: !(more[k].RunUpdated? && more[k].run.requestId == id)
    ensures LastReport(events + more, id) == Some(more[0].run)
  {
    assert events + more == (events + [more[0]]) + more[1..];
    LastReportQuiet(events + [more[0]], more[1..], id);
    assert (events + [more[0]])[..|events|] == events;
  }

  /** What a client folds of a run is the last report. */
  lemma {:induction false} FoldedIsLastReport(events: seq<StoreEvent>, id: Id)
    requires id in FoldAll(EMPTY_VIEW, events).runs
    ensures LastReport(events, id) == Some(FoldAll(EMPTY_VIEW, events).runs[id])
    decreases |events|
  {
    if events != [] {
      var front, last := events[..|events| - 1], events[|events| - 1];
      assert events == front + [last];
      FoldAllAppend(EMPTY_VIEW, front, [last]);
      FoldOne(FoldAll(EMPTY_VIEW, front), last);
      if id in FoldAll(EMPTY_VIEW, front).runs { FoldedIsLastReport(front, id); }
    }
  }

  // ----- worlds whose reports are what the store holds -----

  ghost predicate Reported(w: World) {
    StoreOk(w.store) && RunsHavePhases(w.store) && ViewOf(w.store) == FoldAll(EMPTY_VIEW, w.events)
  }

  lemma RecordIsReported(w: World, id: Id)
    requires Reported(w) && id in w.store.runs
    ensures LastReport(w.events, id).Some? && Shows(LastReport(w.events, id).value, w.store.runs[id])
  {
    FoldedIsLastReport(w.events, id);
    assert ViewOf(w.store).runs[id] == w.store.runs[id].Snapshot();
  }

  lemma MutatedReported(w: World, m: Mutation, clock: Clock)
    requires Reported(w)
    ensures Reported(Mutated(w, m, clock))
  {
    ApplyKeepsStoreOk(w.store, m, clock);
    FoldMutation(w.store, m, clock);
    FoldAllAppend(EMPTY_VIEW, w.events, Apply(w.store, m, clock).1);
  }

  lemma LoggedReported(w: World, record: AuditRecord)
    requires Reported(w)
    ensures Reported(Logged(w, record))
  {
  }

  // ----- one mutation -----

  lemma MutationOnlyReports(w: World, m: Mutation, clock: Clock, id: Id)
    requires Reported(w)
    requires if m.StartRun? || m.UpdateRunPhase? || m.CompleteRun? || m.FailRun? then m.requestId != id else true
    ensures LastReport(Mutated(w, m, clock).events, id) == LastReport(w.events, id)
  {
    MutationReports(w.store, m, clock);
    var events := Apply(w.store, m, clock).1;
    if TakesEffect(w.store, m) {
      forall k | 0 <= k < |events| ensures !(events[k].RunUpdated? && events[k].run.requestId == id) {
        OthersQuiet(events, w.store, m, clock, id, k);
      }
    }
    LastReportQuiet(w.events, events, id);
  }

  lemma OthersQuiet(events: seq<StoreEvent>, s: StoreState, m: Mutation, clock: Clock, id: Id, k: nat)
    requires StoreOk(s) && TakesEffect(s, m) && Reports(events, s, m, clock) && k < |events|
    requires (m.StartRun? || m.UpdateRunPhase? || m.CompleteRun? || m.FailRun?) && k == 0 ==> m.requestId != id
    ensures !(events[k].RunUpdated? && events[k].run.requestId == id)
  {
    if k > 0 { assert events[k] == events[1..][k - 1]; }
  }

  /** A phase update of a run in flight reports the new phase and node and repeats the rest. */
  lemma PhaseReported(w: World, id: Id, phase: RunPhase, node: Option<string>, clock: Clock)
    requires Reported(w) && InFlight(w.store, id) && phase !in {RunCompleted, RunFailed}
    ensures LastReport(w.events, id).Some?
    ensures var last := LastReport(Mutated(w, UpdateRunPhase(id, phase, node), clock).events, id);
            && last.Some? && last.value.phase == phase && last.value.currentNode == node
            && last.value.resultSummary == LastReport(w.events, id).value.resultSummary
            && last.value.error == LastReport(w.events, id).value.error
  {
    RecordIsReported(w, id);
    MutationReports(w.store, UpdateRunPhase(id, phase, node), clock);
    LastReportFirst(w.events, Apply(w.store, UpdateRunPhase(id, phase, node), clock).1, id);
  }

  predicate Finishes(m: Mutation, id: Id) {
    (m.CompleteRun? || m.FailRun?) && m.requestId == id
  }

  /** A finish of a run in flight reports the summary or the error, and not the other. */
  lemma FinishReported(w: World, id: Id, m: Mutation, clock: Clock)
    requires Reported(w) && InFlight(w.store, id) && Finishes(m, id)
    ensures var last := LastReport(Mutated(w, m, clock).events, id);
            && last.Some? && last.value.currentNode == None
            && last.value.phase == (if m.CompleteRun? then RunCompleted else RunFailed)
            && last.value.resultSummary == (if m.CompleteRun? then m.resultSummary else None)
            && last.value.error == (if m.CompleteRun? then None else Some(m.error))
  {
    MutationReports(w.store, m, clock);
    var events := Apply(w.store, m, clock).1;
    forall k | 1 <= k < |events| ensures !events[k].RunUpdated? {
      assert events[k] == events[1..][k - 1];
    }
    LastReportFirst(w.events, events, id);
  }

  lemma StartReported(w: World, p: Prompt, clock: Clock)
    requires Reported(w) && p.requestId !in w.store.runs
    ensures LastReport(Mutated(w, StartRun(p.requestId, p.sessionId, p.userId), clock).events, p.requestId) ==
            Some(RunSnapshot(p.requestId, p.sessionId, Received, None, clock.now, clock.now, None, None,
                             [PhaseTransition(Received, None, clock.now, None)]))
  {
    MutationReports(w.store, StartRun(p.requestId, p.sessionId, p.userId), clock);
    LastReportFirst(w.events, Apply(w.store, StartRun(p.requestId, p.sessionId, p.userId), clock).1, p.requestId);
  }

  lemma StartedIsInFlight(w: World, p: Prompt, clock: Clock)
    requires Reported(w) && p.requestId !in w.store.runs
    ensures var v := Mutated(w, StartRun(p.requestId, p.sessionId, p.userId), clock);
            Reported(v) && InFlight(v.store, p.requestId)
  {
    MutatedReported(w, StartRun(p.requestId, p.sessionId, p.userId), clock);
  }

  // ----- what the steps say of a request -----

  datatype Word = Nothing | Answer(output: string) | Failure(error: string)

  /** What became of request `id`. */
  function Heard(steps: seq<Step>, id: Id): Word {
    if steps == [] then Nothing else HeardIn(steps[|steps| - 1], id, Heard(steps[..|steps| - 1], id))
  }

  function HeardIn(step: Step, id: Id, before: Word): Word {
    match step
    case Begin(p, Refused(error), _) => if p.requestId == id then Failure(error) else before
    case Deliver(x, output, _) => if x == id then Answer(output) else before
    case Fail(x, error, _) => if x == id then Failure(error) else before
    case TimeOut(x, error, _) => if x == id then Failure(error) else before
    case _ => before
  }

  /** At most 200 characters: the output itself, or its first 199 and an ellipsis. */
  ghost predicate CutTo(output: string, summary: string) {
    if |output| <= 200 then summary == output
    else |summary| == 200 && summary[..199] == output[..199] && summary[199] == '\U{2026}'
  }

  /** The report carries the word on the request, and names the node its phase belongs to. */
  ghost predicate Carries(run: RunSnapshot, word: Word) {
    && run.currentNode == (match run.phase
                           case Engineering => Some("prompt_engineering")
                           case Reviewing => Some("llm_review")
                           case Spawning => Some("agent_spawn")
                           case Responding => Some("respond")
                           case _ => None)
    && match word
       case Nothing => run.resultSummary == None && run.error == None
       case Answer(output) =>
         run.resultSummary.Some? && CutTo(output, run.resultSummary.value) && run.error == None
       case Failure(error) => run.resultSummary == None && run.error == Some(error)
  }

  ghost predicate RequestReported(s: System, id: Id, word: Word) {
    && LastReport(s.world.events, id).Some? && Carries(LastReport(s.world.events, id).value, word)
    && id in s.requests && (word == Nothing <==> s.requests[id].stage.Awaiting?)
  }

  ghost predicate AllReported(s: System, steps: seq<Step>) {
    && Reported(s.world)
    && (forall id | id in s.requests :: RequestReported(s, id, Heard(steps, id)))
    && (forall id | id !in s.requests :: Heard(steps, id) == Nothing)
  }

  // ----- each step -----

  /** A step about request `id` leaves the reports of the others alone. */
  lemma OthersReported(s: System, t: System, front: seq<Step>, step: Step, id: Id)
    requires AllReported(s, front) && Reported(t.world) && t.requests.Keys == s.requests.Keys + {id}
    requires forall x | x in s.requests && x != id :: LastReport(t.world.events, x) == LastReport(s.world.events, x)
    requires forall x | x in s.requests && x != id :: t.requests[x].stage == s.requests[x].stage
    requires forall x | x != id :: HeardIn(step, x, Heard(front, x)) == Heard(front, x)
    requires RequestReported(t, id, HeardIn(step, id, Heard(front, id)))
    ensures AllReported(t, front + [step])
  {
    assert (front + [step])[..|front|] == front;
    forall x | x in t.requests ensures RequestReported(t, x, Heard(front + [step], x)) {
      if x != id { assert RequestReported(s, x, Heard(front, x)); }
    }
  }

  /** And a step about no run leaves them all alone. */
  lemma NoneReported(s: System, t: System, front: seq<Step>, step: Step)
    requires AllReported(s, front) && Reported(t.world) && t.requests.Keys == s.requests.Keys
    requires forall x | x in s.requests :: LastReport(t.world.events, x) == LastReport(s.world.events, x)
    requires forall x | x in s.requests :: t.requests[x].stage == s.requests[x].stage
    requires forall x :: HeardIn(step, x, Heard(front, x)) == Heard(front, x)
    ensures AllReported(t, front + [step])
  {
    assert (front + [step])[..|front|] == front;
    forall x | x in t.requests ensures RequestReported(t, x, Heard(front + [step], x)) {
      assert RequestReported(s, x, Heard(front, x));
    }
  }

  lemma OpenedReported(w: World, p: Prompt, clocks: (Clock, Clock, Clock))
    requires Reported(w) && p.requestId !in w.store.runs
    ensures var v := Opened(w, p, clocks);
            && Reported(v) && InFlight(v.store, p.requestId)
            && LastReport(v.events, p.requestId).Some? && Carries(LastReport(v.events, p.requestId).value, Nothing)
            && forall id | id != p.requestId :: LastReport(v.events, id) == LastReport(w.events, id)
  {
    StartReported(w, p, clocks.0);
    StartedIsInFlight(w, p, clocks.0);
    var started := Registered(w, p, clocks.0);
    var governance := UpdateRunPhase(p.requestId, Governance, None);
    LoggedReported(Mutated(w, StartRun(p.requestId, p.sessionId, p.userId), clocks.0), SessionSeen(p.sessionId));
    PhaseReported(started, p.requestId, Governance, None, clocks.1);
    MutatedReported(started, governance, clocks.1);
    var v := Mutated(started, governance, clocks.1);
    forall id | id != p.requestId ensures LastReport(v.events, id) == LastReport(w.events, id) {
      MutationOnlyReports(w, StartRun(p.requestId, p.sessionId, p.userId), clocks.0, id);
      MutationOnlyReports(started, governance, clocks.1, id);
    }
    StaysInFlight(started, p.requestId, Governance, None, clocks.1);
  }

  lemma StaysInFlight(w: World, id: Id, phase: RunPhase, node: Option<string>, clock: Clock)
    requires Reported(w) && InFlight(w.store, id) && phase !in {RunCompleted, RunFailed}
    ensures InFlight(Mutated(w, UpdateRunPhase(id, phase, node), clock).store, id)
  {
  }

  lemma BegunReported(w: World, p: Prompt, review: Review, clocks: (Clock, Clock, Clock))
    requires Reported(w) && p.requestId !in w.store.runs
    ensures var v := Begun(w, p, review, clocks);
            && Reported(v) && LastReport(v.events, p.requestId).Some?
            && Carries(LastReport(v.events, p.requestId).value,
                       if review.Refused? then Failure(review.error) else Nothing)
            && forall id | id != p.requestId :: LastReport(v.events, id) == LastReport(w.events, id)
  {
    OpenedReported(w, p, clocks);
    var governed := Opened(w, p, clocks);
    if review.Refused? {
      var m := FailRun(p.requestId, review.error);
      FinishReported(governed, p.requestId, m, clocks.2);
      MutatedReported(governed, m, clocks.2);
      forall id | id != p.requestId
        ensures LastReport(Mutated(governed, m, clocks.2).events, id) == LastReport(w.events, id)
      {
        MutationOnlyReports(governed, m, clocks.2, id);
      }
    }
  }

  function Opening(review: Review): Word {
    if review.Refused? then Failure(review.error) else Nothing
  }

  lemma BeginIsHeard(step: Step, id: Id, before: Word)
    requires step.Begin? && (step.prompt.requestId == id ==> before == Nothing)
    ensures HeardIn(step, id, before) == if step.prompt.requestId == id then Opening(step.review) else before
  {
  }

  lemma BeginIsReported(s: System, t: System, front: seq<Step>, step: Step, id: Id)
    requires AllReported(s, front) && step.Begin? && step.prompt.requestId == id && id !in s.requests
    requires Reported(t.world) && LastReport(t.world.events, id).Some?
    requires Carries(LastReport(t.world.events, id).value, Opening(step.review))
    requires forall x | x != id :: LastReport(t.world.events, x) == LastReport(s.world.events, x)
    requires t.requests == s.requests[id := Request(step.prompt.sessionId,
                             if step.review.Refused? then Declined else Awaiting, InProgress, [], [])]
    ensures AllReported(t, front + [step])
  {
    forall x
      ensures HeardIn(step, x, Heard(front, x)) == if x == id then Opening(step.review) else Heard(front, x)
    {
      BeginIsHeard(step, x, Heard(front, x));
    }
    assert RequestReported(t, id, Opening(step.review));
    OthersReported(s, t, front, step, id);
  }

  lemma LiveIsInFlight(s: System, id: Id, agents: bool)
    requires Inv(s, agents) && id in s.requests
    ensures InFlight(s.world.store, id) <==> s.requests[id].stage.Awaiting?
  {
    var r := s.requests[id];
    assert RunOk(s.world, id, r);
    NotOver(r, agents);
    if id in s.world.store.runs { PhasesTerminal(s.world.store.runs[id]); }
  }

  function Settling(step: Step): Mutation
    requires step.Deliver? || step.Fail? || step.TimeOut?
  {
    if step.Deliver? then CompleteRun(step.id, Some(Summarized(step.output))) else FailRun(step.id, step.error)
  }

  function Exit(step: Step): Stage
    requires step.Deliver? || step.Fail? || step.TimeOut?
  {
    match step case Deliver(_, _, _) => Delivered case Fail(_, _, _) => Broken case _ => TimedOut
  }

  lemma SettlingIs(s: System, step: Step, agents: bool)
    requires (step.Deliver? || step.Fail? || step.TimeOut?) && Enabled(s, step, agents)
    ensures Next(s, step, agents).world
            == Logged(Mutated(s.world, Settling(step), step.clock), PromptResponse(step.id, !step.Deliver?))
    ensures Next(s, step, agents).requests == s.requests[step.id := s.requests[step.id].(stage := Exit(step))]
  {
  }

  lemma SettlingTells(w: World, step: Step)
    requires Reported(w) && (step.Deliver? || step.Fail? || step.TimeOut?) && InFlight(w.store, step.id)
    ensures var v := Logged(Mutated(w, Settling(step), step.clock), PromptResponse(step.id, !step.Deliver?));
            && Reported(v) && LastReport(v.events, step.id).Some?
            && Carries(LastReport(v.events, step.id).value,
                       if step.Deliver? then Answer(step.output) else Failure(step.error))
            && forall x | x != step.id :: LastReport(v.events, x) == LastReport(w.events, x)
  {
    var m := Settling(step);
    FinishReported(w, step.id, m, step.clock);
    MutatedReported(w, m, step.clock);
    if step.Deliver? { SummaryIsCut(step.output); }
    forall x | x != step.id ensures LastReport(Mutated(w, m, step.clock).events, x) == LastReport(w.events, x) {
      MutationOnlyReports(w, m, step.clock, x);
    }
  }

  /** A settling step: `Deliver`, `Fail` or `TimeOut`. */
  lemma SettleIsReported(s: System, t: System, front: seq<Step>, step: Step)
    requires AllReported(s, front) && (step.Deliver? || step.Fail? || step.TimeOut?) && step.id in s.requests
    requires InFlight(s.world.store, step.id)
    requires t.world == Logged(Mutated(s.world, Settling(step), step.clock), PromptResponse(step.id, !step.Deliver?))
    requires t.requests == s.requests[step.id := s.requests[step.id].(stage := Exit(step))]
    ensures AllReported(t, front + [step])
  {
    SettlingTells(s.world, step);
    OthersReported(s, t, front, step, step.id);
  }

  lemma SummaryIsCut(output: string)
    ensures CutTo(output, Summarized(output))
  {
  }

  lemma NodeReported(w: World, id: Id, phase: RunPhase, spec: A.AgentSpec, clocks: (Clock, Clock), word: Word)
    requires Reported(w) && LastReport(w.events, id).Some? && Carries(LastReport(w.events, id).value, word)
    requires phase in {Engineering, Reviewing, Spawning, Responding}
    ensures var v := NodeRun(w, id, phase, spec, clocks);
            && Reported(v) && LastReport(v.events, id).Some? && Carries(LastReport(v.events, id).value, word)
            && forall x | x != id :: LastReport(v.events, x) == LastReport(w.events, x)
  {
    var m := UpdateRunPhase(id, phase, Some(NodeName(phase)));
    var entered := NodeEntered(w, id, phase, clocks.0);
    MutatedReported(w, m, clocks.0);
    if InFlight(w.store, id) {
      PhaseReported(w, id, phase, Some(NodeName(phase)), clocks.0);
    } else {
      MutationReports(w.store, m, clocks.0);
      assert w.events + [] == w.events;
    }
    forall x | x != id ensures LastReport(entered.events, x) == LastReport(w.events, x) {
      MutationOnlyReports(w, m, clocks.0, x);
    }
    SpawnReported(entered, spec, clocks.1);
  }

  lemma SpawnReported(w: World, spec: A.AgentSpec, clock: Clock)
    requires Reported(w)
    ensures Reported(Spawned(w, spec, clock))
    ensures forall x :: LastReport(Spawned(w, spec, clock).events, x) == LastReport(w.events, x)
  {
    MutatedReported(w, Registration(spec), clock);
    forall x ensures LastReport(Mutated(w, Registration(spec), clock).events, x) == LastReport(w.events, x) {
      MutationOnlyReports(w, Registration(spec), clock, x);
    }
  }

  lemma EnterIsReported(s: System, front: seq<Step>, step: Step, agents: bool)
    requires AllReported(s, front) && step.EnterNode? && Enabled(s, step, agents)
    ensures AllReported(Next(s, step, agents), front + [step])
  {
    assert RequestReported(s, step.id, Heard(front, step.id));
    NodeReported(s.world, step.id, NextNode(s.requests[step.id].path, agents, step.needsWork).value, Asked(s, step),
                 step.times, Heard(front, step.id));
    OthersReported(s, Next(s, step, agents), front, step, step.id);
  }

  /** The runner's steps and session traffic. */
  lemma TrafficIsReported(s: System, front: seq<Step>, step: Step, m: Mutation, agents: bool)
    requires AllReported(s, front) && Enabled(s, step, agents) && (step.AgentMoves? || step.Touch?)
    requires m == if step.AgentMoves? then UpdateAgent(step.agentId, step.update)
                  else TouchSession(step.sessionId, step.userId)
    ensures AllReported(Next(s, step, agents), front + [step])
  {
    var t := Next(s, step, agents);
    MutatedReported(s.world, m, step.clock);
    assert t.world.events == Mutated(s.world, m, step.clock).events && Reported(t.world);
    forall x ensures LastReport(t.world.events, x) == LastReport(s.world.events, x) {
      MutationOnlyReports(s.world, m, step.clock, x);
    }
    NoneReported(s, t, front, step);
  }

  lemma QuietIsReported(s: System, front: seq<Step>, step: Step, agents: bool)
    requires AllReported(s, front) && Enabled(s, step, agents)
    requires step.CloseRunner? || step.GraphEnd? || step.GraphCrash?
    ensures AllReported(Next(s, step, agents), front + [step])
  {
    NoneReported(s, Next(s, step, agents), front, step);
  }

  lemma StepIsReported(s: System, front: seq<Step>, step: Step, agents: bool)
    requires Inv(s, agents) && AllReported(s, front) && Enabled(s, step, agents)
    ensures AllReported(Next(s, step, agents), front + [step])
  {
    match step
    case Begin(p, _, _) =>
      FreshRun(s, p.requestId, agents);
      BegunReported(s.world, p, step.review, step.clocks);
      BeginIsReported(s, Next(s, step, agents), front, step, p.requestId);
    case EnterNode(_, _, _, _, _) => EnterIsReported(s, front, step, agents);
    case AgentMoves(id, update, _, _) => TrafficIsReported(s, front, step, UpdateAgent(id, update), agents);
    case Touch(id, user, _) => TrafficIsReported(s, front, step, TouchSession(id, user), agents);
    case CloseRunner => QuietIsReported(s, front, step, agents);
    case GraphEnd(_) => QuietIsReported(s, front, step, agents);
    case GraphCrash(_) => QuietIsReported(s, front, step, agents);
    case _ =>
      LiveIsInFlight(s, step.id, agents);
      SettlingIs(s, step, agents);
      SettleIsReported(s, Next(s, step, agents), front, step);
  }

  // ----- every run -----

  ghost predicate Kept(s: System, steps: seq<Step>, agents: bool) {
    Inv(s, agents) && AllReported(s, steps)
  }

  lemma InitialKept(maxRuns: int, maxAgents: int, kinds: set<string>, agents: bool)
    ensures Kept(Initial(maxRuns, maxAgents, kinds), [], agents)
  {
    EmptyStoreOk(maxRuns, maxAgents);
    assert ViewOf(EmptyStore(maxRuns, maxAgents)) == EMPTY_VIEW;
  }

  lemma StepKept(s: System, front: seq<Step>, step: Step, agents: bool, t: System)
    requires Kept(s, front, agents) && Enabled(s, step, agents) && t == Next(s, step, agents)
    ensures Kept(t, front + [step], agents)
  {
    StepKeepsInv(s, step, agents);
    StepIsReported(s, front, step, agents);
  }

  lemma {:induction false} RunKept(s: System, before: seq<Step>, steps: seq<Step>, agents: bool)
    requires Kept(s, before, agents) && Runs(s, steps, agents)
    ensures Kept(After(s, steps, agents), before + steps, agents)
    decreases |steps|
  {
    if steps == [] {
      assert before + steps == before;
    } else {
      var t := Next(s, steps[0], agents);
      StepKept(s, before, steps[0], agents, t);
      RunKept(t, before + [steps[0]], steps[1..], agents);
      assert before + [steps[0]] + steps[1..] == before + steps;
    }
  }

  /** Over every run, what the store last published of a request's run: a delivered one carries the summary
      of its output and no error, a refused, failed or timed-out one its error and no summary, one still
      awaited neither; and the node is the one its phase belongs to. */
  lemma ReportsFollowSteps(maxRuns: int, maxAgents: int, kinds: set<string>, steps: seq<Step>, agents: bool, id: Id)
    requires Runs(Initial(maxRuns, maxAgents, kinds), steps, agents)
    requires id in After(Initial(maxRuns, maxAgents, kinds), steps, agents).requests
    ensures var s := After(Initial(maxRuns, maxAgents, kinds), steps, agents);
            && LastReport(s.world.events, id).Some?
            && Carries(LastReport(s.world.events, id).value, Heard(steps, id))
            && (Heard(steps, id) == Nothing <==> s.requests[id].stage.Awaiting?)
            && (id in s.world.store.runs ==> Shows(LastReport(s.world.events, id).value, s.world.store.runs[id]))
  {
    InitialKept(maxRuns, maxAgents, kinds, agents);
    RunKept(Initial(maxRuns, maxAgents, kinds), [], steps, agents);
    assert [] + steps == steps;
    var s := After(Initial(maxRuns, maxAgents, kinds), steps, agents);
    assert RequestReported(s, id, Heard(steps, id));
    if id in s.world.store.runs { RecordIsReported(s.world, id); }
  }

  /** A request that begins publishes its fresh run, then its session: last active now, with the user it
      names, or else the one known before. */
  lemma BeginAnnounces(w: World, p: Prompt, review: Review, clocks: (Clock, Clock, Clock))
    requires StoreOk(w.store) && RunsHavePhases(w.store) && p.requestId !in w.store.runs
    ensures var events, n := Begun(w, p, review, clocks).events, |w.events|;
            && |events| >= n + 2 && events[..n] == w.events
            && events[n].RunUpdated? && events[n].run.requestId == p.requestId
            && ReportsSession(events[n + 1], w.store, p.sessionId, p.userId, [p.requestId], clocks.0.now)
  {
    MutationReports(w.store, StartRun(p.requestId, p.sessionId, p.userId), clocks.0);
    var started := Mutated(w, StartRun(p.requestId, p.sessionId, p.userId), clocks.0).events;
    var governed := Opened(w, p, clocks).events;
    assert started == governed[..|started|];
    assert governed == Begun(w, p, review, clocks).events[..|governed|];
  }
}
