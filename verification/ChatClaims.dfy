/** The chat half of the frontend reducer (`frontend/src/state/AppState.tsx`): prompts shown as pending,
    live runs claimed for prompts whose response is still in flight, and their resolution. */
module ChatClaims {
  import opened Basics
  import opened Store

  datatype Status = InFlight | Answered | Undelivered

  /** `user` tells the two roles apart; texts and error messages are left out. */
  datatype Message = Message(id: Id, user: bool, status: Status, requestId: Option<Id>, livePhase: Option<RunPhase>)

  datatype Chat = Chat(sessionId: Id, messages: seq<Message>)

  datatype Action =
    | PromptSubmitted(id: Id)
    | PromptCompleted(id: Id, requestId: Id, sessionId: Id, replyFailed: bool)
    | PromptFailed(id: Id)
    | RunHeard(requestId: Id, sessionId: Id, phase: RunPhase)

  /** A partial message; `None` leaves a field alone. */
  datatype Patch = Patch(status: Option<Status>, requestId: Option<Id>, livePhase: Option<RunPhase>)

  function Merged(m: Message, patch: Patch): Message {
    m.(status := patch.status.GetOr(m.status),
       requestId := if patch.requestId.Some? then patch.requestId else m.requestId,
       livePhase := if patch.livePhase.Some? then patch.livePhase else m.livePhase)
  }

  /** `updateMessage`: the patch goes to every message with that id. */
  function Patched(messages: seq<Message>, id: Id, patch: Patch): seq<Message> {
    seq(|messages|, i requires 0 <= i < |messages| =>
        if messages[i].id == id then Merged(messages[i], patch) else messages[i])
  }

  predicate Unclaimed(m: Message) {
    m.user && m.status == InFlight && m.requestId == None
  }

  predicate Holds(m: Message, requestId: Id) {
    m.requestId == Some(requestId)
  }

  /** The first message that holds the run, or `|messages|`. */
  function Holder(messages: seq<Message>, requestId: Id): (i: nat)
    ensures i <= |messages| && (i < |messages| ==> Holds(messages[i], requestId))
    ensures forall k | 0 <= k < i :: !Holds(messages[k], requestId)
  {
    if messages == [] || Holds(messages[0], requestId) then 0 else 1 + Holder(messages[1..], requestId)
  }

  /** The oldest unclaimed prompt, or `|messages|`. */
  function Oldest(messages: seq<Message>): (i: nat)
    ensures i <= |messages| && (i < |messages| ==> Unclaimed(messages[i]))
    ensures forall k | 0 <= k < i :: !Unclaimed(messages[k])
  {
    if messages == [] || Unclaimed(messages[0]) then 0 else 1 + Oldest(messages[1..])
  }

  function RunShown(c: Chat, requestId: Id, sessionId: Id, phase: RunPhase): Chat {
    var matched := Holder(c.messages, requestId);
    if matched < |c.messages| then
      var m := c.messages[matched];
      if m.status != InFlight || m.livePhase == Some(phase) then c
      else c.(messages := Patched(c.messages, m.id, Patch(None, None, Some(phase))))
    else if sessionId != c.sessionId || phase.Terminal() then c
    else
      var unclaimed := Oldest(c.messages);
      if unclaimed == |c.messages| then c
      else c.(messages := Patched(c.messages, c.messages[unclaimed].id, Patch(None, Some(requestId), Some(phase))))
  }

  function Reduced(c: Chat, action: Action): Chat {
    match action
    case PromptSubmitted(id) => c.(messages := c.messages + [Message(id, true, InFlight, None, None)])
    case PromptCompleted(id, requestId, sessionId, replyFailed) =>
      Chat(sessionId,
           Patched(c.messages, id, Patch(Some(Answered), Some(requestId), None))
           + [Message(id + ":reply", false, if replyFailed then Undelivered else Answered, Some(requestId), None)])
    case PromptFailed(id) => c.(messages := Patched(c.messages, id, Patch(Some(Undelivered), None, None)))
    case RunHeard(requestId, sessionId, phase) => RunShown(c, requestId, sessionId, phase)
  }

  // ----- the tab and the backend -----

  /** `runOf` is the run the backend gives each prompt, known to the tab only once the response is
      there; `told` is the phase each run last reported to this tab. */
  datatype Tab = Tab(chat: Chat, runOf: map<Id, Id>, told: map<Id, RunPhase>)

  datatype Step =
    | Submit(id: Id, run: Id)
    | Respond(id: Id, replyFailed: bool)
    | Lose(id: Id)                        // the request itself failed; its run may live on
    | Hear(run: Id, sessionId: Id, phase: RunPhase)

  predicate IsPrompt(m: Message, id: Id, status: Status) {
    m.user && m.id == id && m.status == status
  }

  /** Message ids are UUIDs, so they hold no colon; runs of this tab's session belong to its prompts,
      because the session id is this tab's own. */
  ghost predicate Enabled(t: Tab, step: Step) {
    match step
    case Submit(id, run) => ':' !in id && id !in t.runOf && run !in t.runOf.Values
    case Respond(id, _) => exists i :: 0 <= i < |t.chat.messages| && IsPrompt(t.chat.messages[i], id, InFlight)
    case Lose(id) => exists i :: 0 <= i < |t.chat.messages| && IsPrompt(t.chat.messages[i], id, InFlight)
    case Hear(run, sessionId, _) => sessionId == t.chat.sessionId <==> run in t.runOf.Values
  }

  function Next(t: Tab, step: Step): Tab {
    match step
    case Submit(id, run) => t.(chat := Reduced(t.chat, PromptSubmitted(id)), runOf := t.runOf[id := run])
    case Respond(id, replyFailed) =>
      t.(chat := Reduced(t.chat, PromptCompleted(id, RunOf(t, id), t.chat.sessionId, replyFailed)))
    case Lose(id) => t.(chat := Reduced(t.chat, PromptFailed(id)))
    case Hear(run, sessionId, phase) =>
      t.(chat := Reduced(t.chat, RunHeard(run, sessionId, phase)), told := t.told[run := phase])
  }

  function RunOf(t: Tab, id: Id): Id {
    if id in t.runOf then t.runOf[id] else ""
  }

  /** What the chat's own actions do to the messages, whatever ids they have: a new prompt waits at the end;
      an answer marks its prompt, adds the reply and adopts the backend's session; a lost one is marked. */
  lemma ChatActions(c: Chat, id: Id, requestId: Id, sessionId: Id, replyFailed: bool)
    ensures Reduced(c, PromptSubmitted(id))
            == Chat(c.sessionId, c.messages + [Message(id, true, InFlight, None, None)])
    ensures var d := Reduced(c, PromptCompleted(id, requestId, sessionId, replyFailed)); var n := |c.messages|;
            && d.sessionId == sessionId && |d.messages| == n + 1
            && d.messages[n] == Message(id + ":reply", false, if replyFailed then Undelivered else Answered,
                                        Some(requestId), None)
            && forall i | 0 <= i < n :: d.messages[i] ==
                 if c.messages[i].id == id then c.messages[i].(status := Answered, requestId := Some(requestId))
                 else c.messages[i]
    ensures var d := Reduced(c, PromptFailed(id));
            && d.sessionId == c.sessionId && |d.messages| == |c.messages|
            && forall i | 0 <= i < |c.messages| :: d.messages[i] ==
                 if c.messages[i].id == id then c.messages[i].(status := Undelivered) else c.messages[i]
  {
  }

  // ----- what every step keeps -----

  /** A prompt's message; or a reply, whose prompt stands before it with the same run. */
  ghost predicate MessageOk(messages: seq<Message>, runOf: map<Id, Id>, i: nat)
    requires i < |messages|
  {
    var m := messages[i];
    if m.user then m.id in runOf && ':' !in m.id && (m.status == Answered ==> m.requestId == Some(runOf[m.id]))
    else m.status != InFlight
         && exists j | 0 <= j < i :: messages[j].user && messages[j].status == Answered
              && messages[j].id + ":reply" == m.id
                                    && messages[j].requestId == m.requestId
  }

  ghost predicate TabOk(t: Tab) {
    var messages := t.chat.messages;
    && (forall i, j | 0 <= i < j < |messages| :: messages[i].id != messages[j].id)
    && (forall i | 0 <= i < |messages| :: MessageOk(messages, t.runOf, i))
    && (forall p, q | p in t.runOf && q in t.runOf && t.runOf[p] == t.runOf[q] :: p == q)
  }

  /** A prompt holds no run but its own, and while in flight shows the phase that run last reported. */
  ghost predicate ClaimOk(m: Message, runOf: map<Id, Id>, told: map<Id, RunPhase>) {
    m.user && m.requestId.Some? ==>
      && m.id in runOf && m.requestId.value == runOf[m.id]
      && (m.status == InFlight ==> runOf[m.id] in told && m.livePhase == Some(told[runOf[m.id]]))
  }

  ghost predicate ClaimsCorrect(t: Tab) {
    forall i | 0 <= i < |t.chat.messages| :: ClaimOk(t.chat.messages[i], t.runOf, t.told)
  }

  /** The update makes the reducer claim its run for some prompt. */
  ghost predicate Claiming(t: Tab, step: Step) {
    && step.Hear? && step.sessionId == t.chat.sessionId && !step.phase.Terminal()
    && (forall i | 0 <= i < |t.chat.messages| :: !Holds(t.chat.messages[i], step.run))
    && (exists i :: 0 <= i < |t.chat.messages| && Unclaimed(t.chat.messages[i]))
  }

  /** The run's own prompt is in flight, and every prompt submitted before it was resolved or has
      been shown its run. */
  ghost predicate InOrder(t: Tab, run: Id) {
    exists i :: 0 <= i < |t.chat.messages| && Unclaimed(t.chat.messages[i]) && RunOf(t, t.chat.messages[i].id) == run
                && forall j | 0 <= j < i :: !Unclaimed(t.chat.messages[j])
  }

  lemma ReplyIdsDiffer(a: Id, b: Id)
    ensures ':' in a + ":reply"
    ensures a + ":reply" == b + ":reply" ==> a == b
  {
    assert (a + ":reply")[|a|] == ':';
    if a + ":reply" == b + ":reply" {
      assert |a| == |b|;
      assert a == (a + ":reply")[..|a|] == (b + ":reply")[..|b|] == b;
    }
  }

  /** Changing one message, its id and role apart, in a way its reply agrees with. */
  lemma PatchKeepsTabOk(t: Tab, i: nat, m: Message)
    requires TabOk(t) && i < |t.chat.messages| && t.chat.messages[i].user && t.chat.messages[i].status == InFlight
    requires m.user && m.id == t.chat.messages[i].id
    requires m.status == Answered ==> m.requestId == Some(RunOf(t, m.id))
    ensures TabOk(t.(chat := t.chat.(messages := t.chat.messages[i := m])))
  {
    var before, after := t.chat.messages, t.chat.messages[i := m];
    forall k | 0 <= k < |after| ensures MessageOk(after, t.runOf, k) {
      assert MessageOk(before, t.runOf, k);
      if !before[k].user {
        var j :| 0 <= j < k && before[j].user && before[j].status == Answered && before[j].id + ":reply" == before[k].id
                 && before[j].requestId == before[k].requestId;
        assert after[j] == before[j];
      }
    }
  }

  /** With unique ids a patch reaches one message. */
  lemma PatchedOne(messages: seq<Message>, i: nat, patch: Patch)
    requires i < |messages| && forall j, k | 0 <= j < k < |messages| :: messages[j].id != messages[k].id
    ensures Patched(messages, messages[i].id, patch) == messages[i := Merged(messages[i], patch)]
  {
  }

  lemma SubmitKeepsTabOk(t: Tab, id: Id, run: Id)
    requires TabOk(t) && Enabled(t, Submit(id, run))
    ensures TabOk(Next(t, Submit(id, run)))
  {
    var before, after := t.chat.messages, Next(t, Submit(id, run)).chat.messages;
    var runOf := t.runOf[id := run];
    forall k | 0 <= k < |after|
      ensures MessageOk(after, runOf, k) && (k < |before| ==> after[k].id != id)
    {
      if k < |before| {
        assert MessageOk(before, t.runOf, k);
        if !before[k].user {
          var j :| 0 <= j < k && before[j].user && before[j].status == Answered
              && before[j].id + ":reply" == before[k].id
                   && before[j].requestId == before[k].requestId;
          assert after[j] == before[j];
          assert MessageOk(before, t.runOf, j);
          ReplyIdsDiffer(before[j].id, before[j].id);
        }
      }
    }
  }

  lemma ReplyKeepsTabOk(t: Tab, i: nat, reply: Message)
    requires TabOk(t) && i < |t.chat.messages| && t.chat.messages[i].user && t.chat.messages[i].status == Answered
    requires reply.id == t.chat.messages[i].id + ":reply" && !reply.user && reply.status != InFlight
    requires reply.requestId == t.chat.messages[i].requestId
    requires forall k | 0 <= k < |t.chat.messages| :: t.chat.messages[k].id != reply.id
    ensures TabOk(t.(chat := t.chat.(messages := t.chat.messages + [reply])))
  {
    var before, after := t.chat.messages, t.chat.messages + [reply];
    forall k | 0 <= k < |after| ensures MessageOk(after, t.runOf, k) {
      if k < |before| {
        assert MessageOk(before, t.runOf, k);
        if !before[k].user {
          var j :| 0 <= j < k && before[j].user && before[j].status == Answered
              && before[j].id + ":reply" == before[k].id
                   && before[j].requestId == before[k].requestId;
          assert after[j] == before[j];
        }
      } else {
        assert after[i] == before[i];
      }
    }
  }

  /** A prompt still in flight has no reply. */
  lemma NoReplyYet(t: Tab, i: nat, k: nat)
    requires TabOk(t) && i < |t.chat.messages| && t.chat.messages[i].user && t.chat.messages[i].status == InFlight
    requires k < |t.chat.messages|
    ensures t.chat.messages[k].id != t.chat.messages[i].id + ":reply"
  {
    var messages := t.chat.messages;
    assert MessageOk(messages, t.runOf, k);
    ReplyIdsDiffer(messages[i].id, messages[i].id);
    if !messages[k].user {
      var j :| 0 <= j < k && messages[j].user && messages[j].status == Answered
          && messages[j].id + ":reply" == messages[k].id;
      ReplyIdsDiffer(messages[j].id, messages[i].id);
    }
  }

  /** How a response changes the messages. */
  function Resolved(m: Message, run: Id): Message { m.(status := Answered, requestId := Some(run)) }

  function ReplyTo(m: Message, run: Id, replyFailed: bool): Message {
    Message(m.id + ":reply", false, if replyFailed then Undelivered else Answered, Some(run), None)
  }

  lemma RespondIs(t: Tab, i: nat, replyFailed: bool)
    requires TabOk(t) && i < |t.chat.messages| && IsPrompt(t.chat.messages[i], t.chat.messages[i].id, InFlight)
    ensures var m := t.chat.messages[i]; var run := RunOf(t, m.id);
            && Next(t, Respond(m.id, replyFailed))
               == t.(chat := t.chat.(messages := t.chat.messages[i := Resolved(m, run)] + [ReplyTo(m, run,
                   replyFailed)]))
            && TabOk(Next(t, Respond(m.id, replyFailed)))
  {
    var m := t.chat.messages[i];
    var run := RunOf(t, m.id);
    PatchedOne(t.chat.messages, i, Patch(Some(Answered), Some(run), None));
    PatchKeepsTabOk(t, i, Resolved(m, run));
    var resolved := t.(chat := t.chat.(messages := t.chat.messages[i := Resolved(m, run)]));
    forall k | 0 <= k < |resolved.chat.messages| ensures resolved.chat.messages[k].id != m.id + ":reply" {
      NoReplyYet(t, i, k);
    }
    ReplyKeepsTabOk(resolved, i, ReplyTo(m, run, replyFailed));
  }

  lemma LoseIs(t: Tab, i: nat)
    requires TabOk(t) && i < |t.chat.messages| && IsPrompt(t.chat.messages[i], t.chat.messages[i].id, InFlight)
    ensures var m := t.chat.messages[i];
            && Next(t, Lose(m.id)) == t.(chat := t.chat.(messages := t.chat.messages[i := m.(status := Undelivered)]))
            && TabOk(Next(t, Lose(m.id)))
  {
    PatchedOne(t.chat.messages, i, Patch(Some(Undelivered), None, None));
    PatchKeepsTabOk(t, i, t.chat.messages[i].(status := Undelivered));
  }

  /** What hearing of a run does: refresh the first message that holds it, claim it for the oldest
      unclaimed prompt, or nothing. */
  lemma HearIs(t: Tab, step: Step)
    requires TabOk(t) && step.Hear?
    ensures var messages := t.chat.messages;
            var next := Next(t, step);
            var holder := Holder(messages, step.run);
            && next.runOf == t.runOf && next.told == t.told[step.run := step.phase]
                 && next.chat.sessionId == t.chat.sessionId
            && (if holder < |messages| && messages[holder].status == InFlight then
                  next.chat.messages == messages[holder := messages[holder].(livePhase := Some(step.phase))]
                else if Claiming(t, step) then
                  var i := Oldest(messages);
                  && i < |messages|
                  && next.chat.messages == messages[i := messages[i].(requestId := Some(step.run),
                       livePhase := Some(step.phase))]
                else next.chat.messages == messages)
  {
    var messages := t.chat.messages;
    var holder := Holder(messages, step.run);
    if holder < |messages| {
      assert Holds(messages[holder], step.run);
      PatchedOne(messages, holder, Patch(None, None, Some(step.phase)));
    } else {
      assert forall i | 0 <= i < |messages| :: !Holds(messages[i], step.run);
      var i := Oldest(messages);
      if i < |messages| {
        assert Unclaimed(messages[i]);
        PatchedOne(messages, i, Patch(None, Some(step.run), Some(step.phase)));
      }
    }
  }

  lemma HearKeepsTabOk(t: Tab, step: Step)
    requires TabOk(t) && step.Hear?
    ensures TabOk(Next(t, step))
  {
    HearIs(t, step);
    var messages := t.chat.messages;
    var holder := Holder(messages, step.run);
    if holder < |messages| && messages[holder].status == InFlight {
      assert MessageOk(messages, t.runOf, holder);
      PatchKeepsTabOk(t, holder, messages[holder].(livePhase := Some(step.phase)));
    } else if Claiming(t, step) {
      var i := Oldest(messages);
      PatchKeepsTabOk(t, i, messages[i].(requestId := Some(step.run), livePhase := Some(step.phase)));
    }
  }

  lemma StepKeepsTabOk(t: Tab, step: Step)
    requires TabOk(t) && Enabled(t, step)
    ensures TabOk(Next(t, step))
  {
    match step
    case Submit(id, run) => SubmitKeepsTabOk(t, id, run);
    case Respond(id, replyFailed) =>
      var i :| 0 <= i < |t.chat.messages| && IsPrompt(t.chat.messages[i], id, InFlight);
      RespondIs(t, i, replyFailed);
    case Lose(id) =>
      var i :| 0 <= i < |t.chat.messages| && IsPrompt(t.chat.messages[i], id, InFlight);
      LoseIs(t, i);
    case Hear(_, _, _) => HearKeepsTabOk(t, step);
  }

  // ----- when claims are right -----

  lemma HearRefreshes(t: Tab, step: Step)
    requires TabOk(t) && ClaimsCorrect(t) && step.Hear? && !Claiming(t, step)
    ensures ClaimsCorrect(Next(t, step))
  {
    HearIs(t, step);
    var messages := t.chat.messages;
    var next := Next(t, step);
    var holder := Holder(messages, step.run);
    forall k | 0 <= k < |messages| ensures ClaimOk(next.chat.messages[k], next.runOf, next.told) {
      assert ClaimOk(messages[k], t.runOf, t.told) && MessageOk(messages, t.runOf, k);
      if messages[k].user && messages[k].status == InFlight && Holds(messages[k], step.run) && k != holder {
        assert holder < k && Holds(messages[holder], step.run);
        OnlyHolder(t, holder, k);
      }
    }
  }

  /** Nobody but its own prompt, or that prompt's reply, holds a run; an unanswered prompt comes first. */
  lemma OnlyHolder(t: Tab, i: nat, k: nat)
    requires TabOk(t) && ClaimsCorrect(t) && i < k < |t.chat.messages|
    requires t.chat.messages[k].user && t.chat.messages[k].requestId.Some?
    ensures t.chat.messages[i].requestId != t.chat.messages[k].requestId
  {
    var messages := t.chat.messages;
    assert MessageOk(messages, t.runOf, i) && MessageOk(messages, t.runOf, k);
    assert ClaimOk(messages[i], t.runOf, t.told) && ClaimOk(messages[k], t.runOf, t.told);
    if !messages[i].user {
      var j :| 0 <= j < i && messages[j].user && messages[j].status == Answered
          && messages[j].id + ":reply" == messages[i].id
               && messages[j].requestId == messages[i].requestId;
      assert ClaimOk(messages[j], t.runOf, t.told) && MessageOk(messages, t.runOf, j);
      assert messages[j].id != messages[k].id;
    } else {
      assert messages[i].id != messages[k].id;
    }
  }

  /** A claim is right exactly when updates arrive in order. */
  lemma ClaimExact(t: Tab, step: Step)
    requires TabOk(t) && ClaimsCorrect(t) && Claiming(t, step)
    ensures ClaimsCorrect(Next(t, step)) <==> InOrder(t, step.run)
  {
    HearIs(t, step);
    var messages := t.chat.messages;
    var next := Next(t, step);
    var i := Oldest(messages);
    assert Unclaimed(messages[i]);
    assert MessageOk(messages, t.runOf, i);
    var claimed := messages[i].(requestId := Some(step.run), livePhase := Some(step.phase));
    assert next.chat.messages[i] == claimed;
    if InOrder(t, step.run) {
      assert RunOf(t, messages[i].id) == step.run;
      forall k | 0 <= k < |messages| ensures ClaimOk(next.chat.messages[k], next.runOf, next.told) {
        assert ClaimOk(messages[k], t.runOf, t.told) && MessageOk(messages, t.runOf, k);
        assert !Holds(messages[k], step.run);
      }
    } else {
      assert RunOf(t, messages[i].id) != step.run;
      assert !ClaimOk(claimed, next.runOf, next.told);
    }
  }

  lemma OthersKeepClaims(t: Tab, step: Step)
    requires TabOk(t) && ClaimsCorrect(t) && Enabled(t, step) && !step.Hear?
    ensures ClaimsCorrect(Next(t, step))
  {
    var messages := t.chat.messages;
    forall k | 0 <= k < |messages| ensures ClaimOk(messages[k], t.runOf, t.told) && MessageOk(messages, t.runOf, k) {}
    match step
    case Submit(id, run) =>
    case Respond(id, replyFailed) =>
      var i :| 0 <= i < |messages| && IsPrompt(messages[i], id, InFlight);
      RespondIs(t, i, replyFailed);
    case Lose(id) =>
      var i :| 0 <= i < |messages| && IsPrompt(messages[i], id, InFlight);
      LoseIs(t, i);
    case Hear(_, _, _) =>
  }

  ghost predicate Runs(t: Tab, steps: seq<Step>)
    decreases |steps|
  {
    steps == [] || (Enabled(t, steps[0]) && Runs(Next(t, steps[0]), steps[1..]))
  }

  function After(t: Tab, steps: seq<Step>): Tab
    decreases |steps|
  {
    if steps == [] then t else After(Next(t, steps[0]), steps[1..])
  }

  /** Every state along the run has its claims right. */
  ghost predicate AlwaysCorrect(t: Tab, steps: seq<Step>)
    decreases |steps|
  {
    ClaimsCorrect(t) && (steps != [] ==> AlwaysCorrect(Next(t, steps[0]), steps[1..]))
  }

  /** Every claiming update of the run arrives in submission order. */
  ghost predicate AlwaysInOrder(t: Tab, steps: seq<Step>)
    decreases |steps|
  {
    steps != [] ==>
      (Claiming(t, steps[0]) ==> InOrder(t, steps[0].run)) && AlwaysInOrder(Next(t, steps[0]), steps[1..])
  }

  /** Every state of the run has its claims right exactly when every claiming update is in order at its
      state.  The order is still read from the tab here; the theorem below reads it from the steps. */
  lemma {:induction false} CorrectWhenInOrder(t: Tab, steps: seq<Step>)
    requires TabOk(t) && ClaimsCorrect(t) && Runs(t, steps)
    ensures AlwaysCorrect(t, steps) <==> AlwaysInOrder(t, steps)
    ensures TabOk(After(t, steps))
    decreases |steps|
  {
    if steps != [] {
      var step := steps[0];
      StepKeepsTabOk(t, step);
      if Claiming(t, step) { ClaimExact(t, step); }
      else if step.Hear? { HearRefreshes(t, step); }
      else { OthersKeepClaims(t, step); }
      if ClaimsCorrect(Next(t, step)) {
        CorrectWhenInOrder(Next(t, step), steps[1..]);
      } else {
        OnlyTabOk(Next(t, step), steps[1..]);
      }
    }
  }

  lemma {:induction false} OnlyTabOk(t: Tab, steps: seq<Step>)
    requires TabOk(t) && Runs(t, steps)
    ensures TabOk(After(t, steps))
    decreases |steps|
  {
    if steps != [] {
      StepKeepsTabOk(t, steps[0]);
      OnlyTabOk(Next(t, steps[0]), steps[1..]);
    }
  }

  /** A fresh tab is a start for the theorem above. */
  lemma FreshTab(sessionId: Id)
    ensures TabOk(Tab(Chat(sessionId, []), map[], map[])) && ClaimsCorrect(Tab(Chat(sessionId, []), map[], map[]))
  {
  }

  /** A lost prompt, a waiting one, and a live update of the lost one's run. */
  lemma Misclaims(t: Tab, a: Message, b: Message, hear: Step)
    requires TabOk(t) && t.chat.messages == [a, b] && Unclaimed(b) && !Unclaimed(a) && a.requestId == None
    requires hear.Hear? && !hear.phase.Terminal() && hear.sessionId == t.chat.sessionId && hear.run in t.runOf.Values
    ensures Runs(t, [hear])
    ensures After(t, [hear]) == Next(t, hear)
    ensures After(t, [hear]).chat.messages == [a, b.(requestId := Some(hear.run), livePhase := Some(hear.phase))]
  {
    HearIs(t, hear);
    assert Unclaimed(t.chat.messages[1]) && !Unclaimed(t.chat.messages[0]);
    assert Claiming(t, hear);
    assert [hear][1..] == [];
    assert Runs(Next(t, hear), []) && After(Next(t, hear), []) == Next(t, hear);
  }

  lemma LostThenWaiting(sessionId: Id, a: Id, b: Id, r: Id, q: Id) returns (t: Tab)
    requires ':' !in a && ':' !in b && a != b && r != q
    ensures Runs(Tab(Chat(sessionId, []), map[], map[]), [Submit(a, r)] + ([Lose(a)] + [Submit(b, q)]))
    ensures t == After(Tab(Chat(sessionId, []), map[], map[]), [Submit(a, r)] + ([Lose(a)] + [Submit(b, q)]))
    ensures t.chat == Chat(sessionId,
            [Message(a, true, Undelivered, None, None), Message(b, true, InFlight, None, None)])
    ensures TabOk(t) && a in t.runOf && t.runOf[a] == r && b in t.runOf && t.runOf[b] == q
  {
    var t0 := Tab(Chat(sessionId, []), map[], map[]);
    FreshTab(sessionId);
    var t1 := Next(t0, Submit(a, r));
    StepKeepsTabOk(t0, Submit(a, r));
    assert t1.chat.messages == [Message(a, true, InFlight, None, None)];
    assert IsPrompt(t1.chat.messages[0], a, InFlight);
    LoseIs(t1, 0);
    var t2 := Next(t1, Lose(a));
    StepKeepsTabOk(t2, Submit(b, q));
    t := Next(t2, Submit(b, q));
    assert Runs(t, []) && After(t, []) == t && [Submit(b, q)] + [] == [Submit(b, q)];
    RunsCons(t2, Submit(b, q), []);
    RunsCons(t1, Lose(a), [Submit(b, q)]);
    RunsCons(t0, Submit(a, r), [Lose(a)] + [Submit(b, q)]);
  }

  /** Order is not guaranteed: a prompt whose request was lost leaves its run to the next prompt. */
  lemma LostPromptMisclaims(sessionId: Id, a: Id, b: Id, r: Id, q: Id)
    requires ':' !in a && ':' !in b && a != b && r != q
    ensures var t := Tab(Chat(sessionId, []), map[], map[]);
            exists steps :: Runs(t, steps) && !ClaimsCorrect(After(t, steps))
              && After(t, steps).chat.messages[1..] == [Message(b, true, InFlight, Some(r), Some(Received))]
  {
    var t := LostThenWaiting(sessionId, a, b, r, q);
    var hear := Hear(r, sessionId, Received);
    Misclaims(t, t.chat.messages[0], t.chat.messages[1], hear);
    var start := Tab(Chat(sessionId, []), map[], map[]);
    var steps := [Submit(a, r)] + ([Lose(a)] + [Submit(b, q)]);
    RunsJoin(start, steps, [hear]);
    assert After(start, steps + [hear]).chat.messages[1] == Message(b, true, InFlight, Some(r), Some(Received));
    WrongClaim(t, hear, b, q);
  }

  lemma WrongClaim(t: Tab, hear: Step, b: Id, q: Id)
    requires Runs(t, [hear]) && hear.Hear? && b in t.runOf && t.runOf[b] == q && q != hear.run
    requires |Next(t, hear).chat.messages| == 2 && Next(t, hear).chat.messages[1].id == b
    requires Next(t, hear).chat.messages[1].user && Next(t, hear).chat.messages[1].requestId == Some(hear.run)
    ensures !ClaimsCorrect(After(t, [hear]))
  {
    assert [hear][1..] == [];
    assert After(t, [hear]) == Next(t, hear);
    assert !ClaimOk(Next(t, hear).chat.messages[1], t.runOf, Next(t, hear).told);
  }

  lemma {:induction false} RunsJoin(t: Tab, steps: seq<Step>, more: seq<Step>)
    requires Runs(t, steps) && Runs(After(t, steps), more)
    ensures Runs(t, steps + more) && After(t, steps + more) == After(After(t, steps), more)
    decreases |steps|
  {
    if steps == [] {
      assert steps + more == more;
    } else {
      assert (steps + more)[1..] == steps[1..] + more;
      RunsJoin(Next(t, steps[0]), steps[1..], more);
    }
  }

  lemma RunsCons(t: Tab, step: Step, rest: seq<Step>)
    requires Enabled(t, step) && Runs(Next(t, step), rest)
    ensures Runs(t, [step] + rest) && After(t, [step] + rest) == After(Next(t, step), rest)
  {
    assert ([step] + rest)[1..] == rest;
  }
}
