/** When the chat's claims are right, said of the steps alone: what the user submitted, what the backend
    answered or failed to, and which runs were heard of, without looking at the tab. */
module ChatOrder {
  import opened Basics
  import opened Store
  import opened ChatClaims

  // ----- the condition -----

  /** The prompt of submission `i` was answered, or its request lost, later in `steps`. */
  ghost predicate OverBy(steps: seq<Step>, i: nat)
    requires i < |steps| && steps[i].Submit?
  {
    exists j :: i < j < |steps| && (steps[j].Respond? || steps[j].Lose?) && steps[j].id == steps[i].id
  }

  ghost predicate AnsweredBy(steps: seq<Step>, i: nat)
    requires i < |steps| && steps[i].Submit?
  {
    exists j :: i < j < |steps| && steps[j].Respond? && steps[j].id == steps[i].id
  }

  /** Step `j` is a live update of the run of submission `i`. */
  predicate HeardAt(steps: seq<Step>, i: nat, j: nat)
    requires i < |steps| && steps[i].Submit? && j < |steps|
  {
    steps[j].Hear? && steps[j].run == steps[i].run && !steps[j].phase.Terminal()
  }

  /** A live update of its run came while the prompt was in flight. */
  ghost predicate HeardInFlight(steps: seq<Step>, i: nat)
    requires i < |steps| && steps[i].Submit?
  {
    exists j :: i < j < |steps| && HeardAt(steps, i, j) && !OverBy(steps[..j], i)
  }

  /** The prompt of submission `i` is in flight and its run was not heard of. */
  ghost predicate Open(steps: seq<Step>, i: nat) {
    i < |steps| && steps[i].Submit? && !OverBy(steps, i) && !HeardInFlight(steps, i)
  }

  /** The run's prompt was answered, or shown its run while in flight. */
  ghost predicate Known(steps: seq<Step>, run: Id) {
    exists i: nat :: i < |steps| && steps[i].Submit? && steps[i].run == run
                     && (AnsweredBy(steps, i) || HeardInFlight(steps, i))
  }

  ghost predicate Submitted(steps: seq<Step>, run: Id) {
    exists i: nat :: i < |steps| && steps[i].Submit? && steps[i].run == run
  }

  /** After `steps` no prompt is open, or the oldest open one is that of `run`. */
  ghost predicate OldestIs(steps: seq<Step>, run: Id) {
    || (forall i: nat :: !Open(steps, i))
    || (exists i: nat :: Open(steps, i) && steps[i].run == run && forall k: nat | k < i :: !Open(steps, k))
  }

  /** Runs are first heard of in submission order: at each live update of a submitted run that is not
      known yet, every prompt submitted before its own is over or known, and its own was not lost
      unless nobody else waits. */
  ghost predicate HearsInOrder(steps: seq<Step>) {
    forall n: nat | n < |steps| && UpdateOfUnknown(steps, n) :: OldestIs(steps[..n], steps[n].run)
  }

  ghost predicate UpdateOfUnknown(steps: seq<Step>, n: nat)
    requires n < |steps|
  {
    && steps[n].Hear? && !steps[n].phase.Terminal()
    && Submitted(steps[..n], steps[n].run) && !Known(steps[..n], steps[n].run)
  }

  // ----- a ledger of the submissions -----

  datatype Entry = Entry(at: nat, id: Id, run: Id, inFlight: bool, shown: bool) {
    predicate Waits() { inFlight && !shown }
  }

  function Noted(e: Entry, step: Step): Entry {
    match step
    case Respond(id, _) => if e.id == id then e.(inFlight := false, shown := true) else e
    case Lose(id) => if e.id == id then e.(inFlight := false) else e
    case Hear(run, _, phase) => if e.run == run && !phase.Terminal() && e.inFlight then e.(shown := true) else e
    case Submit(_, _) => e
  }

  /** One entry for each submission, in order, with what the later steps say about it. */
  function Ledger(steps: seq<Step>): seq<Entry> {
    if steps == [] then []
    else
      var last := steps[|steps| - 1];
      Advanced(Ledger(steps[..|steps| - 1]), last, |steps| - 1)
  }

  function Advanced(ledger: seq<Entry>, step: Step, n: nat): seq<Entry> {
    seq(|ledger|, e requires 0 <= e < |ledger| => Noted(ledger[e], step))
    + if step.Submit? then [Entry(n, step.id, step.run, true, false)] else []
  }

  /** What an entry means, in terms of the steps. */
  ghost predicate Means(e: Entry, steps: seq<Step>) {
    && e.at < |steps| && steps[e.at].Submit? && steps[e.at].id == e.id && steps[e.at].run == e.run
    && (e.inFlight <==> !OverBy(steps, e.at))
    && (e.shown <==> AnsweredBy(steps, e.at) || HeardInFlight(steps, e.at))
  }

  ghost predicate LedgerOk(ledger: seq<Entry>, steps: seq<Step>) {
    && (forall e | 0 <= e < |ledger| :: Means(ledger[e], steps))
    && (forall e, f | 0 <= e < f < |ledger| :: ledger[e].at < ledger[f].at)
    && (forall i: nat | i < |steps| && steps[i].Submit? :: Listed(ledger, i))
  }

  lemma OverBySnoc(steps: seq<Step>, last: Step, i: nat)
    requires i < |steps| && steps[i].Submit?
    ensures OverBy(steps + [last], i) <==> OverBy(steps, i) || ((last.Respond? || last.Lose?) && last.id == steps[i].id)
    ensures AnsweredBy(steps + [last], i) <==> AnsweredBy(steps, i) || (last.Respond? && last.id == steps[i].id)
  {
    var all := steps + [last];
    assert all[i] == steps[i] && all[|steps|] == last;
    assert forall j | i < j < |steps| :: all[j] == steps[j];
  }

  lemma HeardSnoc(steps: seq<Step>, last: Step, i: nat)
    requires i < |steps| && steps[i].Submit?
    ensures HeardInFlight(steps + [last], i) <==>
              HeardInFlight(steps, i) || (HeardAt(steps + [last], i, |steps|) && !OverBy(steps, i))
  {
    var all := steps + [last];
    forall j | i < j <= |steps|
      ensures all[..j] == steps[..j]
    {
    }
    assert steps[..|steps|] == steps;
    assert forall j | i < j < |steps| :: HeardAt(all, i, j) == HeardAt(steps, i, j);
    if HeardInFlight(steps, i) {
      var j :| i < j < |steps| && HeardAt(steps, i, j) && !OverBy(steps[..j], i);
      assert HeardAt(all, i, j) && !OverBy(all[..j], i);
    }
    if HeardInFlight(all, i) {
      var j :| i < j < |all| && HeardAt(all, i, j) && !OverBy(all[..j], i);
      if j < |steps| { assert HeardAt(steps, i, j) && !OverBy(steps[..j], i); }
    }
    if HeardAt(all, i, |steps|) && !OverBy(steps, i) { assert !OverBy(all[..|steps|], i); }
  }

  lemma NotedMeans(e: Entry, steps: seq<Step>, last: Step)
    requires Means(e, steps)
    ensures Means(Noted(e, last), steps + [last])
  {
    OverBySnoc(steps, last, e.at);
    HeardSnoc(steps, last, e.at);
    assert (steps + [last])[|steps|] == last && (steps + [last])[e.at] == steps[e.at];
  }

  lemma NewMeans(steps: seq<Step>, last: Step)
    requires last.Submit?
    ensures Means(Entry(|steps|, last.id, last.run, true, false), steps + [last])
  {
    assert (steps + [last])[|steps|] == last;
  }

  lemma AdvancedOk(before: seq<Entry>, front: seq<Step>, last: Step)
    requires LedgerOk(before, front)
    ensures LedgerOk(Advanced(before, last, |front|), front + [last])
  {
    var after, steps := Advanced(before, last, |front|), front + [last];
    forall e | 0 <= e < |after|
      ensures Means(after[e], steps) && (e < |before| ==> after[e].at == before[e].at)
    {
      if e < |before| { NotedMeans(before[e], front, last); } else { NewMeans(front, last); }
    }
    AllListed(before, front, last);
    forall e, f | 0 <= e < f < |after|
      ensures after[e].at < after[f].at
    {
      if f >= |before| { assert Means(before[e], front); }
    }
  }

  ghost predicate Listed(ledger: seq<Entry>, i: nat) {
    exists e :: 0 <= e < |ledger| && ledger[e].at == i
  }

  lemma AllListed(before: seq<Entry>, front: seq<Step>, last: Step)
    requires forall i: nat | i < |front| && front[i].Submit? :: Listed(before, i)
    ensures forall i: nat | i <= |front| && (front + [last])[i].Submit? :: Listed(Advanced(before, last, |front|), i)
  {
    var after := Advanced(before, last, |front|);
    forall i: nat | i <= |front| && (front + [last])[i].Submit?
      ensures Listed(after, i)
    {
      if i < |front| {
        var e :| 0 <= e < |before| && before[e].at == i;
        assert after[e].at == i;
      } else {
        assert after[|before|].at == i;
      }
    }
  }

  lemma LedgerSnoc(front: seq<Step>, last: Step)
    ensures Ledger(front + [last]) == Advanced(Ledger(front), last, |front|)
  {
    assert (front + [last])[..|front|] == front;
  }

  /** The ledger says of each submission what the steps say. */
  lemma {:induction false} LedgerMeans(steps: seq<Step>)
    ensures LedgerOk(Ledger(steps), steps)
    decreases |steps|
  {
    if steps != [] {
      var front, last := steps[..|steps| - 1], steps[|steps| - 1];
      LedgerMeans(front);
      AdvancedOk(Ledger(front), front, last);
      assert steps == front + [last];
      LedgerSnoc(front, last);
    }
  }

  // ----- the condition on the ledger -----

  ghost predicate KnownIn(ledger: seq<Entry>, run: Id) {
    exists e :: 0 <= e < |ledger| && ledger[e].run == run && ledger[e].shown
  }

  ghost predicate SubmittedIn(ledger: seq<Entry>, run: Id) {
    exists e :: 0 <= e < |ledger| && ledger[e].run == run
  }

  ghost predicate OldestIn(ledger: seq<Entry>, run: Id) {
    exists e :: 0 <= e < |ledger| && ledger[e].Waits() && ledger[e].run == run
                && forall k | 0 <= k < e :: !ledger[k].Waits()
  }

  ghost predicate NobodyWaits(ledger: seq<Entry>) {
    forall e | 0 <= e < |ledger| :: !ledger[e].Waits()
  }

  /** An update at this point of the ledger is in order. */
  ghost predicate InOrderAt(ledger: seq<Entry>, step: Step) {
    step.Hear? && !step.phase.Terminal() && SubmittedIn(ledger, step.run) && !KnownIn(ledger, step.run) ==>
      NobodyWaits(ledger) || OldestIn(ledger, step.run)
  }

  lemma OpenWaits(ledger: seq<Entry>, steps: seq<Step>, e: nat)
    requires LedgerOk(ledger, steps) && e < |ledger|
    ensures Open(steps, ledger[e].at) <==> ledger[e].Waits()
  {
    assert Means(ledger[e], steps);
  }

  ghost predicate Waiting(ledger: seq<Entry>, i: nat) {
    exists e :: 0 <= e < |ledger| && ledger[e].at == i && ledger[e].Waits()
  }

  lemma OpenIsWaiting(ledger: seq<Entry>, steps: seq<Step>, i: nat)
    requires LedgerOk(ledger, steps)
    ensures Open(steps, i) <==> Waiting(ledger, i)
  {
    if Open(steps, i) {
      assert Listed(ledger, i);
      var e :| 0 <= e < |ledger| && ledger[e].at == i;
      OpenWaits(ledger, steps, e);
    }
    if Waiting(ledger, i) {
      var e :| 0 <= e < |ledger| && ledger[e].at == i && ledger[e].Waits();
      OpenWaits(ledger, steps, e);
    }
  }

  lemma NobodySame(ledger: seq<Entry>, steps: seq<Step>)
    requires LedgerOk(ledger, steps)
    ensures NobodyWaits(ledger) <==> forall i: nat :: !Open(steps, i)
  {
    forall i: nat ensures Open(steps, i) <==> Waiting(ledger, i) { OpenIsWaiting(ledger, steps, i); }
    forall e | 0 <= e < |ledger| ensures ledger[e].Waits() ==> Waiting(ledger, ledger[e].at) {}
  }

  /** The oldest waiting entry is the oldest open submission. */
  lemma OldestEntry(ledger: seq<Entry>, steps: seq<Step>, e: nat)
    requires LedgerOk(ledger, steps) && e < |ledger|
    ensures ledger[e].Waits() && (forall k | 0 <= k < e :: !ledger[k].Waits()) <==>
              Open(steps, ledger[e].at) && forall k: nat | k < ledger[e].at :: !Open(steps, k)
  {
    forall i: nat ensures Open(steps, i) <==> Waiting(ledger, i) { OpenIsWaiting(ledger, steps, i); }
    OpenWaits(ledger, steps, e);
    forall k | 0 <= k < e ensures ledger[k].at < ledger[e].at
        && (ledger[k].Waits() ==> Waiting(ledger, ledger[k].at)) {}
  }

  lemma OldestSame(ledger: seq<Entry>, steps: seq<Step>, run: Id)
    requires LedgerOk(ledger, steps)
    ensures OldestIs(steps, run) <==> NobodyWaits(ledger) || OldestIn(ledger, run)
  {
    NobodySame(ledger, steps);
    if i: nat :| Open(steps, i) && steps[i].run == run && forall k: nat | k < i :: !Open(steps, k) {
      assert Listed(ledger, i);
      var e :| 0 <= e < |ledger| && ledger[e].at == i;
      assert Means(ledger[e], steps);
      OldestEntry(ledger, steps, e);
      assert OldestIn(ledger, run);
    }
    if OldestIn(ledger, run) {
      var e :| 0 <= e < |ledger| && ledger[e].Waits() && ledger[e].run == run && forall k | 0 <= k < e ::
          !ledger[k].Waits();
      assert Means(ledger[e], steps);
      OldestEntry(ledger, steps, e);
    }
  }

  lemma OrderSame(ledger: seq<Entry>, steps: seq<Step>, step: Step)
    requires LedgerOk(ledger, steps)
    ensures InOrderAt(ledger, step) <==>
              (step.Hear? && !step.phase.Terminal() && Submitted(steps, step.run) && !Known(steps, step.run) ==>
                  OldestIs(steps, step.run))
  {
    if step.Hear? {
      OldestSame(ledger, steps, step.run);
      SubmittedSame(ledger, steps, step.run);
      KnownSame(ledger, steps, step.run);
    }
  }

  lemma SubmittedSame(ledger: seq<Entry>, steps: seq<Step>, run: Id)
    requires LedgerOk(ledger, steps)
    ensures Submitted(steps, run) <==> SubmittedIn(ledger, run)
  {
    forall e | 0 <= e < |ledger| ensures Means(ledger[e], steps) {}
    if Submitted(steps, run) {
      var i: nat :| i < |steps| && steps[i].Submit? && steps[i].run == run;
      assert Listed(ledger, i);
      var e :| 0 <= e < |ledger| && ledger[e].at == i;
      assert ledger[e].run == run;
    }
  }

  lemma KnownSame(ledger: seq<Entry>, steps: seq<Step>, run: Id)
    requires LedgerOk(ledger, steps)
    ensures Known(steps, run) <==> KnownIn(ledger, run)
  {
    forall e | 0 <= e < |ledger| ensures Means(ledger[e], steps) {}
    if Known(steps, run) {
      var i: nat :| i < |steps| && steps[i].Submit? && steps[i].run == run
          && (AnsweredBy(steps, i) || HeardInFlight(steps, i));
      assert Listed(ledger, i);
      var e :| 0 <= e < |ledger| && ledger[e].at == i;
      assert ledger[e].run == run && ledger[e].shown;
    }
    if KnownIn(ledger, run) {
      var e :| 0 <= e < |ledger| && ledger[e].run == run && ledger[e].shown;
      assert steps[ledger[e].at].run == run;
    }
  }

  // ----- the tab against the ledger -----

  /** The prompts among the messages, in order. */
  function Prompts(messages: seq<Message>): seq<Message> {
    if messages == [] then []
    else
      var last := messages[|messages| - 1];
      Prompts(messages[..|messages| - 1]) + if last.user then [last] else []
  }

  /** Where prompt `i` stands among the prompts. */
  function Place(messages: seq<Message>, i: nat): nat
    requires i <= |messages|
  {
    |Prompts(messages[..i])|
  }

  lemma PromptsSnoc(messages: seq<Message>, last: Message)
    ensures Prompts(messages + [last]) == Prompts(messages) + if last.user then [last] else []
  {
    assert (messages + [last])[..|messages|] == messages;
  }

  lemma {:induction false} PlaceOk(messages: seq<Message>, i: nat)
    requires i < |messages| && messages[i].user
    ensures Place(messages, i) < |Prompts(messages)| && Prompts(messages)[Place(messages, i)] == messages[i]
    decreases |messages|
  {
    var front, last := messages[..|messages| - 1], messages[|messages| - 1];
    assert messages == front + [last];
    if i < |front| {
      PlaceOk(front, i);
      assert messages[..i] == front[..i];
    } else {
      assert messages[..i] == front;
    }
  }

  lemma {:induction false} PlaceOrder(messages: seq<Message>, i: nat, k: nat)
    requires i < k <= |messages| && messages[i].user
    ensures Place(messages, i) < Place(messages, k)
  {
    PlaceOk(messages[..k], i);
    assert messages[..k][..i] == messages[..i];
  }

  lemma {:induction false} PromptAt(messages: seq<Message>, u: nat) returns (i: nat)
    requires u < |Prompts(messages)|
    ensures i < |messages| && messages[i].user && Place(messages, i) == u && messages[i] == Prompts(messages)[u]
    decreases |messages|
  {
    var front, last := messages[..|messages| - 1], messages[|messages| - 1];
    assert messages == front + [last];
    if u < |Prompts(front)| {
      i := PromptAt(front, u);
      assert messages[..i] == front[..i];
    } else {
      i := |front|;
      assert messages[..i] == front;
    }
  }

  lemma {:induction false} PromptsUpdate(messages: seq<Message>, i: nat, m: Message)
    requires i < |messages| && messages[i].user && m.user
    ensures Place(messages, i) < |Prompts(messages)|
    ensures Prompts(messages[i := m]) == Prompts(messages)[Place(messages, i) := m]
    decreases |messages|
  {
    PlaceOk(messages, i);
    var front, last := messages[..|messages| - 1], messages[|messages| - 1];
    assert messages == front + [last];
    if i < |front| {
      PromptsUpdate(front, i, m);
      assert messages[i := m] == front[i := m] + [last];
      PromptsSnoc(front[i := m], last);
      assert messages[..i] == front[..i];
    } else {
      assert messages[i := m] == front + [m] && messages[..i] == front;
      PromptsSnoc(front, m);
    }
  }

  predicate EntryFits(e: Entry, m: Message, runOf: map<Id, Id>) {
    && m.user && m.id == e.id && e.id in runOf && runOf[e.id] == e.run
    && (m.status == InFlight <==> e.inFlight)
    && m.requestId == if e.shown then Some(e.run) else None
  }

  ghost predicate Fits(ledger: seq<Entry>, prompts: seq<Message>, runOf: map<Id, Id>) {
    && |ledger| == |prompts|
    && (forall e | 0 <= e < |ledger| :: EntryFits(ledger[e], prompts[e], runOf))
    && (forall id | id in runOf :: Entered(ledger, id))
    && (forall e, f | 0 <= e < f < |ledger| :: ledger[e].id != ledger[f].id && ledger[e].run != ledger[f].run)
  }

  ghost predicate TabFits(ledger: seq<Entry>, t: Tab) {
    Fits(ledger, Prompts(t.chat.messages), t.runOf)
  }

  lemma HolderIsKnown(ledger: seq<Entry>, t: Tab, run: Id)
    requires TabOk(t) && TabFits(ledger, t)
    ensures KnownIn(ledger, run) <==> exists i :: 0 <= i < |t.chat.messages| && Holds(t.chat.messages[i], run)
  {
    var messages := t.chat.messages;
    if KnownIn(ledger, run) {
      var e :| 0 <= e < |ledger| && ledger[e].run == run && ledger[e].shown;
      assert EntryFits(ledger[e], Prompts(messages)[e], t.runOf);
      var i := PromptAt(messages, e);
      assert Holds(messages[i], run);
    }
    if i :| 0 <= i < |messages| && Holds(messages[i], run) {
      assert MessageOk(messages, t.runOf, i);
      var j := i;
      if !messages[i].user {
        j :| 0 <= j < i && messages[j].user && messages[j].status == Answered
            && messages[j].id + ":reply" == messages[i].id
             && messages[j].requestId == messages[i].requestId;
      }
      PlaceOk(messages, j);
      var e := Place(messages, j);
      assert EntryFits(ledger[e], messages[j], t.runOf);
      assert ledger[e].shown && ledger[e].run == run;
    }
  }

  lemma WaitingPrompts(ledger: seq<Entry>, t: Tab)
    requires TabFits(ledger, t)
    ensures forall i | 0 <= i < |t.chat.messages| && t.chat.messages[i].user ::
              var e := Place(t.chat.messages, i);
              && e < |ledger| && (ledger[e].Waits() <==> Unclaimed(t.chat.messages[i]))
              && t.chat.messages[i].id in t.runOf && t.runOf[t.chat.messages[i].id] == ledger[e].run
    ensures NobodyWaits(ledger) <==> forall i | 0 <= i < |t.chat.messages| :: !Unclaimed(t.chat.messages[i])
  {
    var messages := t.chat.messages;
    forall i | 0 <= i < |messages| && messages[i].user
      ensures var e := Place(messages, i);
              && e < |ledger| && (ledger[e].Waits() <==> Unclaimed(messages[i]))
              && messages[i].id in t.runOf && t.runOf[messages[i].id] == ledger[e].run
    {
      PlaceOk(messages, i);
      assert EntryFits(ledger[Place(messages, i)], messages[i], t.runOf);
    }
    if e :| 0 <= e < |ledger| && ledger[e].Waits() {
      var i := PromptAt(messages, e);
      assert Unclaimed(messages[i]);
    }
  }

  lemma EarlierPrompts(ledger: seq<Entry>, t: Tab, i: nat)
    requires TabFits(ledger, t) && i < |t.chat.messages| && t.chat.messages[i].user
            && Place(t.chat.messages, i) <= |ledger|
    ensures (forall j | 0 <= j < i :: !Unclaimed(t.chat.messages[j])) <==>
              forall k | 0 <= k < Place(t.chat.messages, i) :: !ledger[k].Waits()
  {
    var messages := t.chat.messages;
    WaitingPrompts(ledger, t);
    if k :| 0 <= k < Place(messages, i) && ledger[k].Waits() {
      var j := PromptAt(messages, k);
      if i < j { PlaceOrder(messages, i, j); }
      assert Unclaimed(messages[j]);
    }
    if j :| 0 <= j < i && Unclaimed(messages[j]) {
      PlaceOrder(messages, j, i);
      assert ledger[Place(messages, j)].Waits();
    }
  }

  lemma OldestPlace(ledger: seq<Entry>, t: Tab, i: nat, run: Id)
    requires TabFits(ledger, t) && i < |t.chat.messages| && t.chat.messages[i].user
    ensures Place(t.chat.messages, i) < |ledger|
    ensures var e := Place(t.chat.messages, i);
            (&& Unclaimed(t.chat.messages[i]) && RunOf(t, t.chat.messages[i].id) == run
             && forall j | 0 <= j < i :: !Unclaimed(t.chat.messages[j]))
            <==> (ledger[e].Waits() && ledger[e].run == run && forall k | 0 <= k < e :: !ledger[k].Waits())
  {
    WaitingPrompts(ledger, t);
    EarlierPrompts(ledger, t, i);
  }

  lemma OldestFits(ledger: seq<Entry>, t: Tab, run: Id)
    requires TabFits(ledger, t)
    ensures InOrder(t, run) <==> OldestIn(ledger, run)
  {
    var messages := t.chat.messages;
    if InOrder(t, run) {
      var i :| 0 <= i < |messages| && Unclaimed(messages[i]) && RunOf(t, messages[i].id) == run
               && forall j | 0 <= j < i :: !Unclaimed(messages[j]);
      OldestPlace(ledger, t, i, run);
    }
    if OldestIn(ledger, run) {
      var e :| 0 <= e < |ledger| && ledger[e].Waits() && ledger[e].run == run && forall k | 0 <= k < e ::
          !ledger[k].Waits();
      var i := PromptAt(messages, e);
      OldestPlace(ledger, t, i, run);
    }
  }

  /** At one state: the order read from the tab is the order read from the ledger. */
  lemma SameOrder(ledger: seq<Entry>, t: Tab, step: Step)
    requires TabOk(t) && TabFits(ledger, t) && Enabled(t, step)
    ensures (Claiming(t, step) ==> InOrder(t, step.run)) <==> InOrderAt(ledger, step)
    ensures Claiming(t, step) <==>
              step.Hear? && !step.phase.Terminal() && SubmittedIn(ledger, step.run) && !KnownIn(ledger, step.run)
                  && !NobodyWaits(ledger)
  {
    if step.Hear? {
      HolderIsKnown(ledger, t, step.run);
      WaitingPrompts(ledger, t);
      OldestFits(ledger, t, step.run);
      OwnRun(ledger, t, step.run);
    }
  }

  lemma OwnRun(ledger: seq<Entry>, t: Tab, run: Id)
    requires TabFits(ledger, t)
    ensures run in t.runOf.Values <==> SubmittedIn(ledger, run)
  {
    if run in t.runOf.Values {
      var id :| id in t.runOf && t.runOf[id] == run;
      assert Entered(ledger, id);
      var e :| 0 <= e < |ledger| && ledger[e].id == id;
      assert EntryFits(ledger[e], Prompts(t.chat.messages)[e], t.runOf);
    }
    if e :| 0 <= e < |ledger| && ledger[e].run == run {
      assert EntryFits(ledger[e], Prompts(t.chat.messages)[e], t.runOf);
    }
  }

  // ----- every step keeps the fit while claims are right -----

  ghost predicate Entered(ledger: seq<Entry>, id: Id) {
    exists e :: 0 <= e < |ledger| && ledger[e].id == id
  }

  /** One more prompt, and one more entry. */
  lemma MoreFits(ledger: seq<Entry>, prompts: seq<Message>, runOf: map<Id, Id>, e: Entry, m: Message)
    requires Fits(ledger, prompts, runOf) && e.id !in runOf && e.run !in runOf.Values
    requires EntryFits(e, m, runOf[e.id := e.run])
    ensures Fits(ledger + [e], prompts + [m], runOf[e.id := e.run])
  {
    var after, runOf' := ledger + [e], runOf[e.id := e.run];
    forall k | 0 <= k < |ledger|
      ensures EntryFits(after[k], (prompts + [m])[k], runOf') && after[k].id != e.id && after[k].run != e.run
    {
      assert EntryFits(ledger[k], prompts[k], runOf);
    }
    forall id | id in runOf'
      ensures Entered(after, id)
    {
      if id == e.id { assert after[|ledger|].id == id; } else {
        assert Entered(ledger, id);
        var k :| 0 <= k < |ledger| && ledger[k].id == id;
        assert after[k].id == id;
      }
    }
  }

  lemma SubmitFits(ledger: seq<Entry>, t: Tab, step: Step, n: nat)
    requires TabFits(ledger, t) && step.Submit? && Enabled(t, step)
    ensures TabFits(Advanced(ledger, step, n), Next(t, step))
  {
    var e, m := Entry(n, step.id, step.run, true, false), Message(step.id, true, InFlight, None, None);
    PromptsSnoc(t.chat.messages, m);
    MoreFits(ledger, Prompts(t.chat.messages), t.runOf, e, m);
    assert Advanced(ledger, step, n) == ledger + [e];
  }

  /** One prompt changes, and so does its entry. */
  lemma OneFits(ledger: seq<Entry>, prompts: seq<Message>, runOf: map<Id, Id>, u: nat, m: Message, after: seq<Entry>)
    requires Fits(ledger, prompts, runOf) && u < |ledger| && |after| == |ledger|
    requires EntryFits(after[u], m, runOf) && after[u].id == ledger[u].id && after[u].run == ledger[u].run
    requires forall e | 0 <= e < |ledger| && e != u :: after[e] == ledger[e]
    ensures Fits(after, prompts[u := m], runOf)
  {
    forall id | id in runOf
      ensures Entered(after, id)
    {
      assert Entered(ledger, id);
      var e :| 0 <= e < |ledger| && ledger[e].id == id;
      assert after[e].id == id;
    }
  }

  /** An answer is noted in the entry of its prompt alone. */
  lemma AnswerNoted(ledger: seq<Entry>, step: Step, n: nat, u: nat)
    requires step.Respond? && u < |ledger| && ledger[u].id == step.id
    requires forall e | 0 <= e < |ledger| && e != u :: ledger[e].id != step.id
    ensures Advanced(ledger, step, n) == ledger[u := ledger[u].(inFlight := false, shown := true)]
  {
  }

  /** A first live update is noted in the entry of its run alone. */
  lemma UpdateNoted(ledger: seq<Entry>, step: Step, n: nat, u: nat)
    requires step.Hear? && !step.phase.Terminal() && u < |ledger| && ledger[u].run == step.run && ledger[u].inFlight
    requires forall e | 0 <= e < |ledger| && e != u :: ledger[e].run != step.run
    ensures Advanced(ledger, step, n) == ledger[u := ledger[u].(shown := true)]
  {
  }

  lemma AnsweredFits(ledger: seq<Entry>, t: Tab, step: Step, n: nat, i: nat)
    requires TabFits(ledger, t) && step.Respond? && i < |t.chat.messages|
    requires IsPrompt(t.chat.messages[i], step.id, InFlight) && step.id in t.runOf
    ensures Fits(Advanced(ledger, step, n),
                 Prompts(t.chat.messages[i := Resolved(t.chat.messages[i], RunOf(t, step.id))]), t.runOf)
  {
    var messages := t.chat.messages;
    var m := Resolved(messages[i], RunOf(t, step.id));
    PromptsUpdate(messages, i, m);
    PlaceOk(messages, i);
    var u := Place(messages, i);
    assert EntryFits(ledger[u], messages[i], t.runOf);
    AnswerNoted(ledger, step, n, u);
    OneFits(ledger, Prompts(messages), t.runOf, u, m, Advanced(ledger, step, n));
  }

  lemma RespondFits(ledger: seq<Entry>, t: Tab, step: Step, n: nat)
    requires TabOk(t) && TabFits(ledger, t) && step.Respond? && Enabled(t, step)
    ensures TabFits(Advanced(ledger, step, n), Next(t, step))
  {
    var messages := t.chat.messages;
    var i :| 0 <= i < |messages| && IsPrompt(messages[i], step.id, InFlight);
    assert MessageOk(messages, t.runOf, i);
    RespondIs(t, i, step.replyFailed);
    AnsweredFits(ledger, t, step, n, i);
    var run := RunOf(t, step.id);
    var resolved := messages[i := Resolved(messages[i], run)];
    PromptsSnoc(resolved, ReplyTo(messages[i], run, step.replyFailed));
    assert Prompts(resolved) + [] == Prompts(resolved);
  }

  lemma LoseFits(ledger: seq<Entry>, t: Tab, step: Step, n: nat)
    requires TabOk(t) && TabFits(ledger, t) && step.Lose? && Enabled(t, step)
    ensures TabFits(Advanced(ledger, step, n), Next(t, step))
  {
    var messages := t.chat.messages;
    var i :| 0 <= i < |messages| && IsPrompt(messages[i], step.id, InFlight);
    LoseIs(t, i);
    PromptsUpdate(messages, i, messages[i].(status := Undelivered));
    PlaceOk(messages, i);
    var u := Place(messages, i);
    assert EntryFits(ledger[u], messages[i], t.runOf);
    OneFits(ledger, Prompts(messages), t.runOf, u, messages[i].(status := Undelivered), Advanced(ledger, step, n));
  }

  lemma WaiterUnknown(ledger: seq<Entry>, t: Tab, e: nat)
    requires TabFits(ledger, t) && e < |ledger| && ledger[e].Waits()
    ensures SubmittedIn(ledger, ledger[e].run) && !KnownIn(ledger, ledger[e].run) && !NobodyWaits(ledger)
  {
  }

  /** An update that claims nothing leaves the ledger as it was. */
  lemma HeardBefore(ledger: seq<Entry>, t: Tab, step: Step, n: nat)
    requires TabOk(t) && TabFits(ledger, t) && step.Hear? && Enabled(t, step) && !Claiming(t, step)
    ensures Advanced(ledger, step, n) == ledger
  {
    forall e | 0 <= e < |ledger|
      ensures Noted(ledger[e], step) == ledger[e]
    {
      if ledger[e].Waits() { WaiterUnknown(ledger, t, e); }
      SameOrder(ledger, t, step);
    }
  }

  lemma HearFits(ledger: seq<Entry>, t: Tab, step: Step, n: nat)
    requires TabOk(t) && TabFits(ledger, t) && step.Hear? && Enabled(t, step) && !Claiming(t, step)
    ensures TabFits(Advanced(ledger, step, n), Next(t, step))
  {
    HeardBefore(ledger, t, step, n);
    HearIs(t, step);
    var messages := t.chat.messages;
    var i := Holder(messages, step.run);
    if i < |messages| && messages[i].status == InFlight {
      assert MessageOk(messages, t.runOf, i);
      var m := messages[i].(livePhase := Some(step.phase));
      PromptsUpdate(messages, i, m);
      PlaceOk(messages, i);
      assert EntryFits(ledger[Place(messages, i)], messages[i], t.runOf);
      OneFits(ledger, Prompts(messages), t.runOf, Place(messages, i), m, ledger);
    }
  }

  lemma ClaimedFits(ledger: seq<Entry>, t: Tab, step: Step, n: nat, i: nat)
    requires TabFits(ledger, t) && step.Hear? && !step.phase.Terminal() && i < |t.chat.messages|
    requires Unclaimed(t.chat.messages[i]) && RunOf(t, t.chat.messages[i].id) == step.run
    ensures Fits(Advanced(ledger, step, n),
                 Prompts(t.chat.messages[i := t.chat.messages[i].(requestId := Some(step.run),
                     livePhase := Some(step.phase))]), t.runOf)
  {
    var messages := t.chat.messages;
    var m := messages[i].(requestId := Some(step.run), livePhase := Some(step.phase));
    PromptsUpdate(messages, i, m);
    PlaceOk(messages, i);
    var u := Place(messages, i);
    assert EntryFits(ledger[u], messages[i], t.runOf);
    UpdateNoted(ledger, step, n, u);
    OneFits(ledger, Prompts(messages), t.runOf, u, m, Advanced(ledger, step, n));
  }

  lemma ClaimFits(ledger: seq<Entry>, t: Tab, step: Step, n: nat)
    requires TabOk(t) && TabFits(ledger, t) && Enabled(t, step) && Claiming(t, step) && InOrder(t, step.run)
    ensures TabFits(Advanced(ledger, step, n), Next(t, step))
  {
    HearIs(t, step);
    assert Unclaimed(t.chat.messages[Oldest(t.chat.messages)]);
    ClaimedFits(ledger, t, step, n, Oldest(t.chat.messages));
  }

  lemma StepFits(ledger: seq<Entry>, t: Tab, step: Step, n: nat)
    requires TabOk(t) && TabFits(ledger, t) && Enabled(t, step) && (Claiming(t, step) ==> InOrder(t, step.run))
    ensures TabFits(Advanced(ledger, step, n), Next(t, step))
  {
    match step
    case Submit(_, _) => SubmitFits(ledger, t, step, n);
    case Respond(_, _) => RespondFits(ledger, t, step, n);
    case Lose(_) => LoseFits(ledger, t, step, n);
    case Hear(_, _, _) => if Claiming(t, step) { ClaimFits(ledger, t, step, n); } else { HearFits(ledger, t, step, n); }
  }

  // ----- over a whole run -----

  /** Every step after the first `n` is in order where it stands. */
  ghost predicate InOrderFrom(steps: seq<Step>, n: nat)
    requires n <= |steps|
  {
    forall k | n <= k < |steps| :: InOrderAt(Ledger(steps[..k]), steps[k])
  }

  lemma {:induction false} OrderFromState(t: Tab, steps: seq<Step>, n: nat)
    requires n <= |steps| && TabOk(t) && TabFits(Ledger(steps[..n]), t) && Runs(t, steps[n..])
    ensures AlwaysInOrder(t, steps[n..]) <==> InOrderFrom(steps, n)
    decreases |steps| - n
  {
    if n < |steps| {
      var step := steps[n];
      assert steps[n..][0] == step && steps[n..][1..] == steps[n + 1..];
      SameOrder(Ledger(steps[..n]), t, step);
      assert steps[..n + 1] == steps[..n] + [step];
      assert (steps[..n] + [step])[..n] == steps[..n];
      if InOrderAt(Ledger(steps[..n]), step) {
        StepKeepsTabOk(t, step);
        StepFits(Ledger(steps[..n]), t, step, n);
        OrderFromState(Next(t, step), steps, n + 1);
      }
    }
  }

  lemma FromTheSteps(steps: seq<Step>)
    ensures InOrderFrom(steps, 0) <==> HearsInOrder(steps)
  {
    forall k: nat | k < |steps|
      ensures InOrderAt(Ledger(steps[..k]), steps[k]) <==>
              (UpdateOfUnknown(steps, k) ==> OldestIs(steps[..k], steps[k].run))
    {
      LedgerMeans(steps[..k]);
      OrderSame(Ledger(steps[..k]), steps[..k], steps[k]);
    }
  }

  /** Over every run of a fresh tab: each prompt holds no run but its own, and shows its latest phase
      while in flight, in every state, if and only if the steps themselves hear of runs in submission
      order. */
  lemma ClaimsFollowOrder(sessionId: Id, steps: seq<Step>)
    requires Runs(Tab(Chat(sessionId, []), map[], map[]), steps)
    ensures AlwaysCorrect(Tab(Chat(sessionId, []), map[], map[]), steps) <==> HearsInOrder(steps)
  {
    var t := Tab(Chat(sessionId, []), map[], map[]);
    FreshTab(sessionId);
    CorrectWhenInOrder(t, steps);
    assert steps[0..] == steps && steps[..0] == [];
    OrderFromState(t, steps, 0);
    FromTheSteps(steps);
  }
}
