/** The payment protocol over whole runs: every sequence of steps from an empty book. */
module PaymentRuns {
  import opened Options
  import opened Holds
  import opened PaymentCase
  import opened PaymentBook

  lemma {:induction false} RunSplits(b: Book, s: seq<Step>, t: seq<Step>)
    ensures Run(b, s + t) == Run(Run(b, s), t)
    decreases |s|
  {
    if s == [] {
      assert s + t == t;
    } else {
      assert (s + t)[0] == s[0] && (s + t)[1..] == s[1..] + t;
      RunSplits(Apply(b, s[0]), s[1..], t);
    }
  }

  // ---------------------------------------------------------------------------
  // Settlement: every run, every interleaving
  // ---------------------------------------------------------------------------

  /** One settlement, one journal and one message of each kind at most; each settlement was made for a
      stored paid event of the intent's own endpoint that agrees with it, and the money rows of an intent agree. */
  lemma EveryRunSettlesOnce(steps: seq<Step>)
    ensures var b := Run(EMPTY, steps);
      && (forall x, y :: 0 <= x < y < |b.settlements| ==> b.settlements[x].intent != b.settlements[y].intent)
      && (forall x, y :: 0 <= x < y < |b.journals| ==> b.journals[x].intent != b.journals[y].intent)
      && (forall x, y :: 0 <= x < y < |b.outbox| ==> b.outbox[x] != b.outbox[y])
      && (forall r :: r in b.settlements ==>
            && r.intent in b.cases && r.event in b.events
            && Evidence(r.event, b.events[r.event].body, b.cases[r.intent].terms))
      && (forall i :: Settled(b.settlements, i) <==> Fulfil(i) in b.outbox)
      && (forall i :: Settled(b.settlements, i) <==> Notify(i) in b.outbox)
      && (forall k :: k in b.events && b.events[k].state.Processed? && b.events[k].body.kind == Some(PaidEvent)
            ==> b.events[k].intent.Some? && Settled(b.settlements, b.events[k].intent.value))
      && (forall r :: r in b.settlements ==> r.gross == r.fee + r.net && 0 < r.net)
      && (forall r, j :: r in b.settlements && j in b.journals && r.intent == j.intent ==>
            && r.reference == j.reference && r.gross == j.gross && r.fee == j.feePercent + j.feeFixed && r.net == j.net
            && j.feeFixed == (if r.fee >= 700 then 700 else 0))
  {
    RunKeepsBook(EMPTY, steps);
    var b := Run(EMPTY, steps);
    assert forall k :: k in b.events ==> EventRowOk(b, k, b.events[k]);
    assert forall r :: r in b.settlements ==> SettlementRowOk(b, r) && CaseOk(b.cases[r.intent]);
    assert forall j :: j in b.journals ==> JournalRowOk(b, j);
  }

  /** The step processes a paid event that passes its checks, for this intent. */
  predicate PaysIntent(b: Book, s: Step, i: IntentId) {
    && s.Process? && s.key in b.events && !b.events[s.key].state.Processed?
    && b.events[s.key].body.kind == Some(PaidEvent) && Check(b, s.key, b.events[s.key].body).None?
    && Resolve(b, s.key, b.events[s.key].body) == Found(i)
  }

  lemma SettleAddsItsIntent(b: Book, row: Settlement, i: IntentId)
    requires SettlementsOk(b) && row.reference == PaidReference(row.intent)
    ensures Settled(AddSettlement(b.settlements, row), i) <==> Settled(b.settlements, i) || i == row.intent
  {
    ReferenceMeansSettled(b, row.intent);
    SettledAfterAppend(b.settlements, row, i);
    hide SettlementsOk;
  }

  lemma StepSettlesExactly(b: Book, s: Step, i: IntentId)
    requires BookOk(b)
    ensures Settled(Apply(b, s).settlements, i) <==> Settled(b.settlements, i) || PaysIntent(b, s, i)
  {
    hide BookOk, Settled, PostJournal, MayPlace, Resolve, NamedIntent, Check, Move, ActivationKey, ApplyEvent;
    match s
    case Process(key) =>
      if key in b.events && !b.events[key].state.Processed? && Check(b, key, b.events[key].body).None? {
        var j := Resolve(b, key, b.events[key].body).intent;
        AppliedEventSettlesExactly(b, key, j, b.events[key].body.kind.value, i);
      }
    case _ =>
  }

  lemma AppliedEventSettlesExactly(b: Book, key: EventKey, j: IntentId, kind: Normalized, i: IntentId)
    requires BookOk(b) && key in b.events && j in b.cases
    ensures Settled(ApplyEvent(b, key, j, kind).settlements, i) <==> Settled(b.settlements, i) || (kind.PaidEvent? && i == j)
  {
    hide Settled, Move, RaisedAlert;
    if kind.PaidEvent? {
      var row := SettlementFor(j, b.cases[j], UnpaidTerminal(b.cases[j].status), key);
      assert row.intent == j && row.reference == PaidReference(j);
      hide SettlementFor;
      SettleAddsItsIntent(b, row, i);
    }
  }

  function Paying(i: IntentId): (Book, Step) -> bool {
    (b: Book, s: Step) => PaysIntent(b, s, i)
  }

  /** Some step of the run is such a step, in the book it meets. */
  predicate Sometime(steps: seq<Step>, p: (Book, Step) -> bool) {
    exists n :: 0 <= n < |steps| && p(Run(EMPTY, steps[..n]), steps[n])
  }

  lemma SometimeGrows(steps: seq<Step>, p: (Book, Step) -> bool)
    requires steps != []
    ensures var last := |steps| - 1;
            Sometime(steps, p) <==> Sometime(steps[..last], p) || p(Run(EMPTY, steps[..last]), steps[last])
  {
    var last := |steps| - 1;
    var before := steps[..last];
    hide Run;
    assert forall n :: 0 <= n < last ==> before[..n] == steps[..n] && before[n] == steps[n];
    if Sometime(before, p) {
      var n :| 0 <= n < |before| && p(Run(EMPTY, before[..n]), before[n]);
      assert p(Run(EMPTY, steps[..n]), steps[n]);
    }
  }

  /** After any run an intent is settled exactly when some step of the run processed a paid event for it. */
  lemma {:induction false} SettledExactlyByPaidEvents(steps: seq<Step>, i: IntentId)
    ensures Settled(Run(EMPTY, steps).settlements, i) <==> Sometime(steps, Paying(i))
    decreases |steps|
  {
    if steps == [] {
      assert Run(EMPTY, steps) == EMPTY;
    } else {
      var last := |steps| - 1;
      var before := steps[..last];
      RunKeepsBook(EMPTY, before);
      LastStep(EMPTY, steps);
      StepSettlesExactly(Run(EMPTY, before), steps[last], i);
      SettledExactlyByPaidEvents(before, i);
      SometimeGrows(steps, Paying(i));
      hide Run, Apply, BookOk, PaysIntent, Settled, Sometime;
    }
  }

  lemma LastStep(b: Book, steps: seq<Step>)
    requires steps != []
    ensures Run(b, steps) == Apply(Run(b, steps[..|steps| - 1]), steps[|steps| - 1])
  {
    var last := |steps| - 1;
    assert steps == steps[..last] + [steps[last]];
    RunSplits(b, steps[..last], [steps[last]]);
    StepThenRun(Run(b, steps[..last]), steps[last], []);
    assert [steps[last]] + [] == [steps[last]];
    hide Run, Apply, FreshRun;
  }

  // ---------------------------------------------------------------------------
  // The order row: every run, every interleaving
  // ---------------------------------------------------------------------------

  /** The step processes a paid event for the intent and finds it unpaid. */
  predicate MarksOrderPaid(b: Book, s: Step, i: IntentId) {
    PaysIntent(b, s, i) && i in b.cases && !b.cases[i].status.Paid?
  }

  /** The step is the order write of a closing call on the intent. */
  predicate SpoilsOrder(b: Book, s: Step, i: IntentId) {
    s.Act? && s.intent == i && i in b.cases && WritesOrder(b.cases[i], s.move)
  }

  predicate OrderPaidIn(b: Book, i: IntentId) {
    i in b.cases && b.cases[i].order.payment.OrderPaid?
  }

  lemma AppliedEventMovesOneCase(b: Book, key: EventKey, j: IntentId, kind: Normalized)
    requires key in b.events && j in b.cases
    ensures ApplyEvent(b, key, j, kind).cases == b.cases[j := Move(b.cases[j], Callback(kind))]
  {
    hide Move, SettlementFor, RaisedAlert;
  }

  /** What processing an event does to the cases: it moves one of them, or none. */
  lemma ProcessMovesOneCase(b: Book, key: EventKey)
    requires BookOk(b) && key in b.events
    ensures var ev := b.events[key]; var e := ProcessEvent(b, key);
      && (ev.state.Processed? ==>
            && ev.intent.Some? && ev.intent.value in b.cases
            && e == b.(cases := b.cases[ev.intent.value := Move(b.cases[ev.intent.value], Redelivered)]))
      && (!ev.state.Processed? ==>
            var why := Check(b, key, ev.body);
            && (why.Some? ==> e.cases == b.cases && key in e.events && e.events[key].state.Quarantined?)
            && (why.None? ==>
                  var j := Resolve(b, key, ev.body).intent;
                  && e.cases == b.cases[j := Move(b.cases[j], Callback(ev.body.kind.value))]
                  && key in e.events && e.events[key].state.Processed? && e.events[key].intent == Some(j)))
  {
    assert EventRowOk(b, key, b.events[key]);
    hide NamedIntent, CasesOk, SettlementsOk, SettledExactlyWhenPaid, OutboxOk, JournalsOk, Resolve, Move;
    if !b.events[key].state.Processed? && Check(b, key, b.events[key].body).None? {
      AppliedEventMovesOneCase(b, key, Resolve(b, key, b.events[key].body).intent, b.events[key].body.kind.value);
    }
  }

  lemma ProcessMarksExactly(b: Book, key: EventKey, i: IntentId)
    requires BookOk(b)
    ensures OrderPaidIn(ProcessEvent(b, key), i) <==> OrderPaidIn(b, i) || MarksOrderPaid(b, Process(key), i)
  {
    if key in b.events {
      ProcessMovesOneCase(b, key);
      if i in b.cases {
        OrderMovesExactly(b.cases[i], Redelivered);
        if b.events[key].body.kind.Some? {
          OrderMovesExactly(b.cases[i], Callback(b.events[key].body.kind.value));
        }
      }
      hide Move, BookOk, ProcessEvent, Resolve;
    }
  }

  lemma ActMarksExactly(b: Book, i: IntentId, m: CaseMove)
    requires i in b.cases && !m.Callback? && !m.Redelivered?
    ensures OrderPaidIn(ActOn(b, i, m), i) <==> OrderPaidIn(b, i) && !WritesOrder(b.cases[i], m)
  {
    OrderMovesExactly(b.cases[i], m);
    if m.Proceed? {
      OrderMovesExactly(b.cases[i], Crash(m.call));
    }
    hide Move, NextWrite;
  }

  lemma StepMarksExactly(b: Book, s: Step, i: IntentId)
    requires BookOk(b)
    ensures OrderPaidIn(Apply(b, s), i) <==> MarksOrderPaid(b, s, i) || (OrderPaidIn(b, i) && !SpoilsOrder(b, s, i))
  {
    hide BookOk, ProcessEvent, ActOn, WritesOrder, Check, Resolve;
    match s
    case Process(key) => ProcessMarksExactly(b, key, i);
    case Act(j, m) =>
      if j == i && i in b.cases {
        if m.Callback? || m.Redelivered? {
          OnlyProceedsWriteOrders(b.cases[i], m);
        } else {
          ActMarksExactly(b, i, m);
        }
      } else if j in b.cases && !m.Callback? && !m.Redelivered? {
        ActLeavesOthers(b, j, m, i);
      }
    case _ =>
  }

  lemma OnlyProceedsWriteOrders(c: Case, m: CaseMove)
    requires !m.Proceed?
    ensures !WritesOrder(c, m)
  {
  }

  lemma ActLeavesOthers(b: Book, j: IntentId, m: CaseMove, i: IntentId)
    requires j in b.cases && i != j
    ensures OrderPaidIn(ActOn(b, j, m), i) <==> OrderPaidIn(b, i)
  {
    hide Move, ActivationKey;
  }

  /** The last word on the order row: some step marked it PAID, and no later one wrote over it. */
  predicate MarkedLast(steps: seq<Step>, i: IntentId) {
    exists n :: 0 <= n < |steps| && MarksOrderPaid(Run(EMPTY, steps[..n]), steps[n], i) && Unspoiled(steps, n, i)
  }

  predicate Unspoiled(steps: seq<Step>, n: nat, i: IntentId) {
    forall m :: n < m < |steps| ==> !SpoilsOrder(Run(EMPTY, steps[..m]), steps[m], i)
  }

  lemma UnspoiledPrefix(steps: seq<Step>, n: nat, i: IntentId)
    requires n + 1 < |steps|
    ensures var last := |steps| - 1;
            Unspoiled(steps, n, i) <==> Unspoiled(steps[..last], n, i) && !SpoilsOrder(Run(EMPTY, steps[..last]), steps[last], i)
  {
    var last := |steps| - 1;
    hide Run, SpoilsOrder;
    forall m | n < m < last
      ensures SpoilsOrder(Run(EMPTY, steps[..last][..m]), steps[..last][m], i) <==> SpoilsOrder(Run(EMPTY, steps[..m]), steps[m], i)
    {
      assert steps[..last][..m] == steps[..m];
    }
  }

  /** After any run the order of an intent is PAID exactly when some paid callback found the intent unpaid and
      no closing call wrote the order after the last one that did. */
  lemma {:induction false} OrderIsPaidExactly(steps: seq<Step>, i: IntentId)
    ensures OrderPaidIn(Run(EMPTY, steps), i) <==> MarkedLast(steps, i)
    decreases |steps|
  {
    if steps == [] {
      assert Run(EMPTY, steps) == EMPTY;
    } else {
      var last := |steps| - 1;
      var before := steps[..last];
      RunKeepsBook(EMPTY, before);
      LastStep(EMPTY, steps);
      var b := Run(EMPTY, before);
      StepMarksExactly(b, steps[last], i);
      OrderIsPaidExactly(before, i);
      MarkedLastGrows(steps, i);
      hide Run, Apply, BookOk, MarksOrderPaid, SpoilsOrder, OrderPaidIn, MarkedLast;
    }
  }

  lemma MarkedLastGrows(steps: seq<Step>, i: IntentId)
    requires steps != []
    ensures var last := |steps| - 1; var b := Run(EMPTY, steps[..last]);
            MarkedLast(steps, i) <==> MarksOrderPaid(b, steps[last], i) || (MarkedLast(steps[..last], i) && !SpoilsOrder(b, steps[last], i))
  {
    hide Run, MarksOrderPaid, SpoilsOrder;
    var last := |steps| - 1;
    var before := steps[..last];
    forall n | 0 <= n < last
      ensures before[..n] == steps[..n] && before[n] == steps[n]
      ensures Unspoiled(steps, n, i) <==> Unspoiled(before, n, i) && !SpoilsOrder(Run(EMPTY, before), steps[last], i)
    {
      UnspoiledPrefix(steps, n, i);
    }
    assert Unspoiled(steps, last, i);
    hide Unspoiled;
    if MarkedLast(before, i) && !SpoilsOrder(Run(EMPTY, before), steps[last], i) {
      var n :| 0 <= n < |before| && MarksOrderPaid(Run(EMPTY, before[..n]), before[n], i) && Unspoiled(before, n, i);
      assert MarksOrderPaid(Run(EMPTY, steps[..n]), steps[n], i) && Unspoiled(steps, n, i);
    }
    if MarkedLast(steps, i) && !MarksOrderPaid(Run(EMPTY, before), steps[last], i) {
      var n :| 0 <= n < |steps| && MarksOrderPaid(Run(EMPTY, steps[..n]), steps[n], i) && Unspoiled(steps, n, i);
      assert n != last;
      assert MarksOrderPaid(Run(EMPTY, before[..n]), before[n], i) && Unspoiled(before, n, i);
    }
  }

  lemma StepEvolves(b: Book, s: Step)
    ensures Evolves(b, Apply(b, s))
  {
    forall i | i in b.cases
      ensures i in Apply(b, s).cases && Continues(b.cases[i], Apply(b, s).cases[i])
    {
      match s
      case Process(key) => ProcessContinues(b, key, i);
      case Act(j, m) =>
        MoveContinues(b.cases[i], m);
        if m.Proceed? {
          MoveContinues(b.cases[i], Crash(m.call));
        }
      case _ =>
    }
  }

  lemma ProcessContinues(b: Book, key: EventKey, i: IntentId)
    requires i in b.cases
    ensures i in ProcessEvent(b, key).cases && Continues(b.cases[i], ProcessEvent(b, key).cases[i])
  {
    var c := b.cases[i];
    MoveContinues(c, Redelivered);
    if key in b.events && b.events[key].body.kind.Some? {
      MoveContinues(c, Callback(b.events[key].body.kind.value));
    }
  }

  lemma {:induction false} RunEvolves(b: Book, steps: seq<Step>)
    ensures Evolves(b, Run(b, steps))
    decreases |steps|
  {
    if steps != [] {
      var e := Apply(b, steps[0]);
      StepEvolves(b, steps[0]);
      RunEvolves(e, steps[1..]);
      forall i | i in b.cases
        ensures i in Run(b, steps).cases && Continues(b.cases[i], Run(b, steps).cases[i])
      {
        assert Continues(b.cases[i], e.cases[i]);
      }
    }
  }

  /** What is settled and posted is the price the checkout stored, whatever happened in between
      and whatever the callbacks said. */
  lemma SettledAsPlaced(before: seq<Step>, place: Step, after: seq<Step>)
    requires MayPlace(Run(EMPTY, before), place)
    ensures var b := Run(EMPTY, before + [place] + after);
      && (forall r :: r in b.settlements && r.intent == place.intent ==>
            r.gross == place.order.gross && r.fee == place.order.fee && r.net == place.order.net)
      && (forall j :: j in b.journals && j.intent == place.intent ==>
            j.gross == place.order.gross && j.feePercent + j.feeFixed == place.order.fee && j.net == place.order.net)
  {
    var b0 := Run(EMPTY, before);
    var b1 := Apply(b0, place);
    var b := Run(EMPTY, before + [place] + after);
    RunSplits(EMPTY, before + [place], after);
    RunSplits(EMPTY, before, [place]);
    assert Run(b0, [place]) == Run(b1, []) == b1;
    RunEvolves(b1, after);
    assert Continues(b1.cases[place.intent], b.cases[place.intent]);
    RunKeepsBook(EMPTY, before + [place] + after);
    assert forall r :: r in b.settlements ==> SettlementRowOk(b, r);
    assert forall j :: j in b.journals ==> JournalRowOk(b, j);
  }

  // ---------------------------------------------------------------------------
  // Callbacks: isolation and repetition
  // ---------------------------------------------------------------------------

  /** An event touches at most one intent, and only one with the provider, account scope and
      mode of the event's own endpoint; a duplicate the one it was processed for. */
  lemma EventsReachOnlyTheirIntent(b: Book, key: EventKey, i: IntentId)
    requires BookOk(b) && i in b.cases && ProcessEvent(b, key).cases[i] != b.cases[i]
    ensures RefMatches(b.cases[i].terms, Endpoint(key))
    ensures forall j :: j in b.cases && j != i ==> ProcessEvent(b, key).cases[j] == b.cases[j]
  {
    ProcessMovesOneCase(b, key);
    assert EventRowOk(b, key, b.events[key]);
    hide Move, EventRowOk, ProcessEvent, Check, CasesOk, SettlementsOk, JournalsOk, OutboxOk, SettledExactlyWhenPaid;
    if !b.events[key].state.Processed? {
      CheckedEventFits(b, key, b.events[key].body);
    }
  }

  /** The same tables, and the same cases but for effects becoming due. */
  ghost predicate OnlyMakesEffectsDue(b: Book, e: Book) {
    && e.settlements == b.settlements && e.outbox == b.outbox && e.journals == b.journals
    && e.cases.Keys == b.cases.Keys
    && forall i :: i in b.cases ==> e.cases[i] == b.cases[i].(effectsDue := e.cases[i].effectsDue)
  }

  lemma ProcessedEventOnlyMakesEffectsDue(b: Book, key: EventKey)
    requires key in b.events && b.events[key].state.Processed?
    ensures OnlyMakesEffectsDue(b, ProcessEvent(b, key))
  {
  }

  lemma CheckedEventEndsProcessed(b: Book, key: EventKey)
    requires key in b.events && !b.events[key].state.Processed? && Check(b, key, b.events[key].body).None?
    ensures key in ProcessEvent(b, key).events && ProcessEvent(b, key).events[key].state.Processed?
  {
  }

  lemma QuarantineRepeats(b: Book, key: EventKey)
    requires key in b.events && !b.events[key].state.Processed? && Check(b, key, b.events[key].body).Some?
    ensures OnlyMakesEffectsDue(ProcessEvent(b, key), ProcessEvent(ProcessEvent(b, key), key))
  {
    var once := ProcessEvent(b, key);
    assert Check(once, key, once.events[key].body) == Check(b, key, b.events[key].body);
  }

  /** Processing an event again changes no money row and no hold: it only makes effects due. */
  lemma ProcessingTwiceIsOnce(b: Book, key: EventKey)
    ensures OnlyMakesEffectsDue(ProcessEvent(b, key), ProcessEvent(ProcessEvent(b, key), key))
  {
    if key in b.events {
      if b.events[key].state.Processed? {
        ProcessedEventOnlyMakesEffectsDue(ProcessEvent(b, key), key);
      } else if Check(b, key, b.events[key].body).None? {
        CheckedEventEndsProcessed(b, key);
        ProcessedEventOnlyMakesEffectsDue(ProcessEvent(b, key), key);
      } else {
        QuarantineRepeats(b, key);
      }
    }
  }

  // ---------------------------------------------------------------------------
  // PAID and the holds
  // ---------------------------------------------------------------------------

  ghost predicate OrderlyBook(b: Book) {
    BookOk(b) && forall i :: i in b.cases ==> OrderlyCase(b.cases[i])
  }

  /** A call that writes a status finds its row as it left it. */
  predicate FreshStep(b: Book, s: Step) {
    s.Act? && s.intent in b.cases ==> Fresh(b.cases[s.intent], s.move)
  }

  predicate FreshRun(b: Book, steps: seq<Step>)
    decreases |steps|
  {
    steps == [] || (FreshStep(b, steps[0]) && FreshRun(Apply(b, steps[0]), steps[1..]))
  }

  /** What a fresh step may make of a case. */
  ghost predicate GrewOrderly(c: Case, d: Case) {
    OrderlyCase(d) && (c.status.Paid? ==> d.status.Paid?)
  }

  lemma ProcessGrowsOrderly(b: Book, key: EventKey, i: IntentId)
    requires i in b.cases && OrderlyCase(b.cases[i])
    ensures i in ProcessEvent(b, key).cases && GrewOrderly(b.cases[i], ProcessEvent(b, key).cases[i])
  {
    var c := b.cases[i];
    var d := ProcessEvent(b, key).cases[i];
    FreshMoveKeepsOrderlyCase(c, Redelivered);
    if key in b.events && b.events[key].body.kind.Some? {
      FreshMoveKeepsOrderlyCase(c, Callback(b.events[key].body.kind.value));
      assert d == c || d == Move(c, Redelivered) || d == Move(c, Callback(b.events[key].body.kind.value));
    }
  }

  lemma ActGrowsOrderly(b: Book, i: IntentId, m: CaseMove)
    requires i in b.cases && OrderlyCase(b.cases[i]) && Fresh(b.cases[i], m)
    ensures GrewOrderly(b.cases[i], ActOn(b, i, m).cases[i])
  {
    var c := b.cases[i];
    FreshMoveKeepsOrderlyCase(c, m);
    if m.Proceed? {
      FreshMoveKeepsOrderlyCase(c, Crash(m.call));
    }
    assert ActOn(b, i, m).cases[i] == Move(c, m) || (m.Proceed? && ActOn(b, i, m).cases[i] == Move(c, Crash(m.call)));
  }

  lemma StepGrowsOrderly(b: Book, s: Step, i: IntentId)
    requires i in b.cases && OrderlyCase(b.cases[i]) && FreshStep(b, s)
    ensures i in Apply(b, s).cases && GrewOrderly(b.cases[i], Apply(b, s).cases[i])
  {
    match s
    case Process(key) => ProcessGrowsOrderly(b, key, i);
    case Act(j, m) =>
      if j == i && !m.Callback? && !m.Redelivered? {
        ActGrowsOrderly(b, i, m);
      }
    case _ =>
  }

  lemma StepAddsOrderly(b: Book, s: Step, i: IntentId)
    requires i !in b.cases && i in Apply(b, s).cases
    ensures OrderlyCase(Apply(b, s).cases[i])
  {
    assert s.Place? && MayPlace(b, s) by {
      match s
      case Process(key) =>
      case _ =>
    }
    NewCaseIsOrderly(s.terms, s.order, s.coupon, s.stock);
  }

  lemma FreshStepKeepsOrder(b: Book, s: Step)
    requires OrderlyBook(b) && FreshStep(b, s)
    ensures OrderlyBook(Apply(b, s))
    ensures forall i :: i in b.cases && b.cases[i].status.Paid? ==>
              i in Apply(b, s).cases && Apply(b, s).cases[i].status.Paid?
  {
    StepKeepsBook(b, s);
    forall i | i in b.cases
      ensures i in Apply(b, s).cases && GrewOrderly(b.cases[i], Apply(b, s).cases[i])
    {
      StepGrowsOrderly(b, s, i);
    }
    forall i | i in Apply(b, s).cases && i !in b.cases
      ensures OrderlyCase(Apply(b, s).cases[i])
    {
      StepAddsOrderly(b, s, i);
    }
  }

  lemma {:induction false} FreshRunKeepsOrder(b: Book, steps: seq<Step>)
    requires OrderlyBook(b) && FreshRun(b, steps)
    ensures OrderlyBook(Run(b, steps))
    ensures forall i :: i in b.cases && b.cases[i].status.Paid? ==>
              i in Run(b, steps).cases && Run(b, steps).cases[i].status.Paid?
    decreases |steps|
  {
    if steps != [] {
      FreshStepKeepsOrder(b, steps[0]);
      FreshRunKeepsOrder(Apply(b, steps[0]), steps[1..]);
    }
  }

  /** With no stale status write, an intent is PAID exactly when a paid callback was applied to it or a
      provider query answered PAID; it never leaves PAID; an open intent still owns its holds exactly
      unless a refused create is giving them back; a hold is freed only once the intent was closed unpaid or its
      create was refused, and used only if it is PAID. */
  lemma FreshRunsPayOnEvidence(first: seq<Step>, rest: seq<Step>)
    requires FreshRun(EMPTY, first) && FreshRun(Run(EMPTY, first), rest)
    ensures var b := Run(EMPTY, first); var e := Run(b, rest);
      && (forall i :: i in b.cases && b.cases[i].status.Paid? ==> i in e.cases && e.cases[i].status.Paid?)
      && (forall i :: i in e.cases ==> PaysOnEvidence(e.cases[i]))
  {
    FreshRunKeepsOrder(EMPTY, first);
    FreshRunKeepsOrder(Run(EMPTY, first), rest);
    var e := Run(Run(EMPTY, first), rest);
    assert forall i :: i in e.cases ==> OrderlyCase(e.cases[i]);
  }

  predicate PaysOnEvidence(c: Case) {
    && (c.status.Paid? <==> PaidProof(c))
    && (Open(c.status) ==> (HoldsLive(c) <==> !c.past.rejected))
    && (SomeHoldFreed(c) ==> (c.past.closed && !Open(c.status)) || c.past.rejected)
    && (SomeHoldUsed(c) ==> c.status.Paid?)
  }

  /** In any book at all, a step takes an intent out of PAID exactly when it is a call on that intent that
      writes another status, with no clash of provider references. */
  lemma PaidIsLeftExactlyByStaleWrites(b: Book, s: Step, i: IntentId)
    requires i in b.cases && b.cases[i].status.Paid?
    ensures i in Apply(b, s).cases
    ensures !Apply(b, s).cases[i].status.Paid? <==>
      && s.Act? && s.intent == i && Overwrites(b.cases[i], s.move)
      && !(ActivationKey(b.cases[i], s.move).Some? && ActivationKey(b.cases[i], s.move).value in b.byRef
           && b.byRef[ActivationKey(b.cases[i], s.move).value] != i)
  {
    match s
    case Process(key) =>
      PaidIsLeftExactlyByOverwrites(b.cases[i], Redelivered);
      if key in b.events && b.events[key].body.kind.Some? {
        PaidIsLeftExactlyByOverwrites(b.cases[i], Callback(b.events[key].body.kind.value));
      }
    case Act(j, m) =>
      PaidIsLeftExactlyByOverwrites(b.cases[i], m);
      if m.Proceed? {
        PaidIsLeftExactlyByOverwrites(b.cases[i], Crash(m.call));
      }
    case _ =>
  }

  /** The step is the write of a call on the intent to which the provider answered PAID. */
  predicate HearsPaid(b: Book, s: Step, i: IntentId) {
    s.Act? && s.intent == i && i in b.cases && s.move.Proceed? && WritesPaidAnswer(b.cases[i], s.move.call)
  }

  predicate WritesPaidAnswer(c: Case, id: nat) {
    Answered(c, id) && !c.calls[id].kind.CreateCall? && c.calls[id].answer.value == Reply(Paid) && c.calls[id].done == 0
  }

  function Hearing(i: IntentId): (Book, Step) -> bool {
    (b: Book, s: Step) => HearsPaid(b, s, i)
  }

  predicate AnsweredPaid(b: Book, i: IntentId) {
    i in b.cases && b.cases[i].past.paidAnswer
  }

  lemma PaidWriteExactly(k: Call)
    requires k.answer.Some? && k.done < |WritesOf(k)|
    ensures var w := WritesOf(k)[k.done];
            w.SetStatus? && w.to.Paid? <==> !k.kind.CreateCall? && k.answer.value == Reply(Paid) && k.done == 0
  {
  }

  lemma PaidAnswersWrite(k: Call)
    requires k.answer.Some? && !k.kind.CreateCall? && k.answer.value == Reply(Paid)
    ensures |WritesOf(k)| == 1
  {
  }

  lemma MoveAnswersExactly(c: Case, m: CaseMove)
    ensures Move(c, m).past.paidAnswer <==> c.past.paidAnswer || (m.Proceed? && WritesPaidAnswer(c, m.call))
  {
    hide ProceedCall, ApplyCallback, WritesPaidAnswer;
    match m
    case Callback(kind) => CallbackKeepsAnswer(c, kind);
    case Proceed(id) => ProceedAnswersExactly(c, id);
    case _ =>
  }

  lemma ProceedAnswersExactly(c: Case, id: nat)
    ensures ProceedCall(c, id).past.paidAnswer <==> c.past.paidAnswer || WritesPaidAnswer(c, id)
  {
    if Answered(c, id) {
      if WritesPaidAnswer(c, id) {
        PaidAnswersWrite(c.calls[id]);
      }
      if NextWrite(c, id).Some? {
        PaidWriteExactly(c.calls[id]);
        WriteAnswersExactly(c, NextWrite(c, id).value);
      }
      hide WritesOf, DoWrite;
    }
  }

  lemma WriteAnswersExactly(c: Case, w: Write)
    ensures DoWrite(c, w).past.paidAnswer <==> c.past.paidAnswer || (w.SetStatus? && w.to.Paid?)
  {
  }

  lemma CallbackKeepsAnswer(c: Case, kind: Normalized)
    ensures ApplyCallback(c, kind).past.paidAnswer == c.past.paidAnswer
  {
  }

  lemma ActAnswersExactly(b: Book, i: IntentId, m: CaseMove)
    requires i in b.cases && !m.Callback? && !m.Redelivered?
    ensures AnsweredPaid(ActOn(b, i, m), i) <==> AnsweredPaid(b, i) || (m.Proceed? && WritesPaidAnswer(b.cases[i], m.call))
    ensures forall j :: j != i ==> (AnsweredPaid(ActOn(b, i, m), j) <==> AnsweredPaid(b, j))
  {
    var c := b.cases[i];
    MoveAnswersExactly(c, m);
    if m.Proceed? {
      MoveAnswersExactly(c, Crash(m.call));
      if WritesPaidAnswer(c, m.call) {
        PaidAnswersWrite(c.calls[m.call]);
        PaidWriteExactly(c.calls[m.call]);
      }
    }
    hide Move, WritesOf;
  }

  lemma ProcessAnswersNothing(b: Book, key: EventKey, i: IntentId)
    requires BookOk(b)
    ensures AnsweredPaid(ProcessEvent(b, key), i) <==> AnsweredPaid(b, i)
  {
    if key in b.events {
      ProcessMovesOneCase(b, key);
      if i in b.cases {
        MoveAnswersExactly(b.cases[i], Redelivered);
        if b.events[key].body.kind.Some? {
          MoveAnswersExactly(b.cases[i], Callback(b.events[key].body.kind.value));
        }
      }
      hide Move, BookOk, ProcessEvent, Resolve;
    }
  }

  lemma StepAnswersExactly(b: Book, s: Step, i: IntentId)
    requires BookOk(b)
    ensures AnsweredPaid(Apply(b, s), i) <==> AnsweredPaid(b, i) || HearsPaid(b, s, i)
  {
    hide BookOk, ProcessEvent, ActOn, WritesPaidAnswer;
    match s
    case Process(key) => ProcessAnswersNothing(b, key, i);
    case Act(j, m) =>
      if j in b.cases && !m.Callback? && !m.Redelivered? {
        ActAnswersExactly(b, j, m);
      }
    case _ =>
  }

  lemma {:induction false} AnsweredExactlyByCalls(steps: seq<Step>, i: IntentId)
    ensures AnsweredPaid(Run(EMPTY, steps), i) <==> Sometime(steps, Hearing(i))
    decreases |steps|
  {
    if steps == [] {
      assert Run(EMPTY, steps) == EMPTY;
    } else {
      var last := |steps| - 1;
      var before := steps[..last];
      RunKeepsBook(EMPTY, before);
      LastStep(EMPTY, steps);
      StepAnswersExactly(Run(EMPTY, before), steps[last], i);
      AnsweredExactlyByCalls(before, i);
      SometimeGrows(steps, Hearing(i));
      hide Run, Apply, BookOk, HearsPaid, AnsweredPaid, Sometime;
    }
  }

  /** After any run at all, a PAID intent was paid by an event that some step processed for it, or by a call to which
      the provider answered PAID; and while calls find their rows unmoved, every such intent is PAID. */
  lemma PaidExactlyOnEvidence(steps: seq<Step>, i: IntentId)
    requires i in Run(EMPTY, steps).cases
    ensures Run(EMPTY, steps).cases[i].status.Paid? ==> Sometime(steps, Paying(i)) || Sometime(steps, Hearing(i))
    ensures FreshRun(EMPTY, steps) ==>
              (Run(EMPTY, steps).cases[i].status.Paid? <==> Sometime(steps, Paying(i)) || Sometime(steps, Hearing(i)))
  {
    SettledExactlyByPaidEvents(steps, i);
    AnsweredExactlyByCalls(steps, i);
    RunKeepsBook(EMPTY, steps);
    hide Run, Sometime, FreshRun;
    PaidHasProof(Run(EMPTY, steps), i);
    if FreshRun(EMPTY, steps) {
      EmptyIsOrderly();
      FreshRunKeepsOrder(EMPTY, steps);
      OrderlyIsProved(Run(EMPTY, steps), i);
    }
    hide BookOk, OrderlyBook, Settled;
  }

  lemma EmptyIsOrderly()
    ensures OrderlyBook(EMPTY)
  {
  }

  lemma PaidHasProof(b: Book, i: IntentId)
    requires BookOk(b) && i in b.cases
    ensures b.cases[i].status.Paid? ==> Settled(b.settlements, i) || b.cases[i].past.paidAnswer
    ensures Settled(b.settlements, i) <==> b.cases[i].past.paidCallback
  {
    assert CaseOk(b.cases[i]);
  }

  lemma OrderlyIsProved(b: Book, i: IntentId)
    requires OrderlyBook(b) && i in b.cases
    ensures b.cases[i].status.Paid? <==> b.cases[i].past.paidCallback || b.cases[i].past.paidAnswer
  {
    assert OrderlyCase(b.cases[i]);
    hide BookOk;
  }

  // ---------------------------------------------------------------------------
  // Serial use: every service call runs from its first step to its last
  // ---------------------------------------------------------------------------

  /** A service operation with the provider answer it meets. */
  datatype Operation =
    | Checkout(place: Step, answer: Answer)
    | Deliver(key: EventKey, body: Body, effects: bool)
    | Replay(key: EventKey, effects: bool)
    | Ask(intent: IntentId, op: CallKind, answer: Answer)

  /** The intent whose ledger post and side effects follow the commit of ProcessEvent. */
  function PaidIntent(b: Book, key: EventKey): Option<IntentId> {
    var e := ProcessEvent(b, key);
    if key in e.events && e.events[key].state.Processed? && e.events[key].intent.Some?
       && e.events[key].intent.value in e.cases && e.cases[e.events[key].intent.value].status.Paid?
    then e.events[key].intent
    else None
  }

  function EffectSteps(i: IntentId): seq<Step> {
    [PostLedger(i), Act(i, RunEffect(ConsumeHeldCoupon)), Act(i, RunEffect(DeliverHeldStock)), Act(i, RunEffect(GrantDelivery))]
  }

  function Effects(b: Book, key: EventKey): seq<Step> {
    if PaidIntent(b, key).Some? then EffectSteps(PaidIntent(b, key).value) else []
  }

  function Acts(i: IntentId, moves: seq<CaseMove>): seq<Step>
    decreases |moves|
  {
    if moves == [] then [] else [Act(i, moves[0])] + Acts(i, moves[1..])
  }

  /** The answer to a create, and all its writes. */
  function CreateMoves(a: Answer): seq<CaseMove> {
    [Learn(0, a)] + Proceeding(0, MOST)
  }

  function Unfold(b: Book, o: Operation): seq<Step> {
    match o
    case Checkout(place, a) =>
      if MayPlace(b, place) then [place] + Acts(place.intent, CreateMoves(a)) else []
    case Deliver(key, body, effects) =>
      var accepted := Apply(b, Accept(key, body));
      [Accept(key, body), Process(key)] + if effects then Effects(accepted, key) else []
    case Replay(key, effects) =>
      var reset := Apply(b, ResetForReplay(key));
      [ResetForReplay(key), Process(key)] + if effects then Effects(reset, key) else []
    case Ask(i, op, a) =>
      Acts(i, WholeCall(1, op, a))
  }

  function Serial(b: Book, ops: seq<Operation>): seq<Step>
    decreases |ops|
  {
    if ops == [] then []
    else Unfold(b, ops[0]) + Serial(Run(b, Unfold(b, ops[0])), ops[1..])
  }

  /** No call is in flight except a create whose answer never came. */
  predicate QuietCase(c: Case) {
    forall id :: id in c.calls ==> id == 0
  }

  predicate Quiet(b: Book) {
    forall i :: i in b.cases ==> QuietCase(b.cases[i])
  }

  lemma {:induction false} FreshRunSplits(b: Book, s: seq<Step>, t: seq<Step>)
    requires FreshRun(b, s) && FreshRun(Run(b, s), t)
    ensures FreshRun(b, s + t)
    decreases |s|
  {
    if s == [] {
      assert s + t == t;
    } else {
      assert (s + t)[0] == s[0] && (s + t)[1..] == s[1..] + t;
      FreshRunSplits(Apply(b, s[0]), s[1..], t);
    }
  }

  lemma StepThenRun(b: Book, s: Step, t: seq<Step>)
    ensures Run(b, [s] + t) == Run(Apply(b, s), t)
    ensures FreshRun(b, [s] + t) <==> FreshStep(b, s) && FreshRun(Apply(b, s), t)
    ensures t == [] ==> Run(b, [s] + t) == Apply(b, s) && (FreshRun(b, [s] + t) <==> FreshStep(b, s))
  {
    assert ([s] + t)[1..] == t;
    hide Apply, FreshStep;
  }

  lemma FourSteps(b: Book, s0: Step, s1: Step, s2: Step, s3: Step)
    ensures var b1 := Apply(b, s0); var b2 := Apply(b1, s1); var b3 := Apply(b2, s2);
            && Run(b, [s0, s1, s2, s3]) == Apply(b3, s3)
            && (FreshRun(b, [s0, s1, s2, s3]) <==>
                  FreshStep(b, s0) && FreshStep(b1, s1) && FreshStep(b2, s2) && FreshStep(b3, s3))
  {
    hide Apply, FreshStep, Run, FreshRun;
    var b1 := Apply(b, s0);
    var b2 := Apply(b1, s1);
    var b3 := Apply(b2, s2);
    StepThenRun(b, s0, [s1, s2, s3]);
    StepThenRun(b1, s1, [s2, s3]);
    StepThenRun(b2, s2, [s3]);
    StepThenRun(b3, s3, []);
    assert [s0, s1, s2, s3] == [s0] + [s1, s2, s3] && [s1, s2, s3] == [s1] + [s2, s3];
    assert [s2, s3] == [s2] + [s3] && [s3] == [s3] + [];
  }

  // Moves of one intent, in a book and in its case

  /** No callback, and no write of a provider reference. */
  predicate Passive(c: Case, moves: seq<CaseMove>)
    decreases |moves|
  {
    moves == [] || (!moves[0].Callback? && !moves[0].Redelivered? && ActivationKey(c, moves[0]).None? && Passive(Move(c, moves[0]), moves[1..]))
  }

  function WithCase(b: Book, i: IntentId, c: Case): Book {
    b.(cases := b.cases[i := c])
  }

  lemma Overwritten<K, V>(m: map<K, V>, k: K, x: V, y: V)
    ensures m[k := x][k := y] == m[k := y]
  {
  }

  lemma {:induction false} ActsRun(b: Book, i: IntentId, moves: seq<CaseMove>)
    requires i in b.cases && Passive(b.cases[i], moves)
    ensures Run(b, Acts(i, moves)) == WithCase(b, i, RunCase(b.cases[i], moves))
    ensures FreshRun(b, Acts(i, moves)) <==> FreshMoves(b.cases[i], moves)
    decreases |moves|
  {
    if moves == [] {
      assert b.cases[i := b.cases[i]] == b.cases;
    } else {
      var c := b.cases[i];
      var e := WithCase(b, i, Move(c, moves[0]));
      assert Apply(b, Act(i, moves[0])) == e;
      hide Apply, Move, ActivationKey, Fresh;
      StepThenRun(b, Act(i, moves[0]), Acts(i, moves[1..]));
      ActsRun(e, i, moves[1..]);
      Overwritten(b.cases, i, Move(c, moves[0]), RunCase(c, moves));
    }
  }

  lemma {:induction false} PassiveSplits(c: Case, s: seq<CaseMove>, t: seq<CaseMove>)
    requires Passive(c, s) && Passive(RunCase(c, s), t)
    ensures Passive(c, s + t)
    decreases |s|
  {
    hide Move, ActivationKey;
    if s == [] {
      assert s + t == t;
    } else {
      assert (s + t)[1..] == s[1..] + t;
      PassiveSplits(Move(c, s[0]), s[1..], t);
    }
  }

  /** Only the activation of a created payment writes a reference. */
  predicate NeverActivates(c: Case, id: nat) {
    Answered(c, id) ==> !Conclude(c.calls[id]).Activate?
  }

  lemma OtherConclusionsKeepReferences(o: Conclusion, n: nat)
    requires !o.Activate? && n < |Writes(o)|
    ensures !Writes(o)[n].SetActive?
  {
  }

  lemma TurnKeepsReferences(c: Case, id: nat)
    requires NeverActivates(c, id)
    ensures ActivationKey(c, Proceed(id)).None? && NeverActivates(Move(c, Proceed(id)), id)
  {
    if NextWrite(c, id).Some? {
      var k := c.calls[id];
      OtherConclusionsKeepReferences(Conclude(k), k.done);
      ConcludeIgnoresDone(k, k.done + 1);
    }
    hide Conclude, Writes, DoWrite;
  }

  lemma {:induction false} ProceedingIsPassive(c: Case, id: nat, n: nat)
    requires NeverActivates(c, id)
    ensures Passive(c, Proceeding(id, n))
    decreases n
  {
    if n > 0 {
      assert Proceeding(id, n)[1..] == Proceeding(id, n - 1) && Proceeding(id, n)[0] == Proceed(id);
      TurnKeepsReferences(c, id);
      hide Move, ActivationKey, NeverActivates;
      ProceedingIsPassive(Move(c, Proceed(id)), id, n - 1);
    }
  }

  lemma AskedCallKeepsReferences(c: Case, op: CallKind, a: Answer)
    requires 1 !in c.calls
    ensures NeverActivates(LearnAnswer(BeginCall(c, 1, op), 1, a), 1)
  {
    hide HasReference, Admissible, Conclude;
    assert MayBegin(c, op) ==> !op.CreateCall?;
    var d := LearnAnswer(BeginCall(c, 1, op), 1, a);
    if Answered(d, 1) {
      OnlyCreatesActivate(d.calls[1]);
    }
  }

  lemma OnlyCreatesActivate(k: Call)
    requires k.answer.Some? && !k.kind.CreateCall?
    ensures !Conclude(k).Activate?
  {
  }

  lemma WholeCallIsPassive(c: Case, op: CallKind, a: Answer)
    requires 1 !in c.calls
    ensures Passive(c, WholeCall(1, op, a))
  {
    var d := LearnAnswer(BeginCall(c, 1, op), 1, a);
    AskedCallKeepsReferences(c, op, a);
    ProceedingIsPassive(d, 1, MOST);
    hide NeverActivates, BeginCall, LearnAnswer, Proceeding;
    var end := RunCase(d, Proceeding(1, MOST));
    assert Passive(end, [Crash(1)]) by {
      assert [Crash(1)][1..] == [];
    }
    PassiveSplits(d, Proceeding(1, MOST), [Crash(1)]);
    PassiveTwo(c, Begin(1, op), Learn(1, a), Proceeding(1, MOST) + [Crash(1)]);
  }

  lemma PassiveTwo(c: Case, m: CaseMove, n: CaseMove, rest: seq<CaseMove>)
    requires !m.Callback? && !m.Redelivered? && !m.Proceed? && !n.Callback? && !n.Redelivered? && !n.Proceed?
    requires Passive(Move(Move(c, m), n), rest)
    ensures Passive(c, [m, n] + rest)
  {
    assert ([m, n] + rest)[1..] == [n] + rest && ([n] + rest)[1..] == rest;
    hide Move;
  }

  // No call is left behind

  lemma MoveAddsNoCall(c: Case, m: CaseMove)
    ensures Move(c, m).calls.Keys <= c.calls.Keys + (if m.Begin? then {m.call} else {})
  {
    hide DoWrite, Conclude, WritesOf;
    match m
    case Proceed(id) =>
      if NextWrite(c, id).Some? {
        WriteLeavesCalls(c, NextWrite(c, id).value, c.calls);
      }
    case Callback(kind) => CallbackKeepsCalls(c, kind);
    case _ =>
  }

  lemma {:induction false} RunAddsNoCall(c: Case, moves: seq<CaseMove>, id: nat)
    requires forall k :: 0 <= k < |moves| ==> moves[k].Begin? ==> moves[k].call == id
    ensures RunCase(c, moves).calls.Keys <= c.calls.Keys + {id}
    decreases |moves|
  {
    hide Move;
    if moves != [] {
      MoveAddsNoCall(c, moves[0]);
      RunAddsNoCall(Move(c, moves[0]), moves[1..], id);
    }
  }

  lemma {:induction false} OnlyProceeds(id: nat, n: nat)
    ensures forall k :: 0 <= k < |Proceeding(id, n)| ==> Proceeding(id, n)[k] == Proceed(id)
  {
    if n > 0 {
      OnlyProceeds(id, n - 1);
    }
  }

  lemma WholeCallEndsQuiet(c: Case, op: CallKind, a: Answer)
    requires QuietCase(c)
    ensures QuietCase(RunCase(c, WholeCall(1, op, a)))
  {
    var all := [Begin(1, op), Learn(1, a)] + Proceeding(1, MOST);
    OnlyProceeds(1, MOST);
    assert WholeCall(1, op, a) == all + [Crash(1)];
    hide Proceeding, WholeCall;
    RunAddsNoCall(c, all, 1);
    RunCaseSplits(c, all, [Crash(1)]);
    RunCaseOne(RunCase(c, all), Crash(1));
    assert forall id :: id in RunCase(c, all + [Crash(1)]).calls ==> id in c.calls.Keys + {1} && id != 1;
  }

  lemma AppliedEventBeginsNoCall(b: Book, key: EventKey, i: IntentId, kind: Normalized)
    requires Quiet(b) && key in b.events && i in b.cases
    ensures Quiet(ApplyEvent(b, key, i, kind))
  {
    CallbackKeepsCalls(b.cases[i], kind);
    hide ApplyCallback, ReferenceTaken, Enqueue, RaisedAlert, SettlementFor;
  }

  lemma ProcessBeginsNoCall(b: Book, key: EventKey)
    requires Quiet(b)
    ensures Quiet(ProcessEvent(b, key))
  {
    if key in b.events && Check(b, key, b.events[key].body).None? {
      AppliedEventBeginsNoCall(b, key, Resolve(b, key, b.events[key].body).intent, b.events[key].body.kind.value);
    }
    hide Check, Resolve, NamedIntent, ApplyEvent;
  }

  lemma CallbackStepsStayQuiet(b: Book, s: Step)
    requires Quiet(b) && !s.Place? && (s.Act? ==> s.move.RunEffect?)
    ensures FreshStep(b, s) && Quiet(Apply(b, s))
  {
    hide ProcessEvent, RowUnmoved, PostJournal, Move;
    match s
    case Act(i, m) =>
      if i in b.cases {
        MoveAddsNoCall(b.cases[i], m);
      }
    case Process(key) => ProcessBeginsNoCall(b, key);
    case _ =>
  }

  lemma {:induction false} CallbackRunsStayQuiet(b: Book, steps: seq<Step>)
    requires Quiet(b)
    requires forall k :: 0 <= k < |steps| ==> !steps[k].Place? && (steps[k].Act? ==> steps[k].move.RunEffect?)
    ensures FreshRun(b, steps) && Quiet(Run(b, steps))
    decreases |steps|
  {
    if steps != [] {
      CallbackStepsStayQuiet(b, steps[0]);
      CallbackRunsStayQuiet(Apply(b, steps[0]), steps[1..]);
    }
  }

  lemma {:induction false} ActsOnNoCaseAreIdle(b: Book, i: IntentId, moves: seq<CaseMove>)
    requires i !in b.cases
    ensures Run(b, Acts(i, moves)) == b && FreshRun(b, Acts(i, moves))
    decreases |moves|
  {
    if moves != [] {
      assert Apply(b, Act(i, moves[0])) == b;
      StepThenRun(b, Act(i, moves[0]), Acts(i, moves[1..]));
      ActsOnNoCaseAreIdle(b, i, moves[1..]);
    }
  }

  lemma AskIsFresh(b: Book, i: IntentId, op: CallKind, a: Answer)
    requires Quiet(b)
    ensures FreshRun(b, Unfold(b, Ask(i, op, a))) && Quiet(Run(b, Unfold(b, Ask(i, op, a))))
  {
    hide Run, FreshRun, Acts, WholeCall, Passive, FreshMoves, RunCase;
    if i in b.cases {
      assert 1 !in b.cases[i].calls;
      WholeCallIsPassive(b.cases[i], op, a);
      ActsRun(b, i, WholeCall(1, op, a));
      WholeCallsAreFresh(b.cases[i], 1, op, a);
      WholeCallEndsQuiet(b.cases[i], op, a);
    } else {
      ActsOnNoCaseAreIdle(b, i, WholeCall(1, op, a));
    }
  }

  /** The placed row after its answer: the create call has all its writes ahead, or none to make. */
  function AnsweredCase(place: Step, a: Answer): Case
    requires place.Place?
  {
    Move(NewCase(place.terms, place.order, place.coupon, place.stock), Learn(0, a))
  }

  lemma AnsweredCaseIs(place: Step, a: Answer)
    requires place.Place?
    ensures var c := AnsweredCase(place, a);
      && c.calls.Keys == {0} && c.status.RequiresPayment? && c.calls[0].kind.CreateCall? && c.calls[0].done == 0
      && c.calls[0].answer == (if Admissible(CreateCall, a) then Some(a) else None)
      && c.terms == place.terms
  {
  }

  /** The create call of a placed intent makes its writes in a row. */
  lemma CreateIsFresh(b: Book, i: IntentId)
    requires i in b.cases && b.cases[i].calls.Keys == {0} && b.cases[i].status.RequiresPayment?
    requires b.cases[i].calls[0].kind.CreateCall? && b.cases[i].calls[0].done == 0
    ensures FreshRun(b, Acts(i, Proceeding(0, MOST)))
    ensures var e := Run(b, Acts(i, Proceeding(0, MOST)));
            i in e.cases && e.cases[i].calls.Keys <= {0} && (forall j :: j != i ==> (j in e.cases <==> j in b.cases) && (j in b.cases ==> e.cases[j] == b.cases[j]))
  {
    var c := b.cases[i];
    if NeverActivates(c, 0) {
      ProceedingIsPassive(c, 0, MOST);
      hide Passive, Acts, Proceeding, Conclude, Writes, RunCase, FreshMoves, Run, FreshRun;
      ActsRun(b, i, Proceeding(0, MOST));
      OnlyProceeds(0, MOST);
      RunAddsNoCall(c, Proceeding(0, MOST), 0);
      if Answered(c, 0) {
        ProceedingIsFresh(c, 0, MOST);
      } else {
        UnansweredStays(c, 0, MOST);
      }
    } else {
      ActivationIsOneWrite(b, i);
      var e := Apply(b, Act(i, Proceed(0)));
      assert Proceeding(0, MOST) == [Proceed(0)] + Proceeding(0, 3);
      assert Acts(i, Proceeding(0, MOST)) == [Act(i, Proceed(0))] + Acts(i, Proceeding(0, 3));
      StepThenRun(b, Act(i, Proceed(0)), Acts(i, Proceeding(0, 3)));
      hide Apply, Acts, Proceeding, Run, FreshRun, Conclude, Writes;
      NoCallIsPassive(e.cases[i], 0, 3);
      ActsRun(e, i, Proceeding(0, 3));
      NoCallNoMove(e.cases[i], 0, 3);
      hide RunCase, FreshMoves;
    }
  }

  lemma NoCallIsPassive(c: Case, id: nat, n: nat)
    requires id !in c.calls
    ensures Passive(c, Proceeding(id, n))
  {
    ProceedingIsPassive(c, id, n);
  }

  lemma ActivationIsOneWrite(b: Book, i: IntentId)
    requires i in b.cases && b.cases[i].calls.Keys == {0} && b.cases[i].status.RequiresPayment?
    requires b.cases[i].calls[0].kind.CreateCall? && b.cases[i].calls[0].done == 0 && !NeverActivates(b.cases[i], 0)
    ensures var s := Act(i, Proceed(0)); var e := Apply(b, s);
            && FreshStep(b, s) && i in e.cases && e.cases[i].calls == map[] && e.cases == b.cases[i := e.cases[i]]
  {
    var c := b.cases[i];
    assert WritesOf(c.calls[0]) == [SetActive(Conclude(c.calls[0]).ref)];
    hide Conclude, Writes;
    assert c.calls - {0} == map[];
  }

  lemma CheckoutIsFresh(b: Book, place: Step, a: Answer)
    requires Quiet(b)
    ensures FreshRun(b, Unfold(b, Checkout(place, a))) && Quiet(Run(b, Unfold(b, Checkout(place, a))))
  {
    if MayPlace(b, place) {
      var i := place.intent;
      var s1 := Act(i, Learn(0, a));
      var b0 := Apply(b, place);
      var b1 := Apply(b0, s1);
      AnsweredCaseIs(place, a);
      PlacedRowIsAnswered(b, place, a);
      hide Apply, MayPlace, NewCase, Fresh, Run, FreshRun, Acts, AnsweredCase, Proceeding, CreateMoves;
      StepThenRun(b, place, Acts(i, CreateMoves(a)));
      StepThenRun(b0, s1, Acts(i, Proceeding(0, MOST)));
      CreateIsFresh(b1, i);
      PlacingIsFresh(b, place, s1);
    }
  }

  lemma PlacedRowIsAnswered(b: Book, place: Step, a: Answer)
    requires MayPlace(b, place)
    ensures var i := place.intent; var s1 := Act(i, Learn(0, a)); var b0 := Apply(b, place);
            && Apply(b0, s1) == WithCase(b0, i, AnsweredCase(place, a))
            && Acts(i, CreateMoves(a)) == [s1] + Acts(i, Proceeding(0, MOST))
  {
    assert CreateMoves(a)[1..] == Proceeding(0, MOST);
    hide Proceeding, Priced, NewCase, LearnAnswer;
  }

  lemma PlacingIsFresh(b: Book, place: Step, s: Step)
    requires place.Place? && s.Act? && s.move.Learn? && MayPlace(b, place) && Quiet(b) && s.intent == place.intent
    ensures FreshStep(b, place) && FreshStep(Apply(b, place), s)
    ensures forall j :: j in Apply(Apply(b, place), s).cases && j != place.intent ==> QuietCase(Apply(Apply(b, place), s).cases[j])
  {
    hide Priced, NewCase;
  }

  lemma OperationIsFresh(b: Book, o: Operation)
    requires Quiet(b)
    ensures FreshRun(b, Unfold(b, o)) && Quiet(Run(b, Unfold(b, o)))
  {
    match o
    case Checkout(place, a) => CheckoutIsFresh(b, place, a);
    case Ask(i, op, a) => AskIsFresh(b, i, op, a);
    case _ => CallbackRunsStayQuiet(b, Unfold(b, o));
  }

  /** Operations that each run to their end make a fresh run, whatever their order, their
      number, the provider's answers and the deliveries among them. */
  lemma {:induction false} SerialRunsAreFresh(b: Book, ops: seq<Operation>)
    requires Quiet(b)
    ensures FreshRun(b, Serial(b, ops)) && Quiet(Run(b, Serial(b, ops)))
    decreases |ops|
  {
    if ops != [] {
      var first := Unfold(b, ops[0]);
      OperationIsFresh(b, ops[0]);
      SerialRunsAreFresh(Run(b, first), ops[1..]);
      FreshRunSplits(b, first, Serial(Run(b, first), ops[1..]));
      RunSplits(b, first, Serial(Run(b, first), ops[1..]));
    }
  }

  /** In serial use PAID is final and has its evidence, and the holds follow the outcome. */
  lemma SerialUsePaysOnEvidence(ops: seq<Operation>, more: seq<Operation>)
    ensures var b := Run(EMPTY, Serial(EMPTY, ops)); var e := Run(b, Serial(b, more));
      && (forall i :: i in b.cases && b.cases[i].status.Paid? ==> i in e.cases && e.cases[i].status.Paid?)
      && (forall i :: i in e.cases ==> PaysOnEvidence(e.cases[i]))
  {
    SerialRunsAreFresh(EMPTY, ops);
    SerialRunsAreFresh(Run(EMPTY, Serial(EMPTY, ops)), more);
    hide PaysOnEvidence;
    FreshRunsPayOnEvidence(Serial(EMPTY, ops), Serial(Run(EMPTY, Serial(EMPTY, ops)), more));
  }

  // ---------------------------------------------------------------------------
  // Delivery: from acceptance to fulfilment
  // ---------------------------------------------------------------------------

  /** The intent is paid, settled, posted and granted, and its holds are used unless it was closed or
      its create was refused before. */
  ghost predicate Fulfilled(b: Book, i: IntentId) {
    && i in b.cases && b.cases[i].status.Paid? && b.cases[i].granted
    && Settled(b.settlements, i) && Journaled(b.journals, i)
    && (!b.cases[i].past.closed && !b.cases[i].past.rejected && b.cases[i].coupon.Some? ==> b.cases[i].coupon == Some(Consumed))
    && (!b.cases[i].past.closed && !b.cases[i].past.rejected && b.cases[i].stock.Some? ==> b.cases[i].stock == Some(Delivered))
  }

  function EffectsOn(c: Case): Case {
    ApplyEffect(ApplyEffect(ApplyEffect(c, ConsumeHeldCoupon), DeliverHeldStock), GrantDelivery)
  }

  lemma PostingLeavesCases(b: Book, i: IntentId)
    ensures Apply(b, PostLedger(i)).cases == b.cases
  {
  }

  lemma EffectStepsRun(b: Book, i: IntentId)
    requires i in b.cases
    ensures Run(b, EffectSteps(i)) == Apply(b, PostLedger(i)).(cases := b.cases[i := EffectsOn(b.cases[i])])
  {
    var s0, s1, s2, s3 := PostLedger(i), Act(i, RunEffect(ConsumeHeldCoupon)),
                          Act(i, RunEffect(DeliverHeldStock)), Act(i, RunEffect(GrantDelivery));
    hide Apply, Run, FreshRun, ApplyEffect;
    var b1 := Apply(b, s0);
    var b2 := Apply(b1, s1);
    var b3 := Apply(b2, s2);
    PostingLeavesCases(b, i);
    EffectsChangeOnlyTheCase(b1, i, ConsumeHeldCoupon);
    EffectsChangeOnlyTheCase(b2, i, DeliverHeldStock);
    EffectsChangeOnlyTheCase(b3, i, GrantDelivery);
    FourSteps(b, s0, s1, s2, s3);
    assert Apply(b3, s3).cases == b.cases[i := EffectsOn(b.cases[i])];
  }

  /** In any book at all, the effects that are due on a paid intent with a paid callback fulfil it. */
  lemma EffectsFulfil(b: Book, i: IntentId)
    requires BookOk(b) && i in b.cases && b.cases[i].status.Paid? && b.cases[i].past.paidCallback && b.cases[i].effectsDue
    ensures Fulfilled(Run(b, EffectSteps(i)), i)
  {
    EffectStepsRun(b, i);
    PostingPosts(b, i);
    assert CaseOk(b.cases[i]);
    EffectsEndTheHolds(b.cases[i]);
    assert b.cases[i].past.paidCallback <==> Settled(b.settlements, i);
    hide Apply, Run, EffectSteps, EffectsOn, BookOk, Settled, Journaled, SafeCase;
  }

  lemma EffectsChangeOnlyTheCase(b: Book, i: IntentId, effect: Effect)
    requires i in b.cases
    ensures Apply(b, Act(i, RunEffect(effect))) == b.(cases := b.cases[i := ApplyEffect(b.cases[i], effect)])
  {
    hide ApplyEffect;
  }

  lemma EffectsEndTheHolds(c: Case)
    requires SafeCase(c) && c.status.Paid? && c.effectsDue
    ensures var d := EffectsOn(c);
            && d.status.Paid? && d.granted && d.past == c.past
            && (!c.past.closed && !c.past.rejected && c.coupon.Some? ==> d.coupon == Some(Consumed))
            && (!c.past.closed && !c.past.rejected && c.stock.Some? ==> d.stock == Some(Delivered))
  {
    EffectsFollowTheOutcome(c);
  }

  lemma PostingPosts(b: Book, i: IntentId)
    requires JournalsOk(b) && i in b.cases && b.cases[i].effectsDue
    ensures Journaled(Apply(b, PostLedger(i)).journals, i)
    ensures Apply(b, PostLedger(i)) == b.(journals := Apply(b, PostLedger(i)).journals)
  {
    var row := JournalFor(i, b.cases[i]);
    if exists r :: r in b.journals && r.reference == row.reference {
      var r :| r in b.journals && r.reference == row.reference;
      assert JournalRowOk(b, r);
      PaidReferenceIsInjective(r.intent, i);
    } else {
      assert row in b.journals + [row];
    }
  }

  lemma PaidEventIsApplied(b: Book, key: EventKey)
    requires key in b.events && b.events[key].body.kind == Some(PaidEvent) && !b.events[key].state.Processed?
    requires key in ProcessEvent(b, key).events && ProcessEvent(b, key).events[key].state.Processed?
    ensures var e := ProcessEvent(b, key);
            && e.events[key].intent.Some? && e.events[key].intent.value in b.cases
            && e.events[key].intent.value in e.cases
            && e.cases[e.events[key].intent.value] == ApplyCallback(b.cases[e.events[key].intent.value], PaidEvent)
  {
    hide Resolve, NamedIntent, ApplyCallback;
  }

  /** Whose event it was, and whether its processing makes effects due. */
  lemma ProcessedPaidEventPays(b: Book, key: EventKey)
    requires BookOk(b) && key in b.events && b.events[key].body.kind == Some(PaidEvent)
    requires key in ProcessEvent(b, key).events && ProcessEvent(b, key).events[key].state.Processed?
    ensures var e := ProcessEvent(b, key);
            && e.events[key].intent.Some? && e.events[key].intent.value in e.cases && e.events[key].intent.value in b.cases
            && e.cases[e.events[key].intent.value].past.paidCallback
            && (b.events[key].state.Processed? ==> e.events[key] == b.events[key])
            && (e.cases[e.events[key].intent.value].status.Paid? <==>
                  !b.events[key].state.Processed? || b.cases[e.events[key].intent.value].status.Paid?)
            && (e.cases[e.events[key].intent.value].status.Paid? ==> e.cases[e.events[key].intent.value].effectsDue)
            && (!e.cases[e.events[key].intent.value].status.Paid? ==> e == b)
  {
    assert EventRowOk(b, key, b.events[key]);
    if b.events[key].state.Processed? {
      var i := b.events[key].intent.value;
      assert b.cases[i := b.cases[i]] == b.cases;
    } else {
      PaidEventIsApplied(b, key);
    }
    hide BookOk, Check, Resolve, NamedIntent;
  }

  lemma ProcessKeepsBodies(b: Book, key: EventKey)
    requires key in b.events
    ensures key in ProcessEvent(b, key).events && ProcessEvent(b, key).events[key].body == b.events[key].body
  {
    hide Resolve, NamedIntent, Move, Check;
  }

  /** In whatever state of the protocol, stale writes included, a paid callback is delivered: unless it is
      quarantined, its intent ends paid, settled, posted and granted, with both holds used if on time, exactly
      when the event is new to processing or its intent is still PAID. Otherwise nothing changes at all. */
  lemma DeliveredPaidCallbackFulfils(b: Book, key: EventKey, body: Body)
    requires BookOk(b)
    ensures var steps := Unfold(b, Deliver(key, body, true)); var e := Run(b, steps);
            && key in e.events
            && (e.events[key].state.Processed? && e.events[key].body.kind == Some(PaidEvent) ==>
                  var i := e.events[key].intent; var again := key in b.events && b.events[key].state.Processed?;
                  && i.Some? && (again ==> b.events[key].intent == i && i.value in b.cases)
                  && (Fulfilled(e, i.value) <==> !again || b.cases[i.value].status.Paid?)
                  && (again && !b.cases[i.value].status.Paid? ==> e == b))
  {
    var b1 := Apply(b, Accept(key, body));
    var b2 := ProcessEvent(b1, key);
    DeliveryIsProcessing(b, key, body);
    hide Apply, ProcessEvent, Run, FreshRun, Fulfilled, BookOk, Unfold, Effects;
    if b2.events[key].state.Processed? && b2.events[key].body.kind == Some(PaidEvent) {
      ProcessedPaidEventPays(b1, key);
      var i := b2.events[key].intent.value;
      EffectsArePaid(b1, key);
      if b2.cases[i].status.Paid? {
        EffectsFulfil(b2, i);
      } else {
        EmptyRun(b2);
        UnpaidIsUnfulfilled(b2, i);
      }
    }
  }

  lemma EffectsArePaid(b: Book, key: EventKey)
    requires var e := ProcessEvent(b, key);
             key in e.events && e.events[key].state.Processed? && e.events[key].intent.Some? && e.events[key].intent.value in e.cases
    ensures var e := ProcessEvent(b, key);
            Effects(b, key) == if e.cases[e.events[key].intent.value].status.Paid? then EffectSteps(e.events[key].intent.value) else []
  {
    hide ProcessEvent, EffectSteps;
  }

  lemma DeliveryIsProcessing(b: Book, key: EventKey, body: Body)
    requires BookOk(b)
    ensures var b1 := Apply(b, Accept(key, body)); var b2 := ProcessEvent(b1, key); var e := Run(b, Unfold(b, Deliver(key, body, true)));
            && e == Run(b2, Effects(b1, key)) && e.events == b2.events && BookOk(b1) && BookOk(b2)
            && key in b1.events && b1.cases == b.cases && (key in b.events ==> b1 == b) && (key !in b.events ==> !b1.events[key].state.Processed?)
            && key in b2.events && b2.events[key].body == b1.events[key].body
  {
    var b1 := Apply(b, Accept(key, body));
    var b2 := Apply(b1, Process(key));
    var rest := Effects(b1, key);
    AcceptedIsStored(b, key, body);
    DeliveryUnfolds(b, key, body);
    assert ProcessEvent(b1, key) == b2;
    hide Apply, ProcessEvent, Run, FreshRun, BookOk, Effects, Unfold;
    StepKeepsBook(b, Accept(key, body));
    StepKeepsBook(b1, Process(key));
    ProcessKeepsBodies(b1, key);
    StepThenRun(b, Accept(key, body), [Process(key)] + rest);
    StepThenRun(b1, Process(key), rest);
    EffectsKeepEvents(b2, rest);
  }

  lemma AcceptedIsStored(b: Book, key: EventKey, body: Body)
    ensures var b1 := Apply(b, Accept(key, body));
            && key in b1.events && b1.cases == b.cases && (key in b.events ==> b1 == b)
            && (key !in b.events ==> !b1.events[key].state.Processed?)
  {
  }

  lemma DeliveryUnfolds(b: Book, key: EventKey, body: Body)
    ensures var rest := Effects(Apply(b, Accept(key, body)), key);
            && Unfold(b, Deliver(key, body, true)) == [Accept(key, body)] + ([Process(key)] + rest)
            && forall k :: 0 <= k < |rest| ==> rest[k].PostLedger? || rest[k].Act?
  {
    hide PaidIntent, Apply;
  }

  lemma EmptyRun(b: Book)
    ensures Run(b, []) == b
  {
  }

  lemma UnpaidIsUnfulfilled(b: Book, i: IntentId)
    requires i in b.cases && !b.cases[i].status.Paid?
    ensures !Fulfilled(b, i)
  {
  }

  lemma {:induction false} EffectsKeepEvents(b: Book, steps: seq<Step>)
    requires forall k :: 0 <= k < |steps| ==> steps[k].PostLedger? || steps[k].Act?
    ensures Run(b, steps).events == b.events
    decreases |steps|
  {
    if steps != [] {
      EffectsKeepEvents(Apply(b, steps[0]), steps[1..]);
    }
  }

  // ---------------------------------------------------------------------------
  // Effects without a paid callback
  // ---------------------------------------------------------------------------

  /** Whatever its type, processing an event makes effects due on exactly the intent it names if that is PAID. */
  lemma EffectsBecomeDueExactly(b: Book, key: EventKey, i: IntentId)
    requires BookOk(b) && i in b.cases && !b.cases[i].effectsDue
    ensures i in ProcessEvent(b, key).cases
    ensures ProcessEvent(b, key).cases[i].effectsDue <==> PaidIntent(b, key) == Some(i)
  {
    if key in b.events {
      ProcessMovesOneCase(b, key);
      if b.events[key].body.kind.Some? {
        CallbackMakesDueExactly(b.cases[i], b.events[key].body.kind.value);
      }
      hide BookOk, ApplyCallback, Resolve, Check, ProcessEvent;
    }
  }

  lemma CallbackMakesDueExactly(c: Case, kind: Normalized)
    requires !c.effectsDue
    ensures ApplyCallback(c, kind).effectsDue <==> ApplyCallback(c, kind).status.Paid?
  {
  }

  /** After any run a posted intent lacks its settlement exactly when no step processed a paid event for it;
      then it was a call to which the provider answered PAID. */
  lemma PostedWithoutSettlementExactly(steps: seq<Step>, i: IntentId)
    requires Journaled(Run(EMPTY, steps).journals, i)
    ensures !Settled(Run(EMPTY, steps).settlements, i) <==> !Sometime(steps, Paying(i))
    ensures !Settled(Run(EMPTY, steps).settlements, i) ==> Sometime(steps, Hearing(i))
  {
    hide Sometime, Run;
    RunKeepsBook(EMPTY, steps);
    SettledExactlyByPaidEvents(steps, i);
    PostedHasProof(Run(EMPTY, steps), i);
    AnsweredExactlyByCalls(steps, i);
    hide Settled, Journaled, BookOk;
  }

  lemma PostedHasProof(b: Book, i: IntentId)
    requires BookOk(b) && Journaled(b.journals, i)
    ensures i in b.cases && (!Settled(b.settlements, i) ==> b.cases[i].past.paidAnswer)
  {
    var r :| r in b.journals && r.intent == i;
    assert JournalRowOk(b, r);
  }

  /** Alerts are raised on late payments, reversals and unknown events, and none is ever left in the table:
      the last update of the event erases it. */
  lemma NoAlertIsEverStored(steps: seq<Step>, key: EventKey)
    requires key in Run(EMPTY, steps).events
    ensures Run(EMPTY, steps).events[key].alert.None?
  {
    RunKeepsBook(EMPTY, steps);
    assert EventRowOk(Run(EMPTY, steps), key, Run(EMPTY, steps).events[key]);
  }
}
