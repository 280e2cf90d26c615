/**
 What a provider call that is not interrupted makes of its row: the outcome of every
 call for every answer, stated on the row before and after.
 */
module CallOutcomes {
  import opened Options
  import opened Holds
  import opened PaymentCase
  import opened PaymentBook
  import opened PaymentRuns

  function Begun(c: Case, op: CallKind): Case {
    match op
    case ExpireCall => c.(status := ExpirePending)
    case CancelCall => c.(status := CancelPending)
    case _ => c
  }

  function CallMade(c: Case, op: CallKind, a: Answer): Call {
    Call(op, c.status, c.unknownOp, Some(if HasReference(c) then a else NoReference), 0)
  }

  /** What a serial call on this row leaves in it. */
  function Left(c: Case, op: CallKind, answer: Answer): Case {
    if MayBegin(c, op) then Carry(Begun(c, op), Conclude(CallMade(c, op, answer))) else c
  }

  lemma MadeCallIsAnswered(c: Case, op: CallKind, a: Answer)
    requires 1 !in c.calls && Admissible(op, a) && MayBegin(c, op)
    ensures LearnAnswer(BeginCall(c, 1, op), 1, a) == Begun(c, op).(calls := c.calls[1 := CallMade(c, op, a)])
  {
    var k := CallMade(c, op, a);
    assert c.calls[1 := k.(answer := None)][1 := k] == c.calls[1 := k];
  }

  /** A call that may not begin changes nothing; any other makes all the writes it concludes. */
  lemma WholeCallLeaves(c: Case, op: CallKind, a: Answer)
    requires 1 !in c.calls && Admissible(op, a)
    ensures RunCase(c, WholeCall(1, op, a)) == Left(c, op, a)
  {
    hide Carry, Conclude, Admissible, Writes;
    var moves := WholeCall(1, op, a);
    var d := LearnAnswer(BeginCall(c, 1, op), 1, a);
    RunCaseTwo(c, moves);
    assert moves[2..] == Proceeding(1, MOST) + [Crash(1)];
    RunCaseSplits(d, Proceeding(1, MOST), [Crash(1)]);
    RunCaseOne(RunCase(d, Proceeding(1, MOST)), Crash(1));
    if MayBegin(c, op) {
      MadeCallIsAnswered(c, op, a);
      CallMadeIsCarried(Begun(c, op), CallMade(c, op, a));
      hide BeginCall, LearnAnswer, RunCase, Proceeding;
    } else {
      hide Proceeding;
      NoCallNoMove(c, 1, MOST);
      assert c.calls - {1} == c.calls;
    }
  }

  lemma CallMadeIsCarried(c: Case, k: Call)
    requires 1 !in c.calls && k.answer.Some? && k.done == 0
    ensures var d := c.(calls := c.calls[1 := k]);
            RunCase(d, Proceeding(1, MOST)) == Carry(c, Conclude(k)) && DropCall(Carry(c, Conclude(k)), 1) == Carry(c, Conclude(k))
  {
    var d := c.(calls := c.calls[1 := k]);
    FourWritesAtMost(Conclude(k));
    hide Conclude, Writes, RunCase, DoWrites, Proceeding;
    ProceedingCarries(d, 1, MOST);
    assert WritesOf(k)[0..] == WritesOf(k);
    DoWritesLeavesCalls(c, WritesOf(k), c.calls[1 := k]);
    assert c.calls[1 := k] - {1} == c.calls && c.calls - {1} == c.calls;
  }

  lemma QuietHasNoOne(b: Book, i: IntentId)
    requires Quiet(b) && i in b.cases
    ensures 1 !in b.cases[i].calls
  {
  }

  lemma OperationKeepsDesk(b: Book, o: Operation)
    requires OrderlyBook(b) && Quiet(b)
    ensures OrderlyBook(Run(b, Unfold(b, o))) && Quiet(Run(b, Unfold(b, o)))
  {
    OperationIsFresh(b, o);
    FreshRunKeepsOrder(b, Unfold(b, o));
    hide Unfold, Run, OrderlyBook, Quiet, FreshRun;
  }

  /** A serial call in the protocol changes its own row, and only that, to what it leaves. */
  lemma CallLeaves(b: Book, i: IntentId, op: CallKind, answer: Answer)
    requires OrderlyBook(b) && Quiet(b) && Admissible(op, answer)
    ensures var e := Run(b, Unfold(b, Ask(i, op, answer)));
            && OrderlyBook(e) && Quiet(e)
            && (i !in b.cases ==> e == b)
            && (i in b.cases ==> e == b.(cases := b.cases[i := Left(b.cases[i], op, answer)]))
  {
    OperationKeepsDesk(b, Ask(i, op, answer));
    hide Run, OrderlyBook, Quiet, Acts, WholeCall, RunCase, Left, FreshRun, FreshMoves, Passive;
    if i in b.cases {
      QuietHasNoOne(b, i);
      WholeCallIsPassive(b.cases[i], op, answer);
      ActsRun(b, i, WholeCall(1, op, answer));
      WholeCallLeaves(b.cases[i], op, answer);
    } else {
      ActsOnNoCaseAreIdle(b, i, WholeCall(1, op, answer));
    }
  }

  function CreateMade(a: Answer): Call {
    Call(CreateCall, RequiresPayment, None, Some(a), 0)
  }

  function CreatedKey(c: Case, a: Answer): Option<RefKey> {
    if a.Created? then Some(RefKey(c.terms.provider, c.terms.scope, c.terms.mode, a.ref)) else None
  }

  /** The create call of a placed row makes its writes; a reference that is taken fails the one it has. */
  lemma CreateProceeds(b: Book, i: IntentId, c: Case, a: Answer)
    requires i in b.cases && b.cases[i] == c.(calls := map[0 := CreateMade(a)]) && c.calls == map[]
    requires Admissible(CreateCall, a) && forall k :: k in b.byRef ==> b.byRef[k] != i
    ensures var rk := CreatedKey(c, a);
            Run(b, Acts(i, Proceeding(0, MOST))) ==
              if rk.Some? && rk.value in b.byRef then WithCase(b, i, c)
              else WithCase(b, i, Carry(c, Conclude(CreateMade(a)))).(byRef := if rk.Some? then b.byRef[rk.value := i] else b.byRef)
  {
    var k := CreateMade(a);
    if a.Created? {
      ActivationProceeds(b, i, c, a);
    } else {
      assert NeverActivates(b.cases[i], 0);
      ProceedingIsPassive(b.cases[i], 0, MOST);
      FourWritesAtMost(Conclude(k));
      assert WritesOf(k)[0..] == WritesOf(k);
      assert map[0 := k] - {0} == map[];
      hide Passive, Run, FreshRun, FreshMoves, Acts, Proceeding, RunCase, DoWrites, Writes, Conclude;
      ActsRun(b, i, Proceeding(0, MOST));
      ProceedingCarries(b.cases[i], 0, MOST);
      DoWritesLeavesCalls(c, WritesOf(k), map[0 := k]);
    }
  }

  lemma ActivationProceeds(b: Book, i: IntentId, c: Case, a: Answer)
    requires i in b.cases && b.cases[i] == c.(calls := map[0 := CreateMade(a)]) && c.calls == map[]
    requires a.Created? && forall k :: k in b.byRef ==> b.byRef[k] != i
    ensures var rk := CreatedKey(c, a);
            Run(b, Acts(i, Proceeding(0, MOST))) ==
              if rk.Some? && rk.value in b.byRef then WithCase(b, i, c)
              else WithCase(b, i, Carry(c, Conclude(CreateMade(a)))).(byRef := if rk.Some? then b.byRef[rk.value := i] else b.byRef)
  {
    var s := Act(i, Proceed(0));
    FirstTurnActivates(b, i, c, a);
    var e := Apply(b, s);
    assert Proceeding(0, MOST) == [Proceed(0)] + Proceeding(0, 3);
    assert Acts(i, Proceeding(0, MOST)) == [s] + Acts(i, Proceeding(0, 3));
    StepThenRun(b, s, Acts(i, Proceeding(0, 3)));
    hide Apply, Acts, Proceeding, Run, FreshRun, Conclude, Writes, Carry, RunCase, FreshMoves, Passive;
    NoCallIsPassive(e.cases[i], 0, 3);
    ActsRun(e, i, Proceeding(0, 3));
    NoCallNoMove(e.cases[i], 0, 3);
    assert e.cases[i := e.cases[i]] == e.cases;
  }

  lemma FirstTurnActivates(b: Book, i: IntentId, c: Case, a: Answer)
    requires i in b.cases && b.cases[i] == c.(calls := map[0 := CreateMade(a)]) && c.calls == map[]
    requires a.Created? && forall k :: k in b.byRef ==> b.byRef[k] != i
    ensures var rk := CreatedKey(c, a); var e := Apply(b, Act(i, Proceed(0)));
            && i in e.cases && e.cases[i].calls == map[]
            && e == if rk.Some? && rk.value in b.byRef then WithCase(b, i, c)
                    else WithCase(b, i, Carry(c, Conclude(CreateMade(a)))).(byRef := if rk.Some? then b.byRef[rk.value := i] else b.byRef)
  {
    var k := CreateMade(a);
    assert Conclude(k) == Conclusion.Activate(a.ref) && Writes(Conclude(k)) == [SetActive(a.ref)];
    FirstWrites(c, Writes(Conclude(k)));
    assert map[0 := k] - {0} == map[];
    var x := b.cases[i];
    OneTurn(x, 0);
    ActivationOf(x, 0);
    WriteLeavesCalls(c, SetActive(a.ref), map[0 := k]);
    assert Move(x, Proceed(0)) == DoWrite(c, SetActive(a.ref));
    assert Move(x, Crash(0)) == c;
    hide Conclude, Writes, Move, DoWrites, NextWrite, ActivationKey, DoWrite;
  }

  lemma ActivationOf(c: Case, id: nat)
    requires Answered(c, id) && c.calls[id].done == 0 && c.calls[id].answer.value.Created? && c.calls[id].kind.CreateCall?
    ensures ActivationKey(c, Proceed(id)) == Some(RefKey(c.terms.provider, c.terms.scope, c.terms.mode, c.calls[id].answer.value.ref))
  {
  }

  lemma PlacedRowLearns(b: Book, place: Step, a: Answer)
    requires MayPlace(b, place) && Admissible(CreateCall, a)
    ensures var c := NewCase(place.terms, place.order, place.coupon, place.stock);
      && Apply(b, place) == b.(cases := b.cases[place.intent := c],
                               byExt := b.byExt[ExtKey(place.terms.mode, place.terms.externalId) := place.intent])
      && Apply(Apply(b, place), Act(place.intent, Learn(0, a))) == WithCase(Apply(b, place), place.intent, c.(calls := map[0 := CreateMade(a)]))
  {
    var c := NewCase(place.terms, place.order, place.coupon, place.stock);
    assert c.calls[0 := CreateMade(a)] == map[0 := CreateMade(a)];
    hide Priced;
  }

  lemma NoReferenceToNewIntent(b: Book, i: IntentId)
    requires BookOk(b) && i !in b.cases
    ensures forall k :: k in b.byRef ==> b.byRef[k] != i
  {
  }

  /** What a serial checkout leaves: the inserted row, activated, unknown or failed. */
  lemma CheckoutLeaves(b: Book, place: Step, a: Answer)
    requires MayPlace(b, place) && Admissible(CreateCall, a) && BookOk(b)
    ensures var i := place.intent;
            var c := NewCase(place.terms, place.order, place.coupon, place.stock).(calls := map[]);
            var rk := CreatedKey(c, a);
            Run(b, Unfold(b, Checkout(place, a))) ==
              b.(cases := b.cases[i := if rk.Some? && rk.value in b.byRef then c else Carry(c, Conclude(CreateMade(a)))],
                 byExt := b.byExt[ExtKey(place.terms.mode, place.terms.externalId) := i],
                 byRef := if rk.Some? && rk.value !in b.byRef then b.byRef[rk.value := i] else b.byRef)
  {
    var i := place.intent;
    var s1 := Act(i, Learn(0, a));
    var c := NewCase(place.terms, place.order, place.coupon, place.stock);
    var b0 := Apply(b, place);
    PlacedRowLearns(b, place, a);
    NoReferenceToNewIntent(b, i);
    var b1 := WithCase(b0, i, c.(calls := map[0 := CreateMade(a)]));
    assert CreateMoves(a)[1..] == Proceeding(0, MOST);
    assert Acts(i, CreateMoves(a)) == [s1] + Acts(i, Proceeding(0, MOST));
    hide Run, FreshRun, MayPlace, NewCase, BookOk, Apply, Carry, Conclude, CreatedKey, Admissible, FreshStep, Acts, Proceeding, CreateMoves;
    StepThenRun(b, place, Acts(i, CreateMoves(a)));
    StepThenRun(b0, s1, Acts(i, Proceeding(0, MOST)));
    CreateProceeds(b1, i, c.(calls := map[]), a);
    Overwritten(b.cases, i, c, c.(calls := map[0 := CreateMade(a)]));
    Overwritten(b.cases, i, c.(calls := map[0 := CreateMade(a)]), c.(calls := map[]));
    Overwritten(b.cases, i, c.(calls := map[0 := CreateMade(a)]), Carry(c.(calls := map[]), Conclude(CreateMade(a))));
  }

  lemma RefusedCheckoutIsIdle(b: Book, place: Step, a: Answer)
    requires !MayPlace(b, place)
    ensures Run(b, Unfold(b, Checkout(place, a))) == b
  {
  }

  lemma OrderlyIsOk(b: Book)
    requires OrderlyBook(b)
    ensures BookOk(b)
  {
    hide BookOk;
  }

  lemma NewCaseHasTerms(place: Step)
    requires place.Place?
    ensures NewCase(place.terms, place.order, place.coupon, place.stock).terms == place.terms
  {
  }

  // ---------------------------------------------------------------------------
  // The outcome of every call for every answer
  // ---------------------------------------------------------------------------

  predicate Asks(c: Case) {
    c.providerRef.Some? && c.providerRef.value != ""
  }

  /** The columns no provider call writes. */
  predicate SameRow(c: Case, d: Case) {
    && d.terms == c.terms && d.paidLate == c.paidLate && d.reversalHeld == c.reversalHeld && d.granted == c.granted
    && d.effectsDue == c.effectsDue && d.calls == c.calls && d.past.paidCallback == c.past.paidCallback
    && d.order.gross == c.order.gross && d.order.fee == c.order.fee && d.order.net == c.order.net
  }

  predicate HoldsKept(c: Case, d: Case) {
    d.coupon == c.coupon && d.stock == c.stock
  }

  /** A coupon hold not yet used is released, a unit not yet delivered is given back. */
  predicate HoldsFreed(c: Case, d: Case) {
    && d.coupon == (if c.coupon == Some(Reserved) || c.coupon == Some(HeldUnknown) then Some(Released) else c.coupon)
    && d.stock == (if c.stock == Some(Claimed) || c.stock == Some(ClaimedUnknown) then Some(Returned) else c.stock)
  }

  /** The coupon waits for the outcome, the unit stays reserved. */
  predicate HoldsSuspended(c: Case, d: Case) {
    d.coupon == (if c.coupon == Some(Reserved) then Some(HeldUnknown) else c.coupon) && d.stock == c.stock
  }

  /** The row was found paid by a query: nothing but its status says so. */
  predicate FoundPaid(c: Case, d: Case) {
    && SameRow(c, d) && d.providerRef == c.providerRef && d.status == Paid && d.unknownOp == None && HoldsKept(c, d)
    && d.order == c.order && d.past.paidAnswer && d.past.closed == c.past.closed && d.past.rejected == c.past.rejected
  }

  predicate EndedAs(c: Case, d: Case, to: Status, payment: OrderPayment) {
    && SameRow(c, d) && d.providerRef == c.providerRef && d.status == to && d.unknownOp == None && d.order.payment == payment
    && d.past.closed && d.past.paidAnswer == c.past.paidAnswer
  }

  predicate StaysOpen(c: Case, d: Case, to: Status, op: Option<CallKind>) {
    && SameRow(c, d) && d.providerRef == c.providerRef && d.status == to && d.unknownOp == op && d.order == c.order
    && d.past == c.past
  }

  /** A lookup pays on PAID; it closes on EXPIRED only what waits for an expiry or does not know its outcome, and on
      CANCELLED only what does not know the outcome of a cancel; PENDING resolves an unknown outcome. */
  predicate LookupOutcome(c: Case, a: Answer, d: Case) {
    if !Asks(c) || !a.Reply? then d == c
    else if a.status == Paid then FoundPaid(c, d)
    else if a.status == Expired && (c.unknownOp == Some(ExpireCall) || c.status == ExpirePending)
    then EndedAs(c, d, Expired, OrderExpired) && HoldsFreed(c, d) && d.past.rejected == c.past.rejected
    else if a.status == Cancelled && c.unknownOp == Some(CancelCall)
    then EndedAs(c, d, Cancelled, OrderCancelled) && HoldsFreed(c, d) && d.past.rejected == c.past.rejected
    else if a.status == Pending && c.status == UnknownOutcome then StaysOpen(c, d, Pending, None) && HoldsKept(c, d)
    else d == c
  }

  /** An expire request is made for a payment that waits. EXPIRED ends it and PAID pays it; PENDING and an error leave it
      waiting for its expiry; without an answer, or a reference to ask with, its outcome is unknown. */
  predicate ExpireOutcome(c: Case, a: Answer, d: Case) {
    if c.status != RequiresPayment && c.status != Pending then d == c
    else if !Asks(c) || a == TimedOut then StaysOpen(c, d, UnknownOutcome, Some(ExpireCall)) && HoldsSuspended(c, d)
    else if a == Reply(Expired) then EndedAs(c, d, Expired, OrderExpired) && HoldsFreed(c, d) && d.past.rejected == c.past.rejected
    else if a == Reply(Paid) then FoundPaid(c, d)
    else if a == Reply(Pending) || a == Refused then StaysOpen(c, d, ExpirePending, c.unknownOp) && HoldsKept(c, d)
    else StaysOpen(c, d, UnknownOutcome, Some(ExpireCall)) && HoldsKept(c, d)
  }

  /** A merchant may cancel a gateway payment that waits. It holds nothing; any answer but CANCELLED and PAID leaves the
      cancel pending. */
  predicate CancelOutcome(c: Case, a: Answer, d: Case) {
    if c.terms.source != QrisApi || (c.status != RequiresPayment && c.status != Pending) then d == c
    else if !Asks(c) || a == TimedOut then StaysOpen(c, d, UnknownOutcome, Some(CancelCall)) && HoldsKept(c, d)
    else if a == Reply(Cancelled)
    then EndedAs(c, d, Cancelled, OrderCancelled) && HoldsKept(c, d) && d.past.rejected == c.past.rejected
    else if a == Reply(Paid) then FoundPaid(c, d)
    else StaysOpen(c, d, CancelPending, c.unknownOp) && HoldsKept(c, d)
  }

  /** The inserted row waits for its buyer under a new reference, stays as it was under one that is taken, does not know its
      outcome without an answer, and fails with its holds freed when the provider refuses it. */
  predicate CreateOutcome(c: Case, a: Answer, taken: bool, d: Case) {
    match a
    case Created(ref) =>
      if taken then d == c
      else
        && SameRow(c, d) && d.providerRef == Some(ref) && d.status == Pending && d.unknownOp == c.unknownOp
        && d.order == c.order && d.past == c.past && HoldsKept(c, d)
    case TimedOut => StaysOpen(c, d, UnknownOutcome, Some(CreateCall)) && HoldsSuspended(c, d)
    case _ =>
      && EndedAs(c, d, Status.Failed, OrderFailed) && HoldsFreed(c, d)
      && (d.past.rejected <==> c.past.rejected || c.coupon.Some? || c.stock.Some?)
  }

  lemma FreedAs(c: Case, d: Case)
    requires d.coupon == MapCoupon(c.coupon, ReleaseCoupon) && d.stock == MapStock(c.stock, ReturnStock)
    ensures HoldsFreed(c, d)
  {
  }

  lemma CarriesPaid(c: Case, s: Status)
    ensures FoundPaid(c, Carry(c.(status := s), WritePaid))
  {
    hide Carry;
    CarryIs(c.(status := s), WritePaid);
  }

  lemma CarriesClosed(c: Case, s: Status, to: Status)
    requires UnpaidTerminal(to)
    ensures var d := Carry(c.(status := s), WriteClosed(to));
            EndedAs(c, d, to, OrderTerminal(to)) && HoldsFreed(c, d) && d.past.rejected == c.past.rejected
  {
    hide Carry, HoldsFreed, MapCoupon, MapStock;
    CarryIs(c.(status := s), WriteClosed(to));
    FreedAs(c, Carry(c.(status := s), WriteClosed(to)));
  }

  lemma CarriesRejected(c: Case)
    ensures var d := Carry(c, Reject);
            && EndedAs(c, d, Status.Failed, OrderFailed) && HoldsFreed(c, d)
            && (d.past.rejected <==> c.past.rejected || c.coupon.Some? || c.stock.Some?)
  {
    hide Carry, HoldsFreed, MapCoupon, MapStock;
    CarryIs(c, Reject);
    FreedAs(c, Carry(c, Reject));
  }

  lemma CarriesCancelled(c: Case, s: Status)
    ensures var d := Carry(c.(status := s), WriteCancelled);
            EndedAs(c, d, Cancelled, OrderCancelled) && HoldsKept(c, d) && d.past.rejected == c.past.rejected
  {
    hide Carry;
    CarryIs(c.(status := s), WriteCancelled);
  }

  lemma CarriesUnknown(c: Case, s: Status, op: CallKind, suspend: bool)
    ensures var d := Carry(c.(status := s), WriteUnknown(op, suspend));
            StaysOpen(c, d, UnknownOutcome, Some(op)) && if suspend then HoldsSuspended(c, d) else HoldsKept(c, d)
  {
    hide Carry;
    CarryIs(c.(status := s), WriteUnknown(op, suspend));
  }

  lemma CarriesPending(c: Case)
    ensures var d := Carry(c, WritePending); StaysOpen(c, d, Pending, None) && HoldsKept(c, d)
  {
    hide Carry;
    CarryIs(c, WritePending);
  }

  lemma CarriesNothing(c: Case, s: Status)
    ensures Carry(c, LeaveRow) == c
    ensures StaysOpen(c, c.(status := s), s, c.unknownOp) && HoldsKept(c, c.(status := s))
  {
    CarryIs(c, LeaveRow);
  }

  lemma LookupLeaves(c: Case, a: Answer)
    requires Admissible(LookupCall, a)
    ensures LookupOutcome(c, a, Left(c, LookupCall, a))
  {
    hide Carry, Writes, FoundPaid, EndedAs, StaysOpen, HoldsFreed, HoldsKept;
    assert c == c.(status := c.status);
    CarriesPaid(c, c.status);
    CarriesClosed(c, c.status, Expired);
    CarriesClosed(c, c.status, Cancelled);
    CarriesPending(c);
    CarriesNothing(c, c.status);
  }

  lemma ExpireLeaves(c: Case, a: Answer)
    requires Admissible(ExpireCall, a)
    ensures ExpireOutcome(c, a, Left(c, ExpireCall, a))
  {
    hide Carry, Writes, FoundPaid, EndedAs, StaysOpen, HoldsFreed, HoldsKept, HoldsSuspended;
    CarriesPaid(c, ExpirePending);
    CarriesClosed(c, ExpirePending, Expired);
    CarriesUnknown(c, ExpirePending, ExpireCall, true);
    CarriesUnknown(c, ExpirePending, ExpireCall, false);
    CarriesNothing(c, ExpirePending);
    CarriesNothing(c.(status := ExpirePending), ExpirePending);
  }

  lemma CancelLeaves(c: Case, a: Answer)
    requires Admissible(CancelCall, a)
    ensures CancelOutcome(c, a, Left(c, CancelCall, a))
  {
    hide Carry, Writes, FoundPaid, EndedAs, StaysOpen, HoldsKept;
    CarriesPaid(c, CancelPending);
    CarriesCancelled(c, CancelPending);
    CarriesUnknown(c, CancelPending, CancelCall, false);
    CarriesNothing(c, CancelPending);
    CarriesNothing(c.(status := CancelPending), CancelPending);
  }

  lemma CreateLeaves(c: Case, a: Answer, taken: bool)
    requires Admissible(CreateCall, a) && c.status.RequiresPayment?
    ensures CreateOutcome(c, a, taken, if taken && a.Created? then c else Carry(c, Conclude(CreateMade(a))))
  {
    hide Carry, Writes;
    if a.Created? {
      CarryIs(c, Conclude(CreateMade(a)));
    } else {
      assert c == c.(status := c.status);
      CarriesUnknown(c, c.status, CreateCall, true);
      CarriesRejected(c);
      hide EndedAs, StaysOpen, HoldsFreed, HoldsSuspended;
    }
  }

  /** The book after a call differs in the row of the call alone. */
  predicate OnlyCase(b: Book, e: Book, i: IntentId) {
    i in b.cases && i in e.cases && e == b.(cases := b.cases[i := e.cases[i]])
  }

  lemma LookupOutcomes(b: Book, i: IntentId, a: Answer)
    requires OrderlyBook(b) && Quiet(b) && Admissible(LookupCall, a)
    ensures var e := Run(b, Unfold(b, Ask(i, LookupCall, a)));
            if i in b.cases then OnlyCase(b, e, i) && LookupOutcome(b.cases[i], a, e.cases[i]) else e == b
  {
    hide OrderlyBook, Quiet, Run, Unfold, Left, LookupOutcome;
    CallLeaves(b, i, LookupCall, a);
    if i in b.cases {
      LookupLeaves(b.cases[i], a);
    }
  }

  lemma ExpireOutcomes(b: Book, i: IntentId, a: Answer)
    requires OrderlyBook(b) && Quiet(b) && Admissible(ExpireCall, a)
    ensures var e := Run(b, Unfold(b, Ask(i, ExpireCall, a)));
            if i in b.cases then OnlyCase(b, e, i) && ExpireOutcome(b.cases[i], a, e.cases[i]) else e == b
  {
    hide OrderlyBook, Quiet, Run, Unfold, Left, ExpireOutcome;
    CallLeaves(b, i, ExpireCall, a);
    if i in b.cases {
      ExpireLeaves(b.cases[i], a);
    }
  }

  lemma CancelOutcomes(b: Book, i: IntentId, a: Answer)
    requires OrderlyBook(b) && Quiet(b) && Admissible(CancelCall, a)
    ensures var e := Run(b, Unfold(b, Ask(i, CancelCall, a)));
            if i in b.cases then OnlyCase(b, e, i) && CancelOutcome(b.cases[i], a, e.cases[i]) else e == b
  {
    hide OrderlyBook, Quiet, Run, Unfold, Left, CancelOutcome;
    CallLeaves(b, i, CancelCall, a);
    if i in b.cases {
      CancelLeaves(b.cases[i], a);
    }
  }

  /** An unknown outcome is resolved by a lookup exactly when there is a reference to ask with and the provider says PAID or
      PENDING, EXPIRED of an unanswered expire, or CANCELLED of an unanswered cancel; the row then says that, and PENDING
      changes no row but such a one. */
  lemma UnknownIsResolvedExactly(b: Book, i: IntentId, a: Answer)
    requires OrderlyBook(b) && Quiet(b) && Admissible(LookupCall, a) && i in b.cases
    ensures var c := b.cases[i]; var e := Run(b, Unfold(b, Ask(i, LookupCall, a)));
      && i in e.cases
      && (c.status == UnknownOutcome ==>
            (e.cases[i].status != UnknownOutcome <==>
               && c.providerRef.Some? && c.providerRef.value != ""
               && (|| a == Reply(Paid) || a == Reply(Pending)
                   || (a == Reply(Expired) && c.unknownOp == Some(ExpireCall))
                   || (a == Reply(Cancelled) && c.unknownOp == Some(CancelCall)))))
      && (e.cases[i].status != c.status ==> a == Reply(e.cases[i].status))
      && (a == Reply(Pending) && c.status != UnknownOutcome ==> e == b)
  {
    hide OrderlyBook, Quiet, Run, Unfold;
    LookupOutcomes(b, i, a);
    var e := Run(b, Unfold(b, Ask(i, LookupCall, a)));
    if e.cases[i] == b.cases[i] {
      assert b.cases[i := b.cases[i]] == b.cases;
    }
    hide HoldsKept, HoldsFreed;
  }

  /** What a checkout places: the row with its holds, by the answer of the provider. */
  lemma CheckoutOutcomes(b: Book, place: Step, a: Answer)
    requires BookOk(b) && place.Place? && MayPlace(b, place) && Admissible(CreateCall, a)
    ensures var t := place.terms; var i := place.intent; var e := Run(b, Unfold(b, Checkout(place, a)));
      var taken := a.Created? && RefKey(t.provider, t.scope, t.mode, a.ref) in b.byRef;
      && i in e.cases && e.cases == b.cases[i := e.cases[i]] && CreateOutcome(PlacedCase(place), a, taken, e.cases[i])
      && e.byRef == (if a.Created? && !taken then b.byRef[RefKey(t.provider, t.scope, t.mode, a.ref) := i] else b.byRef)
      && e.byExt == b.byExt[ExtKey(t.mode, t.externalId) := i]
      && e.events == b.events && e.settlements == b.settlements && e.journals == b.journals && e.outbox == b.outbox
  {
    hide Run, Unfold, BookOk, MayPlace, Carry, Conclude, CreateOutcome;
    CheckoutLeaves(b, place, a);
    PlacedIsNew(place);
    CreateLeaves(PlacedCase(place), a, a.Created? && RefKey(place.terms.provider, place.terms.scope, place.terms.mode, a.ref) in b.byRef);
  }

  /** The inserted row: a payment is due, its holds are live, and nothing has happened yet. */
  function PlacedCase(place: Step): Case
    requires place.Place?
  {
    Case(place.terms, None, RequiresPayment, None, false, false,
         Order(OrderPending, place.order.gross, place.order.fee, place.order.net),
         if place.coupon then Some(Reserved) else None, if place.stock then Some(Claimed) else None,
         false, false, map[], Past(false, false, false, false))
  }

  lemma PlacedIsNew(place: Step)
    requires place.Place?
    ensures NewCase(place.terms, place.order, place.coupon, place.stock).(calls := map[]) == PlacedCase(place)
  {
  }
}
