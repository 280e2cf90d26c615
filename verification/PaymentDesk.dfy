/**
 The payment services as they run on the stored rows, one call after the other.
 Each method changes the tables statement by statement, as its source does, and is
 proved to end in the book that its steps in the protocol lead to.
 */
module PaymentDesk {
  import opened Options
  import opened Holds
  import opened PaymentCase
  import opened PaymentBook
  import opened PaymentRuns
  import opened CallOutcomes

  class Desk {
    var cases: map<IntentId, Case>
    var byRef: map<RefKey, IntentId>
    var byExt: map<ExtKey, IntentId>
    var events: map<EventKey, Event>
    var settlements: seq<Settlement>
    var journals: seq<Journal>
    var outbox: seq<Message>

    ghost function View(): Book
      reads this
    {
      Book(cases, byRef, byExt, events, settlements, journals, outbox)
    }

    /** No call is half done, and what fresh runs keep holds of the tables. */
    ghost predicate Valid()
      reads this
    {
      OrderlyBook(View()) && Quiet(View())
    }

    constructor ()
      ensures View() == EMPTY && Valid()
    {
      cases, byRef, byExt, events := map[], map[], map[], map[];
      settlements, journals, outbox := [], [], [];
    }

    // -------------------------------------------------------------------------
    // Row writes shared by the provider calls
    // -------------------------------------------------------------------------

    /** Force the row to PAID with an empty patch. */
    method ForcePaid(i: IntentId)
      requires i in cases
      modifies this`cases
      ensures cases == old(cases)[i := Carry(old(cases[i]), WritePaid)]
    {
      CarryIs(cases[i], WritePaid);
      hide Carry;
      var pi := cases[i];
      cases := cases[i := pi.(status := Paid, unknownOp := None, past := pi.past.(paidAnswer := true))];
    }

    /** Force the row to UNKNOWN_OUTCOME; the stock stays reserved, the coupon may be suspended. */
    method ForceUnknown(i: IntentId, op: CallKind, suspend: bool)
      requires i in cases
      modifies this`cases
      ensures cases == old(cases)[i := Carry(old(cases[i]), WriteUnknown(op, suspend))]
    {
      CarryIs(cases[i], WriteUnknown(op, suspend));
      hide Carry;
      cases := cases[i := cases[i].(status := UnknownOutcome, unknownOp := Some(op))];
      if suspend && cases[i].coupon.Some? {
        cases := cases[i := cases[i].(coupon := Some(SuspendCoupon(cases[i].coupon.value)))];
      }
    }

    /** Force an unpaid end, then the order, then the two releases. */
    method CloseUnpaid(i: IntentId, to: Status)
      requires i in cases && UnpaidTerminal(to)
      modifies this`cases
      ensures cases == old(cases)[i := Carry(old(cases[i]), WriteClosed(to))]
    {
      CarryIs(cases[i], WriteClosed(to));
      hide Carry;
      var pi := cases[i];
      cases := cases[i := pi.(status := to, unknownOp := None, past := pi.past.(closed := true))];
      cases := cases[i := cases[i].(order := cases[i].order.(payment := OrderTerminal(to)))];
      ReleaseBoth(i);
    }

    /** A refused create gives the holds back first, then fails the row and its order. */
    method RejectCreated(i: IntentId)
      requires i in cases
      modifies this`cases
      ensures cases == old(cases)[i := Carry(old(cases[i]), Reject)]
    {
      CarryIs(cases[i], Reject);
      hide Carry;
      ReleaseBoth(i);
      var pi := cases[i];
      cases := cases[i := pi.(status := Status.Failed, unknownOp := None, past := pi.past.(closed := true, rejected := pi.past.rejected || pi.stock.Some? || pi.coupon.Some?))];
      cases := cases[i := cases[i].(order := cases[i].order.(payment := OrderFailed))];
    }

    /** A merchant cancel closes the row and its order; a gateway payment holds nothing to release. */
    method CloseCancelled(i: IntentId)
      requires i in cases
      modifies this`cases
      ensures cases == old(cases)[i := Carry(old(cases[i]), WriteCancelled)]
    {
      CarryIs(cases[i], WriteCancelled);
      hide Carry;
      var pi := cases[i];
      cases := cases[i := pi.(status := Cancelled, unknownOp := None, past := pi.past.(closed := true))];
      cases := cases[i := cases[i].(order := cases[i].order.(payment := OrderCancelled))];
    }

    method ForcePending(i: IntentId)
      requires i in cases
      modifies this`cases
      ensures cases == old(cases)[i := Carry(old(cases[i]), WritePending)]
    {
      CarryIs(cases[i], WritePending);
      hide Carry;
      cases := cases[i := cases[i].(status := Pending, unknownOp := None)];
    }

    method ReleaseBoth(i: IntentId)
      requires i in cases
      modifies this`cases
      ensures cases == old(cases)[i := ReleaseHolds(old(cases[i]))]
    {
      if cases[i].stock.Some? {
        cases := cases[i := cases[i].(stock := Some(ReturnStock(cases[i].stock.value)))];
      }
      if cases[i].coupon.Some? {
        cases := cases[i := cases[i].(coupon := Some(ReleaseCoupon(cases[i].coupon.value)))];
      }
    }

    // -------------------------------------------------------------------------
    // Provider calls
    // -------------------------------------------------------------------------

    /** The buyer's expire request on a stored row. */
    method ExpireRow(i: IntentId, answer: Answer) returns (code: int)
      requires i in cases && Admissible(ExpireCall, answer)
      modifies this`cases
      ensures cases == old(cases)[i := Left(old(cases[i]), ExpireCall, answer)]
      ensures code == if !Open(cases[i].status) then 200 else if old(cases[i]).status.CancelPending? then 409 else 202
    {
      var pi := cases[i];
      CarryIs(Begun(pi, ExpireCall), Conclude(CallMade(pi, ExpireCall, answer)));
      hide Carry;
      if !Open(pi.status) {
        return 200;
      }
      if pi.status.ExpirePending? || pi.status.UnknownOutcome? {
        return 202;
      }
      if !pi.status.RequiresPayment? && !pi.status.Pending? {
        return 409;
      }
      cases := cases[i := pi.(status := ExpirePending)];
      if !HasReference(pi) {
        ForceUnknown(i, ExpireCall, true);
        return 202;
      }
      code := TakeExpireAnswer(i, answer, CallMade(pi, ExpireCall, answer));
    }

    /** What the provider said to the expire request. */
    method TakeExpireAnswer(i: IntentId, answer: Answer, ghost k: Call) returns (code: int)
      requires i in cases && cases[i].status.ExpirePending? && Admissible(ExpireCall, answer)
      requires k.kind.ExpireCall? && k.answer == Some(answer)
      modifies this`cases
      ensures cases == old(cases)[i := Carry(old(cases[i]), Conclude(k))]
      ensures code == if !Open(cases[i].status) then 200 else 202
    {
      CarryIs(cases[i], Conclude(k));
      hide Carry;
      match answer {
        case TimedOut =>
          ForceUnknown(i, ExpireCall, true);
          code := 202;
        case Reply(Expired) =>
          CloseUnpaid(i, Expired);
          code := 200;
        case Reply(Paid) =>
          ForcePaid(i);
          code := 200;
        case Reply(Pending) =>
          code := 202;
        case Reply(other) =>
          ForceUnknown(i, ExpireCall, false);
          code := 202;
        case _ =>
          code := 202;
      }
    }

    method ExpireIntent(i: IntentId, answer: Answer) returns (code: int)
      requires Valid() && Admissible(ExpireCall, answer)
      modifies this
      ensures Valid() && View() == Run(old(View()), Unfold(old(View()), Ask(i, ExpireCall, answer)))
      ensures i in old(cases) ==> OnlyCase(old(View()), View(), i) && ExpireOutcome(old(cases)[i], answer, cases[i])
      ensures code == if i !in old(cases) then 404 else if !Open(View().cases[i].status) then 200
                      else if old(cases)[i].status.CancelPending? then 409 else 202
    {
      CallLeaves(View(), i, ExpireCall, answer);
      ExpireOutcomes(View(), i, answer);
      hide ExpireOutcome, Run, Unfold, OrderlyBook, Quiet;
      if i !in cases {
        return 404;
      }
      code := ExpireRow(i, answer);
    }

    /** The merchant's cancel request on a gateway payment. */
    method CancelRow(i: IntentId, answer: Answer) returns (code: int)
      requires i in cases && Admissible(CancelCall, answer)
      modifies this`cases
      ensures cases == old(cases)[i := Left(old(cases[i]), CancelCall, answer)]
      ensures code == if !cases[i].terms.source.QrisApi? then 404 else if !Open(cases[i].status) then 200
                      else if old(cases[i]).status.ExpirePending? then 409 else 202
    {
      var pi := cases[i];
      CarryIs(Begun(pi, CancelCall), Conclude(CallMade(pi, CancelCall, answer)));
      hide Carry;
      if !pi.terms.source.QrisApi? {
        return 404;
      }
      if !Open(pi.status) {
        return 200;
      }
      if pi.status.CancelPending? || pi.status.UnknownOutcome? {
        return 202;
      }
      if !pi.status.RequiresPayment? && !pi.status.Pending? {
        return 409;
      }
      cases := cases[i := pi.(status := CancelPending)];
      if !HasReference(pi) {
        ForceUnknown(i, CancelCall, false);
        return 202;
      }
      match answer {
        case TimedOut =>
          ForceUnknown(i, CancelCall, false);
          code := 202;
        case Reply(Cancelled) =>
          CloseCancelled(i);
          code := 200;
        case Reply(Paid) =>
          ForcePaid(i);
          code := 200;
        case _ =>
          code := 202;
      }
    }

    method CancelPayment(i: IntentId, answer: Answer) returns (code: int)
      requires Valid() && Admissible(CancelCall, answer)
      modifies this
      ensures Valid() && View() == Run(old(View()), Unfold(old(View()), Ask(i, CancelCall, answer)))
      ensures i in old(cases) ==> OnlyCase(old(View()), View(), i) && CancelOutcome(old(cases)[i], answer, cases[i])
      ensures code == if i !in old(cases) || !old(cases)[i].terms.source.QrisApi? then 404 else if !Open(View().cases[i].status) then 200
                      else if old(cases)[i].status.ExpirePending? then 409 else 202
    {
      CallLeaves(View(), i, CancelCall, answer);
      CancelOutcomes(View(), i, answer);
      hide CancelOutcome, Run, Unfold, OrderlyBook, Quiet;
      if i !in cases {
        return 404;
      }
      code := CancelRow(i, answer);
    }

    /** Ask the provider what became of the payment. */
    method LookupRow(i: IntentId, answer: Answer)
      requires i in cases && Admissible(LookupCall, answer)
      modifies this`cases
      ensures cases == old(cases)[i := Left(old(cases[i]), LookupCall, answer)]
    {
      var pi := cases[i];
      CarryIs(Begun(pi, LookupCall), Conclude(CallMade(pi, LookupCall, answer)));
      hide Carry;
      if !HasReference(pi) {
        return;
      }
      match answer {
        case Reply(Paid) =>
          ForcePaid(i);
        case Reply(Expired) =>
          if pi.unknownOp == Some(ExpireCall) || pi.status.ExpirePending? {
            CloseUnpaid(i, Expired);
          }
        case Reply(Cancelled) =>
          if pi.unknownOp == Some(CancelCall) {
            CloseUnpaid(i, Cancelled);
          }
        case Reply(Pending) =>
          if pi.status.UnknownOutcome? {
            ForcePending(i);
          }
        case _ =>
      }
    }

    method LookupProvider(i: IntentId, answer: Answer)
      requires Valid() && Admissible(LookupCall, answer)
      modifies this
      ensures Valid() && View() == Run(old(View()), Unfold(old(View()), Ask(i, LookupCall, answer)))
      ensures i in old(cases) ==> OnlyCase(old(View()), View(), i) && LookupOutcome(old(cases)[i], answer, cases[i])
    {
      CallLeaves(View(), i, LookupCall, answer);
      LookupOutcomes(View(), i, answer);
      hide LookupOutcome, Run, Unfold, OrderlyBook, Quiet;
      if i !in cases {
        return;
      }
      LookupRow(i, answer);
    }

    /** What the answer to a create makes of the inserted row. A provider reference that is taken
        fails both the compare-and-set and the forced write: the row stays as it was inserted. */
    method CreateRow(i: IntentId, answer: Answer)
      requires i in cases && Admissible(CreateCall, answer)
      modifies this`cases, this`byRef
      ensures var rk := CreatedKey(old(cases[i]), answer);
              && cases == old(cases)[i := if rk.Some? && rk.value in old(byRef) then old(cases[i])
                                          else Carry(old(cases[i]), Conclude(CreateMade(answer)))]
              && byRef == (if rk.Some? && rk.value !in old(byRef) then old(byRef)[rk.value := i] else old(byRef))
    {
      hide Carry;
      if answer.Created? {
        var pi := cases[i];
        var rk := RefKey(pi.terms.provider, pi.terms.scope, pi.terms.mode, answer.ref);
        if rk !in byRef {
          Activate(i, rk);
        }
      } else if answer.TimedOut? {
        ForceUnknown(i, CreateCall, true);
      } else {
        RejectCreated(i);
      }
    }

    /** One transaction: the order, the intent with its unique keys, and the holds it names. */
    method InsertIntent(i: IntentId, terms: Terms, order: Order, coupon: bool, stock: bool) returns (inserted: bool)
      modifies this`cases, this`byExt
      ensures inserted == MayPlace(old(View()), Place(i, terms, order, coupon, stock))
      ensures inserted ==> cases == old(cases)[i := NewCase(terms, order, coupon, stock).(calls := map[])]
      ensures inserted ==> byExt == old(byExt)[ExtKey(terms.mode, terms.externalId) := i]
      ensures !inserted ==> View() == old(View())
    {
      hide Priced, NewCase;
      if i in cases || ExtKey(terms.mode, terms.externalId) in byExt || !Priced(terms, order)
         || (terms.source.QrisApi? && (coupon || stock)) {
        return false;
      }
      cases := cases[i := NewCase(terms, order, coupon, stock).(calls := map[])];
      byExt := byExt[ExtKey(terms.mode, terms.externalId) := i];
      return true;
    }

    /** Insert the order, the intent and its holds, then ask the provider for a payment. */
    method CreatePayment(i: IntentId, terms: Terms, order: Order, coupon: bool, stock: bool, answer: Answer)
      requires Valid() && Admissible(CreateCall, answer)
      modifies this
      ensures Valid()
      ensures View() == Run(old(View()), Unfold(old(View()), Checkout(Place(i, terms, order, coupon, stock), answer)))
    {
      hide Run, Unfold, OrderlyBook, BookOk, Quiet, Carry, Conclude, Priced, CreateMade, CreatedKey, NewCase, MayPlace, Admissible;
      ghost var b := View();
      OrderlyIsOk(b);
      ghost var place := Place(i, terms, order, coupon, stock);
      OperationKeepsDesk(b, Checkout(place, answer));
      var inserted := InsertIntent(i, terms, order, coupon, stock);
      if !inserted {
        RefusedCheckoutIsIdle(b, place, answer);
        return;
      }
      CheckoutLeaves(b, place, answer);
      NewCaseHasTerms(place);
      ghost var pi := cases[i];
      CreateRow(i, answer);
      Overwritten(b.cases, i, pi, cases[i]);
    }

    method Activate(i: IntentId, rk: RefKey)
      requires i in cases && rk !in byRef
      modifies this`cases, this`byRef
      ensures cases == old(cases)[i := Carry(old(cases[i]), Conclusion.Activate(rk.ref))]
      ensures byRef == old(byRef)[rk := i]
    {
      CarryIs(cases[i], Conclusion.Activate(rk.ref));
      hide Carry;
      var pi := cases[i];
      cases := cases[i := pi.(status := Pending, providerRef := Some(rk.ref),
                              unknownOp := if pi.status.RequiresPayment? then pi.unknownOp else None)];
      byRef := byRef[rk := i];
    }

    // -------------------------------------------------------------------------
    // Provider callbacks
    // -------------------------------------------------------------------------

    method QuarantineEvent(key: EventKey, why: Mismatch, intent: Option<IntentId>)
      requires key in events
      modifies this`events
      ensures events == old(events)[key := Event(old(events[key]).body, Quarantined,
                          if intent.Some? then intent else old(events[key]).intent, Some(why), None)]
    {
      var ev := events[key];
      events := events[key := ev.(state := Quarantined, mismatch := Some(why), alert := None)];
      if intent.Some? {
        events := events[key := events[key].(intent := intent)];
      }
    }

    /** By reference on the whole tuple, then by external id with the tuple checked. */
    method ResolvePayment(key: EventKey, body: Body) returns (r: Resolution)
      ensures r == Resolve(View(), key, body)
    {
      if body.ref != "" {
        var rk := RefKey(key.provider, key.scope, key.mode, body.ref);
        if rk in byRef {
          return Found(byRef[rk]);
        }
      }
      if body.externalId != "" {
        var ek := ExtKey(key.mode, body.externalId);
        if ek in byExt && byExt[ek] in cases {
          var t := cases[byExt[ek]].terms;
          if t.provider != key.provider || t.scope != key.scope || t.mode != key.mode {
            return Ambiguous;
          }
          return Found(byExt[ek]);
        }
      }
      return Missing;
    }

    /** Settle from the order row and queue the messages, once per journal reference. */
    method PostSettlement(i: IntentId, late: bool, key: EventKey)
      requires i in cases
      modifies this`settlements, this`outbox
      ensures settlements == AddSettlement(old(settlements), SettlementFor(i, cases[i], late, key))
      ensures outbox == QueuePaid(old(settlements), old(outbox), SettlementFor(i, cases[i], late, key))
    {
      var pi := cases[i];
      var gross := pi.order.gross;
      if gross <= 0 {
        gross := pi.terms.amount;
      }
      var fee := pi.order.fee;
      var net := pi.order.net;
      if net <= 0 && gross > fee {
        net := gross - fee;
      }
      var row := Settlement(i, PaidReference(i), gross, fee, net, late, key);
      var inserted := !ReferenceTaken(settlements, row.reference);
      if inserted {
        settlements := settlements + [row];
        if Fulfil(i) !in outbox {
          outbox := outbox + [Fulfil(i)];
        }
        if Notify(i) !in outbox {
          outbox := outbox + [Notify(i)];
        }
      }
    }

    /** A paid row only gets the settlement it may still lack; any other becomes PAID. */
    method FinalizePaid(key: EventKey, i: IntentId)
      requires key in events && i in cases && Priced(cases[i].terms, cases[i].order)
      modifies this
      ensures cases == old(cases)[i := Unmarked(old(cases[i]), PaidEvent)]
      ensures var row := SettlementFor(i, old(cases[i]), UnpaidTerminal(old(cases[i]).status), key);
              settlements == AddSettlement(old(settlements), row) && outbox == QueuePaid(old(settlements), old(outbox), row)
      ensures key in events && events == old(events)[key := events[key]] && events[key].body == old(events[key].body)
      ensures byRef == old(byRef) && byExt == old(byExt) && journals == old(journals)
    {
      var pi := cases[i];
      SettlesByPrice(i, pi, key);
      hide SettlementFor, AddSettlement, QueuePaid, Priced;
      if pi.status.Paid? {
        cases := cases[i := pi.(past := pi.past.(paidCallback := true))];
        PostSettlement(i, false, key);
        return;
      }
      var paidLate := UnpaidTerminal(pi.status);
      MarkPaid(i, paidLate);
      hide Unmarked, ApplyCallback;
      if paidLate {
        events := events[key := events[key].(state := Processing, alert := Some(LatePaid))];
      }
      PostSettlement(i, paidLate, key);
    }

    /** The intent, then its order. */
    method MarkPaid(i: IntentId, late: bool)
      requires i in cases && !cases[i].status.Paid? && late == UnpaidTerminal(cases[i].status)
      modifies this`cases
      ensures cases == old(cases)[i := Unmarked(old(cases[i]), PaidEvent)]
    {
      var pi := cases[i];
      cases := cases[i := pi.(status := Paid, paidLate := late, unknownOp := None, past := pi.past.(paidCallback := true))];
      cases := cases[i := cases[i].(order := cases[i].order.(payment := OrderPaid))];
    }

    method CloseFromCallback(i: IntentId, to: Status)
      requires i in cases
      modifies this`cases
      ensures cases == old(cases)[i := Unmarked(old(cases[i]), ClosedEvent(to))]
    {
      var pi := cases[i];
      ClosedCallback(pi, to);
      hide Unmarked, ReleaseHolds, OrderTerminal;
      if pi.status.Paid? || UnpaidTerminal(pi.status) || !UnpaidTerminal(to) {
        assert cases == cases[i := pi];
        return;
      }
      MarkTerminal(i, to);
      ReleaseBoth(i);
    }

    /** The intent, and its order unless that is paid. */
    method MarkTerminal(i: IntentId, to: Status)
      requires i in cases
      modifies this`cases
      ensures cases == old(cases)[i := Terminated(old(cases[i]), to)]
    {
      var pi := cases[i];
      cases := cases[i := pi.(status := to, past := pi.past.(closed := true))];
      if !pi.order.payment.OrderPaid? {
        cases := cases[i := cases[i].(order := pi.order.(payment := OrderTerminal(to)))];
      }
    }

    /** The transition an event asks for, on a row that passed its checks. */
    method ApplyNormalized(key: EventKey, i: IntentId, kind: Normalized)
      requires key in events && i in cases && Priced(cases[i].terms, cases[i].order)
      modifies this
      ensures cases == old(cases)[i := Unmarked(old(cases[i]), kind)]
      ensures var row := SettlementFor(i, old(cases[i]), UnpaidTerminal(old(cases[i]).status), key);
              && settlements == (if kind.PaidEvent? then AddSettlement(old(settlements), row) else old(settlements))
              && outbox == (if kind.PaidEvent? then QueuePaid(old(settlements), old(outbox), row) else old(outbox))
      ensures key in events && events == old(events)[key := events[key]] && events[key].body == old(events[key].body)
      ensures byRef == old(byRef) && byExt == old(byExt) && journals == old(journals)
    {
      match kind {
        case PaidEvent =>
          FinalizePaid(key, i);
        case ReversalEvent =>
          if cases[i].status.Paid? {
            cases := cases[i := cases[i].(reversalHeld := true)];
            events := events[key := events[key].(state := Processed, alert := Some(ReversalHeld))];
          }
        case ClosedEvent(to) =>
          CloseFromCallback(i, to);
        case UnknownEvent =>
          events := events[key := events[key].(state := Processed, alert := Some(UnknownType))];
        case PendingEvent =>
      }
    }

    /** The checks of an accepted event, in their order; the intent it names, if it names one. */
    method CheckEvent(key: EventKey, body: Body) returns (why: Option<Mismatch>, named: Option<IntentId>)
      requires Valid()
      ensures why == Check(View(), key, body)
      ensures why.Some? ==> named == NamedIntent(View(), key, body, why.value)
      ensures why.None? ==> named == Some(Resolve(View(), key, body).intent) && named.value in cases
    {
      hide OrderlyBook, Quiet;
      named := None;
      if body.kind.None? {
        return Some(Unparsed), None;
      }
      var r := ResolvePayment(key, body);
      FoundIsStored(View(), key, body);
      hide Resolve;
      if !r.Found? {
        return Some(if r.Ambiguous? then AmbiguousPayment else NoPayment), None;
      }
      var pi := cases[r.intent];
      if body.amount > 0 && body.amount != pi.terms.amount {
        return Some(WrongAmount), Some(r.intent);
      }
      if body.currency != "" && body.currency != pi.terms.currency {
        return Some(WrongCurrency), Some(r.intent);
      }
      return None, Some(r.intent);
    }

    /** Apply a checked event, reload the row and mark the event, erasing any alert it got. */
    method ApplyChecked(key: EventKey, i: IntentId, kind: Normalized) returns (paid: Option<IntentId>)
      requires key in events && i in cases && Priced(cases[i].terms, cases[i].order)
      modifies this
      ensures View() == ApplyEvent(old(View()), key, i, kind)
      ensures paid == if cases[i].status.Paid? then Some(i) else None
    {
      ghost var b := View();
      ghost var c := cases[i];
      MarkedIsApplied(c, kind);
      hide ApplyCallback, Unmarked, SettlementFor, Priced, RaisedAlert, AddSettlement, QueuePaid, UnpaidTerminal;
      ApplyNormalized(key, i, kind);
      paid := None;
      if cases[i].status.Paid? {
        paid := Some(i);
        cases := cases[i := cases[i].(effectsDue := true)];
      }
      Overwritten(b.cases, i, Unmarked(c, kind), ApplyCallback(c, kind));
      events := events[key := MarkProcessed(events[key], i)];
      assert events == b.events[key := MarkProcessed(b.events[key], i)];
    }

    /** The transaction of ProcessEvent; the intent it returns gets the ledger post and the effects. */
    method ProcessInTx(key: EventKey) returns (paid: Option<IntentId>)
      requires Valid()
      modifies this
      ensures View() == PaymentBook.ProcessEvent(old(View()), key)
      ensures paid == PaidIntent(old(View()), key)
    {
      ghost var b := View();
      paid := None;
      if key !in events {
        return;
      }
      var ev := events[key];
      ProcessTakes(b, key);
      hide PaymentBook.ProcessEvent, PaidIntent, ApplyEvent, OrderlyBook, Quiet, Resolve, Check, NamedIntent;
      if ev.state.Processed? {
        var i := ev.intent.value;
        if cases[i].status.Paid? {
          paid := Some(i);
          cases := cases[i := cases[i].(effectsDue := true)];
        } else {
          assert cases == cases[i := cases[i]];
        }
        return;
      }
      var why, named := CheckEvent(key, ev.body);
      if why.Some? {
        QuarantineEvent(key, why.value, named);
        return;
      }
      StoredCaseIsPriced(b, named.value);
      paid := ApplyChecked(key, named.value, ev.body.kind.value);
    }

    method PostLedgerForPaid(i: IntentId)
      requires i in cases && cases[i].effectsDue
      modifies this`journals
      ensures View() == Apply(old(View()), PostLedger(i))
    {
      var pi := cases[i];
      var gross := pi.order.gross;
      if gross <= 0 {
        gross := pi.terms.amount;
      }
      var net := pi.order.net;
      if net <= 0 && gross > pi.order.fee {
        net := gross - pi.order.fee;
      }
      journals := PostJournal(journals, Journal(i, PaidReference(i), gross, FeePercentPart(pi.order.fee), FeeFixedPart(pi.order.fee), net));
    }

    method SideEffectsPaid(i: IntentId)
      requires i in cases && cases[i].effectsDue
      modifies this`cases
      ensures cases == old(cases)[i := EffectsOn(old(cases[i]))]
    {
      if cases[i].coupon.Some? {
        cases := cases[i := cases[i].(coupon := Some(ConsumeCoupon(cases[i].coupon.value)))];
      }
      if cases[i].stock.Some? {
        cases := cases[i := cases[i].(stock := Some(DeliverStock(cases[i].stock.value)))];
      }
      if !cases[i].granted {
        cases := cases[i := cases[i].(granted := true)];
      }
    }

    method ProcessEvent(key: EventKey)
      requires Valid()
      modifies this
      ensures View() == Run(old(View()), [Process(key)] + Effects(old(View()), key))
      ensures Valid()
    {
      ghost var b := View();
      DeliveryKeepsDesk(b, key);
      var paid := ProcessInTx(key);
      StepThenRun(b, Process(key), Effects(b, key));
      if paid.Some? {
        PaidIntentHasEffectsDue(b, key);
        EffectStepsRun(View(), paid.value);
        hide PaymentBook.ProcessEvent, OrderlyBook, Quiet, PaidIntent, EffectSteps, EffectsOn;
        PostLedgerForPaid(paid.value);
        SideEffectsPaid(paid.value);
      }
    }

    /** A delivery from the provider: stored once per event key, then processed. */
    method AcceptNormalized(key: EventKey, body: Body) returns (duplicate: bool)
      requires Valid()
      modifies this
      ensures View() == Run(old(View()), Unfold(old(View()), Deliver(key, body, true)))
      ensures Valid() && (duplicate <==> key in old(events))
    {
      ghost var b := View();
      AcceptKeepsDesk(b, Accept(key, body));
      StepThenRun(b, Accept(key, body), [Process(key)] + Effects(Apply(b, Accept(key, body)), key));
      duplicate := key in events;
      if !duplicate {
        events := events[key := Event(body, Accepted, None, None, None)];
      }
      assert View() == Apply(b, Accept(key, body));
      hide Effects, OrderlyBook, Quiet, Apply, Run, FreshRun;
      ProcessEvent(key);
      assert Unfold(b, Deliver(key, body, true))
          == [Accept(key, body)] + ([Process(key)] + Effects(Apply(b, Accept(key, body)), key));
    }

    /** An administrator's replay: the row goes back to ACCEPTED whatever it said. */
    method ReplayInbound(key: EventKey)
      requires Valid()
      modifies this
      ensures View() == Run(old(View()), Unfold(old(View()), Replay(key, true)))
      ensures Valid()
    {
      ghost var b := View();
      AcceptKeepsDesk(b, ResetForReplay(key));
      StepThenRun(b, ResetForReplay(key), [Process(key)] + Effects(Apply(b, ResetForReplay(key)), key));
      if key in events {
        events := events[key := events[key].(state := Accepted, mismatch := None, alert := None)];
      }
      assert View() == Apply(b, ResetForReplay(key));
      hide Effects, OrderlyBook, Quiet, Apply, Run, FreshRun;
      ProcessEvent(key);
      assert Unfold(b, Replay(key, true))
          == [ResetForReplay(key)] + ([Process(key)] + Effects(Apply(b, ResetForReplay(key)), key));
    }
  }

  lemma PaidIntentHasEffectsDue(b: Book, key: EventKey)
    requires PaidIntent(b, key).Some?
    ensures var e := PaymentBook.ProcessEvent(b, key); var i := PaidIntent(b, key).value;
            i in e.cases && e.cases[i].effectsDue
  {
    hide Resolve, NamedIntent, SettlementFor;
  }

  lemma DeliveryKeepsDesk(b: Book, key: EventKey)
    requires OrderlyBook(b) && Quiet(b)
    ensures var e := Run(b, [Process(key)] + Effects(b, key)); OrderlyBook(e) && Quiet(e)
  {
    var steps := [Process(key)] + Effects(b, key);
    hide OrderlyBook, Quiet, Run, PaidIntent;
    CallbackRunsStayQuiet(b, steps);
    FreshRunKeepsOrder(b, steps);
  }

  lemma AcceptKeepsDesk(b: Book, s: Step)
    requires OrderlyBook(b) && Quiet(b) && (s.Accept? || s.ResetForReplay?)
    ensures OrderlyBook(Apply(b, s)) && Quiet(Apply(b, s))
  {
    FreshStepKeepsOrder(b, s);
    CallbackStepsStayQuiet(b, s);
    hide OrderlyBook, Quiet, Apply;
  }

  /** A callback applied to the row, before the reload that finds it PAID makes its effects due. */
  function Unmarked(c: Case, kind: Normalized): Case {
    ApplyCallback(c, kind).(effectsDue := c.effectsDue)
  }

  function Terminated(c: Case, to: Status): Case {
    c.(status := to, past := c.past.(closed := true),
       order := if c.order.payment.OrderPaid? then c.order else c.order.(payment := OrderTerminal(to)))
  }

  lemma ClosedCallback(c: Case, to: Status)
    ensures Unmarked(c, ClosedEvent(to)) ==
            if c.status.Paid? || UnpaidTerminal(c.status) || !UnpaidTerminal(to) then c
            else ReleaseHolds(Terminated(c, to))
  {
    hide OrderTerminal, ReleaseCoupon, ReturnStock;
  }

  lemma MarkedIsApplied(c: Case, kind: Normalized)
    ensures var d := Unmarked(c, kind);
            ApplyCallback(c, kind) == if d.status.Paid? then d.(effectsDue := true) else d
    ensures Unmarked(c, kind).status == ApplyCallback(c, kind).status
  {
  }

  lemma FoundIsStored(b: Book, key: EventKey, body: Body)
    requires OrderlyBook(b)
    ensures Resolve(b, key, body).Found? ==> Resolve(b, key, body).intent in b.cases
  {
    assert IndexesOk(b);
    hide OrderlyBook;
  }

  lemma StoredCaseIsPriced(b: Book, i: IntentId)
    requires OrderlyBook(b) && i in b.cases
    ensures Priced(b.cases[i].terms, b.cases[i].order)
  {
    assert CaseOk(b.cases[i]);
    hide OrderlyBook;
  }

  /** A settlement row depends on the price alone. */
  lemma SettlesByPrice(i: IntentId, c: Case, key: EventKey)
    ensures forall late :: SettlementFor(i, Unmarked(c, PaidEvent), late, key) == SettlementFor(i, c, late, key)
  {
  }

  /** The branches of ProcessEvent, in the order the transaction tries them. */
  lemma ProcessTakes(b: Book, key: EventKey)
    requires OrderlyBook(b) && key in b.events
    ensures var ev := b.events[key]; var r := Resolve(b, key, ev.body); var e := PaymentBook.ProcessEvent(b, key);
      && (ev.state.Processed? ==>
            && ev.intent.Some? && ev.intent.value in b.cases
            && e == b.(cases := b.cases[ev.intent.value := Move(b.cases[ev.intent.value], Redelivered)])
            && PaidIntent(b, key) == if b.cases[ev.intent.value].status.Paid? then ev.intent else None)
      && (!ev.state.Processed? ==>
            var why := Check(b, key, ev.body);
            && (why.Some? ==> e == Quarantine(b, key, why.value, NamedIntent(b, key, ev.body, why.value)) && PaidIntent(b, key).None?)
            && (why.None? ==>
                  && e == ApplyEvent(b, key, r.intent, ev.body.kind.value)
                  && r.intent in e.cases
                  && PaidIntent(b, key) == if e.cases[r.intent].status.Paid? then Some(r.intent) else None))
  {
    assert EventRowOk(b, key, b.events[key]);
    hide NamedIntent, OrderlyBook, CasesOk, SettlementsOk, SettledExactlyWhenPaid, OutboxOk, JournalsOk;
  }

  // ---------------------------------------------------------------------------
  // A capture without a settlement
  // ---------------------------------------------------------------------------

  /** A lookup finds the payment before its callback does; then the provider still says PENDING. */
  function UnsettledUse(place: Step, ref: string, key: EventKey, body: Body): seq<Operation>
    requires place.Place?
  {
    [Checkout(place, Created(ref)), Ask(place.intent, LookupCall, Reply(Paid)), Deliver(key, body, true)]
  }

  lemma {:induction false} SerialSplits(b: Book, ops: seq<Operation>)
    requires ops != []
    ensures var e := Run(b, Unfold(b, ops[0])); Run(b, Serial(b, ops)) == Run(e, Serial(e, ops[1..]))
  {
    var e := Run(b, Unfold(b, ops[0]));
    RunSplits(b, Unfold(b, ops[0]), Serial(e, ops[1..]));
    hide Run, Unfold;
  }

  lemma ThreeOperations(b: Book, o0: Operation, o1: Operation, o2: Operation)
    ensures var b1 := Run(b, Unfold(b, o0)); var b2 := Run(b1, Unfold(b1, o1));
            Run(b, Serial(b, [o0, o1, o2])) == Run(b2, Unfold(b2, o2))
  {
    var b1 := Run(b, Unfold(b, o0));
    var b2 := Run(b1, Unfold(b1, o1));
    var b3 := Run(b2, Unfold(b2, o2));
    SerialSplits(b, [o0, o1, o2]);
    SerialSplits(b1, [o1, o2]);
    SerialSplits(b2, [o2]);
    assert [o0, o1, o2][1..] == [o1, o2] && [o1, o2][1..] == [o2] && [o2][1..] == [];
    EmptyRun(b3);
    hide Unfold;
  }

  lemma LookedUpCase(c: Case, ref: string)
    requires ref != ""
    ensures var d := Left(Carry(c, Conclude(CreateMade(Created(ref)))), LookupCall, Reply(Paid));
            d.status.Paid? && d.terms == c.terms
  {
    var c1 := Carry(c, Conclude(CreateMade(Created(ref))));
    assert Conclude(CreateMade(Created(ref))) == Conclusion.Activate(ref);
    CarryIs(c, Conclusion.Activate(ref));
    assert HasReference(c1);
    assert Conclude(CallMade(c1, LookupCall, Reply(Paid))) == WritePaid;
    CarryIs(c1, WritePaid);
    hide Carry, Conclude;
  }

  /** The placed payment, found paid by a query. */
  lemma LookedUpBook(place: Step, ref: string)
    requires MayPlace(EMPTY, place) && ref != ""
    ensures var i := place.intent; var t := place.terms;
            var b1 := Run(EMPTY, Unfold(EMPTY, Checkout(place, Created(ref))));
            var b2 := Run(b1, Unfold(b1, Ask(i, LookupCall, Reply(Paid))));
            && OrderlyBook(b2) && i in b2.cases && b2.cases[i].status.Paid? && b2.cases[i].terms == t
            && b2.byRef == map[RefKey(t.provider, t.scope, t.mode, ref) := i] && b2.settlements == [] && b2.events == map[]
  {
    var i := place.intent;
    var b1 := Run(EMPTY, Unfold(EMPTY, Checkout(place, Created(ref))));
    var c := NewCase(place.terms, place.order, place.coupon, place.stock).(calls := map[]);
    var c1 := Carry(c, Conclude(CreateMade(Created(ref))));
    assert BookOk(EMPTY) && OrderlyBook(EMPTY) && Quiet(EMPTY);
    LookedUpCase(c, ref);
    NewCaseHasTerms(place);
    hide Run, Unfold, OrderlyBook, BookOk, Quiet, Carry, NewCase, MayPlace, Conclude, Left, HasReference;
    CheckoutLeaves(EMPTY, place, Created(ref));
    OperationKeepsDesk(EMPTY, Checkout(place, Created(ref)));
    CallLeaves(b1, i, LookupCall, Reply(Paid));
  }

  /** In serial use, with nothing unusual from the provider but a late PENDING, the ledger captures the
      payment and the goods go out, and no settlement is made. */
  lemma CaptureWithoutSettlement(place: Step, ref: string, key: EventKey, body: Body)
    requires MayPlace(EMPTY, place) && ref != "" && RefMatches(place.terms, Endpoint(key))
    requires body == Body(ref, "", 0, "", Some(PendingEvent))
    ensures var i := place.intent; var e := Run(EMPTY, Serial(EMPTY, UnsettledUse(place, ref, key, body)));
            Journaled(e.journals, i) && !Settled(e.settlements, i) && i in e.cases && e.cases[i].granted
  {
    var i := place.intent;
    LookedUpBook(place, ref);
    ThreeOperations(EMPTY, Checkout(place, Created(ref)), Ask(i, LookupCall, Reply(Paid)), Deliver(key, body, true));
    var b1 := Run(EMPTY, Unfold(EMPTY, Checkout(place, Created(ref))));
    var b2 := Run(b1, Unfold(b1, Ask(i, LookupCall, Reply(Paid))));
    hide Run, Unfold, MayPlace, BookOk, OrderlyCase;
    PendingDeliveryPosts(b2, key, body, i);
  }

  lemma PendingDeliveryPosts(b: Book, key: EventKey, body: Body, i: IntentId)
    requires BookOk(b) && i in b.cases && b.cases[i].status.Paid? && key !in b.events && !Settled(b.settlements, i)
    requires body.kind == Some(PendingEvent) && body.amount == 0 && body.currency == "" && Resolve(b, key, body) == Found(i)
    ensures var e := Run(b, Unfold(b, Deliver(key, body, true)));
            Journaled(e.journals, i) && !Settled(e.settlements, i) && i in e.cases && e.cases[i].granted
  {
    var b1 := Apply(b, Accept(key, body));
    var b2 := ProcessEvent(b1, key);
    PendingMakesEffectsDue(b, key, body, i);
    hide Resolve, ProcessEvent, Unfold, Run, Settled, Effects, EffectSteps, Apply, Journaled, BookOk, EffectsOn;
    DeliveryIsProcessing(b, key, body);
    EffectsArePaid(b1, key);
    BookHasJournals(b2);
    PostingPosts(b2, i);
    EffectStepsRun(b2, i);
    EffectsGrant(b2.cases[i]);
  }

  lemma BookHasJournals(b: Book)
    requires BookOk(b)
    ensures JournalsOk(b)
  {
    hide JournalsOk;
  }

  lemma EffectsGrant(c: Case)
    requires c.effectsDue
    ensures EffectsOn(c).granted
  {
  }

  lemma PendingMakesEffectsDue(b: Book, key: EventKey, body: Body, i: IntentId)
    requires i in b.cases && b.cases[i].status.Paid? && key !in b.events
    requires body.kind == Some(PendingEvent) && body.amount == 0 && body.currency == "" && Resolve(b, key, body) == Found(i)
    ensures var e := ProcessEvent(Apply(b, Accept(key, body)), key);
            && i in e.cases && e.cases[i].effectsDue && e.cases[i].status.Paid? && e.settlements == b.settlements
            && key in e.events && e.events[key].state.Processed? && e.events[key].intent == Some(i)
  {
    var b1 := Apply(b, Accept(key, body));
    assert Resolve(b1, key, body) == Found(i);
    assert ProcessEvent(b1, key) == ApplyEvent(b1, key, i, PendingEvent);
    hide Resolve, ProcessEvent, NamedIntent;
  }
}
