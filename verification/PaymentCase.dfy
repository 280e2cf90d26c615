/**
 One payment intent with its order, its holds and the provider calls in flight on it.

 A call to the provider (create, expire, cancel, lookup) reads the row and may
 compare-and-set it, the provider answers, and the call then makes its writes one by
 one: the row, its order, the two holds, each a store call of its own. None of them
 has a status guard, and anything may happen before, between and after them; the
 caller may also die anywhere. Callbacks are one transaction each.
 */
module PaymentCase {
  import opened Options
  import opened Holds

  datatype Status =
    | RequiresPayment | Pending | CancelPending | ExpirePending | UnknownOutcome
    | Paid | Failed | Expired | Cancelled

  predicate UnpaidTerminal(s: Status) {
    s.Failed? || s.Expired? || s.Cancelled?
  }

  predicate Open(s: Status) {
    !s.Paid? && !UnpaidTerminal(s)
  }

  datatype Source = Storefront | QrisApi

  datatype CallKind = CreateCall | ExpireCall | CancelCall | LookupCall

  /** What a call learns: a mapped provider status, a new reference, a timeout after
      sending, any other error, or that there is no reference to ask about. */
  datatype Answer = Reply(status: Status) | Created(ref: string) | TimedOut | Refused | NoReference

  /** done counts the writes the call has made. */
  datatype Call = Call(kind: CallKind, seen: Status, seenOp: Option<CallKind>, answer: Option<Answer>, done: nat)

  /** Normalised callback types. */
  datatype Normalized = PaidEvent | ClosedEvent(to: Status) | ReversalEvent | PendingEvent | UnknownEvent

  datatype OrderPayment = OrderPending | OrderPaid | OrderExpired | OrderCancelled | OrderFailed

  datatype Order = Order(payment: OrderPayment, gross: int, fee: int, net: int)

  /** What has happened to the row so far; never read by an operation. rejected: a refused create
      began to give back holds it had, which it does before it writes FAILED. */
  datatype Past = Past(paidCallback: bool, paidAnswer: bool, closed: bool, rejected: bool)

  /** The columns no operation changes. */
  datatype Terms = Terms(
    source: Source, provider: string, scope: string, mode: string, externalId: string,
    amount: int, currency: string)

  datatype Case = Case(
    terms: Terms, providerRef: Option<string>, status: Status,
    unknownOp: Option<CallKind>, paidLate: bool, reversalHeld: bool,
    order: Order, coupon: Option<CouponHold>, stock: Option<StockHold>, granted: bool,
    effectsDue: bool, calls: map<nat, Call>, past: Past)

  datatype Effect = ConsumeHeldCoupon | DeliverHeldStock | GrantDelivery

  datatype CaseMove =
    | Callback(kind: Normalized)
    | Redelivered                       // an already processed event is processed again
    | RunEffect(effect: Effect)
    | Begin(call: nat, op: CallKind)
    | Learn(call: nat, answer: Answer)
    | Proceed(call: nat)                // the call makes its next write
    | Crash(call: nat)                  // the caller dies or its write is refused

  function MapCoupon(h: Option<CouponHold>, f: CouponHold -> CouponHold): Option<CouponHold> {
    if h.Some? then Some(f(h.value)) else None
  }

  function MapStock(h: Option<StockHold>, f: StockHold -> StockHold): Option<StockHold> {
    if h.Some? then Some(f(h.value)) else None
  }

  function ReleaseHolds(c: Case): Case {
    c.(coupon := MapCoupon(c.coupon, ReleaseCoupon), stock := MapStock(c.stock, ReturnStock))
  }

  function OrderTerminal(to: Status): OrderPayment {
    match to
    case Expired => OrderExpired
    case Cancelled => OrderCancelled
    case _ => OrderFailed
  }

  /** applyNormalized on the intent, its order and its holds. */
  function ApplyCallback(c: Case, kind: Normalized): Case {
    match kind
    case PaidEvent =>
      var seen := c.(past := c.past.(paidCallback := true), effectsDue := true);
      if c.status.Paid? then seen
      else seen.(status := Paid, paidLate := UnpaidTerminal(c.status), unknownOp := None,
                 order := c.order.(payment := OrderPaid))
    case ReversalEvent =>
      if c.status.Paid? then c.(reversalHeld := true, effectsDue := true) else c
    case ClosedEvent(to) =>
      if c.status.Paid? then c.(effectsDue := true)
      else if UnpaidTerminal(c.status) || !UnpaidTerminal(to) then c
      else
        ReleaseHolds(c).(status := to, past := c.past.(closed := true),
                         order := if c.order.payment.OrderPaid? then c.order else c.order.(payment := OrderTerminal(to)))
    case PendingEvent => if c.status.Paid? then c.(effectsDue := true) else c
    case UnknownEvent => if c.status.Paid? then c.(effectsDue := true) else c
  }

  function ApplyEffect(c: Case, effect: Effect): Case {
    if !c.effectsDue then c
    else match effect
      case ConsumeHeldCoupon => c.(coupon := MapCoupon(c.coupon, ConsumeCoupon))
      case DeliverHeldStock => c.(stock := MapStock(c.stock, DeliverStock))
      case GrantDelivery => c.(granted := true)
  }

  predicate HasReference(c: Case) {
    c.providerRef.Some? && c.providerRef.value != ""
  }

  predicate MayBegin(c: Case, kind: CallKind) {
    match kind
    case CreateCall => false
    case ExpireCall => c.status.RequiresPayment? || c.status.Pending?
    case CancelCall => c.terms.source.QrisApi? && (c.status.RequiresPayment? || c.status.Pending?)
    case LookupCall => HasReference(c)
  }

  function BeginCall(c: Case, id: nat, kind: CallKind): Case {
    if id in c.calls || !MayBegin(c, kind) then c
    else
      var answer := if HasReference(c) then None else Some(NoReference);
      var k := Call(kind, c.status, c.unknownOp, answer, 0);
      match kind
      case ExpireCall => c.(calls := c.calls[id := k], status := ExpirePending)
      case CancelCall => c.(calls := c.calls[id := k], status := CancelPending)
      case _ => c.(calls := c.calls[id := k])
  }

  predicate Admissible(kind: CallKind, a: Answer) {
    if kind.CreateCall? then a.Created? || a.TimedOut? || a.Refused?
    else a.Reply? || a.TimedOut? || a.Refused?
  }

  function LearnAnswer(c: Case, id: nat, a: Answer): Case {
    if id in c.calls && c.calls[id].answer.None? && Admissible(c.calls[id].kind, a)
    then c.(calls := c.calls[id := c.calls[id].(answer := Some(a))])
    else c
  }

  /** What a call decides to write, from its answer and from the row it saw. */
  datatype Conclusion =
    | LeaveRow
    | WritePaid
    | WriteClosed(to: Status)          // and free the holds
    | Reject                            // free the holds and fail: the provider refused to create
    | WriteCancelled                   // merchant cancel: nothing is held
    | WriteUnknown(op: CallKind, suspend: bool)
    | WritePending
    | Activate(ref: string)

  function Conclude(k: Call): (o: Conclusion)
    requires k.answer.Some?
    ensures o.WriteClosed? ==> UnpaidTerminal(o.to)
  {
    match k.kind
    case CreateCall => (
      match k.answer.value
      case Created(r) => Activate(r)
      case TimedOut => WriteUnknown(CreateCall, true)
      case _ => Reject)
    case ExpireCall => (
      match k.answer.value
      case Reply(Expired) => WriteClosed(Expired)
      case Reply(Paid) => WritePaid
      case Reply(Pending) => LeaveRow
      case Reply(_) => WriteUnknown(ExpireCall, false)
      case TimedOut => WriteUnknown(ExpireCall, true)
      case NoReference => WriteUnknown(ExpireCall, true)
      case _ => LeaveRow)
    case CancelCall => (
      match k.answer.value
      case Reply(Cancelled) => WriteCancelled
      case Reply(Paid) => WritePaid
      case TimedOut => WriteUnknown(CancelCall, false)
      case NoReference => WriteUnknown(CancelCall, false)
      case _ => LeaveRow)
    case LookupCall => (
      match k.answer.value
      case Reply(Paid) => WritePaid
      case Reply(Expired) =>
        if k.seenOp == Some(ExpireCall) || k.seen.ExpirePending? then WriteClosed(Expired) else LeaveRow
      case Reply(Cancelled) => if k.seenOp == Some(CancelCall) then WriteClosed(Cancelled) else LeaveRow
      case Reply(Pending) => if k.seen.UnknownOutcome? then WritePending else LeaveRow
      case _ => LeaveRow)
  }

  /** The store calls a call may make at its end. Only the activation of a created payment tries a
      compare-and-set first, then forces: the forced write alone says what a miss comes to. */
  datatype Write =
    | SetStatus(to: Status, op: Option<CallKind>)
    | SetActive(ref: string)
    | SetOrder(payment: OrderPayment)
    | FreeStock(early: bool)
    | FreeCoupon(early: bool)
    | SuspendHeld

  function Writes(o: Conclusion): seq<Write> {
    match o
    case LeaveRow => []
    case WritePaid => [SetStatus(Paid, None)]
    case WriteClosed(to) => [SetStatus(to, None), SetOrder(OrderTerminal(to)), FreeStock(false), FreeCoupon(false)]
    case Reject => [FreeStock(true), FreeCoupon(true), SetStatus(Failed, None), SetOrder(OrderFailed)]
    case WriteCancelled => [SetStatus(Cancelled, None), SetOrder(OrderCancelled)]
    case WriteUnknown(op, suspend) => [SetStatus(UnknownOutcome, Some(op))] + if suspend then [SuspendHeld] else []
    case WritePending => [SetStatus(Pending, None)]
    case Activate(r) => [SetActive(r)]
  }

  /** No write asks what the row says by now. */
  function DoWrite(c: Case, w: Write): Case {
    match w
    case SetStatus(to, op) =>
      c.(status := to, unknownOp := op,
         past := c.past.(paidAnswer := c.past.paidAnswer || to.Paid?, closed := c.past.closed || UnpaidTerminal(to)))
    case SetActive(r) =>
      c.(status := Pending, providerRef := Some(r), unknownOp := if c.status.RequiresPayment? then c.unknownOp else None)
    case SetOrder(payment) => c.(order := c.order.(payment := payment))
    case FreeStock(early) => c.(stock := MapStock(c.stock, ReturnStock), past := c.past.(rejected := c.past.rejected || (early && c.stock.Some?)))
    case FreeCoupon(early) => c.(coupon := MapCoupon(c.coupon, ReleaseCoupon), past := c.past.(rejected := c.past.rejected || (early && c.coupon.Some?)))
    case SuspendHeld => c.(coupon := MapCoupon(c.coupon, SuspendCoupon))
  }

  function DropCall(c: Case, id: nat): Case {
    c.(calls := c.calls - {id})
  }

  predicate Answered(c: Case, id: nat) {
    id in c.calls && c.calls[id].answer.Some?
  }

  function WritesOf(k: Call): seq<Write>
    requires k.answer.Some?
  {
    Writes(Conclude(k))
  }

  /** The write a call makes when it proceeds, if it has one left. */
  function NextWrite(c: Case, id: nat): Option<Write> {
    if Answered(c, id) && c.calls[id].done < |WritesOf(c.calls[id])| then Some(WritesOf(c.calls[id])[c.calls[id].done]) else None
  }

  /** One more write; after its last one the call is over. */
  function ProceedCall(c: Case, id: nat): Case {
    if !Answered(c, id) then c
    else if NextWrite(c, id).None? then DropCall(c, id)
    else
      var k := c.calls[id];
      var d := DoWrite(c, NextWrite(c, id).value);
      if k.done + 1 == |WritesOf(k)| then DropCall(d, id) else d.(calls := c.calls[id := k.(done := k.done + 1)])
  }

  function Move(c: Case, m: CaseMove): Case {
    match m
    case Callback(kind) => ApplyCallback(c, kind)
    case Redelivered => c.(effectsDue := c.effectsDue || c.status.Paid?)
    case RunEffect(e) => ApplyEffect(c, e)
    case Begin(id, kind) => BeginCall(c, id, kind)
    case Learn(id, a) => LearnAnswer(c, id, a)
    case Proceed(id) => ProceedCall(c, id)
    case Crash(id) => DropCall(c, id)
  }

  // ---------------------------------------------------------------------------
  // What every interleaving keeps
  // ---------------------------------------------------------------------------

  predicate PaidProof(c: Case) {
    c.past.paidCallback || c.past.paidAnswer
  }

  predicate HoldsLive(c: Case) {
    (c.coupon.Some? ==> CouponLive(c.coupon.value)) && (c.stock.Some? ==> StockLive(c.stock.value))
  }

  predicate SomeHoldFreed(c: Case) {
    c.coupon == Some(Released) || c.stock == Some(Returned)
  }

  predicate SomeHoldUsed(c: Case) {
    c.coupon == Some(Consumed) || c.stock == Some(Delivered)
  }

  /** A call that has written a closed status has closed the row. */
  predicate CallOk(c: Case, k: Call) {
    && (k.answer.None? ==> k.done == 0)
    && (k.kind.CancelCall? ==> c.terms.source.QrisApi?)
    && (k.answer.Some? && !k.answer.value.NoReference? ==> Admissible(k.kind, k.answer.value))
    && (k.answer.Some? && Conclude(k).WriteClosed? && k.done > 0 ==> c.past.closed)
  }

  /** Holds in every state of every run, however the writes of the calls interleave. */
  predicate SafeCase(c: Case) {
    && (c.status.Paid? ==> PaidProof(c) && c.unknownOp.None?)
    && (c.effectsDue || c.granted || SomeHoldUsed(c) ==> PaidProof(c))
    && (SomeHoldFreed(c) ==> c.past.closed || c.past.rejected)
    && (c.past.rejected ==> !HoldsLive(c))
    && (UnpaidTerminal(c.status) ==> c.past.closed)
    && (c.terms.source.QrisApi? ==> c.coupon.None? && c.stock.None?)
    && (forall id :: id in c.calls ==> CallOk(c, c.calls[id]))
  }

  lemma WriteKeepsSafeCase(c: Case, w: Write)
    requires SafeCase(c)
    requires w.SetStatus? && w.to.Paid? ==> w.op.None?
    requires (w.FreeStock? || w.FreeCoupon?) && !w.early ==> c.past.closed
    ensures SafeCase(DoWrite(c, w))
  {
    forall id | id in c.calls
      ensures CallOk(DoWrite(c, w), c.calls[id])
    {
      WriteKeepsCallOk(c, w, c.calls[id]);
    }
    hide CallOk;
  }

  lemma WriteKeepsCallOk(c: Case, w: Write, k: Call)
    requires CallOk(c, k)
    ensures CallOk(DoWrite(c, w), k)
  {
    hide Conclude, Admissible;
  }

  /** What the writes of a call are like, one by one. */
  lemma WritesAreOrdered(o: Conclusion, n: nat)
    requires n < |Writes(o)| && (o.WriteClosed? ==> UnpaidTerminal(o.to))
    ensures var w := Writes(o)[n];
      && (w.SetStatus? && w.to.Paid? ==> w.op.None?)
      && (w.FreeStock? || w.FreeCoupon? ==> if w.early then o.Reject? && n < 2 else o.WriteClosed? && n > 0)
      && (o.WriteClosed? && n == 0 ==> w.SetStatus? && UnpaidTerminal(w.to))
      && (w.SetStatus? || w.SetActive? ==> n == (if o.Reject? then 2 else 0))
      && (w.SuspendHeld? || w.SetOrder? ==> n > (if o.Reject? then 2 else 0))
  {
  }

  lemma CallUpdateKeepsSafeCase(c: Case, id: nat, k: Call)
    requires SafeCase(c) && CallOk(c, k)
    ensures SafeCase(c.(calls := c.calls[id := k]))
  {
    hide Conclude, Admissible;
    var d := c.(calls := c.calls[id := k]);
    assert forall x :: x in d.calls ==> CallOk(c, d.calls[x]) && (CallOk(c, d.calls[x]) ==> CallOk(d, d.calls[x]));
  }

  lemma NextCallIsOk(c: Case, k: Call)
    requires SafeCase(c) && CallOk(c, k) && k.answer.Some? && k.done < |WritesOf(k)|
    ensures var w := WritesOf(k)[k.done];
            && (w.SetStatus? && w.to.Paid? ==> w.op.None?)
            && ((w.FreeStock? || w.FreeCoupon?) && !w.early ==> c.past.closed)
            && CallOk(DoWrite(c, w), k.(done := k.done + 1))
  {
    WritesAreOrdered(Conclude(k), k.done);
    ConcludeIgnoresDone(k, k.done + 1);
    hide Writes, Conclude, Admissible;
  }

  lemma ProceedKeepsSafeCase(c: Case, id: nat)
    requires SafeCase(c)
    ensures SafeCase(ProceedCall(c, id))
  {
    hide SafeCase, DoWrite, WritesOf, CallOk, DropCall;
    DropKeepsSafeCase(c, id);
    if NextWrite(c, id).Some? {
      var k := c.calls[id];
      var d := DoWrite(c, WritesOf(k)[k.done]);
      SafeCallsAreOk(c, id);
      NextCallIsOk(c, k);
      WriteKeepsSafeCase(c, WritesOf(k)[k.done]);
      WriteLeavesCalls(c, WritesOf(k)[k.done], c.calls);
      DropKeepsSafeCase(d, id);
      CallUpdateKeepsSafeCase(d, id, k.(done := k.done + 1));
    }
  }

  lemma SafeCallsAreOk(c: Case, id: nat)
    requires SafeCase(c) && id in c.calls
    ensures CallOk(c, c.calls[id])
  {
    hide CallOk;
  }

  lemma DropKeepsSafeCase(c: Case, id: nat)
    requires SafeCase(c)
    ensures SafeCase(DropCall(c, id))
  {
    hide Conclude, Admissible;
  }

  lemma ConcludeIgnoresDone(k: Call, n: nat)
    requires k.answer.Some?
    ensures Conclude(k.(done := n)) == Conclude(k)
  {
  }

  lemma CallbackKeepsSafeCase(c: Case, kind: Normalized)
    requires SafeCase(c)
    ensures SafeCase(ApplyCallback(c, kind))
  {
    hide Conclude, Admissible;
  }

  lemma BeginKeepsSafeCase(c: Case, id: nat, op: CallKind)
    requires SafeCase(c)
    ensures SafeCase(BeginCall(c, id, op))
  {
    match op
    case CancelCall =>
    case _ =>
  }

  lemma LearnKeepsSafeCase(c: Case, id: nat, a: Answer)
    requires SafeCase(c)
    ensures SafeCase(LearnAnswer(c, id, a))
  {
  }

  lemma MoveKeepsSafeCase(c: Case, m: CaseMove)
    requires SafeCase(c)
    ensures SafeCase(Move(c, m))
  {
    hide SafeCase, ProceedCall, ApplyCallback, BeginCall, LearnAnswer, ApplyEffect, DropCall;
    match m
    case Callback(kind) => CallbackKeepsSafeCase(c, kind);
    case Begin(id, op) => BeginKeepsSafeCase(c, id, op);
    case Learn(id, a) => LearnKeepsSafeCase(c, id, a);
    case Proceed(id) => ProceedKeepsSafeCase(c, id);
    case _ => OtherMovesKeepSafeCase(c, m);
  }

  lemma OtherMovesKeepSafeCase(c: Case, m: CaseMove)
    requires SafeCase(c) && (m.Redelivered? || m.RunEffect? || m.Crash?)
    ensures SafeCase(Move(c, m))
  {
    hide Conclude, Admissible;
  }

  /** The one kind of step that overwrites a paid row. */
  predicate Overwrites(c: Case, m: CaseMove) {
    m.Proceed? && NextWrite(c, m.call).Some?
    && var w := NextWrite(c, m.call).value; w.SetActive? || (w.SetStatus? && !w.to.Paid?)
  }

  /** PAID is left by exactly one kind of step: a call that writes another status. */
  lemma PaidIsLeftExactlyByOverwrites(c: Case, m: CaseMove)
    requires c.status.Paid?
    ensures Move(c, m).status.Paid? <==> !Overwrites(c, m)
  {
    hide Conclude, Writes, WritesOf;
    match m
    case Callback(kind) =>
    case Proceed(id) =>
    case _ =>
  }

  // ---------------------------------------------------------------------------
  // What holds when no call writes a status over a row that moved under it
  // ---------------------------------------------------------------------------

  /** The row still says what the call left in it or saw in it: the guard a compare-and-set would use. */
  predicate RowUnmoved(c: Case, k: Call) {
    match k.kind
    case CreateCall => c.status.RequiresPayment?
    case ExpireCall => c.status.ExpirePending?
    case CancelCall => c.status.CancelPending?
    case LookupCall => c.status == k.seen && c.unknownOp == k.seenOp
  }

  /** The status is still to be written. */
  predicate StatusAhead(k: Call)
    requires k.answer.Some?
  {
    var o := Conclude(k);
    k.done < |Writes(o)| && k.done <= if o.Reject? then 2 else 0
  }

  predicate Fresh(c: Case, m: CaseMove) {
    m.Proceed? && Answered(c, m.call) && StatusAhead(c.calls[m.call]) ==> RowUnmoved(c, c.calls[m.call])
  }

  predicate OrderlyCase(c: Case) {
    && SafeCase(c)
    && (c.status.Paid? <==> PaidProof(c))
    && (c.past.closed ==> !Open(c.status))
    && (Open(c.status) ==> (HoldsLive(c) <==> !c.past.rejected))
  }

  /** A status write on a row that did not move, after the evidence so far. */
  lemma StatusWriteKeepsOrder(c: Case, k: Call)
    requires OrderlyCase(c) && k.answer.Some? && CallOk(c, k) && StatusAhead(k) && RowUnmoved(c, k)
    ensures var w := WritesOf(k)[k.done]; var d := DoWrite(c, w);
            && (d.status.Paid? <==> PaidProof(d)) && (d.past.closed ==> !Open(d.status))
            && (Open(d.status) ==> (HoldsLive(d) <==> !d.past.rejected)) && (c.status.Paid? ==> d.status.Paid?)
  {
    match Conclude(k)
    case WriteClosed(to) =>
    case WriteUnknown(op, suspend) =>
    case Reject =>
    case _ =>
  }

  /** Every other write leaves the status, and frees holds only of a closed row. */
  lemma LaterWriteKeepsOrder(c: Case, k: Call)
    requires OrderlyCase(c) && k.answer.Some? && CallOk(c, k) && !StatusAhead(k) && k.done < |WritesOf(k)|
    ensures var w := WritesOf(k)[k.done]; var d := DoWrite(c, w);
            && d.status == c.status && PaidProof(d) == PaidProof(c) && d.past.closed == c.past.closed && d.past.rejected == c.past.rejected
            && (Open(d.status) ==> (HoldsLive(d) <==> !d.past.rejected))
  {
    WritesAreOrdered(Conclude(k), k.done);
    hide Conclude, Writes;
  }

  lemma FreshMoveKeepsOrderlyCase(c: Case, m: CaseMove)
    requires OrderlyCase(c) && Fresh(c, m)
    ensures OrderlyCase(Move(c, m))
    ensures c.status.Paid? ==> Move(c, m).status.Paid?
  {
    MoveKeepsSafeCase(c, m);
    match m
    case Proceed(id) =>
      if NextWrite(c, id).Some? {
        var k := c.calls[id];
        assert CallOk(c, k);
        if StatusAhead(k) {
          StatusWriteKeepsOrder(c, k);
        } else {
          LaterWriteKeepsOrder(c, k);
        }
        hide SafeCase, Conclude, Writes, DoWrite, RowUnmoved, StatusAhead;
      }
    case Callback(kind) => CallbackKeepsOrder(c, kind);
    case _ =>
  }

  lemma CallbackKeepsOrder(c: Case, kind: Normalized)
    requires OrderlyCase(c)
    ensures var d := ApplyCallback(c, kind);
            && (d.status.Paid? <==> PaidProof(d)) && (d.past.closed ==> !Open(d.status))
            && (Open(d.status) ==> (HoldsLive(d) <==> !d.past.rejected)) && (c.status.Paid? ==> d.status.Paid?)
  {
  }

  predicate Ended(c: Case, d: Case) {
    && (c.coupon.Some? && !CouponLive(c.coupon.value) ==> d.coupon == c.coupon)
    && (c.stock.Some? && !StockLive(c.stock.value) ==> d.stock == c.stock)
  }

  lemma WriteEndsHoldsOnce(c: Case, w: Write)
    ensures Ended(c, DoWrite(c, w))
  {
  }

  lemma CallbackEndsHoldsOnce(c: Case, kind: Normalized)
    ensures Ended(c, ApplyCallback(c, kind))
  {
  }

  /** Once used or freed, a hold keeps its end state under every step, stale writes included. */
  lemma HoldsEndOnce(c: Case, m: CaseMove)
    ensures Ended(c, Move(c, m))
  {
    hide Conclude, Writes, WritesOf, DoWrite, ApplyCallback;
    match m
    case Proceed(id) =>
      if NextWrite(c, id).Some? {
        WriteEndsHoldsOnce(c, NextWrite(c, id).value);
      }
    case Callback(kind) => CallbackEndsHoldsOnce(c, kind);
    case _ =>
  }

  /** A payment of an intent that was neither closed nor rejected uses both holds as soon as its effects
      run, in either order; freed holds stay freed. */
  lemma EffectsFollowTheOutcome(c: Case)
    requires SafeCase(c) && c.effectsDue
    ensures var a := ApplyEffect(ApplyEffect(c, ConsumeHeldCoupon), DeliverHeldStock);
            && a == ApplyEffect(ApplyEffect(c, DeliverHeldStock), ConsumeHeldCoupon)
            && (!c.past.closed && !c.past.rejected && c.coupon.Some? ==> a.coupon == Some(Consumed))
            && (!c.past.closed && !c.past.rejected && c.stock.Some? ==> a.stock == Some(Delivered))
            && (c.coupon == Some(Released) ==> a.coupon == Some(Released))
            && (c.stock == Some(Returned) ==> a.stock == Some(Returned))
  {
  }

  /** What each move adds to the flags of the row, and nothing ever takes back but the lateness of a payment. */
  lemma FlagsMoveExactly(c: Case, m: CaseMove)
    ensures Move(c, m).reversalHeld <==> c.reversalHeld || (m == Callback(ReversalEvent) && c.status.Paid?)
    ensures Move(c, m).paidLate <==> if m == Callback(PaidEvent) && !c.status.Paid? then UnpaidTerminal(c.status) else c.paidLate
    ensures Move(c, m).granted <==> c.granted || (m == RunEffect(GrantDelivery) && c.effectsDue)
    ensures Move(c, m).effectsDue <==> c.effectsDue || ((m.Callback? || m.Redelivered?) && Move(c, m).status.Paid?)
  {
    hide Conclude, Writes, WritesOf, DoWrite;
    match m
    case Proceed(id) =>
      if NextWrite(c, id).Some? {
        WriteKeepsFlags(c, NextWrite(c, id).value);
      }
    case Callback(kind) =>
    case _ =>
  }

  lemma WriteKeepsFlags(c: Case, w: Write)
    ensures var d := DoWrite(c, w);
            d.reversalHeld == c.reversalHeld && d.paidLate == c.paidLate && d.granted == c.granted && d.effectsDue == c.effectsDue
  {
  }

  predicate MarksOrder(c: Case, m: CaseMove) {
    m == Callback(PaidEvent) && !c.status.Paid?
  }

  predicate WritesOrder(c: Case, m: CaseMove) {
    m.Proceed? && NextWrite(c, m.call).Some? && NextWrite(c, m.call).value.SetOrder?
  }

  /** The order row becomes PAID exactly by a paid callback that finds the intent unpaid, and it is made
      anything else exactly by the order write of a closing call, which does not ask what it says. */
  lemma OrderMovesExactly(c: Case, m: CaseMove)
    ensures Move(c, m).order.payment.OrderPaid? <==> MarksOrder(c, m) || (c.order.payment.OrderPaid? && !WritesOrder(c, m))
  {
    hide Conclude, Writes, WritesOf;
    match m
    case Proceed(id) =>
      if NextWrite(c, id).Some? {
        NoWritePaysTheOrder(c.calls[id]);
      }
    case Callback(kind) =>
    case _ =>
  }

  lemma NoWritePaysTheOrder(k: Call)
    requires k.answer.Some? && k.done < |WritesOf(k)|
    ensures WritesOf(k)[k.done].SetOrder? ==> !WritesOf(k)[k.done].payment.OrderPaid?
  {
  }

  function NewCase(terms: Terms, order: Order, coupon: bool, stock: bool): Case {
    Case(terms, None, RequiresPayment, None, false, false, order.(payment := OrderPending),
         if coupon then Some(Reserved) else None, if stock then Some(Claimed) else None,
         false, false, map[0 := Call(CreateCall, RequiresPayment, None, None, 0)], Past(false, false, false, false))
  }

  lemma NewCaseIsOrderly(terms: Terms, order: Order, coupon: bool, stock: bool)
    requires terms.source.QrisApi? ==> !coupon && !stock
    ensures OrderlyCase(NewCase(terms, order, coupon, stock))
  {
  }

  function RunCase(c: Case, moves: seq<CaseMove>): Case
    decreases |moves|
  {
    if moves == [] then c else RunCase(Move(c, moves[0]), moves[1..])
  }

  predicate FreshMoves(c: Case, moves: seq<CaseMove>)
    decreases |moves|
  {
    moves == [] || (Fresh(c, moves[0]) && FreshMoves(Move(c, moves[0]), moves[1..]))
  }

  lemma {:induction false} RunCaseSplits(c: Case, s: seq<CaseMove>, t: seq<CaseMove>)
    ensures RunCase(c, s + t) == RunCase(RunCase(c, s), t)
    ensures FreshMoves(c, s + t) <==> FreshMoves(c, s) && FreshMoves(RunCase(c, s), t)
    decreases |s|
  {
    hide Move, Fresh;
    if s == [] {
      assert s + t == t;
    } else {
      assert (s + t)[1..] == s[1..] + t;
      RunCaseSplits(Move(c, s[0]), s[1..], t);
    }
  }

  lemma RunCaseTwo(c: Case, moves: seq<CaseMove>)
    requires |moves| >= 2
    ensures RunCase(c, moves) == RunCase(Move(Move(c, moves[0]), moves[1]), moves[2..])
    ensures FreshMoves(c, moves) <==> Fresh(c, moves[0]) && Fresh(Move(c, moves[0]), moves[1])
                                      && FreshMoves(Move(Move(c, moves[0]), moves[1]), moves[2..])
  {
    assert moves[1..][1..] == moves[2..];
    hide Move, Fresh;
  }

  lemma RunCaseOne(c: Case, m: CaseMove)
    ensures RunCase(c, [m]) == Move(c, m) && (FreshMoves(c, [m]) <==> Fresh(c, m))
  {
    assert [m][1..] == [];
    hide Move, Fresh;
  }

  // ---------------------------------------------------------------------------
  // A call that is not interrupted
  // ---------------------------------------------------------------------------

  function DoWrites(c: Case, ws: seq<Write>): Case
    decreases |ws|
  {
    if ws == [] then c else DoWrites(DoWrite(c, ws[0]), ws[1..])
  }

  /** All writes of a conclusion in turn. */
  function Carry(c: Case, o: Conclusion): Case {
    DoWrites(c, Writes(o))
  }

  function Proceeding(id: nat, n: nat): seq<CaseMove> {
    if n == 0 then [] else [Proceed(id)] + Proceeding(id, n - 1)
  }

  /** No call makes more than four writes. */
  const MOST: nat := 4

  lemma FourWritesAtMost(o: Conclusion)
    ensures |Writes(o)| <= MOST
  {
  }

  function Closed(c: Case, to: Status): Case {
    ReleaseHolds(c).(status := to, unknownOp := None, past := c.past.(closed := true),
                     order := c.order.(payment := OrderTerminal(to)))
  }

  /** What the writes of each conclusion come to when nothing happens between them. */
  lemma CarryIs(c: Case, o: Conclusion)
    requires o.WriteClosed? ==> UnpaidTerminal(o.to)
    ensures Carry(c, o) == match o
                           case LeaveRow => c
                           case WritePaid => c.(status := Paid, unknownOp := None, past := c.past.(paidAnswer := true))
                           case WriteClosed(to) => Closed(c, to)
                           case Reject => Closed(c, Status.Failed).(past := c.past.(closed := true, rejected := c.past.rejected || c.stock.Some? || c.coupon.Some?))
                           case WriteCancelled =>
                             c.(status := Cancelled, unknownOp := None, past := c.past.(closed := true),
                                order := c.order.(payment := OrderCancelled))
                           case WriteUnknown(op, suspend) =>
                             c.(status := UnknownOutcome, unknownOp := Some(op),
                                coupon := if suspend then MapCoupon(c.coupon, SuspendCoupon) else c.coupon)
                           case WritePending => c.(status := Pending, unknownOp := None)
                           case Activate(r) =>
                             c.(status := Pending, providerRef := Some(r),
                                unknownOp := if c.status.RequiresPayment? then c.unknownOp else None)
  {
    var ws := Writes(o);
    FirstWrites(c, ws);
    if |ws| == 4 {
      FirstWrites(DoWrite(DoWrite(c, ws[0]), ws[1]), ws[2..]);
    }
    hide DoWrites;
    assert c.past == Past(c.past.paidCallback, c.past.paidAnswer, c.past.closed, c.past.rejected);
  }

  lemma FirstWrites(c: Case, ws: seq<Write>)
    ensures |ws| == 0 ==> DoWrites(c, ws) == c
    ensures |ws| == 1 ==> DoWrites(c, ws) == DoWrite(c, ws[0])
    ensures |ws| >= 2 ==> DoWrites(c, ws) == DoWrites(DoWrite(DoWrite(c, ws[0]), ws[1]), ws[2..])
    ensures |ws| == 2 ==> DoWrites(c, ws) == DoWrite(DoWrite(c, ws[0]), ws[1])
  {
    hide DoWrite;
    if ws != [] {
      assert DoWrites(c, ws) == DoWrites(DoWrite(c, ws[0]), ws[1..]);
      if |ws| >= 2 {
        assert ws[1..][1..] == ws[2..];
      }
    }
  }

  /** The provider said the payment is over, to a call that may end it. */
  predicate FinalAnswer(k: Call)
    requires k.answer.Some?
  {
    var a := k.answer.value;
    match k.kind
    case CreateCall => !a.Created? && !a.TimedOut?
    case ExpireCall => a == Reply(Expired)
    case CancelCall => a == Reply(Cancelled)
    case LookupCall =>
      || (a == Reply(Expired) && (k.seenOp == Some(ExpireCall) || k.seen.ExpirePending?))
      || (a == Reply(Cancelled) && k.seenOp == Some(CancelCall))
  }

  /** A call ends an open payment unpaid exactly on a final answer, and pays it exactly on PAID. On any other
      answer the holds live on, and a call that was not answered in time leaves an unknown outcome. */
  lemma OnlyFinalAnswersEndAPayment(c: Case, k: Call)
    requires Open(c.status) && HoldsLive(c) && k.answer.Some?
    requires k.answer.value.NoReference? || Admissible(k.kind, k.answer.value)
    ensures var d := Carry(c, Conclude(k));
      && (UnpaidTerminal(d.status) <==> FinalAnswer(k))
      && (d.status.Paid? <==> k.answer.value == Reply(Paid))
      && (!FinalAnswer(k) ==> HoldsLive(d))
      && (k.answer.value.TimedOut? && !k.kind.LookupCall? ==> d.status.UnknownOutcome? && d.unknownOp == Some(k.kind))
  {
    CarryIs(c, Conclude(k));
    hide Carry;
    if !FinalAnswer(k) {
      OtherAnswersHold(c, k);
    }
    hide HoldsLive, ReleaseHolds, OrderTerminal;
  }

  lemma OtherAnswersHold(c: Case, k: Call)
    requires Open(c.status) && HoldsLive(c) && k.answer.Some? && !FinalAnswer(k)
    requires k.answer.value.NoReference? || Admissible(k.kind, k.answer.value)
    ensures HoldsLive(Carry(c, Conclude(k)))
  {
    CarryIs(c, Conclude(k));
    hide Carry, Open;
  }

  lemma {:induction false} NoCallNoMove(c: Case, id: nat, n: nat)
    requires id !in c.calls
    ensures RunCase(c, Proceeding(id, n)) == c && FreshMoves(c, Proceeding(id, n))
  {
    if n > 0 {
      assert Proceeding(id, n)[1..] == Proceeding(id, n - 1);
      assert Move(c, Proceed(id)) == c;
      NoCallNoMove(c, id, n - 1);
    }
  }

  lemma WriteLeavesCalls(c: Case, w: Write, calls: map<nat, Call>)
    ensures DoWrite(c.(calls := calls), w) == DoWrite(c, w).(calls := calls) && DoWrite(c, w).calls == c.calls
  {
  }

  lemma {:induction false} DoWritesLeavesCalls(c: Case, ws: seq<Write>, calls: map<nat, Call>)
    ensures DoWrites(c.(calls := calls), ws) == DoWrites(c, ws).(calls := calls) && DoWrites(c, ws).calls == c.calls
    decreases |ws|
  {
    hide DoWrite;
    if ws != [] {
      WriteLeavesCalls(c, ws[0], calls);
      DoWritesLeavesCalls(DoWrite(c, ws[0]), ws[1..], calls);
    }
  }

  /** Enough turns for the writes it has left, and the call has made them all and is over. */
  lemma {:induction false} ProceedingCarries(c: Case, id: nat, n: nat)
    requires Answered(c, id) && n > 0 && c.calls[id].done <= |WritesOf(c.calls[id])| <= c.calls[id].done + n
    ensures RunCase(c, Proceeding(id, n)) == DropCall(DoWrites(c, WritesOf(c.calls[id])[c.calls[id].done..]), id)
    decreases n
  {
    var k := c.calls[id];
    FirstTurn(c, id, n);
    hide WritesOf, DoWrite, Move, RunCase, FreshMoves, Proceeding, DoWrites;
    if k.done + 1 >= |WritesOf(k)| {
      LastTurn(c, id);
      NoCallNoMove(Move(c, Proceed(id)), id, n - 1);
    } else {
      TurnKeepsResult(c, id);
      ProceedingCarries(Move(c, Proceed(id)), id, n - 1);
    }
  }

  lemma LastTurn(c: Case, id: nat)
    requires Answered(c, id) && c.calls[id].done <= |WritesOf(c.calls[id])| <= c.calls[id].done + 1
    ensures var k := c.calls[id];
            Move(c, Proceed(id)) == DropCall(DoWrites(c, WritesOf(k)[k.done..]), id) && id !in Move(c, Proceed(id)).calls
  {
    var k := c.calls[id];
    OneTurn(c, id);
    FirstWrites(c, WritesOf(k)[k.done..]);
    hide WritesOf, DoWrite, Move, DoWrites;
  }

  lemma TurnKeepsResult(c: Case, id: nat)
    requires Answered(c, id) && c.calls[id].done + 1 < |WritesOf(c.calls[id])|
    ensures var k := c.calls[id]; var ws := WritesOf(k); var e := Move(c, Proceed(id));
            && Answered(e, id) && e.calls[id].done == k.done + 1 && WritesOf(e.calls[id]) == ws
            && DropCall(DoWrites(e, ws[k.done + 1..]), id) == DropCall(DoWrites(c, ws[k.done..]), id)
  {
    var k := c.calls[id];
    var ws := WritesOf(k);
    OneTurn(c, id);
    RestOfTheWrites(c, k);
    hide WritesOf, DoWrite, Move, DoWrites;
    var t := k.(done := k.done + 1);
    DoWritesLeavesCalls(DoWrite(c, ws[k.done]), ws[k.done + 1..], c.calls[id := t]);
    assert c.calls[id := t] - {id} == c.calls - {id};
  }

  lemma FirstTurn(c: Case, id: nat, n: nat)
    requires n > 0
    ensures RunCase(c, Proceeding(id, n)) == RunCase(Move(c, Proceed(id)), Proceeding(id, n - 1))
  {
    assert Proceeding(id, n)[1..] == Proceeding(id, n - 1);
    hide Move;
  }

  lemma OneTurn(c: Case, id: nat)
    requires Answered(c, id) && c.calls[id].done <= |WritesOf(c.calls[id])|
    ensures var k := c.calls[id]; var ws := WritesOf(k);
            if k.done == |ws| then Move(c, Proceed(id)) == DropCall(c, id)
            else
              var d := DoWrite(c, ws[k.done]);
              Move(c, Proceed(id)) == if k.done + 1 == |ws| then DropCall(d, id) else d.(calls := c.calls[id := k.(done := k.done + 1)])
  {
    hide DoWrite, WritesOf;
  }

  lemma RestOfTheWrites(c: Case, k: Call)
    requires k.answer.Some? && k.done < |WritesOf(k)|
    ensures var ws := WritesOf(k); var d := DoWrite(c, ws[k.done]);
            d.calls == c.calls && WritesOf(k.(done := k.done + 1)) == ws && DoWrites(c, ws[k.done..]) == DoWrites(d, ws[k.done + 1..])
  {
    ConcludeIgnoresDone(k, k.done + 1);
    WriteLeavesCalls(c, WritesOf(k)[k.done], c.calls);
    hide DoWrite, Conclude, Writes;
    assert WritesOf(k)[k.done..][1..] == WritesOf(k)[k.done + 1..];
  }

  /** As long as the status is ahead, the writes before it do not move the row. */
  lemma {:induction false} ProceedingIsFresh(c: Case, id: nat, n: nat)
    requires Answered(c, id) && (StatusAhead(c.calls[id]) ==> RowUnmoved(c, c.calls[id]))
    ensures FreshMoves(c, Proceeding(id, n))
    decreases n
  {
    if n > 0 {
      assert Proceeding(id, n)[1..] == Proceeding(id, n - 1) && Proceeding(id, n)[0] == Proceed(id);
      var k := c.calls[id];
      var e := Move(c, Proceed(id));
      if id in e.calls {
        NextTurnIsFresh(c, id);
        ProceedingIsFresh(e, id, n - 1);
      } else {
        NoCallNoMove(e, id, n - 1);
      }
    }
  }

  lemma NextTurnIsFresh(c: Case, id: nat)
    requires Answered(c, id) && (StatusAhead(c.calls[id]) ==> RowUnmoved(c, c.calls[id])) && id in ProceedCall(c, id).calls
    ensures var e := ProceedCall(c, id); Answered(e, id) && (StatusAhead(e.calls[id]) ==> RowUnmoved(e, e.calls[id]))
  {
    var k := c.calls[id];
    ConcludeIgnoresDone(k, k.done + 1);
    WritesAreOrdered(Conclude(k), k.done);
    if Conclude(k).Reject? {
      assert k.kind.CreateCall?;
    }
    hide Conclude, Writes;
  }

  /** The moves of a whole call. */
  function WholeCall(id: nat, op: CallKind, a: Answer): seq<CaseMove> {
    [Begin(id, op), Learn(id, a)] + (Proceeding(id, MOST) + [Crash(id)])
  }

  lemma MadeCallFindsItsRow(c: Case, id: nat, op: CallKind, a: Answer)
    requires id !in c.calls
    ensures var d := LearnAnswer(BeginCall(c, id, op), id, a); Answered(d, id) ==> RowUnmoved(d, d.calls[id])
  {
  }

  /** A call that runs without interruption finds the row it left or saw at each of its writes. */
  lemma WholeCallsAreFresh(c: Case, id: nat, op: CallKind, a: Answer)
    requires id !in c.calls
    ensures FreshMoves(c, WholeCall(id, op, a))
  {
    var moves := WholeCall(id, op, a);
    var d := LearnAnswer(BeginCall(c, id, op), id, a);
    MadeCallFindsItsRow(c, id, op, a);
    RunCaseTwo(c, moves);
    assert moves[2..] == Proceeding(id, MOST) + [Crash(id)];
    RunCaseSplits(d, Proceeding(id, MOST), [Crash(id)]);
    RunCaseOne(RunCase(d, Proceeding(id, MOST)), Crash(id));
    hide Conclude, Writes, StatusAhead, RowUnmoved, BeginCall, LearnAnswer;
    if Answered(d, id) {
      ProceedingIsFresh(d, id, MOST);
    } else {
      UnansweredStays(d, id, MOST);
    }
  }

  lemma {:induction false} UnansweredStays(c: Case, id: nat, n: nat)
    requires !Answered(c, id)
    ensures RunCase(c, Proceeding(id, n)) == c && FreshMoves(c, Proceeding(id, n))
  {
    if n > 0 {
      assert Proceeding(id, n)[1..] == Proceeding(id, n - 1);
      assert Move(c, Proceed(id)) == c;
      UnansweredStays(c, id, n - 1);
    }
  }

  // ---------------------------------------------------------------------------
  // Calls that are interrupted
  // ---------------------------------------------------------------------------

  /** A stored payment that waits for its buyer. */
  function WaitingCase(terms: Terms, order: Order): Case {
    NewCase(terms, order, true, true).(status := Pending, providerRef := Some("qr-1"), calls := map[])
  }

  lemma CreatedCaseWaits(terms: Terms, order: Order)
    ensures RunCase(NewCase(terms, order, true, true), [Learn(0, Created("qr-1")), Proceed(0)]) == WaitingCase(terms, order)
  {
    var c := NewCase(terms, order, true, true);
    var moves := [Learn(0, Created("qr-1")), Proceed(0)];
    var k := c.calls[0].(answer := Some(Created("qr-1")));
    assert c.calls[0 := k] == map[0 := k] && map[0 := k] - {0} == map[];
    RunCaseTwo(c, moves);
    assert moves[2..] == [];
  }

  /** What the expire call of a waiting payment is about to do. */
  function ExpiredAnswer(): Call {
    Call(ExpireCall, Pending, None, Some(Reply(Expired)), 0)
  }

  lemma ExpireIsAnswered(c: Case)
    requires c.status.Pending? && HasReference(c) && c.calls == map[] && c.unknownOp.None?
    ensures RunCase(c, [Begin(1, ExpireCall), Learn(1, Reply(Expired))]) == c.(status := ExpirePending, calls := map[1 := ExpiredAnswer()])
  {
    var moves := [Begin(1, ExpireCall), Learn(1, Reply(Expired))];
    var k := ExpiredAnswer();
    assert map[1 := k.(answer := None)][1 := k] == map[1 := k];
    RunCaseTwo(c, moves);
    assert moves[2..] == [];
  }

  lemma FirstWriteExpires(c: Case)
    requires c.calls == map[1 := ExpiredAnswer()]
    ensures Move(c, Proceed(1)) == DoWrite(c, SetStatus(Expired, None)).(calls := map[1 := ExpiredAnswer().(done := 1)])
  {
    assert c.calls[1 := ExpiredAnswer().(done := 1)] == map[1 := ExpiredAnswer().(done := 1)];
  }

  /** A payment is created, and its expire call hears that it has expired. */
  function ExpiringMoves(): seq<CaseMove> {
    [Learn(0, Created("qr-1")), Proceed(0)] + [Begin(1, ExpireCall), Learn(1, Reply(Expired))]
  }

  lemma ExpiringCase(terms: Terms, order: Order)
    ensures RunCase(NewCase(terms, order, true, true), ExpiringMoves())
            == WaitingCase(terms, order).(status := ExpirePending, calls := map[1 := ExpiredAnswer()])
  {
    CreatedCaseWaits(terms, order);
    ExpireIsAnswered(WaitingCase(terms, order));
    RunCaseSplits(NewCase(terms, order, true, true), [Learn(0, Created("qr-1")), Proceed(0)], [Begin(1, ExpireCall), Learn(1, Reply(Expired))]);
    hide RunCase, FreshMoves;
  }

  /** The provider expires a placed payment, is paid late and says so, and only then does the
      expire call write what it was told first. Nothing the provider said was withdrawn. */
  lemma LatePaymentRaceUnpays(terms: Terms, order: Order)
    ensures var d := RunCase(NewCase(terms, order, true, true),
                             ExpiringMoves() + ([Callback(PaidEvent)] + (Proceeding(1, MOST) + [RunEffect(ConsumeHeldCoupon), RunEffect(DeliverHeldStock)])));
            && d.past.paidCallback && d.status.Expired? && d.order.payment.OrderExpired?
            && d.coupon == Some(Released) && d.stock == Some(Returned)
  {
    var rest := [Callback(PaidEvent)] + (Proceeding(1, MOST) + [RunEffect(ConsumeHeldCoupon), RunEffect(DeliverHeldStock)]);
    ExpiringCase(terms, order);
    hide RunCase, FreshMoves, ExpiringMoves, Proceeding;
    RunCaseSplits(NewCase(terms, order, true, true), ExpiringMoves(), rest);
    LatePaymentIsOverwritten(RunCase(NewCase(terms, order, true, true), ExpiringMoves()));
  }

  lemma LatePaymentIsOverwritten(c: Case)
    requires c.status.ExpirePending? && c.calls == map[1 := ExpiredAnswer()] && c.coupon == Some(Reserved) && c.stock == Some(Claimed)
    ensures var d := RunCase(c, [Callback(PaidEvent)] + (Proceeding(1, MOST) + [RunEffect(ConsumeHeldCoupon), RunEffect(DeliverHeldStock)]));
            && d.past.paidCallback && d.status.Expired? && d.order.payment.OrderExpired?
            && d.coupon == Some(Released) && d.stock == Some(Returned)
  {
    var effects := [RunEffect(ConsumeHeldCoupon), RunEffect(DeliverHeldStock)];
    var c1 := Move(c, Callback(PaidEvent));
    ExpiryIsCarried(c1);
    var c2 := DropCall(Carry(c1, WriteClosed(Expired)), 1);
    hide Proceeding, Carry;
    RunCaseSplits(c, [Callback(PaidEvent)], Proceeding(1, MOST) + effects);
    RunCaseOne(c, Callback(PaidEvent));
    RunCaseSplits(c1, Proceeding(1, MOST), effects);
    RunCaseTwo(c2, effects);
    assert effects[2..] == [];
  }

  lemma ExpiryIsCarried(c: Case)
    requires c.calls == map[1 := ExpiredAnswer()]
    ensures RunCase(c, Proceeding(1, MOST)) == DropCall(Carry(c, WriteClosed(Expired)), 1)
    ensures var d := Carry(c, WriteClosed(Expired));
            && d.status.Expired? && d.order.payment.OrderExpired? && d.past.paidCallback == c.past.paidCallback
            && d.coupon == MapCoupon(c.coupon, ReleaseCoupon) && d.stock == MapStock(c.stock, ReturnStock)
  {
    ProceedingCarries(c, 1, MOST);
    var ws := Writes(WriteClosed(Expired));
    assert ws[0..] == ws && ws[1..][1..] == ws[2..] && ws[2..][1..] == ws[3..] && ws[3..][1..] == [];
    var c1 := DoWrite(c, ws[0]);
    var c2 := DoWrite(c1, ws[1]);
    var c3 := DoWrite(c2, ws[2]);
    assert Carry(c, WriteClosed(Expired)) == DoWrites(c1, ws[1..]) == DoWrites(c2, ws[2..]) == DoWrites(c3, ws[3..]) == DoWrite(c3, ws[3]);
  }

  /** The expire call asks, the payment comes, and the call is not answered in time: the outcome of a paid
      payment becomes unknown. */
  lemma TimeoutAfterPaidUnpays(terms: Terms, order: Order)
    ensures var d := RunCase(NewCase(terms, order, true, true),
                             [Learn(0, Created("qr-1")), Proceed(0)] + [Begin(1, ExpireCall), Callback(PaidEvent), Learn(1, TimedOut), Proceed(1)]);
            d.past.paidCallback && d.status.UnknownOutcome? && d.unknownOp == Some(ExpireCall)
  {
    CreatedCaseWaits(terms, order);
    hide RunCase, FreshMoves;
    RunCaseSplits(NewCase(terms, order, true, true), [Learn(0, Created("qr-1")), Proceed(0)],
                  [Begin(1, ExpireCall), Callback(PaidEvent), Learn(1, TimedOut), Proceed(1)]);
    TimeoutIsWritten(WaitingCase(terms, order));
  }

  lemma TimeoutIsWritten(c: Case)
    requires c.status.Pending? && HasReference(c) && c.calls == map[] && c.unknownOp.None?
    ensures var d := RunCase(c, [Begin(1, ExpireCall), Callback(PaidEvent), Learn(1, TimedOut), Proceed(1)]);
            d.past.paidCallback && d.status.UnknownOutcome? && d.unknownOp == Some(ExpireCall)
  {
    var moves := [Begin(1, ExpireCall), Callback(PaidEvent), Learn(1, TimedOut), Proceed(1)];
    var k := Call(ExpireCall, Pending, None, Some(TimedOut), 0);
    var c2 := Move(Move(c, moves[0]), moves[1]);
    assert c2.calls == map[1 := k.(answer := None)] && c2.past.paidCallback;
    var c3 := Move(c2, moves[2]);
    assert map[1 := k.(answer := None)][1 := k] == map[1 := k];
    assert c3.calls == map[1 := k] && WritesOf(k)[0] == SetStatus(UnknownOutcome, Some(ExpireCall));
    RunCaseTwo(c, moves);
    RunCaseTwo(c2, moves[2..]);
    assert moves[2..][2..] == [] && moves[2..][0] == moves[2] && moves[2..][1] == moves[3];
  }

  // ---------------------------------------------------------------------------
  // A provider whose PAID is final
  // ---------------------------------------------------------------------------

  /** Whatever it answers, it says PAID. */
  predicate KeepsSayingPaid(m: CaseMove) {
    m.Learn? && m.answer.Reply? ==> m.answer.status.Paid?
  }

  /** The call had its answer already when the case was this one. */
  predicate HeardBefore(c: Case, d: Case, id: nat) {
    && Answered(c, id) && Answered(d, id) && d.calls[id] == c.calls[id].(done := d.calls[id].done)
  }

  predicate HeardLater(k: Call) {
    k.answer.Some? && k.answer.value.Reply? ==> k.answer.value.status.Paid?
  }

  ghost predicate AnswersAreFinal(c: Case, d: Case) {
    forall id :: Answered(d, id) ==> HeardBefore(c, d, id) || HeardLater(d.calls[id])
  }

  /** What a move may make of a call. */
  lemma MoveChangesCall(c: Case, m: CaseMove, id: nat)
    requires Answered(Move(c, m), id)
    ensures var k := Move(c, m).calls[id];
            || (Answered(c, id) && k == c.calls[id].(done := k.done))
            || (m.Begin? && k.answer == Some(NoReference))
            || (m.Learn? && k.answer == Some(m.answer))
  {
    hide WritesOf, DoWrite, ApplyCallback, ApplyEffect, MayBegin, Admissible;
    match m
    case Callback(kind) => CallbackKeepsCalls(c, kind);
    case RunEffect(e) => EffectLeavesCalls(c, e);
    case Proceed(x) =>
      if NextWrite(c, x).Some? {
        WriteLeavesCalls(c, NextWrite(c, x).value, c.calls);
      }
    case _ =>
  }

  lemma EffectLeavesCalls(c: Case, e: Effect)
    ensures ApplyEffect(c, e).calls == c.calls
  {
  }

  lemma MoveKeepsAnswersFinal(c: Case, d: Case, m: CaseMove)
    requires AnswersAreFinal(c, d) && KeepsSayingPaid(m)
    ensures AnswersAreFinal(c, Move(d, m))
  {
    hide Move;
    forall id | Answered(Move(d, m), id)
      ensures HeardBefore(c, Move(d, m), id) || HeardLater(Move(d, m).calls[id])
    {
      MoveChangesCall(d, m, id);
    }
  }

  lemma CallbackKeepsCalls(c: Case, kind: Normalized)
    ensures ApplyCallback(c, kind).calls == c.calls
  {
  }

  lemma {:induction false} MovesKeepAnswersFinal(c: Case, d: Case, moves: seq<CaseMove>)
    requires AnswersAreFinal(c, d) && forall k :: 0 <= k < |moves| ==> KeepsSayingPaid(moves[k])
    ensures AnswersAreFinal(c, RunCase(d, moves))
    decreases |moves|
  {
    hide Move, KeepsSayingPaid, AnswersAreFinal;
    if moves != [] {
      MoveKeepsAnswersFinal(c, d, moves[0]);
      MovesKeepAnswersFinal(c, Move(d, moves[0]), moves[1..]);
    }
  }

  /** From a case on, the provider says nothing but PAID. Then PAID is left only by a call that heard its answer
      before that, by one that was not answered in time or had no reference to ask about, or by the create call. */
  lemma FinalPaidIsLostToEarlierAnswersOnly(c: Case, moves: seq<CaseMove>, m: CaseMove)
    requires forall k :: 0 <= k < |moves| ==> KeepsSayingPaid(moves[k])
    requires RunCase(c, moves).status.Paid? && !Move(RunCase(c, moves), m).status.Paid?
    ensures var d := RunCase(c, moves);
      && m.Proceed? && Answered(d, m.call)
      && (HeardBefore(c, d, m.call) || d.calls[m.call].answer.value.TimedOut? || d.calls[m.call].answer.value.NoReference?
          || d.calls[m.call].kind.CreateCall?)
  {
    var d := RunCase(c, moves);
    MovesKeepAnswersFinal(c, c, moves);
    hide RunCase, Move, KeepsSayingPaid, WritesOf;
    PaidIsLeftExactlyByOverwrites(d, m);
    var k := d.calls[m.call];
    if !HeardBefore(c, d, m.call) && !k.kind.CreateCall? && !k.answer.value.TimedOut? && !k.answer.value.NoReference? {
      FinalAnswersOverwriteNothing(k);
    }
  }

  lemma FinalAnswersOverwriteNothing(k: Call)
    requires k.answer.Some? && k.done < |WritesOf(k)| && HeardLater(k) && !k.kind.CreateCall?
    requires !k.answer.value.TimedOut? && !k.answer.value.NoReference?
    ensures WritesOf(k)[k.done] == SetStatus(Paid, None)
  {
  }

  /** The late payment comes between the status write and the order write of the expire call: the intent
      is PAID by its callback, no query ever said so, and its order ends EXPIRED. */
  lemma LatePaymentBetweenTheWrites(terms: Terms, order: Order)
    ensures var d := RunCase(NewCase(terms, order, true, true), ExpiringMoves() + [Proceed(1), Callback(PaidEvent), Proceed(1)]);
            d.status.Paid? && d.past.paidCallback && !d.past.paidAnswer && d.order.payment.OrderExpired?
  {
    ExpiringCase(terms, order);
    hide RunCase, FreshMoves, ExpiringMoves;
    RunCaseSplits(NewCase(terms, order, true, true), ExpiringMoves(), [Proceed(1), Callback(PaidEvent), Proceed(1)]);
    OrderWriteComesLast(RunCase(NewCase(terms, order, true, true), ExpiringMoves()));
  }

  lemma OrderWriteComesLast(c: Case)
    requires c.status.ExpirePending? && c.calls == map[1 := ExpiredAnswer()] && !c.past.paidAnswer
    ensures var d := RunCase(c, [Proceed(1), Callback(PaidEvent), Proceed(1)]);
            d.status.Paid? && d.past.paidCallback && !d.past.paidAnswer && d.order.payment.OrderExpired?
  {
    var moves := [Proceed(1), Callback(PaidEvent), Proceed(1)];
    FirstWriteExpires(c);
    var c2 := Move(Move(c, moves[0]), moves[1]);
    RunCaseTwo(c, moves);
    assert moves[2..] == [Proceed(1)];
    assert c2.status.Paid? && c2.calls == map[1 := ExpiredAnswer().(done := 1)];
    assert RunCase(c2, [Proceed(1)]) == RunCase(Move(c2, Proceed(1)), [Proceed(1)][1..]);
  }

  /** A refused create gives the unit back before it writes FAILED: between the two writes the intent is
      open and its hold is gone. */
  lemma RejectedCreateFreesFirst(terms: Terms, order: Order)
    ensures var d := RunCase(NewCase(terms, order, true, true), [Learn(0, Refused), Proceed(0)]);
            Open(d.status) && d.stock == Some(Returned) && !HoldsLive(d) && !d.past.closed && d.past.rejected
  {
    var moves := [Learn(0, Refused), Proceed(0)];
    var c := NewCase(terms, order, true, true);
    var k := c.calls[0].(answer := Some(Refused));
    assert c.calls[0 := k] == map[0 := k];
    RunCaseTwo(c, moves);
    assert moves[2..] == [];
  }

  /** An order can stay EXPIRED under a settled payment: the placed payment expires, is paid late, and a lookup
      finds that before the callback does. */
  lemma LookupFirstLeavesTheOrderUnpaid(terms: Terms, order: Order)
    ensures var paid := RunCase(NewCase(terms, order, true, true),
                                ExpiringMoves() + (Proceeding(1, MOST) + [Begin(7, LookupCall), Learn(7, Reply(Paid)), Proceed(7), Callback(PaidEvent)]));
            paid.status.Paid? && paid.past.paidCallback && paid.order.payment.OrderExpired? && !paid.paidLate
  {
    var c := RunCase(NewCase(terms, order, true, true), ExpiringMoves());
    var rest := [Begin(7, LookupCall), Learn(7, Reply(Paid)), Proceed(7), Callback(PaidEvent)];
    ExpiringCase(terms, order);
    ExpiryIsCarried(c);
    var e := DropCall(Carry(c, WriteClosed(Expired)), 1);
    DoWritesLeavesCalls(c, Writes(WriteClosed(Expired)), c.calls);
    CarryIs(c, WriteClosed(Expired));
    assert HasReference(e) && 7 !in e.calls && !e.paidLate;
    hide RunCase, FreshMoves, ExpiringMoves, Proceeding, Carry;
    RunCaseSplits(NewCase(terms, order, true, true), ExpiringMoves(), Proceeding(1, MOST) + rest);
    RunCaseSplits(c, Proceeding(1, MOST), rest);
    LookupPaysTheExpired(e);
  }

  lemma LookupPaysTheExpired(c: Case)
    requires HasReference(c) && 7 !in c.calls && c.status.Expired? && c.order.payment.OrderExpired?
    ensures var paid := RunCase(c, [Begin(7, LookupCall), Learn(7, Reply(Paid)), Proceed(7), Callback(PaidEvent)]);
            paid.status.Paid? && paid.past.paidCallback && paid.order.payment.OrderExpired? && paid.paidLate == c.paidLate
  {
    var moves := [Begin(7, LookupCall), Learn(7, Reply(Paid)), Proceed(7), Callback(PaidEvent)];
    var k := Call(LookupCall, c.status, c.unknownOp, Some(Reply(Paid)), 0);
    var c2 := c.(calls := c.calls[7 := k]);
    assert Move(Move(c, moves[0]), moves[1]) == c2 by {
      assert c.calls[7 := k.(answer := None)][7 := k] == c.calls[7 := k];
    }
    LookedUpPaidKeepsTheOrder(c2, 7);
    RunCaseTwo(c, moves);
    RunCaseTwo(c2, moves[2..]);
    assert moves[2..][2..] == [];
    hide Move;
  }

  lemma LookedUpPaidKeepsTheOrder(c: Case, id: nat)
    requires Answered(c, id) && c.calls[id].kind.LookupCall? && c.calls[id].answer.value == Reply(Paid) && c.calls[id].done == 0
    ensures var paid := Move(Move(c, Proceed(id)), Callback(PaidEvent));
            paid.status.Paid? && paid.past.paidCallback && paid.order == c.order && paid.paidLate == c.paidLate
  {
    assert NextWrite(c, id) == Some(SetStatus(Paid, None));
    hide Conclude, Writes;
  }
}
