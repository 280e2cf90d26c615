/** Coupons over whole runs from the empty ledger: what is stored and why, in terms of the steps. */
module CouponRuns {
  import opened Options
  import opened Holds
  import opened Counting
  import opened CouponLedger

  /** Some step of the run is such a step, in the ledger it meets. */
  ghost predicate Sometime(steps: seq<Step>, q: (Ledger, Step) -> bool) {
    exists n :: 0 <= n < |steps| && q(Run(EMPTY, steps[..n]), steps[n])
  }

  lemma {:induction false} RunSplits(l: Ledger, s: seq<Step>, t: seq<Step>)
    ensures Run(l, s + t) == Run(Run(l, s), t)
    decreases |s|
  {
    hide Apply;
    if s == [] {
      assert s + t == t;
    } else {
      assert (s + t)[1..] == s[1..] + t;
      RunSplits(Apply(l, s[0]), s[1..], t);
    }
  }

  lemma LastStep(steps: seq<Step>)
    requires steps != []
    ensures Run(EMPTY, steps) == Apply(Run(EMPTY, steps[..|steps| - 1]), steps[|steps| - 1])
  {
    hide Apply;
    var last := |steps| - 1;
    var l := Run(EMPTY, steps[..last]);
    RunSplits(EMPTY, steps[..last], [steps[last]]);
    assert steps == steps[..last] + [steps[last]] && [steps[last]][1..] == [];
    assert Run(l, [steps[last]]) == Run(Apply(l, steps[last]), []) == Apply(l, steps[last]);
  }

  lemma SometimeGrows(steps: seq<Step>, q: (Ledger, Step) -> bool)
    requires steps != []
    ensures var last := |steps| - 1;
            Sometime(steps, q) <==> Sometime(steps[..last], q) || q(Run(EMPTY, steps[..last]), steps[last])
  {
    var last := |steps| - 1;
    var before := steps[..last];
    hide Run;
    assert forall n :: 0 <= n < last ==> before[..n] == steps[..n] && before[n] == steps[n];
    if Sometime(before, q) {
      var n :| 0 <= n < |before| && q(Run(EMPTY, before[..n]), before[n]);
      assert q(Run(EMPTY, steps[..n]), steps[n]);
    }
  }

  lemma ReachedIsOk(steps: seq<Step>)
    ensures LedgerOk(Run(EMPTY, steps))
  {
    assert LedgerOk(EMPTY);
    RunKeepsLedger(EMPTY, steps);
  }

  // ---------------------------------------------------------------------------
  // Reservations
  // ---------------------------------------------------------------------------

  ghost predicate KeyUsed(l: Ledger, c: CouponId, key: string) {
    exists r :: r in l.reservations && l.reservations[r].coupon == c && l.reservations[r].key == key
  }

  ghost predicate OrderUsed(l: Ledger, c: CouponId, order: string) {
    exists r :: r in l.reservations && l.reservations[r].coupon == c && l.reservations[r].order == order
  }

  /** The uses that count against the limits: all but the released ones. */
  ghost function Uses(l: Ledger, c: CouponId): set<ReservationId> {
    set r | r in l.reservations && l.reservations[r].coupon == c && !l.reservations[r].state.Released?
  }

  ghost function UsesBy(l: Ledger, c: CouponId, buyer: string): set<ReservationId> {
    set r | r in Uses(l, c) && l.reservations[r].buyer == Some(buyer)
  }

  /** What the discount applies to: the price of the request, or the listed one. */
  function Goods(req: Request): int {
    if req.merchandise > 0 then req.merchandise else req.listPrice
  }

  predicate InWindow(p: Policy, now: int) {
    && (p.startsAt.Some? ==> p.startsAt.value <= now)
    && (p.endsAt.Some? ==> now <= p.endsAt.value)
  }

  /** The coupon is on offer for this product, at this price and time. */
  predicate Offered(l: Ledger, c: CouponId, req: Request, now: int) {
    && c in l.coupons && l.coupons[c].policy.active && InWindow(l.coupons[c].policy, now)
    && l.coupons[c].policy.minMerchandise <= Goods(req)
    && (l.coupons[c].policy.scope == AllProducts
        || (l.coupons[c].policy.scope.Selected? && req.product != "" && req.product in l.coupons[c].policy.scope.products))
  }

  /** A use is left for everybody and for this buyer, and the order has none yet. */
  ghost predicate Free(l: Ledger, c: CouponId, req: Request)
    requires c in l.coupons
  {
    var p := l.coupons[c].policy;
    && (p.maxTotal.Some? ==> |Uses(l, c)| < p.maxTotal.value)
    && (req.buyer != "" && p.maxPerCustomer.Some? ==> |UsesBy(l, c, req.buyer)| < p.maxPerCustomer.value)
    && !OrderUsed(l, c, req.order)
  }

  /** The four answers to a request, each exactly when it is given. */
  lemma AnswersExactly(steps: seq<Step>, c: CouponId, req: Request, now: int)
    ensures var l := Run(EMPTY, steps); var o := Reserving(l, c, req, now);
      && (o.Replayed? <==> KeyUsed(l, c, req.key))
      && (o.Replayed? ==> o.existing in l.reservations && l.reservations[o.existing].coupon == c && l.reservations[o.existing].key == req.key)
      && (o.Unavailable? <==> !KeyUsed(l, c, req.key) && !Offered(l, c, req, now))
      && (o.LimitReached? <==> !KeyUsed(l, c, req.key) && Offered(l, c, req, now) && !Free(l, c, req))
      && (o.Granted? <==> !KeyUsed(l, c, req.key) && Offered(l, c, req, now) && Free(l, c, req))
  {
    hide Run;
    ReachedIsOk(steps);
    AnswersInLedger(Run(EMPTY, steps), c, req, now);
  }

  lemma AnswersInLedger(l: Ledger, c: CouponId, req: Request, now: int)
    requires LedgerOk(l)
    ensures var o := Reserving(l, c, req, now);
      && (o.Replayed? <==> KeyUsed(l, c, req.key))
      && (o.Replayed? ==> o.existing in l.reservations && l.reservations[o.existing].coupon == c && l.reservations[o.existing].key == req.key)
      && (o.Unavailable? <==> !KeyUsed(l, c, req.key) && !Offered(l, c, req, now))
      && (o.LimitReached? <==> !KeyUsed(l, c, req.key) && Offered(l, c, req, now) && !Free(l, c, req))
      && (o.Granted? <==> !KeyUsed(l, c, req.key) && Offered(l, c, req, now) && Free(l, c, req))
  {
    hide LedgerOk, KeyUsed, OrderUsed, Offered, Free, Admits, LimitHit;
    IndexesNameTheirRows(l, c, req.key, req.order);
    if c in l.coupons {
      OfferedIsAdmitted(l, c, req, now);
      FreeIsWithinLimits(l, c, req);
    } else {
      OfferedNeedsTheCoupon(l, c, req, now);
    }
  }

  lemma OfferedNeedsTheCoupon(l: Ledger, c: CouponId, req: Request, now: int)
    ensures Offered(l, c, req, now) ==> c in l.coupons
  {
  }

  lemma OfferedIsAdmitted(l: Ledger, c: CouponId, req: Request, now: int)
    requires c in l.coupons
    ensures Offered(l, c, req, now) <==> Admits(l.coupons[c].policy, req, Merchandise(req), now)
  {
  }

  lemma FreeIsWithinLimits(l: Ledger, c: CouponId, req: Request)
    requires LedgerOk(l) && c in l.coupons
    ensures Free(l, c, req) <==> !LimitHit(l, c, req.buyer) && Slot(c, req.order) !in l.byOrder
  {
    hide LedgerOk, OrderUsed, KeyUsed, Uses, UsesBy, BuyerUses;
    IndexesNameTheirRows(l, c, req.key, req.order);
    UsesAreTheCounters(l, c);
    UsesByAreTheBuyersUses(l, c, req.buyer);
  }

  lemma IndexesNameTheirRows(l: Ledger, c: CouponId, key: string, order: string)
    requires LedgerOk(l)
    ensures Slot(c, key) in l.byKey <==> KeyUsed(l, c, key)
    ensures Slot(c, key) in l.byKey ==>
              var r := l.byKey[Slot(c, key)]; r in l.reservations && l.reservations[r].coupon == c && l.reservations[r].key == key
    ensures KeyUsed(l, c, key) ==> c in l.coupons
    ensures Slot(c, order) in l.byOrder <==> OrderUsed(l, c, order)
  {
    hide CountersOk, RedemptionsOk;
    if Slot(c, key) in l.byKey {
      var r := l.byKey[Slot(c, key)];
      assert r in l.reservations && l.reservations[r].coupon == c && l.reservations[r].key == key;
    }
    if Slot(c, order) in l.byOrder {
      var r := l.byOrder[Slot(c, order)];
      assert r in l.reservations && l.reservations[r].coupon == c && l.reservations[r].order == order;
    }
  }

  lemma UsesAreTheCounters(l: Ledger, c: CouponId)
    requires LedgerOk(l) && c in l.coupons
    ensures l.coupons[c].reserved + l.coupons[c].redeemed == |Uses(l, c)|
  {
    hide KeysOk, RedemptionsOk, LiveOn, ConsumedOn, Uses;
    UsesAreLiveOrConsumed(l, c);
    var live, consumed := LiveOn(l.reservations, c), ConsumedOn(l.reservations, c);
    assert |live + consumed| == |live| + |consumed|;
  }

  lemma UsesAreLiveOrConsumed(l: Ledger, c: CouponId)
    ensures LiveOn(l.reservations, c) + ConsumedOn(l.reservations, c) == Uses(l, c)
    ensures LiveOn(l.reservations, c) * ConsumedOn(l.reservations, c) == {}
  {
  }

  lemma UsesByAreTheBuyersUses(l: Ledger, c: CouponId, buyer: string)
    ensures UsesBy(l, c, buyer) == BuyerUses(l, c, buyer)
  {
  }

  // ---------------------------------------------------------------------------
  // Policies
  // ---------------------------------------------------------------------------

  predicate SoundPolicy(p: Policy) {
    && p.value >= 1 && (p.kind == Percent ==> p.value <= 10000) && p.minMerchandise >= 0
    && (p.maxTotal.Some? ==> p.maxTotal.value >= 1) && (p.maxPerCustomer.Some? ==> p.maxPerCustomer.value >= 1)
  }

  predicate Creates(l: Ledger, s: Step, c: CouponId) {
    s.DoCreate? && s.coupon == c && c !in l.coupons && SoundPolicy(s.policy)
  }

  predicate Edits(l: Ledger, s: Step, c: CouponId) {
    s.DoPatch? && s.coupon == c && c in l.coupons && l.coupons[c].version == s.expected && SoundPolicy(s.policy)
  }

  /** A coupon comes with its first policy at version one, gets the policy of an edit that names the version it has, with
      the next version, and keeps both in every other step. */
  lemma PoliciesChangeExactly(l: Ledger, s: Step, c: CouponId)
    ensures var e := Apply(l, s);
      && (c in e.coupons <==> c in l.coupons || Creates(l, s, c))
      && (Creates(l, s, c) ==> e.coupons[c] == Coupon(s.policy, 1, 0, 0))
      && (Edits(l, s, c) ==>
            e.coupons[c] == Coupon(s.policy, l.coupons[c].version + 1, l.coupons[c].reserved, l.coupons[c].redeemed))
      && (c in l.coupons && !Edits(l, s, c) ==>
            e.coupons[c].policy == l.coupons[c].policy && e.coupons[c].version == l.coupons[c].version)
  {
    if s.DoReserve? {
      GrantedIsStored(l, s.coupon, s.req, s.now);
    }
    hide Reserving, PriceOf;
    match s
    case DoConvert(r) =>
    case _ =>
  }

  ghost predicate PoliciesSound(l: Ledger) {
    forall c :: c in l.coupons ==> SoundPolicy(l.coupons[c].policy)
  }

  lemma StepKeepsPolicies(l: Ledger, s: Step)
    requires PoliciesSound(l)
    ensures PoliciesSound(Apply(l, s))
  {
    forall c | c in Apply(l, s).coupons
      ensures SoundPolicy(Apply(l, s).coupons[c].policy)
    {
      PoliciesChangeExactly(l, s, c);
    }
    hide Apply;
  }

  lemma {:induction false} RunKeepsPolicies(l: Ledger, steps: seq<Step>)
    requires PoliciesSound(l)
    ensures PoliciesSound(Run(l, steps))
    decreases |steps|
  {
    if steps != [] {
      StepKeepsPolicies(l, steps[0]);
      hide Apply, PoliciesSound;
      RunKeepsPolicies(Apply(l, steps[0]), steps[1..]);
    }
  }

  // ---------------------------------------------------------------------------
  // What a reservation says
  // ---------------------------------------------------------------------------

  function AtLeastZero(n: int): nat {
    if n > 0 then n else 0
  }

  /** A fixed discount is its value, a percentage the nearest amount, halves upwards, and neither exceeds the goods. */
  predicate DiscountIs(p: Policy, goods: nat, d: int) {
    && (p.kind == FixedIdr ==> d == if p.value < goods then p.value else goods)
    && (p.kind == Percent ==> goods * p.value - 5000 < d * 10000 <= goods * p.value + 5000)
  }

  lemma DiscountsAreExact(p: Policy, goods: nat)
    requires SoundPolicy(p)
    ensures DiscountIs(p, goods, Discount(p.kind, p.value, goods))
  {
    if p.kind == Percent && goods > 0 {
      PercentRoundsHalfUp(p.value, goods);
    }
  }

  /** The row of a request, in whatever state it is. */
  predicate RowOf(row: Reservation, c: CouponId, p: Policy, req: Request, now: int) {
    && row.coupon == c && row.order == req.order && row.key == req.key
    && (req.buyer == "" ==> row.buyer == None) && (req.buyer != "" ==> row.buyer == Some(req.buyer))
    && row.expiresAt == now + (if req.ttl > 0 then req.ttl else 1800)
    && PriceIs(row.price, p, req)
  }

  predicate PriceIs(x: Price, p: Policy, req: Request) {
    && x.merchandise == AtLeastZero(Goods(req)) && x.tip == AtLeastZero(req.tip) && x.upsell == AtLeastZero(req.upsell)
    && DiscountIs(p, x.merchandise, x.discount)
    && x.gross == x.merchandise - x.discount + x.tip + x.upsell
  }

  lemma PricesAreExact(p: Policy, req: Request)
    requires SoundPolicy(p)
    ensures PriceIs(PriceOf(p, Merchandise(req), req.tip, req.upsell), p, req)
  {
    DiscountsAreExact(p, AtLeastZero(Goods(req)));
    hide DiscountIs, Discount;
  }

  /** The step stores the reservation. */
  ghost predicate Stores(l: Ledger, s: Step, r: ReservationId) {
    && s.DoReserve? && s.id == r && r !in l.reservations
    && !KeyUsed(l, s.coupon, s.req.key) && Offered(l, s.coupon, s.req, s.now) && Free(l, s.coupon, s.req)
  }

  /** Under a new key a reservation is stored exactly when the coupon exists and is active, its window includes the time at
      both ends, the goods reach the minimum, the product is in scope, the uses are below the cap, those of an identified
      buyer below the limit, and the order is free; then the row says what was asked, and nothing else changes but the
      counter. */
  lemma ReservesExactly(steps: seq<Step>, s: Step, r: ReservationId)
    requires s.DoReserve? && s.id == r && r !in Run(EMPTY, steps).reservations
    ensures var l := Run(EMPTY, steps); var e := Apply(l, s);
      && (r in e.reservations <==> Stores(l, s, r))
      && (!Stores(l, s, r) ==> e == l)
      && (Stores(l, s, r) ==>
            && e.reservations == l.reservations[r := e.reservations[r]] && e.reservations[r].state.Reserved?
            && RowOf(e.reservations[r], s.coupon, l.coupons[s.coupon].policy, s.req, s.now)
            && e.coupons == l.coupons[s.coupon := l.coupons[s.coupon].(reserved := l.coupons[s.coupon].reserved + 1)]
            && e.redemptions == l.redemptions)
  {
    hide Run;
    ReachedIsOk(steps);
    RunKeepsPolicies(EMPTY, steps);
    StoresInLedger(Run(EMPTY, steps), s, r);
  }

  lemma StoresInLedger(l: Ledger, s: Step, r: ReservationId)
    requires LedgerOk(l) && PoliciesSound(l) && s.DoReserve? && s.id == r && r !in l.reservations
    ensures var e := Apply(l, s);
      && (r in e.reservations <==> Stores(l, s, r))
      && (!Stores(l, s, r) ==> e == l)
      && (Stores(l, s, r) ==>
            && e.reservations == l.reservations[r := e.reservations[r]] && e.reservations[r].state.Reserved?
            && RowOf(e.reservations[r], s.coupon, l.coupons[s.coupon].policy, s.req, s.now)
            && e.coupons == l.coupons[s.coupon := l.coupons[s.coupon].(reserved := l.coupons[s.coupon].reserved + 1)]
            && e.redemptions == l.redemptions)
  {
    AnswersInLedger(l, s.coupon, s.req, s.now);
    if Stores(l, s, r) {
      NewRowIs(l, s.coupon, s.req, s.now);
      CountersAreCounts(l, s.coupon);
    }
    hide LedgerOk, PoliciesSound, KeyUsed, Offered, Free, Reserving, NewReservation, RowOf;
  }

  lemma NewRowIs(l: Ledger, c: CouponId, req: Request, now: int)
    requires c in l.coupons && PoliciesSound(l)
    ensures NewReservation(l, c, req, now).state.Reserved?
    ensures RowOf(NewReservation(l, c, req, now), c, l.coupons[c].policy, req, now)
  {
    PricesAreExact(l.coupons[c].policy, req);
    hide PriceOf, PriceIs;
  }

  lemma CountersAreCounts(l: Ledger, c: CouponId)
    requires LedgerOk(l) && c in l.coupons
    ensures l.coupons[c].reserved >= 0 && l.coupons[c].redeemed >= 0
  {
  }

  // ---------------------------------------------------------------------------
  // Whole runs
  // ---------------------------------------------------------------------------

  ghost function Storing(r: ReservationId): (Ledger, Step) -> bool {
    (l: Ledger, s: Step) => Stores(l, s, r)
  }

  predicate InState(l: Ledger, r: ReservationId, state: CouponHold) {
    r in l.reservations && l.reservations[r].state == state
  }

  predicate IsLive(l: Ledger, r: ReservationId) {
    InState(l, r, Reserved) || InState(l, r, HeldUnknown)
  }

  predicate Frees(l: Ledger, s: Step, r: ReservationId) {
    s.DoRelease? && s.id == r && IsLive(l, r)
  }

  ghost predicate OrderRedeemed(l: Ledger, order: string) {
    exists x :: x in l.redemptions && l.redemptions[x].order == order
  }

  ghost predicate Redeems(l: Ledger, s: Step, r: ReservationId) {
    s.DoConvert? && s.id == r && IsLive(l, r) && !OrderRedeemed(l, l.reservations[r].order)
  }

  predicate Suspends(l: Ledger, s: Step, r: ReservationId) {
    s.DoHold? && s.id == r && InState(l, r, Reserved)
  }

  /** Where each state comes from and where it ends. */
  lemma StepMovesExactly(l: Ledger, s: Step, r: ReservationId)
    requires LedgerOk(l) && PoliciesSound(l)
    ensures var e := Apply(l, s);
      && (InState(e, r, Reserved) <==>
            Stores(l, s, r) || (InState(l, r, Reserved) && !Frees(l, s, r) && !Redeems(l, s, r) && !Suspends(l, s, r)))
      && (InState(e, r, HeldUnknown) <==>
            Suspends(l, s, r) || (InState(l, r, HeldUnknown) && !Frees(l, s, r) && !Redeems(l, s, r)))
      && (InState(e, r, Released) <==> InState(l, r, Released) || Frees(l, s, r))
      && (InState(e, r, Consumed) <==> InState(l, r, Consumed) || Redeems(l, s, r))
  {
    hide LedgerOk, PoliciesSound, Stores, Redeems, Apply, RowOf;
    OnlyItselfMoves(l, s, r);
    match s
    case DoReserve(c, x, req, now) =>
      if x !in l.reservations {
        StoresInLedger(l, s, x);
      } else {
        TakenIdsChangeNothing(l, s);
      }
    case DoConvert(x) => ConvertingMoves(l, s);
    case DoRelease(x) => ReleasingMoves(l, s);
    case DoHold(x) => HoldingMoves(l, s);
    case DoCreate(c, p) => PoliciesMoveNothing(l, s);
    case DoPatch(c, v, p) => PoliciesMoveNothing(l, s);
  }

  lemma OnlyItselfMoves(l: Ledger, s: Step, r: ReservationId)
    ensures Stores(l, s, r) ==> s.DoReserve? && s.id == r && r !in l.reservations
    ensures Redeems(l, s, r) ==> s.DoConvert? && s.id == r && IsLive(l, r)
  {
  }

  lemma TakenIdsChangeNothing(l: Ledger, s: Step)
    requires s.DoReserve? && s.id in l.reservations
    ensures Apply(l, s) == l
  {
  }

  lemma PoliciesMoveNothing(l: Ledger, s: Step)
    requires s.DoCreate? || s.DoPatch?
    ensures Apply(l, s).reservations == l.reservations
  {
  }

  lemma ConvertingMoves(l: Ledger, s: Step)
    requires LedgerOk(l) && s.DoConvert?
    ensures !Redeems(l, s, s.id) ==> Apply(l, s).reservations == l.reservations
    ensures Redeems(l, s, s.id) ==> Apply(l, s).reservations == l.reservations[s.id := l.reservations[s.id].(state := Consumed)]
  {
    hide LedgerOk, OrderRedeemed, Convert;
    StoredIsKnown(l, s.id);
    if IsLive(l, s.id) {
      OrdersAreRedeemedByRows(l, l.reservations[s.id].order);
      ConvertsLive(l, s.id);
    } else {
      ConvertsNothingElse(l, s.id);
    }
  }

  lemma ConvertsLive(l: Ledger, r: ReservationId)
    requires IsLive(l, r) && Known(l, r) && r !in l.redemptions
    ensures l.reservations[r].order in l.byRedeemedOrder ==> Convert(l, r) == l
    ensures l.reservations[r].order !in l.byRedeemedOrder ==>
              Convert(l, r).reservations == l.reservations[r := l.reservations[r].(state := Consumed)]
  {
    hide Adjust;
  }

  lemma ConvertsNothingElse(l: Ledger, r: ReservationId)
    requires !IsLive(l, r)
    ensures Convert(l, r) == l
  {
  }

  lemma ReleasingMoves(l: Ledger, s: Step)
    requires LedgerOk(l) && s.DoRelease?
    ensures !Frees(l, s, s.id) ==> Apply(l, s).reservations == l.reservations
    ensures Frees(l, s, s.id) ==> Apply(l, s).reservations == l.reservations[s.id := l.reservations[s.id].(state := Released)]
  {
    hide LedgerOk, Adjust;
    StoredIsKnown(l, s.id);
  }

  lemma HoldingMoves(l: Ledger, s: Step)
    requires LedgerOk(l) && s.DoHold?
    ensures !Suspends(l, s, s.id) ==> Apply(l, s).reservations == l.reservations
    ensures Suspends(l, s, s.id) ==> Apply(l, s).reservations == l.reservations[s.id := l.reservations[s.id].(state := HeldUnknown)]
  {
    hide LedgerOk, Adjust;
    StoredIsKnown(l, s.id);
  }

  lemma OrdersAreRedeemedByRows(l: Ledger, order: string)
    requires LedgerOk(l)
    ensures order in l.byRedeemedOrder <==> OrderRedeemed(l, order)
  {
    hide CountersOk, KeysOk;
    if order in l.byRedeemedOrder {
      RedeemedIndexNamesItsRow(l, order);
    }
  }

  lemma RedeemedIndexNamesItsRow(l: Ledger, order: string)
    requires RedemptionsOk(l) && order in l.byRedeemedOrder
    ensures l.byRedeemedOrder[order] in l.redemptions && l.redemptions[l.byRedeemedOrder[order]].order == order
  {
  }

  ghost function Freeing(r: ReservationId): (Ledger, Step) -> bool {
    (l: Ledger, s: Step) => Frees(l, s, r)
  }

  ghost function Redeeming(r: ReservationId): (Ledger, Step) -> bool {
    (l: Ledger, s: Step) => Redeems(l, s, r)
  }

  ghost function Suspending(r: ReservationId): (Ledger, Step) -> bool {
    (l: Ledger, s: Step) => Suspends(l, s, r)
  }

  /** After any run a reservation is RELEASED exactly when some step released it alive, CONSUMED exactly when some step
      converted it alive with its order not yet redeemed, HELD_UNKNOWN exactly when it was suspended and neither happened,
      and RESERVED exactly when it was stored and none of the three happened. */
  lemma {:induction false} StatesAreWhatHappened(steps: seq<Step>, r: ReservationId)
    ensures var l := Run(EMPTY, steps);
      var freed := Sometime(steps, Freeing(r)); var redeemed := Sometime(steps, Redeeming(r)); var suspended := Sometime(steps, Suspending(r));
      && (InState(l, r, Released) <==> freed)
      && (InState(l, r, Consumed) <==> redeemed)
      && (InState(l, r, HeldUnknown) <==> suspended && !freed && !redeemed)
      && (InState(l, r, Reserved) <==> Sometime(steps, Storing(r)) && !suspended && !freed && !redeemed)
    decreases |steps|
  {
    if steps == [] {
      assert Run(EMPTY, steps) == EMPTY;
    } else {
      var last := |steps| - 1;
      ReachedIsOk(steps[..last]);
      RunKeepsPolicies(EMPTY, steps[..last]);
      LastStep(steps);
      StepMovesExactly(Run(EMPTY, steps[..last]), steps[last], r);
      StatesAreWhatHappened(steps[..last], r);
      SometimeGrows(steps, Freeing(r));
      SometimeGrows(steps, Redeeming(r));
      SometimeGrows(steps, Suspending(r));
      SometimeGrows(steps, Storing(r));
      MovesNeedTheirState(Run(EMPTY, steps[..last]), steps[last], r);
      hide Run, Apply, InState, Stores, Frees, Redeems, Suspends, Sometime, LedgerOk;
    }
  }

  lemma MovesNeedTheirState(l: Ledger, s: Step, r: ReservationId)
    ensures Stores(l, s, r) ==> forall state :: !InState(l, r, state)
    ensures Frees(l, s, r) || Redeems(l, s, r) ==> IsLive(l, r)
    ensures Suspends(l, s, r) ==> InState(l, r, Reserved)
    ensures forall a, b :: InState(l, r, a) && InState(l, r, b) ==> a == b
  {
  }

  /** The step stored the reservation, and the row still says what that step asked under the policy of that time. */
  ghost predicate StoredBy(l: Ledger, s: Step, r: ReservationId, row: Reservation) {
    Stores(l, s, r) && RowOf(row, s.coupon, l.coupons[s.coupon].policy, s.req, s.now)
  }

  ghost function StoringAs(r: ReservationId, row: Reservation): (Ledger, Step) -> bool {
    (l: Ledger, s: Step) => StoredBy(l, s, r, row)
  }

  /** Every stored reservation of any run was made by one of its steps, within the window, limits and scope the policy had
      then, and still has the price and expiry that step gave it. */
  lemma {:induction false} ReservationsWereAdmitted(steps: seq<Step>, r: ReservationId)
    requires r in Run(EMPTY, steps).reservations
    ensures Sometime(steps, StoringAs(r, Run(EMPTY, steps).reservations[r]))
    decreases |steps|
  {
    if steps == [] {
      assert false;
    } else {
      var last := |steps| - 1;
      var l, s, row := Run(EMPTY, steps[..last]), steps[last], Run(EMPTY, steps).reservations[r];
      LastStep(steps);
      ReachedIsOk(steps[..last]);
      RunKeepsPolicies(EMPTY, steps[..last]);
      SometimeGrows(steps, StoringAs(r, row));
      hide Run, Sometime, LedgerOk, PoliciesSound, Stores, RowOf;
      if r in l.reservations {
        ReservationsWereAdmitted(steps[..last], r);
        StepKeepsRow(l, s, r);
        StateDoesNotMatter(steps[..last], r, l.reservations[r], row);
      } else {
        NewRowsAreStored(l, s, r);
      }
    }
  }

  lemma StateDoesNotMatter(steps: seq<Step>, r: ReservationId, x: Reservation, y: Reservation)
    requires SameTerms(x, y) && Sometime(steps, StoringAs(r, x))
    ensures Sometime(steps, StoringAs(r, y))
  {
    hide Run, Stores, PriceIs;
    var n :| 0 <= n < |steps| && StoringAs(r, x)(Run(EMPTY, steps[..n]), steps[n]);
    assert StoringAs(r, y)(Run(EMPTY, steps[..n]), steps[n]);
  }

  lemma NewRowsAreStored(l: Ledger, s: Step, r: ReservationId)
    requires LedgerOk(l) && PoliciesSound(l) && r !in l.reservations && r in Apply(l, s).reservations
    ensures StoredBy(l, s, r, Apply(l, s).reservations[r])
  {
    hide LedgerOk, PoliciesSound, Stores, Redeems, RowOf, Apply;
    StepMovesExactly(l, s, r);
    assert InState(Apply(l, s), r, Apply(l, s).reservations[r].state);
    OnlyItselfMoves(l, s, r);
    if s.DoReserve? && s.id == r {
      StoresInLedger(l, s, r);
    }
  }
}
