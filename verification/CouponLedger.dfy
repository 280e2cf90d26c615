/**
 Coupons with their reservations and redemptions. Every operation is one transaction
 on the tables; the counters on the coupon row are projections that the operations
 adjust by hand, and the ledger is sound when they say what the tables say.
 */
module CouponLedger {
  import opened Options
  import opened Holds
  import opened Counting

  type CouponId = string
  type ReservationId = string

  datatype DiscountKind = Percent | FixedIdr

  datatype Scope = AllProducts | Selected(products: set<string>)

  /** What a seller sets. */
  datatype Policy = Policy(
    active: bool, startsAt: Option<int>, endsAt: Option<int>, minMerchandise: int, scope: Scope,
    kind: DiscountKind, value: int, maxTotal: Option<int>, maxPerCustomer: Option<int>)

  datatype Coupon = Coupon(policy: Policy, version: nat, reserved: int, redeemed: int)

  datatype Price = Price(merchandise: int, discount: int, tip: int, upsell: int, gross: int)

  datatype Reservation = Reservation(
    coupon: CouponId, order: string, key: string, buyer: Option<string>, price: Price,
    state: CouponHold, expiresAt: int)

  datatype Redemption = Redemption(coupon: CouponId, order: string, price: Price)

  datatype Slot = Slot(coupon: CouponId, name: string)

  /** byKey, byOrder and byRedeemedOrder are the unique indexes; redemptions are unique by reservation. */
  datatype Ledger = Ledger(
    coupons: map<CouponId, Coupon>, reservations: map<ReservationId, Reservation>,
    byKey: map<Slot, ReservationId>, byOrder: map<Slot, ReservationId>,
    redemptions: map<ReservationId, Redemption>, byRedeemedOrder: map<string, ReservationId>)

  datatype Request = Request(
    product: string, order: string, key: string, buyer: string, listPrice: int, merchandise: int,
    tip: int, upsell: int, ttl: int)

  datatype ReserveOutcome = Granted | Replayed(existing: ReservationId) | Unavailable | LimitReached

  const EMPTY := Ledger(map[], map[], map[], map[], map[], map[])

  // ---------------------------------------------------------------------------
  // Prices
  // ---------------------------------------------------------------------------

  /** Percent values are basis points, rounded half up; no discount exceeds what it applies to. */
  function Discount(kind: DiscountKind, value: int, eligible: int): (d: int)
    ensures 0 <= d && (eligible >= 0 ==> d <= eligible)
  {
    if eligible <= 0 || value <= 0 then 0
    else
      var raw := if kind.Percent? then (eligible * value + 5000) / 10000 else value;
      if raw > eligible then eligible else raw
  }

  lemma PercentRoundsHalfUp(value: int, eligible: int)
    requires 0 < value <= 10000 && 0 < eligible
    ensures var d := Discount(Percent, value, eligible);
            eligible * value - 5000 < d * 10000 <= eligible * value + 5000
  {
    var raw := (eligible * value + 5000) / 10000;
    assert eligible * value <= eligible * 10000;
    assert raw * 10000 <= eligible * value + 5000 < raw * 10000 + 10000;
  }

  function PriceOf(p: Policy, merchandise: int, tip: int, upsell: int): (r: Price)
    ensures r.gross == r.merchandise - r.discount + r.tip + r.upsell
    ensures 0 <= r.discount <= r.merchandise && 0 <= r.tip && 0 <= r.upsell && 0 <= r.gross
  {
    var m := if merchandise < 0 then 0 else merchandise;
    var t := if tip < 0 then 0 else tip;
    var u := if upsell < 0 then 0 else upsell;
    var d := Discount(p.kind, p.value, m);
    Price(m, d, t, u, m - d + t + u)
  }

  // ---------------------------------------------------------------------------
  // The operations
  // ---------------------------------------------------------------------------

  /** The guarded update of the counters: an adjustment below zero is silently dropped. */
  function Adjust(c: Coupon, reservedBy: int, redeemedBy: int): Coupon {
    if c.reserved + reservedBy >= 0 && c.redeemed + redeemedBy >= 0
    then c.(reserved := c.reserved + reservedBy, redeemed := c.redeemed + redeemedBy)
    else c
  }

  predicate Admits(p: Policy, req: Request, merchandise: int, now: int) {
    && p.active
    && (p.startsAt.Some? ==> now >= p.startsAt.value)
    && (p.endsAt.Some? ==> now <= p.endsAt.value)
    && merchandise >= p.minMerchandise
    && (p.scope.Selected? ==> req.product != "" && req.product in p.scope.products)
  }

  predicate CountsForBuyer(r: Reservation, c: CouponId, buyer: string) {
    r.coupon == c && r.buyer == Some(buyer) && !r.state.Released?
  }

  function BuyerUses(l: Ledger, c: CouponId, buyer: string): set<ReservationId> {
    set r | r in l.reservations && CountsForBuyer(l.reservations[r], c, buyer)
  }

  predicate LimitHit(l: Ledger, c: CouponId, buyer: string)
    requires c in l.coupons
  {
    var row := l.coupons[c];
    || (row.policy.maxTotal.Some? && row.reserved + row.redeemed >= row.policy.maxTotal.value)
    || (buyer != "" && row.policy.maxPerCustomer.Some? && |BuyerUses(l, c, buyer)| >= row.policy.maxPerCustomer.value)
  }

  function Merchandise(req: Request): int {
    if req.merchandise > 0 then req.merchandise else req.listPrice
  }

  const DEFAULT_TTL := 1800

  function Lifetime(req: Request): int {
    if req.ttl > 0 then req.ttl else DEFAULT_TTL
  }

  function Reserving(l: Ledger, c: CouponId, req: Request, now: int): ReserveOutcome {
    if c !in l.coupons then Unavailable
    else if Slot(c, req.key) in l.byKey then Replayed(l.byKey[Slot(c, req.key)])
    else if !Admits(l.coupons[c].policy, req, Merchandise(req), now) then Unavailable
    else if LimitHit(l, c, req.buyer) then LimitReached
    else if Slot(c, req.order) in l.byOrder then LimitReached
    else Granted
  }

  function NewReservation(l: Ledger, c: CouponId, req: Request, now: int): Reservation
    requires c in l.coupons
  {
    Reservation(c, req.order, req.key, if req.buyer != "" then Some(req.buyer) else None,
                PriceOf(l.coupons[c].policy, Merchandise(req), req.tip, req.upsell), Reserved, now + Lifetime(req))
  }

  function Reserve(l: Ledger, c: CouponId, r: ReservationId, req: Request, now: int): Ledger {
    if r in l.reservations || !Reserving(l, c, req, now).Granted? then l
    else
      l.(reservations := l.reservations[r := NewReservation(l, c, req, now)],
         byKey := l.byKey[Slot(c, req.key) := r],
         byOrder := l.byOrder[Slot(c, req.order) := r],
         coupons := l.coupons[c := Adjust(l.coupons[c], 1, 0)])
  }

  /** A state change with its counter adjustment. */
  function MoveTo(l: Ledger, r: ReservationId, to: CouponHold, reservedBy: int, redeemedBy: int): Ledger
    requires r in l.reservations && l.reservations[r].coupon in l.coupons
  {
    var c := l.reservations[r].coupon;
    l.(reservations := l.reservations[r := l.reservations[r].(state := to)],
       coupons := l.coupons[c := Adjust(l.coupons[c], reservedBy, redeemedBy)])
  }

  predicate Known(l: Ledger, r: ReservationId) {
    r in l.reservations && l.reservations[r].coupon in l.coupons
  }

  function Release(l: Ledger, r: ReservationId): Ledger {
    if !Known(l, r) || !CouponLive(l.reservations[r].state) then l
    else MoveTo(l, r, Released, -1, 0)
  }

  function HoldUnknown(l: Ledger, r: ReservationId): Ledger {
    if !Known(l, r) || !l.reservations[r].state.Reserved? then l
    else l.(reservations := l.reservations[r := l.reservations[r].(state := HeldUnknown)])
  }

  /** An order redeemed under another reservation makes the whole transaction roll back. */
  function Convert(l: Ledger, r: ReservationId): Ledger {
    if !Known(l, r) || r in l.redemptions || !CouponLive(l.reservations[r].state) then l
    else
      var res := l.reservations[r];
      if res.order in l.byRedeemedOrder then l
      else
        MoveTo(l, r, Consumed, -1, 1).(
          redemptions := l.redemptions[r := Redemption(res.coupon, res.order, res.price)],
          byRedeemedOrder := l.byRedeemedOrder[res.order := r])
  }

  predicate ValidPolicy(p: Policy) {
    && p.value > 0 && (p.kind.Percent? ==> p.value <= 10000) && p.minMerchandise >= 0
    && (p.maxTotal.Some? ==> p.maxTotal.value > 0)
    && (p.maxPerCustomer.Some? ==> p.maxPerCustomer.value > 0)
  }

  function Create(l: Ledger, c: CouponId, p: Policy): Ledger {
    if c in l.coupons || !ValidPolicy(p) then l else l.(coupons := l.coupons[c := Coupon(p, 1, 0, 0)])
  }

  /** A seller's edit or state change, on the version it was read at. */
  function Patch(l: Ledger, c: CouponId, expected: nat, p: Policy): Ledger {
    if c !in l.coupons || l.coupons[c].version != expected || !ValidPolicy(p) then l
    else l.(coupons := l.coupons[c := l.coupons[c].(policy := p, version := expected + 1)])
  }

  datatype Step =
    | DoCreate(coupon: CouponId, policy: Policy)
    | DoPatch(coupon: CouponId, expected: nat, policy: Policy)
    | DoReserve(coupon: CouponId, id: ReservationId, req: Request, now: int)
    | DoRelease(id: ReservationId)
    | DoHold(id: ReservationId)
    | DoConvert(id: ReservationId)

  function Apply(l: Ledger, s: Step): Ledger {
    match s
    case DoCreate(c, p) => Create(l, c, p)
    case DoPatch(c, expected, p) => Patch(l, c, expected, p)
    case DoReserve(c, r, req, now) => Reserve(l, c, r, req, now)
    case DoRelease(r) => Release(l, r)
    case DoHold(r) => HoldUnknown(l, r)
    case DoConvert(r) => Convert(l, r)
  }

  function Run(l: Ledger, steps: seq<Step>): Ledger
    decreases |steps|
  {
    if steps == [] then l else Run(Apply(l, steps[0]), steps[1..])
  }

  // ---------------------------------------------------------------------------
  // What the tables must say
  // ---------------------------------------------------------------------------

  function LiveFor(c: CouponId): Reservation -> bool {
    (x: Reservation) => x.coupon == c && CouponLive(x.state)
  }

  function ConsumedFor(c: CouponId): Reservation -> bool {
    (x: Reservation) => x.coupon == c && x.state.Consumed?
  }

  function LiveOn(rows: map<ReservationId, Reservation>, c: CouponId): set<ReservationId> {
    Where(rows, LiveFor(c))
  }

  function ConsumedOn(rows: map<ReservationId, Reservation>, c: CouponId): set<ReservationId> {
    Where(rows, ConsumedFor(c))
  }

  ghost predicate CountersOk(l: Ledger) {
    forall c :: c in l.coupons ==>
      l.coupons[c].reserved == |LiveOn(l.reservations, c)| && l.coupons[c].redeemed == |ConsumedOn(l.reservations, c)|
  }

  ghost predicate KeysOk(l: Ledger) {
    RowsIndexed(l) && IndexesNameRows(l)
  }

  ghost predicate RowsIndexed(l: Ledger) {
    forall r :: r in l.reservations ==>
      var x := l.reservations[r];
      && x.coupon in l.coupons
      && Slot(x.coupon, x.key) in l.byKey && l.byKey[Slot(x.coupon, x.key)] == r
      && Slot(x.coupon, x.order) in l.byOrder && l.byOrder[Slot(x.coupon, x.order)] == r
  }

  ghost predicate IndexesNameRows(l: Ledger) {
    && (forall k :: k in l.byKey ==>
          l.byKey[k] in l.reservations && l.reservations[l.byKey[k]].coupon == k.coupon && l.reservations[l.byKey[k]].key == k.name)
    && (forall k :: k in l.byOrder ==>
          l.byOrder[k] in l.reservations && l.reservations[l.byOrder[k]].coupon == k.coupon && l.reservations[l.byOrder[k]].order == k.name)
  }

  /** Redemptions are the consumed reservations, and no order is redeemed twice. */
  ghost predicate RedemptionsOk(l: Ledger) {
    && (forall r :: r in l.redemptions <==> r in l.reservations && l.reservations[r].state.Consumed?)
    && (forall r :: r in l.redemptions ==>
          && l.redemptions[r].coupon == l.reservations[r].coupon && l.redemptions[r].order == l.reservations[r].order
          && l.redemptions[r].price == l.reservations[r].price
          && l.redemptions[r].order in l.byRedeemedOrder && l.byRedeemedOrder[l.redemptions[r].order] == r)
    && (forall o :: o in l.byRedeemedOrder ==>
          l.byRedeemedOrder[o] in l.redemptions && l.redemptions[l.byRedeemedOrder[o]].order == o)
  }

  ghost predicate LedgerOk(l: Ledger) {
    CountersOk(l) && KeysOk(l) && RedemptionsOk(l)
  }

  predicate LiveRow(rows: map<ReservationId, Reservation>, r: ReservationId, c: CouponId) {
    r in rows && rows[r].coupon == c && CouponLive(rows[r].state)
  }

  predicate ConsumedRow(rows: map<ReservationId, Reservation>, r: ReservationId, c: CouponId) {
    r in rows && rows[r].coupon == c && rows[r].state.Consumed?
  }

  /** How one changed row changes the two counts of a coupon. */
  lemma RowChange(rows: map<ReservationId, Reservation>, r: ReservationId, row: Reservation, c: CouponId)
    ensures var after := rows[r := row];
      && |LiveOn(after, c)| == |LiveOn(rows, c)| - One(LiveRow(rows, r, c)) + One(LiveRow(after, r, c))
      && |ConsumedOn(after, c)| == |ConsumedOn(rows, c)| - One(ConsumedRow(rows, r, c)) + One(ConsumedRow(after, r, c))
  {
    var after := rows[r := row];
    WhereChange(rows, r, row, LiveFor(c));
    WhereChange(rows, r, row, ConsumedFor(c));
  }

  /** One changed row with its adjustment keeps every coupon's counters right. */
  lemma Recount(l: Ledger, e: Ledger, r: ReservationId, row: Reservation, reservedBy: int, redeemedBy: int)
    requires CountersOk(l) && row.coupon in l.coupons && (r in l.reservations ==> l.reservations[r].coupon == row.coupon)
    requires e.reservations == l.reservations[r := row]
    requires e.coupons == l.coupons[row.coupon := Adjust(l.coupons[row.coupon], reservedBy, redeemedBy)]
    requires reservedBy == One(CouponLive(row.state)) - One(LiveRow(l.reservations, r, row.coupon))
    requires redeemedBy == One(row.state.Consumed?) - One(ConsumedRow(l.reservations, r, row.coupon))
    ensures CountersOk(e)
    ensures e.coupons[row.coupon].reserved == l.coupons[row.coupon].reserved + reservedBy
    ensures e.coupons[row.coupon].redeemed == l.coupons[row.coupon].redeemed + redeemedBy
  {
    hide LiveOn, ConsumedOn;
    forall d | d in e.coupons
      ensures e.coupons[d].reserved == |LiveOn(e.reservations, d)| && e.coupons[d].redeemed == |ConsumedOn(e.reservations, d)|
    {
      RowChange(l.reservations, r, row, d);
    }
    RowChange(l.reservations, r, row, row.coupon);
  }

  lemma ReserveCounts(l: Ledger, c: CouponId, r: ReservationId, req: Request, now: int)
    requires LedgerOk(l)
    ensures CountersOk(Reserve(l, c, r, req, now))
  {
    if r !in l.reservations && Reserving(l, c, req, now).Granted? {
      hide CountersOk, KeysOk, RedemptionsOk, PriceOf, LimitHit, Admits;
      Recount(l, Reserve(l, c, r, req, now), r, NewReservation(l, c, req, now), 1, 0);
    }
  }

  /** Moving a live reservation to an end state moves exactly one unit of the counters, and the
      guards of the adjustment never drop it. */
  lemma MoveCounts(l: Ledger, r: ReservationId, to: CouponHold)
    requires LedgerOk(l) && Known(l, r) && CouponLive(l.reservations[r].state) && !CouponLive(to)
    ensures var c := l.reservations[r].coupon; var e := MoveTo(l, r, to, -1, One(to.Consumed?));
            && e.coupons[c].reserved == l.coupons[c].reserved - 1
            && e.coupons[c].redeemed == l.coupons[c].redeemed + One(to.Consumed?)
            && CountersOk(e)
  {
    hide CountersOk, KeysOk, RedemptionsOk;
    Recount(l, MoveTo(l, r, to, -1, One(to.Consumed?)), r, l.reservations[r].(state := to), -1, One(to.Consumed?));
  }

  lemma HoldCounts(l: Ledger, r: ReservationId)
    requires LedgerOk(l)
    ensures CountersOk(HoldUnknown(l, r))
  {
    hide KeysOk, RedemptionsOk, LiveOn, ConsumedOn;
    if Known(l, r) && l.reservations[r].state.Reserved? {
      forall d | d in l.coupons
        ensures |LiveOn(HoldUnknown(l, r).reservations, d)| == |LiveOn(l.reservations, d)|
        ensures |ConsumedOn(HoldUnknown(l, r).reservations, d)| == |ConsumedOn(l.reservations, d)|
      {
        HoldCountsOn(l.reservations, r, d);
      }
    }
  }

  lemma HoldCountsOn(rows: map<ReservationId, Reservation>, r: ReservationId, d: CouponId)
    requires r in rows && rows[r].state.Reserved?
    ensures var after := rows[r := rows[r].(state := HeldUnknown)];
            |LiveOn(after, d)| == |LiveOn(rows, d)| && |ConsumedOn(after, d)| == |ConsumedOn(rows, d)|
  {
    hide LiveOn, ConsumedOn;
    RowChange(rows, r, rows[r].(state := HeldUnknown), d);
  }

  lemma NewCouponCountsNothing(l: Ledger, c: CouponId)
    requires KeysOk(l) && c !in l.coupons
    ensures LiveOn(l.reservations, c) == {} && ConsumedOn(l.reservations, c) == {}
  {
  }

  lemma StepKeepsCounters(l: Ledger, s: Step)
    requires LedgerOk(l)
    ensures CountersOk(Apply(l, s))
  {
    hide KeysOk, RedemptionsOk, LiveOn, ConsumedOn, Admits, LimitHit, PriceOf;
    match s
    case DoCreate(c, p) =>
      if c !in l.coupons {
        NewCouponCountsNothing(l, c);
      }
    case DoPatch(c, expected, p) =>
    case DoReserve(c, r, req, now) => ReserveCounts(l, c, r, req, now);
    case DoRelease(r) =>
      if Known(l, r) && CouponLive(l.reservations[r].state) {
        MoveCounts(l, r, Released);
      }
    case DoHold(r) => HoldCounts(l, r);
    case DoConvert(r) =>
      if Known(l, r) && CouponLive(l.reservations[r].state) {
        MoveCounts(l, r, Consumed);
      }
  }

  lemma StepKeepsLedger(l: Ledger, s: Step)
    requires LedgerOk(l)
    ensures LedgerOk(Apply(l, s))
  {
    StepKeepsCounters(l, s);
    if s.DoReserve? {
      ReserveKeepsKeys(l, s.coupon, s.id, s.req, s.now);
      ReserveKeepsRedemptions(l, s.coupon, s.id, s.req, s.now);
      hide CountersOk, KeysOk, RedemptionsOk, Reserve;
    } else {
      StepKeepsKeys(l, s);
      StepKeepsRedemptions(l, s);
      hide Apply, CountersOk, KeysOk, RedemptionsOk;
    }
  }

  lemma ReserveKeepsKeys(l: Ledger, c: CouponId, r: ReservationId, req: Request, now: int)
    requires KeysOk(l)
    ensures KeysOk(Reserve(l, c, r, req, now))
  {
    if r !in l.reservations && Reserving(l, c, req, now).Granted? {
      var row := NewReservation(l, c, req, now);
      assert row.coupon == c && row.key == req.key && row.order == req.order;
      hide NewReservation, Adjust, Admits, LimitHit, KeysOk;
      AddedKeepsKeys(l, Reserve(l, c, r, req, now), r, row);
    }
  }

  lemma AddedKeepsKeys(l: Ledger, e: Ledger, r: ReservationId, row: Reservation)
    requires KeysOk(l) && r !in l.reservations && row.coupon in l.coupons && e.coupons.Keys == l.coupons.Keys
    requires Slot(row.coupon, row.key) !in l.byKey && Slot(row.coupon, row.order) !in l.byOrder
    requires e.reservations == l.reservations[r := row]
    requires e.byKey == l.byKey[Slot(row.coupon, row.key) := r] && e.byOrder == l.byOrder[Slot(row.coupon, row.order) := r]
    ensures KeysOk(e)
  {
    AddedIsIndexed(l, e, r, row);
    AddedIsNamed(l, e, r, row);
    hide RowsIndexed, IndexesNameRows;
  }

  lemma AddedIsNamed(l: Ledger, e: Ledger, r: ReservationId, row: Reservation)
    requires IndexesNameRows(l) && r !in l.reservations
    requires e.reservations == l.reservations[r := row]
    requires e.byKey == l.byKey[Slot(row.coupon, row.key) := r] && e.byOrder == l.byOrder[Slot(row.coupon, row.order) := r]
    ensures IndexesNameRows(e)
  {
    forall k | k in e.byKey
      ensures e.byKey[k] in e.reservations && e.reservations[e.byKey[k]].coupon == k.coupon && e.reservations[e.byKey[k]].key == k.name
    {
      assert k != Slot(row.coupon, row.key) ==> k in l.byKey && e.byKey[k] == l.byKey[k];
    }
    forall k | k in e.byOrder
      ensures e.byOrder[k] in e.reservations && e.reservations[e.byOrder[k]].coupon == k.coupon && e.reservations[e.byOrder[k]].order == k.name
    {
      assert k != Slot(row.coupon, row.order) ==> k in l.byOrder && e.byOrder[k] == l.byOrder[k];
    }
  }

  lemma AddedIsIndexed(l: Ledger, e: Ledger, r: ReservationId, row: Reservation)
    requires RowsIndexed(l) && r !in l.reservations && row.coupon in l.coupons && e.coupons.Keys == l.coupons.Keys
    requires Slot(row.coupon, row.key) !in l.byKey && Slot(row.coupon, row.order) !in l.byOrder
    requires e.reservations == l.reservations[r := row]
    requires e.byKey == l.byKey[Slot(row.coupon, row.key) := r] && e.byOrder == l.byOrder[Slot(row.coupon, row.order) := r]
    ensures RowsIndexed(e)
  {
    forall x | x in e.reservations
      ensures var y := e.reservations[x];
        && y.coupon in e.coupons
        && Slot(y.coupon, y.key) in e.byKey && e.byKey[Slot(y.coupon, y.key)] == x
        && Slot(y.coupon, y.order) in e.byOrder && e.byOrder[Slot(y.coupon, y.order)] == x
    {
      assert x != r ==> x in l.reservations && l.reservations[x] == e.reservations[x];
    }
  }

  lemma ReserveKeepsRedemptions(l: Ledger, c: CouponId, r: ReservationId, req: Request, now: int)
    requires RedemptionsOk(l)
    ensures RedemptionsOk(Reserve(l, c, r, req, now))
  {
    if r !in l.reservations && Reserving(l, c, req, now).Granted? {
      assert NewReservation(l, c, req, now).state.Reserved?;
      hide NewReservation, Adjust, Admits, LimitHit;
    }
  }

  /** All of a row but its state. */
  predicate SameTerms(x: Reservation, y: Reservation) {
    x.(state := y.state) == y
  }

  predicate SameRedeemed(x: Reservation, y: Reservation) {
    SameTerms(x, y) && (x.state.Consumed? <==> y.state.Consumed?)
  }

  lemma StepKeepsRow(l: Ledger, s: Step, r: ReservationId)
    requires r in l.reservations
    ensures r in Apply(l, s).reservations && SameTerms(l.reservations[r], Apply(l, s).reservations[r])
  {
    match s
    case DoConvert(x) =>
    case _ =>
  }

  lemma StepKeepsIndexes(l: Ledger, s: Step)
    requires !s.DoReserve?
    ensures var e := Apply(l, s);
            && e.reservations.Keys == l.reservations.Keys && l.coupons.Keys <= e.coupons.Keys
            && e.byKey == l.byKey && e.byOrder == l.byOrder
  {
    hide Adjust, ValidPolicy;
    match s
    case DoConvert(x) =>
    case _ =>
  }

  lemma StepKeepsKeys(l: Ledger, s: Step)
    requires KeysOk(l) && !s.DoReserve?
    ensures KeysOk(Apply(l, s))
  {
    StepKeepsIndexes(l, s);
    forall r | r in l.reservations
      ensures r in Apply(l, s).reservations && SameTerms(l.reservations[r], Apply(l, s).reservations[r])
    {
      StepKeepsRow(l, s, r);
    }
    SameTermsKeepKeys(l, Apply(l, s));
    hide Apply, KeysOk;
  }

  lemma SameTermsKeepKeys(l: Ledger, e: Ledger)
    requires KeysOk(l) && e.reservations.Keys == l.reservations.Keys && l.coupons.Keys <= e.coupons.Keys
    requires e.byKey == l.byKey && e.byOrder == l.byOrder
    requires forall r :: r in l.reservations ==> r in e.reservations && SameTerms(l.reservations[r], e.reservations[r])
    ensures KeysOk(e)
  {
  }

  lemma StepKeepsRedemptions(l: Ledger, s: Step)
    requires RedemptionsOk(l) && !s.DoReserve?
    ensures RedemptionsOk(Apply(l, s))
  {
    match s
    case DoConvert(r) =>
      ConvertKeepsRedemptions(l, r);
      hide RedemptionsOk, Convert;
    case _ =>
      OthersRedeemNothing(l, s);
      SameRowsKeepRedemptions(l, Apply(l, s));
      hide RedemptionsOk, Apply;
  }

  lemma OthersRedeemNothing(l: Ledger, s: Step)
    requires !s.DoReserve? && !s.DoConvert?
    ensures var e := Apply(l, s);
      && e.redemptions == l.redemptions && e.byRedeemedOrder == l.byRedeemedOrder && e.reservations.Keys == l.reservations.Keys
      && (forall r :: r in l.reservations ==> SameRedeemed(l.reservations[r], e.reservations[r]))
  {
    hide Adjust, ValidPolicy;
  }

  lemma SameRowsKeepRedemptions(l: Ledger, e: Ledger)
    requires RedemptionsOk(l)
    requires e.redemptions == l.redemptions && e.byRedeemedOrder == l.byRedeemedOrder && e.reservations.Keys == l.reservations.Keys
    requires forall r :: r in l.reservations ==> SameRedeemed(l.reservations[r], e.reservations[r])
    ensures RedemptionsOk(e)
  {
  }

  lemma ConvertKeepsRedemptions(l: Ledger, r: ReservationId)
    requires RedemptionsOk(l)
    ensures RedemptionsOk(Convert(l, r))
  {
    hide Adjust;
  }

  lemma {:induction false} RunKeepsLedger(l: Ledger, steps: seq<Step>)
    requires LedgerOk(l)
    ensures LedgerOk(Run(l, steps))
    decreases |steps|
  {
    if steps != [] {
      StepKeepsLedger(l, steps[0]);
      RunKeepsLedger(Apply(l, steps[0]), steps[1..]);
    }
  }

  function RedemptionsOn(l: Ledger, c: CouponId): set<ReservationId> {
    set r | r in l.redemptions && l.redemptions[r].coupon == c
  }

  lemma ConsumedIsRedeemed(l: Ledger, c: CouponId)
    requires RedemptionsOk(l)
    ensures ConsumedOn(l.reservations, c) == RedemptionsOn(l, c)
  {
    forall r
      ensures r in ConsumedOn(l.reservations, c) <==> r in RedemptionsOn(l, c)
    {
    }
  }

  /** In every reachable ledger the counters are the counts of the tables. */
  lemma EveryRunCounts(steps: seq<Step>, c: CouponId)
    requires c in Run(EMPTY, steps).coupons
    ensures var l := Run(EMPTY, steps);
      && l.coupons[c].reserved == |LiveOn(l.reservations, c)|
      && l.coupons[c].redeemed == |ConsumedOn(l.reservations, c)| == |RedemptionsOn(l, c)|
  {
    var l := Run(EMPTY, steps);
    assert LedgerOk(EMPTY);
    RunKeepsLedger(EMPTY, steps);
    hide Run, LiveOn, ConsumedOn, RedemptionsOn;
    ConsumedIsRedeemed(l, c);
  }

  // ---------------------------------------------------------------------------
  // Caps
  // ---------------------------------------------------------------------------

  function Slots(l: Ledger, c: CouponId): int {
    if c in l.coupons then l.coupons[c].reserved + l.coupons[c].redeemed else 0
  }

  /** Both the cap of the coupon, while it has one, and its slots in use stay within a bound. */
  predicate TotalWithin(l: Ledger, c: CouponId, bound: int) {
    && Slots(l, c) <= bound
    && (c in l.coupons ==> l.coupons[c].policy.maxTotal.Some? && l.coupons[c].policy.maxTotal.value <= bound)
  }

  /** The step sets no cap on this coupon beyond the bound, and does not lift the cap. */
  predicate CapsWithin(s: Step, c: CouponId, bound: int) {
    (s.DoCreate? || s.DoPatch?) && s.coupon == c ==> s.policy.maxTotal.Some? && s.policy.maxTotal.value <= bound
  }

  lemma StepKeepsTotal(l: Ledger, s: Step, c: CouponId, bound: int)
    requires LedgerOk(l) && TotalWithin(l, c, bound) && CapsWithin(s, c, bound) && bound >= 0
    ensures TotalWithin(Apply(l, s), c, bound)
  {
    hide CountersOk, KeysOk, RedemptionsOk, PriceOf, Admits, BuyerUses;
    match s
    case DoRelease(r) =>
      if Known(l, r) && CouponLive(l.reservations[r].state) {
        MoveCounts(l, r, Released);
      }
    case DoConvert(r) =>
      if Known(l, r) && CouponLive(l.reservations[r].state) {
        MoveCounts(l, r, Consumed);
      }
    case _ =>
  }

  /** Reserved plus redeemed never exceeds the largest cap the coupon ever had, however its cap
      was moved in between; in particular never the cap itself while it was not lowered. */
  lemma {:induction false} RunKeepsTotal(l: Ledger, steps: seq<Step>, c: CouponId, bound: int)
    requires LedgerOk(l) && TotalWithin(l, c, bound) && bound >= 0
    requires forall k :: 0 <= k < |steps| ==> CapsWithin(steps[k], c, bound)
    ensures TotalWithin(Run(l, steps), c, bound)
    decreases |steps|
  {
    if steps != [] {
      StepKeepsTotal(l, steps[0], c, bound);
      StepKeepsLedger(l, steps[0]);
      RunKeepsTotal(Apply(l, steps[0]), steps[1..], c, bound);
    }
  }

  predicate WithinCap(l: Ledger, c: CouponId) {
    c in l.coupons && l.coupons[c].policy.maxTotal.Some? ==> Slots(l, c) <= l.coupons[c].policy.maxTotal.value
  }

  /** The edit, at the right version, sets a cap below the slots in use. */
  predicate Undercuts(l: Ledger, s: Step, c: CouponId) {
    && s.DoPatch? && s.coupon == c && c in l.coupons && l.coupons[c].version == s.expected && ValidPolicy(s.policy)
    && s.policy.maxTotal.Some? && s.policy.maxTotal.value < Slots(l, c)
  }

  /** Only an edit takes a coupon above its own cap, and only one that sets the cap below the slots in use. */
  lemma CapIsExceededExactly(l: Ledger, s: Step, c: CouponId)
    requires LedgerOk(l) && WithinCap(l, c)
    ensures !WithinCap(Apply(l, s), c) <==> Undercuts(l, s, c)
  {
    hide CountersOk, KeysOk, RedemptionsOk, PriceOf, Admits, BuyerUses;
    match s
    case DoCreate(d, p) =>
    case DoPatch(d, expected, p) =>
    case DoReserve(d, r, req, now) =>
    case DoRelease(r) =>
      if Known(l, r) && CouponLive(l.reservations[r].state) {
        MoveCounts(l, r, Released);
      }
    case DoHold(r) =>
    case DoConvert(r) =>
      if Known(l, r) && CouponLive(l.reservations[r].state) {
        MoveCounts(l, r, Consumed);
      }
  }

  /** A coupon for two, both taken, is then edited down to one. */
  function UndercutSteps(): seq<Step> {
    [DoCreate("c", CappedAt(2)), DoReserve("c", "r1", Buying("o1"), 0), DoReserve("c", "r2", Buying("o2"), 0),
     DoPatch("c", 1, CappedAt(1))]
  }

  function CappedAt(cap: int): Policy {
    Policy(true, None, None, 0, AllProducts, Percent, 1000, Some(cap), None)
  }

  function Buying(order: string): Request {
    Request("p", order, order, "", 1000, 1000, 0, 0, 60)
  }

  lemma StepThenRun(l: Ledger, s: Step, t: seq<Step>)
    ensures Run(l, [s] + t) == Run(Apply(l, s), t)
    ensures Run(l, []) == l
  {
    assert ([s] + t)[1..] == t;
    hide Apply;
  }

  lemma FourSteps(l: Ledger, s0: Step, s1: Step, s2: Step, s3: Step)
    ensures Run(l, [s0, s1, s2, s3]) == Apply(Apply(Apply(Apply(l, s0), s1), s2), s3)
  {
    hide Run, Apply;
    var l1 := Apply(l, s0);
    var l2 := Apply(l1, s1);
    var l3 := Apply(l2, s2);
    StepThenRun(l, s0, [s1, s2, s3]);
    StepThenRun(l1, s1, [s2, s3]);
    StepThenRun(l2, s2, [s3]);
    StepThenRun(l3, s3, []);
    StepThenRun(Apply(l3, s3), s3, []);
    assert [s0] + [s1, s2, s3] == [s0, s1, s2, s3] && [s1] + [s2, s3] == [s1, s2, s3] && [s2] + [s3] == [s2, s3] && [s3] + [] == [s3];
  }

  lemma UndercutCouponExceedsItsCap()
    ensures var l := Run(EMPTY, UndercutSteps());
            "c" in l.coupons && l.coupons["c"].policy.maxTotal == Some(1) && Slots(l, "c") == 2 && !WithinCap(l, "c")
  {
    var steps := UndercutSteps();
    var l1 := Apply(EMPTY, steps[0]);
    var l2 := Apply(l1, steps[1]);
    var l3 := Apply(l2, steps[2]);
    FourSteps(EMPTY, steps[0], steps[1], steps[2], steps[3]);
    hide Run, PriceOf;
    assert l1.coupons == map["c" := Coupon(CappedAt(2), 1, 0, 0)];
    assert l2.coupons == map["c" := Coupon(CappedAt(2), 1, 1, 0)];
    assert l3.coupons == map["c" := Coupon(CappedAt(2), 1, 2, 0)];
  }

  predicate BuyerWithin(l: Ledger, c: CouponId, buyer: string, bound: int) {
    && |BuyerUses(l, c, buyer)| <= bound
    && (c in l.coupons ==> l.coupons[c].policy.maxPerCustomer.Some? && l.coupons[c].policy.maxPerCustomer.value <= bound)
  }

  predicate BuyerCapsWithin(s: Step, c: CouponId, bound: int) {
    (s.DoCreate? || s.DoPatch?) && s.coupon == c ==> s.policy.maxPerCustomer.Some? && s.policy.maxPerCustomer.value <= bound
  }

  lemma StepKeepsBuyer(l: Ledger, s: Step, c: CouponId, buyer: string, bound: int)
    requires LedgerOk(l) && BuyerWithin(l, c, buyer, bound) && BuyerCapsWithin(s, c, bound) && buyer != ""
    ensures BuyerWithin(Apply(l, s), c, buyer, bound)
  {
    var e := Apply(l, s);
    if s.DoReserve? {
      ReserveAddsAtMostItself(l, s.coupon, s.id, s.req, s.now, c, buyer);
    } else {
      OtherStepsAddNoUse(l, s, c, buyer);
    }
  }

  lemma ReserveAddsAtMostItself(l: Ledger, d: CouponId, r: ReservationId, req: Request, now: int, c: CouponId, buyer: string)
    ensures var e := Reserve(l, d, r, req, now);
      && BuyerUses(e, c, buyer) <= BuyerUses(l, c, buyer) + {r}
      && (BuyerUses(e, c, buyer) != BuyerUses(l, c, buyer) ==>
            d == c && req.buyer == buyer && c in l.coupons && !LimitHit(l, c, buyer))
      && (c in e.coupons ==> c in l.coupons && e.coupons[c].policy == l.coupons[c].policy)
      && |BuyerUses(e, c, buyer)| <= |BuyerUses(l, c, buyer)| + 1
  {
    hide Admits, PriceOf, LimitHit, BuyerUses;
    var e := Reserve(l, d, r, req, now);
    if r in l.reservations || !Reserving(l, d, req, now).Granted? {
      assert e == l;
    } else {
      var row := NewReservation(l, d, req, now);
      assert row.coupon == d && row.buyer == if req.buyer != "" then Some(req.buyer) else None;
      assert !LimitHit(l, d, req.buyer);
      hide Reserving, NewReservation;
      OneRowMore(l, e, r, row, c, buyer);
    }
    Grows(BuyerUses(l, c, buyer), BuyerUses(e, c, buyer), r);
  }

  lemma OneRowMore(l: Ledger, e: Ledger, r: ReservationId, row: Reservation, c: CouponId, buyer: string)
    requires r !in l.reservations && e.reservations == l.reservations[r := row]
    ensures BuyerUses(e, c, buyer) <= BuyerUses(l, c, buyer) + {r}
    ensures !(row.coupon == c && row.buyer == Some(buyer)) ==> BuyerUses(e, c, buyer) == BuyerUses(l, c, buyer)
  {
  }

  lemma Grows(a: set<ReservationId>, b: set<ReservationId>, r: ReservationId)
    requires b <= a + {r}
    ensures |b| <= |a| + 1
  {
    PartIsSmaller(b, a + {r});
  }

  lemma OtherStepsAddNoUse(l: Ledger, s: Step, c: CouponId, buyer: string)
    requires !s.DoReserve?
    ensures BuyerUses(Apply(l, s), c, buyer) <= BuyerUses(l, c, buyer)
    ensures |BuyerUses(Apply(l, s), c, buyer)| <= |BuyerUses(l, c, buyer)|
    ensures c in Apply(l, s).coupons && !(s.DoCreate? && s.coupon == c) && !(s.DoPatch? && s.coupon == c)
            ==> c in l.coupons && Apply(l, s).coupons[c].policy == l.coupons[c].policy
    ensures c in Apply(l, s).coupons ==>
              (c in l.coupons && Apply(l, s).coupons[c].policy == l.coupons[c].policy)
              || ((s.DoCreate? || s.DoPatch?) && s.coupon == c && Apply(l, s).coupons[c].policy == s.policy)
  {
    assert BuyerUses(Apply(l, s), c, buyer) <= BuyerUses(l, c, buyer) by {
      match s
      case DoConvert(r) =>
      case _ =>
    }
    PartIsSmaller(BuyerUses(Apply(l, s), c, buyer), BuyerUses(l, c, buyer));
    match s
    case DoConvert(r) =>
    case _ =>
  }

  /** No identified buyer uses a coupon more often than the largest per-customer limit it ever had. */
  lemma {:induction false} RunKeepsBuyer(l: Ledger, steps: seq<Step>, c: CouponId, buyer: string, bound: int)
    requires LedgerOk(l) && BuyerWithin(l, c, buyer, bound) && buyer != ""
    requires forall k :: 0 <= k < |steps| ==> BuyerCapsWithin(steps[k], c, bound)
    ensures BuyerWithin(Run(l, steps), c, buyer, bound)
    decreases |steps|
  {
    if steps != [] {
      StepKeepsBuyer(l, steps[0], c, buyer, bound);
      StepKeepsLedger(l, steps[0]);
      RunKeepsBuyer(Apply(l, steps[0]), steps[1..], c, buyer, bound);
    }
  }

  // ---------------------------------------------------------------------------
  // Repetition, and the holds of a payment
  // ---------------------------------------------------------------------------

  /** A second request under the same key changes nothing and answers with the first
      reservation, in whatever state it is by then. */
  lemma {:induction false} ReserveReplays(l: Ledger, c: CouponId, r: ReservationId, req: Request, now: int,
                                          steps: seq<Step>, again: Request, later: int)
    requires LedgerOk(l) && r !in l.reservations && Reserving(l, c, req, now).Granted? && again.key == req.key
    ensures var e := Run(Reserve(l, c, r, req, now), steps);
            && Reserving(e, c, again, later) == Replayed(r)
            && (forall n :: Reserve(e, c, n, again, later) == e)
            && r in e.reservations && e.reservations[r].price == NewReservation(l, c, req, now).price
  {
    hide LedgerOk, Run, Reserve, Reserving, NewReservation;
    var b := Reserve(l, c, r, req, now);
    GrantedRow(l, c, r, req, now);
    StepKeepsLedger(l, DoReserve(c, r, req, now));
    RunKeepsRows(b, steps, r);
    RunKeepsLedger(b, steps);
    KeyIsTaken(Run(b, steps), r, again, later);
  }

  lemma GrantedRow(l: Ledger, c: CouponId, r: ReservationId, req: Request, now: int)
    requires r !in l.reservations && Reserving(l, c, req, now).Granted?
    ensures c in l.coupons
    ensures var row := NewReservation(l, c, req, now); var b := Reserve(l, c, r, req, now);
            row.coupon == c && row.key == req.key && r in b.reservations && b.reservations[r] == row
  {
    hide Admits, LimitHit, PriceOf;
  }

  lemma KeyIsTaken(l: Ledger, r: ReservationId, again: Request, later: int)
    requires LedgerOk(l) && r in l.reservations && again.key == l.reservations[r].key
    ensures var c := l.reservations[r].coupon;
            Reserving(l, c, again, later) == Replayed(r) && forall n :: Reserve(l, c, n, again, later) == l
  {
    hide CountersOk, RedemptionsOk;
  }

  lemma {:induction false} RunKeepsRows(l: Ledger, steps: seq<Step>, r: ReservationId)
    requires r in l.reservations
    ensures r in Run(l, steps).reservations && SameTerms(l.reservations[r], Run(l, steps).reservations[r])
    decreases |steps|
  {
    if steps != [] {
      StepKeepsRow(l, steps[0], r);
      RunKeepsRows(Apply(l, steps[0]), steps[1..], r);
    }
  }

  function StateOf(l: Ledger, r: ReservationId): Option<CouponHold> {
    if r in l.reservations then Some(l.reservations[r].state) else None
  }

  /** The ledger moves the holds of a payment as the payment protocol says; only a conversion can
      fail to, and exactly when the order is already redeemed under another reservation. */
  lemma LedgerMovesHolds(l: Ledger, r: ReservationId)
    requires LedgerOk(l) && r in l.reservations
    ensures StateOf(Release(l, r), r) == Some(ReleaseCoupon(l.reservations[r].state))
    ensures StateOf(HoldUnknown(l, r), r) == Some(SuspendCoupon(l.reservations[r].state))
  {
    StoredIsKnown(l, r);
    hide LedgerOk;
    ReleaseMovesHold(l, r);
    hide Release, ReleaseCoupon;
  }

  lemma ReleaseMovesHold(l: Ledger, r: ReservationId)
    requires Known(l, r)
    ensures StateOf(Release(l, r), r) == Some(ReleaseCoupon(l.reservations[r].state))
  {
    hide Adjust;
  }

  lemma ConversionMovesHoldsExactly(l: Ledger, r: ReservationId)
    requires LedgerOk(l) && r in l.reservations
    ensures StateOf(Convert(l, r), r) == Some(ConsumeCoupon(l.reservations[r].state))
            <==> !(CouponLive(l.reservations[r].state) && l.reservations[r].order in l.byRedeemedOrder)
  {
    StoredIsKnown(l, r);
    hide LedgerOk, Adjust;
  }

  /** Freed and redeemed reservations stay so in every run. */
  lemma {:induction false} EndedReservationsStay(l: Ledger, steps: seq<Step>, r: ReservationId)
    requires r in l.reservations && !CouponLive(l.reservations[r].state)
    ensures r in Run(l, steps).reservations && Run(l, steps).reservations[r] == l.reservations[r]
    decreases |steps|
  {
    if steps != [] {
      assert r in Apply(l, steps[0]).reservations && Apply(l, steps[0]).reservations[r] == l.reservations[r] by {
        match steps[0]
        case DoConvert(x) =>
        case _ =>
      }
      EndedReservationsStay(Apply(l, steps[0]), steps[1..], r);
    }
  }

  // ---------------------------------------------------------------------------
  // The service on the tables
  // ---------------------------------------------------------------------------

  /** The listed reservations that are still reserved. */
  function Due(rows: map<ReservationId, Reservation>, items: seq<ReservationId>): set<ReservationId> {
    set r | r in items && r in rows && rows[r].state.Reserved?
  }

  class CouponDesk {
    var coupons: map<CouponId, Coupon>
    var reservations: map<ReservationId, Reservation>
    var byKey: map<Slot, ReservationId>
    var byOrder: map<Slot, ReservationId>
    var redemptions: map<ReservationId, Redemption>
    var byRedeemedOrder: map<string, ReservationId>

    ghost function View(): Ledger
      reads this
    {
      Ledger(coupons, reservations, byKey, byOrder, redemptions, byRedeemedOrder)
    }

    ghost predicate Valid()
      reads this
    {
      LedgerOk(View())
    }

    constructor ()
      ensures View() == EMPTY && Valid()
    {
      coupons, reservations, byKey, byOrder, redemptions, byRedeemedOrder := map[], map[], map[], map[], map[], map[];
    }

    /** The update whose guards may drop it. */
    method AdjustCounters(c: CouponId, reservedBy: int, redeemedBy: int)
      requires c in coupons
      modifies this`coupons
      ensures coupons == old(coupons)[c := Adjust(old(coupons[c]), reservedBy, redeemedBy)]
    {
      var row := coupons[c];
      if row.reserved + reservedBy >= 0 && row.redeemed + redeemedBy >= 0 {
        row := row.(reserved := row.reserved + reservedBy, redeemed := row.redeemed + redeemedBy);
      }
      coupons := coupons[c := row];
    }

    /** Under the lock of the coupon row: replay, policy, limits and unique keys, in this order. */
    method CheckReserve(c: CouponId, req: Request, now: int) returns (o: ReserveOutcome)
      ensures o == Reserving(View(), c, req, now)
    {
      hide BuyerUses, Admits, Merchandise;
      if c !in coupons {
        return Unavailable;
      }
      if Slot(c, req.key) in byKey {
        return Replayed(byKey[Slot(c, req.key)]);
      }
      var row := coupons[c];
      if !Admits(row.policy, req, Merchandise(req), now) {
        return Unavailable;
      }
      if row.policy.maxTotal.Some? && row.reserved + row.redeemed >= row.policy.maxTotal.value {
        return LimitReached;
      }
      if req.buyer != "" && row.policy.maxPerCustomer.Some? {
        var n := CountBuyerUsage(c, req.buyer);
        if n >= row.policy.maxPerCustomer.value {
          return LimitReached;
        }
      }
      return if Slot(c, req.order) in byOrder then LimitReached else Granted;
    }

    method ReserveCoupon(c: CouponId, r: ReservationId, req: Request, now: int) returns (o: ReserveOutcome)
      requires Valid() && r !in reservations
      modifies this
      ensures Valid() && View() == Reserve(old(View()), c, r, req, now)
      ensures o == Reserving(old(View()), c, req, now)
    {
      hide LedgerOk, PriceOf, Merchandise;
      StepKeepsLedger(View(), DoReserve(c, r, req, now));
      o := CheckReserve(c, req, now);
      GrantedIsStored(View(), c, req, now);
      hide Reserving;
      if o.Granted? {
        var price := PriceOf(coupons[c].policy, Merchandise(req), req.tip, req.upsell);
        var buyer := if req.buyer != "" then Some(req.buyer) else None;
        var ttl := if req.ttl > 0 then req.ttl else DEFAULT_TTL;
        reservations := reservations[r := Reservation(c, req.order, req.key, buyer, price, Reserved, now + ttl)];
        byKey, byOrder := byKey[Slot(c, req.key) := r], byOrder[Slot(c, req.order) := r];
        AdjustCounters(c, 1, 0);
      }
    }

    method CountBuyerUsage(c: CouponId, buyer: string) returns (n: nat)
      ensures n == |BuyerUses(View(), c, buyer)|
    {
      n := |set r | r in reservations && CountsForBuyer(reservations[r], c, buyer)|;
      assert BuyerUses(View(), c, buyer) == set r | r in reservations && CountsForBuyer(reservations[r], c, buyer);
    }

    /** Idempotent on a released reservation; a consumed one is refused. */
    method ReleaseReservation(r: ReservationId) returns (released: bool)
      requires Valid()
      modifies this
      ensures Valid() && View() == Release(old(View()), r)
      ensures released <==> r in reservations && reservations[r].state.Released?
    {
      hide LedgerOk;
      StepKeepsLedger(View(), DoRelease(r));
      if r !in reservations {
        return false;
      }
      StoredIsKnown(View(), r);
      var row := reservations[r];
      if row.state.Released? {
        return true;
      }
      if row.state.Consumed? {
        return false;
      }
      reservations := reservations[r := row.(state := Released)];
      AdjustCounters(row.coupon, -1, 0);
      return true;
    }

    /** The redemption insert comes last; when its order is taken the earlier writes are undone. */
    method ConvertReservation(r: ReservationId) returns (redeemed: bool)
      requires Valid()
      modifies this
      ensures Valid() && View() == Convert(old(View()), r)
      ensures redeemed <==> r in redemptions
    {
      hide LedgerOk;
      StepKeepsLedger(View(), DoConvert(r));
      StoredIsKnown(View(), r);
      if r !in reservations {
        return false;
      }
      if r in redemptions {
        return true;
      }
      var row := reservations[r];
      if !row.state.Reserved? && !row.state.HeldUnknown? {
        return false;
      }
      var rowsBefore, couponsBefore := reservations, coupons;
      reservations := reservations[r := row.(state := Consumed)];
      AdjustCounters(row.coupon, -1, 1);
      if row.order in byRedeemedOrder {
        reservations, coupons := rowsBefore, couponsBefore;
        return false;
      }
      redemptions := redemptions[r := Redemption(row.coupon, row.order, row.price)];
      byRedeemedOrder := byRedeemedOrder[row.order := r];
      return true;
    }

    method MarkHeldUnknown(r: ReservationId) returns (held: bool)
      requires Valid()
      modifies this
      ensures Valid() && View() == HoldUnknown(old(View()), r)
      ensures held <==> r in reservations && reservations[r].state.HeldUnknown?
    {
      hide LedgerOk;
      StepKeepsLedger(View(), DoHold(r));
      if r !in reservations {
        return false;
      }
      StoredIsKnown(View(), r);
      var row := reservations[r];
      if row.state.Reserved? {
        reservations := reservations[r := row.(state := HeldUnknown)];
        return true;
      }
      return row.state.HeldUnknown?;
    }

    /** The sweep releases exactly the listed reservations that are still reserved, each with its slot. */
    method ExpireReservations(items: seq<ReservationId>) returns (n: nat)
      requires Valid()
      modifies this
      ensures Valid()
      ensures var due := Due(old(reservations), items);
              && n == |due|
              && reservations == Swept(old(reservations), due)
    {
      hide LedgerOk, Due;
      n := 0;
      var k := 0;
      ghost var rows := reservations;
      NothingDue(rows);
      assert items[..0] == [];
      while k < |items|
        invariant 0 <= k <= |items| && Valid()
        invariant n == |Due(rows, items[..k])|
        invariant reservations == Swept(rows, Due(rows, items[..k]))
      {
        var r := items[k];
        SweepOne(rows, items, k);
        if r in reservations && reservations[r].state.Reserved? {
          ghost var before := reservations;
          StoredIsKnown(View(), r);
          var released := ReleaseReservation(r);
          assert reservations == before[r := before[r].(state := Released)];
          n := n + 1;
        }
        k := k + 1;
      }
      assert items[..|items|] == items;
    }
  }

  function Swept(rows: map<ReservationId, Reservation>, due: set<ReservationId>): map<ReservationId, Reservation> {
    map r | r in rows :: if r in due then rows[r].(state := Released) else rows[r]
  }

  lemma NothingDue(rows: map<ReservationId, Reservation>)
    ensures Due(rows, []) == {} && Swept(rows, {}) == rows
  {
  }

  /** One more listed item: due and not yet swept, or nothing changes. */
  lemma SweepOne(rows: map<ReservationId, Reservation>, items: seq<ReservationId>, k: nat)
    requires k < |items|
    ensures var a := Due(rows, items[..k]); var b := Due(rows, items[..k + 1]); var now := Swept(rows, a);
            if items[k] in now && now[items[k]].state.Reserved?
            then |b| == |a| + 1 && Swept(rows, b) == now[items[k] := now[items[k]].(state := Released)]
            else b == a
  {
    var x := items[k];
    var a := Due(rows, items[..k]);
    var b := Due(rows, items[..k + 1]);
    assert items[..k + 1] == items[..k] + [x];
    if x in rows && rows[x].state.Reserved? {
      assert b == a + {x};
    } else {
      assert b == a;
    }
  }

  lemma GrantedIsStored(l: Ledger, c: CouponId, req: Request, now: int)
    ensures Reserving(l, c, req, now).Granted? ==> c in l.coupons
  {
  }

  lemma StoredIsKnown(l: Ledger, r: ReservationId)
    requires LedgerOk(l)
    ensures r in l.reservations ==> Known(l, r)
    ensures r in l.redemptions <==> r in l.reservations && l.reservations[r].state.Consumed?
  {
  }
}
