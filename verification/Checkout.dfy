/**
 The creation of a checkout: price, coupon hold, fee, stock hold, the rows, and the
 create call at the payment provider. A call is one step per idempotency key; the
 coupon ledger and the stock pool go on moving between the calls.
 */
module Checkout {
  import opened Options
  import opened Holds
  import opened Counting
  import opened RequestText
  import OrderMoney
  import L = CouponLedger
  import P = StockPool
  import PC = PaymentCase

  type IntentId = string
  type OrderId = string
  type ItemId = string

  /** Coupon code and email as the source folds them; the client amounts are sent but never used. */
  datatype Request = Request(
    store: string, product: string, key: string, payWhatYouWant: int, tip: int, coupon: string, email: string,
    user: string, identity: string, clientUnitPrice: int, clientTotal: int, clientDiscount: int)

  /** The product row, with the merchant of its store when there is one. */
  datatype Product = Product(
    published: bool, merchant: string, storeMerchant: Option<string>, price: int,
    buyerPrices: bool, minimum: Option<int>, isCode: bool)

  datatype FeePolicy = FeePolicy(percentBps: int, fixed: int, minimum: int, maximum: int)

  datatype Fee = Fee(total: int, net: int)

  /** What a call finds outside its own tables: switches, the catalogue, the coupon behind the code,
      the active fee policy, units locked by other claims, the clock and the provider's answer. */
  datatype World = World(
    disabled: bool, product: Option<Product>, coupon: Option<L.CouponId>, fees: FeePolicy,
    locked: set<P.UnitId>, now: int, answer: PC.Answer)

  /** The identifiers a call draws before it starts. */
  datatype Ids = Ids(order: OrderId, intent: IntentId, item: ItemId, coupon: L.ReservationId, stock: P.ReservationId)

  datatype Intent = Intent(
    key: string, text: string, order: OrderId, amount: int, status: PC.Status, unknownOp: Option<PC.CallKind>,
    providerRef: Option<string>, coupon: Option<L.ReservationId>, stock: Option<P.ReservationId>)

  datatype Order = Order(key: string, subtotal: int, discount: int, tip: int, gross: int, fee: int, net: int, payment: PC.OrderPayment)

  datatype Item = Item(order: OrderId, product: string, unitPrice: int, discount: int, lineTotal: int, stock: Option<P.ReservationId>)

  /** byKey is the unique index of the intents. */
  datatype Shop = Shop(
    mode: string, ledger: L.Ledger, pool: P.Pool, intents: map<IntentId, Intent>, byKey: map<string, IntentId>,
    orders: map<OrderId, Order>, items: map<ItemId, Item>)

  datatype Refusal =
    | InvalidRequest | Disabled | IdempotencyConflict | ProductUnavailable | BelowMinimum | CouponUnavailable
    | CouponLimit | InvalidAmount | FeeRefused | OutOfStock | ProviderRejected

  datatype Outcome = Created(intent: IntentId) | Replay(intent: IntentId) | Refused(why: Refusal)

  datatype Result = Result(shop: Shop, outcome: Outcome)

  const MAX_INT64: int := 0x7fff_ffff_ffff_ffff
  const TTL: int := 1800

  // ---------------------------------------------------------------------------
  // One call
  // ---------------------------------------------------------------------------

  predicate Blank(s: string) {
    forall c :: c in s ==> c in " \t\n\r"
  }

  function HoldKey(key: string): string {
    "checkout:" + key
  }

  function TextOf(mode: string, q: Request): string {
    Text(Fields(q.store, q.product, mode, q.payWhatYouWant, q.tip, q.coupon, q.email))
  }

  function Buyer(q: Request): string {
    if q.identity != "" then q.identity
    else if q.user != "" then "user:" + q.user
    else if q.email != "" then "email:" + q.email
    else ""
  }

  predicate OnSale(w: World) {
    w.product.Some? && w.product.value.published && w.product.value.storeMerchant == Some(w.product.value.merchant)
  }

  function Least(o: Product): int {
    if o.minimum.Some? then o.minimum.value else o.price
  }

  predicate TooLow(o: Product, offered: int) {
    o.buyerPrices && 0 < offered < Least(o)
  }

  /** The catalogue price, or what the buyer offers where the buyer may. */
  function Merchandise(o: Product, offered: int): int {
    if !o.buyerPrices then o.price
    else if offered > 0 then offered
    else if o.price < Least(o) then Least(o) else o.price
  }

  function Tip(asked: int): int {
    if asked < 0 then 0 else asked
  }

  /** What ends a call before it touches anything; a known key is answered before the product is looked at. */
  function Opening(s: Shop, q: Request, w: World): Option<Outcome> {
    if q.store == "" || q.product == "" || Blank(q.key) then Some(Refused(InvalidRequest))
    else if w.disabled then Some(Refused(Disabled))
    else if q.key in s.byKey && s.byKey[q.key] in s.intents then
      Some(if s.intents[s.byKey[q.key]].text == TextOf(s.mode, q) then Replay(s.byKey[q.key]) else Refused(IdempotencyConflict))
    else if !OnSale(w) then Some(Refused(ProductUnavailable))
    else if TooLow(w.product.value, q.payWhatYouWant) then Some(Refused(BelowMinimum))
    else None
  }

  function CouponRequest(q: Request, w: World, ids: Ids): L.Request
    requires OnSale(w)
  {
    L.Request(q.product, ids.order, HoldKey(q.key), Buyer(q), w.product.value.price,
              Merchandise(w.product.value, q.payWhatYouWant), Tip(q.tip), 0, TTL)
  }

  datatype CouponStep = Taken(ledger: L.Ledger, hold: Option<L.ReservationId>, price: L.Price) | NotTaken(why: Refusal)

  /** Without a code the asked price stands; a replayed reservation brings the price it was made with. */
  function TakeCoupon(l: L.Ledger, q: Request, w: World, ids: Ids): CouponStep
    requires OnSale(w)
  {
    if q.coupon == "" then
      var m, t := Merchandise(w.product.value, q.payWhatYouWant), Tip(q.tip);
      Taken(l, None, L.Price(m, 0, t, 0, m + t))
    else if w.coupon.None? then NotTaken(CouponUnavailable)
    else
      match L.Reserving(l, w.coupon.value, CouponRequest(q, w, ids), w.now)
      case Granted => (
        if w.coupon.value !in l.coupons then NotTaken(CouponUnavailable)
        else Taken(L.Reserve(l, w.coupon.value, ids.coupon, CouponRequest(q, w, ids), w.now), Some(ids.coupon),
                   L.NewReservation(l, w.coupon.value, CouponRequest(q, w, ids), w.now).price))
      case Replayed(r) => if r in l.reservations then Taken(l, Some(r), l.reservations[r].price) else NotTaken(CouponUnavailable)
      case Unavailable => NotTaken(CouponUnavailable)
      case LimitReached => NotTaken(CouponLimit)
  }

  /** Percentage rounded half up plus the fixed part; nothing the policy, 64 bits or a positive net forbid. */
  function FeeOf(p: FeePolicy, gross: int): Option<Fee> {
    if gross <= 0 || p.percentBps < 0 || p.fixed < 0 then None
    else if (p.minimum > 0 && gross < p.minimum) || (p.maximum > 0 && gross > p.maximum) then None
    else if gross * p.percentBps > MAX_INT64 - 5000 then None
    else
      var total := OrderMoney.RoundHalfUp(gross * p.percentBps, 10000) + p.fixed;
      if total > MAX_INT64 || gross - total <= 0 then None else Some(Fee(total, gross - total))
  }

  datatype StockStep = Claim(pool: P.Pool, hold: Option<P.ReservationId>) | NoStock

  function TakeStock(p: P.Pool, q: Request, w: World, ids: Ids): StockStep
    requires OnSale(w)
  {
    if !w.product.value.isCode then Claim(p, None)
    else
      match P.Reserving(p, q.product, HoldKey(q.key), w.locked)
      case Granted(_) => Claim(P.Reserve(p, ids.stock, q.product, HoldKey(q.key), Some(ids.order), w.locked), Some(ids.stock))
      case Replayed(r) => Claim(p, Some(r))
      case OutOfStock => NoStock
  }

  function FreeCoupon(l: L.Ledger, hold: Option<L.ReservationId>): L.Ledger {
    if hold.Some? then L.Release(l, hold.value) else l
  }

  function FreeStock(p: P.Pool, hold: Option<P.ReservationId>): P.Pool {
    if hold.Some? then P.Release(p, hold.value) else p
  }

  function NewOrder(q: Request, price: L.Price, fee: Fee): Order {
    Order(q.key, price.merchandise, price.discount, price.tip, price.gross, fee.total, fee.net, PC.OrderPending)
  }

  function NewIntent(mode: string, q: Request, price: L.Price, coupon: Option<L.ReservationId>,
                     stock: Option<P.ReservationId>, ids: Ids): Intent
  {
    Intent(q.key, TextOf(mode, q), ids.order, price.gross, PC.RequiresPayment, None, None, coupon, stock)
  }

  function NewItem(q: Request, price: L.Price, stock: Option<P.ReservationId>, ids: Ids): Item {
    Item(ids.order, q.product, price.merchandise, price.discount, price.merchandise - price.discount, stock)
  }

  /** One transaction: the order, its item and the intent. */
  function Place(s: Shop, q: Request, price: L.Price, fee: Fee, coupon: Option<L.ReservationId>,
                 stock: Option<P.ReservationId>, ids: Ids): Shop
  {
    s.(orders := s.orders[ids.order := NewOrder(q, price, fee)],
       items := s.items[ids.item := NewItem(q, price, stock, ids)],
       intents := s.intents[ids.intent := NewIntent(s.mode, q, price, coupon, stock, ids)],
       byKey := s.byKey[q.key := ids.intent])
  }

  /** What the provider's answer makes of a placed intent: active, unknown with its holds kept, or failed with them freed. */
  function Conclude(s: Shop, i: IntentId, answer: PC.Answer): Result
    requires i in s.intents && s.intents[i].order in s.orders
  {
    var pi := s.intents[i];
    match answer
    case Created(r) => Result(s.(intents := s.intents[i := pi.(status := PC.Pending, providerRef := Some(r))]), Outcome.Created(i))
    case TimedOut =>
      Result(s.(intents := s.intents[i := pi.(status := PC.UnknownOutcome, unknownOp := Some(PC.CreateCall))],
                ledger := if pi.coupon.Some? then L.HoldUnknown(s.ledger, pi.coupon.value) else s.ledger), Outcome.Created(i))
    case _ =>
      Result(s.(intents := s.intents[i := pi.(status := PC.Failed)],
                orders := s.orders[pi.order := s.orders[pi.order].(payment := PC.OrderFailed)],
                pool := FreeStock(s.pool, pi.stock), ledger := FreeCoupon(s.ledger, pi.coupon)), Refused(ProviderRejected))
  }

  /** Nothing is given back when the amount or the fee is refused; a missing unit gives the coupon back. */
  function Create(s: Shop, q: Request, w: World, ids: Ids): Result {
    var opening := Opening(s, q, w);
    if opening.Some? then Result(s, opening.value)
    else
      var c := TakeCoupon(s.ledger, q, w, ids);
      if c.NotTaken? then Result(s, Refused(c.why))
      else if c.price.gross <= 0 then Result(s.(ledger := c.ledger), Refused(InvalidAmount))
      else
        var fee := FeeOf(w.fees, c.price.gross);
        if fee.None? then Result(s.(ledger := c.ledger), Refused(FeeRefused))
        else
          var k := TakeStock(s.pool, q, w, ids);
          if k.NoStock? then Result(s.(ledger := FreeCoupon(c.ledger, c.hold)), Refused(OutOfStock))
          else Conclude(Place(s.(ledger := c.ledger, pool := k.pool), q, c.price, fee.value, c.hold, k.hold, ids), ids.intent, w.answer)
  }

  // ---------------------------------------------------------------------------
  // Runs
  // ---------------------------------------------------------------------------

  predicate Unused(s: Shop, ids: Ids) {
    && ids.order !in s.orders && ids.intent !in s.intents && ids.item !in s.items
    && ids.coupon !in s.ledger.reservations && ids.stock !in s.pool.reservations
  }

  predicate IsHoldKey(key: string) {
    |key| >= 9 && key[..9] == "checkout:"
  }

  /** Between the calls the ledger and the pool move freely, except that no one else reserves under a checkout's key. */
  datatype Step =
    | Call(request: Request, world: World, ids: Ids)
    | OnLedger(coupons: L.Step)
    | OnPool(stock: P.Step)

  function Apply(s: Shop, x: Step): Shop {
    match x
    case Call(q, w, ids) => if Unused(s, ids) then Create(s, q, w, ids).shop else s
    case OnLedger(m) => if m.DoReserve? && IsHoldKey(m.req.key) then s else s.(ledger := L.Apply(s.ledger, m))
    case OnPool(m) => if m.DoReserve? && IsHoldKey(m.key) then s else s.(pool := P.Apply(s.pool, m))
  }

  function Run(s: Shop, steps: seq<Step>): Shop
    decreases |steps|
  {
    if steps == [] then s else Run(Apply(s, steps[0]), steps[1..])
  }

  function Empty(mode: string): Shop {
    Shop(mode, L.EMPTY, P.EMPTY, map[], map[], map[], map[])
  }

  // ---------------------------------------------------------------------------
  // What every run keeps
  // ---------------------------------------------------------------------------

  /** No rupiah is made or lost between the price, the fee and the seller. */
  predicate Balanced(o: Order) {
    && o.gross == o.subtotal - o.discount + o.tip == o.fee + o.net
    && 0 <= o.discount && 0 <= o.tip && 0 <= o.fee && 0 < o.net
  }

  predicate ItemFits(t: Item, o: Order) {
    t.unitPrice == o.subtotal && t.discount == o.discount && t.lineTotal == o.subtotal - o.discount
  }

  ghost predicate HasItem(s: Shop, o: OrderId) {
    exists t :: t in s.items && s.items[t].order == o
  }

  /** The unique index and the intents say the same. */
  ghost predicate KeysOk(s: Shop) {
    && (forall k :: k in s.byKey ==> s.byKey[k] in s.intents && s.intents[s.byKey[k]].key == k)
    && (forall i :: i in s.intents ==> s.intents[i].key in s.byKey && s.byKey[s.intents[i].key] == i)
  }

  /** Each intent has its order and each order its intent, under one key and for one amount. */
  ghost predicate OrdersOk(s: Shop) {
    && (forall i :: i in s.intents ==>
          var pi := s.intents[i];
          pi.order in s.orders && s.orders[pi.order].key == pi.key && s.orders[pi.order].gross == pi.amount)
    && (forall o :: o in s.orders ==>
          && s.orders[o].key in s.byKey && s.byKey[s.orders[o].key] in s.intents
          && s.intents[s.byKey[s.orders[o].key]].order == o && Balanced(s.orders[o]))
  }

  /** Each order has one item, and the item says what the order says. */
  ghost predicate ItemsOk(s: Shop) {
    && (forall o :: o in s.orders ==> HasItem(s, o))
    && (forall t :: t in s.items ==> s.items[t].order in s.orders && ItemFits(s.items[t], s.orders[s.items[t].order]))
    && (forall t, u :: t in s.items && u in s.items && s.items[t].order == s.items[u].order ==> t == u)
  }

  ghost predicate RowsOk(s: Shop) {
    KeysOk(s) && OrdersOk(s) && ItemsOk(s)
  }

  predicate FairPrice(p: L.Price) {
    p.gross == p.merchandise - p.discount + p.tip && p.upsell == 0 && 0 <= p.discount && 0 <= p.tip
  }

  ghost predicate PricesOk(l: L.Ledger) {
    forall r :: r in l.reservations && IsHoldKey(l.reservations[r].key) ==> FairPrice(l.reservations[r].price)
  }

  /** An intent names holds made under its key. */
  ghost predicate NamesOk(s: Shop) {
    forall i :: i in s.intents ==>
      var pi := s.intents[i];
      && (pi.coupon.Some? ==> pi.coupon.value in s.ledger.reservations && s.ledger.reservations[pi.coupon.value].key == HoldKey(pi.key))
      && (pi.stock.Some? ==> pi.stock.value in s.pool.reservations && s.pool.reservations[pi.stock.value].key == HoldKey(pi.key))
  }

  predicate OwnsStock(s: Shop, key: string, r: P.ReservationId) {
    key in s.byKey && s.byKey[key] in s.intents && s.intents[s.byKey[key]].stock == Some(r)
  }

  predicate OwnsCoupon(s: Shop, key: string, r: L.ReservationId) {
    key in s.byKey && s.byKey[key] in s.intents && s.intents[s.byKey[key]].coupon == Some(r)
  }

  /** Stock reserved under a checkout key, live or not, belongs to the intent of that key. */
  ghost predicate StockOwned(s: Shop) {
    forall r :: r in s.pool.reservations && IsHoldKey(s.pool.reservations[r].key) ==> OwnsStock(s, s.pool.reservations[r].key[9..], r)
  }

  ghost predicate ShopOk(s: Shop) {
    RowsOk(s) && PricesOk(s.ledger) && NamesOk(s) && StockOwned(s) && L.LedgerOk(s.ledger) && P.PoolOk(s.pool)
  }

  /** A live coupon hold made under a checkout key and owned by no intent of that key. */
  predicate Stray(s: Shop, r: L.ReservationId) {
    r in s.ledger.reservations && IsHoldKey(s.ledger.reservations[r].key) && CouponLive(s.ledger.reservations[r].state)
    && !OwnsCoupon(s, s.ledger.reservations[r].key[9..], r)
  }

  /** No hold went astray but these. */
  ghost predicate StraysWithin(s: Shop, e: Shop, extra: set<L.ReservationId>) {
    forall r :: Stray(e, r) ==> r in extra || (Stray(s, r) && e.ledger.reservations[r].key == s.ledger.reservations[r].key)
  }

  lemma HoldKeyOpens(key: string)
    ensures IsHoldKey(HoldKey(key)) && HoldKey(key)[9..] == key
  {
  }

  /** A ledger that may have lost live holds, and has no new row under a checkout key. */
  ghost predicate LedgerGoesOn(l: L.Ledger, e: L.Ledger) {
    && (forall r :: r in l.reservations ==>
          && r in e.reservations && L.SameTerms(l.reservations[r], e.reservations[r])
          && (CouponLive(e.reservations[r].state) ==> CouponLive(l.reservations[r].state)))
    && (forall r :: r in e.reservations && IsHoldKey(e.reservations[r].key) ==> r in l.reservations)
  }

  ghost predicate PoolGoesOn(p: P.Pool, e: P.Pool) {
    && (forall r :: r in p.reservations ==> r in e.reservations && e.reservations[r].key == p.reservations[r].key)
    && (forall r :: r in e.reservations && IsHoldKey(e.reservations[r].key) ==> r in p.reservations)
  }

  lemma LedgerStepGoesOn(l: L.Ledger, m: L.Step)
    requires !(m.DoReserve? && IsHoldKey(m.req.key))
    ensures LedgerGoesOn(l, L.Apply(l, m))
  {
    hide L.Reserving, L.Adjust, L.PriceOf, L.ValidPolicy, IsHoldKey;
    match m
    case DoReserve(c, r, req, now) => ReserveGoesOn(l, c, r, req, now);
    case DoConvert(r) => ConvertGoesOn(l, r);
    case _ =>
  }

  lemma ReserveGoesOn(l: L.Ledger, c: L.CouponId, r: L.ReservationId, req: L.Request, now: int)
    requires !IsHoldKey(req.key)
    ensures LedgerGoesOn(l, L.Reserve(l, c, r, req, now))
  {
    hide L.Reserving, L.Adjust, L.PriceOf, IsHoldKey;
  }

  lemma ConvertGoesOn(l: L.Ledger, r: L.ReservationId)
    ensures LedgerGoesOn(l, L.Convert(l, r))
  {
    hide L.Adjust, IsHoldKey;
  }

  lemma {:induction false} ExpiryGoesOn(p: P.Pool, listed: seq<P.ReservationId>)
    ensures PoolGoesOn(p, P.Expire(p, listed))
    decreases |listed|
  {
    if listed != [] {
      var r := listed[0];
      var e := if r in p.reservations && p.reservations[r].state.Claimed? then P.Release(p, r) else p;
      ExpiryGoesOn(e, listed[1..]);
    }
  }

  lemma {:induction false} ImportGoesOn(p: P.Pool, product: string, rows: seq<P.ImportRow>)
    ensures P.Inserted(p, product, rows).Some? ==> P.Inserted(p, product, rows).value.reservations == p.reservations
    decreases |rows|
  {
    if rows != [] && !P.Clashes(p.units, product, rows[0]) {
      var e := p.(units := p.units[rows[0].id := P.Unit(product, rows[0].uniqueKey, P.Available)], line := p.line + [rows[0].id]);
      ImportGoesOn(e, product, rows[1..]);
    }
  }

  lemma PoolStepGoesOn(p: P.Pool, m: P.Step)
    requires !(m.DoReserve? && IsHoldKey(m.key))
    ensures PoolGoesOn(p, P.Apply(p, m))
  {
    hide P.FirstFree, P.Inserted, P.Expire, IsHoldKey;
    match m
    case DoImport(product, rows) => ImportGoesOn(p, product, rows);
    case DoExpire(listed) => ExpiryGoesOn(p, listed);
    case _ =>
  }

  /** Only statuses moved. */
  predicate SameRows(s: Shop, e: Shop) {
    && e.byKey == s.byKey && e.items == s.items && e.intents.Keys == s.intents.Keys && e.orders.Keys == s.orders.Keys && e.mode == s.mode
    && (forall i :: i in s.intents ==>
          e.intents[i] == s.intents[i].(status := e.intents[i].status, unknownOp := e.intents[i].unknownOp,
                                        providerRef := e.intents[i].providerRef))
    && (forall o :: o in s.orders ==> e.orders[o] == s.orders[o].(payment := e.orders[o].payment))
  }

  ghost predicate GoesOn(s: Shop, e: Shop) {
    SameRows(s, e) && LedgerGoesOn(s.ledger, e.ledger) && PoolGoesOn(s.pool, e.pool)
  }

  lemma RowsGoOn(s: Shop, e: Shop)
    requires RowsOk(s) && SameRows(s, e)
    ensures RowsOk(e)
  {
    hide ItemsOk;
    ItemsGoOn(s, e);
    forall o | o in e.orders
      ensures Balanced(e.orders[o])
    {
      assert Balanced(s.orders[o]);
    }
    hide Balanced;
  }

  lemma ItemsGoOn(s: Shop, e: Shop)
    requires ItemsOk(s) && SameRows(s, e)
    ensures ItemsOk(e)
  {
    forall o | o in e.orders
      ensures HasItem(e, o)
    {
      assert HasItem(s, o);
    }
    forall t | t in e.items
      ensures e.items[t].order in e.orders && ItemFits(e.items[t], e.orders[e.items[t].order])
    {
      assert s.items[t].order in s.orders;
    }
    hide ItemFits, HasItem;
  }

  lemma HoldsGoOn(s: Shop, e: Shop)
    requires PricesOk(s.ledger) && NamesOk(s) && StockOwned(s) && GoesOn(s, e)
    ensures PricesOk(e.ledger) && NamesOk(e) && StockOwned(e)
    ensures StraysWithin(s, e, {})
  {
    hide IsHoldKey, HoldKey, FairPrice;
  }

  // ---------------------------------------------------------------------------
  // One call keeps the shop
  // ---------------------------------------------------------------------------

  predicate NewKey(s: Shop, key: string) {
    key !in s.byKey
  }

  lemma KnownKeyEndsTheCall(s: Shop, q: Request, w: World)
    requires KeysOk(s) && Opening(s, q, w).None?
    ensures NewKey(s, q.key) && OnSale(w)
  {
  }

  /** The coupon step: no change, or one new reserved row under the key of the call. */
  ghost predicate CouponTaken(l: L.Ledger, e: L.Ledger, key: string, hold: Option<L.ReservationId>, price: L.Price) {
    && (forall r :: r in l.reservations ==> r in e.reservations && e.reservations[r] == l.reservations[r])
    && (forall r :: r in e.reservations && r !in l.reservations ==>
          && hold == Some(r) && e.reservations[r].key == HoldKey(key) && e.reservations[r].state.Reserved?
          && FairPrice(e.reservations[r].price))
    && (hold.Some? ==>
          && hold.value in e.reservations && e.reservations[hold.value].key == HoldKey(key)
          && e.reservations[hold.value].price == price)
    && FairPrice(price)
  }

  lemma AskedPriceIsFair(l: L.Ledger, c: L.CouponId, q: Request, w: World, ids: Ids)
    requires OnSale(w) && c in l.coupons
    ensures FairPrice(L.NewReservation(l, c, CouponRequest(q, w, ids), w.now).price)
  {
    hide L.Discount, Merchandise;
  }

  lemma ReplayedRowFits(l: L.Ledger, c: L.CouponId, req: L.Request, now: int)
    requires L.LedgerOk(l)
    ensures L.Reserving(l, c, req, now).Replayed? ==>
              var r := L.Reserving(l, c, req, now).existing;
              r in l.reservations && l.reservations[r].key == req.key && l.reservations[r].coupon == c
  {
    hide L.CountersOk, L.RedemptionsOk, L.Admits, L.LimitHit;
  }

  lemma GrantedTakes(l: L.Ledger, c: L.CouponId, r: L.ReservationId, req: L.Request, now: int, key: string)
    requires r !in l.reservations && c in l.coupons && L.Reserving(l, c, req, now).Granted?
    requires req.key == HoldKey(key) && FairPrice(L.NewReservation(l, c, req, now).price)
    ensures CouponTaken(l, L.Reserve(l, c, r, req, now), key, Some(r), L.NewReservation(l, c, req, now).price)
  {
    var row := L.NewReservation(l, c, req, now);
    assert row.key == HoldKey(key) && row.state.Reserved?;
    assert L.Reserve(l, c, r, req, now).reservations == l.reservations[r := row];
    hide L.Reserving, L.NewReservation, L.Reserve, FairPrice, HoldKey;
  }

  lemma CouponStepTakes(l: L.Ledger, q: Request, w: World, ids: Ids)
    requires L.LedgerOk(l) && PricesOk(l) && OnSale(w) && ids.coupon !in l.reservations
    ensures var c := TakeCoupon(l, q, w, ids);
            c.Taken? ==> CouponTaken(l, c.ledger, q.key, c.hold, c.price) && L.LedgerOk(c.ledger)
  {
    hide L.LedgerOk, L.Reserving, L.NewReservation, L.Reserve, L.Apply;
    if q.coupon != "" && w.coupon.Some? {
      var c, req := w.coupon.value, CouponRequest(q, w, ids);
      ReplayedRowFits(l, c, req, w.now);
      ReserveKeepsLedger(l, c, ids.coupon, req, w.now);
      HoldKeyOpens(q.key);
      if c in l.coupons && L.Reserving(l, c, req, w.now).Granted? {
        AskedPriceIsFair(l, c, q, w, ids);
        GrantedTakes(l, c, ids.coupon, req, w.now, q.key);
      }
    }
    hide FairPrice, HoldKey;
  }

  lemma ReserveKeepsLedger(l: L.Ledger, c: L.CouponId, r: L.ReservationId, req: L.Request, now: int)
    requires L.LedgerOk(l)
    ensures L.LedgerOk(L.Reserve(l, c, r, req, now))
  {
    L.StepKeepsLedger(l, L.DoReserve(c, r, req, now));
    hide L.LedgerOk, L.Reserve;
  }

  /** The stock step: nothing, or one new row under the key of the call; it never meets an old one. */
  ghost predicate StockTaken(p: P.Pool, e: P.Pool, key: string, hold: Option<P.ReservationId>) {
    && (forall r :: r in p.reservations ==> r in e.reservations && e.reservations[r] == p.reservations[r])
    && (forall r :: r in e.reservations && r !in p.reservations ==> hold == Some(r))
    && (hold.Some? ==> hold.value !in p.reservations && hold.value in e.reservations
                       && e.reservations[hold.value].key == HoldKey(key) && e.reservations[hold.value].state.Claimed?)
  }

  lemma NewKeysNeverReplayStock(s: Shop, product: string, key: string, locked: set<P.UnitId>)
    requires P.PoolOk(s.pool) && StockOwned(s) && NewKey(s, key)
    ensures !P.Reserving(s.pool, product, HoldKey(key), locked).Replayed?
  {
    HoldKeyOpens(key);
    hide P.FirstFree, P.UnitsOk, P.RowsOk;
  }

  lemma NothingClaimed(p: P.Pool, key: string)
    ensures StockTaken(p, p, key, None)
  {
  }

  lemma GrantedClaims(p: P.Pool, r: P.ReservationId, product: string, key: string, order: Option<string>, locked: set<P.UnitId>)
    requires r !in p.reservations && P.Reserving(p, product, HoldKey(key), locked).Granted?
    ensures StockTaken(p, P.Reserve(p, r, product, HoldKey(key), order, locked), key, Some(r))
  {
    hide P.FirstFree, HoldKey;
  }

  lemma StockStepTakes(s: Shop, q: Request, w: World, ids: Ids)
    requires P.PoolOk(s.pool) && StockOwned(s) && NewKey(s, q.key) && OnSale(w) && ids.stock !in s.pool.reservations
    ensures var k := TakeStock(s.pool, q, w, ids);
            k.Claim? ==> StockTaken(s.pool, k.pool, q.key, k.hold) && P.PoolOk(k.pool)
  {
    hide P.PoolOk, StockOwned, P.Reserving, P.Reserve, HoldKey, StockTaken, NewKey;
    NewKeysNeverReplayStock(s, q.product, q.key, w.locked);
    P.ReserveKeepsPool(s.pool, ids.stock, q.product, HoldKey(q.key), Some(ids.order), w.locked);
    NothingClaimed(s.pool, q.key);
    if P.Reserving(s.pool, q.product, HoldKey(q.key), w.locked).Granted? {
      GrantedClaims(s.pool, ids.stock, q.product, q.key, Some(ids.order), w.locked);
    }
  }

  lemma FeesBalance(p: FeePolicy, gross: int)
    ensures FeeOf(p, gross).Some? ==>
              var f := FeeOf(p, gross).value; gross == f.total + f.net && 0 <= f.total && 0 < f.net
  {
    if gross > 0 && p.percentBps >= 0 {
      OrderMoney.Positive(gross, p.percentBps);
    }
  }

  lemma PlaceKeepsRows(s: Shop, l: L.Ledger, p: P.Pool, q: Request, price: L.Price, fee: Fee,
                       coupon: Option<L.ReservationId>, stock: Option<P.ReservationId>, ids: Ids)
    requires RowsOk(s) && NewKey(s, q.key) && Unused(s, ids) && FairPrice(price)
    requires price.gross == fee.total + fee.net && 0 <= fee.total && 0 < fee.net
    ensures RowsOk(Place(s.(ledger := l, pool := p), q, price, fee, coupon, stock, ids))
  {
    PlaceKeepsItems(s, l, p, q, price, fee, coupon, stock, ids);
    PlaceKeepsOrders(s, l, p, q, price, fee, coupon, stock, ids);
    PlaceKeepsKeys(s, l, p, q, price, fee, coupon, stock, ids);
    hide KeysOk, ItemsOk, OrdersOk, Place;
  }

  lemma PlaceKeepsKeys(s: Shop, l: L.Ledger, p: P.Pool, q: Request, price: L.Price, fee: Fee,
                       coupon: Option<L.ReservationId>, stock: Option<P.ReservationId>, ids: Ids)
    requires KeysOk(s) && NewKey(s, q.key) && Unused(s, ids)
    ensures KeysOk(Place(s.(ledger := l, pool := p), q, price, fee, coupon, stock, ids))
  {
    hide NewOrder, NewItem;
  }

  lemma PlaceKeepsOrders(s: Shop, l: L.Ledger, p: P.Pool, q: Request, price: L.Price, fee: Fee,
                         coupon: Option<L.ReservationId>, stock: Option<P.ReservationId>, ids: Ids)
    requires KeysOk(s) && OrdersOk(s) && NewKey(s, q.key) && Unused(s, ids) && FairPrice(price)
    requires price.gross == fee.total + fee.net && 0 <= fee.total && 0 < fee.net
    ensures OrdersOk(Place(s.(ledger := l, pool := p), q, price, fee, coupon, stock, ids))
  {
    var order := NewOrder(q, price, fee);
    assert Balanced(order) && order.key == q.key && order.gross == price.gross;
    var pi := NewIntent(s.mode, q, price, coupon, stock, ids);
    assert pi.key == q.key && pi.order == ids.order && pi.amount == price.gross;
    hide NewIntent, NewOrder, NewItem, Balanced, FairPrice;
  }

  lemma PlaceKeepsItems(s: Shop, l: L.Ledger, p: P.Pool, q: Request, price: L.Price, fee: Fee,
                        coupon: Option<L.ReservationId>, stock: Option<P.ReservationId>, ids: Ids)
    requires ItemsOk(s) && Unused(s, ids)
    ensures ItemsOk(Place(s.(ledger := l, pool := p), q, price, fee, coupon, stock, ids))
  {
    var e := Place(s.(ledger := l, pool := p), q, price, fee, coupon, stock, ids);
    forall o | o in e.orders
      ensures HasItem(e, o)
    {
      if o == ids.order {
        assert e.items[ids.item].order == o;
      } else {
        assert HasItem(s, o);
        var t :| t in s.items && s.items[t].order == o;
        assert e.items[t].order == o;
      }
    }
    assert ItemFits(NewItem(q, price, stock, ids), NewOrder(q, price, fee));
    hide HasItem, ItemFits, NewIntent, NewOrder;
  }

  lemma PlaceKeepsHolds(s: Shop, l: L.Ledger, p: P.Pool, q: Request, price: L.Price, fee: Fee,
                        coupon: Option<L.ReservationId>, stock: Option<P.ReservationId>, ids: Ids)
    requires KeysOk(s) && NamesOk(s) && StockOwned(s) && NewKey(s, q.key) && Unused(s, ids)
    requires CouponTaken(s.ledger, l, q.key, coupon, price) && StockTaken(s.pool, p, q.key, stock)
    ensures var e := Place(s.(ledger := l, pool := p), q, price, fee, coupon, stock, ids);
            NamesOk(e) && StockOwned(e) && StraysWithin(s, e, {})
  {
    HoldKeyOpens(q.key);
    var e := Place(s.(ledger := l, pool := p), q, price, fee, coupon, stock, ids);
    var pi := NewIntent(s.mode, q, price, coupon, stock, ids);
    assert pi.key == q.key && pi.coupon == coupon && pi.stock == stock;
    hide NewIntent, NewOrder, NewItem, HoldKey, IsHoldKey, FairPrice;
    OldHoldsKeepOwners(s, e, q.key);
    hide OwnsStock, OwnsCoupon, KeysOk;
  }

  lemma OldHoldsKeepOwners(s: Shop, e: Shop, key: string)
    requires KeysOk(s) && NewKey(s, key) && key in e.byKey && e.byKey[key] in e.intents && e.byKey[key] !in s.intents
    requires e.byKey == s.byKey[key := e.byKey[key]] && e.intents == s.intents[e.byKey[key] := e.intents[e.byKey[key]]]
    ensures forall k, r :: OwnsStock(s, k, r) ==> OwnsStock(e, k, r)
    ensures forall k, r :: OwnsCoupon(s, k, r) ==> OwnsCoupon(e, k, r)
    ensures forall r :: e.intents[e.byKey[key]].stock == Some(r) ==> OwnsStock(e, key, r)
    ensures forall r :: e.intents[e.byKey[key]].coupon == Some(r) ==> OwnsCoupon(e, key, r)
  {
  }

  lemma PricesStayFair(l: L.Ledger, e: L.Ledger, key: string, hold: Option<L.ReservationId>, price: L.Price)
    requires PricesOk(l) && CouponTaken(l, e, key, hold, price)
    ensures PricesOk(e)
  {
    hide IsHoldKey, HoldKey, FairPrice;
  }

  /** The write after the provider's answer moves statuses and ends holds; it adds nothing. */
  lemma ConclusionGoesOn(s: Shop, i: IntentId, answer: PC.Answer)
    requires i in s.intents && s.intents[i].order in s.orders && L.LedgerOk(s.ledger) && P.PoolOk(s.pool)
    ensures var e := Conclude(s, i, answer).shop; GoesOn(s, e) && L.LedgerOk(e.ledger) && P.PoolOk(e.pool)
  {
    hide L.LedgerOk, P.PoolOk, LedgerGoesOn, PoolGoesOn, L.Release, L.HoldUnknown, P.Release;
    LedgerStays(s.ledger);
    PoolStays(s.pool);
    var pi := s.intents[i];
    if pi.coupon.Some? {
      LedgerMoves(s.ledger, pi.coupon.value);
    }
    if pi.stock.Some? {
      PoolFrees(s.pool, pi.stock.value);
    }
  }

  lemma LedgerStays(l: L.Ledger)
    ensures LedgerGoesOn(l, l)
  {
  }

  lemma PoolStays(p: P.Pool)
    ensures PoolGoesOn(p, p)
  {
  }

  lemma LedgerMoves(l: L.Ledger, r: L.ReservationId)
    requires L.LedgerOk(l)
    ensures L.LedgerOk(L.Release(l, r)) && LedgerGoesOn(l, L.Release(l, r))
    ensures L.LedgerOk(L.HoldUnknown(l, r)) && LedgerGoesOn(l, L.HoldUnknown(l, r))
  {
    assert L.Apply(l, L.DoRelease(r)) == L.Release(l, r) && L.Apply(l, L.DoHold(r)) == L.HoldUnknown(l, r);
    hide L.LedgerOk, LedgerGoesOn, L.Release, L.HoldUnknown, L.Apply;
    L.StepKeepsLedger(l, L.DoRelease(r));
    L.StepKeepsLedger(l, L.DoHold(r));
    LedgerStepGoesOn(l, L.DoRelease(r));
    LedgerStepGoesOn(l, L.DoHold(r));
  }

  lemma PoolFrees(p: P.Pool, r: P.ReservationId)
    requires P.PoolOk(p)
    ensures P.PoolOk(P.Release(p, r)) && PoolGoesOn(p, P.Release(p, r))
  {
    P.ReleaseKeepsPool(p, r);
    PoolStepGoesOn(p, P.DoRelease(r));
    hide P.PoolOk, PoolGoesOn, P.Release;
  }

  /** A placed and concluded call. */
  lemma PlacedCallKeepsShop(s: Shop, l: L.Ledger, p: P.Pool, q: Request, price: L.Price, fee: Fee,
                            coupon: Option<L.ReservationId>, stock: Option<P.ReservationId>, ids: Ids, answer: PC.Answer)
    requires ShopOk(s) && NewKey(s, q.key) && Unused(s, ids)
    requires CouponTaken(s.ledger, l, q.key, coupon, price) && StockTaken(s.pool, p, q.key, stock)
    requires L.LedgerOk(l) && P.PoolOk(p) && price.gross == fee.total + fee.net && 0 <= fee.total && 0 < fee.net
    ensures var e := Conclude(Place(s.(ledger := l, pool := p), q, price, fee, coupon, stock, ids), ids.intent, answer).shop;
            ShopOk(e) && StraysWithin(s, e, {})
  {
    hide RowsOk, PricesOk, NamesOk, StockOwned, Stray, L.LedgerOk, P.PoolOk, GoesOn, Conclude, CouponTaken,
         StockTaken, FairPrice;
    PlacedRowsAreOk(s, l, p, q, price, fee, coupon, stock, ids);
    PlaceKeepsHolds(s, l, p, q, price, fee, coupon, stock, ids);
    PricesStayFair(s.ledger, l, q.key, coupon, price);
    ConcludedShopIsOk(Place(s.(ledger := l, pool := p), q, price, fee, coupon, stock, ids), ids.intent, answer);
  }

  lemma PlacedRowsAreOk(s: Shop, l: L.Ledger, p: P.Pool, q: Request, price: L.Price, fee: Fee,
                        coupon: Option<L.ReservationId>, stock: Option<P.ReservationId>, ids: Ids)
    requires RowsOk(s) && NewKey(s, q.key) && Unused(s, ids) && CouponTaken(s.ledger, l, q.key, coupon, price)
    requires price.gross == fee.total + fee.net && 0 <= fee.total && 0 < fee.net
    ensures KeysOk(s) && RowsOk(Place(s.(ledger := l, pool := p), q, price, fee, coupon, stock, ids))
  {
    hide Place, ItemsOk, OrdersOk, KeysOk, HoldKey;
    PlaceKeepsRows(s, l, p, q, price, fee, coupon, stock, ids);
  }

  lemma ConcludedShopIsOk(m: Shop, i: IntentId, answer: PC.Answer)
    requires ShopOk(m) && i in m.intents && m.intents[i].order in m.orders
    ensures var e := Conclude(m, i, answer).shop; ShopOk(e) && StraysWithin(m, e, {})
  {
    hide RowsOk, PricesOk, NamesOk, StockOwned, Stray, L.LedgerOk, P.PoolOk, LedgerGoesOn, PoolGoesOn, SameRows,
         Conclude;
    ConclusionGoesOn(m, i, answer);
    var e := Conclude(m, i, answer).shop;
    RowsGoOn(m, e);
    HoldsGoOn(m, e);
  }

  /** A refused call leaves the rows as they were, and the ledger with at most one new row. */
  lemma RefusedCallKeepsShop(s: Shop, l: L.Ledger, key: string, hold: Option<L.ReservationId>, price: L.Price)
    requires ShopOk(s) && CouponTaken(s.ledger, l, key, hold, price) && L.LedgerOk(l)
    ensures ShopOk(s.(ledger := l))
  {
    hide RowsOk, L.LedgerOk, P.PoolOk, PricesOk, NamesOk, StockOwned, CouponTaken;
    PricesStayFair(s.ledger, l, key, hold, price);
    RowsGoOn(s, s.(ledger := l));
    NamesSurvive(s, l, key, hold, price);
  }

  lemma NamesSurvive(s: Shop, l: L.Ledger, key: string, hold: Option<L.ReservationId>, price: L.Price)
    requires NamesOk(s) && StockOwned(s) && CouponTaken(s.ledger, l, key, hold, price)
    ensures NamesOk(s.(ledger := l)) && StockOwned(s.(ledger := l))
  {
    hide FairPrice, HoldKey, IsHoldKey;
  }

  /** A new row freed in the same call leaves no live hold behind. */
  lemma FreedCallKeepsShop(s: Shop, l: L.Ledger, key: string, hold: Option<L.ReservationId>, price: L.Price)
    requires ShopOk(s) && CouponTaken(s.ledger, l, key, hold, price) && L.LedgerOk(l)
    ensures var e := s.(ledger := FreeCoupon(l, hold)); ShopOk(e) && StraysWithin(s, e, {})
  {
    hide ShopOk, FreeCoupon, Stray, L.LedgerOk, LedgerGoesOn, CouponTaken;
    RefusedCallKeepsShop(s, l, key, hold, price);
    FreedLedger(l, hold);
    FreedRowIsNotLive(s, l, key, hold, price);
    FreedRowsGoOn(s.(ledger := l), FreeCoupon(l, hold));
  }

  lemma FreedRowsGoOn(m: Shop, e: L.Ledger)
    requires ShopOk(m) && LedgerGoesOn(m.ledger, e) && L.LedgerOk(e)
    ensures ShopOk(m.(ledger := e))
  {
    PoolStays(m.pool);
    hide RowsOk, PricesOk, NamesOk, StockOwned, Stray, L.LedgerOk, P.PoolOk, LedgerGoesOn, PoolGoesOn;
    RowsGoOn(m, m.(ledger := e));
    HoldsGoOn(m, m.(ledger := e));
  }

  lemma FreedLedger(l: L.Ledger, hold: Option<L.ReservationId>)
    requires L.LedgerOk(l)
    ensures LedgerGoesOn(l, FreeCoupon(l, hold)) && L.LedgerOk(FreeCoupon(l, hold))
  {
    hide LedgerGoesOn, L.LedgerOk, L.Release;
    LedgerStays(l);
    if hold.Some? {
      LedgerMoves(l, hold.value);
    }
  }

  lemma FreedRowIsFree(l: L.Ledger, r: L.ReservationId)
    requires L.LedgerOk(l) && r in l.reservations
    ensures r in L.Release(l, r).reservations && !CouponLive(L.Release(l, r).reservations[r].state)
  {
    hide L.LedgerOk, L.Release;
    L.LedgerMovesHolds(l, r);
  }

  lemma FreedRowIsNotLive(s: Shop, l: L.Ledger, key: string, hold: Option<L.ReservationId>, price: L.Price)
    requires L.LedgerOk(l) && CouponTaken(s.ledger, l, key, hold, price)
    ensures StraysWithin(s, s.(ledger := FreeCoupon(l, hold)), {})
  {
    hide L.Release, L.LedgerOk, HoldKey, IsHoldKey, FairPrice;
    FreedLedger(l, hold);
    if hold.Some? {
      FreedRowIsFree(l, hold.value);
    }
  }

  // ---------------------------------------------------------------------------
  // Every call and every run
  // ---------------------------------------------------------------------------

  /** A call that was granted a coupon and is then refused for its amount or its fee. */
  predicate Leaks(s: Shop, q: Request, w: World, ids: Ids) {
    && Opening(s, q, w).None? && OnSale(w)
    && q.coupon != "" && w.coupon.Some?
    && L.Reserving(s.ledger, w.coupon.value, CouponRequest(q, w, ids), w.now).Granted?
    && TakeCoupon(s.ledger, q, w, ids).Taken?
    && FeeOf(w.fees, TakeCoupon(s.ledger, q, w, ids).price.gross).None?
  }

  lemma CreateKeepsShop(s: Shop, q: Request, w: World, ids: Ids)
    requires ShopOk(s) && Unused(s, ids)
    ensures ShopOk(Create(s, q, w, ids).shop)
    ensures StraysWithin(s, Create(s, q, w, ids).shop, if Leaks(s, q, w, ids) then {ids.coupon} else {})
  {
    hide RowsOk, PricesOk, NamesOk, StockOwned, Stray, L.LedgerOk, P.PoolOk, Place, Conclude, CouponTaken,
         StockTaken,
         TakeStock, FreeCoupon, L.Reserve, L.Reserving, L.NewReservation, CouponRequest, Opening, FeeOf, StraysWithin;
    if Opening(s, q, w).None? {
      KnownKey(s, q, w);
      var c := TakeCoupon(s.ledger, q, w, ids);
      CouponStepTakes(s.ledger, q, w, ids);
      if c.Taken? {
        RefusedCallKeepsShop(s, c.ledger, q.key, c.hold, c.price);
        FreedCallKeepsShop(s, c.ledger, q.key, c.hold, c.price);
        FeesBalance(w.fees, c.price.gross);
        NoGrossNoFee(w.fees, c.price.gross);
        StockStepTakes(s, q, w, ids);
        var fee, k := FeeOf(w.fees, c.price.gross), TakeStock(s.pool, q, w, ids);
        if fee.Some? && k.Claim? {
          PlacedCallKeepsShop(s, c.ledger, k.pool, q, c.price, fee.value, c.hold, k.hold, ids, w.answer);
        }
        RefusedCallStrays(s, c.ledger, q.key, c.hold, c.price);
        if c.ledger == s.ledger {
          assert s.(ledger := c.ledger) == s;
        }
      }
    }
    NothingStrays(s);
  }

  lemma NothingStrays(s: Shop)
    ensures forall extra: set<L.ReservationId> :: StraysWithin(s, s, extra)
  {
  }

  lemma RefusedCallStrays(s: Shop, l: L.Ledger, key: string, hold: Option<L.ReservationId>, price: L.Price)
    requires CouponTaken(s.ledger, l, key, hold, price)
    ensures StraysWithin(s, s.(ledger := l), if hold.Some? then {hold.value} else {})
  {
    hide IsHoldKey, HoldKey, FairPrice;
  }

  lemma KnownKey(s: Shop, q: Request, w: World)
    requires RowsOk(s) && Opening(s, q, w).None?
    ensures NewKey(s, q.key) && OnSale(w)
  {
    hide OrdersOk, ItemsOk;
    KnownKeyEndsTheCall(s, q, w);
  }

  lemma NoGrossNoFee(p: FeePolicy, gross: int)
    ensures gross <= 0 ==> FeeOf(p, gross).None?
  {
  }

  /** What a leak is: the coupon stays reserved under a key that has no intent. */
  lemma LeakLeavesAHold(s: Shop, q: Request, w: World, ids: Ids)
    requires ShopOk(s) && Unused(s, ids) && Leaks(s, q, w, ids)
    ensures var e := Create(s, q, w, ids).shop;
            && ids.coupon in e.ledger.reservations && e.ledger.reservations[ids.coupon].key == HoldKey(q.key)
            && e.ledger.reservations[ids.coupon].state.Reserved? && NewKey(e, q.key)
            && e == s.(ledger := e.ledger) && Stray(e, ids.coupon)
  {
    hide RowsOk, PricesOk, NamesOk, StockOwned, L.LedgerOk, P.PoolOk, L.NewReservation, L.Reserve, L.Reserving,
         Opening, FeeOf, CouponRequest,
         HoldKey, IsHoldKey, TakeStock, Place, Conclude, FreeCoupon;
    KnownKey(s, q, w);
    HoldKeyOpens(q.key);
    NoGrossNoFee(w.fees, TakeCoupon(s.ledger, q, w, ids).price.gross);
    GrantedRowIsReserved(s.ledger, w.coupon.value, q, w, ids);
  }

  lemma GrantedRowIsReserved(l: L.Ledger, c: L.CouponId, q: Request, w: World, ids: Ids)
    requires OnSale(w) && ids.coupon !in l.reservations && c in l.coupons
    requires L.Reserving(l, c, CouponRequest(q, w, ids), w.now).Granted?
    ensures var e := L.Reserve(l, c, ids.coupon, CouponRequest(q, w, ids), w.now);
            && ids.coupon in e.reservations && e.reservations[ids.coupon].key == HoldKey(q.key)
            && e.reservations[ids.coupon].state.Reserved? && e.reservations[ids.coupon].coupon == c
            && e.reservations[ids.coupon].price == L.NewReservation(l, c, CouponRequest(q, w, ids), w.now).price
  {
    hide L.Reserving, L.PriceOf, HoldKey;
  }

  /** A call sends a hold astray exactly when it leaks, and then the one it was granted. */
  lemma CallsLeakExactly(s: Shop, q: Request, w: World, ids: Ids, r: L.ReservationId)
    requires ShopOk(s) && Unused(s, ids)
    ensures Stray(Create(s, q, w, ids).shop, r) && !Stray(s, r) <==> Leaks(s, q, w, ids) && r == ids.coupon
  {
    hide ShopOk, Unused, Create, Leaks, Stray, OnSale;
    NewHoldsAreNotStray(s, ids);
    CreateKeepsShop(s, q, w, ids);
    if Leaks(s, q, w, ids) {
      LeakLeavesAHold(s, q, w, ids);
    }
  }

  lemma NewHoldsAreNotStray(s: Shop, ids: Ids)
    requires Unused(s, ids)
    ensures !Stray(s, ids.coupon)
  {
  }

  predicate Leaky(s: Shop, x: Step) {
    x.Call? && Unused(s, x.ids) && Leaks(s, x.request, x.world, x.ids)
  }

  lemma StepKeepsShop(s: Shop, x: Step)
    requires ShopOk(s)
    ensures ShopOk(Apply(s, x))
    ensures StraysWithin(s, Apply(s, x), if Leaky(s, x) then {x.ids.coupon} else {})
  {
    hide ShopOk, Stray, Create, Leaks, L.Apply, P.Apply, IsHoldKey;
    match x
    case Call(q, w, ids) =>
      if Unused(s, ids) {
        CreateKeepsShop(s, q, w, ids);
      }
    case OnLedger(m) =>
      if !(m.DoReserve? && IsHoldKey(m.req.key)) {
        OutsideLedgerStep(s, m);
      }
    case OnPool(m) =>
      if !(m.DoReserve? && IsHoldKey(m.key)) {
        OutsidePoolStep(s, m);
      }
  }

  lemma OutsideLedgerStep(s: Shop, m: L.Step)
    requires ShopOk(s) && !(m.DoReserve? && IsHoldKey(m.req.key))
    ensures var e := s.(ledger := L.Apply(s.ledger, m)); ShopOk(e) && StraysWithin(s, e, {})
  {
    hide RowsOk, PricesOk, NamesOk, StockOwned, Stray, L.LedgerOk, P.PoolOk, LedgerGoesOn, PoolGoesOn, L.Apply,
         IsHoldKey;
    L.StepKeepsLedger(s.ledger, m);
    LedgerStepGoesOn(s.ledger, m);
    PoolStays(s.pool);
    var e := s.(ledger := L.Apply(s.ledger, m));
    RowsGoOn(s, e);
    HoldsGoOn(s, e);
  }

  lemma OutsidePoolStep(s: Shop, m: P.Step)
    requires ShopOk(s) && !(m.DoReserve? && IsHoldKey(m.key))
    ensures var e := s.(pool := P.Apply(s.pool, m)); ShopOk(e) && StraysWithin(s, e, {})
  {
    hide RowsOk, PricesOk, NamesOk, StockOwned, Stray, L.LedgerOk, P.PoolOk, LedgerGoesOn, PoolGoesOn, P.Apply,
         IsHoldKey;
    P.StepKeepsPool(s.pool, m);
    PoolStepGoesOn(s.pool, m);
    LedgerStays(s.ledger);
    var e := s.(pool := P.Apply(s.pool, m));
    RowsGoOn(s, e);
    HoldsGoOn(s, e);
  }

  lemma {:induction false} RunKeepsShop(s: Shop, steps: seq<Step>)
    requires ShopOk(s)
    ensures ShopOk(Run(s, steps))
    decreases |steps|
  {
    hide ShopOk, Apply;
    if steps != [] {
      StepKeepsShop(s, steps[0]);
      RunKeepsShop(Apply(s, steps[0]), steps[1..]);
    }
  }

  lemma EmptyShopIsOk(mode: string)
    ensures ShopOk(Empty(mode)) && forall r :: !Stray(Empty(mode), r)
  {
  }

  // ---------------------------------------------------------------------------
  // One key, one checkout
  // ---------------------------------------------------------------------------

  function IntentsOf(s: Shop, key: string): set<IntentId> {
    set i | i in s.intents && s.intents[i].key == key
  }

  function OrdersOf(s: Shop, key: string): set<OrderId> {
    set o | o in s.orders && s.orders[o].key == key
  }

  function ItemsOf(s: Shop, key: string): set<ItemId> {
    set t | t in s.items && s.items[t].order in s.orders && s.orders[s.items[t].order].key == key
  }

  function LiveStockOf(s: Shop, key: string): set<P.ReservationId> {
    set r | r in s.pool.reservations && s.pool.reservations[r].key == HoldKey(key) && StockLive(s.pool.reservations[r].state)
  }

  function LiveCouponsOf(s: Shop, key: string): set<L.ReservationId> {
    set r | r in s.ledger.reservations && s.ledger.reservations[r].key == HoldKey(key) && CouponLive(s.ledger.reservations[r].state)
  }

  /** The calls of a run under a key that leak. */
  function LeaksUnder(s: Shop, steps: seq<Step>, key: string): nat
    decreases |steps|
  {
    if steps == [] then 0
    else (if Leaky(s, steps[0]) && steps[0].request.key == key then 1 else 0) + LeaksUnder(Apply(s, steps[0]), steps[1..], key)
  }

  /** After any run a key has one intent, one order and one item, or none of them, at most one live
      stock hold, and at most one live coupon hold more than calls under it leaked. The amounts balance. */
  lemma OneCheckoutPerKey(mode: string, steps: seq<Step>, key: string)
    ensures var s := Run(Empty(mode), steps);
            && |IntentsOf(s, key)| == |OrdersOf(s, key)| == |ItemsOf(s, key)| == (if key in s.byKey then 1 else 0)
            && |LiveStockOf(s, key)| <= 1
            && |LiveCouponsOf(s, key)| <= 1 + LeaksUnder(Empty(mode), steps, key)
            && (forall o :: o in OrdersOf(s, key) ==> Balanced(s.orders[o]))
  {
    hide Run, ShopOk, Empty, Balanced, Stray, LeaksUnder;
    EmptyShopIsOk(mode);
    RunKeepsShop(Empty(mode), steps);
    var s := Run(Empty(mode), steps);
    CountsPerKey(s, key);
    StockPerKey(s, key);
    assert StraysOf(Empty(mode), key) == {};
    StraysAreLeaked(Empty(mode), steps, key);
    CouponsPerKey(s, key);
  }

  function StraysOf(s: Shop, key: string): set<L.ReservationId> {
    set r | r in LiveCouponsOf(s, key) && Stray(s, r)
  }

  lemma StrayIsLive(s: Shop, r: L.ReservationId, key: string)
    requires Stray(s, r)
    ensures r in StraysOf(s, key) <==> s.ledger.reservations[r].key == HoldKey(key)
  {
    hide IsHoldKey, HoldKey, OwnsCoupon;
  }

  lemma StepStrays(s: Shop, x: Step, key: string)
    requires ShopOk(s)
    ensures |StraysOf(Apply(s, x), key)| <= |StraysOf(s, key)| + if Leaky(s, x) && x.request.key == key then 1 else 0
  {
    var e := Apply(s, x);
    hide ShopOk, Apply, Stray, StraysOf, StraysWithin, Leaks, Unused;
    StepKeepsShop(s, x);
    if Leaky(s, x) {
      StraysGrow(s, e, key, {x.ids.coupon});
      if x.ids.coupon in StraysOf(e, key) {
        LeakedUnderItsKey(s, x, key);
      }
    } else {
      StraysGrow(s, e, key, {});
    }
  }

  lemma StraysGrow(s: Shop, e: Shop, key: string, extra: set<L.ReservationId>)
    requires StraysWithin(s, e, extra)
    ensures |StraysOf(e, key)| <= |StraysOf(s, key)| + |extra|
    ensures extra !! StraysOf(e, key) ==> |StraysOf(e, key)| <= |StraysOf(s, key)|
  {
    hide StraysOf, StraysWithin;
    var before, after := StraysOf(s, key), StraysOf(e, key);
    forall r | r in after
      ensures r in extra || r in before
    {
      StrayStays(s, e, r, key, extra);
    }
    assert before + extra == before + (extra - before);
    PartIsSmaller(extra - before, extra);
    PartIsSmaller(after, before + extra);
    if extra !! after {
      PartIsSmaller(after, before);
    }
  }

  lemma StrayStays(s: Shop, e: Shop, r: L.ReservationId, key: string, extra: set<L.ReservationId>)
    requires StraysWithin(s, e, extra) && r in StraysOf(e, key)
    ensures r in extra || r in StraysOf(s, key)
  {
    hide Stray;
    StrayIsLive(e, r, key);
    if Stray(s, r) {
      StrayIsLive(s, r, key);
    }
  }

  lemma LeakedUnderItsKey(s: Shop, x: Step, key: string)
    requires ShopOk(s) && Leaky(s, x) && x.ids.coupon in StraysOf(Apply(s, x), key)
    ensures x.request.key == key
  {
    var q, w, ids := x.request, x.world, x.ids;
    LeakLeavesAHold(s, q, w, ids);
    HoldKeyOpens(key);
    HoldKeyOpens(q.key);
    hide ShopOk, Create, Leaks, Stray, HoldKey, IsHoldKey, Unused;
  }

  lemma {:induction false} StraysAreLeaked(s: Shop, steps: seq<Step>, key: string)
    requires ShopOk(s)
    ensures |StraysOf(Run(s, steps), key)| <= |StraysOf(s, key)| + LeaksUnder(s, steps, key)
    decreases |steps|
  {
    hide ShopOk, Apply, Leaky, StraysOf;
    if steps != [] {
      StepKeepsShop(s, steps[0]);
      StepStrays(s, steps[0], key);
      StraysAreLeaked(Apply(s, steps[0]), steps[1..], key);
    }
  }

  lemma CountsPerKey(s: Shop, key: string)
    requires ShopOk(s)
    ensures |IntentsOf(s, key)| == |OrdersOf(s, key)| == |ItemsOf(s, key)| == (if key in s.byKey then 1 else 0)
    ensures forall o :: o in OrdersOf(s, key) ==> Balanced(s.orders[o])
  {
    hide PricesOk, NamesOk, StockOwned, L.LedgerOk, P.PoolOk, Balanced, ItemFits;
    if key in s.byKey {
      var i := s.byKey[key];
      var o := s.intents[i].order;
      assert HasItem(s, o);
      var t :| t in s.items && s.items[t].order == o;
      assert IntentsOf(s, key) == {i};
      assert OrdersOf(s, key) == {o};
      assert ItemsOf(s, key) == {t};
    } else {
      assert IntentsOf(s, key) == {} && OrdersOf(s, key) == {} && ItemsOf(s, key) == {};
    }
  }

  lemma StockPerKey(s: Shop, key: string)
    requires ShopOk(s)
    ensures |LiveStockOf(s, key)| <= 1
  {
    hide RowsOk, PricesOk, NamesOk, L.LedgerOk, P.PoolOk;
    HoldKeyOpens(key);
    hide HoldKey, IsHoldKey;
    if r :| r in LiveStockOf(s, key) {
      assert OwnsStock(s, key, r);
      assert LiveStockOf(s, key) == {r};
    }
  }

  /** All live coupon holds of a key but the one of its intent are astray. */
  lemma CouponsPerKey(s: Shop, key: string)
    ensures |LiveCouponsOf(s, key)| <= 1 + |StraysOf(s, key)|
  {
    HoldKeyOpens(key);
    hide HoldKey, IsHoldKey;
    var own := LiveCouponsOf(s, key) - StraysOf(s, key);
    assert LiveCouponsOf(s, key) == own + StraysOf(s, key);
    assert forall r :: r in own ==> OwnsCoupon(s, key, r);
    if r :| r in own {
      assert own == {r};
    }
  }

  // ---------------------------------------------------------------------------
  // Repetition
  // ---------------------------------------------------------------------------

  predicate WellFormed(q: Request, w: World) {
    q.store != "" && q.product != "" && !Blank(q.key) && !w.disabled
  }

  /** A call under a known key changes nothing: it replays the same request and refuses any other. */
  lemma KnownKeysChangeNothing(s: Shop, q: Request, w: World, ids: Ids)
    requires ShopOk(s) && WellFormed(q, w) && q.key in s.byKey
    ensures Create(s, q, w, ids).shop == s && s.byKey[q.key] in s.intents
    ensures Create(s, q, w, ids).outcome ==
              if s.intents[s.byKey[q.key]].text == TextOf(s.mode, q) then Replay(s.byKey[q.key]) else Refused(IdempotencyConflict)
  {
    hide OrdersOk, ItemsOk, PricesOk, NamesOk, StockOwned, L.LedgerOk, P.PoolOk, TextOf, Blank;
  }

  /** What was placed stays as it was placed, whatever is asked later. */
  predicate Keeps(s: Shop, e: Shop) {
    && e.mode == s.mode
    && (forall k :: k in s.byKey ==> k in e.byKey && e.byKey[k] == s.byKey[k])
    && (forall i :: i in s.intents ==> i in e.intents && e.intents[i] == s.intents[i])
    && (forall o :: o in s.orders ==> o in e.orders && e.orders[o] == s.orders[o])
    && (forall t :: t in s.items ==> t in e.items && e.items[t] == s.items[t])
  }

  lemma ConclusionKeepsOthers(s: Shop, l: L.Ledger, p: P.Pool, q: Request, price: L.Price, fee: Fee,
                              coupon: Option<L.ReservationId>, stock: Option<P.ReservationId>, ids: Ids, answer: PC.Answer)
    requires Unused(s, ids) && NewKey(s, q.key)
    ensures var m := Place(s.(ledger := l, pool := p), q, price, fee, coupon, stock, ids);
            Keeps(s, Conclude(m, ids.intent, answer).shop)
  {
    hide FreeStock, FreeCoupon, L.HoldUnknown, NewOrder, NewItem;
    var pi := NewIntent(s.mode, q, price, coupon, stock, ids);
    assert pi.order == ids.order;
    hide NewIntent;
  }

  lemma StepKeepsPlaced(s: Shop, x: Step)
    requires ShopOk(s)
    ensures Keeps(s, Apply(s, x))
  {
    hide RowsOk, PricesOk, NamesOk, StockOwned, L.LedgerOk, P.PoolOk, Opening, TakeCoupon, TakeStock, FeeOf, Place,
         Conclude, FreeCoupon,
         L.Apply, P.Apply, IsHoldKey;
    if x.Call? && Unused(s, x.ids) && Opening(s, x.request, x.world).None? {
      var q, w, ids := x.request, x.world, x.ids;
      KnownKey(s, q, w);
      var c := TakeCoupon(s.ledger, q, w, ids);
      if c.Taken? {
        var fee, k := FeeOf(w.fees, c.price.gross), TakeStock(s.pool, q, w, ids);
        if fee.Some? && k.Claim? {
          ConclusionKeepsOthers(s, c.ledger, k.pool, q, c.price, fee.value, c.hold, k.hold, ids, w.answer);
        }
      }
    }
  }

  lemma {:induction false} RunKeepsPlaced(s: Shop, steps: seq<Step>)
    requires ShopOk(s)
    ensures Keeps(s, Run(s, steps))
    decreases |steps|
  {
    hide ShopOk, Apply;
    if steps != [] {
      StepKeepsShop(s, steps[0]);
      StepKeepsPlaced(s, steps[0]);
      RunKeepsPlaced(Apply(s, steps[0]), steps[1..]);
    }
  }

  /** The request stored with a key is answered for ever with the intent it made, and a different
      one with a conflict; what counts as different is the text, and nothing moves in either case. */
  lemma KeysAnswerForEver(s: Shop, i: IntentId, steps: seq<Step>, q: Request, w: World, ids: Ids)
    requires ShopOk(s) && i in s.intents && q.key == s.intents[i].key && WellFormed(q, w)
    ensures Create(Run(s, steps), q, w, ids)
            == Result(Run(s, steps), if s.intents[i].text == TextOf(s.mode, q) then Replay(i) else Refused(IdempotencyConflict))
  {
    RunKeepsPlaced(s, steps);
    RunKeepsShop(s, steps);
    var e := Run(s, steps);
    IntentHasItsRows(s, i);
    hide ShopOk, Run, Create, TextOf, WellFormed;
    KnownKeysChangeNothing(e, q, w, ids);
  }

  lemma IntentHasItsRows(s: Shop, i: IntentId)
    requires ShopOk(s) && i in s.intents
    ensures s.intents[i].key in s.byKey && s.byKey[s.intents[i].key] == i && s.intents[i].order in s.orders
  {
    hide ItemsOk, PricesOk, NamesOk, StockOwned, L.LedgerOk, P.PoolOk;
  }

  // ---------------------------------------------------------------------------
  // Prices
  // ---------------------------------------------------------------------------

  /** The step as if the client had sent no amounts of its own. */
  function Blinded(x: Step): Step {
    match x
    case Call(q, w, ids) => Call(q.(clientUnitPrice := 0, clientTotal := 0, clientDiscount := 0), w, ids)
    case _ => x
  }

  function AllBlinded(steps: seq<Step>): seq<Step>
    decreases |steps|
  {
    if steps == [] then [] else [Blinded(steps[0])] + AllBlinded(steps[1..])
  }

  lemma BlindedCallIsTheSame(s: Shop, x: Step)
    ensures Apply(s, Blinded(x)) == Apply(s, x)
  {
    hide Opening, OnSale, TakeCoupon, TakeStock, FeeOf, FreeCoupon, Conclude;
    if x.Call? {
      var q, w, ids := x.request, x.world, x.ids;
      BlindedPartsAreTheSame(s, q, w, ids);
    }
  }

  lemma BlindedPartsAreTheSame(s: Shop, q: Request, w: World, ids: Ids)
    ensures var b := q.(clientUnitPrice := 0, clientTotal := 0, clientDiscount := 0);
            && Opening(s, b, w) == Opening(s, q, w)
            && (Opening(s, q, w).None? ==> OnSale(w))
            && (OnSale(w) ==> TakeCoupon(s.ledger, b, w, ids) == TakeCoupon(s.ledger, q, w, ids)
                              && TakeStock(s.pool, b, w, ids) == TakeStock(s.pool, q, w, ids))
  {
    hide L.Reserving, L.Reserve, L.NewReservation, P.Reserving, P.Reserve, Text, Merchandise;
    var b := q.(clientUnitPrice := 0, clientTotal := 0, clientDiscount := 0);
    if OnSale(w) {
      assert CouponRequest(b, w, ids) == CouponRequest(q, w, ids);
    }
  }

  /** No amount a client sends ever affects anything stored. */
  lemma {:induction false} ClientPricesNeverMatter(s: Shop, steps: seq<Step>)
    ensures Run(s, AllBlinded(steps)) == Run(s, steps)
    decreases |steps|
  {
    hide Apply, Blinded;
    if steps != [] {
      BlindedCallIsTheSame(s, steps[0]);
      ClientPricesNeverMatter(Apply(s, steps[0]), steps[1..]);
      assert AllBlinded(steps)[1..] == AllBlinded(steps[1..]);
    }
  }

  predicate Placed(s: Shop, q: Request, w: World, ids: Ids) {
    var e := Create(s, q, w, ids).shop;
    ids.intent in e.intents && ids.order in e.orders && ids.intent !in s.intents
  }

  predicate Replays(s: Shop, q: Request, w: World, ids: Ids)
    requires OnSale(w)
  {
    q.coupon != "" && w.coupon.Some? && L.Reserving(s.ledger, w.coupon.value, CouponRequest(q, w, ids), w.now).Replayed?
  }

  /** The stored order says what the coupon step and the fee said. */
  lemma PlacedOrderIsPriced(s: Shop, q: Request, w: World, ids: Ids)
    requires ShopOk(s) && Unused(s, ids) && Placed(s, q, w, ids)
    ensures OnSale(w) && TakeCoupon(s.ledger, q, w, ids).Taken?
    ensures var e, c := Create(s, q, w, ids).shop, TakeCoupon(s.ledger, q, w, ids);
            && FeeOf(w.fees, c.price.gross).Some?
            && e.orders[ids.order] == NewOrder(q, c.price, FeeOf(w.fees, c.price.gross).value).(payment := e.orders[ids.order].payment)
            && e.intents[ids.intent].coupon == c.hold && e.intents[ids.intent].amount == c.price.gross
  {
    hide RowsOk, PricesOk, NamesOk, StockOwned, L.LedgerOk, P.PoolOk, FeeOf, TakeStock, FreeStock, FreeCoupon,
         L.HoldUnknown, NewOrder, NewItem, TextOf,
         Opening, TakeCoupon, NewKey;
    if Opening(s, q, w).None? {
      KnownKey(s, q, w);
    }
  }

  /** As the tables guarantee. */
  predicate Catalogued(w: World) {
    w.product.Some? ==> w.product.value.price >= 0 && (w.product.value.minimum.Some? ==> w.product.value.minimum.value >= 0)
  }

  /** The price of this request: the catalogue price or the offer, less what the coupon gives on it now, plus the tip. */
  function PriceAsked(l: L.Ledger, q: Request, w: World): L.Price
    requires OnSale(w)
  {
    var m, t := Merchandise(w.product.value, q.payWhatYouWant), Tip(q.tip);
    var discount := if q.coupon == "" || w.coupon.None? || w.coupon.value !in l.coupons then 0
                    else L.Discount(l.coupons[w.coupon.value].policy.kind, l.coupons[w.coupon.value].policy.value, m);
    L.Price(m, discount, t, 0, m - discount + t)
  }

  /** A reservation of the coupon of this call stands under its key already. */
  predicate Earlier(l: L.Ledger, q: Request, w: World, r: L.ReservationId) {
    && q.coupon != "" && w.coupon.Some?
    && r in l.reservations && l.reservations[r].key == HoldKey(q.key) && l.reservations[r].coupon == w.coupon.value
  }

  predicate SameAmounts(p: L.Price, a: L.Price) {
    p.merchandise == a.merchandise && p.discount == a.discount && p.tip == a.tip
  }

  /** A placed order carries the price of its request exactly when no reservation of its coupon stood under its
      key, live or freed, or the one that did was made at that price. In every case its parts and the fee of the
      policy on the whole add up, and the price asked is not below the minimum of the product. */
  lemma OrdersCarryTheAskedPriceExactly(s: Shop, q: Request, w: World, ids: Ids)
    requires ShopOk(s) && Unused(s, ids) && Placed(s, q, w, ids) && Catalogued(w)
    ensures OnSale(w)
    ensures var o, a := Create(s, q, w, ids).shop.orders[ids.order], PriceAsked(s.ledger, q, w);
            && (o.subtotal == a.merchandise && o.discount == a.discount && o.tip == a.tip <==>
                  forall r :: Earlier(s.ledger, q, w, r) ==> SameAmounts(s.ledger.reservations[r].price, a))
            && o.gross == o.subtotal - o.discount + o.tip && FeeOf(w.fees, o.gross) == Some(Fee(o.fee, o.net))
            && 0 <= a.discount <= a.merchandise && (w.product.value.buyerPrices ==> a.merchandise >= Least(w.product.value))
  {
    hide ShopOk, Create, FeeOf, TakeCoupon, L.Discount, Merchandise, Replays, Earlier, PriceAsked, CouponTaken;
    PlacedOrderIsPriced(s, q, w, ids);
    PlacedIsNotTooLow(s, q, w, ids);
    AskedPriceIsInRange(s.ledger, q, w);
    TakenPrice(s, q, w, ids);
    if Replays(s, q, w, ids) {
      ReplaysTheEarlier(s, q, w, ids);
    } else {
      FirstPrice(s, q, w, ids);
      NothingEarlier(s, q, w, ids);
    }
  }

  lemma AskedPriceIsInRange(l: L.Ledger, q: Request, w: World)
    requires OnSale(w) && Catalogued(w)
    ensures var a := PriceAsked(l, q, w);
            a.merchandise == Merchandise(w.product.value, q.payWhatYouWant) && 0 <= a.discount <= a.merchandise
  {
    assert Merchandise(w.product.value, q.payWhatYouWant) >= 0;
    hide Merchandise, L.Discount;
  }

  lemma TakenPrice(s: Shop, q: Request, w: World, ids: Ids)
    requires ShopOk(s) && Unused(s, ids) && OnSale(w) && TakeCoupon(s.ledger, q, w, ids).Taken?
    ensures var p := TakeCoupon(s.ledger, q, w, ids).price; p.gross == p.merchandise - p.discount + p.tip
  {
    hide RowsOk, PricesOk, NamesOk, StockOwned, L.LedgerOk, P.PoolOk, TakeCoupon;
    CouponStepTakes(s.ledger, q, w, ids);
  }

  lemma RequestsUnderTheHoldKey(q: Request, w: World, ids: Ids)
    requires OnSale(w)
    ensures CouponRequest(q, w, ids).key == HoldKey(q.key)
  {
  }

  lemma ReplaysTheEarlier(s: Shop, q: Request, w: World, ids: Ids)
    requires ShopOk(s) && OnSale(w) && Replays(s, q, w, ids)
    ensures var r := L.Reserving(s.ledger, w.coupon.value, CouponRequest(q, w, ids), w.now).existing;
            && Earlier(s.ledger, q, w, r) && (forall x :: Earlier(s.ledger, q, w, x) ==> x == r)
            && TakeCoupon(s.ledger, q, w, ids) == Taken(s.ledger, Some(r), s.ledger.reservations[r].price)
  {
    hide RowsOk, PricesOk, NamesOk, StockOwned, L.LedgerOk, P.PoolOk, CouponRequest, HoldKey, L.Reserving, L.Reserve;
    var req := CouponRequest(q, w, ids);
    RequestsUnderTheHoldKey(q, w, ids);
    ReplayedRowFits(s.ledger, w.coupon.value, req, w.now);
    forall x | Earlier(s.ledger, q, w, x)
      ensures x == L.Reserving(s.ledger, w.coupon.value, req, w.now).existing
    {
      L.KeyIsTaken(s.ledger, x, req, w.now);
    }
  }

  lemma NothingEarlier(s: Shop, q: Request, w: World, ids: Ids)
    requires ShopOk(s) && OnSale(w) && !Replays(s, q, w, ids)
    ensures forall r :: !Earlier(s.ledger, q, w, r)
  {
    hide RowsOk, PricesOk, NamesOk, StockOwned, L.LedgerOk, P.PoolOk, HoldKey, L.Reserving, L.Reserve;
    forall r | Earlier(s.ledger, q, w, r)
      ensures false
    {
      L.KeyIsTaken(s.ledger, r, CouponRequest(q, w, ids), w.now);
    }
  }

  lemma PlacedIsNotTooLow(s: Shop, q: Request, w: World, ids: Ids)
    requires Placed(s, q, w, ids) && OnSale(w)
    ensures !TooLow(w.product.value, q.payWhatYouWant)
    ensures w.product.value.buyerPrices ==> Merchandise(w.product.value, q.payWhatYouWant) >= Least(w.product.value)
  {
    hide TakeCoupon, TakeStock, FeeOf, Conclude, FreeCoupon;
  }

  lemma FirstPrice(s: Shop, q: Request, w: World, ids: Ids)
    requires OnSale(w) && Catalogued(w) && TakeCoupon(s.ledger, q, w, ids).Taken? && !Replays(s, q, w, ids)
    ensures TakeCoupon(s.ledger, q, w, ids).price == PriceAsked(s.ledger, q, w)
  {
    hide L.Reserving, L.Reserve;
    assert Merchandise(w.product.value, q.payWhatYouWant) >= 0;
    assert Merchandise(w.product.value, q.payWhatYouWant) == 0 ==> w.product.value.price == 0;
  }

  /** A coupon row outlives every step, and once ended stays ended. */
  predicate RowStays(l: L.Ledger, e: L.Ledger, r: L.ReservationId)
    requires r in l.reservations
  {
    r in e.reservations && L.SameTerms(l.reservations[r], e.reservations[r])
    && (CouponLive(e.reservations[r].state) ==> CouponLive(l.reservations[r].state))
  }

  lemma GoingOnKeepsRows(l: L.Ledger, e: L.Ledger)
    requires LedgerGoesOn(l, e)
    ensures forall r :: r in l.reservations ==> RowStays(l, e, r)
  {
  }

  lemma TakingKeepsRows(l: L.Ledger, e: L.Ledger, key: string, hold: Option<L.ReservationId>, price: L.Price)
    requires CouponTaken(l, e, key, hold, price)
    ensures forall r :: r in l.reservations ==> RowStays(l, e, r)
  {
    hide HoldKey, FairPrice;
  }

  lemma RowStaysThrough(l: L.Ledger, m: L.Ledger, e: L.Ledger, r: L.ReservationId)
    requires r in l.reservations && RowStays(l, m, r) && RowStays(m, e, r)
    ensures RowStays(l, e, r)
  {
  }

  lemma CreateKeepsCouponRow(s: Shop, q: Request, w: World, ids: Ids, r: L.ReservationId)
    requires ShopOk(s) && Unused(s, ids) && r in s.ledger.reservations
    ensures RowStays(s.ledger, Create(s, q, w, ids).shop.ledger, r)
  {
    hide RowsOk, PricesOk, NamesOk, StockOwned, L.LedgerOk, P.PoolOk, Opening, TakeCoupon, TakeStock, FeeOf,
         LedgerGoesOn, CouponTaken,
         FreeStock, L.HoldUnknown, L.Release, NewOrder, NewItem, RowStays, L.SameTerms;
    LedgerStays(s.ledger);
    GoingOnKeepsRows(s.ledger, s.ledger);
    if Opening(s, q, w).None? {
      KnownKey(s, q, w);
      CouponStepTakes(s.ledger, q, w, ids);
      var c := TakeCoupon(s.ledger, q, w, ids);
      if c.Taken? {
        TakingKeepsRows(s.ledger, c.ledger, q.key, c.hold, c.price);
        EndingKeepsRow(s.ledger, c.ledger, c.hold, r);
      }
    }
  }

  lemma EndingKeepsRow(l: L.Ledger, m: L.Ledger, hold: Option<L.ReservationId>, r: L.ReservationId)
    requires L.LedgerOk(m) && r in l.reservations && RowStays(l, m, r)
    ensures RowStays(l, FreeCoupon(m, hold), r)
    ensures hold.Some? ==> RowStays(l, L.HoldUnknown(m, hold.value), r)
  {
    hide L.LedgerOk, LedgerGoesOn, L.Release, L.HoldUnknown, L.SameTerms;
    if hold.Some? {
      LedgerMoves(m, hold.value);
      GoingOnKeepsRows(m, L.Release(m, hold.value));
      GoingOnKeepsRows(m, L.HoldUnknown(m, hold.value));
      RowStaysThrough(l, m, L.Release(m, hold.value), r);
      RowStaysThrough(l, m, L.HoldUnknown(m, hold.value), r);
    }
  }

  lemma {:induction false} RunKeepsCouponRow(s: Shop, steps: seq<Step>, r: L.ReservationId)
    requires ShopOk(s) && r in s.ledger.reservations
    ensures RowStays(s.ledger, Run(s, steps).ledger, r)
    decreases |steps|
  {
    hide ShopOk, Create, L.Apply, P.Apply, LedgerGoesOn, L.SameTerms, IsHoldKey;
    LedgerStays(s.ledger);
    GoingOnKeepsRows(s.ledger, s.ledger);
    if steps != [] {
      var x := steps[0];
      StepKeepsShop(s, x);
      if x.Call? && Unused(s, x.ids) {
        CreateKeepsCouponRow(s, x.request, x.world, x.ids, r);
      } else if x.OnLedger? && !(x.coupons.DoReserve? && IsHoldKey(x.coupons.req.key)) {
        LedgerStepGoesOn(s.ledger, x.coupons);
        GoingOnKeepsRows(s.ledger, L.Apply(s.ledger, x.coupons));
      }
      RunKeepsCouponRow(Apply(s, x), steps[1..], r);
      RowStaysThrough(s.ledger, Apply(s, x).ledger, Run(s, steps).ledger, r);
    }
  }

  /** A first attempt that took the coupon and found no unit. */
  predicate OutOfStockUnderCoupon(s: Shop, q: Request, w: World, ids: Ids) {
    && Opening(s, q, w).None? && OnSale(w) && q.coupon != "" && w.coupon.Some? && w.coupon.value in s.ledger.coupons
    && L.Reserving(s.ledger, w.coupon.value, CouponRequest(q, w, ids), w.now).Granted?
    && Create(s, q, w, ids).outcome == Refused(OutOfStock)
  }

  lemma OutOfStockFreesTheCoupon(s: Shop, q: Request, w: World, ids: Ids)
    requires ShopOk(s) && Unused(s, ids) && OutOfStockUnderCoupon(s, q, w, ids)
    ensures var l := Create(s, q, w, ids).shop.ledger;
            && ids.coupon in l.reservations && !CouponLive(l.reservations[ids.coupon].state)
            && l.reservations[ids.coupon].key == HoldKey(q.key) && l.reservations[ids.coupon].coupon == w.coupon.value
            && l.reservations[ids.coupon].price == L.NewReservation(s.ledger, w.coupon.value, CouponRequest(q, w, ids), w.now).price
  {
    hide RowsOk, PricesOk, NamesOk, StockOwned, L.LedgerOk, P.PoolOk, Opening, TakeStock, FeeOf, L.Reserve, L.Release,
         L.Reserving,
         L.NewReservation, CouponRequest, HoldKey, Place, LedgerGoesOn;
    GrantedRowIsReserved(s.ledger, w.coupon.value, q, w, ids);
    ReserveKeepsLedger(s.ledger, w.coupon.value, ids.coupon, CouponRequest(q, w, ids), w.now);
    var l := L.Reserve(s.ledger, w.coupon.value, ids.coupon, CouponRequest(q, w, ids), w.now);
    FreedRowIsFree(l, ids.coupon);
    LedgerMoves(l, ids.coupon);
    GoingOnKeepsRows(l, L.Release(l, ids.coupon));
  }

  /** A later attempt under the same key and coupon replays the freed reservation: the order carries the
      first request's price, tip and discount, whatever was asked now, and no live coupon hold stands behind it. */
  lemma RetriesKeepTheEarlierPrice(s: Shop, q: Request, w: World, ids: Ids, steps: seq<Step>, q2: Request, w2: World, ids2: Ids)
    requires ShopOk(s) && Unused(s, ids) && OutOfStockUnderCoupon(s, q, w, ids)
    requires q2.key == q.key && q2.coupon != "" && w2.coupon == w.coupon
    requires var m := Run(Create(s, q, w, ids).shop, steps); Unused(m, ids2) && Placed(m, q2, w2, ids2)
    ensures var m := Run(Create(s, q, w, ids).shop, steps);
            var e := Create(m, q2, w2, ids2).shop;
            var asked := L.NewReservation(s.ledger, w.coupon.value, CouponRequest(q, w, ids), w.now).price;
            && e.orders[ids2.order].subtotal == asked.merchandise && e.orders[ids2.order].discount == asked.discount
            && e.orders[ids2.order].tip == asked.tip && e.intents[ids2.intent].coupon == Some(ids.coupon)
            && ids.coupon in e.ledger.reservations && !CouponLive(e.ledger.reservations[ids.coupon].state)
  {
    hide ShopOk, Run, Create, Opening, FeeOf, TakeStock, L.LedgerOk, L.Reserve, L.Reserving, L.NewReservation,
         CouponRequest, HoldKey;
    OutOfStockFreesTheCoupon(s, q, w, ids);
    CreateKeepsShop(s, q, w, ids);
    var first := Create(s, q, w, ids).shop;
    RunKeepsCouponRow(first, steps, ids.coupon);
    RunKeepsShop(first, steps);
    var m := Run(first, steps);
    PlacedOrderIsPriced(m, q2, w2, ids2);
    CreateKeepsCouponRow(m, q2, w2, ids2, ids.coupon);
    ReplayedStep(m, q2, w2, ids2, ids.coupon);
  }

  lemma ReplayedStep(m: Shop, q: Request, w: World, ids: Ids, r: L.ReservationId)
    requires ShopOk(m) && OnSale(w) && q.coupon != "" && w.coupon.Some?
    requires r in m.ledger.reservations && m.ledger.reservations[r].key == HoldKey(q.key)
    requires m.ledger.reservations[r].coupon == w.coupon.value
    ensures TakeCoupon(m.ledger, q, w, ids) == Taken(m.ledger, Some(r), m.ledger.reservations[r].price)
  {
    hide RowsOk, PricesOk, NamesOk, StockOwned, L.LedgerOk, P.PoolOk, HoldKey, L.Reserving, L.Reserve, L.NewReservation;
    assert CouponRequest(q, w, ids).key == HoldKey(q.key);
    L.KeyIsTaken(m.ledger, r, CouponRequest(q, w, ids), w.now);
  }

  // ---------------------------------------------------------------------------
  // Two runs
  // ---------------------------------------------------------------------------

  function CouponPolicy(basisPoints: int): L.Policy {
    L.Policy(true, None, None, 0, L.AllProducts, L.Percent, basisPoints, None, None)
  }

  /** A shop with one coupon and nothing else. */
  function CouponShop(basisPoints: int): Shop {
    Run(Empty("LIVE"), [OnLedger(L.DoCreate("c", CouponPolicy(basisPoints)))])
  }

  function Asking(product: string): Request {
    Request("s", product, "k", 0, 0, "code", "", "", "", 0, 0, 0)
  }

  function Selling(price: int, isCode: bool): World {
    World(false, Some(Product(true, "m", Some("m"), price, false, None, isCode)), Some("c"),
          FeePolicy(300, 700, 0, 0), {}, 0, PC.Created("qr"))
  }

  const IDS1 := Ids("o1", "i1", "t1", "r1", "u1")
  const IDS2 := Ids("o2", "i2", "t2", "r2", "u2")

  lemma CouponShopIs(basisPoints: int)
    requires 0 < basisPoints <= 10000
    ensures ShopOk(CouponShop(basisPoints))
    ensures CouponShop(basisPoints)
            == Empty("LIVE").(ledger := L.EMPTY.(coupons := map["c" := L.Coupon(CouponPolicy(basisPoints), 1, 0, 0)]))
  {
    hide ShopOk, Stray;
    var x := OnLedger(L.DoCreate("c", CouponPolicy(basisPoints)));
    EmptyShopIsOk("LIVE");
    StepKeepsShop(Empty("LIVE"), x);
    assert [x][1..] == [];
    assert Run(Empty("LIVE"), [x]) == Apply(Empty("LIVE"), x);
  }

  /** In the one-coupon shop the first call is granted the coupon, at its price. */
  lemma FirstCallIsGranted(basisPoints: int, product: string, price: int, isCode: bool)
    requires 0 < basisPoints <= 10000 && product != "" && price > 0
    ensures var s, q, w := CouponShop(basisPoints), Asking(product), Selling(price, isCode);
            && Opening(s, q, w).None? && OnSale(w) && Unused(s, IDS1) && "c" in s.ledger.coupons
            && L.Reserving(s.ledger, "c", CouponRequest(q, w, IDS1), w.now).Granted?
            && L.NewReservation(s.ledger, "c", CouponRequest(q, w, IDS1), w.now).price
               == L.PriceOf(CouponPolicy(basisPoints), price, 0, 0)
  {
    hide ShopOk, Stray, Run, L.PriceOf, Text;
    CouponShopIs(basisPoints);
    var s, q, w := CouponShop(basisPoints), Asking(product), Selling(price, isCode);
    hide CouponShop;
    assert !Blank(q.key) by {
      assert q.key[0] == 'k' && 'k' in q.key;
    }
    hide Blank;
    assert Opening(s, q, w).None?;
    var req := CouponRequest(q, w, IDS1);
    assert L.Merchandise(req) == price && req.tip == 0 && req.upsell == 0;
  }

  lemma AskingOpens(s: Shop, product: string, price: int)
    requires s.byKey == map[] && product != ""
    ensures var w := Selling(price, false); Opening(s, Asking(product), w).None? && OnSale(w)
    ensures Opening(s, Asking(product), OtherCoupon()).None? && OnSale(OtherCoupon())
  {
    var q := Asking(product);
    assert !Blank(q.key) by {
      assert q.key[0] == 'k' && 'k' in q.key;
    }
    hide Blank, Text;
  }

  lemma PricedCallIsPlaced(s: Shop, q: Request, w: World, ids: Ids)
    requires Opening(s, q, w).None? && OnSale(w) && TakeCoupon(s.ledger, q, w, ids).Taken? && w.answer.Created? && ids.intent !in s.intents
    requires FeeOf(w.fees, TakeCoupon(s.ledger, q, w, ids).price.gross).Some? && !w.product.value.isCode
    ensures Placed(s, q, w, ids) && Create(s, q, w, ids).outcome == Outcome.Created(ids.intent)
    ensures var e := Create(s, q, w, ids).shop;
            e.ledger == TakeCoupon(s.ledger, q, w, ids).ledger && e.byKey == s.byKey[q.key := ids.intent]
  {
    NoGrossNoFee(w.fees, TakeCoupon(s.ledger, q, w, ids).price.gross);
    hide Opening, TakeCoupon, FeeOf, FreeCoupon, NewOrder, NewItem;
    var c := TakeCoupon(s.ledger, q, w, ids);
    assert NewIntent(s.mode, q, c.price, c.hold, None, ids).order == ids.order;
    hide NewIntent;
  }

  /** A coupon for the whole price: the amount is refused and the coupon stays reserved. */
  lemma AWholePriceCouponLeaks()
    ensures Leaks(CouponShop(10000), Asking("p"), Selling(100000, false), IDS1)
  {
    FirstCallIsGranted(10000, "p", 100000, false);
    hide CouponShop, Opening, CouponRequest, L.Reserving, L.Reserve, L.NewReservation;
    assert L.PriceOf(CouponPolicy(10000), 100000, 0, 0).gross == 0;
  }

  /** The buyer tries the coupon for the whole price, and then another one under the same key. */
  function TwoCouponSteps(): seq<Step> {
    [OnLedger(L.DoCreate("c", CouponPolicy(10000))), Call(Asking("p"), Selling(100000, false), IDS1),
     OnLedger(L.DoCreate("d", CouponPolicy(5000))), Call(Asking("p"), OtherCoupon(), IDS2)]
  }

  function OtherCoupon(): World {
    Selling(100000, false).(coupon := Some("d"))
  }

  /** The leaked row is all the first call adds. */
  function LeakedLedger(): L.Ledger {
    L.Reserve(CouponShop(10000).ledger, "c", "r1", CouponRequest(Asking("p"), Selling(100000, false), IDS1), 0)
  }

  lemma LeakedRow()
    ensures var l := LeakedLedger();
            && l.reservations.Keys == {"r1"} && l.reservations["r1"].key == HoldKey("k") && l.reservations["r1"].state.Reserved?
            && l.coupons.Keys == {"c"} && l.byKey.Keys == {L.Slot("c", HoldKey("k"))} && l.byOrder.Keys == {L.Slot("c", "o1")}
  {
    var q, w := Asking("p"), Selling(100000, false);
    CouponShopIs(10000);
    FirstCallIsGranted(10000, "p", 100000, false);
    var l := CouponShop(10000).ledger;
    var req := CouponRequest(q, w, IDS1);
    assert req.key == HoldKey("k") && req.order == "o1";
    hide ShopOk, CouponShop, L.Reserving, L.PriceOf, CouponPolicy, HoldKey, CouponRequest, Opening, Run;
    assert l.reservations == map[] && l.byKey == map[] && l.byOrder == map[];
  }

  lemma LeakedShopIs()
    ensures var s := CouponShop(10000);
            && Unused(s, IDS1) && ShopOk(s)
            && Create(s, Asking("p"), Selling(100000, false), IDS1).shop == s.(ledger := LeakedLedger())
  {
    var s, q, w := CouponShop(10000), Asking("p"), Selling(100000, false);
    CouponShopIs(10000);
    assert Unused(s, IDS1);
    AWholePriceCouponLeaks();
    NoGrossNoFee(w.fees, TakeCoupon(s.ledger, q, w, IDS1).price.gross);
    hide ShopOk, CouponShop, L.Reserving, L.Reserve, L.NewReservation, HoldKey, CouponRequest, Opening, Run, FeeOf, TakeStock,
         Place, Conclude, FreeCoupon;
  }

  /** With the other coupon the call is granted once more. */
  lemma OtherCouponIsTaken(s: Shop)
    requires s.ledger == L.Create(LeakedLedger(), "d", CouponPolicy(5000)) && s.byKey == map[]
    ensures var q, w := Asking("p"), OtherCoupon(); var c := TakeCoupon(s.ledger, q, w, IDS2);
            && Opening(s, q, w).None? && OnSale(w) && c.Taken? && FeeOf(w.fees, c.price.gross) == Some(Fee(2200, 47800))
            && L.Reserving(s.ledger, "d", CouponRequest(q, w, IDS2), 0).Granted?
            && c.ledger == L.Reserve(s.ledger, "d", "r2", CouponRequest(q, w, IDS2), 0)
  {
    var q, w := Asking("p"), OtherCoupon();
    AskingOpens(s, "p", 100000);
    OtherCouponIsGranted(s.ledger);
    OtherPrice();
    assert q.coupon != "" && w.coupon == Some("d") && w.now == 0;
    hide L.Reserving, L.PriceOf, FeeOf, L.Reserve, Opening, CouponRequest, LeakedLedger, CouponPolicy, Asking, OtherCoupon, L.NewReservation;
  }

  lemma OtherPrice()
    ensures L.PriceOf(CouponPolicy(5000), 100000, 0, 0).gross == 50000 && FeeOf(OtherCoupon().fees, 50000) == Some(Fee(2200, 47800))
  {
  }

  lemma OtherCouponIsGranted(l: L.Ledger)
    requires l == L.Create(LeakedLedger(), "d", CouponPolicy(5000))
    ensures OnSale(OtherCoupon()) && "d" in l.coupons
    ensures var req := CouponRequest(Asking("p"), OtherCoupon(), IDS2);
            && L.Reserving(l, "d", req, 0).Granted?
            && L.NewReservation(l, "d", req, 0).price == L.PriceOf(CouponPolicy(5000), 100000, 0, 0)
  {
    LeakedRow();
    var req := CouponRequest(Asking("p"), OtherCoupon(), IDS2);
    assert L.Merchandise(req) == 100000 && req.tip == 0 && req.upsell == 0 && req.order == "o2";
    hide LeakedLedger, HoldKey, CouponRequest, L.PriceOf;
  }

  lemma OtherCouponIsHeld(s: Shop)
    requires s.ledger == L.Create(LeakedLedger(), "d", CouponPolicy(5000)) && s.byKey == map[] && s.intents == map[]
    ensures var e := Create(s, Asking("p"), OtherCoupon(), IDS2).shop;
            && "k" in e.byKey && LiveCouponsOf(e, "k") == {"r1", "r2"}
  {
    var q, w := Asking("p"), OtherCoupon();
    assert w.answer.Created? && !w.product.value.isCode && q.key == "k" && w.coupon == Some("d") && w.now == 0;
    hide Opening, TakeCoupon, FeeOf, LeakedLedger, HoldKey, CouponPolicy, CouponRequest, Create, Asking, OtherCoupon, L.Reserve,
         L.Reserving, LiveCouponsOf;
    OtherCouponIsTaken(s);
    PricedCallIsPlaced(s, q, w, IDS2);
    TwoRows(s.ledger, Create(s, q, w, IDS2).shop);
  }

  lemma TwoRows(l: L.Ledger, e: Shop)
    requires l == L.Create(LeakedLedger(), "d", CouponPolicy(5000))
    requires e.ledger == L.Reserve(l, "d", "r2", CouponRequest(Asking("p"), OtherCoupon(), IDS2), 0)
    ensures LiveCouponsOf(e, "k") == {"r1", "r2"}
  {
    var req := CouponRequest(Asking("p"), OtherCoupon(), IDS2);
    LeakedRow();
    OtherCouponIsGranted(l);
    assert req.key == HoldKey("k");
    hide LeakedLedger, CouponPolicy, HoldKey, CouponRequest, L.Reserving, L.PriceOf;
    assert e.ledger.reservations == l.reservations["r2" := L.NewReservation(l, "d", req, 0)];
    hide L.Reserve;
  }

  lemma StepThenRun(s: Shop, x: Step, rest: seq<Step>, key: string)
    ensures Run(s, [x] + rest) == Run(Apply(s, x), rest)
    ensures LeaksUnder(s, [x] + rest, key)
            == (if Leaky(s, x) && x.request.key == key then 1 else 0) + LeaksUnder(Apply(s, x), rest, key)
  {
    assert ([x] + rest)[1..] == rest;
    hide Apply, Leaky;
  }

  lemma FourSteps(s: Shop, x0: Step, x1: Step, x2: Step, x3: Step, key: string)
    requires !x0.Call? && !x2.Call? && x1.Call? && x1.request.key == key
    ensures var s1 := Apply(s, x0); var s3 := Apply(Apply(s1, x1), x2);
            && Run(s, [x0, x1, x2, x3]) == Apply(s3, x3)
            && (Leaky(s1, x1) && !Leaky(s3, x3) ==> LeaksUnder(s, [x0, x1, x2, x3], key) == 1)
  {
    hide Apply;
    var s1 := Apply(s, x0);
    var s2 := Apply(s1, x1);
    var s3 := Apply(s2, x2);
    assert !Leaky(s, x0) && !Leaky(s2, x2);
    assert Run(Apply(s3, x3), []) == Apply(s3, x3) && LeaksUnder(Apply(s3, x3), [], key) == 0;
    hide Leaky, Run, LeaksUnder;
    StepThenRun(s, x0, [x1, x2, x3], key);
    StepThenRun(s1, x1, [x2, x3], key);
    StepThenRun(s2, x2, [x3], key);
    StepThenRun(s3, x3, [], key);
    assert [x0] + [x1, x2, x3] == [x0, x1, x2, x3] && [x1] + [x2, x3] == [x1, x2, x3] && [x2] + [x3] == [x2, x3] && [x3] + [] == [x3];
  }

  lemma SecondCallDoesNotLeak(s: Shop)
    requires s.ledger == L.Create(LeakedLedger(), "d", CouponPolicy(5000)) && s.byKey == map[]
    ensures !Leaky(s, Call(Asking("p"), OtherCoupon(), IDS2))
  {
    OtherCouponIsTaken(s);
    hide Opening, TakeCoupon, FeeOf, LeakedLedger, CouponPolicy, CouponRequest, Asking, OtherCoupon, Unused;
  }

  /** One checkout, one leak, two live coupon holds: the bound per key is met. */
  lemma TwoCouponsUnderOneKey()
    ensures var s := Run(Empty("LIVE"), TwoCouponSteps());
            && |IntentsOf(s, "k")| == 1 && |LiveCouponsOf(s, "k")| == 2 == 1 + LeaksUnder(Empty("LIVE"), TwoCouponSteps(), "k")
  {
    hide Run, LeaksUnder, IntentsOf, LiveCouponsOf, TwoCouponSteps, Empty;
    TwoCouponRun();
    OneCheckoutPerKey("LIVE", TwoCouponSteps(), "k");
  }

  lemma TwoCouponRun()
    ensures var s := Run(Empty("LIVE"), TwoCouponSteps());
            "k" in s.byKey && LiveCouponsOf(s, "k") == {"r1", "r2"} && LeaksUnder(Empty("LIVE"), TwoCouponSteps(), "k") == 1
  {
    var x0, x1 := OnLedger(L.DoCreate("c", CouponPolicy(10000))), Call(Asking("p"), Selling(100000, false), IDS1);
    var x2, x3 := OnLedger(L.DoCreate("d", CouponPolicy(5000))), Call(Asking("p"), OtherCoupon(), IDS2);
    assert TwoCouponSteps() == [x0, x1, x2, x3] && Asking("p").key == "k";
    hide Run, LeaksUnder, Apply, Leaky, LiveCouponsOf, TwoCouponSteps, Empty, Asking, OtherCoupon, Selling, CouponPolicy;
    FourSteps(Empty("LIVE"), x0, x1, x2, x3, "k");
    TwoCouponShops();
  }

  lemma TwoCouponShops()
    ensures var s1 := Apply(Empty("LIVE"), OnLedger(L.DoCreate("c", CouponPolicy(10000))));
            var first, second := Call(Asking("p"), Selling(100000, false), IDS1), Call(Asking("p"), OtherCoupon(), IDS2);
            var s3 := Apply(Apply(s1, first), OnLedger(L.DoCreate("d", CouponPolicy(5000))));
            && Leaky(s1, first) && !Leaky(s3, second)
            && "k" in Apply(s3, second).byKey && LiveCouponsOf(Apply(s3, second), "k") == {"r1", "r2"}
  {
    var x0 := OnLedger(L.DoCreate("c", CouponPolicy(10000)));
    assert CouponShop(10000) == Apply(Empty("LIVE"), x0) by {
      assert [x0][1..] == [];
    }
    SecondShopIs();
    AWholePriceCouponLeaks();
    hide Run, CouponShop, LeakedLedger, Create, Leaks, LiveCouponsOf, L.Create, Empty, Asking, Selling, OtherCoupon, CouponPolicy;
    var s3 := CouponShop(10000).(ledger := L.Create(LeakedLedger(), "d", CouponPolicy(5000)));
    OtherCouponIsHeld(s3);
    SecondCallDoesNotLeak(s3);
  }

  lemma SecondShopIs()
    ensures var s, first := CouponShop(10000), Call(Asking("p"), Selling(100000, false), IDS1);
            var s3 := s.(ledger := L.Create(LeakedLedger(), "d", CouponPolicy(5000)));
            && Apply(Apply(s, first), OnLedger(L.DoCreate("d", CouponPolicy(5000)))) == s3
            && Unused(s, IDS1) && Unused(s3, IDS2) && s3.byKey == map[] && s3.intents == map[]
  {
    CouponShopIs(10000);
    FirstShopIs();
    LeakedRow();
    CreatedCouponChangesNoRow(LeakedLedger());
    hide Run, ShopOk, CouponShop, LeakedLedger, Create, L.Create, Asking, Selling, CouponPolicy, IsHoldKey;
    assert !L.DoCreate("d", CouponPolicy(5000)).DoReserve?;
  }

  lemma FirstShopIs()
    ensures var s, first := CouponShop(10000), Call(Asking("p"), Selling(100000, false), IDS1);
            Unused(s, IDS1) && Apply(s, first) == s.(ledger := LeakedLedger())
  {
    LeakedShopIs();
    hide ShopOk, CouponShop, LeakedLedger, Create, Asking, Selling, Unused;
  }

  lemma CreatedCouponChangesNoRow(l: L.Ledger)
    ensures L.Create(l, "d", CouponPolicy(5000)).reservations == l.reservations
  {
  }

  /** The reservation rows of a call that was granted a coupon and then freed it. */
  lemma FreedRows(l: L.Ledger, c: L.CouponId, r: L.ReservationId, req: L.Request, now: int)
    requires r !in l.reservations && c in l.coupons && L.Reserving(l, c, req, now).Granted?
    ensures FreeCoupon(L.Reserve(l, c, r, req, now), Some(r)).reservations.Keys == l.reservations.Keys + {r}
  {
    hide L.Reserving, L.NewReservation;
    var m := L.Reserve(l, c, r, req, now);
    assert m.reservations == l.reservations[r := L.NewReservation(l, c, req, now)];
    L.StepKeepsIndexes(m, L.DoRelease(r));
    hide L.Reserve, L.Release;
  }

  lemma SoldOutFirst()
    ensures var s, q, w := CouponShop(5000), Asking("sold out"), Selling(100000, true);
            && OutOfStockUnderCoupon(s, q, w, IDS1)
            && Create(s, q, w, IDS1).shop
               == s.(ledger := FreeCoupon(L.Reserve(s.ledger, "c", "r1", CouponRequest(q, w, IDS1), w.now), Some("r1")))
  {
    var s, q, w := CouponShop(5000), Asking("sold out"), Selling(100000, true);
    HalfPriceFee(w);
    hide CouponShop, Opening, CouponRequest, L.Reserving, L.Reserve, L.NewReservation, L.PriceOf, FeeOf, FreeCoupon,
         Place, Conclude, ShopOk, Stray, CouponPolicy;
    FirstCallIsGranted(5000, "sold out", 100000, true);
    CouponShopIs(5000);
    assert s.pool == P.EMPTY;
    assert TakeCoupon(s.ledger, q, w, IDS1).Taken? && TakeCoupon(s.ledger, q, w, IDS1).price.gross == 50000;
    hide TakeCoupon;
    assert TakeStock(s.pool, q, w, IDS1).NoStock?;
  }

  lemma HalfPriceFee(w: World)
    requires w.fees == Selling(100000, true).fees
    ensures L.PriceOf(CouponPolicy(5000), 100000, 0, 0).gross == 50000 && FeeOf(w.fees, 50000) == Some(Fee(2200, 47800))
  {
  }

  lemma SoldOutReservation()
    ensures var s, q, w := CouponShop(5000), Asking("sold out"), Selling(100000, true);
            Create(s, q, w, IDS1).shop.ledger.reservations.Keys == {"r1"}
  {
    var s, q, w := CouponShop(5000), Asking("sold out"), Selling(100000, true);
    hide CouponShop, OutOfStockUnderCoupon, L.NewReservation, CouponRequest, Create, FreeCoupon, L.Reserve,
         L.Reserving, Opening, Asking, Selling, OnSale, Unused, ShopOk;
    CouponShopIs(5000);
    assert s.ledger.reservations == map[] && s.ledger.coupons.Keys == {"c"};
    SoldOutFirst();
    FirstCallIsGranted(5000, "sold out", 100000, true);
    FreedRows(s.ledger, "c", "r1", CouponRequest(q, w, IDS1), w.now);
  }

  /** The shop after that call: its rows are as before. */
  lemma RowsAfterSoldOut()
    ensures var s := Create(CouponShop(5000), Asking("sold out"), Selling(100000, true), IDS1).shop;
            Unused(s, IDS2) && s.byKey == map[] && s.intents == map[]
  {
    var s0, q, w := CouponShop(5000), Asking("sold out"), Selling(100000, true);
    hide ShopOk, Stray, OutOfStockUnderCoupon, Create, FreeCoupon, L.Reserve, Asking, Selling, CouponRequest,
         Run, L.Reserving, L.NewReservation;
    CouponShopIs(5000);
    hide CouponShop;
    assert s0.byKey == map[] && s0.intents == map[] && s0.orders == map[] && s0.items == map[] && s0.pool.reservations == map[];
    SoldOutFirst();
    SoldOutReservation();
  }

  lemma ShopAfterSoldOut()
    ensures var s0, q, w := CouponShop(5000), Asking("sold out"), Selling(100000, true);
            ShopOk(s0) && ShopOk(Create(s0, q, w, IDS1).shop) && Unused(s0, IDS1)
  {
    var s0, q, w := CouponShop(5000), Asking("sold out"), Selling(100000, true);
    CouponShopIs(5000);
    assert Unused(s0, IDS1);
    hide ShopOk, Stray, CouponShop, Create, Asking, Selling, Leaks, Unused;
    CreateKeepsShop(s0, q, w, IDS1);
  }

  /** And its one reservation is freed at the first price. */
  lemma HoldAfterSoldOut()
    ensures var s0, q, w := CouponShop(5000), Asking("sold out"), Selling(100000, true);
            var l := Create(s0, q, w, IDS1).shop.ledger;
            && OnSale(w) && "c" in s0.ledger.coupons
            && "r1" in l.reservations && l.reservations["r1"].key == HoldKey("k") && l.reservations["r1"].coupon == "c"
            && l.reservations["r1"].price == L.NewReservation(s0.ledger, "c", CouponRequest(q, w, IDS1), w.now).price
               == L.Price(100000, 50000, 0, 0, 50000)
  {
    var s0, q, w := CouponShop(5000), Asking("sold out"), Selling(100000, true);
    assert L.PriceOf(CouponPolicy(5000), 100000, 0, 0) == L.Price(100000, 50000, 0, 0, 50000);
    assert q.key == "k" && w.coupon == Some("c");
    hide ShopOk, CouponShop, OutOfStockUnderCoupon, L.NewReservation, L.PriceOf, CouponRequest, Create, L.Reserving,
         Opening, HoldKey,
         Asking, Selling, OnSale, Unused;
    ShopAfterSoldOut();
    SoldOutFirst();
    FirstCallIsGranted(5000, "sold out", 100000, true);
    OutOfStockFreesTheCoupon(s0, q, w, IDS1);
  }

  /** A code product that is sold out, then a product at nine times the price under the same key and
      coupon: the order is created at the first price, and its coupon is no longer held. */
  lemma ADearerProductAtTheEarlierPrice()
    ensures var s := Create(CouponShop(5000), Asking("sold out"), Selling(100000, true), IDS1).shop;
            var e := Create(s, Asking("dearer"), Selling(900000, false), IDS2);
            && e.outcome == Outcome.Created("i2") && "o2" in e.shop.orders && "i2" in e.shop.intents
            && e.shop.orders["o2"].subtotal == 100000 && e.shop.orders["o2"].discount == 50000
            && e.shop.intents["i2"].coupon == Some("r1")
            && "r1" in e.shop.ledger.reservations && !CouponLive(e.shop.ledger.reservations["r1"].state)
  {
    var s0, q, w := CouponShop(5000), Asking("sold out"), Selling(100000, true);
    var q2, w2 := Asking("dearer"), Selling(900000, false);
    assert FeeOf(w2.fees, 50000) == Some(Fee(2200, 47800));
    assert q2.key == q.key == "k" && q2.coupon != "";
    assert w2.coupon == w.coupon == Some("c") && w2.answer.Created? && !w2.product.value.isCode;
    hide ShopOk, CouponShop, OutOfStockUnderCoupon, L.NewReservation, CouponRequest, Create, Opening, TakeCoupon,
         FeeOf, HoldKey, Unused, Placed, Run,
         Asking, Selling, OnSale;
    ShopAfterSoldOut();
    RowsAfterSoldOut();
    SoldOutFirst();
    HoldAfterSoldOut();
    var s := Create(s0, q, w, IDS1).shop;
    AskingOpens(s, "dearer", 900000);
    ReplayedStep(s, q2, w2, IDS2, "r1");
    PricedCallIsPlaced(s, q2, w2, IDS2);
    RetryAtOnce(s0, q, w, IDS1, q2, w2, IDS2);
  }

  lemma RetryAtOnce(s: Shop, q: Request, w: World, ids: Ids, q2: Request, w2: World, ids2: Ids)
    requires ShopOk(s) && Unused(s, ids) && OutOfStockUnderCoupon(s, q, w, ids)
    requires q2.key == q.key && q2.coupon != "" && w2.coupon == w.coupon
    requires var m := Create(s, q, w, ids).shop; Unused(m, ids2) && Placed(m, q2, w2, ids2)
    ensures var e := Create(Create(s, q, w, ids).shop, q2, w2, ids2).shop;
            var asked := L.NewReservation(s.ledger, w.coupon.value, CouponRequest(q, w, ids), w.now).price;
            && ids2.order in e.orders && ids2.intent in e.intents
            && e.orders[ids2.order].subtotal == asked.merchandise && e.orders[ids2.order].discount == asked.discount
            && e.intents[ids2.intent].coupon == Some(ids.coupon)
            && ids.coupon in e.ledger.reservations && !CouponLive(e.ledger.reservations[ids.coupon].state)
  {
    var m := Create(s, q, w, ids).shop;
    assert Run(m, []) == m;
    hide ShopOk, Create, Run, Unused, L.NewReservation, CouponRequest, Opening;
    PlacedHasItsRows(m, q2, w2, ids2);
    RetriesKeepTheEarlierPrice(s, q, w, ids, [], q2, w2, ids2);
  }

  lemma PlacedHasItsRows(s: Shop, q: Request, w: World, ids: Ids)
    requires Placed(s, q, w, ids)
    ensures ids.intent in Create(s, q, w, ids).shop.intents && ids.order in Create(s, q, w, ids).shop.orders
  {
    hide Create;
  }

  // ---------------------------------------------------------------------------
  // The payment protocol
  // ---------------------------------------------------------------------------

  /** The create call of the payment protocol on the case this call places. */
  function CreateCallOf(o: Order, terms: PC.Terms, coupon: bool, stock: bool, answer: PC.Answer): PC.Case {
    PC.RunCase(PC.NewCase(terms, PC.Order(PC.OrderPending, o.gross, o.fee, o.net), coupon, stock),
               [PC.Learn(0, answer)] + PC.Proceeding(0, PC.MOST))
  }

  function StockStateOf(p: P.Pool, r: P.ReservationId): Option<StockHold> {
    if r in p.reservations then Some(p.reservations[r].state) else None
  }

  lemma CreateCallEnds(o: Order, terms: PC.Terms, coupon: bool, stock: bool, answer: PC.Answer)
    requires PC.Admissible(PC.CreateCall, answer)
    ensures var k := CreateCallOf(o, terms, coupon, stock, answer);
            && k.status == (if answer.Created? then PC.Pending else if answer.TimedOut? then PC.UnknownOutcome else PC.Failed)
            && k.unknownOp == (if answer.TimedOut? then Some(PC.CreateCall) else None)
            && k.providerRef == (if answer.Created? then Some(answer.ref) else None)
            && k.order.payment == (if answer.Refused? then PC.OrderFailed else PC.OrderPending)
            && k.coupon == (if !coupon then None else Some(if answer.Created? then Reserved else if answer.TimedOut? then HeldUnknown else Released))
            && k.stock == (if !stock then None else Some(if answer.Refused? then Returned else Claimed))
  {
    var c := PC.NewCase(terms, PC.Order(PC.OrderPending, o.gross, o.fee, o.net), coupon, stock);
    var d := PC.LearnAnswer(c, 0, answer);
    var k := d.calls[0];
    assert k.answer == Some(answer) && k.done == 0 && k.kind.CreateCall?;
    PC.FourWritesAtMost(PC.Conclude(k));
    PC.CarryIs(d, PC.Conclude(k));
    assert PC.WritesOf(k)[0..] == PC.WritesOf(k);
    hide PC.RunCase, PC.FreshMoves, PC.Proceeding, PC.DoWrites, PC.Writes;
    PC.RunCaseSplits(c, [PC.Learn(0, answer)], PC.Proceeding(0, PC.MOST));
    PC.RunCaseOne(c, PC.Learn(0, answer));
    PC.ProceedingCarries(d, 0, PC.MOST);
  }

  /** The two hold states after the provider's answer. */
  lemma ConclusionMovesHolds(m: Shop, i: IntentId, answer: PC.Answer)
    requires i in m.intents && m.intents[i].order in m.orders && L.LedgerOk(m.ledger) && P.PoolOk(m.pool)
    requires var pi := m.intents[i];
             && (pi.coupon.Some? ==> pi.coupon.value in m.ledger.reservations && m.ledger.reservations[pi.coupon.value].state.Reserved?)
             && (pi.stock.Some? ==> pi.stock.value in m.pool.reservations && m.pool.reservations[pi.stock.value].state.Claimed?)
    requires PC.Admissible(PC.CreateCall, answer)
    ensures var pi, e := m.intents[i], Conclude(m, i, answer).shop;
            && (pi.coupon.Some? ==>
                  L.StateOf(e.ledger, pi.coupon.value)
                  == Some(if answer.Created? then Reserved else if answer.TimedOut? then HeldUnknown else Released))
            && (pi.stock.Some? ==> StockStateOf(e.pool, pi.stock.value) == Some(if answer.Refused? then Returned else Claimed))
  {
    hide L.LedgerOk, P.PoolOk, L.Release, L.HoldUnknown, P.Release;
    var pi := m.intents[i];
    if pi.coupon.Some? {
      L.LedgerMovesHolds(m.ledger, pi.coupon.value);
    }
    if pi.stock.Some? {
      P.PoolReturnsHolds(m.pool, pi.stock.value);
    }
  }

  /** A first attempt leaves its rows, its coupon and its unit as the payment protocol says a create
      call with this answer leaves them. */
  lemma CheckoutIsTheCreateCall(s: Shop, q: Request, w: World, ids: Ids, terms: PC.Terms)
    requires ShopOk(s) && Unused(s, ids) && Placed(s, q, w, ids) && !Replays(s, q, w, ids) && PC.Admissible(PC.CreateCall, w.answer)
    ensures var e := Create(s, q, w, ids).shop;
            var pi, o := e.intents[ids.intent], e.orders[ids.order];
            var k := CreateCallOf(o, terms, pi.coupon.Some?, pi.stock.Some?, w.answer);
            && pi.status == k.status && pi.unknownOp == k.unknownOp && pi.providerRef == k.providerRef && o.payment == k.order.payment
            && (pi.coupon.Some? ==> L.StateOf(e.ledger, pi.coupon.value) == k.coupon)
            && (pi.stock.Some? ==> StockStateOf(e.pool, pi.stock.value) == k.stock)
  {
    hide RowsOk, PricesOk, NamesOk, StockOwned, L.LedgerOk, P.PoolOk, Opening, TakeCoupon, TakeStock, FeeOf,
         CouponTaken, StockTaken,
         L.StateOf, StockStateOf, CreateCallOf, NewOrder, NewItem, FreeCoupon, FreeStock, L.HoldUnknown, TextOf;
    PlacedOrderIsPriced(s, q, w, ids);
    KnownKeyOfPlaced(s, q, w, ids);
    var c, k := TakeCoupon(s.ledger, q, w, ids), TakeStock(s.pool, q, w, ids);
    CouponStepTakes(s.ledger, q, w, ids);
    StockStepTakes(s, q, w, ids);
    FreshCouponIsReserved(s.ledger, q, w, ids);
    FreshStockIsClaimed(s.pool, k, q.key);
    var m := Place(s.(ledger := c.ledger, pool := k.pool), q, c.price, FeeOf(w.fees, c.price.gross).value, c.hold, k.hold, ids);
    ConclusionMovesHolds(m, ids.intent, w.answer);
    var e := Create(s, q, w, ids).shop;
    CreateCallEnds(e.orders[ids.order], terms, c.hold.Some?, k.hold.Some?, w.answer);
    NewOrderIsPending(q, c.price, FeeOf(w.fees, c.price.gross).value);
  }

  lemma NewOrderIsPending(q: Request, price: L.Price, fee: Fee)
    ensures NewOrder(q, price, fee).payment == PC.OrderPending
  {
  }

  lemma KnownKeyOfPlaced(s: Shop, q: Request, w: World, ids: Ids)
    requires ShopOk(s) && Unused(s, ids) && Placed(s, q, w, ids)
    ensures Opening(s, q, w).None? && NewKey(s, q.key) && TakeStock(s.pool, q, w, ids).Claim?
    ensures Create(s, q, w, ids).shop == Conclude(Place(s.(ledger := TakeCoupon(s.ledger, q, w, ids).ledger, pool := TakeStock(s.pool, q, w, ids).pool),
              q, TakeCoupon(s.ledger, q, w, ids).price, FeeOf(w.fees, TakeCoupon(s.ledger, q, w, ids).price.gross).value,
              TakeCoupon(s.ledger, q, w, ids).hold, TakeStock(s.pool, q, w, ids).hold, ids), ids.intent, w.answer).shop
  {
    hide RowsOk, PricesOk, NamesOk, StockOwned, L.LedgerOk, P.PoolOk, TakeCoupon, TakeStock, FeeOf, Place, Conclude,
         FreeCoupon;
    PlacedOrderIsPriced(s, q, w, ids);
    if Opening(s, q, w).None? {
      KnownKey(s, q, w);
    }
  }

  lemma FreshCouponIsReserved(l: L.Ledger, q: Request, w: World, ids: Ids)
    requires OnSale(w) && ids.coupon !in l.reservations && TakeCoupon(l, q, w, ids).Taken?
    requires !(q.coupon != "" && w.coupon.Some? && L.Reserving(l, w.coupon.value, CouponRequest(q, w, ids), w.now).Replayed?)
    ensures var c := TakeCoupon(l, q, w, ids);
            c.hold.Some? ==> c.hold.value in c.ledger.reservations && c.ledger.reservations[c.hold.value].state.Reserved?
  {
    hide L.Reserving, L.Reserve, CouponRequest, L.NewReservation;
    if q.coupon != "" && w.coupon.Some? && w.coupon.value in l.coupons && L.Reserving(l, w.coupon.value, CouponRequest(q, w, ids), w.now).Granted? {
      GrantedRowIsReserved(l, w.coupon.value, q, w, ids);
    }
  }

  lemma FreshStockIsClaimed(p: P.Pool, k: StockStep, key: string)
    requires k.Claim? && StockTaken(p, k.pool, key, k.hold)
    ensures k.hold.Some? ==> k.hold.value in k.pool.reservations && k.pool.reservations[k.hold.value].state.Claimed?
  {
  }
}
