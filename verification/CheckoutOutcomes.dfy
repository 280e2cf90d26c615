/**
 What one checkout call answers and stores, in terms of the request, the catalogue,
 the coupon ledger, the stock pool and the answer of the provider.
 */
module CheckoutOutcomes {
  import opened Options
  import opened Holds
  import opened RequestText
  import opened Checkout
  import L = CouponLedger
  import P = StockPool
  import PC = PaymentCase
  import C = CouponRuns
  import S = StockRuns

  // ---------------------------------------------------------------------------
  // The opening of a call
  // ---------------------------------------------------------------------------

  predicate Malformed(q: Request) {
    q.store == "" || q.product == "" || forall k :: 0 <= k < |q.key| ==> q.key[k] == ' ' || q.key[k] == '\t' || q.key[k] == '\r' || q.key[k] == '\n'
  }

  /** The intent of this key. */
  predicate Answers(s: Shop, key: string, i: IntentId) {
    i in s.intents && s.intents[i].key == key
  }

  ghost predicate Answered(s: Shop, key: string) {
    exists i :: Answers(s, key, i)
  }

  predicate ForSale(w: World) {
    match w.product
    case None => false
    case Some(o) => o.published && o.storeMerchant.Some? && o.storeMerchant.value == o.merchant
  }

  /** What a buyer has to offer at least. */
  function Floor(o: Product): int {
    match o.minimum
    case Some(m) => m
    case None => o.price
  }

  predicate OffersTooLittle(o: Product, offer: int) {
    o.buyerPrices && offer > 0 && offer < Floor(o)
  }

  /** The call gets as far as its coupon. */
  ghost predicate Passes(s: Shop, q: Request, w: World) {
    && !Malformed(q) && !w.disabled && !Answered(s, q.key) && ForSale(w)
    && !OffersTooLittle(w.product.value, q.payWhatYouWant)
  }

  lemma BlankIsSpace(key: string)
    ensures Blank(key) <==> forall k :: 0 <= k < |key| ==> key[k] == ' ' || key[k] == '\t' || key[k] == '\r' || key[k] == '\n'
  {
    forall k | 0 <= k < |key|
      ensures key[k] in " \t\n\r" <==> key[k] == ' ' || key[k] == '\t' || key[k] == '\r' || key[k] == '\n'
    {
    }
    if forall k :: 0 <= k < |key| ==> key[k] == ' ' || key[k] == '\t' || key[k] == '\r' || key[k] == '\n' {
      forall c | c in key
        ensures c in " \t\n\r"
      {
        var k :| 0 <= k < |key| && key[k] == c;
      }
    }
  }

  lemma KeysAnswer(s: Shop, key: string)
    requires KeysOk(s)
    ensures key in s.byKey <==> Answered(s, key)
    ensures forall i :: Answers(s, key, i) <==> key in s.byKey && s.byKey[key] == i
  {
    if key in s.byKey {
      assert Answers(s, key, s.byKey[key]);
    }
  }

  lemma OpeningExactly(s: Shop, q: Request, w: World)
    requires KeysOk(s)
    ensures var o := Opening(s, q, w);
      && (o == Some(Refused(InvalidRequest)) <==> Malformed(q))
      && (o == Some(Refused(Disabled)) <==> !Malformed(q) && w.disabled)
      && (o == Some(Refused(ProductUnavailable)) <==> !Malformed(q) && !w.disabled && !Answered(s, q.key) && !ForSale(w))
      && (o == Some(Refused(BelowMinimum)) <==>
            !Malformed(q) && !w.disabled && !Answered(s, q.key) && ForSale(w) && OffersTooLittle(w.product.value, q.payWhatYouWant))
      && (forall i :: o == Some(Replay(i)) <==>
            !Malformed(q) && !w.disabled && Answers(s, q.key, i) && s.intents[i].text == TextOf(s.mode, q))
      && (o == Some(Refused(IdempotencyConflict)) <==>
            !Malformed(q) && !w.disabled && exists i :: Answers(s, q.key, i) && s.intents[i].text != TextOf(s.mode, q))
      && (o == None <==> Passes(s, q, w))
  {
    BlankIsSpace(q.key);
    KeysAnswer(s, q.key);
    hide Blank, TextOf, Answers;
    if q.key in s.byKey {
      assert Answers(s, q.key, s.byKey[q.key]);
      KeyedIsStored(s, q.key);
    }
    hide KeysOk, Answered;
  }

  lemma KeyedIsStored(s: Shop, key: string)
    requires KeysOk(s) && key in s.byKey
    ensures s.byKey[key] in s.intents
  {
  }

  /** Two requests of one mode are told apart exactly by what they ask: store, product, offer, tip, code and e-mail; one of
      them without bars in its texts. What the client says about prices makes no difference. */
  lemma TextsTellRequestsApart(mode: string, q: Request, r: Request)
    requires Plain(q.store) && Plain(q.product) && Plain(q.coupon) && Plain(q.email)
    ensures TextOf(mode, q) == TextOf(mode, r) <==>
              && q.store == r.store && q.product == r.product && q.payWhatYouWant == r.payWhatYouWant && q.tip == r.tip
              && q.coupon == r.coupon && q.email == r.email
  {
    var f := Fields(q.store, q.product, mode, q.payWhatYouWant, q.tip, q.coupon, q.email);
    var g := Fields(r.store, r.product, mode, r.payWhatYouWant, r.tip, r.coupon, r.email);
    if TextOf(mode, q) == TextOf(mode, r) {
      hide Text;
      PlainTextsAreUnique(f, g);
    }
  }

  // ---------------------------------------------------------------------------
  // The price
  // ---------------------------------------------------------------------------

  /** The catalogue price; where the buyer may set it, exactly the offer, and without one no less than the minimum. */
  predicate AskedFor(o: Product, offer: int, m: int) {
    && (!o.buyerPrices ==> m == o.price)
    && (o.buyerPrices && offer > 0 ==> m == offer)
    && (o.buyerPrices && offer <= 0 ==> m == if Floor(o) > o.price then Floor(o) else o.price)
  }

  predicate BuyerIs(q: Request, buyer: string) {
    && (q.identity != "" ==> buyer == q.identity)
    && (q.identity == "" && q.user != "" ==> buyer == "user:" + q.user)
    && (q.identity == "" && q.user == "" && q.email != "" ==> buyer == "email:" + q.email)
    && (q.identity == "" && q.user == "" && q.email == "" ==> buyer == "")
  }

  /** What a call asks of the coupon ledger. */
  predicate CouponRequestIs(q: Request, o: Product, ids: Ids, req: L.Request) {
    && req.product == q.product && req.order == ids.order && req.key == "checkout:" + q.key && BuyerIs(q, req.buyer)
    && req.listPrice == o.price && AskedFor(o, q.payWhatYouWant, req.merchandise) && req.tip == C.AtLeastZero(q.tip)
    && req.upsell == 0 && req.ttl == 1800
  }

  lemma CouponRequestsAsk(q: Request, w: World, ids: Ids)
    requires OnSale(w)
    ensures CouponRequestIs(q, w.product.value, ids, CouponRequest(q, w, ids))
  {
  }

  /** Without a code: the goods, no discount and the tip. */
  predicate PlainPrice(q: Request, o: Product, x: L.Price) {
    && AskedFor(o, q.payWhatYouWant, x.merchandise) && x.discount == 0 && x.tip == C.AtLeastZero(q.tip) && x.upsell == 0
    && x.gross == x.merchandise + x.tip
  }

  /** The coupon step: nothing without a code; with one, the reservation that stands under the key with its old price, or a
      new one if the coupon is on offer and a use is left, or a refusal. */
  lemma CouponStepExactly(l: L.Ledger, q: Request, w: World, ids: Ids)
    requires L.LedgerOk(l) && C.PoliciesSound(l) && OnSale(w) && ids.coupon !in l.reservations
    ensures var c := TakeCoupon(l, q, w, ids);
      && (q.coupon == "" ==> c.Taken? && c.ledger == l && c.hold == None && PlainPrice(q, w.product.value, c.price))
      && (q.coupon != "" && w.coupon.None? ==> c == NotTaken(CouponUnavailable))
    ensures q.coupon != "" && w.coupon.Some? ==>
      var c := TakeCoupon(l, q, w, ids); var id := w.coupon.value; var req := CouponRequest(q, w, ids); var m := L.DoReserve(id, ids.coupon, req, w.now);
      && (C.KeyUsed(l, id, req.key) ==>
            && c.Taken? && c.ledger == l && c.hold.Some? && c.hold.value in l.reservations && l.reservations[c.hold.value].coupon == id
            && l.reservations[c.hold.value].key == req.key && c.price == l.reservations[c.hold.value].price)
      && (!C.KeyUsed(l, id, req.key) && !C.Offered(l, id, req, w.now) ==> c == NotTaken(CouponUnavailable))
      && (!C.KeyUsed(l, id, req.key) && C.Offered(l, id, req, w.now) && !C.Free(l, id, req) ==> c == NotTaken(CouponLimit))
      && (C.Stores(l, m, ids.coupon) ==>
            && c.Taken? && c.ledger == L.Apply(l, m) && c.hold == Some(ids.coupon) && ids.coupon in c.ledger.reservations
            && c.price == c.ledger.reservations[ids.coupon].price && C.PriceIs(c.price, l.coupons[id].policy, req))
  {
    if q.coupon != "" && w.coupon.Some? {
      var id, req := w.coupon.value, CouponRequest(q, w, ids);
      C.AnswersInLedger(l, id, req, w.now);
      C.StoresInLedger(l, L.DoReserve(id, ids.coupon, req, w.now), ids.coupon);
      L.GrantedIsStored(l, id, req, w.now);
      if L.Reserving(l, id, req, w.now).Granted? {
        L.GrantedRow(l, id, ids.coupon, req, w.now);
      }
      hide CouponRequest, C.PriceIs;
    }
    hide L.LedgerOk, C.PoliciesSound, C.KeyUsed, C.Offered, C.Free, L.Reserving, L.Reserve, L.NewReservation;
  }

  // ---------------------------------------------------------------------------
  // The fee
  // ---------------------------------------------------------------------------

  /** A positive gross within the bounds of the policy. */
  predicate Chargeable(p: FeePolicy, gross: int) {
    && gross > 0 && p.percentBps >= 0 && p.fixed >= 0
    && (p.minimum > 0 ==> gross >= p.minimum) && (p.maximum > 0 ==> gross <= p.maximum)
    && gross * p.percentBps + 5000 <= MAX_INT64
  }

  /** The percentage to the nearest rupiah, halves upwards, plus the fixed part; the rest is the seller's. */
  predicate FeeIs(p: FeePolicy, gross: int, f: Fee) {
    && gross * p.percentBps - 5000 < (f.total - p.fixed) * 10000 <= gross * p.percentBps + 5000
    && f.net == gross - f.total
  }

  /** A fee is charged exactly when the policy allows the gross, the fee fits in 64 bits and leaves the seller something;
      and it is that fee. */
  lemma FeesExactly(p: FeePolicy, gross: int, f: Fee)
    ensures FeeOf(p, gross) == Some(f) <==> Chargeable(p, gross) && FeeIs(p, gross, f) && f.total <= MAX_INT64 && f.net > 0
  {
    if Chargeable(p, gross) {
      var part := (gross * p.percentBps + 5000) / 10000;
      assert part * 10000 <= gross * p.percentBps + 5000 < part * 10000 + 10000;
      assert gross * p.percentBps >= 0;
    }
  }

  // ---------------------------------------------------------------------------
  // The unit
  // ---------------------------------------------------------------------------

  /** The stock step: nothing unless the product is sold by unit; then the unit of an earlier reservation under the key, or a
      unit on sale, or a refusal. */
  lemma StockStepExactly(p: P.Pool, q: Request, w: World, ids: Ids)
    requires P.PoolOk(p) && S.Lined(p) && OnSale(w) && ids.stock !in p.reservations
    ensures var k := TakeStock(p, q, w, ids); var key := "checkout:" + q.key; var some := exists u :: S.OnSale(p, q.product, w.locked, u);
      && (!w.product.value.isCode ==> k == Claim(p, None))
      && (w.product.value.isCode && S.KeyUsed(p, q.product, key) ==>
            && k.Claim? && k.pool == p && k.hold.Some? && k.hold.value in p.reservations
            && p.reservations[k.hold.value].product == q.product && p.reservations[k.hold.value].key == key)
      && (w.product.value.isCode && !S.KeyUsed(p, q.product, key) && !some ==> k == NoStock)
      && (w.product.value.isCode && !S.KeyUsed(p, q.product, key) && some ==>
            && k.Claim? && k.hold == Some(ids.stock) && ids.stock in k.pool.reservations
            && Claimed(p, k.pool, ids, q.product, key, w.locked))
  {
    S.GrantedInLine(p, q.product, HoldKey(q.key), w.locked);
    S.GrantedTakesTheUnit(p, ids.stock, q.product, HoldKey(q.key), Some(ids.order), w.locked);
    assert HoldKey(q.key) == "checkout:" + q.key;
    hide P.PoolOk, S.Lined, P.Reserving, P.Reserve, S.OnSale, S.KeyUsed, HoldKey;
  }

  /** The new reservation of a unit that was on sale. */
  ghost predicate Claimed(p: P.Pool, e: P.Pool, ids: Ids, product: string, key: string, locked: set<P.UnitId>) {
    && ids.stock in e.reservations && var row := e.reservations[ids.stock];
    && row == P.Reservation(row.unit, product, Some(ids.order), key, StockHold.Claimed) && S.OnSale(p, product, locked, row.unit)
  }

  // ---------------------------------------------------------------------------
  // The whole call
  // ---------------------------------------------------------------------------

  /** What every run of calls and of moves of the ledger and the pool keeps. */
  ghost predicate Kept(s: Shop) {
    ShopOk(s) && C.PoliciesSound(s.ledger) && S.Lined(s.pool)
  }

  /** The price a placed call would carry. */
  ghost predicate PriceFor(s: Shop, q: Request, w: World, ids: Ids, x: L.Price)
    requires OnSale(w)
  {
    if q.coupon == "" then PlainPrice(q, w.product.value, x)
    else
      && w.coupon.Some?
      && var id := w.coupon.value; var req := CouponRequest(q, w, ids);
         || StandsAt(s.ledger, id, req.key, x)
         || (C.Stores(s.ledger, L.DoReserve(id, ids.coupon, req, w.now), ids.coupon) && C.PriceIs(x, s.ledger.coupons[id].policy, req))
  }

  /** A reservation of the coupon under the key has this price. */
  ghost predicate StandsAt(l: L.Ledger, c: L.CouponId, key: string, x: L.Price) {
    exists r :: r in l.reservations && l.reservations[r].coupon == c && l.reservations[r].key == key && l.reservations[r].price == x
  }

  /** The unit the call needs, if it needs one. */
  ghost predicate UnitFor(s: Shop, q: Request, w: World)
    requires OnSale(w)
  {
    w.product.value.isCode ==> exists u :: S.OnSale(s.pool, q.product, w.locked, u)
  }

  lemma SalesAgree(w: World)
    ensures ForSale(w) <==> OnSale(w)
  {
  }

  lemma PlainPriceIsOne(q: Request, o: Product, x: L.Price, y: L.Price)
    requires PlainPrice(q, o, x) && PlainPrice(q, o, y)
    ensures x == y
  {
  }

  lemma PriceIsOne(x: L.Price, y: L.Price, p: L.Policy, req: L.Request)
    requires C.PriceIs(x, p, req) && C.PriceIs(y, p, req)
    ensures x == y
  {
    hide C.Goods;
    var share := x.merchandise * p.value;
    assert y.merchandise * p.value == share;
  }

  lemma RowOfKey(l: L.Ledger, c: L.CouponId, key: string, r: L.ReservationId)
    requires L.LedgerOk(l) && r in l.reservations && l.reservations[r].coupon == c && l.reservations[r].key == key
    ensures C.KeyUsed(l, c, key)
    ensures forall x :: x in l.reservations && l.reservations[x].coupon == c && l.reservations[x].key == key ==> x == r
  {
    hide L.CountersOk, L.RedemptionsOk;
    var index := L.Slot(c, key);
    assert index in l.byKey && l.byKey[index] == r;
  }

  lemma StandingPriceIsOne(l: L.Ledger, c: L.CouponId, key: string, r: L.ReservationId, x: L.Price)
    requires L.LedgerOk(l) && r in l.reservations && l.reservations[r].coupon == c && l.reservations[r].key == key
    ensures StandsAt(l, c, key, x) <==> x == l.reservations[r].price
  {
    RowOfKey(l, c, key, r);
    hide L.LedgerOk, C.KeyUsed;
  }

  lemma NothingStands(l: L.Ledger, c: L.CouponId, key: string, x: L.Price)
    requires !C.KeyUsed(l, c, key)
    ensures !StandsAt(l, c, key, x)
  {
  }

  lemma StoredKeysAreNew(l: L.Ledger, m: L.Step, r: L.ReservationId)
    ensures C.Stores(l, m, r) ==> m.DoReserve? && !C.KeyUsed(l, m.coupon, m.req.key) && C.Offered(l, m.coupon, m.req, m.now)
    ensures (m.DoReserve? && m.id == r && r !in l.reservations && !C.KeyUsed(l, m.coupon, m.req.key) && C.Offered(l, m.coupon, m.req, m.now)
             && !C.Stores(l, m, r)) ==> m.coupon in l.coupons && !C.Free(l, m.coupon, m.req)
  {
    hide C.KeyUsed, C.Free;
  }

  /** The coupon step brings a price exactly when there is one for the call, and then that one. */
  lemma TakenPriceIs(s: Shop, q: Request, w: World, ids: Ids, x: L.Price)
    requires Kept(s) && OnSale(w) && ids.coupon !in s.ledger.reservations
    ensures var c := TakeCoupon(s.ledger, q, w, ids);
            PriceFor(s, q, w, ids, x) <==> c.Taken? && x == c.price
  {
    KeptLedger(s);
    hide Kept, TakeCoupon, C.PoliciesSound, L.LedgerOk, CouponRequest, PlainPrice, StandsAt, C.PriceIs, C.KeyUsed, C.Free, C.Offered, C.Stores;
    var l, c := s.ledger, TakeCoupon(s.ledger, q, w, ids);
    CouponStepExactly(l, q, w, ids);
    if q.coupon == "" {
      if PlainPrice(q, w.product.value, x) {
        PlainPriceIsOne(q, w.product.value, x, c.price);
      }
    } else if w.coupon.Some? {
      var id, req := w.coupon.value, CouponRequest(q, w, ids);
      var m := L.DoReserve(id, ids.coupon, req, w.now);
      StoredKeysAreNew(l, m, ids.coupon);
      if C.KeyUsed(l, id, req.key) {
        StandingPriceIsOne(l, id, req.key, c.hold.value, x);
      } else {
        NothingStands(l, id, req.key, x);
        if C.Stores(l, m, ids.coupon) && C.PriceIs(x, l.coupons[id].policy, req) {
          PriceIsOne(x, c.price, l.coupons[id].policy, req);
        }
      }
    }
  }

  lemma KeptLedger(s: Shop)
    requires Kept(s)
    ensures L.LedgerOk(s.ledger) && C.PoliciesSound(s.ledger) && P.PoolOk(s.pool) && S.Lined(s.pool) && KeysOk(s) && ShopOk(s)
  {
    hide L.LedgerOk, C.PoliciesSound, P.PoolOk, S.Lined, KeysOk;
  }

  /** The stock step finds a unit exactly when the product needs none or has one on sale. */
  lemma UnitIsFound(s: Shop, q: Request, w: World, ids: Ids)
    requires Kept(s) && OnSale(w) && ids.stock !in s.pool.reservations && !Answered(s, q.key)
    ensures TakeStock(s.pool, q, w, ids).Claim? <==> UnitFor(s, q, w)
    ensures TakeStock(s.pool, q, w, ids).Claim? ==> (TakeStock(s.pool, q, w, ids).hold.Some? <==> w.product.value.isCode)
  {
    KeptLedger(s);
    KeysAnswer(s, q.key);
    NoUnitIsHeld(s, q);
    hide Kept, TakeStock, P.PoolOk, S.Lined, S.OnSale, S.KeyUsed, Answered;
    StockStepExactly(s.pool, q, w, ids);
  }

  lemma NoUnitIsHeld(s: Shop, q: Request)
    requires ShopOk(s) && !Answered(s, q.key)
    ensures !S.KeyUsed(s.pool, q.product, "checkout:" + q.key)
  {
    HoldKeyOpens(q.key);
    KeysAnswer(s, q.key);
    hide RowsOk, PricesOk, NamesOk, L.LedgerOk, P.PoolOk;
  }

  predicate Charged(p: FeePolicy, gross: int, f: Fee) {
    Chargeable(p, gross) && FeeIs(p, gross, f) && f.total <= MAX_INT64 && f.net > 0
  }

  /** The price of the call and the fee on it. */
  ghost predicate Sale(s: Shop, q: Request, w: World, ids: Ids, x: L.Price, f: Fee)
    requires OnSale(w)
  {
    PriceFor(s, q, w, ids, x) && Charged(w.fees, x.gross, f)
  }

  /** The stages a call gets through. */
  lemma StagesExactly(s: Shop, q: Request, w: World, ids: Ids)
    requires Kept(s) && Unused(s, ids)
    ensures Passes(s, q, w) <==> Opening(s, q, w).None?
    ensures Passes(s, q, w) ==> OnSale(w)
    ensures Passes(s, q, w) ==>
      var c := TakeCoupon(s.ledger, q, w, ids);
      && (forall x :: PriceFor(s, q, w, ids, x) <==> c.Taken? && x == c.price)
      && (c.Taken? ==> forall f :: FeeOf(w.fees, c.price.gross) == Some(f) <==> Charged(w.fees, c.price.gross, f))
      && (TakeStock(s.pool, q, w, ids).Claim? <==> UnitFor(s, q, w))
  {
    KeptLedger(s);
    OpeningExactly(s, q, w);
    SalesAgree(w);
    hide Kept, Passes, Opening, TakeCoupon, TakeStock, FeeOf, PriceFor, Charged, UnitFor, KeysOk;
    if Passes(s, q, w) {
      PassingIsNew(s, q, w);
      UnitIsFound(s, q, w, ids);
      var c := TakeCoupon(s.ledger, q, w, ids);
      forall x
        ensures PriceFor(s, q, w, ids, x) <==> c.Taken? && x == c.price
      {
        TakenPriceIs(s, q, w, ids, x);
      }
      if c.Taken? {
        forall f
          ensures FeeOf(w.fees, c.price.gross) == Some(f) <==> Charged(w.fees, c.price.gross, f)
        {
          ChargedExactly(w.fees, c.price.gross, f);
        }
      }
    }
  }

  lemma ChargedExactly(p: FeePolicy, gross: int, f: Fee)
    ensures FeeOf(p, gross) == Some(f) <==> Charged(p, gross, f)
  {
    hide FeeOf, Chargeable, FeeIs;
    FeesExactly(p, gross, f);
  }

  lemma PassingIsNew(s: Shop, q: Request, w: World)
    requires Passes(s, q, w)
    ensures !Answered(s, q.key) && ForSale(w)
  {
  }

  /** A call stores its intent exactly when it passes the opening, there is a price for it, the fee on that price may be
      charged, and the unit it needs is on sale. */
  lemma CallsPlaceExactly(s: Shop, q: Request, w: World, ids: Ids)
    requires Kept(s) && Unused(s, ids)
    ensures Placed(s, q, w, ids) <==> Passes(s, q, w) && UnitFor(s, q, w) && exists x, f :: Sale(s, q, w, ids, x, f)
  {
    StagesExactly(s, q, w, ids);
    PlacedUnfolds(s, q, w, ids);
    hide Kept, Passes, Opening, TakeCoupon, TakeStock, FeeOf, PriceFor, Charged, UnitFor, Placed;
    if Passes(s, q, w) {
      var c := TakeCoupon(s.ledger, q, w, ids);
      if c.Taken? && FeeOf(w.fees, c.price.gross).Some? {
        assert Sale(s, q, w, ids, c.price, FeeOf(w.fees, c.price.gross).value);
      }
    }
  }

  /** The stages as the call runs through them. */
  lemma PlacedUnfolds(s: Shop, q: Request, w: World, ids: Ids)
    requires ShopOk(s) && Unused(s, ids)
    ensures Placed(s, q, w, ids) ==> Opening(s, q, w).None?
    ensures Opening(s, q, w).None? ==> OnSale(w)
    ensures Opening(s, q, w).None? ==>
      var c := TakeCoupon(s.ledger, q, w, ids);
      (Placed(s, q, w, ids) <==> c.Taken? && FeeOf(w.fees, c.price.gross).Some? && TakeStock(s.pool, q, w, ids).Claim?)
  {
    hide RowsOk, PricesOk, NamesOk, StockOwned, L.LedgerOk, P.PoolOk, TakeCoupon, TakeStock, Opening, TextOf, NewOrder, NewItem,
         FreeStock, FreeCoupon, L.HoldUnknown, FeeOf;
    PassedIsNew(s, q, w);
    if Opening(s, q, w).None? {
      var c := TakeCoupon(s.ledger, q, w, ids);
      if c.Taken? {
        NoFeeOnNothing(w.fees, c.price.gross);
      }
    }
  }

  lemma NoFeeOnNothing(p: FeePolicy, gross: int)
    ensures gross <= 0 ==> FeeOf(p, gross).None?
  {
  }

  lemma PassedIsNew(s: Shop, q: Request, w: World)
    ensures Opening(s, q, w).None? ==> OnSale(w)
  {
  }

  // ---------------------------------------------------------------------------
  // What a placed call stores
  // ---------------------------------------------------------------------------

  /** Created and unanswered payments are open for the buyer; a refused one has failed. */
  predicate RowsAnswer(a: PC.Answer, pi: Intent, o: Order) {
    match a
    case Created(r) => pi.status == PC.Pending && pi.unknownOp == None && pi.providerRef == Some(r) && o.payment == PC.OrderPending
    case TimedOut =>
      pi.status == PC.UnknownOutcome && pi.unknownOp == Some(PC.CreateCall) && pi.providerRef == None && o.payment == PC.OrderPending
    case _ => pi.status == PC.Failed && pi.unknownOp == None && pi.providerRef == None && o.payment == PC.OrderFailed
  }

  /** The rows of a placed call and no others: an order at the price of the call with the fee on it, an intent for its gross
      with the text of the request, an item of the product. */
  ghost predicate RowsPlaced(s: Shop, e: Shop, q: Request, w: World, ids: Ids)
    requires OnSale(w)
  {
    && ids.order in e.orders && ids.intent in e.intents && ids.item in e.items
    && (var o, pi := e.orders[ids.order], e.intents[ids.intent];
        && o.key == q.key && Sale(s, q, w, ids, L.Price(o.subtotal, o.discount, o.tip, 0, o.gross), Fee(o.fee, o.net))
        && pi.key == q.key && pi.text == TextOf(s.mode, q) && pi.order == ids.order && pi.amount == o.gross
        && (pi.coupon.Some? <==> q.coupon != "") && (pi.stock.Some? <==> w.product.value.isCode)
        && RowsAnswer(w.answer, pi, o)
        && e.items[ids.item] == Item(ids.order, q.product, o.subtotal, o.discount, o.subtotal - o.discount, pi.stock)
        && e.orders == s.orders[ids.order := o] && e.intents == s.intents[ids.intent := pi]
        && e.items == s.items[ids.item := e.items[ids.item]] && e.byKey == s.byKey[q.key := ids.intent] && e.mode == s.mode)
  }

  lemma PlacedRowsAre(s: Shop, q: Request, w: World, ids: Ids)
    requires Kept(s) && Unused(s, ids) && Placed(s, q, w, ids)
    ensures OnSale(w) && RowsPlaced(s, Create(s, q, w, ids).shop, q, w, ids)
    ensures Create(s, q, w, ids).outcome == if w.answer.Created? || w.answer.TimedOut? then Created(ids.intent) else Refused(ProviderRejected)
  {
    StagesExactly(s, q, w, ids);
    KeptLedger(s);
    PlacedUnfolds(s, q, w, ids);
    PassedIsNew(s, q, w);
    hide Kept, Passes, Opening, TakeCoupon, TakeStock, FeeOf, PriceFor, Charged, UnitFor, Placed, ShopOk, RowsPlaced;
    var c, k := TakeCoupon(s.ledger, q, w, ids), TakeStock(s.pool, q, w, ids);
    var fee := FeeOf(w.fees, c.price.gross).value;
    NoFeeOnNothing(w.fees, c.price.gross);
    HoldsAsAsked(s, q, w, ids);
    CreateConcludes(s, q, w, ids);
    SaleHasNoUpsell(s, q, w, ids, c.price, fee);
    ConcludedRows(s, c.ledger, k.pool, q, w, c.price, fee, c.hold, k.hold, ids);
  }

  lemma HoldsAsAsked(s: Shop, q: Request, w: World, ids: Ids)
    requires Kept(s) && Unused(s, ids) && Passes(s, q, w) && OnSale(w)
    ensures TakeCoupon(s.ledger, q, w, ids).Taken? ==> (TakeCoupon(s.ledger, q, w, ids).hold.Some? <==> q.coupon != "")
    ensures TakeStock(s.pool, q, w, ids).Claim? ==> (TakeStock(s.pool, q, w, ids).hold.Some? <==> w.product.value.isCode)
  {
    PassingIsNew(s, q, w);
    hide Kept, Passes;
    UnitIsFound(s, q, w, ids);
    hide TakeStock, L.Reserving, L.Reserve, L.NewReservation, CouponRequest;
  }

  lemma CreateConcludes(s: Shop, q: Request, w: World, ids: Ids)
    requires Opening(s, q, w).None? && OnSale(w) && TakeCoupon(s.ledger, q, w, ids).Taken? && TakeStock(s.pool, q, w, ids).Claim?
    requires var c := TakeCoupon(s.ledger, q, w, ids); FeeOf(w.fees, c.price.gross).Some?
    ensures var c, k := TakeCoupon(s.ledger, q, w, ids), TakeStock(s.pool, q, w, ids);
            Create(s, q, w, ids) == Conclude(Place(s.(ledger := c.ledger, pool := k.pool), q, c.price, FeeOf(w.fees, c.price.gross).value,
                                                   c.hold, k.hold, ids), ids.intent, w.answer)
  {
    NoFeeOnNothing(w.fees, TakeCoupon(s.ledger, q, w, ids).price.gross);
    hide Opening, TakeCoupon, TakeStock, FeeOf, Conclude;
  }

  /** A price of a call has no upsell: new ones are asked without, and those that stand were. */
  lemma SaleHasNoUpsell(s: Shop, q: Request, w: World, ids: Ids, x: L.Price, f: Fee)
    requires Kept(s) && OnSale(w) && Sale(s, q, w, ids, x, f)
    ensures x == L.Price(x.merchandise, x.discount, x.tip, 0, x.gross)
  {
    if q.coupon != "" {
      CouponRequestsAsk(q, w, ids);
      var id, req := w.coupon.value, CouponRequest(q, w, ids);
      hide CouponRequest, C.Stores, Charged;
      if StandsAt(s.ledger, id, req.key, x) {
        StandingPricesAreFair(s, id, q.key, x);
      }
    }
  }

  lemma StandingPricesAreFair(s: Shop, c: L.CouponId, key: string, x: L.Price)
    requires Kept(s) && StandsAt(s.ledger, c, "checkout:" + key, x)
    ensures x.upsell == 0
  {
    var r :| r in s.ledger.reservations && s.ledger.reservations[r].coupon == c && s.ledger.reservations[r].key == "checkout:" + key
             && s.ledger.reservations[r].price == x;
    HoldKeyOpens(key);
    hide RowsOk, NamesOk, StockOwned, L.LedgerOk, P.PoolOk, C.PoliciesSound, S.Lined;
  }

  lemma ConcludedRows(s: Shop, l: L.Ledger, p: P.Pool, q: Request, w: World, x: L.Price, f: Fee,
                      coupon: Option<L.ReservationId>, stock: Option<P.ReservationId>, ids: Ids)
    requires OnSale(w) && Sale(s, q, w, ids, x, f) && x == L.Price(x.merchandise, x.discount, x.tip, 0, x.gross)
    requires (coupon.Some? <==> q.coupon != "") && (stock.Some? <==> w.product.value.isCode)
    ensures var r := Conclude(Place(s.(ledger := l, pool := p), q, x, f, coupon, stock, ids), ids.intent, w.answer);
            && RowsPlaced(s, r.shop, q, w, ids)
            && r.outcome == if w.answer.Created? || w.answer.TimedOut? then Created(ids.intent) else Refused(ProviderRejected)
  {
    hide Sale, TextOf, Conclude, RowsAnswer;
    var m := Place(s.(ledger := l, pool := p), q, x, f, coupon, stock, ids);
    assert f == Fee(f.total, f.net);
    ConcludeWrites(m, ids.intent, w.answer);
  }

  /** The rows of the intent and its order but for what the answer of the provider decides. */
  lemma ConcludeWrites(m: Shop, i: IntentId, a: PC.Answer)
    requires i in m.intents && m.intents[i].order in m.orders && m.intents[i].unknownOp == None && m.intents[i].providerRef == None
    requires m.orders[m.intents[i].order].payment == PC.OrderPending
    ensures var r := Conclude(m, i, a); var e := r.shop; var id := m.intents[i].order;
      && i in e.intents && id in e.orders && RowsAnswer(a, e.intents[i], e.orders[id])
      && e.intents == m.intents[i := m.intents[i].(status := e.intents[i].status, unknownOp := e.intents[i].unknownOp, providerRef := e.intents[i].providerRef)]
      && e.orders == m.orders[id := m.orders[id].(payment := e.orders[id].payment)]
      && e.items == m.items && e.byKey == m.byKey && e.mode == m.mode
      && r.outcome == if a.Created? || a.TimedOut? then Created(i) else Refused(ProviderRejected)
  {
    hide FreeStock, FreeCoupon, L.HoldUnknown;
    match a
    case Created(r) => assert m.orders == m.orders[m.intents[i].order := m.orders[m.intents[i].order]];
    case TimedOut => assert m.orders == m.orders[m.intents[i].order := m.orders[m.intents[i].order]];
    case _ =>
  }

  // ---------------------------------------------------------------------------
  // The price of a first attempt
  // ---------------------------------------------------------------------------

  /** No reservation of the coupon of this call stands under its key yet. */
  ghost predicate FirstAttempt(s: Shop, q: Request, w: World) {
    q.coupon != "" && w.coupon.Some? ==> !C.KeyUsed(s.ledger, w.coupon.value, "checkout:" + q.key)
  }

  /** The coupon of the call gives this discount on the goods. */
  predicate CouponGives(s: Shop, w: World, goods: nat, discount: int) {
    && w.coupon.Some? && w.coupon.value in s.ledger.coupons
    && C.DiscountIs(s.ledger.coupons[w.coupon.value].policy, goods, discount)
  }

  /** What the buyer pays: without buyer prices the catalogue price, with an offer exactly the offer, without one the larger of
      the catalogue price and the minimum; less the discount of the coupon on it, plus the tip, if it is one; the fee is that
      of the policy on the whole. */
  lemma OrdersCostWhatWasAsked(s: Shop, q: Request, w: World, ids: Ids)
    requires Kept(s) && Unused(s, ids) && Placed(s, q, w, ids) && FirstAttempt(s, q, w) && Catalogued(w)
    ensures w.product.Some?
    ensures var p := w.product.value; var o := Create(s, q, w, ids).shop.orders[ids.order]; var offer := q.payWhatYouWant;
      && (!p.buyerPrices ==> o.subtotal == p.price)
      && (p.buyerPrices && offer > 0 ==> o.subtotal == offer && offer >= Floor(p))
      && (p.buyerPrices && offer <= 0 ==> o.subtotal == if Floor(p) > p.price then Floor(p) else p.price)
      && o.tip == (if q.tip > 0 then q.tip else 0)
      && (q.coupon == "" ==> o.discount == 0)
      && (q.coupon != "" ==> CouponGives(s, w, C.AtLeastZero(o.subtotal), o.discount))
      && o.gross == o.subtotal - o.discount + o.tip && Charged(w.fees, o.gross, Fee(o.fee, o.net))
  {
    PlacedRowsAre(s, q, w, ids);
    CallsPlaceExactly(s, q, w, ids);
    var o := Create(s, q, w, ids).shop.orders[ids.order];
    var x, f := L.Price(o.subtotal, o.discount, o.tip, 0, o.gross), Fee(o.fee, o.net);
    SoldToAPassingCall(s, q, w, ids, x, f);
    hide Kept, Placed, Create, Passes, Charged, Sale, C.DiscountIs, RowsPlaced;
    FirstPriceIsAsked(s, q, w, ids, x);
  }

  lemma SoldToAPassingCall(s: Shop, q: Request, w: World, ids: Ids, x: L.Price, f: Fee)
    requires Passes(s, q, w) && OnSale(w) && Sale(s, q, w, ids, x, f)
    ensures PriceFor(s, q, w, ids, x) && Charged(w.fees, x.gross, f) && !OffersTooLittle(w.product.value, q.payWhatYouWant)
  {
    hide PriceFor, Charged;
  }

  lemma FirstPriceIsAsked(s: Shop, q: Request, w: World, ids: Ids, x: L.Price)
    requires OnSale(w) && FirstAttempt(s, q, w) && Catalogued(w) && PriceFor(s, q, w, ids, x)
    ensures AskedFor(w.product.value, q.payWhatYouWant, x.merchandise) && x.tip == C.AtLeastZero(q.tip)
    ensures q.coupon == "" ==> x.discount == 0
    ensures q.coupon != "" ==> CouponGives(s, w, C.AtLeastZero(x.merchandise), x.discount)
    ensures x.gross == x.merchandise - x.discount + x.tip + x.upsell
  {
    if q.coupon != "" {
      CouponRequestsAsk(q, w, ids);
      var id, req := w.coupon.value, CouponRequest(q, w, ids);
      NothingStands(s.ledger, id, req.key, x);
      StoredKeysAreNew(s.ledger, L.DoReserve(id, ids.coupon, req, w.now), ids.coupon);
      hide CouponRequest, C.Stores, C.KeyUsed, C.DiscountIs, StandsAt;
    }
  }

  // ---------------------------------------------------------------------------
  // Refusals
  // ---------------------------------------------------------------------------

  /** The reservation a call asks the coupon ledger for. */
  function CouponMove(q: Request, w: World, ids: Ids): (m: L.Step)
    requires OnSale(w)
    ensures m.DoReserve?
  {
    L.DoReserve(if w.coupon.Some? then w.coupon.value else "", ids.coupon, CouponRequest(q, w, ids), w.now)
  }

  lemma CouponRefusals(s: Shop, q: Request, w: World, ids: Ids)
    requires Kept(s) && Unused(s, ids) && OnSale(w)
    ensures var c := TakeCoupon(s.ledger, q, w, ids); var m := CouponMove(q, w, ids); var l := s.ledger;
      && (c == NotTaken(CouponUnavailable) <==>
            q.coupon != "" && (w.coupon.None? || (!C.KeyUsed(l, m.coupon, m.req.key) && !C.Offered(l, m.coupon, m.req, m.now))))
      && (c == NotTaken(CouponLimit) <==>
            && q.coupon != "" && w.coupon.Some? && !C.KeyUsed(l, m.coupon, m.req.key) && C.Offered(l, m.coupon, m.req, m.now)
            && !C.Free(l, m.coupon, m.req))
      && (c.NotTaken? ==> c.why.CouponUnavailable? || c.why.CouponLimit?)
  {
    KeptLedger(s);
    CouponStepExactly(s.ledger, q, w, ids);
    StoredKeysAreNew(s.ledger, CouponMove(q, w, ids), ids.coupon);
    hide Kept, TakeCoupon, C.PoliciesSound, L.LedgerOk, CouponRequest, PlainPrice, C.PriceIs, C.KeyUsed, C.Free, C.Offered, C.Stores;
  }

  /** The refusal of a call that passed its opening and stored nothing. */
  lemma RefusalIs(s: Shop, q: Request, w: World, ids: Ids)
    requires Opening(s, q, w).None? && OnSale(w)
    requires var c := TakeCoupon(s.ledger, q, w, ids);
             !(c.Taken? && FeeOf(w.fees, c.price.gross).Some? && TakeStock(s.pool, q, w, ids).Claim?)
    ensures var r := Create(s, q, w, ids); var c := TakeCoupon(s.ledger, q, w, ids);
      && r.outcome == Refused(if c.NotTaken? then c.why
                              else if c.price.gross <= 0 then InvalidAmount
                              else if FeeOf(w.fees, c.price.gross).None? then FeeRefused
                              else OutOfStock)
      && SameRows(s, r.shop)
  {
    NoFeeOnNothing(w.fees, if TakeCoupon(s.ledger, q, w, ids).Taken? then TakeCoupon(s.ledger, q, w, ids).price.gross else 0);
    hide Opening, TakeCoupon, TakeStock, FeeOf, Conclude, FreeCoupon;
  }

  predicate SameRows(s: Shop, e: Shop) {
    e.orders == s.orders && e.items == s.items && e.intents == s.intents && e.byKey == s.byKey && e.mode == s.mode && e.pool == s.pool
  }

  /** Why a call that passed its opening is refused before it stores anything: its coupon is not on offer or used up, the price
      leaves nothing to pay, no fee may be charged on it, or there is no unit; each exactly when it is the first of these. */
  lemma RefusedExactly(s: Shop, q: Request, w: World, ids: Ids)
    requires Kept(s) && Unused(s, ids) && Passes(s, q, w)
    ensures OnSale(w)
    ensures var r := Create(s, q, w, ids); var coupon := q.coupon != "" && w.coupon.Some?; var m := CouponMove(q, w, ids);
      && (r.outcome == Refused(CouponUnavailable) <==>
            q.coupon != "" && (w.coupon.None? || (!C.KeyUsed(s.ledger, m.coupon, m.req.key) && !C.Offered(s.ledger, m.coupon, m.req, m.now))))
      && (r.outcome == Refused(CouponLimit) <==>
            coupon && !C.KeyUsed(s.ledger, m.coupon, m.req.key) && C.Offered(s.ledger, m.coupon, m.req, m.now) && !C.Free(s.ledger, m.coupon, m.req))
      && (r.outcome == Refused(InvalidAmount) <==> exists x :: PriceFor(s, q, w, ids, x) && x.gross <= 0)
      && (r.outcome == Refused(FeeRefused) <==> exists x :: PriceFor(s, q, w, ids, x) && x.gross > 0 && forall f :: !Charged(w.fees, x.gross, f))
      && (r.outcome == Refused(OutOfStock) <==> !UnitFor(s, q, w) && exists x, f :: Sale(s, q, w, ids, x, f))
      && (r.outcome == Refused(ProviderRejected) <==> Placed(s, q, w, ids) && !w.answer.Created? && !w.answer.TimedOut?)
      && (r.outcome.Created? <==> Placed(s, q, w, ids) && (w.answer.Created? || w.answer.TimedOut?))
  {
    hide Kept, Passes, Opening, TakeCoupon, TakeStock, FeeOf, PriceFor, Charged, UnitFor, Placed, ShopOk, RowsPlaced, Create,
         C.KeyUsed, C.Offered, C.Free, CouponMove, L.LedgerOk, P.PoolOk, C.PoliciesSound, S.Lined, KeysOk;
    StagesExactly(s, q, w, ids);
    KeptLedger(s);
    PlacedUnfolds(s, q, w, ids);
    CouponRefusals(s, q, w, ids);
    if Placed(s, q, w, ids) {
      PlacedRowsAre(s, q, w, ids);
    } else {
      RefusalIs(s, q, w, ids);
    }
    var c := TakeCoupon(s.ledger, q, w, ids);
    if c.Taken? {
      assert PriceFor(s, q, w, ids, c.price);
      NoFeeOnNothing(w.fees, c.price.gross);
      if FeeOf(w.fees, c.price.gross).Some? {
        assert Sale(s, q, w, ids, c.price, FeeOf(w.fees, c.price.gross).value);
        assert Charged(w.fees, c.price.gross, FeeOf(w.fees, c.price.gross).value);
      }
    }
  }

  /** A call that stores no intent leaves every row and the pool as they were. */
  lemma RefusedCallsStoreNothing(s: Shop, q: Request, w: World, ids: Ids)
    requires Kept(s) && Unused(s, ids) && !Placed(s, q, w, ids)
    ensures SameRows(s, Create(s, q, w, ids).shop)
    ensures !Passes(s, q, w) ==> Opening(s, q, w).Some? && Create(s, q, w, ids) == Result(s, Opening(s, q, w).value)
  {
    hide Kept, Passes, Opening, TakeCoupon, TakeStock, FeeOf, Placed, ShopOk, L.LedgerOk, P.PoolOk, C.PoliciesSound, S.Lined, KeysOk,
         PriceFor, Charged, UnitFor, Conclude;
    StagesExactly(s, q, w, ids);
    KeptLedger(s);
    PlacedUnfolds(s, q, w, ids);
    if Opening(s, q, w).None? {
      RefusalIs(s, q, w, ids);
    }
  }

  // ---------------------------------------------------------------------------
  // Every run
  // ---------------------------------------------------------------------------

  lemma StepKeepsKept(s: Shop, x: Step)
    requires Kept(s)
    ensures Kept(Apply(s, x))
  {
    hide ShopOk, C.PoliciesSound, S.Lined;
    StepKeepsShop(s, x);
    match x
    case Call(q, w, ids) =>
      if Unused(s, ids) {
        CreateKeepsPolicies(s, q, w, ids);
        CreateKeepsLine(s, q, w, ids);
      }
    case OnLedger(m) => C.StepKeepsPolicies(s.ledger, m);
    case OnPool(m) => S.StepLines(s.pool, m);
  }

  lemma {:induction false} RunKeepsKept(s: Shop, steps: seq<Step>)
    requires Kept(s)
    ensures Kept(Run(s, steps))
    decreases |steps|
  {
    if steps != [] {
      StepKeepsKept(s, steps[0]);
      hide Apply, Kept;
      RunKeepsKept(Apply(s, steps[0]), steps[1..]);
    }
  }

  lemma EmptyIsKept(mode: string)
    ensures Kept(Empty(mode))
  {
    EmptyShopIsOk(mode);
    hide ShopOk;
  }

  lemma CreateKeepsPolicies(s: Shop, q: Request, w: World, ids: Ids)
    requires C.PoliciesSound(s.ledger)
    ensures C.PoliciesSound(Create(s, q, w, ids).shop.ledger)
  {
    hide C.PoliciesSound, Opening, TakeCoupon, TakeStock, FeeOf, L.HoldUnknown, L.Release, FreeStock, NewOrder, NewItem, TextOf;
    PassedIsNew(s, q, w);
    if Opening(s, q, w).None? {
      var c := TakeCoupon(s.ledger, q, w, ids);
      if c.Taken? {
        TakingKeepsPolicies(s.ledger, q, w, ids);
        EndingKeepsPolicies(c.ledger, c.hold);
      }
    }
  }

  lemma TakingKeepsPolicies(l: L.Ledger, q: Request, w: World, ids: Ids)
    requires C.PoliciesSound(l) && OnSale(w) && TakeCoupon(l, q, w, ids).Taken?
    ensures C.PoliciesSound(TakeCoupon(l, q, w, ids).ledger)
  {
    hide C.PoliciesSound, L.Reserve, L.Reserving, CouponRequest, L.NewReservation;
    if w.coupon.Some? {
      C.StepKeepsPolicies(l, L.DoReserve(w.coupon.value, ids.coupon, CouponRequest(q, w, ids), w.now));
    }
  }

  lemma EndingKeepsPolicies(l: L.Ledger, hold: Option<L.ReservationId>)
    requires C.PoliciesSound(l)
    ensures C.PoliciesSound(FreeCoupon(l, hold))
    ensures hold.Some? ==> C.PoliciesSound(L.HoldUnknown(l, hold.value))
  {
    hide C.PoliciesSound, L.HoldUnknown, L.Release;
    if hold.Some? {
      C.StepKeepsPolicies(l, L.DoRelease(hold.value));
      C.StepKeepsPolicies(l, L.DoHold(hold.value));
    }
  }

  lemma CreateKeepsLine(s: Shop, q: Request, w: World, ids: Ids)
    requires S.Lined(s.pool)
    ensures S.Lined(Create(s, q, w, ids).shop.pool)
  {
    hide S.Lined, Opening, TakeCoupon, TakeStock, FeeOf, L.HoldUnknown, L.Release, P.Release, NewOrder, NewItem, TextOf;
    PassedIsNew(s, q, w);
    if Opening(s, q, w).None? {
      var k := TakeStock(s.pool, q, w, ids);
      if k.Claim? {
        ClaimingKeepsLine(s.pool, q, w, ids);
        if k.hold.Some? {
          S.StepLines(k.pool, P.DoRelease(k.hold.value));
        }
      }
    }
  }

  lemma ClaimingKeepsLine(p: P.Pool, q: Request, w: World, ids: Ids)
    requires S.Lined(p) && OnSale(w) && TakeStock(p, q, w, ids).Claim?
    ensures S.Lined(TakeStock(p, q, w, ids).pool)
  {
    hide S.Lined, P.Reserve, P.Reserving;
    S.StepLines(p, P.DoReserve(ids.stock, q.product, HoldKey(q.key), Some(ids.order), w.locked));
  }

  /** In every shop that calls and outside moves can reach: a placed order costs what its buyer was asked. */
  lemma OrdersOfRunsCostWhatWasAsked(mode: string, steps: seq<Step>, q: Request, w: World, ids: Ids)
    requires var s := Run(Empty(mode), steps);
             Unused(s, ids) && Placed(s, q, w, ids) && FirstAttempt(s, q, w) && Catalogued(w)
    ensures w.product.Some?
    ensures var p := w.product.value; var o := Create(Run(Empty(mode), steps), q, w, ids).shop.orders[ids.order]; var offer := q.payWhatYouWant;
      && (!p.buyerPrices ==> o.subtotal == p.price)
      && (p.buyerPrices && offer > 0 ==> o.subtotal == offer && offer >= Floor(p))
      && (p.buyerPrices && offer <= 0 ==> o.subtotal == if Floor(p) > p.price then Floor(p) else p.price)
      && o.tip == (if q.tip > 0 then q.tip else 0)
      && (q.coupon == "" ==> o.discount == 0)
      && (q.coupon != "" ==> CouponGives(Run(Empty(mode), steps), w, C.AtLeastZero(o.subtotal), o.discount))
      && o.gross == o.subtotal - o.discount + o.tip && Charged(w.fees, o.gross, Fee(o.fee, o.net))
  {
    hide Kept, Run, Create, Placed, Unused, FirstAttempt, Charged;
    EmptyIsKept(mode);
    RunKeepsKept(Empty(mode), steps);
    OrdersCostWhatWasAsked(Run(Empty(mode), steps), q, w, ids);
  }

  /** The same request again, with whatever client prices, answers with the intent of the first and changes nothing; another
      request under its key is refused. */
  lemma RepeatedCallsReplay(s: Shop, q: Request, w: World, ids: Ids, r: Request, w2: World, ids2: Ids)
    requires Kept(s) && Unused(s, ids) && Placed(s, q, w, ids) && r.key == q.key && !Malformed(r) && !w2.disabled
    ensures var e := Create(s, q, w, ids).shop;
            Create(e, r, w2, ids2) == Result(e, if TextOf(s.mode, r) == TextOf(s.mode, q) then Replay(ids.intent) else Refused(IdempotencyConflict))
  {
    hide Kept, Placed, Unused, Malformed, TextOf, ShopOk, RowsPlaced;
    var e := Create(s, q, w, ids).shop;
    PlacedRowsAre(s, q, w, ids);
    PlacedKeyAnswers(s, e, q, w, ids);
    KeptLedger(s);
    CreateKeepsShop(s, q, w, ids);
    ShopHasKeys(e);
    hide KeysOk, Answers;
    OpeningExactly(e, r, w2);
    hide Opening;
    CreateOpens(e, r, w2, ids2);
    hide Create;
  }

  lemma CreateOpens(s: Shop, q: Request, w: World, ids: Ids)
    requires Opening(s, q, w).Some?
    ensures Create(s, q, w, ids) == Result(s, Opening(s, q, w).value)
  {
    hide Opening;
  }

  lemma ShopHasKeys(s: Shop)
    requires ShopOk(s)
    ensures KeysOk(s)
  {
    hide KeysOk;
  }

  lemma PlacedKeyAnswers(s: Shop, e: Shop, q: Request, w: World, ids: Ids)
    requires OnSale(w) && RowsPlaced(s, e, q, w, ids)
    ensures Answers(e, q.key, ids.intent) && e.intents[ids.intent].text == TextOf(s.mode, q) && e.mode == s.mode
  {
    hide Sale, RowsAnswer;
  }
}
