/** The checkout service on its tables, with the coupon and the inventory service it calls. */
module CheckoutDesk {
  import opened Options
  import opened Checkout
  import L = CouponLedger
  import P = StockPool
  import PC = PaymentCase
  import OrderMoney

  class CheckoutService {
    const mode: string
    const coupons: L.CouponDesk
    const inventory: P.StockDesk
    var intents: map<IntentId, Intent>
    var byKey: map<string, IntentId>
    var orders: map<OrderId, Order>
    var items: map<ItemId, Item>

    ghost function View(): Shop
      reads this, coupons, inventory
    {
      Shop(mode, coupons.View(), inventory.View(), intents, byKey, orders, items)
    }

    ghost predicate Valid()
      reads this, coupons, inventory
    {
      ShopOk(View())
    }

    constructor (paymentMode: string)
      ensures View() == Empty(paymentMode) && Valid() && fresh(coupons) && fresh(inventory)
    {
      mode := paymentMode;
      coupons := new L.CouponDesk();
      inventory := new P.StockDesk();
      intents, byKey, orders, items := map[], map[], map[], map[];
      new;
      EmptyShopIsOk(paymentMode);
      hide ShopOk;
    }

    /** Everything that can end the call before a hold is taken. */
    method CheckRequest(q: Request, w: World) returns (stop: Option<Outcome>)
      ensures stop == Opening(View(), q, w)
    {
      hide TextOf;
      if q.store == "" || q.product == "" || Blank(q.key) {
        return Some(Refused(InvalidRequest));
      }
      if w.disabled {
        return Some(Refused(Disabled));
      }
      if q.key in byKey && byKey[q.key] in intents {
        var existing := byKey[q.key];
        if intents[existing].text != TextOf(mode, q) {
          return Some(Refused(IdempotencyConflict));
        }
        return Some(Replay(existing));
      }
      if w.product.None? {
        return Some(Refused(ProductUnavailable));
      }
      var product := w.product.value;
      if !product.published || product.storeMerchant.None? || product.storeMerchant.value != product.merchant {
        return Some(Refused(ProductUnavailable));
      }
      if product.buyerPrices && q.payWhatYouWant > 0 {
        var least := product.price;
        if product.minimum.Some? {
          least := product.minimum.value;
        }
        if q.payWhatYouWant < least {
          return Some(Refused(BelowMinimum));
        }
      }
      return None;
    }

    /** The server's own price: what the client says it is plays no part. */
    method PriceProduct(q: Request, product: Product) returns (merchandise: int, tip: int)
      ensures merchandise == Merchandise(product, q.payWhatYouWant) && tip == Tip(q.tip)
    {
      merchandise := product.price;
      if product.buyerPrices {
        var least := product.price;
        if product.minimum.Some? {
          least := product.minimum.value;
        }
        if q.payWhatYouWant > 0 {
          merchandise := q.payWhatYouWant;
        } else if merchandise < least {
          merchandise := least;
        }
      }
      tip := q.tip;
      if tip < 0 {
        tip := 0;
      }
    }

    method ReserveCoupon(q: Request, w: World, ids: Ids) returns (refusal: Option<Refusal>, hold: Option<L.ReservationId>, price: L.Price)
      requires Valid() && Unused(View(), ids) && OnSale(w)
      modifies coupons
      ensures coupons.Valid()
      ensures var c := TakeCoupon(old(coupons.View()), q, w, ids);
              if c.NotTaken? then refusal == Some(c.why) && coupons.View() == old(coupons.View())
              else refusal.None? && coupons.View() == c.ledger && hold == c.hold && price == c.price
    {
      hide RowsOk, PricesOk, NamesOk, StockOwned, L.LedgerOk, P.PoolOk, L.NewReservation, L.Reserving, Merchandise, HoldKey, Buyer;
      refusal, hold := None, None;
      var merchandise, tip := PriceProduct(q, w.product.value);
      price := L.Price(merchandise, 0, tip, 0, merchandise + tip);
      if q.coupon == "" {
        return;
      }
      if w.coupon.None? {
        refusal := Some(CouponUnavailable);
        return;
      }
      ghost var before := coupons.View();
      ghost var req := CouponRequest(q, w, ids);
      ReplayedRowFits(before, w.coupon.value, req, w.now);
      L.GrantedIsStored(before, w.coupon.value, req, w.now);
      ReservedRow(before, w.coupon.value, ids.coupon, req, w.now);
      var request := L.Request(q.product, ids.order, HoldKey(q.key), Buyer(q), w.product.value.price, merchandise, tip, 0, TTL);
      var o := coupons.ReserveCoupon(w.coupon.value, ids.coupon, request, w.now);
      assert request == req;
      match o {
        case Granted => hold := Some(ids.coupon);
        case Replayed(r) => hold := Some(r);
        case Unavailable => refusal := Some(CouponUnavailable);
        case LimitReached => refusal := Some(CouponLimit);
      }
      hide L.Reserve, CouponRequest;
      if hold.Some? {
        price := coupons.reservations[hold.value].price;
      }
    }

    method CalculateFee(p: FeePolicy, gross: int) returns (fee: Option<Fee>)
      ensures fee == FeeOf(p, gross)
    {
      if gross <= 0 || p.percentBps < 0 || p.fixed < 0 {
        return None;
      }
      if p.minimum > 0 && gross < p.minimum {
        return None;
      }
      if p.maximum > 0 && gross > p.maximum {
        return None;
      }
      if gross * p.percentBps > MAX_INT64 - 5000 {
        return None;
      }
      var total := OrderMoney.RoundHalfUp(gross * p.percentBps, 10000) + p.fixed;
      if total > MAX_INT64 {
        return None;
      }
      var net := gross - total;
      return if net <= 0 then None else Some(Fee(total, net));
    }

    method ReserveUnit(q: Request, w: World, ids: Ids) returns (ok: bool, hold: Option<P.ReservationId>)
      requires inventory.Valid() && ids.stock !in inventory.reservations && OnSale(w)
      modifies inventory
      ensures inventory.Valid()
      ensures var k := TakeStock(old(inventory.View()), q, w, ids);
              if k.NoStock? then !ok && inventory.View() == old(inventory.View())
              else ok && inventory.View() == k.pool && hold == k.hold
    {
      ok, hold := true, None;
      hide P.PoolOk, P.FirstFree, P.Reserving, HoldKey;
      if w.product.value.isCode {
        var o := inventory.ReserveStock(ids.stock, q.product, HoldKey(q.key), Some(ids.order), w.locked);
        match o {
          case Granted(_) => hold := Some(ids.stock);
          case Replayed(r) => hold := Some(r);
          case OutOfStock => ok := false;
        }
      }
    }

    /** One transaction for the three rows. */
    method InsertRows(q: Request, price: L.Price, fee: Fee, coupon: Option<L.ReservationId>, stock: Option<P.ReservationId>, ids: Ids)
      modifies this
      ensures View() == Place(old(View()), q, price, fee, coupon, stock, ids)
      ensures ids.intent in intents && intents[ids.intent].order in orders
    {
      orders := orders[ids.order := Order(q.key, price.merchandise, price.discount, price.tip, price.gross,
                                          fee.total, fee.net, PC.OrderPending)];
      items := items[ids.item := Item(ids.order, q.product, price.merchandise, price.discount, price.merchandise - price.discount, stock)];
      intents := intents[ids.intent := Intent(q.key, TextOf(mode, q), ids.order, price.gross, PC.RequiresPayment,
                                              None, None, coupon, stock)];
      byKey := byKey[q.key := ids.intent];
    }

    method AskProvider(i: IntentId, answer: PC.Answer) returns (o: Outcome)
      requires coupons.Valid() && inventory.Valid() && i in intents && intents[i].order in orders
      modifies this, coupons, inventory
      ensures Result(View(), o) == Conclude(old(View()), i, answer)
    {
      hide L.LedgerOk, P.PoolOk, L.Release, L.HoldUnknown, P.Release;
      var pi := intents[i];
      match answer {
        case Created(r) =>
          intents := intents[i := pi.(status := PC.Pending, providerRef := Some(r))];
          return Outcome.Created(i);
        case TimedOut =>
          intents := intents[i := pi.(status := PC.UnknownOutcome, unknownOp := Some(PC.CreateCall))];
          if pi.coupon.Some? {
            var held := coupons.MarkHeldUnknown(pi.coupon.value);
          }
          return Outcome.Created(i);
        case _ =>
          if pi.stock.Some? {
            var returned := inventory.ReleaseReservation(pi.stock.value);
          }
          if pi.coupon.Some? {
            var released := coupons.ReleaseReservation(pi.coupon.value);
          }
          intents := intents[i := pi.(status := PC.Failed)];
          orders := orders[pi.order := orders[pi.order].(payment := PC.OrderFailed)];
          return Refused(ProviderRejected);
      }
    }

    method CreateIntent(q: Request, w: World, ids: Ids) returns (o: Outcome)
      requires Valid() && Unused(View(), ids)
      modifies this, coupons, inventory
      ensures Valid() && Result(View(), o) == Create(old(View()), q, w, ids)
    {
      ghost var s := View();
      hide RowsOk, PricesOk, NamesOk, StockOwned, L.LedgerOk, P.PoolOk, Opening, TakeCoupon, TakeStock, FeeOf, Place, Conclude, L.Release;
      CreateKeepsShop(s, q, w, ids);
      var stop := CheckRequest(q, w);
      if stop.Some? {
        return stop.value;
      }
      KnownKey(s, q, w);
      var refusal, coupon, price := ReserveCoupon(q, w, ids);
      if refusal.Some? {
        return Refused(refusal.value);
      }
      if price.gross <= 0 {
        return Refused(InvalidAmount);
      }
      var fee := CalculateFee(w.fees, price.gross);
      if fee.None? {
        return Refused(FeeRefused);
      }
      var ok, stock := ReserveUnit(q, w, ids);
      if !ok {
        if coupon.Some? {
          var released := coupons.ReleaseReservation(coupon.value);
        }
        return Refused(OutOfStock);
      }
      InsertRows(q, price, fee.value, coupon, stock, ids);
      o := AskProvider(ids.intent, w.answer);
    }
  }

  lemma ReservedRow(l: L.Ledger, c: L.CouponId, r: L.ReservationId, req: L.Request, now: int)
    ensures r !in l.reservations && L.Reserving(l, c, req, now).Granted? && c in l.coupons ==>
              L.Reserve(l, c, r, req, now).reservations == l.reservations[r := L.NewReservation(l, c, req, now)]
    ensures !L.Reserving(l, c, req, now).Granted? ==> L.Reserve(l, c, r, req, now) == l
  {
    hide L.Reserving, L.NewReservation;
  }
}
