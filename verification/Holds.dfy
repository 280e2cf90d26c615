/** Optional values, used for nullable columns. */
module Options {
  datatype Option<+T> = None | Some(value: T)
}

/** Counting in finite sets. */
module Counting {
  function One(b: bool): (n: int)
    ensures n == 0 || n == 1
  {
    if b then 1 else 0
  }

  lemma WithoutOne<T>(s: set<T>, x: T)
    ensures |s - {x}| == |s| - One(x in s)
  {
    if x in s {
      assert s == (s - {x}) + {x};
    } else {
      assert s == s - {x};
    }
  }

  /** The keys whose values satisfy a predicate. */
  function Where<K, V>(m: map<K, V>, p: V -> bool): set<K> {
    set k | k in m && p(m[k])
  }

  /** One update changes the count by what the old and the new value are worth. */
  lemma WhereChange<K, V>(m: map<K, V>, k: K, v: V, p: V -> bool)
    ensures |Where(m[k := v], p)| == |Where(m, p)| - One(k in m && p(m[k])) + One(p(v))
  {
    var before, after := Where(m, p), Where(m[k := v], p);
    forall x
      ensures x in after - {k} <==> x in before - {k}
    {
    }
    assert after - {k} == before - {k};
    assert k in after <==> p(v);
    assert k in before <==> k in m && p(m[k]);
    hide Where;
    WithoutOne(after, k);
    WithoutOne(before, k);
  }

  lemma PartIsSmaller<T>(part: set<T>, whole: set<T>)
    requires part <= whole
    ensures |part| <= |whole|
  {
    assert whole == part + (whole - part);
  }
}

/**
 The life of one checkout hold: a coupon reservation and a stock reservation.
 The coupon ledger, the stock pool and the payment protocol all move holds with
 these functions, so that what a payment run does to a hold is what the ledger
 and the pool do to the stored row.
 */
module Holds {

  datatype CouponHold = Reserved | HeldUnknown | Consumed | Released

  datatype StockHold = Claimed | ClaimedUnknown | Delivered | Returned

  predicate CouponLive(h: CouponHold) {
    h.Reserved? || h.HeldUnknown?
  }

  predicate StockLive(h: StockHold) {
    h.Claimed? || h.ClaimedUnknown?
  }

  /** A release takes effect on a live hold and is refused or idempotent on any other. */
  function ReleaseCoupon(h: CouponHold): CouponHold {
    if CouponLive(h) then Released else h
  }

  function ConsumeCoupon(h: CouponHold): CouponHold {
    if CouponLive(h) then Consumed else h
  }

  function SuspendCoupon(h: CouponHold): CouponHold {
    if h.Reserved? then HeldUnknown else h
  }

  function ReturnStock(h: StockHold): StockHold {
    if StockLive(h) then Returned else h
  }

  function DeliverStock(h: StockHold): StockHold {
    if StockLive(h) then Delivered else h
  }

  /** The first of a release and a conversion decides; the other one changes nothing. */
  lemma FirstHoldMoveWins(c: CouponHold, s: StockHold)
    ensures CouponLive(c) ==> ConsumeCoupon(ReleaseCoupon(c)) == Released
    ensures CouponLive(c) ==> ReleaseCoupon(ConsumeCoupon(c)) == Consumed
    ensures StockLive(s) ==> DeliverStock(ReturnStock(s)) == Returned
    ensures StockLive(s) ==> ReturnStock(DeliverStock(s)) == Delivered
  {
  }
}
