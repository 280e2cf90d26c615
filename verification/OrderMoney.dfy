/** The money of a directly paid order: 3% plus 700 rupiah of the gross, taken from the seller. */
module OrderMoney {

  datatype Money = Money(subtotal: int, discount: int, tip: int, gross: int, fee: int, net: int)

  datatype Outcome = Priced(money: Money) | InvalidPrice | InvalidAmount | FeeExceedsGross

  const PERCENT_BPS: int := 300
  const FIXED: int := 700

  /** Numerator and denominator as the source divides them; all operands here are non-negative. */
  function RoundHalfUp(numerator: int, denominator: int): int {
    if denominator <= 0 then 0 else (numerator + denominator / 2) / denominator
  }

  function Fee(gross: int): int {
    RoundHalfUp(gross * PERCENT_BPS, 10000) + FIXED
  }

  method PriceOrder(unit: int, quantity: nat, askedDiscount: int, askedTip: int) returns (o: Outcome)
    ensures o == Pricing(unit, quantity, askedDiscount, askedTip)
  {
    if unit < 0 {
      return InvalidPrice;
    }
    var subtotal := unit * quantity;
    var discount := askedDiscount;
    if discount < 0 {
      discount := 0;
    }
    if discount > subtotal {
      discount := subtotal;
    }
    var tip := askedTip;
    if tip < 0 {
      tip := 0;
    }
    var grossBeforeFee := subtotal - discount + tip;
    if grossBeforeFee <= 0 {
      return InvalidAmount;
    }
    var fee := RoundHalfUp(grossBeforeFee * 300, 10000) + 700;
    if fee > grossBeforeFee {
      return FeeExceedsGross;
    }
    return Priced(Money(subtotal, discount, tip, grossBeforeFee, fee, grossBeforeFee - fee));
  }

  function Clamp(x: int, low: int, high: int): int
    requires low <= high
  {
    if x < low then low else if x > high then high else x
  }

  function Pricing(unit: int, quantity: nat, askedDiscount: int, askedTip: int): Outcome {
    if unit < 0 then InvalidPrice
    else
      Positive(unit, quantity);
      var subtotal := unit * quantity;
      var discount := Clamp(askedDiscount, 0, subtotal);
      var tip := if askedTip < 0 then 0 else askedTip;
      var gross := subtotal - discount + tip;
      if gross <= 0 then InvalidAmount
      else if Fee(gross) > gross then FeeExceedsGross
      else Priced(Money(subtotal, discount, tip, gross, Fee(gross), gross - Fee(gross)))
  }

  lemma Positive(a: int, b: nat)
    requires a >= 0
    ensures a * b >= 0
  {
  }

  /** No rupiah is made or lost, and no part is negative. */
  lemma PricingConservesMoney(unit: int, quantity: nat, askedDiscount: int, askedTip: int)
    ensures var o := Pricing(unit, quantity, askedDiscount, askedTip);
            o.Priced? ==>
              && o.money.gross == o.money.subtotal - o.money.discount + o.money.tip == o.money.fee + o.money.net
              && 0 <= o.money.discount <= o.money.subtotal && 0 <= o.money.tip && 0 <= o.money.fee && 0 <= o.money.net
              && o.money.subtotal == unit * quantity
  {
    if unit >= 0 {
      Positive(unit, quantity);
    }
  }

  /** The asked discount counts as far as it is one and fits, a tip as far as it is one; an order is refused exactly for a
      negative price, for nothing to pay, or for a fee above the gross. */
  lemma PricedExactly(unit: int, quantity: nat, askedDiscount: int, askedTip: int)
    ensures var o := Pricing(unit, quantity, askedDiscount, askedTip);
      && (o.InvalidPrice? <==> unit < 0)
      && (o.Priced? ==>
            && (askedDiscount <= 0 ==> o.money.discount == 0)
            && (0 <= askedDiscount <= unit * quantity ==> o.money.discount == askedDiscount)
            && (askedDiscount >= unit * quantity ==> o.money.discount == unit * quantity)
            && o.money.tip == (if askedTip > 0 then askedTip else 0)
            && o.money.gross > 0 && o.money.fee == Fee(o.money.gross))
      && (o.InvalidAmount? <==> unit >= 0 && askedTip <= 0 && (unit * quantity == 0 || askedDiscount >= unit * quantity))
  {
    if unit >= 0 {
      Positive(unit, quantity);
    }
    hide Fee;
  }

  /** The fee is 3% plus 700 to within half a rupiah. */
  lemma FeeIsNearest(gross: int)
    requires gross >= 0
    ensures -5000 < 10000 * (Fee(gross) - 700) - gross * 300 <= 5000
  {
    var n := gross * PERCENT_BPS + 5000;
    assert n == 10000 * (n / 10000) + n % 10000;
  }

  lemma DivisionIsMonotone(a: int, b: int)
    requires a <= b
    ensures a / 10000 <= b / 10000
  {
  }

  /** A larger order never pays a smaller fee, nor leaves the seller less. */
  lemma FeeAndNetAreMonotone(a: int, b: int)
    requires 0 <= a <= b
    ensures Fee(a) <= Fee(b) && a - Fee(a) <= b - Fee(b)
  {
    FeeGrows(a, b);
    var x, y := a * PERCENT_BPS + 5000, b * PERCENT_BPS + 5000;
    DivisionIsMonotone(x, y);
    DivisionIsMonotone(y, x + 10000 * (b - a));
    assert (x + 10000 * (b - a)) / 10000 == x / 10000 + (b - a);
  }

  lemma FeeGrows(a: int, b: int)
    requires 0 <= a <= b
    ensures a * PERCENT_BPS <= b * PERCENT_BPS <= a * PERCENT_BPS + 10000 * (b - a)
  {
  }

  /** An order is refused for its fee exactly below 722 rupiah. */
  lemma RefusedExactlyBelow722(unit: int, quantity: nat, askedDiscount: int, askedTip: int)
    requires unit >= 0
    ensures var tip := if askedTip < 0 then 0 else askedTip;
            unit * quantity >= 0 &&
            var gross := unit * quantity - Clamp(askedDiscount, 0, unit * quantity) + tip;
            Pricing(unit, quantity, askedDiscount, askedTip).FeeExceedsGross? <==> 0 < gross < 722
  {
    Positive(unit, quantity);
    var gross := unit * quantity - Clamp(askedDiscount, 0, unit * quantity) + if askedTip < 0 then 0 else askedTip;
    if 0 < gross < 722 {
      FeeAndNetAreMonotone(gross, 721);
      assert Fee(721) == 722;
    } else if gross >= 722 {
      FeeAndNetAreMonotone(722, gross);
      assert Fee(722) == 722;
    }
  }
}
