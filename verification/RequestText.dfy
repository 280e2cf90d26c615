/**
 The text a checkout request is reduced to before hashing. Two requests under one
 idempotency key are the same request when their texts are the same; the fields are
 joined with bars and are not escaped.
 */
module RequestText {

  function Digits(n: nat): (s: string)
    ensures forall c :: c in s ==> '0' <= c <= '9'
  {
    if n < 10 then [('0' as int + n) as char] else Digits(n / 10) + [('0' as int + n % 10) as char]
  }

  function Decimal(x: int): string {
    if x < 0 then "-" + Digits(-x) else Digits(x)
  }

  function Value(s: string): int
    decreases |s|
  {
    if s == "" then 0 else 10 * Value(s[..|s| - 1]) + s[|s| - 1] as int - '0' as int
  }

  lemma {:induction false} DigitsReadBack(n: nat)
    ensures |Digits(n)| > 0 && Value(Digits(n)) == n
  {
    if n >= 10 {
      var s := Digits(n);
      assert s[..|s| - 1] == Digits(n / 10);
      DigitsReadBack(n / 10);
    }
  }

  lemma DecimalReadsBack(x: int, y: int)
    requires Decimal(x) == Decimal(y)
    ensures x == y
  {
    SignShows(x);
    SignShows(y);
    hide Digits;
    DigitsReadBack(if x < 0 then -x else x);
    DigitsReadBack(if y < 0 then -y else y);
    if x < 0 {
      assert Digits(-x) == Decimal(x)[1..] == Digits(-y);
    }
  }

  lemma SignShows(x: int)
    ensures |Decimal(x)| > 0 && (Decimal(x)[0] == '-' <==> x < 0)
  {
    DigitsReadBack(if x < 0 then -x else x);
    if x >= 0 {
      assert Digits(x)[0] in Digits(x);
    }
  }

  function Bars(s: string): nat {
    if s == "" then 0 else (if s[0] == '|' then 1 else 0) + Bars(s[1..])
  }

  lemma {:induction false} BarsAddUp(a: string, b: string)
    ensures Bars(a + b) == Bars(a) + Bars(b)
  {
    if a == "" {
      assert a + b == b;
    } else {
      assert (a + b)[1..] == a[1..] + b;
      BarsAddUp(a[1..], b);
    }
  }

  /** A first part is told from what follows it by its number of bars. */
  lemma BarsSplit(a: string, r: string, b: string, s: string)
    requires a + "|" + r == b + "|" + s && Bars(a) == Bars(b)
    ensures a == b && r == s
  {
    var x := a + "|" + r;
    assert x[..|a|] == a && x[..|b|] == b && x[|a|] == '|' == x[|b|];
    assert x[|a| + 1..] == r && x[|b| + 1..] == s;
    if |a| != |b| {
      var short, long := if |a| < |b| then a else b, if |a| < |b| then b else a;
      assert long == short + long[|short|..] && long[|short|] == '|';
      BarsAddUp(short, long[|short|..]);
      assert false;
    }
  }

  predicate Plain(s: string) {
    '|' !in s
  }

  lemma {:induction false} PlainHasNoBars(s: string)
    ensures Plain(s) <==> Bars(s) == 0
  {
    if s != "" {
      PlainHasNoBars(s[1..]);
    }
  }

  lemma DecimalIsPlain(x: int)
    ensures Bars(Decimal(x)) == 0
  {
    PlainHasNoBars(Decimal(x));
    hide Bars;
  }

  /** What of a request counts; code and email as the source folds them first. */
  datatype Fields = Fields(store: string, product: string, mode: string, payWhatYouWant: int, tip: int, coupon: string, email: string)

  function Join(a: string, rest: string): string {
    a + "|" + rest
  }

  function Text(f: Fields): string {
    Join("v1", Join(f.store, Join(f.product, Join(f.mode, Join(Decimal(f.payWhatYouWant),
      Join(Decimal(f.tip), Join(f.coupon, f.email)))))))
  }

  /** The fields in their order, the amounts in decimal. */
  lemma TextIs(f: Fields)
    ensures Text(f) == "v1|" + f.store + "|" + f.product + "|" + f.mode + "|" + Decimal(f.payWhatYouWant) + "|" + Decimal(f.tip)
                       + "|" + f.coupon + "|" + f.email
  {
    hide Decimal;
    var pay, tip := Decimal(f.payWhatYouWant), Decimal(f.tip);
    assert Join(f.coupon, f.email) == f.coupon + "|" + f.email;
    assert Text(f) == "v1" + "|" + (f.store + "|" + (f.product + "|" + (f.mode + "|" + (pay + "|" + (tip + "|" + (f.coupon + "|" + f.email))))));
    assert "v1|" == "v1" + "|";
  }

  lemma JoinSplits(a: string, r: string, b: string, s: string)
    ensures Join(a, r) == Join(b, s) && Bars(a) == Bars(b) ==> a == b && r == s
    ensures Bars(Join(a, r)) == Bars(a) + 1 + Bars(r)
  {
    if Join(a, r) == Join(b, s) && Bars(a) == Bars(b) {
      BarsSplit(a, r, b, s);
    }
    BarsAddUp(a + "|", r);
    BarsAddUp(a, "|");
  }

  predicate SameBars(f: Fields, g: Fields) {
    Bars(f.store) == Bars(g.store) && Bars(f.product) == Bars(g.product) && Bars(f.mode) == Bars(g.mode) && Bars(f.coupon) == Bars(g.coupon)
  }

  /** One text, and one request: exactly when no bar moves from one field to another. */
  lemma OneTextIsOneRequestExactly(f: Fields, g: Fields)
    requires Text(f) == Text(g)
    ensures f == g <==> SameBars(f, g)
  {
    if SameBars(f, g) {
      var f1, g1 := Join(f.coupon, f.email), Join(g.coupon, g.email);
      var f2, g2 := Join(Decimal(f.tip), f1), Join(Decimal(g.tip), g1);
      var f3, g3 := Join(Decimal(f.payWhatYouWant), f2), Join(Decimal(g.payWhatYouWant), g2);
      var f4, g4 := Join(f.mode, f3), Join(g.mode, g3);
      var f5, g5 := Join(f.product, f4), Join(g.product, g4);
      var f6, g6 := Join(f.store, f5), Join(g.store, g5);
      DecimalIsPlain(f.payWhatYouWant); DecimalIsPlain(g.payWhatYouWant);
      DecimalIsPlain(f.tip); DecimalIsPlain(g.tip);
      hide Decimal, Bars, Join;
      JoinSplits("v1", f6, "v1", g6);
      JoinSplits(f.store, f5, g.store, g5);
      JoinSplits(f.product, f4, g.product, g4);
      JoinSplits(f.mode, f3, g.mode, g3);
      JoinSplits(Decimal(f.payWhatYouWant), f2, Decimal(g.payWhatYouWant), g2);
      JoinSplits(Decimal(f.tip), f1, Decimal(g.tip), g1);
      JoinSplits(f.coupon, f.email, g.coupon, g.email);
      DecimalReadsBack(f.payWhatYouWant, g.payWhatYouWant);
      DecimalReadsBack(f.tip, g.tip);
    }
  }

  lemma BarsOfText(f: Fields)
    ensures Bars(Text(f)) == Bars("v1") + 6 + Bars(f.store) + Bars(f.product) + Bars(f.mode) + Bars(f.coupon) + 1 + Bars(f.email)
  {
    var f1 := Join(f.coupon, f.email);
    var f2 := Join(Decimal(f.tip), f1);
    var f3 := Join(Decimal(f.payWhatYouWant), f2);
    var f4 := Join(f.mode, f3);
    var f5 := Join(f.product, f4);
    var f6 := Join(f.store, f5);
    DecimalIsPlain(f.payWhatYouWant);
    DecimalIsPlain(f.tip);
    hide Decimal, Bars, Join;
    JoinSplits("v1", f6, "v1", f6);
    JoinSplits(f.store, f5, f.store, f5);
    JoinSplits(f.product, f4, f.product, f4);
    JoinSplits(f.mode, f3, f.mode, f3);
    JoinSplits(Decimal(f.payWhatYouWant), f2, Decimal(f.payWhatYouWant), f2);
    JoinSplits(Decimal(f.tip), f1, Decimal(f.tip), f1);
    JoinSplits(f.coupon, f.email, f.coupon, f.email);
  }

  predicate PlainFields(f: Fields) {
    Plain(f.store) && Plain(f.product) && Plain(f.coupon) && Plain(f.email)
  }

  ghost predicate OnlyRequestOfItsText(f: Fields) {
    forall g: Fields :: g.mode == f.mode && Text(g) == Text(f) ==> g == f
  }

  /** No other request in the same mode has the text of this one exactly when none of the four strings the
      buyer sends holds a bar. */
  lemma TextIsUniqueExactly(f: Fields)
    ensures OnlyRequestOfItsText(f) <==> PlainFields(f)
  {
    if PlainFields(f) {
      forall g: Fields | g.mode == f.mode && Text(g) == Text(f)
        ensures g == f
      {
        PlainTextsAreUnique(f, g);
      }
    } else {
      var g := OtherRequest(f);
      OtherRequestCollides(f);
      assert g.mode == f.mode && Text(g) == Text(f) && g != f;
    }
  }

  lemma PlainTextsAreUnique(f: Fields, g: Fields)
    requires PlainFields(f) && g.mode == f.mode && Text(g) == Text(f)
    ensures g == f
  {
    hide Text, Bars, Plain;
    BarsOfText(f);
    BarsOfText(g);
    PlainHasNoBars(f.store);
    PlainHasNoBars(f.product);
    PlainHasNoBars(f.coupon);
    PlainHasNoBars(f.email);
    OneTextIsOneRequestExactly(f, g);
  }

  /** Where a string with a bar has its first one. */
  function FirstBar(s: string): (n: nat)
    requires !Plain(s)
    ensures n < |s| && s[n] == '|'
  {
    if s[0] == '|' then 0 else 1 + FirstBar(s[1..])
  }

  /** Move what stands on one side of a bar into the field beyond it. */
  function OtherRequest(f: Fields): Fields
    requires !PlainFields(f)
  {
    if !Plain(f.store) then
      var n := FirstBar(f.store);
      f.(store := f.store[..n], product := Join(f.store[n + 1..], f.product))
    else if !Plain(f.product) then
      var n := FirstBar(f.product);
      f.(store := Join(f.store, f.product[..n]), product := f.product[n + 1..])
    else if !Plain(f.coupon) then
      var n := FirstBar(f.coupon);
      f.(coupon := f.coupon[..n], email := Join(f.coupon[n + 1..], f.email))
    else
      var n := FirstBar(f.email);
      f.(coupon := Join(f.coupon, f.email[..n]), email := f.email[n + 1..])
  }

  lemma OtherRequestCollides(f: Fields)
    requires !PlainFields(f)
    ensures Text(OtherRequest(f)) == Text(f) && OtherRequest(f) != f
  {
    var g := OtherRequest(f);
    if !Plain(f.store) || !Plain(f.product) {
      var rest := Join(f.mode, Join(Decimal(f.payWhatYouWant), Join(Decimal(f.tip), Join(f.coupon, f.email))));
      var n := FirstBar(if !Plain(f.store) then f.store else f.product);
      if !Plain(f.store) {
        BarMoves(f.store, n, f.product);
        JoinAssociates(f.store[..n], f.store[n + 1..], f.product);
      } else {
        BarMoves(f.product, n, f.product);
        JoinAssociates(f.store, f.product[..n], f.product[n + 1..]);
      }
      JoinAssociates(f.store, f.product, rest);
      JoinAssociates(g.store, g.product, rest);
    } else {
      var n := FirstBar(if !Plain(f.coupon) then f.coupon else f.email);
      if !Plain(f.coupon) {
        BarMoves(f.coupon, n, f.email);
        JoinAssociates(f.coupon[..n], f.coupon[n + 1..], f.email);
      } else {
        BarMoves(f.email, n, f.email);
        JoinAssociates(f.coupon, f.email[..n], f.email[n + 1..]);
      }
    }
    hide Join, Decimal, FirstBar;
  }

  lemma BarMoves(s: string, n: nat, t: string)
    requires n < |s| && s[n] == '|'
    ensures Join(s[..n], s[n + 1..]) == s
  {
  }

  lemma JoinAssociates(a: string, b: string, r: string)
    ensures Join(a, Join(b, r)) == Join(Join(a, b), r)
  {
    assert a + "|" + (b + "|" + r) == (a + "|" + b) + "|" + r;
  }

  /** A request whose email repeats the mode, the offer and the tip, and one in another store, without
      a coupon code in either: one text. */
  lemma StoresCollide(store: string, product: string, mode: string, offer: int, tip: int, email: string)
    ensures var tail := Join(mode, Join(Decimal(offer), Join(Decimal(tip), Join("", email))));
            var f := Fields(store, product, mode, offer, tip, "", tail);
            var g := Fields(Join(store, Join(product, Join(mode, Decimal(offer)))), Join(Decimal(tip), ""), mode, offer, tip, "", email);
            Text(f) == Text(g) && |f.store| < |g.store|
  {
    var o, t := Decimal(offer), Decimal(tip);
    var tail := Join(mode, Join(o, Join(t, Join("", email))));
    assert |store| < |Join(store, Join(product, Join(mode, o)))|;
    hide Join, Decimal;
    JoinAssociates(t, "", tail);
    JoinAssociates(mode, o, Join(t, Join("", tail)));
    JoinAssociates(product, Join(mode, o), Join(t, Join("", tail)));
    JoinAssociates(store, Join(product, Join(mode, o)), Join(t, Join("", tail)));
  }
}
