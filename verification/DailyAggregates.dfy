/**
 The daily traffic table of a store: rebuilt for a range of days from counted source
 rows, into one row per day and channel, one for all channels, and one per product.
 */
module DailyAggregates {

  datatype Channel = All | Direct | Organic | Referral | Utm | Social | Email | Paid | Other

  /** NoProduct is the empty product identifier. */
  datatype Product = NoProduct | Product(id: string)

  datatype Cell = Cell(day: int, channel: Channel, product: Product)

  datatype Measures = Measures(sessions: int, pageViews: int, checkouts: int, orders: int, gross: int)

  datatype EventType = PageView | ProductView | CheckoutStart | SessionStart

  /** Source rows as the store counts them, one day, channel and kind each. */
  datatype Row =
    | Sessions(day: int, channel: Channel, count: int)
    | Events(day: int, channel: Channel, kind: EventType, count: int)
    | Conversions(day: int, channel: Channel, product: Product, orders: int, gross: int)

  const ZERO := Measures(0, 0, 0, 0, 0)

  function Plus(a: Measures, b: Measures): Measures {
    Measures(a.sessions + b.sessions, a.pageViews + b.pageViews, a.checkouts + b.checkouts, a.orders + b.orders, a.gross + b.gross)
  }

  lemma PlusRegroups(a: Measures, b: Measures, c: Measures, d: Measures)
    ensures Plus(Plus(a, b), Plus(c, d)) == Plus(Plus(a, c), Plus(b, d))
    ensures Plus(a, ZERO) == a && Plus(ZERO, a) == a
  {
  }

  type Table = map<Cell, Measures>

  function Get(t: Table, c: Cell): Measures {
    if c in t then t[c] else ZERO
  }

  /** Find or create the accumulator of a cell and add to it. */
  function Bump(t: Table, c: Cell, m: Measures): Table {
    t[c := Plus(Get(t, c), m)]
  }

  /** What a row adds to its own channel and to the row of all channels. */
  function Worth(r: Row): Measures {
    match r
    case Sessions(_, _, n) => ZERO.(sessions := n)
    case Events(_, _, kind, n) =>
      if kind.PageView? || kind.ProductView? then ZERO.(pageViews := n)
      else if kind.CheckoutStart? then ZERO.(checkouts := n)
      else ZERO
    case Conversions(_, _, _, orders, gross) => ZERO.(orders := orders, gross := gross)
  }

  predicate Ignored(r: Row) {
    r.Events? && r.kind.SessionStart?
  }

  function AddRow(t: Table, r: Row): Table {
    if Ignored(r) then t
    else
      var both := Bump(Bump(t, Cell(r.day, r.channel, NoProduct), Worth(r)), Cell(r.day, All, NoProduct), Worth(r));
      if r.Conversions? && r.product.Product? then Bump(both, Cell(r.day, All, r.product), Worth(r)) else both
  }

  function Tally(rows: seq<Row>): Table {
    if rows == [] then map[] else AddRow(Tally(rows[..|rows| - 1]), rows[|rows| - 1])
  }

  // ---------------------------------------------------------------------------
  // Totals, independently of the accumulation
  // ---------------------------------------------------------------------------

  predicate Touches(r: Row, c: Cell) {
    && !Ignored(r) && r.day == c.day
    && ((c.product.NoProduct? && (c.channel == r.channel || c.channel.All?))
        || (c.product.Product? && c.channel.All? && r.Conversions? && r.product == c.product))
  }

  function Given(r: Row, c: Cell): Measures {
    if Touches(r, c) then Worth(r) else ZERO
  }

  function Total(rows: seq<Row>, c: Cell): Measures {
    if rows == [] then ZERO else Plus(Total(rows[..|rows| - 1], c), Given(rows[|rows| - 1], c))
  }

  /** No source row is stored under the channel that stands for all. */
  predicate FromSource(rows: seq<Row>) {
    forall i :: 0 <= i < |rows| ==> !rows[i].channel.All?
  }

  lemma BumpGives(t: Table, c: Cell, m: Measures, x: Cell)
    ensures Get(Bump(t, c, m), x) == if x == c then Plus(Get(t, c), m) else Get(t, x)
    ensures x in Bump(t, c, m) <==> x in t || x == c
  {
    hide Plus;
  }

  lemma AddRowGives(t: Table, r: Row, c: Cell)
    requires !r.channel.All?
    ensures Get(AddRow(t, r), c) == Plus(Get(t, c), Given(r, c))
    ensures c in AddRow(t, r) <==> c in t || Touches(r, c)
  {
    hide Bump, Get, Plus, Worth;
    PlusRegroups(Get(t, c), ZERO, ZERO, ZERO);
    if !Ignored(r) {
      var own, all, product := Cell(r.day, r.channel, NoProduct), Cell(r.day, All, NoProduct), if r.Conversions? then r.product else NoProduct;
      var one := Bump(t, own, Worth(r));
      var both := Bump(one, all, Worth(r));
      BumpGives(t, own, Worth(r), c);
      BumpGives(one, all, Worth(r), c);
      BumpGives(t, own, Worth(r), all);
      BumpGives(both, Cell(r.day, All, product), Worth(r), c);
      BumpGives(one, all, Worth(r), Cell(r.day, All, product));
      BumpGives(t, own, Worth(r), Cell(r.day, All, product));
    }
  }

  /** The accumulated table holds exactly the totals, and a cell exactly where a row counts. */
  lemma {:induction false} TallyIsTotal(rows: seq<Row>, c: Cell)
    requires FromSource(rows)
    ensures Get(Tally(rows), c) == Total(rows, c)
    ensures c in Tally(rows) <==> exists i :: 0 <= i < |rows| && Touches(rows[i], c)
    decreases |rows|
  {
    hide AddRow, Touches, Given, Get, Plus;
    if rows == [] {
      NothingInEmptyTable(c);
    } else {
      var n := |rows| - 1;
      TallyIsTotal(rows[..n], c);
      AddRowGives(Tally(rows[..n]), rows[n], c);
      assert forall i :: 0 <= i < n ==> rows[..n][i] == rows[i];
    }
  }

  /** The row counts for this cell: on its day, in its own channel or all of them, and for its product in all channels. */
  predicate CountsIn(r: Row, c: Cell) {
    && r.day == c.day
    && (c.product == NoProduct ==> c.channel == r.channel || c.channel == All)
    && (c.product != NoProduct ==> c.channel == All && r.Conversions? && r.product == c.product)
  }

  function SumOf(rows: seq<Row>, count: Row -> int): int {
    if rows == [] then 0 else SumOf(rows[..|rows| - 1], count) + count(rows[|rows| - 1])
  }

  function SessionsIn(c: Cell): Row -> int {
    (r: Row) => if CountsIn(r, c) && r.Sessions? then r.count else 0
  }

  function ViewsIn(c: Cell): Row -> int {
    (r: Row) => if CountsIn(r, c) && r.Events? && (r.kind == PageView || r.kind == ProductView) then r.count else 0
  }

  function CheckoutsIn(c: Cell): Row -> int {
    (r: Row) => if CountsIn(r, c) && r.Events? && r.kind == CheckoutStart then r.count else 0
  }

  function OrdersIn(c: Cell): Row -> int {
    (r: Row) => if CountsIn(r, c) && r.Conversions? then r.orders else 0
  }

  function GrossIn(c: Cell): Row -> int {
    (r: Row) => if CountsIn(r, c) && r.Conversions? then r.gross else 0
  }

  lemma GivenCounts(r: Row, c: Cell)
    ensures Given(r, c) == Measures(SessionsIn(c)(r), ViewsIn(c)(r), CheckoutsIn(c)(r), OrdersIn(c)(r), GrossIn(c)(r))
    ensures Touches(r, c) <==> CountsIn(r, c) && !(r.Events? && r.kind == SessionStart)
  {
  }

  /** Each measure of a cell is the sum of the counts that are of its kind: sessions; views of pages and products; started
      checkouts; orders; and their gross. A started session counts nowhere. */
  lemma {:induction false} MeasuresAreSums(rows: seq<Row>, c: Cell)
    requires FromSource(rows)
    ensures Get(Tally(rows), c)
            == Measures(SumOf(rows, SessionsIn(c)), SumOf(rows, ViewsIn(c)), SumOf(rows, CheckoutsIn(c)), SumOf(rows, OrdersIn(c)), SumOf(rows, GrossIn(c)))
    ensures c in Tally(rows) <==> exists i :: 0 <= i < |rows| && CountsIn(rows[i], c) && !(rows[i].Events? && rows[i].kind == SessionStart)
    decreases |rows|
  {
    hide AddRow, Get, Given, Touches, CountsIn, SessionsIn, ViewsIn, CheckoutsIn, OrdersIn, GrossIn;
    if rows == [] {
      NothingInEmptyTable(c);
    } else {
      var n := |rows| - 1;
      MeasuresAreSums(rows[..n], c);
      AddRowGives(Tally(rows[..n]), rows[n], c);
      GivenCounts(rows[n], c);
      assert forall i :: 0 <= i < n ==> rows[..n][i] == rows[i];
    }
  }

  lemma NothingInEmptyTable(c: Cell)
    ensures Get(map[], c) == ZERO
  {
  }

  function Sum8(a: Measures, b: Measures, c: Measures, d: Measures, e: Measures, f: Measures, g: Measures, h: Measures): Measures {
    Plus(Plus(Plus(a, b), Plus(c, d)), Plus(Plus(e, f), Plus(g, h)))
  }

  lemma Sum8OfSums(a: seq<Measures>, b: seq<Measures>)
    requires |a| == 8 && |b| == 8
    ensures Sum8(Plus(a[0], b[0]), Plus(a[1], b[1]), Plus(a[2], b[2]), Plus(a[3], b[3]),
                 Plus(a[4], b[4]), Plus(a[5], b[5]), Plus(a[6], b[6]), Plus(a[7], b[7]))
         == Plus(Sum8(a[0], a[1], a[2], a[3], a[4], a[5], a[6], a[7]), Sum8(b[0], b[1], b[2], b[3], b[4], b[5], b[6], b[7]))
  {
  }

  function Day(day: int, channel: Channel): Cell {
    Cell(day, channel, NoProduct)
  }

  function GivenOverChannels(r: Row, day: int): Measures {
    Sum8(Given(r, Day(day, Direct)), Given(r, Day(day, Organic)), Given(r, Day(day, Referral)), Given(r, Day(day, Utm)),
         Given(r, Day(day, Social)), Given(r, Day(day, Email)), Given(r, Day(day, Paid)), Given(r, Day(day, Other)))
  }

  function TotalOverChannels(rows: seq<Row>, day: int): Measures {
    Sum8(Total(rows, Day(day, Direct)), Total(rows, Day(day, Organic)), Total(rows, Day(day, Referral)), Total(rows, Day(day, Utm)),
         Total(rows, Day(day, Social)), Total(rows, Day(day, Email)), Total(rows, Day(day, Paid)), Total(rows, Day(day, Other)))
  }

  function TableOverChannels(t: Table, day: int): Measures {
    Sum8(Get(t, Day(day, Direct)), Get(t, Day(day, Organic)), Get(t, Day(day, Referral)), Get(t, Day(day, Utm)),
         Get(t, Day(day, Social)), Get(t, Day(day, Email)), Get(t, Day(day, Paid)), Get(t, Day(day, Other)))
  }

  lemma RowCountsOnceOverChannels(r: Row, day: int)
    requires !r.channel.All?
    ensures Given(r, Day(day, All)) == GivenOverChannels(r, day)
  {
    var w := Worth(r);
    hide Worth;
  }

  lemma TotalStep(rows: seq<Row>, c: Cell)
    requires rows != []
    ensures Total(rows, c) == Plus(Total(rows[..|rows| - 1], c), Given(rows[|rows| - 1], c))
  {
  }

  lemma NothingOverChannels()
    ensures Sum8(ZERO, ZERO, ZERO, ZERO, ZERO, ZERO, ZERO, ZERO) == ZERO
  {
  }

  lemma {:induction false} TotalsAddUpOverChannels(rows: seq<Row>, day: int)
    requires FromSource(rows)
    ensures Total(rows, Day(day, All)) == TotalOverChannels(rows, day)
    decreases |rows|
  {
    hide Given, Day, Plus, Sum8;
    if rows == [] {
      NothingOverChannels();
    } else {
      var n := |rows| - 1;
      TotalsAddUpOverChannels(rows[..n], day);
      RowCountsOnceOverChannels(rows[n], day);
      var t, r := rows[..n], rows[n];
      Sum8OfSums([Total(t, Day(day, Direct)), Total(t, Day(day, Organic)), Total(t, Day(day, Referral)), Total(t, Day(day, Utm)),
                  Total(t, Day(day, Social)), Total(t, Day(day, Email)), Total(t, Day(day, Paid)), Total(t, Day(day, Other))],
                 [Given(r, Day(day, Direct)), Given(r, Day(day, Organic)), Given(r, Day(day, Referral)), Given(r, Day(day, Utm)),
                  Given(r, Day(day, Social)), Given(r, Day(day, Email)), Given(r, Day(day, Paid)), Given(r, Day(day, Other))]);
      TotalStep(rows, Day(day, All));
      TotalStep(rows, Day(day, Direct));
      TotalStep(rows, Day(day, Organic));
      TotalStep(rows, Day(day, Referral));
      TotalStep(rows, Day(day, Utm));
      TotalStep(rows, Day(day, Social));
      TotalStep(rows, Day(day, Email));
      TotalStep(rows, Day(day, Paid));
      TotalStep(rows, Day(day, Other));
    }
  }

  /** On each day the row of all channels is the sum of the channel rows, in all five measures. */
  lemma AllIsTheSumOfChannels(rows: seq<Row>, day: int)
    requires FromSource(rows)
    ensures Get(Tally(rows), Day(day, All)) == TableOverChannels(Tally(rows), day)
  {
    TotalsAddUpOverChannels(rows, day);
    hide Total, Tally, Get, Touches;
    forall c
      ensures Get(Tally(rows), Day(day, c)) == Total(rows, Day(day, c))
    {
      TallyIsTotal(rows, Day(day, c));
    }
  }

  // ---------------------------------------------------------------------------
  // Products
  // ---------------------------------------------------------------------------

  predicate NonNegative(rows: seq<Row>) {
    forall i :: 0 <= i < |rows| ==> rows[i].Conversions? ==> rows[i].orders >= 0 && rows[i].gross >= 0
  }

  predicate Products(names: seq<Product>) {
    (forall i :: 0 <= i < |names| ==> names[i].Product?) && forall i, j :: 0 <= i < j < |names| ==> names[i] != names[j]
  }

  function OverProducts(rows: seq<Row>, day: int, names: seq<Product>): Measures {
    if names == [] then ZERO
    else Plus(OverProducts(rows, day, names[..|names| - 1]), Total(rows, Cell(day, All, names[|names| - 1])))
  }

  function GivenOver(r: Row, day: int, names: seq<Product>): Measures {
    if names == [] then ZERO
    else Plus(GivenOver(r, day, names[..|names| - 1]), Given(r, Cell(day, All, names[|names| - 1])))
  }

  lemma {:induction false} OverProductsAddsRows(rows: seq<Row>, r: Row, day: int, names: seq<Product>)
    ensures OverProducts(rows + [r], day, names) == Plus(OverProducts(rows, day, names), GivenOver(r, day, names))
    decreases |names|
  {
    hide Plus, Given, Total;
    if names == [] {
      PlusRegroups(ZERO, ZERO, ZERO, ZERO);
    } else {
      var front, c := names[..|names| - 1], Cell(day, All, names[|names| - 1]);
      OverProductsAddsRows(rows, r, day, front);
      TotalStep(rows + [r], c);
      assert (rows + [r])[..|rows|] == rows;
      PlusRegroups(OverProducts(rows, day, front), GivenOver(r, day, front), Total(rows, c), Given(r, c));
    }
  }

  predicate CountsFor(r: Row, day: int, names: seq<Product>) {
    r.Conversions? && r.day == day && r.product in names
  }

  /** A conversion counts for one product at most. */
  lemma {:induction false} RowCountsForOneProduct(r: Row, day: int, names: seq<Product>)
    requires Products(names)
    ensures GivenOver(r, day, names) == if CountsFor(r, day, names) then Worth(r) else ZERO
    decreases |names|
  {
    hide Plus, Worth;
    if names != [] {
      var n := |names| - 1;
      RowCountsForOneProduct(r, day, names[..n]);
      assert names == names[..n] + [names[n]];
      PlusRegroups(Worth(r), ZERO, ZERO, ZERO);
      PlusRegroups(ZERO, ZERO, ZERO, ZERO);
    }
  }

  lemma ProductsGetAtMostTheRow(r: Row, day: int, names: seq<Product>)
    requires Products(names) && (r.Conversions? ==> r.orders >= 0 && r.gross >= 0)
    ensures GivenOver(r, day, names).orders <= Given(r, Day(day, All)).orders
    ensures GivenOver(r, day, names).gross <= Given(r, Day(day, All)).gross
  {
    RowCountsForOneProduct(r, day, names);
    hide GivenOver;
  }

  lemma {:induction false} OverProductsOfNothing(day: int, names: seq<Product>)
    ensures OverProducts([], day, names) == ZERO
    decreases |names|
  {
    if names != [] {
      OverProductsOfNothing(day, names[..|names| - 1]);
    }
  }

  /** The product rows of a day never add up to more than the day: conversions without a product are
      in the day alone. */
  lemma {:induction false} ProductsAddUpToAtMostTheDay(rows: seq<Row>, day: int, names: seq<Product>)
    requires FromSource(rows) && NonNegative(rows) && Products(names)
    ensures OverProducts(rows, day, names).orders <= Total(rows, Day(day, All)).orders
    ensures OverProducts(rows, day, names).gross <= Total(rows, Day(day, All)).gross
    decreases |rows|
  {
    hide OverProducts, GivenOver, Given, Products, Day;
    if rows == [] {
      OverProductsOfNothing(day, names);
    } else {
      var n := |rows| - 1;
      ProductsAddUpToAtMostTheDay(rows[..n], day, names);
      OverProductsAddsRows(rows[..n], rows[n], day, names);
      ProductsGetAtMostTheRow(rows[n], day, names);
      TotalStep(rows, Day(day, All));
      assert rows == rows[..n] + [rows[n]];
    }
  }

  // ---------------------------------------------------------------------------
  // Order of the source rows
  // ---------------------------------------------------------------------------

  function Without(rows: seq<Row>, i: nat): seq<Row>
    requires i < |rows|
  {
    rows[..i] + rows[i + 1..]
  }

  lemma {:induction false} TotalWithout(rows: seq<Row>, i: nat, c: Cell)
    requires i < |rows|
    ensures Total(rows, c) == Plus(Total(Without(rows, i), c), Given(rows[i], c))
    decreases |rows|
  {
    var n := |rows| - 1;
    if i == n {
      assert Without(rows, i) == rows[..n];
    } else {
      TotalWithout(rows[..n], i, c);
      assert Without(rows, i)[..n - 1] == Without(rows[..n], i);
      assert Without(rows, i)[n - 1] == rows[n];
    }
  }

  lemma {:induction false} TotalIgnoresOrder(a: seq<Row>, b: seq<Row>, c: Cell)
    requires multiset(a) == multiset(b)
    ensures Total(a, c) == Total(b, c)
    decreases |a|
  {
    if a == [] {
      assert |multiset(b)| == 0;
    } else {
      var n := |a| - 1;
      assert a == a[..n] + [a[n]];
      assert a[n] in multiset(b);
      var j :| 0 <= j < |b| && b[j] == a[n];
      assert b == b[..j] + [b[j]] + b[j + 1..];
      assert multiset(Without(b, j)) == multiset(b) - multiset{b[j]};
      TotalIgnoresOrder(a[..n], Without(b, j), c);
      TotalWithout(b, j, c);
    }
  }

  /** The same source rows in another order give the same table. */
  lemma TableIgnoresOrder(a: seq<Row>, b: seq<Row>)
    requires FromSource(a) && multiset(a) == multiset(b)
    ensures Tally(a) == Tally(b)
  {
    forall i | 0 <= i < |b|
      ensures b[i] in a
    {
      assert b[i] in multiset(b);
    }
    forall i | 0 <= i < |a|
      ensures a[i] in b
    {
      assert a[i] in multiset(a);
    }
    forall c
      ensures c in Tally(a) <==> c in Tally(b)
      ensures Get(Tally(a), c) == Get(Tally(b), c)
    {
      TallyIsTotal(a, c);
      TallyIsTotal(b, c);
      TotalIgnoresOrder(a, b, c);
    }
  }

  // ---------------------------------------------------------------------------
  // The rebuild
  // ---------------------------------------------------------------------------

  predicate InRange(rows: seq<Row>, from: int, to: int) {
    forall i :: 0 <= i < |rows| ==> from <= rows[i].day <= to
  }

  function OutsideRange(t: Table, from: int, to: int): Table {
    map c | c in t && !(from <= c.day <= to) :: t[c]
  }

  /** Delete the range, then put the accumulated rows. */
  function Rebuilt(t: Table, from: int, to: int, rows: seq<Row>): Table {
    OutsideRange(t, from, to) + Tally(rows)
  }

  lemma TallyStaysInRange(rows: seq<Row>, from: int, to: int)
    requires FromSource(rows) && InRange(rows, from, to)
    ensures forall c :: c in Tally(rows) ==> from <= c.day <= to
  {
    forall c | c in Tally(rows)
      ensures from <= c.day <= to
    {
      TallyIsTotal(rows, c);
    }
  }

  /** A second rebuild from the same rows, in any order, leaves the same table; other days are untouched. */
  lemma RebuildingTwiceIsOnce(t: Table, from: int, to: int, rows: seq<Row>, again: seq<Row>)
    requires FromSource(rows) && InRange(rows, from, to) && multiset(again) == multiset(rows)
    ensures Rebuilt(Rebuilt(t, from, to, rows), from, to, again) == Rebuilt(t, from, to, rows)
    ensures forall c: Cell :: !(from <= c.day <= to) ==> (c in Rebuilt(t, from, to, rows) <==> c in t)
    ensures forall c: Cell :: !(from <= c.day <= to) ==> Get(Rebuilt(t, from, to, rows), c) == Get(t, c)
  {
    TallyStaysInRange(rows, from, to);
    TableIgnoresOrder(rows, again);
    var once := Rebuilt(t, from, to, rows);
    assert OutsideRange(once, from, to) == OutsideRange(t, from, to);
  }

  class DailyTable {
    var daily: Table

    constructor ()
      ensures daily == map[]
    {
      daily := map[];
    }

    /** Days are whole days; a range runs forward and covers a year at most. */
    method RebuildDailyAggregates(from: int, to: int, sessions: seq<Row>, events: seq<Row>, conversions: seq<Row>) returns (ok: bool)
      requires forall i :: 0 <= i < |sessions| ==> sessions[i].Sessions?
      requires forall i :: 0 <= i < |events| ==> events[i].Events?
      requires forall i :: 0 <= i < |conversions| ==> conversions[i].Conversions?
      modifies this
      ensures ok <==> from <= to <= from + 366
      ensures daily == if ok then Rebuilt(old(daily), from, to, sessions + events + conversions) else old(daily)
    {
      hide Tally, AddRow, Bump, OutsideRange;
      if to < from || to - from > 366 {
        return false;
      }
      daily := OutsideRange(daily, from, to);
      ghost var base := daily;
      var m: Table := map[];
      NothingTallied();
      var k := 0;
      while k < |sessions|
        invariant 0 <= k <= |sessions| && daily == base && m == Tally(sessions[..k])
      {
        TallyTakes(sessions, k);
        m := AddSessions(m, sessions[k]);
        k := k + 1;
      }
      var two := sessions + events;
      assert sessions[..k] == two[..|sessions|];
      k := 0;
      while k < |events|
        invariant 0 <= k <= |events| && daily == base && m == Tally(two[..|sessions| + k])
      {
        TallyTakes(two, |sessions| + k);
        m := AddEvents(m, events[k]);
        k := k + 1;
      }
      var all := two + conversions;
      assert two[..|sessions| + k] == all[..|two|];
      k := 0;
      while k < |conversions|
        invariant 0 <= k <= |conversions| && daily == base && m == Tally(all[..|two| + k])
      {
        TallyTakes(all, |two| + k);
        m := AddConversion(m, conversions[k]);
        k := k + 1;
      }
      assert all[..|two| + k] == sessions + events + conversions;
      UpsertAll(m);
      return true;
    }

    method AddSessions(before: Table, r: Row) returns (m: Table)
      requires r.Sessions?
      ensures m == AddRow(before, r)
    {
      hide Bump;
      m := Bump(before, Cell(r.day, r.channel, NoProduct), ZERO.(sessions := r.count));
      m := Bump(m, Cell(r.day, All, NoProduct), ZERO.(sessions := r.count));
    }

    method AddEvents(before: Table, r: Row) returns (m: Table)
      requires r.Events?
      ensures m == AddRow(before, r)
    {
      hide Bump;
      m := before;
      match r.kind {
        case CheckoutStart =>
          m := Bump(m, Cell(r.day, r.channel, NoProduct), ZERO.(checkouts := r.count));
          m := Bump(m, Cell(r.day, All, NoProduct), ZERO.(checkouts := r.count));
        case SessionStart =>
        case _ =>
          m := Bump(m, Cell(r.day, r.channel, NoProduct), ZERO.(pageViews := r.count));
          m := Bump(m, Cell(r.day, All, NoProduct), ZERO.(pageViews := r.count));
      }
    }

    /** Orders, then gross, of the channel, of all channels and of the product. */
    method AddConversion(before: Table, r: Row) returns (m: Table)
      requires r.Conversions?
      ensures m == AddRow(before, r)
    {
      var channel, all := Cell(r.day, r.channel, NoProduct), Cell(r.day, All, NoProduct);
      m := Bump(before, channel, ZERO.(orders := r.orders));
      m := Bump(m, channel, ZERO.(gross := r.gross));
      BumpTwice(before, channel, r.orders, r.gross);
      ghost var one := m;
      m := Bump(m, all, ZERO.(orders := r.orders));
      m := Bump(m, all, ZERO.(gross := r.gross));
      BumpTwice(one, all, r.orders, r.gross);
      if r.product.Product? {
        ghost var two := m;
        m := Bump(m, Cell(r.day, All, r.product), ZERO.(orders := r.orders));
        m := Bump(m, Cell(r.day, All, r.product), ZERO.(gross := r.gross));
        BumpTwice(two, Cell(r.day, All, r.product), r.orders, r.gross);
      }
      hide Bump;
    }

    /** The accumulators are written in whatever order the map gives them. */
    method UpsertAll(m: Table)
      modifies this
      ensures daily == old(daily) + m
    {
      var left := m.Keys;
      while left != {}
        invariant left <= m.Keys
        invariant forall c :: c in daily <==> c in old(daily) || (c in m && c !in left)
        invariant forall c :: c in daily ==> daily[c] == if c in m && c !in left then m[c] else old(daily)[c]
        decreases |left|
      {
        var c :| c in left;
        daily := daily[c := m[c]];
        left := left - {c};
      }
    }
  }

  lemma BumpTwice(t: Table, c: Cell, orders: int, gross: int)
    ensures Bump(Bump(t, c, ZERO.(orders := orders)), c, ZERO.(gross := gross)) == Bump(t, c, ZERO.(orders := orders, gross := gross))
  {
  }

  lemma NothingTallied()
    ensures Tally([]) == map[]
  {
  }

  lemma TallyTakes(rows: seq<Row>, k: nat)
    requires k < |rows|
    ensures Tally(rows[..k + 1]) == AddRow(Tally(rows[..k]), rows[k])
  {
    assert rows[..k + 1][..k] == rows[..k];
  }
}
