/** Stock over whole runs from the empty pool: what each status means in terms of the steps. */
module StockRuns {
  import opened Options
  import opened Holds
  import opened StockPool

  /** Some step of the run is such a step, in the pool it meets. */
  predicate Sometime(steps: seq<Step>, q: (Pool, Step) -> bool) {
    exists n :: 0 <= n < |steps| && q(Run(EMPTY, steps[..n]), steps[n])
  }

  lemma {:induction false} RunSplits(p: Pool, s: seq<Step>, t: seq<Step>)
    ensures Run(p, s + t) == Run(Run(p, s), t)
    decreases |s|
  {
    hide Apply;
    if s == [] {
      assert s + t == t;
    } else {
      assert (s + t)[1..] == s[1..] + t;
      RunSplits(Apply(p, s[0]), s[1..], t);
    }
  }

  lemma LastStep(steps: seq<Step>)
    requires steps != []
    ensures Run(EMPTY, steps) == Apply(Run(EMPTY, steps[..|steps| - 1]), steps[|steps| - 1])
  {
    hide Apply;
    var last := |steps| - 1;
    var p := Run(EMPTY, steps[..last]);
    RunSplits(EMPTY, steps[..last], [steps[last]]);
    assert steps == steps[..last] + [steps[last]] && [steps[last]][1..] == [];
    assert Run(p, [steps[last]]) == Run(Apply(p, steps[last]), []) == Apply(p, steps[last]);
  }

  lemma SometimeGrows(steps: seq<Step>, q: (Pool, Step) -> bool)
    requires steps != []
    ensures var last := |steps| - 1;
            Sometime(steps, q) <==> Sometime(steps[..last], q) || q(Run(EMPTY, steps[..last]), steps[last])
  {
    var last := |steps| - 1;
    var before := steps[..last];
    hide Run;
    assert forall n :: 0 <= n < last ==> before[..n] == steps[..n] && before[n] == steps[n];
    if Sometime(before, q) {
      var n :| 0 <= n < |before| && q(Run(EMPTY, before[..n]), before[n]);
      assert q(Run(EMPTY, steps[..n]), steps[n]);
    }
  }

  lemma EmptyIsOk()
    ensures PoolOk(EMPTY)
  {
  }

  // ---------------------------------------------------------------------------
  // Revoked units
  // ---------------------------------------------------------------------------

  predicate IsRevoked(p: Pool, u: UnitId) {
    u in p.units && p.units[u].status.Revoked?
  }

  /** A seller's revoke finds the unit as it was read, and not delivered. */
  predicate Revokes(p: Pool, s: Step, u: UnitId) {
    s.DoRevoke? && s.unit == u && u in p.units && p.units[u].status == s.from && (s.from.Available? || s.from.Reserved?)
  }

  function Revoking(u: UnitId): (Pool, Step) -> bool {
    (p: Pool, s: Step) => Revokes(p, s, u)
  }

  lemma ReleaseRevokesNothing(p: Pool, r: ReservationId, u: UnitId)
    ensures IsRevoked(Release(p, r), u) <==> IsRevoked(p, u)
  {
  }

  lemma {:induction false} ExpiryRevokesNothing(p: Pool, listed: seq<ReservationId>, u: UnitId)
    ensures IsRevoked(Expire(p, listed), u) <==> IsRevoked(p, u)
    decreases |listed|
  {
    if listed != [] {
      ReleaseRevokesNothing(p, listed[0], u);
      hide Release, IsRevoked;
      ExpiryRevokesNothing(if listed[0] in p.reservations && p.reservations[listed[0]].state.Claimed? then Release(p, listed[0]) else p, listed[1..], u);
    }
  }

  lemma {:induction false} ImportRevokesNothing(p: Pool, product: string, rows: seq<ImportRow>, u: UnitId)
    ensures Inserted(p, product, rows).Some? ==> (IsRevoked(Inserted(p, product, rows).value, u) <==> IsRevoked(p, u))
    decreases |rows|
  {
    if rows != [] && !Clashes(p.units, product, rows[0]) {
      var e := p.(units := p.units[rows[0].id := Unit(product, rows[0].uniqueKey, Available)], line := p.line + [rows[0].id]);
      ImportRevokesNothing(e, product, rows[1..], u);
    }
  }

  lemma ReserveRevokesNothing(p: Pool, r: ReservationId, product: string, key: string, order: Option<string>, locked: set<UnitId>, u: UnitId)
    ensures IsRevoked(Reserve(p, r, product, key, order, locked), u) <==> IsRevoked(p, u)
  {
    hide FirstFree;
  }

  lemma AllocateRevokesNothing(p: Pool, r: ReservationId, u: UnitId)
    ensures IsRevoked(Allocate(p, r), u) <==> IsRevoked(p, u)
  {
  }

  lemma StepRevokesExactly(p: Pool, s: Step, u: UnitId)
    ensures IsRevoked(Apply(p, s), u) <==> IsRevoked(p, u) || Revokes(p, s, u)
  {
    hide Inserted, Reserve, Release, Allocate, Expire;
    match s
    case DoImport(product, rows) => ImportRevokesNothing(p, product, rows, u);
    case DoReserve(r, product, key, order, locked) => ReserveRevokesNothing(p, r, product, key, order, locked, u);
    case DoRelease(r) => ReleaseRevokesNothing(p, r, u);
    case DoAllocate(r) => AllocateRevokesNothing(p, r, u);
    case DoExpire(listed) => ExpiryRevokesNothing(p, listed, u);
    case DoRevoke(v, from) =>
  }

  lemma {:induction false} RevokedExactly(steps: seq<Step>, u: UnitId)
    ensures IsRevoked(Run(EMPTY, steps), u) <==> Sometime(steps, Revoking(u))
    decreases |steps|
  {
    if steps == [] {
      assert Run(EMPTY, steps) == EMPTY;
    } else {
      var last := |steps| - 1;
      LastStep(steps);
      StepRevokesExactly(Run(EMPTY, steps[..last]), steps[last], u);
      RevokedExactly(steps[..last], u);
      SometimeGrows(steps, Revoking(u));
      hide Run, Apply, IsRevoked, Revokes, Sometime;
    }
  }

  // ---------------------------------------------------------------------------
  // Returned and delivered reservations
  // ---------------------------------------------------------------------------

  predicate InState(p: Pool, r: ReservationId, state: StockHold) {
    r in p.reservations && p.reservations[r].state == state
  }

  predicate IsLive(p: Pool, r: ReservationId) {
    InState(p, r, Claimed) || InState(p, r, ClaimedUnknown)
  }

  /** A release of the live reservation, or an expiry that lists it while it is claimed. */
  predicate Returns(p: Pool, s: Step, r: ReservationId) {
    (s.DoRelease? && s.id == r && IsLive(p, r)) || (s.DoExpire? && r in s.listed && InState(p, r, Claimed))
  }

  /** A delivery of the live reservation, whose unit is not revoked and whose order has none of the product. */
  predicate Delivers(p: Pool, s: Step, r: ReservationId) {
    && s.DoAllocate? && s.id == r && IsLive(p, r) && !IsRevoked(p, p.reservations[r].unit)
    && !(p.reservations[r].order.Some? && HasDelivery(p, p.reservations[r].order, p.reservations[r].product))
  }

  predicate HasDelivery(p: Pool, order: Option<string>, product: string) {
    exists x :: x in p.reservations && p.reservations[x].order == order && p.reservations[x].product == product
                && p.reservations[x].state.Delivered?
  }

  ghost function Returning(r: ReservationId): (Pool, Step) -> bool {
    (p: Pool, s: Step) => Returns(p, s, r)
  }

  ghost function Delivering(r: ReservationId): (Pool, Step) -> bool {
    (p: Pool, s: Step) => Delivers(p, s, r)
  }

  lemma ReleaseReturnsExactly(p: Pool, x: ReservationId, r: ReservationId)
    requires PoolOk(p)
    ensures InState(Release(p, x), r, Returned) <==> InState(p, r, Returned) || (x == r && IsLive(p, r))
    ensures InState(Release(p, x), r, StockHold.Delivered) <==> InState(p, r, StockHold.Delivered)
    ensures InState(Release(p, x), r, Claimed) <==> InState(p, r, Claimed) && x != r
  {
    hide IndexesOk, UnitsOk, KeysOk;
  }

  lemma {:induction false} ExpiryReturnsExactly(p: Pool, listed: seq<ReservationId>, r: ReservationId)
    requires PoolOk(p)
    ensures InState(Expire(p, listed), r, Returned) <==> InState(p, r, Returned) || (r in listed && InState(p, r, Claimed))
    ensures InState(Expire(p, listed), r, StockHold.Delivered) <==> InState(p, r, StockHold.Delivered)
    decreases |listed|
  {
    if listed != [] {
      ReleaseReturnsExactly(p, listed[0], r);
      ReleaseKeepsPool(p, listed[0]);
      var e := if listed[0] in p.reservations && p.reservations[listed[0]].state.Claimed? then Release(p, listed[0]) else p;
      assert r in listed <==> r == listed[0] || r in listed[1..];
      hide Release, PoolOk;
      ExpiryReturnsExactly(e, listed[1..], r);
    }
  }

  lemma AllocateDeliversExactly(p: Pool, x: ReservationId, r: ReservationId)
    requires PoolOk(p)
    ensures InState(Allocate(p, x), r, StockHold.Delivered) <==> InState(p, r, StockHold.Delivered) || Delivers(p, DoAllocate(x), r)
    ensures InState(Allocate(p, x), r, Returned) <==> InState(p, r, Returned)
  {
    if IsLive(p, x) {
      var row := p.reservations[x];
      LiveUnitIsHeldOrRevoked(p, x);
      DeliveryIsTakenByARow(p, row);
    }
    hide PoolOk, DeliveryTaken;
  }

  lemma LiveUnitIsHeldOrRevoked(p: Pool, r: ReservationId)
    requires PoolOk(p) && IsLive(p, r)
    ensures p.reservations[r].unit in p.units && Live(p, r)
    ensures p.units[p.reservations[r].unit].status.Reserved? || p.units[p.reservations[r].unit].status.Revoked?
  {
    assert UnitOk(p, p.reservations[r].unit);
  }

  lemma DeliveryIsTakenByARow(p: Pool, row: Reservation)
    requires PoolOk(p)
    ensures DeliveryTaken(p, row) <==> (row.order.Some? && HasDelivery(p, row.order, row.product))
  {
    if DeliveryTaken(p, row) {
      DeliveredIndexNamesItsRow(p, row.product, row.order.value);
    }
  }

  lemma DeliveredIndexNamesItsRow(p: Pool, product: string, order: string)
    requires PoolOk(p) && Slot(product, order) in p.delivered
    ensures var x := p.delivered[Slot(product, order)];
            x in p.reservations && p.reservations[x].order == Some(order) && p.reservations[x].product == product && p.reservations[x].state.Delivered?
  {
  }

  lemma StepReturnsExactly(p: Pool, s: Step, r: ReservationId)
    requires PoolOk(p)
    ensures InState(Apply(p, s), r, Returned) <==> InState(p, r, Returned) || Returns(p, s, r)
    ensures InState(Apply(p, s), r, StockHold.Delivered) <==> InState(p, r, StockHold.Delivered) || Delivers(p, s, r)
  {
    hide PoolOk, Inserted, Reserve, Release, Allocate, Expire, Revoke, Delivers;
    OnlyDeliveriesDeliver(p, s, r);
    match s
    case DoImport(product, rows) => ImportLeavesReservations(p, product, rows);
    case DoReserve(x, product, key, order, locked) => ReserveLeavesStates(p, x, product, key, order, locked, r);
    case DoRelease(x) => ReleaseReturnsExactly(p, x, r);
    case DoAllocate(x) => AllocateDeliversExactly(p, x, r);
    case DoExpire(listed) => ExpiryReturnsExactly(p, listed, r);
    case DoRevoke(v, from) => RevokeLeavesReservations(p, v, from);
  }

  lemma OnlyDeliveriesDeliver(p: Pool, s: Step, r: ReservationId)
    ensures Delivers(p, s, r) ==> s.DoAllocate? && s.id == r
  {
  }

  lemma {:induction false} ImportLeavesReservations(p: Pool, product: string, rows: seq<ImportRow>)
    ensures Inserted(p, product, rows).Some? ==> Inserted(p, product, rows).value.reservations == p.reservations
    decreases |rows|
  {
    if rows != [] && !Clashes(p.units, product, rows[0]) {
      var e := p.(units := p.units[rows[0].id := Unit(product, rows[0].uniqueKey, Available)], line := p.line + [rows[0].id]);
      ImportLeavesReservations(e, product, rows[1..]);
    }
  }

  lemma RevokeLeavesReservations(p: Pool, u: UnitId, from: Status)
    ensures Revoke(p, u, from).reservations == p.reservations
  {
  }

  lemma ReserveLeavesStates(p: Pool, x: ReservationId, product: string, key: string, order: Option<string>, locked: set<UnitId>, r: ReservationId)
    ensures var e := Reserve(p, x, product, key, order, locked);
            (InState(e, r, Returned) <==> InState(p, r, Returned)) && (InState(e, r, StockHold.Delivered) <==> InState(p, r, StockHold.Delivered))
  {
    hide Reserving;
  }

  /** After any run a reservation is given back exactly when some step of the run released it alive or expired it
      while claimed, and delivered exactly when some step delivered it. */
  lemma {:induction false} EndsExactly(steps: seq<Step>, r: ReservationId)
    ensures InState(Run(EMPTY, steps), r, Returned) <==> Sometime(steps, Returning(r))
    ensures InState(Run(EMPTY, steps), r, StockHold.Delivered) <==> Sometime(steps, Delivering(r))
    decreases |steps|
  {
    if steps == [] {
      assert Run(EMPTY, steps) == EMPTY;
    } else {
      var last := |steps| - 1;
      EmptyIsOk();
      RunKeepsPool(EMPTY, steps[..last]);
      LastStep(steps);
      StepReturnsExactly(Run(EMPTY, steps[..last]), steps[last], r);
      EndsExactly(steps[..last], r);
      SometimeGrows(steps, Returning(r));
      SometimeGrows(steps, Delivering(r));
      hide Run, Apply, InState, Returns, Delivers, Sometime, PoolOk;
    }
  }

  // ---------------------------------------------------------------------------
  // What the statuses mean
  // ---------------------------------------------------------------------------

  predicate HeldIn(p: Pool, u: UnitId, state: StockHold) {
    exists r :: r in p.reservations && p.reservations[r].unit == u && p.reservations[r].state == state
  }

  /** In every reachable pool: a unit is REVOKED exactly when some step revoked it, DELIVERED exactly when a reservation
      of it was delivered, RESERVED exactly when it is not revoked and has a live one, and AVAILABLE otherwise. */
  lemma UnitsAreWhatHappenedToThem(steps: seq<Step>, u: UnitId)
    requires u in Run(EMPTY, steps).units
    ensures var p := Run(EMPTY, steps); var revoked := Sometime(steps, Revoking(u)); var live := HeldIn(p, u, Claimed) || HeldIn(p, u, ClaimedUnknown);
      && (p.units[u].status.Revoked? <==> revoked)
      && (p.units[u].status.Delivered? <==> HeldIn(p, u, StockHold.Delivered))
      && (p.units[u].status.Reserved? <==> !revoked && live)
      && (p.units[u].status.Available? <==> !revoked && !live && !HeldIn(p, u, StockHold.Delivered))
  {
    hide Run, Sometime, PoolOk;
    EmptyIsOk();
    RunKeepsPool(EMPTY, steps);
    RevokedExactly(steps, u);
    HeldAsTheStatusSays(Run(EMPTY, steps), u);
  }

  lemma HeldAsTheStatusSays(p: Pool, u: UnitId)
    requires PoolOk(p) && u in p.units
    ensures var live := HeldIn(p, u, Claimed) || HeldIn(p, u, ClaimedUnknown); var done := HeldIn(p, u, StockHold.Delivered);
      match p.units[u].status
      case Available => !live && !done
      case Reserved => live && !done
      case Delivered => done && !live
      case Revoked => !done
  {
    assert UnitOk(p, u);
    hide KeysOk;
    HoldersAreActive(p, u);
    hide PoolOk, RowsOk, IndexesOk, UnitsOk;
  }

  lemma HoldersAreActive(p: Pool, u: UnitId)
    requires RowsOk(p) && IndexesOk(p)
    ensures forall r :: r in p.reservations && p.reservations[r].unit == u && !p.reservations[r].state.Returned? ==> u in p.holder && p.holder[u] == r
    ensures u in p.holder ==> p.holder[u] in p.reservations && p.reservations[p.holder[u]].unit == u && !p.reservations[p.holder[u]].state.Returned?
  {
  }

  // ---------------------------------------------------------------------------
  // Who gets a unit
  // ---------------------------------------------------------------------------

  /** Every unit has its place in line. */
  ghost predicate Lined(p: Pool) {
    forall u :: u in p.units ==> u in p.line
  }

  lemma {:induction false} ImportLines(p: Pool, product: string, rows: seq<ImportRow>)
    requires Lined(p)
    ensures Inserted(p, product, rows).Some? ==> Lined(Inserted(p, product, rows).value)
    decreases |rows|
  {
    if rows != [] && !Clashes(p.units, product, rows[0]) {
      var e := p.(units := p.units[rows[0].id := Unit(product, rows[0].uniqueKey, Available)], line := p.line + [rows[0].id]);
      ImportLines(e, product, rows[1..]);
    }
  }

  lemma {:induction false} ExpiryLines(p: Pool, listed: seq<ReservationId>)
    ensures Expire(p, listed).units.Keys == p.units.Keys && Expire(p, listed).line == p.line
    decreases |listed|
  {
    if listed != [] {
      ExpiryLines(if listed[0] in p.reservations && p.reservations[listed[0]].state.Claimed? then Release(p, listed[0]) else p, listed[1..]);
    }
  }

  lemma StepLines(p: Pool, s: Step)
    requires Lined(p)
    ensures Lined(Apply(p, s))
  {
    hide FirstFree, Inserted, Expire;
    match s
    case DoImport(product, rows) => ImportLines(p, product, rows);
    case DoExpire(listed) => ExpiryLines(p, listed);
    case _ =>
  }

  lemma {:induction false} RunLines(p: Pool, steps: seq<Step>)
    requires Lined(p)
    ensures Lined(Run(p, steps))
    decreases |steps|
  {
    if steps != [] {
      StepLines(p, steps[0]);
      hide Apply, Lined;
      RunLines(Apply(p, steps[0]), steps[1..]);
    }
  }

  predicate OnSale(p: Pool, product: string, locked: set<UnitId>, u: UnitId) {
    u in p.units && p.units[u].product == product && p.units[u].status.Available? && u !in locked
  }

  /** A reservation is replayed exactly under a key that one was made with, granted exactly when under a new key the
      product has an available unit that is not locked, and then the unit is such a one. */
  lemma GrantedExactly(steps: seq<Step>, product: string, key: string, locked: set<UnitId>)
    ensures var p := Run(EMPTY, steps); var o := Reserving(p, product, key, locked);
      && (o.Replayed? <==> KeyUsed(p, product, key))
      && (o.Replayed? ==> o.existing in p.reservations && p.reservations[o.existing].product == product && p.reservations[o.existing].key == key)
      && (o.Granted? <==> !o.Replayed? && exists u :: OnSale(p, product, locked, u))
      && (o.Granted? ==> OnSale(p, product, locked, o.unit))
  {
    hide Run;
    EmptyIsOk();
    RunKeepsPool(EMPTY, steps);
    RunLines(EMPTY, steps);
    GrantedInLine(Run(EMPTY, steps), product, key, locked);
  }

  lemma GrantedInLine(p: Pool, product: string, key: string, locked: set<UnitId>)
    requires PoolOk(p) && Lined(p)
    ensures var o := Reserving(p, product, key, locked);
      && (o.Replayed? <==> KeyUsed(p, product, key))
      && (o.Replayed? ==> o.existing in p.reservations && p.reservations[o.existing].product == product && p.reservations[o.existing].key == key)
      && (o.Granted? <==> !o.Replayed? && exists u :: OnSale(p, product, locked, u))
      && (o.Granted? ==> OnSale(p, product, locked, o.unit))
  {
    FreeUnitIsUnheld(p, product, locked);
    ClaimsInOrder(p, product, locked, p.line);
    KeysNameTheirRows(p, product, key);
    hide PoolOk;
    var first := FirstFree(p, product, locked, p.line);
    hide FirstFree;
    forall u | OnSale(p, product, locked, u)
      ensures first.Some?
    {
      var k :| 0 <= k < |p.line| && p.line[k] == u;
      assert Free(p, product, locked, p.line[k]);
    }
    assert first.Some? ==> OnSale(p, product, locked, first.value);
  }

  lemma KeysNameTheirRows(p: Pool, product: string, key: string)
    requires PoolOk(p)
    ensures Slot(product, key) in p.byKey <==> KeyUsed(p, product, key)
    ensures Slot(product, key) in p.byKey ==>
              var r := p.byKey[Slot(product, key)]; r in p.reservations && p.reservations[r].product == product && p.reservations[r].key == key
  {
    hide UnitsOk, KeysOk;
    if Slot(product, key) in p.byKey {
      var r := p.byKey[Slot(product, key)];
      assert r in p.reservations && p.reservations[r].product == product && p.reservations[r].key == key;
    }
  }

  /** A granted reservation takes its unit and nothing else. */
  lemma GrantedTakesTheUnit(p: Pool, r: ReservationId, product: string, key: string, order: Option<string>, locked: set<UnitId>)
    requires r !in p.reservations
    ensures var o := Reserving(p, product, key, locked); var e := Apply(p, DoReserve(r, product, key, order, locked));
      && (!o.Granted? ==> e == p)
      && (o.Granted? ==>
            && r in e.reservations && e.reservations[r] == Reservation(o.unit, product, order, key, Claimed)
            && (forall x :: x in p.reservations ==> x in e.reservations && e.reservations[x] == p.reservations[x])
            && o.unit in p.units && e.units == p.units[o.unit := Unit(p.units[o.unit].product, p.units[o.unit].uniqueKey, Status.Reserved)]
            && e.line == p.line)
  {
    hide FirstFree;
  }

  predicate KeyUsed(p: Pool, product: string, key: string) {
    exists r :: r in p.reservations && p.reservations[r].product == product && p.reservations[r].key == key
  }

  /** A released unit goes back on sale: after the release of a live reservation its unit is AVAILABLE if it was RESERVED,
      keeps its status otherwise, and has no holder; no other unit changes, and the next buyer of the product can have one. */
  lemma ReleasedUnitsAreOnSale(steps: seq<Step>, r: ReservationId, key: string)
    requires IsLive(Run(EMPTY, steps), r)
    ensures var p := Run(EMPTY, steps); var u := p.reservations[r].unit; var e := Apply(p, DoRelease(r));
      && u in p.units && e.units.Keys == p.units.Keys && u !in e.holder
      && e.units[u].status == (if p.units[u].status.Reserved? then Available else p.units[u].status)
      && (forall x :: x in p.units && x != u ==> e.units[x] == p.units[x])
      && (forall x :: x in p.holder && x != u ==> x in e.holder && e.holder[x] == p.holder[x])
      && (p.units[u].status.Reserved? && !KeyUsed(p, p.reservations[r].product, key) ==> Reserving(e, p.reservations[r].product, key, {}).Granted?)
  {
    hide Run;
    EmptyIsOk();
    RunKeepsPool(EMPTY, steps);
    RunLines(EMPTY, steps);
    var p := Run(EMPTY, steps);
    LiveUnitIsHeldOrRevoked(p, r);
    ReleasedIs(p, r);
    var e := Apply(p, DoRelease(r));
    StepKeepsPool(p, DoRelease(r));
    StepLines(p, DoRelease(r));
    GrantedInLine(e, p.reservations[r].product, key, {});
    hide Apply, PoolOk, Lined, Reserving;
    var u := p.reservations[r].unit;
    assert p.units[u].status.Reserved? ==> OnSale(e, p.reservations[r].product, {}, u);
  }

  lemma ReleasedIs(p: Pool, r: ReservationId)
    requires PoolOk(p) && IsLive(p, r) && p.reservations[r].unit in p.units
    ensures var u := p.reservations[r].unit; var e := Apply(p, DoRelease(r));
      && p.units[u].product == p.reservations[r].product && e.units.Keys == p.units.Keys && u !in e.holder
      && e.units[u] == (if p.units[u].status.Reserved? then p.units[u].(status := Available) else p.units[u])
      && (forall x :: x in p.units && x != u ==> e.units[x] == p.units[x])
      && (forall x :: x in p.holder && x != u ==> x in e.holder && e.holder[x] == p.holder[x])
      && (forall x :: x in e.reservations ==> x in p.reservations && e.reservations[x].product == p.reservations[x].product && e.reservations[x].key == p.reservations[x].key)
  {
    hide UnitsOk, IndexesOk, KeysOk;
  }

  // ---------------------------------------------------------------------------
  // Imports
  // ---------------------------------------------------------------------------

  predicate NewRow(p: Pool, product: string, row: ImportRow) {
    row.id !in p.units
    && (row.uniqueKey.Some? ==> forall u :: u in p.units && p.units[u].product == product ==> p.units[u].uniqueKey != row.uniqueKey)
  }

  predicate Differ(x: ImportRow, y: ImportRow) {
    x.id != y.id && (x.uniqueKey.Some? ==> x.uniqueKey != y.uniqueKey)
  }

  predicate Importable(p: Pool, product: string, rows: seq<ImportRow>) {
    && (forall k :: 0 <= k < |rows| ==> NewRow(p, product, rows[k]))
    && (forall j, k :: 0 <= j < k < |rows| ==> Differ(rows[j], rows[k]))
  }

  predicate UnitOfRow(p: Pool, product: string, row: ImportRow) {
    row.id in p.units && p.units[row.id] == Unit(product, row.uniqueKey, Available)
  }

  predicate Grown(p: Pool, e: Pool, product: string, rows: seq<ImportRow>) {
    && (forall k :: 0 <= k < |rows| ==> UnitOfRow(e, product, rows[k]))
    && (forall u :: u in p.units ==> u in e.units && e.units[u] == p.units[u])
    && |e.line| == |p.line| + |rows| && p.line <= e.line
    && (forall k :: 0 <= k < |rows| ==> e.line[|p.line| + k] == rows[k].id)
    && e.reservations == p.reservations && e.holder == p.holder && e.byKey == p.byKey && e.delivered == p.delivered
  }

  /** A batch goes in exactly when none of its identifiers and unique keys is there already or twice in the batch; its
      units are then on sale behind all others, in their order, and nothing else changes. */
  lemma {:induction false} ImportsExactly(p: Pool, product: string, rows: seq<ImportRow>)
    ensures Inserted(p, product, rows).Some? <==> Importable(p, product, rows)
    ensures Inserted(p, product, rows).Some? ==> Grown(p, Inserted(p, product, rows).value, product, rows)
    decreases |rows|
  {
    if rows != [] {
      ImportableSplits(p, product, rows);
      if !Clashes(p.units, product, rows[0]) {
        var e := WithUnit(p, product, rows[0]);
        ImportsExactly(e, product, rows[1..]);
        assert Inserted(p, product, rows) == Inserted(e, product, rows[1..]);
        hide Importable, Clashes, Inserted, Grown;
        if Inserted(e, product, rows[1..]).Some? {
          GrownByOne(p, product, rows, Inserted(e, product, rows[1..]).value);
        }
      }
    }
  }

  lemma GrownByOne(p: Pool, product: string, rows: seq<ImportRow>, e: Pool)
    requires rows != [] && rows[0].id !in p.units && Grown(WithUnit(p, product, rows[0]), e, product, rows[1..])
    ensures Grown(p, e, product, rows)
  {
    var m := WithUnit(p, product, rows[0]);
    assert forall k :: 0 < k < |rows| ==> rows[k] == rows[1..][k - 1];
    assert rows[0].id in m.units && e.units[rows[0].id] == m.units[rows[0].id];
    assert e.line[|p.line|] == m.line[|p.line|] == rows[0].id;
    forall k | 0 < k < |rows|
      ensures e.line[|p.line| + k] == rows[k].id
    {
      assert e.line[|m.line| + (k - 1)] == rows[1..][k - 1].id;
    }
    assert p.line <= m.line <= e.line;
  }

  lemma ImportableSplits(p: Pool, product: string, rows: seq<ImportRow>)
    requires rows != []
    ensures Importable(p, product, rows) <==> (!Clashes(p.units, product, rows[0]) && Importable(WithUnit(p, product, rows[0]), product, rows[1..]))
    ensures !Clashes(p.units, product, rows[0]) <==> NewRow(p, product, rows[0])
  {
    var e, rest := WithUnit(p, product, rows[0]), rows[1..];
    if NewRow(p, product, rows[0]) {
      forall k | 0 < k < |rows|
        ensures rows[k] == rest[k - 1] && (NewRow(e, product, rows[k]) <==> NewRow(p, product, rows[k]) && Differ(rows[0], rows[k]))
      {
        NewBehind(p, product, rows[0], rows[k]);
      }
      hide NewRow, Differ, WithUnit;
      ImportableFrom(p, e, product, rows);
    }
  }

  lemma NewBehind(p: Pool, product: string, first: ImportRow, row: ImportRow)
    requires NewRow(p, product, first)
    ensures NewRow(WithUnit(p, product, first), product, row) <==> NewRow(p, product, row) && Differ(first, row)
  {
    var e := WithUnit(p, product, first);
    if NewRow(e, product, row) {
      assert first.id in e.units && e.units[first.id] == Unit(product, first.uniqueKey, Available);
      assert forall u :: u in p.units ==> u in e.units && e.units[u] == p.units[u];
    }
  }

  lemma ImportableFrom(p: Pool, e: Pool, product: string, rows: seq<ImportRow>)
    requires rows != [] && NewRow(p, product, rows[0])
    requires forall k :: 0 < k < |rows| ==> (NewRow(e, product, rows[k]) <==> NewRow(p, product, rows[k]) && Differ(rows[0], rows[k]))
    ensures Importable(p, product, rows) <==> Importable(e, product, rows[1..])
  {
    hide NewRow, Differ;
    var rest := rows[1..];
    assert forall k {:trigger rest[k]} :: 0 <= k < |rest| ==> rest[k] == rows[k + 1];
    if Importable(e, product, rest) {
      forall k | 0 < k < |rows|
        ensures NewRow(p, product, rows[k]) && Differ(rows[0], rows[k])
      {
        assert NewRow(e, product, rest[k - 1]);
      }
      forall j, k | 0 < j < k < |rows|
        ensures Differ(rows[j], rows[k])
      {
        assert Differ(rest[j - 1], rest[k - 1]);
      }
    }
  }
}
