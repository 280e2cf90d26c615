/**
 Stock units and their reservations. Each operation is one transaction over the two
 tables; a unit and its reservation are changed by two separate compare-and-set
 updates, and the pool is sound when the two tables agree.
 */
module StockPool {
  import opened Options
  import opened Holds
  import opened Counting

  type UnitId = string
  type ReservationId = string

  datatype Status = Available | Reserved | Delivered | Revoked

  datatype Unit = Unit(product: string, uniqueKey: Option<string>, status: Status)

  datatype Reservation = Reservation(unit: UnitId, product: string, order: Option<string>, key: string, state: StockHold)

  datatype Slot = Slot(product: string, name: string)

  /** line: all units in the order they are claimed in. The last three are unique indexes:
      one reservation per key, one active reservation per unit, one delivery per order and product. */
  datatype Pool = Pool(
    units: map<UnitId, Unit>, line: seq<UnitId>, reservations: map<ReservationId, Reservation>,
    byKey: map<Slot, ReservationId>, holder: map<UnitId, ReservationId>, delivered: map<Slot, ReservationId>)

  datatype ImportRow = ImportRow(id: UnitId, uniqueKey: Option<string>)

  const EMPTY := Pool(map[], [], map[], map[], map[], map[])

  // ---------------------------------------------------------------------------
  // The operations
  // ---------------------------------------------------------------------------

  predicate Clashes(units: map<UnitId, Unit>, product: string, row: ImportRow) {
    row.id in units
    || (row.uniqueKey.Some? && exists u :: u in units && units[u].product == product && units[u].uniqueKey == row.uniqueKey)
  }

  /** Insert the rows in order; None when one of them clashes with a unit or with a row before it. */
  function Inserted(p: Pool, product: string, rows: seq<ImportRow>): Option<Pool>
    decreases |rows|
  {
    if rows == [] then Some(p)
    else if Clashes(p.units, product, rows[0]) then None
    else Inserted(p.(units := p.units[rows[0].id := Unit(product, rows[0].uniqueKey, Available)], line := p.line + [rows[0].id]),
                  product, rows[1..])
  }

  /** All rows or none. */
  function Import(p: Pool, product: string, rows: seq<ImportRow>): Pool {
    if rows == [] then p
    else if Inserted(p, product, rows).Some? then Inserted(p, product, rows).value else p
  }

  predicate Free(p: Pool, product: string, locked: set<UnitId>, u: UnitId) {
    u in p.units && p.units[u].product == product && p.units[u].status.Available? && u !in locked
  }

  /** The first unit in line that is available and not locked by another claim. */
  function FirstFree(p: Pool, product: string, locked: set<UnitId>, line: seq<UnitId>): (u: Option<UnitId>)
    ensures u.Some? ==> Free(p, product, locked, u.value) && u.value in line
  {
    if line == [] then None
    else if Free(p, product, locked, line[0]) then Some(line[0])
    else FirstFree(p, product, locked, line[1..])
  }

  datatype ReserveOutcome = Granted(unit: UnitId) | Replayed(existing: ReservationId) | OutOfStock

  function Reserving(p: Pool, product: string, key: string, locked: set<UnitId>): ReserveOutcome {
    if Slot(product, key) in p.byKey then Replayed(p.byKey[Slot(product, key)])
    else
      var u := FirstFree(p, product, locked, p.line);
      if u.None? || u.value in p.holder then OutOfStock else Granted(u.value)
  }

  function Reserve(p: Pool, r: ReservationId, product: string, key: string, order: Option<string>, locked: set<UnitId>): Pool {
    var o := Reserving(p, product, key, locked);
    if r in p.reservations || !o.Granted? then p
    else
      p.(units := p.units[o.unit := p.units[o.unit].(status := Status.Reserved)],
         reservations := p.reservations[r := Reservation(o.unit, product, order, key, Claimed)],
         byKey := p.byKey[Slot(product, key) := r], holder := p.holder[o.unit := r])
  }

  predicate Live(p: Pool, r: ReservationId) {
    r in p.reservations && StockLive(p.reservations[r].state) && p.reservations[r].unit in p.units
  }

  /** The reservation first, then the unit, which only goes back if it is still reserved. */
  function Release(p: Pool, r: ReservationId): Pool {
    if !Live(p, r) then p
    else
      var u := p.reservations[r].unit;
      p.(reservations := p.reservations[r := p.reservations[r].(state := Returned)],
         holder := p.holder - {u},
         units := if p.units[u].status.Reserved? then p.units[u := p.units[u].(status := Available)] else p.units)
  }

  /** The order already has a delivered unit of this product. */
  predicate DeliveryTaken(p: Pool, row: Reservation) {
    row.order.Some? && Slot(row.product, row.order.value) in p.delivered
  }

  /** Delivery falls back on an available unit; any other status rolls everything back. */
  function Allocate(p: Pool, r: ReservationId): Pool {
    if !Live(p, r) || DeliveryTaken(p, p.reservations[r]) then p
    else
      var row := p.reservations[r];
      if p.units[row.unit].status.Reserved? || p.units[row.unit].status.Available? then
        p.(reservations := p.reservations[r := row.(state := StockHold.Delivered)],
           units := p.units[row.unit := p.units[row.unit].(status := Status.Delivered)],
           delivered := if row.order.Some? then p.delivered[Slot(row.product, row.order.value) := r] else p.delivered)
      else p
  }

  /** A seller's revoke, on the status it read before. */
  function Revoke(p: Pool, u: UnitId, from: Status): Pool {
    if u in p.units && p.units[u].status == from && (from.Available? || from.Reserved?)
    then p.(units := p.units[u := p.units[u].(status := Revoked)])
    else p
  }

  function Expire(p: Pool, listed: seq<ReservationId>): Pool
    decreases |listed|
  {
    if listed == [] then p
    else Expire(if listed[0] in p.reservations && p.reservations[listed[0]].state.Claimed? then Release(p, listed[0]) else p, listed[1..])
  }

  datatype Step =
    | DoImport(product: string, rows: seq<ImportRow>)
    | DoReserve(id: ReservationId, product: string, key: string, order: Option<string>, locked: set<UnitId>)
    | DoRelease(id: ReservationId)
    | DoAllocate(id: ReservationId)
    | DoExpire(listed: seq<ReservationId>)
    | DoRevoke(unit: UnitId, from: Status)

  function Apply(p: Pool, s: Step): Pool {
    match s
    case DoImport(product, rows) => Import(p, product, rows)
    case DoReserve(r, product, key, order, locked) => Reserve(p, r, product, key, order, locked)
    case DoRelease(r) => Release(p, r)
    case DoAllocate(r) => Allocate(p, r)
    case DoExpire(listed) => Expire(p, listed)
    case DoRevoke(u, from) => Revoke(p, u, from)
  }

  function Run(p: Pool, steps: seq<Step>): Pool
    decreases |steps|
  {
    if steps == [] then p else Run(Apply(p, steps[0]), steps[1..])
  }

  // ---------------------------------------------------------------------------
  // The two tables agree
  // ---------------------------------------------------------------------------

  /** Live or delivered: the rows the unit index covers. */
  predicate Active(row: Reservation) {
    !row.state.Returned?
  }

  ghost predicate RowsOk(p: Pool) {
    forall r :: r in p.reservations ==>
      var row := p.reservations[r];
      && row.unit in p.units && p.units[row.unit].product == row.product
      && Slot(row.product, row.key) in p.byKey && p.byKey[Slot(row.product, row.key)] == r
      && (Active(row) ==> row.unit in p.holder && p.holder[row.unit] == r)
      && (row.state.Delivered? && row.order.Some? ==>
            Slot(row.product, row.order.value) in p.delivered && p.delivered[Slot(row.product, row.order.value)] == r)
  }

  ghost predicate IndexesOk(p: Pool) {
    && (forall k :: k in p.byKey ==> p.byKey[k] in p.reservations && p.reservations[p.byKey[k]].product == k.product
                                     && p.reservations[p.byKey[k]].key == k.name)
    && (forall u :: u in p.holder ==> p.holder[u] in p.reservations && p.reservations[p.holder[u]].unit == u
                                      && Active(p.reservations[p.holder[u]]))
    && (forall k :: k in p.delivered ==> p.delivered[k] in p.reservations && p.reservations[p.delivered[k]].state.Delivered?
                                         && p.reservations[p.delivered[k]].product == k.product
                                         && p.reservations[p.delivered[k]].order == Some(k.name))
  }

  /** What the status of a unit says about the reservation that holds it. */
  ghost predicate UnitOk(p: Pool, u: UnitId)
    requires u in p.units && (u in p.holder ==> p.holder[u] in p.reservations)
  {
    match p.units[u].status
    case Available => u !in p.holder
    case Reserved => u in p.holder && StockLive(p.reservations[p.holder[u]].state)
    case Delivered => u in p.holder && p.reservations[p.holder[u]].state.Delivered?
    case Revoked => u in p.holder ==> StockLive(p.reservations[p.holder[u]].state)
  }

  ghost predicate UnitsOk(p: Pool)
    requires IndexesOk(p)
  {
    forall u :: u in p.units ==> UnitOk(p, u)
  }

  ghost predicate KeysOk(p: Pool) {
    forall u, v :: u in p.units && v in p.units && u != v && p.units[u].product == p.units[v].product && p.units[u].uniqueKey.Some?
      ==> p.units[u].uniqueKey != p.units[v].uniqueKey
  }

  ghost predicate PoolOk(p: Pool) {
    RowsOk(p) && IndexesOk(p) && UnitsOk(p) && KeysOk(p)
  }

  lemma {:induction false} InsertedKeepsPool(p: Pool, product: string, rows: seq<ImportRow>)
    requires PoolOk(p)
    ensures Inserted(p, product, rows).Some? ==> PoolOk(Inserted(p, product, rows).value)
    decreases |rows|
  {
    if rows != [] && !Clashes(p.units, product, rows[0]) {
      NewUnitKeepsPool(p, product, rows[0]);
      hide PoolOk, Clashes;
      InsertedKeepsPool(WithUnit(p, product, rows[0]), product, rows[1..]);
    }
  }

  function WithUnit(p: Pool, product: string, row: ImportRow): Pool {
    p.(units := p.units[row.id := Unit(product, row.uniqueKey, Available)], line := p.line + [row.id])
  }

  lemma NewUnitKeepsPool(p: Pool, product: string, row: ImportRow)
    requires PoolOk(p) && !Clashes(p.units, product, row)
    ensures PoolOk(WithUnit(p, product, row))
  {
    NewUnitKeepsKeys(p, product, row);
    assert row.id !in p.units;
    assert forall u :: u in p.units ==> UnitOk(p, u);
    hide KeysOk, Clashes, Active;
  }

  lemma NewUnitKeepsKeys(p: Pool, product: string, row: ImportRow)
    requires KeysOk(p) && !Clashes(p.units, product, row)
    ensures KeysOk(WithUnit(p, product, row))
  {
  }

  /** Statuses may change; what a unit is does not. */
  ghost predicate SameStock(p: Pool, e: Pool) {
    p.units.Keys == e.units.Keys
    && forall u :: u in p.units ==> e.units[u].product == p.units[u].product && e.units[u].uniqueKey == p.units[u].uniqueKey
  }

  lemma KeysSurvive(p: Pool, e: Pool)
    requires KeysOk(p) && SameStock(p, e)
    ensures KeysOk(e)
  {
  }

  lemma FreeUnitIsUnheld(p: Pool, product: string, locked: set<UnitId>)
    requires IndexesOk(p) && UnitsOk(p)
    ensures var u := FirstFree(p, product, locked, p.line);
            u.Some? ==> u.value in p.units && u.value !in p.holder && p.units[u.value].product == product && p.units[u.value].status.Available?
  {
    var u := FirstFree(p, product, locked, p.line);
    assert u.Some? ==> Free(p, product, locked, u.value) && UnitOk(p, u.value);
  }

  lemma ReserveKeepsRows(p: Pool, r: ReservationId, product: string, key: string, order: Option<string>, locked: set<UnitId>)
    requires RowsOk(p) && IndexesOk(p) && UnitsOk(p)
    ensures RowsOk(Reserve(p, r, product, key, order, locked)) && SameStock(p, Reserve(p, r, product, key, order, locked))
  {
    if Reserving(p, product, key, locked).Granted? {
      FreeUnitIsUnheld(p, product, locked);
      hide FirstFree, UnitsOk, IndexesOk;
      if r !in p.reservations {
        RowAddedKeepsRows(p, r, Reservation(Reserving(p, product, key, locked).unit, product, order, key, Claimed));
      }
    }
  }

  lemma RowAddedKeepsRows(p: Pool, r: ReservationId, row: Reservation)
    requires RowsOk(p) && r !in p.reservations && row.state.Claimed?
    requires row.unit in p.units && p.units[row.unit].product == row.product
    requires row.unit !in p.holder && Slot(row.product, row.key) !in p.byKey
    ensures RowsOk(p.(units := p.units[row.unit := p.units[row.unit].(status := Status.Reserved)],
                      reservations := p.reservations[r := row],
                      byKey := p.byKey[Slot(row.product, row.key) := r], holder := p.holder[row.unit := r]))
  {
  }

  lemma ReserveKeepsIndexes(p: Pool, r: ReservationId, product: string, key: string, order: Option<string>, locked: set<UnitId>)
    requires RowsOk(p) && IndexesOk(p) && UnitsOk(p)
    ensures IndexesOk(Reserve(p, r, product, key, order, locked))
  {
    if r !in p.reservations && Reserving(p, product, key, locked).Granted? {
      FreeUnitIsUnheld(p, product, locked);
      RowAddedKeepsIndexes(p, r, Reservation(Reserving(p, product, key, locked).unit, product, order, key, Claimed));
    }
    hide FirstFree, Free, Clashes, UnitsOk, KeysOk, RowsOk, IndexesOk;
  }

  lemma RowAddedKeepsIndexes(p: Pool, r: ReservationId, row: Reservation)
    requires IndexesOk(p) && r !in p.reservations && row.state.Claimed? && row.unit in p.units
    ensures IndexesOk(p.(units := p.units[row.unit := p.units[row.unit].(status := Status.Reserved)],
                         reservations := p.reservations[r := row],
                         byKey := p.byKey[Slot(row.product, row.key) := r], holder := p.holder[row.unit := r]))
  {
  }

  lemma ReserveKeepsUnit(p: Pool, r: ReservationId, product: string, key: string, order: Option<string>, locked: set<UnitId>, v: UnitId)
    requires IndexesOk(p) && UnitsOk(p) && IndexesOk(Reserve(p, r, product, key, order, locked)) && v in p.units && v in Reserve(p, r, product, key, order, locked).units
    ensures UnitOk(Reserve(p, r, product, key, order, locked), v)
  {
    assert UnitOk(p, v);
    hide FirstFree, Free, Clashes, UnitsOk;
  }

  lemma ReserveKeepsPool(p: Pool, r: ReservationId, product: string, key: string, order: Option<string>, locked: set<UnitId>)
    requires PoolOk(p)
    ensures PoolOk(Reserve(p, r, product, key, order, locked))
  {
    ReserveKeepsRows(p, r, product, key, order, locked);
    ReserveKeepsIndexes(p, r, product, key, order, locked);
    forall v | v in Reserve(p, r, product, key, order, locked).units
      ensures UnitOk(Reserve(p, r, product, key, order, locked), v)
    {
      ReserveKeepsUnit(p, r, product, key, order, locked, v);
    }
    hide Reserve, RowsOk, UnitOk;
    KeysSurvive(p, Reserve(p, r, product, key, order, locked));
  }

  lemma ReleaseKeepsRows(p: Pool, r: ReservationId)
    requires RowsOk(p) && IndexesOk(p) && UnitsOk(p)
    ensures RowsOk(Release(p, r)) && SameStock(p, Release(p, r))
  {
    hide UnitsOk, KeysOk;
  }

  lemma ReleaseKeepsIndexes(p: Pool, r: ReservationId)
    requires RowsOk(p) && IndexesOk(p) && UnitsOk(p)
    ensures IndexesOk(Release(p, r))
  {
    hide UnitsOk, KeysOk;
  }

  lemma ReleaseKeepsUnit(p: Pool, r: ReservationId, v: UnitId)
    requires RowsOk(p) && IndexesOk(p) && UnitsOk(p) && IndexesOk(Release(p, r)) && v in p.units && v in Release(p, r).units
    ensures UnitOk(Release(p, r), v)
  {
    assert UnitOk(p, v);
  }

  lemma ReleaseKeepsPool(p: Pool, r: ReservationId)
    requires PoolOk(p)
    ensures PoolOk(Release(p, r))
  {
    ReleaseKeepsRows(p, r);
    ReleaseKeepsIndexes(p, r);
    forall v | v in Release(p, r).units
      ensures UnitOk(Release(p, r), v)
    {
      ReleaseKeepsUnit(p, r, v);
    }
    hide Release, RowsOk, UnitOk;
    KeysSurvive(p, Release(p, r));
  }

  lemma AllocateKeepsRows(p: Pool, r: ReservationId)
    requires RowsOk(p) && IndexesOk(p) && UnitsOk(p)
    ensures RowsOk(Allocate(p, r)) && SameStock(p, Allocate(p, r))
  {
    hide UnitsOk, KeysOk;
  }

  lemma AllocateKeepsIndexes(p: Pool, r: ReservationId)
    requires RowsOk(p) && IndexesOk(p) && UnitsOk(p)
    ensures IndexesOk(Allocate(p, r))
  {
    hide UnitsOk, KeysOk;
  }

  lemma AllocateKeepsUnit(p: Pool, r: ReservationId, v: UnitId)
    requires RowsOk(p) && IndexesOk(p) && UnitsOk(p) && IndexesOk(Allocate(p, r)) && v in p.units && v in Allocate(p, r).units
    ensures UnitOk(Allocate(p, r), v)
  {
    assert UnitOk(p, v);
  }

  lemma AllocateKeepsPool(p: Pool, r: ReservationId)
    requires PoolOk(p)
    ensures PoolOk(Allocate(p, r))
  {
    AllocateKeepsRows(p, r);
    AllocateKeepsIndexes(p, r);
    forall v | v in Allocate(p, r).units
      ensures UnitOk(Allocate(p, r), v)
    {
      AllocateKeepsUnit(p, r, v);
    }
    hide Allocate, RowsOk, UnitOk;
    KeysSurvive(p, Allocate(p, r));
  }

  lemma RevokeKeepsRows(p: Pool, u: UnitId, from: Status)
    requires RowsOk(p) && IndexesOk(p) && UnitsOk(p)
    ensures RowsOk(Revoke(p, u, from)) && SameStock(p, Revoke(p, u, from))
  {
    hide UnitsOk, KeysOk;
  }

  lemma RevokeKeepsIndexes(p: Pool, u: UnitId, from: Status)
    requires RowsOk(p) && IndexesOk(p) && UnitsOk(p)
    ensures IndexesOk(Revoke(p, u, from))
  {
    hide UnitsOk, KeysOk;
  }

  lemma RevokeKeepsUnit(p: Pool, u: UnitId, from: Status, v: UnitId)
    requires RowsOk(p) && IndexesOk(p) && UnitsOk(p) && IndexesOk(Revoke(p, u, from)) && v in p.units && v in Revoke(p, u, from).units
    ensures UnitOk(Revoke(p, u, from), v)
  {
    assert UnitOk(p, v);
  }

  lemma RevokeKeepsPool(p: Pool, u: UnitId, from: Status)
    requires PoolOk(p)
    ensures PoolOk(Revoke(p, u, from))
  {
    RevokeKeepsRows(p, u, from);
    RevokeKeepsIndexes(p, u, from);
    forall v | v in Revoke(p, u, from).units
      ensures UnitOk(Revoke(p, u, from), v)
    {
      RevokeKeepsUnit(p, u, from, v);
    }
    hide Revoke, RowsOk, UnitOk;
    KeysSurvive(p, Revoke(p, u, from));
  }

  lemma {:induction false} ExpireKeepsPool(p: Pool, listed: seq<ReservationId>)
    requires PoolOk(p)
    ensures PoolOk(Expire(p, listed))
    decreases |listed|
  {
    if listed != [] {
      ReleaseKeepsPool(p, listed[0]);
      hide PoolOk, Release;
      ExpireKeepsPool(if listed[0] in p.reservations && p.reservations[listed[0]].state.Claimed? then Release(p, listed[0]) else p, listed[1..]);
    }
  }

  lemma StepKeepsPool(p: Pool, s: Step)
    requires PoolOk(p)
    ensures PoolOk(Apply(p, s))
  {
    hide PoolOk, Reserve, Release, Allocate, Revoke, Expire, Inserted;
    match s
    case DoImport(product, rows) => InsertedKeepsPool(p, product, rows);
    case DoReserve(r, product, key, order, locked) => ReserveKeepsPool(p, r, product, key, order, locked);
    case DoRelease(r) => ReleaseKeepsPool(p, r);
    case DoAllocate(r) => AllocateKeepsPool(p, r);
    case DoExpire(listed) => ExpireKeepsPool(p, listed);
    case DoRevoke(u, from) => RevokeKeepsPool(p, u, from);
  }

  lemma {:induction false} RunKeepsPool(p: Pool, steps: seq<Step>)
    requires PoolOk(p)
    ensures PoolOk(Run(p, steps))
    decreases |steps|
  {
    if steps != [] {
      StepKeepsPool(p, steps[0]);
      RunKeepsPool(Apply(p, steps[0]), steps[1..]);
    }
  }

  // ---------------------------------------------------------------------------
  // What the agreement gives
  // ---------------------------------------------------------------------------

  /** A unit is promised to one reservation at most. */
  ghost predicate PromisedOnce(p: Pool) {
    forall r, s :: r in p.reservations && s in p.reservations && r != s && p.reservations[r].unit == p.reservations[s].unit
      ==> !Active(p.reservations[r]) || !Active(p.reservations[s])
  }

  /** The row of a unit and the row of its holder say the same. */
  ghost predicate HeldAsMarked(p: Pool, u: UnitId)
    requires u in p.units
  {
    p.units[u].status.Reserved? || p.units[u].status.Delivered? ==>
      && u in p.holder && p.holder[u] in p.reservations && p.reservations[p.holder[u]].unit == u
      && (p.units[u].status.Reserved? ==> StockLive(p.reservations[p.holder[u]].state))
      && (p.units[u].status.Delivered? ==> p.reservations[p.holder[u]].state.Delivered?)
  }

  lemma RowsPromiseOnce(p: Pool)
    requires RowsOk(p)
    ensures PromisedOnce(p)
  {
  }

  lemma DeliveredRowMarksItsUnit(p: Pool, r: ReservationId)
    requires RowsOk(p) && IndexesOk(p) && UnitsOk(p) && r in p.reservations && p.reservations[r].state.Delivered?
    ensures p.reservations[r].unit in p.units && p.units[p.reservations[r].unit].status.Delivered?
  {
    assert UnitOk(p, p.reservations[r].unit);
    hide UnitsOk;
  }

  /** In every reachable pool a unit is promised to one reservation at most, each reserved unit is
      promised to exactly one, and each delivered unit was delivered to exactly one. */
  lemma OneUnitOneReservation(steps: seq<Step>)
    ensures var p := Run(EMPTY, steps);
      && PromisedOnce(p)
      && (forall u :: u in p.units ==> HeldAsMarked(p, u))
      && (forall r :: r in p.reservations && p.reservations[r].state.Delivered? ==>
            p.reservations[r].unit in p.units && p.units[p.reservations[r].unit].status.Delivered?)
  {
    RunKeepsPool(EMPTY, steps);
    var p := Run(EMPTY, steps);
    RowsPromiseOnce(p);
    forall r | r in p.reservations && p.reservations[r].state.Delivered?
      ensures p.reservations[r].unit in p.units && p.units[p.reservations[r].unit].status.Delivered?
    {
      DeliveredRowMarksItsUnit(p, r);
    }
    forall u | u in p.units
      ensures HeldAsMarked(p, u)
    {
      assert UnitOk(p, u);
    }
    hide Run, RowsOk, PromisedOnce, KeysOk;
  }

  /** Delivery from AVAILABLE never happens, and the insert of a reservation never meets a unit
      that is still held: both branches are there for states no run reaches. */
  lemma FallbacksAreNeverReached(steps: seq<Step>, r: ReservationId, product: string, locked: set<UnitId>)
    ensures var p := Run(EMPTY, steps);
      && (Live(p, r) ==> !p.units[p.reservations[r].unit].status.Available?)
      && (var u := FirstFree(p, product, locked, p.line); u.Some? ==> u.value !in p.holder)
  {
    RunKeepsPool(EMPTY, steps);
    var p := Run(EMPTY, steps);
    assert forall u :: u in p.units ==> UnitOk(p, u);
  }

  function OfStatus(p: Pool, product: string, status: Status): set<UnitId> {
    set u | u in p.units && p.units[u].product == product && p.units[u].status == status
  }

  function OfProduct(p: Pool, product: string): set<UnitId> {
    set u | u in p.units && p.units[u].product == product
  }

  /** The four counters of a product add up to the units it has. */
  lemma CountersAddUp(p: Pool, product: string)
    ensures |OfStatus(p, product, Available)| + |OfStatus(p, product, Status.Reserved)|
            + |OfStatus(p, product, Status.Delivered)| + |OfStatus(p, product, Revoked)| == |OfProduct(p, product)|
  {
    var a, b := OfStatus(p, product, Available), OfStatus(p, product, Status.Reserved);
    var c, d := OfStatus(p, product, Status.Delivered), OfStatus(p, product, Revoked);
    assert OfProduct(p, product) == a + b + c + d;
    assert a !! b && a + b !! c && a + b + c !! d;
  }

  /** A batch adds all its rows or nothing. */
  lemma {:induction false} InsertedAddsAll(p: Pool, product: string, rows: seq<ImportRow>)
    ensures Inserted(p, product, rows).Some? ==>
              && |OfProduct(Inserted(p, product, rows).value, product)| == |OfProduct(p, product)| + |rows|
              && (forall q :: q != product ==> OfProduct(Inserted(p, product, rows).value, q) == OfProduct(p, q))
    decreases |rows|
  {
    if rows != [] && !Clashes(p.units, product, rows[0]) {
      var e := p.(units := p.units[rows[0].id := Unit(product, rows[0].uniqueKey, Available)], line := p.line + [rows[0].id]);
      assert OfProduct(e, product) == OfProduct(p, product) + {rows[0].id};
      assert forall q :: q != product ==> OfProduct(e, q) == OfProduct(p, q);
      InsertedAddsAll(e, product, rows[1..]);
    }
  }

  /** Units imported for a product by the steps of a run. */
  function Imported(p: Pool, steps: seq<Step>, product: string): nat
    decreases |steps|
  {
    if steps == [] then 0
    else
      var s := steps[0];
      (if s.DoImport? && s.product == product && s.rows != [] && Inserted(p, product, s.rows).Some? then |s.rows| else 0)
      + Imported(Apply(p, s), steps[1..], product)
  }

  lemma OtherStepsAddNoUnit(p: Pool, s: Step, product: string)
    requires !s.DoImport?
    ensures OfProduct(Apply(p, s), product) == OfProduct(p, product)
  {
    match s
    case DoExpire(listed) => ExpireAddsNoUnit(p, listed, product);
    case _ =>
  }

  lemma {:induction false} ExpireAddsNoUnit(p: Pool, listed: seq<ReservationId>, product: string)
    ensures OfProduct(Expire(p, listed), product) == OfProduct(p, product)
    decreases |listed|
  {
    if listed != [] {
      var e := if listed[0] in p.reservations && p.reservations[listed[0]].state.Claimed? then Release(p, listed[0]) else p;
      assert OfProduct(e, product) == OfProduct(p, product);
      ExpireAddsNoUnit(e, listed[1..], product);
    }
  }

  /** Nothing is lost and nothing appears: over every run the four counters of a product grow
      together by exactly what was imported. */
  lemma {:induction false} StockIsConserved(p: Pool, steps: seq<Step>, product: string)
    ensures var e := Run(p, steps);
      |OfStatus(e, product, Available)| + |OfStatus(e, product, Status.Reserved)|
      + |OfStatus(e, product, Status.Delivered)| + |OfStatus(e, product, Revoked)|
      == |OfProduct(p, product)| + Imported(p, steps, product)
    decreases |steps|
  {
    if steps == [] {
      CountersAddUp(p, product);
    } else {
      var s := steps[0];
      if s.DoImport? {
        InsertedAddsAll(p, s.product, s.rows);
      } else {
        OtherStepsAddNoUnit(p, s, product);
      }
      StockIsConserved(Apply(p, s), steps[1..], product);
    }
  }

  predicate Final(s: Status) {
    s.Delivered? || s.Revoked?
  }

  /** The unit stays as it is, and a delivered unit with the reservation it went to. */
  ghost predicate Settled(p: Pool, e: Pool, u: UnitId) {
    && u in p.units && u in e.units && e.units[u] == p.units[u]
    && (p.units[u].status.Delivered? ==>
          u in p.holder && u in e.holder && e.holder[u] == p.holder[u]
          && e.holder[u] in e.reservations && e.reservations[e.holder[u]].state.Delivered?)
  }

  lemma ReleaseKeepsFinalUnits(p: Pool, r: ReservationId, u: UnitId)
    requires PoolOk(p) && u in p.units && Final(p.units[u].status)
    ensures Settled(p, Release(p, r), u)
  {
    assert UnitOk(p, u);
  }

  lemma {:induction false} InsertedKeepsUnits(p: Pool, product: string, rows: seq<ImportRow>, u: UnitId)
    requires u in p.units
    ensures Inserted(p, product, rows).Some? ==>
              var e := Inserted(p, product, rows).value;
              u in e.units && e.units[u] == p.units[u] && e.holder == p.holder && e.reservations == p.reservations
    decreases |rows|
  {
    if rows != [] && !Clashes(p.units, product, rows[0]) {
      InsertedKeepsUnits(p.(units := p.units[rows[0].id := Unit(product, rows[0].uniqueKey, Available)], line := p.line + [rows[0].id]),
                         product, rows[1..], u);
    }
  }

  lemma {:induction false} ExpireKeepsFinalUnits(p: Pool, listed: seq<ReservationId>, u: UnitId)
    requires PoolOk(p) && u in p.units && Final(p.units[u].status)
    ensures Settled(p, Expire(p, listed), u)
    decreases |listed|
  {
    assert UnitOk(p, u);
    if listed != [] {
      var e := if listed[0] in p.reservations && p.reservations[listed[0]].state.Claimed? then Release(p, listed[0]) else p;
      ReleaseKeepsFinalUnits(p, listed[0], u);
      ReleaseKeepsPool(p, listed[0]);
      ExpireKeepsFinalUnits(e, listed[1..], u);
    }
  }

  lemma ReserveKeepsFinalUnits(p: Pool, r: ReservationId, product: string, key: string, order: Option<string>,
                               locked: set<UnitId>, u: UnitId)
    requires PoolOk(p) && u in p.units && Final(p.units[u].status)
    ensures Settled(p, Reserve(p, r, product, key, order, locked), u)
  {
    assert UnitOk(p, u);
    ClaimedIsAvailable(p, product, locked);
    hide FirstFree, RowsOk, KeysOk;
  }

  lemma AllocateKeepsFinalUnits(p: Pool, r: ReservationId, u: UnitId)
    requires PoolOk(p) && u in p.units && Final(p.units[u].status)
    ensures Settled(p, Allocate(p, r), u)
  {
    assert UnitOk(p, u);
    hide KeysOk;
  }

  lemma StepKeepsFinalUnits(p: Pool, s: Step, u: UnitId)
    requires PoolOk(p) && u in p.units && Final(p.units[u].status)
    ensures Settled(p, Apply(p, s), u)
  {
    assert UnitOk(p, u);
    hide Inserted, Reserve, Release, Allocate, Expire, RowsOk, KeysOk;
    match s
    case DoImport(product, rows) => InsertedKeepsUnits(p, product, rows, u);
    case DoReserve(r, product, key, order, locked) => ReserveKeepsFinalUnits(p, r, product, key, order, locked, u);
    case DoRelease(r) => ReleaseKeepsFinalUnits(p, r, u);
    case DoAllocate(r) => AllocateKeepsFinalUnits(p, r, u);
    case DoExpire(listed) => ExpireKeepsFinalUnits(p, listed, u);
    case DoRevoke(v, from) =>
  }

  /** DELIVERED and REVOKED are absorbing, and a delivered unit stays with its one reservation. */
  lemma {:induction false} FinalUnitsStay(p: Pool, steps: seq<Step>, u: UnitId)
    requires PoolOk(p) && u in p.units && Final(p.units[u].status)
    ensures Settled(p, Run(p, steps), u)
    decreases |steps|
  {
    if steps != [] {
      StepKeepsFinalUnits(p, steps[0], u);
      StepKeepsPool(p, steps[0]);
      FinalUnitsStay(Apply(p, steps[0]), steps[1..], u);
    } else {
      assert UnitOk(p, u);
    }
  }

  /** Units leave in line order: whatever is before the claimed unit is taken or locked. */
  lemma {:induction false} ClaimsInOrder(p: Pool, product: string, locked: set<UnitId>, line: seq<UnitId>)
    ensures var u := FirstFree(p, product, locked, line);
      && (u.None? <==> forall k :: 0 <= k < |line| ==> !Free(p, product, locked, line[k]))
      && (u.Some? ==> exists n :: 0 <= n < |line| && line[n] == u.value && forall k :: 0 <= k < n ==> !Free(p, product, locked, line[k]))
    decreases |line|
  {
    if line != [] && !Free(p, product, locked, line[0]) {
      ClaimsInOrder(p, product, locked, line[1..]);
      var u := FirstFree(p, product, locked, line[1..]);
      if u.Some? {
        var n :| 0 <= n < |line[1..]| && line[1..][n] == u.value && forall k :: 0 <= k < n ==> !Free(p, product, locked, line[1..][k]);
        assert line[n + 1] == u.value;
        assert forall k :: 0 < k < n + 1 ==> line[k] == line[1..][k - 1];
      }
      assert forall k :: 0 < k < |line| ==> line[k] == line[1..][k - 1];
    }
  }

  /** The pool moves the holds of a payment as the payment protocol says; a delivery can fail to,
      and exactly when the unit was revoked meanwhile or the order has its unit already. */
  lemma PoolReturnsHolds(p: Pool, r: ReservationId)
    requires PoolOk(p) && r in p.reservations
    ensures r in Release(p, r).reservations && Release(p, r).reservations[r].state == ReturnStock(p.reservations[r].state)
  {
  }

  lemma PoolDeliversHoldsExactly(p: Pool, r: ReservationId)
    requires PoolOk(p) && r in p.reservations
    ensures r in Allocate(p, r).reservations
    ensures Allocate(p, r).reservations[r].state == DeliverStock(p.reservations[r].state)
            <==> !(StockLive(p.reservations[r].state)
                   && (p.units[p.reservations[r].unit].status.Revoked? || DeliveryTaken(p, p.reservations[r])))
  {
    assert UnitOk(p, p.reservations[r].unit);
  }

  /** A release never puts a revoked or delivered unit back on sale, and a second one changes nothing. */
  lemma ReleaseTwiceIsOnce(p: Pool, r: ReservationId)
    ensures Release(Release(p, r), r) == Release(p, r)
    ensures Allocate(Release(p, r), r) == Release(p, r) || !Live(p, r)
  {
  }

  // ---------------------------------------------------------------------------
  // The service on the tables
  // ---------------------------------------------------------------------------

  class StockDesk {
    var units: map<UnitId, Unit>
    var line: seq<UnitId>
    var reservations: map<ReservationId, Reservation>
    var byKey: map<Slot, ReservationId>
    var holder: map<UnitId, ReservationId>
    var delivered: map<Slot, ReservationId>

    ghost function View(): Pool
      reads this
    {
      Pool(units, line, reservations, byKey, holder, delivered)
    }

    ghost predicate Valid()
      reads this
    {
      PoolOk(View())
    }

    constructor ()
      ensures View() == EMPTY && Valid()
    {
      units, line, reservations, byKey, holder, delivered := map[], [], map[], map[], map[], map[];
    }

    /** Compare-and-set of a unit's status. */
    method UpdateUnit(u: UnitId, from: Status, to: Status) returns (ok: bool)
      modifies this`units
      ensures ok <==> u in old(units) && old(units[u]).status == from
      ensures units == if ok then old(units)[u := old(units[u]).(status := to)] else old(units)
    {
      if u in units && units[u].status == from {
        units := units[u := units[u].(status := to)];
        return true;
      }
      return false;
    }

    /** Insert row by row; a clash undoes the rows before it. */
    method ImportItems(product: string, rows: seq<ImportRow>) returns (imported: nat)
      requires Valid()
      modifies this`units, this`line
      ensures Valid() && View() == Import(old(View()), product, rows)
      ensures imported == if Inserted(old(View()), product, rows).Some? then |rows| else 0
    {
      ghost var p := View();
      StepKeepsPool(p, DoImport(product, rows));
      hide PoolOk, Clashes;
      var unitsBefore, lineBefore := units, line;
      var k := 0;
      while k < |rows|
        invariant 0 <= k <= |rows|
        invariant Inserted(p, product, rows) == Inserted(View(), product, rows[k..])
        invariant unchanged(`reservations) && unchanged(`byKey) && unchanged(`holder) && unchanged(`delivered)
      {
        if Clashes(units, product, rows[k]) {
          units, line := unitsBefore, lineBefore;
          return 0;
        }
        assert rows[k..][1..] == rows[k + 1..];
        units := units[rows[k].id := Unit(product, rows[k].uniqueKey, Available)];
        line := line + [rows[k].id];
        k := k + 1;
      }
      return |rows|;
    }

    /** The oldest available unit that no other transaction has locked. */
    method ClaimAvailable(product: string, locked: set<UnitId>) returns (u: Option<UnitId>)
      ensures u == FirstFree(View(), product, locked, line)
    {
      var k := 0;
      while k < |line|
        invariant 0 <= k <= |line|
        invariant FirstFree(View(), product, locked, line) == FirstFree(View(), product, locked, line[k..])
      {
        var x := line[k];
        if x in units && units[x].product == product && units[x].status.Available? && x !in locked {
          return Some(x);
        }
        assert line[k..][1..] == line[k + 1..];
        k := k + 1;
      }
      return None;
    }

    method ReserveStock(r: ReservationId, product: string, key: string, order: Option<string>, locked: set<UnitId>)
        returns (o: ReserveOutcome)
      requires Valid() && r !in reservations
      modifies this
      ensures Valid() && View() == Reserve(old(View()), r, product, key, order, locked)
      ensures o == Reserving(old(View()), product, key, locked)
    {
      hide PoolOk, FirstFree, Free;
      StepKeepsPool(View(), DoReserve(r, product, key, order, locked));
      if Slot(product, key) in byKey {
        return Replayed(byKey[Slot(product, key)]);
      }
      var u := ClaimAvailable(product, locked);
      if u.None? {
        return OutOfStock;
      }
      if u.value in holder {
        return OutOfStock;
      }
      ClaimedIsAvailable(View(), product, locked);
      var ok := UpdateUnit(u.value, Available, Status.Reserved);
      reservations := reservations[r := Reservation(u.value, product, order, key, Claimed)];
      byKey, holder := byKey[Slot(product, key) := r], holder[u.value := r];
      return Granted(u.value);
    }

    method ReleaseReservation(r: ReservationId) returns (released: bool)
      requires Valid()
      modifies this
      ensures Valid() && View() == Release(old(View()), r)
      ensures released <==> r in reservations && reservations[r].state.Returned?
    {
      hide PoolOk;
      StepKeepsPool(View(), DoRelease(r));
      if r !in reservations {
        return false;
      }
      ReservedUnitExists(View(), r);
      var row := reservations[r];
      if row.state.Returned? {
        return true;
      }
      if !row.state.Claimed? && !row.state.ClaimedUnknown? {
        return false;
      }
      reservations := reservations[r := row.(state := Returned)];
      holder := holder - {row.unit};
      var ok := UpdateUnit(row.unit, Status.Reserved, Available);
      return true;
    }

    /** The reservation is marked first; when neither status update takes, that is undone. */
    method AllocateOnFulfillment(r: ReservationId) returns (done: bool)
      requires Valid()
      modifies this
      ensures Valid() && View() == Allocate(old(View()), r)
      ensures done <==> r in reservations && reservations[r].state.Delivered?
    {
      hide PoolOk;
      StepKeepsPool(View(), DoAllocate(r));
      if r !in reservations {
        return false;
      }
      ReservedUnitExists(View(), r);
      var row := reservations[r];
      if row.state.Delivered? {
        return true;
      }
      if !row.state.Claimed? && !row.state.ClaimedUnknown? {
        return false;
      }
      if row.order.Some? && Slot(row.product, row.order.value) in delivered {
        return false;
      }
      var before := reservations;
      reservations := reservations[r := row.(state := StockHold.Delivered)];
      var ok := UpdateUnit(row.unit, Status.Reserved, Status.Delivered);
      if !ok {
        ok := UpdateUnit(row.unit, Available, Status.Delivered);
        if !ok {
          reservations := before;
          return false;
        }
      }
      if row.order.Some? {
        delivered := delivered[Slot(row.product, row.order.value) := r];
      }
      return true;
    }

    /** One transaction over the listed rows: each still claimed is released with its unit. */
    method ExpireReservations(listed: seq<ReservationId>) returns (n: nat)
      requires Valid()
      modifies this
      ensures Valid() && View() == Expire(old(View()), listed)
      ensures n == |ClaimedIn(old(View()), listed)|
    {
      ghost var p := View();
      n := 0;
      var k := 0;
      hide PoolOk, Release;
      while k < |listed|
        invariant 0 <= k <= |listed| && Valid()
        invariant Expire(p, listed) == Expire(View(), listed[k..])
        invariant n + |ClaimedIn(View(), listed[k..])| == |ClaimedIn(p, listed)|
      {
        assert listed[k..][1..] == listed[k + 1..];
        var r := listed[k];
        ReleaseUnclaims(View(), listed[k..]);
        if r in reservations && reservations[r].state.Claimed? {
          ReservedUnitExists(View(), r);
          var released := ReleaseReservation(r);
          n := n + 1;
        }
        k := k + 1;
      }
    }

    /** The status was read before: another change in between makes the update miss. */
    method RevokeItem(u: UnitId, seen: Status) returns (revoked: bool)
      requires Valid()
      modifies this
      ensures Valid() && View() == Revoke(old(View()), u, seen)
      ensures revoked <==> seen.Revoked? || (!seen.Delivered? && u in old(units) && old(units)[u].status == seen)
    {
      hide PoolOk;
      StepKeepsPool(View(), DoRevoke(u, seen));
      if seen.Revoked? {
        return true;
      }
      if seen.Delivered? {
        return false;
      }
      revoked := UpdateUnit(u, seen, Revoked);
    }
  }

  function ClaimedIn(p: Pool, listed: seq<ReservationId>): set<ReservationId> {
    set r | r in listed && r in p.reservations && p.reservations[r].state.Claimed?
  }

  lemma ReleaseUnclaims(p: Pool, listed: seq<ReservationId>)
    requires listed != []
    ensures var r := listed[0];
            if r in p.reservations && p.reservations[r].state.Claimed? && p.reservations[r].unit in p.units
            then |ClaimedIn(Release(p, r), listed[1..])| + 1 == |ClaimedIn(p, listed)|
            else !(r in p.reservations && p.reservations[r].state.Claimed?) ==> ClaimedIn(p, listed[1..]) == ClaimedIn(p, listed)
  {
    var r := listed[0];
    assert forall x :: x in listed <==> x == r || x in listed[1..];
    if r in p.reservations && p.reservations[r].state.Claimed? && p.reservations[r].unit in p.units {
      assert ClaimedIn(Release(p, r), listed[1..]) == ClaimedIn(p, listed) - {r};
      WithoutOne(ClaimedIn(p, listed), r);
    }
  }

  lemma ClaimedIsAvailable(p: Pool, product: string, locked: set<UnitId>)
    ensures var u := FirstFree(p, product, locked, p.line);
            u.Some? ==> u.value in p.units && p.units[u.value].status.Available?
  {
    hide FirstFree;
  }

  lemma ReservedUnitExists(p: Pool, r: ReservationId)
    requires PoolOk(p) && r in p.reservations
    ensures p.reservations[r].unit in p.units
  {
  }
}
