/**
 Custom domains under concurrent callers. Verify, delete and the revalidation job each
 read a row, talk to DNS or the edge, and write back by compare-and-set on the version;
 their sub-steps interleave freely. Times come from a clock that never goes back.
 */
module Domains {
  import opened Options

  type DomainId = string

  datatype Status = PendingDns | Verifying | Active | Failed | Suspended | Removing | Tombstoned

  datatype Tls = NoTls | TlsActive | TlsOther | TlsRemoving | TlsRemoved

  datatype Row = Row(
    store: string, host: string, tokenHash: string, status: Status, version: nat, tls: Tls,
    failure: Option<string>, verifiedAt: Option<int>, cooldownUntil: Option<int>)

  /** What is under way: a verify, a delete, the removal retry, the DNS recheck. */
  datatype Kind = Verify | Delete | FinishRemoval | Recheck

  /** What a caller does next. */
  datatype Stage = Listed | ToMark | ToAskDns | ToAskEdge | ToWrite(next: Row)

  /** A caller holds the row it last read or wrote. A sweep deletes a tombstone it saw expired,
      for itself or to make room for a new row; a new row is inserted last. */
  datatype Flight =
    | Work(kind: Kind, id: DomainId, seen: Row, at: int, stage: Stage)
    | Sweep(id: DomainId, seen: Row, thenInsert: Option<NewRow>)
    | Insert(row: NewRow)

  datatype NewRow = NewRow(id: DomainId, store: string, host: string, tokenHash: string)

  /** A DNS answer with the right token, for a row as it was at a version. */
  datatype Proof = Proof(id: DomainId, version: nat)

  datatype Desk = Desk(
    rows: map<DomainId, Row>, born: set<DomainId>, flights: map<nat, Flight>, proofs: set<Proof>, now: int)

  datatype Step =
    | Tick(seconds: nat)
    | StartVerify(f: nat, id: DomainId, tokenHash: string)
    | StartDelete(f: nat, id: DomainId)
    | List(f: nat, id: DomainId)
    | Reload(f: nat)
    | Mark(f: nat)
    | Dns(f: nat, matched: bool)
    | Edge(f: nat, result: Option<Tls>)
    | Write(f: nat)
    | ListExpired(f: nat, id: DomainId)
    | StartCreate(f: nat, row: NewRow)
    | HardDelete(f: nat)
    | InsertRow(f: nat)
    | Abandon(f: nat)

  /** In seconds: 24 hours, and 72 hours. */
  const COOLDOWN: nat := 86400
  const GRACE: nat := 259200

  const EMPTY := Desk(map[], {}, map[], {}, 0)

  // ---------------------------------------------------------------------------
  // Decisions
  // ---------------------------------------------------------------------------

  predicate MayVerify(s: Status) {
    s.PendingDns? || s.Verifying? || s.Failed? || s.Suspended?
  }

  predicate Leaving(s: Status) {
    s.Removing? || s.Tombstoned?
  }

  function Failing(seen: Row, code: string): Row {
    seen.(status := Failed, failure := Some(code))
  }

  function Activated(seen: Row, tls: Tls, at: int): Row {
    seen.(status := Active, tls := if tls.NoTls? then TlsActive else tls, verifiedAt := Some(at), failure := None)
  }

  function Tombstone(seen: Row, tls: Tls, at: int): Row {
    seen.(status := Tombstoned, tls := if tls.NoTls? then TlsRemoved else tls, cooldownUntil := Some(at + COOLDOWN), failure := None)
  }

  /** The job's tombstone keeps the failure code of the removal it finishes. */
  function RemovalFinished(seen: Row, tls: Tls, at: int): Row {
    Tombstone(seen, tls, at).(failure := seen.failure)
  }

  /** The recheck of a routed or suspended row that found no matching record. */
  function Unproved(seen: Row, at: int): Row {
    if seen.status.Active? && seen.verifiedAt.Some? && seen.verifiedAt.value > at - GRACE
    then seen.(failure := Some("DNS_RECHECK_FAILED"))
    else seen.(status := Suspended, failure := Some("DNS_REVALIDATION_FAILED"),
               tls := if seen.status.Active? then TlsRemoved else seen.tls)
  }

  function Marked(kind: Kind, seen: Row): Row {
    if kind.Verify? then seen.(status := Verifying, failure := None)
    else seen.(status := Removing, tls := TlsRemoving)
  }

  function AfterDns(w: Flight, matched: bool): Stage
    requires w.Work?
  {
    if w.kind.Verify? then (if matched then ToAskEdge else ToWrite(Failing(w.seen, "DNS_TXT_MISMATCH")))
    else if !matched then ToWrite(Unproved(w.seen, w.at))
    else if w.seen.status.Suspended? then ToAskEdge
    else ToWrite(w.seen)
  }

  function AfterEdge(w: Flight, result: Option<Tls>, now: int): Row
    requires w.Work?
  {
    match w.kind
    case Verify => if result.None? then Failing(w.seen, "EDGE_PROVISION_FAILED") else Activated(w.seen, result.value, now)
    case Delete => if result.None? then w.seen.(failure := Some("EDGE_REMOVE_FAILED")) else Tombstone(w.seen, result.value, w.at)
    case FinishRemoval => if result.None? then w.seen else RemovalFinished(w.seen, result.value, w.at)
    case Recheck =>
      w.seen.(status := Active, failure := None,
              tls := if result.None? then w.seen.tls else if result.value.NoTls? then TlsActive else result.value)
  }

  /** Where a delete starts, or goes on once the row is marked. */
  function DeleteFrom(seen: Row, at: int): Stage {
    if !Leaving(seen.status) then ToMark
    else if seen.tls.TlsRemoved? then ToWrite(Tombstone(seen, TlsRemoved, at))
    else ToAskEdge
  }

  // ---------------------------------------------------------------------------
  // Steps
  // ---------------------------------------------------------------------------

  predicate Flying(d: Desk, f: nat, stage: Stage) {
    f in d.flights && d.flights[f].Work? && d.flights[f].stage == stage
  }

  function Land(d: Desk, f: nat): Desk {
    d.(flights := d.flights - {f})
  }

  function Fly(d: Desk, f: nat, w: Flight): Desk {
    d.(flights := d.flights[f := w])
  }

  predicate Fresh(d: Desk, f: nat, id: DomainId) {
    f !in d.flights && id in d.rows
  }

  /** UPDATE ... SET version = version + 1 WHERE id AND version. */
  predicate CasHits(d: Desk, id: DomainId, seen: Row) {
    id in d.rows && d.rows[id].version == seen.version
  }

  function Put(d: Desk, id: DomainId, next: Row): Desk
    requires id in d.rows
  {
    d.(rows := d.rows[id := next.(version := d.rows[id].version + 1)])
  }

  predicate Claimed(d: Desk, host: string) {
    exists id :: id in d.rows && d.rows[id].host == host
  }

  predicate Expired(r: Row, now: int) {
    r.status.Tombstoned? && r.cooldownUntil.Some? && r.cooldownUntil.value <= now
  }

  function NewDomain(n: NewRow): Row {
    Row(n.store, n.host, n.tokenHash, PendingDns, 1, NoTls, None, None, None)
  }

  function Apply(d: Desk, s: Step): Desk {
    match s
    case Tick(t) => d.(now := d.now + t)
    case StartVerify(f, id, hash) =>
      if Fresh(d, f, id) && MayVerify(d.rows[id].status) && d.rows[id].tokenHash == hash
      then Fly(d, f, Work(Verify, id, d.rows[id], d.now, ToMark)) else d
    case StartDelete(f, id) =>
      if Fresh(d, f, id) then Fly(d, f, Work(Delete, id, d.rows[id], d.now, DeleteFrom(d.rows[id], d.now))) else d
    case List(f, id) =>
      if !Fresh(d, f, id) then d
      else if d.rows[id].status.Removing? then Fly(d, f, Work(FinishRemoval, id, d.rows[id], d.now, Listed))
      else if d.rows[id].status.Active? || d.rows[id].status.Suspended? || d.rows[id].status.Verifying?
      then Fly(d, f, Work(Recheck, id, d.rows[id], d.now, Listed)) else d
    case Reload(f) => if Flying(d, f, Listed) then Reloaded(d, f) else d
    case Mark(f) => if Flying(d, f, ToMark) then MarkRow(d, f) else d
    case Dns(f, matched) => if Flying(d, f, ToAskDns) then HearDns(d, f, matched) else d
    case Edge(f, result) =>
      if Flying(d, f, ToAskEdge) then Fly(d, f, d.flights[f].(stage := ToWrite(AfterEdge(d.flights[f], result, d.now)))) else d
    case Write(f) =>
      if f in d.flights && d.flights[f].Work? && d.flights[f].stage.ToWrite? then WriteRow(d, f) else d
    case ListExpired(f, id) =>
      if Fresh(d, f, id) && Expired(d.rows[id], d.now) then Fly(d, f, Sweep(id, d.rows[id], None)) else d
    case StartCreate(f, n) => if f in d.flights then d else Claiming(d, f, n)
    case HardDelete(f) => if f in d.flights && d.flights[f].Sweep? then DeleteTombstone(d, f) else d
    case InsertRow(f) => if f in d.flights && d.flights[f].Insert? then InsertNew(d, f) else d
    case Abandon(f) => Land(d, f)
  }

  /** The job reads the listed row again. */
  function Reloaded(d: Desk, f: nat): Desk
    requires Flying(d, f, Listed)
  {
    var w := d.flights[f];
    if w.id !in d.rows then Land(d, f)
    else
      var cur := d.rows[w.id];
      if w.kind.FinishRemoval? then
        (if cur.status.Tombstoned? then Land(d, f) else Fly(d, f, w.(seen := cur, stage := ToAskEdge)))
      else if cur.status.Active? || cur.status.Suspended? then Fly(d, f, w.(seen := cur, stage := ToAskDns))
      else Land(d, f)
  }

  function MarkRow(d: Desk, f: nat): Desk
    requires Flying(d, f, ToMark)
  {
    var w := d.flights[f];
    if !CasHits(d, w.id, w.seen) then Land(d, f)
    else
      var e := Put(d, w.id, Marked(w.kind, w.seen));
      var row := e.rows[w.id];
      Fly(e, f, w.(seen := row, stage := if w.kind.Verify? then ToAskDns else DeleteFrom(row, w.at)))
  }

  function HearDns(d: Desk, f: nat, matched: bool): Desk
    requires Flying(d, f, ToAskDns)
  {
    var w := d.flights[f];
    Fly(d, f, w.(stage := AfterDns(w, matched))).(proofs := if matched then d.proofs + {Proof(w.id, w.seen.version)} else d.proofs)
  }

  function WriteRow(d: Desk, f: nat): Desk
    requires f in d.flights && d.flights[f].Work? && d.flights[f].stage.ToWrite?
  {
    var w := d.flights[f];
    Land(if CasHits(d, w.id, w.seen) then Put(d, w.id, w.stage.next) else d, f)
  }

  /** CreateDomain looks for a claim: none, an expired tombstone to delete first, or a refusal. */
  function Claiming(d: Desk, f: nat, n: NewRow): Desk {
    if !Claimed(d, n.host) then Fly(d, f, Insert(n))
    else
      var claims := set id | id in d.rows && d.rows[id].host == n.host && Expired(d.rows[id], d.now);
      if claims == {} then d
      else if exists id :: id in claims && claims == {id} then
        var id :| id in claims && claims == {id};
        Fly(d, f, Sweep(id, d.rows[id], Some(n)))
      else d
  }

  /** DELETE ... WHERE status = TOMBSTONED: the cooldown is not looked at again. */
  function DeleteTombstone(d: Desk, f: nat): Desk
    requires f in d.flights && d.flights[f].Sweep?
  {
    var w := d.flights[f];
    var e := if w.id in d.rows && d.rows[w.id].status.Tombstoned? then d.(rows := d.rows - {w.id}) else d;
    if w.thenInsert.Some? then Fly(e, f, Insert(w.thenInsert.value)) else Land(e, f)
  }

  /** The hostname is unique over all rows and identifiers are never generated twice. */
  function InsertNew(d: Desk, f: nat): Desk
    requires f in d.flights && d.flights[f].Insert?
  {
    var n := d.flights[f].row;
    if Claimed(d, n.host) || n.id in d.born then Land(d, f)
    else Land(d.(rows := d.rows[n.id := NewDomain(n)], born := d.born + {n.id}), f)
  }

  function Run(d: Desk, steps: seq<Step>): Desk
    decreases |steps|
  {
    if steps == [] then d else Run(Apply(d, steps[0]), steps[1..])
  }

  // ---------------------------------------------------------------------------
  // What every interleaving keeps
  // ---------------------------------------------------------------------------

  /** The status changes a write may make. */
  predicate Moves(from: Status, to: Status) {
    match from
    case Removing => Leaving(to)
    case Tombstoned => to.Tombstoned?
    case PendingDns => to.Verifying? || to.Removing?
    case Failed => to.Verifying? || to.Removing?
    case Verifying => to.Verifying? || to.Failed? || to.Active? || to.Removing?
    case Active => to.Active? || to.Suspended? || to.Removing?
    case Suspended => to.Suspended? || to.Active? || to.Verifying? || to.Removing?
  }

  predicate SameClaim(a: Row, b: Row) {
    a.host == b.host && a.store == b.store && a.tokenHash == b.tokenHash
  }

  /** A row only ever gets younger, and a row on its way out stays on its way out. */
  predicate NotBefore(seen: Row, cur: Row) {
    && seen.version <= cur.version && (seen.version == cur.version ==> seen == cur)
    && SameClaim(seen, cur)
    && (Leaving(seen.status) ==> Leaving(cur.status)) && (seen.status.Tombstoned? ==> cur.status.Tombstoned?)
  }

  ghost predicate SeenOk(d: Desk, id: DomainId, seen: Row) {
    id in d.born && (id in d.rows ==> NotBefore(seen, d.rows[id]))
  }

  /** A write that routes a row that was not routed has its proof, read at the version it replaces. */
  predicate Decided(d: Desk, id: DomainId, seen: Row, next: Row) {
    && Moves(seen.status, next.status) && SameClaim(seen, next)
    && (next.status.Active? && !seen.status.Active? ==> Proof(id, seen.version) in d.proofs)
    && (next.status.Tombstoned? ==> next.cooldownUntil.Some?)
  }

  predicate StageOk(d: Desk, w: Flight)
    requires w.Work?
  {
    match w.stage
    case Listed => w.kind.FinishRemoval? || w.kind.Recheck?
    case ToMark => (w.kind.Verify? && MayVerify(w.seen.status)) || (w.kind.Delete? && !Leaving(w.seen.status))
    case ToAskDns => (w.kind.Verify? && w.seen.status.Verifying?) || (w.kind.Recheck? && (w.seen.status.Active? || w.seen.status.Suspended?))
    case ToAskEdge =>
      || (w.kind.Verify? && w.seen.status.Verifying? && Proof(w.id, w.seen.version) in d.proofs)
      || (w.kind.Recheck? && w.seen.status.Suspended? && Proof(w.id, w.seen.version) in d.proofs)
      || ((w.kind.Delete? || w.kind.FinishRemoval?) && Leaving(w.seen.status))
    case ToWrite(next) => Decided(d, w.id, w.seen, next) && (w.seen.status.Tombstoned? ==> KeepsOrRenews(w, next))
  }

  /** Only a delete writes over a tombstone: it starts a new cooldown, counted from when it began, or, when
      the edge fails it, keeps the old one. */
  predicate KeepsOrRenews(w: Flight, next: Row)
    requires w.Work?
  {
    next.cooldownUntil == w.seen.cooldownUntil || (w.kind.Delete? && next.cooldownUntil == Some(w.at + COOLDOWN))
  }

  ghost predicate FlightOk(d: Desk, w: Flight) {
    match w
    case Work(kind, id, seen, at, stage) =>
      SeenOk(d, id, seen) && StageOk(d, w) && (kind.FinishRemoval? ==> seen.status.Removing?)
      && (seen.status.Tombstoned? ==> seen.cooldownUntil.Some?)
    case Sweep(id, seen, _) => SeenOk(d, id, seen) && Expired(seen, d.now)
    case Insert(_) => true
  }

  ghost predicate FlightsOk(d: Desk) {
    forall f :: f in d.flights ==> FlightOk(d, d.flights[f])
  }

  ghost predicate RowsOk(d: Desk) {
    && d.rows.Keys <= d.born
    && (forall a, b :: a in d.rows && b in d.rows && a != b ==> d.rows[a].host != d.rows[b].host)
    && (forall a :: a in d.rows && d.rows[a].status.Tombstoned? ==> d.rows[a].cooldownUntil.Some?)
  }

  ghost predicate DeskOk(d: Desk) {
    RowsOk(d) && FlightsOk(d)
  }

  /** The next desk has every row of this one unchanged, written once on what it was, or gone from
      being a tombstone. */
  ghost predicate RowsStep(d: Desk, e: Desk) {
    && d.born <= e.born && d.proofs <= e.proofs && d.now <= e.now
    && (forall id :: id in d.rows && id !in e.rows ==> d.rows[id].status.Tombstoned?)
    && (forall id :: id in d.rows && id in e.rows ==>
          e.rows[id] == d.rows[id] || (e.rows[id].version == d.rows[id].version + 1 && Decided(d, id, d.rows[id], e.rows[id])))
    && (forall id :: id in e.rows && id !in d.rows ==> id !in d.born && e.rows[id].version == 1 && e.rows[id].status.PendingDns?)
  }

  lemma RowsStepKeepsFlight(d: Desk, e: Desk, w: Flight)
    requires RowsStep(d, e) && FlightOk(d, w)
    ensures FlightOk(e, w)
  {
    match w
    case Work(kind, id, seen, at, stage) =>
    case Sweep(id, seen, _) =>
    case Insert(_) =>
  }

  /** A landing or a change of one flight. */
  lemma RowsStepKeepsFlights(d: Desk, e: Desk, f: nat)
    requires FlightsOk(d) && RowsStep(d, e)
    requires forall g :: g in e.flights && g != f ==> g in d.flights && e.flights[g] == d.flights[g]
    requires f in e.flights ==> FlightOk(e, e.flights[f])
    ensures FlightsOk(e)
  {
    forall g | g in e.flights
      ensures FlightOk(e, e.flights[g])
    {
      if g != f {
        RowsStepKeepsFlight(d, e, e.flights[g]);
      }
    }
  }

  /** No lost update: a compare-and-set hits exactly when the row still is the row that was read. */
  lemma CasHitsTheRowThatWasRead(d: Desk, f: nat)
    requires DeskOk(d) && f in d.flights && d.flights[f].Work?
    ensures var w := d.flights[f];
            CasHits(d, w.id, w.seen) <==> w.id in d.rows && d.rows[w.id] == w.seen
  {
    assert FlightOk(d, d.flights[f]);
  }

  lemma PutIsARowsStep(d: Desk, id: DomainId, next: Row)
    requires RowsOk(d) && id in d.rows && Decided(d, id, d.rows[id], next)
    ensures RowsStep(d, Put(d, id, next)) && RowsOk(Put(d, id, next))
  {
  }

  lemma MarkKeepsDesk(d: Desk, f: nat)
    requires DeskOk(d) && Flying(d, f, ToMark)
    ensures DeskOk(MarkRow(d, f)) && RowsStep(d, MarkRow(d, f))
  {
    var w := d.flights[f];
    assert FlightOk(d, w);
    CasHitsTheRowThatWasRead(d, f);
    var e := MarkRow(d, f);
    if CasHits(d, w.id, w.seen) {
      PutIsARowsStep(d, w.id, Marked(w.kind, w.seen));
      assert FlightOk(e, e.flights[f]);
    }
    RowsStepKeepsFlights(d, e, f);
  }

  lemma WriteKeepsDesk(d: Desk, f: nat)
    requires DeskOk(d) && f in d.flights && d.flights[f].Work? && d.flights[f].stage.ToWrite?
    ensures DeskOk(WriteRow(d, f)) && RowsStep(d, WriteRow(d, f))
  {
    var w := d.flights[f];
    assert FlightOk(d, w);
    CasHitsTheRowThatWasRead(d, f);
    if CasHits(d, w.id, w.seen) {
      PutIsARowsStep(d, w.id, w.stage.next);
    }
    RowsStepKeepsFlights(d, WriteRow(d, f), f);
  }

  lemma ReloadKeepsDesk(d: Desk, f: nat)
    requires DeskOk(d) && Flying(d, f, Listed)
    ensures DeskOk(Reloaded(d, f)) && RowsStep(d, Reloaded(d, f))
  {
    assert FlightOk(d, d.flights[f]);
    RowsStepKeepsFlights(d, Reloaded(d, f), f);
  }

  lemma DnsKeepsDesk(d: Desk, f: nat, matched: bool)
    requires DeskOk(d) && Flying(d, f, ToAskDns)
    ensures DeskOk(HearDns(d, f, matched)) && RowsStep(d, HearDns(d, f, matched))
  {
    assert FlightOk(d, d.flights[f]);
    RowsStepKeepsFlights(d, HearDns(d, f, matched), f);
  }

  lemma EdgeKeepsDesk(d: Desk, f: nat, result: Option<Tls>)
    requires DeskOk(d) && Flying(d, f, ToAskEdge)
    ensures DeskOk(Apply(d, Edge(f, result))) && RowsStep(d, Apply(d, Edge(f, result)))
  {
    assert FlightOk(d, d.flights[f]);
    RowsStepKeepsFlights(d, Apply(d, Edge(f, result)), f);
  }

  lemma DeleteKeepsDesk(d: Desk, f: nat)
    requires DeskOk(d) && f in d.flights && d.flights[f].Sweep?
    ensures DeskOk(DeleteTombstone(d, f)) && RowsStep(d, DeleteTombstone(d, f))
  {
    RowsStepKeepsFlights(d, DeleteTombstone(d, f), f);
  }

  lemma InsertKeepsDesk(d: Desk, f: nat)
    requires DeskOk(d) && f in d.flights && d.flights[f].Insert?
    ensures DeskOk(InsertNew(d, f)) && RowsStep(d, InsertNew(d, f))
  {
    InsertIsARowsStep(d, f);
    RowsStepKeepsFlights(d, InsertNew(d, f), f);
    hide RowsOk, RowsStep, FlightsOk;
  }

  lemma InsertIsARowsStep(d: Desk, f: nat)
    requires RowsOk(d) && f in d.flights && d.flights[f].Insert?
    ensures RowsOk(InsertNew(d, f)) && RowsStep(d, InsertNew(d, f))
  {
    hide Decided;
  }

  /** Reading a row starts a flight and changes nothing else. */
  lemma StartKeepsDesk(d: Desk, f: nat, w: Flight)
    requires DeskOk(d) && FlightOk(d, w)
    ensures DeskOk(Fly(d, f, w)) && RowsStep(d, Fly(d, f, w))
  {
    RowsStepKeepsFlights(d, Fly(d, f, w), f);
  }

  lemma StepKeepsDesk(d: Desk, s: Step)
    requires DeskOk(d)
    ensures DeskOk(Apply(d, s)) && RowsStep(d, Apply(d, s))
  {
    match s
    case Tick(t) => TickKeepsDesk(d, t);
    case StartVerify(f, id, hash) =>
      if Fresh(d, f, id) && MayVerify(d.rows[id].status) {
        StartKeepsDesk(d, f, Work(Verify, id, d.rows[id], d.now, ToMark));
      }
    case StartDelete(f, id) =>
      if Fresh(d, f, id) {
        StartKeepsDesk(d, f, Work(Delete, id, d.rows[id], d.now, DeleteFrom(d.rows[id], d.now)));
      }
    case List(f, id) => ListKeepsDesk(d, f, id);
    case Reload(f) => if Flying(d, f, Listed) { ReloadKeepsDesk(d, f); }
    case Mark(f) => if Flying(d, f, ToMark) { MarkKeepsDesk(d, f); }
    case Dns(f, matched) => if Flying(d, f, ToAskDns) { DnsKeepsDesk(d, f, matched); }
    case Edge(f, result) => if Flying(d, f, ToAskEdge) { EdgeKeepsDesk(d, f, result); }
    case Write(f) =>
      if f in d.flights && d.flights[f].Work? && d.flights[f].stage.ToWrite? {
        WriteKeepsDesk(d, f);
      }
    case ListExpired(f, id) =>
      if Fresh(d, f, id) && Expired(d.rows[id], d.now) {
        StartKeepsDesk(d, f, Sweep(id, d.rows[id], None));
      }
    case StartCreate(f, n) => ClaimingKeepsDesk(d, f, n);
    case HardDelete(f) => if f in d.flights && d.flights[f].Sweep? { DeleteKeepsDesk(d, f); }
    case InsertRow(f) => if f in d.flights && d.flights[f].Insert? { InsertKeepsDesk(d, f); }
    case Abandon(f) => RowsStepKeepsFlights(d, Land(d, f), f);
  }

  lemma TickKeepsDesk(d: Desk, t: nat)
    requires DeskOk(d)
    ensures DeskOk(Apply(d, Tick(t))) && RowsStep(d, Apply(d, Tick(t)))
  {
    var e := Apply(d, Tick(t));
    forall f | f in e.flights
      ensures FlightOk(e, e.flights[f])
    {
      RowsStepKeepsFlight(d, e, d.flights[f]);
    }
  }

  lemma ListKeepsDesk(d: Desk, f: nat, id: DomainId)
    requires DeskOk(d)
    ensures DeskOk(Apply(d, List(f, id))) && RowsStep(d, Apply(d, List(f, id)))
  {
    if Fresh(d, f, id) {
      var status := d.rows[id].status;
      if status.Removing? {
        StartKeepsDesk(d, f, Work(FinishRemoval, id, d.rows[id], d.now, Listed));
      } else if status.Active? || status.Suspended? || status.Verifying? {
        StartKeepsDesk(d, f, Work(Recheck, id, d.rows[id], d.now, Listed));
      }
    }
  }

  lemma ClaimingKeepsDesk(d: Desk, f: nat, n: NewRow)
    requires DeskOk(d)
    ensures DeskOk(Apply(d, StartCreate(f, n))) && RowsStep(d, Apply(d, StartCreate(f, n)))
  {
    if f !in d.flights {
      var e := Claiming(d, f, n);
      if f in e.flights {
        var w := e.flights[f];
        assert FlightOk(d, w);
        StartKeepsDesk(d, f, w);
        assert e == Fly(d, f, w);
      }
    }
  }

  lemma {:induction false} RunKeepsDesk(d: Desk, steps: seq<Step>)
    requires DeskOk(d)
    ensures DeskOk(Run(d, steps))
    decreases |steps|
  {
    if steps != [] {
      StepKeepsDesk(d, steps[0]);
      RunKeepsDesk(Apply(d, steps[0]), steps[1..]);
    }
  }

  // ---------------------------------------------------------------------------
  // The lifecycle
  // ---------------------------------------------------------------------------

  /** After any interleaving, one more step leaves each row alone or replaces it by a version one
      higher along the lifecycle; a row starts to be routed only from VERIFYING or SUSPENDED, after a
      DNS record with its token was read at the very version the write replaces; REMOVING goes only to
      TOMBSTONED; and only tombstones disappear. */
  lemma EveryStepFollowsTheLifecycle(steps: seq<Step>, s: Step, id: DomainId)
    requires id in Run(EMPTY, steps).rows
    ensures var d := Run(EMPTY, steps); var e := Apply(d, s);
      && (id !in e.rows ==> d.rows[id].status.Tombstoned?)
      && (id in e.rows && e.rows[id] != d.rows[id] ==>
            var old_, new_ := d.rows[id], e.rows[id];
            && new_.version == old_.version + 1 && Moves(old_.status, new_.status) && SameClaim(old_, new_)
            && (new_.status.Active? && !old_.status.Active? ==>
                  (old_.status.Verifying? || old_.status.Suspended?) && Proof(id, old_.version) in d.proofs)
            && (old_.status.Removing? && !new_.status.Removing? ==> new_.status.Tombstoned?))
  {
    RunKeepsDesk(EMPTY, steps);
    StepKeepsDesk(Run(EMPTY, steps), s);
  }

  /** At most one row claims a hostname, so a host has at most one answer. */
  lemma HostsResolveUniquely(steps: seq<Step>, a: DomainId, b: DomainId)
    ensures var d := Run(EMPTY, steps);
            a in d.rows && b in d.rows && d.rows[a].host == d.rows[b].host ==> a == b
  {
    RunKeepsDesk(EMPTY, steps);
  }

  predicate Routable(r: Row) {
    r.status.Active? && r.tls.TlsActive?
  }

  /** The store that a host is served from, if one is. */
  ghost function ResolveHost(d: Desk, host: string): Option<string> {
    if exists id :: id in d.rows && d.rows[id].host == host && Routable(d.rows[id]) then
      var id :| id in d.rows && d.rows[id].host == host && Routable(d.rows[id]);
      Some(d.rows[id].store)
    else None
  }

  lemma ResolveHostIsExact(steps: seq<Step>, host: string, store: string)
    ensures var d := Run(EMPTY, steps);
            ResolveHost(d, host) == Some(store) <==>
            exists id :: id in d.rows && d.rows[id].host == host && Routable(d.rows[id]) && d.rows[id].store == store
  {
    RunKeepsDesk(EMPTY, steps);
  }

  // ---------------------------------------------------------------------------
  // The takeover cooldown
  // ---------------------------------------------------------------------------

  /** The step is the write of a delete that tombstones a tombstone again, with a new cooldown. */
  predicate Renews(d: Desk, s: Step, id: DomainId) {
    && s.Write? && s.f in d.flights && d.flights[s.f].Work? && d.flights[s.f].stage.ToWrite? && d.flights[s.f].id == id
    && CasHits(d, id, d.flights[s.f].seen) && d.rows[id].status.Tombstoned?
    && d.flights[s.f].stage.next.cooldownUntil != d.rows[id].cooldownUntil
  }

  /** When the delete began whose write was the last to renew the cooldown of this row. */
  function LastRenewal(d: Desk, steps: seq<Step>, id: DomainId): Option<int>
    decreases |steps|
  {
    if steps == [] then None
    else
      var later := LastRenewal(Apply(d, steps[0]), steps[1..], id);
      if later.Some? then later
      else if Renews(d, steps[0], id) then Some(d.flights[steps[0].f].at)
      else None
  }

  lemma StepRenewsExactly(d: Desk, s: Step, id: DomainId)
    requires DeskOk(d) && id in d.rows && d.rows[id].status.Tombstoned? && id in Apply(d, s).rows
    ensures Apply(d, s).rows[id].status.Tombstoned?
    ensures Apply(d, s).rows[id].cooldownUntil == if Renews(d, s, id) then Some(d.flights[s.f].at + COOLDOWN) else d.rows[id].cooldownUntil
  {
    StepKeepsDesk(d, s);
    if (s.Write? || s.Mark?) && s.f in d.flights && d.flights[s.f].Work? {
      assert FlightOk(d, d.flights[s.f]);
      CasHitsTheRowThatWasRead(d, s.f);
    }
    if !s.Write? && !s.Mark? {
      OtherStepsWriteNothing(d, s, id);
      hide Apply;
    }
    hide DeskOk, FlightOk, RowsStep;
  }

  lemma OtherStepsWriteNothing(d: Desk, s: Step, id: DomainId)
    requires DeskOk(d) && !s.Write? && !s.Mark? && id in d.rows && id in Apply(d, s).rows
    ensures Apply(d, s).rows[id] == d.rows[id]
  {
    hide Reloaded, HearDns, Claiming, DeskOk, Expired, AfterEdge, DeleteFrom;
    match s
    case Reload(f) =>
      if Flying(d, f, Listed) {
        ReloadLeavesRows(d, f);
      }
    case Dns(f, matched) =>
      if Flying(d, f, ToAskDns) {
        DnsLeavesRows(d, f, matched);
      }
    case StartCreate(f, n) => ClaimingLeavesRows(d, f, n);
    case InsertRow(f) =>
      if f in d.flights && d.flights[f].Insert? {
        InsertLeavesRow(d, f, id);
      }
    case _ =>
  }

  lemma ReloadLeavesRows(d: Desk, f: nat)
    requires Flying(d, f, Listed)
    ensures Reloaded(d, f).rows == d.rows
  {
  }

  lemma DnsLeavesRows(d: Desk, f: nat, matched: bool)
    requires Flying(d, f, ToAskDns)
    ensures HearDns(d, f, matched).rows == d.rows
  {
  }

  lemma ClaimingLeavesRows(d: Desk, f: nat, n: NewRow)
    ensures Claiming(d, f, n).rows == d.rows
  {
  }

  lemma InsertLeavesRow(d: Desk, f: nat, id: DomainId)
    requires DeskOk(d) && f in d.flights && d.flights[f].Insert? && id in d.rows
    ensures id in InsertNew(d, f).rows && InsertNew(d, f).rows[id] == d.rows[id]
  {
  }

  lemma {:induction false} GoneStaysGone(d: Desk, steps: seq<Step>, id: DomainId)
    requires DeskOk(d) && id in d.born && id !in d.rows
    ensures id !in Run(d, steps).rows
    decreases |steps|
  {
    if steps != [] {
      StepKeepsDesk(d, steps[0]);
      GoneStaysGone(Apply(d, steps[0]), steps[1..], id);
      hide Apply, DeskOk;
    }
  }

  lemma {:induction false} CooldownIsTheLastRenewal(d: Desk, steps: seq<Step>, id: DomainId)
    requires DeskOk(d) && id in d.rows && d.rows[id].status.Tombstoned? && id in Run(d, steps).rows
    ensures Run(d, steps).rows[id].status.Tombstoned?
    ensures var r := LastRenewal(d, steps, id);
            Run(d, steps).rows[id].cooldownUntil == if r.Some? then Some(r.value + COOLDOWN) else d.rows[id].cooldownUntil
    decreases |steps|
  {
    if steps != [] {
      var e := Apply(d, steps[0]);
      StepKeepsDesk(d, steps[0]);
      if id in e.rows {
        StepRenewsExactly(d, steps[0], id);
        CooldownIsTheLastRenewal(e, steps[1..], id);
      } else {
        GoneStaysGone(e, steps[1..], id);
      }
      hide Apply, DeskOk, Renews;
    }
  }

  /** A caller holds the row as it is, and its cooldown has elapsed. */
  predicate LooksExpired(d: Desk, f: nat, id: DomainId) {
    && f in d.flights && d.flights[f].Sweep? && d.flights[f].id == id
    && id in d.rows && d.rows[id] == d.flights[f].seen && Expired(d.rows[id], d.now)
  }

  lemma {:induction false} RunSplits(d: Desk, s: seq<Step>, t: seq<Step>)
    ensures Run(d, s + t) == Run(Run(d, s), t)
    decreases |s|
  {
    hide Apply;
    if s == [] {
      assert s + t == t;
    } else {
      assert (s + t)[1..] == s[1..] + t;
      RunSplits(Apply(d, s[0]), s[1..], t);
    }
  }

  lemma LastStep(steps: seq<Step>)
    requires steps != []
    ensures Run(EMPTY, steps) == Apply(Run(EMPTY, steps[..|steps| - 1]), steps[|steps| - 1])
  {
    var last := |steps| - 1;
    assert steps == steps[..last] + ([steps[last]] + []);
    RunSplits(EMPTY, steps[..last], [steps[last]] + []);
    StepThenRun(Run(EMPTY, steps[..last]), steps[last], []);
    hide Apply;
  }

  /** A sweep starts only by such a look. */
  lemma StepStartsSweeps(d: Desk, s: Step, f: nat)
    requires DeskOk(d) && f in Apply(d, s).flights && Apply(d, s).flights[f].Sweep?
    ensures LooksExpired(Apply(d, s), f, Apply(d, s).flights[f].id) || (f in d.flights && d.flights[f] == Apply(d, s).flights[f])
  {
    hide DeskOk, RowsOk, FlightsOk, AfterEdge, DeleteFrom, Marked;
  }

  lemma {:induction false} SweepHasLooked(steps: seq<Step>, f: nat) returns (k: nat)
    requires f in Run(EMPTY, steps).flights && Run(EMPTY, steps).flights[f].Sweep?
    ensures k <= |steps| && LooksExpired(Run(EMPTY, steps[..k]), f, Run(EMPTY, steps).flights[f].id)
    decreases |steps|
  {
    var last := |steps| - 1;
    LastStep(steps);
    RunKeepsDesk(EMPTY, steps[..last]);
    var d := Run(EMPTY, steps[..last]);
    StepStartsSweeps(d, steps[last], f);
    hide Run, Apply, DeskOk, LooksExpired;
    if LooksExpired(Run(EMPTY, steps), f, Run(EMPTY, steps).flights[f].id) {
      k := |steps|;
      assert steps[..k] == steps;
    } else {
      k := SweepHasLooked(steps[..last], f);
      assert steps[..last][..k] == steps[..k];
    }
  }

  /** A row disappears only by a caller that saw its cooldown elapsed, at some point of the run; it disappears
      before its cooldown has elapsed exactly when it was tombstoned again after that, the last time by a delete
      that began less than a cooldown ago. */
  lemma DeletionIsEarlyExactly(steps: seq<Step>, s: Step, id: DomainId)
    requires id in Run(EMPTY, steps).rows && id !in Apply(Run(EMPTY, steps), s).rows
    ensures var d := Run(EMPTY, steps);
      && s.HardDelete? && d.rows[id].status.Tombstoned? && d.rows[id].cooldownUntil.Some?
      && exists k :: 0 <= k <= |steps| && LooksExpired(Run(EMPTY, steps[..k]), s.f, id)
                     && (d.now < d.rows[id].cooldownUntil.value <==>
                           var r := LastRenewal(Run(EMPTY, steps[..k]), steps[k..], id); r.Some? && d.now < r.value + COOLDOWN)
  {
    var d := Run(EMPTY, steps);
    OnlyHardDeleteRemoves(d, s, id);
    hide Run, Apply, LastRenewal, LooksExpired, DeskOk;
    var k := SweepHasLooked(steps, s.f);
    RunKeepsDesk(EMPTY, steps[..k]);
    RunSplits(EMPTY, steps[..k], steps[k..]);
    assert steps[..k] + steps[k..] == steps;
    EarlyAfterTheLook(Run(EMPTY, steps[..k]), steps[k..], s.f, id);
  }

  lemma EarlyAfterTheLook(d: Desk, steps: seq<Step>, f: nat, id: DomainId)
    requires DeskOk(d) && LooksExpired(d, f, id) && id in Run(d, steps).rows
    ensures var e, r := Run(d, steps), LastRenewal(d, steps, id);
            && e.rows[id].status.Tombstoned? && e.rows[id].cooldownUntil.Some?
            && (e.now < e.rows[id].cooldownUntil.value <==> r.Some? && e.now < r.value + COOLDOWN)
  {
    hide Run, LastRenewal, DeskOk;
    CooldownIsTheLastRenewal(d, steps, id);
    TimeGoesOn(d, steps);
  }

  lemma {:induction false} TimeGoesOn(d: Desk, steps: seq<Step>)
    requires DeskOk(d)
    ensures d.now <= Run(d, steps).now
    decreases |steps|
  {
    if steps != [] {
      StepKeepsDesk(d, steps[0]);
      TimeGoesOn(Apply(d, steps[0]), steps[1..]);
      hide Apply, DeskOk;
    }
  }

  /** A hostname passes to another row only through such a deletion. */
  lemma {:induction false} ClaimsPassByDeletionOnly(d: Desk, steps: seq<Step>, a: DomainId, b: DomainId, host: string)
    requires DeskOk(d) && a in d.rows && d.rows[a].host == host
    requires b in Run(d, steps).rows && Run(d, steps).rows[b].host == host && a != b
    ensures exists k :: 0 <= k < |steps| && steps[k].HardDelete?
                        && a in Run(d, steps[..k]).rows && a !in Apply(Run(d, steps[..k]), steps[k]).rows
    decreases |steps|
  {
    if steps != [] {
      var e := Apply(d, steps[0]);
      StepKeepsDesk(d, steps[0]);
      assert steps[..0] == [];
      if a !in e.rows {
        OnlyHardDeleteRemoves(d, steps[0], a);
        assert Run(d, steps[..0]) == d;
      } else {
        ClaimsPassByDeletionOnly(e, steps[1..], a, b, host);
        var k :| 0 <= k < |steps[1..]| && steps[1..][k].HardDelete?
                 && a in Run(e, steps[1..][..k]).rows && a !in Apply(Run(e, steps[1..][..k]), steps[1..][k]).rows;
        assert steps[..k + 1][1..] == steps[1..][..k] && steps[..k + 1][0] == steps[0];
        assert Run(d, steps[..k + 1]) == Run(e, steps[1..][..k]);
      }
    }
  }

  lemma OnlyHardDeleteRemoves(d: Desk, s: Step, a: DomainId)
    requires a in d.rows && a !in Apply(d, s).rows
    ensures s.HardDelete? && s.f in d.flights && d.flights[s.f].Sweep? && d.flights[s.f].id == a
  {
  }

  lemma StepThenRun(d: Desk, s: Step, t: seq<Step>)
    ensures Run(d, [s] + t) == Run(Apply(d, s), t)
  {
    assert ([s] + t)[1..] == t;
  }

  lemma TwoSteps(d: Desk, s: seq<Step>)
    requires |s| >= 2
    ensures Run(d, s) == Run(Apply(Apply(d, s[0]), s[1]), s[2..])
  {
    assert s[1..][1..] == s[2..];
  }

  /** A delete on a tombstone starts a new cooldown, and a sweep that listed the row before that
      still deletes it: the hostname is free a whole cooldown early. */
  function EarlyTakeover(): seq<Step> {
    [StartCreate(0, FIRST), InsertRow(0),
     StartDelete(1, "a"), Mark(1), Edge(1, Some(NoTls)), Write(1),
     Tick(COOLDOWN), ListExpired(2, "a"),
     StartDelete(3, "a"), Write(3)]
  }

  const FIRST := NewRow("a", "s1", "shop.example", "t1")
  const SECOND := NewRow("b", "s2", "shop.example", "t2")
  const LEAVING := Marked(Delete, NewDomain(FIRST)).(version := 2)
  const GONE := Tombstone(LEAVING, NoTls, 0).(version := 3)
  const GONE_AGAIN := Tombstone(GONE, TlsRemoved, COOLDOWN).(version := 4)
  const LOOK := Sweep("a", GONE, None)

  /** The desk of the run, with one row and the flights at a time. */
  function At(row: Row, flights: map<nat, Flight>, now: int): Desk {
    Desk(map["a" := row], {"a"}, flights, {}, now)
  }

  lemma FirstIsCreated()
    ensures Apply(Apply(EMPTY, StartCreate(0, FIRST)), InsertRow(0)) == At(NewDomain(FIRST), map[], 0)
  {
  }

  lemma FirstIsMarked()
    ensures Apply(Apply(At(NewDomain(FIRST), map[], 0), StartDelete(1, "a")), Mark(1))
         == At(LEAVING, map[1 := Work(Delete, "a", LEAVING, 0, ToAskEdge)], 0)
  {
    var w := Work(Delete, "a", NewDomain(FIRST), 0, ToMark);
    assert Apply(At(NewDomain(FIRST), map[], 0), StartDelete(1, "a")) == At(NewDomain(FIRST), map[1 := w], 0);
  }

  lemma FirstIsTombstoned()
    ensures Apply(Apply(At(LEAVING, map[1 := Work(Delete, "a", LEAVING, 0, ToAskEdge)], 0), Edge(1, Some(NoTls))), Write(1))
         == At(GONE, map[], 0)
  {
    var d := At(LEAVING, map[1 := Work(Delete, "a", LEAVING, 0, ToAskEdge)], 0);
    var w := Work(Delete, "a", LEAVING, 0, ToWrite(Tombstone(LEAVING, NoTls, 0)));
    assert Apply(d, Edge(1, Some(NoTls))) == At(LEAVING, map[1 := w], 0);
  }

  lemma ExpiryIsSeen()
    ensures Apply(Apply(At(GONE, map[], 0), Tick(COOLDOWN)), ListExpired(2, "a")) == At(GONE, map[2 := LOOK], COOLDOWN)
  {
  }

  lemma FirstIsTombstonedAgain()
    ensures Apply(Apply(At(GONE, map[2 := LOOK], COOLDOWN), StartDelete(3, "a")), Write(3)) == At(GONE_AGAIN, map[2 := LOOK], COOLDOWN)
  {
    var w := Work(Delete, "a", GONE, COOLDOWN, ToWrite(Tombstone(GONE, TlsRemoved, COOLDOWN)));
    assert Apply(At(GONE, map[2 := LOOK], COOLDOWN), StartDelete(3, "a")) == At(GONE, map[2 := LOOK, 3 := w], COOLDOWN);
    assert map[2 := LOOK, 3 := w] - {3} == map[2 := LOOK];
  }

  lemma HostIsTaken()
    ensures var d := Apply(Apply(Apply(At(GONE_AGAIN, map[2 := LOOK], COOLDOWN), HardDelete(2)), StartCreate(4, SECOND)), InsertRow(4));
            d.rows == map["b" := NewDomain(SECOND)] && d.now == COOLDOWN
  {
    var d := Apply(At(GONE_AGAIN, map[2 := LOOK], COOLDOWN), HardDelete(2));
    assert d == Desk(map[], {"a"}, map[], {}, COOLDOWN) by {
      assert map[2 := LOOK] - {2} == map[] && map["a" := GONE_AGAIN] - {"a"} == map[];
    }
    assert Apply(d, StartCreate(4, SECOND)) == d.(flights := map[4 := Insert(SECOND)]);
  }

  lemma EarlyTakeoverPassesTheHost()
    ensures var before := Run(EMPTY, EarlyTakeover());
            before.rows == map["a" := GONE_AGAIN] && GONE_AGAIN.cooldownUntil == Some(before.now + COOLDOWN)
    ensures var after := Run(EMPTY, EarlyTakeover() + [HardDelete(2), StartCreate(4, SECOND), InsertRow(4)]);
            after.rows == map["b" := NewDomain(SECOND)] && NewDomain(SECOND).host == NewDomain(FIRST).host && after.now == COOLDOWN
  {
    FirstIsCreated();
    FirstIsMarked();
    FirstIsTombstoned();
    ExpiryIsSeen();
    FirstIsTombstonedAgain();
    HostIsTaken();
    TakeoverRuns([]);
    TakeoverRuns([HardDelete(2), StartCreate(4, SECOND), InsertRow(4)]);
    assert EarlyTakeover() + [] == EarlyTakeover();
    ThreeSteps(At(GONE_AGAIN, map[2 := LOOK], COOLDOWN), [HardDelete(2), StartCreate(4, SECOND), InsertRow(4)]);
    hide Apply;
  }

  lemma ThreeSteps(d: Desk, s: seq<Step>)
    requires |s| == 3
    ensures Run(d, s) == Apply(Apply(Apply(d, s[0]), s[1]), s[2])
  {
    TwoSteps(d, s);
    hide Apply;
    assert s[2..] == [s[2]] + [];
    StepThenRun(Apply(Apply(d, s[0]), s[1]), s[2], []);
  }

  lemma TakeoverRuns(rest: seq<Step>)
    ensures Run(EMPTY, EarlyTakeover() + rest) == Run(At(GONE_AGAIN, map[2 := LOOK], COOLDOWN), rest)
  {
    hide Apply;
    FirstIsCreated();
    FirstIsMarked();
    FirstIsTombstoned();
    ExpiryIsSeen();
    FirstIsTombstonedAgain();
    var s := EarlyTakeover() + rest;
    TwoSteps(EMPTY, s);
    TwoSteps(At(NewDomain(FIRST), map[], 0), s[2..]);
    TwoSteps(At(LEAVING, map[1 := Work(Delete, "a", LEAVING, 0, ToAskEdge)], 0), s[4..]);
    TwoSteps(At(GONE, map[], 0), s[6..]);
    TwoSteps(At(GONE, map[2 := LOOK], COOLDOWN), s[8..]);
    assert s[2..][2..] == s[4..] && s[4..][2..] == s[6..] && s[6..][2..] == s[8..] && s[8..][2..] == rest;
  }
}
