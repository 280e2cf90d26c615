/**
 The domain service on the stored rows, each operation run from its first read to its
 last write, and proved to be a run of the interleaved protocol.
 */
module DomainDesk {
  import opened Options
  import opened Domains

  /** A verify request: mark, ask DNS, ask the edge if DNS agreed, write. */
  function VerifySteps(id: DomainId, tokenHash: string, matched: bool, result: Option<Tls>): seq<Step> {
    [StartVerify(0, id, tokenHash), Mark(0), Dns(0, matched), Edge(0, result), Write(0), Abandon(0)]
  }

  function DeleteSteps(id: DomainId, result: Option<Tls>): seq<Step> {
    [StartDelete(0, id), Mark(0), Edge(0, result), Write(0), Abandon(0)]
  }

  function CreateSteps(n: NewRow): seq<Step> {
    [StartCreate(0, n), HardDelete(0), InsertRow(0)]
  }

  function SweepSteps(id: DomainId): seq<Step> {
    [ListExpired(0, id), HardDelete(0)]
  }

  /** A listed row: read again, DNS if it is routed or suspended, the edge where it is needed, write. */
  function RevalidateSteps(due: Due): seq<Step> {
    [List(0, due.id), Reload(0), Dns(0, due.matched), Edge(0, due.result), Write(0), Abandon(0)]
  }

  /** A row the job lists, with the answers it will get. */
  datatype Due = Due(id: DomainId, matched: bool, result: Option<Tls>)

  function JobSteps(tombs: seq<DomainId>, due: seq<Due>): seq<Step>
    decreases |tombs| + |due|
  {
    if tombs != [] then SweepSteps(tombs[0]) + JobSteps(tombs[1..], due)
    else if due != [] then RevalidateSteps(due[0]) + JobSteps([], due[1..])
    else []
  }

  /** Nothing under way. */
  predicate Quiet(d: Desk) {
    d.flights == map[]
  }

  /** The only caller, on the row it last saw. */
  predicate Alone(d: Desk, id: DomainId, w: Flight) {
    d.flights == map[0 := w] && w.Work? && w.id == id && id in d.rows && d.rows[id] == w.seen
  }

  function Solo(d: Desk, w: Flight): Desk {
    d.(flights := map[0 := w])
  }

  function Bumped(row: Row, next: Row): Row {
    next.(version := row.version + 1)
  }

  lemma SoloMark(d: Desk, id: DomainId, w: Flight)
    requires Alone(d, id, w) && w.stage.ToMark?
    ensures var m := Bumped(w.seen, Marked(w.kind, w.seen));
            Apply(d, Mark(0)) == Solo(d.(rows := d.rows[id := m]),
                                      w.(seen := m, stage := if w.kind.Verify? then ToAskDns else DeleteFrom(m, w.at)))
  {
  }

  lemma SoloDns(d: Desk, id: DomainId, w: Flight, matched: bool)
    requires Alone(d, id, w) && w.stage.ToAskDns?
    ensures Apply(d, Dns(0, matched))
         == Solo(d, w.(stage := AfterDns(w, matched))).(proofs := if matched then d.proofs + {Proof(id, w.seen.version)} else d.proofs)
  {
  }

  lemma SoloEdge(d: Desk, id: DomainId, w: Flight, result: Option<Tls>)
    requires Alone(d, id, w) && w.stage.ToAskEdge?
    ensures Apply(d, Edge(0, result)) == Solo(d, w.(stage := ToWrite(AfterEdge(w, result, d.now))))
  {
  }

  lemma SoloWrite(d: Desk, id: DomainId, w: Flight)
    requires Alone(d, id, w) && w.stage.ToWrite?
    ensures Apply(d, Write(0)) == d.(rows := d.rows[id := Bumped(w.seen, w.stage.next)], flights := map[])
  {
    assert map[0 := w] - {0} == map[];
  }

  lemma SoloReload(d: Desk, id: DomainId, w: Flight)
    requires Alone(d, id, w) && w.stage.Listed?
    ensures Apply(d, Reload(0)) ==
            if w.kind.FinishRemoval? then (if w.seen.status.Tombstoned? then d.(flights := map[]) else Solo(d, w.(stage := ToAskEdge)))
            else if w.seen.status.Active? || w.seen.status.Suspended? then Solo(d, w.(stage := ToAskDns))
            else d.(flights := map[])
  {
    assert map[0 := w] - {0} == map[];
  }

  /** A step asked of a caller that is elsewhere, or gone, does nothing. */
  lemma OutOfTurn(d: Desk, id: DomainId, w: Flight, matched: bool, result: Option<Tls>)
    requires Alone(d, id, w)
    ensures !w.stage.ToMark? ==> Apply(d, Mark(0)) == d
    ensures !w.stage.ToAskDns? ==> Apply(d, Dns(0, matched)) == d
    ensures !w.stage.ToAskEdge? ==> Apply(d, Edge(0, result)) == d
  {
  }

  lemma NobodyThere(d: Desk, matched: bool, result: Option<Tls>)
    requires Quiet(d)
    ensures Apply(d, Mark(0)) == d && Apply(d, Dns(0, matched)) == d && Apply(d, Edge(0, result)) == d
    ensures Apply(d, Write(0)) == d && Apply(d, Abandon(0)) == d && Apply(d, Reload(0)) == d
    ensures Apply(d, HardDelete(0)) == d && Apply(d, InsertRow(0)) == d
  {
    assert map[] - {0} == d.flights;
  }

  // ---------------------------------------------------------------------------
  // Whole operations
  // ---------------------------------------------------------------------------

  /** Ask the edge if that is next, and write. */
  function Concluded(d: Desk, id: DomainId, w: Flight, result: Option<Tls>): Desk
    requires w.Work?
  {
    var next := if w.stage.ToWrite? then w.stage.next else AfterEdge(w, result, d.now);
    d.(rows := d.rows[id := Bumped(w.seen, next)], flights := map[])
  }

  lemma EdgeAndWrite(d: Desk, id: DomainId, w: Flight, result: Option<Tls>, matched: bool)
    requires Alone(d, id, w) && (w.stage.ToAskEdge? || w.stage.ToWrite?)
    ensures Run(d, [Edge(0, result), Write(0), Abandon(0)]) == Concluded(d, id, w, result)
  {
    var d1 := Apply(d, Edge(0, result));
    var w1 := if w.stage.ToWrite? then w else w.(stage := ToWrite(AfterEdge(w, result, d.now)));
    if w.stage.ToAskEdge? {
      SoloEdge(d, id, w, result);
    } else {
      OutOfTurn(d, id, w, matched, result);
    }
    hide Apply, AfterEdge;
    assert d1 == Solo(d, w1);
    SoloWrite(d1, id, w1);
    NobodyThere(Apply(d1, Write(0)), matched, result);
    ThreeSteps(d, [Edge(0, result), Write(0), Abandon(0)]);
  }

  predicate MayStartVerify(d: Desk, id: DomainId, tokenHash: string) {
    id in d.rows && MayVerify(d.rows[id].status) && d.rows[id].tokenHash == tokenHash
  }

  /** What a verify request leaves: two writes, the second one by the answers it got. */
  function Verified(d: Desk, id: DomainId, matched: bool, result: Option<Tls>): Desk
    requires id in d.rows
  {
    var m := Bumped(d.rows[id], Marked(Verify, d.rows[id]));
    var next := if !matched then Failing(m, "DNS_TXT_MISMATCH")
                else if result.None? then Failing(m, "EDGE_PROVISION_FAILED")
                else Activated(m, result.value, d.now);
    d.(rows := d.rows[id := Bumped(m, next)], proofs := if matched then d.proofs + {Proof(id, m.version)} else d.proofs)
  }

  lemma Overwritten<K, V>(m: map<K, V>, k: K, x: V, y: V)
    ensures m[k := x][k := y] == m[k := y]
  {
  }

  lemma VerifyRuns(d: Desk, id: DomainId, tokenHash: string, matched: bool, result: Option<Tls>)
    requires Quiet(d)
    ensures Run(d, VerifySteps(id, tokenHash, matched, result)) ==
            if MayStartVerify(d, id, tokenHash) then Verified(d, id, matched, result) else d
  {
    var s := VerifySteps(id, tokenHash, matched, result);
    if MayStartVerify(d, id, tokenHash) {
      var w := Work(Verify, id, d.rows[id], d.now, ToMark);
      var d1 := Solo(d, w);
      assert Apply(d, s[0]) == d1;
      hide Apply;
      var m := Bumped(w.seen, Marked(Verify, w.seen));
      var w2 := w.(seen := m, stage := ToAskDns);
      SoloMark(d1, id, w);
      var d2 := Solo(d.(rows := d.rows[id := m]), w2);
      SoloDns(d2, id, w2, matched);
      var w3 := w2.(stage := AfterDns(w2, matched));
      var d3 := Solo(d2, w3).(proofs := if matched then d.proofs + {Proof(id, m.version)} else d.proofs);
      EdgeAndWrite(d3, id, w3, result, matched);
      Overwritten(d.rows, id, m, Concluded(d3, id, w3, result).rows[id]);
      TwoSteps(d, s);
      assert s[2..] == [s[2]] + [Edge(0, result), Write(0), Abandon(0)];
      StepThenRun(d2, s[2], [Edge(0, result), Write(0), Abandon(0)]);
    } else {
      assert Apply(d, s[0]) == d;
      hide Apply;
      NobodyThere(d, matched, result);
      TwoSteps(d, s);
      ThreeSteps(d, s[2..5]);
      assert s[2..] == s[2..5] + [s[5]] && [s[5]] == [s[5]] + [];
      RunSplits(d, s[2..5], [s[5]]);
      StepThenRun(d, s[5], []);
    }
  }

  /** What a delete request leaves: the removal mark if it was missing, then the edge's answer. */
  function Deleted(d: Desk, id: DomainId, result: Option<Tls>): Desk
    requires id in d.rows
  {
    var row := d.rows[id];
    var m := if Leaving(row.status) then row else Bumped(row, Marked(Delete, row));
    var next := if Leaving(row.status) && row.tls.TlsRemoved? then Tombstone(m, TlsRemoved, d.now)
                else if result.None? then m.(failure := Some("EDGE_REMOVE_FAILED"))
                else Tombstone(m, result.value, d.now);
    d.(rows := d.rows[id := Bumped(m, next)])
  }

  lemma DeleteRuns(d: Desk, id: DomainId, result: Option<Tls>)
    requires Quiet(d)
    ensures Run(d, DeleteSteps(id, result)) == if id in d.rows then Deleted(d, id, result) else d
  {
    var s := DeleteSteps(id, result);
    var rest := [Edge(0, result), Write(0), Abandon(0)];
    TwoSteps(d, s);
    assert s[2..] == rest;
    if id in d.rows {
      var w := Work(Delete, id, d.rows[id], d.now, DeleteFrom(d.rows[id], d.now));
      var d1 := Solo(d, w);
      assert Apply(d, s[0]) == d1;
      hide Apply;
      if Leaving(d.rows[id].status) {
        OutOfTurn(d1, id, w, false, result);
        EdgeAndWrite(d1, id, w, result, false);
      } else {
        SoloMark(d1, id, w);
        var m := Bumped(w.seen, Marked(Delete, w.seen));
        var w2 := w.(seen := m, stage := DeleteFrom(m, w.at));
        var d2 := Solo(d.(rows := d.rows[id := m]), w2);
        EdgeAndWrite(d2, id, w2, result, false);
        Overwritten(d.rows, id, m, Concluded(d2, id, w2, result).rows[id]);
      }
    } else {
      assert Apply(d, s[0]) == d;
      hide Apply;
      NobodyThere(d, false, result);
      ThreeSteps(d, rest);
    }
  }

  /** What the job leaves of a listed row. */
  function Revalidated(d: Desk, due: Due): Desk {
    if due.id !in d.rows then d
    else
      var row := d.rows[due.id];
      if row.status.Removing? then
        d.(rows := d.rows[due.id := Bumped(row, if due.result.None? then row else RemovalFinished(row, due.result.value, d.now))])
      else if row.status.Active? || row.status.Suspended? then
        var next := if !due.matched then Unproved(row, d.now)
                    else if row.status.Active? then row
                    else AfterEdge(Work(Recheck, due.id, row, d.now, ToAskEdge), due.result, d.now);
        d.(rows := d.rows[due.id := Bumped(row, next)],
           proofs := if due.matched then d.proofs + {Proof(due.id, row.version)} else d.proofs)
      else d
  }

  lemma RevalidateRuns(d: Desk, due: Due)
    requires Quiet(d)
    ensures Run(d, RevalidateSteps(due)) == Revalidated(d, due)
  {
    var s := RevalidateSteps(due);
    var id := due.id;
    var rest := [Edge(0, due.result), Write(0), Abandon(0)];
    TwoSteps(d, s);
    assert s[2..] == [s[2]] + rest;
    var d1 := Apply(d, s[0]);
    if id in d.rows && (d.rows[id].status.Removing? || d.rows[id].status.Active? || d.rows[id].status.Suspended?) {
      var kind := if d.rows[id].status.Removing? then FinishRemoval else Recheck;
      var w := Work(kind, id, d.rows[id], d.now, Listed);
      assert d1 == Solo(d, w);
      hide Apply;
      SoloReload(d1, id, w);
      var w2 := w.(stage := if kind.FinishRemoval? then ToAskEdge else ToAskDns);
      var d2 := Solo(d, w2);
      if kind.FinishRemoval? {
        OutOfTurn(d2, id, w2, due.matched, due.result);
        EdgeAndWrite(d2, id, w2, due.result, due.matched);
      } else {
        SoloDns(d2, id, w2, due.matched);
        var w3 := w2.(stage := AfterDns(w2, due.matched));
        EdgeAndWrite(Solo(d2, w3).(proofs := if due.matched then d.proofs + {Proof(id, w.seen.version)} else d.proofs),
                     id, w3, due.result, due.matched);
      }
      StepThenRun(d2, s[2], rest);
    } else {
      if id in d.rows && d.rows[id].status.Verifying? {
        var w := Work(Recheck, id, d.rows[id], d.now, Listed);
        assert d1 == Solo(d, w);
        SoloReload(d1, id, w);
      } else {
        assert d1 == d;
        NobodyThere(d, due.matched, due.result);
      }
      hide Apply;
      NobodyThere(d, due.matched, due.result);
      StepThenRun(d, s[2], rest);
      ThreeSteps(d, rest);
    }
  }

  /** What a sweep leaves of a listed tombstone. */
  lemma SweepRuns(d: Desk, id: DomainId)
    requires Quiet(d)
    ensures Run(d, SweepSteps(id)) == if id in d.rows && Expired(d.rows[id], d.now) then d.(rows := d.rows - {id}) else d
  {
    var s := SweepSteps(id);
    TwoSteps(d, s);
    if id in d.rows && Expired(d.rows[id], d.now) {
      var w := Sweep(id, d.rows[id], None);
      assert Apply(d, s[0]) == d.(flights := map[0 := w]);
      assert map[0 := w] - {0} == map[];
    } else {
      assert Apply(d, s[0]) == d;
      hide Apply;
      NobodyThere(d, false, None);
    }
  }

  lemma CreateRuns(d: Desk, n: NewRow)
    requires Quiet(d) && RowsOk(d) && n.id !in d.born
    ensures !Claimed(d, n.host) ==>
              Run(d, CreateSteps(n)) == d.(rows := d.rows[n.id := NewDomain(n)], born := d.born + {n.id})
    ensures forall id :: id in d.rows && d.rows[id].host == n.host ==>
              Run(d, CreateSteps(n)) == if Expired(d.rows[id], d.now)
                then d.(rows := (d.rows - {id})[n.id := NewDomain(n)], born := d.born + {n.id}) else d
  {
    var s := CreateSteps(n);
    ThreeSteps(d, s);
    if !Claimed(d, n.host) {
      assert Apply(d, s[0]) == d.(flights := map[0 := Insert(n)]);
      InsertAlone(d, n);
      assert Apply(Apply(d, s[0]), s[1]) == Apply(d, s[0]);
    } else {
      var id :| id in d.rows && d.rows[id].host == n.host;
      assert forall x :: x in d.rows && d.rows[x].host == n.host ==> x == id;
      ClaimOf(d, n, id);
      if Expired(d.rows[id], d.now) {
        var w := Sweep(id, d.rows[id], Some(n));
        var e := d.(rows := d.rows - {id});
        assert Apply(d, s[0]) == d.(flights := map[0 := w]);
        assert map[0 := w][0 := Insert(n)] == map[0 := Insert(n)];
        assert Apply(Apply(d, s[0]), s[1]) == e.(flights := map[0 := Insert(n)]);
        InsertAlone(e, n);
      } else {
        assert Apply(d, s[0]) == d;
        hide Apply;
        NobodyThere(d, false, None);
      }
    }
  }

  lemma InsertAlone(d: Desk, n: NewRow)
    requires Quiet(d) && !Claimed(d, n.host) && n.id !in d.born
    ensures Apply(d.(flights := map[0 := Insert(n)]), InsertRow(0))
         == d.(rows := d.rows[n.id := NewDomain(n)], born := d.born + {n.id})
  {
    assert map[0 := Insert(n)] - {0} == map[];
  }

  lemma ClaimOf(d: Desk, n: NewRow, id: DomainId)
    requires Quiet(d) && id in d.rows && d.rows[id].host == n.host
    requires forall x :: x in d.rows && d.rows[x].host == n.host ==> x == id
    ensures Claiming(d, 0, n) == if Expired(d.rows[id], d.now) then Fly(d, 0, Sweep(id, d.rows[id], Some(n))) else d
  {
    var claims := set x | x in d.rows && d.rows[x].host == n.host && Expired(d.rows[x], d.now);
    if Expired(d.rows[id], d.now) {
      assert claims == {id};
    } else {
      assert claims == {};
    }
  }

  lemma MarkedIsNotRemoved(row: Row)
    ensures !Leaving(row.status) ==> !Bumped(row, Marked(Delete, row)).tls.TlsRemoved?
  {
  }

  class DomainService {
    var rows: map<DomainId, Row>
    var born: set<DomainId>
    var proofs: set<Proof>
    var now: int

    ghost function View(): Desk
      reads this
    {
      Desk(rows, born, map[], proofs, now)
    }

    ghost predicate Valid()
      reads this
    {
      DeskOk(View())
    }

    constructor ()
      ensures View() == EMPTY && Valid()
    {
      rows, born, proofs, now := map[], {}, {}, 0;
    }

    /** Update where the version still is the expected one; the new row carries the next version. */
    method UpdateCas(id: DomainId, expected: nat, next: Row) returns (row: Option<Row>)
      modifies this`rows
      ensures row.Some? <==> id in old(rows) && old(rows[id]).version == expected
      ensures row.Some? ==> row.value == next.(version := expected + 1) && rows == old(rows)[id := row.value]
      ensures row.None? ==> rows == old(rows)
    {
      if id !in rows || rows[id].version != expected {
        return None;
      }
      row := Some(next.(version := expected + 1));
      rows := rows[id := row.value];
    }

    method CreateDomain(n: NewRow) returns (created: bool)
      requires Valid() && n.id !in born
      modifies this
      ensures Valid() && View() == Run(old(View()), CreateSteps(n))
      ensures created <==> n.id in rows
    {
      ghost var d := View();
      RunKeepsDesk(d, CreateSteps(n));
      CreateRuns(d, n);
      hide DeskOk, Run;
      if exists id :: id in rows && rows[id].host == n.host {
        var id :| id in rows && rows[id].host == n.host;
        if !Expired(rows[id], now) {
          return false;
        }
        rows := rows - {id};
      }
      rows := rows[n.id := NewDomain(n)];
      born := born + {n.id};
      return true;
    }

    method VerifyDomain(id: DomainId, tokenHash: string, matched: bool, result: Option<Tls>) returns (active: bool)
      requires Valid()
      modifies this
      ensures Valid() && View() == Run(old(View()), VerifySteps(id, tokenHash, matched, result))
      ensures active <==> id in rows && rows[id].status.Active?
    {
      ghost var d := View();
      RunKeepsDesk(d, VerifySteps(id, tokenHash, matched, result));
      VerifyRuns(d, id, tokenHash, matched, result);
      hide DeskOk, Run;
      if id !in rows {
        return false;
      }
      var row := rows[id];
      if row.status.Active? {
        return true;
      }
      if !MayVerify(row.status) || row.tokenHash != tokenHash {
        return false;
      }
      var marked := UpdateCas(id, row.version, row.(status := Verifying, failure := None));
      row := marked.value;
      var next: Row;
      if !matched {
        next := Failing(row, "DNS_TXT_MISMATCH");
      } else {
        proofs := proofs + {Proof(id, row.version)};
        next := if result.None? then Failing(row, "EDGE_PROVISION_FAILED") else Activated(row, result.value, now);
      }
      var out := UpdateCas(id, row.version, next);
      Overwritten(d.rows, id, row, out.value);
      return matched && result.Some?;
    }

    /** Mark the row as leaving, unless it is. */
    method MarkRemoving(id: DomainId) returns (row: Row)
      requires id in rows
      modifies this`rows
      ensures row == if Leaving(old(rows[id]).status) then old(rows[id]) else Bumped(old(rows[id]), Marked(Delete, old(rows[id])))
      ensures rows == old(rows)[id := row]
    {
      row := rows[id];
      if !row.status.Removing? && !row.status.Tombstoned? {
        var marked := UpdateCas(id, row.version, row.(status := Removing, tls := TlsRemoving));
        row := marked.value;
      }
    }

    /** Edge teardown first, then the tombstone with its cooldown. */
    method DeleteDomain(id: DomainId, result: Option<Tls>)
      requires Valid()
      modifies this
      ensures Valid() && View() == Run(old(View()), DeleteSteps(id, result))
    {
      hide DeskOk, Run, Marked, Expired, Claimed;
      ghost var d := View();
      RunKeepsDesk(d, DeleteSteps(id, result));
      DeleteRuns(d, id, result);
      if id !in rows {
        return;
      }
      var row := MarkRemoving(id);
      var next: Row;
      if row.tls.TlsRemoved? {
        next := Tombstone(row, TlsRemoved, now);
      } else if result.None? {
        next := row.(failure := Some("EDGE_REMOVE_FAILED"));
      } else {
        next := Tombstone(row, result.value, now);
      }
      MarkedIsNotRemoved(d.rows[id]);
      var out := UpdateCas(id, row.version, next);
      Overwritten(d.rows, id, row, out.value);
    }

    /** The job's retry of a removal. */
    method FinishRemoval(id: DomainId, result: Option<Tls>)
      requires id in rows
      modifies this`rows
      ensures rows == old(rows)[id := Bumped(old(rows[id]), if result.None? then old(rows[id]) else RemovalFinished(old(rows[id]), result.value, now))]
    {
      var row := rows[id];
      var out: Option<Row>;
      if result.None? {
        out := UpdateCas(id, row.version, row);
        return;
      }
      out := UpdateCas(id, row.version, RemovalFinished(row, result.value, now));
    }

    /** One listed row of the job: the removal retry or the DNS recheck. */
    method RevalidateOne(due: Due)
      requires Valid()
      modifies this
      ensures Valid() && View() == Run(old(View()), RevalidateSteps(due))
    {
      ghost var d := View();
      RunKeepsDesk(d, RevalidateSteps(due));
      RevalidateRuns(d, due);
      hide DeskOk, Run, Unproved, AfterEdge, RemovalFinished, Bumped;
      if due.id !in rows {
        return;
      }
      var row := rows[due.id];
      if row.status.Removing? {
        FinishRemoval(due.id, due.result);
        return;
      }
      if !row.status.Active? && !row.status.Suspended? {
        return;
      }
      RecheckRow(due);
    }

    /** The DNS recheck of a routed or suspended row. */
    method RecheckRow(due: Due)
      requires due.id in rows && (rows[due.id].status.Active? || rows[due.id].status.Suspended?)
      modifies this`rows, this`proofs
      ensures View() == Revalidated(old(View()), due)
    {
      var row := rows[due.id];
      var version := row.version;
      if !due.matched {
        var out := UpdateCas(due.id, version, Unproved(row, now));
        return;
      }
      proofs := proofs + {Proof(due.id, version)};
      if row.status.Suspended? {
        if due.result.Some? {
          row := row.(tls := if due.result.value.NoTls? then TlsActive else due.result.value);
        }
        row := row.(status := Active, failure := None);
      }
      var out := UpdateCas(due.id, version, row);
    }

    /** The job: expired tombstones first, then the rows that are due. */
    method RevalidateDue(tombs: seq<DomainId>, due: seq<Due>)
      requires Valid()
      modifies this
      ensures Valid() && View() == Run(old(View()), JobSteps(tombs, due))
    {
      ghost var d := View();
      var k := 0;
      while k < |tombs|
        invariant 0 <= k <= |tombs| && Valid()
        invariant Run(d, JobSteps(tombs, due)) == Run(View(), JobSteps(tombs[k..], due))
      {
        var id := tombs[k];
        assert tombs[k..][0] == id && tombs[k..][1..] == tombs[k + 1..];
        RunSplits(View(), SweepSteps(id), JobSteps(tombs[k + 1..], due));
        RunKeepsDesk(View(), SweepSteps(id));
        SweepRuns(View(), id);
        hide DeskOk, Run, SweepSteps;
        if id in rows && Expired(rows[id], now) {
          rows := rows - {id};
        }
        k := k + 1;
      }
      k := 0;
      while k < |due|
        invariant 0 <= k <= |due| && Valid()
        invariant Run(d, JobSteps(tombs, due)) == Run(View(), JobSteps([], due[k..]))
      {
        assert due[k..][0] == due[k] && due[k..][1..] == due[k + 1..];
        RunSplits(View(), RevalidateSteps(due[k]), JobSteps([], due[k + 1..]));
        hide RevalidateSteps;
        RevalidateOne(due[k]);
        k := k + 1;
      }
    }

    /** The store a host is served from: the one active row, if its certificate is active too. */
    method ResolveHostname(host: string) returns (store: Option<string>)
      requires Valid()
      ensures store == ResolveHost(View(), host)
    {
      if exists id :: id in rows && rows[id].host == host && rows[id].status.Active? {
        var id :| id in rows && rows[id].host == host && rows[id].status.Active?;
        assert forall x :: x in rows && rows[x].host == host ==> x == id;
        if rows[id].tls.TlsActive? {
          return Some(rows[id].store);
        }
      }
      return None;
    }
  }
}
