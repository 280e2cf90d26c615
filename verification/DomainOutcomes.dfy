/** What each domain operation leaves in its row, column by column, for every answer of DNS and of the edge. */
module DomainOutcomes {
  import opened Options
  import opened Domains
  import opened DomainDesk

  /** What the edge says about a certificate; silence is taken for what was asked. */
  function Said(tls: Tls, asked: Tls): Tls {
    if tls == NoTls then asked else tls
  }

  /** Within 72 hours of its last verification. */
  predicate InGrace(r: Row, now: int) {
    r.verifiedAt.Some? && now - r.verifiedAt.value < 259200
  }

  predicate Going(r: Row) {
    r.status == Removing || r.status == Tombstoned
  }

  predicate Verifiable(r: Row, tokenHash: string) {
    (r.status == PendingDns || r.status == Verifying || r.status == Failed || r.status == Suspended) && r.tokenHash == tokenHash
  }

  // ---------------------------------------------------------------------------
  // Under any interleaving: what a caller is about to write
  // ---------------------------------------------------------------------------

  predicate AboutToWrite(d: Desk, f: nat, next: Row) {
    f in d.flights && d.flights[f].Work? && d.flights[f].stage == ToWrite(next)
  }

  /** The DNS answer decides: a verification without the record fails, with it asks the edge; a recheck of a routed row without
      it only notes the failure within the 72 hours and suspends the row after them; with it, a suspended row asks the edge. */
  lemma DnsDecides(d: Desk, f: nat, matched: bool)
    requires Flying(d, f, ToAskDns)
    ensures var w := d.flights[f]; var r := w.seen; var e := Apply(d, Dns(f, matched));
      && e.rows == d.rows && e.proofs == d.proofs + (if matched then {Proof(w.id, r.version)} else {})
      && (w.kind == Verify && !matched ==> AboutToWrite(e, f, r.(status := Failed, failure := Some("DNS_TXT_MISMATCH"))))
      && (w.kind == Verify && matched ==> Flying(e, f, ToAskEdge))
      && (w.kind != Verify && matched && r.status == Suspended ==> Flying(e, f, ToAskEdge))
      && (w.kind != Verify && matched && r.status != Suspended ==> AboutToWrite(e, f, r))
      && (w.kind != Verify && !matched && r.status == Active && InGrace(r, w.at) ==>
            AboutToWrite(e, f, r.(failure := Some("DNS_RECHECK_FAILED"))))
      && (w.kind != Verify && !matched && r.status == Active && !InGrace(r, w.at) ==>
            AboutToWrite(e, f, r.(status := Suspended, tls := TlsRemoved, failure := Some("DNS_REVALIDATION_FAILED"))))
      && (w.kind != Verify && !matched && r.status == Suspended ==>
            AboutToWrite(e, f, r.(failure := Some("DNS_REVALIDATION_FAILED"))))
  {
  }

  /** The edge decides: a verified row is routed from now on, a removed one is a tombstone for a day from when its removal began. */
  lemma EdgeDecides(d: Desk, f: nat, result: Option<Tls>)
    requires Flying(d, f, ToAskEdge)
    ensures var w := d.flights[f]; var r := w.seen; var e := Apply(d, Edge(f, result));
      && e.rows == d.rows && e.proofs == d.proofs
      && (w.kind == Verify && result.None? ==> AboutToWrite(e, f, r.(status := Failed, failure := Some("EDGE_PROVISION_FAILED"))))
      && (w.kind == Verify && result.Some? ==>
            AboutToWrite(e, f, r.(status := Active, tls := Said(result.value, TlsActive), verifiedAt := Some(d.now), failure := None)))
      && (w.kind == Delete && result.None? ==> AboutToWrite(e, f, r.(failure := Some("EDGE_REMOVE_FAILED"))))
      && (w.kind == Delete && result.Some? ==>
            AboutToWrite(e, f, r.(status := Tombstoned, tls := Said(result.value, TlsRemoved), cooldownUntil := Some(w.at + 86400), failure := None)))
      && (w.kind == FinishRemoval && result.None? ==> AboutToWrite(e, f, r))
      && (w.kind == FinishRemoval && result.Some? ==>
            AboutToWrite(e, f, r.(status := Tombstoned, tls := Said(result.value, TlsRemoved), cooldownUntil := Some(w.at + 86400))))
      && (w.kind == Recheck && result.None? ==> AboutToWrite(e, f, r.(status := Active, failure := None)))
      && (w.kind == Recheck && result.Some? ==>
            AboutToWrite(e, f, r.(status := Active, tls := Said(result.value, TlsActive), failure := None)))
  {
  }

  /** What was decided is written exactly when the row still is the one that was read. */
  lemma WritesWhatWasDecided(d: Desk, f: nat, next: Row)
    requires DeskOk(d) && AboutToWrite(d, f, next)
    ensures var w := d.flights[f]; var e := Apply(d, Write(f));
      && e.flights == d.flights - {f}
      && e.rows == if w.id in d.rows && d.rows[w.id] == w.seen then d.rows[w.id := next.(version := w.seen.version + 1)] else d.rows
  {
    CasHitsTheRowThatWasRead(d, f);
    hide DeskOk;
  }

  /** The first write of a verification and of a removal. */
  lemma MarksExactly(d: Desk, f: nat)
    requires DeskOk(d) && Flying(d, f, ToMark)
    ensures var w := d.flights[f]; var r := w.seen; var e := Apply(d, Mark(f));
      var m := if w.kind == Verify then r.(status := Verifying, failure := None, version := r.version + 1)
               else r.(status := Removing, tls := TlsRemoving, version := r.version + 1);
      && (w.id in d.rows && d.rows[w.id] == r ==>
            && e.rows == d.rows[w.id := m] && f in e.flights && e.flights[f].Work? && e.flights[f].seen == m
            && Flying(e, f, if w.kind == Verify then ToAskDns else ToAskEdge))
      && (!(w.id in d.rows && d.rows[w.id] == r) ==> e.rows == d.rows && e.flights == d.flights - {f})
  {
    CasHitsTheRowThatWasRead(d, f);
    hide DeskOk;
  }

  // ---------------------------------------------------------------------------
  // Operations from their first step to their last
  // ---------------------------------------------------------------------------

  /** The desk differs in this row alone. */
  predicate OnlyRow(d: Desk, e: Desk, id: DomainId, r: Row) {
    e.rows == d.rows[id := r] && e.born == d.born && e.flights == d.flights && e.now == d.now
  }

  lemma VerifyLeaves(d: Desk, id: DomainId, tokenHash: string, matched: bool, result: Option<Tls>)
    requires Quiet(d) && id in d.rows
    ensures var r := d.rows[id]; var e := Run(d, VerifySteps(id, tokenHash, matched, result));
      && (!Verifiable(r, tokenHash) ==> e == d)
      && (Verifiable(r, tokenHash) && !matched ==>
            OnlyRow(d, e, id, Row(r.store, r.host, r.tokenHash, Failed, r.version + 2, r.tls, Some("DNS_TXT_MISMATCH"), r.verifiedAt, r.cooldownUntil)))
      && (Verifiable(r, tokenHash) && matched && result.None? ==>
            OnlyRow(d, e, id, Row(r.store, r.host, r.tokenHash, Failed, r.version + 2, r.tls, Some("EDGE_PROVISION_FAILED"), r.verifiedAt, r.cooldownUntil)))
      && (Verifiable(r, tokenHash) && matched && result.Some? ==>
            OnlyRow(d, e, id, Row(r.store, r.host, r.tokenHash, Active, r.version + 2, Said(result.value, TlsActive), None, Some(d.now), r.cooldownUntil)))
  {
    VerifyRuns(d, id, tokenHash, matched, result);
    hide Run, VerifySteps;
  }

  /** A removal the edge has confirmed, now or before, leaves a tombstone for a day from now; any other leaves the row on its way. */
  lemma DeleteLeaves(d: Desk, id: DomainId, result: Option<Tls>)
    requires Quiet(d) && id in d.rows
    ensures var r := d.rows[id]; var e := Run(d, DeleteSteps(id, result)); var gone := Going(r) && r.tls == TlsRemoved;
      var v := if Going(r) then r.version + 1 else r.version + 2;
      && (gone || result.Some? ==>
            OnlyRow(d, e, id, Row(r.store, r.host, r.tokenHash, Tombstoned, v, if gone then TlsRemoved else Said(result.value, TlsRemoved),
                                  None, r.verifiedAt, Some(d.now + 86400))))
      && (!gone && result.None? ==>
            OnlyRow(d, e, id, Row(r.store, r.host, r.tokenHash, if Going(r) then r.status else Removing, v, if Going(r) then r.tls else TlsRemoving,
                                  Some("EDGE_REMOVE_FAILED"), r.verifiedAt, r.cooldownUntil)))
  {
    hide Run, DeleteSteps;
    DeleteRuns(d, id, result);
  }

  /** The job finishes removals, rechecks routed and suspended rows, and leaves every other row alone. */
  lemma RevalidateLeaves(d: Desk, due: Due)
    requires Quiet(d) && due.id in d.rows
    ensures var id := due.id; var r := d.rows[id]; var e := Run(d, RevalidateSteps(due)); var n := r.(version := r.version + 1);
      && (r.status == Removing && due.result.None? ==> OnlyRow(d, e, id, n))
      && (r.status == Removing && due.result.Some? ==>
            OnlyRow(d, e, id, n.(status := Tombstoned, tls := Said(due.result.value, TlsRemoved), cooldownUntil := Some(d.now + 86400))))
      && (r.status == Active && due.matched ==> OnlyRow(d, e, id, n))
      && (r.status == Active && !due.matched && InGrace(r, d.now) ==> OnlyRow(d, e, id, n.(failure := Some("DNS_RECHECK_FAILED"))))
      && (r.status == Active && !due.matched && !InGrace(r, d.now) ==>
            OnlyRow(d, e, id, n.(status := Suspended, tls := TlsRemoved, failure := Some("DNS_REVALIDATION_FAILED"))))
      && (r.status == Suspended && !due.matched ==> OnlyRow(d, e, id, n.(failure := Some("DNS_REVALIDATION_FAILED"))))
      && (r.status == Suspended && due.matched ==>
            OnlyRow(d, e, id, n.(status := Active, failure := None, tls := if due.result.Some? then Said(due.result.value, TlsActive) else r.tls)))
      && (r.status != Removing && r.status != Active && r.status != Suspended ==> e == d)
  {
    RevalidateRuns(d, due);
    hide Run, RevalidateSteps;
  }

  /** A tombstone is swept once its cooldown has elapsed. */
  predicate Elapsed(r: Row, now: int) {
    r.status == Tombstoned && r.cooldownUntil.Some? && r.cooldownUntil.value <= now
  }

  /** A host that no row claims, or only a tombstone whose cooldown has elapsed, gets a new row that waits for its DNS record; any
      other is refused. */
  lemma CreateLeaves(d: Desk, n: NewRow)
    requires Quiet(d) && RowsOk(d) && n.id !in d.born
    ensures var e := Run(d, CreateSteps(n)); var row := Row(n.store, n.host, n.tokenHash, PendingDns, 1, NoTls, None, None, None);
      && ((forall id :: id in d.rows ==> d.rows[id].host != n.host) ==> e == d.(rows := d.rows[n.id := row], born := d.born + {n.id}))
      && (forall id :: id in d.rows && d.rows[id].host == n.host ==>
            e == if Elapsed(d.rows[id], d.now) then d.(rows := (d.rows - {id})[n.id := row], born := d.born + {n.id}) else d)
  {
    CreateRuns(d, n);
    hide Run, CreateSteps, RowsOk;
  }

  lemma SweepLeaves(d: Desk, id: DomainId)
    requires Quiet(d)
    ensures Run(d, SweepSteps(id)) == if id in d.rows && Elapsed(d.rows[id], d.now) then d.(rows := d.rows - {id}) else d
  {
    SweepRuns(d, id);
    hide Run, SweepSteps;
  }
}
