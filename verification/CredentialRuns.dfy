/** Credentials: what each operation leaves in the rows, and what a key's status means over whole runs. */
module CredentialRuns {
  import opened Options
  import opened Credentials

  // ---------------------------------------------------------------------------
  // Requests
  // ---------------------------------------------------------------------------

  /** The request is still to be claimed, for this merchant and mode. */
  predicate Waits(v: Vault, merchant: string, mode: Mode, i: IssuanceId) {
    && i in v.issuances && v.issuances[i].merchant == merchant && v.issuances[i].mode == mode
    && (v.issuances[i].status == PendingKyc || v.issuances[i].status == Authorized)
  }

  lemma WaitingHasItsSlot(v: Vault, merchant: string, mode: Mode, i: IssuanceId)
    requires VaultOk(v)
    ensures Waits(v, merchant, mode, i) <==> Slot(merchant, mode) in v.outstanding && v.outstanding[Slot(merchant, mode)] == i
  {
    hide KeysOk, ClaimsOk, OriginsOk, HashesOk;
  }

  /** The claim rows once a request got a new token: its earlier ones are revoked, the new one is active. */
  predicate ClaimsRenewed(v: Vault, e: Vault, c: ClaimId, i: IssuanceId, hash: string) {
    && e.claims.Keys == v.claims.Keys + {c} && e.claims[c] == SecretClaim(i, hash, ActiveClaim)
    && (forall x :: x in v.claims && x != c ==>
          e.claims[x] == (if v.claims[x].issuance == i && v.claims[x].status == ActiveClaim then v.claims[x].(status := RevokedClaim) else v.claims[x]))
  }

  /** Keys, announcements and authorisations under way. */
  predicate SameKeys(v: Vault, e: Vault) {
    e.keys == v.keys && e.activeKey == v.activeKey && e.announced == v.announced && e.flights == v.flights
  }

  predicate NewIds(v: Vault, req: Request) {
    req.id !in v.issuances && req.claim !in v.claims && req.hash !in v.minted
  }

  /** A merchant's request: the one that waits is authorised with a new token of 15 minutes for 7 days, unless it waits for KYC
      and LIVE is not allowed yet. */
  lemma AskRenewsExactly(v: Vault, req: Request, capable: bool, now: int, i: IssuanceId)
    requires VaultOk(v) && NewIds(v, req) && Waits(v, req.merchant, req.mode, i)
    ensures var e := Apply(v, Ask(req, capable, now)); var blocked := v.issuances[i].status == PendingKyc && req.mode == Live && !capable;
      && (blocked ==> e == v)
      && (!blocked ==>
            && e.issuances == v.issuances[i := Issuance(req.merchant, req.mode, Authorized, Some(Token(req.hash, req.user, now + 900)), Some(now + 604800))]
            && ClaimsRenewed(v, e, req.claim, i, req.hash) && SameKeys(v, e) && e.outstanding == v.outstanding)
  {
    hide VaultOk, WithClaim, ClaimsRenewed;
    WaitingHasItsSlot(v, req.merchant, req.mode, i);
    ClaimsAreRenewed(v, AskFor(v, req, capable, now), req.claim, i, req.hash);
  }

  lemma ClaimsAreRenewed(v: Vault, e: Vault, c: ClaimId, i: IssuanceId, hash: string)
    ensures e.claims == WithClaim(v.claims, c, i, hash) ==> ClaimsRenewed(v, e, c, i, hash)
  {
  }

  /** Without one that waits a new request is stored, authorised at once for SANDBOX and where LIVE is allowed. */
  lemma AskOpensExactly(v: Vault, req: Request, capable: bool, now: int)
    requires VaultOk(v) && NewIds(v, req) && forall i :: !Waits(v, req.merchant, req.mode, i)
    ensures var e := Apply(v, Ask(req, capable, now)); var given := req.mode == Sandbox || capable;
      && e.issuances == v.issuances[req.id := Issuance(req.merchant, req.mode, if given then Authorized else PendingKyc,
                                                       if given then Some(Token(req.hash, req.user, now + 900)) else None, Some(now + 604800))]
      && (given ==> ClaimsRenewed(v, e, req.claim, req.id, req.hash)) && (!given ==> e.claims == v.claims) && SameKeys(v, e)
  {
    var slot := Slot(req.merchant, req.mode);
    if slot in v.outstanding {
      WaitingHasItsSlot(v, req.merchant, req.mode, v.outstanding[slot]);
    }
    NothingClaimsNewRequests(v, req.id);
    hide VaultOk;
  }

  lemma NothingClaimsNewRequests(v: Vault, id: IssuanceId)
    requires VaultOk(v) && id !in v.issuances
    ensures forall c :: c in v.claims ==> v.claims[c].issuance != id
  {
    hide KeysOk, SlotsOk, OriginsOk, HashesOk, OneActiveEach;
  }

  // ---------------------------------------------------------------------------
  // Claims
  // ---------------------------------------------------------------------------

  /** The exchange hands out the key of this request: it is authorised, the token is its own, for this user and not expired, the
      scope is its merchant, the request itself has not expired, LIVE is allowed, and no key of it is out. */
  predicate Claimable(v: Vault, s: Step, i: IssuanceId) {
    && s.Exchange? && s.key !in v.keys && i in v.issuances && i !in v.announced
    && v.issuances[i].status == Authorized && v.issuances[i].token.Some?
    && v.issuances[i].token.value.hash == s.hash && v.issuances[i].token.value.recipient == s.user && s.now < v.issuances[i].token.value.expiresAt
    && (s.scope.Some? ==> s.scope.value == v.issuances[i].merchant)
    && (v.issuances[i].expiresAt.Some? ==> s.now < v.issuances[i].expiresAt.value)
    && (v.issuances[i].mode == Live ==> s.capable)
  }

  /** The claim of the token is consumed, any other of the request revoked. */
  predicate ClaimsEnded(v: Vault, e: Vault, i: IssuanceId, hash: string) {
    && e.claims.Keys == v.claims.Keys
    && (forall c :: c in v.claims ==>
          e.claims[c] == (if v.claims[c].status != ActiveClaim then v.claims[c]
                          else if v.claims[c].hash == hash then v.claims[c].(status := ConsumedClaim)
                          else if v.claims[c].issuance == i then v.claims[c].(status := RevokedClaim) else v.claims[c]))
  }

  /** The merchant's active key is revoked, the new one is active. */
  predicate KeyRotated(v: Vault, e: Vault, k: KeyId, key: Key) {
    && e.keys.Keys == v.keys.Keys + {k} && e.keys[k] == key
    && (forall x :: x in v.keys && x != k ==>
          e.keys[x] == (if v.keys[x].merchant == key.merchant && v.keys[x].status == ActiveKey then v.keys[x].(status := RevokedKey) else v.keys[x]))
  }

  lemma ExchangesExactly(v: Vault, s: Step, i: IssuanceId)
    requires VaultOk(v) && Claimable(v, s, i)
    ensures var e := Apply(v, s); var r := v.issuances[i];
      && KeyRotated(v, e, s.key, Key(r.merchant, r.mode, ActiveKey, i))
      && e.issuances == v.issuances[i := r.(status := Claimed)] && ClaimsEnded(v, e, i, s.hash)
      && e.announced == v.announced + {i} && e.flights == v.flights && e.minted == v.minted
  {
    hide VaultOk, Opened, ClaimsEnded, KeyRotated, RevokeClaimsOf, ConsumeClaim, RevokeActive;
    VaultHasHashes(v);
    TokensOpenOne(v, s.hash, i);
    HandedOut(v, i, s.hash, s.key);
  }

  lemma VaultHasHashes(v: Vault)
    requires VaultOk(v)
    ensures HashesOk(v)
  {
    hide HashesOk;
  }

  lemma HandedOut(v: Vault, i: IssuanceId, hash: string, k: KeyId)
    requires i in v.issuances && k !in v.keys
    ensures var e := HandOut(v, i, hash, k); var r := v.issuances[i];
            ClaimsEnded(v, e, i, hash) && KeyRotated(v, e, k, Key(r.merchant, r.mode, ActiveKey, i))
  {
  }

  /** An exchange that no request is claimable by changes nothing. */
  lemma OtherExchangesDoNothing(v: Vault, s: Step)
    requires s.Exchange? && forall i :: !Claimable(v, s, i)
    ensures Apply(v, s) == v
  {
    OpenedOpens(v, s.hash);
    hide Opened, HandOut;
    if Opened(v, s.hash).Some? {
      assert !Claimable(v, s, Opened(v, s.hash).value);
    }
  }

  // ---------------------------------------------------------------------------
  // Keys
  // ---------------------------------------------------------------------------

  predicate HasStatus(v: Vault, k: KeyId, status: KeyStatus) {
    k in v.keys && v.keys[k].status == status
  }

  predicate Revokes(v: Vault, s: Step, k: KeyId) {
    s == RevokeKey(k) && k in v.keys
  }

  predicate Suspends(v: Vault, s: Step, k: KeyId) {
    s == SuspendKey(k) && HasStatus(v, k, ActiveKey)
  }

  /** A new key of the merchant takes the place of the active one. */
  ghost predicate Replaces(v: Vault, s: Step, k: KeyId) {
    HasStatus(v, k, ActiveKey) && exists i :: Claimable(v, s, i) && v.issuances[i].merchant == v.keys[k].merchant
  }

  ghost predicate HandsOutKey(v: Vault, s: Step, k: KeyId) {
    s.Exchange? && s.key == k && exists i :: Claimable(v, s, i)
  }

  /** Revoked by its merchant or replaced by the next key: for ever. Suspended while it was active: until revoked. */
  lemma KeysMoveExactly(v: Vault, s: Step, k: KeyId)
    requires VaultOk(v)
    ensures var e := Apply(v, s);
      && (k in e.keys <==> k in v.keys || HandsOutKey(v, s, k))
      && (HasStatus(e, k, RevokedKey) <==> HasStatus(v, k, RevokedKey) || Revokes(v, s, k) || Replaces(v, s, k))
      && (HasStatus(e, k, SuspendedKey) <==> (HasStatus(v, k, SuspendedKey) && !Revokes(v, s, k)) || Suspends(v, s, k))
  {
    hide VaultOk, Apply, Claimable;
    OnlyExchangesClaim(v, s);
    if s.Exchange? {
      ExchangeMovesKeys(v, s, k);
    } else if s.RevokeKey? || s.SuspendKey? {
      EndedKeyIs(v, s);
    } else {
      OthersLeaveKeys(v, s);
    }
  }

  lemma EndedKeyIs(v: Vault, s: Step)
    requires s.RevokeKey? || s.SuspendKey?
    ensures Apply(v, s).keys == if Revokes(v, s, s.key) then v.keys[s.key := v.keys[s.key].(status := RevokedKey)]
                                else if Suspends(v, s, s.key) then v.keys[s.key := v.keys[s.key].(status := SuspendedKey)]
                                else v.keys
  {
    if s.key in v.keys {
      assert v.keys[s.key := v.keys[s.key]] == v.keys;
    }
  }

  lemma OthersLeaveKeys(v: Vault, s: Step)
    requires !s.Exchange? && !s.RevokeKey? && !s.SuspendKey?
    ensures Apply(v, s).keys == v.keys
  {
    hide AskFor, Find, Authorise;
    match s
    case Ask(req, capable, now) => AskLeavesKeys(v, req, capable, now);
    case AdminFind(f, merchant, active, id, now) => FindLeavesKeys(v, f, merchant, id, now);
    case AdminWrite(f, now) =>
      if f in v.flights && v.flights[f].seen.Some? && v.flights[f].id in v.issuances {
        AuthoriseLeavesKeys(v, v.flights[f], now);
      }
    case _ =>
  }

  lemma OnlyExchangesClaim(v: Vault, s: Step)
    ensures forall i :: Claimable(v, s, i) ==> s.Exchange? && s.key !in v.keys && i in v.issuances
  {
  }

  lemma ExchangeMovesKeys(v: Vault, s: Step, k: KeyId)
    requires VaultOk(v) && s.Exchange?
    ensures var e := Apply(v, s);
      && (k in e.keys <==> k in v.keys || HandsOutKey(v, s, k))
      && (HasStatus(e, k, RevokedKey) <==> HasStatus(v, k, RevokedKey) || Replaces(v, s, k))
      && (HasStatus(e, k, SuspendedKey) <==> HasStatus(v, k, SuspendedKey))
  {
    hide VaultOk, Apply, Claimable;
    OnlyExchangesClaim(v, s);
    if i :| Claimable(v, s, i) {
      ExchangesExactly(v, s, i);
      forall j | Claimable(v, s, j)
        ensures j == i
      {
        ClaimableIsOne(v, s, i, j);
      }
    } else {
      OtherExchangesDoNothing(v, s);
    }
  }

  lemma ClaimableIsOne(v: Vault, s: Step, i: IssuanceId, j: IssuanceId)
    requires VaultOk(v) && Claimable(v, s, i) && Claimable(v, s, j)
    ensures i == j
  {
    TokensOpenOne(v, s.hash, i);
    TokensOpenOne(v, s.hash, j);
    hide VaultOk, Opened;
  }

  lemma AskLeavesKeys(v: Vault, req: Request, capable: bool, now: int)
    ensures AskFor(v, req, capable, now).keys == v.keys
  {
    hide WithClaim;
  }

  lemma FindLeavesKeys(v: Vault, f: nat, merchant: string, id: IssuanceId, now: int)
    ensures Find(v, f, merchant, id, now).keys == v.keys
  {
  }

  lemma AuthoriseLeavesKeys(v: Vault, w: Authorising, now: int)
    requires w.seen.Some? && w.id in v.issuances
    ensures Authorise(v, w, now).keys == v.keys
  {
  }

  /** Some step of the run is such a step, in the vault it meets. */
  ghost predicate Sometime(steps: seq<Step>, q: (Vault, Step) -> bool) {
    exists n :: 0 <= n < |steps| && q(Run(EMPTY, steps[..n]), steps[n])
  }

  lemma SometimeGrows(steps: seq<Step>, q: (Vault, Step) -> bool)
    requires steps != []
    ensures var last := |steps| - 1;
            Sometime(steps, q) <==> Sometime(steps[..last], q) || q(Run(EMPTY, steps[..last]), steps[last])
  {
    var last := |steps| - 1;
    var before := steps[..last];
    hide Run;
    assert forall n :: 0 <= n < last ==> before[..n] == steps[..n] && before[n] == steps[n];
    if Sometime(before, q) {
      var n :| 0 <= n < |before| && q(Run(EMPTY, before[..n]), before[n]);
      assert q(Run(EMPTY, steps[..n]), steps[n]);
    }
  }

  ghost function Handing(k: KeyId): (Vault, Step) -> bool {
    (v: Vault, s: Step) => HandsOutKey(v, s, k)
  }

  ghost function Ending(k: KeyId): (Vault, Step) -> bool {
    (v: Vault, s: Step) => Revokes(v, s, k) || Replaces(v, s, k)
  }

  ghost function SuspendingOf(k: KeyId): (Vault, Step) -> bool {
    (v: Vault, s: Step) => Suspends(v, s, k)
  }

  /** After any run: a key is out exactly when some exchange handed it out; it is REVOKED exactly when some step revoked it or
      handed out another key of its merchant while it was active; it is SUSPENDED exactly when an administrator suspended it
      while it was active and neither happened. */
  lemma {:induction false} KeysAreWhatHappened(steps: seq<Step>, k: KeyId)
    ensures var v := Run(EMPTY, steps);
      && (k in v.keys <==> Sometime(steps, Handing(k)))
      && (HasStatus(v, k, RevokedKey) <==> Sometime(steps, Ending(k)))
      && (HasStatus(v, k, SuspendedKey) <==> Sometime(steps, SuspendingOf(k)) && !Sometime(steps, Ending(k)))
    decreases |steps|
  {
    if steps == [] {
      assert Run(EMPTY, steps) == EMPTY;
    } else {
      var last := |steps| - 1;
      EmptyIsOk();
      RunKeepsVault(EMPTY, steps[..last]);
      LastStep(EMPTY, steps);
      KeysMoveExactly(Run(EMPTY, steps[..last]), steps[last], k);
      KeysAreWhatHappened(steps[..last], k);
      SometimeGrows(steps, Handing(k));
      SometimeGrows(steps, Ending(k));
      SometimeGrows(steps, SuspendingOf(k));
      OneStatus(Run(EMPTY, steps[..last]), steps[last], k);
      hide Run, Apply, HasStatus, Revokes, Replaces, Suspends, HandsOutKey, Sometime, VaultOk;
    }
  }

  lemma OneStatus(v: Vault, s: Step, k: KeyId)
    ensures HasStatus(v, k, RevokedKey) ==> !HasStatus(v, k, SuspendedKey) && !Suspends(v, s, k)
    ensures Suspends(v, s, k) ==> !Revokes(v, s, k) && !Replaces(v, s, k)
    ensures Replaces(v, s, k) ==> HasStatus(v, k, ActiveKey) && !HasStatus(v, k, SuspendedKey)
  {
    hide Claimable;
    OnlyExchangesClaim(v, s);
  }

  lemma EmptyIsOk()
    ensures VaultOk(EMPTY)
  {
  }

  // ---------------------------------------------------------------------------
  // Administrators
  // ---------------------------------------------------------------------------

  /** With the capability, an administrator opens a LIVE request where none waits, and takes up one that waits for KYC; an
      authorised one stays. */
  lemma FindsExactly(v: Vault, s: Step)
    requires VaultOk(v) && s.AdminFind? && s.f !in v.flights && s.id !in v.issuances
    ensures var e := Apply(v, s);
      && (!s.capabilityActive ==> e == v)
      && (s.capabilityActive && (forall i :: !Waits(v, s.merchant, Live, i)) ==>
            e == v.(issuances := v.issuances[s.id := Issuance(s.merchant, Live, Authorized, None, Some(s.now + 604800))],
                    outstanding := v.outstanding[Slot(s.merchant, Live) := s.id]))
      && (forall i :: s.capabilityActive && Waits(v, s.merchant, Live, i) ==>
            e == if v.issuances[i].status == PendingKyc then v.(flights := v.flights[s.f := Authorising(i, None)]) else v)
  {
    var slot := Slot(s.merchant, Live);
    forall i
      ensures Waits(v, s.merchant, Live, i) <==> slot in v.outstanding && v.outstanding[slot] == i
    {
      WaitingHasItsSlot(v, s.merchant, Live, i);
    }
    if slot in v.outstanding {
      assert Waits(v, s.merchant, Live, v.outstanding[slot]);
    }
    hide VaultOk;
  }

  /** The write authorises the request with the token that was read, for 7 days from now, unless another request waits in its
      place by then. */
  lemma WritesExactly(v: Vault, s: Step)
    requires VaultOk(v) && s.AdminWrite? && s.f in v.flights && v.flights[s.f].seen.Some?
    ensures var w := v.flights[s.f]; var e := Apply(v, s);
      && w.id in v.issuances && e.flights == v.flights - {s.f} && e.keys == v.keys && e.claims == v.claims && e.announced == v.announced
      && (var r := v.issuances[w.id]; var taken := exists j :: j != w.id && Waits(v, r.merchant, r.mode, j);
          && (taken ==> e.issuances == v.issuances)
          && (!taken ==> e.issuances == v.issuances[w.id := Issuance(r.merchant, r.mode, Authorized, w.seen.value.token, Some(s.now + 604800))]))
  {
    hide VaultOk, Waits;
    var w := v.flights[s.f];
    FlightsAreStored(v, s.f);
    var r := v.issuances[w.id];
    var slot := Slot(r.merchant, r.mode);
    forall j
      ensures Waits(v, r.merchant, r.mode, j) <==> slot in v.outstanding && v.outstanding[slot] == j
    {
      WaitingHasItsSlot(v, r.merchant, r.mode, j);
    }
    if slot in v.outstanding {
      assert Waits(v, r.merchant, r.mode, v.outstanding[slot]);
    }
  }

  lemma FlightsAreStored(v: Vault, f: nat)
    requires VaultOk(v) && f in v.flights
    ensures v.flights[f].id in v.issuances
  {
    hide KeysOk, SlotsOk, OriginsOk, ClaimsOk;
  }
}
