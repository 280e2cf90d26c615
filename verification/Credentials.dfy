/**
 API credentials: issuance requests with one-time claim tokens, and the keys they turn
 into. Request and claim are one transaction each; an admin authorisation is three
 separate accesses (read, read again, write) with anything in between.
 */
module Credentials {
  import opened Options

  type IssuanceId = string
  type KeyId = string
  type ClaimId = string

  datatype Mode = Sandbox | Live

  datatype IssuanceStatus = PendingKyc | Authorized | Claimed | Revoked

  datatype Token = Token(hash: string, recipient: string, expiresAt: int)

  datatype Issuance = Issuance(merchant: string, mode: Mode, status: IssuanceStatus, token: Option<Token>, expiresAt: Option<int>)

  datatype ClaimStatus = ActiveClaim | ConsumedClaim | RevokedClaim

  datatype SecretClaim = SecretClaim(issuance: IssuanceId, hash: string, status: ClaimStatus)

  datatype KeyStatus = ActiveKey | SuspendedKey | RevokedKey

  datatype Key = Key(merchant: string, mode: Mode, status: KeyStatus, issuance: IssuanceId)

  datatype Slot = Slot(merchant: string, mode: Mode)

  /** An admin authorisation under way: the request it found, then the row it read again. */
  datatype Authorising = Authorising(id: IssuanceId, seen: Option<Issuance>)

  /** minted says which request a generated token hash was for; no operation reads it.
      outstanding and activeKey are unique indexes: one PENDING_KYC or AUTHORIZED issuance per
      merchant and mode, one ACTIVE key per merchant. announced holds the requests whose message
      "credential-claimed:" is queued: the key of a queued message is unique and none is deleted. */
  datatype Vault = Vault(
    issuances: map<IssuanceId, Issuance>, outstanding: map<Slot, IssuanceId>,
    claims: map<ClaimId, SecretClaim>, keys: map<KeyId, Key>, activeKey: map<string, KeyId>,
    announced: set<IssuanceId>, minted: map<string, IssuanceId>, flights: map<nat, Authorising>)

  /** Identifiers and the token hash are freshly generated. */
  datatype Request = Request(merchant: string, mode: Mode, user: string, id: IssuanceId, claim: ClaimId, hash: string)

  datatype Step =
    | Ask(req: Request, capable: bool, now: int)
    | Exchange(hash: string, user: string, scope: Option<string>, key: KeyId, capable: bool, now: int)
    | RevokeKey(key: KeyId)
    | SuspendKey(key: KeyId)
    | AdminFind(f: nat, merchant: string, capabilityActive: bool, id: IssuanceId, now: int)
    | AdminReread(f: nat)
    | AdminWrite(f: nat, now: int)

  /** Seconds: 15 minutes and 7 days. */
  const CLAIM_TTL: nat := 900
  const AUTH_TTL: nat := 604800

  const EMPTY := Vault(map[], map[], map[], map[], map[], {}, map[], map[])

  predicate Outstanding(s: IssuanceStatus) {
    s.PendingKyc? || s.Authorized?
  }

  // ---------------------------------------------------------------------------
  // Requests and claims
  // ---------------------------------------------------------------------------

  predicate FreshIds(v: Vault, req: Request) {
    req.id !in v.issuances && req.claim !in v.claims && req.hash !in v.minted
  }

  function RevokeClaimsOf(claims: map<ClaimId, SecretClaim>, id: IssuanceId): map<ClaimId, SecretClaim> {
    map c | c in claims :: if claims[c].issuance == id && claims[c].status.ActiveClaim? then claims[c].(status := RevokedClaim) else claims[c]
  }

  function WithClaim(claims: map<ClaimId, SecretClaim>, c: ClaimId, id: IssuanceId, hash: string): map<ClaimId, SecretClaim> {
    RevokeClaimsOf(claims, id)[c := SecretClaim(id, hash, ActiveClaim)]
  }

  function Minted(req: Request, now: int): Token {
    Token(req.hash, req.user, now + CLAIM_TTL)
  }

  /** Refresh the outstanding request with a new token, or refuse while KYC is pending. */
  function Refresh(v: Vault, id: IssuanceId, req: Request, capable: bool, now: int): Vault
    requires id in v.issuances
  {
    var was := v.issuances[id];
    if was.status.PendingKyc? && req.mode.Live? && !capable then v
    else
      v.(issuances := v.issuances[id := was.(status := Authorized, token := Some(Minted(req, now)), expiresAt := Some(now + AUTH_TTL))],
         claims := WithClaim(v.claims, req.claim, id, req.hash),
         minted := v.minted[req.hash := id])
  }

  /** A new request: with a token when it is authorised at once, without while KYC is pending. */
  function Open(v: Vault, req: Request, capable: bool, now: int): Vault {
    var authorised := req.mode.Sandbox? || capable;
    v.(issuances := v.issuances[req.id := Issuance(req.merchant, req.mode, if authorised then Authorized else PendingKyc,
                                                   if authorised then Some(Minted(req, now)) else None, Some(now + AUTH_TTL))],
       outstanding := v.outstanding[Slot(req.merchant, req.mode) := req.id],
       claims := if authorised then v.claims[req.claim := SecretClaim(req.id, req.hash, ActiveClaim)] else v.claims,
       minted := v.minted[req.hash := req.id])
  }

  function AskFor(v: Vault, req: Request, capable: bool, now: int): Vault {
    var slot := Slot(req.merchant, req.mode);
    if !FreshIds(v, req) then v
    else if slot in v.outstanding && v.outstanding[slot] in v.issuances then Refresh(v, v.outstanding[slot], req, capable, now)
    else Open(v, req, capable, now)
  }

  predicate Opens(r: Issuance, hash: string) {
    r.status.Authorized? && r.token.Some? && r.token.value.hash == hash
  }

  /** The checks of a claim, on the authorised request with this token hash. */
  predicate MayClaim(r: Issuance, user: string, scope: Option<string>, capable: bool, now: int) {
    && r.token.Some? && r.token.value.recipient == user
    && (scope.Some? ==> scope.value == r.merchant)
    && r.token.value.expiresAt > now
    && (r.expiresAt.Some? ==> r.expiresAt.value > now)
    && (r.mode.Live? ==> capable)
  }

  /** Revoke the merchant's active key, insert the new one, mark the request, end its claims, announce it. */
  function HandOut(v: Vault, id: IssuanceId, hash: string, key: KeyId): Vault
    requires id in v.issuances
  {
    var r := v.issuances[id];
    v.(keys := RevokeActive(v.keys, r.merchant)[key := Key(r.merchant, r.mode, ActiveKey, id)],
       activeKey := v.activeKey[r.merchant := key],
       issuances := v.issuances[id := r.(status := Claimed)],
       outstanding := v.outstanding - {Slot(r.merchant, r.mode)},
       claims := RevokeClaimsOf(ConsumeClaim(v.claims, hash), id),
       announced := v.announced + {id})
  }

  function RevokeActive(keys: map<KeyId, Key>, merchant: string): map<KeyId, Key> {
    map k | k in keys :: if keys[k].merchant == merchant && keys[k].status.ActiveKey? then keys[k].(status := RevokedKey) else keys[k]
  }

  function ConsumeClaim(claims: map<ClaimId, SecretClaim>, hash: string): map<ClaimId, SecretClaim> {
    map c | c in claims :: if claims[c].hash == hash && claims[c].status.ActiveClaim? then claims[c].(status := ConsumedClaim) else claims[c]
  }

  /** The request a token hash opens; one at most, as hashes are never reused. */
  ghost function Opened(v: Vault, hash: string): Option<IssuanceId> {
    if exists id :: id in v.issuances && Opens(v.issuances[id], hash)
    then var id :| id in v.issuances && Opens(v.issuances[id], hash); Some(id)
    else None
  }

  /** The message comes last: for a request that is announced already its insert fails and all is undone. */
  ghost function Claim(v: Vault, hash: string, user: string, scope: Option<string>, key: KeyId, capable: bool, now: int): Vault {
    var id := Opened(v, hash);
    if id.None? || key in v.keys || !MayClaim(v.issuances[id.value], user, scope, capable, now) || id.value in v.announced then v
    else HandOut(v, id.value, hash, key)
  }

  // ---------------------------------------------------------------------------
  // Keys
  // ---------------------------------------------------------------------------

  function EndKey(v: Vault, k: KeyId, to: KeyStatus): Vault
    requires k in v.keys
  {
    v.(keys := v.keys[k := v.keys[k].(status := to)],
       activeKey := if v.keys[k].status.ActiveKey? then v.activeKey - {v.keys[k].merchant} else v.activeKey)
  }

  function Revoking(v: Vault, k: KeyId): Vault {
    if k in v.keys && !v.keys[k].status.RevokedKey? then EndKey(v, k, RevokedKey) else v
  }

  function Suspending(v: Vault, k: KeyId): Vault {
    if k in v.keys && v.keys[k].status.ActiveKey? then EndKey(v, k, SuspendedKey) else v
  }

  // ---------------------------------------------------------------------------
  // Admin authorisation
  // ---------------------------------------------------------------------------

  /** No outstanding LIVE request: one is opened, authorised and without a token. A pending one is taken up. */
  function Find(v: Vault, f: nat, merchant: string, id: IssuanceId, now: int): Vault {
    var slot := Slot(merchant, Live);
    if slot !in v.outstanding then
      v.(issuances := v.issuances[id := Issuance(merchant, Live, Authorized, None, Some(now + AUTH_TTL))],
         outstanding := v.outstanding[slot := id])
    else if v.outstanding[slot] in v.issuances && v.issuances[v.outstanding[slot]].status.PendingKyc?
    then v.(flights := v.flights[f := Authorising(v.outstanding[slot], None)])
    else v
  }

  /** The update asks for the identifier only: whatever the row says by now, it becomes AUTHORIZED
      with the token that was read. It fails when the slot belongs to another request by now. */
  function Authorise(v: Vault, w: Authorising, now: int): Vault
    requires w.seen.Some? && w.id in v.issuances
  {
    var r := v.issuances[w.id];
    var slot := Slot(r.merchant, r.mode);
    if slot in v.outstanding && v.outstanding[slot] != w.id then v
    else
      v.(issuances := v.issuances[w.id := r.(status := Authorized, token := w.seen.value.token, expiresAt := Some(now + AUTH_TTL))],
         outstanding := v.outstanding[slot := w.id])
  }

  ghost function Apply(v: Vault, s: Step): Vault {
    match s
    case Ask(req, capable, now) => AskFor(v, req, capable, now)
    case Exchange(hash, user, scope, key, capable, now) => Claim(v, hash, user, scope, key, capable, now)
    case RevokeKey(k) => Revoking(v, k)
    case SuspendKey(k) => Suspending(v, k)
    case AdminFind(f, merchant, active, id, now) =>
      if active && f !in v.flights && id !in v.issuances then Find(v, f, merchant, id, now) else v
    case AdminReread(f) =>
      if f in v.flights && v.flights[f].id in v.issuances
      then v.(flights := v.flights[f := v.flights[f].(seen := Some(v.issuances[v.flights[f].id]))]) else v
    case AdminWrite(f, now) =>
      if f in v.flights && v.flights[f].seen.Some? && v.flights[f].id in v.issuances
      then Authorise(v, v.flights[f], now).(flights := v.flights - {f}) else v
  }

  ghost function Run(v: Vault, steps: seq<Step>): Vault
    decreases |steps|
  {
    if steps == [] then v else Run(Apply(v, steps[0]), steps[1..])
  }

  // ---------------------------------------------------------------------------
  // What every interleaving keeps
  // ---------------------------------------------------------------------------

  ghost predicate SlotsAgree(issuances: map<IssuanceId, Issuance>, outstanding: map<Slot, IssuanceId>) {
    && (forall i :: i in issuances && Outstanding(issuances[i].status) ==>
          var s := Slot(issuances[i].merchant, issuances[i].mode); s in outstanding && outstanding[s] == i)
    && (forall s :: s in outstanding ==>
          var i := outstanding[s];
          i in issuances && Outstanding(issuances[i].status) && issuances[i].merchant == s.merchant && issuances[i].mode == s.mode)
  }

  ghost predicate SlotsOk(v: Vault) {
    SlotsAgree(v.issuances, v.outstanding)
  }

  /** A request takes the slot that is free, or that it already has. */
  lemma SlotTaken(issuances: map<IssuanceId, Issuance>, outstanding: map<Slot, IssuanceId>, i: IssuanceId, row: Issuance)
    requires SlotsAgree(issuances, outstanding) && Outstanding(row.status)
    requires i in issuances ==> issuances[i].merchant == row.merchant && issuances[i].mode == row.mode
    requires Slot(row.merchant, row.mode) in outstanding ==> outstanding[Slot(row.merchant, row.mode)] == i
    ensures SlotsAgree(issuances[i := row], outstanding[Slot(row.merchant, row.mode) := i])
  {
  }

  ghost predicate KeysOk(v: Vault) {
    && (forall k :: k in v.keys && v.keys[k].status.ActiveKey? ==>
          v.keys[k].merchant in v.activeKey && v.activeKey[v.keys[k].merchant] == k)
    && (forall m :: m in v.activeKey ==>
          v.activeKey[m] in v.keys && v.keys[v.activeKey[m]].merchant == m && v.keys[v.activeKey[m]].status.ActiveKey?)
  }

  ghost predicate OneActiveEach(claims: map<ClaimId, SecretClaim>) {
    forall c, d :: c in claims && d in claims && c != d && claims[c].issuance == claims[d].issuance
      ==> !claims[c].status.ActiveClaim? || !claims[d].status.ActiveClaim?
  }

  ghost predicate ClaimsOk(v: Vault) {
    OneActiveEach(v.claims) && forall c :: c in v.claims ==> v.claims[c].issuance in v.issuances
  }

  ghost predicate FromRequest(v: Vault, k: KeyId, i: IssuanceId) {
    k in v.keys && v.keys[k].issuance == i
  }

  /** The announced requests are those with a key, and each of them has one key. */
  ghost predicate OriginsOk(v: Vault) {
    && (forall k :: k in v.keys ==> v.keys[k].issuance in v.announced)
    && (forall i :: i in v.announced ==> i in v.issuances && exists k :: FromRequest(v, k, i))
    && (forall k, l :: k in v.keys && l in v.keys && k != l ==> v.keys[k].issuance != v.keys[l].issuance)
  }

  predicate HasHash(r: Issuance, hash: string) {
    r.token.Some? && r.token.value.hash == hash
  }

  predicate OwnToken(minted: map<string, IssuanceId>, i: IssuanceId, r: Issuance) {
    r.token.Some? ==> r.token.value.hash in minted && minted[r.token.value.hash] == i
  }

  /** A token hash is only ever stored with, or read from, the request it was generated for. */
  ghost predicate HashesOk(v: Vault) {
    && (forall i :: i in v.issuances ==> OwnToken(v.minted, i, v.issuances[i]))
    && (forall f :: f in v.flights ==>
          v.flights[f].id in v.issuances && (v.flights[f].seen.Some? ==> OwnToken(v.minted, v.flights[f].id, v.flights[f].seen.value)))
  }

  ghost predicate VaultOk(v: Vault) {
    SlotsOk(v) && KeysOk(v) && ClaimsOk(v) && OriginsOk(v) && HashesOk(v)
  }

  lemma MintKeepsHashes(v: Vault, e: Vault, i: IssuanceId, row: Issuance, hash: string)
    requires HashesOk(v) && hash !in v.minted && e.flights == v.flights
    requires e.issuances == v.issuances[i := row] && e.minted == v.minted[hash := i] && OwnToken(e.minted, i, row)
    ensures HashesOk(e)
  {
  }

  lemma AskKeepsHashes(v: Vault, req: Request, capable: bool, now: int)
    requires HashesOk(v)
    ensures HashesOk(AskFor(v, req, capable, now))
  {
    hide HashesOk, WithClaim;
    var slot := Slot(req.merchant, req.mode);
    if FreshIds(v, req) {
      if slot in v.outstanding && v.outstanding[slot] in v.issuances {
        var i := v.outstanding[slot];
        var e := Refresh(v, i, req, capable, now);
        if e != v {
          MintKeepsHashes(v, e, i, e.issuances[i], req.hash);
        }
      } else {
        var e := Open(v, req, capable, now);
        MintKeepsHashes(v, e, req.id, e.issuances[req.id], req.hash);
      }
    }
  }

  lemma ClaimKeepsHashes(v: Vault, hash: string, user: string, scope: Option<string>, key: KeyId, capable: bool, now: int)
    requires HashesOk(v)
    ensures HashesOk(Claim(v, hash, user, scope, key, capable, now))
  {
    OpenedOpens(v, hash);
    hide RevokeClaimsOf, ConsumeClaim, RevokeActive, Opened;
  }

  /** So a token opens one request at most. */
  lemma TokensOpenOne(v: Vault, hash: string, id: IssuanceId)
    requires HashesOk(v) && id in v.issuances && Opens(v.issuances[id], hash)
    ensures Opened(v, hash) == Some(id)
  {
    OpenedOpens(v, hash);
    assert OwnToken(v.minted, id, v.issuances[id]);
  }

  lemma OpenedOpens(v: Vault, hash: string)
    ensures Opened(v, hash).Some? ==> Opened(v, hash).value in v.issuances && Opens(v.issuances[Opened(v, hash).value], hash)
  {
  }

  /** The same keys of the same requests, whatever became of their statuses. */
  lemma OriginsSurvive(v: Vault, e: Vault)
    requires OriginsOk(v) && e.announced == v.announced && v.issuances.Keys <= e.issuances.Keys
    requires e.keys.Keys == v.keys.Keys && forall k :: k in v.keys ==> e.keys[k].issuance == v.keys[k].issuance
    ensures OriginsOk(e)
  {
    forall i | i in e.announced
      ensures exists k :: FromRequest(e, k, i)
    {
      var k :| FromRequest(v, k, i);
      assert FromRequest(e, k, i);
    }
  }

  /** One more key, of a request that had none. */
  lemma OriginsGrow(v: Vault, e: Vault, key: KeyId, id: IssuanceId)
    requires OriginsOk(v) && key !in v.keys && id !in v.announced && id in e.issuances && v.issuances.Keys <= e.issuances.Keys
    requires e.announced == v.announced + {id} && e.keys.Keys == v.keys.Keys + {key} && e.keys[key].issuance == id
    requires forall k :: k in v.keys ==> e.keys[k].issuance == v.keys[k].issuance
    ensures OriginsOk(e)
  {
    forall i | i in e.announced
      ensures exists k :: FromRequest(e, k, i)
    {
      if i == id {
        assert FromRequest(e, key, i);
      } else {
        var k :| FromRequest(v, k, i);
        assert FromRequest(e, k, i);
      }
    }
  }

  lemma AskKeepsSlots(v: Vault, req: Request, capable: bool, now: int)
    requires SlotsOk(v)
    ensures SlotsOk(AskFor(v, req, capable, now))
  {
    hide WithClaim, RevokeClaimsOf, SlotsAgree;
    var slot := Slot(req.merchant, req.mode);
    var e := AskFor(v, req, capable, now);
    SlotHolds(v, slot);
    if e != v {
      var i := if slot in v.outstanding then v.outstanding[slot] else req.id;
      assert e.issuances == v.issuances[i := e.issuances[i]] && e.outstanding == v.outstanding[slot := i];
      SlotTaken(v.issuances, v.outstanding, i, e.issuances[i]);
    }
  }

  lemma SlotHolds(v: Vault, slot: Slot)
    requires SlotsOk(v)
    ensures slot in v.outstanding ==>
              var i := v.outstanding[slot];
              && i in v.issuances && Outstanding(v.issuances[i].status)
              && v.issuances[i].merchant == slot.merchant && v.issuances[i].mode == slot.mode
              && v.outstanding[slot := i] == v.outstanding
  {
  }

  lemma NewClaimKeepsClaims(claims: map<ClaimId, SecretClaim>, c: ClaimId, id: IssuanceId, hash: string)
    requires OneActiveEach(claims)
    ensures OneActiveEach(WithClaim(claims, c, id, hash))
  {
  }

  lemma AskKeepsClaims(v: Vault, req: Request, capable: bool, now: int)
    requires ClaimsOk(v)
    ensures ClaimsOk(AskFor(v, req, capable, now))
  {
    var slot := Slot(req.merchant, req.mode);
    if FreshIds(v, req) && slot in v.outstanding && v.outstanding[slot] in v.issuances {
      NewClaimKeepsClaims(v.claims, req.claim, v.outstanding[slot], req.hash);
      hide OneActiveEach;
    } else if FreshIds(v, req) {
      FirstClaimKeepsClaims(v, req);
      hide OneActiveEach;
    }
  }

  lemma FirstClaimKeepsClaims(v: Vault, req: Request)
    requires ClaimsOk(v) && req.id !in v.issuances && req.claim !in v.claims
    ensures OneActiveEach(v.claims[req.claim := SecretClaim(req.id, req.hash, ActiveClaim)])
  {
  }

  lemma AskKeepsRest(v: Vault, req: Request, capable: bool, now: int)
    requires KeysOk(v) && OriginsOk(v)
    ensures KeysOk(AskFor(v, req, capable, now)) && OriginsOk(AskFor(v, req, capable, now))
  {
    hide OriginsOk, KeysOk, WithClaim, RevokeClaimsOf;
    OriginsSurvive(v, AskFor(v, req, capable, now));
    KeysSurvive(v, AskFor(v, req, capable, now));
  }

  lemma HandOutKeepsSlots(v: Vault, id: IssuanceId, hash: string, key: KeyId)
    requires SlotsOk(v) && id in v.issuances && v.issuances[id].status.Authorized?
    ensures SlotsOk(HandOut(v, id, hash, key))
  {
    hide RevokeClaimsOf, ConsumeClaim, RevokeActive;
  }

  lemma HandOutKeepsClaims(v: Vault, id: IssuanceId, hash: string, key: KeyId)
    requires ClaimsOk(v) && id in v.issuances
    ensures ClaimsOk(HandOut(v, id, hash, key))
  {
    hide RevokeActive;
  }

  lemma HandOutKeepsKeys(v: Vault, id: IssuanceId, hash: string, key: KeyId)
    requires KeysOk(v) && id in v.issuances && key !in v.keys
    ensures KeysOk(HandOut(v, id, hash, key))
  {
    hide RevokeClaimsOf, ConsumeClaim;
  }

  /** A request hands out a key only while it is not announced, so it hands out one. */
  lemma HandOutKeepsOrigins(v: Vault, id: IssuanceId, hash: string, key: KeyId)
    requires OriginsOk(v) && id in v.issuances && key !in v.keys && id !in v.announced
    ensures OriginsOk(HandOut(v, id, hash, key))
  {
    hide RevokeClaimsOf, ConsumeClaim, OriginsOk;
    OriginsGrow(v, HandOut(v, id, hash, key), key, id);
  }

  lemma ClaimKeepsVault(v: Vault, hash: string, user: string, scope: Option<string>, key: KeyId, capable: bool, now: int)
    requires VaultOk(v)
    ensures VaultOk(Claim(v, hash, user, scope, key, capable, now))
  {
    OpenedOpens(v, hash);
    ClaimKeepsHashes(v, hash, user, scope, key, capable, now);
    hide HandOut, Opened, SlotsOk, KeysOk, ClaimsOk, OriginsOk, HashesOk;
    var id := Opened(v, hash);
    if id.Some? && key !in v.keys && MayClaim(v.issuances[id.value], user, scope, capable, now) && id.value !in v.announced {
      HandOutKeepsSlots(v, id.value, hash, key);
      HandOutKeepsClaims(v, id.value, hash, key);
      HandOutKeepsKeys(v, id.value, hash, key);
      HandOutKeepsOrigins(v, id.value, hash, key);
    }
  }

  lemma EndKeyKeepsKeys(v: Vault, k: KeyId, to: KeyStatus)
    requires KeysOk(v) && k in v.keys && !to.ActiveKey?
    ensures KeysOk(EndKey(v, k, to))
  {
  }

  lemma EndKeyKeepsOrigins(v: Vault, k: KeyId, to: KeyStatus)
    requires OriginsOk(v) && k in v.keys
    ensures OriginsOk(EndKey(v, k, to))
  {
    hide OriginsOk;
    OriginsSurvive(v, EndKey(v, k, to));
  }

  lemma FindKeepsSlots(v: Vault, f: nat, merchant: string, id: IssuanceId, now: int)
    requires SlotsOk(v) && OriginsOk(v) && id !in v.issuances
    ensures SlotsOk(Find(v, f, merchant, id, now)) && OriginsOk(Find(v, f, merchant, id, now))
  {
    hide SlotsAgree;
    OriginsSurvive(v, Find(v, f, merchant, id, now));
    if Slot(merchant, Live) !in v.outstanding {
      SlotTaken(v.issuances, v.outstanding, id, Issuance(merchant, Live, Authorized, None, Some(now + AUTH_TTL)));
    }
  }

  lemma AuthoriseKeepsSlots(v: Vault, w: Authorising, now: int)
    requires SlotsOk(v) && OriginsOk(v) && w.seen.Some? && w.id in v.issuances
    ensures SlotsOk(Authorise(v, w, now)) && OriginsOk(Authorise(v, w, now))
  {
    hide SlotsAgree;
    var e := Authorise(v, w, now);
    OriginsSurvive(v, e);
    if e != v {
      SlotTaken(v.issuances, v.outstanding, w.id, e.issuances[w.id]);
    }
  }

  lemma AskKeepsVault(v: Vault, req: Request, capable: bool, now: int)
    requires VaultOk(v)
    ensures VaultOk(AskFor(v, req, capable, now))
  {
    hide AskFor, SlotsOk, KeysOk, ClaimsOk, OriginsOk, HashesOk;
    AskKeepsSlots(v, req, capable, now);
    AskKeepsClaims(v, req, capable, now);
    AskKeepsRest(v, req, capable, now);
    AskKeepsHashes(v, req, capable, now);
  }

  lemma EndKeyKeepsVault(v: Vault, k: KeyId, to: KeyStatus)
    requires VaultOk(v) && k in v.keys && !to.ActiveKey?
    ensures VaultOk(EndKey(v, k, to))
  {
    hide SlotsAgree, KeysOk, OneActiveEach, OriginsOk, OwnToken;
    EndKeyKeepsKeys(v, k, to);
    EndKeyKeepsOrigins(v, k, to);
  }

  lemma FindKeepsVault(v: Vault, f: nat, merchant: string, id: IssuanceId, now: int)
    requires VaultOk(v) && id !in v.issuances
    ensures VaultOk(Find(v, f, merchant, id, now))
  {
    hide SlotsAgree, OriginsOk, HashesOk, OneActiveEach, KeysOk;
    FindKeepsSlots(v, f, merchant, id, now);
    FindKeepsHashes(v, f, merchant, id, now);
    KeysSurvive(v, Find(v, f, merchant, id, now));
  }

  lemma FindKeepsHashes(v: Vault, f: nat, merchant: string, id: IssuanceId, now: int)
    requires HashesOk(v) && id !in v.issuances
    ensures HashesOk(Find(v, f, merchant, id, now))
  {
  }

  lemma RereadKeepsVault(v: Vault, f: nat)
    requires VaultOk(v)
    ensures VaultOk(Apply(v, AdminReread(f)))
  {
    var e := Apply(v, AdminReread(f));
    assert HashesOk(e);
    hide SlotsAgree, HashesOk, OneActiveEach, KeysOk;
    OriginsSurvive(v, e);
    KeysSurvive(v, e);
  }

  lemma KeysSurvive(v: Vault, e: Vault)
    requires KeysOk(v) && e.keys == v.keys && e.activeKey == v.activeKey
    ensures KeysOk(e)
  {
  }

  lemma WriteKeepsHashes(v: Vault, f: nat, now: int)
    requires HashesOk(v)
    ensures HashesOk(Apply(v, AdminWrite(f, now)))
  {
  }

  lemma WriteKeepsVault(v: Vault, f: nat, now: int)
    requires VaultOk(v)
    ensures VaultOk(Apply(v, AdminWrite(f, now)))
  {
    WriteKeepsHashes(v, f, now);
    hide SlotsAgree, OriginsOk, HashesOk, OneActiveEach, KeysOk;
    if f in v.flights && v.flights[f].seen.Some? && v.flights[f].id in v.issuances {
      var e := Authorise(v, v.flights[f], now);
      AuthoriseKeepsSlots(v, v.flights[f], now);
      OriginsSurvive(e, Apply(v, AdminWrite(f, now)));
      KeysSurvive(v, Apply(v, AdminWrite(f, now)));
    }
  }

  lemma StepKeepsVault(v: Vault, s: Step)
    requires VaultOk(v)
    ensures VaultOk(Apply(v, s))
  {
    hide VaultOk, AskFor, Claim, EndKey;
    match s
    case Ask(req, capable, now) => AskKeepsVault(v, req, capable, now);
    case Exchange(hash, user, scope, key, capable, now) => ClaimKeepsVault(v, hash, user, scope, key, capable, now);
    case RevokeKey(k) =>
      if k in v.keys {
        EndKeyKeepsVault(v, k, RevokedKey);
      }
    case SuspendKey(k) =>
      if k in v.keys {
        EndKeyKeepsVault(v, k, SuspendedKey);
      }
    case AdminFind(f, merchant, active, id, now) =>
      hide Find;
      if id !in v.issuances {
        FindKeepsVault(v, f, merchant, id, now);
      }
    case AdminReread(f) => RereadKeepsVault(v, f);
    case AdminWrite(f, now) => WriteKeepsVault(v, f, now);
  }

  lemma {:induction false} RunKeepsVault(v: Vault, steps: seq<Step>)
    requires VaultOk(v)
    ensures VaultOk(Run(v, steps))
    decreases |steps|
  {
    if steps != [] {
      StepKeepsVault(v, steps[0]);
      RunKeepsVault(Apply(v, steps[0]), steps[1..]);
    }
  }

  /** Over every interleaving: one outstanding request, so one usable token, per merchant and mode;
      one ACTIVE key per merchant; one ACTIVE claim row per request; and one key per request. */
  lemma EveryRunIsExclusive(steps: seq<Step>)
    ensures var v := Run(EMPTY, steps);
      && (forall i, j :: i in v.issuances && j in v.issuances && i != j
            && v.issuances[i].merchant == v.issuances[j].merchant && v.issuances[i].mode == v.issuances[j].mode
            ==> !Outstanding(v.issuances[i].status) || !Outstanding(v.issuances[j].status))
      && (forall k, l :: k in v.keys && l in v.keys && k != l && v.keys[k].merchant == v.keys[l].merchant
            ==> !v.keys[k].status.ActiveKey? || !v.keys[l].status.ActiveKey?)
      && (forall c, d :: c in v.claims && d in v.claims && c != d && v.claims[c].issuance == v.claims[d].issuance
            ==> !v.claims[c].status.ActiveClaim? || !v.claims[d].status.ActiveClaim?)
      && (forall k, l :: k in v.keys && l in v.keys && k != l ==> v.keys[k].issuance != v.keys[l].issuance)
  {
    RunKeepsVault(EMPTY, steps);
  }

  // ---------------------------------------------------------------------------
  // Where keys come from
  // ---------------------------------------------------------------------------

  /** The step is an exchange that passes every check, and hands out this key of this row. */
  ghost predicate HandsOut(v: Vault, s: Step, k: KeyId, merchant: string, mode: Mode, i: IssuanceId) {
    && s.Exchange? && s.key == k && k !in v.keys
    && i in v.issuances && Opens(v.issuances[i], s.hash) && i !in v.announced
    && v.issuances[i].merchant == merchant && v.issuances[i].mode == mode
    && v.issuances[i].token.value.recipient == s.user && s.now < v.issuances[i].token.value.expiresAt
    && (mode.Live? ==> s.capable)
  }

  lemma NewKeyIsHandedOut(v: Vault, s: Step, k: KeyId)
    requires k in Apply(v, s).keys && k !in v.keys
    ensures var key := Apply(v, s).keys[k]; HandsOut(v, s, k, key.merchant, key.mode, key.issuance)
  {
    match s
    case Exchange(hash, user, scope, key, capable, now) =>
      OpenedOpens(v, hash);
      hide RevokeClaimsOf, ConsumeClaim, Opened;
    case Ask(req, capable, now) => hide Refresh, Open;
    case _ =>
  }

  lemma StepKeepsKeyTerms(v: Vault, s: Step, k: KeyId)
    requires k in v.keys
    ensures k in Apply(v, s).keys && Apply(v, s).keys[k] == v.keys[k].(status := Apply(v, s).keys[k].status)
  {
    match s
    case Exchange(hash, user, scope, key, capable, now) =>
      OpenedOpens(v, hash);
      hide RevokeClaimsOf, ConsumeClaim, Opened;
    case Ask(req, capable, now) => hide Refresh, Open;
    case _ =>
  }

  /** In any run, each key came from one exchange of a live token of its request, by the user the token
      was for, and for LIVE only while the capability was active and unexpired. */
  lemma {:induction false} KeysComeFromClaims(steps: seq<Step>, k: KeyId)
    requires k in Run(EMPTY, steps).keys
    ensures var key := Run(EMPTY, steps).keys[k];
            exists n :: 0 <= n < |steps| && HandsOut(Run(EMPTY, steps[..n]), steps[n], k, key.merchant, key.mode, key.issuance)
    decreases |steps|
  {
    if steps != [] {
      var before, s := steps[..|steps| - 1], steps[|steps| - 1];
      LastStep(EMPTY, steps);
      var v := Run(EMPTY, before);
      hide Run, Apply, HandsOut;
      if k in v.keys {
        StepKeepsKeyTerms(v, s, k);
        KeysComeFromClaims(before, k);
        var key := v.keys[k];
        var n :| 0 <= n < |before| && HandsOut(Run(EMPTY, before[..n]), before[n], k, key.merchant, key.mode, key.issuance);
        assert steps[..n] == before[..n] && steps[n] == before[n];
        assert HandsOut(Run(EMPTY, steps[..n]), steps[n], k, key.merchant, key.mode, key.issuance);
      } else {
        NewKeyIsHandedOut(v, s, k);
        assert steps[..|steps| - 1] == before;
      }
    }
  }

  lemma {:induction false} LastStep(v: Vault, steps: seq<Step>)
    requires steps != []
    ensures Run(v, steps) == Apply(Run(v, steps[..|steps| - 1]), steps[|steps| - 1])
    decreases |steps|
  {
    if |steps| == 1 {
      assert steps[1..] == [] && steps[..0] == [];
    } else {
      LastStep(Apply(v, steps[0]), steps[1..]);
      assert steps[1..][..|steps| - 2] == steps[..|steps| - 1][1..];
    }
    hide Apply;
  }

  // ---------------------------------------------------------------------------
  // Requests that are reopened
  // ---------------------------------------------------------------------------

  /** A request that was claimed stays claimed exactly unless an admin's unguarded write takes its free slot. */
  lemma ClaimedStaysClaimedExactly(v: Vault, s: Step, i: IssuanceId)
    requires VaultOk(v) && i in v.issuances && v.issuances[i].status.Claimed?
    ensures i in Apply(v, s).issuances
    ensures s.AdminWrite? && s.f in v.flights && v.flights[s.f].id == i && v.flights[s.f].seen.Some?
            && !(Slot(v.issuances[i].merchant, v.issuances[i].mode) in v.outstanding)
            <==> !Apply(v, s).issuances[i].status.Claimed?
  {
    hide VaultOk, AskFor, Claim;
    SlotsOfVault(v);
    match s
    case Exchange(hash, user, scope, key, capable, now) => ClaimKeepsClaimed(v, hash, user, scope, key, capable, now, i);
    case Ask(req, capable, now) => AskKeepsClaimed(v, req, capable, now, i);
    case _ =>
  }

  lemma AskKeepsClaimed(v: Vault, req: Request, capable: bool, now: int, i: IssuanceId)
    requires SlotsOk(v) && i in v.issuances && v.issuances[i].status.Claimed?
    ensures i in AskFor(v, req, capable, now).issuances && AskFor(v, req, capable, now).issuances[i] == v.issuances[i]
  {
    hide WithClaim;
  }

  lemma ClaimKeepsClaimed(v: Vault, hash: string, user: string, scope: Option<string>, key: KeyId, capable: bool, now: int, i: IssuanceId)
    requires i in v.issuances && v.issuances[i].status.Claimed?
    ensures var e := Claim(v, hash, user, scope, key, capable, now); i in e.issuances && e.issuances[i] == v.issuances[i]
  {
    OpenedOpens(v, hash);
    hide RevokeClaimsOf, ConsumeClaim, RevokeActive, Opened;
  }

  lemma SlotsOfVault(v: Vault)
    requires VaultOk(v)
    ensures SlotsOk(v)
  {
  }

  /** Open again although its key is out. */
  predicate Reopened(v: Vault, i: IssuanceId) {
    i in v.announced && i in v.issuances && Outstanding(v.issuances[i].status)
  }

  predicate SlotOf(r: Issuance, k: Key) {
    k.merchant == r.merchant && k.mode == r.mode
  }

  predicate SameSlot(r: Issuance, t: Issuance) {
    r.merchant == t.merchant && r.mode == t.mode
  }

  lemma StepKeepsReopened(v: Vault, s: Step, i: IssuanceId)
    requires VaultOk(v) && Reopened(v, i)
    ensures Reopened(Apply(v, s), i) && SameSlot(v.issuances[i], Apply(v, s).issuances[i])
    ensures forall k :: k in Apply(v, s).keys && k !in v.keys ==> !SlotOf(v.issuances[i], Apply(v, s).keys[k])
  {
    hide VaultOk, AskFor, Claim, Find, Authorise;
    SlotsOfVault(v);
    match s
    case Exchange(hash, user, scope, key, capable, now) => ExchangeKeepsReopened(v, hash, user, scope, key, capable, now, i);
    case Ask(req, capable, now) => AskKeepsReopened(v, req, capable, now, i);
    case AdminFind(f, merchant, active, id, now) =>
      if id !in v.issuances {
        FindKeepsReopened(v, f, merchant, id, now, i);
      }
    case AdminWrite(f, now) =>
      if f in v.flights && v.flights[f].seen.Some? && v.flights[f].id in v.issuances {
        AuthoriseKeepsReopened(v, v.flights[f], now, i);
      }
    case _ =>
  }

  lemma FindKeepsReopened(v: Vault, f: nat, merchant: string, id: IssuanceId, now: int, i: IssuanceId)
    requires Reopened(v, i) && id !in v.issuances
    ensures var e := Find(v, f, merchant, id, now); Reopened(e, i) && SameSlot(v.issuances[i], e.issuances[i]) && e.keys == v.keys
  {
  }

  lemma AuthoriseKeepsReopened(v: Vault, w: Authorising, now: int, i: IssuanceId)
    requires Reopened(v, i) && w.seen.Some? && w.id in v.issuances
    ensures var e := Authorise(v, w, now); Reopened(e, i) && SameSlot(v.issuances[i], e.issuances[i]) && e.keys == v.keys
  {
  }

  lemma AskKeepsReopened(v: Vault, req: Request, capable: bool, now: int, i: IssuanceId)
    requires SlotsOk(v) && Reopened(v, i)
    ensures var e := AskFor(v, req, capable, now); Reopened(e, i) && SameSlot(v.issuances[i], e.issuances[i]) && e.keys == v.keys
  {
    hide WithClaim;
  }

  lemma ExchangeKeepsReopened(v: Vault, hash: string, user: string, scope: Option<string>, key: KeyId, capable: bool, now: int, i: IssuanceId)
    requires SlotsOk(v) && Reopened(v, i)
    ensures var e := Claim(v, hash, user, scope, key, capable, now);
            && Reopened(e, i) && SameSlot(v.issuances[i], e.issuances[i])
            && forall k :: k in e.keys && k !in v.keys ==> !SlotOf(v.issuances[i], e.keys[k])
  {
    OpenedOpens(v, hash);
    hide RevokeClaimsOf, ConsumeClaim, Opened;
  }

  /** A request that is open again although its key is out can never be claimed, so its merchant never gets
      another key of that mode: no operation ends the request, and it keeps the one slot there is. */
  lemma {:induction false} ReopenedRequestsBlockForEver(v: Vault, steps: seq<Step>, i: IssuanceId)
    requires VaultOk(v) && Reopened(v, i)
    ensures Reopened(Run(v, steps), i) && SameSlot(v.issuances[i], Run(v, steps).issuances[i])
    ensures forall k :: k in Run(v, steps).keys && k !in v.keys ==> !SlotOf(v.issuances[i], Run(v, steps).keys[k])
    decreases |steps|
  {
    if steps != [] {
      var e := Apply(v, steps[0]);
      StepKeepsVault(v, steps[0]);
      StepKeepsReopened(v, steps[0], i);
      ReopenedRequestsBlockForEver(e, steps[1..], i);
      hide VaultOk, Apply, Reopened;
      forall k | k in Run(v, steps).keys && k !in v.keys
        ensures !SlotOf(v.issuances[i], Run(v, steps).keys[k])
      {
        if k in e.keys {
          RunKeepsKeyTerms(e, steps[1..], k);
        }
      }
    }
  }

  lemma {:induction false} RunKeepsKeyTerms(v: Vault, steps: seq<Step>, k: KeyId)
    requires k in v.keys
    ensures k in Run(v, steps).keys && Run(v, steps).keys[k] == v.keys[k].(status := Run(v, steps).keys[k].status)
    decreases |steps|
  {
    hide Apply;
    if steps != [] {
      StepKeepsKeyTerms(v, steps[0], k);
      RunKeepsKeyTerms(Apply(v, steps[0]), steps[1..], k);
    }
  }

  /** An admin who is not interrupted reopens nothing. */
  lemma UninterruptedAdminReopensNothing(v: Vault, merchant: string, active: bool, id: IssuanceId, now: int, i: IssuanceId)
    requires VaultOk(v) && v.flights == map[] && id !in v.issuances && i in v.issuances && v.issuances[i].status.Claimed?
    ensures var e := Run(v, AdminSteps(merchant, active, id, now)); i in e.issuances && e.issuances[i] == v.issuances[i]
  {
    hide KeysOk, ClaimsOk, OriginsOk, HashesOk, Run;
    OutstandingIsStored(v, Slot(merchant, Live));
    AdminRuns(v, merchant, active, id, now);
  }

  // ---------------------------------------------------------------------------
  // The service on the tables
  // ---------------------------------------------------------------------------

  class CredentialService {
    var issuances: map<IssuanceId, Issuance>
    var outstanding: map<Slot, IssuanceId>
    var claims: map<ClaimId, SecretClaim>
    var keys: map<KeyId, Key>
    var activeKey: map<string, KeyId>
    var announced: set<IssuanceId>
    ghost var minted: map<string, IssuanceId>

    ghost function View(): Vault
      reads this
    {
      Vault(issuances, outstanding, claims, keys, activeKey, announced, minted, map[])
    }

    ghost predicate Valid()
      reads this
    {
      VaultOk(View())
    }

    constructor ()
      ensures View() == EMPTY && Valid()
    {
      issuances, outstanding, claims, keys, activeKey, announced, minted := map[], map[], map[], map[], map[], {}, map[];
    }

    /** The outstanding request gets a new token and a new claim row, unless KYC still stands in the way. */
    method RefreshRequest(id: IssuanceId, req: Request, capable: bool, now: int) returns (token: Option<Token>)
      requires id in issuances
      modifies this
      ensures View() == Refresh(old(View()), id, req, capable, now)
      ensures token == if old(issuances[id]).status.PendingKyc? && req.mode.Live? && !capable then None else Some(Minted(req, now))
      ensures id in issuances && (token.Some? ==> HasHash(issuances[id], req.hash))
    {
      var was := issuances[id];
      if was.status.PendingKyc? && !req.mode.Sandbox? && !capable {
        return None;
      }
      var raw := Token(req.hash, req.user, now + CLAIM_TTL);
      issuances := issuances[id := was.(status := Authorized, token := Some(raw), expiresAt := Some(now + AUTH_TTL))];
      claims := RevokeClaimsOf(claims, id);
      claims := claims[req.claim := SecretClaim(id, req.hash, ActiveClaim)];
      minted := minted[req.hash := id];
      return Some(raw);
    }

    method OpenRequest(req: Request, capable: bool, now: int) returns (token: Option<Token>)
      modifies this
      ensures View() == Open(old(View()), req, capable, now)
      ensures token == if req.mode.Sandbox? || capable then Some(Minted(req, now)) else None
      ensures req.id in issuances && (token.Some? ==> HasHash(issuances[req.id], req.hash))
    {
      var status := Authorized;
      if req.mode.Live? && !capable {
        status := PendingKyc;
      }
      token := if status.Authorized? then Some(Token(req.hash, req.user, now + CLAIM_TTL)) else None;
      issuances := issuances[req.id := Issuance(req.merchant, req.mode, status, token, Some(now + AUTH_TTL))];
      outstanding := outstanding[Slot(req.merchant, req.mode) := req.id];
      if status.Authorized? {
        claims := claims[req.claim := SecretClaim(req.id, req.hash, ActiveClaim)];
      }
      minted := minted[req.hash := req.id];
    }

    /** One transaction: refresh the outstanding request, or open one. */
    method RequestIssuance(req: Request, capable: bool, now: int) returns (token: Option<Token>)
      requires Valid() && FreshIds(View(), req)
      modifies this
      ensures Valid() && View() == Apply(old(View()), Ask(req, capable, now))
      ensures token.Some? ==> token.value == Minted(req, now) && exists id :: id in issuances && HasHash(issuances[id], req.hash)
      ensures token.None? ==> forall id :: id in issuances ==> !HasHash(issuances[id], req.hash)
    {
      ghost var v := View();
      StepKeepsVault(v, Ask(req, capable, now));
      FreshHashIsNowhere(v, req);
      var slot := Slot(req.merchant, req.mode);
      OutstandingIsStored(v, slot);
      if req.mode.Live? && !capable {
        RefusedAskStoresNoToken(v, req, now);
      }
      hide VaultOk, FreshIds, Refresh, Open;
      if slot in outstanding {
        token := RefreshRequest(outstanding[slot], req, capable, now);
      } else {
        token := OpenRequest(req, capable, now);
      }
    }

    /** The predecessor is revoked, the key inserted, the request marked, its claims ended and the message queued. */
    method HandOutKey(id: IssuanceId, hash: string, key: KeyId) returns (queued: bool)
      requires id in issuances
      modifies this
      ensures queued <==> id !in old(announced)
      ensures View() == if queued then HandOut(old(View()), id, hash, key) else old(View())
    {
      hide RevokeActive, RevokeClaimsOf, ConsumeClaim;
      var keysBefore, activeBefore, issuancesBefore, outstandingBefore, claimsBefore := keys, activeKey, issuances, outstanding, claims;
      var r := issuances[id];
      keys := RevokeActive(keys, r.merchant);
      keys := keys[key := Key(r.merchant, r.mode, ActiveKey, id)];
      activeKey := activeKey[r.merchant := key];
      issuances := issuances[id := r.(status := Claimed)];
      outstanding := outstanding - {Slot(r.merchant, r.mode)};
      claims := ConsumeClaim(claims, hash);
      claims := RevokeClaimsOf(claims, id);
      if id in announced {
        keys, activeKey, issuances, outstanding, claims := keysBefore, activeBefore, issuancesBefore, outstandingBefore, claimsBefore;
        return false;
      }
      announced := announced + {id};
      return true;
    }

    /** One transaction: the request of the token, all checks, then the key; undone when its message is queued already. */
    method ClaimExchange(hash: string, user: string, scope: Option<string>, key: KeyId, capable: bool, now: int) returns (claimed: bool)
      requires Valid() && key !in keys
      modifies this
      ensures Valid() && View() == Apply(old(View()), Exchange(hash, user, scope, key, capable, now))
      ensures claimed <==> key in keys
    {
      ghost var v := View();
      StepKeepsVault(v, Exchange(hash, user, scope, key, capable, now));
      OpenedOpens(v, hash);
      if !exists id :: id in issuances && Opens(issuances[id], hash) {
        return false;
      }
      var id :| id in issuances && Opens(issuances[id], hash);
      TokensOpenOne(v, hash, id);
      HandOutAddsTheKey(v, id, hash, key);
      hide VaultOk, Opened, HandOut;
      var r := issuances[id];
      var token := r.token.value;
      if token.recipient != user || (scope.Some? && r.merchant != scope.value) {
        return false;
      }
      if token.expiresAt <= now || (r.expiresAt.Some? && r.expiresAt.value <= now) {
        return false;
      }
      if r.mode.Live? && !capable {
        return false;
      }
      claimed := HandOutKey(id, hash, key);
    }

    method RevokeAPIKey(k: KeyId)
      requires Valid()
      modifies this
      ensures Valid() && View() == Apply(old(View()), RevokeKey(k))
    {
      StepKeepsVault(View(), RevokeKey(k));
      hide VaultOk;
      if k !in keys || keys[k].status.RevokedKey? {
        return;
      }
      if keys[k].status.ActiveKey? {
        activeKey := activeKey - {keys[k].merchant};
      }
      keys := keys[k := keys[k].(status := RevokedKey)];
    }

    method AdminSuspendKey(k: KeyId) returns (suspended: bool)
      requires Valid()
      modifies this
      ensures Valid() && View() == Apply(old(View()), SuspendKey(k))
      ensures suspended <==> k in old(keys) && old(keys)[k].status.ActiveKey?
    {
      StepKeepsVault(View(), SuspendKey(k));
      hide VaultOk;
      if k !in keys || !keys[k].status.ActiveKey? {
        return false;
      }
      activeKey := activeKey - {keys[k].merchant};
      keys := keys[k := keys[k].(status := SuspendedKey)];
      return true;
    }

    /** Run without interruption: find or open the LIVE request, read it again, write it authorised. */
    method AdminAuthorizeIssuance(merchant: string, active: bool, id: IssuanceId, now: int) returns (ok: bool)
      requires Valid() && id !in issuances
      modifies this
      ensures Valid() && View() == Run(old(View()), AdminSteps(merchant, active, id, now))
      ensures ok <==> active
      ensures active ==> Slot(merchant, Live) in outstanding && outstanding[Slot(merchant, Live)] in issuances
                         && issuances[outstanding[Slot(merchant, Live)]].status.Authorized?
    {
      hide VaultOk, Run, AdminSteps;
      ghost var v := View();
      var slot := Slot(merchant, Live);
      OutstandingIsStored(v, slot);
      RunKeepsVault(v, AdminSteps(merchant, active, id, now));
      AdminRuns(v, merchant, active, id, now);
      if !active {
        return false;
      }
      if slot !in outstanding {
        issuances := issuances[id := Issuance(merchant, Live, Authorized, None, Some(now + AUTH_TTL))];
        outstanding := outstanding[slot := id];
        return true;
      }
      var found := outstanding[slot];
      if issuances[found].status.Authorized? {
        return true;
      }
      var again := issuances[found];
      issuances := issuances[found := again.(status := Authorized, token := again.token, expiresAt := Some(now + AUTH_TTL))];
      return true;
    }
  }

  function AdminSteps(merchant: string, active: bool, id: IssuanceId, now: int): seq<Step> {
    [AdminFind(0, merchant, active, id, now), AdminReread(0), AdminWrite(0, now)]
  }

  lemma HandOutAddsTheKey(v: Vault, id: IssuanceId, hash: string, key: KeyId)
    requires id in v.issuances
    ensures key in HandOut(v, id, hash, key).keys
  {
    hide RevokeClaimsOf, ConsumeClaim;
  }

  /** Without a token to give, a request stores none. */
  lemma RefusedAskStoresNoToken(v: Vault, req: Request, now: int)
    requires VaultOk(v) && FreshIds(v, req) && req.mode.Live?
    ensures var slot := Slot(req.merchant, Live); var e := AskFor(v, req, false, now);
            (slot in v.outstanding && v.issuances[v.outstanding[slot]].status.Authorized?)
            || forall i :: i in e.issuances ==> !HasHash(e.issuances[i], req.hash)
  {
    FreshHashIsNowhere(v, req);
  }

  lemma FreshHashIsNowhere(v: Vault, req: Request)
    requires VaultOk(v) && FreshIds(v, req)
    ensures forall i :: i in v.issuances ==> !HasHash(v.issuances[i], req.hash)
  {
    assert forall i :: i in v.issuances ==> OwnToken(v.minted, i, v.issuances[i]);
  }

  lemma OutstandingIsStored(v: Vault, slot: Slot)
    requires VaultOk(v)
    ensures SlotStored(v, slot)
  {
  }

  /** What an uninterrupted authorisation leaves. */
  function AdminLeaves(v: Vault, merchant: string, active: bool, id: IssuanceId, now: int): Vault
    requires SlotStored(v, Slot(merchant, Live))
  {
    var s := Slot(merchant, Live);
    if !active then v
    else if s !in v.outstanding then
      v.(issuances := v.issuances[id := Issuance(merchant, Live, Authorized, None, Some(now + AUTH_TTL))],
         outstanding := v.outstanding[s := id])
    else if v.issuances[v.outstanding[s]].status.Authorized? then v
    else v.(issuances := v.issuances[v.outstanding[s] := v.issuances[v.outstanding[s]].(status := Authorized, expiresAt := Some(now + AUTH_TTL))])
  }

  predicate SlotStored(v: Vault, slot: Slot) {
    slot in v.outstanding ==>
      var i := v.outstanding[slot];
      i in v.issuances && Outstanding(v.issuances[i].status) && v.issuances[i].merchant == slot.merchant && v.issuances[i].mode == slot.mode
  }

  lemma AdminRuns(v: Vault, merchant: string, active: bool, id: IssuanceId, now: int)
    requires v.flights == map[] && id !in v.issuances && SlotStored(v, Slot(merchant, Live))
    ensures Run(v, AdminSteps(merchant, active, id, now)) == AdminLeaves(v, merchant, active, id, now)
  {
    var s := Slot(merchant, Live);
    var steps := AdminSteps(merchant, active, id, now);
    TwoSteps(v, steps);
    var v2 := Apply(Apply(v, steps[0]), steps[1]);
    assert steps[2..] == [steps[2]] + [];
    StepThenRun(v2, steps[2], []);
    hide AskFor, Claim, EndKey, Run;
    if active && s in v.outstanding && v.issuances[v.outstanding[s]].status.PendingKyc? {
      PendingIsAuthorised(v, merchant, id, now);
    }
  }

  lemma PendingIsAuthorised(v: Vault, merchant: string, id: IssuanceId, now: int)
    requires v.flights == map[] && id !in v.issuances && SlotStored(v, Slot(merchant, Live)) && Slot(merchant, Live) in v.outstanding
    requires v.issuances[v.outstanding[Slot(merchant, Live)]].status.PendingKyc?
    ensures var steps := AdminSteps(merchant, true, id, now);
            Apply(Apply(Apply(v, steps[0]), steps[1]), steps[2]) == AdminLeaves(v, merchant, true, id, now)
  {
    var s := Slot(merchant, Live);
    var i := v.outstanding[s];
    var w := Authorising(i, None);
    var w2 := Authorising(i, Some(v.issuances[i]));
    var steps := AdminSteps(merchant, true, id, now);
    assert Apply(v, steps[0]) == v.(flights := map[0 := w]);
    assert Apply(Apply(v, steps[0]), steps[1]) == v.(flights := map[0 := w2]) by { assert map[0 := w][0 := w2] == map[0 := w2]; }
    assert map[0 := w2] - {0} == map[] && v.outstanding[s := i] == v.outstanding;
  }

  /** A claim between the admin's two accesses is overwritten: the request is open again, its key is out. */
  function ReopeningRun(): seq<Step> {
    [Ask(Request("m", Live, "u", "i", "c0", "h0"), false, 0),       // pending: KYC is not done yet
     AdminFind(0, "m", true, "x", 0),
     Ask(Request("m", Live, "u", "y", "c1", "h1"), true, 0),        // refreshed and authorised meanwhile
     AdminReread(0),
     Exchange("h1", "u", None, "k1", true, 1),
     AdminWrite(0, 2)]
  }

  const PENDING := Issuance("m", Live, PendingKyc, None, Some(AUTH_TTL))
  const OPEN := Issuance("m", Live, Authorized, Some(Token("h1", "u", CLAIM_TTL)), Some(AUTH_TTL))
  const SLOT := Slot("m", Live)

  lemma StepThenRun(v: Vault, s: Step, t: seq<Step>)
    ensures Run(v, [s] + t) == Run(Apply(v, s), t)
  {
    assert ([s] + t)[1..] == t;
  }

  lemma TwoSteps(v: Vault, s: seq<Step>)
    requires |s| >= 2
    ensures Run(v, s) == Run(Apply(Apply(v, s[0]), s[1]), s[2..])
  {
    assert s[1..][1..] == s[2..];
  }

  ghost predicate TakenUp(v: Vault) {
    && v.issuances == map["i" := PENDING] && v.outstanding == map[SLOT := "i"] && v.claims == map[] && v.keys == map[]
    && v.minted == map["h0" := "i"] && v.flights == map[0 := Authorising("i", None)] && v.announced == {}
  }

  ghost predicate Reread(v: Vault) {
    && v.issuances == map["i" := OPEN] && v.outstanding == map[SLOT := "i"] && v.keys == map[]
    && v.flights == map[0 := Authorising("i", Some(OPEN))] && v.announced == {}
  }

  lemma PendingIsTakenUp(v: Vault)
    requires v == EMPTY
    ensures TakenUp(Apply(Apply(v, ReopeningRun()[0]), ReopeningRun()[1]))
  {
  }

  lemma RefreshedIsReread(v: Vault)
    requires TakenUp(v)
    ensures Reread(Apply(Apply(v, ReopeningRun()[2]), ReopeningRun()[3]))
  {
    var v1 := Apply(v, ReopeningRun()[2]);
    assert v1.issuances == map["i" := OPEN] && v1.flights == v.flights && v1.keys == v.keys && v1.outstanding == v.outstanding
           && v1.announced == v.announced;
  }

  lemma ClaimedIsReopened(v: Vault)
    requires Reread(v)
    ensures var e := Apply(Apply(v, ReopeningRun()[4]), ReopeningRun()[5]);
            Reopened(e, "i") && Opens(e.issuances["i"], "h1") && "k1" in e.keys && e.keys["k1"].issuance == "i"
  {
    OpenedOpens(v, "h1");
    assert Opens(v.issuances["i"], "h1");
    assert Opened(v, "h1") == Some("i");
    var v1 := Apply(v, ReopeningRun()[4]);
    assert v1.issuances == map["i" := OPEN.(status := Claimed)] && v1.flights == v.flights;
    assert v1.keys.Keys == {"k1"} && SLOT !in v1.outstanding && v1.announced == {"i"};
  }

  /** So the merchant's one LIVE slot can come to be blocked by a request that is already claimed. */
  lemma AClaimedRequestIsReopened()
    ensures var v := Run(EMPTY, ReopeningRun());
            Reopened(v, "i") && Opens(v.issuances["i"], "h1") && "k1" in v.keys && v.keys["k1"].issuance == "i"
  {
    var s := ReopeningRun();
    var v2 := Apply(Apply(EMPTY, s[0]), s[1]);
    var v4 := Apply(Apply(v2, s[2]), s[3]);
    PendingIsTakenUp(EMPTY);
    RefreshedIsReread(v2);
    ClaimedIsReopened(v4);
    hide Apply, TakenUp, Reread, Reopened;
    TwoSteps(EMPTY, s);
    TwoSteps(v2, s[2..]);
    TwoSteps(v4, s[4..]);
    assert s[2..][2..] == s[4..] && s[4..][2..] == [];
  }
}
