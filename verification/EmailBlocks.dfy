/**
 E-mail changes that cannot end. A user has one pending request at most, nothing ever
 cancels it, and only its own completion makes room for another: when it can still
 complete, and when it blocks its user for ever.
 */
module EmailBlocks {
  import opened Options
  import opened EmailChange

  predicate Pending(a: Accounts, id: RequestId) {
    id in a.requests && a.requests[id].status.Pending?
  }

  /** The proof is not in yet. */
  predicate Waits(a: Accounts, id: RequestId, p: Purpose) {
    Pending(a, id) && !ConfirmedOf(a.requests[id], p)
  }

  /** Another user has the address that the request names. */
  predicate Contested(a: Accounts, id: RequestId)
    requires id in a.requests
  {
    a.requests[id].newEmail in a.byEmail && a.byEmail[a.requests[id].newEmail] != a.requests[id].user
  }

  /** The proof is in, or its token is good after this time. */
  predicate TokenGood(a: Accounts, id: RequestId, p: Purpose, t: int)
    requires id in a.requests
  {
    ConfirmedOf(a.requests[id], p) || (HashOf(a.requests[id], p) in a.challenges && a.challenges[HashOf(a.requests[id], p)].expiresAt > t)
  }

  predicate TokensGood(a: Accounts, id: RequestId, t: int)
    requires id in a.requests
  {
    TokenGood(a, id, Current, t) && TokenGood(a, id, New, t)
  }

  predicate SameRequest(x: Request, y: Request) {
    x.(currentConfirmed := y.currentConfirmed, newConfirmed := y.newConfirmed, status := y.status) == y
  }

  lemma {:induction false} RunSplits(a: Accounts, s: seq<Step>, t: seq<Step>)
    ensures Run(a, s + t) == Run(Run(a, s), t)
    decreases |s|
  {
    hide Apply;
    if s == [] {
      assert s + t == t;
    } else {
      assert (s + t)[1..] == s[1..] + t;
      RunSplits(Apply(a, s[0]), s[1..], t);
    }
  }

  // ---------------------------------------------------------------------------
  // What a step does to a pending request
  // ---------------------------------------------------------------------------

  lemma ConfirmLeavesOrCompletes(a: Accounts, hash: string, p: Purpose, actor: Option<UserId>, now: int, id: RequestId)
    requires AccountsOk(a) && Pending(a, id)
    ensures var e := Confirmed(a, hash, p, actor, now); var r := a.requests[id];
      && id in e.requests && SameRequest(r, e.requests[id]) && r.user in a.users && r.user in e.users
      && (Pending(e, id) ==> e.users[r.user] == a.users[r.user])
      && (!Pending(e, id) ==> !Contested(a, id) && e.users[r.user] == r.newEmail)
  {
    assert RequestOk(a, id);
    if Accepts(a, hash, p, actor, now) {
      assert RequestOk(a, a.challenges[hash].request);
    }
    ConfirmedIs(a, hash, p, actor, now);
    hide EmailsOk, RequestsOk, RequestOk, RevokeFor, InvalidateFor, Consume, Confirmed, Confirming;
  }

  /** It stays as it is, and so does the address of its user, until it completes. */
  lemma StepLeavesOrCompletes(a: Accounts, s: Step, id: RequestId)
    requires AccountsOk(a) && Pending(a, id)
    ensures var e := Apply(a, s); var r := a.requests[id];
      && id in e.requests && SameRequest(r, e.requests[id]) && r.user in a.users && r.user in e.users
      && (Pending(e, id) ==> e.users[r.user] == a.users[r.user])
      && (!Pending(e, id) ==> !Contested(a, id) && e.users[r.user] == r.newEmail)
  {
    assert RequestOk(a, id);
    hide Confirmed;
    match s
    case Confirm(hash, p, actor, now) => ConfirmLeavesOrCompletes(a, hash, p, actor, now, id);
    case _ =>
  }

  lemma PendingIsKnown(a: Accounts, id: RequestId)
    requires AccountsOk(a) && Pending(a, id)
    ensures var r := a.requests[id];
      && r.user in a.users && r.user in a.pending && a.pending[r.user] == id && a.users[r.user] != r.newEmail
      && r.currentHash in a.challenges && r.newHash in a.challenges
  {
    assert RequestOk(a, id);
  }

  lemma BusyUsersAreRefused(a: Accounts, user: UserId)
    requires user in a.pending
    ensures forall newEmail, others :: !Requesting(a, user, newEmail, others).Sent?
  {
  }

  lemma StepKeepsExpiry(a: Accounts, s: Step, hash: string)
    requires hash in a.challenges
    ensures hash in Apply(a, s).challenges && Apply(a, s).challenges[hash].expiresAt == a.challenges[hash].expiresAt
  {
    hide Accepts, RevokeFor;
  }

  // ---------------------------------------------------------------------------
  // Tokens that are not used in time
  // ---------------------------------------------------------------------------

  predicate UsedInTime(s: Step, hash: string, expiresAt: int) {
    s.Confirm? && s.hash == hash && s.now < expiresAt
  }

  lemma StepKeepsWaiting(a: Accounts, s: Step, id: RequestId, p: Purpose)
    requires AccountsOk(a) && Waits(a, id, p)
    requires HashOf(a.requests[id], p) in a.challenges ==>
               !UsedInTime(s, HashOf(a.requests[id], p), a.challenges[HashOf(a.requests[id], p)].expiresAt)
    ensures Waits(Apply(a, s), id, p) && SameRequest(a.requests[id], Apply(a, s).requests[id])
    ensures AccountsOk(Apply(a, s))
  {
    StepKeepsAccounts(a, s);
    StepLeavesOrCompletes(a, s, id);
    var e := Apply(a, s);
    assert RequestOk(e, id);
    if ConfirmedOf(e.requests[id], p) {
      NewProofIsAConfirmation(a, s, id, p);
    }
    hide Apply, AccountsOk, RequestOk;
  }

  /** As long as the token of a missing proof is not used in time, whatever else happens, the request stays pending,
      the address of its user stays, and every new request of that user is refused as busy. */
  lemma {:induction false} UnusedTokensBlock(a: Accounts, steps: seq<Step>, id: RequestId, p: Purpose)
    requires AccountsOk(a) && Waits(a, id, p) && HashOf(a.requests[id], p) in a.challenges
    requires var h := HashOf(a.requests[id], p); forall k :: 0 <= k < |steps| ==> !UsedInTime(steps[k], h, a.challenges[h].expiresAt)
    ensures var e := Run(a, steps); var u := a.requests[id].user;
      && Waits(e, id, p) && u in a.users && u in e.users && e.users[u] == a.users[u]
      && (forall newEmail, others :: !Requesting(e, u, newEmail, others).Sent?)
    decreases |steps|
  {
    PendingIsKnown(a, id);
    if steps == [] {
      BusyUsersAreRefused(a, a.requests[id].user);
      assert Run(a, steps) == a;
    } else {
      var e := Apply(a, steps[0]);
      StepKeepsWaiting(a, steps[0], id, p);
      StepLeavesOrCompletes(a, steps[0], id);
      StepKeepsExpiry(a, steps[0], HashOf(a.requests[id], p));
      hide Apply, AccountsOk, UsedInTime, Requesting;
      assert Run(a, steps) == Run(e, steps[1..]);
      UnusedTokensBlock(e, steps[1..], id, p);
    }
  }

  /** In any run from the empty tables, a user who asks for a change and uses one of its tokens not in time, or not
      at all, keeps the address for the rest of the run and gets no further request. */
  lemma AnUnansweredRequestBlocks(steps: seq<Step>, k: nat, p: Purpose)
    requires k < |steps| && steps[k].RequestChange? && IsFresh(Run(EMPTY, steps[..k]), steps[k].ids)
    requires Requesting(Run(EMPTY, steps[..k]), steps[k].user, steps[k].newEmail, steps[k].othersPending).Sent?
    requires var f := steps[k].ids; forall m :: k < m < |steps| ==>
               !UsedInTime(steps[m], if p.Current? then f.currentHash else f.newHash, steps[k].now + TTL)
    ensures var a, e := Run(EMPTY, steps[..k]), Run(EMPTY, steps); var u := steps[k].user;
      && Waits(e, steps[k].ids.id, p) && u in a.users && u in e.users && e.users[u] == a.users[u]
      && (forall newEmail, others :: !Requesting(e, u, newEmail, others).Sent?)
  {
    var a := Run(EMPTY, steps[..k]);
    var b := Apply(a, steps[k]);
    var rest := steps[k + 1..];
    hide Run, Apply, AccountsOk, Requesting, IsFresh, UsedInTime;
    EmptyIsOk();
    RunKeepsAccounts(EMPTY, steps[..k]);
    StepKeepsAccounts(a, steps[k]);
    RunGoesOn(steps, k);
    SentRequestWaits(a, steps[k], p);
    assert forall m :: 0 <= m < |rest| ==> rest[m] == steps[k + 1 + m];
    UnusedTokensBlock(b, rest, steps[k].ids.id, p);
  }

  lemma RunGoesOn(steps: seq<Step>, k: nat)
    requires k < |steps|
    ensures Run(EMPTY, steps) == Run(Apply(Run(EMPTY, steps[..k]), steps[k]), steps[k + 1..])
  {
    hide Apply;
    RunSplits(EMPTY, steps[..k], steps[k..]);
    assert steps[..k] + steps[k..] == steps && steps[k..][0] == steps[k] && steps[k..][1..] == steps[k + 1..];
  }

  lemma SentRequestWaits(a: Accounts, s: Step, p: Purpose)
    requires s.RequestChange? && IsFresh(a, s.ids) && Requesting(a, s.user, s.newEmail, s.othersPending).Sent?
    ensures var b := Apply(a, s); var id := s.ids.id;
      && Waits(b, id, p) && b.requests[id].user == s.user && b.users == a.users && s.user in a.users
      && HashOf(b.requests[id], p) == (if p.Current? then s.ids.currentHash else s.ids.newHash)
      && HashOf(b.requests[id], p) in b.challenges && b.challenges[HashOf(b.requests[id], p)].expiresAt == s.now + TTL
  {
  }

  /** A collision at the end cancels nothing: the request stays as it was, and blocks its user as long as the refused
      proof is not given again before its token expires. */
  lemma CollisionsBlockForEver(a: Accounts, hash: string, p: Purpose, actor: Option<UserId>, now: int, steps: seq<Step>)
    requires AccountsOk(a) && Confirming(a, hash, p, actor, now).Collision?
    requires forall k :: 0 <= k < |steps| ==> !UsedInTime(steps[k], hash, a.challenges[hash].expiresAt)
    ensures var e := Run(Apply(a, Confirm(hash, p, actor, now)), steps); var u := a.requests[a.challenges[hash].request].user;
      && u in a.users && u in e.users && e.users[u] == a.users[u]
      && (forall newEmail, others :: !Requesting(e, u, newEmail, others).Sent?)
  {
    hide Run, Apply, AccountsOk, Confirming, UsedInTime, Requesting;
    CollisionsChangeNothing(a, hash, p, actor, now);
    UnusedTokensBlock(a, steps, a.challenges[hash].request, p);
  }

  lemma CollisionsChangeNothing(a: Accounts, hash: string, p: Purpose, actor: Option<UserId>, now: int)
    requires Confirming(a, hash, p, actor, now).Collision?
    ensures Apply(a, Confirm(hash, p, actor, now)) == a && hash in a.challenges
    ensures var id := a.challenges[hash].request; Waits(a, id, p) && HashOf(a.requests[id], p) == hash
  {
  }

  /** A user asks for an address, the other user registers it between the two proofs. */
  function CollisionSteps(user: UserId, email: Email, newEmail: Email, ids: NewIds, other: UserId): seq<Step> {
    [Register(user, email), RequestChange(user, newEmail, ids, false, 0), Confirm(ids.currentHash, Current, None, 1), Register(other, newEmail)]
  }

  lemma ACollisionIsReached(user: UserId, email: Email, newEmail: Email, ids: NewIds, other: UserId)
    requires newEmail != "" && newEmail != email && other != user && ids.currentHash != ids.newHash
    ensures Confirming(Run(EMPTY, CollisionSteps(user, email, newEmail, ids, other)), ids.newHash, New, None, 2).Collision?
  {
    var s := CollisionSteps(user, email, newEmail, ids, other);
    var a2 := Apply(Apply(EMPTY, s[0]), s[1]);
    var a4 := Apply(Apply(a2, s[2]), s[3]);
    RunSplits(EMPTY, [s[0], s[1]], [s[2], s[3]]);
    TwoSteps(EMPTY, s[0], s[1]);
    TwoSteps(a2, s[2], s[3]);
    assert s == [s[0], s[1]] + [s[2], s[3]];
    AskedTables(user, email, newEmail, ids);
    CollisionTables(a2, user, email, newEmail, ids, other);
    hide Run, Apply, Confirming;
  }

  lemma AskedTables(user: UserId, email: Email, newEmail: Email, ids: NewIds)
    requires newEmail != "" && newEmail != email && ids.currentHash != ids.newHash
    ensures var a := Apply(Apply(EMPTY, Register(user, email)), RequestChange(user, newEmail, ids, false, 0));
      && a.users == map[user := email] && a.byEmail == map[email := user]
      && a.requests == map[ids.id := Request(user, newEmail, ids.currentHash, ids.newHash, false, false, EmailChange.Pending)]
      && a.challenges == map[ids.currentHash := Challenge(user, Current, ids.id, TTL, false), ids.newHash := Challenge(user, New, ids.id, TTL, false)]
  {
    var a1 := Apply(EMPTY, Register(user, email));
    assert a1.users == map[user := email] && a1.byEmail == map[email := user];
  }

  lemma CollisionTables(a: Accounts, user: UserId, email: Email, newEmail: Email, ids: NewIds, other: UserId)
    requires newEmail != email && other != user && ids.currentHash != ids.newHash
    requires a.users == map[user := email] && a.byEmail == map[email := user]
    requires a.requests == map[ids.id := Request(user, newEmail, ids.currentHash, ids.newHash, false, false, EmailChange.Pending)]
    requires a.challenges == map[ids.currentHash := Challenge(user, Current, ids.id, TTL, false), ids.newHash := Challenge(user, New, ids.id, TTL, false)]
    ensures Confirming(Apply(Apply(a, Confirm(ids.currentHash, Current, None, 1)), Register(other, newEmail)), ids.newHash, New, None, 2).Collision?
  {
    var b := Apply(a, Confirm(ids.currentHash, Current, None, 1));
    assert b == a.(challenges := Consume(a, ids.currentHash), requests := a.requests[ids.id := MarkConfirmed(a.requests[ids.id], Current)]);
    var e := Apply(b, Register(other, newEmail));
    assert e == b.(users := b.users[other := newEmail], byEmail := b.byEmail[newEmail := other]);
  }

  // ---------------------------------------------------------------------------
  // Completing now
  // ---------------------------------------------------------------------------

  function Confirmations(r: Request, t: int): seq<Step> {
    [Confirm(r.currentHash, Current, None, t), Confirm(r.newHash, New, None, t)]
  }

  lemma ProofIs(a: Accounts, id: RequestId, p: Purpose, t: int)
    requires AccountsOk(a) && Pending(a, id)
    ensures var r := a.requests[id]; var e := Apply(a, Confirm(HashOf(r, p), p, None, t));
      && r.user in a.users && HashOf(r, p) in a.challenges
      && e == if ConfirmedOf(r, p) || !TokenGood(a, id, p, t) then a
              else if !ConfirmedOf(r, Other(p)) then Half(a, id, p)
              else if Contested(a, id) then a
              else Done(a, id)
  {
    var r := a.requests[id];
    assert RequestOk(a, id);
    ConfirmedIs(a, HashOf(r, p), p, None, t);
    InvalidatingForgetsUses(a, id, p);
    hide EmailsOk, RequestsOk, RequestOk, RevokeFor, InvalidateFor, Consume, Confirmed, Confirming;
  }

  lemma InvalidatingForgetsUses(a: Accounts, id: RequestId, p: Purpose)
    requires AccountsOk(a) && Pending(a, id)
    ensures var r := a.requests[id]; HashOf(r, p) in a.challenges && InvalidateFor(Consume(a, HashOf(r, p)), r.user) == InvalidateFor(a.challenges, r.user)
  {
    assert RequestOk(a, id);
  }

  /** Both tokens given now complete the request exactly when each proof that is missing has a token that is still good,
      and no other user has the address. Otherwise it stays pending. */
  lemma CompletesNowExactly(a: Accounts, id: RequestId, t: int)
    requires AccountsOk(a) && Pending(a, id)
    ensures var e := Run(a, Confirmations(a.requests[id], t)); var done := TokensGood(a, id, t) && !Contested(a, id);
      && id in e.requests && (e.requests[id].status.Completed? <==> done)
      && a.requests[id].user in a.users && (done ==> e == Done(a, id))
  {
    var r := a.requests[id];
    var b := Apply(a, Confirm(r.currentHash, Current, None, t));
    PendingIsKnown(a, id);
    ProofIs(a, id, Current, t);
    StepKeepsAccounts(a, Confirm(r.currentHash, Current, None, t));
    TwoSteps(a, Confirm(r.currentHash, Current, None, t), Confirm(r.newHash, New, None, t));
    HalfIsPending(a, id);
    NotBothProofsAreIn(a, id);
    hide Run, Apply, AccountsOk, Half, Done;
    if Pending(b, id) {
      ProofIs(b, id, New, t);
    }
    DoneIsCompleted(a, id);
  }

  lemma NotBothProofsAreIn(a: Accounts, id: RequestId)
    requires AccountsOk(a) && Pending(a, id)
    ensures !(ConfirmedOf(a.requests[id], Current) && ConfirmedOf(a.requests[id], New))
  {
    assert RequestOk(a, id);
  }

  lemma HalfIsPending(a: Accounts, id: RequestId)
    requires AccountsOk(a) && Pending(a, id)
    ensures a.requests[id].currentHash in a.challenges && a.requests[id].user in a.users
    ensures var r, b := a.requests[id], Half(a, id, Current);
            && Pending(b, id) && b.requests[id] == r.(currentConfirmed := true) && Contested(b, id) == Contested(a, id)
            && (forall t :: TokenGood(b, id, New, t) == TokenGood(a, id, New, t)) && r.user in b.users && Done(b, id) == Done(a, id)
  {
    var r := a.requests[id];
    PendingIsKnown(a, id);
    InvalidatingForgetsUses(a, id, Current);
    var b := Half(a, id, Current);
    var done := r.(currentConfirmed := true, newConfirmed := true, status := Completed);
    assert b.requests[id := done] == a.requests[id := done];
    hide AccountsOk, InvalidateFor, RevokeFor;
  }

  lemma DoneIsCompleted(a: Accounts, id: RequestId)
    requires id in a.requests && a.requests[id].user in a.users
    ensures id in Done(a, id).requests && Done(a, id).requests[id].status.Completed?
  {
  }

  // ---------------------------------------------------------------------------
  // Completing at all
  // ---------------------------------------------------------------------------

  predicate NotBefore(s: Step, t: int) {
    (s.Confirm? ==> s.now >= t) && (s.RequestChange? ==> s.now >= t)
  }

  predicate AllNotBefore(steps: seq<Step>, t: int) {
    forall k :: 0 <= k < |steps| ==> NotBefore(steps[k], t)
  }

  predicate Completes(a: Accounts, steps: seq<Step>, id: RequestId) {
    id in Run(a, steps).requests && Run(a, steps).requests[id].status.Completed?
  }

  /** Pending requests with good tokens, each naming the address of the next one's user; no other user has the address
      the last one names, or one who has no request pending. */
  ghost predicate Chain(a: Accounts, ids: seq<RequestId>, t: int) {
    && ids != []
    && (forall k :: 0 <= k < |ids| ==> Pending(a, ids[k]) && TokensGood(a, ids[k], t))
    && (forall j, k :: 0 <= j < k < |ids| ==> ids[j] != ids[k])
    && (forall k :: 0 <= k < |ids| - 1 ==> a.requests[ids[k]].newEmail in a.byEmail
                                           && a.byEmail[a.requests[ids[k]].newEmail] == a.requests[ids[k + 1]].user)
    && (Contested(a, ids[|ids| - 1]) ==> a.byEmail[a.requests[ids[|ids| - 1]].newEmail] !in a.pending)
  }

  ghost predicate HasChain(a: Accounts, id: RequestId, t: int) {
    exists ids :: Chain(a, ids, t) && |ids| > 0 && ids[0] == id
  }

  // From a run that completes it to a chain

  lemma {:induction false} CompletedStays(a: Accounts, steps: seq<Step>, id: RequestId)
    requires AccountsOk(a) && id in a.requests && a.requests[id].status.Completed?
    ensures Completes(a, steps, id)
    decreases |steps|
  {
    if steps != [] {
      StepKeepsAccounts(a, steps[0]);
      StepKeepsCompleted(a, steps[0], id);
      hide Apply, AccountsOk;
      CompletedStays(Apply(a, steps[0]), steps[1..], id);
    }
  }

  lemma StepKeepsCompleted(a: Accounts, s: Step, id: RequestId)
    requires id in a.requests && a.requests[id].status.Completed?
    ensures id in Apply(a, s).requests && Apply(a, s).requests[id].status.Completed?
  {
    hide InvalidateFor, RevokeFor;
  }

  /** A request that completes in a run does so in one step of it, and was pending before. */
  lemma {:induction false} CompletionStep(a: Accounts, steps: seq<Step>, id: RequestId) returns (n: nat)
    requires AccountsOk(a) && Pending(a, id) && Completes(a, steps, id)
    ensures n < |steps| && AccountsOk(Run(a, steps[..n])) && Pending(Run(a, steps[..n]), id)
    ensures SameRequest(a.requests[id], Run(a, steps[..n]).requests[id])
    ensures var d := Run(a, steps[..n]); !Pending(Apply(d, steps[n]), id)
    decreases |steps|
  {
    var e := Apply(a, steps[0]);
    StepKeepsAccounts(a, steps[0]);
    StepLeavesOrCompletes(a, steps[0], id);
    assert steps[..0] == [] && Run(a, []) == a;
    hide Apply, AccountsOk;
    if Pending(e, id) {
      assert Run(a, steps) == Run(e, steps[1..]);
      n := CompletionStep(e, steps[1..], id);
      assert steps[..n + 1][0] == steps[0] && steps[..n + 1][1..] == steps[1..][..n];
      assert Run(a, steps[..n + 1]) == Run(e, steps[1..][..n]);
      n := n + 1;
    } else {
      n := 0;
    }
  }

  /** The address of a user with a pending request moves only with its completion. */
  lemma {:induction false} AddressMovesByCompletion(a: Accounts, steps: seq<Step>, id: RequestId)
    requires AccountsOk(a) && Pending(a, id)
    ensures a.requests[id].user in a.users && a.requests[id].user in Run(a, steps).users
    ensures Run(a, steps).users[a.requests[id].user] != a.users[a.requests[id].user] ==> Completes(a, steps, id)
    decreases |steps|
  {
    PendingIsKnown(a, id);
    if steps == [] {
      assert Run(a, steps) == a;
    } else {
      var e := Apply(a, steps[0]);
      StepKeepsAccounts(a, steps[0]);
      StepLeavesOrCompletes(a, steps[0], id);
      hide Apply, AccountsOk;
      assert Run(a, steps) == Run(e, steps[1..]);
      if Pending(e, id) {
        AddressMovesByCompletion(e, steps[1..], id);
      } else {
        CompletedStays(e, steps[1..], id);
        UsersStay(e, steps[1..], a.requests[id].user);
      }
    }
  }

  lemma {:induction false} UsersStay(a: Accounts, steps: seq<Step>, u: UserId)
    requires u in a.users
    ensures u in Run(a, steps).users
    decreases |steps|
  {
    if steps != [] {
      StepKeepsUsers(a, steps[0], u);
      hide Apply;
      UsersStay(Apply(a, steps[0]), steps[1..], u);
    }
  }

  lemma StepKeepsUsers(a: Accounts, s: Step, u: UserId)
    requires u in a.users
    ensures u in Apply(a, s).users
  {
    hide Accepts;
  }

  lemma ExpiredTokensNeverComplete(a: Accounts, steps: seq<Step>, id: RequestId, t: int)
    requires AccountsOk(a) && Pending(a, id) && AllNotBefore(steps, t) && Completes(a, steps, id)
    ensures TokensGood(a, id, t)
  {
    PendingIsKnown(a, id);
    hide Run, AccountsOk, Requesting;
    if !TokenGood(a, id, Current, t) {
      UnusedTokensBlock(a, steps, id, Current);
    }
    if !TokenGood(a, id, New, t) {
      UnusedTokensBlock(a, steps, id, New);
    }
  }

  lemma HolderMovedOn(a: Accounts, d: Accounts, s: Step, id: RequestId)
    requires AccountsOk(a) && AccountsOk(d) && Pending(a, id) && Pending(d, id) && SameRequest(a.requests[id], d.requests[id])
    requires !Pending(Apply(d, s), id) && Contested(a, id)
    ensures var v := a.byEmail[a.requests[id].newEmail]; v in a.users && (v in d.users ==> d.users[v] != a.users[v])
  {
    StepLeavesOrCompletes(d, s, id);
    hide Apply, PendingOk, RequestsOk;
  }

  lemma HolderIsPending(a: Accounts, v: UserId)
    requires AccountsOk(a) && v in a.pending
    ensures Pending(a, a.pending[v]) && a.requests[a.pending[v]].user == v
  {
  }

  lemma {:induction false} ChainFromRun(a: Accounts, steps: seq<Step>, id: RequestId, t: int) returns (ids: seq<RequestId>)
    requires AccountsOk(a) && Pending(a, id) && AllNotBefore(steps, t) && Completes(a, steps, id)
    ensures Chain(a, ids, t) && |ids| > 0 && ids[0] == id && forall k :: 0 <= k < |ids| ==> Completes(a, steps, ids[k])
    decreases |steps|
  {
    hide Run, Apply, AccountsOk, NotBefore, TokensGood, Completes, Pending, SameRequest;
    ExpiredTokensNeverComplete(a, steps, id, t);
    var n := CompletionStep(a, steps, id);
    var d := Run(a, steps[..n]);
    ids := [id];
    PendingIsStored(a, id);
    if Contested(a, id) {
      var v := a.byEmail[a.requests[id].newEmail];
      HolderMovedOn(a, d, steps[n], id);
      if v in a.pending {
        var p := a.pending[v];
        HolderIsPending(a, v);
        AddressMovesByCompletion(a, steps[..n], p);
        var rest := ChainFromRun(a, steps[..n], p, t);
        forall k | 0 <= k < |rest|
          ensures Completes(a, steps, rest[k]) && rest[k] != id
        {
          CompletedLater(a, steps, n, rest[k]);
          PendingIsNotCompleted(a, steps[..n], id);
        }
        ids := [id] + rest;
        ChainGrows(a, id, rest, t);
      }
    }
  }

  lemma PendingIsStored(a: Accounts, id: RequestId)
    requires Pending(a, id)
    ensures id in a.requests
  {
  }

  lemma PendingIsNotCompleted(a: Accounts, steps: seq<Step>, id: RequestId)
    requires Pending(Run(a, steps), id)
    ensures !Completes(a, steps, id)
  {
  }

  lemma CompletedLater(a: Accounts, steps: seq<Step>, n: nat, id: RequestId)
    requires AccountsOk(a) && n <= |steps| && Completes(a, steps[..n], id)
    ensures Completes(a, steps, id)
  {
    RunKeepsAccounts(a, steps[..n]);
    RunSplits(a, steps[..n], steps[n..]);
    assert steps[..n] + steps[n..] == steps;
    hide Run, AccountsOk;
    CompletedStays(Run(a, steps[..n]), steps[n..], id);
  }

  lemma ChainGrows(a: Accounts, id: RequestId, rest: seq<RequestId>, t: int)
    requires Chain(a, rest, t) && Pending(a, id) && TokensGood(a, id, t) && id !in rest
    requires a.requests[id].newEmail in a.byEmail && a.byEmail[a.requests[id].newEmail] == a.requests[rest[0]].user
    ensures Chain(a, [id] + rest, t)
  {
    hide TokensGood, Contested;
    var ids := [id] + rest;
    assert forall k :: 0 < k < |ids| ==> ids[k] == rest[k - 1];
    assert ids[|ids| - 1] == rest[|rest| - 1];
  }

  // From a chain to a run that completes it

  /** What the completion of one request leaves of another. */
  lemma DoneLeavesOthers(a: Accounts, z: RequestId, x: RequestId, t: int)
    requires AccountsOk(a) && Pending(a, z) && Pending(a, x) && x != z && !Contested(a, z)
    ensures a.requests[z].user in a.users
    ensures var b := Done(a, z); var r, old_ := a.requests[z], a.users[a.requests[z].user];
      && Pending(b, x) && b.requests[x] == a.requests[x] && a.requests[x].user != r.user
      && TokensGood(b, x, t) == TokensGood(a, x, t)
      && old_ !in b.byEmail
      && (forall e :: e in a.byEmail && a.byEmail[e] != r.user ==> e in b.byEmail && b.byEmail[e] == a.byEmail[e])
  {
    PendingIsKnown(a, z);
    assert RequestOk(a, x);
    hide RevokeFor, RequestsOk;
  }

  lemma FrontChains(a: Accounts, ids: seq<RequestId>, t: int)
    requires AccountsOk(a) && Chain(a, ids, t) && |ids| > 1 && !Contested(a, ids[|ids| - 1])
    ensures a.requests[ids[|ids| - 1]].user in a.users
    ensures Chain(Done(a, ids[|ids| - 1]), ids[..|ids| - 1], t) && !Contested(Done(a, ids[|ids| - 1]), ids[|ids| - 2])
  {
    var last := |ids| - 1;
    var z, front := ids[last], ids[..last];
    PendingIsKnown(a, z);
    FrontIsFree(a, ids, t);
    var b := Done(a, z);
    hide TokensGood, Done, AccountsOk, Pending, Contested;
    forall k | 0 <= k < last
      ensures Pending(b, front[k]) && TokensGood(b, front[k], t) && b.requests[front[k]] == a.requests[front[k]]
    {
      DoneLeavesOthers(a, z, ids[k], t);
    }
    forall k | 0 <= k < last - 1
      ensures a.requests[front[k]].newEmail in b.byEmail && b.byEmail[a.requests[front[k]].newEmail] == a.requests[front[k + 1]].user
    {
      DoneLeavesOthers(a, z, ids[k + 1], t);
    }
  }

  lemma FrontIsFree(a: Accounts, ids: seq<RequestId>, t: int)
    requires AccountsOk(a) && Chain(a, ids, t) && |ids| > 1 && !Contested(a, ids[|ids| - 1])
    ensures a.requests[ids[|ids| - 1]].user in a.users && ids[|ids| - 2] in Done(a, ids[|ids| - 1]).requests
    ensures !Contested(Done(a, ids[|ids| - 1]), ids[|ids| - 2])
  {
    var z, y := ids[|ids| - 1], ids[|ids| - 2];
    assert Pending(a, z) && Pending(a, y) && y != z;
    assert a.requests[y].newEmail in a.byEmail && a.byEmail[a.requests[y].newEmail] == a.requests[z].user;
    hide Chain, TokensGood, Done, AccountsOk;
    DoneLeavesOthers(a, z, y, t);
    HeldAddress(a, a.requests[y].newEmail, a.requests[z].user);
  }

  lemma HeldAddress(a: Accounts, email: Email, u: UserId)
    requires AccountsOk(a) && email in a.byEmail && a.byEmail[email] == u
    ensures u in a.users && a.users[u] == email
  {
  }

  lemma LastCompletes(a: Accounts, ids: seq<RequestId>, t: int) returns (steps: seq<Step>)
    requires AccountsOk(a) && Chain(a, ids, t) && !Contested(a, ids[|ids| - 1])
    ensures a.requests[ids[|ids| - 1]].user in a.users && AllNotBefore(steps, t)
    ensures Run(a, steps) == Done(a, ids[|ids| - 1]) && AccountsOk(Run(a, steps)) && Completes(a, steps, ids[|ids| - 1])
  {
    var z := ids[|ids| - 1];
    assert Pending(a, z) && TokensGood(a, z, t);
    hide Run, AccountsOk, Chain, TokensGood, Contested, Done, Pending;
    steps := Confirmations(a.requests[z], t);
    CompletesNowExactly(a, z, t);
    RunKeepsAccounts(a, steps);
  }

  /** With the last address free, the requests of a chain complete from its end, all at one time. */
  lemma {:induction false} FreeChainCompletes(a: Accounts, ids: seq<RequestId>, t: int) returns (steps: seq<Step>)
    requires AccountsOk(a) && Chain(a, ids, t) && !Contested(a, ids[|ids| - 1])
    ensures AllNotBefore(steps, t) && Completes(a, steps, ids[0])
    decreases |ids|
  {
    steps := LastCompletes(a, ids, t);
    if |ids| > 1 {
      var b := Run(a, steps);
      FrontChains(a, ids, t);
      hide Run, AccountsOk, Chain, TokensGood, Contested, Done, NotBefore;
      var rest := FreeChainCompletes(b, ids[..|ids| - 1], t);
      RunSplits(a, steps, rest);
      steps := steps + rest;
    }
  }

  lemma {:induction false} LongerThanAll(keys: set<string>) returns (n: nat)
    ensures forall k :: k in keys ==> |k| < n
    decreases |keys|
  {
    n := 0;
    if x :| x in keys {
      n := LongerThanAll(keys - {x});
      n := if |x| < n then n else |x| + 1;
    }
  }

  lemma NewNames(a: Accounts) returns (email: Email, ids: NewIds)
    ensures email != "" && email !in a.byEmail && IsFresh(a, ids)
  {
    var n := LongerThanAll(a.byEmail.Keys + a.requests.Keys + a.challenges.Keys);
    email := seq(n + 1, _ => 'x');
    ids := NewIds(email, email, seq(n + 2, _ => 'x'));
    assert |ids.newHash| != |ids.currentHash|;
  }

  /** A user without a pending request can give up an address at once. */
  lemma HolderLeaves(a: Accounts, v: UserId, t: int) returns (steps: seq<Step>)
    requires AccountsOk(a) && v in a.users && v !in a.pending
    ensures AllNotBefore(steps, t) && AccountsOk(Run(a, steps))
    ensures var b := Run(a, steps);
      && a.users[v] !in b.byEmail && (forall e :: e in a.byEmail && a.byEmail[e] != v ==> e in b.byEmail && b.byEmail[e] == a.byEmail[e])
      && (forall x :: Pending(a, x) ==> Pending(b, x) && b.requests[x] == a.requests[x] && TokensGood(b, x, t) == TokensGood(a, x, t))
  {
    hide Run, Apply, AccountsOk, TokensGood, Done, Contested, IsFresh;
    var email, ids := NewNames(a);
    var ask := RequestChange(v, email, ids, false, t);
    var b := Apply(a, ask);
    StepKeepsAccounts(a, ask);
    AskingLeavesOthers(a, v, email, ids, t);
    PendingIsStored(b, ids.id);
    var rest := Confirmations(b.requests[ids.id], t);
    CompletesNowExactly(b, ids.id, t);
    RunKeepsAccounts(b, rest);
    steps := [ask] + rest;
    StepThenRun(a, ask, rest);
    forall x | Pending(a, x)
      ensures Pending(Run(b, rest), x) && Run(b, rest).requests[x] == a.requests[x] && TokensGood(Run(b, rest), x, t) == TokensGood(a, x, t)
    {
      DoneLeavesOthers(b, ids.id, x, t);
    }
    DoneFreesTheAddress(b, ids.id);
  }

  lemma StepThenRun(a: Accounts, s: Step, t: seq<Step>)
    ensures Run(a, [s] + t) == Run(Apply(a, s), t)
  {
    assert ([s] + t)[1..] == t;
    hide Apply;
  }

  lemma AskingLeavesOthers(a: Accounts, v: UserId, email: Email, ids: NewIds, t: int)
    requires AccountsOk(a) && v in a.users && v !in a.pending && email != "" && email !in a.byEmail && IsFresh(a, ids)
    ensures var b := Apply(a, RequestChange(v, email, ids, false, t));
      && Pending(b, ids.id) && b.requests[ids.id].user == v && TokensGood(b, ids.id, t) && !Contested(b, ids.id)
      && b.users == a.users && b.byEmail == a.byEmail
      && (forall x :: Pending(a, x) ==> x != ids.id && Pending(b, x) && b.requests[x] == a.requests[x] && TokensGood(b, x, t) == TokensGood(a, x, t))
  {
    assert Requesting(a, v, email, false).Sent?;
    forall x | Pending(a, x)
      ensures RequestOk(a, x)
    {
    }
  }

  lemma DoneFreesTheAddress(a: Accounts, z: RequestId)
    requires AccountsOk(a) && Pending(a, z) && !Contested(a, z)
    ensures a.requests[z].user in a.users
    ensures var b := Done(a, z); var r := a.requests[z];
      && a.users[r.user] !in b.byEmail
      && (forall e :: e in a.byEmail && a.byEmail[e] != r.user ==> e in b.byEmail && b.byEmail[e] == a.byEmail[e])
  {
    PendingIsKnown(a, z);
    hide RevokeFor, InvalidateFor, RequestsOk;
  }

  lemma ChainStaysFree(a: Accounts, b: Accounts, ids: seq<RequestId>, t: int, v: UserId)
    requires AccountsOk(a) && Chain(a, ids, t) && Contested(a, ids[|ids| - 1])
    requires v == a.byEmail[a.requests[ids[|ids| - 1]].newEmail] && v in a.users && a.users[v] !in b.byEmail
    requires forall e :: e in a.byEmail && a.byEmail[e] != v ==> e in b.byEmail && b.byEmail[e] == a.byEmail[e]
    requires forall x :: Pending(a, x) ==> Pending(b, x) && b.requests[x] == a.requests[x] && TokensGood(b, x, t) == TokensGood(a, x, t)
    ensures Chain(b, ids, t) && !Contested(b, ids[|ids| - 1])
  {
    var last := |ids| - 1;
    hide TokensGood;
    HeldAddress(a, a.requests[ids[last]].newEmail, v);
    forall k | 0 <= k < |ids|
      ensures a.requests[ids[k]].user in a.pending
    {
      PendingIsKnown(a, ids[k]);
    }
    hide AccountsOk, Pending;
    forall k | 0 <= k < |ids|
      ensures Pending(b, ids[k]) && TokensGood(b, ids[k], t) && b.requests[ids[k]] == a.requests[ids[k]]
    {
      assert Pending(a, ids[k]);
    }
    forall k | 0 <= k < last
      ensures a.requests[ids[k]].newEmail in b.byEmail && b.byEmail[a.requests[ids[k]].newEmail] == a.requests[ids[k + 1]].user
    {
      assert a.requests[ids[k + 1]].user != v;
    }
  }

  lemma ChainCompletes(a: Accounts, ids: seq<RequestId>, t: int) returns (steps: seq<Step>)
    requires AccountsOk(a) && Chain(a, ids, t)
    ensures AllNotBefore(steps, t) && Completes(a, steps, ids[0])
  {
    var z := ids[|ids| - 1];
    if Contested(a, z) {
      var v := a.byEmail[a.requests[z].newEmail];
      HeldAddress(a, a.requests[z].newEmail, v);
      var first := HolderLeaves(a, v, t);
      ChainStaysFree(a, Run(a, first), ids, t, v);
      hide Run, AccountsOk, Chain, Contested;
      var rest := FreeChainCompletes(Run(a, first), ids, t);
      RunSplits(a, first, rest);
      steps := first + rest;
    } else {
      steps := FreeChainCompletes(a, ids, t);
    }
  }

  // For ever

  /** Whatever happens from this time on, the user keeps the address and every new request is refused. */
  ghost predicate BlockedForEver(a: Accounts, u: UserId, t: int) {
    forall steps :: AllNotBefore(steps, t) ==> Blocked(a, Run(a, steps), u)
  }

  ghost predicate Blocked(a: Accounts, e: Accounts, u: UserId) {
    u in a.users && u in e.users && e.users[u] == a.users[u] && forall newEmail, others :: !Requesting(e, u, newEmail, others).Sent?
  }

  lemma {:induction false} UncompletedBlocks(a: Accounts, steps: seq<Step>, id: RequestId)
    requires AccountsOk(a) && Pending(a, id) && !Completes(a, steps, id)
    ensures Blocked(a, Run(a, steps), a.requests[id].user)
    decreases |steps|
  {
    PendingIsKnown(a, id);
    if steps == [] {
      BusyUsersAreRefused(a, a.requests[id].user);
      assert Run(a, steps) == a;
    } else {
      var e := Apply(a, steps[0]);
      StepKeepsAccounts(a, steps[0]);
      StepLeavesOrCompletes(a, steps[0], id);
      hide Apply, AccountsOk, Requesting;
      assert Run(a, steps) == Run(e, steps[1..]);
      if Pending(e, id) {
        UncompletedBlocks(e, steps[1..], id);
      } else {
        CompletedStays(e, steps[1..], id);
      }
    }
  }

  /** A completed request has moved the address of its user, at least for a moment. */
  lemma CompletionMoves(a: Accounts, steps: seq<Step>, id: RequestId, t: int)
    requires AccountsOk(a) && Pending(a, id) && AllNotBefore(steps, t) && Completes(a, steps, id)
    ensures !BlockedForEver(a, a.requests[id].user, t)
  {
    PendingIsKnown(a, id);
    hide Run, Apply, AccountsOk, Requesting, NotBefore;
    var n := CompletionStep(a, steps, id);
    StepLeavesOrCompletes(Run(a, steps[..n]), steps[n], id);
    PrefixRuns(a, steps, n);
    assert AllNotBefore(steps[..n + 1], t);
    assert !Blocked(a, Run(a, steps[..n + 1]), a.requests[id].user);
  }

  lemma PrefixRuns(a: Accounts, steps: seq<Step>, n: nat)
    requires n < |steps|
    ensures Run(a, steps[..n + 1]) == Apply(Run(a, steps[..n]), steps[n])
  {
    hide Apply;
    var d := Run(a, steps[..n]);
    RunSplits(a, steps[..n], [steps[n]]);
    assert steps[..n + 1] == steps[..n] + [steps[n]] && [steps[n]][1..] == [];
    assert Run(d, [steps[n]]) == Run(Apply(d, steps[n]), []) == Apply(d, steps[n]);
  }

  /** A user with a pending request is blocked for ever exactly when there is no chain from it: when no row of
      requests, each making room for the one before it, can complete from its end. */
  lemma BlockedForEverExactly(a: Accounts, id: RequestId, t: int)
    requires AccountsOk(a) && Pending(a, id)
    ensures BlockedForEver(a, a.requests[id].user, t) <==> !HasChain(a, id, t)
  {
    hide AccountsOk, Pending, Chain, Run, Completes, Blocked;
    PendingIsStored(a, id);
    if HasChain(a, id, t) {
      var ids :| Chain(a, ids, t) && |ids| > 0 && ids[0] == id;
      var steps := ChainCompletes(a, ids, t);
      CompletionMoves(a, steps, id, t);
    } else {
      forall steps | AllNotBefore(steps, t)
        ensures Blocked(a, Run(a, steps), a.requests[id].user)
      {
        if Completes(a, steps, id) {
          var ids := ChainFromRun(a, steps, id, t);
        }
        UncompletedBlocks(a, steps, id);
      }
    }
  }

  /** In particular, when no other user has the address: exactly when the token of a missing proof has expired. */
  lemma UncontestedBlockedExactly(a: Accounts, id: RequestId, t: int)
    requires AccountsOk(a) && Pending(a, id) && !Contested(a, id)
    ensures BlockedForEver(a, a.requests[id].user, t) <==> !TokensGood(a, id, t)
  {
    hide AccountsOk, BlockedForEver, TokensGood;
    BlockedForEverExactly(a, id, t);
    if TokensGood(a, id, t) {
      assert Chain(a, [id], t) && |[id]| > 0 && [id][0] == id;
    }
  }
}
