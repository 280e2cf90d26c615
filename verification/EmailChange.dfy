/**
 Changing the e-mail address of an account: a request sends one token to the current
 address and one to the new address, and the change happens when both came back.
 */
module EmailChange {
  import opened Options

  type UserId = string
  type Email = string
  type RequestId = string
  type SessionId = string

  datatype Purpose = Current | New

  datatype Challenge = Challenge(user: UserId, purpose: Purpose, request: RequestId, expiresAt: int, consumed: bool)

  datatype RequestStatus = Pending | Completed

  datatype Request = Request(
    user: UserId, newEmail: Email, currentHash: string, newHash: string,
    currentConfirmed: bool, newConfirmed: bool, status: RequestStatus)

  datatype Session = Session(user: UserId, revoked: bool)

  /** byEmail and pending are unique indexes: one user per address, one PENDING request per user.
      Challenges are unique by token hash. */
  datatype Accounts = Accounts(
    users: map<UserId, Email>, byEmail: map<Email, UserId>, sessions: map<SessionId, Session>,
    challenges: map<string, Challenge>, requests: map<RequestId, Request>, pending: map<UserId, RequestId>)

  /** Fresh identifiers and token hashes of a change request. */
  datatype NewIds = NewIds(id: RequestId, currentHash: string, newHash: string)

  datatype Step =
    | Register(user: UserId, email: Email)
    | LogIn(session: SessionId, user: UserId)
    | RequestChange(user: UserId, newEmail: Email, ids: NewIds, othersPending: bool, now: int)
    | Confirm(hash: string, purpose: Purpose, actor: Option<UserId>, now: int)

  /** 30 minutes, in seconds. */
  const TTL: nat := 1800

  const EMPTY := Accounts(map[], map[], map[], map[], map[], map[])

  // ---------------------------------------------------------------------------
  // Steps
  // ---------------------------------------------------------------------------

  predicate IsFresh(a: Accounts, f: NewIds) {
    f.id !in a.requests && f.currentHash !in a.challenges && f.newHash !in a.challenges && f.currentHash != f.newHash
  }

  datatype RequestOutcome = Sent | NothingToDo | SameAddress | InUse | Busy | NoUser

  /** The count of other users' pending requests for the address is read outside the transaction:
      its answer may be stale, so it is an input here. */
  function Requesting(a: Accounts, user: UserId, newEmail: Email, othersPending: bool): RequestOutcome {
    if newEmail == "" then NothingToDo
    else if user !in a.users then NoUser
    else if newEmail == a.users[user] then SameAddress
    else if newEmail in a.byEmail || othersPending then InUse
    else if user in a.pending then Busy
    else Sent
  }

  function Sending(a: Accounts, user: UserId, newEmail: Email, f: NewIds, now: int): Accounts {
    a.(challenges := a.challenges[f.currentHash := Challenge(user, Current, f.id, now + TTL, false)]
                                 [f.newHash := Challenge(user, New, f.id, now + TTL, false)],
       requests := a.requests[f.id := Request(user, newEmail, f.currentHash, f.newHash, false, false, Pending)],
       pending := a.pending[user := f.id])
  }

  predicate Live(a: Accounts, hash: string, purpose: Purpose, now: int) {
    hash in a.challenges && a.challenges[hash].purpose == purpose && !a.challenges[hash].consumed && a.challenges[hash].expiresAt > now
  }

  function HashOf(r: Request, purpose: Purpose): string {
    if purpose.Current? then r.currentHash else r.newHash
  }

  function ConfirmedOf(r: Request, purpose: Purpose): bool {
    if purpose.Current? then r.currentConfirmed else r.newConfirmed
  }

  function MarkConfirmed(r: Request, purpose: Purpose): Request {
    if purpose.Current? then r.(currentConfirmed := true) else r.(newConfirmed := true)
  }

  /** The checks between consuming the token and marking the request. */
  predicate Accepts(a: Accounts, hash: string, purpose: Purpose, actor: Option<UserId>, now: int) {
    Live(a, hash, purpose, now) &&
    var id := a.challenges[hash].request;
    && id in a.requests && HashOf(a.requests[id], purpose) == hash && a.requests[id].status.Pending?
    && (actor.Some? ==> actor.value == a.requests[id].user)
    && a.challenges[hash].user == a.requests[id].user
    && !ConfirmedOf(a.requests[id], purpose)
  }

  datatype ConfirmOutcome = Invalid | Partial | Collision | Complete

  function Confirming(a: Accounts, hash: string, purpose: Purpose, actor: Option<UserId>, now: int): ConfirmOutcome {
    if !Accepts(a, hash, purpose, actor, now) then Invalid
    else
      var r := MarkConfirmed(a.requests[a.challenges[hash].request], purpose);
      if !(r.currentConfirmed && r.newConfirmed) then Partial
      else if r.user !in a.users || (r.newEmail in a.byEmail && a.byEmail[r.newEmail] != r.user) then Collision
      else Complete
  }

  function Consume(a: Accounts, hash: string): map<string, Challenge>
    requires hash in a.challenges
  {
    a.challenges[hash := a.challenges[hash].(consumed := true)]
  }

  function InvalidateFor(challenges: map<string, Challenge>, user: UserId): map<string, Challenge> {
    map h | h in challenges :: if challenges[h].user == user then challenges[h].(consumed := true) else challenges[h]
  }

  function RevokeFor(sessions: map<SessionId, Session>, user: UserId): map<SessionId, Session> {
    map s | s in sessions :: if sessions[s].user == user then sessions[s].(revoked := true) else sessions[s]
  }

  /** A collision rolls the whole transaction back, the token's use and the cancellation with it. */
  function Confirmed(a: Accounts, hash: string, purpose: Purpose, actor: Option<UserId>, now: int): Accounts {
    match Confirming(a, hash, purpose, actor, now)
    case Invalid => a
    case Collision => a
    case Partial =>
      var id := a.challenges[hash].request;
      a.(challenges := Consume(a, hash), requests := a.requests[id := MarkConfirmed(a.requests[id], purpose)])
    case Complete =>
      var id := a.challenges[hash].request;
      Finished(a.(challenges := Consume(a, hash)), id, MarkConfirmed(a.requests[id], purpose))
  }

  /** The address moves, the sessions are revoked, the tokens used up and the request ended. */
  function Finished(a: Accounts, id: RequestId, r: Request): Accounts
    requires r.user in a.users
  {
    Accounts(a.users[r.user := r.newEmail], (a.byEmail - {a.users[r.user]})[r.newEmail := r.user],
             RevokeFor(a.sessions, r.user), InvalidateFor(a.challenges, r.user),
             a.requests[id := r.(status := Completed)], a.pending - {r.user})
  }

  function Apply(a: Accounts, s: Step): Accounts {
    match s
    case Register(user, email) =>
      if user in a.users || email in a.byEmail then a
      else a.(users := a.users[user := email], byEmail := a.byEmail[email := user])
    case LogIn(session, user) =>
      if session in a.sessions || user !in a.users then a else a.(sessions := a.sessions[session := Session(user, false)])
    case RequestChange(user, newEmail, ids, othersPending, now) =>
      if IsFresh(a, ids) && Requesting(a, user, newEmail, othersPending).Sent? then Sending(a, user, newEmail, ids, now) else a
    case Confirm(hash, purpose, actor, now) => Confirmed(a, hash, purpose, actor, now)
  }

  function Run(a: Accounts, steps: seq<Step>): Accounts
    decreases |steps|
  {
    if steps == [] then a else Run(Apply(a, steps[0]), steps[1..])
  }

  // ---------------------------------------------------------------------------
  // What every run keeps
  // ---------------------------------------------------------------------------

  ghost predicate EmailsOk(a: Accounts) {
    && (forall u :: u in a.users ==> a.users[u] in a.byEmail && a.byEmail[a.users[u]] == u)
    && (forall e :: e in a.byEmail ==> a.byEmail[e] in a.users && a.users[a.byEmail[e]] == e)
  }

  ghost predicate PendingOk(a: Accounts) {
    && (forall id :: id in a.requests && a.requests[id].status.Pending? ==>
          a.requests[id].user in a.pending && a.pending[a.requests[id].user] == id)
    && (forall u :: u in a.pending ==> a.pending[u] in a.requests && a.requests[a.pending[u]].user == u && a.requests[a.pending[u]].status.Pending?)
  }

  predicate Bound(a: Accounts, id: RequestId, r: Request, purpose: Purpose) {
    var h := HashOf(r, purpose);
    && h in a.challenges && a.challenges[h].purpose == purpose && a.challenges[h].request == id && a.challenges[h].user == r.user
    && (r.status.Pending? ==> (a.challenges[h].consumed <==> ConfirmedOf(r, purpose)))
  }

  /** A request owns its two challenges, and while it is pending a proof is in exactly when its token is used
      and its user has another address than the one it names. */
  ghost predicate RequestOk(a: Accounts, id: RequestId)
    requires id in a.requests
  {
    var r := a.requests[id];
    && Bound(a, id, r, Current) && Bound(a, id, r, New) && r.user in a.users
    && (r.status.Completed? <==> r.currentConfirmed && r.newConfirmed)
    && (r.status.Pending? ==> a.users[r.user] != r.newEmail)
  }

  ghost predicate RequestsOk(a: Accounts) {
    forall id :: id in a.requests ==> RequestOk(a, id)
  }

  ghost predicate AccountsOk(a: Accounts) {
    EmailsOk(a) && PendingOk(a) && RequestsOk(a)
  }

  lemma SendingKeepsAccounts(a: Accounts, user: UserId, newEmail: Email, f: NewIds, now: int)
    requires AccountsOk(a) && user in a.users && user !in a.pending && IsFresh(a, f) && newEmail != a.users[user]
    ensures AccountsOk(Sending(a, user, newEmail, f, now))
  {
    var e := Sending(a, user, newEmail, f, now);
    forall id | id in e.requests
      ensures RequestOk(e, id)
    {
      if id in a.requests {
        assert RequestOk(a, id);
      }
    }
  }

  lemma ConfirmKeepsEmails(a: Accounts, hash: string, purpose: Purpose, actor: Option<UserId>, now: int)
    requires EmailsOk(a)
    ensures EmailsOk(Confirmed(a, hash, purpose, actor, now))
  {
    hide Accepts, InvalidateFor, RevokeFor;
  }

  lemma ConfirmKeepsPending(a: Accounts, hash: string, purpose: Purpose, actor: Option<UserId>, now: int)
    requires PendingOk(a)
    ensures PendingOk(Confirmed(a, hash, purpose, actor, now))
  {
    hide InvalidateFor, RevokeFor, Consume;
  }

  lemma ConfirmKeepsRequest(a: Accounts, hash: string, purpose: Purpose, actor: Option<UserId>, now: int, id: RequestId)
    requires PendingOk(a) && RequestsOk(a) && id in a.requests
    ensures id in Confirmed(a, hash, purpose, actor, now).requests && RequestOk(Confirmed(a, hash, purpose, actor, now), id)
  {
    assert RequestOk(a, id);
    ConfirmedIs(a, hash, purpose, actor, now);
    hide RevokeFor, Confirmed, Confirming;
  }

  lemma StepKeepsAccounts(a: Accounts, s: Step)
    requires AccountsOk(a)
    ensures AccountsOk(Apply(a, s))
  {
    hide AccountsOk, IsFresh, Requesting, Sending, Confirmed;
    match s
    case Register(user, email) =>
      if user !in a.users && email !in a.byEmail {
        RegisterKeepsAccounts(a, user, email);
      }
    case LogIn(session, user) => LogInKeepsAccounts(a, session, user);
    case RequestChange(user, newEmail, ids, othersPending, now) => RequestKeepsAccounts(a, s);
    case Confirm(hash, purpose, actor, now) => ConfirmKeepsAccounts(a, hash, purpose, actor, now);
  }

  lemma RegisterKeepsAccounts(a: Accounts, user: UserId, email: Email)
    requires AccountsOk(a) && user !in a.users && email !in a.byEmail
    ensures AccountsOk(a.(users := a.users[user := email], byEmail := a.byEmail[email := user]))
  {
    assert forall id :: id in a.requests ==> RequestOk(a, id);
  }

  lemma LogInKeepsAccounts(a: Accounts, session: SessionId, user: UserId)
    requires AccountsOk(a)
    ensures AccountsOk(a.(sessions := a.sessions[session := Session(user, false)]))
  {
    assert forall id :: id in a.requests ==> RequestOk(a, id);
  }

  lemma RequestKeepsAccounts(a: Accounts, s: Step)
    requires AccountsOk(a) && s.RequestChange?
    ensures AccountsOk(Apply(a, s))
  {
    if IsFresh(a, s.ids) && Requesting(a, s.user, s.newEmail, s.othersPending).Sent? {
      SendingKeepsAccounts(a, s.user, s.newEmail, s.ids, s.now);
    }
    hide AccountsOk, Sending;
  }

  lemma ConfirmKeepsAccounts(a: Accounts, hash: string, purpose: Purpose, actor: Option<UserId>, now: int)
    requires AccountsOk(a)
    ensures AccountsOk(Confirmed(a, hash, purpose, actor, now))
  {
    ConfirmKeepsEmails(a, hash, purpose, actor, now);
    ConfirmKeepsPending(a, hash, purpose, actor, now);
    ConfirmAddsNoRequest(a, hash, purpose, actor, now);
    hide Confirmed, RequestOk;
    forall id | id in a.requests
      ensures id in Confirmed(a, hash, purpose, actor, now).requests && RequestOk(Confirmed(a, hash, purpose, actor, now), id)
    {
      ConfirmKeepsRequest(a, hash, purpose, actor, now, id);
    }
  }

  lemma ConfirmAddsNoRequest(a: Accounts, hash: string, purpose: Purpose, actor: Option<UserId>, now: int)
    ensures Confirmed(a, hash, purpose, actor, now).requests.Keys == a.requests.Keys
  {
  }

  lemma {:induction false} RunKeepsAccounts(a: Accounts, steps: seq<Step>)
    requires AccountsOk(a)
    ensures AccountsOk(Run(a, steps))
    decreases |steps|
  {
    if steps != [] {
      StepKeepsAccounts(a, steps[0]);
      RunKeepsAccounts(Apply(a, steps[0]), steps[1..]);
    }
  }

  /** No two users ever share an address, and a user has one pending request at most. */
  lemma EveryRunKeepsAddressesApart(steps: seq<Step>)
    ensures var a := Run(EMPTY, steps);
      && (forall u, v :: u in a.users && v in a.users && u != v ==> a.users[u] != a.users[v])
      && (forall i, j :: i in a.requests && j in a.requests && i != j && a.requests[i].user == a.requests[j].user
            ==> a.requests[i].status.Completed? || a.requests[j].status.Completed?)
  {
    RunKeepsAccounts(EMPTY, steps);
  }

  // ---------------------------------------------------------------------------
  // Both proofs
  // ---------------------------------------------------------------------------

  function Other(p: Purpose): Purpose {
    if p.Current? then New else Current
  }

  /** The confirmation finds its token unused and unexpired. */
  predicate Uses(a: Accounts, s: Step, hash: string, purpose: Purpose) {
    s.Confirm? && s.hash == hash && s.purpose == purpose && Live(a, hash, purpose, s.now)
  }

  lemma LastProofsMoveAddresses(a: Accounts, s: Step, u: UserId)
    requires AccountsOk(a) && u in a.users
    requires u in Apply(a, s).users ==> Apply(a, s).users[u] != a.users[u]
    ensures u in Apply(a, s).users && u in a.pending && a.pending[u] in a.requests && a.pending[u] in Apply(a, s).requests
    ensures var e := Apply(a, s); var id := a.pending[u];
      && s.Confirm? && Uses(a, s, HashOf(a.requests[id], s.purpose), s.purpose) && ConfirmedOf(a.requests[id], Other(s.purpose))
      && e.users[u] == a.requests[id].newEmail && e.requests[id].status.Completed? && u !in e.pending
      && (forall x :: x in e.sessions && e.sessions[x].user == u ==> e.sessions[x].revoked)
      && (forall h :: h in e.challenges && e.challenges[h].user == u ==> e.challenges[h].consumed)
      && (forall v :: v in a.users && v != u ==> v in e.users && e.users[v] == a.users[v])
  {
    assert forall id :: id in a.requests ==> RequestOk(a, id);
  }

  lemma EmptyIsOk()
    ensures AccountsOk(EMPTY)
  {
  }

  /** After any run, an address changes only by a confirmation that uses one token of the pending request of
      that user, after an earlier confirmation used the other one; it becomes the address that request named,
      every session of the user is revoked and every token used up, and no other address moves. */
  lemma AddressesChangeByBothProofs(steps: seq<Step>, s: Step, u: UserId)
    requires u in Run(EMPTY, steps).users
    requires var e := Apply(Run(EMPTY, steps), s); u in e.users ==> e.users[u] != Run(EMPTY, steps).users[u]
    ensures var a := Run(EMPTY, steps); var e := Apply(a, s);
      && u in e.users && u in a.pending && a.pending[u] in a.requests && a.pending[u] in e.requests
      && (var id := a.pending[u];
          && s.Confirm? && Uses(a, s, HashOf(a.requests[id], s.purpose), s.purpose)
          && (exists k :: 0 <= k < |steps| && Uses(Run(EMPTY, steps[..k]), steps[k], HashOf(a.requests[id], Other(s.purpose)), Other(s.purpose)))
          && e.users[u] == a.requests[id].newEmail && e.requests[id].status.Completed? && u !in e.pending)
      && (forall x :: x in e.sessions && e.sessions[x].user == u ==> e.sessions[x].revoked)
      && (forall h :: h in e.challenges && e.challenges[h].user == u ==> e.challenges[h].consumed)
      && (forall v :: v in a.users && v != u ==> v in e.users && e.users[v] == a.users[v])
  {
    hide Run, Apply, AccountsOk, Uses;
    assert AccountsOk(EMPTY) by {
      EmptyIsOk();
    }
    RunKeepsAccounts(EMPTY, steps);
    LastProofsMoveAddresses(Run(EMPTY, steps), s, u);
    ProofsComeFromTokens(steps, Run(EMPTY, steps).pending[u], Other(s.purpose));
  }

  /** In any run, a proof that is in came from a confirmation that used that very token. */
  lemma {:induction false} ProofsComeFromTokens(steps: seq<Step>, id: RequestId, purpose: Purpose)
    requires id in Run(EMPTY, steps).requests && ConfirmedOf(Run(EMPTY, steps).requests[id], purpose)
    ensures exists k :: 0 <= k < |steps| && Uses(Run(EMPTY, steps[..k]), steps[k], HashOf(Run(EMPTY, steps).requests[id], purpose), purpose)
    decreases |steps|
  {
    if steps != [] {
      var n := |steps| - 1;
      var front := steps[..n];
      LastStep(EMPTY, steps);
      var a := Run(EMPTY, front);
      RunKeepsAccounts(EMPTY, front);
      if id in a.requests && ConfirmedOf(a.requests[id], purpose) {
        ProofsComeFromTokens(front, id, purpose);
        var k :| 0 <= k < |front| && Uses(Run(EMPTY, front[..k]), front[k], HashOf(a.requests[id], purpose), purpose);
        StepKeepsHashes(a, steps[n], id);
        assert steps[k] == front[k] && steps[..k] == front[..k];
      } else {
        NewProofIsAConfirmation(a, steps[n], id, purpose);
        assert Uses(Run(EMPTY, steps[..n]), steps[n], HashOf(Run(EMPTY, steps).requests[id], purpose), purpose);
      }
      hide Run, Apply, Uses, AccountsOk;
    }
  }

  lemma {:induction false} LastStep(a: Accounts, steps: seq<Step>)
    requires steps != []
    ensures Run(a, steps) == Apply(Run(a, steps[..|steps| - 1]), steps[|steps| - 1])
    decreases |steps|
  {
    if |steps| > 1 {
      LastStep(Apply(a, steps[0]), steps[1..]);
      assert steps[1..][..|steps| - 2] == steps[..|steps| - 1][1..];
    } else {
      assert steps[..0] == [] && steps[1..] == [];
    }
  }

  lemma StepKeepsHashes(a: Accounts, s: Step, id: RequestId)
    requires id in a.requests
    ensures id in Apply(a, s).requests
    ensures HashOf(Apply(a, s).requests[id], Current) == HashOf(a.requests[id], Current)
    ensures HashOf(Apply(a, s).requests[id], New) == HashOf(a.requests[id], New)
  {
  }

  lemma NewProofIsAConfirmation(a: Accounts, s: Step, id: RequestId, purpose: Purpose)
    requires id in Apply(a, s).requests && ConfirmedOf(Apply(a, s).requests[id], purpose)
    requires id in a.requests ==> !ConfirmedOf(a.requests[id], purpose)
    ensures Uses(a, s, HashOf(Apply(a, s).requests[id], purpose), purpose)
  {
  }

  /** The change done: both proofs in, the address moved, sessions revoked, tokens used up. */
  function Done(a: Accounts, id: RequestId): Accounts
    requires id in a.requests && a.requests[id].user in a.users
  {
    Finished(a, id, a.requests[id].(currentConfirmed := true, newConfirmed := true))
  }

  /** A pending request with both tokens still good until some time, and its address still free. */
  predicate Ready(a: Accounts, id: RequestId, until: int) {
    && id in a.requests && a.requests[id].status.Pending? && !a.requests[id].currentConfirmed && !a.requests[id].newConfirmed
    && a.requests[id].user in a.users && a.requests[id].newEmail !in a.byEmail
    && a.requests[id].currentHash in a.challenges && a.challenges[a.requests[id].currentHash].expiresAt > until
    && a.requests[id].newHash in a.challenges && a.challenges[a.requests[id].newHash].expiresAt > until
  }

  lemma TwoSteps(a: Accounts, s: Step, t: Step)
    ensures Run(a, [s, t]) == Apply(Apply(a, s), t)
  {
    hide Apply;
    assert [s, t][1..] == [t] && [t][1..] == [];
    assert Run(Apply(a, s), [t]) == Run(Apply(Apply(a, s), t), []);
  }

  /** Either proof may come first: the change ends the same. */
  lemma ProofsCommute(a: Accounts, id: RequestId, now: int, later: int)
    requires AccountsOk(a) && Ready(a, id, later) && now <= later
    ensures var r := a.requests[id];
      && Run(a, [Confirm(r.currentHash, Current, None, now), Confirm(r.newHash, New, None, later)]) == Done(a, id)
      && Run(a, [Confirm(r.newHash, New, None, now), Confirm(r.currentHash, Current, None, later)]) == Done(a, id)
  {
    var r := a.requests[id];
    hide Apply, Done;
    PartialThenComplete(a, id, Current, now, later);
    PartialThenComplete(a, id, New, now, later);
    TwoSteps(a, Confirm(r.currentHash, Current, None, now), Confirm(r.newHash, New, None, later));
    TwoSteps(a, Confirm(r.newHash, New, None, now), Confirm(r.currentHash, Current, None, later));
  }

  /** One proof in, the other still to come. */
  function Half(a: Accounts, id: RequestId, first: Purpose): Accounts
    requires id in a.requests && HashOf(a.requests[id], first) in a.challenges
  {
    a.(challenges := Consume(a, HashOf(a.requests[id], first)), requests := a.requests[id := MarkConfirmed(a.requests[id], first)])
  }

  lemma FirstProofIsPartial(a: Accounts, id: RequestId, first: Purpose, now: int)
    requires AccountsOk(a) && Ready(a, id, now)
    ensures Apply(a, Confirm(HashOf(a.requests[id], first), first, None, now)) == Half(a, id, first)
  {
    assert RequestOk(a, id);
    hide InvalidateFor, RevokeFor;
  }

  lemma SecondProofCompletes(a: Accounts, id: RequestId, first: Purpose, later: int)
    requires AccountsOk(a) && Ready(a, id, later)
    ensures Apply(Half(a, id, first), Confirm(HashOf(a.requests[id], Other(first)), Other(first), None, later)) == Done(a, id)
  {
    var r := a.requests[id];
    var b := Half(a, id, first);
    HalfInvalidates(a, id, first);
    var done := r.(currentConfirmed := true, newConfirmed := true, status := Completed);
    assert b.requests[id := done] == a.requests[id := done];
    hide InvalidateFor, RevokeFor;
    assert RequestOk(a, id);
    ConfirmedIs(b, HashOf(r, Other(first)), Other(first), None, later);
    hide Confirmed, Confirming;
  }

  lemma HalfInvalidates(a: Accounts, id: RequestId, first: Purpose)
    requires AccountsOk(a) && id in a.requests
    ensures var r := a.requests[id];
            && r.user in a.users && r.currentHash in a.challenges && r.newHash in a.challenges
            && InvalidateFor(Consume(Half(a, id, first), HashOf(r, Other(first))), r.user) == InvalidateFor(a.challenges, r.user)
  {
    assert RequestOk(a, id);
  }

  lemma PartialThenComplete(a: Accounts, id: RequestId, first: Purpose, now: int, later: int)
    requires AccountsOk(a) && Ready(a, id, later) && now <= later
    ensures var r := a.requests[id];
            Apply(Apply(a, Confirm(HashOf(r, first), first, None, now)), Confirm(HashOf(r, Other(first)), Other(first), None, later))
            == Done(a, id)
  {
    FirstProofIsPartial(a, id, first, now);
    SecondProofCompletes(a, id, first, later);
    hide Apply, Done, AccountsOk;
  }

  // ---------------------------------------------------------------------------
  // The service on the tables
  // ---------------------------------------------------------------------------

  class AccountService {
    var users: map<UserId, Email>
    var byEmail: map<Email, UserId>
    var sessions: map<SessionId, Session>
    var challenges: map<string, Challenge>
    var requests: map<RequestId, Request>
    var pending: map<UserId, RequestId>

    ghost function View(): Accounts
      reads this
    {
      Accounts(users, byEmail, sessions, challenges, requests, pending)
    }

    ghost predicate Valid()
      reads this
    {
      AccountsOk(View())
    }

    constructor ()
      ensures View() == EMPTY && Valid()
    {
      users, byEmail, sessions, challenges, requests, pending := map[], map[], map[], map[], map[], map[];
    }

    method RequestEmailChange(user: UserId, newEmail: Email, ids: NewIds, othersPending: bool, now: int) returns (o: RequestOutcome)
      requires Valid() && IsFresh(View(), ids)
      modifies this
      ensures Valid() && View() == Apply(old(View()), RequestChange(user, newEmail, ids, othersPending, now))
      ensures o == Requesting(old(View()), user, newEmail, othersPending)
    {
      StepKeepsAccounts(View(), RequestChange(user, newEmail, ids, othersPending, now));
      hide AccountsOk;
      if newEmail == "" {
        return NothingToDo;
      }
      if user !in users {
        return NoUser;
      }
      if newEmail == users[user] {
        return SameAddress;
      }
      if newEmail in byEmail || othersPending {
        return InUse;
      }
      if user in pending {
        return Busy;
      }
      challenges := challenges[ids.currentHash := Challenge(user, Current, ids.id, now + TTL, false)];
      challenges := challenges[ids.newHash := Challenge(user, New, ids.id, now + TTL, false)];
      requests := requests[ids.id := Request(user, newEmail, ids.currentHash, ids.newHash, false, false, Pending)];
      pending := pending[user := ids.id];
      return Sent;
    }

    /** Both proofs are in: move the address, end the request, the tokens and the sessions. */
    method FinishChange(id: RequestId, req: Request)
      requires id in requests && req.user in users
      modifies this
      ensures View() == Finished(old(View()), id, req)
    {
      byEmail := (byEmail - {users[req.user]})[req.newEmail := req.user];
      users := users[req.user := req.newEmail];
      requests := requests[id := req.(status := Completed)];
      pending := pending - {req.user};
      challenges := InvalidateFor(challenges, req.user);
      sessions := RevokeFor(sessions, req.user);
    }

    /** Use the token up and find the pending request it confirms; a refusal undoes the use. */
    method TakeProof(hash: string, purpose: Purpose, actor: Option<UserId>, now: int) returns (id: Option<RequestId>)
      modifies this`challenges
      ensures id.Some? <==> Accepts(old(View()), hash, purpose, actor, now)
      ensures id.Some? ==> hash in old(challenges) && id.value == old(challenges)[hash].request && challenges == Consume(old(View()), hash)
      ensures id.None? ==> challenges == old(challenges)
    {
      hide HashOf, ConfirmedOf;
      if hash !in challenges || challenges[hash].purpose != purpose || challenges[hash].consumed || challenges[hash].expiresAt <= now {
        return None;
      }
      var before, ch := challenges, challenges[hash];
      challenges := challenges[hash := ch.(consumed := true)];
      if ch.request !in requests {
        challenges := before;
        return None;
      }
      var req := requests[ch.request];
      if HashOf(req, purpose) != hash || !req.status.Pending? || (actor.Some? && actor.value != req.user)
         || ch.user != req.user || ConfirmedOf(req, purpose) {
        challenges := before;
        return None;
      }
      return Some(ch.request);
    }

    /** The token is consumed first; any later refusal undoes that with the transaction. */
    method ConfirmEmailChangeProof(hash: string, purpose: Purpose, actor: Option<UserId>, now: int) returns (o: ConfirmOutcome)
      requires Valid()
      modifies this
      ensures Valid() && View() == Apply(old(View()), Confirm(hash, purpose, actor, now))
      ensures o == Confirming(old(View()), hash, purpose, actor, now)
      ensures o.Invalid? || o.Collision? ==> View() == old(View())
    {
      ghost var a := View();
      hide Live, HashOf, ConfirmedOf;
      StepKeepsAccounts(a, Confirm(hash, purpose, actor, now));
      ConfirmedIs(a, hash, purpose, actor, now);
      hide AccountsOk, InvalidateFor, RevokeFor, MarkConfirmed, Accepts, Confirmed, Confirming, Consume, Finished;
      var before, rowsBefore := challenges, requests;
      var taken := TakeProof(hash, purpose, actor, now);
      if taken.None? {
        return Invalid;
      }
      var id := taken.value;
      var req := MarkConfirmed(requests[id], purpose);
      requests := requests[id := req];
      if !req.currentConfirmed || !req.newConfirmed {
        return Partial;
      }
      if req.user !in users || (req.newEmail in byEmail && byEmail[req.newEmail] != req.user) {
        challenges, requests := before, rowsBefore;
        return Collision;
      }
      FinishedOverMarked(a.(challenges := Consume(a, hash)), id, req);
      FinishChange(id, req);
      return Complete;
    }
  }

  /** The branches of a confirmation, in the order the transaction tries them. */
  lemma ConfirmedIs(a: Accounts, hash: string, purpose: Purpose, actor: Option<UserId>, now: int)
    ensures var o := Confirming(a, hash, purpose, actor, now); var e := Confirmed(a, hash, purpose, actor, now);
      && (!Accepts(a, hash, purpose, actor, now) ==> o.Invalid? && e == a)
      && (Accepts(a, hash, purpose, actor, now) ==>
            hash in a.challenges && a.challenges[hash].request in a.requests &&
            var id := a.challenges[hash].request;
            var r := MarkConfirmed(a.requests[id], purpose);
            if !r.currentConfirmed || !r.newConfirmed then
              o.Partial? && e == a.(challenges := Consume(a, hash), requests := a.requests[id := r])
            else if r.user !in a.users || (r.newEmail in a.byEmail && a.byEmail[r.newEmail] != r.user) then
              o.Collision? && e == a
            else
              o.Complete? && e == Finished(a.(challenges := Consume(a, hash)), id, r))
  {
    hide Finished, Consume;
  }

  lemma FinishedOverMarked(a: Accounts, id: RequestId, r: Request)
    requires r.user in a.users
    ensures Finished(a.(requests := a.requests[id := r]), id, r) == Finished(a, id, r)
  {
    assert a.requests[id := r][id := r.(status := Completed)] == a.requests[id := r.(status := Completed)];
    hide InvalidateFor, RevokeFor;
  }
}
