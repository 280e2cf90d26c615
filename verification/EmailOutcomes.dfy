/** What a change request and a confirmation answer and store, in terms of the rows they find. */
module EmailOutcomes {
  import opened Options
  import opened EmailChange

  predicate Has(a: Accounts, user: UserId, email: Email) {
    user in a.users && a.users[user] == email
  }

  ghost predicate Taken(a: Accounts, email: Email) {
    exists u :: Has(a, u, email)
  }

  predicate IsPending(a: Accounts, user: UserId, id: RequestId) {
    id in a.requests && a.requests[id].user == user && a.requests[id].status == Pending
  }

  ghost predicate Waiting(a: Accounts, user: UserId) {
    exists id :: IsPending(a, user, id)
  }

  lemma IndexesAgree(a: Accounts, user: UserId, email: Email)
    requires AccountsOk(a)
    ensures email in a.byEmail <==> Taken(a, email)
    ensures forall u :: email in a.byEmail && a.byEmail[email] == u <==> Has(a, u, email)
    ensures user in a.pending <==> Waiting(a, user)
  {
    if email in a.byEmail {
      assert Has(a, a.byEmail[email], email);
    }
    if user in a.pending {
      assert IsPending(a, user, a.pending[user]);
    }
    hide RequestsOk;
  }

  predicate NewHashes(a: Accounts, f: NewIds) {
    f.id !in a.requests && f.currentHash !in a.challenges && f.newHash !in a.challenges && f.currentHash != f.newHash
  }

  /** The six answers to a change request, each exactly when it is given. */
  lemma RequestAnswersExactly(a: Accounts, user: UserId, email: Email, others: bool)
    requires AccountsOk(a)
    ensures var o := Requesting(a, user, email, others); var known := email != "" && user in a.users;
      && (o.NothingToDo? <==> email == "")
      && (o.NoUser? <==> email != "" && user !in a.users)
      && (o.SameAddress? <==> known && a.users[user] == email)
      && (o.InUse? <==> known && a.users[user] != email && (others || Taken(a, email)))
      && (o.Busy? <==> known && !others && !Taken(a, email) && Waiting(a, user))
      && (o.Sent? <==> known && !others && !Taken(a, email) && !Waiting(a, user))
  {
    IndexesAgree(a, user, email);
    if user in a.users {
      assert a.users[user] == email ==> Has(a, user, email);
    }
    hide AccountsOk;
  }

  /** A request that is sent stores itself and one token for each address, both good for half an hour; any other changes nothing. */
  lemma RequestsExactly(a: Accounts, s: Step)
    requires AccountsOk(a) && s.RequestChange? && NewHashes(a, s.ids)
    ensures var e := Apply(a, s); var f := s.ids;
      if Requesting(a, s.user, s.newEmail, s.othersPending).Sent? then
        && e.requests == a.requests[f.id := Request(s.user, s.newEmail, f.currentHash, f.newHash, false, false, Pending)]
        && e.challenges == a.challenges[f.currentHash := Challenge(s.user, Current, f.id, s.now + 1800, false)]
                                       [f.newHash := Challenge(s.user, New, f.id, s.now + 1800, false)]
        && e.users == a.users && e.byEmail == a.byEmail && e.sessions == a.sessions
      else e == a
  {
    hide Requesting;
  }

  // ---------------------------------------------------------------------------
  // Confirmations
  // ---------------------------------------------------------------------------

  function SideHash(r: Request, side: Purpose): string {
    match side
    case Current => r.currentHash
    case New => r.newHash
  }

  predicate SideIn(r: Request, side: Purpose) {
    (side == Current && r.currentConfirmed) || (side == New && r.newConfirmed)
  }

  function Other(side: Purpose): Purpose {
    match side
    case Current => New
    case New => Current
  }

  /** The confirmation brings the unused and unexpired token of this side of this pending request, from its user if it says whom. */
  predicate Fits(a: Accounts, s: Step, id: RequestId) {
    && s.Confirm? && id in a.requests && a.requests[id].status == Pending && SideHash(a.requests[id], s.purpose) == s.hash
    && !SideIn(a.requests[id], s.purpose) && s.hash in a.challenges && !a.challenges[s.hash].consumed && s.now < a.challenges[s.hash].expiresAt
    && (s.actor.Some? ==> s.actor.value == a.requests[id].user)
  }

  /** Another user has the address by now. */
  predicate Contested(a: Accounts, r: Request) {
    exists u :: u in a.users && u != r.user && Has(a, u, r.newEmail)
  }

  lemma FittingIsAccepted(a: Accounts, s: Step, id: RequestId)
    requires AccountsOk(a) && s.Confirm?
    ensures Fits(a, s, id) ==> Accepts(a, s.hash, s.purpose, s.actor, s.now) && a.challenges[s.hash].request == id
    ensures Accepts(a, s.hash, s.purpose, s.actor, s.now) ==> Fits(a, s, a.challenges[s.hash].request)
  {
    if id in a.requests {
      assert RequestOk(a, id);
    }
    hide EmailsOk, PendingOk;
  }

  lemma ContestedIs(a: Accounts, id: RequestId)
    requires AccountsOk(a) && id in a.requests
    ensures var r := a.requests[id];
            && r.user in a.users && (Contested(a, r) <==> r.newEmail in a.byEmail && a.byEmail[r.newEmail] != r.user)
  {
    assert RequestOk(a, id);
    var r := a.requests[id];
    IndexesAgree(a, r.user, r.newEmail);
    if r.newEmail in a.byEmail {
      assert Has(a, a.byEmail[r.newEmail], r.newEmail);
    }
    hide AccountsOk, RequestOk;
  }

  /** The four answers to a confirmation, each exactly when it is given. */
  lemma ConfirmAnswersExactly(a: Accounts, s: Step)
    requires AccountsOk(a) && s.Confirm?
    ensures Confirming(a, s.hash, s.purpose, s.actor, s.now).Invalid? <==> forall id :: !Fits(a, s, id)
    ensures forall id :: Fits(a, s, id) ==>
      var o := Confirming(a, s.hash, s.purpose, s.actor, s.now); var r := a.requests[id];
      && (o.Partial? <==> !SideIn(r, Other(s.purpose)))
      && (o.Collision? <==> SideIn(r, Other(s.purpose)) && Contested(a, r))
      && (o.Complete? <==> SideIn(r, Other(s.purpose)) && !Contested(a, r))
  {
    forall id
      ensures Fits(a, s, id) ==> Accepts(a, s.hash, s.purpose, s.actor, s.now) && a.challenges[s.hash].request == id
      ensures id in a.requests ==> (a.requests[id].user in a.users
                && (Contested(a, a.requests[id]) <==> a.requests[id].newEmail in a.byEmail && a.byEmail[a.requests[id].newEmail] != a.requests[id].user))
    {
      FittingIsAccepted(a, s, id);
      if id in a.requests {
        ContestedIs(a, id);
      }
    }
    if Accepts(a, s.hash, s.purpose, s.actor, s.now) {
      FittingIsAccepted(a, s, a.challenges[s.hash].request);
    }
    hide AccountsOk, Contested;
  }

  function WithSide(r: Request, side: Purpose): Request {
    match side
    case Current => r.(currentConfirmed := true)
    case New => r.(newConfirmed := true)
  }

  /** The first proof uses its token and is noted. */
  predicate OnlyNoted(a: Accounts, e: Accounts, id: RequestId, hash: string, side: Purpose) {
    && id in a.requests && hash in a.challenges
    && e.requests == a.requests[id := WithSide(a.requests[id], side)]
    && e.challenges == a.challenges[hash := a.challenges[hash].(consumed := true)]
    && e.users == a.users && e.sessions == a.sessions
  }

  /** With the second proof the address moves, the request is completed, and every session and token of the user ends. */
  predicate Changed(a: Accounts, e: Accounts, id: RequestId) {
    && id in a.requests
    && (var r := a.requests[id];
        && e.users == a.users[r.user := r.newEmail]
        && e.requests == a.requests[id := r.(currentConfirmed := true, newConfirmed := true, status := Completed)]
        && e.sessions.Keys == a.sessions.Keys && e.challenges.Keys == a.challenges.Keys
        && (forall x :: x in a.sessions ==>
              e.sessions[x] == (if a.sessions[x].user == r.user then a.sessions[x].(revoked := true) else a.sessions[x]))
        && (forall h :: h in a.challenges ==>
              e.challenges[h] == (if a.challenges[h].user == r.user then a.challenges[h].(consumed := true) else a.challenges[h])))
  }

  lemma ConfirmsExactly(a: Accounts, s: Step, id: RequestId)
    requires AccountsOk(a) && Fits(a, s, id)
    ensures var e := Apply(a, s); var r := a.requests[id];
      && (!SideIn(r, Other(s.purpose)) ==> OnlyNoted(a, e, id, s.hash, s.purpose))
      && (SideIn(r, Other(s.purpose)) && Contested(a, r) ==> e == a)
      && (SideIn(r, Other(s.purpose)) && !Contested(a, r) ==> Changed(a, e, id))
  {
    hide AccountsOk, Contested, Accepts, Confirming, Fits, RequestOk, SideIn;
    FittingRequestIs(a, s, id);
    ConfirmAnswersExactly(a, s);
    FittingIsAccepted(a, s, id);
    OtherSideIn(a.requests[id], s.purpose);
  }

  lemma OtherSideIn(r: Request, side: Purpose)
    ensures SideIn(r, Other(side)) <==> ConfirmedOf(r, Other(side))
  {
  }

  lemma FittingRequestIs(a: Accounts, s: Step, id: RequestId)
    requires AccountsOk(a) && Fits(a, s, id)
    ensures s.Confirm? && id in a.requests && s.hash in a.challenges && a.requests[id].user in a.users
    ensures a.challenges[s.hash].user == a.requests[id].user && !SideIn(a.requests[id], s.purpose)
  {
    assert RequestOk(a, id);
    hide EmailsOk, PendingOk;
  }

  lemma OtherConfirmationsDoNothing(a: Accounts, s: Step)
    requires AccountsOk(a) && s.Confirm? && forall id :: !Fits(a, s, id)
    ensures Apply(a, s) == a
  {
    ConfirmAnswersExactly(a, s);
    hide AccountsOk, Fits, Confirming;
  }
}
