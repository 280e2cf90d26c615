/**
 What a provider event makes of the tables: which intent it names, what its checks
 find, and what it leaves in the row, the event, the settlements and the messages.
 */
module CallbackOutcomes {
  import opened Options
  import opened Holds
  import opened PaymentCase
  import opened PaymentBook
  import opened PaymentRuns
  import opened CallOutcomes

  // ---------------------------------------------------------------------------
  // Which intent an event names
  // ---------------------------------------------------------------------------

  /** Only the create call of the insert writes a reference, and only once. */
  predicate ActivatesOnce(c: Case) {
    forall id :: id in c.calls && c.calls[id].kind.CreateCall? ==> id == 0 && c.providerRef.None?
  }

  ghost predicate RefIndexed(b: Book) {
    && (forall k :: k in b.byRef ==> b.byRef[k] in b.cases && b.cases[b.byRef[k]].providerRef == Some(k.ref) && RefMatches(b.cases[b.byRef[k]].terms, k))
    && (forall i :: i in b.cases && b.cases[i].providerRef.Some? ==> RefIndexedAt(b, i))
    && (forall i :: i in b.cases ==> ActivatesOnce(b.cases[i]))
  }

  ghost predicate RefIndexedAt(b: Book, i: IntentId)
    requires i in b.cases && b.cases[i].providerRef.Some?
  {
    var t := b.cases[i].terms;
    var k := RefKey(t.provider, t.scope, t.mode, b.cases[i].providerRef.value);
    k in b.byRef && b.byRef[k] == i
  }

  ghost predicate ExtIndexed(b: Book) {
    forall i :: i in b.cases ==> ExtIndexedAt(b, i)
  }

  ghost predicate ExtIndexedAt(b: Book, i: IntentId)
    requires i in b.cases
  {
    var k := ExtKey(b.cases[i].terms.mode, b.cases[i].terms.externalId);
    k in b.byExt && b.byExt[k] == i
  }

  /** What a move makes of the reference: the activation sets it, nothing else does. */
  lemma MoveSetsReference(c: Case, m: CaseMove)
    requires ActivatesOnce(c)
    ensures var d := Move(c, m);
      && ActivatesOnce(d) && d.terms == c.terms
      && d.providerRef == (if ActivationKey(c, m).Some? then Some(ActivationKey(c, m).value.ref) else c.providerRef)
      && (ActivationKey(c, m).Some? ==> c.providerRef.None?)
  {
    hide Conclude, Writes, WritesOf, DoWrite, ApplyCallback;
    match m
    case Callback(kind) => CallbackKeepsReference(c, kind);
    case Proceed(id) => ProceedSetsReference(c, id);
    case RunEffect(e) => EffectLeavesCalls(c, e);
    case Begin(id, op) => assert op.CreateCall? ==> !MayBegin(c, op);
    case _ =>
  }

  lemma CallbackKeepsReference(c: Case, kind: Normalized)
    ensures var d := ApplyCallback(c, kind); d.providerRef == c.providerRef && d.calls == c.calls && d.terms == c.terms
  {
  }

  lemma ProceedSetsReference(c: Case, id: nat)
    requires ActivatesOnce(c)
    ensures var d := Move(c, Proceed(id)); var key := ActivationKey(c, Proceed(id));
      && ActivatesOnce(d) && d.terms == c.terms
      && d.providerRef == (if key.Some? then Some(key.value.ref) else c.providerRef) && (key.Some? ==> c.providerRef.None?)
  {
    hide Conclude, Writes, WritesOf, DoWrite, ProceedCall, ActivatesOnce;
    ProceedWrites(c, id);
    if ActivationKey(c, Proceed(id)).Some? {
      ActivationEndsTheCall(c.calls[id]);
      CreateHasNoReference(c, id);
    } else {
      CallsOfTheSameKind(c, Move(c, Proceed(id)));
    }
  }

  predicate AboutToActivate(c: Case, id: nat) {
    && Answered(c, id) && c.calls[id].done < |WritesOf(c.calls[id])|
    && WritesOf(c.calls[id])[c.calls[id].done].SetActive?
  }

  /** The reference, terms and calls after one turn of a call. */
  lemma ProceedWrites(c: Case, id: nat)
    ensures var d := Move(c, Proceed(id)); var key := ActivationKey(c, Proceed(id));
      && d.terms == c.terms && d.providerRef == (if key.Some? then Some(key.value.ref) else c.providerRef)
      && (forall x :: x in d.calls ==> x in c.calls && d.calls[x].kind == c.calls[x].kind)
      && (key.Some? ==> AboutToActivate(c, id) && (c.calls[id].done + 1 == |WritesOf(c.calls[id])| ==> d.calls == c.calls - {id}))
  {
    hide Conclude, Writes, WritesOf, DoWrite;
    if NextWrite(c, id).Some? {
      WriteSetsReference(c, NextWrite(c, id).value);
      WriteLeavesCalls(c, NextWrite(c, id).value, c.calls);
    }
  }

  lemma CreateHasNoReference(c: Case, id: nat)
    requires ActivatesOnce(c) && id in c.calls && c.calls[id].kind.CreateCall?
    ensures c.providerRef.None? && forall d: Case :: d.calls == c.calls - {id} ==> ActivatesOnce(d)
  {
  }

  lemma CallsOfTheSameKind(c: Case, d: Case)
    requires ActivatesOnce(c) && d.providerRef == c.providerRef
    requires forall id :: id in d.calls ==> id in c.calls && d.calls[id].kind == c.calls[id].kind
    ensures ActivatesOnce(d)
  {
  }

  lemma WriteSetsReference(c: Case, w: Write)
    ensures DoWrite(c, w).providerRef == (if w.SetActive? then Some(w.ref) else c.providerRef) && DoWrite(c, w).terms == c.terms
  {
  }

  lemma ActivationEndsTheCall(k: Call)
    requires k.answer.Some? && k.done < |WritesOf(k)| && WritesOf(k)[k.done].SetActive?
    ensures k.kind.CreateCall? && |WritesOf(k)| == 1 && k.done == 0
  {
  }

  lemma CaseUpdateKeepsIndexes(b: Book, e: Book, i: IntentId, d: Case)
    requires RefIndexed(b) && ExtIndexed(b) && i in b.cases && e.cases == b.cases[i := d]
    requires e.byRef == b.byRef && e.byExt == b.byExt
    requires d.terms == b.cases[i].terms && d.providerRef == b.cases[i].providerRef && ActivatesOnce(d)
    ensures RefIndexed(e) && ExtIndexed(e)
  {
    CaseUpdateKeepsReferences(b, e, i, d);
    hide ActivatesOnce, RefIndexed;
    forall j | j in e.cases
      ensures ExtIndexedAt(e, j)
    {
      assert ExtIndexedAt(b, j);
    }
  }

  lemma CaseUpdateKeepsReferences(b: Book, e: Book, i: IntentId, d: Case)
    requires RefIndexed(b) && i in b.cases && e.cases == b.cases[i := d] && e.byRef == b.byRef
    requires d.terms == b.cases[i].terms && d.providerRef == b.cases[i].providerRef && ActivatesOnce(d)
    ensures RefIndexed(e)
  {
    hide ActivatesOnce;
    forall j | j in e.cases && e.cases[j].providerRef.Some?
      ensures RefIndexedAt(e, j)
    {
      assert RefIndexedAt(b, j);
    }
  }

  lemma PlaceKeepsIndexes(b: Book, s: Step)
    requires RefIndexed(b) && ExtIndexed(b) && MayPlace(b, s)
    ensures RefIndexed(Apply(b, s)) && ExtIndexed(Apply(b, s))
  {
    var e := Apply(b, s);
    var c := e.cases[s.intent];
    assert c.providerRef.None? && c.terms == s.terms && ActivatesOnce(c);
    hide ActivatesOnce, NewCase, Priced;
    forall j | j in e.cases && e.cases[j].providerRef.Some?
      ensures RefIndexedAt(e, j)
    {
      assert j != s.intent && RefIndexedAt(b, j);
    }
    forall j | j in e.cases
      ensures ExtIndexedAt(e, j)
    {
      assert j != s.intent ==> ExtIndexedAt(b, j);
    }
  }

  lemma ProcessKeepsIndexes(b: Book, key: EventKey)
    requires BookOk(b) && RefIndexed(b) && ExtIndexed(b)
    ensures RefIndexed(ProcessEvent(b, key)) && ExtIndexed(ProcessEvent(b, key))
  {
    ProcessWritesNoIndex(b, key);
    hide ProcessEvent, BookOk, Check, Resolve, Move, ActivatesOnce, ActivationKey;
    if key in b.events {
      ProcessMovesOneCase(b, key);
      var ev, e := b.events[key], ProcessEvent(b, key);
      if ev.state.Processed? {
        MovedByEvent(b, e, ev.intent.value, Redelivered);
      } else if Check(b, key, ev.body).None? {
        MovedByEvent(b, e, Resolve(b, key, ev.body).intent, Callback(ev.body.kind.value));
      } else {
        SameCasesKeepIndexes(b, e);
      }
    } else {
      SameCasesKeepIndexes(b, ProcessEvent(b, key));
    }
  }

  lemma SameCasesKeepIndexes(b: Book, e: Book)
    requires RefIndexed(b) && ExtIndexed(b) && e.cases == b.cases && e.byRef == b.byRef && e.byExt == b.byExt
    ensures RefIndexed(e) && ExtIndexed(e)
  {
    hide ActivatesOnce;
    assert forall j :: j in e.cases && e.cases[j].providerRef.Some? ==> (RefIndexedAt(e, j) <==> RefIndexedAt(b, j));
    assert forall j :: j in e.cases ==> (ExtIndexedAt(e, j) <==> ExtIndexedAt(b, j));
  }

  lemma MovedByEvent(b: Book, e: Book, i: IntentId, m: CaseMove)
    requires RefIndexed(b) && ExtIndexed(b) && i in b.cases && (m.Callback? || m.Redelivered?)
    requires e.cases == b.cases[i := Move(b.cases[i], m)] && e.byRef == b.byRef && e.byExt == b.byExt
    ensures RefIndexed(e) && ExtIndexed(e)
  {
    MoveSetsReference(b.cases[i], m);
    hide Move, ActivatesOnce;
    CaseUpdateKeepsIndexes(b, e, i, Move(b.cases[i], m));
  }

  lemma ProcessWritesNoIndex(b: Book, key: EventKey)
    ensures ProcessEvent(b, key).byRef == b.byRef && ProcessEvent(b, key).byExt == b.byExt
    ensures key !in b.events ==> ProcessEvent(b, key) == b
  {
    hide Resolve, Check, Move, NamedIntent, RaisedAlert;
  }

  lemma ActKeepsIndexes(b: Book, i: IntentId, m: CaseMove)
    requires RefIndexed(b) && ExtIndexed(b) && i in b.cases && !m.Callback? && !m.Redelivered?
    ensures RefIndexed(ActOn(b, i, m)) && ExtIndexed(ActOn(b, i, m))
  {
    hide Move, ActivatesOnce, ActivationKey;
    var c := b.cases[i];
    var rk := ActivationKey(c, m);
    var e := ActOn(b, i, m);
    MoveSetsReference(c, m);
    ActivationNamesTheRow(c, m);
    if rk.None? {
      CaseUpdateKeepsIndexes(b, e, i, Move(c, m));
    } else if rk.value in b.byRef {
      assert b.byRef[rk.value] != i;
      OnlyProceedsActivate(c, m);
      MoveSetsReference(c, Crash(m.call));
      CaseUpdateKeepsIndexes(b, e, i, Move(c, Crash(m.call)));
    } else {
      ActivationKeepsIndexes(b, e, i, Move(c, m), rk.value);
    }
  }

  lemma OnlyProceedsActivate(c: Case, m: CaseMove)
    ensures ActivationKey(c, m).Some? ==> m.Proceed? && ActivationKey(c, Crash(m.call)).None?
  {
  }

  lemma ActivationNamesTheRow(c: Case, m: CaseMove)
    ensures ActivationKey(c, m).Some? ==> RefMatches(c.terms, ActivationKey(c, m).value)
  {
  }

  lemma ActivationKeepsIndexes(b: Book, e: Book, i: IntentId, d: Case, k: RefKey)
    requires RefIndexed(b) && ExtIndexed(b) && i in b.cases && k !in b.byRef
    requires e.cases == b.cases[i := d] && e.byRef == b.byRef[k := i] && e.byExt == b.byExt
    requires d.terms == b.cases[i].terms && b.cases[i].providerRef.None? && d.providerRef == Some(k.ref) && ActivatesOnce(d)
    requires RefMatches(d.terms, k)
    ensures RefIndexed(e) && ExtIndexed(e)
  {
    hide ActivatesOnce;
    forall j | j in e.cases && e.cases[j].providerRef.Some?
      ensures RefIndexedAt(e, j)
    {
      assert j != i ==> RefIndexedAt(b, j);
    }
    forall j | j in e.cases
      ensures ExtIndexedAt(e, j)
    {
      assert ExtIndexedAt(b, j);
    }
  }

  lemma StepKeepsIndexes(b: Book, s: Step)
    requires BookOk(b) && RefIndexed(b) && ExtIndexed(b)
    ensures RefIndexed(Apply(b, s)) && ExtIndexed(Apply(b, s))
  {
    hide BookOk, RefIndexed, ExtIndexed, ProcessEvent, ActOn;
    match s
    case Place(i, terms, order, coupon, stock) =>
      if MayPlace(b, s) {
        PlaceKeepsIndexes(b, s);
      }
    case Process(key) => ProcessKeepsIndexes(b, key);
    case Act(i, m) =>
      if i in b.cases && !m.Callback? && !m.Redelivered? {
        ActKeepsIndexes(b, i, m);
      }
    case _ => SameCasesKeepIndexes(b, Apply(b, s));
  }

  lemma {:induction false} RunKeepsIndexes(b: Book, steps: seq<Step>)
    requires BookOk(b) && RefIndexed(b) && ExtIndexed(b)
    ensures RefIndexed(Run(b, steps)) && ExtIndexed(Run(b, steps))
    decreases |steps|
  {
    if steps != [] {
      StepKeepsBook(b, steps[0]);
      StepKeepsIndexes(b, steps[0]);
      hide Apply, BookOk, RefIndexed, ExtIndexed;
      RunKeepsIndexes(Apply(b, steps[0]), steps[1..]);
    }
  }

  // ---------------------------------------------------------------------------
  // Whom an event names, and what its checks find
  // ---------------------------------------------------------------------------

  /** The event carries the provider's reference of this intent, at its own endpoint. */
  predicate NamedByReference(b: Book, key: EventKey, body: Body, i: IntentId) {
    && i in b.cases && body.ref != "" && b.cases[i].providerRef == Some(body.ref)
    && b.cases[i].terms.provider == key.provider && b.cases[i].terms.scope == key.scope && b.cases[i].terms.mode == key.mode
  }

  /** The event carries the external id of this intent, which is unique in its mode. */
  predicate NamedById(b: Book, key: EventKey, body: Body, i: IntentId) {
    i in b.cases && body.externalId != "" && b.cases[i].terms.externalId == body.externalId && b.cases[i].terms.mode == key.mode
  }

  predicate SameAccount(t: Terms, key: EventKey) {
    t.provider == key.provider && t.scope == key.scope
  }

  ghost predicate Unreferenced(b: Book, key: EventKey, body: Body) {
    forall j :: !NamedByReference(b, key, body, j)
  }

  /** An event is for the intent with its reference at its own endpoint; only when there is none, for the intent with its
      external id, if that belongs to the account of the event, and otherwise it is ambiguous. */
  lemma ResolvesExactly(steps: seq<Step>, key: EventKey, body: Body, i: IntentId)
    ensures var b := Run(EMPTY, steps); var r := Resolve(b, key, body);
      && (r == Found(i) <==>
            || NamedByReference(b, key, body, i)
            || (Unreferenced(b, key, body) && NamedById(b, key, body, i) && SameAccount(b.cases[i].terms, key)))
      && (NamedById(b, key, body, i) ==> (r.Ambiguous? <==> Unreferenced(b, key, body) && !SameAccount(b.cases[i].terms, key)))
      && (r.Missing? <==> Unreferenced(b, key, body) && forall j :: !NamedById(b, key, body, j))
      && (r.Ambiguous? ==> exists j :: NamedById(b, key, body, j))
  {
    hide Run;
    ReachedIsIndexed(steps);
    ResolvesIn(Run(EMPTY, steps), key, body, i);
  }

  lemma ReachedIsIndexed(steps: seq<Step>)
    ensures BookOk(Run(EMPTY, steps)) && RefIndexed(Run(EMPTY, steps)) && ExtIndexed(Run(EMPTY, steps))
  {
    assert BookOk(EMPTY) && RefIndexed(EMPTY) && ExtIndexed(EMPTY);
    hide BookOk, RefIndexed, ExtIndexed;
    RunKeepsBook(EMPTY, steps);
    RunKeepsIndexes(EMPTY, steps);
  }

  lemma ResolvesIn(b: Book, key: EventKey, body: Body, i: IntentId)
    requires BookOk(b) && RefIndexed(b) && ExtIndexed(b)
    ensures var r := Resolve(b, key, body);
      && (r == Found(i) <==>
            || NamedByReference(b, key, body, i)
            || (Unreferenced(b, key, body) && NamedById(b, key, body, i) && SameAccount(b.cases[i].terms, key)))
      && (NamedById(b, key, body, i) ==> (r.Ambiguous? <==> Unreferenced(b, key, body) && !SameAccount(b.cases[i].terms, key)))
      && (r.Missing? <==> Unreferenced(b, key, body) && forall j :: !NamedById(b, key, body, j))
      && (r.Ambiguous? ==> exists j :: NamedById(b, key, body, j))
  {
    hide BookOk, RefIndexed, ExtIndexed, NamedByReference, NamedById;
    var rk := RefKey(key.provider, key.scope, key.mode, body.ref);
    var ek := ExtKey(key.mode, body.externalId);
    forall j
      ensures NamedByReference(b, key, body, j) <==> body.ref != "" && rk in b.byRef && b.byRef[rk] == j
    {
      ReferenceIsIndexed(b, key, body, j);
    }
    forall j
      ensures NamedById(b, key, body, j) <==> body.externalId != "" && ek in b.byExt && b.byExt[ek] == j
    {
      IdIsIndexed(b, key, body, j);
    }
    if ek in b.byExt {
      IndexedIdIsStored(b, ek);
    }
    if body.externalId != "" && ek in b.byExt {
      assert NamedById(b, key, body, b.byExt[ek]);
    }
    if body.ref != "" && rk in b.byRef {
      assert NamedByReference(b, key, body, b.byRef[rk]);
    }
  }

  lemma IndexedIdIsStored(b: Book, ek: ExtKey)
    requires BookOk(b) && ek in b.byExt
    ensures b.byExt[ek] in b.cases && b.cases[b.byExt[ek]].terms.mode == ek.mode
  {
  }

  lemma ReferenceIsIndexed(b: Book, key: EventKey, body: Body, j: IntentId)
    requires RefIndexed(b)
    ensures var rk := RefKey(key.provider, key.scope, key.mode, body.ref);
            NamedByReference(b, key, body, j) <==> body.ref != "" && rk in b.byRef && b.byRef[rk] == j
  {
    if NamedByReference(b, key, body, j) {
      assert RefIndexedAt(b, j);
    }
    hide ActivatesOnce;
  }

  lemma IdIsIndexed(b: Book, key: EventKey, body: Body, j: IntentId)
    requires BookOk(b) && ExtIndexed(b)
    ensures var ek := ExtKey(key.mode, body.externalId);
            NamedById(b, key, body, j) <==> body.externalId != "" && ek in b.byExt && b.byExt[ek] == j
  {
    if NamedById(b, key, body, j) {
      assert ExtIndexedAt(b, j);
    }
    hide CasesOk, SettlementsOk, OutboxOk, JournalsOk, EventsOk, SettledExactlyWhenPaid;
  }

  /** The intent an event is for. */
  ghost predicate IsFor(b: Book, key: EventKey, body: Body, i: IntentId) {
    || NamedByReference(b, key, body, i)
    || (Unreferenced(b, key, body) && NamedById(b, key, body, i) && SameAccount(b.cases[i].terms, key))
  }

  predicate WrongPrice(t: Terms, body: Body) {
    body.amount > 0 && body.amount != t.amount
  }

  predicate OtherCurrency(t: Terms, body: Body) {
    body.currency != "" && body.currency != t.currency
  }

  /** The five reasons to quarantine an event, each exactly when it is given: no envelope, no intent, an intent of another
      account, another amount, another currency. */
  lemma ChecksExactly(steps: seq<Step>, key: EventKey, body: Body, i: IntentId)
    ensures var b := Run(EMPTY, steps); var why := Check(b, key, body); var read := body.kind.Some?;
      && (why == Some(Unparsed) <==> !read)
      && (why == Some(NoPayment) <==> read && Unreferenced(b, key, body) && forall j :: !NamedById(b, key, body, j))
      && (NamedById(b, key, body, i) ==>
            (why == Some(AmbiguousPayment) <==> read && Unreferenced(b, key, body) && !SameAccount(b.cases[i].terms, key)))
      && (IsFor(b, key, body, i) ==>
            && (why == Some(WrongAmount) <==> read && WrongPrice(b.cases[i].terms, body))
            && (why == Some(WrongCurrency) <==> read && !WrongPrice(b.cases[i].terms, body) && OtherCurrency(b.cases[i].terms, body))
            && (why == None <==> read && !WrongPrice(b.cases[i].terms, body) && !OtherCurrency(b.cases[i].terms, body)))
  {
    hide Run;
    ReachedIsIndexed(steps);
    ChecksIn(Run(EMPTY, steps), key, body, i);
  }

  lemma ChecksIn(b: Book, key: EventKey, body: Body, i: IntentId)
    requires BookOk(b) && RefIndexed(b) && ExtIndexed(b)
    ensures var why := Check(b, key, body); var read := body.kind.Some?;
      && (why == Some(Unparsed) <==> !read)
      && (why == Some(NoPayment) <==> read && Unreferenced(b, key, body) && forall j :: !NamedById(b, key, body, j))
      && (NamedById(b, key, body, i) ==>
            (why == Some(AmbiguousPayment) <==> read && Unreferenced(b, key, body) && !SameAccount(b.cases[i].terms, key)))
      && (IsFor(b, key, body, i) ==>
            && (why == Some(WrongAmount) <==> read && WrongPrice(b.cases[i].terms, body))
            && (why == Some(WrongCurrency) <==> read && !WrongPrice(b.cases[i].terms, body) && OtherCurrency(b.cases[i].terms, body))
            && (why == None <==> read && !WrongPrice(b.cases[i].terms, body) && !OtherCurrency(b.cases[i].terms, body)))
  {
    ResolvesIn(b, key, body, i);
    if Resolve(b, key, body).Found? {
      CheckedEventFits(b, key, body);
    }
    NamedAreStored(b, key, body, i);
    hide BookOk, RefIndexed, ExtIndexed, NamedByReference, NamedById, Unreferenced, Resolve, SameAccount;
  }

  lemma NamedAreStored(b: Book, key: EventKey, body: Body, i: IntentId)
    ensures NamedByReference(b, key, body, i) || NamedById(b, key, body, i) ==> i in b.cases
  {
  }

  // ---------------------------------------------------------------------------
  // What an event leaves
  // ---------------------------------------------------------------------------

  predicate IsOver(s: Status) {
    s == Status.Failed || s == Expired || s == Cancelled
  }

  function OrderEnd(to: Status): OrderPayment {
    if to == Expired then OrderExpired else if to == Cancelled then OrderCancelled else OrderFailed
  }

  /** The row but for what an event may write. */
  predicate SameButEvent(c: Case, d: Case) {
    && d.terms == c.terms && d.providerRef == c.providerRef && d.granted == c.granted && d.calls == c.calls
    && d.order.gross == c.order.gross && d.order.fee == c.order.fee && d.order.net == c.order.net
    && d.past.paidAnswer == c.past.paidAnswer && d.past.rejected == c.past.rejected
  }

  /** Nothing moves a PAID row: a paid event repeats its evidence, a reversal holds its money, and its effects become due. */
  predicate OnPaid(c: Case, kind: Normalized, d: Case) {
    && SameButEvent(c, d) && HoldsKept(c, d) && d.status == Paid && d.unknownOp == c.unknownOp && d.paidLate == c.paidLate
    && d.order == c.order && d.effectsDue && d.past.closed == c.past.closed
    && (d.reversalHeld <==> c.reversalHeld || kind == ReversalEvent)
    && (d.past.paidCallback <==> c.past.paidCallback || kind == PaidEvent)
  }

  /** A row that is not PAID is paid by a paid event, late if it had ended; an open one is ended by a closing event, which
      frees its holds and leaves a paid order row; no other event changes anything. */
  predicate OnUnpaid(c: Case, kind: Normalized, d: Case) {
    if kind == PaidEvent then
      && SameButEvent(c, d) && HoldsKept(c, d) && d.status == Paid && d.unknownOp == None && (d.paidLate <==> IsOver(c.status))
      && d.order.payment == OrderPaid && d.effectsDue && d.reversalHeld == c.reversalHeld && d.past.paidCallback
      && d.past.closed == c.past.closed
    else if kind.ClosedEvent? && IsOver(kind.to) && !IsOver(c.status) then
      && SameButEvent(c, d) && HoldsFreed(c, d) && d.status == kind.to && d.unknownOp == c.unknownOp && d.paidLate == c.paidLate
      && d.order.payment == (if c.order.payment == OrderPaid then OrderPaid else OrderEnd(kind.to))
      && d.effectsDue == c.effectsDue && d.reversalHeld == c.reversalHeld && d.past.paidCallback == c.past.paidCallback
      && d.past.closed
    else d == c
  }

  lemma CallbackLeaves(c: Case, kind: Normalized)
    ensures if c.status == Paid then OnPaid(c, kind, Move(c, Callback(kind))) else OnUnpaid(c, kind, Move(c, Callback(kind)))
  {
    if c.status == Paid {
      PaidRowsStay(c, kind);
      hide OnPaid, Move;
    } else if kind.ClosedEvent? {
      ClosingLeaves(c, kind);
      hide OnUnpaid, Move;
    } else {
      PayingLeaves(c, kind);
      hide OnUnpaid, Move;
    }
  }

  lemma PaidRowsStay(c: Case, kind: Normalized)
    requires c.status == Paid
    ensures OnPaid(c, kind, Move(c, Callback(kind)))
  {
  }

  lemma ClosingLeaves(c: Case, kind: Normalized)
    requires c.status != Paid && kind.ClosedEvent?
    ensures OnUnpaid(c, kind, Move(c, Callback(kind)))
  {
    hide HoldsFreed, MapCoupon, MapStock;
    var d := Move(c, Callback(kind));
    if IsOver(kind.to) && !IsOver(c.status) {
      FreedAs(c, d);
    }
  }

  lemma PayingLeaves(c: Case, kind: Normalized)
    requires c.status != Paid && !kind.ClosedEvent?
    ensures OnUnpaid(c, kind, Move(c, Callback(kind)))
  {
  }

  /** The settlement and its two messages come with the first paid event of an intent: at the price of the order row, under
      the journal reference of the intent, late if the intent had ended, and naming the event. */
  ghost predicate SettlesOnce(b: Book, e: Book, key: EventKey, i: IntentId, kind: Normalized)
    requires i in b.cases
  {
    var c := b.cases[i];
    if kind == PaidEvent && !Settled(b.settlements, i) then
      && e.settlements == b.settlements + [Settlement(i, "PAYMENT_CAPTURE:" + i, c.order.gross, c.order.fee, c.order.net, IsOver(c.status), key)]
      && e.outbox == b.outbox + [Fulfil(i), Notify(i)]
    else e.settlements == b.settlements && e.outbox == b.outbox
  }

  /** A stored event that was not processed yet: quarantined with its reason, changing no other row, or processed for the
      intent it is for, changing that row, its event row, the settlements and the messages alone. */
  lemma EventsEndExactly(b: Book, key: EventKey)
    requires BookOk(b) && key in b.events && !b.events[key].state.Processed?
    ensures var ev := b.events[key]; var why := Check(b, key, ev.body); var r := Resolve(b, key, ev.body); var e := Apply(b, Process(key));
      && key in e.events && e.events == b.events[key := e.events[key]] && e.events[key].body == ev.body
      && e.byRef == b.byRef && e.byExt == b.byExt && e.journals == b.journals
      && (why.Some? ==>
            && e.events[key].state == Quarantined && e.events[key].mismatch == why
            && e.events[key].intent == (if (why == Some(WrongAmount) || why == Some(WrongCurrency)) && r.Found? then Some(r.intent) else ev.intent)
            && e.cases == b.cases && e.settlements == b.settlements && e.outbox == b.outbox)
      && (why.None? ==>
            && r.Found? && r.intent in b.cases && r.intent in e.cases && e.cases == b.cases[r.intent := e.cases[r.intent]]
            && e.events[key].state == Processed && e.events[key].mismatch == None && e.events[key].intent == Some(r.intent)
            && SettlesOnce(b, e, key, r.intent, ev.body.kind.value))
      && (why.None? && b.cases[r.intent].status == Paid ==> OnPaid(b.cases[r.intent], ev.body.kind.value, e.cases[r.intent]))
      && (why.None? && b.cases[r.intent].status != Paid ==> OnUnpaid(b.cases[r.intent], ev.body.kind.value, e.cases[r.intent]))
  {
    var ev := b.events[key];
    var e := Apply(b, Process(key));
    ProcessWritesNoIndex(b, key);
    if Check(b, key, ev.body).Some? {
      QuarantinesAs(b, key);
    } else {
      var i := Resolve(b, key, ev.body).intent;
      AppliesAs(b, key, i);
      CallbackLeaves(b.cases[i], ev.body.kind.value);
    }
    hide BookOk, Check, Resolve, ProcessEvent, Move, OnPaid, OnUnpaid, SettlesOnce;
  }

  lemma QuarantinesAs(b: Book, key: EventKey)
    requires key in b.events && !b.events[key].state.Processed? && Check(b, key, b.events[key].body).Some?
    ensures var ev := b.events[key]; var why := Check(b, key, ev.body); var r := Resolve(b, key, ev.body); var e := ProcessEvent(b, key);
      && key in e.events && e.events == b.events[key := e.events[key]] && e.events[key].body == ev.body
      && e.events[key].state == Quarantined && e.events[key].mismatch == why
      && e.events[key].intent == (if (why == Some(WrongAmount) || why == Some(WrongCurrency)) && r.Found? then Some(r.intent) else ev.intent)
      && e.cases == b.cases && e.settlements == b.settlements && e.outbox == b.outbox && e.journals == b.journals
  {
    hide Check, Resolve;
  }

  lemma AppliesAs(b: Book, key: EventKey, i: IntentId)
    requires BookOk(b) && key in b.events && !b.events[key].state.Processed? && Check(b, key, b.events[key].body).None?
    requires Resolve(b, key, b.events[key].body) == Found(i)
    ensures var ev := b.events[key]; var e := ProcessEvent(b, key);
      && i in b.cases && i in e.cases && e.cases == b.cases[i := Move(b.cases[i], Callback(ev.body.kind.value))]
      && key in e.events && e.events == b.events[key := e.events[key]] && e.events[key].body == ev.body
      && e.events[key].state == Processed && e.events[key].mismatch == None && e.events[key].intent == Some(i)
      && e.journals == b.journals && SettlesOnce(b, e, key, i, ev.body.kind.value)
  {
    assert ProcessEvent(b, key) == ApplyEvent(b, key, i, b.events[key].body.kind.value);
    var kind := b.events[key].body.kind.value;
    AppliedEventMovesOneCase(b, key, i, kind);
    SettlesAs(b, key, i);
    hide BookOk, Check, Resolve, ProcessEvent, Move, SettlementFor, RaisedAlert, AddSettlement, QueuePaid, Settled;
  }

  lemma SettlesAs(b: Book, key: EventKey, i: IntentId)
    requires BookOk(b) && i in b.cases
    ensures var c := b.cases[i]; var row := SettlementFor(i, c, UnpaidTerminal(c.status), key);
      && (Settled(b.settlements, i) ==> AddSettlement(b.settlements, row) == b.settlements && QueuePaid(b.settlements, b.outbox, row) == b.outbox)
      && (!Settled(b.settlements, i) ==>
            && AddSettlement(b.settlements, row)
               == b.settlements + [Settlement(i, "PAYMENT_CAPTURE:" + i, c.order.gross, c.order.fee, c.order.net, IsOver(c.status), key)]
            && QueuePaid(b.settlements, b.outbox, row) == b.outbox + [Fulfil(i), Notify(i)])
  {
    ReferenceMeansSettled(b, i);
    assert CaseOk(b.cases[i]);
    UnsettledIsUnannounced(b, i);
    hide BookOk, SafeCase, Settled, ReferenceTaken;
  }

  lemma UnsettledIsUnannounced(b: Book, i: IntentId)
    requires BookOk(b)
    ensures !Settled(b.settlements, i) ==> Fulfil(i) !in b.outbox && Notify(i) !in b.outbox
  {
  }

  // ---------------------------------------------------------------------------
  // Reversals over whole runs
  // ---------------------------------------------------------------------------

  predicate HeldIn(b: Book, i: IntentId) {
    i in b.cases && b.cases[i].reversalHeld
  }

  /** The step processes a stored, not yet processed reversal that passes its checks, for this intent, and finds it PAID. */
  predicate Reverses(b: Book, s: Step, i: IntentId) {
    && s.Process? && s.key in b.events && !b.events[s.key].state.Processed? && b.events[s.key].body.kind == Some(ReversalEvent)
    && Check(b, s.key, b.events[s.key].body).None? && Resolve(b, s.key, b.events[s.key].body) == Found(i)
    && i in b.cases && b.cases[i].status == Paid
  }

  function Reversing(i: IntentId): (Book, Step) -> bool {
    (b: Book, s: Step) => Reverses(b, s, i)
  }

  lemma ProcessHoldsExactly(b: Book, key: EventKey, i: IntentId)
    requires BookOk(b)
    ensures HeldIn(ProcessEvent(b, key), i) <==> HeldIn(b, i) || Reverses(b, Process(key), i)
  {
    hide Move, BookOk, ProcessEvent, Resolve, Check;
    ProcessWritesNoIndex(b, key);
    if key in b.events {
      ProcessMovesOneCase(b, key);
      if i in b.cases {
        FlagsMoveExactly(b.cases[i], Redelivered);
        if b.events[key].body.kind.Some? {
          FlagsMoveExactly(b.cases[i], Callback(b.events[key].body.kind.value));
        }
      }
    }
  }

  lemma ActHoldsNothing(b: Book, j: IntentId, m: CaseMove, i: IntentId)
    requires j in b.cases && !m.Callback?
    ensures HeldIn(ActOn(b, j, m), i) <==> HeldIn(b, i)
  {
    hide Move, ActivationKey;
    FlagsMoveExactly(b.cases[j], m);
    if m.Proceed? {
      FlagsMoveExactly(b.cases[j], Crash(m.call));
    }
    ActMovesOneCase(b, j, m);
  }

  lemma ActMovesOneCase(b: Book, j: IntentId, m: CaseMove)
    requires j in b.cases
    ensures ActOn(b, j, m).cases == b.cases[j := Move(b.cases[j], m)]
            || (m.Proceed? && ActOn(b, j, m).cases == b.cases[j := Move(b.cases[j], Crash(m.call))])
  {
    hide Move, NextWrite;
  }

  lemma StepHoldsExactly(b: Book, s: Step, i: IntentId)
    requires BookOk(b)
    ensures HeldIn(Apply(b, s), i) <==> HeldIn(b, i) || Reverses(b, s, i)
  {
    hide BookOk, ProcessEvent, ActOn, Check, Resolve;
    match s
    case Process(key) => ProcessHoldsExactly(b, key, i);
    case Act(j, m) =>
      if j in b.cases && !m.Callback? && !m.Redelivered? {
        ActHoldsNothing(b, j, m, i);
      }
    case _ =>
  }

  /** After any run the money of an intent is held exactly when some step processed a reversal of it and found it PAID. */
  lemma {:induction false} HeldExactlyByReversals(steps: seq<Step>, i: IntentId)
    ensures HeldIn(Run(EMPTY, steps), i) <==> Sometime(steps, Reversing(i))
    decreases |steps|
  {
    if steps == [] {
      assert Run(EMPTY, steps) == EMPTY;
    } else {
      var last := |steps| - 1;
      var before := steps[..last];
      RunKeepsBook(EMPTY, before);
      LastStep(EMPTY, steps);
      StepHoldsExactly(Run(EMPTY, before), steps[last], i);
      HeldExactlyByReversals(before, i);
      SometimeGrows(steps, Reversing(i));
      hide Run, Apply, BookOk, Reverses, HeldIn, Sometime;
    }
  }

  // ---------------------------------------------------------------------------
  // Stored intents, stored events and posted captures
  // ---------------------------------------------------------------------------

  /** An intent is stored exactly when its id is new, no intent of its mode has its external id, its price adds up and a
      gateway payment holds nothing; its create call is then under way. */
  lemma PlacedExactly(steps: seq<Step>, s: Step)
    requires s.Place? && s.intent !in Run(EMPTY, steps).cases
    ensures var b := Run(EMPTY, steps); var e := Apply(b, s); var o := s.order; var t := s.terms;
      && (s.intent in e.cases <==>
            && (forall j :: j in b.cases ==> b.cases[j].terms.mode != t.mode || b.cases[j].terms.externalId != t.externalId)
            && o.gross == t.amount && o.gross == o.fee + o.net && 0 <= o.fee && 0 < o.net
            && (t.source == QrisApi ==> !s.coupon && !s.stock))
      && (s.intent !in e.cases ==> e == b)
      && (s.intent in e.cases ==>
            && e.cases == b.cases[s.intent := PlacedCase(s).(calls := map[0 := Call(CreateCall, RequiresPayment, None, None, 0)])]
            && e.byRef == b.byRef && e.byExt == b.byExt[ExtKey(t.mode, t.externalId) := s.intent]
            && e.events == b.events && e.settlements == b.settlements && e.journals == b.journals && e.outbox == b.outbox)
  {
    hide Run;
    ReachedIsIndexed(steps);
    var b := Run(EMPTY, steps);
    IdsAreIndexed(b, s.terms);
    PlacedIsNew(s);
    hide BookOk, RefIndexed, ExtIndexed;
  }

  lemma IdsAreIndexed(b: Book, t: Terms)
    requires BookOk(b) && ExtIndexed(b)
    ensures ExtKey(t.mode, t.externalId) !in b.byExt <==>
              forall j :: j in b.cases ==> b.cases[j].terms.mode != t.mode || b.cases[j].terms.externalId != t.externalId
  {
    assert forall j :: j in b.cases ==> ExtIndexedAt(b, j);
    hide CasesOk, SettlementsOk, OutboxOk, JournalsOk, EventsOk, SettledExactlyWhenPaid;
  }

  predicate Accepts(s: Step, key: EventKey) {
    s.Accept? && s.key == key
  }

  predicate FirstAccept(steps: seq<Step>, key: EventKey, n: int) {
    0 <= n < |steps| && Accepts(steps[n], key) && forall m :: 0 <= m < n ==> !Accepts(steps[m], key)
  }

  lemma StepStoresExactly(b: Book, s: Step, key: EventKey)
    ensures var e := Apply(b, s);
      && (key in e.events <==> key in b.events || Accepts(s, key))
      && (key in b.events ==> e.events[key].body == b.events[key].body)
      && (key !in b.events && Accepts(s, key) ==> e.events[key] == Event(s.body, Accepted, None, None, None))
  {
    hide MayPlace, ActOn, PostJournal;
    match s
    case Process(k) => ProcessKeepsEvents(b, k, key);
    case Act(i, m) =>
      if i in b.cases {
        ActWritesNoEvent(b, i, m);
      }
    case _ =>
  }

  lemma ActWritesNoEvent(b: Book, i: IntentId, m: CaseMove)
    requires i in b.cases
    ensures ActOn(b, i, m).events == b.events
  {
    hide Move, ActivationKey;
  }

  lemma ProcessKeepsEvents(b: Book, k: EventKey, key: EventKey)
    ensures var e := ProcessEvent(b, k);
            (key in e.events <==> key in b.events) && (key in b.events ==> e.events[key].body == b.events[key].body)
  {
    hide Resolve, NamedIntent, Move, Check, SettlementFor, RaisedAlert;
  }

  /** A delivery is stored once: after any run an event is there exactly when some step delivered it, with the body of the
      first delivery. */
  lemma {:induction false} EventsAreFirstDeliveries(steps: seq<Step>, key: EventKey)
    ensures key in Run(EMPTY, steps).events <==> exists n :: 0 <= n < |steps| && Accepts(steps[n], key)
    ensures forall n :: FirstAccept(steps, key, n) ==>
              key in Run(EMPTY, steps).events && Run(EMPTY, steps).events[key].body == steps[n].body
    decreases |steps|
  {
    if steps == [] {
      assert Run(EMPTY, steps) == EMPTY;
    } else {
      var last := |steps| - 1;
      var before := steps[..last];
      LastStep(EMPTY, steps);
      StepStoresExactly(Run(EMPTY, before), steps[last], key);
      EventsAreFirstDeliveries(before, key);
      hide Run, Apply;
      assert forall n :: 0 <= n < last ==> before[n] == steps[n];
      if exists n :: 0 <= n < |before| && Accepts(before[n], key) {
        var n :| 0 <= n < |before| && Accepts(before[n], key);
        assert Accepts(steps[n], key);
      }
      forall n | FirstAccept(steps, key, n)
        ensures key in Run(EMPTY, steps).events && Run(EMPTY, steps).events[key].body == steps[n].body
      {
        if n < last {
          assert FirstAccept(before, key, n);
        } else {
          assert key !in Run(EMPTY, before).events;
        }
      }
    }
  }

  /** An administrator's replay puts a stored event back to ACCEPTED whatever became of it, with its body and intent, so that it
      is processed anew; no other row changes. */
  lemma ReplaysExactly(b: Book, key: EventKey)
    ensures var e := Apply(b, ResetForReplay(key));
      && (key !in b.events ==> e == b)
      && (key in b.events ==>
            e == b.(events := b.events[key := Event(b.events[key].body, Accepted, b.events[key].intent, None, None)]))
  {
  }

  lemma ReplayIsProcessing(b: Book, key: EventKey)
    requires BookOk(b) && key in b.events
    ensures var b1 := Apply(b, ResetForReplay(key)); var b2 := ProcessEvent(b1, key); var e := Run(b, Unfold(b, Replay(key, true)));
            && e == Run(b2, Effects(b1, key)) && e.events == b2.events && BookOk(b1) && BookOk(b2)
            && key in b1.events && !b1.events[key].state.Processed? && b1.events[key].body == b.events[key].body
            && key in b2.events && b2.events[key].body == b.events[key].body
  {
    var b1 := Apply(b, ResetForReplay(key));
    var b2 := Apply(b1, Process(key));
    var rest := Effects(b1, key);
    ReplaysExactly(b, key);
    ReplayUnfolds(b, key);
    assert ProcessEvent(b1, key) == b2;
    hide Apply, ProcessEvent, Run, FreshRun, BookOk, Effects, Unfold;
    StepKeepsBook(b, ResetForReplay(key));
    StepKeepsBook(b1, Process(key));
    ProcessKeepsBodies(b1, key);
    StepThenRun(b, ResetForReplay(key), [Process(key)] + rest);
    StepThenRun(b1, Process(key), rest);
    EffectsKeepEvents(b2, rest);
  }

  lemma ReplayUnfolds(b: Book, key: EventKey)
    ensures var rest := Effects(Apply(b, ResetForReplay(key)), key);
            && Unfold(b, Replay(key, true)) == [ResetForReplay(key)] + ([Process(key)] + rest)
            && forall k :: 0 <= k < |rest| ==> rest[k].PostLedger? || rest[k].Act?
  {
    hide PaidIntent, Apply;
  }

  /** In whatever state of the protocol, a stored paid event that is replayed and not quarantined leaves its intent paid, settled,
      posted and granted: a replay repairs what a redelivery does not. */
  lemma ReplayedPaidCallbackFulfils(b: Book, key: EventKey)
    requires BookOk(b) && key in b.events && b.events[key].body.kind == Some(PaidEvent)
    ensures var e := Run(b, Unfold(b, Replay(key, true)));
            && key in e.events && (e.events[key].state.Processed? || e.events[key].state.Quarantined?)
            && (e.events[key].state.Processed? ==> e.events[key].intent.Some? && Fulfilled(e, e.events[key].intent.value))
  {
    var b1 := Apply(b, ResetForReplay(key));
    var b2 := ProcessEvent(b1, key);
    ReplayIsProcessing(b, key);
    hide ProcessEvent, Run, FreshRun, Fulfilled, BookOk, Unfold, Effects, Check, Resolve, SettlesOnce, OnPaid, OnUnpaid;
    EventsEndExactly(b1, key);
    assert Apply(b1, Process(key)) == b2;
    hide Apply;
    if b2.events[key].state.Processed? {
      ProcessedPaidEventPays(b1, key);
      EffectsArePaid(b1, key);
      EffectsFulfil(b2, b2.events[key].intent.value);
    }
  }

  /** A capture is posted at the price of the order row, a fee of 700 or more with 700 of it as its fixed part, and only
      once: later posts change nothing. */
  lemma PostsExactly(b: Book, i: IntentId)
    requires BookOk(b)
    ensures var e := Apply(b, PostLedger(i));
      && e == b.(journals := e.journals)
      && (i in b.cases && b.cases[i].effectsDue && !Journaled(b.journals, i) ==>
            var o := b.cases[i].order; var fixed := if o.fee >= 700 then 700 else 0;
            e.journals == b.journals + [Journal(i, "PAYMENT_CAPTURE:" + i, o.gross, o.fee - fixed, fixed, o.net)])
      && (!(i in b.cases && b.cases[i].effectsDue) || Journaled(b.journals, i) ==> e == b)
  {
    if i in b.cases && b.cases[i].effectsDue {
      assert CaseOk(b.cases[i]);
      JournaledByReference(b, i);
      hide BookOk, SafeCase, Journaled;
    }
  }

  lemma JournaledByReference(b: Book, i: IntentId)
    requires BookOk(b)
    ensures Journaled(b.journals, i) <==> exists r :: r in b.journals && r.reference == PaidReference(i)
  {
    forall r | r in b.journals && r.reference == PaidReference(i)
      ensures r.intent == i
    {
      assert JournalRowOk(b, r);
      PaidReferenceIsInjective(r.intent, i);
    }
    assert forall r :: r in b.journals ==> JournalRowOk(b, r);
  }
}
