/**
 All intents together with the tables a payment writes: provider events, settlements,
 ledger journals and the outbox. Every step here is one store transaction, or one
 store call of a provider call; a run is any sequence of steps.
 */
module PaymentBook {
  import opened Options
  import opened PaymentCase

  type IntentId = string

  /** The unique key of a provider event row. */
  datatype EventKey = EventKey(provider: string, scope: string, mode: string, eventId: string)

  /** A parsed callback body; kind is None when the envelope does not parse. */
  datatype Body = Body(ref: string, externalId: string, amount: int, currency: string, kind: Option<Normalized>)

  datatype EventState = Accepted | Processing | Processed | Failed | Quarantined

  datatype Mismatch = Unparsed | NoPayment | AmbiguousPayment | WrongAmount | WrongCurrency

  datatype Alert = LatePaid | UnknownType | ReversalHeld

  datatype Event = Event(body: Body, state: EventState, intent: Option<IntentId>,
                         mismatch: Option<Mismatch>, alert: Option<Alert>)

  datatype RefKey = RefKey(provider: string, scope: string, mode: string, ref: string)

  datatype ExtKey = ExtKey(mode: string, externalId: string)

  datatype Settlement = Settlement(intent: IntentId, reference: string, gross: int, fee: int, net: int,
                                   paidLate: bool, event: EventKey)

  datatype Journal = Journal(intent: IntentId, reference: string, gross: int, feePercent: int, feeFixed: int, net: int)

  datatype Message = Fulfil(intent: IntentId) | Notify(intent: IntentId)

  /** byRef and byExt are the unique indexes of the intent table. */
  datatype Book = Book(
    cases: map<IntentId, Case>, byRef: map<RefKey, IntentId>, byExt: map<ExtKey, IntentId>,
    events: map<EventKey, Event>, settlements: seq<Settlement>, journals: seq<Journal>, outbox: seq<Message>)

  datatype Step =
    | Place(intent: IntentId, terms: Terms, order: Order, coupon: bool, stock: bool)
    | Accept(key: EventKey, body: Body)
    | Process(key: EventKey)
    | ResetForReplay(key: EventKey)
    | PostLedger(intent: IntentId)
    | Act(intent: IntentId, move: CaseMove)

  const EMPTY := Book(map[], map[], map[], map[], [], [], [])

  // ---------------------------------------------------------------------------
  // Money rows
  // ---------------------------------------------------------------------------

  function PaidReference(i: IntentId): string {
    "PAYMENT_CAPTURE:" + i
  }

  lemma PaidReferenceIsInjective(i: IntentId, j: IntentId)
    requires PaidReference(i) == PaidReference(j)
    ensures i == j
  {
    var p := "PAYMENT_CAPTURE:";
    assert (p + i)[|p|..] == i && (p + j)[|p|..] == j;
  }

  datatype Amounts = Amounts(gross: int, fee: int, net: int)

  /** Settled amounts come from the order row; the event body has no part in them. */
  function SettledAmounts(o: Order, intentAmount: int): Amounts {
    var gross := if o.gross <= 0 then intentAmount else o.gross;
    Amounts(gross, o.fee, if o.net <= 0 && gross > o.fee then gross - o.fee else o.net)
  }

  /** For any order row at all, the amounts balance exactly when the net was derived or already right. */
  lemma AmountsBalanceExactly(o: Order, intentAmount: int)
    ensures var a := SettledAmounts(o, intentAmount);
            a.gross == a.fee + a.net <==>
            (o.net <= 0 && a.gross > o.fee) || o.net == (if o.gross > 0 then o.gross else intentAmount) - o.fee
  {
  }

  function FeePercentPart(fee: int): int {
    if fee == 0 then 0 else if fee >= 700 then fee - 700 else fee
  }

  function FeeFixedPart(fee: int): int {
    if fee == 0 then 0 else if fee >= 700 then 700 else 0
  }

  predicate ReferenceTaken(rows: seq<Settlement>, reference: string) {
    exists r :: r in rows && r.reference == reference
  }

  predicate Settled(rows: seq<Settlement>, i: IntentId) {
    exists r :: r in rows && r.intent == i
  }

  predicate Journaled(rows: seq<Journal>, i: IntentId) {
    exists r :: r in rows && r.intent == i
  }

  function SettlementFor(i: IntentId, c: Case, late: bool, key: EventKey): Settlement {
    var a := SettledAmounts(c.order, c.terms.amount);
    Settlement(i, PaidReference(i), a.gross, a.fee, a.net, late, key)
  }

  function JournalFor(i: IntentId, c: Case): Journal {
    var a := SettledAmounts(c.order, c.terms.amount);
    Journal(i, PaidReference(i), a.gross, FeePercentPart(a.fee), FeeFixedPart(a.fee), a.net)
  }

  /** Insert unless the reference is there, and queue both messages only with a new row. */
  function AddSettlement(rows: seq<Settlement>, row: Settlement): seq<Settlement> {
    if ReferenceTaken(rows, row.reference) then rows else rows + [row]
  }

  function QueuePaid(rows: seq<Settlement>, outbox: seq<Message>, row: Settlement): seq<Message> {
    if ReferenceTaken(rows, row.reference) then outbox
    else Enqueue(Enqueue(outbox, Fulfil(row.intent)), Notify(row.intent))
  }

  function Settle(b: Book, row: Settlement): Book {
    b.(settlements := AddSettlement(b.settlements, row), outbox := QueuePaid(b.settlements, b.outbox, row))
  }

  function Enqueue(rows: seq<Message>, m: Message): seq<Message> {
    if m in rows then rows else rows + [m]
  }

  /** Posting is idempotent by reference. */
  function PostJournal(rows: seq<Journal>, row: Journal): seq<Journal> {
    if exists r :: r in rows && r.reference == row.reference then rows else rows + [row]
  }

  // ---------------------------------------------------------------------------
  // Callbacks
  // ---------------------------------------------------------------------------

  datatype Resolution = Found(intent: IntentId) | Ambiguous | Missing

  /** By provider reference on the full tuple first, then by external id with the tuple checked. */
  function Resolve(b: Book, key: EventKey, body: Body): Resolution {
    var rk := RefKey(key.provider, key.scope, key.mode, body.ref);
    var ek := ExtKey(key.mode, body.externalId);
    if body.ref != "" && rk in b.byRef then Found(b.byRef[rk])
    else if body.externalId != "" && ek in b.byExt && b.byExt[ek] in b.cases then
      var t := b.cases[b.byExt[ek]].terms;
      if t.provider != key.provider || t.scope != key.scope || t.mode != key.mode then Ambiguous
      else Found(b.byExt[ek])
    else Missing
  }

  function Quarantine(b: Book, key: EventKey, why: Mismatch, intent: Option<IntentId>): Book
    requires key in b.events
  {
    var ev := b.events[key];
    b.(events := b.events[key := Event(ev.body, Quarantined, if intent.Some? then intent else ev.intent, Some(why), None)])
  }

  /** The outcome of checking an event against the row it names. */
  function Check(b: Book, key: EventKey, body: Body): (r: Option<Mismatch>)
    ensures r.None? ==> body.kind.Some? && Resolve(b, key, body).Found?
                        && Resolve(b, key, body).intent in b.cases
  {
    if body.kind.None? then Some(Unparsed)
    else
      match Resolve(b, key, body)
      case Ambiguous => Some(AmbiguousPayment)
      case Missing => Some(NoPayment)
      case Found(i) =>
        if i !in b.cases then Some(NoPayment)
        else if body.amount > 0 && body.amount != b.cases[i].terms.amount then Some(WrongAmount)
        else if body.currency != "" && body.currency != b.cases[i].terms.currency then Some(WrongCurrency)
        else None
  }

  /** applyNormalized raises these on the event row... */
  function RaisedAlert(c: Case, kind: Normalized): Option<Alert> {
    match kind
    case PaidEvent => if UnpaidTerminal(c.status) then Some(LatePaid) else None
    case ReversalEvent => if c.status.Paid? then Some(ReversalHeld) else None
    case UnknownEvent => Some(UnknownType)
    case _ => None
  }

  /** ...and the last update of the row, which names no alert, writes NULL over them. */
  function MarkProcessed(ev: Event, i: IntentId): Event {
    ev.(state := Processed, intent := Some(i), mismatch := None, alert := None)
  }

  /** Apply a checked callback to the intent it resolved to. */
  function ApplyEvent(b: Book, key: EventKey, i: IntentId, kind: Normalized): Book
    requires key in b.events && i in b.cases
  {
    var c := b.cases[i];
    var applied := b.(cases := b.cases[i := Move(c, Callback(kind))],
                      events := b.events[key := MarkProcessed(b.events[key].(alert := RaisedAlert(c, kind)), i)]);
    if kind.PaidEvent? then Settle(applied, SettlementFor(i, c, UnpaidTerminal(c.status), key)) else applied
  }

  function ProcessEvent(b: Book, key: EventKey): Book {
    if key !in b.events then b
    else
      var ev := b.events[key];
      if ev.state.Processed? then
        if ev.intent.Some? && ev.intent.value in b.cases
        then b.(cases := b.cases[ev.intent.value := Move(b.cases[ev.intent.value], Redelivered)])
        else b
      else
        var why := Check(b, key, ev.body);
        if why.Some? then Quarantine(b, key, why.value, NamedIntent(b, key, ev.body, why.value))
        else ApplyEvent(b, key, Resolve(b, key, ev.body).intent, ev.body.kind.value)
  }

  function NamedIntent(b: Book, key: EventKey, body: Body, why: Mismatch): Option<IntentId> {
    if (why.WrongAmount? || why.WrongCurrency?) && Resolve(b, key, body).Found? then Some(Resolve(b, key, body).intent) else None
  }

  // ---------------------------------------------------------------------------
  // Steps
  // ---------------------------------------------------------------------------

  /** Amounts as the fee service leaves them: positive net, fee not negative, and they add up. */
  predicate Priced(terms: Terms, o: Order) {
    o.gross == terms.amount && o.gross == o.fee + o.net && 0 <= o.fee && 0 < o.net
  }

  predicate MayPlace(b: Book, s: Step) {
    s.Place? && s.intent !in b.cases && ExtKey(s.terms.mode, s.terms.externalId) !in b.byExt
    && Priced(s.terms, s.order) && (s.terms.source.QrisApi? ==> !s.coupon && !s.stock)
  }

  function ActivationKey(c: Case, m: CaseMove): Option<RefKey> {
    if m.Proceed? && NextWrite(c, m.call).Some? && NextWrite(c, m.call).value.SetActive?
    then Some(RefKey(c.terms.provider, c.terms.scope, c.terms.mode, NextWrite(c, m.call).value.ref))
    else None
  }

  /** A provider reference already taken makes the activating write fail, and with it the call. */
  function ActOn(b: Book, i: IntentId, m: CaseMove): Book
    requires i in b.cases
  {
    var c := b.cases[i];
    var rk := ActivationKey(c, m);
    if rk.Some? && rk.value in b.byRef && b.byRef[rk.value] != i then b.(cases := b.cases[i := Move(c, Crash(m.call))])
    else b.(cases := b.cases[i := Move(c, m)],
            byRef := if rk.Some? then b.byRef[rk.value := i] else b.byRef)
  }

  function Apply(b: Book, s: Step): Book {
    match s
    case Place(i, terms, order, coupon, stock) =>
      if !MayPlace(b, s) then b
      else b.(cases := b.cases[i := NewCase(terms, order, coupon, stock)],
              byExt := b.byExt[ExtKey(terms.mode, terms.externalId) := i])
    case Accept(key, body) =>
      if key in b.events then b
      else b.(events := b.events[key := Event(body, Accepted, None, None, None)])
    case Process(key) => ProcessEvent(b, key)
    case ResetForReplay(key) =>
      if key !in b.events then b
      else b.(events := b.events[key := b.events[key].(state := Accepted, mismatch := None, alert := None)])
    case PostLedger(i) =>
      if i in b.cases && b.cases[i].effectsDue
      then b.(journals := PostJournal(b.journals, JournalFor(i, b.cases[i])))
      else b
    case Act(i, m) =>
      if i in b.cases && !m.Callback? && !m.Redelivered? then ActOn(b, i, m) else b
  }

  function Run(b: Book, steps: seq<Step>): Book
    decreases |steps|
  {
    if steps == [] then b else Run(Apply(b, steps[0]), steps[1..])
  }

  // ---------------------------------------------------------------------------
  // Invariants of every run
  // ---------------------------------------------------------------------------

  ghost predicate CaseOk(c: Case) {
    SafeCase(c) && Priced(c.terms, c.order)
  }

  ghost predicate CasesOk(b: Book) {
    forall i :: i in b.cases ==> CaseOk(b.cases[i])
  }

  function Endpoint(k: EventKey): RefKey {
    RefKey(k.provider, k.scope, k.mode, "")
  }

  /** The event says the intent was paid: it came in at the intent's own endpoint, and an amount or
      a currency it names is the intent's. */
  predicate Evidence(k: EventKey, body: Body, t: Terms) {
    && body.kind == Some(PaidEvent) && RefMatches(t, Endpoint(k))
    && (body.amount > 0 ==> body.amount == t.amount) && (body.currency != "" ==> body.currency == t.currency)
  }

  /** A settlement has the amounts of its order and names the stored event it was made for. */
  ghost predicate SettlementRowOk(b: Book, r: Settlement) {
    && r.intent in b.cases && r.reference == PaidReference(r.intent)
    && (var o := b.cases[r.intent].order; r.gross == o.gross && r.fee == o.fee && r.net == o.net)
    && r.event in b.events && Evidence(r.event, b.events[r.event].body, b.cases[r.intent].terms)
  }

  ghost predicate SettlementsOk(b: Book) {
    && (forall r :: r in b.settlements ==> SettlementRowOk(b, r))
    && (forall x, y :: 0 <= x < y < |b.settlements| ==> b.settlements[x].intent != b.settlements[y].intent)
  }

  ghost predicate SettledExactlyWhenPaid(b: Book) {
    forall i :: i in b.cases ==> (b.cases[i].past.paidCallback <==> Settled(b.settlements, i))
  }

  ghost predicate OutboxOk(b: Book) {
    && (forall x, y :: 0 <= x < y < |b.outbox| ==> b.outbox[x] != b.outbox[y])
    && (forall i :: Fulfil(i) in b.outbox <==> Settled(b.settlements, i))
    && (forall i :: Notify(i) in b.outbox <==> Settled(b.settlements, i))
  }

  ghost predicate JournalRowOk(b: Book, r: Journal) {
    r.intent in b.cases && r.reference == PaidReference(r.intent) && PaidProof(b.cases[r.intent])
    && (var o := b.cases[r.intent].order;
        && r.gross == o.gross && r.feePercent + r.feeFixed == o.fee && r.net == o.net
        && r.feeFixed == (if o.fee >= 700 then 700 else 0))
  }

  ghost predicate JournalsOk(b: Book) {
    && (forall r :: r in b.journals ==> JournalRowOk(b, r))
    && (forall x, y :: 0 <= x < y < |b.journals| ==> b.journals[x].intent != b.journals[y].intent)
  }

  predicate ExtMatches(t: Terms, k: ExtKey) {
    t.mode == k.mode && t.externalId == k.externalId
  }

  predicate RefMatches(t: Terms, k: RefKey) {
    t.provider == k.provider && t.scope == k.scope && t.mode == k.mode
  }

  ghost predicate IndexesOk(b: Book) {
    && (forall k :: k in b.byExt ==> b.byExt[k] in b.cases && ExtMatches(b.cases[b.byExt[k]].terms, k))
    && (forall k :: k in b.byRef ==> b.byRef[k] in b.cases && RefMatches(b.cases[b.byRef[k]].terms, k))
  }

  /** Event rows are only ever stored ACCEPTED, PROCESSED or QUARANTINED, and never with an alert; the
      intent an event names is one of its own endpoint. */
  ghost predicate EventRowOk(b: Book, k: EventKey, ev: Event) {
    && (ev.state.Accepted? || ev.state.Processed? || ev.state.Quarantined?)
    && ev.alert.None?
    && (ev.intent.Some? ==> ev.intent.value in b.cases && RefMatches(b.cases[ev.intent.value].terms, Endpoint(k)))
    && (ev.state.Processed? ==>
          && ev.intent.Some?
          && (ev.body.kind == Some(PaidEvent) ==> b.cases[ev.intent.value].past.paidCallback))
  }

  ghost predicate EventsOk(b: Book) {
    forall k :: k in b.events ==> EventRowOk(b, k, b.events[k])
  }

  ghost predicate BookOk(b: Book) {
    && CasesOk(b) && SettlementsOk(b) && SettledExactlyWhenPaid(b)
    && OutboxOk(b) && JournalsOk(b) && IndexesOk(b) && EventsOk(b)
  }

  // ---------------------------------------------------------------------------
  // Every step keeps them
  // ---------------------------------------------------------------------------

  /** What every move leaves alone, and the past it never takes back. */
  ghost predicate Continues(c: Case, d: Case) {
    && d.terms == c.terms && d.order.gross == c.order.gross && d.order.fee == c.order.fee && d.order.net == c.order.net
    && (PaidProof(c) ==> PaidProof(d))
    && (c.past.paidCallback ==> d.past.paidCallback)
  }

  lemma WriteContinues(c: Case, w: Write)
    ensures Continues(c, DoWrite(c, w)) && DoWrite(c, w).past.paidCallback == c.past.paidCallback
  {
  }

  lemma MoveContinues(c: Case, m: CaseMove)
    ensures Continues(c, Move(c, m))
    ensures Move(c, m).past.paidCallback == (c.past.paidCallback || m == Callback(PaidEvent))
  {
    hide DoWrite, NextWrite, WritesOf;
    match m
    case Proceed(id) =>
      if NextWrite(c, id).Some? {
        WriteContinues(c, NextWrite(c, id).value);
      }
    case Callback(kind) =>
    case _ =>
  }

  ghost predicate Evolves(b: Book, e: Book) {
    forall i :: i in b.cases ==> i in e.cases && Continues(b.cases[i], e.cases[i])
  }

  /** No event is lost and no body changes. */
  ghost predicate EventsGrow(b: Book, e: Book) {
    forall k :: k in b.events ==> k in e.events && e.events[k].body == b.events[k].body
  }

  lemma SettlementsSurvive(b: Book, e: Book)
    requires SettlementsOk(b) && Evolves(b, e) && EventsGrow(b, e) && e.settlements == b.settlements
    ensures SettlementsOk(e)
  {
    assert forall r :: r in e.settlements ==> SettlementRowOk(b, r);
  }

  lemma JournalsSurvive(b: Book, e: Book)
    requires JournalsOk(b) && Evolves(b, e) && e.journals == b.journals
    ensures JournalsOk(e)
  {
    assert forall r :: r in e.journals ==> JournalRowOk(b, r);
  }

  lemma EventsSurvive(b: Book, e: Book)
    requires EventsOk(b) && Evolves(b, e) && e.events == b.events
    ensures EventsOk(e)
  {
    assert forall k :: k in e.events ==> EventRowOk(b, k, e.events[k]);
  }

  lemma IndexesSurvive(b: Book, e: Book)
    requires IndexesOk(b) && Evolves(b, e) && e.byRef == b.byRef && e.byExt == b.byExt
    ensures IndexesOk(e)
  {
  }

  /** Replacing one case by a continuation of it, without a new paid callback, keeps the book. */
  lemma CaseUpdateKeepsBook(b: Book, i: IntentId, d: Case)
    requires BookOk(b) && i in b.cases && SafeCase(d) && Continues(b.cases[i], d)
    requires d.past.paidCallback == b.cases[i].past.paidCallback
    ensures BookOk(b.(cases := b.cases[i := d]))
  {
    var e := b.(cases := b.cases[i := d]);
    EvolvesAt(b, e, i);
    CaseUpdateKeepsCases(b, i, d);
    assert SettledExactlyWhenPaid(e);
    hide CasesOk, SettlementsOk, JournalsOk, EventsOk, IndexesOk, Continues, SafeCase, Settled;
    SettlementsSurvive(b, e);
    JournalsSurvive(b, e);
    EventsSurvive(b, e);
    IndexesSurvive(b, e);
  }

  lemma CaseUpdateKeepsCases(b: Book, i: IntentId, d: Case)
    requires CasesOk(b) && i in b.cases && SafeCase(d) && Continues(b.cases[i], d)
    ensures CasesOk(b.(cases := b.cases[i := d]))
  {
    assert CaseOk(b.cases[i]);
    hide SafeCase;
  }

  lemma EvolvesAt(b: Book, e: Book, i: IntentId)
    requires i in b.cases && i in e.cases && Continues(b.cases[i], e.cases[i])
    requires forall j :: j in b.cases && j != i ==> j in e.cases && e.cases[j] == b.cases[j]
    ensures Evolves(b, e)
  {
  }

  lemma EventUpdateKeepsBook(b: Book, k: EventKey, ev: Event)
    requires BookOk(b) && EventRowOk(b, k, ev) && (k in b.events ==> ev.body == b.events[k].body)
    ensures BookOk(b.(events := b.events[k := ev]))
  {
    var e := b.(events := b.events[k := ev]);
    SettlementsSurvive(b, e);
    JournalsSurvive(b, e);
    IndexesSurvive(b, e);
    forall x | x in e.events
      ensures EventRowOk(e, x, e.events[x])
    {
      assert EventRowOk(b, x, e.events[x]);
    }
  }

  /** A first paid callback and its settlement keep the book together. */
  lemma SettlingKeepsBook(b: Book, i: IntentId, d: Case, row: Settlement)
    requires BookOk(b) && i in b.cases && SafeCase(d) && Continues(b.cases[i], d) && d.past.paidCallback
    requires row.intent == i && row.reference == PaidReference(i)
    requires row.gross == d.order.gross && row.fee == d.order.fee && row.net == d.order.net
    requires row.event in b.events && Evidence(row.event, b.events[row.event].body, d.terms)
    ensures BookOk(Settle(b.(cases := b.cases[i := d]), row))
  {
    ReferenceMeansSettled(b, i);
    if ReferenceTaken(b.settlements, row.reference) {
      assert b.cases[i].past.paidCallback;
      CaseUpdateKeepsBook(b, i, d);
    } else {
      var e := b.(cases := b.cases[i := d]);
      var f := Settle(e, row);
      EvolvesAt(b, f, i);
      CaseUpdateKeepsCases(b, i, d);
      assert SettlementRowOk(e, row);
      hide CasesOk, JournalsOk, EventsOk, IndexesOk, SafeCase, Settled, SettlementRowOk;
      JournalsSurvive(b, f);
      EventsSurvive(b, f);
      IndexesSurvive(b, f);
      NewSettlementKeepsTables(b, e, row);
    }
  }

  lemma NewSettlementKeepsTables(b: Book, e: Book, row: Settlement)
    requires SettlementsOk(b) && SettledExactlyWhenPaid(b) && OutboxOk(b) && Evolves(b, e)
    requires e.settlements == b.settlements && e.outbox == b.outbox && e.events == b.events && e.cases.Keys == b.cases.Keys
    requires row.intent in b.cases && SettlementRowOk(e, row) && e.cases[row.intent].past.paidCallback
    requires !ReferenceTaken(b.settlements, row.reference) && !Settled(b.settlements, row.intent)
    requires forall j :: j in b.cases && j != row.intent ==> e.cases[j] == b.cases[j]
    ensures SettlementsOk(Settle(e, row)) && SettledExactlyWhenPaid(Settle(e, row)) && OutboxOk(Settle(e, row))
  {
    var f := Settle(e, row);
    assert f.settlements == b.settlements + [row];
    forall r | r in f.settlements
      ensures SettlementRowOk(f, r)
    {
      assert r in b.settlements ==> SettlementRowOk(b, r);
    }
    forall j: IntentId
      ensures Settled(f.settlements, j) <==> Settled(b.settlements, j) || j == row.intent
    {
      SettledAfterAppend(b.settlements, row, j);
    }
    assert Fulfil(row.intent) !in b.outbox && Notify(row.intent) !in b.outbox;
    assert f.outbox == b.outbox + [Fulfil(row.intent), Notify(row.intent)];
  }

  lemma SettledAfterAppend(rows: seq<Settlement>, row: Settlement, j: IntentId)
    ensures Settled(rows + [row], j) <==> Settled(rows, j) || j == row.intent
  {
    assert row in rows + [row];
    assert forall r :: r in rows ==> r in rows + [row];
  }

  lemma ReferenceMeansSettled(b: Book, i: IntentId)
    requires SettlementsOk(b)
    ensures ReferenceTaken(b.settlements, PaidReference(i)) <==> Settled(b.settlements, i)
  {
    forall r | r in b.settlements && r.reference == PaidReference(i)
      ensures r.intent == i
    {
      assert SettlementRowOk(b, r);
      PaidReferenceIsInjective(r.intent, i);
    }
    assert forall r :: r in b.settlements ==> SettlementRowOk(b, r);
  }

  /** A checked event names an intent of its own endpoint, and agrees with it. */
  lemma CheckedEventFits(b: Book, key: EventKey, body: Body)
    requires IndexesOk(b) && Resolve(b, key, body).Found?
    ensures var i := Resolve(b, key, body).intent;
            && i in b.cases && RefMatches(b.cases[i].terms, Endpoint(key))
            && (Check(b, key, body).None? && body.kind == Some(PaidEvent) ==> Evidence(key, body, b.cases[i].terms))
  {
  }

  lemma ApplyEventKeepsBook(b: Book, key: EventKey, i: IntentId, kind: Normalized)
    requires BookOk(b) && key in b.events && i in b.cases && b.events[key].body.kind == Some(kind)
    requires RefMatches(b.cases[i].terms, Endpoint(key))
    requires kind.PaidEvent? ==> Evidence(key, b.events[key].body, b.cases[i].terms)
    ensures BookOk(ApplyEvent(b, key, i, kind))
  {
    var c := b.cases[i];
    var d := Move(c, Callback(kind));
    MoveKeepsSafeCase(c, Callback(kind));
    MoveContinues(c, Callback(kind));
    var ev := MarkProcessed(b.events[key].(alert := RaisedAlert(c, kind)), i);
    if kind.PaidEvent? {
      var row := SettlementFor(i, c, UnpaidTerminal(c.status), key);
      var settled := Settle(b.(cases := b.cases[i := d]), row);
      SettlingKeepsBook(b, i, d, row);
      EventUpdateKeepsBook(settled, key, ev);
      assert ApplyEvent(b, key, i, kind) == settled.(events := settled.events[key := ev]);
    } else {
      CaseUpdateKeepsBook(b, i, d);
      EventUpdateKeepsBook(b.(cases := b.cases[i := d]), key, ev);
    }
  }

  lemma ProcessKeepsBook(b: Book, key: EventKey)
    requires BookOk(b)
    ensures BookOk(ProcessEvent(b, key))
  {
    if key in b.events {
      var ev := b.events[key];
      assert EventRowOk(b, key, ev);
      if ev.state.Processed? {
        var c := b.cases[ev.intent.value];
        MoveKeepsSafeCase(c, Redelivered);
        CaseUpdateKeepsBook(b, ev.intent.value, Move(c, Redelivered));
      } else {
        var why := Check(b, key, ev.body);
        if Resolve(b, key, ev.body).Found? {
          CheckedEventFits(b, key, ev.body);
        }
        if why.Some? {
          var q := Quarantine(b, key, why.value, NamedIntent(b, key, ev.body, why.value));
          EventUpdateKeepsBook(b, key, q.events[key]);
        } else {
          ApplyEventKeepsBook(b, key, Resolve(b, key, ev.body).intent, ev.body.kind.value);
        }
      }
    }
  }

  lemma ActKeepsBook(b: Book, i: IntentId, m: CaseMove)
    requires BookOk(b) && i in b.cases && !m.Callback?
    ensures BookOk(ActOn(b, i, m))
  {
    var c := b.cases[i];
    var rk := ActivationKey(c, m);
    var taken := rk.Some? && rk.value in b.byRef && b.byRef[rk.value] != i;
    var m' := if taken then Crash(m.call) else m;
    MoveKeepsSafeCase(c, m');
    MoveContinues(c, m');
    CaseUpdateKeepsBook(b, i, Move(c, m'));
    if rk.Some? && !taken {
      IndexUpdateKeepsBook(b.(cases := b.cases[i := Move(c, m')]), rk.value, i);
    }
  }

  lemma IndexUpdateKeepsBook(b: Book, k: RefKey, i: IntentId)
    requires BookOk(b) && i in b.cases && RefMatches(b.cases[i].terms, k)
    ensures BookOk(b.(byRef := b.byRef[k := i]))
  {
    var e := b.(byRef := b.byRef[k := i]);
    SettlementsSurvive(b, e);
    JournalsSurvive(b, e);
    EventsSurvive(b, e);
  }

  lemma NewCaseIsUnsettled(b: Book, i: IntentId)
    requires SettlementsOk(b) && i !in b.cases
    ensures !Settled(b.settlements, i)
  {
    assert forall r :: r in b.settlements ==> SettlementRowOk(b, r);
  }

  lemma NewCaseKeepsStatuses(b: Book, i: IntentId, c: Case, k: ExtKey)
    requires CasesOk(b) && SettlementsOk(b) && SettledExactlyWhenPaid(b) && IndexesOk(b)
    requires i !in b.cases && CaseOk(c) && !c.past.paidCallback && ExtMatches(c.terms, k)
    ensures var e := b.(cases := b.cases[i := c], byExt := b.byExt[k := i]);
            CasesOk(e) && SettledExactlyWhenPaid(e) && IndexesOk(e)
  {
    NewCaseIsUnsettled(b, i);
    hide SettlementsOk, CaseOk, Settled;
  }

  lemma NewCaseKeepsBook(b: Book, i: IntentId, c: Case, k: ExtKey)
    requires BookOk(b) && i !in b.cases && CaseOk(c) && !c.past.paidCallback && ExtMatches(c.terms, k)
    ensures BookOk(b.(cases := b.cases[i := c], byExt := b.byExt[k := i]))
  {
    var e := b.(cases := b.cases[i := c], byExt := b.byExt[k := i]);
    assert Evolves(b, e);
    NewCaseKeepsStatuses(b, i, c, k);
    hide CaseOk, Continues, SettlementRowOk, JournalRowOk, CasesOk, SettledExactlyWhenPaid, IndexesOk, EventRowOk;
    SettlementsSurvive(b, e);
    JournalsSurvive(b, e);
    EventsSurvive(b, e);
  }

  lemma PlaceKeepsBook(b: Book, s: Step)
    requires BookOk(b) && MayPlace(b, s)
    ensures BookOk(Apply(b, s))
  {
    var c := NewCase(s.terms, s.order, s.coupon, s.stock);
    NewCaseIsOrderly(s.terms, s.order, s.coupon, s.stock);
    NewCaseKeepsBook(b, s.intent, c, ExtKey(s.terms.mode, s.terms.externalId));
  }

  lemma PostingKeepsJournals(b: Book, i: IntentId)
    requires CasesOk(b) && JournalsOk(b) && i in b.cases && b.cases[i].effectsDue
    ensures JournalsOk(b.(journals := PostJournal(b.journals, JournalFor(i, b.cases[i]))))
  {
    var row := JournalFor(i, b.cases[i]);
    var e := b.(journals := PostJournal(b.journals, row));
    assert CaseOk(b.cases[i]);
    forall x | 0 <= x < |b.journals| && b.journals[x].reference != row.reference
      ensures b.journals[x].intent != i
    {
      assert JournalRowOk(b, b.journals[x]);
    }
    forall r | r in e.journals
      ensures JournalRowOk(e, r)
    {
      assert r == row || JournalRowOk(b, r);
    }
  }

  lemma PostLedgerKeepsBook(b: Book, i: IntentId)
    requires BookOk(b)
    ensures BookOk(Apply(b, PostLedger(i)))
  {
    if i in b.cases && b.cases[i].effectsDue {
      PostingKeepsJournals(b, i);
      var e := b.(journals := PostJournal(b.journals, JournalFor(i, b.cases[i])));
      SettlementsSurvive(b, e);
      EventsSurvive(b, e);
    }
  }

  lemma StepKeepsBook(b: Book, s: Step)
    requires BookOk(b)
    ensures BookOk(Apply(b, s))
  {
    match s
    case Place(_, _, _, _, _) =>
      if MayPlace(b, s) {
        PlaceKeepsBook(b, s);
      }
    case Accept(key, body) =>
      if key !in b.events {
        EventUpdateKeepsBook(b, key, Event(body, Accepted, None, None, None));
      }
    case Process(key) => ProcessKeepsBook(b, key);
    case ResetForReplay(key) =>
      if key in b.events {
        EventUpdateKeepsBook(b, key, Apply(b, s).events[key]);
      }
    case PostLedger(i) => PostLedgerKeepsBook(b, i);
    case Act(i, m) =>
      if i in b.cases && !m.Callback? && !m.Redelivered? {
        ActKeepsBook(b, i, m);
      }
  }

  lemma {:induction false} RunKeepsBook(b: Book, steps: seq<Step>)
    requires BookOk(b)
    ensures BookOk(Run(b, steps))
    decreases |steps|
  {
    if steps != [] {
      StepKeepsBook(b, steps[0]);
      RunKeepsBook(Apply(b, steps[0]), steps[1..]);
    }
  }
}
