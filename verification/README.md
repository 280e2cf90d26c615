# Money, holds and keys of the storefront backend, in Dafny

This project models the parts of the Go backend where several callers change the same rows, and
proves what those rows can and cannot become.

* **Payments** (`Holds`, `PaymentCase`, `PaymentBook`, `PaymentRuns`, `CallOutcomes`,
  `CallbackOutcomes`, `PaymentDesk`). One intent
  with its order, its holds and the provider calls in flight on it is a *case*; all cases with the
  provider events, settlements, ledger journals and queued messages are the *book*. A provider call
  reads and marks the row, hears the provider, and then makes its writes one by one: the row, its
  order, the unit, the coupon. Each of these is a step, as is each transaction of a callback, so
  callbacks, expire, cancel, lookup and create interleave at every store call. `Desk` is the
  services' code on the tables, method by method, each proved to do what its steps do.
* **Checkout** (`RequestText`, `Checkout`, `CheckoutOutcomes`, `CheckoutDesk`). `CreateIntent` over the real coupon
  ledger and stock pool, which go on moving between calls.
* **Coupons and stock** (`CouponLedger`, `CouponRuns`, `StockPool`, `StockRuns`). The tables with their counters and unique
  indexes, and the services that change them.
* **Audit chain** (`AuditChain`). Append, checkpoint and the batched scan, against a predicate on
  the whole log. The hash is any function on bytes; theorems say where a collision would show.
* **Custom domains** (`Domains`, `DomainDesk`, `DomainOutcomes`). Callers as flights that stop between reading,
  DNS, edge and compare-and-set; then the service run without interruption.
* **Credentials** (`Credentials`, `CredentialRuns`), **e-mail change** (`EmailChange`, `EmailBlocks`,
  `EmailOutcomes`), **rate limit**
  (`RateLimiter`), **daily aggregates** (`DailyAggregates`), **order money** (`OrderMoney`) and
  **slugs** (`StoreSlug`).

The shape is the same everywhere. A state is a value (the tables), an operation a function on it, a
run a sequence of operations; invariants are kept by each operation and so by each run. The services
are classes whose fields are the tables and whose methods follow the source statement by statement;
each method's contract equates the new tables with the function. Identifiers and tokens are
parameters, clocks are parameters that may be anything unless a lemma says otherwise, and the
provider, DNS and the edge answer whatever they like.

What the functions themselves mean is stated beside them: the modules named `...Outcomes` say, for every
answer and refusal, what the rows are before and after an operation, and the modules named `...Runs` say
what a status means after any run: which steps of it, and only those, brought it about. They are stated on
rows and columns, so a function that took a wrong branch would contradict them.

`dafny verify dfyconfig.toml` checks everything.

## What the code does not promise

Where a property one would expect is false, the model keeps the code as it is, shows a run, and
proves exactly when the property holds.

* **PAID can be lost.** The status write of a provider call has no guard (`checkout.sql:139`), so an
  expire call that heard EXPIRED may overwrite a PAID that arrived meanwhile.
  `PaymentRuns.PaidIsLeftExactlyByStaleWrites` says this is the only way;
  `PaymentCase.LatePaymentRaceUnpays` is a run; and where every status write finds the row its call
  left or saw, PAID is final and evidenced (`PaymentRuns.FreshRunsPayOnEvidence`,
  `PaymentRuns.PaidExactlyOnEvidence`), as in all serial use (`PaymentRuns.SerialUsePaysOnEvidence`).
  Even a provider whose PAID is final loses it to calls that heard their answer before
  (`PaymentCase.FinalPaidIsLostToEarlierAnswersOnly`) and to calls that time out
  (`PaymentCase.TimeoutAfterPaidUnpays`). A redelivery does not repair it: on an event that was processed before, an intent that is no longer
  PAID stays as it is (`PaymentRuns.DeliveredPaidCallbackFulfils`). An administrator's replay does
  (`CallbackOutcomes.ReplayedPaidCallbackFulfils`).
* **A settled payment can sit on an unpaid order row.** The order is PAID exactly when some paid
  callback found the intent unpaid and no closing call wrote the order later
  (`PaymentRuns.OrderIsPaidExactly`). It is not when a query finds the payment before the callback
  (`PaymentCase.LookupFirstLeavesTheOrderUnpaid`), nor when the callback comes between the two writes
  of an expire call (`PaymentCase.LatePaymentBetweenTheWrites`).
* **A refused create gives its holds back before it fails the row**, so between its writes an open
  intent has freed holds (`PaymentCase.RejectedCreateFreesFirst`). In fresh runs an open intent lacks its
  live holds exactly then (`PaymentRuns.FreshRunsPayOnEvidence`).
* **Any event on a PAID intent makes its ledger posting and effects due**, whatever its type
  (`PaymentRuns.EffectsBecomeDueExactly`), but only a paid callback settles. A posted intent lacks its
  settlement exactly when no paid event was processed for it
  (`PaymentRuns.PostedWithoutSettlementExactly`); a lookup followed by a PENDING event is such a run
  (`PaymentDesk.CaptureWithoutSettlement`).
* **No alert is ever stored**: the final update of an event erases what its processing raised
  (`PaymentRuns.NoAlertIsEverStored`).
* **A refused amount or fee keeps the coupon reserved.** `CreateIntent` returns without releasing;
  `Checkout.CallsLeakExactly` gives the exact condition, `Checkout.AWholePriceCouponLeaks` a call. A key
  can then hold one live coupon more than it has leaks (`Checkout.OneCheckoutPerKey`), and does in
  `Checkout.TwoCouponsUnderOneKey`.
* **An order can carry an earlier price.** A placed order has the price its request asks exactly when
  no reservation of the coupon stood under its key, live or freed, or that one was made at the same price
  (`Checkout.OrdersCarryTheAskedPriceExactly`). After an out-of-stock refusal the same key replays the
  released reservation, and no live hold stands behind the discount (`Checkout.RetriesKeepTheEarlierPrice`,
  with a run in `Checkout.ADearerProductAtTheEarlierPrice`).
* **Different checkout requests can share a request text**: the fields are joined with bars and not
  escaped. A request has its text to itself exactly when no string the buyer sends holds a bar
  (`RequestText.TextIsUniqueExactly`); two requests of one text are the same exactly when no bar moved
  between fields (`RequestText.OneTextIsOneRequestExactly`). Store and product can differ without any
  coupon code (`RequestText.StoresCollide`).
* **A coupon can exceed its cap after an edit**: no other operation takes it above, and an edit does
  exactly when its cap is below the slots in use (`CouponLedger.CapIsExceededExactly`, with a run in
  `CouponLedger.UndercutCouponExceedsItsCap`).
* **A tombstoned hostname can be taken over before its cooldown ends**, exactly when the row was
  tombstoned again after the deleting caller saw it expired, the last time by a delete that began less
  than a cooldown ago (`Domains.DeletionIsEarlyExactly`, with a run in `Domains.EarlyTakeoverPassesTheHost`).
* **A claimed credential request can be reopened**: the administrator's write has no status guard
  (`Credentials.ClaimedStaysClaimedExactly`, with a run in `Credentials.AClaimedRequestIsReopened`). It
  never yields a second key, but it takes the merchant's one LIVE slot for ever
  (`Credentials.ReopenedRequestsBlockForEver`).
* **The audit scan does not see rows missing at either end** of the stored range, and sees every other
  removal (`AuditChain.RemovalsGoUnseenExactlyAtTheEnds`, `AuditChain.AnchorIsSeenExactlyWhenCovered`). Nor does it see new
  payloads of legacy rows, of rows of another version, or of a first row that is made to look like a
  legacy one; `AuditChain.PayloadsChangeUnseenExactly` is the exact condition.
* **A lapsed e-mail change can block its user for ever**: nothing cancels a pending request. Both tokens
  given now complete it exactly when each missing proof has a good token and no other user has the address
  (`EmailBlocks.CompletesNowExactly`). Its user is blocked for ever exactly when no chain of requests, each
  making room for the one before, can complete from its end (`EmailBlocks.BlockedForEverExactly`); when
  nobody else has the address, exactly when a missing proof's token has expired
  (`EmailBlocks.UncontestedBlockedExactly`). `EmailBlocks.AnUnansweredRequestBlocks` is about any run from the
  empty tables. A collision at completion ends so too, because its cancellation is undone with the
  transaction (`EmailBlocks.CollisionsBlockForEver`, with a run in `EmailBlocks.ACollisionIsReached`).
* **The rate limit bounds half-open minutes**; a closed minute holds up to twice as many calls
  (`RateLimiter.ClosedWindowsHoldAtMostTwiceTheLimit`), and can hold as many
  (`RateLimiter.ClosedWindowsCanHoldTwiceTheLimit`).

## Model

| member | source | states |
|---|---|---|
| Holds.FirstHoldMoveWins | backend/internal/application/coupon_service.go:845-997 | a release and a conversion of one live hold: the first decides, the second changes nothing |
| PaymentCase.OnlyFinalAnswersEndAPayment | backend/internal/application/checkout_service.go:795-952 | a call ends an open payment unpaid if and only if the provider's answer is final for it, pays it if and only if the answer is PAID, otherwise keeps the holds, and on a timeout leaves an unknown outcome |
| PaymentCase.MoveKeepsSafeCase | backend/internal/application/callback_service.go:625-728 | under every interleaving of callbacks with the single writes of calls: a PAID row has a paid callback or a PAID answer behind it, effects run and holds are used only with such evidence, holds are freed only after a closing write or a refused create, rows closed only by a closing write |
| PaymentCase.PaidIsLeftExactlyByOverwrites | backend/internal/adapters/postgres/queries/checkout.sql:139-172 | a move takes a PAID row out of PAID if and only if it is the unguarded status write of a call with another status to write |
| PaymentCase.FreshMoveKeepsOrderlyCase | backend/internal/application/checkout_service.go:750-952 | while status writes find the row their call left or saw, at every point between the writes: PAID stays, PAID is equivalent to its evidence, an open row owns its live holds if and only if no refused create has begun to give them back |
| PaymentCase.WholeCallsAreFresh | backend/internal/application/checkout_service.go:750-952 | each write of a call that is not interrupted finds the row as the call left or saw it, for every kind of call and answer |
| PaymentCase.ProceedingCarries | backend/internal/application/checkout_service.go:814-887 | a call that is not interrupted makes exactly the writes it has left, in order, and is over |
| PaymentCase.HoldsEndOnce | backend/internal/application/callback_service.go:860-886 | a used or freed hold keeps its end state under every step, stale writes included |
| PaymentCase.EffectsFollowTheOutcome | backend/internal/application/callback_service.go:860-886 | the two effects commute; unless the intent was closed or its create refused they use both holds, and freed holds stay freed |
| PaymentCase.OrderMovesExactly | backend/internal/application/callback_service.go:684-728 | a move leaves the order PAID if and only if it is a paid callback on an unpaid intent, or the order was PAID and the move is not the order write of a closing call |
| PaymentCase.NewCaseIsOrderly | backend/internal/application/checkout_service.go:443-552 | a placed intent starts with live holds and no evidence |
| PaymentCase.LatePaymentRaceUnpays | backend/internal/application/checkout_service.go:814-887 | a run from the placed intent with a paid callback that ends EXPIRED with both holds freed |
| PaymentCase.LatePaymentBetweenTheWrites | backend/internal/application/checkout_service.go:854-873 | a run from the placed intent where the paid callback comes between the status and the order write of an expire call: the intent stays PAID, no query said so, and the order ends EXPIRED |
| PaymentCase.TimeoutAfterPaidUnpays | backend/internal/application/checkout_service.go:814-850 | a run from the placed intent where an expire call that times out after the paid callback leaves an unknown outcome |
| PaymentCase.FinalPaidIsLostToEarlierAnswersOnly | backend/internal/application/checkout_service.go:814-952 | from any case on in which the provider says nothing but PAID, PAID is left only by a call that had its answer already, timed out, had no reference, or creates |
| PaymentCase.RejectedCreateFreesFirst | backend/internal/application/checkout_service.go:605-613 | between the writes of a refused create the intent is open and its unit is given back |
| PaymentCase.LookupFirstLeavesTheOrderUnpaid | backend/internal/application/checkout_service.go:890-952 | a run from the placed intent with the lookup before the callback: the intent is PAID, the order keeps EXPIRED and the payment is not marked late |
| PaymentCase.FlagsMoveExactly | backend/internal/application/callback_service.go:625-728 | over all moves: the money of an intent becomes held exactly by a reversal that finds it PAID; it is late exactly as the last paid event to find it unpaid says; it is granted exactly when its effects are due and run; effects become due exactly by an event that leaves it PAID |
| PaymentBook.PaidReferenceIsInjective | backend/internal/application/callback_service.go:730-760 | two intents never share a journal reference |
| PaymentBook.AmountsBalanceExactly | backend/internal/application/callback_service.go:730-812 | settled gross equals fee plus net if and only if the net was derived or the order row already balanced |
| PaymentBook.ReferenceMeansSettled | backend/internal/adapters/postgres/queries/callbacks.sql:218-233 | an insert skipped for its journal reference was skipped because that very intent is settled |
| PaymentBook.StepKeepsBook | backend/internal/application/callback_service.go:441-597 | every step keeps the book: settlements, journals, messages, events and indexes agree with the cases |
| PaymentBook.RunKeepsBook | backend/internal/application/callback_service.go:441-597 | so does every run |
| PaymentRuns.EveryRunSettlesOnce | backend/internal/application/callback_service.go:684-857 | over every run: one settlement, one journal and one message of each kind per intent at most; each settlement names a stored paid event of the intent's provider, scope and mode that agrees with its amount and currency; every processed paid event is settled; gross equals fee plus net; journal and settlement carry the same amounts and reference |
| PaymentRuns.SettledExactlyByPaidEvents | backend/internal/application/callback_service.go:441-597 | after any run an intent is settled if and only if some step processed a paid event that passed its checks and resolved to it |
| PaymentRuns.OrderIsPaidExactly | backend/internal/application/callback_service.go:684-728 | after any run an order is PAID if and only if some paid event found its intent unpaid and no closing call wrote the order later |
| PaymentRuns.RunEvolves | backend/internal/application/callback_service.go:441-857 | no run takes back a settlement, a journal, an event, the terms of an intent or its evidence |
| PaymentRuns.SettledAsPlaced | backend/internal/application/callback_service.go:730-857 | whatever came before and after, an intent is settled and posted at the amounts its order was placed with |
| PaymentRuns.EventsReachOnlyTheirIntent | backend/internal/application/callback_service.go:598-624 | an event, processed before or not, changes one intent at most, and only one of its own provider, account scope and mode |
| PaymentRuns.ProcessingTwiceIsOnce | backend/internal/application/callback_service.go:441-597 | processing an event again changes no money row, status or hold; it only makes effects due |
| PaymentRuns.FreshStepKeepsOrder | backend/internal/application/callback_service.go:625-728 | a fresh step keeps every case orderly and every PAID intent PAID |
| PaymentRuns.FreshRunKeepsOrder | backend/internal/application/callback_service.go:625-728 | so does a fresh run |
| PaymentRuns.FreshRunsPayOnEvidence | backend/internal/application/callback_service.go:441-728 | in fresh runs PAID is final, an intent is PAID if and only if it has its evidence, an open intent owns its live holds if and only if no refused create has begun to give them back, a freed hold means closed or a refused create, a used hold means PAID |
| PaymentRuns.PaidExactlyOnEvidence | backend/internal/application/callback_service.go:441-728 | after any run a PAID intent had a paid event processed for it or a call to which the provider answered PAID; in fresh runs if and only if |
| PaymentRuns.PaidIsLeftExactlyByStaleWrites | backend/internal/application/checkout_service.go:814-952 | in any book, a step takes an intent out of PAID if and only if it is a call on it that writes another status, without a clash of provider references |
| PaymentRuns.SerialRunsAreFresh | backend/internal/application/gateway_service.go:762-869 | operations that each run to their end, in any order and number and with any answers, make a fresh run |
| PaymentRuns.SerialUsePaysOnEvidence | backend/internal/application/gateway_service.go:762-869 | hence in serial use PAID is final and evidenced and holds follow the outcome |
| PaymentRuns.EffectsFulfil | backend/internal/application/callback_service.go:814-886 | in any book, running the effects that are due on a PAID intent with a paid callback leaves it settled, posted and granted, with both holds used unless it was closed or its create refused |
| PaymentRuns.DeliveredPaidCallbackFulfils | backend/internal/application/callback_service.go:264-392 | in any book, a delivered paid callback that is not quarantined fulfils its intent if and only if it is new to processing or the intent is still PAID; otherwise nothing at all changes |
| PaymentRuns.EffectsBecomeDueExactly | backend/internal/application/callback_service.go:441-597 | processing an event of any type makes effects due on exactly the intent it names, if that is PAID |
| PaymentRuns.PostedWithoutSettlementExactly | backend/internal/application/callback_service.go:814-857 | after any run a posted intent lacks its settlement if and only if no step processed a paid event for it, and then some call heard PAID |
| PaymentRuns.NoAlertIsEverStored | backend/internal/adapters/postgres/queries/callbacks.sql:79-97 | after any run no event carries an alert |
| CallOutcomes.LookupOutcomes | backend/internal/application/checkout_service.go:890-952 | the row after a lookup, for every row and answer: PAID pays it, EXPIRED closes only an unknown or pending expire, CANCELLED only an unknown cancel, PENDING only resolves an unknown outcome; status, order, holds and columns in each case |
| CallOutcomes.UnknownIsResolvedExactly | backend/internal/application/checkout_service.go:907-951 | an unknown outcome is left if and only if there is a reference and the answer is PAID, PENDING, EXPIRED of an unknown expire or CANCELLED of an unknown cancel; the new status is the answer; PENDING changes no other row |
| CallOutcomes.ExpireOutcomes | backend/internal/application/checkout_service.go:750-887 | the row after an expire request, for every row and answer: who may ask, what ends, pays, stays pending or becomes unknown, and what becomes of the holds |
| CallOutcomes.CancelOutcomes | backend/internal/application/gateway_service.go:762-870 | the row after a merchant cancel, for every row and answer |
| CallOutcomes.CheckoutOutcomes | backend/internal/application/checkout_service.go:480-640 | the stored row after a create call, for every answer, a reference that is taken included |
| CallbackOutcomes.ResolvesExactly | backend/internal/application/callback_service.go:598-624 | after any run: an event is for the intent with its reference at its own endpoint; only without one, for the intent of its mode with its external id if that is of the event's account; it is ambiguous or missing exactly otherwise |
| CallbackOutcomes.ChecksExactly | backend/internal/application/callback_service.go:488-560 | after any run: each of the five reasons to quarantine an event exactly when it is given, and none exactly when its amount and currency agree with the intent it is for |
| CallbackOutcomes.EventsEndExactly | backend/internal/application/callback_service.go:441-597 | processing a stored event: quarantined with its reason and nothing else changed, or processed for its intent; the row before and after for every type and status, the settlement and its two messages with the first paid event alone |
| CallbackOutcomes.HeldExactlyByReversals | backend/internal/application/callback_service.go:629-641 | after any run the money of an intent is held if and only if some step processed a stored, not yet processed reversal that passed its checks, resolved to it and found it PAID |
| CallbackOutcomes.PlacedExactly | backend/internal/application/checkout_service.go:479-548 | after any run an intent is stored if and only if its id and its external id are new, its price adds up and a gateway payment holds nothing; then exactly as a fresh row |
| CallbackOutcomes.EventsAreFirstDeliveries | backend/internal/application/callback_service.go:264-392 | after any run an event is stored if and only if some step delivered it, with the body of the first delivery |
| CallbackOutcomes.ReplayedPaidCallbackFulfils | backend/internal/application/callback_service.go:1091-1132 | in any state of the protocol a stored paid event that is replayed is quarantined or leaves its intent paid, settled, posted and granted |
| CallbackOutcomes.ReplaysExactly | backend/internal/application/callback_service.go:1091-1132 | a replay puts the event back to ACCEPTED whatever became of it, with its body and intent, and changes nothing else |
| CallbackOutcomes.PostsExactly | backend/internal/application/callback_service.go:814-857 | a capture is posted once, at the order's price, 700 of a fee of 700 or more as its fixed part |
| PaymentDesk.Desk.ExpireIntent | backend/internal/application/checkout_service.go:750-888 | the expire call on the tables is the run of its steps |
| PaymentDesk.Desk.CancelPayment | backend/internal/application/gateway_service.go:762-869 | the merchant cancel on the tables is the run of its steps |
| PaymentDesk.Desk.LookupProvider | backend/internal/application/checkout_service.go:890-952 | the lookup on the tables is the run of its steps |
| PaymentDesk.Desk.CreatePayment | backend/internal/application/checkout_service.go:484-670 | insert and create call on the tables are the run of their steps, a taken key or reference included |
| CallOutcomes.CallLeaves | backend/internal/application/checkout_service.go:814-887 | an uninterrupted call changes its own row only, to what its answer concludes |
| CallOutcomes.CheckoutLeaves | backend/internal/application/checkout_service.go:553-640 | an uninterrupted checkout leaves the inserted row active, unknown or failed |
| PaymentDesk.CaptureWithoutSettlement | backend/internal/application/callback_service.go:441-597 | in serial use a lookup that finds the payment and then a PENDING event: the ledger captures, the delivery is granted and no settlement exists |
| PaymentDesk.Desk.ResolvePayment | backend/internal/application/callback_service.go:598-624 | by reference on the whole tuple first, then by external id with the tuple checked |
| PaymentDesk.Desk.CheckEvent | backend/internal/application/callback_service.go:441-560 | the checks of an event in their order, with the mismatch each one quarantines for |
| PaymentDesk.Desk.ApplyNormalized | backend/internal/application/callback_service.go:625-682 | the transition of the row is the one of the payment protocol |
| PaymentDesk.Desk.FinalizePaid | backend/internal/application/callback_service.go:684-728 | a PAID row only gets the settlement it lacks; any other becomes PAID, late if it was closed |
| PaymentDesk.Desk.PostSettlement | backend/internal/application/callback_service.go:730-812 | settlement from the order row and the two messages, once per journal reference |
| PaymentDesk.Desk.PostLedgerForPaid | backend/internal/application/callback_service.go:814-857 | posts the capture once, with the settlement's amounts and reference |
| PaymentDesk.Desk.ProcessEvent | backend/internal/application/callback_service.go:441-597 | transaction, ledger post and effects on the tables are the steps of the book |
| PaymentDesk.Desk.AcceptNormalized | backend/internal/application/callback_service.go:264-392 | a delivery is stored once per event key, then processed |
| PaymentDesk.Desk.ReplayInbound | backend/internal/application/callback_service.go:1091-1131 | an administrator's replay is a step of the book followed by processing |
| RequestText.TextIs | backend/internal/application/checkout_service.go:163-168 | the text holds the fields in their order, joined with bars, the amounts in decimal |
| RequestText.DecimalReadsBack | backend/internal/application/checkout_service.go:170-172 | the decimal rendering of an amount determines it, negative amounts included |
| RequestText.OneTextIsOneRequestExactly | backend/internal/application/checkout_service.go:170-172 | two requests of one text are the same request if and only if no bar moved from one field to another |
| RequestText.TextIsUniqueExactly | backend/internal/application/checkout_service.go:170-172 | a request is the only one of its text in its mode if and only if store, product, code and e-mail hold no bar |
| RequestText.StoresCollide | backend/internal/application/checkout_service.go:170-172 | for any request whose e-mail repeats its mode, offer and tip, another in another store and without a coupon code has the same text |
| Checkout.CreateKeepsShop | backend/internal/application/checkout_service.go:144-640 | a call keeps keys, intents, orders, items, holds, ledger and pool in agreement, and leaves no live coupon hold without an owner but the one it leaks |
| Checkout.LeakLeavesAHold | backend/internal/application/checkout_service.go:306-322 | a coupon granted to a call refused for its amount or fee stays reserved under a key without intent, and nothing else changed |
| Checkout.CallsLeakExactly | backend/internal/application/checkout_service.go:306-322 | a call leaves a new live coupon hold without an owner if and only if it was granted that coupon and then refused for amount or fee |
| Checkout.NewKeysNeverReplayStock | backend/internal/application/inventory_service.go:383-406 | a key without intent never meets an old stock reservation |
| Checkout.StepKeepsShop | backend/internal/application/checkout_service.go:144-640 | calls and all outside moves of ledger and pool keep the agreement |
| Checkout.RunKeepsShop | backend/internal/application/checkout_service.go:144-640 | so does every run |
| Checkout.OneCheckoutPerKey | backend/internal/application/checkout_service.go:484-551 | after any run a key has one intent, one order and one item or none of them, at most one live stock hold, at most one live coupon hold more than calls under it leaked, and its amounts balance |
| Checkout.TwoCouponsUnderOneKey | backend/internal/application/checkout_service.go:306-322 | a run with one leak whose key ends with one checkout and two live coupon holds |
| Checkout.KnownKeysChangeNothing | backend/internal/application/checkout_service.go:175-202 | a call under a known key changes nothing: the same text replays, any other conflicts |
| Checkout.RunKeepsPlaced | backend/internal/application/checkout_service.go:484-521 | no later call or move changes a placed intent, order or item |
| Checkout.KeysAnswerForEver | backend/internal/application/checkout_service.go:175-202 | after any run a key answers with the intent it made, or a conflict |
| Checkout.ClientPricesNeverMatter | backend/internal/application/checkout_service.go:159-162 | a run ends in the same tables as the run with all client amounts set to zero |
| Checkout.OrdersCarryTheAskedPriceExactly | backend/internal/application/checkout_service.go:225-347 | a placed order has the merchandise, discount and tip its request asks if and only if no reservation of its coupon stood under its key or that one was made at the same price; its parts and the policy's fee add up, and the price asked is never below the minimum |
| Checkout.RetriesKeepTheEarlierPrice | backend/internal/application/coupon_service.go:729-747 | after an out-of-stock refusal and any steps, the same key and coupon carry the first request's price, tip and discount with no live hold |
| Checkout.AWholePriceCouponLeaks | backend/internal/application/checkout_service.go:303-305 | a coupon over the whole price: the call leaks |
| Checkout.ADearerProductAtTheEarlierPrice | backend/internal/application/coupon_service.go:729-747 | two calls under one key: the second product costs nine times the first and its order is created at the first price, with a freed coupon |
| Checkout.FeesBalance | backend/internal/domain/platform/fees.go:38-81 | an accepted fee and the seller's part add up to the gross, the fee not negative, the part positive |
| Checkout.CheckoutIsTheCreateCall | backend/internal/application/checkout_service.go:553-640 | rows, coupon and unit end as the payment protocol's create call with the same answer ends its case |
| CheckoutOutcomes.OpeningExactly | backend/internal/application/checkout_service.go:144-234 | each refusal before any hold, the replay and the pass, exactly when it is given, by keys, rows and catalogue |
| CheckoutOutcomes.TextsTellRequestsApart | backend/internal/application/checkout_service.go:163-168 | two requests have one text if and only if store, product, offer, tip, code and e-mail agree, when the strings of one hold no bar |
| CheckoutOutcomes.CouponRequestsAsk | backend/internal/application/checkout_service.go:241-291 | what is asked of the coupon ledger: product, order, key, the buyer by identity, user or e-mail in this order, the server's price, the tip, half an hour |
| CheckoutOutcomes.CouponStepExactly | backend/internal/application/checkout_service.go:269-305 | no code, a standing reservation with its price, a new one, or a refusal: each exactly when the ledger's rows and policy say so |
| CheckoutOutcomes.FeesExactly | backend/internal/domain/platform/fees.go:38-81 | a fee is charged if and only if the gross is positive, within the policy's minimum and maximum and in 64 bits, and leaves the seller something; it is the percentage to the nearest rupiah plus the fixed part |
| CheckoutOutcomes.StockStepExactly | backend/internal/application/checkout_service.go:320-347 | no unit for other products; else the unit of a standing reservation, a unit on sale, or a refusal, exactly |
| CheckoutOutcomes.CallsPlaceExactly | backend/internal/application/checkout_service.go:144-640 | a call stores its intent if and only if it passes the opening, there is a price for it, a fee may be charged on it, and the unit it needs is on sale |
| CheckoutOutcomes.PlacedRowsAre | backend/internal/application/checkout_service.go:420-640 | the order, intent and item of a placed call column by column, what the provider's answer makes of them, and that no other row changes |
| CheckoutOutcomes.OrdersCostWhatWasAsked | backend/internal/application/checkout_service.go:222-234 | a first attempt: without buyer prices the catalogue price, with an offer exactly the offer, without one the larger of catalogue price and minimum; the discount of the coupon's policy; the tip or 0; the policy's fee on the whole |
| CheckoutOutcomes.OrdersOfRunsCostWhatWasAsked | backend/internal/application/checkout_service.go:222-347 | the same in every shop that calls and outside moves of ledger and pool can reach |
| CheckoutOutcomes.RefusedExactly | backend/internal/application/checkout_service.go:269-347 | after the opening: each refusal if and only if it is the first of its kind to apply, by policy, limits, price, fee and stock |
| CheckoutOutcomes.RefusedCallsStoreNothing | backend/internal/application/checkout_service.go:144-347 | a call that stores no intent leaves every row and the pool as they were |
| CheckoutOutcomes.RepeatedCallsReplay | backend/internal/application/checkout_service.go:169-199 | after a placed call the same request answers with its intent, another one under its key is refused, and nothing changes |
| CheckoutDesk.CheckoutService.CheckRequest | backend/internal/application/checkout_service.go:145-241 | the refusals and replays before any hold, in the source's order |
| CheckoutDesk.CheckoutService.PriceProduct | backend/internal/application/checkout_service.go:225-245 | the server's merchandise price and tip |
| CheckoutDesk.CheckoutService.CalculateFee | backend/internal/domain/platform/fees.go:38-81 | the fee or its refusal, 64-bit bounds included |
| CheckoutDesk.CheckoutService.ReserveCoupon | backend/internal/application/checkout_service.go:265-305 | the coupon step on the ledger, a replay bringing its stored price |
| CheckoutDesk.CheckoutService.AskProvider | backend/internal/application/checkout_service.go:553-640 | what each provider answer leaves in rows and holds |
| CheckoutDesk.CheckoutService.CreateIntent | backend/internal/application/checkout_service.go:144-670 | the whole call on the tables equals the step of the model, outcome included |
| CouponLedger.Discount | backend/internal/domain/coupons/pricing.go:9-31 | a discount is never negative nor more than what it applies to |
| CouponLedger.PercentRoundsHalfUp | backend/internal/domain/coupons/pricing.go:9-31 | a percentage discount is within half a rupiah of the exact one, ties upwards |
| CouponLedger.PriceOf | backend/internal/domain/coupons/pricing.go:34-74 | gross is merchandise minus discount plus tip plus upsell, no part negative |
| CouponLedger.MoveCounts | backend/internal/adapters/postgres/queries/coupons.sql:113-120 | ending a live reservation moves exactly one unit of the counters; the guards never drop it |
| CouponLedger.StepKeepsLedger | backend/internal/application/coupon_service.go:690-997 | every operation keeps counters, unique keys and redemptions in agreement with the reservations |
| CouponLedger.RunKeepsLedger | backend/internal/application/coupon_service.go:690-997 | so does every run |
| CouponLedger.EveryRunCounts | backend/internal/application/coupon_service.go:690-997 | after any run reserved equals the live reservations, redeemed equals the consumed ones and the redemption rows |
| CouponLedger.RunKeepsTotal | backend/internal/application/coupon_service.go:769-771 | reserved plus redeemed never exceeds the largest cap the coupon had during the run |
| CouponLedger.CapIsExceededExactly | backend/internal/application/coupon_service.go:284-457 | a step takes a coupon above its cap if and only if it is an edit, at the right version, whose cap is below the slots in use |
| CouponLedger.UndercutCouponExceedsItsCap | backend/internal/application/coupon_service.go:284-457 | a run that ends with two slots in use under a cap of one |
| CouponLedger.RunKeepsBuyer | backend/internal/application/coupon_service.go:772-783 | no identified buyer exceeds the largest per-customer limit of the run |
| CouponLedger.ReserveReplays | backend/internal/application/coupon_service.go:729-747 | the same key answers after any run with the first reservation, in its state by then, and changes nothing |
| CouponLedger.LedgerMovesHolds | backend/internal/application/coupon_service.go:845-903 | release and suspension move the hold as the payment protocol does |
| CouponLedger.ConversionMovesHoldsExactly | backend/internal/application/coupon_service.go:906-997 | a conversion does so if and only if the order is not redeemed under another reservation |
| CouponLedger.EndedReservationsStay | backend/internal/application/coupon_service.go:845-997 | freed and consumed reservations never change again |
| CouponLedger.CouponDesk.CheckReserve | backend/internal/application/coupon_service.go:720-800 | replay, policy, cap, buyer limit and unique order, in this order |
| CouponLedger.CouponDesk.ReserveCoupon | backend/internal/application/coupon_service.go:690-836 | insert and counter adjustment equal the ledger step |
| CouponLedger.CouponDesk.CountBuyerUsage | backend/internal/adapters/postgres/queries/coupons.sql:122-127 | the number of reservations of the buyer that are not released |
| CouponLedger.CouponDesk.ReleaseReservation | backend/internal/application/coupon_service.go:845-903 | idempotent, refuses a consumed row, equals the ledger step |
| CouponLedger.CouponDesk.ConvertReservation | backend/internal/application/coupon_service.go:906-997 | reports a redemption if and only if one exists, equals the ledger step |
| CouponLedger.CouponDesk.MarkHeldUnknown | backend/internal/application/coupon_service.go:1030-1067 | equals the ledger step |
| CouponLedger.CouponDesk.ExpireReservations | backend/internal/application/coupon_service.go:1002-1027 | releases exactly the listed rows that are still reserved and counts them |
| CouponRuns.AnswersExactly | backend/internal/application/coupon_service.go:690-836 | after any run: replayed, unavailable, limit reached or granted, each exactly by the rows: the key, activity, the window at both ends, the minimum, the scope, uses below cap and limit, a free order |
| CouponRuns.ReservesExactly | backend/internal/application/coupon_service.go:690-836 | after any run: under a new identifier a row is stored if and only if all of that holds under a new key; it says what was asked, at the price of the policy, and nothing else changes but the counter |
| CouponRuns.DiscountsAreExact | backend/internal/domain/coupons/pricing.go:9-31 | a fixed discount is its value, a percentage the nearest amount, neither more than the goods |
| CouponRuns.PoliciesChangeExactly | backend/internal/application/coupon_service.go:140-457 | a coupon's policy and version change exactly by its creation and by an edit at its version, for sound policies only |
| CouponRuns.ReservationsWereAdmitted | backend/internal/application/coupon_service.go:744-793 | in any run every stored reservation was made by a step of it, inside the window, scope and limits the policy had then, and still has the price and expiry of that step |
| CouponRuns.StatesAreWhatHappened | backend/internal/application/coupon_service.go:845-1067 | after any run: RELEASED, CONSUMED, HELD_UNKNOWN and RESERVED each if and only if the steps of the run that bring it about, and none that ends it, happened |
| StockPool.StepKeepsPool | backend/internal/application/inventory_service.go:264-591 | every operation keeps units, reservations and unique indexes in agreement |
| StockPool.RunKeepsPool | backend/internal/application/inventory_service.go:264-591 | so does every run |
| StockPool.OneUnitOneReservation | backend/internal/application/inventory_service.go:367-565 | after any run no two active reservations share a unit, each reserved unit has its one live reservation, each delivered unit its one delivered reservation, and back |
| StockPool.FallbacksAreNeverReached | backend/internal/application/inventory_service.go:509-563 | delivery from AVAILABLE and the unit clash at reservation are unreachable |
| StockPool.CountersAddUp | backend/internal/application/inventory_service.go:202-212 | available, reserved, delivered and revoked add up to the units of the product |
| StockPool.StockIsConserved | backend/internal/application/inventory_service.go:264-345 | over any run that sum grows by exactly what was imported |
| StockPool.FinalUnitsStay | backend/internal/application/inventory_service.go:509-591 | DELIVERED and REVOKED are absorbing and a delivered unit keeps its reservation |
| StockPool.ClaimsInOrder | backend/internal/adapters/postgres/queries/inventory.sql:111-121 | whatever is in line before the claimed unit is taken or locked |
| StockPool.PoolReturnsHolds | backend/internal/application/inventory_service.go:472-506 | a release moves the hold as the payment protocol does |
| StockPool.PoolDeliversHoldsExactly | backend/internal/application/inventory_service.go:509-563 | a delivery does so if and only if the unit was not revoked and the order has no unit of the product yet |
| StockPool.ReleaseTwiceIsOnce | backend/internal/application/inventory_service.go:472-506 | a second release changes nothing and no delivery follows a release |
| StockPool.StockDesk.UpdateUnit | backend/internal/adapters/postgres/queries/inventory.sql:123-130 | compare-and-set of a unit's status |
| StockPool.StockDesk.ImportItems | backend/internal/application/inventory_service.go:264-345 | all rows or none, equal to the pool step |
| StockPool.StockDesk.ClaimAvailable | backend/internal/adapters/postgres/queries/inventory.sql:111-121 | finds the first available unlocked unit, or none if there is none |
| StockPool.StockDesk.ReserveStock | backend/internal/application/inventory_service.go:367-469 | equals the pool step, with its outcome |
| StockPool.StockDesk.ReleaseReservation | backend/internal/application/inventory_service.go:472-506 | equals the pool step |
| StockPool.StockDesk.AllocateOnFulfillment | backend/internal/application/inventory_service.go:509-563 | equals the pool step; a failed second update undoes the first |
| StockPool.StockDesk.ExpireReservations | backend/internal/application/inventory_service.go:566-606 | releases the listed claimed rows and counts them |
| StockPool.StockDesk.RevokeItem | backend/internal/application/inventory_service.go:676-709 | equals the pool step on the status that was read |
| StockRuns.RevokedExactly | backend/internal/application/inventory_service.go:676-709 | after any run a unit is REVOKED if and only if some step of it was a revoke that found the unit as it was read and not delivered |
| StockRuns.ReleasedUnitsAreOnSale | backend/internal/application/inventory_service.go:472-506 | after any run: the unit of a live reservation that is released is AVAILABLE if it was RESERVED, keeps its status otherwise, has no holder, no other unit changes, and the next reserve of the product without locks is granted |
| StockRuns.EndsExactly | backend/internal/application/inventory_service.go:472-606 | after any run a reservation is given back or delivered if and only if some step released, expired or delivered it alive |
| StockRuns.UnitsAreWhatHappenedToThem | backend/internal/application/inventory_service.go:367-709 | after any run the four statuses of a unit say exactly whether it was revoked, delivered or held |
| StockRuns.GrantedExactly | backend/internal/application/inventory_service.go:367-469 | after any run a reserve is replayed if and only if its key was used, granted if and only if a unit of the product is available and not locked, and then such a one |
| StockRuns.GrantedTakesTheUnit | backend/internal/application/inventory_service.go:412-469 | a granted reserve takes its unit, stores its row and changes nothing else |
| StockRuns.ImportsExactly | backend/internal/application/inventory_service.go:264-345 | a batch goes in if and only if none of its identifiers and unique keys is there or twice in it; then its units are on sale behind all others, in order |
| AuditChain.BigEndianIsInjective | backend/internal/domain/audit/hash.go:23-58 | fixed-width big-endian numbers are unambiguous |
| AuditChain.FramingIsInjective | backend/internal/domain/audit/hash.go:23-58 | equal hashed bytes mean equal number, previous hash, version and payload |
| AuditChain.FramedReadsBack | backend/internal/domain/audit/hash.go:23-58 | the hashed bytes hold the domain, a zero, number, previous hash, and version and payload behind their lengths, and can be read back |
| AuditChain.CheckRow | backend/internal/application/audit_service.go:355-410 | the tests of one row, in the scan's order, decide whether it fits |
| AuditChain.VerifyChain | backend/internal/application/audit_service.go:313-429 | for any batch size the scan answers OK if and only if the whole log is sound, and otherwise stops at the first row that does not fit |
| AuditChain.ScannedConcludes | backend/internal/application/audit_service.go:313-429 | wherever the scan stands, the rows behind it are sound |
| AuditChain.SoundLogsExactly | backend/internal/application/audit_service.go:355-410 | a log is sound if and only if it is numbered without a gap, its old rows come first, every other row is linked and hashed, and the anchored row is as it was anchored under a good signature |
| AuditChain.AgreeDownFrom | backend/internal/application/audit_service.go:367-420 | from equal hashes downwards two sound logs agree or show a collision |
| AuditChain.TamperingNeedsACollision | backend/internal/application/audit_service.go:367-420 | two launch-version logs sound against one checkpoint agree on every shared number up to it, or exhibit a collision |
| AuditChain.EveryWindowVerifies | backend/internal/application/audit_service.go:313-429 | every window of a sound log is sound |
| AuditChain.RemovalsGoUnseenExactlyAtTheEnds | backend/internal/application/audit_service.go:313-429 | a sound log without a stretch of its rows is sound if and only if that stretch stood at one of its ends |
| AuditChain.AnchorIsSeenExactlyWhenCovered | backend/internal/application/audit_service.go:396-408 | the checkpoint row is compared if and only if the log reaches it |
| AuditChain.PayloadsChangeUnseenExactly | backend/internal/application/audit_service.go:504-513 | a sound log stays sound under a new payload of one row if and only if that makes a legacy row of it after nothing but legacy rows, or a linked modern row before nothing but modern ones that is of another version or has the same hash |
| AuditChain.GrownLogsVerify | backend/internal/application/audit_service.go:104-168 | logs grown by Append, with anchors taken from their rows, are sound |
| AuditChain.AuditLog.Append | backend/internal/application/audit_service.go:104-168 | adds exactly the next numbered, linked and hashed row |
| AuditChain.AuditLog.CreateCheckpoint | backend/internal/application/audit_service.go:273-309 | anchors the head if and only if there is one without an anchor |
| AuditChain.AuditLog.Verify | backend/internal/application/audit_service.go:313-429 | a log grown by this class verifies completely, for every batch size |
| Domains.CasHitsTheRowThatWasRead | backend/internal/adapters/postgres/queries/domains.sql:97-123 | a compare-and-set hits if and only if the row still is the row that was read, in all columns |
| Domains.StepKeepsDesk | backend/internal/application/domain_service.go:126-635 | every sub-step of every caller keeps rows, claims, proofs and flights in agreement |
| Domains.RunKeepsDesk | backend/internal/application/domain_service.go:126-635 | so does every interleaving |
| Domains.EveryStepFollowsTheLifecycle | backend/internal/application/domain_service.go:198-635 | after any interleaving a step leaves a row alone or replaces it by the next version along the lifecycle; ACTIVE comes only from VERIFYING or SUSPENDED after a matching DNS proof read at that version; REMOVING goes only to TOMBSTONED; only tombstones disappear |
| Domains.HostsResolveUniquely | backend/internal/application/domain_service.go:126-193 | at most one row claims a hostname |
| Domains.ResolveHostIsExact | backend/internal/application/domain_service.go:374-401 | a host is served if and only if a routable row claims it, and from that row's store |
| Domains.CooldownIsTheLastRenewal | backend/internal/application/domain_service.go:298-371 | over any run a tombstone that remains has the cooldown of the last delete that tombstoned it again, counted from when that delete began, or its old one |
| Domains.DeletionIsEarlyExactly | backend/internal/application/domain_service.go:456-470 | after any run a row is deleted only by a caller that saw its cooldown elapsed, and early if and only if it was tombstoned again after that look, the last time by a delete that began less than a cooldown ago |
| Domains.ClaimsPassByDeletionOnly | backend/internal/application/domain_service.go:126-193 | a hostname changes rows only through such a deletion |
| Domains.EarlyTakeoverPassesTheHost | backend/internal/application/domain_service.go:298-371 | a run where the host passes on a full cooldown early |
| DomainDesk.VerifyRuns | backend/internal/application/domain_service.go:198-296 | the sub-steps of an uninterrupted verification, taken together |
| DomainDesk.DeleteRuns | backend/internal/application/domain_service.go:298-371 | the sub-steps of an uninterrupted removal, taken together |
| DomainDesk.RevalidateRuns | backend/internal/application/domain_service.go:486-625 | the sub-steps of an uninterrupted revalidation, taken together |
| DomainDesk.SweepRuns | backend/internal/application/domain_service.go:456-470 | what the sweep makes of a listed tombstone |
| DomainDesk.CreateRuns | backend/internal/application/domain_service.go:126-193 | the sub-steps of an uninterrupted creation, taken together |
| DomainDesk.DomainService.UpdateCas | backend/internal/application/domain_service.go:626-635 | the row with the next version, or nothing |
| DomainDesk.DomainService.CreateDomain | backend/internal/application/domain_service.go:126-193 | the method on the tables is the run of its sub-steps |
| DomainDesk.DomainService.VerifyDomain | backend/internal/application/domain_service.go:198-296 | the method on the tables is the run of its sub-steps |
| DomainDesk.DomainService.DeleteDomain | backend/internal/application/domain_service.go:298-371 | the method on the tables is the run of its sub-steps |
| DomainDesk.DomainService.RevalidateDue | backend/internal/application/domain_service.go:456-484 | the job on the tables is the run of its rows' sub-steps |
| DomainDesk.DomainService.ResolveHostname | backend/internal/application/domain_service.go:374-401 | the store of the host, as the model resolves it |
| DomainOutcomes.DnsDecides | backend/internal/application/domain_service.go:198-625 | under any interleaving: what a DNS answer makes a caller write, the 72 hours of grace included |
| DomainOutcomes.EdgeDecides | backend/internal/application/domain_service.go:198-625 | under any interleaving: what an answer of the edge makes a caller write |
| DomainOutcomes.WritesWhatWasDecided | backend/internal/adapters/postgres/queries/domains.sql:97-123 | what was decided is written if and only if the row still is the one that was read |
| DomainOutcomes.MarksExactly | backend/internal/application/domain_service.go:198-371 | the first write of a verification and of a removal |
| DomainOutcomes.VerifyLeaves | backend/internal/application/domain_service.go:198-296 | the row after a verification, column by column, for every row, token and answer |
| DomainOutcomes.DeleteLeaves | backend/internal/application/domain_service.go:298-371 | the row after a removal request, column by column, for every row and answer |
| DomainOutcomes.RevalidateLeaves | backend/internal/application/domain_service.go:486-625 | the row after the job, column by column, for every row and answer: an unproved routed row is suspended exactly after 72 hours without a verification |
| DomainOutcomes.CreateLeaves | backend/internal/application/domain_service.go:126-193 | a host that no row claims, or only an expired tombstone, gets a new row; any other is refused |
| RateLimiter.KeysAreDistinct | backend/internal/application/gateway_service.go:319-322 | different merchants and modes never share a list |
| RateLimiter.AfterSkips | backend/internal/application/gateway_service.go:326-333 | filtering entries out of the window first does not change the window |
| RateLimiter.AfterKeepsExactly | backend/internal/application/gateway_service.go:326-331 | the filter keeps every entry in the window as often as it is there, and no other |
| RateLimiter.WindowsHoldAtMostTheLimit | backend/internal/application/gateway_service.go:319-340 | every half-open minute of a history of admissions holds at most 60 |
| RateLimiter.ClosedWindowsHoldAtMostTwiceTheLimit | backend/internal/application/gateway_service.go:319-340 | a minute with both ends included holds at most 120 calls of any history of admissions |
| RateLimiter.SpacedExactlyWhenAdmitted | backend/internal/application/gateway_service.go:326-336 | the ordered histories that can arise are exactly those whose entries 60 apart are a minute apart |
| RateLimiter.ClosedWindowsCanHoldTwiceTheLimit | backend/internal/application/gateway_service.go:326-336 | a history of admissions with 120 calls in a closed minute |
| RateLimiter.Limiter.CheckRateLimit | backend/internal/application/gateway_service.go:319-340 | admits if and only if fewer than 60 calls of the whole history of that merchant and mode are in the last minute; the stored list stays within 60 |
| RateLimiter.Limiter.Filter | backend/internal/application/gateway_service.go:326-331 | the in-place filter keeps exactly the entries in the window, in order |
| Credentials.RunKeepsVault | backend/internal/application/credential_service.go:159-854 | every interleaving keeps requests, claims, keys and token hashes in agreement |
| Credentials.EveryRunIsExclusive | backend/internal/application/credential_service.go:159-593 | after any run: one outstanding request per merchant and mode, one ACTIVE key per merchant, one ACTIVE claim per request, and one key per request |
| Credentials.KeysComeFromClaims | backend/internal/application/credential_service.go:446-593 | in any run each key came from one exchange of a live token of its request by its recipient, and for LIVE with the capability active |
| Credentials.TokensOpenOne | backend/internal/adapters/postgres/queries/credentials.sql:88-98 | a claim token opens one request at most |
| Credentials.ClaimedStaysClaimedExactly | backend/internal/application/credential_service.go:820-854 | a claimed request stays claimed if and only if the step is not the administrator's write of that request into a free slot |
| Credentials.ReopenedRequestsBlockForEver | backend/migrations/000001_foundation.up.sql:44-46 | no run claims or ends a request that is open although its key is out, and its merchant never gets another key of that mode |
| Credentials.UninterruptedAdminReopensNothing | backend/internal/application/credential_service.go:768-854 | an administrator who is not interrupted leaves every claimed request as it is |
| Credentials.AClaimedRequestIsReopened | backend/internal/application/credential_service.go:768-854 | a run in which a request whose key is out is open again |
| Credentials.CredentialService.RequestIssuance | backend/internal/application/credential_service.go:159-426 | refresh or open a request: the method equals the step |
| Credentials.CredentialService.ClaimExchange | backend/internal/application/credential_service.go:446-593 | the exchange of a token for a key equals the step; a request announced before rolls everything back |
| Credentials.CredentialService.RevokeAPIKey | backend/internal/application/credential_service.go:667-718 | the method equals the step |
| Credentials.CredentialService.AdminSuspendKey | backend/internal/application/credential_service.go:722-765 | the method equals the step |
| Credentials.CredentialService.AdminAuthorizeIssuance | backend/internal/application/credential_service.go:768-854 | find or open, reread and write: the method equals the three steps run together |
| CredentialRuns.KeysAreWhatHappened | backend/internal/application/credential_service.go:446-765 | after any run a key is out if and only if some exchange handed it out, REVOKED if and only if it was revoked or replaced while active, SUSPENDED if and only if it was suspended while active and neither happened |
| CredentialRuns.KeysMoveExactly | backend/internal/application/credential_service.go:667-765 | one step of it: who creates, revokes, replaces and suspends a key |
| CredentialRuns.AskRenewsExactly | backend/internal/application/credential_service.go:200-330 | a request that waits is authorised with a new token of 15 minutes for 7 days, unless LIVE still waits for KYC; its earlier claims are revoked |
| CredentialRuns.AskOpensExactly | backend/internal/application/credential_service.go:330-426 | without one that waits a new request is stored, authorised at once for SANDBOX and where LIVE is allowed |
| CredentialRuns.ExchangesExactly | backend/internal/application/credential_service.go:446-593 | a claimable request: its key is active, the merchant's active key is revoked, the request is claimed, its claims end, and it is announced |
| CredentialRuns.OtherExchangesDoNothing | backend/internal/application/credential_service.go:446-593 | an exchange that no request is claimable by changes nothing |
| CredentialRuns.FindsExactly | backend/internal/application/credential_service.go:768-818 | an administrator with the capability opens a LIVE request where none waits, or takes up the one that waits for KYC |
| CredentialRuns.WritesExactly | backend/internal/application/credential_service.go:820-854 | the write authorises the request with the token that was read, unless another request waits in its place |
| EmailChange.RunKeepsAccounts | backend/internal/application/account_service.go:218-446 | every run keeps users, requests, challenges and addresses in agreement |
| EmailChange.EveryRunKeepsAddressesApart | backend/internal/application/account_service.go:218-446 | no two users share an address and no user has two pending requests |
| EmailChange.AddressesChangeByBothProofs | backend/internal/application/account_service.go:342-446 | after any run an address changes only by a confirmation that uses one live token of that user's pending request after an earlier step used the other; it becomes the address named there, every session is revoked, every token used up, and nobody else touched |
| EmailChange.ProofsComeFromTokens | backend/internal/application/account_service.go:342-400 | a proof that is in came from a confirmation that found exactly that token unused and unexpired |
| EmailChange.ProofsCommute | backend/internal/application/account_service.go:342-446 | the two proofs end the same in either order |
| EmailBlocks.CollisionsBlockForEver | backend/internal/application/account_service.go:400-446 | after a collision, unless the refused proof is given again in time, no run changes the address or accepts a new request of that user |
| EmailBlocks.ACollisionIsReached | backend/internal/application/account_service.go:400-446 | a run from the empty tables to a collision: the other user registers the address between the proofs |
| EmailBlocks.CompletesNowExactly | backend/internal/application/account_service.go:342-446 | both tokens given now complete a pending request if and only if each missing proof has a good token and no other user has the address |
| EmailBlocks.UnusedTokensBlock | backend/internal/application/account_service.go:218-446 | as long as the token of a missing proof is not used in time, no run changes the address or accepts a new request of that user |
| EmailBlocks.BlockedForEverExactly | backend/internal/application/account_service.go:218-446 | a user with a pending request keeps the address and is refused in every run from a time on if and only if there is no chain of pending requests with good tokens, each naming the address of the next one's user, that ends in an address no one else has or a holder without a request |
| EmailBlocks.UncontestedBlockedExactly | backend/internal/application/account_service.go:218-446 | when no other user has the address, if and only if the token of a missing proof has expired |
| EmailBlocks.AnUnansweredRequestBlocks | backend/internal/application/account_service.go:218-319 | in any run from the empty tables, a user one token of whose request is not used in time keeps the address for the rest of the run and gets no further request |
| EmailChange.AccountService.RequestEmailChange | backend/internal/application/account_service.go:218-332 | the method equals the step, with its refusals |
| EmailChange.AccountService.ConfirmEmailChangeProof | backend/internal/application/account_service.go:342-446 | the method equals the step; a refusal undoes the use of the token |
| EmailOutcomes.RequestAnswersExactly | backend/internal/application/account_service.go:218-290 | the six answers to a change request, each exactly when it is given |
| EmailOutcomes.RequestsExactly | backend/internal/application/account_service.go:290-332 | a sent request stores itself and two tokens of half an hour; any other changes nothing |
| EmailOutcomes.ConfirmAnswersExactly | backend/internal/application/account_service.go:342-446 | the four answers to a confirmation, each exactly when it is given |
| EmailOutcomes.ConfirmsExactly | backend/internal/application/account_service.go:342-446 | the first proof is noted; with the second the address moves, the request is completed and every session and token of the user ends; a contested one changes nothing |
| DailyAggregates.TallyIsTotal | backend/internal/application/analytics_service.go:412-472 | each cell of the accumulated table is the total over the source rows, and a cell exists if and only if a row counts in it |
| DailyAggregates.MeasuresAreSums | backend/internal/application/analytics_service.go:412-472 | each measure of a cell is the sum of the counts of its kind: sessions, views of pages and products, started checkouts, orders, gross; started sessions count nowhere |
| DailyAggregates.AllIsTheSumOfChannels | backend/internal/application/analytics_service.go:430-472 | the row of all channels is the sum of the channel rows in all five measures |
| DailyAggregates.ProductsAddUpToAtMostTheDay | backend/internal/application/analytics_service.go:458-472 | product rows never add up to more than the day |
| DailyAggregates.TableIgnoresOrder | backend/internal/application/analytics_service.go:397-503 | permuted source rows give the same table |
| DailyAggregates.RebuildingTwiceIsOnce | backend/internal/application/analytics_service.go:376-503 | a second rebuild leaves the table and days outside the range alone |
| DailyAggregates.DailyTable.RebuildDailyAggregates | backend/internal/application/analytics_service.go:376-505 | the loops and upserts write exactly the rebuilt table, or refuse the range |
| OrderMoney.PriceOrder | backend/internal/application/delivery_service.go:112-141 | the priced order, or the reason it is refused |
| OrderMoney.PricedExactly | backend/internal/application/delivery_service.go:112-141 | which discount and tip count, and exactly when an order is refused for its price or for nothing to pay |
| OrderMoney.PricingConservesMoney | backend/internal/application/delivery_service.go:112-141 | gross is subtotal minus discount plus tip and also fee plus net, no part negative |
| OrderMoney.FeeIsNearest | backend/internal/application/delivery_service.go:1147-1153 | the fee is within half a rupiah of 3% plus 700 |
| OrderMoney.FeeAndNetAreMonotone | backend/internal/application/delivery_service.go:131-141 | fee and net never fall when the gross rises |
| OrderMoney.RefusedExactlyBelow722 | backend/internal/application/delivery_service.go:131-137 | an order is refused for its fee if and only if its gross is between 1 and 721 |
| StoreSlug.CollapseSurvivesReplacing | backend/internal/application/authz_service.go:403-405 | one replacement pass does not change what collapsing gives |
| StoreSlug.ReplacingShortens | backend/internal/application/authz_service.go:403-405 | a pass shortens every string with a double dash, so the loop ends |
| StoreSlug.CollapseDashes | backend/internal/application/authz_service.go:403-405 | the loop equals collapsing every run of dashes in one pass |
| StoreSlug.NormalIsWellFormed | backend/internal/application/authz_service.go:392-406 | the slug has only a-z, 0-9 and single inner dashes |
| StoreSlug.NormalJoinsTheWords | backend/internal/application/authz_service.go:392-406 | the slug of a text is its words joined by single dashes: spaces, underscores and dashes end a word, any other sign but a letter or digit is dropped |
| StoreSlug.NormalFixesTheWellFormed | backend/internal/application/authz_service.go:392-406 | normalising leaves a string alone if and only if it is well formed |
| StoreSlug.NormalisingTwiceIsOnce | backend/internal/application/authz_service.go:392-406 | normalising again changes nothing |
| StoreSlug.NormalizeSlug | backend/internal/application/authz_service.go:392-413 | the slug or its fallback; well formed and at least three characters when the generated id is well formed |
| StoreSlug.FallbackIsWellFormed | backend/internal/application/authz_service.go:407-413 | cutting the fallback at 40 characters keeps it well formed |
| StoreSlug.FallbackIs | backend/internal/application/authz_service.go:407-413 | the fallback is the identifier behind "store-", cut at 40 characters and without a last dash |
| StoreSlug.SelectionIsAllowed | backend/internal/application/authz_service.go:360-376 | the chosen store is allowed whenever one is; a preference wins if and only if it is allowed, then the canonical store |

## Left out

- HTTP, SQL adapters, Redis, mail, object storage, provider clients and the frontend; store calls have the contract of their queries and always succeed or fail as those say.
- Store failures in the middle of an operation, and the FAILED and PROCESSING states of an event: the first would add a rollback to every step, the others are never committed.
- Hashing, signatures, encryption, token generation and JSON canonicalisation: injective or arbitrary functions.
- Parsing, token and signature checks of callbacks: an event arrives normalised, with a flag for its validity.
- Two concurrent calls of CreateIntent under one key: the loser releases the holds it replayed from the winner, so a call is one step per key.
- In Checkout the coupon, stock and row transactions of a call and its writes after the provider's answer are one step; PaymentCase takes those last writes one by one.
- The releases of holds inside a callback are part of its step, although the coupon and stock services commit them in transactions of their own.
- The compare-and-set of CreateIntent's unique references: Checkout stores the reference it was given; PaymentDesk models the clash.
- The status of an intent after its creation is modelled by the payment modules, not again in Checkout.
- Expiry of idempotency records, their lease and their stored response; Checkout keeps the key for ever, as the intents do.
- Trimming and lower-casing of coupon codes and e-mail addresses, Unicode folding of slugs: the folded text is the parameter.
- 64-bit overflow, except in the fee calculation of the checkout, where the source refuses it.
- The preceding-status column and lookup counters of an intent, which nothing reads back.
- Currency spelling variants in callbacks: currencies are compared as they are.
- SimulatePayment, TTL sweeps and seller revokes inside the hold theorems of payments; the coupon ledger and the stock pool have both.
- Delivery grants beyond their existence, with Retry, ForceFulfill, RevokeAccess and MarkDeliveryFailed: single guarded moves.
- Invoices, webhooks, notifications and analytics capture: side effects that never feed back.
- Withdrawals, balances and ledger accounts: of the ledger only the capture posted once per reference is used.
- Coupon quotes, catalogue revisions and the product checks inside coupon reservation: the caller has made them in the same step.
- Coupon scope lists are part of the policy, not rows of their own.
- Stock schemas, encryption and reveal: payloads play no part in who gets a unit.
- The head table of the audit log and its lock: appends are one after the other.
- AuditChain.VerifyChain: scans a log that does not change meanwhile, because the source reads it in batches without a lock.
- Search and export of audit rows.
- Edge provisioning itself: the theorems on domains are about rows, and the edge may answer anything.
- TLS status changes of a domain other than those the modelled operations make.
- Claim attempt counters, key versions, MFA and session binding, and the idempotency record of a credential request: single checks, or not invariants.
- Sign-in, password, profile and role management.
- The rebuild of daily aggregates is one step although the source does not wrap it in a transaction.
- PaymentRuns.FreshRunsPayOnEvidence: is about runs whose status writes find the row their call left or saw, because a stale write breaks it; the exact condition is in PaymentRuns.PaidIsLeftExactlyByStaleWrites.
- RateLimiter.WindowsHoldAtMostTheLimit: is about half-open minutes, because a closed minute can hold twice the limit; RateLimiter.ClosedWindowsHoldAtMostTwiceTheLimit is its bound.
