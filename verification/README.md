# Commerce, alerts and operations: a model and its proofs

This project models the parts of the ZedBot services where a wrong interleaving costs money or silences an
operator, and proves what they keep. The money path comes first: wallet settlement, the ledger, discounts,
provisioning, operations on existing services and the Redis lock that serialises them. Around it stand the
low-balance alerts, the mandatory-channel policy, the log-group switch-over, the migration lifecycle, sealed
quotes, the payment-notification signature, and the catalog and its public ids.

`dafny verify dfyconfig.toml` checks everything; no file needs another project.

## How the model is built

- **State and transactions.** `CommerceDb.Db` holds the commerce tables. A database transaction is a function from
  state to state (`Settlement.SettleTx`, `Execution.RefundDefinite`, `Operations.ClaimOperation`, …). The classes
  `CommerceStore.Database`, `LowBalance.AlertDesk`, `ChannelHealth.Policy`, `LogGroupSetup.SetupDatabase` and
  `LockClient.HeldLock` hold the same tables and flags as mutable fields and issue the statements in the order the
  code does, with rollback; each method is proved equal to its function on the old state.
- **Runs.** Where processes interleave, a `World` holds the shared state and the position of every process, `Step`
  performs one event and `Run` any sequence of them. Everything outside the code's control (panel answers, database
  errors, clock readings, lost replies, crashes) is a parameter of the event. The main results quantify over all
  event sequences: `SettlementCalls`, `Provisioning` with `ProvisioningEffects` and `ProvisioningRace`,
  `OperationRuns` with `OperationEffects` and `OperationTotals`, `ServiceLock`, `LowBalanceRuns`,
  `ChannelHealthRuns`, `LogGroupRuns`. The two `Effects` modules compare the tables with what the panels hold, so a
  request that lands late counts although no row mentions it.
- **Calls.** `PurchaseCalls`, `OperationCalls` and `LogGroupJobs` (with `SettlementCalls.NewKeyCall`) follow one process
  through such a run and say what each answer leads to, field by field: first between any two of its steps, whatever the
  others do meanwhile, then for a whole call.
- **Algorithms.** Loops that fill maps or track maxima are methods with loops (`Migrations`, `MigrationDeployment`,
  `CanonicalJson.SortKeysDeep`, `Options.DropColliding`, `Catalog`), each proved against a specification whose own
  properties are proved beside it.

Amounts, volumes and times are unbounded integers, times in milliseconds; row ids are strings.

## Where the code is weaker than its comments

- A duplicate that carries the winner's draft is told DRAFT_STALE, not the winner's result: `SettlementCalls.RaceLoser`
  (comment at packages/service-renewal/src/settlement.ts:553-555).
- A positive discount without a code id leaves no usage row: `Settlement.NamelessDiscountLeavesNoUsage`.
- The reconciler calls an operation applied when one recorded component matches, and untouched only when both match
  what the row said before. An operation that keeps a component is judged applied; extra time, an unlimited service
  (reported as null, recorded as 0) and an expiry that Marzban rounds to a second are never judged right.
  `Operations.ReconciliationExact` gives the exact condition, `Operations.UntouchedNeverRefunded` the orders that stay
  unsettled.
- The reconciler reads the order's status before it takes the lock, and completes without looking again. Two of them
  can record one operation twice (`OperationRuns.SomeRunSpoils`), and can refund and deliver one purchase
  (`ProvisioningRace.SomeRunSpoils`). `OperationRuns.AtMostOneEffect` and `Provisioning.PurchaseOutcomes` say exactly
  when.
- The reconciler is meant to refund only what a read of the panel proved undone (comment at
  packages/service-renewal/src/execution.ts:318-319), but a read cannot prove that a request on its way will not land
  afterwards. `OperationEffects.SomeRunRefundsAndLands` builds such a run; `OperationEffects.TablesMatchPanel` and
  `ProvisioningEffects.TablesMatchPanels` say exactly when tables and panels part.
- Marzban's operations answer a failed or timed-out update as a plain refusal
  (packages/panel-adapters/src/marzban/marzban.adapter.ts:726-728), which the executor takes as definite and refunds;
  if the update landed, `OperationEffects.FalseRefusalRefundsAndLands` is what happens.
- Buying by public id takes two rows and filters afterwards, which can sell an ambiguous product or refuse an
  unambiguous one; `Purchasable.RightForEveryOrder` gives the exact condition.
- A `__proto__` member of a payment notification is outside the signature: `CanonicalJson.PrototypeMemberNotCovered`.
- A successful membership check clears the failure window only if the caller's snapshot showed a failure
  (`ChannelHealth.RecordSuccess`), so `ChannelHealthRuns.RetirementIsJustified` speaks of cleared windows, not of
  every successful check.
- The owner's access test clears the window without the configuration lock, so a failure that has read its row writes
  the cleared count back and can retire the channel on a repaired outage (comment at
  apps/bot/src/services/force-join/force-join-channel.service.ts:434-436): `ChannelHealthRuns.RetirementIsJustified`
  says exactly when, `ChannelHealthRuns.SomeRetirementIsOvertaken` builds such a run.
- An open cycle without a message is not only left over from old data (comment at
  packages/database/src/low-balance-core.ts:165-168): notification cleanup deletes delivered messages past their
  retention, after which a backfill tells the user of the same episode again.
  `LowBalanceRuns.BackfillTellsOncePerEpisode` says exactly when, `LowBalanceRuns.CleanupRepeatsAlert` builds such a run.
- The check before sending reads the balance before it locks the state row (comment at
  apps/worker/src/notifications/low-balance-eligibility.ts:100-102), so the balance it re-arms by may be out of date;
  in `LowBalanceRuns` it is any balance.
- A migration with a stuck attempt and another that is not stuck, both started last, is classified by input order:
  `Migrations.OrderFreeIffLastStartedAgree`.

## Model

| member | source | states |
|---|---|---|
| Ledger.ChainBalances | packages/service-renewal/src/settlement.ts:493-513 | a user's ledger rows that chain without a gap (each row's before is the previous row's after) take the balance from start to start − spends + refunds |
| Ledger.ChainJoins | packages/service-renewal/src/settlement.ts:493-513 | in such a chain, two consecutive rows of one user join: the before of the later is the after of the earlier |
| Ledger.RefundsNeverExceedSpends | packages/service-renewal/src/execution.ts:81-100 | when every refund answers an earlier spend of the same order, user and amount, and no order is refunded twice, no user is refunded more than spent; proved by an injection of refunds into spends |
| Ledger.MoneyConserved | packages/service-renewal/src/settlement.ts:476-513 | the money invariant read off the rows: balance = initial − spends + refunds, never negative from a non-negative start, and the stored totals equal the row sums |
| Ledger.RecordSpend | packages/service-renewal/src/settlement.ts:476-513 | a new order with one spend row keeps the whole money invariant: chains, totals, refunds answered, one spend per order |
| Ledger.RecordRefund | packages/service-renewal/src/execution.ts:81-100 | crediting a spent order once keeps the same invariant |
| Discount.DiscountAmountBounds | packages/service-renewal/src/discount.ts:63-70 | the discount lies in [0, price]; a percentage in 0..100 is the exact floor and is never cut, outside it the nearer end is taken; a fixed value is taken whole up to the price, and the price beyond it |
| Discount.ValidationAgreesWithClaim | packages/service-renewal/src/discount.ts:96-133 | on one state the read-only validation accepts a code row if and only if the claim inside the payment would succeed and the audience fits |
| Discount.TypedCodeAgreesWithClaim | packages/service-renewal/src/discount.ts:79-142 | the same for what was typed: accepted if and only if, trimmed, it has 1 to 64 characters and names, exactly or in upper case, a code that the claim would take for this audience; MALFORMED exactly for the other lengths |
| Discount.FirstReasonIsReported | packages/service-renewal/src/discount.ts:96-133 | a code row is refused with the first reason that applies in the order of the checks, and accepted when none does; each reason spelled out |
| Discount.TextIsJudgedAsNamed | packages/service-renewal/src/discount.ts:86-98 | text of no or more than 64 characters is malformed, text that names nothing is unknown, and any other is judged as the code it names: as typed, else in upper case |
| WhiteSpace.TrimDropsEnds | packages/service-renewal/src/discount.ts:86 | trimming cuts out a stretch of the text: only white space is dropped, and none is left at either end |
| Discount.ClaimKeepsCaps | packages/service-renewal/src/discount.ts:180-250 | every claim keeps counter = usage rows, both limits respected and at most one usage per checkout |
| Settlement.FingerprintBindsPurchase | packages/service-renewal/src/settlement.ts:168-191 | two requests share a payload fingerprint text if and only if they agree in every field the money depends on (NUL-free fields, no optional field a bare dash) |
| Settlement.FingerprintUpToDashes | packages/service-renewal/src/settlement.ts:183 | without the dash condition: two NUL-free requests share a fingerprint text if and only if they agree once a bare dash in an optional field is read as absent |
| Settlement.AbortChangesNothing | packages/service-renewal/src/settlement.ts:343-552 | the database changes if and only if the transaction commits |
| Settlement.SettleKeepsInv | packages/service-renewal/src/settlement.ts:343-547 | a settlement, committed or not, keeps money, key pairing, discount caps and usages in order, for all states and requests that passed the boundary |
| Settlement.NamelessDiscountLeavesNoUsage | packages/service-renewal/src/settlement.ts:527 | a positive discount without a code id settles at the reduced price and records no usage |
| SettlementCalls.TakenKeyLoads | packages/service-renewal/src/settlement.ts:238-267 | a taken idempotency key always loads, and what it loads is its own payment, order, checkout and ledger row |
| SettlementCalls.ExactlyOncePerKey | packages/service-renewal/src/settlement.ts:316-326 | over every interleaving of concurrent, repeated and crashing calls, all answered calls of one key report one purchase and at most one of them was charged |
| SettlementCalls.OnePurchasePerKey | packages/service-renewal/src/settlement.ts:392-513 | over every such run a key has at most one payment, and that payment exactly one deduction row, of its amount, and at most one order |
| SettlementCalls.CapsHoldInEveryRun | packages/service-renewal/src/settlement.ts:525-538 | over every such run the discount counters equal the rows, stay under the total and per-user limits, a checkout has at most one usage, and an order with a code and a positive discount has exactly one |
| SettlementCalls.ReplayReturnsOriginal | packages/service-renewal/src/settlement.ts:316-326 | whatever runs before and in between, a later call with an answered key moves no money and returns the original result if its fingerprint matches, IDEMPOTENCY_CONFLICT otherwise, ahead of every gate |
| SettlementCalls.RaceLoser | packages/service-renewal/src/settlement.ts:346-365 | a call that meets a taken key inside its transaction gets DRAFT_STALE exactly when its own draft can no longer be settled, as it never can when that is the winner's draft; otherwise it gets the winner's result or, with another fingerprint, IDEMPOTENCY_CONFLICT |
| CommerceStore.Database.SettleTransaction | packages/service-renewal/src/settlement.ts:343-547 | the statements in the order the code issues them, with rollback, compute exactly the transaction whose rows `Settlement.OrderAsAsked`, `PaymentAsAsked`, `ChargedOnce` and `UsageAsAsked` spell out |
| Settlement.SettlesExactlyWhen | packages/service-renewal/src/settlement.ts:346-547 | it commits exactly when the draft is as priced, key and checkout are new, the buyer is active, the reservation stands, the balance suffices and the discount stands; otherwise it reports the first of these that fails, in this order |
| Settlement.OrderAsAsked | packages/service-renewal/src/settlement.ts:416-454 | a committed settlement adds one order, PAID, with the request's user, kind, product, service, gigabytes, days, price, discount and code, and the new payment and checkout |
| Settlement.PaymentAsAsked | packages/service-renewal/src/settlement.ts:366-415 | it adds one payment of the price under the key and fingerprint, naming the order, and settles one checkout with it: the draft, otherwise as it was, or a new one with the request's user, kind, product and price |
| Settlement.ChargedOnce | packages/service-renewal/src/settlement.ts:476-513 | the buyer alone is charged, the price once, by one ledger row from the old balance to the new, which is the receipt's row |
| Settlement.UsageAsAsked | packages/service-renewal/src/settlement.ts:525-538 | a positive discount with a code adds one usage, by this buyer for this order and checkout, and counts it; any other settlement adds none |
| SettlementCalls.NewKeyCall | packages/service-renewal/src/settlement.ts:289-571 | a call with a new key from beginning to end: refused at a shut gate, otherwise ended as its transaction does, by the first obstacle or charged once and told the balance that is left |
| Settlement.BoundaryAdmitsPriced | packages/service-renewal/src/settlement.ts:118-142 | the boundary lets through exactly the priced requests with safe integer amounts equal to the frozen copy |
| CommerceStore.Database.ClaimDiscountUsage | packages/service-renewal/src/discount.ts:180-250 | the imperative claim equals the claim function on the old tables |
| Execution.RefundOutcome | packages/service-renewal/src/execution.ts:75-109 | a refund closes and credits an order exactly when it was open, in full, to its buyer, and touches no other order |
| Execution.OpenRefundPaysBack | packages/service-renewal/src/execution.ts:75-109 | whatever earlier reading of an open, unrefunded order a refund works from: the order becomes FAILED, its buyer's balance and refund total rise by the whole price, one row records it with the order's payment, and nothing else changes |
| Execution.DeliveryStatus | packages/service-renewal/src/execution.ts:193-215 | a delivery completes from PROVISIONING only, an adoption from any status, and neither stores a second service |
| CommerceStore.Database.RefundOrder | packages/service-renewal/src/execution.ts:75-109 | the refund's statements equal the refund function, including the order of the existing-row test and the flip |
| CommerceStore.Database.PersistProvisioned | packages/service-renewal/src/execution.ts:193-215 | a second delivery changes nothing; a first leaves the order with exactly one service, touches no other service or order, and completes from PROVISIONING only, never without the service |
| CommerceStore.Database.AdoptProvisioned | packages/service-renewal/src/execution.ts:342-358 | a second adoption changes nothing; a first leaves the order with exactly one service, touches no other service or order, and completes whatever the status |
| Provisioning.PurchaseOutcomes | packages/service-renewal/src/execution.ts:139-220 | over every interleaving of provisioners, reconcilers (stale reads included), settlements, crashes and late requests, whatever the panels answer: every order is COMPLETED exactly when one service was delivered, to its buyer, FAILED exactly when its full price was refunded once, and never both, if and only if no reconciler adopted an account for an order that was no longer open |
| Provisioning.ReportsStayTrue | packages/service-renewal/src/execution.ts:320-361 | in the runs without such an adoption, what any call reported about its order stays true for the rest of the run |
| Provisioning.WalletsAddUp | packages/service-renewal/src/execution.ts:75-109 | in every run, with such adoptions too, each wallet's rows chain from its initial to its current balance, the balance is initial − spends + refunds and not negative, and refunds do not exceed spends |
| ProvisioningRace.SomeRunSpoils | packages/service-renewal/src/execution.ts:320-358 | the bad runs exist: for every paid purchase, with every panel answer true when given, a create request times out, one of two reconcilers finds no account and refunds, the request lands, the other adopts the account and completes |
| ProvisioningEffects.AtMostOneCreate | packages/service-renewal/src/execution.ts:164-188 | in every run at all, at most one create request is sent per order, and an account is there or on its way only after one |
| ProvisioningEffects.TablesMatchPanels | packages/service-renewal/src/execution.ts:139-361 | in every run the tables are true of the panels (a service has its account there or on its way, a refunded order has neither, never both) if and only if no step refunded an order whose account was there or on its way, and no reconciler adopted an account that was neither or for an order that was no longer open |
| ProvisioningEffects.ProvisionersDeliverOrRefund | packages/service-renewal/src/execution.ts:139-220 | without reconcilers and with definite refusals that are true, in every run: COMPLETED has one service, no refund and its account there or on its way; FAILED has one refund, no service and no account, and none can come; PAID was never called for (which answer leads where: `PurchaseCalls`) |
| PurchaseCalls.RefusalIsRefunded | packages/service-renewal/src/execution.ts:187-190 | in every run without a late adoption, whatever the others do in between: after a definite refusal the next step of the call leaves the order FAILED and pays the whole price back to the buyer, exactly once, and the call reports Refunded(true) |
| PurchaseCalls.UnusableIsRefunded | packages/service-renewal/src/execution.ts:155-157 | a paid order whose panel no longer fits is refunded in the same way, or was just refunded by another call; it is never delivered |
| PurchaseCalls.AbsenceIsRefunded | packages/service-renewal/src/execution.ts:334-337 | a reconciler that finds no account for sure pays an open order back and leaves a closed one alone, and reports truly which it was |
| PurchaseCalls.CreationIsDelivered | packages/service-renewal/src/execution.ts:192-215 | after a created account the order is COMPLETED with one service: the buyer's, under the target's username, with the order's gigabytes and days; with the lock lost nothing is written |
| PurchaseCalls.PresenceIsAdopted | packages/service-renewal/src/execution.ts:342-358 | a reconciler that finds the account completes an open order with the figures the panel reported, and the bought gigabytes where it reported no limit |
| PurchaseCalls.UnclearIsLeft | packages/service-renewal/src/execution.ts:188-191 | an unclear answer, to the request or to a read, changes no table and is reported UNDECIDED |
| PurchaseCalls.BoughtIsDelivered | packages/service-renewal/src/settlement.ts:416-454 | from payment to service: a request that settled and whose account is then created, whatever ran before and between, stores for its buyer the gigabytes and days it asked for |
| PurchaseCalls.LockedLook | packages/service-renewal/src/execution.ts:164-175 | under the lock a delivered order is reported, one that is not PAID is left, and only the claim of a PAID one leads to the panel |
| PurchaseCalls.ProvisionCall | packages/service-renewal/src/execution.ts:139-220 | a whole call after any run, its target free: the outcome and all tables for every status, placement, answer and lost lock |
| PurchaseCalls.ReconcileCall | packages/service-renewal/src/execution.ts:320-361 | a whole reconciliation after any run, its target free: the outcome and all tables for every status and every read |
| Operations.ReconciliationExact | packages/service-renewal/src/execution.ts:363-395 | for all services, orders, clock readings and panel expiry units, the reconciler's verdict is right on both an untouched panel and one that did as asked if and only if `ToldApart`: the service had a volume limit and a whole expiry, no recorded component keeps its value and one can be read back; extra time never qualifies |
| Operations.ExtraVolumeMisjudged | packages/service-renewal/src/execution.ts:373 | extra volume on a service with an expiry that the panel keeps exactly: an untouched panel is judged to have applied it |
| Operations.ExtraTimeMisjudged | packages/service-renewal/src/execution.ts:373 | extra time on a service with a volume limit: an untouched panel is judged to have applied it |
| Operations.UntouchedNeverRefunded | packages/service-renewal/src/execution.ts:375-377 | an untouched service without a volume limit, which the panel reports as null, or with an expiry that the panel rounds, is never judged untouched, so no reconciler refunds its order |
| OperationRuns.UnlimitedReadNeverRefunds | packages/service-renewal/src/execution.ts:375-380 | in any world of a run a reconciler that reads no volume limit does not go on to refund |
| Operations.OneOperationAdds | packages/service-renewal/src/execution.ts:224-238 | one operation with a finite grant and an echoed answer adds exactly its volume and at least its days; a granted volume makes all that remains the limit, without one the limit stays; owner and username stay |
| Operations.EchoedOperationStores | packages/service-renewal/src/execution.ts:224-238 | for every echoed answer, kind by kind: extra volume and a finite renewal store the old remaining volume plus the granted gigabytes as limit and rest; extra time keeps a positive limit and the rest and adds its days from the later of now and the expiry; a renewal without a volume stores 0; `used` is what was reported, or 0 |
| Operations.ReportedFiguresWin | packages/service-renewal/src/execution.ts:298-306 | for every answer: each reported figure is stored as reported, each missing one as asked, or as 0 |
| Operations.ExpectedAsks | packages/service-renewal/src/execution.ts:224-238 | what the panel is asked for, kind by kind, in the same terms |
| Operations.InvalidGrantsAre | packages/service-renewal/src/execution.ts:265-268 | a grant is invalid exactly for extra volume without gigabytes or without a limit to add to, and extra time without days or without an expiry |
| Operations.QuotedIsAsked | packages/service-renewal/src/checkout.ts:556-567 | an extra-time order executed at the moment of its quote asks for exactly the quoted expiry |
| OperationRuns.LastIntentIsOwn | packages/service-renewal/src/execution.ts:364 | what a reconciler judges by was recorded for this very order, by the last such event |
| OperationCalls.RefusalIsRefunded | packages/service-renewal/src/execution.ts:290-294 | in every run without a stale completion, whatever the others do in between: after a definite refusal the next step pays the whole price back, exactly once, with the order FAILED and Refunded(true) reported |
| OperationCalls.UnfitIsRefunded | packages/service-renewal/src/execution.ts:258-268 | a paid operation whose service is missing, another user's or deleted, whose panel is not active, or which grants nothing, is paid back in the same way without a call to the panel |
| OperationCalls.AcceptanceIsStored | packages/service-renewal/src/execution.ts:296-311 | after an accepted call row, event and COMPLETED are stored together on the row as it was under the lock, with the reported figures or what was granted; with the lock lost nothing is written |
| OperationCalls.ShownIsCompleted | packages/service-renewal/src/execution.ts:382-395 | a reconciler that reads a value that was asked for completes the order with the row as read, keeping use and rest where the panel reported none |
| OperationCalls.UntouchedIsRefunded | packages/service-renewal/src/execution.ts:374-379 | a reconciler that reads everything as before pays an open order back and leaves a closed one alone |
| OperationCalls.UnclearIsLeft | packages/service-renewal/src/execution.ts:290-294 | an unclear answer changes no table and is reported UNDECIDED |
| OperationCalls.RunKeepsRead | packages/service-renewal/src/execution.ts:256-306 | in every such run the service that an executor decided on is, until it is done, the service that is stored |
| OperationCalls.OperateCall | packages/service-renewal/src/execution.ts:240-316 | a whole call after any run, its service unlocked: outcome and all tables for every order, service, grant, answer and lost lock; the claim records what the service was and what is asked, kind by kind |
| OperationCalls.ReconcileCall | packages/service-renewal/src/execution.ts:363-397 | a whole reconciliation after any run: completed as read, refunded in full, or left, by what the panel shows |
| OperationRuns.AtMostOneEffect | packages/service-renewal/src/execution.ts:240-398 | over every interleaving of executors and reconcilers of many orders, crashes and late requests: each order is recorded as applied or refunded at most once and never both, if and only if no reconciler completed an order that was no longer open |
| OperationRuns.StatusTellsEffect | packages/service-renewal/src/execution.ts:240-398 | in the runs without such a completion, COMPLETED means recorded as applied exactly once, FAILED means refunded exactly once, and the money invariant holds |
| OperationRuns.SomeRunSpoils | packages/service-renewal/src/execution.ts:320-322 | the bad runs exist: for every valid paid operation two reconcilers that read the status before the lock record it as applied twice |
| OperationEffects.AtMostOneCall | packages/service-renewal/src/execution.ts:279-289 | in every run at all, each order makes at most one call to the panel, which takes effect at most once |
| OperationEffects.TablesMatchPanel | packages/service-renewal/src/execution.ts:240-398 | in every run the tables are true of the panel (an order recorded as applied has its call landed or on its way, a refunded one has neither, never both) if and only if no step refunded an order whose call had landed or was on its way, and no reconciler completed one whose call was gone or one that was no longer open |
| OperationEffects.ExecutorsApplyOrRefund | packages/service-renewal/src/execution.ts:240-316 | without reconcilers and with definite refusals that are true, in every run: COMPLETED was applied once, its one call took effect and nothing was refunded; FAILED was refunded once and its call never took effect and never will; PAID was never called for |
| OperationEffects.SomeRunRefundsAndLands | packages/service-renewal/src/execution.ts:374-379 | one reconciler is enough: for every valid paid operation whose untouched panel is judged correctly, and with no lie from the panel, a run refunds the order and its call then takes effect |
| OperationEffects.FalseRefusalRefundsAndLands | packages/service-renewal/src/execution.ts:290-294 | one executor is enough when a panel refuses for certain what it has done: a run without reconcilers refunds an operation that took effect |
| OperationTotals.NoLostUpdates | packages/service-renewal/src/execution.ts:224-316 | whatever the interleaving of executors, with echoed answers and finite grants a service holds its initial volume plus all granted gigabytes, and at least its initial expiry plus all granted days; its limit is all that remains once any volume was granted, and the first limit until then; owner and username stay |
| OperationTotals.AskedNoEarlierThanQuoted | packages/service-renewal/src/checkout.ts:556-567 | in those runs an extra-time order asks the panel for an expiry no earlier than the one quoted at the start, however many other orders ran in between |
| CommerceStore.Database.ClaimOperationOrder | packages/service-renewal/src/execution.ts:269-278 | the claim succeeds exactly from PAID; then the status and the intent event change together, otherwise nothing does |
| CommerceStore.Database.PersistOperationResult | packages/service-renewal/src/execution.ts:297-311 | one applied event for this order and no other, this service row and no other, and COMPLETED exactly from PROVISIONING, together |
| CommerceStore.Database.CompleteReconciledOrder | packages/service-renewal/src/execution.ts:384-395 | one applied event for this order and no other, this service row and no other, and COMPLETED whatever the status was, together |
| ServiceLock.MutualExclusion | packages/service-renewal/src/service-lock.ts:99-109 | over every run of clients with delayed, lost and late commands: a holder confirmed less than one TTL ago is the server's live owner, has not been told it lost, and is alone on its key |
| ServiceLock.OnlyOwnerTouches | packages/service-renewal/src/service-lock.ts:99-109 | a live entry changes only when the server executes a command of its own token, so stale releases and renewals never touch a newer owner's key or TTL |
| ServiceLock.LostForever | packages/service-renewal/src/service-lock.ts:246-270 | once a handle reads as lost it reads as lost in every continuation, and its token never owns the key again |
| ServiceLock.LostIffTold | packages/service-renewal/src/service-lock.ts:246-264 | in every run a handle reads as lost if and only if a refused renewal was delivered to it before it was released |
| ServiceLock.AnswersTell | packages/service-renewal/src/service-lock.ts:246-264 | each delivered answer: a won set makes the handle held and confirmed, a renewal moves the confirmation on, a refused renewal marks an unreleased handle lost, and nothing else changes |
| ServiceLock.AttemptEnds | packages/service-renewal/src/service-lock.ts:310-341 | an attempt ends as held exactly by a delivered success, contended by giving up, unavailable by a command without an answer |
| ServiceLock.CommandsDo | packages/service-renewal/src/service-lock.ts:99-109 | a set succeeds exactly on a free key, a renewal and a deletion exactly on the token's own live entry; each success does its work and each failure nothing |
| LockClient.AcquireServiceLock | packages/service-renewal/src/service-lock.ts:310-341 | with time passing inside every command and between attempts: acquisition ends after finitely many attempts, bounded by the wait over the base delay (one when the wait is zero); ACQUIRED means the key was free when the last command ran and is this token's until a full TTL after that moment, CONTENDED means the last command found it taken and the deadline has passed |
| LockClient.HeldLock.OnRenewal | packages/service-renewal/src/service-lock.ts:246-264 | the heartbeat's handling of an answer: a refusal marks an unreleased lock lost, a success moves the last confirmation on, a missing answer changes nothing; it is the transition of `ServiceLock.LostIffTold` |
| LockClient.HeldLock.Release | packages/service-renewal/src/service-lock.ts:270-282 | release leaves every other token's live entry alone and either deletes its own or leaves the store as it was |
| ServiceLock.CommandsLeaveOthers | apps/worker/src/redis.ts:72-125 | set-if-absent, compare-and-expire and compare-and-delete neither touch nor create a live entry of another token, for any TTL; the worker's lock uses the same three commands |
| LowBalance.AlertDesk.Apply | packages/database/src/low-balance-core.ts:133-202 | seed, lock, re-read, decide and write, as the code runs them, equal the observation function |
| LowBalance.ObservationOutcome | packages/database/src/low-balance-core.ts:133-202 | what an observation does, field by field, from the row (or its seed) and the balance it is judged by: re-arm above the boundary, one cycle and at most one queued message at or below the threshold, otherwise the balance and settings are recorded and no more |
| LowBalance.AlertDesk.RevalidateForDelivery | apps/worker/src/notifications/low-balance-eligibility.ts:104-188 | the check before sending: DELIVER only for the open cycle that queued the message, with the balance at or below its boundary; the state row changes exactly on BALANCE_RECOVERED, which re-arms it, and no other user's row does |
| LowBalance.FirstReasonCancels | apps/worker/src/notifications/low-balance-eligibility.ts:104-188 | a message goes out if and only if the feature is on, the user is there, active and opted in, and the open cycle is its own with the balance within its boundary; otherwise the first of these that fails, in this order, cancels it |
| LowBalance.CleanupDeletes | apps/worker/src/notifications/maintenance.ts:38-64 | a cleanup deletes a message row exactly when it is finished and past its retention |
| LowBalance.DedupeKeyInjective | packages/shared/src/low-balance.ts:175-177 | one dedupe key per user and cycle, whatever characters the user id holds |
| LowBalanceRuns.CyclesCount | packages/database/src/low-balance-core.ts:133-202 | in every run of observations, checks before sending, deliveries and cleanups: cycle + [seeded ALERTED] = re-arms by observations + re-arms by checks + [now ALERTED] + forced openings |
| LowBalanceRuns.AlertsSeparatedByRecovery | packages/database/src/low-balance-core.ts:161-197 | between two alerts of a user, the later one unforced, an observation or a check before sending saw a balance above the re-arm boundary it judged by |
| LowBalanceRuns.OnlyTheCheckRecovers | apps/worker/src/notifications/low-balance-eligibility.ts:172-183 | the check is needed there: for every user there is a run, with a boundary raised in between, of two unforced alerts with no observation above its own boundary between them |
| LowBalanceRuns.OneMessagePerEligibleCycle | packages/database/src/low-balance-core.ts:305-359 | one message row was ever inserted for a cycle if and only if it opened for a user eligible then, none otherwise; the row is there until a cleanup deletes it; no cycle opens twice |
| LowBalanceRuns.ToldOncePerEpisode | packages/database/src/low-balance-core.ts:161-186 | in every run, no user told of a low balance is alerted again before a recovery, if and only if no observation opened another cycle for a user whose open episode had had its message |
| LowBalanceRuns.BackfillTellsOncePerEpisode | apps/worker/src/notifications/low-balance-backfill.ts:390-396 | when the only forcing is the backfill's, decided under the lock: the same, if and only if no backfill observed a user still low in an episode whose message row a cleanup had deleted |
| LowBalanceRuns.CleanupRepeatsAlert | apps/worker/src/notifications/maintenance.ts:38-64 | such runs exist for every user and all settings: a fall is told of, its message delivered and deleted, and a backfill tells the user again although the balance never rose |
| LowBalanceRuns.FirstEdgeIsBaselineThenEdge | packages/database/src/low-balance-core.ts:212-254 | a first witnessed edge leaves what a silent baseline at the balance before, followed by that edge, leaves |
| ChannelHealth.Policy.RecordChannelFailure | packages/force-join/src/channel-policy.ts:145-258 | the failure transaction, with nothing between its read and its write, equals the policy function: debounce, fresh window, retirement, switch-off and log rows |
| ChannelHealth.FailureOutcome | packages/force-join/src/channel-policy.ts:145-258 | a failure field by field: dropped, debounced, first of a new window after an hour, or one more; retired at five in ten minutes, with the switch off exactly when no other channel is active, and each logged with its delivery |
| ChannelHealth.DeliverableIff | packages/force-join/src/ops-outbox.ts:71-115 | an alert is delivered exactly when its topic is there and enabled and the group's chat id is more than white space |
| ChannelHealth.BindOutcome | apps/bot/src/services/force-join/force-join-channel.service.ts:277-425 | a new channel is active while fewer than ten are, a known one keeps its state, and either starts a clean window |
| ChannelHealth.SwitchOutcome | apps/bot/src/services/force-join/force-join-channel.service.ts:467-506 | a channel is switched on while fewer than ten are, and off unless it is the last one enforced |
| ChannelHealth.RemovalOutcome | apps/bot/src/services/force-join/force-join-channel.service.ts:544-660 | a channel is removed unless it is the last one enforced; the switch goes on exactly with an active channel; the combined steps do both |
| ChannelHealth.Policy.WriteWindow | packages/force-join/src/channel-policy.ts:164-255 | the write, from a row that may be older than the one it overwrites: it retires the channel exactly when the window recomputed from the row as read has five failures over ten minutes |
| ChannelHealth.Policy.RecordChannelSuccess | packages/force-join/src/channel-policy.ts:306-322 | a success changes nothing when the caller's snapshot showed no failure or the channel is inactive, otherwise it leaves the count at zero; it never changes which channels are active or any other channel |
| ChannelHealth.Policy.WriteOpsEvent | packages/force-join/src/ops-outbox.ts:71-115 | every event gets its log row, and a delivery row exactly when the topic is enabled and a log group is set |
| ChannelHealth.Policy.RecordValidationSuccess | apps/bot/src/services/force-join/force-join-channel.service.ts:427-449 | a passed access test clears the window of its channel, active or not, and changes neither which channels are active nor the switch |
| ChannelHealthRuns.RetirementIsJustified | packages/force-join/src/channel-policy.ts:145-188 | over every mix of failures (a read and a later write under the lock), aborts, successes, administrator changes and access tests that take no lock, for any clock readings: a retirement counted at least five failures ending there, each read after the one before was written and 5 s to 60 min after it, spanning 10 min; nothing ended its window in between if and only if no access test passed between the read and the write of one of its later failures |
| ChannelHealthRuns.SomeRetirementIsOvertaken | apps/bot/src/services/force-join/force-join-channel.service.ts:427-449 | the other runs exist: every active channel has a run in which its access test passes inside the window and it is retired all the same |
| ChannelHealthRuns.UninterruptedFailure | packages/force-join/src/channel-policy.ts:145-258 | a read followed at once by its write is the policy's failure transaction |
| ChannelHealthRuns.SwitchAndLogAgree | packages/force-join/src/channel-policy.ts:190-257 | over every mix of failures, successes and administrator changes: force join is on only with an active channel, and the log holds one row per retirement and per automatic switch-off |
| ChannelHealthRuns.AtMostTenActive | apps/bot/src/services/force-join/force-join-channel.service.ts:277-506 | in every run, whatever creates, switches, tests or retires channels, at most ten are active |
| ChannelHealthRuns.RetiredRowStays | packages/force-join/src/channel-policy.ts:306-322 | from its retirement on, whatever requests do, in progress or aborted, no check reactivates a channel or erases its record |
| ChannelHealthRuns.ApplyKeepsSwitch | apps/bot/src/services/force-join/force-join-channel.service.ts:467-506 | each administrator transaction keeps the switch invariant too |
| ChannelHealth.Decide | packages/force-join/src/membership.ts:413-461 | the gate's loop: missing channels are exactly the refused ones in order, a temporary failure matters only when none is missing, unverifiable channels never block |
| ChannelHealth.SelectedInOrder | packages/force-join/src/membership.ts:413-461 | the channels of one answer are exactly those at its positions, in their order |
| LogGroupSetup.SetupDatabase.ActivateStagedGroup | apps/worker/src/log-group-setup.ts:169-225 | the activation writes status, the group's chat id and its title cut to 120 characters, and every bound topic row, or nothing |
| LogGroupSetup.BoundRows | apps/worker/src/log-group-setup.ts:201-216 | after the topic loop a row points into the new group if and only if its key was bound; every other row is as before |
| LogGroupSetup.SetupDatabase.ProvisionStagedTopics | apps/worker/src/log-group-setup.ts:107-159 | the creation loop keeps every binding, creates exactly the missing ones up to the first refusal, and persists each before the next |
| LogGroupRuns.SwitchOverIsAtomic | apps/worker/src/log-group-setup.ts:169-225 | over every run of retried, duplicate, crashing, cancelled and rate-limited jobs: the activated attempts are exactly the ACTIVE ones, and the settings (chat id and title) and all topic rows belong to the last of them, fully bound and with its test message delivered, or are untouched when there is none |
| LogGroupRuns.OneSetupAtATime | apps/bot/src/services/log-group-connection.service.ts:457-530 | in every run at most one attempt is queued, provisioning or testing |
| LogGroupRuns.CreationsBounded | apps/worker/src/log-group-setup.ts:107-159 | in every run the successful topic creations of an attempt number at most the keys plus the creations lost between create and persist |
| LogGroupJobs.FailureIsRecorded | apps/worker/src/log-group-setup.ts:324-420 | an error on the last try, a taken lock included, and a refusal on the last try or for good end the attempt as FAILED with its slot free, and change nothing else |
| LogGroupJobs.RetryLeavesAttempt | apps/worker/src/log-group-setup.ts:324-420 | any other error or refusal, and every rate limit, leaves attempt and slot as they are |
| LogGroupJobs.MissingIsGivenUp | apps/worker/src/log-group-setup.ts:283-286 | without a bot token, or without the topic to test, the attempt is failed at once |
| LogGroupJobs.SettledIsSkipped | apps/worker/src/log-group-setup.ts:242-252 | a job that finds its attempt gone, cancelled or over stops without a trace |
| LogGroupJobs.AdministratorSteps | apps/bot/src/services/log-group-connection.service.ts:457-530 | confirming and retrying need the one slot free and take it, cancelling and a failed enqueue free it, each from the statuses it may |
| LogGroupJobs.UndisturbedJob | apps/worker/src/log-group-setup.ts:233-399 | from every state with the lock free, a job that nothing goes against makes every missing topic and no other, tests the group and switches over to it, with its slot free |
| Migrations.ClassifyMigrationAttempt | packages/database/src/migration-attempts.ts:121-135 | the loop over three maxima equals the specification |
| Migrations.LastStartedDecide | packages/database/src/migration-attempts.ts:121-135 | in any input order the last-started attempts alone decide: all stuck is CURRENTLY_FAILED; none stuck is APPLIED unless one of them was rolled back |
| Migrations.ClassifiedAsLatest | packages/database/src/migration-attempts.ts:121-135 | when the last-started attempts share an outcome, that outcome is the verdict |
| Migrations.OrderFreeIffLastStartedAgree | packages/database/src/migration-attempts.ts:121-135 | in every history the verdict is the same for every order of its rows if and only if no stuck attempt shares the last start time with one that is not stuck |
| Migrations.OrderDoesNotMatter | packages/database/src/migration-attempts.ts:121-135 | with distinct start times verdict and checksum depend on the set of attempts alone; there is a current checksum if and only if APPLIED, and it is the latest attempt's |
| Migrations.ReadStateAgrees | packages/database/src/migration-attempts.ts:174-193 | reading the rows latest first finds the same three maxima and the same checksum |
| Migrations.ReadStateCounts | packages/database/src/migration-attempts.ts:174-193 | the state read carries the verdict, the first row, and the number of rolled-back rows, whose positions are exhibited |
| MigrationDeployment.Evaluate | packages/database/src/migration-deployment.ts:99-159 | the walk over all names fills exactly the specified lists, counts and entries, and the first non-empty list names the blocker |
| MigrationDeployment.ReadyIffAllAppliedAndShipped | packages/database/src/migration-deployment.ts:138-149 | ready if and only if the disk is complete and not empty and every name on disk or in the database is both APPLIED and on disk |
| MigrationDeployment.FirstTroubleIsNamed | packages/database/src/migration-deployment.ts:138-149 | the blocker is the first trouble in the order of the checks, and in it the first migration by name |
| Fingerprint.JoinInjective | packages/service-renewal/src/quote.ts:119-162 | lists of NUL-free fields with one joined text are one list: no boundary can be shifted |
| Quote.FingerprintInjective | packages/service-renewal/src/quote.ts:132-163 | two priced worlds share a fingerprint text if and only if they are one world (NUL-free fields, no optional field a bare dash) |
| Quote.FingerprintUpToDashes | packages/service-renewal/src/quote.ts:152 | without the dash condition: two NUL-free worlds share a text if and only if they are one world once a bare dash in an optional field is read as absent |
| Base64Url.DecodeEncode | packages/service-renewal/src/quote.ts:180 | the lenient decoder gives back every byte string from its unpadded text |
| Base64Url.OneTextPerBytes | packages/service-renewal/src/quote.ts:210-219 | the strict re-encoding test accepts exactly one text per byte string: its encoding |
| Base64Url.SameBits | packages/service-renewal/src/quote.ts:180 | three bytes and their four characters are one number of 24 bits |
| Base64Url.EncodedLength | packages/service-renewal/src/quote.ts:180 | four characters for three bytes, two or three for the remainder, and no padding |
| Quote.OpenSeal | packages/service-renewal/src/quote.ts:166-288 | opening what was sealed gives the payload before its expiry and EXPIRED from it on; a payload the reader would not accept never opens |
| Quote.OnlySealsOpen | packages/service-renewal/src/quote.ts:190-288 | a token that opens or has expired is, character for character, one that sealing its own plain text would have issued |
| Quote.RefusalsTold | packages/service-renewal/src/quote.ts:190-288 | a token is MALFORMED exactly when its text is not the version, a dot and the strict text of enough bytes; a well-shaped one is a bad seal exactly when it does not open to well-typed members |
| CanonicalJson.SortKeysDeep | packages/payments/src/nowpayments.ts:72-85 | the recursion with its key-by-key loop equals the canonical form |
| StringOrder.BeforeIffPrecedes | packages/payments/src/nowpayments.ts:77 | the sort order of keys: a proper prefix first, otherwise the smaller character where two keys first differ |
| CanonicalJson.SameFormIffEquivalent | packages/payments/src/nowpayments.ts:72-85 | two parsed documents have one canonical form if and only if they differ in nothing but member order, at any depth (`__proto__` members aside) |
| CanonicalJson.SortingKeepsDocument | packages/payments/src/nowpayments.ts:72-85 | sorting loses nothing but `__proto__` members at any depth and yields a well-formed document |
| CanonicalJson.SortingIsIdempotent | packages/payments/src/nowpayments.ts:72-85 | sorting twice is sorting once |
| CanonicalJson.VerdictIgnoresOrder | packages/payments/src/nowpayments.ts:92-109 | the signature verdict is the same for documents that differ in member order alone |
| CanonicalJson.OneSignatureOneDocument | packages/payments/src/nowpayments.ts:92-109 | with an injective rendering and digest, one signature fits two bodies only if they differ in member order alone |
| CanonicalJson.PrototypeMemberNotCovered | packages/payments/src/nowpayments.ts:78-81 | a `__proto__` member does not reach the canonical form: the assignment sets the prototype instead |
| Options.DropColliding | packages/service-renewal/src/options.ts:513-520 | the counting loop keeps exactly the products whose public id no other eligible product shares |
| Options.ListingEqualsChoosing | packages/service-renewal/src/options.ts:463-605 | in one database state an option id resolves if and only if it is listed, in any letter case, to the very product listed; a refused listing refuses every choice the same way |
| Options.OwnedIffUnique | packages/service-renewal/src/resolve-service.ts:69-121 | whatever order the rows come in, a service resolves exactly when it alone matches and its panel fits (what matching and fitting are: `Options.ResolvesOwnServiceOnly`) |
| Options.ResolvesOwnServiceOnly | packages/service-renewal/src/resolve-service.ts:69-121 | a service resolves exactly when it is the caller's own, not deleted, active, expired, limited or disabled, with these eight characters in any letter case, alone so, and its panel is active, supports the operation and serves it |
| Options.OtherUsersDoNotMatter | packages/service-renewal/src/resolve-service.ts:83-91 | rows of other users never change the answer |
| Options.ListedAsSold | packages/service-renewal/src/options.ts:463-495 | every listed option is a product sold for that own service, with the product's id prefix, price, days and volume, and every such product without a collision is listed; the refusals are exactly the missing and the ineligible service |
| Options.ChosenAsSold | packages/service-renewal/src/options.ts:557-605 | what a choice resolves to is a product sold for the caller's own eligible service, shown with its own id prefix, price, days and volume |
| Options.EligibleAreSold | packages/service-renewal/src/options.ts:154-335 | the two queries and re-checks together admit exactly the active products of the service's own active panel, shown to the group, that grant what the operation sells |
| Options.EligibleIsMayBuy | packages/service-renewal/src/options.ts:126-152 | extra volume needs an active or limited account with a limit, extra time an expiry, a renewal any of the four statuses |
| Products.GroupMatchesIff | packages/service-renewal/src/catalog.ts:51-62 | a product is shown to the groups it names, to all by ALL, and to F alone when it names none that exists |
| Catalog.GroupProducts | packages/service-renewal/src/catalog-read.ts:125-146 | the nested insertion-ordered maps hold panels in order of first appearance, in each its categories in order of first appearance, in each its visible products in input order |
| Catalog.NestedNext | packages/service-renewal/src/catalog-read.ts:135-145 | the loop's get-push-set step is grouping the list with one more product |
| Catalog.LoadCatalog | packages/service-renewal/src/catalog-read.ts:105-181 | no location or category is empty, and every location's count and from-price are the true size and minimum of its visible products |
| Catalog.CatalogShows | packages/service-renewal/src/catalog-read.ts:105-134 | the catalog shows exactly the active services of active categories on active, visible, sellable panels that are sold to the group |
| Catalog.ExactlyOnePlace | packages/service-renewal/src/catalog-read.ts:129-146 | every grouped product stands in exactly one category of exactly one location |
| Purchasable.RightForEveryOrder | packages/service-renewal/src/catalog-read.ts:199-225 | the resolver answers as intended for every row order if and only if at most two rows share the prefix, or all of them are visible to the buyer, or none is |
| Purchasable.ResolvesTheVisibleOne | packages/service-renewal/src/catalog-read.ts:199-225 | with at most two rows behind a prefix a product resolves exactly when it is the one visible row among them |
| Purchasable.BuysOnlyWhatIsSold | packages/service-renewal/src/catalog-read.ts:199-225 | however many rows share the prefix, whatever resolves is sold to this group under the public id that was given |
| Purchasable.WrongForSomeOrder | packages/service-renewal/src/catalog-read.ts:207-221 | in every other case there is an order of the rows for which it sells an ambiguous product or refuses an unambiguous one |

## Left out

Assumptions and weaker statements, by member:

- Provisioning.PurchaseOutcomes: assumes a Redis lock that is exclusive while its holder lives, and panel and product rows fixed during a run; the bot's older pipeline and its start-up sweep (apps/bot/src/services/startup-recovery.service.ts:600-613), which resolve stale PROVISIONING purchases by rules and anchors of their own, re-checking the status under the lock, are not actors of the runs.
- ProvisioningEffects.TablesMatchPanels: assumes the same lock and, beside it, one username per order, no account under an order's username before the run, and a reported creation that is true; no account is deleted during the run.
- ProvisioningEffects.ProvisionersDeliverOrRefund: takes definite refusals as true of the panel; the runs with others are covered by the result above.
- PurchaseCalls.ProvisionCall: takes the target's lock as free and one set of answers for the whole call; the steps between which others may act are covered by the results before it. OperationCalls.OperateCall and LogGroupJobs.UndisturbedJob are stated in the same way.
- OperationRuns.AtMostOneEffect: assumes the same exclusive lock per service; new settlements do not arrive during the run, and the same start-up sweep, which also refunds and completes stale renewals and extras under its own event types, is not an actor.
- OperationEffects.TablesMatchPanel: assumes the same, and a reported success that is true; what the panel holds after a call is arbitrary, so the result speaks of calls that took effect and not of the values they left.
- OperationEffects.ExecutorsApplyOrRefund: takes definite refusals as true of the panel; the runs with others are covered by the result above.
- OperationTotals.NoLostUpdates: speaks of runs in which no reconciler completes an order and stored answers repeat the values that were asked, because a reconciler stores whatever the panel reads and a panel may report usage; panel syncs and the bot's older pipelines, which write the same service rows, are not actors.
- OperationTotals.AskedNoEarlierThanQuoted: takes the quote at the start of the run and the same runs as above.
- Provisioning.WalletsAddUp: runs of purchases start with settled but unexecuted orders and no service, and settlements arrive during the run; top-ups, receipts, commissions and administrator corrections, which write ledger rows too, are not actors.
- OperationRuns.StatusTellsEffect: runs of operations start with paid orders, none executed yet, and the panel may hold anything.
- LowBalanceRuns.CyclesCount: runs start from empty alert and message tables, and users are not removed; so do those of LogGroupRuns.CreationsBounded, without any attempt.
- SettlementCalls.ExactlyOncePerKey: other transactions are any that keep the database invariant, add no payment and no spend, keep every order's terms and leave settled checkouts alone; they may add drafts and cancel or expire them.
- ServiceLock.MutualExclusion: one clock for clients and server, and tokens that never repeat.
- Operations.ReconciliationExact: a panel that was left alone holds what the service row says, up to the unit it keeps expiries in; the total and expiry are either numbers or absent, and a reading that leaves a field undefined counts as absent.
- Discount.TypedCodeAgreesWithClaim: the upper-case form of a text is a parameter, and lengths count characters, not UTF-16 code units.
- LockClient.AcquireServiceLock: the three-second command timeout appears as a missing answer at any time.
- LowBalanceRuns.BackfillTellsOncePerEpisode: takes the backfill's rule as the only forcing; `LowBalanceRuns.ToldOncePerEpisode` covers any other.
- ChannelHealthRuns.SwitchAndLogAgree: the administrator's transactions are modelled as functions only, without reordering and without the link, title and validation-time fields.
- LogGroupRuns.SwitchOverIsAtomic: the setup lock is exclusive while its holder lives, attempt rows are never deleted, and no other flow (the bot's group-side connection, its topic editing, the delivery worker's invalidation of a topic) writes the settings or the topic rows.
- Quote.OpenSeal: encryption is an abstract authenticated cipher and the payload text an abstract codec, whose laws are the hypotheses.
- CanonicalJson.SameFormIffEquivalent: object keys that look like array indices, which JavaScript enumerates first, and number formatting are not modelled.

Not modelled:

- Telegram, panel and gateway HTTP, Prisma and BullMQ plumbing: panels and Telegram answer nondeterministically, transactions are atomic, isolation levels and retries of the driver do not appear.
- SHA-256, HMAC, AES-GCM and scrypt: a digest is taken as the text it digests, a cipher as its laws.
- Username reservation: one boolean whose effect rolls back with its transaction.
- Columns that decide nothing: display snapshots, notes, subscription links, counters such as the number of orders, the trial conversion of a service, validation time stamps of a channel.
- The low-balance hook inside settlements and refunds: `LowBalance` models it as observations of their own.
- Nullable idempotency keys, gateway-paid orders and foreign-key failures.
- Quote issuing, draft cancel-then-create and the checkout screens: single statements without a property across them.
- The membership verdict cache and the per-user check slot: only the gate's decision and the health policy are modelled.
- Panel capability and credential rules: booleans of a panel row, as are the inbound-id rules of a product.
- Backup jobs, schedulers, referral lineage queries, provider callbacks and log delivery.
