# Verification of the campus errand marketplace

A Dafny 4.11 model of a marketplace in which publishers post errands, put the reward into escrow, takers grab and deliver
them, and the reward is split between the taker and the platform.  MySQL is the only source of truth; Redis is a lossy
accelerator.  The project models the order state machine with its escrow and double-entry ledger, payments, refunds and
compensations, the transactional outbox, the Redis grab marker and delay index, the background jobs, the rate limiter and
the login guard, and proves what every reachable state of them satisfies.

Check everything with `dafny verify dfyconfig.toml`.

## How the model is built

- `Model.dfy` holds the tables as one value `Db`.  A transaction is a function from `Db` to an `Outcome`: a committed
  database with an answer, or an abort that changes nothing.  Conditional updates and unique keys are guards evaluated on
  the current database; reads without a lock see `snap`, any older database.
- `OrderSpec.dfy`, `PaymentSpec.dfy` and `Commission.dfy` specify the transactions.  `Store.dfy`, `OrderServices.dfy`,
  `PaymentServices.dfy` and `GrabService.dfy` are the same transactions statement by statement, as classes over mutable
  tables, each proved equal to its specification, rollback included.
- `Sums.dfy`, `Books.dfy`, `Invariants.dfy`, `OrderSteps.dfy` and `PaymentSteps.dfy` show that every transaction keeps the
  invariant `Inv`; `Runs.dfy` lifts it to any interleaving of all transactions, the clock and rolled-back steps, each with
  an arbitrary stale snapshot and its own commission rate and times to live; only the platform user is fixed.
- `OrderAnswers.dfy`, `PaymentAnswers.dfy` and `KeyText.dfy` say for every transaction what it answers and writes in a
  reachable state, column by column, without the guards by which it is specified.  `OrderTheorems.dfy`, `Lifecycle.dfy`,
  `PaymentTheorems.dfy`, `Callbacks.dfy`, `Deliveries.dfy`, `SettleRetry.dfy`, `SettleBudget.dfy`, `LateRecord.dfy`,
  `Timeouts.dfy` and `Recon.dfy` draw the conclusions.
- `Outbox.dfy` and `OutboxRuns.dfy` model the outbox with any number of workers, crashes and skewed clocks; `Marker.dfy` and
  `GrabProtocol.dfy` the grab marker under all interleavings; `DelayIndex.dfy` and `Poller.dfy` the delay index;
  `Counters.dfy` and `Login.dfy` the counters.

## What the proofs found

- **A payment can be recorded without being credited.**  Payment credits share the idempotency key space of ordinary
  recharges, and the key is trimmed.  `PaymentTheorems.CallbackCreditsIff` gives the exact condition (the key
  `"PAYMENT:" + eventId`, trimmed, is unused), `OrdinaryRechargeSwallowsPayment` an instance.  Order and repetition of
  callbacks are harmless once ordinary keys avoid that prefix and event ids end in no blank.
- **Some payments can never be recorded.**  `PaymentTheorems.CallbackCommitsIff` says exactly when a callback of an
  unrecorded payment commits.  It never does for an event id whose key exceeds `op_key` (over 143 characters,
  `LongEventIsNeverRecorded`), nor once the key was used for another user or amount (`Callbacks.UsedKeyBlocksForGood`).
- **A key committed while a callback is running undoes the callback**, even for the same user and amount, because the
  lookup after the clash reads the transaction's own snapshot (`PaymentTheorems.RacingRechargeUndoesCallback`).  This, and a
  user registered meanwhile, are the only ways in which stale reads matter (`Deliveries.SnapshotMattersIff`).
- **The settlement retry budget of twelve is exact only if the delivery's own failure is recorded first.**  A late record
  sets the count back to 1 and can add up to eleven attempts (`SettleBudget.RunRetryBudget`); from every reachable
  delivered and untried order, while settlement cannot succeed, a run leads to the full 23 (`LateRecord.LateRecordCostsEleven`).
- **Outbox leases fence only while the application clock lags by less than the lease.**
  `OutboxRuns.LaggingClockBreaksFencing` covers every larger lag.
- **The marker can lock an order out without a grab**, in exactly one way: a flush between the two SET commands of a
  marker write (`GrabProtocol.LockOutHasACause`, `StraddlingFlushLocksOut`).  One resync pass heals it.
- **The poller can drop a needed DELIVER entry** when a grab rolled back after writing its own
  (`DelayIndex.RolledBackGrabLosesTheEntry`); the timeout scan still finds the order.
- **The local login fallback differs from the script when a limit is not positive**, and only then
  (`Login.FallbackAgreesIffLimitsArePositive`).

## Model

| member | source | states |
|---|---|---|
| Books.EnsureAccountsIsIdle | src/main/java/com/yu/errand/repository/AccountRepository.java:16-18 | for a user who has both accounts the call changes nothing at all |
| Books.PostKeepsBooks | src/main/java/com/yu/errand/repository/LedgerRepository.java:18-21 | a balance change together with its ledger row keeps every balance equal to the sum of its rows and moves the totals by exactly the amount |
| Books.TransferKeepsBooks | src/main/java/com/yu/errand/service/OrderService.java:137-144 | a debit, a credit and their two rows keep the ledger sum and move the frozen total by exactly the amount |
| Store.Database.EnsureAccountRows | src/main/java/com/yu/errand/repository/AccountRepository.java:16-18 | INSERT IGNORE of both rows does what the specification says on the whole database |
| Store.Database.Change | src/main/java/com/yu/errand/repository/AccountRepository.java:30-33 | one row counted and moved by delta, or no row and no change |
| Store.Database.Debit | src/main/java/com/yu/errand/repository/AccountRepository.java:35-45 | debits iff the balance covers the amount; otherwise no row and no change |
| Store.Database.InsertLedger | src/main/java/com/yu/errand/repository/LedgerRepository.java:18-21 | fails exactly on a used uk_biz_account key or an unknown user, without effect; otherwise adds exactly one row |
| Store.Database.StartOp | src/main/java/com/yu/errand/repository/IdempotencyRepository.java:19-32 | NEW and recorded, REPLAY of the same request or a conflict for another one if the snapshot shows the used key, a duplicate-key failure if it does not, and a failure for a key too long for its column; a used key is never overwritten |
| Store.Database.Enqueue | src/main/java/com/yu/errand/repository/OutboxRepository.java:17-20 | a second event of the same type and business id is refused |
| Store.Database.Notify | src/main/java/com/yu/errand/service/NotificationService.java:24-38 | notification and outbox event together, or a duplicate-key failure |
| Store.Database.InsertOrder | src/main/java/com/yu/errand/repository/OrderRepository.java:32-47 | adds the PUBLISHED row under a new id |
| Store.Database.Claim | src/main/java/com/yu/errand/repository/OrderRepository.java:63-73 | changes one row iff it is PUBLISHED, untaken, another user's and before its deadline |
| Store.Database.MarkDelivered | src/main/java/com/yu/errand/repository/OrderRepository.java:80-83 | changes one row iff it is TAKEN by this taker and before its delivery deadline |
| Store.Database.MarkSettled | src/main/java/com/yu/errand/repository/OrderRepository.java:85-88 | settles only from DELIVERED and records the commission |
| Store.Database.CancelByPublisher | src/main/java/com/yu/errand/repository/OrderRepository.java:90-93 | cancels only the publisher's own PUBLISHED or TAKEN order |
| Store.Database.CancelOverdueClaim | src/main/java/com/yu/errand/repository/OrderRepository.java:95-98 | cancels only a PUBLISHED order at or past its claim deadline |
| Store.Database.CancelOverdueDelivery | src/main/java/com/yu/errand/repository/OrderRepository.java:100-103 | cancels only a TAKEN order at or past its delivery deadline |
| Store.Database.RecordFailure | src/main/java/com/yu/errand/repository/OrderRepository.java:131-134 | writes the retry columns of a DELIVERED order only |
| Store.Database.MarkDead | src/main/java/com/yu/errand/repository/OrderRepository.java:136-139 | marks only a DELIVERED order dead |
| Store.Database.InsertPayment | src/main/java/com/yu/errand/repository/PaymentRepository.java:20-34 | refused iff the event id or the provider payment id is used, by whichever of the two unique keys |
| Store.Database.MarkRefunded | src/main/java/com/yu/errand/repository/PaymentRepository.java:46-48 | moves the status only from SETTLED |
| Store.Database.InsertRefund | src/main/java/com/yu/errand/repository/RefundRepository.java:19-31 | refused iff the request key is used or the payment already has a refund |
| Store.Database.InsertDispute | src/main/java/com/yu/errand/repository/DisputeRepository.java:19-29 | adds an OPEN dispute of an existing payment |
| Store.Database.Resolve | src/main/java/com/yu/errand/repository/DisputeRepository.java:39-42 | moves the status only from OPEN |
| OrderServices.OrderService.Create | src/main/java/com/yu/errand/service/OrderService.java:45-64 | the statements of create, with rollback, are the specified transaction: same answer, same error, same tables |
| OrderServices.OrderService.Cancel | src/main/java/com/yu/errand/service/OrderService.java:76-87 | cancel with its escrow refund equals its specification and leaves nothing behind when it fails |
| OrderServices.OrderService.Deliver | src/main/java/com/yu/errand/service/OrderService.java:89-115 | DELIVERED stays even when the separate settlement fails, and then the failure is recorded with count 1; a rejected delivery is EXPIRED by the application clock, or an illegal transition |
| OrderServices.OrderService.TimeoutClaim | src/main/java/com/yu/errand/service/OrderService.java:117-125 | equals its specification: cancels an overdue PUBLISHED order and returns the escrow, else answers false unchanged |
| OrderServices.OrderService.TimeoutDeliver | src/main/java/com/yu/errand/service/OrderService.java:127-135 | the same for an overdue TAKEN order |
| OrderServices.OrderService.RefundSteps | src/main/java/com/yu/errand/service/OrderService.java:137-144 | the escrow refund of a cancelled order |
| OrderServices.SettlementService.Settle | src/main/java/com/yu/errand/service/SettlementService.java:42-73 | idempotency key, escrow split, status and event as one specified transaction with rollback |
| OrderServices.SettlementService.InsertEntries | src/main/java/com/yu/errand/service/SettlementService.java:75-81 | writes exactly one row for each merged key, in key order, or fails iff one of the keys is used |
| OrderServices.SplitIsExact | src/main/java/com/yu/errand/service/SettlementService.java:75-92 | the merged entries explain every account's change and sum to zero even if publisher, taker and platform coincide; 0 <= commission <= reward |
| CommissionMath.Commission | src/main/java/com/yu/errand/service/CommissionMath.java:9-14 | defined exactly for a reward >= 0 and a rate in [0,1]; the largest integer not above reward times rate |
| CommissionMath.CommissionIgnoresScale | src/main/java/com/yu/errand/service/CommissionMath.java:9-14 | two decimal spellings of one rate are accepted alike and give the same commission |
| CommissionMath.CommissionShifts | src/main/java/com/yu/errand/service/CommissionMath.java:9-14 | moving the decimal point of a rate changes nothing |
| CommissionMath.CommissionAnchors | src/main/java/com/yu/errand/service/CommissionMath.java:9-14 | rate 1 takes the whole reward, rate 0 nothing, and a percentage its floor; a percentage outside 0 to 100 is refused |
| OrderSteps.EscrowCoversOpenOrder | src/main/java/com/yu/errand/service/SettlementService.java:62-64 | the publisher's frozen balance always covers each open order |
| OrderSteps.CreateKeeps | src/main/java/com/yu/errand/service/OrderService.java:45-64 | create keeps the whole invariant |
| OrderSteps.ReleaseKeeps | src/main/java/com/yu/errand/service/OrderService.java:137-144 | cancel and both timeouts keep the whole invariant |
| OrderSteps.SettlementKeeps | src/main/java/com/yu/errand/service/SettlementService.java:42-73 | settlement keeps the whole invariant |
| PaymentSteps.RechargeKeeps | src/main/java/com/yu/errand/service/UserService.java:66-96 | a recharge that read any older state keeps the whole invariant |
| PaymentSteps.CallbackKeeps | src/main/java/com/yu/errand/service/PaymentService.java:29-53 | a callback that read any older state keeps the whole invariant |
| PaymentSteps.RefundKeeps | src/main/java/com/yu/errand/service/RefundService.java:34-80 | a refund that read any older state keeps the whole invariant |
| PaymentSteps.CompensateKeeps | src/main/java/com/yu/errand/service/DisputeService.java:45-68 | a compensation that read any older state keeps the whole invariant |
| Runs.InitialInv | src/main/resources/db/migration/V2__seed.sql:1-12 | the seeded database satisfies the invariant |
| Runs.StepKeepsInv | src/main/java/com/yu/errand/service/OrderService.java:45-144 | every step of the system keeps the invariant, whatever older database its unlocked reads saw |
| Runs.StepIsLater | src/main/java/com/yu/errand/service/RefundService.java:34-80 | payments, refunds, disputes, compensations, users and used keys seen in a snapshot never disappear or lose their facts |
| Runs.OnlyPlatformMatters | src/main/resources/application.yml:62-66 | the invariant of one configuration is that of every other with the same platform user, so rate and times to live may change |
| Runs.RunKeepsInv | src/main/java/com/yu/errand/service/ReconService.java:32-50 | the invariant holds in every state of every interleaving of committed and aborted transactions, under a configuration that changes from step to step |
| Runs.EveryBalanceIsExplained | src/main/java/com/yu/errand/repository/ReconRepository.java:14-38 | in every such run, closed forms of every wallet, escrow, platform and treasury balance over business records; only the treasury may be negative |
| OrderTheorems.OneMoneyPath | src/main/resources/db/migration/V1__schema.sql:61 | two FREEZE rows per order, two CANCEL rows iff CANCELLED, three SETTLE rows iff SETTLED, at exactly the named accounts |
| OrderTheorems.KeysFollowStatus | src/main/resources/db/migration/V3__outbox_and_settlement_retry.sql:20 | in every run: a TAKEN event iff a taker, a TERMINAL event iff terminal, the settlement key iff SETTLED |
| OrderTheorems.OpenOrderKeys | src/main/resources/db/migration/V3__outbox_and_settlement_retry.sql:20 | for an open order no later event, ledger key or settlement key is used yet |
| OrderTheorems.CreateOutcome | src/main/java/com/yu/errand/service/OrderService.java:45-64 | exactly when create commits: no unique key can clash |
| OrderTheorems.GrabOutcome | src/main/java/com/yu/errand/repository/OrderRepository.java:63-73 | a grab commits iff the plain conditional update accepts it |
| OrderTheorems.ReleaseOutcome | src/main/java/com/yu/errand/service/OrderService.java:137-140 | the low-escrow exception of the refund is unreachable |
| OrderTheorems.SettlementOutcome | src/main/java/com/yu/errand/service/SettlementService.java:42-73 | for a DELIVERED order REPLAY, low escrow and used keys are unreachable; it pays iff rate and platform user are usable |
| OrderAnswers.CreateAnswer | src/main/java/com/yu/errand/service/OrderService.java:45-64 | create in a reachable state: each error by role, amount, time to live and balance, else wallet, escrow, both rows, event and the whole PUBLISHED row |
| OrderAnswers.GrabAnswer | src/main/java/com/yu/errand/repository/OrderRepository.java:63-73 | grab: won exactly by a business user other than the publisher, of a PUBLISHED order before its claim deadline; each other case with its error |
| OrderAnswers.DeliverAnswer | src/main/java/com/yu/errand/repository/OrderRepository.java:80-83 | delivered exactly by the taker of a TAKEN order before its delivery deadline |
| OrderAnswers.SettleAnswer | src/main/java/com/yu/errand/service/SettlementService.java:42-73 | settle: the three balances, three rows, status, commission, key and event, or the error |
| OrderAnswers.CancelAnswer | src/main/java/com/yu/errand/service/OrderService.java:76-87 | cancelled exactly by the publisher of a PUBLISHED or TAKEN order, with the escrow back in the wallet |
| OrderAnswers.TimeoutClaimAnswer | src/main/java/com/yu/errand/service/OrderService.java:117-125 | cancels exactly a PUBLISHED order at or past its claim deadline |
| OrderAnswers.TimeoutDeliverAnswer | src/main/java/com/yu/errand/service/OrderService.java:127-135 | cancels exactly a TAKEN order at or past its delivery deadline |
| OrderAnswers.JobFailedAnswer | src/main/java/com/yu/errand/job/SettleRetryJob.java:28-46 | a failed attempt of a due order: dead at the twelfth, else counted and put off by 1, 2, 4 up to 256 s |
| OrderAnswers.DeliverFailedAnswer | src/main/java/com/yu/errand/service/OrderService.java:95-101 | a failed settlement after delivery: count 1, again in a second |
| OrderAnswers.EveryMoveIsInTime | src/main/java/com/yu/errand/repository/OrderRepository.java:63-103 | in every run each status change happens on the right side of its deadline and by the right user: grabs, deliveries, cancellations, timeouts, payouts |
| Lifecycle.StepMovesOrder | src/main/java/com/yu/errand/repository/OrderRepository.java:63-103 | any step moves an order only along the state machine, and each milestone is passed by its own transaction, once |
| Lifecycle.LifeOfOrder | src/main/java/com/yu/errand/service/GrabService.java:63-71 | at most one winning grab, one delivery, one payout and one return per order, never a payout and a return; version counts the status changes, at most three |
| Lifecycle.OrderNeverLooksBack | src/main/java/com/yu/errand/repository/OrderRepository.java:63-103 | taker fixed once set and never the publisher; terminal orders never change |
| PaymentServices.WalletService.Recharge | src/main/java/com/yu/errand/service/UserService.java:66-96 | the statements of recharge over a stale snapshot, with rollback, are the specified transaction |
| PaymentServices.PaymentService.Callback | src/main/java/com/yu/errand/service/PaymentService.java:29-53 | the callback's statements, its recharge included, over one stale snapshot are the specified transaction |
| PaymentServices.RefundService.Refund | src/main/java/com/yu/errand/service/RefundService.java:34-80 | the refund's steps over a stale snapshot are the specified transaction |
| PaymentServices.DisputeService.Open | src/main/java/com/yu/errand/service/DisputeService.java:37-43 | opens a dispute of the caller's own payment |
| PaymentServices.DisputeService.Compensate | src/main/java/com/yu/errand/service/DisputeService.java:45-68 | the compensation's steps over a stale snapshot are the specified transaction |
| PaymentServices.SelectByEvent | src/main/java/com/yu/errand/repository/PaymentRepository.java:38-40 | finds the payment of an event id, or none exists |
| PaymentServices.SelectByProviderId | src/main/java/com/yu/errand/repository/PaymentRepository.java:42-44 | finds the payment of a provider payment id, or none exists |
| PaymentTheorems.RefundedOnce | src/main/resources/db/migration/V7__one_refund_per_payment.sql:2 | a payment is REFUNDED iff it has exactly one refund row, with one ledger pair; otherwise none |
| PaymentTheorems.LateRefundDoesNothing | src/main/java/com/yu/errand/service/RefundService.java:42-77 | a refund of a refunded payment changes nothing, whatever old status it read |
| PaymentTheorems.CompensatedOnce | src/main/java/com/yu/errand/service/DisputeService.java:47-65 | a dispute is RESOLVED iff exactly one compensation and one ledger pair exist; otherwise neither |
| PaymentTheorems.LateCompensationDoesNothing | src/main/java/com/yu/errand/service/DisputeService.java:47-65 | a compensation of a resolved dispute changes nothing, whatever old status it read |
| PaymentTheorems.RechargeOutcome | src/main/java/com/yu/errand/service/UserService.java:66-96 | when a recharge credits, replays, conflicts or fails, whatever older state it reads |
| KeyText.KeyIsRight | src/main/java/com/yu/errand/service/UserService.java:75 | the key of a recharge is the requested text without the padding on either side, or the fresh identifier when none or a blank one is requested, and nothing else |
| PaymentAnswers.RechargeAnswer | src/main/java/com/yu/errand/service/UserService.java:66-96 | recharge: each error, replay or conflict, else both balances, both rows and the key, for a request key with any padding and for none |
| PaymentAnswers.RechargeReplays | src/main/java/com/yu/errand/service/UserService.java:75-80 | serial calls under one request key, however padded: the same request replays, any other conflicts |
| PaymentAnswers.KeylessRechargeCreditsAgain | src/main/java/com/yu/errand/service/UserService.java:75 | without a key, or with a blank one, a call with fresh identifiers credits |
| PaymentAnswers.CallbackOfKnownEvent | src/main/java/com/yu/errand/service/PaymentService.java:32-33 | a repeated event: the recorded payment iff user, amount and provider id agree, else a conflict |
| PaymentAnswers.CallbackOfKnownProviderId | src/main/java/com/yu/errand/service/PaymentService.java:34-35 | the same for a known payment under a new event |
| PaymentAnswers.NewCallbackAnswer | src/main/java/com/yu/errand/service/PaymentService.java:36-53 | a new payment: each error, else the payment row, its notification and the credit |
| PaymentAnswers.RefundAnswer | src/main/java/com/yu/errand/service/RefundService.java:34-80 | a refund under a new key: commits exactly for the own, full, SETTLED payment with a covering balance and free ids; then both balances, both rows, the refund row and REFUNDED |
| PaymentAnswers.RefundReplayAnswer | src/main/java/com/yu/errand/service/RefundService.java:42-48 | a known key: the same refund again iff payment and amount agree, else a conflict |
| PaymentAnswers.OpenAnswer | src/main/java/com/yu/errand/service/DisputeService.java:37-43 | a dispute is opened exactly for the own payment |
| PaymentAnswers.CompensateAnswer | src/main/java/com/yu/errand/service/DisputeService.java:45-68 | pays exactly for an OPEN dispute under an unused key with a positive amount; then both balances, both rows, the compensation row and RESOLVED |
| PaymentTheorems.CallbackCreditsIff | src/main/java/com/yu/errand/service/UserService.java:75-80 | a recorded payment is credited iff its trimmed key was unused |
| PaymentTheorems.OrdinaryRechargeSwallowsPayment | src/main/java/com/yu/errand/service/UserService.java:75-80 | an ordinary recharge under the payment's key makes the callback record without crediting |
| PaymentTheorems.RacingRechargeUndoesCallback | src/main/java/com/yu/errand/repository/IdempotencyRepository.java:24-25 | the same callback fails when that recharge commits after its first read |
| PaymentTheorems.CallbackCommitsIff | src/main/java/com/yu/errand/service/PaymentService.java:29-53 | a verified callback of an unrecorded payment commits iff the snapshot shows a business user, the amount is positive, ids and key fit their columns, the generated ids are free, and the key is unused or shown by the snapshot for the same user and amount |
| PaymentTheorems.LongEventIsNeverRecorded | src/main/resources/db/migration/V1__schema.sql:66-72 | a callback whose key exceeds its column changes nothing, in any state and with any snapshot |
| PaymentTheorems.UsedKeyBlocksPayment | src/main/java/com/yu/errand/service/UserService.java:75-80 | with the key used for another user or amount no callback records the payment; the error is a conflict, or a duplicate key if the snapshot misses the key |
| Callbacks.UsedKeyBlocksForGood | src/main/java/com/yu/errand/repository/IdempotencyRepository.java:19-32 | in every run a used key keeps its request, so no later callback ever records that payment |
| Callbacks.DisciplinedCallback | src/main/java/com/yu/errand/service/PaymentService.java:29-53 | with disjoint keys a callback does nothing, or records the payment and credits it once |
| Callbacks.EveryPaymentCreditedOnce | src/main/java/com/yu/errand/service/PaymentService.java:29-53 | in every disciplined run each payment has exactly one credit of its own user and amount, one ledger pair, one notification; no two share an event or provider id |
| Deliveries.SnapshotMattersIff | src/main/java/com/yu/errand/service/PaymentService.java:32-46 | stale and fresh reads change the database alike, except exactly for a new payment that the present would record while the snapshot misses its user or its used key |
| Deliveries.SnapshotDoesNotMatter | src/main/java/com/yu/errand/service/PaymentService.java:32-46 | with disjoint keys and a user older than the snapshot stale reads never matter |
| Deliveries.DeliverAllBalances | src/main/java/com/yu/errand/service/PaymentService.java:29-53 | any sequence of deliveries whose ids fit adds to each account exactly the provider payments seen for the first time |
| Deliveries.OrderAndRepetitionDoNotMatter | src/main/java/com/yu/errand/service/PaymentService.java:29-53 | two sequences announcing the same provider payments leave the same balances and payments |
| SettleRetry.SettleRetryJob.Retry | src/main/java/com/yu/errand/job/SettleRetryJob.java:28-46 | one pass over the first 100 due orders, with the retry counts the query returned and the clock read anew for each order |
| SettleRetry.PassSettlesPage | src/main/java/com/yu/errand/job/SettleRetryJob.java:28-46 | with a usable rate and platform a pass settles its whole page and touches nothing else |
| SettleRetry.PassShrinks | src/main/java/com/yu/errand/job/SettleRetryJob.java:28-46 | such a pass takes exactly min(100, size) orders out of the due set |
| SettleRetry.PassesFinish | src/main/java/com/yu/errand/job/SettleRetryJob.java:28-46 | repeated passes at a frozen clock leave no order due, after one pass for every 100 |
| SettleRetry.AfterDeliveryIsAStep | src/main/java/com/yu/errand/service/OrderService.java:95-101 | the second half of deliver is a step of the run model |
| SettleRetry.RetryOneIsAStep | src/main/java/com/yu/errand/job/SettleRetryJob.java:28-46 | each attempt of the job is a step of the run model that reads the queried snapshot |
| SettleBudget.DeliveryRecordsOnce | src/main/java/com/yu/errand/service/OrderService.java:89-102 | in every run a delivery records its own failure at most once, because it commits at most once |
| SettleBudget.RunRetryBudget | src/main/java/com/yu/errand/job/SettleRetryJob.java:28-46 | in every run with one retry job, failed attempts equal what the retry columns show (at most 11, or 12 when dead) iff the delivery's record was prompt; else at most eleven more |
| LateRecord.LateRecordCostsEleven | src/main/java/com/yu/errand/service/OrderService.java:95-101 | from every reachable state with a delivered, untried order, and under any unusable rate or platform, the run goes on with one job and a late record of the delivery to 23 failed attempts and a dead order |
| LateRecord.TwentyThreeAttemptsFail | src/main/java/com/yu/errand/service/OrderService.java:95-101 | such a run from the seeded database: order created, grabbed, delivered, then the rate out of range |
| SettleBudget.DeadOrderKeepsEscrow | src/main/java/com/yu/errand/repository/OrderRepository.java:125-139 | a dead order is never due again and its escrow stays frozen |
| Paging.SelectPage | src/main/java/com/yu/errand/repository/OrderRepository.java:105-113 | ORDER BY id LIMIT n: the n smallest ids, ascending |
| Timeouts.TimeoutScanJob.Scan | src/main/java/com/yu/errand/job/TimeoutScanJob.java:21-34 | one page of each kind, each order timed out in turn |
| Timeouts.ScanShrinks | src/main/java/com/yu/errand/job/TimeoutScanJob.java:21-34 | a scan takes exactly min(500, size) orders out of each overdue set |
| Timeouts.ScansFinish | src/main/java/com/yu/errand/job/TimeoutScanJob.java:21-34 | repeated scans at a frozen clock end with no overdue open order, in the number of scans the set sizes demand |
| Recon.ReconService.Run | src/main/java/com/yu/errand/service/ReconService.java:32-50 | the report is the five queries' verdict; failure counter, success time and saved reports follow it |
| Recon.Total | src/main/java/com/yu/errand/repository/ReconRepository.java:14-17 | SUM over a table |
| Recon.CountMismatches | src/main/java/com/yu/errand/repository/ReconRepository.java:19-26 | the number of accounts whose balance differs from the sum of their rows |
| Recon.ReportOfReachableState | src/main/java/com/yu/errand/service/ReconService.java:35-39 | INV-1 to INV-4 hold in every reachable state, all balances sum to zero, and a report passes iff no open order is past its deadline |
| Recon.TamperedBalanceIsReported | src/main/java/com/yu/errand/repository/ReconRepository.java:19-26 | a balance changed outside the ledger is reported as exactly that account |
| Recon.TamperedLedgerIsReported | src/main/java/com/yu/errand/repository/ReconRepository.java:14-26 | a changed ledger row breaks the zero sum by the difference and exactly its account's balance |
| Recon.ReportOfTamperedBalance | src/main/java/com/yu/errand/service/ReconService.java:32-50 | which of the five checks fail for a balance set to another value, negative or not, wallet or escrow |
| Recon.ReportOfTamperedLedger | src/main/java/com/yu/errand/service/ReconService.java:32-50 | a changed ledger row fails exactly the zero sum and the balances among the money checks |
| Recon.ReportOfTamperedOrder | src/main/java/com/yu/errand/service/ReconService.java:32-50 | a changed order row fails the escrow check exactly if the escrow it asks for changes |
| Recon.ReportOfForgedRows | src/main/java/com/yu/errand/service/ReconService.java:32-50 | two rows posted by hand with their balances show exactly as a sum other than zero and as an overdrawn account, each by its own check |
| Outbox.OutboxRepository.ClaimBatch | src/main/java/com/yu/errand/repository/OutboxRepository.java:22-38 | the first due, unlocked rows come under the given lease with their counts; no other row changes |
| Outbox.OutboxRepository.MarkPublished | src/main/java/com/yu/errand/repository/OutboxRepository.java:40-43 | completes only a row still PROCESSING under this lease |
| Outbox.OutboxRepository.MarkRetry | src/main/java/com/yu/errand/repository/OutboxRepository.java:45-49 | the same guard for a retry |
| Outbox.OutboxRepository.MarkDead | src/main/java/com/yu/errand/repository/OutboxRepository.java:51-55 | the same guard for DEAD |
| Outbox.OutboxRepository.Replay | src/main/java/com/yu/errand/repository/OutboxRepository.java:67-69 | only a DEAD row starts again, with count 0 |
| Outbox.OutboxWorker.Publish | src/main/java/com/yu/errand/job/OutboxWorker.java:45-73 | a batch of at most 50 is claimed for 30 s and each event is completed or failed in turn, also when marking it published throws, until recording a failure throws |
| Outbox.EachByItsOwnOutcome | src/main/java/com/yu/errand/job/OutboxWorker.java:45-73 | a failing event does not hold up the rest of its batch, unless recording its failure throws; a completion whose answer is lost stands |
| OutboxRuns.OnlyNewestCompletes | src/main/java/com/yu/errand/repository/OutboxRepository.java:40-55 | only the newest claim of a row completes it; an older one changes nothing |
| OutboxRuns.RunIsFencedAndBudgeted | src/main/java/com/yu/errand/job/OutboxWorker.java:57-78 | fencing, and PENDING 0, RETRY 1 to 11, DEAD exactly 12 failed completions, in every run with clock lag under 30 s |
| OutboxRuns.LaggingClockBreaksFencing | src/main/java/com/yu/errand/job/OutboxWorker.java:75-78 | for every larger lag a stale worker completes another's row |
| OutboxRuns.PublishedIsForever | src/main/java/com/yu/errand/repository/OutboxRepository.java:22-69 | a PUBLISHED row never changes again |
| OutboxRuns.BatchIsSteps | src/main/java/com/yu/errand/repository/OutboxRepository.java:22-38 | a batch is as many single claims of the run model |
| OutboxRuns.DeathTakesTime | src/main/java/com/yu/errand/job/OutboxWorker.java:107-110 | DEAD comes after exactly twelve failures and at the earliest 1023 s after the first |
| OutboxRuns.ClaimAnswer | src/main/java/com/yu/errand/repository/OutboxRepository.java:22-38 | claims exactly a PENDING or RETRY row whose time has come or one whose lease ran out, with its count, for 30 s |
| OutboxRuns.CompletionAnswer | src/main/java/com/yu/errand/repository/OutboxRepository.java:40-55 | what publishing and failing write under the claim's own lease, with the doubling waits |
| OutboxRuns.ReplayAnswer | src/main/java/com/yu/errand/repository/OutboxRepository.java:67-69 | only a DEAD row waits again, at once and with no failures |
| OutboxRuns.DeathIsReached | src/main/java/com/yu/errand/job/OutboxWorker.java:57-72 | from every PENDING row claims and failures lead to DEAD, after exactly twelve failures |
| OutboxRuns.PublicationIsReached | src/main/java/com/yu/errand/job/OutboxWorker.java:45-56 | from every waiting row one claim and publication end it |
| Marker.MarkerRoundTrip | src/main/java/com/yu/errand/redis/GrabMarker.java:119-121 | the filter script reads back the deadline and publisher that were written |
| Marker.GrabMarker.ArmStrict | src/main/java/com/yu/errand/redis/GrabMarker.java:50-54 | both keys set with the same time to live; no other order's keys change |
| Marker.GrabMarker.TryPass | src/main/resources/lua/grab_filter.lua:3-14 | the decision and the consumed token are those of the script |
| Marker.FilterAnswer | src/main/resources/lua/grab_filter.lua:3-14 | the decision for every written marker, and without one by the shadow key |
| Marker.GrabMarker.Rearm | src/main/resources/lua/grab_marker_rearm.lua:1-5 | sets both keys iff the token is absent |
| Marker.TtlIsTight | src/main/java/com/yu/errand/redis/GrabMarker.java:88 | the time to live covers deadline and slack to within a second, and is at least one second |
| Marker.GrabMarker.RemoveStrict | src/main/java/com/yu/errand/redis/GrabMarker.java:108-110 | both keys gone |
| GrabProtocol.FilterReadsOwnMarker | src/main/resources/lua/grab_filter.lua:8-14 | with the order's own marker the script decides by the order's own deadline and publisher |
| GrabProtocol.RunIsHealthy | src/main/java/com/yu/errand/redis/GrabMarker.java:50-54 | the marker always carries the order's own deadline and publisher and outlives the deadline, in every interleaving |
| GrabProtocol.LockOutHasACause | src/main/java/com/yu/errand/service/GrabService.java:63-81 | in every run, a winnable order that the filter turns everybody away from has an unfinished or dead consumer of the missing token, or a flush fell between the two commands of a marker write |
| GrabProtocol.WithoutTornWritesOnlyGrabsLockOut | src/main/java/com/yu/errand/redis/GrabMarker.java:50-54 | where no flush finds a marker write half done, an unfinished or dead consumer is the only cause |
| GrabProtocol.ResyncHeals | src/main/java/com/yu/errand/job/MarkerResyncJob.java:26-42 | in every run one rearm puts the token of a winnable order back and unlocks it, whoever holds its row; while nobody does, the next grab of another user wins |
| GrabProtocol.FilterRejectionsAreRight | src/main/java/com/yu/errand/service/GrabService.java:50-64 | SELF_GRAB and EXPIRED of the filter are rejections of the database too, then and ever after |
| GrabProtocol.StraddlingFlushLocksOut | src/main/java/com/yu/errand/redis/GrabMarker.java:50-54 | a flush between the two commands locks an order out that nobody tried to grab |
| GrabProtocol.DeadGrabLocksOut | src/main/java/com/yu/errand/service/GrabService.java:50-71 | a grab that consumes the token and dies locks the order out |
| GrabService.GrabService.Grab | src/main/java/com/yu/errand/service/GrabService.java:42-82 | whatever limiter and Redis answer, the tables change only as the plain grab and the marker only by filter and rearm of this order; each rejection has the code of its cause |
| GrabService.FilteredWinIsAPlainWin | src/main/java/com/yu/errand/service/GrabService.java:50-71 | a win with the filter is a win without it |
| GrabService.RejectionIsTheSnapshotsAnswer | src/main/java/com/yu/errand/service/GrabService.java:88-104 | a loser gets the error that a grab on the snapshot's row would get, or GRAB_REJECTED for a lost race |
| GrabService.ProtocolAcceptsAsTheDatabase | src/main/java/com/yu/errand/repository/OrderRepository.java:63-73 | the grab protocol accepts a grab exactly where the database commits it |
| GrabService.MarkerResyncJob.Resync | src/main/java/com/yu/errand/job/MarkerResyncJob.java:26-42 | the cursor loop, while orders are created, taken and closed between pages, reaches every order active throughout unless Redis fails at its turn; what it reaches was active and has its marker, no other key changes |
| DelayIndex.IndexAgrees | src/main/java/com/yu/errand/job/OutboxWorker.java:80-105 | completed events mean indexed orders in any delivery order with duplicates, whatever any number of pollers do; handled terminal orders have no entry |
| DelayIndex.PollersDropOnlyUnneeded | src/main/java/com/yu/errand/job/DelayQueuePoller.java:26-45 | whichever of any number of pollers removes an entry, the order no longer needs it, unless it was a rolled-back grab's |
| DelayIndex.PollerEndsOverdue | src/main/java/com/yu/errand/job/DelayQueuePoller.java:26-45 | in every run one poll cancels an indexed PUBLISHED or TAKEN order exactly when its deadline has come |
| DelayIndex.RolledBackGrabLosesTheEntry | src/main/java/com/yu/errand/service/GrabService.java:65-71 | the exception as a run from the initial state |
| Poller.SelectDue | src/main/java/com/yu/errand/redis/DelayQueue.java:29-37 | the due members of lowest score, at most the limit |
| Poller.DelayQueuePoller.PollKind | src/main/java/com/yu/errand/job/DelayQueuePoller.java:26-45 | acts on each due member, removes it unless the call threw, and returns the largest lag |
| Poller.RoundDropsOnlyUnneeded | src/main/java/com/yu/errand/job/DelayQueuePoller.java:26-45 | with scores at the deadlines no call throws and no removed member's order still waits |
| RateLimit.GrabRateLimiter.Allow | src/main/resources/lua/grab_rate_limit.lua:1-6 | both counters count every request, and the answer is whether both are within their limits |
| RateLimit.OneWindow | src/main/resources/lua/grab_rate_limit.lua:1-6 | at most the limit is allowed within one window of a key |
| RateLimit.TwiceTheLimit | src/main/resources/lua/grab_rate_limit.lua:1-6 | at most twice the limit is allowed in any interval no longer than the window |
| RateLimit.NoFalseRefusal | src/main/resources/lua/grab_rate_limit.lua:1-6 | nobody is refused while user and order stay within their limits over the last window |
| Login.LoginAttemptGuard.FallbackAllow | src/main/java/com/yu/errand/security/LoginAttemptGuard.java:89-113 | answers from live windows only and drops the dead ones it looks at |
| Login.LoginAttemptGuard.FallbackRecordFailure | src/main/java/com/yu/errand/security/LoginAttemptGuard.java:97-123 | counts in the live window of each key, or starts a new one |
| Login.FallbackSimulatesScript | src/main/resources/lua/login_attempt.lua:1-13 | the lazily expiring map answers every sequence of calls as the Redis counters do |
| Login.FallbackAgreesIffLimitsArePositive | src/main/java/com/yu/errand/security/LoginAttemptGuard.java:89-95 | they agree on every history iff both limits are positive |
| Login.LoginIsBlockedAtTheLimit | src/main/resources/lua/login_attempt.lua:1-13 | after n failures in a window a login passes exactly while n is below both limits, and again when the window is over |

## Left out

- OrderServices.OrderService.Create: the marker write and the delay-index entry made inside the transaction are actions of `GrabProtocol.dfy` and `DelayIndex.dfy`, not of this method.
- PaymentServices.PaymentService.Callback: after a clash of unique keys the second lookup sees the same snapshot as the first, as in one MySQL transaction of the default isolation level, so a concurrent duplicate aborts; at a level where it saw the winner it would replay, with the same tables.
- PaymentServices.RefundService.Refund: the same holds for the lookup after a clash of refund keys.
- SettleRetry.SettleRetryJob.Retry: nothing else runs during the pass, and recording a failure does not itself throw; in the run model each attempt is a step of its own.
- Outbox.OutboxWorker.Publish: nothing else runs during the batch; in `OutboxRuns.dfy` each completion is a step of its own.
- GrabService.GrabService.Grab: the winner's delay-index entry is an action of `DelayIndex.dfy`.
- GrabService.MarkerResyncJob.Resync: nobody else writes to Redis during the pass and its clock stands still; `GrabProtocol.ResyncHeals` covers one rearm amid other actions.
- Poller.SelectDue: the order among members of equal score is left open, so what follows holds for each.
- Poller.RoundDropsOnlyUnneeded: needs scores at the orders' deadlines, which `DelayIndex.IndexAgrees` gives while no grab rolls back after writing its entry.
- DelayIndex.IndexAgrees: one clock, no flush, and each event handled as one step, because a handler that stalls between its read and its write can restore an old entry.
- GrabProtocol.LockOutHasACause: one clock, a slack of at least one second, and Redis losing data only by expiry or by a flush of everything.
- RateLimit.TwiceTheLimit: while Redis is available; without it the limiter lets every request through.
- Store.Database.StartOp: a missing request hash, which matches every request, is not modelled; settlement and recharge always pass one.
- Digests and normalisation of login names and addresses: the keys are the names themselves.
- Deadlocks and lock waits: a victim is an aborted step of the run model.
- MySQL collation of keys and Unicode white space: strings are compared exactly, and trim and isBlank know the ASCII blanks.
- PaymentTheorems.CallbackCommitsIff: an id that exceeds its column by trailing spaces only, which MySQL cuts off, counts as too long.
- Widths of the other text columns (refund and compensation keys, reasons): no theorem says exactly when those transactions commit.
- 64-bit overflow: amounts and ids are unbounded integers.
- The nanoTime business id of a recharge is an arbitrary input; a collision aborts the transaction.
- Titles, nicknames, reasons, error texts, JSON answers and timestamps that no guard reads.
- Notification delivery and the numeric id of a notification: an event is identified by its notification key.
- Promotion of a user to administrator at start-up, registration checks and password hashing: users appear with a role that never changes.
- Window objects of the login guard are values in a map, so sharing of one object is not modelled.
- HTTP, Spring wiring, metrics, audit log, JWT, HMAC and the scripts: no state that the properties speak of.
