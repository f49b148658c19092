# PrintQ: a verified model of its ledgers, queue and print protocol

PrintQ lets students send documents to a print shop, check in at the counter, pay there and collect the paper. This
project models the parts of its API that are hardest to get right and proves properties of that model in Dafny 4.11.
Check everything with `dafny verify dfyconfig.toml --resource-limit 2000000 --verification-time-limit 0`.

| file | what it models |
|---|---|
| `Basics.dfy`, `Numbers.dfy`, `Text.dfy` | optional values, shared numbers, the commission of a print, sums over columns, `ORDER BY` selections, string operations |
| `StateMachine.dfy` | the job lifecycle table |
| `Transitions.dfy` | a status change: the generated one-statement SQL and the transaction path |
| `FeeLedger.dfy`, `FeeAllocation.dfy`, `FeeInvariant.dfy`, `FeeRuns.dfy`, `StatementPeriod.dfy` | the platform-fee ledger: entries, weekly statements, payments, prepayment, blocking; its invariant; its runs |
| `FeeOutcomes.dfy`, `FeeService.dfy`, `FeeWebhook.dfy` | what the transactions decide and write, column by column; the ledger's transactions in place, reconciliation with the payment provider, the webhook filter |
| `QueueBands.dfy`, `RevealPass.dfy`, `CounterLine.dfy`, `CounterRelease.dfy`, `QueueSnapshot.dfy`, `SingleFlight.dfy` | the counter line: bands, the SQL reveal pass, runs of the line, the counter-code release, the patched snapshot, the per-shop single flight |
| `PrintLease.dfy`, `PrintDesk.dfy` | one job's print lease and payment; all jobs of a shop beside their commission entries |
| `FileRetention.dfy`, `FileRace.dfy`, `OrderRace.dfy` | reference-counted file deletion, one handler at a time and with reads and writes apart; racing order creations on one file |
| `PageRange.dfy`, `Pricing.dfy` | page-range parsing and printing; the price chain |

How the model is built:

- Rows are datatypes and tables are sequences; a row's id is its insertion number. Money is integer paise, time is
  integer milliseconds and always a parameter. Provider answers, object-store failures, liveness of print computers and
  the choice of printer are parameters of the step that uses them.
- Every transaction is a function from state to state. The classes (`FeeTables`, `ShopTable`, `Till`, `Snapshot`, `Flights`,
  `JobTables`, `Counter`, `Store`, `OrderTable`) change fields step by step as the code does, and their methods are proved equal
  to those functions; the properties are then proved of the functions, over all runs.
- A run is any finite sequence of steps by any of the actors, with any parameters and any times unless a row below says otherwise.

## What the code does not do

These are results about the code as it is. Each names the lemma that states it.

- `spoolAcceptedAt` is never cleared by a failure, a retry or a new claim. A job retried after a spool timeout is lost
  at its first instant, even on a healthy computer (`PrintLease.RetryAfterSpoolTimeoutIsLostAtOnce`); the exact condition
  is `PrintLease.FreshClaimLostIffStaleSpool`. The same stale acknowledgement hides the job from restart recovery
  (`PrintLease.RestartMissesIffAcknowledged`).
- The maintenance sweep's coarse query uses the shorter of the lease and claim limits, with a strict comparison, and not
  the spool limit. A configured spool limit shorter than both is noticed late (`PrintLease.SweepCanBeLateForSpool`);
  exactly what is missed is `PrintLease.SweepMissesExactly`.
- The comment on the single flight says at most one pass runs. It holds in every run without a call in a gap
  (`SingleFlight.OnePassOutsideGaps`), and every call in a gap breaks it (`SingleFlight.GapCallOverlaps`,
  `SingleFlight.ExclusionEndsAtGap`). A gap lasts from `finish`, the first callback registered on the pass, to the promise turns
  two links further on that run `startPass`; code resumed by the same pass in between, such as its first caller, can call there.
  Every caller still gets a pass that started after its call (`SingleFlight.CallsAreFresh`).
- The rule that a file with a started deletion clock takes no new order covers the short clock only. When the upload's
  hard deadline is the earlier one, the short clock never starts and the overdue file can be ordered from
  (`FileRetention.OverdueFileTakesOrders`; exactly when the clock starts is `FileRetention.ClockStartsIffEarlier`).
- A deletion is final exactly when no conversion of the file is still running; the last write of a conversion, success or
  failure, brings the row back (`FileRetention.DeletionIsFinalIff`, `FileRetention.RevivedFileIsReachable`).
- A deletion attempt that fails after the converted document's key leaves a ready row that still names it, and the next
  order has no document (`FileRetention.OrderWithoutContentIsReachable`). The record of the failure may be lost with it, so
  `deletionAttempts` does not tell. Exactly when a document is missing is `FileRetention.MissingIffLost`; a deadline still ahead
  is what keeps an order's document (`FileRetention.OrderBeforeDeadlineKeepsContent`), and nothing else on a row that takes an
  order tells (`FileRetention.RowPromisesContentIff`).
- The sweep reads a file's jobs and deletes later, the order route checks the file and inserts later, and no lock covers both. An
  order placed in between has its file deleted under it (`FileRace.DeletedUnderOrderIsReachable`). What breaks it is
  `FileRace.LosesExactly`; whether an insert is safe is `FileRace.InsertIsSafeIffNoSweep`; a check of the row at the insert that
  rules it out is `FileRace.RecheckedInsertsKeepContent`.
- A deletion removes the objects the row names and no others; a document of an earlier conversion run stays in the store
  (`FileRetention.EarlierConversionOutlivesDeletion`, `FileRetention.DeletionRemovesNamedObjects`).
- A non-empty blank page range counts as malformed but displays as all pages (`PageRange.CountAgreesWithDisplay`).
- A freeze may raise the amount due: exactly when credits after the cutoff would have reduced it and prepayment does not
  cover the statement (`FeeRuns.FreezeAndAmountDue`). A refund after the Monday midnight of its print's week does it
  (`FeeRuns.FreezeCanRaiseAmountDue`).
- Rival withdrawal on one file keeps one active order exactly as long as no insert carries an older `createdAt` (then id) than an
  active order that has already survived its check (`OrderRace.ExposedIffBackdated`, `OrderRace.ExposedIffTwoSurvivors`);
  `OrderRace.BackdatedInsertDefeatsCheck` is a run with such an insert.
- A preview patched with a pass that ran on a later line shows stale positions or ETAs exactly when a job left, joined, moved or
  was reassigned to another ETA in between, and a stale band or deadline exactly when a job this pass did not reveal was read
  with one (`QueueSnapshot.PreviewPatchEqualsReloadIff`, `QueueSnapshot.StaleDeadlinesIff`). A reveal by another pass between the
  read and the lock is such a case: the patch reports success and the student sees no deadline
  (`QueueSnapshot.PreviewMissesConcurrentReveal`).

## Model

| member | source | states |
|---|---|---|
| `FeeRuns.LedgerIdentity` | apps/api/src/modules/fees/account.ts:94-139 | On every reachable state the ledger balance is the debt on statements plus open entries minus prepayment; the amount asked exceeds the balance by exactly the surplus prepayment; prepayment and debt never coexist. |
| `FeeRuns.ReachableIsOk` | apps/api/src/modules/fees/payments.ts:149-193 | Every run keeps the whole ledger invariant: each statement due equals its lines, paid equals its allocations, 0 <= paid <= due, settled iff fully paid, each paid payment's amount is its allocations plus its unallocated part, one settlement entry per paid payment, at most one open order. |
| `FeeRuns.BalanceMoves` | apps/api/src/modules/commission/service.ts:97-103 | Only a first commission, a first refund credit, a manual credit and an accepted settlement move the ledger balance, each by exactly its amount; freezes, orders, expiries and blocks never do. |
| `FeeRuns.FreezeAndAmountDue` | apps/api/src/modules/commission/statementService.ts:35-74 | A freeze never lowers the amount due and keeps it equal iff entries after the cutoff net to at least zero or prepayment covers what was due before it; the balance is unchanged and the statement is due exactly the entries before the cutoff. |
| `FeeRuns.FreezeCanRaiseAmountDue` | apps/api/src/modules/commission/statementService.ts:35-97 | In every week a run of a print before the IST Monday midnight, its refund after it and the weekly freeze goes from nothing due to an amount due, the balance zero throughout. |
| `FeeRuns.RefusedFreezeChangesNothing` | apps/api/src/modules/commission/statementService.ts:35-56 | A freeze that is refused, including every surplus of credits, changes no row. |
| `FeeRuns.PrepaidUse` | apps/api/src/modules/fees/account.ts:117-139 | A new statement draws the smaller of its due amount and all prepayment. |
| `FeeRuns.SettlingTheDueClears` | apps/api/src/modules/fees/payments.ts:149-203 | A settlement of exactly the amount due leaves nothing due, every statement paid and the shop unblocked. |
| `FeeRuns.PayingTheQuoteClears` | apps/api/src/modules/fees/payments.ts:48-99 | Requesting an order and paying exactly it, with no ledger change in between, clears the account and lowers the balance by the quote. |
| `FeeRuns.RefusedSettlementChangesNothing` | apps/api/src/modules/fees/payments.ts:117-147 | A settlement happens iff the delivery names an unpaid order with its exact amount and currency and an unused payment id; any other delivery changes no row, and repeating an accepted one is a no-op. |
| `FeeRuns.PaidIsAbsorbing` | apps/api/src/modules/fees/payments.ts:129-136 | No event un-pays a paid order, changes its payment or rewrites a ledger entry. |
| `FeeRuns.WaterfallFillsInOrder` | apps/api/src/modules/fees/payments.ts:151-173 | When a later row of the allocation loop receives money every earlier row is fully paid. |
| `FeeRuns.WeeklyRunsPayOldestFirst` | apps/api/src/modules/fees/payments.ts:151-173 | Over runs that freeze week by week, no paise sits on a statement while an older one is short. |
| `FeeRuns.BlockTracksDebt` | apps/api/src/modules/fees/enforcement.ts:23-66 | Over every run: right after an evaluation the shop is blocked iff some statement is overdue and no override is active, evaluating again is a no-op, and a block flag always records the instant of an evaluation that found an overdue statement. |
| `FeeRuns.LiftedStaysOpen` | apps/api/src/modules/admin/routes.ts:441-475 | Whatever events happen before the override ends, the lifted shop stays unblocked and the override keeps its end; from then on an evaluation blocks iff something is overdue. The lift changes no amount and what was overdue stays overdue. |
| `FeeAllocation.AllocateIsWaterfall` | apps/api/src/modules/fees/payments.ts:155-173 | The allocation loop equals a closed form: each row gets what is left after everything owed ahead of it, up to what it owes. |
| `FeeAllocation.AllocateRemaining` | apps/api/src/modules/fees/payments.ts:151-193 | What the loop keeps as prepayment is the amount minus everything owed, or zero. |
| `FeeAllocation.AllocateConserves` | apps/api/src/modules/fees/payments.ts:155-173 | Money leaves the payment exactly as it reaches the statements, row by row and in total. |
| `FeeAllocation.AllocateSpreads` | apps/api/src/modules/fees/payments.ts:155-173 | The loop keeps every statement within its due amount, touches only listed rows and adds at most one allocation per row. |
| `FeeAllocation.DrawAllConserves` | apps/api/src/modules/fees/account.ts:117-139 | Drawing prepayment over many payments conserves money per payment and in total. |
| `FeeAllocation.DrawAllExhausts` | apps/api/src/modules/fees/account.ts:117-139 | When some of the statement stays short, every listed payment's prepayment is used up. |
| `FeeInvariant.FreezeMovesOpen` | apps/api/src/modules/commission/statements.ts:17-38 | A freeze takes exactly the entries before the cutoff off the open ones, and the statement's due amount is their sum. |
| `FeeInvariant.FreezeKeepsInv` | apps/api/src/modules/commission/statementService.ts:25-76 | A freeze keeps the ledger invariant, each entry on at most one statement. |
| `FeeInvariant.SettleKeepsInv` | apps/api/src/modules/fees/payments.ts:117-203 | A settlement keeps the ledger invariant. |
| `FeeInvariant.SettleTotals` | apps/api/src/modules/fees/payments.ts:149-193 | A settlement lowers the total debt by its amount down to zero and turns only the rest into prepayment. |
| `FeeInvariant.CreateOrderKeepsInv` | apps/api/src/modules/fees/payments.ts:48-99 | Requesting an order keeps the invariant, at most one open order included. |
| `FeeInvariant.UndrawnMeansPaid` | apps/api/src/modules/fees/account.ts:117-139 | Prepayment survives a draw only if the statement was paid in full. |
| `FeeOutcomes.FreezeDecides` | apps/api/src/modules/commission/statementService.ts:25-56 | Which answer a freeze gives, each iff: it freezes iff the period is proper and new, some commission or credit from before its end is on no statement, both totals are safe integers, and the credits do not exceed the charges; a credit alone never stops it. |
| `FeeOutcomes.FrozenStatementCarries` | apps/api/src/modules/commission/statementService.ts:58-76 | The new statement carries the period, the charge and credit totals, their difference as due, what prepayment covers as paid, a due date of the terms from now iff fees are on and something is due, and is settled iff covered; no other statement, entry or flag changes. |
| `FeeOutcomes.FrozenLinesAre` | apps/api/src/modules/commission/statementService.ts:34-72 | An entry gets a line of its own amount on the new statement iff it was billable; earlier lines stay. |
| `FeeOutcomes.PrepaidOldestFirst` | apps/api/src/modules/fees/account.ts:117-139 | A payment is drawn on only when every prepayment made earlier is used up. |
| `FeeOutcomes.OrderDecides` | apps/api/src/modules/fees/payments.ts:48-99 | An order request reuses an order iff one is open, unexpired and for exactly the amount due, and then that one; it opens one only for a positive amount under a new provider id; it writes nothing unless it opens one. |
| `FeeOutcomes.OpenedOrderIs` | apps/api/src/modules/fees/payments.ts:48-99 | The new order asks the amount due in INR for an hour; every other open order is expired, every other column kept. |
| `FeeOutcomes.StaleOrdersExpire` | apps/api/src/modules/fees/payments.ts:334-341 | The expiry sweep changes exactly the open orders past their hour, to expired. |
| `FeeOutcomes.SettlementWrites` | apps/api/src/modules/fees/payments.ts:149-203 | An accepted settlement pays the order now by this payment, keeps as prepayment exactly what no statement owed, appends one entry of minus the amount, and only pays into statements, settling one now iff it becomes fully paid. |
| `FeeOutcomes.SettlementDecides` | apps/api/src/modules/fees/payments.ts:117-147 | Unknown order, already paid, conflict, mismatch and duplicate payment id, each iff its condition on the order named. |
| `FeeOutcomes.AttemptsMark` | apps/api/src/modules/fees/payments.ts:223-235 | An attempt marks a created order only, a failure a created or attempted one; no other column changes. |
| `FeeOutcomes.CommissionWrites` | apps/api/src/modules/commission/service.ts:35-74 | A first completed print appends one commission of the margin over the shop base, never below zero; a repeated post writes nothing. |
| `FeeOutcomes.RefundWrites` | apps/api/src/modules/admin/routes.ts:590-652 | A refund appends minus the job's own commission once. |
| `FeeOutcomes.ReconcileSettlesIff` | apps/api/src/modules/fees/payments.ts:244-274 | Reconciling an unpaid order settles iff the provider lists a capture of it of the exact amount and currency and the first of them is by a payment no order has; it is then that payment's settlement; a first one already used stops with an error. |
| `FeeOutcomes.ReconcileAnswers` | apps/api/src/modules/fees/payments.ts:244-274 | Without an exact capture the answer is failed, with a created or attempted order marked so, iff an attempt was rejected and none is captured or authorized; else pending; an order seen paid is answered paid. |
| `FeeOutcomes.OverdueIff` | apps/api/src/modules/fees/enforcement.ts:33-42 | Something is overdue iff fees are on and a payable statement is short with its due date plus the overdue grace passed. |
| `FeeOutcomes.EvaluationWrites` | apps/api/src/modules/fees/enforcement.ts:43-66 | With something overdue and no override to a later time, a blocked shop keeps the instant it was blocked at and an open one is blocked now; otherwise it is open; a lift opens a blocked shop for its days. |
| `FeeOutcomes.AccountShows` | apps/api/src/modules/fees/account.ts:40-99 | The account asks what each payable or settled statement is short of. |
| `FeeOutcomes.AdoptionWrites` | apps/api/src/modules/fees/enforcement.ts:144-152 | Adoption gives exactly the short statements without a due date the full terms from now, and only while fees are on. |
| `FeeOutcomes.BlockComesAfterTerms` | apps/api/src/modules/fees/enforcement.ts:23-66 | Over every run with a forward clock and fees switched on and off at will, a shop is blocked no earlier than terms plus overdue grace after some statement of it was frozen. |
| `StatementPeriod.WindowEndsThisMonday` | apps/api/src/modules/commission/statementService.ts:79-86 | The window is seven days long and its end is the one Monday midnight in India with end <= now < end + 7 days. |
| `StatementPeriod.WindowsAbut` | apps/api/src/modules/commission/statementService.ts:79-86 | Two readings of the clock give the same window or disjoint windows in order; readings a week apart give abutting windows. |
| `FeeService.SumStatement` | apps/api/src/modules/commission/statements.ts:17-34 | The two-accumulator loop computes gross, credit and due of a list of amounts. |
| `FeeService.ReconcileSettlesOnce` | apps/api/src/modules/fees/payments.ts:244-274 | However many payments the provider lists, reconciling changes nothing or makes exactly one settlement, of a captured payment in the list, and then reports paid. |
| `FeeService.ReportedPaidIsPaid` | apps/api/src/modules/fees/payments.ts:244-274 | When reconciliation of an unpaid order reports paid, its row is paid. |
| `FeeService.FeeTables.PostVerifiedPrintCommission` | apps/api/src/modules/commission/service.ts:35-74 | Posting in place equals the specified upsert for a pay-at-shop job that is paid, counter-confirmed, print-confirmed and printed, and writes nothing for any other. |
| `FeeService.FeeTables.ConfirmCounterRefund` | apps/api/src/modules/admin/routes.ts:590-652 | A refund is accepted iff the job could be charged, is not refunded yet, and has its commission and no credit; it reverses that commission and marks the job refunded, so it can never be charged again; a refusal writes nothing. |
| `FeeService.FeeTables.ApplyPrepaidToStatement` | apps/api/src/modules/fees/account.ts:117-139 | The draw loop equals the specified oldest-first draw. |
| `FeeService.FeeTables.FreezeWeeklyCommissionStatement` | apps/api/src/modules/commission/statementService.ts:25-76 | The freeze in place equals the specified freeze, refusals included. |
| `FeeService.FeeTables.CreateFeeOrder` | apps/api/src/modules/fees/payments.ts:48-99 | Expiry, reuse and creation of an order in place equal the specified step. |
| `FeeService.FeeTables.SettleFeePayment` | apps/api/src/modules/fees/payments.ts:117-203 | The settlement loop over statement rows equals the specified settlement. |
| `FeeService.FeeTables.MarkFeeAttemptFailed` | apps/api/src/modules/fees/payments.ts:224-231 | Only created or attempted orders become failed. |
| `FeeService.FeeTables.ReconcileFeeOrder` | apps/api/src/modules/fees/payments.ts:244-274 | The provider's payments are settled in listed order as specified. |
| `FeeService.FeeTables.EvaluateShopFeeBlock` | apps/api/src/modules/fees/enforcement.ts:23-66 | The block flag in place equals the specified evaluation. |
| `FeeWebhook.HandleFeeWebhook` | apps/api/src/modules/fees/webhook.ts:57-107 | The handler on the tables equals the specified one, whose effects the next rows give on payload fields. |
| `FeeWebhook.UnhandledIff` | apps/api/src/modules/fees/webhook.ts:57-77 | A delivery is handed back iff its event is another one, its payment entity is malformed, or its order is not ours; on payload fields. |
| `FeeWebhook.FailuresMark` | apps/api/src/modules/fees/webhook.ts:77-95 | An order is marked failed iff the payload is payment.failed with a well-formed payment of that order, no contradicting notes, and the order created or attempted; nothing else but a settlement changes a row. |
| `FeeWebhook.RedeliveryIsNoOp` | apps/api/src/modules/fees/webhook.ts:57-107 | Handling the same webhook payload a second time changes nothing. |
| `FeeWebhook.FailureAndCaptureCommute` | apps/api/src/modules/fees/webhook.ts:57-107 | A failure notice before or after an accepted capture of the same order leaves the same state. |
| `FeeWebhook.MoneyMovesOnlyOnCapture` | apps/api/src/modules/fees/webhook.ts:57-107 | On payload fields: the ledger changes iff the event is payment.captured or order.paid, the payment entity is well formed, an order entity carries the same id, notes are absent, empty or name our row, the status is absent or captured, and the order is ours, unpaid, of this amount and currency, by a payment no order has; it then is that order's settlement. |
| `StateMachine.TerminalIsExactlyStuck` | packages/shared/src/stateMachine.ts:88-89 | The terminal statuses are exactly those no event leaves. |
| `StateMachine.PathsAreOneWay` | packages/shared/src/stateMachine.ts:27-63 | Along every path, leaving the statuses that need the file and reaching paper are one-way. |
| `StateMachine.PaperNeedsConfirmation` | packages/shared/src/stateMachine.ts:27-63 | Every path that reaches paper passes a print confirmation out of printing. |
| `StateMachine.EventHasOneTarget` | packages/shared/src/stateMachine.ts:27-63 | The table event by event: each event leads to one status only, from exactly its listed statuses. |
| `Transitions.FastPathAgrees` | apps/api/src/modules/jobs/transitions.ts:97-137 | Whenever data and guard are accepted, the generated statement never errs and leaves the same row, one audit event and one outbox row as the transaction path, and nothing when no row matches. |
| `Transitions.GuardsAgree` | apps/api/src/modules/jobs/transitions.ts:75-95 | The SQL guard under three-valued logic selects exactly the rows the filter admits. |
| `Transitions.SetsAgree` | apps/api/src/modules/jobs/transitions.ts:60-73 | The generated assignments, all evaluated on the old row, equal the update data applied column by column. |
| `Transitions.EntryStores` | apps/api/src/modules/jobs/transitions.ts:16-51 | Every accepted value fits its column's schema type: no cast fails and no NOT NULL column receives NULL. |
| `Transitions.OneWinnerPerStatus` | apps/api/src/modules/jobs/transitions.ts:139-144 | Over any run of calls that expect one status of one job, from any number of callers, at most one wins and writes; the rest change nothing. |
| `Transitions.WinsIff` | apps/api/src/modules/jobs/transitions.ts:139-199 | With guards of the translated shapes a call wins iff its event leaves the expected status, the job has it and its row passes every guard; it then adds exactly one audit event and one outbox row, otherwise nothing. |
| `Transitions.WinnerWrites` | apps/api/src/modules/jobs/transitions.ts:160-199 | A winner leaves each given scalar in its column, and a counter plus its increment. |
| `Transitions.FastPathTakenIff` | apps/api/src/modules/jobs/transitions.ts:60-118 | The one-statement path is taken iff every datum is of a listed column and of its type, counters only as whole increments, and every guard is of the translated shapes. |
| `Transitions.TypesAdmit` | apps/api/src/modules/jobs/transitions.ts:16-51 | Which values each listed column admits, by column and not by kind. |
| `Transitions.WinnerTouchesOnlyItsColumns` | apps/api/src/modules/jobs/transitions.ts:160-199 | A winner moves one job to the status the table names and touches only the columns it was given. |
| `Transitions.TrailExplainsStatus` | apps/api/src/modules/jobs/transitions.ts:177-197 | Over every run each job's audit events form a legal path to its status, and the outbox holds exactly one row per event. |
| `Transitions.GuardClauses` | apps/api/src/modules/jobs/transitions.ts:75-95 | The clause-pushing loops equal the specified compilation. |
| `Transitions.FastPathSql` | apps/api/src/modules/jobs/transitions.ts:97-137 | The set-building loop equals the specified compilation. |
| `Transitions.JobTables.ApplyTransition` | apps/api/src/modules/jobs/transitions.ts:145-199 | Whichever path runs, tables and answer are the transaction path's. |
| `QueueBands.AssignBandMap` | packages/shared/src/queueBands.ts:40-52 | The loop fills the map with exactly the specified bands. |
| `QueueBands.BandsByRank` | packages/shared/src/queueBands.ts:40-52 | A job's band depends only on whether it is revealed and how many unrevealed jobs stand ahead. |
| `QueueBands.BandsArePositional` | packages/shared/src/queueBands.ts:40-52 | When revealed jobs form a prefix, bands are revealed up to max(r, cap), arriving for the next cap, waiting after. |
| `QueueBands.BandsAreQueueBands` | packages/shared/src/queueBands.ts:19-35 | The line's bands equal the position-only bands at every place iff no more jobs are revealed than the capacity. |
| `QueueBands.FrontBandsArePositional` | packages/shared/src/queueBands.ts:19-52 | If nobody behind the first capacity places is revealed, in whatever pattern within them, bands are the position-only ones. |
| `RevealPass.PassWinsWhatLoopSays` | apps/api/src/modules/queue/bands.ts:161-200 | The rank-based SQL pass wins exactly the jobs the loop newly marks revealed, and the un-notified ones it marks arriving. |
| `RevealPass.NeedsReconcileIsExact` | apps/api/src/modules/queue/bands.ts:131-146 | A pass is needed exactly when it would win some job. |
| `RevealPass.PassWrites` | apps/api/src/modules/queue/bands.ts:161-200 | Row by row what the pass writes: an unrevealed job of the revealed band gets its reveal now and its deadline the shop's grace later; an un-notified one of the arriving band its notice; every other row and column stays. |
| `RevealPass.PassRevealsTheBand` | apps/api/src/modules/queue/bands.ts:161-200 | After the pass exactly the jobs in the revealed band carry a reveal, and rows revealed before are untouched. |
| `RevealPass.RevealedAfterPass` | apps/api/src/modules/queue/bands.ts:161-200 | The pass fills the counter to max(r, cap) or the whole line. |
| `RevealPass.PassKeepsBands` | apps/api/src/modules/queue/bands.ts:161-200 | Writing the reveals down changes no band. |
| `RevealPass.PassIsIdempotent` | apps/api/src/modules/queue/bands.ts:131-200 | After a pass nothing needs reconciling and a second pass changes nothing. |
| `CounterLine.RunsKeepLineOk` | apps/api/src/modules/queue/bands.ts:161-200 | Over every run revealed jobs form a prefix of the line and never outnumber the largest capacity so far, given check-in times that increase. |
| `CounterLine.NoUnreveal` | apps/api/src/modules/queue/bands.ts:259-280 | No step hides a revealed job that stays in line. |
| `CounterLine.NoOvertaking` | apps/api/src/modules/queue/engine.ts:402-427 | No step swaps two jobs that both stay in line. |
| `CounterLine.ReachableBands` | packages/shared/src/queueBands.ts:40-52 | In every reachable state bands follow from place, number revealed and capacity. |
| `CounterLine.CheckInJoinsAtBack` | apps/api/src/modules/queue/engine.ts:402-427 | A check-in joins at the back of the line. |
| `CounterLine.PassKeepsLine` | apps/api/src/modules/queue/bands.ts:161-200 | A pass keeps the line's members and order. |
| `CounterLine.LeavingKeepsOrder` | apps/api/src/modules/queue/engine.ts:496-523 | A job that leaves takes only its own place with it. |
| `CounterLine.LineStepsWrite` | apps/api/src/modules/queue/engine.ts:402-523 | Check-in, absence, cancellation, release and disarming each write their own row only, from exactly their statuses and columns. |
| `CounterLine.LineOrder` | apps/api/src/modules/queue/bands.ts:161-175 | Along the line check-in times grow, jobs without one last; equal times by creation, then row. |
| `CounterLine.GraceIsKept` | apps/api/src/modules/queue/bands.ts:185-187 | Over every run with grace settings between lo and hi seconds, the timer takes no job out of line before its reveal plus lo, and, unless disarmed, does from its reveal plus hi on. |
| `CounterLine.ShopTable.CheckInJob` | apps/api/src/modules/queue/engine.ts:318-434 | A queued job is answered as it stands; a job joins iff its status allows it and payment, place, time and printer admit it; then the commit equals its specification and the job stands at the back; otherwise nothing changes. |
| `CounterLine.ShopTable.MarkAbsentRow` | apps/api/src/modules/queue/engine.ts:496-523 | The absent update in place, with the timer's overdue guard, equals its specification. |
| `CounterLine.ShopTable.RunRevealPass` | apps/api/src/modules/queue/bands.ts:161-200 | Each row is left alone, revealed now with the grace to its deadline, or notified now; after the locked pass the line is unchanged, nothing needs reconciling and the counter is between its old size and capacity. |
| `QueueSnapshot.BuildShopQueue` | apps/api/src/modules/queue/bands.ts:44-66 | The per-printer map loop computes positions, bands and ETAs as specified. |
| `QueueSnapshot.ViewShows` | apps/api/src/modules/queue/bands.ts:44-66 | Place counted from one, band by rank, ETA iff a printer is assigned, deadline only in the revealed band. |
| `QueueSnapshot.PagesAheadAre` | apps/api/src/modules/queue/bands.ts:50-60 | Pages ahead are the sum over earlier jobs of the same printer of pages per copy times copies. |
| `QueueSnapshot.SpeedIs` | apps/api/src/modules/queue/bands.ts:44-58 | The speed is the printer's own, at least one page a minute, 15 for an unknown printer. |
| `QueueSnapshot.EtaRoundsUp` | apps/api/src/modules/queue/bands.ts:50-60 | An ETA is the pages ahead on that printer divided by its speed, rounded up. |
| `QueueSnapshot.EtaNeverDecreases` | apps/api/src/modules/queue/bands.ts:50-60 | ETAs never decrease along one printer's line. |
| `QueueSnapshot.PatchFailsExactly` | apps/api/src/modules/queue/bands.ts:309-323 | Patching returns false iff the pass won a job missing from the snapshot. |
| `QueueSnapshot.PatchPointwise` | apps/api/src/modules/queue/bands.ts:309-323 | A successful patch writes exactly the won timestamps, job by job. |
| `QueueSnapshot.PatchedPreviewShowsReloadIff` | apps/api/src/modules/queue/bands.ts:335-343 | For any preview: the patch is complete iff it has every won job, and with the same settings the rebuilt preview shows what a reload shows iff it lists the same jobs in the same order with the line's ETAs, bands and the deadlines the pass left. |
| `QueueSnapshot.PreviewPatchEqualsReloadIff` | apps/api/src/modules/queue/bands.ts:309-343 | For any preview read before the lock, whoever wrote in between: patch complete and view equal to a reload iff no job left, joined or moved, no reassignment changed an ETA, and the jobs this pass did not reveal get the line's bands and were read with its deadlines. |
| `QueueSnapshot.StaleDeadlinesIff` | apps/api/src/modules/queue/bands.ts:309-343 | While only jobs within the capacity are revealed, the third condition is just: every job already revealed at the lock was read with its deadline. |
| `QueueSnapshot.PreviewMissesConcurrentReveal` | apps/api/src/modules/queue/bands.ts:335-343 | Another pass between read and lock leaves a complete patch that shows a revealed job without the deadline a reload shows. |
| `QueueSnapshot.PatchEqualsReload` | apps/api/src/modules/queue/bands.ts:309-328 | A snapshot of the very line the pass ran on always patches to what a reload shows. |
| `QueueSnapshot.Snapshot.ApplyPassToQueue` | apps/api/src/modules/queue/bands.ts:309-323 | The in-place patch equals its specification. |
| `CounterRelease.OverrideAskedIff` | apps/api/src/modules/queue/release.ts:155-166 | On every reachable line: an override is asked for iff the order can be released, staff did not set it, and the job does not stand among the first max(revealed, capacity) of the line; the answer carries its position. |
| `CounterRelease.RevealedNeedsNoOverride` | apps/api/src/modules/queue/visibility.ts:8-21 | For a job in line the override is asked for iff a pass at that moment would leave it unrevealed; never for one that shows its code. |
| `CounterRelease.AnswersExactly` | apps/api/src/modules/queue/release.ts:115-222 | Past the queue check each answer iff its condition; the printer named is the manual one, else the current one if eligible, else the recommended one. |
| `CounterRelease.AnswerWrites` | apps/api/src/modules/queue/release.ts:135-256 | What each answer writes: a completing release its own row's status, printer and queue time; a pausing one the deadline of a job in line; any other nothing. |
| `CounterRelease.LineAfterRelease` | apps/api/src/modules/queue/release.ts:214-256 | A completing release removes exactly its own place; any other answer leaves the line as it is. |
| `CounterRelease.PausedStudentKeepsPlace` | apps/api/src/modules/queue/release.ts:135-152 | Once a lookup pauses on a revealed job, no timer, pass, capacity change or other customer ever takes its place. |
| `CounterRelease.OneOfTwoReleasesCommits` | apps/api/src/modules/queue/release.ts:214-266 | Of two releases decided on the same reading of an order only the first moves it and records money; the second writes nothing. |
| `CounterRelease.StaleReleaseWritesNothing` | apps/api/src/modules/queue/release.ts:257-266 | A release commits iff the status is still the one it read; otherwise it writes nothing and asks for an override iff the order is still recoverable. |
| `CounterRelease.Till.ReleaseByOtp` | apps/api/src/modules/queue/release.ts:71-277 | The handler's answer and writes equal the specified decision and effect. |
| `CounterRelease.Till.CommitRelease` | apps/api/src/modules/queue/release.ts:214-266 | The final conditional update, on the status read earlier, equals its specification, lost race included. |
| `SingleFlight.CallsAreFresh` | apps/api/src/modules/queue/bands.ts:281-302 | Every call resolves to a pass that started at or after the call, whether earlier passes succeed or fail. |
| `SingleFlight.BurstSharesFollowUp` | apps/api/src/modules/queue/bands.ts:281-291 | All calls made while one entry is installed share one follow-up pass. |
| `SingleFlight.UnservedCallerWaits` | apps/api/src/modules/queue/bands.ts:281-291 | An unserved caller's follow-up can start as soon as the running pass settles, and then serves it. |
| `SingleFlight.OnePassOutsideGaps` | apps/api/src/modules/queue/bands.ts:256-302 | In every run without a call in a gap (entry deleted, queued follow-up not yet started) at most one pass is running at any time. |
| `SingleFlight.GapCallOverlaps` | apps/api/src/modules/queue/bands.ts:281-302 | In every reachable gap a call followed by the pending follow-up leaves two passes running. A gap lasts from `finish`, registered first, to the promise turns that run `startPass`. |
| `SingleFlight.ExclusionEndsAtGap` | apps/api/src/modules/queue/bands.ts:281-302 | After a run without gap calls, a call and a follow-up can make two passes overlap iff the run has ended in a gap. |
| `SingleFlight.PassesCanOverlap` | apps/api/src/modules/queue/bands.ts:293-302 | A concrete run that reaches a gap and overlaps. |
| `SingleFlight.Flights.RevealPass` | apps/api/src/modules/queue/bands.ts:281-291 | The map update in place equals its specification and hands out a follow-up not yet started. |
| `PrintLease.MoneyFollowsPaper` | apps/api/src/modules/jobs/printCompletion.ts:20-41 | Over every run of one order paper is confirmed exactly in the printed statuses, release and printing imply paid, a cancelled order keeps no money, prices are fixed. |
| `PrintLease.ApplyKeepsMoney` | apps/api/src/modules/queue/release.ts:214-256 | Every step of every actor keeps payment and paper in agreement with the status. |
| `PrintLease.CounterStepsWrite` | apps/api/src/modules/queue/release.ts:214-256 | Prepare, check-in, absence, cancel, expiry and release: from which status and payment each acts, and every column it writes. |
| `PrintLease.PrintStepsWrite` | apps/api/src/modules/agents/routes.ts:159-282 | A claim takes a released, free, not staff-held job; only the holding process reports on a printing one; every column each writes. |
| `PrintLease.ClosingStepsWrite` | apps/api/src/modules/jobs/printCompletion.ts:20-41 | Finishing, hand-over, and a refund of a paid, counter-confirmed, printed order, once. |
| `PrintLease.HeldNeedsStaff` | apps/api/src/modules/agents/routes.ts:25-31 | After an offline, restart or timeout failure no run without a staff retry prints the job again. |
| `PrintLease.SystemFailuresAreHeld` | apps/api/src/modules/jobs/printLease.ts:94-111 | Every failure the system itself records waits for staff. |
| `PrintLease.LateReportsAreIgnored` | apps/api/src/modules/agents/routes.ts:276-282 | Once an agent no longer holds a job, none of its reports changes it until it claims it again. |
| `PrintLease.TimeoutsAlwaysGiveReason` | apps/api/src/modules/jobs/printLease.ts:54-76 | A claim or spool timeout always gives a lost reason, for any agent, in both modes. |
| `PrintLease.LivePrintIsLeftAlone` | apps/api/src/modules/jobs/printLease.ts:36-76 | A print within its limits on a live computer running the claiming process is left alone by the sweep, a staff retry, a payment return and the process's own registration. |
| `PrintLease.SweepFailsIff` | apps/api/src/modules/jobs/printLease.ts:54-76 | On job and computer columns: a sweep fails a printing job it looks at iff the process restarted before an acknowledgement, the computer was silent for the whole lease, or a hard limit passed, in that order of reason; it then frees the job and waits for staff, otherwise it writes nothing. |
| `PrintLease.StaffRetryFreesIff` | apps/api/src/modules/shops/routes.ts:988-1033 | Staff retry frees a printing job iff it has no holder, the process restarted before an acknowledgement, the computer is missing, offline or unheard from for 45 s, or a hard limit passed; otherwise it writes nothing. |
| `PrintLease.RetryElsewhere` | apps/api/src/modules/shops/routes.ts:988-1033 | Retry and payment return on an order that is not printing act on a released one only, the return only if paid and counter-confirmed. |
| `PrintLease.ReturnFreesIff` | apps/api/src/modules/jobs/printLease.ts:78-86 | A payment return cancels and refunds a printing, counter-confirmed job iff staff may take the print back. |
| `PrintLease.ReconcileFailsIff` | apps/api/src/modules/jobs/printLease.ts:135-155 | A registering process fails exactly its unacknowledged prints of another process, or older than 15 s and unknown to it. |
| `PrintLease.GuardedFailureWrites` | apps/api/src/modules/jobs/printLease.ts:94-111 | A system failure is written only while the holder read still holds the job and, for a restart, no acknowledgement has come. |
| `PrintLease.SilentComputerLosesPrint` | apps/api/src/modules/jobs/printLease.ts:66-70 | A concrete run: a computer silent from the acknowledgement loses its print one millisecond past the lease. |
| `PrintLease.SweepMissesExactly` | apps/api/src/modules/jobs/printLease.ts:162-194 | A sweep leaves a printing job alone iff the coarse query misses it or there is no restart, no silence for the lease and no passed limit. |
| `PrintLease.SweepBoundsPrinting` | apps/api/src/modules/jobs/printLease.ts:162-194 | On every reachable printing job, a sweep after the claim limit, or after the spool limit and the coarse bound, fails it and holds it for staff. |
| `PrintLease.SweepCanBeLateForSpool` | apps/api/src/modules/jobs/printLease.ts:163-172 | A concrete run to an acknowledged print that stays past a spool limit of a minute, unnoticed by any sweep for another half minute. |
| `PrintLease.FreshClaimLostIffStaleSpool` | apps/api/src/modules/jobs/printLease.ts:54-76 | A claim by a healthy computer is lost at its first instant iff an older spool acknowledgement is past the spool limit. |
| `PrintLease.RetryAfterSpoolTimeoutIsLostAtOnce` | apps/api/src/modules/shops/routes.ts:999-1033 | A concrete run in which the retried print is lost at once. |
| `PrintDesk.ChargedOnceForPaper` | apps/api/src/modules/commission/service.ts:35-74 | Over every interleaving of reads, writes, prints and refunds a job is charged at most once, only after its paper is confirmed, its own commission; refunded nets to zero; cancelled or counter-returned is never charged. |
| `PrintDesk.RepairCharges` | apps/api/src/modules/commission/service.ts:77-91 | Reading and writing again leaves every paid, printed order with exactly one commission, its margin over the shop base. |
| `PrintDesk.RefundIff` | apps/api/src/modules/admin/routes.ts:590-652 | On every reachable desk a support refund goes through iff the order is paid and printed and its commission is posted; it refunds the order and credits that commission back. |
| `PrintDesk.ReachableIsOk` | apps/api/src/modules/admin/routes.ts:590-652 | Every run keeps jobs, pending posts and entries in agreement. |
| `PrintDesk.Counter.ClaimJob` | apps/api/src/modules/agents/routes.ts:159-183 | The conditional claim and PRINT_STARTED in place equal the specified claim. |
| `PrintDesk.Counter.ConfirmPrint` | apps/api/src/modules/jobs/printCompletion.ts:20-41 | The confirmation in place equals its specification and fails iff the job is not printing. |
| `PrintDesk.Counter.MarkPrintFailed` | apps/api/src/modules/jobs/printLease.ts:94-111 | The guarded failure in place equals its specification. |
| `PrintDesk.Counter.FailOrphanedPrints` | apps/api/src/modules/jobs/printLease.ts:162-194 | The sweep loop fails exactly the lost candidates and counts them. |
| `PrintDesk.Counter.ReconcileAgentSession` | apps/api/src/modules/jobs/printLease.ts:135-155 | The recovery loop fails exactly the jobs the current process cannot be working on and counts them. |
| `PrintDesk.Counter.Retry` | apps/api/src/modules/shops/routes.ts:988-1033 | Freeing an orphaned print and dispatching it again in place equal their specification; a retried job is no longer held. |
| `PrintDesk.Counter.PostVerifiedPrintCommission` | apps/api/src/modules/commission/service.ts:35-74 | The upsert in place equals a read followed by a write. |
| `PrintDesk.Counter.ConfirmCounterRefund` | apps/api/src/modules/admin/routes.ts:590-652 | The support refund in place equals its specification. |
| `FileRetention.ActiveOrdersKeepTheirContent` | apps/api/src/lib/fileRetention.ts:45-119 | With each handler one step: in every reachable state an order that needs the file has an undeleted row that names a converted document and no clock running, and the document is stored iff no failed deletion attempt since the last successful conversion reached its key. |
| `FileRetention.MissingIffLost` | apps/api/src/workers/conversion.ts:224-264 | On every reachable state a named document is missing from the store iff some failed deletion attempt since the last successful conversion reached its key. |
| `FileRetention.ContentLasts` | apps/api/src/workers/conversion.ts:224-264 | A document that is stored stays stored for as long as some order needs it. |
| `FileRetention.OrderTakenIff` | apps/api/src/lib/fileRetention.ts:64-97 | An order is taken iff the file is ready, no clock has started, and every order on it is cancelled or expired and unprinted; a file under conversion takes none. |
| `FileRetention.RunsKeepAccounts` | apps/api/src/workers/conversion.ts:224-264 | Over every run a deleted row names no content, the row counts exactly its recorded attempts and is overdue after each that did not delete it, and the conversions under way are those begun and not ended. |
| `FileRetention.ConversionEnds` | apps/api/src/workers/conversion.ts:171-190 | A successful conversion stores one document under an unused name and names it as document and preview; a failed one changes only the status and leaves at most one unnamed object. |
| `FileRetention.UploadStores` | apps/api/src/workers/conversion.ts:195-207 | An upload stores each document once and names exactly those, listing them only when there are several. |
| `FileRetention.MoveWrites` | packages/shared/src/stateMachine.ts:27-63 | A print confirmation stamps its order, every accepted event the time; a refused one writes nothing. |
| `FileRetention.ScheduleWrites` | apps/api/src/lib/fileRetention.ts:103-119 | The deletion clock starts iff the file is not deleted, no order on it can still print, and the deadline is earlier. |
| `FileRetention.OrderBeforeDeadlineKeepsContent` | apps/api/src/lib/fileRetention.ts:64-97 | On any run with a forward clock, an order placed while the file's deadline is ahead finds its document stored and keeps it for as long as it needs the file. |
| `FileRetention.RowPromisesContentIff` | apps/api/src/workers/conversion.ts:224-264 | For a row that takes an order, every history of the upload ending in that same row has the document stored iff the deadline is ahead. |
| `FileRetention.OrderWithoutContentIsReachable` | apps/api/src/workers/conversion.ts:241-264 | A concrete run to a ready file with an active order and no document, whether or not the failed attempt was recorded on the row. |
| `FileRetention.InactiveStaysInactive` | apps/api/src/lib/fileRetention.ts:45-63 | A job that no longer needs the file never needs it again. |
| `FileRetention.DeadlineOnlyMovesEarlier` | apps/api/src/lib/fileRetention.ts:103-119 | Over every run the deletion deadline only moves earlier and a started clock never stops. |
| `FileRetention.StartedClockIsFinal` | apps/api/src/lib/fileRetention.ts:86-97 | Once the clock has started no order ever needs the file again. |
| `FileRetention.ReconcilerBoundsRetention` | apps/api/src/workers/conversion.ts:311-346 | After the reconciler an idle file is due within ten minutes of every confirmed print of it, or without one of every cancelled or expired order, and the reconciler sets no other deadline. |
| `FileRetention.DeletionRemovesNamedObjects` | apps/api/src/workers/conversion.ts:195-264 | A completed deletion removes exactly the objects the row names; nothing of the file remains iff the store held no other object of it. |
| `FileRetention.EarlierConversionOutlivesDeletion` | apps/api/src/workers/conversion.ts:171-181 | A concrete run with two conversions whose first document outlives the deletion. |
| `FileRetention.DistinctHasNoDuplicates` | apps/api/src/workers/conversion.ts:195-207 | No key is deleted twice. |
| `FileRetention.OverdueFileTakesOrders` | apps/api/src/lib/fileRetention.ts:86-113 | A concrete run to an overdue idle file whose short clock did not start, on which an order is then placed. |
| `FileRetention.ClockStartsIffEarlier` | apps/api/src/lib/fileRetention.ts:103-115 | The short clock starts iff its deadline is the earlier one. |
| `FileRetention.DeletionIsFinalIff` | apps/api/src/workers/conversion.ts:138-190 | A deleted file stays deleted over every continuation iff no conversion of it is still running. |
| `FileRetention.RevivedFileIsReachable` | apps/api/src/workers/conversion.ts:138-190 | A concrete run that deletes a file during its conversion; success brings it back ready and overdue, failure brings back a failed row. |
| `FileRace.AtomicIsOneStep` | apps/api/src/workers/conversion.ts:224-305 | A read and its write with nothing in between are exactly the one-step sweep, order and clock, and leave nothing under way. |
| `FileRace.LosesExactly` | apps/api/src/workers/conversion.ts:224-305 | On every interleaving of reads and writes, one act makes an order lose its file iff a sweep that read earlier removes row or document while an order is active, or an order is inserted after such a write and before a new conversion. |
| `FileRace.RecheckedInsertsKeepContent` | apps/api/src/modules/jobs/routes.ts:181-236 | However reads and writes interleave, no order ever loses its file if every insert still finds the file ready and its deadline ahead. |
| `FileRace.InsertIsSafeIffNoSweep` | apps/api/src/modules/jobs/routes.ts:181-236 | A new order on a stored file keeps it through everything but further inserts iff no sweep that has already read the jobs is under way. |
| `FileRace.DeletedUnderOrderIsReachable` | apps/api/src/workers/conversion.ts:289-305 | A concrete run in which a sweep reads, an order is placed, and the sweep deletes the file under it. |
| `FileRetention.FailedDeletionLosesContentIff` | apps/api/src/workers/conversion.ts:241-264 | A failed deletion attempt loses the converted document iff it reached its key. |
| `FileRetention.Store.FileHasActiveJobs` | apps/api/src/lib/fileRetention.ts:58-62 | The count over the file's jobs finds an active one iff there is one. |
| `FileRetention.Store.ScheduleEarlier` | apps/api/src/lib/fileRetention.ts:103-119 | The conditional update in place equals its specification. |
| `FileRetention.Store.DeleteContent` | apps/api/src/workers/conversion.ts:224-264 | Deleting key by key stops at the first refusal, a failed row update or failure record included, and equals the specified attempt. |
| `OrderRace.AtMostOneActiveSurvivor` | apps/api/src/modules/jobs/routes.ts:216-253 | For any number of creators interleaved at read, insert and rival check without the lock, at most one surviving order is active, as long as no insert carries an older (createdAt, id) than an order that has survived and is active. |
| `OrderRace.StepExposesIff` | apps/api/src/modules/jobs/routes.ts:232-253 | A step makes some active order older than an active survivor iff it is such a backdated insert. |
| `OrderRace.ExposedIffBackdated` | apps/api/src/modules/jobs/routes.ts:232-253 | A run ever has an active order older than an active survivor iff one of its inserts is backdated below one. |
| `OrderRace.ExposedIffTwoSurvivors` | apps/api/src/modules/jobs/routes.ts:236-253 | On every reachable state with distinct keys, some active order is older than an active survivor iff two active orders have survived or one rival check is all that is missing. |
| `OrderRace.InOrderIsNotBackdated` | apps/api/src/modules/jobs/routes.ts:232-235 | Keys that grow with insertion never backdate. |
| `OrderRace.FirstInsertedSurvives` | apps/api/src/modules/jobs/routes.ts:232-253 | The first inserted order is never withdrawn, and while it stays active no other one survives its check. |
| `OrderRace.WithdrawalHasOlderRival` | apps/api/src/modules/jobs/routes.ts:236-253 | Every withdrawal leaves an order in place that is active, older by (createdAt, id), and itself without an older rival. |
| `OrderRace.RoundTripsDo` | apps/api/src/modules/jobs/routes.ts:181-253 | A first read refuses iff some order on the file is active; a rival check withdraws its own row, and only it, iff an older order by (createdAt, id) is active. |
| `OrderRace.BackdatedInsertDefeatsCheck` | apps/api/src/modules/jobs/routes.ts:236-253 | A concrete run with a backdated insert that ends with two active survivors. |
| `OrderRace.OrderTable.ReadFileJobs` | apps/api/src/modules/jobs/routes.ts:181-196 | The first read refuses iff an order on the file is active. |
| `OrderRace.OrderTable.CreateRow` | apps/api/src/modules/jobs/routes.ts:216-236 | The insert in place adds one active row held by its creator. |
| `OrderRace.OrderTable.WithdrawIfRival` | apps/api/src/modules/jobs/routes.ts:236-253 | The rival query and withdrawal in place withdraw iff an older active order is present. |
| `PageRange.ParseMeansCovered` | packages/shared/src/pageRange.ts:13-29 | A parse lists in strictly increasing order exactly the pages some part covers, between 1 and totalPages of them. |
| `PageRange.FormatIsRegex` | packages/shared/src/pageRange.ts:14-17 | On every trimmed text the part-by-part test accepts exactly the language of the regular expression. |
| `PageRange.CanonicalParses` | packages/shared/src/pageRange.ts:42-62 | Every non-empty choice of pages prints to a range that parses to exactly it. |
| `PageRange.NormalFormRoundTrips` | packages/shared/src/pageRange.ts:42-62 | A range's normal form parses to the same pages. |
| `PageRange.NormalFormIsCanonical` | packages/shared/src/pageRange.ts:37-62 | Two ranges have the same normal form iff they select the same pages. |
| `PageRange.NormalizeIsIdempotent` | packages/shared/src/pageRange.ts:42-62 | Normalising is idempotent for parsed ranges, the trimmed fallback and null. |
| `PageRange.RunsAreMaximal` | packages/shared/src/pageRange.ts:47-58 | The printed runs are separated, ordered and cover exactly the pages. |
| `PageRange.RunsAreUnique` | packages/shared/src/pageRange.ts:37-41 | Only one separated list of runs covers a given set of pages. |
| `PageRange.PageCountOnlyBounds` | packages/shared/src/pageRange.ts:21-25 | A larger page count, or none, selects the same pages. |
| `PageRange.CountAgreesWithDisplay` | packages/shared/src/pageRange.ts:32-44 | Counts lie in 1..totalPages; a range displays as all pages yet has no count iff it is blank but not empty. |
| `PageRange.CountIs` | packages/shared/src/pageRange.ts:32-36 | The count is the document without a range, else the number of pages selected, none for a malformed range. |
| `PageRange.DashIffLonger` | packages/shared/src/pageRange.ts:47-58 | A run prints with a dash iff it is longer than one page. |
| `PageRange.ParsePageRange` | packages/shared/src/pageRange.ts:13-29 | The set-filling loops equal the specified parse, errors included. |
| `PageRange.NormalizePageRange` | packages/shared/src/pageRange.ts:42-62 | The start/prev/parts loop with its sentinel equals the specified normal form. |
| `Pricing.PriceFollowsOffer` | packages/shared/src/pricing.ts:25-59 | The price is the first matching paper's rate for the chosen ink per selected page and copy plus the first matching binding; colour on a black-and-white paper is refused. |
| `Pricing.PriceRefusedIff` | packages/shared/src/pricing.ts:25-59 | A price is refused for the paper iff none has its id, for the range only if it selects nothing, for the binding only if none has its id. |
| `Pricing.QuoteIs` | apps/api/src/modules/jobs/routes.ts:201-213 | An order is refused iff its price is, its markup is outside 0 to 100 %, or the marked-up price is below one rupee; otherwise it records the base, the markup and the coupon on the marked-up price. |
| `Pricing.MarkupIsNearExact` | packages/shared/src/pricing.ts:61-82 | The marked-up total is at least the base, equal at 0 %, and within half a paisa per printed page plus half for the binding of the exact percentage. |
| `Pricing.CouponRespectsFloor` | packages/shared/src/pricing.ts:84-100 | A coupon takes off its face value but never goes below the order floor or a price already under it. |
| `Pricing.CouponTakesItsValue` | packages/shared/src/pricing.ts:84-100 | A coupon takes off its percentage to within half a paisa, else its fixed amount, else nothing, capped at what the price has above the floor; only discount and total change. |
| `Pricing.PriceChainReconciles` | apps/api/src/modules/jobs/routes.ts:201-213 | Final total = shop base + commission - shop-funded discount, only one of the two non-zero; the commission is what the coupon leaves of the markup, all of it without a coupon. |
| `Pricing.CouponNeverRefuses` | apps/api/src/modules/jobs/routes.ts:206-213 | The one-rupee minimum is met with a coupon iff it is met without. |
| `Pricing.RoundIsNearest` | packages/shared/src/pricing.ts:70-75 | Rounding is within half a unit and never loses a whole value. |

## Left out

- Network and vendor calls, push and e-mail notices, receipts, document conversion itself, cryptography, rate limits, the
  web and desktop front ends, and the owner and admin views that only display data.
- `Text.Trim` and the regular expression work on characters; surrogate pairs of UTF-16 are not modelled (none is a space or a digit).
- Integer and floating-point limits: sums are unbounded except the safe-integer test of a statement, `Number` of a numeral
  and the markup multiplication are exact, the widths of database columns and the size limit of a `Set` are not modelled.
- Row ids are insertion numbers, so the order of random ids among equal timestamps is one fixed order here.
- `computeFeeAccount` also shows the last settled statements and a banner; settled statements owe nothing and are not shown here.
- Audit rows of the fee module (`ShopFeeEvent`), the block reason, reminders and `milestoneFor`.
- `reconcileStuckFeeOrders` and the loop before `createFeeOrder` are runs of `FeeTables.ReconcileFeeOrder` and expiry; the
  choice of which orders they visit, and `lastCheckedAt`, are not modelled.
- `reconcileFeeOrder` answers pending when no provider, or another one, is configured; the model has the order's own provider.
- FeeOutcomes.BlockComesAfterTerms: terms and overdue grace are one configuration for the whole run, fees may be switched.
- `freezeCompletedWeeklyStatements` visits shops one by one; the model is one shop.
- Manual credits are written by no route; the model lets any amount of either sign be posted.
- The civil calendar behind `Date.UTC` is modelled as days of 86,400 seconds counted from the epoch.
- StatementPeriod.WindowsAbut: states abutment for readings one week apart, because a run that skips a week skips its window.
- CounterLine.NoOvertaking: assumes check-in times grow in commit order, because the database breaks ties arbitrarily.
- CounterLine.RunsKeepLineOk: assumes check-in times grow in commit order, for the same reason.
- QueueSnapshot: preview and reload are built with the same settings and printers; a settings change in between shows as one.
- CounterLine.ShopTable.CheckInJob: the position, its age and the scheduled time are one yes or no each, and a status changed between the read and the commit is the lost race of `Transitions`.
- CounterRelease: hashing and finding the code's row, the ranking of printers and the legacy code path are parameters or left out; the audit label is not modelled.
- The deletion sweep over many files is the one-file step repeated; files share nothing.
- The loop of `sweepExpiredReveals` and its query limit; one expiry is a step. Printer ranking and the check-in distance are parameters.
- Legacy rows (cash, timed one-time codes, no-show, requeued) beyond their place in the lifecycle table.
- Transitions.FastPathAgrees: for data its static type admits; data that itself names `id` or `status`, a guard that names
  them, and increments of any other shape than `{ increment }` are not modelled. Filters of other shapes than those
  compiled are an arbitrary predicate.
- PrintLease: a claim and its PRINT_STARTED, and a staff retry or a release and its dispatch, are each one step. An agent's free-text
  reason is a value; the choice of jobs by query limits (`take: 200`) is not modelled.
- PrintDesk: one post is a read and a later write; the shop's statements live in the fee-ledger modules.
- FileRetention: each handler is one step there; `FileRace` is where reads and writes interleave. Withdrawing an order deletes its
  row, which only removes an active job; it is modelled in `OrderRace` alone. Delayed queue jobs only re-run the modelled cleanup.
- FileRetention.BeginConversion: reads the row and writes `converting` in one step; a deletion between the two is not modelled.
- FileRace: the keys of one sweep are deleted in the same act as its row update, an attempt that stops part-way being one that
  fails there; the reconciler's schedule is a clock read and write with any deadline.
- OrderRace: the idempotency key and the lock only remove interleavings; they are not modelled.
- SingleFlight: the steps of the event loop may occur in any order the promises allow. Microtask order is not modelled; it
  bounds how long a gap lasts, not which calls in it overlap.
- Pricing: coupon lookup and redemption are not modelled; coupon values are non-negative, a percentage may exceed 100.
