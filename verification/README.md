# TillFlow money-integrity model

A Dafny model of how TillFlow moves money: a customer's charge, the provider's callbacks and the
reconciler that asks when none arrives, the outbox that tells the point of sale, the daily close that
computes commissions, and the payouts that send them. Several processes race over the same rows, any of
them may crash between two statements, and the provider may answer late, twice, out of order or never.
The project states what holds anyway, over every run, and proves it.

`dafny verify dfyconfig.toml` checks the whole project.

## How it is built

Tables are maps. A transaction is a function from the tables at commit to new tables; what it read earlier
is a separate argument, so a stale read is any earlier state of the same run. Guarded updates look at the
tables at commit, which is where the safety rests. Statements the code leaves outside a transaction are
separate steps, with anything in between. No advisory lock is relied on.

| module | what it holds |
|---|---|
| `Charges` | charges, callback_events and outbox_events, and every statement and transaction that writes them (`resolution.ts`, `callbackService.ts`, `chargeService.ts`, `reconcileService.ts`, `outbox.ts`, `routes/admin.ts`) |
| `PosTables`, `Protocol` | the POS side of a payment; the whole charge protocol as one transition system, with a log of what crossed the wire |
| `ChargeInvariants`, `CallbackLemmas`, `ProtocolInvariants` | what every statement, every callback and every step keeps |
| `Outcomes`, `PassOutcomes` | what an applied callback, query answer or reconcile pass leaves, and when it is applied |
| `ChargeTheorems`, `HoldTheorems`, `Attribution`, `PurgeSafety`, `Deliveries`, `Reconciler`, `Looks`, `BacklogRuns` | theorems over whole runs of charges |
| `CallbackRuns`, `HoldRuns`, `LookRuns`, `PayoutRuns` | concrete runs in which the documentation's word does not hold |
| `PaymentsDb`, `ServiceSteps` | the database class: the services statement by statement, each with exactly the effect of its transaction; and its un-transacted services as stretches of the protocol |
| `Fake`, `FakeAdapters`, `Agreement` | the deterministic provider and the agreement of every decided charge with its records |
| `Payouts`, `PayoutProtocol`, `PayoutInvariants`, `PayoutTheorems`, `PayoutsDb`, `PayoutSteps` | payout_ledger, payouts and B2C results, in the same layers |
| `Money`, `DailyClose`, `Close`, `EndOfDay` | commission arithmetic, the daily-close read, the close computed from it, and what was paid against what was ledgered |
| `Sales`, `PosDb`, `RequestHash`, `Json` | idempotent sale creation, the sale.paid consumer, and the canonical form behind hashes and checksums |
| `Calendar`, `BusinessDay`, `CloseWorker`, `DarajaDate` | day arithmetic (ECMA-262 section 21.4.1, and full-date of RFC 3339 section 5.6), which day a trigger closes, and the provider's dates |

A run is a sequence of states and of acts; an act names its step and the earlier moments its actor read.
The whole-run theorems quantify over all of them. The unique keys are those of
`services/payments/migrations/001_init.sql` and `services/pos/migrations/001_init.sql`, as the code relies
on them.

## Where the code and its documentation disagree

The model follows the code.

- Comments in `services/payments/migrations/001_init.sql` and `services/_shared/mpesa/src/types.ts` call the
  OriginatorConversationID the ledger id; `payoutService.ts` uses the payout's own id. Theorems about
  originators are about payout ids.
- The migration says the ledger mirrors the payout's terminal state. A crash between the two statements of
  the refusal path leaves the row behind for good: `PayoutTheorems.LedgerFailsWithPayout` says exactly when
  the two agree, and `PayoutRuns.RefusalCanStrandLedger` is such a run.
- `payoutService.ts` bounds re-sends by `B2C_MAX_ATTEMPTS`, but checks before it counts:
  k requests that overlap can send k - 1 times more (`PayoutTheorems.OverlapsBoundSends`), and for every k
  there is a run in which they do (`PayoutRuns.OverlapReachesBound`).
- `resolution.ts` says a held charge is never resolved automatically by either path. That is so
  (`ChargeTheorems.HeldChargesDoNotMove`), but a recorded push rejection fails it all the same
  (`HoldTheorems.HeldUntilReleased`, and the run `HoldRuns.HeldChargeCanFail`).
- `routes/admin.ts` calls a charge without a reference unreachable by any callback. It is, exactly when it is
  older than the adoption window (`PurgeSafety.PurgeAgeMustCoverWindow`); the floor is 5 minutes, the window 30, and
  `CallbackRuns.PurgeCanLosePayment` is a run that falls between the two.
- `callbackService.ts` reads TransactionDate as East Africa Time, `fake.ts` writes it in UTC: against the fake
  every `paid_at` is three hours early (`DarajaDate.ReadsThreeHoursEarly`).
- The confirmation pre-check runs before the transaction, so a callback can pay what its pre-check did not
  see (`ChargeTheorems.PreCheckCanMiss`, and the run `CallbackRuns.CanBePaidUnasked`). `ChargeTheorems.PaidIsAnsweredOrUnchecked` says that this is the only
  way a charge is PAID without a complete/0 answer, and `ChargeTheorems.ConfirmedIffPreChecked` exactly when a
  paying callback was confirmed.
- The reconciler's batches are ordered by `created_at` alone, so charges of one instant can delay each other
  past the passes they are due (`LookRuns.TiesDelayBacklog`).
- `reconcileService.ts` says that an advisory lock lets only one task reconcile at a time. `startReconciler` takes
  it, `POST /admin/reconcile` does not, so passes overlap and a charge can be looked at more than maxAttempts
  times: `Looks.OverlapsBoundLooks` says how often at most, `LookRuns.OverlapReachesBound` that it happens.
- `/internal/daily-close` accepts any string shaped like a date and serves an impossible one as the day it
  rolls over to (`DailyClose.ImpossibleDateRollsOver`).

## Model

| member | source | states |
|---|---|---|
| `ChargeInvariants.ResolveOutcome` | services/payments/src/services/resolution.ts:40-97 | the guarded transition applies exactly when the charge is PENDING and unheld at commit and was unheld when read, however stale that read; it then writes status, source, code and date of that one row, and never trips the outbox key |
| `ChargeInvariants.ResolveKeeps` | services/payments/src/services/resolution.ts:61-83 | a resolution keeps every table invariant: one outbox row per PAID charge with its own sale, tenant and amount, unique keys, well-formed rows |
| `ChargeInvariants.InsertKeeps` | services/payments/src/services/chargeService.ts:156-178 | UNIQUE(sale_id): an insert that commits keeps one charge per sale |
| `ChargeInvariants.ClaimKeeps` | services/payments/src/services/chargeService.ts:253-258 | the guarded claim of a reference writes it once, to one charge, and changes nothing else |
| `ChargeInvariants.PurgeKeeps` | services/payments/src/routes/admin.ts:119-158 | deleting abandoned rows keeps every invariant and removes only PENDING charges without a reference |
| `CallbackLemmas.CallbackEffect` | services/payments/src/services/callbackService.ts:300-462 | for any body and any stale reads, the callback transaction resolves at most one charge, which was PENDING and unheld and has its reference; claims a reference only for the single candidate it read; pays only the exact amount and never against the confirmation; holds only for another amount; records exactly one event row |
| `CallbackLemmas.SettleRows` | services/payments/src/services/callbackService.ts:392-462 | steps 3 to 5 change only the matched charge, and pay it only when the amounts agree and the confirmation does not object |
| `CallbackLemmas.AdoptEffect` | services/payments/src/services/callbackService.ts:334-371 | adoption acts only on exactly one candidate that is still claimable at commit; otherwise no charge changes |
| `Outcomes.MatchedOutcome` | services/payments/src/services/callbackService.ts:378-462 | a first callback whose reference a charge holds decides that charge if and only if the charge is open, was not on hold when read, and, for a success, the amount is its own and the provider does not object: PAID by callback at the reported date (else now) with its own outbox row for 0, FAILED with the code otherwise; in every other case nothing is resolved |
| `Outcomes.AdoptedOutcome` | services/payments/src/services/callbackService.ts:334-371 | a success nobody's reference matches, with one candidate: claimed and paid when the candidate can still be claimed and the provider does not object, claimed and left open when it does, rolled back exactly when somebody took the reference meanwhile, unmatched when the candidate moved on |
| `Outcomes.UnadoptedOutcome` | services/payments/src/services/callbackService.ts:334-357 | any other first callback is recorded as ambiguous or unmatched and moves nothing |
| `ProtocolInvariants.TablesKeep` | services/payments/src/services/resolution.ts:1-97 | every step of the protocol, with its actor reading older states, keeps the table invariants and only evolves rows |
| `ProtocolInvariants.RunKeeps` | services/payments/src/services/callbackService.ts:286-462 | every moment of every run satisfies the invariant: sound tables, evidence for every resolution, callbacks applied once |
| `ChargeTheorems.OneEffectPerCharge` | services/payments/src/services/outbox.ts:21-46 | in every reachable state a charge is PAID exactly when the outbox holds its one sale.paid row, which says its own sale, tenant, amount and date |
| `ChargeTheorems.TerminalForever` | services/payments/src/services/resolution.ts:63-96 | a PAID or FAILED charge keeps status, source, code and date for good and is never purged |
| `ChargeTheorems.ReferenceWrittenOnce` | services/payments/src/services/chargeService.ts:244-258 | a checkout_request_id is written once and belongs to one charge |
| `ChargeTheorems.HeldChargesDoNotMove` | services/payments/src/services/resolution.ts:46-57 | no callback and no query answer moves a charge that is on hold at commit |
| `ChargeTheorems.CallbacksApplyOnce` | services/payments/src/services/callbackService.ts:300-328 | per reference at most one event row is applied, and one is exactly when resolved_by is callback |
| `ChargeTheorems.FailedOnlyWhenDeclined` | services/payments/src/services/chargeService.ts:214-242 | a charge is FAILED only after a push rejection, a non-zero callback or a complete non-zero query for its reference |
| `ChargeTheorems.NoGuessing` | services/payments/src/services/reconcileService.ts:103-154 | a charge keeps its status, source and code through any stretch that holds no definite answer for it, whatever happens to other charges: timeouts, transport errors, pending answers and unconfirmed or contradicted callbacks decide nothing |
| `ChargeTheorems.PreCheckCovers` | services/payments/src/services/callbackService.ts:240-257 | if the pre-check finds nothing to move and charges stand still until the transaction, the transaction pays nothing |
| `ChargeTheorems.PaidIsAnsweredOrUnchecked` | services/payments/src/services/callbackService.ts:223-284 | with confirmation on, in every run, whatever bodies arrive and however charges move meanwhile: a PAID charge's reference was answered complete/0, unless a callback whose pre-check had found nothing paid it |
| `ChargeTheorems.PaidHasProviderEvidence` | services/payments/src/services/callbackService.ts:223-284 | so with confirmation on and no callback paying after an empty pre-check, every PAID charge's reference was answered complete/0 |
| `ChargeTheorems.StandingStillIsPreChecked` | services/payments/src/services/callbackService.ts:240-257 | that condition holds in every run whose charges stand still from a pre-check to its transaction |
| `ChargeTheorems.ConfirmedIffPreChecked` | services/payments/src/services/callbackService.ts:255-267 | per transaction: a callback that paid was confirmed if and only if its pre-check found a charge |
| `ChargeTheorems.PreCheckCanMiss` | services/payments/src/services/callbackService.ts:245-257 | a concrete family of inputs where an acknowledgement between pre-check and transaction lets an unconfirmed callback pay |
| `CallbackRuns.CanBePaidUnasked` | services/payments/src/services/callbackService.ts:245-257 | a run, with confirmation on, that ends with a PAID charge the provider was never asked about |
| `HoldTheorems.MismatchHolds` | services/payments/src/services/callbackService.ts:392-403 | the first success for another amount puts the charge it matches on hold with the reported amount, and changes nothing else in it |
| `HoldTheorems.HeldUntilReleased` | services/payments/src/services/chargeService.ts:229-237 | until an operator releases it a held charge keeps its hold, and its status changes exactly when a rejection of its own push is recorded while it is PENDING (that update has no hold guard) |
| `HoldRuns.HeldChargeCanFail` | services/payments/src/services/chargeService.ts:229-237 | a run in which callbacks put a charge on hold and the recorded rejection of its push then fails it |
| `Outcomes.ReleaseReopens` | services/payments/src/routes/admin.ts:83-99 | a released charge is open again with all its attempts, and nothing else changes |
| `Attribution.OwnerIsCandidate` | services/payments/src/services/callbackService.ts:123-141 | within the window, the charge a callback belongs to already has its reference or is itself among the adoption candidates read |
| `Attribution.AdoptionFindsOwner` | services/payments/src/services/callbackService.ts:334-371 | so whatever charge claims a reference in a callback is the charge whose push that reference is |
| `Attribution.NoMisattribution` | services/payments/src/services/chargeService.ts:244-258 | in every honest run every non-null checkout_request_id is the reference of that charge's own push, of its own amount and phone |
| `PurgeSafety.PurgedHeldNothing` | services/payments/src/routes/admin.ts:119-158 | a purged charge had no outbox row, no hold, no reference and no resolution |
| `PurgeSafety.PurgeOutcome` | services/payments/src/routes/admin.ts:119-158 | purge deletes a row if and only if it is PENDING, unreferenced, not on hold, older than the cutoff and of a wanted tenant; the others it leaves as they are |
| `PurgeSafety.AbandonedStaysUnreachable` | services/payments/src/services/callbackService.ts:106-141 | a charge without a reference, older than the adoption window and with no acknowledgement in flight, never gets a reference again |
| `PurgeSafety.PurgeIsInvisible` | services/payments/src/services/callbackService.ts:300-371 | every later callback does to the tables without the purged rows what it does with them |
| `PurgeSafety.PurgedRowsAreOutOfReach` | services/payments/src/routes/admin.ts:116-158 | with an age of at least the window, what purge deletes is out of reach of every later callback |
| `PurgeSafety.PurgeAgeMustCoverWindow` | services/payments/src/routes/admin.ts:111-117 | purge can delete no still adoptable charge if and only if the age is at least the adoption window; the 5-minute floor is not enough |
| `CallbackRuns.PurgeCanLosePayment` | services/payments/src/routes/admin.ts:111-158 | a run in which purge at the floor age deletes a charge its own success callback would still be adopted by; the callback comes and matches nothing |
| `Deliveries.NothingLost` | services/payments/src/services/outbox.ts:71-106 | a PAID charge's event is unpublished in the outbox, un-acked in the queue, or applied to its sale, whatever crashes, repeats or is reordered |
| `Deliveries.SalePaidByItsCharge` | services/pos/src/services/saleService.ts:363-382 | a sale goes PAID at most once, keeps that date, and only by a PAID charge of its own for exactly its total |
| `Deliveries.DeliveringRun` | services/pos/src/workers/salePaidConsumer.ts:25-50 | relay, queue and consumer keep the delivery invariant in every run |
| `Reconciler.CountersAddUp` | services/payments/src/services/reconcileService.ts:77-218 | in any pass examined = unqueryable + errors + stillPending + resolvedPaid + resolvedFailed |
| `Outcomes.QueryOutcome` | services/payments/src/services/reconcileService.ts:159-192 | a complete answer counts an attempt and decides the charge if and only if it is open and was not on hold when re-read: PAID for 0, with its outbox row, FAILED for any other code |
| `PassOutcomes.PassOutcome` | services/payments/src/services/reconcileService.ts:98-215 | after any number of looks of an uninterrupted pass, each charge looked at is as Daraja's reply for it says, every other charge as it was |
| `PassOutcomes.SummaryCounts` | services/payments/src/services/reconcileService.ts:77-218 | each counter of the summary is the number of charges with the reply it is named for; needsAttention those whose last attempt met no reference or no result |
| `Reconciler.SilentPassCounts` | services/payments/src/services/reconcileService.ts:98-154 | a pass the provider does not answer gives each charge of its batch one attempt and changes nothing else |
| `Reconciler.BlockInBatch` | services/payments/src/services/reconcileService.ts:87-96 | however far ahead some charges of a backlog are and whatever newer charges wait: each charge of the block that is due, or of an earlier one, that still waits is in the batch |
| `Reconciler.BacklogPass` | services/payments/src/services/reconcileService.ts:98-154 | a pass that looks at its whole batch moves a backlog on by at least one attempt for the whole block that is due |
| `Looks.ReconcileOnceIsPass` | services/payments/src/services/reconcileService.ts:72-219 | whatever is replied, a pass nobody interrupts continues any run look by look, is a pass of that run, and leaves the tables of Reconciler.Pass |
| `Looks.OverlapsBoundLooks` | services/payments/src/services/reconcileService.ts:98-226 | in every run, however passes overlap, crash or are released from: with at most k looks at a charge between their SELECT and their count at any moment, it never has more than maxAttempts + k - 1 attempts |
| `LookRuns.OverlapReachesBound` | services/payments/src/routes/admin.ts:46-57 | for every maxAttempts and k, a run of passes that reaches that number |
| `BacklogRuns.BacklogBound` | services/payments/src/services/reconcileService.ts:59-70 | in any run that leaves the N oldest waiting charges unanswered: once rounds x maxAttempts passes have followed one another, whatever passes overlap them or crash part-way, each of the N was examined at least maxAttempts times and at most k - 1 times more (exactly, when looks do not overlap), is PENDING and in the attention set, and only newer charges still wait |
| `BacklogRuns.NoneWaitsBehindNewer` | services/payments/src/services/reconcileService.ts:87-96 | a newer charge is in a batch only together with every charge of the backlog that still waits |
| `BacklogRuns.BacklogStretch` | services/payments/src/services/reconcileService.ts:221-226 | through any steps that answer, hold or purge none of them, the charges of the backlog stay open with one more attempt exactly per counted look, and no older charge joins the line |
| `LookRuns.TiesDelayBacklog` | services/payments/src/services/reconcileService.ts:87-96 | the bound needs distinct creation times: a run with four charges of one instant, a batch of two and two attempts, in which four passes leave one of them with a look to go |
| `PaymentsDb.Database.ApplyChargeResolution` | services/payments/src/services/resolution.ts:40-97 | the statements have exactly the effect of the guarded transition, for any stale row |
| `PaymentsDb.Database.FindAdoptableCharge` | services/payments/src/services/callbackService.ts:123-141 | none, exactly one, or several candidates |
| `PaymentsDb.Database.ConfirmSuccess` | services/payments/src/services/callbackService.ts:223-284 | asks only when the pre-check finds a charge; the verdict is confirmed, contradicted or unconfirmed exactly as the answer is zero, non-zero or no answer |
| `PaymentsDb.Database.ApplyStkCallback` | services/payments/src/services/callbackService.ts:286-462 | statement by statement the callback transaction, with a unique violation rolling all of it back |
| `PaymentsDb.Database.Settle` | services/payments/src/services/callbackService.ts:392-462 | the amount check, the confirmation and the transition as one effect |
| `PaymentsDb.Database.Adopt` | services/payments/src/services/callbackService.ts:334-371 | candidate search, guarded claim and settlement as one effect |
| `PaymentsDb.Database.ClaimReference` | services/payments/src/services/callbackService.ts:358-366 | the guarded claim, refused by UNIQUE(checkout_request_id) |
| `PaymentsDb.Database.CreateCharge` | services/payments/src/services/chargeService.ts:140-185 | an existing or racing charge is returned and nothing is written or pushed; otherwise the new row is inserted and pushed once |
| `PaymentsDb.Database.PushStk` | services/payments/src/services/chargeService.ts:192-279 | the un-transacted statements around the push for every way it can end |
| `ServiceSteps.PushOutcome` | services/payments/src/services/chargeService.ts:192-279 | the row a push leaves, column by column, for every reply: only a rejection of a PENDING charge fails it, only an acknowledgement that is in time and new gives a reference, a timeout writes last_push_error and nothing else |
| `ServiceSteps.PushIsStretch` | services/payments/src/services/chargeService.ts:192-279 | so a push is a stretch of protocol steps, each enabled by what crossed the wire, and the whole-run theorems are about it |
| `ServiceSteps.CreatedCharge` | services/payments/src/services/chargeService.ts:140-185 | a created charge has its own facts, one push, and is FAILED if and only if that push was rejected, PENDING otherwise |
| `ServiceSteps.CreateIsStretch` | services/payments/src/services/chargeService.ts:140-185 | its insert and its push are one stretch of the protocol |
| `PaymentsDb.Database.SelectBatch` | services/payments/src/services/reconcileService.ts:87-96 | the oldest eligible charges, in order, at most the batch size |
| `PaymentsDb.Database.BumpAttempt` | services/payments/src/services/reconcileService.ts:221-226 | one more attempt on one row |
| `PaymentsDb.Database.RunReconcileOnce` | services/payments/src/services/reconcileService.ts:72-219 | a pass over its batch leaves the tables and the summary of Reconciler.Pass |
| `PaymentsDb.Database.LookAt` | services/payments/src/services/reconcileService.ts:98-215 | one look at one charge |
| `PaymentsDb.Database.ResolveByQuery` | services/payments/src/services/reconcileService.ts:159-215 | the transaction for a complete answer: re-read, count, resolve |
| `PaymentsDb.Database.RelayOnce` | services/payments/src/services/outbox.ts:71-106 | a row of the batch is published if and only if its own send and its own mark went through, any other counts one attempt and stays unpublished; events and other rows never change; published counts exactly the rows published |
| `ServiceSteps.RelayIsStretch` | services/payments/src/services/outbox.ts:71-106 | a relay pass is a stretch of protocol steps that leaves those rows and puts every sent event, its own, in the queue: Deliveries.NothingLost is about it |
| `PaymentsDb.Database.Release` | services/payments/src/routes/admin.ts:83-99 | only a PENDING held charge is released, and its attempts restart |
| `PaymentsDb.Database.PurgeAbandoned` | services/payments/src/routes/admin.ts:104-164 | below the floor nothing happens, a dry run only counts, otherwise exactly the abandoned rows go |
| `Fake.PushKeeps` | services/_shared/mpesa/src/fake.ts:107-160 | a push records its request under a fresh reference and queues only callbacks that say what the record says; a timeout keeps its record unresolved and queues nothing |
| `Fake.PushOutcome` | services/_shared/mpesa/src/fake.ts:107-171 | every scenario of a push: what its caller is told, when and what its query answers, how many callbacks it queues, for when and with which code and date |
| `Fake.ResolvedTimeoutAnswers` | services/_shared/mpesa/src/fake.ts:273-309 | a resolved timeout answers with its outcome from then on and queues one late callback with that code if asked to |
| `Fake.ResolveTimeoutKeeps` | services/_shared/mpesa/src/fake.ts:273-301 | the first resolution of a timeout keeps everything said so far true |
| `Fake.SecondResolutionMustAgree` | services/_shared/mpesa/src/fake.ts:273-296 | a second resolution does so exactly when it repeats the first |
| `Fake.DueOrWaiting` | services/_shared/mpesa/src/fake.ts:237-250 | delivery splits the queue into what is due and what waits, losing and repeating nothing |
| `FakeAdapters.FakeAdapter.StkPush` | services/_shared/mpesa/src/fake.ts:107-160 | the class method has exactly the effect and reply of the push |
| `FakeAdapters.FakeAdapter.QueueStk` | services/_shared/mpesa/src/fake.ts:318-345 | queues the callback body the record calls for |
| `FakeAdapters.FakeAdapter.StkQuery` | services/_shared/mpesa/src/fake.ts:162-171 | pending until the customer has acted, then the record's result |
| `FakeAdapters.FakeAdapter.ResolveTimeout` | services/_shared/mpesa/src/fake.ts:273-301 | sets the outcome of a timed-out push and queues its late callback, or reports the fault and changes nothing |
| `FakeAdapters.FakeAdapter.DeliverPending` | services/_shared/mpesa/src/fake.ts:237-250 | every due callback goes out once, in order or reversed; the others stay queued |
| `Agreement.ReplayMovesNothing` | services/_shared/mpesa/src/fake.ts:258-264 | a body whose transaction has committed, delivered again at any later time, with any reads and any confirmation, counts one duplicate and moves nothing |
| `Agreement.AgreesWithProvider` | services/_shared/mpesa/src/fake.ts:107-171 | against the fake, a decided charge has the reference of a push of its own amount and phone and is PAID exactly when the fake's record of it is a success, FAILED exactly when it is a decline |
| `Agreement.UndecidedStaysPending` | services/_shared/mpesa/src/fake.ts:273-309 | while the provider has not decided, the charge is PENDING |
| `PayoutInvariants.TableStepKeeps` | services/payments/src/services/payoutService.ts:138-297 | every statement of createPayout, sendB2C, the close and the result callback keeps one row per key, one payout per row and the two statuses in step, with stale reads |
| `PayoutInvariants.EndPayoutKeeps` | services/payments/src/services/b2cCallbackService.ts:144-167 | a payout and its ledger row end together |
| `PayoutInvariants.PayoutRunKeeps` | services/payments/src/services/payoutService.ts:138-297 | every moment of every payout run satisfies the payout invariant |
| `PayoutTheorems.OneLedgerRowPerKey` | services/commission/src/services/closeService.ts:143-148 | at most one ledger row per (tenant, attendant, day) over any overlapping, crashed or repeated closes |
| `PayoutTheorems.OnePayoutPerKey` | services/payments/src/services/payoutService.ts:183-205 | at most one payout per (tenant, attendant, day) |
| `PayoutTheorems.OneRequestPerKey` | services/payments/src/services/payoutService.ts:239-250 | every B2C request ever sent for a key is the same originator, amount and msisdn, those of the key's first ledger write |
| `PayoutTheorems.SkippedIsUnpayable` | services/commission/src/services/closeService.ts:130-137 | a ledger row is SKIPPED, for good and without a payout, exactly when its payout is zero or it has no msisdn |
| `PayoutTheorems.NoDuplicateDisbursement` | services/payments/src/services/payoutService.ts:138-224 | with a provider that dedupes on the originator, the money moved for a key is zero or exactly the payout first computed for it |
| `PayoutTheorems.StatusesCohere` | services/payments/src/services/payoutService.ts:267-295 | between any two statements: payout PENDING means ledger COMPUTED or REQUESTED, PAID on both or neither, ledger FAILED only with payout FAILED, REQUESTED only with an acknowledged conversation |
| `PayoutTheorems.NothingLeavesComputedUnheard` | services/payments/src/services/payoutService.ts:213-219 | a ledger row that left COMPUTED has a payout Daraja acknowledged, refused or reported on |
| `PayoutTheorems.LedgerFailsWithPayout` | services/payments/src/services/payoutService.ts:267-283 | a FAILED payout shows in the ledger exactly when a result failed it or the refusal's second statement ran |
| `PayoutRuns.RefusalCanStrandLedger` | services/payments/src/services/payoutService.ts:267-283 | a run that stops between the refusal's two statements: the payout FAILED, its ledger row COMPUTED, and asking again is no send |
| `PayoutTheorems.PayoutEndsOnEvidence` | services/payments/src/services/b2cCallbackService.ts:105-167 | a payout is FAILED only after a rejection or a non-zero result, and PAID only after a zero result for its exact amount |
| `PayoutTheorems.PayoutsNotGuessed` | services/payments/src/services/payoutService.ts:251-266 | no stretch of timeouts, re-sends, acknowledgements and closes changes a payout's status |
| `PayoutTheorems.ClosesConverge` | services/commission/src/services/closeService.ts:120-176 | the computed columns of the ledger are the left-biased merge of everything the closes ever wrote, in write order |
| `PayoutTheorems.SendsAreCounted` | services/payments/src/services/payoutService.ts:226-250 | in every run, at most as many requests for a payout have left as its b2c_attempts says: each was counted before, on its own |
| `PayoutTheorems.SendsAreBounded` | services/payments/src/services/payoutService.ts:153-170 | when requests do not overlap, at most B2C_MAX_ATTEMPTS requests for a payout leave, and no more are counted |
| `PayoutTheorems.OverlapsBoundSends` | services/payments/src/services/payoutService.ts:153-170 | in every run with at most k requests for a payout between their read and their count at any moment, at most B2C_MAX_ATTEMPTS + k - 1 requests for it leave, and no more are counted |
| `PayoutRuns.OverlapReachesBound` | services/payments/src/services/payoutService.ts:153-170 | for every k, a run in which that many requests leave |
| `PayoutsDb.AskingAgainIsNoOp` | services/payments/src/services/payoutService.ts:153-175 | once a payout is acknowledged, ended or out of attempts, asking again sends and writes nothing |
| `PayoutsDb.SecondRequestSendsNothing` | services/payments/src/services/payoutService.ts:138-224 | after any definite answer to the first request every later request is such a no-op |
| `PayoutsDb.TimedOutRequestIsResent` | services/payments/src/services/payoutService.ts:146-170 | a timed-out request is sent again under the same payout, so the same originator |
| `PayoutsDb.CreateKeepsFigures` | services/payments/src/services/payoutService.ts:138-224 | asking for a payout touches no computed column of the ledger |
| `PayoutsDb.PayoutDatabase.WriteLedger` | services/commission/src/services/closeService.ts:143-176 | insert on a free key, nothing on a taken one, and says which |
| `PayoutSteps.WriteOutcome` | services/commission/src/services/closeService.ts:130-165 | the first write of a key adds its row with its figures, COMPUTED if and only if there is something to send and somewhere to send it; a later one changes nothing |
| `PayoutsDb.PayoutDatabase.SendB2C` | services/payments/src/services/payoutService.ts:226-297 | the statements around b2cPayment for every way it can end, including the half-done ones |
| `PayoutSteps.SendOutcome` | services/payments/src/services/payoutService.ts:226-297 | what a send leaves, column by column, for every reply: only a rejection of a PENDING payout fails it, an acknowledgement leaves it as it was with its conversation and moves its row from COMPUTED to REQUESTED, a timeout or error moves neither |
| `PayoutSteps.SendIsStretch` | services/payments/src/services/payoutService.ts:226-297 | so a send is a stretch of payout steps, each enabled by its reply, and the whole-run theorems are about it |
| `PayoutsDb.PayoutDatabase.CreatePayout` | services/payments/src/services/payoutService.ts:138-224 | existing, re-sent, raced, missing, zero, fractional and new, each with its whole effect |
| `PayoutSteps.FirstRequestOutcome` | services/payments/src/services/payoutService.ts:177-224 | a first request makes one payout of the row's amount and msisdn and sends it once; it is FAILED if and only if Daraja rejected it |
| `PayoutSteps.FirstRequestIsStretch` | services/payments/src/services/payoutService.ts:177-224 | that request is a stretch of payout steps: one insert, one send |
| `PayoutSteps.RequestLeavesPayout` | services/payments/src/services/payoutService.ts:138-224 | any request for a COMPUTED row of whole shillings leaves a payout of the row's figures and keeps every payout invariant, whatever Daraja replies |
| `PayoutsDb.PayoutDatabase.ApplyB2CCallback` | services/payments/src/services/b2cCallbackService.ts:55-169 | dedupe, match, amount check and the paired transition as one effect |
| `PayoutSteps.ResultOutcome` | services/payments/src/services/b2cCallbackService.ts:105-167 | a first result ends a PENDING payout and its ledger row together if and only if it is a failure or a zero for the exact amount: both PAID for 0, both FAILED otherwise; a zero for another amount is held and moves nothing |
| `Close.FiguresFor` | services/commission/src/services/closeService.ts:74-86 | the ledgered amount is payout plus remainder, the payout whole shillings, the remainder below one |
| `Close.FiguresExist` | services/commission/src/services/closeService.ts:120-165 | an attendant can be ledgered if and only if the rate is a rate and the day's figures fit their columns |
| `Close.MergedWrite` | services/commission/src/services/closeService.ts:143-165 | one more write keeps the ledger the merge of all writes, first or not |
| `Close.RequestPayout` | services/commission/src/clients/paymentsClient.ts:37-79 | anything but an answer from Payments is unknown; no computed column changes |
| `Close.AskForRow` | services/commission/src/services/closeService.ts:201-243 | a payout is asked for if and only if the key's row is COMPUTED, and then for that row; it counts as requested if and only if Payments answered that it was accepted |
| `Close.CloseAttendant` | services/commission/src/services/closeService.ts:118-243 | one attendant: ledger, then skip, pass over or ask for the key's row, each counted once |
| `Close.RunClose` | services/commission/src/services/closeService.ts:96-262 | a run merges its writes in behind the old ledger; completed it has created + existing = all attendants, failed it stopped at the first it could not compute; its counters count its turns, and every turn still holds in the tables it leaves: an asked row has its payout, a passed one is not COMPUTED |
| `Close.TurnsAddUp` | services/commission/src/services/closeService.ts:118-243 | skipped, requested, uncertain and the rows already past COMPUTED make up the attendants met |
| `Close.NobodyForgotten` | services/commission/src/services/closeService.ts:201-243 | after a completed run whose requests arrive, every attendant with something to send and somewhere to send it has a payout of the row's figures, unless that row was SKIPPED or fractional when it was first written |
| `Close.ReplayCreatesNothing` | services/commission/src/services/closeService.ts:177-200 | closing a day whose keys are all ledgered creates no row and keeps every figure |
| `Money.ToMinorUnits` | services/_shared/ts/src/money.ts:28-42 | accepts exactly the non-negative safe integers, unchanged |
| `Money.SumMinor` | services/_shared/ts/src/money.ts:57-59 | the exact sum, or an error exactly when it leaves the safe range |
| `Money.LineItemTotal` | services/_shared/ts/src/money.ts:62-67 | the exact product for a positive quantity, an error otherwise or beyond the safe range |
| `Money.CommissionForSale` | services/_shared/ts/src/money.ts:74-79 | the largest whole number of units not above total x rate / 10000, at most the total, for rates from 0 to 10000 and an error otherwise |
| `Money.StoredIsExact` | services/_shared/ts/src/money.ts:69-79 | for INT columns every commission product is exact |
| `Money.WhenComputeFails` | services/commission/src/services/closeService.ts:74-86 | it fails exactly when a rate is out of range for some sale or a sum leaves the safe range |
| `Money.CommissionBounds` | services/commission/src/services/closeService.ts:74-86 | floor(total x bps / 10000) - (n - 1) <= amount <= floor(total x bps / 10000) <= total |
| `Money.CommissionIgnoresOrder` | services/commission/src/services/closeService.ts:74-86 | the order of the sales changes nothing, failures included |
| `Money.LedgerConserves` | services/commission/src/services/closeService.ts:74-86 | over any ledger: earned = sent + left behind, sent is whole shillings, less than a shilling per row stays behind |
| `Sales.DraftIsPriced` | services/pos/src/services/saleService.ts:137-158 | every price and the total are the server's catalog prices at write time, line for line |
| `Sales.SalesMatchKeys` | services/pos/src/services/saleService.ts:160-205 | sales and idempotency rows correspond one to one in every run, with the total the sum of the lines |
| `Sales.FirstWriterWins` | services/pos/src/services/saleService.ts:85-237 | the key rows are a first-writer-wins register; every answer ever given is a refusal of what the call asks, the stored response for the stored request, or a conflict for any other |
| `Sales.OneResponsePerKey` | services/pos/src/services/saleService.ts:105-116 | two successes under one key are the same response to the same request |
| `Sales.LosersLeaveNothing` | services/pos/src/services/saleService.ts:207-237 | a transaction that loses its race or fails otherwise leaves no row |
| `PosDb.PosDatabase.PriceLines` | services/pos/src/services/saleService.ts:137-154 | pass 1: all lines priced in order, or the first problem |
| `PosDb.PosDatabase.CreateSale` | services/pos/src/services/saleService.ts:85-237 | statement by statement createSale, with the rollback and re-read of a lost race |
| `PosDb.PosDatabase.PaySale` | services/pos/src/services/saleService.ts:283-354 | a charge is asked for only for an UNPAID sale without one and for its whole total; the id Payments returns is stored on that sale and nothing else; an unknown outcome changes nothing |
| `PosDb.PosDatabase.ApplySalePaid` | services/pos/src/services/saleService.ts:363-382 | deduped on the sale, guarded by tenant and status, rolled back when the sale is missing |
| `PosDb.ConsumeMessage` | services/pos/src/workers/salePaidConsumer.ts:29-46 | a message leaves the queue if and only if it is well formed, its sale exists or was paid before, and its ack worked; by then its event is applied |
| `PosDb.ConsumeOnce` | services/pos/src/workers/salePaidConsumer.ts:25-50 | the tables are those of the batch's events applied in order, and exactly the settled and acked messages leave the queue |
| `PosDb.AppliedAtOnce` | services/pos/src/services/saleService.ts:363-382 | what a batch of events makes of the sales: each existing sale of the event's tenant that was not yet PAID is PAID on the event's date, each event is remembered, and nothing else changes |
| `PosDb.OrderAndRepetitionIrrelevant` | services/pos/src/services/saleService.ts:356-362 | however often and in whatever order the same events arrive, the tables end the same |
| `DailyClose.GroupRows` | services/pos/src/routes/internal.ts:101-112 | every attendant's list is its own rows in order, and every row is in one list |
| `DailyClose.LatestRate` | services/pos/src/routes/internal.ts:179-195 | the applicable rate with the latest start, or none |
| `DailyClose.EffectiveRateBps` | services/pos/src/routes/internal.ts:173-196 | the attendant's own latest rate before the end of the day, else the tenant's, else zero |
| `DailyClose.LaterRatesDoNotMatter` | services/pos/src/routes/internal.ts:167-196 | a rate taking effect after the day does not change what the day pays |
| `DailyClose.Report` | services/pos/src/routes/internal.ts:114-141 | each tenant and attendant once, with exactly its own sales, its msisdn and its effective rate |
| `DailyClose.CloseConserves` | services/pos/src/routes/internal.ts:84-141 | the response holds exactly the PAID sales of the window, each at one place, under its own tenant and attendant |
| `DailyClose.PaidOnOneDay` | services/pos/src/routes/internal.ts:15-18 | a PAID sale belongs to one day, the Nairobi date of its payment |
| `DailyClose.ClosesPartitionSales` | services/pos/src/routes/internal.ts:33-39 | over consecutive closes of a fixed table every sale paid in the stretch is counted by exactly one |
| `DailyClose.ImpossibleDateRollsOver` | services/pos/src/routes/internal.ts:41-75 | the route checks a day's shape only: a date that is none is served as the day it rolls over to |
| `EndOfDay.LedgeredIsPaid` | services/commission/src/services/closeService.ts:120-176 | a row a close created counts exactly its attendant's paid sales of the day and their total; its amount is the sum of those sales' own floors at the rate in force at the end of the day, split into payout and remainder, for that attendant's phone |
| `EndOfDay.LedgeredCommissionBounds` | services/commission/src/services/closeService.ts:120-176 | so the ledgered amount is at most the rate of the day's total, and less than one unit a sale below it |
| `EndOfDay.PaidIsLedgered` | services/commission/src/services/closeService.ts:120-176 | after a completed close every attendant with a paid sale that day has a ledger row |
| `EndOfDay.EarnedIsAskedFor` | services/commission/src/services/closeService.ts:120-243 | every row a completed close created with a positive payout and an msisdn has a payout of exactly its figures, when its requests arrive |
| `Calendar.DayNumberOfCivil` | services/commission/src/services/businessDay.ts:18-25 | every day number is the number of its civil date |
| `Calendar.CivilOfDayNumber` | services/commission/src/services/businessDay.ts:18-25 | every civil date is the date of its day number |
| `Calendar.SurvivesUtc` | services/commission/src/services/businessDay.ts:18-25 | a date comes back from Date.UTC as itself exactly when it is real and its year is not 0 to 99 |
| `BusinessDay.ReadsWhatIsWritten` | services/commission/src/services/businessDay.ts:16-31 | writing and reading a day string are inverse |
| `BusinessDay.BusinessDaysAreDates` | services/commission/src/services/businessDay.ts:18-25 | the accepted strings are exactly the real dates of years 100 to 9999 |
| `BusinessDay.DaysTileTime` | services/commission/src/services/businessDay.ts:27-47 | an instant has a day's date exactly when it lies in that day's bounds |
| `BusinessDay.DaysAdjoin` | services/commission/src/services/businessDay.ts:43-47 | days follow one another without gap or overlap |
| `BusinessDay.IsoDateIsDay` | services/commission/src/services/businessDay.ts:27-40 | an instant's date is a business day exactly when it lies in years 100 to 9999; every other date is written in a shape that is refused, or not at all |
| `BusinessDay.ClosesEndedDay` | services/commission/src/services/businessDay.ts:37-40 | for every instant: the day to close is a business day exactly when its instant lies in those years, and then it has ended, less than a day ago |
| `BusinessDay.DeadlineIsNextMorning` | services/commission/src/services/businessDay.ts:54-57 | the payout deadline is 06:30 Nairobi time the next morning |
| `CloseWorker.TrustedScheduledTime` | services/commission/src/workers/closeWorker.ts:73-79 | a scheduled time is trusted, as what it parses to, exactly when it is not empty, parses and is not in the future |
| `CloseWorker.ClosedDayHasEnded` | services/commission/src/workers/closeWorker.ts:101-115 | a day a message names is the day closed; any other day closed had ended, less than a day before the message was due; a trigger names no business day if and only if its time lies outside the years a day can be written for |
| `CloseWorker.BacklogClosesEveryDay` | services/commission/src/workers/closeWorker.ts:101-115 | triggers due on consecutive days close consecutive distinct days, however late and in whatever order they are consumed; exactly those due outside those years close none |
| `CloseWorker.BareBacklogClosesOneDay` | services/commission/src/workers/closeWorker.ts:85-99 | triggers that carry no time close one day exactly when they are consumed on one Nairobi day |
| `CloseWorker.TallyAddsUp` | services/commission/src/workers/closeWorker.ts:120-222 | closed counts the finished closes and failed the refused days, raised closes and failed acks; a message is in neither only when another task holds the lock |
| `CloseWorker.RunOnce` | services/commission/src/workers/closeWorker.ts:133-222 | a message leaves the queue exactly when its close finished and its ack worked; a date that cannot be written ends the batch there and stays queued |
| `CloseWorker.DoneClosedADay` | services/commission/src/workers/closeWorker.ts:133-222 | what left the queue closed a real day, which had ended unless somebody named it |
| `DarajaDate.ReadsThreeHoursEarly` | services/payments/src/services/callbackService.ts:97-104 | the date the fake writes reads back to the second, three hours early, exactly when its year has four digits as a number; any other does not parse |
| `Json.Idempotent` | services/payments/src/services/callbackService.ts:82-95 | normalising twice is normalising once |
| `Json.CanonicalForm` | services/payments/src/services/callbackService.ts:82-95 | two values have one form exactly when they differ by object key order only, at any depth; arrays keep their order |
| `Json.ChecksumIgnoresKeyOrderOnly` | services/payments/src/services/callbackService.ts:81-95 | for any hash: two bodies share a checksum exactly when they differ by object key order only, or the hash collides on their two forms |
| `RequestHash.HashDecidesRequest` | services/pos/src/services/saleService.ts:44-58 | for any hash: two createSale calls hash alike exactly when tenant, attendant and items are the same, or the hash collides on their two forms |

## Left out

- HTTP routing, authentication, health, metrics, tracing, logging, the web UI and infrastructure: they decide nothing about money.
- `DarajaAdapter`, the stub server and the SQS clients: a push, query or payout call is an argument that says how it ended; a queue is at-least-once without a dead-letter cut-off.
- `b2cPayment` and `queueB2C` of the fake: the same shape as its STK half, and it does not dedupe on the originator, so it is not the provider of the disbursement theorem.
- SHA-256 is any function of the canonical form, and a collision of it is named where it matters; `localeCompare` is taken as a total order on keys, and UUIDs as fresh.
- Columns nothing decides on: receipts, descriptions, merchant request ids, update timestamps, sale item ids, `close_runs`.
- Request validators: amounts arrive as positive whole numbers, result codes as integers. Fields of a sale item other than product and quantity, which the request hash would also cover, are not part of `Sales.Request`.
- `ORDER BY created_at LIMIT` of the relay: `PaymentsDb.Database.RelayOnce` takes any set of unpublished rows.
- Operator re-push of a charge, POST /payouts for a row that is not COMPUTED, and manual edits: outside the runs.
- Liveness beyond the reconciler backlog: nothing here says that a message is eventually delivered.
- Attribution.NoMisattribution: assumes each charge is pushed once, success callbacks echo their own push and are applied within 30 minutes of creation, and purges use an age of at least the window.
- Agreement.AgreesWithProvider: assumes each timeout is resolved at most once; `Fake.SecondResolutionMustAgree` says what a second one would do.
- ChargeTheorems.PaidHasProviderEvidence: assumes confirmation is on and no paying callback had an empty pre-check; `ChargeTheorems.PaidIsAnsweredOrUnchecked` drops the second.
- PaymentsDb.Database.RunReconcileOnce: a pass nobody else interrupts; interleaved passes are steps of `Protocol`, where the whole-run theorems hold.
- BacklogRuns.BacklogBound: assumes charges of distinct creation times, no definite answer, hold or purge of one of them, and no back-dated insert or release of a charge as old as they are.
- Payouts.StatusFor: no msisdn and the empty one are the same `NO_MSISDN`; `closeService.ts` would ledger an attendant whose stored number is the empty string as COMPUTED. Stored numbers are taken as non-empty.
- Close.RunClose: one run whose rows nobody else writes meanwhile; overlapping and torn closes are steps of `PayoutProtocol`, where convergence and the disbursement theorem hold.
- PosDb.PosDatabase.PaySale: the MSISDN pattern and the tenant's till are two given facts, not strings.
- Money.CommissionForSale: products of 2^53 and more, where JavaScript's arithmetic is no longer exact; INT columns never reach them (`Money.StoredIsExact`).
- DarajaDate.ReadsThreeHoursEarly: dates sent as strings are not modelled.
