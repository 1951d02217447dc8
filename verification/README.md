# Loyalty back end: model and proofs

The loyalty back end keeps points, tiers, Gold upgrades, birthday bonuses and achievements in PostgreSQL rows
that many processes change at once. This project models its tables, its transactions and its guarded SQL
statements, and proves what every interleaving of them keeps. `dafny verify dfyconfig.toml` checks all of it.

## How the model is laid out

| files | what they hold |
|---|---|
| `Delivery`, `DeliveryOutcomes`, `RmqDelivery` | one row of `inbound_deliveries` with any number of workers, replays and crashes; the handler and the replay tool as programs over it |
| `Outbox`, `OutboxRetries`, `OutboxPublisher` | the leased outbox as a machine, and one publisher as a program beside any number of others |
| `Accounts`, `Transactions` | the tables of the points economy, and what each of its transactions answers and writes |
| `Bookkeeping`, `Registers`, `History`, `Promises`, `Answers` | invariants of the tables, runs of all writers in any order, what every run promises, and what each command is answered, decided by the rows |
| `Locking`, `Database`, `TransactionRetry` | why the profile lock is enough; the tables changed statement by statement with other users' commits in between; retries after conflicts and lost answers |
| `LoyaltyService`, `LoyaltyExpirationService`, `AdminLoyaltyService`, `AchievementsProcessor` | the services, statement by statement, proved equal to the transactions of the model |
| `AchievementJobs` | the achievements job, one transaction per achievement with its retries, with anyone committing in between |
| `Scans`, `LoyaltyJobs` | the four batched nightly scans with arbitrary commits between their statements, up to the first exception |
| `Unlocking`, `AchievementGoals`, `YearTotals`, `Expiries`, `RoundTrips`, `PurchaseDelivery` | achievements, the year's totals and expiry dates over whole runs; debits, refunds and purchases answering one another; a purchase from broker to ledger |
| `Civil`, `Calculator`, `Backoff` | civil dates (section 21.4.1 of ECMA-262), multipliers, retry delays |
| `Options`, `Tokens` | an optional value; fresh tokens |

A run is any sequence of steps: guarded statements, transactions, lost answers, crashes, redeliveries, replays
and the passing of time. Main results are stated for all runs.

What is assumed:

- The database clock never goes back, and the time a statement began is never later than the clock it executes at.
- A transaction commits wholly or not at all; the profile row lock serialises the transactions of one user
  (`src/prisma/profile-transaction.ts:63-78`); a unique key is taken by whoever commits it first.
- `gen_random_uuid()` never repeats, and a token is used only by the process that drew it. SHA-256 is injective: an id is the text it digests.
- A write outside an integer column aborts its transaction. Amounts of money are real numbers.
- Runs start from empty tables, so there are no rows that earlier versions of the code wrote.
- A profile's id is taken to be its user's id; ledger rows are numbered in the order they commit, and the latest
  debit of an order is the last one written; months are numbers, which `Civil.MonthKeyOrder` justifies.
- `cause` on a ledger row, the claim and commit counters of a delivery and the completion log of the outbox are
  history: the tables do not hold them and no statement reads them.

Results a reader may not expect:

- The date-only parser refuses every date before the year 100, because `Date.UTC` reads the years 0 to 99 as 1900
  to 1999 (`Civil.DateOnlyAccepted`); a date in another format is silently moved there instead (`Civil.NormalisedDay`).
- Checking three candidate years is exact for every birthday the parser can yield (`Civil.ParsedBirthdayWeek`); a
  caller that bypassed the parser with 29 February of the year 0 would see it err on 26 February and 4 March of leap
  years, and on no other day (`Civil.BirthdayWeekExact`).
- One profile whose bonus would leave an integer column stops the whole birthday scan, and nobody with a lower id is
  served (`Scans.PoisonedProfile`, `Scans.PoisonedScan`); `Scans.VisitThrowsExactly` says which profiles do that.
- A birthday on 29 February has a bonus day only in leap years, although its birthday week is kept every year
  (`Calculator.BonusDayExists`, `Civil.ThreeYearsSuffice`).
- A purchase that states zero redeemed points earns in full although points were redeemed for its order, because the
  stated figure is taken before the debit is looked up (`RoundTrips.RedeemedYetEarns`).
- The two outbox delays differ on a row that was never claimed (`Backoff.OutboxDelaysAgreeExactly`).

## Model

| member | source | states |
|---|---|---|
| `Delivery.AckedOnlyWhenSafe` | src/loyalty/consumers/rmq-delivery.service.ts:86-208 | Over every run with any workers, duplicates, crashes, lost answers, expiries and replays, an acknowledged copy means that the work has committed, or that the row is quarantined with exactly this body, or that a replay took the quarantined message up again after this worker had found it safe. |
| `Delivery.FinishedMeans` | src/loyalty/consumers/rmq-delivery.service.ts:103-131 | A step makes a worker ready to acknowledge only when the row is completed by work that committed under a claim of the current cycle, or is quarantined at that moment with exactly this body, or when the work under the worker's own claim has committed. |
| `Delivery.LeaseExcludes` | src/loyalty/consumers/rmq-delivery.service.ts:237-264 | A worker running its work within its lease, alone or not, is the row's token holder, and no step of anyone else, claim, quarantine, redelivery or replay, changes the row. |
| `Delivery.OverlapOutlivesLease` | src/loyalty/consumers/rmq-delivery.service.ts:237-247 | When two workers run the work at once, the lease of the one who claimed earlier has passed. |
| `Delivery.LostForever` | src/loyalty/consumers/rmq-delivery.service.ts:151-181 | A claim that is no longer on the row never comes back, and its completion or failure statement changes nothing in any later state. |
| `Delivery.BudgetBound` | src/loyalty/consumers/rmq-delivery.service.ts:237-247 | Attempts never exceed the budget, and the claims of a purchase message in its whole life never exceed the budget times one plus the number of replays. |
| `Delivery.WorkBudget` | src/loyalty/consumers/rmq-delivery.service.ts:130-145 | The runs of a purchase's work, ended or still going, never exceed the budget times one plus the number of replays. |
| `Delivery.FailureDecides` | src/loyalty/consumers/rmq-delivery.service.ts:151-163 | After a recorded failure and its delay the row can be claimed exactly if the failure was transient and budget is left, and quarantined exactly otherwise. |
| `Delivery.PermanentFailureStops` | src/loyalty/consumers/rmq-delivery.service.ts:152-162 | After a recorded permanent failure nothing is claimed again in any run without a replay, however often the message is redelivered. |
| `DeliveryOutcomes.ResultTakesEffect` | src/loyalty/consumers/rmq-delivery.service.ts:149-185 | On every run a recorded result takes effect exactly while its claim's token is on the row and its lease runs. A success then completes the row and frees its lease; a failure frees the lease, sets the next attempt, and asks for the quarantine exactly if it was permanent or spent the budget; the rest of the row stays. A late result changes nothing. |
| `DeliveryOutcomes.SuccessIsFinal` | src/loyalty/consumers/rmq-delivery.service.ts:176-185 | After a recorded success, in any continuation without a replay (and for a date of birth without a new admission), the row stays completed and is never quarantined, no claim is made again, and whoever looks at it is ready to acknowledge. |
| `DeliveryOutcomes.FailureWaits` | src/loyalty/consumers/rmq-delivery.service.ts:151-165 | After a recorded failure no claim is made before its delay is over, whatever happens meanwhile. |
| `DeliveryOutcomes.AdmissionOpens` | src/loyalty/consumers/rmq-delivery.service.ts:86-101 | The first admission makes a row that can be claimed at once; a redelivered date of birth that was completed is opened again with a full budget; every other row is left as it is. |
| `Delivery.RowConsistent` | src/loyalty/consumers/rmq-delivery.service.ts:149-185 | Completed and quarantined exclude each other; either of them, or a pending quarantine, leaves no token; a quarantined row keeps its own body; completion was recorded by a claim of the current admission or replay cycle after a commit. |
| `Delivery.ClaimOrQuarantine` | src/loyalty/consumers/rmq-delivery.service.ts:103-131 | Once its lease and wait have passed, a row that is not finished allows exactly one of claim and quarantine, and the reader decides for that one. |
| `Delivery.NeverStuck` | src/loyalty/consumers/rmq-delivery.service.ts:87-131 | From every reachable state whose lease and wait have passed, a worker's look at the row finds it completed by committed work or quarantined with its body, or leads to running the work under its own lease, or to the stored quarantine. |
| `Delivery.IdNamesQueueAndBody` | src/loyalty/consumers/rmq-delivery.service.ts:27-33 | Two messages share a delivery id if and only if queue and body are the same. |
| `Delivery.InvKept` | src/loyalty/consumers/rmq-delivery.service.ts:93-181 | Every step keeps the row's shape and budget, what each worker knows, the uniqueness of tokens and the fencing of live leases. |
| `Delivery.RowReplayed` | src/loyalty/consumers/quarantine-replay.service.ts:64-72 | A replay clears attempts, quarantine, completion and lease, keeps the body, leaves a row that can be claimed at once and not replayed again under the same id, and opens room for exactly one more budget of claims. |
| `DeliveryOutcomes.ReplayExactly` | src/loyalty/consumers/quarantine-replay.service.ts:64-72 | On every run a replay takes effect exactly on a quarantined row, under another id than the last replay's. |
| `DeliveryOutcomes.ReplayOnce` | src/loyalty/consumers/quarantine-replay.service.ts:64-72 | However often the tool is run with one id, and whatever happens in between, it opens the message once. |
| `RmqDelivery.RmqDeliveryService.Handle` | src/loyalty/consumers/rmq-delivery.service.ts:68-214 | The handler, with its admission flag and nested retry loops, only ever takes steps of the protocol while anyone else acts between its statements; it returns acknowledged exactly if it acknowledged, and then the copy is safe in the sense of `Delivery.AckedOnlyWhenSafe`. |
| `RmqDelivery.RmqDeliveryService.Attempt` | src/loyalty/consumers/rmq-delivery.service.ts:140-198 | The worker ends its work exactly once under a claim, however often recording the outcome has to be repeated. When it is settled, its last statement recorded the success, which completed the row if the claim still held it; when it goes on, that statement recorded the failure with the configured delay. |
| `RmqDelivery.QuarantineReplayService.Replay` | src/loyalty/consumers/quarantine-replay.service.ts:34-92 | The stored body always matches its id; the row is reset exactly if it was replayable for this replay id and the checks passed, so the same replay id never resets it twice; a published replay delivers the original body. |
| `PurchaseDelivery.PurchaseDeliveredOnce` | src/loyalty/loyalty.service.ts:275-357 | Delivery protocol and tables together: whatever happens, transactions carrying the purchase's event id take effect at most once, and an acknowledged copy means that one has, or that the row is quarantined with its bytes, or that a replay took those up again later. |
| `PurchaseDelivery.OneVisitOneRow` | src/loyalty/loyalty.service.ts:279-357 | When nothing else uses the event id, the purchase has counted exactly one visit if its work ever committed and none otherwise, and at most one ledger row was written for it. |
| `Outbox.BoundedChanges` | src/loyalty/outbox-publisher.service.ts:62-122 | A row's status changes at most twice per attempt of its budget; attempts stay within it; PROCESSING means a token; FAILED means the budget is spent; the clean-up of exhausted pending rows is never enabled. |
| `Outbox.FinalForever` | src/loyalty/outbox-publisher.service.ts:151-189 | COMPLETED and FAILED rows never change again. |
| `Outbox.CompletedWasSent` | src/loyalty/outbox-publisher.service.ts:124-190 | A COMPLETED row was emitted by the publisher that completed it, inside that publisher's lease. |
| `Outbox.EmissionsWithinAttempts` | src/loyalty/outbox-publisher.service.ts:124-148 | Over every run, the emissions of an event, counted one by one, never exceed its attempts. |
| `Outbox.LatePublisherHarmless` | src/loyalty/outbox-publisher.service.ts:157-189 | A publisher whose event has been claimed again changes no row. |
| `Outbox.LeaseExcludes` | src/loyalty/outbox-publisher.service.ts:103-122 | While a publisher's lease runs and it has not settled, the row is its own: nobody can recover or claim it, and settling a confirmed emission completes it. |
| `OutboxRetries.ClaimTakesWaiting` | src/loyalty/outbox-publisher.service.ts:103-122 | On every run a claim under a fresh token takes exactly the pending rows whose moment has come (that they have budget left need not be asked), and makes them its own with one attempt more. |
| `OutboxRetries.NewEventWaits` | src/loyalty/outbox-publisher.service.ts:103-122 | A new event can be claimed from the moment it is written, with all of its budget, and disturbs no other row. |
| `OutboxRetries.SettlesExactly` | src/loyalty/outbox-publisher.service.ts:151-190 | A result is recorded exactly while its token is on the row and its lease runs; a success completes the row, and a failure gives it back. |
| `OutboxRetries.FailedSendComesBack` | src/loyalty/outbox-publisher.service.ts:62-82 | With budget left, an event whose send failed or whose claim expired is claimed again exactly from then plus five seconds doubled per attempt up to a minute, and is then the new claim's; without, it has failed for good. |
| `OutboxRetries.NothingIsStuck` | src/loyalty/outbox-publisher.service.ts:62-122 | Every row that is not final can be claimed, or its claim recovered, from a moment its columns name. |
| `Outbox.FailureEqualsRecovery` | src/loyalty/outbox-publisher.service.ts:62-82 | Recording a failure in JavaScript and recovering the expired claim in SQL leave the same row. |
| `Outbox.InvKept` | src/loyalty/outbox-publisher.service.ts:62-190 | Every step keeps row shape and termination measure, the claims and their attempt numbers, fencing and what was sent. |
| `OutboxPublisher.OutboxPublisherService.PublishPendingEvents` | src/loyalty/outbox-publisher.service.ts:27-60 | A pass does nothing while an earlier one runs, and resets its flag. Otherwise it first gives back the oldest expired claims, then makes at most fifty claims and brings every one of them to its end; with fewer than fifty, its last look found no waiting row but locked ones. |
| `OutboxPublisher.OutboxPublisherService.RecoverExpiredClaims` | src/loyalty/outbox-publisher.service.ts:62-82 | The oldest fifty expired claims that are not locked are given back, and all of them when there are fewer. |
| `OutboxPublisher.OutboxPublisherService.ClaimEvents` | src/loyalty/outbox-publisher.service.ts:103-122 | At most the limit of waiting rows, oldest first, under pairwise distinct fresh tokens and the given lease; every other unlocked waiting row is younger, and there is none when fewer than the limit come back. |
| `OutboxPublisher.OutboxPublisherService.ProcessEvent` | src/loyalty/outbox-publisher.service.ts:124-190 | A claim is emitted at most once and counts as sent only if the broker confirmed it; its result is recorded unless the database failed, and a recorded success leaves the row COMPLETED by this very claim. |
| `OutboxPublisher.OutboxPublisherService.FailExhaustedPending` | src/loyalty/outbox-publisher.service.ts:84-101 | Finds no row that this code wrote. |
| `Promises.Conservation` | src/loyalty/loyalty.service.ts:171-193 | Over every run of all writers the balance is the sum of the user's ledger points, lifetime points the sum of the gains that are not refunds, every row shows the running balance, and the balance stays between zero and the lifetime. |
| `Promises.RefundedWithinBurned` | src/loyalty/loyalty-expiration.service.ts:284-363 | Per user and per order, refunds never exceed debits. |
| `Promises.RefundMatching` | src/loyalty/loyalty-expiration.service.ts:315-361 | Links are a one-to-one pairing of all refund rows with some of the debit rows of the same user and order and opposite points; an order of a user has at most one refund. |
| `Promises.OneEffectPerKey` | src/loyalty/point-command-idempotency.ts:26-84 | After a transaction carrying a key took effect, no transaction carrying that key, of any user or kind and however much later, has any effect. |
| `Promises.SuccessReportsItsRow` | src/loyalty/point-command-idempotency.ts:48-84 | Every success answers with the user, order, amount and balance of the one ledger row its key created. |
| `Promises.SameKeySameAnswer` | src/loyalty/point-command-idempotency.ts:41-59 | Two successes with one key are the same command with the same answer. |
| `Promises.ResendGetsSameAnswer` | src/loyalty/point-command-idempotency.ts:24-60 | A client that lost the answer of a committed command and sends it again, after anything else has happened, gets the answer it missed. |
| `Promises.RejectionChangesNothing` | src/loyalty/loyalty.service.ts:140-169 | A debit or refund that does not succeed leaves every table as it was. |
| `Answers.RequestIsCommand` | src/loyalty/point-command-idempotency.ts:5-24 | A request is a command exactly if both ids are UUIDs, its amount is a whole number from 1 to 2147483647 and its key has 1 to 128 characters; the command is the request, field by field. |
| `Answers.TakenKeyAnswers` | src/loyalty/point-command-idempotency.ts:26-60 | A command whose key is taken changes nothing: the same command gets the stored balance, any other one a conflict, and a key that an event marked is refused as such. |
| `Answers.DeductionAnswers` | src/loyalty/loyalty.service.ts:140-196 | On every run a deduction under a new key succeeds exactly if it takes at least 75 points and the balance covers it; it then moves exactly its rows, and otherwise changes nothing and says why. |
| `Answers.RefundSucceedsExactly` | src/loyalty/loyalty-expiration.service.ts:284-363 | On every run a refund under a new key succeeds exactly if the ledger holds one debit row of the order, of exactly its amount, and no refund row; it always fits its columns, and closes that debit. |
| `Answers.RefundRefused` | src/loyalty/loyalty-expiration.service.ts:284-335 | Otherwise nothing changes, and the answer says which of the conditions failed. |
| `Answers.AdjustmentAnswers` | src/loyalty/admin-loyalty.service.ts:82-190 | On every run an adjustment goes through exactly if it is not zero, leaves no negative balance and, when it adds, leaves lifetime and year's points in their columns; only an addition counts for them and renews the expiry. |
| `Promises.TierHistory` | src/loyalty/loyalty-calculator.service.ts:32-42 | The announced upgrades of a user rise from BRONZE to the current tier, so there are at most two; in every run 20 visits or 5000 points of the year mean GOLD, and 8 visits or 2000 points at least SILVER. |
| `Promises.TierNeverFalls` | src/loyalty/loyalty-expiration.service.ts:188-196 | No run lowers a user's tier, annual resets included. |
| `Promises.GoldQuota` | src/loyalty/loyalty.service.ts:228-262 | At most one unreleased reservation per user and month under all uses, rollbacks, resets and month ends; the profile names the current month exactly if one is active in it. |
| `Promises.AvailableMeansUsable` | src/loyalty/loyalty.service.ts:820-829 | The reported availability is true exactly if a use for a new order would succeed, and the answer asking for reconciliation never comes. |
| `Answers.UseAnswers` | src/loyalty/loyalty.service.ts:213-273 | An order used before gets the answer of its reservation, active or released, and changes nothing, whatever the month and tier are by then; a new order of a GOLD user takes the month's upgrade exactly if no order holds it. |
| `Promises.RollbackFreesOwnMonth` | src/loyalty/loyalty.service.ts:576-594 | A rollback makes the upgrade available to someone exactly if that is its own user, GOLD, and its reservation was the active one of the current month. |
| `Answers.RollbackAnswers` | src/loyalty/loyalty.service.ts:564-606 | A rollback releases an active reservation once, whatever its month, and clears the mirror on the profile only if it names that month. |
| `Promises.BirthdayGrants` | src/loyalty/loyalty.service.ts:680-748 | Grants and bonus rows correspond one to one, at most one per user and year. |
| `Answers.BonusAnswers` | src/loyalty/loyalty.service.ts:673-770 | On every run the bonus of 100 points is given exactly if it is the user's birthday, the year has no grant and the columns have room; otherwise no account changes. |
| `Promises.DateOfBirthSaved` | src/loyalty/loyalty.service.ts:441-467 | An answer without exception saved the new date, an exception changed nothing, and the bonus came with the date exactly on the birthday of a year not granted yet. |
| `History.PlanLegal` | src/loyalty/loyalty.service.ts:277-357 | What each of the fourteen transactions writes meets every condition of the books and registers at once: posting, linking, keys, tiers, quota, grants, progress and column ranges. |
| `History.InvKept` | src/prisma/profile-transaction.ts:9-25 | Every transaction, aborted or not, and every month end keep all invariants of the tables. |
| `Locking.LockCoversReads` | src/prisma/profile-transaction.ts:63-78 | Whatever other users' transactions commit between a transaction's reads and its commit, it answers and writes what it would have from its first reads, unless they took its key. |
| `TransactionRetry.RetriedTransactions.WithTransactionRetry` | src/prisma/profile-transaction.ts:9-25 | At most three attempts; every attempt before the last ended in a conflict, and a conflict at the end is the third. With anything committing in between, the tables are those after other transactions and then one run of this one exactly if the last attempt committed; an answer comes exactly if that attempt did not lose it, and is the answer of that run. |
| `TransactionRetry.RetriedErrors` | src/prisma/profile-transaction.ts:27-61 | Retried are exactly the client's write conflicts, and serialization failures and deadlocks however they are wrapped. |
| `TransactionRetry.RetriedTransactions.RunOnce` | src/prisma/profile-transaction.ts:14-18 | Every service transaction, statement by statement with other users' commits in between, equals one atomic transaction after those commits. |
| `TransactionRetry.RetriedTransactions.DeductPoints` | src/loyalty/loyalty.service.ts:119-211 | Seen by a caller: an invalid command changes nothing, a success is the answer of the one run that took effect, and only the internal error leaves open whether the deduction committed. |
| `TransactionRetry.RetriedTransactions.RefundPoints` | src/loyalty/loyalty-expiration.service.ts:249-375 | The same for refunds. |
| `Database.LoyaltyDatabase.ClaimPointCommand` | src/loyalty/point-command-idempotency.ts:62-84 | Takes a free key with its result; a taken key is left alone and answers as a replay. |
| `LoyaltyServices.LoyaltyService.DeductPoints` | src/loyalty/loyalty.service.ts:140-196 | Statement by statement, with other users committing after the first look at the key, a deduction equals one atomic transaction after those commits. |
| `LoyaltyServices.LoyaltyService.UseGoldUpgrade` | src/loyalty/loyalty.service.ts:213-273 | Statement by statement this is the transaction whose outcome `Promises.AvailableMeansUsable` predicts and whose reservations `Promises.GoldQuota` bounds; a replay reserves nothing more. |
| `LoyaltyServices.LoyaltyService.RollbackGoldUpgrade` | src/loyalty/loyalty.service.ts:564-606 | Statement by statement this is the transaction of `Promises.RollbackFreesOwnMonth`: a second rollback changes nothing, and the mirror of another month survives. |
| `LoyaltyServices.LoyaltyService.ProcessTicketPurchase` | src/loyalty/loyalty.service.ts:275-428 | Statement by statement, with the race on the event id, a purchase equals one atomic transaction after the other users' commits; range errors and a taken key roll everything back. |
| `LoyaltyServices.LoyaltyService.ProcessUserDateOfBirthSet` | src/loyalty/loyalty.service.ts:441-468 | With other users committing between the bonus step's reads and its writes this is one atomic transaction, and a normal return saved the date: the handler that would report a grant's unique-key violation as success, with the date rolled back, is never reached. |
| `LoyaltyServices.LoyaltyService.ReadDateOfBirth` | src/loyalty/loyalty.service.ts:430-436 | A date is taken exactly if it parses and does not lie in the future. |
| `LoyaltyServices.LoyaltyService.GrantBirthdayBonusInTransaction` | src/loyalty/loyalty.service.ts:673-770 | Whatever other users commit between its reads and its writes, the bonus is granted with row, grant and event together, or refused, or everything is undone, and the grant's unique key is never violated. |
| `LoyaltyServices.LoyaltyService.PostBonus` | src/loyalty/loyalty.service.ts:717-763 | On any tables: a grant that is there already makes the insert fail and undoes the account update and the ledger row. |
| `LoyaltyExpiration.LoyaltyExpirationService.RefundPoints` | src/loyalty/loyalty-expiration.service.ts:269-364 | With other users committing after the look at the key and again between the reads and the writes, a refund equals one atomic transaction after those commits. |
| `LoyaltyExpiration.LoyaltyExpirationService.CreditRefund` | src/loyalty/loyalty-expiration.service.ts:337-363 | From reads that other users' commits have followed, the guarded link update still finds its row: the ownership error never occurs. |
| `LoyaltyExpiration.LoyaltyExpirationService.WriteRefund` | src/loyalty/loyalty-expiration.service.ts:341-361 | On any tables: a link that is taken makes the update miss and undoes everything the refund wrote. |
| `AdminLoyalty.AdminLoyaltyService.ModifyPointsGrpc` | src/loyalty/admin-loyalty.service.ts:82-190 | Adjustment, tier, ledger row and event in one transaction; refusals roll back even the opened profile. |
| `AdminLoyalty.AdminLoyaltyService.GrantVipStatusGrpc` | src/loyalty/admin-loyalty.service.ts:229-278 | An answer without exception leaves the user GOLD, with the change announced and the balance as it was; a user who is GOLD already is refused and nothing changes. |
| `AchievementJobs.AchievementsWorker.Process` | src/achievements/processors/achievements.processor.ts:25-89 | While anyone commits between its transactions and their retries, a job goes through its matching achievements in order and tries each one that makes a step once, whatever happened to the others. It lists exactly those whose transaction threw at its place in the run or whose answer the database did not give, in order. |
| `AchievementJobs.AchievementsWorker.ProcessAchievement` | src/achievements/processors/achievements.processor.ts:91-117 | Unparsable criteria and events that make no step are skipped without failing; any other achievement gets one transaction with retries. |
| `Achievements.AchievementsProcessor.Advance` | src/achievements/processors/achievements.processor.ts:117-212 | Key, progress, unlock, reward and ledger row as one transaction; a key that a point command holds and a column overflow undo all of it. |
| `Answers.DeliveryFailsExactly` | src/achievements/processors/achievements.processor.ts:117-207 | On every run a delivery fails exactly if its key belongs to a command, or if it is new, the achievement is locked and its progress, target or reward would leave a column; then it changes nothing, and otherwise it leaves its key. |
| `AchievementJobs.JobDelivers` | src/achievements/processors/achievements.processor.ts:67-88 | Whatever commits before a job, between its transactions and after it, the event counts for every achievement it tried and did not list as failed, so a job without failures has delivered its event to all of them. |
| `Achievements.ProgressIncrement` | src/achievements/helpers/achievement-progress.helper.ts:9-26 | For a counting achievement every event is one step, whatever its metadata. For a summing one the value is the named field, or "amount", and zero when missing; the event makes no step exactly if that is not positive, and otherwise one of the nearest integer. |
| `AchievementGoals.CountingUnlocks` | src/achievements/helpers/achievement-progress.helper.ts:13-15 | With fixed target and reward, a counting achievement is unlocked exactly when at least its target of distinct events has been delivered. |
| `AchievementGoals.SummingUnlocks` | src/achievements/helpers/achievement-progress.helper.ts:17-25 | A summing achievement is unlocked exactly when the values of the distinct delivered events, each rounded to the nearest integer, add up to its target. |
| `Unlocking.UnlockedBySum` | src/achievements/processors/achievements.processor.ts:115-182 | In any run with fixed target and reward, the achievement is unlocked exactly if the increments of the distinct delivered events sum to at least the target. |
| `Unlocking.OrderIrrelevant` | src/achievements/processors/achievements.processor.ts:117-136 | Two runs that delivered the same events, in any order and number, agree on the unlocking. |
| `Unlocking.RewardedOnce` | src/achievements/processors/achievements.processor.ts:171-207 | The reward row is written exactly once if the achievement is unlocked and has a reward, and otherwise never, with the fixed points. |
| `Unlocking.UnlockedAtTarget` | src/achievements/processors/achievements.processor.ts:150-180 | Under any target edits, every progress row is unlocked exactly if it has reached its target. |
| `Unlocking.KeyNamesBoth` | src/achievements/processors/achievements.processor.ts:115 | The processing key names its event and its achievement, so two deliveries share a key only if both agree. |
| `LoyaltyExpiration.LoyaltyExpirationService.ExpireProfile` | src/loyalty/loyalty-expiration.service.ts:125-152 | The profile is looked at again under the lock; either balance and ledger row change together, as `Scans.ExpiryOutcome` needs, or nothing does. |
| `Jobs.LoyaltyJobs.Sweep` | src/loyalty/loyalty-expiration.service.ts:104-161 | The batch loop ends under any interference and visits ids strictly downwards. It completes exactly if the database did not fail and no visited profile's transaction threw, and otherwise stops there; a profile nobody else touched that it got to is visited exactly if it was due when the scan began; a complete scan counts exactly its hits. |
| `Scans.ExpiryOutcome` | src/loyalty/loyalty-expiration.service.ts:124-154 | After the expiry scan an undisturbed profile that it got to, with a positive balance whose date is not later than the scan's clock, is empty with exactly one new row of minus its balance, and any other undisturbed one is as it was. |
| `Scans.RenewedIsSpared` | src/loyalty/loyalty-expiration.service.ts:130-137 | From the moment a concurrent writer has moved a profile's expiry past the scan's clock, its turn, whenever it comes and whatever commits in between, changes nothing. |
| `Scans.ScanIsOnePass` | src/loyalty/loyalty-expiration.service.ts:108-161 | Without other writers a complete batched scan gives the same tables as one pass over all profiles. |
| `Scans.BonusOutcome` | src/loyalty/loyalty.service.ts:471-529 | Every undisturbed user whose birthday it is and whom the scan got to holds the year's grant, and who had none before has got 100 points and one row. |
| `Scans.PoisonedProfile` | src/loyalty/loyalty.service.ts:500-521 | One undisturbed due profile whose transaction throws keeps the scan from completing. |
| `Scans.StoppedSkipsTheRest` | src/loyalty/loyalty.service.ts:664-669 | Nobody undisturbed below the profile at which a scan stopped is changed. |
| `Scans.CompletesExactly` | src/loyalty/loyalty.service.ts:500-521 | Alone and with a working database, a scan completes exactly if, on the tables it starts from, the transaction of no due profile throws. |
| `Scans.VisitThrowsExactly` | src/loyalty/loyalty.service.ts:709-748 | The expiry, annual and Gold visits never throw; a birthday visit throws exactly if the grant is missing and lifetime points, year points or the year would leave its column. |
| `Scans.PoisonedScan` | src/loyalty/loyalty.service.ts:500-521 | The counterexample: after an administrator adds 2147483647 points to user 9, the birthday scan, alone and with a working database, stops at 9, and user 5, whose bonus would have gone through, gets none. |
| `Scans.ResetOutcome` | src/loyalty/loyalty-expiration.service.ts:168-205 | After the annual reset an undisturbed user that it got to has exactly zero points and visits of the year and is otherwise unchanged. |
| `Scans.GoldOutcome` | src/loyalty/loyalty-expiration.service.ts:207-247 | After the Gold reset an undisturbed user's quota is free if a month before the cutoff held it, and is otherwise unchanged. |
| `Scans.HitsAreChanges` | src/loyalty/loyalty-expiration.service.ts:147-205 | What a job counts are the visits that changed the profile; the annual reset counts all its visits. |
| `RoundTrips.RefundUndoesDebit` | src/loyalty/loyalty-expiration.service.ts:284-363 | A refund of an order's first debit under a new key succeeds and gives the profile back exactly as before the debit, whatever other users did in between. |
| `RoundTrips.PurchaseEarns` | src/loyalty/loyalty.service.ts:279-357 | On every run a purchase that takes its key earns the paid amount times the rate of its case, rounded down, with its ledger row, exactly if the message states less than one redeemed point, or states nothing and no row of the ledger redeems points for the order; otherwise it earns nothing. It counts one visit in both cases. |
| `RoundTrips.PurchaseTakesEffect` | src/loyalty/loyalty.service.ts:279-357 | A purchase takes effect exactly if its key is free and the lifetime, the year's points and the year's visits stay within their columns. |
| `RoundTrips.DiscountedOrderEarnsNothing` | src/loyalty/loyalty.service.ts:798-818 | Once points were redeemed for an order, what its purchase earns, whenever it arrives and even after a refund, depends on the message alone: in full if the message states fewer than one redeemed point, and nothing otherwise. If it takes effect, it counts as a visit either way. |
| `RoundTrips.StatedFirst` | src/loyalty/loyalty.service.ts:798-818 | For an order with a debit, the points used are taken to be zero exactly if the message states fewer than one. |
| `RoundTrips.RedeemedYetEarns` | src/loyalty/loyalty.service.ts:802-804 | The counterexample: after 75 of 100 points were redeemed for an order, its purchase of 100 with `pointsUsed` 0 earns 100 points. |
| `RoundTrips.DebitsMeetMinimum` | src/loyalty/loyalty.service.ts:144-150 | In every run every debit row takes at least the minimum of 75 points. |
| `YearTotals.SinceTheReset` | src/loyalty/loyalty-expiration.service.ts:188-196 | In every run, the year's points are exactly what purchases, birthdays and administrators' additions brought since the user's last reset, and the year's visits are the purchases that took effect since; rewards and refunds do not count. |
| `YearTotals.TierIsEarned` | src/loyalty/loyalty-calculator.service.ts:32-42 | Between a user's annual resets and without a VIP grant, the tier after any run is exactly the one that the tier before and the totals after determine: nothing else raises it and no order of events matters. |
| `YearTotals.TierNeedsItsFigures` | src/loyalty/loyalty-calculator.service.ts:84-91 | And nothing else: over any such run a user is GOLD afterwards exactly if GOLD before or the totals reach 20 visits or 5000 points, and BRONZE exactly if BRONZE before and they do not reach 8 visits or 2000 points. |
| `YearTotals.TotalsNotNegative` | src/loyalty/loyalty.service.ts:305-308 | In every run the year's points and visits are never negative. |
| `Expiries.EarnedPointsLastAYear` | src/loyalty/loyalty.service.ts:330-338 | After a transaction that earned a user tier-relevant points, and after any run of later transactions, no expiry within 365 days takes anything. |
| `Calculator.LoyaltyCalculatorService.IsBirthdayWeek` | src/loyalty/loyalty-calculator.service.ts:65-82 | The loop over three candidate years decides the birthday-week predicate that the date theorems are about. |
| `Calculator.LoyaltyCalculatorService.ResolveMultiplier` | src/loyalty/loyalty-calculator.service.ts:15-30 | The local that is multiplied up ends at the rate of its case: 1, 1.5 or 2 by tier, 2, 4.5 or 10 in the birthday week, and twice that for a special event. |
| `Calculator.ExpiryIsAYearAhead` | src/loyalty/loyalty-calculator.service.ts:51-63 | Points earned now expire exactly 365 or 366 days from now. |
| `Calculator.BonusDayIsInBirthdayWeek` | src/loyalty/utils/utc-local-date.util.ts:44-49 | The day of the bonus lies in the birthday week. |
| `Calculator.BirthdayIsInItsYear` | src/loyalty/utils/utc-local-date.util.ts:44-49 | The day and the year of a grant come from one reading of the clock: a birthday is today exactly if today is its month and day in the calendar's year. |
| `Calculator.BonusDayExists` | src/loyalty/utils/utc-local-date.util.ts:44-49 | A year has a bonus day for a birthday exactly if it is a leap year or the birthday is not 29 February. |
| `Civil.AddYears` | src/loyalty/loyalty-calculator.service.ts:51-63 | Keeps the month and clamps the day to the month's length. |
| `Civil.BirthdayWeekExact` | src/loyalty/loyalty-calculator.service.ts:65-82 | For every birthday and every day outside the years 0 to 99, the three-year check is right about "some yearly occurrence is within three days" exactly unless the birthday is 29 February of the year 0 and the day is 26 February or 4 March of a leap year. |
| `Civil.ParsedBirthdayWeek` | src/loyalty/loyalty-calculator.service.ts:65-82 | For every birthday that the parser yields, so for every one the system can hold, the three-year check is exact on every day outside the years 0 to 99. |
| `Civil.ParsedNeverTwoDigit` | src/loyalty/utils/utc-local-date.util.ts:9-38 | No text is ever parsed to a date in the years 0 to 99. |
| `Civil.ThreeYearsSuffice` | src/loyalty/loyalty-calculator.service.ts:71-81 | The three-year check equals the question over all years. |
| `Civil.LeapDayOfYearZero` | src/loyalty/loyalty-calculator.service.ts:69-75 | That birthday is read as 1 March, so exactly on those two days of a leap year the check errs, once by missing and once by a false positive. |
| `Civil.DateOnlyAccepted` | src/loyalty/utils/utc-local-date.util.ts:9-28 | A date-only text is accepted exactly if it is a real Gregorian date of the year 100 or later, and keeps its fields. |
| `Civil.NormalisedDay` | src/loyalty/utils/utc-local-date.util.ts:3-7 | Normalising a day keeps it exactly if its year is not one of 0 to 99. |
| `Civil.WrittenDateRoundTrip` | src/loyalty/utils/utc-local-date.util.ts:9-28 | Writing a date and parsing it gives the same day. |
| `Civil.MonthKeyOrder` | src/loyalty/utils/utc-local-date.util.ts:55-57 | Comparing month keys as text compares the months. |
| `Civil.FirstDayFormula` | src/loyalty/utils/utc-local-date.util.ts:3-7 | Adding up year lengths gives the closed form DayFromYear of ECMA-262, section 21.4.1. |
| `Civil.FieldsOfDay` | src/loyalty/utils/utc-local-date.util.ts:20-24 | Every day number is the day of the fields read from it. |
| `Civil.DayOfFields` | src/loyalty/utils/utc-local-date.util.ts:20-24 | Every real date is read back from its day number. |
| `Backoff.DeliveryDelayIsExponential` | src/loyalty/consumers/rmq-delivery.service.ts:216-221 | Under the configured bounds the exponent cap never changes the delay: it is the base doubled per attempt and cut at the ceiling. |
| `Backoff.DeliveryDelayBounds` | src/config/env.schema.ts:75-76 | Delays never shrink and stay between base and ceiling. |
| `Backoff.OutboxDelaysAgree` | src/loyalty/outbox-publisher.service.ts:69-70 | On every claimed row the SQL and JavaScript delays are the same uncapped exponential. |

## Left out

- RmqDelivery.RmqDeliveryService.Handle: waiting times between rounds are not modelled; the abort signal is a number of rounds; `error_code`, properties and logs are left out.
- RmqDelivery.QuarantineReplayService.Replay: no other step happens between its statements, as the tool requires all consumers to be stopped; message properties are opaque.
- OutboxPublisher.OutboxPublisherService.PublishPendingEvents: the claims of one wave are handled one after the other, with any other steps in between, instead of at the same time.
- TransactionRetry.RetriedTransactions.WithTransactionRetry: a reported conflict means that the database rolled the transaction back, and the statements of an attempt that does not commit are not run; waiting times between attempts are not modelled, and the attempts share one reading of the clock.
- AchievementJobs.AchievementsWorker.Process: the payload is already parsed, and the active achievements that match it are a parameter, read once as in the source.
- LoyaltyServices.LoyaltyService.UseGoldUpgrade: like every service method without a shared key or a guarded insert or link, it runs without commits between its statements; `Locking.LockCoversReads` proves that such commits change nothing it reads.
- Jobs.LoyaltyJobs.Sweep: the four jobs have one loop and it is written once; the birthday job's cursor is taken as "id below the last one seen", and progress callbacks are left out.
- LoyaltyServices.LoyaltyService.ProcessTicketPurchase: achievement dispatch intents written by the same transaction are not part of the tables here.
- Civil.ParseUtcLocalDate: what `Date` reads from a text that is not date-only is a parameter; the limited range of a Date value is not modelled.
- Civil.AddYears: works on civil dates, so local daylight-saving shifts are not modelled.
- The achievement intent publisher: a re-dispatched intent is one more delivery of the same event, which the unlocking results already allow.
- `notifyExpiringUsers` only emits messages and promises nothing about their delivery.
- `publishConfirmed`, achievement administration, mappers, input validators, UUID syntax, pagination and `calculateDiscount` would only add small local facts.
- Row-lock internals, deadlock codes and READ COMMITTED anomalies: the lock discipline is assumed, and a conflict is an attempt without effect.
- Floating point and NaN: amounts are real numbers, and metadata values are already numbers.
- NestJS modules, controllers, guards, configuration loading, logging, Redis, BullMQ and the generated Prisma client.
