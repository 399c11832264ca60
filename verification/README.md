# Billing-job protocol of the analysis service: a verified model

The service turns an accepted request into a paid call of a language model. An `analysis_jobs` row moves from QUEUED through
RUNNING to SUCCEEDED or FAILED while API acceptors, outbox publishers, workers with expiring leases, synchronous runs and
the stale-job recovery act on it at the same time, each by single-row conditional updates or short transactions. A token
ledger runs along the row. This project models those statements and transactions, the processes that issue them, and the
code around them (collection, evidence validation, paging, batch handling), and proves what the service relies on.

## How it is built

| files | contents |
|---|---|
| `Basics`, `JobRow`, `Ledger`, `StatService` | rows and tables, the row invariant `RowOk`, the table invariant `DbOk`, what one step may do to a row (`RowStep`) and to the tables (`Guarantee`) |
| `JobStatements`, `WorkerStatements`, `PublishStatements` | each conditional update, seen from the one row it can touch: `None` when its WHERE clause misses |
| `Transactions`, `TransactionProofs`, `Acceptance`, `Admission` | the multi-table transactions: that each keeps `DbOk` and moves money only between one job and its user, what a settled bill and a completed window leave behind, and when each outcome of a request happens |
| `Protocol` | the processes as a state machine. One action is one statement or transaction; `Run` is any sequence of actions of any processes |
| `Invariant`, `Interference`, `Steps`, `StepLemmas`, `RunnerActions`, `BillingActions`, `IntakeActions`, `OutboxActions`, `Safety` | the inductive invariant and its preservation by every action |
| `Theorems`, `Fencing`, `BilledJobs`, `Outcomes`, `Redelivery` | what follows for every run |
| `SingleSteps`, `GivingUp`, `ClaimRace` | two natural expectations, when exactly they hold, and runs from an empty job table in which they fail |
| `Progress`, `Endings`, `Lifecycle`, `SyncRuns` | what is reached when nothing fails, from any reachable state: the report, or the ending that the answer, the row or the error calls for |
| `Database`, `OutboxService`, `Batch` | the same statements and transactions as methods on mutable tables, in source order with rollback, proved equal to the values above |
| `Pagination`, `PullRequestCollection`, `NestedCollection`, `CollectionProofs`, `CollectionCompleteness`, `CollectionErrors`, `CollectionAttempt` | the three pagination loops, against a provider that may answer anything: what is returned, what is dropped, and why they fail |
| `Text`, `Evidence`, `Paging` | evidence validation and keyset paging |

The state machine lets every process stop for ever after any action, delivers messages any number of times and with any job
id, gives processes unsynchronized clocks, and lets every statement fail (`LostBefore`) or commit and lose its
acknowledgement (`LostAfter`). Lease tokens are fresh. A log written by an observer, which no process reads, records
granted leases, model calls, sends and their answers, delivered messages, the balance drop of each step, and the windows of
jobs that ended collected. A call and a send count from the moment the request goes out, answered or not. New jobs may
carry any execution version, so that retired and unsupported ones occur in runs.

`Safety.Reachable` are the states that any run comes to from an empty job table; the results about reachable states need
nothing else. Results about what a run does from a state on assume only the invariant of that state, which every reachable
state has (`Safety.ReachableIsSafe`).

The proof is rely-guarantee: every transaction guarantees what it may do to rows it does not own (`Ledger.Guarantee`), and
each process's knowledge is stable under that (`Interference.RunnerFrame`). That the zero-usage terminations, which the
SQL does not fence on "nothing billed", never meet a bill follows from program order and lease uniqueness: the phases in
which they are issued carry `Invariant.Clean`.

The invariant alone would also hold of a service that never finishes anything. `Progress`, `Endings`, `Lifecycle` and
`SyncRuns` therefore say what each run without a fault reaches, from every reachable state: which answer is saved and which
is reconciled, which job ends refunded, returns to the queue or waits, which message is sent, and what a failing statement
leads to.

## Findings

- A claim that was decided on an unbilled read raises `attemptCount` even if the row has been billed in between. Exactly the
  row that was read decides (`ClaimRace.ClaimRaisesAttempts`, if and only if). `ClaimRace.BilledClaimIsReachable` is a run
  from an empty job table to a job with one bill and two attempts. The bill survives every run
  (`Theorems.BillNeverChanges`), the new holder goes on to recover it and never calls
  (`BilledJobs.ClaimedBilledRowIsRecovered`), and from then on the calls for the job are strictly fewer than its attempts
  (`BilledJobs.AttemptWithoutCall`).
- Giving up after failed publishing is justified exactly while no worker has claimed the job. `claimQueued` clears the
  publisher's mark, so a delivered job can end PUBLISH_FAILED: for every limit of two or more publish attempts,
  `GivingUp.DeliveryGivenUpIsReachable` is such a run from an empty job table. As far as the queue delivers only what it was
  sent and did not reject, all sends of a PUBLISH_FAILED job were rejected if and only if its `attemptCount` is 0
  (`Outcomes.GivingUpIffUnclaimed`).

## Model

| member | source | states |
|---|---|---|
| JobStatements.ReserveTokens | src/analysis-job/analysis-job.repository.ts:216-237 | on a lawful row, a reservation is a lawful step of the lease holder |
| JobStatements.RecordProviderCharge | src/analysis-job/analysis-job.repository.ts:239-265 | a charge meets no earlier bill, stores exactly the request id and the usage, and leaves reservation and lease alone |
| JobStatements.StartSync | src/analysis-job/analysis-job.repository.ts:267-323 | the synchronous QUEUED to RUNNING transition is a lawful step of the new holder |
| JobStatements.ToSucceeded | src/analysis-job/analysis-job.repository.ts:267-323 | a success within the reservation that repeats the stored bill, if any, is a lawful step |
| JobStatements.ToFailed | src/analysis-job/analysis-job.repository.ts:267-323 | a failure that keeps the stored bill, and leaves unsettled only what needs reconciliation, is a lawful step |
| JobStatements.RecoverStale | src/analysis-job/analysis-job.repository.ts:355-430 | the bulk recovery changes a row only by failing it, lawfully, and the row goes on holding the same tokens |
| WorkerStatements.ClaimQueued | src/analysis-worker/analysis-worker.repository.ts:332-364 | a claim raises the attempts by one, hands over the lease and moves no token |
| WorkerStatements.TakeOverExpiredLease | src/analysis-worker/analysis-worker.repository.ts:366-399 | a takeover raises the attempts by one, hands over the lease and keeps bill and tokens |
| WorkerStatements.TakeOverExpiredBilledLease | src/analysis-worker/analysis-worker.repository.ts:401-434 | the takeover of a billed row keeps the attempts and meets a bill |
| WorkerStatements.UpdateProgress | src/analysis-worker/analysis-worker.repository.ts:169-194 | a progress update of the holder keeps lease, attempts, reservation and bill |
| WorkerStatements.ReleaseForRetry | src/analysis-worker/analysis-worker.repository.ts:196-242 | a release is lawful, keeps the tokens held, and leaves a queued row with the same attempts |
| WorkerStatements.SettleFailure | src/analysis-worker/analysis-worker.repository.ts:480-562 | a settlement ends an active row with nothing held |
| PublishStatements.ClaimAttempt | src/analysis-job/analysis-job-publish.repository.ts:99-115 | a claimed attempt is the successor of the one in the snapshot and marks the row uncertain |
| PublishStatements.MarkPublished | src/analysis-job/analysis-job-publish.repository.ts:117-132 | a recorded success is of the row's current attempt and leaves a queued row that later publishers treat as delivered |
| PublishStatements.RecordFailure | src/analysis-job/analysis-job-publish.repository.ts:134-166 | a recorded failure never touches messagePublishedAt, ends the row exactly if told to, and keeps uncertainty |
| TransactionProofs.ReserveKeeps | src/analysis/analysis.service.ts:601-642 | debit and reservation together keep the tables lawful and move the reservation from the user to the job |
| TransactionProofs.UnbilledKeeps | src/analysis/analysis.service.ts:644-736 | ending an unbilled job refunds its whole reservation and keeps the tables lawful |
| TransactionProofs.ReconciliationKeeps | src/analysis/analysis.service.ts:738-779 | settling a bill keeps the tables lawful and balanced and the bill on the row, and a settled job holds exactly the billed usage |
| TransactionProofs.ReconciliationSettles | src/analysis/analysis.service.ts:738-779 | a bill is settled if and only if usage and reservation are known and the balance covers any excess; then the user gets the rest back or pays the excess, called TOKEN_BUDGET_EXCEEDED exactly then; nothing else changes |
| Transactions.CompletionChecks | src/analysis-worker/analysis-worker.repository.ts:287-305 | a worker's completion moves lastSyncTime to the later of itself and the window's end exactly while the user owns the repository, a synchronous one always; no other repository changes |
| TransactionProofs.SucceedKeeps | src/analysis/analysis.service.ts:523-576 | report, statistics, refund and success together keep the tables lawful and balanced |
| TransactionProofs.SettleKeeps | src/analysis-worker/analysis-worker.repository.ts:480-562 | the failure settlement refunds exactly what the job held |
| Acceptance.NewJob | src/analysis-job/analysis-job-api.repository.ts:138-151 | an inserted row is lawful, holds nothing and has never been sent or claimed |
| Acceptance.RecoverStaleJobsKeeps | src/analysis-job/analysis-job.repository.ts:355-430 | recovering a repository keeps the tables lawful and every row's request and tokens |
| Acceptance.CreateExclusiveKeeps | src/analysis-job/analysis-job.repository.ts:325-353 | after recovery, refusal and insertion there is still one active job per repository and one job per key |
| Acceptance.AcceptJobKeeps | src/analysis-job/analysis-job-api.service.ts:149-283 | an acceptance keeps the tables lawful and balanced, adds exactly the requested row and touches no other table |
| Admission.StaleRowsAreFailed | src/analysis-job/analysis-job.repository.ts:355-430 | an unsettled row is failed if and only if its lease has ended, or it has sat for fifteen minutes; without a reservation it is settled for nothing, with one it waits for reconciliation |
| Admission.ExclusiveIff | src/analysis-job/analysis-job.repository.ts:325-353 | an insertion happens if and only if every active job of the repository is stale and key and id are new |
| Admission.KnownKeyOutcome | src/analysis-job/analysis-job-api.service.ts:158-175 | under a known key the same request is answered by its job, any other is refused |
| Admission.NewKeyOutcome | src/analysis-job/analysis-job-api.service.ts:149-283 | under a new key each refusal, and acceptance, happens if and only if its own condition holds: fewer than five in a minute, a target, owned by the user, tokens left, no active job that is not stale |
| Admission.AcceptedTables | src/analysis-job/analysis-job-api.service.ts:211-250 | an acceptance inserts the row with the window of its source or of the repository, fails the stale rows of that repository, and changes nothing else |
| Acceptance.RateKeptByAcceptance | src/analysis-job/analysis-job-api.repository.ts:64-106 | the check of an acceptance with any timestamp keeps every 60-second window of the user at five jobs |
| Interference.RunnerFrame | src/analysis/analysis.service.ts:299-598 | everything a process believes about its job, its lease, its one call and its window stays true under any step of any other process |
| RunnerActions.ReadForClaimKeeps | src/analysis-worker/analysis-worker.repository.ts:84-167 | deciding a claim on the row read keeps the invariant; a message is dropped only for a terminal or missing job |
| RunnerActions.WriteClaimKeeps | src/analysis-worker/analysis-worker.repository.ts:332-434 | the three conditional claims keep the invariant whatever happened since the read |
| RunnerActions.ReadAfterRaceKeeps | src/analysis-worker/analysis-worker.repository.ts:450-478 | the decision after a lost race keeps the invariant |
| RunnerActions.RequireClaimedJobKeeps | src/analysis-worker/analysis-worker.repository.ts:314-330 | reading back the claimed row gives the worker a window that starts where coverage ends |
| RunnerActions.FinalizeAtLimitKeeps | src/analysis-worker/analysis-worker.service.ts:310-347 | ending a job at its limit under the lease that was read keeps the invariant |
| RunnerActions.ReadCheckpointKeeps | src/analysis/analysis.service.ts:220-297 | the checkpoint read remembers the row's bill exactly |
| RunnerActions.EnterAnalysisKeeps | src/analysis/analysis.service.ts:187-214 | only an unbilled, held, current-version row lets a runner go on to prepare a call, and it has a ticket for one |
| RunnerActions.HeartbeatKeeps | src/analysis-worker/analysis-worker.service.ts:391-413 | the collection heartbeat keeps the invariant |
| RunnerActions.FinishCollectionKeeps | src/analysis-worker/analysis-worker.service.ts:166-180 | the end of collection, good or bad, keeps the invariant |
| RunnerActions.ReportReservedKeeps | src/analysis/analysis.service.ts:404-404 | the progress report before the call must succeed and changes nothing the caller relies on |
| RunnerActions.ReportSavingKeeps | src/analysis/analysis.service.ts:521-522 | the progress report before saving keeps the stored bill known |
| RunnerActions.FinalizeFailedKeeps | src/analysis-worker/analysis-worker.service.ts:225-308 | ending a job after an error keeps the invariant, and is acknowledged only when it was committed |
| RunnerActions.FailPreparationKeeps | src/analysis/analysis.service.ts:312-365 | an error before the reservation leaves nothing behind |
| BillingActions.EndWithoutCallKeeps | src/analysis/analysis.service.ts:321-401 | ending without a call meets no bill, and with NO_ANALYZABLE_DATA extends coverage to the window's end |
| BillingActions.EndOutOfTokensKeeps | src/analysis/analysis.service.ts:373-387 | ending for want of tokens meets neither bill nor reservation |
| BillingActions.ReserveOrReuseKeeps | src/analysis/analysis.service.ts:601-642 | reserving, or reusing a large enough reservation, leaves the runner knowing the row's reservation |
| BillingActions.StartCallKeeps | src/analysis/analysis.service.ts:404-412 | sending the request uses up the one call of its lease, and is done by a runner whose row, if still held, is unbilled |
| BillingActions.AnswerCallKeeps | src/analysis/analysis.service.ts:413-470 | whatever the provider answers, whenever, the runner goes on knowing what its row can show |
| BillingActions.EndCallFailedKeeps | src/analysis/analysis.service.ts:413-442 | an unbilled provider error of a synchronous run refunds the reservation |
| BillingActions.StoreChargeKeeps | src/analysis/analysis.service.ts:462-515 | storing the charge, or failing to, leaves the runner knowing that the row shows this bill or none |
| BillingActions.SettleBilledKeeps | src/analysis/analysis.service.ts:738-879 | settling never meets another bill, from every branch that leads to it |
| BillingActions.RecoverKeeps | src/analysis/analysis.service.ts:249-297 | recovering a checkpoint settles exactly the row's bill; retiring a version meets none |
| BillingActions.SaveResultKeeps | src/analysis/analysis.service.ts:520-590 | saving a result, with its checkpoint, keeps the invariant, and so does losing its acknowledgement |
| BillingActions.ReleaseFailedKeeps | src/analysis-worker/analysis-worker.service.ts:252-283 | returning a job to the queue keeps the invariant |
| IntakeActions.ReceiveMessageKeeps | src/analysis-worker/analysis-worker.service.ts:113-121 | a delivery of any message at any time keeps the invariant |
| IntakeActions.ReceiveInvalidMessageKeeps | src/analysis-worker/analysis-worker.repository.ts:244-254 | failing the queued job of an invalid message keeps the invariant |
| IntakeActions.SyncBeginKeeps | src/collection/collection.service.ts:30-62 | a synchronous run takes a window that starts where coverage ends |
| IntakeActions.SyncCreateKeeps | src/analysis/analysis.service.ts:150-156 | the job of a synchronous run is created with one call to spend |
| IntakeActions.SyncStartKeeps | src/analysis/analysis.service.ts:157-166 | its claim without an attempt keeps the invariant |
| IntakeActions.AcceptKeeps | src/analysis-job/analysis-job-api.service.ts:149-283 | an accepted request keeps the invariant; its window, new or that of the retried job, starts where coverage ends |
| IntakeActions.TransferRepositoryKeeps | src/analysis-worker/analysis-worker.repository.ts:287-305 | repositories may change owners at any time |
| OutboxActions.LoadForPublishKeeps | src/analysis-job/analysis-job-publisher.service.ts:56-68 | a publisher that loads a queued, never claimed job and is not uncertain knows that all its sends were rejected |
| OutboxActions.ClaimPublishKeeps | src/analysis-job/analysis-job-publisher.service.ts:76-96 | claiming an attempt keeps the invariant; the publisher starts to send under an attempt that no publisher ever sent under |
| OutboxActions.SendMessageKeeps | src/analysis-job/analysis-job-publisher.service.ts:97-122 | every answer of the queue, or none, keeps what publishers know, and no answer is replaced by another |
| OutboxActions.RecordPublishedKeeps | src/analysis-job/analysis-job-publisher.service.ts:124-135 | recording a success keeps the invariant whatever happened since the claim |
| OutboxActions.RecordPublishFailureKeeps | src/analysis-job/analysis-job-publisher.service.ts:143-195 | recording a failure keeps the invariant, giving up included |
| Safety.NextKeeps | src/analysis-worker/analysis-worker.service.ts:87-308 | any action of any process, with any fault, is a lawful step that keeps the invariant |
| Safety.RunKeeps | src/analysis-worker/analysis-worker.service.ts:49-308 | the invariant holds after every interleaving of every length |
| Safety.ReachableIsSafe | src/analysis-worker/analysis-worker.service.ts:49-308 | every state that a deployment starting with no jobs can come to satisfies the invariant |
| Theorems.TokensConserved | src/analysis/analysis.service.ts:523-779 | balance plus reservations of unsettled jobs plus usage of settled ones never changes, and no balance is negative, over every run |
| Theorems.BillNeverChanges | src/analysis-job/analysis-job.repository.ts:239-265 | once stored, a request id and a usage are never changed by any process |
| Theorems.ChargeIsPaid | src/analysis/analysis.service.ts:443-520 | if a billed job is ever settled, the debit observed on its user's balance is the stored total |
| Theorems.DebitIsHeld | src/analysis/analysis.service.ts:523-779 | the net debit an observer of balances attributes to a job is what its row holds |
| Theorems.TerminalIsFinal | src/analysis-worker/analysis-worker.repository.ts:525-559 | SUCCEEDED and FAILED rows never change again, so settlement is write-once and nothing is revived |
| Theorems.SettlementIsWriteOnce | src/analysis-worker/analysis-worker.repository.ts:516-559 | a settled row never changes again, so tokensSettledAt is written at most once |
| Theorems.StatusFollowsTheTable | src/analysis-job/analysis-job.service.ts:20-32 | every change of status in a run is one that the table of transitions allows |
| Theorems.RetryIsFree | src/analysis-job/analysis-job-api.service.ts:89-97 | active jobs are unsettled, an unsettled FAILED job awaits reconciliation, and every job the retry endpoint takes cost nothing |
| Theorems.FinishedMeansTerminal | src/analysis-worker/analysis-worker.service.ts:123-140 | the job of an acknowledged message has ended and stays ended |
| Theorems.LeaseIffRunning | src/analysis-worker/analysis-worker.repository.ts:332-434 | a row has a lease token exactly while RUNNING |
| Theorems.LeaseNeverReturns | src/analysis-worker/analysis-worker.repository.ts:332-434 | a lease token that has left its row never returns, over every run |
| Theorems.CallsAreBounded | src/analysis/analysis.service.ts:406-412 | requests to the model, answered or not, are at most one per attempt, under distinct leases, and attempts never exceed their maximum |
| Theorems.RequestsAreRecorded | src/analysis/analysis.service.ts:406-412 | each request that goes out is recorded under the lease it goes out with |
| Theorems.StoredUsageAddsUp | src/analysis-job/analysis-job.repository.ts:239-265 | in every reachable state the usage columns are all unknown or all known, adding up, and exact in JavaScript numbers |
| Theorems.CallersAreUnbilled | src/analysis/analysis.service.ts:187-229 | whoever is about to call holds an unbilled row or holds it no longer, and has not called under this lease |
| Fencing.NoLeaseNoChange | src/analysis-worker/analysis-worker.repository.ts:169-242 | without its lease, no action of a runner after its claim changes any table |
| Fencing.FormerHolderIsFenced | src/analysis-job/analysis-job.repository.ts:267-323 | after a token has left its row, for all time, no action of a runner carrying it changes any table |
| BilledJobs.BilledRowsAreRecovered | src/analysis/analysis.service.ts:187-229 | over every run, a runner that has claimed a billed row goes on to recover it, neither to collect nor to call; one that was collecting when the bill was stored does not come to prepare a call |
| BilledJobs.ClaimedBilledRowIsRecovered | src/analysis-worker/analysis-worker.repository.ts:366-434 | whichever claim met a billed row, and whatever the row looked like when it was decided, its runner recovers it and never calls, over every run |
| BilledJobs.CallsAfterTheBill | src/analysis/analysis.service.ts:404-470 | once a job is billed, in every later state each call for it was made before, or by a runner that was about to send its request at that moment |
| BilledJobs.AttemptWithoutCall | src/analysis-worker/analysis-worker.repository.ts:366-399 | after a claim that raised the attempts of a billed row, acknowledged or not, the calls for the job stay strictly fewer than its attempts (and the one call of a synchronous job), over every run |
| Outcomes.AcknowledgedMeansDone | src/analysis-worker/analysis-worker.service.ts:87-140 | a message is acknowledged only when its job has ended or does not exist at that moment |
| Outcomes.WindowsLeaveNoGap | src/analysis-worker/analysis-worker.repository.ts:287-305 | every instant up to lastSyncTime lies in the window of a job that ended with its data collected |
| Outcomes.FinishedWindowsAreSynced | src/analysis-worker/analysis-worker.repository.ts:287-305 | over every run, once a job has ended with its data collected while its user owned the repository, lastSyncTime is at least the end of its window |
| Outcomes.OnlyFinishedWindowsSync | src/collection/collection.service.ts:61-77 | a step changes lastSyncTime only by ending a job of that repository with its data collected, and then to the end of its window |
| Outcomes.SyncTimeNeverDecreases | src/analysis-worker/analysis-worker.repository.ts:287-305 | lastSyncTime never decreases, over every run |
| Outcomes.ReportIffSucceeded | src/analysis/analysis.service.ts:523-576 | a job has a report, its own, exactly if it SUCCEEDED; its user paid its usage, within its reservation |
| Outcomes.AnalysesAreCounted | src/analysis/stat.service.ts:15-74 | analysisCount grows by exactly one per new report, over every run |
| Outcomes.ActiveAndKeyAreExclusive | src/analysis-job/analysis-job.repository.ts:325-353 | at most one active job per repository and one job per user and key |
| Outcomes.ReplayFindsTheJob | src/analysis-job/analysis-job-api.service.ts:158-175 | a key belongs to its job for ever: the same request finds that job, any other is refused |
| Outcomes.GivingUpIsJustified | src/analysis-job/analysis-job-publisher.service.ts:155-160 | a never claimed job that ended PUBLISH_FAILED was rejected at every send ever made for it |
| Outcomes.GivingUpIffUnclaimed | src/analysis-job/analysis-job-publisher.service.ts:155-160 | if the queue delivers only what it was sent and did not reject: every send of a PUBLISH_FAILED job was rejected if and only if no worker ever claimed it |
| Outcomes.SendKeysAreFresh | src/analysis-job/analysis-job-publish.repository.ts:99-115 | whoever starts to send, in whatever step, does so under an attempt of the job that was never sent before |
| Outcomes.SendOutcomesStay | src/analysis-job/analysis-job-publisher.service.ts:97-122 | over every run no send is forgotten and no answer of the queue is replaced |
| Outcomes.OneSender | src/analysis-job/analysis-job-publish.repository.ts:99-115 | each attempt of a job has at most one sender in the whole run, however the first one ended |
| Outcomes.SendersDiffer | src/analysis-job/analysis-job-publish.repository.ts:99-115 | two publishers sending for one job at the same time have different attempts, both claimed on the row |
| Outcomes.PublicationStays | src/analysis-job/analysis-job-publish.repository.ts:134-166 | a recorded publication is never taken back and its job is never given up |
| Outcomes.NoSixWithinAMinute | src/analysis-job/analysis-job-api.repository.ts:64-106 | no six accepted jobs of one user have createdAt values less than 60 seconds apart, in any reachable state |
| Outcomes.EveryRunIsSafe | src/analysis/analysis.service.ts:523-779 | from an empty job table every run is safe, and each user's tokens are those of the start |
| Redelivery.AcknowledgedRecordsEnded | src/analysis-worker/analysis-worker.service.ts:49-140 | the job of every record in the acknowledged part of a batch has ended for good, or was found missing |
| Redelivery.AcknowledgedIffSettled | src/analysis-worker/analysis-worker.service.ts:49-140 | a batch is acknowledged exactly as far as every record's runner has finished or found no job, or the record is unreadable |
| Redelivery.UnfinishedRecordsReturn | src/analysis-worker/analysis-worker.service.ts:49-85 | a record whose job has not ended is among the failures of its batch |
| ClaimRace.ClaimRaisesAttempts | src/analysis-worker/analysis-worker.repository.ts:100-164 | a claim leaves attemptCount alone if and only if the row it was decided on was running and billed |
| ClaimRace.ClaimOutcomes | src/analysis-worker/analysis-worker.repository.ts:84-167 | a worker drops the message of a missing or ended job, claims a due or abandoned one, finalizes one with no attempts left, and defers every other: each if and only if |
| ClaimRace.RaceOutcomes | src/analysis-worker/analysis-worker.repository.ts:450-478 | after a lost race a job with no attempts left is finalized unless it is due later or under a live lease, and nothing is claimed |
| ClaimRace.ClaimTakes | src/analysis-worker/analysis-worker.repository.ts:332-434 | all three claims take the lease; only those of unbilled jobs start an attempt and clear the last error |
| ClaimRace.ClaimIffPossible | src/analysis-worker/analysis-worker.repository.ts:84-164 | a claim is decided exactly when, nobody interfering, one of the three conditional updates would apply |
| ClaimRace.BilledJobIsClaimedAgain | src/analysis-worker/analysis-worker.repository.ts:366-399 | from every state with a job ready to be claimed and called for, a run that bills it for one call and claims it twice |
| ClaimRace.BilledClaimIsReachable | src/analysis-worker/analysis-worker.repository.ts:366-399 | such a run exists from an empty job table |
| GivingUp.GivenUpAfterDelivery | src/analysis-worker/analysis-worker.repository.ts:332-364 | for every limit of two or more attempts, from every state with a freshly queued job: a run that ends it PUBLISH_FAILED although its first send was delivered |
| GivingUp.DeliveryGivenUpIsReachable | src/analysis-job/analysis-job-publisher.service.ts:143-195 | such a run exists from an empty job table, with a queue that delivers only what it was sent |
| Progress.AnswerIsSaved | src/analysis/analysis.service.ts:462-590 | from every reachable state in which a runner holds its row and a valid answer within the reservation: charged, reported and saved, the job is SUCCEEDED, has its report, cost exactly the usage, and its window is synchronized |
| Progress.AnswerIsReconciled | src/analysis/analysis.service.ts:454-515 | any other answer, or metrics that cannot be computed, ends FAILED under its bill, settled if it can be paid |
| Progress.OverrunNeverSucceeds | src/analysis/analysis.service.ts:487-500 | a job billed above its reservation never succeeds and never gets a report, whatever happens |
| Endings.PointlessJobsEnd | src/analysis/analysis.service.ts:318-401 | a job ends refunded before the call if and only if it has no data, too much of it, or needs more than an earlier attempt reserved; without data its window is synchronized |
| Endings.ReservationOutcome | src/analysis/analysis.service.ts:601-642 | an earlier reservation is used again if it is enough; else the required tokens move to the row if the balance covers them, and nothing happens if not |
| Endings.UnaffordableJobsEnd | src/analysis/analysis.service.ts:373-387 | a job its user cannot pay ends as INSUFFICIENT_TOKENS for nothing |
| Endings.SpentJobsEnd | src/analysis-worker/analysis-worker.service.ts:310-347 | the next message about a job with no attempts left, queued or abandoned unbilled, ends it as MAX_ATTEMPTS_EXCEEDED with its reservation refunded |
| Endings.FoundBillsAreSettled | src/analysis/analysis.service.ts:220-270 | a claimed or started job that shows a bill is not analyzed: the bill is settled if it can be, and the job ends |
| Endings.RetiredJobsEnd | src/analysis/analysis.service.ts:271-297 | an unbilled job of a retired version ends as UNSUPPORTED_ANALYSIS_VERSION, refunded |
| Endings.HeartbeatsExtend | src/analysis-worker/analysis-worker.service.ts:391-413 | the heartbeat extends the holder's lease and changes nothing else |
| Endings.PassingErrorsAreRetried | src/analysis-worker/analysis-worker.service.ts:252-283 | a passing error returns the unbilled job to the queue with attempts and reservation, exactly below both limits |
| Endings.LastingErrorsEnd | src/analysis-worker/analysis-worker.service.ts:225-308 | a lasting error ends the unbilled job under its code for good, a passing one at a limit as MAX_ATTEMPTS_EXCEEDED and open to a retry; both are refunded |
| Endings.BilledErrorsWait | src/analysis-worker/analysis-worker.repository.ts:196-242 | a billed job is neither released nor ended by the error handler |
| Endings.FailedCallsEnd | src/analysis/analysis.service.ts:428-441 | a failed call of a synchronous run ends the job as ANALYSIS_FAILED, refunded |
| Endings.ResponsesAreSaved | src/analysis/analysis.service.ts:406-590 | a response with consistent usage within the reservation ends as a saved report, paid and synchronized |
| Endings.BillsAreReconciled | src/analysis/analysis.service.ts:413-500 | a response over the reservation, or a billed error with a request id, is stored and reconciled under that bill |
| Endings.UnclearBillsAreReconciled | src/analysis/analysis.service.ts:443-461 | a response with inconsistent usage, or a billed error without a request id, is reconciled at once, with what is known |
| Endings.SyncErrorsEnd | src/analysis/analysis.service.ts:425-441 | an unbilled error of a synchronous run's call ends the job refunded |
| Endings.WorkersHandleUnbilledErrors | src/analysis/analysis.service.ts:425-427 | an unbilled error of a worker's call goes to its error handler |
| Endings.FailedPreparation | src/analysis-worker/analysis-worker.service.ts:113-228 | an error before the reservation changes no table; it returns the message before the claim is held, and goes to the error handler after |
| Endings.FailedCallStatement | src/analysis/analysis.service.ts:359-404 | a lost reservation, report or termination changes no table and goes to the error handler, or out of the synchronous request |
| Endings.FailedBillStatement | src/analysis/analysis.service.ts:475-590 | after the model was paid every failure leads to reconciliation of that bill, and a failed reconciliation returns the message |
| Lifecycle.NewJobsAreMade | src/analysis-job/analysis-job-api.service.ts:149-283 | from every reachable state a request makes exactly its job, if and only if its conditions hold, and else changes nothing |
| Lifecycle.RetriesAreMade | src/analysis-job/analysis-job-api.service.ts:80-111 | a retry makes a job over the window of its source if and only if the source is the user's own, FAILED and open to a retry, and a new job may be made |
| Lifecycle.InvalidMessagesEnd | src/analysis-worker/analysis-worker.repository.ts:244-254 | an unreadable message ends its job if and only if that is queued, as INVALID_MESSAGE, refunded |
| Lifecycle.PublishersGoOn | src/analysis-job/analysis-job-publisher.service.ts:64-90 | a publisher claims and sends if and only if the job is queued, due, not published or due again, and has attempts left or needs recovery |
| Lifecycle.MessagesArePublished | src/analysis-job/analysis-job-publisher.service.ts:56-135 | a delivered message is recorded: one more attempt, published, and no error left |
| Lifecycle.RefusalsAreRecorded | src/analysis-job/analysis-job-publisher.service.ts:97-195 | a rejected or unknown send ends the job PUBLISH_FAILED exactly at the limit without doubt and reservation, and else defers it, doubt kept |
| Lifecycle.QueuedJobsAreAnalyzed | src/analysis-worker/analysis-worker.service.ts:113-217 | from every reachable state with a due job its user can pay: the run from the delivery to the report |
| Lifecycle.RequestsAreServed | src/analysis-job/analysis-job-api.service.ts:149-283 | from every reachable state in which a request is accepted: accepted, published, claimed, analyzed and saved, the user having paid exactly the usage and the repository synchronized to the request |
| SyncRuns.SyncRunsAreServed | src/collection/collection.service.ts:30-86 | a synchronous run for a free repository of the user ends with the report, paid, and the repository synchronized to its start |
| SyncRuns.SyncNeedsTheOwner | src/collection/collection.service.ts:45-49 | nobody starts one for somebody else's repository |
| SyncRuns.SyncNeedsAFreeRepository | src/analysis/analysis.service.ts:150-156 | it throws, and changes nothing, while a job of the repository is active and not stale |
| Database.Tables.UpdateStats | src/analysis/stat.service.ts:15-74 | read, then create or update in place, gives the updated statistics |
| Database.Tables.CompleteRepository | src/analysis-worker/analysis-worker.repository.ts:287-305 | the guarded update sets lastSyncTime, null or not, to the later of itself and the window's end, for a worker exactly while the user owns the repository |
| Database.Tables.ReserveInTransaction | src/analysis/analysis.service.ts:616-642 | debit, reserve, or roll back: the reservation transaction |
| Database.Tables.TerminateWorkerJob | src/analysis/analysis.service.ts:644-736 | extra debit, refund, failure and completion in order, or a rollback to the tables as they were |
| Database.Tables.SaveResult | src/analysis/analysis.service.ts:523-576 | report, statistics, refund, success and completion in order, or a rollback |
| Database.Tables.SettleFailureInTransaction | src/analysis-worker/analysis-worker.repository.ts:480-562 | locked read, update and refund are the failure settlement |
| Database.Tables.Claim | src/analysis-worker/analysis-worker.repository.ts:84-167 | with nobody in between, the decided claim always applies and only an unbilled row spends an attempt |
| Database.Tables.RecoverStaleActiveJobs | src/analysis-job/analysis-job.repository.ts:355-430 | the two bulk updates in a row are the recovery |
| Database.Tables.IsBlocked | src/analysis-job/analysis-job-api.repository.ts:64-106 | counting rows decides the rate limit |
| Database.Tables.FindActive | src/analysis-job/analysis-job.repository.ts:338-350 | finds an active job of the repository exactly if there is one |
| Database.Tables.FindByIdempotencyKey | src/analysis-job/analysis-job-api.repository.ts:108-119 | finds the job of a user and key |
| Database.Tables.CreateExclusiveInTransaction | src/analysis-job/analysis-job.repository.ts:325-353 | recover, refuse or insert, or roll back |
| Database.Tables.AcceptJobInTransaction | src/analysis-job/analysis-job-api.service.ts:149-283 | the checks in order give the outcome and the tables whose conditions Admission states |
| Database.BothUpdates | src/analysis-job/analysis-job.repository.ts:355-430 | a row failed by the first bulk update is out of the second one's reach |
| OutboxService.SelectionAgrees | src/analysis-job/analysis-job-publish.repository.ts:57-97 | the reconciler selects exactly the jobs that the publisher would go on with |
| OutboxService.PublisherService.HandlePublishFailure | src/analysis-job/analysis-job-publisher.service.ts:143-195 | gives up exactly at the limit, without uncertainty, publication or reservation |
| OutboxService.PublisherService.Publish | src/analysis-job/analysis-job-publisher.service.ts:56-141 | when it is skipped, published, deferred or failed, and what the row then shows |
| Batch.Acknowledged | src/analysis-worker/analysis-worker.service.ts:54-80 | the acknowledged records are the longest acknowledged prefix |
| Batch.FirstOccurrences | src/analysis-worker/analysis-worker.service.ts:53-85 | the failure set lists each id once |
| Batch.ProcessBatch | src/analysis-worker/analysis-worker.service.ts:49-85 | acknowledged records form a prefix, the failures are the ids of the remaining suffix, and nothing after the first failure is handled |
| Batch.OccurrencesInOrder | src/analysis-worker/analysis-worker.service.ts:53-85 | ids come in the order in which they first occur |
| StatService.StatisticsFollow | src/analysis/stat.service.ts:15-74 | the first analysis is taken as it is, every later one weighs three tenths in each score, and each counts |
| StatService.BlendIsAnAverage | src/analysis/stat.service.ts:38-64 | each score moves between its old and its new value, and equal scores stay |
| Pagination.NextCursor | src/collection/repository-collection.service.ts:385-407 | there is a next cursor if and only if the page has nodes and its trimmed cursor is non-empty and new |
| Pagination.NextCursorIsTrimmed | src/collection/repository-collection.service.ts:385-407 | that cursor is the page's own, trimmed |
| PullRequestCollection.ScanPage | src/collection/repository-collection.service.ts:172-197 | one page extends the selection by its nodes until the last synchronization is reached, the limit is exceeded or a node is bad |
| PullRequestCollection.CollectPullRequests | src/collection/repository-collection.service.ts:140-210 | against any provider: at most one request per possible cursor and one more, the selection of what was read, without contradictions, or an error with its reason |
| PullRequestCollection.SelectedMeans | src/collection/repository-collection.service.ts:183-188 | a node is selected exactly if it was updated after the last synchronization and by the cutoff, and is the first under its id |
| PullRequestCollection.CollectionRefinesFilter | src/collection/repository-collection.service.ts:140-210 | on a listing sorted newest first, the loop with early stop returns exactly the filtered first occurrences, or the limit error exactly if there are more than 100 |
| NestedCollection.CollectionState.MergeReviews | src/collection/repository-collection.service.ts:456-490 | the merge of reviews, node by node |
| NestedCollection.CollectionState.MergeComments | src/collection/repository-collection.service.ts:456-490 | the merge of comments, node by node |
| NestedCollection.ScanComments | src/collection/repository-collection.service.ts:336-355 | the loop over a page of comments |
| NestedCollection.CollectComments | src/collection/repository-collection.service.ts:289-368 | the loop over comment pages, with its request bound |
| NestedCollection.ScanReviews | src/collection/repository-collection.service.ts:246-275 | the loop over a page of reviews |
| NestedCollection.CollectReviews | src/collection/repository-collection.service.ts:212-287 | the loop over review pages, with its request bound |
| NestedCollection.CollectNested | src/collection/repository-collection.service.ts:93-130 | a provisional state per pull request, merged or thrown away |
| CollectionProofs.MergedAppends | src/collection/repository-collection.service.ts:456-490 | a merge that succeeds although shared nodes would have other parents has met none, and appends all |
| CollectionProofs.NestedCollectionIsAForest | src/collection/repository-collection.service.ts:80-138 | reviews and comments are pairwise distinct, each under one parent, as many as counted, at most 2000 |
| CollectionProofs.DiscardedLeaveNoTrace | src/collection/repository-collection.service.ts:101-119 | the result is that of collecting only the pull requests that were not discarded |
| CollectionAttempt.CollectedPullRequestsAreDistinct | src/collection/repository-collection.service.ts:505-526 | collected pull requests are distinct, in the window, and at most 100 |
| CollectionCompleteness.FirstsMean | src/collection/repository-collection.service.ts:409-432 | the kept nodes of a listing are exactly those of which no earlier one has the id |
| CollectionCompleteness.CommentsComplete | src/collection/repository-collection.service.ts:289-368 | the comments of a review are all that are listed for it up to the last page, once each, in order and dated; every page read belongs there, was updated by the cutoff and continues properly, and no two nodes contradict each other |
| CollectionCompleteness.ReviewsComplete | src/collection/repository-collection.service.ts:212-287 | the reviews of a pull request are all that are listed for it, once each and in order, each with all its comments |
| CollectionCompleteness.DroppedIffMovedOn | src/collection/repository-collection.service.ts:212-368 | a pull request that is read without an error is dropped if and only if some page asked for, of its reviews or of a listed review's comments, was updated after the cutoff |
| CollectionCompleteness.CollectComplete | src/collection/repository-collection.service.ts:93-130 | the result has exactly the pull requests of which no page was updated after the cutoff, in order, and each is complete |
| CollectionErrors.NestedErrorsAreJustified | src/collection/repository-collection.service.ts:212-490 | every error has its reason in the answers: a failed page or heartbeat, a missing date, a page about something else or without continuation, a node without id, under two parents or in two versions, or more than 2000 nodes |
| CollectionAttempt.CollectAttempt | src/collection/repository-collection.service.ts:80-138 | the whole attempt: the selection of the window, at most 100, without those that the answers show to have moved on and their traces, each complete, and together a forest within the limits; or an error with its reason |
| Text.NormalizeIsIdempotent | src/analysis/evidence-validator.ts:143-145 | normalizing twice is normalizing once, and normal texts are exactly the unchanged ones |
| Text.WhitespaceIsAsInTheStandard | src/analysis/evidence-validator.ts:143-145 | what counts as whitespace is the white space and the line terminators of ECMA-262 |
| Text.NormalizeJoinsWords | src/analysis/evidence-validator.ts:143-145 | the normal form is the words of the text, in order, with one space between any two |
| Text.LineBreakStepIsRedundant | src/analysis/evidence-validator.ts:143-145 | the carriage-return step changes no result |
| Evidence.CollectOwnedActivities | src/analysis/evidence-validator.ts:147-184 | lists exactly what the target user wrote |
| Evidence.IndexPullRequests | src/analysis/evidence-validator.ts:43-43 | a number stands for the last pull request collected under it |
| Evidence.CheckEvidence | src/analysis/evidence-validator.ts:76-116 | each issue code is reported exactly when it is due, and none exactly if the evidence is sound |
| Evidence.CheckEvaluation | src/analysis/evidence-validator.ts:45-117 | an evaluation has no issue exactly if it is sound, and each issue, with its metric and index, exactly where it is due |
| Evidence.ValidateAnalysisEvidence | src/analysis/evidence-validator.ts:37-131 | the issue list is empty if and only if every claim of the payload holds of the collected data, and holds each issue exactly where it is due |
| Paging.RowsPastPrefix | src/analysis-job/analysis-job-api.repository.ts:167-177 | the rows past a listed job are exactly the rest of the ordering |
| Paging.PagesMakeTheList | src/analysis-job/analysis-job-api.service.ts:124-147 | following nextCursor terminates and gives exactly the filtered jobs in order, ties included |
| Paging.PagesMeanTheQuery | src/analysis-job/analysis-job-api.repository.ts:164-195 | the pages together hold exactly the user's jobs that pass the filters, newest first, equal times by descending id |
| Paging.PageSize | src/analysis-job/analysis-job-api.service.ts:128-146 | pages are full but the last, and a next cursor is given exactly if rows are left |

## Left out

- Outcomes.WindowsLeaveNoGap: for a job of a synchronous run the window that holds the instant is the observer's record, because that run chooses its window itself and does not store it on the row.
- Fencing.NoLeaseNoChange: speaks of the tables; the model call itself cannot be fenced, and a runner whose lease was taken over may still send the one request of its ticket; BilledJobs.CallsAfterTheBill says who can once there is a bill.
- Database.Tables.Claim: the composite of read and write without interference; all interleavings are in `Protocol`.
- OutboxService.PublisherService.Publish: likewise without interference; the reconciler's batching and the backoff arithmetic of nextPublishAt are inputs.
- Batch.ProcessBatch: the outcome of each record is a parameter; `Redelivery` derives it from where the record's runner ended in the protocol.
- Paging.PagesMakeTheList: the Base64url and JSON text of a cursor is the pair it encodes.
- Evidence.ValidateAnalysisEvidence: case folding and the reference pattern are parameters, since their Unicode tables are not modelled; scores are counted in halves, which the schema enforces before.
- StatService.BlendIsAnAverage: over real numbers, without floating-point rounding.
- CollectionAttempt.CollectAttempt: author names and bodies are part of a node's content; the mapping of deleted authors is not modelled.
- The 32-bit width of token columns: an overflow makes the statement fail, which is one of the faults.
- Rows back-filled by migrations (keys starting with legacy-report), which no process acts on.
- Progress percentages, stages, messages, log events and trace ids, which decide nothing.
- The error classifier: any error may be classified as retryable or permanent with any code it can produce.
- Lease and backoff durations and clocks: inputs of each action.
- The retry endpoint's read of the source job precedes its transaction; it is modelled as part of it, because an accepted source is terminal and terminal rows never change.
- repositoryId and githubRepoId are one identifier, and request hashes are injective.
- The allowed transitions of `AnalysisJobService.transition` that no shown caller uses, and a completion action for retired versions, which the worker's checkpoint read forestalls.
- Transactions and advisory locks are atomic; PostgreSQL, SQS and the provider's internals are not modelled.
- Input validation, controllers, guards, pipes, webhooks, OAuth, deployment and evaluation fixtures: no state to reason about.
