/** Every transaction keeps the database invariant, moves money only between its job and that job's user, and
    gives the other processes the guarantee of one step. */
module TransactionProofs {
  import opened Basics
  import opened JobRow
  import opened JobStatements
  import opened WorkerStatements
  import opened StatService
  import opened Ledger
  import opened Transactions

  /** What a reservation writes on its row. */
  lemma RowAfterReserve(job: Job, token: Token, context: Job, estimated: int, reserved: int, now: Time)
    requires RowOk(job) && 0 <= reserved && ReserveTokens(job, token, context, estimated, reserved, now).Some?
    ensures var row := ReserveTokens(job, token, context, estimated, reserved, now).value;
            && RowStep(job, row, Some(token)) && PublishUntouched(job, row) && Held(job) == 0 && Held(row) == reserved
            && row.reservedTokens == Some(reserved) && row.leaseToken == Some(token)
            && EvidenceOf(row) == EvidenceOf(job)
            && row.status == Running && job.userId == context.userId
  {
    assert RowStep(job, ReserveTokens(job, token, context, estimated, reserved, now).value, Some(token));
    hide RowStep;
  }

  lemma ReserveKeeps(db: Db, id: JobId, token: Token, context: Job, estimated: int, reserved: int, now: Time)
    requires DbOk(db) && 0 <= reserved
    requires Reserve(db, id, token, context, estimated, reserved, now).ReservedIn?
    ensures var after := Reserve(db, id, token, context, estimated, reserved, now).db;
            && DbOk(after) && Guarantee(db, after, Some(token)) && PublishQuiet(db, after) && Balanced(db, after, id)
            && id in db.jobs && id in after.jobs && after.jobs[id].leaseToken == Some(token)
            && after.jobs[id].reservedTokens == Some(reserved)
            && EvidenceOf(after.jobs[id]) == EvidenceOf(db.jobs[id])
  {
    hide RowOk, RowStep, PublishUntouched, Held, EvidenceOf, ReserveTokens, ReportsOk, OneActivePerRepository,
      OneJobPerKey, Guarantee, PublishQuiet, Balanced;
    var after := Reserve(db, id, token, context, estimated, reserved, now).db;
    RowAfterReserve(db.jobs[id], token, context, estimated, reserved, now);
    RefreshRow(db, after, id, after.jobs[id], Some(token));
  }

  /** What a termination writes on its row. */
  lemma FailedRow(job: Job, token: Token, context: Job, usage: Option<Usage>, requestIds: seq<RequestId>, settled: bool,
                  code: ErrorCode, now: Time)
    requires ToFailed(job, token, context, usage, requestIds, settled, code, now).Some?
    ensures var row := ToFailed(job, token, context, usage, requestIds, settled, code, now).value;
            && MayFinish(job, token, context) && row.status == Failed && row.lastErrorCode == Some(code)
            && (row.tokensSettledAt.Some? <==> settled)
            && row.reservedTokens == job.reservedTokens
            && EvidenceOf(row) == EvidenceOf(WithUsage(job, usage).(providerRequestIds := requestIds))
  {
    hide RowOk, RowStep, PublishUntouched, IsValidUsage;
  }

  /** What a committed termination did to the tables. */
  lemma TerminateShape(db: Db, id: JobId, token: Token, context: Job, t: Termination, now: Time)
    requires RowsOk(db) && Terminate(db, id, token, context, t, now).Some?
    ensures id in db.jobs && MayFinish(db.jobs[id], token, context) && context.userId in db.balances
    ensures var after := Terminate(db, id, token, context, t, now).value;
            var short := t.additionalDebitTokens > 0 && db.balances[context.userId] < t.additionalDebitTokens;
            var settled := t.tokensSettled && !short;
            && id in after.jobs && after.jobs == db.jobs[id := after.jobs[id]]
            && after.jobs[id].status == Failed
            && (after.jobs[id].tokensSettledAt.Some? <==> settled)
            && after.jobs[id].reservedTokens == db.jobs[id].reservedTokens
            && EvidenceOf(after.jobs[id]) ==
                 EvidenceOf(WithUsage(db.jobs[id], t.usage).(providerRequestIds := t.requestIds))
            && (settled ==> t.usage.Some? && after.jobs[id].lastErrorCode == Some(t.errorCode))
            && after.reports == db.reports && after.stats == db.stats
            && after.balances == db.balances[context.userId := db.balances[context.userId]
                 + (if settled && t.refundTokens > 0 then t.refundTokens else 0)
                 - (if t.additionalDebitTokens > 0 && !short then t.additionalDebitTokens else 0)]
            && after.repositories.Keys == db.repositories.Keys
            && (forall k | k in db.repositories ::
                  SyncTimeAdvances(db.repositories[k].lastSyncTime, after.repositories[k].lastSyncTime))
  {
    hide RowOk, RowStep, PublishUntouched, Complete, IsValidUsage, ToFailed, MayFinish, EvidenceOf, WithUsage;
    var settled :=
      t.tokensSettled && !(t.additionalDebitTokens > 0 && db.balances[context.userId] < t.additionalDebitTokens);
    FailedRow(db.jobs[id], token, context, t.usage, t.requestIds, settled,
              if settled then t.errorCode else ProviderReconciliationRequired, now);
  }

  lemma TerminateStep(db: Db, id: JobId, token: Token, context: Job, t: Termination, now: Time)
    requires RowsOk(db) && Terminate(db, id, token, context, t, now).Some?
    requires t.errorCode != PublishFailed
    requires id in db.jobs && (HasBillingEvidence(db.jobs[id]) ==>
               EvidenceOf(db.jobs[id]) ==
                 EvidenceOf(WithUsage(db.jobs[id], t.usage).(providerRequestIds := t.requestIds)))
    ensures var after := Terminate(db, id, token, context, t, now).value;
            && id in after.jobs
            && RowStep(db.jobs[id], after.jobs[id], Some(token)) && PublishUntouched(db.jobs[id], after.jobs[id])
  {
    assert RowOk(db.jobs[id]);
    hide RowOk, RowStep, PublishUntouched;
  }

  /** A termination is a balanced step when what it pays back is what its row stops holding. */
  lemma TerminateRefreshes(db: Db, id: JobId, token: Token, context: Job, t: Termination, now: Time)
    requires RowsOk(db) && BalancesOk(db) && Terminate(db, id, token, context, t, now).Some?
    requires t.errorCode != PublishFailed
    requires id in db.jobs && (HasBillingEvidence(db.jobs[id]) ==>
               EvidenceOf(db.jobs[id]) ==
                 EvidenceOf(WithUsage(db.jobs[id], t.usage).(providerRequestIds := t.requestIds)))
    requires var after := Terminate(db, id, token, context, t, now).value;
             && id in after.jobs && context.userId in db.balances && context.userId in after.balances
             && after.balances[context.userId] ==
                  db.balances[context.userId] - (Held(after.jobs[id]) - Held(db.jobs[id]))
    ensures var after := Terminate(db, id, token, context, t, now).value;
            && Refreshes(db, after, id, after.jobs[id], Some(token))
            && after.reports == db.reports && after.jobs[id].status != Succeeded
  {
    hide RowOk, RowStep, Held, PublishUntouched, Terminate, HasBillingEvidence, WithUsage, RowsOk;
    TerminateShape(db, id, token, context, t, now);
    TerminateStep(db, id, token, context, t, now);
  }

  lemma TerminateKeeps(db: Db, id: JobId, token: Token, context: Job, t: Termination, now: Time)
    requires DbOk(db) && Terminate(db, id, token, context, t, now).Some?
    requires t.errorCode != PublishFailed
    requires id in db.jobs && (HasBillingEvidence(db.jobs[id]) ==>
               EvidenceOf(db.jobs[id]) ==
                 EvidenceOf(WithUsage(db.jobs[id], t.usage).(providerRequestIds := t.requestIds)))
    requires var after := Terminate(db, id, token, context, t, now).value;
             && id in after.jobs && context.userId in db.balances && context.userId in after.balances
             && after.balances[context.userId] ==
                  db.balances[context.userId] - (Held(after.jobs[id]) - Held(db.jobs[id]))
    ensures var after := Terminate(db, id, token, context, t, now).value;
            && DbOk(after) && Guarantee(db, after, Some(token)) && PublishQuiet(db, after) && Balanced(db, after, id)
  {
    hide Terminate, RowsOk, ReportsOk, OneActivePerRepository, OneJobPerKey;
    TerminateRefreshes(db, id, token, context, t, now);
    var after := Terminate(db, id, token, context, t, now).value;
    hide *;
    RefreshRow(db, after, id, after.jobs[id], Some(token));
  }

  lemma UnbilledKeeps(db: Db, id: JobId, token: Token, context: Job, code: ErrorCode, completion: Completion, now: Time)
    requires DbOk(db) && Terminate(db, id, token, context, Unbilled(context, code, completion), now).Some?
    requires code != PublishFailed && id in db.jobs && !HasBillingEvidence(db.jobs[id])
    ensures var after := Terminate(db, id, token, context, Unbilled(context, code, completion), now).value;
            && DbOk(after) && Guarantee(db, after, Some(token)) && PublishQuiet(db, after) && Balanced(db, after, id)
            && id in after.jobs && after.jobs[id].status == Failed && after.jobs[id].lastErrorCode == Some(code)
            && after.stats == db.stats
  {
    var t := Unbilled(context, code, completion);
    TerminateShape(db, id, token, context, t, now);
    assert RowOk(db.jobs[id]);
    hide RowsOk, ReportsOk, OneActivePerRepository, OneJobPerKey, Guarantee, PublishQuiet, Balanced;
    TerminateKeeps(db, id, token, context, t, now);
  }

  /** How far a known usage exceeds a known reservation; negative when tokens are left over. */
  function Excess(row: Job, usage: Usage): int
    requires row.reservedTokens.Some?
  {
    usage.totalTokens - row.reservedTokens.value
  }

  /** The bill can be settled: usage and reservation are known, and the user can pay what exceeds the reservation. */
  predicate IsPayable(db: Db, row: Job, usage: Option<Usage>) {
    && usage.Some? && row.reservedTokens.Some? && row.userId in db.balances
    && (Excess(row, usage.value) > 0 ==> Excess(row, usage.value) <= db.balances[row.userId])
  }

  /**
   What a committed reconciliation leaves on the tables. The bill is settled if and only if it is payable; then the user
   gets back what was left of the reservation, or pays what exceeds it, and only such an excess is called
   TOKEN_BUDGET_EXCEEDED. Otherwise the reservation stays where it is, and nothing but the row changes.
   */
  lemma ReconciliationSettles(db: Db, id: JobId, token: Token, context: Job, requestId: Option<RequestId>,
                              usage: Option<Usage>, now: Time)
    requires Terminate(db, id, token, context, Reconciliation(context, requestId, usage), now).Some?
    ensures id in db.jobs && db.jobs[id].userId in db.balances
    ensures var row := db.jobs[id];
            var after := Terminate(db, id, token, context, Reconciliation(context, requestId, usage), now).value;
            var paid := IsPayable(db, row, usage);
            && id in after.jobs && after.jobs == db.jobs[id := after.jobs[id]] && after.jobs[id].status == Failed
            && (after.jobs[id].tokensSettledAt.Some? <==> paid)
            && after.balances == db.balances[row.userId :=
                 db.balances[row.userId] - if paid then Excess(row, usage.value) else 0]
            && after.jobs[id].lastErrorCode ==
                 Some(if paid && Excess(row, usage.value) > 0 then TokenBudgetExceeded
                      else ProviderReconciliationRequired)
            && after.jobs[id].errorRetryable == Some(false)
            && after.repositories == db.repositories && after.reports == db.reports && after.stats == db.stats
  {
    hide RowOk, RowStep, PublishUntouched, IsValidUsage;
  }

  /** Settling a billed response: the user pays the usage, or the row stays unsettled with its reservation. */
  lemma ReconciliationKeeps(db: Db, id: JobId, token: Token, context: Job, requestId: Option<RequestId>,
                            usage: Option<Usage>, now: Time)
    requires DbOk(db) && Terminate(db, id, token, context, Reconciliation(context, requestId, usage), now).Some?
    requires id in db.jobs && (HasBillingEvidence(db.jobs[id]) ==> EvidenceOf(db.jobs[id]) == Billed(requestId, usage))
    ensures var after := Terminate(db, id, token, context, Reconciliation(context, requestId, usage), now).value;
            && DbOk(after) && Guarantee(db, after, Some(token)) && PublishQuiet(db, after) && Balanced(db, after, id)
            && id in after.jobs && after.jobs[id].status == Failed
            && EvidenceOf(after.jobs[id]) == Billed(requestId, usage)
            && (after.jobs[id].tokensSettledAt.Some? ==> usage.Some? && Held(after.jobs[id]) == usage.value.totalTokens)
            && after.stats == db.stats
  {
    var t := Reconciliation(context, requestId, usage);
    TerminateShape(db, id, token, context, t, now);
    assert RowOk(db.jobs[id]);
    hide RowsOk, ReportsOk, OneActivePerRepository, OneJobPerKey, Guarantee, PublishQuiet, Balanced;
    TerminateKeeps(db, id, token, context, t, now);
  }

  /** What a success writes on its row. */
  lemma SucceededRow(job: Job, token: Token, context: Job, requestId: RequestId, usage: Usage, now: Time)
    requires RowOk(job) && ToSucceeded(job, token, context, requestId, usage, now).Some?
    requires IsValidUsage(usage) && context.reservedTokens.Some? && usage.totalTokens <= context.reservedTokens.value
    requires HasBillingEvidence(job) ==> EvidenceOf(job) == Billed(Some(requestId), Some(usage))
    ensures var row := ToSucceeded(job, token, context, requestId, usage, now).value;
            && MayFinish(job, token, context) && row.status == Succeeded
            && RowStep(job, row, Some(token)) && PublishUntouched(job, row)
            && Held(row) == usage.totalTokens && Held(job) == context.reservedTokens.value
  {
    assert RowStep(job, ToSucceeded(job, token, context, requestId, usage, now).value, Some(token));
    hide RowOk, RowStep;
  }

  lemma SucceedShape(db: Db, id: JobId, token: Token, context: Job, requestId: RequestId, usage: Usage, scores: Scores,
                     completion: Completion, now: Time)
    requires RowsOk(db) && Succeed(db, id, token, context, requestId, usage, scores, completion, now).Some?
    requires context.reservedTokens.Some? && usage.totalTokens <= context.reservedTokens.value
    requires id in db.jobs
    requires (HasBillingEvidence(db.jobs[id]) ==> EvidenceOf(db.jobs[id]) == Billed(Some(requestId), Some(usage)))
    ensures var after := Succeed(db, id, token, context, requestId, usage, scores, completion, now).value;
            && id in after.jobs && after.jobs == db.jobs[id := after.jobs[id]]
            && MayFinish(db.jobs[id], token, context) && id !in db.reports
            && after.jobs[id].status == Succeeded && RowStep(db.jobs[id], after.jobs[id], Some(token))
            && PublishUntouched(db.jobs[id], after.jobs[id])
            && Held(after.jobs[id]) == usage.totalTokens && Held(db.jobs[id]) == context.reservedTokens.value
            && after.reports == db.reports[id := Report(context.userId, context.repositoryId)]
            && after.stats == db.stats[context.userId := UpdatedStat(StatOf(db, context.userId), scores)]
            && context.userId in db.balances
            && after.balances == db.balances[context.userId :=
                 db.balances[context.userId] + context.reservedTokens.value - usage.totalTokens]
            && after.repositories.Keys == db.repositories.Keys
            && (forall k | k in db.repositories ::
                  SyncTimeAdvances(db.repositories[k].lastSyncTime, after.repositories[k].lastSyncTime))
  {
    hide RowOk, RowStep, PublishUntouched, Held, MayFinish, ToSucceeded, HasBillingEvidence, Complete, UpdatedStat,
      StatOf, IsValidUsage;
    SucceededRow(db.jobs[id], token, context, requestId, usage, now);
  }

  lemma SucceedReports(db: Db, after: Db, id: JobId, token: Token)
    requires ReportsOk(db) && id in db.jobs && id in after.jobs && after.jobs == db.jobs[id := after.jobs[id]]
    requires after.jobs[id].status == Succeeded && SameRequest(db.jobs[id], after.jobs[id])
    requires after.reports == db.reports[id := Report(db.jobs[id].userId, db.jobs[id].repositoryId)]
    ensures ReportsOk(after)
  {
  }

  lemma SucceedKeeps(db: Db, id: JobId, token: Token, context: Job, requestId: RequestId, usage: Usage, scores: Scores,
                     completion: Completion, now: Time)
    requires DbOk(db) && Succeed(db, id, token, context, requestId, usage, scores, completion, now).Some?
    requires context.reservedTokens.Some? && usage.totalTokens <= context.reservedTokens.value
    requires id in db.jobs
    requires (HasBillingEvidence(db.jobs[id]) ==> EvidenceOf(db.jobs[id]) == Billed(Some(requestId), Some(usage)))
    ensures var after := Succeed(db, id, token, context, requestId, usage, scores, completion, now).value;
            && DbOk(after) && Guarantee(db, after, Some(token)) && PublishQuiet(db, after) && Balanced(db, after, id)
            && id in after.jobs && after.jobs[id].status == Succeeded
  {
    hide Succeed, RowOk, RowStep, Held, PublishUntouched, OneActivePerRepository, OneJobPerKey, ReportsOk,
      HasBillingEvidence, Complete, UpdatedStat, Guarantee, PublishQuiet, Balanced;
    SucceedShape(db, id, token, context, requestId, usage, scores, completion, now);
    var after := Succeed(db, id, token, context, requestId, usage, scores, completion, now).value;
    var row := after.jobs[id];
    assert RowOk(db.jobs[id]);
    RowStepKeepsRow(db.jobs[id], row, Some(token));
    assert Refreshes(db, after, id, row, Some(token));
    SucceedReports(db, after, id, token);
    RefreshAll(db, after, id, row, Some(token));
  }

  lemma SettleKeeps(db: Db, id: JobId, expectedStatus: Status, expectedToken: Option<Token>, code: ErrorCode,
                    retryable: bool, now: Time)
    requires DbOk(db) && (expectedStatus == Queued || expectedStatus == Running) && code != PublishFailed
    requires SettleJob(db, id, expectedStatus, expectedToken, code, retryable, now).SettledIn?
    ensures var after := SettleJob(db, id, expectedStatus, expectedToken, code, retryable, now).db;
            && DbOk(after) && Guarantee(db, after, None) && PublishQuiet(db, after) && Balanced(db, after, id)
            && id in after.jobs && after.jobs[id].status == Failed && after.jobs[id].lastErrorCode == Some(code)
            && after.stats == db.stats
  {
    hide SettleJob, Refreshes, RowsOk, ReportsOk, OneActivePerRepository, OneJobPerKey, BalancesOk, Guarantee,
      PublishQuiet, Balanced;
    SettleRefreshes(db, id, expectedStatus, expectedToken, code, retryable, now);
    var after := SettleJob(db, id, expectedStatus, expectedToken, code, retryable, now).db;
    RefreshRow(db, after, id, after.jobs[id], None);
  }

  lemma SettleRefreshes(db: Db, id: JobId, expectedStatus: Status, expectedToken: Option<Token>, code: ErrorCode,
                        retryable: bool, now: Time)
    requires RowsOk(db) && BalancesOk(db) && (expectedStatus == Queued || expectedStatus == Running)
    requires code != PublishFailed
    requires SettleJob(db, id, expectedStatus, expectedToken, code, retryable, now).SettledIn?
    ensures var after := SettleJob(db, id, expectedStatus, expectedToken, code, retryable, now).db;
            && id in db.jobs && id in after.jobs && Refreshes(db, after, id, after.jobs[id], None)
            && after.reports == db.reports && after.stats == db.stats
            && after.jobs[id].status == Failed && after.jobs[id].lastErrorCode == Some(code)
  {
    hide RowStep, PublishUntouched, Held, HasBillingEvidence, SettleFailure, RowOk;
    SettledRow(db.jobs[id], expectedStatus, expectedToken, code, retryable, now);
  }

  /** What a settlement writes on its row. */
  lemma SettledRow(job: Job, expectedStatus: Status, expectedToken: Option<Token>, code: ErrorCode, retryable: bool,
                   now: Time)
    requires RowOk(job) && (expectedStatus == Queued || expectedStatus == Running) && code != PublishFailed
    requires SettleFailure(job, expectedStatus, expectedToken, code, retryable, now).Settled?
    ensures var row := SettleFailure(job, expectedStatus, expectedToken, code, retryable, now).job;
            && RowStep(job, row, None) && PublishUntouched(job, row)
            && row.status == Failed && row.lastErrorCode == Some(code)
            && Held(row) == 0 && Held(job) == (if job.reservedTokens.Some? then job.reservedTokens.value else 0)
            && Held(job) >= 0
  {
    assert IsActive(job);
    assert Held(job) == job.reservedTokens.GetOr(0);
    hide RowStep, PublishUntouched, Held, HasBillingEvidence;
  }
}
