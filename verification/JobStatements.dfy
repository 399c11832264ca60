/**
 Conditional updates of analysis_jobs: analysis-job.repository.ts.
 Each is one statement: `None` when the WHERE clause misses the row, else the updated row.
 */
module JobStatements {
  import opened Basics
  import opened JobRow

  const STALE_TIMEOUT_MS: Time := 900_000

  /** The lease and ownership fence of the reservation and of the charge. */
  predicate OwnedBy(job: Job, token: Token, context: Job) {
    && job.status == Running
    && job.leaseToken == Some(token)
    && job.userId == context.userId
    && job.repositoryId == context.repositoryId
    && job.tokensSettledAt.None?
  }

  function ReserveTokens(job: Job, token: Token, context: Job, estimated: int, reserved: int,
                         now: Time): (r: Option<Job>)
    ensures RowOk(job) && reserved >= 0 && r.Some? ==> RowStep(job, r.value, Some(token))
  {
    if OwnedBy(job, token, context) && job.reservedTokens.None?
    then Some(job.(estimatedTokens := Some(estimated), reservedTokens := Some(reserved), updatedAt := now))
    else None
  }

  function RecordProviderCharge(job: Job, token: Token, context: Job, requestId: RequestId, usage: Option<Usage>,
                                now: Time): (r: Option<Job>)
    ensures RowOk(job) && context.reservedTokens.Some? && (usage.Some? ==> IsValidUsage(usage.value)) && r.Some? ==>
              && RowStep(job, r.value, Some(token))
              && !HasBillingEvidence(job)
              && EvidenceOf(r.value) == Billed(Some(requestId), usage)
              && r.value.reservedTokens == context.reservedTokens
              && r.value.leaseToken == Some(token)
  {
    if OwnedBy(job, token, context) && job.reservedTokens == context.reservedTokens && !HasBillingEvidence(job)
    then Some(WithUsage(job, usage).(providerRequestIds := [requestId], updatedAt := now))
    else None
  }

  function WithUsage(job: Job, usage: Option<Usage>): Job {
    match usage
    case None => job.(promptTokens := None, completionTokens := None, totalTokens := None)
    case Some(u) => job.(promptTokens := Some(u.promptTokens),
                         completionTokens := Some(u.completionTokens), totalTokens := Some(u.totalTokens))
  }

  /** transitionStatus QUEUED -> RUNNING, the synchronous path's own claim. */
  function StartSync(job: Job, token: Token, expires: Time, now: Time): (r: Option<Job>)
    ensures RowOk(job) && IsSyncJob(job) && r.Some? ==> RowStep(job, r.value, Some(token))
  {
    if job.status == Queued
    then Some(job.(status := Running, leaseToken := Some(token), leaseExpiresAt := Some(expires),
                   startedAt := Some(now), updatedAt := now))
    else None
  }

  /** The lease, ownership and reservation fence of a terminal transition. */
  predicate MayFinish(job: Job, token: Token, context: Job) {
    OwnedBy(job, token, context) && job.reservedTokens == context.reservedTokens
  }

  /** transitionStatus RUNNING -> SUCCEEDED. */
  function ToSucceeded(job: Job, token: Token, context: Job, requestId: RequestId, usage: Usage,
                       now: Time): (r: Option<Job>)
    ensures RowOk(job) && r.Some? && IsValidUsage(usage) && context.reservedTokens.Some? &&
            usage.totalTokens <= context.reservedTokens.value &&
            (HasBillingEvidence(job) ==> EvidenceOf(job) == Billed(Some(requestId), Some(usage))) ==>
              RowStep(job, r.value, Some(token))
  {
    if MayFinish(job, token, context)
    then Some(WithUsage(job, Some(usage)).(
      status := Succeeded, providerRequestIds := [requestId], tokensSettledAt := Some(now), completedAt := Some(now),
      leaseToken := None, leaseExpiresAt := None, updatedAt := now))
    else None
  }

  /** transitionStatus RUNNING -> FAILED; `settled` says whether tokensSettledAt is written. */
  function ToFailed(job: Job, token: Token, context: Job, usage: Option<Usage>, requestIds: seq<RequestId>,
                    settled: bool, code: ErrorCode, now: Time): (r: Option<Job>)
    ensures RowOk(job) && r.Some? && (usage.Some? ==> IsValidUsage(usage.value)) && (settled ==> usage.Some?) &&
            (!settled ==> code == ProviderReconciliationRequired) && code != PublishFailed &&
            (HasBillingEvidence(job) ==> EvidenceOf(job) == EvidenceOf(r.value)) ==>
              RowStep(job, r.value, Some(token)) && PublishUntouched(job, r.value)
  {
    if MayFinish(job, token, context)
    then Some(WithUsage(job, usage).(
      status := Failed, providerRequestIds := requestIds, tokensSettledAt := if settled then Some(now) else None,
      completedAt := Some(now), lastErrorCode := Some(code), errorRetryable := Some(false),
      leaseToken := None, leaseExpiresAt := None, updatedAt := now))
    else None
  }

  predicate StaleLease(job: Job, now: Time) {
    || (job.leaseExpiresAt.Some? && job.leaseExpiresAt.value <= now)
    || (job.leaseExpiresAt.None? && job.updatedAt <= now - STALE_TIMEOUT_MS)
  }

  predicate AbandonedBeforeReservation(job: Job, now: Time) {
    && job.reservedTokens.None?
    && job.tokensSettledAt.None?
    && ( || ( && job.status == Queued
              && IsSyncJob(job)
              && job.createdAt <= now - STALE_TIMEOUT_MS
              && job.startedAt.None?
              && job.messagePublishedAt.None?
              && job.nextPublishAt.None?
              && job.attemptCount == 0)
         || (job.status == Running && StaleLease(job, now)))
  }

  predicate AbandonedAfterReservation(job: Job, now: Time) {
    job.status == Running && job.reservedTokens.Some? && job.tokensSettledAt.None? && StaleLease(job, now)
  }

  function FailBeforeReservation(job: Job, now: Time): (r: Job)
    ensures RowOk(job) && AbandonedBeforeReservation(job, now) ==>
              RowStep(job, r, None) && PublishUntouched(job, r) && Held(r) == Held(job)
    ensures r.status == Failed
  {
    WithUsage(job, Some(ZERO_TOKEN_USAGE)).(
      status := Failed, tokensSettledAt := Some(now), completedAt := Some(now), leaseToken := None,
      leaseExpiresAt := None, lastErrorCode := Some(AnalysisFailed), errorRetryable := Some(true), updatedAt := now)
  }

  function FailAfterReservation(job: Job, now: Time): (r: Job)
    ensures RowOk(job) && AbandonedAfterReservation(job, now) ==>
              RowStep(job, r, None) && PublishUntouched(job, r) && Held(r) == Held(job)
    ensures r.status == Failed
  {
    job.(
      status := Failed, tokensSettledAt := None, completedAt := Some(now), leaseToken := None, leaseExpiresAt := None,
      lastErrorCode := Some(ProviderReconciliationRequired), errorRetryable := Some(false), updatedAt := now)
  }

  /** Both bulk updates of recoverStaleActiveJobs, seen from one row of the repository. */
  function RecoverStale(job: Job, now: Time): (r: Job)
    ensures RowOk(job) ==> RowStep(job, r, None) && PublishUntouched(job, r) && Held(r) == Held(job)
    ensures r == job || r.status == Failed
  {
    if AbandonedBeforeReservation(job, now) then FailBeforeReservation(job, now)
    else if AbandonedAfterReservation(job, now) then FailAfterReservation(job, now)
    else job
  }
}
