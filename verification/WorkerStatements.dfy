/** Conditional updates of analysis_jobs: analysis-worker.repository.ts. */
module WorkerStatements {
  import opened Basics
  import opened JobRow

  function ClaimQueued(job: Job, token: Token, now: Time, expires: Time): (r: Option<Job>)
    ensures RowOk(job) && r.Some? ==>
              RowStep(job, r.value, Some(token)) && PublishUntouched(job, r.value) && Held(r.value) == Held(job)
    ensures r.Some? ==> r.value.attemptCount == job.attemptCount + 1 && r.value.leaseToken == Some(token)
  {
    if && job.status == Queued
       && job.attemptCount < job.maxAttempts
       && (job.nextPublishAt.None? || job.nextPublishAt.value <= now)
       && job.completedAt.None?
       && job.tokensSettledAt.None?
    then Some(job.(
      status := Running, attemptCount := job.attemptCount + 1, leaseToken := Some(token),
      leaseExpiresAt := Some(expires), startedAt := Some(job.startedAt.GetOr(now)), nextPublishAt := None,
      lastErrorCode := None, errorRetryable := None, updatedAt := now))
    else None
  }

  /** The part of both takeovers' WHERE clause that compares the row with the one read before. */
  predicate LeaseUnchangedAndExpired(job: Job, seen: Job, now: Time) {
    && job.status == Running
    && seen.leaseToken.Some? && job.leaseToken == seen.leaseToken
    && seen.leaseExpiresAt.Some? && job.leaseExpiresAt == seen.leaseExpiresAt
    && job.leaseExpiresAt.value <= now
    && job.attemptCount == seen.attemptCount
    && job.completedAt.None?
    && job.tokensSettledAt.None?
  }

  /** Takes over a lease whose last read showed no billing evidence. The statement itself does not look for evidence. */
  function TakeOverExpiredLease(job: Job, seen: Job, token: Token, now: Time, expires: Time): (r: Option<Job>)
    ensures RowOk(job) && r.Some? ==>
              RowStep(job, r.value, Some(token)) && PublishUntouched(job, r.value) && Held(r.value) == Held(job)
    ensures r.Some? ==> r.value.attemptCount == job.attemptCount + 1 && r.value.leaseToken == Some(token)
  {
    if LeaseUnchangedAndExpired(job, seen, now) && job.attemptCount < job.maxAttempts
    then Some(job.(
      attemptCount := job.attemptCount + 1, leaseToken := Some(token), leaseExpiresAt := Some(expires),
      startedAt := Some(job.startedAt.GetOr(now)), lastErrorCode := None, errorRetryable := None, updatedAt := now))
    else None
  }

  /** Takes over a lease whose row holds billing evidence; attemptCount stays. */
  function TakeOverExpiredBilledLease(job: Job, seen: Job, token: Token, now: Time, expires: Time): (r: Option<Job>)
    ensures RowOk(job) && r.Some? ==>
              RowStep(job, r.value, Some(token)) && PublishUntouched(job, r.value) && Held(r.value) == Held(job)
    ensures r.Some? ==>
              r.value.attemptCount == job.attemptCount && HasBillingEvidence(job) && r.value.leaseToken == Some(token)
  {
    if LeaseUnchangedAndExpired(job, seen, now) && HasBillingEvidence(job)
    then Some(job.(leaseToken := Some(token), leaseExpiresAt := Some(expires), updatedAt := now))
    else None
  }

  function UpdateProgress(job: Job, token: Token, now: Time, expires: Time): (r: Option<Job>)
    ensures RowOk(job) && r.Some? ==>
              && RowStep(job, r.value, Some(token)) && PublishUntouched(job, r.value) && Held(r.value) == Held(job)
              && job.leaseToken == r.value.leaseToken == Some(token)
              && r.value.attemptCount == job.attemptCount
              && r.value.reservedTokens == job.reservedTokens
              && EvidenceOf(r.value) == EvidenceOf(job)
  {
    if job.status == Running && job.leaseToken == Some(token) && job.tokensSettledAt.None?
    then Some(job.(leaseExpiresAt := Some(expires), updatedAt := now))
    else None
  }

  function ReleaseForRetry(job: Job, token: Token, nextPublishAt: Time, code: ErrorCode, now: Time): (r: Option<Job>)
    ensures RowOk(job) && code != PublishFailed && r.Some? ==>
              && RowStep(job, r.value, Some(token)) && PublishUntouched(job, r.value) && Held(r.value) == Held(job)
              && r.value.status == Queued && r.value.attemptCount == job.attemptCount
  {
    if && job.status == Running
       && job.leaseToken == Some(token)
       && job.tokensSettledAt.None?
       && !HasBillingEvidence(job)
    then Some(job.(
      status := Queued, nextPublishAt := Some(nextPublishAt), leaseToken := None, leaseExpiresAt := None,
      lastErrorCode := Some(code), errorRetryable := Some(true), updatedAt := now))
    else None
  }

  /** What the locked read of settleFailure decides. */
  datatype SettleDecision = NotOwned | RequiresReconciliation | Settled(job: Job)

  function SettleFailure(job: Job, expectedStatus: Status, expectedToken: Option<Token>, code: ErrorCode,
                         retryable: bool, now: Time): (r: SettleDecision)
    ensures RowOk(job) && IsActive(job) && code != PublishFailed && r.Settled? ==>
              && RowStep(job, r.job, None) && PublishUntouched(job, r.job)
              && r.job.status == Failed && r.job.tokensSettledAt.Some? && Held(r.job) == 0
              && Held(job) == job.reservedTokens.GetOr(0)
  {
    if || job.status != expectedStatus
       || job.tokensSettledAt.Some?
       || (expectedStatus == Running && job.leaseToken != expectedToken)
    then NotOwned
    else if HasBillingEvidence(job) then RequiresReconciliation
    else Settled(job.(
      status := Failed, promptTokens := Some(0), completionTokens := Some(0), totalTokens := Some(0),
      tokensSettledAt := Some(now), leaseToken := None, leaseExpiresAt := None, nextPublishAt := None,
      completedAt := Some(now), lastErrorCode := Some(code), errorRetryable := Some(retryable), updatedAt := now))
  }
}
