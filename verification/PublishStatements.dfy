/** The outbox statements and decisions: analysis-job-publish.repository.ts and analysis-job-publisher.service.ts. */
module PublishStatements {
  import opened Basics
  import opened JobRow

  datatype PublishSettings = PublishSettings(maxAttempts: nat, republishAfterMs: nat)

  predicate IsInternalUncertainCode(code: Option<ErrorCode>) {
    code == Some(PublishInProgress) || code == Some(PublishDeliveryUncertain)
  }

  /** What a publisher believes from its snapshot: some earlier send may have been delivered. */
  predicate DeliveryUncertain(seen: Job) {
    seen.messagePublishedAt.Some? || IsInternalUncertainCode(seen.lastErrorCode)
  }

  predicate RequiresPublishRecovery(seen: Job) {
    seen.reservedTokens.Some? || IsInternalUncertainCode(seen.lastErrorCode)
  }

  predicate IsDue(seen: Job, now: Time, settings: PublishSettings, allowRepublish: bool) {
    if || seen.status != Queued
       || IsSyncJob(seen)
       || (seen.nextPublishAt.Some? && seen.nextPublishAt.value > now)
    then false
    else if seen.messagePublishedAt.None? then true
    else allowRepublish && seen.messagePublishedAt.value <= now - settings.republishAfterMs
  }

  /** publish goes on to claim an attempt. */
  predicate WantsAttempt(seen: Job, now: Time, settings: PublishSettings, allowRepublish: bool) {
    && IsDue(seen, now, settings, allowRepublish)
    && !(seen.publishAttempts >= settings.maxAttempts && !RequiresPublishRecovery(seen))
  }

  /** What one outbox statement may do to one row. */
  predicate PublishStep(before: Job, after: Job) {
    && before.status == Queued
    && RowStep(before, after, None)
    && (after.status == Queued || (after.status == Failed && after.lastErrorCode == Some(PublishFailed)))
    && Held(after) == Held(before)
    && after.attemptCount == before.attemptCount
    && before.publishAttempts <= after.publishAttempts
    && (before.messagePublishedAt.Some? ==> after.messagePublishedAt.Some?)
  }

  function ClaimAttempt(job: Job, seen: Job, claimedNextPublishAt: Time, deliveryUncertain: bool,
                        now: Time): (r: Option<Job>)
    ensures RowOk(job) && r.Some? ==>
              && PublishStep(job, r.value) && r.value.status == Queued
              && r.value.publishAttempts == seen.publishAttempts + 1 == job.publishAttempts + 1
              && DeliveryUncertain(r.value)
  {
    if && job.status == Queued
       && job.publishAttempts == seen.publishAttempts
       && job.messagePublishedAt == seen.messagePublishedAt
       && job.nextPublishAt == seen.nextPublishAt
    then Some(job.(
      publishAttempts := job.publishAttempts + 1, nextPublishAt := Some(claimedNextPublishAt),
      lastErrorCode := Some(if deliveryUncertain then PublishDeliveryUncertain else PublishInProgress),
      errorRetryable := None, updatedAt := now))
    else None
  }

  /** claimedWhere: the row still carries this attempt's claim. */
  predicate StillClaimed(job: Job, seen: Job, attempt: nat, claimedNextPublishAt: Time) {
    && job.status == Queued
    && job.publishAttempts == attempt
    && job.messagePublishedAt == seen.messagePublishedAt
    && job.nextPublishAt == Some(claimedNextPublishAt)
  }

  function MarkPublished(job: Job, seen: Job, attempt: nat, claimedNextPublishAt: Time,
                         publishedAt: Time): (r: Option<Job>)
    ensures RowOk(job) && r.Some? ==>
              && PublishStep(job, r.value) && r.value.status == Queued
              && job.publishAttempts == attempt == r.value.publishAttempts
              && DeliveryUncertain(r.value)
  {
    if StillClaimed(job, seen, attempt, claimedNextPublishAt)
    then Some(job.(
      messagePublishedAt := Some(publishedAt), nextPublishAt := None, lastErrorCode := None, errorRetryable := None,
      updatedAt := publishedAt))
    else None
  }

  predicate ReachesGiveUp(seen: Job, attempt: nat, deliveryUncertain: bool, settings: PublishSettings) {
    && attempt >= settings.maxAttempts
    && !deliveryUncertain
    && seen.messagePublishedAt.None?
    && seen.reservedTokens.None?
  }

  /** A failure never touches messagePublishedAt, and never terminates a job whose success was recorded. */
  function RecordFailure(job: Job, seen: Job, attempt: nat, claimedNextPublishAt: Time, nextPublishAt: Time,
                         deliveryUncertain: bool, terminate: bool, now: Time): (r: Option<Job>)
    ensures r.Some? && terminate ==> r.value.lastErrorCode == Some(PublishFailed)
    ensures RowOk(job) && r.Some? ==>
              && PublishStep(job, r.value)
              && job.publishAttempts == attempt == r.value.publishAttempts
              && r.value.messagePublishedAt == job.messagePublishedAt == seen.messagePublishedAt
              && (r.value.status == Failed <==> terminate)
              && (r.value.status == Queued && deliveryUncertain ==> DeliveryUncertain(r.value))
  {
    if StillClaimed(job, seen, attempt, claimedNextPublishAt) && (terminate ==> job.reservedTokens.None?) then
      if terminate then Some(job.(
        status := Failed, nextPublishAt := None, lastErrorCode := Some(PublishFailed), errorRetryable := Some(true),
        promptTokens := Some(0), completionTokens := Some(0), totalTokens := Some(0),
        tokensSettledAt := Some(now), completedAt := Some(now), updatedAt := now))
      else Some(job.(
        nextPublishAt := Some(nextPublishAt),
        lastErrorCode := Some(if deliveryUncertain then PublishDeliveryUncertain else PublishAttemptFailed),
        errorRetryable := None, updatedAt := now))
    else None
  }
}
