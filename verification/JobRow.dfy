/** The analysis_jobs row and what every committed row satisfies. */
module JobRow {
  import opened Basics

  const MAX_SAFE_INTEGER: int := 0x1F_FFFF_FFFF_FFFF

  datatype Usage = Usage(promptTokens: int, completionTokens: int, totalTokens: int)

  const ZERO_TOKEN_USAGE := Usage(0, 0, 0)

  predicate IsSafeCount(n: int) {
    0 <= n <= MAX_SAFE_INTEGER
  }

  predicate CountsAgree(promptTokens: int, completionTokens: int, totalTokens: int) {
    && IsSafeCount(promptTokens)
    && IsSafeCount(completionTokens)
    && IsSafeCount(totalTokens)
    && promptTokens + completionTokens == totalTokens
  }

  predicate IsValidUsage(usage: Usage) {
    CountsAgree(usage.promptTokens, usage.completionTokens, usage.totalTokens)
  }

  datatype Status = Queued | Running | Succeeded | Failed

  datatype Version = Current | Retired | Unsupported

  /** Idempotency keys: 'sync:' keys are minted by the synchronous path and refused at the API. */
  datatype Key = SyncKey(nonce: nat) | ApiKey(text: nat)

  /** What requestHash is computed from; the hash is taken to be injective. */
  datatype Request = Create(repositoryId: RepositoryId) | Retry(sourceJobId: JobId) | SyncRequest

  datatype ErrorCode =
    | PublishInProgress | PublishDeliveryUncertain | PublishAttemptFailed | PublishFailed
    | AnalysisFailed | InsufficientTokens | InputLimitExceeded | MaxAttemptsExceeded
    | NoAnalyzableData | ProviderReconciliationRequired | TokenBudgetExceeded
    | UnsupportedAnalysisVersion | InvalidMessage
    | RepositoryUnavailable | WorkerLeaseUnavailable | TemporaryFailure | ProviderFailure | GithubFailure

  datatype Job = Job(
    status: Status,
    userId: UserId,
    repositoryId: RepositoryId,
    idempotencyKey: Key,
    request: Request,
    sourceCursor: Option<Time>,
    collectionCutoff: Time,
    version: Version,
    estimatedTokens: Option<int>,
    reservedTokens: Option<int>,
    promptTokens: Option<int>,
    completionTokens: Option<int>,
    totalTokens: Option<int>,
    tokensSettledAt: Option<Time>,
    providerRequestIds: seq<RequestId>,
    publishAttempts: nat,
    messagePublishedAt: Option<Time>,
    nextPublishAt: Option<Time>,
    attemptCount: nat,
    maxAttempts: nat,
    leaseToken: Option<Token>,
    leaseExpiresAt: Option<Time>,
    lastErrorCode: Option<ErrorCode>,
    errorRetryable: Option<bool>,
    startedAt: Option<Time>,
    completedAt: Option<Time>,
    createdAt: Time,
    updatedAt: Time
  )

  predicate IsActive(job: Job) {
    job.status == Queued || job.status == Running
  }

  predicate IsTerminal(job: Job) {
    job.status == Succeeded || job.status == Failed
  }

  predicate IsSyncJob(job: Job) {
    job.idempotencyKey.SyncKey?
  }

  /** The billing columns of a row. */
  datatype Evidence = Evidence(
    requestIds: seq<RequestId>,
    promptTokens: Option<int>,
    completionTokens: Option<int>,
    totalTokens: Option<int>)

  function EvidenceOf(job: Job): Evidence {
    Evidence(job.providerRequestIds, job.promptTokens, job.completionTokens, job.totalTokens)
  }

  /** The billing columns that a request id and a usage are stored as. */
  function Billed(requestId: Option<RequestId>, usage: Option<Usage>): Evidence {
    var ids := if requestId.Some? then [requestId.value] else [];
    if usage.None? then Evidence(ids, None, None, None)
    else Evidence(ids, Some(usage.value.promptTokens), Some(usage.value.completionTokens),
                  Some(usage.value.totalTokens))
  }

  predicate HasBillingEvidence(job: Job) {
    || |job.providerRequestIds| > 0
    || job.promptTokens.Some?
    || job.completionTokens.Some?
    || job.totalTokens.Some?
  }

  /** The columns fixed when the row is inserted. */
  predicate SameRequest(a: Job, b: Job) {
    && a.userId == b.userId
    && a.repositoryId == b.repositoryId
    && a.idempotencyKey == b.idempotencyKey
    && a.request == b.request
    && a.sourceCursor == b.sourceCursor
    && a.collectionCutoff == b.collectionCutoff
    && a.version == b.version
    && a.maxAttempts == b.maxAttempts
    && a.createdAt == b.createdAt
  }

  /** Usage columns are entirely known and valid. */
  predicate UsageKnown(job: Job) {
    && job.promptTokens.Some? && job.completionTokens.Some? && job.totalTokens.Some?
    && CountsAgree(job.promptTokens.value, job.completionTokens.value, job.totalTokens.value)
  }

  /** Usage columns are entirely unknown. */
  predicate UsageUnknown(job: Job) {
    job.promptTokens.None? && job.completionTokens.None? && job.totalTokens.None?
  }

  /** Tokens a row keeps out of its user's balance: the reservation until it is settled, the usage afterwards. */
  function Held(job: Job): int {
    if job.tokensSettledAt.Some? then job.totalTokens.GetOr(0) else job.reservedTokens.GetOr(0)
  }

  /** The row invariant: what holds of every row between any two statements. */
  predicate RowOk(job: Job) {
    && (job.status == Running <==> job.leaseToken.Some?)
    && (job.status == Running <==> job.leaseExpiresAt.Some?)
    && (IsActive(job) ==> job.tokensSettledAt.None? && job.completedAt.None?)
    && (job.status == Queued ==> !HasBillingEvidence(job))
    && (job.status == Running && HasBillingEvidence(job) ==>
          job.reservedTokens.Some? && |job.providerRequestIds| == 1)
    && (UsageKnown(job) || UsageUnknown(job))
    && (job.reservedTokens.Some? ==> job.reservedTokens.value >= 0)
    && 0 < job.maxAttempts
    && job.attemptCount <= job.maxAttempts
    && (job.status == Running ==> job.attemptCount > 0 || IsSyncJob(job))
    && (job.status == Succeeded ==>
          job.tokensSettledAt.Some? && job.completedAt.Some? && UsageKnown(job) &&
          job.reservedTokens.Some? && job.totalTokens.value <= job.reservedTokens.value)
    && (job.status == Failed ==>
          job.completedAt.Some? && job.lastErrorCode.Some? && job.errorRetryable.Some?)
    && (job.status == Failed && job.tokensSettledAt.Some? ==> UsageKnown(job))
    && (job.status == Failed && job.tokensSettledAt.None? ==>
          job.lastErrorCode == Some(ProviderReconciliationRequired) && job.errorRetryable == Some(false))
    && (job.status == Failed && job.errorRetryable == Some(true) ==>
          job.tokensSettledAt.Some? && job.totalTokens == Some(0))
    && (job.lastErrorCode == Some(PublishFailed) ==> job.status == Failed)
  }

  /** canTransitionAnalysisJob, and rows that keep their status. */
  predicate CanTransition(from: Status, to: Status) {
    match from
    case Queued => to != Succeeded
    case Running => true
    case Succeeded => to == Succeeded
    case Failed => to == Failed
  }

  /** What one atomic statement of a process holding lease `token` may do to one row. */
  predicate RowStep(before: Job, after: Job, token: Option<Token>) {
    || after == before
    || ( && IsActive(before)
         && SameRequest(before, after)
         && RowOk(after)
         && (after.status == Running ==> after.leaseToken == token)
         && (before.reservedTokens.Some? ==> after.reservedTokens == before.reservedTokens)
         && (before.reservedTokens != after.reservedTokens ==>
               token.Some? && before.leaseToken == token == after.leaseToken)
         && (HasBillingEvidence(before) ==> EvidenceOf(after) == EvidenceOf(before))
         && before.attemptCount <= after.attemptCount <= before.attemptCount + 1
         && (before.messagePublishedAt.Some? ==> after.messagePublishedAt.Some?)
         && (after.attemptCount > before.attemptCount ==> after.status == Running)
         && CanTransition(before.status, after.status)
         && (after.status == Running && after.leaseToken != before.leaseToken &&
             after.attemptCount == before.attemptCount && !HasBillingEvidence(before) ==>
               before.status == Queued && IsSyncJob(before))
         && (after.status == Running && after.leaseToken != before.leaseToken ==>
               EvidenceOf(after) == EvidenceOf(before)))
  }

  /** Rows that no publisher statement touched. */
  predicate PublishUntouched(before: Job, after: Job) {
    || after == before
    || ( && after.publishAttempts == before.publishAttempts
         && after.messagePublishedAt == before.messagePublishedAt
         && (after.status == Queued ==> after.attemptCount > 0 || IsSyncJob(after))
         && after.lastErrorCode != Some(PublishFailed))
  }
}
