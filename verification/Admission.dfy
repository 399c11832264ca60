/** What acceptance and its recovery of stale jobs mean, outcome by outcome, on the tables. */
module Admission {
  import opened Basics
  import opened JobRow
  import opened JobStatements
  import opened Ledger
  import opened Transactions
  import opened Acceptance

  // ----- stale jobs -----

  /**
   Nobody works on the job any more: it is RUNNING under a lease that has ended, or without one and not updated for a
   quarter of an hour, or it is a synchronous job that was created a quarter of an hour ago and that nobody ever
   started, published, scheduled or claimed.
   */
  predicate IsStale(row: Job, now: Time) {
    || (row.status == Running && row.leaseExpiresAt.Some? && row.leaseExpiresAt.value <= now)
    || (row.status == Running && row.leaseExpiresAt.None? && row.updatedAt + 900_000 <= now)
    || ( && row.status == Queued && IsSyncJob(row) && row.createdAt + 900_000 <= now && row.reservedTokens.None?
         && row.startedAt.None? && row.messagePublishedAt.None? && row.nextPublishAt.None? && row.attemptCount == 0)
  }

  /**
   An unsettled row is failed by the recovery if and only if it is stale. Without a reservation it is settled for
   nothing and may be retried; with one it waits for reconciliation, and keeps the reservation and whatever bill it
   shows.
   */
  lemma StaleRowsAreFailed(row: Job, now: Time)
    requires IsActive(row) ==> row.tokensSettledAt.None?
    ensures var after := RecoverStale(row, now);
            && (after == row <==> !IsStale(row, now))
            && (IsStale(row, now) ==>
                  && after.status == Failed && after.completedAt == Some(now) && after.leaseToken.None?
                  && after.reservedTokens == row.reservedTokens
                  && if row.reservedTokens.None?
                     then
                       && after.lastErrorCode == Some(AnalysisFailed) && after.errorRetryable == Some(true)
                       && after.tokensSettledAt == Some(now) && after.totalTokens == Some(0)
                     else
                       && after.lastErrorCode == Some(ProviderReconciliationRequired)
                       && after.errorRetryable == Some(false) && after.tokensSettledAt.None?
                       && EvidenceOf(after) == EvidenceOf(row))
  {
    hide RowStep, PublishUntouched, Held;
  }

  lemma RecoveredJob(db: Db, repository: RepositoryId, now: Time, j: JobId)
    requires RowsOk(db) && j in db.jobs
    ensures j in RecoverStaleJobs(db, repository, now).jobs
    ensures var row, after := db.jobs[j], RecoverStaleJobs(db, repository, now).jobs[j];
            && after == (if row.repositoryId == repository then RecoverStale(row, now) else row)
            && (after == row <==> row.repositoryId != repository || !IsStale(row, now))
            && (IsActive(after) <==> IsActive(row) && (row.repositoryId != repository || !IsStale(row, now)))
            && (after != row ==> after.status == Failed && after.lastErrorCode != Some(NoAnalyzableData))
            && after.repositoryId == row.repositoryId
  {
    StaleRowsAreFailed(db.jobs[j], now);
    hide RowOk, RowStep, PublishUntouched, Held, IsStale, RecoverStale;
  }

  // ----- the conditions of acceptance -----

  /** The user has no job under this key. */
  ghost predicate IsNewKey(db: Db, user: UserId, key: Key) {
    forall j | j in db.jobs :: db.jobs[j].userId != user || db.jobs[j].idempotencyKey != key
  }

  /** The user had fewer than five requests accepted in the last minute. */
  ghost predicate IsBelowLimit(db: Db, user: UserId, now: Time) {
    var recent := set j | j in db.jobs && db.jobs[j].userId == user && !IsSyncJob(db.jobs[j]) &&
                          now < db.jobs[j].createdAt + 60_000;
    |recent| < 5
  }

  /** The user owns the repository that the request is for. */
  predicate IsOwned(db: Db, user: UserId, repository: RepositoryId) {
    repository in db.repositories && db.repositories[repository].ownerId == user
  }

  predicate IsFunded(db: Db, user: UserId) {
    user in db.balances && 0 < db.balances[user]
  }

  /** No job of the repository is queued or running, but for stale ones. */
  ghost predicate IsFree(db: Db, repository: RepositoryId, now: Time) {
    forall j | j in db.jobs && db.jobs[j].repositoryId == repository && IsActive(db.jobs[j]) :: IsStale(db.jobs[j], now)
  }

  lemma FreeAfterRecovery(db: Db, repository: RepositoryId, now: Time)
    requires RowsOk(db)
    ensures HasActiveJob(RecoverStaleJobs(db, repository, now), repository) <==> !IsFree(db, repository, now)
  {
    hide RowsOk, RecoverStaleJobs, IsStale, IsActive;
    var recovered := RecoverStaleJobs(db, repository, now);
    RecoveredKeys(db, repository, now);
    forall j | j in db.jobs
      ensures IsActive(recovered.jobs[j]) <==>
              IsActive(db.jobs[j]) && (db.jobs[j].repositoryId != repository || !IsStale(db.jobs[j], now))
      ensures recovered.jobs[j].repositoryId == db.jobs[j].repositoryId
    {
      RecoveredJob(db, repository, now, j);
    }
    if !IsFree(db, repository, now) {
      var j :| j in db.jobs && db.jobs[j].repositoryId == repository && IsActive(db.jobs[j]) &&
        !IsStale(db.jobs[j], now);
      assert recovered.jobs[j].repositoryId == repository;
    }
  }

  lemma RecoveredKeys(db: Db, repository: RepositoryId, now: Time)
    ensures RecoverStaleJobs(db, repository, now) == db.(jobs := RecoverStaleJobs(db, repository, now).jobs)
    ensures RecoverStaleJobs(db, repository, now).jobs.Keys == db.jobs.Keys
  {
    hide RecoverStale;
  }

  /** An exclusive insertion happens if and only if the repository is free and the key and the id are new. */
  lemma ExclusiveIff(db: Db, id: JobId, row: Job, now: Time)
    requires RowsOk(db)
    ensures CreateExclusive(db, id, row, now).Some? <==>
            IsFree(db, row.repositoryId, now) && IsNewKey(db, row.userId, row.idempotencyKey) && id !in db.jobs
    ensures CreateExclusive(db, id, row, now).Some? ==>
              CreateExclusive(db, id, row, now).value == Put(RecoverStaleJobs(db, row.repositoryId, now), id, row)
  {
    hide RowsOk, RecoverStaleJobs, HasActiveJob, IsFree;
    FreeAfterRecovery(db, row.repositoryId, now);
  }

  // ----- the outcomes -----

  /** The repository that a request is for: the named one, or that of the job to retry. */
  function Wanted(request: Request, source: Option<Job>): Option<RepositoryId> {
    if request.Create? then Some(request.repositoryId)
    else if request.Retry? && source.Some? then Some(source.value.repositoryId)
    else None
  }

  /** The job that the user already has under the key answers or refuses the request; nothing else is looked at. */
  lemma KnownKeyOutcome(db: Db, user: UserId, key: Key, request: Request, source: Option<Job>, id: JobId,
                        version: Version, now: Time, j: JobId)
    requires OneJobPerKey(db) && j in db.jobs && db.jobs[j].userId == user && db.jobs[j].idempotencyKey == key
    ensures AcceptJob(db, user, key, request, source, id, version, now) ==
            if db.jobs[j].request == request then Replayed(j) else IdempotencyKeyReused
  {
    hide IsRateLimited, CreateExclusive, RequestedJob;
  }

  /**
   Each outcome of a request under a new key happens if and only if its condition holds: over the limit, no source to
   retry, not the user's repository, no tokens, an active job that is not stale, or none of these.
   */
  lemma NewKeyOutcome(db: Db, user: UserId, key: Key, request: Request, source: Option<Job>, id: JobId,
                      version: Version, now: Time)
    requires RowsOk(db) && IsNewKey(db, user, key)
    ensures var outcome := AcceptJob(db, user, key, request, source, id, version, now);
            var below := IsBelowLimit(db, user, now);
            var wanted := Wanted(request, source);
            var owned := wanted.Some? && IsOwned(db, user, wanted.value);
            var free := wanted.Some? && IsFree(db, wanted.value, now) && id !in db.jobs;
            && (outcome.RateLimited? <==> !below)
            && (outcome.JobNotFound? <==> below && wanted.None?)
            && (outcome.RepositoryNotFound? <==> below && wanted.Some? && !owned)
            && (outcome.NoTokens? <==> below && owned && !IsFunded(db, user))
            && (outcome.ActiveJobExists? <==> below && owned && IsFunded(db, user) && !free)
            && (outcome.Accepted? <==> below && owned && IsFunded(db, user) && free)
            && !outcome.Replayed? && !outcome.IdempotencyKeyReused?
  {
    hide RowsOk, CreateExclusive, RequestedJob, IsFree, IsBelowLimit, IsRateLimited;
    LimitIff(db, user, now);
    if Wanted(request, source).Some? && IsOwned(db, user, Wanted(request, source).value) {
      var row := RequestedJob(db, user, key, request, source, Wanted(request, source).value, version, now);
      RequestedRow(db, user, key, request, source, Wanted(request, source).value, version, now);
      ExclusiveIff(db, id, row, now);
    }
  }

  lemma LimitIff(db: Db, user: UserId, now: Time)
    ensures IsRateLimited(db, user, now) <==> !IsBelowLimit(db, user, now)
  {
    assert RecentCreations(db, user, now) ==
           set j | j in db.jobs && db.jobs[j].userId == user && !IsSyncJob(db.jobs[j]) &&
                   now < db.jobs[j].createdAt + 60_000;
  }

  lemma RequestedRow(db: Db, user: UserId, key: Key, request: Request, source: Option<Job>, repository: RepositoryId,
                     version: Version, now: Time)
    requires repository in db.repositories
    ensures var row := RequestedJob(db, user, key, request, source, repository, version, now);
            IsRequested(db, row, user, key, request, source, repository, version, now)
  {
    hide RowOk;
  }

  /**
   The row of a new job. A retry repeats the window of its source; any other job takes the window from the repository's
   last synchronization to now.
   */
  predicate IsRequested(db: Db, row: Job, user: UserId, key: Key, request: Request, source: Option<Job>,
                        repository: RepositoryId, version: Version, now: Time)
    requires repository in db.repositories
  {
    && row.status == Queued && row.userId == user && row.repositoryId == repository && row.idempotencyKey == key
    && row.request == request && row.version == version && row.createdAt == now && row.updatedAt == now
    && row.sourceCursor ==
         (if source.Some? then source.value.sourceCursor else db.repositories[repository].lastSyncTime)
    && row.collectionCutoff == (if source.Some? then source.value.collectionCutoff else now)
    && row.attemptCount == 0 && row.maxAttempts == 5 && row.publishAttempts == 0
    && row.reservedTokens.None? && row.estimatedTokens.None? && row.tokensSettledAt.None? && !HasBillingEvidence(row)
    && row.leaseToken.None? && row.leaseExpiresAt.None? && row.messagePublishedAt.None? && row.nextPublishAt.None?
    && row.lastErrorCode.None? && row.errorRetryable.None? && row.startedAt.None? && row.completedAt.None?
  }

  /** What an acceptance does to the tables: the new row, the stale rows of its repository failed, and nothing else. */
  lemma AcceptedTables(db: Db, user: UserId, key: Key, request: Request, source: Option<Job>, id: JobId,
                       version: Version, now: Time)
    requires RowsOk(db) && AcceptJob(db, user, key, request, source, id, version, now).Accepted?
    ensures var after := AcceptJob(db, user, key, request, source, id, version, now).db;
            var wanted := Wanted(request, source);
            && wanted.Some? && wanted.value in db.repositories && id !in db.jobs
            && after == db.(jobs := after.jobs) && after.jobs.Keys == db.jobs.Keys + {id}
            && IsRequested(db, after.jobs[id], user, key, request, source, wanted.value, version, now)
            && (forall j | j in db.jobs ::
                  after.jobs[j] ==
                    if db.jobs[j].repositoryId == wanted.value then RecoverStale(db.jobs[j], now) else db.jobs[j])
  {
    hide RowsOk, RequestedJob, RecoverStaleJobs, CreateExclusive, IsFree, IsRateLimited, IsRequested, RecoverStale;
    var repository := Wanted(request, source).value;
    var row := RequestedJob(db, user, key, request, source, repository, version, now);
    RequestedRow(db, user, key, request, source, repository, version, now);
    RequestedFor(db, row, user, key, request, source, repository, version, now);
    ExclusiveIff(db, id, row, now);
    RecoveredKeys(db, repository, now);
    var recovered := RecoverStaleJobs(db, repository, now);
    forall j | j in db.jobs
      ensures recovered.jobs[j] ==
              if db.jobs[j].repositoryId == repository then RecoverStale(db.jobs[j], now) else db.jobs[j]
    {
      RecoveredJob(db, repository, now, j);
    }
  }

  lemma RequestedFor(db: Db, row: Job, user: UserId, key: Key, request: Request, source: Option<Job>,
                     repository: RepositoryId, version: Version, now: Time)
    requires repository in db.repositories && IsRequested(db, row, user, key, request, source, repository, version, now)
    ensures row.repositoryId == repository
  {
  }
}
