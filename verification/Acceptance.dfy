/** Job acceptance: analysis-job-api.service.ts, analysis-job-api.repository.ts and createExclusive. */
module Acceptance {
  import opened Basics
  import opened JobRow
  import opened Ledger
  import opened Transactions

  const CREATION_RATE_LIMIT: nat := 5
  const CREATION_RATE_LIMIT_WINDOW_MS: Time := 60_000
  const MAX_ATTEMPTS: nat := 5

  /** The row that `create` inserts; `version` is the execution version of the deployment that inserts it. */
  function NewJob(user: UserId, repository: RepositoryId, key: Key, request: Request, sourceCursor: Option<Time>,
                  collectionCutoff: Time, version: Version, now: Time): (r: Job)
    ensures RowOk(r) && IsFreshRow(r)
  {
    Job(Queued, user, repository, key, request, sourceCursor, collectionCutoff, version, None, None, None, None, None,
        None, [],
        0, None, None, 0, MAX_ATTEMPTS, None, None, None, None, None, None, now, now)
  }

  ghost predicate HasActiveJob(db: Db, repository: RepositoryId) {
    exists j :: j in db.jobs && db.jobs[j].repositoryId == repository && IsActive(db.jobs[j])
  }

  ghost predicate KeyTaken(db: Db, user: UserId, key: Key) {
    exists j :: j in db.jobs && db.jobs[j].userId == user && db.jobs[j].idempotencyKey == key
  }

  /** createExclusive around one insert: recover stale jobs, refuse an active one, insert. */
  ghost function CreateExclusive(db: Db, id: JobId, row: Job, now: Time): Option<Db> {
    var recovered := RecoverStaleJobs(db, row.repositoryId, now);
    if HasActiveJob(recovered, row.repositoryId) || id in db.jobs || KeyTaken(db, row.userId, row.idempotencyKey)
    then None
    else Some(Put(recovered, id, row))
  }

  predicate FailsAtMost(before: Job, after: Job) {
    && RowOk(after) && SameRequest(before, after)
    && (IsActive(after) ==> IsActive(before))
    && (after.status == Succeeded <==> before.status == Succeeded)
  }

  lemma FailingRowsKeeps(db: Db, after: Db)
    requires DbOk(db) && after == db.(jobs := after.jobs) && after.jobs.Keys == db.jobs.Keys
    requires forall j | j in db.jobs :: FailsAtMost(db.jobs[j], after.jobs[j])
    ensures DbOk(after)
  {
    hide RowOk;
    assert RowsOk(after);
    assert ReportsOk(after);
    assert OneActivePerRepository(after);
    assert OneJobPerKey(after);
  }

  lemma RecoveredRow(db: Db, repository: RepositoryId, now: Time, j: JobId)
    requires RowsOk(db) && j in db.jobs
    ensures var row := RecoverStaleJobs(db, repository, now).jobs[j];
            RowStep(db.jobs[j], row, None) && PublishUntouched(db.jobs[j], row) && Held(row) == Held(db.jobs[j]) &&
            FailsAtMost(db.jobs[j], row)
  {
    RowStepKeepsRow(db.jobs[j], RecoverStaleJobs(db, repository, now).jobs[j], None);
  }

  /** What the bulk recovery leaves: the same rows, each by a step of no lease holder, holding the same tokens. */
  ghost predicate RecoveredFrom(db: Db, after: Db) {
    && after == db.(jobs := after.jobs)
    && after.jobs.Keys == db.jobs.Keys
    && (forall j | j in db.jobs ::
          RowStep(db.jobs[j], after.jobs[j], None) && PublishUntouched(db.jobs[j], after.jobs[j]) &&
          Held(after.jobs[j]) == Held(db.jobs[j]) && SameRequest(db.jobs[j], after.jobs[j]))
  }

  lemma RecoverStaleJobsKeeps(db: Db, repository: RepositoryId, now: Time)
    requires DbOk(db)
    ensures DbOk(RecoverStaleJobs(db, repository, now)) && RecoveredFrom(db, RecoverStaleJobs(db, repository, now))
  {
    var after := RecoverStaleJobs(db, repository, now);
    hide RowOk, RowStep, PublishUntouched, Held, SameRequest, IsActive;
    forall j | j in db.jobs
      ensures RowStep(db.jobs[j], after.jobs[j], None) && PublishUntouched(db.jobs[j], after.jobs[j])
      ensures Held(after.jobs[j]) == Held(db.jobs[j]) && FailsAtMost(db.jobs[j], after.jobs[j])
    {
      RecoveredRow(db, repository, now, j);
    }
    FailingRowsKeeps(db, after);
  }

  lemma KeyStaysFree(db: Db, recovered: Db, user: UserId, key: Key)
    requires !KeyTaken(db, user, key) && RecoveredFrom(db, recovered)
    ensures !KeyTaken(recovered, user, key)
  {
    hide RowStep, PublishUntouched, Held;
  }

  lemma InsertGuarantee(db: Db, recovered: Db, id: JobId, row: Job)
    requires RecoveredFrom(db, recovered) && id !in db.jobs && IsFreshRow(row)
    ensures var after := Put(recovered, id, row);
            Guarantee(db, after, None) && PublishQuiet(db, after) && Balanced(db, after, id) &&
              OtherTablesSame(db, after) &&
            after.jobs.Keys == db.jobs.Keys + {id}
  {
    hide RowStep, PublishUntouched, Held, IsFreshRow;
  }

  lemma CreateExclusiveKeeps(db: Db, id: JobId, row: Job, now: Time)
    requires DbOk(db) && CreateExclusive(db, id, row, now).Some?
    requires RowOk(row) && IsFreshRow(row) && row.userId in db.balances && row.repositoryId in db.repositories
    ensures var after := CreateExclusive(db, id, row, now).value;
            DbOk(after) && Guarantee(db, after, None) && PublishQuiet(db, after) && Balanced(db, after, id) &&
            after.jobs.Keys == db.jobs.Keys + {id} && after.jobs[id] == row && id !in db.jobs &&
            OtherTablesSame(db, after)
  {
    var recovered := RecoverStaleJobs(db, row.repositoryId, now);
    RecoverStaleJobsKeeps(db, row.repositoryId, now);
    assert CreateExclusive(db, id, row, now) == Some(Put(recovered, id, row));
    assert id !in recovered.jobs && row.userId in recovered.balances && row.repositoryId in recovered.repositories;
    hide RowOk, RowStep, PublishUntouched, Held, DbOk, SameRequest, Guarantee, PublishQuiet, Balanced, IsFreshRow,
      KeyTaken, HasActiveJob, RecoverStaleJobs, OtherTablesSame, RecoveredFrom;
    KeyStaysFree(db, recovered, row.userId, row.idempotencyKey);
    InsertKeeps(recovered, id, row);
    InsertGuarantee(db, recovered, id, row);
  }

  lemma InsertKeeps(db: Db, id: JobId, row: Job)
    requires DbOk(db) && id !in db.jobs && !HasActiveJob(db, row.repositoryId)
    requires !KeyTaken(db, row.userId, row.idempotencyKey)
    requires RowOk(row) && IsFreshRow(row) && row.userId in db.balances && row.repositoryId in db.repositories
    ensures DbOk(Put(db, id, row))
  {
    var after := Put(db, id, row);
    hide RowOk, Held, OneActivePerRepository, OneJobPerKey;
    assert RowsOk(after);
    InsertedReports(db, id, row);
    InsertedIsAlone(db, id, row);
  }

  lemma InsertedReports(db: Db, id: JobId, row: Job)
    requires RowsOk(db) && ReportsOk(db) && id !in db.jobs && IsFreshRow(row)
    ensures ReportsOk(Put(db, id, row))
  {
    hide RowOk, Held;
    assert id !in db.reports;
  }

  lemma InsertedIsAlone(db: Db, id: JobId, row: Job)
    requires OneActivePerRepository(db) && OneJobPerKey(db) && id !in db.jobs
    requires !HasActiveJob(db, row.repositoryId) && !KeyTaken(db, row.userId, row.idempotencyKey)
    ensures OneActivePerRepository(Put(db, id, row)) && OneJobPerKey(Put(db, id, row))
  {
  }

  /** The rows that getCreationRateLimitStatus counts for a transaction stamped `now`. */
  ghost function RecentCreations(db: Db, user: UserId, now: Time): set<JobId> {
    set j | j in db.jobs && db.jobs[j].userId == user && !IsSyncJob(db.jobs[j]) &&
            db.jobs[j].createdAt > now - CREATION_RATE_LIMIT_WINDOW_MS
  }

  ghost predicate IsRateLimited(db: Db, user: UserId, now: Time) {
    |RecentCreations(db, user, now)| >= CREATION_RATE_LIMIT
  }

  /** The retry endpoint's condition on the source job. */
  predicate IsRetryable(job: Job) {
    job.status == Failed && job.errorRetryable == Some(true)
  }

  datatype AcceptOutcome =
    | Replayed(id: JobId)
    | IdempotencyKeyReused
    | RateLimited
    | JobNotFound
    | RepositoryNotFound
    | NoTokens
    | ActiveJobExists
    | Accepted(db: Db)

  ghost function ExistingJob(db: Db, user: UserId, key: Key): Option<JobId> {
    if KeyTaken(db, user, key)
    then var j :| j in db.jobs && db.jobs[j].userId == user && db.jobs[j].idempotencyKey == key; Some(j)
    else None
  }

  function TargetRepository(request: Request, retrySource: Option<Job>): Option<RepositoryId> {
    match request
    case Create(repository) => Some(repository)
    case Retry(_) => if retrySource.Some? then Some(retrySource.value.repositoryId) else None
    case SyncRequest => None
  }

  /** A retry keeps the window of its source; a new job starts where the repository was last synchronized. */
  function RequestedJob(db: Db, user: UserId, key: Key, request: Request, retrySource: Option<Job>,
                        repository: RepositoryId, version: Version, now: Time): Job
    requires repository in db.repositories
  {
    if retrySource.Some?
    then NewJob(user, repository, key, request, retrySource.value.sourceCursor, retrySource.value.collectionCutoff,
                version, now)
    else NewJob(user, repository, key, request, db.repositories[repository].lastSyncTime, now, version, now)
  }

  /** acceptJob; `now` is the timestamp of its transaction. */
  ghost function AcceptJob(db: Db, user: UserId, key: Key, request: Request, retrySource: Option<Job>, id: JobId,
                           version: Version, now: Time): AcceptOutcome
  {
    var existing := ExistingJob(db, user, key);
    var target := TargetRepository(request, retrySource);
    if existing.Some? && existing.value in db.jobs then
      if db.jobs[existing.value].request == request then Replayed(existing.value) else IdempotencyKeyReused
    else if IsRateLimited(db, user, now) then RateLimited
    else if target.None? then JobNotFound
    else if target.value !in db.repositories || db.repositories[target.value].ownerId != user then RepositoryNotFound
    else if user !in db.balances || db.balances[user] <= 0 then NoTokens
    else
      match CreateExclusive(db, id, RequestedJob(db, user, key, request, retrySource, target.value, version, now), now)
      case None => ActiveJobExists
      case Some(after) => Accepted(after)
  }

  lemma AcceptJobKeeps(db: Db, user: UserId, key: Key, request: Request, retrySource: Option<Job>, id: JobId,
                       version: Version, now: Time)
    requires DbOk(db) && AcceptJob(db, user, key, request, retrySource, id, version, now).Accepted?
    ensures var after := AcceptJob(db, user, key, request, retrySource, id, version, now).db;
            var target := TargetRepository(request, retrySource);
            target.Some? && target.value in db.repositories &&
            DbOk(after) && Guarantee(db, after, None) && PublishQuiet(db, after) && Balanced(db, after, id) &&
            after.jobs.Keys == db.jobs.Keys + {id} && id !in db.jobs && OtherTablesSame(db, after) &&
            after.jobs[id] == RequestedJob(db, user, key, request, retrySource, target.value, version, now) &&
            !IsRateLimited(db, user, now)
  {
    var target := TargetRepository(request, retrySource).value;
    var row := RequestedJob(db, user, key, request, retrySource, target, version, now);
    hide DbOk, Guarantee, PublishQuiet, Balanced, OtherTablesSame, CreateExclusive;
    CreateExclusiveKeeps(db, id, row, now);
  }

  // -----------------------------------------------------------------
  // The rolling rate limit
  // -----------------------------------------------------------------

  /** Jobs a user had accepted with createdAt in the window of 60 seconds that starts at `from`. */
  ghost function CreatedWithin(db: Db, user: UserId, from: Time): set<JobId> {
    set j | j in db.jobs && db.jobs[j].userId == user && !IsSyncJob(db.jobs[j]) &&
            from <= db.jobs[j].createdAt < from + CREATION_RATE_LIMIT_WINDOW_MS
  }

  /** No 60-second window of createdAt values holds more than five of a user's accepted jobs. */
  ghost predicate RateOk(db: Db) {
    forall user, from :: |CreatedWithin(db, user, from)| <= CREATION_RATE_LIMIT
  }

  /** Rows keep the columns they were inserted with. */
  ghost predicate CarriesRequests(before: Db, after: Db) {
    forall j | j in before.jobs :: j in after.jobs && SameRequest(before.jobs[j], after.jobs[j])
  }

  lemma GuaranteeCarries(before: Db, after: Db, token: Option<Token>)
    requires Guarantee(before, after, token)
    ensures CarriesRequests(before, after)
  {
    hide RowOk;
  }

  /** Steps that insert no accepted job keep every window's population. */
  lemma RateKept(before: Db, after: Db)
    requires RateOk(before) && CarriesRequests(before, after)
    requires forall j | j in after.jobs && j !in before.jobs :: IsSyncJob(after.jobs[j])
    ensures RateOk(after)
  {
    forall user, from ensures |CreatedWithin(after, user, from)| <= CREATION_RATE_LIMIT {
      assert CreatedWithin(after, user, from) == CreatedWithin(before, user, from);
    }
  }

  lemma WindowAfterAcceptance(before: Db, after: Db, id: JobId, user: UserId, from: Time)
    requires CarriesRequests(before, after) && after.jobs.Keys == before.jobs.Keys + {id} && id !in before.jobs
    ensures CreatedWithin(after, user, from) ==
            CreatedWithin(before, user, from) + (if id in CreatedWithin(after, user, from) then {id} else {})
  {
  }

  /**
   Whatever the order of the timestamps: the job accepted last finds every other job of its window already counted.
   */
  lemma RateKeptByAcceptance(before: Db, after: Db, id: JobId, now: Time)
    requires RateOk(before) && CarriesRequests(before, after)
    requires after.jobs.Keys == before.jobs.Keys + {id} && id !in before.jobs && after.jobs[id].createdAt == now
    requires !IsRateLimited(before, after.jobs[id].userId, now)
    ensures RateOk(after)
  {
    forall user, from ensures |CreatedWithin(after, user, from)| <= CREATION_RATE_LIMIT {
      WindowAfterAcceptance(before, after, id, user, from);
      hide CarriesRequests;
      if id in CreatedWithin(after, user, from) {
        SubsetSize(CreatedWithin(before, user, from), RecentCreations(before, user, now));
      }
    }
  }
}
