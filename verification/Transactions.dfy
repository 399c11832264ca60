/** The multi-table transactions: analysis.service.ts and settleFailure. `None` means rolled back. */
module Transactions {
  import opened Basics
  import opened JobRow
  import opened JobStatements
  import opened WorkerStatements
  import opened StatService
  import opened Ledger

  /** What a completion action writes to repositories.lastSyncTime. */
  datatype Completion =
    | NoCompletion
    | WorkerCheckpoint(collectionCutoff: Time)
    | SyncCheckpoint(syncStartedAt: Time)

  function Advanced(lastSyncTime: Option<Time>, cutoff: Time): Option<Time> {
    if lastSyncTime.None? || lastSyncTime.value < cutoff then Some(cutoff) else lastSyncTime
  }

  function Complete(db: Db, user: UserId, repository: RepositoryId, completion: Completion): (r: Db)
    requires repository in db.repositories
    ensures r == db.(repositories := r.repositories) && r.repositories.Keys == db.repositories.Keys
    ensures forall k | k in db.repositories ::
              SyncTimeAdvances(db.repositories[k].lastSyncTime, r.repositories[k].lastSyncTime)
  {
    var row := db.repositories[repository];
    match completion
    case NoCompletion => db
    case WorkerCheckpoint(cutoff) =>
      if row.ownerId == user
      then db.(repositories := db.repositories[repository := row.(lastSyncTime := Advanced(row.lastSyncTime, cutoff))])
      else db
    case SyncCheckpoint(startedAt) =>
      db.(repositories := db.repositories[repository := row.(lastSyncTime := Advanced(row.lastSyncTime, startedAt))])
  }

  /** `latest` is the later of the two moments. */
  predicate IsLatest(earlier: Option<Time>, until: Time, latest: Option<Time>) {
    && latest.Some? && until <= latest.value && (earlier.Some? ==> earlier.value <= latest.value)
    && (latest == earlier || latest == Some(until))
  }

  /**
   What a completion does to the repositories. A worker's checkpoint counts only while the user still owns the
   repository, a synchronous run's always; then lastSyncTime becomes the later of itself and the end of the window, be
   it the first or not. Nothing else changes.
   */
  predicate CheckpointOk(before: map<RepositoryId, Repository>, after: map<RepositoryId, Repository>, user: UserId,
                         repository: RepositoryId, completion: Completion)
    requires repository in before
  {
    && after.Keys == before.Keys
    && after[repository].ownerId == before[repository].ownerId
    && (forall r | r in before && r != repository :: after[r] == before[r])
    && match completion
       case NoCompletion => after[repository] == before[repository]
       case WorkerCheckpoint(until) =>
         if before[repository].ownerId == user
         then IsLatest(before[repository].lastSyncTime, until, after[repository].lastSyncTime)
         else after[repository] == before[repository]
       case SyncCheckpoint(until) => IsLatest(before[repository].lastSyncTime, until, after[repository].lastSyncTime)
  }

  lemma CompletionChecks(db: Db, user: UserId, repository: RepositoryId, completion: Completion)
    requires repository in db.repositories
    ensures CheckpointOk(db.repositories, Complete(db, user, repository, completion).repositories, user, repository,
                         completion)
  {
  }

  datatype ReserveOutcome = Insufficient | StaleReservation | ReservedIn(db: Db)

  /** The debit and the reservation of ensureWorkerTokenReservation, in one transaction. */
  function Reserve(db: Db, id: JobId, token: Token, context: Job, estimated: int, reserved: int,
                   now: Time): ReserveOutcome {
    if !(context.userId in db.balances && db.balances[context.userId] >= reserved) then Insufficient
    else if id !in db.jobs then StaleReservation
    else
      match ReserveTokens(db.jobs[id], token, context, estimated, reserved, now)
      case None => StaleReservation
      case Some(row) => ReservedIn(Credit(Put(db, id, row), context.userId, -reserved))
  }

  /** The arguments of terminateWorkerJob. */
  datatype Termination = Termination(
    errorCode: ErrorCode,
    usage: Option<Usage>,
    refundTokens: int,
    requestIds: seq<RequestId>,
    tokensSettled: bool,
    additionalDebitTokens: int,
    completion: Completion)

  /** A termination before anything was billed: zero usage, whole reservation refunded. */
  function Unbilled(context: Job, code: ErrorCode, completion: Completion): Termination {
    Termination(code, Some(ZERO_TOKEN_USAGE), context.reservedTokens.GetOr(0), [], true, 0, completion)
  }

  /** terminateProviderReconciliation: settle a billed response by its usage, or leave it unsettled. */
  function Reconciliation(context: Job, requestId: Option<RequestId>, usage: Option<Usage>): Termination {
    var ids := if requestId.None? then [] else [requestId.value];
    if usage.Some? && context.reservedTokens.Some? && usage.value.totalTokens > context.reservedTokens.value
    then Termination(TokenBudgetExceeded, usage, 0, ids, true, usage.value.totalTokens - context.reservedTokens.value,
                     NoCompletion)
    else
      var refund :=
        if usage.None? || context.reservedTokens.None? || usage.value.totalTokens >= context.reservedTokens.value then 0
        else context.reservedTokens.value - usage.value.totalTokens;
      Termination(ProviderReconciliationRequired, usage, refund, ids, usage.Some? &&
                  context.reservedTokens.Some?, 0, NoCompletion)
  }

  /** terminateWorkerJob. */
  function Terminate(db: Db, id: JobId, token: Token, context: Job, t: Termination, now: Time): Option<Db> {
    if context.userId !in db.balances || id !in db.jobs || context.repositoryId !in db.repositories then None else
    var short := t.additionalDebitTokens > 0 && db.balances[context.userId] < t.additionalDebitTokens;
    var settled := t.tokensSettled && !short;
    var debit := if t.additionalDebitTokens > 0 && !short then t.additionalDebitTokens else 0;
    var refund := if settled && t.refundTokens > 0 then t.refundTokens else 0;
    if settled && t.usage.None? then None
    else if t.usage.Some? && !IsValidUsage(t.usage.value) then None
    else
      var code := if settled then t.errorCode else ProviderReconciliationRequired;
      match ToFailed(db.jobs[id], token, context, t.usage, t.requestIds, settled, code, now)
      case None => None
      case Some(row) =>
        Some(Complete(Credit(Put(db, id, row), context.userId, refund - debit), context.userId, context.repositoryId,
                      t.completion))
  }

  /** Report, statistics, refund, SUCCEEDED and checkpoint, in one transaction. */
  function Succeed(db: Db, id: JobId, token: Token, context: Job, requestId: RequestId, usage: Usage, scores: Scores,
                   completion: Completion, now: Time): Option<Db>
  {
    if || id in db.reports || id !in db.jobs || context.reservedTokens.None? || !IsValidUsage(usage)
       || context.userId !in db.balances || context.repositoryId !in db.repositories
    then None
    else
      match ToSucceeded(db.jobs[id], token, context, requestId, usage, now)
      case None => None
      case Some(row) =>
        var refund := context.reservedTokens.value - usage.totalTokens;
        var reported := Put(db, id, row).(
          reports := db.reports[id := Report(context.userId, context.repositoryId)],
          stats := db.stats[context.userId := UpdatedStat(StatOf(db, context.userId), scores)]);
        Some(Complete(Credit(reported, context.userId, if refund > 0 then refund else 0),
                      context.userId, context.repositoryId, completion))
  }

  datatype SettleOutcome = NotSettled | EvidenceFound | SettledIn(db: Db)

  /** settleFailure: terminalize an unbilled job and refund its reservation. */
  function SettleJob(db: Db, id: JobId, expectedStatus: Status, expectedToken: Option<Token>, code: ErrorCode,
                     retryable: bool, now: Time): SettleOutcome
  {
    if id !in db.jobs then NotSettled
    else
      var job := db.jobs[id];
      match SettleFailure(job, expectedStatus, expectedToken, code, retryable, now)
      case NotOwned => NotSettled
      case RequiresReconciliation => EvidenceFound
      case Settled(row) =>
        var refund := if job.reservedTokens.Some? && job.reservedTokens.value > 0 then job.reservedTokens.value else 0;
        if job.userId in db.balances then SettledIn(Credit(Put(db, id, row), job.userId, refund)) else NotSettled
  }

  /** recoverStaleActiveJobs for one repository. */
  function RecoverStaleJobs(db: Db, repository: RepositoryId, now: Time): Db {
    db.(jobs := map j | j in db.jobs ::
      if db.jobs[j].repositoryId == repository then RecoverStale(db.jobs[j], now) else db.jobs[j])
  }
}
