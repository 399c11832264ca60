/**
 The tables as one mutable object, and the repositories' methods on it in the order in which they read and write.
 Each method is proved against the value that the protocol uses for the same statement or transaction.
 */
module Database {
  import opened Basics
  import opened JobRow
  import opened JobStatements
  import opened WorkerStatements
  import opened StatService
  import opened Ledger
  import opened Transactions
  import opened Acceptance
  import opened Protocol

  class Tables {
    var balances: map<UserId, int>
    var jobs: map<JobId, Job>
    var repositories: map<RepositoryId, Repository>
    var reports: map<JobId, Report>
    var stats: map<UserId, UserStat>

    function Snapshot(): Db
      reads this
    {
      Db(balances, jobs, repositories, reports, stats)
    }

    constructor (db: Db)
      ensures Snapshot() == db
    {
      balances, jobs, repositories, reports, stats := db.balances, db.jobs, db.repositories, db.reports, db.stats;
    }

    /** ROLLBACK to the snapshot taken when the transaction began. */
    method Rollback(db: Db)
      modifies this
      ensures Snapshot() == db
    {
      balances, jobs, repositories, reports, stats := db.balances, db.jobs, db.repositories, db.reports, db.stats;
    }

    /** updateMany on one primary key: `row` is the row after the update, if the WHERE clause holds. */
    method UpdateJob(id: JobId, row: Option<Job>) returns (count: nat)
      modifies this`jobs
      ensures count == (if id in old(jobs) && row.Some? then 1 else 0)
      ensures jobs == if id in old(jobs) && row.Some? then old(jobs)[id := row.value] else old(jobs)
    {
      if id in jobs && row.Some? {
        jobs := jobs[id := row.value];
        return 1;
      }
      return 0;
    }

    /** updateMany on users, guarded by availableTokens >= amount. */
    method DebitIfCovered(user: UserId, amount: int) returns (count: nat)
      modifies this`balances
      ensures count == (if user in old(balances) && old(balances)[user] >= amount then 1 else 0)
      ensures balances == if count == 1 then old(balances)[user := old(balances)[user] - amount] else old(balances)
    {
      if user in balances && balances[user] >= amount {
        balances := balances[user := balances[user] - amount];
        return 1;
      }
      return 0;
    }

    method Increment(user: UserId, amount: int)
      requires user in balances
      modifies this`balances
      ensures balances == old(balances)[user := old(balances)[user] + amount]
    {
      balances := balances[user := balances[user] + amount];
    }

    // ----- stat.service.ts -----

    /** updateStats: read the row, then create it or update it in place. */
    method UpdateStats(user: UserId, metrics: Scores)
      modifies this`stats
      ensures stats == old(stats)[user := UpdatedStat(StatOf(old(Snapshot()), user), metrics)]
    {
      if user !in stats {
        stats := stats[user := UserStat(metrics, 1)];
      } else {
        var existing := stats[user];
        var blended := BlendScores(existing.scores, metrics);
        stats := stats[user := existing.(scores := blended, analysisCount := existing.analysisCount + 1)];
      }
    }

    // ----- the completion actions -----

    /** advanceRepositoryCheckpoint, or the synchronous path's own checkpoint. */
    method CompleteRepository(user: UserId, repository: RepositoryId, completion: Completion)
      requires repository in repositories
      modifies this`repositories
      ensures Snapshot() == Complete(old(Snapshot()), user, repository, completion)
      ensures CheckpointOk(old(repositories), repositories, user, repository, completion)
    {
      CompletionChecks(Snapshot(), user, repository, completion);
      var row := repositories[repository];
      match completion {
        case NoCompletion =>
        case WorkerCheckpoint(cutoff) =>
          if row.ownerId == user && (row.lastSyncTime.None? || row.lastSyncTime.value < cutoff) {
            repositories := repositories[repository := row.(lastSyncTime := Some(cutoff))];
          }
        case SyncCheckpoint(startedAt) =>
          if row.lastSyncTime.None? || row.lastSyncTime.value < startedAt {
            repositories := repositories[repository := row.(lastSyncTime := Some(startedAt))];
          }
      }
      assert repositories == Complete(old(Snapshot()), user, repository, completion).repositories;
    }

    // ----- analysis.service.ts -----

    /** The transaction of ensureWorkerTokenReservation: debit, then reserve; roll back when the lease is stale. */
    method ReserveInTransaction(id: JobId, token: Token, context: Job, estimated: int, reserved: int, now: Time)
      returns (outcome: ReserveOutcome)
      modifies this
      ensures outcome == Reserve(old(Snapshot()), id, token, context, estimated, reserved, now)
      ensures Snapshot() == if outcome.ReservedIn? then outcome.db else old(Snapshot())
    {
      var begin := Snapshot();
      var debited := DebitIfCovered(context.userId, reserved);
      if debited != 1 {
        return Insufficient;
      }
      var row := if id in jobs then JobStatements.ReserveTokens(jobs[id], token, context, estimated, reserved, now)
        else None;
      var count := UpdateJob(id, row);
      if count != 1 {
        Rollback(begin);
        return StaleReservation;
      }
      outcome := ReservedIn(Snapshot());
      assert Snapshot() == Credit(Put(begin, id, row.value), context.userId, -reserved);
    }

    /** terminateWorkerJob: extra debit if the user can pay it, refund, FAILED, completion; all or nothing. */
    method TerminateWorkerJob(id: JobId, token: Token, context: Job, t: Termination, now: Time)
      returns (committed: bool)
      requires context.userId in balances && context.repositoryId in repositories
      modifies this
      ensures committed == Terminate(old(Snapshot()), id, token, context, t, now).Some?
      ensures Snapshot() == if committed then Terminate(old(Snapshot()), id, token, context, t, now).value
                else old(Snapshot())
    {
      hide RowOk, RowStep, PublishUntouched, IsValidUsage, ToFailed, Complete, CheckpointOk, Terminate;
      var begin := Snapshot();
      TerminatesIff(begin, id, token, context, t, now);
      var code, settled := t.errorCode, t.tokensSettled;
      if t.additionalDebitTokens > 0 {
        var debited := DebitIfCovered(context.userId, t.additionalDebitTokens);
        if debited != 1 {
          code, settled := ProviderReconciliationRequired, false;
        }
      }
      if settled && t.refundTokens > 0 {
        Increment(context.userId, t.refundTokens);
      }
      if settled && t.usage.None? {
        Rollback(begin);
        return false;
      }
      if t.usage.Some? && !IsValidUsage(t.usage.value) {
        Rollback(begin);
        return false;
      }
      if !settled {
        code := ProviderReconciliationRequired;
      }
      var row := if id in jobs then ToFailed(jobs[id], token, context, t.usage, t.requestIds, settled, code, now)
        else None;
      var count := UpdateJob(id, row);
      if count != 1 {
        Rollback(begin);
        return false;
      }
      ghost var paid := if t.additionalDebitTokens > 0 && begin.balances[context.userId] >= t.additionalDebitTokens
                        then t.additionalDebitTokens else 0;
      ghost var refund := if settled && t.refundTokens > 0 then t.refundTokens else 0;
      assert balances == begin.balances[context.userId := begin.balances[context.userId] - paid + refund];
      TerminatedAs(begin, id, token, context, t, now, settled, Snapshot());
      CompleteRepository(context.userId, context.repositoryId, t.completion);
      committed := true;
    }

    /** Report, statistics, refund, SUCCEEDED, completion; all or nothing. */
    method SaveResult(id: JobId, token: Token, context: Job, requestId: RequestId, usage: Usage, scores: Scores,
                      completion: Completion, now: Time) returns (committed: bool)
      requires context.userId in balances && context.repositoryId in repositories && context.reservedTokens.Some?
      requires IsValidUsage(usage)
      modifies this
      ensures committed == Succeed(old(Snapshot()), id, token, context, requestId, usage, scores, completion, now).Some?
      ensures Snapshot() == if committed then
                Succeed(old(Snapshot()), id, token, context, requestId, usage, scores, completion, now).value
                            else old(Snapshot())
    {
      hide RowOk, RowStep, PublishUntouched, IsValidUsage, ToSucceeded, Complete, CheckpointOk, UpdatedStat, Succeed;
      var begin := Snapshot();
      SavesIff(begin, id, token, context, requestId, usage, scores, completion, now);
      if id in reports {
        return false;
      }
      reports := reports[id := Report(context.userId, context.repositoryId)];
      UpdateStats(context.userId, scores);
      var refund := context.reservedTokens.value - usage.totalTokens;
      if refund > 0 {
        Increment(context.userId, refund);
      }
      var row := if id in jobs then ToSucceeded(jobs[id], token, context, requestId, usage, now) else None;
      var count := UpdateJob(id, row);
      if count != 1 {
        Rollback(begin);
        return false;
      }
      assert balances == begin.balances[context.userId :=
                                        begin.balances[context.userId] + if refund > 0 then refund else 0];
      SucceededAs(begin, id, token, context, requestId, usage, scores, completion, now, Snapshot());
      CompleteRepository(context.userId, context.repositoryId, completion);
      committed := true;
    }

    // ----- analysis-worker.repository.ts -----

    /** settleFailure: lock and check the row, terminalize it, refund the reservation. */
    method SettleFailureInTransaction(id: JobId, expectedStatus: Status, expectedToken: Option<Token>, code: ErrorCode,
                                      retryable: bool, now: Time)
      returns (outcome: SettleOutcome)
      requires id in jobs ==> jobs[id].userId in balances
      modifies this
      ensures outcome == SettleJob(old(Snapshot()), id, expectedStatus, expectedToken, code, retryable, now)
      ensures Snapshot() == if outcome.SettledIn? then outcome.db else old(Snapshot())
    {
      hide SettleFailure, SettleJob;
      SettledAs(Snapshot(), id, expectedStatus, expectedToken, code, retryable, now);
      outcome := NotSettled;
      if id in jobs {
        var job := jobs[id];
        var decision := SettleFailure(job, expectedStatus, expectedToken, code, retryable, now);
        if decision.RequiresReconciliation? {
          outcome := EvidenceFound;
        } else if decision.Settled? {
          var count := UpdateJob(id, Some(decision.job));
          if job.reservedTokens.Some? && job.reservedTokens.value > 0 {
            Increment(job.userId, job.reservedTokens.value);
          }
          assert balances == old(balances)[job.userId := old(balances)[job.userId] + Refunded(job)];
          outcome := SettledIn(Snapshot());
        }
      }
    }

    /** claim with nobody in between: the decided update always applies, and only an unbilled row spends an attempt. */
    method Claim(id: JobId, token: Token, now: Time, expires: Time) returns (decision: Phase, claimed: bool)
      modifies this`jobs
      ensures decision == ClaimDecision(old(Snapshot()), id, now, expires)
      ensures claimed <==> decision.ClaimSeen?
      ensures (id in old(jobs) ==> RowOk(old(jobs)[id])) && claimed ==>
                && id in old(jobs) && id in jobs && jobs == old(jobs)[id := jobs[id]]
                && jobs[id].leaseToken == Some(token) && jobs[id].status == Running
                && jobs[id].leaseExpiresAt == Some(expires)
                && EvidenceOf(jobs[id]) == EvidenceOf(old(jobs)[id])
                && jobs[id].attemptCount ==
                     old(jobs)[id].attemptCount + (if HasBillingEvidence(old(jobs)[id]) then 0 else 1)
      ensures !claimed ==> Snapshot() == old(Snapshot())
    {
      decision, claimed := ClaimDecision(Snapshot(), id, now, expires), false;
      if decision.ClaimSeen? {
        var seen := decision.seen;
        var row :=
          if seen.status == Queued then ClaimQueued(jobs[id], token, now, expires)
          else if HasBillingEvidence(seen) then TakeOverExpiredBilledLease(jobs[id], seen, token, now, expires)
          else TakeOverExpiredLease(jobs[id], seen, token, now, expires);
        var count := UpdateJob(id, row);
        claimed := true;
      }
    }

    // ----- analysis-job.repository.ts -----

    /** The first bulk update of recoverStaleActiveJobs. */
    method FailBeforeReservations(repository: RepositoryId, now: Time)
      modifies this`jobs
      ensures jobs.Keys == old(jobs).Keys
      ensures forall j | j in jobs :: jobs[j] == AfterFirstUpdate(old(jobs)[j], repository, now)
    {
      hide RowOk, RowStep, PublishUntouched, Held, AbandonedBeforeReservation, FailBeforeReservation;
      var rest := jobs.Keys;
      while rest != {}
        invariant jobs.Keys == old(jobs).Keys && rest <= jobs.Keys
        invariant forall j | j in jobs ::
                    jobs[j] == if j in rest then old(jobs)[j] else AfterFirstUpdate(old(jobs)[j], repository, now)
        decreases rest
      {
        var j :| j in rest;
        if jobs[j].repositoryId == repository && AbandonedBeforeReservation(jobs[j], now) {
          jobs := jobs[j := FailBeforeReservation(jobs[j], now)];
        }
        rest := rest - {j};
      }
    }

    /** The second bulk update of recoverStaleActiveJobs. */
    method FailAfterReservations(repository: RepositoryId, now: Time)
      modifies this`jobs
      ensures jobs.Keys == old(jobs).Keys
      ensures forall j | j in jobs :: jobs[j] == AfterSecondUpdate(old(jobs)[j], repository, now)
    {
      hide RowOk, RowStep, PublishUntouched, Held, AbandonedAfterReservation, FailAfterReservation;
      var rest := jobs.Keys;
      while rest != {}
        invariant jobs.Keys == old(jobs).Keys && rest <= jobs.Keys
        invariant forall j | j in jobs ::
                    jobs[j] == if j in rest then old(jobs)[j] else AfterSecondUpdate(old(jobs)[j], repository, now)
        decreases rest
      {
        var j :| j in rest;
        if jobs[j].repositoryId == repository && AbandonedAfterReservation(jobs[j], now) {
          jobs := jobs[j := FailAfterReservation(jobs[j], now)];
        }
        rest := rest - {j};
      }
    }

    /** recoverStaleActiveJobs: the second bulk update runs over what the first has left. */
    method RecoverStaleActiveJobs(repository: RepositoryId, now: Time)
      modifies this`jobs
      ensures Snapshot() == RecoverStaleJobs(old(Snapshot()), repository, now)
    {
      hide AfterFirstUpdate, AfterSecondUpdate, RecoverStale, RowOk;
      FailBeforeReservations(repository, now);
      FailAfterReservations(repository, now);
      forall j | j in jobs ensures jobs[j] == RecoverStaleJobs(old(Snapshot()), repository, now).jobs[j] {
        BothUpdates(old(jobs)[j], repository, now);
      }
      assert jobs == RecoverStaleJobs(old(Snapshot()), repository, now).jobs;
    }

    /** findFirst over the repository's QUEUED and RUNNING rows. */
    method FindActive(repository: RepositoryId) returns (found: Option<JobId>)
      ensures found.Some? <==> HasActiveJob(Snapshot(), repository)
      ensures found.Some? ==>
                found.value in jobs && jobs[found.value].repositoryId == repository && IsActive(jobs[found.value])
    {
      var rest := jobs.Keys;
      while rest != {}
        invariant rest <= jobs.Keys
        invariant forall j | j in jobs && j !in rest :: !(jobs[j].repositoryId == repository && IsActive(jobs[j]))
        decreases rest
      {
        var j :| j in rest;
        if jobs[j].repositoryId == repository && IsActive(jobs[j]) {
          return Some(j);
        }
        rest := rest - {j};
      }
      return None;
    }

    method FindByIdempotencyKey(user: UserId, key: Key) returns (found: Option<JobId>)
      requires OneJobPerKey(Snapshot())
      ensures found == ExistingJob(Snapshot(), user, key)
    {
      var rest := jobs.Keys;
      while rest != {}
        invariant rest <= jobs.Keys
        invariant forall j | j in jobs && j !in rest :: !(jobs[j].userId == user && jobs[j].idempotencyKey == key)
        decreases rest
      {
        var j :| j in rest;
        if jobs[j].userId == user && jobs[j].idempotencyKey == key {
          assert KeyTaken(Snapshot(), user, key);
          return Some(j);
        }
        rest := rest - {j};
      }
      return None;
    }

    /** getCreationRateLimitStatus: whether the user's recent creations reach the limit. */
    method IsBlocked(user: UserId, now: Time) returns (blocked: bool)
      ensures blocked == IsRateLimited(Snapshot(), user, now)
    {
      var rest, hits := jobs.Keys, 0;
      ghost var counted: set<JobId> := {};
      while rest != {}
        invariant rest <= jobs.Keys && hits == |counted|
        invariant counted == set j | j in RecentCreations(Snapshot(), user, now) && j !in rest
        decreases rest
      {
        var j :| j in rest;
        if jobs[j].userId == user && !IsSyncJob(jobs[j]) && jobs[j].createdAt > now - CREATION_RATE_LIMIT_WINDOW_MS {
          hits := hits + 1;
          counted := counted + {j};
        }
        rest := rest - {j};
      }
      assert counted == RecentCreations(Snapshot(), user, now);
      return hits >= CREATION_RATE_LIMIT;
    }

    /** createExclusive: recover, refuse an active job, insert under the unique keys; all or nothing. */
    method CreateExclusiveInTransaction(id: JobId, row: Job, now: Time) returns (created: bool)
      modifies this
      ensures created == CreateExclusive(old(Snapshot()), id, row, now).Some?
      ensures Snapshot() == if created then CreateExclusive(old(Snapshot()), id, row, now).value else old(Snapshot())
      ensures balances == old(balances) && repositories == old(repositories) && reports == old(reports)
      ensures stats == old(stats)
    {
      var begin := Snapshot();
      RecoverStaleActiveJobs(row.repositoryId, now);
      var active := FindActive(row.repositoryId);
      var taken := KeyIsTaken(row.userId, row.idempotencyKey);
      RecoveryKeepsKeys(begin, row.repositoryId, now, row.userId, row.idempotencyKey);
      if active.Some? || id in jobs || taken {
        Rollback(begin);
        return false;
      }
      jobs := jobs[id := row];
      return true;
    }

    /** The unique index on (userId, idempotencyKey). */
    method KeyIsTaken(user: UserId, key: Key) returns (taken: bool)
      ensures taken == KeyTaken(Snapshot(), user, key)
    {
      var rest := jobs.Keys;
      while rest != {}
        invariant rest <= jobs.Keys
        invariant forall j | j in jobs && j !in rest :: !(jobs[j].userId == user && jobs[j].idempotencyKey == key)
        decreases rest
      {
        var j :| j in rest;
        if jobs[j].userId == user && jobs[j].idempotencyKey == key {
          return true;
        }
        rest := rest - {j};
      }
      return false;
    }

    // ----- analysis-job-api.service.ts -----

    /** acceptJob, in the order of its checks. */
    method AcceptJobInTransaction(user: UserId, key: Key, request: Request, retrySource: Option<Job>, id: JobId,
                                  version: Version, now: Time)
      returns (outcome: AcceptOutcome)
      requires OneJobPerKey(Snapshot())
      modifies this
      ensures outcome == AcceptJob(old(Snapshot()), user, key, request, retrySource, id, version, now)
      ensures Snapshot() == if outcome.Accepted? then outcome.db else old(Snapshot())
    {
      var existing := FindByIdempotencyKey(user, key);
      if existing.Some? && existing.value in jobs {
        if jobs[existing.value].request == request {
          return Replayed(existing.value);
        }
        return IdempotencyKeyReused;
      }
      var blocked := IsBlocked(user, now);
      if blocked {
        return RateLimited;
      }
      var target := TargetRepository(request, retrySource);
      if target.None? {
        return JobNotFound;
      }
      if target.value !in repositories || repositories[target.value].ownerId != user {
        return RepositoryNotFound;
      }
      if user !in balances || balances[user] <= 0 {
        return NoTokens;
      }
      var row := RequestedJob(Snapshot(), user, key, request, retrySource, target.value, version, now);
      var created := CreateExclusiveInTransaction(id, row, now);
      if !created {
        return ActiveJobExists;
      }
      return Accepted(Snapshot());
    }
  }

  /** The row after the first bulk update. */
  function AfterFirstUpdate(job: Job, repository: RepositoryId, now: Time): Job {
    if job.repositoryId == repository && AbandonedBeforeReservation(job, now) then FailBeforeReservation(job, now)
      else job
  }

  /** The row after the second bulk update. */
  function AfterSecondUpdate(job: Job, repository: RepositoryId, now: Time): Job {
    if job.repositoryId == repository && AbandonedAfterReservation(job, now) then FailAfterReservation(job, now)
      else job
  }

  /** A row that the first update has failed is out of the second one's reach. */
  lemma BothUpdates(job: Job, repository: RepositoryId, now: Time)
    ensures AfterSecondUpdate(AfterFirstUpdate(job, repository, now), repository, now) ==
            if job.repositoryId == repository then RecoverStale(job, now) else job
  {
    hide RowOk, RowStep, PublishUntouched, Held;
  }

  /** Recovery changes neither owners nor keys. */
  lemma RecoveryKeepsKeys(db: Db, repository: RepositoryId, now: Time, user: UserId, key: Key)
    ensures KeyTaken(RecoverStaleJobs(db, repository, now), user, key) == KeyTaken(db, user, key)
  {
    var after := RecoverStaleJobs(db, repository, now);
    forall j | j in db.jobs
      ensures after.jobs[j].userId == db.jobs[j].userId && after.jobs[j].idempotencyKey == db.jobs[j].idempotencyKey
    {
    }
    if KeyTaken(db, user, key) {
      var j :| j in db.jobs && db.jobs[j].userId == user && db.jobs[j].idempotencyKey == key;
      assert j in after.jobs;
    }
  }

  /** What ending an unbilled row pays back. */
  function Refunded(job: Job): int {
    if job.reservedTokens.Some? && job.reservedTokens.value > 0 then job.reservedTokens.value else 0
  }

  lemma SettledAs(begin: Db, id: JobId, expectedStatus: Status, expectedToken: Option<Token>, code: ErrorCode,
                  retryable: bool, now: Time)
    requires id in begin.jobs ==> begin.jobs[id].userId in begin.balances
    ensures SettleJob(begin, id, expectedStatus, expectedToken, code, retryable, now) ==
            if id !in begin.jobs then NotSettled
            else
              var job := begin.jobs[id];
              match SettleFailure(job, expectedStatus, expectedToken, code, retryable, now)
              case NotOwned => NotSettled
              case RequiresReconciliation => EvidenceFound
              case Settled(row) => SettledIn(Credit(Put(begin, id, row), job.userId, Refunded(job)))
  {
    hide RowOk, RowStep, PublishUntouched, Held, SettleFailure;
  }

  lemma TerminatesIff(begin: Db, id: JobId, token: Token, context: Job, t: Termination, now: Time)
    requires context.userId in begin.balances && context.repositoryId in begin.repositories
    ensures var short := t.additionalDebitTokens > 0 && begin.balances[context.userId] < t.additionalDebitTokens;
            var settled := t.tokensSettled && !short;
            var code := if settled then t.errorCode else ProviderReconciliationRequired;
            Terminate(begin, id, token, context, t, now).Some? <==>
            && id in begin.jobs && !(settled && t.usage.None?) && (t.usage.Some? ==> IsValidUsage(t.usage.value))
            && ToFailed(begin.jobs[id], token, context, t.usage, t.requestIds, settled, code, now).Some?
  {
    hide RowOk, RowStep, PublishUntouched, IsValidUsage, ToFailed, Complete;
  }

  /** The tables before the completion of a termination. */
  lemma TerminatedAs(begin: Db, id: JobId, token: Token, context: Job, t: Termination, now: Time, settled: bool,
                     failed: Db)
    requires context.userId in begin.balances && context.repositoryId in begin.repositories && id in begin.jobs
    requires var short := t.additionalDebitTokens > 0 && begin.balances[context.userId] < t.additionalDebitTokens;
             settled == (t.tokensSettled && !short)
    requires !(settled && t.usage.None?) && (t.usage.Some? ==> IsValidUsage(t.usage.value))
    requires var code := if settled then t.errorCode else ProviderReconciliationRequired;
             var row := ToFailed(begin.jobs[id], token, context, t.usage, t.requestIds, settled, code, now);
             row.Some? && failed.jobs == begin.jobs[id := row.value]
    requires var short := t.additionalDebitTokens > 0 && begin.balances[context.userId] < t.additionalDebitTokens;
             var paid := if t.additionalDebitTokens > 0 && !short then t.additionalDebitTokens else 0;
             var refund := if settled && t.refundTokens > 0 then t.refundTokens else 0;
             failed.balances == begin.balances[context.userId := begin.balances[context.userId] - paid + refund]
    requires failed == begin.(jobs := failed.jobs, balances := failed.balances)
    ensures Terminate(begin, id, token, context, t, now) ==
            Some(Complete(failed, context.userId, context.repositoryId, t.completion))
  {
    hide RowOk, RowStep, PublishUntouched, IsValidUsage, ToFailed, Complete;
  }

  lemma SavesIff(begin: Db, id: JobId, token: Token, context: Job, requestId: RequestId, usage: Usage, scores: Scores,
                 completion: Completion, now: Time)
    requires context.userId in begin.balances && context.repositoryId in begin.repositories
    requires context.reservedTokens.Some? && IsValidUsage(usage)
    ensures Succeed(begin, id, token, context, requestId, usage, scores, completion, now).Some? <==>
            id !in begin.reports && id in begin.jobs &&
            ToSucceeded(begin.jobs[id], token, context, requestId, usage, now).Some?
  {
    hide RowOk, RowStep, IsValidUsage, UpdatedStat, Complete, ToSucceeded;
  }

  /** The tables before the completion of a success. */
  lemma SucceededAs(begin: Db, id: JobId, token: Token, context: Job, requestId: RequestId, usage: Usage,
                    scores: Scores, completion: Completion, now: Time, saved: Db)
    requires context.userId in begin.balances && context.repositoryId in begin.repositories && id in begin.jobs
    requires id !in begin.reports && context.reservedTokens.Some? && IsValidUsage(usage)
    requires ToSucceeded(begin.jobs[id], token, context, requestId, usage, now).Some?
    requires saved.jobs == begin.jobs[id := ToSucceeded(begin.jobs[id], token, context, requestId, usage, now).value]
    requires saved.reports == begin.reports[id := Report(context.userId, context.repositoryId)]
    requires saved.stats == begin.stats[context.userId := UpdatedStat(StatOf(begin, context.userId), scores)]
    requires var refund := context.reservedTokens.value - usage.totalTokens;
             saved.balances == begin.balances[context.userId :=
                                              begin.balances[context.userId] + if refund > 0 then refund else 0]
    requires saved.repositories == begin.repositories
    ensures Succeed(begin, id, token, context, requestId, usage, scores, completion, now) ==
            Some(Complete(saved, context.userId, context.repositoryId, completion))
  {
    hide RowOk, RowStep, IsValidUsage, BlendScores, ToSucceeded, Complete;
  }
}
