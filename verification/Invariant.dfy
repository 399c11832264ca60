/** The inductive invariant of the protocol: rows, processes and history together. */
module Invariant {
  import opened Basics
  import opened JobRow
  import opened PublishStatements
  import opened Ledger
  import opened Transactions
  import opened Acceptance
  import opened Protocol

  // -----------------------------------------------------------------
  // Runners
  // -----------------------------------------------------------------

  ghost predicate Ungranted(w: Runner, log: Log) {
    forall j | j in log.granted :: w.token !in log.granted[j]
  }

  predicate NotCalled(w: Runner, log: Log) {
    w.token !in CallsOf(log, w.job)
  }

  predicate MayCall(w: Runner, log: Log) {
    w.token in TokensOf(log.tickets, w.job) && NotCalled(w, log)
  }

  /** The context belongs to the runner's row, which exists. */
  predicate Linked(w: Runner, db: Db, context: Job) {
    w.job in db.jobs && SameRequest(context, db.jobs[w.job])
  }

  /** As long as the runner holds the lease, nothing was billed and the reservation is the one it knows. */
  predicate Clean(w: Runner, db: Db, context: Job) {
    Linked(w, db, context) &&
    (Holds(db, w) ==> !HasBillingEvidence(db.jobs[w.job]) && db.jobs[w.job].reservedTokens == context.reservedTokens)
  }

  /** As long as the runner holds the lease, the row shows this bill or none. */
  predicate AtMostBilled(w: Runner, db: Db, context: Job, requestId: Option<RequestId>, usage: Option<Usage>) {
    Linked(w, db, context) &&
    (Holds(db, w) ==>
       && db.jobs[w.job].reservedTokens == context.reservedTokens
       && (HasBillingEvidence(db.jobs[w.job]) ==> EvidenceOf(db.jobs[w.job]) == Billed(requestId, usage)))
  }

  /** As long as the runner holds the lease, the row shows exactly this evidence. */
  predicate Stored(w: Runner, db: Db, context: Job, evidence: Evidence) {
    Linked(w, db, context) &&
    (Holds(db, w) ==>
       db.jobs[w.job].reservedTokens == context.reservedTokens && EvidenceOf(db.jobs[w.job]) == evidence)
  }

  predicate ValidIfKnown(usage: Option<Usage>) {
    usage.Some? ==> IsValidUsage(usage.value)
  }

  predicate RecoveryOk(w: Runner, db: Db, context: Job, t: Termination) {
    || (t == Unbilled(context, UnsupportedAnalysisVersion, NoCompletion) && Clean(w, db, context))
    || (t == Reconciliation(context, CheckpointId(context), CheckpointUsage(context)) &&
        EvidenceOf(context) == Billed(CheckpointId(context), CheckpointUsage(context)) &&
        Stored(w, db, context, EvidenceOf(context)))
  }

  ghost predicate PhaseOk(w: Runner, db: Db, log: Log) {
    match w.phase
    case Started => Ungranted(w, log) && NotCalled(w, log)
    case ClaimSeen(_, _, _) => Ungranted(w, log) && NotCalled(w, log)
    case RaceLost(_) => true
    case AtLimit(_) => true
    case Leased => NotCalled(w, log)
    case Holding => NotCalled(w, log)
    case Collecting => NotCalled(w, log)
    case Entering => NotCalled(w, log)
    case Recovering(c, t) => RecoveryOk(w, db, c, t)
    case Preparing(c) => MayCall(w, log) && Clean(w, db, c)
    case OutOfTokens(c) => Clean(w, db, c) && c.reservedTokens.None?
    case Reserved(c) => MayCall(w, log) && Clean(w, db, c) && c.reservedTokens.Some?
    case Calling(c) => MayCall(w, log) && Clean(w, db, c) && c.reservedTokens.Some?
    case Waiting(c) => Clean(w, db, c) && c.reservedTokens.Some?
    case CallFailed(c) => Clean(w, db, c)
    case Answered(c, _, usage, usable) =>
      Clean(w, db, c) && c.reservedTokens.Some? && ValidIfKnown(usage) && (usable ==> usage.Some?)
    case Settling(c, id, usage, _) => AtMostBilled(w, db, c, id, usage) && ValidIfKnown(usage)
    case Charged(c, id, usage) => ChargeOk(w, db, c, id, usage)
    case Saving(c, id, usage) => ChargeOk(w, db, c, id, usage)
    case Failing => true
    case SyncCollected(user, repository) => Ungranted(w, log) && user in db.balances && repository in db.repositories
    case SyncQueued =>
      Ungranted(w, log) && MayCall(w, log) && w.job in db.jobs && IsSyncJob(db.jobs[w.job])
    case Done(outcome) => outcome == Finished ==> w.job in db.jobs && IsTerminal(db.jobs[w.job])
  }

  predicate ChargeOk(w: Runner, db: Db, context: Job, requestId: RequestId, usage: Usage) {
    && Stored(w, db, context, Billed(Some(requestId), Some(usage)))
    && IsValidUsage(usage)
    && context.reservedTokens.Some?
    && usage.totalTokens <= context.reservedTokens.value
  }

  // -----------------------------------------------------------------
  // History
  // -----------------------------------------------------------------

  ghost predicate JobLogOk(row: Job, granted: set<Token>, tickets: set<Token>, calls: seq<Token>, debit: int,
                           minted: set<Token>) {
    && LeaseOf(row) <= granted <= minted
    && tickets <= minted
    && (LeaseOf(row) <= tickets || HasBillingEvidence(row))
    && |tickets| <= row.attemptCount + (if IsSyncJob(row) then 1 else 0)
    && NoRepeats(calls)
    && (forall t | t in calls :: t in tickets)
    && debit == Held(row)
  }

  ghost predicate LogAt(row: Job, log: Log, j: JobId, minted: set<Token>) {
    JobLogOk(row, TokensOf(log.granted, j), TokensOf(log.tickets, j), CallsOf(log, j), DebitOf(log, j), minted)
  }

  ghost predicate LogOk(db: Db, log: Log, minted: set<Token>) {
    && (forall j | j in db.jobs ::
          LogAt(db.jobs[j], log, j, minted))
    && log.granted.Keys <= db.jobs.Keys
    && log.tickets.Keys <= db.jobs.Keys
    && log.calls.Keys <= db.jobs.Keys
    && log.debits.Keys <= db.jobs.Keys
  }

  // -----------------------------------------------------------------
  // Collection windows
  // -----------------------------------------------------------------

  predicate InWindow(window: Window, x: Time) {
    (window.from.Some? ==> window.from.value < x) && x <= window.until
  }

  predicate AfterBaseline(log: Log, repository: RepositoryId, x: Time) {
    repository in log.baseline && log.baseline[repository].Some? ==> log.baseline[repository].value < x
  }

  /** Instant x of the repository lies in the window of a job that ended with its window collected. */
  ghost predicate Collected(db: Db, log: Log, repository: RepositoryId, x: Time) {
    exists j :: j in log.finished && j in db.jobs && db.jobs[j].repositoryId == repository &&
      InWindow(log.finished[j], x)
  }

  /** No instant up to `until` was skipped. */
  ghost predicate CoveredUpTo(db: Db, log: Log, repository: RepositoryId, until: Option<Time>) {
    until.Some? ==> forall x | AfterBaseline(log, repository, x) && x <= until.value ::
      Collected(db, log, repository, x)
  }

  predicate IsClaiming(phase: Phase) {
    phase.Started? || phase.ClaimSeen? || phase.RaceLost? || phase.AtLimit? || phase.Leased?
  }

  predicate HasWindow(phase: Phase) {
    !(IsClaiming(phase) || phase.Done? || phase.SyncCollected?)
  }

  ghost predicate RunnerWindowOk(w: Runner, db: Db, log: Log) {
    && (IsClaiming(w.phase) ==> w.kind == Background)
    && (w.phase.SyncCollected? ==> w.kind == Sync && CoveredUpTo(db, log, w.phase.repositoryId, w.window.from))
    && (HasWindow(w.phase) ==>
          && w.job in db.jobs
          && CoveredUpTo(db, log, db.jobs[w.job].repositoryId, w.window.from)
          && WindowOfRow(db.jobs[w.job], w.kind, w.window))
  }

  /** A worker collects the window that its row prescribes; a synchronous run chose its own. */
  predicate WindowOfRow(row: Job, kind: Kind, window: Window) {
    match kind
    case Background => window == Window(row.sourceCursor, row.collectionCutoff)
    case Sync => IsSyncJob(row)
  }

  predicate FinishedOk(row: Job, window: Window) {
    EndedCollected(row) && (IsSyncJob(row) || window == Window(row.sourceCursor, row.collectionCutoff))
  }

  ghost predicate CoverageOk(db: Db, log: Log) {
    && (forall r | r in db.repositories :: CoveredUpTo(db, log, r, db.repositories[r].lastSyncTime))
    && (forall j | j in db.jobs :: CoveredUpTo(db, log, db.jobs[j].repositoryId, db.jobs[j].sourceCursor))
    && (forall j | j in log.finished :: j in db.jobs && FinishedOk(db.jobs[j], log.finished[j]))
  }

  // -----------------------------------------------------------------
  // The outbox
  // -----------------------------------------------------------------

  ghost predicate RejectedUpTo(log: Log, job: JobId, attempt: int) {
    forall k | k in log.sends && k.job == job && k.attempt <= attempt :: log.sends[k] == Rejected
  }

  /** While no worker has claimed the job, a publisher that is not uncertain knows that every send was rejected. */
  ghost predicate Knows(db: Db, log: Log, job: JobId, uncertain: bool, attempt: int) {
    job in db.jobs && db.jobs[job].attemptCount == 0 && !uncertain ==> RejectedUpTo(log, job, attempt)
  }

  ghost predicate OutboxRowOk(row: Job, log: Log, job: JobId) {
    && (row.status == Queued && row.attemptCount == 0 && !DeliveryUncertain(row) ==>
        RejectedUpTo(log, job, row.publishAttempts))
    && (row.lastErrorCode == Some(PublishFailed) && row.attemptCount == 0 ==>
        RejectedUpTo(log, job, row.publishAttempts))
    && (row.lastErrorCode == Some(PublishFailed) ==> row.messagePublishedAt.None?)
  }

  ghost predicate PublisherOk(b: Publisher, db: Db, log: Log) {
    && b.job in db.jobs
    && b.seen.publishAttempts <= db.jobs[b.job].publishAttempts
    && SameRequest(b.seen, db.jobs[b.job])
    && match b.phase
       case Loaded => b.seen.status == Queued ==>
         Knows(db, log, b.job, DeliveryUncertain(b.seen), b.seen.publishAttempts)
       case Sending(attempt, _, uncertain, _) =>
         && 1 <= attempt <= db.jobs[b.job].publishAttempts
         && Send(b.job, attempt) in log.sends && log.sends[Send(b.job, attempt)] == InFlight
         && Knows(db, log, b.job, uncertain, attempt - 1)
       case Sent(attempt, _, _) => true
       case Refused(attempt, _, uncertain, _) =>
         attempt <= db.jobs[b.job].publishAttempts && Knows(db, log, b.job, uncertain, attempt)
       case Idle => true
  }

  ghost predicate SendsOk(db: Db, log: Log) {
    && (forall j | j in db.jobs :: OutboxRowOk(db.jobs[j], log, j))
    && (forall k | k in log.sends ::
          k.job in db.jobs && !IsSyncJob(db.jobs[k.job]) && 1 <= k.attempt <= db.jobs[k.job].publishAttempts)
  }

  /** No two publishers are sending under the same attempt number. */
  ghost predicate OneSenderPerAttempt(publishers: map<nat, Publisher>) {
    forall q, r | q in publishers && r in publishers && publishers[q].phase.Sending? && publishers[r].phase.Sending? &&
                  publishers[q].job == publishers[r].job &&
                    publishers[q].phase.attempt == publishers[r].phase.attempt :: q == r
  }

  ghost predicate PublishersOk(publishers: map<nat, Publisher>, db: Db, log: Log) {
    (forall q | q in publishers :: PublisherOk(publishers[q], db, log)) && OneSenderPerAttempt(publishers)
  }

  // -----------------------------------------------------------------
  // All together
  // -----------------------------------------------------------------

  /** A job that a worker has claimed was named in a delivered message. */
  ghost predicate ReceivedOk(db: Db, log: Log) {
    forall j | j in db.jobs && db.jobs[j].attemptCount > 0 :: j in log.received
  }

  ghost predicate TablesOk(db: Db, log: Log, minted: set<Token>) {
    DbOk(db) && RateOk(db) && LogOk(db, log, minted) && CoverageOk(db, log) && ReceivedOk(db, log)
  }

  ghost predicate RunnerOk(w: Runner, db: Db, log: Log, minted: set<Token>) {
    w.token in minted && PhaseOk(w, db, log) && RunnerWindowOk(w, db, log) &&
      (w.kind == Background ==> w.job in log.received)
  }

  ghost predicate DistinctTokens(runners: map<nat, Runner>) {
    forall p, q | p in runners && q in runners && runners[p].token == runners[q].token :: p == q
  }

  ghost predicate RunnersOk(runners: map<nat, Runner>, db: Db, log: Log, minted: set<Token>) {
    (forall p | p in runners :: RunnerOk(runners[p], db, log, minted)) && DistinctTokens(runners)
  }

  ghost predicate Inv(s: State) {
    && TablesOk(s.db, s.log, s.minted)
    && RunnersOk(s.runners, s.db, s.log, s.minted)
    && SendsOk(s.db, s.log)
    && PublishersOk(s.publishers, s.db, s.log)
  }

  /** An empty job table, any balances and any repositories: where a deployment starts. */
  ghost predicate Initial(s: State) {
    && s.db.jobs == map[] && s.db.reports == map[]
    && BalancesOk(s.db)
    && s.runners == map[] && s.publishers == map[] && s.minted == {}
    && s.log.granted == map[] && s.log.tickets == map[] && s.log.calls == map[] && s.log.debits == map[]
    && s.log.finished == map[] && s.log.sends == map[] && s.log.received == {}
    && s.log.baseline == (map r | r in s.db.repositories :: s.db.repositories[r].lastSyncTime)
  }

  lemma InitialHolds(s: State)
    requires Initial(s)
    ensures Inv(s)
  {
    assert forall user, from :: CreatedWithin(s.db, user, from) == {};
  }
}
