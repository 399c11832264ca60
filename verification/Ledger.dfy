/** The database, its invariant, and the guarantee that every transaction gives to every other process. */
module Ledger {
  import opened Basics
  import opened JobRow
  import opened StatService

  datatype Repository = Repository(ownerId: UserId, lastSyncTime: Option<Time>)

  datatype Report = Report(userId: UserId, repositoryId: RepositoryId)

  datatype Db = Db(
    balances: map<UserId, int>,
    jobs: map<JobId, Job>,
    repositories: map<RepositoryId, Repository>,
    reports: map<JobId, Report>,
    stats: map<UserId, UserStat>)

  function StatOf(db: Db, user: UserId): Option<UserStat> {
    if user in db.stats then Some(db.stats[user]) else None
  }

  function Put(db: Db, id: JobId, job: Job): Db {
    db.(jobs := db.jobs[id := job])
  }

  function Credit(db: Db, user: UserId, amount: int): Db
    requires user in db.balances
  {
    db.(balances := db.balances[user := db.balances[user] + amount])
  }

  ghost predicate RowsOk(db: Db) {
    forall j | j in db.jobs ::
      RowOk(db.jobs[j]) && db.jobs[j].userId in db.balances && db.jobs[j].repositoryId in db.repositories
  }

  ghost predicate BalancesOk(db: Db) {
    forall u | u in db.balances :: 0 <= db.balances[u]
  }

  ghost predicate ReportsOk(db: Db) {
    && (forall j | j in db.jobs :: db.jobs[j].status == Succeeded <==> j in db.reports)
    && (forall j | j in db.reports ::
          j in db.jobs && db.reports[j] == Report(db.jobs[j].userId, db.jobs[j].repositoryId))
  }

  ghost predicate OneActivePerRepository(db: Db) {
    forall i, j | i in db.jobs && j in db.jobs && IsActive(db.jobs[i]) && IsActive(db.jobs[j]) &&
                  db.jobs[i].repositoryId == db.jobs[j].repositoryId :: i == j
  }

  ghost predicate OneJobPerKey(db: Db) {
    forall i, j | i in db.jobs && j in db.jobs && db.jobs[i].userId == db.jobs[j].userId &&
                  db.jobs[i].idempotencyKey == db.jobs[j].idempotencyKey :: i == j
  }

  ghost predicate DbOk(db: Db) {
    RowsOk(db) && BalancesOk(db) && ReportsOk(db) && OneActivePerRepository(db) && OneJobPerKey(db)
  }

  predicate IsFreshRow(job: Job) {
    && job.status == Queued && job.attemptCount == 0 && job.publishAttempts == 0
    && job.leaseToken.None? && job.reservedTokens.None? && job.messagePublishedAt.None?
    && job.lastErrorCode.None? && !HasBillingEvidence(job) && Held(job) == 0
  }

  predicate SyncTimeAdvances(before: Option<Time>, after: Option<Time>) {
    before.Some? ==> after.Some? && before.value <= after.value
  }

  /** What one atomic step of a process holding lease `token` may do to the tables. */
  ghost predicate Guarantee(before: Db, after: Db, token: Option<Token>) {
    && (forall j | j in before.jobs :: j in after.jobs && RowStep(before.jobs[j], after.jobs[j], token))
    && (forall j | j in after.jobs && j !in before.jobs :: IsFreshRow(after.jobs[j]))
    && before.balances.Keys == after.balances.Keys
    && before.repositories.Keys == after.repositories.Keys
    && (forall r | r in before.repositories ::
          SyncTimeAdvances(before.repositories[r].lastSyncTime, after.repositories[r].lastSyncTime))
  }

  /** No publisher statement is part of the step. */
  ghost predicate PublishQuiet(before: Db, after: Db) {
    forall j | j in before.jobs :: j in after.jobs && PublishUntouched(before.jobs[j], after.jobs[j])
  }

  /** Money moves only between one job and its user's balance. */
  ghost predicate Balanced(before: Db, after: Db, focus: JobId) {
    && (forall j | j in before.jobs :: j in after.jobs && (j != focus ==> Held(after.jobs[j]) == Held(before.jobs[j])))
    && (forall u | u in before.balances ::
          u in after.balances && after.balances[u] == before.balances[u] - Drawn(before, after, focus, u))
  }

  /** What the step adds to the tokens held by `focus` at the cost of user `u`. */
  function Drawn(before: Db, after: Db, focus: JobId, u: UserId): int {
    if focus in before.jobs && focus in after.jobs && before.jobs[focus].userId == u
    then Held(after.jobs[focus]) - Held(before.jobs[focus])
    else 0
  }

  /** Tables other than analysis_jobs and users are as before. */
  predicate OtherTablesSame(before: Db, after: Db) {
    after.repositories == before.repositories && after.reports == before.reports && after.stats == before.stats
  }

  /** Each new report comes with one more analysis in its user's statistics, and nothing else touches either table. */
  ghost predicate Counted(before: Db, after: Db) {
    || (after.reports == before.reports && after.stats == before.stats)
    || (exists id: JobId, report: Report, stat: UserStat ::
          && id !in before.reports && after.reports == before.reports[id := report]
          && after.stats == before.stats[report.userId := stat]
          && stat.analysisCount == CountOf(StatOf(before, report.userId)) + 1)
  }

  lemma RowStepKeepsRow(before: Job, after: Job, token: Option<Token>)
    requires RowOk(before) && RowStep(before, after, token)
    ensures RowOk(after) && SameRequest(before, after)
    ensures IsActive(after) ==> IsActive(before)
    ensures before.status == Succeeded ==> after.status == Succeeded
  {
  }

  /** The step replaces row `id` by `row` and charges or refunds its user for what the row then holds. */
  ghost predicate Refreshes(db: Db, after: Db, id: JobId, row: Job, token: Option<Token>) {
    && id in db.jobs && after.jobs == db.jobs[id := row]
    && RowStep(db.jobs[id], row, token) && PublishUntouched(db.jobs[id], row)
    && after.balances.Keys == db.balances.Keys && BalancesOk(after)
    && (forall u | u in db.balances :: after.balances[u] == db.balances[u] - Drawn(db, after, id, u))
    && after.repositories.Keys == db.repositories.Keys
    && (forall r | r in db.repositories ::
          SyncTimeAdvances(db.repositories[r].lastSyncTime, after.repositories[r].lastSyncTime))
  }

  lemma RefreshKeepsRows(db: Db, after: Db, id: JobId, row: Job, token: Option<Token>)
    requires RowsOk(db) && Refreshes(db, after, id, row, token)
    ensures RowsOk(after)
  {
    RowStepKeepsRow(db.jobs[id], row, token);
    hide RowOk, RowStep;
  }

  lemma RefreshKeepsExclusion(db: Db, after: Db, id: JobId, row: Job, token: Option<Token>)
    requires OneActivePerRepository(db) && OneJobPerKey(db) && Refreshes(db, after, id, row, token)
    requires RowOk(db.jobs[id])
    ensures OneActivePerRepository(after) && OneJobPerKey(after)
  {
    RowStepKeepsRow(db.jobs[id], row, token);
    hide RowOk, RowStep, Refreshes;
  }

  lemma RefreshKeepsReports(db: Db, after: Db, id: JobId, row: Job, token: Option<Token>)
    requires ReportsOk(db) && Refreshes(db, after, id, row, token) && RowOk(db.jobs[id])
    requires after.reports == db.reports && (row.status == Succeeded ==> db.jobs[id].status == Succeeded)
    ensures ReportsOk(after)
  {
    hide RowOk, RowStep, PublishUntouched, Drawn, SyncTimeAdvances;
    RowStepKeepsRow(db.jobs[id], row, token);
  }

  lemma RefreshGuarantee(db: Db, after: Db, id: JobId, row: Job, token: Option<Token>)
    requires Refreshes(db, after, id, row, token)
    ensures Guarantee(db, after, token) && PublishQuiet(db, after) && Balanced(db, after, id)
  {
    hide RowOk, SameRequest;
  }

  lemma RefreshAll(db: Db, after: Db, id: JobId, row: Job, token: Option<Token>)
    requires DbOk(db) && Refreshes(db, after, id, row, token) && ReportsOk(after)
    ensures DbOk(after) && Guarantee(db, after, token) && PublishQuiet(db, after) && Balanced(db, after, id)
  {
    RefreshKeepsRows(db, after, id, row, token);
    RefreshKeepsExclusion(db, after, id, row, token);
    RefreshGuarantee(db, after, id, row, token);
    hide *;
    DbOkFrom(after);
  }

  lemma RefreshRow(db: Db, after: Db, id: JobId, row: Job, token: Option<Token>)
    requires DbOk(db) && Refreshes(db, after, id, row, token)
    requires after.reports == db.reports && (row.status == Succeeded ==> db.jobs[id].status == Succeeded)
    ensures DbOk(after) && Guarantee(db, after, token) && PublishQuiet(db, after) && Balanced(db, after, id)
  {
    RefreshKeepsReports(db, after, id, row, token);
    RefreshAll(db, after, id, row, token);
  }

  lemma DbOkFrom(db: Db)
    requires RowsOk(db) && BalancesOk(db) && ReportsOk(db) && OneActivePerRepository(db) && OneJobPerKey(db)
    ensures DbOk(db)
  {
  }

  /** A statement that changes one row and no balance keeps the database invariant. */
  lemma StatementKeeps(db: Db, id: JobId, row: Job, token: Option<Token>)
    requires DbOk(db) && id in db.jobs
    requires RowStep(db.jobs[id], row, token) && PublishUntouched(db.jobs[id], row)
    requires (row.status == Succeeded ==> db.jobs[id].status == Succeeded) && Held(row) == Held(db.jobs[id])
    ensures DbOk(Put(db, id, row)) && Guarantee(db, Put(db, id, row), token)
    ensures PublishQuiet(db, Put(db, id, row)) && Balanced(db, Put(db, id, row), id)
  {
    hide RowOk, RowStep, PublishUntouched, Held, RowsOk, ReportsOk, OneActivePerRepository, OneJobPerKey, Guarantee,
      PublishQuiet, Balanced;
    RefreshRow(db, Put(db, id, row), id, row, token);
  }

  lemma NothingChanges(db: Db, token: Option<Token>, focus: JobId)
    requires DbOk(db)
    ensures Guarantee(db, db, token) && PublishQuiet(db, db) && Balanced(db, db, focus)
  {
  }
}
