/** Each statement and transaction of the runners is a lawful step on the runner's row. */
module StepLemmas {
  import opened Basics
  import opened JobRow
  import opened JobStatements
  import opened StatService
  import opened Ledger
  import opened Transactions
  import opened TransactionProofs
  import opened Protocol
  import opened Invariant
  import opened Interference
  import opened Steps

  /** One-row statements move no money and no lastSyncTime. */
  lemma StatementStepOk(db: Db, log: Log, id: JobId, row: Job, window: Window, token: Option<Token>)
    requires DbOk(db) && id in db.jobs
    requires RowStep(db.jobs[id], row, token) && PublishUntouched(db.jobs[id], row) && Held(row) == Held(db.jobs[id])
    requires row.status != Succeeded && (EndedCollected(row) ==> !IsActive(db.jobs[id]))
    requires LeaseReady(db.jobs[id], row, log, id, token)
    ensures RowStepOk(db, Put(db, id, row), log, id, window, token)
  {
    hide RowStep, PublishUntouched, LeaseReady, DbOk, EndedCollected, Held, Guarantee, Balanced, PublishQuiet,
      FinishedOk;
    StatementKeeps(db, id, row, token);
  }

  /** A step on one row that leaves repositories alone and ends no collected job. */
  lemma PlainStepOk(db: Db, after: Db, log: Log, id: JobId, window: Window, token: Option<Token>)
    requires DbOk(after) && Guarantee(db, after, token) && PublishQuiet(db, after) && Balanced(db, after, id)
    requires id in db.jobs && id in after.jobs && after.jobs == db.jobs[id := after.jobs[id]]
    requires after.repositories == db.repositories
    requires LeaseReady(db.jobs[id], after.jobs[id], log, id, token)
    requires !EndedCollected(after.jobs[id]) && after.reports == db.reports && after.stats == db.stats
    ensures RowStepOk(db, after, log, id, window, token)
  {
    hide DbOk, Guarantee, PublishQuiet, Balanced, LeaseReady, EndedCollected, FinishedOk;
  }

  lemma SettleShape(db: Db, id: JobId, status: Status, lease: Option<Token>, code: ErrorCode, retryable: bool,
                    now: Time)
    requires SettleJob(db, id, status, lease, code, retryable, now).SettledIn?
    ensures var after := SettleJob(db, id, status, lease, code, retryable, now).db;
            && id in db.jobs && id in after.jobs && after.jobs == db.jobs[id := after.jobs[id]]
            && after.repositories == db.repositories
            && after.jobs[id].status == Failed && after.jobs[id].lastErrorCode == Some(code)
            && after.jobs[id].leaseToken.None?
            && after.jobs[id].attemptCount == db.jobs[id].attemptCount && after.reports == db.reports
            && after.stats == db.stats
  {
    hide RowOk, RowStep, PublishUntouched, Held;
  }

  lemma SettleStepOk(db: Db, log: Log, id: JobId, window: Window, status: Status, lease: Option<Token>, code: ErrorCode,
                     retryable: bool, now: Time)
    requires DbOk(db) && (status == Queued || status == Running) && code != PublishFailed && code != NoAnalyzableData
    requires SettleJob(db, id, status, lease, code, retryable, now).SettledIn?
    ensures var after := SettleJob(db, id, status, lease, code, retryable, now).db;
            RowStepOk(db, after, log, id, window, None) && id in after.jobs && IsTerminal(after.jobs[id])
  {
    hide DbOk, Guarantee, Balanced, PublishQuiet, FinishedOk, SettleJob, RowStepOk;
    SettleKeeps(db, id, status, lease, code, retryable, now);
    SettleShape(db, id, status, lease, code, retryable, now);
    PlainStepOk(db, SettleJob(db, id, status, lease, code, retryable, now).db, log, id, window, None);
  }

  lemma ReserveShape(db: Db, id: JobId, token: Token, context: Job, estimated: int, reserved: int, now: Time)
    requires Reserve(db, id, token, context, estimated, reserved, now).ReservedIn?
    ensures var after := Reserve(db, id, token, context, estimated, reserved, now).db;
            && id in db.jobs && id in after.jobs && after.jobs == db.jobs[id := after.jobs[id]]
            && after.repositories == db.repositories
            && after.jobs[id].status == Running && db.jobs[id].leaseToken == Some(token)
            && after.jobs[id].attemptCount == db.jobs[id].attemptCount
            && SameRequest(db.jobs[id], after.jobs[id]) && after.reports == db.reports && after.stats == db.stats
  {
    hide RowOk, RowStep;
  }

  lemma ReserveStepOk(db: Db, log: Log, id: JobId, window: Window, token: Token, context: Job, estimated: int,
                      reserved: int, now: Time)
    requires DbOk(db) && 0 <= reserved
    requires Reserve(db, id, token, context, estimated, reserved, now).ReservedIn?
    ensures var after := Reserve(db, id, token, context, estimated, reserved, now).db;
            && RowStepOk(db, after, log, id, window, Some(token))
            && id in after.jobs && after.jobs[id].reservedTokens == Some(reserved)
            && after.jobs[id].leaseToken == Some(token)
            && EvidenceOf(after.jobs[id]) == EvidenceOf(db.jobs[id])
  {
    hide DbOk, Guarantee, Balanced, PublishQuiet, FinishedOk, Reserve, RowStepOk, SameRequest, HasBillingEvidence;
    ReserveKeeps(db, id, token, context, estimated, reserved, now);
    ReserveShape(db, id, token, context, estimated, reserved, now);
    PlainStepOk(db, Reserve(db, id, token, context, estimated, reserved, now).db, log, id, window, Some(token));
  }

  /** Completions write only the repository's lastSyncTime, and only to the cutoff. */
  lemma CompletedAt(db: Db, user: UserId, repository: RepositoryId, completion: Completion, until: Time)
    requires repository in db.repositories
    requires completion == NoCompletion || completion == WorkerCheckpoint(until) || completion == SyncCheckpoint(until)
    ensures var after := Complete(db, user, repository, completion);
            forall r | r in db.repositories ::
              || after.repositories[r].lastSyncTime == db.repositories[r].lastSyncTime
              || (completion != NoCompletion && r == repository && after.repositories[r].lastSyncTime == Some(until))
    ensures completion != NoCompletion && db.repositories[repository].ownerId == user ==>
              SyncedUpTo(Complete(db, user, repository, completion).repositories[repository], until)
  {
  }

  /** A transaction that ends the runner's job, with the completion of its window or with none. */
  ghost predicate Ending(db: Db, after: Db, w: Runner, completion: Completion) {
    && w.job in db.jobs && w.job in after.jobs && after.jobs == db.jobs[w.job := after.jobs[w.job]]
    && IsTerminal(after.jobs[w.job])
    && db.jobs[w.job].repositoryId in db.repositories
    && after.repositories == Complete(db, db.jobs[w.job].userId, db.jobs[w.job].repositoryId, completion).repositories
    && completion ==
         (if IsActive(db.jobs[w.job]) && EndedCollected(after.jobs[w.job]) then CompletionOf(w) else NoCompletion)
  }

  lemma TerminalRow(before: Job, after: Job, token: Option<Token>)
    requires RowOk(before) && RowStep(before, after, token) && IsTerminal(after)
    ensures after.leaseToken.None? && SameRequest(before, after)
  {
  }

  lemma EndingWindow(db: Db, after: Db, log: Log, w: Runner, completion: Completion)
    requires RunnerWindowOk(w, db, log) && HasWindow(w.phase)
    requires Ending(db, after, w, completion) && SameRequest(db.jobs[w.job], after.jobs[w.job])
    ensures RepositoryStep(db, after, log, w.job, w.window)
  {
    CompletedAt(db, db.jobs[w.job].userId, db.jobs[w.job].repositoryId, completion, w.window.until);
    var covered := db.jobs[w.job].repositoryId;
    assert CoveredUpTo(db, log, covered, w.window.from) && WindowOfRow(db.jobs[w.job], w.kind, w.window);
    hide Complete, CoveredUpTo, RunnerWindowOk, HasWindow;
  }

  lemma EndingStepOk(db: Db, after: Db, log: Log, w: Runner, completion: Completion)
    requires DbOk(after) && Guarantee(db, after, Some(w.token)) && PublishQuiet(db, after) && Balanced(db, after, w.job)
    requires RunnerWindowOk(w, db, log) && HasWindow(w.phase)
    requires Ending(db, after, w, completion) && RowOk(db.jobs[w.job]) && Counted(db, after)
    ensures RowStepOk(db, after, log, w.job, w.window, Some(w.token))
  {
    hide DbOk, Balanced, PublishQuiet, Complete, RunnerWindowOk, RowOk, HasWindow, Counted;
    TerminalRow(db.jobs[w.job], after.jobs[w.job], Some(w.token));
    hide Guarantee, SameRequest, RepositoryStep, Counted;
    EndingWindow(db, after, log, w, completion);
    hide EndedCollected, IsTerminal, IsActive, CompletionOf;
  }

  lemma TerminateCompletes(db: Db, id: JobId, token: Token, context: Job, t: Termination, now: Time)
    requires Terminate(db, id, token, context, t, now).Some?
    ensures context.repositoryId in db.repositories && id in db.jobs && OwnedBy(db.jobs[id], token, context)
    ensures Terminate(db, id, token, context, t, now).value.repositories ==
            Complete(db, context.userId, context.repositoryId, t.completion).repositories
    ensures var after := Terminate(db, id, token, context, t, now).value;
            && id in after.jobs && after.jobs == db.jobs[id := after.jobs[id]] && after.jobs[id].status == Failed
            && after.reports == db.reports && after.stats == db.stats
  {
    hide RowOk, RowStep, PublishUntouched;
  }

  lemma RowHolds(db: Db, id: JobId)
    requires DbOk(db) && id in db.jobs
    ensures RowOk(db.jobs[id])
  {
    hide RowOk, ReportsOk, OneActivePerRepository, OneJobPerKey;
  }

  lemma UnbilledStepOk(db: Db, log: Log, w: Runner, context: Job, code: ErrorCode, completion: Completion, now: Time)
    requires DbOk(db) && RunnerWindowOk(w, db, log) && HasWindow(w.phase) && code != PublishFailed
    requires Clean(w, db, context)
    requires completion == (if code == NoAnalyzableData then CompletionOf(w) else NoCompletion)
    requires Terminate(db, w.job, w.token, context, Unbilled(context, code, completion), now).Some?
    ensures var after := Terminate(db, w.job, w.token, context, Unbilled(context, code, completion), now).value;
            RowStepOk(db, after, log, w.job, w.window, Some(w.token)) && w.job in after.jobs &&
              IsTerminal(after.jobs[w.job])
  {
    hide RunnerWindowOk, HasWindow, Guarantee, Balanced, PublishQuiet, Terminate, RowStepOk, Complete, RowOk, DbOk,
      CompletionOf;
    var t := Unbilled(context, code, completion);
    var after := Terminate(db, w.job, w.token, context, t, now).value;
    TerminateCompletes(db, w.job, w.token, context, t, now);
    RowHolds(db, w.job);
    UnbilledKeeps(db, w.job, w.token, context, code, completion, now);
    EndingStepOk(db, after, log, w, completion);
  }

  lemma ReconciliationStepOk(db: Db, log: Log, w: Runner, context: Job, id: Option<RequestId>, usage: Option<Usage>,
                             now: Time)
    requires DbOk(db) && RunnerWindowOk(w, db, log) && HasWindow(w.phase)
    requires AtMostBilled(w, db, context, id, usage)
    requires Terminate(db, w.job, w.token, context, Reconciliation(context, id, usage), now).Some?
    ensures var after := Terminate(db, w.job, w.token, context, Reconciliation(context, id, usage), now).value;
            RowStepOk(db, after, log, w.job, w.window, Some(w.token)) && w.job in after.jobs &&
              IsTerminal(after.jobs[w.job])
  {
    hide RunnerWindowOk, HasWindow, Guarantee, Balanced, PublishQuiet, Terminate, RowStepOk, Complete, RowOk, DbOk,
      CompletionOf;
    var t := Reconciliation(context, id, usage);
    var after := Terminate(db, w.job, w.token, context, t, now).value;
    TerminateCompletes(db, w.job, w.token, context, t, now);
    RowHolds(db, w.job);
    ReconciliationKeeps(db, w.job, w.token, context, id, usage, now);
    ReconciliationSettles(db, w.job, w.token, context, id, usage, now);
    EndingStepOk(db, after, log, w, NoCompletion);
  }

  lemma SucceedCompletes(db: Db, id: JobId, token: Token, context: Job, requestId: RequestId, usage: Usage,
                         scores: Scores, completion: Completion, now: Time)
    requires Succeed(db, id, token, context, requestId, usage, scores, completion, now).Some?
    ensures context.repositoryId in db.repositories && id in db.jobs && OwnedBy(db.jobs[id], token, context)
    ensures Succeed(db, id, token, context, requestId, usage, scores, completion, now).value.repositories ==
            Complete(db, context.userId, context.repositoryId, completion).repositories
    ensures var after := Succeed(db, id, token, context, requestId, usage, scores, completion, now).value;
            && id in after.jobs && after.jobs == db.jobs[id := after.jobs[id]] && after.jobs[id].status == Succeeded
            && Counted(db, after)
  {
    hide RowOk, RowStep, PublishUntouched, BlendScores;
  }

  lemma SucceedStepOk(db: Db, log: Log, w: Runner, context: Job, requestId: RequestId, usage: Usage, scores: Scores,
                      now: Time)
    requires DbOk(db) && RunnerWindowOk(w, db, log) && HasWindow(w.phase)
    requires ChargeOk(w, db, context, requestId, usage)
    requires Succeed(db, w.job, w.token, context, requestId, usage, scores, CompletionOf(w), now).Some?
    ensures var after := Succeed(db, w.job, w.token, context, requestId, usage, scores, CompletionOf(w), now).value;
            w.job in db.jobs && RowStepOk(db, after, log, w.job, w.window, Some(w.token)) && w.job in after.jobs &&
              IsTerminal(after.jobs[w.job])
  {
    hide RunnerWindowOk, HasWindow, Guarantee, Balanced, PublishQuiet, Succeed, RowStepOk, Complete, RowOk, DbOk,
      CompletionOf;
    var after := Succeed(db, w.job, w.token, context, requestId, usage, scores, CompletionOf(w), now).value;
    SucceedCompletes(db, w.job, w.token, context, requestId, usage, scores, CompletionOf(w), now);
    RowHolds(db, w.job);
    SucceedKeeps(db, w.job, w.token, context, requestId, usage, scores, CompletionOf(w), now);
    EndingStepOk(db, after, log, w, CompletionOf(w));
  }
}
