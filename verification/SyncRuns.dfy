/** A synchronous run when nothing fails: from the request to the report, in one process. */
module SyncRuns {
  import opened Basics
  import opened JobRow
  import opened JobStatements
  import opened WorkerStatements
  import opened StatService
  import opened Ledger
  import opened Transactions
  import opened Acceptance
  import opened Admission
  import opened Protocol
  import opened Invariant
  import opened Safety
  import opened SingleSteps
  import opened Progress
  import opened Endings
  import opened Lifecycle

  // ----- its own steps -----

  lemma SyncBeginMoves(s: State, p: nat, user: UserId, repository: RepositoryId, token: Token, now: Time)
    requires p !in s.runners && token !in s.minted && user in s.db.balances && IsOwned(s.db, user, repository)
    ensures var window := Window(s.db.repositories[repository].lastSyncTime, now);
            ViewOf(Next(s, SyncBegin(p, user, repository, token, now))) ==
            ViewOf(s).(runners :=
                       s.runners[p := Runner(Sync, 0, token, 0, 0, 0, window, SyncCollected(user, repository))],
                       minted := s.minted + {token})
  {
    hide NextClaim, NextCall, NextBill, NextPublish;
  }

  /** The row of a synchronous run that starts to collect. */
  function SyncJob(user: UserId, repository: RepositoryId, nonce: nat, version: Version, now: Time): Job {
    NewJob(user, repository, SyncKey(nonce), SyncRequest, None, now, version, now)
  }

  lemma SyncCreateMoves(s: State, p: nat, j: JobId, nonce: nat, version: Version, now: Time)
    requires RowsOk(s.db) && p in s.runners && s.runners[p].phase.SyncCollected?
    requires var ph := s.runners[p].phase;
             IsFree(s.db, ph.repositoryId, now) && IsNewKey(s.db, ph.userId, SyncKey(nonce)) && j !in s.db.jobs
    ensures var w := s.runners[p];
            var row := SyncJob(w.phase.userId, w.phase.repositoryId, nonce, version, now);
            ViewOf(Next(s, SyncCreate(p, j, nonce, version, now, NoFault))) ==
            ViewOf(s).(db := Put(RecoverStaleJobs(s.db, w.phase.repositoryId, now), j, row),
                       runners := s.runners[p := w.(job := j, phase := SyncQueued)])
  {
    hide NextClaim, NextCall, NextBill, NextPublish, Move, CreateExclusive, RowsOk, IsFree, IsNewKey, RowOk,
      RecoverStaleJobs;
    var w := s.runners[p];
    var row := SyncJob(w.phase.userId, w.phase.repositoryId, nonce, version, now);
    SyncRow(w.phase.userId, w.phase.repositoryId, nonce, version, now);
    ExclusiveIff(s.db, j, row, now);
    ViewAfterMove(s, p, w.(job := j, phase := SyncQueued),
                  Put(RecoverStaleJobs(s.db, w.phase.repositoryId, now), j, row));
  }

  lemma SyncRow(user: UserId, repository: RepositoryId, nonce: nat, version: Version, now: Time)
    ensures var row := SyncJob(user, repository, nonce, version, now);
            && RowOk(row) && row.userId == user && row.repositoryId == repository
            && row.idempotencyKey == SyncKey(nonce)
            && row.status == Queued && row.version == version && row.reservedTokens.None? && !HasBillingEvidence(row)
            && row.tokensSettledAt.None? && row.sourceCursor.None? && row.collectionCutoff == now
            && row.attemptCount == 0
  {
  }

  lemma SyncStartMoves(s: State, p: nat, now: Time, expires: Time)
    requires p in s.runners && s.runners[p].phase.SyncQueued? && s.runners[p].job in s.db.jobs
    requires s.db.jobs[s.runners[p].job].status == Queued
    ensures var w := s.runners[p];
            var started := StartSync(s.db.jobs[w.job], w.token, expires, now);
            && started.Some?
            && ViewOf(Next(s, SyncStart(p, now, expires, NoFault))) ==
               ViewOf(s).(db := Put(s.db, w.job, started.value), runners := s.runners[p := w.(phase := Entering)])
  {
    hide NextClaim, NextCall, NextBill, NextPublish, Write, RowOk, RowStep;
    var w := s.runners[p];
    WriteMoves(s, p, Put(s.db, w.job, StartSync(s.db.jobs[w.job], w.token, expires, now).value), Entering, Done(Threw));
  }

  lemma SyncReportMoves(s: State, p: nat, now: Time, expires: Time)
    requires p in s.runners && s.runners[p].phase.Reserved? && s.runners[p].kind == Sync
    ensures ViewOf(Next(s, ReportReserved(p, now, expires, NoFault))) ==
            var w := s.runners[p]; ViewOf(s).(runners := s.runners[p := w.(phase := Calling(w.phase.context))])
  {
    hide NextClaim, NextBill, NextRequest, NextPublish, Move;
    var w := s.runners[p];
    ViewAfterMove(s, p, w.(phase := Calling(w.phase.context)), s.db);
  }

  /** Nobody can start one for a repository of somebody else. */
  lemma SyncNeedsTheOwner(s: State, p: nat, user: UserId, repository: RepositoryId, token: Token, now: Time)
    requires !IsOwned(s.db, user, repository)
    ensures Next(s, SyncBegin(p, user, repository, token, now)) == s
  {
    hide NextClaim, NextCall, NextBill, NextPublish;
  }

  /** It gives up when a job of the repository is queued or running, stale ones aside. */
  lemma SyncNeedsAFreeRepository(s: State, p: nat, j: JobId, nonce: nat, version: Version, now: Time, fault: Fault)
    requires RowsOk(s.db) && p in s.runners && s.runners[p].phase.SyncCollected?
    requires !IsFree(s.db, s.runners[p].phase.repositoryId, now)
    ensures ViewOf(Next(s, SyncCreate(p, j, nonce, version, now, fault))) ==
            ViewOf(s).(runners := s.runners[p := s.runners[p].(phase := Done(Threw))])
  {
    hide NextClaim, NextCall, NextBill, NextPublish, Move, CreateExclusive, RowsOk, IsFree, RowOk;
    var w := s.runners[p];
    SyncRow(w.phase.userId, w.phase.repositoryId, nonce, version, now);
    ExclusiveIff(s.db, j, SyncJob(w.phase.userId, w.phase.repositoryId, nonce, version, now), now);
    ViewAfterMove(s, p, w.(phase := Done(Threw)), s.db);
  }

  // ----- up to the call -----

  function StartingActions(p: nat, user: UserId, repository: RepositoryId, token: Token, j: JobId, nonce: nat,
                           at: Time): seq<Action> {
    [SyncBegin(p, user, repository, token, at)] + [SyncCreate(p, j, nonce, Current, at, NoFault)]
    + [SyncStart(p, at, at + 1, NoFault)]
  }

  /** The user may have the repository analyzed at once: it is the user's own and free, and the key is new. */
  ghost predicate MaySync(db: Db, user: UserId, repository: RepositoryId, nonce: nat, j: JobId, at: Time) {
    && user in db.balances && IsOwned(db, user, repository) && IsFree(db, repository, at)
    && IsNewKey(db, user, SyncKey(nonce)) && j !in db.jobs
  }

  /** A started job that nobody has reserved for or billed. */
  predicate IsStarted(db: Db, w: Runner, user: UserId, repository: RepositoryId) {
    && w.job in db.jobs && Holds(db, w) && w.kind == Sync
    && db.jobs[w.job].status == Running && !HasBillingEvidence(db.jobs[w.job]) && db.jobs[w.job].version == Current
    && db.jobs[w.job].reservedTokens.None? && db.jobs[w.job].userId == user
    && db.jobs[w.job].repositoryId == repository
  }

  lemma SyncStarts(s: State, p: nat, user: UserId, repository: RepositoryId, token: Token, j: JobId, nonce: nat,
                   at: Time)
    requires Reachable(s) && p !in s.runners && token !in s.minted && MaySync(s.db, user, repository, nonce, j, at)
    ensures var t := Run(s, StartingActions(p, user, repository, token, j, nonce, at));
            && p in t.runners && t.runners[p].phase.Entering? && t.runners[p].job == j
            && t.runners[p].window == Window(s.db.repositories[repository].lastSyncTime, at)
            && IsStarted(t.db, t.runners[p], user, repository)
            && t.db.jobs[j].startedAt == Some(at) && t.db.jobs[j].leaseExpiresAt == Some(at + 1)
            && t.db.jobs[j].sourceCursor.None? && t.db.jobs[j].collectionCutoff == at && t.db.jobs[j].attemptCount == 0
            && t.db.balances == s.db.balances && t.db.repositories == s.db.repositories
            && t.db.reports == s.db.reports && t.db.stats == s.db.stats
  {
    hide Reachable, Inv, Next, Run, RowsOk, RowOk, SyncJob, StartSync, IsFree, IsNewKey, RecoverStaleJobs,
      HasBillingEvidence;
    ReachableIsSafe(s);
    RowsOf(s);
    var one := [SyncBegin(p, user, repository, token, at)];
    RunOne(s, one[0]);
    SyncBeginMoves(s, p, user, repository, token, at);
    var s1 := Run(s, one);
    RunStep(s, one, SyncCreate(p, j, nonce, Current, at, NoFault));
    SyncCreateMoves(s1, p, j, nonce, Current, at);
    SyncRow(user, repository, nonce, Current, at);
    RecoveredKeys(s.db, repository, at);
    var two := one + [SyncCreate(p, j, nonce, Current, at, NoFault)];
    var s2 := Run(s, two);
    RunStep(s, two, SyncStart(p, at, at + 1, NoFault));
    SyncStartMoves(s2, p, at, at + 1);
    StartedRow(s2.db.jobs[j], token, at);
  }

  lemma RowsOf(s: State)
    requires Inv(s)
    ensures RowsOk(s.db)
  {
    hide RateOk, LogOk, CoverageOk, ReceivedOk, RunnersOk, SendsOk, PublishersOk, RowsOk, BalancesOk, ReportsOk,
      OneActivePerRepository, OneJobPerKey;
  }

  lemma StartedRow(row: Job, token: Token, at: Time)
    requires row.status == Queued && !HasBillingEvidence(row)
    ensures var started := StartSync(row, token, at + 1, at);
            && started.Some? && started.value.status == Running && started.value.leaseToken == Some(token)
            && !HasBillingEvidence(started.value) && started.value.version == row.version
            && started.value.reservedTokens == row.reservedTokens
            && started.value.userId == row.userId && started.value.repositoryId == row.repositoryId
            && started.value.startedAt == Some(at) && started.value.leaseExpiresAt == Some(at + 1)
            && started.value.sourceCursor == row.sourceCursor && started.value.collectionCutoff == row.collectionCutoff
            && started.value.attemptCount == row.attemptCount
  {
    hide RowOk, RowStep;
  }

  function CallingActions(p: nat, required: int, at: Time): seq<Action> {
    [EnterAnalysis(p, NoFault)] + [ReserveOrReuse(p, required, required, at, NoFault)]
    + [ReportReserved(p, at, at + 1, NoFault)] + [StartCall(p)]
  }

  lemma SyncCalls(s: State, p: nat, user: UserId, repository: RepositoryId, required: int, at: Time)
    requires Reachable(s) && p in s.runners && s.runners[p].phase.Entering?
    requires IsStarted(s.db, s.runners[p], user, repository)
    requires user in s.db.balances && 0 <= required <= s.db.balances[user]
    ensures var w, t := s.runners[p], Run(s, CallingActions(p, required, at));
            && p in t.runners && t.runners[p].phase.Waiting? && t.runners[p] == w.(phase := t.runners[p].phase)
            && Holds(t.db, t.runners[p]) && t.db.jobs[w.job].reservedTokens == Some(required)
            && t.db.jobs[w.job].userId == user && t.db.jobs[w.job].repositoryId == repository
            && t.db == s.db.(jobs := s.db.jobs[w.job := t.db.jobs[w.job]],
                             balances := s.db.balances[user := s.db.balances[user] - required])
  {
    hide Reachable, Next, Run, HasBillingEvidence, IsUnbilled;
    var w := s.runners[p];
    var row := s.db.jobs[w.job];
    var one := [EnterAnalysis(p, NoFault)];
    RunOne(s, one[0]);
    EnterMoves(s, p);
    var s1 := Run(s, one);
    StaysReachable(s, one);
    RunStep(s, one, ReserveOrReuse(p, required, required, at, NoFault));
    ReservationOutcome(s1, p, required, required, at);
    var two := one + [ReserveOrReuse(p, required, required, at, NoFault)];
    var s2 := Run(s, two);
    RunStep(s, two, ReportReserved(p, at, at + 1, NoFault));
    SyncReportMoves(s2, p, at, at + 1);
    var three := two + [ReportReserved(p, at, at + 1, NoFault)];
    RunStep(s, three, StartCall(p));
    StartMoves(Run(s, three), p);
  }

  // ----- to the end -----

  function SyncActions(p: nat, user: UserId, repository: RepositoryId, token: Token, j: JobId, nonce: nat,
                       required: int, at: Time, requestId: RequestId, usage: Usage, scores: Scores): seq<Action> {
    StartingActions(p, user, repository, token, j, nonce, at) + CallingActions(p, required, at)
    + ([AnswerCall(p, Response(requestId, usage))] + SavingActions(p, at, at, at + 1, scores, at))
  }

  /** A synchronous run for a repository that is free ends with the report, paid, and the repository synchronized. */
  lemma SyncRunsAreServed(s: State, p: nat, user: UserId, repository: RepositoryId, token: Token, j: JobId, nonce: nat,
                          required: int, at: Time, requestId: RequestId, usage: Usage, scores: Scores)
    requires Reachable(s) && p !in s.runners && token !in s.minted && MaySync(s.db, user, repository, nonce, j, at)
    requires IsValidUsage(usage) && usage.totalTokens <= required <= s.db.balances[user]
    ensures var t := Run(s, SyncActions(p, user, repository, token, j, nonce, required, at, requestId, usage, scores));
            IsServed(s.db, t.db, user, repository, j, at, requestId, usage)
  {
    hide Reachable, Next, Run, HasBillingEvidence, IsFree, IsNewKey, StartingActions, CallingActions, SavingActions,
      EvidenceOf, Billed;
    var first := StartingActions(p, user, repository, token, j, nonce, at);
    SyncStarts(s, p, user, repository, token, j, nonce, at);
    StaysReachable(s, first);
    var s1 := Run(s, first);
    SyncCalls(s1, p, user, repository, required, at);
    RunThen(s, first, CallingActions(p, required, at));
    var two := first + CallingActions(p, required, at);
    StaysReachable(s, two);
    var s2 := Run(s, two);
    ResponsesAreSaved(s2, p, requestId, usage, at, at, at + 1, scores, at);
    var last := [AnswerCall(p, Response(requestId, usage))] + SavingActions(p, at, at, at + 1, scores, at);
    RunThen(s, two, last);
    Overwritten(s.db.balances, user, s.db.balances[user] - required, s.db.balances[user] - usage.totalTokens);
    StillTheUsers(s2, last, j);
  }
}
