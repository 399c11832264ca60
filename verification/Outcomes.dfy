/**
 What the protocol promises, over every run: acknowledgements, windows, reports, exclusivity, the outbox, the rate
 limit.
 */
module Outcomes {
  import opened Basics
  import opened JobRow
  import opened PublishStatements
  import opened StatService
  import opened Ledger
  import opened Acceptance
  import opened Protocol
  import opened Invariant
  import opened Interference
  import opened Steps
  import opened Safety
  import opened Theorems

  // ----- acknowledgements -----

  /**
   No work is lost: a message is acknowledged only when its job has ended, or when there is no such job at that moment.
   */
  lemma AcknowledgedMeansDone(s: State, a: Action, p: nat)
    requires Reachable(s) && p in Next(s, a).runners
    requires p in s.runners ==> s.runners[p].phase != Next(s, a).runners[p].phase
    ensures var s' := Next(s, a);
            var j := s'.runners[p].job;
            && (s'.runners[p].phase == Done(Finished) ==> j in s'.db.jobs && IsTerminal(s'.db.jobs[j]))
            && (s'.runners[p].phase == Done(Missing) ==> j !in s'.db.jobs)
  {
    hide Reachable, Inv, Next, Lawful, Remembers, TablesOk, RunnerWindowOk;
    ReachableIsSafe(s);
    NextKeeps(s, a);
    RunnerOf(Next(s, a), p);
  }

  // ----- windows -----

  lemma CoverageOf(s: State, r: RepositoryId)
    requires Inv(s) && r in s.db.repositories
    ensures CoveredUpTo(s.db, s.log, r, s.db.repositories[r].lastSyncTime)
    ensures forall j | j in s.log.finished :: j in s.db.jobs && FinishedOk(s.db.jobs[j], s.log.finished[j])
  {
    hide DbOk, RateOk, LogOk, RunnersOk, SendsOk, PublishersOk, CoveredUpTo, FinishedOk;
  }

  /** A job that ended SUCCEEDED or NO_ANALYZABLE_DATA and whose window holds the instant. */
  ghost predicate CollectedBy(db: Db, r: RepositoryId, x: Time, j: JobId) {
    && j in db.jobs && db.jobs[j].repositoryId == r && EndedCollected(db.jobs[j])
    && (IsSyncJob(db.jobs[j]) ||
        ((db.jobs[j].sourceCursor.Some? ==> db.jobs[j].sourceCursor.value < x) && x <= db.jobs[j].collectionCutoff))
  }

  /**
   Windows leave no gap: every instant after the observation began and up to lastSyncTime lies in the window
   (sourceCursor, collectionCutoff] of a job that ended with its data collected, however jobs were retried and in
   whatever order they finished. (A synchronous run's window is not on its row; the observer keeps it.)
   */
  lemma WindowsLeaveNoGap(s: State, r: RepositoryId, x: Time) returns (j: JobId)
    requires Reachable(s) && r in s.db.repositories && s.db.repositories[r].lastSyncTime.Some?
    requires AfterBaseline(s.log, r, x) && x <= s.db.repositories[r].lastSyncTime.value
    ensures CollectedBy(s.db, r, x, j)
    ensures j in s.log.finished && InWindow(s.log.finished[j], x)
  {
    hide Reachable, Inv;
    ReachableIsSafe(s);
    CoverageOf(s, r);
    assert Collected(s.db, s.log, r, x);
    j :| j in s.log.finished && j in s.db.jobs && s.db.jobs[j].repositoryId == r && InWindow(s.log.finished[j], x);
  }

  lemma NextSyncTime(s: State, a: Action, r: RepositoryId)
    requires Inv(s) && r in s.db.repositories
    ensures r in Next(s, a).db.repositories
    ensures SyncTimeAdvances(s.db.repositories[r].lastSyncTime, Next(s, a).db.repositories[r].lastSyncTime)
  {
    hide Inv, Next, DbOk, RateOk, LeasesReady, Counted, WindowStep, Balanced, Remembers, RowStep, IsFreshRow;
    var focus, window, token := AnyStep(s, a);
  }

  /** lastSyncTime never decreases. */
  lemma {:induction false} SyncTimeNeverDecreases(s: State, actions: seq<Action>, r: RepositoryId)
    requires Inv(s) && r in s.db.repositories
    ensures r in Run(s, actions).db.repositories
    ensures SyncTimeAdvances(s.db.repositories[r].lastSyncTime, Run(s, actions).db.repositories[r].lastSyncTime)
    decreases |actions|
  {
    hide Inv, Next;
    if actions != [] {
      NextSyncTime(s, actions[0], r);
      NextHolds(s, actions[0]);
      SyncTimeNeverDecreases(Next(s, actions[0]), actions[1..], r);
    }
  }

  /**
   Every finished window is synchronized: when a job of the repository's owner ends with its data collected, its window
   is on record, and from then on, in every run, lastSyncTime is no earlier than the window's end.
   */
  lemma FinishedWindowsAreSynced(s: State, a: Action, j: JobId, actions: seq<Action>)
    requires Reachable(s) && EndsCollected(s.db, Next(s, a).db, j) && OwnsRepository(s.db, s.db.jobs[j])
    ensures j in Next(s, a).log.finished
    ensures var r := s.db.jobs[j].repositoryId;
            var t := Run(Next(s, a), actions);
            r in t.db.repositories && SyncedUpTo(t.db.repositories[r], Next(s, a).log.finished[j].until)
  {
    hide Reachable, Inv, Next, Run, EndsCollected, Lawful, Remembers, MissingIsMissing, SendHistory;
    ReachableIsSafe(s);
    EndingJob(s.db, Next(s, a).db, j);
    NextKeeps(s, a);
    NextSyncTime(s, a, s.db.jobs[j].repositoryId);
    SyncTimeNeverDecreases(Next(s, a), actions, s.db.jobs[j].repositoryId);
  }

  lemma EndingJob(before: Db, after: Db, j: JobId)
    requires EndsCollected(before, after, j)
    ensures j in before.jobs
  {
  }

  /**
   lastSyncTime changes only when a job of the repository ends with its data collected, and then to its window's end.
   */
  lemma OnlyFinishedWindowsSync(s: State, a: Action, r: RepositoryId) returns (j: JobId)
    requires Reachable(s) && r in s.db.repositories && r in Next(s, a).db.repositories
    requires Next(s, a).db.repositories[r].lastSyncTime != s.db.repositories[r].lastSyncTime
    ensures EndsCollected(s.db, Next(s, a).db, j) && s.db.jobs[j].repositoryId == r
    ensures j in Next(s, a).log.finished
    ensures Next(s, a).db.repositories[r].lastSyncTime == Some(Next(s, a).log.finished[j].until)
  {
    hide Reachable, Inv, Next, EndsCollected, Checkpointed, Lawful, Remembers, MissingIsMissing, SendHistory;
    ReachableIsSafe(s);
    NextKeeps(s, a);
    var s' := Next(s, a);
    j :| j in s'.log.finished && SyncedBy(s.db, s'.db, r, j, s'.log.finished[j]);
    EndingJob(s.db, s'.db, j);
  }

  // ----- results -----

  /**
   A job has a report, its user's and its repository's, exactly if it SUCCEEDED; the user paid its usage, within its
   reservation.
   */
  lemma ReportIffSucceeded(s: State, j: JobId)
    requires Reachable(s) && j in s.db.jobs
    ensures j in s.db.reports <==> s.db.jobs[j].status == Succeeded
    ensures j in s.db.reports ==>
              var row := s.db.jobs[j];
              && s.db.reports[j] == Report(row.userId, row.repositoryId)
              && row.tokensSettledAt.Some? && row.totalTokens.Some? && row.reservedTokens.Some?
              && DebitOf(s.log, j) == row.totalTokens.value <= row.reservedTokens.value
  {
    hide Reachable, RateOk, LogOk, CoverageOk, ReceivedOk, RunnersOk, SendsOk, PublishersOk, HasBillingEvidence;
    ReachableIsSafe(s);
    RowOf(s, j);
    DebitIsHeld(s, j);
  }

  ghost function ReportsOf(db: Db, u: UserId): set<JobId> {
    set j | j in db.reports && db.reports[j].userId == u
  }

  lemma NewReport(before: Db, after: Db, id: JobId, report: Report, u: UserId)
    requires id !in before.reports && after.reports == before.reports[id := report]
    ensures ReportsOf(after, u) == ReportsOf(before, u) + (if report.userId == u then {id} else {})
  {
  }

  lemma NewStat(before: map<UserId, UserStat>, user: UserId, stat: UserStat, u: UserId)
    ensures var after := before[user := stat];
            (if u in after then Some(after[u]) else None) ==
              (if u == user then Some(stat) else if u in before then Some(before[u]) else None)
  {
  }

  lemma CountedStep(before: Db, after: Db, u: UserId)
    requires Counted(before, after)
    ensures CountOf(StatOf(after, u)) - CountOf(StatOf(before, u)) == |ReportsOf(after, u)| - |ReportsOf(before, u)|
  {
    if !(after.reports == before.reports && after.stats == before.stats) {
      var id: JobId, report: Report, stat: UserStat :|
        && id !in before.reports && after.reports == before.reports[id := report]
        && after.stats == before.stats[report.userId := stat]
        && stat.analysisCount == CountOf(StatOf(before, report.userId)) + 1;
      NewReport(before, after, id, report, u);
      NewStat(before.stats, report.userId, stat, u);
      assert id !in ReportsOf(before, u);
    }
  }

  lemma NextCounts(s: State, a: Action, u: UserId)
    requires Inv(s)
    ensures CountOf(StatOf(Next(s, a).db, u)) - CountOf(StatOf(s.db, u)) ==
              |ReportsOf(Next(s, a).db, u)| - |ReportsOf(s.db, u)|
  {
    hide Inv, Next, DbOk, RateOk, LeasesReady, Counted, WindowStep, Balanced, Remembers, Guarantee, ReportsOf, CountOf;
    var focus, window, token := AnyStep(s, a);
    CountedStep(s.db, Next(s, a).db, u);
  }

  /** analysisCount grows by exactly one per SUCCEEDED job, for any number of redeliveries and retries. */
  lemma {:induction false} AnalysesAreCounted(s: State, actions: seq<Action>, u: UserId)
    requires Inv(s)
    ensures CountOf(StatOf(Run(s, actions).db, u)) - CountOf(StatOf(s.db, u)) ==
              |ReportsOf(Run(s, actions).db, u)| - |ReportsOf(s.db, u)|
    decreases |actions|
  {
    hide Inv, Next, ReportsOf, CountOf;
    if actions != [] {
      NextCounts(s, actions[0], u);
      NextHolds(s, actions[0]);
      AnalysesAreCounted(Next(s, actions[0]), actions[1..], u);
    }
  }

  // ----- exclusivity and idempotency -----

  /** Two active jobs of a repository are one job, and two jobs of a user under one key are one job. */
  lemma ActiveAndKeyAreExclusive(s: State, i: JobId, j: JobId)
    requires Reachable(s) && i in s.db.jobs && j in s.db.jobs
    ensures var a, b := s.db.jobs[i], s.db.jobs[j];
            && (IsActive(a) && IsActive(b) && a.repositoryId == b.repositoryId ==> i == j)
            && (a.userId == b.userId && a.idempotencyKey == b.idempotencyKey ==> i == j)
  {
    hide Reachable, RateOk, LogOk, CoverageOk, ReceivedOk, RunnersOk, SendsOk, PublishersOk, RowsOk, ReportsOk;
    ReachableIsSafe(s);
  }

  lemma {:induction false} RequestIsKept(s: State, actions: seq<Action>, j: JobId)
    requires Inv(s) && j in s.db.jobs
    ensures j in Run(s, actions).db.jobs && SameRequest(s.db.jobs[j], Run(s, actions).db.jobs[j])
    decreases |actions|
  {
    hide Inv, Next, RowOk;
    if actions != [] {
      RowMoved(s, actions[0], j);
      hide RowStep;
      SameRequestMoves(s.db.jobs[j], Next(s, actions[0]).db.jobs[j]);
      NextHolds(s, actions[0]);
      RequestIsKept(Next(s, actions[0]), actions[1..], j);
    }
  }

  lemma SameRequestMoves(before: Job, after: Job)
    requires RowMoves(before, after)
    ensures SameRequest(before, after)
  {
  }

  lemma FoundByKey(db: Db, j: JobId)
    requires OneJobPerKey(db) && j in db.jobs
    ensures ExistingJob(db, db.jobs[j].userId, db.jobs[j].idempotencyKey) == Some(j)
  {
    assert KeyTaken(db, db.jobs[j].userId, db.jobs[j].idempotencyKey);
  }

  /**
   An idempotency key belongs to its job for ever: however much later, the same request is answered with that job and
   any other request under the key is refused. Nothing is created either way.
   */
  lemma ReplayFindsTheJob(s: State, actions: seq<Action>, j: JobId, request: Request, source: Option<Job>, id: JobId,
                          version: Version, now: Time)
    requires Reachable(s) && j in s.db.jobs
    ensures var row := s.db.jobs[j];
            AcceptJob(Run(s, actions).db, row.userId, row.idempotencyKey, request, source, id, version, now) ==
            if row.request == request then Replayed(j) else IdempotencyKeyReused
  {
    hide Reachable, Inv, Run, CreateExclusive, IsRateLimited, ExistingJob, RequestedJob, OneJobPerKey;
    ReachableIsSafe(s);
    RunKeeps(s, actions);
    RequestIsKept(s, actions, j);
    KeysOf(Run(s, actions));
    FoundByKey(Run(s, actions).db, j);
  }

  lemma KeysOf(s: State)
    requires Inv(s)
    ensures OneJobPerKey(s.db)
  {
    hide RateOk, LogOk, CoverageOk, ReceivedOk, RunnersOk, SendsOk, PublishersOk, RowsOk, ReportsOk,
      OneActivePerRepository, OneJobPerKey;
  }

  // ----- the outbox -----

  /**
   A job that no worker ever claimed and that ended PUBLISH_FAILED was rejected by the queue every time it was sent.
   */
  lemma GivingUpIsJustified(s: State, j: JobId, k: Send)
    requires Reachable(s) && j in s.db.jobs && s.db.jobs[j].lastErrorCode == Some(PublishFailed)
    requires s.db.jobs[j].attemptCount == 0
    requires k in s.log.sends && k.job == j
    ensures s.log.sends[k] == Rejected && s.db.jobs[j].messagePublishedAt.None?
  {
    hide Reachable, TablesOk, RunnersOk, PublishersOk, DeliveryUncertain;
    ReachableIsSafe(s);
    assert OutboxRowOk(s.db.jobs[j], s.log, j);
  }

  /** The queue delivers only what it was sent and did not reject. */
  ghost predicate OnlySentMessages(log: Log) {
    forall j | j in log.received :: exists k | k in log.sends && k.job == j :: log.sends[k] != Rejected
  }

  /**
   Exactly when giving up is justified. As far as the queue delivers only what it was sent and did not reject, a job
   that ended PUBLISH_FAILED had every one of its sends rejected if and only if no worker ever claimed it.
   */
  lemma GivingUpIffUnclaimed(s: State, j: JobId)
    requires Reachable(s) && j in s.db.jobs && s.db.jobs[j].lastErrorCode == Some(PublishFailed)
    requires OnlySentMessages(s.log)
    ensures s.db.jobs[j].attemptCount == 0 <==> forall k | k in s.log.sends && k.job == j :: s.log.sends[k] == Rejected
  {
    hide Reachable, Inv;
    ReachableIsSafe(s);
    if s.db.jobs[j].attemptCount == 0 {
      forall k | k in s.log.sends && k.job == j ensures s.log.sends[k] == Rejected {
        GivingUpIsJustified(s, j, k);
      }
    } else {
      ClaimedWereReceived(s, j);
    }
  }

  /** attemptCount rises only for a worker that received a message of the job. */
  lemma ClaimedWereReceived(s: State, j: JobId)
    requires Inv(s) && j in s.db.jobs && s.db.jobs[j].attemptCount > 0
    ensures j in s.log.received
  {
    hide DbOk, RateOk, LogOk, CoverageOk, RunnersOk, SendsOk, PublishersOk;
  }

  lemma NextSends(s: State, a: Action)
    requires Inv(s)
    ensures SendHistory(s, Next(s, a))
  {
    hide Inv, Next, Lawful, Remembers, MissingIsMissing, SendHistory;
    NextKeeps(s, a);
  }

  /** Whoever starts to send, in whatever step, sends under an attempt number of its job that was never sent before. */
  lemma SendKeysAreFresh(s: State, a: Action, q: nat)
    requires Reachable(s) && StartsSending(s, Next(s, a), q)
    ensures KeyOf(Next(s, a).publishers[q]) !in s.log.sends
    ensures KeyOf(Next(s, a).publishers[q]) in Next(s, a).log.sends
  {
    hide Reachable, Inv, Next, SendsKept;
    ReachableIsSafe(s);
    NextSends(s, a);
  }

  /** Over every run: no send is forgotten, and what the queue answered is never replaced by another answer. */
  lemma {:induction false} SendOutcomesStay(s: State, actions: seq<Action>, k: Send)
    requires Inv(s) && k in s.log.sends
    ensures k in Run(s, actions).log.sends
    ensures s.log.sends[k] != InFlight ==> Run(s, actions).log.sends[k] == s.log.sends[k]
    decreases |actions|
  {
    hide Inv, Next, StartsSending, KeyOf;
    if actions != [] {
      NextSends(s, actions[0]);
      NextHolds(s, actions[0]);
      SendOutcomesStay(Next(s, actions[0]), actions[1..], k);
    }
  }

  /**
   Each attempt number of a job has at most one sender in the whole run: once a publisher has started to send, then
   after any number of further actions, whatever became of that send, whoever starts to send does so under another
   attempt.
   */
  lemma OneSender(s: State, a: Action, q: nat, actions: seq<Action>, b: Action, r: nat)
    requires Reachable(s) && StartsSending(s, Next(s, a), q)
    requires var t := Run(Next(s, a), actions); StartsSending(t, Next(t, b), r)
    ensures var t := Run(Next(s, a), actions); KeyOf(Next(t, b).publishers[r]) != KeyOf(Next(s, a).publishers[q])
  {
    hide Reachable, Inv, Next, Run, SendsKept;
    ReachableIsSafe(s);
    NextSends(s, a);
    NextHolds(s, a);
    var k := KeyOf(Next(s, a).publishers[q]);
    SendOutcomesStay(Next(s, a), actions, k);
    RunKeeps(Next(s, a), actions);
    NextSends(Run(Next(s, a), actions), b);
  }

  /** Two publishers that are sending at the same time send under different attempt numbers, both of them claimed. */
  lemma SendersDiffer(s: State, q: nat, r: nat)
    requires Reachable(s) && q in s.publishers && r in s.publishers && q != r
    requires s.publishers[q].phase.Sending? && s.publishers[r].phase.Sending?
    requires s.publishers[q].job == s.publishers[r].job
    ensures s.publishers[q].phase.attempt != s.publishers[r].phase.attempt
    ensures s.publishers[q].job in s.db.jobs
    ensures s.publishers[q].phase.attempt <= s.db.jobs[s.publishers[q].job].publishAttempts
  {
    hide Reachable, TablesOk, RunnersOk, SendsOk, Knows, DeliveryUncertain;
    ReachableIsSafe(s);
    assert PublisherOk(s.publishers[q], s.db, s.log);
  }

  lemma SuccessMoves(before: Job, after: Job)
    requires RowMoves(before, after) && before.messagePublishedAt.Some?
    ensures after.messagePublishedAt.Some?
  {
  }

  /** A recorded publication is never taken back, and a job whose publication is recorded is never given up. */
  lemma {:induction false} PublicationStays(s: State, actions: seq<Action>, j: JobId)
    requires Inv(s) && j in s.db.jobs && s.db.jobs[j].messagePublishedAt.Some?
    ensures j in Run(s, actions).db.jobs
    ensures Run(s, actions).db.jobs[j].messagePublishedAt.Some?
    ensures Run(s, actions).db.jobs[j].lastErrorCode != Some(PublishFailed)
    decreases |actions|
  {
    hide Inv, Next, RowMoves, RowOk;
    if actions == [] {
      PublishedIsNotGivenUp(s, j);
    } else {
      RowMoved(s, actions[0], j);
      SuccessMoves(s.db.jobs[j], Next(s, actions[0]).db.jobs[j]);
      NextHolds(s, actions[0]);
      PublicationStays(Next(s, actions[0]), actions[1..], j);
    }
  }

  lemma PublishedIsNotGivenUp(s: State, j: JobId)
    requires Inv(s) && j in s.db.jobs && s.db.jobs[j].messagePublishedAt.Some?
    ensures s.db.jobs[j].lastErrorCode != Some(PublishFailed)
  {
    hide TablesOk, RunnersOk, PublishersOk, DeliveryUncertain, RejectedUpTo;
    assert OutboxRowOk(s.db.jobs[j], s.log, j);
  }

  // ----- the rate limit -----

  lemma {:induction false} Earliest(db: Db, jobs: set<JobId>) returns (first: JobId)
    requires jobs != {} && jobs <= db.jobs.Keys
    ensures first in jobs && forall j | j in jobs :: db.jobs[first].createdAt <= db.jobs[j].createdAt
    decreases |jobs|
  {
    first :| first in jobs;
    if jobs != {first} {
      var rest := Earliest(db, jobs - {first});
      if db.jobs[rest].createdAt < db.jobs[first].createdAt {
        first := rest;
      }
    }
  }

  /** Accepted jobs of one user whose createdAt values all lie less than 60 seconds apart are at most five. */
  lemma NoSixWithinAMinute(s: State, user: UserId, jobs: set<JobId>)
    requires Reachable(s) && jobs <= s.db.jobs.Keys
    requires forall j | j in jobs :: s.db.jobs[j].userId == user && !IsSyncJob(s.db.jobs[j])
    requires forall i, j | i in jobs && j in jobs ::
               s.db.jobs[i].createdAt - s.db.jobs[j].createdAt < 60_000
    ensures |jobs| <= 5
  {
    hide Reachable, DbOk, LogOk, CoverageOk, ReceivedOk, RunnersOk, SendsOk, PublishersOk;
    ReachableIsSafe(s);
    if jobs != {} {
      var first := Earliest(s.db, jobs);
      var from := s.db.jobs[first].createdAt;
      assert jobs <= CreatedWithin(s.db, user, from);
      SubsetSize(jobs, CreatedWithin(s.db, user, from));
    }
  }

  // ----- from the very beginning -----

  /** The invariant, and with it everything above, holds after every run that starts with an empty job table. */
  lemma EveryRunIsSafe(s: State, actions: seq<Action>, u: UserId)
    requires Initial(s) && u in s.db.balances
    ensures Inv(Run(s, actions))
    ensures u in Run(s, actions).db.balances
    ensures Run(s, actions).db.balances[u] + SumHeld(Run(s, actions).db.jobs, Run(s, actions).db.jobs.Keys, u) ==
              s.db.balances[u]
  {
    hide Inv, Run, Initial;
    InitialHolds(s);
    RunKeeps(s, actions);
    TokensConserved(s, actions, u);
    NothingHeld(s, u);
  }

  lemma NothingHeld(s: State, u: UserId)
    requires Initial(s) && u in s.db.balances
    ensures Total(s.db, u) == s.db.balances[u]
  {
  }
}
