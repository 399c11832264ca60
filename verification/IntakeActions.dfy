/** Actions that start runners, accept jobs and serve other requests keep the invariant. */
module IntakeActions {
  import opened Basics
  import opened JobRow
  import opened JobStatements
  import opened Ledger
  import opened Transactions
  import opened Acceptance
  import opened Admission
  import opened Protocol
  import opened Invariant
  import opened Interference
  import opened Steps
  import opened StepLemmas
  import opened RunnerActions

  lemma ReceiveMessageKeeps(s: State, p: nat, job: JobId, token: Token, receiveCount: nat)
    requires Inv(s)
    ensures Advances(s, DoReceiveMessage(s, p, job, token, receiveCount))
  {
    hide Advances, Inv, Ungranted, NotCalled;
    Stutter(s);
    if p !in s.runners && token !in s.minted {
      MintKeeps(s, p, Runner(Background, job, token, receiveCount, 0, 0, Window(None, 0), Started),
                s.log.received + {job});
    }
  }

  lemma RepositoryCovered(s: State, repository: RepositoryId)
    requires Inv(s) && repository in s.db.repositories
    ensures CoveredUpTo(s.db, s.log, repository, s.db.repositories[repository].lastSyncTime)
  {
    hide DbOk, RateOk, LogOk, RunnersOk, SendsOk, PublishersOk, CoveredUpTo;
  }

  lemma SyncBeginKeeps(s: State, p: nat, user: UserId, repository: RepositoryId, token: Token, now: Time)
    requires Inv(s)
    ensures Advances(s, DoSyncBegin(s, p, user, repository, token, now))
  {
    hide Advances, Inv, Ungranted, NotCalled, CoveredUpTo;
    Stutter(s);
    if p !in s.runners && token !in s.minted && user in s.db.balances && repository in s.db.repositories
       && s.db.repositories[repository].ownerId == user
    {
      RepositoryCovered(s, repository);
      MintKeeps(s, p,
                Runner(Sync, 0, token, 0, 0, 0, Window(s.db.repositories[repository].lastSyncTime, now),
                       SyncCollected(user, repository)), s.log.received);
    }
  }

  // ----- the synchronous run's own claim -----

  lemma SyncStartStepOk(db: Db, log: Log, w: Runner, now: Time, expires: Time)
    requires DbOk(db) && MayCall(w, log) && Ungranted(w, log) && w.job in db.jobs && IsSyncJob(db.jobs[w.job])
    requires StartSync(db.jobs[w.job], w.token, expires, now).Some?
    ensures RowStepOk(db, Put(db, w.job, StartSync(db.jobs[w.job], w.token, expires, now).value), log, w.job, w.window,
                      Some(w.token))
  {
    hide RowOk, RowStep, DbOk, RowStepOk, HasBillingEvidence, NotCalled;
    RowHolds(db, w.job);
    SyncStartQuiet(db.jobs[w.job], w.token, expires, now);
    StatementStepOk(db, log, w.job, StartSync(db.jobs[w.job], w.token, expires, now).value, w.window, Some(w.token));
  }

  lemma SyncStartQuiet(job: Job, token: Token, expires: Time, now: Time)
    requires RowOk(job) && IsSyncJob(job) && StartSync(job, token, expires, now).Some?
    ensures var row := StartSync(job, token, expires, now).value;
            PublishUntouched(job, row) && Held(row) == Held(job) && row.status == Running
  {
    hide RowStep, HasBillingEvidence;
  }

  lemma SyncStartFacts(s: State, p: nat, now: Time, expires: Time)
    requires At(s, p) && s.runners[p].phase.SyncQueued?
    ensures var w := s.runners[p];
            && w.job in s.db.jobs
            && WriteOk(s, p, PutRow(s.db, w.job, StartSync(s.db.jobs[w.job], w.token, expires, now)), Entering,
                       Done(Threw), Some(w.token))
  {
    hide RunnerWindowOk, RowStepOk, LogOk, CoverageOk, ReceivedOk, RateOk, DbOk, StartSync;
    var w := s.runners[p];
    if StartSync(s.db.jobs[w.job], w.token, expires, now).Some? {
      SyncStartStepOk(s.db, s.log, w, now, expires);
    }
  }

  lemma SyncStartKeeps(s: State, p: nat, now: Time, expires: Time, fault: Fault)
    requires Inv(s)
    ensures Advances(s, DoSyncStart(s, p, now, expires, fault))
  {
    hide Advances, Inv, At, WriteOk, Write, StartSync;
    Stutter(s);
    if p in s.runners && s.runners[p].phase.SyncQueued? {
      var w := s.runners[p];
      RunnerAt(s, p);
      SyncStartFacts(s, p, now, expires);
      WriteKeeps(s, p, PutRow(s.db, w.job, StartSync(s.db.jobs[w.job], w.token, expires, now)), fault, Entering,
                 Done(Threw), Some(w.token));
    }
  }

  // ----- new jobs -----

  /** An insertion touches no row that anybody holds, and its window starts where coverage ends. */
  lemma InsertionStepOk(db: Db, after: Db, log: Log, id: JobId, window: Window)
    requires DbOk(after) && RateOk(after) && Guarantee(db, after, None) && Balanced(db, after, id)
    requires id !in db.jobs && after.jobs.Keys == db.jobs.Keys + {id} && OtherTablesSame(db, after)
    requires CoveredUpTo(db, log, after.jobs[id].repositoryId, after.jobs[id].sourceCursor)
    requires forall j :: !EndsCollected(db, after, j)
    ensures StepOk(db, after, log, id, window, None)
  {
    hide DbOk, RateOk, Guarantee, Balanced, CoveredUpTo, FinishedOk, LeasesReady;
    NoLeaseGiven(db, after, log);
  }

  /** Neither the new job nor a recovered one ends with its data collected. */
  lemma InsertionEndsNothing(db: Db, after: Db, id: JobId, repository: RepositoryId, row: Job, now: Time)
    requires DbOk(db) && id !in db.jobs && after == Put(RecoverStaleJobs(db, repository, now), id, row)
    ensures forall j :: !EndsCollected(db, after, j)
  {
    hide RowOk, ReportsOk, OneActivePerRepository, OneJobPerKey, BalancesOk, RecoverStaleJobs;
    forall j ensures !EndsCollected(db, after, j) {
      if j in db.jobs {
        RecoveredJob(db, repository, now, j);
      }
    }
  }

  lemma AcceptedEndsNothing(db: Db, user: UserId, key: Key, request: Request, source: Option<Job>, id: JobId,
                            version: Version, now: Time)
    requires DbOk(db) && AcceptJob(db, user, key, request, source, id, version, now).Accepted?
    ensures forall j :: !EndsCollected(db, AcceptJob(db, user, key, request, source, id, version, now).db, j)
  {
    hide EndsCollected, RowsOk, RecoverStaleJobs, CreateExclusive, IsRateLimited, RequestedJob, IsFree;
    var repository := Wanted(request, source).value;
    var row := RequestedJob(db, user, key, request, source, repository, version, now);
    RequestedRow(db, user, key, request, source, repository, version, now);
    ExclusiveIff(db, id, row, now);
    var after := AcceptJob(db, user, key, request, source, id, version, now).db;
    InsertionEndsNothing(db, after, id, repository, row, now);
  }

  lemma CursorCovered(s: State, user: UserId, key: Key, request: Request, source: Option<JobId>,
                      repository: RepositoryId, version: Version, now: Time)
    requires Inv(s) && repository in s.db.repositories
    requires source.Some? ==> source.value in s.db.jobs && s.db.jobs[source.value].repositoryId == repository
    ensures var from := if source.Some? then Some(s.db.jobs[source.value]) else None;
            var row := RequestedJob(s.db, user, key, request, from, repository, version, now);
            row.repositoryId == repository && CoveredUpTo(s.db, s.log, repository, row.sourceCursor) &&
              row.createdAt == now && row.userId == user
  {
    hide DbOk, RateOk, LogOk, RunnersOk, SendsOk, PublishersOk, CoveredUpTo;
  }

  lemma TablesParts(s: State)
    requires Inv(s)
    ensures DbOk(s.db) && RateOk(s.db)
  {
    hide DbOk, RateOk, LogOk, CoverageOk, ReceivedOk, RunnersOk, SendsOk, PublishersOk;
  }

  lemma AcceptKeeps(s: State, user: UserId, key: Key, request: Request, source: Option<JobId>, job: JobId,
                    version: Version, now: Time)
    requires Inv(s) && (source.Some? ==> source.value in s.db.jobs)
    requires request.Create? <==> source.None?
    ensures var from := if source.Some? then Some(s.db.jobs[source.value]) else None;
            var outcome := AcceptJob(s.db, user, key, request, from, job, version, now);
            outcome.Accepted? ==> Advances(s, Serve(s, outcome.db, job))
  {
    hide Inv, AcceptJob, DbOk, RateOk, Guarantee, Balanced, PublishQuiet, StepOk, IsRateLimited, CoveredUpTo,
      CarriesRequests, RequestedJob, Serve, EndsCollected;
    var from := if source.Some? then Some(s.db.jobs[source.value]) else None;
    var outcome := AcceptJob(s.db, user, key, request, from, job, version, now);
    if outcome.Accepted? {
      var after := outcome.db;
      TablesParts(s);
      AcceptJobKeeps(s.db, user, key, request, from, job, version, now);
      TargetOf(request, from);
      var repository := TargetRepository(request, from).value;
      CursorCovered(s, user, key, request, source, repository, version, now);
      GuaranteeCarries(s.db, after, None);
      RateKeptByAcceptance(s.db, after, job, now);
      AcceptedEndsNothing(s.db, user, key, request, from, job, version, now);
      InsertionStepOk(s.db, after, s.log, job, Window(None, 0));
      ServeKeeps(s, after, job);
    }
  }

  lemma TargetOf(request: Request, from: Option<Job>)
    ensures request.Retry? && from.Some? ==> TargetRepository(request, from) == Some(from.value.repositoryId)
    ensures request.SyncRequest? ==> TargetRepository(request, from).None?
  {
  }

  lemma AcceptCreateKeeps(s: State, user: UserId, key: nat, repository: RepositoryId, job: JobId, version: Version,
                          now: Time)
    requires Inv(s)
    ensures Advances(s, DoAcceptCreate(s, user, key, repository, job, version, now))
  {
    hide Advances, Inv, AcceptJob, Serve;
    Stutter(s);
    AcceptKeeps(s, user, ApiKey(key), Create(repository), None, job, version, now);
  }

  lemma AcceptRetryKeeps(s: State, user: UserId, key: nat, source: JobId, job: JobId, version: Version, now: Time)
    requires Inv(s)
    ensures Advances(s, DoAcceptRetry(s, user, key, source, job, version, now))
  {
    hide Advances, Inv, AcceptJob, Serve;
    Stutter(s);
    if source in s.db.jobs {
      AcceptKeeps(s, user, ApiKey(key), Retry(source), Some(source), job, version, now);
    }
  }

  lemma ReceiveInvalidMessageKeeps(s: State, job: JobId, now: Time)
    requires Inv(s)
    ensures Advances(s, DoReceiveInvalidMessage(s, job, now))
  {
    hide Advances, Inv, SettleJob, RowStepOk, StepOk, DbOk, RateOk, PublishQuiet, Serve;
    Stutter(s);
    if SettleJob(s.db, job, Queued, None, InvalidMessage, false, now).SettledIn? {
      var after := SettleJob(s.db, job, Queued, None, InvalidMessage, false, now).db;
      TablesParts(s);
      SettleStepOk(s.db, s.log, job, Window(None, 0), Queued, None, InvalidMessage, false, now);
      RowStepIsStep(s.db, after, s.log, job, Window(None, 0), None);
      QuietPart(s.db, after, s.log, job, Window(None, 0), None);
      ServeKeeps(s, after, job);
    }
  }

  lemma QuietPart(db: Db, after: Db, log: Log, focus: JobId, window: Window, token: Option<Token>)
    requires RowStepOk(db, after, log, focus, window, token)
    ensures PublishQuiet(db, after)
  {
    hide DbOk, Guarantee, Balanced, PublishQuiet, TouchesOnly, RepositoryStep, LeaseReady;
  }

  /** Only the owner columns of repositories differ. */
  ghost predicate OwnersDiffer(db: Db, after: Db) {
    && after == db.(repositories := after.repositories) && after.repositories.Keys == db.repositories.Keys
    && (forall r | r in db.repositories :: after.repositories[r].lastSyncTime == db.repositories[r].lastSyncTime)
  }

  lemma SameJobsExclusive(db: Db, after: Db)
    requires after.jobs == db.jobs
    ensures OneActivePerRepository(db) ==> OneActivePerRepository(after)
    ensures OneJobPerKey(db) ==> OneJobPerKey(after)
  {
  }

  lemma TransferKeepsTables(db: Db, after: Db)
    requires DbOk(db) && RateOk(db) && OwnersDiffer(db, after)
    ensures DbOk(after) && RateOk(after)
  {
    hide RowOk, OneActivePerRepository, OneJobPerKey;
    SameJobsExclusive(db, after);
    assert RowsOk(after);
    RateKept(db, after);
  }

  lemma TransferStepOk(db: Db, after: Db, log: Log)
    requires DbOk(db) && RateOk(db) && OwnersDiffer(db, after)
    ensures StepOk(db, after, log, 0, Window(None, 0), None) && PublishQuiet(db, after)
  {
    hide DbOk, RateOk, Held, FinishedOk, HasBillingEvidence, RowOk;
    TransferKeepsTables(db, after);
  }

  lemma TransferRepositoryKeeps(s: State, repository: RepositoryId, newOwner: UserId)
    requires Inv(s)
    ensures Advances(s, DoTransferRepository(s, repository, newOwner))
  {
    hide Advances, Inv, StepOk, DbOk, RateOk, PublishQuiet, Serve;
    Stutter(s);
    if repository in s.db.repositories {
      var row := s.db.repositories[repository].(ownerId := newOwner);
      var after := s.db.(repositories := s.db.repositories[repository := row]);
      TablesParts(s);
      TransferStepOk(s.db, after, s.log);
      ServeKeeps(s, after, 0);
    }
  }

  // ----- the synchronous run's job -----

  lemma SyncInsertStepOk(db: Db, after: Db, log: Log, id: JobId, row: Job, window: Window, now: Time)
    requires DbOk(db) && RateOk(db) && CreateExclusive(db, id, row, now) == Some(after)
    requires RowOk(row) && IsFreshRow(row) && IsSyncJob(row) && row.sourceCursor.None?
    requires row.userId in db.balances && row.repositoryId in db.repositories
    ensures StepOk(db, after, log, id, window, None) && PublishQuiet(db, after)
    ensures id !in db.jobs && id in after.jobs && after.jobs[id] == row && Guarantee(db, after, None)
  {
    hide CreateExclusive, RateOk, DbOk, RowsOk, Guarantee, Balanced, PublishQuiet, StepOk, RowOk, IsFreshRow,
      CarriesRequests, EndsCollected, IsFree;
    CreateExclusiveKeeps(db, id, row, now);
    GuaranteeCarries(db, after, None);
    RateKept(db, after);
    RowsOf(db);
    ExclusiveIff(db, id, row, now);
    InsertionEndsNothing(db, after, id, row.repositoryId, row, now);
    InsertionStepOk(db, after, log, id, window);
  }

  lemma RowsOf(db: Db)
    requires DbOk(db)
    ensures RowsOk(db)
  {
    hide RowsOk, ReportsOk, OneActivePerRepository, OneJobPerKey, BalancesOk;
  }

  /** The run that created the job holds the job's first ticket. */
  lemma TicketIssued(s: State, p: nat, phase: Phase)
    requires Inv(s) && p in s.runners && s.runners[p].phase == Done(Threw)
    requires (phase == SyncQueued || phase == Done(Threw))
    requires s.runners[p].job in s.db.jobs && IsSyncJob(s.db.jobs[s.runners[p].job]) && s.runners[p].kind == Sync
    requires TokensOf(s.log.tickets, s.runners[p].job) == {} && NotCalled(s.runners[p], s.log)
    requires Ungranted(s.runners[p], s.log)
    requires CoveredUpTo(s.db, s.log, s.db.jobs[s.runners[p].job].repositoryId, s.runners[p].window.from)
    ensures var w := s.runners[p];
            Inv(s.(runners := s.runners[p := w.(phase := phase)],
                   log := s.log.(tickets := s.log.tickets[w.job := {w.token}])))
  {
    hide Audit, DbOk, RateOk, PublisherOk, OutboxRowOk, RunnerOk, CoveredUpTo, JobLogOk, FinishedOk,
      OneSenderPerAttempt, Ungranted;
    var w := s.runners[p];
    var log' := s.log.(tickets := s.log.tickets[w.job := {w.token}]);
    RunnerOf(s, p);
    TicketTables(s, log');
    TokenMinted(w, s.db, s.log, s.minted);
    TicketLogOk(s.db, s.log, s.minted, w);
    forall q | q in s.runners ensures RunnerOk(s.runners[q], s.db, log', s.minted) {
      TicketOthers(s.runners[q], s.db, s.log, s.minted, w);
    }
    SameGrants(w, s.log, log');
    NewTicketHolder(w, s.db, log', s.minted, phase);
  }

  lemma TokenMinted(w: Runner, db: Db, log: Log, minted: set<Token>)
    requires RunnerOk(w, db, log, minted)
    ensures w.token in minted
  {
    hide PhaseOk, RunnerWindowOk;
  }

  lemma SameGrants(w: Runner, log: Log, log': Log)
    requires Ungranted(w, log) && log'.granted == log.granted
    ensures Ungranted(w, log')
  {
  }

  lemma NewTicketHolder(w: Runner, db: Db, log: Log, minted: set<Token>, phase: Phase)
    requires RunnerOk(w, db, log, minted) && (phase == SyncQueued || phase == Done(Threw))
    requires w.job in db.jobs && IsSyncJob(db.jobs[w.job]) && w.kind == Sync
    requires w.token in TokensOf(log.tickets, w.job) && NotCalled(w, log) && Ungranted(w, log)
    requires CoveredUpTo(db, log, db.jobs[w.job].repositoryId, w.window.from)
    ensures RunnerOk(w.(phase := phase), db, log, minted)
  {
    hide CoveredUpTo;
  }

  lemma TicketTables(s: State, log': Log)
    requires Inv(s) && log' == s.log.(tickets := log'.tickets)
    ensures CoverageOk(s.db, log') && SendsOk(s.db, log') && PublishersOk(s.publishers, s.db, log')
    ensures forall r, until | CoveredUpTo(s.db, s.log, r, until) :: CoveredUpTo(s.db, log', r, until)
  {
    hide DbOk, RateOk, LogOk, RunnersOk, CoverageOk, CoveredUpTo, SendsOk, PublishersOk, OneSenderPerAttempt;
    SameCoverage(s.db, s.log, log');
    SameSends(s.publishers, s.db, s.log, log');
  }

  lemma TicketEntry(row: Job, granted: set<Token>, calls: seq<Token>, debit: int, minted: set<Token>, token: Token)
    requires JobLogOk(row, granted, {}, calls, debit, minted) && IsSyncJob(row) && token in minted
    ensures JobLogOk(row, granted, {token}, calls, debit, minted)
  {
    hide HasBillingEvidence, Held, NoRepeats, IsSyncJob;
    assert LeaseOf(row) <= {} ==> LeaseOf(row) <= {token};
  }

  lemma TicketLogOk(db: Db, log: Log, minted: set<Token>, w: Runner)
    requires LogOk(db, log, minted) && w.job in db.jobs && IsSyncJob(db.jobs[w.job]) && w.token in minted
    requires TokensOf(log.tickets, w.job) == {}
    ensures LogOk(db, log.(tickets := log.tickets[w.job := {w.token}]), minted)
  {
    hide JobLogOk, IsSyncJob;
    var log' := log.(tickets := log.tickets[w.job := {w.token}]);
    forall j | j in db.jobs ensures LogAt(db.jobs[j], log', j, minted) {
      assert LogAt(db.jobs[j], log, j, minted);
      if j == w.job {
        TicketEntry(db.jobs[j], TokensOf(log.granted, j), CallsOf(log, j), DebitOf(log, j), minted, w.token);
      }
    }
  }

  lemma TicketOthers(v: Runner, db: Db, log: Log, minted: set<Token>, w: Runner)
    requires RunnerOk(v, db, log, minted) && TokensOf(log.tickets, w.job) == {}
    ensures RunnerOk(v, db, log.(tickets := log.tickets[w.job := {w.token}]), minted)
  {
    hide Clean, Stored, AtMostBilled, RecoveryOk, ChargeOk, CoveredUpTo, WindowOfRow, ValidIfKnown;
    var log' := log.(tickets := log.tickets[w.job := {w.token}]);
    if v.phase.SyncCollected? {
      CoverageGrows(db, db, log, log', v.phase.repositoryId, v.window.from);
    }
    if HasWindow(v.phase) {
      CoverageGrows(db, db, log, log', db.jobs[v.job].repositoryId, v.window.from);
    }
  }

  lemma CollectedAt(s: State, p: nat)
    requires At(s, p) && s.runners[p].phase.SyncCollected?
    ensures var ph := s.runners[p].phase;
            && ph.userId in s.db.balances && ph.repositoryId in s.db.repositories
            && Ungranted(s.runners[p], s.log) && CoveredUpTo(s.db, s.log, ph.repositoryId, s.runners[p].window.from)
            && s.runners[p].token in s.minted && s.runners[p].kind == Sync
  {
    hide TablesOk, CoveredUpTo;
  }

  lemma NothingKnown(s: State, p: nat, job: JobId)
    requires At(s, p) && job !in s.db.jobs
    ensures CallsOf(s.log, job) == [] && TokensOf(s.log.tickets, job) == {}
  {
    hide RunnerOk, DbOk, RateOk, CoverageOk, ReceivedOk, JobLogOk;
  }

  lemma ThrewOk(w: Runner, db: Db, log: Log, minted: set<Token>)
    requires w.token in minted && w.phase == Done(Threw) && w.kind == Sync
    ensures RunnerOk(w, db, log, minted)
  {
  }

  lemma InsertedBySync(s: State, p: nat, w: Runner, after: Db)
    requires Inv(s) && p in s.runners && At(s, p) && w == s.runners[p].(job := w.job, phase := Done(Threw))
    requires s.runners[p].phase.SyncCollected?
    requires StepOk(s.db, after, s.log, w.job, w.window, None) && PublishQuiet(s.db, after)
    requires Guarantee(s.db, after, None)
    requires w.job !in s.db.jobs && w.job in after.jobs
    requires after.jobs[w.job].repositoryId == s.runners[p].phase.repositoryId
    requires after.jobs[w.job].leaseToken.None? && after.jobs[w.job].attemptCount == 0
    ensures Advances(s, Move(s, p, w, after))
    ensures var log' := Move(s, p, w, after).log;
            && TokensOf(log'.tickets, w.job) == {} && NotCalled(w, log') && Ungranted(w, log')
            && CoveredUpTo(after, log', after.jobs[w.job].repositoryId, w.window.from)
  {
    hide Inv, Advances, At, StepOk, PublishQuiet, RunnerOk, Audit, Guarantee, CoveredUpTo, Ungranted, CarriesRequests,
      CoverageOk, ReceivedOk, FinishedGrows, EndsCollected, DbOk, RateOk, LogOk, RowsOk;
    var log' := Audit(s.log, s.db, after, w.job, w.window);
    CollectedAt(s, p);
    NothingKnown(s, p, w.job);
    ThrewOk(w, after, log', s.minted);
    MoveKeeps(s, p, w, after, None);
    AuditAt(s.log, s.db, after, w.job, w.window, w.job);
    TablesAt(s, p);
    SameTokenUngranted(s.runners[p], w, s.log);
    StaysUngranted(s.db, after, s.log, w.job, w.window, w, None, s.minted);
    GuaranteeCarries(s.db, after, None);
    FinishedKept(s.db, after, s.log, w.job, w.window);
    CoverageGrows(s.db, after, s.log, log', after.jobs[w.job].repositoryId, w.window.from);
  }

  lemma SameTokenUngranted(w: Runner, w': Runner, log: Log)
    requires Ungranted(w, log) && w'.token == w.token
    ensures Ungranted(w', log)
  {
  }

  lemma TablesAt(s: State, p: nat)
    requires At(s, p)
    ensures RowsOk(s.db) && LogOk(s.db, s.log, s.minted) && CoverageOk(s.db, s.log) && DbOk(s.db) && RateOk(s.db)
  {
    hide RunnerOk, RowsOk, LogOk, CoverageOk, ReceivedOk, RateOk, ReportsOk, OneActivePerRepository, OneJobPerKey;
  }

  /**
   The insertion is a lawful step of the run's first half, after which the job exists and nobody has a ticket for it.
   */
  lemma SyncInserted(s: State, p: nat, job: JobId, nonce: nat, version: Version, now: Time, after: Db)
    requires Inv(s) && p in s.runners && At(s, p) && s.runners[p].phase.SyncCollected?
    requires var ph := s.runners[p].phase;
             var row := NewJob(ph.userId, ph.repositoryId, SyncKey(nonce), SyncRequest, None, now, version, now);
             CreateExclusive(s.db, job, row, now) == Some(after)
    ensures var w := s.runners[p].(job := job, phase := Done(Threw));
            var s' := Move(s, p, w, after);
            && Advances(s, s') && job in after.jobs && IsSyncJob(after.jobs[job]) && w.kind == Sync
            && TokensOf(s'.log.tickets, job) == {} && NotCalled(w, s'.log) && Ungranted(w, s'.log)
            && CoveredUpTo(after, s'.log, after.jobs[job].repositoryId, w.window.from)
  {
    hide Advances, Inv, At, CreateExclusive, StepOk, PublishQuiet, Guarantee, Audit, RowOk, CoveredUpTo, Ungranted,
      DbOk, RateOk, RowsOk, LogOk, CoverageOk, ReceivedOk;
    var ph := s.runners[p].phase;
    var row := NewJob(ph.userId, ph.repositoryId, SyncKey(nonce), SyncRequest, None, now, version, now);
    CollectedAt(s, p);
    TablesAt(s, p);
    SyncInsertStepOk(s.db, after, s.log, job, row, s.runners[p].window, now);
    InsertedBySync(s, p, s.runners[p].(job := job, phase := Done(Threw)), after);
  }

  /** Handing out the ticket afterwards is no further step of the tables. */
  lemma SyncTicketed(s: State, p: nat, job: JobId, nonce: nat, version: Version, now: Time, fault: Fault)
    requires Inv(s) && p in s.runners && At(s, p) && s.runners[p].phase.SyncCollected? && fault != LostBefore
    requires var ph := s.runners[p].phase;
             var row := NewJob(ph.userId, ph.repositoryId, SyncKey(nonce), SyncRequest, None, now, version, now);
             CreateExclusive(s.db, job, row, now).Some?
    ensures Advances(s, DoSyncCreate(s, p, job, nonce, version, now, fault))
  {
    hide Advances, Inv, At, CreateExclusive, Audit, CoveredUpTo, Ungranted, NotCalled, EndsCollected, TokensOf;
    var w := s.runners[p];
    var row := NewJob(w.phase.userId, w.phase.repositoryId, SyncKey(nonce), SyncRequest, None, now, version, now);
    var after := CreateExclusive(s.db, job, row, now).value;
    var w' := w.(job := job, phase := Done(Threw));
    var phase := if fault == NoFault then SyncQueued else Done(Threw);
    SyncInserted(s, p, job, nonce, version, now, after);
    InvAfter(s, Move(s, p, w', after));
    TicketIssued(Move(s, p, w', after), p, phase);
    assert s.runners[p := w'][p := w'.(phase := phase)] == s.runners[p := w'.(phase := phase)];
    AuditKeys(s.log, s.db, after, job, w.window);
    NewJobIsNew(s.db, job, row, now);
    TicketsElsewhere(Move(s, p, w', after).log.tickets, job, {w.token}, s.db.jobs.Keys);
    AdvancesOn(s, Move(s, p, w', after), DoSyncCreate(s, p, job, nonce, version, now, fault));
  }

  lemma NewJobIsNew(db: Db, job: JobId, row: Job, now: Time)
    requires CreateExclusive(db, job, row, now).Some?
    ensures job !in db.jobs
  {
  }

  lemma TicketsElsewhere(tickets: map<JobId, set<Token>>, job: JobId, tokens: set<Token>, others: set<JobId>)
    requires job !in others
    ensures forall j | j in others :: TokensOf(tickets[job := tokens], j) == TokensOf(tickets, j)
  {
  }

  lemma SyncCreateKeeps(s: State, p: nat, job: JobId, nonce: nat, version: Version, now: Time, fault: Fault)
    requires Inv(s)
    ensures Advances(s, DoSyncCreate(s, p, job, nonce, version, now, fault))
  {
    hide Advances, Inv, At, Believes, Become, CreateExclusive, Audit, Move;
    Stutter(s);
    if p in s.runners && s.runners[p].phase.SyncCollected? {
      var w := s.runners[p];
      var row := NewJob(w.phase.userId, w.phase.repositoryId, SyncKey(nonce), SyncRequest, None, now, version, now);
      RunnerAt(s, p);
      if CreateExclusive(s.db, job, row, now).None? || fault == LostBefore {
        IdleFacts(s, p, Done(Threw));
        BecomeKeeps(s, p, w.(phase := Done(Threw)));
      } else {
        SyncTicketed(s, p, job, nonce, version, now, fault);
      }
    }
  }
}
