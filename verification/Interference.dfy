/** What one process's step leaves of everybody else's knowledge. */
module Interference {
  import opened Basics
  import opened JobRow
  import opened PublishStatements
  import opened Ledger
  import opened Transactions
  import opened Acceptance
  import opened Protocol
  import opened Invariant

  /**
   A lease is passed on only to a token that never held the row before; passed on without raising attemptCount and
   without a bill, it was announced beforehand. Attempts rise only on jobs of which a message was received.
   */
  ghost predicate LeasesReady(before: Db, after: Db, log: Log, token: Option<Token>) {
    forall j | j in before.jobs && j in after.jobs ::
      LeaseReady(before.jobs[j], after.jobs[j], log, j, token)
  }

  predicate LeaseReady(before: Job, after: Job, log: Log, j: JobId, token: Option<Token>) {
    LeaseReadyAt(before, after, TokensOf(log.tickets, j), TokensOf(log.granted, j), j in log.received, token)
  }

  predicate LeaseReadyAt(before: Job, after: Job, tickets: set<Token>, granted: set<Token>, received: bool,
                         token: Option<Token>)
  {
    && (after.attemptCount > before.attemptCount ==> received)
    && (after.leaseToken.Some? && after.leaseToken != before.leaseToken ==> after.leaseToken.value !in granted)
    && (( && token.Some? && after.leaseToken == token && before.leaseToken != token
          && after.attemptCount == before.attemptCount && !HasBillingEvidence(before)) ==>
        token.value in tickets)
  }

  /** The focus job ends in this step with its window collected. */
  predicate EndsCollected(before: Db, after: Db, focus: JobId) {
    focus in before.jobs && focus in after.jobs && IsActive(before.jobs[focus]) && EndedCollected(after.jobs[focus])
  }

  /**
   A job that ends collected, of the repository's owner, leaves lastSyncTime no earlier than the end of its window.
   */
  predicate Checkpointed(before: Db, after: Db, focus: JobId, window: Window) {
    EndsCollected(before, after, focus) && OwnsRepository(before, before.jobs[focus]) &&
      before.jobs[focus].repositoryId in after.repositories ==>
        SyncedUpTo(after.repositories[before.jobs[focus].repositoryId], window.until)
  }

  predicate OwnsRepository(db: Db, row: Job) {
    row.repositoryId in db.repositories && db.repositories[row.repositoryId].ownerId == row.userId
  }

  predicate SyncedUpTo(repository: Repository, until: Time) {
    repository.lastSyncTime.Some? && until <= repository.lastSyncTime.value
  }

  /**
   lastSyncTime moves only to the end of a window that starts where coverage ends and whose job ends in the same step.
   */
  ghost predicate WindowStep(before: Db, after: Db, log: Log, focus: JobId, window: Window) {
    && (EndsCollected(before, after, focus) ==> FinishedOk(after.jobs[focus], window))
    && Checkpointed(before, after, focus, window)
    && (forall j | EndsCollected(before, after, j) :: j == focus)
    && (forall r | r in before.repositories && r in after.repositories ::
          || after.repositories[r].lastSyncTime == before.repositories[r].lastSyncTime
          || ( && EndsCollected(before, after, focus)
               && before.jobs[focus].repositoryId == r
               && CoveredUpTo(before, log, r, window.from)
               && after.repositories[r].lastSyncTime == Some(window.until)))
    && (forall j | j in after.jobs && j !in before.jobs ::
          CoveredUpTo(before, log, after.jobs[j].repositoryId, after.jobs[j].sourceCursor))
  }

  /** A lawful step on job `focus`; `token` is the lease under which it may write. */
  ghost predicate StepOk(before: Db, after: Db, log: Log, focus: JobId, window: Window, token: Option<Token>) {
    && DbOk(after)
    && RateOk(after)
    && Guarantee(before, after, token)
    && Balanced(before, after, focus)
    && LeasesReady(before, after, log, token)
    && Counted(before, after)
    && WindowStep(before, after, log, focus, window)
  }

  // ----- history -----

  function Raised(before: Job, after: Job): set<Token> {
    if after.attemptCount > before.attemptCount then LeaseOf(after) else {}
  }

  /** A step hands a row either to nobody new or to the stepping token. */
  lemma LeaseAfter(before: Job, after: Job, token: Option<Token>)
    requires RowOk(before) && RowStep(before, after, token)
    ensures LeaseOf(after) <= LeaseOf(before) + (if token.Some? then {token.value} else {})
  {
  }

  lemma TicketAfter(before: Job, after: Job, token: Option<Token>, tickets: set<Token>, granted: set<Token>,
                    received: bool)
    requires RowOk(before) && RowStep(before, after, token)
    requires LeaseReadyAt(before, after, tickets, granted, received, token)
    requires LeaseOf(before) <= tickets || HasBillingEvidence(before)
    ensures LeaseOf(after) <= tickets + Raised(before, after) || HasBillingEvidence(after)
  {
  }

  lemma AttemptsAfter(before: Job, after: Job, token: Option<Token>)
    requires RowOk(before) && RowStep(before, after, token)
    ensures before.attemptCount + |Raised(before, after)| <= after.attemptCount && IsSyncJob(before) == IsSyncJob(after)
  {
  }

  /** What a step does to the sets that the entry of a job is about. */
  predicate EntryMoves(before: Job, after: Job, token: Option<Token>, tickets: set<Token>) {
    && LeaseOf(after) <= LeaseOf(before) + (if token.Some? then {token.value} else {})
    && (LeaseOf(after) <= tickets + Raised(before, after) || HasBillingEvidence(after))
    && before.attemptCount + |Raised(before, after)| <= after.attemptCount
    && IsSyncJob(before) == IsSyncJob(after)
  }

  lemma StepMovesEntry(before: Job, after: Job, token: Option<Token>, tickets: set<Token>, granted: set<Token>,
                       received: bool)
    requires RowOk(before) && RowStep(before, after, token)
    requires LeaseReadyAt(before, after, tickets, granted, received, token)
    requires LeaseOf(before) <= tickets || HasBillingEvidence(before)
    ensures EntryMoves(before, after, token, tickets)
  {
    hide RowOk, RowStep, LeaseReadyAt, HasBillingEvidence, LeaseOf, Raised;
    LeaseAfter(before, after, token);
    TicketAfter(before, after, token, tickets, granted, received);
    AttemptsAfter(before, after, token);
  }

  lemma EntryAfter(before: Job, after: Job, token: Option<Token>, granted: set<Token>, tickets: set<Token>,
                   calls: seq<Token>, debit: int, debit': int, minted: set<Token>)
    requires EntryMoves(before, after, token, tickets) && (token.Some? ==> token.value in minted)
    requires JobLogOk(before, granted, tickets, calls, debit, minted)
    requires debit' == debit + Held(after) - Held(before)
    ensures JobLogOk(after, granted + LeaseOf(after), tickets + Raised(before, after), calls, debit', minted)
  {
    hide Held, HasBillingEvidence, NoRepeats, IsSyncJob, LeaseOf, Raised;
    RaisedIsLease(before, after);
    UnionSize(tickets, Raised(before, after));
  }

  lemma RaisedIsLease(before: Job, after: Job)
    ensures Raised(before, after) <= LeaseOf(after)
  {
  }

  lemma HolderKnown(row: Job, granted: set<Token>, tickets: set<Token>, calls: seq<Token>, debit: int,
                    minted: set<Token>)
    requires JobLogOk(row, granted, tickets, calls, debit, minted)
    ensures LeaseOf(row) <= tickets || HasBillingEvidence(row)
  {
    hide Held, HasBillingEvidence, NoRepeats, IsSyncJob, LeaseOf;
  }

  lemma JobLogStep(before: Job, after: Job, token: Option<Token>, granted: set<Token>, tickets: set<Token>,
                   received: bool, calls: seq<Token>, debit: int, debit': int, minted: set<Token>)
    requires RowOk(before) && RowStep(before, after, token) && (token.Some? ==> token.value in minted)
    requires JobLogOk(before, granted, tickets, calls, debit, minted)
    requires LeaseReadyAt(before, after, tickets, granted, received, token)
    requires debit' == debit + Held(after) - Held(before)
    ensures JobLogOk(after, granted + LeaseOf(after), tickets + Raised(before, after), calls, debit', minted)
  {
    hide Held, RowOk, RowStep, LeaseReadyAt, HasBillingEvidence, JobLogOk, EntryMoves, LeaseOf, Raised;
    HolderKnown(before, granted, tickets, calls, debit, minted);
    StepMovesEntry(before, after, token, tickets, granted, received);
    EntryAfter(before, after, token, granted, tickets, calls, debit, debit', minted);
  }

  /** What the observer's entry for one job becomes. */
  lemma AuditAt(log: Log, before: Db, after: Db, focus: JobId, window: Window, j: JobId)
    requires j in after.jobs
    ensures var log' := Audit(log, before, after, focus, window);
            && TokensOf(log'.granted, j) == TokensOf(log.granted, j) + LeaseOf(after.jobs[j])
            && TokensOf(log'.tickets, j) ==
               TokensOf(log.tickets, j) + (if RaisesAttempt(before, after, j) then LeaseOf(after.jobs[j]) else {})
            && DebitOf(log', j) == DebitOf(log, j) + (if j == focus then BalanceDrop(before, after, focus) else 0)
            && CallsOf(log', j) == CallsOf(log, j)
  {
  }

  lemma AuditKeys(log: Log, before: Db, after: Db, focus: JobId, window: Window)
    ensures var log' := Audit(log, before, after, focus, window);
            && log'.granted.Keys == after.jobs.Keys && log'.tickets.Keys == after.jobs.Keys
            && log'.debits.Keys == after.jobs.Keys
            && log'.calls == log.calls && log'.sends == log.sends && log'.baseline == log.baseline
            && log'.received == log.received
            && log'.finished ==
                 (if EndsCollected(before, after, focus) then log.finished[focus := window] else log.finished)
  {
  }

  /** The observed debit of a job follows the tokens that its row holds. */
  lemma DebitFollows(before: Db, after: Db, log: Log, focus: JobId, window: Window, j: JobId)
    requires RowsOk(before) && Balanced(before, after, focus) && j in before.jobs
    ensures j in after.jobs
    ensures DebitOf(Audit(log, before, after, focus, window), j) ==
            DebitOf(log, j) + Held(after.jobs[j]) - Held(before.jobs[j])
  {
    hide RowOk, Held;
    assert before.jobs[j].userId in before.balances;
    AuditAt(log, before, after, focus, window, j);
    hide Audit;
  }

  lemma FreshLog(row: Job, minted: set<Token>)
    requires IsFreshRow(row)
    ensures JobLogOk(row, {} + LeaseOf(row), {}, [], 0, minted)
  {
  }

  lemma LogFrameAt(before: Db, after: Db, log: Log, focus: JobId, window: Window, token: Option<Token>,
                   minted: set<Token>, j: JobId)
    requires RowsOk(before) && LogOk(before, log, minted) && (token.Some? ==> token.value in minted) && j in before.jobs
    requires Guarantee(before, after, token) && Balanced(before, after, focus) && LeasesReady(before, after, log, token)
    ensures j in after.jobs
    ensures var log' := Audit(log, before, after, focus, window);
            LogAt(after.jobs[j], log', j, minted)
  {
    AuditAt(log, before, after, focus, window, j);
    DebitFollows(before, after, log, focus, window, j);
    hide Audit, RowOk, RowStep, JobLogOk, Held;
    JobLogStep(before.jobs[j], after.jobs[j], token, TokensOf(log.granted, j), TokensOf(log.tickets, j),
               j in log.received, CallsOf(log, j),
               DebitOf(log, j), DebitOf(Audit(log, before, after, focus, window), j), minted);
  }

  lemma LogFrameFresh(before: Db, after: Db, log: Log, focus: JobId, window: Window, minted: set<Token>, j: JobId)
    requires LogOk(before, log, minted) && j in after.jobs && j !in before.jobs && IsFreshRow(after.jobs[j])
    ensures var log' := Audit(log, before, after, focus, window);
            LogAt(after.jobs[j], log', j, minted)
  {
    AuditAt(log, before, after, focus, window, j);
    FreshLog(after.jobs[j], minted);
    assert j !in log.granted && j !in log.tickets && j !in log.calls && j !in log.debits;
    hide Audit, JobLogOk, IsFreshRow;
  }

  lemma LogFrame(before: Db, after: Db, log: Log, focus: JobId, window: Window, token: Option<Token>,
                 minted: set<Token>)
    requires RowsOk(before) && LogOk(before, log, minted) && (token.Some? ==> token.value in minted)
    requires Guarantee(before, after, token) && Balanced(before, after, focus) && LeasesReady(before, after, log, token)
    ensures LogOk(after, Audit(log, before, after, focus, window), minted)
  {
    hide Audit, RowOk, RowStep, JobLogOk, Held, IsFreshRow, Balanced, LeasesReady, RowsOk;
    var log' := Audit(log, before, after, focus, window);
    AuditKeys(log, before, after, focus, window);
    forall j | j in after.jobs
      ensures LogAt(after.jobs[j], log', j, minted)
    {
      if j in before.jobs {
        LogFrameAt(before, after, log, focus, window, token, minted, j);
      } else {
        LogFrameFresh(before, after, log, focus, window, minted, j);
      }
    }
  }

  // ----- runners -----

  /** The other runner's lease, if it still has one, is on an untouched row. */
  lemma HeldRowUntouched(before: Db, after: Db, v: Runner, token: Option<Token>)
    requires Guarantee(before, after, token) && Some(v.token) != token && v.job in before.jobs
    ensures v.job in after.jobs && SameRequest(before.jobs[v.job], after.jobs[v.job])
    ensures RowOk(before.jobs[v.job]) && Holds(after, v) ==> after.jobs[v.job] == before.jobs[v.job]
    ensures IsTerminal(before.jobs[v.job]) ==> after.jobs[v.job] == before.jobs[v.job]
  {
  }

  lemma StaysUngranted(before: Db, after: Db, log: Log, focus: JobId, window: Window, v: Runner, token: Option<Token>,
                       minted: set<Token>)
    requires RowsOk(before) && LogOk(before, log, minted) && Ungranted(v, log) && Some(v.token) != token
    requires Guarantee(before, after, token)
    ensures Ungranted(v, Audit(log, before, after, focus, window))
  {
    hide Audit, RowStep, RowOk, Held;
    var log' := Audit(log, before, after, focus, window);
    AuditKeys(log, before, after, focus, window);
    forall j | j in log'.granted ensures v.token !in log'.granted[j] {
      AuditAt(log, before, after, focus, window, j);
      assert log'.granted[j] == TokensOf(log'.granted, j);
      if j in before.jobs {
        LeaseAfter(before.jobs[j], after.jobs[j], token);
        assert LeaseOf(before.jobs[j]) <= TokensOf(log.granted, j);
      } else {
        assert IsFreshRow(after.jobs[j]);
      }
    }
  }

  /** The observer forgets no ticket and records no call. */
  lemma AuditMemory(log: Log, before: Db, after: Db, focus: JobId, window: Window, j: JobId)
    ensures j in after.jobs ==>
              TokensOf(log.tickets, j) <= TokensOf(Audit(log, before, after, focus, window).tickets, j)
    ensures CallsOf(Audit(log, before, after, focus, window), j) == CallsOf(log, j)
  {
    if j in after.jobs {
      AuditAt(log, before, after, focus, window, j);
    }
    AuditKeys(log, before, after, focus, window);
    hide Audit;
  }

  /** What a process keeps of its knowledge when another process takes a step. */
  ghost predicate Undisturbed(before: Db, after: Db, log: Log, log': Log, v: Runner) {
    && (Ungranted(v, log) ==> Ungranted(v, log'))
    && CallsOf(log', v.job) == CallsOf(log, v.job)
    && before.balances.Keys <= after.balances.Keys && before.repositories.Keys <= after.repositories.Keys
    && (v.job in before.jobs ==>
          && v.job in after.jobs && SameRequest(before.jobs[v.job], after.jobs[v.job])
          && TokensOf(log.tickets, v.job) <= TokensOf(log'.tickets, v.job)
          && (Holds(after, v) || IsTerminal(before.jobs[v.job]) ==> after.jobs[v.job] == before.jobs[v.job]))
  }

  lemma StepLeavesUndisturbed(before: Db, after: Db, log: Log, focus: JobId, window: Window, v: Runner,
                              token: Option<Token>, minted: set<Token>)
    requires RowsOk(before) && LogOk(before, log, minted) && Some(v.token) != token
    requires Guarantee(before, after, token)
    ensures Undisturbed(before, after, log, Audit(log, before, after, focus, window), v)
  {
    hide Audit, RowStep, RowOk, Held, LogOk, Ungranted;
    if Ungranted(v, log) {
      StaysUngranted(before, after, log, focus, window, v, token, minted);
    }
    AuditMemory(log, before, after, focus, window, v.job);
    if v.job in before.jobs {
      HeldRowUntouched(before, after, v, token);
    }
  }

  lemma PhaseUndisturbed(before: Db, after: Db, log: Log, log': Log, v: Runner)
    requires PhaseOk(v, before, log) && Undisturbed(before, after, log, log', v)
    requires log.tickets.Keys <= before.jobs.Keys
    ensures PhaseOk(v, after, log')
  {
    hide Ungranted, Unbilled, Reconciliation, HasBillingEvidence, Billed, IsValidUsage;
  }

  // ----- windows -----

  lemma CoverageGrows(before: Db, after: Db, log: Log, log': Log, repository: RepositoryId, until: Option<Time>)
    requires CarriesRequests(before, after) && CoveredUpTo(before, log, repository, until)
    requires FinishedGrows(before, log, log')
    ensures CoveredUpTo(after, log', repository, until)
  {
    if until.Some? {
      forall x | AfterBaseline(log', repository, x) && x <= until.value ensures Collected(after, log', repository, x) {
        assert Collected(before, log, repository, x);
        var j :| j in log.finished && j in before.jobs && before.jobs[j].repositoryId == repository &&
          InWindow(log.finished[j], x);
      }
    }
  }

  /** A window that starts where coverage ends extends it to its own end. */
  lemma WindowExtends(db: Db, log: Log, repository: RepositoryId, job: JobId)
    requires job in log.finished && job in db.jobs && db.jobs[job].repositoryId == repository
    requires CoveredUpTo(db, log, repository, log.finished[job].from)
    ensures CoveredUpTo(db, log, repository, Some(log.finished[job].until))
  {
    forall x | AfterBaseline(log, repository, x) && x <= log.finished[job].until
      ensures Collected(db, log, repository, x)
    {
      if log.finished[job].from.Some? && x <= log.finished[job].from.value {
      } else {
        assert InWindow(log.finished[job], x);
      }
    }
  }

  /** The observer keeps every finished window. */
  ghost predicate FinishedGrows(before: Db, log: Log, log': Log) {
    && log'.baseline == log.baseline
    && (forall j | j in log.finished :: j in log'.finished && log'.finished[j] == log.finished[j])
  }

  /** A job that has ended never ends again, so its window stays as it was recorded. */
  lemma FinishedKept(before: Db, after: Db, log: Log, focus: JobId, window: Window)
    requires CoverageOk(before, log)
    ensures FinishedGrows(before, log, Audit(log, before, after, focus, window))
    ensures var log' := Audit(log, before, after, focus, window);
            log'.finished == if EndsCollected(before, after, focus) then log.finished[focus := window] else log.finished
  {
    AuditKeys(log, before, after, focus, window);
    hide Audit, CoveredUpTo;
  }

  lemma EndedStays(before: Job, after: Job, window: Window, token: Option<Token>)
    requires FinishedOk(before, window) && RowStep(before, after, token)
    ensures FinishedOk(after, window)
  {
  }

  lemma RepositoryFrame(before: Db, after: Db, log: Log, focus: JobId, window: Window, r: RepositoryId)
    requires CoverageOk(before, log) && CarriesRequests(before, after)
    requires WindowStep(before, after, log, focus, window) && r in before.repositories && r in after.repositories
    ensures CoveredUpTo(after, Audit(log, before, after, focus, window), r, after.repositories[r].lastSyncTime)
  {
    hide Audit, CoveredUpTo, FinishedOk;
    var log' := Audit(log, before, after, focus, window);
    FinishedKept(before, after, log, focus, window);
    if after.repositories[r].lastSyncTime == before.repositories[r].lastSyncTime {
      CoverageGrows(before, after, log, log', r, before.repositories[r].lastSyncTime);
    } else {
      CoverageGrows(before, after, log, log', r, window.from);
      WindowExtends(after, log', r, focus);
    }
  }

  lemma FinishedFrame(before: Db, after: Db, log: Log, focus: JobId, window: Window, token: Option<Token>)
    requires CoverageOk(before, log) && Guarantee(before, after, token) && WindowStep(before, after, log, focus, window)
    ensures var log' := Audit(log, before, after, focus, window);
            forall j | j in log'.finished :: j in after.jobs && FinishedOk(after.jobs[j], log'.finished[j])
  {
    hide Audit, RowStep, FinishedOk, CoveredUpTo;
    var log' := Audit(log, before, after, focus, window);
    FinishedKept(before, after, log, focus, window);
    forall j | j in log'.finished ensures j in after.jobs && FinishedOk(after.jobs[j], log'.finished[j]) {
      if !(EndsCollected(before, after, focus) && j == focus) {
        EndedStays(before.jobs[j], after.jobs[j], log.finished[j], token);
      }
    }
  }

  lemma CoverageFrame(before: Db, after: Db, log: Log, focus: JobId, window: Window, token: Option<Token>)
    requires CoverageOk(before, log) && Guarantee(before, after, token) && WindowStep(before, after, log, focus, window)
    ensures CoverageOk(after, Audit(log, before, after, focus, window))
  {
    GuaranteeCarries(before, after, token);
    FinishedFrame(before, after, log, focus, window, token);
    hide Audit, RowStep, FinishedOk, CoveredUpTo, SameRequest;
    var log' := Audit(log, before, after, focus, window);
    FinishedKept(before, after, log, focus, window);
    forall r | r in after.repositories ensures CoveredUpTo(after, log', r, after.repositories[r].lastSyncTime) {
      RepositoryFrame(before, after, log, focus, window, r);
    }
    forall j | j in after.jobs
      ensures CoveredUpTo(after, log', after.jobs[j].repositoryId, after.jobs[j].sourceCursor)
    {
      CoverageGrows(before, after, log, log', after.jobs[j].repositoryId, after.jobs[j].sourceCursor);
    }
  }

  lemma RunnerWindowFrame(before: Db, after: Db, log: Log, log': Log, v: Runner)
    requires CarriesRequests(before, after) && FinishedGrows(before, log, log') && RunnerWindowOk(v, before, log)
    ensures RunnerWindowOk(v, after, log')
  {
    hide CoveredUpTo;
    if v.phase.SyncCollected? {
      CoverageGrows(before, after, log, log', v.phase.repositoryId, v.window.from);
    }
    if HasWindow(v.phase) {
      CoverageGrows(before, after, log, log', before.jobs[v.job].repositoryId, v.window.from);
    }
  }

  // ----- the outbox -----

  lemma OutboxRowFrame(before: Job, after: Job, log: Log, log': Log, job: JobId, token: Option<Token>)
    requires RowStep(before, after, token) && PublishUntouched(before, after)
    requires OutboxRowOk(before, log, job) && log'.sends == log.sends
    requires IsSyncJob(before) ==> forall k | k in log.sends :: k.job != job
    ensures OutboxRowOk(after, log', job)
  {
  }

  lemma SendsFrame(before: Db, after: Db, log: Log, log': Log, token: Option<Token>)
    requires SendsOk(before, log) && Guarantee(before, after, token) && PublishQuiet(before, after)
    requires log'.sends == log.sends
    ensures SendsOk(after, log')
  {
    GuaranteeCarries(before, after, token);
    hide RowStep, OutboxRowOk;
    forall j | j in after.jobs ensures OutboxRowOk(after.jobs[j], log', j) {
      if j in before.jobs {
        OutboxRowFrame(before.jobs[j], after.jobs[j], log, log', j, token);
      } else {
        FreshOutbox(after.jobs[j], log', j);
      }
    }
  }

  lemma FreshOutbox(row: Job, log: Log, job: JobId)
    requires IsFreshRow(row) && forall k | k in log.sends :: k.job != job
    ensures OutboxRowOk(row, log, job)
  {
  }

  /** What a step that is no publisher's leaves of a row that publishers know. */
  lemma PublisherRowFrame(before: Job, after: Job, token: Option<Token>)
    requires RowStep(before, after, token) && PublishUntouched(before, after)
    ensures SameRequest(before, after) && before.attemptCount <= after.attemptCount
    ensures after.publishAttempts == before.publishAttempts
  {
  }

  lemma PublisherFrame(b: Publisher, before: Db, after: Db, log: Log, log': Log)
    requires PublisherOk(b, before, log) && log'.sends == log.sends && b.job in after.jobs
    requires SameRequest(before.jobs[b.job], after.jobs[b.job])
    requires after.jobs[b.job].publishAttempts == before.jobs[b.job].publishAttempts
    requires before.jobs[b.job].attemptCount <= after.jobs[b.job].attemptCount
    ensures PublisherOk(b, after, log')
  {
    hide DeliveryUncertain;
  }

  lemma PublishersFrame(publishers: map<nat, Publisher>, before: Db, after: Db, log: Log, log': Log,
                        token: Option<Token>)
    requires PublishersOk(publishers, before, log)
    requires Guarantee(before, after, token) && PublishQuiet(before, after) && log'.sends == log.sends
    ensures PublishersOk(publishers, after, log')
  {
    hide RowStep, PublishUntouched, SameRequest, DeliveryUncertain, Knows;
    forall q | q in publishers ensures PublisherOk(publishers[q], after, log') {
      var b := publishers[q];
      assert PublisherOk(b, before, log);
      PublisherRowFrame(before.jobs[b.job], after.jobs[b.job], token);
      PublisherFrame(b, before, after, log, log');
    }
  }

  // ----- messages -----

  lemma ReceivedFrame(before: Db, after: Db, log: Log, focus: JobId, window: Window, token: Option<Token>)
    requires ReceivedOk(before, log) && Guarantee(before, after, token) && LeasesReady(before, after, log, token)
    ensures ReceivedOk(after, Audit(log, before, after, focus, window))
  {
    hide Audit, RowStep;
    AuditKeys(log, before, after, focus, window);
    forall j | j in after.jobs && after.jobs[j].attemptCount > 0 ensures j in log.received {
      assert j !in before.jobs ==> IsFreshRow(after.jobs[j]);
      assert LeaseReady(before.jobs[j], after.jobs[j], log, j, token);
    }
  }

  // ----- together -----

  lemma TablesFrame(before: Db, after: Db, log: Log, focus: JobId, window: Window, token: Option<Token>,
                    minted: set<Token>)
    requires TablesOk(before, log, minted) && (token.Some? ==> token.value in minted)
    requires StepOk(before, after, log, focus, window, token)
    ensures TablesOk(after, Audit(log, before, after, focus, window), minted)
  {
    hide Audit, LogOk, CoverageOk, ReceivedOk, RateOk, RowsOk, ReportsOk, OneActivePerRepository, OneJobPerKey,
      BalancesOk, Guarantee, Balanced, LeasesReady, WindowStep;
    LogFrame(before, after, log, focus, window, token, minted);
    CoverageFrame(before, after, log, focus, window, token);
    ReceivedFrame(before, after, log, focus, window, token);
  }

  lemma RunnerFrame(before: Db, after: Db, log: Log, focus: JobId, window: Window, v: Runner, token: Option<Token>,
                    minted: set<Token>)
    requires TablesOk(before, log, minted) && Some(v.token) != token && RunnerOk(v, before, log, minted)
    requires Guarantee(before, after, token)
    ensures RunnerOk(v, after, Audit(log, before, after, focus, window), minted)
  {
    var log' := Audit(log, before, after, focus, window);
    GuaranteeCarries(before, after, token);
    FinishedKept(before, after, log, focus, window);
    StepLeavesUndisturbed(before, after, log, focus, window, v, token, minted);
    hide Audit, Guarantee, Undisturbed, RateOk, RowsOk, ReportsOk, OneActivePerRepository, OneJobPerKey, BalancesOk,
      CoverageOk, ReceivedOk, PhaseOk, JobLogOk, RunnerWindowOk, EndsCollected, FinishedGrows, CarriesRequests;
    assert log.tickets.Keys <= before.jobs.Keys;
    PhaseUndisturbed(before, after, log, log', v);
    RunnerWindowFrame(before, after, log, log', v);
  }
}
