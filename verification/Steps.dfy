/** From a lawful database step of one process to the invariant of the whole state. */
module Steps {
  import opened Basics
  import opened JobRow
  import opened Ledger
  import opened Acceptance
  import opened Protocol
  import opened Invariant
  import opened Interference

  /** Phases reached before the runner's token was ever put on a row. */
  predicate BeforeGrant(phase: Phase) {
    phase.Started? || phase.ClaimSeen? || phase.SyncCollected? || phase.SyncQueued?
  }

  /** Only job `focus` changes, and no job is inserted. */
  predicate TouchesOnly(before: Db, after: Db, focus: JobId) {
    after.jobs.Keys == before.jobs.Keys && forall j | j in before.jobs && j != focus :: after.jobs[j] == before.jobs[j]
  }

  /** The window part of a step on job `focus`. */
  ghost predicate RepositoryStep(before: Db, after: Db, log: Log, focus: JobId, window: Window) {
    && (EndsCollected(before, after, focus) ==> FinishedOk(after.jobs[focus], window))
    && Checkpointed(before, after, focus, window)
    && (forall r | r in before.repositories && r in after.repositories ::
          || after.repositories[r].lastSyncTime == before.repositories[r].lastSyncTime
          || ( && EndsCollected(before, after, focus)
               && before.jobs[focus].repositoryId == r
               && CoveredUpTo(before, log, r, window.from)
               && after.repositories[r].lastSyncTime == Some(window.until)))
  }

  /** Everything a step of one process on one existing row has to guarantee. */
  ghost predicate RowStepOk(before: Db, after: Db, log: Log, focus: JobId, window: Window, token: Option<Token>) {
    && DbOk(after)
    && Guarantee(before, after, token)
    && PublishQuiet(before, after)
    && Balanced(before, after, focus)
    && TouchesOnly(before, after, focus)
    && (focus in before.jobs && focus in after.jobs ==>
          LeaseReady(before.jobs[focus], after.jobs[focus], log, focus, token))
    && Counted(before, after)
    && RepositoryStep(before, after, log, focus, window)
  }

  /** The tables moved by one lawful step. */
  ghost predicate Lawful(before: Db, after: Db, log: Log) {
    exists focus, window, token :: StepOk(before, after, log, focus, window, token)
  }

  /** No lease that a row ever carried is forgotten. */
  ghost predicate Remembers(db: Db, log: Log, log': Log) {
    forall j | j in db.jobs ::
      TokensOf(log.granted, j) <= TokensOf(log'.granted, j) && TokensOf(log.tickets, j) <= TokensOf(log'.tickets, j)
  }

  /** A runner that has just dropped its message as one of no job knows that there is no such job. */
  ghost predicate MissingIsMissing(s: State, s': State) {
    forall p | p in s'.runners && s'.runners[p].phase == Done(Missing) ::
      (p in s.runners && s.runners[p].phase == Done(Missing)) || s'.runners[p].job !in s'.db.jobs
  }

  /** Sends are never forgotten, and an outcome is never replaced by another. */
  ghost predicate SendsKept(log: Log, log': Log) {
    forall k | k in log.sends :: k in log'.sends && (log.sends[k] != InFlight ==> log'.sends[k] == log.sends[k])
  }

  /** In this step publisher `q` starts to send. */
  predicate StartsSending(s: State, s': State, q: nat) {
    q in s'.publishers && s'.publishers[q].phase.Sending? && !(q in s.publishers && s.publishers[q] == s'.publishers[q])
  }

  function KeyOf(b: Publisher): Send
    requires b.phase.Sending?
  {
    Send(b.job, b.phase.attempt)
  }

  /** What a step does to the history of sends: a publisher starts only under an attempt that was never sent before. */
  ghost predicate SendHistory(s: State, s': State) {
    && SendsKept(s.log, s'.log)
    && (forall q | StartsSending(s, s', q) ::
        KeyOf(s'.publishers[q]) !in s.log.sends && KeyOf(s'.publishers[q]) in s'.log.sends)
  }

  /**
   Each job that ends collected in this step is recorded with its window, and lastSyncTime follows such windows only.
   */
  ghost predicate FinishHistory(s: State, s': State) {
    FinishesRecorded(s.db, s'.db, s'.log)
  }

  ghost predicate FinishesRecorded(before: Db, after: Db, log': Log) {
    && (forall j | EndsCollected(before, after, j) ::
        j in log'.finished && Checkpointed(before, after, j, log'.finished[j]))
    && (forall r | r in before.repositories && r in after.repositories &&
                   after.repositories[r].lastSyncTime != before.repositories[r].lastSyncTime ::
          exists j :: j in log'.finished && SyncedBy(before, after, r, j, log'.finished[j]))
  }

  /** lastSyncTime becomes the end of the window of a job that ends in this step. */
  predicate SyncedBy(before: Db, after: Db, r: RepositoryId, j: JobId, window: Window) {
    && EndsCollected(before, after, j) && before.jobs[j].repositoryId == r
    && r in after.repositories && after.repositories[r].lastSyncTime == Some(window.until)
  }

  lemma FinishRecorded(before: Db, after: Db, log: Log, focus: JobId, window: Window, token: Option<Token>)
    requires StepOk(before, after, log, focus, window, token)
    ensures FinishesRecorded(before, after, Audit(log, before, after, focus, window))
  {
    hide Audit, DbOk, RateOk, Guarantee, Balanced, LeasesReady, Counted, FinishedOk, CoveredUpTo, Checkpointed,
      IsActive, EndedCollected;
    AuditKeys(log, before, after, focus, window);
    forall r | r in before.repositories && r in after.repositories &&
               after.repositories[r].lastSyncTime != before.repositories[r].lastSyncTime
      ensures SyncedBy(before, after, r, focus, window)
    {
    }
  }

  /** The state moved by one lawful step and satisfies the invariant again. */
  ghost predicate Advances(s: State, s': State) {
    Inv(s') && Lawful(s.db, s'.db, s.log) && Remembers(s.db, s.log, s'.log) && MissingIsMissing(s, s') &&
    SendHistory(s, s') && FinishHistory(s, s')
  }

  lemma AuditRemembers(log: Log, before: Db, after: Db, focus: JobId, window: Window)
    requires before.jobs.Keys <= after.jobs.Keys
    ensures Remembers(before, log, Audit(log, before, after, focus, window))
  {
    hide Audit;
    var log' := Audit(log, before, after, focus, window);
    forall j | j in before.jobs
      ensures TokensOf(log.granted, j) <= TokensOf(log'.granted, j)
      ensures TokensOf(log.tickets, j) <= TokensOf(log'.tickets, j)
    {
      AuditAt(log, before, after, focus, window, j);
    }
  }

  lemma OthersDoNotEnd(before: Db, after: Db, focus: JobId)
    requires TouchesOnly(before, after, focus)
    ensures forall j | EndsCollected(before, after, j) :: j == focus
  {
  }

  lemma OthersAreReady(before: Db, after: Db, log: Log, focus: JobId, token: Option<Token>)
    requires TouchesOnly(before, after, focus)
    requires focus in before.jobs && focus in after.jobs ==>
               LeaseReady(before.jobs[focus], after.jobs[focus], log, focus, token)
    ensures LeasesReady(before, after, log, token)
  {
  }

  lemma RowStepIsStep(before: Db, after: Db, log: Log, focus: JobId, window: Window, token: Option<Token>)
    requires RateOk(before) && RowStepOk(before, after, log, focus, window, token)
    ensures StepOk(before, after, log, focus, window, token)
  {
    hide Guarantee, Balanced, PublishQuiet, DbOk, RateOk, FinishedOk, EndsCollected, CarriesRequests, LeaseReady,
      Checkpointed;
    GuaranteeCarries(before, after, token);
    RateKept(before, after);
    OthersDoNotEnd(before, after, focus);
    OthersAreReady(before, after, log, focus, token);
  }

  // ----- moves of runners -----

  lemma RunnersFrame(s: State, p: nat, w: Runner, after: Db, token: Option<Token>)
    requires TablesOk(s.db, s.log, s.minted) && RunnersOk(s.runners, s.db, s.log, s.minted)
    requires p in s.runners && w.token == s.runners[p].token && (token.Some? ==> token == Some(w.token))
    requires Guarantee(s.db, after, token)
    requires RunnerOk(w, after, Audit(s.log, s.db, after, w.job, w.window), s.minted)
    ensures RunnersOk(s.runners[p := w], after, Audit(s.log, s.db, after, w.job, w.window), s.minted)
  {
    hide Audit, Guarantee, TablesOk, RunnerOk;
    forall q | q in s.runners && q != p
      ensures RunnerOk(s.runners[q], after, Audit(s.log, s.db, after, w.job, w.window), s.minted)
    {
      RunnerFrame(s.db, after, s.log, w.job, w.window, s.runners[q], token, s.minted);
    }
  }

  lemma MoveInv(s: State, p: nat, w: Runner, after: Db, token: Option<Token>)
    requires Inv(s) && p in s.runners && w.token == s.runners[p].token && (token.Some? ==> token == Some(w.token))
    requires StepOk(s.db, after, s.log, w.job, w.window, token) && PublishQuiet(s.db, after)
    requires RunnerOk(w, after, Audit(s.log, s.db, after, w.job, w.window), s.minted)
    ensures Inv(Move(s, p, w, after))
  {
    assert token.Some? ==> token.value in s.minted by {
      assert RunnerOk(s.runners[p], s.db, s.log, s.minted);
    }
    RunnersFrame(s, p, w, after, token);
    AuditKeys(s.log, s.db, after, w.job, w.window);
    hide Audit, Guarantee, Balanced, LeasesReady, WindowStep, TablesOk, RunnersOk, SendsOk, PublishersOk, PublishQuiet,
      DbOk, RateOk, RunnerOk, EndsCollected;
    TablesFrame(s.db, after, s.log, w.job, w.window, token, s.minted);
    SendsFrame(s.db, after, s.log, Audit(s.log, s.db, after, w.job, w.window), token);
    PublishersFrame(s.publishers, s.db, after, s.log, Audit(s.log, s.db, after, w.job, w.window), token);
  }

  /** Steps under no lease give none. */
  lemma NoLeaseGiven(before: Db, after: Db, log: Log)
    requires Guarantee(before, after, None)
    ensures LeasesReady(before, after, log, None)
  {
    hide SameRequest;
    forall j | j in before.jobs && j in after.jobs
      ensures LeaseReady(before.jobs[j], after.jobs[j], log, j, None)
    {
      NoLeaseAt(before.jobs[j], after.jobs[j]);
    }
    hide RowStep;
  }

  lemma NoLeaseAt(before: Job, after: Job)
    requires RowStep(before, after, None)
    ensures after.leaseToken == before.leaseToken || after.leaseToken.None?
  {
  }

  lemma LawfulBy(before: Db, after: Db, log: Log, focus: JobId, window: Window, token: Option<Token>)
    requires StepOk(before, after, log, focus, window, token)
    ensures Lawful(before, after, log) && before.jobs.Keys <= after.jobs.Keys
  {
    hide DbOk, RateOk, Balanced, LeasesReady, Counted, WindowStep, RowStep;
  }

  lemma MoveKeeps(s: State, p: nat, w: Runner, after: Db, token: Option<Token>)
    requires Inv(s) && p in s.runners && w.token == s.runners[p].token && (token.Some? ==> token == Some(w.token))
    requires StepOk(s.db, after, s.log, w.job, w.window, token) && PublishQuiet(s.db, after)
    requires RunnerOk(w, after, Audit(s.log, s.db, after, w.job, w.window), s.minted)
    requires w.phase == Done(Missing) ==> w.job !in after.jobs
    ensures Advances(s, Move(s, p, w, after))
  {
    hide Inv, StepOk, PublishQuiet, RunnerOk, Audit, Lawful, Remembers, EndsCollected;
    MoveInv(s, p, w, after, token);
    LawfulBy(s.db, after, s.log, w.job, w.window, token);
    FinishRecorded(s.db, after, s.log, w.job, w.window, token);
    AuditRemembers(s.log, s.db, after, w.job, w.window);
    AuditKeys(s.log, s.db, after, w.job, w.window);
  }

  lemma NoStep(db: Db, log: Log, focus: JobId, window: Window, token: Option<Token>)
    requires DbOk(db) && RateOk(db)
    ensures StepOk(db, db, log, focus, window, token) && PublishQuiet(db, db)
  {
    NothingChanges(db, token, focus);
    hide DbOk, Guarantee, Balanced, PublishQuiet;
  }

  /** What the runner would know is true, and so is what it would assume about its window. */
  ghost predicate Believes(w: Runner, db: Db, log: Log) {
    && PhaseOk(w, db, log)
    && RunnerWindowOk(w, db, log)
    && (w.phase == Done(Missing) ==> w.job !in db.jobs)
    && (w.kind == Background ==> w.job in log.received)
  }

  /** A read or a local step keeps the invariant when what the runner now believes is true. */
  lemma BecomeKeeps(s: State, p: nat, w: Runner)
    requires Inv(s) && p in s.runners && w.token == s.runners[p].token
    requires Believes(w, s.db, s.log)
    ensures Advances(s, Become(s, p, w))
  {
    assert RunnerOk(s.runners[p], s.db, s.log, s.minted);
    hide PhaseOk, RunnerWindowOk, LogOk, CoverageOk, ReceivedOk, SendsOk, PublishersOk, RateOk, RowsOk, BalancesOk,
      ReportsOk, OneActivePerRepository, OneJobPerKey;
    NoStep(s.db, s.log, w.job, w.window, None);
    RunnerFrame(s.db, s.db, s.log, w.job, w.window, w, None, s.minted);
    hide *;
    MoveKeeps(s, p, w, s.db, None);
  }

  /** What the runner knew about tickets and calls survives its own step. */
  lemma OwnPhase(w: Runner, before: Db, after: Db, log: Log, focus: JobId, window: Window)
    requires PhaseOk(w, after, log) && !BeforeGrant(w.phase) && log.tickets.Keys <= before.jobs.Keys <= after.jobs.Keys
    ensures PhaseOk(w, after, Audit(log, before, after, focus, window))
  {
    AuditMemory(log, before, after, focus, window, w.job);
    hide Audit, Ungranted, Clean, Stored, AtMostBilled, RecoveryOk, ChargeOk;
  }

  /** What a statement or transaction of runner `p` has to establish, whether it is acknowledged or not. */
  ghost predicate WriteOk(s: State, p: nat, result: Option<Db>, success: Phase, failure: Phase, token: Option<Token>)
    requires p in s.runners
  {
    var w := s.runners[p];
    && (token.Some? ==> token == Some(w.token))
    && !BeforeGrant(success) && !BeforeGrant(failure) && success != Done(Missing) && failure != Done(Missing)
    && (IsClaiming(success) || IsClaiming(failure) ==> IsClaiming(w.phase))
    && (HasWindow(success) || HasWindow(failure) ==> HasWindow(w.phase))
    && PhaseOk(w.(phase := failure), s.db, s.log)
    && (result.Some? ==>
          && RowStepOk(s.db, result.value, s.log, w.job, w.window, token)
          && PhaseOk(w.(phase := success), result.value, s.log)
          && PhaseOk(w.(phase := failure), result.value, s.log))
  }

  lemma CommittedKeeps(s: State, p: nat, after: Db, phase: Phase, token: Option<Token>)
    requires Inv(s) && p in s.runners && (token.Some? ==> token == Some(s.runners[p].token))
    requires !BeforeGrant(phase) && phase != Done(Missing)
    requires (IsClaiming(phase) ==> IsClaiming(s.runners[p].phase))
    requires (HasWindow(phase) ==> HasWindow(s.runners[p].phase))
    requires RowStepOk(s.db, after, s.log, s.runners[p].job, s.runners[p].window, token)
    requires PhaseOk(s.runners[p].(phase := phase), after, s.log)
    ensures Advances(s, Move(s, p, s.runners[p].(phase := phase), after))
  {
    var w := s.runners[p];
    var w' := w.(phase := phase);
    assert RunnerOk(w, s.db, s.log, s.minted);
    assert RunnerWindowOk(w', s.db, s.log) by {
      hide PhaseOk, CoveredUpTo, WindowOfRow, TablesOk, SendsOk, PublishersOk, RunnersOk;
    }
    GuaranteeCarries(s.db, after, token);
    FinishedKept(s.db, after, s.log, w.job, w.window);
    hide PhaseOk, RunnerWindowOk, JobLogOk, CoverageOk, ReceivedOk, SendsOk, PublishersOk, RateOk, DbOk, Audit,
      Guarantee, Balanced, LeaseReady, RepositoryStep, PublishQuiet, RunnersOk, CarriesRequests, EndsCollected,
      FinishedGrows;
    RunnerWindowFrame(s.db, after, s.log, Audit(s.log, s.db, after, w.job, w.window), w');
    OwnPhase(w', s.db, after, s.log, w.job, w.window);
    hide TouchesOnly, LogOk;
    RowStepIsStep(s.db, after, s.log, w.job, w.window, token);
    MoveKeeps(s, p, w', after, token);
  }

  lemma WindowKept(w: Runner, phase: Phase, db: Db, log: Log)
    requires RunnerWindowOk(w, db, log) && !phase.SyncCollected?
    requires (IsClaiming(phase) ==> IsClaiming(w.phase)) && (HasWindow(phase) ==> HasWindow(w.phase))
    ensures RunnerWindowOk(w.(phase := phase), db, log)
  {
    hide CoveredUpTo, WindowOfRow;
  }

  lemma WriteKeeps(s: State, p: nat, result: Option<Db>, fault: Fault, success: Phase, failure: Phase,
                   token: Option<Token>)
    requires Inv(s) && p in s.runners && WriteOk(s, p, result, success, failure, token)
    ensures Advances(s, Write(s, p, result, fault, success, failure))
  {
    hide PhaseOk, RowStepOk, Inv;
    if fault == LostBefore || result.None? {
      RunnerOf(s, p);
      WindowKept(s.runners[p], failure, s.db, s.log);
      BecomeKeeps(s, p, s.runners[p].(phase := failure));
    } else {
      CommittedKeeps(s, p, result.value, if fault == NoFault then success else failure, token);
    }
  }

  lemma RunnerOf(s: State, p: nat)
    requires Inv(s) && p in s.runners
    ensures RunnerOk(s.runners[p], s.db, s.log, s.minted) && TablesOk(s.db, s.log, s.minted)
  {
    hide RunnerOk, TablesOk, SendsOk, PublishersOk, DistinctTokens;
  }

  // ----- steps of processes without state -----

  lemma ServeKeeps(s: State, after: Db, focus: JobId)
    requires Inv(s) && StepOk(s.db, after, s.log, focus, Window(None, 0), None) && PublishQuiet(s.db, after)
    ensures Advances(s, Serve(s, after, focus))
  {
    hide Inv, StepOk, PublishQuiet, RunnerOk, Audit, Lawful, Remembers, EndsCollected;
    ServeInv(s, after, focus);
    LawfulBy(s.db, after, s.log, focus, Window(None, 0), None);
    FinishRecorded(s.db, after, s.log, focus, Window(None, 0), None);
    AuditRemembers(s.log, s.db, after, focus, Window(None, 0));
    AuditKeys(s.log, s.db, after, focus, Window(None, 0));
  }

  lemma ServeInv(s: State, after: Db, focus: JobId)
    requires Inv(s) && StepOk(s.db, after, s.log, focus, Window(None, 0), None) && PublishQuiet(s.db, after)
    ensures Inv(Serve(s, after, focus))
  {
    var window := Window(None, 0);
    var log' := Audit(s.log, s.db, after, focus, window);
    forall q | q in s.runners ensures RunnerOk(s.runners[q], after, log', s.minted) {
      RunnerOf(s, q);
      hide TablesOk, RunnerOk, Inv, DbOk, RateOk, Balanced, LeasesReady, WindowStep, Audit, Guarantee;
      RunnerFrame(s.db, after, s.log, focus, window, s.runners[q], None, s.minted);
    }
    AuditKeys(s.log, s.db, after, focus, window);
    hide Audit, Guarantee, Balanced, LeasesReady, WindowStep, TablesOk, RunnerOk, SendsOk, PublishersOk, PublishQuiet,
      DbOk, RateOk, EndsCollected, DistinctTokens;
    TablesFrame(s.db, after, s.log, focus, window, None, s.minted);
    SendsFrame(s.db, after, s.log, log', None);
    PublishersFrame(s.publishers, s.db, after, s.log, log', None);
  }

  /** The tables' invariant does not look at sends, and a longer list of received messages does not hurt it. */
  lemma MessagesIrrelevant(db: Db, log: Log, log': Log, minted: set<Token>)
    requires TablesOk(db, log, minted)
    requires log' == log.(sends := log'.sends, received := log'.received) && log.received <= log'.received
    ensures TablesOk(db, log', minted)
  {
    hide DbOk, RateOk, JobLogOk, FinishedOk, CoveredUpTo;
    forall r, until | CoveredUpTo(db, log, r, until) ensures CoveredUpTo(db, log', r, until) {
      CoverageGrows(db, db, log, log', r, until);
    }
  }

  lemma MessagesIrrelevantTo(w: Runner, db: Db, log: Log, log': Log, minted: set<Token>)
    requires RunnerOk(w, db, log, minted)
    requires log' == log.(sends := log'.sends, received := log'.received) && log.received <= log'.received
    ensures RunnerOk(w, db, log', minted)
  {
    hide Clean, Stored, AtMostBilled, RecoveryOk, ChargeOk, CoveredUpTo, WindowOfRow, ValidIfKnown;
    if w.phase.SyncCollected? {
      CoverageGrows(db, db, log, log', w.phase.repositoryId, w.window.from);
    }
    if HasWindow(w.phase) {
      CoverageGrows(db, db, log, log', db.jobs[w.job].repositoryId, w.window.from);
    }
  }

  /** Coverage looks at what ended and at the baseline only. */
  lemma SameCoverage(db: Db, log: Log, log': Log)
    requires CoverageOk(db, log) && log'.finished == log.finished && log'.baseline == log.baseline
    ensures CoverageOk(db, log')
    ensures forall r, until | CoveredUpTo(db, log, r, until) :: CoveredUpTo(db, log', r, until)
  {
    hide FinishedOk, CoveredUpTo;
    forall r, until | CoveredUpTo(db, log, r, until) ensures CoveredUpTo(db, log', r, until) {
      CoverageGrows(db, db, log, log', r, until);
    }
  }

  lemma SameSends(publishers: map<nat, Publisher>, db: Db, log: Log, log': Log)
    requires SendsOk(db, log) && PublishersOk(publishers, db, log) && log'.sends == log.sends
    ensures SendsOk(db, log') && PublishersOk(publishers, db, log')
  {
    hide OneSenderPerAttempt;
    assert forall q | q in publishers :: PublisherOk(publishers[q], db, log);
  }

  lemma ReceivedMore(s: State, received: set<JobId>)
    requires Inv(s) && s.log.received <= received
    ensures Inv(s.(log := s.log.(received := received)))
  {
    hide TablesOk, RunnerOk, SendsOk, PublishersOk;
    var log' := s.log.(received := received);
    MessagesIrrelevant(s.db, s.log, log', s.minted);
    forall p | p in s.runners ensures RunnerOk(s.runners[p], s.db, log', s.minted) {
      MessagesIrrelevantTo(s.runners[p], s.db, s.log, log', s.minted);
    }
    SameSends(s.publishers, s.db, s.log, log');
  }

  /** A new runner starts with a token that nobody has seen; a worker's starts with a received message. */
  lemma MintKeeps(s: State, p: nat, w: Runner, received: set<JobId>)
    requires Inv(s) && p !in s.runners && w.token !in s.minted && s.log.received <= received
    requires w.phase.Started? || w.phase.SyncCollected?
    requires Ungranted(w, s.log) && NotCalled(w, s.log) ==> PhaseOk(w, s.db, s.log)
    requires RunnerWindowOk(w, s.db, s.log) && (w.kind == Background ==> w.job in received)
    ensures Advances(s, s.(runners := s.runners[p := w], minted := s.minted + {w.token},
                           log := s.log.(received := received)))
  {
    hide Inv, Lawful, PhaseOk, RunnerWindowOk, Ungranted, NotCalled;
    MintInv(s, p, w, received);
    Stutter(s);
  }

  /** An action that is not enabled. */
  lemma Stutter(s: State)
    requires Inv(s)
    ensures Advances(s, s)
  {
    hide DbOk, RateOk, LogOk, CoverageOk, ReceivedOk, RunnersOk, SendsOk, PublishersOk, StepOk;
    NoStep(s.db, s.log, 0, Window(None, 0), None);
  }

  lemma InvAfter(s: State, s': State)
    requires Advances(s, s')
    ensures Inv(s')
  {
    hide Inv, Lawful, Remembers;
  }

  /** The observer may add to what it wrote down, and processes may change, without another step of the tables. */
  lemma AdvancesOn(s: State, s1: State, s2: State)
    requires Advances(s, s1) && Inv(s2) && s2.db == s1.db && s2.log.granted == s1.log.granted
    requires forall j | j in s.db.jobs :: TokensOf(s2.log.tickets, j) == TokensOf(s1.log.tickets, j)
    requires forall p | p in s2.runners && s2.runners[p].phase == Done(Missing) ::
               p in s1.runners && s2.runners[p] == s1.runners[p]
    requires SendHistory(s, s2) && s2.log.finished == s1.log.finished
    ensures Advances(s, s2)
  {
    hide Inv, Lawful;
  }

  lemma MintInv(s: State, p: nat, w: Runner, received: set<JobId>)
    requires Inv(s) && p !in s.runners && w.token !in s.minted && s.log.received <= received
    requires w.phase.Started? || w.phase.SyncCollected?
    requires Ungranted(w, s.log) && NotCalled(w, s.log) ==> PhaseOk(w, s.db, s.log)
    requires RunnerWindowOk(w, s.db, s.log) && (w.kind == Background ==> w.job in received)
    ensures Inv(s.(runners := s.runners[p := w], minted := s.minted + {w.token}, log := s.log.(received := received)))
  {
    hide Inv, PhaseOk, RunnerWindowOk, Ungranted, NotCalled;
    UnseenToken(s, w);
    ReceivedMore(s, received);
    SameBeliefs(w, s.db, s.log, s.log.(received := received));
    RunnerAdded(s.(log := s.log.(received := received)), p, w);
  }

  lemma SameBeliefs(w: Runner, db: Db, log: Log, log': Log)
    requires PhaseOk(w, db, log) && RunnerWindowOk(w, db, log) && log' == log.(received := log'.received)
    ensures PhaseOk(w, db, log') && RunnerWindowOk(w, db, log')
  {
    hide Clean, Stored, AtMostBilled, RecoveryOk, ChargeOk, CoveredUpTo, WindowOfRow, ValidIfKnown;
    if w.phase.SyncCollected? {
      CoverageGrows(db, db, log, log', w.phase.repositoryId, w.window.from);
    }
    if HasWindow(w.phase) {
      CoverageGrows(db, db, log, log', db.jobs[w.job].repositoryId, w.window.from);
    }
  }

  lemma RunnerAdded(s: State, p: nat, w: Runner)
    requires Inv(s) && p !in s.runners && w.token !in s.minted
    requires PhaseOk(w, s.db, s.log) && RunnerWindowOk(w, s.db, s.log)
    requires (w.kind == Background ==> w.job in s.log.received)
    ensures Inv(s.(runners := s.runners[p := w], minted := s.minted + {w.token}))
  {
    hide TablesOk, SendsOk, PublishersOk, PhaseOk, RunnerWindowOk;
    MintedMore(s.db, s.log, s.minted, s.minted + {w.token});
  }

  lemma MintedMore(db: Db, log: Log, minted: set<Token>, more: set<Token>)
    requires TablesOk(db, log, minted) && minted <= more
    ensures TablesOk(db, log, more)
  {
    hide DbOk, RateOk, CoverageOk, ReceivedOk, NoRepeats, HasBillingEvidence, Held;
  }

  lemma UnseenToken(s: State, w: Runner)
    requires Inv(s) && w.token !in s.minted
    ensures Ungranted(w, s.log) && NotCalled(w, s.log)
  {
    hide DbOk, RateOk, CoverageOk, ReceivedOk, SendsOk, PublishersOk, RunnersOk, NoRepeats, HasBillingEvidence, Held;
    forall j | j in s.log.granted ensures w.token !in s.log.granted[j] {
      assert TokensOf(s.log.granted, j) <= s.minted;
    }
    if w.job in s.log.calls {
      assert forall t | t in CallsOf(s.log, w.job) :: t in TokensOf(s.log.tickets, w.job);
      assert TokensOf(s.log.tickets, w.job) <= s.minted;
    }
  }
}
