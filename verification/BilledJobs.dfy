/**
 Once a job is billed: no further call for it, over every run, but by those whose request was already on its way out.
 */
module BilledJobs {
  import opened Basics
  import opened JobRow
  import opened JobStatements
  import opened PublishStatements
  import opened WorkerStatements
  import opened StatService
  import opened Ledger
  import opened Transactions
  import opened Acceptance
  import opened Protocol
  import opened Invariant
  import opened Interference
  import opened Steps
  import opened Safety
  import opened Theorems
  import opened Fencing

  /** The job exists and a request id or a usage is stored on its row. */
  predicate IsBilled(db: Db, j: JobId) {
    j in db.jobs && HasBillingEvidence(db.jobs[j])
  }

  /**
   No statement stands between this runner and its request: it is about to send it, or it is a synchronous run that has
   its reservation and reports no progress.
   */
  predicate IsSending(w: Runner) {
    || w.phase.Calling?
    || (w.kind == Sync && w.phase.Reserved?)
    || (w.kind == Sync && w.phase.Preparing? && w.phase.context.reservedTokens.Some?)
  }

  /** Where a claim of a billed row leads: back to the row, to its settlement, to a failure, or out. */
  predicate InRecovery(phase: Phase) {
    phase.Leased? || phase.Holding? || phase.Recovering? || phase.Failing? || phase.Done?
  }

  /** The same, of a runner that has its data. */
  predicate PastCollection(phase: Phase) {
    InRecovery(phase) || phase.Entering?
  }

  /** The same, of a runner that may already have been collecting when the bill was stored. */
  predicate BeforeCall(phase: Phase) {
    PastCollection(phase) || phase.Collecting?
  }

  /** From the first phase, the second one is no closer to a call. */
  predicate NoFurther(before: Phase, after: Phase) {
    BeforeCall(after) && (PastCollection(before) ==> PastCollection(after)) &&
      (InRecovery(before) ==> InRecovery(after))
  }

  // ----- one step, seen from one runner -----

  /** Nobody comes to send a request for a billed job who was not about to. */
  predicate StaysBarred(s: State, s': State, p: nat) {
    p in s'.runners && IsSending(s'.runners[p]) ==>
      && p in s.runners && s'.runners[p].job == s.runners[p].job && s'.runners[p].token == s.runners[p].token
      && (IsBilled(s.db, s.runners[p].job) ==> IsSending(s.runners[p]))
  }

  /** A runner in recovery stays there, and one before its call stays before it. */
  predicate StaysInRecovery(s: State, s': State, p: nat) {
    p in s.runners && IsBilled(s.db, s.runners[p].job) && BeforeCall(s.runners[p].phase) ==>
      && p in s'.runners && s'.runners[p].job == s.runners[p].job && s'.runners[p].token == s.runners[p].token
      && NoFurther(s.runners[p].phase, s'.runners[p].phase)
  }

  /** Only a runner that is about to send its request is counted as calling. */
  ghost predicate CallsBySenders(s: State, s': State) {
    forall j, token | token in CallsOf(s'.log, j) && token !in CallsOf(s.log, j) ::
      exists q | q in s.runners :: s.runners[q].phase.Calling? && s.runners[q].job == j && s.runners[q].token == token
  }

  ghost predicate StepOnBilled(s: State, s': State, p: nat) {
    StaysBarred(s, s', p) && StaysInRecovery(s, s', p) && CallsBySenders(s, s')
  }

  /** A step that sends no request. */
  predicate QuietOnBilled(s: State, s': State, p: nat) {
    StaysBarred(s, s', p) && StaysInRecovery(s, s', p) && s'.log.calls == s.log.calls
  }

  /** A step of a process that is no runner. */
  predicate LeavesRunners(s: State, s': State) {
    s'.runners == s.runners && s'.log.calls == s.log.calls
  }

  lemma QuietIsStep(s: State, s': State, p: nat)
    requires QuietOnBilled(s, s', p)
    ensures StepOnBilled(s, s', p)
  {
    hide StaysBarred, StaysInRecovery;
  }

  lemma AuditsAddNoCall()
    ensures forall log, before, after, focus, window :: Audit(log, before, after, focus, window).calls == log.calls
  {
    forall log, before, after, focus, window ensures Audit(log, before, after, focus, window).calls == log.calls {
      AuditKeys(log, before, after, focus, window);
    }
  }

  // ----- each action -----

  lemma ClaimingOnBilled(s: State, q: nat, job: JobId, token: Token, count: nat, now: Time, expires: Time, fault: Fault,
                         p: nat)
    ensures QuietOnBilled(s, DoReceiveMessage(s, q, job, token, count), p)
    ensures QuietOnBilled(s, DoReadForClaim(s, q, now, expires, fault), p)
    ensures QuietOnBilled(s, DoWriteClaim(s, q, fault), p)
  {
    hide Audit, HasBillingEvidence, ClaimStatement;
    AuditsAddNoCall();
  }

  lemma ClaimedOnBilled(s: State, q: nat, now: Time, fault: Fault, p: nat)
    ensures QuietOnBilled(s, DoReadAfterRace(s, q, fault), p)
    ensures QuietOnBilled(s, DoFinalizeAtLimit(s, q, now, fault), p)
    ensures QuietOnBilled(s, DoRequireClaimedJob(s, q, fault), p)
  {
    hide Audit, HasBillingEvidence, SettleJob;
    AuditsAddNoCall();
  }

  /** The reads on the way to a call: a billed row that is held sends its holder to recovery. */
  lemma ReadsOnBilled(s: State, q: nat, fault: Fault, p: nat)
    ensures QuietOnBilled(s, DoReadCheckpoint(s, q, fault), p)
    ensures QuietOnBilled(s, DoEnterAnalysis(s, q, fault), p)
    ensures QuietOnBilled(s, DoFailPreparation(s, q), p)
  {
    hide Audit, HasBillingEvidence, Reconciliation, Unbilled;
    AuditsAddNoCall();
  }

  lemma ProgressOnBilled(s: State, q: nat, now: Time, expires: Time, fault: Fault, failed: bool, p: nat)
    ensures QuietOnBilled(s, DoHeartbeat(s, q, now, expires, fault), p)
    ensures QuietOnBilled(s, DoFinishCollection(s, q, now, expires, fault, failed), p)
    ensures QuietOnBilled(s, DoReportSaving(s, q, now, expires, fault), p)
  {
    hide Audit, HasBillingEvidence, ProgressDb;
    AuditsAddNoCall();
  }

  lemma EndingOnBilled(s: State, q: nat, code: ErrorCode, required: int, now: Time, fault: Fault, p: nat)
    ensures QuietOnBilled(s, DoEndWithoutCall(s, q, code, required, now, fault), p)
    ensures QuietOnBilled(s, DoEndOutOfTokens(s, q, now, fault), p)
  {
    hide Audit, HasBillingEvidence, Terminate, Unbilled, CompletionOf;
    AuditsAddNoCall();
  }

  lemma RecoverOnBilled(s: State, q: nat, now: Time, fault: Fault, p: nat)
    ensures QuietOnBilled(s, DoRecover(s, q, now, fault), p)
  {
    hide Audit, HasBillingEvidence, Terminate;
    AuditsAddNoCall();
  }

  lemma AnswerOnBilled(s: State, q: nat, answer: Answer, now: Time, fault: Fault, p: nat)
    ensures QuietOnBilled(s, DoAnswerCall(s, q, answer), p)
    ensures QuietOnBilled(s, DoEndCallFailed(s, q, now, fault), p)
  {
    hide Audit, HasBillingEvidence, Terminate, Unbilled, ValidUsageOrNone, IsValidUsage;
    AuditsAddNoCall();
  }

  lemma ChargeOnBilled(s: State, q: nat, now: Time, fault: Fault, metricsFail: bool, p: nat)
    ensures QuietOnBilled(s, DoStoreCharge(s, q, now, fault, metricsFail), p)
    ensures QuietOnBilled(s, DoSettleBilled(s, q, now, fault), p)
  {
    hide Audit, HasBillingEvidence, ChargeDb, Terminate, Reconciliation;
    AuditsAddNoCall();
  }

  lemma SavingOnBilled(s: State, q: nat, scores: Scores, now: Time, fault: Fault, p: nat)
    ensures QuietOnBilled(s, DoSaveResult(s, q, scores, now, fault), p)
  {
    hide Audit, HasBillingEvidence, Succeed, CompletionOf;
    AuditsAddNoCall();
  }

  lemma FailureOnBilled(s: State, q: nat, retryable: bool, nextPublishAt: Time, code: ErrorCode, now: Time,
                        fault: Fault, p: nat)
    ensures QuietOnBilled(s, DoReleaseFailed(s, q, nextPublishAt, code, now, fault), p)
    ensures QuietOnBilled(s, DoFinalizeFailed(s, q, retryable, code, now, fault), p)
  {
    hide Audit, HasBillingEvidence, SettleJob, ReleaseForRetry, IsClassifierCode;
    AuditsAddNoCall();
  }

  lemma SyncOnBilled(s: State, q: nat, user: UserId, repository: RepositoryId, token: Token, job: JobId, nonce: nat,
                     version: Version, now: Time, expires: Time, fault: Fault, p: nat)
    ensures QuietOnBilled(s, DoSyncBegin(s, q, user, repository, token, now), p)
    ensures QuietOnBilled(s, DoSyncCreate(s, q, job, nonce, version, now, fault), p)
    ensures QuietOnBilled(s, DoSyncStart(s, q, now, expires, fault), p)
  {
    hide Audit, HasBillingEvidence, CreateExclusive, NewJob, StartSync;
    AuditsAddNoCall();
  }

  lemma RequestsOnBilled(s: State, user: UserId, key: nat, repository: RepositoryId, source: JobId, job: JobId,
                         version: Version, now: Time)
    ensures LeavesRunners(s, DoAcceptCreate(s, user, key, repository, job, version, now))
    ensures LeavesRunners(s, DoAcceptRetry(s, user, key, source, job, version, now))
    ensures LeavesRunners(s, DoReceiveInvalidMessage(s, job, now))
    ensures LeavesRunners(s, DoTransferRepository(s, repository, user))
  {
    hide Audit, HasBillingEvidence, AcceptJob, SettleJob, IsRetryable;
    AuditsAddNoCall();
  }

  lemma OutboxOnBilled(s: State, q: nat, job: JobId, allowRepublish: bool, outcome: SendState, at: Time, fault: Fault)
    ensures LeavesRunners(s, DoLoadForPublish(s, q, job, allowRepublish))
    ensures LeavesRunners(s, DoClaimPublish(s, q, at, fault))
    ensures LeavesRunners(s, DoSendMessage(s, q, outcome))
    ensures LeavesRunners(s, DoRecordPublished(s, q, fault))
    ensures LeavesRunners(s, DoRecordPublishFailure(s, q, at, fault))
  {
    hide Audit, HasBillingEvidence, WantsAttempt, ClaimAttempt, MarkPublished, RecordFailure, DeliveryUncertain,
      ReachesGiveUp;
    AuditsAddNoCall();
  }

  /**
   Who prepares a call knows of no bill while holding the lease, so a billed job is not held by a preparing runner.
   */
  lemma PreparingIsUnheld(s: State, p: nat)
    requires Inv(s) && p in s.runners && (s.runners[p].phase.Preparing? || s.runners[p].phase.Reserved?)
    requires IsBilled(s.db, s.runners[p].job)
    ensures !Holds(s.db, s.runners[p])
  {
    hide Inv, TablesOk, RunnerWindowOk, HasBillingEvidence;
    RunnerOf(s, p);
  }

  /** Without the lease there is no progress to report and no tokens to reserve. */
  lemma PreparingIsStopped(s: State, p: nat, estimated: int, required: int, now: Time, expires: Time)
    requires Inv(s) && p in s.runners && (s.runners[p].phase.Preparing? || s.runners[p].phase.Reserved?)
    requires IsBilled(s.db, s.runners[p].job)
    ensures ProgressDb(s.db, s.runners[p], now, expires).None?
    ensures var w := s.runners[p];
            ReservedDb(Reserve(s.db, w.job, w.token, w.phase.context, estimated, required, now)).None?
  {
    hide Inv, IsBilled, Holds, ProgressDb, Reserve;
    PreparingIsUnheld(s, p);
    var w := s.runners[p];
    NoLeaseNoStatement(s.db, w, w.phase.context, 0, None, 0, AnalysisFailed, now, expires);
    NoLeaseNoSettlement(s.db, w, w.phase.context, estimated, required, AnalysisFailed, false, now);
  }

  lemma ReserveOnBilled(s: State, q: nat, estimated: int, required: int, now: Time, fault: Fault, p: nat)
    requires Inv(s)
    ensures QuietOnBilled(s, DoReserveOrReuse(s, q, estimated, required, now, fault), p)
  {
    hide Inv, Audit, HasBillingEvidence, Reserve, ReservedDb;
    AuditsAddNoCall();
    if p in s.runners && s.runners[p].phase.Preparing? && IsBilled(s.db, s.runners[p].job) {
      PreparingIsStopped(s, p, estimated, required, now, 0);
    }
  }

  lemma ReportOnBilled(s: State, q: nat, now: Time, expires: Time, fault: Fault, p: nat)
    requires Inv(s)
    ensures QuietOnBilled(s, DoReportReserved(s, q, now, expires, fault), p)
  {
    hide Inv, Audit, HasBillingEvidence, ProgressDb;
    AuditsAddNoCall();
    if p in s.runners && s.runners[p].phase.Reserved? && IsBilled(s.db, s.runners[p].job) {
      PreparingIsStopped(s, p, 0, 0, now, expires);
    }
  }

  /** The request goes out: the one step that adds a call. */
  lemma StartOnBilled(s: State, q: nat, p: nat)
    ensures StepOnBilled(s, DoStartCall(s, q), p)
  {
    hide Audit, HasBillingEvidence;
    AuditsAddNoCall();
  }

  // ----- any action -----

  lemma ClaimOnBilled(s: State, a: Action, p: nat)
    ensures QuietOnBilled(s, NextClaim(s, a), p)
  {
    hide QuietOnBilled, DoReceiveMessage, DoReadForClaim, DoWriteClaim, DoReadAfterRace, DoFinalizeAtLimit,
      DoRequireClaimedJob, DoReadCheckpoint, DoHeartbeat, DoFinishCollection, DoEnterAnalysis, DoFailPreparation;
    NothingOnBilled(s, p);
    match a {
      case ReceiveMessage(q, job, token, count) => ClaimingOnBilled(s, q, job, token, count, 0, 0, NoFault, p);
      case ReadForClaim(q, now, expires, fault) => ClaimingOnBilled(s, q, 0, 0, 0, now, expires, fault, p);
      case WriteClaim(q, fault) => ClaimingOnBilled(s, q, 0, 0, 0, 0, 0, fault, p);
      case ReadAfterRace(q, fault) => ClaimedOnBilled(s, q, 0, fault, p);
      case FinalizeAtLimit(q, now, fault) => ClaimedOnBilled(s, q, now, fault, p);
      case RequireClaimedJob(q, fault) => ClaimedOnBilled(s, q, 0, fault, p);
      case ReadCheckpoint(q, fault) => ReadsOnBilled(s, q, fault, p);
      case EnterAnalysis(q, fault) => ReadsOnBilled(s, q, fault, p);
      case FailPreparation(q) => ReadsOnBilled(s, q, NoFault, p);
      case Heartbeat(q, now, expires, fault) => ProgressOnBilled(s, q, now, expires, fault, false, p);
      case FinishCollection(q, now, expires, fault, failed) => ProgressOnBilled(s, q, now, expires, fault, failed, p);
      case _ =>
    }
  }

  lemma RunnersLeft(s: State, s': State, p: nat)
    requires LeavesRunners(s, s')
    ensures QuietOnBilled(s, s', p)
  {
    hide HasBillingEvidence;
  }

  lemma NobodyMoves(s: State)
    ensures LeavesRunners(s, s)
  {
  }

  lemma NothingOnBilled(s: State, p: nat)
    ensures QuietOnBilled(s, s, p)
  {
    hide HasBillingEvidence;
  }

  lemma CallOnBilled(s: State, a: Action, p: nat)
    requires Inv(s) && !a.StartCall?
    ensures QuietOnBilled(s, NextCall(s, a), p)
  {
    hide Inv, QuietOnBilled, DoReserveOrReuse, DoReportReserved, DoStartCall, DoRecover, DoEndWithoutCall,
      DoEndOutOfTokens, DoAnswerCall, DoEndCallFailed;
    NothingOnBilled(s, p);
    match a {
      case Recover(q, now, fault) => RecoverOnBilled(s, q, now, fault, p);
      case EndWithoutCall(q, code, required, now, fault) => EndingOnBilled(s, q, code, required, now, fault, p);
      case EndOutOfTokens(q, now, fault) => EndingOnBilled(s, q, AnalysisFailed, 0, now, fault, p);
      case ReserveOrReuse(q, estimated, required, now, fault) =>
        ReserveOnBilled(s, q, estimated, required, now, fault, p);
      case ReportReserved(q, now, expires, fault) => ReportOnBilled(s, q, now, expires, fault, p);
      case AnswerCall(q, answer) => AnswerOnBilled(s, q, answer, 0, NoFault, p);
      case EndCallFailed(q, now, fault) => AnswerOnBilled(s, q, UnbilledError, now, fault, p);
      case _ =>
    }
  }

  lemma BillOnBilled(s: State, a: Action, p: nat)
    ensures QuietOnBilled(s, NextBill(s, a), p)
  {
    hide QuietOnBilled, DoStoreCharge, DoSettleBilled, DoReportSaving, DoSaveResult, DoReleaseFailed, DoFinalizeFailed;
    NothingOnBilled(s, p);
    match a {
      case StoreCharge(q, now, fault, metricsFail) => ChargeOnBilled(s, q, now, fault, metricsFail, p);
      case SettleBilled(q, now, fault) => ChargeOnBilled(s, q, now, fault, false, p);
      case ReportSaving(q, now, expires, fault) => ProgressOnBilled(s, q, now, expires, fault, false, p);
      case SaveResult(q, scores, now, fault) => SavingOnBilled(s, q, scores, now, fault, p);
      case ReleaseFailed(q, nextPublishAt, code, now, fault) =>
        FailureOnBilled(s, q, false, nextPublishAt, code, now, fault, p);
      case FinalizeFailed(q, retryable, code, now, fault) => FailureOnBilled(s, q, retryable, 0, code, now, fault, p);
      case _ =>
    }
  }

  lemma RequestOnBilled(s: State, a: Action, p: nat)
    ensures QuietOnBilled(s, NextRequest(s, a), p)
  {
    hide QuietOnBilled, LeavesRunners, DoReceiveInvalidMessage, DoSyncBegin, DoSyncCreate, DoSyncStart, DoAcceptCreate,
      DoAcceptRetry, DoTransferRepository;
    NothingOnBilled(s, p);
    match a {
      case SyncBegin(q, user, repository, token, now) =>
        SyncOnBilled(s, q, user, repository, token, 0, 0, Current, now, 0, NoFault, p);
      case SyncCreate(q, job, nonce, version, now, fault) =>
        SyncOnBilled(s, q, 0, 0, 0, job, nonce, version, now, 0, fault, p);
      case SyncStart(q, now, expires, fault) => SyncOnBilled(s, q, 0, 0, 0, 0, 0, Current, now, expires, fault, p);
      case AcceptCreate(user, key, repository, job, version, now) =>
        RequestsOnBilled(s, user, key, repository, 0, job, version, now);
      case AcceptRetry(user, key, source, job, version, now) =>
        RequestsOnBilled(s, user, key, 0, source, job, version, now);
      case ReceiveInvalidMessage(job, now) => RequestsOnBilled(s, 0, 0, 0, 0, job, Current, now);
      case TransferRepository(repository, newOwner) =>
        RequestsOnBilled(s, newOwner, 0, repository, 0, 0, Current, 0);
      case _ =>
    }
    if LeavesRunners(s, NextRequest(s, a)) {
      RunnersLeft(s, NextRequest(s, a), p);
    }
  }

  lemma PublishOnBilled(s: State, a: Action, p: nat)
    ensures QuietOnBilled(s, NextPublish(s, a), p)
  {
    hide QuietOnBilled, LeavesRunners, DoLoadForPublish, DoClaimPublish, DoSendMessage, DoRecordPublished,
      DoRecordPublishFailure;
    NobodyMoves(s);
    match a {
      case LoadForPublish(q, job, allowRepublish) =>
        OutboxOnBilled(s, q, job, allowRepublish, Rejected, 0, NoFault);
      case ClaimPublish(q, now, fault) => OutboxOnBilled(s, q, 0, false, Rejected, now, fault);
      case SendMessage(q, outcome) => OutboxOnBilled(s, q, 0, false, outcome, 0, NoFault);
      case RecordPublished(q, fault) => OutboxOnBilled(s, q, 0, false, Rejected, 0, fault);
      case RecordPublishFailure(q, nextPublishAt, fault) =>
        OutboxOnBilled(s, q, 0, false, Rejected, nextPublishAt, fault);
      case _ =>
    }
    RunnersLeft(s, NextPublish(s, a), p);
  }

  lemma NextOnBilled(s: State, a: Action, p: nat)
    requires Inv(s)
    ensures StepOnBilled(s, Next(s, a), p)
  {
    hide Inv, StepOnBilled, QuietOnBilled, NextClaim, NextBill, NextRequest, NextPublish, DoStartCall;
    if a.StartCall? {
      StartOnBilled(s, a.p, p);
    } else {
      ClaimOnBilled(s, a, p);
      CallOnBilled(s, a, p);
      BillOnBilled(s, a, p);
      RequestOnBilled(s, a, p);
      PublishOnBilled(s, a, p);
      QuietIsStep(s, Next(s, a), p);
    }
  }

  // ----- whole runs -----

  lemma BilledStays(s: State, a: Action, j: JobId)
    requires Inv(s) && IsBilled(s.db, j)
    ensures IsBilled(Next(s, a).db, j)
  {
    hide Inv, Next, RowMoves, RowOk, HasBillingEvidence;
    RowMoved(s, a, j);
    BilledRowStays(s.db.jobs[j], Next(s, a).db.jobs[j]);
  }

  /** The job is billed, the lease token has no call, and nobody who carries it is about to send a request. */
  ghost predicate Barred(s: State, j: JobId, token: Token) {
    && IsBilled(s.db, j) && token !in CallsOf(s.log, j)
    && forall p | p in s.runners && s.runners[p].job == j && s.runners[p].token == token :: !IsSending(s.runners[p])
  }

  lemma BarredStep(s: State, a: Action, j: JobId, token: Token)
    requires Inv(s) && Barred(s, j, token)
    ensures Barred(Next(s, a), j, token)
  {
    hide Inv, Next, IsBilled, IsSending, CallsOf, StaysInRecovery;
    BilledStays(s, a, j);
    var s' := Next(s, a);
    forall p | p in s'.runners && s'.runners[p].job == j && s'.runners[p].token == token
      ensures !IsSending(s'.runners[p])
    {
      NextOnBilled(s, a, p);
    }
    NextOnBilled(s, a, 0);
    CallersAreSending();
  }

  lemma CallersAreSending()
    ensures forall w: Runner | w.phase.Calling? :: IsSending(w)
  {
  }

  lemma {:induction false} BarredForEver(s: State, actions: seq<Action>, j: JobId, token: Token)
    requires Inv(s) && Barred(s, j, token)
    ensures Barred(Run(s, actions), j, token)
    decreases |actions|
  {
    hide Inv, Next, Barred;
    if actions != [] {
      BarredStep(s, actions[0], j, token);
      NextHolds(s, actions[0]);
      BarredForEver(Next(s, actions[0]), actions[1..], j, token);
    }
  }

  /**
   A bill ends the calls. Whatever happens after a job was billed, by redeliveries, takeovers and crashes included,
   every call for it was made before, or is made by a runner that was about to send its request at that moment.
   */
  lemma CallsAfterTheBill(s: State, actions: seq<Action>, j: JobId, token: Token)
    requires Reachable(s) && IsBilled(s.db, j) && token in CallsOf(Run(s, actions).log, j)
    ensures || token in CallsOf(s.log, j)
            || exists p | p in s.runners && s.runners[p].job == j && s.runners[p].token == token ::
                 IsSending(s.runners[p])
  {
    hide Reachable, Inv, Run, IsBilled, IsSending, CallsOf;
    ReachableIsSafe(s);
    if Barred(s, j, token) {
      BarredForEver(s, actions, j, token);
    }
  }

  /** A runner that claimed a billed row, or that was before its call when its row was billed, and has not called. */
  ghost predicate OnBilled(s: State, p: nat) {
    && p in s.runners && IsBilled(s.db, s.runners[p].job) && BeforeCall(s.runners[p].phase)
    && s.runners[p].token !in CallsOf(s.log, s.runners[p].job)
  }

  lemma OwnToken(s: State, p: nat, q: nat)
    requires Inv(s) && p in s.runners && q in s.runners && s.runners[p].token == s.runners[q].token
    ensures p == q
  {
    hide TablesOk, RunnerOk, SendsOk, PublishersOk;
  }

  lemma OnBilledIsBarred(s: State, p: nat)
    requires Inv(s) && OnBilled(s, p)
    ensures Barred(s, s.runners[p].job, s.runners[p].token)
  {
    hide Inv, IsBilled, CallsOf;
    forall q | q in s.runners && s.runners[q].token == s.runners[p].token ensures q == p {
      OwnToken(s, p, q);
    }
  }

  lemma OnBilledStep(s: State, a: Action, p: nat)
    requires Inv(s) && OnBilled(s, p)
    ensures OnBilled(Next(s, a), p)
    ensures var w, w' := s.runners[p], Next(s, a).runners[p];
            w'.job == w.job && w'.token == w.token && NoFurther(w.phase, w'.phase)
  {
    hide Inv, Next, IsBilled, CallsOf, InRecovery, PastCollection, StaysBarred, CallsBySenders, IsSending;
    OnBilledIsBarred(s, p);
    BarredStep(s, a, s.runners[p].job, s.runners[p].token);
    NextOnBilled(s, a, p);
  }

  /**
   Over every run, a runner that has claimed a billed row goes on to recover it: neither to collect nor to call. One
   that was collecting when the row was billed does not come to prepare a call either. This holds whether or not it
   keeps its lease, and whatever other processes do.
   */
  lemma {:induction false} BilledRowsAreRecovered(s: State, actions: seq<Action>, p: nat)
    requires Inv(s) && OnBilled(s, p)
    ensures OnBilled(Run(s, actions), p)
    ensures var w, w' := s.runners[p], Run(s, actions).runners[p];
            w'.job == w.job && w'.token == w.token && NoFurther(w.phase, w'.phase)
    decreases |actions|
  {
    hide Inv, Next, IsBilled, CallsOf, InRecovery, PastCollection;
    if actions != [] {
      OnBilledStep(s, actions[0], p);
      NextHolds(s, actions[0]);
      BilledRowsAreRecovered(Next(s, actions[0]), actions[1..], p);
    }
  }

  // ----- claims of billed rows -----

  /** What a claim that met a billed row leaves behind. */
  lemma ClaimMeetsBill(s: State, p: nat, fault: Fault)
    requires Inv(s) && p in s.runners && s.runners[p].phase.ClaimSeen? && IsBilled(s.db, s.runners[p].job)
    ensures var w, s' := s.runners[p], Next(s, WriteClaim(p, fault));
            && IsBilled(s'.db, w.job) && p in s'.runners && s'.runners[p].job == w.job && s'.runners[p].token == w.token
            && !IsSending(s'.runners[p]) && w.token !in CallsOf(s'.log, w.job)
            && (s'.runners[p].phase.Leased? || s'.runners[p].phase.RaceLost? || s'.runners[p].phase.Done?)
  {
    hide Inv, Audit, TablesOk, RunnerWindowOk, HasBillingEvidence, ClaimStatement, NextCall, NextBill, NextRequest,
      NextPublish;
    BilledStays(s, WriteClaim(p, fault), s.runners[p].job);
    RunnerOf(s, p);
    AuditsAddNoCall();
  }

  /**
   Whichever claim it was, and whatever the row looked like when it was decided: a claimed billed row is recovered.
   */
  lemma ClaimedBilledRowIsRecovered(s: State, p: nat, fault: Fault, actions: seq<Action>)
    requires Reachable(s) && p in s.runners && s.runners[p].phase.ClaimSeen? && IsBilled(s.db, s.runners[p].job)
    requires var s' := Next(s, WriteClaim(p, fault)); p in s'.runners && s'.runners[p].phase.Leased?
    ensures var t := Run(Next(s, WriteClaim(p, fault)), actions);
            && OnBilled(t, p) && InRecovery(t.runners[p].phase)
            && t.runners[p].job == s.runners[p].job && t.runners[p].token == s.runners[p].token
  {
    hide Reachable, Inv, Next, Run, IsBilled, CallsOf, IsSending;
    ReachableIsSafe(s);
    ClaimMeetsBill(s, p, fault);
    NextHolds(s, WriteClaim(p, fault));
    BilledRowsAreRecovered(Next(s, WriteClaim(p, fault)), actions, p);
  }

  /** A ticket is not taken back. */
  lemma {:induction false} TicketStays(s: State, actions: seq<Action>, j: JobId, token: Token)
    requires Inv(s) && j in s.db.jobs && token in TokensOf(s.log.tickets, j)
    ensures j in Run(s, actions).db.jobs && token in TokensOf(Run(s, actions).log.tickets, j)
    decreases |actions|
  {
    hide Inv, Next, RowMoves, RowOk, StepOk, TokensOf;
    if actions != [] {
      RowMoved(s, actions[0], j);
      var focus, window, holder := AnyStep(s, actions[0]);
      NextHolds(s, actions[0]);
      TicketStays(Next(s, actions[0]), actions[1..], j, token);
    }
  }

  /** A claim that raises the attempts issues its token a ticket. */
  lemma RaisedIsTicketed(s: State, p: nat, fault: Fault)
    requires p in s.runners && s.runners[p].phase.ClaimSeen? && s.runners[p].job in s.db.jobs
    requires var s' := Next(s, WriteClaim(p, fault)); RaisesAttempt(s.db, s'.db, s.runners[p].job)
    ensures s.runners[p].token in TokensOf(Next(s, WriteClaim(p, fault)).log.tickets, s.runners[p].job)
  {
    hide Audit, RowOk, RowStep, PublishUntouched, Held, HasBillingEvidence, NextCall, NextBill, NextRequest,
      NextPublish, TokensOf;
    var w := s.runners[p];
    var s' := Next(s, WriteClaim(p, fault));
    AuditAt(s.log, s.db, s'.db, w.job, w.window, w.job);
  }

  /** Fewer calls than tickets, when one ticket was never used. */
  lemma UnusedTicket(s: State, j: JobId, token: Token)
    requires Inv(s) && j in s.db.jobs && token in TokensOf(s.log.tickets, j) && token !in CallsOf(s.log, j)
    ensures |CallsOf(s.log, j)| < s.db.jobs[j].attemptCount + (if IsSyncJob(s.db.jobs[j]) then 1 else 0)
  {
    hide DbOk, RateOk, CoverageOk, ReceivedOk, RunnersOk, SendsOk, PublishersOk, HasBillingEvidence, Held;
    assert LogAt(s.db.jobs[j], s.log, j, s.minted);
    DistinctSize(CallsOf(s.log, j), TokensOf(s.log.tickets, j) - {token});
  }

  /**
   A claim that counted a new attempt although it met a billed row wastes that attempt: from then on, in every run, the
   calls made for the job are strictly fewer than its attempts (and the one call that a synchronous job has besides).
   Whether the claim was acknowledged does not matter.
   */
  lemma AttemptWithoutCall(s: State, p: nat, fault: Fault, actions: seq<Action>)
    requires Reachable(s) && p in s.runners && s.runners[p].phase.ClaimSeen? && IsBilled(s.db, s.runners[p].job)
    requires RaisesAttempt(s.db, Next(s, WriteClaim(p, fault)).db, s.runners[p].job)
    ensures var j, t := s.runners[p].job, Run(Next(s, WriteClaim(p, fault)), actions);
            && j in t.db.jobs
            && |CallsOf(t.log, j)| < t.db.jobs[j].attemptCount + (if IsSyncJob(t.db.jobs[j]) then 1 else 0)
  {
    hide Reachable, Inv, Next, Run, HasBillingEvidence, CallsOf, TokensOf, IsSending;
    var j, token := s.runners[p].job, s.runners[p].token;
    var s' := Next(s, WriteClaim(p, fault));
    ReachableIsSafe(s);
    NextHolds(s, WriteClaim(p, fault));
    ClaimMeetsBill(s, p, fault);
    RaisedIsTicketed(s, p, fault);
    forall q | q in s'.runners && s'.runners[q].token == token ensures q == p {
      OwnToken(s', p, q);
    }
    BarredForEver(s', actions, j, token);
    TicketStays(s', actions, j, token);
    RunKeeps(s', actions);
    UnusedTicket(Run(s', actions), j, token);
  }
}
