/** A runner that lost its lease can no longer change any table. */
module Fencing {
  import opened Basics
  import opened JobRow
  import opened JobStatements
  import opened WorkerStatements
  import opened StatService
  import opened Ledger
  import opened Transactions
  import opened Acceptance
  import opened Protocol
  import opened Invariant
  import opened Steps
  import opened Safety
  import opened Theorems

  /** The runner that takes the action, if it is a runner's. */
  function Actor(a: Action): Option<nat> {
    match a
    case ReceiveMessage(p, _, _, _) => Some(p)
    case ReadForClaim(p, _, _, _) => Some(p)
    case WriteClaim(p, _) => Some(p)
    case ReadAfterRace(p, _) => Some(p)
    case FinalizeAtLimit(p, _, _) => Some(p)
    case RequireClaimedJob(p, _) => Some(p)
    case ReadCheckpoint(p, _) => Some(p)
    case Recover(p, _, _) => Some(p)
    case Heartbeat(p, _, _, _) => Some(p)
    case FinishCollection(p, _, _, _, _) => Some(p)
    case EnterAnalysis(p, _) => Some(p)
    case EndWithoutCall(p, _, _, _, _) => Some(p)
    case FailPreparation(p) => Some(p)
    case ReserveOrReuse(p, _, _, _, _) => Some(p)
    case EndOutOfTokens(p, _, _) => Some(p)
    case ReportReserved(p, _, _, _) => Some(p)
    case StartCall(p) => Some(p)
    case AnswerCall(p, _) => Some(p)
    case EndCallFailed(p, _, _) => Some(p)
    case StoreCharge(p, _, _, _) => Some(p)
    case SettleBilled(p, _, _) => Some(p)
    case ReportSaving(p, _, _, _) => Some(p)
    case SaveResult(p, _, _, _) => Some(p)
    case ReleaseFailed(p, _, _, _, _) => Some(p)
    case FinalizeFailed(p, _, _, _, _) => Some(p)
    case SyncBegin(p, _, _, _, _) => Some(p)
    case SyncCreate(p, _, _, _, _, _) => Some(p)
    case SyncStart(p, _, _, _) => Some(p)
    case _ => None
  }

  /** The runner has claimed its job, or started its synchronous one. */
  predicate PastClaim(phase: Phase) {
    !IsClaiming(phase) && !BeforeGrant(phase)
  }

  lemma NoLeaseNoStatement(db: Db, w: Runner, context: Job, requestId: RequestId, usage: Option<Usage>,
                           nextPublishAt: Time, code: ErrorCode, now: Time, expires: Time)
    requires !Holds(db, w)
    ensures ProgressDb(db, w, now, expires).None?
    ensures ChargeDb(db, w, context, requestId, usage, now).None?
    ensures w.job in db.jobs ==> ReleaseForRetry(db.jobs[w.job], w.token, nextPublishAt, code, now).None?
  {
    hide RowOk, RowStep, PublishUntouched;
  }

  lemma NoLeaseNoTransaction(db: Db, w: Runner, context: Job, t: Termination, now: Time)
    requires !Holds(db, w)
    ensures Terminate(db, w.job, w.token, context, t, now).None?
  {
    hide RowOk, RowStep, PublishUntouched, IsValidUsage;
  }

  lemma NoLeaseNoReport(db: Db, w: Runner, context: Job, requestId: RequestId, usage: Usage, scores: Scores,
                        completion: Completion, now: Time)
    requires !Holds(db, w)
    ensures Succeed(db, w.job, w.token, context, requestId, usage, scores, completion, now).None?
  {
    hide RowOk, RowStep, IsValidUsage;
  }

  lemma NoLeaseNoSettlement(db: Db, w: Runner, context: Job, estimated: int, reserved: int, code: ErrorCode,
                            retryable: bool, now: Time)
    requires !Holds(db, w)
    ensures !SettleJob(db, w.job, Running, Some(w.token), code, retryable, now).SettledIn?
    ensures !Reserve(db, w.job, w.token, context, estimated, reserved, now).ReservedIn?
  {
    hide RowOk, RowStep, PublishUntouched;
  }

  lemma FailedWrite(s: State, p: nat, fault: Fault, success: Phase, failure: Phase)
    requires p in s.runners
    ensures Write(s, p, None, fault, success, failure).db == s.db
  {
    hide Audit;
  }

  /** A row for lemmas that hold of any context. */
  function NoContext(): Job {
    NewJob(0, 0, ApiKey(0), SyncRequest, None, 0, Current, 0)
  }

  /** Collection. */
  lemma FencedCollection(s: State, a: Action, p: nat)
    requires p in s.runners && PastClaim(s.runners[p].phase) && !Holds(s.db, s.runners[p])
    requires (a.Heartbeat? || a.FinishCollection?) && Actor(a) == Some(p)
    ensures NextClaim(s, a).db == s.db
  {
    hide Audit, ProgressDb, Write, DoReceiveMessage, DoReadForClaim, DoWriteClaim, DoReadAfterRace, DoFinalizeAtLimit,
      DoRequireClaimedJob, DoReadCheckpoint, DoEnterAnalysis, DoFailPreparation;
    var w := s.runners[p];
    match a {
      case Heartbeat(_, now, expires, fault) =>
        NoLeaseNoStatement(s.db, w, NoContext(), 0, None, 0, AnalysisFailed, now, expires);
        FailedWrite(s, p, fault, Collecting, Failing);
      case FinishCollection(_, now, expires, fault, failed) =>
        NoLeaseNoStatement(s.db, w, NoContext(), 0, None, 0, AnalysisFailed, now, expires);
        FailedWrite(s, p, fault, Entering, Failing);
      case _ =>
    }
  }

  /** The phases of the claim, which this runner has left behind. */
  lemma FencedClaim(s: State, a: Action, p: nat)
    requires p in s.runners && PastClaim(s.runners[p].phase) && Actor(a) == Some(p)
    requires || a.ReceiveMessage? || a.ReadForClaim? || a.WriteClaim? || a.ReadAfterRace? || a.FinalizeAtLimit?
             || a.RequireClaimedJob?
    ensures NextClaim(s, a).db == s.db
  {
    hide Audit, Write, SettleJob, ClaimStatement, ClaimDecision, RaceDecision, CheckpointDecision, DoHeartbeat,
      DoFinishCollection, DoReadCheckpoint, DoEnterAnalysis, DoFailPreparation;
  }

  /** Reads and local steps. */
  lemma FencedRead(s: State, a: Action, p: nat)
    requires p in s.runners && PastClaim(s.runners[p].phase) && Actor(a) == Some(p)
    requires a.ReadCheckpoint? || a.EnterAnalysis? || a.FailPreparation?
    ensures NextClaim(s, a).db == s.db
  {
    hide Audit, Write, CheckpointDecision, OnError, DoReceiveMessage, DoReadForClaim, DoWriteClaim, DoReadAfterRace,
      DoFinalizeAtLimit, DoRequireClaimedJob, DoHeartbeat, DoFinishCollection;
  }

  /** The reservation, the progress before the call, the call and its answer. */
  lemma FencedReservation(s: State, a: Action, p: nat)
    requires p in s.runners && PastClaim(s.runners[p].phase) && !Holds(s.db, s.runners[p])
    requires (a.ReserveOrReuse? || a.ReportReserved? || a.StartCall? || a.AnswerCall?) && Actor(a) == Some(p)
    ensures NextCall(s, a).db == s.db
  {
    hide Audit, ProgressDb, Reserve, Write, AnswerDecision, OnError, DoRecover, DoEndWithoutCall, DoEndOutOfTokens,
      DoEndCallFailed;
    var w := s.runners[p];
    match a {
      case ReserveOrReuse(_, estimated, required, now, fault) =>
        if w.phase.Preparing? {
          var context := w.phase.context;
          var outcome := Reserve(s.db, w.job, w.token, context, estimated, required, now);
          NoLeaseNoSettlement(s.db, w, context, estimated, required, AnalysisFailed, false, now);
          FailedWrite(s, p, fault, Reserved(context.(reservedTokens := Some(required))),
                      if fault == NoFault && outcome.Insufficient? then OutOfTokens(context) else OnError(w.kind));
        }
      case ReportReserved(_, now, expires, fault) =>
        if w.phase.Reserved? {
          NoLeaseNoStatement(s.db, w, w.phase.context, 0, None, 0, AnalysisFailed, now, expires);
          FailedWrite(s, p, fault, Calling(w.phase.context), Failing);
        }
      case _ =>
    }
  }

  /** Terminations without a call, and recovery. */
  lemma FencedUnbilled(s: State, a: Action, p: nat)
    requires p in s.runners && PastClaim(s.runners[p].phase) && !Holds(s.db, s.runners[p])
    requires (a.EndWithoutCall? || a.EndOutOfTokens? || a.EndCallFailed? || a.Recover?) && Actor(a) == Some(p)
    ensures NextCall(s, a).db == s.db
  {
    hide Audit, Terminate, Write, OnError, CompletionOf, Unbilled, DoReserveOrReuse, DoReportReserved, DoStartCall,
      DoAnswerCall;
    var w := s.runners[p];
    match a {
      case EndWithoutCall(_, code, required, now, fault) =>
        if w.phase.Preparing? {
          var completion := if code == NoAnalyzableData then CompletionOf(w) else NoCompletion;
          NoLeaseNoTransaction(s.db, w, w.phase.context, Unbilled(w.phase.context, code, completion), now);
          FailedWrite(s, p, fault, Done(Finished), OnError(w.kind));
        }
      case EndOutOfTokens(_, now, fault) =>
        if w.phase.OutOfTokens? {
          NoLeaseNoTransaction(s.db, w, w.phase.context, Unbilled(w.phase.context, InsufficientTokens, NoCompletion),
                               now);
          FailedWrite(s, p, fault, Done(Finished), OnError(w.kind));
        }
      case EndCallFailed(_, now, fault) =>
        if w.phase.CallFailed? {
          NoLeaseNoTransaction(s.db, w, w.phase.context, Unbilled(w.phase.context, AnalysisFailed, NoCompletion), now);
          FailedWrite(s, p, fault, Done(Finished), OnError(w.kind));
        }
      case Recover(_, now, fault) =>
        if w.phase.Recovering? {
          NoLeaseNoTransaction(s.db, w, w.phase.context, w.phase.termination, now);
          FailedWrite(s, p, fault, Done(Finished), OnError(w.kind));
        }
      case _ =>
    }
  }

  /** The charge, and the progress after it. */
  lemma FencedCharge(s: State, a: Action, p: nat)
    requires p in s.runners && PastClaim(s.runners[p].phase) && !Holds(s.db, s.runners[p])
    requires (a.StoreCharge? || a.ReportSaving?) && Actor(a) == Some(p)
    ensures NextBill(s, a).db == s.db
  {
    hide Audit, ProgressDb, ChargeDb, Write, ChargedDecision, DoSettleBilled, DoSaveResult, DoReleaseFailed,
      DoFinalizeFailed;
    var w := s.runners[p];
    match a {
      case StoreCharge(_, now, fault, metricsFail) =>
        if w.phase.Answered? {
          var ph := w.phase;
          NoLeaseNoStatement(s.db, w, ph.context, ph.requestId, ph.usage, 0, AnalysisFailed, now, 0);
          FailedWrite(s, p, fault, ChargedDecision(ph.context, ph.requestId, ph.usage, ph.usable, metricsFail),
                      Settling(ph.context, Some(ph.requestId), ph.usage, true));
        }
      case ReportSaving(_, now, expires, fault) =>
        if w.phase.Charged? {
          var ph := w.phase;
          NoLeaseNoStatement(s.db, w, ph.context, 0, None, 0, AnalysisFailed, now, expires);
          FailedWrite(s, p, fault, Saving(ph.context, ph.requestId, ph.charge),
                      Settling(ph.context, Some(ph.requestId), Some(ph.charge), true));
        }
      case _ =>
    }
  }

  /** The termination of a billed job, and its result. */
  lemma FencedBilled(s: State, a: Action, p: nat)
    requires p in s.runners && PastClaim(s.runners[p].phase) && !Holds(s.db, s.runners[p])
    requires (a.SettleBilled? || a.SaveResult?) && Actor(a) == Some(p)
    ensures NextBill(s, a).db == s.db
  {
    hide Audit, Terminate, Succeed, Write, OnError, CompletionOf, Reconciliation, DoStoreCharge, DoReportSaving,
      DoReleaseFailed, DoFinalizeFailed;
    var w := s.runners[p];
    match a {
      case SettleBilled(_, now, fault) =>
        if w.phase.Settling? {
          var ph := w.phase;
          NoLeaseNoTransaction(s.db, w, ph.context, Reconciliation(ph.context, ph.billedId, ph.billedUsage), now);
          FailedWrite(s, p, fault, Done(Finished),
                      if ph.guarded && w.kind == Background then Done(Redeliver) else OnError(w.kind));
        }
      case SaveResult(_, scores, now, fault) =>
        if w.phase.Saving? {
          var ph := w.phase;
          NoLeaseNoReport(s.db, w, ph.context, ph.requestId, ph.charge, scores, CompletionOf(w), now);
          FailedWrite(s, p, fault, Done(Finished), Settling(ph.context, Some(ph.requestId), Some(ph.charge), true));
        }
      case _ =>
    }
  }

  /** Failure handling. */
  lemma FencedFailure(s: State, a: Action, p: nat)
    requires p in s.runners && PastClaim(s.runners[p].phase) && !Holds(s.db, s.runners[p])
    requires (a.ReleaseFailed? || a.FinalizeFailed?) && Actor(a) == Some(p)
    ensures NextBill(s, a).db == s.db
  {
    hide Audit, Write, SettleJob, ReleaseForRetry, DoStoreCharge, DoSettleBilled, DoReportSaving, DoSaveResult;
    var w := s.runners[p];
    match a {
      case ReleaseFailed(_, nextPublishAt, code, now, fault) =>
        NoLeaseNoStatement(s.db, w, NoContext(), 0, None, nextPublishAt, code, now, 0);
        FailedWrite(s, p, fault, Done(Redeliver), Done(Redeliver));
      case FinalizeFailed(_, retryable, code, now, fault) =>
        NoLeaseNoSettlement(s.db, w, NoContext(), 0, 0, if retryable then MaxAttemptsExceeded
                            else code, retryable, now);
        FailedWrite(s, p, fault, if retryable then Done(Redeliver) else Done(Finished), Done(Redeliver));
      case _ =>
    }
  }

  /** The phases before a synchronous run has its lease, which this runner has left behind. */
  lemma FencedSync(s: State, a: Action, p: nat)
    requires p in s.runners && PastClaim(s.runners[p].phase) && Actor(a) == Some(p)
    requires a.SyncBegin? || a.SyncCreate? || a.SyncStart?
    ensures NextRequest(s, a).db == s.db
  {
    hide Audit, Write, CreateExclusive, StartSync, DoAcceptCreate, DoAcceptRetry, DoTransferRepository,
      DoReceiveInvalidMessage;
  }

  /** Without the lease, nothing that a runner does after its claim reaches any table. */
  lemma NoLeaseNoChange(s: State, a: Action, p: nat)
    requires p in s.runners && PastClaim(s.runners[p].phase) && !Holds(s.db, s.runners[p]) && Actor(a) == Some(p)
    ensures Next(s, a).db == s.db
  {
    hide NextClaim, NextCall, NextBill, NextRequest, NextPublish, PastClaim, Holds;
    if a.Heartbeat? || a.FinishCollection? {
      FencedCollection(s, a, p);
    } else if a.ReadCheckpoint? || a.EnterAnalysis? || a.FailPreparation? {
      FencedRead(s, a, p);
    } else if IsClaimAction(a) {
      FencedClaim(s, a, p);
    } else if a.ReserveOrReuse? || a.ReportReserved? || a.StartCall? || a.AnswerCall? {
      FencedReservation(s, a, p);
    } else if IsCallAction(a) {
      FencedUnbilled(s, a, p);
    } else if a.StoreCharge? || a.ReportSaving? {
      FencedCharge(s, a, p);
    } else if a.SettleBilled? || a.SaveResult? {
      FencedBilled(s, a, p);
    } else if IsBillAction(a) {
      FencedFailure(s, a, p);
    } else {
      FencedSync(s, a, p);
    }
  }

  /**
   Lease fencing over whole runs: once a token has left its row, then after any number of actions of any processes, no
   action of a runner that still carries the token changes anything in any table.
   */
  lemma FormerHolderIsFenced(s: State, actions: seq<Action>, j: JobId, token: Token, p: nat, a: Action)
    requires Reachable(s) && LeaseGone(s, j, token)
    requires var s' := Run(s, actions);
             p in s'.runners && s'.runners[p].job == j && s'.runners[p].token == token &&
               PastClaim(s'.runners[p].phase) && Actor(a) == Some(p)
    ensures var s' := Run(s, actions); Next(s', a).db == s'.db
  {
    hide Reachable, Inv, Next, Run;
    ReachableIsSafe(s);
    LeaseNeverReturns(s, actions, j, token);
    NoLeaseNoChange(Run(s, actions), a, p);
  }
}
