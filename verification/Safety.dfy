/** The invariant holds in every state that any run reaches. */
module Safety {
  import opened Protocol
  import opened Invariant
  import opened Steps
  import opened RunnerActions
  import opened BillingActions
  import opened IntakeActions
  import opened OutboxActions

  /** Receiving, claiming, collecting and preparing. */
  lemma ClaimKeeps(s: State, a: Action)
    requires Inv(s)
    ensures Advances(s, NextClaim(s, a))
  {
    hide Inv, Advances, DoReceiveMessage, DoReadForClaim, DoWriteClaim, DoReadAfterRace, DoFinalizeAtLimit,
      DoRequireClaimedJob, DoReadCheckpoint, DoHeartbeat, DoFinishCollection, DoEnterAnalysis, DoFailPreparation;
    match a {
      case ReceiveMessage(p, job, token, receiveCount) => ReceiveMessageKeeps(s, p, job, token, receiveCount);
      case ReadForClaim(p, now, expires, fault) => ReadForClaimKeeps(s, p, now, expires, fault);
      case WriteClaim(p, fault) => WriteClaimKeeps(s, p, fault);
      case ReadAfterRace(p, fault) => ReadAfterRaceKeeps(s, p, fault);
      case FinalizeAtLimit(p, now, fault) => FinalizeAtLimitKeeps(s, p, now, fault);
      case RequireClaimedJob(p, fault) => RequireClaimedJobKeeps(s, p, fault);
      case ReadCheckpoint(p, fault) => ReadCheckpointKeeps(s, p, fault);
      case Heartbeat(p, now, expires, fault) => HeartbeatKeeps(s, p, now, expires, fault);
      case FinishCollection(p, now, expires, fault, failed) => FinishCollectionKeeps(s, p, now, expires, fault, failed);
      case EnterAnalysis(p, fault) => EnterAnalysisKeeps(s, p, fault);
      case FailPreparation(p) => FailPreparationKeeps(s, p);
      case _ => Stutter(s);
    }
  }

  /** Reserving, calling, and ending without a call. */
  lemma CallKeeps(s: State, a: Action)
    requires Inv(s)
    ensures Advances(s, NextCall(s, a))
  {
    hide Inv, Advances, DoRecover, DoEndWithoutCall, DoReserveOrReuse, DoEndOutOfTokens, DoReportReserved, DoStartCall,
      DoAnswerCall, DoEndCallFailed;
    match a {
      case Recover(p, now, fault) => RecoverKeeps(s, p, now, fault);
      case EndWithoutCall(p, code, required, now, fault) => EndWithoutCallKeeps(s, p, code, required, now, fault);
      case ReserveOrReuse(p, estimated, required, now, fault) =>
        ReserveOrReuseKeeps(s, p, estimated, required, now, fault);
      case EndOutOfTokens(p, now, fault) => EndOutOfTokensKeeps(s, p, now, fault);
      case ReportReserved(p, now, expires, fault) => ReportReservedKeeps(s, p, now, expires, fault);
      case StartCall(p) => StartCallKeeps(s, p);
      case AnswerCall(p, answer) => AnswerCallKeeps(s, p, answer);
      case EndCallFailed(p, now, fault) => EndCallFailedKeeps(s, p, now, fault);
      case _ => Stutter(s);
    }
  }

  /** Charging, settling and failing. */
  lemma BillKeeps(s: State, a: Action)
    requires Inv(s)
    ensures Advances(s, NextBill(s, a))
  {
    hide Inv, Advances, DoStoreCharge, DoSettleBilled, DoReportSaving, DoSaveResult, DoReleaseFailed, DoFinalizeFailed;
    match a {
      case StoreCharge(p, now, fault, metricsFail) => StoreChargeKeeps(s, p, now, fault, metricsFail);
      case SettleBilled(p, now, fault) => SettleBilledKeeps(s, p, now, fault);
      case ReportSaving(p, now, expires, fault) => ReportSavingKeeps(s, p, now, expires, fault);
      case SaveResult(p, scores, now, fault) => SaveResultKeeps(s, p, scores, now, fault);
      case ReleaseFailed(p, nextPublishAt, code, now, fault) =>
        ReleaseFailedKeeps(s, p, nextPublishAt, code, now, fault);
      case FinalizeFailed(p, retryable, code, now, fault) => FinalizeFailedKeeps(s, p, retryable, code, now, fault);
      case _ => Stutter(s);
    }
  }

  /** Requests, synchronous runs and invalid messages. */
  lemma RequestKeeps(s: State, a: Action)
    requires Inv(s)
    ensures Advances(s, NextRequest(s, a))
  {
    hide Inv, Advances, DoReceiveInvalidMessage, DoSyncBegin, DoSyncCreate, DoSyncStart, DoAcceptCreate, DoAcceptRetry,
      DoTransferRepository;
    match a {
      case ReceiveInvalidMessage(job, now) => ReceiveInvalidMessageKeeps(s, job, now);
      case SyncBegin(p, user, repository, token, now) => SyncBeginKeeps(s, p, user, repository, token, now);
      case SyncCreate(p, job, nonce, version, now, fault) => SyncCreateKeeps(s, p, job, nonce, version, now, fault);
      case SyncStart(p, now, expires, fault) => SyncStartKeeps(s, p, now, expires, fault);
      case AcceptCreate(user, key, repository, job, version, now) =>
        AcceptCreateKeeps(s, user, key, repository, job, version, now);
      case AcceptRetry(user, key, source, job, version, now) =>
        AcceptRetryKeeps(s, user, key, source, job, version, now);
      case TransferRepository(repository, newOwner) => TransferRepositoryKeeps(s, repository, newOwner);
      case _ => Stutter(s);
    }
  }

  /** The outbox. */
  lemma PublishKeeps(s: State, a: Action)
    requires Inv(s)
    ensures Advances(s, NextPublish(s, a))
  {
    hide Inv, Advances, DoLoadForPublish, DoClaimPublish, DoSendMessage, DoRecordPublished, DoRecordPublishFailure;
    match a {
      case LoadForPublish(q, job, allowRepublish) => LoadForPublishKeeps(s, q, job, allowRepublish);
      case ClaimPublish(q, now, fault) => ClaimPublishKeeps(s, q, now, fault);
      case SendMessage(q, outcome) => SendMessageKeeps(s, q, outcome);
      case RecordPublished(q, fault) => RecordPublishedKeeps(s, q, fault);
      case RecordPublishFailure(q, nextPublishAt, fault) => RecordPublishFailureKeeps(s, q, nextPublishAt, fault);
      case _ => Stutter(s);
    }
  }

  /** Whatever any process does next, and wherever it fails, the invariant holds afterwards. */
  lemma NextKeeps(s: State, a: Action)
    requires Inv(s)
    ensures Advances(s, Next(s, a))
  {
    hide Inv, Advances, NextClaim, NextCall, NextBill, NextRequest, NextPublish;
    ClaimKeeps(s, a);
    CallKeeps(s, a);
    BillKeeps(s, a);
    RequestKeeps(s, a);
    PublishKeeps(s, a);
  }

  /** Every interleaving of every length, with every fault. */
  lemma {:induction false} RunKeeps(s: State, actions: seq<Action>)
    requires Inv(s)
    ensures Inv(Run(s, actions))
    decreases |actions|
  {
    hide Inv, Next, Lawful, Remembers;
    if actions != [] {
      NextKeeps(s, actions[0]);
      RunKeeps(Next(s, actions[0]), actions[1..]);
    }
  }

  /** The states that a deployment can come to. */
  ghost predicate Reachable(s: State) {
    exists start, actions :: Initial(start) && s == Run(start, actions)
  }

  lemma ReachableIsSafe(s: State)
    requires Reachable(s)
    ensures Inv(s)
  {
    hide Inv, Initial, Run;
    var start, actions :| Initial(start) && s == Run(start, actions);
    InitialHolds(start);
    RunKeeps(start, actions);
  }
}
