/** Every action of a worker or of a synchronous run keeps the invariant. */
module RunnerActions {
  import opened Basics
  import opened JobRow
  import opened WorkerStatements
  import opened Ledger
  import opened Transactions
  import opened Acceptance
  import opened Protocol
  import opened Invariant
  import opened Interference
  import opened Steps
  import opened StepLemmas

  /** Runner `p` exists, and what the invariant says of it and of the tables. */
  ghost predicate At(s: State, p: nat) {
    p in s.runners && RunnerOk(s.runners[p], s.db, s.log, s.minted) && TablesOk(s.db, s.log, s.minted)
  }

  lemma RunnerAt(s: State, p: nat)
    requires Inv(s) && p in s.runners
    ensures At(s, p)
  {
    hide Inv, RunnerOk, TablesOk;
    RunnerOf(s, p);
  }

  // ----- reads -----

  lemma ClaimReadFacts(s: State, p: nat, now: Time, expires: Time)
    requires At(s, p) && s.runners[p].phase.Started?
    ensures var w := s.runners[p]; Believes(w.(phase := ClaimDecision(s.db, w.job, now, expires)), s.db, s.log)
  {
    hide LogOk, RateOk, CoverageOk, ReceivedOk, DbOk, HasBillingEvidence, UsageKnown, UsageUnknown, CoveredUpTo;
    if s.runners[p].job in s.db.jobs {
      RowHolds(s.db, s.runners[p].job);
    }
  }

  lemma ReadForClaimKeeps(s: State, p: nat, now: Time, expires: Time, fault: Fault)
    requires Inv(s)
    ensures Advances(s, DoReadForClaim(s, p, now, expires, fault))
  {
    hide Advances, Inv, At, Believes, Become, ClaimDecision;
    Stutter(s);
    if p in s.runners && s.runners[p].phase.Started? {
      RunnerAt(s, p);
      if fault == NoFault {
        ClaimReadFacts(s, p, now, expires);
      } else {
        IdleFacts(s, p, Done(Redeliver));
      }
      var w := s.runners[p];
      BecomeKeeps(s, p,
                  w.(phase := if fault == NoFault then ClaimDecision(s.db, w.job, now, expires) else Done(Redeliver)));
    }
  }

  /** Phases in which a runner relies on nothing. */
  predicate ReliesOnNothing(phase: Phase) {
    phase == Done(Redeliver) || phase == Done(Threw) || phase == Failing
  }

  lemma IdleFacts(s: State, p: nat, phase: Phase)
    requires At(s, p) && ReliesOnNothing(phase) && (phase == Failing ==> HasWindow(s.runners[p].phase))
    ensures Believes(s.runners[p].(phase := phase), s.db, s.log)
  {
    hide TablesOk, CoveredUpTo, WindowOfRow, Clean, Stored, AtMostBilled, MayCall, NotCalled, Ungranted, RecoveryOk,
      ChargeOk;
  }

  lemma RaceReadFacts(s: State, p: nat, now: Time)
    requires At(s, p) && s.runners[p].phase.RaceLost?
    ensures var w := s.runners[p]; Believes(w.(phase := RaceDecision(s.db, w.job, now)), s.db, s.log)
  {
    hide TablesOk, CoveredUpTo;
  }

  lemma ReadAfterRaceKeeps(s: State, p: nat, fault: Fault)
    requires Inv(s)
    ensures Advances(s, DoReadAfterRace(s, p, fault))
  {
    hide Advances, Inv, At, Believes, Become, RaceDecision;
    Stutter(s);
    if p in s.runners && s.runners[p].phase.RaceLost? {
      var w := s.runners[p];
      RunnerAt(s, p);
      if fault == NoFault {
        RaceReadFacts(s, p, w.phase.at);
      } else {
        IdleFacts(s, p, Done(Redeliver));
      }
      BecomeKeeps(s, p,
                  w.(phase := if fault == NoFault then RaceDecision(s.db, w.job, w.phase.at) else Done(Redeliver)));
    }
  }

  /** The claimed row's window starts where coverage ends. */
  lemma ClaimedFacts(s: State, p: nat)
    requires At(s, p) && s.runners[p].phase.Leased? && s.runners[p].job in s.db.jobs
    ensures var w := s.runners[p];
            var row := s.db.jobs[w.job];
            Believes(w.(attempt := row.attemptCount, limit := row.maxAttempts,
                        window := Window(row.sourceCursor, row.collectionCutoff), phase := Holding), s.db, s.log)
  {
    hide DbOk, RateOk, LogOk, CoveredUpTo;
    var row := s.db.jobs[s.runners[p].job];
    assert CoveredUpTo(s.db, s.log, row.repositoryId, row.sourceCursor);
  }

  lemma RequireClaimedJobKeeps(s: State, p: nat, fault: Fault)
    requires Inv(s)
    ensures Advances(s, DoRequireClaimedJob(s, p, fault))
  {
    hide Advances, Inv, At, Believes, Become;
    Stutter(s);
    if p in s.runners && s.runners[p].phase.Leased? {
      var w := s.runners[p];
      RunnerAt(s, p);
      if fault == NoFault && Holds(s.db, w) && s.db.jobs[w.job].status == Running {
        var row := s.db.jobs[w.job];
        ClaimedFacts(s, p);
        BecomeKeeps(s, p, w.(attempt := row.attemptCount, limit := row.maxAttempts,
                             window := Window(row.sourceCursor, row.collectionCutoff), phase := Holding));
      } else {
        IdleFacts(s, p, Done(Redeliver));
        BecomeKeeps(s, p, w.(phase := Done(Redeliver)));
      }
    }
  }

  /** The checkpoint decision remembers the row's evidence exactly. */
  lemma CheckpointTruth(w: Runner, db: Db, log: Log, otherwise: Phase)
    requires w.job in db.jobs && RowOk(db.jobs[w.job]) && db.jobs[w.job].status == Running
    requires !HasBillingEvidence(db.jobs[w.job]) ==> PhaseOk(w.(phase := otherwise), db, log)
    ensures PhaseOk(w.(phase := CheckpointDecision(db.jobs[w.job], otherwise)), db, log)
  {
    var row := db.jobs[w.job];
    if HasBillingEvidence(row) {
      assert row.providerRequestIds == [row.providerRequestIds[0]];
      assert EvidenceOf(row) == Billed(CheckpointId(row), CheckpointUsage(row));
    }
  }

  lemma FencedFacts(s: State, p: nat, otherwise: Phase)
    requires At(s, p) && (s.runners[p].phase.Holding? || s.runners[p].phase.Entering?) && Holds(s.db, s.runners[p])
    requires s.db.jobs[s.runners[p].job].status == Running
    requires !HasBillingEvidence(s.db.jobs[s.runners[p].job]) ==>
               PhaseOk(s.runners[p].(phase := otherwise), s.db, s.log)
    requires HasWindow(otherwise) || ReliesOnNothing(otherwise)
    ensures var w := s.runners[p]; Believes(w.(phase := CheckpointDecision(s.db.jobs[w.job], otherwise)), s.db, s.log)
  {
    hide DbOk, RateOk, LogOk, CoverageOk, ReceivedOk, PhaseOk, RunnerWindowOk, RowOk, HasBillingEvidence;
    RowHolds(s.db, s.runners[p].job);
    CheckpointTruth(s.runners[p], s.db, s.log, otherwise);
    WindowKept(s.runners[p], CheckpointDecision(s.db.jobs[s.runners[p].job], otherwise), s.db, s.log);
  }

  /** After a worker's claim: the collection starts, unless the row is billed or retired. */
  lemma CollectingTruth(s: State, p: nat)
    requires At(s, p) && s.runners[p].phase.Holding?
    ensures PhaseOk(s.runners[p].(phase := Collecting), s.db, s.log)
  {
    hide TablesOk, RunnerWindowOk;
  }

  lemma ReadCheckpointKeeps(s: State, p: nat, fault: Fault)
    requires Inv(s)
    ensures Advances(s, DoReadCheckpoint(s, p, fault))
  {
    hide Advances, Inv, At, Believes, Become, CheckpointDecision, PhaseOk;
    Stutter(s);
    if p in s.runners && s.runners[p].phase.Holding? {
      var w := s.runners[p];
      RunnerAt(s, p);
      if fault == NoFault && Holds(s.db, w) && s.db.jobs[w.job].status == Running {
        CollectingTruth(s, p);
        FencedFacts(s, p, Collecting);
        BecomeKeeps(s, p, w.(phase := CheckpointDecision(s.db.jobs[w.job], Collecting)));
      } else {
        IdleFacts(s, p, OnError(w.kind));
        BecomeKeeps(s, p, w.(phase := OnError(w.kind)));
      }
    }
  }

  /** An unbilled holder's token has its ticket. */
  lemma HolderHasTicket(db: Db, log: Log, minted: set<Token>, w: Runner)
    requires LogOk(db, log, minted) && Holds(db, w) && !HasBillingEvidence(db.jobs[w.job])
    ensures w.token in TokensOf(log.tickets, w.job)
  {
    hide HasBillingEvidence, Held, NoRepeats;
    assert LogAt(db.jobs[w.job], log, w.job, minted);
    assert w.token in LeaseOf(db.jobs[w.job]);
  }

  /** The lease of an unbilled row entitles its holder to one call. */
  lemma PreparingTruth(s: State, p: nat)
    requires At(s, p) && s.runners[p].phase.Entering? && Holds(s.db, s.runners[p])
    requires !HasBillingEvidence(s.db.jobs[s.runners[p].job])
    ensures PhaseOk(s.runners[p].(phase := Preparing(s.db.jobs[s.runners[p].job])), s.db, s.log)
  {
    hide DbOk, RateOk, LogOk, CoverageOk, ReceivedOk, RunnerWindowOk, HasBillingEvidence;
    HolderHasTicket(s.db, s.log, s.minted, s.runners[p]);
  }

  lemma EnterAnalysisKeeps(s: State, p: nat, fault: Fault)
    requires Inv(s)
    ensures Advances(s, DoEnterAnalysis(s, p, fault))
  {
    hide Advances, Inv, At, Believes, Become, CheckpointDecision, HasBillingEvidence;
    Stutter(s);
    if p in s.runners && s.runners[p].phase.Entering? {
      var w := s.runners[p];
      RunnerAt(s, p);
      if fault == NoFault && Holds(s.db, w) && s.db.jobs[w.job].status == Running {
        var row := s.db.jobs[w.job];
        var otherwise := if row.version == Current then Preparing(row) else OnError(w.kind);
        if !HasBillingEvidence(row) {
          PreparingTruth(s, p);
        }
        FencedFacts(s, p, otherwise);
        BecomeKeeps(s, p, w.(phase := CheckpointDecision(row, otherwise)));
      } else {
        IdleFacts(s, p, OnError(w.kind));
        BecomeKeeps(s, p, w.(phase := OnError(w.kind)));
      }
    }
  }

  lemma FailPreparationKeeps(s: State, p: nat)
    requires Inv(s)
    ensures Advances(s, DoFailPreparation(s, p))
  {
    hide Advances, Inv, At, Believes, Become;
    Stutter(s);
    if p in s.runners && s.runners[p].phase.Preparing? {
      RunnerAt(s, p);
      IdleFacts(s, p, OnError(s.runners[p].kind));
      BecomeKeeps(s, p, s.runners[p].(phase := OnError(s.runners[p].kind)));
    }
  }

  // ----- claiming -----

  /** A claim raises attemptCount or takes over a billed row. */
  lemma ClaimRow(db: Db, log: Log, w: Runner, seen: Job, at: Time, expires: Time)
    requires ClaimStatement(db, w, seen, at, expires).Some? && w.job in db.jobs && RowOk(db.jobs[w.job])
    requires Ungranted(w, log) && w.job in log.received
    ensures var after := ClaimStatement(db, w, seen, at, expires).value;
            && w.job in after.jobs && after == Put(db, w.job, after.jobs[w.job])
            && RowStep(db.jobs[w.job], after.jobs[w.job], Some(w.token))
            && PublishUntouched(db.jobs[w.job], after.jobs[w.job]) && Held(after.jobs[w.job]) == Held(db.jobs[w.job])
            && after.jobs[w.job].status == Running
            && LeaseReady(db.jobs[w.job], after.jobs[w.job], log, w.job, Some(w.token))
  {
    hide RowOk, RowStep, PublishUntouched, Held;
  }

  lemma ClaimStepOk(db: Db, log: Log, w: Runner, seen: Job, at: Time, expires: Time)
    requires DbOk(db) && ClaimStatement(db, w, seen, at, expires).Some? && Ungranted(w, log) && w.job in log.received
    ensures RowStepOk(db, ClaimStatement(db, w, seen, at, expires).value, log, w.job, w.window, Some(w.token))
  {
    hide RowOk, RowStep, PublishUntouched, Held, HasBillingEvidence, DbOk, RowStepOk, LeaseReady,
      TakeOverExpiredBilledLease, TakeOverExpiredLease, ClaimQueued;
    RowHolds(db, w.job);
    ClaimRow(db, log, w, seen, at, expires);
    StatementStepOk(db, log, w.job, ClaimStatement(db, w, seen, at, expires).value.jobs[w.job], w.window,
                    Some(w.token));
  }

  /** Only a worker claims, and only a job of which it received a message. */
  lemma ClaimantReceived(s: State, p: nat)
    requires At(s, p) && IsClaiming(s.runners[p].phase)
    ensures s.runners[p].job in s.log.received
  {
    hide TablesOk, PhaseOk, CoveredUpTo;
  }

  lemma ClaimFacts(s: State, p: nat, result: Option<Db>, failure: Phase)
    requires At(s, p) && s.runners[p].phase.ClaimSeen? && (failure.RaceLost? || failure == Done(Redeliver))
    requires result == ClaimStatement(s.db, s.runners[p], s.runners[p].phase.seen, s.runners[p].phase.at,
                                      s.runners[p].phase.expires)
    ensures WriteOk(s, p, result, Leased, failure, Some(s.runners[p].token))
  {
    hide RunnerWindowOk, RowStepOk, LogOk, CoverageOk, ReceivedOk, RateOk, DbOk, ClaimStatement;
    if result.Some? {
      ClaimantReceived(s, p);
      ClaimStepOk(s.db, s.log, s.runners[p], s.runners[p].phase.seen, s.runners[p].phase.at,
                  s.runners[p].phase.expires);
    }
  }

  lemma WriteClaimKeeps(s: State, p: nat, fault: Fault)
    requires Inv(s)
    ensures Advances(s, DoWriteClaim(s, p, fault))
  {
    hide Advances, Inv, At, WriteOk, Write, ClaimStatement;
    Stutter(s);
    if p in s.runners && s.runners[p].phase.ClaimSeen? {
      var w := s.runners[p];
      var result := ClaimStatement(s.db, w, w.phase.seen, w.phase.at, w.phase.expires);
      var failure := if fault == NoFault then RaceLost(w.phase.at) else Done(Redeliver);
      RunnerAt(s, p);
      ClaimFacts(s, p, result, failure);
      WriteKeeps(s, p, result, fault, Leased, failure, Some(w.token));
    }
  }

  /** The codes that finalizations other than NO_ANALYZABLE_DATA use. */
  predicate PlainFailure(code: ErrorCode) {
    code != PublishFailed && code != NoAnalyzableData
  }

  lemma SettleFacts(s: State, p: nat, result: Option<Db>, status: Status, lease: Option<Token>, code: ErrorCode,
                    retryable: bool, now: Time, success: Phase, failure: Phase)
    requires At(s, p) && (status == Queued || status == Running) && PlainFailure(code)
    requires result == None ||
               result == SettledDb(SettleJob(s.db, s.runners[p].job, status, lease, code, retryable, now))
    requires success == Done(Finished) || success == Done(Redeliver)
    requires failure == Done(Redeliver)
    ensures WriteOk(s, p, result, success, failure, None)
  {
    hide RunnerWindowOk, RowStepOk, LogOk, CoverageOk, ReceivedOk, RateOk, DbOk, NotCalled, Ungranted, SettleJob,
      MayCall, Clean, Stored, AtMostBilled, RecoveryOk, ChargeOk;
    if result.Some? {
      SettleStepOk(s.db, s.log, s.runners[p].job, s.runners[p].window, status, lease, code, retryable, now);
    }
  }

  lemma FinalizeAtLimitKeeps(s: State, p: nat, now: Time, fault: Fault)
    requires Inv(s)
    ensures Advances(s, DoFinalizeAtLimit(s, p, now, fault))
  {
    hide Advances, Inv, At, WriteOk, Write, SettleJob, SettledDb;
    Stutter(s);
    if p in s.runners && s.runners[p].phase.AtLimit? {
      var w := s.runners[p];
      var seen := w.phase.seen;
      var status := if seen.status == Queued then Queued else Running;
      var lease := if seen.status == Queued then None else seen.leaseToken;
      var settled := SettledDb(SettleJob(s.db, w.job, status, lease, MaxAttemptsExceeded, true, now));
      var result := if seen.status == Queued || seen.leaseToken.Some? then settled else None;
      RunnerAt(s, p);
      SettleFacts(s, p, result, status, lease, MaxAttemptsExceeded, true, now, Done(Redeliver), Done(Redeliver));
      WriteKeeps(s, p, result, fault, Done(Redeliver), Done(Redeliver), None);
    }
  }

  lemma FinalizeFailedKeeps(s: State, p: nat, retryable: bool, code: ErrorCode, now: Time, fault: Fault)
    requires Inv(s)
    ensures Advances(s, DoFinalizeFailed(s, p, retryable, code, now, fault))
  {
    hide Advances, Inv, At, WriteOk, Write, SettleJob, SettledDb;
    Stutter(s);
    if p in s.runners && s.runners[p].phase.Failing? && IsClassifierCode(code) {
      var w := s.runners[p];
      var result :=
        SettledDb(SettleJob(s.db, w.job, Running, Some(w.token), if retryable then MaxAttemptsExceeded
                            else code, retryable, now));
      var success := if retryable then Done(Redeliver) else Done(Finished);
      RunnerAt(s, p);
      SettleFacts(s, p, result, Running, Some(w.token), if retryable then MaxAttemptsExceeded
                  else code, retryable, now, success, Done(Redeliver));
      WriteKeeps(s, p, result, fault, success, Done(Redeliver), None);
    }
  }

  // ----- progress -----

  predicate SameEvidence(before: Job, after: Job) {
    && SameRequest(before, after)
    && after.reservedTokens == before.reservedTokens
    && EvidenceOf(after) == EvidenceOf(before)
    && HasBillingEvidence(after) == HasBillingEvidence(before)
  }

  /** A progress update changes nothing that a lease holder relies on. */
  lemma ProgressStepOk(db: Db, log: Log, w: Runner, now: Time, expires: Time)
    requires DbOk(db) && ProgressDb(db, w, now, expires).Some?
    ensures var after := ProgressDb(db, w, now, expires).value;
            && RowStepOk(db, after, log, w.job, w.window, Some(w.token))
            && w.job in db.jobs && w.job in after.jobs && SameEvidence(db.jobs[w.job], after.jobs[w.job])
            && Holds(db, w)
  {
    hide RowOk, RowStep, PublishUntouched, Held, DbOk, RowStepOk;
    RowHolds(db, w.job);
    StatementStepOk(db, log, w.job, ProgressDb(db, w, now, expires).value.jobs[w.job], w.window, Some(w.token));
  }

  /** Phases around a progress update, and what they rely on: nothing, no earlier call, or the row's evidence. */
  predicate KeepsThroughProgress(phase: Phase) {
    phase.Collecting? || phase.Entering? || phase.Failing? || phase.Calling? || phase.Saving? || phase.Settling?
  }

  /** What the holder knew of its own row it still knows after a progress update. */
  lemma KnowledgeKept(w: Runner, db: Db, after: Db, log: Log, phase: Phase)
    requires w.job in db.jobs && w.job in after.jobs && SameEvidence(db.jobs[w.job], after.jobs[w.job]) && Holds(db, w)
    requires KeepsThroughProgress(phase)
    requires PhaseOk(w.(phase := phase), db, log)
    ensures PhaseOk(w.(phase := phase), after, log)
  {
    hide HasBillingEvidence, IsValidUsage, Billed;
  }

  /** What a committed progress update leaves of the tables and of the runner's knowledge. */
  ghost predicate ProgressOk(s: State, p: nat, after: Db, phase: Phase)
    requires p in s.runners
  {
    var w := s.runners[p];
    && RowStepOk(s.db, after, s.log, w.job, w.window, Some(w.token))
    && PhaseOk(w.(phase := phase), after, s.log)
  }

  lemma ProgressKnown(s: State, p: nat, now: Time, expires: Time, phase: Phase)
    requires At(s, p) && KeepsThroughProgress(phase) && PhaseOk(s.runners[p].(phase := phase), s.db, s.log)
    requires ProgressDb(s.db, s.runners[p], now, expires).Some?
    ensures ProgressOk(s, p, ProgressDb(s.db, s.runners[p], now, expires).value, phase)
  {
    hide RunnerWindowOk, RowStepOk, LogOk, CoverageOk, RateOk, DbOk, PhaseOk, ProgressDb, SameEvidence, ReceivedOk,
      KeepsThroughProgress;
    var w := s.runners[p];
    ProgressStepOk(s.db, s.log, w, now, expires);
    KnowledgeKept(w, s.db, ProgressDb(s.db, w, now, expires).value, s.log, phase);
  }

  lemma ProgressFacts(s: State, p: nat, now: Time, expires: Time, success: Phase, failure: Phase)
    requires p in s.runners && At(s, p) && HasWindow(s.runners[p].phase)
    requires KeepsThroughProgress(success) && KeepsThroughProgress(failure)
    requires PhaseOk(s.runners[p].(phase := success), s.db, s.log)
    requires PhaseOk(s.runners[p].(phase := failure), s.db, s.log)
    ensures WriteOk(s, p, ProgressDb(s.db, s.runners[p], now, expires), success, failure, Some(s.runners[p].token))
  {
    hide At, RowStepOk, PhaseOk, ProgressDb;
    if ProgressDb(s.db, s.runners[p], now, expires).Some? {
      ProgressKnown(s, p, now, expires, success);
      ProgressKnown(s, p, now, expires, failure);
    }
  }

  lemma HeartbeatKeeps(s: State, p: nat, now: Time, expires: Time, fault: Fault)
    requires Inv(s)
    ensures Advances(s, DoHeartbeat(s, p, now, expires, fault))
  {
    hide Advances, Inv, At, WriteOk, Write, ProgressDb, PhaseOk;
    Stutter(s);
    if p in s.runners && s.runners[p].phase.Collecting? {
      RunnerAt(s, p);
      CollectedTruth(s, p);
      ProgressFacts(s, p, now, expires, Collecting, Failing);
      WriteKeeps(s, p, ProgressDb(s.db, s.runners[p], now, expires), fault, Collecting, Failing,
                 Some(s.runners[p].token));
    }
  }

  lemma CollectedTruth(s: State, p: nat)
    requires At(s, p) && s.runners[p].phase.Collecting?
    ensures PhaseOk(s.runners[p].(phase := Collecting), s.db, s.log)
    ensures PhaseOk(s.runners[p].(phase := Entering), s.db, s.log)
    ensures PhaseOk(s.runners[p].(phase := Failing), s.db, s.log)
  {
    hide TablesOk, RunnerWindowOk;
  }

  lemma FinishCollectionKeeps(s: State, p: nat, now: Time, expires: Time, fault: Fault, failed: bool)
    requires Inv(s)
    ensures Advances(s, DoFinishCollection(s, p, now, expires, fault, failed))
  {
    hide Advances, Inv, At, WriteOk, Write, ProgressDb, PhaseOk, Believes, Become;
    Stutter(s);
    if p in s.runners && s.runners[p].phase.Collecting? {
      RunnerAt(s, p);
      if failed {
        IdleFacts(s, p, Failing);
        BecomeKeeps(s, p, s.runners[p].(phase := Failing));
      } else {
        CollectedTruth(s, p);
        ProgressFacts(s, p, now, expires, Entering, Failing);
        WriteKeeps(s, p, ProgressDb(s.db, s.runners[p], now, expires), fault, Entering, Failing,
                   Some(s.runners[p].token));
      }
    }
  }

  lemma ReservedTruth(s: State, p: nat)
    requires At(s, p) && s.runners[p].phase.Reserved?
    ensures PhaseOk(s.runners[p].(phase := Calling(s.runners[p].phase.context)), s.db, s.log)
    ensures PhaseOk(s.runners[p].(phase := Failing), s.db, s.log)
  {
    hide TablesOk, RunnerWindowOk, HasBillingEvidence;
  }

  lemma ReportReservedKeeps(s: State, p: nat, now: Time, expires: Time, fault: Fault)
    requires Inv(s)
    ensures Advances(s, DoReportReserved(s, p, now, expires, fault))
  {
    hide Advances, Inv, At, WriteOk, Write, ProgressDb, PhaseOk, Become;
    Stutter(s);
    if p in s.runners && s.runners[p].phase.Reserved? {
      var w := s.runners[p];
      var calling := Calling(w.phase.context);
      RunnerAt(s, p);
      ReservedTruth(s, p);
      if w.kind == Sync {
        BelievesAt(s, p, calling);
        BecomeKeeps(s, p, w.(phase := calling));
      } else {
        ProgressFacts(s, p, now, expires, calling, Failing);
        WriteKeeps(s, p, ProgressDb(s.db, w, now, expires), fault, calling, Failing, Some(w.token));
      }
    }
  }

  lemma BelievesAt(s: State, p: nat, phase: Phase)
    requires At(s, p) && PhaseOk(s.runners[p].(phase := phase), s.db, s.log)
    requires !phase.SyncCollected? && phase != Done(Missing)
    requires (IsClaiming(phase) ==> IsClaiming(s.runners[p].phase))
    requires (HasWindow(phase) ==> HasWindow(s.runners[p].phase))
    ensures Believes(s.runners[p].(phase := phase), s.db, s.log)
  {
    hide TablesOk, PhaseOk, RunnerWindowOk;
    WindowKept(s.runners[p], phase, s.db, s.log);
  }

  lemma ChargedTruth(s: State, p: nat)
    requires At(s, p) && s.runners[p].phase.Charged?
    ensures var w := s.runners[p];
            var ph := w.phase;
            && PhaseOk(w.(phase := Saving(ph.context, ph.requestId, ph.charge)), s.db, s.log)
            && PhaseOk(w.(phase := Settling(ph.context, Some(ph.requestId), Some(ph.charge), true)), s.db, s.log)
  {
    hide TablesOk, RunnerWindowOk, IsValidUsage, HasBillingEvidence, Billed;
  }

  lemma ReportSavingKeeps(s: State, p: nat, now: Time, expires: Time, fault: Fault)
    requires Inv(s)
    ensures Advances(s, DoReportSaving(s, p, now, expires, fault))
  {
    hide Advances, Inv, At, WriteOk, Write, ProgressDb, PhaseOk, Become;
    Stutter(s);
    if p in s.runners && s.runners[p].phase.Charged? {
      var w := s.runners[p];
      var ph := w.phase;
      var saving := Saving(ph.context, ph.requestId, ph.charge);
      var settling := Settling(ph.context, Some(ph.requestId), Some(ph.charge), true);
      RunnerAt(s, p);
      ChargedTruth(s, p);
      if w.kind == Sync {
        BelievesAt(s, p, saving);
        BecomeKeeps(s, p, w.(phase := saving));
      } else {
        ProgressFacts(s, p, now, expires, saving, settling);
        WriteKeeps(s, p, ProgressDb(s.db, w, now, expires), fault, saving, settling, Some(w.token));
      }
    }
  }
}
