/** The actions that reserve, spend, settle or end keep the invariant; so do the actions that start a runner. */
module BillingActions {
  import opened Basics
  import opened JobRow
  import opened JobStatements
  import opened WorkerStatements
  import opened StatService
  import opened Ledger
  import opened Transactions
  import opened Acceptance
  import opened Protocol
  import opened Invariant
  import opened Interference
  import opened Steps
  import opened StepLemmas
  import opened RunnerActions

  // ----- terminations that bill nothing -----

  lemma UnbilledFacts(s: State, p: nat, context: Job, code: ErrorCode, completion: Completion, now: Time)
    requires At(s, p) && HasWindow(s.runners[p].phase) && Clean(s.runners[p], s.db, context) && code != PublishFailed
    requires completion == (if code == NoAnalyzableData then CompletionOf(s.runners[p]) else NoCompletion)
    ensures var w := s.runners[p];
            WriteOk(s, p, Terminate(s.db, w.job, w.token, context, Unbilled(context, code, completion), now),
                    Done(Finished), OnError(w.kind), Some(w.token))
  {
    hide RunnerWindowOk, RowStepOk, LogOk, CoverageOk, ReceivedOk, RateOk, DbOk, Unbilled, Terminate, Clean,
      CompletionOf, WriteOk, PhaseOk;
    var w := s.runners[p];
    if Terminate(s.db, w.job, w.token, context, Unbilled(context, code, completion), now).Some? {
      UnbilledStepOk(s.db, s.log, w, context, code, completion, now);
    }
    EndFacts(s, p, Terminate(s.db, w.job, w.token, context, Unbilled(context, code, completion), now), OnError(w.kind));
  }

  /** A transaction that ends the job, with any error left to a phase that relies on nothing. */
  lemma EndFacts(s: State, p: nat, result: Option<Db>, failure: Phase)
    requires p in s.runners && HasWindow(s.runners[p].phase) && ReliesOnNothing(failure)
    requires var w := s.runners[p];
             result.Some? ==> RowStepOk(s.db, result.value, s.log, w.job, w.window, Some(w.token)) &&
                              w.job in result.value.jobs && IsTerminal(result.value.jobs[w.job])
    ensures WriteOk(s, p, result, Done(Finished), failure, Some(s.runners[p].token))
  {
    hide RowStepOk, Clean, Stored, AtMostBilled, MayCall, NotCalled, Ungranted, RecoveryOk, ChargeOk;
  }

  lemma CleanAt(s: State, p: nat)
    requires At(s, p)
    ensures var w := s.runners[p];
            && (w.phase.Preparing? ==> MayCall(w, s.log) && Clean(w, s.db, w.phase.context))
            && (w.phase.OutOfTokens? ==> Clean(w, s.db, w.phase.context))
            && (w.phase.CallFailed? ==> Clean(w, s.db, w.phase.context))
  {
    hide TablesOk, RunnerWindowOk, Clean, MayCall;
  }

  lemma EndWithoutCallKeeps(s: State, p: nat, code: ErrorCode, required: int, now: Time, fault: Fault)
    requires Inv(s)
    ensures Advances(s, DoEndWithoutCall(s, p, code, required, now, fault))
  {
    hide Advances, Inv, At, WriteOk, Write, Terminate, Unbilled, Clean, MayCall;
    Stutter(s);
    if p in s.runners && s.runners[p].phase.Preparing? && EndsWithoutCall(s.runners[p].phase.context, code, required) {
      var w := s.runners[p];
      var completion := if code == NoAnalyzableData then CompletionOf(w) else NoCompletion;
      RunnerAt(s, p);
      CleanAt(s, p);
      UnbilledFacts(s, p, w.phase.context, code, completion, now);
      WriteKeeps(s, p,
                 Terminate(s.db, w.job, w.token, w.phase.context, Unbilled(w.phase.context, code, completion),
                           now), fault,
                 Done(Finished), OnError(w.kind), Some(w.token));
    }
  }

  lemma EndOutOfTokensKeeps(s: State, p: nat, now: Time, fault: Fault)
    requires Inv(s)
    ensures Advances(s, DoEndOutOfTokens(s, p, now, fault))
  {
    hide Advances, Inv, At, WriteOk, Write, Terminate, Unbilled, Clean, MayCall;
    Stutter(s);
    if p in s.runners && s.runners[p].phase.OutOfTokens? {
      var w := s.runners[p];
      RunnerAt(s, p);
      CleanAt(s, p);
      UnbilledFacts(s, p, w.phase.context, InsufficientTokens, NoCompletion, now);
      WriteKeeps(s, p,
                 Terminate(s.db, w.job, w.token, w.phase.context,
                           Unbilled(w.phase.context, InsufficientTokens, NoCompletion), now), fault,
                 Done(Finished), OnError(w.kind), Some(w.token));
    }
  }

  lemma EndCallFailedKeeps(s: State, p: nat, now: Time, fault: Fault)
    requires Inv(s)
    ensures Advances(s, DoEndCallFailed(s, p, now, fault))
  {
    hide Advances, Inv, At, WriteOk, Write, Terminate, Unbilled, Clean, MayCall;
    Stutter(s);
    if p in s.runners && s.runners[p].phase.CallFailed? {
      var w := s.runners[p];
      RunnerAt(s, p);
      CleanAt(s, p);
      UnbilledFacts(s, p, w.phase.context, AnalysisFailed, NoCompletion, now);
      WriteKeeps(s, p,
                 Terminate(s.db, w.job, w.token, w.phase.context,
                           Unbilled(w.phase.context, AnalysisFailed, NoCompletion), now), fault,
                 Done(Finished), OnError(w.kind), Some(w.token));
    }
  }

  // ----- settling a bill -----

  lemma ReconciliationFacts(s: State, p: nat, context: Job, id: Option<RequestId>, usage: Option<Usage>, now: Time,
                            failure: Phase)
    requires At(s, p) && HasWindow(s.runners[p].phase) && AtMostBilled(s.runners[p], s.db, context, id, usage)
    requires ReliesOnNothing(failure)
    ensures var w := s.runners[p];
            WriteOk(s, p, Terminate(s.db, w.job, w.token, context, Reconciliation(context, id, usage), now),
                    Done(Finished), failure, Some(w.token))
  {
    hide RunnerWindowOk, RowStepOk, LogOk, CoverageOk, ReceivedOk, RateOk, DbOk, Reconciliation, Terminate,
      AtMostBilled, WriteOk, PhaseOk;
    var w := s.runners[p];
    if Terminate(s.db, w.job, w.token, context, Reconciliation(context, id, usage), now).Some? {
      ReconciliationStepOk(s.db, s.log, w, context, id, usage, now);
    }
    EndFacts(s, p, Terminate(s.db, w.job, w.token, context, Reconciliation(context, id, usage), now), failure);
  }

  lemma SettlingAt(s: State, p: nat)
    requires At(s, p) && s.runners[p].phase.Settling?
    ensures var ph := s.runners[p].phase; AtMostBilled(s.runners[p], s.db, ph.context, ph.billedId, ph.billedUsage)
  {
    hide TablesOk, RunnerWindowOk, AtMostBilled;
  }

  lemma SettleBilledKeeps(s: State, p: nat, now: Time, fault: Fault)
    requires Inv(s)
    ensures Advances(s, DoSettleBilled(s, p, now, fault))
  {
    hide Advances, Inv, At, WriteOk, Write, Terminate, Reconciliation, AtMostBilled;
    Stutter(s);
    if p in s.runners && s.runners[p].phase.Settling? {
      var w := s.runners[p];
      var ph := w.phase;
      var failure := if ph.guarded && w.kind == Background then Done(Redeliver) else OnError(w.kind);
      RunnerAt(s, p);
      SettlingAt(s, p);
      ReconciliationFacts(s, p, ph.context, ph.billedId, ph.billedUsage, now, failure);
      WriteKeeps(s, p,
                 Terminate(s.db, w.job, w.token, ph.context, Reconciliation(ph.context, ph.billedId, ph.billedUsage),
                           now), fault,
                 Done(Finished), failure, Some(w.token));
    }
  }

  lemma RecoveringAt(s: State, p: nat)
    requires At(s, p) && s.runners[p].phase.Recovering?
    ensures var w := s.runners[p];
            var c := w.phase.context;
            || (w.phase.termination == Unbilled(c, UnsupportedAnalysisVersion, NoCompletion) && Clean(w, s.db, c))
            || (w.phase.termination == Reconciliation(c, CheckpointId(c), CheckpointUsage(c)) &&
                AtMostBilled(w, s.db, c, CheckpointId(c), CheckpointUsage(c)))
  {
    hide TablesOk, RunnerWindowOk, Unbilled, Reconciliation, CheckpointId, CheckpointUsage, HasBillingEvidence;
  }

  lemma RecoverKeeps(s: State, p: nat, now: Time, fault: Fault)
    requires Inv(s)
    ensures Advances(s, DoRecover(s, p, now, fault))
  {
    hide Advances, Inv, At, WriteOk, Write, Terminate, Unbilled, Reconciliation, Clean, AtMostBilled, CheckpointId,
      CheckpointUsage;
    Stutter(s);
    if p in s.runners && s.runners[p].phase.Recovering? {
      var w := s.runners[p];
      var c := w.phase.context;
      RunnerAt(s, p);
      RecoveringAt(s, p);
      if w.phase.termination == Unbilled(c, UnsupportedAnalysisVersion, NoCompletion) && Clean(w, s.db, c) {
        UnbilledFacts(s, p, c, UnsupportedAnalysisVersion, NoCompletion, now);
      } else {
        ReconciliationFacts(s, p, c, CheckpointId(c), CheckpointUsage(c), now, OnError(w.kind));
      }
      WriteKeeps(s, p, Terminate(s.db, w.job, w.token, c, w.phase.termination, now), fault, Done(Finished),
                 OnError(w.kind), Some(w.token));
    }
  }

  lemma SavingAt(s: State, p: nat)
    requires At(s, p) && s.runners[p].phase.Saving?
    ensures var w := s.runners[p];
            var ph := w.phase;
            && ChargeOk(w, s.db, ph.context, ph.requestId, ph.charge)
            && PhaseOk(w.(phase := Settling(ph.context, Some(ph.requestId), Some(ph.charge), true)), s.db, s.log)
  {
    hide TablesOk, RunnerWindowOk, HasBillingEvidence, Billed, IsValidUsage;
  }

  /** When the result was saved but the acknowledgement lost, the settlement finds the job ended. */
  lemma SavedTruth(w: Runner, before: Db, after: Db, log: Log, context: Job, id: RequestId, usage: Usage)
    requires w.job in before.jobs && w.job in after.jobs && SameRequest(before.jobs[w.job], after.jobs[w.job])
    requires after.jobs[w.job].leaseToken.None? && ChargeOk(w, before, context, id, usage)
    ensures PhaseOk(w.(phase := Settling(context, Some(id), Some(usage), true)), after, log)
  {
    hide HasBillingEvidence, Billed, IsValidUsage;
  }

  lemma SaveFacts(s: State, p: nat, scores: Scores, now: Time)
    requires At(s, p) && s.runners[p].phase.Saving?
    ensures var w := s.runners[p];
            var ph := w.phase;
            WriteOk(s, p,
                    Succeed(s.db, w.job, w.token, ph.context, ph.requestId, ph.charge, scores, CompletionOf(w), now),
                    Done(Finished), Settling(ph.context, Some(ph.requestId), Some(ph.charge), true), Some(w.token))
  {
    hide RunnerWindowOk, RowStepOk, LogOk, CoverageOk, ReceivedOk, RateOk, DbOk, Succeed, CompletionOf, ChargeOk,
      RowOk, SameRequest, AtMostBilled;
    var w := s.runners[p];
    var ph := w.phase;
    SavingAt(s, p);
    AtParts(s, p);
    var result := Succeed(s.db, w.job, w.token, ph.context, ph.requestId, ph.charge, scores, CompletionOf(w), now);
    if result.Some? {
      SucceedStepOk(s.db, s.log, w, ph.context, ph.requestId, ph.charge, scores, now);
      EndedRow(s.db, result.value, s.log, w);
      SavedTruth(w, s.db, result.value, s.log, ph.context, ph.requestId, ph.charge);
    }
  }

  lemma AtParts(s: State, p: nat)
    requires At(s, p)
    ensures DbOk(s.db) && RunnerWindowOk(s.runners[p], s.db, s.log) && RateOk(s.db) && LogOk(s.db, s.log, s.minted)
  {
    hide DbOk, RunnerWindowOk, PhaseOk, RateOk, LogOk, CoverageOk, ReceivedOk;
  }

  lemma EndedRow(db: Db, after: Db, log: Log, w: Runner)
    requires DbOk(db) && RowStepOk(db, after, log, w.job, w.window, Some(w.token)) && w.job in db.jobs
    requires w.job in after.jobs
    requires IsTerminal(after.jobs[w.job])
    ensures after.jobs[w.job].leaseToken.None? && SameRequest(db.jobs[w.job], after.jobs[w.job])
  {
    hide RowOk, RowStep, DbOk, PublishQuiet, Balanced, TouchesOnly, LeaseReady, RepositoryStep;
    RowHolds(db, w.job);
    TerminalRow(db.jobs[w.job], after.jobs[w.job], Some(w.token));
  }

  lemma SaveResultKeeps(s: State, p: nat, scores: Scores, now: Time, fault: Fault)
    requires Inv(s)
    ensures Advances(s, DoSaveResult(s, p, scores, now, fault))
  {
    hide Advances, Inv, At, WriteOk, Write, Succeed, CompletionOf;
    Stutter(s);
    if p in s.runners && s.runners[p].phase.Saving? {
      var w := s.runners[p];
      var ph := w.phase;
      RunnerAt(s, p);
      SaveFacts(s, p, scores, now);
      WriteKeeps(s, p, Succeed(s.db, w.job, w.token, ph.context, ph.requestId, ph.charge, scores, CompletionOf(w), now),
                 fault, Done(Finished), Settling(ph.context, Some(ph.requestId), Some(ph.charge), true), Some(w.token));
    }
  }

  // ----- reservation, call and charge -----

  lemma ReservedRow(db: Db, w: Runner, context: Job, estimated: int, required: int, now: Time, log: Log)
    requires DbOk(db) && 0 <= required && Clean(w, db, context) && MayCall(w, log)
    requires Reserve(db, w.job, w.token, context, estimated, required, now).ReservedIn?
    ensures var after := Reserve(db, w.job, w.token, context, estimated, required, now).db;
            && RowStepOk(db, after, log, w.job, w.window, Some(w.token))
            && PhaseOk(w.(phase := Reserved(context.(reservedTokens := Some(required)))), after, log)
  {
    hide DbOk, RowStepOk, Reserve, HasBillingEvidence;
    ReserveStepOk(db, log, w.job, w.window, w.token, context, estimated, required, now);
    ReserveShape(db, w.job, w.token, context, estimated, required, now);
    SameEvidenceSameBill(db.jobs[w.job], Reserve(db, w.job, w.token, context, estimated, required, now).db.jobs[w.job]);
  }

  lemma SameEvidenceSameBill(a: Job, b: Job)
    requires EvidenceOf(a) == EvidenceOf(b)
    ensures HasBillingEvidence(a) == HasBillingEvidence(b)
  {
  }

  lemma ReserveFacts(s: State, p: nat, estimated: int, required: int, now: Time, failure: Phase)
    requires At(s, p) && s.runners[p].phase.Preparing? && 0 <= required
    requires s.runners[p].phase.context.reservedTokens.None?
    requires var w := s.runners[p];
             || failure == OnError(w.kind)
             || (failure == OutOfTokens(w.phase.context) &&
                 Reserve(s.db, w.job, w.token, w.phase.context, estimated, required, now).Insufficient?)
    ensures var w := s.runners[p];
            WriteOk(s, p, ReservedDb(Reserve(s.db, w.job, w.token, w.phase.context, estimated, required, now)),
                    Reserved(w.phase.context.(reservedTokens := Some(required))), failure, Some(w.token))
  {
    hide RunnerWindowOk, RowStepOk, TablesOk, Reserve, MayCall, NotCalled, Clean, HasBillingEvidence, SameRequest,
      PhaseOk;
    var w := s.runners[p];
    AtTables(s, p);
    KnownBefore(w, s.db, s.log);
    var reserve := Reserve(s.db, w.job, w.token, w.phase.context, estimated, required, now);
    if reserve.ReservedIn? {
      ReservedRow(s.db, w, w.phase.context, estimated, required, now, s.log);
      FailureKnows(w, reserve.db, s.log, failure);
    }
    FailureKnows(w, s.db, s.log, failure);
  }

  lemma AtTables(s: State, p: nat)
    requires At(s, p)
    ensures DbOk(s.db) && PhaseOk(s.runners[p], s.db, s.log)
  {
    hide DbOk, RateOk, LogOk, CoverageOk, ReceivedOk, PhaseOk, RunnerWindowOk;
  }

  lemma KnownBefore(w: Runner, db: Db, log: Log)
    requires PhaseOk(w, db, log) && w.phase.Preparing?
    ensures MayCall(w, log) && Clean(w, db, w.phase.context)
  {
  }

  /** A thrown error claims nothing, and running out of tokens claims what the preparation knew. */
  lemma FailureKnows(w: Runner, db: Db, log: Log, failure: Phase)
    requires || failure == OnError(w.kind)
             || ( && w.phase.Preparing? && failure == OutOfTokens(w.phase.context)
                  && w.phase.context.reservedTokens.None? && Clean(w, db, w.phase.context))
    ensures PhaseOk(w.(phase := failure), db, log)
  {
  }

  lemma ReuseTruth(s: State, p: nat)
    requires At(s, p) && s.runners[p].phase.Preparing? && s.runners[p].phase.context.reservedTokens.Some?
    ensures PhaseOk(s.runners[p].(phase := Reserved(s.runners[p].phase.context)), s.db, s.log)
  {
    hide TablesOk, RunnerWindowOk, HasBillingEvidence;
  }

  lemma ReserveOrReuseKeeps(s: State, p: nat, estimated: int, required: int, now: Time, fault: Fault)
    requires Inv(s)
    ensures Advances(s, DoReserveOrReuse(s, p, estimated, required, now, fault))
  {
    hide Advances, Inv, At, WriteOk, Write, Reserve, ReservedDb, Become, Believes, PhaseOk;
    Stutter(s);
    if p in s.runners && s.runners[p].phase.Preparing? && 0 <= estimated <= required {
      var w := s.runners[p];
      var context := w.phase.context;
      RunnerAt(s, p);
      if context.reservedTokens.Some? {
        if context.reservedTokens.value >= required {
          ReuseTruth(s, p);
          BelievesAt(s, p, Reserved(context));
          BecomeKeeps(s, p, w.(phase := Reserved(context)));
        }
      } else {
        var outcome := Reserve(s.db, w.job, w.token, context, estimated, required, now);
        var failure := if fault == NoFault && outcome.Insufficient? then OutOfTokens(context) else OnError(w.kind);
        ReserveFacts(s, p, estimated, required, now, failure);
        WriteKeeps(s, p, ReservedDb(outcome), fault, Reserved(context.(reservedTokens := Some(required))), failure,
                   Some(w.token));
      }
    }
  }

  lemma AnswerTruth(s: State, p: nat, answer: Answer)
    requires At(s, p) && s.runners[p].phase.Waiting?
    ensures var w := s.runners[p]; PhaseOk(w.(phase := AnswerDecision(w, w.phase.context, answer)), s.db, s.log)
  {
    hide TablesOk, RunnerWindowOk, HasBillingEvidence, Billed;
  }

  lemma AnswerCallKeeps(s: State, p: nat, answer: Answer)
    requires Inv(s)
    ensures Advances(s, DoAnswerCall(s, p, answer))
  {
    hide Advances, Inv, At, Believes, Become, PhaseOk;
    Stutter(s);
    if p in s.runners && s.runners[p].phase.Waiting? {
      var w := s.runners[p];
      var phase := AnswerDecision(w, w.phase.context, answer);
      RunnerAt(s, p);
      AnswerTruth(s, p, answer);
      BelievesAt(s, p, phase);
      BecomeKeeps(s, p, w.(phase := phase));
    }
  }

  lemma WaitingTruth(s: State, p: nat)
    requires At(s, p) && s.runners[p].phase.Calling?
    ensures var w := s.runners[p]; PhaseOk(w.(phase := Waiting(w.phase.context)), s.db, s.log) && MayCall(w, s.log)
  {
    hide TablesOk, RunnerWindowOk, HasBillingEvidence;
  }

  /** Recording a call under a ticket that has not called yet. */
  lemma CallRecorded(s: State, p: nat)
    requires Inv(s) && p in s.runners && MayCall(s.runners[p], s.log) && s.runners[p].phase.Waiting?
    requires s.runners[p].job in s.db.jobs
    ensures var w := s.runners[p];
            Inv(s.(log := s.log.(calls := s.log.calls[w.job := CallsOf(s.log, w.job) + [w.token]])))
  {
    hide Audit, DbOk, RateOk, PublisherOk, OutboxRowOk, RunnerOk, CoveredUpTo, JobLogOk, FinishedOk,
      OneSenderPerAttempt;
    var w := s.runners[p];
    var log' := s.log.(calls := s.log.calls[w.job := CallsOf(s.log, w.job) + [w.token]]);
    CallLogOk(s.db, s.log, s.minted, w);
    forall q | q in s.runners ensures RunnerOk(s.runners[q], s.db, log', s.minted) {
      CallOthers(s.runners[q], s.db, s.log, s.minted, w);
    }
    CallTables(s, log');
  }

  /** Coverage, sends and publishers do not look at the calls. */
  lemma CallTables(s: State, log': Log)
    requires Inv(s) && log' == s.log.(calls := log'.calls)
    ensures CoverageOk(s.db, log') && SendsOk(s.db, log') && PublishersOk(s.publishers, s.db, log')
  {
    hide DbOk, RateOk, LogOk, RunnersOk, CoverageOk, SendsOk, PublishersOk, OneSenderPerAttempt;
    SameCoverage(s.db, s.log, log');
    SameSends(s.publishers, s.db, s.log, log');
  }

  lemma CallEntry(row: Job, granted: set<Token>, tickets: set<Token>, calls: seq<Token>, debit: int, minted: set<Token>,
                  token: Token)
    requires JobLogOk(row, granted, tickets, calls, debit, minted) && token in tickets && token !in calls
    ensures JobLogOk(row, granted, tickets, calls + [token], debit, minted)
  {
    hide HasBillingEvidence, Held, IsSyncJob, LeaseOf;
  }

  lemma CallLogOk(db: Db, log: Log, minted: set<Token>, w: Runner)
    requires LogOk(db, log, minted) && MayCall(w, log) && w.job in db.jobs
    ensures LogOk(db, log.(calls := log.calls[w.job := CallsOf(log, w.job) + [w.token]]), minted)
  {
    hide JobLogOk;
    var log' := log.(calls := log.calls[w.job := CallsOf(log, w.job) + [w.token]]);
    forall j | j in db.jobs ensures LogAt(db.jobs[j], log', j, minted) {
      assert LogAt(db.jobs[j], log, j, minted);
      if j == w.job {
        CallEntry(db.jobs[j], TokensOf(log.granted, j), TokensOf(log.tickets, j), CallsOf(log, j), DebitOf(log, j),
                  minted, w.token);
      }
    }
  }

  lemma CallOthers(v: Runner, db: Db, log: Log, minted: set<Token>, w: Runner)
    requires RunnerOk(v, db, log, minted) && (v.token == w.token ==> v.phase.Waiting?)
    ensures RunnerOk(v, db, log.(calls := log.calls[w.job := CallsOf(log, w.job) + [w.token]]), minted)
  {
    hide Clean, Stored, AtMostBilled, RecoveryOk, ChargeOk, CoveredUpTo, WindowOfRow, ValidIfKnown;
    var log' := log.(calls := log.calls[w.job := CallsOf(log, w.job) + [w.token]]);
    if v.phase.SyncCollected? {
      CoverageGrows(db, db, log, log', v.phase.repositoryId, v.window.from);
    }
    if HasWindow(v.phase) {
      CoverageGrows(db, db, log, log', db.jobs[v.job].repositoryId, v.window.from);
    }
  }

  lemma StartCallKeeps(s: State, p: nat)
    requires Inv(s)
    ensures Advances(s, DoStartCall(s, p))
  {
    hide Advances, Inv, At, Believes, Audit, PhaseOk, RunnerOk, NotCalled, EndsCollected;
    Stutter(s);
    if p in s.runners && s.runners[p].phase.Calling? {
      var w := s.runners[p];
      var w' := w.(phase := Waiting(w.phase.context));
      RunnerAt(s, p);
      WaitingTruth(s, p);
      CallingJob(s, p);
      BelievesAt(s, p, w'.phase);
      BecomeKeeps(s, p, w');
      var s' := Become(s, p, w');
      AuditMemory(s.log, s.db, s.db, w'.job, w'.window, w.job);
      AuditKeys(s.log, s.db, s.db, w'.job, w'.window);
      StillMayCall(w, w', s.log, s'.log);
      InvAfter(s, s');
      CallRecorded(s', p);
      AdvancesOn(s, s', DoStartCall(s, p));
    }
  }

  lemma CallingJob(s: State, p: nat)
    requires At(s, p) && s.runners[p].phase.Calling?
    ensures s.runners[p].job in s.db.jobs
  {
    hide TablesOk, RunnerWindowOk, HasBillingEvidence;
  }

  lemma StillMayCall(w: Runner, w': Runner, log: Log, log': Log)
    requires MayCall(w, log) && w'.job == w.job && w'.token == w.token
    requires TokensOf(log.tickets, w.job) <= TokensOf(log'.tickets, w.job)
    requires CallsOf(log', w.job) == CallsOf(log, w.job)
    ensures MayCall(w', log')
  {
  }

  // ----- the charge -----

  lemma ChargeStepOk(db: Db, log: Log, w: Runner, context: Job, id: RequestId, usage: Option<Usage>, now: Time)
    requires DbOk(db) && context.reservedTokens.Some? && ValidIfKnown(usage)
    requires ChargeDb(db, w, context, id, usage, now).Some?
    ensures var after := ChargeDb(db, w, context, id, usage, now).value;
            && RowStepOk(db, after, log, w.job, w.window, Some(w.token))
            && w.job in db.jobs && w.job in after.jobs
            && ChargedRow(db.jobs[w.job], after.jobs[w.job], context, id, usage)
  {
    hide RowOk, RowStep, DbOk, RowStepOk, HasBillingEvidence, Billed;
    RowHolds(db, w.job);
    ChargeQuiet(db.jobs[w.job], w.token, context, id, usage, now);
    StatementStepOk(db, log, w.job, ChargeDb(db, w, context, id, usage, now).value.jobs[w.job], w.window,
                    Some(w.token));
  }

  predicate ChargedRow(before: Job, after: Job, context: Job, id: RequestId, usage: Option<Usage>) {
    && SameRequest(before, after)
    && after.reservedTokens == context.reservedTokens
    && EvidenceOf(after) == Billed(Some(id), usage)
  }

  lemma ChargeQuiet(job: Job, token: Token, context: Job, id: RequestId, usage: Option<Usage>, now: Time)
    requires RowOk(job) && RecordProviderCharge(job, token, context, id, usage, now).Some?
    ensures var row := RecordProviderCharge(job, token, context, id, usage, now).value;
            && PublishUntouched(job, row) && Held(row) == Held(job) && SameRequest(job, row)
            && row.status == Running && row.leaseToken == job.leaseToken
  {
    hide RowStep, HasBillingEvidence;
  }

  /** The charge is on the row: what remains is to settle it, or to save the result within the reservation. */
  lemma ChargedDecisionTruth(w: Runner, before: Db, after: Db, log: Log, context: Job, id: RequestId,
                             usage: Option<Usage>, usable: bool, metricsFail: bool)
    requires w.job in before.jobs && w.job in after.jobs && Linked(w, before, context)
    requires ChargedRow(before.jobs[w.job], after.jobs[w.job], context, id, usage)
    requires context.reservedTokens.Some? && ValidIfKnown(usage)
    ensures PhaseOk(w.(phase := ChargedDecision(context, id, usage, usable, metricsFail)), after, log)
    ensures PhaseOk(w.(phase := Settling(context, Some(id), usage, true)), after, log)
  {
    hide HasBillingEvidence, IsValidUsage;
  }

  lemma AnsweredAt(s: State, p: nat)
    requires At(s, p) && s.runners[p].phase.Answered?
    ensures var w := s.runners[p];
            var ph := w.phase;
            && Linked(w, s.db, ph.context) && ph.context.reservedTokens.Some? && ValidIfKnown(ph.usage)
            && PhaseOk(w.(phase := Settling(ph.context, Some(ph.requestId), ph.usage, true)), s.db, s.log)
  {
    hide TablesOk, RunnerWindowOk, HasBillingEvidence, IsValidUsage, Billed;
  }

  lemma ChargeFacts(s: State, p: nat, now: Time, metricsFail: bool)
    requires At(s, p) && s.runners[p].phase.Answered?
    ensures var w := s.runners[p];
            var ph := w.phase;
            WriteOk(s, p, ChargeDb(s.db, w, ph.context, ph.requestId, ph.usage, now),
                    ChargedDecision(ph.context, ph.requestId, ph.usage, ph.usable, metricsFail),
                    Settling(ph.context, Some(ph.requestId), ph.usage, true), Some(w.token))
  {
    hide RunnerWindowOk, RowStepOk, LogOk, CoverageOk, ReceivedOk, RateOk, DbOk, ChargeDb, PhaseOk, Linked, ChargedRow,
      ValidIfKnown;
    var w := s.runners[p];
    var ph := w.phase;
    AnsweredAt(s, p);
    var result := ChargeDb(s.db, w, ph.context, ph.requestId, ph.usage, now);
    if result.Some? {
      ChargeStepOk(s.db, s.log, w, ph.context, ph.requestId, ph.usage, now);
      ChargedDecisionTruth(w, s.db, result.value, s.log, ph.context, ph.requestId, ph.usage, ph.usable, metricsFail);
    }
  }

  lemma StoreChargeKeeps(s: State, p: nat, now: Time, fault: Fault, metricsFail: bool)
    requires Inv(s)
    ensures Advances(s, DoStoreCharge(s, p, now, fault, metricsFail))
  {
    hide Advances, Inv, At, WriteOk, Write, ChargeDb, ChargedDecision;
    Stutter(s);
    if p in s.runners && s.runners[p].phase.Answered? {
      var w := s.runners[p];
      var ph := w.phase;
      RunnerAt(s, p);
      ChargeFacts(s, p, now, metricsFail);
      WriteKeeps(s, p, ChargeDb(s.db, w, ph.context, ph.requestId, ph.usage, now), fault,
                 ChargedDecision(ph.context, ph.requestId, ph.usage, ph.usable, metricsFail),
                 Settling(ph.context, Some(ph.requestId), ph.usage, true), Some(w.token));
    }
  }

  // ----- release -----

  function ReleasedDb(db: Db, w: Runner, nextPublishAt: Time, code: ErrorCode, now: Time): Option<Db> {
    if w.job in db.jobs then PutRow(db, w.job, ReleaseForRetry(db.jobs[w.job], w.token, nextPublishAt, code, now))
      else None
  }

  lemma ReleaseFacts(s: State, p: nat, nextPublishAt: Time, code: ErrorCode, now: Time)
    requires At(s, p) && IsClassifierCode(code)
    ensures WriteOk(s, p, ReleasedDb(s.db, s.runners[p], nextPublishAt, code, now), Done(Redeliver), Done(Redeliver),
                    Some(s.runners[p].token))
  {
    hide RunnerWindowOk, RowStepOk, LogOk, CoverageOk, ReceivedOk, RateOk, DbOk, RowOk, RowStep, PublishUntouched,
      Held, Clean, Stored, AtMostBilled, MayCall, NotCalled, Ungranted, RecoveryOk, ChargeOk;
    var w := s.runners[p];
    var result := ReleasedDb(s.db, w, nextPublishAt, code, now);
    if result.Some? {
      RowHolds(s.db, w.job);
      StatementStepOk(s.db, s.log, w.job, result.value.jobs[w.job], w.window, Some(w.token));
    }
  }

  lemma ReleaseFailedKeeps(s: State, p: nat, nextPublishAt: Time, code: ErrorCode, now: Time, fault: Fault)
    requires Inv(s)
    ensures Advances(s, DoReleaseFailed(s, p, nextPublishAt, code, now, fault))
  {
    hide Advances, Inv, At, WriteOk, Write;
    Stutter(s);
    if p in s.runners && s.runners[p].phase.Failing? && IsClassifierCode(code) {
      var w := s.runners[p];
      RunnerAt(s, p);
      ReleaseFacts(s, p, nextPublishAt, code, now);
      WriteKeeps(s, p, ReleasedDb(s.db, w, nextPublishAt, code, now), fault, Done(Redeliver), Done(Redeliver),
                 Some(w.token));
    }
  }
}
