/**
 What the protocol achieves when nothing fails: runs of one runner, from any reachable state, to the end they promise.
 */
module Progress {
  import opened Basics
  import opened JobRow
  import opened JobStatements
  import opened WorkerStatements
  import opened StatService
  import opened Ledger
  import opened Transactions
  import opened TransactionProofs
  import opened Acceptance
  import opened Protocol
  import opened Invariant
  import opened Steps
  import opened Safety
  import opened Theorems
  import opened SingleSteps

  lemma StaysReachable(s: State, actions: seq<Action>)
    requires Reachable(s)
    ensures Reachable(Run(s, actions))
  {
    hide Initial, Run;
    var start, before :| Initial(start) && s == Run(start, before);
    RunThen(start, before, actions);
  }

  // ----- one step -----

  /** A statement or transaction that applies and is acknowledged. */
  lemma WriteMoves(s: State, p: nat, after: Db, success: Phase, failure: Phase)
    requires p in s.runners
    ensures ViewOf(Write(s, p, Some(after), NoFault, success, failure)) ==
            ViewOf(s).(db := after, runners := s.runners[p := s.runners[p].(phase := success)])
  {
    hide Move;
    ViewAfterMove(s, p, s.runners[p].(phase := success), after);
  }

  /** The charge is stored; what it leads to is left to the lemmas that use this one. */
  lemma ChargeMoves(s: State, p: nat, now: Time, metricsFail: bool)
    requires p in s.runners && s.runners[p].phase.Answered?
    requires var w := s.runners[p]; ChargeDb(s.db, w, w.phase.context, w.phase.requestId, w.phase.usage, now).Some?
    ensures ViewOf(Next(s, StoreCharge(p, now, NoFault, metricsFail))) ==
            var w := s.runners[p];
            var ph := w.phase;
            var next := ChargedDecision(ph.context, ph.requestId, ph.usage, ph.usable, metricsFail);
            ViewOf(s).(db := ChargeDb(s.db, w, ph.context, ph.requestId, ph.usage, now).value,
                       runners := s.runners[p := w.(phase := next)])
  {
    hide NextClaim, NextCall, NextRequest, NextPublish, Write, ChargeDb, ChargedDecision;
    var w := s.runners[p];
    var ph := w.phase;
    WriteMoves(s, p, ChargeDb(s.db, w, ph.context, ph.requestId, ph.usage, now).value,
               ChargedDecision(ph.context, ph.requestId, ph.usage, ph.usable, metricsFail),
               Settling(ph.context, Some(ph.requestId), ph.usage, true));
  }

  /** The tables after the progress report before saving, which only a worker makes. */
  function ReportedDb(db: Db, w: Runner, now: Time, expires: Time): Option<Db> {
    if w.kind == Sync then Some(db) else ProgressDb(db, w, now, expires)
  }

  lemma ReportSavingMoves(s: State, p: nat, now: Time, expires: Time)
    requires p in s.runners && s.runners[p].phase.Charged?
    requires ReportedDb(s.db, s.runners[p], now, expires).Some?
    ensures ViewOf(Next(s, ReportSaving(p, now, expires, NoFault))) ==
            var w := s.runners[p];
            var saving := Saving(w.phase.context, w.phase.requestId, w.phase.charge);
            ViewOf(s).(db := ReportedDb(s.db, w, now, expires).value, runners := s.runners[p := w.(phase := saving)])
  {
    hide NextClaim, NextCall, NextRequest, NextPublish, Write, Move, ProgressDb;
    var w := s.runners[p];
    var ph := w.phase;
    var saving := Saving(ph.context, ph.requestId, ph.charge);
    if w.kind == Sync {
      ViewAfterMove(s, p, w.(phase := saving), s.db);
    } else {
      WriteMoves(s, p, ProgressDb(s.db, w, now, expires).value, saving,
                 Settling(ph.context, Some(ph.requestId), Some(ph.charge), true));
    }
  }

  lemma SaveMoves(s: State, p: nat, scores: Scores, now: Time)
    requires p in s.runners && s.runners[p].phase.Saving?
    requires var w := s.runners[p];
             Succeed(s.db, w.job, w.token, w.phase.context, w.phase.requestId, w.phase.charge, scores, CompletionOf(w),
                     now).Some?
    ensures ViewOf(Next(s, SaveResult(p, scores, now, NoFault))) ==
            var w := s.runners[p];
            var after := Succeed(s.db, w.job, w.token, w.phase.context, w.phase.requestId, w.phase.charge, scores,
                                 CompletionOf(w), now).value;
            ViewOf(s).(db := after, runners := s.runners[p := w.(phase := Done(Finished))])
  {
    hide NextClaim, NextCall, NextRequest, NextPublish, Write, Succeed, CompletionOf;
    var w := s.runners[p];
    var ph := w.phase;
    WriteMoves(s, p,
               Succeed(s.db, w.job, w.token, ph.context, ph.requestId, ph.charge, scores, CompletionOf(w), now).value,
               Done(Finished), Settling(ph.context, Some(ph.requestId), Some(ph.charge), true));
  }

  lemma SettleMoves(s: State, p: nat, now: Time)
    requires p in s.runners && s.runners[p].phase.Settling?
    requires var w := s.runners[p];
             var t := Reconciliation(w.phase.context, w.phase.billedId, w.phase.billedUsage);
             Terminate(s.db, w.job, w.token, w.phase.context, t, now).Some?
    ensures ViewOf(Next(s, SettleBilled(p, now, NoFault))) ==
            var w := s.runners[p];
            var t := Reconciliation(w.phase.context, w.phase.billedId, w.phase.billedUsage);
            var after := Terminate(s.db, w.job, w.token, w.phase.context, t, now).value;
            ViewOf(s).(db := after, runners := s.runners[p := w.(phase := Done(Finished))])
  {
    hide NextClaim, NextCall, NextRequest, NextPublish, Write, Terminate, Reconciliation;
    var w := s.runners[p];
    var ph := w.phase;
    var t := Reconciliation(ph.context, ph.billedId, ph.billedUsage);
    WriteMoves(s, p, Terminate(s.db, w.job, w.token, ph.context, t, now).value, Done(Finished),
               if ph.guarded && w.kind == Background then Done(Redeliver) else OnError(w.kind));
  }

  // ----- an answer within the reservation is saved -----

  /** A runner that still holds its row and has the model's answer in hand. */
  ghost predicate HasAnswer(s: State, p: nat) {
    && Reachable(s) && p in s.runners && s.runners[p].phase.Answered? && Holds(s.db, s.runners[p])
  }

  /** What such a runner's row and its tables are like. */
  predicate ReadyToCharge(db: Db, w: Runner, context: Job) {
    && w.job in db.jobs && OwnedBy(db.jobs[w.job], w.token, context) && !HasBillingEvidence(db.jobs[w.job])
    && context.reservedTokens.Some? && db.jobs[w.job].reservedTokens == context.reservedTokens
    && db.jobs[w.job].status == Running && w.job !in db.reports
    && context.userId in db.balances && context.repositoryId in db.repositories
  }

  lemma AnswerIsReady(s: State, p: nat)
    requires HasAnswer(s, p)
    ensures ReadyToCharge(s.db, s.runners[p], s.runners[p].phase.context)
    ensures s.runners[p].phase.usage.Some? ==> IsValidUsage(s.runners[p].phase.usage.value)
    ensures s.runners[p].phase.usable ==> s.runners[p].phase.usage.Some?
    ensures IsReserved(s.db, s.runners[p].job)
  {
    hide Reachable, RateOk, LogOk, CoverageOk, ReceivedOk, SendsOk, PublishersOk, RunnerWindowOk, HasBillingEvidence,
      OneActivePerRepository, OneJobPerKey, BalancesOk;
    ReachableIsSafe(s);
    RunnerOf(s, p);
    RowOf(s, s.runners[p].job);
  }

  /** Storing a charge on such a row. */
  lemma ChargeApplies(db: Db, w: Runner, context: Job, requestId: RequestId, usage: Option<Usage>, now: Time)
    requires ReadyToCharge(db, w, context)
    ensures ChargeDb(db, w, context, requestId, usage, now).Some?
    ensures var charged := ChargeDb(db, w, context, requestId, usage, now).value;
            && IsCharged(charged, w, context, requestId, usage)
            && charged == db.(jobs := db.jobs[w.job := charged.jobs[w.job]])
            && SameRequest(db.jobs[w.job], charged.jobs[w.job])
  {
    hide RowOk, RowStep;
  }

  /** The row shows exactly this bill, and its holder may end it. */
  predicate IsCharged(db: Db, w: Runner, context: Job, requestId: RequestId, usage: Option<Usage>) {
    && w.job in db.jobs && OwnedBy(db.jobs[w.job], w.token, context)
    && EvidenceOf(db.jobs[w.job]) == Billed(Some(requestId), usage)
    && context.reservedTokens.Some? && db.jobs[w.job].reservedTokens == context.reservedTokens
    && w.job !in db.reports && context.userId in db.balances && context.repositoryId in db.repositories
  }

  lemma ReportApplies(db: Db, w: Runner, context: Job, requestId: RequestId, usage: Option<Usage>, now: Time,
                      expires: Time)
    requires IsCharged(db, w, context, requestId, usage)
    ensures ReportedDb(db, w, now, expires).Some?
    ensures var reported := ReportedDb(db, w, now, expires).value;
            && IsCharged(reported, w, context, requestId, usage)
            && reported == db.(jobs := db.jobs[w.job := reported.jobs[w.job]])
            && SameRequest(db.jobs[w.job], reported.jobs[w.job])
  {
    hide RowOk, RowStep, PublishUntouched, Held, HasBillingEvidence;
    assert db.jobs[w.job := db.jobs[w.job]] == db.jobs;
  }

  /** The row, its user and its repository are there, and the row has a reservation. */
  predicate IsReserved(db: Db, j: JobId) {
    && j in db.jobs && db.jobs[j].reservedTokens.Some?
    && db.jobs[j].userId in db.balances && db.jobs[j].repositoryId in db.repositories
  }

  /**
   What a saved analysis leaves behind: report, statistics, the rest of the reservation, and the synchronized window.
   */
  ghost predicate IsSaved(before: Db, after: Db, j: JobId, completion: Completion, requestId: RequestId, usage: Usage,
                          scores: Scores)
    requires IsReserved(before, j)
  {
    var row := before.jobs[j];
    && j in after.jobs && after.jobs == before.jobs[j := after.jobs[j]]
    && after.jobs[j].status == Succeeded && EvidenceOf(after.jobs[j]) == Billed(Some(requestId), Some(usage))
    && after.jobs[j].tokensSettledAt.Some? && after.jobs[j].completedAt.Some?
    && after.reports == before.reports[j := Report(row.userId, row.repositoryId)]
    && after.stats == before.stats[row.userId := UpdatedStat(StatOf(before, row.userId), scores)]
    && after.balances ==
         before.balances[row.userId := before.balances[row.userId] + row.reservedTokens.value - usage.totalTokens]
    && CheckpointOk(before.repositories, after.repositories, row.userId, row.repositoryId, completion)
  }

  lemma SaveApplies(db: Db, w: Runner, context: Job, requestId: RequestId, usage: Usage, scores: Scores, now: Time)
    requires IsCharged(db, w, context, requestId, Some(usage)) && IsValidUsage(usage)
    requires usage.totalTokens <= context.reservedTokens.value
    ensures Succeed(db, w.job, w.token, context, requestId, usage, scores, CompletionOf(w), now).Some?
    ensures var after := Succeed(db, w.job, w.token, context, requestId, usage, scores, CompletionOf(w), now).value;
            IsReserved(db, w.job) && IsSaved(db, after, w.job, CompletionOf(w), requestId, usage, scores)
  {
    hide RowOk, RowStep, PublishUntouched, Complete, CheckpointOk, CompletionOf, UpdatedStat, IsValidUsage, StatOf,
      ToSucceeded, HasBillingEvidence;
    SavedRow(db.jobs[w.job], w.token, context, requestId, usage, now);
    var row := ToSucceeded(db.jobs[w.job], w.token, context, requestId, usage, now);
    var reported := Put(db, w.job, row.value).(
      reports := db.reports[w.job := Report(context.userId, context.repositoryId)],
      stats := db.stats[context.userId := UpdatedStat(StatOf(db, context.userId), scores)]);
    var refund := context.reservedTokens.value - usage.totalTokens;
    CompletionChecks(Credit(reported, context.userId, if refund > 0 then refund else 0), context.userId,
                     context.repositoryId, CompletionOf(w));
  }

  lemma SavedRow(row: Job, token: Token, context: Job, requestId: RequestId, usage: Usage, now: Time)
    requires OwnedBy(row, token, context) && row.reservedTokens == context.reservedTokens
    ensures ToSucceeded(row, token, context, requestId, usage, now).Some?
    ensures var saved := ToSucceeded(row, token, context, requestId, usage, now).value;
            && saved.status == Succeeded && EvidenceOf(saved) == Billed(Some(requestId), Some(usage))
            && saved.tokensSettledAt.Some? && saved.completedAt.Some?
  {
    hide RowOk, RowStep, IsValidUsage;
  }

  /** Only the row differs, and not in what was requested or reserved. */
  predicate SameBut(before: Db, after: Db, j: JobId) {
    && j in before.jobs && j in after.jobs && after == before.(jobs := before.jobs[j := after.jobs[j]])
    && SameRequest(before.jobs[j], after.jobs[j]) && after.jobs[j].reservedTokens == before.jobs[j].reservedTokens
  }

  lemma SavedAfter(before: Db, between: Db, after: Db, j: JobId, completion: Completion, requestId: RequestId,
                   usage: Usage, scores: Scores)
    requires IsReserved(between, j) && IsSaved(between, after, j, completion, requestId, usage, scores)
    requires SameBut(before, between, j)
    ensures IsReserved(before, j) && IsSaved(before, after, j, completion, requestId, usage, scores)
  {
    hide CheckpointOk, UpdatedStat, EvidenceOf, Billed;
    Overwritten(before.jobs, j, between.jobs[j], after.jobs[j]);
  }

  function SavingActions(p: nat, charged: Time, reported: Time, expires: Time, scores: Scores,
                         saved: Time): seq<Action> {
    [StoreCharge(p, charged, NoFault, false)] + [ReportSaving(p, reported, expires, NoFault)]
    + [SaveResult(p, scores, saved, NoFault)]
  }

  /** The answer is a result, of known usage within the reservation. */
  predicate IsSavable(w: Runner, row: Job) {
    && w.phase.Answered? && w.phase.usable && w.phase.usage.Some? && row.reservedTokens.Some?
    && w.phase.usage.value.totalTokens <= row.reservedTokens.value
  }

  /**
   A valid answer within the reservation is charged and saved: from every reachable state in which its runner still
   holds the row, the three steps without a fault end with the job SUCCEEDED under that bill, its report written, the
   user left with the rest of the reservation, having paid exactly the usage, and the window synchronized.
   */
  lemma AnswerIsSaved(s: State, p: nat, charged: Time, reported: Time, expires: Time, scores: Scores, saved: Time)
    requires HasAnswer(s, p) && IsReserved(s.db, s.runners[p].job)
    requires IsSavable(s.runners[p], s.db.jobs[s.runners[p].job])
    ensures var w, t := s.runners[p], Run(s, SavingActions(p, charged, reported, expires, scores, saved));
            && IsSaved(s.db, t.db, w.job, CompletionOf(w), w.phase.requestId, w.phase.usage.value, scores)
            && DebitOf(t.log, w.job) == w.phase.usage.value.totalTokens
            && t.runners == s.runners[p := w.(phase := Done(Finished))]
  {
    hide Reachable, Next, Run, ChargeDb, ReportedDb, Succeed, CompletionOf, CheckpointOk, OwnedBy, HasBillingEvidence,
      IsValidUsage, UpdatedStat, StatOf, EvidenceOf, Billed, Inv, SameRequest, IsSaved;
    var w := s.runners[p];
    var context, id, usage := w.phase.context, w.phase.requestId, w.phase.usage.value;
    AnswerIsReady(s, p);
    var one := [StoreCharge(p, charged, NoFault, false)];
    RunOne(s, one[0]);
    ChargeApplies(s.db, w, context, id, Some(usage), charged);
    ChargeMoves(s, p, charged, false);
    var s1 := Run(s, one);
    var w1 := w.(phase := Charged(context, id, usage));
    assert s1.runners[p] == w1;
    ReportApplies(s1.db, w1, context, id, Some(usage), reported, expires);
    ReportSavingMoves(s1, p, reported, expires);
    RunStep(s, one, ReportSaving(p, reported, expires, NoFault));
    var two := one + [ReportSaving(p, reported, expires, NoFault)];
    var s2 := Run(s, two);
    var w2 := w.(phase := Saving(context, id, usage));
    assert s2.runners[p] == w2;
    SaveApplies(s2.db, w2, context, id, usage, scores, saved);
    SaveMoves(s2, p, scores, saved);
    RunStep(s, two, SaveResult(p, scores, saved, NoFault));
    SameCompletion(w, w2);
    var t := Run(s, two + [SaveResult(p, scores, saved, NoFault)]);
    SavedAfter(s1.db, s2.db, t.db, w.job, CompletionOf(w), id, usage, scores);
    SavedAfter(s.db, s1.db, t.db, w.job, CompletionOf(w), id, usage, scores);
    DebitOfSaved(s, two + [SaveResult(p, scores, saved, NoFault)], s.db, w.job, CompletionOf(w), id, usage, scores);
  }

  lemma SameCompletion(w: Runner, v: Runner)
    requires w.kind == v.kind && w.window == v.window
    ensures CompletionOf(w) == CompletionOf(v)
  {
  }

  lemma DebitOfSaved(s: State, actions: seq<Action>, before: Db, j: JobId, completion: Completion, requestId: RequestId,
                     usage: Usage, scores: Scores)
    requires Reachable(s) && IsReserved(before, j)
    requires IsSaved(before, Run(s, actions).db, j, completion, requestId, usage, scores)
    ensures DebitOf(Run(s, actions).log, j) == usage.totalTokens
  {
    hide Reachable, Inv, Run, CheckpointOk, UpdatedStat;
    ReachableIsSafe(s);
    RunKeeps(s, actions);
    DebitIsHeld(Run(s, actions), j);
  }

  // ----- any other answer is charged and reconciled -----

  /** What a reconciled bill leaves behind: see TransactionProofs.ReconciliationSettles. */
  predicate IsReconciled(before: Db, after: Db, j: JobId, requestId: Option<RequestId>, usage: Option<Usage>)
    requires IsReserved(before, j)
  {
    var row := before.jobs[j];
    var paid := IsPayable(before, row, usage);
    && j in after.jobs && after.jobs == before.jobs[j := after.jobs[j]]
    && after.jobs[j].status == Failed && EvidenceOf(after.jobs[j]) == Billed(requestId, usage)
    && (after.jobs[j].tokensSettledAt.Some? <==> paid)
    && after.jobs[j].lastErrorCode ==
         Some(if paid && Excess(row, usage.value) > 0 then TokenBudgetExceeded else ProviderReconciliationRequired)
    && after.balances ==
         before.balances[row.userId := before.balances[row.userId] - if paid then Excess(row, usage.value) else 0]
    && after.repositories == before.repositories && after.reports == before.reports && after.stats == before.stats
  }

  lemma SettleApplies(db: Db, w: Runner, context: Job, requestId: Option<RequestId>, usage: Option<Usage>, now: Time)
    requires w.job in db.jobs && OwnedBy(db.jobs[w.job], w.token, context)
    requires context.reservedTokens.Some? && db.jobs[w.job].reservedTokens == context.reservedTokens
    requires context.userId in db.balances && context.repositoryId in db.repositories
    requires usage.Some? ==> IsValidUsage(usage.value)
    ensures Terminate(db, w.job, w.token, context, Reconciliation(context, requestId, usage), now).Some?
    ensures var after := Terminate(db, w.job, w.token, context, Reconciliation(context, requestId, usage), now).value;
            IsReserved(db, w.job) && IsReconciled(db, after, w.job, requestId, usage)
  {
    hide RowOk, RowStep, PublishUntouched, IsValidUsage, HasBillingEvidence;
    ReconciliationSettles(db, w.job, w.token, context, requestId, usage, now);
  }

  lemma ReconciledAfter(before: Db, between: Db, after: Db, j: JobId, requestId: Option<RequestId>,
                        usage: Option<Usage>)
    requires IsReserved(between, j) && IsReconciled(between, after, j, requestId, usage) && SameBut(before, between, j)
    ensures IsReserved(before, j) && IsReconciled(before, after, j, requestId, usage)
  {
    hide EvidenceOf, Billed;
    Overwritten(before.jobs, j, between.jobs[j], after.jobs[j]);
  }

  function ReconcilingActions(p: nat, charged: Time, metricsFail: bool, settled: Time): seq<Action> {
    [StoreCharge(p, charged, NoFault, metricsFail)] + [SettleBilled(p, settled, NoFault)]
  }

  /**
   Any other answer, be it an error, of unknown usage, over the reservation, or one whose result cannot be worked out,
   is charged and reconciled: the two steps without a fault end with the job FAILED, and the bill paid if it can be.
   */
  lemma AnswerIsReconciled(s: State, p: nat, charged: Time, metricsFail: bool, settled: Time)
    requires HasAnswer(s, p) && IsReserved(s.db, s.runners[p].job)
    requires !IsSavable(s.runners[p], s.db.jobs[s.runners[p].job]) || metricsFail
    ensures var w, t := s.runners[p], Run(s, ReconcilingActions(p, charged, metricsFail, settled));
            && IsReconciled(s.db, t.db, w.job, Some(w.phase.requestId), w.phase.usage)
            && t.runners == s.runners[p := w.(phase := Done(Finished))]
  {
    hide Reachable, Next, Run, ChargeDb, Terminate, Reconciliation, HasBillingEvidence, IsValidUsage, EvidenceOf,
      Billed, Inv, SameRequest, IsReconciled, OwnedBy;
    var w := s.runners[p];
    var context, id, usage := w.phase.context, w.phase.requestId, w.phase.usage;
    AnswerIsReady(s, p);
    var one := [StoreCharge(p, charged, NoFault, metricsFail)];
    RunOne(s, one[0]);
    ChargeApplies(s.db, w, context, id, usage, charged);
    ChargeMoves(s, p, charged, metricsFail);
    var s1 := Run(s, one);
    var w1 := s1.runners[p];
    assert w1.phase.Settling? && w1.phase.context == context;
    assert w1.phase.billedId == Some(id) && w1.phase.billedUsage == usage;
    SettleApplies(s1.db, w1, context, Some(id), usage, settled);
    SettleMoves(s1, p, settled);
    RunStep(s, one, SettleBilled(p, settled, NoFault));
    ReconciledAfter(s.db, s1.db, Run(s, one + [SettleBilled(p, settled, NoFault)]).db, w.job, Some(id), usage);
  }

  lemma ReservationMoves(before: Job, after: Job)
    requires RowMoves(before, after) && before.reservedTokens.Some?
    ensures after.reservedTokens == before.reservedTokens
  {
  }

  /** A reservation is never changed or taken back. */
  lemma {:induction false} ReservationStays(s: State, actions: seq<Action>, j: JobId)
    requires Inv(s) && j in s.db.jobs && s.db.jobs[j].reservedTokens.Some?
    ensures j in Run(s, actions).db.jobs
    ensures Run(s, actions).db.jobs[j].reservedTokens == s.db.jobs[j].reservedTokens
    decreases |actions|
  {
    hide Inv, Next, RowMoves, RowOk;
    if actions != [] {
      RowMoved(s, actions[0], j);
      ReservationMoves(s.db.jobs[j], Next(s, actions[0]).db.jobs[j]);
      NextHolds(s, actions[0]);
      ReservationStays(Next(s, actions[0]), actions[1..], j);
    }
  }

  /** A job whose stored bill exceeds its reservation never succeeds, and never gets a report, whatever happens. */
  lemma OverrunNeverSucceeds(s: State, j: JobId, actions: seq<Action>)
    requires Reachable(s) && j in s.db.jobs && s.db.jobs[j].totalTokens.Some? && s.db.jobs[j].reservedTokens.Some?
    requires s.db.jobs[j].totalTokens.value > s.db.jobs[j].reservedTokens.value
    ensures var t := Run(s, actions); j in t.db.jobs && t.db.jobs[j].status != Succeeded && j !in t.db.reports
  {
    hide Reachable, Inv, Run, RowOk;
    ReachableIsSafe(s);
    BillNeverChanges(s, actions, j);
    ReservationStays(s, actions, j);
    RunKeeps(s, actions);
    OverrunIsNoSuccess(Run(s, actions), j);
  }

  lemma OverrunIsNoSuccess(s: State, j: JobId)
    requires Inv(s) && j in s.db.jobs && s.db.jobs[j].totalTokens.Some? && s.db.jobs[j].reservedTokens.Some?
    requires s.db.jobs[j].totalTokens.value > s.db.jobs[j].reservedTokens.value
    ensures s.db.jobs[j].status != Succeeded && j !in s.db.reports
  {
    hide RateOk, LogOk, CoverageOk, ReceivedOk, RunnersOk, SendsOk, PublishersOk, OneActivePerRepository, OneJobPerKey;
    RowOf(s, j);
  }
}
