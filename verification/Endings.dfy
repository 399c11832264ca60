/**
 How jobs end that are not analyzed: claimed too often, without data, without tokens, by an error, or with a bill that a
 later worker finds. Each statement starts in any reachable state and runs to the end without a fault.
 */
module Endings {
  import opened Basics
  import opened JobRow
  import opened JobStatements
  import opened WorkerStatements
  import opened StatService
  import opened Ledger
  import opened Transactions
  import opened Acceptance
  import opened Protocol
  import opened Invariant
  import opened Steps
  import opened Safety
  import opened Theorems
  import opened SingleSteps
  import opened ClaimRace
  import opened Progress

  // ----- ended for nothing -----

  /** The job exists and shows no bill; its user and its repository exist. */
  predicate IsUnbilled(db: Db, j: JobId) {
    && j in db.jobs && !HasBillingEvidence(db.jobs[j])
    && db.jobs[j].userId in db.balances && db.jobs[j].repositoryId in db.repositories
  }

  /**
   The job is FAILED under `code` with zero usage, settled; its user has the whole reservation back; the repositories
   are as `completion` leaves them, and nothing else has changed.
   */
  predicate IsRefunded(before: Db, after: Db, j: JobId, code: ErrorCode, retryable: bool, completion: Completion)
    requires IsUnbilled(before, j)
  {
    var row := before.jobs[j];
    && j in after.jobs && after.jobs == before.jobs[j := after.jobs[j]] && SameRequest(row, after.jobs[j])
    && after.jobs[j].status == Failed && after.jobs[j].lastErrorCode == Some(code)
    && after.jobs[j].errorRetryable == Some(retryable)
    && EvidenceOf(after.jobs[j]) == JobRow.Evidence([], Some(0), Some(0), Some(0))
    && after.jobs[j].tokensSettledAt.Some? && after.jobs[j].completedAt.Some? && after.jobs[j].leaseToken.None?
    && after.jobs[j].reservedTokens == row.reservedTokens
    && after.balances == before.balances[row.userId :=
         before.balances[row.userId] + if row.reservedTokens.Some? then row.reservedTokens.value else 0]
    && after.reports == before.reports && after.stats == before.stats
    && CheckpointOk(before.repositories, after.repositories, row.userId, row.repositoryId, completion)
  }

  /** What a termination with zero usage leaves on the row. */
  lemma RefundedRow(row: Job, token: Token, context: Job, code: ErrorCode, now: Time)
    requires OwnedBy(row, token, context) && row.reservedTokens == context.reservedTokens
    ensures ToFailed(row, token, context, Some(ZERO_TOKEN_USAGE), [], true, code, now).Some?
    ensures var failed := ToFailed(row, token, context, Some(ZERO_TOKEN_USAGE), [], true, code, now).value;
            && failed.status == Failed && failed.lastErrorCode == Some(code) && failed.errorRetryable == Some(false)
            && EvidenceOf(failed) == JobRow.Evidence([], Some(0), Some(0), Some(0)) && SameRequest(row, failed)
            && failed.tokensSettledAt.Some? && failed.completedAt.Some? && failed.leaseToken.None?
            && failed.reservedTokens == row.reservedTokens
  {
    hide RowOk, RowStep, PublishUntouched, HasBillingEvidence;
  }

  /** What it leaves of the tables before the completion. */
  function RefundedDb(db: Db, j: JobId, failed: Job): Db
    requires j in db.jobs && db.jobs[j].userId in db.balances
  {
    var reserved := db.jobs[j].reservedTokens;
    Credit(Put(db, j, failed), db.jobs[j].userId, if reserved.Some? then reserved.value else 0)
  }

  lemma UnbilledTermination(db: Db, w: Runner, context: Job, code: ErrorCode, completion: Completion, now: Time)
    requires IsUnbilled(db, w.job) && OwnedBy(db.jobs[w.job], w.token, context)
    requires db.jobs[w.job].reservedTokens == context.reservedTokens
    requires context.reservedTokens.Some? ==> 0 <= context.reservedTokens.value
    ensures var failed := ToFailed(db.jobs[w.job], w.token, context, Some(ZERO_TOKEN_USAGE), [], true, code, now);
            Terminate(db, w.job, w.token, context, Unbilled(context, code, completion), now) ==
            if failed.None? then None
            else Some(Complete(RefundedDb(db, w.job, failed.value), context.userId, context.repositoryId, completion))
  {
    hide RowOk, RowStep, PublishUntouched, HasBillingEvidence, Complete, ToFailed;
  }

  lemma ReservationIsNatural(row: Job)
    requires RowOk(row)
    ensures row.reservedTokens.Some? ==> 0 <= row.reservedTokens.value
  {
    hide HasBillingEvidence;
  }

  /** A termination with zero usage. */
  lemma TerminationRefunds(db: Db, w: Runner, context: Job, code: ErrorCode, completion: Completion, now: Time)
    requires IsUnbilled(db, w.job) && OwnedBy(db.jobs[w.job], w.token, context) && RowOk(db.jobs[w.job])
    requires db.jobs[w.job].reservedTokens == context.reservedTokens
    ensures Terminate(db, w.job, w.token, context, Unbilled(context, code, completion), now).Some?
    ensures var after := Terminate(db, w.job, w.token, context, Unbilled(context, code, completion), now).value;
            IsRefunded(db, after, w.job, code, false, completion)
  {
    hide RowOk, RowStep, PublishUntouched, HasBillingEvidence, Complete, CheckpointOk, ToFailed, Terminate, Unbilled,
      EvidenceOf;
    ReservationIsNatural(db.jobs[w.job]);
    UnbilledTermination(db, w, context, code, completion, now);
    RefundedRow(db.jobs[w.job], w.token, context, code, now);
    var failed := ToFailed(db.jobs[w.job], w.token, context, Some(ZERO_TOKEN_USAGE), [], true, code, now).value;
    CompletionChecks(RefundedDb(db, w.job, failed), context.userId, context.repositoryId, completion);
  }

  /** A settlement of settleFailure. */
  lemma SettlementRefunds(db: Db, j: JobId, status: Status, token: Option<Token>, code: ErrorCode, retryable: bool,
                          now: Time)
    requires IsUnbilled(db, j) && RowOk(db.jobs[j]) && db.jobs[j].status == status && IsActive(db.jobs[j])
    requires status == Running ==> db.jobs[j].leaseToken == token
    ensures SettleJob(db, j, status, token, code, retryable, now).SettledIn?
    ensures IsRefunded(db, SettleJob(db, j, status, token, code, retryable, now).db, j, code, retryable, NoCompletion)
    ensures SettleJob(db, j, status, token, code, retryable, now).db.jobs[j].nextPublishAt.None?
  {
    hide RowStep, PublishUntouched;
  }

  // ----- the steps -----

  /** The row that a runner holds, and what its context says of it. */
  predicate FitsContext(db: Db, w: Runner, context: Job) {
    && IsUnbilled(db, w.job) && RowOk(db.jobs[w.job]) && OwnedBy(db.jobs[w.job], w.token, context)
    && db.jobs[w.job].reservedTokens == context.reservedTokens
  }

  lemma HolderFits(s: State, p: nat, context: Job)
    requires Inv(s) && p in s.runners && Holds(s.db, s.runners[p]) && Clean(s.runners[p], s.db, context)
    ensures FitsContext(s.db, s.runners[p], context)
  {
    hide RateOk, LogOk, CoverageOk, ReceivedOk, SendsOk, PublishersOk, RunnersOk, HasBillingEvidence, BalancesOk,
      OneActivePerRepository, OneJobPerKey, ReportsOk;
    RowOf(s, s.runners[p].job);
  }

  lemma ContextIsClean(s: State, p: nat)
    requires Inv(s) && p in s.runners
    requires var ph := s.runners[p].phase; ph.Preparing? || ph.OutOfTokens? || ph.CallFailed? || ph.Waiting?
    ensures Clean(s.runners[p], s.db, s.runners[p].phase.context)
    ensures s.runners[p].phase.OutOfTokens? ==> s.runners[p].phase.context.reservedTokens.None?
    ensures s.runners[p].phase.Waiting? ==> s.runners[p].phase.context.reservedTokens.Some?
  {
    hide RateOk, LogOk, CoverageOk, ReceivedOk, SendsOk, PublishersOk, RunnerWindowOk, HasBillingEvidence, DbOk, RowOk;
    RunnerOf(s, p);
  }

  lemma HeldRow(s: State, p: nat)
    requires Reachable(s) && p in s.runners && Holds(s.db, s.runners[p])
    ensures var w := s.runners[p];
            && RowOk(s.db.jobs[w.job]) && s.db.jobs[w.job].status == Running && s.db.jobs[w.job].tokensSettledAt.None?
            && s.db.jobs[w.job].userId in s.db.balances && s.db.jobs[w.job].repositoryId in s.db.repositories
  {
    hide Reachable, RateOk, LogOk, CoverageOk, ReceivedOk, SendsOk, PublishersOk, RunnersOk, HasBillingEvidence,
      BalancesOk, OneActivePerRepository, OneJobPerKey, ReportsOk;
    ReachableIsSafe(s);
    RowOf(s, s.runners[p].job);
  }

  /**
   The checkpoint that a run with its data collected asks for: its window's end, and how strictly to check the owner.
   */
  function CheckpointAt(w: Runner): Completion {
    if w.kind == Background then WorkerCheckpoint(w.window.until) else SyncCheckpoint(w.window.until)
  }

  /** There is nothing to call the model for: no data, too much of it, or more than an earlier attempt has reserved. */
  predicate IsPointless(row: Job, code: ErrorCode, required: int) {
    || code == NoAnalyzableData || code == InputLimitExceeded
    || (code == TokenBudgetExceeded && row.reservedTokens.Some? && row.reservedTokens.value < required)
  }

  lemma EndMoves(s: State, p: nat, code: ErrorCode, required: int, now: Time)
    requires p in s.runners && s.runners[p].phase.Preparing?
    requires EndsWithoutCall(s.runners[p].phase.context, code, required)
    requires var w := s.runners[p];
             var completion := if code == NoAnalyzableData then CompletionOf(w) else NoCompletion;
             Terminate(s.db, w.job, w.token, w.phase.context, Unbilled(w.phase.context, code, completion), now).Some?
    ensures var w, t := s.runners[p], Next(s, EndWithoutCall(p, code, required, now, NoFault));
            var completion := if code == NoAnalyzableData then CompletionOf(w) else NoCompletion;
            var after := Terminate(s.db, w.job, w.token, w.phase.context,
                                   Unbilled(w.phase.context, code, completion), now).value;
            t.db == after && t.runners == s.runners[p := w.(phase := Done(Finished))]
  {
    hide NextClaim, NextBill, NextRequest, NextPublish, Write, Terminate, Unbilled, EndsWithoutCall, CompletionOf;
    var w := s.runners[p];
    var completion := if code == NoAnalyzableData then CompletionOf(w) else NoCompletion;
    var t := Unbilled(w.phase.context, code, completion);
    WriteMoves(s, p, Terminate(s.db, w.job, w.token, w.phase.context, t, now).value, Done(Finished), OnError(w.kind));
  }

  lemma EndIsRefused(s: State, p: nat, code: ErrorCode, required: int, now: Time)
    requires p in s.runners && s.runners[p].phase.Preparing?
    requires !EndsWithoutCall(s.runners[p].phase.context, code, required)
    ensures Next(s, EndWithoutCall(p, code, required, now, NoFault)) == s
  {
    hide NextClaim, NextBill, NextRequest, NextPublish, EndsWithoutCall;
  }

  /** Such a job, and no other, ends refunded before the call; having no data, its window counts as synchronized. */
  lemma PointlessJobsEnd(s: State, p: nat, code: ErrorCode, required: int, now: Time)
    requires Reachable(s) && p in s.runners && s.runners[p].phase.Preparing? && Holds(s.db, s.runners[p])
    ensures var w, t := s.runners[p], Next(s, EndWithoutCall(p, code, required, now, NoFault));
            && IsUnbilled(s.db, w.job)
            && if IsPointless(s.db.jobs[w.job], code, required)
               then
                 && IsRefunded(s.db, t.db, w.job, code, false,
                               if code == NoAnalyzableData then CheckpointAt(w) else NoCompletion)
                 && t.runners == s.runners[p := w.(phase := Done(Finished))]
               else t == s
  {
    hide Reachable, Inv, Next, Terminate, Unbilled, IsUnbilled, IsRefunded, OwnedBy, RowOk;
    var w := s.runners[p];
    var context := w.phase.context;
    ReachableIsSafe(s);
    ContextIsClean(s, p);
    HolderFits(s, p, context);
    if IsPointless(s.db.jobs[w.job], code, required) {
      TerminationRefunds(s.db, w, context, code, if code == NoAnalyzableData then CompletionOf(w) else NoCompletion,
                         now);
      EndMoves(s, p, code, required, now);
    } else {
      EndIsRefused(s, p, code, required, now);
    }
  }

  // ----- spent jobs -----

  /** A worker gets the message of job `j` and reads the row. */
  lemma MessageMoves(s: State, p: nat, j: JobId, token: Token, count: nat, at: Time, expires: Time)
    requires p !in s.runners && token !in s.minted
    ensures var w := Runner(Background, j, token, count, 0, 0, Window(None, 0), ClaimDecision(s.db, j, at, expires));
            var t := Run(s, [ReceiveMessage(p, j, token, count)] + [ReadForClaim(p, at, expires, NoFault)]);
            t.db == s.db && t.runners == s.runners[p := w]
  {
    hide Next, Run, ClaimDecision;
    var one := [ReceiveMessage(p, j, token, count)];
    RunOne(s, one[0]);
    ReceiveMoves(s, p, j, token, count);
    RunStep(s, one, ReadForClaim(p, at, expires, NoFault));
    ReadMoves(Run(s, one), p, at, expires);
    Overwritten(s.runners, p, Runner(Background, j, token, count, 0, 0, Window(None, 0), Started),
                Runner(Background, j, token, count, 0, 0, Window(None, 0), ClaimDecision(s.db, j, at, expires)));
  }

  lemma FinalizeMoves(s: State, p: nat, now: Time)
    requires p in s.runners && s.runners[p].phase.AtLimit? && s.runners[p].job in s.db.jobs
    requires var w := s.runners[p];
             && w.phase.seen == s.db.jobs[w.job] && IsActive(w.phase.seen) && IsUnbilled(s.db, w.job)
             && RowOk(w.phase.seen)
    ensures var w, t := s.runners[p], Next(s, FinalizeAtLimit(p, now, NoFault));
            && IsRefunded(s.db, t.db, w.job, MaxAttemptsExceeded, true, NoCompletion)
            && t.db.jobs[w.job].nextPublishAt.None?
            && t.runners == s.runners[p := w.(phase := Done(Redeliver))]
  {
    hide NextCall, NextBill, NextRequest, NextPublish, Write, HasBillingEvidence, SettleJob, IsRefunded;
    var w := s.runners[p];
    var seen := w.phase.seen;
    var token := if seen.status == Queued then None else seen.leaseToken;
    SettlementRefunds(s.db, w.job, seen.status, token, MaxAttemptsExceeded, true, now);
    WriteMoves(s, p, SettleJob(s.db, w.job, seen.status, token, MaxAttemptsExceeded, true, now).db, Done(Redeliver),
               Done(Redeliver));
  }

  lemma SpentRow(s: State, j: JobId, at: Time)
    requires Reachable(s) && j in s.db.jobs && IsSpent(s.db.jobs[j], at)
    ensures IsUnbilled(s.db, j) && RowOk(s.db.jobs[j]) && IsActive(s.db.jobs[j])
  {
    hide Reachable, RateOk, LogOk, CoverageOk, ReceivedOk, SendsOk, PublishersOk, RunnersOk, HasBillingEvidence,
      BalancesOk, OneActivePerRepository, OneJobPerKey, ReportsOk;
    ReachableIsSafe(s);
    RowOf(s, j);
  }

  function FinalizingActions(p: nat, j: JobId, token: Token, count: nat, at: Time, expires: Time): seq<Action> {
    [ReceiveMessage(p, j, token, count)] + [ReadForClaim(p, at, expires, NoFault)] + [FinalizeAtLimit(p, at, NoFault)]
  }

  /** The next message about a spent job ends it as MAX_ATTEMPTS_EXCEEDED, refunded and open to a retry by the user. */
  lemma SpentJobsEnd(s: State, p: nat, j: JobId, token: Token, count: nat, at: Time, expires: Time)
    requires Reachable(s) && p !in s.runners && token !in s.minted && j in s.db.jobs && IsSpent(s.db.jobs[j], at)
    ensures IsUnbilled(s.db, j)
    ensures var t := Run(s, FinalizingActions(p, j, token, count, at, expires));
            && IsRefunded(s.db, t.db, j, MaxAttemptsExceeded, true, NoCompletion)
            && t.db.jobs[j].nextPublishAt.None?
            && t.runners.Keys == s.runners.Keys + {p} && t.runners[p].phase == Done(Redeliver)
  {
    hide Reachable, Next, Run, ClaimDecision, IsSpent, IsOpen, RowOk, IsUnbilled, IsRefunded;
    SpentRow(s, j, at);
    ClaimOutcomes(s.db, j, at, expires);
    MessageMoves(s, p, j, token, count, at, expires);
    var two := [ReceiveMessage(p, j, token, count)] + [ReadForClaim(p, at, expires, NoFault)];
    RunStep(s, two, FinalizeAtLimit(p, at, NoFault));
    FinalizeMoves(Run(s, two), p, at);
  }

  // ----- rows that a claim finds billed, or made by an older deployment -----

  /** A worker that has claimed the job, or a synchronous run that has started it, and not looked at it since. */
  predicate IsReading(phase: Phase) {
    phase.Holding? || phase.Entering?
  }

  /** Its next action, which reads the row. */
  function ReadingAction(phase: Phase, p: nat): Action {
    if phase.Holding? then ReadCheckpoint(p, NoFault) else EnterAnalysis(p, NoFault)
  }

  /** What it then goes on to do, when the row is billed or retired. */
  function Found(row: Job): Phase {
    Recovering(row, if HasBillingEvidence(row) then Reconciliation(row, CheckpointId(row), CheckpointUsage(row))
                    else Unbilled(row, UnsupportedAnalysisVersion, NoCompletion))
  }

  lemma ReadingMoves(s: State, p: nat)
    requires p in s.runners && IsReading(s.runners[p].phase) && Holds(s.db, s.runners[p])
    requires var row := s.db.jobs[s.runners[p].job];
             row.status == Running && (HasBillingEvidence(row) || row.version == Retired)
    ensures var w, t := s.runners[p], Next(s, ReadingAction(s.runners[p].phase, p));
            t.db == s.db && t.runners == s.runners[p := w.(phase := Found(s.db.jobs[w.job]))]
  {
    hide NextCall, NextBill, NextRequest, NextPublish, Move, HasBillingEvidence, Reconciliation, Unbilled;
    var w := s.runners[p];
    var row := s.db.jobs[w.job];
    ViewAfterMove(s, p, w.(phase := Found(row)), s.db);
    if w.phase.Holding? {
      assert Next(s, ReadCheckpoint(p, NoFault)) == Move(s, p, w.(phase := Found(row)), s.db);
    } else {
      assert Next(s, EnterAnalysis(p, NoFault)) == Move(s, p, w.(phase := Found(row)), s.db);
    }
  }

  lemma RecoverMoves(s: State, p: nat, now: Time)
    requires p in s.runners && s.runners[p].phase.Recovering?
    requires var w := s.runners[p]; Terminate(s.db, w.job, w.token, w.phase.context, w.phase.termination, now).Some?
    ensures var w, t := s.runners[p], Next(s, Recover(p, now, NoFault));
            && t.db == Terminate(s.db, w.job, w.token, w.phase.context, w.phase.termination, now).value
            && t.runners == s.runners[p := w.(phase := Done(Finished))]
  {
    hide NextClaim, NextBill, NextRequest, NextPublish, Write, Terminate;
    var w := s.runners[p];
    WriteMoves(s, p, Terminate(s.db, w.job, w.token, w.phase.context, w.phase.termination, now).value, Done(Finished),
               OnError(w.kind));
  }

  function RecoveringActions(phase: Phase, p: nat, now: Time): seq<Action> {
    [ReadingAction(phase, p)] + [Recover(p, now, NoFault)]
  }

  /** The row shows a bill whose parts are all known, or all unknown. */
  lemma BilledRow(row: Job)
    requires RowOk(row) && row.status == Running && HasBillingEvidence(row)
    ensures EvidenceOf(row) == Billed(CheckpointId(row), CheckpointUsage(row)) && row.reservedTokens.Some?
    ensures CheckpointUsage(row).Some? ==> IsValidUsage(CheckpointUsage(row).value)
  {
  }

  /**
   A claimed job that already shows a bill is not analyzed again: the bill is settled, if it can be, and the job ends.
   */
  lemma FoundBillsAreSettled(s: State, p: nat, now: Time, requestId: Option<RequestId>, usage: Option<Usage>)
    requires Reachable(s) && p in s.runners && IsReading(s.runners[p].phase) && Holds(s.db, s.runners[p])
    requires HasBillingEvidence(s.db.jobs[s.runners[p].job])
    requires EvidenceOf(s.db.jobs[s.runners[p].job]) == Billed(requestId, usage)
    ensures IsReserved(s.db, s.runners[p].job)
    ensures var w, t := s.runners[p], Run(s, RecoveringActions(s.runners[p].phase, p, now));
            && IsReconciled(s.db, t.db, w.job, requestId, usage)
            && t.runners == s.runners[p := w.(phase := Done(Finished))]
  {
    hide Reachable, Next, Run, HasBillingEvidence, RowOk, Terminate, Reconciliation, CheckpointId, CheckpointUsage,
      IsValidUsage, IsReconciled, ReadingAction;
    var w := s.runners[p];
    var row := s.db.jobs[w.job];
    HeldRow(s, p);
    BilledRow(row);
    assert requestId == CheckpointId(row) && usage == CheckpointUsage(row);
    var one := [ReadingAction(w.phase, p)];
    RunOne(s, one[0]);
    ReadingMoves(s, p);
    var s1 := Run(s, one);
    SettleApplies(s.db, s1.runners[p], row, requestId, usage, now);
    RunStep(s, one, Recover(p, now, NoFault));
    RecoverMoves(s1, p, now);
    Overwritten(s.runners, p, s1.runners[p], w.(phase := Done(Finished)));
  }

  /** A claimed job of an older deployment ends as UNSUPPORTED_ANALYSIS_VERSION, refunded. */
  lemma RetiredJobsEnd(s: State, p: nat, now: Time)
    requires Reachable(s) && p in s.runners && IsReading(s.runners[p].phase) && Holds(s.db, s.runners[p])
    requires var row := s.db.jobs[s.runners[p].job]; !HasBillingEvidence(row) && row.version == Retired
    ensures IsUnbilled(s.db, s.runners[p].job)
    ensures var w, t := s.runners[p], Run(s, RecoveringActions(s.runners[p].phase, p, now));
            && IsRefunded(s.db, t.db, w.job, UnsupportedAnalysisVersion, false, NoCompletion)
            && t.runners == s.runners[p := w.(phase := Done(Finished))]
  {
    hide Reachable, Next, Run, HasBillingEvidence, RowOk, Terminate, Unbilled, IsRefunded, ReadingAction;
    var w := s.runners[p];
    var row := s.db.jobs[w.job];
    HeldRow(s, p);
    var one := [ReadingAction(w.phase, p)];
    RunOne(s, one[0]);
    ReadingMoves(s, p);
    var s1 := Run(s, one);
    TerminationRefunds(s.db, s1.runners[p], row, UnsupportedAnalysisVersion, NoCompletion, now);
    RunStep(s, one, Recover(p, now, NoFault));
    RecoverMoves(s1, p, now);
    Overwritten(s.runners, p, s1.runners[p], w.(phase := Done(Finished)));
  }

  // ----- reserving -----

  lemma ReservationApplies(db: Db, w: Runner, context: Job, estimated: int, required: int, now: Time)
    requires FitsContext(db, w, context) && context.reservedTokens.None?
    ensures var row := db.jobs[w.job];
            Reserve(db, w.job, w.token, context, estimated, required, now) ==
            if db.balances[row.userId] < required then Insufficient
            else
              var reserved :=
                row.(estimatedTokens := Some(estimated), reservedTokens := Some(required), updatedAt := now);
              ReservedIn(db.(jobs := db.jobs[w.job := reserved],
                             balances := db.balances[row.userId := db.balances[row.userId] - required]))
  {
    hide RowOk, RowStep, HasBillingEvidence;
  }

  /**
   What preparing a call does to the tables. An earlier reservation is used again if it is enough; else nothing happens,
   and the job can only end as pointless. Without one the required tokens move from the balance to the row, or, when the
   balance is too low, nothing does and the runner goes on to end the job.
   */
  lemma ReservationOutcome(s: State, p: nat, estimated: int, required: int, now: Time)
    requires Reachable(s) && p in s.runners && s.runners[p].phase.Preparing? && Holds(s.db, s.runners[p])
    requires 0 <= estimated <= required
    ensures IsUnbilled(s.db, s.runners[p].job)
    ensures var w, t := s.runners[p], Next(s, ReserveOrReuse(p, estimated, required, now, NoFault));
            var row, user, context := s.db.jobs[w.job], s.db.jobs[w.job].userId, w.phase.context;
            if row.reservedTokens.Some? then
              if row.reservedTokens.value < required then t == s
              else t.db == s.db && t.runners == s.runners[p := w.(phase := Reserved(context))]
            else if s.db.balances[user] < required then
              t.db == s.db && t.runners == s.runners[p := w.(phase := OutOfTokens(context))]
            else
              && w.job in t.db.jobs
              && t.db == s.db.(jobs := s.db.jobs[w.job := t.db.jobs[w.job]],
                               balances := s.db.balances[user := s.db.balances[user] - required])
              && t.db.jobs[w.job] == row.(estimatedTokens := Some(estimated), reservedTokens := Some(required),
                                          updatedAt := now)
              && t.runners == s.runners[p := w.(phase := Reserved(context.(reservedTokens := Some(required))))]
  {
    hide Reachable, Inv, NextClaim, NextBill, NextRequest, NextPublish, Move, Reserve, OwnedBy, RowOk,
      HasBillingEvidence;
    var w := s.runners[p];
    var context := w.phase.context;
    ReachableIsSafe(s);
    ContextIsClean(s, p);
    HolderFits(s, p, context);
    if context.reservedTokens.Some? {
      ViewAfterMove(s, p, w.(phase := Reserved(context)), s.db);
    } else {
      ReservationApplies(s.db, w, context, estimated, required, now);
      var outcome := Reserve(s.db, w.job, w.token, context, estimated, required, now);
      ViewAfterMove(s, p, w.(phase := Reserved(context.(reservedTokens := Some(required)))),
                    if outcome.ReservedIn? then outcome.db else s.db);
      ViewAfterMove(s, p, w.(phase := OutOfTokens(context)), s.db);
    }
  }

  /** A job that its user cannot pay ends under INSUFFICIENT_TOKENS, and costs nothing. */
  lemma UnaffordableJobsEnd(s: State, p: nat, now: Time)
    requires Reachable(s) && p in s.runners && s.runners[p].phase.OutOfTokens? && Holds(s.db, s.runners[p])
    ensures var w, t := s.runners[p], Next(s, EndOutOfTokens(p, now, NoFault));
            && IsUnbilled(s.db, w.job) && s.db.jobs[w.job].reservedTokens.None?
            && IsRefunded(s.db, t.db, w.job, InsufficientTokens, false, NoCompletion)
            && t.runners == s.runners[p := w.(phase := Done(Finished))]
  {
    hide Reachable, Inv, NextClaim, NextBill, NextRequest, NextPublish, Write, Terminate, Unbilled, IsUnbilled,
      IsRefunded, OwnedBy, RowOk;
    var w := s.runners[p];
    var context := w.phase.context;
    ReachableIsSafe(s);
    ContextIsClean(s, p);
    HolderFits(s, p, context);
    TerminationRefunds(s.db, w, context, InsufficientTokens, NoCompletion, now);
    var t := Unbilled(context, InsufficientTokens, NoCompletion);
    WriteMoves(s, p, Terminate(s.db, w.job, w.token, context, t, now).value, Done(Finished), OnError(w.kind));
  }

  // ----- errors -----

  /** A worker that is collecting keeps its lease alive. */
  lemma HeartbeatsExtend(s: State, p: nat, now: Time, expires: Time)
    requires Reachable(s) && p in s.runners && s.runners[p].phase.Collecting? && Holds(s.db, s.runners[p])
    ensures var w, t := s.runners[p], Next(s, Heartbeat(p, now, expires, NoFault));
            && t.db == Put(s.db, w.job, s.db.jobs[w.job].(leaseExpiresAt := Some(expires), updatedAt := now))
            && t.runners == s.runners[p := w.(phase := Collecting)]
  {
    hide Reachable, Inv, NextCall, NextBill, NextRequest, NextPublish, Write, RowOk, RowStep, PublishUntouched, Held;
    var w := s.runners[p];
    HeldRow(s, p);
    WriteMoves(s, p, ProgressDb(s.db, w, now, expires).value, Collecting, Failing);
  }

  /** The limits of a worker's claim: attempts of the job, and deliveries of the message. */
  predicate IsExhausted(w: Runner) {
    w.attempt >= w.limit || w.receiveCount >= w.limit
  }

  /** What the worker's classifier can call an error. */
  predicate IsErrorOfTheWorker(code: ErrorCode) {
    || code == AnalysisFailed || code == TemporaryFailure || code == GithubFailure || code == InputLimitExceeded
    || code == InvalidMessage || code == ProviderFailure || code == ProviderReconciliationRequired
    || code == RepositoryUnavailable || code == UnsupportedAnalysisVersion || code == WorkerLeaseUnavailable
  }

  lemma ErrorsAreClassified(code: ErrorCode)
    ensures IsErrorOfTheWorker(code) <==> IsClassifierCode(code)
  {
  }

  lemma ReleasedRow(row: Job, token: Token, nextPublishAt: Time, code: ErrorCode, now: Time)
    requires row.status == Running && row.leaseToken == Some(token) && row.tokensSettledAt.None?
    requires !HasBillingEvidence(row)
    ensures ReleaseForRetry(row, token, nextPublishAt, code, now) ==
            Some(row.(status := Queued, nextPublishAt := Some(nextPublishAt), leaseToken := None,
                      leaseExpiresAt := None, lastErrorCode := Some(code), errorRetryable := Some(true),
                      updatedAt := now))
  {
    hide RowOk, RowStep, PublishUntouched, Held, HasBillingEvidence;
  }

  lemma ReleaseIsRefused(s: State, p: nat, nextPublishAt: Time, code: ErrorCode, now: Time)
    requires p in s.runners && s.runners[p].phase.Failing? && IsExhausted(s.runners[p])
    ensures Next(s, ReleaseFailed(p, nextPublishAt, code, now, NoFault)) == s
  {
    hide NextClaim, NextCall, NextRequest, NextPublish, IsClassifierCode;
  }

  /** A worker's passing error, below both limits: the job goes back to the queue with its reservation, due later. */
  lemma PassingErrorsAreRetried(s: State, p: nat, nextPublishAt: Time, code: ErrorCode, now: Time)
    requires Reachable(s) && p in s.runners && s.runners[p].phase.Failing? && Holds(s.db, s.runners[p])
    requires IsErrorOfTheWorker(code) && !HasBillingEvidence(s.db.jobs[s.runners[p].job])
    ensures var w, t := s.runners[p], Next(s, ReleaseFailed(p, nextPublishAt, code, now, NoFault));
            var row := s.db.jobs[w.job];
            if IsExhausted(w) then t == s
            else
              && t.db == Put(s.db, w.job,
                   row.(status := Queued, nextPublishAt := Some(nextPublishAt), leaseToken := None,
                        leaseExpiresAt := None, lastErrorCode := Some(code), errorRetryable := Some(true),
                        updatedAt := now))
              && t.runners == s.runners[p := w.(phase := Done(Redeliver))]
  {
    hide Reachable, Inv, Next, RowOk, HasBillingEvidence, IsClassifierCode, IsErrorOfTheWorker, ReleaseForRetry;
    var w := s.runners[p];
    HeldRow(s, p);
    ErrorsAreClassified(code);
    if IsExhausted(w) {
      ReleaseIsRefused(s, p, nextPublishAt, code, now);
    } else {
      ReleasedRow(s.db.jobs[w.job], w.token, nextPublishAt, code, now);
      ReleaseMoves(s, p, nextPublishAt, code, now);
    }
  }

  lemma FinalizeIsRefused(s: State, p: nat, code: ErrorCode, now: Time)
    requires p in s.runners && s.runners[p].phase.Failing? && !IsExhausted(s.runners[p])
    ensures Next(s, FinalizeFailed(p, true, code, now, NoFault)) == s
  {
    hide NextClaim, NextCall, NextRequest, NextPublish, IsClassifierCode;
  }

  lemma FinalizeFailedMoves(s: State, p: nat, retryable: bool, code: ErrorCode, now: Time)
    requires p in s.runners && s.runners[p].phase.Failing? && (retryable ==> IsExhausted(s.runners[p]))
    requires IsClassifierCode(code)
    requires var w, used := s.runners[p], if retryable then MaxAttemptsExceeded else code;
             SettleJob(s.db, w.job, Running, Some(w.token), used, retryable, now).SettledIn?
    ensures var w, t := s.runners[p], Next(s, FinalizeFailed(p, retryable, code, now, NoFault));
            var used := if retryable then MaxAttemptsExceeded else code;
            && t.db == SettleJob(s.db, w.job, Running, Some(w.token), used, retryable, now).db
            && t.runners == s.runners[p := w.(phase := Done(if retryable then Redeliver else Finished))]
  {
    hide NextClaim, NextCall, NextRequest, NextPublish, Write, IsClassifierCode, SettleJob;
    var w := s.runners[p];
    var used := if retryable then MaxAttemptsExceeded else code;
    var after := SettleJob(s.db, w.job, Running, Some(w.token), used, retryable, now).db;
    WriteMoves(s, p, after, Done(if retryable then Redeliver else Finished), Done(Redeliver));
  }

  /**
   A worker's lasting error ends the job under its own code, for good; a passing one at a limit ends it as
   MAX_ATTEMPTS_EXCEEDED, and the user may ask for a retry. Both are refunded.
   */
  lemma LastingErrorsEnd(s: State, p: nat, retryable: bool, code: ErrorCode, now: Time)
    requires Reachable(s) && p in s.runners && s.runners[p].phase.Failing? && Holds(s.db, s.runners[p])
    requires IsErrorOfTheWorker(code) && !HasBillingEvidence(s.db.jobs[s.runners[p].job])
    ensures IsUnbilled(s.db, s.runners[p].job)
    ensures var w, t := s.runners[p], Next(s, FinalizeFailed(p, retryable, code, now, NoFault));
            if retryable && !IsExhausted(w) then t == s
            else
              && IsRefunded(s.db, t.db, w.job, if retryable then MaxAttemptsExceeded else code, retryable, NoCompletion)
              && t.runners == s.runners[p := w.(phase := Done(if retryable then Redeliver else Finished))]
  {
    hide Reachable, Inv, Next, RowOk, HasBillingEvidence, IsClassifierCode, IsErrorOfTheWorker, SettleJob, IsRefunded;
    var w := s.runners[p];
    HeldRow(s, p);
    ErrorsAreClassified(code);
    if retryable && !IsExhausted(w) {
      FinalizeIsRefused(s, p, code, now);
    } else {
      var used := if retryable then MaxAttemptsExceeded else code;
      SettlementRefunds(s.db, w.job, Running, Some(w.token), used, retryable, now);
      FinalizeFailedMoves(s, p, retryable, code, now);
    }
  }

  /**
   Once billed, an error neither releases nor ends the job: it keeps its lease until another worker settles the bill.
   */
  lemma BilledErrorsWait(s: State, p: nat, a: Action)
    requires Reachable(s) && p in s.runners && s.runners[p].phase.Failing? && Holds(s.db, s.runners[p])
    requires HasBillingEvidence(s.db.jobs[s.runners[p].job])
    requires (a.ReleaseFailed? || a.FinalizeFailed?) && a.p == p
    ensures Next(s, a).db == s.db
  {
    hide Reachable, Inv, NextClaim, NextCall, NextRequest, NextPublish, Audit, RowOk, HasBillingEvidence,
      IsClassifierCode;
    HeldRow(s, p);
  }

  /** A synchronous run whose call fails unbilled ends as ANALYSIS_FAILED. */
  lemma FailedCallsEnd(s: State, p: nat, now: Time)
    requires Reachable(s) && p in s.runners && s.runners[p].phase.CallFailed? && Holds(s.db, s.runners[p])
    ensures var w, t := s.runners[p], Next(s, EndCallFailed(p, now, NoFault));
            && IsUnbilled(s.db, w.job)
            && IsRefunded(s.db, t.db, w.job, AnalysisFailed, false, NoCompletion)
            && t.runners == s.runners[p := w.(phase := Done(Finished))]
  {
    hide Reachable, Inv, NextClaim, NextBill, NextRequest, NextPublish, Write, Terminate, Unbilled, IsUnbilled,
      IsRefunded, OwnedBy, RowOk;
    var w := s.runners[p];
    var context := w.phase.context;
    ReachableIsSafe(s);
    ContextIsClean(s, p);
    HolderFits(s, p, context);
    TerminationRefunds(s.db, w, context, AnalysisFailed, NoCompletion, now);
    var t := Unbilled(context, AnalysisFailed, NoCompletion);
    WriteMoves(s, p, Terminate(s.db, w.job, w.token, context, t, now).value, Done(Finished), OnError(w.kind));
  }

  // ----- answers -----

  lemma AnswerLeads(s: State, p: nat, answer: Answer)
    requires p in s.runners && s.runners[p].phase.Waiting?
    ensures var w, t := s.runners[p], Run(s, [AnswerCall(p, answer)]);
            t.db == s.db && t.runners == s.runners[p := w.(phase := AnswerDecision(w, w.phase.context, answer))]
  {
    hide NextClaim, NextBill, NextRequest, NextPublish, Move, AnswerDecision, Run;
    var w := s.runners[p];
    RunOne(s, AnswerCall(p, answer));
    ViewAfterMove(s, p, w.(phase := AnswerDecision(w, w.phase.context, answer)), s.db);
  }

  /** A runner that waits for an answer and still holds its row. */
  ghost predicate IsWaiting(s: State, p: nat) {
    Reachable(s) && p in s.runners && s.runners[p].phase.Waiting? && Holds(s.db, s.runners[p])
  }

  lemma WaitingIsReserved(s: State, p: nat)
    requires IsWaiting(s, p)
    ensures IsReserved(s.db, s.runners[p].job) && IsUnbilled(s.db, s.runners[p].job)
    ensures FitsContext(s.db, s.runners[p], s.runners[p].phase.context)
  {
    hide Reachable, Inv, RowOk, HasBillingEvidence;
    ReachableIsSafe(s);
    ContextIsClean(s, p);
    HolderFits(s, p, s.runners[p].phase.context);
  }

  /** The usage that a bill is stored with: only what is known and consistent. */
  function KnownUsage(usage: Option<Usage>): Option<Usage> {
    if usage.Some? && IsValidUsage(usage.value) then usage else None
  }

  /** A response with consistent usage within the reservation is charged, reported and saved. */
  lemma ResponsesAreSaved(s: State, p: nat, requestId: RequestId, usage: Usage, charged: Time, reported: Time,
                          expires: Time, scores: Scores, saved: Time)
    requires IsWaiting(s, p) && IsValidUsage(usage)
    requires var row := s.db.jobs[s.runners[p].job];
             row.reservedTokens.Some? ==> usage.totalTokens <= row.reservedTokens.value
    ensures IsReserved(s.db, s.runners[p].job)
    ensures var w := s.runners[p];
            var t := Run(s, [AnswerCall(p, Response(requestId, usage))]
                              + SavingActions(p, charged, reported, expires, scores, saved));
            && IsSaved(s.db, t.db, w.job, CheckpointAt(w), requestId, usage, scores)
            && DebitOf(t.log, w.job) == usage.totalTokens
            && t.runners == s.runners[p := w.(phase := Done(Finished))]
  {
    hide Reachable, Next, Run, IsSaved, IsValidUsage, SavingActions, FitsContext, IsUnbilled;
    var w := s.runners[p];
    WaitingIsReserved(s, p);
    var first := [AnswerCall(p, Response(requestId, usage))];
    AnswerLeads(s, p, Response(requestId, usage));
    StaysReachable(s, first);
    AnswerIsSaved(Run(s, first), p, charged, reported, expires, scores, saved);
    RunThen(s, first, SavingActions(p, charged, reported, expires, scores, saved));
    Overwritten(s.runners, p, Run(s, first).runners[p], w.(phase := Done(Finished)));
  }

  /**
   A bill with a request id that does not come with a usable result within the reservation is stored and reconciled: a
   response that used more than was reserved, or an error after the model had answered.
   */
  lemma BillsAreReconciled(s: State, p: nat, answer: Answer, charged: Time, metricsFail: bool, settled: Time)
    requires IsWaiting(s, p)
    requires var row := s.db.jobs[s.runners[p].job];
             || (answer.BilledError? && answer.billedId.Some?)
             || (answer.Response? && IsValidUsage(answer.usage) && row.reservedTokens.Some? &&
                 answer.usage.totalTokens > row.reservedTokens.value)
    ensures IsReserved(s.db, s.runners[p].job)
    ensures var w := s.runners[p];
            var t := Run(s, [AnswerCall(p, answer)] + ReconcilingActions(p, charged, metricsFail, settled));
            && IsReconciled(s.db, t.db, w.job, if answer.Response? then Some(answer.requestId) else answer.billedId,
                            if answer.Response? then Some(answer.usage) else KnownUsage(answer.billedUsage))
            && t.runners == s.runners[p := w.(phase := Done(Finished))]
  {
    hide Reachable, Next, Run, IsReconciled, IsReserved, IsValidUsage, ReconcilingActions, FitsContext, IsUnbilled;
    var w := s.runners[p];
    WaitingIsReserved(s, p);
    var first := [AnswerCall(p, answer)];
    AnswerLeads(s, p, answer);
    StaysReachable(s, first);
    AnswerIsReconciled(Run(s, first), p, charged, metricsFail, settled);
    RunThen(s, first, ReconcilingActions(p, charged, metricsFail, settled));
    Overwritten(s.runners, p, Run(s, first).runners[p], w.(phase := Done(Finished)));
  }

  /**
   A bill that cannot be stored beforehand is reconciled at once: a response whose usage is inconsistent, which counts
   as unknown, or a billed error without a request id.
   */
  lemma UnclearBillsAreReconciled(s: State, p: nat, answer: Answer, settled: Time)
    requires IsWaiting(s, p)
    requires || (answer.BilledError? && answer.billedId.None?)
             || (answer.Response? && !IsValidUsage(answer.usage))
    ensures IsReserved(s.db, s.runners[p].job)
    ensures var w := s.runners[p];
            var t := Run(s, [AnswerCall(p, answer)] + [SettleBilled(p, settled, NoFault)]);
            && IsReconciled(s.db, t.db, w.job, if answer.Response? then Some(answer.requestId) else None,
                            if answer.Response? then None else KnownUsage(answer.billedUsage))
            && t.runners == s.runners[p := w.(phase := Done(Finished))]
  {
    hide Reachable, Next, Run, IsReconciled, IsValidUsage, RowOk, Terminate, Reconciliation, HasBillingEvidence;
    var w := s.runners[p];
    WaitingIsReserved(s, p);
    var first := [AnswerCall(p, answer)];
    AnswerLeads(s, p, answer);
    var s1 := Run(s, first);
    var ph := s1.runners[p].phase;
    SettleApplies(s1.db, s1.runners[p], ph.context, ph.billedId, ph.billedUsage, settled);
    SettleMoves(s1, p, settled);
    RunStep(s, first, SettleBilled(p, settled, NoFault));
    Overwritten(s.runners, p, s1.runners[p], w.(phase := Done(Finished)));
  }

  /** A synchronous run that gets an error without a bill ends as ANALYSIS_FAILED, refunded. */
  lemma SyncErrorsEnd(s: State, p: nat, now: Time)
    requires IsWaiting(s, p) && s.runners[p].kind == Sync
    ensures IsUnbilled(s.db, s.runners[p].job)
    ensures var w, t := s.runners[p], Run(s, [AnswerCall(p, UnbilledError)] + [EndCallFailed(p, now, NoFault)]);
            && IsRefunded(s.db, t.db, w.job, AnalysisFailed, false, NoCompletion)
            && t.runners == s.runners[p := w.(phase := Done(Finished))]
  {
    hide Reachable, Next, Run, IsRefunded, FitsContext, IsUnbilled, IsReserved;
    var w := s.runners[p];
    WaitingIsReserved(s, p);
    var first := [AnswerCall(p, UnbilledError)];
    AnswerLeads(s, p, UnbilledError);
    StaysReachable(s, first);
    FailedCallsEnd(Run(s, first), p, now);
    RunStep(s, first, EndCallFailed(p, now, NoFault));
    Overwritten(s.runners, p, Run(s, first).runners[p], w.(phase := Done(Finished)));
  }

  // ----- failing statements -----

  /**
   A claim, a read, or a progress report before the reservation is lost, or the data cannot be collected or refined.
   */
  predicate PreparationFails(a: Action, p: nat) {
    || ((a.ReadForClaim? || a.WriteClaim? || a.ReadAfterRace? || a.FinalizeAtLimit? || a.RequireClaimedJob?) &&
        a.p == p && a.fault == LostBefore)
    || ((a.ReadCheckpoint? || a.EnterAnalysis? || a.Heartbeat? || a.FinishCollection?) &&
        a.p == p && a.fault == LostBefore)
    || (a.FailPreparation? && a.p == p)
    || (a.FinishCollection? && a.p == p && a.failed)
  }

  /** Where that sends the runner: to its error handler, or, before it holds the job, back to the queue. */
  function AfterPreparationFails(w: Runner): Phase {
    match w.phase
    case Holding => OnAnError(w)
    case Entering => OnAnError(w)
    case Preparing(_) => OnAnError(w)
    case Collecting => Failing
    case _ => Done(Redeliver)
  }

  /** A worker handles its errors; a synchronous run throws them. */
  function OnAnError(w: Runner): Phase {
    if w.kind == Background then Failing else Done(Threw)
  }

  /** The step does nothing, or only sends the runner on. */
  predicate GoesOn(s: State, t: State, p: nat, phase: Phase)
    requires p in s.runners
  {
    t == s || (t.db == s.db && t.runners == s.runners[p := s.runners[p].(phase := phase)])
  }

  lemma FailedClaim(s: State, p: nat, a: Action)
    requires p in s.runners && PreparationFails(a, p)
    requires a.ReadForClaim? || a.WriteClaim? || a.ReadAfterRace? || a.FinalizeAtLimit? || a.RequireClaimedJob?
    ensures GoesOn(s, NextClaim(s, a), p, AfterPreparationFails(s.runners[p]))
  {
    hide Audit, ClaimStatement, SettleJob;
  }

  lemma FailedCollection(s: State, p: nat, a: Action)
    requires p in s.runners && PreparationFails(a, p)
    requires a.ReadCheckpoint? || a.EnterAnalysis? || a.Heartbeat? || a.FinishCollection? || a.FailPreparation?
    ensures GoesOn(s, NextClaim(s, a), p, AfterPreparationFails(s.runners[p]))
  {
    hide Audit, ProgressDb;
  }

  lemma FailedPreparation(s: State, p: nat, a: Action)
    requires p in s.runners && PreparationFails(a, p)
    ensures GoesOn(s, Next(s, a), p, AfterPreparationFails(s.runners[p]))
  {
    hide NextClaim, NextCall, NextBill, NextRequest, NextPublish, GoesOn;
    if a.ReadCheckpoint? || a.EnterAnalysis? || a.Heartbeat? || a.FinishCollection? || a.FailPreparation? {
      FailedCollection(s, p, a);
    } else {
      FailedClaim(s, p, a);
    }
  }

  /** A termination, the reservation or the report of it is lost. */
  predicate CallStatementFails(a: Action, p: nat, w: Runner) {
    || ((a.Recover? || a.EndWithoutCall? || a.EndOutOfTokens? || a.EndCallFailed?) && a.p == p && a.fault == LostBefore)
    || (a.ReserveOrReuse? && a.p == p && a.fault == LostBefore && w.phase.Preparing? &&
        w.phase.context.reservedTokens.None?)
    || (a.ReportReserved? && a.p == p && a.fault == LostBefore && w.kind == Background)
  }

  lemma FailedCallStatement(s: State, p: nat, a: Action)
    requires p in s.runners && CallStatementFails(a, p, s.runners[p])
    ensures GoesOn(s, Next(s, a), p, OnAnError(s.runners[p]))
  {
    hide NextClaim, NextBill, NextRequest, NextPublish, Audit, Terminate, Reserve, ProgressDb, EndsWithoutCall;
  }

  /** The charge, its settlement, the report before saving, saving, or the error handler's own statement is lost. */
  predicate BillStatementFails(a: Action, p: nat, w: Runner) {
    || ((a.StoreCharge? || a.SettleBilled? || a.SaveResult? || a.ReleaseFailed? || a.FinalizeFailed?) && a.p == p &&
        a.fault == LostBefore)
    || (a.ReportSaving? && a.p == p && a.fault == LostBefore && w.kind == Background)
  }

  /**
   Once the model has answered for money, every failure leads to the reconciliation of that bill. A worker that cannot
   even do this lets the message come back when the bill may not be stored.
   */
  function AfterBillStatementFails(w: Runner): Phase {
    match w.phase
    case Answered(context, id, usage, _) => Settling(context, Some(id), usage, true)
    case Charged(context, id, charge) => Settling(context, Some(id), Some(charge), true)
    case Saving(context, id, charge) => Settling(context, Some(id), Some(charge), true)
    case Settling(_, _, _, guarded) => if guarded && w.kind == Background then Done(Redeliver) else OnAnError(w)
    case _ => Done(Redeliver)
  }

  lemma FailedSaving(s: State, p: nat, a: Action)
    requires p in s.runners && BillStatementFails(a, p, s.runners[p])
    requires a.StoreCharge? || a.ReportSaving? || a.SaveResult?
    ensures GoesOn(s, NextBill(s, a), p, AfterBillStatementFails(s.runners[p]))
  {
    hide Audit, Succeed, ProgressDb, ChargeDb;
  }

  lemma FailedHandling(s: State, p: nat, a: Action)
    requires p in s.runners && BillStatementFails(a, p, s.runners[p])
    requires a.SettleBilled? || a.ReleaseFailed? || a.FinalizeFailed?
    ensures GoesOn(s, NextBill(s, a), p, AfterBillStatementFails(s.runners[p]))
  {
    hide Audit, Terminate, SettleJob, ReleaseForRetry, IsClassifierCode;
  }

  lemma FailedBillStatement(s: State, p: nat, a: Action)
    requires p in s.runners && BillStatementFails(a, p, s.runners[p])
    ensures GoesOn(s, Next(s, a), p, AfterBillStatementFails(s.runners[p]))
  {
    hide NextClaim, NextCall, NextBill, NextRequest, NextPublish, GoesOn;
    if a.StoreCharge? || a.ReportSaving? || a.SaveResult? {
      FailedSaving(s, p, a);
    } else {
      FailedHandling(s, p, a);
    }
  }

  /** A worker's call that fails without a bill is an error like any other. */
  lemma WorkersHandleUnbilledErrors(s: State, p: nat)
    requires p in s.runners && s.runners[p].phase.Waiting? && s.runners[p].kind == Background
    ensures var t := Next(s, AnswerCall(p, UnbilledError));
            t.db == s.db && t.runners == s.runners[p := s.runners[p].(phase := Failing)]
  {
    hide Run;
    AnswerLeads(s, p, UnbilledError);
    RunOne(s, AnswerCall(p, UnbilledError));
  }
}
