/**
 What the protocol promises, over every run from a state that satisfies the invariant: money, bills, leases, calls.
 */
module Theorems {
  import opened Basics
  import opened JobRow
  import opened Ledger
  import opened Acceptance
  import opened Protocol
  import opened Invariant
  import opened Interference
  import opened Steps
  import opened StepLemmas
  import opened Safety

  // ----- one step, seen from one row or from the tables -----

  /** What any action of any process can do to a row. */
  ghost predicate RowMoves(before: Job, after: Job) {
    exists token :: RowStep(before, after, token)
  }

  lemma AnyStep(s: State, a: Action) returns (focus: JobId, window: Window, token: Option<Token>)
    requires Inv(s)
    ensures StepOk(s.db, Next(s, a).db, s.log, focus, window, token) && Inv(Next(s, a))
    ensures Remembers(s.db, s.log, Next(s, a).log)
  {
    hide Inv, Next, StepOk, Remembers;
    NextKeeps(s, a);
    focus, window, token :| StepOk(s.db, Next(s, a).db, s.log, focus, window, token);
  }

  lemma RowMoved(s: State, a: Action, j: JobId)
    requires Inv(s) && j in s.db.jobs
    ensures j in Next(s, a).db.jobs && RowMoves(s.db.jobs[j], Next(s, a).db.jobs[j]) && RowOk(s.db.jobs[j])
    ensures var after := Next(s, a).db.jobs[j];
            after.leaseToken.Some? && after.leaseToken != s.db.jobs[j].leaseToken ==>
              after.leaseToken.value !in TokensOf(s.log.granted, j)
    ensures TokensOf(s.log.granted, j) <= TokensOf(Next(s, a).log.granted, j)
  {
    hide Inv, Next, RowStep, RowOk, DbOk, RateOk, Balanced, Counted, WindowStep;
    var focus, window, token := AnyStep(s, a);
    RowOf(s, j);
    assert LeaseReady(s.db.jobs[j], Next(s, a).db.jobs[j], s.log, j, token);
  }

  lemma RowOf(s: State, j: JobId)
    requires Inv(s) && j in s.db.jobs
    ensures RowOk(s.db.jobs[j])
  {
    hide DbOk, RateOk, LogOk, CoverageOk, ReceivedOk, RunnersOk, SendsOk, PublishersOk, RowOk;
    RowHolds(s.db, j);
  }

  // ----- terminal rows, bills and acknowledged work -----

  lemma TerminalRowStays(before: Job, after: Job)
    requires RowMoves(before, after) && IsTerminal(before)
    ensures after == before
  {
  }

  lemma BilledRowStays(before: Job, after: Job)
    requires RowMoves(before, after) && HasBillingEvidence(before)
    ensures EvidenceOf(after) == EvidenceOf(before) && HasBillingEvidence(after)
  {
  }

  /** SUCCEEDED and FAILED rows never change again, in any column: settlement is write-once and nothing is revived. */
  lemma {:induction false} TerminalIsFinal(s: State, actions: seq<Action>, j: JobId)
    requires Inv(s) && j in s.db.jobs && IsTerminal(s.db.jobs[j])
    ensures j in Run(s, actions).db.jobs && Run(s, actions).db.jobs[j] == s.db.jobs[j]
    decreases |actions|
  {
    hide Inv, Next, RowMoves, RowOk, Advances;
    if actions != [] {
      RowMoved(s, actions[0], j);
      TerminalRowStays(s.db.jobs[j], Next(s, actions[0]).db.jobs[j]);
      NextHolds(s, actions[0]);
      TerminalIsFinal(Next(s, actions[0]), actions[1..], j);
    }
  }

  lemma NextHolds(s: State, a: Action)
    requires Inv(s)
    ensures Inv(Next(s, a))
  {
    hide Inv, Next, Lawful, Remembers;
    NextKeeps(s, a);
  }

  /** Once a request id or a usage is on a row, no later action of any process changes it. */
  lemma {:induction false} BillNeverChanges(s: State, actions: seq<Action>, j: JobId)
    requires Inv(s) && j in s.db.jobs && HasBillingEvidence(s.db.jobs[j])
    ensures j in Run(s, actions).db.jobs && EvidenceOf(Run(s, actions).db.jobs[j]) == EvidenceOf(s.db.jobs[j])
    decreases |actions|
  {
    hide Inv, Next, RowMoves, RowOk, HasBillingEvidence, EvidenceOf;
    if actions != [] {
      RowMoved(s, actions[0], j);
      BilledRowStays(s.db.jobs[j], Next(s, actions[0]).db.jobs[j]);
      NextHolds(s, actions[0]);
      BillNeverChanges(Next(s, actions[0]), actions[1..], j);
    }
  }

  /** The debit that an observer of the balances attributes to a job is what its row holds. */
  lemma DebitIsHeld(s: State, j: JobId)
    requires Inv(s) && j in s.db.jobs
    ensures DebitOf(s.log, j) == Held(s.db.jobs[j])
  {
    hide DbOk, RateOk, CoverageOk, ReceivedOk, RunnersOk, SendsOk, PublishersOk, Held, HasBillingEvidence, NoRepeats;
    assert LogAt(s.db.jobs[j], s.log, j, s.minted);
  }

  /**
   A stored charge is what the user pays: in every later state in which the job is settled, the net debit observed on
   the user's balance is the stored total. A charge of unknown usage is never settled at all.
   */
  lemma ChargeIsPaid(s: State, actions: seq<Action>, j: JobId)
    requires Reachable(s) && j in s.db.jobs && HasBillingEvidence(s.db.jobs[j])
    ensures var s' := Run(s, actions);
            j in s'.db.jobs &&
            (s'.db.jobs[j].tokensSettledAt.Some? ==>
               s.db.jobs[j].totalTokens.Some? && DebitOf(s'.log, j) == s.db.jobs[j].totalTokens.value)
  {
    hide Reachable, Inv, Run;
    ReachableIsSafe(s);
    RunKeeps(s, actions);
    BillNeverChanges(s, actions, j);
    DebitIsHeld(Run(s, actions), j);
    RowOf(Run(s, actions), j);
  }

  /**
   QUEUED and RUNNING are unsettled; an unsettled FAILED job waits for reconciliation; a retryable one cost nothing.
   */
  lemma RetryIsFree(s: State, j: JobId)
    requires Reachable(s) && j in s.db.jobs
    ensures var row := s.db.jobs[j];
            && (IsActive(row) ==> row.tokensSettledAt.None?)
            && (row.status == Succeeded ==> row.tokensSettledAt.Some?)
            && (row.status == Failed && row.tokensSettledAt.None? ==>
                  row.lastErrorCode == Some(ProviderReconciliationRequired) && !IsRetryable(row))
            && (IsRetryable(row) ==> row.tokensSettledAt.Some? && DebitOf(s.log, j) == 0)
  {
    hide Reachable, Inv, HasBillingEvidence;
    ReachableIsSafe(s);
    RowOf(s, j);
    DebitIsHeld(s, j);
  }

  /** tokensSettledAt is written at most once: a settled row never changes again. */
  lemma SettlementIsWriteOnce(s: State, actions: seq<Action>, j: JobId)
    requires Reachable(s) && j in s.db.jobs && s.db.jobs[j].tokensSettledAt.Some?
    ensures j in Run(s, actions).db.jobs && Run(s, actions).db.jobs[j] == s.db.jobs[j]
  {
    hide Inv, Run, Reachable, HasBillingEvidence;
    ReachableIsSafe(s);
    RowOf(s, j);
    TerminalIsFinal(s, actions, j);
  }

  lemma StatusMoves(before: Job, after: Job)
    requires RowMoves(before, after)
    ensures CanTransition(before.status, after.status)
  {
  }

  /** Every change of status, by whichever statement, is one that the table of transitions allows. */
  lemma StatusFollowsTheTable(s: State, a: Action, j: JobId)
    requires Reachable(s) && j in s.db.jobs
    ensures j in Next(s, a).db.jobs && CanTransition(s.db.jobs[j].status, Next(s, a).db.jobs[j].status)
  {
    hide Inv, Next, RowMoves, RowOk, Reachable, CanTransition;
    ReachableIsSafe(s);
    RowMoved(s, a, j);
    StatusMoves(s.db.jobs[j], Next(s, a).db.jobs[j]);
  }

  /** An acknowledged message's job has ended, and stays ended. */
  lemma FinishedMeansTerminal(s: State, p: nat, actions: seq<Action>)
    requires Reachable(s) && p in s.runners && s.runners[p].phase == Done(Finished)
    ensures var j := s.runners[p].job;
            j in s.db.jobs && IsTerminal(s.db.jobs[j]) && Run(s, actions).db.jobs.Keys >= {j} &&
              Run(s, actions).db.jobs[j] == s.db.jobs[j]
  {
    hide Reachable, Inv, TablesOk, RunnerWindowOk, Run;
    ReachableIsSafe(s);
    RunnerOf(s, p);
    TerminalIsFinal(s, actions, s.runners[p].job);
  }

  // ----- conservation -----

  /** Tokens held by the jobs `ids` of user `u`. */
  ghost function SumHeld(jobs: map<JobId, Job>, ids: set<JobId>, u: UserId): int
    requires ids <= jobs.Keys
  {
    if ids == {} then 0
    else
      var j :| j in ids;
      (if jobs[j].userId == u then Held(jobs[j]) else 0) + SumHeld(jobs, ids - {j}, u)
  }

  lemma {:induction false} SumHeldPick(jobs: map<JobId, Job>, ids: set<JobId>, u: UserId, x: JobId)
    requires ids <= jobs.Keys && x in ids
    ensures SumHeld(jobs, ids, u) == (if jobs[x].userId == u then Held(jobs[x]) else 0) + SumHeld(jobs, ids - {x}, u)
    decreases |ids|
  {
    hide Held;
    var j :| j in ids &&
      SumHeld(jobs, ids, u) == (if jobs[j].userId == u then Held(jobs[j]) else 0) + SumHeld(jobs, ids - {j}, u);
    if j != x {
      SumHeldPick(jobs, ids - {j}, u, x);
      SumHeldPick(jobs, ids - {x}, u, j);
      assert ids - {j} - {x} == ids - {x} - {j};
    }
  }

  /** A user's tokens: spendable ones, and those that jobs hold as reservations or as settled usage. */
  ghost function Total(db: Db, u: UserId): int
    requires u in db.balances
  {
    db.balances[u] + SumHeld(db.jobs, db.jobs.Keys, u)
  }

  lemma {:induction false} SumUnchanged(before: map<JobId, Job>, after: map<JobId, Job>, ids: set<JobId>, u: UserId)
    requires ids <= before.Keys && ids <= after.Keys
    requires forall j | j in ids :: Held(after[j]) == Held(before[j]) && after[j].userId == before[j].userId
    ensures SumHeld(after, ids, u) == SumHeld(before, ids, u)
    decreases |ids|
  {
    hide Held;
    if ids != {} {
      var j :| j in ids;
      SumHeldPick(before, ids, u, j);
      SumHeldPick(after, ids, u, j);
      SumUnchanged(before, after, ids - {j}, u);
    }
  }

  /** New rows hold nothing. */
  lemma {:induction false} SumOfFresh(jobs: map<JobId, Job>, known: set<JobId>, ids: set<JobId>, u: UserId)
    requires known <= ids <= jobs.Keys && forall j | j in ids - known :: Held(jobs[j]) == 0
    ensures SumHeld(jobs, ids, u) == SumHeld(jobs, known, u)
    decreases |ids|
  {
    hide Held;
    if ids != known {
      var j :| j in ids - known;
      SumHeldPick(jobs, ids, u, j);
      SumOfFresh(jobs, known, ids - {j}, u);
    }
  }

  lemma SumAfterStep(before: Db, after: Db, focus: JobId, token: Option<Token>, u: UserId)
    requires Guarantee(before, after, token) && Balanced(before, after, focus)
    ensures before.jobs.Keys <= after.jobs.Keys
    ensures SumHeld(after.jobs, before.jobs.Keys, u) ==
              SumHeld(before.jobs, before.jobs.Keys, u) + Drawn(before, after, focus, u)
  {
    hide Held, RowStep, IsFreshRow;
    GuaranteeCarries(before, after, token);
    var ids := before.jobs.Keys;
    if focus in ids {
      SumHeldPick(before.jobs, ids, u, focus);
      SumHeldPick(after.jobs, ids, u, focus);
      SumUnchanged(before.jobs, after.jobs, ids - {focus}, u);
    } else {
      SumUnchanged(before.jobs, after.jobs, ids, u);
    }
  }

  lemma TotalKept(before: Db, after: Db, focus: JobId, token: Option<Token>, u: UserId)
    requires Guarantee(before, after, token) && Balanced(before, after, focus) && u in before.balances
    ensures u in after.balances && Total(after, u) == Total(before, u)
  {
    hide Held, RowStep;
    SumAfterStep(before, after, focus, token, u);
    SumOfFresh(after.jobs, before.jobs.Keys, after.jobs.Keys, u);
  }

  lemma NextConserves(s: State, a: Action, u: UserId)
    requires Inv(s) && u in s.db.balances
    ensures u in Next(s, a).db.balances && Total(Next(s, a).db, u) == Total(s.db, u)
  {
    hide Inv, Next, DbOk, RateOk, LeasesReady, Counted, WindowStep, Guarantee, Balanced, Remembers, Total;
    var focus, window, token := AnyStep(s, a);
    TotalKept(s.db, Next(s, a).db, focus, token, u);
  }

  /** Over every interleaving and every crash, no token of any user is created or lost, and no balance is negative. */
  lemma {:induction false} TokensConserved(s: State, actions: seq<Action>, u: UserId)
    requires Inv(s) && u in s.db.balances
    ensures u in Run(s, actions).db.balances && Total(Run(s, actions).db, u) == Total(s.db, u)
    ensures Run(s, actions).db.balances[u] >= 0
    decreases |actions|
  {
    hide Inv, Next, Total;
    if actions == [] {
      BalanceOf(s, u);
    } else {
      NextConserves(s, actions[0], u);
      NextHolds(s, actions[0]);
      TokensConserved(Next(s, actions[0]), actions[1..], u);
    }
  }

  lemma BalanceOf(s: State, u: UserId)
    requires Inv(s) && u in s.db.balances
    ensures s.db.balances[u] >= 0
  {
    hide RowsOk, ReportsOk, OneActivePerRepository, OneJobPerKey, RateOk, LogOk, CoverageOk, ReceivedOk, RunnersOk,
      SendsOk, PublishersOk;
  }

  // ----- leases -----

  /** A lease token that a row once carried and carries no more. */
  ghost predicate LeaseGone(s: State, j: JobId, token: Token) {
    j in s.db.jobs && token in TokensOf(s.log.granted, j) && s.db.jobs[j].leaseToken != Some(token)
  }

  /** A lease token that has left its row never returns. */
  lemma {:induction false} LeaseNeverReturns(s: State, actions: seq<Action>, j: JobId, token: Token)
    requires Inv(s) && LeaseGone(s, j, token)
    ensures LeaseGone(Run(s, actions), j, token)
    decreases |actions|
  {
    hide Inv, Next, RowMoves, RowOk;
    if actions != [] {
      RowMoved(s, actions[0], j);
      NextHolds(s, actions[0]);
      LeaseNeverReturns(Next(s, actions[0]), actions[1..], j, token);
    }
  }

  /** A row carries a lease exactly while it is RUNNING, and every lease it carries has been recorded. */
  lemma LeaseIffRunning(s: State, j: JobId)
    requires Reachable(s) && j in s.db.jobs
    ensures s.db.jobs[j].status == Running <==> s.db.jobs[j].leaseToken.Some?
    ensures s.db.jobs[j].leaseToken.Some? ==> s.db.jobs[j].leaseToken.value in TokensOf(s.log.granted, j)
  {
    hide Reachable, DbOk, RateOk, CoverageOk, ReceivedOk, RunnersOk, SendsOk, PublishersOk, HasBillingEvidence, Held,
      NoRepeats;
    ReachableIsSafe(s);
    RowOf(s, j);
    assert LogAt(s.db.jobs[j], s.log, j, s.minted);
  }

  // ----- calls -----

  lemma {:induction false} DistinctSize(tokens: seq<Token>, within: set<Token>)
    requires NoRepeats(tokens) && forall t | t in tokens :: t in within
    ensures |tokens| <= |within|
  {
    if tokens != [] {
      var last := tokens[|tokens| - 1];
      DistinctSize(tokens[..|tokens| - 1], within - {last});
    }
  }

  /** Each request is recorded when it goes out, under the lease it goes out with. */
  lemma RequestsAreRecorded(s: State, p: nat)
    requires p in s.runners && s.runners[p].phase.Calling?
    ensures var w := s.runners[p]; CallsOf(Next(s, StartCall(p)).log, w.job) == CallsOf(s.log, w.job) + [w.token]
  {
    hide NextClaim, NextBill, NextRequest, NextPublish, Move;
  }

  /**
   Usage columns are all known or all unknown, and what is known adds up, in numbers that JavaScript holds exactly.
   */
  lemma StoredUsageAddsUp(s: State, j: JobId)
    requires Reachable(s) && j in s.db.jobs
    ensures var row := s.db.jobs[j];
            || (row.promptTokens.None? && row.completionTokens.None? && row.totalTokens.None?)
            || (&& row.promptTokens.Some? && row.completionTokens.Some? && row.totalTokens.Some?
                && row.totalTokens.value == row.promptTokens.value + row.completionTokens.value
                && 0 <= row.promptTokens.value <= row.totalTokens.value <= 9_007_199_254_740_991)
  {
    hide Reachable, Inv;
    ReachableIsSafe(s);
    RowOf(s, j);
  }

  /**
   Whatever was delivered, taken over or lost: at most one request per attempt was sent to the model, each under a
   lease of its own and each counted whether it was ever answered or not, and attempts are bounded. A synchronous run
   sends the one request that needs no attempt.
   */
  lemma CallsAreBounded(s: State, j: JobId)
    requires Reachable(s) && j in s.db.jobs
    ensures var row := s.db.jobs[j];
            && NoRepeats(CallsOf(s.log, j))
            && |CallsOf(s.log, j)| <= row.attemptCount + (if IsSyncJob(row) then 1 else 0)
            && row.attemptCount <= row.maxAttempts
  {
    hide Reachable, DbOk, RateOk, CoverageOk, ReceivedOk, RunnersOk, SendsOk, PublishersOk, HasBillingEvidence, Held;
    ReachableIsSafe(s);
    RowOf(s, j);
    assert LogAt(s.db.jobs[j], s.log, j, s.minted);
    DistinctSize(CallsOf(s.log, j), TokensOf(s.log.tickets, j));
  }

  /**
   Whoever is about to call holds a row without a bill, or no longer holds it, and has not called under this lease.
   */
  lemma CallersAreUnbilled(s: State, p: nat)
    requires Reachable(s) && p in s.runners
    requires (s.runners[p].phase.Preparing? || s.runners[p].phase.Reserved? || s.runners[p].phase.Calling?)
    ensures var w := s.runners[p];
            w.job in s.db.jobs && (Holds(s.db, w) ==> !HasBillingEvidence(s.db.jobs[w.job])) &&
              w.token !in CallsOf(s.log, w.job)
  {
    hide Reachable, Inv, TablesOk, RunnerWindowOk, HasBillingEvidence;
    ReachableIsSafe(s);
    RunnerOf(s, p);
  }
}
