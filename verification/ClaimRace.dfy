/** When a claim counts as a new attempt, and a run in which it does although the job is billed. */
module ClaimRace {
  import opened Basics
  import opened JobRow
  import opened JobStatements
  import opened WorkerStatements
  import opened Ledger
  import opened Protocol
  import opened Invariant
  import opened Safety
  import opened SingleSteps

  // ----- when a claim raises attemptCount -----

  /**
   A claim leaves attemptCount alone exactly when the row it was decided on was running and showed a bill. The row it
   meets does not matter: a bill that arrives between the read and the write is not seen.
   */
  lemma ClaimRaisesAttempts(db: Db, w: Runner, seen: Job, at: Time, expires: Time)
    requires ClaimStatement(db, w, seen, at, expires).Some?
    ensures w.job in db.jobs
    ensures var before := db.jobs[w.job];
            var after := ClaimStatement(db, w, seen, at, expires).value.jobs[w.job];
            && EvidenceOf(after) == EvidenceOf(before)
            && (after.attemptCount == before.attemptCount <==> seen.status != Queued && HasBillingEvidence(seen))
            && after.attemptCount <= before.attemptCount + 1
  {
    hide RowOk, RowStep, PublishUntouched, Held;
  }

  /**
   What a claim leaves on the row. All three take the lease; a takeover of a billed job takes nothing else. The others
   start a new attempt and clear the last error, keep the moment of the first start, and a queued job is no longer due.
   A lease is taken over only if it has ended and the row still shows it, and the attempts, as they were read.
   */
  lemma ClaimTakes(db: Db, w: Runner, seen: Job, at: Time, expires: Time)
    requires ClaimStatement(db, w, seen, at, expires).Some?
    ensures w.job in db.jobs
    ensures var row := db.jobs[w.job];
            var leased := row.(leaseToken := Some(w.token), leaseExpiresAt := Some(expires), updatedAt := at);
            var restarted :=
              leased.(attemptCount := row.attemptCount + 1, lastErrorCode := None, errorRetryable := None,
                                     startedAt := if row.startedAt.Some? then row.startedAt else Some(at));
            ClaimStatement(db, w, seen, at, expires).value == Put(db, w.job,
              if seen.status == Queued then restarted.(status := Running, nextPublishAt := None)
              else if HasBillingEvidence(seen) then leased else restarted)
    ensures var row := db.jobs[w.job];
            if seen.status == Queued then row.status == Queued
            else
              && row.status == Running && row.leaseToken.Some? && row.leaseToken == seen.leaseToken
              && row.leaseExpiresAt.Some? && row.leaseExpiresAt == seen.leaseExpiresAt && row.leaseExpiresAt.value <= at
              && row.attemptCount == seen.attemptCount
  {
    hide RowOk, RowStep, PublishUntouched, Held, HasBillingEvidence;
  }

  /**
   The decision on a row agrees with the statements: a claim is decided exactly when, nobody interfering, one of the
   three conditional updates would apply.
   */
  lemma ClaimIffPossible(db: Db, w: Runner, at: Time, expires: Time)
    requires w.job in db.jobs && RowOk(db.jobs[w.job])
    ensures ClaimDecision(db, w.job, at, expires).ClaimSeen? <==>
              ClaimStatement(db, w, db.jobs[w.job], at, expires).Some?
  {
    hide RowStep, PublishUntouched, Held, HasBillingEvidence;
  }

  /** A job that a worker may take: queued and due, or under an ended lease; billed, or with an attempt to spare. */
  predicate IsOpen(row: Job, now: Time) {
    || (row.status == Queued && row.attemptCount < row.maxAttempts &&
        (row.nextPublishAt.None? || row.nextPublishAt.value <= now))
    || (row.status == Running && row.leaseExpiresAt.Some? && row.leaseExpiresAt.value <= now &&
        (HasBillingEvidence(row) || row.attemptCount < row.maxAttempts))
  }

  /** A job on which all attempts are spent and nobody works: queued, or unbilled under an ended lease. */
  predicate IsSpent(row: Job, now: Time) {
    && row.attemptCount >= row.maxAttempts
    && (row.status == Queued ||
        (row.status == Running && row.leaseExpiresAt.Some? && row.leaseExpiresAt.value <= now &&
         !HasBillingEvidence(row)))
  }

  /**
   What a worker decides on the row of its message: without a row or with a terminal one there is nothing to do; an open
   job is claimed; a spent one is finalized; everything else comes back later.
   */
  lemma ClaimOutcomes(db: Db, id: JobId, now: Time, expires: Time)
    requires id in db.jobs ==> RowOk(db.jobs[id])
    ensures var decision := ClaimDecision(db, id, now, expires);
            && (decision == Done(Missing) <==> id !in db.jobs)
            && (decision == Done(Finished) <==> id in db.jobs && IsTerminal(db.jobs[id]))
            && (decision.ClaimSeen? <==> id in db.jobs && IsOpen(db.jobs[id], now))
            && (decision.ClaimSeen? ==> decision == ClaimSeen(db.jobs[id], now, expires))
            && (decision.AtLimit? <==> id in db.jobs && IsSpent(db.jobs[id], now))
            && (decision.AtLimit? ==> decision == AtLimit(db.jobs[id]))
            && (decision == Done(Redeliver) <==>
                  id in db.jobs && IsActive(db.jobs[id]) && !IsOpen(db.jobs[id], now) && !IsSpent(db.jobs[id], now))
  {
    hide HasBillingEvidence;
  }

  /**
   What it decides on the row it reads after losing the race for it: it never claims a second time, and finalizes a job
   with no attempts left unless that is due later or under a live lease.
   */
  lemma RaceOutcomes(db: Db, id: JobId, now: Time)
    requires id in db.jobs ==> RowOk(db.jobs[id])
    ensures var decision := RaceDecision(db, id, now);
            && (decision == Done(Missing) <==> id !in db.jobs)
            && (decision == Done(Finished) <==> id in db.jobs && IsTerminal(db.jobs[id]))
            && (decision.AtLimit? <==>
                  && id in db.jobs && IsActive(db.jobs[id]) && db.jobs[id].attemptCount >= db.jobs[id].maxAttempts
                  && (db.jobs[id].nextPublishAt.None? || db.jobs[id].nextPublishAt.value <= now)
                  && (db.jobs[id].leaseExpiresAt.None? || db.jobs[id].leaseExpiresAt.value <= now ||
                      db.jobs[id].status == Queued))
            && (decision.AtLimit? ==> decision == AtLimit(db.jobs[id]))
            && (!decision.AtLimit? && id in db.jobs && IsActive(db.jobs[id]) ==> decision == Done(Redeliver))
  {
    hide HasBillingEvidence;
  }

  // ----- the worker that is overtaken -----

  /** A row that a background worker holds and may call the model for. */
  predicate Callable(row: Job, token: Token) {
    && row.status == Running && row.leaseToken == Some(token) && !HasBillingEvidence(row) && row.version == Current
    && row.tokensSettledAt.None? && row.reservedTokens.None?
  }

  function EnteredRow(claimed: Job, token: Token, at: Time): Option<Job> {
    UpdateProgress(claimed, token, at, at + 1)
  }

  function ReservedRow(claimed: Job, token: Token, required: int, at: Time): Option<Job> {
    var entered := EnteredRow(claimed, token, at);
    if entered.None? then None else ReserveTokens(entered.value, token, entered.value, required, required, at)
  }

  /** The row while the request is out: reserved, unbilled, with a lease that ends at `at + 1`. */
  function CalledRow(claimed: Job, token: Token, required: int, at: Time): Option<Job> {
    var reserved := ReservedRow(claimed, token, required, at);
    if reserved.None? then None else UpdateProgress(reserved.value, token, at, at + 1)
  }

  lemma RowsOfTheCall(claimed: Job, token: Token, required: int, at: Time)
    requires Callable(claimed, token) && 0 <= required
    ensures EnteredRow(claimed, token, at).Some? && Callable(EnteredRow(claimed, token, at).value, token)
    ensures EnteredRow(claimed, token, at).value.userId == claimed.userId
    ensures ReservedRow(claimed, token, required, at).Some? && CalledRow(claimed, token, required, at).Some?
    ensures var called := CalledRow(claimed, token, required, at).value;
            && called.status == Running && called.leaseToken == Some(token) && called.leaseExpiresAt == Some(at + 1)
            && !HasBillingEvidence(called) && called.reservedTokens == Some(required)
            && called.attemptCount == claimed.attemptCount && called.maxAttempts == claimed.maxAttempts
            && called.tokensSettledAt.None? && called.completedAt == claimed.completedAt
            && called.userId == claimed.userId && called.repositoryId == claimed.repositoryId
  {
    hide RowOk, RowStep, PublishUntouched, Held;
  }

  function ReserveActions(p: nat, required: int, at: Time): seq<Action> {
    [ReadCheckpoint(p, NoFault)] + [FinishCollection(p, at, at + 1, NoFault, false)] + [EnterAnalysis(p, NoFault)]
    + [ReserveOrReuse(p, required, required, at, NoFault)]
  }

  lemma WorkerReserves(s: State, p: nat, required: int, at: Time)
    requires p in s.runners && s.runners[p].phase.Holding? && s.runners[p].job in s.db.jobs && 0 <= required
    requires var row := s.db.jobs[s.runners[p].job];
             Callable(row, s.runners[p].token) && row.userId in s.db.balances && s.db.balances[row.userId] >= required
    ensures var w := s.runners[p];
            var claimed := s.db.jobs[w.job];
            var context := EnteredRow(claimed, w.token, at);
            var t := Run(s, ReserveActions(p, required, at));
            && context.Some? && ReservedRow(claimed, w.token, required, at).Some?
            && t.db == s.db.(jobs := s.db.jobs[w.job := ReservedRow(claimed, w.token, required, at).value],
                             balances := s.db.balances[claimed.userId := s.db.balances[claimed.userId] - required])
            && t.runners == s.runners[p := w.(phase := Reserved(context.value.(reservedTokens := Some(required))))]
            && t.minted == s.minted
  {
    hide Next, Run, HasBillingEvidence, UpdateProgress, ReserveTokens;
    var w := s.runners[p];
    var claimed := s.db.jobs[w.job];
    RowsOfTheCall(claimed, w.token, required, at);
    var context := EnteredRow(claimed, w.token, at).value;
    var one := [ReadCheckpoint(p, NoFault)];
    RunOne(s, one[0]);
    CheckpointMoves(s, p);
    RunStep(s, one, FinishCollection(p, at, at + 1, NoFault, false));
    FinishMoves(Run(s, one), p, at, at + 1);
    var two := one + [FinishCollection(p, at, at + 1, NoFault, false)];
    RunStep(s, two, EnterAnalysis(p, NoFault));
    EnterMoves(Run(s, two), p);
    var three := two + [EnterAnalysis(p, NoFault)];
    RunStep(s, three, ReserveOrReuse(p, required, required, at, NoFault));
    ReserveMoves(Run(s, three), p, required, at);
    Overwritten(s.db.jobs, w.job, context, ReservedRow(claimed, w.token, required, at).value);
    Overwritten(s.runners, p, w.(phase := Collecting), w.(phase := Entering));
    Overwritten(s.runners, p, w.(phase := Entering), w.(phase := Preparing(context)));
    Overwritten(s.runners, p, w.(phase := Preparing(context)),
                w.(phase := Reserved(context.(reservedTokens := Some(required)))));
  }

  function CallActions(p: nat, at: Time, requestId: RequestId, usage: Usage): seq<Action> {
    [ReportReserved(p, at, at + 1, NoFault)] + [StartCall(p)] + [AnswerCall(p, Response(requestId, usage))]
  }

  lemma WorkerCalls(s: State, p: nat, at: Time, requestId: RequestId, usage: Usage)
    requires p in s.runners && s.runners[p].phase.Reserved? && s.runners[p].kind == Background
    requires s.runners[p].job in s.db.jobs
    requires UpdateProgress(s.db.jobs[s.runners[p].job], s.runners[p].token, at, at + 1).Some? && IsValidUsage(usage)
    ensures var w := s.runners[p];
            var t := Run(s, CallActions(p, at, requestId, usage));
            && t.db == Put(s.db, w.job, UpdateProgress(s.db.jobs[w.job], w.token, at, at + 1).value)
            && t.runners == s.runners[p := w.(phase := Answered(w.phase.context, requestId, Some(usage), true))]
            && t.minted == s.minted
  {
    hide Next, Run, UpdateProgress, IsValidUsage;
    var w := s.runners[p];
    var one := [ReportReserved(p, at, at + 1, NoFault)];
    RunOne(s, one[0]);
    ReportMoves(s, p, at, at + 1);
    RunStep(s, one, StartCall(p));
    StartMoves(Run(s, one), p);
    var two := one + [StartCall(p)];
    RunStep(s, two, AnswerCall(p, Response(requestId, usage)));
    AnswerMoves(Run(s, two), p, requestId, usage);
    Overwritten(s.runners, p, w.(phase := Calling(w.phase.context)), w.(phase := Waiting(w.phase.context)));
    Overwritten(s.runners, p, w.(phase := Waiting(w.phase.context)),
                w.(phase := Answered(w.phase.context, requestId, Some(usage), true)));
  }

  /** Another worker reads the row as unbilled; the first one stores its charge; the other one's claim then applies. */
  function OvertakeActions(p: nat, other: nat, j: JobId, taker: Token, at: Time): seq<Action> {
    [ReceiveMessage(other, j, taker, 1)] + [ReadForClaim(other, at, at + 1, NoFault)]
      + [StoreCharge(p, at, NoFault, false)]
    + [WriteClaim(other, NoFault)]
  }

  /** The expired lease of an unbilled row with an attempt to spare. */
  predicate Overtakable(row: Job, token: Token, at: Time) {
    && row.status == Running && row.leaseToken == Some(token) && row.leaseExpiresAt == Some(at)
    && !HasBillingEvidence(row)
    && row.attemptCount < row.maxAttempts && row.completedAt.None? && row.tokensSettledAt.None?
  }

  lemma RowsOfTheRace(db: Db, p: Runner, other: Runner, context: Job, requestId: RequestId, usage: Option<Usage>,
                      at: Time)
    requires p.job == other.job && p.job in db.jobs && Overtakable(db.jobs[p.job], p.token, at)
    requires var row := db.jobs[p.job];
             row.userId == context.userId && row.repositoryId == context.repositoryId &&
               row.reservedTokens == context.reservedTokens
    ensures var row := db.jobs[p.job];
            var charged := ChargeDb(db, p, context, requestId, usage, at);
            && ClaimDecision(db, other.job, at, at + 1) == ClaimSeen(row, at, at + 1)
            && charged.Some? && p.job in charged.value.jobs
            && EvidenceOf(charged.value.jobs[p.job]) == Billed(Some(requestId), usage)
            && var claimed := ClaimStatement(charged.value, other, row, at, at + 1);
            && claimed.Some? && p.job in claimed.value.jobs
            && EvidenceOf(claimed.value.jobs[p.job]) == Billed(Some(requestId), usage)
            && claimed.value.jobs[p.job].attemptCount == row.attemptCount + 1
            && claimed.value.jobs[p.job].leaseToken == Some(other.token)
  {
    hide RowOk, RowStep, PublishUntouched, Held;
  }

  lemma TakerOvertakes(s: State, p: nat, other: nat, taker: Token, at: Time)
    requires p in s.runners && s.runners[p].phase.Answered? && s.runners[p].job in s.db.jobs
    requires other !in s.runners && taker !in s.minted
    requires Overtakable(s.db.jobs[s.runners[p].job], s.runners[p].token, at)
    requires var row, context := s.db.jobs[s.runners[p].job], s.runners[p].phase.context;
             row.userId == context.userId && row.repositoryId == context.repositoryId &&
               row.reservedTokens == context.reservedTokens
    ensures var w := s.runners[p];
            var t := Run(s, OvertakeActions(p, other, w.job, taker, at));
            && w.job in t.db.jobs && EvidenceOf(t.db.jobs[w.job]) == Billed(Some(w.phase.requestId), w.phase.usage)
            && t.db.jobs[w.job].attemptCount == s.db.jobs[w.job].attemptCount + 1
            && t.db.jobs[w.job].leaseToken == Some(taker)
  {
    hide Next, Run, Overtakable, ClaimDecision, ClaimStatement, ChargeDb, ChargedDecision, EvidenceOf, Billed;
    var w := s.runners[p];
    var ph := w.phase;
    var row := s.db.jobs[w.job];
    var u := NewWorker(w.job, taker);
    RowsOfTheRace(s.db, w, u, ph.context, ph.requestId, ph.usage, at);
    var one := [ReceiveMessage(other, w.job, taker, 1)];
    RunOne(s, one[0]);
    ReceiveMoves(s, other, w.job, taker, 1);
    RunStep(s, one, ReadForClaim(other, at, at + 1, NoFault));
    ReadMoves(Run(s, one), other, at, at + 1);
    var two := one + [ReadForClaim(other, at, at + 1, NoFault)];
    RunStep(s, two, StoreCharge(p, at, NoFault, false));
    StoreMoves(Run(s, two), p, at);
    var three := two + [StoreCharge(p, at, NoFault, false)];
    var seen := u.(phase := ClaimSeen(row, at, at + 1));
    RowsOfTheRace(s.db, w, seen, ph.context, ph.requestId, ph.usage, at);
    assert Run(s, three).runners[other] == seen;
    RunStep(s, three, WriteClaim(other, NoFault));
    ClaimMoves(Run(s, three), other);
  }

  function BilledClaimActions(p: nat, other: nat, j: JobId, token: Token, taker: Token, required: int, at: Time,
                              requestId: RequestId, usage: Usage): seq<Action> {
    ClaimActions(p, j, token, at) + ReserveActions(p, required, at) + CallActions(p, at, requestId, usage)
    + OvertakeActions(p, other, j, taker, at + 1)
  }

  /** A job that a worker may claim and call the model for, and that its user can pay. */
  predicate ReadyToCall(s: State, j: JobId, required: int, at: Time) {
    && j in s.db.jobs && Claimable(s.db.jobs[j], at) && s.db.jobs[j].version == Current
    && s.db.jobs[j].reservedTokens.None? && 0 <= required
    && s.db.jobs[j].userId in s.db.balances && s.db.balances[s.db.jobs[j].userId] >= required
  }

  lemma ClaimedForTheCall(row: Job, token: Token, at: Time)
    requires Claimable(row, at) && row.version == Current && row.reservedTokens.None?
    requires ClaimQueued(row, token, at, at + 1).Some?
    ensures var claimed := ClaimQueued(row, token, at, at + 1).value;
            && Callable(claimed, token) && claimed.userId == row.userId && claimed.attemptCount == row.attemptCount + 1
            && claimed.attemptCount < claimed.maxAttempts && claimed.completedAt.None?
            && claimed.sourceCursor == row.sourceCursor && claimed.collectionCutoff == row.collectionCutoff
  {
    QueuedRow(row);
    hide RowOk, RowStep, PublishUntouched, Held;
  }

  /** The worker has reserved and called, and the model has answered; its lease ends at `at + 1`. */
  lemma ClaimedAndCalled(s: State, p: nat, j: JobId, token: Token, required: int, at: Time, requestId: RequestId,
                         usage: Usage)
    requires p !in s.runners && token !in s.minted && ReadyToCall(s, j, required, at) && IsValidUsage(usage)
    ensures var t := Run(s,
                         ClaimActions(p, j, token, at) + ReserveActions(p, required, at)
                           + CallActions(p, at, requestId, usage));
            && p in t.runners && t.runners.Keys == s.runners.Keys + {p} && t.minted == s.minted + {token}
            && t.runners[p].job == j && t.runners[p].token == token
            && t.runners[p].phase.Answered? && t.runners[p].phase.requestId == requestId
            && t.runners[p].phase.usage == Some(usage) && t.runners[p].phase.usable
            && t.runners[p].kind == Background
            && t.runners[p].window == Window(s.db.jobs[j].sourceCursor, s.db.jobs[j].collectionCutoff)
            && j in t.db.jobs && Overtakable(t.db.jobs[j], token, at + 1)
            && t.db.jobs[j].reservedTokens == Some(required)
            && t.db == s.db.(jobs := s.db.jobs[j := t.db.jobs[j]],
                             balances := s.db.balances[s.db.jobs[j].userId :=
                               s.db.balances[s.db.jobs[j].userId] - required])
            && t.db.jobs[j].attemptCount == s.db.jobs[j].attemptCount + 1
            && t.db.jobs[j].userId == t.runners[p].phase.context.userId
            && t.db.jobs[j].repositoryId == t.runners[p].phase.context.repositoryId
            && t.db.jobs[j].reservedTokens == t.runners[p].phase.context.reservedTokens
  {
    hide Next, Run, Claimable, ClaimQueued, Callable, IsValidUsage, RowOk, HasBillingEvidence, ClaimActions,
      ReserveActions, CallActions, EnteredRow, UpdateProgress, ReserveTokens;
    var row := s.db.jobs[j];
    WorkerClaims(s, p, j, token, at);
    var claimed := ClaimQueued(row, token, at, at + 1).value;
    ClaimedForTheCall(row, token, at);
    var one := ClaimActions(p, j, token, at);
    assert Run(s, one).db.jobs[j] == claimed && Run(s, one).runners[p] == HoldingRunner(NewWorker(j, token), claimed);
    WorkerReserves(Run(s, one), p, required, at);
    RunThen(s, one, ReserveActions(p, required, at));
    var two := one + ReserveActions(p, required, at);
    RowsOfTheCall(claimed, token, required, at);
    WorkerCalls(Run(s, two), p, at, requestId, usage);
    RunThen(s, two, CallActions(p, at, requestId, usage));
    EnteredKeepsOwner(claimed, token, at);
    Overwritten(s.db.jobs, j, claimed, Run(s, two).db.jobs[j]);
    Overwritten(s.db.jobs, j, Run(s, two).db.jobs[j], CalledRow(claimed, token, required, at).value);
  }

  lemma EnteredKeepsOwner(claimed: Job, token: Token, at: Time)
    requires EnteredRow(claimed, token, at).Some?
    ensures var entered := EnteredRow(claimed, token, at).value;
            entered.userId == claimed.userId && entered.repositoryId == claimed.repositoryId
  {
    hide RowOk, RowStep, PublishUntouched, Held;
  }

  /**
   A bill does not keep attemptCount from rising. From any state with a job that a worker can claim and call for, this
   run ends with the job billed for the only call made and claimed for a second attempt: the other worker reads the row
   before the first one stores its charge, and its claim meets the billed row.
   */
  lemma BilledJobIsClaimedAgain(s: State, p: nat, other: nat, j: JobId, token: Token, taker: Token, required: int,
                                at: Time, requestId: RequestId, usage: Usage)
    requires p !in s.runners && other !in s.runners && p != other
    requires token !in s.minted && taker !in s.minted && token != taker
    requires ReadyToCall(s, j, required, at) && IsValidUsage(usage)
    ensures var t := Run(s, BilledClaimActions(p, other, j, token, taker, required, at, requestId, usage));
            && j in t.db.jobs && EvidenceOf(t.db.jobs[j]) == Billed(Some(requestId), Some(usage))
            && t.db.jobs[j].attemptCount == s.db.jobs[j].attemptCount + 2
            && t.db.jobs[j].leaseToken == Some(taker)
  {
    hide Next, Run, ReadyToCall, Overtakable, ClaimActions, ReserveActions, CallActions, OvertakeActions, EvidenceOf,
      Billed;
    ClaimedAndCalled(s, p, j, token, required, at, requestId, usage);
    var first := ClaimActions(p, j, token, at) + ReserveActions(p, required, at) + CallActions(p, at, requestId, usage);
    TakerOvertakes(Run(s, first), p, other, taker, at + 1);
    RunThen(s, first, OvertakeActions(p, other, j, taker, at + 1));
  }

  /** The whole run, from the request on. */
  function BilledClaim(user: UserId, repository: RepositoryId, j: JobId, now: Time, requestId: RequestId,
                       usage: Usage): seq<Action> {
    [AcceptCreate(user, 0, repository, j, Current, now)] + BilledClaimActions(0, 1, j, 0, 1, 0, now, requestId, usage)
  }

  predicate BilledOnceClaimedTwice(s: State, j: JobId, requestId: RequestId, usage: Usage) {
    j in s.db.jobs && EvidenceOf(s.db.jobs[j]) == Billed(Some(requestId), Some(usage)) && s.db.jobs[j].attemptCount == 2
  }

  /** The run exists: it starts with an empty job table. */
  lemma BilledClaimIsReachable(s: State, user: UserId, repository: RepositoryId, j: JobId, now: Time,
                               requestId: RequestId, usage: Usage)
    requires Initial(s) && CanRequest(s, user, repository) && IsValidUsage(usage)
    ensures var t := Run(s, BilledClaim(user, repository, j, now, requestId, usage));
            Reachable(t) && BilledOnceClaimedTwice(t, j, requestId, usage)
  {
    hide Next, Run, Initial, BilledClaimActions, EvidenceOf, Billed, IsValidUsage, RowOk;
    AcceptedJob(s, user, repository, j, now);
    var first := [AcceptCreate(user, 0, repository, j, Current, now)];
    BilledJobIsClaimedAgain(Run(s, first), 0, 1, j, 0, 1, 0, now, requestId, usage);
    RunThen(s, first, BilledClaimActions(0, 1, j, 0, 1, 0, now, requestId, usage));
  }
}
