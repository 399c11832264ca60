/**
 The job protocol as a state machine. One action is one database statement or transaction of one process; processes are
 workers, synchronous runners, publishers, acceptors and the recovery inside acceptance. A process may stop for ever
 after any action, and any statement may fail, or commit and lose its acknowledgement.
 Sources: analysis-worker.service.ts, analysis.service.ts, analysis-job-publisher.service.ts, collection.service.ts.
 */
module Protocol {
  import opened Basics
  import opened JobRow
  import opened JobStatements
  import opened WorkerStatements
  import opened PublishStatements
  import opened StatService
  import opened Ledger
  import opened Transactions
  import opened Acceptance

  // -----------------------------------------------------------------
  // Processes
  // -----------------------------------------------------------------

  datatype Kind = Background | Sync

  /** The half-open collection window (from, until]; no `from` means from the beginning. */
  datatype Window = Window(from: Option<Time>, until: Time)

  /** How handling a message, or a synchronous run, ended. Finished and Missing acknowledge the message. */
  datatype Outcome = Finished | Missing | Redeliver | Threw

  /** Where a runner is, and what it remembers; `context` is the row its last fenced read returned. */
  datatype Phase =
    | Started
    | ClaimSeen(seen: Job, at: Time, expires: Time)
    | RaceLost(at: Time)
    | AtLimit(seen: Job)
    | Leased
    | Holding
    | Collecting
    | Entering
    | Recovering(context: Job, termination: Termination)
    | Preparing(context: Job)
    | OutOfTokens(context: Job)
    | Reserved(context: Job)
    | Calling(context: Job)
    | Waiting(context: Job)
    | CallFailed(context: Job)
    | Answered(context: Job, requestId: RequestId, usage: Option<Usage>, usable: bool)
    | Settling(context: Job, billedId: Option<RequestId>, billedUsage: Option<Usage>, guarded: bool)
    | Charged(context: Job, requestId: RequestId, charge: Usage)
    | Saving(context: Job, requestId: RequestId, charge: Usage)
    | Failing
    | SyncCollected(userId: UserId, repositoryId: RepositoryId)
    | SyncQueued
    | Done(outcome: Outcome)

  /** A worker handling one message, or one synchronous run. `attempt` and `limit` come from the claimed row. */
  datatype Runner = Runner(
    kind: Kind,
    job: JobId,
    token: Token,
    receiveCount: nat,
    attempt: nat,
    limit: nat,
    window: Window,
    phase: Phase)

  datatype PublisherPhase =
    | Loaded
    | Sending(attempt: nat, claimedNextPublishAt: Time, uncertain: bool, at: Time)
    | Sent(attempt: nat, claimedNextPublishAt: Time, at: Time)
    | Refused(attempt: nat, claimedNextPublishAt: Time, uncertain: bool, at: Time)
    | Idle

  datatype Publisher = Publisher(job: JobId, seen: Job, allowRepublish: bool, phase: PublisherPhase)

  datatype Send = Send(job: JobId, attempt: nat)

  datatype SendState = InFlight | Delivered | Rejected | Unknown

  // -----------------------------------------------------------------
  // History
  // -----------------------------------------------------------------

  /**
   What an observer of the whole run writes down. No process reads it.
   granted: lease tokens a row ever carried. tickets: tokens whose claim raised attemptCount, and those of synchronous
   runs. calls: tokens under which a request to the model went out, in order. debits: net tokens taken from the user for
   the job. finished: the window of each job that ended SUCCEEDED or NO_ANALYZABLE_DATA. sends: each queue send and its
   outcome. received: jobs of which a message was delivered.
   baseline: lastSyncTime of each repository when the observation began.
   */
  datatype Log = Log(
    granted: map<JobId, set<Token>>,
    tickets: map<JobId, set<Token>>,
    calls: map<JobId, seq<Token>>,
    debits: map<JobId, int>,
    finished: map<JobId, Window>,
    sends: map<Send, SendState>,
    received: set<JobId>,
    baseline: map<RepositoryId, Option<Time>>)

  function TokensOf(m: map<JobId, set<Token>>, j: JobId): set<Token> {
    if j in m then m[j] else {}
  }

  function CallsOf(log: Log, j: JobId): seq<Token> {
    if j in log.calls then log.calls[j] else []
  }

  function DebitOf(log: Log, j: JobId): int {
    if j in log.debits then log.debits[j] else 0
  }

  function LeaseOf(job: Job): set<Token> {
    if job.leaseToken.Some? then {job.leaseToken.value} else {}
  }

  /** The job ended with its window collected. */
  predicate EndedCollected(job: Job) {
    job.status == Succeeded || (job.status == Failed && job.lastErrorCode == Some(NoAnalyzableData))
  }

  predicate RaisesAttempt(before: Db, after: Db, j: JobId) {
    j in before.jobs && j in after.jobs && after.jobs[j].attemptCount > before.jobs[j].attemptCount
  }

  /** How far the balance of the focus job's user fell in the step. */
  function BalanceDrop(before: Db, after: Db, focus: JobId): int {
    if focus in before.jobs && before.jobs[focus].userId in before.balances &&
      before.jobs[focus].userId in after.balances
    then before.balances[before.jobs[focus].userId] - after.balances[before.jobs[focus].userId]
    else 0
  }

  /** The observer compares the database before and after a step of a process working on job `focus`. */
  function Audit(log: Log, before: Db, after: Db, focus: JobId, window: Window): Log {
    log.(
      granted := map j | j in after.jobs :: TokensOf(log.granted, j) + LeaseOf(after.jobs[j]),
      tickets := map j | j in after.jobs ::
        TokensOf(log.tickets, j) + (if RaisesAttempt(before, after, j) then LeaseOf(after.jobs[j]) else {}),
      debits := map j | j in after.jobs ::
        DebitOf(log, j) + (if j == focus then BalanceDrop(before, after, focus) else 0),
      finished :=
        if focus in before.jobs && focus in after.jobs && IsActive(before.jobs[focus]) &&
          EndedCollected(after.jobs[focus])
        then log.finished[focus := window] else log.finished)
  }

  datatype State = State(
    db: Db,
    runners: map<nat, Runner>,
    publishers: map<nat, Publisher>,
    minted: set<Token>,
    settings: PublishSettings,
    log: Log)

  // -----------------------------------------------------------------
  // Steps
  // -----------------------------------------------------------------

  datatype Fault = NoFault | LostBefore | LostAfter

  /** Runner `p` becomes `w` while the database becomes `after`. */
  function Move(s: State, p: nat, w: Runner, after: Db): State {
    s.(db := after, runners := s.runners[p := w], log := Audit(s.log, s.db, after, w.job, w.window))
  }

  /** A read, or a local step. */
  function Become(s: State, p: nat, w: Runner): State {
    Move(s, p, w, s.db)
  }

  /** One statement or transaction: `None` when it matched nothing or was rolled back. */
  function Write(s: State, p: nat, result: Option<Db>, fault: Fault, success: Phase, failure: Phase): State
    requires p in s.runners
  {
    var after := if fault == LostBefore || result.None? then s.db else result.value;
    var phase := if fault == NoFault && result.Some? then success else failure;
    Move(s, p, s.runners[p].(phase := phase), after)
  }

  function PutRow(db: Db, id: JobId, row: Option<Job>): Option<Db> {
    if row.None? then None else Some(Put(db, id, row.value))
  }

  /** Leases are held by whoever carries the row's token. */
  predicate Holds(db: Db, w: Runner) {
    w.job in db.jobs && db.jobs[w.job].leaseToken == Some(w.token)
  }

  // ----- claim -----

  /** claim's decision on the row it read. */
  function ClaimDecision(db: Db, id: JobId, now: Time, expires: Time): Phase {
    if id !in db.jobs then Done(Missing)
    else
      var current := db.jobs[id];
      if IsTerminal(current) then Done(Finished)
      else if current.status == Queued then
        if current.attemptCount >= current.maxAttempts then AtLimit(current)
        else if current.completedAt.Some? || current.tokensSettledAt.Some? then Done(Finished)
        else if current.nextPublishAt.Some? && current.nextPublishAt.value > now then Done(Redeliver)
        else ClaimSeen(current, now, expires)
      else if current.leaseExpiresAt.Some? && current.leaseExpiresAt.value > now then Done(Redeliver)
      else if current.leaseToken.None? || current.leaseExpiresAt.None? then Done(Redeliver)
      else if HasBillingEvidence(current) then ClaimSeen(current, now, expires)
      else if current.attemptCount >= current.maxAttempts then AtLimit(current)
      else ClaimSeen(current, now, expires)
  }

  /** The conditional update that the row read calls for. */
  function ClaimStatement(db: Db, w: Runner, seen: Job, at: Time, expires: Time): Option<Db> {
    if w.job !in db.jobs then None
    else
      var row := db.jobs[w.job];
      PutRow(db, w.job,
        if seen.status == Queued then ClaimQueued(row, w.token, at, expires)
        else if HasBillingEvidence(seen) then TakeOverExpiredBilledLease(row, seen, w.token, at, expires)
        else TakeOverExpiredLease(row, seen, w.token, at, expires))
  }

  /** resolveClaimRace. */
  function RaceDecision(db: Db, id: JobId, now: Time): Phase {
    if id !in db.jobs then Done(Missing)
    else
      var current := db.jobs[id];
      if IsTerminal(current) then Done(Finished)
      else if current.nextPublishAt.Some? && current.nextPublishAt.value > now then Done(Redeliver)
      else if current.status == Running && current.leaseExpiresAt.Some? && current.leaseExpiresAt.value > now then
        Done(Redeliver)
      else if current.attemptCount >= current.maxAttempts then AtLimit(current)
      else Done(Redeliver)
  }

  // ----- the runner's reads of its own lease -----

  /** reconcileProviderCheckpoint and retireLegacyExecution on the row just read. */
  function CheckpointDecision(row: Job, otherwise: Phase): Phase {
    if HasBillingEvidence(row) then
      Recovering(row, Reconciliation(row, CheckpointId(row), CheckpointUsage(row)))
    else if row.version == Retired then
      Recovering(row, Unbilled(row, UnsupportedAnalysisVersion, NoCompletion))
    else otherwise
  }

  function CheckpointId(row: Job): Option<RequestId> {
    if |row.providerRequestIds| == 1 then Some(row.providerRequestIds[0]) else None
  }

  function CheckpointUsage(row: Job): Option<Usage> {
    if UsageKnown(row)
    then Some(Usage(row.promptTokens.value, row.completionTokens.value, row.totalTokens.value))
    else None
  }

  function CompletionOf(w: Runner): Completion {
    match w.kind
    case Background => WorkerCheckpoint(w.window.until)
    case Sync => SyncCheckpoint(w.window.until)
  }

  /** Where an error sends the runner: handleClaimedFailure, or out of the synchronous request. */
  function OnError(kind: Kind): Phase {
    if kind == Background then Failing else Done(Threw)
  }

  /** What the provider call came back with. */
  datatype Answer =
    | Response(requestId: RequestId, usage: Usage)
    | BilledError(billedId: Option<RequestId>, billedUsage: Option<Usage>)
    | UnbilledError

  /** getValidTokenUsageOrNull. */
  function ValidUsageOrNone(usage: Option<Usage>): Option<Usage> {
    if usage.Some? && IsValidUsage(usage.value) then usage else None
  }

  function AnswerDecision(w: Runner, context: Job, answer: Answer): Phase {
    match answer
    case Response(id, usage) =>
      if IsValidUsage(usage) then Answered(context, id, Some(usage), true) else Settling(context, Some(id), None, false)
    case BilledError(id, usage) =>
      if id.None? then Settling(context, None, ValidUsageOrNone(usage), true)
      else Answered(context, id.value, ValidUsageOrNone(usage), false)
    case UnbilledError =>
      if w.kind == Background then Failing else CallFailed(context)
  }

  /** After the charge is stored: reconcile an error or an overrun, else go on to save. */
  function ChargedDecision(context: Job, requestId: RequestId, usage: Option<Usage>, usable: bool,
                           metricsFail: bool): Phase {
    if !usable || usage.None? then Settling(context, Some(requestId), usage, true)
    else if metricsFail || context.reservedTokens.None? || usage.value.totalTokens > context.reservedTokens.value
    then Settling(context, Some(requestId), usage, false)
    else Charged(context, requestId, usage.value)
  }

  // -----------------------------------------------------------------
  // Actions
  // -----------------------------------------------------------------

  datatype Action =
    | ReceiveMessage(p: nat, job: JobId, token: Token, receiveCount: nat)
    | ReceiveInvalidMessage(job: JobId, now: Time)
    | ReadForClaim(p: nat, now: Time, expires: Time, fault: Fault)
    | WriteClaim(p: nat, fault: Fault)
    | ReadAfterRace(p: nat, fault: Fault)
    | FinalizeAtLimit(p: nat, now: Time, fault: Fault)
    | RequireClaimedJob(p: nat, fault: Fault)
    | ReadCheckpoint(p: nat, fault: Fault)
    | Recover(p: nat, now: Time, fault: Fault)
    | Heartbeat(p: nat, now: Time, expires: Time, fault: Fault)
    | FinishCollection(p: nat, now: Time, expires: Time, fault: Fault, failed: bool)
    | EnterAnalysis(p: nat, fault: Fault)
    | EndWithoutCall(p: nat, code: ErrorCode, required: int, now: Time, fault: Fault)
    | FailPreparation(p: nat)
    | ReserveOrReuse(p: nat, estimated: int, required: int, now: Time, fault: Fault)
    | EndOutOfTokens(p: nat, now: Time, fault: Fault)
    | ReportReserved(p: nat, now: Time, expires: Time, fault: Fault)
    | StartCall(p: nat)
    | AnswerCall(p: nat, answer: Answer)
    | EndCallFailed(p: nat, now: Time, fault: Fault)
    | StoreCharge(p: nat, now: Time, fault: Fault, metricsFail: bool)
    | SettleBilled(p: nat, now: Time, fault: Fault)
    | ReportSaving(p: nat, now: Time, expires: Time, fault: Fault)
    | SaveResult(p: nat, scores: Scores, now: Time, fault: Fault)
    | ReleaseFailed(p: nat, nextPublishAt: Time, code: ErrorCode, now: Time, fault: Fault)
    | FinalizeFailed(p: nat, retryable: bool, code: ErrorCode, now: Time, fault: Fault)
    | SyncBegin(p: nat, user: UserId, repository: RepositoryId, token: Token, now: Time)
    | SyncCreate(p: nat, job: JobId, nonce: nat, version: Version, now: Time, fault: Fault)
    | SyncStart(p: nat, now: Time, expires: Time, fault: Fault)
    | AcceptCreate(user: UserId, key: nat, repository: RepositoryId, job: JobId, version: Version, now: Time)
    | AcceptRetry(user: UserId, key: nat, source: JobId, job: JobId, version: Version, now: Time)
    | TransferRepository(repository: RepositoryId, newOwner: UserId)
    | LoadForPublish(q: nat, job: JobId, allowRepublish: bool)
    | ClaimPublish(q: nat, now: Time, fault: Fault)
    | SendMessage(q: nat, outcome: SendState)
    | RecordPublished(q: nat, fault: Fault)
    | RecordPublishFailure(q: nat, nextPublishAt: Time, fault: Fault)

  /** Codes that the worker's error classifier can produce. */
  predicate IsClassifierCode(code: ErrorCode) {
    code in {AnalysisFailed, TemporaryFailure, GithubFailure, InputLimitExceeded, InvalidMessage, ProviderFailure,
             ProviderReconciliationRequired, RepositoryUnavailable, UnsupportedAnalysisVersion, WorkerLeaseUnavailable}
  }

  predicate RunnerIn(s: State, p: nat, ready: Phase -> bool) {
    p in s.runners && ready(s.runners[p].phase)
  }

  /** processRecord mints a lease token and starts on the message's job. */
  function DoReceiveMessage(s: State, p: nat, job: JobId, token: Token, receiveCount: nat): State {
    if p in s.runners || token in s.minted then s
    else s.(
      runners := s.runners[p := Runner(Background, job, token, receiveCount, 0, 0, Window(None, 0), Started)],
      minted := s.minted + {token},
      log := s.log.(received := s.log.received + {job}))
  }

  function DoReadForClaim(s: State, p: nat, now: Time, expires: Time, fault: Fault): State {
    if !RunnerIn(s, p, (ph: Phase) => ph.Started?) then s
    else
      var w := s.runners[p];
      Become(s, p, w.(phase := if fault == NoFault then ClaimDecision(s.db, w.job, now, expires) else Done(Redeliver)))
  }

  function DoWriteClaim(s: State, p: nat, fault: Fault): State {
    if !RunnerIn(s, p, (ph: Phase) => ph.ClaimSeen?) then s
    else
      var w := s.runners[p];
      var result := ClaimStatement(s.db, w, w.phase.seen, w.phase.at, w.phase.expires);
      Write(s, p, result, fault, Leased, if fault == NoFault then RaceLost(w.phase.at) else Done(Redeliver))
  }

  function DoReadAfterRace(s: State, p: nat, fault: Fault): State {
    if !RunnerIn(s, p, (ph: Phase) => ph.RaceLost?) then s
    else
      var w := s.runners[p];
      Become(s, p, w.(phase := if fault == NoFault then RaceDecision(s.db, w.job, w.phase.at) else Done(Redeliver)))
  }

  function SettledDb(outcome: SettleOutcome): Option<Db> {
    if outcome.SettledIn? then Some(outcome.db) else None
  }

  /** finalizeClaimLimit: terminalize the row as it was read, under the lease it was read with. */
  function DoFinalizeAtLimit(s: State, p: nat, now: Time, fault: Fault): State {
    if !RunnerIn(s, p, (ph: Phase) => ph.AtLimit?) then s
    else
      var w := s.runners[p];
      var seen := w.phase.seen;
      var result :=
        if seen.status == Queued then SettledDb(SettleJob(s.db, w.job, Queued, None, MaxAttemptsExceeded, true, now))
        else if seen.leaseToken.None? then None
        else SettledDb(SettleJob(s.db, w.job, Running, seen.leaseToken, MaxAttemptsExceeded, true, now));
      Write(s, p, result, fault, Done(Redeliver), Done(Redeliver))
  }

  function DoRequireClaimedJob(s: State, p: nat, fault: Fault): State {
    if !RunnerIn(s, p, (ph: Phase) => ph.Leased?) then s
    else
      var w := s.runners[p];
      if fault == NoFault && Holds(s.db, w) && s.db.jobs[w.job].status == Running then
        var row := s.db.jobs[w.job];
        Become(s, p, w.(attempt := row.attemptCount, limit := row.maxAttempts,
                        window := Window(row.sourceCursor, row.collectionCutoff), phase := Holding))
      else Become(s, p, w.(phase := Done(Redeliver)))
  }

  /** findRunningByLease, then the checkpoint and version checks. */
  function FencedRead(s: State, w: Runner, fault: Fault, next: Job -> Phase): Phase {
    if fault == NoFault && Holds(s.db, w) && s.db.jobs[w.job].status == Running
    then CheckpointDecision(s.db.jobs[w.job], next(s.db.jobs[w.job]))
    else OnError(w.kind)
  }

  /** recoverProviderCheckpoint. */
  function DoReadCheckpoint(s: State, p: nat, fault: Fault): State {
    if !RunnerIn(s, p, (ph: Phase) => ph.Holding?) then s
    else
      var w := s.runners[p];
      Become(s, p, w.(phase := FencedRead(s, w, fault, (row: Job) => Collecting)))
  }

  function DoRecover(s: State, p: nat, now: Time, fault: Fault): State {
    if !RunnerIn(s, p, (ph: Phase) => ph.Recovering?) then s
    else
      var w := s.runners[p];
      var result := Terminate(s.db, w.job, w.token, w.phase.context, w.phase.termination, now);
      Write(s, p, result, fault, Done(Finished), OnError(w.kind))
  }

  function ProgressDb(db: Db, w: Runner, now: Time, expires: Time): Option<Db> {
    if w.job in db.jobs then PutRow(db, w.job, UpdateProgress(db.jobs[w.job], w.token, now, expires)) else None
  }

  /** The collection heartbeat. */
  function DoHeartbeat(s: State, p: nat, now: Time, expires: Time, fault: Fault): State {
    if !RunnerIn(s, p, (ph: Phase) => ph.Collecting?) then s
    else Write(s, p, ProgressDb(s.db, s.runners[p], now, expires), fault, Collecting, Failing)
  }

  /** Collection fails, or its data arrives and RESERVING_TOKENS is reported. */
  function DoFinishCollection(s: State, p: nat, now: Time, expires: Time, fault: Fault, failed: bool): State {
    if !RunnerIn(s, p, (ph: Phase) => ph.Collecting?) then s
    else if failed then Become(s, p, s.runners[p].(phase := Failing))
    else Write(s, p, ProgressDb(s.db, s.runners[p], now, expires), fault, Entering, Failing)
  }

  /** runAnalysisJob up to the start of executeAnalysis's try block. */
  function DoEnterAnalysis(s: State, p: nat, fault: Fault): State {
    if !RunnerIn(s, p, (ph: Phase) => ph.Entering?) then s
    else
      var w := s.runners[p];
      Become(s, p,
             w.(phase := FencedRead(s, w, fault, (row: Job) => if row.version == Current then Preparing(row)
                                    else OnError(w.kind))))
  }

  /** The zero-usage terminations that need no provider call. */
  predicate EndsWithoutCall(context: Job, code: ErrorCode, required: int) {
    || code == NoAnalyzableData
    || code == InputLimitExceeded
    || (code == TokenBudgetExceeded && context.reservedTokens.Some? && context.reservedTokens.value < required)
  }

  function DoEndWithoutCall(s: State, p: nat, code: ErrorCode, required: int, now: Time, fault: Fault): State {
    if !RunnerIn(s, p, (ph: Phase) => ph.Preparing?) then s
    else
      var w := s.runners[p];
      var context := w.phase.context;
      if !EndsWithoutCall(context, code, required) then s
      else
        var completion := if code == NoAnalyzableData then CompletionOf(w) else NoCompletion;
        var result := Terminate(s.db, w.job, w.token, context, Unbilled(context, code, completion), now);
        Write(s, p, result, fault, Done(Finished), OnError(w.kind))
  }

  /** Refining, estimating or the reservation's arithmetic throws. */
  function DoFailPreparation(s: State, p: nat): State {
    if !RunnerIn(s, p, (ph: Phase) => ph.Preparing?) then s
    else Become(s, p, s.runners[p].(phase := OnError(s.runners[p].kind)))
  }

  function ReservedDb(outcome: ReserveOutcome): Option<Db> {
    if outcome.ReservedIn? then Some(outcome.db) else None
  }

  /** ensureWorkerTokenReservation. */
  function DoReserveOrReuse(s: State, p: nat, estimated: int, required: int, now: Time, fault: Fault): State {
    if !RunnerIn(s, p, (ph: Phase) => ph.Preparing?) || !(0 <= estimated <= required) then s
    else
      var w := s.runners[p];
      var context := w.phase.context;
      if context.reservedTokens.Some? then
        if context.reservedTokens.value < required then s
        else Become(s, p, w.(phase := Reserved(context)))
      else
        var outcome := Reserve(s.db, w.job, w.token, context, estimated, required, now);
        Write(s, p, ReservedDb(outcome), fault,
          Reserved(context.(reservedTokens := Some(required))),
          if fault == NoFault && outcome.Insufficient? then OutOfTokens(context) else OnError(w.kind))
  }

  function DoEndOutOfTokens(s: State, p: nat, now: Time, fault: Fault): State {
    if !RunnerIn(s, p, (ph: Phase) => ph.OutOfTokens?) then s
    else
      var w := s.runners[p];
      var context := w.phase.context;
      var result := Terminate(s.db, w.job, w.token, context, Unbilled(context, InsufficientTokens, NoCompletion), now);
      Write(s, p, result, fault, Done(Finished), OnError(w.kind))
  }

  /** onTokensReserved: only the worker reports progress, and it must succeed before the call. */
  function DoReportReserved(s: State, p: nat, now: Time, expires: Time, fault: Fault): State {
    if !RunnerIn(s, p, (ph: Phase) => ph.Reserved?) then s
    else
      var w := s.runners[p];
      if w.kind == Sync then Become(s, p, w.(phase := Calling(w.phase.context)))
      else Write(s, p, ProgressDb(s.db, w, now, expires), fault, Calling(w.phase.context), Failing)
  }

  /** The request to the provider goes out. It counts as a call from here on, whether it is ever answered or not. */
  function DoStartCall(s: State, p: nat): State {
    if !RunnerIn(s, p, (ph: Phase) => ph.Calling?) then s
    else
      var w := s.runners[p];
      var called := Become(s, p, w.(phase := Waiting(w.phase.context)));
      called.(log := called.log.(calls := s.log.calls[w.job := CallsOf(s.log, w.job) + [w.token]]))
  }

  /** The provider answers, or the request fails. */
  function DoAnswerCall(s: State, p: nat, answer: Answer): State {
    if !RunnerIn(s, p, (ph: Phase) => ph.Waiting?) then s
    else
      var w := s.runners[p];
      Become(s, p, w.(phase := AnswerDecision(w, w.phase.context, answer)))
  }

  /** The synchronous path ends an unbilled provider error at once. */
  function DoEndCallFailed(s: State, p: nat, now: Time, fault: Fault): State {
    if !RunnerIn(s, p, (ph: Phase) => ph.CallFailed?) then s
    else
      var w := s.runners[p];
      var context := w.phase.context;
      var result := Terminate(s.db, w.job, w.token, context, Unbilled(context, AnalysisFailed, NoCompletion), now);
      Write(s, p, result, fault, Done(Finished), OnError(w.kind))
  }

  function ChargeDb(db: Db, w: Runner, context: Job, requestId: RequestId, usage: Option<Usage>,
                    now: Time): Option<Db> {
    if w.job in db.jobs then
      PutRow(db, w.job, RecordProviderCharge(db.jobs[w.job], w.token, context, requestId, usage, now)) else None
  }

  /** recordProviderCharge; any failure goes to reconciliation. */
  function DoStoreCharge(s: State, p: nat, now: Time, fault: Fault, metricsFail: bool): State {
    if !RunnerIn(s, p, (ph: Phase) => ph.Answered?) then s
    else
      var w := s.runners[p];
      var ph := w.phase;
      Write(s, p, ChargeDb(s.db, w, ph.context, ph.requestId, ph.usage, now), fault,
        ChargedDecision(ph.context, ph.requestId, ph.usage, ph.usable, metricsFail),
        Settling(ph.context, Some(ph.requestId), ph.usage, true))
  }

  /**
   terminateProviderReconciliation. When it fails, a guarded caller reports an unpersisted bill and the message returns.
   */
  function DoSettleBilled(s: State, p: nat, now: Time, fault: Fault): State {
    if !RunnerIn(s, p, (ph: Phase) => ph.Settling?) then s
    else
      var w := s.runners[p];
      var ph := w.phase;
      var result :=
        Terminate(s.db, w.job, w.token, ph.context, Reconciliation(ph.context, ph.billedId, ph.billedUsage), now);
      Write(s, p, result, fault, Done(Finished),
        if ph.guarded && w.kind == Background then Done(Redeliver) else OnError(w.kind))
  }

  /** onSaving. */
  function DoReportSaving(s: State, p: nat, now: Time, expires: Time, fault: Fault): State {
    if !RunnerIn(s, p, (ph: Phase) => ph.Charged?) then s
    else
      var w := s.runners[p];
      var ph := w.phase;
      var saving := Saving(ph.context, ph.requestId, ph.charge);
      if w.kind == Sync then Become(s, p, w.(phase := saving))
      else Write(s, p, ProgressDb(s.db, w, now, expires), fault, saving,
             Settling(ph.context, Some(ph.requestId), Some(ph.charge), true))
  }

  function DoSaveResult(s: State, p: nat, scores: Scores, now: Time, fault: Fault): State {
    if !RunnerIn(s, p, (ph: Phase) => ph.Saving?) then s
    else
      var w := s.runners[p];
      var ph := w.phase;
      var result := Succeed(s.db, w.job, w.token, ph.context, ph.requestId, ph.charge, scores, CompletionOf(w), now);
      Write(s, p, result, fault, Done(Finished), Settling(ph.context, Some(ph.requestId), Some(ph.charge), true))
  }

  /** A retryable error before the limits: back to the queue. */
  function DoReleaseFailed(s: State, p: nat, nextPublishAt: Time, code: ErrorCode, now: Time, fault: Fault): State {
    if !RunnerIn(s, p, (ph: Phase) => ph.Failing?) || !IsClassifierCode(code) then s
    else
      var w := s.runners[p];
      if w.attempt >= w.limit || w.receiveCount >= w.limit then s
      else
        var result := if w.job in s.db.jobs
                      then PutRow(s.db, w.job, ReleaseForRetry(s.db.jobs[w.job], w.token, nextPublishAt, code, now))
                        else None;
        Write(s, p, result, fault, Done(Redeliver), Done(Redeliver))
  }

  /** A permanent error, or a retryable one at the limits: finalize under this runner's lease. */
  function DoFinalizeFailed(s: State, p: nat, retryable: bool, code: ErrorCode, now: Time, fault: Fault): State {
    if !RunnerIn(s, p, (ph: Phase) => ph.Failing?) || !IsClassifierCode(code) then s
    else
      var w := s.runners[p];
      if retryable then
        if w.attempt < w.limit && w.receiveCount < w.limit then s
        else Write(s, p, SettledDb(SettleJob(s.db, w.job, Running, Some(w.token), MaxAttemptsExceeded, true, now)),
                   fault, Done(Redeliver), Done(Redeliver))
      else Write(s, p, SettledDb(SettleJob(s.db, w.job, Running, Some(w.token), code, false, now)), fault,
             Done(Finished), Done(Redeliver))
  }

  // ----- the synchronous path -----

  /** syncRepository: read the repository, fix the window, collect. */
  function DoSyncBegin(s: State, p: nat, user: UserId, repository: RepositoryId, token: Token, now: Time): State {
    if || p in s.runners || token in s.minted || user !in s.db.balances || repository !in s.db.repositories
       || s.db.repositories[repository].ownerId != user
    then s
    else
      var window := Window(s.db.repositories[repository].lastSyncTime, now);
      s.(runners := s.runners[p := Runner(Sync, 0, token, 0, 0, 0, window, SyncCollected(user, repository))],
         minted := s.minted + {token})
  }

  /** runAnalysis creates its own job under a fresh 'sync:' key. */
  ghost function DoSyncCreate(s: State, p: nat, job: JobId, nonce: nat, version: Version, now: Time,
                              fault: Fault): State {
    if !RunnerIn(s, p, (ph: Phase) => ph.SyncCollected?) then s
    else
      var w := s.runners[p];
      var row := NewJob(w.phase.userId, w.phase.repositoryId, SyncKey(nonce), SyncRequest, None, now, version, now);
      var result := CreateExclusive(s.db, job, row, now);
      if result.None? || fault == LostBefore then Become(s, p, w.(phase := Done(Threw)))
      else
        var moved :=
          Move(s, p, w.(job := job, phase := if fault == NoFault then SyncQueued else Done(Threw)), result.value);
        moved.(log := moved.log.(tickets := moved.log.tickets[job := {w.token}]))
  }

  function DoSyncStart(s: State, p: nat, now: Time, expires: Time, fault: Fault): State {
    if !RunnerIn(s, p, (ph: Phase) => ph.SyncQueued?) then s
    else
      var w := s.runners[p];
      var result :=
        if w.job in s.db.jobs then PutRow(s.db, w.job, StartSync(s.db.jobs[w.job], w.token, expires, now)) else None;
      Write(s, p, result, fault, Entering, Done(Threw))
  }

  // ----- acceptance and other requests -----

  /** A database step of a process that keeps no state in the model. */
  function Serve(s: State, after: Db, focus: JobId): State {
    s.(db := after, log := Audit(s.log, s.db, after, focus, Window(None, 0)))
  }

  ghost function DoAcceptCreate(s: State, user: UserId, key: nat, repository: RepositoryId, job: JobId,
                                version: Version, now: Time): State {
    var outcome := AcceptJob(s.db, user, ApiKey(key), Create(repository), None, job, version, now);
    if outcome.Accepted? then Serve(s, outcome.db, job) else s
  }

  /** retry; the source row it read is terminal, so it is also the current one. */
  ghost function DoAcceptRetry(s: State, user: UserId, key: nat, source: JobId, job: JobId, version: Version,
                               now: Time): State {
    if source !in s.db.jobs || s.db.jobs[source].userId != user || !IsRetryable(s.db.jobs[source]) then s
    else
      var outcome := AcceptJob(s.db, user, ApiKey(key), Retry(source), Some(s.db.jobs[source]), job, version, now);
      if outcome.Accepted? then Serve(s, outcome.db, job) else s
  }

  /** failQueuedInvalidMessage. */
  function DoReceiveInvalidMessage(s: State, job: JobId, now: Time): State {
    var outcome := SettleJob(s.db, job, Queued, None, InvalidMessage, false, now);
    if outcome.SettledIn? then Serve(s, outcome.db, job) else s
  }

  /** getRepositories may move a repository to another owner. */
  function DoTransferRepository(s: State, repository: RepositoryId, newOwner: UserId): State {
    if repository !in s.db.repositories then s
    else
      var row := s.db.repositories[repository].(ownerId := newOwner);
      Serve(s, s.db.(repositories := s.db.repositories[repository := row]), 0)
  }

  // ----- the outbox -----

  function DoLoadForPublish(s: State, q: nat, job: JobId, allowRepublish: bool): State {
    if q in s.publishers || job !in s.db.jobs then s
    else s.(publishers := s.publishers[q := Publisher(job, s.db.jobs[job], allowRepublish, Loaded)])
  }

  /** A publisher becomes `b` while the database becomes `after`. */
  function Publish(s: State, q: nat, b: Publisher, after: Db, sends: map<Send, SendState>): State {
    s.(db := after, publishers := s.publishers[q := b],
       log := Audit(s.log, s.db, after, b.job, Window(None, 0)).(sends := sends))
  }

  predicate PublisherIn(s: State, q: nat, ready: PublisherPhase -> bool) {
    q in s.publishers && ready(s.publishers[q].phase) && s.publishers[q].job in s.db.jobs
  }

  /** claimAttempt; the send starts only when the claim was acknowledged. */
  function DoClaimPublish(s: State, q: nat, now: Time, fault: Fault): State {
    if !PublisherIn(s, q, (ph: PublisherPhase) => ph.Loaded?) then s
    else
      var b := s.publishers[q];
      if !WantsAttempt(b.seen, now, s.settings, b.allowRepublish) || fault == LostBefore then
        Publish(s, q, b.(phase := Idle), s.db, s.log.sends)
      else
        var next := now + s.settings.republishAfterMs;
        var uncertain := DeliveryUncertain(b.seen);
        match ClaimAttempt(s.db.jobs[b.job], b.seen, next, uncertain, now)
        case None => Publish(s, q, b.(phase := Idle), s.db, s.log.sends)
        case Some(row) =>
          var attempt := b.seen.publishAttempts + 1;
          if fault == LostAfter then Publish(s, q, b.(phase := Idle), Put(s.db, b.job, row), s.log.sends)
          else Publish(s, q, b.(phase := Sending(attempt, next, uncertain, now)), Put(s.db, b.job, row),
                 s.log.sends[Send(b.job, attempt) := InFlight])
  }

  /** The queue answers. A send that is never answered stays in flight. */
  function DoSendMessage(s: State, q: nat, outcome: SendState): State {
    if !PublisherIn(s, q, (ph: PublisherPhase) => ph.Sending?) || outcome == InFlight then s
    else
      var b := s.publishers[q];
      var ph := b.phase;
      var phase := if outcome == Delivered then Sent(ph.attempt, ph.claimedNextPublishAt, ph.at)
                   else Refused(ph.attempt, ph.claimedNextPublishAt, ph.uncertain || outcome != Rejected, ph.at);
      Publish(s, q, b.(phase := phase), s.db, s.log.sends[Send(b.job, ph.attempt) := outcome])
  }

  function DoRecordPublished(s: State, q: nat, fault: Fault): State {
    if !PublisherIn(s, q, (ph: PublisherPhase) => ph.Sent?) then s
    else
      var b := s.publishers[q];
      var ph := b.phase;
      var row := MarkPublished(s.db.jobs[b.job], b.seen, ph.attempt, ph.claimedNextPublishAt, ph.at);
      var after := if row.Some? && fault != LostBefore then Put(s.db, b.job, row.value) else s.db;
      Publish(s, q, b.(phase := Idle), after, s.log.sends)
  }

  /** handlePublishFailure. */
  function DoRecordPublishFailure(s: State, q: nat, nextPublishAt: Time, fault: Fault): State {
    if !PublisherIn(s, q, (ph: PublisherPhase) => ph.Refused?) then s
    else
      var b := s.publishers[q];
      var ph := b.phase;
      var terminate := ReachesGiveUp(b.seen, ph.attempt, ph.uncertain, s.settings);
      var row := RecordFailure(s.db.jobs[b.job], b.seen, ph.attempt, ph.claimedNextPublishAt, nextPublishAt,
                               ph.uncertain, terminate, ph.at);
      var after := if row.Some? && fault != LostBefore then Put(s.db, b.job, row.value) else s.db;
      Publish(s, q, b.(phase := Idle), after, s.log.sends)
  }

  // -----------------------------------------------------------------
  // Runs
  // -----------------------------------------------------------------

  /** Receiving, claiming, collecting and preparing. */
  function NextClaim(s: State, a: Action): State {
    match a
    case ReceiveMessage(p, job, token, receiveCount) => DoReceiveMessage(s, p, job, token, receiveCount)
    case ReadForClaim(p, now, expires, fault) => DoReadForClaim(s, p, now, expires, fault)
    case WriteClaim(p, fault) => DoWriteClaim(s, p, fault)
    case ReadAfterRace(p, fault) => DoReadAfterRace(s, p, fault)
    case FinalizeAtLimit(p, now, fault) => DoFinalizeAtLimit(s, p, now, fault)
    case RequireClaimedJob(p, fault) => DoRequireClaimedJob(s, p, fault)
    case ReadCheckpoint(p, fault) => DoReadCheckpoint(s, p, fault)
    case Heartbeat(p, now, expires, fault) => DoHeartbeat(s, p, now, expires, fault)
    case FinishCollection(p, now, expires, fault, failed) => DoFinishCollection(s, p, now, expires, fault, failed)
    case EnterAnalysis(p, fault) => DoEnterAnalysis(s, p, fault)
    case FailPreparation(p) => DoFailPreparation(s, p)
    case _ => s
  }

  /** Reserving and calling, and the terminations of a job that was not called for. */
  function NextCall(s: State, a: Action): State {
    match a
    case Recover(p, now, fault) => DoRecover(s, p, now, fault)
    case EndWithoutCall(p, code, required, now, fault) => DoEndWithoutCall(s, p, code, required, now, fault)
    case ReserveOrReuse(p, estimated, required, now, fault) => DoReserveOrReuse(s, p, estimated, required, now, fault)
    case EndOutOfTokens(p, now, fault) => DoEndOutOfTokens(s, p, now, fault)
    case ReportReserved(p, now, expires, fault) => DoReportReserved(s, p, now, expires, fault)
    case StartCall(p) => DoStartCall(s, p)
    case AnswerCall(p, answer) => DoAnswerCall(s, p, answer)
    case EndCallFailed(p, now, fault) => DoEndCallFailed(s, p, now, fault)
    case _ => s
  }

  /** Charging, settling and failing. */
  function NextBill(s: State, a: Action): State {
    match a
    case StoreCharge(p, now, fault, metricsFail) => DoStoreCharge(s, p, now, fault, metricsFail)
    case SettleBilled(p, now, fault) => DoSettleBilled(s, p, now, fault)
    case ReportSaving(p, now, expires, fault) => DoReportSaving(s, p, now, expires, fault)
    case SaveResult(p, scores, now, fault) => DoSaveResult(s, p, scores, now, fault)
    case ReleaseFailed(p, nextPublishAt, code, now, fault) => DoReleaseFailed(s, p, nextPublishAt, code, now, fault)
    case FinalizeFailed(p, retryable, code, now, fault) => DoFinalizeFailed(s, p, retryable, code, now, fault)
    case _ => s
  }

  /** Requests, synchronous runs and invalid messages. */
  ghost function NextRequest(s: State, a: Action): State {
    match a
    case ReceiveInvalidMessage(job, now) => DoReceiveInvalidMessage(s, job, now)
    case SyncBegin(p, user, repository, token, now) => DoSyncBegin(s, p, user, repository, token, now)
    case SyncCreate(p, job, nonce, version, now, fault) => DoSyncCreate(s, p, job, nonce, version, now, fault)
    case SyncStart(p, now, expires, fault) => DoSyncStart(s, p, now, expires, fault)
    case AcceptCreate(user, key, repository, job, version, now) => DoAcceptCreate(s, user, key, repository, job,
                                                                                  version, now)
    case AcceptRetry(user, key, source, job, version, now) => DoAcceptRetry(s, user, key, source, job, version, now)
    case TransferRepository(repository, newOwner) => DoTransferRepository(s, repository, newOwner)
    case _ => s
  }

  /** The outbox. */
  function NextPublish(s: State, a: Action): State {
    match a
    case LoadForPublish(q, job, allowRepublish) => DoLoadForPublish(s, q, job, allowRepublish)
    case ClaimPublish(q, now, fault) => DoClaimPublish(s, q, now, fault)
    case SendMessage(q, outcome) => DoSendMessage(s, q, outcome)
    case RecordPublished(q, fault) => DoRecordPublished(s, q, fault)
    case RecordPublishFailure(q, nextPublishAt, fault) => DoRecordPublishFailure(s, q, nextPublishAt, fault)
    case _ => s
  }

  predicate IsClaimAction(a: Action) {
    || a.ReceiveMessage? || a.ReadForClaim? || a.WriteClaim? || a.ReadAfterRace? || a.FinalizeAtLimit?
    || a.RequireClaimedJob? || a.ReadCheckpoint? || a.Heartbeat? || a.FinishCollection? || a.EnterAnalysis?
    || a.FailPreparation?
  }

  predicate IsCallAction(a: Action) {
    || a.Recover? || a.EndWithoutCall? || a.ReserveOrReuse? || a.EndOutOfTokens? || a.ReportReserved? || a.StartCall?
    || a.AnswerCall? || a.EndCallFailed?
  }

  predicate IsBillAction(a: Action) {
    || a.StoreCharge? || a.SettleBilled? || a.ReportSaving? || a.SaveResult? || a.ReleaseFailed? || a.FinalizeFailed?
  }

  predicate IsPublishAction(a: Action) {
    a.LoadForPublish? || a.ClaimPublish? || a.SendMessage? || a.RecordPublished? || a.RecordPublishFailure?
  }

  /** One step of the whole deployment. */
  ghost function Next(s: State, a: Action): State {
    if IsClaimAction(a) then NextClaim(s, a)
    else if IsCallAction(a) then NextCall(s, a)
    else if IsBillAction(a) then NextBill(s, a)
    else if IsPublishAction(a) then NextPublish(s, a)
    else NextRequest(s, a)
  }

  /** A whole run: any actions of any processes, in any order. */
  ghost function Run(s: State, actions: seq<Action>): State
    decreases |actions|
  {
    if actions == [] then s else Run(Next(s, actions[0]), actions[1..])
  }
}
