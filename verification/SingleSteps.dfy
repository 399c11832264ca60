/** What single actions do when nothing fails, for the concrete runs of Progress, GivingUp and ClaimRace. */
module SingleSteps {
  import opened Basics
  import opened JobRow
  import opened WorkerStatements
  import opened PublishStatements
  import opened Ledger
  import opened Transactions
  import opened Acceptance
  import opened Protocol
  import opened Invariant
  import opened Interference

  /**
   The part of the state that the steps below decide on: everything but the observer's accounts of leases and money.
   */
  datatype View = View(
    db: Db,
    runners: map<nat, Runner>,
    publishers: map<nat, Publisher>,
    minted: set<Token>,
    settings: PublishSettings,
    sends: map<Send, SendState>,
    received: set<JobId>)

  function ViewOf(s: State): View {
    View(s.db, s.runners, s.publishers, s.minted, s.settings, s.log.sends, s.log.received)
  }

  lemma {:induction false} RunThen(s: State, first: seq<Action>, rest: seq<Action>)
    ensures Run(s, first + rest) == Run(Run(s, first), rest)
    decreases |first|
  {
    hide Next;
    if first == [] {
      assert first + rest == rest;
    } else {
      assert (first + rest)[1..] == first[1..] + rest;
      RunThen(Next(s, first[0]), first[1..], rest);
    }
  }

  lemma RunOne(s: State, a: Action)
    ensures Run(s, [a]) == Next(s, a)
  {
    hide Next;
    assert [a][1..] == [];
  }

  lemma RunStep(s: State, actions: seq<Action>, a: Action)
    ensures Run(s, actions + [a]) == Next(Run(s, actions), a)
  {
    hide Next, Run;
    RunThen(s, actions, [a]);
    RunOne(Run(s, actions), a);
  }

  lemma Overwritten<K, V>(m: map<K, V>, k: K, v: V, w: V)
    ensures m[k := v][k := w] == m[k := w]
  {
  }

  // ----- one step, nothing failing -----

  lemma ViewAfterMove(s: State, p: nat, w: Runner, after: Db)
    ensures ViewOf(Move(s, p, w, after)) == ViewOf(s).(db := after, runners := s.runners[p := w])
  {
    hide Audit;
    AuditKeys(s.log, s.db, after, w.job, w.window);
  }

  lemma ViewAfterPublish(s: State, q: nat, b: Publisher, after: Db, sends: map<Send, SendState>)
    ensures ViewOf(Publish(s, q, b, after, sends)) ==
              ViewOf(s).(db := after, publishers := s.publishers[q := b], sends := sends)
  {
    hide Audit;
    AuditKeys(s.log, s.db, after, b.job, Window(None, 0));
  }

  lemma ViewAfterServe(s: State, after: Db, focus: JobId)
    ensures ViewOf(Serve(s, after, focus)) == ViewOf(s).(db := after)
  {
    hide Audit;
    AuditKeys(s.log, s.db, after, focus, Window(None, 0));
  }

  lemma ReceiveMoves(s: State, p: nat, j: JobId, token: Token, count: nat)
    requires p !in s.runners && token !in s.minted
    ensures ViewOf(Next(s, ReceiveMessage(p, j, token, count))) ==
            ViewOf(s).(runners := s.runners[p := Runner(Background, j, token, count, 0, 0, Window(None, 0), Started)],
                       minted := s.minted + {token}, received := s.log.received + {j})
  {
  }

  lemma ReadMoves(s: State, p: nat, now: Time, expires: Time)
    requires p in s.runners && s.runners[p].phase.Started?
    ensures ViewOf(Next(s, ReadForClaim(p, now, expires, NoFault))) ==
            var w := s.runners[p];
            ViewOf(s).(runners := s.runners[p := w.(phase := ClaimDecision(s.db, w.job, now, expires))])
  {
    hide Move, ClaimDecision;
    var w := s.runners[p];
    ViewAfterMove(s, p, w.(phase := ClaimDecision(s.db, w.job, now, expires)), s.db);
  }

  lemma ClaimMoves(s: State, p: nat)
    requires p in s.runners && s.runners[p].phase.ClaimSeen?
    requires var w := s.runners[p]; ClaimStatement(s.db, w, w.phase.seen, w.phase.at, w.phase.expires).Some?
    ensures ViewOf(Next(s, WriteClaim(p, NoFault))) ==
            var w := s.runners[p];
            ViewOf(s).(db := ClaimStatement(s.db, w, w.phase.seen, w.phase.at, w.phase.expires).value,
                       runners := s.runners[p := w.(phase := Leased)])
  {
    hide Move, ClaimStatement;
    var w := s.runners[p];
    ViewAfterMove(s, p, w.(phase := Leased), ClaimStatement(s.db, w, w.phase.seen, w.phase.at, w.phase.expires).value);
  }

  /** The runner has read its claimed row back. */
  function HoldingRunner(w: Runner, row: Job): Runner {
    w.(attempt := row.attemptCount, limit := row.maxAttempts, window := Window(row.sourceCursor, row.collectionCutoff),
       phase := Holding)
  }

  lemma RequireMoves(s: State, p: nat)
    requires p in s.runners && s.runners[p].phase.Leased? && Holds(s.db, s.runners[p])
    requires s.db.jobs[s.runners[p].job].status == Running
    ensures ViewOf(Next(s, RequireClaimedJob(p, NoFault))) ==
            var w := s.runners[p]; ViewOf(s).(runners := s.runners[p := HoldingRunner(w, s.db.jobs[w.job])])
  {
    hide Move;
    var w := s.runners[p];
    ViewAfterMove(s, p, HoldingRunner(w, s.db.jobs[w.job]), s.db);
  }

  lemma CheckpointMoves(s: State, p: nat)
    requires p in s.runners && s.runners[p].phase.Holding? && Holds(s.db, s.runners[p])
    requires var row := s.db.jobs[s.runners[p].job];
             row.status == Running && !HasBillingEvidence(row) && row.version != Retired
    ensures ViewOf(Next(s, ReadCheckpoint(p, NoFault))) ==
            ViewOf(s).(runners := s.runners[p := s.runners[p].(phase := Collecting)])
  {
    hide Move, HasBillingEvidence;
    ViewAfterMove(s, p, s.runners[p].(phase := Collecting), s.db);
  }

  lemma FailMoves(s: State, p: nat)
    requires p in s.runners && s.runners[p].phase.Collecting?
    ensures ViewOf(Next(s, FinishCollection(p, 0, 0, NoFault, true))) ==
            ViewOf(s).(runners := s.runners[p := s.runners[p].(phase := Failing)])
  {
    hide Move, ProgressDb;
    ViewAfterMove(s, p, s.runners[p].(phase := Failing), s.db);
  }

  lemma ReleaseMoves(s: State, p: nat, nextPublishAt: Time, code: ErrorCode, now: Time)
    requires p in s.runners && s.runners[p].phase.Failing? && s.runners[p].job in s.db.jobs
    requires IsClassifierCode(code)
    requires s.runners[p].attempt < s.runners[p].limit && s.runners[p].receiveCount < s.runners[p].limit
    requires var w := s.runners[p]; ReleaseForRetry(s.db.jobs[w.job], w.token, nextPublishAt, code,
                                                    now).Some?
    ensures ViewOf(Next(s, ReleaseFailed(p, nextPublishAt, code, now, NoFault))) ==
            var w := s.runners[p];
            var row := ReleaseForRetry(s.db.jobs[w.job], w.token, nextPublishAt, code, now).value;
            ViewOf(s).(db := Put(s.db, w.job, row), runners := s.runners[p := w.(phase := Done(Redeliver))])
  {
    hide Move, ReleaseForRetry;
    var w := s.runners[p];
    var row := ReleaseForRetry(s.db.jobs[w.job], w.token, nextPublishAt, code, now).value;
    ViewAfterMove(s, p, w.(phase := Done(Redeliver)), Put(s.db, w.job, row));
  }

  lemma LoadMoves(s: State, q: nat, j: JobId)
    requires q !in s.publishers && j in s.db.jobs
    ensures ViewOf(Next(s, LoadForPublish(q, j, false))) ==
            ViewOf(s).(publishers := s.publishers[q := Publisher(j, s.db.jobs[j], false, Loaded)])
  {
  }

  lemma ClaimPublishMoves(s: State, q: nat, now: Time)
    requires q in s.publishers && s.publishers[q].phase.Loaded? && s.publishers[q].job in s.db.jobs
    requires var b := s.publishers[q];
             && WantsAttempt(b.seen, now, s.settings, b.allowRepublish)
             && ClaimAttempt(s.db.jobs[b.job], b.seen, now + s.settings.republishAfterMs, DeliveryUncertain(b.seen),
                             now).Some?
    ensures ViewOf(Next(s, ClaimPublish(q, now, NoFault))) ==
            var b := s.publishers[q];
            var next := now + s.settings.republishAfterMs;
            var attempt := b.seen.publishAttempts + 1;
            var row := ClaimAttempt(s.db.jobs[b.job], b.seen, next, DeliveryUncertain(b.seen), now).value;
            var sending := b.(phase := Sending(attempt, next, DeliveryUncertain(b.seen), now));
            ViewOf(s).(db := Put(s.db, b.job, row), publishers := s.publishers[q := sending],
                       sends := s.log.sends[Send(b.job, attempt) := InFlight])
  {
    hide NextClaim, NextCall, NextBill, NextRequest, Publish, WantsAttempt, ClaimAttempt, DeliveryUncertain;
    var b := s.publishers[q];
    var next := now + s.settings.republishAfterMs;
    var attempt := b.seen.publishAttempts + 1;
    ViewAfterPublish(s, q, b.(phase := Sending(attempt, next, DeliveryUncertain(b.seen), now)),
                     Put(s.db, b.job,
                         ClaimAttempt(s.db.jobs[b.job], b.seen, next, DeliveryUncertain(b.seen), now).value),
                     s.log.sends[Send(b.job, attempt) := InFlight]);
  }

  function AnsweredSender(b: Publisher, outcome: SendState): Publisher
    requires b.phase.Sending?
  {
    var ph := b.phase;
    b.(phase := if outcome == Delivered then Sent(ph.attempt, ph.claimedNextPublishAt, ph.at)
                else Refused(ph.attempt, ph.claimedNextPublishAt, ph.uncertain || outcome != Rejected, ph.at))
  }

  lemma SendMoves(s: State, q: nat, outcome: SendState)
    requires q in s.publishers && s.publishers[q].phase.Sending? && s.publishers[q].job in s.db.jobs
    requires outcome != InFlight
    ensures ViewOf(Next(s, SendMessage(q, outcome))) ==
            var b := s.publishers[q];
            ViewOf(s).(publishers := s.publishers[q := AnsweredSender(b, outcome)],
                       sends := s.log.sends[Send(b.job, b.phase.attempt) := outcome])
  {
    hide NextClaim, NextCall, NextBill, NextRequest, Publish;
    var b := s.publishers[q];
    ViewAfterPublish(s, q, AnsweredSender(b, outcome), s.db, s.log.sends[Send(b.job, b.phase.attempt) := outcome]);
  }

  /** The row after a refused publisher has recorded its failure. */
  function FailureRow(row: Job, b: Publisher, nextPublishAt: Time, settings: PublishSettings): Option<Job>
    requires b.phase.Refused?
  {
    var ph := b.phase;
    RecordFailure(row, b.seen, ph.attempt, ph.claimedNextPublishAt, nextPublishAt, ph.uncertain,
                  ReachesGiveUp(b.seen, ph.attempt, ph.uncertain, settings), ph.at)
  }

  lemma FailureMoves(s: State, q: nat, nextPublishAt: Time)
    requires q in s.publishers && s.publishers[q].phase.Refused? && s.publishers[q].job in s.db.jobs
    requires var b := s.publishers[q]; FailureRow(s.db.jobs[b.job], b, nextPublishAt, s.settings).Some?
    ensures ViewOf(Next(s, RecordPublishFailure(q, nextPublishAt, NoFault))) ==
            var b := s.publishers[q];
            var row := FailureRow(s.db.jobs[b.job], b, nextPublishAt, s.settings).value;
            ViewOf(s).(db := Put(s.db, b.job, row), publishers := s.publishers[q := b.(phase := Idle)])
  {
    hide NextClaim, NextCall, NextBill, NextRequest, Publish, ReachesGiveUp, RecordFailure;
    var b := s.publishers[q];
    var row := FailureRow(s.db.jobs[b.job], b, nextPublishAt, s.settings).value;
    ViewAfterPublish(s, q, b.(phase := Idle), Put(s.db, b.job, row), s.log.sends);
  }

  lemma FinishMoves(s: State, p: nat, now: Time, expires: Time)
    requires p in s.runners && s.runners[p].phase.Collecting? && ProgressDb(s.db, s.runners[p], now, expires).Some?
    ensures ViewOf(Next(s, FinishCollection(p, now, expires, NoFault, false))) ==
            var w := s.runners[p];
            ViewOf(s).(db := ProgressDb(s.db, w, now, expires).value, runners := s.runners[p := w.(phase := Entering)])
  {
    hide Move, ProgressDb;
    var w := s.runners[p];
    ViewAfterMove(s, p, w.(phase := Entering), ProgressDb(s.db, w, now, expires).value);
  }

  lemma EnterMoves(s: State, p: nat)
    requires p in s.runners && s.runners[p].phase.Entering? && Holds(s.db, s.runners[p])
    requires var row := s.db.jobs[s.runners[p].job];
             row.status == Running && !HasBillingEvidence(row) && row.version == Current
    ensures ViewOf(Next(s, EnterAnalysis(p, NoFault))) ==
            var w := s.runners[p]; ViewOf(s).(runners := s.runners[p := w.(phase := Preparing(s.db.jobs[w.job]))])
  {
    hide Move, HasBillingEvidence;
    var w := s.runners[p];
    ViewAfterMove(s, p, w.(phase := Preparing(s.db.jobs[w.job])), s.db);
  }

  lemma ReserveMoves(s: State, p: nat, required: int, now: Time)
    requires p in s.runners && s.runners[p].phase.Preparing? && 0 <= required
    requires s.runners[p].phase.context.reservedTokens.None?
    requires var w := s.runners[p]; Reserve(s.db, w.job, w.token, w.phase.context, required, required, now).ReservedIn?
    ensures ViewOf(Next(s, ReserveOrReuse(p, required, required, now, NoFault))) ==
            var w := s.runners[p];
            var context := w.phase.context;
            ViewOf(s).(db := Reserve(s.db, w.job, w.token, context, required, required, now).db,
                       runners := s.runners[p := w.(phase := Reserved(context.(reservedTokens := Some(required))))])
  {
    hide Move, Reserve;
    var w := s.runners[p];
    var context := w.phase.context;
    ViewAfterMove(s, p, w.(phase := Reserved(context.(reservedTokens := Some(required)))),
                  Reserve(s.db, w.job, w.token, context, required, required, now).db);
  }

  lemma ReportMoves(s: State, p: nat, now: Time, expires: Time)
    requires p in s.runners && s.runners[p].phase.Reserved? && s.runners[p].kind == Background
    requires ProgressDb(s.db, s.runners[p], now, expires).Some?
    ensures ViewOf(Next(s, ReportReserved(p, now, expires, NoFault))) ==
            var w := s.runners[p];
            ViewOf(s).(db := ProgressDb(s.db, w, now, expires).value,
                       runners := s.runners[p := w.(phase := Calling(w.phase.context))])
  {
    hide Move, ProgressDb;
    var w := s.runners[p];
    ViewAfterMove(s, p, w.(phase := Calling(w.phase.context)), ProgressDb(s.db, w, now, expires).value);
  }

  lemma StartMoves(s: State, p: nat)
    requires p in s.runners && s.runners[p].phase.Calling?
    ensures ViewOf(Next(s, StartCall(p))) ==
            var w := s.runners[p]; ViewOf(s).(runners := s.runners[p := w.(phase := Waiting(w.phase.context))])
  {
    hide Move;
    var w := s.runners[p];
    ViewAfterMove(s, p, w.(phase := Waiting(w.phase.context)), s.db);
  }

  lemma AnswerMoves(s: State, p: nat, requestId: RequestId, usage: Usage)
    requires p in s.runners && s.runners[p].phase.Waiting? && IsValidUsage(usage)
    ensures ViewOf(Next(s, AnswerCall(p, Response(requestId, usage)))) ==
            var w := s.runners[p];
            ViewOf(s).(runners := s.runners[p := w.(phase := Answered(w.phase.context, requestId, Some(usage), true))])
  {
    hide Move, IsValidUsage;
    var w := s.runners[p];
    ViewAfterMove(s, p, w.(phase := Answered(w.phase.context, requestId, Some(usage), true)), s.db);
  }

  lemma StoreMoves(s: State, p: nat, now: Time)
    requires p in s.runners && s.runners[p].phase.Answered?
    requires var w := s.runners[p];
             ChargeDb(s.db, w, w.phase.context, w.phase.requestId, w.phase.usage, now).Some?
    ensures ViewOf(Next(s, StoreCharge(p, now, NoFault, false))) ==
            var w := s.runners[p];
            var ph := w.phase;
            var next := ChargedDecision(ph.context, ph.requestId, ph.usage, ph.usable, false);
            ViewOf(s).(db := ChargeDb(s.db, w, ph.context, ph.requestId, ph.usage, now).value,
                       runners := s.runners[p := w.(phase := next)])
  {
    hide Move, ChargeDb, ChargedDecision;
    var w := s.runners[p];
    var ph := w.phase;
    ViewAfterMove(s, p, w.(phase := ChargedDecision(ph.context, ph.requestId, ph.usage, ph.usable, false)),
                  ChargeDb(s.db, w, ph.context, ph.requestId, ph.usage, now).value);
  }

  // ----- a worker claims a job -----

  function ClaimActions(p: nat, j: JobId, token: Token, at: Time): seq<Action> {
    [ReceiveMessage(p, j, token, 1)] + [ReadForClaim(p, at, at + 1, NoFault)] + [WriteClaim(p, NoFault)]
    + [RequireClaimedJob(p, NoFault)]
  }

  function NewWorker(j: JobId, token: Token): Runner {
    Runner(Background, j, token, 1, 0, 0, Window(None, 0), Started)
  }

  /** A row that a worker may claim at `at`, with a further attempt to spare. */
  predicate Claimable(row: Job, at: Time) {
    && RowOk(row) && row.status == Queued && row.attemptCount + 1 < row.maxAttempts
    && (row.nextPublishAt.None? || row.nextPublishAt.value <= at)
  }

  lemma QueuedRow(row: Job)
    requires RowOk(row) && row.status == Queued
    ensures !HasBillingEvidence(row) && row.completedAt.None? && row.tokensSettledAt.None?
  {
  }

  lemma ClaimDecided(db: Db, w: Runner, at: Time)
    requires w.job in db.jobs && Claimable(db.jobs[w.job], at)
    ensures var row := db.jobs[w.job];
            var claimed := ClaimQueued(row, w.token, at, at + 1);
            && ClaimDecision(db, w.job, at, at + 1) == ClaimSeen(row, at, at + 1)
            && claimed.Some? && ClaimStatement(db, w, row, at, at + 1) == Some(Put(db, w.job, claimed.value))
            && claimed.value.leaseToken == Some(w.token) && claimed.value.status == Running
            && claimed.value.attemptCount == row.attemptCount + 1 && claimed.value.maxAttempts == row.maxAttempts
  {
    hide RowOk, RowStep, PublishUntouched, Held, HasBillingEvidence;
    QueuedRow(db.jobs[w.job]);
  }

  lemma WorkerClaims(s: State, p: nat, j: JobId, token: Token, at: Time)
    requires p !in s.runners && token !in s.minted && j in s.db.jobs && Claimable(s.db.jobs[j], at)
    ensures var claimed := ClaimQueued(s.db.jobs[j], token, at, at + 1);
            && claimed.Some?
            && ViewOf(Run(s, ClaimActions(p, j, token, at))) ==
               ViewOf(s).(db := Put(s.db, j, claimed.value),
                          runners := s.runners[p := HoldingRunner(NewWorker(j, token), claimed.value)],
                          minted := s.minted + {token}, received := s.log.received + {j})
  {
    hide Next, Run, Claimable, ClaimDecision, ClaimStatement, ClaimQueued;
    var row := s.db.jobs[j];
    var w := NewWorker(j, token);
    ClaimDecided(s.db, w, at);
    var one := [ReceiveMessage(p, j, token, 1)];
    RunOne(s, one[0]);
    ReceiveMoves(s, p, j, token, 1);
    RunStep(s, one, ReadForClaim(p, at, at + 1, NoFault));
    ReadMoves(Run(s, one), p, at, at + 1);
    var two := one + [ReadForClaim(p, at, at + 1, NoFault)];
    Overwritten(s.runners, p, w, w.(phase := ClaimSeen(row, at, at + 1)));
    ClaimDecided(s.db, w.(phase := ClaimSeen(row, at, at + 1)), at);
    RunStep(s, two, WriteClaim(p, NoFault));
    ClaimMoves(Run(s, two), p);
    var three := two + [WriteClaim(p, NoFault)];
    Overwritten(s.runners, p, w.(phase := ClaimSeen(row, at, at + 1)), w.(phase := Leased));
    RunStep(s, three, RequireClaimedJob(p, NoFault));
    RequireMoves(Run(s, three), p);
    Overwritten(s.runners, p, w.(phase := Leased), HoldingRunner(w, ClaimQueued(row, token, at, at + 1).value));
  }

  // ----- from the very beginning -----

  lemma NothingRecent(db: Db, user: UserId, now: Time)
    requires db.jobs == map[]
    ensures !IsRateLimited(db, user, now)
  {
    assert RecentCreations(db, user, now) == {};
  }

  lemma NothingStale(db: Db, repository: RepositoryId, now: Time)
    requires db.jobs == map[]
    ensures RecoverStaleJobs(db, repository, now) == db
  {
  }

  lemma FirstRequest(db: Db, user: UserId, repository: RepositoryId, j: JobId, now: Time)
    requires db.jobs == map[] && user in db.balances && db.balances[user] > 0
    requires repository in db.repositories && db.repositories[repository].ownerId == user
    ensures AcceptJob(db, user, ApiKey(0), Create(repository), None, j, Current, now) ==
            Accepted(Put(db, j, RequestedJob(db, user, ApiKey(0), Create(repository), None, repository, Current, now)))
  {
    hide IsRateLimited, RecoverStaleJobs;
    NothingRecent(db, user, now);
    NothingStale(db, repository, now);
  }

  /** The first request of a user with tokens, for a repository of that user, is accepted. */
  lemma AcceptMoves(s: State, user: UserId, repository: RepositoryId, j: JobId, now: Time)
    requires s.db.jobs == map[] && user in s.db.balances && s.db.balances[user] > 0
    requires repository in s.db.repositories && s.db.repositories[repository].ownerId == user
    ensures ViewOf(Next(s, AcceptCreate(user, 0, repository, j, Current, now))) ==
            var row := RequestedJob(s.db, user, ApiKey(0), Create(repository), None, repository, Current, now);
            ViewOf(s).(db := Put(s.db, j, row))
  {
    hide NextClaim, NextCall, NextBill, NextPublish, Serve, AcceptJob, RequestedJob;
    FirstRequest(s.db, user, repository, j, now);
    var row := RequestedJob(s.db, user, ApiKey(0), Create(repository), None, repository, Current, now);
    ViewAfterServe(s, Put(s.db, j, row), j);
  }

  /** A user with tokens owns the repository, and no job exists yet. */
  predicate CanRequest(s: State, user: UserId, repository: RepositoryId) {
    && user in s.db.balances && s.db.balances[user] > 0
    && repository in s.db.repositories && s.db.repositories[repository].ownerId == user
  }

  /** The state in which that request was the only thing that ever happened. */
  lemma AcceptedJob(s: State, user: UserId, repository: RepositoryId, j: JobId, now: Time)
    requires Initial(s) && CanRequest(s, user, repository)
    ensures var t := Run(s, [AcceptCreate(user, 0, repository, j, Current, now)]);
            && t.runners == map[] && t.publishers == map[] && t.minted == {} && t.settings == s.settings
            && t.log.sends == map[] && t.log.received == {} && t.db.balances == s.db.balances
            && t.db.jobs == map[j := NewJob(user, repository, ApiKey(0), Create(repository),
                                            s.db.repositories[repository].lastSyncTime, now, Current, now)]
  {
    hide Next, Run, BalancesOk, RowOk, NewJob;
    var a := AcceptCreate(user, 0, repository, j, Current, now);
    RunOne(s, a);
    AcceptMoves(s, user, repository, j, now);
  }
}
