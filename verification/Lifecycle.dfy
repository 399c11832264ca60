/**
 A job's life when nothing fails: requested, published, claimed, analyzed and saved, or analyzed by a synchronous run.
 Each statement starts in any reachable state.
 */
module Lifecycle {
  import opened Basics
  import opened JobRow
  import opened JobStatements
  import opened WorkerStatements
  import opened PublishStatements
  import opened StatService
  import opened Ledger
  import opened Transactions
  import opened Acceptance
  import opened Admission
  import opened Protocol
  import opened Invariant
  import opened Safety
  import opened Theorems
  import opened Outcomes
  import opened SingleSteps
  import opened ClaimRace
  import opened GivingUp
  import opened Progress
  import opened Endings

  // ----- requests -----

  /** The job table is what an acceptance makes of it: the new row, the stale rows of its repository failed. */
  ghost predicate IsAccepted(before: Db, after: Db, j: JobId, user: UserId, key: Key, request: Request,
                             source: Option<Job>, repository: RepositoryId, version: Version, now: Time)
    requires repository in before.repositories
  {
    && j !in before.jobs && after == before.(jobs := after.jobs) && after.jobs.Keys == before.jobs.Keys + {j}
    && IsRequested(before, after.jobs[j], user, key, request, source, repository, version, now)
    && forall i | i in before.jobs ::
         after.jobs[i] ==
           if before.jobs[i].repositoryId == repository then RecoverStale(before.jobs[i], now) else before.jobs[i]
  }

  /** The conditions under which a new request of the user for the repository is accepted. */
  ghost predicate MayRequest(db: Db, user: UserId, key: Key, repository: RepositoryId, j: JobId, now: Time) {
    && IsNewKey(db, user, key) && IsBelowLimit(db, user, now) && IsOwned(db, user, repository) && IsFunded(db, user)
    && IsFree(db, repository, now) && j !in db.jobs
  }

  lemma AcceptedOrRefused(s: State, user: UserId, key: Key, request: Request, source: Option<Job>, j: JobId,
                          version: Version, now: Time)
    requires Inv(s) && Wanted(request, source).Some?
    ensures var outcome := AcceptJob(s.db, user, key, request, source, j, version, now);
            var repository := Wanted(request, source).value;
            && (outcome.Accepted? <==> MayRequest(s.db, user, key, repository, j, now))
            && (outcome.Accepted? ==>
                  repository in s.db.repositories &&
                  IsAccepted(s.db, outcome.db, j, user, key, request, source, repository, version, now))
  {
    hide RateOk, LogOk, CoverageOk, ReceivedOk, RunnersOk, SendsOk, PublishersOk, RowsOk, AcceptJob, IsBelowLimit,
      IsFree, IsRequested;
    if IsNewKey(s.db, user, key) {
      NewKeyOutcome(s.db, user, key, request, source, j, version, now);
    } else {
      var i :| i in s.db.jobs && s.db.jobs[i].userId == user && s.db.jobs[i].idempotencyKey == key;
      KnownKeyOutcome(s.db, user, key, request, source, j, version, now, i);
    }
    if AcceptJob(s.db, user, key, request, source, j, version, now).Accepted? {
      AcceptedTables(s.db, user, key, request, source, j, version, now);
    }
  }

  /** A request for a new job either makes exactly that job, or changes nothing. */
  lemma NewJobsAreMade(s: State, user: UserId, key: nat, repository: RepositoryId, j: JobId, version: Version,
                       now: Time)
    requires Reachable(s)
    ensures var t := Next(s, AcceptCreate(user, key, repository, j, version, now));
            if MayRequest(s.db, user, ApiKey(key), repository, j, now)
            then
              && IsAccepted(s.db, t.db, j, user, ApiKey(key), Create(repository), None, repository, version, now)
              && ViewOf(t) == ViewOf(s).(db := t.db)
            else t == s
  {
    hide Reachable, Inv, NextClaim, NextCall, NextBill, NextPublish, Serve, AcceptJob, MayRequest, IsAccepted;
    ReachableIsSafe(s);
    AcceptedOrRefused(s, user, ApiKey(key), Create(repository), None, j, version, now);
    var outcome := AcceptJob(s.db, user, ApiKey(key), Create(repository), None, j, version, now);
    if outcome.Accepted? {
      ViewAfterServe(s, outcome.db, j);
    }
  }

  lemma RetryStep(s: State, user: UserId, key: nat, source: JobId, j: JobId, version: Version, now: Time)
    ensures Next(s, AcceptRetry(user, key, source, j, version, now)) ==
            DoAcceptRetry(s, user, key, source, j, version, now)
  {
    hide NextClaim, NextCall, NextBill, NextPublish, DoAcceptRetry;
  }

  /**
   A retry makes a job over the window of its source if the source is the user's own, failed, and open to a retry, and a
   new job may be made for its repository; else it changes nothing.
   */
  lemma RetriesAreMade(s: State, user: UserId, key: nat, source: JobId, j: JobId, version: Version, now: Time)
    requires Reachable(s)
    ensures source in s.db.jobs ==> s.db.jobs[source].repositoryId in s.db.repositories
    ensures var t := Next(s, AcceptRetry(user, key, source, j, version, now));
            if && source in s.db.jobs && s.db.jobs[source].userId == user && s.db.jobs[source].status == Failed
               && s.db.jobs[source].errorRetryable == Some(true)
               && MayRequest(s.db, user, ApiKey(key), s.db.jobs[source].repositoryId, j, now)
            then
              && IsAccepted(s.db, t.db, j, user, ApiKey(key), Retry(source), Some(s.db.jobs[source]),
                            s.db.jobs[source].repositoryId, version, now)
              && ViewOf(t) == ViewOf(s).(db := t.db)
            else t == s
  {
    hide Reachable, Inv, Next, Serve, AcceptJob, MayRequest, IsAccepted;
    RetryStep(s, user, key, source, j, version, now);
    ReachableIsSafe(s);
    if source in s.db.jobs {
      RepositoryExists(s, source);
      AcceptedOrRefused(s, user, ApiKey(key), Retry(source), Some(s.db.jobs[source]), j, version, now);
      var outcome := AcceptJob(s.db, user, ApiKey(key), Retry(source), Some(s.db.jobs[source]), j, version, now);
      if outcome.Accepted? {
        ViewAfterServe(s, outcome.db, j);
      }
    }
  }

  lemma RepositoryExists(s: State, j: JobId)
    requires Inv(s) && j in s.db.jobs
    ensures s.db.jobs[j].userId in s.db.balances && s.db.jobs[j].repositoryId in s.db.repositories
    ensures RowOk(s.db.jobs[j])
  {
    hide RateOk, LogOk, CoverageOk, ReceivedOk, RunnersOk, SendsOk, PublishersOk, RowOk, BalancesOk, ReportsOk,
      OneActivePerRepository, OneJobPerKey;
  }

  /** A message that cannot be read ends its job, if that is still queued; it cannot be retried. */
  lemma InvalidMessagesEnd(s: State, j: JobId, now: Time)
    requires Reachable(s)
    ensures var t := Next(s, ReceiveInvalidMessage(j, now));
            if j in s.db.jobs && s.db.jobs[j].status == Queued
            then
              && IsUnbilled(s.db, j) && IsRefunded(s.db, t.db, j, InvalidMessage, false, NoCompletion)
              && t.db.jobs[j].nextPublishAt.None?
              && ViewOf(t) == ViewOf(s).(db := t.db)
            else t == s
  {
    hide Reachable, Inv, NextClaim, NextCall, NextBill, NextPublish, Serve, RowStep, PublishUntouched, IsRefunded;
    if j in s.db.jobs && s.db.jobs[j].status == Queued {
      ReachableIsSafe(s);
      RepositoryExists(s, j);
      SettlementRefunds(s.db, j, Queued, None, InvalidMessage, false, now);
      ViewAfterServe(s, SettleJob(s.db, j, Queued, None, InvalidMessage, false, now).db, j);
    }
  }

  // ----- publication -----

  /** A publisher that is not told to republish sends for the job: queued, due, never published, and attempts left. */
  predicate IsUnpublished(row: Job, now: Time, settings: PublishSettings) {
    && row.status == Queued && !IsSyncJob(row) && row.messagePublishedAt.None?
    && (row.nextPublishAt.None? || row.nextPublishAt.value <= now) && row.publishAttempts < settings.maxAttempts
  }

  /**
   A publisher sends for a queued job that is due and not a synchronous one: the first time, or, when it may republish,
   some time after the last delivery; and while attempts are left, unless a worker has reserved tokens for the job or an
   earlier send is in doubt.
   */
  predicate IsToBeSent(row: Job, now: Time, settings: PublishSettings, allowRepublish: bool) {
    && row.status == Queued && !IsSyncJob(row) && (row.nextPublishAt.None? || row.nextPublishAt.value <= now)
    && (row.messagePublishedAt.None? ||
        (allowRepublish && row.messagePublishedAt.value + settings.republishAfterMs <= now))
    && (row.publishAttempts < settings.maxAttempts || row.reservedTokens.Some? ||
        row.lastErrorCode == Some(PublishInProgress) || row.lastErrorCode == Some(PublishDeliveryUncertain))
  }

  /** Nobody has sent for the job, or ended or claimed it, since the row was read. */
  predicate IsAsSeen(row: Job, seen: Job) {
    && row.status == Queued && row.publishAttempts == seen.publishAttempts
    && row.messagePublishedAt == seen.messagePublishedAt && row.nextPublishAt == seen.nextPublishAt
  }

  /**
   A publisher goes on to send exactly for such a job, if the row is still as it was read, and else leaves everything as
   it is. The claim counts the attempt, keeps other publishers away for a while, and marks the row as in doubt, more
   strongly if it was so before.
   */
  lemma PublishersGoOn(s: State, q: nat, now: Time)
    requires q in s.publishers && s.publishers[q].phase.Loaded? && s.publishers[q].job in s.db.jobs
    ensures var b, t := s.publishers[q], Next(s, ClaimPublish(q, now, NoFault));
            var row := s.db.jobs[b.job];
            q in t.publishers &&
            if IsToBeSent(b.seen, now, s.settings, b.allowRepublish) && IsAsSeen(row, b.seen)
            then
              && t.publishers[q].phase.Sending? && t.publishers[q].phase.attempt == row.publishAttempts + 1
              && t.db == Put(s.db, b.job,
                   row.(publishAttempts := row.publishAttempts + 1,
                        nextPublishAt := Some(now + s.settings.republishAfterMs),
                        lastErrorCode :=
                          Some(if WasInDoubt(b.seen) then PublishDeliveryUncertain else PublishInProgress),
                        errorRetryable := None, updatedAt := now))
              && t.log.sends == s.log.sends[Send(b.job, row.publishAttempts + 1) := InFlight]
            else t.db == s.db && t.publishers[q].phase.Idle? && t.log.sends == s.log.sends
  {
    hide NextClaim, NextCall, NextBill, NextRequest, Publish, WantsAttempt, ClaimAttempt, DeliveryUncertain, IsToBeSent,
      IsAsSeen, WasInDoubt;
    var b := s.publishers[q];
    var row := s.db.jobs[b.job];
    SendingRow(row, b.seen, now, s.settings, b.allowRepublish);
    ViewAfterPublish(s, q, b.(phase := Idle), s.db, s.log.sends);
    if IsToBeSent(b.seen, now, s.settings, b.allowRepublish) && IsAsSeen(row, b.seen) {
      var next := now + s.settings.republishAfterMs;
      var claimed := ClaimAttempt(row, b.seen, next, DeliveryUncertain(b.seen), now).value;
      ViewAfterPublish(s, q, b.(phase := Sending(b.seen.publishAttempts + 1, next, DeliveryUncertain(b.seen), now)),
                       Put(s.db, b.job, claimed), s.log.sends[Send(b.job, b.seen.publishAttempts + 1) := InFlight]);
    }
  }

  lemma SendingRow(row: Job, seen: Job, now: Time, settings: PublishSettings, allowRepublish: bool)
    ensures WantsAttempt(seen, now, settings, allowRepublish) <==> IsToBeSent(seen, now, settings, allowRepublish)
    ensures ClaimAttempt(row, seen, now + settings.republishAfterMs, DeliveryUncertain(seen), now) ==
            if !IsAsSeen(row, seen) then None
            else Some(
              row.(publishAttempts := row.publishAttempts + 1, nextPublishAt := Some(now + settings.republishAfterMs),
                   lastErrorCode := Some(if WasInDoubt(seen) then PublishDeliveryUncertain else PublishInProgress),
                   errorRetryable := None, updatedAt := now))
    ensures IsAsSeen(row, seen) ==> row.publishAttempts == seen.publishAttempts
  {
    hide RowOk, RowStep, PublishStep, Held;
  }

  /** An earlier send may have been delivered. */
  predicate WasInDoubt(row: Job) {
    || row.messagePublishedAt.Some? || row.lastErrorCode == Some(PublishInProgress)
    || row.lastErrorCode == Some(PublishDeliveryUncertain)
  }

  /** A publisher's claim is still the last one on the row. */
  predicate IsStillClaimed(row: Job, b: Publisher)
    requires b.phase.Sent? || b.phase.Refused?
  {
    && row.status == Queued && row.publishAttempts == b.phase.attempt
    && row.messagePublishedAt == b.seen.messagePublishedAt
    && row.nextPublishAt == Some(b.phase.claimedNextPublishAt)
  }

  /** What a publisher has to say about a row that is no longer its own is ignored. */
  lemma LateRecordsAreIgnored(s: State, q: nat, next: Time, fault: Fault)
    requires q in s.publishers && (s.publishers[q].phase.Sent? || s.publishers[q].phase.Refused?)
    requires s.publishers[q].job in s.db.jobs
    requires !IsStillClaimed(s.db.jobs[s.publishers[q].job], s.publishers[q])
    ensures Next(s, RecordPublished(q, fault)).db == s.db && Next(s, RecordPublishFailure(q, next, fault)).db == s.db
  {
    hide NextClaim, NextCall, NextBill, NextPublish, NextRequest, IsStillClaimed;
    LatePublication(s, q, fault);
    LateFailure(s, q, next, fault);
  }

  lemma LatePublication(s: State, q: nat, fault: Fault)
    requires q in s.publishers && (s.publishers[q].phase.Sent? || s.publishers[q].phase.Refused?)
    requires s.publishers[q].job in s.db.jobs
    requires !IsStillClaimed(s.db.jobs[s.publishers[q].job], s.publishers[q])
    ensures NextPublish(s, RecordPublished(q, fault)).db == s.db
  {
    hide Audit, MarkPublished, IsStillClaimed;
    LateRecord(s.db.jobs[s.publishers[q].job], s.publishers[q], 0, s.settings);
  }

  lemma LateFailure(s: State, q: nat, next: Time, fault: Fault)
    requires q in s.publishers && (s.publishers[q].phase.Sent? || s.publishers[q].phase.Refused?)
    requires s.publishers[q].job in s.db.jobs
    requires !IsStillClaimed(s.db.jobs[s.publishers[q].job], s.publishers[q])
    ensures NextPublish(s, RecordPublishFailure(q, next, fault)).db == s.db
  {
    hide Audit, RecordFailure, ReachesGiveUp, IsStillClaimed;
    LateRecord(s.db.jobs[s.publishers[q].job], s.publishers[q], next, s.settings);
  }

  lemma LateRecord(row: Job, b: Publisher, next: Time, settings: PublishSettings)
    requires (b.phase.Sent? || b.phase.Refused?) && !IsStillClaimed(row, b)
    ensures MarkPublished(row, b.seen, b.phase.attempt, b.phase.claimedNextPublishAt, b.phase.at).None?
    ensures b.phase.Refused? ==> FailureRow(row, b, next, settings).None?
  {
    hide RowOk, RowStep, PublishStep, Held, ReachesGiveUp;
  }

  function PublishingActions(q: nat, j: JobId, now: Time): seq<Action> {
    PublisherActions(q, j, now, Delivered) + [RecordPublished(q, NoFault)]
  }

  lemma PublishedMoves(s: State, q: nat)
    requires q in s.publishers && s.publishers[q].phase.Sent? && s.publishers[q].job in s.db.jobs
    requires var b := s.publishers[q];
             MarkPublished(s.db.jobs[b.job], b.seen, b.phase.attempt, b.phase.claimedNextPublishAt, b.phase.at).Some?
    ensures ViewOf(Next(s, RecordPublished(q, NoFault))) ==
            var b := s.publishers[q];
            var row := MarkPublished(s.db.jobs[b.job], b.seen, b.phase.attempt, b.phase.claimedNextPublishAt,
                                     b.phase.at);
            ViewOf(s).(db := Put(s.db, b.job, row.value), publishers := s.publishers[q := b.(phase := Idle)])
  {
    hide NextClaim, NextCall, NextBill, NextRequest, Publish, MarkPublished;
    var b := s.publishers[q];
    var row := MarkPublished(s.db.jobs[b.job], b.seen, b.phase.attempt, b.phase.claimedNextPublishAt, b.phase.at);
    ViewAfterPublish(s, q, b.(phase := Idle), Put(s.db, b.job, row.value), s.log.sends);
  }

  lemma DeliveredRow(row: Job, now: Time, settings: PublishSettings)
    requires IsUnpublished(row, now, settings)
    ensures WantsAttempt(row, now, settings, false)
    ensures var due := now + settings.republishAfterMs;
            var claimed := ClaimAttempt(row, row, due, DeliveryUncertain(row), now);
            claimed.Some? &&
            MarkPublished(claimed.value, row, row.publishAttempts + 1, due, now) ==
            Some(row.(publishAttempts := row.publishAttempts + 1, messagePublishedAt := Some(now),
                      nextPublishAt := None, lastErrorCode := None, errorRetryable := None, updatedAt := now))
  {
    hide RowOk, RowStep, PublishStep;
  }

  /** A message that the queue takes is recorded: one more attempt, published, and no error left on the row. */
  lemma MessagesArePublished(s: State, q: nat, j: JobId, now: Time)
    requires q !in s.publishers && j in s.db.jobs && IsUnpublished(s.db.jobs[j], now, s.settings)
    ensures var t := Run(s, PublishingActions(q, j, now));
            var row := s.db.jobs[j];
            && t.db == Put(s.db, j,
                 row.(publishAttempts := row.publishAttempts + 1, messagePublishedAt := Some(now),
                      nextPublishAt := None, lastErrorCode := None, errorRetryable := None, updatedAt := now))
            && t.log.sends == s.log.sends[Send(j, row.publishAttempts + 1) := Delivered]
            && t.runners == s.runners && t.minted == s.minted
  {
    hide Next, Run, WantsAttempt, ClaimAttempt, MarkPublished, DeliveryUncertain, IsUnpublished, PublisherActions;
    var row := s.db.jobs[j];
    DeliveredRow(row, now, s.settings);
    PublisherSends(s, q, j, now, Delivered);
    var first := PublisherActions(q, j, now, Delivered);
    var claimed := ClaimAttempt(row, row, now + s.settings.republishAfterMs, DeliveryUncertain(row), now).value;
    RunStep(s, first, RecordPublished(q, NoFault));
    PublishedMoves(Run(s, first), q);
    Overwritten(s.db.jobs, j, claimed, Run(s, first + [RecordPublished(q, NoFault)]).db.jobs[j]);
  }

  /** The queue refuses the message, or nobody knows whether it took it. */
  function FailingActions(q: nat, j: JobId, now: Time, outcome: SendState, next: Time): seq<Action> {
    PublisherActions(q, j, now, outcome) + [RecordPublishFailure(q, next, NoFault)]
  }

  /** An earlier send, or this one, may have been delivered. */
  predicate InDoubt(row: Job, outcome: SendState) {
    outcome == Unknown || WasInDoubt(row)
  }

  lemma RefusedRow(j: JobId, row: Job, now: Time, outcome: SendState, next: Time, settings: PublishSettings)
    requires IsUnpublished(row, now, settings) && (outcome == Rejected || outcome == Unknown)
    ensures WantsAttempt(row, now, settings, false)
    ensures var claimed := ClaimAttempt(row, row, now + settings.republishAfterMs, DeliveryUncertain(row), now);
            claimed.Some? &&
            var after :=
              FailureRow(claimed.value, AnsweredSender(Sender(j, row, now, settings), outcome), next, settings);
            after.Some? && IsDeferredOrGivenUp(row, after.value, outcome, next, now, settings)
  {
    hide RowOk, RowStep, PublishStep;
  }

  /**
   At the limit of attempts, without doubt and without a reservation, the job is given up: FAILED, for nothing, and open
   to a retry by the user. Otherwise it stays queued until `next`, and a doubt stays on the row.
   */
  predicate IsDeferredOrGivenUp(before: Job, after: Job, outcome: SendState, next: Time, now: Time,
                                settings: PublishSettings)
  {
    && after.publishAttempts == before.publishAttempts + 1 && after.messagePublishedAt.None?
    && SameRequest(before, after) && after.reservedTokens == before.reservedTokens
    && if before.publishAttempts + 1 >= settings.maxAttempts && !InDoubt(before, outcome) && before.reservedTokens.None?
       then
         && after.status == Failed && after.lastErrorCode == Some(PublishFailed) && after.errorRetryable == Some(true)
         && after.totalTokens == Some(0) && after.tokensSettledAt == Some(now) && after.completedAt == Some(now)
       else
         && after.status == Queued && after.nextPublishAt == Some(next) && after.errorRetryable.None?
         && after.lastErrorCode ==
              Some(if InDoubt(before, outcome) then PublishDeliveryUncertain else PublishAttemptFailed)
  }

  /** What becomes of a job whose message is refused, or of whose message nobody knows. */
  lemma RefusalsAreRecorded(s: State, q: nat, j: JobId, now: Time, outcome: SendState, next: Time)
    requires q !in s.publishers && j in s.db.jobs && IsUnpublished(s.db.jobs[j], now, s.settings)
    requires outcome == Rejected || outcome == Unknown
    ensures var t := Run(s, FailingActions(q, j, now, outcome, next));
            && j in t.db.jobs && t.db == Put(s.db, j, t.db.jobs[j])
            && IsDeferredOrGivenUp(s.db.jobs[j], t.db.jobs[j], outcome, next, now, s.settings)
            && t.log.sends == s.log.sends[Send(j, s.db.jobs[j].publishAttempts + 1) := outcome]
  {
    hide Next, Run, WantsAttempt, ClaimAttempt, FailureRow, DeliveryUncertain, IsUnpublished, PublisherActions,
      IsDeferredOrGivenUp;
    var row := s.db.jobs[j];
    RefusedRow(j, row, now, outcome, next, s.settings);
    PublisherSends(s, q, j, now, outcome);
    var first := PublisherActions(q, j, now, outcome);
    var claimed := ClaimAttempt(row, row, now + s.settings.republishAfterMs, DeliveryUncertain(row), now).value;
    RunStep(s, first, RecordPublishFailure(q, next, NoFault));
    FailureMoves(Run(s, first), q, next);
    Overwritten(s.db.jobs, j, claimed, Run(s, first + [RecordPublishFailure(q, next, NoFault)]).db.jobs[j]);
  }

  // ----- a worker's job -----

  /** The job is SUCCEEDED under this bill and has its report; its user has paid the usage, and no more. */
  ghost predicate IsAnalyzed(before: Db, after: Db, j: JobId, requestId: RequestId, usage: Usage)
  {
    && j in before.jobs && before.jobs[j].userId in before.balances
    && j in after.jobs && after.jobs == before.jobs[j := after.jobs[j]]
    && after.jobs[j].status == Succeeded && EvidenceOf(after.jobs[j]) == Billed(Some(requestId), Some(usage))
    && after.reports == before.reports[j := Report(before.jobs[j].userId, before.jobs[j].repositoryId)]
    && after.balances == before.balances[before.jobs[j].userId :=
                                         before.balances[before.jobs[j].userId] - usage.totalTokens]
  }

  lemma SavedIsAnalyzed(before: Db, called: Db, after: Db, j: JobId, required: int, completion: Completion,
                        requestId: RequestId, usage: Usage, scores: Scores)
    requires j in before.jobs && j in called.jobs && before.jobs[j].userId in before.balances
    requires called == before.(jobs := before.jobs[j := called.jobs[j]],
                               balances := before.balances[before.jobs[j].userId :=
                                 before.balances[before.jobs[j].userId] - required])
    requires called.jobs[j].userId == before.jobs[j].userId
    requires called.jobs[j].repositoryId == before.jobs[j].repositoryId
    requires called.jobs[j].reservedTokens == Some(required)
    requires IsReserved(called, j) && IsSaved(called, after, j, completion, requestId, usage, scores)
    ensures IsAnalyzed(before, after, j, requestId, usage)
    ensures CheckpointOk(before.repositories, after.repositories, before.jobs[j].userId, before.jobs[j].repositoryId,
                         completion)
  {
    hide UpdatedStat, EvidenceOf, Billed, CheckpointOk;
    Overwritten(before.jobs, j, called.jobs[j], after.jobs[j]);
    Overwritten(before.balances, before.jobs[j].userId, before.balances[before.jobs[j].userId] - required,
                before.balances[before.jobs[j].userId] - usage.totalTokens);
  }

  function WorkingActions(p: nat, j: JobId, token: Token, required: int, at: Time, requestId: RequestId, usage: Usage,
                          scores: Scores): seq<Action> {
    ClaimActions(p, j, token, at) + ReserveActions(p, required, at) + CallActions(p, at, requestId, usage)
    + SavingActions(p, at, at, at + 1, scores, at)
  }

  /**
   A queued job that is due and that its user can pay is analyzed by the next worker that gets its message: the run from
   the delivery to the report, and the window of the row counts as synchronized.
   */
  lemma QueuedJobsAreAnalyzed(s: State, p: nat, j: JobId, token: Token, required: int, at: Time, requestId: RequestId,
                              usage: Usage, scores: Scores)
    requires Reachable(s) && p !in s.runners && token !in s.minted && ReadyToCall(s, j, required, at)
    requires IsValidUsage(usage) && usage.totalTokens <= required
    ensures s.db.jobs[j].repositoryId in s.db.repositories
    ensures var t := Run(s, WorkingActions(p, j, token, required, at, requestId, usage, scores));
            && IsAnalyzed(s.db, t.db, j, requestId, usage)
            && CheckpointOk(s.db.repositories, t.db.repositories, s.db.jobs[j].userId, s.db.jobs[j].repositoryId,
                            WorkerCheckpoint(s.db.jobs[j].collectionCutoff))
            && p in t.runners && t.runners[p].phase == Done(Finished)
  {
    hide Reachable, Inv, Next, Run, Claimable, IsValidUsage, ClaimActions, ReserveActions, CallActions, SavingActions,
      HasBillingEvidence, IsSaved, CheckpointOk, IsAnalyzed, RowOk;
    ReachableIsSafe(s);
    RepositoryExists(s, j);
    ClaimedAndCalled(s, p, j, token, required, at, requestId, usage);
    var first := ClaimActions(p, j, token, at) + ReserveActions(p, required, at) + CallActions(p, at, requestId, usage);
    var called := Run(s, first);
    StaysReachable(s, first);
    RequestIsKept(s, first, j);
    AnswerIsSaved(called, p, at, at, at + 1, scores, at);
    RunThen(s, first, SavingActions(p, at, at, at + 1, scores, at));
    SavedIsAnalyzed(s.db, called.db, Run(called, SavingActions(p, at, at, at + 1, scores, at)).db, j, required,
                    CompletionOf(called.runners[p]), requestId, usage, scores);
  }

  // ----- from the request to the report -----

  /**
   The job is SUCCEEDED, its report exists, the user has paid the usage, and the repository is synchronized to `until`.
   */
  ghost predicate IsServed(before: Db, after: Db, user: UserId, repository: RepositoryId, j: JobId, until: Time,
                           requestId: RequestId, usage: Usage) {
    && user in before.balances && user in after.balances
    && repository in before.repositories && repository in after.repositories
    && j in after.jobs && after.jobs[j].status == Succeeded && after.jobs[j].userId == user
    && EvidenceOf(after.jobs[j]) == Billed(Some(requestId), Some(usage))
    && after.reports == before.reports[j := Report(user, repository)]
    && after.balances == before.balances[user := before.balances[user] - usage.totalTokens]
    && IsLatest(before.repositories[repository].lastSyncTime, until, after.repositories[repository].lastSyncTime)
  }

  lemma AcceptedIsUnpublished(before: Db, after: Db, j: JobId, user: UserId, key: Key, repository: RepositoryId,
                              now: Time, settings: PublishSettings)
    requires repository in before.repositories && settings.maxAttempts > 0 && key.ApiKey?
    requires IsAccepted(before, after, j, user, key, Create(repository), None, repository, Current, now)
    ensures j in after.jobs && IsUnpublished(after.jobs[j], now, settings)
    ensures var row := after.jobs[j];
            && row.userId == user && row.repositoryId == repository && row.version == Current
            && row.reservedTokens.None?
            && row.collectionCutoff == now && row.attemptCount == 0 && row.maxAttempts == 5
    ensures after.balances == before.balances && after.repositories == before.repositories
    ensures after.reports == before.reports
  {
  }

  /** The job is ready for a worker; nothing but the job table has changed. */
  predicate IsAwaiting(s: State, t: State, user: UserId, repository: RepositoryId, j: JobId, required: int, at: Time) {
    && ReadyToCall(t, j, required, at) && t.db.jobs[j].userId == user && t.db.jobs[j].repositoryId == repository
    && t.db.jobs[j].collectionCutoff == at
    && t.db.balances == s.db.balances && t.db.repositories == s.db.repositories && t.db.reports == s.db.reports
    && t.runners == s.runners && t.minted == s.minted
  }

  function FirstActions(user: UserId, key: nat, repository: RepositoryId, j: JobId, q: nat, at: Time): seq<Action> {
    [AcceptCreate(user, key, repository, j, Current, at)] + PublishingActions(q, j, at)
  }

  function WholeLife(user: UserId, key: nat, repository: RepositoryId, j: JobId, q: nat, p: nat, token: Token,
                     required: int, at: Time, requestId: RequestId, usage: Usage, scores: Scores): seq<Action> {
    FirstActions(user, key, repository, j, q, at)
    + WorkingActions(p, j, token, required, at, requestId, usage, scores)
  }

  lemma RequestsArePublished(s: State, user: UserId, key: nat, repository: RepositoryId, j: JobId, q: nat,
                             required: int, at: Time)
    requires Reachable(s) && MayRequest(s.db, user, ApiKey(key), repository, j, at)
    requires q !in s.publishers && s.settings.maxAttempts > 0 && 0 <= required <= s.db.balances[user]
    ensures IsAwaiting(s, Run(s, FirstActions(user, key, repository, j, q, at)), user, repository, j, required, at)
  {
    hide Reachable, Inv, Next, Run, IsAccepted, IsNewKey, IsBelowLimit, IsFree, PublishingActions, IsUnpublished, RowOk;
    var first := [AcceptCreate(user, key, repository, j, Current, at)];
    NewJobsAreMade(s, user, key, repository, j, Current, at);
    RunOne(s, first[0]);
    var s1 := Run(s, first);
    AcceptedIsUnpublished(s.db, s1.db, j, user, ApiKey(key), repository, at, s.settings);
    MessagesArePublished(s1, q, j, at);
    RunThen(s, first, PublishingActions(q, j, at));
    StaysReachable(s, first + PublishingActions(q, j, at));
    ReachableIsSafe(Run(s, first + PublishingActions(q, j, at)));
    RowOf(Run(s, first + PublishingActions(q, j, at)), j);
  }

  /** From the request on: accepted, published, claimed, analyzed within the reservation, saved. */
  lemma RequestsAreServed(s: State, user: UserId, key: nat, repository: RepositoryId, j: JobId, q: nat, p: nat,
                          token: Token, required: int, at: Time, requestId: RequestId, usage: Usage, scores: Scores)
    requires Reachable(s) && MayRequest(s.db, user, ApiKey(key), repository, j, at)
    requires q !in s.publishers && p !in s.runners && token !in s.minted && s.settings.maxAttempts > 0
    requires IsValidUsage(usage) && usage.totalTokens <= required <= s.db.balances[user]
    ensures var t := Run(s, WholeLife(user, key, repository, j, q, p, token, required, at, requestId, usage, scores));
            IsServed(s.db, t.db, user, repository, j, at, requestId, usage)
  {
    hide Reachable, Next, Run, IsNewKey, IsBelowLimit, IsFree, FirstActions, WorkingActions, ReadyToCall, EvidenceOf,
      Billed;
    var first := FirstActions(user, key, repository, j, q, at);
    RequestsArePublished(s, user, key, repository, j, q, required, at);
    StaysReachable(s, first);
    ReadyJob(Run(s, first), j, required, at);
    QueuedJobsAreAnalyzed(Run(s, first), p, j, token, required, at, requestId, usage, scores);
    RunThen(s, first, WorkingActions(p, j, token, required, at, requestId, usage, scores));
    StillTheUsers(Run(s, first), WorkingActions(p, j, token, required, at, requestId, usage, scores), j);
  }

  lemma ReadyJob(s: State, j: JobId, required: int, at: Time)
    requires ReadyToCall(s, j, required, at)
    ensures j in s.db.jobs
  {
    hide Claimable;
  }

  lemma StillTheUsers(s: State, actions: seq<Action>, j: JobId)
    requires Reachable(s) && j in s.db.jobs
    ensures j in Run(s, actions).db.jobs && Run(s, actions).db.jobs[j].userId == s.db.jobs[j].userId
  {
    hide Reachable, Inv, Run;
    ReachableIsSafe(s);
    RequestIsKept(s, actions, j);
  }
}
