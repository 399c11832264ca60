/** Where giving up on publication goes wrong: a run that gives up a job whose message was delivered. */
module GivingUp {
  import opened Basics
  import opened JobRow
  import opened WorkerStatements
  import opened PublishStatements
  import opened Ledger
  import opened Acceptance
  import opened Protocol
  import opened Invariant
  import opened Safety
  import opened Outcomes
  import opened SingleSteps

  // ----- a publisher sends -----

  function PublisherActions(q: nat, j: JobId, now: Time, outcome: SendState): seq<Action> {
    [LoadForPublish(q, j, false)] + [ClaimPublish(q, now, NoFault)] + [SendMessage(q, outcome)]
  }

  /** What a publisher that sends for `row` then knows. */
  function Sender(j: JobId, row: Job, now: Time, settings: PublishSettings): Publisher {
    Publisher(j, row, false,
              Sending(row.publishAttempts + 1, now + settings.republishAfterMs, DeliveryUncertain(row), now))
  }

  lemma PublisherSends(s: State, q: nat, j: JobId, now: Time, outcome: SendState)
    requires q !in s.publishers && j in s.db.jobs && outcome != InFlight
    requires WantsAttempt(s.db.jobs[j], now, s.settings, false)
    ensures var row := s.db.jobs[j];
            var claimed := ClaimAttempt(row, row, now + s.settings.republishAfterMs, DeliveryUncertain(row), now);
            && claimed.Some?
            && ViewOf(Run(s, PublisherActions(q, j, now, outcome))) ==
               ViewOf(s).(db := Put(s.db, j, claimed.value),
                          publishers := s.publishers[q := AnsweredSender(Sender(j, row, now, s.settings), outcome)],
                          sends := s.log.sends[Send(j, row.publishAttempts + 1) := outcome])
  {
    hide Next, Run, WantsAttempt, DeliveryUncertain, ClaimAttempt;
    ClaimWanted(s.db.jobs[j], now, s.settings);
    var first := [LoadForPublish(q, j, false)];
    RunOne(s, first[0]);
    LoadMoves(s, q, j);
    RunStep(s, first, ClaimPublish(q, now, NoFault));
    ClaimPublishMoves(Run(s, first), q, now);
    var second := first + [ClaimPublish(q, now, NoFault)];
    RunStep(s, second, SendMessage(q, outcome));
    SendMoves(Run(s, second), q, outcome);
    Overwritten(s.log.sends, Send(j, s.db.jobs[j].publishAttempts + 1), InFlight, outcome);
    var b := Sender(j, s.db.jobs[j], now, s.settings);
    Overwritten(s.publishers, q, b.(phase := Loaded), b);
    Overwritten(s.publishers, q, b, AnsweredSender(b, outcome));
  }

  lemma ClaimWanted(row: Job, now: Time, settings: PublishSettings)
    requires WantsAttempt(row, now, settings, false)
    ensures ClaimAttempt(row, row, now + settings.republishAfterMs, DeliveryUncertain(row), now).Some?
  {
    hide PublishStep, RowStep, RowOk;
  }

  // ----- a worker gives the job back -----

  function ReturnActions(p: nat, at: Time): seq<Action> {
    [ReadCheckpoint(p, NoFault)] + [FinishCollection(p, 0, 0, NoFault, true)]
    + [ReleaseFailed(p, at, TemporaryFailure, at, NoFault)]
  }

  /** Collection fails for a passing reason. */
  lemma WorkerReturns(s: State, p: nat, at: Time)
    requires p in s.runners && s.runners[p].phase.Holding? && Holds(s.db, s.runners[p])
    requires s.runners[p].attempt < s.runners[p].limit && s.runners[p].receiveCount < s.runners[p].limit
    requires var row := s.db.jobs[s.runners[p].job];
             row.status == Running && !HasBillingEvidence(row) && row.version != Retired && row.tokensSettledAt.None?
    ensures var w := s.runners[p];
            var released := ReleaseForRetry(s.db.jobs[w.job], w.token, at, TemporaryFailure, at);
            && released.Some?
            && ViewOf(Run(s, ReturnActions(p, at))) ==
               ViewOf(s).(db := Put(s.db, w.job, released.value),
                          runners := s.runners[p := w.(phase := Done(Redeliver))])
  {
    hide Next, Run, HasBillingEvidence, RowOk, RowStep, PublishUntouched, Held;
    var w := s.runners[p];
    var one := [ReadCheckpoint(p, NoFault)];
    RunOne(s, one[0]);
    CheckpointMoves(s, p);
    RunStep(s, one, FinishCollection(p, 0, 0, NoFault, true));
    FailMoves(Run(s, one), p);
    var two := one + [FinishCollection(p, 0, 0, NoFault, true)];
    RunStep(s, two, ReleaseFailed(p, at, TemporaryFailure, at, NoFault));
    ReleaseMoves(Run(s, two), p, at, TemporaryFailure, at);
    Overwritten(s.runners, p, w.(phase := Collecting), w.(phase := Failing));
    Overwritten(s.runners, p, w.(phase := Failing), w.(phase := Done(Redeliver)));
  }

  // ----- a delivered job is given up -----

  /** A job that was accepted and never published or claimed. */
  predicate FreshlyQueued(row: Job, now: Time) {
    && RowOk(row) && row.status == Queued && !IsSyncJob(row) && row.version != Retired
    && row.publishAttempts == 0 && row.messagePublishedAt.None? && row.lastErrorCode.None? && row.reservedTokens.None?
    && row.attemptCount + 1 < row.maxAttempts
    && (row.nextPublishAt.None? || row.nextPublishAt.value <= now)
  }

  function SentRow(row: Job, now: Time, settings: PublishSettings): Option<Job> {
    ClaimAttempt(row, row, now + settings.republishAfterMs, DeliveryUncertain(row), now)
  }

  /** The first send leaves a mark of doubt on the row, and the row is due for a worker when the mark would expire. */
  lemma FirstSend(row: Job, now: Time, settings: PublishSettings)
    requires FreshlyQueued(row, now) && settings.maxAttempts >= 2
    ensures WantsAttempt(row, now, settings, false) && SentRow(row, now, settings).Some?
    ensures var sent := SentRow(row, now, settings).value;
            && Claimable(sent, now + settings.republishAfterMs) && DeliveryUncertain(sent)
            && sent.publishAttempts == 1 && sent.messagePublishedAt.None? && sent.reservedTokens.None?
            && sent.version != Retired && !IsSyncJob(sent) && sent.attemptCount == row.attemptCount
  {
    var sent := SentRow(row, now, settings).value;
    assert RowOk(sent);
    hide RowOk, RowStep;
  }

  /** A claim clears the mark, and the release for a retry does not restore it. */
  lemma MarkIsCleared(sent: Job, token: Token, at: Time)
    requires Claimable(sent, at) && ClaimQueued(sent, token, at, at + 1).Some?
    requires sent.publishAttempts == 1 && sent.messagePublishedAt.None? && sent.reservedTokens.None? && !IsSyncJob(sent)
    ensures var claimed := ClaimQueued(sent, token, at, at + 1).value;
            var released := ReleaseForRetry(claimed, token, at, TemporaryFailure, at);
            && !HasBillingEvidence(claimed) && claimed.tokensSettledAt.None? && claimed.version == sent.version
            && claimed.status == Running && claimed.leaseToken == Some(token)
            && claimed.attemptCount == sent.attemptCount + 1 && claimed.maxAttempts == sent.maxAttempts
            && released.Some? && released.value.attemptCount == sent.attemptCount + 1
            && !DeliveryUncertain(released.value) && released.value.status == Queued && !IsSyncJob(released.value)
            && released.value.publishAttempts == 1 && released.value.nextPublishAt == Some(at)
            && released.value.messagePublishedAt.None? && released.value.reservedTokens.None?
  {
    QueuedRow(sent);
    hide RowOk, RowStep, PublishUntouched;
  }

  /** A queued row that shows no trace of a delivery and is due at `at`. */
  predicate Undoubted(row: Job, at: Time) {
    && row.status == Queued && !DeliveryUncertain(row) && !IsSyncJob(row) && row.nextPublishAt == Some(at)
    && row.messagePublishedAt.None? && row.reservedTokens.None?
  }

  /** A publisher of such a row whose send was rejected. */
  function RejectedSender(j: JobId, row: Job, at: Time, settings: PublishSettings): Publisher {
    AnsweredSender(Sender(j, row, at, settings), Rejected)
  }

  /** A rejected send leaves no trace either, and at the limit nothing on the row speaks against giving up. */
  lemma RejectedSend(j: JobId, row: Job, at: Time, settings: PublishSettings)
    requires Undoubted(row, at) && row.publishAttempts < settings.maxAttempts
    ensures WantsAttempt(row, at, settings, false) && SentRow(row, at, settings).Some?
    ensures var after :=
              FailureRow(SentRow(row, at, settings).value, RejectedSender(j, row, at, settings), at, settings);
            && after.Some? && after.value.publishAttempts == row.publishAttempts + 1
            && after.value.attemptCount == row.attemptCount
            && if row.publishAttempts + 1 == settings.maxAttempts then after.value.lastErrorCode == Some(PublishFailed)
               else Undoubted(after.value, at)
  {
    hide RowOk, RowStep, PublishStep;
  }

  /** The row after a claim and a release for a retry. */
  function RetriedRow(sent: Job, token: Token, at: Time): Option<Job> {
    var claimed := ClaimQueued(sent, token, at, at + 1);
    if claimed.None? then None else ReleaseForRetry(claimed.value, token, at, TemporaryFailure, at)
  }

  function WorkerActions(p: nat, j: JobId, token: Token, at: Time): seq<Action> {
    ClaimActions(p, j, token, at) + ReturnActions(p, at)
  }

  lemma WorkerComesAndGoes(s: State, p: nat, j: JobId, token: Token, at: Time)
    requires p !in s.runners && token !in s.minted && j in s.db.jobs && Claimable(s.db.jobs[j], at)
    requires var row := s.db.jobs[j];
             row.publishAttempts == 1 && row.messagePublishedAt.None? && row.reservedTokens.None? && !IsSyncJob(row) &&
               row.version != Retired
    ensures var t := Run(s, WorkerActions(p, j, token, at));
            && RetriedRow(s.db.jobs[j], token, at).Some?
            && t.db == Put(s.db, j, RetriedRow(s.db.jobs[j], token, at).value)
            && t.publishers == s.publishers && t.settings == s.settings
            && t.log.sends == s.log.sends && t.log.received == s.log.received + {j}
  {
    hide Next, Run, DeliveryUncertain, Claimable, ClaimQueued, ReleaseForRetry, HasBillingEvidence, RowOk,
      ClaimActions, ReturnActions;
    var sent := s.db.jobs[j];
    WorkerClaims(s, p, j, token, at);
    MarkIsCleared(sent, token, at);
    var s1 := Run(s, ClaimActions(p, j, token, at));
    var claimed := ClaimQueued(sent, token, at, at + 1).value;
    assert s1.db.jobs[j] == claimed && s1.runners[p] == HoldingRunner(NewWorker(j, token), claimed);
    AttemptsLeft(sent, at);
    WorkerReturns(s1, p, at);
    RunThen(s, ClaimActions(p, j, token, at), ReturnActions(p, at));
    Overwritten(s.db.jobs, j, claimed, RetriedRow(sent, token, at).value);
  }

  lemma AttemptsLeft(row: Job, at: Time)
    requires Claimable(row, at)
    ensures 1 <= row.attemptCount + 1 < row.maxAttempts
  {
    hide RowOk;
  }

  function DeliverAndRetryActions(q: nat, p: nat, j: JobId, token: Token, now: Time, at: Time): seq<Action> {
    PublisherActions(q, j, now, Delivered) + WorkerActions(p, j, token, at)
  }

  /**
   The first send is delivered, but the publisher has not yet written this down when a worker claims and returns the
   job.
   */
  lemma DeliveredAndRetried(s: State, j: JobId, q: nat, p: nat, token: Token, now: Time)
    requires q !in s.publishers && p !in s.runners && token !in s.minted
    requires j in s.db.jobs && FreshlyQueued(s.db.jobs[j], now) && s.settings.maxAttempts >= 2
    ensures var row := s.db.jobs[j];
            var at := now + s.settings.republishAfterMs;
            var sent := SentRow(row, now, s.settings);
            var t := Run(s, DeliverAndRetryActions(q, p, j, token, now, at));
            && sent.Some? && RetriedRow(sent.value, token, at).Some?
            && t.db == Put(s.db, j, RetriedRow(sent.value, token, at).value)
            && t.publishers == s.publishers[q := AnsweredSender(Sender(j, row, now, s.settings), Delivered)]
            && t.log.sends == s.log.sends[Send(j, 1) := Delivered]
            && t.log.received == s.log.received + {j} && t.settings == s.settings
  {
    hide Next, Run, WantsAttempt, DeliveryUncertain, ClaimAttempt, Claimable, RetriedRow, HasBillingEvidence, RowOk,
      PublisherActions, WorkerActions, AnsweredSender, Sender;
    var row, at := s.db.jobs[j], now + s.settings.republishAfterMs;
    FirstSend(row, now, s.settings);
    PublisherSends(s, q, j, now, Delivered);
    var s1 := Run(s, PublisherActions(q, j, now, Delivered));
    var sent := SentRow(row, now, s.settings).value;
    assert s1.db.jobs[j] == sent && s1.runners == s.runners && s1.minted == s.minted;
    WorkerComesAndGoes(s1, p, j, token, at);
    RunThen(s, PublisherActions(q, j, now, Delivered), WorkerActions(p, j, token, at));
    Overwritten(s.db.jobs, j, sent, RetriedRow(sent, token, at).value);
  }

  /** The next `count` publishers, from `r` on, send one after the other; each is rejected and records it. */
  function RejectActions(r: nat, j: JobId, at: Time, count: nat): seq<Action>
    decreases count
  {
    if count == 0 then [] else RejectOnce(r, j, at) + RejectActions(r + 1, j, at, count - 1)
  }

  function RejectOnce(r: nat, j: JobId, at: Time): seq<Action> {
    PublisherActions(r, j, at, Rejected) + [RecordPublishFailure(r, at, NoFault)]
  }

  /** The record of those sends. */
  function RejectedSends(sends: map<Send, SendState>, j: JobId, attempt: nat, count: nat): map<Send, SendState>
    decreases count
  {
    if count == 0 then sends else RejectedSends(sends[Send(j, attempt + 1) := Rejected], j, attempt + 1, count - 1)
  }

  /** Later sends leave the earlier ones on record. */
  lemma {:induction false} EarlierSendsStay(sends: map<Send, SendState>, j: JobId, attempt: nat, count: nat, k: Send)
    requires k in sends && k.attempt <= attempt
    ensures k in RejectedSends(sends, j, attempt, count) && RejectedSends(sends, j, attempt, count)[k] == sends[k]
    decreases count
  {
    if count > 0 {
      EarlierSendsStay(sends[Send(j, attempt + 1) := Rejected], j, attempt + 1, count - 1, k);
    }
  }

  lemma RejectedAndRecorded(s: State, j: JobId, r: nat, at: Time)
    requires r !in s.publishers && j in s.db.jobs && Undoubted(s.db.jobs[j], at)
    requires s.db.jobs[j].publishAttempts < s.settings.maxAttempts
    ensures var row := s.db.jobs[j];
            var after :=
              FailureRow(SentRow(row, at, s.settings).value, RejectedSender(j, row, at, s.settings), at, s.settings);
            var t := Run(s, RejectOnce(r, j, at));
            && SentRow(row, at, s.settings).Some? && after.Some?
            && j in t.db.jobs && t.db.jobs[j] == after.value
            && t.publishers.Keys == s.publishers.Keys + {r} && t.settings == s.settings
            && t.log.sends == s.log.sends[Send(j, row.publishAttempts + 1) := Rejected]
            && t.log.received == s.log.received
  {
    hide Next, Run, WantsAttempt, DeliveryUncertain, ClaimAttempt, FailureRow, Undoubted;
    var row := s.db.jobs[j];
    RejectedSend(j, row, at, s.settings);
    PublisherSends(s, r, j, at, Rejected);
    var sends := PublisherActions(r, j, at, Rejected);
    var s1 := Run(s, sends);
    assert s1.db.jobs[j] == SentRow(row, at, s.settings).value;
    assert s1.publishers[r] == RejectedSender(j, row, at, s.settings);
    FailureMoves(s1, r, at);
    RunStep(s, sends, RecordPublishFailure(r, at, NoFault));
  }

  /** Rejected sends up to the limit: the last of these publishers gives the job up. */
  lemma {:induction false} RejectedAndGivenUp(s: State, j: JobId, r: nat, at: Time, count: nat)
    requires j in s.db.jobs && Undoubted(s.db.jobs[j], at)
    requires count > 0 && s.db.jobs[j].publishAttempts + count == s.settings.maxAttempts
    requires forall k | r <= k < r + count :: k !in s.publishers
    ensures var t := Run(s, RejectActions(r, j, at, count));
            && j in t.db.jobs && t.db.jobs[j].lastErrorCode == Some(PublishFailed)
            && t.db.jobs[j].attemptCount == s.db.jobs[j].attemptCount
            && t.log.sends == RejectedSends(s.log.sends, j, s.db.jobs[j].publishAttempts, count)
            && t.log.received == s.log.received
    decreases count
  {
    hide Next, Run, FailureRow, SentRow, Undoubted, RejectOnce, RejectedSender;
    RejectedSend(j, s.db.jobs[j], at, s.settings);
    RejectedAndRecorded(s, j, r, at);
    RunThen(s, RejectOnce(r, j, at), RejectActions(r + 1, j, at, count - 1));
    var t := Run(s, RejectOnce(r, j, at));
    if count > 1 {
      RejectedAndGivenUp(t, j, r + 1, at, count - 1);
    } else {
      NothingHappens(t);
    }
  }

  lemma NothingHappens(s: State)
    ensures Run(s, []) == s
  {
    hide Next;
  }

  /** The whole schedule: a delivered send, a worker that comes and goes, and rejected sends up to the limit. */
  function GiveUpActions(q: nat, p: nat, r: nat, j: JobId, token: Token, now: Time,
                         settings: PublishSettings): seq<Action>
    requires settings.maxAttempts >= 2
  {
    var at := now + settings.republishAfterMs;
    DeliverAndRetryActions(q, p, j, token, now, at) + RejectActions(r, j, at, settings.maxAttempts - 1)
  }

  /**
   Without the condition that no worker ever claimed the job, giving up can be wrong, whatever the limit of attempts, if
   only there is a second one. From any state with a freshly queued job, this run ends with the job PUBLISH_FAILED
   although its first send was delivered: the delivery is not yet recorded when a worker claims the job, which clears
   the publisher's mark, and releases it for a retry; the publishers after it know nothing of the delivery and are
   rejected, and the one at the limit gives the job up.
   */
  lemma GivenUpAfterDelivery(s: State, j: JobId, q: nat, p: nat, r: nat, token: Token, now: Time)
    requires s.settings.maxAttempts >= 2 && q !in s.publishers && q < r
    requires forall k | r <= k < r + s.settings.maxAttempts :: k !in s.publishers
    requires p !in s.runners && token !in s.minted && j in s.db.jobs && FreshlyQueued(s.db.jobs[j], now)
    ensures var t := Run(s, GiveUpActions(q, p, r, j, token, now, s.settings));
            && t.log.sends == RejectedSends(s.log.sends[Send(j, 1) := Delivered], j, 1, s.settings.maxAttempts - 1)
            && Send(j, 1) in t.log.sends && t.log.sends[Send(j, 1)] == Delivered
            && t.log.received == s.log.received + {j}
            && j in t.db.jobs && t.db.jobs[j].lastErrorCode == Some(PublishFailed)
            && t.db.jobs[j].attemptCount == s.db.jobs[j].attemptCount + 1
  {
    hide Next, Run, DeliveryUncertain, SentRow, RetriedRow, FreshlyQueued, Claimable, DeliverAndRetryActions,
      RejectActions, RejectedSends, AnsweredSender, Sender, Undoubted;
    var at, count := now + s.settings.republishAfterMs, s.settings.maxAttempts - 1;
    DeliveredAndRetried(s, j, q, p, token, now);
    FirstSend(s.db.jobs[j], now, s.settings);
    RetriedFacts(SentRow(s.db.jobs[j], now, s.settings).value, token, at);
    var first := DeliverAndRetryActions(q, p, j, token, now, at);
    RejectedAndGivenUp(Run(s, first), j, r, at, count);
    EarlierSendsStay(s.log.sends[Send(j, 1) := Delivered], j, 1, count, Send(j, 1));
    RunThen(s, first, RejectActions(r, j, at, count));
  }

  lemma RetriedFacts(sent: Job, token: Token, at: Time)
    requires Claimable(sent, at) && RetriedRow(sent, token, at).Some?
    requires sent.publishAttempts == 1 && sent.messagePublishedAt.None? && sent.reservedTokens.None? && !IsSyncJob(sent)
    ensures var released := RetriedRow(sent, token, at).value;
            && Undoubted(released, at) && released.publishAttempts == 1
            && released.attemptCount == sent.attemptCount + 1
  {
    hide RowOk, Claimable, ClaimQueued, ReleaseForRetry, DeliveryUncertain, HasBillingEvidence;
    MarkIsCleared(sent, token, at);
  }

  /** The whole run, from the request on. */
  function DeliveryGivenUp(user: UserId, repository: RepositoryId, j: JobId, now: Time,
                           settings: PublishSettings): seq<Action>
    requires settings.maxAttempts >= 2
  {
    [AcceptCreate(user, 0, repository, j, Current, now)] + GiveUpActions(0, 0, 1, j, 0, now, settings)
  }

  ghost predicate DeliveredButGivenUp(s: State, j: JobId) {
    && Send(j, 1) in s.log.sends && s.log.sends[Send(j, 1)] == Delivered
    && j in s.db.jobs && s.db.jobs[j].lastErrorCode == Some(PublishFailed) && s.db.jobs[j].attemptCount == 1
  }

  /** The run exists: it starts with an empty job table, and the queue delivers only what it was sent. */
  lemma DeliveryGivenUpIsReachable(s: State, user: UserId, repository: RepositoryId, j: JobId, now: Time)
    requires Initial(s) && CanRequest(s, user, repository) && s.settings.maxAttempts >= 2
    ensures var t := Run(s, DeliveryGivenUp(user, repository, j, now, s.settings));
            Reachable(t) && OnlySentMessages(t.log) && DeliveredButGivenUp(t, j)
  {
    hide Next, Run, Initial, FreshlyQueued, GiveUpActions, NewJob, RejectedSends;
    AcceptedJob(s, user, repository, j, now);
    NewJobIsFresh(user, repository, s.db.repositories[repository].lastSyncTime, now);
    var first := [AcceptCreate(user, 0, repository, j, Current, now)];
    GivenUpAfterDelivery(Run(s, first), j, 0, 0, 1, 0, now);
    RunThen(s, first, GiveUpActions(0, 0, 1, j, 0, now, s.settings));
  }

  lemma NewJobIsFresh(user: UserId, repository: RepositoryId, from: Option<Time>, now: Time)
    ensures var row := NewJob(user, repository, ApiKey(0), Create(repository), from, now, Current, now);
            FreshlyQueued(row, now) && row.attemptCount == 0
  {
    hide RowOk;
  }
}
