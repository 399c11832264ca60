/** Every action of a publisher keeps the invariant. */
module OutboxActions {
  import opened Basics
  import opened JobRow
  import opened PublishStatements
  import opened Ledger
  import opened Acceptance
  import opened Protocol
  import opened Invariant
  import opened Interference
  import opened Steps
  import opened StepLemmas

  // ----- the database part -----

  lemma PublishRow(before: Job, after: Job)
    requires RowOk(before) && PublishStep(before, after)
    ensures FailsAtMost(before, after) && RowStep(before, after, None) && Held(after) == Held(before)
    ensures after.leaseToken.None? && !EndedCollected(after)
    ensures before.attemptCount == after.attemptCount && before.publishAttempts <= after.publishAttempts
  {
  }

  /** An outbox statement moves no money, gives no lease and ends no window. */
  lemma PublishStepOk(db: Db, log: Log, id: JobId, row: Job)
    requires DbOk(db) && RateOk(db) && id in db.jobs && PublishStep(db.jobs[id], row)
    ensures StepOk(db, Put(db, id, row), log, id, Window(None, 0), None)
  {
    hide DbOk, RateOk, PublishStep, RowStep, RowOk, FinishedOk, EndedCollected, Held, SameRequest, RowStepOk, StepOk;
    var after := Put(db, id, row);
    RowHolds(db, id);
    PublishRow(db.jobs[id], row);
    PublishKeepsTables(db, id, row);
    PublishGuarantee(db, id, row);
    AssemblePublishStep(db, after, log, id);
  }

  lemma PublishKeepsTables(db: Db, id: JobId, row: Job)
    requires DbOk(db) && RateOk(db) && id in db.jobs && FailsAtMost(db.jobs[id], row)
    ensures DbOk(Put(db, id, row)) && RateOk(Put(db, id, row))
  {
    hide DbOk, RateOk, RowOk;
    var after := Put(db, id, row);
    forall j | j in db.jobs ensures FailsAtMost(db.jobs[j], after.jobs[j]) {
      RowHolds(db, j);
    }
    FailingRowsKeeps(db, after);
    RateKept(db, after);
  }

  lemma PublishGuarantee(db: Db, id: JobId, row: Job)
    requires DbOk(db) && id in db.jobs && RowStep(db.jobs[id], row, None) && Held(row) == Held(db.jobs[id])
    ensures Guarantee(db, Put(db, id, row), None) && Balanced(db, Put(db, id, row), id)
  {
    hide DbOk, Held, RowOk, HasBillingEvidence, SameRequest;
  }

  lemma AssemblePublishStep(db: Db, after: Db, log: Log, id: JobId)
    requires id in db.jobs && id in after.jobs && after == Put(db, id, after.jobs[id])
    requires !EndedCollected(after.jobs[id])
    requires DbOk(after) && RateOk(after) && Guarantee(db, after, None) && Balanced(db, after, id)
    ensures StepOk(db, after, log, id, Window(None, 0), None)
  {
    hide DbOk, RateOk, Guarantee, Balanced, EndedCollected, FinishedOk, LeasesReady;
    NoLeaseGiven(db, after, log);
    OthersDoNotEnd(db, after, id);
  }

  // ----- the invariant after a publisher's step -----

  lemma PublishKeeps(s: State, q: nat, b: Publisher, after: Db, sends: map<Send, SendState>)
    requires Inv(s) && StepOk(s.db, after, s.log, b.job, Window(None, 0), None)
    requires var log' := Audit(s.log, s.db, after, b.job, Window(None, 0)).(sends := sends);
             SendsOk(after, log') && PublishersOk(s.publishers[q := b], after, log')
    requires SendHistory(s, Publish(s, q, b, after, sends))
    ensures Advances(s, Publish(s, q, b, after, sends))
  {
    hide Inv, StepOk, SendsOk, PublishersOk, Audit, Lawful, Remembers, SendHistory;
    PublishInv(s, q, b, after, sends);
    LawfulBy(s.db, after, s.log, b.job, Window(None, 0), None);
    FinishRecorded(s.db, after, s.log, b.job, Window(None, 0), None);
    AuditRemembers(s.log, s.db, after, b.job, Window(None, 0));
    SameGranted(s.db, s.log, Audit(s.log, s.db, after, b.job, Window(None, 0)), Publish(s, q, b, after, sends).log);
  }

  lemma SameGranted(db: Db, log: Log, log1: Log, log2: Log)
    requires Remembers(db, log, log1) && log2.granted == log1.granted && log2.tickets == log1.tickets
    ensures Remembers(db, log, log2)
  {
  }

  lemma PublishInv(s: State, q: nat, b: Publisher, after: Db, sends: map<Send, SendState>)
    requires Inv(s) && StepOk(s.db, after, s.log, b.job, Window(None, 0), None)
    requires var log' := Audit(s.log, s.db, after, b.job, Window(None, 0)).(sends := sends);
             SendsOk(after, log') && PublishersOk(s.publishers[q := b], after, log')
    ensures Inv(Publish(s, q, b, after, sends))
  {
    hide Audit, Guarantee, Balanced, LeasesReady, WindowStep, TablesOk, RunnerOk, SendsOk, PublishersOk, DbOk, RateOk,
      DistinctTokens;
    var window := Window(None, 0);
    var audited := Audit(s.log, s.db, after, b.job, window);
    TablesFrame(s.db, after, s.log, b.job, window, None, s.minted);
    MessagesIrrelevant(after, audited, audited.(sends := sends), s.minted);
    forall p | p in s.runners ensures RunnerOk(s.runners[p], after, audited.(sends := sends), s.minted) {
      RunnerFrame(s.db, after, s.log, b.job, window, s.runners[p], None, s.minted);
      MessagesIrrelevantTo(s.runners[p], after, audited, audited.(sends := sends), s.minted);
    }
  }

  // ----- what the publishers know -----

  /** The step leaves every send alone but that of one attempt. */
  ghost predicate SendsAgree(log: Log, log': Log, job: JobId, attempt: nat) {
    forall k: Send | k != Send(job, attempt) ::
      (k in log.sends <==> k in log'.sends) && (k in log.sends ==> log.sends[k] == log'.sends[k])
  }

  /** A row seen by publishers moves on. */
  predicate MovesOn(before: Job, after: Job) {
    SameRequest(before, after) && before.attemptCount <= after.attemptCount &&
      before.publishAttempts <= after.publishAttempts
  }

  /** One send is new, or the send that was in flight is answered, or nothing is sent. */
  ghost predicate SendStep(db: Db, log: Log, log': Log, job: JobId, attempt: nat) {
    && SendsAgree(log, log', job, attempt)
    && job in db.jobs
    && ( || log'.sends == log.sends
         || attempt > db.jobs[job].publishAttempts
         || (Send(job, attempt) in log.sends && log.sends[Send(job, attempt)] == InFlight))
  }

  /** A belief that covers a send in flight was never held; any other belief stays true. */
  lemma KnowsStill(db: Db, after: Db, log: Log, log': Log, job: JobId, attempt: nat, j: JobId, uncertain: bool,
                   bound: int)
    requires SendStep(db, log, log', job, attempt) && j in db.jobs && j in after.jobs
    requires MovesOn(db.jobs[j], after.jobs[j])
    requires bound <= db.jobs[j].publishAttempts && Knows(db, log, j, uncertain, bound)
    ensures Knows(after, log', j, uncertain, bound)
  {
    hide SameRequest;
  }

  lemma OtherPublisher(b: Publisher, db: Db, after: Db, log: Log, log': Log, job: JobId, attempt: nat)
    requires PublisherOk(b, db, log) && SendStep(db, log, log', job, attempt)
    requires b.job in after.jobs && MovesOn(db.jobs[b.job], after.jobs[b.job])
    requires !(b.phase.Sending? && b.job == job && b.phase.attempt == attempt)
    ensures PublisherOk(b, after, log')
  {
    hide DeliveryUncertain, Knows, SendStep;
    match b.phase {
      case Loaded =>
        if b.seen.status == Queued {
          KnowsStill(db, after, log, log', job, attempt, b.job, DeliveryUncertain(b.seen), b.seen.publishAttempts);
        }
      case Sending(mine, _, uncertain, _) =>
        KnowsStill(db, after, log, log', job, attempt, b.job, uncertain, mine - 1);
        SendKept(db, log, log', job, attempt, Send(b.job, mine));
      case Refused(mine, _, uncertain, _) =>
        KnowsStill(db, after, log, log', job, attempt, b.job, uncertain, mine);
      case _ =>
    }
  }

  lemma SendKept(db: Db, log: Log, log': Log, job: JobId, attempt: nat, k: Send)
    requires SendStep(db, log, log', job, attempt) && k != Send(job, attempt) && k in log.sends
    ensures k in log'.sends && log'.sends[k] == log.sends[k]
  {
  }

  /** Sends of other jobs do not matter to a row; a row that knows all its sends rejected has none in flight. */
  lemma OtherRow(db: Db, row: Job, log: Log, log': Log, job: JobId, attempt: nat, j: JobId)
    requires SendStep(db, log, log', job, attempt) && j in db.jobs && OutboxRowOk(db.jobs[j], log, j)
    requires row == db.jobs[j]
    ensures OutboxRowOk(row, log', j)
  {
    hide DeliveryUncertain;
  }

  /**
   A publisher's step: the row of its job may change, one of its job's sends may change, and the publisher itself does.
   */
  ghost predicate OutboxStep(s: State, q: nat, b: Publisher, after: Db, sends: map<Send, SendState>, attempt: nat) {
    && q in s.publishers && b.job == s.publishers[q].job && b.job in s.db.jobs && b.job in after.jobs
    && after == Put(s.db, b.job, after.jobs[b.job])
    && s.log.sends.Keys <= sends.Keys
    && MovesOn(s.db.jobs[b.job], after.jobs[b.job])
    && SendStep(s.db, s.log, s.log.(sends := sends), b.job, attempt)
    && OutboxRowOk(after.jobs[b.job], s.log.(sends := sends), b.job)
    && PublisherOk(b, after, s.log.(sends := sends))
    && (b.phase.Sending? ==> b.phase.attempt == attempt > s.db.jobs[b.job].publishAttempts)
    && (Send(b.job, attempt) in s.log.sends && sends != s.log.sends ==>
          s.publishers[q].phase.Sending? && s.publishers[q].phase.attempt == attempt)
    && (forall k | k in sends && k !in s.log.sends ::
          k == Send(b.job, attempt) && !IsSyncJob(s.db.jobs[b.job]) &&
            1 <= attempt <= after.jobs[b.job].publishAttempts)
  }

  lemma SendsAfter(s: State, q: nat, b: Publisher, after: Db, sends: map<Send, SendState>, attempt: nat)
    requires SendsOk(s.db, s.log) && OutboxStep(s, q, b, after, sends, attempt)
    ensures SendsOk(after, s.log.(sends := sends))
  {
    hide OutboxRowOk, SendStep, PublisherOk;
    var log' := s.log.(sends := sends);
    forall j | j in after.jobs ensures OutboxRowOk(after.jobs[j], log', j) {
      if j != b.job {
        OtherRow(s.db, after.jobs[j], s.log, log', b.job, attempt, j);
      }
    }
  }

  lemma OnlyNewSender(s: State, q: nat, b: Publisher, after: Db, sends: map<Send, SendState>, attempt: nat)
    requires PublishersOk(s.publishers, s.db, s.log) && OutboxStep(s, q, b, after, sends, attempt)
    ensures OneSenderPerAttempt(s.publishers[q := b])
  {
    hide OutboxRowOk, SendStep, Knows, MovesOn, DeliveryUncertain;
    assert forall r | r in s.publishers :: PublisherOk(s.publishers[r], s.db, s.log);
  }

  lemma PublishersAfter(s: State, q: nat, b: Publisher, after: Db, sends: map<Send, SendState>, attempt: nat)
    requires PublishersOk(s.publishers, s.db, s.log) && OutboxStep(s, q, b, after, sends, attempt)
    ensures PublishersOk(s.publishers[q := b], after, s.log.(sends := sends))
  {
    hide OutboxRowOk, SendStep, OneSenderPerAttempt, Knows, SameRequest;
    var log' := s.log.(sends := sends);
    OnlyNewSender(s, q, b, after, sends, attempt);
    forall r | r in s.publishers && r != q ensures PublisherOk(s.publishers[r], after, log') {
      OtherPublisherOf(s, q, b, after, sends, attempt, r);
    }
  }

  lemma OtherPublisherOf(s: State, q: nat, b: Publisher, after: Db, sends: map<Send, SendState>, attempt: nat, r: nat)
    requires PublishersOk(s.publishers, s.db, s.log) && OutboxStep(s, q, b, after, sends, attempt)
    requires r in s.publishers && r != q
    ensures PublisherOk(s.publishers[r], after, s.log.(sends := sends))
  {
    hide OutboxRowOk, Knows, DeliveryUncertain;
    var v := s.publishers[r];
    assert PublisherOk(v, s.db, s.log);
    if v.phase.Sending? && v.job == b.job && v.phase.attempt == attempt {
      assert sends == s.log.sends;
      OtherPublisher(v, s.db, after, s.log, s.log.(sends := sends), b.job, s.db.jobs[b.job].publishAttempts + 1);
    } else {
      OtherPublisher(v, s.db, after, s.log, s.log.(sends := sends), b.job, attempt);
    }
  }

  /** The only send that changes is a new one or one that was in flight. */
  lemma OutboxHistory(s: State, q: nat, b: Publisher, after: Db, sends: map<Send, SendState>, attempt: nat)
    requires SendsOk(s.db, s.log) && OutboxStep(s, q, b, after, sends, attempt)
    ensures SendHistory(s, Publish(s, q, b, after, sends))
  {
    hide OutboxRowOk, Knows, SameRequest, Audit;
  }

  lemma OutboxKeeps(s: State, q: nat, b: Publisher, after: Db, sends: map<Send, SendState>, attempt: nat)
    requires Inv(s) && OutboxStep(s, q, b, after, sends, attempt)
    requires StepOk(s.db, after, s.log, b.job, Window(None, 0), None)
    ensures Advances(s, Publish(s, q, b, after, sends))
  {
    hide Advances, Inv, OutboxStep, StepOk, SendsOk, PublishersOk, Publish, Audit, SendHistory;
    OutboxParts(s);
    SendsAfter(s, q, b, after, sends, attempt);
    PublishersAfter(s, q, b, after, sends, attempt);
    OutboxHistory(s, q, b, after, sends, attempt);
    SameSends(s.publishers[q := b], after, s.log.(sends := sends),
              Audit(s.log, s.db, after, b.job, Window(None, 0)).(sends := sends));
    PublishKeeps(s, q, b, after, sends);
  }

  lemma OutboxParts(s: State)
    requires Inv(s)
    ensures SendsOk(s.db, s.log) && PublishersOk(s.publishers, s.db, s.log) && DbOk(s.db) && RateOk(s.db)
  {
    hide SendsOk, PublishersOk, RunnersOk, DbOk, RateOk, LogOk, CoverageOk, ReceivedOk;
  }

  /** A publisher and the row of its job. */
  ghost predicate PublisherAt(s: State, q: nat) {
    && q in s.publishers && PublisherOk(s.publishers[q], s.db, s.log)
    && OutboxRowOk(s.db.jobs[s.publishers[q].job], s.log, s.publishers[q].job)
    && RowOk(s.db.jobs[s.publishers[q].job])
    && (forall k | k in s.log.sends && k.job == s.publishers[q].job :: k.attempt <= s.db.jobs[k.job].publishAttempts)
  }

  lemma PublisherHolds(s: State, q: nat)
    requires Inv(s) && q in s.publishers
    ensures PublisherAt(s, q)
  {
    hide Inv, RowOk, OutboxRowOk, DbOk, RateOk, OneSenderPerAttempt;
    OutboxParts(s);
    assert PublisherOk(s.publishers[q], s.db, s.log);
    RowHolds(s.db, s.publishers[q].job);
    hide Knows, DeliveryUncertain, SameRequest;
  }

  /** The publisher changes, the tables and the sends do not. */
  lemma LocalKeeps(s: State, q: nat, b: Publisher)
    requires Inv(s) && PublisherAt(s, q) && b.job == s.publishers[q].job && PublisherOk(b, s.db, s.log)
    requires !b.phase.Sending?
    ensures Advances(s, Publish(s, q, b, s.db, s.log.sends))
  {
    hide Advances, Inv, RowOk, DbOk, RateOk, Publish, StepOk, Knows;
    OutboxParts(s);
    NoStep(s.db, s.log, b.job, Window(None, 0), None);
    OutboxKeeps(s, q, b, s.db, s.log.sends, s.db.jobs[b.job].publishAttempts + 1);
  }

  lemma IdleKeeps(s: State, q: nat)
    requires Inv(s) && PublisherAt(s, q)
    ensures Advances(s, Publish(s, q, s.publishers[q].(phase := Idle), s.db, s.log.sends))
  {
    hide Advances, Inv, RowOk, Publish, OutboxRowOk, Knows, DeliveryUncertain, SameRequest;
    LocalKeeps(s, q, s.publishers[q].(phase := Idle));
  }

  /** A row statement of the publisher, with or without a send. */
  lemma RowKeeps(s: State, q: nat, b: Publisher, row: Job, sends: map<Send, SendState>, attempt: nat)
    requires Inv(s) && b.job in s.db.jobs && PublishStep(s.db.jobs[b.job], row)
    requires OutboxStep(s, q, b, Put(s.db, b.job, row), sends, attempt)
    ensures Advances(s, Publish(s, q, b, Put(s.db, b.job, row), sends))
  {
    hide Advances, Inv, PublishStep, OutboxStep, Publish, StepOk, DbOk, RateOk;
    OutboxParts(s);
    PublishStepOk(s.db, s.log, b.job, row);
    OutboxKeeps(s, q, b, Put(s.db, b.job, row), sends, attempt);
  }

  // ----- the actions -----

  lemma LoadForPublishKeeps(s: State, q: nat, job: JobId, allowRepublish: bool)
    requires Inv(s)
    ensures Advances(s, DoLoadForPublish(s, q, job, allowRepublish))
  {
    hide Inv, Advances;
    Stutter(s);
    if q !in s.publishers && job in s.db.jobs {
      LoadedInv(s, q, job, allowRepublish);
      AdvancesOn(s, s, DoLoadForPublish(s, q, job, allowRepublish));
    }
  }

  lemma LoadedInv(s: State, q: nat, job: JobId, allowRepublish: bool)
    requires Inv(s) && q !in s.publishers && job in s.db.jobs
    ensures Inv(DoLoadForPublish(s, q, job, allowRepublish))
  {
    hide TablesOk, RunnersOk, OneSenderPerAttempt;
    var b := Publisher(job, s.db.jobs[job], allowRepublish, Loaded);
    assert OutboxRowOk(s.db.jobs[job], s.log, job);
    assert PublisherOk(b, s.db, s.log);
    NewPublisherAlone(s.publishers, q, b);
  }

  lemma NewPublisherAlone(publishers: map<nat, Publisher>, q: nat, b: Publisher)
    requires OneSenderPerAttempt(publishers) && !b.phase.Sending?
    ensures OneSenderPerAttempt(publishers[q := b])
  {
  }

  /** What a committed claim of an attempt does to the row. */
  lemma ClaimedRow(before: Job, row: Job, b: Publisher, next: Time, now: Time)
    requires RowOk(before) && ClaimAttempt(before, b.seen, next, DeliveryUncertain(b.seen), now) == Some(row)
    ensures PublishStep(before, row) && MovesOn(before, row) && DeliveryUncertain(row)
    ensures row.lastErrorCode != Some(PublishFailed)
    ensures row.publishAttempts == b.seen.publishAttempts + 1 == before.publishAttempts + 1
    ensures row.attemptCount == before.attemptCount
  {
    hide RowStep;
  }

  lemma ClaimFacts(s: State, q: nat, row: Job, next: Time, now: Time)
    requires PublisherAt(s, q) && s.publishers[q].phase.Loaded?
    requires WantsAttempt(s.publishers[q].seen, now, s.settings, s.publishers[q].allowRepublish)
    requires ClaimAttempt(s.db.jobs[s.publishers[q].job], s.publishers[q].seen, next,
                          DeliveryUncertain(s.publishers[q].seen), now) == Some(row)
    ensures var b := s.publishers[q];
            var attempt := b.seen.publishAttempts + 1;
            var after := Put(s.db, b.job, row);
            && PublishStep(s.db.jobs[b.job], row)
            && OutboxStep(s, q, b.(phase := Sending(attempt, next, DeliveryUncertain(b.seen), now)), after,
                          s.log.sends[Send(b.job, attempt) := InFlight], attempt)
            && OutboxStep(s, q, b.(phase := Idle), after, s.log.sends, attempt)
  {
    hide RowOk, PublishStep, ClaimAttempt, DeliveryUncertain, RequiresPublishRecovery;
    ClaimedRow(s.db.jobs[s.publishers[q].job], row, s.publishers[q], next, now);
  }

  lemma ClaimPublishKeeps(s: State, q: nat, now: Time, fault: Fault)
    requires Inv(s)
    ensures Advances(s, DoClaimPublish(s, q, now, fault))
  {
    hide Advances, Inv, PublisherAt, OutboxStep, PublishStep, Publish, ClaimAttempt, WantsAttempt, DeliveryUncertain;
    Stutter(s);
    if q in s.publishers && s.publishers[q].phase.Loaded? && s.publishers[q].job in s.db.jobs {
      var b := s.publishers[q];
      PublisherHolds(s, q);
      IdleKeeps(s, q);
      if WantsAttempt(b.seen, now, s.settings, b.allowRepublish) && fault != LostBefore {
        var next := now + s.settings.republishAfterMs;
        var claimed := ClaimAttempt(s.db.jobs[b.job], b.seen, next, DeliveryUncertain(b.seen), now);
        if claimed.Some? {
          var attempt := b.seen.publishAttempts + 1;
          ClaimFacts(s, q, claimed.value, next, now);
          RowKeeps(s, q, b.(phase := Idle), claimed.value, s.log.sends, attempt);
          RowKeeps(s, q, b.(phase := Sending(attempt, next, DeliveryUncertain(b.seen), now)), claimed.value,
                   s.log.sends[Send(b.job, attempt) := InFlight], attempt);
        }
      }
    }
  }

  lemma AnswerFacts(s: State, q: nat, outcome: SendState)
    requires PublisherAt(s, q) && s.publishers[q].phase.Sending? && outcome != InFlight
    ensures var b := s.publishers[q];
            var ph := b.phase;
            var phase := if outcome == Delivered then Sent(ph.attempt, ph.claimedNextPublishAt, ph.at)
                         else Refused(ph.attempt, ph.claimedNextPublishAt, ph.uncertain || outcome != Rejected, ph.at);
            OutboxStep(s, q, b.(phase := phase), s.db, s.log.sends[Send(b.job, ph.attempt) := outcome], ph.attempt)
  {
    hide RowOk, DeliveryUncertain;
  }

  lemma SendMessageKeeps(s: State, q: nat, outcome: SendState)
    requires Inv(s)
    ensures Advances(s, DoSendMessage(s, q, outcome))
  {
    hide Advances, Inv, PublisherAt, OutboxStep, Publish, StepOk, DbOk, RateOk;
    Stutter(s);
    if q in s.publishers && s.publishers[q].phase.Sending? && s.publishers[q].job in s.db.jobs && outcome != InFlight {
      var b := s.publishers[q];
      var ph := b.phase;
      var phase := if outcome == Delivered then Sent(ph.attempt, ph.claimedNextPublishAt, ph.at)
                   else Refused(ph.attempt, ph.claimedNextPublishAt, ph.uncertain || outcome != Rejected, ph.at);
      PublisherHolds(s, q);
      AnswerFacts(s, q, outcome);
      OutboxParts(s);
      NoStep(s.db, s.log, b.job, Window(None, 0), None);
      OutboxKeeps(s, q, b.(phase := phase), s.db, s.log.sends[Send(b.job, ph.attempt) := outcome], ph.attempt);
    }
  }

  /** Recording the outcome of the attempt leaves an outbox row that is uncertain, or whose sends were all rejected. */
  lemma RecordFacts(s: State, q: nat, row: Job)
    requires PublisherAt(s, q)
    requires var b := s.publishers[q];
             var before := s.db.jobs[b.job];
             && PublishStep(before, row) && row.publishAttempts == before.publishAttempts
             && (row.lastErrorCode == Some(PublishFailed) || !DeliveryUncertain(row) ==>
                   Knows(s.db, s.log, b.job, false, row.publishAttempts))
             && (row.lastErrorCode == Some(PublishFailed) ==> row.messagePublishedAt.None?)
    ensures var b := s.publishers[q];
            OutboxStep(s, q, b.(phase := Idle), Put(s.db, b.job, row), s.log.sends, row.publishAttempts + 1)
  {
    hide RowOk, DeliveryUncertain, RowStep;
    var b := s.publishers[q];
    PublishRow(s.db.jobs[b.job], row);
  }

  lemma RecordPublishedKeeps(s: State, q: nat, fault: Fault)
    requires Inv(s)
    ensures Advances(s, DoRecordPublished(s, q, fault))
  {
    hide Advances, Inv, PublisherAt, OutboxStep, Publish, PublishStep, DeliveryUncertain;
    Stutter(s);
    if q in s.publishers && s.publishers[q].phase.Sent? && s.publishers[q].job in s.db.jobs {
      var b := s.publishers[q];
      var ph := b.phase;
      PublisherHolds(s, q);
      IdleKeeps(s, q);
      var row := MarkPublished(s.db.jobs[b.job], b.seen, ph.attempt, ph.claimedNextPublishAt, ph.at);
      if row.Some? && fault != LostBefore {
        RowAt(s, q);
        RecordFacts(s, q, row.value);
        RowKeeps(s, q, b.(phase := Idle), row.value, s.log.sends, row.value.publishAttempts + 1);
      }
    }
  }

  lemma RowAt(s: State, q: nat)
    requires PublisherAt(s, q)
    ensures RowOk(s.db.jobs[s.publishers[q].job])
    ensures var b := s.publishers[q];
            b.phase.Refused? ==> Knows(s.db, s.log, b.job, b.phase.uncertain, b.phase.attempt)
  {
    hide RowOk, Knows;
  }

  lemma RefusedRow(s: State, q: nat, nextPublishAt: Time)
    requires PublisherAt(s, q) && q in s.publishers && s.publishers[q].phase.Refused?
    requires var b := s.publishers[q];
             var ph := b.phase;
             RecordFailure(s.db.jobs[b.job], b.seen, ph.attempt, ph.claimedNextPublishAt, nextPublishAt, ph.uncertain,
                           ReachesGiveUp(b.seen, ph.attempt, ph.uncertain, s.settings), ph.at).Some?
    ensures var b := s.publishers[q];
            var ph := b.phase;
            var row := RecordFailure(s.db.jobs[b.job], b.seen, ph.attempt, ph.claimedNextPublishAt, nextPublishAt,
                                     ph.uncertain, ReachesGiveUp(b.seen, ph.attempt, ph.uncertain, s.settings),
                                     ph.at).value;
            && PublishStep(s.db.jobs[b.job], row) && row.publishAttempts == s.db.jobs[b.job].publishAttempts
            && (row.lastErrorCode == Some(PublishFailed) || !DeliveryUncertain(row) ==>
                  Knows(s.db, s.log, b.job, false, row.publishAttempts))
            && (row.lastErrorCode == Some(PublishFailed) ==> row.messagePublishedAt.None?)
  {
    hide RowOk, PublishStep, PublisherOk, OutboxRowOk, PublisherAt, Knows;
    RowAt(s, q);
    if !s.publishers[q].phase.uncertain {
      RefusedKnows(s, q);
    }
  }

  lemma RefusedKnows(s: State, q: nat)
    requires PublisherAt(s, q) && s.publishers[q].phase.Refused? && !s.publishers[q].phase.uncertain
    ensures Knows(s.db, s.log, s.publishers[q].job, false, s.publishers[q].phase.attempt)
  {
    hide RowOk;
  }

  lemma RecordPublishFailureKeeps(s: State, q: nat, nextPublishAt: Time, fault: Fault)
    requires Inv(s)
    ensures Advances(s, DoRecordPublishFailure(s, q, nextPublishAt, fault))
  {
    hide Advances, Inv, PublisherAt, OutboxStep, Publish, PublishStep, DeliveryUncertain, RecordFailure, ReachesGiveUp;
    Stutter(s);
    if q in s.publishers && s.publishers[q].phase.Refused? && s.publishers[q].job in s.db.jobs {
      var b := s.publishers[q];
      var ph := b.phase;
      PublisherHolds(s, q);
      IdleKeeps(s, q);
      var row := RecordFailure(s.db.jobs[b.job], b.seen, ph.attempt, ph.claimedNextPublishAt, nextPublishAt,
                               ph.uncertain, ReachesGiveUp(b.seen, ph.attempt, ph.uncertain, s.settings), ph.at);
      if row.Some? && fault != LostBefore {
        RefusedRow(s, q, nextPublishAt);
        RecordFacts(s, q, row.value);
        RowKeeps(s, q, b.(phase := Idle), row.value, s.log.sends, row.value.publishAttempts + 1);
      }
    }
  }
}
