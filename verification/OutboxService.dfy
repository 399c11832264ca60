/** The publisher's own sequence of claim, send and record, and the reconciler's selection. */
module OutboxService {
  import opened Basics
  import opened JobRow
  import opened PublishStatements
  import opened Ledger
  import opened Protocol
  import opened Database

  datatype PublishOutcome = PUBLISHED | DEFERRED | FAILED | SKIPPED

  /** The WHERE clause of findDue. */
  predicate SelectedAsDue(row: Job, now: Time, settings: PublishSettings) {
    && row.status == Queued
    && !IsSyncJob(row)
    && (row.publishAttempts < settings.maxAttempts || IsInternalUncertainCode(row.lastErrorCode) ||
        row.reservedTokens.Some?)
    && (row.nextPublishAt.None? || row.nextPublishAt.value <= now)
    && (row.messagePublishedAt.None? || row.messagePublishedAt.value <= now - settings.republishAfterMs)
  }

  /** The reconciler selects exactly the jobs with which the publisher, allowed to republish, would go on. */
  lemma SelectionAgrees(row: Job, now: Time, settings: PublishSettings)
    ensures SelectedAsDue(row, now, settings) <==> WantsAttempt(row, now, settings, true)
  {
  }

  class PublisherService {
    const tables: Tables
    const settings: PublishSettings

    constructor (tables: Tables, settings: PublishSettings)
      ensures this.tables == tables && this.settings == settings
    {
      this.tables, this.settings := tables, settings;
    }

    /** handlePublishFailure: give up only at the limit and only when no delivery can have happened. */
    method HandlePublishFailure(id: JobId, seen: Job, attempt: nat, claimedNextPublishAt: Time, nextPublishAt: Time,
                                uncertain: bool, now: Time)
      returns (outcome: PublishOutcome)
      modifies tables
      ensures var row := if id in old(tables.jobs)
                         then RecordFailure(old(tables.jobs)[id], seen, attempt, claimedNextPublishAt, nextPublishAt,
                                            uncertain, ReachesGiveUp(seen, attempt, uncertain, settings), now)
                         else None;
              && tables.Snapshot() ==
                   (if row.Some? then Put(old(tables.Snapshot()), id, row.value) else old(tables.Snapshot()))
              && outcome == if row.Some? && ReachesGiveUp(seen, attempt, uncertain, settings) then FAILED else DEFERRED
    {
      var terminate :=
        attempt >= settings.maxAttempts && !uncertain && seen.messagePublishedAt.None? && seen.reservedTokens.None?;
      var row := if id in tables.jobs
                 then RecordFailure(tables.jobs[id], seen, attempt, claimedNextPublishAt, nextPublishAt, uncertain,
                                    terminate, now)
                 else None;
      var count := tables.UpdateJob(id, row);
      return if count == 1 && terminate then FAILED else DEFERRED;
    }

    /**
     publish, when nobody writes the row in between. `send` is the queue's answer; anything but a confirmed rejection
     may have been a delivery.
     */
    method Publish(id: JobId, seen: Job, now: Time, allowRepublish: bool, send: SendState, nextPublishAt: Time)
      returns (outcome: PublishOutcome)
      requires send != InFlight
      modifies tables
      ensures outcome == SKIPPED ==> tables.Snapshot() == old(tables.Snapshot())
      ensures outcome == SKIPPED <==>
                !(WantsAttempt(seen, now, settings, allowRepublish) && id in old(tables.jobs) &&
                  ClaimAttempt(old(tables.jobs)[id], seen, now + settings.republishAfterMs, DeliveryUncertain(seen),
                               now).Some?)
      ensures outcome != SKIPPED ==>
                && id in old(tables.jobs) && id in tables.jobs && tables.jobs == old(tables.jobs)[id := tables.jobs[id]]
                && tables.jobs[id].publishAttempts == seen.publishAttempts + 1
                && (send == Delivered ==>
                    outcome == PUBLISHED && tables.jobs[id].messagePublishedAt == Some(now) &&
                      tables.jobs[id].status == Queued)
                && (send != Delivered ==> tables.jobs[id].messagePublishedAt == seen.messagePublishedAt)
                && (outcome == FAILED <==> tables.jobs[id].status == Failed)
                && (outcome == FAILED <==>
                      send == Rejected &&
                        ReachesGiveUp(seen, seen.publishAttempts + 1, DeliveryUncertain(seen), settings) &&
                      old(tables.jobs)[id].reservedTokens.None?)
                && (outcome == DEFERRED && (send == Unknown || DeliveryUncertain(seen)) ==>
                    DeliveryUncertain(tables.jobs[id]))
    {
      hide RowOk, RowStep, PublishStep, WantsAttempt, Held;
      if !WantsAttempt(seen, now, settings, allowRepublish) {
        return SKIPPED;
      }
      var uncertain := DeliveryUncertain(seen);
      var claimedNextPublishAt := now + settings.republishAfterMs;
      var claimed :=
        if id in tables.jobs then ClaimAttempt(tables.jobs[id], seen, claimedNextPublishAt, uncertain, now) else None;
      var count := tables.UpdateJob(id, claimed);
      if count != 1 {
        return SKIPPED;
      }
      var attempt := seen.publishAttempts + 1;
      if send != Delivered {
        outcome := HandlePublishFailure(id, seen, attempt, claimedNextPublishAt, nextPublishAt, uncertain ||
                                        send != Rejected, now);
        return;
      }
      var recorded := tables.UpdateJob(id, MarkPublished(tables.jobs[id], seen, attempt, claimedNextPublishAt, now));
      return if recorded == 1 then PUBLISHED else DEFERRED;
    }
  }
}
