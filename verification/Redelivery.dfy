/**
 A batch over the protocol: the records that processBatch acknowledges are those whose jobs have ended or do not exist.
 */
module Redelivery {
  import opened JobRow
  import opened Protocol
  import opened Safety
  import opened Theorems
  import opened Batch

  /** A record is no readable message of a job, or runner `p` handles it. */
  datatype Handler = Unreadable(crashed: bool) | HandledBy(p: nat)

  /** What processRecord came to. A runner that is not done, or never ran, has acknowledged nothing. */
  function OutcomeOf(s: State, h: Handler): RecordOutcome {
    match h
    case Unreadable(crashed) => if crashed then Crashed else Ack
    case HandledBy(p) =>
      if p !in s.runners || !s.runners[p].phase.Done? then Crashed
      else if s.runners[p].phase.outcome == Finished || s.runners[p].phase.outcome == Missing then Ack
      else RecordOutcome.Retry
  }

  function OutcomesOf(s: State, handlers: seq<Handler>): nat -> RecordOutcome {
    (i: nat) => if i < |handlers| then OutcomeOf(s, handlers[i]) else Crashed
  }

  /** The job of an acknowledged record has ended, and it stays ended; or the runner found no such job. */
  lemma AcknowledgedRecordsEnded(s: State, handlers: seq<Handler>, i: nat, actions: seq<Action>)
    requires Reachable(s) && i < Acknowledged(OutcomesOf(s, handlers), 0, |handlers|) && handlers[i].HandledBy?
    ensures handlers[i].p in s.runners
    ensures var w := s.runners[handlers[i].p];
            || w.phase == Done(Missing)
            || ( && w.job in s.db.jobs && IsTerminal(s.db.jobs[w.job])
                 && w.job in Run(s, actions).db.jobs && Run(s, actions).db.jobs[w.job] == s.db.jobs[w.job])
  {
    hide Reachable, Run, Acknowledged, IsTerminal;
    assert OutcomesOf(s, handlers)(i) == Ack;
    if s.runners[handlers[i].p].phase == Done(Finished) {
      FinishedMeansTerminal(s, handlers[i].p, actions);
    }
  }

  /**
   No work is lost by a batch: a record whose job has not ended, and was not found missing, is among the failures that
   ProcessBatch returns for the message ids `ids`, so the queue delivers it again.
   */
  lemma UnfinishedRecordsReturn(s: State, ids: seq<MessageId>, handlers: seq<Handler>, i: nat)
    requires Reachable(s) && |ids| == |handlers| && i < |handlers| && handlers[i].HandledBy?
    requires handlers[i].p in s.runners ==>
               var w := s.runners[handlers[i].p];
               w.phase != Done(Missing) && !(w.job in s.db.jobs && IsTerminal(s.db.jobs[w.job]))
    ensures ids[i] in FirstOccurrences(ids[Acknowledged(OutcomesOf(s, handlers), 0, |ids|)..])
  {
    hide Reachable, Acknowledged, IsTerminal, FirstOccurrences, OutcomesOf;
    var k := Acknowledged(OutcomesOf(s, handlers), 0, |ids|);
    if i < k {
      AcknowledgedRecordsEnded(s, handlers, i, []);
      assert false;
    }
    assert ids[k..][i - k] == ids[i];
  }

  /** The record needs no further delivery: its runner finished or found no job, or nobody could read it. */
  predicate IsSettled(s: State, h: Handler) {
    match h
    case Unreadable(crashed) => !crashed
    case HandledBy(p) => p in s.runners && (s.runners[p].phase == Done(Finished) || s.runners[p].phase == Done(Missing))
  }

  /** A batch is acknowledged as far as its records are settled, and no further. */
  lemma AcknowledgedIffSettled(s: State, handlers: seq<Handler>, i: nat)
    requires i < |handlers|
    ensures i < Acknowledged(OutcomesOf(s, handlers), 0, |handlers|) <==>
            forall k | 0 <= k <= i :: IsSettled(s, handlers[k])
  {
    hide Acknowledged;
    var count := Acknowledged(OutcomesOf(s, handlers), 0, |handlers|);
    assert forall k | 0 <= k < |handlers| :: OutcomesOf(s, handlers)(k) == Ack <==> IsSettled(s, handlers[k]);
    if i >= count {
      assert OutcomesOf(s, handlers)(count) != Ack;
    }
  }
}
