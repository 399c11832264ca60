/**
 processBatch: records in order, the first one that is not acknowledged returns itself and all after it to the queue.
 */
module Batch {
  import opened Basics

  type MessageId = nat

  /** What handling one record came to; Crashed is an exception that escaped. */
  datatype RecordOutcome = Ack | Retry | Crashed

  /** How many records from `i` on are acknowledged before one is not. */
  function Acknowledged(handle: nat -> RecordOutcome, i: nat, count: nat): (k: nat)
    requires i <= count
    ensures i <= k <= count
    ensures forall m | i <= m < k :: handle(m) == Ack
    ensures k < count ==> handle(k) != Ack
    decreases count - i
  {
    if i < count && handle(i) == Ack then Acknowledged(handle, i + 1, count) else i
  }

  /** A Set that keeps insertion order. */
  class OrderedSet {
    var items: seq<MessageId>

    ghost predicate Valid()
      reads this
    {
      NoRepeats(items)
    }

    constructor ()
      ensures Valid() && items == []
    {
      items := [];
    }

    method Add(id: MessageId)
      requires Valid()
      modifies this
      ensures Valid()
      ensures items == if id in old(items) then old(items) else old(items) + [id]
    {
      if id !in items {
        items := items + [id];
      }
    }
  }

  /** The first occurrences of `ids`, in order. */
  function FirstOccurrences(ids: seq<MessageId>): (r: seq<MessageId>)
    ensures NoRepeats(r)
    ensures forall id :: id in r <==> id in ids
  {
    if ids == [] then []
    else
      var before := FirstOccurrences(ids[..|ids| - 1]);
      if ids[|ids| - 1] in ids[..|ids| - 1] then before else before + [ids[|ids| - 1]]
  }

  /** What more ids add comes after what is there. */
  lemma {:induction false} OccurrencesInOrder(ids: seq<MessageId>, more: seq<MessageId>)
    ensures FirstOccurrences(ids) <= FirstOccurrences(ids + more)
    decreases |more|
  {
    if more == [] {
      assert ids + more == ids;
    } else {
      var all := ids + more;
      assert all[..|all| - 1] == ids + more[..|more| - 1];
      OccurrencesInOrder(ids, more[..|more| - 1]);
    }
  }

  /**
   The acknowledged records are a prefix: every one of them was handled and came to Ack. The failures are the ids of the
   remaining suffix, each once and in order; nothing after the first failure is handled.
   */
  method ProcessBatch(records: seq<MessageId>, handle: nat -> RecordOutcome)
    returns (failures: seq<MessageId>, handled: nat)
    ensures var k := Acknowledged(handle, 0, |records|);
            failures == FirstOccurrences(records[k..]) && handled == (if k < |records| then k + 1 else k)
  {
    var failed := new OrderedSet();
    handled := 0;
    var index := 0;
    while index < |records|
      invariant 0 <= index <= |records| && handled == index
      invariant failed.Valid() && failed.items == []
      invariant Acknowledged(handle, 0, |records|) == Acknowledged(handle, index, |records|)
      decreases |records| - index
    {
      handled := handled + 1;
      if handle(index) != Ack {
        var unprocessed := records[index..];
        for i := 0 to |unprocessed|
          invariant failed.Valid() && failed.items == FirstOccurrences(unprocessed[..i])
        {
          assert unprocessed[..i + 1][..i] == unprocessed[..i];
          failed.Add(unprocessed[i]);
        }
        assert unprocessed[..|unprocessed|] == unprocessed;
        return failed.items, handled;
      }
      index := index + 1;
    }
    return failed.items, handled;
  }
}
