/** Shared option type, identifiers and clocks of the model. */
module Basics {

  /** A nullable column or an optional argument. */
  datatype Option<+T> = None | Some(value: T) {
    function GetOr(default: T): T {
      match this
      case Some(v) => v
      case None => default
    }
  }

  /** Milliseconds, as JavaScript dates count them. */
  type Time = int

  type UserId = nat
  type RepositoryId = nat
  type JobId = nat
  type Token = nat
  type RequestId = nat

  predicate NoRepeats<T(==)>(items: seq<T>) {
    forall i, k | 0 <= i < k < |items| :: items[i] != items[k]
  }

  lemma SubsetSize<T>(a: set<T>, b: set<T>)
    requires a <= b
    ensures |a| <= |b|
  {
    if a != {} {
      var x :| x in a;
      SubsetSize(a - {x}, b - {x});
    }
  }

  lemma UnionSize<T>(a: set<T>, b: set<T>)
    ensures |a + b| <= |a| + |b|
  {
    assert |a + b| == |a| + |b - a| by {
      assert a + b == a + (b - a);
    }
    SubsetSize(b - a, b);
  }
}
