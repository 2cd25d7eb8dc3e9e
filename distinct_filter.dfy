/** `DistinctUntilChangedFilter`: a stateful predicate that accepts a value iff it
    differs from the value tested just before it; the slot starts as null. */
module DistinctFilter {
  import opened Prices

  /** The value in the slot after testing `xs`, starting from `initial`. */
  function LastSeen<V>(initial: V, xs: seq<V>): V
  {
    if xs == [] then initial else xs[|xs| - 1]
  }

  /** The values accepted when `xs` is tested in order, the slot holding `initial`. */
  function Accepted<V(==)>(initial: V, xs: seq<V>): seq<V>
    decreases |xs|
  {
    if xs == [] then []
    else
      var prefix := xs[..|xs| - 1];
      var x := xs[|xs| - 1];
      Accepted(initial, prefix) + if x != LastSeen(initial, prefix) then [x] else []
  }

  ghost predicate NoAdjacentDuplicates<V>(ys: seq<V>)
  {
    forall i :: 0 < i < |ys| ==> ys[i - 1] != ys[i]
  }

  /** The slot always equals the last accepted value, or the initial one if
      nothing was accepted. */
  lemma {:induction false} SlotIsLastAccepted<V>(initial: V, xs: seq<V>)
    ensures LastSeen(initial, xs) == LastSeen(initial, Accepted(initial, xs))
    decreases |xs|
  {
    if xs != [] {
      SlotIsLastAccepted(initial, xs[..|xs| - 1]);
    }
  }

  /** No two adjacent accepted values are equal, and the first differs from the
      initial slot. */
  lemma {:induction false} AcceptedIsDistinct<V>(initial: V, xs: seq<V>)
    ensures NoAdjacentDuplicates(Accepted(initial, xs))
    ensures Accepted(initial, xs) != [] ==> Accepted(initial, xs)[0] != initial
    decreases |xs|
  {
    if xs != [] {
      var prefix := xs[..|xs| - 1];
      AcceptedIsDistinct(initial, prefix);
      SlotIsLastAccepted(initial, prefix);
    }
  }

  /** A sequence without adjacent duplicates whose first value differs from the
      slot is accepted whole. */
  lemma {:induction false} DistinctIsAcceptedWhole<V>(initial: V, ys: seq<V>)
    requires NoAdjacentDuplicates(ys)
    requires ys != [] ==> ys[0] != initial
    ensures Accepted(initial, ys) == ys
    decreases |ys|
  {
    if ys != [] {
      var prefix := ys[..|ys| - 1];
      assert NoAdjacentDuplicates(prefix) by {
        forall i | 0 < i < |prefix| ensures prefix[i - 1] != prefix[i] {
          assert prefix[i - 1] == ys[i - 1] && prefix[i] == ys[i];
        }
      }
      DistinctIsAcceptedWhole(initial, prefix);
      assert ys == prefix + [ys[|ys| - 1]];
    }
  }

  /** Filtering again with a fresh filter accepts everything: filtering is idempotent. */
  lemma FilterIdempotent<V>(initial: V, xs: seq<V>)
    ensures Accepted(initial, Accepted(initial, xs)) == Accepted(initial, xs)
  {
    AcceptedIsDistinct(initial, xs);
    DistinctIsAcceptedWhole(initial, Accepted(initial, xs));
  }

  /** Of two consecutive equal values the second is rejected. */
  lemma RepeatRejected<V>(initial: V, xs: seq<V>, x: V)
    ensures Accepted(initial, xs + [x, x]) == Accepted(initial, xs + [x])
  {
    assert (xs + [x, x])[..|xs| + 1] == xs + [x];
  }

  class DistinctUntilChangedFilter<V(==)> {
    /** The slot: the previous argument, null (None) initially. */
    var lastValue: Option<V>
    /** Every argument tested so far, in order. */
    ghost var tested: seq<Option<V>>

    ghost predicate Inv()
      reads this
    {
      lastValue == LastSeen(None, tested)
    }

    constructor ()
      ensures Inv() && tested == [] && lastValue == None
    {
      lastValue := None;
      tested := [];
    }

    /** Swaps the argument into the slot and accepts it iff it differs from what
        the slot held. */
    method Test(newValue: Option<V>) returns (r: bool)
      requires Inv()
      modifies this
      ensures Inv() && tested == old(tested) + [newValue]
      ensures lastValue == newValue
      ensures r <==> newValue != old(lastValue)
      ensures Accepted(None, tested) == Accepted(None, old(tested)) + if r then [newValue] else []
    {
      var oldValue := lastValue;
      lastValue := newValue;
      tested := tested + [newValue];
      assert tested[..|tested| - 1] == old(tested);
      r := newValue != oldValue;
    }
  }
}
