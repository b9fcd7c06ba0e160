/** Facts about sequences without repeated elements. */
module Seqs {

  predicate Distinct<T(==)>(s: seq<T>) {
    forall i, j | 0 <= i < j < |s| :: s[i] != s[j]
  }

  /** A sequence without repeats has as many distinct elements as positions. */
  lemma {:induction false} DistinctCardinality<T>(s: seq<T>)
    requires Distinct(s)
    ensures |set x | x in s| == |s|
  {
    if s != [] {
      var tail := set x | x in s[1..];
      DistinctCardinality(s[1..]);
      assert s[0] !in tail;
      assert (set x | x in s) == {s[0]} + tail;
    }
  }

  /** A sequence has at least as many positions as distinct elements. */
  lemma {:induction false} CardinalityAtMostLength<T>(s: seq<T>)
    ensures |set x | x in s| <= |s|
  {
    if s != [] {
      CardinalityAtMostLength(s[1..]);
      assert (set x | x in s) == {s[0]} + (set x | x in s[1..]);
    }
  }

  /**
   * A repeat-free sequence whose every element occurs in `universe` is no
   * longer than `universe`.
   */
  lemma DistinctWithinBound<T>(s: seq<T>, universe: seq<T>)
    requires Distinct(s)
    requires forall x | x in s :: x in universe
    ensures |s| <= |universe|
  {
    DistinctCardinality(s);
    CardinalityAtMostLength(universe);
    var a, b := set x | x in s, set x | x in universe;
    assert b == a + (b - a);
  }
}
