/** Intervals of numbers as finite sets. */
module Ranges {
  predicate Within(x: nat, first: nat, count: nat) {
    first <= x < first + count
  }

  /** The count numbers from first on. */
  function Range(first: nat, count: nat): (r: set<nat>)
    ensures forall x :: x in r <==> first <= x < first + count
    ensures |r| == count
  {
    var r := set x: nat | x < first + count && Within(x, first, count);
    RangeSize(r, first, count);
    r
  }

  lemma {:induction false} RangeSize(r: set<nat>, first: nat, count: nat)
    requires forall x :: x in r <==> first <= x < first + count
    ensures |r| == count
    decreases count
  {
    if count == 0 {
      assert r == {};
    } else {
      RangeSize(r - {first}, first + 1, count - 1);
    }
  }

  lemma SubsetSize<T>(a: set<T>, b: set<T>)
    requires a <= b
    ensures |a| <= |b|
  {
    assert b == a + (b - a);
  }

  lemma SubsetFull<T>(a: set<T>, b: set<T>)
    requires a <= b && |a| == |b|
    ensures a == b
  {
    assert b == a + (b - a);
  }

  function Min(a: int, b: int): int {
    if a < b then a else b
  }
}
