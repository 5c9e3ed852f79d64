/** Comparison of unsigned counters that wrap around. */
module CircularOrder {
  import opened Modular

  /** a < b on wrapped values: a - b, wrapped, lies above half the range. */
  predicate CircularLessThan(a: int, b: int, half: nat)
    requires half > 0
  {
    (a - b) % (2 * half) > half
  }

  /** For counters less than a whole range apart, the wrapped comparison is the
      true one exactly when they are at most half the range apart, and strictly
      less than half when the first is behind. */
  lemma WrappedComparisonAgrees(a: int, b: int, half: nat)
    requires half > 0 && -2 * half < a - b < 2 * half
    ensures (CircularLessThan(a % (2 * half), b % (2 * half), half) <==> a < b)
        <==> (-1 * half < a - b && a - b <= half)
  {
    var m := 2 * half;
    ModSub(a, b, m);
    if a - b >= 0 {
      DivModUnique(a - b, 0, a - b, m);
    } else {
      DivModUnique(a - b, -1, a - b + m, m);
    }
  }
}
