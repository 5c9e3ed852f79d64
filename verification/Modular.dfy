/** Remainders: the facts that ring positions and wrapped counters rest on. */
module Modular {
  /** x wrapped into [0, m): the remainder, by repeated addition or subtraction,
      which keeps division by a variable out of the proofs that only need it to
      be the same remainder. */
  function Wrap(x: int, m: nat): (r: nat)
    requires m > 0
    ensures r < m
    decreases if x < 0 then m - x else x
  {
    if x < 0 then Wrap(x + m, m) else if x < m then x else Wrap(x - m, m)
  }

  lemma {:induction false} WrapIsRemainder(x: int, m: nat)
    requires m > 0
    ensures Wrap(x, m) == x % m
    decreases if x < 0 then m - x else x
  {
    if x < 0 {
      WrapIsRemainder(x + m, m);
      assert x + m == m * 1 + x;
      ModShift(x, 1, m);
    } else if x < m {
      ModSmall(x, m);
    } else {
      WrapIsRemainder(x - m, m);
      assert x - m == m * -1 + x;
      ModShift(x, -1, m);
    }
  }

  lemma WrapAdd(a: int, b: int, m: nat)
    requires m > 0
    ensures Wrap(Wrap(a, m) + b, m) == Wrap(a + b, m)
  {
    WrapIsRemainder(a, m);
    WrapIsRemainder(a % m + b, m);
    WrapIsRemainder(a + b, m);
    ModAdd(a, b, m);
  }

  /** Two numbers less than m apart that wrap to the same are equal. */
  lemma WrapUnique(a: int, b: int, m: nat)
    requires m > 0 && Wrap(a, m) == Wrap(b, m) && a - b < m && b - a < m
    ensures a == b
  {
    WrapIsRemainder(a, m);
    WrapIsRemainder(b, m);
    WindowUnique(a, b, m);
  }

  lemma WrapPeriod(a: int, m: nat)
    requires m > 0
    ensures Wrap(a - m, m) == Wrap(a, m) == Wrap(a + m, m)
  {
    WrapIsRemainder(a, m);
    WrapIsRemainder(a - m, m);
    WrapIsRemainder(a + m, m);
    assert a - m == m * -1 + a && a + m == m * 1 + a;
    ModShift(a, -1, m);
    ModShift(a, 1, m);
  }

  /** Wrapping alike by 2m, shifted by p, means wrapping alike by m, shifted by q. */
  lemma WrapHalve(a: int, b: int, p: int, q: int, m: nat)
    requires m > 0 && Wrap(p + a, 2 * m) == Wrap(p + b, 2 * m)
    ensures Wrap(q + a, m) == Wrap(q + b, m)
  {
    WrapIsRemainder(p + a, 2 * m);
    WrapIsRemainder(p + b, 2 * m);
    WrapIsRemainder(q + a, m);
    WrapIsRemainder(q + b, m);
    ModCancel(a, b, p, 2 * m);
    ModHalve(a, b, m);
    ModCancel(a, b, q, m);
  }

  lemma MultipleAtLeast(k: int, m: nat)
    requires k >= 1
    ensures m * k >= m
  {
    assert m * k == m + m * (k - 1);
  }

  lemma QuotientUnique(q: int, r: int, q': int, r': int, m: nat)
    requires 0 <= r < m && 0 <= r' < m && m * q + r == m * q' + r'
    ensures q == q' && r == r'
  {
    if q' > q {
      MultipleAtLeast(q' - q, m);
    } else if q' < q {
      MultipleAtLeast(q - q', m);
    }
  }

  lemma DivModUnique(x: int, q: int, r: int, m: nat)
    requires m > 0 && 0 <= r < m && x == m * q + r
    ensures x % m == r && x / m == q
  {
    QuotientUnique(q, r, x / m, x % m, m);
  }

  /** Adding a multiple of m changes no remainder. */
  lemma ModShift(x: int, q: int, m: nat)
    requires m > 0
    ensures (m * q + x) % m == x % m
  {
    var k := x / m;
    assert m * q + x == m * (q + k) + x % m;
    DivModUnique(m * q + x, q + k, x % m, m);
  }

  /** Equal remainders: the difference is a multiple of m. */
  lemma ModMultiple(a: int, b: int, m: nat) returns (q: int)
    requires m > 0 && a % m == b % m
    ensures a == m * q + b
  {
    q := a / m - b / m;
    assert a == m * (a / m) + a % m && b == m * (b / m) + b % m;
  }

  lemma ModAdd(a: int, b: int, m: nat)
    requires m > 0
    ensures (a % m + b) % m == (a + b) % m
  {
    assert a + b == m * (a / m) + (a % m + b);
    ModShift(a % m + b, a / m, m);
  }

  lemma ModCancel(a: int, b: int, c: int, m: nat)
    requires m > 0
    ensures (a + c) % m == (b + c) % m <==> a % m == b % m
  {
    if a % m == b % m {
      var q := ModMultiple(a, b, m);
      ModShift(b + c, q, m);
    }
    if (a + c) % m == (b + c) % m {
      var q := ModMultiple(a + c, b + c, m);
      ModShift(b, q, m);
    }
  }

  lemma ModSub(a: int, b: int, m: nat)
    requires m > 0
    ensures ((a % m) - (b % m)) % m == (a - b) % m
  {
    ModAdd(a, -(b % m), m);
    assert a - (b % m) == m * (b / m) + (a - b);
    ModShift(a - b, b / m, m);
  }

  lemma ModSmall(a: int, m: nat)
    requires 0 <= a < m
    ensures a % m == a
  {
    DivModUnique(a, 0, a, m);
  }

  /** Two numbers less than m apart with the same remainder are equal. */
  lemma WindowUnique(a: int, b: int, m: nat)
    requires m > 0 && a % m == b % m && a - b < m && b - a < m
    ensures a == b
  {
    var q := ModMultiple(a, b, m);
    assert m * (-q) == -(m * q);
    if q >= 1 {
      MultipleAtLeast(q, m);
    } else if q <= -1 {
      MultipleAtLeast(-q, m);
    }
  }

  /** A remainder by 2m determines the remainder by m. */
  lemma ModHalve(a: int, b: int, m: nat)
    requires m > 0 && a % (2 * m) == b % (2 * m)
    ensures a % m == b % m
  {
    var q := ModMultiple(a, b, 2 * m);
    assert (2 * m) * q == m * (2 * q);
    ModShift(b, 2 * q, m);
  }
}
