/** Sums of a weight over the values of a finite map: "how many threads are at
    this program point", "how many references do all threads hold". */
module Totals {

  ghost function Total<K, V>(m: map<K, V>, w: V -> int): int
    decreases |m|
  {
    if m == map[] then 0
    else
      var k :| k in m;
      w(m[k]) + Total(m - {k}, w)
  }

  lemma {:induction false} TotalRemove<K, V>(m: map<K, V>, k: K, w: V -> int)
    requires k in m
    ensures Total(m, w) == w(m[k]) + Total(m - {k}, w)
    decreases |m|
  {
    var j :| j in m && Total(m, w) == w(m[j]) + Total(m - {j}, w);
    if j != k {
      TotalRemove(m - {j}, k, w);
      TotalRemove(m - {k}, j, w);
      assert m - {j} - {k} == m - {k} - {j};
    }
  }

  lemma TotalUpdate<K, V>(m: map<K, V>, k: K, v: V, w: V -> int)
    requires k in m
    ensures Total(m[k := v], w) == Total(m, w) - w(m[k]) + w(v)
  {
    TotalRemove(m, k, w);
    TotalRemove(m[k := v], k, w);
    assert m[k := v] - {k} == m - {k};
  }

  /** A weight that is nowhere negative has a total that covers any one key. */
  lemma {:induction false} TotalCovers<K, V>(m: map<K, V>, w: V -> int)
    requires forall k :: k in m ==> w(m[k]) >= 0
    ensures Total(m, w) >= 0
    ensures forall k :: k in m ==> Total(m, w) >= w(m[k])
    decreases |m|
  {
    if m != map[] {
      var j :| j in m && Total(m, w) == w(m[j]) + Total(m - {j}, w);
      TotalCovers(m - {j}, w);
      forall k | k in m ensures Total(m, w) >= w(m[k]) {
        if k != j {
          assert k in m - {j};
        }
      }
    }
  }

  /** Two different keys are covered together. */
  lemma TotalCoversTwo<K, V>(m: map<K, V>, a: K, b: K, w: V -> int)
    requires forall k :: k in m ==> w(m[k]) >= 0
    requires a in m && b in m && a != b
    ensures Total(m, w) >= w(m[a]) + w(m[b])
  {
    TotalRemove(m, a, w);
    TotalCovers(m - {a}, w);
    assert b in m - {a};
  }

  lemma {:induction false} TotalZero<K, V>(m: map<K, V>, w: V -> int)
    requires forall k :: k in m ==> w(m[k]) == 0
    ensures Total(m, w) == 0
    decreases |m|
  {
    if m != map[] {
      var j :| j in m && Total(m, w) == w(m[j]) + Total(m - {j}, w);
      TotalZero(m - {j}, w);
    }
  }

  lemma {:induction false} TotalWitness<K, V>(m: map<K, V>, w: V -> int)
    requires Total(m, w) > 0
    ensures exists k :: k in m && w(m[k]) > 0
  {
    if forall k :: k in m ==> w(m[k]) <= 0 {
      TotalNotPositive(m, w);
    }
  }

  lemma {:induction false} TotalNotPositive<K, V>(m: map<K, V>, w: V -> int)
    requires forall k :: k in m ==> w(m[k]) <= 0
    ensures Total(m, w) <= 0
    decreases |m|
  {
    if m != map[] {
      var j :| j in m && Total(m, w) == w(m[j]) + Total(m - {j}, w);
      TotalNotPositive(m - {j}, w);
    }
  }

  lemma {:induction false} TotalBound<K, V>(m: map<K, V>, w: V -> int, c: nat)
    requires forall k :: k in m ==> w(m[k]) <= c
    ensures Total(m, w) <= c * |m|
    decreases |m|
  {
    if m != map[] {
      var j :| j in m && Total(m, w) == w(m[j]) + Total(m - {j}, w);
      TotalBound(m - {j}, w, c);
      assert |m - {j}| == |m| - 1;
      assert c * |m| == c * (|m| - 1) + c;
    }
  }
}
