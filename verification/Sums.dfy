/** Sums over the values of a finite map, independent of the order of summation. */
module Sums {

  ghost function SumMap(m: map<int, int>): int
    decreases |m|
  {
    if exists k :: k in m then
      var k :| k in m;
      m[k] + SumMap(m - {k})
    else 0
  }

  /** Any key may be taken out first. */
  lemma {:induction false} SumWithout(m: map<int, int>, k: int)
    requires k in m
    ensures SumMap(m) == m[k] + SumMap(m - {k})
    decreases |m|
  {
    var j :| j in m && SumMap(m) == m[j] + SumMap(m - {j});
    if j != k {
      SumWithout(m - {j}, k);
      SumWithout(m - {k}, j);
      assert m - {j} - {k} == m - {k} - {j};
    }
  }

  lemma SumUpdate(m: map<int, int>, k: int, v: int)
    ensures SumMap(m[k := v]) == SumMap(m) + v - (if k in m then m[k] else 0)
  {
    var next := m[k := v];
    SumWithout(next, k);
    if k in m {
      SumWithout(m, k);
      assert next - {k} == m - {k};
    } else {
      assert next - {k} == m;
    }
  }

  lemma {:induction false} SumNonNegative(m: map<int, int>)
    requires forall k | k in m :: m[k] >= 0
    ensures SumMap(m) >= 0
    decreases |m|
  {
    if exists k :: k in m {
      var k :| k in m && SumMap(m) == m[k] + SumMap(m - {k});
      SumNonNegative(m - {k});
    }
  }

  lemma {:induction false} SumZero(m: map<int, int>)
    requires forall k | k in m :: m[k] == 0
    ensures SumMap(m) == 0
    decreases |m|
  {
    if exists k :: k in m {
      var k :| k in m && SumMap(m) == m[k] + SumMap(m - {k});
      SumZero(m - {k});
    }
  }

  /** One value is at most the sum, and so are two of them. */
  lemma SumAtLeastTwo(m: map<int, int>, j: int, k: int)
    requires j in m && k in m && j != k
    requires forall i | i in m :: m[i] >= 0
    ensures m[j] + m[k] <= SumMap(m)
  {
    SumWithout(m, j);
    SumWithout(m - {j}, k);
    SumNonNegative(m - {j} - {k});
  }

  /** A sum of non-negative values is zero only if every value is. */
  lemma SumZeroAll(m: map<int, int>)
    requires forall i | i in m :: m[i] >= 0
    requires SumMap(m) == 0
    ensures forall i | i in m :: m[i] == 0
  {
    forall i | i in m ensures m[i] == 0 {
      SumWithout(m, i);
      SumNonNegative(m - {i});
    }
  }
}
