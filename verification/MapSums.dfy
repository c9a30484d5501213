/** Exact sums over the values of a map, independent of any iteration order. */
module MapSums {
  ghost function Sum<K(!new)>(m: map<K, int>): int {
    if m == map[] then 0
    else
      var k :| k in m;
      m[k] + Sum(m - {k})
  }

  lemma {:induction false} SumSplit<K(!new)>(m: map<K, int>, k: K)
    requires k in m
    ensures Sum(m) == m[k] + Sum(m - {k})
    decreases |m|
  {
    var j :| j in m && Sum(m) == m[j] + Sum(m - {j});
    if j != k {
      SumSplit(m - {j}, k);
      SumSplit(m - {k}, j);
      assert m - {j} - {k} == m - {k} - {j};
    }
  }

  lemma SumUpdate<K(!new)>(m: map<K, int>, k: K, v: int)
    ensures Sum(m[k := v]) == Sum(m) + v - (if k in m then m[k] else 0)
  {
    SumSplit(m[k := v], k);
    assert m[k := v] - {k} == m - {k};
    if k in m {
      SumSplit(m, k);
    } else {
      assert m - {k} == m;
    }
  }

  lemma {:induction false} SumNonNegative<K(!new)>(m: map<K, int>)
    requires forall k | k in m :: 0 <= m[k]
    ensures 0 <= Sum(m)
    decreases |m|
  {
    if m != map[] {
      var k :| k in m;
      SumSplit(m, k);
      SumNonNegative(m - {k});
    }
  }

  /** A value never exceeds a sum of non-negative values that includes it. */
  lemma SumAtLeast<K(!new)>(m: map<K, int>, k: K)
    requires k in m && forall j | j in m :: 0 <= m[j]
    ensures m[k] <= Sum(m)
  {
    SumSplit(m, k);
    SumNonNegative(m - {k});
  }

  lemma {:induction false} SumMonotone<K(!new)>(m: map<K, int>, n: map<K, int>)
    requires m.Keys == n.Keys
    requires forall k | k in m :: m[k] <= n[k]
    ensures Sum(m) <= Sum(n)
    decreases |m|
  {
    if m != map[] {
      var k :| k in m;
      SumSplit(m, k);
      SumSplit(n, k);
      SumMonotone(m - {k}, n - {k});
    } else {
      assert n == map[];
    }
  }

  ghost function At<K>(m: map<K, int>, k: K): int {
    if k in m then m[k] else 0
  }

  /** Sums add up pointwise, an absent key counting as zero. */
  lemma {:induction false} SumAdd<K(!new)>(m: map<K, int>, n: map<K, int>, s: map<K, int>)
    requires m.Keys <= s.Keys && n.Keys <= s.Keys
    requires forall k | k in s :: s[k] == At(m, k) + At(n, k)
    ensures Sum(s) == Sum(m) + Sum(n)
    decreases |s|
  {
    if s != map[] {
      var k :| k in s;
      SumSplit(s, k);
      SumWithout(m, k);
      SumWithout(n, k);
      SumAdd(m - {k}, n - {k}, s - {k});
    } else {
      assert m == map[] && n == map[];
    }
  }

  lemma SumWithout<K(!new)>(m: map<K, int>, k: K)
    ensures Sum(m) == At(m, k) + Sum(m - {k})
  {
    if k in m {
      SumSplit(m, k);
    } else {
      assert m - {k} == m;
    }
  }

  lemma {:induction false} SumConstant<K(!new)>(m: map<K, int>, c: int)
    requires forall k | k in m :: m[k] == c
    ensures Sum(m) == c * |m|
    decreases |m|
  {
    if m != map[] {
      var k :| k in m;
      SumSplit(m, k);
      assert |m - {k}| == |m| - 1 by {
        assert (m - {k}).Keys == m.Keys - {k};
      }
      SumConstant(m - {k}, c);
    }
  }

  /** Reading absent keys as zero leaves a sum alone. */
  lemma {:induction false} SumExtend<K(!new)>(m: map<K, int>, n: map<K, int>)
    requires m.Keys <= n.Keys
    requires forall k | k in n :: n[k] == if k in m then m[k] else 0
    ensures Sum(m) == Sum(n)
    decreases |n|
  {
    if n != map[] {
      var k :| k in n;
      SumSplit(n, k);
      if k in m {
        SumSplit(m, k);
        SumExtend(m - {k}, n - {k});
      } else {
        SumExtend(m, n - {k});
      }
    } else {
      assert m == map[];
    }
  }

  /** Values at most c above those of m sum to at most c per key more. */
  lemma {:induction false} SumShift<K(!new)>(m: map<K, int>, n: map<K, int>, c: int)
    requires m.Keys == n.Keys
    requires forall k | k in m :: n[k] <= m[k] + c
    ensures Sum(n) <= Sum(m) + c * |m|
    decreases |m|
  {
    if m != map[] {
      var k :| k in m;
      SumSplit(m, k);
      SumSplit(n, k);
      assert (m - {k}).Keys == m.Keys - {k};
      SumShift(m - {k}, n - {k}, c);
      assert c * (|m| - 1) + c == c * |m|;
    } else {
      assert n == map[];
    }
  }
}
