/** Sums over finite maps, and the wrap-around of a Go int64. */
module Sums {

  const MAX64 := 0x7fff_ffff_ffff_ffff
  const TWO64 := 0x1_0000_0000_0000_0000

  predicate Int64(n: int) {
    -MAX64 - 1 <= n <= MAX64
  }

  /** The int64 that an overflowing addition or subtraction leaves behind. */
  function Wrap64(n: int): (w: int)
    ensures Int64(w)
    ensures Int64(n) ==> w == n
    ensures n >= 0 ==> w <= n
  {
    (n + MAX64 + 1) % TWO64 - MAX64 - 1
  }

  lemma WrapAdds(x: int, y: int)
    ensures Wrap64(Wrap64(x) + y) == Wrap64(x + y)
  {
    var a, q := x + MAX64 + 1, (x + MAX64 + 1) / TWO64;
    assert a == TWO64 * q + a % TWO64;
    assert (a + y) % TWO64 == (a % TWO64 + y) % TWO64 by {
      ModShift(a % TWO64 + y, q);
    }
  }

  lemma {:induction false} ModShift(r: int, q: int)
    ensures (TWO64 * q + r) % TWO64 == r % TWO64
    decreases if q < 0 then -q else q
  {
    if q > 0 {
      ModShift(r, q - 1);
      assert TWO64 * q + r == TWO64 * (q - 1) + r + TWO64;
    } else if q < 0 {
      ModShift(r, q + 1);
      assert TWO64 * q + r == TWO64 * (q + 1) + r - TWO64;
    }
  }

  ghost function Sum<K>(m: map<K, int>): int {
    if m == map[] then 0
    else
      var k :| k in m;
      m[k] + Sum(m - {k})
  }

  lemma {:induction false} SumSplit<K>(m: map<K, int>, k: K)
    requires k in m
    ensures Sum(m) == m[k] + Sum(m - {k})
    decreases |m|
  {
    var j :| j in m && Sum(m) == m[j] + Sum(m - {j});
    if j != k {
      SumSplit(m - {j}, k);
      SumSplit(m - {k}, j);
      assert m - {j} - {k} == m - {k} - {j};
    }
  }

  lemma SumUpdate<K>(m: map<K, int>, k: K, v: int)
    ensures Sum(m[k := v]) == Sum(m) - (if k in m then m[k] else 0) + v
  {
    SumSplit(m[k := v], k);
    assert m[k := v] - {k} == m - {k};
    if k in m {
      SumSplit(m, k);
    } else {
      assert m - {k} == m;
    }
  }

  ghost predicate NonNegative<K>(m: map<K, int>) {
    forall k | k in m :: m[k] >= 0
  }

  lemma {:induction false} SumNonNegative<K>(m: map<K, int>)
    requires NonNegative(m)
    ensures Sum(m) >= 0
    decreases |m|
  {
    if m != map[] {
      var k :| k in m && Sum(m) == m[k] + Sum(m - {k});
      SumNonNegative(m - {k});
    }
  }

  /** No entry, and no two entries together, exceed the sum. */
  lemma SumBounds<K>(m: map<K, int>, j: K, k: K)
    requires NonNegative(m) && j in m && k in m
    ensures m[j] <= Sum(m)
    ensures j != k ==> m[j] + m[k] <= Sum(m)
  {
    SumSplit(m, j);
    SumNonNegative(m - {j});
    if j != k {
      SumSplit(m - {j}, k);
      SumNonNegative(m - {j} - {k});
    }
  }

  lemma {:induction false} SumZeros<K>(m: map<K, int>)
    requires forall k | k in m :: m[k] == 0
    ensures Sum(m) == 0
    decreases |m|
  {
    if m != map[] {
      var k :| k in m && Sum(m) == m[k] + Sum(m - {k});
      SumZeros(m - {k});
    }
  }

  /** Entries that are zero do not matter. */
  lemma {:induction false} SumWithoutZeros<K>(m: map<K, int>, keys: set<K>)
    requires keys <= m.Keys && forall k | k in m && k !in keys :: m[k] == 0
    ensures Sum(m) == Sum(map k | k in keys :: m[k])
    decreases |m|
  {
    var n := map k | k in keys :: m[k];
    if m.Keys != keys {
      var j :| j in m && j !in keys;
      SumSplit(m, j);
      SumWithoutZeros(m - {j}, keys);
      assert n == map k | k in keys :: (m - {j})[k];
    } else {
      assert n == m;
    }
  }
}
