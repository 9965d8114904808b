/** Finite sums over the rows of a table: what `reduce` and `aggregate` compute,
    whatever order the database returns the rows in. */
module Sums {

  ghost function Sum<K>(m: map<K, int>): int
    decreases m.Keys
  {
    if m == map[] then 0 else
      var k :| k in m;
      m[k] + Sum(m - {k})
  }

  /** The entry of `m` at `k`; an absent row contributes nothing. */
  ghost function At<K>(m: map<K, int>, k: K): int {
    if k in m then m[k] else 0
  }

  /** Any row can be summed first. */
  lemma {:induction false} Pick<K>(m: map<K, int>, k: K)
    requires k in m
    ensures Sum(m) == m[k] + Sum(m - {k})
    decreases m.Keys
  {
    var k0 :| k0 in m && Sum(m) == m[k0] + Sum(m - {k0});
    if k0 != k {
      Pick(m - {k0}, k);
      Pick(m - {k}, k0);
      assert m - {k0} - {k} == m - {k} - {k0};
    }
  }

  lemma Drop<K>(m: map<K, int>, k: K)
    ensures Sum(m) == At(m, k) + Sum(m - {k})
  {
    if k in m {
      Pick(m, k);
    } else {
      assert m - {k} == m;
    }
  }

  lemma Put<K>(m: map<K, int>, k: K, v: int)
    ensures Sum(m[k := v]) == Sum(m) - At(m, k) + v
  {
    Drop(m, k);
    Pick(m[k := v], k);
    assert m[k := v] - {k} == m - {k};
  }

  lemma {:induction false} Add<K>(m: map<K, int>, n: map<K, int>, p: map<K, int>)
    requires forall k :: k in m.Keys + n.Keys + p.Keys ==> At(p, k) == At(m, k) + At(n, k)
    ensures Sum(p) == Sum(m) + Sum(n)
    decreases m.Keys + n.Keys + p.Keys
  {
    var all := m.Keys + n.Keys + p.Keys;
    if all == {} {
      assert m.Keys <= all && n.Keys <= all && p.Keys <= all;
    } else {
      var k :| k in all;
      Drop(m, k);
      Drop(n, k);
      Drop(p, k);
      var m', n', p' := m - {k}, n - {k}, p - {k};
      assert m'.Keys + n'.Keys + p'.Keys == all - {k};
      Add(m', n', p');
    }
  }

  lemma {:induction false} NonNegative<K>(m: map<K, int>)
    requires forall k :: k in m ==> 0 <= m[k]
    ensures 0 <= Sum(m)
    decreases m.Keys
  {
    if k :| k in m {
      Pick(m, k);
      NonNegative(m - {k});
    }
  }

  /** Row by row smaller, absent rows counting as zero: the sum is smaller. */
  lemma Compare<K>(m: map<K, int>, n: map<K, int>)
    requires forall k :: k in m.Keys + n.Keys ==> At(m, k) <= At(n, k)
    ensures Sum(m) <= Sum(n)
  {
    var d := map k | k in m.Keys + n.Keys :: At(n, k) - At(m, k);
    Add(m, d, n);
    NonNegative(d);
  }
}
