/** Finite sums of real numbers: the pro-rata parts of a cargo, before rounding. */
module Shares {
  import Sums

  ghost function Total<K>(m: map<K, real>): real
    decreases m.Keys
  {
    if m == map[] then 0.0 else
      var k :| k in m;
      m[k] + Total(m - {k})
  }

  lemma {:induction false} Pick<K>(m: map<K, real>, k: K)
    requires k in m
    ensures Total(m) == m[k] + Total(m - {k})
    decreases m.Keys
  {
    var k0 :| k0 in m && Total(m) == m[k0] + Total(m - {k0});
    if k0 != k {
      Pick(m - {k0}, k);
      Pick(m - {k}, k0);
      assert m - {k0} - {k} == m - {k} - {k0};
    }
  }

  lemma {:induction false} Add<K>(m: map<K, real>, n: map<K, real>, p: map<K, real>)
    requires m.Keys == n.Keys == p.Keys
    requires forall k :: k in p ==> p[k] == m[k] + n[k]
    ensures Total(p) == Total(m) + Total(n)
    decreases m.Keys
  {
    if k :| k in p {
      Pick(m, k);
      Pick(n, k);
      Pick(p, k);
      Add(m - {k}, n - {k}, p - {k});
    } else {
      assert m.Keys == {} && n.Keys == {} && p.Keys == {};
    }
  }

  lemma {:induction false} Compare<K>(m: map<K, real>, n: map<K, real>)
    requires m.Keys == n.Keys
    requires forall k :: k in m ==> m[k] <= n[k]
    ensures Total(m) <= Total(n)
    decreases m.Keys
  {
    if k :| k in m {
      Pick(m, k);
      Pick(n, k);
      Compare(m - {k}, n - {k});
    } else {
      assert m == map[] && n.Keys == {};
    }
  }

  ghost function Times(c: real, a: real): real {
    c * a
  }

  lemma Distribute(c: real, a: real, b: real)
    ensures Times(c, a + b) == Times(c, a) + Times(c, b)
    ensures Times(c, 0.0) == 0.0
  {
  }

  lemma {:induction false} Scale<K>(m: map<K, real>, n: map<K, real>, c: real)
    requires m.Keys == n.Keys
    requires forall k :: k in m ==> m[k] == Times(c, n[k])
    ensures Total(m) == Times(c, Total(n))
    decreases m.Keys, 1
  {
    if k :| k in m {
      ScaleStep(m, n, c, k);
    } else {
      assert m == map[] && n.Keys == {};
      assert Total(n) == 0.0;
      Distribute(c, 0.0, 0.0);
    }
  }

  lemma {:induction false} ScaleStep<K>(m: map<K, real>, n: map<K, real>, c: real, k: K)
    requires m.Keys == n.Keys && k in m
    requires forall k :: k in m ==> m[k] == Times(c, n[k])
    ensures Total(m) == Times(c, Total(n))
    decreases m.Keys, 0
  {
    Pick(m, k);
    Pick(n, k);
    assert (m - {k}).Keys == m.Keys - {k};
    Scale(m - {k}, n - {k}, c);
    Distribute(c, n[k], Total(n - {k}));
  }

  ghost function Row<K, L>(f: (K, L) -> real, k: K, ls: set<L>): map<L, real> {
    map l | l in ls :: f(k, l)
  }

  ghost function Column<K, L>(f: (K, L) -> real, l: L, ks: set<K>): map<K, real> {
    map k | k in ks :: f(k, l)
  }

  ghost function ByRow<K, L>(f: (K, L) -> real, ks: set<K>, ls: set<L>): map<K, real> {
    map k | k in ks :: Total(Row(f, k, ls))
  }

  ghost function ByColumn<K, L>(f: (K, L) -> real, ks: set<K>, ls: set<L>): map<L, real> {
    map l | l in ls :: Total(Column(f, l, ks))
  }

  lemma {:induction false} Zero<K>(m: map<K, real>)
    requires forall k :: k in m ==> m[k] == 0.0
    ensures Total(m) == 0.0
    decreases m.Keys
  {
    if k :| k in m {
      Pick(m, k);
      Zero(m - {k});
    }
  }

  lemma ColumnStep<K, L>(f: (K, L) -> real, k: K, ks: set<K>, l: L)
    requires k in ks
    ensures Total(Column(f, l, ks)) == f(k, l) + Total(Column(f, l, ks - {k}))
  {
    Pick(Column(f, l, ks), k);
    assert Column(f, l, ks) - {k} == Column(f, l, ks - {k});
  }

  /** A double sum can be taken row by row or column by column. */
  lemma {:induction false} Exchange<K, L>(f: (K, L) -> real, ks: set<K>, ls: set<L>)
    ensures Total(ByRow(f, ks, ls)) == Total(ByColumn(f, ks, ls))
    decreases ks
  {
    if ks == {} {
      forall l | l in ls ensures ByColumn(f, ks, ls)[l] == 0.0 {
        assert Column(f, l, ks) == map[];
      }
      Zero(ByColumn(f, ks, ls));
      assert ByRow(f, ks, ls) == map[];
    } else {
      var k :| k in ks;
      Exchange(f, ks - {k}, ls);
      forall l | l in ls ensures ByColumn(f, ks, ls)[l] == f(k, l) + ByColumn(f, ks - {k}, ls)[l] {
        ColumnStep(f, k, ks, l);
      }
      Add(Row(f, k, ls), ByColumn(f, ks - {k}, ls), ByColumn(f, ks, ls));
      Pick(ByRow(f, ks, ls), k);
      assert ByRow(f, ks, ls) - {k} == ByRow(f, ks - {k}, ls);
    }
  }

  ghost function At<K>(m: map<K, real>, k: K): real {
    if k in m then m[k] else 0.0
  }

  /** Rows that add nothing can be left out. */
  lemma {:induction false} Pad<K>(m: map<K, real>, n: map<K, real>)
    requires m.Keys <= n.Keys
    requires forall k :: k in n ==> n[k] == At(m, k)
    ensures Total(m) == Total(n)
    decreases n.Keys
  {
    if k :| k in n {
      Pick(n, k);
      if k in m {
        Pick(m, k);
        Pad(m - {k}, n - {k});
      } else {
        Pad(m, n - {k});
      }
    } else {
      assert n.Keys == {} && m.Keys == {};
    }
  }

  function Reals<K>(m: map<K, int>): map<K, real> {
    map k | k in m :: m[k] as real
  }

  lemma {:induction false} WholeTotal<K>(m: map<K, int>)
    ensures Total(Reals(m)) == Sums.Sum(m) as real
    decreases m.Keys
  {
    if k :| k in m {
      Pick(Reals(m), k);
      Sums.Pick(m, k);
      assert Reals(m) - {k} == Reals(m - {k});
      WholeTotal(m - {k});
    } else {
      assert Reals(m).Keys == {} && m.Keys == {};
    }
  }

  lemma {:induction false} NonNegative<K>(m: map<K, real>)
    requires forall k :: k in m ==> 0.0 <= m[k]
    ensures 0.0 <= Total(m)
    decreases m.Keys
  {
    if k :| k in m {
      Pick(m, k);
      NonNegative(m - {k});
    }
  }

  lemma {:induction false} HalfOver<K>(m: map<K, real>, n: map<K, real>)
    requires m.Keys == n.Keys
    requires forall k :: k in m ==> m[k] <= n[k] + 0.5
    ensures Total(m) <= Total(n) + 0.5 * |m| as real
    decreases m.Keys
  {
    if k :| k in m {
      Pick(m, k);
      Pick(n, k);
      assert |m - {k}| == |m| - 1 by { assert (m - {k}).Keys == m.Keys - {k}; }
      HalfOver(m - {k}, n - {k});
    } else {
      assert m == map[] && n.Keys == {};
    }
  }
}
