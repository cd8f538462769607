/** Weighted sums over the entries of a finite map, and cardinalities of maps. */
module Counting {

  /** The sum of w(m[k]) over the keys k in ks. */
  ghost function WeighOver<T>(ks: set<nat>, m: map<nat, T>, w: T -> nat): nat
    requires ks <= m.Keys
  {
    if ks == {} then 0 else var k :| k in ks; w(m[k]) + WeighOver(ks - {k}, m, w)
  }

  /** The sum of w over all values of m. */
  ghost function Weigh<T>(m: map<nat, T>, w: T -> nat): nat {
    WeighOver(m.Keys, m, w)
  }

  lemma {:induction false} WeighPull<T>(ks: set<nat>, m: map<nat, T>, w: T -> nat, k: nat)
    requires ks <= m.Keys && k in ks
    ensures WeighOver(ks, m, w) == w(m[k]) + WeighOver(ks - {k}, m, w)
    decreases ks
  {
    var j :| j in ks && WeighOver(ks, m, w) == w(m[j]) + WeighOver(ks - {j}, m, w);
    if j != k {
      WeighPull(ks - {j}, m, w, k);
      WeighPull(ks - {k}, m, w, j);
      assert ks - {j} - {k} == ks - {k} - {j};
    }
  }

  lemma {:induction false} WeighFrame<T>(ks: set<nat>, m: map<nat, T>, m': map<nat, T>, w: T -> nat)
    requires ks <= m.Keys && ks <= m'.Keys
    requires forall k | k in ks :: m[k] == m'[k]
    ensures WeighOver(ks, m, w) == WeighOver(ks, m', w)
    decreases ks
  {
    if ks != {} {
      var k :| k in ks;
      WeighPull(ks, m, w, k);
      WeighPull(ks, m', w, k);
      WeighFrame(ks - {k}, m, m', w);
    }
  }

  lemma WeighRemove<T>(m: map<nat, T>, w: T -> nat, k: nat)
    requires k in m
    ensures Weigh(m, w) == w(m[k]) + Weigh(m - {k}, w)
  {
    WeighPull(m.Keys, m, w, k);
    assert (m - {k}).Keys == m.Keys - {k};
    WeighFrame(m.Keys - {k}, m, m - {k}, w);
  }

  lemma WeighAdd<T>(m: map<nat, T>, w: T -> nat, k: nat, v: T)
    requires k !in m
    ensures Weigh(m[k := v], w) == w(v) + Weigh(m, w)
  {
    WeighRemove(m[k := v], w, k);
    assert m[k := v] - {k} == m;
  }

  lemma WeighUpdate<T>(m: map<nat, T>, w: T -> nat, k: nat, v: T)
    requires k in m
    ensures Weigh(m[k := v], w) + w(m[k]) == Weigh(m, w) + w(v)
  {
    WeighRemove(m, w, k);
    WeighRemove(m[k := v], w, k);
    assert m[k := v] - {k} == m - {k};
  }

  ghost function Matching<T>(m: map<nat, T>, p: T -> bool): set<nat> {
    set k | k in m && p(m[k])
  }

  /** The number of entries of m that satisfy p. */
  ghost function Count<T>(m: map<nat, T>, p: T -> bool): nat {
    |Matching(m, p)|
  }

  lemma CountRemove<T>(m: map<nat, T>, p: T -> bool, k: nat)
    requires k in m
    ensures Count(m, p) == Count(m - {k}, p) + (if p(m[k]) then 1 else 0)
  {
    assert Matching(m - {k}, p) == Matching(m, p) - {k};
  }

  lemma CountAdd<T>(m: map<nat, T>, p: T -> bool, k: nat, v: T)
    requires k !in m
    ensures Count(m[k := v], p) == Count(m, p) + (if p(v) then 1 else 0)
  {
    CountRemove(m[k := v], p, k);
    assert m[k := v] - {k} == m;
  }

  lemma CountUpdate<T>(m: map<nat, T>, p: T -> bool, k: nat, v: T)
    requires k in m
    ensures Count(m[k := v], p) + (if p(m[k]) then 1 else 0) == Count(m, p) + (if p(v) then 1 else 0)
  {
    CountRemove(m, p, k);
    CountRemove(m[k := v], p, k);
    assert m[k := v] - {k} == m - {k};
  }

  /** Two predicates of which every entry satisfies exactly one split the size of the map. */
  lemma CountSplit<T>(m: map<nat, T>, p: T -> bool, q: T -> bool)
    requires forall k | k in m :: p(m[k]) != q(m[k])
    ensures Count(m, p) + Count(m, q) == |m|
  {
    assert m.Keys == Matching(m, p) + Matching(m, q) && Matching(m, p) !! Matching(m, q);
    assert |m.Keys| == |m|;
  }

  lemma CountZero<T>(m: map<nat, T>, p: T -> bool)
    ensures Count(m, p) == 0 <==> forall k | k in m :: !p(m[k])
  {
    if k :| k in m && p(m[k]) {
      assert k in Matching(m, p);
    } else {
      assert Matching(m, p) == {};
    }
  }

  lemma SizeRemove<K, V>(m: map<K, V>, k: K)
    requires k in m
    ensures |m - {k}| + 1 == |m|
  {
    assert (m - {k}).Keys == m.Keys - {k};
    assert |(m - {k}).Keys| == |m - {k}| && |m.Keys| == |m|;
  }

  lemma {:induction false} SubsetSize<T>(a: set<T>, b: set<T>)
    requires a <= b
    ensures |a| <= |b|
    decreases |a|
  {
    if x :| x in a {
      SubsetSize(a - {x}, b - {x});
    }
  }

  /** For any finitely many numbers there is another one. */
  lemma FreshNumber(used: set<nat>) returns (n: nat)
    ensures n !in used
  {
    n := 0;
    var rest := used;
    while rest != {}
      invariant forall k | k in used && k !in rest :: k < n
    {
      var k :| k in rest;
      rest := rest - {k};
      if k >= n { n := k + 1; }
    }
  }
}
