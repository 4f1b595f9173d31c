/** Weighted sums over finite maps: what every cached counter of the program summarises. */
module Sums {

  /** The sum of `w(m[k])` over the keys of `m`. */
  ghost function MapSum<K(!new), V>(m: map<K, V>, w: V -> nat): nat
  {
    if m == map[] then 0
    else
      var k :| k in m;
      w(m[k]) + MapSum(m - {k}, w)
  }

  /** The sum does not depend on the order in which keys are taken out. */
  lemma {:induction false} MapSumRemove<K(!new), V>(m: map<K, V>, k: K, w: V -> nat)
    requires k in m
    ensures MapSum(m, w) == w(m[k]) + MapSum(m - {k}, w)
    decreases |m|
  {
    var c :| c in m && MapSum(m, w) == w(m[c]) + MapSum(m - {c}, w);
    if c != k {
      MapSumRemove(m - {c}, k, w);
      MapSumRemove(m - {k}, c, w);
      assert m - {c} - {k} == m - {k} - {c};
    }
  }

  /** Writing one key changes the sum by the difference of the two weights. */
  lemma MapSumUpdate<K(!new), V>(m: map<K, V>, k: K, v: V, w: V -> nat)
    ensures MapSum(m[k := v], w) + (if k in m then w(m[k]) else 0) == MapSum(m, w) + w(v)
  {
    MapSumRemove(m[k := v], k, w);
    assert m[k := v] - {k} == m - {k};
    if k in m {
      MapSumRemove(m, k, w);
    } else {
      assert m - {k} == m;
    }
  }

  /** A sum is zero exactly when every weight is. */
  lemma {:induction false} MapSumZero<K(!new), V>(m: map<K, V>, w: V -> nat)
    ensures MapSum(m, w) == 0 <==> forall k :: k in m ==> w(m[k]) == 0
    decreases |m|
  {
    if m != map[] {
      var c :| c in m && MapSum(m, w) == w(m[c]) + MapSum(m - {c}, w);
      MapSumZero(m - {c}, w);
      forall k | k in m && MapSum(m, w) == 0
        ensures w(m[k]) == 0
      {
        if k != c { assert k in m - {c}; }
      }
    }
  }

  /** Maps with the same keys whose weights agree have the same sum. */
  lemma {:induction false} MapSumSame<K(!new), V>(m: map<K, V>, m': map<K, V>, w: V -> nat)
    requires m.Keys == m'.Keys
    requires forall k :: k in m ==> w(m[k]) == w(m'[k])
    ensures MapSum(m, w) == MapSum(m', w)
    decreases |m|
  {
    if m == map[] {
      assert m' == map[];
    } else {
      var k :| k in m;
      MapSumRemove(m, k, w);
      MapSumRemove(m', k, w);
      MapSumSame(m - {k}, m' - {k}, w);
    }
  }

  /** Weights that are one on a set of keys and zero elsewhere count that set. */
  lemma {:induction false} MapSumCounts<K(!new), V>(m: map<K, V>, w: V -> nat, s: set<K>)
    requires s <= m.Keys && forall k :: k in m ==> w(m[k]) == if k in s then 1 else 0
    ensures MapSum(m, w) == |s|
    decreases |m|
  {
    if m == map[] {
      assert s == {};
    } else {
      var k :| k in m;
      MapSumRemove(m, k, w);
      MapSumCounts(m - {k}, w, s - {k});
    }
  }

  /** New entries of weight zero do not change the sum. */
  lemma {:induction false} MapSumGrown<K(!new), V>(m: map<K, V>, m': map<K, V>, w: V -> nat)
    requires m.Keys <= m'.Keys
    requires forall k :: k in m ==> w(m[k]) == w(m'[k])
    requires forall k :: k in m' && k !in m ==> w(m'[k]) == 0
    ensures MapSum(m, w) == MapSum(m', w)
    decreases |m'|
  {
    var extra := m'.Keys - m.Keys;
    if extra == {} {
      assert m'.Keys == m.Keys;
      MapSumSame(m, m', w);
    } else {
      var k :| k in extra;
      MapSumGrown(m, m' - {k}, w);
      MapSumRemove(m', k, w);
    }
  }
}
