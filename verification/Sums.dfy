/** Sums over finite tables.  A table is a map; `SumBy` adds one amount for each of its rows. */
module Sums {

  /** The sum of `f` over the rows of `t`, taken in any order: what SQL writes as SUM(...). */
  ghost function SumBy<K, V>(t: map<K, V>, f: (K, V) -> int): int
    decreases |t|
  {
    if t == map[] then 0
    else
      var k :| k in t;
      f(k, t[k]) + SumBy(t - {k}, f)
  }

  /** The choice made inside `SumBy` does not matter: any row may be taken out first. */
  lemma {:induction false} SumByTakeOut<K, V>(t: map<K, V>, k: K, f: (K, V) -> int)
    requires k in t
    ensures SumBy(t, f) == f(k, t[k]) + SumBy(t - {k}, f)
    decreases |t|
  {
    var c :| c in t && SumBy(t, f) == f(c, t[c]) + SumBy(t - {c}, f);
    if c != k {
      SumByTakeOut(t - {c}, k, f);
      SumByTakeOut(t - {k}, c, f);
      assert t - {c} - {k} == t - {k} - {c};
    }
  }

  /** Writing one row changes the sum by that row's difference only. */
  lemma {:induction false} SumByUpdate<K, V>(t: map<K, V>, k: K, v: V, f: (K, V) -> int)
    ensures SumBy(t[k := v], f) == SumBy(t, f) - (if k in t then f(k, t[k]) else 0) + f(k, v)
  {
    SumByTakeOut(t[k := v], k, f);
    assert t[k := v] - {k} == t - {k};
    if k in t {
      SumByTakeOut(t, k, f);
    } else {
      assert t - {k} == t;
    }
  }

  /** A sum of non-negative amounts is at least each of them. */
  lemma {:induction false} SumByAtLeast<K, V>(t: map<K, V>, k: K, f: (K, V) -> int)
    requires k in t
    requires forall j :: j in t ==> f(j, t[j]) >= 0
    ensures SumBy(t, f) >= f(k, t[k])
  {
    SumByTakeOut(t, k, f);
    SumByNonNegative(t - {k}, f);
  }

  lemma {:induction false} SumByNonNegative<K, V>(t: map<K, V>, f: (K, V) -> int)
    requires forall k :: k in t ==> f(k, t[k]) >= 0
    ensures SumBy(t, f) >= 0
    decreases |t|
  {
    if t != map[] {
      var k :| k in t && SumBy(t, f) == f(k, t[k]) + SumBy(t - {k}, f);
      SumByNonNegative(t - {k}, f);
    }
  }

  lemma {:induction false} SumByZero<K, V>(t: map<K, V>, f: (K, V) -> int)
    requires forall k :: k in t ==> f(k, t[k]) == 0
    ensures SumBy(t, f) == 0
    decreases |t|
  {
    if t != map[] {
      var k :| k in t && SumBy(t, f) == f(k, t[k]) + SumBy(t - {k}, f);
      SumByZero(t - {k}, f);
    }
  }
}
