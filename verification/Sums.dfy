/** Sums over the rows of a table, independent of the order in which they are visited. */
module Sums {

  ghost function Sum<K, V>(m: map<K, V>, f: (K, V) -> real): real
    decreases |m|
  {
    if m == map[] then 0.0
    else
      var k :| k in m;
      assert (m - {k}).Keys == m.Keys - {k};
      f(k, m[k]) + Sum(m - {k}, f)
  }

  /** Any row may be taken out first. */
  lemma {:induction false} SumRemove<K, V>(m: map<K, V>, f: (K, V) -> real, k: K)
    requires k in m
    ensures Sum(m, f) == f(k, m[k]) + Sum(m - {k}, f)
    decreases |m|
  {
    var j :| j in m && Sum(m, f) == f(j, m[j]) + Sum(m - {j}, f);
    if j != k {
      assert (m - {j}).Keys == m.Keys - {j} && (m - {k}).Keys == m.Keys - {k};
      SumRemove(m - {j}, f, k);
      SumRemove(m - {k}, f, j);
      assert m - {j} - {k} == m - {k} - {j};
    }
  }

  /** Writing one row changes the sum by that row alone. */
  lemma SumUpdate<K, V>(m: map<K, V>, f: (K, V) -> real, k: K, v: V)
    ensures Sum(m[k := v], f) == Sum(m - {k}, f) + f(k, v)
    ensures k in m ==> Sum(m[k := v], f) == Sum(m, f) - f(k, m[k]) + f(k, v)
    ensures k !in m ==> Sum(m[k := v], f) == Sum(m, f) + f(k, v)
  {
    SumRemove(m[k := v], f, k);
    assert m[k := v] - {k} == m - {k};
    if k in m {
      SumRemove(m, f, k);
    } else {
      assert m - {k} == m;
    }
  }

  /** Rows that each weigh no more weigh no more together. */
  lemma {:induction false} SumMonotone<K, V, W>(m: map<K, V>, f: (K, V) -> real, n: map<K, W>, g: (K, W) -> real)
    requires m.Keys == n.Keys
    requires forall k :: k in m ==> f(k, m[k]) <= g(k, n[k])
    ensures Sum(m, f) <= Sum(n, g)
    decreases |m|
  {
    if m == map[] {
      assert n == map[];
    } else {
      var k :| k in m;
      assert (m - {k}).Keys == m.Keys - {k} && (n - {k}).Keys == n.Keys - {k};
      SumRemove(m, f, k);
      SumRemove(n, g, k);
      SumMonotone(m - {k}, f, n - {k}, g);
    }
  }

  /** Rows that are each outweighed by their counterpart in another table weigh no more than that table. */
  lemma {:induction false} SumDominated<K, V, W>(m: map<K, V>, f: (K, V) -> real, n: map<K, W>, g: (K, W) -> real)
    requires forall k :: k in m ==> f(k, m[k]) <= if k in n then g(k, n[k]) else 0.0
    requires forall k :: k in n ==> 0.0 <= g(k, n[k])
    ensures Sum(m, f) <= Sum(n, g)
    decreases |n|, |m|
  {
    if n == map[] {
      SumNotPositive(m, f);
    } else {
      var k :| k in n;
      assert (n - {k}).Keys == n.Keys - {k};
      SumRemove(n, g, k);
      SumDominated(m - {k}, f, n - {k}, g);
      if k in m {
        SumRemove(m, f, k);
      } else {
        assert m - {k} == m;
      }
    }
  }

  lemma {:induction false} SumNotPositive<K, V>(m: map<K, V>, f: (K, V) -> real)
    requires forall k :: k in m ==> f(k, m[k]) <= 0.0
    ensures Sum(m, f) <= 0.0
    decreases |m|
  {
    if m != map[] {
      var k :| k in m;
      assert (m - {k}).Keys == m.Keys - {k};
      SumRemove(m, f, k);
      SumNotPositive(m - {k}, f);
    }
  }

  /** Weights that add up row by row add up in total. */
  lemma {:induction false} SumSplit<K, V>(m: map<K, V>, f: (K, V) -> real, g: (K, V) -> real, h: (K, V) -> real)
    requires forall k :: k in m ==> h(k, m[k]) == f(k, m[k]) + g(k, m[k])
    ensures Sum(m, h) == Sum(m, f) + Sum(m, g)
    decreases |m|
  {
    if m != map[] {
      var k :| k in m;
      assert (m - {k}).Keys == m.Keys - {k};
      SumRemove(m, f, k);
      SumRemove(m, g, k);
      SumRemove(m, h, k);
      SumSplit(m - {k}, f, g, h);
    }
  }

  /** n times x, as repeated addition: a linear form of the product that proofs can work with. */
  function Times(n: nat, x: real): real {
    if n == 0 then 0.0 else Times(n - 1, x) + x
  }

  lemma {:induction false} TimesIsProduct(n: nat, x: real)
    ensures Times(n, x) == n as real * x
  {
    if n > 0 {
      TimesIsProduct(n - 1, x);
      assert (n - 1) as real * x + x == n as real * x;
    }
  }

  lemma {:induction false} TimesSum(n: nat, x: real, y: real)
    ensures Times(n, x + y) == Times(n, x) + Times(n, y)
  {
    if n > 0 {
      TimesSum(n - 1, x, y);
    }
  }

  lemma {:induction false} TimesMonotone(m: nat, n: nat, x: real, y: real)
    requires m <= n && x <= y && 0.0 <= y
    ensures Times(m, x) <= Times(n, y)
    decreases n
  {
    if n > 0 {
      TimesMonotone(if m > 0 then m - 1 else 0, n - 1, x, y);
    }
  }

  lemma {:induction false} TimesAdd(m: nat, n: nat, x: real)
    ensures Times(m + n, x) == Times(m, x) + Times(n, x)
  {
    if n > 0 {
      TimesAdd(m, n - 1, x);
    }
  }

  lemma TimesWhole(n: nat, m: int)
    ensures Times(n, m as real) == (n * m) as real
  {
    TimesIsProduct(n, m as real);
  }
}
