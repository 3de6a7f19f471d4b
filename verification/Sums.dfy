// Sums over finite maps and over sequences, with the lemmas that say how one
// changed entry moves the sum.

module Sums {

  ghost function Pick<K(!new), V>(m: map<K, V>): (k: K)
    requires |m| != 0
    ensures k in m
  {
    var k :| k in m;
    k
  }

  ghost function Sum<K(!new), V>(m: map<K, V>, f: (K, V) -> real): real
    decreases |m|
  {
    if |m| == 0 then 0.0
    else
      var k := Pick(m);
      f(k, m[k]) + Sum(m - {k}, f)
  }

  // The sum does not depend on which key is taken out first.
  lemma {:induction false} SumRemove<K(!new), V>(m: map<K, V>, k: K, f: (K, V) -> real)
    requires k in m
    ensures Sum(m, f) == f(k, m[k]) + Sum(m - {k}, f)
    decreases |m|
  {
    var j := Pick(m);
    if j != k {
      var n := m - {j} - {k};
      assert n == m - {k} - {j};
      assert Sum(m - {j}, f) == f(k, m[k]) + Sum(n, f) by { SumRemove(m - {j}, k, f); }
      assert Sum(m - {k}, f) == f(j, m[j]) + Sum(n, f) by { SumRemove(m - {k}, j, f); }
    }
  }

  lemma SumUpdate<K(!new), V>(m: map<K, V>, k: K, v: V, f: (K, V) -> real)
    ensures Sum(m[k := v], f) == Sum(m, f) + f(k, v) - (if k in m then f(k, m[k]) else 0.0)
  {
    SumRemove(m[k := v], k, f);
    assert m[k := v][k] == v && m[k := v] - {k} == m - {k};
    if k in m {
      SumRemove(m, k, f);
    } else {
      assert m - {k} == m;
    }
  }

  lemma {:induction false} SumNonNegative<K(!new), V>(m: map<K, V>, f: (K, V) -> real)
    requires forall k :: k in m ==> f(k, m[k]) >= 0.0
    ensures Sum(m, f) >= 0.0
    decreases |m|
  {
    if |m| != 0 {
      var k := Pick(m);
      SumNonNegative(m - {k}, f);
    }
  }

  lemma SumAtLeast<K(!new), V>(m: map<K, V>, k: K, f: (K, V) -> real)
    requires k in m
    requires forall j :: j in m ==> f(j, m[j]) >= 0.0
    ensures Sum(m, f) >= f(k, m[k])
  {
    SumRemove(m, k, f);
    SumNonNegative(m - {k}, f);
  }

  lemma {:induction false} SumSame<K(!new), V>(m: map<K, V>, f: (K, V) -> real, g: (K, V) -> real)
    requires forall k :: k in m ==> f(k, m[k]) == g(k, m[k])
    ensures Sum(m, f) == Sum(m, g)
    decreases |m|
  {
    if |m| != 0 {
      var k := Pick(m);
      SumSame(m - {k}, f, g);
      SumRemove(m, k, g);
    }
  }

  // Two maps over the same keys whose entries weigh the same.
  lemma {:induction false} SumAcross<K(!new), V>(m: map<K, V>, n: map<K, V>, f: (K, V) -> real)
    requires m.Keys == n.Keys
    requires forall k :: k in m ==> f(k, m[k]) == f(k, n[k])
    ensures Sum(m, f) == Sum(n, f)
    decreases |m|
  {
    if |m| != 0 {
      var k := Pick(m);
      assert (m - {k}).Keys == (n - {k}).Keys;
      SumAcross(m - {k}, n - {k}, f);
      SumRemove(n, k, f);
    } else {
      assert |n.Keys| == |m.Keys| == 0;
    }
  }

  // No entry weighs more, and one weighs less.
  lemma {:induction false} SumAtMost<K(!new), V>(m: map<K, V>, n: map<K, V>, f: (K, V) -> real)
    requires m.Keys == n.Keys && forall k :: k in m ==> f(k, n[k]) <= f(k, m[k])
    ensures Sum(n, f) <= Sum(m, f)
    decreases |m|
  {
    if |m| != 0 {
      var k := Pick(m);
      assert (m - {k}).Keys == (n - {k}).Keys;
      SumAtMost(m - {k}, n - {k}, f);
      SumRemove(n, k, f);
    } else {
      assert |n.Keys| == |m.Keys| == 0;
    }
  }

  lemma SumLess<K(!new), V>(m: map<K, V>, n: map<K, V>, k: K, f: (K, V) -> real)
    requires m.Keys == n.Keys && forall j :: j in m ==> f(j, n[j]) <= f(j, m[j])
    requires k in m && f(k, n[k]) < f(k, m[k])
    ensures Sum(n, f) < Sum(m, f)
  {
    assert (m - {k}).Keys == (n - {k}).Keys;
    SumAtMost(m - {k}, n - {k}, f);
    SumRemove(m, k, f);
    SumRemove(n, k, f);
  }

  // Two terms that agree everywhere but at one key.
  lemma SumPoint<K(!new), V>(m: map<K, V>, k: K, f: (K, V) -> real, g: (K, V) -> real)
    requires k in m
    requires forall j :: j in m && j != k ==> f(j, m[j]) == g(j, m[j])
    ensures Sum(m, g) == Sum(m, f) + g(k, m[k]) - f(k, m[k])
  {
    SumRemove(m, k, f);
    SumRemove(m, k, g);
    SumSame(m - {k}, f, g);
  }

  function Total<T>(s: seq<T>, f: T -> real): real {
    if s == [] then 0.0 else f(s[0]) + Total(s[1..], f)
  }

  lemma {:induction false} TotalAppend<T>(a: seq<T>, b: seq<T>, f: T -> real)
    ensures Total(a + b, f) == Total(a, f) + Total(b, f)
  {
    if a == [] {
      assert a + b == b;
    } else {
      assert (a + b)[1..] == a[1..] + b;
      TotalAppend(a[1..], b, f);
    }
  }

  lemma {:induction false} TotalNonNegative<T>(s: seq<T>, f: T -> real)
    requires forall x :: x in s ==> f(x) >= 0.0
    ensures Total(s, f) >= 0.0
  {
    if s != [] {
      TotalNonNegative(s[1..], f);
    }
  }

  lemma {:induction false} TotalSame<T>(s: seq<T>, f: T -> real, g: T -> real)
    requires forall x :: x in s ==> f(x) == g(x)
    ensures Total(s, f) == Total(s, g)
  {
    if s != [] {
      TotalSame(s[1..], f, g);
    }
  }
}
