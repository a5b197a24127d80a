/** Sums over finite maps, and counts over sequences, that do not depend on an order. */
module Sums {

  lemma Member<T>(s: set<T>) returns (x: T)
    requires s != {}
    ensures x in s
  {
    x :| x in s;
  }

  /** The entries of `m` for the keys in `s`. */
  ghost function Part<K, V>(m: map<K, V>, s: set<K>): map<K, V> {
    map k | k in m && k in s :: m[k]
  }

  lemma PartWhole<K, V>(m: map<K, V>)
    ensures Part(m, m.Keys) == m && Part(m, {}) == map[]
  {
  }

  lemma PartLess<K, V>(m: map<K, V>, s: set<K>, k: K)
    ensures Part(m, s - {k}) == Part(m, s) - {k}
  {
  }

  ghost function Sum<K>(m: map<K, real>): real {
    if m == map[] then 0.0
    else var k :| k in m; m[k] + Sum(m - {k})
  }

  lemma {:induction false} SumTakeOut<K>(m: map<K, real>, k: K)
    requires k in m
    ensures Sum(m) == m[k] + Sum(m - {k})
    decreases |m|
  {
    var j :| j in m && Sum(m) == m[j] + Sum(m - {j});
    if j != k {
      SumTakeOut(m - {j}, k);
      SumTakeOut(m - {k}, j);
      assert m - {j} - {k} == m - {k} - {j};
    }
  }

  lemma SumUpdate<K>(m: map<K, real>, k: K, v: real)
    ensures Sum(m[k := v]) == Sum(m) - (if k in m then m[k] else 0.0) + v
  {
    SumTakeOut(m[k := v], k);
    assert m[k := v] - {k} == m - {k};
    if k in m {
      SumTakeOut(m, k);
    } else {
      assert m - {k} == m;
    }
  }

  /** Entry by entry, `m` is `a` plus `b`. */
  lemma {:induction false} SumAdd<K>(m: map<K, real>, a: map<K, real>, b: map<K, real>)
    requires m.Keys == a.Keys == b.Keys && forall k :: k in m ==> m[k] == a[k] + b[k]
    ensures Sum(m) == Sum(a) + Sum(b)
    decreases |m|
  {
    if m != map[] {
      var k :| k in m;
      SumTakeOut(m, k);
      SumTakeOut(a, k);
      SumTakeOut(b, k);
      SumAdd(m - {k}, a - {k}, b - {k});
    } else {
      assert a == map[] && b == map[];
    }
  }

  /** c + ... + c, n times. */
  ghost function Times(n: nat, c: real): real {
    if n == 0 then 0.0 else Times(n - 1, c) + c
  }

  lemma {:induction false} TimesIsProduct(n: nat, c: real)
    ensures Times(n, c) == n as real * c
  {
    if n > 0 {
      TimesIsProduct(n - 1, c);
      var r := (n - 1) as real;
      assert n as real == r + 1.0;
      assert (r + 1.0) * c == r * c + c;
    }
  }

  lemma {:induction false} TimesAdd(j: nat, k: nat, c: real)
    ensures Times(j + k, c) == Times(j, c) + Times(k, c)
  {
    if k > 0 { TimesAdd(j, k - 1, c); }
  }

  /** The entries in `s` are `c`, the others zero. */
  lemma {:induction false} SumConstant<K>(m: map<K, real>, s: set<K>, c: real)
    requires s <= m.Keys
    requires forall k :: k in s ==> m[k] == c
    requires forall k :: k in m && k !in s ==> m[k] == 0.0
    ensures Sum(m) == Times(|s|, c)
    decreases |m|
  {
    if m == map[] {
      assert s == {};
    } else {
      var k :| k in m;
      SumTakeOut(m, k);
      if k in s {
        SumConstant(m - {k}, s - {k}, c);
        assert |s| == |s - {k}| + 1;
      } else {
        SumConstant(m - {k}, s, c);
      }
    }
  }

  ghost function Total<K>(m: map<K, int>): int {
    if m == map[] then 0
    else var k :| k in m; m[k] + Total(m - {k})
  }

  lemma {:induction false} TotalTakeOut<K>(m: map<K, int>, k: K)
    requires k in m
    ensures Total(m) == m[k] + Total(m - {k})
    decreases |m|
  {
    var j :| j in m && Total(m) == m[j] + Total(m - {j});
    if j != k {
      TotalTakeOut(m - {j}, k);
      TotalTakeOut(m - {k}, j);
      assert m - {j} - {k} == m - {k} - {j};
    }
  }

  lemma {:induction false} TotalNonNegative<K>(m: map<K, int>)
    requires forall k :: k in m ==> m[k] >= 0
    ensures Total(m) >= 0
    decreases |m|
  {
    if m != map[] {
      var k :| k in m && Total(m) == m[k] + Total(m - {k});
      TotalNonNegative(m - {k});
    }
  }

  lemma TotalUpdate<K>(m: map<K, int>, k: K, v: int)
    ensures Total(m[k := v]) == Total(m) - (if k in m then m[k] else 0) + v
  {
    TotalTakeOut(m[k := v], k);
    assert m[k := v] - {k} == m - {k};
    if k in m {
      TotalTakeOut(m, k);
    } else {
      assert m - {k} == m;
    }
  }

  function Count<T>(xs: seq<T>, p: T -> bool): (n: nat)
    ensures n <= |xs|
  {
    if xs == [] then 0
    else Count(xs[..|xs| - 1], p) + if p(xs[|xs| - 1]) then 1 else 0
  }

  lemma {:induction false} CountAppend<T>(xs: seq<T>, ys: seq<T>, p: T -> bool)
    ensures Count(xs + ys, p) == Count(xs, p) + Count(ys, p)
    decreases |ys|
  {
    if ys == [] {
      assert xs + ys == xs;
    } else {
      assert (xs + ys)[..|xs + ys| - 1] == xs + ys[..|ys| - 1];
      CountAppend(xs, ys[..|ys| - 1], p);
    }
  }

  predicate Distinct<T(==)>(xs: seq<T>) {
    forall i, j :: 0 <= i < j < |xs| ==> xs[i] != xs[j]
  }

  function Without<T>(xs: seq<T>, i: nat): seq<T>
    requires i < |xs|
  {
    xs[..i] + xs[i + 1..]
  }

  lemma WithoutMultiset<T>(xs: seq<T>, i: nat)
    requires i < |xs|
    ensures multiset(xs) == multiset(Without(xs, i)) + multiset{xs[i]}
  {
    assert xs == xs[..i] + [xs[i]] + xs[i + 1..];
  }

  lemma CountOne<T>(x: T, p: T -> bool)
    ensures Count([x], p) == if p(x) then 1 else 0
  {
    assert [x][..0] == [];
    assert Count([x][..0], p) == 0;
  }

  lemma CountMiddle<T>(a: seq<T>, x: T, c: seq<T>, p: T -> bool)
    ensures Count(a + ([x] + c), p) == Count(a + c, p) + if p(x) then 1 else 0
  {
    hide Count;
    CountAppend(a, [x] + c, p);
    CountAppend([x], c, p);
    CountAppend(a, c, p);
    CountOne(x, p);
  }

  lemma SplitAt<T>(xs: seq<T>, i: nat)
    requires i < |xs|
    ensures xs == xs[..i] + ([xs[i]] + xs[i + 1..])
  {
    var ys := xs[..i] + ([xs[i]] + xs[i + 1..]);
    assert |ys| == |xs|;
    forall k | 0 <= k < |xs| ensures xs[k] == ys[k] {
      if k > i {
        assert ys[k] == xs[i + 1..][k - i - 1];
      }
    }
  }

  lemma CountWithout<T>(xs: seq<T>, i: nat, p: T -> bool)
    requires i < |xs|
    ensures Count(xs, p) == Count(Without(xs, i), p) + if p(xs[i]) then 1 else 0
  {
    hide Count;
    SplitAt(xs, i);
    CountMiddle(xs[..i], xs[i], xs[i + 1..], p);
  }

  /** The same elements as xs, less its last one. */
  lemma MatchLast<T>(xs: seq<T>, ys: seq<T>) returns (j: nat)
    requires xs != [] && multiset(xs) == multiset(ys)
    ensures j < |ys| && ys[j] == xs[|xs| - 1]
    ensures multiset(xs[..|xs| - 1]) == multiset(Without(ys, j))
  {
    var last := |xs| - 1;
    WithoutMultiset(xs, last);
    assert Without(xs, last) == xs[..last];
    assert xs[last] in multiset(ys);
    j :| 0 <= j < |ys| && ys[j] == xs[last];
    WithoutMultiset(ys, j);
    assert multiset(xs[..last]) == multiset(xs) - multiset{xs[last]};
  }

  /** A count looks only at which elements there are and how often. */
  lemma {:induction false} CountPermutation<T>(xs: seq<T>, ys: seq<T>, p: T -> bool)
    requires multiset(xs) == multiset(ys)
    ensures Count(xs, p) == Count(ys, p)
    decreases |xs|
  {
    if xs == [] {
      assert |multiset(ys)| == 0;
    } else {
      var j := MatchLast(xs, ys);
      CountPermutation(xs[..|xs| - 1], Without(ys, j), p);
      CountWithout(ys, j, p);
    }
  }
}
