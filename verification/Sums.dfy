/** Sums over the values of a map, and sizes of sets. */
module Sums {

  ghost function Sum<K>(m: map<K, nat>): nat
    decreases m.Keys
  {
    if m == map[] then 0 else var x :| x in m; assert (m - {x}).Keys < m.Keys; m[x] + Sum(m - {x})
  }

  lemma {:induction false} SumRemove<K>(m: map<K, nat>, x: K)
    requires x in m
    ensures Sum(m) == m[x] + Sum(m - {x})
    decreases m.Keys
  {
    var y :| y in m && Sum(m) == m[y] + Sum(m - {y});
    if y != x {
      assert (m - {y}).Keys < m.Keys && (m - {x}).Keys < m.Keys;
      SumRemove(m - {y}, x);
      SumRemove(m - {x}, y);
      assert m - {y} - {x} == m - {x} - {y};
    }
  }

  lemma SumAdd<K>(m: map<K, nat>, x: K, v: nat)
    requires x !in m
    ensures Sum(m[x := v]) == Sum(m) + v
  {
    SumRemove(m[x := v], x);
    assert m[x := v] - {x} == m;
  }

  lemma SumUpdate<K>(m: map<K, nat>, x: K, v: nat)
    requires x in m
    ensures Sum(m[x := v]) == Sum(m) - m[x] + v
    ensures Sum(m) >= m[x]
  {
    SumRemove(m, x);
    SumRemove(m[x := v], x);
    assert m[x := v] - {x} == m - {x};
  }

  lemma {:induction false} SumSplit<K>(m: map<K, nat>, a: map<K, nat>, b: map<K, nat>)
    requires a.Keys !! b.Keys && m.Keys == a.Keys + b.Keys
    requires forall x | x in a :: m[x] == a[x]
    requires forall x | x in b :: m[x] == b[x]
    ensures Sum(m) == Sum(a) + Sum(b)
    decreases a.Keys
  {
    if a == map[] {
      assert m == b;
    } else {
      var x :| x in a;
      SumRemove(m, x);
      SumRemove(a, x);
      assert (a - {x}).Keys < a.Keys;
      assert (m - {x}).Keys == (a - {x}).Keys + b.Keys;
      SumSplit(m - {x}, a - {x}, b);
    }
  }

  /** At this key the map is one of its two parts, and one only. */
  ghost predicate Part<K>(m: map<K, nat>, a: map<K, nat>, b: map<K, nat>, x: K) {
    && (x in m <==> x in a || x in b) && !(x in a && x in b)
    && (x in a && x in m ==> m[x] == a[x]) && (x in b && x in m ==> m[x] == b[x])
  }

  lemma SumParts<K(!new)>(m: map<K, nat>, a: map<K, nat>, b: map<K, nat>)
    requires forall x :: Part(m, a, b, x)
    ensures Sum(m) == Sum(a) + Sum(b)
  {
    forall x
      ensures (x in m <==> x in a || x in b) && !(x in a && x in b)
      ensures (x in a && x in m ==> m[x] == a[x]) && (x in b && x in m ==> m[x] == b[x])
    {
      assert Part(m, a, b, x);
    }
    SumSplit(m, a, b);
  }

  lemma SubsetCard<T>(a: set<T>, b: set<T>)
    requires a <= b
    ensures |a| <= |b|
  {
    assert b == a + (b - a);
  }
}
