/** Sequence vocabulary shared by the models: options, mapping, flattening, first-appearance
    order and what survives a permutation. Recursion peels the last element, the order in which
    the modelled loops build their results. */
module Seqs {

  datatype Option<+T> = None | Some(value: T)

  function Map<T, U>(f: T -> U, s: seq<T>): (r: seq<U>)
    ensures |r| == |s|
    ensures forall i :: 0 <= i < |s| ==> r[i] == f(s[i])
  {
    seq(|s|, i requires 0 <= i < |s| => f(s[i]))
  }

  function FlatMap<T, U>(f: T -> seq<U>, s: seq<T>): (r: seq<U>)
  {
    if s == [] then [] else FlatMap(f, s[..|s| - 1]) + f(s[|s| - 1])
  }

  /** One more element at the end of the input. */
  lemma FlatMapSnoc<T, U>(f: T -> seq<U>, s: seq<T>, x: T)
    ensures FlatMap(f, s + [x]) == FlatMap(f, s) + f(x)
  {
    assert (s + [x])[..|s|] == s;
  }

  lemma {:induction false} FlatMapConcat<T, U>(f: T -> seq<U>, a: seq<T>, b: seq<T>)
    ensures FlatMap(f, a + b) == FlatMap(f, a) + FlatMap(f, b)
    decreases |b|
  {
    if b == [] {
      assert a + b == a;
    } else {
      var m := |b| - 1;
      assert (a + b)[..|a + b| - 1] == a + b[..m];
      FlatMapConcat(f, a, b[..m]);
    }
  }

  /** Membership in a flattened sequence. */
  lemma {:induction false} FlatMapIn<T, U>(f: T -> seq<U>, s: seq<T>, y: U)
    ensures y in FlatMap(f, s) <==> exists x :: x in s && y in f(x)
    decreases |s|
  {
    if s != [] {
      var m := |s| - 1;
      FlatMapIn(f, s[..m], y);
      assert s == s[..m] + [s[m]];
    }
  }

  lemma FlatMapHas<T, U>(f: T -> seq<U>, s: seq<T>, x: T, y: U)
    requires x in s && y in f(x)
    ensures y in FlatMap(f, s)
  {
    FlatMapIn(f, s, y);
  }

  /** An element of a permutation can be moved to the end. */
  lemma SplitAt<T>(s: seq<T>, x: T) returns (u: seq<T>, v: seq<T>)
    requires x in s
    ensures s == u + [x] + v
    ensures multiset(s) == multiset(u + v) + multiset{x}
  {
    var i :| 0 <= i < |s| && s[i] == x;
    u, v := s[..i], s[i + 1..];
    assert s == u + [x] + v;
    assert multiset(s) == multiset(u) + multiset{x} + multiset(v);
    assert multiset(u + v) == multiset(u) + multiset(v);
  }

  lemma PermHas<T>(a: seq<T>, b: seq<T>, x: T)
    requires multiset(a) == multiset(b)
    ensures x in a <==> x in b
  {
    assert x in a <==> x in multiset(a);
    assert x in b <==> x in multiset(b);
  }

  lemma PermLength<T>(a: seq<T>, b: seq<T>)
    requires multiset(a) == multiset(b)
    ensures |a| == |b|
  {
    assert |multiset(a)| == |a| && |multiset(b)| == |b|;
  }

  /** The last element of a permutation is found in the other, and the rest is a permutation again. */
  lemma PermSplit<T>(a: seq<T>, b: seq<T>) returns (u: seq<T>, v: seq<T>)
    requires multiset(a) == multiset(b) && a != []
    ensures b == u + [a[|a| - 1]] + v && multiset(a[..|a| - 1]) == multiset(u + v)
  {
    var m := |a| - 1;
    var x := a[m];
    assert a == a[..m] + [x];
    PermHas(a, b, x);
    u, v := SplitAt(b, x);
    assert multiset(a) == multiset(a[..m]) + multiset{x};
    assert multiset(a[..m]) == multiset(a) - multiset{x} == multiset(u + v);
  }

  /** Flattening a permutation gives a permutation. */
  lemma {:induction false} FlatMapPerm<T, U>(f: T -> seq<U>, a: seq<T>, b: seq<T>)
    requires multiset(a) == multiset(b)
    ensures multiset(FlatMap(f, a)) == multiset(FlatMap(f, b))
    decreases |a|
  {
    PermLength(a, b);
    if a != [] {
      var m := |a| - 1;
      var x := a[m];
      assert a == a[..m] + [x];
      var u, v := PermSplit(a, b);
      FlatMapPerm(f, a[..m], u + v);
      FlatMapConcat(f, u + [x], v);
      FlatMapSnoc(f, u, x);
      FlatMapConcat(f, u, v);
    }
  }

  function Sum(s: seq<real>): (r: real)
  {
    if s == [] then 0.0 else Sum(s[..|s| - 1]) + s[|s| - 1]
  }

  lemma {:induction false} SumConcat(a: seq<real>, b: seq<real>)
    ensures Sum(a + b) == Sum(a) + Sum(b)
    decreases |b|
  {
    if b == [] {
      assert a + b == a;
    } else {
      var m := |b| - 1;
      assert (a + b)[..|a + b| - 1] == a + b[..m];
      SumConcat(a, b[..m]);
    }
  }

  lemma SumInsert(u: seq<real>, x: real, v: seq<real>)
    ensures Sum(u + [x] + v) == Sum(u + v) + x
  {
    hide Sum;
    SumConcat(u + [x], v);
    SumConcat(u, [x]);
    SumConcat(u, v);
    SumOne(x);
  }

  lemma SumOne(x: real)
    ensures Sum([x]) == x
  {
  }

  lemma {:induction false} SumPerm(a: seq<real>, b: seq<real>)
    requires multiset(a) == multiset(b)
    ensures Sum(a) == Sum(b)
    decreases |a|
  {
    PermLength(a, b);
    if a != [] {
      var m := |a| - 1;
      var u, v := PermSplit(a, b);
      SumPerm(a[..m], u + v);
      SumInsert(u, a[m], v);
    }
  }

  /** The distinct elements of `s`, each at the place of its first appearance. */
  function FirstSeen<K(==)>(s: seq<K>): (r: seq<K>)
  {
    if s == [] then []
    else
      var prefix := FirstSeen(s[..|s| - 1]);
      if s[|s| - 1] in prefix then prefix else prefix + [s[|s| - 1]]
  }

  lemma {:induction false} FirstSeenHas<K>(s: seq<K>, k: K)
    ensures k in FirstSeen(s) <==> k in s
    decreases |s|
  {
    if s != [] {
      var m := |s| - 1;
      FirstSeenHas(s[..m], k);
      assert s == s[..m] + [s[m]];
    }
  }

  lemma {:induction false} FirstSeenDistinct<K>(s: seq<K>)
    ensures Distinct(FirstSeen(s))
    decreases |s|
  {
    if s != [] { FirstSeenDistinct(s[..|s| - 1]); }
  }

  lemma FirstSeenSnoc<K>(s: seq<K>, k: K)
    ensures FirstSeen(s + [k]) == if k in s then FirstSeen(s) else FirstSeen(s) + [k]
  {
    assert (s + [k])[..|s|] == s;
    FirstSeenHas(s, k);
  }

  ghost predicate Distinct<K>(s: seq<K>) {
    forall i, j :: 0 <= i < j < |s| ==> s[i] != s[j]
  }

  /** Where `k` first appears. */
  ghost function FirstIndex<K>(s: seq<K>, k: K): (i: nat)
    requires k in s
    ensures i < |s| && s[i] == k
    ensures forall j :: 0 <= j < i ==> s[j] != k
  {
    if s[0] == k then 0 else 1 + FirstIndex(s[1..], k)
  }

  lemma FirstIndexUnique<K>(s: seq<K>, k: K, i: nat)
    requires i < |s| && s[i] == k
    requires forall j :: 0 <= j < i ==> s[j] != k
    ensures k in s && FirstIndex(s, k) == i
  {
    assert k in s;
    var f := FirstIndex(s, k);
    assert s[f] == k && s[i] == k;
  }

  /** The distinct elements come in the order in which they first appear. */
  lemma {:induction false} FirstSeenOrdered<K>(s: seq<K>, i: nat, j: nat)
    requires i < j < |FirstSeen(s)|
    ensures FirstSeen(s)[i] in s && FirstSeen(s)[j] in s
    ensures FirstIndex(s, FirstSeen(s)[i]) < FirstIndex(s, FirstSeen(s)[j])
    decreases |s|
  {
    var m := |s| - 1;
    var prefix := FirstSeen(s[..m]);
    assert s == s[..m] + [s[m]];
    var a, b := FirstSeen(s)[i], FirstSeen(s)[j];
    FirstSeenHas(s[..m], a);
    FirstSeenHas(s[..m], b);
    FirstIndexPrefix(s, m, a);
    if j < |prefix| {
      FirstSeenOrdered(s[..m], i, j);
      FirstIndexPrefix(s, m, b);
    } else {
      FirstIndexUnique(s, b, m);
    }
  }

  lemma FirstIndexPrefix<K>(s: seq<K>, m: nat, k: K)
    requires m <= |s| && k in s[..m]
    ensures k in s && FirstIndex(s, k) == FirstIndex(s[..m], k)
  {
    var i := FirstIndex(s[..m], k);
    assert s[i] == s[..m][i];
    forall j | 0 <= j < i ensures s[j] != k { assert s[j] == s[..m][j]; }
    FirstIndexUnique(s, k, i);
  }
}
