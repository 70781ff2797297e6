/** Sequences: filtering, first-occurrence deduplication, sums, permutations, unstable sorting. */
module Sequences {

  // ---------------------------------------------------------------- filtering

  function Filter<T>(p: T -> bool, s: seq<T>): (r: seq<T>)
    ensures |r| <= |s|
  {
    if s == [] then []
    else
      var n := |s| - 1;
      if p(s[n]) then Filter(p, s[..n]) + [s[n]] else Filter(p, s[..n])
  }

  lemma {:induction false} FilterIn<T>(p: T -> bool, s: seq<T>, x: T)
    ensures x in Filter(p, s) <==> x in s && p(x)
  {
    if s != [] {
      FilterIn(p, s[..|s| - 1], x);
      assert s == s[..|s| - 1] + [s[|s| - 1]];
    }
  }

  lemma {:induction false} FilterAppend<T>(p: T -> bool, a: seq<T>, b: seq<T>)
    ensures Filter(p, a + b) == Filter(p, a) + Filter(p, b)
  {
    if b == [] {
      assert a + b == a;
    } else {
      var n := |b| - 1;
      assert (a + b)[..|a + b| - 1] == a + b[..n];
      FilterAppend(p, a, b[..n]);
    }
  }

  /** Filtering first by something weaker changes nothing. */
  lemma {:induction false} FilterFilter<T>(p: T -> bool, q: T -> bool, s: seq<T>)
    requires forall x | x in s && p(x) :: q(x)
    ensures Filter(p, Filter(q, s)) == Filter(p, s)
  {
    if s != [] {
      var n := |s| - 1;
      FilterFilter(p, q, s[..n]);
      var f := Filter(q, s[..n]);
      assert (f + [s[n]])[..|f|] == f;
      assert s[n] in s;
    }
  }

  lemma {:induction false} FilterAll<T>(p: T -> bool, s: seq<T>)
    requires forall x | x in s :: p(x)
    ensures Filter(p, s) == s
  {
    if s != [] {
      FilterAll(p, s[..|s| - 1]);
      assert s == s[..|s| - 1] + [s[|s| - 1]];
    }
  }

  lemma {:induction false} FilterNone<T>(p: T -> bool, s: seq<T>)
    requires forall x | x in s :: !p(x)
    ensures Filter(p, s) == []
  {
    if s != [] { FilterNone(p, s[..|s| - 1]); }
  }

  /** Two filters that agree on the elements give the same result. */
  lemma {:induction false} FilterCongruent<T>(p: T -> bool, q: T -> bool, s: seq<T>)
    requires forall x | x in s :: p(x) == q(x)
    ensures Filter(p, s) == Filter(q, s)
  {
    if s != [] { FilterCongruent(p, q, s[..|s| - 1]); }
  }

  function Map<T, U>(f: T -> U, s: seq<T>): (r: seq<U>)
    ensures |r| == |s| && forall i | 0 <= i < |s| :: r[i] == f(s[i])
  {
    if s == [] then [] else Map(f, s[..|s| - 1]) + [f(s[|s| - 1])]
  }

  function Flatten<T>(ss: seq<seq<T>>): seq<T> {
    if ss == [] then [] else Flatten(ss[..|ss| - 1]) + ss[|ss| - 1]
  }

  lemma FlattenSnoc<T>(ss: seq<seq<T>>, x: seq<T>)
    ensures Flatten(ss + [x]) == Flatten(ss) + x
  {
  }

  lemma {:induction false} FlattenIn<T>(ss: seq<seq<T>>, x: T)
    ensures x in Flatten(ss) <==> exists i :: 0 <= i < |ss| && x in ss[i]
  {
    if ss != [] {
      FlattenIn(ss[..|ss| - 1], x);
      assert forall i | 0 <= i < |ss| - 1 :: ss[..|ss| - 1][i] == ss[i];
    }
  }

  lemma {:induction false} FlattenAppend<T>(a: seq<seq<T>>, b: seq<seq<T>>)
    ensures Flatten(a + b) == Flatten(a) + Flatten(b)
  {
    if b == [] {
      assert a + b == a;
    } else {
      var c, front, last := a + b, b[..|b| - 1], b[|b| - 1];
      assert c[..|c| - 1] == a + front && c[|c| - 1] == last;
      FlattenAppend(a, front);
      calc {
        Flatten(c);
        Flatten(a + front) + last;
        Flatten(a) + Flatten(front) + last;
        Flatten(a) + (Flatten(front) + last);
        Flatten(a) + Flatten(b);
      }
    }
  }

  lemma {:induction false} MapCongruent<T, U>(f: T -> U, g: T -> U, s: seq<T>)
    requires forall x | x in s :: f(x) == g(x)
    ensures Map(f, s) == Map(g, s)
  {
  }

  lemma MapIdentity<T>(f: T -> T, s: seq<T>)
    requires forall x | x in s :: f(x) == x
    ensures Map(f, s) == s
  {
  }

  /** The filtered, mapped prefix of a sequence, one element further. */
  lemma MapFilterNext<T, U>(f: T -> U, p: T -> bool, s: seq<T>, i: nat)
    requires i < |s|
    ensures Map(f, Filter(p, s[..i + 1])) == Map(f, Filter(p, s[..i])) + (if p(s[i]) then [f(s[i])] else [])
  {
    var upTo, own := s[..i + 1], Filter(p, s[..i]);
    assert upTo[..i] == s[..i];
    if p(s[i]) { assert (own + [s[i]])[..|own|] == own; }
  }

  lemma MapNext<T, U>(f: T -> U, s: seq<T>, i: nat)
    requires i < |s|
    ensures Map(f, s[..i + 1]) == Map(f, s[..i]) + [f(s[i])]
  {
  }

  lemma FlattenMapSnoc<T, U>(f: T -> seq<U>, s: seq<T>, x: T)
    ensures Flatten(Map(f, s + [x])) == Flatten(Map(f, s)) + f(x)
  {
  }

  lemma {:induction false} FlattenMapIn<T, U>(f: T -> seq<U>, xs: seq<T>, y: U)
    ensures y in Flatten(Map(f, xs)) <==> exists x :: x in xs && y in f(x)
  {
    if xs != [] {
      var n := |xs| - 1;
      FlattenMapIn(f, xs[..n], y);
      assert xs == xs[..n] + [xs[n]];
      FlattenMapSnoc(f, xs[..n], xs[n]);
    }
  }

  /** Elements that contribute nothing can be filtered out before flattening. */
  lemma {:induction false} FlattenSkip<T, U>(f: T -> seq<U>, p: T -> bool, s: seq<T>)
    requires forall x | x in s && !p(x) :: f(x) == []
    ensures Flatten(Map(f, s)) == Flatten(Map(f, Filter(p, s)))
  {
    if s != [] {
      var n := |s| - 1;
      FlattenSkip(f, p, s[..n]);
      var front := Filter(p, s[..n]);
      assert (front + [s[n]])[..|front|] == front;
      assert Map(f, s)[..n] == Map(f, s[..n]);
      assert s[n] in s;
      if p(s[n]) { assert Map(f, front + [s[n]])[..|front|] == Map(f, front); }
    }
  }

  // ------------------------------------------------- first-occurrence deduplication

  predicate HasKey<T(==), K(==)>(key: T -> K, s: seq<T>, k: K) {
    exists y | y in s :: key(y) == k
  }

  /** Append `x` unless an element with the same key is already there. */
  function AddBy<T(==), K(==)>(key: T -> K, s: seq<T>, x: T): seq<T> {
    if HasKey(key, s, key(x)) then s else s + [x]
  }

  function AddAllBy<T(==), K(==)>(key: T -> K, s: seq<T>, xs: seq<T>): (r: seq<T>)
    ensures s <= r
  {
    if xs == [] then s else AddBy(key, AddAllBy(key, s, xs[..|xs| - 1]), xs[|xs| - 1])
  }

  function DedupBy<T(==), K(==)>(key: T -> K, xs: seq<T>): seq<T> { AddAllBy(key, [], xs) }

  ghost predicate DistinctBy<T, K>(key: T -> K, s: seq<T>) {
    forall i, j | 0 <= i < j < |s| :: key(s[i]) != key(s[j])
  }

  /** Element `x` of `s` is the first one that carries its key. */
  ghost predicate FirstOfKey<T, K>(key: T -> K, s: seq<T>, i: nat) {
    i < |s| && forall j | 0 <= j < i :: key(s[j]) != key(s[i])
  }

  function Id<T>(x: T): T { x }

  lemma {:induction false} AddAllByAppend<T, K>(key: T -> K, s: seq<T>, a: seq<T>, b: seq<T>)
    ensures AddAllBy(key, s, a + b) == AddAllBy(key, AddAllBy(key, s, a), b)
  {
    if b == [] {
      assert a + b == a;
    } else {
      assert (a + b)[..|a + b| - 1] == a + b[..|b| - 1];
      AddAllByAppend(key, s, a, b[..|b| - 1]);
    }
  }

  /** Deduplication keeps keys distinct and loses none. */
  lemma {:induction false} AddAllByKeys<T, K>(key: T -> K, s: seq<T>, xs: seq<T>)
    requires DistinctBy(key, s)
    ensures DistinctBy(key, AddAllBy(key, s, xs))
    ensures forall k :: HasKey(key, AddAllBy(key, s, xs), k) <==> HasKey(key, s, k) || HasKey(key, xs, k)
    ensures forall x | x in AddAllBy(key, s, xs) :: x in s || x in xs
  {
    if xs != [] {
      var n := |xs| - 1;
      AddAllByKeys(key, s, xs[..n]);
      var d, x := AddAllBy(key, s, xs[..n]), xs[n];
      assert xs == xs[..n] + [x];
      assert forall k :: HasKey(key, xs, k) <==> HasKey(key, xs[..n], k) || k == key(x);
      var r := AddBy(key, d, x);
      forall k ensures HasKey(key, r, k) <==> HasKey(key, d, k) || k == key(x) {
        if HasKey(key, d, k) && r != d {
          var y :| y in d && key(y) == k;
          assert y in r;
        }
        if k == key(x) && r != d { assert x in r; }
      }
    }
  }

  /** Deduplicating a flattened prefix, one element further. */
  lemma GrowFlat<X, T, K>(key: T -> K, base: seq<T>, f: X -> seq<T>, xs: seq<X>, i: nat)
    requires i < |xs|
    ensures AddAllBy(key, base, Flatten(Map(f, xs[..i + 1]))) ==
            AddAllBy(key, AddAllBy(key, base, Flatten(Map(f, xs[..i]))), f(xs[i]))
  {
    var upTo := xs[..i + 1];
    assert upTo[..i] == xs[..i];
    assert Map(f, upTo)[..i] == Map(f, xs[..i]);
    AddAllByAppend(key, base, Flatten(Map(f, xs[..i])), f(xs[i]));
  }

  /** Deduplicating a mapped prefix, one element further. */
  lemma GrowMapped<X, T, K>(key: T -> K, base: seq<T>, f: X -> T, xs: seq<X>, i: nat)
    requires i < |xs|
    ensures AddAllBy(key, base, Map(f, xs[..i + 1])) == AddBy(key, AddAllBy(key, base, Map(f, xs[..i])), f(xs[i]))
  {
    MapNext(f, xs, i);
    assert Map(f, xs[..i + 1])[..i] == Map(f, xs[..i]);
  }

  /** What deduplication keeps is exactly the first element of each key, in order. */
  lemma {:induction false} DedupFirst<T, K>(key: T -> K, xs: seq<T>, x: T)
    ensures x in DedupBy(key, xs) <==> exists i: nat :: FirstOfKey(key, xs, i) && xs[i] == x
  {
    if xs == [] {
    } else {
      var n := |xs| - 1;
      var pre := xs[..n];
      DedupFirst(key, pre, x);
      AddAllByKeys(key, [], pre);
      assert HasKey(key, DedupBy(key, pre), key(xs[n])) <==> HasKey(key, pre, key(xs[n]));
      assert HasKey(key, pre, key(xs[n])) <==> !FirstOfKey(key, xs, n) by {
        if !FirstOfKey(key, xs, n) {
          var j :| 0 <= j < n && key(xs[j]) == key(xs[n]);
          assert pre[j] in pre;
        }
      }
      if x in DedupBy(key, xs) {
        if x in DedupBy(key, pre) {
          var i: nat :| FirstOfKey(key, pre, i) && pre[i] == x;
          assert FirstOfKey(key, xs, i);
        }
      }
      if i: nat :| FirstOfKey(key, xs, i) && xs[i] == x {
        if i < n { assert FirstOfKey(key, pre, i) && pre[i] == x; }
      }
    }
  }

  lemma DedupOrigin<T, K>(key: T -> K, xs: seq<T>, x: T)
    requires x in DedupBy(key, xs)
    ensures x in xs
  {
    AddAllByOrigin(key, [], xs);
  }

  /** Dropping repeated elements loses no element. */
  lemma {:induction false} DedupMembers<T>(xs: seq<T>, x: T)
    ensures x in DedupBy(Id, xs) <==> x in xs
  {
    if xs != [] {
      var n := |xs| - 1;
      DedupMembers(xs[..n], x);
      DedupMembers(xs[..n], xs[n]);
      assert xs == xs[..n] + [xs[n]];
    }
  }

  method AppendBy<T(==), K(==)>(key: T -> K, s: seq<T>, x: T) returns (r: seq<T>)
    ensures r == AddBy(key, s, x)
  {
    for k := 0 to |s|
      invariant forall l | 0 <= l < k :: key(s[l]) != key(x)
    {
      if key(s[k]) == key(x) {
        assert s[k] in s;
        return s;
      }
    }
    return s + [x];
  }

  method AppendUnique<T(==)>(s: seq<T>, x: T) returns (r: seq<T>)
    ensures r == AddBy(Id, s, x)
  {
    r := AppendBy(Id, s, x);
  }

  /** A filter that depends on the key alone commutes with deduplication. */
  lemma {:induction false} FilterDedup<T, K>(p: T -> bool, key: T -> K, s: seq<T>, xs: seq<T>)
    requires forall x, y | x in s + xs && y in s + xs && key(x) == key(y) :: p(x) == p(y)
    ensures Filter(p, AddAllBy(key, s, xs)) == AddAllBy(key, Filter(p, s), Filter(p, xs))
  {
    if xs != [] {
      var n := |xs| - 1;
      var x := xs[n];
      assert xs == xs[..n] + [x];
      assert forall y | y in s + xs[..n] :: y in s + xs;
      FilterDedup(p, key, s, xs[..n]);
      AddAllByOrigin(key, s, xs[..n]);
      FilterAddBy(p, key, AddAllBy(key, s, xs[..n]), xs[n]);
    }
  }

  lemma FilterAddBy<T, K>(p: T -> bool, key: T -> K, d: seq<T>, x: T)
    requires forall y | y in d && key(x) == key(y) :: p(x) == p(y)
    ensures Filter(p, AddBy(key, d, x)) == if p(x) then AddBy(key, Filter(p, d), x) else Filter(p, d)
  {
    forall y ensures y in Filter(p, d) <==> y in d && p(y) { FilterIn(p, d, y); }
    assert (d + [x])[..|d|] == d;
    if HasKey(key, d, key(x)) {
      var y :| y in d && key(y) == key(x);
      assert p(x) ==> y in Filter(p, d);
    } else {
      assert !HasKey(key, Filter(p, d), key(x));
      assert AddBy(key, d, x) == d + [x];
    }
  }

  lemma {:induction false} AddAllByOrigin<T, K>(key: T -> K, s: seq<T>, xs: seq<T>)
    ensures forall x | x in AddAllBy(key, s, xs) :: x in s || x in xs
  {
    if xs != [] {
      AddAllByOrigin(key, s, xs[..|xs| - 1]);
      assert xs == xs[..|xs| - 1] + [xs[|xs| - 1]];
    }
  }

  // ---------------------------------------------------------------------- sums

  function Sum<T>(f: T -> real, s: seq<T>): real {
    if s == [] then 0.0 else Sum(f, s[..|s| - 1]) + f(s[|s| - 1])
  }

  lemma {:induction false} SumAppend<T>(f: T -> real, a: seq<T>, b: seq<T>)
    ensures Sum(f, a + b) == Sum(f, a) + Sum(f, b)
  {
    if b == [] {
      assert a + b == a;
    } else {
      assert (a + b)[..|a + b| - 1] == a + b[..|b| - 1];
      SumAppend(f, a, b[..|b| - 1]);
    }
  }

  lemma {:induction false} SumAdd<T>(f: T -> real, g: T -> real, h: T -> real, s: seq<T>)
    requires forall x | x in s :: f(x) == g(x) + h(x)
    ensures Sum(f, s) == Sum(g, s) + Sum(h, s)
  {
    if s != [] { SumAdd(f, g, h, s[..|s| - 1]); }
  }

  /** Dropping elements that weigh nothing leaves the sum alone. */
  lemma {:induction false} SumFilter<T>(f: T -> real, p: T -> bool, s: seq<T>)
    requires forall x | x in s && !p(x) :: f(x) == 0.0
    ensures Sum(f, Filter(p, s)) == Sum(f, s)
  {
    if s != [] {
      var n := |s| - 1;
      SumFilter(f, p, s[..n]);
      assert (Filter(p, s[..n]) + [s[n]])[..|Filter(p, s[..n])|] == Filter(p, s[..n]);
    }
  }

  // --------------------------------------------------------------------- folds

  function Fold<S, X>(step: (S, X) -> S, init: S, xs: seq<X>): S {
    if xs == [] then init else step(Fold(step, init, xs[..|xs| - 1]), xs[|xs| - 1])
  }

  lemma {:induction false} FoldInvariant<S(!new), X>(step: (S, X) -> S, inv: S -> bool, init: S, xs: seq<X>)
    requires inv(init)
    requires forall s, x | x in xs && inv(s) :: inv(step(s, x))
    ensures inv(Fold(step, init, xs))
  {
    if xs != [] {
      FoldInvariant(step, inv, init, xs[..|xs| - 1]);
      assert xs[|xs| - 1] in xs;
    }
  }

  lemma {:induction false} FoldAppend<S, X>(step: (S, X) -> S, init: S, xs: seq<X>, ys: seq<X>)
    ensures Fold(step, init, xs + ys) == Fold(step, Fold(step, init, xs), ys)
  {
    if ys == [] {
      assert xs + ys == xs;
    } else {
      assert (xs + ys)[..|xs + ys| - 1] == xs + ys[..|ys| - 1];
      FoldAppend(step, init, xs, ys[..|ys| - 1]);
    }
  }

  lemma FoldSnoc<S, X>(step: (S, X) -> S, init: S, xs: seq<X>, x: X)
    ensures Fold(step, init, xs + [x]) == step(Fold(step, init, xs), x)
  {
  }

  /** A run seen from its i-th step. */
  lemma FoldAt<S, X>(step: (S, X) -> S, init: S, xs: seq<X>, i: nat)
    requires i < |xs|
    ensures Fold(step, init, xs) == Fold(step, step(Fold(step, init, xs[..i]), xs[i]), xs[i + 1..])
  {
    var upTo := xs[..i + 1];
    assert upTo[..i] == xs[..i];
    FoldAppend(step, init, upTo, xs[i + 1..]);
    assert xs == upTo + xs[i + 1..];
  }

  /** Two runs that agree on the inputs that matter stay related, whatever the other inputs are. */
  lemma {:induction false} FoldTwin<S(!new), X(!new)>(
    f: (S, X) -> S, g: (S, X) -> S, rel: (S, S) -> bool, mine: X -> bool, a: S, xs: seq<X>, b: S, ys: seq<X>)
    requires rel(a, b) && Filter(mine, xs) == Filter(mine, ys)
    requires forall s, t, x | rel(s, t) && mine(x) :: rel(f(s, x), g(t, x))
    requires forall s, t, x | rel(s, t) && !mine(x) :: rel(f(s, x), t) && rel(s, g(t, x))
    ensures rel(Fold(f, a, xs), Fold(g, b, ys))
    decreases |xs| + |ys|
  {
    if xs != [] && !mine(xs[|xs| - 1]) {
      FoldTwin(f, g, rel, mine, a, xs[..|xs| - 1], b, ys);
    } else if ys != [] && !mine(ys[|ys| - 1]) {
      FoldTwin(f, g, rel, mine, a, xs, b, ys[..|ys| - 1]);
    } else if xs != [] {
      var u, v := Filter(mine, xs), Filter(mine, ys);
      assert u[|u| - 1] == xs[|xs| - 1] && v[|v| - 1] == ys[|ys| - 1];
      assert u[..|u| - 1] == Filter(mine, xs[..|xs| - 1]) && v[..|v| - 1] == Filter(mine, ys[..|ys| - 1]);
      FoldTwin(f, g, rel, mine, a, xs[..|xs| - 1], b, ys[..|ys| - 1]);
    }
  }

  // -------------------------------------------------------------- permutations

  function Without<T>(s: seq<T>, i: nat): (r: seq<T>)
    requires i < |s|
    ensures |r| == |s| - 1
  {
    s[..i] + s[i + 1..]
  }

  lemma WithoutMultiset<T>(s: seq<T>, i: nat)
    requires i < |s|
    ensures multiset(s) == multiset(Without(s, i)) + multiset{s[i]}
  {
    assert s == s[..i] + [s[i]] + s[i + 1..];
  }

  /** A permutation of a non-empty sequence puts its last element somewhere. */
  lemma LastInPermutation<T>(a: seq<T>, b: seq<T>) returns (i: nat)
    requires multiset(a) == multiset(b) && a != []
    ensures i < |b| && b[i] == a[|a| - 1]
    ensures multiset(a[..|a| - 1]) == multiset(Without(b, i))
  {
    var n := |a| - 1;
    assert a == a[..n] + [a[n]];
    assert a[n] in multiset(a);
    assert a[n] in multiset(b);
    i :| 0 <= i < |b| && b[i] == a[n];
    WithoutMultiset(b, i);
    assert multiset(a) == multiset(a[..n]) + multiset{a[n]};
    assert multiset(a[..n]) == multiset(a) - multiset{a[n]};
    assert multiset(Without(b, i)) == multiset(b) - multiset{b[i]};
  }

  lemma {:induction false} SumPermutation<T>(f: T -> real, a: seq<T>, b: seq<T>)
    requires multiset(a) == multiset(b)
    ensures Sum(f, a) == Sum(f, b)
  {
    if a == [] {
      assert |multiset(b)| == 0;
      assert b == [];
    } else {
      var i := LastInPermutation(a, b);
      SumPermutation(f, a[..|a| - 1], Without(b, i));
      SumAppend(f, b[..i], b[i + 1..]);
      SumAppend(f, b[..i] + [b[i]], b[i + 1..]);
      assert b == b[..i] + [b[i]] + b[i + 1..];
      assert (b[..i] + [b[i]])[..i] == b[..i];
    }
  }

  lemma {:induction false} MapPermutation<T, U>(f: T -> U, a: seq<T>, b: seq<T>)
    requires multiset(a) == multiset(b)
    ensures multiset(Map(f, a)) == multiset(Map(f, b))
  {
    if a == [] {
      assert |multiset(b)| == 0;
      assert b == [];
    } else {
      var i := LastInPermutation(a, b);
      MapPermutation(f, a[..|a| - 1], Without(b, i));
      assert Map(f, Without(b, i)) == Without(Map(f, b), i);
      WithoutMultiset(Map(f, b), i);
    }
  }

  lemma {:induction false} FilterCount<T>(p: T -> bool, s: seq<T>, x: T)
    ensures multiset(Filter(p, s))[x] == if p(x) then multiset(s)[x] else 0
  {
    if s != [] {
      FilterCount(p, s[..|s| - 1], x);
      assert s == s[..|s| - 1] + [s[|s| - 1]];
    }
  }

  /** Two disjoint conditions split the elements that satisfy either. */
  lemma FilterUnion<T>(p: T -> bool, q: T -> bool, r: T -> bool, s: seq<T>)
    requires forall x | x in s :: (r(x) <==> p(x) || q(x)) && !(p(x) && q(x))
    ensures multiset(Filter(r, s)) == multiset(Filter(p, s)) + multiset(Filter(q, s))
  {
    forall x: T | true ensures multiset(Filter(r, s))[x] == multiset(Filter(p, s))[x] + multiset(Filter(q, s))[x] {
      FilterUnionCount(p, q, r, s, x);
    }
  }

  lemma FilterUnionCount<T>(p: T -> bool, q: T -> bool, r: T -> bool, s: seq<T>, x: T)
    requires x in s ==> (r(x) <==> p(x) || q(x)) && !(p(x) && q(x))
    ensures multiset(Filter(r, s))[x] == multiset(Filter(p, s))[x] + multiset(Filter(q, s))[x]
  {
    FilterCount(p, s, x);
    FilterCount(q, s, x);
    FilterCount(r, s, x);
  }

  lemma {:induction false} MapAppend<T, U>(f: T -> U, a: seq<T>, b: seq<T>)
    ensures Map(f, a + b) == Map(f, a) + Map(f, b)
  {
  }

  lemma MapUnion<T, U>(f: T -> U, c: seq<T>, a: seq<T>, b: seq<T>)
    requires multiset(c) == multiset(a) + multiset(b)
    ensures multiset(Map(f, c)) == multiset(Map(f, a)) + multiset(Map(f, b))
  {
    MapPermutation(f, c, a + b);
    MapAppend(f, a, b);
  }

  lemma {:induction false} FilterPermutation<T>(p: T -> bool, a: seq<T>, b: seq<T>)
    requires multiset(a) == multiset(b)
    ensures multiset(Filter(p, a)) == multiset(Filter(p, b))
  {
    if a == [] {
      assert |multiset(b)| == 0;
      assert b == [];
    } else {
      var i := LastInPermutation(a, b);
      FilterPermutation(p, a[..|a| - 1], Without(b, i));
      FilterInsert(p, b[..i], b[i], b[i + 1..]);
      assert b == b[..i] + [b[i]] + b[i + 1..];
    }
  }

  lemma FilterSplit<T>(p: T -> bool, a: seq<T>, x: T, b: seq<T>)
    ensures Filter(p, a + [x] + b) == Filter(p, a) + (if p(x) then [x] else []) + Filter(p, b)
  {
    FilterAppend(p, a + [x], b);
    assert (a + [x])[..|a|] == a;
  }

  lemma FilterInsert<T>(p: T -> bool, a: seq<T>, x: T, b: seq<T>)
    ensures multiset(Filter(p, a + [x] + b)) ==
            multiset(Filter(p, a + b)) + (if p(x) then multiset{x} else multiset{})
  {
    FilterSplit(p, a, x, b);
    FilterAppend(p, a, b);
    MultisetInsert(Filter(p, a), x, Filter(p, b), p(x), Filter(p, a + [x] + b), Filter(p, a + b));
  }

  lemma MultisetInsert<T>(a: seq<T>, x: T, b: seq<T>, keep: bool, u: seq<T>, v: seq<T>)
    requires u == a + (if keep then [x] else []) + b && v == a + b
    ensures multiset(u) == multiset(v) + (if keep then multiset{x} else multiset{})
  {
  }

  // ------------------------------------------------------------ unstable sorting

  ghost predicate StrictWeakOrder<T(!new)>(less: (T, T) -> bool) {
    && (forall a :: !less(a, a))
    && (forall a, b, c :: less(a, b) && less(b, c) ==> less(a, c))
    && (forall a, b, c :: less(a, c) ==> less(a, b) || less(b, c))
  }

  ghost predicate SortedBy<T>(less: (T, T) -> bool, s: seq<T>) {
    forall i, j | 0 <= i < j < |s| :: !less(s[j], s[i])
  }

  lemma {:induction false} MinimalExists<T(!new)>(less: (T, T) -> bool, s: seq<T>) returns (k: nat)
    requires StrictWeakOrder(less) && s != []
    ensures k < |s| && forall j | 0 <= j < |s| :: !less(s[j], s[k])
  {
    if |s| == 1 {
      k := 0;
    } else {
      var n := |s| - 1;
      k := MinimalExists(less, s[..n]);
      assert forall j | 0 <= j < n :: s[..n][j] == s[j];
      if less(s[n], s[k]) { k := n; }
    }
  }

  /** sort.Slice: some sorted rearrangement; elements that compare equal may come in any order. */
  method SortSlice<T(!new)>(s: seq<T>, less: (T, T) -> bool) returns (r: seq<T>)
    requires StrictWeakOrder(less)
    ensures multiset(r) == multiset(s)
    ensures SortedBy(less, r)
  {
    var rest := s;
    r := [];
    while rest != []
      invariant multiset(r) + multiset(rest) == multiset(s)
      invariant SortedBy(less, r)
      invariant forall x, y | x in r && y in rest :: !less(y, x)
      decreases |rest|
    {
      ghost var w := MinimalExists(less, rest);
      var k: nat :| k < |rest| && forall j | 0 <= j < |rest| :: !less(rest[j], rest[k]);
      WithoutMultiset(rest, k);
      r := r + [rest[k]];
      rest := Without(rest, k);
    }
  }

  /** Two strictly sorted sequences with the same elements are equal. */
  lemma {:induction false} StrictlySortedUnique<T(!new)>(less: (T, T) -> bool, a: seq<T>, b: seq<T>)
    requires StrictWeakOrder(less)
    requires forall i, j | 0 <= i < j < |a| :: less(a[i], a[j])
    requires forall i, j | 0 <= i < j < |b| :: less(b[i], b[j])
    requires forall x :: x in a <==> x in b
    ensures a == b
  {
    assert a != [] ==> a[0] in b;
    assert b != [] ==> b[0] in a;
    if a != [] && b != [] {
      assert a[0] == b[0] by {
        assert a[0] in b && b[0] in a;
        var i :| 0 <= i < |b| && b[i] == a[0];
        var j :| 0 <= j < |a| && a[j] == b[0];
      }
      forall x ensures x in a[1..] <==> x in b[1..] {
        if x in a[1..] { assert x in a && less(a[0], x); assert x in b && x != b[0]; }
        if x in b[1..] { assert x in b && less(b[0], x); assert x in a && x != a[0]; }
      }
      StrictlySortedUnique(less, a[1..], b[1..]);
      assert a == [a[0]] + a[1..] && b == [b[0]] + b[1..];
    }
  }

  // -------------------------------------------------------------------- least element

  /** Position `i` is the earliest of those of least cost. */
  ghost predicate Least<T>(cost: T -> nat, xs: seq<T>, i: nat) {
    && i < |xs|
    && (forall j | 0 <= j < |xs| :: cost(xs[i]) <= cost(xs[j]))
    && (forall j | 0 <= j < i :: cost(xs[i]) < cost(xs[j]))
  }

  lemma LeastNext<T>(cost: T -> nat, xs: seq<T>, i: nat)
    requires xs != [] && Least(cost, xs[..|xs| - 1], i)
    ensures Least(cost, xs, if cost(xs[|xs| - 1]) < cost(xs[i]) then |xs| - 1 else i)
  {
    assert forall j | 0 <= j < |xs| - 1 :: xs[..|xs| - 1][j] == xs[j];
  }
}
