/** Sequence vocabulary shared by the model: lists without repeats, order-preserving filters,
    and finite sets of naturals in ascending order (the iteration order of a `BTreeMap`). */
module Seqs {

  ghost predicate NoDup<T>(s: seq<T>) {
    forall i, j | 0 <= i < j < |s| :: s[i] != s[j]
  }

  lemma NoDupConcat<T(!new)>(a: seq<T>, b: seq<T>)
    ensures NoDup(a + b) <==> NoDup(a) && NoDup(b) && forall x | x in b :: x !in a
  {
    var c := a + b;
    if NoDup(c) {
      assert forall i | 0 <= i < |a| :: a[i] == c[i];
      assert forall i | 0 <= i < |b| :: b[i] == c[|a| + i];
    } else {
      var i, j :| 0 <= i < j < |c| && c[i] == c[j];
      if j < |a| {
        assert a[i] == a[j];
      } else if i < |a| {
        assert a[i] in a && b[j - |a|] in b;
      } else {
        assert b[i - |a|] == b[j - |a|];
      }
    }
  }

  function ToSet<T(!new)>(s: seq<T>): (r: set<T>)
    ensures forall x :: x in r <==> x in s
  {
    set x | x in s
  }

  lemma NoDupSize<T(!new)>(s: seq<T>)
    requires NoDup(s)
    ensures |ToSet(s)| == |s|
  {
    if s == [] {
    } else {
      var init := s[..|s| - 1];
      NoDupSize(init);
      assert s == init + [s[|s| - 1]];
      assert ToSet(s) == ToSet(init) + {s[|s| - 1]};
    }
  }

  /** A repeat-free list drawn from `pool` is no longer than `pool`; if it is as long, it is all of it. */
  lemma NoDupWithin<T(!new)>(s: seq<T>, pool: set<T>)
    requires NoDup(s)
    requires forall x | x in s :: x in pool
    ensures |s| <= |pool|
    ensures |s| == |pool| ==> ToSet(s) == pool
  {
    NoDupSize(s);
    SubsetSize(ToSet(s), pool);
  }

  lemma SubsetSize<T>(a: set<T>, b: set<T>)
    requires a <= b
    ensures |a| <= |b|
    ensures |a| == |b| ==> a == b
  {
    assert b == a + (b - a);
    assert |b| == |a| + |b - a|;
    if |a| == |b| {
      assert b - a == {};
    }
  }

  /** Pigeonhole: a list longer than the pool it is drawn from repeats an element. */
  lemma Pigeonhole<T(!new)>(s: seq<T>, pool: set<T>) returns (i: nat, j: nat)
    requires forall x | x in s :: x in pool
    requires |s| > |pool|
    ensures i < j < |s| && s[i] == s[j]
  {
    if NoDup(s) {
      NoDupWithin(s, pool);
      assert false;
    }
    i, j :| 0 <= i < j < |s| && s[i] == s[j];
  }

  // ----- filters -----

  /** The elements satisfying `p`, in their original order. */
  function Filter<T(!new)>(s: seq<T>, p: T -> bool): (r: seq<T>)
    ensures |r| <= |s|
    ensures forall x :: x in r <==> x in s && p(x)
  {
    if s == [] then [] else
      var last := s[|s| - 1];
      if p(last) then Filter(s[..|s| - 1], p) + [last] else Filter(s[..|s| - 1], p)
  }

  lemma FilterSnoc<T(!new)>(s: seq<T>, x: T, p: T -> bool)
    ensures Filter(s + [x], p) == if p(x) then Filter(s, p) + [x] else Filter(s, p)
  {
    assert (s + [x])[..|s|] == s;
  }

  lemma {:induction false} FilterConcat<T(!new)>(a: seq<T>, b: seq<T>, p: T -> bool)
    ensures Filter(a + b, p) == Filter(a, p) + Filter(b, p)
  {
    if b == [] {
      assert a + b == a;
    } else {
      var init, last := b[..|b| - 1], b[|b| - 1];
      assert a + b == (a + init) + [last];
      FilterSnoc(a + init, last, p);
      FilterConcat(a, init, p);
    }
  }

  lemma {:induction false} FilterNoDup<T(!new)>(s: seq<T>, p: T -> bool)
    requires NoDup(s)
    ensures NoDup(Filter(s, p))
  {
    if s == [] {
    } else {
      FilterNoDup(s[..|s| - 1], p);
    }
  }

  lemma {:induction false} FilterAgree<T(!new)>(s: seq<T>, p: T -> bool, q: T -> bool)
    requires forall x | x in s :: p(x) == q(x)
    ensures Filter(s, p) == Filter(s, q)
  {
    if s == [] {
    } else {
      FilterAgree(s[..|s| - 1], p, q);
    }
  }

  lemma {:induction false} FilterAll<T(!new)>(s: seq<T>, p: T -> bool)
    requires forall x | x in s :: p(x)
    ensures Filter(s, p) == s
  {
    if s == [] {
    } else {
      var init, last := s[..|s| - 1], s[|s| - 1];
      assert last in s && s == init + [last];
      FilterAll(init, p);
      FilterSnoc(init, last, p);
    }
  }

  lemma {:induction false} FilterCount<T(!new)>(s: seq<T>, p: T -> bool, x: T)
    ensures multiset(Filter(s, p))[x] == if p(x) then multiset(s)[x] else 0
  {
    if s == [] {
    } else {
      assert s == s[..|s| - 1] + [s[|s| - 1]];
      FilterCount(s[..|s| - 1], p, x);
    }
  }

  /** If `x` comes before `y` in the filtered list, it does so in the original one. */
  lemma {:induction false} FilterOrder<T(!new)>(s: seq<T>, p: T -> bool, i: nat, j: nat)
    requires NoDup(s)
    requires i < j < |Filter(s, p)|
    ensures exists a, b :: 0 <= a < b < |s| && s[a] == Filter(s, p)[i] && s[b] == Filter(s, p)[j]
  {
    var init := s[..|s| - 1];
    var f := Filter(init, p);
    if j < |f| {
      FilterOrder(init, p, i, j);
      var a, b :| 0 <= a < b < |init| && init[a] == f[i] && init[b] == f[j];
      assert s[a] == Filter(s, p)[i] && s[b] == Filter(s, p)[j];
    } else {
      assert f[i] in init;
      var a :| 0 <= a < |init| && init[a] == f[i];
      assert s[a] == Filter(s, p)[i] && s[|s| - 1] == Filter(s, p)[j];
    }
  }

  lemma Associate<T>(a: seq<T>, b: seq<T>, c: seq<T>)
    ensures a + b + c == a + (b + c)
  {
  }

  /** `n` copies of `x`. */
  function Repeat<T>(x: T, n: nat): seq<T> {
    seq(n, _ => x)
  }

  lemma {:induction false} RepeatCount<T>(x: T, n: nat, y: T)
    ensures multiset(Repeat(x, n))[y] == if y == x then n else 0
  {
    if n == 0 {
    } else {
      RepeatCount(x, n - 1, y);
      assert Repeat(x, n) == Repeat(x, n - 1) + [x];
    }
  }

  // ----- sums -----

  function Sum<T>(s: seq<T>, f: T -> real): real {
    if s == [] then 0.0 else Sum(s[..|s| - 1], f) + f(s[|s| - 1])
  }

  lemma SumSnoc<T>(s: seq<T>, x: T, f: T -> real)
    ensures Sum(s + [x], f) == Sum(s, f) + f(x)
  {
    assert (s + [x])[..|s|] == s;
  }

  lemma {:induction false} SumConcat<T>(a: seq<T>, b: seq<T>, f: T -> real)
    ensures Sum(a + b, f) == Sum(a, f) + Sum(b, f)
  {
    if b == [] {
      assert a + b == a;
    } else {
      SumConcat(a, b[..|b| - 1], f);
      assert (a + b)[..|a + b| - 1] == a + b[..|b| - 1];
    }
  }

  /** Changing one term of a sum over distinct elements changes the sum by as much. */
  lemma {:induction false} SumChanged<T(!new)>(s: seq<T>, f: T -> real, g: T -> real, x: T, d: real)
    requires NoDup(s)
    requires forall y :: g(y) == if y == x then f(y) + d else f(y)
    ensures Sum(s, g) == if x in s then Sum(s, f) + d else Sum(s, f)
  {
    if s == [] {
    } else {
      SumChanged(s[..|s| - 1], f, g, x, d);
      assert s == s[..|s| - 1] + [s[|s| - 1]];
    }
  }

  lemma {:induction false} SumZero<T>(s: seq<T>, f: T -> real)
    requires forall x | x in s :: f(x) == 0.0
    ensures Sum(s, f) == 0.0
  {
    if s == [] {
    } else {
      SumZero(s[..|s| - 1], f);
    }
  }

  lemma {:induction false} SumPlus<T(!new)>(s: seq<T>, f: T -> real, g: T -> real, h: T -> real)
    requires forall x :: h(x) == f(x) + g(x)
    ensures Sum(s, h) == Sum(s, f) + Sum(s, g)
  {
    if s == [] {
    } else {
      SumPlus(s[..|s| - 1], f, g, h);
    }
  }

  /** A sum of terms that are never negative vanishes exactly when each term does. */
  lemma {:induction false} SumOfNonNegative<T>(s: seq<T>, f: T -> real)
    requires forall i | 0 <= i < |s| :: f(s[i]) >= 0.0
    ensures Sum(s, f) >= 0.0
    ensures Sum(s, f) == 0.0 <==> forall i | 0 <= i < |s| :: f(s[i]) == 0.0
  {
    if s == [] {
    } else {
      var init, last := s[..|s| - 1], s[|s| - 1];
      SumOfNonNegative(init, f);
      assert forall i | 0 <= i < |init| :: s[i] == init[i];
    }
  }

  lemma SumTake<T>(s: seq<T>, i: nat, f: T -> real)
    requires i < |s|
    ensures Sum(s[..i + 1], f) == Sum(s[..i], f) + f(s[i])
  {
    assert s[..i + 1][..i] == s[..i];
  }

  lemma TakenOut<T>(a: seq<T>, left: seq<T>, x: T, right: seq<T>)
    requires multiset(a + [x]) == multiset(left + [x] + right)
    ensures multiset(a) == multiset(left + right)
  {
    assert multiset(a) == multiset(a + [x]) - multiset{x};
    assert multiset(left + right) == multiset(left + [x] + right) - multiset{x};
  }

  lemma {:induction false} SumAnyOrder<T>(a: seq<T>, b: seq<T>, f: T -> real)
    requires multiset(a) == multiset(b)
    ensures Sum(a, f) == Sum(b, f)
  {
    assert |multiset(a)| == |a| && |multiset(b)| == |b|;
    if a == [] {
    } else {
      var init, x := a[..|a| - 1], a[|a| - 1];
      assert a == init + [x];
      assert x in multiset(b);
      var i :| 0 <= i < |b| && b[i] == x;
      var left, right := b[..i], b[i + 1..];
      assert b == left + [x] + right;
      TakenOut(init, left, x, right);
      SumAnyOrder(init, left + right, f);
      SumConcat(left, right, f);
      SumConcat(left + [x], right, f);
      SumSnoc(left, x, f);
    }
  }

  // ----- ascending order -----

  ghost predicate Ascending(s: seq<nat>) {
    forall i, j | 0 <= i < j < |s| :: s[i] < s[j]
  }

  lemma {:induction false} LeastOf(s: set<nat>) returns (m: nat)
    requires s != {}
    ensures m in s && forall x | x in s :: m <= x
    decreases |s|
  {
    m :| m in s;
    var rest := s - {m};
    assert s == rest + {m};
    if rest == {} {
    } else {
      var r := LeastOf(rest);
      m := if m <= r then m else r;
    }
  }

  lemma LeastExists(s: set<nat>)
    requires s != {}
    ensures exists m :: m in s && forall x | x in s :: m <= x
  {
    var m := LeastOf(s);
  }

  function Least(s: set<nat>): (m: nat)
    requires s != {}
    ensures m in s
    ensures forall x | x in s :: m <= x
  {
    LeastExists(s);
    var m :| m in s && forall x | x in s :: m <= x;
    m
  }

  /** Lists the elements of a finite set of naturals in ascending order. */
  method SortKeys(keys: set<nat>) returns (ds: seq<nat>)
    ensures ds == Sorted(keys)
  {
    ds := [];
    var rest := keys;
    while rest != {}
      invariant rest <= keys && ToSet(ds) == keys - rest
      invariant Ascending(ds) && forall i, j | 0 <= i < |ds| && j in rest :: ds[i] < j
    {
      ghost var least := LeastOf(rest);
      var k :| k in rest && forall j | j in rest :: k <= j;
      assert ToSet(ds + [k]) == ToSet(ds) + {k};
      ds := ds + [k];
      rest := rest - {k};
    }
    assert forall x :: x in ds <==> x in ToSet(ds);
    AscendingUnique(ds, Sorted(keys));
  }

  lemma {:induction false} SortedOf(s: set<nat>) returns (r: seq<nat>)
    ensures Ascending(r) && forall x :: x in r <==> x in s
    decreases |s|
  {
    if s == {} {
      r := [];
    } else {
      var m := LeastOf(s);
      var t := SortedOf(s - {m});
      r := [m] + t;
      assert forall i | 0 < i < |r| :: r[i] == t[i - 1] && t[i - 1] in t;
    }
  }

  lemma SortedExists(s: set<nat>)
    ensures exists r: seq<nat> :: Ascending(r) && forall x :: x in r <==> x in s
  {
    var r := SortedOf(s);
  }

  /** The elements of a finite set of naturals in ascending order. */
  ghost function Sorted(s: set<nat>): (r: seq<nat>)
    ensures Ascending(r)
    ensures forall x :: x in r <==> x in s
  {
    SortedExists(s);
    var r: seq<nat> :| Ascending(r) && forall x :: x in r <==> x in s;
    r
  }

  lemma SortedSize(s: set<nat>)
    ensures |Sorted(s)| == |s|
  {
    NoDupSize(Sorted(s));
    assert ToSet(Sorted(s)) == s;
  }

  /** Ascending order determines the list: this is what makes sorting by key deterministic. */
  lemma {:induction false} AscendingUnique(a: seq<nat>, b: seq<nat>)
    requires Ascending(a) && Ascending(b)
    requires forall x :: x in a <==> x in b
    ensures a == b
  {
    NoDupSize(a);
    NoDupSize(b);
    assert ToSet(a) == ToSet(b);
    if a == [] {
    } else {
      assert a[0] in b && b[0] in a;
      assert a[0] == b[0];
      forall x
        ensures x in a[1..] <==> x in b[1..]
      {
        assert x in a[1..] <==> x in a && x != a[0];
        assert x in b[1..] <==> x in b && x != b[0];
      }
      AscendingUnique(a[1..], b[1..]);
    }
  }
}
