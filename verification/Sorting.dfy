/** Insertion sort with a comparison function, which is how Go's `sort` package orders short slices,
    and what it promises for comparisons by an integer key. */
module Sorting {

  /** Where `x` comes to rest when it moves left from `n` past every element it compares below. */
  function Place<T>(less: (T, T) -> bool, s: seq<T>, x: T, n: nat): (p: nat)
    requires n <= |s|
    ensures p <= n
  {
    if n > 0 && less(x, s[n - 1]) then Place(less, s, x, n - 1) else n
  }

  function Insert<T>(less: (T, T) -> bool, s: seq<T>, x: T): seq<T>
  {
    var p := Place(less, s, x, |s|);
    s[..p] + [x] + s[p..]
  }

  function Sort<T>(less: (T, T) -> bool, s: seq<T>): seq<T> { SortTo(less, s, |s|) }

  /** The first `n` elements, sorted. */
  function SortTo<T>(less: (T, T) -> bool, s: seq<T>, n: nat): seq<T>
    requires n <= |s|
  {
    if n == 0 then [] else Insert(less, SortTo(less, s, n - 1), s[n - 1])
  }

  /** The elements of `s` whose key is `k`, in order. */
  function OfKey<T>(key: T -> int, s: seq<T>, k: int): seq<T>
  {
    if s == [] then []
    else OfKey(key, s[..|s| - 1], k) + if key(s[|s| - 1]) == k then [s[|s| - 1]] else []
  }

  function ByKey<T>(key: T -> int): (T, T) -> bool
  {
    (x, y) => key(x) < key(y)
  }

  ghost predicate Ascending<T>(key: T -> int, s: seq<T>)
  {
    forall i, j :: 0 <= i < j < |s| ==> key(s[i]) <= key(s[j])
  }

  /** For every key, both sequences have the same elements of that key in the same order. */
  ghost predicate SameOfEachKey<T>(key: T -> int, s: seq<T>, t: seq<T>)
  {
    forall k :: OfKey(key, s, k) == OfKey(key, t, k)
  }

  lemma {:induction false} PlaceIsRight<T>(less: (T, T) -> bool, s: seq<T>, x: T, n: nat)
    requires n <= |s|
    ensures var p := Place(less, s, x, n);
      (forall k :: p <= k < n ==> less(x, s[k])) && (p > 0 ==> !less(x, s[p - 1]))
  {
    if n > 0 && less(x, s[n - 1]) { PlaceIsRight(less, s, x, n - 1); }
  }

  lemma InsertPermutes<T>(less: (T, T) -> bool, s: seq<T>, x: T)
    ensures multiset(Insert(less, s, x)) == multiset(s) + multiset{x}
    ensures |Insert(less, s, x)| == |s| + 1
  {
    var p := Place(less, s, x, |s|);
    assert s == s[..p] + s[p..];
  }

  lemma FirstSnoc<T>(s: seq<T>, n: nat)
    requires 0 < n <= |s|
    ensures s[..n] == s[..n - 1] + [s[n - 1]]
  {}

  lemma {:induction false} SortToPermutes<T>(less: (T, T) -> bool, s: seq<T>, n: nat)
    requires n <= |s|
    ensures multiset(SortTo(less, s, n)) == multiset(s[..n])
    ensures |SortTo(less, s, n)| == n
  {
    if n > 0 {
      var sorted := SortTo(less, s, n - 1);
      SortToPermutes(less, s, n - 1);
      InsertPermutes(less, sorted, s[n - 1]);
      FirstSnoc(s, n);
      SnocPermutes(s[..n - 1], s[n - 1]);
    }
  }

  lemma SnocPermutes<T>(s: seq<T>, x: T)
    ensures multiset(s + [x]) == multiset(s) + multiset{x}
  {}

  lemma SortPermutes<T>(less: (T, T) -> bool, s: seq<T>)
    ensures multiset(Sort(less, s)) == multiset(s)
    ensures |Sort(less, s)| == |s|
  {
    SortToPermutes(less, s, |s|);
    assert s[..|s|] == s;
  }

  lemma InsertAscends<T>(key: T -> int, s: seq<T>, x: T)
    requires Ascending(key, s)
    ensures Ascending(key, Insert(ByKey(key), s, x))
  {
    PlaceIsRight(ByKey(key), s, x, |s|);
  }

  lemma {:induction false} OfKeyAppend<T>(key: T -> int, s: seq<T>, t: seq<T>, k: int)
    ensures OfKey(key, s + t, k) == OfKey(key, s, k) + OfKey(key, t, k)
  {
    if t == [] {
      assert s + t == s;
    } else {
      assert (s + t)[..|s + t| - 1] == s + t[..|t| - 1];
      OfKeyAppend(key, s, t[..|t| - 1], k);
    }
  }

  lemma {:induction false} NoneOfKey<T>(key: T -> int, s: seq<T>, k: int)
    requires forall i :: 0 <= i < |s| ==> key(s[i]) != k
    ensures OfKey(key, s, k) == []
    decreases |s|
  {
    if s != [] { NoneOfKey(key, s[..|s| - 1], k); }
  }

  lemma InsertStable<T>(key: T -> int, s: seq<T>, x: T, k: int)
    ensures OfKey(key, Insert(ByKey(key), s, x), k) == OfKey(key, s, k) + OfKey(key, [x], k)
  {
    var p := Place(ByKey(key), s, x, |s|);
    PlaceIsRight(ByKey(key), s, x, |s|);
    var before, after := s[..p], s[p..];
    OfKeyAppend(key, before + [x], after, k);
    OfKeyAppend(key, before, [x], k);
    OfKeyAppend(key, before, after, k);
    assert s == before + after;
    if k == key(x) {
      NoneOfKey(key, after, k);
    } else {
      NoneOfKey(key, [x], k);
    }
  }

  lemma {:induction false} SortToIsStable<T>(key: T -> int, s: seq<T>, n: nat)
    requires n <= |s|
    ensures Ascending(key, SortTo(ByKey(key), s, n))
    ensures SameOfEachKey(key, SortTo(ByKey(key), s, n), s[..n])
  {
    if n > 0 {
      var sorted, x := SortTo(ByKey(key), s, n - 1), s[n - 1];
      SortToIsStable(key, s, n - 1);
      InsertAscends(key, sorted, x);
      FirstSnoc(s, n);
      forall k ensures OfKey(key, SortTo(ByKey(key), s, n), k) == OfKey(key, s[..n], k) {
        InsertStable(key, sorted, x, k);
        OfKeyAppend(key, s[..n - 1], [x], k);
      }
    }
  }

  /** Sorting by a key is a stable sort: the result ascends, and the elements of each key keep
      their order. By `StableSortsAgree` every stable sort gives this result. */
  lemma SortIsStable<T>(key: T -> int, s: seq<T>)
    ensures Ascending(key, Sort(ByKey(key), s))
    ensures SameOfEachKey(key, Sort(ByKey(key), s), s)
  {
    SortToIsStable(key, s, |s|);
    assert s[..|s|] == s;
  }

  lemma {:induction false} SomeOfKey<T>(key: T -> int, s: seq<T>, i: nat)
    requires i < |s|
    ensures OfKey(key, s, key(s[i])) != []
  {
    if i < |s| - 1 { SomeOfKey(key, s[..|s| - 1], i); }
  }

  lemma {:induction false} OfKeyIsKeyed<T>(key: T -> int, s: seq<T>, k: int)
    requires OfKey(key, s, k) != []
    ensures exists i :: 0 <= i < |s| && key(s[i]) == k
  {
    if key(s[|s| - 1]) != k {
      OfKeyIsKeyed(key, s[..|s| - 1], k);
      var i :| 0 <= i < |s| - 1 && key(s[..|s| - 1][i]) == k;
      assert key(s[i]) == k;
    }
  }

  lemma SameLastKey<T>(key: T -> int, s: seq<T>, t: seq<T>)
    requires Ascending(key, s) && SameOfEachKey(key, s, t) && t != []
    ensures s != [] && key(t[|t| - 1]) <= key(s[|s| - 1])
  {
    var k := key(t[|t| - 1]);
    SomeOfKey(key, t, |t| - 1);
    OfKeyIsKeyed(key, s, k);
  }

  lemma SnocInjective<T>(a: seq<T>, x: T, b: seq<T>, y: T)
    requires a + [x] == b + [y]
    ensures a == b && x == y
  {
    assert |a| == |b|;
    assert a == (a + [x])[..|a|] && b == (b + [y])[..|b|];
    assert x == (a + [x])[|a|] && y == (b + [y])[|b|];
  }

  /** All stable sorts of a sequence are equal: an ascending arrangement that keeps the order within
      each key is unique. */
  lemma {:induction false} StableSortsAgree<T>(key: T -> int, s: seq<T>, t: seq<T>)
    requires Ascending(key, s) && Ascending(key, t) && SameOfEachKey(key, s, t)
    ensures s == t
  {
    if s != [] || t != [] {
      if t != [] { SameLastKey(key, s, t); }
      if s != [] { SameLastKey(key, t, s); }
      var x, y := s[|s| - 1], t[|t| - 1];
      var front, rest := s[..|s| - 1], t[..|t| - 1];
      assert key(x) == key(y);
      assert OfKey(key, s, key(x)) == OfKey(key, t, key(x));
      SnocInjective(OfKey(key, front, key(x)), x, OfKey(key, rest, key(x)), y);
      forall k ensures OfKey(key, front, k) == OfKey(key, rest, k) {
        assert OfKey(key, s, k) == OfKey(key, t, k);
        if k != key(x) {
          assert OfKey(key, front, k) == OfKey(key, s, k) && OfKey(key, rest, k) == OfKey(key, t, k);
        }
      }
      StableSortsAgree(key, front, rest);
      assert s == front + [x] && t == rest + [y];
    }
  }

  lemma {:induction false} PlaceAgrees<T(!new)>(f: (T, T) -> bool, g: (T, T) -> bool, s: seq<T>, x: T, n: nat)
    requires n <= |s| && forall y :: y in s ==> f(x, y) == g(x, y)
    ensures Place(f, s, x, n) == Place(g, s, x, n)
  {
    if n > 0 { PlaceAgrees(f, g, s, x, n - 1); }
  }

  lemma InsertAgrees<T(!new)>(f: (T, T) -> bool, g: (T, T) -> bool, s: seq<T>, x: T)
    requires forall y :: y in s ==> f(x, y) == g(x, y)
    ensures Insert(f, s, x) == Insert(g, s, x)
  {
    PlaceAgrees(f, g, s, x, |s|);
  }

  lemma {:induction false} SortToAgrees<T(!new)>(f: (T, T) -> bool, g: (T, T) -> bool, s: seq<T>, n: nat)
    requires n <= |s| && forall x, y :: x in s && y in s ==> f(x, y) == g(x, y)
    ensures SortTo(f, s, n) == SortTo(g, s, n)
  {
    if n > 0 {
      SortToAgrees(f, g, s, n - 1);
      SortedElements(f, s, n - 1);
      InsertAgrees(f, g, SortTo(f, s, n - 1), s[n - 1]);
    }
  }

  lemma SortedElements<T(!new)>(f: (T, T) -> bool, s: seq<T>, n: nat)
    requires n <= |s|
    ensures |SortTo(f, s, n)| == n && forall y :: y in SortTo(f, s, n) ==> y in s
  {
    SortToPermutes(f, s, n);
    forall y | y in SortTo(f, s, n) ensures y in s {
      assert y in multiset(s[..n]);
    }
  }

  /** Two comparisons that agree on the elements sort alike. */
  lemma SortAgrees<T(!new)>(f: (T, T) -> bool, g: (T, T) -> bool, s: seq<T>)
    requires forall x, y :: x in s && y in s ==> f(x, y) == g(x, y)
    ensures Sort(f, s) == Sort(g, s)
  {
    SortToAgrees(f, g, s, |s|);
  }

  /** Sink the element at `i` into the sorted part before it. */
  method SinkLeft<T>(a: array<T>, i: nat, less: (T, T) -> bool)
    requires i < a.Length
    modifies a
    ensures a[..] == Insert(less, old(a[..i]), old(a[i])) + old(a[i + 1..])
  {
    ghost var s, x := a[..i], a[i];
    var j := i;
    while j > 0 && less(a[j], a[j - 1])
      invariant 0 <= j <= i && a[j] == x
      invariant forall k :: 0 <= k < j ==> a[k] == s[k]
      invariant forall k :: j <= k < i ==> a[k + 1] == s[k]
      invariant forall k :: i < k < a.Length ==> a[k] == old(a[k])
      invariant Place(less, s, x, j) == Place(less, s, x, i)
    {
      a[j - 1], a[j] := a[j], a[j - 1];
      j := j - 1;
    }
    Spliced(a[..], s, j, x, old(a[i + 1..]));
  }

  lemma Spliced<T>(b: seq<T>, s: seq<T>, j: nat, x: T, rest: seq<T>)
    requires j <= |s| && |b| == |s| + 1 + |rest| && b[j] == x
    requires forall k :: 0 <= k < j ==> b[k] == s[k]
    requires forall k :: j <= k < |s| ==> b[k + 1] == s[k]
    requires forall k :: 0 <= k < |rest| ==> b[|s| + 1 + k] == rest[k]
    ensures b == s[..j] + [x] + s[j..] + rest
  {
    var r := s[..j] + [x] + s[j..] + rest;
    forall k | 0 <= k < |b| ensures b[k] == r[k] {
      if j < k <= |s| { assert b[(k - 1) + 1] == s[k - 1]; }
      if k > |s| { assert b[|s| + 1 + (k - |s| - 1)] == rest[k - |s| - 1]; }
    }
  }

  lemma Parts<T>(b: seq<T>, p: seq<T>, q: seq<T>)
    requires b == p + q && q != []
    ensures b[..|p|] == p && b[|p|] == q[0] && b[|p| + 1..] == q[1..]
  {}

  method InsertionSort<T>(a: array<T>, less: (T, T) -> bool)
    modifies a
    ensures a[..] == Sort(less, old(a[..]))
  {
    ghost var was := a[..];
    for i := 0 to a.Length
      invariant a[..] == SortTo(less, was, i) + was[i..]
    {
      ghost var sorted := SortTo(less, was, i);
      SortToPermutes(less, was, i);
      Parts(a[..], sorted, was[i..]);
      assert a[..i] == sorted && a[i] == was[i] && a[i + 1..] == was[i + 1..];
      SinkLeft(a, i, less);
    }
  }
}
