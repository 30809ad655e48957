/** Lexicographic order of keys, as `std::string` compares them. */
module KeyOrder {

  predicate KeyLeq(a: string, b: string) {
    a == [] || (b != [] && (a[0] < b[0] || (a[0] == b[0] && KeyLeq(a[1..], b[1..]))))
  }

  predicate KeyLess(a: string, b: string) { a != b && KeyLeq(a, b) }

  lemma {:induction false} KeyTotal(a: string, b: string)
    ensures KeyLeq(a, b) || KeyLeq(b, a)
    ensures KeyLeq(a, b) && KeyLeq(b, a) ==> a == b
  {
    if a != [] && b != [] {
      KeyTotal(a[1..], b[1..]);
      assert a == [a[0]] + a[1..] && b == [b[0]] + b[1..];
    }
  }

  lemma {:induction false} KeyTransitive(a: string, b: string, c: string)
    requires KeyLeq(a, b) && KeyLeq(b, c)
    ensures KeyLeq(a, c)
  {
    if a != [] && a[0] == b[0] == c[0] {
      KeyTransitive(a[1..], b[1..], c[1..]);
    }
  }

  lemma {:induction false} KeyReflexive(a: string)
    ensures KeyLeq(a, a)
  {
    if a != [] {
      KeyReflexive(a[1..]);
    }
  }
}

/** Sorting by a total preorder: what `std::sort` and `std::partial_sort` promise. */
module Sorting {

  ghost predicate TotalPreorder<T(!new)>(leq: (T, T) -> bool) {
    (forall a, b :: leq(a, b) || leq(b, a)) &&
    (forall a, b, c :: leq(a, b) && leq(b, c) ==> leq(a, c))
  }

  ghost predicate SortedBy<T>(s: seq<T>, leq: (T, T) -> bool) {
    forall i, j :: 0 <= i < j < |s| ==> leq(s[i], s[j])
  }

  function Insert<T>(x: T, s: seq<T>, leq: (T, T) -> bool): (r: seq<T>)
    ensures multiset(r) == multiset(s) + multiset{x}
    ensures |r| == |s| + 1
  {
    if s == [] || leq(x, s[0]) then [x] + s
    else
      assert s == [s[0]] + s[1..];
      [s[0]] + Insert(x, s[1..], leq)
  }

  /** A sorted rearrangement of `s`. */
  function Sort<T>(s: seq<T>, leq: (T, T) -> bool): (r: seq<T>)
    ensures multiset(r) == multiset(s)
    ensures |r| == |s|
  {
    if s == [] then []
    else
      assert s == [s[0]] + s[1..];
      Insert(s[0], Sort(s[1..], leq), leq)
  }

  lemma SameElements<T>(s: seq<T>, r: seq<T>)
    requires multiset(s) == multiset(r)
    ensures forall x :: x in s <==> x in r
  {
    forall x
      ensures x in s <==> x in r
    {
      assert x in multiset(s) <==> x in s;
      assert x in multiset(r) <==> x in r;
    }
  }

  lemma {:induction false} InsertSorted<T(!new)>(x: T, s: seq<T>, leq: (T, T) -> bool)
    requires TotalPreorder(leq) && SortedBy(s, leq)
    ensures SortedBy(Insert(x, s, leq), leq)
  {
    if s != [] && !leq(x, s[0]) {
      InsertSorted(x, s[1..], leq);
      var rest := Insert(x, s[1..], leq);
      forall y | y in rest
        ensures leq(s[0], y)
      {
        assert y in multiset(rest);
        assert y == x || y in s[1..];
      }
    }
  }

  lemma {:induction false} SortSorted<T(!new)>(s: seq<T>, leq: (T, T) -> bool)
    requires TotalPreorder(leq)
    ensures SortedBy(Sort(s, leq), leq)
  {
    if s != [] {
      SortSorted(s[1..], leq);
      InsertSorted(s[0], Sort(s[1..], leq), leq);
    }
  }

  ghost predicate Distinct<T>(s: seq<T>) {
    forall i, j :: 0 <= i < j < |s| ==> s[i] != s[j]
  }

  ghost predicate Antisymmetric<T(!new)>(leq: (T, T) -> bool) {
    forall a, b :: leq(a, b) && leq(b, a) ==> a == b
  }

  /** With ties excluded, a sorted list is determined by its elements. */
  lemma {:induction false} SortedUnique<T(!new)>(s: seq<T>, r: seq<T>, leq: (T, T) -> bool)
    requires TotalPreorder(leq) && Antisymmetric(leq)
    requires SortedBy(s, leq) && SortedBy(r, leq) && Distinct(s) && Distinct(r)
    requires forall x :: x in s <==> x in r
    ensures s == r
  {
    assert |r| > 0 ==> r[0] in r;
    if s != [] {
      assert s[0] in s && s[0] in r && r[0] in r && r[0] in s;
      assert leq(s[0], r[0]) && leq(r[0], s[0]);
      forall x
        ensures x in s[1..] <==> x in r[1..]
      {
        assert x in s[1..] ==> x in s && x != s[0];
        assert x in r[1..] ==> x in r && x != r[0];
      }
      SortedUnique(s[1..], r[1..], leq);
      assert s == [s[0]] + s[1..] && r == [r[0]] + r[1..];
    }
  }

  lemma MultisetDistinct<T>(s: seq<T>, r: seq<T>)
    requires multiset(s) == multiset(r) && Distinct(s)
    ensures Distinct(r)
  {
    forall i, j | 0 <= i < j < |r|
      ensures r[i] != r[j]
    {
      if r[i] == r[j] {
        var x := r[i];
        CountAtLeastTwo(r, i, j);
        DistinctCount(s, x);
      }
    }
  }

  lemma CountAtLeastTwo<T>(r: seq<T>, i: nat, j: nat)
    requires i < j < |r| && r[i] == r[j]
    ensures multiset(r)[r[i]] >= 2
  {
    assert r == r[..i] + [r[i]] + r[i + 1..j] + [r[j]] + r[j + 1..];
  }

  lemma {:induction false} DistinctCount<T>(s: seq<T>, x: T)
    requires Distinct(s)
    ensures multiset(s)[x] <= 1
  {
    if s != [] {
      DistinctCount(s[1..], x);
      assert s == [s[0]] + s[1..];
      if x == s[0] {
        assert x !in s[1..];
      }
    }
  }

  // ------------------------------------------------------------------ filtering

  function Filter<T(!new)>(s: seq<T>, p: T -> bool): (r: seq<T>)
    ensures forall x :: x in r <==> x in s && p(x)
    ensures |r| <= |s|
  {
    if s == [] then []
    else
      var rest := Filter(s[..|s| - 1], p);
      assert s == s[..|s| - 1] + [s[|s| - 1]];
      if p(s[|s| - 1]) then rest + [s[|s| - 1]] else rest
  }

  lemma {:induction false} FilterKeepsOrder<T(!new)>(s: seq<T>, p: T -> bool, leq: (T, T) -> bool)
    requires SortedBy(s, leq) && Distinct(s)
    ensures SortedBy(Filter(s, p), leq) && Distinct(Filter(s, p))
  {
    if s != [] {
      var n := |s| - 1;
      FilterKeepsOrder(s[..n], p, leq);
      var rest := Filter(s[..n], p);
      forall i | 0 <= i < |rest|
        ensures leq(rest[i], s[n]) && rest[i] != s[n]
      {
        assert rest[i] in rest;
        assert rest[i] in s[..n];
      }
    }
  }

  lemma {:induction false} FilterPrefix<T(!new)>(s: seq<T>, p: T -> bool, k: nat)
    requires k <= |s|
    ensures |Filter(s[..k], p)| <= |Filter(s, p)| && Filter(s, p)[..|Filter(s[..k], p)|] == Filter(s[..k], p)
  {
    if k < |s| {
      var n := |s| - 1;
      FilterPrefix(s[..n], p, k);
      assert s[..n][..k] == s[..k];
    } else {
      assert s[..k] == s;
    }
  }

  lemma {:induction false} FilterAll<T(!new)>(s: seq<T>, p: T -> bool)
    requires forall x :: x in s ==> p(x)
    ensures Filter(s, p) == s
  {
    if s != [] {
      assert s[|s| - 1] in s;
      FilterAll(s[..|s| - 1], p);
    }
  }

  lemma {:induction false} FilterNone<T(!new)>(s: seq<T>, p: T -> bool)
    requires forall x :: x in s ==> !p(x)
    ensures Filter(s, p) == []
  {
    if s != [] {
      assert s[|s| - 1] in s;
      FilterNone(s[..|s| - 1], p);
    }
  }
}

/** Iterating an ordered map visits its keys in increasing order. */
module KeyLists {
  import opened KeyOrder
  import opened Sorting

  lemma KeyLeqIsTotal()
    ensures TotalPreorder(KeyLeq) && Antisymmetric(KeyLeq)
  {
    forall a, b
      ensures KeyLeq(a, b) || KeyLeq(b, a)
      ensures KeyLeq(a, b) && KeyLeq(b, a) ==> a == b
    {
      KeyTotal(a, b);
    }
    forall a, b, c | KeyLeq(a, b) && KeyLeq(b, c)
      ensures KeyLeq(a, c)
    {
      KeyTransitive(a, b, c);
    }
  }

  ghost predicate Ordered(keys: seq<string>, s: set<string>) {
    SortedBy(keys, KeyLeq) && Distinct(keys) && forall k :: k in keys <==> k in s
  }

  method InOrder(s: set<string>) returns (keys: seq<string>)
    ensures Ordered(keys, s)
  {
    hide Sort, KeyLeq;
    var rest, unsorted := s, [];
    while rest != {}
      invariant Distinct(unsorted) && rest <= s && forall k :: k in unsorted <==> k in s - rest
      decreases |rest|
    {
      var k :| k in rest;
      assert k !in unsorted;
      assert forall i :: 0 <= i < |unsorted| ==> unsorted[i] in unsorted;
      rest, unsorted := rest - {k}, unsorted + [k];
    }
    keys := Sort(unsorted, KeyLeq);
    KeyLeqIsTotal();
    SortSorted(unsorted, KeyLeq);
    SameElements(unsorted, keys);
    MultisetDistinct(unsorted, keys);
  }

  lemma OrderedUnique(a: seq<string>, b: seq<string>, s: set<string>)
    requires Ordered(a, s) && Ordered(b, s)
    ensures a == b
  {
    KeyLeqIsTotal();
    SortedUnique(a, b, KeyLeq);
  }
}
