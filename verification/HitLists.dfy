/** Ranked results: the first k by score. */
module HitLists {
  import opened Sorting

  datatype Hit = Hit(id: nat, score: real)

  predicate Better(a: Hit, b: Hit) { a.score >= b.score }

  ghost predicate DistinctIds(hits: seq<Hit>) {
    forall i, j :: 0 <= i < j < |hits| ==> hits[i].id != hits[j].id
  }

  /** Returned, or crowded out by k hits that score no less. */
  ghost predicate Ranked(hits: seq<Hit>, k: nat, h: Hit) {
    h in hits || (|hits| == k && forall x :: x in hits ==> x.score >= h.score)
  }

  /** The first k of the sorted hits. */
  lemma TopHits(all: seq<Hit>, k: nat, hits: seq<Hit>)
    requires DistinctIds(all) && hits == if |all| > k then Sort(all, Better)[..k] else Sort(all, Better)
    ensures |hits| <= k && SortedBy(hits, Better) && DistinctIds(hits) && (forall h :: h in hits ==> h in all)
    ensures forall h :: h in all ==> Ranked(hits, k, h)
  {
    hide Sort;
    var s := Sort(all, Better);
    SortedHits(all);
    hide DistinctIds;
    forall h | h in all
      ensures Ranked(hits, k, h)
    {
      var i :| 0 <= i < |s| && s[i] == h;
      if i < |hits| {
        assert hits[i] == h;
      }
    }
    FirstHits(s, hits);
  }

  lemma FirstHits(s: seq<Hit>, hits: seq<Hit>)
    requires DistinctIds(s) && |hits| <= |s| && hits == s[..|hits|]
    ensures DistinctIds(hits)
  {
  }

  lemma SortedHits(all: seq<Hit>)
    requires DistinctIds(all)
    ensures var s := Sort(all, Better); SortedBy(s, Better) && DistinctIds(s) && |s| == |all| && forall h :: h in s <==> h in all
  {
    var s := Sort(all, Better);
    assert TotalPreorder(Better);
    SortSorted(all, Better);
    SameElements(all, s);
    assert Distinct(all);
    MultisetDistinct(all, s);
    OneHitEach(all);
    hide Sort, DistinctIds;
    SameIds(all, s);
  }

  lemma OneHitEach(all: seq<Hit>)
    requires DistinctIds(all)
    ensures forall x, y :: x in all && y in all && x.id == y.id ==> x == y
  {
  }

  lemma SameIds(all: seq<Hit>, s: seq<Hit>)
    requires Distinct(s) && (forall h :: h in s ==> h in all) && forall x, y :: x in all && y in all && x.id == y.id ==> x == y
    ensures DistinctIds(s)
  {
    forall i, j | 0 <= i < j < |s|
      ensures s[i].id != s[j].id
    {
      assert s[i] in all && s[j] in all;
    }
  }
}
