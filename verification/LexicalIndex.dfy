/** The lexical index: adding, finalising, searching, scoring and term coverage. */
module LexicalIndex {
  import opened Sorting
  import opened KeyLists
  import opened HitLists
  import opened Bm25
  import opened Bm25Build
  import opened Bm25Search

  // -------------------------------------------------------------------------- coverage

  datatype Slot = Slot(doc: nat, place: nat)

  predicate SlotLeq(a: Slot, b: Slot) { a.doc < b.doc || (a.doc == b.doc && a.place <= b.place) }

  /** How many of the listed terms a document contains. */
  function Covered(postings: Postings, terms: seq<string>, d: nat): nat {
    if terms == [] then 0
    else Covered(postings, terms[..|terms| - 1], d) + if Lists(ListOf(postings, terms[|terms| - 1]), d) then 1 else 0
  }

  /** The listed terms a document contains. */
  function Containing(postings: Postings, terms: seq<string>, d: nat): set<string> {
    set t | t in terms && Lists(ListOf(postings, t), d)
  }

  lemma ContainingLast(postings: Postings, terms: seq<string>, d: nat)
    requires terms != [] && Distinct(terms)
    ensures var t, rest := terms[|terms| - 1], Containing(postings, terms[..|terms| - 1], d);
      t !in rest && Containing(postings, terms, d) == if Lists(ListOf(postings, t), d) then rest + {t} else rest
  {
    hide Lists;
    var n := |terms| - 1;
    assert terms == terms[..n] + [terms[n]];
  }

  /** Over distinct terms that is the number of terms the document contains. */
  lemma {:induction false} CoveredCounts(postings: Postings, terms: seq<string>, d: nat)
    requires Distinct(terms)
    ensures Covered(postings, terms, d) == |Containing(postings, terms, d)|
  {
    hide Containing, Lists;
    if terms == [] {
      NothingContained(postings, d);
    } else {
      CoveredCounts(postings, terms[..|terms| - 1], d);
      ContainingLast(postings, terms, d);
    }
  }

  lemma NothingContained(postings: Postings, d: nat)
    ensures Containing(postings, [], d) == {}
  {
  }

  /** No earlier slot has the document. */
  ghost predicate FirstSlot(slots: seq<Slot>, s: nat)
    requires s < |slots|
  {
    forall r :: 0 <= r < s ==> slots[r].doc != slots[s].doc
  }

  /** No earlier candidate is the same document. */
  ghost predicate FirstAt(docs: seq<nat>, p: nat)
    requires p < |docs|
  {
    forall r :: 0 <= r < p ==> docs[r] != docs[p]
  }

  /** The candidates in document order, each with its place; repeats in the order they came. */
  ghost predicate SlotsOk(slots: seq<Slot>, docs: seq<nat>) {
    |slots| == |docs| && (forall i :: 0 <= i < |slots| ==> slots[i].place < |docs| && docs[slots[i].place] == slots[i].doc) &&
    (forall i, j :: 0 <= i < j < |slots| ==>
      slots[i].doc <= slots[j].doc && (slots[i].doc == slots[j].doc ==> slots[i].place < slots[j].place)) &&
    (forall p :: 0 <= p < |docs| ==> Slot(docs[p], p) in slots)
  }

  /** A slot is the first of its document exactly when its candidate is. */
  lemma FirstIsFirst(slots: seq<Slot>, docs: seq<nat>, i: nat, p: nat)
    requires SlotsOk(slots, docs) && i < |slots| && p < |docs| && slots[i] == Slot(docs[p], p)
    ensures FirstSlot(slots, i) <==> FirstAt(docs, p)
  {
    if FirstSlot(slots, i) {
      forall r | 0 <= r < p
        ensures docs[r] != docs[p]
      {
        var k :| 0 <= k < |slots| && slots[k] == Slot(docs[r], r);
      }
    }
    if FirstAt(docs, p) {
      forall r | 0 <= r < i
        ensures slots[r].doc != slots[i].doc
      {
        assert docs[slots[r].place] == slots[r].doc;
      }
    }
  }

  method SortSlots(docs: seq<nat>) returns (slots: seq<Slot>)
    ensures SlotsOk(slots, docs)
  {
    var unsorted := seq(|docs|, i requires 0 <= i < |docs| => Slot(docs[i], i));
    slots := Sort(unsorted, SlotLeq);
    assert TotalPreorder(SlotLeq);
    SortSorted(unsorted, SlotLeq);
    SameElements(unsorted, slots);
    MultisetDistinct(unsorted, slots);
    SlotsFrom(docs, unsorted, slots);
  }

  lemma SlotsFrom(docs: seq<nat>, unsorted: seq<Slot>, slots: seq<Slot>)
    requires |unsorted| == |docs| == |slots| && (forall i :: 0 <= i < |docs| ==> unsorted[i] == Slot(docs[i], i))
    requires SortedBy(slots, SlotLeq) && Distinct(slots) && forall s :: s in unsorted <==> s in slots
    ensures SlotsOk(slots, docs)
  {
    forall i | 0 <= i < |slots|
      ensures slots[i].place < |docs| && docs[slots[i].place] == slots[i].doc
    {
      assert slots[i] in unsorted;
    }
    forall i, j | 0 <= i < j < |slots|
      ensures slots[i].doc <= slots[j].doc && (slots[i].doc == slots[j].doc ==> slots[i].place < slots[j].place)
    {
      assert SlotLeq(slots[i], slots[j]) && slots[i] != slots[j];
      assert slots[i] in unsorted && slots[j] in unsorted;
    }
    forall p | 0 <= p < |docs|
      ensures Slot(docs[p], p) in slots
    {
      assert unsorted[p] in unsorted;
    }
  }

  /** Where the merge walk stands: the slots before `si` are settled, and neither side has anything left of
      the other's position but repeats of a document that was credited. */
  ghost predicate Walking(list: seq<Posting>, slots: seq<Slot>, pi: nat, si: nat) {
    pi <= |list| && si <= |slots| &&
    (forall p, s :: 0 <= p < pi && si <= s < |slots| ==>
      list[p].doc < slots[s].doc || (list[p].doc == slots[s].doc && !FirstSlot(slots, s))) &&
    (forall p, s :: pi <= p < |list| && 0 <= s < si ==> slots[s].doc < list[p].doc)
  }

  /** The credits of one term for the slots before `si`. */
  ghost predicate Credited(before: seq<nat>, out: seq<nat>, list: seq<Posting>, slots: seq<Slot>, si: nat)
    requires si <= |slots|
  {
    |out| == |before| && (forall s :: 0 <= s < |slots| ==> slots[s].place < |out|) &&
    (forall s :: 0 <= s < si ==> out[slots[s].place] == before[slots[s].place] + Credit(list, slots, s)) &&
    (forall s :: si <= s < |slots| ==> out[slots[s].place] == before[slots[s].place])
  }

  ghost function Credit(list: seq<Posting>, slots: seq<Slot>, s: nat): nat
    requires s < |slots|
  {
    if Lists(list, slots[s].doc) && FirstSlot(slots, s) then 1 else 0
  }

  lemma SkipSlot(before: seq<nat>, out: seq<nat>, list: seq<Posting>, slots: seq<Slot>, pi: nat, si: nat)
    requires Walking(list, slots, pi, si) && si < |slots| && (pi == |list| || slots[si].doc < list[pi].doc)
    requires Ascending(list) && Credited(before, out, list, slots, si)
    ensures Credit(list, slots, si) == 0 && Credited(before, out, list, slots, si + 1)
  {
    forall p | pi <= p < |list|
      ensures slots[si].doc < list[p].doc
    {
      assert pi < p ==> list[pi].doc < list[p].doc;
    }
  }

  lemma CreditSlot(before: seq<nat>, out: seq<nat>, list: seq<Posting>, slots: seq<Slot>, docs: seq<nat>, pi: nat, si: nat)
    requires SlotsOk(slots, docs) && |out| == |docs| && Walking(list, slots, pi, si)
    requires si < |slots| && pi < |list| && list[pi].doc == slots[si].doc && Credited(before, out, list, slots, si)
    ensures Credited(before, out[slots[si].place := out[slots[si].place] + 1], list, slots, si + 1)
  {
    assert Lists(list, slots[si].doc) && FirstSlot(slots, si);
    OtherPlaces(slots, docs, si);
  }

  lemma OtherPlaces(slots: seq<Slot>, docs: seq<nat>, si: nat)
    requires SlotsOk(slots, docs) && si < |slots|
    ensures forall s :: 0 <= s < |slots| && s != si ==> slots[s].place != slots[si].place
  {
  }

  lemma {:induction false} SkipRest(before: seq<nat>, out: seq<nat>, list: seq<Posting>, slots: seq<Slot>, pi: nat, si: nat)
    requires Walking(list, slots, pi, si) && pi == |list| && Ascending(list) && Credited(before, out, list, slots, si)
    ensures Credited(before, out, list, slots, |slots|)
    decreases |slots| - si
  {
    if si < |slots| {
      SkipSlot(before, out, list, slots, pi, si);
      SkipRest(before, out, list, slots, pi, si + 1);
    }
  }

  /** One merge walk of a posting list and the slots: each document is credited once, at its first slot, if it is
      listed. */
  method CreditTerm(before: seq<nat>, list: seq<Posting>, slots: seq<Slot>, ghost docs: seq<nat>) returns (out: seq<nat>)
    requires Ascending(list) && SlotsOk(slots, docs) && |before| == |docs|
    ensures Credited(before, out, list, slots, |slots|)
  {
    hide Ascending, SlotsOk;
    out := before;
    var pi, si := 0, 0;
    NothingCredited(before, list, slots, docs);
    while pi < |list| && si < |slots|
      invariant Walking(list, slots, pi, si) && Credited(before, out, list, slots, si) && |out| == |docs|
      decreases |list| - pi + |slots| - si
    {
      hide Walking, Credited;
      WalkNext(list, slots, docs, pi, si);
      if list[pi].doc < slots[si].doc {
        pi := pi + 1;
      } else if slots[si].doc < list[pi].doc {
        SkipSlot(before, out, list, slots, pi, si);
        si := si + 1;
      } else {
        CreditSlot(before, out, list, slots, docs, pi, si);
        PlaceInRange(slots, docs, si);
        out := out[slots[si].place := out[slots[si].place] + 1];
        pi, si := pi + 1, si + 1;
      }
    }
    if si < |slots| {
      SkipRest(before, out, list, slots, pi, si);
    }
  }

  lemma NothingCredited(before: seq<nat>, list: seq<Posting>, slots: seq<Slot>, docs: seq<nat>)
    requires SlotsOk(slots, docs) && |before| == |docs|
    ensures Walking(list, slots, 0, 0) && Credited(before, before, list, slots, 0)
  {
  }

  lemma PlaceInRange(slots: seq<Slot>, docs: seq<nat>, s: nat)
    requires SlotsOk(slots, docs) && s < |slots|
    ensures slots[s].place < |docs|
  {
  }

  lemma WalkNext(list: seq<Posting>, slots: seq<Slot>, docs: seq<nat>, pi: nat, si: nat)
    requires Walking(list, slots, pi, si) && pi < |list| && si < |slots| && Ascending(list) && SlotsOk(slots, docs)
    ensures list[pi].doc < slots[si].doc ==> Walking(list, slots, pi + 1, si)
    ensures slots[si].doc < list[pi].doc ==> Walking(list, slots, pi, si + 1)
    ensures slots[si].doc == list[pi].doc ==> Walking(list, slots, pi + 1, si + 1)
  {
    hide Walking;
    if list[pi].doc < slots[si].doc {
      PassPosting(list, slots, docs, pi, si);
    } else if slots[si].doc < list[pi].doc {
      PassSlot(list, slots, pi, si);
    } else {
      PassBoth(list, slots, docs, pi, si);
    }
  }

  lemma PassPosting(list: seq<Posting>, slots: seq<Slot>, docs: seq<nat>, pi: nat, si: nat)
    requires Walking(list, slots, pi, si) && pi < |list| && si < |slots| && list[pi].doc < slots[si].doc && SlotsOk(slots, docs)
    ensures Walking(list, slots, pi + 1, si)
  {
    forall s | si <= s < |slots|
      ensures list[pi].doc < slots[s].doc
    {
      assert si < s ==> slots[si].doc <= slots[s].doc;
    }
  }

  lemma PassSlot(list: seq<Posting>, slots: seq<Slot>, pi: nat, si: nat)
    requires Walking(list, slots, pi, si) && pi < |list| && si < |slots| && slots[si].doc < list[pi].doc && Ascending(list)
    ensures Walking(list, slots, pi, si + 1)
  {
    forall p | pi <= p < |list|
      ensures slots[si].doc < list[p].doc
    {
      assert pi < p ==> list[pi].doc < list[p].doc;
    }
  }

  lemma PassBoth(list: seq<Posting>, slots: seq<Slot>, docs: seq<nat>, pi: nat, si: nat)
    requires Walking(list, slots, pi, si) && pi < |list| && si < |slots| && slots[si].doc == list[pi].doc
    requires Ascending(list) && SlotsOk(slots, docs)
    ensures Walking(list, slots, pi + 1, si + 1)
  {
    forall s | si < s < |slots|
      ensures list[pi].doc < slots[s].doc || (list[pi].doc == slots[s].doc && !FirstSlot(slots, s))
    {
      assert slots[si].doc <= slots[s].doc;
    }
    forall p | pi < p < |list|
      ensures slots[si].doc < list[p].doc
    {
      assert list[pi].doc < list[p].doc;
    }
  }

  /** The counts after the first `n` distinct terms. */
  ghost predicate CountedTo(out: seq<nat>, docs: seq<nat>, postings: Postings, terms: seq<string>, n: nat)
    requires n <= |terms|
  {
    |out| == |docs| && forall p :: 0 <= p < |docs| ==> out[p] == if FirstAt(docs, p) then Covered(postings, terms[..n], docs[p]) else 0
  }

  lemma CountedNext(before: seq<nat>, out: seq<nat>, docs: seq<nat>, postings: Postings, terms: seq<string>, n: nat, slots: seq<Slot>)
    requires n < |terms| && CountedTo(before, docs, postings, terms, n) && SlotsOk(slots, docs)
    requires Credited(before, out, ListOf(postings, terms[n]), slots, |slots|)
    ensures CountedTo(out, docs, postings, terms, n + 1)
  {
    assert terms[..n + 1][..n] == terms[..n];
    forall p | 0 <= p < |docs|
      ensures out[p] == if FirstAt(docs, p) then Covered(postings, terms[..n + 1], docs[p]) else 0
    {
      var i :| 0 <= i < |slots| && slots[i] == Slot(docs[p], p);
      FirstIsFirst(slots, docs, i, p);
    }
  }

  lemma CountedMissing(out: seq<nat>, docs: seq<nat>, postings: Postings, terms: seq<string>, n: nat)
    requires n < |terms| && CountedTo(out, docs, postings, terms, n) && terms[n] !in postings
    ensures CountedTo(out, docs, postings, terms, n + 1)
  {
    assert terms[..n + 1][..n] == terms[..n];
    assert forall d :: !Lists(ListOf(postings, terms[n]), d);
  }

  /** The distinct query terms a document contains. */
  function Coverage(postings: Postings, q: seq<string>, d: nat): nat { |Containing(postings, q, d)| }

  // ------------------------------------------------------------------------- the index

  class Bm25Index {
    const params: Params
    var postings: Postings
    var docLen: map<nat, nat>
    var totalLen: nat
    var avgdl: real
    var denseLen: seq<nat>
    var pw: seq<real>
    var pwSpan: map<string, (nat, nat)>
    /** What has been added, in order. */
    ghost var added: seq<Entry>

    ghost predicate Valid()
      reads this
    {
      ParamsOk(params) && Recorded(added, postings, docLen, totalLen)
    }

    /** The derived tables belong to the current postings. */
    ghost predicate Finalized()
      reads this
    {
      Valid() && UniqueIds(added) && DenseOk(denseLen, docLen) &&
      avgdl == (if added == [] then 0.0 else totalLen as real / |added| as real) &&
      WeightsOk(params, postings, docLen, AverageOr1(avgdl), pw, pwSpan, postings.Keys)
    }

    constructor (params: Params)
      requires ParamsOk(params)
      ensures Valid() && added == [] && this.params == params
    {
      this.params := params;
      postings, docLen, totalLen, avgdl, denseLen, pw, pwSpan, added := map[], map[], 0, 0.0, [], [], map[], [];
      new;
      NothingIndexed();
    }

    /** `add`, for a new id or one that was added before. */
    method Add(id: nat, text: string) returns (n: nat)
      requires Valid()
      modifies this
      ensures Valid() && n == |params.tokenize(text)| && added == old(added) + [Entry(id, params.tokenize(text))]
    {
      hide Recorded, Posted, ParamsOk;
      var terms := params.tokenize(text);
      ghost var e := Entry(id, terms);
      if terms == [] {
        ghost var none: map<string, nat> := map[];
        PostedNothing(postings, id, added, docLen, totalLen);
        assert none.Keys == {};
        RecordedNext(added, postings, docLen, totalLen, e, none, postings);
        docLen := docLen[id := 0];
        added := added + [e];
        return 0;
      }
      var tf := CountTerms(terms);
      RecordedPostings(added, postings, docLen, totalLen);
      var after := PostTerms(postings, id, tf);
      RecordedNext(added, postings, docLen, totalLen, e, tf, after);
      postings := after;
      docLen := docLen[id := |terms|];
      totalLen := totalLen + |terms|;
      added := added + [e];
      return |terms|;
    }

    ghost function Snapshot(): Table
      reads this
    {
      Table(params, postings, docLen, AverageOr1(avgdl))
    }

    lemma AverageIs()
      requires Finalized()
      ensures avgdl == MeanLength(added)
    {
      hide WeightsOk, DenseOk, ParamsOk, TfIn, CountIn, TermsOf, Lists, UniqueIds;
    }

    /** `search`: the precomputed weights, the array of lengths, or the hash map; all answer alike. */
    method Search(query: string, k: nat) returns (hits: seq<Hit>)
      requires Finalized()
      ensures Answers(Snapshot(), params.tokenize(query), k, hits)
      ensures BestByReference(params, added, params.tokenize(query), k, hits)
    {
      AverageIs();
      hide BestByReference, Answers, Recorded, Indexed, WeightsOk, DenseOk, ParamsOk, Usable;
      UniqueIndexed(added, postings, docLen, totalLen);
      IndexedUsable(added, postings, docLen, totalLen);
      var x := Table(params, postings, docLen, AverageOr1(avgdl));
      var q := params.tokenize(query);
      if docLen == map[] || q == [] {
        NothingMatches(x, q, k);
        AnswersAreBest(params, added, postings, docLen, totalLen, q, k, []);
        return [];
      }
      if denseLen != [] {
        hits := SearchArray(x, q, denseLen, pw, pwSpan, k);
      } else {
        hits := SearchSparse(x, q, k);
      }
      AnswersAreBest(params, added, postings, docLen, totalLen, q, k, hits);
    }

    method ScoreDocument(q: seq<string>, d: nat) returns (score: real)
      requires Finalized()
      ensures score == Score(Snapshot(), q, d) == Reference(params, added, q, d)
    {
      AverageIs();
      UniqueIndexed(added, postings, docLen, totalLen);
      ScoreIsReference(params, added, postings, docLen, totalLen, q, d);
      hide Recorded, Indexed, WeightsOk, DenseOk, ParamsOk, Usable, Reference;
      IndexedUsable(added, postings, docLen, totalLen);
      score := ScoreDoc(Table(params, postings, docLen, AverageOr1(avgdl)), q, d);
    }

    /** `term_coverage`: how many distinct query terms each candidate contains; a candidate that is listed again
        gets nothing the second time. */
    method TermCoverage(q: seq<string>, docs: seq<nat>) returns (out: seq<nat>)
      requires Valid()
      ensures |out| == |docs|
      ensures forall i :: 0 <= i < |docs| ==> out[i] == if FirstAt(docs, i) then |TermsMentioned(added, q, docs[i])| else 0
    {
      hide TfIn, CountIn, TermsOf, Lists, FirstAt;
      out := seq(|docs|, _ => 0);
      var slots := SortSlots(docs);
      var unique := InOrder(set t | t in q);
      NothingCounted(out, docs, postings, unique);
      for n := 0 to |unique|
        invariant CountedTo(out, docs, postings, unique, n)
      {
        hide CountedTo, Recorded, SlotsOk;
        CountedLength(out, docs, postings, unique, n);
        if unique[n] in postings {
          RecordedPostings(added, postings, docLen, totalLen);
          ghost var before := out;
          out := CreditTerm(out, postings[unique[n]], slots, docs);
          CountedNext(before, out, docs, postings, unique, n, slots);
        } else {
          CountedMissing(out, docs, postings, unique, n);
        }
      }
      CountedAll(out, docs, postings, unique, q);
      CoverageOfTerms(added, postings, docLen, totalLen, q, docs);
    }

    method Finalize()
      requires Valid() && UniqueIds(added)
      modifies this`avgdl, this`denseLen, this`pw, this`pwSpan
      ensures Finalized()
    {
      hide ParamsOk, WeightsOk, Usable, DenseOk, TfIn, CountIn, TermsOf, Lists, PostingsOk, UniqueIds;
      UniqueIndexed(added, postings, docLen, totalLen);
      IndexedUsable(added, postings, docLen, totalLen);
      avgdl := if docLen == map[] then 0.0 else totalLen as real / |docLen| as real;
      assert docLen == map[] <==> added == [];
      denseLen := DenseMirror(docLen);
      pw, pwSpan := AllWeights(params, postings, docLen, denseLen, AverageOr1(avgdl));
    }
  }

  lemma NothingIndexed()
    ensures Recorded([], map[], map[], 0)
  {
  }

  lemma PostedNothing(postings: Postings, id: nat, added: seq<Entry>, docLen: map<nat, nat>, total: nat)
    requires Recorded(added, postings, docLen, total)
    ensures Posted(postings, postings, id, map[], {})
  {
    hide TfIn, Lists, TermsOf, CountIn;
  }

  lemma RecordedPostings(added: seq<Entry>, postings: Postings, docLen: map<nat, nat>, total: nat)
    requires Recorded(added, postings, docLen, total)
    ensures PostingsOk(postings)
  {
    hide TfIn, Lists, TermsOf, CountIn;
  }

  lemma NothingCounted(out: seq<nat>, docs: seq<nat>, postings: Postings, terms: seq<string>)
    requires |out| == |docs| && forall i :: 0 <= i < |out| ==> out[i] == 0
    ensures CountedTo(out, docs, postings, terms, 0)
  {
  }

  lemma CountedLength(out: seq<nat>, docs: seq<nat>, postings: Postings, terms: seq<string>, n: nat)
    requires n <= |terms| && CountedTo(out, docs, postings, terms, n)
    ensures |out| == |docs|
  {
  }

  lemma CountedAll(out: seq<nat>, docs: seq<nat>, postings: Postings, terms: seq<string>, q: seq<string>)
    requires CountedTo(out, docs, postings, terms, |terms|) && Ordered(terms, set t | t in q)
    ensures |out| == |docs|
    ensures forall i :: 0 <= i < |docs| ==> out[i] == if FirstAt(docs, i) then Coverage(postings, q, docs[i]) else 0
  {
    hide FirstAt;
    assert terms[..|terms|] == terms;
    forall i | 0 <= i < |docs|
      ensures Covered(postings, terms, docs[i]) == Coverage(postings, q, docs[i])
    {
      CoveredCounts(postings, terms, docs[i]);
      assert Containing(postings, terms, docs[i]) == Containing(postings, q, docs[i]);
    }
  }

  /** The query terms that occur in some text added under the id. */
  ghost function TermsMentioned(added: seq<Entry>, q: seq<string>, d: nat): set<string> {
    set t | t in q && Mentions(added, d, t)
  }

  lemma CoverageOfTerms(added: seq<Entry>, postings: Postings, docLen: map<nat, nat>, total: nat, q: seq<string>, docs: seq<nat>)
    requires Recorded(added, postings, docLen, total)
    ensures forall i :: 0 <= i < |docs| ==> Coverage(postings, q, docs[i]) == |TermsMentioned(added, q, docs[i])|
  {
    hide TfIn, CountIn, TermsOf, Lists, PostingsOk, LastCount, Mentions;
    forall i | 0 <= i < |docs|
      ensures Coverage(postings, q, docs[i]) == |TermsMentioned(added, q, docs[i])|
    {
      forall t
        ensures Lists(ListOf(postings, t), docs[i]) <==> Mentions(added, docs[i], t)
      {
        MentionsCounted(added, docs[i], t);
      }
      assert Containing(postings, q, docs[i]) == TermsMentioned(added, q, docs[i]);
    }
  }

  // ------------------------------------------------- the score from the documents alone

  /** The documents that contain a term. */
  function Holders(added: seq<Entry>, t: string): set<nat> { set e | e in added && t in TermsOf(added, e.id) :: e.id }

  function MeanLength(added: seq<Entry>): real { if added == [] then 0.0 else TotalTerms(added) as real / |added| as real }

  /** Okapi BM25 written down from the documents: no postings, no tables. */
  function Reference(p: Params, added: seq<Entry>, q: seq<string>, d: nat): real {
    if q == [] then 0.0
    else
      var t, terms := q[|q| - 1], TermsOf(added, d);
      Reference(p, added, q[..|q| - 1], d) +
      if t in terms then p.idf(|added|, |Holders(added, t)|) * Okapi(p, CountIn(terms, t) as real, |terms| as real, MeanLength(added))
      else 0.0
  }

  /** The formula itself: frequency `f` in a document of length `dl`, mean length `mean`. */
  function Okapi(p: Params, f: real, dl: real, mean: real): real {
    var below := f + p.k1 * (1.0 - p.b + p.b * dl / (if mean > 0.0 then mean else 1.0));
    if below > 0.0 then f * (p.k1 + 1.0) / below else 0.0
  }

  /** The weight of the index is that of the formula. */
  lemma WeightIsOkapi(p: Params, f: nat, dl: real, mean: real)
    ensures Weight(p, f, dl, AverageOr1(mean)) == Okapi(p, f as real, dl, mean)
  {
  }

  /** The hits of a query in terms of the documents: at most k, best first, no document twice, each a document with a query
      term under its BM25 score, and no such document left out for a worse one. */
  ghost predicate BestByReference(p: Params, added: seq<Entry>, q: seq<string>, k: nat, hits: seq<Hit>) {
    |hits| <= k && SortedBy(hits, Better) && DistinctIds(hits) &&
    (forall h :: h in hits ==> HasTerm(added, q, h.id) && h.score == Reference(p, added, q, h.id)) &&
    (forall d :: HasTerm(added, q, d) ==> Ranked(hits, k, Hit(d, Reference(p, added, q, d))))
  }

  ghost predicate HasTerm(added: seq<Entry>, q: seq<string>, d: nat) { exists t :: t in q && t in TermsOf(added, d) }

  lemma AnswersAreBest(p: Params, added: seq<Entry>, postings: Postings, docLen: map<nat, nat>, total: nat, q: seq<string>, k: nat,
                       hits: seq<Hit>)
    requires Indexed(added, postings, docLen, total)
    requires Answers(Table(p, postings, docLen, AverageOr1(MeanLength(added))), q, k, hits)
    ensures BestByReference(p, added, q, k, hits)
  {
    var x := Table(p, postings, docLen, AverageOr1(MeanLength(added)));
    hide Indexed, Score, Reference, Ranked;
    forall d
      ensures Matches(x, q, d) <==> HasTerm(added, q, d)
      ensures Score(x, q, d) == Reference(p, added, q, d)
    {
      MatchesTerm(p, added, postings, docLen, total, q, d);
      ScoreIsReference(p, added, postings, docLen, total, q, d);
    }
    hide Matches, HasTerm;
  }

  lemma MatchesTerm(p: Params, added: seq<Entry>, postings: Postings, docLen: map<nat, nat>, total: nat, q: seq<string>, d: nat)
    requires Indexed(added, postings, docLen, total)
    ensures Matches(Table(p, postings, docLen, AverageOr1(MeanLength(added))), q, d) <==> HasTerm(added, q, d)
  {
    hide TfIn, CountIn, TermsOf, TotalTerms, LengthsOk, Lists;
    var x := Table(p, postings, docLen, AverageOr1(MeanLength(added)));
    forall i | 0 <= i < |q|
      ensures Contains(x, q[i], d) <==> q[i] in TermsOf(added, d)
    {
    }
    if t :| t in q && t in TermsOf(added, d) {
      var i :| 0 <= i < |q| && q[i] == t;
      assert Contains(x, q[i], d);
    }
  }

  function DocsIn(list: seq<Posting>): set<nat> { set p | p in list :: p.doc }

  lemma DocsInLast(list: seq<Posting>)
    requires list != []
    ensures DocsIn(list) == DocsIn(list[..|list| - 1]) + {list[|list| - 1].doc}
  {
    var n := |list| - 1;
    assert list == list[..n] + [list[n]];
  }

  lemma LastIsNew(list: seq<Posting>)
    requires Ascending(list) && list != []
    ensures list[|list| - 1].doc !in DocsIn(list[..|list| - 1])
  {
  }

  lemma {:induction false} DocCount(list: seq<Posting>)
    requires Ascending(list)
    ensures |DocsIn(list)| == |list|
  {
    if list != [] {
      DocCount(list[..|list| - 1]);
      DocsInLast(list);
      LastIsNew(list);
      hide DocsIn;
    }
  }

  /** A posting list is as long as there are documents with the term. */
  lemma ListLength(added: seq<Entry>, postings: Postings, docLen: map<nat, nat>, total: nat, t: string)
    requires Indexed(added, postings, docLen, total)
    ensures |ListOf(postings, t)| == |Holders(added, t)|
  {
    hide TfIn, CountIn, TermsOf, TotalTerms, LengthsOk;
    var list := ListOf(postings, t);
    DocCount(list);
    var docs := DocsIn(list);
    forall d | d in docs
      ensures d in Holders(added, t)
    {
      var p :| p in list && p.doc == d;
      assert Lists(list, d);
      HolderEntry(added, t, d);
    }
    forall d | d in Holders(added, t)
      ensures d in docs
    {
      assert Lists(list, d);
      var i :| 0 <= i < |list| && list[i].doc == d;
      assert list[i] in list;
    }
    assert docs == Holders(added, t);
  }

  lemma HolderEntry(added: seq<Entry>, t: string, d: nat)
    requires t in TermsOf(added, d)
    ensures d in Holders(added, t)
  {
    if !HasId(added, d) {
      NoTerms(added, d);
    }
    var i :| 0 <= i < |added| && added[i].id == d;
    assert added[i] in added;
  }

  /** The score the index computes is the score of the documents. */
  lemma {:induction false} ScoreIsReference(p: Params, added: seq<Entry>, postings: Postings, docLen: map<nat, nat>, total: nat, q: seq<string>, d: nat)
    requires Indexed(added, postings, docLen, total)
    ensures Score(Table(p, postings, docLen, AverageOr1(MeanLength(added))), q, d) == Reference(p, added, q, d)
  {
    hide Weight, Okapi, TfIn, CountIn, TermsOf, Holders, PostingsOk;
    if q != [] {
      ScoreIsReference(p, added, postings, docLen, total, q[..|q| - 1], d);
      var t := q[|q| - 1];
      ListLength(added, postings, docLen, total, t);
      if t in TermsOf(added, d) {
        HolderLength(added, postings, docLen, total, t, d);
        WeightIsOkapi(p, CountIn(TermsOf(added, d), t), |TermsOf(added, d)| as real, MeanLength(added));
      }
    }
  }

  lemma HolderLength(added: seq<Entry>, postings: Postings, docLen: map<nat, nat>, total: nat, t: string, d: nat)
    requires Indexed(added, postings, docLen, total) && t in TermsOf(added, d)
    ensures d in docLen && docLen[d] == |TermsOf(added, d)|
  {
    hide TfIn, CountIn, TotalTerms, PostingsOk, Lists;
    if !HasId(added, d) {
      NoTerms(added, d);
    }
  }
}
