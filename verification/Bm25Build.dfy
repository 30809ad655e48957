/** Adding documents and finalising. */
module Bm25Build {
  import opened Wrappers
  import opened Bm25

  type Postings = map<string, seq<Posting>>

  datatype Entry = Entry(id: nat, terms: seq<string>)

  function TermsOf(added: seq<Entry>, d: nat): seq<string> {
    if added == [] then []
    else if added[|added| - 1].id == d then added[|added| - 1].terms
    else TermsOf(added[..|added| - 1], d)
  }

  function TotalTerms(added: seq<Entry>): nat {
    if added == [] then 0 else TotalTerms(added[..|added| - 1]) + |added[|added| - 1].terms|
  }

  function ListOf(postings: Postings, t: string): seq<Posting> { GetOr(postings, t, []) }

  // ------------------------------------------------------------------- what was added

  /** Some text added under the id has the term. */
  ghost predicate Mentions(added: seq<Entry>, d: nat, t: string) {
    exists i :: 0 <= i < |added| && added[i].id == d && t in added[i].terms
  }

  /** How often the term occurs in the last text of the id that has it at all. */
  function LastCount(added: seq<Entry>, d: nat, t: string): nat {
    if added == [] then 0
    else
      var e := added[|added| - 1];
      if e.id == d && t in e.terms then CountIn(e.terms, t) else LastCount(added[..|added| - 1], d, t)
  }

  lemma {:induction false} MentionsCounted(added: seq<Entry>, d: nat, t: string)
    ensures LastCount(added, d, t) > 0 <==> Mentions(added, d, t)
  {
    if added != [] {
      var n := |added| - 1;
      MentionsCounted(added[..n], d, t);
      CountPositive(added[n].terms, t);
      assert Mentions(added[..n], d, t) ==> Mentions(added, d, t) by {
        if i :| 0 <= i < n && added[..n][i].id == d && t in added[..n][i].terms {
          assert added[i].id == d;
        }
      }
    }
  }

  /** Ids are not used twice, as callers must see to. */
  ghost predicate UniqueIds(added: seq<Entry>) {
    forall i, j :: 0 <= i < j < |added| ==> added[i].id != added[j].id
  }

  /** What the index says after any additions, also of ids added again: an earlier text's terms stay, the newer
      text overwrites the frequencies it has, and the length is the last one. */
  ghost predicate Recorded(added: seq<Entry>, postings: Postings, docLen: map<nat, nat>, total: nat) {
    PostingsOk(postings) && total == TotalTerms(added) &&
    (forall d :: d in docLen <==> HasId(added, d)) && (forall d :: d in docLen ==> docLen[d] == |TermsOf(added, d)|) &&
    forall t, d :: TfIn(ListOf(postings, t), d) == LastCount(added, d, t) &&
                   (Lists(ListOf(postings, t), d) <==> LastCount(added, d, t) > 0)
  }

  lemma {:induction false} UniqueCount(added: seq<Entry>, d: nat, t: string)
    requires UniqueIds(added)
    ensures LastCount(added, d, t) == CountIn(TermsOf(added, d), t)
  {
    if added != [] {
      var n := |added| - 1;
      UniqueCount(added[..n], d, t);
      if added[n].id == d {
        NoTerms(added[..n], d);
        CountPositive(added[n].terms, t);
      }
    }
  }

  function IdsIn(added: seq<Entry>): set<nat> { set e | e in added :: e.id }

  lemma {:induction false} UniqueSize(added: seq<Entry>)
    requires UniqueIds(added)
    ensures |IdsIn(added)| == |added|
  {
    if added != [] {
      var n := |added| - 1;
      UniqueSize(added[..n]);
      assert added == added[..n] + [added[n]];
      assert IdsIn(added) == IdsIn(added[..n]) + {added[n].id};
      assert added[n].id !in IdsIn(added[..n]);
    }
  }

  lemma SameIds(added: seq<Entry>, docLen: map<nat, nat>)
    requires UniqueIds(added) && forall d :: d in docLen <==> HasId(added, d)
    ensures |docLen| == |added|
  {
    UniqueSize(added);
    forall d | d in IdsIn(added)
      ensures d in docLen
    {
      var e :| e in added && e.id == d;
      var i :| 0 <= i < |added| && added[i] == e;
      assert HasId(added, d);
    }
    forall d | d in docLen
      ensures d in IdsIn(added)
    {
      var i :| 0 <= i < |added| && added[i].id == d;
      assert added[i] in added;
    }
    assert docLen.Keys == IdsIn(added);
    assert |docLen| == |docLen.Keys|;
  }

  /** With unique ids the index says of every term and document what the document says. */
  lemma UniqueIndexed(added: seq<Entry>, postings: Postings, docLen: map<nat, nat>, total: nat)
    requires Recorded(added, postings, docLen, total) && UniqueIds(added)
    ensures Indexed(added, postings, docLen, total)
  {
    hide TfIn, Lists, CountIn, TermsOf, HasId, UniqueIds, LastCount, TotalTerms;
    SameIds(added, docLen);
    forall t, d
      ensures LastCount(added, d, t) == CountIn(TermsOf(added, d), t)
      ensures LastCount(added, d, t) > 0 <==> t in TermsOf(added, d)
    {
      UniqueCount(added, d, t);
      CountPositive(TermsOf(added, d), t);
    }
  }

  /** The index says of every term and document what the documents that were added say. */
  ghost predicate Indexed(added: seq<Entry>, postings: Postings, docLen: map<nat, nat>, total: nat) {
    PostingsOk(postings) && LengthsOk(added, docLen) && total == TotalTerms(added) &&
    forall t, d :: TfIn(ListOf(postings, t), d) == CountIn(TermsOf(added, d), t) &&
                   (Lists(ListOf(postings, t), d) <==> t in TermsOf(added, d))
  }

  ghost predicate PostingsOk(postings: Postings) { forall t :: t in postings ==> Ascending(postings[t]) && postings[t] != [] }

  ghost predicate LengthsOk(added: seq<Entry>, docLen: map<nat, nat>) {
    |docLen| == |added| && (forall d :: d in docLen <==> HasId(added, d)) &&
    forall d :: d in docLen ==> docLen[d] == |TermsOf(added, d)|
  }

  predicate HasId(added: seq<Entry>, d: nat) { exists i :: 0 <= i < |added| && added[i].id == d }

  lemma {:induction false} NoTerms(added: seq<Entry>, d: nat)
    requires !HasId(added, d)
    ensures TermsOf(added, d) == []
  {
    if added != [] {
      NoTerms(added[..|added| - 1], d);
    }
  }

  lemma AddedNext(added: seq<Entry>, e: Entry)
    ensures forall d :: TermsOf(added + [e], d) == if d == e.id then e.terms else TermsOf(added, d)
    ensures forall d :: HasId(added + [e], d) <==> HasId(added, d) || d == e.id
    ensures TotalTerms(added + [e]) == TotalTerms(added) + |e.terms|
  {
    var all := added + [e];
    assert all[..|added|] == added;
    forall d
      ensures HasId(all, d) <==> HasId(added, d) || d == e.id
    {
      if HasId(added, d) {
        var i :| 0 <= i < |added| && added[i].id == d;
        assert all[i].id == d;
      }
      assert all[|added|].id == e.id;
    }
  }

  /** The document has been entered under these terms and nowhere else. */
  ghost predicate Posted(before: Postings, after: Postings, id: nat, tf: map<string, nat>, done: set<string>)
    requires done <= tf.Keys
  {
    PostingsOk(after) &&
    (forall t, d :: TfIn(ListOf(after, t), d) == if d == id && t in done then tf[t] else TfIn(ListOf(before, t), d)) &&
    (forall t, d :: Lists(ListOf(after, t), d) <==> Lists(ListOf(before, t), d) || (d == id && t in done))
  }

  lemma PostedNext(before: Postings, postings: Postings, id: nat, tf: map<string, nat>, done: set<string>, t: string)
    requires done <= tf.Keys && t in tf && Posted(before, postings, id, tf, done)
    ensures Posted(before, postings[t := PutPosting(ListOf(postings, t), Posting(id, tf[t]))], id, tf, done + {t})
  {
    hide TfIn, Lists, Ascending, PutPosting;
    EmptyAscending();
    PutPostingIs(ListOf(postings, t), Posting(id, tf[t]));
    var after := postings[t := PutPosting(ListOf(postings, t), Posting(id, tf[t]))];
    forall s, d
      ensures TfIn(ListOf(after, s), d) == if d == id && s in done + {t} then tf[s] else TfIn(ListOf(before, s), d)
      ensures Lists(ListOf(after, s), d) <==> Lists(ListOf(before, s), d) || (d == id && s in done + {t})
    {
      assert s != t ==> ListOf(after, s) == ListOf(postings, s);
    }
  }

  /** Each term's list gets the document's frequency. */
  method PostTerms(before: Postings, id: nat, tf: map<string, nat>) returns (postings: Postings)
    requires PostingsOk(before)
    ensures Posted(before, postings, id, tf, tf.Keys)
  {
    hide TfIn, Lists, Ascending, PutPosting;
    postings := before;
    var rest := tf.Keys;
    assert tf.Keys - rest == {};
    while rest != {}
      invariant rest <= tf.Keys && Posted(before, postings, id, tf, tf.Keys - rest)
      decreases |rest|
    {
      hide Posted;
      var t :| t in rest;
      PostedNext(before, postings, id, tf, tf.Keys - rest, t);
      assert tf.Keys - rest + {t} == tf.Keys - (rest - {t});
      postings := postings[t := PutPosting(ListOf(postings, t), Posting(id, tf[t]))];
      rest := rest - {t};
    }
    assert tf.Keys - {} == tf.Keys;
  }

  lemma EmptyAscending()
    ensures Ascending([])
  {
  }

  lemma RecordedNext(added: seq<Entry>, before: Postings, docLen: map<nat, nat>, total: nat, e: Entry, tf: map<string, nat>, after: Postings)
    requires Recorded(added, before, docLen, total)
    requires (forall t :: t in tf <==> t in e.terms) && (forall t :: t in tf ==> tf[t] == CountIn(e.terms, t))
    requires Posted(before, after, e.id, tf, tf.Keys)
    ensures Recorded(added + [e], after, docLen[e.id := |e.terms|], total + |e.terms|)
  {
    hide TfIn, Lists, PostingsOk, TermsOf, HasId, CountIn, TotalTerms, LastCount;
    AddedNext(added, e);
    forall t, d
      ensures TfIn(ListOf(after, t), d) == LastCount(added + [e], d, t)
      ensures Lists(ListOf(after, t), d) <==> LastCount(added + [e], d, t) > 0
    {
      LastCountNext(added, e, d, t);
      CountPositive(e.terms, t);
    }
  }

  lemma LastCountNext(added: seq<Entry>, e: Entry, d: nat, t: string)
    ensures LastCount(added + [e], d, t) == if e.id == d && t in e.terms then CountIn(e.terms, t) else LastCount(added, d, t)
  {
    assert (added + [e])[..|added|] == added;
  }

  // ------------------------------------------------------------------------ finalising

  /** Every posting names a document with at least one term, which occurs in it. */
  ghost predicate Usable(postings: Postings, docLen: map<nat, nat>) {
    PostingsOk(postings) &&
    forall t, i :: t in postings && 0 <= i < |postings[t]| ==> PostingOk(postings[t][i], docLen)
  }

  predicate PostingOk(p: Posting, docLen: map<nat, nat>) { p.doc in docLen && docLen[p.doc] > 0 && p.tf > 0 }

  lemma {:induction false} TfAt(list: seq<Posting>, i: nat)
    requires Ascending(list) && i < |list|
    ensures TfIn(list, list[i].doc) == list[i].tf
  {
    if i > 0 {
      assert list[0].doc < list[i].doc;
      TfAt(list[1..], i - 1);
    }
  }

  lemma IndexedUsable(added: seq<Entry>, postings: Postings, docLen: map<nat, nat>, total: nat)
    requires Indexed(added, postings, docLen, total)
    ensures Usable(postings, docLen)
  {
    hide TfIn, CountIn, TermsOf, TotalTerms;
    forall t, i | t in postings && 0 <= i < |postings[t]|
      ensures PostingOk(postings[t][i], docLen)
    {
      var d := postings[t][i].doc;
      assert Lists(ListOf(postings, t), d);
      TfAt(postings[t], i);
      CountPositive(TermsOf(added, d), t);
      if !HasId(added, d) {
        NoTerms(added, d);
      }
    }
  }

  /** The array mirror of the lengths: the lengths themselves, and zero in between. */
  ghost predicate DenseOk(dense: seq<nat>, docLen: map<nat, nat>) {
    dense == [] ||
    ((forall d :: d in docLen ==> d < |dense| && dense[d] == docLen[d]) && forall i :: 0 <= i < |dense| && i !in docLen ==> dense[i] == 0)
  }

  /** The mirror exists when ids are at most twice as many as documents. */
  method DenseMirror(docLen: map<nat, nat>) returns (dense: seq<nat>)
    ensures DenseOk(dense, docLen)
    ensures dense != [] <==> docLen != map[] && forall d :: d in docLen ==> d < 2 * |docLen|
  {
    var rest, maxDoc := docLen.Keys, 0;
    while rest != {}
      invariant rest <= docLen.Keys && forall d :: d in docLen && d !in rest ==> d <= maxDoc
      invariant maxDoc == 0 || maxDoc in docLen
      decreases |rest|
    {
      var d :| d in rest;
      maxDoc := if d > maxDoc then d else maxDoc;
      rest := rest - {d};
    }
    if docLen == map[] {
      return [];
    }
    assert |docLen| > 0 by { assert |docLen.Keys| == |docLen|; assert docLen.Keys != {}; }
    if maxDoc >= 2 * |docLen| {
      return [];
    }
    dense := seq(maxDoc + 1, _ => 0);
    rest := docLen.Keys;
    while rest != {}
      invariant rest <= docLen.Keys && |dense| == maxDoc + 1
      invariant forall d :: d in docLen && d !in rest ==> dense[d] == docLen[d]
      invariant forall i :: 0 <= i < |dense| && i !in docLen ==> dense[i] == 0
      decreases |rest|
    {
      var d :| d in rest;
      dense := dense[d := docLen[d]];
      rest := rest - {d};
    }
  }

  function AverageOr1(avgdl: real): (a: real)
    ensures a > 0.0
  {
    if avgdl > 0.0 then avgdl else 1.0
  }

  /** The weight of a posting of the index. */
  function PostingWeight(p: Params, x: Posting, docLen: map<nat, nat>, avgdl: real): real
    requires avgdl > 0.0
  {
    Weight(p, x.tf, GetOr(docLen, x.doc, 0) as real, avgdl)
  }

  /** A term's span of the flat weight array holds the weights of its postings, in order. */
  ghost predicate SpanOk(p: Params, list: seq<Posting>, docLen: map<nat, nat>, avgdl: real, pw: seq<real>, span: (nat, nat))
    requires avgdl > 0.0
  {
    span.0 + |list| == span.1 <= |pw| &&
    forall i :: 0 <= i < |list| ==> pw[span.0 + i] == PostingWeight(p, list[i], docLen, avgdl)
  }

  ghost predicate WeightsOk(p: Params, postings: Postings, docLen: map<nat, nat>, avgdl: real, pw: seq<real>, spans: map<string, (nat, nat)>, terms: set<string>)
    requires avgdl > 0.0 && terms <= postings.Keys
  {
    spans.Keys == terms && (forall t :: t in terms ==> SpanOk(p, postings[t], docLen, avgdl, pw, spans[t])) &&
    (pw == [] <==> terms == {})
  }

  /** The weights of one list, computed from whichever length table is at hand. */
  method ListWeights(p: Params, list: seq<Posting>, docLen: map<nat, nat>, dense: seq<nat>, avgdl: real) returns (ws: seq<real>)
    requires ParamsOk(p) && avgdl > 0.0 && DenseOk(dense, docLen) && forall i :: 0 <= i < |list| ==> PostingOk(list[i], docLen)
    ensures |ws| == |list| && forall i :: 0 <= i < |list| ==> ws[i] == PostingWeight(p, list[i], docLen, avgdl)
  {
    hide ParamsOk, Denominator, FlatDenominator;
    ws := [];
    var inv := 1.0 / avgdl;
    for i := 0 to |list|
      invariant |ws| == i && forall j :: 0 <= j < i ==> ws[j] == PostingWeight(p, list[j], docLen, avgdl)
    {
      var x := list[i];
      var dl := avgdl;
      if dense != [] && x.doc < |dense| {
        if dense[x.doc] != 0 {
          dl := dense[x.doc] as real;
        }
      } else if x.doc in docLen {
        dl := docLen[x.doc] as real;
      }
      assert PostingOk(x, docLen);
      assert dl == docLen[x.doc] as real;
      DenominatorPositive(p, x.tf, dl, avgdl);
      var num := x.tf as real * (p.k1 + 1.0);
      var den := FlatDenominator(p, x.tf, dl, inv);
      ws := ws + [if den > 0.0 then num / den else 0.0];
    }
  }

  lemma SpansKeep(p: Params, postings: Postings, docLen: map<nat, nat>, avgdl: real, pw: seq<real>, spans: map<string, (nat, nat)>,
                  terms: set<string>, t: string, ws: seq<real>)
    requires avgdl > 0.0 && terms <= postings.Keys && WeightsOk(p, postings, docLen, avgdl, pw, spans, terms)
    requires t in postings && postings[t] != [] && |ws| == |postings[t]|
    requires forall i :: 0 <= i < |ws| ==> ws[i] == PostingWeight(p, postings[t][i], docLen, avgdl)
    ensures WeightsOk(p, postings, docLen, avgdl, pw + ws, spans[t := (|pw|, |pw| + |ws|)], terms + {t})
  {
    hide PostingWeight, SpanOk;
    var next, after := spans[t := (|pw|, |pw| + |ws|)], terms + {t};
    SpanNew(p, postings[t], docLen, avgdl, pw, ws);
    forall s | s in after
      ensures SpanOk(p, postings[s], docLen, avgdl, pw + ws, next[s])
    {
      if s != t {
        SpanGrows(p, postings[s], docLen, avgdl, pw, ws, spans[s]);
      }
    }
  }

  lemma SpanGrows(p: Params, list: seq<Posting>, docLen: map<nat, nat>, avgdl: real, pw: seq<real>, ws: seq<real>, span: (nat, nat))
    requires avgdl > 0.0 && SpanOk(p, list, docLen, avgdl, pw, span)
    ensures SpanOk(p, list, docLen, avgdl, pw + ws, span)
  {
    hide PostingWeight;
  }

  lemma SpanNew(p: Params, list: seq<Posting>, docLen: map<nat, nat>, avgdl: real, pw: seq<real>, ws: seq<real>)
    requires avgdl > 0.0 && |ws| == |list|
    requires forall i :: 0 <= i < |ws| ==> ws[i] == PostingWeight(p, list[i], docLen, avgdl)
    ensures SpanOk(p, list, docLen, avgdl, pw + ws, (|pw|, |pw| + |ws|))
  {
    hide PostingWeight;
  }

  /** Every posting's weight, laid out term by term. */
  method AllWeights(p: Params, postings: Postings, docLen: map<nat, nat>, dense: seq<nat>, avgdl: real)
    returns (pw: seq<real>, spans: map<string, (nat, nat)>)
    requires ParamsOk(p) && avgdl > 0.0 && DenseOk(dense, docLen) && Usable(postings, docLen)
    ensures WeightsOk(p, postings, docLen, avgdl, pw, spans, postings.Keys)
  {
    hide ParamsOk, PostingOk, PostingWeight, Ascending, DenseOk, SpanOk;
    pw, spans := [], map[];
    var rest := postings.Keys;
    while rest != {}
      invariant rest <= postings.Keys && WeightsOk(p, postings, docLen, avgdl, pw, spans, postings.Keys - rest)
      decreases |rest|
    {
      hide WeightsOk;
      var t :| t in rest;
      var ws := ListWeights(p, postings[t], docLen, dense, avgdl);
      SpansKeep(p, postings, docLen, avgdl, pw, spans, postings.Keys - rest, t, ws);
      assert postings.Keys - rest + {t} == postings.Keys - (rest - {t});
      pw, spans := pw + ws, spans[t := (|pw|, |pw| + |ws|)];
      rest := rest - {t};
    }
    assert postings.Keys - {} == postings.Keys;
  }
}
