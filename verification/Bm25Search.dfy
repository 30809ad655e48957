/** Scoring: the reference sum over the query terms, and the accumulators that compute it. */
module Bm25Search {
  import opened Wrappers
  import opened Collections
  import opened Sorting
  import opened HitLists
  import opened Bm25
  import opened Bm25Build

  type Length = r: real | r > 0.0 witness 1.0

  /** What a query reads. */
  datatype Table = Table(params: Params, postings: Postings, docLen: map<nat, nat>, avgdl: Length)

  ghost predicate TableOk(x: Table) { ParamsOk(x.params) && Usable(x.postings, x.docLen) }

  predicate Contains(x: Table, t: string, d: nat) { Lists(ListOf(x.postings, t), d) }

  /** What one query term contributes to a document's score. */
  function Share(x: Table, t: string, d: nat): real
  {
    var list := ListOf(x.postings, t);
    if Contains(x, t, d) then
      x.params.idf(|x.docLen|, |list|) * Weight(x.params, TfIn(list, d), GetOr(x.docLen, d, 0) as real, x.avgdl)
    else 0.0
  }

  /** The score of a document: the sum over the query terms, repeated terms counting again. */
  function Score(x: Table, q: seq<string>, d: nat): real
  {
    if q == [] then 0.0 else Score(x, q[..|q| - 1], d) + Share(x, q[|q| - 1], d)
  }

  ghost predicate Matches(x: Table, q: seq<string>, d: nat) { exists i :: 0 <= i < |q| && Contains(x, q[i], d) }

  lemma {:induction false} ListFits(list: seq<Posting>, docLen: map<nat, nat>)
    requires Ascending(list) && forall i :: 0 <= i < |list| ==> list[i].doc in docLen
    ensures |list| <= |docLen|
  {
    if list != [] {
      var n := |list| - 1;
      var d := list[n].doc;
      var rest := docLen - {d};
      assert rest.Keys == docLen.Keys - {d};
      assert |docLen| == |docLen.Keys| && |rest| == |rest.Keys|;
      ListFits(list[..n], rest);
    }
  }

  lemma TermFacts(x: Table, t: string)
    requires TableOk(x)
    ensures var list := ListOf(x.postings, t);
      Ascending(list) && (forall i :: 0 <= i < |list| ==> PostingOk(list[i], x.docLen)) &&
      x.params.idf(|x.docLen|, |list|) > 0.0
  {
    var list := ListOf(x.postings, t);
    assert forall i :: 0 <= i < |list| ==> PostingOk(list[i], x.docLen);
    ListFits(list, x.docLen);
  }

  /** A listed posting contributes its weight times the term's idf, which is positive. */
  lemma ShareAt(x: Table, t: string, i: nat)
    requires TableOk(x) && i < |ListOf(x.postings, t)|
    ensures var p := ListOf(x.postings, t)[i];
      Contains(x, t, p.doc) && PostingWeight(x.params, p, x.docLen, x.avgdl) > 0.0 &&
      Share(x, t, p.doc) == x.params.idf(|x.docLen|, |ListOf(x.postings, t)|) * PostingWeight(x.params, p, x.docLen, x.avgdl) &&
      Share(x, t, p.doc) > 0.0
  {
    hide ParamsOk, Usable, Weight;
    var list := ListOf(x.postings, t);
    TermFacts(x, t);
    assert PostingOk(list[i], x.docLen);
    TfAt(list, i);
    WeightPositive(x.params, list[i].tf, x.docLen[list[i].doc] as real, x.avgdl);
    Positive(x.params.idf(|x.docLen|, |list|), PostingWeight(x.params, list[i], x.docLen, x.avgdl));
  }

  lemma ShareSign(x: Table, t: string, d: nat)
    requires TableOk(x)
    ensures Share(x, t, d) >= 0.0 && (Share(x, t, d) > 0.0 <==> Contains(x, t, d))
  {
    if Contains(x, t, d) {
      var i :| 0 <= i < |ListOf(x.postings, t)| && ListOf(x.postings, t)[i].doc == d;
      ShareAt(x, t, i);
    }
  }

  /** A document's score is positive exactly when it contains a query term. */
  lemma {:induction false} ScoreSign(x: Table, q: seq<string>, d: nat)
    requires TableOk(x)
    ensures Score(x, q, d) >= 0.0 && (Score(x, q, d) > 0.0 <==> Matches(x, q, d))
  {
    if q != [] {
      var n := |q| - 1;
      ScoreSign(x, q[..n], d);
      ShareSign(x, q[n], d);
      hide Share, Contains;
      if Matches(x, q, d) {
        var i :| 0 <= i < |q| && Contains(x, q[i], d);
        assert i < n ==> Contains(x, q[..n][i], d);
      }
      if Matches(x, q[..n], d) {
        var i :| 0 <= i < |q[..n]| && Contains(x, q[..n][i], d);
        assert Contains(x, q[i], d);
      }
    }
  }

  lemma ScoreNext(x: Table, q: seq<string>, n: nat, d: nat)
    requires n < |q|
    ensures Score(x, q[..n + 1], d) == Score(x, q[..n], d) + Share(x, q[n], d)
  {
    assert q[..n + 1][..n] == q[..n];
  }

  // ----------------------------------------------------------------- dense accumulation

  /** The touched documents are exactly those with a score so far, each listed once. */
  ghost predicate Tracks(acc: seq<real>, touched: seq<nat>) {
    Distinct(touched) && (forall d :: 0 <= d < |acc| ==> acc[d] >= 0.0) &&
    forall d: nat :: d in touched <==> d < |acc| && acc[d] > 0.0
  }

  /** One term's postings are added to the accumulator. */
  ghost predicate AddedTo(before: seq<real>, after: seq<real>, list: seq<Posting>, ws: seq<real>, idf: real, n: nat)
    requires |ws| == |list| && n <= |list|
  {
    |after| == |before| && (forall i :: 0 <= i < |list| ==> list[i].doc < |before|) &&
    (forall i :: 0 <= i < n ==> after[list[i].doc] == before[list[i].doc] + idf * ws[i]) &&
    (forall d :: 0 <= d < |before| && !Lists(list[..n], d) ==> after[d] == before[d])
  }

  lemma AddedNext(before: seq<real>, after: seq<real>, list: seq<Posting>, ws: seq<real>, idf: real, n: nat)
    requires |ws| == |list| && n < |list| && Ascending(list) && AddedTo(before, after, list, ws, idf, n)
    ensures AddedTo(before, after[list[n].doc := after[list[n].doc] + idf * ws[n]], list, ws, idf, n + 1)
    ensures after[list[n].doc] == before[list[n].doc]
  {
    ListsNext(list, n);
    hide Lists, Ascending;
  }

  lemma TracksNext(acc: seq<real>, touched: seq<nat>, d: nat, amount: real)
    requires Tracks(acc, touched) && d < |acc| && amount > 0.0
    ensures Tracks(acc[d := acc[d] + amount], if acc[d] == 0.0 then touched + [d] else touched)
  {
    var next := acc[d := acc[d] + amount];
    if acc[d] == 0.0 {
      assert d !in touched;
    }
  }

  /** The inner loop of both dense paths: the weights come from the table or are computed on the way. */
  method AddTerm(acc: array<real>, touched0: seq<nat>, list: seq<Posting>, ws: seq<real>, idf: real) returns (touched: seq<nat>)
    requires |ws| == |list| && Ascending(list) && idf > 0.0 && (forall i :: 0 <= i < |ws| ==> ws[i] > 0.0)
    requires Tracks(acc[..], touched0) && forall i :: 0 <= i < |list| ==> list[i].doc < acc.Length
    modifies acc
    ensures AddedTo(old(acc[..]), acc[..], list, ws, idf, |list|) && Tracks(acc[..], touched)
  {
    hide Ascending, Tracks;
    touched := touched0;
    for i := 0 to |list|
      invariant AddedTo(old(acc[..]), acc[..], list, ws, idf, i) && Tracks(acc[..], touched)
    {
      hide AddedTo;
      var d := list[i].doc;
      AddedNext(old(acc[..]), acc[..], list, ws, idf, i);
      Positive(idf, ws[i]);
      TracksNext(acc[..], touched, d, idf * ws[i]);
      ghost var before := acc[..];
      if d < acc.Length {
        if acc[d] == 0.0 {
          touched := touched + [d];
        }
        acc[d] := acc[d] + idf * ws[i];
      }
      assert acc[..] == before[d := before[d] + idf * ws[i]];
    }
  }

  /** The weights are those of the postings. */
  ghost predicate WeightsOf(x: Table, list: seq<Posting>, ws: seq<real>)
  {
    |ws| == |list| && forall i :: 0 <= i < |list| ==> ws[i] == PostingWeight(x.params, list[i], x.docLen, x.avgdl)
  }

  ghost predicate Scored(x: Table, q: seq<string>, n: nat, acc: seq<real>)
    requires n <= |q|
  {
    forall d :: 0 <= d < |acc| ==> acc[d] == Score(x, q[..n], d)
  }

  lemma TermAdded(x: Table, q: seq<string>, n: nat, before: seq<real>, after: seq<real>, ws: seq<real>)
    requires TableOk(x) && n < |q| && Scored(x, q, n, before) && WeightsOf(x, ListOf(x.postings, q[n]), ws)
    requires |ws| == |ListOf(x.postings, q[n])|
    requires var list := ListOf(x.postings, q[n]);
      AddedTo(before, after, list, ws, x.params.idf(|x.docLen|, |list|), |list|)
    ensures Scored(x, q, n + 1, after)
  {
    hide TableOk, PostingWeight, Share;
    var list := ListOf(x.postings, q[n]);
    assert list[..|list|] == list;
    forall d | 0 <= d < |after|
      ensures after[d] == Score(x, q[..n + 1], d)
    {
      ScoreNext(x, q, n, d);
      if Lists(list, d) {
        var i :| 0 <= i < |list| && list[i].doc == d;
        ShareAt(x, q[n], i);
      } else {
        NoShare(x, q[n], d);
      }
    }
  }

  lemma NoShare(x: Table, t: string, d: nat)
    requires !Lists(ListOf(x.postings, t), d)
    ensures Share(x, t, d) == 0.0
  {
  }

  lemma WeightsPositive(x: Table, t: string, ws: seq<real>)
    requires TableOk(x) && WeightsOf(x, ListOf(x.postings, t), ws)
    ensures forall i :: 0 <= i < |ws| ==> ws[i] > 0.0
  {
    hide TableOk, PostingWeight, Share;
    forall i | 0 <= i < |ws|
      ensures ws[i] > 0.0
    {
      ShareAt(x, t, i);
    }
  }

  /** The weights are read from the precomputed table, or computed from the array of lengths. */
  method TermWeights(x: Table, t: string, dense: seq<nat>, pw: seq<real>, spans: map<string, (nat, nat)>) returns (ws: seq<real>)
    requires TableOk(x) && DenseOk(dense, x.docLen) && dense != [] && t in x.postings
    requires pw != [] ==> WeightsOk(x.params, x.postings, x.docLen, x.avgdl, pw, spans, x.postings.Keys)
    ensures WeightsOf(x, x.postings[t], ws)
  {
    hide ParamsOk, PostingWeight, Ascending, Denominator, FlatDenominator;
    var list := x.postings[t];
    if pw != [] {
      var span := spans[t];
      assert SpanOk(x.params, list, x.docLen, x.avgdl, pw, span);
      ws := pw[span.0..span.0 + |list|];
      return;
    }
    ws := [];
    var inv := 1.0 / x.avgdl;
    for i := 0 to |list|
      invariant |ws| == i && forall j :: 0 <= j < i ==> ws[j] == PostingWeight(x.params, list[j], x.docLen, x.avgdl)
    {
      var p := list[i];
      assert PostingOk(p, x.docLen);
      var dl := if dense[p.doc] != 0 then dense[p.doc] as real else x.avgdl;
      DenominatorPositive(x.params, p.tf, dl, x.avgdl);
      WeightIs(x, p, dl);
      ws := ws + [p.tf as real * (x.params.k1 + 1.0) / FlatDenominator(x.params, p.tf, dl, inv)];
    }
  }

  lemma WeightIs(x: Table, p: Posting, dl: real)
    requires TableOk(x) && p.tf > 0 && p.doc in x.docLen && dl == x.docLen[p.doc] as real
    ensures Denominator(x.params, p.tf, dl, x.avgdl) > 0.0
    ensures PostingWeight(x.params, p, x.docLen, x.avgdl) ==
            p.tf as real * (x.params.k1 + 1.0) / Denominator(x.params, p.tf, dl, x.avgdl)
  {
    DenominatorPositive(x.params, p.tf, dl, x.avgdl);
  }

  /** Both array paths: every document's sum, and the documents that have one. */
  method Accumulate(x: Table, q: seq<string>, dense: seq<nat>, pw: seq<real>, spans: map<string, (nat, nat)>)
    returns (acc: array<real>, touched: seq<nat>)
    requires TableOk(x) && DenseOk(dense, x.docLen) && dense != []
    requires pw != [] ==> WeightsOk(x.params, x.postings, x.docLen, x.avgdl, pw, spans, x.postings.Keys)
    ensures acc.Length == |dense| && Scored(x, q, |q|, acc[..]) && Tracks(acc[..], touched)
  {
    hide TableOk, Scored, Tracks, WeightsOk, WeightsOf, AddedTo;
    acc := new real[|dense|](_ => 0.0);
    touched := [];
    NothingScored(x, q, acc[..]);
    for n := 0 to |q|
      invariant acc.Length == |dense| && Scored(x, q, n, acc[..]) && Tracks(acc[..], touched)
    {
      ghost var before := acc[..];
      if q[n] in x.postings {
        var list := x.postings[q[n]];
        var ws := TermWeights(x, q[n], dense, pw, spans);
        WeightsPositive(x, q[n], ws);
        TermFacts(x, q[n]);
        DenseHolds(dense, x.docLen, list);
        OwnLength(x, list, ws);
        touched := AddTerm(acc, touched, list, ws, x.params.idf(|x.docLen|, |list|));
        TermAdded(x, q, n, before, acc[..], ws);
      } else {
        TermMissing(x, q, n, acc[..]);
      }
    }
  }

  lemma DenseHolds(dense: seq<nat>, docLen: map<nat, nat>, list: seq<Posting>)
    requires DenseOk(dense, docLen) && dense != [] && forall i :: 0 <= i < |list| ==> PostingOk(list[i], docLen)
    ensures forall i :: 0 <= i < |list| ==> list[i].doc < |dense|
  {
    forall i | 0 <= i < |list|
      ensures list[i].doc < |dense|
    {
      assert PostingOk(list[i], docLen);
    }
  }

  lemma NothingScored(x: Table, q: seq<string>, acc: seq<real>)
    requires forall d :: 0 <= d < |acc| ==> acc[d] == 0.0
    ensures Scored(x, q, 0, acc) && Tracks(acc, [])
  {
  }

  lemma TermMissing(x: Table, q: seq<string>, n: nat, acc: seq<real>)
    requires n < |q| && q[n] !in x.postings && Scored(x, q, n, acc)
    ensures Scored(x, q, n + 1, acc)
  {
    forall d | 0 <= d < |acc|
      ensures acc[d] == Score(x, q[..n + 1], d)
    {
      ScoreNext(x, q, n, d);
      NoShare(x, q[n], d);
    }
  }

  // ------------------------------------------------------------------ sparse accumulation

  /** The map of sums so far: every document with a positive sum, under that sum. */
  ghost predicate Summed(x: Table, q: seq<string>, n: nat, acc: map<nat, real>)
    requires n <= |q|
  {
    forall d :: (d in acc <==> Score(x, q[..n], d) > 0.0) && (d in acc ==> acc[d] == Score(x, q[..n], d))
  }

  ghost predicate SumsTo(before: map<nat, real>, after: map<nat, real>, list: seq<Posting>, ws: seq<real>, idf: real, n: nat)
    requires |ws| == |list| && n <= |list|
  {
    (forall i :: 0 <= i < n ==> list[i].doc in after && after[list[i].doc] == GetOr(before, list[i].doc, 0.0) + idf * ws[i]) &&
    (forall d :: !Lists(list[..n], d) ==> (d in after <==> d in before) && (d in before ==> after[d] == before[d]))
  }

  lemma SumsNext(before: map<nat, real>, after: map<nat, real>, list: seq<Posting>, ws: seq<real>, idf: real, n: nat)
    requires |ws| == |list| && n < |list| && Ascending(list) && SumsTo(before, after, list, ws, idf, n)
    ensures var d := list[n].doc;
      SumsTo(before, after[d := GetOr(after, d, 0.0) + idf * ws[n]], list, ws, idf, n + 1)
  {
    hide Lists, Ascending;
    ListsNext(list, n);
    var d := list[n].doc;
    var sum := GetOr(after, d, 0.0) + idf * ws[n];
    assert GetOr(after, d, 0.0) == GetOr(before, d, 0.0);
    SumsPut(before, after, list, ws, idf, n, sum);
  }

  lemma SumsPut(before: map<nat, real>, after: map<nat, real>, list: seq<Posting>, ws: seq<real>, idf: real, n: nat, sum: real)
    requires |ws| == |list| && n < |list| && SumsTo(before, after, list, ws, idf, n)
    requires sum == GetOr(before, list[n].doc, 0.0) + idf * ws[n]
    requires (forall i :: 0 <= i < n ==> list[i].doc != list[n].doc) &&
             forall e :: Lists(list[..n + 1], e) <==> Lists(list[..n], e) || e == list[n].doc
    ensures SumsTo(before, after[list[n].doc := sum], list, ws, idf, n + 1)
  {
    hide Lists, GetOr;
    var next := after[list[n].doc := sum];
    forall i | 0 <= i < n + 1
      ensures list[i].doc in next && next[list[i].doc] == GetOr(before, list[i].doc, 0.0) + idf * ws[i]
    {
    }
    forall d | !Lists(list[..n + 1], d)
      ensures (d in next <==> d in before) && (d in before ==> next[d] == before[d])
    {
      assert !Lists(list[..n], d) && d != list[n].doc;
    }
  }

  lemma TermSummed(x: Table, q: seq<string>, n: nat, before: map<nat, real>, after: map<nat, real>, ws: seq<real>)
    requires TableOk(x) && n < |q| && Summed(x, q, n, before) && WeightsOf(x, ListOf(x.postings, q[n]), ws)
    requires |ws| == |ListOf(x.postings, q[n])|
    requires var list := ListOf(x.postings, q[n]);
      SumsTo(before, after, list, ws, x.params.idf(|x.docLen|, |list|), |list|)
    ensures Summed(x, q, n + 1, after)
  {
    hide TableOk, PostingWeight, Share, Matches, WeightsOf, SumsTo, Lists;
    var list := ListOf(x.postings, q[n]);
    forall d
      ensures (d in after <==> Score(x, q[..n + 1], d) > 0.0) && (d in after ==> after[d] == Score(x, q[..n + 1], d))
    {
      SumAt(x, q, n, before, after, ws, d);
    }
  }

  lemma SumAt(x: Table, q: seq<string>, n: nat, before: map<nat, real>, after: map<nat, real>, ws: seq<real>, d: nat)
    requires TableOk(x) && n < |q| && WeightsOf(x, ListOf(x.postings, q[n]), ws)
    requires (d in before <==> Score(x, q[..n], d) > 0.0) && (d in before ==> before[d] == Score(x, q[..n], d))
    requires |ws| == |ListOf(x.postings, q[n])|
    requires var list := ListOf(x.postings, q[n]);
      SumsTo(before, after, list, ws, x.params.idf(|x.docLen|, |list|), |list|)
    ensures (d in after <==> Score(x, q[..n + 1], d) > 0.0) && (d in after ==> after[d] == Score(x, q[..n + 1], d))
  {
    hide TableOk, PostingWeight, Share, Matches, Score;
    var list := ListOf(x.postings, q[n]);
    assert list[..|list|] == list;
    ScoreNext(x, q, n, d);
    ScoreSign(x, q[..n], d);
    if Lists(list, d) {
      var i :| 0 <= i < |list| && list[i].doc == d;
      ShareAt(x, q[n], i);
    } else {
      NoShare(x, q[n], d);
    }
  }

  /** The inner loop of the hash-map path. */
  method AddTermSparse(x: Table, before: map<nat, real>, list: seq<Posting>, idf: real, ghost ws: seq<real>) returns (acc: map<nat, real>)
    requires TableOk(x) && WeightsOf(x, list, ws) && Ascending(list) && forall i :: 0 <= i < |list| ==> PostingOk(list[i], x.docLen)
    ensures SumsTo(before, acc, list, ws, idf, |list|)
  {
    hide TableOk, SumsTo, PostingWeight, Ascending, Denominator, FlatDenominator;
    acc := before;
    var inv := 1.0 / x.avgdl;
    NothingSummedYet(before, list, ws, idf);
    for i := 0 to |list|
      invariant SumsTo(before, acc, list, ws, idf, i)
    {
      var p := list[i];
      assert PostingOk(p, x.docLen);
      var dl := if p.doc in x.docLen then x.docLen[p.doc] as real else x.avgdl;
      TableParams(x);
      DenominatorPositive(x.params, p.tf, dl, x.avgdl);
      WeightIs(x, p, dl);
      SumsNext(before, acc, list, ws, idf, i);
      var share := p.tf as real * (x.params.k1 + 1.0) / FlatDenominator(x.params, p.tf, dl, inv);
      SameFactor(idf, share, ws[i]);
      var sum := GetOr(acc, p.doc, 0.0) + idf * share;
      assert sum == GetOr(acc, list[i].doc, 0.0) + idf * ws[i];
      acc := acc[p.doc := sum];
    }
  }

  /** The hash-map path. */
  method AccumulateSparse(x: Table, q: seq<string>) returns (acc: map<nat, real>)
    requires TableOk(x)
    ensures Summed(x, q, |q|, acc)
  {
    hide TableOk, Summed, SumsTo, PostingWeight, Ascending, WeightsOf;
    acc := map[];
    NothingSummed(x, q);
    for n := 0 to |q|
      invariant Summed(x, q, n, acc)
    {
      ghost var before := acc;
      var list := if q[n] in x.postings then x.postings[q[n]] else [];
      TermFacts(x, q[n]);
      ghost var ws := OwnWeights(x, list);
      OwnLength(x, list, ws);
      acc := AddTermSparse(x, acc, list, x.params.idf(|x.docLen|, |list|), ws);
      TermSummed(x, q, n, before, acc, ws);
    }
  }

  lemma OwnLength(x: Table, list: seq<Posting>, ws: seq<real>)
    requires WeightsOf(x, list, ws)
    ensures |ws| == |list|
  {
  }

  function OwnWeights(x: Table, list: seq<Posting>): (ws: seq<real>)
    ensures WeightsOf(x, list, ws)
  {
    seq(|list|, i requires 0 <= i < |list| => PostingWeight(x.params, list[i], x.docLen, x.avgdl))
  }

  lemma TableParams(x: Table)
    requires TableOk(x)
    ensures ParamsOk(x.params)
  {
  }

  lemma NothingSummed(x: Table, q: seq<string>)
    ensures Summed(x, q, 0, map[])
  {
  }

  lemma NothingSummedYet(acc: map<nat, real>, list: seq<Posting>, ws: seq<real>, idf: real)
    requires |ws| == |list|
    ensures SumsTo(acc, acc, list, ws, idf, 0)
  {
  }

  // ---------------------------------------------------------------------------- answers

  /** The hits of a query: at most k, best first, no document twice, each a document that contains a query term
      under its score, and no such document left out for a worse one. */
  ghost predicate Answers(x: Table, q: seq<string>, k: nat, hits: seq<Hit>) {
    |hits| <= k && SortedBy(hits, Better) && DistinctIds(hits) &&
    (forall h :: h in hits ==> Matches(x, q, h.id) && h.score == Score(x, q, h.id)) &&
    (forall d :: Matches(x, q, d) ==> Ranked(hits, k, Hit(d, Score(x, q, d))))
  }

  /** Every matching document once, under its score. */
  ghost predicate AllMatches(x: Table, q: seq<string>, all: seq<Hit>) {
    DistinctIds(all) && forall h: Hit :: h in all <==> Matches(x, q, h.id) && h.score == Score(x, q, h.id)
  }

  method BestHits(x: Table, q: seq<string>, all: seq<Hit>, k: nat) returns (hits: seq<Hit>)
    requires AllMatches(x, q, all)
    ensures Answers(x, q, k, hits)
  {
    hide Matches, Score, Ranked, Sort;
    hits := if |all| > k then Sort(all, Better)[..k] else Sort(all, Better);
    TopHits(all, k, hits);
  }

  lemma MatchInRange(x: Table, q: seq<string>, d: nat)
    requires TableOk(x) && Matches(x, q, d)
    ensures d in x.docLen
  {
    var i :| 0 <= i < |q| && Contains(x, q[i], d);
    var list := ListOf(x.postings, q[i]);
    var j :| 0 <= j < |list| && list[j].doc == d;
    TermFacts(x, q[i]);
    assert PostingOk(list[j], x.docLen);
  }

  lemma TouchedMatch(x: Table, q: seq<string>, dense: seq<nat>, acc: seq<real>, touched: seq<nat>, d: nat)
    requires TableOk(x) && DenseOk(dense, x.docLen) && dense != [] && |acc| == |dense|
    requires Scored(x, q, |q|, acc) && Tracks(acc, touched)
    ensures d in touched <==> Matches(x, q, d)
    ensures d in touched ==> d < |acc| && acc[d] == Score(x, q, d)
  {
    hide TableOk, Matches, Score;
    assert q[..|q|] == q;
    ScoreSign(x, q, d);
    if Matches(x, q, d) {
      MatchInRange(x, q, d);
    }
  }

  /** The array paths, with the precomputed weights or without them. */
  method SearchArray(x: Table, q: seq<string>, dense: seq<nat>, pw: seq<real>, spans: map<string, (nat, nat)>, k: nat)
    returns (hits: seq<Hit>)
    requires TableOk(x) && DenseOk(dense, x.docLen) && dense != []
    requires pw != [] ==> WeightsOk(x.params, x.postings, x.docLen, x.avgdl, pw, spans, x.postings.Keys)
    ensures Answers(x, q, k, hits)
  {
    hide TableOk, Matches, Score, Scored, DenseOk, WeightsOk, Answers;
    var acc, touched := Accumulate(x, q, dense, pw, spans);
    var all: seq<Hit> := [];
    assert forall d :: d in touched ==> d < acc.Length;
    for i := 0 to |touched|
      invariant |all| == i && forall j :: 0 <= j < i ==> touched[j] < acc.Length && all[j] == Hit(touched[j], acc[touched[j]])
    {
      assert touched[i] in touched;
      all := all + [Hit(touched[i], acc[touched[i]])];
    }
    TouchedAll(x, q, dense, acc[..], touched, all);
    hits := BestHits(x, q, all, k);
  }

  lemma TouchedAll(x: Table, q: seq<string>, dense: seq<nat>, acc: seq<real>, touched: seq<nat>, all: seq<Hit>)
    requires TableOk(x) && DenseOk(dense, x.docLen) && dense != [] && |acc| == |dense|
    requires Scored(x, q, |q|, acc) && Tracks(acc, touched) && |all| == |touched|
    requires forall j :: 0 <= j < |touched| ==> touched[j] < |acc| && all[j] == Hit(touched[j], acc[touched[j]])
    ensures AllMatches(x, q, all)
  {
    hide TableOk, Matches, Score, Scored, DenseOk;
    assert DistinctIds(all) by {
      assert Distinct(touched);
      hide Tracks;
    }
    forall h | h in all
      ensures Matches(x, q, h.id) && h.score == Score(x, q, h.id)
    {
      var j :| 0 <= j < |all| && all[j] == h;
      assert touched[j] in touched;
      TouchedMatch(x, q, dense, acc, touched, h.id);
    }
    forall h: Hit | Matches(x, q, h.id) && h.score == Score(x, q, h.id)
      ensures h in all
    {
      TouchedMatch(x, q, dense, acc, touched, h.id);
      var j :| 0 <= j < |touched| && touched[j] == h.id;
      assert all[j] == h;
    }
  }

  /** The hash-map path. */
  method SearchSparse(x: Table, q: seq<string>, k: nat) returns (hits: seq<Hit>)
    requires TableOk(x)
    ensures Answers(x, q, k, hits)
  {
    hide TableOk, Matches, Score, Summed, Answers;
    var acc := AccumulateSparse(x, q);
    var all: seq<Hit> := [];
    var rest := acc.Keys;
    while rest != {}
      invariant rest <= acc.Keys && DistinctIds(all)
      invariant forall h: Hit :: h in all <==> h.id in acc && h.id !in rest && h.score == acc[h.id]
      decreases |rest|
    {
      var d :| d in rest;
      assert forall i :: 0 <= i < |all| ==> all[i] in all;
      all := all + [Hit(d, acc[d])];
      rest := rest - {d};
    }
    SummedAll(x, q, acc, all);
    hits := BestHits(x, q, all, k);
  }

  lemma SummedAll(x: Table, q: seq<string>, acc: map<nat, real>, all: seq<Hit>)
    requires TableOk(x) && Summed(x, q, |q|, acc) && DistinctIds(all)
    requires forall h: Hit :: h in all <==> h.id in acc && h.score == acc[h.id]
    ensures AllMatches(x, q, all)
  {
    hide TableOk, Matches, Score;
    assert q[..|q|] == q;
    forall h: Hit
      ensures h in all <==> Matches(x, q, h.id) && h.score == Score(x, q, h.id)
    {
      ScoreSign(x, q, h.id);
    }
  }

  /** No query matches an index without documents. */
  lemma NothingMatches(x: Table, q: seq<string>, k: nat)
    requires TableOk(x) && (x.docLen == map[] || q == [])
    ensures Answers(x, q, k, [])
  {
    hide TableOk, Score, Contains;
    forall d | Matches(x, q, d)
      ensures false
    {
      MatchInRange(x, q, d);
    }
  }

  /** Binary search of a posting list. */
  method FindPosting(list: seq<Posting>, d: nat) returns (i: nat)
    requires Ascending(list)
    ensures i <= |list| && (forall j :: 0 <= j < i ==> list[j].doc < d) && (forall j :: i <= j < |list| ==> list[j].doc >= d)
  {
    var lo, hi := 0, |list|;
    while lo < hi
      invariant 0 <= lo <= hi <= |list|
      invariant (forall j :: 0 <= j < lo ==> list[j].doc < d) && (forall j :: hi <= j < |list| ==> list[j].doc >= d)
    {
      var mid := (lo + hi) / 2;
      if list[mid].doc < d {
        lo := mid + 1;
      } else {
        hi := mid;
      }
    }
    return lo;
  }

  /** `score_doc` gives the score the searches give. */
  method ScoreDoc(x: Table, q: seq<string>, d: nat) returns (score: real)
    requires TableOk(x)
    ensures score == Score(x, q, d)
  {
    hide TableOk, Score, Denominator, PostingWeight, Share;
    score := 0.0;
    ScoreNothing(x, q, d);
    if d !in x.docLen {
      if Matches(x, q, d) {
        MatchInRange(x, q, d);
      }
      ScoreSign(x, q, d);
      return;
    }
    var dl := x.docLen[d] as real;
    for n := 0 to |q|
      invariant score == Score(x, q[..n], d)
    {
      ScoreNext(x, q, n, d);
      if q[n] !in x.postings {
        NoShare(x, q[n], d);
        continue;
      }
      var list := x.postings[q[n]];
      TermFacts(x, q[n]);
      var i := FindPosting(list, d);
      if i == |list| || list[i].doc != d {
        NoShare(x, q[n], d);
        continue;
      }
      assert PostingOk(list[i], x.docLen);
      ShareAt(x, q[n], i);
      TableParams(x);
      WeightIs(x, list[i], dl);
      score := score + x.params.idf(|x.docLen|, |list|) * (list[i].tf as real * (x.params.k1 + 1.0) / Denominator(x.params, list[i].tf, dl, x.avgdl));
    }
    assert q[..|q|] == q;
  }

  lemma ScoreNothing(x: Table, q: seq<string>, d: nat)
    ensures Score(x, q[..0], d) == 0.0
  {
  }

  // ------------------------------------------------------------------------- agreement

  function IdsOf(hits: seq<Hit>): set<nat> { set h | h in hits :: h.id }

  lemma {:induction false} IdCount(hits: seq<Hit>)
    requires DistinctIds(hits)
    ensures |IdsOf(hits)| == |hits|
  {
    if hits != [] {
      var n := |hits| - 1;
      IdCount(hits[..n]);
      assert hits == hits[..n] + [hits[n]];
      assert IdsOf(hits) == IdsOf(hits[..n]) + {hits[n].id};
      assert hits[n].id !in IdsOf(hits[..n]);
    }
  }

  /** No answer is longer than another. */
  lemma NoLonger(x: Table, q: seq<string>, k: nat, a: seq<Hit>, b: seq<Hit>)
    requires Answers(x, q, k, a) && Answers(x, q, k, b)
    ensures |b| <= |a|
  {
    hide Matches, Score;
    if |a| < k {
      forall id | id in IdsOf(b)
        ensures id in IdsOf(a)
      {
        var h :| h in b && h.id == id;
        assert Ranked(a, k, Hit(id, Score(x, q, id)));
      }
      IdCount(a);
      IdCount(b);
      SubsetSize(IdsOf(b), IdsOf(a));
    }
  }

  /** Nor does it score higher anywhere. */
  lemma NoHigher(x: Table, q: seq<string>, k: nat, a: seq<Hit>, b: seq<Hit>, i: nat)
    requires Answers(x, q, k, a) && Answers(x, q, k, b) && i < |a| && i < |b|
    ensures a[i].score <= b[i].score
  {
    hide Matches, Score, Answers;
    if a[i].score > b[i].score {
      var top, above := a[..i + 1], b[..i];
      forall id | id in IdsOf(top)
        ensures id in IdsOf(above)
      {
        var h :| h in top && h.id == id;
        var j :| 0 <= j <= i && top[j] == h;
        FoundAbove(x, q, k, a, b, i, j);
      }
      AnswerIds(x, q, k, a);
      AnswerIds(x, q, k, b);
      IdCount(top);
      IdCount(above);
      SubsetSize(IdsOf(top), IdsOf(above));
    }
  }

  lemma AnswerIds(x: Table, q: seq<string>, k: nat, a: seq<Hit>)
    requires Answers(x, q, k, a)
    ensures DistinctIds(a)
  {
    hide Matches, Score;
  }

  /** A hit that scores more than the other answer's i-th is among that answer's first i. */
  lemma FoundAbove(x: Table, q: seq<string>, k: nat, a: seq<Hit>, b: seq<Hit>, i: nat, j: nat)
    requires Answers(x, q, k, a) && Answers(x, q, k, b) && i < |a| && i < |b| && j <= i && a[i].score > b[i].score
    ensures a[j].id in IdsOf(b[..i])
  {
    hide Matches, Score;
    var h := a[j];
    assert h in a && (j == i || Better(a[j], a[i]));
    assert Ranked(b, k, h);
    assert b[i] in b;
    var n :| 0 <= n < |b| && b[n] == h;
    assert n > i ==> Better(b[i], b[n]);
    assert b[..i][n] == h;
  }

  /** Whichever path answers, the scores are the same, place by place; only documents of equal score may
      change places. */
  lemma AnswersAgree(x: Table, q: seq<string>, k: nat, a: seq<Hit>, b: seq<Hit>)
    requires Answers(x, q, k, a) && Answers(x, q, k, b)
    ensures |a| == |b| && forall i :: 0 <= i < |a| ==> a[i].score == b[i].score
  {
    hide Answers;
    NoLonger(x, q, k, a, b);
    NoLonger(x, q, k, b, a);
    forall i | 0 <= i < |a|
      ensures a[i].score == b[i].score
    {
      NoHigher(x, q, k, a, b, i);
      NoHigher(x, q, k, b, a, i);
    }
  }
}
