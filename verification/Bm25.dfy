/** The inverted index: postings, document lengths, and the query-independent half of every score.
    Scores are real numbers; the tokenizer and the idf are parameters. */
module Bm25 {
  import opened Wrappers

  datatype Posting = Posting(doc: nat, tf: nat)

  datatype Params = Params(k1: real, b: real, idf: (nat, nat) -> real, tokenize: string -> seq<string>)

  /** The smoothed idf is positive for every term that at most all documents contain. */
  ghost predicate ParamsOk(p: Params) {
    p.k1 >= 0.0 && 0.0 <= p.b <= 1.0 && forall n, total :: n <= total ==> p.idf(total, n) > 0.0
  }

  // ------------------------------------------------------------------------ postings

  ghost predicate Ascending(list: seq<Posting>) {
    forall i, j :: 0 <= i < j < |list| ==> list[i].doc < list[j].doc
  }

  /** The frequency recorded for a document, zero when it is not listed. */
  function TfIn(list: seq<Posting>, d: nat): nat {
    if list == [] then 0 else if list[0].doc == d then list[0].tf else TfIn(list[1..], d)
  }

  predicate Lists(list: seq<Posting>, d: nat) { exists i :: 0 <= i < |list| && list[i].doc == d }

  /** A posting in its place, in document order; it overwrites an older one of the same document. */
  function PutPosting(list: seq<Posting>, p: Posting): seq<Posting> {
    if list == [] || p.doc < list[0].doc then [p] + list
    else if list[0].doc == p.doc then [p] + list[1..]
    else [list[0]] + PutPosting(list[1..], p)
  }

  lemma {:induction false} PutPostingIs(list: seq<Posting>, p: Posting)
    requires Ascending(list)
    ensures Ascending(PutPosting(list, p)) && PutPosting(list, p) != []
    ensures forall d :: Lists(PutPosting(list, p), d) <==> Lists(list, d) || d == p.doc
    ensures forall d :: TfIn(PutPosting(list, p), d) == if d == p.doc then p.tf else TfIn(list, d)
  {
    var put := PutPosting(list, p);
    if list == [] || p.doc < list[0].doc {
      assert put[1..] == list;
      assert forall i :: 0 < i < |put| ==> put[i] == list[i - 1];
      PutFront(list, p);
    } else if list[0].doc == p.doc {
      assert put[1..] == list[1..];
      assert forall i :: 0 < i < |put| ==> put[i] == list[i];
      assert forall d :: Lists(put, d) <==> Lists(list, d) by {
        forall d
          ensures Lists(put, d) <==> Lists(list, d)
        {
          assert forall i :: 0 <= i < |put| ==> put[i].doc == list[i].doc;
          assert |put| == |list|;
        }
      }
    } else {
      var rest := list[1..];
      PutPostingIs(rest, p);
      var put' := PutPosting(rest, p);
      assert put[1..] == put' && put == [list[0]] + put';
      ConsLists(list[0], put');
      ConsLists(list[0], rest);
      assert list == [list[0]] + rest;
      assert Ascending(put) by {
        forall i | 0 <= i < |put'|
          ensures list[0].doc < put'[i].doc
        {
          assert Lists(put', put'[i].doc);
          if put'[i].doc != p.doc {
            var j :| 0 <= j < |rest| && rest[j].doc == put'[i].doc;
          }
        }
      }
    }
  }

  /** A longer prefix lists one document more, and a new one. */
  lemma ListsNext(list: seq<Posting>, n: nat)
    requires Ascending(list) && n < |list|
    ensures forall e :: Lists(list[..n + 1], e) <==> Lists(list[..n], e) || e == list[n].doc
    ensures !Lists(list[..n], list[n].doc) && forall i :: 0 <= i < n ==> list[i].doc != list[n].doc
  {
    forall e
      ensures Lists(list[..n + 1], e) <==> Lists(list[..n], e) || e == list[n].doc
    {
      if Lists(list[..n], e) {
        var i :| 0 <= i < n && list[..n][i].doc == e;
        assert list[..n + 1][i].doc == e;
      }
      if Lists(list[..n + 1], e) {
        var i :| 0 <= i < n + 1 && list[..n + 1][i].doc == e;
        assert i < n ==> list[..n][i].doc == e;
      }
      assert list[..n + 1][n].doc == list[n].doc;
    }
  }

  lemma ConsLists(p: Posting, list: seq<Posting>)
    ensures forall d :: Lists([p] + list, d) <==> d == p.doc || Lists(list, d)
  {
    var all := [p] + list;
    forall d
      ensures Lists(all, d) <==> d == p.doc || Lists(list, d)
    {
      if Lists(all, d) {
        var i :| 0 <= i < |all| && all[i].doc == d;
        assert i > 0 ==> list[i - 1].doc == d;
      }
      if d == p.doc {
        assert all[0].doc == d;
      }
      if Lists(list, d) {
        var i :| 0 <= i < |list| && list[i].doc == d;
        assert all[i + 1].doc == d;
      }
    }
  }

  lemma PutFront(list: seq<Posting>, p: Posting)
    requires Ascending(list) && (list == [] || p.doc < list[0].doc)
    ensures Ascending([p] + list) && forall d :: Lists([p] + list, d) <==> Lists(list, d) || d == p.doc
    ensures forall d :: TfIn([p] + list, d) == if d == p.doc then p.tf else TfIn(list, d)
  {
    ConsLists(p, list);
    assert ([p] + list)[1..] == list;
  }

  // ---------------------------------------------------------------------- frequencies

  function CountIn(terms: seq<string>, t: string): nat {
    if terms == [] then 0 else CountIn(terms[..|terms| - 1], t) + if terms[|terms| - 1] == t then 1 else 0
  }

  lemma {:induction false} CountPositive(terms: seq<string>, t: string)
    ensures CountIn(terms, t) > 0 <==> t in terms
  {
    if terms != [] {
      var n := |terms| - 1;
      CountPositive(terms[..n], t);
      assert terms == terms[..n] + [terms[n]];
    }
  }

  /** Term frequencies within one document. */
  method CountTerms(terms: seq<string>) returns (tf: map<string, nat>)
    ensures forall t :: t in tf <==> t in terms
    ensures forall t :: t in tf ==> tf[t] == CountIn(terms, t)
  {
    tf := map[];
    for i := 0 to |terms|
      invariant forall t :: t in tf <==> t in terms[..i]
      invariant forall t :: t in tf ==> tf[t] == CountIn(terms[..i], t)
    {
      var t := terms[i];
      assert terms[..i + 1] == terms[..i] + [t] && terms[..i + 1][..i] == terms[..i];
      CountPositive(terms[..i], t);
      tf := tf[t := GetOr(tf, t, 0) + 1];
    }
    assert terms[..|terms|] == terms;
  }

  // ------------------------------------------------------------------------- weights

  /** The query-independent half of a posting's score. */
  function Weight(p: Params, f: nat, dl: real, avgdl: real): real
    requires avgdl > 0.0
  {
    if Denominator(p, f, dl, avgdl) > 0.0 then f as real * (p.k1 + 1.0) / Denominator(p, f, dl, avgdl) else 0.0
  }

  function Denominator(p: Params, f: nat, dl: real, avgdl: real): real
    requires avgdl > 0.0
  {
    f as real + p.k1 * (1.0 - p.b + p.b * dl / avgdl)
  }

  /** The same with the division hoisted out. */
  function FlatDenominator(p: Params, f: nat, dl: real, inverse: real): real {
    f as real + p.k1 * (1.0 - p.b + p.b * dl * inverse)
  }

  lemma DenominatorPositive(p: Params, f: nat, dl: real, avgdl: real)
    requires ParamsOk(p) && f > 0 && dl >= 0.0 && avgdl > 0.0
    ensures Denominator(p, f, dl, avgdl) > 0.0
    ensures Denominator(p, f, dl, avgdl) == FlatDenominator(p, f, dl, 1.0 / avgdl)
  {
    Product(p.b, dl);
    Inverse(p.b * dl, avgdl);
    Product(p.b * dl, 1.0 / avgdl);
    var y := p.b * dl / avgdl;
    assert y == p.b * dl * (1.0 / avgdl) && y >= 0.0;
    Product(p.k1, 1.0 - p.b + y);
    assert FlatDenominator(p, f, dl, 1.0 / avgdl) == f as real + p.k1 * (1.0 - p.b + p.b * dl * (1.0 / avgdl));
    SameFactor(p.k1, 1.0 - p.b + p.b * dl / avgdl, 1.0 - p.b + p.b * dl * (1.0 / avgdl));
  }

  lemma SameFactor(a: real, x: real, y: real)
    requires x == y
    ensures a * x == a * y
  {
  }

  lemma Product(a: real, b: real)
    requires a >= 0.0 && b >= 0.0
    ensures a * b >= 0.0
  {
  }

  lemma Inverse(x: real, y: real)
    requires y > 0.0
    ensures x / y == x * (1.0 / y) && 1.0 / y > 0.0
  {
  }

  lemma WeightPositive(p: Params, f: nat, dl: real, avgdl: real)
    requires ParamsOk(p) && f > 0 && dl >= 0.0 && avgdl > 0.0
    ensures Denominator(p, f, dl, avgdl) > 0.0 && Weight(p, f, dl, avgdl) > 0.0
  {
    DenominatorPositive(p, f, dl, avgdl);
    var num := f as real * (p.k1 + 1.0);
    assert num > 0.0 by { Positive(f as real, p.k1 + 1.0); }
    Quotient(num, Denominator(p, f, dl, avgdl));
  }

  lemma Positive(a: real, b: real)
    requires a > 0.0 && b > 0.0
    ensures a * b > 0.0
  {
  }

  lemma Quotient(a: real, b: real)
    requires a > 0.0 && b > 0.0
    ensures a / b > 0.0
  {
  }
}
