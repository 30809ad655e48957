/** Exact dense search: the scan every dense index is measured against, and the merge of two
    disjoint tiers that must agree with one scan over both. */
module Dense {
  import opened Wrappers
  import opened Documents
  import opened KeyOrder
  import opened Sorting

  datatype VectorRecord = VectorRecord(key: string, vector: Vector)

  datatype Candidate = Candidate(chunk: string, score: real)

  function Dot(a: Vector, b: Vector): real {
    if a == [] || b == [] then 0.0 else a[0] * b[0] + Dot(a[1..], b[1..])
  }

  predicate Normalized(v: Vector) {
    v != [] && -0.001 <= Dot(v, v) - 1.0 <= 0.001
  }

  /** Score descending, then key ascending. */
  predicate Ranks(a: Candidate, b: Candidate) {
    a.score > b.score || (a.score == b.score && KeyLeq(a.chunk, b.chunk))
  }

  lemma RanksIsTotal()
    ensures TotalPreorder(Ranks) && Antisymmetric(Ranks)
  {
    forall a, b
      ensures Ranks(a, b) || Ranks(b, a)
      ensures Ranks(a, b) && Ranks(b, a) ==> a == b
    {
      KeyTotal(a.chunk, b.chunk);
    }
    forall a, b, c | Ranks(a, b) && Ranks(b, c)
      ensures Ranks(a, c)
    {
      if KeyLeq(a.chunk, b.chunk) && KeyLeq(b.chunk, c.chunk) {
        KeyTransitive(a.chunk, b.chunk, c.chunk);
      }
    }
  }

  function Scored(query: Vector, row: VectorRecord): Candidate { Candidate(row.key, Dot(query, row.vector)) }

  function ScoredAll(query: Vector, rows: seq<VectorRecord>): (cs: seq<Candidate>)
    ensures |cs| == |rows| && forall i :: 0 <= i < |rows| ==> cs[i] == Scored(query, rows[i])
  {
    seq(|rows|, i requires 0 <= i < |rows| => Scored(query, rows[i]))
  }

  function Best<T>(s: seq<T>, k: nat): seq<T> { if k < |s| then s[..k] else s }

  /** The reference: one sort of everything, cut at k. */
  function TopK(cs: seq<Candidate>, k: nat): seq<Candidate> { Best(Sort(cs, Ranks), k) }

  ghost predicate DistinctRows(rows: seq<VectorRecord>) {
    forall i, j :: 0 <= i < j < |rows| ==> rows[i].key != rows[j].key
  }

  ghost predicate DistinctChunks(cs: seq<Candidate>) {
    forall i, j :: 0 <= i < j < |cs| ==> cs[i].chunk != cs[j].chunk
  }

  // ---------------------------------------------------------------- exact index

  datatype ExactIndex = ExactIndex(rows: seq<VectorRecord>, dimension: nat)

  const EmptyIndex := ExactIndex([], 0)

  ghost predicate IndexOk(x: ExactIndex) {
    DistinctRows(x.rows) && (x.rows == [] ==> x.dimension == 0) &&
    forall i :: 0 <= i < |x.rows| ==>
      x.rows[i].key != "" && |x.rows[i].vector| == x.dimension && Normalized(x.rows[i].vector)
  }

  /** `NativeExactIndex::build`. */
  method BuildExact(source: seq<VectorRecord>) returns (r: Result<ExactIndex>)
    ensures r.Ok? ==> r.value.rows == source && IndexOk(r.value)
    ensures r.Ok? <==> exists dimension :: IndexOk(ExactIndex(source, dimension))
  {
    if source == [] {
      assert IndexOk(ExactIndex(source, 0));
      return Ok(EmptyIndex);
    }
    var dimension := |source[0].vector|;
    if dimension == 0 {
      assert forall n :: IndexOk(ExactIndex(source, n)) ==> Normalized(source[0].vector);
      return Err(InvalidArgument);
    }
    var unique: set<string> := {};
    for i := 0 to |source|
      invariant unique == set k | 0 <= k < i :: source[k].key
      invariant forall a, b :: 0 <= a < b < i ==> source[a].key != source[b].key
      invariant forall a :: 0 <= a < i ==>
        source[a].key != "" && |source[a].vector| == dimension && Normalized(source[a].vector)
    {
      var row := source[i];
      assert forall n :: IndexOk(ExactIndex(source, n)) ==> row.key != "" && |row.vector| == n && Normalized(row.vector);
      assert forall n :: IndexOk(ExactIndex(source, n)) ==> |source[0].vector| == n;
      if row.key == "" {
        return Err(InvalidArgument);
      }
      if row.key in unique {
        assert exists a :: 0 <= a < i && source[a].key == row.key;
        return Err(AlreadyExists);
      }
      if |row.vector| != dimension {
        return Err(DimensionMismatch);
      }
      if !Normalized(row.vector) {
        return Err(InvalidArgument);
      }
      unique := unique + {row.key};
    }
    assert IndexOk(ExactIndex(source, dimension));
    return Ok(ExactIndex(source, dimension));
  }

  predicate Allowed(allowed: set<string>, row: VectorRecord) { allowed == {} || row.key in allowed }

  function AllowedRows(x: ExactIndex, allowed: set<string>): seq<VectorRecord> {
    Filter(x.rows, (row: VectorRecord) => Allowed(allowed, row))
  }

  /** `NativeExactIndex::search`: an empty set of allowed keys allows every row. */
  method SearchExact(x: ExactIndex, query: Vector, allowed: set<string>, k: nat) returns (r: Result<seq<Candidate>>)
    ensures k == 0 || x.rows == [] ==> r == Ok([])
    ensures k != 0 && x.rows != [] ==>
      r == if |query| != x.dimension then Err(DimensionMismatch)
           else if !Normalized(query) then Err(InvalidArgument)
           else Ok(TopK(ScoredAll(query, AllowedRows(x, allowed)), k))
  {
    if k == 0 || x.rows == [] {
      return Ok([]);
    }
    if |query| != x.dimension {
      return Err(DimensionMismatch);
    }
    if !Normalized(query) {
      return Err(InvalidArgument);
    }
    var candidates: seq<Candidate> := [];
    for i := 0 to |x.rows|
      invariant candidates == ScoredAll(query, AllowedRows(ExactIndex(x.rows[..i], x.dimension), allowed))
    {
      assert x.rows[..i + 1][..i] == x.rows[..i];
      if Allowed(allowed, x.rows[i]) {
        candidates := candidates + [Candidate(x.rows[i].key, Dot(query, x.rows[i].vector))];
      }
    }
    assert x.rows[..|x.rows|] == x.rows;
    return Ok(TopK(candidates, k));
  }

  // -------------------------------------------------------------------- merging

  /** The first of every key, until k have been taken. */
  function TakeUnique(s: seq<Candidate>, seen: set<string>, k: nat): seq<Candidate>
    decreases |s|
  {
    if s == [] then []
    else if s[0].chunk in seen then TakeUnique(s[1..], seen, k)
    else if k == 1 then [s[0]]
    else [s[0]] + TakeUnique(s[1..], seen + {s[0].chunk}, if k == 0 then 0 else k - 1)
  }

  /** What is left to take after a prefix has been looked at. */
  ghost predicate Taking(merged: seq<Candidate>, i: nat, output: seq<Candidate>, seen: set<string>, k: nat)
    requires i <= |merged|
  {
    (k > 0 ==> |output| < k) &&
    TakeUnique(merged, {}, k) == output + TakeUnique(merged[i..], seen, if k == 0 then 0 else k - |output|)
  }

  lemma TakingNext(merged: seq<Candidate>, i: nat, output: seq<Candidate>, seen: set<string>, k: nat)
    requires i < |merged| && Taking(merged, i, output, seen, k)
    ensures merged[i].chunk in seen ==> Taking(merged, i + 1, output, seen, k)
    ensures merged[i].chunk !in seen ==>
      if |output| + 1 == k then TakeUnique(merged, {}, k) == output + [merged[i]]
      else Taking(merged, i + 1, output + [merged[i]], seen + {merged[i].chunk}, k)
  {
    var left := if k == 0 then 0 else k - |output|;
    assert merged[i..][0] == merged[i] && merged[i..][1..] == merged[i + 1..];
    if merged[i].chunk !in seen && left != 1 {
      var rest := TakeUnique(merged[i + 1..], seen + {merged[i].chunk}, if left == 0 then 0 else left - 1);
      assert TakeUnique(merged[i..], seen, left) == [merged[i]] + rest;
      assert output + ([merged[i]] + rest) == output + [merged[i]] + rest;
    }
  }

  /** The merge of `TieredDenseIndex::search`. */
  method MergeTiers(base: seq<Candidate>, delta: seq<Candidate>, k: nat) returns (output: seq<Candidate>)
    ensures output == TakeUnique(Sort(base + delta, Ranks), {}, k)
  {
    hide Sort, Ranks;
    var merged := Sort(base + delta, Ranks);
    output := [];
    var seen: set<string> := {};
    var i := 0;
    assert merged[0..] == merged && [] + TakeUnique(merged, {}, k) == TakeUnique(merged, {}, k);
    while i < |merged|
      invariant 0 <= i <= |merged| && Taking(merged, i, output, seen, k)
    {
      hide TakeUnique, Taking;
      TakingNext(merged, i, output, seen, k);
      if merged[i].chunk !in seen {
        seen := seen + {merged[i].chunk};
        output := output + [merged[i]];
        if |output| == k {
          return;
        }
      }
      i := i + 1;
    }
    assert merged[i..] == [] && output + [] == output;
  }

  lemma {:induction false} TakeDistinct(s: seq<Candidate>, seen: set<string>, k: nat)
    requires DistinctChunks(s) && k > 0 && forall c :: c in s ==> c.chunk !in seen
    ensures TakeUnique(s, seen, k) == Best(s, k)
  {
    if s != [] && k > 1 {
      assert s[0] in s;
      forall c | c in s[1..]
        ensures c.chunk !in seen + {s[0].chunk}
      {
        assert c in s;
      }
      TakeDistinct(s[1..], seen + {s[0].chunk}, k - 1);
      assert s == [s[0]] + s[1..];
    } else if s != [] {
      assert s[0] in s;
    }
  }

  lemma SortIs(cs: seq<Candidate>, s: seq<Candidate>)
    requires Distinct(cs) && Distinct(s) && SortedBy(s, Ranks) && forall c :: c in cs <==> c in s
    ensures Sort(cs, Ranks) == s
  {
    RanksIsTotal();
    var r := Sort(cs, Ranks);
    SortSorted(cs, Ranks);
    SameElements(cs, r);
    MultisetDistinct(cs, r);
    SortedUnique(r, s, Ranks);
  }

  lemma SortProps(cs: seq<Candidate>)
    requires Distinct(cs)
    ensures var s := Sort(cs, Ranks); SortedBy(s, Ranks) && Distinct(s) && forall c :: c in s <==> c in cs
  {
    RanksIsTotal();
    SortSorted(cs, Ranks);
    SameElements(cs, Sort(cs, Ranks));
    MultisetDistinct(cs, Sort(cs, Ranks));
  }

  /** Sorting a part is filtering the sorted whole. */
  lemma SortPart(part: seq<Candidate>, s: seq<Candidate>, member: Candidate -> bool)
    requires Distinct(part) && Distinct(s) && SortedBy(s, Ranks)
    requires forall c :: c in part <==> c in s && member(c)
    ensures Sort(part, Ranks) == Filter(s, member)
  {
    FilterKeepsOrder(s, member, Ranks);
    SortIs(part, Filter(s, member));
  }

  /** An element among the first k of the whole is among the first k of its part. */
  lemma EarlyInPart(s: seq<Candidate>, member: Candidate -> bool, i: nat, k: nat)
    requires i < |s| && i < k && member(s[i])
    ensures s[i] in Best(Filter(s, member), k)
  {
    FilterPrefix(s, member, i + 1);
    FilterLast(s, member, i);
    InPrefix(Filter(s, member), Filter(s[..i], member), s[i], k);
  }

  lemma InPrefix(f: seq<Candidate>, before: seq<Candidate>, c: Candidate, k: nat)
    requires |before| < |f| && f[..|before| + 1] == before + [c] && |before| < k
    ensures c in Best(f, k)
  {
    assert f[..|before| + 1][|before|] == c;
  }

  lemma FilterLast(s: seq<Candidate>, member: Candidate -> bool, i: nat)
    requires i < |s| && member(s[i])
    ensures Filter(s[..i + 1], member) == Filter(s[..i], member) + [s[i]]
  {
    assert s[..i + 1][..i] == s[..i];
  }

  /** The first k of the whole are all among the first k of the parts. */
  lemma EarlyInTops(s: seq<Candidate>, a: seq<Candidate>, b: seq<Candidate>, k: nat)
    requires Distinct(a) && Distinct(b) && Distinct(s) && SortedBy(s, Ranks)
    requires forall c :: c in s <==> c in a || c in b
    ensures forall c :: c in Best(s, k) ==> c in TopK(a, k) || c in TopK(b, k)
  {
    var inA := (c: Candidate) => c in a;
    var inB := (c: Candidate) => c in b;
    SortPart(a, s, inA);
    SortPart(b, s, inB);
    hide Sort, Ranks, Filter;
    forall c | c in Best(s, k)
      ensures c in TopK(a, k) || c in TopK(b, k)
    {
      var i :| 0 <= i < |Best(s, k)| && s[i] == c;
      assert c in s;
      if c in a {
        EarlyInPart(s, inA, i, k);
      } else {
        EarlyInPart(s, inB, i, k);
      }
    }
  }

  /** Keeping at least the first k of a sorted list keeps its first k. */
  lemma KeptBest(s: seq<Candidate>, top: seq<Candidate>, k: nat)
    requires Distinct(top) && Distinct(s) && SortedBy(s, Ranks)
    requires (forall c :: c in top ==> c in s) && (forall c :: c in Best(s, k) ==> c in top)
    ensures TopK(top, k) == Best(s, k)
  {
    var inTop := (c: Candidate) => c in top;
    SortPart(top, s, inTop);
    hide Sort, Ranks, Filter;
    var n := |Best(s, k)|;
    FilterPrefix(s, inTop, n);
    BestIs(s, k);
    FilterAll(s[..n], inTop);
    SameBest(Filter(s, inTop), s, k);
  }

  lemma BestIs(s: seq<Candidate>, k: nat)
    ensures s[..|Best(s, k)|] == Best(s, k)
  {
  }

  lemma SameBest(f: seq<Candidate>, s: seq<Candidate>, k: nat)
    requires |Best(s, k)| <= |f| <= |s| && f[..|Best(s, k)|] == s[..|Best(s, k)|]
    ensures Best(f, k) == Best(s, k)
  {
  }

  /** Merging the best k of two disjoint parts gives the best k of the whole. */
  lemma MergeIsTopK(a: seq<Candidate>, b: seq<Candidate>, whole: seq<Candidate>, k: nat)
    requires DistinctChunks(a + b) && Distinct(whole) && k > 0
    requires forall c :: c in whole <==> c in a || c in b
    ensures TakeUnique(Sort(TopK(a, k) + TopK(b, k), Ranks), {}, k) == TopK(whole, k)
  {
    hide Sort, Ranks, Filter, TakeUnique;
    PartsDistinct(a, b);
    SortProps(whole);
    var s := Sort(whole, Ranks);
    var top := TopK(a, k) + TopK(b, k);
    EarlyInTops(s, a, b, k);
    TopWithin(a, b, k);
    TopDistinct(a, b, k);
    KeptBest(s, top, k);
    SortedChunksDistinct(top);
    TakeDistinct(Sort(top, Ranks), {}, k);
  }

  lemma PartsDistinct(a: seq<Candidate>, b: seq<Candidate>)
    requires DistinctChunks(a + b)
    ensures Distinct(a) && Distinct(b) && DistinctChunks(a) && DistinctChunks(b)
    ensures forall x, y :: x in a && y in b ==> x.chunk != y.chunk
  {
    var ab := a + b;
    forall i, j | 0 <= i < j < |a|
      ensures a[i].chunk != a[j].chunk
    {
      assert ab[i] == a[i] && ab[j] == a[j];
    }
    forall i, j | 0 <= i < j < |b|
      ensures b[i].chunk != b[j].chunk
    {
      assert ab[|a| + i] == b[i] && ab[|a| + j] == b[j];
    }
    forall x, y | x in a && y in b
      ensures x.chunk != y.chunk
    {
      var i :| 0 <= i < |a| && a[i] == x;
      var j :| 0 <= j < |b| && b[j] == y;
      assert ab[i] == x && ab[|a| + j] == y;
    }
  }

  lemma TopWithin(a: seq<Candidate>, b: seq<Candidate>, k: nat)
    ensures forall c :: c in TopK(a, k) + TopK(b, k) ==> c in a || c in b
  {
    SameElements(a, Sort(a, Ranks));
    SameElements(b, Sort(b, Ranks));
  }

  lemma ChunksDistinctIff(s: seq<Candidate>)
    requires Distinct(s) && forall x, y :: x in s && y in s && x.chunk == y.chunk ==> x == y
    ensures DistinctChunks(s)
  {
    forall i, j | 0 <= i < j < |s|
      ensures s[i].chunk != s[j].chunk
    {
      assert s[i] in s && s[j] in s;
    }
  }

  lemma TopDistinct(a: seq<Candidate>, b: seq<Candidate>, k: nat)
    requires DistinctChunks(a + b)
    ensures Distinct(TopK(a, k) + TopK(b, k)) && DistinctChunks(TopK(a, k) + TopK(b, k))
  {
    hide Sort, Ranks;
    PartsDistinct(a, b);
    SortedChunksDistinct(a);
    SortedChunksDistinct(b);
    TopWithinOne(a, k);
    TopWithinOne(b, k);
    var top := TopK(a, k) + TopK(b, k);
    forall i, j | 0 <= i < j < |top|
      ensures top[i].chunk != top[j].chunk
    {
      if i < |TopK(a, k)| <= j {
        assert top[i] in TopK(a, k) && top[j] in TopK(b, k);
      }
    }
  }

  lemma TopWithinOne(a: seq<Candidate>, k: nat)
    ensures forall c :: c in TopK(a, k) ==> c in a
  {
    hide Ranks;
    SameElements(a, Sort(a, Ranks));
  }

  lemma OneChunkEach(s: seq<Candidate>)
    requires DistinctChunks(s)
    ensures forall x, y :: x in s && y in s && x.chunk == y.chunk ==> x == y
  {
  }

  lemma SortedChunksDistinct(s: seq<Candidate>)
    requires DistinctChunks(s)
    ensures DistinctChunks(Sort(s, Ranks))
  {
    assert Distinct(s);
    SortProps(s);
    OneChunkEach(s);
    ChunksDistinctIff(Sort(s, Ranks));
  }
}
