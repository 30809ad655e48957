/** The two-tier dense index: an immutable base with tombstones and an exact delta. */
module TieredIndex {
  import opened Wrappers
  import opened Documents
  import opened Sorting
  import opened Dense

  datatype Base = Base(index: ExactIndex, keys: set<string>, dimension: nat)

  datatype Tiered = Tiered(base: Base, delta: ExactIndex, deltaKeys: set<string>, tombstones: set<string>, dimension: nat)

  const EmptyTiers := Tiered(Base(EmptyIndex, {}, 0), EmptyIndex, {}, {}, 0)

  function Keys(rows: seq<VectorRecord>): set<string> { set row | row in rows :: row.key }

  predicate ContainsBase(t: Tiered, key: string) { key in t.base.keys && key !in t.tombstones }

  function Visible(t: Tiered): set<string> { t.base.keys - t.tombstones }

  ghost predicate BaseOk(b: Base) {
    IndexOk(b.index) && b.keys == Keys(b.index.rows) && (b.index.rows != [] ==> b.dimension == b.index.dimension)
  }

  /** Tombstones lie within the base and no key is visible in both tiers. */
  ghost predicate TiersOk(t: Tiered) {
    BaseOk(t.base) && IndexOk(t.delta) && t.deltaKeys == Keys(t.delta.rows) &&
    t.tombstones <= t.base.keys && t.deltaKeys !! Visible(t) &&
    (t.delta.rows != [] ==> t.delta.dimension == t.dimension) &&
    (t.base.dimension == 0 || t.dimension == 0 || t.base.dimension == t.dimension)
  }

  ghost predicate DeltaFits(t: Tiered, live: seq<VectorRecord>, tombstones: set<string>, dimension: nat) {
    (t.base.dimension == 0 || dimension == 0 || t.base.dimension == dimension) &&
    tombstones <= t.base.keys &&
    (forall row :: row in live ==> |row.vector| == dimension && (row.key in t.base.keys ==> row.key in tombstones)) &&
    exists d :: IndexOk(ExactIndex(live, d))
  }

  /** `with_delta`: the same base under new tombstones and a new delta. */
  method WithDelta(t: Tiered, live: seq<VectorRecord>, tombstones: set<string>, dimension: nat) returns (r: Result<Tiered>)
    requires TiersOk(t)
    ensures r.Ok? <==> DeltaFits(t, live, tombstones, dimension)
    ensures r.Ok? ==> TiersOk(r.value) && r.value.base == t.base && r.value.delta.rows == live &&
                      r.value.tombstones == tombstones && r.value.dimension == dimension
  {
    if t.base.dimension != 0 && dimension != 0 && t.base.dimension != dimension {
      return Err(DimensionMismatch);
    }
    if !(tombstones <= t.base.keys) {
      return Err(InvalidArgument);
    }
    for i := 0 to |live|
      invariant forall j :: 0 <= j < i ==>
        |live[j].vector| == dimension && (live[j].key in t.base.keys ==> live[j].key in tombstones)
    {
      assert live[i] in live;
      if |live[i].vector| != dimension {
        return Err(DimensionMismatch);
      }
      if live[i].key in t.base.keys && live[i].key !in tombstones {
        return Err(AlreadyExists);
      }
    }
    var built := BuildExact(live);
    if built.Err? {
      return Err(built.error);
    }
    assert live != [] ==> live[0] in live && |live[0].vector| == built.value.dimension;
    assert Keys(live) !! t.base.keys - tombstones;
    return Ok(Tiered(t.base, built.value, Keys(live), tombstones, dimension));
  }

  /** `compact`: a fresh base of all live vectors, nothing hidden, nothing in the delta. */
  method CompactTiers(live: seq<VectorRecord>, dimension: nat) returns (r: Result<Tiered>)
    ensures r.Ok? <==> (forall row :: row in live ==> |row.vector| == dimension) && exists d :: IndexOk(ExactIndex(live, d))
    ensures r.Ok? ==> TiersOk(r.value) && r.value.base.index.rows == live && r.value.deltaKeys == {} &&
                      r.value.tombstones == {} && r.value.dimension == dimension && r.value.base.dimension == dimension
  {
    for i := 0 to |live|
      invariant forall j :: 0 <= j < i ==> |live[j].vector| == dimension
    {
      assert live[i] in live;
      if |live[i].vector| != dimension {
        return Err(DimensionMismatch);
      }
    }
    var built := BuildExact(live);
    if built.Err? {
      return Err(built.error);
    }
    assert live != [] ==> |live[0].vector| == built.value.dimension;
    return Ok(Tiered(Base(built.value, Keys(live), dimension), EmptyIndex, {}, {}, dimension));
  }

  // -------------------------------------------------------------------- searching

  /** The rows a filtered search may return. */
  ghost predicate IsScope(t: Tiered, baseAllowed: set<string>, deltaAllowed: set<string>, rows: seq<VectorRecord>) {
    DistinctRows(rows) &&
    forall row :: row in rows <==>
      (row in t.base.index.rows && row.key in baseAllowed) || (row in t.delta.rows && row.key in deltaAllowed)
  }

  function Part(x: ExactIndex, allowed: set<string>): seq<VectorRecord> {
    Filter(x.rows, (row: VectorRecord) => row.key in allowed)
  }

  /** What a search answers: nothing when nothing is wanted or allowed, an error for a malformed query, and
      otherwise one sort of the rows in scope, cut at k. */
  function Answer(query: Vector, dimension: nat, allowed: bool, rows: seq<VectorRecord>, k: nat): Result<seq<Candidate>> {
    if k == 0 || !allowed then Ok([])
    else if |query| != dimension then Err(DimensionMismatch)
    else if !Normalized(query) then Err(InvalidArgument)
    else Ok(TopK(ScoredAll(query, rows), k))
  }

  /** One tier's contribution: nothing when nothing is allowed, the exact search otherwise. */
  method SearchTier(x: ExactIndex, query: Vector, allowed: set<string>, k: nat) returns (r: Result<seq<Candidate>>)
    requires allowed != {} ==> x.rows != []
    ensures r == Answer(query, x.dimension, allowed != {}, Part(x, allowed), k)
  {
    if allowed == {} {
      return Ok([]);
    }
    r := SearchExact(x, query, allowed, k);
    assert AllowedRows(x, allowed) == Part(x, allowed) by { FilterSame(x.rows, allowed); }
  }

  lemma {:induction false} FilterSame(rows: seq<VectorRecord>, allowed: set<string>)
    requires allowed != {}
    ensures Filter(rows, (row: VectorRecord) => Allowed(allowed, row)) ==
            Filter(rows, (row: VectorRecord) => row.key in allowed)
  {
    if rows != [] {
      FilterSame(rows[..|rows| - 1], allowed);
    }
  }

  lemma {:induction false} PartDistinct(rows: seq<VectorRecord>, allowed: set<string>)
    requires DistinctRows(rows)
    ensures DistinctRows(Filter(rows, (row: VectorRecord) => row.key in allowed))
  {
    if rows != [] {
      var n := |rows| - 1;
      PartDistinct(rows[..n], allowed);
      var rest := Filter(rows[..n], (row: VectorRecord) => row.key in allowed);
      forall i | 0 <= i < |rest|
        ensures rest[i].key != rows[n].key
      {
        assert rest[i] in rest;
        assert rest[i] in rows[..n];
      }
    }
  }

  lemma ScoredWhole(query: Vector, a: seq<VectorRecord>, b: seq<VectorRecord>, rows: seq<VectorRecord>)
    requires DistinctRows(a) && DistinctRows(b) && DistinctRows(rows) && Keys(a) !! Keys(b)
    requires forall row :: row in rows <==> row in a || row in b
    ensures DistinctChunks(ScoredAll(query, a) + ScoredAll(query, b)) && Distinct(ScoredAll(query, rows))
    ensures forall c :: c in ScoredAll(query, rows) <==> c in ScoredAll(query, a) || c in ScoredAll(query, b)
  {
    var sa, sb, sr := ScoredAll(query, a), ScoredAll(query, b), ScoredAll(query, rows);
    hide ScoredAll;
    var ab := sa + sb;
    forall i, j | 0 <= i < j < |ab|
      ensures ab[i].chunk != ab[j].chunk
    {
      if i < |a| <= j {
        assert a[i].key in Keys(a) && b[j - |a|].key in Keys(b);
      }
    }
    forall c | c in sr
      ensures c in sa || c in sb
    {
      var i :| 0 <= i < |rows| && sr[i] == c;
      assert rows[i] in rows;
      if rows[i] in a {
        var j :| 0 <= j < |a| && a[j] == rows[i];
        assert sa[j] == c;
      } else {
        var j :| 0 <= j < |b| && b[j] == rows[i];
        assert sb[j] == c;
      }
    }
    forall c | c in sa || c in sb
      ensures c in sr
    {
      var row: VectorRecord;
      if c in sa {
        var i :| 0 <= i < |a| && sa[i] == c;
        row := a[i];
      } else {
        var i :| 0 <= i < |b| && sb[i] == c;
        row := b[i];
      }
      assert row in rows;
      var j :| 0 <= j < |rows| && rows[j] == row;
      assert sr[j] == c;
    }
  }

  /** The dimension a query is held to: the base's, unless the base is empty. */
  function SearchDimension(t: Tiered): nat { if t.base.index.rows != [] then t.base.index.dimension else t.delta.dimension }

  lemma TiersMatch(t: Tiered, baseAllowed: set<string>, deltaAllowed: set<string>)
    requires TiersOk(t) && baseAllowed <= Visible(t) && deltaAllowed <= t.deltaKeys
    ensures baseAllowed != {} ==> t.base.index.rows != []
    ensures deltaAllowed != {} ==> t.delta.rows != [] && t.delta.dimension == SearchDimension(t) == t.dimension
    ensures t.dimension != 0 && baseAllowed != {} ==> SearchDimension(t) == t.dimension
  {
    assert t.base.index.rows != [] ==> Normalized(t.base.index.rows[0].vector);
    assert t.delta.rows != [] ==> Normalized(t.delta.rows[0].vector);
    if baseAllowed != {} {
      var key :| key in baseAllowed;
      var row :| row in t.base.index.rows && row.key == key;
    }
    if deltaAllowed != {} {
      var key :| key in deltaAllowed;
      var row :| row in t.delta.rows && row.key == key;
    }
  }

  /** The best of both tiers, merged, are the best of everything in scope. */
  lemma TiersTogether(t: Tiered, query: Vector, baseAllowed: set<string>, deltaAllowed: set<string>, k: nat,
                      rows: seq<VectorRecord>)
    requires TiersOk(t) && baseAllowed <= Visible(t) && deltaAllowed <= t.deltaKeys && k > 0
    requires IsScope(t, baseAllowed, deltaAllowed, rows)
    ensures var a := TopK(ScoredAll(query, Part(t.base.index, baseAllowed)), k);
      var b := TopK(ScoredAll(query, Part(t.delta, deltaAllowed)), k);
      TakeUnique(Sort(a + b, Ranks), {}, k) == TopK(ScoredAll(query, rows), k)
  {
    hide TopK, ScoredAll, TakeUnique, Sort, Ranks;
    var a := Part(t.base.index, baseAllowed);
    var b := Part(t.delta, deltaAllowed);
    PartDistinct(t.base.index.rows, baseAllowed);
    PartDistinct(t.delta.rows, deltaAllowed);
    assert Keys(a) !! Keys(b);
    ScoredWhole(query, a, b, rows);
    MergeIsTopK(ScoredAll(query, a), ScoredAll(query, b), ScoredAll(query, rows), k);
  }

  lemma NothingAllowed(x: ExactIndex, query: Vector, k: nat)
    ensures TopK(ScoredAll(query, Part(x, {})), k) == []
  {
    var none: set<string> := {};
    FilterNone(x.rows, (row: VectorRecord) => row.key in none);
    assert Part(x, none) == [] && Sort(ScoredAll(query, []), Ranks) == [];
  }

  /** The filtered two-tier search returns exactly one sort of everything in scope, cut at k. */
  method SearchTiers(t: Tiered, query: Vector, baseAllowed: set<string>, deltaAllowed: set<string>, k: nat,
                     ghost rows: seq<VectorRecord>) returns (r: Result<seq<Candidate>>)
    requires TiersOk(t)
    requires baseAllowed <= Visible(t) && deltaAllowed <= t.deltaKeys && IsScope(t, baseAllowed, deltaAllowed, rows)
    ensures r == Answer(query, SearchDimension(t), baseAllowed != {} || deltaAllowed != {}, rows, k)
  {
    hide TopK, ScoredAll, Part, TiersOk, IsScope, TakeUnique, Sort, Ranks, Normalized;
    TiersMatch(t, baseAllowed, deltaAllowed);
    NothingAllowed(t.base.index, query, k);
    NothingAllowed(t.delta, query, k);
    var base := SearchTier(t.base.index, query, baseAllowed, k);
    if base.Err? {
      return base;
    }
    var delta := SearchTier(t.delta, query, deltaAllowed, k);
    if delta.Err? {
      return delta;
    }
    var merged := MergeTiers(base.value, delta.value, k);
    if k > 0 {
      TiersTogether(t, query, baseAllowed, deltaAllowed, k, rows);
    }
    MergeNothing(k);
    return Ok(merged);
  }

  lemma MergeNothing(k: nat)
    ensures TakeUnique(Sort<Candidate>([] + [], Ranks), {}, k) == []
  {
  }
}
