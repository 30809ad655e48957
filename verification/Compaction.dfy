/** Gathering every live vector, for a compacted or restored base. */
module Compaction {
  import opened Wrappers
  import opened Documents
  import opened Sorting
  import opened Dense
  import opened TieredIndex
  import opened Generations
  import opened Serving
  import opened GenerationSafety

  /** The vectors of a document's chunks, in order. */
  function ChunkRows(cs: seq<PreparedChunk>): (rows: seq<VectorRecord>)
    ensures forall row :: row in rows <==> exists c :: c in cs && c.embedding != [] && row == VectorRecord(c.key, c.embedding)
  {
    if cs == [] then []
    else
      var n := |cs| - 1;
      var rest := ChunkRows(cs[..n]);
      assert cs == cs[..n] + [cs[n]];
      if cs[n].embedding == [] then rest else rest + [VectorRecord(cs[n].key, cs[n].embedding)]
  }

  /** The vectors of the listed documents, in order. */
  function DocRows(docs: Docs, keys: seq<DocKey>): (rows: seq<VectorRecord>)
    requires forall d :: d in keys ==> d in docs
    ensures forall row :: row in rows <==>
      exists d :: d in keys && row in ChunkRows(docs[d].prepared.chunks)
  {
    if keys == [] then []
    else
      var n := |keys| - 1;
      assert keys == keys[..n] + [keys[n]];
      DocRows(docs, keys[..n]) + ChunkRows(docs[keys[n]].prepared.chunks)
  }

  lemma {:induction false} ChunkRowsDistinct(cs: seq<PreparedChunk>)
    requires forall i, j :: 0 <= i < j < |cs| ==> cs[i].key != cs[j].key
    ensures DistinctRows(ChunkRows(cs))
  {
    if cs != [] {
      var n := |cs| - 1;
      ChunkRowsDistinct(cs[..n]);
      var rest := ChunkRows(cs[..n]);
      forall i | 0 <= i < |rest|
        ensures rest[i].key != cs[n].key
      {
        assert rest[i] in rest;
        var c :| c in cs[..n] && rest[i] == VectorRecord(c.key, c.embedding);
      }
    }
  }

  lemma RowChunk(docs: Docs, d: DocKey, row: VectorRecord)
    requires d in docs && row in ChunkRows(docs[d].prepared.chunks)
    ensures exists c :: ChunkOf(docs, d, c) && c.embedding != [] && row == VectorRecord(c.key, c.embedding)
  {
    var c :| c in docs[d].prepared.chunks && c.embedding != [] && row == VectorRecord(c.key, c.embedding);
    assert ChunkOf(docs, d, c);
  }

  lemma OtherRows(docs: Docs, d: DocKey, e: DocKey, row: VectorRecord, other: VectorRecord)
    requires KeysAreUnique(docs) && d in docs && e in docs && d != e
    requires row in ChunkRows(docs[d].prepared.chunks) && other in ChunkRows(docs[e].prepared.chunks)
    ensures row.key != other.key
  {
    hide ChunkRows;
    RowChunk(docs, d, row);
    RowChunk(docs, e, other);
  }

  lemma {:induction false} DocRowsDistinct(docs: Docs, keys: seq<DocKey>)
    requires KeysAreUnique(docs) && Distinct(keys) && forall d :: d in keys ==> d in docs
    ensures DistinctRows(DocRows(docs, keys))
  {
    if keys != [] {
      var n := |keys| - 1;
      DocRowsDistinct(docs, keys[..n]);
      ChunkRowsDistinct(docs[keys[n]].prepared.chunks);
      var rest, last := DocRows(docs, keys[..n]), ChunkRows(docs[keys[n]].prepared.chunks);
      hide ChunkRows, KeysAreUnique;
      forall i, j | 0 <= i < |rest| && 0 <= j < |last|
        ensures rest[i].key != last[j].key
      {
        assert rest[i] in rest && last[j] in last;
        var d :| d in keys[..n] && rest[i] in ChunkRows(docs[d].prepared.chunks);
        OtherRows(docs, d, keys[n], rest[i], last[j]);
      }
    }
  }

  /** Exactly the live embedded chunks. */
  ghost predicate AllRows(docs: Docs, rows: seq<VectorRecord>) {
    forall row :: row in rows <==> DeltaOf(docs, docs.Keys, row)
  }

  ghost predicate Lists(keys: seq<DocKey>, docs: Docs) { Distinct(keys) && forall d :: d in keys <==> d in docs }

  lemma DocRowsAll(docs: Docs, keys: seq<DocKey>)
    requires Lists(keys, docs)
    ensures AllRows(docs, DocRows(docs, keys)) && (KeysAreUnique(docs) ==> DistinctRows(DocRows(docs, keys)))
  {
    hide KeysAreUnique;
    if KeysAreUnique(docs) {
      DocRowsDistinct(docs, keys);
    }
    forall row | row in DocRows(docs, keys)
      ensures DeltaOf(docs, docs.Keys, row)
    {
      var d :| d in keys && row in ChunkRows(docs[d].prepared.chunks);
      RowChunk(docs, d, row);
    }
    forall row | DeltaOf(docs, docs.Keys, row)
      ensures row in DocRows(docs, keys)
    {
      var d, c :| ChunkOf(docs, d, c) && c.embedding != [] && row == VectorRecord(c.key, c.embedding);
      assert d in keys && row in ChunkRows(docs[d].prepared.chunks);
    }
  }

  /** The rows of the listed documents, in that order. */
  method GatherRows(docs: Docs, keys: seq<DocKey>) returns (rows: seq<VectorRecord>)
    requires Lists(keys, docs)
    ensures AllRows(docs, rows) && (KeysAreUnique(docs) ==> DistinctRows(rows))
  {
    hide AllRows, KeysAreUnique;
    rows := [];
    for i := 0 to |keys|
      invariant rows == DocRows(docs, keys[..i])
    {
      var chunks := docs[keys[i]].prepared.chunks;
      ghost var before := rows;
      for j := 0 to |chunks|
        invariant rows == before + ChunkRows(chunks[..j])
      {
        assert chunks[..j + 1][..j] == chunks[..j];
        if chunks[j].embedding != [] {
          rows := rows + [VectorRecord(chunks[j].key, chunks[j].embedding)];
        }
      }
      assert chunks[..|chunks|] == chunks;
      assert keys[..i + 1][..i] == keys[..i];
    }
    assert keys[..|keys|] == keys;
    DocRowsAll(docs, keys);
  }

  lemma RowsIndex(docs: Docs, rows: seq<VectorRecord>, dimension: nat)
    requires AllRows(docs, rows) && Uniform(docs, dimension)
    ensures forall row :: row in rows ==> |row.vector| == dimension
    ensures Vectors(docs) && DistinctRows(rows) ==> exists d :: IndexOk(ExactIndex(rows, d))
  {
    hide Normalized, ChunkOf;
    if Vectors(docs) && DistinctRows(rows) {
      assert forall i :: 0 <= i < |rows| ==> rows[i] in rows;
      assert IndexOk(ExactIndex(rows, if rows == [] then 0 else dimension));
    }
  }

  /** The documents' own dimension, zero when nothing is embedded. */
  ghost predicate DimensionOf(docs: Docs, dimension: nat) {
    Uniform(docs, dimension) && (LiveKeys(docs) == {} ==> dimension == 0)
  }

  lemma OwnDimension(docs: Docs, dimension: nat)
    requires DimensionOf(docs, dimension)
    ensures dimension == DimensionIn(docs)
  {
    hide LiveKeys;
    DimensionInIs(docs, dimension);
    if LiveKeys(docs) != {} {
      var k :| k in LiveKeys(docs);
      var d, c := LiveWitness(docs, k);
    } else if HasChunks(docs) {
      var d, c :| ChunkOf(docs, d, c);
      ChunkIsLive(docs, d, c);
    }
  }

  /** A generation of these documents with everything in the base, whatever the base was before. */
  method Rebase(docs: Docs, rows: seq<VectorRecord>, dimension: nat, number: nat) returns (r: Result<Generation>)
    requires AllRows(docs, rows) && (KeysAreUnique(docs) ==> DistinctRows(rows))
    ensures r.Ok? ==> GenOk(r.value) && r.value.documents == docs && r.value.number == number
    ensures r.Ok? ==> r.value.dense.deltaKeys == {} && r.value.dense.tombstones == {}
    ensures r.Ok? ==> r.value.dense.base.index.rows == rows && r.value.dense.base.dimension == dimension
    ensures r.Ok? && DimensionOf(docs, dimension) ==> r.value.dimension == dimension
    ensures r.Ok? ==> Buildable(docs)
    ensures Buildable(docs) && Vectors(docs) && DimensionOf(docs, dimension) ==> r.Ok?
  {
    hide KeysAreUnique, Uniform, LiveKeys, Vectors, DeltaOf, DeltaRow, DenseOf, Placed, IndexOk, TiersOk, Settled, OneDimension, FitsBase;
    if Buildable(docs) && Vectors(docs) && DimensionOf(docs, dimension) {
      RowsIndex(docs, rows, dimension);
    }
    var dense := CompactTiers(rows, dimension);
    if dense.Err? {
      return Err(dense.error);
    }
    if Buildable(docs) && Vectors(docs) && DimensionOf(docs, dimension) {
      OwnBase(docs, dense.value);
    }
    r := BuildGeneration(docs, dense.value, {}, {}, number);
    if r.Ok? {
      CompactKeeps(r.value, docs, dense.value);
      if DimensionOf(docs, dimension) {
        DimensionIs(docs, dimension, r.value);
      }
    }
  }

  lemma OwnBase(docs: Docs, t: Tiered)
    requires Uniform(docs, t.base.dimension)
    ensures FitsBase(t.base, docs)
  {
  }

  lemma DimensionIs(docs: Docs, dimension: nat, g: Generation)
    requires DimensionOf(docs, dimension)
    requires DenseOf(g) && g.documents == docs
    ensures g.dimension == dimension
  {
    hide LiveKeys, KeysAreUnique, TiersOk, StoredAs;
    if LiveKeys(docs) != {} {
      var k :| k in LiveKeys(docs);
      var d, c := LiveWitness(docs, k);
    }
  }

  /** The size of the first vector is the documents' dimension, when they have one. */
  lemma FirstDimension(docs: Docs, rows: seq<VectorRecord>)
    requires AllRows(docs, rows) && OneDimension(docs)
    ensures DimensionOf(docs, if rows == [] then 0 else |rows[0].vector|)
  {
    hide LiveKeys;
    var n: nat :| Uniform(docs, n);
    if rows != [] {
      assert rows[0] in rows;
      var d, c :| ChunkOf(docs, d, c) && c.embedding != [] && rows[0] == VectorRecord(c.key, c.embedding);
      ChunkIsLive(docs, d, c);
    } else {
      forall d, c | ChunkOf(docs, d, c)
        ensures c.embedding == []
      {
        assert c.embedding != [] ==> DeltaOf(docs, docs.Keys, VectorRecord(c.key, c.embedding));
      }
    }
  }

  // --------------------------------------------------------- what readers can tell

  lemma ScoredOnce(query: Vector, rows: seq<VectorRecord>)
    requires DistinctRows(rows)
    ensures Distinct(ScoredAll(query, rows))
    ensures forall c :: c in ScoredAll(query, rows) <==> exists row :: row in rows && c == Scored(query, row)
  {
    var cs := ScoredAll(query, rows);
    forall i, j | 0 <= i < j < |cs|
      ensures cs[i] != cs[j]
    {
      assert cs[i].chunk == rows[i].key && cs[j].chunk == rows[j].key;
    }
    forall row | row in rows
      ensures Scored(query, row) in cs
    {
      var i :| 0 <= i < |rows| && rows[i] == row;
      assert cs[i] == Scored(query, row);
    }
  }

  /** The order in which rows are gathered does not show in an answer. */
  lemma AnswersAgree(query: Vector, dimension: nat, rows: seq<VectorRecord>, rows': seq<VectorRecord>, k: nat)
    requires DistinctRows(rows) && DistinctRows(rows') && forall row :: row in rows <==> row in rows'
    ensures Answer(query, dimension, rows != [], rows, k) == Answer(query, dimension, rows' != [], rows', k)
  {
    hide Normalized, Sort, Ranks;
    assert rows != [] ==> rows[0] in rows';
    assert rows' != [] ==> rows'[0] in rows;
    ScoredOnce(query, rows);
    ScoredOnce(query, rows');
    var cs, cs' := ScoredAll(query, rows), ScoredAll(query, rows');
    hide ScoredAll;
    assert forall c :: c in cs <==> c in cs';
    SortProps(cs');
    SortIs(cs, Sort(cs', Ranks));
  }

  /** A generation's stored chunks, dimension and dense answers depend on its documents alone. */
  lemma OnlyDocumentsShow(g: Generation, g': Generation, query: Vector, passes: Metadata -> bool, k: nat,
                          rows: seq<VectorRecord>, rows': seq<VectorRecord>)
    requires GenOk(g) && GenOk(g') && g.documents == g'.documents
    requires LiveRows(g.documents, passes, rows) && LiveRows(g'.documents, passes, rows')
    ensures g.chunks == g'.chunks && g.dimension == g'.dimension
    ensures Answer(query, g.dimension, rows != [], rows, k) == Answer(query, g'.dimension, rows' != [], rows', k)
  {
    SameStored(g, g');
    DimensionIs(g.documents, g.dimension, g') by { hide TiersOk, KeysAreUnique, Placed, StoredAs, LiveKeys; }
    AnswersAgree(query, g.dimension, rows, rows', k) by { hide GenOk, LiveRow; }
    hide GenOk, LiveRows;
  }

  lemma SameStored(g: Generation, g': Generation)
    requires GenOk(g) && GenOk(g') && g.documents == g'.documents
    ensures g.chunks == g'.chunks
  {
    hide TiersOk, KeysAreUnique, Placed, LiveKeys;
    forall k | k in g.chunks
      ensures g.chunks[k] == g'.chunks[k]
    {
      var d, c := LiveWitness(g.documents, k);
    }
  }
}
