/** The data contract of the embedded backend: how the two dense tiers of every reachable generation
    divide the live chunks between them, and what a filtered dense search therefore returns. */
module GenerationSafety {
  import opened Wrappers
  import opened Documents
  import opened KeyOrder
  import opened Sorting
  import opened Dense
  import opened TieredIndex
  import opened Generations

  ghost predicate DeltaOf(docs: Docs, delta: set<DocKey>, row: VectorRecord) {
    exists d, c :: ChunkOf(docs, d, c) && d in delta && c.embedding != [] && row == VectorRecord(c.key, c.embedding)
  }

  /** Every embedded chunk is in one of the tiers, a document outside the delta set wholly in the base,
      and the tiers hold nothing that is not live. */
  ghost predicate Placed(docs: Docs, t: Tiered, delta: set<DocKey>) {
    delta <= docs.Keys && Visible(t) <= LiveKeys(docs) &&
    (forall d, c :: ChunkOf(docs, d, c) && c.embedding != [] ==>
      ContainsBase(t, c.key) || (d in delta && VectorRecord(c.key, c.embedding) in t.delta.rows)) &&
    (forall row :: row in t.delta.rows ==> DeltaOf(docs, delta, row))
  }

  ghost predicate GenOk(g: Generation) { DenseOf(g) && Placed(g.documents, g.dense, g.deltaDocuments) }

  lemma EmptyOk()
    ensures GenOk(EmptyGeneration)
  {
    assert LiveKeys(map[]) == {};
  }

  const EmptyGeneration := Generation(map[], map[], EmptyTiers, {}, 0, 0)

  // ----------------------------------------------------------- replacing a document

  function DocKeys(docs: Docs, d: DocKey): set<string> {
    if d in docs then set c | c in docs[d].prepared.chunks :: c.key else {}
  }

  /** The visible base rows of a document that its replacement does not keep. */
  function Hidden(docs: Docs, t: Tiered, d: DocKey, kept: set<string>): set<string> {
    set k | k in DocKeys(docs, d) && ContainsBase(t, k) && k !in kept
  }

  ghost predicate Elsewhere(docs: Docs, docs': Docs, d: DocKey) {
    forall e :: e != d ==> (e in docs <==> e in docs') && (e in docs ==> docs[e] == docs'[e])
  }

  lemma DocKeysAre(docs: Docs, d: DocKey)
    ensures forall c :: ChunkOf(docs, d, c) ==> c.key in DocKeys(docs, d)
    ensures forall k :: k in DocKeys(docs, d) ==> exists c :: ChunkOf(docs, d, c) && c.key == k
  {
    forall k | k in DocKeys(docs, d)
      ensures exists c :: ChunkOf(docs, d, c) && c.key == k
    {
      var c :| c in docs[d].prepared.chunks && c.key == k;
      assert ChunkOf(docs, d, c);
    }
  }

  /** A visible base row of the new documents was not hidden, although membership is tested against the
      old tombstones. */
  lemma StaysVisible(docs: Docs, docs': Docs, t: Tiered, d: DocKey, e: DocKey, c: PreparedChunk)
    requires KeysAreUnique(docs) && Elsewhere(docs, docs', d) && ChunkOf(docs', e, c)
    ensures c.key !in Hidden(docs, t, d, DocKeys(docs', d))
  {
    hide KeysAreUnique;
    DocKeysAre(docs, d);
    DocKeysAre(docs', d);
    hide DocKeys;
    if e != d && c.key in DocKeys(docs, d) {
      var x :| ChunkOf(docs, d, x) && x.key == c.key;
      assert ChunkOf(docs, e, c);
      OneKeyOneChunk(docs);
    }
  }

  lemma VisibleIsLive(docs: Docs, docs': Docs, t: Tiered, d: DocKey, k: string)
    requires Elsewhere(docs, docs', d) && Visible(t) <= LiveKeys(docs)
    requires ContainsBase(t, k) && k !in Hidden(docs, t, d, DocKeys(docs', d))
    ensures k in LiveKeys(docs')
  {
    hide LiveKeys;
    var e, x := LiveWitness(docs, k);
    DocKeysAre(docs, d);
    DocKeysAre(docs', d);
    hide DocKeys;
    if e == d {
      assert k in DocKeys(docs', d);
      var y :| ChunkOf(docs', d, y) && y.key == k;
      ChunkIsLive(docs', d, y);
    } else {
      assert ChunkOf(docs', e, x);
      ChunkIsLive(docs', e, x);
    }
  }

  /** Activation and deletion keep the contract: one document changes, its old visible rows are hidden
      unless kept, and it is a delta document from then on if it is still there. */
  lemma ReplaceKeeps(g: Generation, g': Generation, docs': Docs, d: DocKey, delta': set<DocKey>)
    requires GenOk(g) && Elsewhere(g.documents, docs', d)
    requires delta' == if d in docs' then g.deltaDocuments + {d} else g.deltaDocuments - {d}
    requires Built(g', docs', g.dense, delta', g.dense.tombstones + Hidden(g.documents, g.dense, d, DocKeys(docs', d)))
    ensures GenOk(g')
  {
    hide DenseOf, LiveKeys, Hidden, DocKeys, KeysAreUnique;
    var docs, t, t' := g.documents, g.dense, g'.dense;
    UniqueOf(g);
    forall k | k in Visible(t')
      ensures k in LiveKeys(docs')
    {
      VisibleIsLive(docs, docs', t, d, k);
    }
    forall e, c | ChunkOf(docs', e, c) && c.embedding != []
      ensures ContainsBase(t', c.key) || (e in delta' && VectorRecord(c.key, c.embedding) in t'.delta.rows)
    {
      ReplacedChunk(g, g', docs', d, delta', e, c);
    }
    forall row | row in t'.delta.rows
      ensures DeltaOf(docs', delta', row)
    {
      assert DeltaRow(docs', t, delta', row);
    }
  }

  lemma UniqueOf(g: Generation)
    requires DenseOf(g)
    ensures KeysAreUnique(g.documents) && TiersOk(g.dense)
  {
  }

  lemma ReplacedChunk(g: Generation, g': Generation, docs': Docs, d: DocKey, delta': set<DocKey>, e: DocKey, c: PreparedChunk)
    requires Placed(g.documents, g.dense, g.deltaDocuments) && KeysAreUnique(g.documents) && TiersOk(g.dense)
    requires Elsewhere(g.documents, docs', d)
    requires delta' == if d in docs' then g.deltaDocuments + {d} else g.deltaDocuments - {d}
    requires Built(g', docs', g.dense, delta', g.dense.tombstones + Hidden(g.documents, g.dense, d, DocKeys(docs', d)))
    requires ChunkOf(docs', e, c) && c.embedding != []
    ensures ContainsBase(g'.dense, c.key) || (e in delta' && VectorRecord(c.key, c.embedding) in g'.dense.delta.rows)
  {
    hide DenseOf, LiveKeys, Hidden, DocKeys, KeysAreUnique, TiersOk;
    StaysVisible(g.documents, docs', g.dense, d, e, c);
    if !ContainsBase(g.dense, c.key) {
      assert e != d ==> ChunkOf(g.documents, e, c);
      assert DeltaRow(docs', g.dense, delta', VectorRecord(c.key, c.embedding));
    }
  }

  /** A compacted or restored generation has everything in the base. */
  lemma CompactKeeps(g': Generation, docs: Docs, t: Tiered)
    requires TiersOk(t) && t.tombstones == {} && Built(g', docs, t, {}, {})
    requires forall row :: row in t.base.index.rows <==> DeltaOf(docs, docs.Keys, row)
    ensures GenOk(g') && g'.dense.deltaKeys == {}
  {
    hide DenseOf, LiveKeys, KeysAreUnique, IndexOk;
    assert forall row :: !DeltaRow(docs, t, {}, row);
    forall k | k in Visible(g'.dense)
      ensures k in LiveKeys(docs)
    {
      var row :| row in t.base.index.rows && row.key == k;
      var d, c :| ChunkOf(docs, d, c) && row == VectorRecord(c.key, c.embedding);
      ChunkIsLive(docs, d, c);
    }
    forall d, c | ChunkOf(docs, d, c) && c.embedding != []
      ensures ContainsBase(g'.dense, c.key)
    {
      assert DeltaOf(docs, docs.Keys, VectorRecord(c.key, c.embedding));
      assert VectorRecord(c.key, c.embedding) in t.base.index.rows;
    }
    NoDeltaKeys(g');
  }

  lemma NoDeltaKeys(g: Generation)
    requires DenseOf(g) && forall row :: row !in g.dense.delta.rows
    ensures g.dense.deltaKeys == {}
  {
  }

  // ------------------------------------------------------------------ the partition

  lemma DeltaIsLive(g: Generation)
    requires GenOk(g)
    ensures g.dense.deltaKeys <= EmbeddedKeys(g.documents)
  {
    hide LiveKeys, EmbeddedKeys, KeysAreUnique, IndexOk;
    forall k | k in g.dense.deltaKeys
      ensures k in EmbeddedKeys(g.documents)
    {
      var row :| row in g.dense.delta.rows && row.key == k;
      var d, c :| ChunkOf(g.documents, d, c) && c.embedding != [] && row == VectorRecord(c.key, c.embedding);
      ChunkIsLive(g.documents, d, c);
    }
  }

  lemma EmbeddedIsPlaced(g: Generation)
    requires GenOk(g)
    ensures EmbeddedKeys(g.documents) <= Visible(g.dense) + g.dense.deltaKeys
  {
    hide LiveKeys, EmbeddedKeys, KeysAreUnique, IndexOk;
    forall k | k in EmbeddedKeys(g.documents)
      ensures k in Visible(g.dense) + g.dense.deltaKeys
    {
      var d, c := EmbeddedWitness(g.documents, k);
      assert VectorRecord(c.key, c.embedding) in g.dense.delta.rows ==> c.key in g.dense.deltaKeys;
    }
  }

  /** The embedded live chunks are the disjoint union of the visible base and the delta, and a document
      outside the delta set lies wholly in the base. The union is exact if and only if the generation has
      vectors or hides its whole base. */
  lemma Partition(g: Generation)
    requires GenOk(g)
    ensures g.dense.tombstones <= g.dense.base.keys && Visible(g.dense) !! g.dense.deltaKeys
    ensures EmbeddedKeys(g.documents) == Visible(g.dense) + g.dense.deltaKeys <==>
            g.dimension != 0 || g.dense.base.keys <= g.dense.tombstones
    ensures g.dimension != 0 ==> LiveKeys(g.documents) == Visible(g.dense) + g.dense.deltaKeys
    ensures forall d, c :: ChunkOf(g.documents, d, c) && d !in g.deltaDocuments && g.dimension != 0 ==>
      c.key in Visible(g.dense) && c.key !in g.dense.deltaKeys
  {
    hide LiveKeys, EmbeddedKeys, KeysAreUnique, IndexOk, StoredAs, BaseOk;
    DeltaIsLive(g);
    EmbeddedIsPlaced(g);
    UniformKeys(g.documents, g.dimension);
    var visible, delta := Visible(g.dense), g.dense.deltaKeys;
    if g.dimension == 0 {
      assert delta == {};
      NothingLeft(g.dense.base.keys, g.dense.tombstones);
    } else {
      assert EmbeddedKeys(g.documents) == LiveKeys(g.documents) == visible + delta;
    }
    OutsideIsBase(g);
  }

  lemma NothingLeft(all: set<string>, hidden: set<string>)
    ensures all - hidden == {} <==> all <= hidden
  {
    assert forall k :: k in all && k !in hidden ==> k in all - hidden;
  }

  lemma OutsideIsBase(g: Generation)
    requires GenOk(g)
    ensures forall d, c :: ChunkOf(g.documents, d, c) && d !in g.deltaDocuments && g.dimension != 0 ==>
      c.key in Visible(g.dense) && c.key !in g.dense.deltaKeys
  {
    hide LiveKeys, KeysAreUnique, IndexOk, StoredAs, BaseOk;
  }

  // -------------------------------------------------------------------- searching

  /** Equal chunk keys have equal embeddings, in the documents and in the base. */
  ghost predicate Agrees(docs: Docs, base: Base, vec: string -> Vector) {
    (forall d, c :: ChunkOf(docs, d, c) && c.embedding != [] ==> c.embedding == vec(c.key)) &&
    (forall row :: row in base.index.rows ==> row.vector == vec(row.key))
  }

  /** The live chunks whose document metadata passes the filter, each with its own embedding. */
  ghost predicate LiveRow(docs: Docs, passes: Metadata -> bool, row: VectorRecord) {
    exists d, c :: ChunkOf(docs, d, c) && passes(docs[d].prepared.metadata) && row == VectorRecord(c.key, c.embedding)
  }

  ghost predicate LiveRows(docs: Docs, passes: Metadata -> bool, rows: seq<VectorRecord>) {
    DistinctRows(rows) && forall row :: row in rows <==> LiveRow(docs, passes, row)
  }

  /** The matching rows among the chunk keys seen so far. */
  ghost predicate Scanned(rows: seq<VectorRecord>, chunks: map<string, StoredChunk>, seen: set<string>,
                          passes: Metadata -> bool, vec: string -> Vector)
    requires seen <= chunks.Keys
  {
    DistinctRows(rows) && forall row :: row in rows <==>
      row.key in seen && passes(chunks[row.key].metadata) && row.vector == vec(row.key)
  }

  lemma ScannedNext(rows: seq<VectorRecord>, chunks: map<string, StoredChunk>, seen: set<string>,
                    passes: Metadata -> bool, vec: string -> Vector, key: string)
    requires seen <= chunks.Keys && Scanned(rows, chunks, seen, passes, vec) && key in chunks && key !in seen
    ensures Scanned(if passes(chunks[key].metadata) then rows + [VectorRecord(key, vec(key))] else rows,
                    chunks, seen + {key}, passes, vec)
  {
    assert forall i :: 0 <= i < |rows| ==> rows[i] in rows;
  }

  lemma LiveChunk(g: Generation, vec: string -> Vector, d: DocKey, c: PreparedChunk)
    requires GenOk(g) && Agrees(g.documents, g.dense.base, vec) && g.dimension != 0 && ChunkOf(g.documents, d, c)
    ensures c.embedding == vec(c.key) && c.embedding != [] && c.key in g.chunks
    ensures g.chunks[c.key].metadata == g.documents[d].prepared.metadata
  {
    hide LiveKeys, KeysAreUnique, TiersOk, Placed;
  }

  lemma ScannedIsLive(g: Generation, rows: seq<VectorRecord>, passes: Metadata -> bool, vec: string -> Vector)
    requires GenOk(g) && Agrees(g.documents, g.dense.base, vec) && g.dimension != 0
    requires Scanned(rows, g.chunks, g.chunks.Keys, passes, vec)
    ensures LiveRows(g.documents, passes, rows)
  {
    assert g.chunks.Keys == LiveKeys(g.documents) by { hide LiveKeys, TiersOk, Placed; }
    hide GenOk, Agrees, ChunkOf, LiveKeys;
    forall row | row in rows
      ensures LiveRow(g.documents, passes, row)
    {
      var d, c := LiveWitness(g.documents, row.key);
      LiveChunk(g, vec, d, c);
    }
    forall row | LiveRow(g.documents, passes, row)
      ensures row in rows
    {
      var d, c :| ChunkOf(g.documents, d, c) && passes(g.documents[d].prepared.metadata) &&
                  row == VectorRecord(c.key, c.embedding);
      LiveChunk(g, vec, d, c);
    }
  }

  function AllowedOf(keys: set<string>, g: Generation, passes: Metadata -> bool): set<string> {
    set k | k in keys && k in g.chunks && passes(g.chunks[k].metadata)
  }

  lemma TierRow(g: Generation, vec: string -> Vector, row: VectorRecord)
    requires GenOk(g) && Agrees(g.documents, g.dense.base, vec)
    ensures row in g.dense.delta.rows ==> row.vector == vec(row.key) && row.key in g.dense.deltaKeys
    ensures row in g.dense.base.index.rows ==> row.vector == vec(row.key) && row.key in g.dense.base.keys
    ensures row.key in g.dense.deltaKeys && row.vector == vec(row.key) ==> row in g.dense.delta.rows
    ensures row.key in g.dense.base.keys && row.vector == vec(row.key) ==> row in g.dense.base.index.rows
  {
    hide LiveKeys, KeysAreUnique, IndexOk;
    if row.key in g.dense.deltaKeys && row.vector == vec(row.key) {
      var r :| r in g.dense.delta.rows && r.key == row.key;
      assert DeltaOf(g.documents, g.deltaDocuments, r);
    }
    if row.key in g.dense.base.keys && row.vector == vec(row.key) {
      var r :| r in g.dense.base.index.rows && r.key == row.key;
    }
  }

  lemma ScannedIsScope(g: Generation, rows: seq<VectorRecord>, passes: Metadata -> bool, vec: string -> Vector)
    requires GenOk(g) && Agrees(g.documents, g.dense.base, vec) && g.dimension != 0
    requires Scanned(rows, g.chunks, g.chunks.Keys, passes, vec)
    ensures IsScope(g.dense, AllowedOf(Visible(g.dense), g, passes), AllowedOf(g.dense.deltaKeys, g, passes), rows)
    ensures rows != [] <==>
            AllowedOf(Visible(g.dense), g, passes) != {} || AllowedOf(g.dense.deltaKeys, g, passes) != {}
  {
    hide GenOk, Agrees, LiveKeys, EmbeddedKeys, ChunkOf;
    Partition(g);
    GenerationFacts(g);
    hide TiersOk;
    var inBase, inDelta := AllowedOf(Visible(g.dense), g, passes), AllowedOf(g.dense.deltaKeys, g, passes);
    forall row
      ensures row in rows <==>
        (row in g.dense.base.index.rows && row.key in inBase) || (row in g.dense.delta.rows && row.key in inDelta)
    {
      TierRow(g, vec, row);
    }
    if rows != [] {
      assert rows[0] in rows;
    }
    forall k | k in inBase || k in inDelta
      ensures VectorRecord(k, vec(k)) in rows
    {
    }
  }

  lemma AllowedNone(keys: set<string>, g: Generation, passes: Metadata -> bool)
    ensures AllowedOf(keys - g.chunks.Keys, g, passes) == {}
  {
  }

  lemma AllowedNext(keys: set<string>, g: Generation, passes: Metadata -> bool, rest: set<string>, key: string)
    requires key in rest && key in g.chunks
    ensures AllowedOf(keys - (rest - {key}), g, passes) ==
            AllowedOf(keys - rest, g, passes) + if key in keys && passes(g.chunks[key].metadata) then {key} else {}
  {
  }

  /** The matching chunk keys, sorted into the two tiers. */
  method ScanChunks(g: Generation, passes: Metadata -> bool, ghost vec: string -> Vector)
    returns (inBase: set<string>, inDelta: set<string>, ghost rows: seq<VectorRecord>)
    requires Visible(g.dense) <= g.chunks.Keys && g.dense.deltaKeys <= g.chunks.Keys
    ensures inBase == AllowedOf(Visible(g.dense), g, passes) && inDelta == AllowedOf(g.dense.deltaKeys, g, passes)
    ensures Scanned(rows, g.chunks, g.chunks.Keys, passes, vec)
  {
    hide Scanned, AllowedOf;
    var rest := g.chunks.Keys;
    AllowedNone(Visible(g.dense), g, passes);
    AllowedNone(g.dense.deltaKeys, g, passes);
    inBase, inDelta, rows := {}, {}, [];
    ScannedNone(g.chunks, passes, vec);
    while rest != {}
      invariant rest <= g.chunks.Keys && Scanned(rows, g.chunks, g.chunks.Keys - rest, passes, vec)
      invariant inBase == AllowedOf(Visible(g.dense) - rest, g, passes)
      invariant inDelta == AllowedOf(g.dense.deltaKeys - rest, g, passes)
      decreases |rest|
    {
      var key :| key in rest;
      ScannedNext(rows, g.chunks, g.chunks.Keys - rest, passes, vec, key);
      AllowedNext(Visible(g.dense), g, passes, rest, key);
      AllowedNext(g.dense.deltaKeys, g, passes, rest, key);
      assert g.chunks.Keys - (rest - {key}) == g.chunks.Keys - rest + {key};
      if passes(g.chunks[key].metadata) {
        rows := rows + [VectorRecord(key, vec(key))];
        if ContainsBase(g.dense, key) {
          inBase := inBase + {key};
        }
        if key in g.dense.deltaKeys {
          inDelta := inDelta + {key};
        }
      }
      rest := rest - {key};
    }
    assert g.chunks.Keys - {} == g.chunks.Keys;
    assert Visible(g.dense) - {} == Visible(g.dense) && g.dense.deltaKeys - {} == g.dense.deltaKeys;
  }

  // ------------------------------------------------------------- the ranking in plain terms

  /** Higher score first, then the lesser key. */
  predicate Before(score: real, key: string, score': real, key': string) {
    score > score' || (score == score' && KeyLess(key, key'))
  }

  /** At most k candidates in strict order, each an embedded chunk of a matching document under its score against the query,
      and every such chunk that is left out comes after all k of them. */
  ghost predicate BestLive(docs: Docs, query: Vector, passes: Metadata -> bool, k: nat, hits: seq<Candidate>) {
    |hits| <= k && (forall i, j :: 0 <= i < j < |hits| ==> Before(hits[i].score, hits[i].chunk, hits[j].score, hits[j].chunk)) &&
    (forall h :: h in hits ==> IsLive(docs, passes, query, h)) &&
    forall h :: IsLive(docs, passes, query, h) ==>
      h in hits || ComesAfter(hits, k, h)
  }

  /** An embedded chunk of a document whose metadata match, and its score. */
  ghost predicate IsLive(docs: Docs, passes: Metadata -> bool, query: Vector, h: Candidate) {
    exists d, c :: ChunkOf(docs, d, c) && passes(docs[d].prepared.metadata) && h == Candidate(c.key, Dot(query, c.embedding))
  }

  lemma RanksIsBefore(a: Candidate, b: Candidate)
    requires Ranks(a, b) && a.chunk != b.chunk
    ensures Before(a.score, a.chunk, b.score, b.chunk)
  {
  }

  lemma LiveScored(docs: Docs, passes: Metadata -> bool, rows: seq<VectorRecord>, query: Vector)
    requires LiveRows(docs, passes, rows)
    ensures forall h :: h in ScoredAll(query, rows) <==> IsLive(docs, passes, query, h)
    ensures DistinctChunks(ScoredAll(query, rows))
  {
    hide Dot;
    var cs := ScoredAll(query, rows);
    forall h | h in cs
      ensures IsLive(docs, passes, query, h)
    {
      var i :| 0 <= i < |rows| && cs[i] == h;
      assert rows[i] in rows && LiveRow(docs, passes, rows[i]);
    }
    forall h | IsLive(docs, passes, query, h)
      ensures h in cs
    {
      var d, c :| ChunkOf(docs, d, c) && passes(docs[d].prepared.metadata) && h == Candidate(c.key, Dot(query, c.embedding));
      var row := VectorRecord(c.key, c.embedding);
      assert LiveRow(docs, passes, row);
      var i :| 0 <= i < |rows| && rows[i] == row;
      assert cs[i] == h;
    }
  }

  /** One sort of the matching live chunks, cut at k, in plain terms. */
  lemma TopIsBest(docs: Docs, passes: Metadata -> bool, rows: seq<VectorRecord>, query: Vector, k: nat)
    requires LiveRows(docs, passes, rows)
    ensures BestLive(docs, query, passes, k, TopK(ScoredAll(query, rows), k))
  {
    LiveScored(docs, passes, rows, query);
    hide Sort, LiveRows, IsLive, ScoredAll, Before, Ranks, ComesAfter;
    var cs := ScoredAll(query, rows);
    SortedChunksDistinct(cs);
    SortProps(cs);
    var s := Sort(cs, Ranks);
    var hits := TopK(cs, k);
    forall i, j | 0 <= i < j < |s|
      ensures Before(s[i].score, s[i].chunk, s[j].score, s[j].chunk)
    {
      RanksIsBefore(s[i], s[j]);
    }
    forall h | h in hits
      ensures h in s
    {
      var i :| 0 <= i < |hits| && hits[i] == h;
      assert s[i] == h;
    }
    forall j | 0 <= j < |s|
      ensures s[j] in hits || ComesAfter(hits, k, s[j])
    {
      if j < |hits| {
        assert hits[j] == s[j];
      } else {
        LeftOut(s, hits, k, j);
      }
    }
  }

  predicate ComesAfter(hits: seq<Candidate>, k: nat, h: Candidate) {
    |hits| == k && forall x :: x in hits ==> Before(x.score, x.chunk, h.score, h.chunk)
  }

  lemma LeftOut(s: seq<Candidate>, hits: seq<Candidate>, k: nat, j: nat)
    requires forall a, b :: 0 <= a < b < |s| ==> Before(s[a].score, s[a].chunk, s[b].score, s[b].chunk)
    requires hits == Best(s, k) && |hits| <= j < |s|
    ensures ComesAfter(hits, k, s[j])
  {
    hide Before;
    forall x | x in hits
      ensures Before(x.score, x.chunk, s[j].score, s[j].chunk)
    {
      var i :| 0 <= i < |hits| && hits[i] == x;
      assert s[i] == x;
    }
  }

  /** The filtered dense search of a generation is one sort of all live matching chunks by score
      descending then key ascending, cut at k. */
  method DenseCandidates(g: Generation, query: Vector, passes: Metadata -> bool, k: nat, ghost vec: string -> Vector)
    returns (r: Result<seq<Candidate>>, ghost rows: seq<VectorRecord>)
    requires GenOk(g) && Agrees(g.documents, g.dense.base, vec)
    ensures k == 0 ==> r == Ok([])
    ensures k != 0 && g.dimension == 0 ==> r == if LiveKeys(g.documents) == {} then Ok([]) else Err(Unavailable)
    ensures k != 0 && g.dimension != 0 ==> LiveRows(g.documents, passes, rows)
    ensures k != 0 && g.dimension != 0 ==> r == Answer(query, g.dimension, rows != [], rows, k)
    ensures k != 0 && g.dimension != 0 ==>
      (r.Err? <==> rows != [] && (|query| != g.dimension || !Normalized(query)))
    ensures k != 0 && g.dimension != 0 && r.Ok? ==> BestLive(g.documents, query, passes, k, r.value)
  {
    hide BestLive, TopK, GenOk, Agrees, LiveKeys, Scanned, IsScope, Answer, LiveRows, TiersOk, SearchDimension, AllowedOf;
    rows := [];
    GenerationFacts(g);
    if k == 0 || g.chunks == map[] {
      return Ok([]), rows;
    }
    if g.dimension == 0 {
      return Err(Unavailable), rows;
    }
    var inBase, inDelta;
    inBase, inDelta, rows := ScanChunks(g, passes, vec);
    ScannedIsLive(g, rows, passes, vec);
    ScannedIsScope(g, rows, passes, vec);
    AllowedWithin(Visible(g.dense), g, passes);
    AllowedWithin(g.dense.deltaKeys, g, passes);
    TiersMatch(g.dense, inBase, inDelta);
    r := SearchTiers(g.dense, query, inBase, inDelta, k, rows);
    AnswerFor(g, query, rows, k);
    if k != 0 && g.dimension != 0 {
      AnswerIsBest(g.documents, query, g.dimension, passes, rows, k);
    }
  }

  lemma AnswerIsBest(docs: Docs, query: Vector, dimension: nat, passes: Metadata -> bool, rows: seq<VectorRecord>, k: nat)
    requires LiveRows(docs, passes, rows) && k != 0
    ensures var r := Answer(query, dimension, rows != [], rows, k);
      (r.Err? <==> rows != [] && (|query| != dimension || !Normalized(query))) &&
      (r.Ok? ==> BestLive(docs, query, passes, k, r.value))
  {
    hide BestLive, TopK, LiveRows;
    TopIsBest(docs, passes, rows, query, k);
    NothingTop(query, k);
  }

  lemma NothingTop(query: Vector, k: nat)
    ensures TopK(ScoredAll(query, []), k) == []
  {
  }

  lemma AllowedWithin(keys: set<string>, g: Generation, passes: Metadata -> bool)
    ensures AllowedOf(keys, g, passes) <= keys
  {
  }

  lemma ScannedNone(chunks: map<string, StoredChunk>, passes: Metadata -> bool, vec: string -> Vector)
    ensures chunks.Keys - chunks.Keys == {} && Scanned([], chunks, {}, passes, vec)
  {
  }

  lemma AnswerFor(g: Generation, query: Vector, rows: seq<VectorRecord>, k: nat)
    requires rows != [] ==> SearchDimension(g.dense) == g.dimension
    ensures Answer(query, SearchDimension(g.dense), rows != [], rows, k) == Answer(query, g.dimension, rows != [], rows, k)
  {
  }

  lemma GenerationFacts(g: Generation)
    requires GenOk(g)
    ensures g.chunks.Keys == LiveKeys(g.documents) && TiersOk(g.dense) && g.dense.dimension == g.dimension
    ensures g.dimension != 0 ==> LiveKeys(g.documents) != {}
    ensures g.dense.deltaKeys <= LiveKeys(g.documents) && Visible(g.dense) <= LiveKeys(g.documents)
  {
    DeltaIsLive(g);
    EmbeddedIsLive(g.documents);
    hide LiveKeys, EmbeddedKeys, TiersOk, KeysAreUnique;
  }
}
