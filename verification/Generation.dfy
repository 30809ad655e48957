/** Immutable backend generations: how one is built from a catalog of documents, and what the
    two dense tiers of every reachable one hold. */
module Generations {
  import opened Wrappers
  import opened Collections
  import opened Documents
  import opened KeyOrder
  import opened Sorting
  import opened KeyLists
  import opened Dense
  import opened TieredIndex

  type Docs = map<DocKey, Active>

  const MAX_CHUNKS := 0xFFFF_FFFF

  datatype StoredChunk = StoredChunk(
    key: string, document: DocKey, revision: nat, ordinal: nat, title: string, text: string, context: string,
    metadata: Metadata, startLine: nat, endLine: nat)

  function Stored(d: DocKey, a: Active, c: PreparedChunk): StoredChunk {
    StoredChunk(c.key, d, a.revision, c.ordinal, a.prepared.title, c.text, c.context, a.prepared.metadata,
                c.startLine, c.endLine)
  }

  datatype Generation = Generation(
    documents: Docs, chunks: map<string, StoredChunk>, dense: Tiered, deltaDocuments: set<DocKey>, dimension: nat,
    number: nat)

  predicate ChunkOf(docs: Docs, d: DocKey, c: PreparedChunk) { d in docs && c in docs[d].prepared.chunks }

  function LiveKeys(docs: Docs): set<string> {
    set d, c | d in docs && c in docs[d].prepared.chunks :: c.key
  }

  /** Chunk keys name one chunk of one document. */
  ghost predicate KeysAreUnique(docs: Docs) {
    (forall d, i, j :: d in docs && 0 <= i < j < |docs[d].prepared.chunks| ==>
      docs[d].prepared.chunks[i].key != docs[d].prepared.chunks[j].key) &&
    (forall d, e, x, y :: ChunkOf(docs, d, x) && ChunkOf(docs, e, y) && d != e ==> x.key != y.key)
  }

  /** All chunks carry vectors of this dimension; zero means that none carries one. */
  ghost predicate Uniform(docs: Docs, dimension: nat) {
    forall d, c :: ChunkOf(docs, d, c) ==> |c.embedding| == dimension
  }

  ghost predicate StoredAs(docs: Docs, chunks: map<string, StoredChunk>) {
    chunks.Keys == LiveKeys(docs) && forall d, c :: ChunkOf(docs, d, c) ==> c.key in chunks && chunks[c.key] == Stored(d, docs[d], c)
  }

  /** A row the new delta must hold. */
  ghost predicate DeltaRow(docs: Docs, t: Tiered, delta: set<DocKey>, row: VectorRecord) {
    exists d, c :: ChunkOf(docs, d, c) && d in delta && c.embedding != [] && !ContainsBase(t, c.key) &&
                   row == VectorRecord(c.key, c.embedding)
  }

  // ------------------------------------------------------------------ the draft

  datatype Draft = Draft(
    fingerprint: string, identity: string, chunks: map<string, StoredChunk>, dimension: nat, denseChunks: nat,
    delta: seq<VectorRecord>)

  const EmptyDraft := Draft("", "", map[], 0, 0, [])

  function EmbeddedKeys(docs: Docs): set<string> {
    set d, c | d in docs && c in docs[d].prepared.chunks && c.embedding != [] :: c.key
  }

  ghost predicate DraftOf(w: Draft, docs: Docs, t: Tiered, delta: set<DocKey>) {
    KeysAreUnique(docs) && StoredAs(docs, w.chunks) && DraftDense(w, docs) && DraftDelta(w.delta, docs, t, delta)
  }

  ghost predicate DraftDense(w: Draft, docs: Docs) {
    (forall d, c :: ChunkOf(docs, d, c) && c.embedding != [] ==> |c.embedding| == w.dimension) &&
    w.denseChunks == |EmbeddedKeys(docs)| && (w.dimension == 0 <==> EmbeddedKeys(docs) == {})
  }

  ghost predicate DraftDelta(rows: seq<VectorRecord>, docs: Docs, t: Tiered, delta: set<DocKey>) {
    DistinctRows(rows) && forall row :: row in rows <==> DeltaRow(docs, t, delta, row)
  }

  function WithChunk(docs: Docs, d: DocKey, c: PreparedChunk): Docs
    requires d in docs
  {
    docs[d := Active(docs[d].revision, docs[d].prepared.(chunks := docs[d].prepared.chunks + [c]))]
  }

  lemma WithChunkHas(docs: Docs, d: DocKey, c: PreparedChunk)
    requires d in docs
    ensures forall e, x :: ChunkOf(WithChunk(docs, d, c), e, x) <==> ChunkOf(docs, e, x) || (e == d && x == c)
    ensures LiveKeys(WithChunk(docs, d, c)) == LiveKeys(docs) + {c.key}
    ensures EmbeddedKeys(WithChunk(docs, d, c)) == EmbeddedKeys(docs) + if c.embedding != [] then {c.key} else {}
  {
    var next := WithChunk(docs, d, c);
    forall e, x
      ensures ChunkOf(next, e, x) <==> ChunkOf(docs, e, x) || (e == d && x == c)
    {
    }
    LiveIffs(docs, next, d, c);
  }

  lemma LiveWitness(docs: Docs, k: string) returns (d: DocKey, c: PreparedChunk)
    requires k in LiveKeys(docs)
    ensures ChunkOf(docs, d, c) && c.key == k
  {
    d, c :| d in docs && c in docs[d].prepared.chunks && c.key == k;
  }

  lemma EmbeddedWitness(docs: Docs, k: string) returns (d: DocKey, c: PreparedChunk)
    requires k in EmbeddedKeys(docs)
    ensures ChunkOf(docs, d, c) && c.key == k && c.embedding != []
  {
    d, c :| d in docs && c in docs[d].prepared.chunks && c.embedding != [] && c.key == k;
  }

  lemma ChunkIsLive(docs: Docs, d: DocKey, c: PreparedChunk)
    requires ChunkOf(docs, d, c)
    ensures c.key in LiveKeys(docs) && (c.embedding != [] ==> c.key in EmbeddedKeys(docs))
  {
  }

  lemma LiveIffs(docs: Docs, next: Docs, d: DocKey, c: PreparedChunk)
    requires forall e, x :: ChunkOf(next, e, x) <==> ChunkOf(docs, e, x) || (e == d && x == c)
    ensures LiveKeys(next) == LiveKeys(docs) + {c.key}
    ensures EmbeddedKeys(next) == EmbeddedKeys(docs) + if c.embedding != [] then {c.key} else {}
  {
    hide LiveKeys, EmbeddedKeys, ChunkOf;
    ChunkIsLive(next, d, c);
    forall k | k in LiveKeys(next)
      ensures k in LiveKeys(docs) + {c.key}
    {
      var e, x := LiveWitness(next, k);
      if x != c || e != d { ChunkIsLive(docs, e, x); }
    }
    forall k | k in LiveKeys(docs)
      ensures k in LiveKeys(next)
    {
      var e, x := LiveWitness(docs, k);
      ChunkIsLive(next, e, x);
    }
    forall k | k in EmbeddedKeys(next)
      ensures k in EmbeddedKeys(docs) + if c.embedding != [] then {c.key} else {}
    {
      var e, x := EmbeddedWitness(next, k);
      if x != c || e != d { ChunkIsLive(docs, e, x); }
    }
    forall k | k in EmbeddedKeys(docs)
      ensures k in EmbeddedKeys(next)
    {
      var e, x := EmbeddedWitness(docs, k);
      ChunkIsLive(next, e, x);
    }
  }

  // ------------------------------------------------------------- adding a chunk

  lemma AddUnique(docs: Docs, d: DocKey, c: PreparedChunk)
    requires d in docs && KeysAreUnique(docs) && c.key !in LiveKeys(docs)
    ensures KeysAreUnique(WithChunk(docs, d, c))
  {
    hide LiveKeys;
    var next := WithChunk(docs, d, c);
    NewKey(docs, c.key);
    assert forall e, x :: ChunkOf(next, e, x) <==> ChunkOf(docs, e, x) || (e == d && x == c);
    forall e, i, j | e in next && 0 <= i < j < |next[e].prepared.chunks|
      ensures next[e].prepared.chunks[i].key != next[e].prepared.chunks[j].key
    {
      if e == d && j == |docs[d].prepared.chunks| {
        assert ChunkOf(docs, d, docs[d].prepared.chunks[i]);
      }
    }
  }

  lemma NewKey(docs: Docs, key: string)
    requires key !in LiveKeys(docs)
    ensures forall e, x :: ChunkOf(docs, e, x) ==> x.key != key
  {
    hide LiveKeys;
    forall e, x | ChunkOf(docs, e, x)
      ensures x.key != key
    {
      ChunkIsLive(docs, e, x);
    }
  }

  lemma AddStored(docs: Docs, d: DocKey, c: PreparedChunk, chunks: map<string, StoredChunk>)
    requires d in docs && StoredAs(docs, chunks) && c.key !in chunks
    ensures StoredAs(WithChunk(docs, d, c), chunks[c.key := Stored(d, docs[d], c)])
  {
    hide LiveKeys, EmbeddedKeys;
    var next := WithChunk(docs, d, c);
    WithChunkHas(docs, d, c);
    NewKey(docs, c.key);
    forall e, x | ChunkOf(next, e, x)
      ensures Stored(e, next[e], x) == if e == d && x == c then Stored(d, docs[d], c) else Stored(e, docs[e], x)
    {
    }
  }

  lemma EmbeddedIsLive(docs: Docs)
    ensures EmbeddedKeys(docs) <= LiveKeys(docs)
  {
    hide LiveKeys, EmbeddedKeys;
    forall k | k in EmbeddedKeys(docs)
      ensures k in LiveKeys(docs)
    {
      var e, x := EmbeddedWitness(docs, k);
      ChunkIsLive(docs, e, x);
    }
  }

  lemma NoneEmbedded(docs: Docs)
    requires EmbeddedKeys(docs) == {}
    ensures forall e, x :: ChunkOf(docs, e, x) ==> x.embedding == []
  {
    hide EmbeddedKeys;
    forall e, x | ChunkOf(docs, e, x)
      ensures x.embedding == []
    {
      ChunkIsLive(docs, e, x);
    }
  }

  lemma AddDense(w: Draft, docs: Docs, d: DocKey, c: PreparedChunk)
    requires d in docs && DraftDense(w, docs) && c.key !in LiveKeys(docs)
    requires c.embedding != [] && w.dimension != 0 ==> |c.embedding| == w.dimension
    ensures var dimension := if w.dimension == 0 then |c.embedding| else w.dimension;
      DraftDense(w.(dimension := dimension, denseChunks := w.denseChunks + if c.embedding != [] then 1 else 0),
                 WithChunk(docs, d, c))
  {
    hide LiveKeys, EmbeddedKeys, WithChunk, ChunkOf;
    WithChunkHas(docs, d, c);
    EmbeddedIsLive(docs);
    if w.dimension == 0 {
      NoneEmbedded(docs);
    }
  }

  lemma AddDelta(rows: seq<VectorRecord>, docs: Docs, t: Tiered, delta: set<DocKey>, d: DocKey, c: PreparedChunk)
    requires d in docs && DraftDelta(rows, docs, t, delta) && c.key !in LiveKeys(docs)
    ensures DraftDelta(if c.embedding != [] && d in delta && !ContainsBase(t, c.key)
                       then rows + [VectorRecord(c.key, c.embedding)] else rows, WithChunk(docs, d, c), t, delta)
  {
    var next := WithChunk(docs, d, c);
    var row := VectorRecord(c.key, c.embedding);
    WithChunkHas(docs, d, c);
    hide WithChunk, LiveKeys, ChunkOf;
    forall r
      ensures DeltaRow(next, t, delta, r) <==>
              DeltaRow(docs, t, delta, r) || (r == row && c.embedding != [] && d in delta && !ContainsBase(t, c.key))
    {
    }
    forall r | r in rows
      ensures r.key != c.key
    {
      assert DeltaRow(docs, t, delta, r);
      var e, x :| ChunkOf(docs, e, x) && e in delta && x.embedding != [] && !ContainsBase(t, x.key) &&
                  r == VectorRecord(x.key, x.embedding);
      ChunkIsLive(docs, e, x);
    }
  }

  // ------------------------------------------------------------ building one up

  predicate AdmitsChunk(w: Draft, c: PreparedChunk) {
    |w.chunks| < MAX_CHUNKS && c.key !in w.chunks &&
    (c.embedding != [] && w.dimension != 0 ==> |c.embedding| == w.dimension)
  }

  method AddChunk(w: Draft, ghost docs: Docs, d: DocKey, a: Active, c: PreparedChunk, t: Tiered, delta: set<DocKey>)
    returns (r: Result<Draft>)
    requires DraftOf(w, docs, t, delta) && d in docs && docs[d] == a.(prepared := docs[d].prepared)
    requires docs[d].prepared == a.prepared.(chunks := docs[d].prepared.chunks)
    ensures r.Ok? <==> AdmitsChunk(w, c)
    ensures r.Ok? ==> DraftOf(r.value, WithChunk(docs, d, c), t, delta) && r.value.fingerprint == w.fingerprint
                      && r.value.identity == w.identity && r.value.chunks.Keys == w.chunks.Keys + {c.key}
                      && r.value.dimension == if w.dimension == 0 then |c.embedding| else w.dimension
    ensures r.Ok? ==> |r.value.chunks| <= MAX_CHUNKS
  {
    hide KeysAreUnique, DraftDense, DraftDelta, WithChunk, LiveKeys;
    if |w.chunks| >= MAX_CHUNKS {
      return Err(InvalidArgument);
    }
    if c.key in w.chunks {
      return Err(AlreadyExists);
    }
    var next := w.(chunks := w.chunks[c.key := Stored(d, a, c)]);
    OneMore(w.chunks, c.key, Stored(d, a, c));
    AddUnique(docs, d, c);
    AddStored(docs, d, c, w.chunks);
    if c.embedding != [] {
      next := next.(denseChunks := next.denseChunks + 1);
      if next.dimension == 0 {
        next := next.(dimension := |c.embedding|);
      }
      if |c.embedding| != next.dimension {
        return Err(DimensionMismatch);
      }
      if d in delta && !ContainsBase(t, c.key) {
        next := next.(delta := next.delta + [VectorRecord(c.key, c.embedding)]);
      }
    }
    AddDense(w, docs, d, c);
    SameDense(w, next, docs, WithChunk(docs, d, c), c);
    AddDelta(w.delta, docs, t, delta, d, c);
    return Ok(next);
  }

  lemma SameDense(w: Draft, next: Draft, docs: Docs, docs': Docs, c: PreparedChunk)
    requires DraftDense(w.(dimension := next.dimension, denseChunks := next.denseChunks), docs')
    ensures DraftDense(next, docs')
  {
  }

  predicate Follows(a: string, b: string) { a != "" ==> b == a }

  /** In key order, a fingerprint or an embedding identity that has been named once does not change. */
  ghost predicate Settled(docs: Docs) {
    forall d, e :: d in docs && e in docs && KeyLess(d, e) ==>
      Follows(docs[d].prepared.chunkingFingerprint, docs[e].prepared.chunkingFingerprint) &&
      Follows(docs[d].prepared.embeddingIdentity, docs[e].prepared.embeddingIdentity)
  }

  ghost predicate OneDimension(docs: Docs) { exists n: nat :: Uniform(docs, n) }

  /** The catalogs a generation can be built of. */
  ghost predicate Buildable(docs: Docs) {
    Settled(docs) && KeysAreUnique(docs) && |LiveKeys(docs)| <= MAX_CHUNKS && OneDimension(docs)
  }

  /** The vectors of the documents have the dimension of the base, if it has one. */
  ghost predicate FitsDimension(base: nat, docs: Docs) {
    base == 0 || forall d, c :: ChunkOf(docs, d, c) && c.embedding != [] ==> |c.embedding| == base
  }

  ghost predicate FitsBase(b: Base, docs: Docs) { FitsDimension(b.dimension, docs) }

  /** The draft's fingerprint and identity are those last named by its documents. */
  ghost predicate DraftSettled(w: Draft, docs: Docs) {
    Settled(docs) && (forall d :: d in docs ==> Follows(docs[d].prepared.chunkingFingerprint, w.fingerprint)) &&
    (forall d :: d in docs ==> Follows(docs[d].prepared.embeddingIdentity, w.identity)) &&
    (w.fingerprint != "" ==> exists d :: d in docs && docs[d].prepared.chunkingFingerprint == w.fingerprint) &&
    (w.identity != "" ==> exists d :: d in docs && docs[d].prepared.embeddingIdentity == w.identity)
  }

  ghost predicate AllBefore(docs: Docs, d: DocKey) { forall e :: e in docs ==> KeyLess(e, d) }

  /** A document that follows all others in key order agrees with a draft of settled documents, and is agreed with. */
  lemma SettledNext(w: Draft, docs: Docs, d: DocKey, a: Active)
    requires DraftSettled(w, docs) && AllBefore(docs, d)
    ensures var p := a.prepared;
      Settled(docs[d := a]) <==> Follows(w.fingerprint, p.chunkingFingerprint) && Follows(w.identity, p.embeddingIdentity)
    ensures var p := a.prepared;
      Settled(docs[d := a]) ==>
        DraftSettled(w.(fingerprint := p.chunkingFingerprint, identity := p.embeddingIdentity), docs[d := a])
  {
    var next := docs[d := a];
    assert d !in docs by { assert d in docs ==> KeyLess(d, d); }
    assert forall e :: e in docs ==> next[e] == docs[e] && !KeyLess(d, e) by {
      forall e | e in docs
        ensures !KeyLess(d, e)
      {
        KeyTotal(d, e);
      }
    }
    if Settled(next) {
      assert forall e :: e in docs ==> KeyLess(e, d);
      if w.fingerprint != "" {
        var e :| e in docs && docs[e].prepared.chunkingFingerprint == w.fingerprint;
        assert next[e] == docs[e];
      }
      if w.identity != "" {
        var e :| e in docs && docs[e].prepared.embeddingIdentity == w.identity;
        assert next[e] == docs[e];
      }
      assert next[d] == a;
    }
  }

  lemma SettledWithin(docs: Docs, full: Docs)
    requires Within(docs, full) && Settled(full)
    ensures Settled(docs)
  {
  }

  /** A document under construction: its first `n` chunks. */
  function Cut(a: Active, n: nat): Active
    requires n <= |a.prepared.chunks|
  {
    a.(prepared := a.prepared.(chunks := a.prepared.chunks[..n]))
  }

  lemma CutNext(docs: Docs, d: DocKey, a: Active, n: nat)
    requires n < |a.prepared.chunks|
    ensures WithChunk(docs[d := Cut(a, n)], d, a.prepared.chunks[n]) == docs[d := Cut(a, n + 1)]
  {
    assert a.prepared.chunks[..n + 1] == a.prepared.chunks[..n] + [a.prepared.chunks[n]];
  }

  lemma CutNothing(w: Draft, docs: Docs, t: Tiered, delta: set<DocKey>, d: DocKey, a: Active)
    requires DraftOf(w, docs, t, delta) && d !in docs
    ensures DraftOf(w, docs[d := Cut(a, 0)], t, delta)
  {
    var next := docs[d := Cut(a, 0)];
    assert forall e, x :: ChunkOf(next, e, x) <==> ChunkOf(docs, e, x);
    SameChunks(docs, next);
    hide LiveKeys, EmbeddedKeys;
    assert KeysAreUnique(next) by {
      forall e, i, j | e in next && 0 <= i < j < |next[e].prepared.chunks|
        ensures next[e].prepared.chunks[i].key != next[e].prepared.chunks[j].key
      {
        assert next[e] == docs[e];
      }
    }
    assert StoredAs(next, w.chunks) by {
      forall e, x | ChunkOf(next, e, x)
        ensures w.chunks[x.key] == Stored(e, next[e], x)
      {
        assert next[e] == docs[e] && ChunkOf(docs, e, x);
      }
    }
    hide ChunkOf;
    assert forall row :: DeltaRow(next, t, delta, row) <==> DeltaRow(docs, t, delta, row);
  }

  lemma SameChunks(docs: Docs, next: Docs)
    requires forall e, x :: ChunkOf(next, e, x) <==> ChunkOf(docs, e, x)
    ensures LiveKeys(next) == LiveKeys(docs) && EmbeddedKeys(next) == EmbeddedKeys(docs)
  {
    forall k | k in LiveKeys(docs)
      ensures k in LiveKeys(next)
    {
      var e, x := LiveWitness(docs, k);
      assert ChunkOf(next, e, x);
    }
    forall k | k in LiveKeys(next)
      ensures k in LiveKeys(docs)
    {
      var e, x := LiveWitness(next, k);
      assert ChunkOf(docs, e, x);
    }
    forall k | k in EmbeddedKeys(docs)
      ensures k in EmbeddedKeys(next)
    {
      var e, x := EmbeddedWitness(docs, k);
      assert ChunkOf(next, e, x);
    }
    forall k | k in EmbeddedKeys(next)
      ensures k in EmbeddedKeys(docs)
    {
      var e, x := EmbeddedWitness(next, k);
      assert ChunkOf(docs, e, x);
    }
  }

  ghost predicate Within(docs: Docs, full: Docs) { forall d :: d in docs ==> d in full && docs[d] == full[d] }

  lemma ChunkIsNew(docs: Docs, d: DocKey, a: Active, i: nat, full: Docs)
    requires Within(docs, full) && d !in docs && d in full && full[d] == a && i < |a.prepared.chunks|
    requires KeysAreUnique(full)
    ensures var partial := docs[d := Cut(a, i)];
      a.prepared.chunks[i].key !in LiveKeys(partial) && LiveKeys(partial) < LiveKeys(full)
  {
    hide LiveKeys;
    var partial := docs[d := Cut(a, i)];
    var c := a.prepared.chunks[i];
    assert ChunkOf(full, d, c);
    ChunkIsLive(full, d, c);
    forall k | k in LiveKeys(partial)
      ensures k in LiveKeys(full) && k != c.key
    {
      var e, x := LiveWitness(partial, k);
      if e == d {
        var j :| 0 <= j < i && a.prepared.chunks[j] == x;
      }
      assert ChunkOf(full, e, x);
      ChunkIsLive(full, e, x);
    }
  }

  lemma SubsetSmaller(a: set<string>, b: set<string>)
    requires a < b
    ensures |a| < |b|
  {
    var x :| x in b && x !in a;
    SubsetSize(a, b - {x});
  }

  /** The part of the build loop that reads one document. With buildable documents it never fails. */
  method AddDocument(w: Draft, ghost docs: Docs, d: DocKey, a: Active, t: Tiered, delta: set<DocKey>,
                     ghost full: Docs) returns (r: Result<Draft>)
    requires DraftOf(w, docs, t, delta) && DraftSettled(w, docs) && |w.chunks| <= MAX_CHUNKS
    requires AllBefore(docs, d) && d !in docs && Within(docs, full) && d in full && full[d] == a
    ensures r.Ok? ==> DraftOf(r.value, docs[d := a], t, delta) && DraftSettled(r.value, docs[d := a]) && |r.value.chunks| <= MAX_CHUNKS
    ensures Buildable(full) ==> r.Ok?
  {
    hide DraftOf, DraftSettled, Settled, AllBefore, Buildable, Within, AdmitsChunk;
    var p := a.prepared;
    SettledNext(w, docs, d, a);
    if Buildable(full) {
      PartSettled(docs, d, a, full);
    }
    var draft := w;
    if draft.fingerprint == "" {
      draft := draft.(fingerprint := p.chunkingFingerprint);
    }
    if draft.fingerprint != p.chunkingFingerprint {
      return Err(InvalidArgument);
    }
    if draft.identity == "" {
      draft := draft.(identity := p.embeddingIdentity);
    }
    if draft.identity != p.embeddingIdentity {
      return Err(InvalidArgument);
    }
    SameDraft(w, draft, docs, t, delta);
    CutNothing(draft, docs, t, delta, d, a);
    var i := 0;
    while i < |p.chunks|
      invariant 0 <= i <= |p.chunks| && DraftOf(draft, docs[d := Cut(a, i)], t, delta) && |draft.chunks| <= MAX_CHUNKS
      invariant draft.fingerprint == p.chunkingFingerprint && draft.identity == p.embeddingIdentity
    {
      if Buildable(full) {
        ChunkFits(draft, docs, d, a, i, t, delta, full);
      }
      var next := AddChunk(draft, docs[d := Cut(a, i)], d, a, p.chunks[i], t, delta);
      if next.Err? {
        return Err(next.error);
      }
      CutNext(docs, d, a, i);
      draft := next.value;
      i := i + 1;
    }
    assert Cut(a, |p.chunks|) == a;
    SettledSame(w.(fingerprint := p.chunkingFingerprint, identity := p.embeddingIdentity), draft, docs[d := a]);
    return Ok(draft);
  }

  lemma PartSettled(docs: Docs, d: DocKey, a: Active, full: Docs)
    requires Within(docs, full) && d in full && full[d] == a && Buildable(full)
    ensures Settled(docs[d := a])
  {
    hide Settled, KeysAreUnique, LiveKeys, OneDimension;
    assert Within(docs[d := a], full);
    SettledWithin(docs[d := a], full);
  }

  lemma OneMore(m: map<string, StoredChunk>, k: string, v: StoredChunk)
    ensures |m[k := v]| <= |m| + 1
  {
    assert m[k := v].Keys == m.Keys + {k};
  }

  lemma SettledSame(w: Draft, next: Draft, docs: Docs)
    requires DraftSettled(w, docs) && next.fingerprint == w.fingerprint && next.identity == w.identity
    ensures DraftSettled(next, docs)
  {
  }

  lemma SameDraft(w: Draft, next: Draft, docs: Docs, t: Tiered, delta: set<DocKey>)
    requires DraftOf(w, docs, t, delta) && next == w.(fingerprint := next.fingerprint, identity := next.identity)
    ensures DraftOf(next, docs, t, delta)
  {
    hide KeysAreUnique, StoredAs, DraftDelta, LiveKeys, EmbeddedKeys, ChunkOf;
  }

  /** Whatever the partial documents embed has the dimension of the whole. */
  lemma DraftDimension(w: Draft, docs: Docs, d: DocKey, a: Active, i: nat, full: Docs, n: nat)
    requires Within(docs, full) && d !in docs && d in full && full[d] == a && i <= |a.prepared.chunks|
    requires DraftDense(w, docs[d := Cut(a, i)]) && Uniform(full, n)
    ensures w.dimension == 0 || w.dimension == n
  {
    hide LiveKeys, EmbeddedKeys;
    var partial := docs[d := Cut(a, i)];
    if w.dimension != 0 {
      var k :| k in EmbeddedKeys(partial);
      var e, x := EmbeddedWitness(partial, k);
      assert ChunkOf(full, e, x);
    }
  }

  lemma ChunkFits(w: Draft, docs: Docs, d: DocKey, a: Active, i: nat, t: Tiered, delta: set<DocKey>, full: Docs)
    requires Within(docs, full) && d !in docs && d in full && full[d] == a && i < |a.prepared.chunks|
    requires Buildable(full) && DraftOf(w, docs[d := Cut(a, i)], t, delta)
    ensures AdmitsChunk(w, a.prepared.chunks[i])
  {
    hide KeysAreUnique, DraftDense, DraftDelta, LiveKeys, Settled;
    ChunkIsNew(docs, d, a, i, full);
    SubsetSmaller(LiveKeys(docs[d := Cut(a, i)]), LiveKeys(full));
    var n: nat :| Uniform(full, n);
    DraftDimension(w, docs, d, a, i, full, n);
    assert ChunkOf(full, d, a.prepared.chunks[i]);
    assert |w.chunks| == |w.chunks.Keys|;
  }

  // ------------------------------------------------------- building a generation

  /** The documents under the first `n` listed keys. */
  function Listed(docs: Docs, keys: seq<DocKey>, n: nat): Docs
    requires n <= |keys|
  {
    map d | d in docs && d in keys[..n] :: docs[d]
  }

  lemma ListedNext(docs: Docs, keys: seq<DocKey>, n: nat)
    requires n < |keys| && Distinct(keys) && keys[n] in docs
    ensures Within(Listed(docs, keys, n), docs) && keys[n] !in Listed(docs, keys, n)
    ensures Listed(docs, keys, n)[keys[n] := docs[keys[n]]] == Listed(docs, keys, n + 1)
    ensures SortedBy(keys, KeyLeq) ==> AllBefore(Listed(docs, keys, n), keys[n])
  {
    assert keys[..n + 1] == keys[..n] + [keys[n]];
  }

  lemma EmptyDraftOk(t: Tiered, delta: set<DocKey>)
    ensures DraftOf(EmptyDraft, map[], t, delta) && DraftSettled(EmptyDraft, map[])
  {
    assert LiveKeys(map[]) == {} && EmbeddedKeys(map[]) == {};
  }

  /** Either every chunk was embedded or none was. */
  lemma AllOrNone(w: Draft, docs: Docs, t: Tiered, delta: set<DocKey>)
    requires DraftOf(w, docs, t, delta)
    ensures w.denseChunks == 0 || w.denseChunks == |w.chunks| ==> Uniform(docs, w.dimension)
    ensures forall n :: Uniform(docs, n) ==> w.denseChunks == 0 || w.denseChunks == |w.chunks|
    ensures LiveKeys(docs) == {} ==> w.dimension == 0
  {
    hide KeysAreUnique, DraftDelta, LiveKeys, EmbeddedKeys;
    assert |w.chunks| == |w.chunks.Keys|;
    EmbeddedIsLive(docs);
    if w.denseChunks == 0 {
      NoneEmbedded(docs);
    } else if w.denseChunks == |w.chunks| {
      SameSize(EmbeddedKeys(docs), LiveKeys(docs));
      OneKeyOneChunk(docs);
      forall d, c | ChunkOf(docs, d, c)
        ensures |c.embedding| == w.dimension
      {
        ChunkIsLive(docs, d, c);
        var e, x := EmbeddedWitness(docs, c.key);
      }
    }
    forall n | Uniform(docs, n)
      ensures w.denseChunks == 0 || w.denseChunks == |w.chunks|
    {
      UniformKeys(docs, n);
    }
  }

  lemma SameSize(a: set<string>, b: set<string>)
    requires a <= b && |a| == |b|
    ensures a == b
  {
    if a != b {
      SubsetSmaller(a, b);
    }
  }

  lemma UniformKeys(docs: Docs, n: nat)
    requires Uniform(docs, n)
    ensures EmbeddedKeys(docs) == if n == 0 then {} else LiveKeys(docs)
  {
    hide LiveKeys, EmbeddedKeys;
    EmbeddedIsLive(docs);
    forall k | k in EmbeddedKeys(docs)
      ensures n != 0
    {
      var d, c := EmbeddedWitness(docs, k);
    }
    forall k | k in LiveKeys(docs) && n != 0
      ensures k in EmbeddedKeys(docs)
    {
      var d, c := LiveWitness(docs, k);
      ChunkIsLive(docs, d, c);
    }
  }

  lemma OneKeyOneChunk(docs: Docs)
    requires KeysAreUnique(docs)
    ensures forall d, e, x, y :: ChunkOf(docs, d, x) && ChunkOf(docs, e, y) && x.key == y.key ==> d == e && x == y
  {
    forall d, e, x, y | ChunkOf(docs, d, x) && ChunkOf(docs, e, y) && x.key == y.key
      ensures d == e && x == y
    {
      var chunks := docs[d].prepared.chunks;
      if d == e {
        var i :| 0 <= i < |chunks| && chunks[i] == x;
        var j :| 0 <= j < |chunks| && chunks[j] == y;
        assert i == j;
      }
    }
  }

  /** What `build_generation` makes of a catalog, an index, a set of delta documents and tombstones. */
  ghost predicate Built(g: Generation, docs: Docs, t: Tiered, delta: set<DocKey>, tombstones: set<string>) {
    g.documents == docs && g.deltaDocuments == delta && DenseOf(g) && g.dense.base == t.base &&
    g.dense.tombstones == tombstones && forall row :: row in g.dense.delta.rows <==> DeltaRow(docs, t, delta, row)
  }

  /** What holds of every generation by itself. */
  ghost predicate DenseOf(g: Generation) {
    KeysAreUnique(g.documents) && StoredAs(g.documents, g.chunks) && Uniform(g.documents, g.dimension) &&
    (LiveKeys(g.documents) == {} ==> g.dimension == 0) && TiersOk(g.dense) && g.dense.dimension == g.dimension
  }

  ghost predicate Vectors(docs: Docs) {
    forall d, c :: ChunkOf(docs, d, c) ==> c.key != "" && (c.embedding != [] ==> Normalized(c.embedding))
  }

  /** The new delta and tombstones can be laid over the base. */
  ghost predicate Overlays(t: Tiered, tombstones: set<string>, docs: Docs) {
    t.tombstones <= tombstones <= t.base.keys && FitsBase(t.base, docs)
  }

  /** `build_generation`: it builds only buildable catalogs that fit the base, and every such catalog of normalised
      vectors. */
  method BuildGeneration(documents: Docs, t: Tiered, delta: set<DocKey>, tombstones: set<string>, number: nat)
    returns (r: Result<Generation>)
    requires TiersOk(t)
    ensures r.Ok? ==> Built(r.value, documents, t, delta, tombstones) && r.value.number == number
    ensures r.Ok? ==> Buildable(documents) && FitsBase(t.base, documents)
    ensures Buildable(documents) && Vectors(documents) && Overlays(t, tombstones, documents) ==> r.Ok?
  {
    hide DraftOf, Listed, Vectors, TiersOk, DeltaFits, Uniform, LiveKeys, KeysAreUnique, DeltaRow, Settled, DraftSettled, AllBefore,
         FitsBase, OneDimension;
    var keys := InOrder(documents.Keys);
    var draft := EmptyDraft;
    EmptyDraftOk(t, delta);
    ListedNone(documents, keys);
    for i := 0 to |keys|
      invariant DraftOf(draft, Listed(documents, keys, i), t, delta)
      invariant DraftSettled(draft, Listed(documents, keys, i)) && |draft.chunks| <= MAX_CHUNKS
    {
      assert keys[i] in documents.Keys;
      ListedNext(documents, keys, i);
      var next := AddDocument(draft, Listed(documents, keys, i), keys[i], documents[keys[i]], t, delta, documents);
      if next.Err? {
        return Err(next.error);
      }
      draft := next.value;
    }
    ListedAll(documents, keys);
    AllOrNone(draft, documents, t, delta);
    if OneDimension(documents) {
      DimensionKnown(draft, documents, t, delta);
    }
    if draft.denseChunks != 0 && draft.denseChunks != |draft.chunks| {
      return Err(DimensionMismatch);
    }
    if Buildable(documents) && Vectors(documents) && Overlays(t, tombstones, documents) {
      DraftFits(draft, documents, t, delta, tombstones);
    }
    var dense := WithDelta(t, draft.delta, tombstones, draft.dimension);
    if dense.Err? {
      return Err(dense.error);
    }
    DraftRows(draft, documents, t, delta);
    DraftIsBuildable(draft, documents, t, delta);
    OnItsBase(documents, dense.value);
    return Ok(Generation(documents, draft.chunks, dense.value, delta, draft.dimension, number));
  }

  lemma DimensionKnown(w: Draft, docs: Docs, t: Tiered, delta: set<DocKey>)
    requires DraftOf(w, docs, t, delta) && OneDimension(docs)
    ensures w.denseChunks == 0 || w.denseChunks == |w.chunks|
  {
    hide DraftOf, Uniform, LiveKeys;
    AllOrNone(w, docs, t, delta);
    var n: nat :| Uniform(docs, n);
  }

  lemma DraftIsBuildable(w: Draft, docs: Docs, t: Tiered, delta: set<DocKey>)
    requires DraftOf(w, docs, t, delta) && DraftSettled(w, docs) && |w.chunks| <= MAX_CHUNKS && Uniform(docs, w.dimension)
    ensures Buildable(docs)
  {
    hide KeysAreUnique, LiveKeys, DraftDense, DraftDelta, Settled;
    assert |w.chunks| == |w.chunks.Keys|;
  }

  lemma OnItsBase(docs: Docs, dense: Tiered)
    requires TiersOk(dense) && Uniform(docs, dense.dimension)
    ensures FitsBase(dense.base, docs)
  {
  }

  lemma ListedNone(docs: Docs, keys: seq<DocKey>)
    ensures Listed(docs, keys, 0) == map[]
  {
  }

  lemma ListedAll(docs: Docs, keys: seq<DocKey>)
    requires Ordered(keys, docs.Keys)
    ensures Listed(docs, keys, |keys|) == docs
  {
    assert keys[..|keys|] == keys;
  }

  lemma DraftRows(w: Draft, docs: Docs, t: Tiered, delta: set<DocKey>)
    requires DraftOf(w, docs, t, delta)
    ensures KeysAreUnique(docs) && StoredAs(docs, w.chunks)
    ensures forall row :: row in w.delta <==> DeltaRow(docs, t, delta, row)
  {
    hide KeysAreUnique, StoredAs, DeltaRow, DraftDense;
  }

  /** A draft of normalised documents that fit the base can always be laid over it. */
  lemma DraftFits(w: Draft, docs: Docs, t: Tiered, delta: set<DocKey>, tombstones: set<string>)
    requires DraftOf(w, docs, t, delta) && Vectors(docs) && Overlays(t, tombstones, docs)
    ensures DeltaFits(t, w.delta, tombstones, w.dimension)
  {
    hide KeysAreUnique, StoredAs, LiveKeys, EmbeddedKeys, ChunkOf, Normalized;
    forall row | row in w.delta
      ensures |row.vector| == w.dimension && row.key != "" && Normalized(row.vector)
      ensures row.key in t.base.keys ==> row.key in tombstones
    {
      assert DeltaRow(docs, t, delta, row);
      var d, c :| ChunkOf(docs, d, c) && d in delta && c.embedding != [] && !ContainsBase(t, c.key) &&
                  row == VectorRecord(c.key, c.embedding);
    }
    if w.dimension != 0 {
      var k :| k in EmbeddedKeys(docs);
      var d, c := EmbeddedWitness(docs, k);
    }
    assert forall i :: 0 <= i < |w.delta| ==> w.delta[i] in w.delta;
    assert IndexOk(ExactIndex(w.delta, if w.delta == [] then 0 else w.dimension));
  }
}
