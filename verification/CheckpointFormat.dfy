/** The checkpoint file: what each section holds, row by row, and `save`, which writes it. */
module CheckpointFormat {
  import opened Wrappers
  import opened Collections
  import opened Documents
  import opened Sorting
  import opened KeyLists
  import opened Bytes
  import opened Reading
  import opened Containers
  import opened Backend

  // ------------------------------------------------------------------------- rows

  /** Rows one after the other. */
  function Flat(rows: seq<Blob>): Blob {
    if rows == [] then [] else rows[0] + Flat(rows[1..])
  }

  lemma FlatStep(rows: seq<Blob>, i: nat)
    requires i < |rows|
    ensures Flat(rows[i..]) == rows[i] + Flat(rows[i + 1..])
  {
    assert rows[i..][0] == rows[i] && rows[i..][1..] == rows[i + 1..];
  }

  /** What has been written, followed by the rows still to come, is the whole. */
  ghost predicate Writing(whole: Blob, written: Blob, rows: seq<Blob>, i: nat)
    requires i <= |rows|
  {
    written + Flat(rows[i..]) == whole
  }

  lemma WriteRow(whole: Blob, written: Blob, rows: seq<Blob>, i: nat)
    requires i < |rows| && Writing(whole, written, rows, i)
    ensures Writing(whole, written + rows[i], rows, i + 1)
  {
    FlatStep(rows, i);
    Reassociate(written, rows[i], Flat(rows[i + 1..]));
  }

  lemma WriteStart(written: Blob, rows: seq<Blob>)
    ensures Writing(written + Flat(rows), written, rows, 0)
  {
    assert rows[0..] == rows;
  }

  lemma WriteEnd(whole: Blob, written: Blob, rows: seq<Blob>)
    requires Writing(whole, written, rows, |rows|)
    ensures written == whole
  {
    assert rows[|rows|..] == [] && written + [] == written;
  }

  // ------------------------------------------------------------------- ordered keys

  lemma {:induction false} OrderExists(s: set<string>)
    ensures exists keys :: Ordered(keys, s)
    decreases |s|
  {
    if s == {} {
      assert Ordered([], s);
    } else {
      var x :| x in s;
      OrderExists(s - {x});
      var rest :| Ordered(rest, s - {x});
      var unsorted := rest + [x];
      assert Distinct(unsorted) by {
        assert forall i :: 0 <= i < |rest| ==> rest[i] in rest;
      }
      KeyLeqIsTotal();
      SortSorted(unsorted, KeyOrder.KeyLeq);
      var keys := Sort(unsorted, KeyOrder.KeyLeq);
      SameElements(unsorted, keys);
      MultisetDistinct(unsorted, keys);
      forall k
        ensures k in keys <==> k in s
      {
        assert k in unsorted <==> k in rest || k == x;
      }
      assert Ordered(keys, s);
    }
  }

  /** The keys of an ordered map, in order. */
  ghost function KeysOf(s: set<string>): (keys: seq<string>)
    ensures Ordered(keys, s)
  {
    OrderExists(s);
    var keys :| Ordered(keys, s);
    keys
  }

  lemma {:induction false} OrderedCount(keys: seq<string>, s: set<string>)
    requires Distinct(keys) && forall k :: k in keys <==> k in s
    ensures |keys| == |s|
  {
    if keys == [] {
      assert s == {};
    } else {
      var n := |keys| - 1;
      var rest := keys[..n];
      assert keys == rest + [keys[n]];
      assert forall k :: k in rest <==> k in s - {keys[n]};
      OrderedCount(rest, s - {keys[n]});
    }
  }

  // ---------------------------------------------------------------------- the format

  const MAX_DOCUMENTS := 10_000_000
  const MAX_FILE_CHUNKS := 100_000_000
  const MAX_METADATA := 1_000_000
  const MAX_DIMENSION := 1_000_000
  const RUNTIME_VERSION := 1
  const HAS_EMBEDDINGS := 2

  const BM25_TAG := 0x3532_4D42
  const META_TAG := 0x4154_454D
  const EMBED_TAG := 0x4244_4D45
  const RUNTIME_TAG := 0x454D_5452
  const CHUNKS_TAG := 0x4B4E_4843
  const DOCS_TAG := 0x5343_4F44

  /** What the model leaves open: the checksum, the sort, the metadata text, the lexical section, and the bit
      patterns of floats. */
  datatype Format = Format(
    crc: Crc, arrange: seq<Range> -> seq<Range>, meta: Blob, metaOk: Blob -> bool,
    lexicon: seq<string> -> Blob, lexiconSize: Blob -> Option<nat>, bits: real -> nat, value: nat -> real)

  ghost predicate FormatOk(f: Format) {
    CrcOk(f.crc) && Sorts(f.arrange) && f.meta != [] && f.metaOk(f.meta) &&
    forall texts :: f.lexicon(texts) != [] && f.lexiconSize(f.lexicon(texts)) == Some(|texts|)
  }

  /** Values of the widths and types the source has. */
  ghost predicate TypedChunk(f: Format, c: PreparedChunk) {
    ByteString(c.key) && ByteString(c.text) && ByteString(c.context) && ByteString(c.indexedText) &&
    c.ordinal < 0x1_0000_0000_0000_0000 && c.startLine < 0x1_0000_0000 && c.endLine < 0x1_0000_0000 &&
    forall i :: 0 <= i < |c.embedding| ==> f.bits(c.embedding[i]) < 0x1_0000_0000 && f.value(f.bits(c.embedding[i])) == c.embedding[i]
  }

  ghost predicate TypedDocument(f: Format, p: PreparedDocument) {
    ByteString(p.key) && ByteString(p.title) && ByteString(p.content) && ByteString(p.contentHash) &&
    ByteString(p.chunkingFingerprint) && ByteString(p.embeddingIdentity) &&
    (forall k :: k in p.metadata ==> ByteString(k) && ByteString(p.metadata[k])) &&
    (forall i :: 0 <= i < |p.chunks| ==> TypedChunk(f, p.chunks[i]))
  }

  // ------------------------------------------------------------------ section contents

  ghost function MetadataRows(m: Metadata, keys: seq<string>): (rows: seq<Blob>)
    requires forall k :: k in keys ==> k in m
    ensures |rows| == |keys| && forall i :: 0 <= i < |keys| ==> rows[i] == PutStr(keys[i]) + PutStr(m[keys[i]])
  {
    seq(|keys|, i requires 0 <= i < |keys| => PutStr(keys[i]) + PutStr(m[keys[i]]))
  }

  ghost function DocumentRow(i: nat, p: PreparedDocument): Blob {
    Bytes.Put(i, 4) + (PutStr(p.key) + (PutStr(p.title) + (PutStr(p.content) +
    (Bytes.Put(|p.metadata|, 4) + Flat(MetadataRows(p.metadata, KeysOf(p.metadata.Keys)))))))
  }

  ghost function DocumentRows(docs: seq<CheckpointEntry>): (rows: seq<Blob>)
    ensures |rows| == |docs| && forall i :: 0 <= i < |docs| ==> rows[i] == DocumentRow(i, docs[i].prepared)
  {
    seq(|docs|, i requires 0 <= i < |docs| => DocumentRow(i, docs[i].prepared))
  }

  datatype Located = Located(document: nat, chunk: PreparedChunk)

  function LocatedIn(d: nat, chunks: seq<PreparedChunk>): (r: seq<Located>)
    ensures |r| == |chunks| && forall i :: 0 <= i < |chunks| ==> r[i] == Located(d, chunks[i])
  {
    seq(|chunks|, i requires 0 <= i < |chunks| => Located(d, chunks[i]))
  }

  /** The chunks of the first `n` documents, in order. */
  function AllChunks(docs: seq<CheckpointEntry>, n: nat): seq<Located>
    requires n <= |docs|
  {
    if n == 0 then [] else AllChunks(docs, n - 1) + LocatedIn(n - 1, docs[n - 1].prepared.chunks)
  }

  function ChunkRow(id: nat, l: Located): Blob {
    Bytes.Put(id, 4) + (Bytes.Put(l.document, 4) + (PutStr(l.chunk.text) + (PutStr(l.chunk.context) +
    (Bytes.Put(l.chunk.startLine, 4) + Bytes.Put(l.chunk.endLine, 4)))))
  }

  function ChunkRows(all: seq<Located>): (rows: seq<Blob>)
    ensures |rows| == |all| && forall i :: 0 <= i < |all| ==> rows[i] == ChunkRow(i, all[i])
  {
    seq(|all|, i requires 0 <= i < |all| => ChunkRow(i, all[i]))
  }

  function FloatRows(f: Format, v: Vector): (rows: seq<Blob>)
    ensures |rows| == |v| && forall i :: 0 <= i < |v| ==> rows[i] == Bytes.Put(f.bits(v[i]), 4)
  {
    seq(|v|, i requires 0 <= i < |v| => Bytes.Put(f.bits(v[i]), 4))
  }

  function EmbeddingRow(f: Format, v: Vector): Blob { Bytes.Put(|v|, 4) + Flat(FloatRows(f, v)) }

  function EmbeddingRows(f: Format, all: seq<Located>): (rows: seq<Blob>)
    ensures |rows| == |all| && forall i :: 0 <= i < |all| ==> rows[i] == EmbeddingRow(f, all[i].chunk.embedding)
  {
    seq(|all|, i requires 0 <= i < |all| => EmbeddingRow(f, all[i].chunk.embedding))
  }

  function RuntimeChunkRow(c: PreparedChunk): Blob { PutStr(c.key) + (Bytes.Put(c.ordinal, 8) + PutStr(c.indexedText)) }

  function RuntimeChunkRows(chunks: seq<PreparedChunk>): (rows: seq<Blob>)
    ensures |rows| == |chunks| && forall i :: 0 <= i < |chunks| ==> rows[i] == RuntimeChunkRow(chunks[i])
  {
    seq(|chunks|, i requires 0 <= i < |chunks| => RuntimeChunkRow(chunks[i]))
  }

  function RuntimeRow(e: CheckpointEntry): Blob {
    var p := e.prepared;
    PutStr(p.key) + (Bytes.Put(e.revision, 8) + (PutStr(p.contentHash) + (PutStr(p.chunkingFingerprint) +
    (PutStr(p.embeddingIdentity) + (Bytes.Put(|p.chunks|, 4) + Flat(RuntimeChunkRows(p.chunks)))))))
  }

  function RuntimeRows(docs: seq<CheckpointEntry>): (rows: seq<Blob>)
    ensures |rows| == |docs| && forall i :: 0 <= i < |docs| ==> rows[i] == RuntimeRow(docs[i])
  {
    seq(|docs|, i requires 0 <= i < |docs| => RuntimeRow(docs[i]))
  }

  ghost function RevisionRows(m: map<DocKey, nat>, keys: seq<string>): (rows: seq<Blob>)
    requires forall k :: k in keys ==> k in m
    ensures |rows| == |keys| && forall i :: 0 <= i < |keys| ==> rows[i] == PutStr(keys[i]) + Bytes.Put(m[keys[i]], 8)
  {
    seq(|keys|, i requires 0 <= i < |keys| => PutStr(keys[i]) + Bytes.Put(m[keys[i]], 8))
  }

  ghost function DocsBlob(c: EmbeddedCheckpoint): Blob { Bytes.Put(|c.documents|, 4) + Flat(DocumentRows(c.documents)) }

  function Everything(c: EmbeddedCheckpoint): seq<Located> { AllChunks(c.documents, |c.documents|) }

  ghost function ChunksBlob(c: EmbeddedCheckpoint): Blob { Bytes.Put(|Everything(c)|, 4) + Flat(ChunkRows(Everything(c))) }

  ghost function EmbeddingsBlob(f: Format, c: EmbeddedCheckpoint): Blob { Flat(EmbeddingRows(f, Everything(c))) }

  function IndexedTexts(all: seq<Located>): (texts: seq<string>)
    ensures |texts| == |all| && forall i :: 0 <= i < |all| ==> texts[i] == all[i].chunk.indexedText
  {
    seq(|all|, i requires 0 <= i < |all| => all[i].chunk.indexedText)
  }

  function RuntimeHead(c: EmbeddedCheckpoint): Blob {
    Bytes.Put(RUNTIME_VERSION, 4) + (Bytes.Put(c.generation, 8) + (Bytes.Put(c.walPosition, 8) + Bytes.Put(|c.documents|, 4)))
  }

  ghost function RevisionsBlob(c: EmbeddedCheckpoint): Blob {
    Bytes.Put(|c.revisions|, 4) + Flat(RevisionRows(c.revisions, KeysOf(c.revisions.Keys)))
  }

  ghost function RuntimeBlob(c: EmbeddedCheckpoint): Blob {
    RuntimeHead(c) + (Flat(RuntimeRows(c.documents)) + RevisionsBlob(c))
  }

  predicate AnyEmbedding(all: seq<Located>) { exists i :: 0 <= i < |all| && all[i].chunk.embedding != [] }

  /** The container a checkpoint is saved as, sections by ascending tag. */
  ghost function ContainerOf(f: Format, c: EmbeddedCheckpoint): Container {
    var embedded := AnyEmbedding(Everything(c));
    Container(FORMAT_MAJOR, FORMAT_MINOR, if embedded then HAS_EMBEDDINGS else 0,
      [Section(BM25_TAG, f.lexicon(IndexedTexts(Everything(c)))), Section(META_TAG, f.meta)] +
      (if embedded then [Section(EMBED_TAG, EmbeddingsBlob(f, c))] else []) +
      [Section(RUNTIME_TAG, RuntimeBlob(c)), Section(CHUNKS_TAG, ChunksBlob(c)), Section(DOCS_TAG, DocsBlob(c))])
  }

  ghost predicate Typed(f: Format, c: EmbeddedCheckpoint) {
    c.generation < 0x1_0000_0000_0000_0000 && c.walPosition < 0x1_0000_0000_0000_0000 &&
    (forall i :: 0 <= i < |c.documents| ==>
      TypedDocument(f, c.documents[i].prepared) && c.documents[i].revision < 0x1_0000_0000_0000_0000) &&
    (forall d :: d in c.revisions ==> ByteString(d) && c.revisions[d] < 0x1_0000_0000_0000_0000) &&
    OffsetOf(ContainerOf(f, c).sections, |ContainerOf(f, c).sections|) < 0x1_0000_0000_0000_0000
  }

  // ------------------------------------------------------------------- what save accepts

  predicate Fits32(s: string) { |s| < 0x1_0000_0000 }

  predicate ChunkSaveOk(c: PreparedChunk) {
    c.key != "" && Fits32(c.key) && Fits32(c.text) && Fits32(c.context) && Fits32(c.indexedText) && |c.embedding| <= MAX_DIMENSION
  }

  ghost predicate DocumentSaveOk(e: CheckpointEntry, revisions: map<DocKey, nat>) {
    var p := e.prepared;
    e.revision != 0 && p.key != "" && p.key in revisions && revisions[p.key] == e.revision &&
    |p.metadata| <= MAX_METADATA && Fits32(p.key) && Fits32(p.title) && Fits32(p.content) && Fits32(p.contentHash) &&
    Fits32(p.chunkingFingerprint) && Fits32(p.embeddingIdentity) &&
    forall k :: k in p.metadata ==> Fits32(k) && Fits32(p.metadata[k])
  }

  ghost predicate ChunksSaveOk(all: seq<Located>) {
    |all| <= MAX_FILE_CHUNKS && (forall i :: 0 <= i < |all| ==> ChunkSaveOk(all[i].chunk)) &&
    forall i, j :: 0 <= i < j < |all| ==> all[i].chunk.key != all[j].chunk.key
  }

  /** The first `n` documents are fit to be saved. */
  ghost predicate DocumentsSaveOk(c: EmbeddedCheckpoint, n: nat)
    requires n <= |c.documents|
  {
    (forall i :: 0 <= i < n ==> DocumentSaveOk(c.documents[i], c.revisions)) &&
    (forall i, j :: 0 <= i < j < n ==> c.documents[i].prepared.key != c.documents[j].prepared.key) &&
    ChunksSaveOk(AllChunks(c.documents, n))
  }

  ghost predicate SaveOk(c: EmbeddedCheckpoint) {
    |c.documents| <= MAX_DOCUMENTS && DocumentsSaveOk(c, |c.documents|) && |c.revisions| <= MAX_DOCUMENTS &&
    forall d :: d in c.revisions ==> d != "" && Fits32(d) && c.revisions[d] != 0
  }

  lemma {:induction false} AllChunksPrefix(docs: seq<CheckpointEntry>, n: nat, m: nat)
    requires n <= m <= |docs|
    ensures |AllChunks(docs, n)| <= |AllChunks(docs, m)| && AllChunks(docs, m)[..|AllChunks(docs, n)|] == AllChunks(docs, n)
  {
    if n < m {
      AllChunksPrefix(docs, n, m - 1);
    }
  }

  lemma SaveOkPrefix(c: EmbeddedCheckpoint, n: nat)
    requires n <= |c.documents| && DocumentsSaveOk(c, |c.documents|)
    ensures DocumentsSaveOk(c, n)
  {
    hide DocumentSaveOk, ChunkSaveOk, AllChunks;
    AllChunksPrefix(c.documents, n, |c.documents|);
    var all, part := AllChunks(c.documents, |c.documents|), AllChunks(c.documents, n);
    assert forall i :: 0 <= i < |part| ==> part[i] == all[i];
  }

  ghost predicate KeysAre(keys: set<string>, all: seq<Located>) {
    forall k :: k in keys <==> exists i :: 0 <= i < |all| && all[i].chunk.key == k
  }

  lemma ChunkNext(all: seq<Located>, l: Located, keys: set<string>)
    requires ChunksSaveOk(all) && KeysAre(keys, all)
    ensures ChunksSaveOk(all + [l]) <==> |all| < MAX_FILE_CHUNKS && ChunkSaveOk(l.chunk) && l.chunk.key !in keys
    ensures KeysAre(keys + {l.chunk.key}, all + [l])
  {
    hide ChunkSaveOk;
    var next := all + [l];
    assert next[|all|] == l;
    assert forall i :: 0 <= i < |all| ==> next[i] == all[i];
    if l.chunk.key in keys {
      var i :| 0 <= i < |all| && all[i].chunk.key == l.chunk.key;
      assert next[i].chunk.key == next[|all|].chunk.key;
    }
    forall k
      ensures k in keys + {l.chunk.key} <==> exists i :: 0 <= i < |next| && next[i].chunk.key == k
    {
      if k in keys {
        var i :| 0 <= i < |all| && all[i].chunk.key == k;
        assert next[i].chunk.key == k;
      }
    }
  }

  /** The checks of one document's chunks, given those of the documents before it. */
  method CheckChunks(chunks: seq<PreparedChunk>, d: nat, keys0: set<string>, ghost before: seq<Located>) returns (ok: bool, keys: set<string>)
    requires ChunksSaveOk(before) && KeysAre(keys0, before) && |before| + |chunks| <= MAX_FILE_CHUNKS
    ensures ok <==> ChunksSaveOk(before + LocatedIn(d, chunks))
    ensures ok ==> KeysAre(keys, before + LocatedIn(d, chunks))
  {
    hide ChunksSaveOk, KeysAre, ChunkSaveOk;
    keys := keys0;
    ghost var all := LocatedIn(d, chunks);
    assert before + all[..0] == before;
    for i := 0 to |chunks|
      invariant ChunksSaveOk(before + all[..i]) && KeysAre(keys, before + all[..i])
    {
      ChunkNext(before + all[..i], all[i], keys);
      assert before + all[..i + 1] == before + all[..i] + [all[i]];
      if !ChunkSaveOk(chunks[i]) || chunks[i].key in keys {
        assert (before + all)[..|before| + i + 1] == before + all[..i + 1];
        if ChunksSaveOk(before + all) {
          OkPrefix(before + all, |before| + i + 1);
        }
        ok := false;
        return;
      }
      keys := keys + {chunks[i].key};
    }
    assert all[..|chunks|] == all;
    ok := true;
  }

  lemma OkPrefix(all: seq<Located>, n: nat)
    requires n <= |all| && ChunksSaveOk(all)
    ensures ChunksSaveOk(all[..n])
  {
    hide ChunkSaveOk;
  }

  method CheckDocument(e: CheckpointEntry, revisions: map<DocKey, nat>) returns (ok: bool)
    ensures ok <==> DocumentSaveOk(e, revisions)
  {
    var p := e.prepared;
    if e.revision == 0 || p.key == "" || p.key !in revisions || revisions[p.key] != e.revision {
      return false;
    }
    if |p.metadata| > MAX_METADATA || !Fits32(p.key) || !Fits32(p.title) || !Fits32(p.content) || !Fits32(p.contentHash) ||
       !Fits32(p.chunkingFingerprint) || !Fits32(p.embeddingIdentity) {
      return false;
    }
    var rest := p.metadata.Keys;
    while rest != {}
      invariant rest <= p.metadata.Keys && forall k :: k in p.metadata && k !in rest ==> Fits32(k) && Fits32(p.metadata[k])
      decreases |rest|
    {
      var k :| k in rest;
      if !Fits32(k) || !Fits32(p.metadata[k]) {
        return false;
      }
      rest := rest - {k};
    }
    return true;
  }

  ghost predicate DocKeysAre(keys: set<string>, docs: seq<CheckpointEntry>, n: nat)
    requires n <= |docs|
  {
    forall k :: k in keys <==> exists i :: 0 <= i < n && docs[i].prepared.key == k
  }

  lemma DocumentNext(c: EmbeddedCheckpoint, n: nat, keys: set<string>)
    requires n < |c.documents| && DocumentsSaveOk(c, n) && DocKeysAre(keys, c.documents, n)
    ensures var e := c.documents[n];
      DocumentsSaveOk(c, n + 1) <==>
        DocumentSaveOk(e, c.revisions) && e.prepared.key !in keys && ChunksSaveOk(AllChunks(c.documents, n) + LocatedIn(n, e.prepared.chunks))
    ensures DocKeysAre(keys + {c.documents[n].prepared.key}, c.documents, n + 1)
  {
    hide DocumentSaveOk, ChunksSaveOk;
    var key := c.documents[n].prepared.key;
    if key in keys {
      var i :| 0 <= i < n && c.documents[i].prepared.key == key;
    }
    forall k
      ensures k in keys + {key} <==> exists i :: 0 <= i < n + 1 && c.documents[i].prepared.key == k
    {
      if k in keys {
        var i :| 0 <= i < n && c.documents[i].prepared.key == k;
      }
    }
  }

  /** `validate_for_save`. */
  method ValidateForSave(c: EmbeddedCheckpoint) returns (ok: bool)
    ensures ok <==> SaveOk(c)
  {
    hide DocumentsSaveOk, DocumentSaveOk, ChunksSaveOk, AllChunks, KeysAre, DocKeysAre;
    if |c.documents| > MAX_DOCUMENTS {
      return false;
    }
    var documents: set<string>, chunkKeys: set<string>, chunks := {}, {}, 0;
    NothingSaved(c);
    for i := 0 to |c.documents|
      invariant DocumentsSaveOk(c, i) && DocKeysAre(documents, c.documents, i)
      invariant KeysAre(chunkKeys, AllChunks(c.documents, i)) && chunks == |AllChunks(c.documents, i)| <= MAX_FILE_CHUNKS
    {
      var e := c.documents[i];
      DocumentNext(c, i, documents);
      AllChunksNext(c.documents, i);
      SavedChunks(c, i);
      if DocumentsSaveOk(c, |c.documents|) {
        SaveOkPrefix(c, i + 1);
        SavedChunks(c, i + 1);
      }
      var good := CheckDocument(e, c.revisions);
      if !good || e.prepared.key in documents {
        return false;
      }
      if |e.prepared.chunks| > MAX_FILE_CHUNKS - chunks {
        return false;
      }
      documents := documents + {e.prepared.key};
      good, chunkKeys := CheckChunks(e.prepared.chunks, i, chunkKeys, AllChunks(c.documents, i));
      if !good {
        return false;
      }
      chunks := chunks + |e.prepared.chunks|;
    }
    if |c.revisions| > MAX_DOCUMENTS {
      return false;
    }
    var rest := c.revisions.Keys;
    while rest != {}
      invariant rest <= c.revisions.Keys
      invariant forall d :: d in c.revisions && d !in rest ==> d != "" && Fits32(d) && c.revisions[d] != 0
      decreases |rest|
    {
      var d :| d in rest;
      if d == "" || !Fits32(d) || c.revisions[d] == 0 {
        return false;
      }
      rest := rest - {d};
    }
    return true;
  }

  lemma NothingSaved(c: EmbeddedCheckpoint)
    ensures DocumentsSaveOk(c, 0) && DocKeysAre({}, c.documents, 0) && KeysAre({}, AllChunks(c.documents, 0)) && AllChunks(c.documents, 0) == []
  {
  }

  lemma AllChunksNext(docs: seq<CheckpointEntry>, i: nat)
    requires i < |docs|
    ensures AllChunks(docs, i + 1) == AllChunks(docs, i) + LocatedIn(i, docs[i].prepared.chunks)
  {
  }

  lemma SavedChunks(c: EmbeddedCheckpoint, n: nat)
    requires n <= |c.documents| && DocumentsSaveOk(c, n)
    ensures ChunksSaveOk(AllChunks(c.documents, n)) && |AllChunks(c.documents, n)| <= MAX_FILE_CHUNKS
  {
  }

  // ----------------------------------------------------------------------------- writing

  method WriteDocumentRow(i: nat, p: PreparedDocument) returns (row: Blob)
    ensures row == DocumentRow(i, p)
  {
    hide Flat, Writing;
    var keys := InOrder(p.metadata.Keys);
    OrderedUnique(keys, KeysOf(p.metadata.Keys), p.metadata.Keys);
    ghost var rows := MetadataRows(p.metadata, keys);
    row := Bytes.Put(i, 4) + PutStr(p.key) + PutStr(p.title) + PutStr(p.content) + Bytes.Put(|p.metadata|, 4);
    RowHead(i, p, Flat(rows));
    WriteStart(row, rows);
    for n := 0 to |keys|
      invariant Writing(DocumentRow(i, p), row, rows, n)
    {
      WriteRow(DocumentRow(i, p), row, rows, n);
      row := row + (PutStr(keys[n]) + PutStr(p.metadata[keys[n]]));
    }
    WriteEnd(DocumentRow(i, p), row, rows);
  }

  lemma RowHead(i: nat, p: PreparedDocument, tail: Blob)
    ensures Bytes.Put(i, 4) + PutStr(p.key) + PutStr(p.title) + PutStr(p.content) + Bytes.Put(|p.metadata|, 4) + tail ==
      Bytes.Put(i, 4) + (PutStr(p.key) + (PutStr(p.title) + (PutStr(p.content) + (Bytes.Put(|p.metadata|, 4) + tail))))
  {
    hide PutStr, Bytes.Put;
    Five(Bytes.Put(i, 4), PutStr(p.key), PutStr(p.title), PutStr(p.content), Bytes.Put(|p.metadata|, 4), tail);
  }

  lemma Five(a: Blob, b: Blob, c: Blob, d: Blob, e: Blob, tail: Blob)
    ensures a + b + c + d + e + tail == a + (b + (c + (d + (e + tail))))
  {
  }

  method WriteDocuments(c: EmbeddedCheckpoint) returns (w: Blob)
    ensures w == DocsBlob(c)
  {
    hide Flat, Writing, DocumentRow, Bytes.Put;
    ghost var rows := DocumentRows(c.documents);
    w := Bytes.Put(|c.documents|, 4);
    WriteStart(w, rows);
    for i := 0 to |c.documents|
      invariant Writing(DocsBlob(c), w, rows, i)
    {
      var row := WriteDocumentRow(i, c.documents[i].prepared);
      WriteRow(DocsBlob(c), w, rows, i);
      w := w + row;
    }
    WriteEnd(DocsBlob(c), w, rows);
  }

  method WriteEmbeddingRow(f: Format, v: Vector) returns (row: Blob)
    ensures row == EmbeddingRow(f, v)
  {
    hide Flat, Writing, Bytes.Put;
    ghost var rows := FloatRows(f, v);
    row := Bytes.Put(|v|, 4);
    WriteStart(row, rows);
    for i := 0 to |v|
      invariant Writing(EmbeddingRow(f, v), row, rows, i)
    {
      WriteRow(EmbeddingRow(f, v), row, rows, i);
      row := row + Bytes.Put(f.bits(v[i]), 4);
    }
    WriteEnd(EmbeddingRow(f, v), row, rows);
  }

  /** The o-th chunk of document d among all chunks. */
  lemma ChunkAt(docs: seq<CheckpointEntry>, d: nat, o: nat)
    requires d < |docs| && o < |docs[d].prepared.chunks|
    ensures var id := |AllChunks(docs, d)| + o;
      id < |AllChunks(docs, |docs|)| && AllChunks(docs, |docs|)[id] == Located(d, docs[d].prepared.chunks[o])
  {
    AllChunksNext(docs, d);
    AllChunksPrefix(docs, d + 1, |docs|);
    hide AllChunks;
    var id, all, part := |AllChunks(docs, d)| + o, AllChunks(docs, |docs|), AllChunks(docs, d + 1);
    assert all[..|part|][id] == all[id];
  }

  /** The chunk, embedding and lexical sections are written in one pass over all chunks. */
  ghost predicate Passed(f: Format, c: EmbeddedCheckpoint, id: nat, chunks: Blob, embeddings: Blob, texts: seq<string>, any: bool)
  {
    var all := Everything(c);
    id <= |all| && Writing(ChunksBlob(c), chunks, ChunkRows(all), id) &&
    Writing(EmbeddingsBlob(f, c), embeddings, EmbeddingRows(f, all), id) &&
    texts == IndexedTexts(all)[..id] && (any <==> AnyEmbedding(all[..id]))
  }

  lemma PassNext(f: Format, c: EmbeddedCheckpoint, id: nat, chunks: Blob, embeddings: Blob, texts: seq<string>, any: bool, l: Located)
    requires Passed(f, c, id, chunks, embeddings, texts, any) && id < |Everything(c)| && Everything(c)[id] == l
    ensures Passed(f, c, id + 1, chunks + ChunkRow(id, l), embeddings + EmbeddingRow(f, l.chunk.embedding),
                   texts + [l.chunk.indexedText], any || l.chunk.embedding != [])
  {
    hide Writing, ChunkRow, EmbeddingRow, Everything, ChunksBlob, EmbeddingsBlob;
    var all := Everything(c);
    WriteRow(ChunksBlob(c), chunks, ChunkRows(all), id);
    WriteRow(EmbeddingsBlob(f, c), embeddings, EmbeddingRows(f, all), id);
    AnyNext(all, id);
  }

  lemma AnyNext(all: seq<Located>, id: nat)
    requires id < |all|
    ensures AnyEmbedding(all[..id + 1]) <==> AnyEmbedding(all[..id]) || all[id].chunk.embedding != []
  {
    if AnyEmbedding(all[..id]) {
      var i :| 0 <= i < id && all[..id][i].chunk.embedding != [];
      assert all[..id + 1][i].chunk.embedding != [];
    }
    if AnyEmbedding(all[..id + 1]) {
      var i :| 0 <= i < id + 1 && all[..id + 1][i].chunk.embedding != [];
      assert i < id ==> all[..id][i].chunk.embedding != [];
    }
    assert all[..id + 1][id] == all[id];
  }

  lemma PassStart(f: Format, c: EmbeddedCheckpoint)
    ensures Passed(f, c, 0, Bytes.Put(|Everything(c)|, 4), [], [], false)
  {
    hide Flat, Everything;
    var all := Everything(c);
    WriteStart(Bytes.Put(|all|, 4), ChunkRows(all));
    WriteStart([], EmbeddingRows(f, all));
    assert [] + Flat(EmbeddingRows(f, all)) == Flat(EmbeddingRows(f, all));
    assert all[..0] == [];
  }

  lemma PassEnd(f: Format, c: EmbeddedCheckpoint, id: nat, chunks: Blob, embeddings: Blob, texts: seq<string>, any: bool)
    requires Passed(f, c, id, chunks, embeddings, texts, any) && id == |Everything(c)|
    ensures chunks == ChunksBlob(c) && embeddings == EmbeddingsBlob(f, c) && texts == IndexedTexts(Everything(c)) && (any <==> AnyEmbedding(Everything(c)))
  {
    hide Writing, Everything, ChunksBlob, EmbeddingsBlob;
    var all := Everything(c);
    WriteEnd(ChunksBlob(c), chunks, ChunkRows(all));
    WriteEnd(EmbeddingsBlob(f, c), embeddings, EmbeddingRows(f, all));
    assert all[..|all|] == all && IndexedTexts(all)[..|all|] == IndexedTexts(all);
  }

  method WriteChunks(f: Format, c: EmbeddedCheckpoint) returns (chunks: Blob, embeddings: Blob, texts: seq<string>, any: bool)
    ensures chunks == ChunksBlob(c) && embeddings == EmbeddingsBlob(f, c) && texts == IndexedTexts(Everything(c)) && (any <==> AnyEmbedding(Everything(c)))
  {
    hide Passed, AllChunks, ChunkRow, EmbeddingRow, ChunksBlob, EmbeddingsBlob, AnyEmbedding;
    var count := 0;
    NoChunks(c.documents);
    for d := 0 to |c.documents|
      invariant count == |AllChunks(c.documents, d)|
    {
      AllChunksNext(c.documents, d);
      count := count + |c.documents[d].prepared.chunks|;
    }
    chunks, embeddings, texts, any := Bytes.Put(count, 4), [], [], false;
    PassStart(f, c);
    var id := 0;
    for d := 0 to |c.documents|
      invariant id == |AllChunks(c.documents, d)| && Passed(f, c, id, chunks, embeddings, texts, any)
    {
      var own := c.documents[d].prepared.chunks;
      AllChunksNext(c.documents, d);
      for o := 0 to |own|
        invariant id == |AllChunks(c.documents, d)| + o && Passed(f, c, id, chunks, embeddings, texts, any)
      {
        ChunkAt(c.documents, d, o);
        PassNext(f, c, id, chunks, embeddings, texts, any, Located(d, own[o]));
        chunks := chunks + ChunkRow(id, Located(d, own[o]));
        var row := WriteEmbeddingRow(f, own[o].embedding);
        embeddings := embeddings + row;
        any := any || own[o].embedding != [];
        texts := texts + [own[o].indexedText];
        id := id + 1;
      }
    }
    PassEnd(f, c, id, chunks, embeddings, texts, any);
  }

  lemma NoChunks(docs: seq<CheckpointEntry>)
    ensures AllChunks(docs, 0) == []
  {
  }

  method WriteRuntimeRow(e: CheckpointEntry) returns (row: Blob)
    ensures row == RuntimeRow(e)
  {
    hide Flat, Writing, Bytes.Put, PutStr, RuntimeChunkRow;
    var p := e.prepared;
    ghost var rows := RuntimeChunkRows(p.chunks);
    row := PutStr(p.key) + Bytes.Put(e.revision, 8) + PutStr(p.contentHash) + PutStr(p.chunkingFingerprint) +
           PutStr(p.embeddingIdentity) + Bytes.Put(|p.chunks|, 4);
    Six(PutStr(p.key), Bytes.Put(e.revision, 8), PutStr(p.contentHash), PutStr(p.chunkingFingerprint),
        PutStr(p.embeddingIdentity), Bytes.Put(|p.chunks|, 4), Flat(rows));
    WriteStart(row, rows);
    for i := 0 to |p.chunks|
      invariant Writing(RuntimeRow(e), row, rows, i)
    {
      WriteRow(RuntimeRow(e), row, rows, i);
      row := row + RuntimeChunkRow(p.chunks[i]);
    }
    WriteEnd(RuntimeRow(e), row, rows);
  }

  lemma Six(a: Blob, b: Blob, c: Blob, d: Blob, e: Blob, g: Blob, tail: Blob)
    ensures a + b + c + d + e + g + tail == a + (b + (c + (d + (e + (g + tail)))))
  {
  }

  method WriteRevisions(c: EmbeddedCheckpoint) returns (w: Blob)
    ensures w == RevisionsBlob(c)
  {
    hide Flat, Writing, Bytes.Put, PutStr;
    var keys := InOrder(c.revisions.Keys);
    OrderedUnique(keys, KeysOf(c.revisions.Keys), c.revisions.Keys);
    ghost var rows := RevisionRows(c.revisions, keys);
    w := Bytes.Put(|c.revisions|, 4);
    WriteStart(w, rows);
    for i := 0 to |keys|
      invariant Writing(RevisionsBlob(c), w, rows, i)
    {
      WriteRow(RevisionsBlob(c), w, rows, i);
      w := w + (PutStr(keys[i]) + Bytes.Put(c.revisions[keys[i]], 8));
    }
    WriteEnd(RevisionsBlob(c), w, rows);
  }

  method WriteRuntime(c: EmbeddedCheckpoint) returns (w: Blob)
    ensures w == RuntimeBlob(c)
  {
    hide Flat, Writing, RuntimeRow, RevisionsBlob, RuntimeHead;
    ghost var rows := RuntimeRows(c.documents);
    ghost var whole := RuntimeHead(c) + Flat(rows);
    w := RuntimeHead(c);
    WriteStart(w, rows);
    for i := 0 to |c.documents|
      invariant Writing(whole, w, rows, i)
    {
      var row := WriteRuntimeRow(c.documents[i]);
      WriteRow(whole, w, rows, i);
      w := w + row;
    }
    WriteEnd(whole, w, rows);
    var revisions := WriteRevisions(c);
    Reassociate(RuntimeHead(c), Flat(rows), revisions);
    w := w + revisions;
  }

  /** `save`: refused unless the checkpoint is fit to be saved; otherwise the file is the serialized container. */
  method Save(f: Format, c: EmbeddedCheckpoint) returns (r: Result<Blob>)
    ensures r == if SaveOk(c) then Ok(Serialized(f.crc, ContainerOf(f, c))) else Err(InvalidArgument)
  {
    hide SaveOk, Serialized, RuntimeBlob, ChunksBlob, EmbeddingsBlob, DocsBlob, AnyEmbedding, Everything;
    var ok := ValidateForSave(c);
    if !ok {
      return Err(InvalidArgument);
    }
    var documents := WriteDocuments(c);
    var chunks, embeddings, texts, any := WriteChunks(f, c);
    var runtime := WriteRuntime(c);
    var sections := [Section(BM25_TAG, f.lexicon(texts)), Section(META_TAG, f.meta)] +
      (if any then [Section(EMBED_TAG, embeddings)] else []) +
      [Section(RUNTIME_TAG, runtime), Section(CHUNKS_TAG, chunks), Section(DOCS_TAG, documents)];
    var container := Container(FORMAT_MAJOR, FORMAT_MINOR, if any then HAS_EMBEDDINGS else 0, sections);
    var file := WriteStreamed(f.crc, container);
    return Ok(file);
  }
}
