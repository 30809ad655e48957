/** Reading the runtime section, and the whole of `load`. */
module CheckpointStore {
  import opened Wrappers
  import opened Collections
  import opened Documents
  import opened KeyLists
  import opened Bytes
  import opened Reading
  import opened Dense
  import opened Containers
  import opened ContainerLayout
  import opened Validation
  import opened Generations
  import opened GenerationSafety
  import opened Backend
  import opened CheckpointFormat
  import opened CheckpointLoad
  import opened CheckpointChunks

  // ---------------------------------------------------------------------- runtime rows

  datatype RuntimeHeader = RuntimeHeader(key: string, revision: nat, hash: string, fingerprint: string, identity: string, count: nat)

  function ReadRuntimeHead(input: Blob): Read<RuntimeHeader> {
    match ReadStr(input)
    case Short => Short
    case Got(key, r1) =>
      match ReadU(r1, 8)
      case Short => Short
      case Got(revision, r2) =>
        match ReadStr(r2)
        case Short => Short
        case Got(hash, r3) =>
          match ReadStr(r3)
          case Short => Short
          case Got(fingerprint, r4) =>
            match ReadStr(r4)
            case Short => Short
            case Got(identity, r5) =>
              match ReadU(r5, 4)
              case Short => Short
              case Got(count, r6) => Got(RuntimeHeader(key, revision, hash, fingerprint, identity, count), r6)
  }

  lemma RuntimeHeadBack(f: Format, e: CheckpointEntry, revisions: map<DocKey, nat>, tail: Blob)
    requires Fields(f, e, revisions) && e.revision < 0x1_0000_0000_0000_0000 && |e.prepared.chunks| < 0x1_0000_0000
    ensures var p := e.prepared;
      ReadRuntimeHead(RuntimeRow(e) + tail) ==
      Got(RuntimeHeader(p.key, e.revision, p.contentHash, p.chunkingFingerprint, p.embeddingIdentity, |p.chunks|),
          Flat(RuntimeChunkRows(p.chunks)) + tail)
  {
    hide Flat, ByteString, ReadStr, PutStr, Bytes.Put;
    Widths();
    var p := e.prepared;
    var body := Flat(RuntimeChunkRows(p.chunks));
    var t6 := body + tail;
    var t5 := Bytes.Put(|p.chunks|, 4) + t6;
    var t4 := PutStr(p.embeddingIdentity) + t5;
    var t3 := PutStr(p.chunkingFingerprint) + t4;
    var t2 := PutStr(p.contentHash) + t3;
    var t1 := Bytes.Put(e.revision, 8) + t2;
    SixTail(PutStr(p.key), Bytes.Put(e.revision, 8), PutStr(p.contentHash), PutStr(p.chunkingFingerprint),
            PutStr(p.embeddingIdentity), Bytes.Put(|p.chunks|, 4), body, tail);
    ReadPutStr(p.key, t1);
    ReadPut(e.revision, 8, t2);
    ReadPutStr(p.contentHash, t3);
    ReadPutStr(p.chunkingFingerprint, t4);
    ReadPutStr(p.embeddingIdentity, t5);
    ReadPut(|p.chunks|, 4, t6);
  }

  lemma SixTail(a: Blob, b: Blob, c: Blob, d: Blob, e: Blob, g: Blob, h: Blob, tail: Blob)
    ensures (a + (b + (c + (d + (e + (g + h)))))) + tail == a + (b + (c + (d + (e + (g + (h + tail))))))
  {
  }

  datatype RuntimeChunk = RuntimeChunk(key: string, ordinal: nat, indexedText: string)

  function ReadRuntimeChunk(input: Blob): Read<RuntimeChunk> {
    match ReadStr(input)
    case Short => Short
    case Got(key, r1) =>
      match ReadU(r1, 8)
      case Short => Short
      case Got(ordinal, r2) =>
        match ReadStr(r2)
        case Short => Short
        case Got(text, r3) => Got(RuntimeChunk(key, ordinal, text), r3)
  }

  lemma RuntimeChunkBack(f: Format, c: PreparedChunk, tail: Blob)
    requires TypedChunk(f, c) && ChunkSaveOk(c)
    ensures ReadRuntimeChunk(RuntimeChunkRow(c) + tail) == Got(RuntimeChunk(c.key, c.ordinal, c.indexedText), tail)
  {
    hide ByteString, ReadStr, PutStr, Bytes.Put;
    Widths();
    var t2 := PutStr(c.indexedText) + tail;
    var t1 := Bytes.Put(c.ordinal, 8) + t2;
    assert RuntimeChunkRow(c) + tail == PutStr(c.key) + t1;
    ReadPutStr(c.key, t1);
    ReadPut(c.ordinal, 8, t2);
    ReadPutStr(c.indexedText, tail);
  }

  /** The first n chunks complete, the rest still without key, ordinal and indexed text. */
  function NamedChunks(chunks: seq<PreparedChunk>, n: nat): (r: seq<PreparedChunk>)
    ensures |r| == |chunks|
    ensures forall i :: 0 <= i < |chunks| ==> r[i] == if i < n then chunks[i] else BareChunk(chunks[i]).(embedding := chunks[i].embedding)
  {
    seq(|chunks|, i requires 0 <= i < |chunks| =>
      if i < n then chunks[i] else BareChunk(chunks[i]).(embedding := chunks[i].embedding))
  }

  lemma NamedStart(chunks: seq<PreparedChunk>)
    ensures VectorChunks(chunks, |chunks|) == NamedChunks(chunks, 0) && NamedChunks(chunks, |chunks|) == chunks
  {
  }

  lemma NamedNext(chunks: seq<PreparedChunk>, i: nat)
    requires i < |chunks|
    ensures NamedChunks(chunks, i + 1) == NamedChunks(chunks, i)[i := chunks[i]]
    ensures chunks[i] == NamedChunks(chunks, i)[i].(key := chunks[i].key, ordinal := chunks[i].ordinal, indexedText := chunks[i].indexedText)
  {
  }

  ghost predicate OrdinalsOk(chunks: seq<PreparedChunk>, n: nat)
    requires n <= |chunks|
  {
    forall i :: 0 <= i < n ==> chunks[i].ordinal == i
  }

  ghost predicate ChunksFit(f: Format, chunks: seq<PreparedChunk>) {
    forall i :: 0 <= i < |chunks| ==> TypedChunk(f, chunks[i]) && ChunkSaveOk(chunks[i])
  }

  /** Rows from place `i` on complete the chunks. */
  function RuntimeChunksFrom(input: Blob, i: nat, chunks: seq<PreparedChunk>): Result<(seq<PreparedChunk>, Blob)>
    decreases |chunks| - i
  {
    if i >= |chunks| then Ok((chunks, input))
    else
      match ReadRuntimeChunk(input)
      case Short => Err(CorruptIndex)
      case Got(row, rest) =>
        if row.ordinal != i then Err(CorruptIndex)
        else RuntimeChunksFrom(rest, i + 1,
                               chunks[i := chunks[i].(key := row.key, ordinal := row.ordinal, indexedText := row.indexedText)])
  }

  /** Keys, ordinals and indexed texts of a document's chunks. */
  method ReadRuntimeChunks(input: Blob, chunks0: seq<PreparedChunk>, ghost f: Format, ghost whole: seq<PreparedChunk>, ghost tail: Blob)
    returns (r: Result<(seq<PreparedChunk>, Blob)>)
    ensures RuntimeGood(f, input, chunks0, whole, tail) ==> r == if OrdinalsOk(whole, |whole|) then Ok((whole, tail)) else Err(CorruptIndex)
    ensures r == RuntimeChunksFrom(input, 0, chunks0)
  {
    hide Flat, RuntimeChunkRow, ReadRuntimeChunk, TypedChunk, ChunkSaveOk;
    ghost var rows := RuntimeChunkRows(whole);
    ghost var good := RuntimeGood(f, input, chunks0, whole, tail);
    var chunks, rest := chunks0, input;
    LastRow(rows, tail);
    NamedStart(whole);
    for i := 0 to |chunks0|
      invariant |chunks| == |chunks0| && RuntimeChunksFrom(input, 0, chunks0) == RuntimeChunksFrom(rest, i, chunks)
      invariant good ==> rest == Flat(rows[i..]) + tail && chunks == NamedChunks(whole, i) && OrdinalsOk(whole, i)
    {
      if good {
        NextRow(rows, i, tail);
        RuntimeChunkBack(f, whole[i], Flat(rows[i + 1..]) + tail);
        NamedNext(whole, i);
      }
      var row := ReadRuntimeChunk(rest);
      if row.Short? || row.value.ordinal != i {
        return Err(CorruptIndex);
      }
      chunks := chunks[i := chunks[i].(key := row.value.key, ordinal := row.value.ordinal, indexedText := row.value.indexedText)];
      rest := row.rest;
    }
    return Ok((chunks, rest));
  }

  ghost predicate RuntimeGood(f: Format, input: Blob, chunks0: seq<PreparedChunk>, whole: seq<PreparedChunk>, tail: Blob) {
    ChunksFit(f, whole) && chunks0 == VectorChunks(whole, |whole|) && input == Flat(RuntimeChunkRows(whole)) + tail
  }

  function RuntimeFrom(input: Blob, doc: PreparedDocument): Result<(CheckpointEntry, Blob)> {
    match ReadRuntimeHead(input)
    case Short => Err(CorruptIndex)
    case Got(h, rest) =>
      if h.key != doc.key || h.revision == 0 || h.count != |doc.chunks| then Err(CorruptIndex)
      else
        match RuntimeChunksFrom(rest, 0, doc.chunks)
        case Err(e) => Err(CorruptIndex)
        case Ok(chunks) =>
          Ok((CheckpointEntry(doc.(contentHash := h.hash, chunkingFingerprint := h.fingerprint, embeddingIdentity := h.identity,
                                   chunks := chunks.0), h.revision), chunks.1))
  }

  /** One document's runtime row completes it. */
  method ReadRuntime(input: Blob, doc: PreparedDocument, ghost f: Format, ghost e: CheckpointEntry, ghost revisions: map<DocKey, nat>, ghost tail: Blob)
    returns (r: Result<(CheckpointEntry, Blob)>)
    ensures RowGood(f, input, doc, e, revisions, tail) ==>
      r == if OrdinalsOk(e.prepared.chunks, |e.prepared.chunks|) then Ok((e, tail)) else Err(CorruptIndex)
    ensures r.Ok? ==> r.value.0.revision != 0
    ensures r == RuntimeFrom(input, doc)
  {
    hide RuntimeChunksFrom, Flat, ReadRuntimeHead, RuntimeRow, Fields, ChunksFit;
    ghost var p := e.prepared;
    ghost var good := RowGood(f, input, doc, e, revisions, tail);
    if good {
      RuntimeHeadBack(f, e, revisions, tail);
      FieldsRevision(f, e, revisions);
    }
    var head := ReadRuntimeHead(input);
    if head.Short? {
      return Err(CorruptIndex);
    }
    var h := head.value;
    if h.key != doc.key || h.revision == 0 || h.count != |doc.chunks| {
      return Err(CorruptIndex);
    }
    var chunks := ReadRuntimeChunks(head.rest, doc.chunks, f, p.chunks, tail);
    if chunks.Err? {
      return Err(CorruptIndex);
    }
    var whole := doc.(contentHash := h.hash, chunkingFingerprint := h.fingerprint, embeddingIdentity := h.identity, chunks := chunks.value.0);
    return Ok((CheckpointEntry(whole, h.revision), chunks.value.1));
  }

  ghost predicate RowGood(f: Format, input: Blob, doc: PreparedDocument, e: CheckpointEntry, revisions: map<DocKey, nat>, tail: Blob) {
    var p := e.prepared;
    Fields(f, e, revisions) && e.revision < 0x1_0000_0000_0000_0000 && |p.chunks| < 0x1_0000_0000 && ChunksFit(f, p.chunks) &&
    doc == WithVectors(p, |p.chunks|) && input == RuntimeRow(e) + tail
  }

  lemma FieldsRevision(f: Format, e: CheckpointEntry, revisions: map<DocKey, nat>)
    requires Fields(f, e, revisions)
    ensures e.revision != 0 && e.prepared.key in revisions && revisions[e.prepared.key] == e.revision
  {
    hide TypedDocument;
  }

  // ------------------------------------------------------------------------- revisions

  ghost predicate RevisionsTo(m: map<DocKey, nat>, whole: map<DocKey, nat>, keys: seq<string>, n: nat)
    requires n <= |keys|
  {
    forall k :: (k in m <==> k in keys[..n]) && (k in m ==> k in whole && m[k] == whole[k])
  }

  lemma RevisionsNext(m: map<DocKey, nat>, whole: map<DocKey, nat>, keys: seq<string>, n: nat)
    requires n < |keys| && Ordered(keys, whole.Keys) && RevisionsTo(m, whole, keys, n)
    ensures keys[n] in whole && keys[n] !in m && RevisionsTo(m[keys[n] := whole[keys[n]]], whole, keys, n + 1)
  {
    assert keys[n] in keys;
    assert keys[..n + 1] == keys[..n] + [keys[n]];
  }

  lemma RevisionsAll(m: map<DocKey, nat>, whole: map<DocKey, nat>, keys: seq<string>)
    requires Ordered(keys, whole.Keys) && RevisionsTo(m, whole, keys, |keys|)
    ensures m == whole
  {
    assert keys[..|keys|] == keys;
  }

  lemma NoRevisions(whole: map<DocKey, nat>, keys: seq<string>)
    ensures RevisionsTo(map[], whole, keys, 0)
  {
  }

  lemma SavedRevision(f: Format, c: EmbeddedCheckpoint, k: string)
    requires Saved(f, c) && k in c.revisions
    ensures ByteString(k) && Fits32(k) && k != "" && 0 < c.revisions[k] < Pow256(8)
  {
    Widths();
    hide ContainerOf, OffsetOf, DocumentsSaveOk, TypedDocument, ByteString, Fits32;
  }

  lemma RevisionAt(f: Format, c: EmbeddedCheckpoint, keys: seq<string>, i: nat)
    requires Saved(f, c) && Ordered(keys, c.revisions.Keys) && i < |keys|
    ensures var rows := RevisionRows(c.revisions, keys); var after := Flat(rows[i + 1..]) + [];
      keys[i] in c.revisions && keys[i] != "" && c.revisions[keys[i]] != 0 &&
      var left := Bytes.Put(c.revisions[keys[i]], 8) + after;
      ReadStr(Flat(rows[i..]) + []) == Got(keys[i], left) && ReadU(left, 8) == Got(c.revisions[keys[i]], after)
  {
    hide Flat, PutStr, ReadStr, Saved, ByteString, Fits32, Bytes.Put;
    assert keys[i] in keys;
    var rows := RevisionRows(c.revisions, keys);
    SavedRevision(f, c, keys[i]);
    NextRow(rows, i, []);
    var after := Flat(rows[i + 1..]) + [];
    Reassociate(PutStr(keys[i]), Bytes.Put(c.revisions[keys[i]], 8), after);
    FitsText(keys[i]);
    ReadPutStr(keys[i], Bytes.Put(c.revisions[keys[i]], 8) + after);
    ReadPut(c.revisions[keys[i]], 8, after);
  }

  lemma RevisionsBegin(f: Format, c: EmbeddedCheckpoint)
    requires Saved(f, c)
    ensures var keys := KeysOf(c.revisions.Keys); var rows := RevisionRows(c.revisions, keys);
      |keys| == |c.revisions| == |rows| <= MAX_DOCUMENTS && ReadU(RevisionsBlob(c), 4) == Got(|c.revisions|, Flat(rows[0..]) + [])
  {
    hide Flat, Saved, Bytes.Put;
    var keys := KeysOf(c.revisions.Keys);
    var rows := RevisionRows(c.revisions, keys);
    OrderedCount(keys, c.revisions.Keys);
    CountFits(f, c);
    Widths();
    ReadPut(|c.revisions|, 4, Flat(rows));
    LastRow(rows, []);
    NoTail(Flat(rows));
  }

  lemma CatalogIs(input: Blob)
    ensures CatalogOf(input) ==
      match ReadU(input, 4)
      case Short => Err(CorruptIndex)
      case Got(count, rest) => if count > MAX_DOCUMENTS then Err(CorruptIndex) else RevisionsFrom(rest, count, map[])
  {
    hide ReadU, RevisionsFrom;
  }

  lemma RevisionsEnd(rest: Blob, m: map<DocKey, nat>)
    ensures RevisionsFrom(rest, 0, m) == Ok((m, rest))
  {
  }

  lemma RevisionsStep(rest: Blob, n: nat, m: map<DocKey, nat>)
    requires n > 0
    ensures RevisionsFrom(rest, n, m) ==
      match ReadStr(rest)
      case Short => Err(CorruptIndex)
      case Got(k, r1) =>
        match ReadU(r1, 8)
        case Short => Err(CorruptIndex)
        case Got(v, r2) =>
          if k == "" || v == 0 || k in m then Err(CorruptIndex) else RevisionsFrom(r2, n - 1, m[k := v])
  {
    hide ReadStr, ReadU;
  }

  function RevisionsFrom(input: Blob, count: nat, m: map<DocKey, nat>): Result<(map<DocKey, nat>, Blob)>
    decreases count
  {
    if count == 0 then Ok((m, input))
    else
      match ReadStr(input)
      case Short => Err(CorruptIndex)
      case Got(k, r1) =>
        match ReadU(r1, 8)
        case Short => Err(CorruptIndex)
        case Got(v, r2) =>
          if k == "" || v == 0 || k in m then Err(CorruptIndex) else RevisionsFrom(r2, count - 1, m[k := v])
  }

  function CatalogOf(input: Blob): Result<(map<DocKey, nat>, Blob)> {
    match ReadU(input, 4)
    case Short => Err(CorruptIndex)
    case Got(count, rest) => if count > MAX_DOCUMENTS then Err(CorruptIndex) else RevisionsFrom(rest, count, map[])
  }

  /** The revision catalog, at the end of the runtime section. */
  method ReadRevisions(input: Blob, ghost f: Format, ghost c: EmbeddedCheckpoint) returns (r: Result<(map<DocKey, nat>, Blob)>)
    ensures Saved(f, c) && input == RevisionsBlob(c) ==> r == Ok((c.revisions, []))
    ensures r.Ok? ==> forall d :: d in r.value.0 ==> d != "" && r.value.0[d] != 0
    ensures r == CatalogOf(input)
  {
    hide Flat, PutStr, ReadStr, ReadU, RevisionsTo, Saved, ByteString, Fits32, Bytes.Put, Take, RevisionRows, RevisionsFrom, CatalogOf;
    ghost var whole := c.revisions;
    ghost var keys := KeysOf(whole.Keys);
    ghost var rows := RevisionRows(whole, keys);
    ghost var good := Saved(f, c) && input == RevisionsBlob(c);
    OrderedCount(keys, whole.Keys);
    if good {
      RevisionsBegin(f, c);
    }
    CatalogIs(input);
    NoRevisions(whole, keys);
    var count := ReadU(input, 4);
    if count.Short? || count.value > MAX_DOCUMENTS {
      return Err(CorruptIndex);
    }
    var m: map<DocKey, nat> := map[];
    var rest := count.rest;
    for i := 0 to count.value
      invariant forall d :: d in m ==> d != "" && m[d] != 0
      invariant CatalogOf(input) == RevisionsFrom(rest, count.value - i, m)
      invariant good ==> RevisionsTo(m, whole, keys, i) && rest == Flat(rows[i..]) + []
    {
      if good {
        RevisionsNext(m, whole, keys, i);
        RevisionAt(f, c, keys, i);
      }
      RevisionsStep(rest, count.value - i, m);
      var k := ReadStr(rest);
      if k.Short? || k.value == "" {
        return Err(CorruptIndex);
      }
      var v := ReadU(k.rest, 8);
      if v.Short? || v.value == 0 || k.value in m {
        return Err(CorruptIndex);
      }
      m := m[k.value := v.value];
      rest := v.rest;
    }
    if good {
      RevisionsAll(m, whole, keys);
      LastRow(rows, []);
    }
    RevisionsEnd(rest, m);
    return Ok((m, rest));
  }

  lemma FitsText(s: string)
    ensures Fits32(s) ==> |s| < 0x1_0000_0000
  {
  }

  // ------------------------------------------------------------------ the runtime section

  datatype RuntimeNumbers = RuntimeNumbers(version: nat, generation: nat, walPosition: nat, count: nat)

  function ReadNumbers(input: Blob): Read<RuntimeNumbers> {
    match ReadU(input, 4)
    case Short => Short
    case Got(version, r1) =>
      match ReadU(r1, 8)
      case Short => Short
      case Got(generation, r2) =>
        match ReadU(r2, 8)
        case Short => Short
        case Got(walPosition, r3) =>
          match ReadU(r3, 4)
          case Short => Short
          case Got(count, r4) => Got(RuntimeNumbers(version, generation, walPosition, count), r4)
  }

  lemma NumbersBack(c: EmbeddedCheckpoint, tail: Blob)
    requires c.generation < 0x1_0000_0000_0000_0000 && c.walPosition < 0x1_0000_0000_0000_0000 && |c.documents| <= MAX_DOCUMENTS
    ensures ReadNumbers(RuntimeHead(c) + tail) ==
      Got(RuntimeNumbers(RUNTIME_VERSION, c.generation, c.walPosition, |c.documents|), tail)
  {
    hide Bytes.Put;
    Widths();
    var t3 := Bytes.Put(|c.documents|, 4) + tail;
    var t2 := Bytes.Put(c.walPosition, 8) + t3;
    var t1 := Bytes.Put(c.generation, 8) + t2;
    assert RuntimeHead(c) + tail == Bytes.Put(RUNTIME_VERSION, 4) + t1;
    ReadPut(RUNTIME_VERSION, 4, t1);
    ReadPut(c.generation, 8, t2);
    ReadPut(c.walPosition, 8, t3);
    ReadPut(|c.documents|, 4, tail);
  }

  lemma SavedNumbers(f: Format, c: EmbeddedCheckpoint)
    requires Saved(f, c)
    ensures c.generation < 0x1_0000_0000_0000_0000 && c.walPosition < 0x1_0000_0000_0000_0000 && |c.documents| <= MAX_DOCUMENTS
  {
    hide ContainerOf, OffsetOf, DocumentsSaveOk, TypedDocument;
  }

  ghost predicate AllOrdinals(docs: seq<CheckpointEntry>, n: nat)
    requires n <= |docs|
  {
    forall d :: 0 <= d < n ==> OrdinalsOk(docs[d].prepared.chunks, |docs[d].prepared.chunks|)
  }

  lemma RowIsGood(f: Format, c: EmbeddedCheckpoint, docs: seq<PreparedDocument>, d: nat, tail: Blob)
    requires Saved(f, c) && Embedded(docs, c.documents, |Everything(c)|) && d < |c.documents|
    ensures RowGood(f, RuntimeRow(c.documents[d]) + tail, docs[d], c.documents[d], c.revisions, tail)
  {
    hide Saved, Taken, Fields, TypedChunk, ChunkSaveOk, RuntimeRow;
    SavedFields(f, c, d);
    ChunkCountFits(f, c);
    TakenEnds(c.documents, d);
    BaseGrows(c.documents, d, |c.documents|);
    var chunks := c.documents[d].prepared.chunks;
    forall o | 0 <= o < |chunks|
      ensures TypedChunk(f, chunks[o]) && ChunkSaveOk(chunks[o])
    {
      ChunkAt(c.documents, d, o);
      SavedSaveOk(f, c, Base(c.documents, d) + o);
      FieldsChunk(f, c.documents[d], c.revisions, o);
    }
  }

  /** Every active document is in the catalog, under its own revision. */
  ghost predicate Consistent(c: EmbeddedCheckpoint) {
    forall i :: 0 <= i < |c.documents| ==>
      c.documents[i].revision != 0 && c.documents[i].prepared.key in c.revisions &&
      c.revisions[c.documents[i].prepared.key] == c.documents[i].revision
  }

  method CheckConsistent(documents: seq<CheckpointEntry>, revisions: map<DocKey, nat>) returns (ok: bool)
    ensures ok <==> AllAgree(documents, revisions)
  {
    for i := 0 to |documents|
      invariant forall j :: 0 <= j < i ==> documents[j].prepared.key in revisions && revisions[documents[j].prepared.key] == documents[j].revision
    {
      if documents[i].prepared.key !in revisions || revisions[documents[i].prepared.key] != documents[i].revision {
        return false;
      }
    }
    return true;
  }

  /** Rows complete the documents one after the other. */
  function RuntimeRowsFrom(input: Blob, docs: seq<PreparedDocument>, done: seq<CheckpointEntry>): Result<(seq<CheckpointEntry>, Blob)>
    decreases |docs| - |done|
  {
    if |done| >= |docs| then Ok((done, input))
    else
      match RuntimeFrom(input, docs[|done|])
      case Err(e) => Err(CorruptIndex)
      case Ok(row) => RuntimeRowsFrom(row.1, docs, done + [row.0])
  }

  predicate AllAgree(documents: seq<CheckpointEntry>, revisions: map<DocKey, nat>) {
    forall i :: 0 <= i < |documents| ==>
      documents[i].prepared.key in revisions && revisions[documents[i].prepared.key] == documents[i].revision
  }

  /** The runtime section: numbers, documents, revisions that agree with them, and nothing more. */
  function RuntimeOf(blob: Blob, docs: seq<PreparedDocument>): Result<EmbeddedCheckpoint> {
    match ReadNumbers(blob)
    case Short => Err(CorruptIndex)
    case Got(n, rest) =>
      if n.version != RUNTIME_VERSION || n.count != |docs| then Err(CorruptIndex)
      else
        match RuntimeRowsFrom(rest, docs, [])
        case Err(e) => Err(CorruptIndex)
        case Ok(rows) =>
          match CatalogOf(rows.1)
          case Err(e) => Err(CorruptIndex)
          case Ok(revisions) =>
            if !AllAgree(rows.0, revisions.0) || revisions.1 != [] then Err(CorruptIndex)
            else Ok(EmbeddedCheckpoint(n.generation, n.walPosition, revisions.0, rows.0))
  }

  /** The documents' rows of the runtime section. */
  method ReadRuntimeRows(input: Blob, docs: seq<PreparedDocument>, ghost f: Format, ghost c: EmbeddedCheckpoint, ghost tail: Blob)
    returns (r: Result<(seq<CheckpointEntry>, Blob)>)
    ensures Saved(f, c) && Embedded(docs, c.documents, |Everything(c)|) && input == Flat(RuntimeRows(c.documents)) + tail ==>
      r == if AllOrdinals(c.documents, |c.documents|) then Ok((c.documents, tail)) else Err(CorruptIndex)
    ensures r.Ok? ==> forall i :: 0 <= i < |r.value.0| ==> r.value.0[i].revision != 0
    ensures r == RuntimeRowsFrom(input, docs, [])
  {
    hide RuntimeFrom, Flat, Saved, RuntimeRow, OrdinalsOk, RowGood, Everything, Embedded, AllOrdinals;
    ghost var rows := RuntimeRows(c.documents);
    ghost var good := Saved(f, c) && Embedded(docs, c.documents, |Everything(c)|) && input == Flat(rows) + tail;
    NoOrdinals(c.documents);
    if good {
      EmbeddedLength(docs, c.documents, |Everything(c)|);
    }
    var documents: seq<CheckpointEntry>, rest := [], input;
    LastRow(rows, tail);
    for i := 0 to |docs|
      invariant |documents| == i && forall j :: 0 <= j < i ==> documents[j].revision != 0
      invariant RuntimeRowsFrom(input, docs, []) == RuntimeRowsFrom(rest, docs, documents)
      invariant good ==> i <= |c.documents| == |docs| && documents == c.documents[..i] && rest == Flat(rows[i..]) + tail && AllOrdinals(c.documents, i)
    {
      ghost var e := if good then c.documents[i] else CheckpointEntry(docs[i], 0);
      ghost var after := if good then Flat(rows[i + 1..]) + tail else [];
      if good {
        NextRow(rows, i, tail);
        RowIsGood(f, c, docs, i, after);
        OrdinalsNext(c.documents, i);
        assert c.documents[..i + 1] == c.documents[..i] + [c.documents[i]];
      }
      var row := ReadRuntime(rest, docs[i], f, e, c.revisions, after);
      if row.Err? {
        return Err(CorruptIndex);
      }
      documents := documents + [row.value.0];
      rest := row.value.1;
    }
    assert c.documents[..|c.documents|] == c.documents;
    return Ok((documents, rest));
  }

  lemma EmbeddedLength(docs: seq<PreparedDocument>, from: seq<CheckpointEntry>, id: nat)
    requires Embedded(docs, from, id)
    ensures |docs| == |from|
  {
    hide WithVectors, Taken;
  }

  lemma NoOrdinals(docs: seq<CheckpointEntry>)
    ensures AllOrdinals(docs, 0)
  {
  }

  lemma OrdinalsNext(docs: seq<CheckpointEntry>, i: nat)
    requires i < |docs| && AllOrdinals(docs, i)
    ensures AllOrdinals(docs, i + 1) <==> OrdinalsOk(docs[i].prepared.chunks, |docs[i].prepared.chunks|)
    ensures AllOrdinals(docs, |docs|) ==> AllOrdinals(docs, i + 1)
  {
    hide OrdinalsOk;
  }

  lemma SavedConsistent(f: Format, c: EmbeddedCheckpoint)
    requires Saved(f, c)
    ensures Consistent(c)
  {
    hide Saved, Fields;
    forall i | 0 <= i < |c.documents|
      ensures c.documents[i].revision != 0 && c.documents[i].prepared.key in c.revisions &&
        c.revisions[c.documents[i].prepared.key] == c.documents[i].revision
    {
      SavedFields(f, c, i);
      FieldsRevision(f, c.documents[i], c.revisions);
    }
  }

  method ReadRuntimeSection(blob: Blob, docs: seq<PreparedDocument>, ghost f: Format, ghost c: EmbeddedCheckpoint) returns (r: Result<EmbeddedCheckpoint>)
    ensures Saved(f, c) && Embedded(docs, c.documents, |Everything(c)|) && blob == RuntimeBlob(c) ==>
      r == if AllOrdinals(c.documents, |c.documents|) then Ok(c) else Err(CorruptIndex)
    ensures r.Ok? ==> Consistent(r.value)
    ensures r == RuntimeOf(blob, docs)
  {
    hide RuntimeRowsFrom, CatalogOf, Flat, Saved, RuntimeHead, RevisionsBlob, ReadNumbers, AllOrdinals, Everything;
    ghost var rows := Flat(RuntimeRows(c.documents));
    ghost var good := Saved(f, c) && Embedded(docs, c.documents, |Everything(c)|) && blob == RuntimeBlob(c);
    if good {
      SavedNumbers(f, c);
      NumbersBack(c, rows + RevisionsBlob(c));
      SavedConsistent(f, c);
    }
    var numbers := ReadNumbers(blob);
    if numbers.Short? || numbers.value.version != RUNTIME_VERSION || numbers.value.count != |docs| {
      return Err(CorruptIndex);
    }
    var documents := ReadRuntimeRows(numbers.rest, docs, f, c, RevisionsBlob(c));
    if documents.Err? {
      return Err(CorruptIndex);
    }
    var revisions := ReadRevisions(documents.value.1, f, c);
    if revisions.Err? {
      return Err(CorruptIndex);
    }
    var consistent := CheckConsistent(documents.value.0, revisions.value.0);
    if !consistent || revisions.value.1 != [] {
      return Err(CorruptIndex);
    }
    return Ok(EmbeddedCheckpoint(numbers.value.generation, numbers.value.walPosition, revisions.value.0, documents.value.0));
  }

  // ---------------------------------------------------------------------------- loading

  function Find(sections: seq<Section>, tag: nat): (r: Option<Blob>)
    ensures r.Some? ==> Section(tag, r.value) in sections
  {
    if sections == [] then None else if sections[0].tag == tag then Some(sections[0].payload) else Find(sections[1..], tag)
  }

  lemma {:induction false} FindIs(sections: seq<Section>, i: nat)
    requires InTagOrder(sections) && i < |sections|
    ensures Find(sections, sections[i].tag) == Some(sections[i].payload)
  {
    if i > 0 {
      assert sections[0].tag < sections[i].tag;
      FindIs(sections[1..], i - 1);
    }
  }

  lemma {:induction false} FindNone(sections: seq<Section>, tag: nat)
    requires forall i :: 0 <= i < |sections| ==> sections[i].tag != tag
    ensures Find(sections, tag) == None
  {
    if sections != [] {
      FindNone(sections[1..], tag);
    }
  }

  /** The sections of a checkpoint, by ascending tag. */
  function SectionList(lexicon: Blob, meta: Blob, embed: Option<Blob>, runtime: Blob, chunks: Blob, docs: Blob): seq<Section> {
    [Section(BM25_TAG, lexicon), Section(META_TAG, meta)] + (if embed.Some? then [Section(EMBED_TAG, embed.value)] else []) +
    [Section(RUNTIME_TAG, runtime), Section(CHUNKS_TAG, chunks), Section(DOCS_TAG, docs)]
  }

  /** What a reader finds under each tag. */
  ghost predicate FindsAll(s: seq<Section>, lexicon: Blob, meta: Blob, embed: Option<Blob>, runtime: Blob, chunks: Blob, docs: Blob) {
    Find(s, BM25_TAG) == Some(lexicon) && Find(s, META_TAG) == Some(meta) && Find(s, RUNTIME_TAG) == Some(runtime) &&
    Find(s, CHUNKS_TAG) == Some(chunks) && Find(s, DOCS_TAG) == Some(docs) && Find(s, EMBED_TAG) == embed
  }

  lemma ListFinds(lexicon: Blob, meta: Blob, embed: Option<Blob>, runtime: Blob, chunks: Blob, docs: Blob)
    ensures var s := SectionList(lexicon, meta, embed, runtime, chunks, docs);
      InTagOrder(s) && |s| <= 6 && (forall i :: 0 <= i < |s| ==> s[i].tag < 0x1_0000_0000) &&
      FindsAll(s, lexicon, meta, embed, runtime, chunks, docs)
  {
    hide Find;
    var s := SectionList(lexicon, meta, embed, runtime, chunks, docs);
    var n := if embed.Some? then 3 else 2;
    FindIs(s, 0);
    FindIs(s, 1);
    FindIs(s, n);
    FindIs(s, n + 1);
    FindIs(s, n + 2);
    if embed.Some? {
      FindIs(s, 2);
    } else {
      FindNone(s, EMBED_TAG);
    }
  }

  ghost function EmbedSection(f: Format, c: EmbeddedCheckpoint): Option<Blob> {
    if AnyEmbedding(Everything(c)) then Some(EmbeddingsBlob(f, c)) else None
  }

  /** The sections of a saved checkpoint are in order, none is empty, and each is found under its tag. */
  ghost predicate Sectioned(f: Format, c: EmbeddedCheckpoint, s: seq<Section>) {
    FindsAll(s, f.lexicon(IndexedTexts(Everything(c))), f.meta, EmbedSection(f, c), RuntimeBlob(c), ChunksBlob(c), DocsBlob(c))
  }

  lemma SavedSections(f: Format, c: EmbeddedCheckpoint)
    requires Saved(f, c)
    ensures var s := ContainerOf(f, c).sections;
      InTagOrder(s) && EmptyLast(s) && |s| <= 6 && (forall i :: 0 <= i < |s| ==> s[i].tag < 0x1_0000_0000) && Sectioned(f, c, s)
  {
    hide Saved, RuntimeBlob, ChunksBlob, DocsBlob, EmbeddingsBlob, AnyEmbedding, Everything, Find, EmptyLast, FindsAll;
    NotEmpty(f, c);
    var lexicon, embed := f.lexicon(IndexedTexts(Everything(c))), EmbedSection(f, c);
    ListFinds(lexicon, f.meta, embed, RuntimeBlob(c), ChunksBlob(c), DocsBlob(c));
    var s := SectionList(lexicon, f.meta, embed, RuntimeBlob(c), ChunksBlob(c), DocsBlob(c));
    assert ContainerOf(f, c).sections == s;
    NoneEmpty(s);
  }

  lemma NoneEmpty(s: seq<Section>)
    requires forall i :: 0 <= i < |s| ==> s[i].payload != []
    ensures EmptyLast(s)
  {
  }

  lemma NotEmpty(f: Format, c: EmbeddedCheckpoint)
    requires Saved(f, c)
    ensures f.lexicon(IndexedTexts(Everything(c))) != [] && f.meta != [] && RuntimeBlob(c) != [] && ChunksBlob(c) != [] && DocsBlob(c) != []
    ensures AnyEmbedding(Everything(c)) ==> EmbeddingsBlob(f, c) != []
    ensures f.lexiconSize(f.lexicon(IndexedTexts(Everything(c)))) == Some(|Everything(c)|) && f.metaOk(f.meta)
  {
    hide Typed, SaveOk, Flat, AllChunks;
    if AnyEmbedding(Everything(c)) {
      FlatSize(EmbeddingRows(f, Everything(c)), 4);
    }
  }

  /** Without embeddings there is nothing left to read into the chunks. */
  lemma NothingEmbedded(f: Format, c: EmbeddedCheckpoint, docs: seq<PreparedDocument>)
    requires Saved(f, c) && Filled(docs, c.documents, |Everything(c)|) && !AnyEmbedding(Everything(c))
    ensures Embedded(docs, c.documents, |Everything(c)|) && VectorsOk(Everything(c))
  {
    hide Saved, Taken;
    ChunkCountFits(f, c);
    forall x | 0 <= x < |c.documents|
      ensures docs[x] == WithVectors(c.documents[x].prepared, Taken(c.documents, x, |Everything(c)|))
    {
      TakenEnds(c.documents, x);
      var p := c.documents[x].prepared;
      assert p.chunks[..|p.chunks|] == p.chunks;
      forall o | 0 <= o < |p.chunks|
        ensures p.chunks[o].embedding == []
      {
        ChunkAt(c.documents, x, o);
      }
      assert BareChunks(p.chunks) == VectorChunks(p.chunks, |p.chunks|);
    }
  }

  /** What a saved checkpoint must be to be loaded again. */
  ghost predicate Loadable(c: EmbeddedCheckpoint) {
    LinesOk(Everything(c), |Everything(c)|) && VectorsOk(Everything(c)) && AllOrdinals(c.documents, |c.documents|)
  }

  lemma SavedHolds(f: Format, c: EmbeddedCheckpoint, file: Blob)
    requires Saved(f, c) && file == Serialized(f.crc, ContainerOf(f, c))
    ensures Holds(f.crc, file, ContainerOf(f, c)) && Sorts(f.arrange) && EmptyLast(ContainerOf(f, c).sections)
  {
    SavedSections(f, c);
    hide Serialized, Sorts, CrcOk, SaveOk, TypedDocument, EmptyLast, OffsetOf;
  }

  function StateOf(f: Format, docs: Blob, chunks: Blob, embed: Option<Blob>): Result<ChunkState> {
    match DocumentsOf(docs)
    case Err(e) => Err(CorruptIndex)
    case Ok(bare) =>
      match ChunksOf(chunks, bare)
      case Err(e) => Err(CorruptIndex)
      case Ok(filled) =>
        if embed.None? then Ok(filled)
        else
          match EmbeddingsFrom(f, embed.value, filled.locations, 0, 0, filled.documents)
          case Err(e) => Err(CorruptIndex)
          case Ok(documents) => Ok(ChunkState(documents, filled.locations))
  }

  /** The documents with their chunks and vectors, from the first three sections. */
  method LoadDocuments(f: Format, docs: Blob, chunks: Blob, embed: Option<Blob>, ghost c: EmbeddedCheckpoint) returns (r: Result<ChunkState>)
    ensures Saved(f, c) && docs == DocsBlob(c) && chunks == ChunksBlob(c) && embed == EmbedSection(f, c) ==>
      (r.Ok? <==> LinesOk(Everything(c), |Everything(c)|) && VectorsOk(Everything(c))) &&
      (r.Ok? ==> Embedded(r.value.documents, c.documents, |Everything(c)|) && |r.value.locations| == |Everything(c)|)
    ensures r == StateOf(f, docs, chunks, embed)
  {
    hide DocumentsOf, ChunksOf, EmbeddingsFrom, Saved, Everything, ChunksBlob, DocsBlob, EmbeddingsBlob, AnyEmbedding, LinesOk, VectorsOk, Embedded, Filled, Places, InRange, Bare;
    ghost var good := Saved(f, c) && docs == DocsBlob(c) && chunks == ChunksBlob(c) && embed == EmbedSection(f, c);
    var bare := ReadDocuments(docs, f, c);
    if bare.Err? {
      return Err(CorruptIndex);
    }
    var filled := ReadChunks(chunks, bare.value, f, c);
    if filled.Err? {
      return Err(CorruptIndex);
    }
    if embed.None? {
      if good {
        NothingEmbedded(f, c, filled.value.documents);
      }
      return filled;
    }
    var embedded := ReadEmbeddings(f, embed.value, filled.value.documents, filled.value.locations, c);
    if embedded.Err? {
      return Err(CorruptIndex);
    }
    return Ok(ChunkState(embedded.value, filled.value.locations));
  }

  /** What the sections of a container are read as: five of them have to be there, a sixth exactly when the flag says so, the
      lexical index has to hold as many documents as there are chunks. */
  function CheckpointIn(f: Format, flags: nat, s: seq<Section>): Result<EmbeddedCheckpoint> {
    var meta, docs, chunks, lexical, runtime, embed :=
      Find(s, META_TAG), Find(s, DOCS_TAG), Find(s, CHUNKS_TAG), Find(s, BM25_TAG), Find(s, RUNTIME_TAG), Find(s, EMBED_TAG);
    if meta.None? || docs.None? || chunks.None? || lexical.None? || runtime.None? then Err(CorruptIndex)
    else if (flags / HAS_EMBEDDINGS % 2 == 1) != embed.Some? || !f.metaOk(meta.value) then Err(CorruptIndex)
    else
      match StateOf(f, docs.value, chunks.value, embed)
      case Err(e) => Err(CorruptIndex)
      case Ok(state) =>
        if f.lexiconSize(lexical.value) != Some(|state.locations|) then Err(CorruptIndex)
        else RuntimeOf(runtime.value, state.documents)
  }

  lemma RuntimeErrs(blob: Blob, docs: seq<PreparedDocument>)
    ensures RuntimeOf(blob, docs).Err? ==> RuntimeOf(blob, docs) == Err(CorruptIndex)
  {
  }

  /** The sections of a container, put together again. */
  method LoadSections(f: Format, flags: nat, s: seq<Section>, ghost c: EmbeddedCheckpoint) returns (r: Result<EmbeddedCheckpoint>)
    ensures Saved(f, c) && Sectioned(f, c, s) && flags == (if EmbedSection(f, c).Some? then HAS_EMBEDDINGS else 0) ==>
      r == if Loadable(c) then Ok(c) else Err(CorruptIndex)
    ensures r.Ok? ==> Consistent(r.value)
    ensures r == CheckpointIn(f, flags, s)
  {
    hide StateOf, RuntimeOf, Saved, Find, Everything, RuntimeBlob, ChunksBlob, DocsBlob, EmbedSection, LinesOk, VectorsOk, AllOrdinals, Embedded, Consistent;
    ghost var good := Saved(f, c) && Sectioned(f, c, s) && flags == if EmbedSection(f, c).Some? then HAS_EMBEDDINGS else 0;
    if good {
      NotEmpty(f, c);
    }
    var meta, docs, chunks, lexical, runtime, embed :=
      Find(s, META_TAG), Find(s, DOCS_TAG), Find(s, CHUNKS_TAG), Find(s, BM25_TAG), Find(s, RUNTIME_TAG), Find(s, EMBED_TAG);
    if meta.None? || docs.None? || chunks.None? || lexical.None? || runtime.None? {
      return Err(CorruptIndex);
    }
    if (flags / HAS_EMBEDDINGS % 2 == 1) != embed.Some? || !f.metaOk(meta.value) {
      return Err(CorruptIndex);
    }
    var loaded := LoadDocuments(f, docs.value, chunks.value, embed, c);
    if loaded.Err? {
      return Err(CorruptIndex);
    }
    if f.lexiconSize(lexical.value) != Some(|loaded.value.locations|) {
      return Err(CorruptIndex);
    }
    r := ReadRuntimeSection(runtime.value, loaded.value.documents, f, c);
    RuntimeErrs(runtime.value, loaded.value.documents);
    if r.Err? {
      r := Err(CorruptIndex);
    }
  }

  /** What any file is loaded as. */
  ghost function LoadedFrom(f: Format, file: Blob): Result<EmbeddedCheckpoint> {
    match ContainerIn(f.crc, f.arrange, file)
    case Err(e) => Err(CorruptIndex)
    case Ok(parsed) => CheckpointIn(f, parsed.flags, parsed.sections)
  }

  /** `load` inverts `save`: a saved file is read back exactly when line ranges are in order, embeddings are
      normalised and of one dimension, and ordinals are the chunks' places; otherwise it is refused. Whatever is
      accepted has a catalog that agrees with its documents. */
  method Load(f: Format, file: Blob, ghost c: EmbeddedCheckpoint) returns (r: Result<EmbeddedCheckpoint>)
    requires Sorts(f.arrange)
    ensures r == LoadedFrom(f, file)
    ensures r.Ok? ==> exists layout :: Sound(f.crc, file, layout)
    ensures Saved(f, c) && file == Serialized(f.crc, ContainerOf(f, c)) ==> r == if Loadable(c) then Ok(c) else Err(CorruptIndex)
    ensures r.Ok? ==> Consistent(r.value)
  {
    hide CheckpointIn, ContainerIn, Sound, Saved, Serialized, Sorts, Consistent, EmptyLast, Holds, Loadable, Sectioned;
    ghost var good := Saved(f, c) && file == Serialized(f.crc, ContainerOf(f, c));
    if good {
      SavedHolds(f, c, file);
      SavedSections(f, c);
    }
    var parsed := Parse(f.crc, f.arrange, file, ContainerOf(f, c));
    if parsed.Err? {
      return Err(CorruptIndex);
    }
    ParsedIsSound(f.crc, f.arrange, file);
    FlagsIs(f, c);
    r := LoadSections(f, parsed.value.flags, parsed.value.sections, c);
  }

  lemma FlagsIs(f: Format, c: EmbeddedCheckpoint)
    ensures ContainerOf(f, c).flags == if EmbedSection(f, c).Some? then HAS_EMBEDDINGS else 0
  {
  }

  // ---------------------------------------------------------- checkpoints of the backend

  lemma BackendChunk(prep: Preparation, view: Catalog, dimension: nat, c: EmbeddedCheckpoint, d: nat, o: nat)
    requires Accepted(prep, view) && CheckpointOf(c, view) && Uniform(view.documents, dimension)
    requires d < |c.documents| && o < |c.documents[d].prepared.chunks|
    ensures var x := c.documents[d].prepared.chunks[o];
      x.ordinal == o && x.startLine <= x.endLine && |x.embedding| == dimension && (x.embedding == [] || Normalized(x.embedding))
  {
    hide Normalized;
    var e := c.documents[d];
    assert e in c.documents;
    var p := e.prepared;
    assert ValidDocument(prep, p, e.revision);
    assert ValidChunk(prep, p, o);
    assert ChunkOf(view.documents, p.key, p.chunks[o]);
  }

  /** Whatever the backend checkpoints, if it can be saved, is loaded back. */
  lemma BackendLoads(prep: Preparation, view: Catalog, dimension: nat, c: EmbeddedCheckpoint)
    requires Accepted(prep, view) && CheckpointOf(c, view) && Uniform(view.documents, dimension)
    ensures Loadable(c)
  {
    hide Accepted, CheckpointOf, Uniform, Normalized;
    var all := Everything(c);
    forall id | 0 <= id < |all|
      ensures var x := all[id].chunk;
        x.startLine <= x.endLine && |x.embedding| == dimension && (x.embedding == [] || Normalized(x.embedding))
    {
      var d, o := Locate(c.documents, |c.documents|, id);
      ChunkAt(c.documents, d, o);
      BackendChunk(prep, view, dimension, c, d, o);
    }
    forall d | 0 <= d < |c.documents|
      ensures OrdinalsOk(c.documents[d].prepared.chunks, |c.documents[d].prepared.chunks|)
    {
      forall o | 0 <= o < |c.documents[d].prepared.chunks|
        ensures c.documents[d].prepared.chunks[o].ordinal == o
      {
        BackendChunk(prep, view, dimension, c, d, o);
      }
    }
  }

  lemma ValidDimension(b: EmbeddedBackend)
    requires b.Valid()
    ensures Uniform(b.View().documents, b.active.value.dimension) && Accepted(b.prep, b.View())
  {
    hide Accepted, KeysAreUnique, StoredAs, Placed, LiveKeys;
  }

  /** The whole way: a backend is checkpointed, saved, loaded and restored into a new one that shows the same
      catalog. */
  method Reopen(b: EmbeddedBackend, f: Format, walPosition: nat) returns (r: Result<EmbeddedBackend>, ghost c: EmbeddedCheckpoint)
    requires b.Valid() && FormatOk(f)
    ensures CheckpointOf(c, b.View()) && c.walPosition == walPosition
    ensures Typed(f, c) && SaveOk(c) ==> r.Ok?
    ensures Typed(f, c) && r.Ok? ==> fresh(r.value) && r.value.Valid() && r.value.View() == b.View()
  {
    hide Typed, SaveOk, Buildable, Accepted, GenOk, CheckpointOf, Loadable, Serialized, ContainerOf, Uniform, Consistent;
    ValidDimension(b);
    var checkpoint := b.Checkpoint(walPosition);
    c := checkpoint;
    BackendLoads(b.prep, b.View(), b.active.value.dimension, c);
    var file := Save(f, checkpoint);
    if file.Err? {
      return Err(file.error), c;
    }
    var loaded := Load(f, file.value, checkpoint);
    if loaded.Err? {
      return Err(loaded.error), c;
    }
    var reopened := new EmbeddedBackend(b.prep, b.compactionBudget);
    var restored := reopened.RestoreCheckpoint(loaded.value, b.View());
    if restored.Err? {
      return Err(restored.error), c;
    }
    return Ok(reopened), c;
  }
}
