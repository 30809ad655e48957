/** Reading the chunk and embedding sections into the documents they belong to. */
module CheckpointChunks {
  import opened Wrappers
  import opened Collections
  import opened Documents
  import opened Bytes
  import opened Reading
  import opened Dense
  import opened Backend
  import opened CheckpointFormat
  import opened CheckpointLoad

  datatype Location = Location(document: nat, ordinal: nat)

  function Base(docs: seq<CheckpointEntry>, d: nat): nat
    requires d <= |docs|
  {
    |AllChunks(docs, d)|
  }

  lemma {:induction false} BaseGrows(docs: seq<CheckpointEntry>, d: nat, x: nat)
    requires d < x <= |docs|
    ensures Base(docs, d) + |docs[d].prepared.chunks| <= Base(docs, x)
  {
    AllChunksNext(docs, x - 1);
    if d < x - 1 {
      BaseGrows(docs, d, x - 1);
    }
  }

  /** The document and place of the id-th chunk. */
  lemma {:induction false} Locate(docs: seq<CheckpointEntry>, n: nat, id: nat) returns (d: nat, o: nat)
    requires n <= |docs| && id < Base(docs, n)
    ensures d < n && o < |docs[d].prepared.chunks| && id == Base(docs, d) + o
  {
    AllChunksNext(docs, n - 1);
    if id < Base(docs, n - 1) {
      d, o := Locate(docs, n - 1, id);
    } else {
      d, o := n - 1, id - Base(docs, n - 1);
    }
  }

  /** How many chunks of document x are among the first `id` of all. */
  function Taken(docs: seq<CheckpointEntry>, x: nat, id: nat): (n: nat)
    requires x < |docs|
    ensures n <= |docs[x].prepared.chunks|
  {
    var base, size := Base(docs, x), |docs[x].prepared.chunks|;
    if id <= base then 0 else if id - base < size then id - base else size
  }

  lemma TakenNext(docs: seq<CheckpointEntry>, d: nat, o: nat, id: nat)
    requires d < |docs| && o < |docs[d].prepared.chunks| && id == Base(docs, d) + o
    ensures Taken(docs, d, id) == o && Taken(docs, d, id + 1) == o + 1
    ensures forall x :: 0 <= x < |docs| && x != d ==> Taken(docs, x, id + 1) == Taken(docs, x, id)
  {
    forall x | 0 <= x < |docs| && x != d
      ensures Taken(docs, x, id + 1) == Taken(docs, x, id)
    {
      if x < d {
        BaseGrows(docs, x, d);
      } else {
        BaseGrows(docs, d, x);
      }
    }
  }

  lemma TakenEnds(docs: seq<CheckpointEntry>, x: nat)
    requires x < |docs|
    ensures Taken(docs, x, 0) == 0 && Taken(docs, x, Base(docs, |docs|)) == |docs[x].prepared.chunks|
  {
    BaseGrows(docs, x, |docs|);
  }

  // ------------------------------------------------------------------------- chunk rows

  function BareChunk(c: PreparedChunk): PreparedChunk {
    PreparedChunk("", 0, c.text, "", c.context, c.startLine, c.endLine, [])
  }

  function BareChunks(chunks: seq<PreparedChunk>): (r: seq<PreparedChunk>)
    ensures |r| == |chunks| && forall i :: 0 <= i < |chunks| ==> r[i] == BareChunk(chunks[i])
  {
    seq(|chunks|, i requires 0 <= i < |chunks| => BareChunk(chunks[i]))
  }

  /** A document whose first n chunks have been read. */
  function Partial(p: PreparedDocument, n: nat): PreparedDocument
    requires n <= |p.chunks|
  {
    Bare(p).(chunks := BareChunks(p.chunks[..n]))
  }

  lemma PartialNext(p: PreparedDocument, n: nat)
    requires n < |p.chunks|
    ensures Partial(p, n + 1) == Partial(p, n).(chunks := Partial(p, n).chunks + [BareChunk(p.chunks[n])])
    ensures |Partial(p, n).chunks| == n
  {
  }

  ghost predicate Filled(docs: seq<PreparedDocument>, from: seq<CheckpointEntry>, id: nat) {
    |docs| == |from| && forall x :: 0 <= x < |from| ==> docs[x] == Partial(from[x].prepared, Taken(from, x, id))
  }

  lemma FilledNext(docs: seq<PreparedDocument>, from: seq<CheckpointEntry>, d: nat, o: nat, id: nat)
    requires Filled(docs, from, id) && d < |from| && o < |from[d].prepared.chunks| && id == Base(from, d) + o
    ensures |docs[d].chunks| == o
    ensures Filled(docs[d := docs[d].(chunks := docs[d].chunks + [BareChunk(from[d].prepared.chunks[o])])], from, id + 1)
  {
    hide Partial, Taken;
    TakenNext(from, d, o, id);
    PartialNext(from[d].prepared, o);
  }

  lemma FilledStart(docs: seq<PreparedDocument>, from: seq<CheckpointEntry>)
    requires |docs| == |from| && forall i :: 0 <= i < |from| ==> docs[i] == Bare(from[i].prepared)
    ensures Filled(docs, from, 0)
  {
    forall x | 0 <= x < |from|
      ensures docs[x] == Partial(from[x].prepared, Taken(from, x, 0))
    {
      TakenEnds(from, x);
    }
  }

  datatype ChunkFields = ChunkFields(id: nat, document: nat)

  datatype ChunkBody = ChunkBody(text: string, context: string, startLine: nat, endLine: nat)

  function ReadIdentity(input: Blob): Read<ChunkFields> {
    match ReadU(input, 4)
    case Short => Short
    case Got(id, r1) =>
      match ReadU(r1, 4)
      case Short => Short
      case Got(document, r2) => Got(ChunkFields(id, document), r2)
  }

  function ReadBody(input: Blob): Read<ChunkBody> {
    match ReadStr(input)
    case Short => Short
    case Got(text, r1) =>
      match ReadStr(r1)
      case Short => Short
      case Got(context, r2) =>
        match ReadU(r2, 4)
        case Short => Short
        case Got(startLine, r3) =>
          match ReadU(r3, 4)
          case Short => Short
          case Got(endLine, r4) => Got(ChunkBody(text, context, startLine, endLine), r4)
  }

  /** The part of a chunk row after its identity. */
  function BodyRow(c: PreparedChunk): Blob {
    PutStr(c.text) + (PutStr(c.context) + (Bytes.Put(c.startLine, 4) + Bytes.Put(c.endLine, 4)))
  }

  lemma IdentityBack(id: nat, l: Located, tail: Blob)
    requires id < 0x1_0000_0000 && l.document < 0x1_0000_0000
    ensures ReadIdentity(ChunkRow(id, l) + tail) == Got(ChunkFields(id, l.document), BodyRow(l.chunk) + tail)
  {
    Widths();
    hide Bytes.Put, PutStr;
    var t := Bytes.Put(l.document, 4) + (BodyRow(l.chunk) + tail);
    assert ChunkRow(id, l) + tail == Bytes.Put(id, 4) + t;
    ReadPut(id, 4, t);
    ReadPut(l.document, 4, BodyRow(l.chunk) + tail);
  }

  lemma BodyBack(f: Format, c: PreparedChunk, tail: Blob)
    requires TypedChunk(f, c) && ChunkSaveOk(c)
    ensures ReadBody(BodyRow(c) + tail) == Got(ChunkBody(c.text, c.context, c.startLine, c.endLine), tail)
  {
    Widths();
    hide Bytes.Put, PutStr, ByteString, ReadStr;
    var t3 := Bytes.Put(c.endLine, 4) + tail;
    var t2 := Bytes.Put(c.startLine, 4) + t3;
    var t1 := PutStr(c.context) + t2;
    assert BodyRow(c) + tail == PutStr(c.text) + t1;
    ReadPutStr(c.text, t1);
    ReadPutStr(c.context, t2);
    ReadPut(c.startLine, 4, t3);
    ReadPut(c.endLine, 4, tail);
  }

  ghost predicate LinesOk(all: seq<Located>, n: nat)
    requires n <= |all|
  {
    forall i :: 0 <= i < n ==> all[i].chunk.startLine <= all[i].chunk.endLine
  }

  lemma SavedChunk(f: Format, c: EmbeddedCheckpoint, id: nat) returns (d: nat, o: nat)
    requires Saved(f, c) && id < |Everything(c)|
    ensures d < |c.documents| && o < |c.documents[d].prepared.chunks| && id == Base(c.documents, d) + o
    ensures Everything(c)[id] == Located(d, c.documents[d].prepared.chunks[o])
    ensures TypedChunk(f, Everything(c)[id].chunk) && ChunkSaveOk(Everything(c)[id].chunk)
    ensures d < MAX_DOCUMENTS && id < MAX_FILE_CHUNKS
  {
    hide Saved, AllChunks, TypedChunk, ChunkSaveOk, Fields;
    d, o := Locate(c.documents, |c.documents|, id);
    ChunkAt(c.documents, d, o);
    SavedFields(f, c, d);
    FieldsChunk(f, c.documents[d], c.revisions, o);
    SavedSaveOk(f, c, id);
  }

  lemma FieldsChunk(f: Format, e: CheckpointEntry, revisions: map<DocKey, nat>, o: nat)
    requires Fields(f, e, revisions) && o < |e.prepared.chunks|
    ensures TypedChunk(f, e.prepared.chunks[o])
  {
    hide TypedChunk, DocumentSaveOk;
  }

  lemma SavedSaveOk(f: Format, c: EmbeddedCheckpoint, id: nat)
    requires Saved(f, c) && id < |Everything(c)|
    ensures ChunkSaveOk(Everything(c)[id].chunk) && id < MAX_FILE_CHUNKS
  {
    hide Typed, FormatOk, AllChunks, ChunkSaveOk, DocumentSaveOk;
  }

  lemma ChunkCountFits(f: Format, c: EmbeddedCheckpoint)
    requires Saved(f, c)
    ensures |Everything(c)| <= MAX_FILE_CHUNKS && |Everything(c)| < Pow256(4) && |Everything(c)| == Base(c.documents, |c.documents|)
  {
    Widths();
    hide Typed, DocumentSaveOk, AllChunks;
  }

  /** Where each chunk went. */
  ghost predicate Places(locations: seq<Location>, from: seq<CheckpointEntry>) {
    forall i :: 0 <= i < |locations| ==>
      locations[i].document < |from| && locations[i].ordinal < |from[locations[i].document].prepared.chunks| &&
      i == Base(from, locations[i].document) + locations[i].ordinal
  }

  /** Every location names a chunk that is there. */
  predicate InRange(locations: seq<Location>, documents: seq<PreparedDocument>) {
    forall i :: 0 <= i < |locations| ==> PlaceHeld(locations[i], documents)
  }

  predicate PlaceHeld(l: Location, documents: seq<PreparedDocument>) {
    l.document < |documents| && l.ordinal < |documents[l.document].chunks|
  }

  datatype ChunkState = ChunkState(documents: seq<PreparedDocument>, locations: seq<Location>)

  /** The documents as the documents section left them. */
  ghost predicate BareOf(f: Format, c: EmbeddedCheckpoint, bare: seq<PreparedDocument>) {
    Saved(f, c) && |bare| == |c.documents| && forall i :: 0 <= i < |c.documents| ==> bare[i] == Bare(c.documents[i].prepared)
  }

  /** Chunk rows from `id` on, appended to the documents they name; nothing may follow them. */
  function ChunksFrom(input: Blob, id: nat, count: nat, documents: seq<PreparedDocument>, locations: seq<Location>)
    : Result<ChunkState>
    decreases count
  {
    if count == 0 then (if input == [] then Ok(ChunkState(documents, locations)) else Err(CorruptIndex))
    else
      match ReadIdentity(input)
      case Short => Err(CorruptIndex)
      case Got(identity, r1) =>
        if identity.id != id || identity.document >= |documents| then Err(CorruptIndex)
        else
          match ReadBody(r1)
          case Short => Err(CorruptIndex)
          case Got(b, r2) =>
            if b.startLine > b.endLine then Err(CorruptIndex)
            else
              var at := identity.document;
              var chunk := PreparedChunk("", 0, b.text, "", b.context, b.startLine, b.endLine, []);
              ChunksFrom(r2, id + 1, count - 1,
                         documents[at := documents[at].(chunks := documents[at].chunks + [chunk])],
                         locations + [Location(at, |documents[at].chunks|)])
  }

  function ChunksOf(blob: Blob, bare: seq<PreparedDocument>): Result<ChunkState> {
    match ReadU(blob, 4)
    case Short => Err(CorruptIndex)
    case Got(count, rest) => if count > MAX_FILE_CHUNKS then Err(CorruptIndex) else ChunksFrom(rest, 0, count, bare, [])
  }

  /** The chunks section: rows are appended to the documents they name. Accepted when every line range is
      in order. */
  method ReadChunks(blob: Blob, bare: seq<PreparedDocument>, ghost f: Format, ghost c: EmbeddedCheckpoint) returns (r: Result<ChunkState>)
    ensures BareOf(f, c, bare) && blob == ChunksBlob(c) ==> (r.Ok? <==> LinesOk(Everything(c), |Everything(c)|))
    ensures BareOf(f, c, bare) && blob == ChunksBlob(c) && r.Ok? ==> Ready(f, c, r.value.documents, r.value.locations)
    ensures r.Ok? ==> |r.value.documents| == |bare|
    ensures r.Ok? ==> InRange(r.value.locations, r.value.documents)
    ensures r == ChunksOf(blob, bare)
  {
    hide Flat, ChunkRow, Saved, Everything, ReadIdentity, ReadBody, Filled, BodyRow, Places, Base;
    ghost var all := Everything(c);
    ghost var rows := ChunkRows(all);
    ghost var good := BareOf(f, c, bare) && blob == ChunksBlob(c);
    if good {
      ChunkCountFits(f, c);
      ReadPut(|all|, 4, Flat(rows));
      LastRow(rows, []);
      NoTail(Flat(rows));
      FilledStart(bare, c.documents);
    }
    NoPlaces(c.documents);
    var count := ReadU(blob, 4);
    if count.Short? || count.value > MAX_FILE_CHUNKS {
      return Err(CorruptIndex);
    }
    var documents, locations: seq<Location> := bare, [];
    var rest := count.rest;
    for id := 0 to count.value
      invariant |documents| == |bare| && |locations| == id
      invariant ChunksOf(blob, bare) == ChunksFrom(rest, id, count.value - id, documents, locations)
      invariant InRange(locations, documents)
      invariant good ==> id <= |all| && rest == Flat(rows[id..]) + [] && LinesOk(all, id)
      invariant good ==> Filled(documents, c.documents, id) && Places(locations, c.documents)
    {
      ghost var d, o := 0, 0;
      if good {
        d, o := SavedChunk(f, c, id);
        NextRow(rows, id, []);
        IdentityBack(id, all[id], Flat(rows[id + 1..]) + []);
        BodyBack(f, all[id].chunk, Flat(rows[id + 1..]) + []);
        FilledNext(documents, c.documents, d, o, id);
        PlacesNext(locations, c.documents, d, o);
      }
      var identity := ReadIdentity(rest);
      if identity.Short? || identity.value.id != id || identity.value.document >= |documents| {
        FilledLength(documents, c.documents, id);
        return Err(CorruptIndex);
      }
      var at := identity.value.document;
      var ordinal := |documents[at].chunks|;
      var body := ReadBody(identity.rest);
      if body.Short? || body.value.startLine > body.value.endLine {
        return Err(CorruptIndex);
      }
      var b := body.value;
      var chunk := PreparedChunk("", 0, b.text, "", b.context, b.startLine, b.endLine, []);
      documents := documents[at := documents[at].(chunks := documents[at].chunks + [chunk])];
      locations := locations + [Location(at, ordinal)];
      rest := body.rest;
    }
    if rest != [] {
      return Err(CorruptIndex);
    }
    return Ok(ChunkState(documents, locations));
  }

  lemma FilledLength(docs: seq<PreparedDocument>, from: seq<CheckpointEntry>, id: nat)
    ensures Filled(docs, from, id) ==> |docs| == |from|
  {
  }

  lemma NoPlaces(from: seq<CheckpointEntry>)
    ensures Places([], from)
  {
  }

  lemma PlacesNext(locations: seq<Location>, from: seq<CheckpointEntry>, d: nat, o: nat)
    requires Places(locations, from) && d < |from| && o < |from[d].prepared.chunks| && |locations| == Base(from, d) + o
    ensures Places(locations + [Location(d, o)], from)
  {
    hide Base;
  }

  // ------------------------------------------------------------------------- embeddings

  /** The chunks as read, the first n with their embeddings. */
  function VectorChunks(chunks: seq<PreparedChunk>, n: nat): (r: seq<PreparedChunk>)
    ensures |r| == |chunks|
    ensures forall i :: 0 <= i < |chunks| ==> r[i] == BareChunk(chunks[i]).(embedding := if i < n then chunks[i].embedding else [])
  {
    seq(|chunks|, i requires 0 <= i < |chunks| => BareChunk(chunks[i]).(embedding := if i < n then chunks[i].embedding else []))
  }

  function WithVectors(p: PreparedDocument, n: nat): PreparedDocument { Bare(p).(chunks := VectorChunks(p.chunks, n)) }

  ghost predicate Embedded(docs: seq<PreparedDocument>, from: seq<CheckpointEntry>, id: nat) {
    |docs| == |from| && forall x :: 0 <= x < |from| ==> docs[x] == WithVectors(from[x].prepared, Taken(from, x, id))
  }

  lemma EmbeddedStart(docs: seq<PreparedDocument>, from: seq<CheckpointEntry>)
    requires Filled(docs, from, Base(from, |from|))
    ensures Embedded(docs, from, 0)
  {
    hide Taken, Base;
    forall x | 0 <= x < |from|
      ensures docs[x] == WithVectors(from[x].prepared, Taken(from, x, 0))
    {
      TakenEnds(from, x);
      var p := from[x].prepared;
      assert p.chunks[..|p.chunks|] == p.chunks;
      assert BareChunks(p.chunks) == VectorChunks(p.chunks, 0);
    }
  }

  lemma VectorNext(p: PreparedDocument, o: nat)
    requires o < |p.chunks|
    ensures var at := WithVectors(p, o);
      WithVectors(p, o + 1) == at.(chunks := at.chunks[o := at.chunks[o].(embedding := p.chunks[o].embedding)])
  {
  }

  lemma EmbeddedNext(docs: seq<PreparedDocument>, from: seq<CheckpointEntry>, d: nat, o: nat, id: nat)
    requires Embedded(docs, from, id) && d < |from| && o < |from[d].prepared.chunks| && id == Base(from, d) + o
    ensures |docs[d].chunks| == |from[d].prepared.chunks|
    ensures var doc := docs[d];
      Embedded(docs[d := doc.(chunks := doc.chunks[o := doc.chunks[o].(embedding := from[d].prepared.chunks[o].embedding)])], from, id + 1)
  {
    hide Taken, Base;
    TakenNext(from, d, o, id);
    VectorNext(from[d].prepared, o);
  }

  lemma {:induction false} FlatExact(rows: seq<Blob>, size: nat)
    requires forall i :: 0 <= i < |rows| ==> |rows[i]| == size
    ensures |Flat(rows)| == size * |rows|
  {
    if rows != [] {
      FlatExact(rows[1..], size);
      assert size * |rows| == size + size * |rows[1..]|;
    }
  }

  function FloatsOf(f: Format, bytes: Blob, n: nat): (v: Vector)
    requires |bytes| == 4 * n
    ensures |v| == n
  {
    if n == 0 then [] else [f.value(Take(bytes[..4]))] + FloatsOf(f, bytes[4..], n - 1)
  }

  /** The floats of one row. */
  method ReadVector(f: Format, bytes: Blob, n: nat, ghost v: Vector) returns (vector: Vector)
    requires |bytes| == 4 * n
    ensures |vector| == n
    ensures Floats(f, v) && n == |v| && bytes == Flat(FloatRows(f, v)) ==> vector == v
    ensures vector == FloatsOf(f, bytes, n)
  {
    hide Flat, Floats;
    ghost var rows := FloatRows(f, v);
    ghost var good := Floats(f, v) && n == |v| && bytes == Flat(rows);
    vector := [];
    var rest := bytes;
    LastRow(rows, []);
    NoTail(bytes);
    for i := 0 to n
      invariant |vector| == i && |rest| == 4 * (n - i) && vector + FloatsOf(f, rest, n - i) == FloatsOf(f, bytes, n)
      invariant good ==> rest == Flat(rows[i..]) + [] && vector == v[..i]
    {
      if good {
        NextRow(rows, i, []);
        FloatFits(f, v, i);
        ReadPut(f.bits(v[i]), 4, Flat(rows[i + 1..]) + []);
        assert v[..i + 1] == v[..i] + [v[i]];
      }
      var bits := ReadU(rest, 4);
      vector := vector + [f.value(bits.value)];
      rest := bits.rest;
    }
    assert v[..|v|] == v;
  }

  ghost predicate Floats(f: Format, v: Vector) {
    forall i :: 0 <= i < |v| ==> f.bits(v[i]) < 0x1_0000_0000 && f.value(f.bits(v[i])) == v[i]
  }

  lemma FloatFits(f: Format, v: Vector, i: nat)
    requires Floats(f, v) && i < |v|
    ensures f.bits(v[i]) < Pow256(4) && f.value(f.bits(v[i])) == v[i]
  {
    Widths();
  }

  /** Once a row is not empty, all rows after it have its dimension. */
  ghost predicate DimensionsOk(all: seq<Located>, n: nat)
    requires n <= |all|
  {
    forall i, j :: 0 <= i < j < n && all[i].chunk.embedding != [] ==> |all[j].chunk.embedding| == |all[i].chunk.embedding|
  }

  ghost predicate NormsOk(all: seq<Located>, n: nat)
    requires n <= |all|
  {
    forall i :: 0 <= i < n ==> all[i].chunk.embedding == [] || Normalized(all[i].chunk.embedding)
  }

  /** The dimension noted so far is that of every row that is not empty. */
  ghost predicate DimensionIs(all: seq<Located>, n: nat, dimension: nat)
    requires n <= |all|
  {
    (forall i :: 0 <= i < n ==> |all[i].chunk.embedding| == 0 || |all[i].chunk.embedding| == dimension) &&
    (dimension != 0 ==> exists i :: 0 <= i < n && |all[i].chunk.embedding| == dimension)
  }

  lemma DimensionNext(all: seq<Located>, n: nat, dimension: nat)
    requires n < |all| && DimensionsOk(all, n) && DimensionIs(all, n, dimension)
    ensures var m := |all[n].chunk.embedding|;
      if dimension != 0 && m != dimension then !DimensionsOk(all, |all|)
      else DimensionsOk(all, n + 1) && DimensionIs(all, n + 1, if m != 0 then m else dimension)
  {
    var m := |all[n].chunk.embedding|;
    if dimension != 0 {
      var i :| 0 <= i < n && |all[i].chunk.embedding| == dimension;
    } else if m != 0 {
      assert |all[n].chunk.embedding| == m;
    }
  }

  ghost predicate VectorsOk(all: seq<Located>) { DimensionsOk(all, |all|) && NormsOk(all, |all|) }

  lemma RowSize(f: Format, v: Vector)
    ensures |Flat(FloatRows(f, v))| == 4 * |v|
  {
    FlatExact(FloatRows(f, v), 4);
  }

  lemma EmbeddingBack(f: Format, v: Vector, tail: Blob)
    requires |v| <= MAX_DIMENSION
    ensures var body := Flat(FloatRows(f, v));
      ReadU(EmbeddingRow(f, v) + tail, 4) == Got(|v|, body + tail) && ReadBytes(body + tail, 4 * |v|) == Got(body, tail) &&
      |v| <= |body + tail| / 4
  {
    Widths();
    hide Flat, Bytes.Put;
    RowSize(f, v);
    var body := Flat(FloatRows(f, v));
    Reassociate(Bytes.Put(|v|, 4), body, tail);
    ReadPut(|v|, 4, body + tail);
    ReadPutBytes(body, tail);
  }

  lemma ChunkFloats(f: Format, c: PreparedChunk)
    requires TypedChunk(f, c) && ChunkSaveOk(c)
    ensures Floats(f, c.embedding) && |c.embedding| <= MAX_DIMENSION
  {
  }

  /** Embedding rows from `id` on, one for every location; nothing may follow them. */
  function EmbeddingsFrom(f: Format, input: Blob, locations: seq<Location>, id: nat, dimension: nat, documents: seq<PreparedDocument>)
    : Result<seq<PreparedDocument>>
    decreases |locations| - id
  {
    if id >= |locations| then (if input == [] then Ok(documents) else Err(CorruptIndex))
    else if !PlaceHeld(locations[id], documents) then Err(CorruptIndex)
    else
      match ReadU(input, 4)
      case Short => Err(CorruptIndex)
      case Got(size, r1) =>
        if size > MAX_DIMENSION || (dimension != 0 && size != dimension) || size > |r1| / 4 then Err(CorruptIndex)
        else
          match ReadBytes(r1, 4 * size)
          case Short => Err(CorruptIndex)
          case Got(bytes, r2) =>
            var v := FloatsOf(f, bytes, size);
            if v != [] && !Normalized(v) then Err(CorruptIndex)
            else EmbeddingsFrom(f, r2, locations, id + 1, if size != 0 then size else dimension,
                                SetVector(documents, locations[id].document, locations[id].ordinal, v))
  }

  /** The embeddings section, one row per chunk. Accepted when the dimensions agree and every vector is
      normalised. */
  method ReadEmbeddings(f: Format, blob: Blob, filled: seq<PreparedDocument>, locations: seq<Location>, ghost c: EmbeddedCheckpoint)
    returns (r: Result<seq<PreparedDocument>>)
    requires InRange(locations, filled)
    ensures Ready(f, c, filled, locations) && blob == EmbeddingsBlob(f, c) ==> (r.Ok? <==> VectorsOk(Everything(c)))
    ensures Ready(f, c, filled, locations) && blob == EmbeddingsBlob(f, c) && r.Ok? ==> Embedded(r.value, c.documents, |Everything(c)|)
    ensures r.Ok? ==> SameSizes(filled, r.value)
    ensures r == EmbeddingsFrom(f, blob, locations, 0, 0, filled)
  {
    hide FloatsOf, Flat, EmbeddingRow, Everything, Embedded, Places, Filled, Saved, Normalized, DimensionIs, DimensionsOk, TypedChunk, ChunkSaveOk, Base, Floats;
    ghost var all := Everything(c);
    ghost var rows := EmbeddingRows(f, all);
    ghost var good := Ready(f, c, filled, locations) && blob == EmbeddingsBlob(f, c);
    if good {
      LastRow(rows, []);
      NoTail(blob);
      ChunkCountFits(f, c);
      EmbeddedStart(filled, c.documents);
      NoDimension(all);
    }
    var documents, dimension, rest := filled, 0, blob;
    for id := 0 to |locations|
      invariant InRange(locations, documents) && SameSizes(filled, documents)
      invariant EmbeddingsFrom(f, blob, locations, 0, 0, filled) == EmbeddingsFrom(f, rest, locations, id, dimension, documents)
      invariant good ==> rest == Flat(rows[id..]) + [] && Embedded(documents, c.documents, id)
      invariant good ==> DimensionsOk(all, id) && DimensionIs(all, id, dimension) && NormsOk(all, id)
    {
      var at, ordinal := locations[id].document, locations[id].ordinal;
      ghost var v: Vector := [];
      ghost var tail: Blob := [];
      if good {
        var d, o := SavedChunk(f, c, id);
        v, tail := all[id].chunk.embedding, Flat(rows[id + 1..]) + [];
        ChunkFloats(f, all[id].chunk);
        NextRow(rows, id, []);
        EmbeddingBack(f, v, tail);
        DimensionNext(all, id, dimension);
        PlaceIs(locations, c.documents, id, d, o);
        EmbeddedNext(documents, c.documents, d, o, id);
      }
      var size := ReadU(rest, 4);
      if size.Short? || size.value > MAX_DIMENSION || (dimension != 0 && size.value != dimension) {
        return Err(CorruptIndex);
      }
      if size.value != 0 {
        dimension := size.value;
      }
      if size.value > |size.rest| / 4 {
        return Err(CorruptIndex);
      }
      var bytes := ReadBytes(size.rest, 4 * size.value);
      if bytes.Short? {
        return Err(CorruptIndex);
      }
      var vector := ReadVector(f, bytes.value, size.value, v);
      if vector != [] && !Normalized(vector) {
        return Err(CorruptIndex);
      }
      documents := SetVector(documents, at, ordinal, vector);
      rest := bytes.rest;
    }
    if rest != [] {
      return Err(CorruptIndex);
    }
    return Ok(documents);
  }

  function SetVector(docs: seq<PreparedDocument>, d: nat, o: nat, v: Vector): (r: seq<PreparedDocument>)
    requires d < |docs| && o < |docs[d].chunks|
    ensures |r| == |docs| && forall x :: 0 <= x < |docs| ==> |r[x].chunks| == |docs[x].chunks|
  {
    docs[d := docs[d].(chunks := docs[d].chunks[o := docs[d].chunks[o].(embedding := v)])]
  }

  ghost predicate SameSizes(a: seq<PreparedDocument>, b: seq<PreparedDocument>) {
    |a| == |b| && forall x :: 0 <= x < |a| ==> |a[x].chunks| == |b[x].chunks|
  }

  /** The documents and locations the chunk section left. */
  ghost predicate Ready(f: Format, c: EmbeddedCheckpoint, filled: seq<PreparedDocument>, locations: seq<Location>) {
    Saved(f, c) && |locations| == |Everything(c)| && Places(locations, c.documents) && Filled(filled, c.documents, |Everything(c)|)
  }

  lemma NoDimension(all: seq<Located>)
    ensures DimensionsOk(all, 0) && DimensionIs(all, 0, 0)
  {
  }

  lemma PlaceIs(locations: seq<Location>, from: seq<CheckpointEntry>, id: nat, d: nat, o: nat)
    requires Places(locations, from) && id < |locations| && d < |from| && o < |from[d].prepared.chunks| && id == Base(from, d) + o
    ensures locations[id] == Location(d, o)
  {
    hide Base;
    var at := locations[id];
    if at.document < d {
      BaseGrows(from, at.document, d);
    } else if d < at.document {
      BaseGrows(from, d, at.document);
    }
  }
}
