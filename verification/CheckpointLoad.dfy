/** `load`: reading a checkpoint back, section by section, filling the documents in place. */
module CheckpointLoad {
  import opened Wrappers
  import opened Collections
  import opened Documents
  import opened KeyLists
  import opened Bytes
  import opened Reading
  import opened Containers
  import opened Backend
  import opened CheckpointFormat

  /** A checkpoint that was saved. */
  ghost predicate Saved(f: Format, c: EmbeddedCheckpoint) { FormatOk(f) && Typed(f, c) && SaveOk(c) }

  lemma NextRow(rows: seq<Blob>, i: nat, tail: Blob)
    requires i < |rows|
    ensures Flat(rows[i..]) + tail == rows[i] + (Flat(rows[i + 1..]) + tail)
  {
    FlatStep(rows, i);
    Reassociate(rows[i], Flat(rows[i + 1..]), tail);
  }

  lemma LastRow(rows: seq<Blob>, tail: Blob)
    ensures Flat(rows[|rows|..]) + tail == tail && Flat(rows[0..]) == Flat(rows)
  {
    assert rows[|rows|..] == [] && rows[0..] == rows && [] + tail == tail;
  }

  lemma {:induction false} FlatSize(rows: seq<Blob>, size: nat)
    requires forall i :: 0 <= i < |rows| ==> |rows[i]| >= size
    ensures |Flat(rows)| >= size * |rows|
  {
    if rows != [] {
      FlatSize(rows[1..], size);
      assert size * |rows| == size + size * |rows[1..]|;
    }
  }

  // ----------------------------------------------------------------------- documents

  function Bare(p: PreparedDocument): PreparedDocument {
    PreparedDocument(p.key, p.title, p.content, p.metadata, "", "", "", [])
  }

  ghost predicate MetadataTo(m: Metadata, whole: Metadata, keys: seq<string>, n: nat)
    requires n <= |keys|
  {
    forall k :: (k in m <==> k in keys[..n]) && (k in m ==> k in whole && m[k] == whole[k])
  }

  lemma MetadataNext(m: Metadata, whole: Metadata, keys: seq<string>, n: nat)
    requires n < |keys| && Ordered(keys, whole.Keys) && MetadataTo(m, whole, keys, n)
    ensures keys[n] !in m && MetadataTo(m[keys[n] := whole[keys[n]]], whole, keys, n + 1)
  {
    assert keys[n] in keys;
    assert keys[..n + 1] == keys[..n] + [keys[n]];
  }

  lemma MetadataAll(m: Metadata, whole: Metadata, keys: seq<string>)
    requires Ordered(keys, whole.Keys) && MetadataTo(m, whole, keys, |keys|)
    ensures m == whole
  {
    assert keys[..|keys|] == keys;
  }

  ghost predicate Fields(f: Format, e: CheckpointEntry, revisions: map<DocKey, nat>) {
    TypedDocument(f, e.prepared) && DocumentSaveOk(e, revisions)
  }

  lemma MetadataField(f: Format, e: CheckpointEntry, revisions: map<DocKey, nat>, k: string)
    requires Fields(f, e, revisions) && k in e.prepared.metadata
    ensures var v := e.prepared.metadata[k]; ByteString(k) && Fits32(k) && ByteString(v) && Fits32(v)
  {
  }

  /** Pairs of strings, read into a map; no key twice. */
  function MetadataFrom(input: Blob, count: nat, m: Metadata): Result<(Metadata, Blob)>
    decreases count
  {
    if count == 0 then Ok((m, input))
    else
      match ReadStr(input)
      case Short => Err(CorruptIndex)
      case Got(k, r1) =>
        match ReadStr(r1)
        case Short => Err(CorruptIndex)
        case Got(v, r2) => if k in m then Err(CorruptIndex) else MetadataFrom(r2, count - 1, m[k := v])
  }

  /** The metadata of a document: `count` pairs, no key twice. */
  method ReadMetadata(input: Blob, count: nat, ghost f: Format, ghost e: CheckpointEntry, ghost revisions: map<DocKey, nat>, ghost tail: Blob)
    returns (r: Result<(Metadata, Blob)>)
    ensures var m := e.prepared.metadata;
      Fields(f, e, revisions) && count == |m| && input == Flat(MetadataRows(m, KeysOf(m.Keys))) + tail ==> r == Ok((m, tail))
    ensures r == MetadataFrom(input, count, map[])
  {
    hide Flat, Fields, PutStr, ReadStr, MetadataTo, ByteString;
    ghost var whole := e.prepared.metadata;
    ghost var keys := KeysOf(whole.Keys);
    ghost var rows := MetadataRows(whole, keys);
    ghost var good := Fields(f, e, revisions) && count == |whole| && input == Flat(rows) + tail;
    OrderedCount(keys, whole.Keys);
    var m: Metadata := map[];
    var rest := input;
    NoMetadata(whole, keys);
    LastRow(rows, tail);
    for i := 0 to count
      invariant good ==> MetadataTo(m, whole, keys, i) && rest == Flat(rows[i..]) + tail
      invariant MetadataFrom(input, count, map[]) == MetadataFrom(rest, count - i, m)
    {
      if good {
        assert keys[i] in keys;
        MetadataField(f, e, revisions, keys[i]);
        NextRow(rows, i, tail);
        ghost var after := Flat(rows[i + 1..]) + tail;
        Reassociate(PutStr(keys[i]), PutStr(whole[keys[i]]), after);
        ReadPutStr(keys[i], PutStr(whole[keys[i]]) + after);
        ReadPutStr(whole[keys[i]], after);
        MetadataNext(m, whole, keys, i);
      }
      var k := ReadStr(rest);
      if k.Short? {
        return Err(CorruptIndex);
      }
      var v := ReadStr(k.rest);
      if v.Short? || k.value in m {
        return Err(CorruptIndex);
      }
      m := m[k.value := v.value];
      rest := v.rest;
    }
    if good {
      MetadataAll(m, whole, keys);
    }
    return Ok((m, rest));
  }

  lemma NoMetadata(whole: Metadata, keys: seq<string>)
    ensures MetadataTo(map[], whole, keys, 0)
  {
  }

  datatype DocumentHead = DocumentHead(id: nat, key: string, title: string, content: string, count: nat)

  function ReadHead(input: Blob): Read<DocumentHead> {
    match ReadU(input, 4)
    case Short => Short
    case Got(id, r1) =>
      match ReadStr(r1)
      case Short => Short
      case Got(key, r2) =>
        match ReadStr(r2)
        case Short => Short
        case Got(title, r3) =>
          match ReadStr(r3)
          case Short => Short
          case Got(content, r4) =>
            match ReadU(r4, 4)
            case Short => Short
            case Got(count, r5) => Got(DocumentHead(id, key, title, content, count), r5)
  }

  lemma HeadBack(f: Format, i: nat, e: CheckpointEntry, revisions: map<DocKey, nat>, tail: Blob)
    requires Fields(f, e, revisions) && i < 0x1_0000_0000
    ensures var p := e.prepared;
      ReadHead(DocumentRow(i, p) + tail) ==
      Got(DocumentHead(i, p.key, p.title, p.content, |p.metadata|), Flat(MetadataRows(p.metadata, KeysOf(p.metadata.Keys))) + tail)
  {
    hide Flat, ByteString, ReadStr, PutStr;
    Widths();
    var p := e.prepared;
    var t5 := Flat(MetadataRows(p.metadata, KeysOf(p.metadata.Keys))) + tail;
    var t4 := Bytes.Put(|p.metadata|, 4) + t5;
    var t3 := PutStr(p.content) + t4;
    var t2 := PutStr(p.title) + t3;
    var t1 := PutStr(p.key) + t2;
    hide Bytes.Put;
    RowTail(Bytes.Put(i, 4), PutStr(p.key), PutStr(p.title), PutStr(p.content), Bytes.Put(|p.metadata|, 4),
            Flat(MetadataRows(p.metadata, KeysOf(p.metadata.Keys))), tail);
    ReadPut(i, 4, t1);
    ReadPutStr(p.key, t2);
    ReadPutStr(p.title, t3);
    ReadPutStr(p.content, t4);
    ReadPut(|p.metadata|, 4, t5);
  }

  lemma RowTail(a: Blob, b: Blob, c: Blob, d: Blob, e: Blob, g: Blob, tail: Blob)
    ensures (a + (b + (c + (d + (e + g))))) + tail == a + (b + (c + (d + (e + (g + tail)))))
  {
  }

  /** A document row that carries its index, and what follows it. */
  function DocumentFrom(index: nat, input: Blob): Result<(PreparedDocument, Blob)> {
    match ReadHead(input)
    case Short => Err(CorruptIndex)
    case Got(h, rest) =>
      if h.id != index || h.count > MAX_METADATA || h.count > |rest| / 8 then Err(CorruptIndex)
      else
        match MetadataFrom(rest, h.count, map[])
        case Err(e) => Err(CorruptIndex)
        case Ok(m) => Ok((PreparedDocument(h.key, h.title, h.content, m.0, "", "", "", []), m.1))
  }

  /** As many rows as announced, and nothing after them. */
  function DocumentsFrom(input: Blob, count: nat, docs: seq<PreparedDocument>): Result<seq<PreparedDocument>>
    decreases count
  {
    if count == 0 then (if input == [] then Ok(docs) else Err(CorruptIndex))
    else
      match DocumentFrom(|docs|, input)
      case Err(e) => Err(CorruptIndex)
      case Ok(d) => DocumentsFrom(d.1, count - 1, docs + [d.0])
  }

  function DocumentsOf(blob: Blob): Result<seq<PreparedDocument>> {
    match ReadU(blob, 4)
    case Short => Err(CorruptIndex)
    case Got(count, rest) => if count > MAX_DOCUMENTS then Err(CorruptIndex) else DocumentsFrom(rest, count, [])
  }

  /** One document row. */
  method ReadDocument(index: nat, input: Blob, ghost f: Format, ghost e: CheckpointEntry, ghost revisions: map<DocKey, nat>, ghost tail: Blob)
    returns (r: Result<(PreparedDocument, Blob)>)
    ensures Fields(f, e, revisions) && index < 0x1_0000_0000 && input == DocumentRow(index, e.prepared) + tail ==>
      r == Ok((Bare(e.prepared), tail))
    ensures r == DocumentFrom(index, input)
  {
    hide Flat, ReadHead, DocumentRow, MetadataFrom;
    ghost var p := e.prepared;
    ghost var good := Fields(f, e, revisions) && index < 0x1_0000_0000 && input == DocumentRow(index, p) + tail;
    if good {
      HeadBack(f, index, e, revisions, tail);
      MetadataSize(p.metadata, tail);
    }
    var head := ReadHead(input);
    if head.Short? || head.value.id != index {
      return Err(CorruptIndex);
    }
    var h := head.value;
    if h.count > MAX_METADATA || h.count > |head.rest| / 8 {
      return Err(CorruptIndex);
    }
    var m := ReadMetadata(head.rest, h.count, f, e, revisions, tail);
    if m.Err? {
      return Err(CorruptIndex);
    }
    return Ok((PreparedDocument(h.key, h.title, h.content, m.value.0, "", "", "", []), m.value.1));
  }

  lemma MetadataSize(m: Metadata, tail: Blob)
    ensures |m| <= |Flat(MetadataRows(m, KeysOf(m.Keys))) + tail| / 8
  {
    var rows := MetadataRows(m, KeysOf(m.Keys));
    OrderedCount(KeysOf(m.Keys), m.Keys);
    FlatSize(rows, 8);
    hide Flat;
  }

  /** The rows of the section from document `i` on. */
  ghost function RowsFrom(c: EmbeddedCheckpoint, i: nat): Blob
    requires i <= |c.documents|
  {
    Flat(DocumentRows(c.documents)[i..]) + []
  }

  lemma DocumentsBegin(f: Format, c: EmbeddedCheckpoint)
    requires Saved(f, c)
    ensures ReadU(DocsBlob(c), 4) == Got(|c.documents|, RowsFrom(c, 0)) && |c.documents| <= MAX_DOCUMENTS
    ensures RowsFrom(c, |c.documents|) == []
  {
    hide Flat, Saved, DocumentRow;
    var rows := DocumentRows(c.documents);
    CountFits(f, c);
    ReadPut(|c.documents|, 4, Flat(rows));
    LastRow(rows, []);
    NoTail(Flat(rows));
  }

  lemma DocumentAt(f: Format, c: EmbeddedCheckpoint, i: nat)
    requires Saved(f, c) && i < |c.documents|
    ensures Fields(f, c.documents[i], c.revisions) && i < 0x1_0000_0000
    ensures RowsFrom(c, i) == DocumentRow(i, c.documents[i].prepared) + RowsFrom(c, i + 1)
  {
    hide Flat, Saved, DocumentRow, Fields;
    SavedFields(f, c, i);
    NextRow(DocumentRows(c.documents), i, []);
  }

  /** The documents section, without revisions, hashes and chunks. */
  method ReadDocuments(blob: Blob, ghost f: Format, ghost c: EmbeddedCheckpoint) returns (r: Result<seq<PreparedDocument>>)
    ensures Saved(f, c) && blob == DocsBlob(c) ==> r.Ok? && |r.value| == |c.documents| && forall i :: 0 <= i < |c.documents| ==> r.value[i] == Bare(c.documents[i].prepared)
    ensures r == DocumentsOf(blob)
  {
    hide RowsFrom, DocumentRow, DocsBlob, ReadU, Fields, Saved, Bare, DocumentFrom;
    ghost var good := Saved(f, c) && blob == DocsBlob(c);
    if good {
      DocumentsBegin(f, c);
    }
    var count := ReadU(blob, 4);
    if count.Short? || count.value > MAX_DOCUMENTS {
      return Err(CorruptIndex);
    }
    var documents: seq<PreparedDocument> := [];
    var rest := count.rest;
    for i := 0 to count.value
      invariant |documents| == i
      invariant good ==> i <= |c.documents| && rest == RowsFrom(c, i)
      invariant DocumentsOf(blob) == DocumentsFrom(rest, count.value - i, documents)
      invariant good ==> forall j :: 0 <= j < i ==> documents[j] == Bare(c.documents[j].prepared)
    {
      ghost var e := if good then c.documents[i] else CheckpointEntry(PreparedDocument("", "", "", map[], "", "", "", []), 0);
      ghost var tail := if good then RowsFrom(c, i + 1) else [];
      if good {
        DocumentAt(f, c, i);
      }
      var document := ReadDocument(i, rest, f, e, c.revisions, tail);
      if document.Err? {
        return Err(CorruptIndex);
      }
      documents := documents + [document.value.0];
      rest := document.value.1;
    }
    if rest != [] {
      return Err(CorruptIndex);
    }
    return Ok(documents);
  }

  lemma NoTail(b: Blob)
    ensures b + [] == b
  {
  }

  lemma CountFits(f: Format, c: EmbeddedCheckpoint)
    requires Saved(f, c)
    ensures |c.documents| <= MAX_DOCUMENTS && |c.documents| < Pow256(4) && |c.revisions| <= MAX_DOCUMENTS
  {
    Widths();
    hide Typed, DocumentsSaveOk;
  }

  lemma SavedFields(f: Format, c: EmbeddedCheckpoint, i: nat)
    requires Saved(f, c) && i < |c.documents|
    ensures Fields(f, c.documents[i], c.revisions) && i < MAX_DOCUMENTS && c.documents[i].revision < 0x1_0000_0000_0000_0000
  {
    hide TypedDocument, DocumentSaveOk, ChunksSaveOk, ContainerOf, OffsetOf;
  }
}
