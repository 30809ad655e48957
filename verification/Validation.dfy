/** What the embedded backend demands of a prepared document before it looks at revisions. */
module Validation {
  import opened Wrappers
  import opened Documents
  import opened Dense

  /** The content and key hashes and the text normalisation used in preparing documents. */
  datatype Preparation = Preparation(
    normalize: string -> string,
    contentHash: (string, string, Metadata) -> string,
    chunkKey: (DocKey, nat, nat, string) -> string)

  predicate ValidChunk(prep: Preparation, p: PreparedDocument, i: nat)
    requires i < |p.chunks|
  {
    var c := p.chunks[i];
    c.key != "" && c.ordinal == i && c.startLine <= c.endLine && c.text != "" &&
    c.indexedText == (if c.context == "" then c.text else c.context + "\n" + c.text) &&
    c.key == prep.chunkKey(p.key, c.startLine, c.endLine, c.text) &&
    (c.embedding != [] ==> Normalized(c.embedding) && p.embeddingIdentity != "")
  }

  ghost predicate SameDimension(p: PreparedDocument) {
    forall i, j :: 0 <= i < |p.chunks| && 0 <= j < |p.chunks| ==> |p.chunks[i].embedding| == |p.chunks[j].embedding|
  }

  ghost predicate DistinctKeys(p: PreparedDocument) {
    forall i, j :: 0 <= i < j < |p.chunks| ==> p.chunks[i].key != p.chunks[j].key
  }

  ghost predicate ValidDocument(prep: Preparation, p: PreparedDocument, revision: nat) {
    p.key != "" && revision != 0 && p.contentHash != "" && p.chunkingFingerprint != "" &&
    p.content == prep.normalize(p.content) && p.contentHash == prep.contentHash(p.title, p.content, p.metadata) &&
    (forall i :: 0 <= i < |p.chunks| ==> ValidChunk(prep, p, i)) && DistinctKeys(p) && SameDimension(p)
  }

  /** The checks of one chunk that look at nothing else. */
  method CheckChunk(prep: Preparation, p: PreparedDocument, i: nat) returns (ok: bool)
    requires i < |p.chunks|
    ensures ok <==> ChunkOk(prep, p, i)
  {
    hide Normalized, ChunkOk;
    var c := p.chunks[i];
    ChunkOkIs(prep, p, i);
    if c.key == "" || c.ordinal != i || c.startLine > c.endLine || c.text == "" || c.indexedText == "" {
      return false;
    }
    var indexed := if c.context == "" then c.text else c.context + "\n" + c.text;
    if c.indexedText != indexed || c.key != prep.chunkKey(p.key, c.startLine, c.endLine, c.text) {
      return false;
    }
    return c.embedding == [] || Normalized(c.embedding);
  }

  ghost predicate HasEmbedding(p: PreparedDocument, n: nat) {
    exists j :: 0 <= j < n && j < |p.chunks| && p.chunks[j].embedding != []
  }

  ghost predicate HasEmpty(p: PreparedDocument, n: nat) {
    exists j :: 0 <= j < n && j < |p.chunks| && p.chunks[j].embedding == []
  }

  /** Two of its embeddings differ in length. */
  ghost predicate TwoLengths(p: PreparedDocument) {
    exists i, j :: 0 <= i < j < |p.chunks| && p.chunks[i].embedding != [] && p.chunks[j].embedding != [] &&
                   |p.chunks[i].embedding| != |p.chunks[j].embedding|
  }

  /** `EmbeddedBackend::validate` accepts exactly the valid documents. */
  method Validate(prep: Preparation, p: PreparedDocument, revision: nat) returns (r: Result<()>)
    ensures r.Ok? <==> ValidDocument(prep, p, revision)
    ensures r.Err? ==> r.error == InvalidArgument || (r.error == DimensionMismatch && TwoLengths(p))
  {
    hide ValidDocument, ChunkOk, DistinctKeys, SameDimension, ValidChunk, TwoLengths;
    ValidIff(prep, p, revision);
    if !ValidHeader(prep, p, revision) {
      return Err(InvalidArgument);
    }
    var keys: set<string> := {};
    var dimension, anyEmbedding, anyEmpty := 0, false, false;
    for i := 0 to |p.chunks|
      invariant forall j :: 0 <= j < i ==> ChunkOk(prep, p, j)
      invariant keys == ChunkKeysTo(p, i) && DistinctTo(p, i)
      invariant forall j :: 0 <= j < i ==> |p.chunks[j].embedding| == 0 || |p.chunks[j].embedding| == dimension
      invariant anyEmpty <==> HasEmpty(p, i)
      invariant anyEmbedding <==> HasEmbedding(p, i)
      invariant anyEmbedding <==> dimension != 0
    {
      var c := p.chunks[i];
      KeysNext(p, i);
      if c.key in keys {
        return Err(InvalidArgument);
      }
      keys := keys + {c.key};
      var ok := CheckChunk(prep, p, i);
      if !ok {
        return Err(InvalidArgument);
      }
      if c.embedding == [] {
        anyEmpty := true;
      } else {
        anyEmbedding := true;
        if dimension == 0 {
          dimension := |c.embedding|;
        }
        if |c.embedding| != dimension {
          NotSame(p, i);
          LengthsDiffer(p, i, dimension);
          return Err(DimensionMismatch);
        }
      }
    }
    DistinctAll(p);
    if anyEmbedding && anyEmpty {
      NotSame(p, |p.chunks|);
      return Err(InvalidArgument);
    }
    AllSame(p, dimension);
    if anyEmbedding && p.embeddingIdentity == "" {
      return Err(InvalidArgument);
    }
    return Ok(());
  }

  lemma LengthsDiffer(p: PreparedDocument, i: nat, dimension: nat)
    requires i < |p.chunks| && HasEmbedding(p, i) && p.chunks[i].embedding != [] && |p.chunks[i].embedding| != dimension
    requires forall j :: 0 <= j < i ==> |p.chunks[j].embedding| == 0 || |p.chunks[j].embedding| == dimension
    ensures TwoLengths(p)
  {
    var j :| 0 <= j < i && p.chunks[j].embedding != [];
    assert |p.chunks[j].embedding| != |p.chunks[i].embedding|;
  }

  predicate ValidHeader(prep: Preparation, p: PreparedDocument, revision: nat) {
    p.key != "" && revision != 0 && p.contentHash != "" && p.chunkingFingerprint != "" &&
    p.content == prep.normalize(p.content) && p.contentHash == prep.contentHash(p.title, p.content, p.metadata)
  }

  lemma ValidIff(prep: Preparation, p: PreparedDocument, revision: nat)
    ensures ValidDocument(prep, p, revision) <==>
      ValidHeader(prep, p, revision) && DistinctKeys(p) && SameDimension(p) &&
      (forall i :: 0 <= i < |p.chunks| ==> ChunkOk(prep, p, i)) &&
      (HasEmbedding(p, |p.chunks|) ==> p.embeddingIdentity != "")
  {
    hide DistinctKeys, SameDimension, ChunkOk, ValidChunk;
    forall i | 0 <= i < |p.chunks|
      ensures ValidChunk(prep, p, i) <==> ChunkOk(prep, p, i) && (p.chunks[i].embedding != [] ==> p.embeddingIdentity != "")
    {
      ChunkOkIs(prep, p, i);
    }
  }

  function ChunkKeysTo(p: PreparedDocument, n: nat): set<string>
    requires n <= |p.chunks|
  {
    set c | c in p.chunks[..n] :: c.key
  }

  ghost predicate DistinctTo(p: PreparedDocument, n: nat)
    requires n <= |p.chunks|
  {
    forall i, j :: 0 <= i < j < n ==> p.chunks[i].key != p.chunks[j].key
  }

  lemma KeysNext(p: PreparedDocument, n: nat)
    requires n < |p.chunks| && DistinctTo(p, n)
    ensures ChunkKeysTo(p, n + 1) == ChunkKeysTo(p, n) + {p.chunks[n].key}
    ensures p.chunks[n].key in ChunkKeysTo(p, n) ==> !DistinctKeys(p)
    ensures p.chunks[n].key !in ChunkKeysTo(p, n) ==> DistinctTo(p, n + 1)
  {
    assert p.chunks[..n + 1] == p.chunks[..n] + [p.chunks[n]];
    if p.chunks[n].key in ChunkKeysTo(p, n) {
      var c :| c in p.chunks[..n] && c.key == p.chunks[n].key;
    } else {
      assert forall i :: 0 <= i < n ==> p.chunks[i] in p.chunks[..n];
    }
  }

  lemma DistinctAll(p: PreparedDocument)
    ensures DistinctTo(p, |p.chunks|) <==> DistinctKeys(p)
  {
  }

  lemma NotSame(p: PreparedDocument, n: nat)
    requires n <= |p.chunks|
    ensures HasEmbedding(p, n) && HasEmpty(p, n) ==> !SameDimension(p)
    ensures n < |p.chunks| && HasEmbedding(p, n) && p.chunks[n].embedding != [] &&
      (forall j :: 0 <= j < n && p.chunks[j].embedding != [] ==> |p.chunks[j].embedding| != |p.chunks[n].embedding|)
      ==> !SameDimension(p)
  {
    if HasEmbedding(p, n) && HasEmpty(p, n) {
      var i :| 0 <= i < n && i < |p.chunks| && p.chunks[i].embedding != [];
      var j :| 0 <= j < n && j < |p.chunks| && p.chunks[j].embedding == [];
      assert |p.chunks[i].embedding| != |p.chunks[j].embedding|;
    }
  }

  lemma AllSame(p: PreparedDocument, dimension: nat)
    requires forall j :: 0 <= j < |p.chunks| ==> |p.chunks[j].embedding| == 0 || |p.chunks[j].embedding| == dimension
    requires !HasEmbedding(p, |p.chunks|) || !HasEmpty(p, |p.chunks|)
    ensures SameDimension(p)
  {
  }

  /** A valid chunk, but for the embedding identity. */
  predicate ChunkOk(prep: Preparation, p: PreparedDocument, i: nat)
    requires i < |p.chunks|
  {
    ValidChunk(prep, p.(embeddingIdentity := "any"), i)
  }

  lemma ChunkOkIs(prep: Preparation, p: PreparedDocument, i: nat)
    requires i < |p.chunks|
    ensures var c := p.chunks[i];
      ChunkOk(prep, p, i) <==>
      (c.key != "" && c.ordinal == i && c.startLine <= c.endLine && c.text != "" &&
       c.indexedText == (if c.context == "" then c.text else c.context + "\n" + c.text) &&
       c.key == prep.chunkKey(p.key, c.startLine, c.endLine, c.text) &&
       (c.embedding != [] ==> Normalized(c.embedding)))
    ensures ValidChunk(prep, p, i) <==> ChunkOk(prep, p, i) && (p.chunks[i].embedding != [] ==> p.embeddingIdentity != "")
  {
  }
}
