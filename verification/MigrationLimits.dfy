/** Sources that pass their audit and cannot be copied whole, or whose copy cannot be opened. */
module MigrationLimits {
  import opened Wrappers
  import opened Documents
  import opened KeyOrder
  import opened Dense
  import opened Validation
  import opened CheckpointFormat
  import opened CheckpointStore
  import opened Migration
  import opened MigrationStore
  import opened MigrationRun

  /** The audit does not look for repeated chunk keys, `save` does: two chunks of one document with the same lines
      and text share a key, and no source that has them is saved. */
  lemma RepeatedChunkRefused(prep: Preparation, s: seq<Record>, i: nat, a: nat, b: nat)
    requires InKeyOrder(s) && AuditOk(prep, s) && i < |s| && a < b < |s[i].document.chunks|
    requires var x, y := s[i].document.chunks[a], s[i].document.chunks[b];
      x.startLine == y.startLine && x.endLine == y.endLine && x.text == y.text
    ensures !Savable(s)
  {
    hide Savable, AllChunks, Entries, InKeyOrder, AuditOk, RecordSavable, ChunkSaveOk;
    SavableIff(s);
    SameKeys(prep, s, i, a, b);
    ChunkAt(Entries(s), i, a);
    ChunkAt(Entries(s), i, b);
    var all, at := AllChunks(Entries(s), |s|), |AllChunks(Entries(s), i)|;
    assert all[at + a].chunk.key == all[at + b].chunk.key;
  }

  lemma SameKeys(prep: Preparation, s: seq<Record>, i: nat, a: nat, b: nat)
    requires AuditOk(prep, s) && i < |s| && a < b < |s[i].document.chunks|
    requires var x, y := s[i].document.chunks[a], s[i].document.chunks[b];
      x.startLine == y.startLine && x.endLine == y.endLine && x.text == y.text
    ensures s[i].document.chunks[a].key == s[i].document.chunks[b].key
  {
    hide Normalized;
    var p := s[i].document;
    assert RecordOk(prep, s[i], s[0].document.embeddingIdentity, s[0].document.chunkingFingerprint, FirstDimension(s[0]));
    assert ChunkFits(prep, p, a, FirstDimension(s[0])) && ChunkFits(prep, p, b, FirstDimension(s[0]));
  }

  // -------------------------------------------------------------------- concrete sources

  const Prep := Preparation(
    (text: string) => text, (title: string, content: string, m: Metadata) => "h",
    (d: DocKey, from: nat, to: nat, text: string) => d + text)

  function ChunkNo(d: DocKey, ordinal: nat, startLine: nat, endLine: nat): PreparedChunk {
    PreparedChunk(d + "t", ordinal, "t", "t", "", startLine, endLine, [1.0])
  }

  function RecordOfChunks(d: DocKey, metadata: Metadata, chunks: seq<PreparedChunk>): Record {
    Record(PreparedDocument(d, "", "c", metadata, "h", "f", "e", chunks), 1)
  }

  lemma WholeRecord(d: DocKey, metadata: Metadata, chunks: seq<PreparedChunk>)
    requires d != "" && chunks != [] && forall i :: 0 <= i < |chunks| ==> chunks[i] == ChunkNo(d, i, chunks[i].startLine, chunks[i].endLine)
    ensures RecordOk(Prep, RecordOfChunks(d, metadata, chunks), "e", "f", 1)
  {
  }

  lemma WholeSource(s: seq<Record>)
    requires forall i :: 0 <= i < |s| ==> RecordOk(Prep, s[i], "e", "f", 1)
    ensures AuditOk(Prep, s)
  {
    if s != [] {
      assert RecordOk(Prep, s[0], "e", "f", 1);
      assert ChunkFits(Prep, s[0].document, 0, 1);
    }
  }

  lemma OneSavable(d: DocKey, chunk: PreparedChunk)
    requires d != "" && |d| < 10 && chunk == ChunkNo(d, 0, chunk.startLine, chunk.endLine)
    ensures Savable([RecordOfChunks(d, map[], [chunk])])
  {
    var s := [RecordOfChunks(d, map[], [chunk])];
    assert InKeyOrder(s);
    hide Savable, InKeyOrder;
    SavableIff(s);
    assert AllChunks(Entries(s), 0) == [];
    assert AllChunks(Entries(s), 1) == [Located(0, chunk)];
  }

  /** So many metadata entries, all under different names. */
  function Labels(n: nat): Metadata { if n == 0 then map[] else Labels(n - 1)[seq(n, _ => 'x') := ""] }

  lemma {:induction false} LabelsCount(n: nat)
    ensures |Labels(n)| == n && forall k :: k in Labels(n) ==> |k| <= n
  {
    if n > 0 {
      LabelsCount(n - 1);
      var k := seq(n, _ => 'x');
      assert |k| == n && k !in Labels(n - 1);
      assert Labels(n).Keys == Labels(n - 1).Keys + {k};
    }
  }

  /** The second document has one metadata entry more than a checkpoint may hold. */
  function Oversized(): seq<Record> {
    [RecordOfChunks("a", map[], [ChunkNo("a", 0, 1, 1)]),
     RecordOfChunks("b", Labels(MAX_METADATA + 1), [ChunkNo("b", 0, 1, 1)])]
  }

  /** A record over a limit of `save` keeps its source from being saved. */
  lemma OversizedRefused(s: seq<Record>, i: nat)
    requires InKeyOrder(s) && i < |s| && |s[i].document.metadata| > MAX_METADATA
    ensures !Savable(s)
  {
    hide Savable, AllChunks, Migration.InKeyOrder;
    SavableIff(s);
    assert !RecordSavable(s[i]);
  }

  /** A copy that may start into an empty destination, and that `save` stops after the first of two batches. */
  lemma StopsMidway(h: Hashing)
    requires h.prep == Prep
    ensures var digest := AuditOf(h, Oversized()).digest; var run := h.run("up", digest);
      InKeyOrder(Oversized()) && MayCopy(h, Oversized(), [], None, "up", 1, 0) &&
      StoppedAs(Oversized(), 0, 1, 1, Durable(None, None), Oversized(),
                Durable(Some(CheckpointAt(Oversized()[..1], 1)), Some(ProgressAt(Oversized(), 1, run, digest))), run, digest)
  {
    hide AuditOf, ChunkCount, Savable, AuditOk, CheckpointAt, Labels;
    var s := Oversized();
    WholeRecord("a", map[], s[0].document.chunks);
    WholeRecord("b", Labels(MAX_METADATA + 1), s[1].document.chunks);
    WholeSource(s);
    assert KeyLess("a", "b");
    LabelsCount(MAX_METADATA + 1);
    OversizedRefused(s, 1);
    OneSavable("a", s[0].document.chunks[0]);
    assert s[..1] == [RecordOfChunks("a", map[], [s[0].document.chunks[0]])];
    assert s[..2] == s;
  }

  /** One document whose only chunk ends before it starts. */
  function Reversed(): seq<Record> { [RecordOfChunks("a", map[], [ChunkNo("a", 0, 2, 1)])] }

  /** A copy that succeeds and leaves a destination that will not open. */
  lemma CopiedButClosed(h: Hashing)
    requires h.prep == Prep
    ensures InKeyOrder(Reversed()) && MayCopy(h, Reversed(), [], None, "up", 1, 0) && Savable(Reversed())
    ensures !Loadable(CheckpointAt(Reversed(), 1))
  {
    hide AuditOf, Savable, AuditOk, CheckpointAt, Loadable;
    var s := Reversed();
    WholeRecord("a", map[], s[0].document.chunks);
    WholeSource(s);
    OneSavable("a", s[0].document.chunks[0]);
    LoadableIff(Prep, s, 1);
    assert s[0].document.chunks[0].startLine > s[0].document.chunks[0].endLine;
  }
}
