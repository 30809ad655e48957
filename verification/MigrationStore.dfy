/** The checkpoint a migration writes for its destination: which destinations `save` accepts, and which of
    them can be opened again. */
module MigrationStore {
  import opened Documents
  import opened KeyOrder
  import opened Dense
  import opened Validation
  import opened Backend
  import opened CheckpointFormat
  import opened CheckpointChunks
  import opened CheckpointStore
  import opened Migration

  function Entries(s: seq<Record>): (r: seq<CheckpointEntry>)
    ensures |r| == |s| && forall i :: 0 <= i < |s| ==> r[i] == CheckpointEntry(s[i].document, s[i].revision)
  {
    seq(|s|, i requires 0 <= i < |s| => CheckpointEntry(s[i].document, s[i].revision))
  }

  function RecordsOf(entries: seq<CheckpointEntry>): (s: seq<Record>)
    ensures |s| == |entries| && forall i :: 0 <= i < |s| ==> s[i] == Record(entries[i].prepared, entries[i].revision)
  {
    seq(|entries|, i requires 0 <= i < |entries| => Record(entries[i].prepared, entries[i].revision))
  }

  function RevisionsOf(s: seq<Record>): map<DocKey, nat> {
    if s == [] then map[] else RevisionsOf(s[..|s| - 1])[KeyOf(s[|s| - 1]) := s[|s| - 1].revision]
  }

  /** The checkpoint of an ordered map of active documents. */
  function CheckpointAt(s: seq<Record>, generation: nat): EmbeddedCheckpoint {
    EmbeddedCheckpoint(generation, 0, RevisionsOf(s), Entries(s))
  }

  lemma EntriesBack(s: seq<Record>)
    ensures RecordsOf(Entries(s)) == s
  {
  }

  /** The loop of `write_batch` that fills the checkpoint. */
  method BuildCheckpoint(s: seq<Record>, generation: nat) returns (c: EmbeddedCheckpoint)
    ensures c == CheckpointAt(s, generation)
  {
    var documents: seq<CheckpointEntry> := [];
    var revisions: map<DocKey, nat> := map[];
    for i := 0 to |s|
      invariant documents == Entries(s[..i]) && revisions == RevisionsOf(s[..i])
    {
      documents := documents + [CheckpointEntry(s[i].document, s[i].revision)];
      revisions := revisions[KeyOf(s[i]) := s[i].revision];
      assert s[..i + 1][..i] == s[..i];
    }
    assert s[..|s|] == s;
    c := EmbeddedCheckpoint(generation, 0, revisions, documents);
  }

  // ---------------------------------------------------------------- what save accepts

  /** `save` accepts the destination. */
  ghost predicate Savable(s: seq<Record>) { SaveOk(CheckpointAt(s, |s|)) }

  lemma SavableAny(s: seq<Record>, generation: nat)
    ensures SaveOk(CheckpointAt(s, generation)) <==> Savable(s)
  {
    hide DocumentSaveOk, AllChunks, ChunksSaveOk, RevisionsOf, Entries, Fits32;
  }

  /** The limits of one record. */
  ghost predicate RecordSavable(r: Record) {
    DocumentSaveOk(CheckpointEntry(r.document, r.revision), map[KeyOf(r) := r.revision])
  }

  lemma {:induction false} RevisionsHold(s: seq<Record>, i: nat)
    requires InKeyOrder(s) && i < |s|
    ensures KeyOf(s[i]) in RevisionsOf(s) && RevisionsOf(s)[KeyOf(s[i])] == s[i].revision
  {
    var n := |s| - 1;
    if i < n {
      RevisionsHold(s[..n], i);
      KeyTotal(KeyOf(s[i]), KeyOf(s[n]));
      assert KeyLess(KeyOf(s[i]), KeyOf(s[n]));
    }
  }

  lemma {:induction false} RevisionsOnly(s: seq<Record>)
    ensures |RevisionsOf(s)| <= |s|
    ensures forall d :: d in RevisionsOf(s) ==> exists i :: 0 <= i < |s| && KeyOf(s[i]) == d && s[i].revision == RevisionsOf(s)[d]
  {
    if s != [] {
      var n := |s| - 1;
      RevisionsOnly(s[..n]);
      forall d | d in RevisionsOf(s)
        ensures exists i :: 0 <= i < |s| && KeyOf(s[i]) == d && s[i].revision == RevisionsOf(s)[d]
      {
        if d == KeyOf(s[n]) {
          assert s[n].revision == RevisionsOf(s)[d];
        } else {
          var i :| 0 <= i < n && KeyOf(s[..n][i]) == d && s[..n][i].revision == RevisionsOf(s[..n])[d];
          assert KeyOf(s[i]) == d;
        }
      }
      MapGrows(RevisionsOf(s[..n]), KeyOf(s[n]), s[n].revision);
    }
  }

  lemma MapGrows(m: map<DocKey, nat>, k: DocKey, v: nat)
    ensures |m[k := v]| <= |m| + 1
  {
    assert m[k := v].Keys == m.Keys + {k};
  }

  lemma EntrySavable(s: seq<Record>, i: nat)
    requires InKeyOrder(s) && i < |s|
    ensures DocumentSaveOk(Entries(s)[i], RevisionsOf(s)) <==> RecordSavable(s[i])
  {
    hide RevisionsOf, InKeyOrder;
    RevisionsHold(s, i);
  }

  lemma RevisionRowsOk(s: seq<Record>)
    requires |s| <= MAX_DOCUMENTS && forall i :: 0 <= i < |s| ==> RecordSavable(s[i])
    ensures |RevisionsOf(s)| <= MAX_DOCUMENTS
    ensures forall d :: d in RevisionsOf(s) ==> d != "" && Fits32(d) && RevisionsOf(s)[d] != 0
  {
    hide RevisionsOf, Fits32;
    RevisionsOnly(s);
  }

  /** Spelt out: the limits on counts, on each record and its chunks, and no chunk key twice. */
  lemma SavableIff(s: seq<Record>)
    requires InKeyOrder(s)
    ensures Savable(s) <==>
            |s| <= MAX_DOCUMENTS && (forall i :: 0 <= i < |s| ==> RecordSavable(s[i])) &&
            ChunksSaveOk(AllChunks(Entries(s), |s|))
  {
    hide AllChunks, ChunksSaveOk, RevisionsOf, Entries, InKeyOrder, DocumentSaveOk, RecordSavable, Fits32;
    forall i | 0 <= i < |s|
      ensures DocumentSaveOk(Entries(s)[i], RevisionsOf(s)) <==> RecordSavable(s[i])
    {
      EntrySavable(s, i);
    }
    KeysDiffer(s);
    if |s| <= MAX_DOCUMENTS && forall i :: 0 <= i < |s| ==> RecordSavable(s[i]) {
      RevisionRowsOk(s);
    }
    if Savable(s) {
      forall i | 0 <= i < |s|
        ensures RecordSavable(s[i])
      {
        assert DocumentSaveOk(Entries(s)[i], RevisionsOf(s));
      }
    }
  }

  lemma KeysDiffer(s: seq<Record>)
    requires InKeyOrder(s)
    ensures forall i, j :: 0 <= i < j < |s| ==> KeyOf(s[i]) != KeyOf(s[j])
  {
    forall i, j | 0 <= i < j < |s|
      ensures KeyOf(s[i]) != KeyOf(s[j])
    {
      assert KeyLess(KeyOf(s[i]), KeyOf(s[j]));
      KeyTotal(KeyOf(s[i]), KeyOf(s[j]));
    }
  }

  /** What `save` accepts it accepts in part. */
  lemma SavablePrefix(s: seq<Record>, n: nat)
    requires InKeyOrder(s) && n <= |s| && Savable(s)
    ensures Savable(s[..n])
  {
    hide RecordSavable, AllChunks, ChunksSaveOk, Savable, Entries;
    SavableIff(s);
    assert InKeyOrder(s[..n]);
    SavableIff(s[..n]);
    assert ChunksSaveOk(AllChunks(Entries(s[..n]), n)) by { ChunksPrefix(s, n); }
  }

  lemma ChunksPrefix(s: seq<Record>, n: nat)
    requires n <= |s| && ChunksSaveOk(AllChunks(Entries(s), |s|))
    ensures ChunksSaveOk(AllChunks(Entries(s[..n]), n))
  {
    hide ChunkSaveOk, AllChunks;
    var a, b := Entries(s[..n]), Entries(s);
    AllChunksPrefix(b, n, |s|);
    SameChunks(a, b, n);
    var all, part := AllChunks(b, |s|), AllChunks(a, n);
    assert forall i :: 0 <= i < |part| ==> part[i] == all[i];
  }

  lemma {:induction false} SameChunks(a: seq<CheckpointEntry>, b: seq<CheckpointEntry>, n: nat)
    requires n <= |a| && n <= |b| && forall i :: 0 <= i < n ==> a[i] == b[i]
    ensures AllChunks(a, n) == AllChunks(b, n)
  {
    if n > 0 {
      SameChunks(a, b, n - 1);
    }
  }

  // ------------------------------------------------------------ what can be opened again

  /** No chunk ends before it starts. */
  ghost predicate OrderedLines(s: seq<Record>) {
    forall i, o :: 0 <= i < |s| && 0 <= o < |s[i].document.chunks| ==>
      s[i].document.chunks[o].startLine <= s[i].document.chunks[o].endLine
  }

  lemma AuditedChunk(prep: Preparation, s: seq<Record>, i: nat, o: nat)
    requires AuditOk(prep, s) && i < |s| && o < |s[i].document.chunks|
    ensures var x := s[i].document.chunks[o];
      x.ordinal == o && |x.embedding| == FirstDimension(s[0]) && Normalized(x.embedding)
  {
    hide Normalized;
    assert RecordOk(prep, s[i], s[0].document.embeddingIdentity, s[0].document.chunkingFingerprint, FirstDimension(s[0]));
    assert ChunkFits(prep, s[i].document, o, FirstDimension(s[0]));
  }

  /** What the audit lets through can be loaded exactly when every line range is in order: the audit does not
      look at line ranges, the loader does. */
  lemma LoadableIff(prep: Preparation, s: seq<Record>, generation: nat)
    requires AuditOk(prep, s)
    ensures Loadable(CheckpointAt(s, generation)) <==> OrderedLines(s)
  {
    hide AuditOk, Normalized, RevisionsOf;
    var c := CheckpointAt(s, generation);
    forall id | 0 <= id < |Everything(c)|
      ensures exists d, o :: AtPlace(s, d, o, Everything(c)[id].chunk)
      ensures var x := Everything(c)[id].chunk; |x.embedding| == FirstDimension(s[0]) && Normalized(x.embedding)
    {
      var d, o := Locate(c.documents, |c.documents|, id);
      ChunkAt(c.documents, d, o);
      AuditedChunk(prep, s, d, o);
      assert AtPlace(s, d, o, Everything(c)[id].chunk);
    }
    LoadedRest(prep, s, c);
    if Loadable(c) {
      forall d, o | 0 <= d < |s| && 0 <= o < |s[d].document.chunks|
        ensures s[d].document.chunks[o].startLine <= s[d].document.chunks[o].endLine
      {
        ChunkAt(c.documents, d, o);
      }
    }
    if OrderedLines(s) {
      forall id | 0 <= id < |Everything(c)|
        ensures Everything(c)[id].chunk.startLine <= Everything(c)[id].chunk.endLine
      {
        var d, o :| AtPlace(s, d, o, Everything(c)[id].chunk);
      }
    }
  }

  ghost predicate AtPlace(s: seq<Record>, d: nat, o: nat, x: PreparedChunk) {
    d < |s| && o < |s[d].document.chunks| && s[d].document.chunks[o] == x
  }

  lemma LoadedRest(prep: Preparation, s: seq<Record>, c: EmbeddedCheckpoint)
    requires AuditOk(prep, s) && c.documents == Entries(s)
    requires forall id :: 0 <= id < |Everything(c)| ==>
      var x := Everything(c)[id].chunk; |x.embedding| == FirstDimension(s[0]) && Normalized(x.embedding)
    ensures VectorsOk(Everything(c)) && AllOrdinals(c.documents, |c.documents|)
  {
    hide AuditOk, Normalized, Everything;
    forall d, o | 0 <= d < |c.documents| && 0 <= o < |c.documents[d].prepared.chunks|
      ensures c.documents[d].prepared.chunks[o].ordinal == o
    {
      AuditedChunk(prep, s, d, o);
    }
  }

  lemma AuditedPrefix(prep: Preparation, s: seq<Record>, n: nat)
    requires AuditOk(prep, s) && n <= |s|
    ensures AuditOk(prep, s[..n])
  {
    hide RecordOk, FirstDimension;
    assert n > 0 ==> s[..n][0] == s[0];
  }
}
