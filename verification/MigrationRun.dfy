/** The destination endpoint and the resumable copy into it. */
module MigrationRun {
  import opened Wrappers
  import opened Documents
  import opened KeyOrder
  import opened Bytes
  import opened Containers
  import opened Validation
  import opened Backend
  import opened CheckpointFormat
  import opened CheckpointLoad
  import opened CheckpointStore
  import opened Migration
  import opened MigrationStore

  datatype Progress = Progress(
    runId: string, sourceDigest: string, lastDocument: DocKey, documents: nat, chunks: nat, complete: bool)

  // ------------------------------------------------------------------------- reconcile

  /** The destination and the source agree on their first `n` records. */
  ghost predicate Agreed(src: seq<Record>, dst: seq<Record>, n: nat) {
    n <= |src| && n <= |dst| && dst[..n] == src[..n]
  }

  lemma AgreedMore(src: seq<Record>, dst: seq<Record>, n: nat, m: nat)
    requires Agreed(src, dst, n) && n <= m <= |src| && m <= |dst| && dst[n..m] == src[n..m]
    ensures Agreed(src, dst, m)
  {
    assert dst[..m] == dst[..n] + dst[n..m] && src[..m] == src[..n] + src[n..m];
  }

  lemma NotAgreed(src: seq<Record>, dst: seq<Record>, i: nat)
    requires i < |dst| && (i >= |src| || dst[i] != src[i])
    ensures !IsPrefix(dst, src)
  {
    assert |dst| <= |src| ==> src[..|dst|][i] == src[i];
  }

  lemma AgreedAll(src: seq<Record>, dst: seq<Record>)
    requires Agreed(src, dst, |dst|)
    ensures IsPrefix(dst, src) && (|dst| == |src| <==> dst == src)
  {
    assert dst[..|dst|] == dst;
    assert |dst| == |src| ==> src[..|dst|] == src;
  }

  /** The batches that were read agree record for record. */
  method SameBatch(expected: seq<Record>, actual: seq<Record>) returns (same: bool)
    requires |actual| <= |expected|
    ensures same <==> actual == expected[..|actual|]
  {
    for i := 0 to |actual|
      invariant actual[..i] == expected[..i]
    {
      if expected[i] != actual[i] {
        assert expected[..|actual|][i] == expected[i];
        return false;
      }
      assert actual[..i + 1] == actual[..i] + [actual[i]] && expected[..i + 1] == expected[..i] + [expected[i]];
    }
    assert actual[..|actual|] == actual;
    return true;
  }

  lemma SameCursor(src: seq<Record>, dst: seq<Record>, n: nat)
    requires Agreed(src, dst, n) && NamedRecords(src)
    ensures n <= |src| && n <= |dst| && CursorAt(src, n) == CursorAt(dst, n) && NamedRecords(dst[..n]) && NamedRecords(src[..n])
  {
    if n > 0 {
      assert dst[..n][n - 1] == src[..n][n - 1];
    }
    assert forall i :: 0 <= i < n ==> dst[..n][i] == src[i];
  }

  /** `reconcile` accepts exactly the destinations that are a source prefix, and counts them. */
  method Reconcile(src: seq<Record>, dst: seq<Record>, run: string, digest: string, batchSize: nat)
    returns (r: Result<Progress>)
    requires InKeyOrder(src) && InKeyOrder(dst) && NamedRecords(src) && batchSize > 0
    ensures r.Ok? <==> IsPrefix(dst, src)
    ensures r.Ok? ==> r.value == Progress(run, digest, CursorAt(dst, |dst|), |dst|, ChunkCount(dst), dst == src)
    ensures r.Err? ==> r.error == AlreadyExists
  {
    hide InKeyOrder, NamedRecords, IsPrefix, ChunkCount, Agreed, BatchAfter, CursorAt;
    var cursor := "";
    var documents, chunks := 0, 0;
    NothingAgreed(src, dst);
    while true
      invariant documents <= |dst| && Agreed(src, dst, documents)
      invariant cursor == CursorAt(dst, documents) && chunks == ChunkCount(dst[..documents])
      decreases |dst| - documents
    {
      SameCursor(src, dst, documents);
      var expected := ReadAfter(src, cursor, batchSize, documents);
      var actual := ReadAfter(dst, cursor, batchSize, documents);
      var e, a := expected.documents, actual.documents;
      BatchesCompare(src, dst, documents, batchSize, expected, actual);
      if |a| > |e| {
        return Err(AlreadyExists);
      }
      var same := SameBatch(e, a);
      if !same {
        return Err(AlreadyExists);
      }
      var counted := CountChunks(a);
      documents, chunks := documents + |a|, chunks + counted;
      if a != [] {
        cursor := actual.nextCursor;
      }
      if actual.complete {
        assert dst[..|dst|] == dst;
        return Ok(Progress(run, digest, cursor, documents, chunks, expected.complete && |a| == |e|));
      }
      if a == [] || expected.complete {
        return Err(AlreadyExists);
      }
    }
  }

  /** What a pair of batches read from the same place tells about the whole lists. */
  lemma BatchesCompare(src: seq<Record>, dst: seq<Record>, n: nat, limit: nat, expected: Batch, actual: Batch)
    requires Agreed(src, dst, n) && limit > 0 && BatchAfter(src, n, limit, expected) && BatchAfter(dst, n, limit, actual)
    ensures var e, a := |expected.documents|, |actual.documents|;
      n + a <= |dst| && ChunkCount(dst[..n + a]) == ChunkCount(dst[..n]) + ChunkCount(actual.documents) &&
      actual.nextCursor == CursorAt(dst, n + a) && (actual.complete <==> n + a == |dst|) &&
      (a > e || actual.documents != expected.documents[..a] ==> !IsPrefix(dst, src)) &&
      (a <= e && actual.documents == expected.documents[..a] ==> Agreed(src, dst, n + a)) &&
      (a <= e && actual.documents == expected.documents[..a] && actual.complete ==>
        IsPrefix(dst, src) && (dst == src <==> expected.complete && a == e)) &&
      (a <= e && !actual.complete ==> a > 0 && (expected.complete ==> !IsPrefix(dst, src)))
  {
    hide ChunkCount, IsPrefix, Agreed, CursorAt;
    var e, a := |expected.documents|, |actual.documents|;
    BatchCount(dst, n, n + a);
    AgreedBounds(src, dst, n);
    if a > e {
      NotAgreed(src, dst, n + e);
    } else if actual.documents != expected.documents[..a] {
      SomeDifference(src, dst, n, e, a);
    } else {
      assert src[n..n + e][..a] == src[n..n + a];
      AgreedMore(src, dst, n, n + a);
      if actual.complete {
        AgreedAll(src, dst);
      } else if expected.complete {
        NotAgreed(src, dst, n + a);
      }
    }
    if a <= e && !actual.complete && expected.complete {
      NotAgreed(src, dst, n + a);
    }
  }

  lemma AgreedBounds(src: seq<Record>, dst: seq<Record>, n: nat)
    requires Agreed(src, dst, n)
    ensures n <= |src| && n <= |dst|
  {
  }

  lemma NothingAgreed(src: seq<Record>, dst: seq<Record>)
    ensures Agreed(src, dst, 0) && ChunkCount(dst[..0]) == 0 && CursorAt(dst, 0) == ""
  {
  }

  method CountChunks(a: seq<Record>) returns (n: nat)
    ensures n == ChunkCount(a)
  {
    n := 0;
    for i := 0 to |a|
      invariant n == ChunkCount(a[..i])
    {
      assert a[..i + 1][..i] == a[..i];
      n := n + |a[i].document.chunks|;
    }
    assert a[..|a|] == a;
  }

  lemma SomeDifference(src: seq<Record>, dst: seq<Record>, n: nat, e: nat, a: nat)
    requires n + e <= |src| && n + a <= |dst| && a <= e && dst[n..n + a] != src[n..n + e][..a]
    ensures !IsPrefix(dst, src)
  {
    var i :| 0 <= i < a && dst[n..n + a][i] != src[n..n + e][..a][i];
    NotAgreed(src, dst, n + i);
  }

  lemma BatchCount(s: seq<Record>, n: nat, to: nat)
    requires n <= to <= |s|
    ensures ChunkCount(s[..to]) == ChunkCount(s[..n]) + ChunkCount(s[n..to])
  {
    assert s[..to] == s[..n] + s[n..to];
    ChunkCountConcat(s[..n], s[n..to]);
  }

  // -------------------------------------------------------------------- the destination

  ghost predicate Has(s: seq<Record>, key: DocKey) { exists i :: 0 <= i < |s| && KeyOf(s[i]) == key }

  /** The record is put in its place in key order, unless its key is taken. */
  function Emplace(s: seq<Record>, r: Record): seq<Record> {
    if s == [] || KeyLess(KeyOf(r), KeyOf(s[0])) then [r] + s
    else if KeyOf(s[0]) == KeyOf(r) then s
    else [s[0]] + Emplace(s[1..], r)
  }

  lemma {:induction false} EmplaceKeys(s: seq<Record>, r: Record, k: DocKey)
    ensures Has(Emplace(s, r), k) ==> Has(s, k) || k == KeyOf(r)
  {
    if Has(Emplace(s, r), k) && s != [] && !KeyLess(KeyOf(r), KeyOf(s[0])) && KeyOf(s[0]) != KeyOf(r) {
      var e := Emplace(s[1..], r);
      var i :| 0 <= i < |[s[0]] + e| && KeyOf(([s[0]] + e)[i]) == k;
      if i > 0 {
        assert KeyOf(e[i - 1]) == k;
        EmplaceKeys(s[1..], r, k);
        if Has(s[1..], k) {
          var j :| 0 <= j < |s[1..]| && KeyOf(s[1..][j]) == k;
          assert KeyOf(s[j + 1]) == k;
        }
      }
    } else if Has(Emplace(s, r), k) {
      var e := Emplace(s, r);
      var i :| 0 <= i < |e| && KeyOf(e[i]) == k;
      assert e == s || e[i] == r || (i > 0 && e[i] == s[i - 1]);
    }
  }

  lemma {:induction false} EmplaceOrder(s: seq<Record>, r: Record)
    requires InKeyOrder(s)
    ensures InKeyOrder(Emplace(s, r))
  {
    if s != [] && KeyLess(KeyOf(r), KeyOf(s[0])) {
      forall i | 0 <= i < |s|
        ensures KeyLess(KeyOf(r), KeyOf(s[i]))
      {
        if i > 0 {
          KeyTransitive(KeyOf(r), KeyOf(s[0]), KeyOf(s[i]));
          KeyTotal(KeyOf(r), KeyOf(s[i]));
          assert KeyOf(r) == KeyOf(s[i]) ==> KeyLeq(KeyOf(s[0]), KeyOf(r));
          KeyTotal(KeyOf(r), KeyOf(s[0]));
        }
      }
    } else if s != [] && KeyOf(s[0]) != KeyOf(r) {
      EmplaceOrder(s[1..], r);
      var e := Emplace(s[1..], r);
      forall i | 0 <= i < |e|
        ensures KeyLess(KeyOf(s[0]), KeyOf(e[i]))
      {
        assert Has(e, KeyOf(e[i]));
        EmplaceKeys(s[1..], r, KeyOf(e[i]));
        KeyTotal(KeyOf(s[0]), KeyOf(r));
      }
    }
  }

  /** A key greater than all goes to the end. */
  lemma {:induction false} EmplaceLast(s: seq<Record>, r: Record)
    requires forall i :: 0 <= i < |s| ==> KeyLess(KeyOf(s[i]), KeyOf(r))
    ensures Emplace(s, r) == s + [r] && !Has(s, KeyOf(r))
  {
    if s != [] {
      assert KeyLess(KeyOf(s[0]), KeyOf(r));
      KeyTotal(KeyOf(s[0]), KeyOf(r));
      EmplaceLast(s[1..], r);
    }
  }

  /** The records of a batch that the destination does not have yet, and the destination with them. */
  function Merge(s: seq<Record>, docs: seq<Record>): seq<Record> {
    if docs == [] then s else Emplace(Merge(s, docs[..|docs| - 1]), docs[|docs| - 1])
  }

  /** The key is taken by another record. */
  ghost predicate Clash(s: seq<Record>, r: Record) { exists j :: 0 <= j < |s| && KeyOf(s[j]) == KeyOf(r) && s[j] != r }

  /** Every record of the batch that the destination already has is the same record. */
  ghost predicate NoConflict(s: seq<Record>, docs: seq<Record>) {
    forall i :: 0 <= i < |docs| ==> !Clash(Merge(s, docs[..i]), docs[i])
  }

  lemma {:induction false} MergeOrder(s: seq<Record>, docs: seq<Record>)
    requires InKeyOrder(s)
    ensures InKeyOrder(Merge(s, docs))
  {
    if docs != [] {
      MergeOrder(s, docs[..|docs| - 1]);
      EmplaceOrder(Merge(s, docs[..|docs| - 1]), docs[|docs| - 1]);
    }
  }

  /** Merging the records that follow a prefix extends the prefix, and nothing conflicts. */
  lemma {:induction false} MergeExtends(src: seq<Record>, n: nat, m: nat)
    requires InKeyOrder(src) && n <= m <= |src|
    ensures Merge(src[..n], src[n..m]) == src[..m]
  {
    hide InKeyOrder, Emplace, Has;
    var docs := src[n..m];
    if n < m {
      MergeExtends(src, n, m - 1);
      assert docs[..|docs| - 1] == src[n..m - 1] && docs[|docs| - 1] == src[m - 1];
      NewKeyAfter(src, m - 1);
    } else {
      assert docs == [];
    }
  }

  lemma ExtendsWithoutConflict(src: seq<Record>, n: nat, m: nat)
    requires InKeyOrder(src) && n <= m <= |src|
    ensures NoConflict(src[..n], src[n..m]) && Merge(src[..n], src[n..m]) == src[..m]
  {
    hide InKeyOrder, Clash, Merge;
    var docs := src[n..m];
    MergeExtends(src, n, m);
    forall i | 0 <= i < |docs|
      ensures !Clash(Merge(src[..n], docs[..i]), docs[i])
    {
      assert docs[..i] == src[n..n + i] && docs[i] == src[n + i];
      MergeExtends(src, n, n + i);
      NewKeyAfter(src, n + i);
      NoClash(src[..n + i], src[n + i]);
    }
  }

  lemma NewKeyAfter(src: seq<Record>, n: nat)
    requires InKeyOrder(src) && n < |src|
    ensures Emplace(src[..n], src[n]) == src[..n + 1] && !Has(src[..n], KeyOf(src[n]))
  {
    EmplaceLast(src[..n], src[n]);
    assert src[..n + 1] == src[..n] + [src[n]];
  }

  lemma NoClash(s: seq<Record>, r: Record)
    requires !Has(s, KeyOf(r))
    ensures !Clash(s, r)
  {
  }

  /** The record under a key, if there is one. */
  ghost predicate IsFound(s: seq<Record>, key: DocKey, r: Option<Record>) {
    (r.None? <==> !Has(s, key)) && (r.Some? ==> forall j :: 0 <= j < |s| && KeyOf(s[j]) == key ==> s[j] == r.value)
  }

  lemma EmplaceFacts(s: seq<Record>, r: Record, found: Option<Record>)
    requires InKeyOrder(s) && IsFound(s, KeyOf(r), found)
    ensures InKeyOrder(Emplace(s, r)) && (found.Some? ==> Emplace(s, r) == s) && (found.None? ==> |Emplace(s, r)| == |s| + 1)
    ensures Clash(s, r) <==> found.Some? && found.value != r
  {
    hide InKeyOrder, Emplace;
    EmplaceOrder(s, r);
    if found.Some? {
      EmplaceTaken(s, r);
    } else {
      EmplaceLength(s, r);
    }
  }

  method FindRecord(s: seq<Record>, key: DocKey) returns (r: Option<Record>)
    requires InKeyOrder(s)
    ensures IsFound(s, key, r)
  {
    for i := 0 to |s|
      invariant forall j :: 0 <= j < i ==> KeyOf(s[j]) != key
    {
      if KeyOf(s[i]) == key {
        return Some(s[i]);
      }
    }
    return None;
  }

  lemma {:induction false} EmplaceTaken(s: seq<Record>, r: Record)
    requires InKeyOrder(s) && Has(s, KeyOf(r))
    ensures Emplace(s, r) == s
  {
    var i :| 0 <= i < |s| && KeyOf(s[i]) == KeyOf(r);
    if i > 0 {
      assert KeyLess(KeyOf(s[0]), KeyOf(s[i]));
      KeyTotal(KeyOf(s[0]), KeyOf(s[i]));
      assert KeyOf(s[1..][i - 1]) == KeyOf(r);
      EmplaceTaken(s[1..], r);
    }
  }

  /** What survives a crash: the checkpoint in the file, if there is a file, and the progress record. */
  datatype Durable = Durable(checkpoint: Option<EmbeddedCheckpoint>, progress: Option<Progress>)

  /** The active documents that opening the file finds. */
  function Held(d: Durable): seq<Record> {
    if d.checkpoint.None? then [] else Merge([], RecordsOf(d.checkpoint.value.documents))
  }

  /** A progress record left by this very run, or none. */
  predicate Matches(progress: Option<Progress>, run: string, digest: string) {
    progress.Some? ==> progress.value.runId == run && progress.value.sourceDigest == digest
  }

  /** The file is still the one that was opened, or one that was saved and will load. */
  ghost predicate Opens(d: Durable, origin: Option<EmbeddedCheckpoint>) {
    d.checkpoint == origin || (d.checkpoint.Some? && SaveOk(d.checkpoint.value) && Loadable(d.checkpoint.value))
  }

  /** A state from which the copy can be taken up again. */
  ghost predicate Resumable(d: Durable, origin: Option<EmbeddedCheckpoint>, src: seq<Record>, run: string, digest: string) {
    Opens(d, origin) && IsPrefix(Held(d), src) && Matches(d.progress, run, digest)
  }

  predicate SameCorpus(active: seq<Record>, audit: CorpusAudit) {
    active != [] ==>
      active[0].document.embeddingIdentity == audit.identity && active[0].document.chunkingFingerprint == audit.fingerprint &&
      FirstDimension(active[0]) == audit.dimension
  }

  /** The progress belongs to the run and its source, the destination to the same kind of corpus, and no
      document conflicts. */
  ghost predicate Mergeable(active: seq<Record>, run: string, audit: CorpusAudit, batch: Batch, progress: Progress) {
    progress.runId == run && progress.sourceDigest == audit.digest && SameCorpus(active, audit) &&
    NoConflict(active, batch.documents)
  }

  ghost predicate Accepts(active: seq<Record>, run: string, audit: CorpusAudit, batch: Batch, progress: Progress) {
    Mergeable(active, run, audit, batch, progress) && Savable(Merge(active, batch.documents))
  }

  ghost function Refusal(active: seq<Record>, run: string, audit: CorpusAudit, batch: Batch, progress: Progress): Errc {
    if progress.runId != run || progress.sourceDigest != audit.digest then InvalidArgument
    else if !SameCorpus(active, audit) then DimensionMismatch
    else if !NoConflict(active, batch.documents) then AlreadyExists
    else InvalidArgument
  }

  /** The bytes `save` writes. */
  ghost function FileBytes(f: Format, c: EmbeddedCheckpoint): Blob { Serialized(f.crc, ContainerOf(f, c)) }

  class Destination {
    const format: Format
    var active: seq<Record>
    var file: Option<Blob>
    var progress: Option<Progress>
    /** What the files hold, every state they have been in, and every record put into the map, in order. */
    ghost var stored: Durable
    ghost var history: seq<Durable>
    ghost var written: seq<Record>

    ghost predicate Valid()
      reads this
    {
      InKeyOrder(active) && stored.progress == progress && (file.Some? <==> stored.checkpoint.Some?)
    }

    constructor (format: Format, active: seq<Record>, file: Option<Blob>, progress: Option<Progress>,
                 ghost checkpoint: Option<EmbeddedCheckpoint>)
      requires InKeyOrder(active) && (file.Some? <==> checkpoint.Some?)
      ensures Valid() && this.format == format && this.active == active && this.file == file
      ensures stored == Durable(checkpoint, progress) && history == [] && written == []
    {
      this.format, this.active, this.file, this.progress := format, active, file, progress;
      stored, history, written := Durable(checkpoint, progress), [], [];
    }

    /** `write_batch`: the documents become durable first, the progress record after them. What `save` refuses
        stays in memory only. */
    method WriteBatch(run: string, audit: CorpusAudit, batch: Batch, progress: Progress) returns (r: Result<()>)
      requires Valid()
      modifies this
      ensures Valid()
      ensures r.Ok? <==> Accepts(old(active), run, audit, batch, progress)
      ensures Mergeable(old(active), run, audit, batch, progress) ==> active == Merge(old(active), batch.documents)
      ensures r.Ok? ==> stored == Durable(Some(CheckpointAt(active, progress.documents)), Some(progress))
      ensures r.Ok? ==> SaveOk(stored.checkpoint.value) && file == Some(FileBytes(format, stored.checkpoint.value))
      ensures r.Ok? ==> history == old(history) + [Durable(stored.checkpoint, old(stored.progress)), stored]
      ensures r.Ok? && |active| == |old(active)| + |batch.documents| ==> written == old(written) + batch.documents
      ensures r.Err? ==> stored == old(stored) && history == old(history) && file == old(file)
      ensures r.Err? ==> r.error == Refusal(old(active), run, audit, batch, progress)
    {
      hide InKeyOrder, SameCorpus, NoConflict, Merge, SaveOk, Serialized, ContainerOf, CheckpointAt, Savable;
      if progress.runId != run || progress.sourceDigest != audit.digest {
        return Err(InvalidArgument);
      }
      if !SameCorpus(active, audit) {
        return Err(DimensionMismatch);
      }
      var put := PutDocuments(batch.documents);
      if !put {
        return Err(AlreadyExists);
      }
      var checkpoint := BuildCheckpoint(active, progress.documents);
      SavableAny(active, progress.documents);
      var saved := Save(format, checkpoint);
      if saved.Err? {
        return Err(saved.error);
      }
      file := Some(saved.value);
      stored := stored.(checkpoint := Some(checkpoint));
      history := history + [stored];
      this.progress := Some(progress);
      stored := stored.(progress := Some(progress));
      history := history + [stored];
      return Ok(());
    }

    /** `finish`: the completed progress record is written once more. */
    method Finish(run: string, audit: CorpusAudit, progress: Progress) returns (r: Result<()>)
      requires Valid()
      modifies this`progress, this`stored, this`history
      ensures Valid() && (r.Ok? <==> progress.complete && progress.runId == run && progress.sourceDigest == audit.digest)
      ensures r.Ok? ==> stored == Durable(old(stored.checkpoint), Some(progress)) && history == old(history) + [stored]
      ensures r.Err? ==> stored == old(stored) && history == old(history) && r.error == InvalidArgument
    {
      if !progress.complete || progress.runId != run || progress.sourceDigest != audit.digest {
        return Err(InvalidArgument);
      }
      this.progress := Some(progress);
      stored := stored.(progress := Some(progress));
      history := history + [stored];
      return Ok(());
    }

    /** The loop over the batch: a document already there must be the same, a new one is put in its place. */
    method PutDocuments(docs: seq<Record>) returns (ok: bool)
      requires Valid()
      modifies this`active, this`written
      ensures Valid() && (ok <==> NoConflict(old(active), docs))
      ensures ok ==> active == Merge(old(active), docs)
      ensures ok && |active| == |old(active)| + |docs| ==> written == old(written) + docs
    {
      hide InKeyOrder, Emplace, IsFound, Merge, Clash;
      NothingMerged(active, docs);
      for i := 0 to |docs|
        invariant Valid() && active == Merge(old(active), docs[..i]) && |active| <= |old(active)| + i
        invariant |active| == |old(active)| + i ==> written == old(written) + docs[..i]
        invariant forall k :: 0 <= k < i ==> !Clash(Merge(old(active), docs[..k]), docs[k])
      {
        var record := docs[i];
        var found := FindRecord(active, KeyOf(record));
        MergeNext(old(active), docs, i);
        EmplaceFacts(active, record, found);
        if found.Some? {
          if found.value != record {
            return false;
          }
        } else {
          active := Emplace(active, record);
          written := written + [record];
          assert docs[..i + 1] == docs[..i] + [record];
        }
      }
      assert docs[..|docs|] == docs;
      return true;
    }
  }

  /** A destination as it was found: nothing has been written. */
  ghost predicate JustOpened(d: Destination, f: Format, file: Option<Blob>, progress: Option<Progress>)
    reads d
  {
    d.Valid() && d.format == f && d.file == file && d.stored.progress == progress && d.active == Held(d.stored) &&
    d.history == [] && d.written == []
  }

  /** Opening a destination: no file is an empty one; a saved file opens exactly when it loads, and shows the
      documents that were saved. */
  method Open(f: Format, file: Option<Blob>, progress: Option<Progress>, ghost c: EmbeddedCheckpoint) returns (r: Result<Destination>)
    requires Sorts(f.arrange)
    ensures r.Ok? ==> fresh(r.value) && JustOpened(r.value, f, file, progress)
    ensures file.None? ==> r.Ok? && r.value.active == []
    ensures Saved(f, c) && file == Some(FileBytes(f, c)) ==> (r.Ok? <==> Loadable(c))
    ensures Saved(f, c) && file == Some(FileBytes(f, c)) && r.Ok? ==> r.value.stored.checkpoint == Some(c)
    ensures file.Some? ==> (r.Ok? <==> LoadedFrom(f, file.value).Ok?)
    ensures r.Err? ==> file.Some? && r.error == LoadedFrom(f, file.value).error
    ensures file.Some? && r.Ok? ==> r.value.stored.checkpoint == Some(LoadedFrom(f, file.value).value)
  {
    hide LoadedFrom, InKeyOrder, Merge, Saved, Loadable, Serialized, ContainerOf, Sorts, RecordsOf, Consistent;
    if file.None? {
      var d := new Destination(f, [], None, progress, None);
      return Ok(d);
    }
    var loaded := Load(f, file.value, c);
    if loaded.Err? {
      return Err(loaded.error);
    }
    var records := RecordsOf(loaded.value.documents);
    var active := EmplaceAll(records);
    var d := new Destination(f, active, file, progress, Some(loaded.value));
    return Ok(d);
  }

  method EmplaceAll(records: seq<Record>) returns (active: seq<Record>)
    ensures InKeyOrder(active) && active == Merge([], records)
  {
    hide Emplace, Merge;
    NothingMerged([], records);
    active := [];
    for i := 0 to |records|
      invariant InKeyOrder(active) && active == Merge([], records[..i])
    {
      EmplaceOrder(active, records[i]);
      MergeNext([], records, i);
      active := Emplace(active, records[i]);
    }
    assert records[..|records|] == records;
  }

  lemma NothingMerged(s: seq<Record>, docs: seq<Record>)
    ensures Merge(s, docs[..0]) == s
  {
  }

  lemma MergeNext(s: seq<Record>, docs: seq<Record>, i: nat)
    requires i < |docs|
    ensures Merge(s, docs[..i + 1]) == Emplace(Merge(s, docs[..i]), docs[i])
  {
    assert docs[..i + 1][..i] == docs[..i];
  }

  lemma {:induction false} EmplaceLength(s: seq<Record>, r: Record)
    requires !Has(s, KeyOf(r))
    ensures |Emplace(s, r)| == |s| + 1
  {
    if s != [] && !KeyLess(KeyOf(r), KeyOf(s[0])) {
      assert KeyOf(s[0]) != KeyOf(r);
      forall i | 0 <= i < |s[1..]|
        ensures KeyOf(s[1..][i]) != KeyOf(r)
      {
        assert KeyOf(s[i + 1]) != KeyOf(r);
      }
      EmplaceLength(s[1..], r);
    }
  }

  // --------------------------------------------------------------------------- the copy

  datatype Report = Report(id: string, resumed: bool, batches: nat, sourceAudit: CorpusAudit, destinationAudit: CorpusAudit)

  predicate OptionsOk(direction: string, batchSize: nat, samples: nat) {
    direction != "" && 0 < batchSize <= 10_000 && samples <= 1_000
  }

  /** What a destination must be for the copy to be taken up. */
  ghost predicate MayCopy(h: Hashing, src: seq<Record>, active: seq<Record>, progress: Option<Progress>, direction: string,
                          batchSize: nat, samples: nat)
  {
    OptionsOk(direction, batchSize, samples) && AuditOk(h.prep, src) && IsPrefix(active, src) &&
    var digest := AuditOf(h, src).digest; Matches(progress, h.run(direction, digest), digest)
  }

  ghost function WhyNot(h: Hashing, src: seq<Record>, active: seq<Record>, progress: Option<Progress>, direction: string,
                        batchSize: nat, samples: nat): Errc
  {
    var digest := AuditOf(h, src).digest;
    if !OptionsOk(direction, batchSize, samples) then InvalidArgument
    else if !AuditOk(h.prep, src) then CorruptIndex
    else if !IsPrefix(active, src) || !Matches(progress, h.run(direction, digest), digest) then AlreadyExists
    else InvalidArgument
  }

  lemma AuditNames(prep: Preparation, s: seq<Record>)
    requires AuditOk(prep, s)
    ensures NamedRecords(s)
  {
    forall i | 0 <= i < |s|
      ensures KeyOf(s[i]) != ""
    {
      assert RecordOk(prep, s[i], s[0].document.embeddingIdentity, s[0].document.chunkingFingerprint, FirstDimension(s[0]));
    }
  }

  lemma PrefixCorpus(h: Hashing, src: seq<Record>, n: nat)
    requires n <= |src|
    ensures SameCorpus(src[..n], AuditOf(h, src))
  {
    assert n > 0 ==> src[..n][0] == src[0];
  }

  /** The progress record after the first `n` documents. */
  function ProgressAt(src: seq<Record>, n: nat, run: string, digest: string): Progress
    requires n <= |src|
  {
    Progress(run, digest, CursorAt(src, n), n, ChunkCount(src[..n]), n == |src|)
  }

  /** A state on the way: a prefix of the source under this run's progress. It can be taken up again exactly when
      its file is the one opened, or none of its line ranges is reversed. */
  ghost predicate OnTheWay(d: Durable, origin: Option<EmbeddedCheckpoint>, src: seq<Record>, run: string, digest: string) {
    IsPrefix(Held(d), src) && Matches(d.progress, run, digest) &&
    (Resumable(d, origin, src, run, digest) <==> d.checkpoint == origin || OrderedLines(Held(d)))
  }

  ghost predicate AllOnTheWay(history: seq<Durable>, origin: Option<EmbeddedCheckpoint>, src: seq<Record>, run: string, digest: string) {
    forall i :: 0 <= i < |history| ==> OnTheWay(history[i], origin, src, run, digest)
  }

  lemma {:induction false} MergeAll(s: seq<Record>)
    requires InKeyOrder(s)
    ensures Merge([], s) == s
  {
    MergeExtends(s, 0, |s|);
    assert s[..0] == [] && s[0..|s|] == s && s[..|s|] == s;
  }

  lemma SavedOnTheWay(prep: Preparation, src: seq<Record>, n: nat, progress: Option<Progress>, origin: Option<EmbeddedCheckpoint>,
                      run: string, digest: string)
    requires InKeyOrder(src) && AuditOk(prep, src) && n <= |src| && Savable(src[..n]) && Matches(progress, run, digest)
    ensures var d := Durable(Some(CheckpointAt(src[..n], n)), progress);
      Held(d) == src[..n] && OnTheWay(d, origin, src, run, digest)
  {
    hide AuditOk, SaveOk, Loadable, OrderedLines, Merge, RevisionsOf;
    var s := src[..n];
    assert InKeyOrder(s);
    EntriesBack(s);
    MergeAll(s);
    AuditedPrefix(prep, src, n);
    LoadableIff(prep, s, n);
  }

  /** What a batch leaves behind: one boundary further, or stopped by `save`. */
  method CopyBatch(h: Hashing, src: seq<Record>, dest: Destination, run: string, progress: Progress, batchSize: nat,
                   ghost n: nat, ghost origin: Option<EmbeddedCheckpoint>) returns (r: Result<Progress>)
    requires dest.Valid() && InKeyOrder(src) && AuditOk(h.prep, src) && batchSize > 0 && n < |src|
    requires dest.active == src[..n] && progress == ProgressAt(src, n, run, AuditOf(h, src).digest)
    requires Matches(dest.stored.progress, run, AuditOf(h, src).digest)
    modifies dest
    ensures dest.Valid() && (r.Err? ==> r.error == InvalidArgument)
    ensures var m := Min(n + batchSize, |src|); dest.active == src[..m] && (r.Ok? <==> Savable(src[..m]))
    ensures r.Ok? ==> var m := Min(n + batchSize, |src|);
      r.value == ProgressAt(src, m, run, AuditOf(h, src).digest) &&
      dest.stored == Durable(Some(CheckpointAt(src[..m], m)), Some(r.value)) &&
      dest.file == Some(FileBytes(dest.format, CheckpointAt(src[..m], m))) && dest.written == old(dest.written) + src[n..m]
    ensures |dest.history| >= |old(dest.history)| && dest.history[..|old(dest.history)|] == old(dest.history)
    ensures AllOnTheWay(dest.history[|old(dest.history)|..], origin, src, run, AuditOf(h, src).digest)
    ensures r.Err? ==> dest.stored == old(dest.stored) && dest.history == old(dest.history) && dest.file == old(dest.file)
  {
    hide InKeyOrder, ChunkCount, Merge, NoConflict, AuditOf, NamedRecords, SameCorpus, CursorAt, BatchAfter, AuditOk, Savable,
         SaveOk, CheckpointAt, FileBytes, OnTheWay;
    AuditNames(h.prep, src);
    NamedPrefix(src, n);
    var batch := ReadAfter(src, progress.lastDocument, batchSize, n);
    var chunks := CountChunks(batch.documents);
    var next := progress.(lastDocument := batch.nextCursor, complete := batch.complete,
                          documents := progress.documents + |batch.documents|, chunks := progress.chunks + chunks);
    ghost var m := next.documents;
    NextBatch(src, n, batchSize, batch);
    BatchCount(src, n, m);
    ExtendsWithoutConflict(src, n, m);
    PrefixCorpus(h, src, n);
    var audit := AuditOf(h, src);
    var written := dest.WriteBatch(run, audit, batch, next);
    if written.Err? {
      NoWay(origin, src, run, audit.digest);
      return Err(written.error);
    }
    SavedOnTheWay(h.prep, src, m, old(dest.stored.progress), origin, run, audit.digest);
    SavedOnTheWay(h.prep, src, m, Some(next), origin, run, audit.digest);
    assert dest.history[|old(dest.history)|..] == [Durable(dest.stored.checkpoint, old(dest.stored.progress)), dest.stored];
    return Ok(next);
  }

  lemma NamedPrefix(src: seq<Record>, n: nat)
    requires NamedRecords(src) && n <= |src|
    ensures NamedRecords(src[..n])
  {
  }

  lemma NextBatch(src: seq<Record>, n: nat, limit: nat, b: Batch)
    requires BatchAfter(src, n, limit, b) && limit > 0 && n < |src|
    ensures n < n + |b.documents| == Min(n + limit, |src|) && b.documents == src[n..n + |b.documents|]
    ensures b.nextCursor == CursorAt(src, n + |b.documents|) && (b.complete <==> n + |b.documents| == |src|)
  {
  }

  // ----------------------------------------------------------------------- where it stops

  function Boundary(src: seq<Record>, from: nat, limit: nat, rounds: nat): (n: nat)
    ensures n <= |src|
  {
    Min(from + rounds * limit, |src|)
  }

  /** The state after `rounds` batches that were all saved, the last one ending at `n`. */
  ghost predicate Reached(src: seq<Record>, from: nat, limit: nat, rounds: nat, n: nat, before: Durable, stored: Durable,
                          run: string, digest: string)
  {
    n == Boundary(src, from, limit, rounds) && (rounds > 0 ==> from < |src| && Savable(src[..n])) &&
    stored == if rounds == 0 then before
              else Durable(Some(CheckpointAt(src[..n], n)), Some(ProgressAt(src, n, run, digest)))
  }

  /** After `rounds` batches the next one is the first that `save` refuses: it stays in memory, and the files are at
      the boundary before it. */
  ghost predicate StoppedAs(src: seq<Record>, from: nat, limit: nat, rounds: nat, before: Durable, active: seq<Record>,
                            stored: Durable, run: string, digest: string)
  {
    var n := Boundary(src, from, limit, rounds);
    Reached(src, from, limit, rounds, n, before, stored, run, digest) && n < |src| &&
    active == src[..Boundary(src, from, limit, rounds + 1)] && !Savable(active)
  }

  lemma ReachedNext(src: seq<Record>, from: nat, limit: nat, rounds: nat, n: nat, before: Durable, stored: Durable,
                    next: Durable, run: string, digest: string)
    requires Reached(src, from, limit, rounds, n, before, stored, run, digest) && n < |src|
    requires var m := Min(n + limit, |src|);
      Savable(src[..m]) && next == Durable(Some(CheckpointAt(src[..m], m)), Some(ProgressAt(src, m, run, digest)))
    ensures Reached(src, from, limit, rounds + 1, Min(n + limit, |src|), before, next, run, digest)
  {
    hide Savable, CheckpointAt, CursorAt, ChunkCount;
    assert (rounds + 1) * limit == rounds * limit + limit;
  }

  lemma ReachedStop(src: seq<Record>, from: nat, limit: nat, rounds: nat, n: nat, before: Durable, stored: Durable,
                    active: seq<Record>, run: string, digest: string)
    requires Reached(src, from, limit, rounds, n, before, stored, run, digest) && n < |src| && InKeyOrder(src)
    requires active == src[..Min(n + limit, |src|)] && !Savable(active)
    ensures StoppedAs(src, from, limit, rounds, before, active, stored, run, digest) && !Savable(src)
  {
    hide Savable, CheckpointAt, CursorAt, ChunkCount, InKeyOrder;
    assert (rounds + 1) * limit == rounds * limit + limit;
    RefusedPart(src, Min(n + limit, |src|));
  }

  lemma ReachedEnd(src: seq<Record>, from: nat, limit: nat, rounds: nat, before: Durable, stored: Durable,
                   run: string, digest: string)
    requires Reached(src, from, limit, rounds, |src|, before, stored, run, digest) && limit > 0 && from <= |src|
    ensures if rounds == 0 then from == |src| && stored == before
            else from < |src| && Savable(src) && stored.checkpoint == Some(CheckpointAt(src, |src|))
  {
    hide Savable, CheckpointAt, CursorAt, ChunkCount;
    assert src[..|src|] == src;
  }

  /** The copy loop, from wherever the destination stands. */
  method CopyAll(h: Hashing, src: seq<Record>, dest: Destination, run: string, start: Progress, batchSize: nat)
    returns (r: Result<nat>, ghost rounds: nat)
    requires dest.Valid() && InKeyOrder(src) && AuditOk(h.prep, src) && batchSize > 0 && IsPrefix(dest.active, src)
    requires start == Progress(run, AuditOf(h, src).digest, CursorAt(dest.active, |dest.active|), |dest.active|,
                               ChunkCount(dest.active), dest.active == src)
    requires Matches(dest.stored.progress, run, AuditOf(h, src).digest) && dest.history == []
    modifies dest
    ensures dest.Valid() && (r.Err? ==> r.error == InvalidArgument)
    ensures r.Ok? <==> old(dest.active) == src || Savable(src)
    ensures AllOnTheWay(dest.history, old(dest.stored.checkpoint), src, run, AuditOf(h, src).digest)
    ensures r.Ok? ==> dest.active == src && Matches(dest.stored.progress, run, AuditOf(h, src).digest)
    ensures r.Ok? ==> dest.written == old(dest.written) + src[|old(dest.active)|..]
    ensures r.Ok? && old(dest.active) == src ==> dest.stored == old(dest.stored) && dest.file == old(dest.file)
    ensures r.Ok? && old(dest.active) != src ==> dest.stored.checkpoint == Some(CheckpointAt(src, |src|))
    ensures r.Ok? && old(dest.active) != src ==> dest.file == Some(FileBytes(dest.format, CheckpointAt(src, |src|)))
    ensures r.Err? ==> StoppedAs(src, |old(dest.active)|, batchSize, rounds, old(dest.stored), dest.active, dest.stored, run,
                                 AuditOf(h, src).digest)
  {
    hide InKeyOrder, AuditOf, ChunkCount, CursorAt, IsPrefix, AllOnTheWay, AuditOk, Savable, CheckpointAt, FileBytes, Reached,
         StoppedAs;
    rounds := 0;
    var batches := 0;
    var progress := start;
    ghost var digest, from, before := AuditOf(h, src).digest, |dest.active|, dest.stored;
    ghost var origin := before.checkpoint;
    StartsAt(src, dest.active, run, digest, origin);
    NothingReached(src, from, batchSize, before, run, digest);
    while !progress.complete
      invariant dest.Valid() && from <= progress.documents <= |src| && dest.active == src[..progress.documents]
      invariant progress == ProgressAt(src, progress.documents, run, digest) && Matches(dest.stored.progress, run, digest)
      invariant Reached(src, from, batchSize, rounds, progress.documents, before, dest.stored, run, digest)
      invariant if rounds == 0 then dest.file == old(dest.file)
                else dest.file == Some(FileBytes(dest.format, CheckpointAt(dest.active, |dest.active|)))
      invariant AllOnTheWay(dest.history, origin, src, run, digest)
      invariant dest.written == old(dest.written) + src[from..progress.documents]
      decreases |src| - progress.documents
    {
      ghost var n, log, stored := progress.documents, dest.history, dest.stored;
      ghost var m := Min(n + batchSize, |src|);
      var next := CopyBatch(h, src, dest, run, progress, batchSize, n, origin);
      if next.Err? {
        assert from < |src| && old(dest.active) != src;
        ReachedStop(src, from, batchSize, rounds, n, before, stored, dest.active, run, digest);
        return Err(next.error), rounds;
      }
      ReachedNext(src, from, batchSize, rounds, n, before, stored, dest.stored, run, digest);
      progress := next.value;
      WayConcat(log, dest.history[|log|..], origin, src, run, digest);
      assert dest.history == log + dest.history[|log|..];
      assert src[from..n] + src[n..m] == src[from..m];
      batches, rounds := batches + 1, rounds + 1;
    }
    assert src[..|src|] == src;
    ReachedEnd(src, from, batchSize, rounds, before, dest.stored, run, digest);
    return Ok(batches), rounds;
  }

  lemma NothingReached(src: seq<Record>, from: nat, limit: nat, before: Durable, run: string, digest: string)
    requires from <= |src|
    ensures Reached(src, from, limit, 0, from, before, before, run, digest)
  {
  }

  lemma RefusedPart(src: seq<Record>, n: nat)
    requires InKeyOrder(src) && n <= |src| && !Savable(src[..n])
    ensures !Savable(src)
  {
    hide Savable;
    if Savable(src) {
      SavablePrefix(src, n);
    }
  }

  lemma WayConcat(a: seq<Durable>, b: seq<Durable>, origin: Option<EmbeddedCheckpoint>, src: seq<Record>, run: string, digest: string)
    requires AllOnTheWay(a, origin, src, run, digest) && AllOnTheWay(b, origin, src, run, digest)
    ensures AllOnTheWay(a + b, origin, src, run, digest)
  {
    hide OnTheWay;
  }

  lemma StartsAt(src: seq<Record>, active: seq<Record>, run: string, digest: string, origin: Option<EmbeddedCheckpoint>)
    requires IsPrefix(active, src)
    ensures |active| <= |src| && active == src[..|active|] && AllOnTheWay([], origin, src, run, digest)
    ensures Progress(run, digest, CursorAt(active, |active|), |active|, ChunkCount(active), active == src) ==
            ProgressAt(src, |active|, run, digest)
  {
    assert |active| == |src| ==> src[..|active|] == src;
  }

  /** The destination is the source, in memory and in its files, and both audits agree on every count. */
  ghost predicate Copied(h: Hashing, src: seq<Record>, active: seq<Record>, stored: Durable, report: Report, direction: string) {
    active == src && Held(stored) == src && stored.progress == Some(ProgressAt(src, |src|, report.id, report.sourceAudit.digest)) &&
    report.sourceAudit == AuditOf(h, src) && report.destinationAudit == report.sourceAudit &&
    report.id == h.run(direction, report.sourceAudit.digest)
  }

  lemma FinishedOnTheWay(prep: Preparation, src: seq<Record>, d: Durable, origin: Option<EmbeddedCheckpoint>, run: string, digest: string)
    requires InKeyOrder(src) && AuditOk(prep, src) && Matches(d.progress, run, digest)
    requires (d.checkpoint == origin && Held(d) == src) || (Savable(src) && d.checkpoint == Some(CheckpointAt(src, |src|)))
    ensures Held(d) == src && OnTheWay(d, origin, src, run, digest)
  {
    hide AuditOk, Savable, CheckpointAt, InKeyOrder, Merge, SaveOk, Loadable, OrderedLines;
    assert src[..|src|] == src;
    if Savable(src) && d.checkpoint == Some(CheckpointAt(src, |src|)) {
      SavedOnTheWay(prep, src, |src|, d.progress, origin, run, digest);
    }
  }

  /** `migrate`. It copies if and only if the options are in range, the source passes its audit, the destination is
      a source prefix, any progress record is this run's own, and `save` accepts the whole source (unless nothing is
      missing). Then the missing documents are written once each in key order, and both ends audit alike. A copy
      that may not start changes nothing; one that `save` stops leaves the last batch boundary that could be saved.
      Every state the files went through is a source prefix, and can be taken up again exactly when its file is the
      one opened or none of its line ranges is reversed. */
  method Migrate(h: Hashing, src: seq<Record>, dest: Destination, direction: string, batchSize: nat, samples: nat)
    returns (r: Result<Report>, ghost rounds: nat)
    requires dest.Valid() && dest.active == Held(dest.stored) && dest.history == [] && InKeyOrder(src)
    modifies dest
    ensures dest.Valid()
    ensures r.Err? ==> r.error == WhyNot(h, src, old(dest.active), old(dest.progress), direction, batchSize, samples)
    ensures r.Ok? <==> MayCopy(h, src, old(dest.active), old(dest.progress), direction, batchSize, samples) &&
                       (old(dest.active) == src || Savable(src))
    ensures r.Ok? ==> Copied(h, src, dest.active, dest.stored, r.value, direction)
    ensures r.Ok? && old(dest.active) != src ==> dest.file == Some(FileBytes(dest.format, CheckpointAt(src, |src|)))
    ensures r.Ok? ==> dest.written == old(dest.written) + src[|old(dest.active)|..]
    ensures r.Ok? ==> r.value.resumed == (old(dest.progress).Some? || old(dest.active) != [])
    ensures var digest := AuditOf(h, src).digest;
      AllOnTheWay(dest.history, old(dest.stored.checkpoint), src, h.run(direction, digest), digest)
    ensures !MayCopy(h, src, old(dest.active), old(dest.progress), direction, batchSize, samples) ==>
      dest.active == old(dest.active) && dest.stored == old(dest.stored) && dest.file == old(dest.file) && dest.history == []
    ensures r.Err? && MayCopy(h, src, old(dest.active), old(dest.progress), direction, batchSize, samples) ==>
      var digest := AuditOf(h, src).digest;
      StoppedAs(src, |old(dest.active)|, batchSize, rounds, old(dest.stored), dest.active, dest.stored, h.run(direction, digest), digest)
  {
    hide InKeyOrder, NamedRecords, AuditOk, AuditOf, ChunkCount, CursorAt, IsPrefix, AllOnTheWay, Savable, CheckpointAt, FileBytes,
         StoppedAs, Merge;
    rounds := 0;
    NoWay(dest.stored.checkpoint, src, h.run(direction, AuditOf(h, src).digest), AuditOf(h, src).digest);
    if direction == "" || batchSize == 0 || batchSize > 10_000 || samples > 1_000 {
      return Err(InvalidArgument), 0;
    }
    var audited := Audit(h, src, batchSize);
    if audited.Err? {
      return Err(audited.error), 0;
    }
    AuditNames(h.prep, src);
    var audit := audited.value;
    var run := h.run(direction, audit.digest);
    var prior := dest.progress;
    if prior.Some? && prior.value.runId != run {
      return Err(AlreadyExists), 0;
    }
    var reconciled := Reconcile(src, dest.active, run, audit.digest, batchSize);
    if reconciled.Err? {
      return Err(reconciled.error), 0;
    }
    var progress := reconciled.value;
    if prior.Some? && prior.value.sourceDigest != audit.digest {
      return Err(AlreadyExists), 0;
    }
    var resumed := prior.Some? || progress.documents != 0;
    ghost var origin := dest.stored.checkpoint;
    var copied;
    copied, rounds := CopyAll(h, src, dest, run, progress, batchSize);
    if copied.Err? {
      return Err(copied.error), rounds;
    }
    var done := ProgressAt(src, |src|, run, audit.digest);
    ghost var log := dest.history;
    var finished := dest.Finish(run, audit, done);
    FinishedOnTheWay(h.prep, src, dest.stored, origin, run, audit.digest);
    OneOnTheWay(dest.stored, origin, src, run, audit.digest);
    WayConcat(log, [dest.stored], origin, src, run, audit.digest);
    var finalSource := Audit(h, src, batchSize);
    if finalSource.value != audit {
      return Err(AlreadyExists), rounds;
    }
    var destination := Audit(h, dest.active, batchSize);
    if destination != Ok(audit) {
      return Err(CorruptIndex), rounds;
    }
    return Ok(Report(run, resumed, copied.value, audit, destination.value)), rounds;
  }

  lemma NoWay(origin: Option<EmbeddedCheckpoint>, src: seq<Record>, run: string, digest: string)
    ensures AllOnTheWay([], origin, src, run, digest)
  {
  }

  lemma OneOnTheWay(d: Durable, origin: Option<EmbeddedCheckpoint>, src: seq<Record>, run: string, digest: string)
    requires OnTheWay(d, origin, src, run, digest)
    ensures AllOnTheWay([d], origin, src, run, digest)
  {
  }
}
