/** The embedded backend: revision arbitration over immutable generations, optimistic compaction and
    checkpoint restore. A generation is held by reference, since publication compares identities. */
module Backend {
  import opened Wrappers
  import opened Documents
  import opened Sorting
  import opened KeyLists
  import opened Dense
  import opened TieredIndex
  import opened Generations
  import opened GenerationSafety
  import opened Compaction
  import opened Validation
  import opened Serving

  /** A shared, immutable generation. */
  class Shared {
    const value: Generation
    constructor (g: Generation)
      ensures value == g
    {
      value := g;
    }
  }

  datatype CheckpointEntry = CheckpointEntry(prepared: PreparedDocument, revision: nat)

  datatype EmbeddedCheckpoint = EmbeddedCheckpoint(
    generation: nat, walPosition: nat, revisions: map<DocKey, nat>, documents: seq<CheckpointEntry>)

  /** A checkpoint holds the catalog: every active document once, under its revision. */
  ghost predicate CheckpointOf(c: EmbeddedCheckpoint, view: Catalog) {
    c.revisions == view.revisions && EntriesOf(c.documents, view.documents)
  }

  ghost predicate EntriesOf(entries: seq<CheckpointEntry>, docs: Docs) {
    (forall i, j :: 0 <= i < j < |entries| ==> entries[i].prepared.key != entries[j].prepared.key) &&
    (forall e :: e in entries ==> e.prepared.key in docs && docs[e.prepared.key] == Active(e.revision, e.prepared)) &&
    (forall d :: d in docs ==> CheckpointEntry(docs[d].prepared, docs[d].revision) in entries)
  }

  /** Every active document passed validation, and catalog entries are well formed. */
  ghost predicate Accepted(prep: Preparation, view: Catalog) {
    CatalogOk(view) &&
    (forall d :: d in view.revisions ==> d != "" && view.revisions[d] != 0) &&
    (forall d :: d in view.documents ==> ValidDocument(prep, view.documents[d].prepared, view.documents[d].revision))
  }

  lemma AcceptedVectors(prep: Preparation, view: Catalog)
    requires Accepted(prep, view)
    ensures Vectors(view.documents)
  {
    hide Normalized;
    forall d, c | ChunkOf(view.documents, d, c)
      ensures c.key != "" && (c.embedding != [] ==> Normalized(c.embedding))
    {
      var p := view.documents[d].prepared;
      var i :| 0 <= i < |p.chunks| && p.chunks[i] == c;
      assert ValidChunk(prep, p, i);
    }
  }

  /** The tombstones after hiding the visible base rows of a document that are not kept. */
  method HideRows(docs: Docs, t: Tiered, d: DocKey, kept: set<string>) returns (tombstones: set<string>)
    ensures tombstones == t.tombstones + Hidden(docs, t, d, kept)
  {
    tombstones := t.tombstones;
    if d in docs {
      var chunks := docs[d].prepared.chunks;
      for i := 0 to |chunks|
        invariant tombstones == t.tombstones + HiddenAmong(chunks[..i], t, kept)
      {
        assert chunks[..i + 1] == chunks[..i] + [chunks[i]];
        if ContainsBase(t, chunks[i].key) && chunks[i].key !in kept {
          tombstones := tombstones + {chunks[i].key};
        }
      }
      assert chunks[..|chunks|] == chunks;
    }
  }

  function HiddenAmong(chunks: seq<PreparedChunk>, t: Tiered, kept: set<string>): set<string> {
    set c | c in chunks && ContainsBase(t, c.key) && c.key !in kept :: c.key
  }

  /** The generation after one document was replaced or removed. */
  method NextGeneration(g: Generation, docs': Docs, d: DocKey, kept: set<string>, delta': set<DocKey>)
    returns (r: Result<Generation>)
    requires GenOk(g) && Elsewhere(g.documents, docs', d) && kept == DocKeys(docs', d)
    requires delta' == if d in docs' then g.deltaDocuments + {d} else g.deltaDocuments - {d}
    ensures r.Ok? ==> GenOk(r.value) && r.value.documents == docs' && r.value.number == g.number + 1
    ensures r.Ok? ==> r.value.dense.base == g.dense.base && r.value.deltaDocuments == delta'
    ensures r.Ok? ==> r.value.dense.tombstones == g.dense.tombstones + Hidden(g.documents, g.dense, d, kept)
    ensures Vectors(docs') ==> (r.Ok? <==> Serves(g.dense.base.dimension, docs'))
    ensures r.Ok? ==> Buildable(docs')
  {
    hide GenOk, Vectors, TiersOk, DenseOf, DeltaRow, DocKeys, Hidden, Buildable, FitsDimension;
    GenerationFacts(g);
    var tombstones := HideRows(g.documents, g.dense, d, kept);
    HiddenIsBase(g.documents, g.dense, d, kept);
    r := BuildGeneration(docs', g.dense, delta', tombstones, g.number + 1);
    if r.Ok? {
      ReplaceKeeps(g, r.value, docs', d, delta');
    }
  }

  /** The base rows of one document that it no longer has are hidden, and the delta covers it while it is there. */
  ghost predicate Overlaid(g: Generation, g': Generation, d: DocKey) {
    g'.dense.tombstones == g.dense.tombstones + Hidden(g.documents, g.dense, d, DocKeys(g'.documents, d)) &&
    g'.deltaDocuments == if d in g'.documents then g.deltaDocuments + {d} else g.deltaDocuments - {d}
  }

  lemma NewRevision(view: Catalog, d: DocKey, revision: nat)
    requires d in view.revisions ==> revision > view.revisions[d]
    ensures view.revisions[d := revision] != view.revisions
  {
    assert d in view.revisions[d := revision] && view.revisions[d := revision][d] == revision;
  }

  lemma HiddenIsBase(docs: Docs, t: Tiered, d: DocKey, kept: set<string>)
    requires TiersOk(t)
    ensures t.tombstones + Hidden(docs, t, d, kept) <= t.base.keys
  {
  }

  lemma AcceptedNext(prep: Preparation, view: Catalog, p: PreparedDocument, revision: nat)
    requires Accepted(prep, view) && ValidDocument(prep, p, revision)
    ensures Accepted(prep, Catalog(view.revisions[p.key := revision], view.documents[p.key := Active(revision, p)]))
  {
    hide ValidChunk, DistinctKeys, SameDimension;
  }

  lemma AcceptedWithout(prep: Preparation, view: Catalog, d: DocKey, revision: nat)
    requires Accepted(prep, view) && d != "" && revision != 0
    ensures Accepted(prep, Catalog(view.revisions[d := revision], view.documents - {d}))
  {
    hide ValidDocument;
  }

  /** What holds of every generation a backend has made active. */
  ghost predicate Servable(g: Generation) { GenOk(g) && Buildable(g.documents) && Vectors(g.documents) }

  lemma BaseOfItself(g: Generation)
    requires GenOk(g) && Buildable(g.documents)
    ensures Serves(g.dense.base.dimension, g.documents)
  {
    hide KeysAreUnique, StoredAs, Placed, LiveKeys, Buildable;
    OnItsBase(g.documents, g.dense);
  }

  class EmbeddedBackend {
    const prep: Preparation
    const compactionBudget: nat
    var latestRevisions: map<DocKey, nat>
    var active: Shared

    ghost function View(): Catalog
      reads this
    {
      Catalog(latestRevisions, active.value.documents)
    }

    ghost predicate Valid()
      reads this
    {
      GenOk(active.value) && Accepted(prep, View()) && Buildable(View().documents)
    }

    /** What is active can be built on the active base. */
    lemma ActiveServes()
      requires Valid()
      ensures Serves(active.value.dense.base.dimension, View().documents)
    {
      hide GenOk, Buildable, FitsDimension, Accepted;
      BaseOfItself(active.value);
    }

    constructor (prep: Preparation, budget: nat)
      ensures Valid() && View() == EmptyCatalog && this.prep == prep && compactionBudget == budget
      ensures fresh(active) && active.value == EmptyGeneration
    {
      this.prep := prep;
      compactionBudget := budget;
      latestRevisions := map[];
      active := new Shared(EmptyGeneration);
      new;
      EmptyOk();
      NothingToBuild();
    }

    /** A newer valid document whose catalog can be built replaces the old one; anything else leaves the backend as
        it was. */
    method Activate(p: PreparedDocument, revision: nat) returns (r: Result<()>)
      requires Valid()
      modifies this
      ensures Valid()
      ensures r.Ok? ==> ValidDocument(prep, p, revision) && Documents.Activate(old(View()), p, revision) == Ok(View())
      ensures r.Err? ==> View() == old(View()) && active == old(active)
      ensures r.Ok? && View() != old(View()) ==> fresh(active) && active.value.number == old(active.value.number) + 1
      ensures active.value.dense.base == old(active.value.dense.base) && (View() == old(View()) ==> active == old(active))
      ensures r.Ok? && View() != old(View()) ==> Overlaid(old(active.value), active.value, p.key)
      ensures ValidDocument(prep, p, revision) && Documents.Activate(old(View()), p, revision).Err? ==> r == Err(AlreadyExists)
      ensures r.Ok? <==> MayActivate(prep, old(View()), p, revision, old(active.value.dense.base))
    {
      hide GenOk, ValidDocument, Buildable, FitsDimension, Accepted, Vectors;
      BaseOfItself(active.value);
      var valid := Validate(prep, p, revision);
      if valid.Err? {
        return Err(valid.error);
      }
      var current := active.value;
      if p.key in latestRevisions && revision <= latestRevisions[p.key] {
        if revision == latestRevisions[p.key] && p.key in current.documents &&
           current.documents[p.key].revision == revision &&
           current.documents[p.key].prepared.contentHash == p.contentHash {
          return Ok(());
        }
        return Err(AlreadyExists);
      }
      var documents := current.documents[p.key := Active(revision, p)];
      var kept := set c | c in p.chunks :: c.key;
      var next := NextGeneration(current, documents, p.key, kept, current.deltaDocuments + {p.key});
      NewRevision(View(), p.key, revision);
      AcceptedNext(prep, View(), p, revision);
      AcceptedVectors(prep, Catalog(latestRevisions[p.key := revision], documents));
      if next.Err? {
        return Err(next.error);
      }
      latestRevisions := latestRevisions[p.key := revision];
      active := new Shared(next.value);
      return Ok(());
    }

    /** A newer deletion removes the document; anything else leaves the backend as it was. */
    method Erase(d: DocKey, revision: nat) returns (r: Result<bool>)
      requires Valid()
      modifies this
      ensures Valid()
      ensures r.Ok? ==> d != "" && revision != 0 && Documents.Erase(old(View()), d, revision) == Ok((View(), r.value))
      ensures r.Err? ==> View() == old(View()) && active == old(active)
      ensures r.Ok? && View() != old(View()) ==> fresh(active) && active.value.number == old(active.value.number) + 1
      ensures active.value.dense.base == old(active.value.dense.base) && (View() == old(View()) ==> active == old(active))
      ensures r.Ok? && View() != old(View()) ==> Overlaid(old(active.value), active.value, d)
      ensures d == "" || revision == 0 ==> r == Err(InvalidArgument)
      ensures d != "" && revision != 0 && Documents.Erase(old(View()), d, revision).Err? ==> r == Err(AlreadyExists)
      ensures r.Ok? <==> d != "" && revision != 0 && Documents.Erase(old(View()), d, revision).Ok?
    {
      hide GenOk, Buildable, FitsDimension, Accepted, Vectors;
      BaseOfItself(active.value);
      BuildableWithout(active.value.documents, active.value.dense.base.dimension, d);
      if d == "" || revision == 0 {
        return Err(InvalidArgument);
      }
      var current := active.value;
      if d in latestRevisions && revision <= latestRevisions[d] {
        if revision == latestRevisions[d] && d !in current.documents {
          return Ok(false);
        }
        return Err(AlreadyExists);
      }
      var removed := d in current.documents;
      var documents := current.documents - {d};
      var next := NextGeneration(current, documents, d, {}, current.deltaDocuments - {d});
      NewRevision(View(), d, revision);
      AcceptedWithout(prep, View(), d, revision);
      AcceptedVectors(prep, Catalog(latestRevisions[d := revision], documents));
      if next.Err? {
        assert false;
      }
      latestRevisions := latestRevisions[d := revision];
      active := new Shared(next.value);
      return Ok(removed);
    }

    /** The stored chunks under the live keys asked for, in the order asked, with the text and the embedding
        the document in the catalog has. The corruption errors of the source cannot occur. */
    method Fetch(keys: seq<string>, includeText: bool, includeEmbedding: bool) returns (r: Result<seq<Fetched>>)
      requires Valid()
      ensures r.Ok? && |r.value| == |Present(keys, View().documents)|
      ensures forall i :: 0 <= i < |r.value| ==>
        FetchedFrom(View().documents, Present(keys, View().documents)[i], includeText, includeEmbedding, r.value[i])
    {
      hide GenOk, Accepted, LiveKeys, Buildable, FetchedFrom;
      GenerationFacts(active.value);
      var g := active.value;
      var output: seq<Fetched> := [];
      for i := 0 to |keys|
        invariant |output| == |Present(keys[..i], g.documents)|
        invariant forall j :: 0 <= j < |output| ==>
          FetchedFrom(g.documents, Present(keys[..i], g.documents)[j], includeText, includeEmbedding, output[j])
      {
        hide FetchedFrom;
        assert keys[..i + 1][..i] == keys[..i];
        if keys[i] in g.chunks {
          FetchSound(prep, View(), g, keys[i], includeText, includeEmbedding);
          var stored := g.chunks[keys[i]];
          var shown := if includeText then stored else stored.(text := "", context := "");
          var embedding := [];
          if includeEmbedding {
            if stored.document !in g.documents || stored.ordinal >= |g.documents[stored.document].prepared.chunks| {
              return Err(CorruptIndex);
            }
            var prepared := g.documents[stored.document].prepared.chunks[stored.ordinal];
            if prepared.key != keys[i] {
              return Err(CorruptIndex);
            }
            embedding := prepared.embedding;
          }
          output := output + [Fetched(shown, embedding)];
        }
      }
      assert keys[..|keys|] == keys;
      return Ok(output);
    }

    /** The first half of `compact`, run without the lock on the generation that was active then. */
    method BuildCompacted(snapshot: Shared, overrideBudget: bool) returns (r: Result<Generation>)
      requires Servable(snapshot.value)
      ensures r.Ok? ==> CompactionOf(snapshot.value, r.value)
      ensures r.Ok? <==> overrideBudget || CompactionBytes(snapshot.value) <= compactionBudget
      ensures r.Err? ==> r.error == Unavailable
    {
      hide KeysAreUnique, Uniform, LiveKeys, Buildable, Vectors, DeltaOf, Placed, IndexOk, TiersOk, StoredAs;
      var g := snapshot.value;
      if !overrideBudget && CompactionBytes(g) > compactionBudget {
        return Err(Unavailable);
      }
      var keys := InOrder(g.documents.Keys);
      var rows := GatherRows(g.documents, keys);
      r := Rebase(g.documents, rows, g.dimension, g.number + 1);
    }

    /** The second half: under the lock, and only if the very generation it was built from is still active. */
    method PublishCompacted(snapshot: Shared, compacted: Generation) returns (r: Result<()>)
      requires Valid() && CompactionOf(snapshot.value, compacted)
      modifies this`active
      ensures Valid() && View() == old(View())
      ensures r.Ok? <==> old(active) == snapshot
      ensures r.Ok? ==> fresh(active) && active.value == compacted
      ensures r.Err? ==> r == Err(Unavailable) && active == old(active)
    {
      hide GenOk, Accepted;
      if active != snapshot {
        return Err(Unavailable);
      }
      active := new Shared(compacted);
      return Ok(());
    }

    /** The catalog as it is written, read under the lock together with the active generation. */
    method Checkpoint(walPosition: nat) returns (c: EmbeddedCheckpoint)
      requires Valid()
      ensures CheckpointOf(c, View()) && c.generation == active.value.number && c.walPosition == walPosition
    {
      hide GenOk, ValidDocument, EntriesOf;
      var docs := active.value.documents;
      var keys := InOrder(docs.Keys);
      var entries := [];
      for i := 0 to |keys|
        invariant |entries| == i
        invariant forall j :: 0 <= j < i ==> entries[j] == CheckpointEntry(docs[keys[j]].prepared, docs[keys[j]].revision)
      {
        entries := entries + [CheckpointEntry(docs[keys[i]].prepared, docs[keys[i]].revision)];
      }
      EntriesListed(entries, keys, docs);
      return EmbeddedCheckpoint(active.value.number, walPosition, latestRevisions, entries);
    }

    /** Restoring replaces everything. A checkpoint of any catalog that a backend can have is restored to that
        catalog. */
    method RestoreCheckpoint(c: EmbeddedCheckpoint, ghost view: Catalog) returns (r: Result<()>)
      requires Valid()
      modifies this
      ensures Valid()
      ensures r.Ok? ==> CheckpointOf(c, View()) && active.value.number == c.generation && fresh(active)
      ensures r.Ok? ==> active.value.dense.deltaKeys == {} && active.value.dense.tombstones == {}
      ensures r.Ok? ==> active.value.dense.base.dimension == DimensionIn(View().documents)
      ensures r.Err? ==> View() == old(View()) && active == old(active) && r.error == CorruptIndex
      ensures CheckpointOf(c, view) && Accepted(prep, view) && Buildable(view.documents) ==> r.Ok? && View() == view
    {
      hide GenOk, Accepted, Vectors, EntriesOf, AllRows, DimensionOf, Settled, KeysAreUnique, LiveKeys, OneDimension, DimensionIn;
      var read := ReadCheckpoint(prep, c, view);
      if read.Err? {
        return Err(read.error);
      }
      var documents := read.value;
      var keys := seq(|c.documents|, i requires 0 <= i < |c.documents| => c.documents[i].prepared.key);
      AcceptedKeys(prep, Catalog(c.revisions, documents));
      EntryKeys(c.documents, keys, documents);
      var rows := GatherRows(documents, keys);
      if OneDimension(documents) {
        FirstDimension(documents, rows);
        OwnDimension(documents, if rows == [] then 0 else |rows[0].vector|);
      }
      AcceptedVectors(prep, Catalog(c.revisions, documents));
      var restored := Rebase(documents, rows, if rows == [] then 0 else |rows[0].vector|, c.generation);
      if restored.Err? {
        return Err(CorruptIndex);
      }
      latestRevisions := c.revisions;
      active := new Shared(restored.value);
      return Ok(());
    }
  }

  datatype Fetched = Fetched(chunk: StoredChunk, embedding: Vector)

  function Present(keys: seq<string>, docs: Docs): seq<string> { Filter(keys, (k: string) => k in LiveKeys(docs)) }

  ghost predicate FetchedFrom(docs: Docs, key: string, text: bool, embedding: bool, f: Fetched) {
    exists d, c :: ChunkOf(docs, d, c) && c.key == key &&
      f.chunk.key == key && f.chunk.document == d && f.chunk.revision == docs[d].revision && f.chunk.ordinal == c.ordinal &&
      f.chunk.title == docs[d].prepared.title && f.chunk.metadata == docs[d].prepared.metadata &&
      f.chunk.startLine == c.startLine && f.chunk.endLine == c.endLine &&
      f.chunk.text == (if text then c.text else "") && f.chunk.context == (if text then c.context else "") &&
      f.embedding == if embedding then c.embedding else []
  }

  /** The catalog entry a stored chunk points to is the chunk itself. */
  lemma FetchSound(prep: Preparation, view: Catalog, g: Generation, key: string, text: bool, embedding: bool)
    requires GenOk(g) && Accepted(prep, view) && view.documents == g.documents && key in g.chunks
    ensures var s := g.chunks[key];
      s.document in g.documents && s.ordinal < |g.documents[s.document].prepared.chunks| &&
      var c := g.documents[s.document].prepared.chunks[s.ordinal];
      c.key == key &&
      FetchedFrom(g.documents, key, text, embedding,
                  Fetched(if text then s else s.(text := "", context := ""), if embedding then c.embedding else []))
  {
    hide LiveKeys, TiersOk, KeysAreUnique, Placed, Normalized;
    var d, c := LiveWitness(g.documents, key);
    var p := g.documents[d].prepared;
    var i :| 0 <= i < |p.chunks| && p.chunks[i] == c;
    assert ValidChunk(prep, p, i);
  }

  const FLOAT_BYTES := 4

  function CompactionBytes(g: Generation): nat { |g.chunks| * g.dimension * FLOAT_BYTES }

  /** The same documents, all in the base. */
  ghost predicate CompactionOf(g: Generation, g': Generation) {
    GenOk(g') && g'.documents == g.documents && g'.dimension == g.dimension && g'.number == g.number + 1 &&
    g'.dense.deltaKeys == {} && g'.dense.tombstones == {} && g'.dense.base.dimension == g.dimension &&
    forall row :: row in g'.dense.base.index.rows ==> DeltaOf(g.documents, g.documents.Keys, row)
  }

  /** The document is valid, its revision is not stale, and the catalog with it can be built on the base. */
  ghost predicate MayActivate(prep: Preparation, view: Catalog, p: PreparedDocument, revision: nat, base: Base) {
    ValidDocument(prep, p, revision) &&
    match Documents.Activate(view, p, revision)
    case Ok(next) => Serves(base.dimension, next.documents)
    case Err(_) => false
  }

  /** The catalog a checkpoint describes, if it describes one. */
  method ReadCheckpoint(prep: Preparation, c: EmbeddedCheckpoint, ghost view: Catalog) returns (r: Result<Docs>)
    ensures r.Ok? ==> EntriesOf(c.documents, r.value) && Accepted(prep, Catalog(c.revisions, r.value))
    ensures r.Err? ==> r.error == CorruptIndex
    ensures CheckpointOf(c, view) && Accepted(prep, view) ==> r == Ok(view.documents)
  {
    hide ValidDocument, EntriesOf, Accepted;
    if CheckpointOf(c, view) && Accepted(prep, view) {
      AcceptedKeys(prep, view);
    }
    if d :| d in c.revisions && (d == "" || c.revisions[d] == 0) {
      return Err(CorruptIndex);
    }
    var documents: Docs := map[];
    NothingRead(prep, c);
    for i := 0 to |c.documents|
      invariant EntriesOf(c.documents[..i], documents) && Accepted(prep, Catalog(c.revisions, documents))
    {
      var entry := c.documents[i];
      var p := entry.prepared;
      AcceptedKeys(prep, Catalog(c.revisions, documents));
      if CheckpointOf(c, view) && Accepted(prep, view) {
        EntryIsGood(prep, c, view, i, documents);
      }
      var valid := Validate(prep, p, entry.revision);
      if valid.Err? {
        return Err(CorruptIndex);
      }
      if p.key in documents {
        return Err(CorruptIndex);
      }
      if p.key !in c.revisions || c.revisions[p.key] != entry.revision {
        return Err(CorruptIndex);
      }
      EntriesNext(c.documents, i, documents);
      AcceptedNext(prep, Catalog(c.revisions, documents), p, entry.revision);
      assert c.revisions[p.key := entry.revision] == c.revisions;
      documents := documents[p.key := Active(entry.revision, p)];
    }
    assert c.documents[..|c.documents|] == c.documents;
    AcceptedKeys(prep, Catalog(c.revisions, documents));
    if CheckpointOf(c, view) && Accepted(prep, view) {
      EntriesUnique(c.documents, documents, view.documents);
    }
    return Ok(documents);
  }

  lemma NothingRead(prep: Preparation, c: EmbeddedCheckpoint)
    requires forall d :: d in c.revisions ==> d != "" && c.revisions[d] != 0
    ensures EntriesOf(c.documents[..0], map[]) && Accepted(prep, Catalog(c.revisions, map[]))
  {
  }

  lemma AcceptedKeys(prep: Preparation, view: Catalog)
    requires Accepted(prep, view)
    ensures forall d :: d in view.documents ==> view.documents[d].prepared.key == d
    ensures forall d :: d in view.revisions ==> d != "" && view.revisions[d] != 0
  {
    hide ValidDocument;
  }

  lemma EntryIsGood(prep: Preparation, c: EmbeddedCheckpoint, view: Catalog, i: nat, docs: Docs)
    requires CheckpointOf(c, view) && Accepted(prep, view) && i < |c.documents| && EntriesOf(c.documents[..i], docs)
    requires forall d :: d in docs ==> docs[d].prepared.key == d
    ensures var e := c.documents[i];
      ValidDocument(prep, e.prepared, e.revision) && e.prepared.key !in docs &&
      e.prepared.key in c.revisions && c.revisions[e.prepared.key] == e.revision
  {
    hide ValidDocument;
    var e := c.documents[i];
    assert e in c.documents;
  }

  lemma EntriesNext(entries: seq<CheckpointEntry>, i: nat, docs: Docs)
    requires i < |entries| && EntriesOf(entries[..i], docs) && entries[i].prepared.key !in docs
    ensures EntriesOf(entries[..i + 1], docs[entries[i].prepared.key := Active(entries[i].revision, entries[i].prepared)])
  {
    assert entries[..i + 1] == entries[..i] + [entries[i]];
    assert forall j :: 0 <= j < i ==> entries[..i][j] in entries[..i];
  }

  lemma EntriesUnique(entries: seq<CheckpointEntry>, docs: Docs, docs': Docs)
    requires EntriesOf(entries, docs) && EntriesOf(entries, docs')
    requires (forall d :: d in docs ==> docs[d].prepared.key == d) && (forall d :: d in docs' ==> docs'[d].prepared.key == d)
    ensures docs == docs'
  {
  }

  lemma EntryKeys(entries: seq<CheckpointEntry>, keys: seq<DocKey>, docs: Docs)
    requires EntriesOf(entries, docs) && |keys| == |entries|
    requires forall d :: d in docs ==> docs[d].prepared.key == d
    requires forall i :: 0 <= i < |keys| ==> keys[i] == entries[i].prepared.key
    ensures Lists(keys, docs)
  {
    forall i | 0 <= i < |keys|
      ensures keys[i] in docs
    {
      assert entries[i] in entries;
    }
    forall d | d in docs
      ensures d in keys
    {
      var i :| 0 <= i < |entries| && entries[i] == CheckpointEntry(docs[d].prepared, docs[d].revision);
      assert keys[i] == d;
    }
  }

  lemma EntriesListed(entries: seq<CheckpointEntry>, keys: seq<DocKey>, docs: Docs)
    requires Ordered(keys, docs.Keys) && |entries| == |keys| && forall d :: d in docs ==> docs[d].prepared.key == d
    requires forall j :: 0 <= j < |keys| ==> entries[j] == CheckpointEntry(docs[keys[j]].prepared, docs[keys[j]].revision)
    ensures EntriesOf(entries, docs)
  {
    forall d | d in docs
      ensures CheckpointEntry(docs[d].prepared, docs[d].revision) in entries
    {
      var j :| 0 <= j < |keys| && keys[j] == d;
      assert entries[j] in entries;
    }
  }
}
