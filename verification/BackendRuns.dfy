/** Whole runs of the backend: writers and compactions interleaved, and operations applied in any order. */
module BackendRuns {
  import opened Collections
  import opened Documents
  import opened Dense
  import opened TieredIndex
  import opened Generations
  import opened Serving
  import opened GenerationSafety
  import opened Compaction
  import opened Validation
  import opened Backend
  import opened Convergence

  // ---------------------------------------------------------- interleaved compactions

  /** Generations by identity, the active one, and each compaction under way with the one it started from. */
  datatype World = World(revisions: map<DocKey, nat>, heap: map<nat, Generation>, active: nat, building: map<nat, nat>)

  datatype Event =
    | Write(op: Op, next: Generation, id: nat)
    | Begin(worker: nat)
    | Publish(worker: nat, tiers: Tiered, next: Generation, id: nat)

  function ViewOf(w: World): Catalog
    requires w.active in w.heap
  {
    Catalog(w.revisions, w.heap[w.active].documents)
  }

  /** What activation and deletion build from the active generation. */
  ghost predicate Replaces(g: Generation, op: Op, next: Generation) {
    var d := Target(op);
    var docs := if op.Upsert? then g.documents[d := Active(op.revision, op.p)] else g.documents - {d};
    var delta := if op.Upsert? then g.deltaDocuments + {d} else g.deltaDocuments - {d};
    Built(next, docs, g.dense, delta, g.dense.tombstones + Hidden(g.documents, g.dense, d, DocKeys(docs, d)))
  }

  /** What compaction builds from the generation it started from. */
  ghost predicate Compacts(g: Generation, tiers: Tiered, next: Generation) {
    TiersOk(tiers) && tiers.tombstones == {} && AllRows(g.documents, tiers.base.index.rows) &&
    Built(next, g.documents, tiers, {}, {})
  }

  ghost predicate Newer(c: Catalog, op: Op) { Target(op) in c.revisions ==> c.revisions[Target(op)] < op.revision }

  ghost predicate Enabled(w: World, e: Event) {
    w.active in w.heap &&
    match e
    case Write(op, next, id) => id !in w.heap && Newer(ViewOf(w), op) && Replaces(w.heap[w.active], op, next)
    case Begin(worker) => worker !in w.building
    case Publish(worker, tiers, next, id) =>
      id !in w.heap && worker in w.building && w.building[worker] in w.heap &&
      Compacts(w.heap[w.building[worker]], tiers, next)
  }

  function Apply(w: World, e: Event): World {
    match e
    case Write(op, next, id) =>
      w.(revisions := w.revisions[Target(op) := op.revision], heap := w.heap[id := next], active := id)
    case Begin(worker) => w.(building := w.building[worker := w.active])
    case Publish(worker, tiers, next, id) =>
      var done := w.(building := w.building - {worker});
      if worker in w.building && w.building[worker] == w.active
      then done.(heap := w.heap[id := next], active := id)
      else done
  }

  function After(w: World, run: seq<Event>): World {
    if run == [] then w else Apply(After(w, run[..|run| - 1]), run[|run| - 1])
  }

  ghost predicate Legal(w: World, run: seq<Event>) {
    run == [] || (Legal(w, run[..|run| - 1]) && Enabled(After(w, run[..|run| - 1]), run[|run| - 1]))
  }

  /** The writers' operations, without the compactions. */
  function Writes(run: seq<Event>): seq<Op> {
    if run == [] then []
    else
      var rest := Writes(run[..|run| - 1]);
      var last := run[|run| - 1];
      if last.Write? then rest + [last.op] else rest
  }

  ghost predicate WorldOk(w: World) {
    w.active in w.heap && CatalogOk(ViewOf(w)) && (forall id :: id in w.heap ==> GenOk(w.heap[id])) &&
    (forall b :: b in w.building ==> w.building[b] in w.heap)
  }

  /** Equal chunk keys have equal embeddings in everything that is written. */
  ghost predicate Embeds(vec: string -> Vector, e: Event) {
    e.Write? && e.op.Upsert? ==> forall c :: c in e.op.p.chunks && c.embedding != [] ==> c.embedding == vec(c.key)
  }

  ghost predicate AllAgree(w: World, vec: string -> Vector) {
    forall id :: id in w.heap ==> Agrees(w.heap[id].documents, w.heap[id].dense.base, vec)
  }

  lemma ReplacesKeeps(g: Generation, op: Op, next: Generation)
    requires GenOk(g) && Replaces(g, op, next)
    ensures GenOk(next)
    ensures next.documents == if op.Upsert? then g.documents[Target(op) := Active(op.revision, op.p)] else g.documents - {Target(op)}
    ensures next.dense.base == g.dense.base
  {
    hide GenOk, DenseOf, DeltaRow, DocKeys, Hidden;
    ReplaceKeeps(g, next, next.documents, Target(op), next.deltaDocuments);
  }

  lemma CompactsKeeps(g: Generation, tiers: Tiered, next: Generation)
    requires Compacts(g, tiers, next)
    ensures GenOk(next) && next.documents == g.documents && next.dense.base == tiers.base
  {
    hide DenseOf, DeltaRow, DeltaOf, TiersOk;
    CompactKeeps(next, g.documents, tiers);
  }

  lemma WriteShows(c: Catalog, op: Op)
    requires CatalogOk(c) && Newer(c, op)
    ensures StepOp(c, op) == Catalog(c.revisions[Target(op) := op.revision],
      if op.Upsert? then c.documents[Target(op) := Active(op.revision, op.p)] else c.documents - {Target(op)})
    ensures CatalogOk(StepOp(c, op))
  {
  }

  lemma StepKeeps(w: World, e: Event)
    requires WorldOk(w) && Enabled(w, e)
    ensures WorldOk(Apply(w, e))
    ensures ViewOf(Apply(w, e)) == if e.Write? then StepOp(ViewOf(w), e.op) else ViewOf(w)
  {
    hide GenOk, Replaces, Compacts, StepOp;
    match e
    case Write(op, next, id) =>
      ReplacesKeeps(w.heap[w.active], op, next);
      WriteShows(ViewOf(w), op);
    case Begin(worker) =>
    case Publish(worker, tiers, next, id) =>
      CompactsKeeps(w.heap[w.building[worker]], tiers, next);
  }

  /** Over every interleaving the catalog is what the writers alone would have left: compaction is
      invisible and never replaces a newer generation. And every generation keeps the data contract. */
  lemma {:induction false} RunsShowWritesOnly(w: World, run: seq<Event>)
    requires WorldOk(w) && Legal(w, run)
    ensures WorldOk(After(w, run)) && ViewOf(After(w, run)) == RunOps(ViewOf(w), Writes(run))
  {
    hide WorldOk, Enabled, Apply, StepOp;
    if run != [] {
      var n := |run| - 1;
      RunsShowWritesOnly(w, run[..n]);
      StepKeeps(After(w, run[..n]), run[n]);
      var rest := Writes(run[..n]);
      assert run[n].Write? ==> (rest + [run[n].op])[..|rest|] == rest;
    } else {
      WorldActive(w);
    }
  }

  lemma WorldActive(w: World)
    requires WorldOk(w)
    ensures w.active in w.heap
  {
  }

  lemma AgreesNext(g: Generation, next: Generation, op: Op, vec: string -> Vector)
    requires Agrees(g.documents, g.dense.base, vec) && next.dense.base == g.dense.base
    requires next.documents == if op.Upsert? then g.documents[Target(op) := Active(op.revision, op.p)] else g.documents - {Target(op)}
    requires op.Upsert? ==> forall c :: c in op.p.chunks && c.embedding != [] ==> c.embedding == vec(c.key)
    ensures Agrees(next.documents, next.dense.base, vec)
  {
    forall d, c | ChunkOf(next.documents, d, c) && c.embedding != []
      ensures c.embedding == vec(c.key)
    {
      assert d == Target(op) || ChunkOf(g.documents, d, c);
    }
  }

  lemma AgreesCompact(g: Generation, tiers: Tiered, vec: string -> Vector)
    requires Agrees(g.documents, g.dense.base, vec) && AllRows(g.documents, tiers.base.index.rows)
    ensures Agrees(g.documents, tiers.base, vec)
  {
    hide ChunkOf;
    forall row | row in tiers.base.index.rows
      ensures row.vector == vec(row.key)
    {
      assert DeltaOf(g.documents, g.documents.Keys, row);
    }
  }

  lemma {:induction false} RunsAgree(w: World, run: seq<Event>, vec: string -> Vector)
    requires WorldOk(w) && Legal(w, run) && AllAgree(w, vec) && forall e :: e in run ==> Embeds(vec, e)
    ensures AllAgree(After(w, run), vec)
  {
    hide GenOk, Agrees, AllRows, TiersOk, Built;
    if run != [] {
      var n := |run| - 1;
      RunsAgree(w, run[..n], vec);
      RunsShowWritesOnly(w, run[..n]);
      var before, e := After(w, run[..n]), run[n];
      assert e in run;
      match e
      case Write(op, next, id) =>
        ReplacesKeeps(before.heap[before.active], op, next);
        AgreesNext(before.heap[before.active], next, op, vec);
      case Begin(worker) =>
      case Publish(worker, tiers, next, id) =>
        var g := before.heap[before.building[worker]];
        CompactsKeeps(g, tiers, next);
        AgreesCompact(g, tiers, vec);
    }
  }

  /** While a compaction is under way its starting point stays known, and once a writer has published,
      that starting point is no longer the active generation and never becomes it again. */
  lemma {:induction false} BuildingBehind(w: World, run: seq<Event>, worker: nat)
    requires WorldOk(w) && Legal(w, run) && worker in w.building
    requires forall e :: e in run ==> !(e.Publish? && e.worker == worker)
    ensures var late := After(w, run);
      worker in late.building && late.building[worker] == w.building[worker] && w.building[worker] in late.heap &&
      ((exists e :: e in run && e.Write?) || w.active != w.building[worker] ==> late.active != w.building[worker])
  {
    hide Replaces, Compacts, GenOk;
    if run != [] {
      var n := |run| - 1;
      BuildingBehind(w, run[..n], worker);
      assert run[n] in run;
      assert forall e :: e in run ==> e in run[..n] || e == run[n];
    }
  }

  /** A compaction that started before a write is refused at publication, whatever happened in between:
      nothing but its own bookkeeping changes. */
  lemma StaleCompactionRefused(w: World, run: seq<Event>, publish: Event)
    requires WorldOk(w) && Legal(w, run) && publish.Publish? && publish.worker in w.building
    requires forall e :: e in run ==> !(e.Publish? && e.worker == publish.worker)
    requires exists e :: e in run && e.Write?
    ensures var late := After(w, run);
      Apply(late, publish) == late.(building := late.building - {publish.worker})
  {
    hide WorldOk, Legal, After;
    BuildingBehind(w, run, publish.worker);
  }

  // -------------------------------------------------------- operations in any order

  /** Documents with one preparation: one fingerprint, one embedding identity, one dimension. */
  datatype Kind = Kind(fingerprint: string, identity: string, dimension: nat)

  ghost predicate OfKind(docs: Docs, kind: Kind) {
    Uniform(docs, kind.dimension) && KeysAreUnique(docs) && |LiveKeys(docs)| <= MAX_CHUNKS &&
    forall d :: d in docs ==>
      docs[d].prepared.chunkingFingerprint == kind.fingerprint && docs[d].prepared.embeddingIdentity == kind.identity
  }

  predicate OnBase(base: nat, kind: Kind) { base == 0 || base == kind.dimension }

  lemma KindIsBuildable(docs: Docs, base: nat, kind: Kind)
    requires OfKind(docs, kind) && OnBase(base, kind)
    ensures Serves(base, docs)
  {
    hide KeysAreUnique, LiveKeys;
  }

  function ChunkKeys(ops: seq<Op>): set<string> { set op, c | op in ops && op.Upsert? && c in op.p.chunks :: c.key }

  ghost predicate OpOk(prep: Preparation, op: Op, kind: Kind) {
    if op.Remove? then op.d != "" && op.revision != 0
    else
      ValidDocument(prep, op.p, op.revision) && op.p.chunkingFingerprint == kind.fingerprint &&
      op.p.embeddingIdentity == kind.identity && forall c :: c in op.p.chunks ==> |c.embedding| == kind.dimension
  }

  predicate HasChunk(ops: seq<Op>, op: Op, c: PreparedChunk) { op in ops && op.Upsert? && c in op.p.chunks }

  /** Documents prepared alike, with no chunk key shared between different documents. */
  ghost predicate Compatible(prep: Preparation, ops: seq<Op>, kind: Kind) {
    (forall op :: op in ops ==> OpOk(prep, op, kind)) && |ChunkKeys(ops)| <= MAX_CHUNKS &&
    (forall a, b, x, y :: HasChunk(ops, a, x) && HasChunk(ops, b, y) && a.p.key != b.p.key ==> x.key != y.key)
  }

  ghost predicate FromOps(docs: Docs, ops: seq<Op>) {
    forall d :: d in docs ==> docs[d].prepared.key == d && Upsert(docs[d].prepared, docs[d].revision) in ops
  }

  lemma FromOpsIsKind(prep: Preparation, docs: Docs, ops: seq<Op>, kind: Kind)
    requires Compatible(prep, ops, kind) && FromOps(docs, ops)
    ensures OfKind(docs, kind)
  {
    hide Normalized, SameDimension, LiveKeys, ChunkKeys;
    forall d | d in docs
      ensures OpOk(prep, Upsert(docs[d].prepared, docs[d].revision), kind)
    {
    }
    FewKeys(docs, ops);
    hide ValidChunk;
    forall d, e, x, y | ChunkOf(docs, d, x) && ChunkOf(docs, e, y) && d != e
      ensures x.key != y.key
    {
      assert HasChunk(ops, Upsert(docs[d].prepared, docs[d].revision), x);
      assert HasChunk(ops, Upsert(docs[e].prepared, docs[e].revision), y);
    }
  }

  lemma FewKeys(docs: Docs, ops: seq<Op>)
    requires FromOps(docs, ops)
    ensures |LiveKeys(docs)| <= |ChunkKeys(ops)|
  {
    forall k | k in LiveKeys(docs)
      ensures k in ChunkKeys(ops)
    {
      var d, c := LiveWitness(docs, k);
      assert c in Upsert(docs[d].prepared, docs[d].revision).p.chunks;
    }
    SubsetSize(LiveKeys(docs), ChunkKeys(ops));
  }

  lemma FromOpsNext(c: Catalog, ops: seq<Op>, op: Op)
    requires FromOps(c.documents, ops) && op in ops
    ensures FromOps(StepOp(c, op).documents, ops)
    ensures op.Upsert? ==> FromOps(c.documents[op.p.key := Active(op.revision, op.p)], ops)
    ensures op.Remove? ==> FromOps(c.documents - {op.d}, ops)
  {
  }

  lemma OpAccepted(prep: Preparation, c: Catalog, base: Base, ops: seq<Op>, op: Op, kind: Kind)
    requires Compatible(prep, ops, kind) && FromOps(c.documents, ops) && op in ops && OnBase(base.dimension, kind)
    ensures OpOk(prep, op, kind)
    ensures op.Upsert? && Documents.Activate(c, op.p, op.revision).Ok? ==> MayActivate(prep, c, op.p, op.revision, base)
  {
    hide OfKind, ValidDocument, Buildable, Serves;
    FromOpsNext(c, ops, op);
    FromOpsIsKind(prep, StepOp(c, op).documents, ops, kind);
    KindIsBuildable(StepOp(c, op).documents, base.dimension, kind);
  }

  /** One compatible operation has exactly its catalog effect. */
  method ApplyOp(b: EmbeddedBackend, op: Op, ghost ops: seq<Op>, ghost kind: Kind)
    requires b.Valid() && Compatible(b.prep, ops, kind) && FromOps(b.View().documents, ops) && op in ops
    requires OnBase(b.active.value.dense.base.dimension, kind)
    modifies b
    ensures b.Valid() && b.View() == StepOp(old(b.View()), op) && FromOps(b.View().documents, ops)
    ensures OnBase(b.active.value.dense.base.dimension, kind)
  {
    hide Compatible, FromOps, GenOk, Accepted, ValidDocument, Buildable, Serves;
    OpAccepted(b.prep, b.View(), b.active.value.dense.base, ops, op, kind);
    FromOpsNext(b.View(), ops, op);
    match op
    case Upsert(p, revision) => var _ := b.Activate(p, revision);
    case Remove(d, revision) => var _ := b.Erase(d, revision);
  }

  /** Compatible operations, applied in any order, with any repeats and with compactions at any point,
      end with each document's highest revision and that operation's effect. */
  method ApplyAll(b: EmbeddedBackend, ops: seq<Op>, compactAfter: set<nat>, ghost kind: Kind)
    requires b.Valid() && b.View() == EmptyCatalog && b.active.value.dense.base == EmptyTiers.base
    requires Compatible(b.prep, ops, kind) && OnePerRevision(ops)
    modifies b
    ensures b.Valid() && Reflects(b.View(), ops)
  {
    hide Compatible, FromOps, GenOk, Accepted, OfKind, Buildable, Vectors, StepOp, Reflects, OnePerRevision;
    NothingFrom(ops);
    for i := 0 to |ops|
      invariant b.Valid() && b.View() == RunOps(EmptyCatalog, ops[..i]) && FromOps(b.View().documents, ops)
      invariant OnBase(b.active.value.dense.base.dimension, kind)
    {
      assert ops[..i + 1][..i] == ops[..i];
      ApplyOp(b, ops[i], ops, kind);
      if i in compactAfter {
        FromOpsIsKind(b.prep, b.View().documents, ops, kind);
        AcceptedVectors(b.prep, b.View());
        var snapshot := b.active;
        var compacted := b.BuildCompacted(snapshot, true);
        CompactedBase(snapshot.value, compacted.value, kind);
        var _ := b.PublishCompacted(snapshot, compacted.value);
      }
    }
    assert ops[..|ops|] == ops;
    Converges(ops);
  }

  lemma NothingFrom(ops: seq<Op>)
    ensures FromOps(map[], ops)
  {
  }

  lemma CompactedBase(g: Generation, g': Generation, kind: Kind)
    requires CompactionOf(g, g') && OfKind(g.documents, kind)
    ensures OnBase(g'.dense.base.dimension, kind)
  {
    hide LiveKeys, KeysAreUnique, TiersOk, StoredAs, Placed;
    if LiveKeys(g.documents) != {} {
      var k :| k in LiveKeys(g.documents);
      var d, c := LiveWitness(g.documents, k);
    }
  }
}
