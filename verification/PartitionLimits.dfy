/** Where the data contract of the dense tiers gives out: a document whose vectors are in the base,
    activated again without vectors, leaves rows visible in the base that nothing live embeds. */
module PartitionLimits {
  import opened Documents
  import opened Dense
  import opened TieredIndex
  import opened Generations
  import opened GenerationSafety
  import opened Convergence
  import opened BackendRuns

  function OneChunk(embedding: Vector): PreparedChunk { PreparedChunk("k", 0, "t", "t", "", 1, 1, embedding) }

  function OneDocument(embedding: Vector): PreparedDocument {
    PreparedDocument("d", "", "t", map[], "h", "f", "e", [OneChunk(embedding)])
  }

  function OneActive(revision: nat, embedding: Vector): Docs { map["d" := Active(revision, OneDocument(embedding))] }

  const Unit: Vector := [1.0]
  const UnitRow := VectorRecord("k", Unit)
  const UnitBase := Base(ExactIndex([UnitRow], 1), {"k"}, 1)
  const InDelta := Tiered(EmptyTiers.base, ExactIndex([UnitRow], 1), {"k"}, {}, 1)
  const InBase := Tiered(UnitBase, EmptyIndex, {}, {}, 1)
  const Stranded := Tiered(UnitBase, EmptyIndex, {}, {}, 0)

  function Of(revision: nat, embedding: Vector, t: Tiered, delta: set<DocKey>, dimension: nat, number: nat): Generation {
    Generation(OneActive(revision, embedding),
               map["k" := Stored("d", OneActive(revision, embedding)["d"], OneChunk(embedding))], t, delta, dimension, number)
  }

  const First := Of(1, Unit, InDelta, {"d"}, 1, 1)
  const Compacted := Of(1, Unit, InBase, {}, 1, 2)
  const Last := Of(2, [], Stranded, {"d"}, 0, 3)

  const Start := World(map[], map[0 := EmptyGeneration], 0, map[])

  const Run := [
    Write(Upsert(OneDocument(Unit), 1), First, 1), Begin(0), Publish(0, InBase, Compacted, 2),
    Write(Upsert(OneDocument([]), 2), Last, 3)]

  lemma OneHas(revision: nat, embedding: Vector)
    ensures forall d, c :: ChunkOf(OneActive(revision, embedding), d, c) <==> d == "d" && c == OneChunk(embedding)
    ensures LiveKeys(OneActive(revision, embedding)) == {"k"}
    ensures EmbeddedKeys(OneActive(revision, embedding)) == if embedding == [] then {} else {"k"}
    ensures KeysAreUnique(OneActive(revision, embedding))
  {
    var docs := OneActive(revision, embedding);
    assert OneChunk(embedding) in docs["d"].prepared.chunks;
  }

  lemma UnitIsNormal()
    ensures Normalized(Unit)
  {
    assert Dot(Unit, Unit) == 1.0 + Dot([], []);
  }

  lemma TiersAreOk()
    ensures TiersOk(InDelta) && TiersOk(InBase) && TiersOk(Stranded)
  {
    hide Normalized;
    UnitIsNormal();
    assert Keys([UnitRow]) == {"k"};
    assert Keys([]) == {};
    assert IndexOk(ExactIndex([UnitRow], 1));
  }

  lemma OneBuilt(revision: nat, embedding: Vector, t: Tiered, under: Tiered, delta: set<DocKey>, dimension: nat, number: nat)
    requires TiersOk(t) && t.dimension == dimension == |embedding| && under.base == t.base
    requires t.delta.rows == if "d" in delta && embedding != [] && !ContainsBase(under, "k") then [VectorRecord("k", embedding)] else []
    ensures Built(Of(revision, embedding, t, delta, dimension, number), OneActive(revision, embedding), under, delta, t.tombstones)
  {
    hide TiersOk;
    OneHas(revision, embedding);
    var docs := OneActive(revision, embedding);
    hide KeysAreUnique, LiveKeys, EmbeddedKeys, ChunkOf;
    var c := OneChunk(embedding);
    assert forall row :: DeltaRow(docs, under, delta, row) <==>
      "d" in delta && embedding != [] && !ContainsBase(under, "k") && row == VectorRecord("k", embedding);
  }

  lemma FirstStep()
    ensures Enabled(Start, Run[0])
  {
    TiersAreOk();
    OneBuilt(1, Unit, InDelta, EmptyTiers, {"d"}, 1, 1);
    hide TiersOk, Built;
    assert EmptyGeneration.documents["d" := Active(1, OneDocument(Unit))] == OneActive(1, Unit);
    assert Hidden(EmptyGeneration.documents, EmptyTiers, "d", {"k"}) == {};
    assert EmptyGeneration.deltaDocuments + {"d"} == {"d"};
  }

  lemma ThirdStep()
    ensures Compacts(First, InBase, Compacted)
  {
    TiersAreOk();
    OneBuilt(1, Unit, InBase, InBase, {}, 1, 2);
    OneHas(1, Unit);
    hide TiersOk, Built, ChunkOf;
    var docs := First.documents;
    assert forall row :: DeltaOf(docs, docs.Keys, row) <==> row == UnitRow;
  }

  lemma LastStep()
    ensures Replaces(Compacted, Upsert(OneDocument([]), 2), Last)
  {
    TiersAreOk();
    OneBuilt(2, [], Stranded, InBase, {"d"}, 0, 3);
    hide TiersOk, Built;
    assert Compacted.documents["d" := Active(2, OneDocument([]))] == OneActive(2, []);
    assert DocKeys(OneActive(2, []), "d") == {"k"} by { assert OneChunk([]) in OneDocument([]).chunks; }
    assert Hidden(Compacted.documents, InBase, "d", {"k"}) == {};
    assert Compacted.deltaDocuments + {"d"} == {"d"};
  }

  /** The run is legal and the visible base is not empty although no live chunk is embedded. */
  lemma PartitionCanFail()
    ensures Legal(Start, Run) && After(Start, Run).active == 3 && After(Start, Run).heap[3] == Last
    ensures EmbeddedKeys(Last.documents) == {} && Visible(Last.dense) + Last.dense.deltaKeys == {"k"}
  {
    hide Replaces, Compacts;
    OneHas(2, []);
    FirstStep();
    ThirdStep();
    LastStep();
    hide Of, OneActive, OneDocument;
    assert Run[..4] == Run && Run[..4][..3] == Run[..3] && Run[..3][..2] == Run[..2] && Run[..2][..1] == Run[..1];
    assert Run[..1][..0] == [];
    var w1 := Apply(Start, Run[0]);
    assert After(Start, Run[..1]) == w1;
    assert Legal(Start, Run[..1]);
    var w2 := Apply(w1, Run[1]);
    assert After(Start, Run[..2]) == w2;
    assert Legal(Start, Run[..2]);
    var w3 := Apply(w2, Run[2]);
    assert After(Start, Run[..3]) == w3;
    assert Legal(Start, Run[..3]);
    assert After(Start, Run) == Apply(w3, Run[3]);
  }
}
