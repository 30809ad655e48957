/** The catalogs a backend can serve on a base index of a given dimension. */
module Serving {
  import opened Collections
  import opened Documents
  import opened Generations

  /** `build_generation` accepts the documents over a base of this dimension. */
  ghost predicate Serves(base: nat, docs: Docs) { Buildable(docs) && FitsDimension(base, docs) }

  ghost predicate HasChunks(docs: Docs) { exists d, c :: ChunkOf(docs, d, c) }

  /** The dimension of the base that restoring or compacting these documents builds. */
  ghost function DimensionIn(docs: Docs): nat {
    if HasChunks(docs) then var d, c :| ChunkOf(docs, d, c); |c.embedding| else 0
  }

  lemma DimensionInIs(docs: Docs, n: nat)
    requires Uniform(docs, n)
    ensures DimensionIn(docs) == if HasChunks(docs) then n else 0
    ensures Uniform(docs, DimensionIn(docs))
  {
  }

  /** A catalog that can be built at all can be built on its own base. */
  lemma ServesItself(docs: Docs)
    requires Buildable(docs)
    ensures Serves(DimensionIn(docs), docs)
  {
    hide Settled, KeysAreUnique, LiveKeys, HasChunks;
    var n: nat :| Uniform(docs, n);
    DimensionInIs(docs, n);
  }

  lemma NothingToBuild()
    ensures Buildable(map[]) && Serves(0, map[])
  {
    assert LiveKeys(map[]) == {} && Uniform(map[], 0);
  }

  /** Taking a document away leaves a catalog that can be built on the same base. */
  lemma BuildableWithout(docs: Docs, base: nat, d: DocKey)
    requires Serves(base, docs)
    ensures Serves(base, docs - {d})
  {
    hide LiveKeys, Settled, Uniform;
    var rest := docs - {d};
    assert Within(rest, docs);
    SettledWithin(rest, docs);
    var n: nat :| Uniform(docs, n);
    assert forall e, c :: ChunkOf(rest, e, c) ==> ChunkOf(docs, e, c);
    UniformWithin(docs, rest, n);
    forall k | k in LiveKeys(rest)
      ensures k in LiveKeys(docs)
    {
      var e, c := LiveWitness(rest, k);
      ChunkIsLive(docs, e, c);
    }
    SubsetSize(LiveKeys(rest), LiveKeys(docs));
  }

  lemma UniformWithin(docs: Docs, rest: Docs, n: nat)
    requires Uniform(docs, n) && forall e, c :: ChunkOf(rest, e, c) ==> ChunkOf(docs, e, c)
    ensures Uniform(rest, n)
  {
  }
}
