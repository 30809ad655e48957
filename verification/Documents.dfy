/** Prepared documents and the revisioned catalog every backend maintains:
    one latest revision per document and at most one active document under it. */
module Documents {
  import opened Wrappers

  type DocKey = string
  type Metadata = map<string, string>
  type Vector = seq<real>

  datatype PreparedChunk = PreparedChunk(
    key: string, ordinal: nat, text: string, indexedText: string, context: string,
    startLine: nat, endLine: nat, embedding: Vector)

  datatype PreparedDocument = PreparedDocument(
    key: DocKey, title: string, content: string, metadata: Metadata, contentHash: string,
    chunkingFingerprint: string, embeddingIdentity: string, chunks: seq<PreparedChunk>)

  datatype Active = Active(revision: nat, prepared: PreparedDocument)

  datatype Catalog = Catalog(revisions: map<DocKey, nat>, documents: map<DocKey, Active>)

  const EmptyCatalog := Catalog(map[], map[])

  /** What a finished mutation left behind: a document with this content hash, or nothing. */
  datatype Effect = Put(hash: string) | Gone

  /** A mutation of one document at one revision. */
  datatype Mutation = Mutation(doc: DocKey, revision: nat, effect: Effect)

  predicate CatalogOk(c: Catalog) {
    forall d :: d in c.documents ==>
      d in c.revisions && c.documents[d].revision == c.revisions[d] && c.documents[d].prepared.key == d
  }

  function EffectAt(c: Catalog, d: DocKey): Effect {
    if d in c.documents then Put(c.documents[d].prepared.contentHash) else Gone
  }

  /** The catalog has not rolled `m` back: it is past m's revision, or exactly at it with m's effect. */
  predicate Covers(c: Catalog, m: Mutation) {
    m.doc in c.revisions &&
    (c.revisions[m.doc] > m.revision || (c.revisions[m.doc] == m.revision && EffectAt(c, m.doc) == m.effect))
  }

  /** The catalog will not refuse `m` as stale. */
  predicate Admits(c: Catalog, m: Mutation) {
    m.doc in c.revisions ==>
      c.revisions[m.doc] < m.revision || (c.revisions[m.doc] == m.revision && EffectAt(c, m.doc) == m.effect)
  }

  /** Revision arbitration of an activation: newer wins, an identical replay is a no-op, the rest is stale. */
  function Activate(c: Catalog, p: PreparedDocument, revision: nat): (r: Result<Catalog>)
    ensures r.Ok? && CatalogOk(c) ==> CatalogOk(r.value)
    ensures r.Ok? && CatalogOk(c) ==>
      r.value.revisions == c.revisions[p.key := revision] && EffectAt(r.value, p.key) == Put(p.contentHash)
    ensures r.Ok? ==> forall d :: d != p.key ==> EffectAt(r.value, d) == EffectAt(c, d)
    ensures CatalogOk(c) ==> (r.Ok? <==> Admits(c, Mutation(p.key, revision, Put(p.contentHash))))
  {
    if p.key in c.revisions && revision <= c.revisions[p.key] then
      if revision == c.revisions[p.key] && p.key in c.documents && c.documents[p.key].revision == revision
         && c.documents[p.key].prepared.contentHash == p.contentHash
      then Ok(c)
      else Err(AlreadyExists)
    else
      Ok(Catalog(c.revisions[p.key := revision], c.documents[p.key := Active(revision, p)]))
  }

  /** Revision arbitration of a deletion; the flag says whether a document was removed. */
  function Erase(c: Catalog, d: DocKey, revision: nat): (r: Result<(Catalog, bool)>)
    ensures r.Ok? && CatalogOk(c) ==> CatalogOk(r.value.0)
    ensures r.Ok? ==> r.value.0.revisions == c.revisions[d := revision] && EffectAt(r.value.0, d) == Gone
    ensures r.Ok? ==> (r.value.1 <==> d in c.documents)
    ensures r.Ok? ==> forall e :: e != d ==> EffectAt(r.value.0, e) == EffectAt(c, e)
    ensures r.Ok? <==> Admits(c, Mutation(d, revision, Gone))
  {
    if d in c.revisions && revision <= c.revisions[d] then
      if revision == c.revisions[d] && d !in c.documents then Ok((c, false)) else Err(AlreadyExists)
    else
      Ok((Catalog(c.revisions[d := revision], c.documents - {d}), d in c.documents))
  }
}
