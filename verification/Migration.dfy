/** Copying a corpus between endpoints: paginated reads, an audit, and a resumable copy. An endpoint's
    ordered map of active documents is the list of its records in key order. */
module Migration {
  import opened Wrappers
  import opened Documents
  import opened KeyOrder
  import opened Dense
  import opened Validation

  datatype Record = Record(document: PreparedDocument, revision: nat)

  function KeyOf(r: Record): DocKey { r.document.key }

  ghost predicate InKeyOrder(s: seq<Record>) {
    forall i, j :: 0 <= i < j < |s| ==> KeyLess(KeyOf(s[i]), KeyOf(s[j]))
  }

  ghost predicate IsPrefix(p: seq<Record>, s: seq<Record>) { |p| <= |s| && p == s[..|p|] }

  function ChunkCount(s: seq<Record>): nat {
    if s == [] then 0 else ChunkCount(s[..|s| - 1]) + |s[|s| - 1].document.chunks|
  }

  lemma {:induction false} ChunkCountConcat(a: seq<Record>, b: seq<Record>)
    ensures ChunkCount(a + b) == ChunkCount(a) + ChunkCount(b)
  {
    if b == [] {
      assert a + b == a;
    } else {
      var n := |b| - 1;
      ChunkCountConcat(a, b[..n]);
      assert (a + b)[..|a + b| - 1] == a + b[..n];
    }
  }

  // ----------------------------------------------------------------------- pagination

  datatype Batch = Batch(documents: seq<Record>, nextCursor: DocKey, complete: bool)

  /** The first record whose key is greater than the cursor. */
  function UpperBound(s: seq<Record>, after: DocKey): (n: nat)
    ensures n <= |s|
  {
    if s == [] || KeyLess(after, KeyOf(s[0])) then 0 else 1 + UpperBound(s[1..], after)
  }

  function Start(s: seq<Record>, after: DocKey): (n: nat)
    ensures n <= |s|
  {
    if after == "" then 0 else UpperBound(s, after)
  }

  /** The cursor after the first `n` records. */
  function CursorAt(s: seq<Record>, n: nat): DocKey
    requires n <= |s|
  {
    if n == 0 then "" else KeyOf(s[n - 1])
  }

  lemma {:induction false} UpperBoundAt(s: seq<Record>, n: nat)
    requires InKeyOrder(s) && 0 < n <= |s|
    ensures UpperBound(s, KeyOf(s[n - 1])) == n
  {
    var after := KeyOf(s[n - 1]);
    if n > 1 {
      assert KeyLess(KeyOf(s[0]), after);
      KeyTotal(after, KeyOf(s[0]));
      UpperBoundAt(s[1..], n - 1);
    } else {
      var rest := s[1..];
      assert rest != [] ==> rest[0] == s[1] && KeyLess(after, KeyOf(s[1]));
      assert UpperBound(rest, after) == 0;
    }
  }

  ghost predicate NamedRecords(s: seq<Record>) { forall i :: 0 <= i < |s| ==> KeyOf(s[i]) != "" }

  /** The cursor finds its place again, in any list that begins with the same records. */
  lemma CursorFinds(s: seq<Record>, n: nat)
    requires InKeyOrder(s) && n <= |s| && NamedRecords(s[..n])
    ensures Start(s, CursorAt(s, n)) == n
  {
    if n > 0 {
      assert s[..n][n - 1] == s[n - 1];
      UpperBoundAt(s, n);
    }
  }

  function Min(a: nat, b: nat): nat { if a < b then a else b }

  /** `read_batch`: the records after the cursor, at most `limit`, and where the next batch starts. */
  method ReadBatch(s: seq<Record>, after: DocKey, limit: nat) returns (r: Result<Batch>)
    ensures limit == 0 ==> r == Err(InvalidArgument)
    ensures limit != 0 ==> r.Ok? && var from := Start(s, after); var to := Min(from + limit, |s|);
      r.value.documents == s[from..to] && (r.value.complete <==> to == |s|) &&
      r.value.nextCursor == if from == to then after else KeyOf(s[to - 1])
  {
    if limit == 0 {
      return Err(InvalidArgument);
    }
    var i := Start(s, after);
    ghost var from := i;
    var documents: seq<Record> := [];
    while i < |s| && |documents| < limit
      invariant from <= i <= |s| && documents == s[from..i] && |documents| <= limit
    {
      documents := documents + [s[i]];
      i := i + 1;
    }
    var nextCursor := if documents != [] then KeyOf(documents[|documents| - 1]) else after;
    return Ok(Batch(documents, nextCursor, i == |s|));
  }

  /** Reading on from a place whose cursor is known. */
  lemma ReadFrom(s: seq<Record>, n: nat, limit: nat)
    requires InKeyOrder(s) && n <= |s| && NamedRecords(s[..n]) && limit > 0
    ensures Start(s, CursorAt(s, n)) == n
    ensures var to := Min(n + limit, |s|);
      (if n == to then CursorAt(s, n) else KeyOf(s[to - 1])) == CursorAt(s, to)
  {
    CursorFinds(s, n);
  }

  /** The batch that follows the first `n` records. */
  ghost predicate BatchAfter(s: seq<Record>, n: nat, limit: nat, b: Batch) {
    var to := n + |b.documents|;
    to == Min(n + limit, |s|) && b.documents == s[n..to] && (b.complete <==> to == |s|) && b.nextCursor == CursorAt(s, to)
  }

  method ReadAfter(s: seq<Record>, cursor: DocKey, limit: nat, ghost n: nat) returns (b: Batch)
    requires InKeyOrder(s) && n <= |s| && NamedRecords(s[..n]) && limit > 0 && cursor == CursorAt(s, n)
    ensures BatchAfter(s, n, limit, b)
  {
    hide InKeyOrder, NamedRecords, Start;
    ReadFrom(s, n, limit);
    var r := ReadBatch(s, cursor, limit);
    b := r.value;
  }

  // ---------------------------------------------------------------------------- audit

  datatype CorpusAudit = CorpusAudit(
    documents: nat, chunks: nat, dimension: nat, identity: string, fingerprint: string, documentChecksum: string,
    vectorChecksum: string, digest: string)

  /** The hashes, as functions of what is fed to them. */
  datatype Hashing = Hashing(
    prep: Preparation,
    documents: seq<Record> -> string,
    vectors: seq<Record> -> string,
    corpus: (nat, nat, nat, string, string, string, string) -> string,
    run: (string, string) -> string)

  function FirstDimension(r: Record): nat { if r.document.chunks == [] then 0 else |r.document.chunks[0].embedding| }

  function AuditOf(h: Hashing, s: seq<Record>): CorpusAudit {
    var dimension := if s == [] then 0 else FirstDimension(s[0]);
    var identity := if s == [] then "" else s[0].document.embeddingIdentity;
    var fingerprint := if s == [] then "" else s[0].document.chunkingFingerprint;
    CorpusAudit(|s|, ChunkCount(s), dimension, identity, fingerprint, h.documents(s), h.vectors(s),
                h.corpus(|s|, ChunkCount(s), dimension, identity, fingerprint, h.documents(s), h.vectors(s)))
  }

  predicate ChunkFits(prep: Preparation, p: PreparedDocument, i: nat, dimension: nat)
    requires i < |p.chunks|
  {
    var c := p.chunks[i];
    c.ordinal == i && c.key != "" && |c.embedding| == dimension && Normalized(c.embedding) &&
    c.indexedText == (if c.context == "" then c.text else c.context + "\n" + c.text) &&
    c.key == prep.chunkKey(p.key, c.startLine, c.endLine, c.text)
  }

  ghost predicate RecordOk(prep: Preparation, r: Record, identity: string, fingerprint: string, dimension: nat) {
    var p := r.document;
    r.revision != 0 && p.key != "" && p.chunks != [] && p.contentHash != "" && p.embeddingIdentity != "" &&
    p.chunkingFingerprint != "" && p.content == prep.normalize(p.content) &&
    p.contentHash == prep.contentHash(p.title, p.content, p.metadata) &&
    p.embeddingIdentity == identity && p.chunkingFingerprint == fingerprint &&
    forall i :: 0 <= i < |p.chunks| ==> ChunkFits(prep, p, i, dimension)
  }

  /** Every record is whole, and all were prepared like the first. */
  ghost predicate AuditOk(prep: Preparation, s: seq<Record>) {
    forall i :: 0 <= i < |s| ==>
      RecordOk(prep, s[i], s[0].document.embeddingIdentity, s[0].document.chunkingFingerprint, FirstDimension(s[0]))
  }

  lemma AuditOkPrefix(prep: Preparation, s: seq<Record>, n: nat)
    requires n < |s| && AuditOk(prep, s[..n])
    ensures AuditOk(prep, s[..n + 1]) <==>
      RecordOk(prep, s[n], s[0].document.embeddingIdentity, s[0].document.chunkingFingerprint, FirstDimension(s[0]))
    ensures AuditOk(prep, s) ==> AuditOk(prep, s[..n + 1])
  {
    hide RecordOk, FirstDimension;
    var next := s[..n + 1];
    assert next[0] == s[0] && next[n] == s[n];
    assert forall i :: 0 <= i < n ==> next[i] == s[..n][i] == s[i];
    assert n > 0 ==> s[..n][0] == s[0];
  }

  /** `validate_document`, given the identities fixed by the first document. */
  method ValidateRecord(prep: Preparation, r: Record, identity: string, fingerprint: string, dimension: nat) returns (ok: bool)
    ensures ok <==> RecordOk(prep, r, identity, fingerprint, dimension)
  {
    hide Normalized;
    var p := r.document;
    if r.revision == 0 || p.key == "" || p.chunks == [] || p.contentHash == "" || p.embeddingIdentity == "" ||
       p.chunkingFingerprint == "" {
      return false;
    }
    if p.content != prep.normalize(p.content) || p.contentHash != prep.contentHash(p.title, p.content, p.metadata) {
      return false;
    }
    if p.embeddingIdentity != identity || p.chunkingFingerprint != fingerprint {
      return false;
    }
    for i := 0 to |p.chunks|
      invariant forall j :: 0 <= j < i ==> ChunkFits(prep, p, j, dimension)
    {
      if !ChunkFits(prep, p, i, dimension) {
        return false;
      }
    }
    return true;
  }

  /** What the audit has counted so far. */
  datatype Tally = Tally(documents: nat, chunks: nat, dimension: nat, identity: string, fingerprint: string)

  const EmptyTally := Tally(0, 0, 0, "", "")

  /** The first records have been audited and found whole. */
  ghost predicate Audited(prep: Preparation, s: seq<Record>, t: Tally) {
    t.documents <= |s| && t.chunks == ChunkCount(s[..t.documents]) && AuditOk(prep, s[..t.documents]) &&
    NamedRecords(s[..t.documents]) &&
    if t.documents == 0 then t == EmptyTally
    else t.identity == s[0].document.embeddingIdentity && t.fingerprint == s[0].document.chunkingFingerprint &&
         t.dimension == FirstDimension(s[0])
  }

  lemma NothingAudited(prep: Preparation, s: seq<Record>)
    ensures Audited(prep, s, EmptyTally)
  {
  }

  method AuditRecord(prep: Preparation, record: Record, t: Tally, ghost s: seq<Record>) returns (r: Result<Tally>)
    requires Audited(prep, s, t) && t.documents < |s| && record == s[t.documents]
    ensures r.Ok? ==> Audited(prep, s, r.value) && r.value.documents == t.documents + 1
    ensures r.Err? ==> !AuditOk(prep, s) && r.error == CorruptIndex
  {
    hide RecordOk, FirstDimension, AuditOk;
    var p := record.document;
    var tally := t;
    if tally.identity == "" {
      tally := tally.(identity := p.embeddingIdentity, fingerprint := p.chunkingFingerprint, dimension := FirstDimension(record));
    }
    AuditOkPrefix(prep, s, t.documents);
    FirstNamed(prep, s, t);
    var ok := ValidateRecord(prep, record, tally.identity, tally.fingerprint, tally.dimension);
    if !ok {
      return Err(CorruptIndex);
    }
    CountNext(prep, s, t.documents, tally.identity, tally.fingerprint, tally.dimension);
    return Ok(tally.(documents := tally.documents + 1, chunks := tally.chunks + |p.chunks|));
  }

  /** After the first document the identity is never empty. */
  lemma FirstNamed(prep: Preparation, s: seq<Record>, t: Tally)
    requires Audited(prep, s, t)
    ensures t.identity == "" <==> t.documents == 0
  {
    if t.documents > 0 {
      assert s[..t.documents][0] == s[0];
      assert RecordOk(prep, s[..t.documents][0], s[0].document.embeddingIdentity, s[0].document.chunkingFingerprint, FirstDimension(s[0]));
    }
  }

  lemma CountNext(prep: Preparation, s: seq<Record>, n: nat, identity: string, fingerprint: string, dimension: nat)
    requires n < |s| && NamedRecords(s[..n]) && RecordOk(prep, s[n], identity, fingerprint, dimension)
    ensures ChunkCount(s[..n + 1]) == ChunkCount(s[..n]) + |s[n].document.chunks| && NamedRecords(s[..n + 1])
  {
    assert s[..n + 1][..n] == s[..n];
    assert forall i :: 0 <= i < n ==> s[..n + 1][i] == s[..n][i];
  }

  lemma AuditedNames(prep: Preparation, s: seq<Record>, t: Tally)
    requires Audited(prep, s, t)
    ensures t.documents <= |s| && NamedRecords(s[..t.documents])
  {
    hide AuditOk;
  }

  lemma AuditedAll(h: Hashing, s: seq<Record>, t: Tally)
    requires Audited(h.prep, s, t) && t.documents == |s|
    ensures AuditOk(h.prep, s)
    ensures AuditOf(h, s) == CorpusAudit(t.documents, t.chunks, t.dimension, t.identity, t.fingerprint, h.documents(s), h.vectors(s),
              h.corpus(t.documents, t.chunks, t.dimension, t.identity, t.fingerprint, h.documents(s), h.vectors(s)))
  {
    hide AuditOk;
    assert s[..|s|] == s;
  }

  /** `audit` accepts exactly the corpora of whole records prepared alike. The running hashes are functions
      of what has been fed to them. */
  method Audit(h: Hashing, s: seq<Record>, batchSize: nat) returns (r: Result<CorpusAudit>)
    requires InKeyOrder(s)
    ensures r.Ok? <==> batchSize != 0 && AuditOk(h.prep, s)
    ensures r.Ok? ==> r.value == AuditOf(h, s)
    ensures r.Err? ==> r.error == if batchSize == 0 then InvalidArgument else CorruptIndex
  {
    hide AuditOk, Audited, Start, InKeyOrder, NamedRecords, AuditOf;
    if batchSize == 0 {
      return Err(InvalidArgument);
    }
    var cursor, tally := "", EmptyTally;
    NothingAudited(h.prep, s);
    while true
      invariant tally.documents <= |s| && cursor == CursorAt(s, tally.documents) && Audited(h.prep, s, tally)
      decreases |s| - tally.documents
    {
      AuditedNames(h.prep, s, tally);
      var batch := ReadAfter(s, cursor, batchSize, tally.documents);
      ghost var from := tally.documents;
      for i := 0 to |batch.documents|
        invariant tally.documents == from + i <= |s| && Audited(h.prep, s, tally)
      {
        var next := AuditRecord(h.prep, batch.documents[i], tally, s);
        if next.Err? {
          return Err(next.error);
        }
        tally := next.value;
      }
      cursor := batch.nextCursor;
      if batch.complete {
        break;
      }
    }
    AuditedAll(h, s, tally);
    return Ok(CorpusAudit(tally.documents, tally.chunks, tally.dimension, tally.identity, tally.fingerprint,
                          h.documents(s), h.vectors(s),
                          h.corpus(tally.documents, tally.chunks, tally.dimension, tally.identity, tally.fingerprint,
                                   h.documents(s), h.vectors(s))));
  }
}
