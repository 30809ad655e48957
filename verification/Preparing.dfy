/** `prepare_chunks` and `embed_document`: the prepared document of a text, and exactly when the backend's validation
    accepts it. */
module Preparing {
  import opened Wrappers
  import opened Collections
  import opened Bytes
  import opened Documents
  import opened Utf8
  import opened ChunkSplit
  import opened Spans
  import opened Filling
  import opened Chunker
  import opened Dense
  import opened Validation

  /** What the hashes and the normalisation promise: hashes are never empty, and normal text stays as it is. */
  ghost predicate PreparationOk(prep: Preparation) {
    (forall t :: prep.normalize(prep.normalize(t)) == prep.normalize(t)) &&
    (forall t, c, m :: prep.contentHash(t, c, m) != "") && (forall d, a, b, t :: prep.chunkKey(d, a, b, t) != "")
  }

  /** Text as bytes and bytes as text. */
  function Raw(s: string): Blob { seq(|s|, i requires 0 <= i < |s| => s[i] as int % 256) }

  function AsText(b: Blob): (s: string)
    ensures |s| == |b|
  {
    seq(|b|, i requires 0 <= i < |b| => b[i] as char)
  }

  /** The key of a chunk of document `d`. */
  function KeyFor(prep: Preparation, d: DocKey, c: Chunk): string { prep.chunkKey(d, c.startLine, c.endLine, AsText(c.text)) }

  function Indexed(c: Chunk): string { if c.context == [] then AsText(c.text) else AsText(c.context) + "\n" + AsText(c.text) }

  function PreparedFrom(prep: Preparation, d: DocKey, c: Chunk, ordinal: nat): PreparedChunk {
    PreparedChunk(KeyFor(prep, d, c), ordinal, AsText(c.text), Indexed(c), AsText(c.context), c.startLine, c.endLine, [])
  }

  function ChunksFrom(prep: Preparation, d: DocKey, chunks: seq<Chunk>): (r: seq<PreparedChunk>)
    ensures |r| == |chunks| && forall i :: 0 <= i < |chunks| ==> r[i] == PreparedFrom(prep, d, chunks[i], i)
  {
    seq(|chunks|, i requires 0 <= i < |chunks| => PreparedFrom(prep, d, chunks[i], i))
  }

  /** Two windows of the document make chunks under one key. */
  ghost predicate Collide(prep: Preparation, d: DocKey, windows: seq<Window>) {
    exists a, b :: 0 <= a < b < |windows| && SameKey(prep, d, windows[a].chunk, windows[b].chunk)
  }

  predicate SameKey(prep: Preparation, d: DocKey, a: Option<Chunk>, b: Option<Chunk>) {
    a.Some? && b.Some? && KeyFor(prep, d, a.value) == KeyFor(prep, d, b.value)
  }

  ghost predicate HasKey(prep: Preparation, d: DocKey, chunks: seq<Chunk>, key: string) {
    exists i :: 0 <= i < |chunks| && KeyFor(prep, d, chunks[i]) == key
  }

  ghost predicate KeysDiffer(prep: Preparation, d: DocKey, chunks: seq<Chunk>) {
    forall i, j :: 0 <= i < j < |chunks| ==> KeyFor(prep, d, chunks[i]) != KeyFor(prep, d, chunks[j])
  }

  lemma KeysDifferNext(prep: Preparation, d: DocKey, chunks: seq<Chunk>, c: Chunk)
    ensures KeysDiffer(prep, d, chunks + [c]) <==> KeysDiffer(prep, d, chunks) && !HasKey(prep, d, chunks, KeyFor(prep, d, c))
    ensures forall k :: HasKey(prep, d, chunks + [c], k) <==> HasKey(prep, d, chunks, k) || k == KeyFor(prep, d, c)
  {
    hide KeyFor;
    var all := chunks + [c];
    assert all[|chunks|] == c && forall i :: 0 <= i < |chunks| ==> all[i] == chunks[i];
    forall k
      ensures HasKey(prep, d, all, k) <==> HasKey(prep, d, chunks, k) || k == KeyFor(prep, d, c)
    {
      if HasKey(prep, d, chunks, k) {
        var i :| 0 <= i < |chunks| && KeyFor(prep, d, chunks[i]) == k;
        assert KeyFor(prep, d, all[i]) == k;
      }
      if k == KeyFor(prep, d, c) {
        assert KeyFor(prep, d, all[|chunks|]) == k;
      }
    }
    if KeysDiffer(prep, d, all) {
      assert forall i, j :: 0 <= i < j < |chunks| ==> KeyFor(prep, d, all[i]) != KeyFor(prep, d, all[j]);
      assert forall i :: 0 <= i < |chunks| ==> KeyFor(prep, d, all[i]) != KeyFor(prep, d, all[|chunks|]);
    }
  }

  /** The chunks of a list of windows have distinct keys exactly when no two windows collide. */
  lemma {:induction false} ProducedKeys(prep: Preparation, d: DocKey, ws: seq<Window>)
    ensures KeysDiffer(prep, d, Produced(ws)) <==> !Collide(prep, d, ws)
    ensures forall k :: HasKey(prep, d, Produced(ws), k) <==> Makes(prep, d, ws, k)
  {
    hide KeyFor;
    if ws != [] {
      var n := |ws| - 1;
      var front, last := ws[..n], ws[n];
      ProducedKeys(prep, d, front);
      assert ws == front + [last];
      hide Produced;
      ProducedStep(ws);
      CollideNext(prep, d, front, last);
      forall k
        ensures Makes(prep, d, ws, k) <==> Makes(prep, d, front, k) || MakesKey(prep, d, last, k)
      {
        MakesNext(prep, d, front, last, k);
      }
      if last.chunk.Some? {
        KeysDifferNext(prep, d, Produced(front), last.chunk.value);
        LastCollides(prep, d, front, last);
      } else {
        NoLast(prep, d, front, last);
      }
      hide KeysDiffer, HasKey, Collide;
    }
  }

  predicate MakesKey(prep: Preparation, d: DocKey, w: Window, k: string) { w.chunk.Some? && KeyFor(prep, d, w.chunk.value) == k }

  lemma ProducedStep(ws: seq<Window>)
    requires ws != []
    ensures Produced(ws) ==
            if ws[|ws| - 1].chunk.Some? then Produced(ws[..|ws| - 1]) + [ws[|ws| - 1].chunk.value] else Produced(ws[..|ws| - 1])
  {
  }

  ghost predicate Makes(prep: Preparation, d: DocKey, ws: seq<Window>, k: string) {
    exists a :: 0 <= a < |ws| && MakesKey(prep, d, ws[a], k)
  }

  lemma MakesNext(prep: Preparation, d: DocKey, front: seq<Window>, last: Window, k: string)
    ensures Makes(prep, d, front + [last], k) <==> Makes(prep, d, front, k) || MakesKey(prep, d, last, k)
  {
    hide MakesKey;
    var ws := front + [last];
    assert ws[|front|] == last && forall a :: 0 <= a < |front| ==> ws[a] == front[a];
    if Makes(prep, d, front, k) {
      var a :| 0 <= a < |front| && MakesKey(prep, d, front[a], k);
      assert MakesKey(prep, d, ws[a], k);
    }
  }

  lemma LastCollides(prep: Preparation, d: DocKey, front: seq<Window>, last: Window)
    requires last.chunk.Some?
    ensures (exists a :: 0 <= a < |front| && SameKey(prep, d, front[a].chunk, last.chunk)) <==>
            Makes(prep, d, front, KeyFor(prep, d, last.chunk.value))
  {
    hide KeyFor;
    var k := KeyFor(prep, d, last.chunk.value);
    forall a | 0 <= a < |front|
      ensures SameKey(prep, d, front[a].chunk, last.chunk) <==> MakesKey(prep, d, front[a], k)
    {
    }
  }

  lemma NoLast(prep: Preparation, d: DocKey, front: seq<Window>, last: Window)
    requires last.chunk.None?
    ensures !exists a :: 0 <= a < |front| && SameKey(prep, d, front[a].chunk, last.chunk)
  {
  }

  lemma CollideNext(prep: Preparation, d: DocKey, front: seq<Window>, last: Window)
    ensures Collide(prep, d, front + [last]) <==>
            Collide(prep, d, front) || exists a :: 0 <= a < |front| && SameKey(prep, d, front[a].chunk, last.chunk)
  {
    hide SameKey;
    var ws := front + [last];
    assert ws[|front|] == last && forall a :: 0 <= a < |front| ==> ws[a] == front[a];
    if Collide(prep, d, front) {
      var a, b :| 0 <= a < b < |front| && SameKey(prep, d, front[a].chunk, front[b].chunk);
      assert SameKey(prep, d, ws[a].chunk, ws[b].chunk);
    }
    if a :| 0 <= a < |front| && SameKey(prep, d, front[a].chunk, last.chunk) {
      assert SameKey(prep, d, ws[a].chunk, ws[|front|].chunk);
    }
  }

  // --------------------------------------------------------------------- preparing

  /** The document `prepare_chunks` makes of chunks. */
  function Prepared(prep: Preparation, key: DocKey, content: string, metadata: Metadata, title: string, style: string,
                    chunks: seq<Chunk>): PreparedDocument
  {
    var text := prep.normalize(content);
    PreparedDocument(key, title, text, metadata, prep.contentHash(title, text, metadata), style, "", ChunksFrom(prep, key, chunks))
  }

  /** The chunks of a document text, none of them empty and all of them in order. */
  ghost predicate ChunksOf(text: string, o: Options, windows: seq<Window>) {
    if Refused(Raw(text), o) then windows == []
    else Chained(windows, |DocumentCells(Clean(Raw(text)))|) &&
         forall w :: w in windows ==> WindowOk(DocumentCells(Clean(Raw(text))), w, o)
  }

  /** `prepare_chunks`: refused for an empty key or an empty content. What it makes is accepted by the backend at any
      revision but zero exactly when no two windows of the chunker make chunks under one key. */
  method PrepareChunks(prep: Preparation, key: DocKey, content: string, metadata: Metadata, title: string, style: string, o: Options)
    returns (r: Result<PreparedDocument>, ghost windows: seq<Window>)
    requires PreparationOk(prep) && style != ""
    ensures r.Err? <==> key == "" || content == ""
    ensures r.Ok? ==> ChunksOf(prep.normalize(content), o, windows)
    ensures r.Ok? ==> r.value == Prepared(prep, key, content, metadata, title, style, Produced(windows))
    ensures r.Ok? ==> forall revision: nat :: ValidDocument(prep, r.value, revision) <==> revision != 0 && !Collide(prep, key, windows)
    ensures r.Ok? && LinesFit(Clean(Raw(prep.normalize(content))), o) && TellsLines(prep) ==>
      forall revision: nat :: ValidDocument(prep, r.value, revision) <==> revision != 0
  {
    hide Ran, AllPieces, Lines, LinesFit, TellsLines, StartsApart, PreparationOk, ValidDocument, Collide, WindowOk, DocumentCells, Clean, Refused, Chained, Produced;
    windows := [];
    if key == "" || content == "" {
      return Err(InvalidArgument), [];
    }
    var text := prep.normalize(content);
    var chunks;
    ghost var rounds;
    chunks, windows, rounds := ChunkDocument(Raw(text), o);
    if Refused(Raw(text), o) {
      windows := [];
      NothingProduced();
    }
    if LinesFit(Clean(Raw(text)), o) && TellsLines(prep) {
      ApartDiffer(prep, key, windows);
    }
    var prepared: seq<PreparedChunk> := [];
    for i := 0 to |chunks|
      invariant |prepared| == i && forall j :: 0 <= j < i ==> prepared[j] == PreparedFrom(prep, key, chunks[j], j)
    {
      var c := chunks[i];
      var body, context := AsText(c.text), AsText(c.context);
      var indexed := if context == "" then body else context + "\n" + body;
      prepared := prepared +
        [PreparedChunk(prep.chunkKey(key, c.startLine, c.endLine, body), i, body, indexed, context, c.startLine, c.endLine, [])];
    }
    assert prepared == ChunksFrom(prep, key, chunks);
    var p := PreparedDocument(key, title, text, metadata, prep.contentHash(title, text, metadata), style, "", prepared);
    forall revision: nat
      ensures ValidDocument(prep, p, revision) <==> revision != 0 && !Collide(prep, key, windows)
    {
      PreparedValidIff(prep, key, content, metadata, title, style, o, windows, revision);
    }
    return Ok(p), windows;
  }

  /** Chunks of one document that start on different lines have different keys. */
  ghost predicate TellsLines(prep: Preparation) {
    forall d, a, b, t, a', b', t' :: a != a' ==> prep.chunkKey(d, a, b, t) != prep.chunkKey(d, a', b', t')
  }

  /** When no line is longer than the limit, no two chunks start on one line, and the backend accepts the document. */
  lemma ApartDiffer(prep: Preparation, d: DocKey, windows: seq<Window>)
    requires TellsLines(prep) && StartsApart(windows)
    ensures !Collide(prep, d, windows)
  {
    hide TellsLines;
    forall a, b | 0 <= a < b < |windows|
      ensures !SameKey(prep, d, windows[a].chunk, windows[b].chunk)
    {
      if windows[a].chunk.Some? && windows[b].chunk.Some? {
        LinesTell(prep, d, windows[a].chunk.value, windows[b].chunk.value);
      }
    }
  }

  lemma LinesTell(prep: Preparation, d: DocKey, a: Chunk, b: Chunk)
    requires TellsLines(prep) && a.startLine != b.startLine
    ensures KeyFor(prep, d, a) != KeyFor(prep, d, b)
  {
  }

  lemma NothingProduced()
    ensures Produced([]) == [] && StartsApart([])
  {
  }

  /** Every chunk comes from a window that is not blank. */
  lemma {:induction false} ProducedFrom(ws: seq<Window>)
    ensures forall c :: c in Produced(ws) ==> exists a :: 0 <= a < |ws| && ws[a].chunk == Some(c)
  {
    if ws != [] {
      var n := |ws| - 1;
      ProducedFrom(ws[..n]);
      forall c | c in Produced(ws)
        ensures exists a :: 0 <= a < |ws| && ws[a].chunk == Some(c)
      {
        if c in Produced(ws[..n]) {
          var a :| 0 <= a < n && ws[..n][a].chunk == Some(c);
          assert ws[a].chunk == Some(c);
        } else {
          assert ws[n].chunk == Some(c);
        }
      }
    }
  }

  /** A chunk has text, and its lines are in order. */
  lemma ProducedWhole(text: string, o: Options, windows: seq<Window>, c: Chunk)
    requires ChunksOf(text, o, windows) && c in Produced(windows)
    ensures c.text != [] && c.startLine <= c.endLine
  {
    hide Shaped, Clean, DocumentCells, NonSpace, Spans.Text, Refused, Chained;
    ProducedFrom(windows);
    var a :| 0 <= a < |windows| && windows[a].chunk == Some(c);
    assert windows[a] in windows;
  }

  lemma PreparedValidIff(prep: Preparation, key: DocKey, content: string, metadata: Metadata, title: string, style: string,
                         o: Options, windows: seq<Window>, revision: nat)
    requires PreparationOk(prep) && style != "" && key != "" && ChunksOf(prep.normalize(content), o, windows)
    ensures var p := Prepared(prep, key, content, metadata, title, style, Produced(windows));
      ValidDocument(prep, p, revision) <==> revision != 0 && !Collide(prep, key, windows)
  {
    hide Collide, ChunksOf, Produced;
    var p := Prepared(prep, key, content, metadata, title, style, Produced(windows));
    ProducedKeys(prep, key, windows);
    hide HasKey;
    var chunks := Produced(windows);
    forall i | 0 <= i < |chunks|
      ensures ValidChunk(prep, p, i)
    {
      ProducedWhole(prep.normalize(content), o, windows, chunks[i]);
    }
    assert DistinctKeys(p) <==> KeysDiffer(prep, key, chunks) by {
      SameDistinct(prep, key, chunks, p);
    }
  }

  lemma SameDistinct(prep: Preparation, key: DocKey, chunks: seq<Chunk>, p: PreparedDocument)
    requires p.chunks == ChunksFrom(prep, key, chunks)
    ensures DistinctKeys(p) <==> KeysDiffer(prep, key, chunks)
  {
    hide KeyFor;
    if DistinctKeys(p) {
      forall i, j | 0 <= i < j < |chunks|
        ensures KeyFor(prep, key, chunks[i]) != KeyFor(prep, key, chunks[j])
      {
        assert p.chunks[i].key != p.chunks[j].key;
      }
    }
  }

  // --------------------------------------------------------------------- embedding

  function WithVectors(chunks: seq<PreparedChunk>, vectors: seq<Vector>): (r: seq<PreparedChunk>)
    requires |vectors| == |chunks|
    ensures |r| == |chunks| && forall i :: 0 <= i < |chunks| ==> r[i] == chunks[i].(embedding := vectors[i])
  {
    seq(|chunks|, i requires 0 <= i < |chunks| => chunks[i].(embedding := vectors[i]))
  }

  /** `embed_document` gives every chunk a normalised vector of the embedder's dimension. */
  function Embedded(p: PreparedDocument, vectors: seq<Vector>, identity: string): PreparedDocument
    requires |vectors| == |p.chunks|
  {
    p.(chunks := WithVectors(p.chunks, vectors), embeddingIdentity := identity)
  }

  /** Embedding does not change what validation says. */
  lemma EmbeddedValidIff(prep: Preparation, p: PreparedDocument, vectors: seq<Vector>, identity: string, dimension: nat, revision: nat)
    requires |vectors| == |p.chunks| && identity != "" && forall c :: c in p.chunks ==> c.embedding == []
    requires forall i :: 0 <= i < |vectors| ==> |vectors[i]| == dimension && Normalized(vectors[i])
    ensures ValidDocument(prep, Embedded(p, vectors, identity), revision) <==> ValidDocument(prep, p, revision)
  {
    hide Normalized;
    var q := Embedded(p, vectors, identity);
    forall i | 0 <= i < |p.chunks|
      ensures ValidChunk(prep, q, i) <==> ValidChunk(prep, p, i)
    {
      assert p.chunks[i] in p.chunks;
    }
    assert DistinctKeys(q) <==> DistinctKeys(p) by {
      if DistinctKeys(q) {
        forall i, j | 0 <= i < j < |p.chunks|
          ensures p.chunks[i].key != p.chunks[j].key
        {
          assert q.chunks[i].key != q.chunks[j].key;
        }
      }
    }
    assert SameDimension(q) && SameDimension(p);
  }

  // ------------------------------------------------ a line of one repeated character

  const LETTER: byte := 97

  /** Counts scalars: the bytes that continue none. */
  function Scalars(t: Blob): nat {
    if t == [] then 0 else Scalars(t[..|t| - 1]) + if Continuation(t[|t| - 1]) then 0 else 1
  }

  /** One span to a window, and at most `limit` scalars. */
  function ByScalars(limit: nat): Options {
    Options(0, 0, 0, false, 0, limit, 0, 0, [], false, Some((t: Blob) => Scalars(t)))
  }

  lemma {:induction false} ScalarsConcat(a: Blob, b: Blob)
    ensures Scalars(a + b) == Scalars(a) + Scalars(b)
  {
    if b == [] {
      assert a + b == a;
    } else {
      var n := |b| - 1;
      ScalarsConcat(a, b[..n]);
      assert (a + b)[..|a + b| - 1] == a + b[..n];
    }
  }

  lemma {:induction false} NoScalars(t: Blob)
    requires forall i :: 0 <= i < |t| ==> Continuation(t[i])
    ensures Scalars(t) == 0
  {
    if t != [] {
      NoScalars(t[..|t| - 1]);
    }
  }

  lemma ByScalarsIsFair(limit: nat)
    requires limit > 0
    ensures LimitHolds(ByScalars(limit)) && UsableLimit(ByScalars(limit)) == limit && MaxLines(ByScalars(limit)) == 1
  {
    var o := ByScalars(limit);
    forall a: Blob, b: Blob
      ensures Count(a, o) <= Count(a + b, o)
    {
      ScalarsConcat(a, b);
    }
    forall s: Blob | s != [] && NextUtf8(s, 0) == |s|
      ensures Fits([], s, o)
    {
      assert s == s[..1] + s[1..];
      ScalarsConcat(s[..1], s[1..]);
      assert s[..1][..0] == [];
      NoScalars(s[1..]);
      assert EmbeddingForm([], s, o) == s;
    }
  }

  function Letters(n: nat): Blob { seq(n, _ => LETTER) }

  lemma {:induction false} LettersAreWhole(n: nat)
    ensures Shaped(Letters(n)) && CR !in Letters(n) && LF !in Letters(n)
  {
    if n > 0 {
      LettersAreWhole(n - 1);
      assert Letters(n)[1..] == Letters(n - 1);
    }
  }

  lemma LetterCells(n: nat)
    requires n > 0
    ensures Clean(Letters(n)) == Letters(n) && DocumentCells(Letters(n)) == ByteCells(Letters(n), 0)
  {
    LettersAreWhole(n);
    CleanKeeps(Letters(n));
    var t := Letters(n);
    var end := FindLine(t, 0);
    assert end == n;
    assert t[0..n] == t;
    assert Lines(t, 0) == [t];
    var lines := [t];
    assert lines[1..] == [] && LineCells(lines[1..], 1) == [];
    assert LineCells(lines, 0) == SpanCells(Span(t, 0)) + LineCells(lines[1..], 1);
  }

  lemma {:induction false} TextOfLetters(cells: seq<Cell>)
    requires forall i :: 0 <= i < |cells| ==> cells[i] == Cell(0, Some(LETTER))
    ensures Spans.Text(cells) == Letters(|cells|) && |NonSpace(Spans.Text(cells))| == |cells|
  {
    if cells != [] {
      var n := |cells| - 1;
      TextOfLetters(cells[..n]);
      var front := Spans.Text(cells[..n]);
      assert Spans.Text(cells) == front + [LETTER];
      assert (front + [LETTER])[..|front|] == front;
    }
  }

  lemma {:induction false} LettersCount(n: nat)
    ensures Scalars(Letters(n)) == n
  {
    if n > 0 {
      LettersCount(n - 1);
      assert Letters(n)[..n - 1] == Letters(n - 1);
    }
  }

  lemma {:induction false} NonSpaceShorter(t: Blob)
    ensures |NonSpace(t)| <= |t|
  {
    if t != [] {
      NonSpaceShorter(t[..|t| - 1]);
    }
  }

  /** A window of such a line is text of its length, on the first line. */
  lemma WindowText(n: nat, lo: nat, hi: nat)
    requires n > 0 && lo < hi <= |DocumentCells(Letters(n))|
    ensures var cells := DocumentCells(Letters(n)); var t := Spans.Text(cells[lo..hi]);
      t == Letters(hi - lo) && |NonSpace(t)| == hi - lo && cells[lo].line == 0 && cells[hi - 1].line == 0
  {
    hide NonSpace, Spans.Text, DocumentCells;
    LetterCells(n);
    TextOfLetters(DocumentCells(Letters(n))[lo..hi]);
  }

  /** Nothing of it can be trimmed. */
  lemma WholeText(text: Blob, n: nat)
    requires text <= Letters(n) && |NonSpace(text)| == n
    ensures text == Letters(n)
  {
    NonSpaceShorter(text);
    hide NonSpace;
    assert |text| == n;
  }

  /** A window of such a line holds as many letters as it has cells, and no more than the limit. */
  lemma SomeLetters(n: nat, w: Window, limit: nat)
    requires n > 0 && limit > 0 && WindowOk(DocumentCells(Letters(n)), w, ByScalars(limit))
    ensures w.lo < w.hi <= w.lo + limit && w.chunk.Some? && w.chunk.value.text == Letters(w.hi - w.lo)
    ensures w.chunk.value.startLine == 0 && w.chunk.value.endLine == 0
  {
    hide Shaped, LimitHolds, Clean, DocumentCells, NonSpace, Spans.Text, EmbeddingForm, Scalars, MaxLines, UsableLimit;
    WindowText(n, w.lo, w.hi);
    ByScalarsIsFair(limit);
    var c := w.chunk.value;
    WholeText(c.text, w.hi - w.lo);
    LettersCount(w.hi - w.lo);
    FormCounts(c.context, c.text, limit);
  }

  lemma FormCounts(context: Blob, body: Blob, limit: nat)
    ensures Scalars(body) <= Scalars(EmbeddingForm(context, body, ByScalars(limit)))
  {
    var head := context + (if context != [] && body != [] then [LF] else []);
    assert EmbeddingForm(context, body, ByScalars(limit)) == head + body;
    ScalarsConcat(head, body);
  }

  /** Windows no longer than the limit do not get far. */
  lemma {:induction false} ShortWindows(ws: seq<Window>, total: nat, limit: nat)
    requires Chained(ws, total) && forall w :: w in ws ==> w.hi <= w.lo + limit
    ensures total <= limit * |ws|
  {
    var n := |ws| - 1;
    assert ws[n] in ws;
    if n > 0 {
      var rest := ws[..n];
      assert ws[n - 1] == rest[n - 1];
      ShortWindows(rest, rest[n - 1].hi, limit);
    }
    OneMoreTimes(limit, n);
  }

  lemma OneMoreTimes(limit: nat, n: nat)
    ensures limit * (n + 1) == limit * n + limit
  {
  }

  /** More numbers than there are places up to the limit: two are equal. */
  lemma {:induction false} TwoEqual(lengths: seq<nat>, limit: nat)
    requires |lengths| > limit && forall i :: 0 <= i < |lengths| ==> 0 < lengths[i] <= limit
    ensures exists i, j :: 0 <= i < j < |lengths| && lengths[i] == lengths[j]
  {
    if forall i, j :: 0 <= i < j < |lengths| ==> lengths[i] != lengths[j] {
      var all := set i | 0 <= i < |lengths| :: lengths[i];
      DistinctCount(lengths);
      SubsetSize(all, UpTo(limit));
    }
  }

  lemma {:induction false} DistinctCount(s: seq<nat>)
    requires forall i, j :: 0 <= i < j < |s| ==> s[i] != s[j]
    ensures |set i | 0 <= i < |s| :: s[i]| == |s|
  {
    if s != [] {
      var n := |s| - 1;
      DistinctCount(s[..n]);
      var front := set i | 0 <= i < n :: s[..n][i];
      assert (set i | 0 <= i < |s| :: s[i]) == front + {s[n]};
    }
  }

  function UpTo(n: nat): (r: set<nat>)
    ensures |r| == n && forall i :: i in r <==> 0 < i <= n
  {
    if n == 0 then {} else UpTo(n - 1) + {n}
  }

  /** A line of one letter, longer than the square of the limit: whatever windows the chunker makes of it, two of them hold
      equal text and collide, and the backend refuses the document at every revision. */
  lemma RepeatedLetterRefused(prep: Preparation, key: DocKey, limit: nat, n: nat, windows: seq<Window>)
    requires limit > 0 && n > limit * limit && Chained(windows, n)
    requires forall w :: w in windows ==> WindowOk(DocumentCells(Letters(n)), w, ByScalars(limit))
    ensures Collide(prep, key, windows)
  {
    hide WindowOk, DocumentCells, Chained, Letters;
    forall w | w in windows
      ensures w.lo < w.hi <= w.lo + limit && w.chunk.Some? && w.chunk.value.text == Letters(w.hi - w.lo)
      ensures w.chunk.value.startLine == 0 && w.chunk.value.endLine == 0
    {
      SomeLetters(n, w, limit);
    }
    ManyWindows(windows, n, limit);
    var lengths: seq<nat> := seq(|windows|, i requires 0 <= i < |windows| => Length(windows[i]));
    assert forall i :: 0 <= i < |windows| ==> windows[i] in windows;
    TwoEqual(lengths, limit);
    var i, j :| 0 <= i < j < |lengths| && lengths[i] == lengths[j];
    assert SameKey(prep, key, windows[i].chunk, windows[j].chunk);
  }

  /** A line longer than the square of the limit takes more windows than the limit. */
  lemma ManyWindows(ws: seq<Window>, total: nat, limit: nat)
    requires total > limit * limit && Chained(ws, total) && forall w :: w in ws ==> w.hi <= w.lo + limit
    ensures |ws| > limit
  {
    ShortWindows(ws, total, limit);
    hide Chained;
    if |ws| <= limit {
      Times(limit, |ws|, limit);
    }
  }

  function Length(w: Window): nat { if w.lo <= w.hi then w.hi - w.lo else 0 }

  lemma Times(a: nat, b: nat, c: nat)
    requires b <= c
    ensures a * b <= a * c
  {
  }
}
