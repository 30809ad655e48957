/** `chunk_document`: windows over the spans of a document, with in-place splits, overlap and a hard limit. */
module Chunker {
  import opened Wrappers
  import opened Bytes
  import opened Utf8
  import opened ChunkSplit
  import opened Spans
  import opened Filling

  datatype Chunk = Chunk(text: Blob, context: Blob, startLine: nat, endLine: nat)

  /** A range of cells, and the chunk made of it unless it was blank. */
  datatype Window = Window(lo: nat, hi: nat, chunk: Option<Chunk>)

  /** The chunk's text is its window's but for white space, only trailing white space when a window is one span; its lines
      are its window's first and last line, and it keeps the hard limit. */
  ghost predicate WindowOk(cells: seq<Cell>, w: Window, o: Options) {
    w.lo < w.hi <= |cells| &&
    match w.chunk
    case None => NonSpace(Text(cells[w.lo..w.hi])) == []
    case Some(c) =>
      c.text != [] && Shaped(c.text) && NonSpace(c.text) == NonSpace(Text(cells[w.lo..w.hi])) &&
      c.startLine == cells[w.lo].line && c.endLine == cells[w.hi - 1].line && c.startLine <= c.endLine &&
      (MaxLines(o) == 1 ==> c.text <= Text(cells[w.lo..w.hi])) && (LimitHolds(o) ==> Fits(c.context, c.text, o))
  }

  function Produced(ws: seq<Window>): seq<Chunk> {
    if ws == [] then []
    else
      var last := ws[|ws| - 1].chunk;
      Produced(ws[..|ws| - 1]) + if last.Some? then [last.value] else []
  }

  /** Window starts strictly increase, no window starts after the one before it has ended, and `next` is where
      the following one may start. */
  ghost predicate Chaining(ws: seq<Window>, next: nat) {
    (ws == [] ==> next == 0) && (ws != [] ==> ws[0].lo == 0 && ws[|ws| - 1].lo < next <= ws[|ws| - 1].hi) &&
    forall k :: 0 <= k < |ws| - 1 ==> ws[k].lo < ws[k + 1].lo <= ws[k].hi
  }

  ghost predicate Chained(ws: seq<Window>, total: nat) {
    ws != [] && ws[0].lo == 0 && ws[|ws| - 1].hi == total &&
    forall k :: 0 <= k < |ws| - 1 ==> ws[k].lo < ws[k + 1].lo <= ws[k].hi
  }

  /** Nothing is lost: every cell lies in some window. */
  lemma {:induction false} EveryCellCovered(ws: seq<Window>, total: nat, cell: nat)
    requires Chained(ws, total) && cell < total
    ensures exists k :: 0 <= k < |ws| && ws[k].lo <= cell < ws[k].hi
  {
    var n := |ws| - 1;
    if cell < ws[n].lo {
      var rest := ws[..n];
      assert cell < rest[n - 1].hi;
      EveryCellCovered(rest, rest[n - 1].hi, cell);
      var k :| 0 <= k < |rest| && rest[k].lo <= cell < rest[k].hi;
      assert ws[k] == rest[k];
    }
  }

  /** No two chunks start on one line. */
  ghost predicate StartsApart(ws: seq<Window>) {
    forall a, b :: 0 <= a < b < |ws| && ws[a].chunk.Some? && ws[b].chunk.Some? ==>
      ws[a].chunk.value.startLine < ws[b].chunk.value.startLine
  }

  /** All of them start before line `n`. */
  ghost predicate StartsBelow(ws: seq<Window>, n: nat) {
    StartsApart(ws) && forall a :: 0 <= a < |ws| && ws[a].chunk.Some? ==> ws[a].chunk.value.startLine < n
  }

  lemma StartsNext(ws: seq<Window>, w: Window, start: nat, next: nat)
    requires StartsBelow(ws, start) && start < next && (w.chunk.Some? ==> w.chunk.value.startLine == start)
    ensures StartsBelow(ws + [w], next)
  {
  }

  lemma NumberedAt(spans: seq<Span>, start: nat, o: Options)
    requires Numbered(spans, o) && start < |spans|
    ensures spans[start].line == start
  {
  }

  lemma NumberedUnsplit(spans: seq<Span>, o: Options)
    requires Numbered(spans, o) && !o.headingContext
    ensures Unsplit(spans, o)
  {
    hide Fits;
  }

  ghost predicate Refused(input: Blob, o: Options) {
    (o.rejectInvalid && !Shaped(input)) || Clean(input) == [] || (o.prefix != [] && Count(o.prefix, o) >= UsableLimit(o))
  }

  /** What one window makes of the text it gathered. */
  lemma WindowMade(spans: seq<Span>, start: nat, i: nat, gathered: Blob, text: Blob, context: Blob, o: Options) returns (w: Window)
    requires start < i <= |spans| && TextOk(gathered, spans, start, i) && LineOrder(Cells(spans))
    requires NonSpace(text) == NonSpace(gathered) && (text == [] <==> NonSpace(gathered) == []) && Shaped(text)
    requires |text| <= |gathered| && gathered[..|text|] == text
    requires MaxLines(o) == 1 ==> gathered == Text(Cells(spans[start..i]))
    requires LimitHolds(o) ==> context == [] && (gathered == [] || Fits([], gathered, o))
    ensures WindowOk(Cells(spans), w, o) && w.lo == Pos(spans, start) && w.hi == Pos(spans, i)
    ensures w.chunk == if text == [] then None else Some(Chunk(text, context, spans[start].line, spans[i - 1].line))
  {
    hide Shaped, Cells, FairMeasure, Fits, NonSpace, Text, Pos;
    EndLines(spans, start, i);
    CellsSlice(spans, start, i);
    if LimitHolds(o) && text != [] {
      PrefixFits(text, gathered, o);
    }
    w := Window(Pos(spans, start), Pos(spans, i),
                if text == [] then None else Some(Chunk(text, context, spans[start].line, spans[i - 1].line)));
  }

  /** A window of one span gathers the text of that span. */
  lemma OneSpanGathered(spans: seq<Span>, start: nat, i: nat, contexts: seq<Blob>, text: Blob, o: Options)
    requires Gathered(spans, start, i, contexts, text, o) && i == start + 1
    ensures text == Text(Cells(spans[start..i]))
  {
    hide Text, Cells, SpanCells;
    var s := spans[start];
    assert spans[start..i] == [s] && [s][..0] == [] && TextAfter([]) == [];
    CandidateIs([], s);
    OneSpan(s);
    TextOfSpan(s);
  }

  /** The tokens of a list of spans. */
  function TokensIn(spans: seq<Span>, o: Options): nat {
    if spans == [] then 0 else Count(spans[0].text, o) + TokensIn(spans[1..], o)
  }

  /** Where the next window starts: after this window's first span, and before its end by the overlap. */
  method Rewind(spans: seq<Span>, start: nat, i: nat, o: Options) returns (next: nat)
    requires start < i <= |spans|
    ensures start < next <= i && (i == |spans| ==> next == i)
    ensures i < |spans| && (if o.maxTokens != 0 then o.overlapTokens else o.overlapLines) == 0 ==> next == i
    ensures i < |spans| && o.maxTokens == 0 ==> next == if o.overlapLines < i - start then i - o.overlapLines else start + 1
    ensures i < |spans| && o.maxTokens != 0 ==> next == start + 1 || TokensIn(spans[next..i], o) >= o.overlapTokens
    ensures i < |spans| && o.maxTokens != 0 && next < i ==> TokensIn(spans[next + 1..i], o) < o.overlapTokens
  {
    if i == |spans| {
      return i;
    }
    var overlap := if o.maxTokens != 0 then o.overlapTokens else o.overlapLines;
    var back: nat, j := 0, i;
    while j > start + 1 && back < overlap
      invariant start < j <= i && (overlap == 0 ==> j == i)
      invariant o.maxTokens == 0 ==> back == i - j <= overlap
      invariant o.maxTokens != 0 ==> back == TokensIn(spans[j..i], o) && (j < i ==> TokensIn(spans[j + 1..i], o) < overlap)
      decreases j
    {
      j := j - 1;
      assert spans[j..i][1..] == spans[j + 1..i];
      back := back + if o.maxTokens != 0 then Count(spans[j].text, o) else 1;
    }
    return if j > start && j < i then j else i;
  }

  // ------------------------------------------------------------------------- rounds

  /** One round of the outer loop: the spans before and after it, the spans of its window, what was met on the way, the text
      gathered, and the context and the headings in hand at its end. */
  datatype Round = Round(before: seq<Span>, spans: seq<Span>, start: nat, end: nat, fill: Fill, gathered: Blob, context: Blob,
                         left: Headings)

  /** The window was filled as the inner loop fills it, ends for one of its reasons, and could not have ended earlier. */
  ghost predicate RoundOk(r: Round, o: Options) {
    Filled(r.before, r.spans, r.start, r.end, r.fill, r.left, r.context, o) && r.end - r.start <= MaxLines(o) &&
    Gathered(r.spans, r.start, r.end, r.fill.contexts, r.gathered, o) &&
    NotFull(r.spans, r.start, r.fill.contexts, |r.fill.contexts| - 1, o) &&
    StopsHere(r.spans, r.start, r.end, r.gathered, r.context, r.fill.contexts, o)
  }

  /** Where the next window starts: by lines, exactly so many spans before the end of this one, or at its second span; by
      tokens, with the fewest spans that reach the overlap. */
  ghost predicate Overlaps(r: Round, next: nat, o: Options)
    requires r.start < r.end < |r.spans|
  {
    r.start < next <= r.end &&
    if o.maxTokens == 0 then next == if o.overlapLines < r.end - r.start then r.end - o.overlapLines else r.start + 1
    else (next == r.start + 1 || TokensIn(r.spans[next..r.end], o) >= o.overlapTokens) &&
         (next < r.end ==> TokensIn(r.spans[next + 1..r.end], o) < o.overlapTokens)
  }

  /** The text without its trailing white space. */
  predicate Trimmed(text: Blob, r: Blob) {
    r <= text && NonSpace(r) == NonSpace(text) && (r != [] ==> !IsSpace(r[|r| - 1]))
  }

  /** The window of a round, and its chunk: the trimmed text under the context in hand. */
  ghost predicate WindowOf(r: Round, w: Window) {
    r.start < r.end <= |r.spans| && w.lo == Pos(r.spans, r.start) && w.hi == Pos(r.spans, r.end) &&
    match w.chunk
    case None => Trimmed(r.gathered, [])
    case Some(c) =>
      c.text != [] && Trimmed(r.gathered, c.text) && c.context == r.context && c.startLine == r.spans[r.start].line &&
      c.endLine == r.spans[r.end - 1].line
  }

  ghost predicate Follows(r: Round, next: Round, o: Options) {
    r.start < r.end < |r.spans| && next.before == r.spans && next.fill.given == r.left && Overlaps(r, next.start, o)
  }

  /** The rounds so far, from the pieces of the document's lines on. */
  ghost predicate Running(rounds: seq<Round>, windows: seq<Window>, pieces: seq<Span>, o: Options) {
    |rounds| == |windows| && (forall k :: 0 <= k < |rounds| ==> RoundOk(rounds[k], o) && WindowOf(rounds[k], windows[k])) &&
    (rounds != [] ==> rounds[0].before == pieces && rounds[0].start == 0 && rounds[0].fill.given == NoHeadings) &&
    forall k :: 0 <= k < |rounds| - 1 ==> Follows(rounds[k], rounds[k + 1], o)
  }

  /** All rounds, up to the end of the document. */
  ghost predicate Ran(rounds: seq<Round>, windows: seq<Window>, pieces: seq<Span>, o: Options) {
    Running(rounds, windows, pieces, o) && rounds != [] && rounds[|rounds| - 1].end == |rounds[|rounds| - 1].spans|
  }

  /** What the next round finds. */
  ghost predicate Reached(rounds: seq<Round>, pieces: seq<Span>, spans: seq<Span>, i: nat, headings: Headings, o: Options) {
    if rounds == [] then spans == pieces && i == 0 && headings == NoHeadings
    else
      var r := rounds[|rounds| - 1];
      r.start < r.end <= |r.spans| && spans == r.spans && headings == r.left &&
      if r.end == |r.spans| then i == r.end else Overlaps(r, i, o)
  }

  lemma RoundMade(r: Round, text: Blob, w: Window, o: Options)
    requires Filled(r.before, r.spans, r.start, r.end, r.fill, r.left, r.context, o) && r.start < r.end <= |r.spans|
    requires r.end - r.start <= MaxLines(o) && Gathered(r.spans, r.start, r.end, r.fill.contexts, r.gathered, o)
    requires NotFull(r.spans, r.start, r.fill.contexts, |r.fill.contexts| - 1, o)
    requires StopsHere(r.spans, r.start, r.end, r.gathered, r.context, r.fill.contexts, o)
    requires text <= r.gathered && NonSpace(text) == NonSpace(r.gathered) && (text != [] ==> !IsSpace(text[|text| - 1]))
    requires w.lo == Pos(r.spans, r.start) && w.hi == Pos(r.spans, r.end)
    requires w.chunk == if text == [] then None else Some(Chunk(text, r.context, r.spans[r.start].line, r.spans[r.end - 1].line))
    ensures RoundOk(r, o) && WindowOf(r, w)
  {
    hide Filled, Gathered, NotFull, StopsHere, NonSpace, Pos, MaxLines;
  }

  lemma NextOverlaps(r: Round, next: nat, o: Options)
    requires r.start < next <= r.end < |r.spans|
    requires o.maxTokens == 0 ==> next == if o.overlapLines < r.end - r.start then r.end - o.overlapLines else r.start + 1
    requires o.maxTokens != 0 ==> next == r.start + 1 || TokensIn(r.spans[next..r.end], o) >= o.overlapTokens
    requires o.maxTokens != 0 && next < r.end ==> TokensIn(r.spans[next + 1..r.end], o) < o.overlapTokens
    ensures Overlaps(r, next, o)
  {
    hide TokensIn;
  }

  lemma RunningNext(rounds: seq<Round>, windows: seq<Window>, pieces: seq<Span>, r: Round, w: Window, next: nat, o: Options)
    requires Running(rounds, windows, pieces, o) && Reached(rounds, pieces, r.before, r.start, r.fill.given, o)
    requires RoundOk(r, o) && WindowOf(r, w) && r.start < |r.before|
    requires r.start < r.end <= |r.spans| && if r.end == |r.spans| then next == r.end else Overlaps(r, next, o)
    ensures Running(rounds + [r], windows + [w], pieces, o) && Reached(rounds + [r], pieces, r.spans, next, r.left, o)
  {
    hide RoundOk, WindowOf, Overlaps;
    var rounds' := rounds + [r];
    forall k | 0 <= k < |rounds'| - 1
      ensures Follows(rounds'[k], rounds'[k + 1], o)
    {
      if k < |rounds| - 1 {
        assert Follows(rounds[k], rounds[k + 1], o);
      }
    }
  }

  /** `chunk_document`. Its loops terminate for every input, every option and every measurer. */
  method ChunkDocument(input: Blob, o: Options)
    returns (out: seq<Chunk>, ghost windows: seq<Window>, ghost rounds: seq<Round>)
    ensures Refused(input, o) ==> out == []
    ensures !Refused(input, o) ==> Chained(windows, |DocumentCells(Clean(input))|) && out == Produced(windows)
    ensures !Refused(input, o) ==> Ran(rounds, windows, AllPieces(Lines(Clean(input), 0), 0, o), o)
    ensures forall w :: w in windows ==> WindowOk(DocumentCells(Clean(input)), w, o)
    ensures LinesFit(Clean(input), o) ==> StartsApart(windows)
  {
    hide LinesFit, Numbered, Unsplit, StartsBelow, Shaped, Clean, WindowOk, Produced, Cells, DocumentCells, LineOrder, StopsHere,
         Chaining, Chained, Gathered, NotFull, Filled, Running, Reached, AllPieces, RoundOk, WindowOf, Overlaps, Ran, TextOk,
         SameSpans, NonSpace, Spans.Text, FairMeasure, Fits, LimitHolds, MaxLines, TokensIn;
    out, windows, rounds := [], [], [];
    var body, valid := NormalizeInput(input, o.rejectInvalid);
    if !valid || body == [] {
      return;
    }
    if Count(o.prefix, o) >= UsableLimit(o) && o.prefix != [] {
      return;
    }
    CleanIsShaped(input);
    var spans := CutLines(body, o);
    ghost var cells, pieces := DocumentCells(body), spans;
    CellsInOrder(body);
    var headings: Headings := [[], [], [], [], [], [], []];
    var i := 0;
    NothingChained(spans);
    ghost var whole := LinesFit(body, o);
    NoStarts();
    NothingRun(pieces, o);
    while i < |spans|
      invariant whole ==> Numbered(spans, o) && StartsBelow(windows, i)
      invariant spans != [] && 0 <= i <= |spans| && Cells(spans) == cells && AllShaped(spans)
      invariant Chaining(windows, Pos(spans, i)) && out == Produced(windows)
      invariant forall w :: w in windows ==> WindowOk(cells, w, o)
      invariant Running(rounds, windows, pieces, o) && Reached(rounds, pieces, spans, i, headings, o)
      invariant Pos(spans, i) <= |cells|
      decreases |cells| - Pos(spans, i)
    {
      hide Pos;
      var start := i;
      ghost var before := spans;
      if whole {
        FitUnsplit(body, spans, o);
        NumberedAt(spans, start, o);
      }
      var gathered, context;
      ghost var fill;
      spans, headings, i, gathered, context, fill := FillWindow(spans, start, headings, o);
      SamePos(before, spans, start);
      var text := TrimEnd(gathered);
      TextIsShaped(gathered, spans, start, i);
      if MaxLines(o) == 1 {
        OneSpanGathered(spans, start, i, fill.contexts, gathered, o);
      }
      ghost var w := WindowMade(spans, start, i, gathered, text, context, o);
      ProducedNext(windows, w);
      if text != [] {
        out := out + [Chunk(text, context, spans[start].line, spans[i - 1].line)];
      }
      if i == start {
        i := i + 1;
      }
      var next := Rewind(spans, start, i, o);
      ChainNext(windows, w, spans, start, next, i);
      if whole {
        StartsNext(windows, w, start, next);
      }
      ghost var r := Round(before, spans, start, i, fill, gathered, context, headings);
      RoundMade(r, text, w, o);
      if i < |spans| {
        NextOverlaps(r, next, o);
      }
      RunningNext(rounds, windows, pieces, r, w, next, o);
      windows, rounds := windows + [w], rounds + [r];
      i := next;
    }
    ChainEnd(windows, spans, i, cells, o);
    RunEnds(rounds, windows, pieces, spans, i, headings, o);
    if whole {
      StartsOf(windows, i);
    }
  }

  lemma TextIsShaped(text: Blob, spans: seq<Span>, start: nat, i: nat)
    requires TextOk(text, spans, start, i)
    ensures Shaped(text)
  {
  }

  lemma NothingRun(pieces: seq<Span>, o: Options)
    ensures Running([], [], pieces, o) && Reached([], pieces, pieces, 0, NoHeadings, o)
  {
  }

  lemma RunEnds(rounds: seq<Round>, windows: seq<Window>, pieces: seq<Span>, spans: seq<Span>, i: nat, headings: Headings, o: Options)
    requires Running(rounds, windows, pieces, o) && Reached(rounds, pieces, spans, i, headings, o)
    requires spans != [] && i == |spans|
    ensures Ran(rounds, windows, pieces, o)
  {
    hide RoundOk, WindowOf, Follows;
  }

  lemma NoStarts()
    ensures StartsBelow([], 0)
  {
  }

  lemma StartsOf(ws: seq<Window>, n: nat)
    requires StartsBelow(ws, n)
    ensures StartsApart(ws)
  {
  }

  lemma FitUnsplit(body: Blob, spans: seq<Span>, o: Options)
    requires LinesFit(body, o) && Numbered(spans, o)
    ensures Unsplit(spans, o)
  {
    hide Numbered, Unsplit, Growing, FitFrom;
    NumberedUnsplit(spans, o);
  }

  lemma CellsInOrder(body: Blob)
    ensures LineOrder(DocumentCells(body))
  {
    LinesInOrder(Lines(body, 0), 0);
  }

  lemma NothingChained(spans: seq<Span>)
    ensures Pos(spans, 0) == 0 && Chaining([], 0) && Produced([]) == []
  {
  }

  lemma SamePos(before: seq<Span>, spans: seq<Span>, start: nat)
    requires SameSpans(before, spans, start)
    ensures AllShaped(spans) && Cells(spans) == Cells(before) && Pos(spans, start) == Pos(before, start)
  {
    hide Shaped;
  }

  lemma ProducedNext(ws: seq<Window>, w: Window)
    ensures Produced(ws + [w]) == Produced(ws) + if w.chunk.Some? then [w.chunk.value] else []
  {
    assert (ws + [w])[..|ws|] == ws;
  }

  lemma ChainNext(ws: seq<Window>, w: Window, spans: seq<Span>, start: nat, next: nat, i: nat)
    requires start < next <= i <= |spans| && Chaining(ws, Pos(spans, start)) && w.lo == Pos(spans, start) && w.hi == Pos(spans, i)
    ensures Chaining(ws + [w], Pos(spans, next)) && Pos(spans, start) < Pos(spans, next) <= |Cells(spans)|
  {
    hide Pos, Cells;
    PosOrder(spans, start, next);
    if next < i {
      PosOrder(spans, next, i);
    }
    CellsSlice(spans, next, next);
  }

  lemma ChainEnd(ws: seq<Window>, spans: seq<Span>, i: nat, cells: seq<Cell>, o: Options)
    requires i == |spans| && spans != [] && Cells(spans) == cells && Chaining(ws, Pos(spans, i))
    requires forall w :: w in ws ==> WindowOk(cells, w, o)
    ensures Chained(ws, |cells|)
  {
    hide Shaped, Cells, Text, NonSpace, Fits, FairMeasure;
    CellsSlice(spans, 0, |spans|);
    PosOrder(spans, 0, |spans|);
    assert Pos(spans, 0) >= 0;
    assert ws[|ws| - 1] in ws;
    assert WindowOk(cells, ws[|ws| - 1], o);
  }
}
