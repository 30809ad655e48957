/** Spans and their cells: one cell per byte, one for an empty span. Cells are what an in-place split
    of a span leaves unchanged, so windows are ranges of cells. */
module Spans {
  import opened Wrappers
  import opened Collections
  import opened Bytes
  import opened Utf8
  import opened ChunkSplit

  datatype Span = Span(text: Blob, line: nat)

  datatype Cell = Cell(line: nat, content: Option<byte>)

  function ByteCells(t: Blob, line: nat): (cells: seq<Cell>)
    ensures |cells| == |t| && forall i :: 0 <= i < |t| ==> cells[i] == Cell(line, Some(t[i]))
  {
    seq(|t|, i requires 0 <= i < |t| => Cell(line, Some(t[i])))
  }

  function SpanCells(s: Span): (cells: seq<Cell>)
    ensures |cells| >= 1 && |cells| >= |s.text| && forall i :: 0 <= i < |cells| ==> cells[i].line == s.line
  {
    if s.text == [] then [Cell(s.line, None)] else ByteCells(s.text, s.line)
  }

  function Cells(spans: seq<Span>): seq<Cell> {
    if spans == [] then [] else Cells(spans[..|spans| - 1]) + SpanCells(spans[|spans| - 1])
  }

  lemma CellsNext(spans: seq<Span>, s: Span)
    ensures Cells(spans + [s]) == Cells(spans) + SpanCells(s)
  {
    assert (spans + [s])[..|spans|] == spans;
  }

  lemma {:induction false} CellsConcat(a: seq<Span>, b: seq<Span>)
    ensures Cells(a + b) == Cells(a) + Cells(b)
  {
    if b == [] {
      assert a + b == a && Cells(a) + [] == Cells(a);
    } else {
      hide Cells, SpanCells;
      var n := |b| - 1;
      CellsConcat(a, b[..n]);
      assert b == b[..n] + [b[n]];
      Reassociate(a, b[..n], [b[n]]);
      CellsNext(a + b[..n], b[n]);
      CellsNext(b[..n], b[n]);
      Reassociate(Cells(a), Cells(b[..n]), SpanCells(b[n]));
    }
  }

  /** The cell at which a span begins. */
  function Pos(spans: seq<Span>, i: nat): nat
    requires i <= |spans|
  {
    |Cells(spans[..i])|
  }

  lemma PosNext(spans: seq<Span>, i: nat)
    requires i < |spans|
    ensures Pos(spans, i) < Pos(spans, i + 1) == Pos(spans, i) + |SpanCells(spans[i])|
  {
    assert spans[..i + 1] == spans[..i] + [spans[i]];
    CellsNext(spans[..i], spans[i]);
  }

  lemma {:induction false} PosOrder(spans: seq<Span>, i: nat, j: nat)
    requires i < j <= |spans|
    ensures Pos(spans, i) < Pos(spans, j)
  {
    PosNext(spans, j - 1);
    if i < j - 1 {
      PosOrder(spans, i, j - 1);
    }
  }

  /** A range of spans is a range of cells. */
  lemma CellsSlice(spans: seq<Span>, i: nat, j: nat)
    requires i <= j <= |spans|
    ensures Pos(spans, i) <= Pos(spans, j) <= |Cells(spans)|
    ensures Cells(spans[i..j]) == Cells(spans)[Pos(spans, i)..Pos(spans, j)]
    ensures Pos(spans, |spans|) == |Cells(spans)|
  {
    assert spans == spans[..j] + spans[j..] && spans[..j] == spans[..i] + spans[i..j];
    CellsConcat(spans[..i], spans[i..j]);
    CellsConcat(spans[..j], spans[j..]);
    assert spans[..|spans|] == spans;
  }

  /** The cells of one span are found at its position. */
  lemma SpanAt(spans: seq<Span>, i: nat)
    requires i < |spans|
    ensures Pos(spans, i) < Pos(spans, i + 1) <= |Cells(spans)|
    ensures Cells(spans)[Pos(spans, i)].line == spans[i].line && Cells(spans)[Pos(spans, i + 1) - 1].line == spans[i].line
  {
    hide Cells, Pos, SpanCells;
    PosNext(spans, i);
    CellsSlice(spans, i, i + 1);
    assert spans[i..i + 1] == [spans[i]];
    OneSpan(spans[i]);
    var all, here := Cells(spans), SpanCells(spans[i]);
    SliceEnds(all, here, Pos(spans, i), Pos(spans, i + 1));
  }

  lemma SliceEnds(all: seq<Cell>, here: seq<Cell>, lo: nat, hi: nat)
    requires lo < hi <= |all| && here == all[lo..hi]
    ensures all[lo] == here[0] && all[hi - 1] == here[|here| - 1]
  {
  }

  /** The first and the last cell of a range of spans carry their lines. */
  lemma EndLines(spans: seq<Span>, i: nat, j: nat)
    requires i < j <= |spans|
    ensures Pos(spans, i) < Pos(spans, j) <= |Cells(spans)|
    ensures Cells(spans)[Pos(spans, i)].line == spans[i].line && Cells(spans)[Pos(spans, j) - 1].line == spans[j - 1].line
  {
    hide Cells, Pos;
    PosOrder(spans, i, j);
    SpanAt(spans, i);
    SpanAt(spans, j - 1);
  }

  lemma OneSpan(s: Span)
    ensures Cells([s]) == SpanCells(s)
  {
    assert [s][..0] == [];
    assert Cells([]) == [] && [] + SpanCells(s) == SpanCells(s);
  }

  // -------------------------------------------------------------- splitting a span

  function SplitSpan(spans: seq<Span>, i: nat, cut: nat): seq<Span>
    requires i < |spans| && cut <= |spans[i].text|
  {
    var s := spans[i];
    spans[..i] + [Span(s.text[..cut], s.line), Span(s.text[cut..], s.line)] + spans[i + 1..]
  }

  lemma SplitCells(s: Span, cut: nat)
    requires 0 < cut < |s.text|
    ensures SpanCells(Span(s.text[..cut], s.line)) + SpanCells(Span(s.text[cut..], s.line)) == SpanCells(s)
  {
  }

  /** A split leaves every cell, and every span before it, where it was. */
  lemma SplitKeeps(spans: seq<Span>, i: nat, cut: nat)
    requires i < |spans| && 0 < cut < |spans[i].text|
    ensures Cells(SplitSpan(spans, i, cut)) == Cells(spans) && SplitSpan(spans, i, cut)[..i] == spans[..i]
  {
    var s := spans[i];
    var a, b := Span(s.text[..cut], s.line), Span(s.text[cut..], s.line);
    hide Cells, SpanCells;
    SplitCells(s, cut);
    OneSpan(s);
    CellsNext([a], b);
    OneSpan(a);
    assert [a, b] == [a] + [b];
    Around(spans, i, [a, b]);
    SameAround(spans[..i], [s], [a, b], spans[i + 1..]);
  }

  lemma Around(spans: seq<Span>, i: nat, mid: seq<Span>)
    requires i < |spans|
    ensures spans == spans[..i] + [spans[i]] + spans[i + 1..] && (spans[..i] + mid + spans[i + 1..])[..i] == spans[..i]
  {
  }

  lemma SameAround(before: seq<Span>, x: seq<Span>, y: seq<Span>, after: seq<Span>)
    requires Cells(x) == Cells(y)
    ensures Cells(before + x + after) == Cells(before + y + after)
  {
    hide Cells;
    CellsConcat(before + x, after);
    CellsConcat(before, x);
    CellsConcat(before + y, after);
    CellsConcat(before, y);
  }

  // ------------------------------------------------------------------- text of cells

  function Text(cells: seq<Cell>): Blob {
    if cells == [] then []
    else
      var last := cells[|cells| - 1];
      Text(cells[..|cells| - 1]) + if last.content.Some? then [last.content.value] else []
  }

  function NonSpace(t: Blob): Blob {
    if t == [] then [] else NonSpace(t[..|t| - 1]) + if IsSpace(t[|t| - 1]) then [] else [t[|t| - 1]]
  }

  lemma {:induction false} NonSpaceConcat(a: Blob, b: Blob)
    ensures NonSpace(a + b) == NonSpace(a) + NonSpace(b)
  {
    if b == [] {
      assert a + b == a;
    } else {
      var n := |b| - 1;
      NonSpaceConcat(a, b[..n]);
      assert (a + b)[..|a + b| - 1] == a + b[..n];
    }
  }

  lemma {:induction false} TextConcat(a: seq<Cell>, b: seq<Cell>)
    ensures Text(a + b) == Text(a) + Text(b)
  {
    if b == [] {
      assert a + b == a;
    } else {
      var n := |b| - 1;
      TextConcat(a, b[..n]);
      assert (a + b)[..|a + b| - 1] == a + b[..n];
    }
  }

  lemma {:induction false} TextOfBytes(t: Blob, line: nat)
    ensures Text(ByteCells(t, line)) == t
  {
    if t != [] {
      var n := |t| - 1;
      TextOfBytes(t[..n], line);
      assert ByteCells(t, line)[..n] == ByteCells(t[..n], line);
    }
  }

  lemma TextOfSpan(s: Span)
    ensures Text(SpanCells(s)) == s.text
  {
    if s.text != [] {
      TextOfBytes(s.text, s.line);
    } else {
      var c := [Cell(s.line, None)];
      assert Text(c[..0]) == [];
    }
  }

  // ------------------------------------------------------------------ lines of a body

  function FindLine(body: Blob, from: nat): (end: nat)
    requires from <= |body|
    ensures from <= end <= |body| && LF !in body[from..end] && (end < |body| ==> body[end] == LF)
    decreases |body| - from
  {
    if from == |body| || body[from] == LF then from
    else
      var end := FindLine(body, from + 1);
      assert body[from..end] == [body[from]] + body[from + 1..end];
      end
  }

  function Lines(body: Blob, from: nat): (lines: seq<Blob>)
    requires from <= |body|
    ensures |lines| >= 1
    decreases |body| - from
  {
    var end := FindLine(body, from);
    [body[from..end]] + if end == |body| then [] else Lines(body, end + 1)
  }

  function JoinLines(lines: seq<Blob>): Blob {
    if lines == [] then [] else if |lines| == 1 then lines[0] else lines[0] + [LF] + JoinLines(lines[1..])
  }

  /** The lines are the body. */
  lemma {:induction false} JoinOfLines(body: Blob, from: nat)
    requires from <= |body|
    ensures JoinLines(Lines(body, from)) == body[from..]
    decreases |body| - from
  {
    hide FindLine, Lines, JoinLines;
    var end := FindLine(body, from);
    LinesStep(body, from);
    if end < |body| {
      JoinOfLines(body, end + 1);
      LineAndRest(body, from, end);
    }
  }

  lemma LinesStep(body: Blob, from: nat)
    requires from <= |body|
    ensures var end := FindLine(body, from);
      if end == |body| then Lines(body, from) == [body[from..]] && JoinLines(Lines(body, from)) == body[from..]
      else Lines(body, from) == [body[from..end]] + Lines(body, end + 1) &&
           JoinLines(Lines(body, from)) == body[from..end] + [LF] + JoinLines(Lines(body, end + 1))
  {
    hide FindLine, JoinLines;
    var end := FindLine(body, from);
    if end < |body| {
      JoinStep(body[from..end], Lines(body, end + 1));
    } else {
      assert body[from..end] == body[from..];
      JoinOne(body[from..]);
    }
  }

  lemma JoinOne(line: Blob)
    ensures JoinLines([line]) == line
  {
  }

  lemma JoinStep(line: Blob, rest: seq<Blob>)
    requires rest != []
    ensures JoinLines([line] + rest) == line + [LF] + JoinLines(rest)
  {
    assert ([line] + rest)[1..] == rest;
  }

  lemma LineAndRest(body: Blob, from: nat, end: nat)
    requires from <= end < |body| && body[end] == LF
    ensures body[from..] == body[from..end] + [LF] + body[end + 1..]
  {
  }

  function LineCells(lines: seq<Blob>, first: nat): seq<Cell> {
    if lines == [] then [] else SpanCells(Span(lines[0], first)) + LineCells(lines[1..], first + 1)
  }

  ghost predicate LineOrder(cells: seq<Cell>) {
    forall i, j :: 0 <= i < j < |cells| ==> cells[i].line <= cells[j].line
  }

  lemma {:induction false} LinesInOrder(lines: seq<Blob>, first: nat)
    ensures LineOrder(LineCells(lines, first)) && forall i :: 0 <= i < |LineCells(lines, first)| ==> LineCells(lines, first)[i].line >= first
  {
    if lines != [] {
      LinesInOrder(lines[1..], first + 1);
    }
  }

  /** Everything a document's lines hold, in order. */
  function DocumentCells(body: Blob): seq<Cell> { LineCells(Lines(body, 0), 0) }

  ghost predicate AllShaped(spans: seq<Span>) { forall i :: 0 <= i < |spans| ==> Shaped(spans[i].text) }

  /** How far the lines of the body have been turned into spans. */
  ghost predicate Laid(body: Blob, spans: seq<Span>, begin: nat, line: nat) {
    begin <= |body| && Cells(spans) + LineCells(Lines(body, begin), line) == DocumentCells(body)
  }

  lemma {:induction false} ShapedLine(body: Blob, end: nat)
    requires Shaped(body) && end <= |body| && (end < |body| ==> body[end] == LF)
    ensures Shaped(body[..end]) && (end < |body| ==> Shaped(body[end + 1..]))
  {
    hide Shaped;
    if end == |body| {
      assert body[..end] == body;
    } else {
      var n := ShapedHead(body);
      if end == 0 {
        assert body[..0] == [];
        EmptyIsShaped();
      } else {
        assert n <= end;
        ShapedLine(body[n..], end - n);
        ShapedAppend(body[..n], body[n..][..end - n]);
        LineParts(body, n, end);
      }
    }
  }

  lemma LineParts(body: Blob, n: nat, end: nat)
    requires n <= end < |body|
    ensures body[..end] == body[..n] + body[n..][..end - n] && body[n..][end - n + 1..] == body[end + 1..]
  {
  }

  /** No line is longer than the limit, and lines are measured on their own. */
  ghost predicate LinesFit(body: Blob, o: Options) { Growing(o) && !o.headingContext && FitFrom(body, 0, o) }

  ghost predicate FitFrom(body: Blob, begin: nat, o: Options)
    requires begin <= |body|
  {
    forall line :: line in Lines(body, begin) ==> Fits([], line, o)
  }

  /** The spans are the lines, none longer than the limit. */
  ghost predicate Numbered(spans: seq<Span>, o: Options) {
    forall k :: 0 <= k < |spans| ==> spans[k].line == k && Fits([], spans[k].text, o)
  }

  lemma NumberedNext(spans: seq<Span>, s: Span, o: Options)
    requires Numbered(spans, o) && s.line == |spans| && Fits([], s.text, o)
    ensures Numbered(spans + [s], o)
  {
    hide Fits;
  }

  lemma FitNext(body: Blob, begin: nat, o: Options)
    requires begin <= |body| && FitFrom(body, begin, o)
    ensures var end := FindLine(body, begin);
      Fits([], body[begin..end], o) && (end < |body| ==> FitFrom(body, end + 1, o))
  {
    hide Fits, FindLine, JoinLines;
    var end := FindLine(body, begin);
    LinesStep(body, begin);
    assert body[begin..end] in Lines(body, begin);
    assert end < |body| ==> forall line :: line in Lines(body, end + 1) ==> line in Lines(body, begin);
  }

  /** The pieces a line is cut into, each the best one where it begins; an empty line is a piece of its own. */
  function Pieces(line: Blob, number: nat, at: nat, o: Options): seq<Span>
    requires at <= |line|
    decreases |line| - at
  {
    if line == [] then [Span([], number)]
    else if at == |line| then []
    else
      var cut := BestCut(line, at, FitEnds(line, at, at, [], o));
      if at < cut <= |line| then [Span(line[at..cut], number)] + Pieces(line, number, cut, o) else []
  }

  /** The pieces of all lines. */
  function AllPieces(lines: seq<Blob>, first: nat, o: Options): seq<Span> {
    if lines == [] then [] else Pieces(lines[0], first, 0, o) + AllPieces(lines[1..], first + 1, o)
  }

  /** The pieces of one line. */
  method CutLine(line: Blob, number: nat, o: Options) returns (pieces: seq<Span>)
    ensures Cells(pieces) == SpanCells(Span(line, number)) && (Shaped(line) ==> AllShaped(pieces))
    ensures Growing(o) && Fits([], line, o) ==> pieces == [Span(line, number)]
    ensures pieces == Pieces(line, number, 0, o)
  {
    hide Shaped, FitEnds, BestCut, Fits, ByteCells, Cells, Growing;
    if line == [] {
      OneSpan(Span([], number));
      EmptyIsShaped();
      return [Span([], number)];
    }
    pieces := [];
    var at := 0;
    NoPieces(line, number);
    ghost var whole := Growing(o) && Fits([], line, o);
    if whole {
      WholeCut(line, o);
      assert line[0..|line|] == line;
    }
    while at < |line|
      invariant 0 <= at <= |line| && Cells(pieces) == ByteCells(line[..at], number)
      invariant pieces + Pieces(line, number, at, o) == Pieces(line, number, 0, o)
      invariant whole ==> if at == 0 then pieces == [] else at == |line| && pieces == [Span(line, number)]
      invariant Shaped(line) ==> Shaped(line[at..]) && AllShaped(pieces)
    {
      var cut := SplitAt(line, at, [], o);
      PieceNext(pieces, line, number, at, cut);
      assert pieces + ([Span(line[at..cut], number)] + Pieces(line, number, cut, o)) ==
        pieces + [Span(line[at..cut], number)] + Pieces(line, number, cut, o);
      pieces := pieces + [Span(line[at..cut], number)];
      at := cut;
    }
    assert line[..at] == line;
  }

  lemma NoPieces(line: Blob, number: nat)
    ensures Cells([]) == ByteCells(line[..0], number) && line[0..] == line && AllShaped([])
  {
  }

  lemma PieceNext(pieces: seq<Span>, line: Blob, number: nat, at: nat, cut: nat)
    requires at < cut <= |line| && Cells(pieces) == ByteCells(line[..at], number)
    ensures Cells(pieces + [Span(line[at..cut], number)]) == ByteCells(line[..cut], number)
  {
    CellsNext(pieces, Span(line[at..cut], number));
    hide Cells;
  }

  /** The pieces of every line hold exactly what the document's lines hold. */
  method CutLines(body: Blob, o: Options) returns (spans: seq<Span>)
    ensures Cells(spans) == DocumentCells(body) && spans != [] && (Shaped(body) ==> AllShaped(spans))
    ensures LinesFit(body, o) ==> Numbered(spans, o)
    ensures spans == AllPieces(Lines(body, 0), 0, o)
  {
    hide Shaped, Cells, Laid, DocumentCells, FindLine, AllShaped, SpanCells, Growing, FitFrom, Fits, Numbered,
         Lines, Pieces, AllPieces;
    NoneNumbered(o);
    spans := [];
    var begin, number := 0, 0;
    NothingLaid(body);
    SomeCells(body);
    while true
      invariant begin <= |body| && Laid(body, spans, begin, number)
      invariant Shaped(body) ==> Shaped(body[begin..]) && AllShaped(spans)
      invariant spans + AllPieces(Lines(body, begin), number, o) == AllPieces(Lines(body, 0), 0, o)
      invariant LinesFit(body, o) ==> FitFrom(body, begin, o) && number == |spans| && Numbered(spans, o)
      decreases |body| - begin
    {
      var end := FindLine(body, begin);
      var pieces := CutLine(body[begin..end], number, o);
      LaidNext(body, spans, begin, number, pieces);
      LineShape(body, begin);
      PiecesNext(body, spans, begin, number, o);
      MoreShaped(spans, pieces);
      if LinesFit(body, o) {
        FitNext(body, begin, o);
        NumberedNext(spans, Span(body[begin..end], number), o);
      }
      spans := spans + pieces;
      if end == |body| {
        break;
      }
      begin, number := end + 1, number + 1;
    }
  }

  lemma MoreShaped(a: seq<Span>, b: seq<Span>)
    ensures AllShaped(a) && AllShaped(b) ==> AllShaped(a + b)
  {
    hide Shaped;
  }

  lemma NoneNumbered(o: Options)
    ensures Numbered([], o)
  {
  }

  lemma SomeCells(body: Blob)
    ensures DocumentCells(body) != [] && Cells([]) == [] && AllShaped([])
  {
  }

  lemma NothingLaid(body: Blob)
    ensures Laid(body, [], 0, 0) && body[0..] == body
  {
    assert Cells([]) == [];
    assert [] + DocumentCells(body) == DocumentCells(body);
  }

  lemma LineShape(body: Blob, begin: nat)
    requires begin <= |body|
    ensures var end := FindLine(body, begin);
      Shaped(body[begin..]) ==> Shaped(body[begin..end]) && (end < |body| ==> Shaped(body[end + 1..]))
  {
    hide Shaped;
    var end := FindLine(body, begin);
    if Shaped(body[begin..]) {
      ShapedLine(body[begin..], end - begin);
      assert body[begin..][..end - begin] == body[begin..end];
      assert end < |body| ==> body[begin..][end - begin + 1..] == body[end + 1..];
    }
  }

  lemma LaidNext(body: Blob, spans: seq<Span>, begin: nat, number: nat, pieces: seq<Span>)
    requires Laid(body, spans, begin, number)
    requires Cells(pieces) == SpanCells(Span(body[begin..FindLine(body, begin)], number))
    ensures var end := FindLine(body, begin);
      if end == |body| then Cells(spans + pieces) == DocumentCells(body) else Laid(body, spans + pieces, end + 1, number + 1)
  {
    hide Cells, SpanCells, FindLine, Lines, LineCells;
    var end := FindLine(body, begin);
    CellsConcat(spans, pieces);
    LinesStep(body, begin);
    assert end == |body| ==> body[begin..end] == body[begin..];
    var line, rest := body[begin..end], if end == |body| then [] else Lines(body, end + 1);
    LineCellsStep(line, rest, number);
    assert Lines(body, begin) == [line] + rest;
    Reassociate(Cells(spans), Cells(pieces), LineCells(rest, number + 1));
    NoLineCells(number + 1);
  }

  lemma PiecesNext(body: Blob, spans: seq<Span>, begin: nat, number: nat, o: Options)
    requires begin <= |body|
    ensures var end := FindLine(body, begin);
      var rest := if end == |body| then [] else AllPieces(Lines(body, end + 1), number + 1, o);
      spans + AllPieces(Lines(body, begin), number, o) == spans + Pieces(body[begin..end], number, 0, o) + rest
  {
    hide FindLine, Pieces, JoinLines, AllPieces, Lines;
    var end := FindLine(body, begin);
    LinesStep(body, begin);
    var line, rest := body[begin..end], if end == |body| then [] else Lines(body, end + 1);
    assert end == |body| ==> body[begin..end] == body[begin..];
    assert Lines(body, begin) == [line] + rest;
    AllPiecesStep(line, rest, number, o);
    NoPiecesLeft(number + 1, o);
    Reassociate(spans, Pieces(line, number, 0, o), AllPieces(rest, number + 1, o));
  }

  lemma AllPiecesStep(line: Blob, rest: seq<Blob>, number: nat, o: Options)
    ensures AllPieces([line] + rest, number, o) == Pieces(line, number, 0, o) + AllPieces(rest, number + 1, o)
  {
    assert ([line] + rest)[1..] == rest;
  }

  lemma NoPiecesLeft(number: nat, o: Options)
    ensures AllPieces([], number, o) == []
  {
  }

  lemma LineCellsStep(line: Blob, rest: seq<Blob>, number: nat)
    ensures LineCells([line] + rest, number) == SpanCells(Span(line, number)) + LineCells(rest, number + 1)
  {
    assert ([line] + rest)[1..] == rest;
  }

  lemma NoLineCells(number: nat)
    ensures LineCells([], number) == []
  {
  }
}
