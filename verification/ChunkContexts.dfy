/** What the context of a chunk is: the headings in hand are those of every text noted so far. Where windows take whole lines,
    they are the headings that enclose each line if and only if no window goes back over lines that change them for good. */
module ChunkContexts {
  import opened Wrappers
  import opened Bytes
  import opened ChunkSplit
  import opened Spans
  import opened Filling
  import opened Chunker

  // ------------------------------------------------------------------ all that was noted

  function Joined(seen: seq<seq<Blob>>): seq<Blob> {
    if seen == [] then [] else Joined(seen[..|seen| - 1]) + seen[|seen| - 1]
  }

  lemma {:induction false} NoteBoth(h: Headings, a: seq<Blob>, b: seq<Blob>)
    ensures NoteAll(h, a + b) == NoteAll(NoteAll(h, a), b)
  {
    if b == [] {
      assert a + b == a;
    } else {
      var n := |b| - 1;
      NoteBoth(h, a, b[..n]);
      assert (a + b)[..|a + b| - 1] == a + b[..n];
    }
  }

  /** The texts a round has noted, in order. */
  ghost function NotedIn(r: Round, o: Options): seq<Blob>
    requires r.start < r.end <= |r.spans| && Parallel(r.fill, r.end - r.start)
  {
    Joined(r.fill.seen) + if Peeked(r.spans, r.start, r.end, r.fill, o) then [r.spans[r.end].text] else []
  }

  lemma {:induction false} HeadsAre(r: Round, k: nat, o: Options)
    requires Filled(r.before, r.spans, r.start, r.end, r.fill, r.left, r.context, o) && o.headingContext && k <= r.end - r.start
    ensures HeadsBefore(r.fill, k) == NoteAll(r.fill.given, Joined(r.fill.seen[..k]))
  {
    if k > 0 {
      HeadsAre(r, k - 1, o);
      assert Taken(r.spans, r.start, r.fill, k - 1, o);
      assert r.fill.seen[..k][..k - 1] == r.fill.seen[..k - 1];
      NoteBoth(r.fill.given, Joined(r.fill.seen[..k - 1]), r.fill.seen[k - 1]);
    } else {
      assert r.fill.seen[..0] == [];
    }
  }

  lemma LeftIs(r: Round, o: Options)
    requires RoundOk(r, o) && o.headingContext
    ensures r.start < r.end <= |r.spans| && Parallel(r.fill, r.end - r.start)
    ensures r.left == NoteAll(r.fill.given, NotedIn(r, o))
  {
    hide Gathered, NotFull, StopsHere, Taken, Chopped, FullAt;
    var n := r.end - r.start;
    HeadsAre(r, n, o);
    assert r.fill.seen[..n] == r.fill.seen;
    if Peeked(r.spans, r.start, r.end, r.fill, o) {
      NoteBoth(r.fill.given, Joined(r.fill.seen), [r.spans[r.end].text]);
    } else {
      assert Joined(r.fill.seen) + [] == Joined(r.fill.seen);
    }
  }

  ghost function NotedBefore(rounds: seq<Round>, k: nat, o: Options): seq<Blob>
    requires k <= |rounds| && forall a :: 0 <= a < |rounds| ==> RoundOk(rounds[a], o)
  {
    if k == 0 then [] else NotedBefore(rounds, k - 1, o) + NotedIn(rounds[k - 1], o)
  }

  /** The headings a round begins with are those of every text noted before it, from the start of the document. */
  lemma {:induction false} HeadingsSoFar(rounds: seq<Round>, windows: seq<Window>, pieces: seq<Span>, k: nat, o: Options)
    requires Ran(rounds, windows, pieces, o) && o.headingContext && k < |rounds|
    ensures forall a :: 0 <= a < |rounds| ==> RoundOk(rounds[a], o)
    ensures rounds[k].fill.given == NoteAll(NoHeadings, NotedBefore(rounds, k, o))
  {
    hide RoundOk, WindowOf, NotedIn;
    if k > 0 {
      HeadingsSoFar(rounds, windows, pieces, k - 1, o);
      assert Follows(rounds[k - 1], rounds[k], o);
      LeftIs(rounds[k - 1], o);
      NoteBoth(NoHeadings, NotedBefore(rounds, k - 1, o), NotedIn(rounds[k - 1], o));
    }
  }

  // ------------------------------------------------------------------------- whole lines

  /** The headings that enclose what follows the first `n` lines. */
  function Enclosing(lines: seq<Blob>, n: nat): Headings
    requires n <= |lines|
  {
    NoteAll(NoHeadings, lines[..n])
  }

  lemma EnclosingNext(lines: seq<Blob>, n: nat)
    requires n < |lines|
    ensures Enclosing(lines, n + 1) == NoteHeading(Enclosing(lines, n), lines[n])
    ensures NoteHeading(Enclosing(lines, n + 1), lines[n]) == Enclosing(lines, n + 1)
    ensures HeadingLevel(lines[n]) == 0 ==> Enclosing(lines, n + 1) == Enclosing(lines, n)
  {
    assert lines[..n + 1][..n] == lines[..n];
    NoteTwice(Enclosing(lines, n), lines[n]);
  }

  lemma NoteTwice(h: Headings, t: Blob)
    ensures NoteHeading(NoteHeading(h, t), t) == NoteHeading(h, t)
  {
  }

  /** The spans are the lines of the document, and none of them gave way. */
  ghost predicate WholeLines(r: Round, lines: seq<Blob>, o: Options) {
    |r.spans| == |lines| && (forall j :: 0 <= j < |lines| ==> r.spans[j] == Span(lines[j], j)) &&
    forall k :: 0 <= k < |r.fill.seen| ==> |r.fill.seen[k]| == 1
  }

  /** The headings a round finds, with its first line, are those that enclose that line. */
  ghost predicate Finds(r: Round, lines: seq<Blob>) {
    r.start < |lines| && NoteHeading(r.fill.given, lines[r.start]) == Enclosing(lines, r.start + 1)
  }

  /** Then every span is taken under the headings that enclose it. */
  lemma {:induction false} HeadsEnclose(r: Round, lines: seq<Blob>, k: nat, o: Options)
    requires RoundOk(r, o) && o.headingContext && WholeLines(r, lines, o) && Finds(r, lines)
    requires r.start < r.end <= |lines| && k < r.end - r.start && Parallel(r.fill, r.end - r.start)
    ensures r.fill.heads[k] == Enclosing(lines, r.start + k + 1)
  {
    hide Enclosing, NoteHeading, RoundOk, WholeLines, NoteAll;
    LineNoted(r, lines, k, o);
    if k > 0 {
      EnclosingNext(lines, r.start + k);
      HeadsEnclose(r, lines, k - 1, o);
    }
  }

  /** What was noted for the k-th span is its line. */
  lemma LineNoted(r: Round, lines: seq<Blob>, k: nat, o: Options)
    requires RoundOk(r, o) && o.headingContext && WholeLines(r, lines, o) && k < r.end - r.start && Parallel(r.fill, r.end - r.start)
    ensures r.start + k < |lines| && r.fill.heads[k] == NoteHeading(HeadsBefore(r.fill, k), lines[r.start + k])
  {
    hide Gathered, NotFull, StopsHere, Chopped, FullAt, NoteHeading, FirstText, Chain, ContextAfter, Fits, BestCut, ContextBefore,
         Peeked, HeadsBefore, NoteAll;
    assert Taken(r.spans, r.start, r.fill, k, o);
    OneNoted(HeadsBefore(r.fill, k), r.fill.seen[k], lines[r.start + k]);
  }

  lemma OneNoted(h: Headings, seen: seq<Blob>, t: Blob)
    requires |seen| == 1 && seen[0] == t
    ensures NoteAll(h, seen) == NoteHeading(h, t)
  {
    assert seen[..0] == [] && NoteAll(h, []) == h;
  }

  lemma {:induction false} NoHeadingBetween(lines: seq<Blob>, from: nat, to: nat)
    requires from <= to <= |lines| && forall j :: from <= j < to ==> HeadingLevel(lines[j]) == 0
    ensures Enclosing(lines, to) == Enclosing(lines, from)
  {
    if from < to {
      NoHeadingBetween(lines, from, to - 1);
      EnclosingNext(lines, to - 1);
    }
  }

  /** How many lines a round has noted: those up to its end, and the one that stopped it if it looked at that one. */
  ghost function NotedTo(r: Round, o: Options): nat
    requires r.start < r.end <= |r.spans| && Parallel(r.fill, r.end - r.start)
  {
    if Peeked(r.spans, r.start, r.end, r.fill, o) then r.end + 1 else r.end
  }

  /** A round whose lines are taken under the headings that enclose them leaves the headings of the last line it noted. */
  lemma LeavesEnclosing(r: Round, lines: seq<Blob>, o: Options)
    requires RoundOk(r, o) && o.headingContext && WholeLines(r, lines, o) && Finds(r, lines)
    requires r.start < r.end < |lines| && Parallel(r.fill, r.end - r.start)
    ensures NotedTo(r, o) <= |lines| && r.left == Enclosing(lines, NotedTo(r, o))
  {
    hide Enclosing, NoteHeading, RoundOk, WholeLines, NoteAll, Peeked;
    RoundLines(r, lines, o);
    HeadsEnclose(r, lines, r.end - r.start - 1, o);
    LeftHeads(r, lines, o);
    EnclosingNext(lines, r.end);
  }

  lemma LeftHeads(r: Round, lines: seq<Blob>, o: Options)
    requires RoundOk(r, o) && o.headingContext && WholeLines(r, lines, o)
    requires r.start < r.end < |lines| && Parallel(r.fill, r.end - r.start)
    ensures var h := r.fill.heads[r.end - r.start - 1];
      r.left == if Peeked(r.spans, r.start, r.end, r.fill, o) then NoteHeading(h, lines[r.end]) else h
  {
    hide Gathered, NotFull, StopsHere, Chopped, NoteHeading, Taken, ContextAfter, ContextBefore, Peeked;
    OneNoted(HeadsBefore(r.fill, r.end - r.start), [lines[r.end]], lines[r.end]);
  }

  /** Every span of the window is taken under the headings that enclose its line. */
  ghost predicate AllEnclosed(r: Round, lines: seq<Blob>) {
    forall j :: 0 <= j < |r.fill.heads| && r.start + j < |lines| ==> r.fill.heads[j] == Enclosing(lines, r.start + j + 1)
  }

  lemma FindsAll(r: Round, lines: seq<Blob>, o: Options)
    requires RoundOk(r, o) && o.headingContext && WholeLines(r, lines, o)
    ensures Finds(r, lines) <==> AllEnclosed(r, lines)
  {
    hide Enclosing, NoteHeading, RoundOk, WholeLines, NoteAll;
    RoundLines(r, lines, o);
    LineNoted(r, lines, 0, o);
    if Finds(r, lines) {
      forall j | 0 <= j < |r.fill.heads| && r.start + j < |lines|
        ensures r.fill.heads[j] == Enclosing(lines, r.start + j + 1)
      {
        HeadsEnclose(r, lines, j, o);
      }
    }
  }

  /** The headings that enclose the last line a round noted are, with the first line of the next one, those that enclose
      that line: the lines in between, gone over again, change nothing. */
  ghost predicate Settled(r: Round, next: nat, lines: seq<Blob>, o: Options) {
    r.start < r.end < |lines| == |r.spans| && Parallel(r.fill, r.end - r.start) && next < |lines| ==>
    NoteHeading(Enclosing(lines, NotedTo(r, o)), lines[next]) == Enclosing(lines, next + 1)
  }

  ghost predicate SettledTo(rounds: seq<Round>, n: nat, lines: seq<Blob>, o: Options) {
    forall k :: 0 <= k < |rounds| - 1 && k < n - 1 ==> Settled(rounds[k], rounds[k + 1].start, lines, o)
  }

  ghost predicate EnclosedTo(rounds: seq<Round>, n: nat, lines: seq<Blob>) {
    forall k :: 0 <= k < |rounds| && k < n ==> AllEnclosed(rounds[k], lines)
  }

  /** Where windows take whole lines, every line is taken under the headings that enclose it in the document if and only if
      no window goes back over lines that change the headings for good. */
  lemma {:induction false} EnclosedIff(rounds: seq<Round>, windows: seq<Window>, pieces: seq<Span>, lines: seq<Blob>, n: nat, o: Options)
    requires Ran(rounds, windows, pieces, o) && o.headingContext && n <= |rounds|
    requires forall a :: 0 <= a < |rounds| ==> WholeLines(rounds[a], lines, o)
    ensures EnclosedTo(rounds, n, lines) <==> SettledTo(rounds, n, lines, o)
  {
    hide Enclosing, WindowOf, NoteHeading, RoundOk, WholeLines, Finds, Settled, Overlaps, AllEnclosed;
    if n > 0 {
      EnclosedIff(rounds, windows, pieces, lines, n - 1, o);
      var r := rounds[n - 1];
      FindsAll(r, lines, o);
      if n == 1 {
        NothingEncloses(lines);
        FirstFinds(r, lines, o);
      } else {
        assert Follows(rounds[n - 2], r, o);
        FindsAll(rounds[n - 2], lines, o);
        if Finds(rounds[n - 2], lines) {
          FollowsFinds(rounds[n - 2], r, lines, o);
        }
      }
    }
  }

  lemma NothingEncloses(lines: seq<Blob>)
    ensures Enclosing(lines, 0) == NoHeadings
  {
    assert lines[..0] == [];
  }

  lemma RoundLines(r: Round, lines: seq<Blob>, o: Options)
    requires RoundOk(r, o) && WholeLines(r, lines, o)
    ensures r.start < r.end <= |lines| == |r.spans| && Parallel(r.fill, r.end - r.start)
  {
    hide Gathered, NotFull, StopsHere, Taken, Chopped, FullAt;
  }

  lemma FirstFinds(r: Round, lines: seq<Blob>, o: Options)
    requires RoundOk(r, o) && WholeLines(r, lines, o) && r.start == 0 && r.fill.given == NoHeadings
    requires Enclosing(lines, 0) == NoHeadings
    ensures Finds(r, lines)
  {
    hide Enclosing, NoteHeading;
    RoundLines(r, lines, o);
    EnclosingNext(lines, 0);
  }

  lemma FollowsFinds(r: Round, next: Round, lines: seq<Blob>, o: Options)
    requires RoundOk(r, o) && WholeLines(r, lines, o) && o.headingContext && Follows(r, next, o)
    requires RoundOk(next, o) && WholeLines(next, lines, o) && Finds(r, lines)
    ensures Finds(next, lines) <==> Settled(r, next.start, lines, o)
  {
    hide RoundOk, Enclosing, WholeLines, NoteHeading;
    RoundLines(r, lines, o);
    RoundLines(next, lines, o);
    LeavesEnclosing(r, lines, o);
  }

  /** The part of a window that the next one goes over again has no heading after its first line. */
  ghost predicate Quiet(r: Round, next: nat, lines: seq<Blob>, o: Options) {
    r.start < r.end < |lines| == |r.spans| && Parallel(r.fill, r.end - r.start) ==>
    next == r.end ||
    (next < r.end && (forall j :: next < j < r.end ==> HeadingLevel(lines[j]) == 0) &&
     (Peeked(r.spans, r.start, r.end, r.fill, o) ==> HeadingLevel(lines[r.end]) == 0))
  }

  /** So it is where no window goes back over a heading. */
  lemma QuietSettles(r: Round, next: nat, lines: seq<Blob>, o: Options)
    requires Quiet(r, next, lines, o)
    ensures Settled(r, next, lines, o)
  {
    hide Enclosing, NoteHeading, Peeked;
    if r.start < r.end < |lines| == |r.spans| && Parallel(r.fill, r.end - r.start) && next < |lines| {
      EnclosingNext(lines, next);
      EnclosingNext(lines, r.end);
      if next < r.end {
        NoHeadingBetween(lines, next + 1, r.end);
      }
    }
  }

  // ------------------------------------------------------------------ the context of a window

  /** The headings in hand once the k-th span was taken, or at the end. */
  function HeadsAt(r: Round, k: nat): Headings
    requires k <= |r.fill.heads|
  {
    if k < |r.fill.heads| then r.fill.heads[k] else r.left
  }

  /** The first span of the window under any heading; the end of the window if none is. */
  ghost predicate FirstUnder(r: Round, k: nat) {
    k <= |r.fill.heads| && (forall j :: 0 <= j < k ==> Crumbs(r.fill.heads[j], 6) == []) &&
    (k < |r.fill.heads| ==> Crumbs(r.fill.heads[k], 6) != [])
  }

  /** A span noted by itself is measured with the headings in hand, unless there is a context already. */
  lemma SpanContext(r: Round, k: nat, o: Options)
    requires RoundOk(r, o) && o.headingContext && Parallel(r.fill, r.end - r.start) && r.start < r.end <= |r.spans|
    requires k < r.end - r.start && |r.fill.seen[k]| == 1
    ensures var c := ContextBefore(r.spans, r.start, r.fill, k, o);
      r.fill.contexts[k] == if c == [] then Crumbs(r.fill.heads[k], 6) else c
  {
    hide FirstText, Crumbs, Gathered, NotFull, StopsHere, Chopped, FullAt, NoteHeading, Fits, BestCut, Chain, ContextBefore;
    assert Taken(r.spans, r.start, r.fill, k, o);
    var h, c, seen := HeadsBefore(r.fill, k), ContextBefore(r.spans, r.start, r.fill, k, o), r.fill.seen[k];
    NoteOne(h, c, [], seen[0], o);
    NothingNoted(h, c, o);
    assert [] + [seen[0]] == seen;
  }

  /** Up to the k-th span the context is that of the first span under a heading. */
  lemma {:induction false} ContextSoFar(r: Round, first: nat, k: nat, o: Options)
    requires RoundOk(r, o) && o.headingContext && Parallel(r.fill, r.end - r.start) && r.start < r.end <= |r.spans|
    requires FirstUnder(r, first) && k <= r.end - r.start && forall j :: 0 <= j < k ==> |r.fill.seen[j]| == 1
    requires forall j :: 0 <= j < k ==> !Dropped(r.spans, r.start, r.fill, j, o)
    ensures ContextBefore(r.spans, r.start, r.fill, k, o) == if first < k then Crumbs(r.fill.heads[first], 6) else []
  {
    hide RoundOk, Crumbs, Dropped;
    if k > 0 {
      ContextSoFar(r, first, k - 1, o);
      SpanContext(r, k - 1, o);
    }
  }

  /** The context of a window is the headings of its first span that has any, or of the span it was stopped by if none has;
      unless its first text did not fit beside that context. */
  lemma ContextIsFirst(r: Round, first: nat, o: Options)
    requires RoundOk(r, o) && o.headingContext && Parallel(r.fill, r.end - r.start) && r.start < r.end <= |r.spans|
    requires FirstUnder(r, first) && forall j :: 0 <= j < r.end - r.start ==> |r.fill.seen[j]| == 1
    requires forall j :: 0 <= j < r.end - r.start ==> !Dropped(r.spans, r.start, r.fill, j, o)
    ensures r.context == Crumbs(HeadsAt(r, first), 6)
  {
    hide FirstText, Crumbs, Gathered, NotFull, StopsHere, Chopped, FullAt, NoteHeading, Taken, Dropped;
    var n := r.end - r.start;
    ContextSoFar(r, first, n, o);
    if Peeked(r.spans, r.start, r.end, r.fill, o) {
      var h, c := HeadsBefore(r.fill, n), ContextBefore(r.spans, r.start, r.fill, n, o);
      NoteOne(h, c, [], r.spans[r.end].text, o);
      NothingNoted(h, c, o);
      assert [] + [r.spans[r.end].text] == [r.spans[r.end].text];
    }
  }

  /** In such a run the context of a window is the headings that enclose its first line under any. */
  lemma ContextEncloses(rounds: seq<Round>, windows: seq<Window>, pieces: seq<Span>, lines: seq<Blob>, k: nat, first: nat, o: Options)
    requires Ran(rounds, windows, pieces, o) && o.headingContext && k < |rounds|
    requires (forall a :: 0 <= a < |rounds| ==> WholeLines(rounds[a], lines, o)) && SettledTo(rounds, k + 1, lines, o)
    requires FirstUnder(rounds[k], first) && first < |rounds[k].fill.heads| && NothingDropped(rounds[k], o)
    ensures rounds[k].start + first < |lines| && rounds[k].context == Crumbs(Enclosing(lines, rounds[k].start + first + 1), 6)
  {
    hide Enclosing, WindowOf, NoteHeading, RoundOk, Finds, Overlaps, SettledTo, Follows, FirstUnder, Crumbs;
    EnclosedIff(rounds, windows, pieces, lines, k + 1, o);
    RoundLines(rounds[k], lines, o);
    ContextIsFirst(rounds[k], first, o);
  }

  ghost predicate NothingDropped(r: Round, o: Options) {
    forall j :: 0 <= j < |r.fill.contexts| && r.start + j < |r.spans| ==> !Dropped(r.spans, r.start, r.fill, j, o)
  }

  // ------------------------------------------------------------- going back over a heading

  const TWO_HEADINGS: seq<Blob> := [[35, 32, 65], [120], [35, 32, 66], [121]]

  /** Three lines to a window, two of them gone over again; everything fits. */
  const BY_LINES := Options(3, 0, 2, true, 0, 0, 0, 0, [], false, Some((t: Blob) => 0))

  lemma AllFits(context: Blob, t: Blob)
    ensures Fits(context, t, BY_LINES) && Growing(BY_LINES) && Count(t, BY_LINES) == 0
  {
  }

  lemma LinePieces(k: nat)
    requires k < 4
    ensures Pieces(TWO_HEADINGS[k], k, 0, BY_LINES) == [Span(TWO_HEADINGS[k], k)]
  {
    var t := TWO_HEADINGS[k];
    AllFits([], t);
    WholeCut(t, BY_LINES);
    assert t[0..] == t && t[0..|t|] == t && [Span(t, k)] + [] == [Span(t, k)];
    hide BestCut, FitEnds;
    assert Pieces(t, k, |t|, BY_LINES) == [];
  }

  lemma HeadingPieces()
    ensures AllPieces(TWO_HEADINGS, 0, BY_LINES) == seq(4, k requires 0 <= k < 4 => Span(TWO_HEADINGS[k], k))
  {
    hide Pieces;
    LinePieces(0);
    LinePieces(1);
    LinePieces(2);
    LinePieces(3);
    var l := TWO_HEADINGS;
    assert l == [l[0]] + ([l[1]] + ([l[2]] + ([l[3]] + [])));
    AllPiecesStep(l[3], [], 3, BY_LINES);
    AllPiecesStep(l[2], [l[3]], 2, BY_LINES);
    AllPiecesStep(l[1], [l[2]] + ([l[3]] + []), 1, BY_LINES);
    AllPiecesStep(l[0], [l[1]] + ([l[2]] + ([l[3]] + [])), 0, BY_LINES);
    NoPiecesLeft(4, BY_LINES);
  }

  /** A round of whole lines under these options takes three of them, or what is left. */
  lemma RoundByLines(r: Round)
    requires RoundOk(r, BY_LINES) && |r.before| == 4 && forall k :: 0 <= k < 4 ==> r.before[k] == Span(TWO_HEADINGS[k], k)
    requires r.start <= 1
    ensures WholeLines(r, TWO_HEADINGS, BY_LINES) && r.end == r.start + 3 && NothingDropped(r, BY_LINES)
  {
    hide Gathered, NotFull, NoteAll, BestCut, FitEnds, ContextAfter, EmbeddingForm;
    forall k | 0 <= k < |r.fill.seen|
      ensures |r.fill.seen[k]| == 1
    {
      OneSeen(r, k);
    }
    Unchopped(r.before, r.start, r.fill.seen);
    forall j | 0 <= j < |r.fill.contexts| && r.start + j < |r.spans|
      ensures !Dropped(r.spans, r.start, r.fill, j, BY_LINES)
    {
      AllFits(r.fill.contexts[j], FirstText(r.spans, r.start, j + 1));
    }
    NeverFull(r);
    if r.end < |r.spans| {
      AllFits(r.context, Candidate(r.gathered, r.spans[r.end]));
    }
  }

  lemma OneSeen(r: Round, k: nat)
    requires RoundOk(r, BY_LINES) && k < |r.fill.seen|
    ensures |r.fill.seen[k]| == 1
  {
    hide Gathered, NotFull, StopsHere, NoteAll, BestCut, FitEnds, ContextAfter, Fits, FirstText, Chopped, Peeked, ContextBefore;
    assert Taken(r.spans, r.start, r.fill, k, BY_LINES);
    var c, h, seen := ContextBefore(r.spans, r.start, r.fill, k, BY_LINES), HeadsBefore(r.fill, k), r.fill.seen[k];
    if |seen| > 1 {
      assert GivesWay(ContextAfter(c, h, seen[..0 + 1], BY_LINES), seen[0], seen[1], BY_LINES);
      AllFits(ContextAfter(c, h, seen[..0 + 1], BY_LINES), seen[0]);
    }
  }

  lemma {:induction false} Unchopped(before: seq<Span>, start: nat, seen: seq<seq<Blob>>)
    requires forall k :: 0 <= k < |seen| ==> |seen[k]| == 1
    ensures Chopped(before, start, seen) == before
  {
    if seen != [] {
      Unchopped(before, start, seen[..|seen| - 1]);
    }
  }

  lemma NeverFull(r: Round)
    requires r.start < r.end <= |r.spans| == 4 && Parallel(r.fill, r.end - r.start)
    requires forall k :: 0 <= k < 4 ==> r.spans[k] == Span(TWO_HEADINGS[k], k)
    ensures !FullAt(r.spans, r.start, r.end - r.start - 1, r.fill.contexts[r.end - r.start - 1], BY_LINES)
  {
    hide TextAfter, EmbeddingForm;
    assert r.spans[r.end - 1].text == TWO_HEADINGS[r.end - 1] != [];
  }

  lemma LettersOf(c: byte)
    requires c != HASH && c != SPACE
    ensures HeadingLevel([HASH, SPACE, c]) == 1 && HeadingText([HASH, SPACE, c]) == [c] && HeadingLevel([c]) == 0
  {
    var line := [HASH, SPACE, c];
    assert Hashes(line, 1) == 1 && Hashes(line, 0) == 1;
    assert line[1..] == [SPACE, c] && [SPACE, c][1..] == [c];
    assert DropFront([c]) == [c] && DropFront([SPACE, c]) == [c] && DropFront(line) == [c];
    assert DropBack([c]) == [c];
  }

  lemma OneCrumb(h: Headings)
    requires h[1] != [] && forall i :: 2 <= i < 7 ==> h[i] == []
    ensures Crumbs(h, 6) == h[1]
  {
    assert Crumbs(h, 0) == [] && Crumbs(h, 1) == h[1] && Crumbs(h, 2) == h[1] && Crumbs(h, 3) == h[1];
    assert Crumbs(h, 4) == h[1] && Crumbs(h, 5) == h[1];
  }

  lemma UnderFirst()
    ensures var l := TWO_HEADINGS;
      Crumbs(Enclosing(l, 1), 6) == [65] && Enclosing(l, 2) == Enclosing(l, 1) && Crumbs(Enclosing(l, 3), 6) == [66]
  {
    hide Enclosing;
    var l := TWO_HEADINGS;
    LettersOf(65);
    LettersOf(66);
    LettersOf(120);
    EnclosingNext(l, 0);
    EnclosingNext(l, 1);
    EnclosingNext(l, 2);
    hide HeadingLevel, HeadingText;
    OneCrumb(Enclosing(l, 1));
    OneCrumb(Enclosing(l, 3));
  }

  /** A window that goes back over a heading: it starts with a line under "A", and its context is "B". */
  lemma OverlapMisplaces(rounds: seq<Round>, windows: seq<Window>)
    requires Ran(rounds, windows, AllPieces(TWO_HEADINGS, 0, BY_LINES), BY_LINES)
    ensures |rounds| >= 2 && rounds[1].start == 1 && rounds[1].context == [66] && Crumbs(Enclosing(TWO_HEADINGS, 2), 6) == [65]
  {
    hide RoundOk, WindowOf, Enclosing, Crumbs, NoteHeading, AllPieces;
    var l := TWO_HEADINGS;
    HeadingPieces();
    RoundByLines(rounds[0]);
    assert Follows(rounds[0], rounds[1], BY_LINES);
    RoundByLines(rounds[1]);
    NothingEncloses(l);
    FirstFinds(rounds[0], l, BY_LINES);
    RoundLines(rounds[0], l, BY_LINES);
    HeadsEnclose(rounds[0], l, 2, BY_LINES);
    LeftHeads(rounds[0], l, BY_LINES);
    RoundLines(rounds[1], l, BY_LINES);
    LineNoted(rounds[1], l, 0, BY_LINES);
    UnderFirst();
    PlainLine(rounds[1].fill.given);
    ContextIsFirst(rounds[1], 0, BY_LINES);
  }

  lemma PlainLine(h: Headings)
    ensures NoteHeading(h, TWO_HEADINGS[1]) == h
  {
    LettersOf(120);
  }
}
