/** The inner loop of `chunk_document`: one window is filled span by span, and a span that does not fit is split in place. */
module Filling {
  import opened Bytes
  import opened Utf8
  import opened ChunkSplit
  import opened Spans

  // ------------------------------------------------------------------------ headings

  const HASH: byte := 35
  const SPACE: byte := 32

  function Hashes(line: Blob, i: nat): nat
    decreases |line| - i
  {
    if i < |line| && line[i] == HASH then Hashes(line, i + 1) else i
  }

  function HeadingLevel(line: Blob): (level: nat)
    ensures level <= 6
  {
    var i := Hashes(line, 0);
    if 1 <= i <= 6 && i < |line| && line[i] == SPACE then i else 0
  }

  function DropFront(line: Blob): Blob {
    if line != [] && (line[0] == HASH || line[0] == SPACE) then DropFront(line[1..]) else line
  }

  function DropBack(line: Blob): Blob {
    if line != [] && (line[|line| - 1] == SPACE || line[|line| - 1] == HASH) then DropBack(line[..|line| - 1]) else line
  }

  function HeadingText(line: Blob): Blob { DropBack(DropFront(line)) }

  const SEPARATOR: Blob := [0x20, 0xE2, 0x80, 0xBA, 0x20]

  /** The enclosing headings, outermost first; index 0 is not used. */
  type Headings = h: seq<Blob> | |h| == 7 witness [[], [], [], [], [], [], []]

  function NoteHeading(h: Headings, line: Blob): Headings {
    var level := HeadingLevel(line);
    if level == 0 then h
    else seq(7, i requires 0 <= i < 7 => if i < level then h[i] else if i == level then HeadingText(line) else [])
  }

  function Crumbs(h: Headings, level: nat): Blob
    requires level <= 6
  {
    if level == 0 then []
    else
      var outer := Crumbs(h, level - 1);
      if h[level] == [] then outer else if outer == [] then h[level] else outer + SEPARATOR + h[level]
  }

  // ------------------------------------------------------------------------ trimming

  /** `text` without its trailing white space. */
  method TrimEnd(text: Blob) returns (r: Blob)
    ensures |r| <= |text| && text[..|r|] == r && NonSpace(r) == NonSpace(text)
    ensures (r == [] <==> NonSpace(text) == []) && (r != [] ==> !IsSpace(r[|r| - 1]))
    ensures Shaped(text) ==> Shaped(r)
  {
    r := text;
    while r != [] && IsSpace(r[|r| - 1])
      invariant |r| <= |text| && text[..|r|] == r && NonSpace(r) == NonSpace(text)
      invariant Shaped(text) ==> Shaped(r)
    {
      if Shaped(r) {
        ShapedDropLast(r);
      }
      hide Shaped;
      r := r[..|r| - 1];
    }
  }

  // --------------------------------------------------------------- filling one window

  /** The hard limit is promised without heading context, for a fair measure. */
  ghost predicate LimitHolds(o: Options) { FairMeasure(o) && !o.headingContext }

  ghost predicate TextOk(text: Blob, spans: seq<Span>, start: nat, i: nat) {
    start <= i <= |spans| && NonSpace(text) == NonSpace(Text(Cells(spans[start..i]))) && Shaped(text)
  }

  lemma TextNothing(spans: seq<Span>, start: nat)
    requires start <= |spans|
    ensures TextOk([], spans, start, start)
  {
    assert spans[start..start] == [];
    EmptyIsShaped();
  }

  /** The candidate: the next span on a new line of the text, unless there is no text yet. */
  function Candidate(text: Blob, s: Span): Blob { (if text == [] then [] else text + [LF]) + s.text }

  lemma TextNext(text: Blob, spans: seq<Span>, start: nat, i: nat)
    requires TextOk(text, spans, start, i) && i < |spans| && AllShaped(spans)
    ensures TextOk(Candidate(text, spans[i]), spans, start, i + 1)
  {
    hide Shaped, Cells, Text, NonSpace, SpanCells;
    var s := spans[i];
    assert spans[start..i + 1] == spans[start..i] + [s];
    CellsNext(spans[start..i], s);
    TextConcat(Cells(spans[start..i]), SpanCells(s));
    TextOfSpan(s);
    NonSpaceConcat(Text(Cells(spans[start..i])), s.text);
    if text == [] {
      NonSpaceConcat([], s.text);
      assert [] + s.text == s.text;
    } else {
      NonSpaceConcat(text + [LF], s.text);
      NonSpaceConcat(text, [LF]);
      ShapedByte(LF);
      ShapedAppend(text, [LF]);
      ShapedAppend(text + [LF], s.text);
      NewlineIsSpace();
    }
  }

  lemma NewlineIsSpace()
    ensures NonSpace([LF]) == []
  {
    assert NonSpace([LF][..0]) == [];
  }

  /** The spans so far are the ones the window started with, except for splits at or after its cursor. */
  ghost predicate SameSpans(before: seq<Span>, spans: seq<Span>, start: nat) {
    start <= |before| && start < |spans| && spans[..start] == before[..start] && Cells(spans) == Cells(before) && AllShaped(spans)
  }

  lemma SplitStep(before: seq<Span>, spans: seq<Span>, start: nat, i: nat, cut: nat, text: Blob)
    requires SameSpans(before, spans, start) && TextOk(text, spans, start, i) && i < |spans|
    requires CutOk(spans[i].text, 0, cut) && cut < |spans[i].text|
    ensures var split := SplitSpan(spans, i, cut);
      SameSpans(before, split, start) && TextOk(text, split, start, i) && Pos(split, i) == Pos(spans, i) &&
      i < |split| && |split[i].text| < |spans[i].text|
  {
    hide Shaped, Cells, Text, NonSpace;
    SplitKeeps(spans, i, cut);
    var split := SplitSpan(spans, i, cut);
    assert split[start..i] == split[..i][start..] && spans[start..i] == spans[..i][start..];
    assert split[..start] == split[..i][..start] && spans[..start] == spans[..i][..start];
    SplitShaped(spans, i, cut);
  }

  lemma SplitShaped(spans: seq<Span>, i: nat, cut: nat)
    requires AllShaped(spans) && i < |spans| && CutOk(spans[i].text, 0, cut)
    ensures AllShaped(SplitSpan(spans, i, cut))
  {
    hide Shaped;
    var s := spans[i];
    assert s.text[0..] == s.text && s.text[0..cut] == s.text[..cut];
  }

  /** When a span that does not fit is not split, dropping the context makes it fit. */
  lemma WholeFits(t: Blob, cut: nat, o: Options)
    requires FairMeasure(o) && cut == |t| && (t != [] ==> Fits([], t, o) || cut == NextUtf8(t, 0))
    ensures Fits([], t, o)
  {
    hide FairMeasure, Fits;
    if t == [] {
      NothingFits(o);
    } else {
      ScalarFits(t, 0, o);
      assert t[0..cut] == t;
    }
  }

  function Target(o: Options): nat { if o.targetTokens != 0 then o.targetTokens else UsableLimit(o) }

  function MaxLines(o: Options): nat { if o.maxLines == 0 then 1 else o.maxLines }

  /** The target size is reached, or half of it at a blank line. */
  predicate Full(context: Blob, text: Blob, last: Span, o: Options) {
    var tokens := Count(EmbeddingForm(context, text, o), o);
    tokens >= Target(o) || (last.text == [] && tokens >= Target(o) / 2)
  }

  /** The text these spans make: each on a new line of the text before it. */
  function TextAfter(spans: seq<Span>): Blob {
    if spans == [] then [] else Candidate(TextAfter(spans[..|spans| - 1]), spans[|spans| - 1])
  }

  /** The window is full once it has taken its k-th span, measured with this context. */
  ghost predicate FullAt(spans: seq<Span>, start: nat, k: nat, measured: Blob, o: Options)
    requires start + k < |spans|
  {
    Full(measured, TextAfter(spans[start..start + k + 1]), spans[start + k], o)
  }

  /** The text is exactly that of the spans taken; one context per span, none without heading context. */
  ghost predicate Gathered(spans: seq<Span>, start: nat, i: nat, contexts: seq<Blob>, text: Blob, o: Options) {
    start <= i <= |spans| && |contexts| == i - start && text == TextAfter(spans[start..i]) &&
    (!o.headingContext ==> forall k :: 0 <= k < |contexts| ==> contexts[k] == [])
  }

  /** None of the first `n` spans filled the window. */
  ghost predicate NotFull(spans: seq<Span>, start: nat, contexts: seq<Blob>, n: nat, o: Options)
    requires n <= |contexts| && start + |contexts| <= |spans|
  {
    forall k :: 0 <= k < n ==> !FullAt(spans, start, k, contexts[k], o)
  }

  /** A window ends with the document, with its count of lines, when it is full (measured before its context
      may have been dropped), or before a span that would break the limit. */
  ghost predicate StopsHere(spans: seq<Span>, start: nat, i: nat, text: Blob, context: Blob, contexts: seq<Blob>, o: Options)
    requires start < i <= |spans| && |contexts| == i - start
  {
    i == |spans| || i - start == MaxLines(o) || (text != [] && !Fits(context, Candidate(text, spans[i]), o)) ||
    FullAt(spans, start, |contexts| - 1, contexts[|contexts| - 1], o)
  }

  lemma GatheredNext(spans: seq<Span>, start: nat, i: nat, contexts: seq<Blob>, text: Blob, measured: Blob, o: Options)
    requires Gathered(spans, start, i, contexts, text, o) && i < |spans| && (!o.headingContext ==> measured == [])
    ensures Gathered(spans, start, i + 1, contexts + [measured], Candidate(text, spans[i]), o)
  {
    hide Candidate;
    assert spans[start..i + 1][..i - start] == spans[start..i];
  }

  lemma GatheredSplit(spans: seq<Span>, start: nat, i: nat, contexts: seq<Blob>, text: Blob, cut: nat, o: Options)
    requires Gathered(spans, start, i, contexts, text, o) && i < |spans| && cut <= |spans[i].text|
    requires NotFull(spans, start, contexts, |contexts|, o)
    ensures Gathered(SplitSpan(spans, i, cut), start, i, contexts, text, o)
    ensures i <= |SplitSpan(spans, i, cut)| && NotFull(SplitSpan(spans, i, cut), start, contexts, |contexts|, o)
  {
    hide TextAfter, Full;
    var split := SplitSpan(spans, i, cut);
    assert split[start..i] == spans[start..i];
    forall k | 0 <= k < |contexts|
      ensures !FullAt(split, start, k, contexts[k], o)
    {
      assert !FullAt(spans, start, k, contexts[k], o);
      assert split[start..start + k + 1] == spans[start..start + k + 1];
    }
  }

  lemma NotFullNext(spans: seq<Span>, start: nat, contexts: seq<Blob>, measured: Blob, o: Options)
    requires start + |contexts| < |spans| && NotFull(spans, start, contexts, |contexts|, o)
    ensures NotFull(spans, start, contexts + [measured], |contexts|, o)
    ensures !FullAt(spans, start, |contexts|, measured, o) ==> NotFull(spans, start, contexts + [measured], |contexts| + 1, o)
  {
    hide FullAt;
  }

  lemma CandidateIs(text: Blob, s: Span)
    ensures text == [] ==> Candidate(text, s) == s.text
  {
    assert [] + s.text == s.text;
  }

  lemma StopsShort(spans: seq<Span>, start: nat, i: nat, text: Blob, context: Blob, contexts: seq<Blob>, o: Options)
    requires start < i < |spans| && |contexts| == i - start && text != [] && !Fits(context, Candidate(text, spans[i]), o)
    ensures StopsHere(spans, start, i, text, context, contexts, o)
  {
  }

  // ---------------------------------------------------------- headings while a window is filled

  const NoHeadings: Headings := [[], [], [], [], [], [], []]

  /** The headings after these texts have been noted, in order. */
  function NoteAll(h: Headings, texts: seq<Blob>): Headings {
    if texts == [] then h else NoteHeading(NoteAll(h, texts[..|texts| - 1]), texts[|texts| - 1])
  }

  function Noted(h: Headings, texts: seq<Blob>, o: Options): Headings { if o.headingContext then NoteAll(h, texts) else h }

  /** The context in hand once a text has been noted: the enclosing headings, unless there is one already. */
  function Breadcrumb(c: Blob, h: Headings, o: Options): Blob { if o.headingContext && c == [] then Crumbs(h, 6) else c }

  function ContextAfter(c: Blob, h: Headings, texts: seq<Blob>, o: Options): Blob {
    if texts == [] then c else Breadcrumb(ContextAfter(c, h, texts[..|texts| - 1], o), NoteAll(h, texts), o)
  }

  /** What one window met, span by span: the headings when the span was taken, the texts noted for it (its own last, after
      those it was cut from), and the context it was measured with. */
  datatype Fill = Fill(given: Headings, heads: seq<Headings>, seen: seq<seq<Blob>>, contexts: seq<Blob>)

  predicate Parallel(fill: Fill, n: nat) { |fill.heads| == n && |fill.seen| == n && |fill.contexts| == n }

  function HeadsBefore(fill: Fill, k: nat): Headings
    requires k <= |fill.heads|
  {
    if k == 0 then fill.given else fill.heads[k - 1]
  }

  /** The text of the first `k` spans of the window. */
  function FirstText(spans: seq<Span>, start: nat, k: nat): Blob
    requires start + k <= |spans|
  {
    TextAfter(spans[start..start + k])
  }

  /** The first text of a window did not fit beside its context. */
  predicate Dropped(spans: seq<Span>, start: nat, fill: Fill, k: nat, o: Options)
    requires k < |fill.contexts| && start + k < |spans|
  {
    FirstText(spans, start, k) == [] && !Fits(fill.contexts[k], FirstText(spans, start, k + 1), o)
  }

  /** The context in hand when `k` spans have been taken: the one they were measured with, unless it was dropped. */
  function ContextBefore(spans: seq<Span>, start: nat, fill: Fill, k: nat, o: Options): Blob
    requires k <= |fill.contexts| && start + k <= |spans|
  {
    if k == 0 || Dropped(spans, start, fill, k - 1, o) then [] else fill.contexts[k - 1]
  }

  /** A text that does not fit gives way to its best piece. */
  ghost predicate GivesWay(context: Blob, text: Blob, piece: Blob, o: Options) {
    !Fits(context, text, o) &&
    var cut := BestCut(text, 0, FitEnds(text, 0, 0, context, o)); 0 < cut < |text| && piece == text[..cut]
  }

  /** All but the last of the texts seen gave way, each while the window had no text. */
  ghost predicate Chain(context: Blob, h: Headings, seen: seq<Blob>, o: Options) {
    forall r :: 0 <= r < |seen| - 1 ==> GivesWay(ContextAfter(context, h, seen[..r + 1], o), seen[r], seen[r + 1], o)
  }

  /** How the k-th span came into the window: what was noted, what it was measured with, what it was cut from, and that it
      fits; only the first text of a window may be there because it cannot be cut any shorter. */
  ghost predicate Taken(spans: seq<Span>, start: nat, fill: Fill, k: nat, o: Options)
    requires Parallel(fill, |fill.contexts|) && k < |fill.contexts| && start + k < |spans|
  {
    var h, c, seen, before := HeadsBefore(fill, k), ContextBefore(spans, start, fill, k, o), fill.seen[k], FirstText(spans, start, k);
    seen != [] && seen[|seen| - 1] == spans[start + k].text && fill.heads[k] == Noted(h, seen, o) &&
    fill.contexts[k] == ContextAfter(c, h, seen, o) && Chain(c, h, seen, o) && (|seen| > 1 ==> before == []) &&
    (Fits(fill.contexts[k], FirstText(spans, start, k + 1), o) ||
     (before == [] && var t := spans[start + k].text; BestCut(t, 0, FitEnds(t, 0, 0, fill.contexts[k], o)) >= |t|))
  }

  /** The span at `j` cut down along a chain of texts. */
  function Chop(spans: seq<Span>, j: nat, chain: seq<Blob>): seq<Span> {
    if |chain| <= 1 then spans
    else
      var m := |chain| - 1;
      var before := Chop(spans, j, chain[..m]);
      if j < |before| && |chain[m]| <= |before[j].text| then SplitSpan(before, j, |chain[m]|) else before
  }

  /** The spans after all the cuts a window has made. */
  function Chopped(spans: seq<Span>, start: nat, seen: seq<seq<Blob>>): seq<Span> {
    if seen == [] then spans else Chop(Chopped(spans, start, seen[..|seen| - 1]), start + |seen| - 1, seen[|seen| - 1])
  }

  /** A span was looked at and found not to fit. */
  ghost predicate Peeked(spans: seq<Span>, start: nat, i: nat, fill: Fill, o: Options)
    requires start < i <= |spans| && Parallel(fill, i - start)
  {
    i < |spans| && i - start < MaxLines(o) && !FullAt(spans, start, i - start - 1, fill.contexts[i - start - 1], o)
  }

  /** The window: every span in it was taken in order, nothing was split but what had to be, and this is what is in hand at
      its end. */
  ghost predicate Filled(before: seq<Span>, spans: seq<Span>, start: nat, i: nat, fill: Fill, headings: Headings, context: Blob,
                         o: Options)
  {
    start < i <= |spans| && Parallel(fill, i - start) && spans == Chopped(before, start, fill.seen) &&
    (forall k :: 0 <= k < i - start ==> Taken(spans, start, fill, k, o)) &&
    var h, c := HeadsBefore(fill, i - start), ContextBefore(spans, start, fill, i - start, o);
    if Peeked(spans, start, i, fill, o)
    then headings == Noted(h, [spans[i].text], o) && context == ContextAfter(c, h, [spans[i].text], o)
    else headings == h && context == c
  }

  /** Part of the way: the texts in `pass` have been noted for the span at `i`, and have given way. */
  ghost predicate Under(before: seq<Span>, spans: seq<Span>, start: nat, i: nat, fill: Fill, pass: seq<Blob>, headings: Headings,
                        context: Blob, o: Options)
  {
    start <= i <= |spans| && Parallel(fill, i - start) &&
    (forall k :: 0 <= k < i - start ==> Taken(spans, start, fill, k, o)) &&
    var h, c := HeadsBefore(fill, i - start), ContextBefore(spans, start, fill, i - start, o);
    headings == Noted(h, pass, o) && context == ContextAfter(c, h, pass, o) &&
    if pass == [] then spans == Chopped(before, start, fill.seen)
    else i < |spans| && FirstText(spans, start, i - start) == [] && Chain(c, h, pass + [spans[i].text], o) &&
         spans == Chop(Chopped(before, start, fill.seen), i, pass + [spans[i].text])
  }

  lemma UnderStart(before: seq<Span>, start: nat, given: Headings, o: Options)
    requires start <= |before|
    ensures Under(before, before, start, start, Fill(given, [], [], []), [], given, [], o)
  {
  }

  lemma NoteOne(h: Headings, c: Blob, pass: seq<Blob>, t: Blob, o: Options)
    ensures NoteAll(h, pass + [t]) == NoteHeading(NoteAll(h, pass), t)
    ensures ContextAfter(c, h, pass + [t], o) == Breadcrumb(ContextAfter(c, h, pass, o), NoteAll(h, pass + [t]), o)
  {
    assert (pass + [t])[..|pass|] == pass;
  }

  /** What noting a text does to the headings and the context in hand. */
  function NextHeadings(headings: Headings, t: Blob, o: Options): Headings {
    if o.headingContext then NoteHeading(headings, t) else headings
  }

  /** Taking a span leaves what was known of the spans before it. */
  lemma TakenStays(spans: seq<Span>, spans': seq<Span>, start: nat, fill: Fill, fill': Fill, k: nat, i: nat, o: Options)
    requires Parallel(fill, |fill.contexts|) && Parallel(fill', |fill'.contexts|) && k < |fill.contexts| <= |fill'.contexts|
    requires start + k < i <= |spans| && i <= |spans'| && spans'[..i] == spans[..i] && fill'.given == fill.given
    requires fill'.heads[..|fill.heads|] == fill.heads && fill'.seen[..|fill.seen|] == fill.seen
    requires fill'.contexts[..|fill.contexts|] == fill.contexts && Taken(spans, start, fill, k, o)
    ensures Taken(spans', start, fill', k, o)
  {
    hide TextAfter, Chain, NoteAll, ContextAfter, Fits, BestCut;
    SameFirst(spans, spans', start, k, i);
    SameFirst(spans, spans', start, k + 1, i);
    if k > 0 {
      SameFirst(spans, spans', start, k - 1, i);
    }
    assert spans'[start + k] == spans[..i][start + k];
    assert fill'.heads[k] == fill'.heads[..|fill.heads|][k] && fill'.seen[k] == fill'.seen[..|fill.seen|][k];
    assert fill'.contexts[k] == fill'.contexts[..|fill.contexts|][k];
    if k > 0 {
      assert fill'.heads[k - 1] == fill'.heads[..|fill.heads|][k - 1];
      assert fill'.contexts[k - 1] == fill'.contexts[..|fill.contexts|][k - 1];
    }
  }

  lemma SameFirst(spans: seq<Span>, spans': seq<Span>, start: nat, k: nat, i: nat)
    requires start + k <= i <= |spans| && i <= |spans'| && spans'[..i] == spans[..i]
    ensures FirstText(spans', start, k) == FirstText(spans, start, k)
  {
    assert spans[start..start + k] == spans[..i][start..start + k] == spans'[start..start + k];
  }

  lemma SameContext(spans: seq<Span>, spans': seq<Span>, start: nat, fill: Fill, k: nat, i: nat, o: Options)
    requires k <= |fill.contexts| && start + k <= i <= |spans| && i <= |spans'| && spans'[..i] == spans[..i]
    ensures ContextBefore(spans', start, fill, k, o) == ContextBefore(spans, start, fill, k, o)
  {
    hide TextAfter;
    if k > 0 {
      SameFirst(spans, spans', start, k - 1, i);
      SameFirst(spans, spans', start, k, i);
    }
  }

  lemma UnderSplit(before: seq<Span>, spans: seq<Span>, start: nat, i: nat, fill: Fill, pass: seq<Blob>, headings: Headings,
                   context: Blob, cut: nat, o: Options)
    requires Under(before, spans, start, i, fill, pass, headings, context, o) && i < |spans| && FirstText(spans, start, i - start) == []
    requires var t := spans[i].text; var c := Breadcrumb(context, NextHeadings(headings, t, o), o);
      !Fits(c, t, o) && cut == BestCut(t, 0, FitEnds(t, 0, 0, c, o)) && 0 < cut < |t|
    ensures var t := spans[i].text; var h := NextHeadings(headings, t, o);
      Under(before, SplitSpan(spans, i, cut), start, i, fill, pass + [t], h, Breadcrumb(context, h, o), o)
  {
    hide TextAfter, NoteAll, ContextAfter, Fits, BestCut, FitEnds, Taken, Chopped, Crumbs, NoteHeading, Dropped;
    var t, next := spans[i].text, SplitSpan(spans, i, cut);
    var h, c := HeadsBefore(fill, i - start), ContextBefore(spans, start, fill, i - start, o);
    NoteOne(h, c, pass, t, o);
    assert next[..i] == spans[..i] && next[i].text == t[..cut];
    SameContext(spans, next, start, fill, i - start, i, o);
    SameFirst(spans, next, start, i - start, i);
    forall k | 0 <= k < i - start
      ensures Taken(next, start, fill, k, o)
    {
      TakenStays(spans, next, start, fill, fill, k, i, o);
    }
    var chain := pass + [t] + [t[..cut]];
    assert chain[..|chain| - 1] == pass + [t];
    ContextPlain(c, h, pass, t, o);
    ChainNext(c, h, pass, t, t[..cut], o);
  }

  /** Without heading context nothing is noted. */
  lemma {:induction false} ContextPlain(c: Blob, h: Headings, pass: seq<Blob>, t: Blob, o: Options)
    ensures !o.headingContext ==> ContextAfter(c, h, pass, o) == c
  {
    if pass != [] {
      ContextPlain(c, h, pass[..|pass| - 1], t, o);
    }
  }

  lemma ChainNext(c: Blob, h: Headings, pass: seq<Blob>, t: Blob, piece: Blob, o: Options)
    requires pass != [] ==> Chain(c, h, pass + [t], o)
    requires GivesWay(ContextAfter(c, h, pass + [t], o), t, piece, o)
    ensures Chain(c, h, pass + [t] + [piece], o)
  {
    hide GivesWay, ContextAfter;
    var seen, chain := pass + [t], pass + [t] + [piece];
    forall r | 0 <= r < |chain| - 1
      ensures GivesWay(ContextAfter(c, h, chain[..r + 1], o), chain[r], chain[r + 1], o)
    {
      assert chain[..r + 1] == seen[..r + 1];
      if r == |pass| {
        assert seen[..r + 1] == seen;
      } else {
        assert chain[r] == seen[r] && chain[r + 1] == seen[r + 1];
      }
    }
  }

  /** The fill once the next span is taken. */
  function Further(fill: Fill, seen: seq<Blob>, headings: Headings, context: Blob): Fill {
    Fill(fill.given, fill.heads + [headings], fill.seen + [seen], fill.contexts + [context])
  }

  lemma UnderTake(before: seq<Span>, spans: seq<Span>, start: nat, i: nat, fill: Fill, pass: seq<Blob>, headings: Headings,
                  context: Blob, o: Options)
    requires Under(before, spans, start, i, fill, pass, headings, context, o) && i < |spans|
    requires var t := spans[i].text; var c := Breadcrumb(context, NextHeadings(headings, t, o), o);
      Fits(c, FirstText(spans, start, i + 1 - start), o) ||
      (FirstText(spans, start, i - start) == [] && BestCut(t, 0, FitEnds(t, 0, 0, c, o)) >= |t|)
    ensures var t := spans[i].text; var h := NextHeadings(headings, t, o); var c := Breadcrumb(context, h, o);
      var dropped := FirstText(spans, start, i - start) == [] && !Fits(c, FirstText(spans, start, i + 1 - start), o);
      Under(before, spans, start, i + 1, Further(fill, pass + [t], h, c), [], h, if dropped then [] else c, o)
  {
    hide FirstText, NoteAll, ContextAfter, Fits, BestCut, FitEnds, Taken, Chopped, Crumbs, NoteHeading, Chain, Dropped, Chop,
         HeadsBefore, ContextBefore;
    var n, t := i - start, spans[i].text;
    var h, c := HeadsBefore(fill, n), ContextBefore(spans, start, fill, n, o);
    NoteOne(h, c, pass, t, o);
    ContextPlain(c, h, pass, t, o);
    var h', c' := NextHeadings(headings, t, o), Breadcrumb(context, NextHeadings(headings, t, o), o);
    var fill' := Further(fill, pass + [t], h', c');
    forall k | 0 <= k < n
      ensures Taken(spans, start, fill', k, o)
    {
      assert fill'.heads[..n] == fill.heads && fill'.seen[..n] == fill.seen && fill'.contexts[..n] == fill.contexts;
      TakenStays(spans, spans, start, fill, fill', k, i, o);
    }
    LastTaken(spans, start, fill, fill', n, pass, t, o);
    ChoppedNext(before, start, fill.seen, pass + [t]);
    FurtherIs(spans, start, fill, n, pass + [t], h', c', o);
    NothingNoted(h', if FirstText(spans, start, n) == [] && !Fits(c', FirstText(spans, start, n + 1), o) then [] else c', o);
  }

  lemma FurtherIs(spans: seq<Span>, start: nat, fill: Fill, n: nat, seen: seq<Blob>, h: Headings, c: Blob, o: Options)
    requires Parallel(fill, n) && start + n < |spans|
    ensures var fill' := Further(fill, seen, h, c);
      Parallel(fill', n + 1) && HeadsBefore(fill', n + 1) == h &&
      ContextBefore(spans, start, fill', n + 1, o) ==
      if FirstText(spans, start, n) == [] && !Fits(c, FirstText(spans, start, n + 1), o) then [] else c
  {
    hide FirstText, Fits;
  }

  lemma NothingNoted(h: Headings, c: Blob, o: Options)
    ensures Noted(h, [], o) == h && ContextAfter(c, h, [], o) == c
  {
  }

  lemma ChoppedNext(before: seq<Span>, start: nat, seen: seq<seq<Blob>>, chain: seq<Blob>)
    ensures Chopped(before, start, seen + [chain]) == Chop(Chopped(before, start, seen), start + |seen|, chain)
    ensures |chain| <= 1 ==> Chopped(before, start, seen + [chain]) == Chopped(before, start, seen)
  {
    assert (seen + [chain])[..|seen|] == seen;
  }

  lemma LastTaken(spans: seq<Span>, start: nat, fill: Fill, fill': Fill, n: nat, pass: seq<Blob>, t: Blob, o: Options)
    requires Parallel(fill, n) && start + n < |spans| && spans[start + n].text == t
    requires var h, c := HeadsBefore(fill, n), ContextBefore(spans, start, fill, n, o);
      fill' == Further(fill, pass + [t], Noted(h, pass + [t], o), ContextAfter(c, h, pass + [t], o)) &&
      (pass != [] ==> FirstText(spans, start, n) == [] && Chain(c, h, pass + [t], o))
    requires Fits(fill'.contexts[n], FirstText(spans, start, n + 1), o) ||
      (FirstText(spans, start, n) == [] && BestCut(t, 0, FitEnds(t, 0, 0, fill'.contexts[n], o)) >= |t|)
    ensures Taken(spans, start, fill', n, o)
  {
    hide TextAfter, NoteAll, ContextAfter, Fits, BestCut, FitEnds;
    assert n > 0 ==> fill'.heads[n - 1] == fill.heads[n - 1] && fill'.contexts[n - 1] == fill.contexts[n - 1];
  }

  /** The loop is left without looking at another span. */
  lemma FilledHere(before: seq<Span>, spans: seq<Span>, start: nat, i: nat, fill: Fill, headings: Headings, context: Blob, o: Options)
    requires Under(before, spans, start, i, fill, [], headings, context, o) && start < i
    requires i == |spans| || i - start >= MaxLines(o) || FullAt(spans, start, i - start - 1, fill.contexts[i - start - 1], o)
    ensures Filled(before, spans, start, i, fill, headings, context, o)
  {
    hide Taken, Chopped, NoteAll, FullAt;
    NothingNoted(HeadsBefore(fill, i - start), ContextBefore(spans, start, fill, i - start, o), o);
  }

  /** The loop is left after looking at a span that does not fit. */
  lemma FilledPast(before: seq<Span>, spans: seq<Span>, start: nat, i: nat, fill: Fill, headings: Headings, context: Blob, o: Options)
    requires Under(before, spans, start, i, fill, [], headings, context, o) && start < i < |spans|
    requires i - start < MaxLines(o) && !FullAt(spans, start, i - start - 1, fill.contexts[i - start - 1], o)
    ensures var h := NextHeadings(headings, spans[i].text, o);
      Filled(before, spans, start, i, fill, h, Breadcrumb(context, h, o), o)
  {
    hide Taken, Chopped, FullAt, Crumbs, NoteHeading;
    var h, c := HeadsBefore(fill, i - start), ContextBefore(spans, start, fill, i - start, o);
    NoteOne(h, c, [], spans[i].text, o);
    assert [] + [spans[i].text] == [spans[i].text];
  }

  /** No span has to be split. */
  ghost predicate Unsplit(spans: seq<Span>, o: Options) {
    !o.headingContext && forall k :: 0 <= k < |spans| ==> Fits([], spans[k].text, o)
  }

  lemma UnsplitAt(spans: seq<Span>, o: Options, i: nat)
    requires Unsplit(spans, o) && i < |spans|
    ensures Fits([], spans[i].text, o) && !o.headingContext
  {
  }

  /** The last span taken has filled the window. */
  ghost predicate Ended(spans: seq<Span>, start: nat, i: nat, contexts: seq<Blob>, o: Options) {
    start < i <= |spans| && |contexts| == i - start && NotFull(spans, start, contexts, |contexts| - 1, o) &&
    FullAt(spans, start, |contexts| - 1, contexts[|contexts| - 1], o)
  }

  /** What the loop keeps besides what it notes. */
  ghost predicate Gathering(before: seq<Span>, spans: seq<Span>, start: nat, i: nat, text: Blob, context: Blob, contexts: seq<Blob>,
                            full: bool, o: Options)
  {
    start <= i <= |spans| && |contexts| == i - start <= MaxLines(o) && (i == start ==> text == [] && !full) &&
    SameSpans(before, spans, start) && TextOk(text, spans, start, i) && Gathered(spans, start, i, contexts, text, o) &&
    (!o.headingContext ==> context == []) && Pos(spans, i) <= |Cells(before)| && (Unsplit(before, o) ==> spans == before) &&
    (LimitHolds(o) ==> text == [] || Fits([], text, o)) &&
    if full then Ended(spans, start, i, contexts, o) else NotFull(spans, start, contexts, |contexts|, o)
  }

  lemma GatheringStart(before: seq<Span>, start: nat, o: Options)
    requires start < |before| && AllShaped(before)
    ensures Gathering(before, before, start, start, [], [], [], false, o)
  {
    hide Shaped, Cells;
    TextNothing(before, start);
    CellsSlice(before, start, start);
  }

  /** The best piece takes the place of a first text that does not fit. */
  lemma GatheringSplit(before: seq<Span>, spans: seq<Span>, start: nat, i: nat, context: Blob, context': Blob, contexts: seq<Blob>,
                       cut: nat, o: Options)
    requires Gathering(before, spans, start, i, [], context, contexts, false, o) && i < |spans|
    requires (!o.headingContext ==> context' == []) && !Fits(context', spans[i].text, o)
    requires CutOk(spans[i].text, 0, cut) && cut < |spans[i].text|
    ensures var next := SplitSpan(spans, i, cut);
      Gathering(before, next, start, i, [], context', contexts, false, o) && i < |next| && |next[i].text| < |spans[i].text| &&
      Pos(next, i) == Pos(spans, i)
  {
    hide Shaped, Cells, Pos, SplitSpan, CutOk, TextOk, Gathered, NotFull, SameSpans, Fits, Unsplit, FullAt, MaxLines, LimitHolds;
    if Unsplit(before, o) {
      UnsplitAt(before, o, i);
    }
    SplitStep(before, spans, start, i, cut, []);
    GatheredSplit(spans, start, i, contexts, [], cut, o);
  }

  /** The next span is taken, measured with `measured`; `context'` is what is left of it. */
  lemma GatheringTake(before: seq<Span>, spans: seq<Span>, start: nat, i: nat, text: Blob, context: Blob, contexts: seq<Blob>,
                      measured: Blob, context': Blob, full: bool, o: Options)
    requires Gathering(before, spans, start, i, text, context, contexts, false, o) && i < |spans| && i - start < MaxLines(o)
    requires (!o.headingContext ==> measured == []) && (context' == measured || context' == [])
    requires LimitHolds(o) ==> Fits([], Candidate(text, spans[i]), o)
    requires var tokens := Count(EmbeddingForm(measured, Candidate(text, spans[i]), o), o);
      full <==> tokens >= Target(o) || (spans[i].text == [] && tokens >= Target(o) / 2)
    ensures Gathering(before, spans, start, i + 1, Candidate(text, spans[i]), context', contexts + [measured], full, o)
    ensures Pos(spans, i) < Pos(spans, i + 1)
  {
    hide Shaped, Cells, Pos, TextOk, SameSpans, Fits, Unsplit, EmbeddingForm, Candidate, Gathered, NotFull, FullAt, MaxLines, Target,
         LimitHolds;
    SpanFacts(before, spans, start, i);
    TextNext(text, spans, start, i);
    GatheredNext(spans, start, i, contexts, text, measured, o);
    NotFullNext(spans, start, contexts, measured, o);
    FullIs(spans, start, i + 1, Candidate(text, spans[i]), context', contexts + [measured], o);
    LessFull(spans, start, contexts + [measured], o);
  }

  /** What the loop leaves, stopped by a span that does not fit, or by its own condition. */
  lemma GatheringEnds(before: seq<Span>, spans: seq<Span>, start: nat, i: nat, text: Blob, context: Blob, context': Blob,
                      contexts: seq<Blob>, full: bool, o: Options)
    requires Gathering(before, spans, start, i, text, context, contexts, full, o) && start < |before|
    requires full || i == |spans| || i - start == MaxLines(o) || (text != [] && !Fits(context', Candidate(text, spans[i]), o))
    ensures start < i <= |spans| && StopsHere(spans, start, i, text, context', contexts, o)
    ensures NotFull(spans, start, contexts, |contexts| - 1, o)
    ensures full || i < |spans| ==> (full <==> FullAt(spans, start, i - start - 1, contexts[i - start - 1], o))
  {
    hide Shaped, Cells, Pos, TextOk, Fits, Unsplit, Candidate, Gathered, FullAt, LimitHolds;
    LessFull(spans, start, contexts, o);
    if !full && i < |spans| {
      NotFullLast(spans, start, contexts, o);
    }
  }

  /** The inner loop: takes spans from `start` on until the target, the limit or the line count is reached. */
  method FillWindow(before: seq<Span>, start: nat, headings0: Headings, o: Options)
    returns (spans: seq<Span>, headings: Headings, i: nat, text: Blob, context: Blob, ghost fill: Fill)
    requires start < |before| && AllShaped(before)
    ensures start < i <= |spans| && SameSpans(before, spans, start) && TextOk(text, spans, start, i)
    ensures LimitHolds(o) ==> context == [] && (text == [] || Fits([], text, o))
    ensures Gathered(spans, start, i, fill.contexts, text, o) && NotFull(spans, start, fill.contexts, |fill.contexts| - 1, o)
    ensures StopsHere(spans, start, i, text, context, fill.contexts, o) && i - start <= MaxLines(o)
    ensures Filled(before, spans, start, i, fill, headings, context, o) && fill.given == headings0
    ensures Unsplit(before, o) ==> spans == before
  {
    hide Unsplit, Shaped, Cells, Pos, FairMeasure, Fits, CutOk, BestCut, FitEnds, EmbeddingForm, TextOk, Crumbs, NoteHeading,
         Candidate, Under, Filled, Gathered, NotFull, StopsHere, SameSpans, SplitSpan, UsableLimit, Target, FullAt, Ended;
    var limit, target := UsableLimit(o), Target(o);
    var lines := 0;
    spans, headings, i, text, context := before, headings0, start, [], [];
    fill := Fill(headings0, [], [], []);
    ghost var pass: seq<Blob> := [];
    GatheringStart(before, start, o);
    UnderStart(before, start, headings0, o);
    var full := false;
    while !full && i < |spans| && lines < MaxLines(o)
      invariant start <= i <= |spans| && lines == i - start == |fill.contexts|
      invariant Gathering(before, spans, start, i, text, context, fill.contexts, full, o)
      invariant Under(before, spans, start, i, fill, pass, headings, context, o)
      invariant fill.given == headings0 && (!o.headingContext ==> context == [])
      invariant pass != [] ==> text == [] && !full && i < |spans| && lines < MaxLines(o)
      decreases |Cells(before)| - Pos(spans, i), if i < |spans| then |spans[i].text| else 0
    {
      var span := spans[i];
      ghost var headings1, context1 := headings, context;
      if o.headingContext {
        headings := NoteHeading(headings, span.text);
        if context == [] {
          context := Crumbs(headings, 6);
        }
      }
      var candidate := Candidate(text, span);
      ghost var measured := context;
      var tokens := Count(EmbeddingForm(context, candidate, o), o);
      FitsIs(context, candidate, o);
      CandidateIs(text, span);
      GatheringFirst(before, spans, start, i, text, context1, fill.contexts, o);
      if text != [] && tokens > limit {
        GatheringEnds(before, spans, start, i, text, context1, context, fill.contexts, full, o);
        FilledPast(before, spans, start, i, fill, headings1, context1, o);
        GatheringHas(before, spans, start, i, text, context1, fill.contexts, full, o);
        return;
      }
      if text == [] && tokens > limit {
        var cut := SplitAt(span.text, 0, context, o);
        CutAhead(span.text, 0, cut);
        if cut < |span.text| {
          GatheringSplit(before, spans, start, i, context1, context, fill.contexts, cut, o);
          UnderSplit(before, spans, start, i, fill, pass, headings1, context1, cut, o);
          pass := pass + [span.text];
          spans := SplitSpan(spans, i, cut);
          continue;
        }
        WholeText(span.text, cut, o);
        context := [];
        candidate := span.text;
      }
      full := tokens >= target || (span.text == [] && tokens >= target / 2);
      GatheringTake(before, spans, start, i, text, context1, fill.contexts, measured, context, full, o);
      UnderTake(before, spans, start, i, fill, pass, headings1, context1, o);
      fill, pass := Further(fill, pass + [span.text], headings, measured), [];
      text := candidate;
      i := i + 1;
      lines := lines + 1;
    }
    GatheringEnds(before, spans, start, i, text, context, context, fill.contexts, full, o);
    GatheringHas(before, spans, start, i, text, context, fill.contexts, full, o);
    FilledHere(before, spans, start, i, fill, headings, context, o);
  }

  lemma CutAhead(t: Blob, begin: nat, cut: nat)
    ensures CutOk(t, begin, cut) ==> begin < cut
  {
  }

  /** A text that is not cut although it does not fit beside its context fits alone, if the measurer is fair. */
  lemma WholeText(t: Blob, cut: nat, o: Options)
    requires cut >= |t| && cut <= |t| && (t != [] ==> Fits([], t[0..cut], o) || cut == NextUtf8(t, 0) || o.headingContext)
    ensures LimitHolds(o) ==> Fits([], t, o)
  {
    hide Fits, FairMeasure;
    assert t[0..|t|] == t;
    if LimitHolds(o) {
      WholeFits(t, cut, o);
    }
  }

  lemma GatheringHas(before: seq<Span>, spans: seq<Span>, start: nat, i: nat, text: Blob, context: Blob, contexts: seq<Blob>,
                     full: bool, o: Options)
    requires Gathering(before, spans, start, i, text, context, contexts, full, o)
    ensures start <= i <= |spans| && SameSpans(before, spans, start) && TextOk(text, spans, start, i)
    ensures Gathered(spans, start, i, contexts, text, o) && i - start <= MaxLines(o) && (Unsplit(before, o) ==> spans == before)
    ensures LimitHolds(o) ==> text == [] || Fits([], text, o)
  {
    hide Shaped, Cells, Pos, Fits;
  }

  /** The text in hand is that of the spans taken, before and after the next one. */
  lemma GatheringFirst(before: seq<Span>, spans: seq<Span>, start: nat, i: nat, text: Blob, context: Blob, contexts: seq<Blob>,
                       o: Options)
    requires Gathering(before, spans, start, i, text, context, contexts, false, o) && i < |spans|
    ensures text == FirstText(spans, start, i - start) && Candidate(text, spans[i]) == FirstText(spans, start, i + 1 - start)
    ensures LimitHolds(o) ==> !o.headingContext
  {
    hide Candidate, Shaped, Cells, Pos, Fits;
    assert spans[start..i + 1][..i - start] == spans[start..i];
  }

  lemma NotFullLast(spans: seq<Span>, start: nat, contexts: seq<Blob>, o: Options)
    requires contexts != [] && start + |contexts| <= |spans| && NotFull(spans, start, contexts, |contexts|, o)
    ensures !FullAt(spans, start, |contexts| - 1, contexts[|contexts| - 1], o)
  {
    hide FullAt;
  }

  /** What the loop's own test says of the last step. */
  lemma FullIs(spans: seq<Span>, start: nat, i: nat, text: Blob, context: Blob, contexts: seq<Blob>, o: Options)
    requires start < i <= |spans| && Gathered(spans, start, i, contexts, text, o)
    ensures var last, tokens := spans[i - 1], Count(EmbeddingForm(contexts[|contexts| - 1], text, o), o);
      FullAt(spans, start, |contexts| - 1, contexts[|contexts| - 1], o) <==> tokens >= Target(o) || (last.text == [] && tokens >= Target(o) / 2)
    ensures FullAt(spans, start, |contexts| - 1, contexts[|contexts| - 1], o) ==> StopsHere(spans, start, i, text, context, contexts, o)
  {
    hide TextAfter, EmbeddingForm;
  }

  lemma LessFull(spans: seq<Span>, start: nat, contexts: seq<Blob>, o: Options)
    requires start + |contexts| <= |spans| && contexts != []
    ensures NotFull(spans, start, contexts, |contexts|, o) ==> NotFull(spans, start, contexts, |contexts| - 1, o)
  {
    hide FullAt;
  }

  lemma FitsIs(context: Blob, body: Blob, o: Options)
    ensures Fits(context, body, o) <==> Count(EmbeddingForm(context, body, o), o) <= UsableLimit(o)
  {
  }

  lemma SpanFacts(before: seq<Span>, spans: seq<Span>, start: nat, i: nat)
    requires SameSpans(before, spans, start) && i < |spans|
    ensures AllShaped(spans) && Pos(spans, i) < Pos(spans, i + 1) <= |Cells(before)|
  {
    hide Cells, Shaped;
    SpanAt(spans, i);
  }
}
