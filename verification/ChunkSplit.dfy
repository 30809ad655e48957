/** The chunker's options, its measure of embedding size, and the choice of a cut within one line. */
module ChunkSplit {
  import opened Wrappers
  import opened Bytes
  import opened Utf8

  datatype Options = Options(
    maxLines: nat, maxChars: nat, overlapLines: nat, headingContext: bool, targetTokens: nat, maxTokens: nat,
    overlapTokens: nat, reservedTokens: nat, prefix: Blob, rejectInvalid: bool, measure: Option<Blob -> nat>)

  function Count(t: Blob, o: Options): nat {
    match o.measure
    case Some(measure) => measure(t)
    case None => |t|
  }

  function UsableLimit(o: Options): nat {
    if o.maxTokens == 0 then (if o.maxChars == 0 then 1 else o.maxChars)
    else if o.reservedTokens >= o.maxTokens then 1
    else o.maxTokens - o.reservedTokens
  }

  /** Prefix, context and body, each on its own line when it is not empty. */
  function EmbeddingForm(context: Blob, body: Blob, o: Options): Blob {
    o.prefix + (if o.prefix != [] && (context != [] || body != []) then [LF] else []) +
    context + (if context != [] && body != [] then [LF] else []) + body
  }

  predicate Fits(context: Blob, body: Blob, o: Options) { Count(EmbeddingForm(context, body, o), o) <= UsableLimit(o) }

  predicate SentenceBoundary(b: byte) { b == '.' as int || b == '!' as int || b == '?' as int || b == ';' as int }

  predicate IsSpace(b: byte) { b == 0x20 || 0x09 <= b <= 0x0D }

  predicate SoftBoundary(b: byte) {
    IsSpace(b) || b == ',' as int || b == ':' as int || b == '/' as int || b == '}' as int || b == ']' as int ||
    b == ')' as int || b == '-' as int || b == '|' as int
  }

  /** A place where a line may be cut: past its beginning, and between whole scalars of well-shaped text. */
  ghost predicate CutOk(t: Blob, begin: nat, cut: nat) {
    begin < cut <= |t| && (Shaped(t[begin..]) ==> Shaped(t[begin..cut]) && Shaped(t[cut..]))
  }

  lemma CutNext(t: Blob, begin: nat, at: nat)
    requires begin <= at < |t| && (at == begin || CutOk(t, begin, at))
    ensures CutOk(t, begin, NextUtf8(t, at))
  {
    hide Shaped;
    var end := NextUtf8(t, at);
    if Shaped(t[begin..]) {
      ShapedStep(t, at);
      if at > begin {
        ShapedAppend(t[begin..at], t[at..end]);
        assert t[begin..at] + t[at..end] == t[begin..end];
      }
    }
  }

  /** The scalar ends that fit, one after the other, up to the first that does not. */
  function FitEnds(t: Blob, begin: nat, at: nat, context: Blob, o: Options): (ends: seq<nat>)
    requires begin <= at
    ensures forall i :: 0 <= i < |ends| ==> begin < ends[i] <= |t|
    decreases |t| - at
  {
    if at >= |t| || !Fits(context, t[begin..NextUtf8(t, at)], o) then []
    else [NextUtf8(t, at)] + FitEnds(t, begin, NextUtf8(t, at), context, o)
  }

  /** The last end after a byte of this class, or `none`. */
  function LastAfter(t: Blob, ends: seq<nat>, ofClass: byte -> bool, none: nat): nat
    requires forall i :: 0 <= i < |ends| ==> 0 < ends[i] <= |t|
  {
    if ends == [] then none
    else if ofClass(t[ends[|ends| - 1] - 1]) then ends[|ends| - 1]
    else LastAfter(t, ends[..|ends| - 1], ofClass, none)
  }

  /** Everything if it fits; else the last sentence end that fits, else the last soft boundary, else as much
      as fits, else one scalar. */
  function BestCut(t: Blob, begin: nat, ends: seq<nat>): nat
    requires forall i :: 0 <= i < |ends| ==> begin < ends[i] <= |t|
  {
    var last := if ends == [] then begin else ends[|ends| - 1];
    if last == |t| then last
    else if LastAfter(t, ends, SentenceBoundary, begin) > begin then LastAfter(t, ends, SentenceBoundary, begin)
    else if LastAfter(t, ends, SoftBoundary, begin) > begin then LastAfter(t, ends, SoftBoundary, begin)
    else if last > begin then last
    else NextUtf8(t, begin)
  }

  /** The ends seen so far and what the loop remembers of them. */
  ghost predicate Looked(t: Blob, begin: nat, context: Blob, o: Options, at: nat, seen: seq<nat>, sentence: nat, soft: nat) {
    begin <= at <= |t| && (forall i :: 0 <= i < |seen| ==> begin < seen[i] <= |t|) &&
    FitEnds(t, begin, begin, context, o) == seen + FitEnds(t, begin, at, context, o) &&
    at == (if seen == [] then begin else seen[|seen| - 1]) &&
    sentence == LastAfter(t, seen, SentenceBoundary, begin) && soft == LastAfter(t, seen, SoftBoundary, begin)
  }

  lemma LastNext(t: Blob, seen: seq<nat>, end: nat, ofClass: byte -> bool, none: nat)
    requires 0 < end <= |t| && forall i :: 0 <= i < |seen| ==> 0 < seen[i] <= |t|
    ensures LastAfter(t, seen + [end], ofClass, none) ==
            if ofClass(t[end - 1]) then end else LastAfter(t, seen, ofClass, none)
  {
    assert (seen + [end])[..|seen|] == seen;
  }

  lemma EndsNext(t: Blob, begin: nat, at: nat, context: Blob, o: Options)
    requires begin <= at < |t| && Fits(context, t[begin..NextUtf8(t, at)], o)
    ensures FitEnds(t, begin, at, context, o) == [NextUtf8(t, at)] + FitEnds(t, begin, NextUtf8(t, at), context, o)
  {
    hide Fits, NextUtf8;
  }

  lemma LookedNext(t: Blob, begin: nat, context: Blob, o: Options, at: nat, seen: seq<nat>, sentence: nat, soft: nat)
    requires Looked(t, begin, context, o, at, seen, sentence, soft) && at < |t|
    requires Fits(context, t[begin..NextUtf8(t, at)], o)
    ensures var end := NextUtf8(t, at);
      Looked(t, begin, context, o, end, seen + [end], if SentenceBoundary(t[end - 1]) then end else sentence,
             if SoftBoundary(t[end - 1]) then end else soft)
  {
    hide Fits, SentenceBoundary, SoftBoundary, LastAfter, NextUtf8, FitEnds;
    var end := NextUtf8(t, at);
    LastNext(t, seen, end, SentenceBoundary, begin);
    LastNext(t, seen, end, SoftBoundary, begin);
    EndsNext(t, begin, at, context, o);
    var rest := FitEnds(t, begin, end, context, o);
    assert seen + ([end] + rest) == seen + [end] + rest;
  }

  lemma LookedAll(t: Blob, begin: nat, context: Blob, o: Options, at: nat, seen: seq<nat>, sentence: nat, soft: nat)
    requires Looked(t, begin, context, o, at, seen, sentence, soft)
    requires at < |t| ==> !Fits(context, t[begin..NextUtf8(t, at)], o)
    ensures BestCut(t, begin, FitEnds(t, begin, begin, context, o)) ==
      if at == |t| then at else if sentence > begin then sentence else if soft > begin then soft
      else if at > begin then at else NextUtf8(t, begin)
  {
    hide Fits, SentenceBoundary, SoftBoundary, LastAfter;
    assert FitEnds(t, begin, at, context, o) == [] && seen + [] == seen;
  }

  lemma LookedNone(t: Blob, begin: nat, context: Blob, o: Options)
    requires begin <= |t|
    ensures Looked(t, begin, context, o, begin, [], begin, begin)
  {
    assert [] + FitEnds(t, begin, begin, context, o) == FitEnds(t, begin, begin, context, o);
  }

  /** The chosen piece fits, or is a single scalar that does not. */
  method SplitAt(t: Blob, begin: nat, context: Blob, o: Options) returns (cut: nat)
    requires begin <= |t|
    ensures cut == BestCut(t, begin, FitEnds(t, begin, begin, context, o))
    ensures begin < |t| ==> CutOk(t, begin, cut)
    ensures cut <= |t| && (begin == |t| ==> cut == |t|)
    ensures begin < |t| ==> Fits(context, t[begin..cut], o) || cut == NextUtf8(t, begin)
  {
    hide Shaped, Fits, NextUtf8, SentenceBoundary, SoftBoundary, Looked, FitEnds, BestCut;
    LookedNone(t, begin, context, o);
    var at: nat, lastFit: nat, sentence: nat, soft: nat := begin, begin, begin, begin;
    ghost var seen: seq<nat> := [];
    while at < |t|
      invariant begin <= at == lastFit <= |t| && Looked(t, begin, context, o, at, seen, sentence, soft)
      invariant at == begin || (CutOk(t, begin, at) && Fits(context, t[begin..at], o))
      invariant sentence == begin || (CutOk(t, begin, sentence) && Fits(context, t[begin..sentence], o))
      invariant soft == begin || (CutOk(t, begin, soft) && Fits(context, t[begin..soft], o))
    {
      var end := NextUtf8(t, at);
      CutNext(t, begin, at);
      if !Fits(context, t[begin..end], o) {
        break;
      }
      LookedNext(t, begin, context, o, at, seen, sentence, soft);
      hide CutOk;
      lastFit := end;
      seen := seen + [end];
      if SentenceBoundary(t[end - 1]) {
        sentence := end;
      }
      if SoftBoundary(t[end - 1]) {
        soft := end;
      }
      at := end;
    }
    LookedAll(t, begin, context, o, at, seen, sentence, soft);
    if lastFit == |t| {
      return lastFit;
    }
    if sentence > begin {
      return sentence;
    }
    if soft > begin {
      return soft;
    }
    CutNext(t, begin, begin);
    return if lastFit > begin then lastFit else NextUtf8(t, begin);
  }

  // ------------------------------------------------------- what the cut is, said outright

  function EndBefore(begin: nat, ends: seq<nat>, i: nat): nat
    requires i <= |ends|
  {
    if i == 0 then begin else ends[i - 1]
  }

  /** The scalar after `at` ends here and fits with everything before it. */
  ghost predicate FitsNext(t: Blob, begin: nat, context: Blob, o: Options, at: nat, end: nat) {
    begin <= at < end <= |t| && end == NextUtf8(t, at) && Fits(context, t[begin..end], o)
  }

  ghost predicate NothingMore(t: Blob, begin: nat, context: Blob, o: Options, at: nat) {
    begin <= at <= |t| && (at == |t| || !Fits(context, t[begin..NextUtf8(t, at)], o))
  }

  /** The ends of the scalars after `at`, up to the last one that fits with everything before it. */
  ghost predicate EndsFrom(t: Blob, begin: nat, at: nat, context: Blob, o: Options, ends: seq<nat>) {
    (forall i :: 0 <= i < |ends| ==> FitsNext(t, begin, context, o, EndBefore(at, ends, i), ends[i])) &&
    NothingMore(t, begin, context, o, EndBefore(at, ends, |ends|))
  }

  /** The furthest of the ends that follow a byte of this class. */
  ghost predicate Furthest(t: Blob, ends: seq<nat>, ofClass: byte -> bool, cut: nat) {
    cut in ends && 0 < cut <= |t| && ofClass(t[cut - 1]) &&
    forall e :: e in ends && 0 < e <= |t| && ofClass(t[e - 1]) ==> e <= cut
  }

  ghost predicate NoneAfter(t: Blob, ends: seq<nat>, ofClass: byte -> bool) {
    forall e :: e in ends && 0 < e <= |t| ==> !ofClass(t[e - 1])
  }

  /** All of the line if it fits; else the furthest sentence end that fits; else the furthest soft boundary; else as much as
      fits; else one scalar. */
  ghost predicate Preferred(t: Blob, begin: nat, ends: seq<nat>, cut: nat)
    requires begin < |t|
  {
    var last := EndBefore(begin, ends, |ends|);
    if last == |t| then cut == |t|
    else if !NoneAfter(t, ends, SentenceBoundary) then Furthest(t, ends, SentenceBoundary, cut)
    else if !NoneAfter(t, ends, SoftBoundary) then Furthest(t, ends, SoftBoundary, cut)
    else if ends != [] then cut == last
    else cut == NextUtf8(t, begin)
  }

  lemma EndsOn(t: Blob, begin: nat, at: nat, context: Blob, o: Options, end: nat, rest: seq<nat>)
    requires FitsNext(t, begin, context, o, at, end) && EndsFrom(t, begin, end, context, o, rest)
    ensures EndsFrom(t, begin, at, context, o, [end] + rest)
  {
    hide FitsNext, NothingMore;
    var ends := [end] + rest;
    forall i | 0 <= i < |ends|
      ensures FitsNext(t, begin, context, o, EndBefore(at, ends, i), ends[i])
    {
      assert i > 0 ==> ends[i] == rest[i - 1] && EndBefore(at, ends, i) == EndBefore(end, rest, i - 1);
    }
    assert EndBefore(at, ends, |ends|) == EndBefore(end, rest, |rest|);
  }

  lemma {:induction false} FitEndsAre(t: Blob, begin: nat, at: nat, context: Blob, o: Options)
    requires begin <= at <= |t|
    ensures EndsFrom(t, begin, at, context, o, FitEnds(t, begin, at, context, o))
    decreases |t| - at
  {
    hide Fits, EndsFrom;
    var end := NextUtf8(t, at);
    if at < |t| && Fits(context, t[begin..end], o) {
      FitEndsAre(t, begin, end, context, o);
      EndsOn(t, begin, at, context, o, end, FitEnds(t, begin, end, context, o));
    } else {
      NoEnds(t, begin, at, context, o);
    }
  }

  lemma NoEnds(t: Blob, begin: nat, at: nat, context: Blob, o: Options)
    requires NothingMore(t, begin, context, o, at)
    ensures EndsFrom(t, begin, at, context, o, [])
  {
    hide NothingMore;
  }

  lemma Ascending(t: Blob, begin: nat, context: Blob, o: Options, ends: seq<nat>)
    requires EndsFrom(t, begin, begin, context, o, ends)
    ensures forall i, j :: 0 <= i < j < |ends| ==> ends[i] < ends[j]
  {
    forall i, j | 0 <= i < j < |ends|
      ensures ends[i] < ends[j]
    {
      hide EndsFrom;
      Rises(t, begin, context, o, ends, i, j);
    }
  }

  lemma EndStep(t: Blob, begin: nat, context: Blob, o: Options, ends: seq<nat>, i: nat)
    requires EndsFrom(t, begin, begin, context, o, ends) && 0 < i < |ends|
    ensures ends[i - 1] < ends[i]
  {
    hide Fits, NextUtf8, NothingMore;
    assert FitsNext(t, begin, context, o, EndBefore(begin, ends, i), ends[i]);
    hide EndsFrom;
  }

  lemma {:induction false} Rises(t: Blob, begin: nat, context: Blob, o: Options, ends: seq<nat>, i: nat, j: nat)
    requires EndsFrom(t, begin, begin, context, o, ends) && i < j < |ends|
    ensures ends[i] < ends[j]
  {
    hide EndsFrom;
    EndStep(t, begin, context, o, ends, j);
    if i < j - 1 {
      Rises(t, begin, context, o, ends, i, j - 1);
    }
  }

  lemma {:induction false} LastIsFurthest(t: Blob, begin: nat, ends: seq<nat>, ofClass: byte -> bool)
    requires forall i :: 0 <= i < |ends| ==> begin < ends[i] <= |t|
    requires forall i, j :: 0 <= i < j < |ends| ==> ends[i] < ends[j]
    ensures var last := LastAfter(t, ends, ofClass, begin);
      if NoneAfter(t, ends, ofClass) then last == begin else last > begin && Furthest(t, ends, ofClass, last)
  {
    if ends != [] {
      var n := |ends| - 1;
      assert ends[n] in ends;
      if !ofClass(t[ends[n] - 1]) {
        LastIsFurthest(t, begin, ends[..n], ofClass);
        FurthestBefore(t, ends, ofClass, LastAfter(t, ends[..n], ofClass, begin));
      }
    }
  }

  lemma FurthestBefore(t: Blob, ends: seq<nat>, ofClass: byte -> bool, cut: nat)
    requires ends != [] && 0 < ends[|ends| - 1] <= |t| && !ofClass(t[ends[|ends| - 1] - 1])
    ensures NoneAfter(t, ends, ofClass) <==> NoneAfter(t, ends[..|ends| - 1], ofClass)
    ensures Furthest(t, ends, ofClass, cut) <==> Furthest(t, ends[..|ends| - 1], ofClass, cut)
  {
    var front, last := ends[..|ends| - 1], ends[|ends| - 1];
    assert ends == front + [last];
    assert forall e :: e in ends <==> e in front || e == last;
  }

  lemma CutPreferred(t: Blob, begin: nat, ends: seq<nat>)
    requires begin < |t|
    requires forall i :: 0 <= i < |ends| ==> begin < ends[i] <= |t|
    requires forall i, j :: 0 <= i < j < |ends| ==> ends[i] < ends[j]
    ensures Preferred(t, begin, ends, BestCut(t, begin, ends))
  {
    hide LastAfter, NoneAfter, Furthest, NextUtf8;
    LastIsFurthest(t, begin, ends, SentenceBoundary);
    LastIsFurthest(t, begin, ends, SoftBoundary);
  }

  lemma BestCutIs(t: Blob, begin: nat, context: Blob, o: Options)
    requires begin < |t|
    ensures var ends := FitEnds(t, begin, begin, context, o);
      EndsFrom(t, begin, begin, context, o, ends) && Preferred(t, begin, ends, BestCut(t, begin, ends))
  {
    hide Fits, FitEnds, BestCut, Preferred, NextUtf8, EndsFrom;
    FitEndsAre(t, begin, begin, context, o);
    Ascending(t, begin, context, o, FitEnds(t, begin, begin, context, o));
    CutPreferred(t, begin, FitEnds(t, begin, begin, context, o));
  }

  // --------------------------------------------------------------- the hard limit

  /** Longer text never measures less. */
  ghost predicate Growing(o: Options) { forall a: Blob, b: Blob :: Count(a, o) <= Count(a + b, o) }

  /** And any single scalar fits beside the prefix. */
  ghost predicate FairMeasure(o: Options) {
    Growing(o) &&
    (forall s: Blob :: s != [] && NextUtf8(s, 0) == |s| ==> Fits([], s, o))
  }

  lemma ScalarFits(t: Blob, begin: nat, o: Options)
    requires FairMeasure(o) && begin < |t|
    ensures Fits([], t[begin..NextUtf8(t, begin)], o)
  {
    NextShift(t, begin);
    OneScalar(t[begin..]);
    assert t[begin..][..NextUtf8(t[begin..], 0)] == t[begin..NextUtf8(t, begin)];
  }

  lemma PrefixFits(a: Blob, b: Blob, o: Options)
    requires FairMeasure(o) && Fits([], b, o) && |a| <= |b| && b[..|a|] == a
    ensures Fits([], a, o)
  {
    hide Fits, Growing;
    ShorterFits(a, b, o);
  }

  lemma ShorterFits(a: Blob, b: Blob, o: Options)
    requires Growing(o) && Fits([], b, o) && |a| <= |b| && b[..|a|] == a
    ensures Fits([], a, o)
  {
    hide Growing;
    var rest := FormPrefix(a, b, o);
    hide EmbeddingForm;
    Grows(EmbeddingForm([], a, o), rest, o);
  }

  /** The scalars of text that fits all fit. */
  lemma {:induction false} EndsReach(t: Blob, begin: nat, at: nat, o: Options)
    requires begin <= at < |t| && Growing(o) && Fits([], t[begin..], o)
    ensures var ends := FitEnds(t, begin, at, [], o); ends != [] && ends[|ends| - 1] == |t|
    decreases |t| - at
  {
    hide Growing, Fits, NextUtf8;
    var end := NextUtf8(t, at);
    assert t[begin..][..end - begin] == t[begin..end];
    ShorterFits(t[begin..end], t[begin..], o);
    if end < |t| {
      EndsReach(t, begin, end, o);
    }
  }

  /** Text that fits is not cut. */
  lemma WholeCut(t: Blob, o: Options)
    requires t != [] && Growing(o) && Fits([], t, o)
    ensures BestCut(t, 0, FitEnds(t, 0, 0, [], o)) == |t|
  {
    hide Growing, Fits, FitEnds, LastAfter, NextUtf8;
    assert t[0..] == t;
    EndsReach(t, 0, 0, o);
  }

  lemma Grows(a: Blob, b: Blob, o: Options)
    requires Growing(o)
    ensures Count(a, o) <= Count(a + b, o)
  {
    hide Fits;
  }

  lemma FormPrefix(a: Blob, b: Blob, o: Options) returns (rest: Blob)
    requires |a| <= |b| && b[..|a|] == a
    ensures EmbeddingForm([], b, o) == EmbeddingForm([], a, o) + rest
  {
    if a == [] && b != [] && o.prefix != [] {
      rest := [LF] + b;
      assert EmbeddingForm([], b, o) == o.prefix + [LF] + b;
      assert EmbeddingForm([], a, o) == o.prefix;
    } else {
      rest := b[|a|..];
      assert b == a + rest;
    }
  }

  lemma NothingFits(o: Options)
    requires FairMeasure(o)
    ensures Fits([], [], o)
  {
    var s: Blob := [0x20];
    assert NextUtf8(s, 0) == |s|;
    PrefixFits([], s, o);
  }
}
