/** Positions that are met again, by their length in bytes, and runs in which a copy or a cut loses an acknowledged
    mutation. */
module OverlapRuns {
  import opened Documents
  import opened Validation
  import opened Jobs
  import opened JobLog
  import opened Ingestion
  import opened IngestionLimits
  import opened OverlappingCheckpoints
  import opened Deletions
  import opened OverlapLimits
  import JobStore

  // ------------------------------------------------------------- how long is long enough

  function Xs(n: nat): string { seq(n, _ => 'x') }

  /** The lengths of the three records of a deletion, without its two names. */
  datatype Fixed = Fixed(queued: nat, started: nat, over: nat)

  function Sum(x: Fixed): nat { x.queued + x.started + x.over }

  /** The codec writes names of plain letters as they are. */
  ghost predicate NamesAdd(c: Codec, x: Fixed) { forall a: nat, b: nat :: a > 0 && b > 0 ==> NameAdds(c, x, a, b) }

  predicate NameAdds(c: Codec, x: Fixed, a: nat, b: nat) {
    |Frame(c, Removing(Xs(a), Xs(b), 1, Status.Queued))| == x.queued + a + b &&
    |Frame(c, Removing(Xs(a), Xs(b), 1, Publishing))| == x.started + a + b &&
    |Frame(c, Deleted(Xs(a), Xs(b), 1))| == x.over + a + b
  }

  /** All names in use are shorter. */
  predicate ShorterThan(s: Sys, n: nat) {
    (forall id :: id in s.co.jobs ==> |id| < n) && (forall d :: d in s.co.latestRevision ==> |d| < n) &&
    (forall d :: d in s.backend.revisions ==> |d| < n)
  }

  /** Room for the records another cut keeps, for the last record of the deletion it interrupts, and for the first record of
      another deletion. */
  ghost predicate Roomy(c: Codec, s: Sys, kept: seq<Job>, n: nat, x: Fixed, position: nat) {
    n > 0 && ShorterThan(s, n) && NamesAdd(c, x) && (forall j :: j in kept ==> !Terminal(j.status)) &&
    CutOf(s.log + Removals(Xs(n), Xs(n), 1), kept) &&
    LogBytes(c, kept) + (x.over + 2 * n) + (x.queued + 2 * n + 2) <= position
  }

  /** Every position that leaves room is met again. */
  lemma LongCutCanLose(f: Preparation, c: Codec, turns: seq<Turn>, i: nat, position: nat, kept: seq<Job>, n: nat, x: Fixed)
    returns (longer: seq<Turn>, rest: seq<Job>)
    requires ToCut(f, c, turns, i, position) && Roomy(c, ManyAfter(f, c, turns).sys, kept, n, x, position)
    ensures LosesBy(f, c, turns, longer, Cut(i, |kept| + 2, rest), Mutation(Xs(n), 1, Gone))
  {
    hide ManyLegal, ManyAfter, AllCareful, CutOf, Met, LosesBy, LogBytes;
    var s := ManyAfter(f, c, turns).sys;
    var last := position - LogBytes(c, kept) - (x.over + 2 * n) - x.queued - (n + 1);
    LongIsMet(c, s, kept, n, x, last, position);
    longer, rest := CutCanLose(f, c, turns, i, position, [Plainly(n, n), Plainly(n + 1, last)], kept, |kept| + 2);
  }

  function Plainly(a: nat, b: nat): Name { Name(Xs(a), Xs(b)) }

  lemma LongIsMet(c: Codec, s: Sys, kept: seq<Job>, n: nat, x: Fixed, last: nat, position: nat)
    requires 0 < n < last && ShorterThan(s, n) && NamesAdd(c, x)
    requires CutOf(s.log + Removals(Xs(n), Xs(n), 1), kept) && forall j :: j in kept ==> !Terminal(j.status)
    requires LogBytes(c, kept) + (x.over + 2 * n) + (x.queued + (n + 1) + last) == position
    ensures Met(c, s, [Plainly(n, n), Plainly(n + 1, last)], kept, |kept| + 2, position)
  {
    hide CutOf, Log, Frame, ShorterThan;
    var a, b := Plainly(n, n), Plainly(n + 1, last);
    var over, next := Deleted(Xs(n), Xs(n), 1), Removing(Xs(n + 1), Xs(last), 1, Status.Queued);
    assert NameAdds(c, x, n, n) && NameAdds(c, x, n + 1, last);
    LongerNames(s, n, n, n);
    LongerNames(s, n, n + 1, last);
    TwoErasings(a, b);
    var log := kept + Erasings([a, b])[2..];
    assert log[..|kept| + 2] == kept + [over] + [next];
    LogAppend(c, kept + [over], [next]);
    LogAppend(c, kept, [over]);
    LogOne(c, over);
    LogOne(c, next);
  }

  lemma TwoErasings(a: Name, b: Name)
    ensures Erasings([a, b]) == Erasing(a) + Erasing(b)
  {
    assert [a, b][1..] == [b] && Erasings([b]) == Erasing(b) + Erasings([]);
  }

  lemma LogOne(c: Codec, j: Job)
    ensures LogBytes(c, [j]) == |Frame(c, j)|
  {
    assert Log(c, [j]) == Frame(c, j) + Log(c, []);
  }

  lemma LongerNames(s: Sys, n: nat, a: nat, b: nat)
    requires ShorterThan(s, n) && 0 < n <= a && n <= b
    ensures Unheard(s, Plainly(a, b))
  {
    assert |Xs(a)| == a && |Xs(b)| == b;
  }

  // --------------------------------------------------------------------- both do occur

  /** A store that has just been opened. */
  lemma OpenRun(f: Preparation, c: Codec) returns (turns: seq<Turn>)
    ensures ManyLegal(f, c, turns) && AllCareful(f, c, turns)
    ensures var m := ManyAfter(f, c, turns);
      m == Many(m.sys, map[], 0) && m.sys.log == [] && m.sys.mode.Up? && m.sys.co.admitting.None? &&
      forall n: Name :: n.document != "" ==> Unheard(m.sys, n)
  {
    turns := [];
    assert ManyLegal(f, c, []) && AllCareful(f, c, []) && ManyAfter(f, c, []) == Start;
    hide ManyLegal, ManyAfter, AllCareful, Enabled, Apply;
    LoadEmpty(f);
    OpenLoaded(f);
    ManyExtend(f, c, turns, Do(OpenEvents[0]));
    ManyExtend(f, c, turns + [Do(OpenEvents[0])], Do(RecoverDone));
    turns := turns + [Do(OpenEvents[0])] + [Do(RecoverDone)];
  }

  /** A run, careful to its last step, in which writing an old copy loses an acknowledged mutation. */
  lemma CopyLoses(f: Preparation, c: Codec) returns (turns: seq<Turn>, write: nat, lost: Mutation)
    ensures LosesBy(f, c, [], turns, Write(write), lost)
  {
    hide ManyLegal, ManyAfter, AllCareful, LogBytes;
    turns := OpenRun(f, c);
    write := 0;
    ManyExtend(f, c, turns, Locate(0));
    ManyExtend(f, c, turns + [Locate(0)], Copy(0));
    turns, lost := CopyCanLose(f, c, turns + [Locate(0)] + [Copy(0)], 0);
  }

  /** No job is unfinished. */
  ghost predicate AllOver(log: seq<Job>) { forall id :: id in Latest(log) ==> Terminal(Latest(log)[id].status) }

  lemma {:induction false} ErasingsOver(names: seq<Name>)
    ensures AllOver(Erasings(names))
  {
    if names != [] {
      ErasingsOver(names[1..]);
      ErasingOver(names[0]);
      JobStore.LatestConcat(Erasing(names[0]), Erasings(names[1..]));
    }
  }

  lemma ErasingOver(n: Name)
    ensures AllOver(Erasing(n))
  {
    var first, second := Removing(n.id, n.document, 1, Status.Queued), Removing(n.id, n.document, 1, Publishing);
    LatestAppend([], first);
    LatestAppend([] + [first], second);
    LatestAppend([] + [first] + [second], Deleted(n.id, n.document, 1));
    assert Erasing(n) == [] + [first] + [second] + [Deleted(n.id, n.document, 1)];
  }

  /** Nothing has to be kept of it. */
  lemma NothingKept(log: seq<Job>)
    requires AllOver(log)
    ensures CutOf(log, [])
  {
  }

  lemma UnheardSplit(s: Sys, a: seq<Name>, b: seq<Name>)
    requires AllUnheard(s, a + b)
    ensures AllUnheard(s, a) && AllUnheard(s, b) && forall x, y :: x in a && y in b ==> Differ(y, x)
  {
    hide Unheard;
    var names := a + b;
    assert forall i :: 0 <= i < |a| ==> names[i] == a[i];
    assert forall i :: 0 <= i < |b| ==> names[|a| + i] == b[i];
    forall x, y | x in a && y in b
      ensures Differ(y, x)
    {
      var i, j :| 0 <= i < |a| && a[i] == x && 0 <= j < |b| && b[j] == y;
      assert Differ(names[i], names[|a| + j]);
    }
  }

  lemma SameHearing(s: Sys, s': Sys, names: seq<Name>)
    requires AllUnheard(s, names) && s'.co == s.co && s'.backend == s.backend
    ensures AllUnheard(s', names)
  {
  }

  /** A legal and careful run to a state in which the coordinator is free and these are unheard of. */
  ghost predicate FreeRun(f: Preparation, c: Codec, turns: seq<Turn>, names: seq<Name>) {
    ManyLegal(f, c, turns) && AllCareful(f, c, turns) &&
    var s := ManyAfter(f, c, turns).sys; s.mode.Up? && s.co.admitting.None? && AllUnheard(s, names)
  }

  /** The run up to `located` has appended these records, and a checkpoint has then replaced the file. */
  ghost predicate SavedAt(f: Preparation, c: Codec, turns: seq<Turn>, located: seq<Turn>, longer: seq<Turn>, more: seq<Job>, j: nat) {
    turns <= located && longer == located + [Locate(j), Copy(j), Write(j)] &&
    ManyLegal(f, c, turns) && ManyLegal(f, c, located) && ManyLegal(f, c, longer) && SavedState(ManyAfter(f, c, longer)) &&
    var log, slots := ManyAfter(f, c, turns).sys.log + more, ManyAfter(f, c, turns).slots;
    ManyAfter(f, c, located).sys.log == log && ManyAfter(f, c, longer).sys.log == log &&
    ManyAfter(f, c, longer).slots == slots[j := Replaced(LogBytes(c, log))]
  }

  predicate SavedState(m: Many) { m.sys.checkpoint == m.sys.backend && m.held == |m.sys.log| }

  /** Some deletions, and a checkpoint up to its cut. */
  lemma DeleteAndSave(f: Preparation, c: Codec, turns: seq<Turn>, names: seq<Name>, others: seq<Name>, j: nat)
    returns (located: seq<Turn>, longer: seq<Turn>)
    requires FreeRun(f, c, turns, names + others) && j !in ManyAfter(f, c, turns).slots
    ensures SavedAt(f, c, turns, located, longer, Erasings(names), j) && FreeRun(f, c, longer, others)
  {
    hide ManyLegal, ManyAfter, AllCareful, LogBytes, Unheard, Differ, Erasings;
    var s := ManyAfter(f, c, turns).sys;
    UnheardSplit(s, names, others);
    located := DeleteAll(f, c, turns, names);
    var s' := ManyAfter(f, c, located).sys;
    assert AllUnheard(s', others);
    longer := SavedCheckpoint(f, c, located, j);
    SameHearing(s', ManyAfter(f, c, longer).sys, others);
  }

  predicate Named(names: seq<Name>) { forall n :: n in names ==> n.document != "" }

  /** Later deletions make the log as long as early ones have made it; the first of them have records enough. */
  ghost predicate AsLong(c: Codec, early: seq<Name>, more: seq<Name>, late: seq<Name>) {
    Distinct(early + (more + late)) && Named(early + (more + late)) &&
    |early| <= |more| && LogBytes(c, Erasings(early)) == LogBytes(c, Erasings(more) + Erasings(late))
  }

  /** Checkpoint 0 has replaced the file and is to cut at the length it read, after no more records than the file makes
      up for. */
  ghost predicate Outlived(f: Preparation, c: Codec, read: seq<Turn>, turns: seq<Turn>) {
    read + [Locate(0)] <= turns && ManyLegal(f, c, read) && ManyLegal(f, c, turns) &&
    var m, was := ManyAfter(f, c, turns), ManyAfter(f, c, read).sys.log;
    0 in m.slots && m.slots[0] == Replaced(LogBytes(c, was)) && |was| <= m.held
  }

  /** The last step loses every one of these deletions. */
  ghost predicate LosesAll(f: Preparation, c: Codec, turns: seq<Turn>, longer: seq<Turn>, t: Turn, names: seq<Name>) {
    forall n :: n in names ==> LosesBy(f, c, turns, longer, t, Erased(n))
  }

  /** Checkpoint 0 waits to cut at the length of these deletions, which it read after `read`; the log has been emptied. */
  ghost predicate WaitsEmpty(f: Preparation, c: Codec, read: seq<Turn>, turns: seq<Turn>, early: seq<Name>, rest: seq<Name>) {
    FreeRun(f, c, turns, rest) && read + [Locate(0)] <= turns && ManyLegal(f, c, read) &&
    ManyAfter(f, c, read).sys.log == Erasings(early) && ManyAfter(f, c, turns).sys.log == [] &&
    ManyAfter(f, c, turns).slots == map[0 := Replaced(LogBytes(c, Erasings(early)))]
  }

  lemma EmptyOnce(f: Preparation, c: Codec, early: seq<Name>, rest: seq<Name>) returns (read: seq<Turn>, turns: seq<Turn>)
    requires Distinct(early + rest) && Named(early + rest)
    ensures WaitsEmpty(f, c, read, turns, early, rest)
  {
    hide ManyLegal, ManyAfter, AllCareful, CutOf, LogBytes, Unheard, Differ, Distinct, Erasings, Latest;
    turns := OpenRun(f, c);
    read, turns := DeleteAndSave(f, c, turns, early, rest, 0);
    ErasingsOver(early);
    NothingKept(Erasings(early));
    var s := ManyAfter(f, c, turns).sys;
    assert s.log == Erasings(early);
    turns := WholeCheckpoint(f, c, turns, 1, []);
    SameHearing(s, ManyAfter(f, c, turns).sys, rest);
  }

  /** An offset that outlives a cut. Checkpoint 0 reads the length of a log, saves, and waits, while another one runs whole
      and empties the log. Further deletions are acknowledged, a third checkpoint saves, and late deletions make the log as
      long as it was. The position of checkpoint 0 then stood after no more records than the file makes up for when it was
      read, and the cut at it drops the whole log: every late deletion is lost. */
  lemma StaleOffsetLoses(f: Preparation, c: Codec, early: seq<Name>, more: seq<Name>, late: seq<Name>)
    returns (read: seq<Turn>, turns: seq<Turn>)
    requires AsLong(c, early, more, late)
    ensures Outlived(f, c, read, turns) && ManyAfter(f, c, turns).sys.log == Erasings(more) + Erasings(late)
    ensures LosesAll(f, c, read, turns, Cut(0, 3 * |more + late|, []), late)
  {
    hide ManyLegal, ManyAfter, AllCareful, CutOf, LogBytes, Unheard, Differ, Distinct, Erasings, Latest;
    read, turns := EmptyOnce(f, c, early, more + late);
    var located;
    located, turns := DeleteAndSave(f, c, turns, more, late, 2);
    var saved := ManyAfter(f, c, turns).sys;
    turns := DeleteAll(f, c, turns, late);
    assert saved.log == Erasings(more);
    ErasingsCount(early);
    ErasingsCount(more);
    ErasingsCount(late);
    WholeLogCut(f, c, ManyAfter(f, c, turns), more, late, saved);
  }

  /** Such a run exists for every codec that writes plain names as they are: one deletion with a long name first, four with
      short names after the cut. */
  lemma CutLoses(f: Preparation, c: Codec, x: Fixed) returns (turns: seq<Turn>, cut: Turn, lost: Mutation)
    requires NamesAdd(c, x)
    ensures LosesBy(f, c, [], turns, cut, lost) && cut.Cut?
  {
    hide ManyLegal, ManyAfter, AllCareful, CutOf, LogBytes, Erasings, NamesAdd, Latest, AsLong, Possible, Lost, Careful;
    FourFit(c, x);
    var read;
    read, turns := StaleOffsetLoses(f, c, Early(15 + Sum(x)), More(), Late());
    cut := Cut(0, 3 * |More() + Late()|, []);
    lost := Erased(Late()[0]);
    assert Late()[0] in Late();
  }

  function Early(last: nat): seq<Name> { [Plainly(5, last)] }

  function More(): seq<Name> { [Plainly(1, 1)] }

  function Late(): seq<Name> { [Plainly(2, 2), Plainly(3, 3), Plainly(4, 4)] }

  lemma FourFit(c: Codec, x: Fixed)
    requires NamesAdd(c, x)
    ensures AsLong(c, Early(15 + Sum(x)), More(), Late())
  {
    hide NamesAdd, LogBytes, Erasings, Plainly, Distinct;
    var early, more, late := Early(15 + Sum(x)), More(), Late();
    assert late[1..] == [Plainly(3, 3), Plainly(4, 4)] && late[1..][1..] == [Plainly(4, 4)] && late[1..][1..][1..] == [];
    assert early[1..] == [] && more[1..] == [];
    OneMore(c, x, early, 5, 15 + Sum(x));
    OneMore(c, x, more, 1, 1);
    OneMore(c, x, late, 2, 2);
    OneMore(c, x, late[1..], 3, 3);
    OneMore(c, x, late[1..][1..], 4, 4);
    LogBytesJoin(c, Erasings(more), Erasings(late));
    NoNames(c);
    FiveDiffer(15 + Sum(x));
  }

  lemma FiveDiffer(last: nat)
    requires last > 4
    ensures Distinct(Early(last) + (More() + Late())) && Named(Early(last) + (More() + Late()))
  {
    forall a: nat, b: nat
      ensures a != b ==> Xs(a) != Xs(b)
    {
      assert |Xs(a)| == a && |Xs(b)| == b;
    }
    assert Xs(0) == "";
  }

  lemma LogBytesJoin(c: Codec, a: seq<Job>, b: seq<Job>)
    ensures LogBytes(c, a + b) == LogBytes(c, a) + LogBytes(c, b)
  {
    LogAppend(c, a, b);
  }

  lemma NoNames(c: Codec)
    ensures LogBytes(c, Erasings([])) == 0
  {
  }

  lemma OneMore(c: Codec, x: Fixed, names: seq<Name>, a: nat, b: nat)
    requires NamesAdd(c, x) && names != [] && names[0] == Plainly(a, b) && a > 0 && b > 0
    ensures LogBytes(c, Erasings(names)) == Sum(x) + 3 * (a + b) + LogBytes(c, Erasings(names[1..]))
  {
    hide Log, Frame;
    var n := names[0];
    assert NameAdds(c, x, a, b);
    var first, second, third :=
      Removing(n.id, n.document, 1, Status.Queued), Removing(n.id, n.document, 1, Publishing), Deleted(n.id, n.document, 1);
    assert Erasing(n) == [first] + [second] + [third];
    LogAppend(c, Erasing(n), Erasings(names[1..]));
    LogAppend(c, [first] + [second], [third]);
    LogAppend(c, [first], [second]);
    LogOne(c, first);
    LogOne(c, second);
    LogOne(c, third);
  }

  lemma {:induction false} ErasingsCount(names: seq<Name>)
    ensures |Erasings(names)| == 3 * |names|
  {
    if names != [] {
      ErasingsCount(names[1..]);
    }
  }

  /** The deletions are acknowledged, and the file is older than they are. */
  predicate NotSaved(s: Sys, saved: Sys, names: seq<Name>) {
    AllUnheard(saved, names) && s.checkpoint == saved.backend && forall n :: n in names ==> Erased(n) in s.acked
  }

  predicate AllLost(s: Sys, names: seq<Name>) { forall n :: n in names ==> Lost(s, Erased(n)) }

  /** A cut of a log of deletions that are over drops all of them. */
  lemma WholeLogCut(f: Preparation, c: Codec, m: Many, more: seq<Name>, late: seq<Name>, saved: Sys)
    requires m.sys.mode.Up? && 0 in m.slots && m.slots[0] == Replaced(LogBytes(c, m.sys.log))
    requires m.sys.log == Erasings(more) + Erasings(late) && NotSaved(m.sys, saved, late)
    ensures Possible(f, c, m, Cut(0, |m.sys.log|, [])) && AllLost(Step(f, c, m, Cut(0, |m.sys.log|, [])).sys, late)
  {
    hide Latest, LogBytes, Erasings, Distinct, ShiftAll;
    var log := m.sys.log;
    assert log[..|log|] == log && [] + log[|log|..] == [];
    ErasingsOver(more);
    ErasingsOver(late);
    JobStore.LatestConcat(Erasings(more), Erasings(late));
    NothingKept(log);
  }
}
