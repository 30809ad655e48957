/** What overlapping checkpoints can do. From every careful state a copy in hand can be made to lose an acknowledged
    mutation, and so can every cut that is still to come, where its position can be met again after another cut. */
module OverlapLimits {
  import opened Documents
  import opened Validation
  import opened Jobs
  import opened JobLog
  import opened Ingestion
  import opened IngestionSafety
  import opened OverlappingCheckpoints
  import opened Deletions
  import opened LogTracks
  import JobStore

  // ------------------------------------------------------------------------ longer runs

  lemma ManyExtend(f: Preparation, c: Codec, turns: seq<Turn>, t: Turn)
    requires ManyLegal(f, c, turns) && Possible(f, c, ManyAfter(f, c, turns), t)
    ensures ManyLegal(f, c, turns + [t]) && ManyAfter(f, c, turns + [t]) == Step(f, c, ManyAfter(f, c, turns), t)
    ensures AllCareful(f, c, turns) && Careful(ManyAfter(f, c, turns), t) ==> AllCareful(f, c, turns + [t])
  {
    assert (turns + [t])[..|turns|] == turns;
  }

  function Lift(events: seq<Event>): seq<Turn> { seq(|events|, i requires 0 <= i < |events| => Do(events[i])) }

  /** Steps that are no part of a checkpoint, taken while checkpoints are in progress. */
  lemma {:induction false} ManyPlain(f: Preparation, c: Codec, turns: seq<Turn>, events: seq<Event>)
    requires ManyLegal(f, c, turns) && Legal(f, ManyAfter(f, c, turns).sys, events) && AllPlain(events)
    ensures ManyLegal(f, c, turns + Lift(events)) && (AllCareful(f, c, turns) ==> AllCareful(f, c, turns + Lift(events)))
    ensures ManyAfter(f, c, turns + Lift(events)) == ManyAfter(f, c, turns).(sys := After(f, ManyAfter(f, c, turns).sys, events))
  {
    hide Enabled, Apply, ManyLegal, ManyAfter, AllCareful;
    if events == [] {
      assert turns + Lift(events) == turns;
    } else {
      var n := |events| - 1;
      ManyPlain(f, c, turns, events[..n]);
      assert turns + Lift(events) == turns + Lift(events[..n]) + [Do(events[n])];
      ManyExtend(f, c, turns + Lift(events[..n]), Do(events[n]));
    }
  }

  /** The rest of an admission in progress. */
  lemma FinishAdmitting(f: Preparation, c: Codec, turns: seq<Turn>) returns (longer: seq<Turn>)
    requires ManyLegal(f, c, turns) && AllCareful(f, c, turns) && ManyAfter(f, c, turns).sys.mode.Up?
    ensures turns <= longer && ManyLegal(f, c, longer) && AllCareful(f, c, longer)
    ensures var m, m' := ManyAfter(f, c, turns), ManyAfter(f, c, longer);
      m'.sys.mode.Up? && m'.sys.co.admitting.None? && m'.slots == m.slots && m'.held == m.held
  {
    longer := turns;
    if ManyAfter(f, c, turns).sys.co.admitting.Some? {
      hide ManyLegal, ManyAfter, AllCareful, FinishAdmission;
      ManyExtend(f, c, turns, Do(Admitted(true, 0)));
      longer := turns + [Do(Admitted(true, 0))];
      AdmissionEnds(ManyAfter(f, c, turns).sys);
    }
  }

  lemma AdmissionEnds(s: Sys)
    requires s.co.admitting.Some?
    ensures FinishAdmission(s, true, 0).co.admitting.None? && FinishAdmission(s, true, 0).mode == s.mode
  {
  }

  // -------------------------------------------------------------- a whole checkpoint

  lemma {:induction false} UnusedNumber(s: set<nat>) returns (n: nat)
    ensures forall k :: k in s ==> k < n
    decreases |s|
  {
    n := 0;
    if s != {} {
      var k :| k in s;
      var rest := UnusedNumber(s - {k});
      n := if k >= rest then k + 1 else rest;
      assert forall x :: x in s ==> x == k || x in s - {k};
    }
  }

  lemma {:induction false} ListJobs(m: JobMap, ids: set<JobId>) returns (kept: seq<Job>)
    requires ids <= m.Keys && KeyedById(m)
    ensures forall i :: 0 <= i < |kept| ==> kept[i].id in ids && m[kept[i].id] == kept[i]
    ensures forall i, j :: 0 <= i < j < |kept| ==> kept[i].id != kept[j].id
    ensures forall id :: id in ids ==> m[id] in kept
    decreases |ids|
  {
    kept := [];
    if ids != {} {
      var id :| id in ids;
      var rest := ListJobs(m, ids - {id});
      kept := rest + [m[id]];
      assert forall j :: j in kept <==> j in rest || j == m[id];
      assert forall i :: 0 <= i < |rest| ==> kept[i] == rest[i];
    }
  }

  ghost function Open(log: seq<Job>): set<JobId> { set id | id in Latest(log) && !Terminal(Latest(log)[id].status) }

  /** The cut that keeps unfinished jobs only. */
  lemma KeepUnfinished(log: seq<Job>) returns (kept: seq<Job>)
    ensures CutOf(log, kept) && forall j :: j in kept ==> !Terminal(j.status)
  {
    kept := ListJobs(Latest(log), Open(log));
  }

  /** A checkpoint of its own up to its cut, beside those in progress. */
  lemma SavedCheckpoint(f: Preparation, c: Codec, turns: seq<Turn>, j: nat) returns (longer: seq<Turn>)
    requires ManyLegal(f, c, turns) && AllCareful(f, c, turns) && ManyAfter(f, c, turns).sys.mode.Up?
    requires j !in ManyAfter(f, c, turns).slots
    ensures turns <= longer && ManyLegal(f, c, longer) && AllCareful(f, c, longer)
    ensures longer == turns + [Locate(j), Copy(j), Write(j)]
    ensures var m := ManyAfter(f, c, turns);
      ManyAfter(f, c, longer) ==
      Many(m.sys.(checkpoint := m.sys.backend), m.slots[j := Replaced(LogBytes(c, m.sys.log))], |m.sys.log|)
  {
    hide ManyLegal, ManyAfter, AllCareful, CutOf, ShiftAll, LogBytes;
    var m := ManyAfter(f, c, turns);
    ManyExtend(f, c, turns, Locate(j));
    ManyExtend(f, c, turns + [Locate(j)], Copy(j));
    ManyExtend(f, c, turns + [Locate(j)] + [Copy(j)], Write(j));
    longer := turns + [Locate(j)] + [Copy(j)] + [Write(j)];
    assert longer == turns + [Locate(j), Copy(j), Write(j)];
    assert ManyAfter(f, c, longer).slots == m.slots[j := Replaced(LogBytes(c, m.sys.log))];
  }

  /** A whole checkpoint of its own, beside those in progress. */
  lemma WholeCheckpoint(f: Preparation, c: Codec, turns: seq<Turn>, j: nat, kept: seq<Job>) returns (longer: seq<Turn>)
    requires ManyLegal(f, c, turns) && AllCareful(f, c, turns) && ManyAfter(f, c, turns).sys.mode.Up?
    requires j !in ManyAfter(f, c, turns).slots && CutOf(ManyAfter(f, c, turns).sys.log, kept)
    ensures turns <= longer && ManyLegal(f, c, longer) && AllCareful(f, c, longer)
    ensures var m := ManyAfter(f, c, turns);
      ManyAfter(f, c, longer) ==
      Many(m.sys.(checkpoint := m.sys.backend, log := kept), ShiftAll(m.slots, |m.sys.log|, |kept|), |kept|)
  {
    hide ManyLegal, ManyAfter, AllCareful, CutOf, ShiftAll, LogBytes;
    var m := ManyAfter(f, c, turns);
    longer := SavedCheckpoint(f, c, turns, j);
    var n := |m.sys.log|;
    assert m.sys.log[..n] == m.sys.log && kept + m.sys.log[n..] == kept;
    assert m.slots[j := Replaced(LogBytes(c, m.sys.log))] - {j} == m.slots;
    ManyExtend(f, c, longer, Cut(j, n, kept));
    longer := longer + [Cut(j, n, kept)];
  }

  /** A checkpoint that has replaced the file can cut exactly when its position is a frame boundary of the present log. */
  lemma CutPossibleIff(f: Preparation, c: Codec, m: Many, i: nat)
    requires m.sys.mode.Up? && i in m.slots && m.slots[i].Replaced?
    ensures (exists at, kept :: Possible(f, c, m, Cut(i, at, kept))) <==> JobStore.Boundary(c, m.sys.log, m.slots[i].position)
  {
    hide CutOf;
    if JobStore.Boundary(c, m.sys.log, m.slots[i].position) {
      var at :| 0 <= at <= |m.sys.log| && m.slots[i].position == |Log(c, m.sys.log[..at])|;
      var kept := KeepUnfinished(m.sys.log[..at]);
      assert Possible(f, c, m, Cut(i, at, kept));
    }
  }

  // ------------------------------------------------- documents that nobody has heard of

  /** A job number and a document. */
  datatype Name = Name(id: JobId, document: DocKey)

  /** Neither is in use. */
  predicate Unheard(s: Sys, n: Name) {
    n.id !in s.co.jobs && n.document != "" && n.document !in s.co.latestRevision && n.document !in s.backend.revisions
  }

  predicate AllUnheard(s: Sys, names: seq<Name>) {
    (forall n :: n in names ==> Unheard(s, n)) && Distinct(names)
  }

  predicate Distinct(names: seq<Name>) { forall i, j :: 0 <= i < j < |names| ==> Differ(names[i], names[j]) }

  predicate Differ(a: Name, b: Name) { a.id != b.id && a.document != b.document }

  /** The records of the deletion of such a document, and of several. */
  function Erasing(n: Name): seq<Job> { Removals(n.id, n.document, 1) + [Deleted(n.id, n.document, 1)] }

  function Erasings(names: seq<Name>): seq<Job> {
    if names == [] then [] else Erasing(names[0]) + Erasings(names[1..])
  }

  function Erased(n: Name): Mutation { Mutation(n.document, 1, Gone) }

  lemma JobFactsOf(f: Preparation, s: Sys)
    requires Inv(f, s) && s.mode.Up? && s.co.admitting.None?
    ensures KeyedById(s.co.jobs) && OneJobPerSlot(s.co.jobs) && Unfinished(s.co.jobs, s.co.latestRevision, {})
    ensures IsLatestIndex(s.co.jobs, s.co.latestRevision, s.co.latestJob)
  {
    hide LogKnown, Final, Durable, Threads, Live, OneJobPerSlot, IsLatestIndex, RecordOk;
  }

  lemma UnheardFacts(f: Preparation, s: Sys, n: Name)
    requires Inv(f, s) && s.mode.Up? && s.co.admitting.None? && Unheard(s, n)
    ensures CanDelete(s, n.id, n.document) && NextRevision(s, n.document) == 1 && Displaced(s.co, n.document).None?
    ensures n.document !in s.backend.documents
  {
    JobFactsOf(f, s);
    BackendOk(f, s);
    hide Inv, KeyedById, OneJobPerSlot, Unfinished;
  }

  lemma BackendOk(f: Preparation, s: Sys)
    requires Inv(f, s) && s.mode.Up?
    ensures CatalogOk(s.backend)
  {
    hide KnownOk, LogKnown, Final, Durable, Threads, IsLatestIndex, Unfinished, Secured;
  }

  /** What one more deletion leaves unheard. */
  ghost predicate HearsOnly(s: Sys, s': Sys, n: Name) {
    forall k :: Unheard(s, k) && Differ(k, n) ==> Unheard(s', k)
  }

  /** Steps that change nothing but the system, beside the checkpoints in progress. */
  predicate Alongside(m: Many, m': Many) {
    m' == m.(sys := m'.sys) && m'.sys.mode.Up? && m'.sys.co.admitting.None? && m'.sys.checkpoint == m.sys.checkpoint &&
    m.sys.acked <= m'.sys.acked
  }

  /** The deletion of a document nobody has heard of, acknowledged while checkpoints are in progress. */
  lemma DeleteOne(f: Preparation, c: Codec, turns: seq<Turn>, n: Name) returns (longer: seq<Turn>)
    requires ManyLegal(f, c, turns) && AllCareful(f, c, turns)
    requires ManyAfter(f, c, turns).sys.mode.Up? && ManyAfter(f, c, turns).sys.co.admitting.None?
    requires Unheard(ManyAfter(f, c, turns).sys, n)
    ensures turns <= longer && ManyLegal(f, c, longer) && AllCareful(f, c, longer)
    ensures var m, m' := ManyAfter(f, c, turns), ManyAfter(f, c, longer);
      Alongside(m, m') && m'.sys.log == m.sys.log + Erasing(n) && Erased(n) in m'.sys.acked && HearsOnly(m.sys, m'.sys, n)
  {
    hide ManyLegal, ManyAfter, AllCareful, Inv, Legal, After;
    var m := ManyAfter(f, c, turns);
    OverlapsKeepInv(f, c, turns);
    UnheardFacts(f, m.sys, n);
    var events, last := DeletionRuns(f, m.sys, n.id, n.document);
    ManyPlain(f, c, turns, events);
    longer := turns + Lift(events);
    assert WithoutDisplaced(m.sys.co, n.document, 0) == m.sys.co.jobs;
  }

  lemma {:induction false} DeleteAll(f: Preparation, c: Codec, turns: seq<Turn>, names: seq<Name>) returns (longer: seq<Turn>)
    requires ManyLegal(f, c, turns) && AllCareful(f, c, turns)
    requires ManyAfter(f, c, turns).sys.mode.Up? && ManyAfter(f, c, turns).sys.co.admitting.None?
    requires AllUnheard(ManyAfter(f, c, turns).sys, names)
    ensures turns <= longer && ManyLegal(f, c, longer) && AllCareful(f, c, longer)
    ensures var m, m' := ManyAfter(f, c, turns), ManyAfter(f, c, longer);
      Alongside(m, m') && m'.sys.log == m.sys.log + Erasings(names) && forall n :: n in names ==> Erased(n) in m'.sys.acked
    ensures forall k :: Unheard(ManyAfter(f, c, turns).sys, k) && (forall n :: n in names ==> Differ(k, n)) ==>
      Unheard(ManyAfter(f, c, longer).sys, k)
    decreases |names|
  {
    hide ManyLegal, ManyAfter, AllCareful, Unheard, Erasing, Differ;
    longer := turns;
    if names != [] {
      longer := DeleteOne(f, c, turns, names[0]);
      DiffersFrom(names);
      longer := DeleteAll(f, c, longer, names[1..]);
    }
  }

  lemma DiffersFrom(names: seq<Name>)
    requires names != [] && Distinct(names)
    ensures (forall n :: n in names[1..] ==> Differ(n, names[0])) && Distinct(names[1..])
  {
  }

  // -------------------------------------------------------------------- a copy in hand

  /** The mutation is acknowledged, and neither in the file nor in the log. */
  predicate Lost(s: Sys, m: Mutation) { m in s.acked && !Covers(s.checkpoint, m) && !Logged(s.log, m) }

  /** The run goes on, careful to its last step, which loses the mutation. */
  ghost predicate LosesBy(f: Preparation, c: Codec, turns: seq<Turn>, longer: seq<Turn>, t: Turn, lost: Mutation) {
    turns <= longer && ManyLegal(f, c, longer) && AllCareful(f, c, longer) &&
    var m := ManyAfter(f, c, longer); Possible(f, c, m, t) && !Careful(m, t) && Lost(Step(f, c, m, t).sys, lost)
  }

  /** A document nobody has heard of, and its deletion. */
  lemma RemoveUnheard(f: Preparation, c: Codec, turns: seq<Turn>, known: set<DocKey>) returns (longer: seq<Turn>, n: Name)
    requires ManyLegal(f, c, turns) && AllCareful(f, c, turns)
    requires ManyAfter(f, c, turns).sys.mode.Up? && ManyAfter(f, c, turns).sys.co.admitting.None?
    ensures turns <= longer && ManyLegal(f, c, longer) && AllCareful(f, c, longer) && n.document !in known
    ensures var m, m' := ManyAfter(f, c, turns), ManyAfter(f, c, longer);
      Alongside(m, m') && m'.sys.log == m.sys.log + Erasing(n) && Erased(n) in m'.sys.acked
  {
    hide ManyLegal, ManyAfter, AllCareful;
    var s := ManyAfter(f, c, turns).sys;
    var d := UnusedName(known + s.backend.revisions.Keys + s.co.latestRevision.Keys);
    var id := UnusedName(s.co.jobs.Keys);
    n := Name(id, d);
    longer := DeleteOne(f, c, turns, n);
  }

  /** From every careful state in which a checkpoint holds a copy, the run can go on, careful to its last step, so that
      writing that copy loses an acknowledged mutation. */
  lemma CopyCanLose(f: Preparation, c: Codec, turns: seq<Turn>, i: nat) returns (longer: seq<Turn>, lost: Mutation)
    requires ManyLegal(f, c, turns) && AllCareful(f, c, turns)
    requires i in ManyAfter(f, c, turns).slots && ManyAfter(f, c, turns).slots[i].Holding?
    ensures LosesBy(f, c, turns, longer, Write(i), lost)
    ensures ManyAfter(f, c, longer).slots[i].copy == ManyAfter(f, c, turns).slots[i].copy
  {
    hide ManyLegal, ManyAfter, AllCareful, Inv, SlotsOk, MadeUp, ShiftAll, CutOf;
    OverlapsKeepInv(f, c, turns);
    var copy := ManyAfter(f, c, turns).slots[i].copy;
    var t1 := FinishAdmitting(f, c, turns);
    var m1 := ManyAfter(f, c, t1);
    OverlapsKeepInv(f, c, t1);
    var t2, n := RemoveUnheard(f, c, t1, copy.revisions.Keys);
    var m2 := ManyAfter(f, c, t2);
    var j := UnusedNumber(m2.slots.Keys);
    var kept := KeepUnfinished(m2.sys.log);
    longer := WholeCheckpoint(f, c, t2, j, kept);
    SlotPassedOver(m1, i, |m2.sys.log|, |kept|);
    lost := Erased(n);
  }

  /** A cut past everything there was passes over every copy taken before. */
  lemma SlotPassedOver(m: Many, i: nat, at: nat, kept: nat)
    requires SlotsOk(m.sys.log, m.sys.acked, m.slots) && i in m.slots && m.slots[i].Holding? && at > |m.sys.log|
    ensures var slots := ShiftAll(m.slots, at, kept);
      i in slots && slots[i].Holding? && slots[i].held.None? && slots[i].copy == m.slots[i].copy
  {
    assert SlotOk(m.sys.log, m.sys.acked, m.slots[i]);
    hide Secured, CatalogOk;
  }

  // ------------------------------------------------------------------- a cut to come

  predicate NotAbout(log: seq<Job>, n: nat, d: DocKey) { forall k :: n <= k < |log| ==> log[k].input.document != d }

  /** The mutation has its ready record before the position, and the cut keeps unfinished jobs only. */
  lemma CutDrops(log: seq<Job>, at: nat, kept: seq<Job>, lost: Mutation)
    requires at <= |log| && (forall j :: j in kept ==> !Terminal(j.status)) && NotAbout(log, at, lost.doc)
    ensures !Logged(kept + log[at..], lost)
  {
    forall j | j in kept + log[at..] && j.status == Ready
      ensures MutationOf(j) != lost
    {
      var x :| 0 <= x < |log[at..]| && log[at..][x] == j;
      assert log[at + x] == j;
    }
  }

  lemma {:induction false} ErasingsAbout(names: seq<Name>, d: DocKey)
    requires forall n :: n in names ==> n.document != d
    ensures forall j :: j in Erasings(names) ==> j.input.document != d
  {
    if names != [] {
      ErasingsAbout(names[1..], d);
    }
  }

  /** A position can be met again: another checkpoint starts and ends while the first of some documents is being deleted,
      and keeps unfinished jobs only; then that deletion and those of the other documents run to their end, and the position
      is the end of one of the records that follow those kept. */
  predicate Met(c: Codec, s: Sys, names: seq<Name>, kept: seq<Job>, at: nat, position: nat) {
    names != [] && AllUnheard(s, names) && (forall j :: j in kept ==> !Terminal(j.status)) &&
    CutOf(s.log + Removals(names[0].id, names[0].document, 1), kept) &&
    |kept| < at && EndsAt(c, kept + Erasings(names)[2..], at, position)
  }

  /** The run is legal and careful so far, no admission is in progress, and a checkpoint that has replaced the file is to cut
      at this position. */
  ghost predicate ToCut(f: Preparation, c: Codec, turns: seq<Turn>, i: nat, position: nat) {
    ManyLegal(f, c, turns) && AllCareful(f, c, turns) &&
    var m := ManyAfter(f, c, turns);
    m.sys.mode.Up? && m.sys.co.admitting.None? && i in m.slots && m.slots[i] == Replaced(position)
  }

  /** From every careful state in which a checkpoint is to cut at a position that can be met again, the run can go on, careful
      to its last step, so that the cut loses an acknowledged mutation. */
  lemma CutCanLose(f: Preparation, c: Codec, turns: seq<Turn>, i: nat, position: nat, names: seq<Name>, kept: seq<Job>, at: nat)
    returns (longer: seq<Turn>, rest: seq<Job>)
    requires ToCut(f, c, turns, i, position) && Met(c, ManyAfter(f, c, turns).sys, names, kept, at, position)
    ensures LosesBy(f, c, turns, longer, Cut(i, at, rest), Erased(names[0])) && ToCut(f, c, longer, i, position)
  {
    hide ManyLegal, ManyAfter, AllCareful, CutOf, Covers, Logged, NotAbout, EndsAt, Unheard, Erasings, Latest;
    longer := MeetAgain(f, c, turns, names, kept);
    var log := ManyAfter(f, c, longer).sys.log;
    assert at <= |log| by { BoundaryWithin(c, log, at, position); }
    rest := KeepUnfinished(log[..at]);
    NotAboutFrom(log, |kept| + 1, at, names[0].document);
    CutDrops(log, at, rest, Erased(names[0]));
  }

  lemma BoundaryWithin(c: Codec, log: seq<Job>, at: nat, position: nat)
    requires EndsAt(c, log, at, position)
    ensures at <= |log|
  {
  }

  lemma NotAboutFrom(log: seq<Job>, n: nat, m: nat, d: DocKey)
    requires NotAbout(log, n, d) && n <= m
    ensures NotAbout(log, m, d)
  {
  }

  lemma FirstUnheard(s: Sys, names: seq<Name>)
    requires names != [] && AllUnheard(s, names)
    ensures Unheard(s, names[0])
  {
  }

  lemma RestUnheard(s: Sys, s': Sys, names: seq<Name>)
    requires names != [] && AllUnheard(s, names) && HearsOnly(s, s', names[0])
    ensures AllUnheard(s', names[1..])
  {
    hide Unheard, Differ;
    DiffersFrom(names);
  }

  lemma OthersApart(s: Sys, names: seq<Name>)
    requires names != [] && AllUnheard(s, names)
    ensures forall n :: n in names[1..] ==> n.document != names[0].document
  {
    hide Unheard;
    DiffersFrom(names);
  }

  lemma LastOfFirst(names: seq<Name>)
    requires names != []
    ensures Erasings(names)[2..] == [Deleted(names[0].id, names[0].document, 1)] + Erasings(names[1..])
  {
  }

  /** The run up to the cut. */
  lemma MeetAgain(f: Preparation, c: Codec, turns: seq<Turn>, names: seq<Name>, kept: seq<Job>) returns (longer: seq<Turn>)
    requires ManyLegal(f, c, turns) && AllCareful(f, c, turns)
    requires ManyAfter(f, c, turns).sys.mode.Up? && ManyAfter(f, c, turns).sys.co.admitting.None?
    requires names != [] && AllUnheard(ManyAfter(f, c, turns).sys, names)
    requires CutOf(ManyAfter(f, c, turns).sys.log + Removals(names[0].id, names[0].document, 1), kept)
    ensures turns <= longer && ManyLegal(f, c, longer) && AllCareful(f, c, longer)
    ensures var m, m' := ManyAfter(f, c, turns), ManyAfter(f, c, longer);
      m'.sys.mode.Up? && m'.sys.co.admitting.None? && m'.held == |kept| && m'.sys.log == kept + Erasings(names)[2..] &&
      NotAbout(m'.sys.log, |kept| + 1, names[0].document) &&
      Erased(names[0]) in m'.sys.acked && !Covers(m'.sys.checkpoint, Erased(names[0])) &&
      forall k :: k in m.slots && m.slots[k].Replaced? ==> k in m'.slots && m'.slots[k] == m.slots[k]
  {
    hide ManyLegal, ManyAfter, AllCareful, CutOf, Covers, NotAbout, AllUnheard, HearsOnly, Erasings, Deleted, Removals, Latest;
    var s, n, last := ManyAfter(f, c, turns).sys, names[0], [Deleted(names[0].id, names[0].document, 1)];
    FirstUnheard(s, names);
    longer := PausedCheckpoint(f, c, turns, n, kept);
    RestUnheard(s, ManyAfter(f, c, longer).sys, names);
    longer := DeleteAll(f, c, longer, names[1..]);
    LastOfFirst(names);
    assert kept + (last + Erasings(names[1..])) == kept + last + Erasings(names[1..]);
    OthersApart(s, names);
    ErasingsAbout(names[1..], n.document);
    AboutOthers(kept + last, Erasings(names[1..]), |kept| + 1, n.document);
  }

  lemma AboutOthers(before: seq<Job>, after: seq<Job>, at: nat, d: DocKey)
    requires |before| <= at && forall j :: j in after ==> j.input.document != d
    ensures NotAbout(before + after, at, d)
  {
    forall k | at <= k < |before + after|
      ensures (before + after)[k].input.document != d
    {
      assert (before + after)[k] == after[k - |before|];
    }
  }

  /** A whole checkpoint between the start of a deletion and its effect, and then the rest of the deletion: of its last two
      records the file makes up for the first only. */
  lemma PausedCheckpoint(f: Preparation, c: Codec, turns: seq<Turn>, n: Name, kept: seq<Job>) returns (longer: seq<Turn>)
    requires ManyLegal(f, c, turns) && AllCareful(f, c, turns)
    requires ManyAfter(f, c, turns).sys.mode.Up? && ManyAfter(f, c, turns).sys.co.admitting.None?
    requires Unheard(ManyAfter(f, c, turns).sys, n)
    requires CutOf(ManyAfter(f, c, turns).sys.log + Removals(n.id, n.document, 1), kept)
    ensures turns <= longer && ManyLegal(f, c, longer) && AllCareful(f, c, longer)
    ensures var m, m' := ManyAfter(f, c, turns), ManyAfter(f, c, longer);
      m'.sys.mode.Up? && m'.sys.co.admitting.None? && m'.held == |kept| && m'.sys.log == kept + [Deleted(n.id, n.document, 1)] &&
      Erased(n) in m'.sys.acked && !Covers(m'.sys.checkpoint, Erased(n)) && HearsOnly(m.sys, m'.sys, n) &&
      forall k :: k in m.slots && m.slots[k].Replaced? ==> k in m'.slots && m'.slots[k] == m.slots[k]
  {
    hide ManyLegal, ManyAfter, AllCareful, Inv, Legal, After, CutOf, AtBackend, Ended, IsAtBackend;
    var m := ManyAfter(f, c, turns);
    var id, d := n.id, n.document;
    OverlapsKeepInv(f, c, turns);
    UnheardFacts(f, m.sys, n);
    var first := ReachBackend(f, m.sys, id, d);
    ManyPlain(f, c, turns, first);
    longer := turns + Lift(first);
    var t := ManyAfter(f, c, longer).sys;
    ReachedBackend(m.sys, t, id, d);
    var j := UnusedNumber(m.slots.Keys);
    longer := WholeCheckpoint(f, c, longer, j, kept);
    var u := ManyAfter(f, c, longer).sys;
    SameJobAtBackend(t, u, id, d, 1);
    var second, last := FinishDeletion(f, u, id, d, 1);
    EndedKeeps(u, After(f, u, second), id, d, last);
    ManyPlain(f, c, longer, second);
    longer := longer + Lift(second);
    assert !Covers(m.sys.backend, Erased(n));
  }

  /** A deletion of a document nobody has heard of has reached the backend. */
  lemma ReachedBackend(s: Sys, t: Sys, id: JobId, d: DocKey)
    requires AtBackend(s, t, id, d) && s.mode.Up? && Displaced(s.co, d).None? && NextRevision(s, d) == 1
    ensures t.mode == s.mode && t.backend == s.backend && t.acked == s.acked && t.log == s.log + Removals(id, d, 1)
    ensures t.co.jobs.Keys == s.co.jobs.Keys + {id} && t.co.latestRevision == s.co.latestRevision[d := 1]
    ensures IsAtBackend(t, id, d, 1)
  {
  }

  lemma SameJobAtBackend(t: Sys, u: Sys, id: JobId, d: DocKey, r: nat)
    requires IsAtBackend(t, id, d, r) && u == t.(checkpoint := u.checkpoint, log := u.log)
    ensures IsAtBackend(u, id, d, r)
  {
  }

  lemma EndedKeeps(t: Sys, u: Sys, id: JobId, d: DocKey, last: Job)
    requires Ended(t, u, id, d, last)
    ensures u.mode == t.mode && u.checkpoint == t.checkpoint && u.log == t.log + [last] && u.co == t.co.(jobs := t.co.jobs[id := last])
  {
  }

  /** A cut that drops one record at most loses nothing, careful or not. */
  lemma ShortCutKeeps(f: Preparation, c: Codec, turns: seq<Turn>, i: nat, at: nat, kept: seq<Job>, m: Mutation)
    requires ManyLegal(f, c, turns) && AllCareful(f, c, turns) && Possible(f, c, ManyAfter(f, c, turns), Cut(i, at, kept))
    requires at < 2
    ensures !Lost(Step(f, c, ManyAfter(f, c, turns), Cut(i, at, kept)).sys, m)
  {
    hide ManyLegal, ManyAfter, AllCareful, Inv, SlotsOk, MadeUp, CutOf, Secured, Covers, Logged, TracksJobs, SlotsPreceded;
    var w := ManyAfter(f, c, turns);
    OverlapsKeepInv(f, c, turns);
    if at <= w.held {
      CutStepKeeps(f, c, w, i, at, kept);
      InvSecures(f, Step(f, c, w, Cut(i, at, kept)).sys, m);
    } else {
      OverlapsTrack(f, c, turns);
      assert w.held == 0 && at == 1;
      FirstIsOpen(w.sys.log, kept);
      InvSecures(f, w.sys, m);
    }
  }

  /** Nothing is lost in a state that keeps the invariant. */
  lemma InvSecures(f: Preparation, s: Sys, m: Mutation)
    requires Inv(f, s)
    ensures !Lost(s, m)
  {
    hide KnownOk, LogKnown, Final, Running, Covers, Logged;
  }

  /** A log whose first record has nothing before it begins with an unfinished job, which a cut keeps. */
  lemma FirstIsOpen(log: seq<Job>, kept: seq<Job>)
    requires log != [] && Preceded(log, 0) && CutOf(log[..1], kept)
    ensures kept + log[1..] == log
  {
    assert !Terminal(log[0].status);
    assert log[..1] == [log[0]];
    LatestAppend([], log[0]);
    assert [] + [log[0]] == [log[0]];
    assert Latest([log[0]]) == map[log[0].id := log[0]];
    hide Latest;
    assert log[0] in kept;
    assert forall a :: 0 <= a < |kept| ==> kept[a] == log[0];
    assert |kept| > 1 ==> kept[0].id != kept[1].id;
    assert kept == [log[0]] && [log[0]] + log[1..] == log;
  }
}
