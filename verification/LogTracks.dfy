/** What the log says of the jobs while checkpoints come and go: its last record of a job is the job as it stands, no
    unfinished job is missing, and the record that ends a job is preceded by another one of it, unless a cut kept it. */
module LogTracks {
  import opened Wrappers
  import opened Documents
  import opened Validation
  import opened Jobs
  import opened JobLog
  import opened Ingestion
  import opened IngestionSafety
  import opened IngestionTheorems
  import opened OverlappingCheckpoints
  import JobStore

  predicate TracksJobs(log: seq<Job>, known: JobMap) {
    (forall id :: id in Latest(log) ==> id in known && Latest(log)[id] == known[id]) &&
    (forall id :: id in known && !Terminal(known[id].status) ==> id in Latest(log))
  }

  predicate Tracks(s: Sys) { TracksJobs(s.log, Known(s)) }

  /** From index `from` on, the record that ends a job is preceded by another one of the job. */
  predicate Preceded(log: seq<Job>, from: nat) {
    forall k :: from <= k < |log| && Terminal(log[k].status) ==> Before(log, k)
  }

  predicate Before(log: seq<Job>, k: nat)
    requires k < |log|
  {
    exists e :: 0 <= e < k && log[e].id == log[k].id
  }

  // ------------------------------------------------------------- one record at a time

  predicate RecordedAs(known: JobMap, known': JobMap, j: Job) {
    known' == known[j.id := j] && (Terminal(j.status) ==> j.id in known && !Terminal(known[j.id].status))
  }

  /** Every change of a job is logged. */
  predicate Records(s: Sys, s': Sys) {
    (s'.log == s.log && Known(s') == Known(s)) ||
    (s'.log != [] && s'.log == s.log + [s'.log[|s'.log| - 1]] && RecordedAs(Known(s), Known(s'), s'.log[|s'.log| - 1]))
  }

  lemma TransitionRecords(f: Preparation, s: Sys, id: JobId, status: Status, error: Option<Errc>,
                          prepared: Option<PreparedDocument>, applied: Option<bool>, now: int)
    requires Inv(f, s) && s.mode.Up? && s.co.admitting.None?
    ensures var s' := Transition(s, id, status, error, prepared, applied, now).0;
      Records(s, s') && s'.mode.Up? && s'.co.admitting.None?
  {
    hide LogKnown, Final, Durable, Threads, IsLatestIndex, Live, Unfinished, OneJobPerSlot, RecordOk, Advanced, Retired;
    if id in s.co.jobs {
      assert Known(s)[id].id == id;
      AdvancedSame(s.co.jobs[id], status, error, prepared, applied, now);
    }
  }

  lemma RunRecords(f: Preparation, s: Sys, id: JobId, outcome: Outcome, now: int)
    requires Inv(f, s) && s.mode.Up? && s.co.admitting.None? && id in s.exec
    ensures Records(s, Execute(s, id, outcome, now))
  {
    hide Inv, Transition, Activate, Erase, PassedOver, Records;
    var s' := Execute(s, id, outcome, now);
    match s.exec[id]
    case EnterChunking => TransitionLeads(f, s, id, Chunking, None, None, None, now, s');
    case EnterEmbedding(_) => TransitionLeads(f, s, id, Embedding, None, None, None, now, s');
    case EnterPublishing(p) => TransitionLeads(f, s, id, Publishing, None, Some(p), None, now, s');
    case EnterReady(p) => TransitionLeads(f, s, id, Ready, None, Some(p), None, now, s');
    case EnterErasing => TransitionLeads(f, s, id, Publishing, None, None, None, now, s');
    case EnterErased(a) => TransitionLeads(f, s, id, Ready, None, None, Some(a), now, s');
    case EnterFailed(error) => TransitionLeads(f, s, id, Failed, Some(error), None, None, now, s');
    case _ => NothingRecorded(s, s');
  }

  lemma NothingRecorded(s: Sys, s': Sys)
    requires s'.log == s.log && s'.mode == s.mode && s'.co == s.co
    ensures Records(s, s')
  {
  }

  lemma TransitionLeads(f: Preparation, s: Sys, id: JobId, status: Status, error: Option<Errc>,
                        prepared: Option<PreparedDocument>, applied: Option<bool>, now: int, s': Sys)
    requires Inv(f, s) && s.mode.Up? && s.co.admitting.None?
    requires s' == Transition(s, id, status, error, prepared, applied, now).0.(exec := s'.exec)
    ensures Records(s, s')
  {
    hide Inv, Transition;
    TransitionRecords(f, s, id, status, error, prepared, applied, now);
  }

  lemma AdmittedRecords(f: Preparation, s: Sys, asynchronous: bool, now: int)
    requires Inv(f, s) && s.mode.Up? && s.co.admitting.Some?
    ensures Records(s, FinishAdmission(s, asynchronous, now))
  {
    hide KnownOk, LogKnown, Final, Durable, Threads, IsLatestIndex, Live, Unfinished, Retired;
    DisplacedKeyed(f, s);
    var older := Displaced(s.co, s.co.admitting.value.input.document);
    if older.Some? {
      RetiredIs(older.value, now);
    }
  }

  lemma RetiredIs(j: Job, now: int)
    ensures Retired(j, now).id == j.id && Terminal(Retired(j, now).status)
  {
  }

  lemma RecoverRecords(f: Preparation, s: Sys, id: JobId, now: int)
    requires Inv(f, s) && s.mode.Recovering? && id in s.mode.pending && id in s.co.jobs
    ensures Records(s, RecoverOne(s, id, now))
  {
    hide LogKnown, Final, Durable, Threads, IsLatestIndex, Live, OneJobPerSlot, RecordOk;
  }

  lemma PlainRecords(f: Preparation, s: Sys, e: Event)
    requires Inv(f, s) && Plain(e) && !e.Crash? && Enabled(f, s, e)
    ensures Records(s, Apply(f, s, e))
  {
    hide Inv, Execute, FinishAdmission, RecoverOne, ReplayList, Replay, IsLatestIndex, Latest, RunEnabled, Answered, BaseAt,
         RecordedAs;
    match e
    case Run(id, outcome, now) =>
      RunEnabledRuns(f, s, id, outcome);
      RunRecords(f, s, id, outcome, now);
    case Admit(_, _, _, _) => AdmitRecords(f, s, e);
    case Admitted(asynchronous, now) => AdmittedRecords(f, s, asynchronous, now);
    case RecoverJob(id, now) => RecoverRecords(f, s, id, now);
    case _ =>
  }

  lemma AdmitRecords(f: Preparation, s: Sys, e: Event)
    requires e.Admit? && Enabled(f, s, e)
    ensures Records(s, Apply(f, s, e))
  {
    hide Answered;
  }

  lemma TracksAppend(log: seq<Job>, known: JobMap, known': JobMap, j: Job)
    requires TracksJobs(log, known) && RecordedAs(known, known', j)
    ensures TracksJobs(log + [j], known')
  {
    LatestAppend(log, j);
    hide Latest;
  }

  lemma PrecededAppend(log: seq<Job>, known: JobMap, known': JobMap, j: Job, from: nat)
    requires TracksJobs(log, known) && RecordedAs(known, known', j) && Preceded(log, from)
    ensures Preceded(log + [j], from)
  {
    hide Latest;
    var log' := log + [j];
    forall k | from <= k < |log'| && Terminal(log'[k].status)
      ensures Before(log', k)
    {
      if k < |log| {
        assert Before(log, k);
        var e :| 0 <= e < k && log[e].id == log[k].id;
        assert log'[e].id == log'[k].id;
      } else {
        var r := Latest(log)[j.id];
        assert r in log;
        var e :| 0 <= e < |log| && log[e] == r;
        assert log'[e].id == log'[k].id;
      }
    }
  }

  // ---------------------------------------------------------------------------- cuts

  lemma TracksCut(prefix: seq<Job>, tail: seq<Job>, kept: seq<Job>, known: JobMap)
    requires CutOf(prefix, kept) && TracksJobs(prefix + tail, known)
    ensures TracksJobs(kept + tail, known)
  {
    hide CutOf, Latest;
    forall id
      ensures id in Latest(kept + tail) ==> id in known && Latest(kept + tail)[id] == known[id]
      ensures id in known && !Terminal(known[id].status) ==> id in Latest(kept + tail)
    {
      JobStore.CutPreserves(prefix, kept, tail, id);
      if id in Latest(prefix + tail) && id !in Latest(kept + tail) {
        JobStore.LatestConcat(prefix, tail);
        assert Latest(tail).Keys !! {id};
      }
    }
  }

  /** A cut that does not go past an index leaves what follows it preceded. */
  lemma PrecededCut(log: seq<Job>, at: nat, kept: seq<Job>, from: nat)
    requires Final(log) && at <= from <= |log| && CutOf(log[..at], kept) && Preceded(log, from)
    ensures Preceded(kept + log[at..], from - at + |kept|)
  {
    hide Final, Latest, CutOf;
    var log' := kept + log[at..];
    forall k' | from - at + |kept| <= k' < |log'| && Terminal(log'[k'].status)
      ensures Before(log', k')
    {
      var k := k' - |kept| + at;
      assert log'[k'] == log[k] && Before(log, k);
      var e :| 0 <= e < k && log[e].id == log[k].id;
      if e >= at {
        assert log'[e - at + |kept|] == log[e];
      } else {
        var i := KeptFor(log, at, kept, e, k);
        assert log'[i] == kept[i];
      }
    }
  }

  lemma KeptFor(log: seq<Job>, at: nat, kept: seq<Job>, e: nat, k: nat) returns (i: nat)
    requires Final(log) && e < at <= k < |log| && CutOf(log[..at], kept) && log[e].id == log[k].id
    ensures i < |kept| && kept[i].id == log[k].id
  {
    var prefix := log[..at];
    assert prefix[e] == log[e] && prefix[e] in prefix;
    var r := Latest(prefix)[log[e].id];
    assert r in prefix;
    var x :| 0 <= x < at && log[x] == r;
    hide Latest;
    assert !Terminal(r.status);
    i :| 0 <= i < |kept| && kept[i] == r;
  }

  // ------------------------------------------------------------------- over whole runs

  predicate SlotsPreceded(log: seq<Job>, slots: Slots) {
    forall i :: i in slots && slots[i].Holding? && slots[i].held.Some? ==> Preceded(log, slots[i].held.value)
  }

  predicate SomeReplaced(slots: Slots) { exists i :: i in slots && slots[i].Replaced? }

  ghost predicate ManyTracks(m: Many) {
    Tracks(m.sys) && SlotsPreceded(m.sys.log, m.slots) && (SomeReplaced(m.slots) ==> Preceded(m.sys.log, m.held))
  }

  lemma SlotsAppend(log: seq<Job>, known: JobMap, known': JobMap, j: Job, slots: Slots)
    requires TracksJobs(log, known) && RecordedAs(known, known', j) && SlotsPreceded(log, slots)
    ensures SlotsPreceded(log + [j], slots)
  {
    hide TracksJobs, RecordedAs, Preceded;
    forall i | i in slots && slots[i].Holding? && slots[i].held.Some?
      ensures Preceded(log + [j], slots[i].held.value)
    {
      PrecededAppend(log, known, known', j, slots[i].held.value);
    }
  }

  lemma PlainTracks(f: Preparation, c: Codec, m: Many, e: Event)
    requires ManyInv(f, m) && ManyTracks(m) && Possible(f, c, m, Do(e)) && !e.Crash?
    ensures ManyTracks(Step(f, c, m, Do(e)))
  {
    hide Inv, MadeUp, SlotsOk, Enabled, Apply, Plain, TracksJobs, RecordedAs, Preceded, SlotsPreceded, Known;
    PlainRecords(f, m.sys, e);
    var s' := Apply(f, m.sys, e);
    if s'.log != m.sys.log || Known(s') != Known(m.sys) {
      var j := s'.log[|s'.log| - 1];
      TracksAppend(m.sys.log, Known(m.sys), Known(s'), j);
      SlotsAppend(m.sys.log, Known(m.sys), Known(s'), j, m.slots);
      if SomeReplaced(m.slots) {
        PrecededAppend(m.sys.log, Known(m.sys), Known(s'), j, m.held);
      }
    }
  }

  lemma CrashTracks(f: Preparation, c: Codec, m: Many)
    requires Possible(f, c, m, Do(Crash))
    ensures ManyTracks(Step(f, c, m, Do(Crash)))
  {
    hide Latest;
  }

  lemma CutTracks(f: Preparation, c: Codec, m: Many, i: nat, p: nat, kept: seq<Job>)
    requires ManyInv(f, m) && ManyTracks(m) && Possible(f, c, m, Cut(i, p, kept)) && Careful(m, Cut(i, p, kept))
    ensures ManyTracks(Step(f, c, m, Cut(i, p, kept)))
  {
    hide ManyInv, CutOf, TracksJobs, Preceded, SlotsPreceded, SomeReplaced, Final;
    var log := m.sys.log;
    FinalAndHeld(f, m);
    assert log[..p] + log[p..] == log;
    TracksCut(log[..p], log[p..], kept, Known(m.sys));
    PrecededCutReplaced(m, i);
    PrecededCut(log, p, kept, m.held);
    SlotsCut(f, c, m, i, p, kept);
  }

  lemma PrecededCutReplaced(m: Many, i: nat)
    requires i in m.slots && m.slots[i].Replaced?
    ensures SomeReplaced(m.slots)
  {
  }

  lemma SlotsCut(f: Preparation, c: Codec, m: Many, i: nat, p: nat, kept: seq<Job>)
    requires ManyInv(f, m) && SlotsPreceded(m.sys.log, m.slots) && Possible(f, c, m, Cut(i, p, kept))
    ensures SlotsPreceded(kept + m.sys.log[p..], ShiftAll(m.slots - {i}, p, |kept|))
  {
    hide ManyInv, CutOf, Preceded, Final;
    var log := m.sys.log;
    FinalAndHeld(f, m);
    forall k | k in m.slots && m.slots[k].Holding? && m.slots[k].held.Some? && p <= m.slots[k].held.value
      ensures Preceded(kept + log[p..], m.slots[k].held.value - p + |kept|)
    {
      HeldWithin(f, m, k);
      PrecededCut(log, p, kept, m.slots[k].held.value);
    }
  }

  lemma FinalAndHeld(f: Preparation, m: Many)
    requires ManyInv(f, m)
    ensures Final(m.sys.log) && m.held <= |m.sys.log|
  {
    hide KnownOk, LogKnown, Durable, Running, SlotsOk, Secured;
  }

  lemma HeldWithin(f: Preparation, m: Many, k: nat)
    requires ManyInv(f, m) && k in m.slots && m.slots[k].Holding? && m.slots[k].held.Some?
    ensures m.slots[k].held.value <= |m.sys.log|
  {
    hide Inv, Secured;
    assert SlotOk(m.sys.log, m.sys.acked, m.slots[k]);
  }

  lemma TurnTracks(f: Preparation, c: Codec, m: Many, t: Turn)
    requires ManyInv(f, m) && ManyTracks(m) && Possible(f, c, m, t) && Careful(m, t)
    ensures ManyTracks(Step(f, c, m, t))
  {
    match t {
      case Do(e) =>
        if e.Crash? {
          CrashTracks(f, c, m);
        } else {
          PlainTracks(f, c, m, e);
        }
      case Cut(i, at, kept) => CutTracks(f, c, m, i, at, kept);
      case _ => SlotTracks(f, c, m, t);
    }
  }

  lemma SlotTracks(f: Preparation, c: Codec, m: Many, t: Turn)
    requires ManyTracks(m) && Possible(f, c, m, t) && Careful(m, t) && !t.Do? && !t.Cut?
    ensures ManyTracks(Step(f, c, m, t))
  {
    hide TracksJobs, Before;
  }

  lemma {:induction false} OverlapsTrack(f: Preparation, c: Codec, turns: seq<Turn>)
    requires ManyLegal(f, c, turns) && AllCareful(f, c, turns)
    ensures ManyTracks(ManyAfter(f, c, turns))
  {
    if turns != [] {
      var n := |turns| - 1;
      OverlapsTrack(f, c, turns[..n]);
      OverlapsKeepInv(f, c, turns[..n]);
      hide ManyInv, ManyTracks, Possible, Careful, Step;
      TurnTracks(f, c, ManyAfter(f, c, turns[..n]), turns[n]);
    }
  }
}
