/** Any number of checkpoints in progress at once. Nothing in the checkpoint sequence itself excludes it: which
    interleavings keep every acknowledged mutation. */
module OverlappingCheckpoints {
  import opened Wrappers
  import Collections
  import opened Documents
  import opened Validation
  import opened Jobs
  import opened JobLog
  import opened Ingestion
  import opened IngestionSafety

  /** A checkpoint in progress: it has read its position in the log, in bytes, it holds a copy of the catalog, or it has replaced
      the file. `held` counts records of the present log that the copy makes up for: everything acknowledged is in the
      copy or has its ready record at that index or later; nothing is known once a cut has gone past it. */
  datatype Slot =
    | Located(position: nat)
    | Holding(position: nat, copy: Catalog, held: Option<nat>)
    | Replaced(position: nat)

  type Slots = map<nat, Slot>

  /** The system, its checkpoints in progress by number, and how many records of the log the file makes up for. */
  datatype Many = Many(sys: Sys, slots: Slots, held: nat)

  /** An event of the system, or a step of one checkpoint. A cut drops the first `at` records. */
  datatype Turn =
    | Do(event: Event)
    | Locate(slot: nat)
    | Copy(slot: nat)
    | Write(slot: nat)
    | Cut(slot: nat, at: nat, kept: seq<Job>)
    | Abandon(slot: nat)

  const Start := Many(Initial, map[], 0)

  /** The length of a log in bytes. */
  function LogBytes(c: Codec, log: seq<Job>): nat { |Log(c, log)| }

  predicate Plain(e: Event) {
    !e.CheckpointPosition? && !e.CheckpointCopy? && !e.CheckpointWrite? && !e.CheckpointCut? && !e.CheckpointAbort?
  }

  /** Where an index of the log ends up when the first `at` records are replaced by `kept` ones. */
  function Shift(held: nat, at: nat, kept: nat): Option<nat> {
    if at <= held then Some(held - at + kept) else None
  }

  function ShiftSlot(slot: Slot, at: nat, kept: nat): Slot {
    if slot.Holding? && slot.held.Some? then slot.(held := Shift(slot.held.value, at, kept)) else slot
  }

  function ShiftAll(slots: Slots, at: nat, kept: nat): Slots {
    map i | i in slots :: ShiftSlot(slots[i], at, kept)
  }

  function Value(held: Option<nat>): nat { if held.Some? then held.value else 0 }

  /** Whether a cut finds the boundary between two frames of the present log at the position it was given. */
  predicate EndsAt(c: Codec, log: seq<Job>, at: nat, position: nat) { at <= |log| && LogBytes(c, log[..at]) == position }

  ghost predicate Possible(f: Preparation, c: Codec, m: Many, t: Turn) {
    match t
    case Do(e) => Plain(e) && Enabled(f, m.sys, e)
    case Locate(i) => m.sys.mode.Up? && i !in m.slots
    case Copy(i) => m.sys.mode.Up? && i in m.slots && m.slots[i].Located?
    case Write(i) => m.sys.mode.Up? && i in m.slots && m.slots[i].Holding?
    case Cut(i, at, kept) =>
      m.sys.mode.Up? && i in m.slots && m.slots[i].Replaced? && EndsAt(c, m.sys.log, at, m.slots[i].position) &&
      CutOf(m.sys.log[..at], kept)
    case Abandon(i) => m.sys.mode.Up? && i in m.slots
  }

  /** The position of a checkpoint is used as it was read, whatever has been cut since: the records it then drops are those
      that end there in the present log. */
  ghost function Step(f: Preparation, c: Codec, m: Many, t: Turn): Many
    requires Possible(f, c, m, t)
  {
    match t
    case Do(e) => if e.Crash? then Many(Apply(f, m.sys, e), map[], 0) else m.(sys := Apply(f, m.sys, e))
    case Locate(i) => m.(slots := m.slots[i := Located(LogBytes(c, m.sys.log))])
    case Copy(i) => m.(slots := m.slots[i := Holding(m.slots[i].position, m.sys.backend, Some(|m.sys.log|))])
    case Write(i) =>
      Many(m.sys.(checkpoint := m.slots[i].copy), m.slots[i := Replaced(m.slots[i].position)], Value(m.slots[i].held))
    case Cut(i, at, kept) =>
      Many(m.sys.(log := kept + m.sys.log[at..]), ShiftAll(m.slots - {i}, at, |kept|), Value(Shift(m.held, at, |kept|)))
    case Abandon(i) => m.(slots := m.slots - {i})
  }

  /** No copy is written that a cut has gone past, and no cut goes past what the file makes up for. */
  predicate Careful(m: Many, t: Turn) {
    match t
    case Write(i) => i in m.slots && m.slots[i].Holding? ==> m.slots[i].held.Some?
    case Cut(_, at, _) => at <= m.held
    case _ => true
  }

  ghost predicate ManyLegal(f: Preparation, c: Codec, turns: seq<Turn>)
    decreases |turns|, 0
  {
    turns == [] ||
    (ManyLegal(f, c, turns[..|turns| - 1]) && Possible(f, c, ManyAfter(f, c, turns[..|turns| - 1]), turns[|turns| - 1]))
  }

  ghost function ManyAfter(f: Preparation, c: Codec, turns: seq<Turn>): Many
    requires ManyLegal(f, c, turns)
    decreases |turns|, 1
  {
    if turns == [] then Start else Step(f, c, ManyAfter(f, c, turns[..|turns| - 1]), turns[|turns| - 1])
  }

  ghost predicate AllCareful(f: Preparation, c: Codec, turns: seq<Turn>)
    requires ManyLegal(f, c, turns)
  {
    turns == [] ||
    (AllCareful(f, c, turns[..|turns| - 1]) && Careful(ManyAfter(f, c, turns[..|turns| - 1]), turns[|turns| - 1]))
  }

  // ------------------------------------------------------------- the invariant

  /** Everything acknowledged is in the catalog or has its ready record at index `held` or later. */
  predicate MadeUp(c: Catalog, log: seq<Job>, acked: set<Mutation>, held: nat) {
    held <= |log| && CatalogOk(c) && Secured(c, log[held..], acked)
  }

  predicate SlotOk(log: seq<Job>, acked: set<Mutation>, slot: Slot) {
    slot.Holding? && slot.held.Some? ==> MadeUp(slot.copy, log, acked, slot.held.value)
  }

  predicate SlotsOk(log: seq<Job>, acked: set<Mutation>, slots: Slots) { forall i :: i in slots ==> SlotOk(log, acked, slots[i]) }

  ghost predicate ManyInv(f: Preparation, m: Many) {
    Inv(f, m.sys) && m.sys.maintenance.Idle? && MadeUp(m.sys.checkpoint, m.sys.log, m.sys.acked, m.held) &&
    SlotsOk(m.sys.log, m.sys.acked, m.slots) && (m.slots != map[] ==> m.sys.mode.Up?)
  }

  // ------------------------------------------- steps that are no part of a checkpoint

  /** The log gains at most one record, and the record is acknowledged if it is a ready one. */
  predicate Appends(log: seq<Job>, acked: set<Mutation>, log': seq<Job>, acked': set<Mutation>) {
    (log' == log && acked' == acked) ||
    (log' != [] && log' == log + [log'[|log'| - 1]] && acked' == AckedBy(acked, log'[|log'| - 1]))
  }

  predicate Beside(s: Sys, s': Sys) {
    Appends(s.log, s.acked, s'.log, s'.acked) && s'.checkpoint == s.checkpoint && s'.maintenance == s.maintenance
  }

  lemma SameAppends(log: seq<Job>, acked: set<Mutation>)
    ensures Appends(log, acked, log, acked)
  {
  }

  lemma TransitionBeside(s: Sys, id: JobId, status: Status, error: Option<Errc>, prepared: Option<PreparedDocument>,
                         applied: Option<bool>, now: int)
    ensures Beside(s, Transition(s, id, status, error, prepared, applied, now).0)
    ensures Transition(s, id, status, error, prepared, applied, now).0.mode == s.mode
  {
  }

  lemma RunBeside(s: Sys, id: JobId, outcome: Outcome, now: int)
    requires id in s.exec
    ensures Beside(s, Execute(s, id, outcome, now)) && Execute(s, id, outcome, now).mode == s.mode
  {
    hide Transition, Appends, Activate, Erase, PassedOver;
    SameAppends(s.log, s.acked);
    match s.exec[id]
    case EnterChunking => TransitionBeside(s, id, Chunking, None, None, None, now);
    case EnterEmbedding(_) => TransitionBeside(s, id, Embedding, None, None, None, now);
    case EnterPublishing(p) => TransitionBeside(s, id, Publishing, None, Some(p), None, now);
    case EnterReady(p) => TransitionBeside(s, id, Ready, None, Some(p), None, now);
    case EnterErasing => TransitionBeside(s, id, Publishing, None, None, None, now);
    case EnterErased(a) => TransitionBeside(s, id, Ready, None, None, Some(a), now);
    case EnterFailed(error) => TransitionBeside(s, id, Failed, Some(error), None, None, now);
    case _ =>
  }

  lemma PlainBeside(f: Preparation, s: Sys, e: Event)
    requires Plain(e) && !e.Crash? && Enabled(f, s, e)
    ensures Beside(s, Apply(f, s, e)) && !Apply(f, s, e).mode.Down? && (s.mode.Up? ==> Apply(f, s, e).mode.Up?)
  {
    hide Execute, ReplayList, Replay, IsLatestIndex, Latest, RunEnabled, Answered, BaseAt;
    if e.Run? {
      RunEnabledRuns(f, s, e.id, e.outcome);
      RunBeside(s, e.id, e.outcome, e.now);
    }
  }

  lemma RunEnabledRuns(f: Preparation, s: Sys, id: JobId, outcome: Outcome)
    requires RunEnabled(f, s, id, outcome)
    ensures id in s.exec
  {
  }

  lemma AppendMadeUp(c: Catalog, log: seq<Job>, acked: set<Mutation>, log': seq<Job>, acked': set<Mutation>, held: nat)
    requires MadeUp(c, log, acked, held) && Appends(log, acked, log', acked')
    ensures MadeUp(c, log', acked', held)
  {
    hide Secured, AckedBy, CatalogOk;
    if log' != log || acked' != acked {
      var j := log'[|log'| - 1];
      SecuredAppend(c, log[held..], acked, j);
      assert (log + [j])[held..] == log[held..] + [j];
    }
  }

  lemma AppendSlots(log: seq<Job>, acked: set<Mutation>, log': seq<Job>, acked': set<Mutation>, slots: Slots)
    requires SlotsOk(log, acked, slots) && Appends(log, acked, log', acked')
    ensures SlotsOk(log', acked', slots)
  {
    hide MadeUp, Appends;
    forall i | i in slots
      ensures SlotOk(log', acked', slots[i])
    {
      assert SlotOk(log, acked, slots[i]);
      if slots[i].Holding? && slots[i].held.Some? {
        AppendMadeUp(slots[i].copy, log, acked, log', acked', slots[i].held.value);
      }
    }
  }

  lemma PlainKeeps(f: Preparation, c: Codec, m: Many, e: Event)
    requires ManyInv(f, m) && Possible(f, c, m, Do(e)) && !e.Crash?
    ensures ManyInv(f, Step(f, c, m, Do(e)))
  {
    hide Inv, MadeUp, SlotsOk, Enabled, Apply, Appends, Plain;
    PlainBeside(f, m.sys, e);
    StepKeeps(f, m.sys, e);
    var s' := Apply(f, m.sys, e);
    AppendMadeUp(m.sys.checkpoint, m.sys.log, m.sys.acked, s'.log, s'.acked, m.held);
    AppendSlots(m.sys.log, m.sys.acked, s'.log, s'.acked, m.slots);
  }

  lemma CrashStepKeeps(f: Preparation, c: Codec, m: Many)
    requires ManyInv(f, m) && Possible(f, c, m, Do(Crash))
    ensures ManyInv(f, Step(f, c, m, Do(Crash)))
  {
    hide Inv, SlotOk, Secured, MadeUp;
    CrashKeeps(f, m.sys);
    CrashAcks(f, m.sys);
    MadeUpWhole(m.sys.checkpoint, m.sys.log, m.sys.acked, m.held);
  }

  lemma MadeUpWhole(c: Catalog, log: seq<Job>, acked: set<Mutation>, held: nat)
    requires MadeUp(c, log, acked, held)
    ensures Secured(c, log, acked) && CatalogOk(c) && MadeUp(c, log, acked, 0)
  {
    hide Secured, CatalogOk;
    assert log[0..] == log;
    SecuredWithin(c, log[held..], log, acked);
  }

  // ------------------------------------------------------------ steps of a checkpoint

  lemma CopyIsMadeUp(f: Preparation, s: Sys)
    requires Inv(f, s) && s.mode.Up?
    ensures MadeUp(s.backend, s.log, s.acked, |s.log|)
  {
    hide KnownOk, LogKnown, Final, Durable, Threads, Unfinished, IsLatestIndex;
    assert Live(s.backend, s.acked);
  }

  /** Replacing the file by a copy that the log completes. */
  lemma FileKeeps(f: Preparation, s: Sys, copy: Catalog, held: nat)
    requires Inv(f, s) && s.maintenance.Idle? && MadeUp(copy, s.log, s.acked, held)
    ensures Inv(f, s.(checkpoint := copy))
  {
    hide KnownOk, LogKnown, Final, Running, Secured, CatalogOk;
    MadeUpWhole(copy, s.log, s.acked, held);
    var s' := s.(checkpoint := copy);
    assert Known(s') == Known(s);
    assert Running(f, s') == Running(f, s) by { RunningSame(f, s, s'); }
  }

  lemma RunningSame(f: Preparation, s: Sys, s': Sys)
    requires s' == s.(checkpoint := s'.checkpoint)
    ensures Running(f, s) <==> Running(f, s')
  {
  }

  lemma WriteStepKeeps(f: Preparation, c: Codec, m: Many, i: nat)
    requires ManyInv(f, m) && Possible(f, c, m, Write(i)) && Careful(m, Write(i))
    ensures ManyInv(f, Step(f, c, m, Write(i)))
  {
    hide Inv, MadeUp;
    var slot := m.slots[i];
    assert SlotOk(m.sys.log, m.sys.acked, slot);
    FileKeeps(f, m.sys, slot.copy, slot.held.value);
  }

  lemma TailWithin(log: seq<Job>, p: nat, q: nat)
    requires p <= q <= |log|
    ensures forall j :: j in log[q..] ==> j in log[p..]
  {
    assert log[q..] == log[p..][q - p..];
  }

  /** A cut that does not go past `held` only moves it. */
  lemma ShiftMadeUp(c: Catalog, log: seq<Job>, acked: set<Mutation>, held: nat, p: nat, kept: seq<Job>)
    requires MadeUp(c, log, acked, held) && p <= held
    ensures Shift(held, p, |kept|) == Some(held - p + |kept|) && MadeUp(c, kept + log[p..], acked, held - p + |kept|)
  {
    assert (kept + log[p..])[held - p + |kept|..] == log[held..];
  }

  lemma ShiftSlots(log: seq<Job>, acked: set<Mutation>, slots: Slots, p: nat, kept: seq<Job>)
    requires SlotsOk(log, acked, slots)
    ensures p <= |log| ==> SlotsOk(kept + log[p..], acked, ShiftAll(slots, p, |kept|))
  {
    hide MadeUp;
    if p <= |log| {
      forall i | i in slots
        ensures SlotOk(kept + log[p..], acked, ShiftSlot(slots[i], p, |kept|))
      {
        assert SlotOk(log, acked, slots[i]);
        if slots[i].Holding? && slots[i].held.Some? && p <= slots[i].held.value {
          ShiftMadeUp(slots[i].copy, log, acked, slots[i].held.value, p, kept);
        }
      }
    }
  }

  lemma CutStepKeeps(f: Preparation, c: Codec, m: Many, i: nat, p: nat, kept: seq<Job>)
    requires ManyInv(f, m) && Possible(f, c, m, Cut(i, p, kept)) && Careful(m, Cut(i, p, kept))
    ensures ManyInv(f, Step(f, c, m, Cut(i, p, kept)))
  {
    hide Inv, MadeUp, SlotsOk, CutOf;
    PositionedInv(f, m.sys, m.held, p);
    CutKeeps(f, m.sys.(maintenance := Ingestion.Written(p)), kept);
    ShiftMadeUp(m.sys.checkpoint, m.sys.log, m.sys.acked, m.held, p, kept);
    FewerSlots(m.sys.log, m.sys.acked, m.slots, i);
    ShiftSlots(m.sys.log, m.sys.acked, m.slots - {i}, p, kept);
    assert m.sys.(maintenance := Ingestion.Written(p)).(log := kept + m.sys.log[p..], maintenance := Idle) ==
      m.sys.(log := kept + m.sys.log[p..]);
  }

  lemma FewerSlots(log: seq<Job>, acked: set<Mutation>, slots: Slots, i: nat)
    requires SlotsOk(log, acked, slots)
    ensures SlotsOk(log, acked, slots - {i})
  {
  }

  /** What the file makes up for may be cut. */
  lemma PositionedInv(f: Preparation, s: Sys, held: nat, p: nat)
    requires Inv(f, s) && s.mode.Up? && MadeUp(s.checkpoint, s.log, s.acked, held) && p <= held
    ensures Inv(f, s.(maintenance := Ingestion.Written(p))) && p <= |s.log|
  {
    hide KnownOk, LogKnown, Final, Secured, IsLatestIndex, Threads, Unfinished, Live, CatalogOk;
    TailWithin(s.log, p, held);
    SecuredWithin(s.checkpoint, s.log[held..], s.log[p..], s.acked);
    assert Known(s.(maintenance := Ingestion.Written(p))) == Known(s);
  }

  lemma TurnKeeps(f: Preparation, c: Codec, m: Many, t: Turn)
    requires ManyInv(f, m) && Possible(f, c, m, t) && Careful(m, t)
    ensures ManyInv(f, Step(f, c, m, t))
  {
    hide ManyInv, Step, Careful, Enabled, CutOf;
    match t {
      case Do(e) =>
        if e.Crash? {
          CrashStepKeeps(f, c, m);
        } else {
          PlainKeeps(f, c, m, e);
        }
      case Locate(i) => LocateStepKeeps(f, c, m, i);
      case Copy(i) => CopyStepKeeps(f, c, m, i);
      case Write(i) => WriteStepKeeps(f, c, m, i);
      case Cut(i, at, kept) => CutStepKeeps(f, c, m, i, at, kept);
      case Abandon(i) => AbandonKeeps(f, c, m, i);
    }
  }

  lemma LocateStepKeeps(f: Preparation, c: Codec, m: Many, i: nat)
    requires ManyInv(f, m) && Possible(f, c, m, Locate(i))
    ensures ManyInv(f, Step(f, c, m, Locate(i)))
  {
    hide Inv, MadeUp;
    SlotStepKeeps(f, m, i, Located(LogBytes(c, m.sys.log)));
  }

  lemma CopyStepKeeps(f: Preparation, c: Codec, m: Many, i: nat)
    requires ManyInv(f, m) && Possible(f, c, m, Copy(i))
    ensures ManyInv(f, Step(f, c, m, Copy(i)))
  {
    hide Inv, MadeUp;
    CopyIsMadeUp(f, m.sys);
    SlotStepKeeps(f, m, i, Holding(m.slots[i].position, m.sys.backend, Some(|m.sys.log|)));
  }

  lemma AbandonKeeps(f: Preparation, c: Codec, m: Many, i: nat)
    requires ManyInv(f, m) && Possible(f, c, m, Abandon(i))
    ensures ManyInv(f, Step(f, c, m, Abandon(i)))
  {
    hide Inv, MadeUp;
    FewerSlots(m.sys.log, m.sys.acked, m.slots, i);
  }

  lemma SlotStepKeeps(f: Preparation, m: Many, i: nat, slot: Slot)
    requires ManyInv(f, m) && m.sys.mode.Up? && SlotOk(m.sys.log, m.sys.acked, slot)
    ensures ManyInv(f, m.(slots := m.slots[i := slot]))
  {
    hide Inv, MadeUp;
  }

  lemma {:induction false} OverlapsKeepInv(f: Preparation, c: Codec, turns: seq<Turn>)
    requires ManyLegal(f, c, turns) && AllCareful(f, c, turns)
    ensures ManyInv(f, ManyAfter(f, c, turns))
  {
    if turns == [] {
      InitialInv(f);
    } else {
      var n := |turns| - 1;
      OverlapsKeepInv(f, c, turns[..n]);
      hide ManyInv, Possible, Careful, Step;
      TurnKeeps(f, c, ManyAfter(f, c, turns[..n]), turns[n]);
    }
  }

  lemma AckedOnlyGrows(f: Preparation, c: Codec, m: Many, t: Turn)
    requires Possible(f, c, m, t)
    ensures m.sys.acked <= Step(f, c, m, t).sys.acked
  {
    hide Enabled, Apply, CutOf, Plain;
    if t.Do? && !t.event.Crash? {
      PlainBeside(f, m.sys, t.event);
    } else if t.Do? {
      CrashAcks(f, m.sys);
    }
  }

  lemma CrashAcks(f: Preparation, s: Sys)
    ensures Enabled(f, s, Crash) && Apply(f, s, Crash) == Crashed(s)
  {
  }

  lemma {:induction false} ManyPrefix(f: Preparation, c: Codec, turns: seq<Turn>, k: nat)
    requires ManyLegal(f, c, turns) && k <= |turns|
    ensures ManyLegal(f, c, turns[..k]) && ManyAfter(f, c, turns[..k]).sys.acked <= ManyAfter(f, c, turns).sys.acked
  {
    if k < |turns| {
      var n := |turns| - 1;
      ManyPrefix(f, c, turns[..n], k);
      assert turns[..n][..k] == turns[..k];
      hide Possible, Step;
      AckedOnlyGrows(f, c, ManyAfter(f, c, turns[..n]), turns[n]);
    } else {
      assert turns[..k] == turns;
    }
  }

  /** Over every run with any number of checkpoints in progress at once and crashes anywhere: if no copy is written that
      a cut has gone past, and no cut goes past what the file makes up for, no acknowledged mutation is lost. */
  lemma OverlapsKeepAcknowledged(f: Preparation, c: Codec, turns: seq<Turn>, k: nat, m: Mutation)
    requires ManyLegal(f, c, turns) && AllCareful(f, c, turns) && k <= |turns|
    requires ManyLegal(f, c, turns[..k]) && m in ManyAfter(f, c, turns[..k]).sys.acked
    ensures var s := ManyAfter(f, c, turns).sys;
      (Covers(s.checkpoint, m) || Logged(s.log, m)) && (!s.mode.Down? ==> Covers(s.backend, m))
  {
    hide ManyLegal, ManyAfter, AllCareful, KnownOk, LogKnown, Final, Threads, Unfinished, IsLatestIndex, SlotsOk, MadeUp;
    ManyPrefix(f, c, turns, k);
    OverlapsKeepInv(f, c, turns);
  }

  // -------------------------------------------------------------- lengths of the log

  lemma LogBytesSplit(c: Codec, log: seq<Job>, at: nat)
    requires at <= |log|
    ensures LogBytes(c, log) == LogBytes(c, log[..at]) + LogBytes(c, log[at..])
  {
    LogAppend(c, log[..at], log[at..]);
    assert log[..at] + log[at..] == log;
  }

  /** No frame is empty. */
  lemma {:induction false} LogBytesAtLeast(c: Codec, log: seq<Job>)
    ensures LogBytes(c, log) >= HEADER_BYTES * |log|
  {
    if log != [] {
      LogBytesAtLeast(c, log[1..]);
      assert |Frame(c, log[0])| >= HEADER_BYTES;
    }
  }

  /** A position is the end of one record at most. */
  lemma OneBoundary(c: Codec, log: seq<Job>, at: nat, other: nat, position: nat)
    requires EndsAt(c, log, at, position) && EndsAt(c, log, other, position)
    ensures at == other
  {
    if at < other {
      BoundariesApart(c, log, at, other);
    } else if other < at {
      BoundariesApart(c, log, other, at);
    }
  }

  lemma BoundariesApart(c: Codec, log: seq<Job>, at: nat, other: nat)
    requires at < other <= |log|
    ensures LogBytes(c, log[..at]) < LogBytes(c, log[..other])
  {
    LogBytesSplit(c, log[..other], at);
    LogBytesAtLeast(c, log[..other][at..]);
    assert log[..other][..at] == log[..at];
  }

  // ---------------------------------------------------------- one checkpoint at a time

  /** The position is the end of one of the first `held` records, or their start. */
  predicate ReadWithin(c: Codec, log: seq<Job>, held: nat, position: nat) {
    held <= |log| && exists n :: 0 <= n <= held && EndsAt(c, log, n, position)
  }

  predicate SlotAlone(c: Codec, log: seq<Job>, held: nat, slot: Slot) {
    match slot
    case Located(p) => ReadWithin(c, log, |log|, p)
    case Holding(p, _, copied) => copied.Some? && ReadWithin(c, log, copied.value, p)
    case Replaced(p) => ReadWithin(c, log, held, p)
  }

  /** A checkpoint that is alone has lost nothing. */
  predicate Alone(c: Codec, m: Many) {
    |m.slots| <= 1 && forall i :: i in m.slots ==> SlotAlone(c, m.sys.log, m.held, m.slots[i])
  }

  lemma ReadNow(c: Codec, log: seq<Job>)
    ensures ReadWithin(c, log, |log|, LogBytes(c, log))
  {
    assert log[..|log|] == log;
    assert EndsAt(c, log, |log|, LogBytes(c, log));
  }

  lemma ReadStays(c: Codec, log: seq<Job>, log': seq<Job>, held: nat, held': nat, position: nat)
    requires ReadWithin(c, log, held, position) && log <= log' && held <= held' <= |log'|
    ensures ReadWithin(c, log', held', position)
  {
    var n :| 0 <= n <= held && EndsAt(c, log, n, position);
    assert log'[..n] == log[..n];
    assert EndsAt(c, log', n, position);
  }

  lemma AloneAppends(c: Codec, m: Many, s: Sys)
    requires Alone(c, m) && m.sys.log <= s.log
    ensures Alone(c, m.(sys := s))
  {
    hide ReadWithin;
    forall i | i in m.slots
      ensures SlotAlone(c, s.log, m.held, m.slots[i])
    {
      var slot := m.slots[i];
      if slot.Located? {
        ReadStays(c, m.sys.log, s.log, |m.sys.log|, |s.log|, slot.position);
      } else {
        var held := if slot.Holding? then slot.held.value else m.held;
        WithinLog(c, m.sys.log, held, slot.position);
        ReadStays(c, m.sys.log, s.log, held, held, slot.position);
      }
    }
  }

  lemma WithinLog(c: Codec, log: seq<Job>, held: nat, position: nat)
    requires ReadWithin(c, log, held, position)
    ensures held <= |log|
  {
  }

  /** The records a cut drops are those that were there when its position was read. */
  lemma CutWithin(c: Codec, log: seq<Job>, held: nat, at: nat, position: nat)
    requires ReadWithin(c, log, held, position) && EndsAt(c, log, at, position)
    ensures at <= held
  {
    var n :| 0 <= n <= held && EndsAt(c, log, n, position);
    OneBoundary(c, log, at, n, position);
  }

  /** No checkpoint is begun while another one is in progress. */
  ghost predicate Serial(f: Preparation, c: Codec, turns: seq<Turn>)
    requires ManyLegal(f, c, turns)
  {
    turns == [] ||
    (Serial(f, c, turns[..|turns| - 1]) && (turns[|turns| - 1].Locate? ==> ManyAfter(f, c, turns[..|turns| - 1]).slots == map[]))
  }

  lemma AloneIsCareful(f: Preparation, c: Codec, m: Many, t: Turn)
    requires Alone(c, m) && Possible(f, c, m, t) && (t.Locate? ==> m.slots == map[])
    ensures Careful(m, t) && Alone(c, Step(f, c, m, t))
  {
    hide Enabled, Apply, CutOf, Plain, ReadWithin, EndsAt, LogBytes;
    var log := m.sys.log;
    match t {
      case Do(e) =>
        if e.Crash? {
          CrashAcks(f, m.sys);
        } else {
          PlainBeside(f, m.sys, e);
          AloneAppends(c, m, Apply(f, m.sys, e));
        }
      case Locate(i) => ReadNow(c, log);
      case Copy(i) => OneSlot(m.slots, i, Holding(m.slots[i].position, m.sys.backend, Some(|log|)));
      case Write(i) => OneSlot(m.slots, i, Replaced(m.slots[i].position));
      case Cut(i, at, kept) =>
        OneSlot(m.slots, i, m.slots[i]);
        CutWithin(c, log, m.held, at, m.slots[i].position);
      case Abandon(i) => OneSlot(m.slots, i, m.slots[i]);
    }
  }

  lemma OneSlot(slots: Slots, i: nat, slot: Slot)
    requires |slots| <= 1 && i in slots
    ensures (forall k :: k in slots ==> k == i) && slots - {i} == map[] && |slots[i := slot]| == 1
  {
    forall k | k in slots
      ensures k == i
    {
      if k != i {
        assert {i, k} <= slots.Keys && |{i, k}| == 2;
        Collections.SubsetSize({i, k}, slots.Keys);
      }
    }
    assert slots.Keys == {i} && slots[i := slot].Keys == {i};
  }

  /** One checkpoint at a time is always careful. */
  lemma {:induction false} SerialIsCareful(f: Preparation, c: Codec, turns: seq<Turn>)
    requires ManyLegal(f, c, turns) && Serial(f, c, turns)
    ensures AllCareful(f, c, turns) && Alone(c, ManyAfter(f, c, turns))
  {
    hide Possible, Step, Careful;
    if turns != [] {
      var n := |turns| - 1;
      SerialIsCareful(f, c, turns[..n]);
      hide Alone;
      AloneIsCareful(f, c, ManyAfter(f, c, turns[..n]), turns[n]);
    }
  }
}
