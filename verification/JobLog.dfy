/** The append-only job log at the level of bytes: checksummed frames, repair of a torn tail
    on reopening, and the cut of a checkpointed prefix. */
module JobLog {
  import opened Wrappers
  import opened Collections
  import opened Bytes
  import opened Jobs

  const MAGIC := 0x52424F4A
  const HEADER_BYTES := 12
  const MAX_RECORDS := 10_000_000
  const MAX_RECORD_BYTES := 64 * 1024 * 1024

  /** The record codec and checksum, which this model leaves abstract. */
  datatype Codec = Codec(encode: Job -> Blob, decode: Blob -> Option<Job>, crc: Blob -> nat)

  predicate Storable(c: Codec, j: Job) {
    |c.encode(j)| <= MAX_RECORD_BYTES && c.decode(c.encode(j)) == Some(j)
  }

  ghost predicate CodecOk(c: Codec) {
    forall p :: c.crc(p) < 0x1_0000_0000
  }

  predicate AllStorable(c: Codec, jobs: seq<Job>) { forall j :: j in jobs ==> Storable(c, j) }

  function Frame(c: Codec, j: Job): (f: Blob)
    ensures |f| == HEADER_BYTES + |c.encode(j)|
  {
    var payload := c.encode(j);
    Put(MAGIC, 4) + Put(|payload|, 4) + Put(c.crc(payload), 4) + payload
  }

  /** The log that holds exactly these records. */
  function Log(c: Codec, jobs: seq<Job>): Blob {
    if jobs == [] then [] else Frame(c, jobs[0]) + Log(c, jobs[1..])
  }

  datatype Scan = Stop(end: nat, jobs: seq<Job>) | Corrupt

  function Prepend(end: nat, j: Job, rest: Scan): Scan {
    if rest.Stop? then Stop(end + rest.end, [j] + rest.jobs) else Corrupt
  }

  /** What stands at the head of a log: a torn frame, damage, or a record and where it ends. */
  datatype Head = Torn | Damaged | Whole(job: Job, end: nat)

  /** `repair` is the reading on open, which takes an undecodable last frame for a torn one;
      plain loading reports it. */
  function First(c: Codec, blob: Blob, repair: bool): (h: Head)
    requires |blob| >= HEADER_BYTES
    ensures h.Whole? ==> HEADER_BYTES <= h.end <= |blob|
  {
    var length := Take(blob[4..8]);
    if Take(blob[..4]) != MAGIC || length > MAX_RECORD_BYTES then Damaged
    else if length > |blob| - HEADER_BYTES then Head.Torn
    else
      var end := HEADER_BYTES + length;
      var payload := blob[HEADER_BYTES..end];
      if c.crc(payload) != Take(blob[8..12]) then (if end == |blob| then Head.Torn else Damaged)
      else
        match c.decode(payload)
        case None => if repair && end == |blob| then Head.Torn else Damaged
        case Some(job) => Whole(job, end)
  }

  /** How far a log is intact, and what it holds up to there. */
  function Parse(c: Codec, blob: Blob, records: nat, repair: bool): Scan
    decreases |blob|
  {
    if |blob| < HEADER_BYTES then Stop(0, [])
    else if records + 1 > MAX_RECORDS then Corrupt
    else
      match First(c, blob, repair)
      case Torn => Stop(0, [])
      case Damaged => Corrupt
      case Whole(job, end) => Prepend(end, job, Parse(c, blob[end..], records + 1, repair))
  }

  // ------------------------------------------------------------------- reading

  /** A crash can leave a proper prefix of one more frame behind the whole ones. */
  ghost predicate TornTail(c: Codec, tail: Blob) {
    tail == [] || exists j :: Storable(c, j) && tail < Frame(c, j)
  }

  function Headers(tail: Blob): nat { if |tail| >= HEADER_BYTES then 1 else 0 }

  /** A reader that has seen `records` headers gives up on `more` further ones. */
  predicate TooMany(records: nat, more: nat) { more > 0 && records + more > MAX_RECORDS }

  lemma FrameFields(c: Codec, j: Job, blob: Blob)
    requires CodecOk(c) && Storable(c, j) && |blob| >= HEADER_BYTES
    requires blob[..HEADER_BYTES] == Frame(c, j)[..HEADER_BYTES]
    ensures Take(blob[..4]) == MAGIC && Take(blob[4..8]) == |c.encode(j)| && Take(blob[8..12]) == c.crc(c.encode(j))
  {
    var f := Frame(c, j);
    var payload := c.encode(j);
    Widths();
    assert blob[..4] == f[..4] == Put(MAGIC, 4) by { assert blob[..4] == blob[..HEADER_BYTES][..4]; }
    assert blob[4..8] == f[4..8] == Put(|payload|, 4) by { assert blob[4..8] == blob[..HEADER_BYTES][4..8]; }
    assert blob[8..12] == f[8..12] == Put(c.crc(payload), 4) by { assert blob[8..12] == blob[..HEADER_BYTES][8..12]; }
    hide Put, Take, Pow256, Frame;
    Exact(MAGIC, 4);
    Exact(|payload|, 4);
    Exact(c.crc(payload), 4);
  }

  lemma ParseTorn(c: Codec, tail: Blob, records: nat, repair: bool)
    requires CodecOk(c) && TornTail(c, tail)
    ensures Parse(c, tail, records, repair) == if TooMany(records, Headers(tail)) then Corrupt else Stop(0, [])
  {
    if |tail| >= HEADER_BYTES {
      var j :| Storable(c, j) && tail < Frame(c, j);
      assert tail[..HEADER_BYTES] == Frame(c, j)[..HEADER_BYTES];
      hide Frame;
      FrameFields(c, j, tail);
    }
  }

  lemma ParseFrame(c: Codec, j: Job, rest: Blob, records: nat, repair: bool)
    requires CodecOk(c) && Storable(c, j)
    ensures Parse(c, Frame(c, j) + rest, records, repair) ==
            if records + 1 > MAX_RECORDS then Corrupt
            else Prepend(|Frame(c, j)|, j, Parse(c, rest, records + 1, repair))
  {
    var blob := Frame(c, j) + rest;
    var end := HEADER_BYTES + |c.encode(j)|;
    assert blob[..HEADER_BYTES] == Frame(c, j)[..HEADER_BYTES];
    assert blob[HEADER_BYTES..end] == c.encode(j);
    assert blob[end..] == rest;
    hide Frame;
    FrameFields(c, j, blob);
  }

  /** Reading a log of whole records and a torn tail gives back exactly the whole records, unless
      the number of headers exceeds the record limit. */
  lemma {:induction false} ParseLog(c: Codec, jobs: seq<Job>, tail: Blob, records: nat, repair: bool)
    requires CodecOk(c) && AllStorable(c, jobs) && TornTail(c, tail)
    ensures Parse(c, Log(c, jobs) + tail, records, repair) ==
            if TooMany(records, |jobs| + Headers(tail)) then Corrupt else Stop(|Log(c, jobs)|, jobs)
  {
    hide Parse, Frame, Headers, TornTail, Storable;
    if jobs == [] {
      assert Log(c, jobs) + tail == tail;
      ParseTorn(c, tail, records, repair);
    } else {
      ParseLog(c, jobs[1..], tail, records + 1, repair);
      assert jobs[0] in jobs && [jobs[0]] + jobs[1..] == jobs;
      ParseFrame(c, jobs[0], Log(c, jobs[1..]) + tail, records, repair);
      assert Log(c, jobs) + tail == Frame(c, jobs[0]) + (Log(c, jobs[1..]) + tail);
    }
  }

  // ------------------------------------------------------------------- damage

  /** A header with the magic number and a length that is allowed, and where its frame ends. */
  predicate HeaderOk(tail: Blob) {
    |tail| >= HEADER_BYTES && Take(tail[..4]) == MAGIC && Take(tail[4..8]) <= MAX_RECORD_BYTES
  }

  function FrameEnd(tail: Blob): nat
    requires HeaderOk(tail)
  {
    HEADER_BYTES + Take(tail[4..8])
  }

  predicate SumOk(c: Codec, tail: Blob)
    requires HeaderOk(tail) && FrameEnd(tail) <= |tail|
  {
    c.crc(tail[HEADER_BYTES..FrameEnd(tail)]) == Take(tail[8..12])
  }

  predicate Decodes(c: Codec, tail: Blob)
    requires HeaderOk(tail) && FrameEnd(tail) <= |tail|
  {
    c.decode(tail[HEADER_BYTES..FrameEnd(tail)]).Some?
  }

  /** Not the mark of a crash: no header where one should be, or a whole frame that is not the last one and has a bad
      checksum or payload. A last frame with a good checksum and a bad payload is damage too, except on opening. */
  predicate Damage(c: Codec, tail: Blob, repair: bool) {
    |tail| >= HEADER_BYTES &&
    (!HeaderOk(tail) ||
     (FrameEnd(tail) < |tail| && !(SumOk(c, tail) && Decodes(c, tail))) ||
     (FrameEnd(tail) == |tail| && SumOk(c, tail) && !Decodes(c, tail) && !repair))
  }

  /** The last frame, whole, has a bad checksum, or on opening a bad payload. */
  predicate BadEnd(c: Codec, tail: Blob, repair: bool) {
    HeaderOk(tail) && FrameEnd(tail) == |tail| && (!SumOk(c, tail) || (repair && !Decodes(c, tail)))
  }

  /** After whole records: damage is refused, whatever follows it; a last frame that is torn or does not check is left
      out. */
  lemma {:induction false} ParseEnd(c: Codec, jobs: seq<Job>, tail: Blob, records: nat, repair: bool)
    requires CodecOk(c) && AllStorable(c, jobs) && (TornTail(c, tail) || BadEnd(c, tail, repair) || Damage(c, tail, repair))
    ensures Parse(c, Log(c, jobs) + tail, records, repair) ==
            if TooMany(records, |jobs| + Headers(tail)) || Damage(c, tail, repair) then Corrupt else Stop(|Log(c, jobs)|, jobs)
  {
    hide Parse, Frame, Headers, TornTail, Storable, Damage, BadEnd;
    if jobs == [] {
      assert Log(c, jobs) + tail == tail;
      if Damage(c, tail, repair) || BadEnd(c, tail, repair) {
        ParseBad(c, tail, records, repair);
      } else {
        ParseTorn(c, tail, records, repair);
      }
    } else {
      ParseEnd(c, jobs[1..], tail, records + 1, repair);
      assert jobs[0] in jobs && [jobs[0]] + jobs[1..] == jobs;
      ParseFrame(c, jobs[0], Log(c, jobs[1..]) + tail, records, repair);
      assert Log(c, jobs) + tail == Frame(c, jobs[0]) + (Log(c, jobs[1..]) + tail);
    }
  }

  lemma ParseBad(c: Codec, tail: Blob, records: nat, repair: bool)
    requires BadEnd(c, tail, repair) || Damage(c, tail, repair)
    ensures Parse(c, tail, records, repair) ==
            if TooMany(records, Headers(tail)) || Damage(c, tail, repair) then Corrupt else Stop(0, [])
  {
  }

  /** A torn tail is no damage. */
  lemma TornIsNoDamage(c: Codec, tail: Blob, repair: bool)
    requires CodecOk(c) && TornTail(c, tail)
    ensures !Damage(c, tail, repair)
  {
    if |tail| >= HEADER_BYTES {
      var j :| Storable(c, j) && tail < Frame(c, j);
      assert tail[..HEADER_BYTES] == Frame(c, j)[..HEADER_BYTES];
      FrameFields(c, j, tail);
    }
  }

  // ------------------------------------------------------------------- cutting

  /** How many records of the log survive a cut after `n` bytes. */
  function Survivors(c: Codec, jobs: seq<Job>, n: nat): (k: nat)
    ensures k <= |jobs|
  {
    if jobs == [] || n < |Frame(c, jobs[0])| then 0
    else 1 + Survivors(c, jobs[1..], n - |Frame(c, jobs[0])|)
  }

  /** Any byte prefix of a log is the log of the surviving records and a torn tail. */
  lemma {:induction false} CutSurvives(c: Codec, jobs: seq<Job>, n: nat) returns (tail: Blob)
    requires AllStorable(c, jobs) && n <= |Log(c, jobs)|
    ensures TornTail(c, tail) && Log(c, jobs)[..n] == Log(c, jobs[..Survivors(c, jobs, n)]) + tail
  {
    hide Frame, Storable;
    if jobs == [] {
      return [];
    }
    var f := Frame(c, jobs[0]);
    var rest := Log(c, jobs[1..]);
    assert Storable(c, jobs[0]);
    if n < |f| {
      tail := f[..n];
      assert Log(c, jobs)[..n] == tail;
      assert jobs[..0] == [];
    } else {
      var k := Survivors(c, jobs[1..], n - |f|);
      assert jobs[..k + 1][1..] == jobs[1..][..k];
      assert Log(c, jobs[..k + 1]) == f + Log(c, jobs[1..][..k]);
      tail := CutSurvives(c, jobs[1..], n - |f|);
      assert (f + rest)[..n] == f + rest[..n - |f|];
    }
  }

  lemma {:induction false} LogAppend(c: Codec, jobs: seq<Job>, more: seq<Job>)
    ensures Log(c, jobs + more) == Log(c, jobs) + Log(c, more)
  {
    hide Frame;
    if jobs == [] {
      assert jobs + more == more;
    } else {
      LogAppend(c, jobs[1..], more);
      LogHead(c, jobs + more);
      LogHead(c, jobs);
      assert (jobs + more)[0] == jobs[0] && (jobs + more)[1..] == jobs[1..] + more;
      hide Log;
      Reassociate(Frame(c, jobs[0]), Log(c, jobs[1..]), Log(c, more));
    }
  }

  lemma LogHead(c: Codec, jobs: seq<Job>)
    requires jobs != []
    ensures Log(c, jobs) == Frame(c, jobs[0]) + Log(c, jobs[1..])
  {
  }

  // ------------------------------------------------------- crashes and reopening

  /** Records appended, then a crash that keeps the first `cut` bytes, then a reopening. */
  datatype Round = Round(appended: seq<Job>, cut: nat)

  function Reopened(c: Codec, blob: Blob): Option<Blob> {
    var p := Parse(c, blob, 0, true);
    if p.Stop? && p.end <= |blob| then Some(blob[..p.end]) else None
  }

  function CutTo(blob: Blob, n: nat): Blob { if n < |blob| then blob[..n] else blob }

  function FileAfter(c: Codec, rounds: seq<Round>): Option<Blob> {
    if rounds == [] then Some([])
    else
      var last := rounds[|rounds| - 1];
      match FileAfter(c, rounds[..|rounds| - 1])
      case None => None
      case Some(file) => Reopened(c, CutTo(file + Log(c, last.appended), last.cut))
  }

  function RecordsAfter(c: Codec, rounds: seq<Round>): seq<Job> {
    if rounds == [] then []
    else
      var last := rounds[|rounds| - 1];
      var all := RecordsAfter(c, rounds[..|rounds| - 1]) + last.appended;
      if last.cut < |Log(c, all)| then all[..Survivors(c, all, last.cut)] else all
  }

  /** The records that survive a cut after `n` bytes. */
  function Kept(c: Codec, jobs: seq<Job>, n: nat): seq<Job> {
    if n < |Log(c, jobs)| then jobs[..Survivors(c, jobs, n)] else jobs
  }

  /** Reopening a cut log leaves exactly its surviving records; it fails only past the record limit. */
  lemma ReopenCut(c: Codec, jobs: seq<Job>, n: nat) returns (tail: Blob)
    requires CodecOk(c) && AllStorable(c, jobs)
    ensures CutTo(Log(c, jobs), n) == Log(c, Kept(c, jobs, n)) + tail && TornTail(c, tail)
    ensures Reopened(c, CutTo(Log(c, jobs), n)) ==
            if TooMany(0, |Kept(c, jobs, n)| + Headers(tail)) then None else Some(Log(c, Kept(c, jobs, n)))
  {
    hide Parse;
    if n < |Log(c, jobs)| {
      tail := CutSurvives(c, jobs, n);
    } else {
      tail := [];
    }
    var kept := Kept(c, jobs, n);
    ParseLog(c, kept, tail, 0, true);
    assert (Log(c, kept) + tail)[..|Log(c, kept)|] == Log(c, kept);
  }

  /** What a cut leaves of the first record that does not survive it. */
  function TailAt(c: Codec, jobs: seq<Job>, n: nat): Blob {
    var file, whole := CutTo(Log(c, jobs), n), |Log(c, Kept(c, jobs, n))|;
    if whole <= |file| then file[whole..] else []
  }

  /** How many record headers a reopening of a cut log reads. */
  function Seen(c: Codec, jobs: seq<Job>, n: nat): nat { |Kept(c, jobs, n)| + Headers(TailAt(c, jobs, n)) }

  /** Some reopening reads more records than the limit. Appending counts none. */
  predicate Overflows(c: Codec, rounds: seq<Round>) {
    exists k :: 0 <= k < |rounds| && OverflowsAt(c, rounds, k)
  }

  predicate OverflowsAt(c: Codec, rounds: seq<Round>, k: nat)
    requires k < |rounds|
  {
    TooMany(0, Seen(c, RecordsAfter(c, rounds[..k]) + rounds[k].appended, rounds[k].cut))
  }

  lemma OverflowsNext(c: Codec, rounds: seq<Round>)
    requires rounds != []
    ensures var n := |rounds| - 1; Overflows(c, rounds) <==> Overflows(c, rounds[..n]) || OverflowsAt(c, rounds, n)
  {
    hide Seen, RecordsAfter;
    var n := |rounds| - 1;
    forall k | 0 <= k < n
      ensures OverflowsAt(c, rounds[..n], k) <==> OverflowsAt(c, rounds, k)
    {
      assert rounds[..n][..k] == rounds[..k];
    }
  }

  lemma {:induction false} RoundsStorable(c: Codec, rounds: seq<Round>)
    requires forall r :: r in rounds ==> AllStorable(c, r.appended)
    ensures AllStorable(c, RecordsAfter(c, rounds))
  {
    if rounds != [] {
      var n := |rounds| - 1;
      RoundsStorable(c, rounds[..n]);
      assert rounds[n] in rounds && AllStorable(c, rounds[n].appended);
    }
  }

  /** After any number of rounds of append, cut at any byte and reopen, the file holds exactly the whole records that
      survived every cut, in order, unless some reopening read more records than the limit; then it was refused. */
  lemma {:induction false} RoundsSurvive(c: Codec, rounds: seq<Round>)
    requires CodecOk(c) && forall r :: r in rounds ==> AllStorable(c, r.appended)
    ensures FileAfter(c, rounds) == if Overflows(c, rounds) then None else Some(Log(c, RecordsAfter(c, rounds)))
  {
    if rounds != [] {
      var n := |rounds| - 1;
      var last := rounds[n];
      hide Overflows, OverflowsAt, TooMany, Seen;
      RoundsSurvive(c, rounds[..n]);
      OverflowsNext(c, rounds);
      RoundsStorable(c, rounds[..n]);
      assert last in rounds && AllStorable(c, last.appended);
      var before := RecordsAfter(c, rounds[..n]);
      LogAppend(c, before, last.appended);
      LastReopened(c, rounds, before);
    }
  }

  lemma LastReopened(c: Codec, rounds: seq<Round>, before: seq<Job>)
    requires rounds != [] && CodecOk(c) && before == RecordsAfter(c, rounds[..|rounds| - 1])
    requires AllStorable(c, before + rounds[|rounds| - 1].appended)
    ensures var n := |rounds| - 1; var all := before + rounds[n].appended;
      Reopened(c, CutTo(Log(c, all), rounds[n].cut)) ==
      if OverflowsAt(c, rounds, n) then None else Some(Log(c, Kept(c, all, rounds[n].cut)))
  {
    hide Parse, Reopened, RecordsAfter;
    var last := rounds[|rounds| - 1];
    var all := before + last.appended;
    var tail := ReopenCut(c, all, last.cut);
    assert TailAt(c, all, last.cut) == tail;
  }

  /** Loading such a file gives the last surviving record of every job. */
  lemma RoundsLoad(c: Codec, rounds: seq<Round>)
    requires CodecOk(c) && FileAfter(c, rounds).Some?
    requires forall r :: r in rounds ==> AllStorable(c, r.appended)
    ensures Parse(c, FileAfter(c, rounds).value, 0, false) ==
            Stop(|FileAfter(c, rounds).value|, RecordsAfter(c, rounds))
    ensures HoldsLast(Latest(RecordsAfter(c, rounds)), RecordsAfter(c, rounds))
  {
    LastWithin(c, rounds);
    hide Parse, FileAfter, RecordsAfter, HoldsLast, Overflows;
    LatestHoldsLast(RecordsAfter(c, rounds));
    RoundsSurvive(c, rounds);
    RoundsStorable(c, rounds);
    var jobs := RecordsAfter(c, rounds);
    ParseLog(c, jobs, [], 0, false);
    assert Log(c, jobs) + [] == Log(c, jobs);
  }

  lemma LastWithin(c: Codec, rounds: seq<Round>)
    ensures !Overflows(c, rounds) ==> !TooMany(0, |RecordsAfter(c, rounds)|)
  {
    if rounds != [] && !Overflows(c, rounds) {
      assert !OverflowsAt(c, rounds, |rounds| - 1);
    }
  }
}
