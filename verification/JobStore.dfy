/** The job store object over one log file: opening with tail repair, appending, loading, and
    cutting the prefix a checkpoint represents. */
module JobStore {
  import opened Wrappers
  import opened Bytes
  import opened Jobs
  import opened JobLog
  import opened KeyOrder
  import opened Sorting
  import opened Ingestion

  // ------------------------------------------------------------------- scanning

  /** What a cursor at `position` has still to read, relative to the whole log. */
  predicate Ahead(whole: Scan, position: nat, done: seq<Job>, rest: Scan) {
    if rest.Corrupt? then whole.Corrupt?
    else whole == Stop(position + rest.end, done + rest.jobs)
  }

  /** Reading one whole frame moves the cursor past it. */
  lemma AheadNext(c: Codec, blob: Blob, whole: Scan, position: nat, done: seq<Job>, records: nat, repair: bool)
    requires position + HEADER_BYTES <= |blob| && records + 1 <= MAX_RECORDS
    requires Ahead(whole, position, done, Parse(c, blob[position..], records, repair))
    requires First(c, blob[position..], repair).Whole?
    ensures var head := First(c, blob[position..], repair);
      position + head.end <= |blob| &&
      Ahead(whole, position + head.end, done + [head.job], Parse(c, blob[position + head.end..], records + 1, repair))
  {
    hide First;
    var head := First(c, blob[position..], repair);
    assert blob[position..][head.end..] == blob[position + head.end..];
    var rest := Parse(c, blob[position + head.end..], records + 1, repair);
    if rest.Stop? {
      assert done + ([head.job] + rest.jobs) == done + [head.job] + rest.jobs;
    }
  }

  /** One frame of either reader's loop. */
  method ReadFrame(c: Codec, blob: Blob, position: nat, repair: bool) returns (h: Head)
    requires position + HEADER_BYTES <= |blob|
    ensures h == First(c, blob[position..], repair)
  {
    ghost var left := blob[position..];
    var length := Take(blob[position + 4..position + 8]);
    assert left[..4] == blob[position..position + 4] && left[4..8] == blob[position + 4..position + 8]
           && left[8..12] == blob[position + 8..position + 12];
    if Take(blob[position..position + 4]) != MAGIC || length > MAX_RECORD_BYTES {
      return Damaged;
    }
    var body := position + HEADER_BYTES;
    if length > |blob| - body {
      return Head.Torn;
    }
    var payload := blob[body..body + length];
    assert left[HEADER_BYTES..HEADER_BYTES + length] == payload;
    if c.crc(payload) != Take(blob[position + 8..position + 12]) {
      return if body + length == |blob| then Head.Torn else Damaged;
    }
    match c.decode(payload) {
      case None =>
        return if repair && body + length == |blob| then Head.Torn else Damaged;
      case Some(job) =>
        return Whole(job, HEADER_BYTES + length);
    }
  }

  /** `valid_prefix`: the length of the intact part of a log. */
  method ValidPrefix(c: Codec, blob: Blob) returns (r: Result<nat>)
    ensures var p := Parse(c, blob, 0, true);
      r == if p.Stop? then Ok(p.end) else Err(CorruptIndex)
    ensures r.Ok? ==> r.value <= |blob|
  {
    hide First;
    var position, records := 0, 0;
    ghost var done: seq<Job> := [];
    ghost var whole := Parse(c, blob, 0, true);
    assert blob[0..] == blob;
    while position + HEADER_BYTES <= |blob|
      invariant position <= |blob|
      invariant Ahead(whole, position, done, Parse(c, blob[position..], records, true))
    {
      records := records + 1;
      if records > MAX_RECORDS {
        return Err(CorruptIndex);
      }
      var head := ReadFrame(c, blob, position, true);
      if head.Torn? {
        return Ok(position);
      }
      if head.Damaged? {
        return Err(CorruptIndex);
      }
      AheadNext(c, blob, whole, position, done, records - 1, true);
      done := done + [head.job];
      position := position + head.end;
    }
    return Ok(position);
  }

  lemma LatestNothing()
    ensures Latest([]) == map[]
  {
  }

  /** The scan of `latest_jobs`: the last record of every job of the intact part. */
  method ScanLatest(c: Codec, blob: Blob) returns (r: Result<map<JobId, Job>>)
    ensures var p := Parse(c, blob, 0, false);
      r == if p.Stop? then Ok(Latest(p.jobs)) else Err(CorruptIndex)
  {
    hide First, Latest;
    LatestNothing();
    var position, records := 0, 0;
    var latest: map<JobId, Job> := map[];
    ghost var done: seq<Job> := [];
    ghost var whole := Parse(c, blob, 0, false);
    assert blob[0..] == blob;
    while position + HEADER_BYTES <= |blob|
      invariant position <= |blob| && latest == Latest(done)
      invariant Ahead(whole, position, done, Parse(c, blob[position..], records, false))
    {
      records := records + 1;
      if records > MAX_RECORDS {
        return Err(CorruptIndex);
      }
      var head := ReadFrame(c, blob, position, false);
      if head.Torn? {
        assert done + [] == done;
        return Ok(latest);
      }
      if head.Damaged? {
        return Err(CorruptIndex);
      }
      AheadNext(c, blob, whole, position, done, records - 1, false);
      LatestAppend(done, head.job);
      done := done + [head.job];
      latest := latest[head.job.id := head.job];
      position := position + head.end;
    }
    assert done + [] == done;
    return Ok(latest);
  }

  /** The jobs of a map in no particular order. */
  method Listed(m: map<JobId, Job>) returns (listed: seq<Job>)
    requires forall id :: id in m ==> m[id].id == id
    ensures Lists(listed, m)
  {
    listed := [];
    var todo := m.Keys;
    while todo != {}
      invariant todo <= m.Keys && DistinctJobs(listed)
      invariant forall j :: j in listed <==> j.id in m && m[j.id] == j && j.id !in todo
      decreases todo
    {
      var id :| id in todo;
      todo := todo - {id};
      AppendDistinct(listed, m[id]);
      listed := listed + [m[id]];
    }
    ListedIsLists(listed, m);
  }

  lemma ListedIsLists(listed: seq<Job>, m: map<JobId, Job>)
    requires DistinctJobs(listed) && (forall id :: id in m ==> m[id].id == id)
    requires forall j :: j in listed <==> j.id in m && m[j.id] == j
    ensures Lists(listed, m)
  {
    forall id | id in m
      ensures exists i :: 0 <= i < |listed| && listed[i].id == id
    {
      assert m[id] in listed;
    }
  }

  /** The last record of every job of the log, oldest job first. */
  ghost predicate LoadedList(listed: seq<Job>, log: seq<Job>) {
    Lists(listed, Latest(log)) && SortedBy(listed, OlderFirst)
  }

  lemma SortedLists(s: seq<Job>, r: seq<Job>, m: map<JobId, Job>)
    requires Lists(s, m) && multiset(s) == multiset(r)
    ensures Lists(r, m)
  {
    SameElements(s, r);
    assert DistinctJobs(s);
    DistinctPermuted(s, r);
    forall i | 0 <= i < |r|
      ensures r[i].id in m && m[r[i].id] == r[i]
    {
      assert r[i] in s;
    }
    forall id | id in m
      ensures exists i :: 0 <= i < |r| && r[i].id == id
    {
      var i :| 0 <= i < |s| && s[i].id == id;
      assert s[i] in r;
    }
  }

  /** `latest_jobs`: the last record of every job of the intact part, oldest job first. */
  method LatestJobs(c: Codec, blob: Blob) returns (r: Result<seq<Job>>)
    ensures r.Ok? <==> Parse(c, blob, 0, false).Stop?
    ensures r.Ok? ==> LoadedList(r.value, Parse(c, blob, 0, false).jobs)
    ensures r.Err? ==> r.error == CorruptIndex
  {
    hide Parse, Latest, Sort, Lists, TotalPreorder;
    var latest := ScanLatest(c, blob);
    if latest.Err? {
      return Err(latest.error);
    }
    var listed := Listed(latest.value);
    OrdersAreTotal();
    var output := Sort(listed, OlderFirst);
    SortSorted(listed, OlderFirst);
    SortedLists(listed, output, latest.value);
    return Ok(output);
  }

  /** Loading after any number of crashes gives the last surviving record of every job. */
  method LoadAfterCrashes(c: Codec, file: Blob, ghost rounds: seq<Round>) returns (r: Result<seq<Job>>)
    requires CodecOk(c) && FileAfter(c, rounds) == Some(file)
    requires forall x :: x in rounds ==> AllStorable(c, x.appended)
    ensures r.Ok? && LoadedList(r.value, RecordsAfter(c, rounds))
  {
    hide Parse, Latest, FileAfter, RecordsAfter, LoadedList;
    RoundsLoad(c, rounds);
    r := LatestJobs(c, file);
  }

  // -------------------------------------------------------------------- ordering

  predicate OlderFirst(a: Job, b: Job) {
    a.createdAt < b.createdAt || (a.createdAt == b.createdAt && KeyLeq(a.id, b.id))
  }

  predicate NewerFirst(a: Job, b: Job) {
    a.updatedAt > b.updatedAt || (a.updatedAt == b.updatedAt && KeyLeq(b.id, a.id))
  }

  lemma OrdersAreTotal()
    ensures TotalPreorder(OlderFirst) && TotalPreorder(NewerFirst)
  {
    forall a, b
      ensures (OlderFirst(a, b) || OlderFirst(b, a)) && (NewerFirst(a, b) || NewerFirst(b, a))
    {
      KeyTotal(a.id, b.id);
    }
    forall a, b, c | OlderFirst(a, b) && OlderFirst(b, c)
      ensures OlderFirst(a, c)
    {
      if KeyLeq(a.id, b.id) && KeyLeq(b.id, c.id) { KeyTransitive(a.id, b.id, c.id); }
    }
    forall a, b, c | NewerFirst(a, b) && NewerFirst(b, c)
      ensures NewerFirst(a, c)
    {
      if KeyLeq(c.id, b.id) && KeyLeq(b.id, a.id) { KeyTransitive(c.id, b.id, a.id); }
    }
  }

  // ------------------------------------------------------------------- retention

  datatype Retention = Retention(maxTerminalJobs: nat, maxTerminalBytes: nat)

  function FrameBytes(c: Codec, jobs: seq<Job>): nat { |Log(c, jobs)| }

  /** The terminal history a cut keeps: newest first, each job that still fits both budgets. */
  function Retained(c: Codec, terminals: seq<Job>, limit: Retention): (kept: seq<Job>)
    ensures |kept| <= limit.maxTerminalJobs && FrameBytes(c, kept) <= limit.maxTerminalBytes
    ensures forall j :: j in kept ==> j in terminals
  {
    if terminals == [] then []
    else
      var n := |terminals| - 1;
      var kept := Retained(c, terminals[..n], limit);
      if |kept| < limit.maxTerminalJobs && |Frame(c, terminals[n])| <= limit.maxTerminalBytes - FrameBytes(c, kept) then
        LogAppend(c, kept, [terminals[n]]);
        assert Log(c, [terminals[n]]) == Frame(c, terminals[n]) + Log(c, []);
        kept + [terminals[n]]
      else kept
  }

  lemma AppendDistinct(s: seq<Job>, x: Job)
    requires DistinctJobs(s) && forall j :: j in s ==> j.id != x.id
    ensures DistinctJobs(s + [x])
  {
    var next := s + [x];
    forall i, j | 0 <= i < j < |next|
      ensures next[i].id != next[j].id
    {
      assert next[i] == s[i] && s[i] in s;
      assert j < |s| ==> next[j] == s[j];
    }
  }

  lemma {:induction false} RetainedDistinct(c: Codec, terminals: seq<Job>, limit: Retention)
    requires DistinctJobs(terminals)
    ensures DistinctJobs(Retained(c, terminals, limit))
  {
    if terminals != [] {
      var n := |terminals| - 1;
      RetainedDistinct(c, terminals[..n], limit);
      var kept := Retained(c, terminals[..n], limit);
      forall j | j in kept
        ensures j.id != terminals[n].id
      {
        assert j in terminals[..n];
      }
      AppendDistinct(kept, terminals[n]);
    }
  }

  /** Nothing is dropped while both budgets still have room for everything. */
  lemma {:induction false} RetainedAll(c: Codec, terminals: seq<Job>, limit: Retention)
    requires |terminals| <= limit.maxTerminalJobs && FrameBytes(c, terminals) <= limit.maxTerminalBytes
    ensures Retained(c, terminals, limit) == terminals
  {
    if terminals != [] {
      var n := |terminals| - 1;
      assert terminals == terminals[..n] + [terminals[n]];
      LogAppend(c, terminals[..n], [terminals[n]]);
      assert Log(c, [terminals[n]]) == Frame(c, terminals[n]) + Log(c, []);
      RetainedAll(c, terminals[..n], limit);
    }
  }

  /** The greedy loop over the sorted terminal jobs. */
  method Retain(c: Codec, terminals: seq<Job>, limit: Retention) returns (kept: seq<Job>)
    ensures kept == Retained(c, terminals, limit)
  {
    kept := [];
    var bytes := 0;
    var i := 0;
    while i < |terminals|
      invariant 0 <= i <= |terminals|
      invariant kept == Retained(c, terminals[..i], limit) && bytes == FrameBytes(c, kept)
    {
      if |kept| >= limit.maxTerminalJobs {
        RetainedFull(c, terminals, i, limit);
        return;
      }
      var frame := Frame(c, terminals[i]);
      assert terminals[..i + 1][..i] == terminals[..i];
      LogAppend(c, kept, [terminals[i]]);
      assert Log(c, [terminals[i]]) == frame + Log(c, []);
      if |frame| <= limit.maxTerminalBytes - bytes {
        bytes := bytes + |frame|;
        kept := kept + [terminals[i]];
      }
      i := i + 1;
    }
    assert terminals[..|terminals|] == terminals;
  }

  lemma {:induction false} RetainedFull(c: Codec, terminals: seq<Job>, i: nat, limit: Retention)
    requires i <= |terminals| && |Retained(c, terminals[..i], limit)| >= limit.maxTerminalJobs
    ensures Retained(c, terminals, limit) == Retained(c, terminals[..i], limit)
  {
    hide Frame, FrameBytes;
    if i < |terminals| {
      var n := |terminals| - 1;
      assert terminals[..n][..i] == terminals[..i];
      RetainedFull(c, terminals[..n], i, limit);
    } else {
      assert terminals[..i] == terminals;
    }
  }

  /** Separates unfinished from terminal jobs. */
  method SplitByStatus(listed: seq<Job>, ghost latest: map<JobId, Job>) returns (unfinished: seq<Job>, terminals: seq<Job>)
    requires Lists(listed, latest)
    ensures DistinctJobs(unfinished) && DistinctJobs(terminals)
    ensures forall j :: j in unfinished <==> j in latest.Values && !Terminal(j.status)
    ensures forall j :: j in terminals <==> j in latest.Values && Terminal(j.status)
  {
    unfinished, terminals := [], [];
    for i := 0 to |listed|
      invariant DistinctJobs(unfinished) && DistinctJobs(terminals)
      invariant IsPart(unfinished, listed[..i], false) && IsPart(terminals, listed[..i], true)
    {
      hide DistinctJobs, IsPart;
      var job := listed[i];
      assert listed[..i + 1] == listed[..i] + [job];
      EarlierDiffer(listed, i);
      PartNext(unfinished, terminals, listed[..i], job);
      if Terminal(job.status) {
        terminals := terminals + [job];
      } else {
        unfinished := unfinished + [job];
      }
    }
    assert listed[..|listed|] == listed;
    ListedAreValues(listed, latest);
  }

  /** `part` has the jobs of `all` that are terminal, or those that are not. */
  ghost predicate IsPart(part: seq<Job>, all: seq<Job>, terminal: bool) {
    forall j :: j in part <==> j in all && Terminal(j.status) == terminal
  }

  lemma PartNext(unfinished: seq<Job>, terminals: seq<Job>, all: seq<Job>, x: Job)
    requires DistinctJobs(unfinished) && DistinctJobs(terminals) && forall j :: j in all ==> j.id != x.id
    requires IsPart(unfinished, all, false) && IsPart(terminals, all, true)
    ensures Terminal(x.status) ==> DistinctJobs(terminals + [x]) && IsPart(terminals + [x], all + [x], true) && IsPart(unfinished, all + [x], false)
    ensures !Terminal(x.status) ==> DistinctJobs(unfinished + [x]) && IsPart(unfinished + [x], all + [x], false) && IsPart(terminals, all + [x], true)
  {
    if Terminal(x.status) {
      AppendDistinct(terminals, x);
    } else {
      AppendDistinct(unfinished, x);
    }
  }

  lemma EarlierDiffer(listed: seq<Job>, i: nat)
    requires DistinctJobs(listed) && i < |listed|
    ensures forall j :: j in listed[..i] ==> j.id != listed[i].id
  {
  }

  lemma ListedAreValues(listed: seq<Job>, m: map<JobId, Job>)
    requires Lists(listed, m)
    ensures forall j :: j in listed <==> j in m.Values
  {
    forall j | j in m.Values
      ensures j in listed
    {
      var id :| id in m && m[id] == j;
      var i :| 0 <= i < |listed| && listed[i].id == id;
    }
  }

  lemma DistinctPermuted(s: seq<Job>, r: seq<Job>)
    requires multiset(s) == multiset(r) && DistinctJobs(s)
    ensures DistinctJobs(r)
  {
    forall i, j | 0 <= i < j < |r|
      ensures r[i].id != r[j].id
    {
      SameElements(s, r);
      assert r[i] in s && r[j] in s;
      assert Distinct(s);
      MultisetDistinct(s, r);
    }
  }

  lemma ConcatDistinct(a: seq<Job>, b: seq<Job>)
    requires DistinctJobs(a) && DistinctJobs(b) && forall x, y :: x in a && y in b ==> x.id != y.id
    ensures DistinctJobs(a + b)
  {
    forall i, j | 0 <= i < j < |a + b|
      ensures (a + b)[i].id != (a + b)[j].id
    {
      if i < |a| <= j {
        assert a[i] in a && b[j - |a|] in b;
      }
    }
  }

  /** What is written in place of a prefix is a legal cut of it. */
  lemma SelectionCuts(prefix: seq<Job>, unfinished: seq<Job>, terminals: seq<Job>, kept: seq<Job>, selected: seq<Job>)
    requires var latest := Latest(prefix);
      (forall j :: j in unfinished <==> j in latest.Values && !Terminal(j.status)) &&
      (forall j :: j in terminals <==> j in latest.Values && Terminal(j.status))
    requires DistinctJobs(unfinished) && DistinctJobs(kept) && forall j :: j in kept ==> j in terminals
    requires multiset(selected) == multiset(unfinished + kept)
    ensures CutOf(prefix, selected)
  {
    hide Latest;
    var latest := Latest(prefix);
    ConcatDistinct(unfinished, kept);
    DistinctPermuted(unfinished + kept, selected);
    SameElements(selected, unfinished + kept);
    forall i | 0 <= i < |selected|
      ensures selected[i].id in latest && latest[selected[i].id] == selected[i]
    {
      assert selected[i] in unfinished + kept;
      assert selected[i] in latest.Values;
    }
    forall id | id in latest && !Terminal(latest[id].status)
      ensures latest[id] in selected
    {
      assert latest[id] in unfinished;
    }
  }

  // --------------------------------------------------------- what a cut preserves

  lemma {:induction false} LatestConcat(a: seq<Job>, b: seq<Job>)
    ensures Latest(a + b) == Latest(a) + Latest(b)
  {
    hide Latest;
    if b == [] {
      assert a + b == a;
      LatestNothing();
    } else {
      var rest, last := b[..|b| - 1], b[|b| - 1];
      LatestConcat(a, rest);
      LatestLast(a, rest, last);
      assert b == rest + [last];
    }
  }

  lemma LatestLast(a: seq<Job>, rest: seq<Job>, last: Job)
    requires Latest(a + rest) == Latest(a) + Latest(rest)
    ensures Latest(a + (rest + [last])) == Latest(a) + Latest(rest + [last])
  {
    hide Latest;
    LatestAppend(a + rest, last);
    LatestAppend(rest, last);
    assert a + (rest + [last]) == (a + rest) + [last];
    MergeUpdate(Latest(a), Latest(rest), last);
  }

  lemma MergeUpdate(m: map<JobId, Job>, n: map<JobId, Job>, j: Job)
    ensures (m + n)[j.id := j] == m + n[j.id := j]
  {
  }

  lemma LatestOfCut(prefix: seq<Job>, kept: seq<Job>, id: JobId)
    requires CutOf(prefix, kept) && id in Latest(kept)
    ensures id in Latest(prefix) && Latest(kept)[id] == Latest(prefix)[id]
  {
    var j := Latest(kept)[id];
    assert j in kept;
  }

  /** After a cut every job the log still knows has the state it had before; a job it no longer
      knows was terminal at the cut and has no newer record. */
  lemma CutPreserves(prefix: seq<Job>, kept: seq<Job>, tail: seq<Job>, id: JobId)
    requires CutOf(prefix, kept)
    ensures var before, after := Latest(prefix + tail), Latest(kept + tail);
      (id in after ==> id in before && after[id] == before[id]) &&
      (id in before && id !in after ==>
        id in Latest(prefix) && Terminal(Latest(prefix)[id].status) && forall j :: j in tail ==> j.id != id)
  {
    LatestConcat(prefix, tail);
    LatestConcat(kept, tail);
    if id in Latest(kept) {
      LatestOfCut(prefix, kept, id);
    }
    if id in Latest(prefix) && !Terminal(Latest(prefix)[id].status) {
      assert Latest(prefix)[id] in kept;
    }
  }

  /** The terminal jobs among `kept` fit both retention budgets. */
  ghost predicate WithinBudget(c: Codec, kept: seq<Job>, limit: Retention) {
    exists history ::
      |history| <= limit.maxTerminalJobs && FrameBytes(c, history) <= limit.maxTerminalBytes &&
      forall j :: j in kept && Terminal(j.status) ==> j in history
  }

  // ------------------------------------------------------- which finished jobs a cut keeps

  /** Updated later, or at the same time under a greater id. */
  predicate IsNewer(a: Job, b: Job) {
    a.updatedAt > b.updatedAt || (a.updatedAt == b.updatedAt && a.id != b.id && KeyLeq(b.id, a.id))
  }

  /** The finished jobs of a list that are newer than `x`. */
  function Newer(jobs: seq<Job>, x: Job): (r: seq<Job>)
    ensures forall j :: j in r <==> j in jobs && Terminal(j.status) && IsNewer(j, x)
  {
    if jobs == [] then []
    else
      var n := |jobs| - 1;
      var rest := Newer(jobs[..n], x);
      if Terminal(jobs[n].status) && IsNewer(jobs[n], x) then rest + [jobs[n]] else rest
  }

  /** There is room for a finished job beside the newer ones kept. */
  predicate HasRoom(c: Codec, kept: seq<Job>, x: Job, limit: Retention) {
    |Newer(kept, x)| < limit.maxTerminalJobs && FrameBytes(c, Newer(kept, x)) + |Frame(c, x)| <= limit.maxTerminalBytes
  }

  /** A finished job of the prefix is kept exactly when there is room for it beside the newer ones kept. */
  ghost predicate KeepsHistory(c: Codec, prefix: seq<Job>, kept: seq<Job>, limit: Retention) {
    forall x :: x in Latest(prefix).Values && Terminal(x.status) ==> (x in kept <==> HasRoom(c, kept, x, limit))
  }

  lemma NewerNext(jobs: seq<Job>, y: Job, x: Job)
    ensures Newer(jobs + [y], x) == if Terminal(y.status) && IsNewer(y, x) then Newer(jobs, x) + [y] else Newer(jobs, x)
  {
    assert (jobs + [y])[..|jobs|] == jobs;
  }

  lemma {:induction false} AllNewer(jobs: seq<Job>, x: Job)
    requires forall j :: j in jobs ==> Terminal(j.status) && IsNewer(j, x)
    ensures Newer(jobs, x) == jobs
  {
    if jobs != [] {
      var n := |jobs| - 1;
      assert jobs[n] in jobs && forall j :: j in jobs[..n] ==> j in jobs;
      AllNewer(jobs[..n], x);
      assert jobs == jobs[..n] + [jobs[n]];
    }
  }

  /** Of two different jobs the sort puts the newer one first. */
  lemma SortedNewer(a: Job, b: Job)
    requires NewerFirst(a, b) && a.id != b.id
    ensures IsNewer(a, b) && !IsNewer(b, a)
  {
    KeyTotal(a.id, b.id);
  }

  lemma LastIsOldest(terminals: seq<Job>)
    requires terminals != [] && DistinctJobs(terminals) && SortedBy(terminals, NewerFirst)
    ensures var n := |terminals| - 1;
      forall j :: j in terminals[..n] ==> j.id != terminals[n].id && IsNewer(j, terminals[n]) && !IsNewer(terminals[n], j)
  {
    var n := |terminals| - 1;
    forall j | j in terminals[..n]
      ensures j.id != terminals[n].id && IsNewer(j, terminals[n]) && !IsNewer(terminals[n], j)
    {
      var i :| 0 <= i < n && terminals[i] == j;
      SortedNewer(j, terminals[n]);
    }
  }

  /** The greedy choice in terms of room alone. */
  lemma {:induction false} RetainedIff(c: Codec, terminals: seq<Job>, limit: Retention, x: Job)
    requires DistinctJobs(terminals) && SortedBy(terminals, NewerFirst) && (forall j :: j in terminals ==> Terminal(j.status))
    requires x in terminals
    ensures x in Retained(c, terminals, limit) <==> HasRoom(c, Retained(c, terminals, limit), x, limit)
  {
    hide Frame, FrameBytes, NewerFirst, IsNewer, KeyLeq;
    var n := |terminals| - 1;
    var front, last := terminals[..n], terminals[n];
    assert terminals == front + [last];
    LastIsOldest(terminals);
    var kept := Retained(c, front, limit);
    if x == last {
      AllNewer(kept, last);
      NewerNext(kept, last, last);
      NotNewer(last);
    } else {
      RetainedIff(c, front, limit, x);
      NewerNext(kept, last, x);
    }
  }

  lemma NotNewer(x: Job)
    ensures !IsNewer(x, x)
  {
  }

  lemma {:induction false} NewerDistinct(jobs: seq<Job>, x: Job)
    requires DistinctJobs(jobs)
    ensures DistinctJobs(Newer(jobs, x))
  {
    hide IsNewer;
    if jobs != [] {
      var n := |jobs| - 1;
      NewerDistinct(jobs[..n], x);
      EarlierDiffer(jobs, n);
      if Terminal(jobs[n].status) && IsNewer(jobs[n], x) {
        AppendDistinct(Newer(jobs[..n], x), jobs[n]);
      }
    }
  }

  lemma FrameBytesNext(c: Codec, jobs: seq<Job>, x: Job)
    ensures FrameBytes(c, jobs + [x]) == FrameBytes(c, jobs) + |Frame(c, x)|
  {
    LogAppend(c, jobs, [x]);
    assert Log(c, [x]) == Frame(c, x) + Log(c, []);
  }

  lemma FrameBytesWithout(c: Codec, jobs: seq<Job>, i: nat)
    requires i < |jobs|
    ensures FrameBytes(c, jobs[..i] + jobs[i + 1..]) + |Frame(c, jobs[i])| == FrameBytes(c, jobs)
  {
    hide Frame, Log;
    FrameBytesNext(c, jobs[..i], jobs[i]);
    LogAppend(c, jobs[..i], jobs[i + 1..]);
    LogAppend(c, jobs[..i] + [jobs[i]], jobs[i + 1..]);
    assert jobs == jobs[..i] + [jobs[i]] + jobs[i + 1..];
  }

  /** Some of the jobs of a list are no more than all of them, in number and in bytes. */
  lemma {:induction false} SomeFit(c: Codec, some: seq<Job>, all: seq<Job>)
    requires DistinctJobs(some) && forall j :: j in some ==> j in all
    ensures |some| <= |all| && FrameBytes(c, some) <= FrameBytes(c, all)
    decreases |some|
  {
    hide Frame, Log;
    if some == [] {
      assert Log(c, []) == [] by { NoFrames(c); }
    } else {
      var n := |some| - 1;
      assert some[n] in some && forall j :: j in some[..n] ==> j in some;
      var i :| 0 <= i < |all| && all[i] == some[n];
      var rest := all[..i] + all[i + 1..];
      FrameBytesWithout(c, all, i);
      EarlierDiffer(some, n);
      forall j | j in some[..n]
        ensures j in rest
      {
        var k :| 0 <= k < |all| && all[k] == j;
        assert k < i ==> rest[k] == j;
        assert k > i ==> rest[k - 1] == j;
      }
      SomeFit(c, some[..n], rest);
      FrameBytesNext(c, some[..n], some[n]);
      assert some == some[..n] + [some[n]];
    }
  }

  lemma NoFrames(c: Codec)
    ensures Log(c, []) == []
  {
  }

  /** Room depends on which jobs are kept, and not on their order. */
  lemma SameRoom(c: Codec, a: seq<Job>, b: seq<Job>, x: Job, limit: Retention)
    requires DistinctJobs(a) && DistinctJobs(b) && forall j: Job :: Terminal(j.status) ==> (j in a <==> j in b)
    ensures HasRoom(c, a, x, limit) <==> HasRoom(c, b, x, limit)
  {
    hide IsNewer, Frame, FrameBytes;
    NewerDistinct(a, x);
    NewerDistinct(b, x);
    SomeFit(c, Newer(a, x), Newer(b, x));
    SomeFit(c, Newer(b, x), Newer(a, x));
  }

  /** What the sorted choice keeps, seen from the prefix. */
  lemma HistoryKept(c: Codec, prefix: seq<Job>, newest: seq<Job>, kept: seq<Job>, limit: Retention)
    requires DistinctJobs(newest) && SortedBy(newest, NewerFirst) && DistinctJobs(kept)
    requires forall j :: j in newest <==> j in Latest(prefix).Values && Terminal(j.status)
    requires forall j: Job :: Terminal(j.status) ==> (j in kept <==> j in Retained(c, newest, limit))
    ensures KeepsHistory(c, prefix, kept, limit)
  {
    hide Latest, Retained, HasRoom, DistinctJobs;
    forall x | x in Latest(prefix).Values && Terminal(x.status)
      ensures x in kept <==> HasRoom(c, kept, x, limit)
    {
      RetainedIff(c, newest, limit, x);
      RetainedDistinct(c, newest, limit);
      SameRoom(c, kept, Retained(c, newest, limit), x, limit);
    }
  }

  /** All finished jobs of the prefix fit both budgets together. */
  ghost predicate HistoryFits(c: Codec, prefix: seq<Job>, limit: Retention) { exists all :: FitTogether(c, prefix, limit, all) }

  ghost predicate FitTogether(c: Codec, prefix: seq<Job>, limit: Retention, all: seq<Job>) {
    (forall j :: j in all <==> j in Latest(prefix).Values && Terminal(j.status)) &&
    |all| <= limit.maxTerminalJobs && FrameBytes(c, all) <= limit.maxTerminalBytes
  }

  ghost predicate KeepsFinished(prefix: seq<Job>, kept: seq<Job>) {
    forall x :: x in Latest(prefix).Values && Terminal(x.status) ==> x in kept
  }

  /** While all finished jobs fit both budgets, every one of them is kept. */
  lemma AllHistoryKept(c: Codec, prefix: seq<Job>, kept: seq<Job>, limit: Retention)
    requires CutOf(prefix, kept) && KeepsHistory(c, prefix, kept, limit) && HistoryFits(c, prefix, limit)
    ensures KeepsFinished(prefix, kept)
  {
    var finished :| FitTogether(c, prefix, limit, finished);
    hide Latest, FrameBytes, HasRoom, KeepsHistory, CutOf;
    forall x | x in Latest(prefix).Values && Terminal(x.status)
      ensures x in kept
    {
      OneHistoryKept(c, prefix, kept, limit, finished, x);
    }
  }

  lemma FitsAll(c: Codec, prefix: seq<Job>, kept: seq<Job>, limit: Retention)
    requires CutOf(prefix, kept) && KeepsHistory(c, prefix, kept, limit)
    ensures HistoryFits(c, prefix, limit) ==> KeepsFinished(prefix, kept)
  {
    hide CutOf, KeepsHistory, HistoryFits, KeepsFinished;
    if HistoryFits(c, prefix, limit) {
      AllHistoryKept(c, prefix, kept, limit);
    }
  }

  lemma OneHistoryKept(c: Codec, prefix: seq<Job>, kept: seq<Job>, limit: Retention, finished: seq<Job>, x: Job)
    requires CutOf(prefix, kept) && KeepsHistory(c, prefix, kept, limit) && FitTogether(c, prefix, limit, finished) && x in finished
    ensures x in kept
  {
    hide Latest, IsNewer, Frame, FrameBytes, CutOf, DistinctJobs;
    var newer := Newer(kept, x);
    KeptAreFinished(prefix, kept);
    NewerDistinct(kept, x);
    NotNewer(x);
    forall j | j in newer
      ensures j.id != x.id && j in finished
    {
      if j.id == x.id {
        SameIdSame(prefix, j, x);
      }
    }
    AppendDistinct(newer, x);
    SomeFit(c, newer + [x], finished);
    FrameBytesNext(c, newer, x);
  }

  lemma KeptAreFinished(prefix: seq<Job>, kept: seq<Job>)
    requires CutOf(prefix, kept)
    ensures DistinctJobs(kept) && forall j :: j in kept ==> j in Latest(prefix).Values
  {
    hide Latest;
  }

  lemma SameIdSame(prefix: seq<Job>, a: Job, b: Job)
    requires a in Latest(prefix).Values && b in Latest(prefix).Values && a.id == b.id
    ensures a == b
  {
  }

  /** The records a cut writes: every unfinished job, and the retained history, oldest first. */
  method Compact(c: Codec, prefix: Blob, ghost records: seq<Job>, limit: Retention)
    returns (compacted: Blob, ghost kept: seq<Job>)
    requires CodecOk(c) && AllStorable(c, records) && prefix == Log(c, records) && !TooMany(0, |records|)
    ensures compacted == Log(c, kept) && CutOf(records, kept) && SortedBy(kept, OlderFirst)
    ensures forall j :: j in kept ==> j in records
    ensures WithinBudget(c, kept, limit) && KeepsHistory(c, records, kept, limit)
  {
    ParseLog(c, records, [], 0, false);
    assert Log(c, records) + [] == Log(c, records);
    hide Parse, Latest, CutOf, Log, Sort, Retained, Storable, TotalPreorder, FrameBytes, KeepsHistory, NewerFirst, OlderFirst;
    var latest := LatestJobs(c, prefix);
    var unfinished, terminals := SplitByStatus(latest.value, Latest(records));
    OrdersAreTotal();
    var newest := Sort(terminals, NewerFirst);
    var history := Retain(c, newest, limit);
    assert WithinBudget(c, history, limit);
    DistinctPermuted(terminals, newest);
    SameElements(terminals, newest);
    RetainedDistinct(c, newest, limit);
    var selected := Sort(unfinished + history, OlderFirst);
    SortSorted(unfinished + history, OlderFirst);
    SelectionCuts(records, unfinished, terminals, history, selected);
    SameElements(selected, unfinished + history);
    CutWithin(records, selected);
    compacted := WriteAll(c, selected);
    kept := selected;
    assert forall j :: j in kept && Terminal(j.status) ==> j in history;
    SortSorted(terminals, NewerFirst);
    ConcatDistinct(unfinished, history);
    DistinctPermuted(unfinished + history, selected);
    HistoryKept(c, records, newest, selected, limit);
  }

  lemma CutWithin(records: seq<Job>, kept: seq<Job>)
    requires CutOf(records, kept)
    ensures forall j :: j in kept ==> j in records
  {
    forall j | j in kept
      ensures j in records
    {
      assert Latest(records)[j.id] == j;
    }
  }

  method WriteAll(c: Codec, jobs: seq<Job>) returns (blob: Blob)
    ensures blob == Log(c, jobs)
  {
    blob := [];
    for i := 0 to |jobs|
      invariant blob == Log(c, jobs[..i])
    {
      assert jobs[..i + 1] == jobs[..i] + [jobs[i]];
      LogAppend(c, jobs[..i], [jobs[i]]);
      assert Log(c, [jobs[i]]) == Frame(c, jobs[i]) + Log(c, []);
      blob := blob + Frame(c, jobs[i]);
    }
    assert jobs[..|jobs|] == jobs;
  }

  /** Bytes that are read whole end at a frame boundary. */
  lemma ReadsBoundary(c: Codec, records: seq<Job>, position: nat) returns (k: nat)
    requires CodecOk(c) && AllStorable(c, records) && !TooMany(0, |records|) && position <= |Log(c, records)|
    ensures k <= |records|
    ensures Parse(c, Log(c, records)[..position], 0, true).Stop? && Parse(c, Log(c, records)[..position], 0, true).end == position
            ==> position == |Log(c, records[..k])|
    ensures position == |Log(c, records[..k])| ==>
      Log(c, records) == Log(c, records[..k]) + Log(c, records[k..]) && Log(c, records)[..position] == Log(c, records[..k])
  {
    hide Parse;
    var tail := CutSurvives(c, records, position);
    k := Survivors(c, records, position);
    ParseLog(c, records[..k], tail, 0, true);
    LogAppend(c, records[..k], records[k..]);
    assert records[..k] + records[k..] == records;
  }

  /** Every frame boundary is read as one. */
  lemma BoundaryReads(c: Codec, records: seq<Job>, n: nat)
    requires CodecOk(c) && AllStorable(c, records) && !TooMany(0, |records|) && n <= |records|
    ensures var at := |Log(c, records[..n])|;
      at <= |Log(c, records)| && Parse(c, Log(c, records)[..at], 0, true) == Stop(at, records[..n])
  {
    hide Parse;
    LogAppend(c, records[..n], records[n..]);
    assert records[..n] + records[n..] == records;
    WholeLog(c, records[..n], true);
    assert Log(c, records)[..|Log(c, records[..n])|] == Log(c, records[..n]);
  }

  /** Whether `position` lies between two frames. */
  ghost predicate Boundary(c: Codec, records: seq<Job>, position: nat) {
    exists n :: 0 <= n <= |records| && position == |Log(c, records[..n])|
  }

  /** A position of a log is a frame boundary exactly when reading the bytes before it consumes them all. */
  lemma BoundaryIff(c: Codec, records: seq<Job>, position: nat)
    requires CodecOk(c) && AllStorable(c, records) && !TooMany(0, |records|) && position <= |Log(c, records)|
    ensures Boundary(c, records, position) <==>
            var p := Parse(c, Log(c, records)[..position], 0, true); p.Stop? && p.end == position
  {
    hide Parse;
    var p := Parse(c, Log(c, records)[..position], 0, true);
    if p.Stop? && p.end == position {
      var k := ReadsBoundary(c, records, position);
    }
    if Boundary(c, records, position) {
      var n :| 0 <= n <= |records| && position == |Log(c, records[..n])|;
      BoundaryReads(c, records, n);
    }
  }

  lemma NotBoundary(c: Codec, records: seq<Job>, position: nat)
    requires CodecOk(c) && AllStorable(c, records) && !TooMany(0, |records|)
    requires position <= |Log(c, records)| ==>
      var p := Parse(c, Log(c, records)[..position], 0, true); p.Corrupt? || p.end != position
    ensures !Boundary(c, records, position)
  {
    hide Parse;
    forall n | 0 <= n <= |records|
      ensures position != |Log(c, records[..n])|
    {
      BoundaryReads(c, records, n);
    }
  }

  lemma WholeLog(c: Codec, records: seq<Job>, repair: bool)
    requires CodecOk(c) && AllStorable(c, records)
    ensures Parse(c, Log(c, records), 0, repair) ==
            if TooMany(0, |records|) then Corrupt else Stop(|Log(c, records)|, records)
  {
    hide Parse;
    ParseLog(c, records, [], 0, repair);
    assert Log(c, records) + [] == Log(c, records);
  }

  /** A cut at position zero changes nothing. */
  lemma CutNothing(c: Codec, records: seq<Job>, k: nat, limit: Retention)
    requires k <= |records| && |Log(c, records[..k])| == 0
    ensures k == 0 && CutOf(records[..k], []) && WithinBudget(c, [], limit) && [] + records[k..] == records
    ensures KeepsHistory(c, records[..k], [], limit)
  {
    assert k > 0 ==> |Log(c, records[..k])| >= |Frame(c, records[..k][0])|;
    assert Log(c, []) == [];
    var history: seq<Job> := [];
    assert |history| <= limit.maxTerminalJobs && FrameBytes(c, history) <= limit.maxTerminalBytes;
  }

  class AppendOnlyJobStore {
    const codec: Codec
    var file: Blob
    var bytes: nat
    ghost var records: seq<Job>

    ghost predicate Valid()
      reads this
    {
      CodecOk(codec) && AllStorable(codec, records) && file == Log(codec, records) && bytes == |file|
    }

    constructor (codec: Codec)
      requires CodecOk(codec)
      ensures this.codec == codec && Valid() && records == []
    {
      this.codec := codec;
      file, bytes, records := [], 0, [];
    }

    /** Opening repairs the tail a crash has torn, or a last frame that does not check, and keeps every whole record before
        it; damage anywhere else is refused. */
    method OpenFile(blob: Blob, ghost whole: seq<Job>, ghost tail: Blob) returns (r: Result<()>)
      requires Valid() && AllStorable(codec, whole) && blob == Log(codec, whole) + tail
      requires TornTail(codec, tail) || BadEnd(codec, tail, true) || Damage(codec, tail, true)
      modifies this
      ensures Valid() && (r.Err? <==> TooMany(0, |whole| + Headers(tail)) || Damage(codec, tail, true))
      ensures records == if r.Ok? then whole else old(records)
      ensures r.Err? ==> file == old(file) && r.error == CorruptIndex
    {
      hide Parse, Damage, BadEnd, TornTail;
      ParseEnd(codec, whole, tail, 0, true);
      var intact := ValidPrefix(codec, blob);
      if intact.Err? {
        return Err(CorruptIndex);
      }
      file := if intact.value < |blob| then blob[..intact.value] else blob;
      bytes := intact.value;
      records := whole;
      return Ok(());
    }

    method Persist(job: Job) returns (r: Result<()>)
      requires Valid() && codec.decode(codec.encode(job)) == Some(job)
      modifies this
      ensures Valid()
      ensures r.Ok? <==> |codec.encode(job)| <= MAX_RECORD_BYTES
      ensures records == if r.Ok? then old(records) + [job] else old(records)
      ensures r.Err? ==> file == old(file) && r.error == InvalidArgument
    {
      var payload := codec.encode(job);
      if |payload| > MAX_RECORD_BYTES {
        return Err(InvalidArgument);
      }
      var frame := Frame(codec, job);
      LogAppend(codec, records, [job]);
      assert Log(codec, [job]) == frame + Log(codec, []);
      file := file + frame;
      bytes := bytes + |frame|;
      records := records + [job];
      return Ok(());
    }

    method LoadLatest() returns (r: Result<seq<Job>>)
      requires Valid()
      ensures r.Err? <==> TooMany(0, |records|)
      ensures r.Ok? ==> LoadedList(r.value, records)
      ensures r.Err? ==> r.error == CorruptIndex
    {
      hide Parse, Latest, LoadedList;
      WholeLog(codec, records, false);
      r := LatestJobs(codec, file);
    }

    /** Whether `position` is a frame boundary of the file, and after how many records. */
    method Locate(position: nat) returns (r: Result<()>, ghost k: nat)
      requires Valid()
      ensures r.Ok? <==> !TooMany(0, |records|) && Boundary(codec, records, position)
      ensures r.Ok? ==> position <= |file| && k <= |records| && file == Log(codec, records[..k]) + Log(codec, records[k..])
      ensures r.Ok? ==> position == |Log(codec, records[..k])| && file[..position] == Log(codec, records[..k])
      ensures r.Err? ==> r.error == if TooMany(0, |records|) then CorruptIndex else InvalidArgument
    {
      hide Parse;
      k := 0;
      WholeLog(codec, records, true);
      var intact := ValidPrefix(codec, file);
      if intact.Err? {
        return Err(CorruptIndex), k;
      }
      if position > intact.value {
        NotBoundary(codec, records, position);
        return Err(InvalidArgument), k;
      }
      var prefix := ValidPrefix(codec, file[..position]);
      if prefix.Err? || prefix.value != position {
        NotBoundary(codec, records, position);
        return Err(InvalidArgument), k;
      }
      k := ReadsBoundary(codec, records, position);
      return Ok(()), k;
    }

    /** Cutting a represented prefix: refused unless the position is a frame boundary; otherwise the
        prefix is replaced by a legal cut of it within the retention budgets, and every newer record
        stays. */
    method TruncatePrefix(position: nat, limit: Retention) returns (r: Result<()>, ghost k: nat, ghost kept: seq<Job>)
      requires Valid()
      modifies this
      ensures Valid()
      ensures r.Err? ==> file == old(file) && records == old(records)
      ensures r.Ok? <==> !TooMany(0, |old(records)|) && Boundary(codec, old(records), position)
      ensures r.Ok? ==> k <= |old(records)| && position == |Log(codec, old(records)[..k])|
      ensures r.Ok? ==> records == kept + old(records)[k..] && CutOf(old(records)[..k], kept)
      ensures r.Ok? ==> WithinBudget(codec, kept, limit) && KeepsHistory(codec, old(records)[..k], kept, limit)
      ensures r.Ok? && HistoryFits(codec, old(records)[..k], limit) ==> KeepsFinished(old(records)[..k], kept)
      ensures r.Ok? ==> SortedBy(kept, OlderFirst)
      ensures r.Err? ==> r.error == if TooMany(0, |old(records)|) then CorruptIndex else InvalidArgument
    {
      hide Latest, CutOf, WithinBudget, KeepsHistory, HistoryFits, KeepsFinished, Boundary, Log, Storable;
      kept := [];
      r, k := Locate(position);
      if r.Err? {
        return;
      }
      if position == 0 {
        CutNothing(codec, records, k, limit);
        FitsAll(codec, records[..k], kept, limit);
        return;
      }
      var compacted;
      compacted, kept := Compact(codec, file[..position], records[..k], limit);
      FitsAll(codec, records[..k], kept, limit);
      LogAppend(codec, kept, records[k..]);
      assert file[position..] == Log(codec, records[k..]);
      file := compacted + file[position..];
      records := kept + records[k..];
      bytes := |file|;
    }
  }
}
