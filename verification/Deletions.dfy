/** A deletion of any document, run straight through from any state in which the coordinator is free. */
module Deletions {
  import opened Wrappers
  import opened Documents
  import opened Validation
  import opened Jobs
  import opened Ingestion
  import opened IngestionSafety
  import opened IngestionLimits

  // ------------------------------------------------------------------- unused names

  lemma {:induction false} LengthBound(s: set<string>) returns (n: nat)
    ensures forall x :: x in s ==> |x| <= n
    decreases |s|
  {
    n := 0;
    if s != {} {
      var x :| x in s;
      n := LengthBound(s - {x});
      n := if |x| > n then |x| else n;
    }
  }

  lemma UnusedName(s: set<string>) returns (k: string)
    ensures k !in s && k != ""
  {
    var n := LengthBound(s);
    k := seq(n + 1, _ => 'x');
    assert |k| == n + 1;
  }

  // ------------------------------------------------------------- up to the backend

  predicate CanDelete(s: Sys, id: JobId, d: DocKey) {
    s.mode.Up? && s.co.admitting.None? && id !in s.co.jobs && d != ""
  }

  function Removal(d: DocKey): Input { Input(d, "", "", map[]) }

  function NextRevision(s: Sys, d: DocKey): nat { GetOr(s.co.latestRevision, d, 0) + 1 }

  /** The deletion job at some status. */
  function Removing(id: JobId, d: DocKey, revision: nat, status: Status): Job {
    Job(id, Erasure, Removal(d), revision, "deleted", status, 0, 0, None, None, None)
  }

  /** The last record of the deletion of a document that the backend did not serve. */
  function Deleted(id: JobId, d: DocKey, revision: nat): Job {
    Removing(id, d, revision, Ready).(mutationApplied := Some(false))
  }

  /** The two records of a deletion before it reaches the backend. */
  function Removals(id: JobId, d: DocKey, revision: nat): seq<Job> {
    [Removing(id, d, revision, Status.Queued), Removing(id, d, revision, Publishing)]
  }

  /** From index `n` on the log speaks of one document only. */
  predicate OnlyAbout(log: seq<Job>, n: nat, d: DocKey) { forall k :: n <= k < |log| ==> log[k].input.document == d }

  function IndexWith(co: Coordinator, id: JobId, d: DocKey, revision: nat, jobs: JobMap): Coordinator {
    Coordinator(jobs, co.latestRevision[d := revision], co.latestJob[d := id], co.queue, None)
  }

  /** The deletion is about to reach the backend; all else that has happened is that an older job was superseded. */
  predicate AtBackend(s: Sys, t: Sys, id: JobId, d: DocKey) {
    var r := NextRevision(s, d);
    t == s.(log := t.log, exec := s.exec[id := EraseBackend],
            co := IndexWith(s.co, id, d, r, WithoutDisplaced(s.co, d, 0)[id := Removing(id, d, r, Publishing)])) &&
    s.log <= t.log && |t.log| > |s.log| && t.log[|t.log| - 1] == Removing(id, d, r, Publishing) && OnlyAbout(t.log, |s.log|, d) &&
    (Displaced(s.co, d).None? ==> t.log == s.log + Removals(id, d, r))
  }

  predicate Beginning(s: Sys, t: Sys, id: JobId, d: DocKey, pc: Pc) {
    var r := NextRevision(s, d);
    t == s.(log := t.log, exec := s.exec[id := pc],
            co := IndexWith(s.co, id, d, r, WithoutDisplaced(s.co, d, 0)[id := Removing(id, d, r, Status.Queued)])) &&
    s.log <= t.log && OnlyAbout(t.log, |s.log|, d) &&
    (Displaced(s.co, d).None? ==> t.log == s.log + [Removing(id, d, r, Status.Queued)])
  }

  lemma AdmitDeletion(f: Preparation, s: Sys, id: JobId, d: DocKey)
    requires Inv(f, s) && CanDelete(s, id, d)
    ensures var admit := Admit(id, Erasure, Removal(d), 0);
      Enabled(f, s, admit) && Enabled(f, Apply(f, s, admit), Admitted(false, 0)) &&
      Beginning(s, Apply(f, Apply(f, s, admit), Admitted(false, 0)), id, d, Begin)
  {
    hide LogKnown, Final, Durable, Threads, Unfinished, Live, OneJobPerSlot, RecordOk;
    var s1 := Apply(f, s, Admit(id, Erasure, Removal(d), 0));
    assert Displaced(s1.co, d) == Displaced(s.co, d);
    var older := Displaced(s.co, d);
    assert older.Some? ==> older.value.input.document == d;
    assert Fresh(s.co, id, Erasure, Removal(d), "deleted", 0) == Removing(id, d, NextRevision(s, d), Status.Queued);
  }

  lemma BeginDeletion(f: Preparation, s: Sys, t: Sys, id: JobId, d: DocKey)
    requires Beginning(s, t, id, d, Begin) && s.mode.Up?
    ensures Enabled(f, t, Run(id, Fine, 0)) && Beginning(s, Apply(f, t, Run(id, Fine, 0)), id, d, EnterErasing)
  {
    assert s.exec[id := Begin][id := EnterErasing] == s.exec[id := EnterErasing];
  }

  lemma EnterNext(f: Preparation, t: Sys, id: JobId, d: DocKey, r: nat)
    requires t.mode.Up? && t.co.admitting.None? && id in t.exec && t.exec[id] == EnterErasing && id in t.co.jobs
    requires t.co.jobs[id] == Removing(id, d, r, Status.Queued) && GetOr(t.co.latestRevision, d, 0) == r
    ensures Enabled(f, t, Run(id, Fine, 0))
    ensures var next := Removing(id, d, r, Publishing);
      Apply(f, t, Run(id, Fine, 0)) ==
      t.(log := t.log + [next], co := t.co.(jobs := t.co.jobs[id := next]), exec := t.exec[id := EraseBackend])
  {
    assert Advanced(t.co.jobs[id], Publishing, None, None, None, 0) == Removing(id, d, r, Publishing);
  }

  lemma EnterDeletion(f: Preparation, s: Sys, t: Sys, id: JobId, d: DocKey)
    requires Beginning(s, t, id, d, EnterErasing) && s.mode.Up?
    ensures Enabled(f, t, Run(id, Fine, 0)) && AtBackend(s, Apply(f, t, Run(id, Fine, 0)), id, d)
  {
    hide WithoutDisplaced, Displaced, Enabled, Apply;
    var r := NextRevision(s, d);
    EnterNext(f, t, id, d, r);
    assert t.exec[id := EraseBackend] == s.exec[id := EraseBackend];
    assert t.co.jobs[id := Removing(id, d, r, Publishing)] == WithoutDisplaced(s.co, d, 0)[id := Removing(id, d, r, Publishing)];
  }

  /** No event of the run is part of a checkpoint or a crash. */
  predicate AllPlain(events: seq<Event>) {
    forall i :: 0 <= i < |events| ==> events[i].Admit? || events[i].Admitted? || events[i].Run?
  }

  lemma ReachBackend(f: Preparation, s: Sys, id: JobId, d: DocKey) returns (events: seq<Event>)
    requires Inv(f, s) && CanDelete(s, id, d)
    ensures Legal(f, s, events) && AllPlain(events) && AtBackend(s, After(f, s, events), id, d)
  {
    hide Legal, After, Enabled, Apply, Inv, Beginning, AtBackend;
    var admit, run := Admit(id, Erasure, Removal(d), 0), Run(id, Fine, 0);
    NoEvents(f, s);
    AdmitDeletion(f, s, id, d);
    ExtendFrom(f, s, [], admit);
    ExtendFrom(f, s, [] + [admit], Admitted(false, 0));
    events := [] + [admit] + [Admitted(false, 0)];
    BeginDeletion(f, s, After(f, s, events), id, d);
    ExtendFrom(f, s, events, run);
    EnterDeletion(f, s, After(f, s, events + [run]), id, d);
    ExtendFrom(f, s, events + [run], run);
    events := events + [run] + [run];
  }

  // --------------------------------------------------------------------- to the end

  /** The deletion has ended; nothing else has happened. */
  predicate Ended(t: Sys, u: Sys, id: JobId, d: DocKey, last: Job) {
    u == t.(log := t.log + [last], co := t.co.(jobs := t.co.jobs[id := last]), backend := u.backend, exec := t.exec - {id},
            acked := u.acked) &&
    Terminal(last.status) && last.id == id && last.input.document == d
  }

  predicate IsAtBackend(t: Sys, id: JobId, d: DocKey, r: nat) {
    t.mode.Up? && t.co.admitting.None? && id in t.exec && t.exec[id] == EraseBackend && id in t.co.jobs &&
    t.co.jobs[id] == Removing(id, d, r, Publishing) && GetOr(t.co.latestRevision, d, 0) == r
  }

  lemma EraseNext(f: Preparation, t: Sys, id: JobId, d: DocKey, r: nat) returns (pc: Pc, backend: Catalog)
    requires IsAtBackend(t, id, d, r)
    ensures Enabled(f, t, Run(id, Fine, 0))
    ensures Apply(f, t, Run(id, Fine, 0)) == t.(backend := backend, exec := t.exec[id := pc])
    ensures pc.EnterErased? || pc.EnterFailed?
    ensures d !in t.backend.revisions ==> pc == EnterErased(d in t.backend.documents)
    ensures backend.revisions.Keys == t.backend.revisions.Keys + {d}
  {
    hide Erase;
    match Erase(t.backend, d, r)
    case Ok(next) => pc, backend := EnterErased(next.1), next.0;
    case Err(e) => pc, backend := EnterFailed(e), t.backend;
  }

  lemma RecordNext(f: Preparation, t: Sys, id: JobId, d: DocKey, r: nat, pc: Pc) returns (last: Job)
    requires t.mode.Up? && t.co.admitting.None? && id in t.exec && t.exec[id] == pc && id in t.co.jobs
    requires t.co.jobs[id] == Removing(id, d, r, Publishing) && GetOr(t.co.latestRevision, d, 0) == r
    requires pc.EnterErased? || pc.EnterFailed?
    ensures Enabled(f, t, Run(id, Fine, 0))
    ensures Ended(t, Apply(f, t, Run(id, Fine, 0)), id, d, last) && Apply(f, t, Run(id, Fine, 0)).backend == t.backend
    ensures pc.EnterErased? ==>
      last == Removing(id, d, r, Ready).(mutationApplied := Some(pc.applied)) && last.status == Ready && MutationOf(last) == Mutation(d, r, Gone) &&
      Apply(f, t, Run(id, Fine, 0)).acked == t.acked + {Mutation(d, r, Gone)}
  {
    match pc
    case EnterErased(applied) => last := Advanced(t.co.jobs[id], Ready, None, None, Some(applied), 0);
    case EnterFailed(error) => last := Advanced(t.co.jobs[id], Failed, Some(error), None, None, 0);
  }

  /** The deletion, from the backend to its last record; acknowledged if the backend did not know the document. */
  lemma FinishDeletion(f: Preparation, t: Sys, id: JobId, d: DocKey, r: nat) returns (events: seq<Event>, last: Job)
    requires IsAtBackend(t, id, d, r)
    ensures Legal(f, t, events) && AllPlain(events) && Ended(t, After(f, t, events), id, d, last)
    ensures After(f, t, events).backend.revisions.Keys == t.backend.revisions.Keys + {d}
    ensures d !in t.backend.revisions ==>
      (d !in t.backend.documents ==> last == Deleted(id, d, r)) && last.status == Ready && MutationOf(last) == Mutation(d, r, Gone) &&
      After(f, t, events).acked == t.acked + {Mutation(d, r, Gone)}
  {
    hide Legal, After, Enabled, Apply;
    var run := Run(id, Fine, 0);
    NoEvents(f, t);
    var pc, backend := EraseNext(f, t, id, d, r);
    ExtendFrom(f, t, [], run);
    var t1 := After(f, t, [] + [run]);
    last := RecordNext(f, t1, id, d, r, pc);
    ExtendFrom(f, t, [] + [run], run);
    events := [] + [run] + [run];
    assert t.exec[id := pc] - {id} == t.exec - {id};
  }

  /** The whole deletion. */
  predicate Removed(s: Sys, u: Sys, id: JobId, d: DocKey, last: Job) {
    u.mode.Up? && u.co.admitting.None? && u.checkpoint == s.checkpoint && u.maintenance == s.maintenance &&
    u.co.jobs == WithoutDisplaced(s.co, d, 0)[id := last] && Terminal(last.status) && last.id == id && last.input.document == d &&
    u.co.latestRevision == s.co.latestRevision[d := NextRevision(s, d)] && u.co.latestJob == s.co.latestJob[d := id] &&
    u.backend.revisions.Keys == s.backend.revisions.Keys + {d} &&
    s.log < u.log && OnlyAbout(u.log, |s.log|, d) && last in u.log &&
    (Displaced(s.co, d).None? ==> u.log == s.log + Removals(id, d, NextRevision(s, d)) + [last])
  }

  lemma DeletionRuns(f: Preparation, s: Sys, id: JobId, d: DocKey) returns (events: seq<Event>, last: Job)
    requires Inv(f, s) && CanDelete(s, id, d)
    ensures Legal(f, s, events) && AllPlain(events) && Removed(s, After(f, s, events), id, d, last)
    ensures d !in s.backend.revisions ==>
      (d !in s.backend.documents ==> last == Deleted(id, d, NextRevision(s, d))) &&
      last.status == Ready && MutationOf(last) == Mutation(d, NextRevision(s, d), Gone) &&
      After(f, s, events).acked == s.acked + {Mutation(d, NextRevision(s, d), Gone)}
  {
    hide Legal, After, Inv, WithoutDisplaced;
    var first := ReachBackend(f, s, id, d);
    var t := After(f, s, first);
    var second;
    second, last := FinishDeletion(f, t, id, d, NextRevision(s, d));
    Concat(f, s, first, second);
    events := first + second;
    var u := After(f, t, second);
    assert u.log[..|t.log|] == t.log;
    assert u.log[|t.log|] == last;
    assert u.co.jobs == WithoutDisplaced(s.co, d, 0)[id := last];
  }
}
