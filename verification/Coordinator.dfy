/** The ingestion coordinator in its own form: an object whose lock regions update the job
    table, the latest-revision index, the queue and the job log in place, and call the embedded
    backend object. Each region is proved to be the step of the protocol it stands for. */
module CoordinatorObject {
  import opened Wrappers
  import opened Documents
  import opened KeyOrder
  import opened Sorting
  import opened Validation
  import opened Serving
  import opened Backend
  import opened Jobs
  import opened Ingestion
  import opened IngestionSafety
  import opened IngestionTheorems
  import opened IngestionLimits

  datatype Submission = Accepted(job: Job) | Unchanged(job: Job) | ExistingPending(job: Job)

  /** What the lock region that touches the backend tells the executing thread. */
  datatype Publication = Published | Overtaken | Rejected(error: Errc)

  ghost function Ids(jobs: seq<Job>): set<JobId> { set j | j in jobs :: j.id }

  lemma NewId(loaded: seq<Job>, i: nat)
    requires i < |loaded| && forall a, b :: 0 <= a < b < |loaded| ==> loaded[a].id != loaded[b].id
    ensures loaded[i].id !in Ids(loaded[..i])
  {
  }

  lemma AllIds(loaded: seq<Job>, m: map<JobId, Job>)
    requires Lists(loaded, m)
    ensures Ids(loaded) == m.Keys
  {
    forall id | id in m
      ensures id in Ids(loaded)
    {
      var i :| 0 <= i < |loaded| && loaded[i].id == id;
      assert loaded[i] in loaded;
    }
  }

  /** The order of replay, as a sort needs it. */
  predicate NoLater(a: Job, b: Job) { a.revision < b.revision || (a.revision == b.revision && KeyLeq(a.id, b.id)) }

  lemma NoLaterIsTotal()
    ensures TotalPreorder(NoLater)
  {
    forall a, b
      ensures NoLater(a, b) || NoLater(b, a)
    {
      KeyTotal(a.id, b.id);
    }
    forall a, b, c | NoLater(a, b) && NoLater(b, c)
      ensures NoLater(a, c)
    {
      if KeyLeq(a.id, b.id) && KeyLeq(b.id, c.id) {
        KeyTransitive(a.id, b.id, c.id);
      }
    }
  }

  lemma SelectionIsReplayList(jobs: map<JobId, Job>, ready: map<DocKey, Job>, replay: seq<Job>)
    requires KeyedById(jobs)
    requires forall d :: d in ready ==> Replayed(jobs, ready[d]) && ready[d].input.document == d
    requires forall id :: id in jobs && IsReady(jobs[id]) ==> jobs[id].input.document in ready
    requires forall j :: j in replay <==> j.input.document in ready && ready[j.input.document] == j
    requires Distinct(replay) && SortedBy(replay, NoLater)
    ensures ReplayList(jobs, replay)
  {
    forall i | 0 <= i < |replay|
      ensures Replayed(jobs, replay[i])
    {
      assert replay[i] in replay;
    }
    forall i, j | 0 <= i < j < |replay|
      ensures replay[i].input.document != replay[j].input.document && Sooner(replay[i], replay[j])
    {
      assert replay[i] in replay && replay[j] in replay && replay[i] != replay[j] && NoLater(replay[i], replay[j]);
      var a :| a in jobs && jobs[a] == replay[i];
      var b :| b in jobs && jobs[b] == replay[j];
    }
    hide Replayed;
    forall id | id in jobs && IsReady(jobs[id])
      ensures exists i :: 0 <= i < |replay| && replay[i].input.document == jobs[id].input.document
    {
      assert ready[jobs[id].input.document] in replay;
    }
  }

  lemma LatestKeyed(log: seq<Job>)
    ensures KeyedById(Latest(log))
  {
  }

  /** Without compactions the base stays what the restored documents made it. */
  lemma {:induction false} BaseStays(c: Catalog, replay: seq<Job>)
    ensures BaseAt(c, replay, {}) == DimensionIn(c.documents)
  {
    hide DimensionIn;
    if replay != [] {
      BaseStays(c, replay[..|replay| - 1]);
    }
  }

  lemma {:induction false} RefusalStays(f: Preparation, c: Catalog, replay: seq<Job>, n: nat)
    requires n <= |replay| && Replay(f, c, replay[..n], {}).Err?
    ensures Replay(f, c, replay, {}).Err?
  {
    hide ReplayJob, BaseAt;
    if n < |replay| {
      var m := |replay| - 1;
      assert replay[..m][..n] == replay[..n];
      RefusalStays(f, c, replay[..m], n);
    } else {
      assert replay[..n] == replay;
    }
  }

  lemma FirstStep(f: Preparation, s: Sys, e: Event)
    requires Enabled(f, s, e)
    ensures Legal(f, s, [e]) && After(f, s, [e]) == Apply(f, s, e)
  {
    assert [e][..0] == [];
  }

  /** The state loading leaves, spelled out. */
  lemma LoadStep(f: Preparation, down: Sys, load: Event, pending: set<JobId>, backend: Catalog)
    requires load.RecoverLoad? && Enabled(f, down, load) && Replay(f, down.checkpoint, load.replay, load.compacted) == Ok(backend)
    requires pending == set id | id in Latest(down.log) && !Terminal(Latest(down.log)[id].status)
    ensures Legal(f, down, [load])
    ensures After(f, down, [load]) ==
            down.(mode := Recovering(pending), co := Coordinator(Latest(down.log), load.revisions, load.latest, [], None),
                  backend := backend, base := BaseAt(down.checkpoint, load.replay, load.compacted))
  {
    hide Latest, Replay, ReplayList, IsLatestIndex;
    FirstStep(f, down, load);
  }

  lemma NextStep(f: Preparation, s: Sys, events: seq<Event>, e: Event)
    requires Legal(f, s, events) && Enabled(f, After(f, s, events), e)
    ensures Legal(f, s, events + [e]) && After(f, s, events + [e]) == Apply(f, After(f, s, events), e)
  {
    assert (events + [e])[..|events|] == events;
  }

  predicate Deletions(jobs: map<JobId, Job>, ids: set<JobId>) { forall id :: id in ids ==> id in jobs && jobs[id].operation == Erasure }

  lemma StillDeletions(jobs: map<JobId, Job>, next: map<JobId, Job>, ids: set<JobId>)
    requires Keeps(jobs, next) && Deletions(jobs, ids)
    ensures Deletions(next, ids)
  {
  }

  lemma KeepsOn(a: map<JobId, Job>, b: map<JobId, Job>, c: map<JobId, Job>)
    requires Keeps(a, b) && Keeps(b, c)
    ensures Keeps(a, c)
  {
  }

  lemma DoneNext(f: Preparation, s: Sys, todo: set<JobId>)
    requires s.mode == Recovering({})
    requires todo == set id | id in s.co.jobs && !Terminal(s.co.jobs[id].status) && s.co.jobs[id].operation == Erasure
    ensures Enabled(f, s, RecoverDone) && Apply(f, s, RecoverDone) == s.(mode := Up, exec := Starts(todo))
  {
  }

  function Starts(ids: set<JobId>): map<JobId, Pc> { map id | id in ids :: Begin }

  lemma TransitionShape(s: Sys, id: JobId, status: Status, error: Option<Errc>, prepared: Option<PreparedDocument>,
                        applied: Option<bool>, now: int)
    ensures var r := Transition(s, id, status, error, prepared, applied, now);
      r.0.exec == s.exec && r.0.co.jobs.Keys == s.co.jobs.Keys && r.0.mode == s.mode && r.0.maintenance == s.maintenance &&
      r.0.checkpoint == s.checkpoint && r.0.backend == s.backend
  {
    hide Advanced, Retired;
  }

  /** The two protocol steps of one admission, up to the thread they start. */
  ghost predicate Entered(prep: Preparation, before: Sys, after: Sys, admit: Event, asynchronous: bool, now: int) {
    admit.Admit? && Enabled(prep, before, admit) &&
    after == Apply(prep, Apply(prep, before, admit), Admitted(asynchronous, now)).(exec := before.exec)
  }

  /** What entering a job does is the two steps. */
  lemma EntersJob(prep: Preparation, before: Sys, after: Sys, created: Job, asynchronous: bool, now: int)
    requires before.mode.Up? && before.co.admitting.None? && created.id !in before.co.jobs && created.input.document != ""
    requires created.operation == Upsert ==> !Answered(before.co, created.input, HashOf(prep, created.input))
    requires created == Fresh(before.co, created.id, created.operation, created.input,
                              if created.operation == Erasure then "deleted" else HashOf(prep, created.input), now)
    requires after == FinishAdmission(before.(log := before.log + [created], co := before.co.(admitting := Some(created))),
                                      asynchronous, now).(exec := before.exec)
    ensures Entered(prep, before, after, Admit(created.id, created.operation, created.input, now), asynchronous, now)
  {
    hide FinishAdmission, Answered, HashOf;
  }

  class IngestionCoordinator {
    var jobs: map<JobId, Job>
    var latestRevision: map<DocKey, nat>
    var latestJob: map<DocKey, JobId>
    var queue: seq<JobId>
    var stopping: bool
    const capacity: nat

    const backend: EmbeddedBackend
    // The records of the job store, as these calls leave them.
    var log: seq<Job>
    // Every mutation whose ready record this coordinator or an earlier one has written.
    ghost var acked: set<Mutation>

    /** The protocol state this object is part of; threads and maintenance come from `base`. */
    ghost function View(base: Sys): Sys
      reads this, backend
    {
      base.(log := log, co := Coordinator(jobs, latestRevision, latestJob, queue, None), backend := backend.View(),
            base := backend.active.value.dense.base.dimension, acked := acked)
    }

    ghost predicate Valid()
      reads this
    {
      IsLatestIndex(jobs, latestRevision, latestJob) && KeyedById(jobs)
    }

    constructor (capacity: nat, log: seq<Job>, backend: EmbeddedBackend, ghost acked: set<Mutation>)
      ensures this.capacity == capacity && jobs == map[] && latestRevision == map[] && latestJob == map[] && queue == []
      ensures this.log == log && this.backend == backend && this.acked == acked && !stopping && Valid()
    {
      this.capacity := capacity;
      jobs, latestRevision, latestJob, queue, stopping := map[], map[], map[], [], false;
      this.log, this.backend, this.acked := log, backend, acked;
    }

    method Persist(job: Job)
      modifies this`log
      ensures log == old(log) + [job]
    {
      log := log + [job];
    }

    lemma LatestHeld(d: DocKey)
      requires Valid()
      ensures d in latestJob ==> latestJob[d] in jobs && jobs[latestJob[d]].id == latestJob[d]
    {
    }

    static lemma KeyedUpdate(jobs: map<JobId, Job>, id: JobId, job: Job)
      requires KeyedById(jobs) && job.id == id
      ensures KeyedById(jobs[id := job])
    {
    }

    lemma JobHeld(id: JobId)
      requires Valid() && id in jobs
      ensures jobs[id].input.document in latestRevision && jobs[id].id == id
    {
    }

    /** The region shared by submission and deletion once a job is to be created. */
    method Enter(created: Job, asynchronous: bool, now: int, ghost base: Sys)
      requires Valid() && created.id !in jobs
      requires created.revision == GetOr(latestRevision, created.input.document, 0) + 1
      modifies this`jobs, this`latestRevision, this`latestJob, this`queue, this`log
      ensures Valid()
      ensures var admitting := old(View(base)).(log := old(log) + [created],
                co := Coordinator(old(jobs), old(latestRevision), old(latestJob), old(queue), Some(created)));
        View(base) == FinishAdmission(admitting, asynchronous, now).(exec := base.exec)
      ensures created.id in jobs && jobs[created.id] == created
    {
      hide IsLatestIndex, KeyedById, Retired;
      var d := created.input.document;
      LatestHeld(d);
      Persist(created);
      if d in latestJob {
        var older := jobs[latestJob[d]];
        if !Terminal(older.status) {
          var superseded := Displace(older, now);
          ReplaceIndex(jobs, latestRevision, latestJob, older.id, superseded);
          KeyedUpdate(jobs, older.id, superseded);
          Persist(superseded);
          jobs := jobs[older.id := superseded];
        }
      }
      AdmittedIndex(jobs, latestRevision, latestJob, created);
      KeyedUpdate(jobs, created.id, created);
      latestRevision := latestRevision[d := created.revision];
      latestJob := latestJob[d := created.id];
      jobs := jobs[created.id := created];
      if asynchronous {
        queue := queue + [created.id];
      }
    }

    /** The input as it is stored and hashed. */
    function Normal(input: Input): Input { input.(content := backend.prep.normalize(input.content)) }

    /** A job that answers a submission of this content: it has prepared it, or is about to. */
    predicate Answers(j: Job, hash: string) { j.contentHash == hash && (j.status == Ready || !Terminal(j.status)) }

    method Submit(id: JobId, input: Input, asynchronous: bool, now: int, ghost base: Sys)
      returns (r: Result<Submission>)
      requires Valid() && id !in jobs && base.mode.Up?
      modifies this`jobs, this`latestRevision, this`latestJob, this`queue, this`log
      ensures Valid()
      ensures r.Err? <==>
        input.document == "" || input.content == "" || stopping ||
        (asynchronous && |old(queue)| >= capacity &&
         !Answered(old(View(base)).co, Normal(input), HashOf(backend.prep, Normal(input))))
      ensures r.Err? ==> r.error == if input.document == "" || input.content == "" then InvalidArgument else Unavailable
      ensures r.Err? || !r.value.Accepted? ==> View(base) == old(View(base))
      ensures var hash := backend.prep.contentHash(input.title, backend.prep.normalize(input.content), input.metadata);
        r.Ok? ==> (!r.value.Accepted? <==> input.document in old(latestJob) &&
                                           Answers(old(jobs)[old(latestJob)[input.document]], hash))
      ensures r.Ok? && !r.value.Accepted? ==>
        r.value.job == old(jobs)[old(latestJob)[input.document]] && (r.value.Unchanged? <==> r.value.job.status == Ready)
      ensures r.Ok? && r.value.Accepted? ==>
        id in jobs && r.value.job == jobs[id] && r.value.job.status == Queued && r.value.job.input == Normal(input)
      ensures r.Ok? && r.value.Accepted? ==>
        Entered(backend.prep, old(View(base)), View(base), Admit(id, Upsert, Normal(input), now), asynchronous, now)
    {
      hide IsLatestIndex, KeyedById, FinishAdmission, EmbeddedBackend.View, Entered, Retired;
      ghost var before := View(base);
      LatestHeld(input.document);
      if input.document == "" || input.content == "" {
        return Err(InvalidArgument);
      }
      var normal := Normal(input);
      var hash := HashOf(backend.prep, normal);
      if stopping {
        return Err(Unavailable);
      }
      if normal.document in latestJob {
        var latest := jobs[latestJob[normal.document]];
        if latest.contentHash == hash {
          if latest.status == Ready {
            return Ok(Unchanged(latest));
          }
          if !Terminal(latest.status) {
            return Ok(ExistingPending(latest));
          }
        }
      }
      if asynchronous && |queue| >= capacity {
        return Err(Unavailable);
      }
      var revision := (if normal.document in latestRevision then latestRevision[normal.document] else 0) + 1;
      var created := Job(id, Upsert, normal, revision, hash, Queued, now, now, None, None, None);
      Enter(created, asynchronous, now, base);
      EntersJob(backend.prep, before, View(base), created, asynchronous, now);
      return Ok(Accepted(created));
    }

    method Delete(id: JobId, document: DocKey, now: int, ghost base: Sys) returns (r: Result<Job>)
      requires Valid() && id !in jobs && base.mode.Up?
      modifies this`jobs, this`latestRevision, this`latestJob, this`queue, this`log
      ensures Valid()
      ensures r.Err? <==> document == "" || stopping
      ensures r.Err? ==> View(base) == old(View(base)) && r.error == if document == "" then InvalidArgument else Unavailable
      ensures r.Ok? ==> id in jobs && r.value == jobs[id] && r.value.operation == Erasure && r.value.input.document == document
      ensures r.Ok? ==>
        forall prep: Preparation ::
          Entered(prep, old(View(base)), View(base), Admit(id, Erasure, Input(document, "", "", map[]), now), false, now)
    {
      hide IsLatestIndex, KeyedById, FinishAdmission;
      if document == "" {
        return Err(InvalidArgument);
      }
      if stopping {
        return Err(Unavailable);
      }
      var revision := (if document in latestRevision then latestRevision[document] else 0) + 1;
      var deletion := Job(id, Erasure, Input(document, "", "", map[]), revision, "deleted", Queued, now, now, None, None, None);
      Enter(deletion, false, now, base);
      return Ok(deletion);
    }

    static method Displace(job: Job, now: int) returns (superseded: Job)
      ensures superseded == Retired(job, now) && SameJob(job, superseded) && Terminal(superseded.status)
    {
      superseded := job.(status := Superseded, updatedAt := now, input := job.input.(content := ""), prepared := None);
    }

    static method Moved(job: Job, status: Status, error: Option<Errc>, prepared: Option<PreparedDocument>,
                        applied: Option<bool>, now: int) returns (next: Job)
      ensures next == Advanced(job, status, error, prepared, applied, now) && SameJob(job, next)
    {
      next := job.(status := status, updatedAt := now, error := error);
      if prepared.Some? {
        next := next.(prepared := prepared);
      }
      if applied.Some? {
        next := next.(mutationApplied := applied);
      }
      if Terminal(status) {
        next := next.(input := next.input.(content := ""));
        if status != Ready {
          next := next.(prepared := None);
        }
      }
    }

    /** Logs the next snapshot of a job and makes it the current one. */
    method Install(id: JobId, next: Job)
      requires Valid() && id in jobs && SameJob(jobs[id], next)
      modifies this`jobs, this`log
      ensures Valid() && jobs == old(jobs)[id := next] && log == old(log) + [next]
    {
      hide IsLatestIndex, KeyedById;
      JobHeld(id);
      ReplaceIndex(jobs, latestRevision, latestJob, id, next);
      KeyedUpdate(jobs, id, next);
      Persist(next);
      jobs := jobs[id := next];
    }

    method Advance(id: JobId, status: Status, error: Option<Errc>, prepared: Option<PreparedDocument>,
                   applied: Option<bool>, now: int, ghost base: Sys) returns (moved: bool)
      requires Valid()
      modifies this`jobs, this`log, this`acked
      ensures Valid()
      ensures var r := Transition(old(View(base)), id, status, error, prepared, applied, now);
        View(base) == r.0 && moved == r.1
    {
      hide IsLatestIndex, KeyedById, Advanced, Retired;
      if id !in jobs {
        return false;
      }
      JobHeld(id);
      var next := jobs[id];
      if Terminal(next.status) {
        return false;
      }
      if latestRevision[next.input.document] != next.revision {
        next := Displace(next, now);
        Install(id, next.(error := None));
        return false;
      }
      next := Moved(next, status, error, prepared, applied, now);
      Install(id, next);
      acked := if status == Ready then acked + {MutationOf(next)} else acked;
      return true;
    }

    /** The region of `execute` that activates a prepared document. It is refused exactly when the backend refuses. */
    method Publish(id: JobId, prepared: PreparedDocument, outcome: Outcome, ghost base: Sys) returns (p: Publication)
      requires Valid() && backend.Valid() && (outcome.Fine? || outcome.Refused?)
      modifies backend
      ensures Valid() && backend.Valid()
      ensures var step := if p.Rejected? then Refused(p.error) else Fine;
        (step.Fine? ==> Publishable(backend.prep, old(View(base)), id, prepared)) &&
        View(base).(exec := map[]) == ExecutePublish(old(View(base)), id, prepared, step).(exec := map[]) &&
        var pc := ExecutePublish(old(View(base)), id, prepared, step).exec;
        (p.Overtaken? <==> id !in pc) && (p.Published? <==> id in pc && pc[id] == EnterReady(prepared)) &&
        (p.Rejected? ==> id in pc && pc[id] == EnterFailed(p.error))
      ensures p.Overtaken? <==> PassedOver(old(View(base)), id)
      ensures !p.Overtaken? && outcome.Fine? ==>
        (p.Published? <==> MayActivate(backend.prep, old(backend.View()), prepared, jobs[id].revision, old(backend.active.value.dense.base)))
    {
      hide IsLatestIndex, KeyedById, Activate, Serves, ValidDocument, EmbeddedBackend.Valid;
      if id in jobs {
        JobHeld(id);
      }
      if id !in jobs || Terminal(jobs[id].status) || latestRevision[jobs[id].input.document] != jobs[id].revision {
        return Publication.Overtaken;
      }
      if outcome.Refused? {
        return Rejected(outcome.error);
      }
      var activated := backend.Activate(prepared, jobs[id].revision);
      if activated.Err? {
        return Rejected(activated.error);
      }
      return Publication.Published;
    }

    /** The region of `execute` that erases: it does not look at the latest revision again. */
    method EraseDocument(id: JobId, outcome: Outcome, ghost base: Sys) returns (p: Result<bool>)
      requires Valid() && backend.Valid() && id in jobs && (outcome.Fine? || outcome.Refused?)
      modifies backend
      ensures Valid() && backend.Valid()
      ensures var step := if p.Err? then Refused(p.error) else Fine;
        View(base).(exec := map[]) == ExecuteErase(old(View(base)), id, step).(exec := map[]) &&
        var pc := ExecuteErase(old(View(base)), id, step).exec;
        id in pc && (p.Ok? ==> pc[id] == EnterErased(p.value)) && (p.Err? ==> pc[id] == EnterFailed(p.error))
      ensures outcome.Fine? ==>
        (p.Ok? <==> jobs[id].input.document != "" && jobs[id].revision != 0 &&
                    Erase(old(backend.View()), jobs[id].input.document, jobs[id].revision).Ok?)
    {
      hide IsLatestIndex, KeyedById, Erase, EmbeddedBackend.Valid;
      if outcome.Refused? {
        return Err(outcome.error);
      }
      p := backend.Erase(jobs[id].input.document, jobs[id].revision);
    }

    /** Loading: the jobs, and the newest revision of every document with its job. */
    method LoadJobs(loaded: seq<Job>)
      requires Lists(loaded, Latest(log)) && jobs == map[] && latestRevision == map[] && latestJob == map[]
      modifies this`jobs, this`latestRevision, this`latestJob
      ensures Valid() && jobs == Latest(log)
    {
      hide Latest, IsLatestIndex;
      EmptyIndex();
      for i := 0 to |loaded|
        invariant jobs.Keys == Ids(loaded[..i])
        invariant forall id :: id in jobs ==> id in Latest(log) && jobs[id] == Latest(log)[id]
        invariant IsLatestIndex(jobs, latestRevision, latestJob)
      {
        assert loaded[i].id !in jobs by { NewId(loaded, i); }
        assert loaded[..i + 1] == loaded[..i] + [loaded[i]];
        LoadJob(loaded[i]);
      }
      assert loaded[..|loaded|] == loaded;
      AllIds(loaded, Latest(log));
    }

    method LoadJob(job: Job)
      requires IsLatestIndex(jobs, latestRevision, latestJob) && job.id !in jobs
      modifies this`jobs, this`latestRevision, this`latestJob
      ensures IsLatestIndex(jobs, latestRevision, latestJob) && jobs == old(jobs)[job.id := job]
    {
      hide IsLatestIndex;
      var d := job.input.document;
      IndexWith(jobs, latestRevision, latestJob, job);
      if d !in latestRevision || job.revision > latestRevision[d] {
        latestRevision := latestRevision[d := job.revision];
        latestJob := latestJob[d := job.id];
      }
      jobs := jobs[job.id := job];
    }

    static lemma EmptyIndex()
      ensures IsLatestIndex(map[], map[], map[])
    {
    }

    static lemma IndexWith(jobs: map<JobId, Job>, revisions: map<DocKey, nat>, latest: map<DocKey, JobId>, job: Job)
      requires IsLatestIndex(jobs, revisions, latest) && job.id !in jobs
      ensures var d := job.input.document;
        if d !in revisions || job.revision > revisions[d]
        then IsLatestIndex(jobs[job.id := job], revisions[d := job.revision], latest[d := job.id])
        else IsLatestIndex(jobs[job.id := job], revisions, latest)
    {
    }

    /** Picks, for every document, its ready job with the highest revision. */
    method SelectReady() returns (ready: map<DocKey, Job>)
      ensures forall d :: d in ready ==> Replayed(jobs, ready[d]) && ready[d].input.document == d
      ensures forall id :: id in jobs && IsReady(jobs[id]) ==> jobs[id].input.document in ready
    {
      ready := map[];
      var todo := jobs.Keys;
      while todo != {}
        invariant todo <= jobs.Keys
        invariant forall d :: d in ready ==>
          ready[d] in jobs.Values && IsReady(ready[d]) && ready[d].input.document == d
        invariant forall id :: id in jobs && id !in todo && IsReady(jobs[id]) ==>
          jobs[id].input.document in ready && jobs[id].revision <= ready[jobs[id].input.document].revision
        decreases todo
      {
        var id :| id in todo;
        todo := todo - {id};
        var job := jobs[id];
        if job.status == Ready {
          var d := job.input.document;
          if d !in ready || ready[d].revision < job.revision {
            ready := ready[d := job];
          }
        }
      }
    }

    /** One replayed job. */
    method ReplayOne(job: Job) returns (r: Result<()>)
      requires backend.Valid()
      modifies backend
      ensures backend.Valid() && backend.active.value.dense.base == old(backend.active.value.dense.base)
      ensures var after := ReplayJob(backend.prep, old(backend.active.value.dense.base.dimension), old(backend.View()), job);
        if r.Ok? then after == Ok(backend.View()) else after.Err? && backend.View() == old(backend.View())
    {
      hide Activate, Erase, Serves, ValidDocument, EmbeddedBackend.Valid;
      backend.ActiveServes();
      if job.operation == Erasure {
        var erased := backend.Erase(job.input.document, job.revision);
        if erased.Err? {
          return Err(erased.error);
        }
        backend.ActiveServes();
      } else {
        if job.prepared.None? {
          return Err(CorruptIndex);
        }
        var activated := backend.Activate(job.prepared.value, job.revision);
        if activated.Err? {
          return Err(activated.error);
        }
      }
      return Ok(());
    }

    /** Replays the selected jobs into the backend, by revision and then by id; stops at the first one it refuses. */
    method ReplayReady(ready: map<DocKey, Job>) returns (r: Result<()>, ghost replay: seq<Job>)
      requires backend.Valid() && forall d :: d in ready ==> ready[d].input.document == d
      requires backend.active.value.dense.base.dimension == DimensionIn(backend.View().documents)
      modifies backend
      ensures backend.Valid() && backend.active.value.dense.base == old(backend.active.value.dense.base)
      ensures forall j :: j in replay <==> j.input.document in ready && ready[j.input.document] == j
      ensures Distinct(replay) && SortedBy(replay, NoLater)
      ensures var after := Replay(backend.prep, old(backend.View()), replay, {});
        if r.Ok? then after == Ok(backend.View()) else after.Err?
    {
      hide Replay, DimensionIn, EmbeddedBackend.Valid, EmbeddedBackend.View;
      var jobs := SortReady(ready);
      replay := jobs;
      r := ReplayAll(jobs);
    }

    static method SortReady(ready: map<DocKey, Job>) returns (jobs: seq<Job>)
      requires forall d :: d in ready ==> ready[d].input.document == d
      ensures forall j :: j in jobs <==> j.input.document in ready && ready[j.input.document] == j
      ensures Distinct(jobs) && SortedBy(jobs, NoLater)
    {
      hide Sort, NoLater;
      var unsorted := ListReady(ready);
      NoLaterIsTotal();
      jobs := Sort(unsorted, NoLater);
      SortSorted(unsorted, NoLater);
      SameElements(unsorted, jobs);
      MultisetDistinct(unsorted, jobs);
    }

    method ReplayAll(jobs: seq<Job>) returns (r: Result<()>)
      requires backend.Valid() && backend.active.value.dense.base.dimension == DimensionIn(backend.View().documents)
      modifies backend
      ensures backend.Valid() && backend.active.value.dense.base == old(backend.active.value.dense.base)
      ensures var after := Replay(backend.prep, old(backend.View()), jobs, {});
        if r.Ok? then after == Ok(backend.View()) else after.Err?
    {
      hide ReplayJob, DimensionIn, BaseAt, EmbeddedBackend.Valid, EmbeddedBackend.View;
      ghost var c := backend.View();
      assert jobs[..0] == [];
      for i := 0 to |jobs|
        invariant backend.Valid() && backend.active.value.dense.base == old(backend.active.value.dense.base)
        invariant Replay(backend.prep, c, jobs[..i], {}) == Ok(backend.View())
      {
        assert jobs[..i + 1][..i] == jobs[..i];
        BaseStays(c, jobs[..i]);
        var replayed := ReplayOne(jobs[i]);
        if replayed.Err? {
          RefusalStays(backend.prep, c, jobs, i + 1);
          return Err(replayed.error);
        }
      }
      assert jobs[..|jobs|] == jobs;
      return Ok(());
    }

    /** The selected jobs in no particular order. */
    static method ListReady(ready: map<DocKey, Job>) returns (listed: seq<Job>)
      requires forall d :: d in ready ==> ready[d].input.document == d
      ensures Distinct(listed) && forall j :: j in listed <==> j.input.document in ready && ready[j.input.document] == j
    {
      listed := [];
      var todo := ready.Keys;
      while todo != {}
        invariant todo <= ready.Keys && Distinct(listed)
        invariant forall j :: j in listed <==> j.input.document in ready && ready[j.input.document] == j && j.input.document !in todo
        decreases todo
      {
        var d :| d in todo;
        assert ready[d] !in listed;
        assert forall i :: 0 <= i < |listed| ==> listed[i] in listed;
        todo, listed := todo - {d}, listed + [ready[d]];
      }
    }

    /** `execute` of a deletion, from its start to its last record: the steps of the protocol for its thread. */
    method ExecuteDeletion(id: JobId, outcome: Outcome, now: int, ghost base: Sys)
      returns (ghost events: seq<Event>)
      requires Valid() && backend.Valid() && id in jobs && jobs[id].operation == Erasure && (outcome.Fine? || outcome.Refused?)
      requires base.mode.Up? && id in base.exec && base.exec[id] == Begin
      modifies this`jobs, this`log, this`acked, backend
      ensures Valid() && backend.Valid() && jobs.Keys == old(jobs).Keys && Keeps(old(jobs), jobs)
      ensures Legal(backend.prep, old(View(base)), events)
      ensures After(backend.prep, old(View(base)), events) == View(base.(exec := base.exec - {id}))
    {
      hide Legal, After, Transition, Valid, EmbeddedBackend.Valid, Apply, Enabled, Execute, Keeps;
      ghost var s0 := View(base);
      ghost var run := Run(id, Fine, now);
      BeginsNext(backend.prep, s0, id, now);
      FirstStep(backend.prep, s0, run);
      events := [run];
      SameKeeps(jobs);
      if Terminal(jobs[id].status) {
        return;
      }
      var moved;
      moved, events := EnterStep(id, now, base, s0, events);
      if moved {
        ghost var was := jobs;
        events := EraseAndRecord(id, outcome, now, base, s0, events);
        KeepsOn(old(jobs), was, jobs);
      }
    }

    method EnterStep(id: JobId, now: int, ghost base: Sys, ghost s0: Sys, ghost before: seq<Event>)
      returns (moved: bool, ghost events: seq<Event>)
      requires Valid() && id in jobs && base.mode.Up? && Legal(backend.prep, s0, before)
      requires After(backend.prep, s0, before) == View(base.(exec := base.exec[id := EnterErasing]))
      modifies this`jobs, this`log, this`acked
      ensures Valid() && jobs.Keys == old(jobs).Keys && Keeps(old(jobs), jobs) && Legal(backend.prep, s0, events)
      ensures After(backend.prep, s0, events) ==
        View(base.(exec := if moved then base.exec[id := EraseBackend] else base.exec - {id}))
    {
      hide Legal, After, Transition, Valid, Apply, Enabled, Execute, Keeps;
      ghost var entering := base.(exec := base.exec[id := EnterErasing]);
      ghost var run := Run(id, Fine, now);
      EntersNext(backend.prep, View(entering), id, now);
      NextStep(backend.prep, s0, before, run);
      events := before + [run];
      TransitionKeepsJobs(View(entering), id, Publishing, None, None, None, now);
      TransitionShape(View(entering), id, Publishing, None, None, None, now);
      moved := Advance(id, Publishing, None, None, None, now, entering);
      assert base.exec[id := EnterErasing] - {id} == base.exec - {id};
      assert base.exec[id := EnterErasing][id := EraseBackend] == base.exec[id := EraseBackend];
    }

    static lemma BeginsNext(f: Preparation, s: Sys, id: JobId, now: int)
      requires s.mode.Up? && s.co.admitting.None? && id in s.exec && s.exec[id] == Begin
      requires id in s.co.jobs && s.co.jobs[id].operation == Erasure
      ensures Enabled(f, s, Run(id, Fine, now))
      ensures Apply(f, s, Run(id, Fine, now)) == if Terminal(s.co.jobs[id].status) then Leave(s, id) else At(s, id, EnterErasing)
    {
    }

    static lemma EntersNext(f: Preparation, s: Sys, id: JobId, now: int)
      requires s.mode.Up? && s.co.admitting.None? && id in s.exec && s.exec[id] == EnterErasing
      ensures Enabled(f, s, Run(id, Fine, now))
      ensures Apply(f, s, Run(id, Fine, now)) == Goto(Transition(s, id, Publishing, None, None, None, now), id, EraseBackend)
    {
      hide Transition;
    }

    /** The second half: the backend, and the record of what it said. */
    method EraseAndRecord(id: JobId, outcome: Outcome, now: int, ghost base: Sys, ghost s0: Sys,
                          ghost before: seq<Event>)
      returns (ghost events: seq<Event>)
      requires Valid() && backend.Valid() && id in jobs && (outcome.Fine? || outcome.Refused?) && base.mode.Up? && Legal(backend.prep, s0, before)
      requires After(backend.prep, s0, before) == View(base.(exec := base.exec[id := EraseBackend]))
      modifies this`jobs, this`log, this`acked, backend
      ensures Valid() && backend.Valid() && jobs.Keys == old(jobs).Keys && Keeps(old(jobs), jobs) && Legal(backend.prep, s0, events)
      ensures After(backend.prep, s0, events) == View(base.(exec := base.exec - {id}))
    {
      hide *;
      var erased;
      erased, events := EraseStep(id, outcome, now, base, s0, before);
      events := RecordStep(id, erased, now, base, s0, events);
    }

    static ghost function Outcomes(erased: Result<bool>): Pc {
      if erased.Ok? then EnterErased(erased.value) else EnterFailed(erased.error)
    }

    method EraseStep(id: JobId, outcome: Outcome, now: int, ghost base: Sys, ghost s0: Sys,
                     ghost before: seq<Event>)
      returns (erased: Result<bool>, ghost events: seq<Event>)
      requires Valid() && backend.Valid() && id in jobs && (outcome.Fine? || outcome.Refused?) && base.mode.Up? && Legal(backend.prep, s0, before)
      requires After(backend.prep, s0, before) == View(base.(exec := base.exec[id := EraseBackend]))
      modifies backend
      ensures Valid() && backend.Valid() && Legal(backend.prep, s0, events)
      ensures After(backend.prep, s0, events) == View(base.(exec := base.exec[id := Outcomes(erased)]))
    {
      hide Legal, After, Valid, EmbeddedBackend.Valid, Apply, Enabled, Execute, ExecuteErase;
      ghost var erasing := base.(exec := base.exec[id := EraseBackend]);
      ghost var s := View(erasing);
      erased := EraseDocument(id, outcome, erasing);
      ghost var step := if erased.Err? then Refused(erased.error) else Fine;
      ErasesNext(backend.prep, s, id, step, now);
      NextStep(backend.prep, s0, before, Run(id, step, now));
      events := before + [Run(id, step, now)];
      EraseLeaves(s, base.exec, id, step, Outcomes(erased));
    }

    method RecordStep(id: JobId, erased: Result<bool>, now: int, ghost base: Sys, ghost s0: Sys,
                      ghost before: seq<Event>)
      returns (ghost events: seq<Event>)
      requires Valid() && id in jobs && base.mode.Up? && Legal(backend.prep, s0, before)
      requires After(backend.prep, s0, before) == View(base.(exec := base.exec[id := Outcomes(erased)]))
      modifies this`jobs, this`log, this`acked
      ensures Valid() && jobs.Keys == old(jobs).Keys && Keeps(old(jobs), jobs) && Legal(backend.prep, s0, events)
      ensures After(backend.prep, s0, events) == View(base.(exec := base.exec - {id}))
    {
      hide Legal, After, Transition, Keeps, Valid;
      ghost var ending := base.(exec := base.exec[id := Outcomes(erased)]);
      var status := if erased.Ok? then Ready else Failed;
      var error := if erased.Ok? then None else Some(erased.error);
      var applied := if erased.Ok? then Some(erased.value) else None;
      EndsNext(backend.prep, View(ending), id, erased, now);
      hide Apply, Enabled, Execute;
      NextStep(backend.prep, s0, before, Run(id, Fine, now));
      events := before + [Run(id, Fine, now)];
      TransitionKeepsJobs(View(ending), id, status, error, None, applied, now);
      TransitionShape(View(ending), id, status, error, None, applied, now);
      var _ := Advance(id, status, error, None, applied, now, ending);
      assert base.exec[id := Outcomes(erased)] - {id} == base.exec - {id};
    }

    static lemma ErasesNext(f: Preparation, s: Sys, id: JobId, outcome: Outcome, now: int)
      requires s.mode.Up? && s.co.admitting.None? && id in s.exec && s.exec[id] == EraseBackend && (outcome.Fine? || outcome.Refused?)
      ensures Enabled(f, s, Run(id, outcome, now)) && Apply(f, s, Run(id, outcome, now)) == ExecuteErase(s, id, outcome)
    {
    }

    static lemma EraseLeaves(s: Sys, exec: map<JobId, Pc>, id: JobId, outcome: Outcome, pc: Pc)
      requires id in s.co.jobs && s.exec == exec[id := EraseBackend]
      requires id in ExecuteErase(s, id, outcome).exec && ExecuteErase(s, id, outcome).exec[id] == pc
      ensures ExecuteErase(s, id, outcome).exec == exec[id := pc]
    {
      hide Erase;
    }

    static lemma EndsNext(f: Preparation, s: Sys, id: JobId, erased: Result<bool>, now: int)
      requires s.mode.Up? && s.co.admitting.None? && id in s.exec && s.exec[id] == Outcomes(erased)
      ensures Enabled(f, s, Run(id, Fine, now))
      ensures var status := if erased.Ok? then Ready else Failed;
        var error := if erased.Ok? then None else Some(erased.error);
        var applied := if erased.Ok? then Some(erased.value) else None;
        Apply(f, s, Run(id, Fine, now)) == Leave(Transition(s, id, status, error, None, applied, now).0, id)
    {
      hide Transition;
    }

    /** The end of recovery: the recovered deletions are executed one after the other. */
    method RunDeletions(now: int, refusals: map<JobId, Errc>, ghost down: Sys, ghost before: seq<Event>)
      returns (ghost events: seq<Event>)
      requires Valid() && backend.Valid() && Legal(backend.prep, down, before)
      requires After(backend.prep, down, before) == View(down.(mode := Recovering({})))
      modifies this`jobs, this`log, this`acked, backend
      ensures Valid() && backend.Valid() && Legal(backend.prep, down, events)
      ensures After(backend.prep, down, events) == View(down.(mode := Up, exec := map[]))
    {
      hide Legal, After, Valid, EmbeddedBackend.Valid, Apply, Enabled, Keeps, SameJob;
      var todo := set id | id in jobs && !Terminal(jobs[id].status) && jobs[id].operation == Erasure;
      DoneNext(backend.prep, View(down.(mode := Recovering({}))), todo);
      NextStep(backend.prep, down, before, RecoverDone);
      events := before + [RecoverDone];
      while todo != {}
        invariant Valid() && backend.Valid() && Deletions(jobs, todo) && Legal(backend.prep, down, events)
        invariant After(backend.prep, down, events) == View(down.(mode := Up, exec := Starts(todo)))
        decreases todo
      {
        var id :| id in todo;
        events := NextDeletion(id, todo, now, if id in refusals then Refused(refusals[id]) else Fine, down, events);
        todo := todo - {id};
      }
      assert Starts({}) == map[];
    }

    method NextDeletion(id: JobId, ghost todo: set<JobId>, now: int, outcome: Outcome, ghost down: Sys,
                        ghost before: seq<Event>)
      returns (ghost events: seq<Event>)
      requires Valid() && backend.Valid() && Deletions(jobs, todo) && id in todo && (outcome.Fine? || outcome.Refused?) && Legal(backend.prep, down, before)
      requires After(backend.prep, down, before) == View(down.(mode := Up, exec := Starts(todo)))
      modifies this`jobs, this`log, this`acked, backend
      ensures Valid() && backend.Valid() && Deletions(jobs, todo - {id}) && Legal(backend.prep, down, events)
      ensures After(backend.prep, down, events) == View(down.(mode := Up, exec := Starts(todo - {id})))
    {
      hide Legal, After, Valid, Keeps, EmbeddedBackend.Valid;
      ghost var more := ExecuteDeletion(id, outcome, now, down.(mode := Up, exec := Starts(todo)));
      StillDeletions(old(jobs), jobs, todo);
      Concat(backend.prep, down, before, more);
      events := before + more;
      assert Starts(todo) - {id} == Starts(todo - {id});
    }

    /** The whole of recovery, up to the point where the workers start, on a backend just restored from the checkpoint.
        It is a run of the protocol's own steps from the crashed state, or it fails, exactly as the replay of the ready
        jobs does, in their order. */
    method Recover(loaded: seq<Job>, now: int, refusals: map<JobId, Errc>, ghost down: Sys)
      returns (r: Result<()>, ghost replay: seq<Job>, ghost events: seq<Event>)
      requires Lists(loaded, Latest(log)) && jobs == map[] && latestRevision == map[] && latestJob == map[] && queue == []
      requires backend.Valid()
      requires backend.active.value.dense.base.dimension == DimensionIn(backend.View().documents)
      requires down.mode.Down? && down.log == log && down.checkpoint == backend.View() && down.acked == acked
      modifies this`jobs, this`latestRevision, this`latestJob, this`queue, this`log, this`acked, backend
      ensures ReplayList(Latest(down.log), replay)
      ensures r.Ok? <==> Replay(backend.prep, down.checkpoint, replay, {}).Ok?
      ensures backend.Valid() && (r.Ok? ==> Valid())
      ensures r.Ok? ==>
        Legal(backend.prep, down, events) && After(backend.prep, down, events) == View(down.(mode := Up, exec := map[]))
    {
      hide Replay, Latest, IsLatestIndex, Legal, After, Replayed, ReplayList, KeyedById, DimensionIn, BaseAt, EmbeddedBackend.Valid;
      LoadJobs(loaded);
      var ready := SelectReady();
      r, replay := ReplayReady(ready);
      events := [];
      LatestKeyed(down.log);
      SelectionIsReplayList(jobs, ready, replay);
      if r.Err? {
        return;
      }
      BaseStays(down.checkpoint, replay);
      ghost var load := RecoverLoad(replay, {}, latestRevision, latestJob);
      ghost var unfinished := set id | id in jobs && !Terminal(jobs[id].status);
      LoadStep(backend.prep, down, load, unfinished, backend.View());
      events := Requeue(now, down, [load]);
      events := RunDeletions(now, refusals, down, events);
    }

    /** The loop of recovery over the unfinished jobs: superseded if overtaken, queued again otherwise. */
    method Requeue(now: int, ghost down: Sys, ghost before: seq<Event>)
      returns (ghost events: seq<Event>)
      requires Valid() && Legal(backend.prep, down, before)
      requires After(backend.prep, down, before) ==
        View(down.(mode := Recovering(set id | id in jobs && !Terminal(jobs[id].status))))
      modifies this`jobs, this`queue, this`log
      ensures Valid() && Legal(backend.prep, down, events)
      ensures After(backend.prep, down, events) == View(down.(mode := Recovering({})))
    {
      hide IsLatestIndex, Legal, After, RecoveredJob, KeyedById;
      var pending := set id | id in jobs && !Terminal(jobs[id].status);
      events := before;
      while pending != {}
        invariant pending <= jobs.Keys && Valid()
        invariant Legal(backend.prep, down, events)
        invariant After(backend.prep, down, events) == View(down.(mode := Recovering(pending)))
        decreases pending
      {
        var id :| id in pending;
        ghost var was := View(down.(mode := Recovering(pending)));
        RecoverJobInPlace(id, now);
        pending := pending - {id};
        NextStep(backend.prep, down, events, RecoverJob(id, now));
        events := events + [RecoverJob(id, now)];
      }
    }

    method RecoverJobInPlace(id: JobId, now: int)
      requires Valid() && id in jobs
      modifies this`jobs, this`queue, this`log
      ensures Valid()
      ensures var next := RecoveredJob(Coordinator(old(jobs), latestRevision, latestJob, old(queue), None), old(jobs)[id], now);
        jobs == old(jobs)[id := next] && log == old(log) + [next] &&
        queue == if next.status == Queued && next.operation == Upsert then old(queue) + [id] else old(queue)
    {
      hide IsLatestIndex, KeyedById;
      JobHeld(id);
      var job := jobs[id];
      if latestRevision[job.input.document] != job.revision {
        Install(id, job.(status := Superseded, updatedAt := now));
        return;
      }
      job := job.(status := Queued, updatedAt := now, error := None, prepared := None);
      Install(id, job);
      if job.operation == Upsert {
        queue := queue + [id];
      }
    }

    /** A worker takes the oldest queued job. */
    method Dequeue() returns (id: Option<JobId>)
      modifies this`queue
      ensures stopping || old(queue) == [] ==> id == None && queue == old(queue)
      ensures !stopping && old(queue) != [] ==> id == Some(old(queue)[0]) && queue == old(queue)[1..]
    {
      if stopping || queue == [] {
        return None;
      }
      id := Some(queue[0]);
      queue := queue[1..];
    }

    method Shutdown()
      modifies this`stopping, this`queue
      ensures stopping && (old(stopping) ==> queue == old(queue)) && (!old(stopping) ==> queue == [])
    {
      if stopping {
        return;
      }
      stopping := true;
      queue := [];
    }
  }
}
