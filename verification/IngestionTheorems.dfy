/** What the ingestion protocol promises over whole runs, when recovery is refused, and what
    goes wrong without the hypotheses. */
module IngestionTheorems {
  import opened Wrappers
  import opened Documents
  import opened Validation
  import opened Jobs
  import opened Ingestion
  import opened IngestionSafety

  // ------------------------------------------------------- no acknowledged loss

  lemma {:induction false} PrefixLegal(f: Preparation, events: seq<Event>, k: nat)
    requires Legal(f, Initial, events) && k <= |events|
    ensures Legal(f, Initial, events[..k])
    ensures After(f, Initial, events[..k]).acked <= After(f, Initial, events).acked
  {
    if k < |events| {
      var n := |events| - 1;
      PrefixLegal(f, events[..n], k);
      assert events[..n][..k] == events[..k];
      AckedGrows(f, After(f, Initial, events[..n]), events[n]);
    } else {
      assert events[..k] == events;
    }
  }

  lemma AckedGrows(f: Preparation, s: Sys, e: Event)
    requires Enabled(f, s, e)
    ensures s.acked <= Apply(f, s, e).acked
  {
    hide Activate, Erase, Advanced, Retired, Replay, ReplayList, IsLatestIndex, Latest, CutOf;
  }

  /** Over every run with crashes between any two steps: once the ready record of a mutation has
      been written, every later state that is not down holds it or something newer. */
  lemma NoAcknowledgedLoss(f: Preparation, events: seq<Event>, k: nat, m: Mutation)
    requires Legal(f, Initial, events) && k <= |events|
    requires Legal(f, Initial, events[..k]) && m in After(f, Initial, events[..k]).acked
    ensures var s := After(f, Initial, events);
      if s.mode.Down? then Covers(s.checkpoint, m) || Logged(s.log, m) else Covers(s.backend, m)
  {
    PrefixLegal(f, events, k);
    RunsKeep(f, events);
  }

  // ------------------------------------------------- one unfinished job, the latest

  lemma OneUnfinishedJob(f: Preparation, events: seq<Event>, a: JobId, b: JobId)
    requires Legal(f, Initial, events) && After(f, Initial, events).mode.Up?
    requires var jobs := After(f, Initial, events).co.jobs;
      a in jobs && !Terminal(jobs[a].status) && b in jobs && jobs[b].input.document == jobs[a].input.document
    ensures var co := After(f, Initial, events).co;
      co.jobs[a].input.document in co.latestJob && co.latestJob[co.jobs[a].input.document] == a &&
      co.jobs[b].revision <= co.jobs[a].revision && (!Terminal(co.jobs[b].status) ==> b == a)
  {
    RunsKeep(f, events);
    var s := After(f, Initial, events);
    UnfinishedIsLatest(f, s, a, b);
  }

  lemma UnfinishedIsLatest(f: Preparation, s: Sys, a: JobId, b: JobId)
    requires Inv(f, s) && s.mode.Up?
    requires a in s.co.jobs && !Terminal(s.co.jobs[a].status)
    requires b in s.co.jobs && s.co.jobs[b].input.document == s.co.jobs[a].input.document
    ensures s.co.jobs[a].input.document in s.co.latestJob && s.co.latestJob[s.co.jobs[a].input.document] == a
    ensures s.co.jobs[b].revision <= s.co.jobs[a].revision && (!Terminal(s.co.jobs[b].status) ==> b == a)
  {
    hide LogKnown, Final, Durable, Threads, Live, KnownOk;
    assert OneJobPerSlot(s.co.jobs) by { SlotsHeld(f, s); }
    assert Current(s.co.latestRevision, s.co.jobs[a]);
    var l := s.co.latestJob[s.co.jobs[a].input.document];
    assert SameSlot(s.co.jobs[l], s.co.jobs[a]);
  }

  lemma SlotsHeld(f: Preparation, s: Sys)
    requires Inv(f, s) && !s.mode.Down?
    ensures OneJobPerSlot(s.co.jobs)
  {
    hide LogKnown, Final, Durable, Threads, Live, Unfinished, IsLatestIndex;
    if s.co.admitting.Some? {
      KnownWithout(f, s.co.jobs, s.co.admitting.value);
    }
  }

  // -------------------------------------------------------- terminal stays terminal

  /** Within one lifetime no step changes a terminal job. */
  lemma TerminalIsFinal(f: Preparation, s: Sys, e: Event, id: JobId)
    requires Inv(f, s) && Enabled(f, s, e) && s.mode.Up? && !e.Crash?
    requires id in s.co.jobs && Terminal(s.co.jobs[id].status)
    ensures id in Apply(f, s, e).co.jobs && Apply(f, s, e).co.jobs[id] == s.co.jobs[id]
  {
    hide KnownOk, LogKnown, Final, Durable, Live, Threads, Unfinished, CutOf, Activate, Erase, IsLatestIndex;
    if e.Run? {
      RunTerminal(s, e.id, e.outcome, e.now, id);
    } else if e.Admitted? {
      var older := Displaced(s.co, s.co.admitting.value.input.document);
      if older.Some? {
        DisplacedKeyed(f, s);
      }
    }
  }

  lemma DisplacedKeyed(f: Preparation, s: Sys)
    requires Inv(f, s) && s.mode.Up? && s.co.admitting.Some?
    ensures forall id :: id in s.co.jobs ==> s.co.jobs[id].id == id
  {
    hide LogKnown, Final, Durable, Threads, Unfinished, Live, IsLatestIndex, OneJobPerSlot;
    var known := Known(s);
    forall id | id in s.co.jobs
      ensures s.co.jobs[id].id == id
    {
      assert id in known && known[id] == s.co.jobs[id];
    }
  }

  lemma TransitionTerminal(s: Sys, x: JobId, status: Status, error: Option<Errc>, prepared: Option<PreparedDocument>,
                           applied: Option<bool>, now: int, id: JobId)
    requires id in s.co.jobs && Terminal(s.co.jobs[id].status)
    ensures var jobs := Transition(s, x, status, error, prepared, applied, now).0.co.jobs;
      id in jobs && jobs[id] == s.co.jobs[id]
  {
  }

  lemma RunTerminal(s: Sys, x: JobId, outcome: Outcome, now: int, id: JobId)
    requires x in s.exec && id in s.co.jobs && Terminal(s.co.jobs[id].status)
    ensures id in Execute(s, x, outcome, now).co.jobs && Execute(s, x, outcome, now).co.jobs[id] == s.co.jobs[id]
  {
    hide Activate, Erase, Transition;
    match s.exec[x]
    case EnterChunking => TransitionTerminal(s, x, Chunking, None, None, None, now, id);
    case EnterEmbedding(_) => TransitionTerminal(s, x, Embedding, None, None, None, now, id);
    case EnterPublishing(p) => TransitionTerminal(s, x, Publishing, None, Some(p), None, now, id);
    case EnterReady(p) => TransitionTerminal(s, x, Ready, None, Some(p), None, now, id);
    case EnterErasing => TransitionTerminal(s, x, Publishing, None, None, None, now, id);
    case EnterErased(a) => TransitionTerminal(s, x, Ready, None, None, Some(a), now, id);
    case EnterFailed(error) => TransitionTerminal(s, x, Failed, Some(error), None, None, now, id);
    case _ =>
  }

  /** A record that ends a job is never contradicted by a later log, only forgotten by a cut. */
  lemma TerminalRecordIsFinal(f: Preparation, s: Sys, e: Event, id: JobId)
    requires Inv(f, s) && Enabled(f, s, e)
    requires id in Latest(s.log) && Terminal(Latest(s.log)[id].status) && id in Latest(Apply(f, s, e).log)
    ensures Latest(Apply(f, s, e).log)[id] == Latest(s.log)[id]
  {
    var j := Latest(s.log)[id];
    var s' := Apply(f, s, e);
    StepKeeps(f, s, e);
    assert j in s'.log by {
      if e.CheckpointCut? {
        CutForgets(s.log, s.maintenance.position, e.kept, j);
      } else {
        LogGrows(f, s, e);
      }
    }
    LatestOfTerminal(s'.log, j);
  }

  lemma LogGrows(f: Preparation, s: Sys, e: Event)
    requires Enabled(f, s, e) && !e.CheckpointCut?
    ensures forall j :: j in s.log ==> j in Apply(f, s, e).log
  {
    hide Activate, Erase, Latest, Replay, CutOf;
  }

  /** A cut keeps a terminal record or every trace of its job. */
  lemma CutForgets(log: seq<Job>, position: nat, kept: seq<Job>, j: Job)
    requires Final(log) && position <= |log| && CutOf(log[..position], kept)
    requires j in log && Terminal(j.status) && j.id in Latest(kept + log[position..])
    ensures j in kept + log[position..]
  {
    var cut := kept + log[position..];
    var r := Latest(cut)[j.id];
    assert r in cut;
    if j !in log[position..] {
      assert j in log[..position];
      LatestOfTerminal(log[..position], j);
      assert r in kept ==> r == j;
    }
  }

  // --------------------------------------------- runs whose log covers the catalog

  ghost predicate Below(c: Catalog, revisions: Revisions) {
    forall d :: d in c.revisions ==> d in revisions && c.revisions[d] <= revisions[d]
  }

  /** Where the catalog stands at a job's revision, it holds that job's effect. */
  predicate Agrees(c: Catalog, j: Job) {
    j.input.document in c.revisions && c.revisions[j.input.document] == j.revision ==>
      EffectAt(c, j.input.document) == EffectOf(j)
  }

  ghost predicate Fits(c: Catalog, jobs: JobMap, revisions: Revisions) {
    Below(c, revisions) && forall id :: id in jobs ==> Agrees(c, jobs[id])
  }

  /** The log still names a job at or above every revision of the checkpoint. */
  ghost predicate LogCovers(s: Sys) {
    forall d :: d in s.checkpoint.revisions ==>
      exists j :: j in s.log && j.input.document == d && j.revision >= s.checkpoint.revisions[d]
  }

  ghost predicate Covered(s: Sys) {
    if s.mode.Down? then forall j :: j in s.log ==> Agrees(s.checkpoint, j)
    else
      Fits(s.backend, s.co.jobs, s.co.latestRevision) && Fits(s.checkpoint, s.co.jobs, s.co.latestRevision) &&
      (s.maintenance.Copied? ==> Fits(s.maintenance.copy, s.co.jobs, s.co.latestRevision))
  }

  lemma SameJobsFit(c: Catalog, jobs: JobMap, jobs': JobMap, revisions: Revisions)
    requires Fits(c, jobs, revisions)
    requires forall id :: id in jobs' ==> id in jobs && SameJob(jobs[id], jobs'[id])
    ensures Fits(c, jobs', revisions)
  {
    forall id | id in jobs'
      ensures Agrees(c, jobs'[id])
    {
      assert Agrees(c, jobs[id]);
    }
  }

  lemma AdmittedFits(c: Catalog, jobs: JobMap, jobs': JobMap, revisions: Revisions, job: Job)
    requires Fits(c, jobs, revisions) && job.id !in jobs'
    requires forall id :: id in jobs' ==> id in jobs && SameJob(jobs[id], jobs'[id])
    requires job.revision == GetOr(revisions, job.input.document, 0) + 1
    ensures Fits(c, jobs'[job.id := job], revisions[job.input.document := job.revision])
  {
    SameJobsFit(c, jobs, jobs', revisions);
  }

  /** A backend change made for a job of the index fits the index. */
  lemma AppliedFits(c: Catalog, next: Catalog, jobs: JobMap, revisions: Revisions, latest: map<DocKey, JobId>, id: JobId)
    requires Fits(c, jobs, revisions) && IsLatestIndex(jobs, revisions, latest) && OneJobPerSlot(jobs)
    requires id in jobs && ChangesOnly(c, next, jobs[id].input.document) && Applied(next, jobs[id])
    ensures Fits(next, jobs, revisions)
  {
    forall k | k in jobs
      ensures Agrees(next, jobs[k])
    {
      assert Agrees(c, jobs[k]);
      if SameSlot(jobs[k], jobs[id]) {
        assert k == id;
      }
    }
  }

  /** Steps that only move jobs on keep the cover. */
  lemma JobsMoveCovered(s: Sys, s': Sys)
    requires Covered(s) && !s.mode.Down? && !s'.mode.Down?
    requires s'.backend == s.backend && s'.checkpoint == s.checkpoint && s'.maintenance == s.maintenance
    requires s'.co.latestRevision == s.co.latestRevision
    requires forall id :: id in s'.co.jobs ==> id in s.co.jobs && SameJob(s.co.jobs[id], s'.co.jobs[id])
    ensures Covered(s')
  {
    SameJobsFit(s.backend, s.co.jobs, s'.co.jobs, s.co.latestRevision);
    SameJobsFit(s.checkpoint, s.co.jobs, s'.co.jobs, s.co.latestRevision);
    if s.maintenance.Copied? {
      SameJobsFit(s.maintenance.copy, s.co.jobs, s'.co.jobs, s.co.latestRevision);
    }
  }

  lemma AdvancedSame(j: Job, status: Status, error: Option<Errc>, prepared: Option<PreparedDocument>,
                     applied: Option<bool>, now: int)
    ensures SameJob(j, Advanced(j, status, error, prepared, applied, now))
    ensures SameJob(j, Retired(j, now).(error := None))
  {
  }

  lemma TransitionSameJobs(s: Sys, id: JobId, status: Status, error: Option<Errc>, prepared: Option<PreparedDocument>,
                           applied: Option<bool>, now: int)
    ensures var s' := Transition(s, id, status, error, prepared, applied, now).0;
      s'.mode == s.mode && s'.backend == s.backend && s'.checkpoint == s.checkpoint && s'.maintenance == s.maintenance &&
      s'.co.latestRevision == s.co.latestRevision &&
      forall k :: k in s'.co.jobs ==> k in s.co.jobs && SameJob(s.co.jobs[k], s'.co.jobs[k])
  {
    hide Advanced, Retired;
    if id in s.co.jobs {
      AdvancedSame(s.co.jobs[id], status, error, prepared, applied, now);
    }
  }

  lemma RunCovered(f: Preparation, s: Sys, id: JobId, outcome: Outcome, now: int)
    requires Inv(f, s) && Covered(s) && s.mode.Up? && s.co.admitting.None? && RunEnabled(f, s, id, outcome)
    ensures Covered(Execute(s, id, outcome, now))
  {
    hide Inv, Covered, Transition, ExecutePublish, ExecuteErase;
    var s' := Execute(s, id, outcome, now);
    match s.exec[id]
    case Publish(p) => PublishCovered(f, s, id, p, outcome);
    case EraseBackend => EraseCovered(f, s, id, outcome);
    case EnterChunking => TransitionSameJobs(s, id, Chunking, None, None, None, now); JobsMoveCovered(s, s');
    case EnterEmbedding(_) => TransitionSameJobs(s, id, Embedding, None, None, None, now); JobsMoveCovered(s, s');
    case EnterPublishing(p) => TransitionSameJobs(s, id, Publishing, None, Some(p), None, now); JobsMoveCovered(s, s');
    case EnterReady(p) => TransitionSameJobs(s, id, Ready, None, Some(p), None, now); JobsMoveCovered(s, s');
    case EnterErasing => TransitionSameJobs(s, id, Publishing, None, None, None, now); JobsMoveCovered(s, s');
    case EnterErased(a) => TransitionSameJobs(s, id, Ready, None, None, Some(a), now); JobsMoveCovered(s, s');
    case EnterFailed(x) => TransitionSameJobs(s, id, Failed, Some(x), None, None, now); JobsMoveCovered(s, s');
    case _ => JobsMoveCovered(s, s');
  }

  lemma ActivateFits(c: Catalog, p: PreparedDocument, next: Catalog, jobs: JobMap, revisions: Revisions,
                     latest: map<DocKey, JobId>, id: JobId)
    requires CatalogOk(c) && Fits(c, jobs, revisions) && IsLatestIndex(jobs, revisions, latest) && OneJobPerSlot(jobs)
    requires id in jobs && !Terminal(jobs[id].status) && Holds(jobs[id], p)
    requires Activate(c, p, jobs[id].revision) == Ok(next)
    ensures Fits(next, jobs, revisions)
  {
    hide Fits, IsLatestIndex, OneJobPerSlot, Activate;
    AppliedFits(c, next, jobs, revisions, latest, id);
  }

  lemma EraseFits(c: Catalog, next: (Catalog, bool), jobs: JobMap, revisions: Revisions,
                  latest: map<DocKey, JobId>, id: JobId)
    requires Fits(c, jobs, revisions) && IsLatestIndex(jobs, revisions, latest) && OneJobPerSlot(jobs)
    requires id in jobs && jobs[id].operation == Erasure
    requires Erase(c, jobs[id].input.document, jobs[id].revision) == Ok(next)
    ensures Fits(next.0, jobs, revisions)
  {
    hide Fits, IsLatestIndex, OneJobPerSlot, Erase;
    AppliedFits(c, next.0, jobs, revisions, latest, id);
  }

  lemma PublishCovered(f: Preparation, s: Sys, id: JobId, p: PreparedDocument, outcome: Outcome)
    requires Inv(f, s) && Covered(s) && s.mode.Up? && s.co.admitting.None? && id in s.exec && s.exec[id] == Publish(p)
    ensures Covered(ExecutePublish(s, id, p, outcome))
  {
    hide KeyedById, LogKnown, Final, Durable, Threads, Unfinished, Activate, Fits, OneJobPerSlot, IsLatestIndex, CatalogOk;
    RunFacts(f, s, id);
    var job := s.co.jobs[id];
    if Current(s.co.latestRevision, job) && !outcome.Refused? {
      match Activate(s.backend, p, job.revision)
      case Ok(next) => ActivateFits(s.backend, p, next, s.co.jobs, s.co.latestRevision, s.co.latestJob, id);
      case Err(_) =>
    }
  }

  lemma EraseCovered(f: Preparation, s: Sys, id: JobId, outcome: Outcome)
    requires Inv(f, s) && Covered(s) && s.mode.Up? && s.co.admitting.None? && id in s.exec && s.exec[id] == EraseBackend
    ensures Covered(ExecuteErase(s, id, outcome))
  {
    hide KeyedById, LogKnown, Final, Durable, Threads, Unfinished, Erase, Fits, OneJobPerSlot, IsLatestIndex, CatalogOk;
    RunFacts(f, s, id);
    var job := s.co.jobs[id];
    if !outcome.Refused? {
      match Erase(s.backend, job.input.document, job.revision)
      case Ok(next) => EraseFits(s.backend, next, s.co.jobs, s.co.latestRevision, s.co.latestJob, id);
      case Err(_) =>
    }
  }

  lemma AdmittedCovered(f: Preparation, s: Sys, asynchronous: bool, now: int)
    requires Inv(f, s) && Covered(s) && s.mode.Up? && s.co.admitting.Some?
    ensures Covered(FinishAdmission(s, asynchronous, now))
  {
    hide KnownOk, LogKnown, Final, Durable, Threads, Unfinished, Live, Fits, IsLatestIndex;
    DisplacedKeyed(f, s);
    var job := s.co.admitting.value;
    var jobs := WithoutDisplaced(s.co, job.input.document, now);
    AdmittedFits(s.backend, s.co.jobs, jobs, s.co.latestRevision, job);
    AdmittedFits(s.checkpoint, s.co.jobs, jobs, s.co.latestRevision, job);
    if s.maintenance.Copied? {
      AdmittedFits(s.maintenance.copy, s.co.jobs, jobs, s.co.latestRevision, job);
    }
  }

  lemma CrashAgrees(f: Preparation, c: Catalog, log: seq<Job>, co: Coordinator, known: JobMap)
    requires LogKnown(f, known, log) && Fits(c, co.jobs, co.latestRevision) && AdmissionOk(co)
    requires known == if co.admitting.Some? then co.jobs[co.admitting.value.id := co.admitting.value] else co.jobs
    ensures forall j :: j in log ==> Agrees(c, j)
  {
    forall j | j in log
      ensures Agrees(c, j)
    {
      assert RecordKnown(f, known, j);
      assert j.id in co.jobs ==> Agrees(c, co.jobs[j.id]);
    }
  }

  lemma CrashCovered(f: Preparation, s: Sys)
    requires Inv(f, s) && Covered(s)
    ensures Covered(Crashed(s))
  {
    hide KnownOk, LogKnown, Final, Durable, Threads, Unfinished, Live, IsLatestIndex, Fits;
    if !s.mode.Down? {
      CrashAgrees(f, s.checkpoint, s.log, s.co, Known(s));
    }
  }

  lemma {:induction false} ReplayFits(f: Preparation, c: Catalog, replay: seq<Job>, compacted: set<nat>, jobs: JobMap, revisions: Revisions,
                                      latest: map<DocKey, JobId>)
    requires CatalogOk(c) && Fits(c, jobs, revisions) && IsLatestIndex(jobs, revisions, latest) && KnownOk(f, jobs)
    requires forall j :: j in replay ==> j in jobs.Values && j.status == Ready
    requires Replay(f, c, replay, compacted).Ok?
    ensures CatalogOk(Replay(f, c, replay, compacted).value) && Fits(Replay(f, c, replay, compacted).value, jobs, revisions)
  {
    if replay != [] {
      var n := |replay| - 1;
      ReplayFits(f, c, replay[..n], compacted, jobs, revisions, latest);
      var mid := Replay(f, c, replay[..n], compacted).value;
      assert replay[n] in replay;
      hide Replay;
      ReplayJobFits(f, BaseAt(c, replay[..n], compacted), mid, replay[n], jobs, revisions, latest);
    }
  }

  lemma ReplayJobFits(f: Preparation, base: nat, c: Catalog, j: Job, jobs: JobMap, revisions: Revisions, latest: map<DocKey, JobId>)
    requires CatalogOk(c) && Fits(c, jobs, revisions) && IsLatestIndex(jobs, revisions, latest) && KnownOk(f, jobs)
    requires j in jobs.Values && j.status == Ready && ReplayJob(f, base, c, j).Ok?
    ensures CatalogOk(ReplayJob(f, base, c, j).value) && Fits(ReplayJob(f, base, c, j).value, jobs, revisions)
  {
    hide Fits, IsLatestIndex, OneJobPerSlot, Activate, Erase;
    var id :| id in jobs && jobs[id] == j;
    AppliedFits(c, ReplayJob(f, base, c, j).value, jobs, revisions, latest, id);
  }

  lemma LoadedFits(f: Preparation, s: Sys, revisions: Revisions, latest: map<DocKey, JobId>)
    requires LogKnown(f, Latest(s.log), s.log) && IsLatestIndex(Latest(s.log), revisions, latest) && LogCovers(s)
    requires forall j :: j in s.log ==> Agrees(s.checkpoint, j)
    ensures Fits(s.checkpoint, Latest(s.log), revisions)
  {
    var jobs := Latest(s.log);
    forall d | d in s.checkpoint.revisions
      ensures d in revisions && s.checkpoint.revisions[d] <= revisions[d]
    {
      var j :| j in s.log && j.input.document == d && j.revision >= s.checkpoint.revisions[d];
      assert RecordKnown(f, jobs, j);
    }
    forall id | id in jobs
      ensures Agrees(s.checkpoint, jobs[id])
    {
      assert jobs[id] in s.log;
    }
  }

  lemma ReplayedLoaded(jobs: JobMap, replay: seq<Job>)
    requires ReplayList(jobs, replay)
    ensures forall j :: j in replay ==> j in jobs.Values && j.status == Ready
  {
    forall j | j in replay
      ensures j in jobs.Values && j.status == Ready
    {
      assert Replayed(jobs, j);
    }
  }

  lemma RecoverCovered(f: Preparation, s: Sys, e: Event)
    requires Inv(f, s) && Covered(s) && e.RecoverLoad? && Enabled(f, s, e) && LogCovers(s)
    ensures Covered(Apply(f, s, e))
  {
    hide Final, Replay, LogKnown, KnownOk, Fits, IsLatestIndex, ReplayList, Latest, LogCovers, Agrees;
    LoadedFits(f, s, e.revisions, e.latest);
    ReplayedLoaded(Latest(s.log), e.replay);
    ReplayFits(f, s.checkpoint, e.replay, e.compacted, Latest(s.log), e.revisions, e.latest);
  }

  lemma StepCovered(f: Preparation, s: Sys, e: Event)
    requires Inv(f, s) && Covered(s) && Enabled(f, s, e) && (e.RecoverLoad? ==> LogCovers(s))
    ensures Covered(Apply(f, s, e))
  {
    hide Inv, Fits, Execute, FinishAdmission, CutOf;
    match e
    case Admitted(asynchronous, now) => AdmittedCovered(f, s, asynchronous, now);
    case Run(id, outcome, now) => RunCovered(f, s, id, outcome, now);
    case Crash => CrashCovered(f, s);
    case RecoverLoad(_, _, _, _) => RecoverCovered(f, s, e);
    case RecoverJob(id, now) =>
      RecoverJobId(f, s, id);
      JobsMoveCovered(s, Apply(f, s, e));
    case _ =>
  }

  lemma RecoverJobId(f: Preparation, s: Sys, id: JobId)
    requires Inv(f, s) && s.mode.Recovering? && id in s.co.jobs
    ensures s.co.jobs[id].id == id
  {
  }

  /** Every recovery of the run starts from a log that covers the checkpoint. */
  ghost predicate CoveredRun(f: Preparation, events: seq<Event>)
    requires Legal(f, Initial, events)
  {
    events == [] ||
    (CoveredRun(f, events[..|events| - 1]) &&
     (events[|events| - 1].RecoverLoad? ==> LogCovers(After(f, Initial, events[..|events| - 1]))))
  }

  lemma {:induction false} RunsCovered(f: Preparation, events: seq<Event>)
    requires Legal(f, Initial, events) && CoveredRun(f, events)
    ensures Inv(f, After(f, Initial, events)) && Covered(After(f, Initial, events))
  {
    RunsKeep(f, events);
    if events != [] {
      var n := |events| - 1;
      RunsCovered(f, events[..n]);
      hide Inv, Covered, Apply, Enabled, LogCovers;
      StepCovered(f, After(f, Initial, events[..n]), events[n]);
    }
  }

  // -------------------------------------- never ahead exactly when always covered

  lemma CheckpointBelow(f: Preparation, s: Sys, revisions: Revisions, latest: map<DocKey, JobId>)
    requires LogKnown(f, Latest(s.log), s.log) && IsLatestIndex(Latest(s.log), revisions, latest) && LogCovers(s)
    ensures Below(s.checkpoint, revisions)
  {
    forall d | d in s.checkpoint.revisions
      ensures d in revisions && s.checkpoint.revisions[d] <= revisions[d]
    {
      var j :| j in s.log && j.input.document == d && j.revision >= s.checkpoint.revisions[d];
      assert RecordKnown(f, Latest(s.log), j);
    }
  }

  lemma ReplayJobBelow(f: Preparation, base: nat, c: Catalog, j: Job, jobs: JobMap, revisions: Revisions, latest: map<DocKey, JobId>)
    requires CatalogOk(c) && Below(c, revisions) && IsLatestIndex(jobs, revisions, latest)
    requires RecordOk(f, j) && j in jobs.Values && j.status == Ready && ReplayJob(f, base, c, j).Ok?
    ensures CatalogOk(ReplayJob(f, base, c, j).value) && Below(ReplayJob(f, base, c, j).value, revisions)
  {
  }

  lemma {:induction false} ReplayBelow(f: Preparation, c: Catalog, replay: seq<Job>, compacted: set<nat>, jobs: JobMap, revisions: Revisions,
                                       latest: map<DocKey, JobId>)
    requires CatalogOk(c) && Below(c, revisions) && IsLatestIndex(jobs, revisions, latest)
    requires forall j :: j in replay ==> RecordOk(f, j) && j in jobs.Values && j.status == Ready
    requires Replay(f, c, replay, compacted).Ok?
    ensures CatalogOk(Replay(f, c, replay, compacted).value) && Below(Replay(f, c, replay, compacted).value, revisions)
  {
    if replay != [] {
      var n := |replay| - 1;
      ReplayBelow(f, c, replay[..n], compacted, jobs, revisions, latest);
      ReplayJobBelow(f, BaseAt(c, replay[..n], compacted), Replay(f, c, replay[..n], compacted).value, replay[n], jobs, revisions, latest);
    }
  }

  /** A replay that ends within the index of the log started from a checkpoint the log covers. */
  lemma BelowCovers(f: Preparation, s: Sys, replay: seq<Job>, compacted: set<nat>, revisions: Revisions, latest: map<DocKey, JobId>)
    requires CatalogOk(s.checkpoint) && IsLatestIndex(Latest(s.log), revisions, latest)
    requires forall j :: j in replay ==> RecordOk(f, j) && j.status == Ready
    requires Replay(f, s.checkpoint, replay, compacted).Ok? && Below(Replay(f, s.checkpoint, replay, compacted).value, revisions)
    ensures LogCovers(s)
  {
    hide Replay, CatalogOk;
    ReplayCovers(f, s.checkpoint, replay, compacted);
    forall d | d in s.checkpoint.revisions
      ensures exists j :: j in s.log && j.input.document == d && j.revision >= s.checkpoint.revisions[d]
    {
      assert Covers(s.checkpoint, Mutation(d, s.checkpoint.revisions[d], EffectAt(s.checkpoint, d)));
      assert Latest(s.log)[latest[d]] in s.log;
    }
  }

  /** A recovery leaves the backend within the assigned revisions exactly when the log still
      names a job at or above every revision of the checkpoint. */
  lemma RecoveredBelowIff(f: Preparation, s: Sys, e: Event)
    requires Inv(f, s) && e.RecoverLoad? && Enabled(f, s, e)
    ensures Below(Apply(f, s, e).backend, Apply(f, s, e).co.latestRevision) <==> LogCovers(s)
  {
    hide Final, Replay, LogKnown, IsLatestIndex, ReplayList, Latest, LogCovers, Below, CatalogOk, RecordOk, OneJobPerSlot;
    ReplayedRecords(f, Latest(s.log), e.replay);
    ReplayedLoaded(Latest(s.log), e.replay);
    if LogCovers(s) {
      CheckpointBelow(f, s, e.revisions, e.latest);
      ReplayBelow(f, s.checkpoint, e.replay, e.compacted, Latest(s.log), e.revisions, e.latest);
    }
    if Below(Replay(f, s.checkpoint, e.replay, e.compacted).value, e.revisions) {
      BelowCovers(f, s, e.replay, e.compacted, e.revisions, e.latest);
    }
  }

  /** At this point of the run the backend, if it is up, is within the assigned revisions. */
  ghost predicate NotAhead(f: Preparation, events: seq<Event>) {
    Legal(f, Initial, events) ==>
      var s := After(f, Initial, events); !s.mode.Down? ==> Below(s.backend, s.co.latestRevision)
  }

  ghost predicate NeverAhead(f: Preparation, events: seq<Event>) {
    forall k :: 0 <= k <= |events| ==> NotAhead(f, events[..k])
  }

  lemma NeverAheadStep(f: Preparation, events: seq<Event>)
    requires events != []
    ensures NeverAhead(f, events) <==> NeverAhead(f, events[..|events| - 1]) && NotAhead(f, events)
  {
    var n := |events| - 1;
    hide NotAhead;
    assert events[..|events|] == events;
    forall k | 0 <= k <= n
      ensures events[..n][..k] == events[..k]
    {
    }
    assert forall k :: 0 <= k <= n ==> (NotAhead(f, events[..n][..k]) <==> NotAhead(f, events[..k]));
  }

  /** Over every run: the backend is never ahead of the assigned revisions exactly when every
      recovery started from a log that covers its checkpoint. */
  lemma {:induction false} NeverAheadIff(f: Preparation, events: seq<Event>)
    requires Legal(f, Initial, events)
    ensures NeverAhead(f, events) <==> CoveredRun(f, events)
  {
    if events == [] {
      assert forall k :: 0 <= k <= |events| ==> events[..k] == [];
    } else {
      var n := |events| - 1;
      NeverAheadIff(f, events[..n]);
      hide NeverAhead, NotAhead, LogCovers, Apply, Enabled;
      NeverAheadStep(f, events);
      if CoveredRun(f, events[..n]) {
        NotAheadLast(f, events);
      }
    }
  }

  lemma NotAheadLast(f: Preparation, events: seq<Event>)
    requires Legal(f, Initial, events) && events != [] && CoveredRun(f, events[..|events| - 1])
    ensures NotAhead(f, events) <==> CoveredRun(f, events)
  {
    hide Covered, LogCovers;
    if CoveredRun(f, events) {
      CoveredNotAhead(f, events);
    } else {
      UncoveredIsAhead(f, events[..|events| - 1], events[|events| - 1]);
    }
  }

  lemma CoveredNotAhead(f: Preparation, events: seq<Event>)
    requires Legal(f, Initial, events) && CoveredRun(f, events)
    ensures NotAhead(f, events)
  {
    hide CoveredRun, Legal, After, Inv;
    RunsCovered(f, events);
  }

  lemma UncoveredIsAhead(f: Preparation, events: seq<Event>, e: Event)
    requires Legal(f, Initial, events) && e.RecoverLoad? && Enabled(f, After(f, Initial, events), e)
    requires !LogCovers(After(f, Initial, events))
    ensures var s := Apply(f, After(f, Initial, events), e); !s.mode.Down? && !Below(s.backend, s.co.latestRevision)
  {
    RunsKeep(f, events);
    hide Inv, Legal, After, Below, LogCovers, Replay, ReplayList, IsLatestIndex, Latest;
    RecoveredBelowIff(f, After(f, Initial, events), e);
  }

  /** In a covered run the backend never runs ahead of the latest assigned revision. */
  lemma BackendNotAhead(f: Preparation, events: seq<Event>, d: DocKey)
    requires Legal(f, Initial, events) && CoveredRun(f, events)
    requires var s := After(f, Initial, events); !s.mode.Down? && d in s.backend.revisions
    ensures var s := After(f, Initial, events);
      d in s.co.latestRevision && s.backend.revisions[d] <= s.co.latestRevision[d]
  {
    RunsCovered(f, events);
  }

  /** In a covered run an upsert that reaches activation while current is never refused as stale. */
  lemma NeverStale(f: Preparation, events: seq<Event>, id: JobId, p: PreparedDocument)
    requires Legal(f, Initial, events) && CoveredRun(f, events)
    requires var s := After(f, Initial, events);
      s.mode.Up? && id in s.exec && s.exec[id] == Publish(p) && id in s.co.jobs &&
      Current(s.co.latestRevision, s.co.jobs[id])
    ensures var s := After(f, Initial, events); Activate(s.backend, p, s.co.jobs[id].revision).Ok?
  {
    hide Legal, After, Inv, Covered, Current, CoveredRun, Activate;
    RunsCovered(f, events);
    CurrentIsAdmitted(f, After(f, Initial, events), id, p);
  }

  lemma CurrentIsAdmitted(f: Preparation, s: Sys, id: JobId, p: PreparedDocument)
    requires Inv(f, s) && Covered(s) && s.mode.Up? && id in s.exec && s.exec[id] == Publish(p) && id in s.co.jobs
    requires Current(s.co.latestRevision, s.co.jobs[id])
    ensures Activate(s.backend, p, s.co.jobs[id].revision).Ok?
  {
    hide KnownOk, LogKnown, Final, Durable, IsLatestIndex, Unfinished, Activate;
    assert ThreadOk(f, s.co.latestRevision, s.backend, s.co.jobs[id], s.exec[id]);
    assert Agrees(s.backend, s.co.jobs[id]);
  }

  // ------------------------------------------------------- within one lifetime

  predicate CrashFree(events: seq<Event>) { forall i :: 0 <= i < |events| ==> !events[i].Crash? }

  /** Jobs keep their identity, and the backend forgets nothing. */
  ghost predicate Continues(s: Sys, s': Sys) {
    !s'.mode.Down? && Grows(s.backend, s'.backend) && Keeps(s.co.jobs, s'.co.jobs)
  }

  predicate Keeps(jobs: JobMap, next: JobMap) {
    forall id :: id in jobs ==> id in next && SameJob(jobs[id], next[id])
  }

  lemma TransitionKeepsJobs(s: Sys, id: JobId, status: Status, error: Option<Errc>, prepared: Option<PreparedDocument>,
                            applied: Option<bool>, now: int)
    ensures var s' := Transition(s, id, status, error, prepared, applied, now).0;
      s'.mode == s.mode && s'.backend == s.backend && Keeps(s.co.jobs, s'.co.jobs)
  {
    hide Advanced, Retired;
    if id in s.co.jobs {
      AdvancedSame(s.co.jobs[id], status, error, prepared, applied, now);
    }
  }

  lemma SameBackendContinues(s: Sys, s': Sys)
    requires CatalogOk(s.backend) && s'.backend == s.backend && !s'.mode.Down? && Keeps(s.co.jobs, s'.co.jobs)
    ensures Continues(s, s')
  {
  }

  lemma PublishContinues(s: Sys, id: JobId, p: PreparedDocument, outcome: Outcome)
    requires CatalogOk(s.backend) && s.mode.Up?
    ensures Continues(s, ExecutePublish(s, id, p, outcome))
  {
    hide Activate, CatalogOk;
    if id in s.co.jobs && Activate(s.backend, p, s.co.jobs[id].revision).Ok? {
      ActivateGrows(s.backend, p, s.co.jobs[id].revision);
    }
  }

  lemma EraseContinues(s: Sys, id: JobId, outcome: Outcome)
    requires CatalogOk(s.backend) && s.mode.Up?
    ensures Continues(s, ExecuteErase(s, id, outcome))
  {
    hide Erase, CatalogOk;
    if id in s.co.jobs && Erase(s.backend, s.co.jobs[id].input.document, s.co.jobs[id].revision).Ok? {
      EraseGrows(s.backend, s.co.jobs[id].input.document, s.co.jobs[id].revision);
    }
  }

  lemma RunContinues(s: Sys, id: JobId, outcome: Outcome, now: int)
    requires CatalogOk(s.backend) && s.mode.Up? && id in s.exec
    ensures Continues(s, Execute(s, id, outcome, now))
  {
    hide Transition, ExecutePublish, ExecuteErase, CatalogOk, Grows, Keeps, Continues;
    var s' := Execute(s, id, outcome, now);
    assert Keeps(s.co.jobs, s.co.jobs) by { SameKeeps(s.co.jobs); }
    match s.exec[id]
    case Publish(p) => PublishContinues(s, id, p, outcome);
    case EraseBackend => EraseContinues(s, id, outcome);
    case EnterChunking => TransitionKeepsJobs(s, id, Chunking, None, None, None, now); SameBackendContinues(s, s');
    case EnterEmbedding(_) => TransitionKeepsJobs(s, id, Embedding, None, None, None, now); SameBackendContinues(s, s');
    case EnterPublishing(p) => TransitionKeepsJobs(s, id, Publishing, None, Some(p), None, now); SameBackendContinues(s, s');
    case EnterReady(p) => TransitionKeepsJobs(s, id, Ready, None, Some(p), None, now); SameBackendContinues(s, s');
    case EnterErasing => TransitionKeepsJobs(s, id, Publishing, None, None, None, now); SameBackendContinues(s, s');
    case EnterErased(a) => TransitionKeepsJobs(s, id, Ready, None, None, Some(a), now); SameBackendContinues(s, s');
    case EnterFailed(error) => TransitionKeepsJobs(s, id, Failed, Some(error), None, None, now); SameBackendContinues(s, s');
    case _ => SameBackendContinues(s, s');
  }

  lemma SameKeeps(jobs: JobMap)
    ensures Keeps(jobs, jobs)
  {
  }

  lemma AdmittedKeepsJobs(f: Preparation, s: Sys, asynchronous: bool, now: int)
    requires Inv(f, s) && s.mode.Up? && s.co.admitting.Some?
    ensures var s' := FinishAdmission(s, asynchronous, now);
      s'.backend == s.backend && s'.mode == s.mode && Keeps(s.co.jobs, s'.co.jobs)
  {
    hide KnownOk, LogKnown, Final, Durable, Threads, Unfinished, Live, IsLatestIndex;
    DisplacedKeyed(f, s);
  }

  lemma BackendOk(f: Preparation, s: Sys)
    requires Inv(f, s) && !s.mode.Down?
    ensures CatalogOk(s.backend)
  {
  }

  lemma StepContinues(f: Preparation, s: Sys, e: Event)
    requires Inv(f, s) && Enabled(f, s, e) && !s.mode.Down? && !e.Crash?
    ensures Continues(s, Apply(f, s, e))
  {
    hide Inv, FinishAdmission, Execute, CutOf, CatalogOk, Grows, Continues;
    BackendOk(f, s);
    var s' := Apply(f, s, e);
    match e
    case Run(id, outcome, now) => RunContinues(s, id, outcome, now);
    case Admitted(asynchronous, now) =>
      AdmittedKeepsJobs(f, s, asynchronous, now);
      SameBackendContinues(s, s');
    case RecoverJob(id, _) =>
      RecoverJobId(f, s, id);
      SameBackendContinues(s, s');
    case _ => SameBackendContinues(s, s');
  }

  lemma ContinuesOn(a: Sys, b: Sys, c: Sys)
    requires Continues(a, b) && Continues(b, c)
    ensures Continues(a, c)
  {
    hide CatalogOk;
  }

  /** Between two crashes the backend only grows: no covered mutation is ever uncovered. */
  lemma {:induction false} LifetimeContinues(f: Preparation, events: seq<Event>, k: nat)
    requires Legal(f, Initial, events) && k <= |events| && CrashFree(events[k..])
    requires Legal(f, Initial, events[..k]) && !After(f, Initial, events[..k]).mode.Down?
    ensures Continues(After(f, Initial, events[..k]), After(f, Initial, events))
  {
    if k == |events| {
      RunsKeep(f, events);
      assert events[..k] == events;
    } else {
      var n := |events| - 1;
      assert events[k..][n - k] == events[n];
      assert events[..n][..k] == events[..k] && events[..n][k..] == events[k..n];
      LifetimeContinues(f, events[..n], k);
      RunsKeep(f, events[..n]);
      hide Inv, Apply, Enabled, Grows, Keeps;
      StepContinues(f, After(f, Initial, events[..n]), events[n]);
      ContinuesOn(After(f, Initial, events[..k]), After(f, Initial, events[..n]), After(f, Initial, events));
    }
  }

  /** Between two crashes no document's revision goes down. */
  lemma RevisionsOnlyRise(f: Preparation, events: seq<Event>, k: nat, d: DocKey)
    requires Legal(f, Initial, events) && k <= |events| && CrashFree(events[k..])
    requires Legal(f, Initial, events[..k]) && !After(f, Initial, events[..k]).mode.Down?
    requires d in After(f, Initial, events[..k]).backend.revisions
    ensures var before := After(f, Initial, events[..k]).backend; var now := After(f, Initial, events).backend;
      d in now.revisions && before.revisions[d] <= now.revisions[d] &&
      (before.revisions[d] == now.revisions[d] ==> EffectAt(now, d) == EffectAt(before, d))
  {
    hide Legal, After;
    LifetimeContinues(f, events, k);
    var c := After(f, Initial, events[..k]).backend;
    assert Covers(c, Mutation(d, c.revisions[d], EffectAt(c, d)));
  }

  /** The backend holds a newer revision of the deletion's document. */
  predicate Overtaken(s: Sys, id: JobId) {
    id in s.co.jobs && s.co.jobs[id].operation == Erasure && s.co.jobs[id].input.document in s.backend.revisions &&
    s.co.jobs[id].revision < s.backend.revisions[s.co.jobs[id].input.document]
  }

  lemma StaysOvertaken(s: Sys, s': Sys, id: JobId)
    requires Continues(s, s') && Overtaken(s, id)
    ensures Overtaken(s', id)
  {
    var d := s.co.jobs[id].input.document;
    assert Covers(s.backend, Mutation(d, s.backend.revisions[d], EffectAt(s.backend, d)));
  }

  lemma OvertakenStep(f: Preparation, s: Sys, id: JobId, outcome: Outcome, now: int)
    requires Inv(f, s) && s.mode.Up? && s.co.admitting.None? && RunEnabled(f, s, id, outcome) && Overtaken(s, id)
    ensures Execute(s, id, outcome, now).backend == s.backend
  {
    hide Inv;
    RunFacts(f, s, id);
  }

  /** A deletion that the backend has once overtaken stays overtaken until the next crash, and
      none of its steps changes the backend. */
  lemma OvertakenDeletion(f: Preparation, events: seq<Event>, k: nat, id: JobId, outcome: Outcome, now: int)
    requires Legal(f, Initial, events) && k <= |events| && CrashFree(events[k..]) && Legal(f, Initial, events[..k])
    requires !After(f, Initial, events[..k]).mode.Down? && Overtaken(After(f, Initial, events[..k]), id)
    ensures Overtaken(After(f, Initial, events), id)
    ensures var s := After(f, Initial, events); var e := Run(id, outcome, now);
      Enabled(f, s, e) ==> Apply(f, s, e).backend == s.backend
  {
    hide Inv, Execute, Continues, Overtaken, Legal, After, RunEnabled;
    RunsKeep(f, events);
    LifetimeContinues(f, events, k);
    StaysOvertaken(After(f, Initial, events[..k]), After(f, Initial, events), id);
    var s := After(f, Initial, events);
    if Enabled(f, s, Run(id, outcome, now)) {
      OvertakenStep(f, s, id, outcome, now);
    }
  }

  /** In a covered run an overtaken deletion is already terminal: it was superseded when the newer
      mutation was admitted, or finished before. */
  lemma OvertakenIsOver(f: Preparation, events: seq<Event>, id: JobId)
    requires Legal(f, Initial, events) && CoveredRun(f, events)
    requires After(f, Initial, events).mode.Up? && Overtaken(After(f, Initial, events), id)
    ensures Terminal(After(f, Initial, events).co.jobs[id].status)
  {
    hide Legal, After, CoveredRun, KnownOk, LogKnown, Final, Durable, Threads, IsLatestIndex, Live;
    RunsCovered(f, events);
  }

  predicate SameEntry(c: Catalog, next: Catalog, d: DocKey) {
    d in c.revisions && d in next.revisions && next.revisions[d] == c.revisions[d] &&
    (d in next.documents <==> d in c.documents) && (d in c.documents ==> next.documents[d] == c.documents[d])
  }

  lemma PublishSpares(s: Sys, id: JobId, p: PreparedDocument, outcome: Outcome, d: DocKey)
    requires d in s.backend.revisions && (id in s.co.jobs ==> s.backend.revisions[d] > s.co.jobs[id].revision)
    ensures SameEntry(s.backend, ExecutePublish(s, id, p, outcome).backend, d)
  {
  }

  lemma EraseSpares(s: Sys, id: JobId, outcome: Outcome, d: DocKey)
    requires d in s.backend.revisions && (id in s.co.jobs ==> s.backend.revisions[d] > s.co.jobs[id].revision)
    ensures SameEntry(s.backend, ExecuteErase(s, id, outcome).backend, d)
  {
  }

  lemma RunSpares(s: Sys, id: JobId, outcome: Outcome, now: int, d: DocKey)
    requires id in s.exec && d in s.backend.revisions && (id in s.co.jobs ==> s.backend.revisions[d] > s.co.jobs[id].revision)
    ensures SameEntry(s.backend, Execute(s, id, outcome, now).backend, d)
  {
    hide ExecutePublish, ExecuteErase, Advanced, Retired;
    match s.exec[id]
    case Publish(p) => PublishSpares(s, id, p, outcome, d);
    case EraseBackend => EraseSpares(s, id, outcome, d);
    case _ =>
  }

  /** Over every run, no step of any job removes, replaces or rolls back a document that the
      backend holds above the job's revision. */
  lemma NewerIsKept(f: Preparation, events: seq<Event>, id: JobId, outcome: Outcome, now: int, d: DocKey)
    requires Legal(f, Initial, events) && Enabled(f, After(f, Initial, events), Run(id, outcome, now))
    requires d in After(f, Initial, events).backend.revisions
    requires var s := After(f, Initial, events); id in s.co.jobs ==> s.backend.revisions[d] > s.co.jobs[id].revision
    ensures Legal(f, Initial, events + [Run(id, outcome, now)])
    ensures SameEntry(After(f, Initial, events).backend, After(f, Initial, events + [Run(id, outcome, now)]).backend, d)
  {
    var longer := events + [Run(id, outcome, now)];
    assert longer[..|longer| - 1] == events;
    hide Execute, SameEntry;
    RunSpares(After(f, Initial, events), id, outcome, now, d);
  }
}
