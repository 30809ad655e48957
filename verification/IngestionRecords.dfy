/** What job records say of how a job stands and ended, over every run; and which finished jobs keep their content. */
module IngestionRecords {
  import opened Wrappers
  import opened Documents
  import opened Validation
  import opened Jobs
  import opened Ingestion
  import opened IngestionSafety
  import opened IngestionLimits

  // ------------------------------------------------------------- records tell the outcome

  /** An error if and only if the job failed, and for a ready deletion, and only there, whether it erased anything. */
  predicate Tells(j: Job) {
    (j.error.Some? <==> j.status == Failed) && j.status != Cancelled &&
    (j.mutationApplied.Some? <==> j.status == Ready && j.operation == Erasure)
  }

  predicate LogTells(log: seq<Job>) { forall j :: j in log ==> Tells(j) }

  predicate TableTells(jobs: JobMap) { forall id :: id in jobs ==> Tells(jobs[id]) }

  predicate AllTell(s: Sys) {
    LogTells(s.log) && TableTells(s.co.jobs) &&
    (s.co.admitting.Some? ==> Tells(s.co.admitting.value))
  }

  lemma RecordTells(log: seq<Job>, jobs: JobMap, id: JobId, next: Job)
    requires LogTells(log) && TableTells(jobs) && Tells(next)
    ensures LogTells(log + [next]) && TableTells(jobs[id := next])
  {
  }

  /** How a transition to this status must be called. */
  predicate Called(operation: Operation, status: Status, error: Option<Errc>, applied: Option<bool>) {
    (error.Some? <==> status == Failed) && (applied.Some? <==> status == Ready && operation == Erasure) &&
    status != Superseded && status != Cancelled
  }

  lemma AdvancedTells(j: Job, status: Status, error: Option<Errc>, prepared: Option<PreparedDocument>, applied: Option<bool>, now: int)
    requires Tells(j) && !Terminal(j.status)
    ensures Tells(Retired(j, now).(error := None))
    ensures Called(j.operation, status, error, applied) ==> Tells(Advanced(j, status, error, prepared, applied, now))
  {
  }

  lemma TransitionTells(s: Sys, id: JobId, status: Status, error: Option<Errc>, prepared: Option<PreparedDocument>,
                        applied: Option<bool>, now: int)
    requires AllTell(s) && (id in s.co.jobs ==> Called(s.co.jobs[id].operation, status, error, applied))
    ensures AllTell(Transition(s, id, status, error, prepared, applied, now).0)
  {
    hide Advanced, Retired, Tells, Called;
    if id in s.co.jobs && !Terminal(s.co.jobs[id].status) {
      AdvancedTells(s.co.jobs[id], status, error, prepared, applied, now);
      RecordTells(s.log, s.co.jobs, id, Retired(s.co.jobs[id], now).(error := None));
      RecordTells(s.log, s.co.jobs, id, Advanced(s.co.jobs[id], status, error, prepared, applied, now));
    }
  }

  lemma PublishTells(s: Sys, id: JobId, p: PreparedDocument, outcome: Outcome)
    requires AllTell(s)
    ensures AllTell(ExecutePublish(s, id, p, outcome))
  {
    hide Activate, Tells;
  }

  lemma EraseTells(s: Sys, id: JobId, outcome: Outcome)
    requires AllTell(s)
    ensures AllTell(ExecuteErase(s, id, outcome))
  {
    hide Erase, Tells;
  }

  lemma ThreadOperation(f: Preparation, s: Sys, id: JobId)
    requires Inv(f, s) && id in s.exec
    ensures id in s.co.jobs
    ensures s.exec[id].EnterReady? ==> s.co.jobs[id].operation == Upsert
    ensures s.exec[id].EnterErased? ==> s.co.jobs[id].operation == Erasure
  {
    hide KnownOk, LogKnown, Final, Durable, IsLatestIndex, Live, Unfinished;
  }

  lemma RunTells(f: Preparation, s: Sys, id: JobId, outcome: Outcome, now: int)
    requires Inv(f, s) && AllTell(s) && id in s.exec
    ensures AllTell(Execute(s, id, outcome, now))
  {
    hide Inv, Transition, ExecutePublish, ExecuteErase, Tells;
    ThreadOperation(f, s, id);
    match s.exec[id]
    case Publish(p) => PublishTells(s, id, p, outcome);
    case EraseBackend => EraseTells(s, id, outcome);
    case EnterChunking => TransitionTells(s, id, Chunking, None, None, None, now);
    case EnterEmbedding(_) => TransitionTells(s, id, Embedding, None, None, None, now);
    case EnterPublishing(p) => TransitionTells(s, id, Publishing, None, Some(p), None, now);
    case EnterReady(p) => TransitionTells(s, id, Ready, None, Some(p), None, now);
    case EnterErasing => TransitionTells(s, id, Publishing, None, None, None, now);
    case EnterErased(a) => TransitionTells(s, id, Ready, None, None, Some(a), now);
    case EnterFailed(error) => TransitionTells(s, id, Failed, Some(error), None, None, now);
    case _ =>
  }

  lemma CutTells(f: Preparation, s: Sys, kept: seq<Job>)
    requires Inv(f, s) && AllTell(s) && Enabled(f, s, CheckpointCut(kept))
    ensures AllTell(Apply(f, s, CheckpointCut(kept)))
  {
    hide KnownOk, LogKnown, Durable, Running, CutOf, Final, Tells;
    CutFinal(s.log, s.maintenance.position, kept);
  }

  lemma RequeueTells(f: Preparation, s: Sys, id: JobId, now: int)
    requires Inv(f, s) && AllTell(s) && Enabled(f, s, RecoverJob(id, now))
    ensures AllTell(Apply(f, s, RecoverJob(id, now)))
  {
    hide Inv;
    PendingJob(f, s, id);
    RecordTells(s.log, s.co.jobs, id, RecoveredJob(s.co, s.co.jobs[id], now));
  }

  lemma PendingJob(f: Preparation, s: Sys, id: JobId)
    requires Inv(f, s) && s.mode.Recovering? && id in s.mode.pending
    ensures id in s.co.jobs && s.co.jobs[id].id == id && !Terminal(s.co.jobs[id].status)
  {
    hide LogKnown, Final, Durable, IsLatestIndex, Live, Threads;
  }

  lemma StepTells(f: Preparation, s: Sys, e: Event)
    requires Inv(f, s) && AllTell(s) && Enabled(f, s, e)
    ensures AllTell(Apply(f, s, e))
  {
    hide Inv, Execute, IsLatestIndex, ReplayList, Latest, Replay, CutOf;
    match e
    case CheckpointCut(kept) => CutTells(f, s, kept);
    case Run(id, outcome, now) => RunTells(f, s, id, outcome, now);
    case RecoverJob(id, now) => RequeueTells(f, s, id, now);
    case _ =>
  }

  lemma {:induction false} RunsTell(f: Preparation, events: seq<Event>)
    requires Legal(f, Initial, events)
    ensures AllTell(After(f, Initial, events))
  {
    if events != [] {
      var n := |events| - 1;
      RunsTell(f, events[..n]);
      RunsKeep(f, events[..n]);
      hide Inv, Apply, Enabled, AllTell;
      StepTells(f, After(f, Initial, events[..n]), events[n]);
    }
  }

  /** Over every run: a record of the log has an error if and only if its job failed, is never cancelled, and says whether
      anything was erased if and only if it is that of a ready deletion. */
  lemma RecordsTell(f: Preparation, events: seq<Event>, j: Job)
    requires Legal(f, Initial, events) && j in After(f, Initial, events).log
    ensures j.error.Some? <==> j.status == Failed
    ensures j.mutationApplied.Some? <==> j.status == Ready && j.operation == Erasure
    ensures j.status != Cancelled
  {
    hide Legal, After;
    RunsTell(f, events);
  }

  // ------------------------------------------------------- finished jobs drop their content

  /** A finished job keeps no content, and its prepared document only if it is ready. */
  predicate Bare(j: Job) { Terminal(j.status) ==> j.input.content == "" && (j.status == Ready || j.prepared.None?) }

  /** Bare, or what recovery makes of an overtaken job. */
  ghost predicate BareOrLeft(s: Sys, e: Event, j: Job) {
    Bare(j) ||
    (e.RecoverJob? && e.id in s.co.jobs && !Terminal(s.co.jobs[e.id].status) &&
     GetOr(s.co.latestRevision, s.co.jobs[e.id].input.document, 0) != s.co.jobs[e.id].revision &&
     j == s.co.jobs[e.id].(status := Superseded, updatedAt := e.now))
  }

  lemma TransitionBare(s: Sys, id: JobId, status: Status, error: Option<Errc>, prepared: Option<PreparedDocument>,
                       applied: Option<bool>, now: int, j: Job)
    requires j in Transition(s, id, status, error, prepared, applied, now).0.log
    ensures j in s.log || Bare(j)
  {
    hide Advanced;
    AdvancedBare(s, id, status, error, prepared, applied, now);
  }

  lemma AdvancedBare(s: Sys, id: JobId, status: Status, error: Option<Errc>, prepared: Option<PreparedDocument>,
                     applied: Option<bool>, now: int)
    ensures id in s.co.jobs ==> Bare(Advanced(s.co.jobs[id], status, error, prepared, applied, now))
  {
  }

  lemma PublishLog(s: Sys, id: JobId, p: PreparedDocument, outcome: Outcome)
    ensures ExecutePublish(s, id, p, outcome).log == s.log
  {
    hide Activate;
  }

  lemma EraseLog(s: Sys, id: JobId, outcome: Outcome)
    ensures ExecuteErase(s, id, outcome).log == s.log
  {
    hide Erase;
  }

  lemma RunBare(s: Sys, id: JobId, outcome: Outcome, now: int, j: Job)
    requires id in s.exec && j in Execute(s, id, outcome, now).log
    ensures j in s.log || Bare(j)
  {
    hide Transition, ExecutePublish, ExecuteErase, Bare;
    match s.exec[id]
    case Publish(p) => PublishLog(s, id, p, outcome);
    case EraseBackend => EraseLog(s, id, outcome);
    case EnterChunking => TransitionBare(s, id, Chunking, None, None, None, now, j);
    case EnterEmbedding(_) => TransitionBare(s, id, Embedding, None, None, None, now, j);
    case EnterPublishing(p) => TransitionBare(s, id, Publishing, None, Some(p), None, now, j);
    case EnterReady(p) => TransitionBare(s, id, Ready, None, Some(p), None, now, j);
    case EnterErasing => TransitionBare(s, id, Publishing, None, None, None, now, j);
    case EnterErased(a) => TransitionBare(s, id, Ready, None, None, Some(a), now, j);
    case EnterFailed(error) => TransitionBare(s, id, Failed, Some(error), None, None, now, j);
    case _ =>
  }

  lemma StepBare(f: Preparation, s: Sys, e: Event, j: Job)
    requires Inv(f, s) && Enabled(f, s, e) && j in Apply(f, s, e).log
    ensures j in s.log || BareOrLeft(s, e, j)
  {
    hide Inv, Execute, IsLatestIndex, ReplayList, Latest, Replay, CutOf;
    match e
    case CheckpointCut(kept) => CutLog(f, s, kept);
    case Run(id, outcome, now) => RunBare(s, id, outcome, now, j);
    case RecoverJob(id, now) => PendingJob(f, s, id);
    case _ =>
  }

  lemma CutLog(f: Preparation, s: Sys, kept: seq<Job>)
    requires Inv(f, s) && Enabled(f, s, CheckpointCut(kept))
    ensures forall j :: j in Apply(f, s, CheckpointCut(kept)).log ==> j in s.log
  {
    hide KnownOk, LogKnown, Durable, Running, CutOf, Final;
    CutFinal(s.log, s.maintenance.position, kept);
  }

  /** A finished record that still holds content, or a prepared document without being ready, was written by a recovery that
      found the job overtaken: it is the unfinished job as it then stood. */
  lemma {:induction false} LeftByRecovery(f: Preparation, events: seq<Event>, j: Job) returns (k: nat)
    requires Legal(f, Initial, events) && j in After(f, Initial, events).log && !Bare(j)
    ensures k < |events| && Legal(f, Initial, events[..k]) && events[k].RecoverJob?
    ensures var s := After(f, Initial, events[..k]);
      events[k].id in s.co.jobs && !Terminal(s.co.jobs[events[k].id].status) &&
      j == s.co.jobs[events[k].id].(status := Superseded, updatedAt := events[k].now)
  {
    var n := |events| - 1;
    var s := After(f, Initial, events[..n]);
    RunsKeep(f, events[..n]);
    hide Inv, Apply, Enabled, Bare;
    StepBare(f, s, events[n], j);
    if j in s.log {
      k := LeftByRecovery(f, events[..n], j);
      assert events[..n][..k] == events[..k];
    } else {
      k := n;
    }
  }

  // ------------------------------------------------------------------ a run that leaves one

  const Text := Input(D, "", "x", map[])

  function Waiting(f: Preparation): Job { Job("a", Upsert, Text, 1, HashOf(f, Text), Queued, 0, 0, None, None, None) }

  lemma AdmitText(f: Preparation)
    ensures Enabled(f, Opened, Admit("a", Upsert, Text, 0))
    ensures var j := Waiting(f);
      Apply(f, Opened, Admit("a", Upsert, Text, 0)) == Opened.(log := [j], co := NoCoordinator.(admitting := Some(j)))
  {
    hide HashOf;
  }

  lemma EnterText(f: Preparation, s: Sys, j: Job)
    requires j == Waiting(f) && s == Opened.(log := [j], co := NoCoordinator.(admitting := Some(j)))
    ensures Enabled(f, s, Admitted(true, 0))
    ensures Apply(f, s, Admitted(true, 0)) == Opened.(log := [j], co := Coordinator(map["a" := j], map[D := 1], map[D := "a"], ["a"], None))
  {
    hide HashOf;
  }

  const Removed := Job("b", Erasure, Input(D, "", "", map[]), 2, "deleted", Queued, 0, 0, None, None, None)

  lemma AdmitRemoval(f: Preparation, s: Sys, j: Job)
    requires j == Waiting(f)
    requires s == Opened.(log := [j], co := Coordinator(map["a" := j], map[D := 1], map[D := "a"], ["a"], None))
    ensures Enabled(f, s, Admit("b", Erasure, Input(D, "", "", map[]), 0))
    ensures Apply(f, s, Admit("b", Erasure, Input(D, "", "", map[]), 0)) == s.(log := [j, Removed], co := s.co.(admitting := Some(Removed)))
  {
    hide HashOf;
  }

  const Reload := RecoverLoad([], {}, map[D := 2], map[D := "b"])

  lemma BothLoaded(f: Preparation, j: Job)
    requires j == Waiting(f)
    ensures Latest([j, Removed]) == map["a" := j, "b" := Removed]
    ensures ReplayList(map["a" := j, "b" := Removed], []) && IsLatestIndex(map["a" := j, "b" := Removed], map[D := 2], map[D := "b"])
  {
    hide HashOf;
    assert [j, Removed][..1] == [j] && [j][..0] == [];
  }

  lemma ReloadBoth(f: Preparation, s: Sys, j: Job)
    requires j == Waiting(f)
    requires s.mode.Down? && s.log == [j, Removed] && s.checkpoint == EmptyCatalog
    ensures Enabled(f, s, Reload)
    ensures var t := Apply(f, s, Reload);
      t.mode == Recovering({"a", "b"}) && t.log == s.log && t.co == Coordinator(map["a" := j, "b" := Removed], map[D := 2], map[D := "b"], [], None)
  {
    hide HashOf, BaseAt, Latest, ReplayList, IsLatestIndex;
    BothLoaded(f, j);
    var jobs: JobMap := map["a" := j, "b" := Removed];
    assert (set id | id in jobs && !Terminal(jobs[id].status)) == {"a", "b"};
  }

  /** Such a record is reachable: a crash between the two records of an admission. */
  lemma LeftoverIsReachable(f: Preparation) returns (events: seq<Event>, j: Job)
    ensures Legal(f, Initial, events) && j in After(f, Initial, events).log
    ensures j.status == Superseded && j.input.content == "x"
  {
    hide Legal, After, Enabled, Apply, HashOf;
    j := Waiting(f);
    events := OpenEmpty(f);
    AdmitText(f);
    Extend(f, events, Admit("a", Upsert, Text, 0));
    events := events + [Admit("a", Upsert, Text, 0)];
    EnterText(f, After(f, Initial, events), j);
    Extend(f, events, Admitted(true, 0));
    events := events + [Admitted(true, 0)];
    var removal := Admit("b", Erasure, Input(D, "", "", map[]), 0);
    AdmitRemoval(f, After(f, Initial, events), j);
    Extend(f, events, removal);
    events := events + [removal];
    CrashStep(f, After(f, Initial, events));
    Extend(f, events, Crash);
    events := events + [Crash];
    ReloadBoth(f, After(f, Initial, events), j);
    Extend(f, events, Reload);
    events := events + [Reload];
    OvertakenStep(f, After(f, Initial, events), j);
    Extend(f, events, RecoverJob("a", 0));
    events := events + [RecoverJob("a", 0)];
    j := j.(status := Superseded);
  }

  lemma CrashStep(f: Preparation, s: Sys)
    ensures Enabled(f, s, Crash) && Apply(f, s, Crash) == Crashed(s)
  {
  }

  lemma OvertakenStep(f: Preparation, s: Sys, j: Job)
    requires j == Waiting(f) && s.mode == Recovering({"a", "b"})
    requires s.co == Coordinator(map["a" := j, "b" := Removed], map[D := 2], map[D := "b"], [], None)
    ensures Enabled(f, s, RecoverJob("a", 0)) && j.(status := Superseded) in Apply(f, s, RecoverJob("a", 0)).log
  {
    hide HashOf;
    var log := s.log + [j.(status := Superseded)];
    assert log[|s.log|] == j.(status := Superseded);
  }
}
