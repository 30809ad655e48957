/** Exactly when recovery is refused, and runs that show the limits of the protocol: a store
    that can no longer be opened, and a revision that is assigned twice. */
module IngestionLimits {
  import opened Wrappers
  import opened Documents
  import opened Validation
  import opened Generations
  import opened Serving
  import opened Jobs
  import opened Ingestion
  import opened IngestionSafety

  // -------------------------------------------------- when recovery is refused

  ghost predicate SameAt(c: Catalog, next: Catalog, d: DocKey) {
    (d in c.revisions <==> d in next.revisions) && (d in c.revisions ==> c.revisions[d] == next.revisions[d]) &&
    EffectAt(c, d) == EffectAt(next, d)
  }

  /** A ready job is arbitrated by the catalog alone. */
  lemma ArbitratedIff(f: Preparation, c: Catalog, j: Job)
    requires CatalogOk(c) && RecordOk(f, j) && j.status == Ready
    ensures ArbitrateJob(c, j).Ok? <==> Admits(c, MutationOf(j))
    ensures ArbitrateJob(c, j).Ok? ==> ArbitrateJob(c, j).value == WithJob(c, j) && CatalogOk(WithJob(c, j))
    ensures Sound(f, j)
  {
    hide ValidDocument;
  }

  lemma WithJobElsewhere(f: Preparation, c: Catalog, j: Job, d: DocKey)
    requires RecordOk(f, j) && j.status == Ready && d != j.input.document
    ensures SameAt(c, WithJob(c, j), d)
  {
    hide ValidDocument;
  }

  lemma {:induction false} OnTheWayElsewhere(f: Preparation, c: Catalog, replay: seq<Job>, d: DocKey)
    requires forall j :: j in replay ==> RecordOk(f, j) && j.status == Ready && j.input.document != d
    ensures SameAt(c, OnTheWay(c, replay), d)
  {
    hide RecordOk, WithJob;
    if replay != [] {
      var n := |replay| - 1;
      assert replay[n] in replay;
      OnTheWayElsewhere(f, c, replay[..n], d);
      WithJobElsewhere(f, OnTheWay(c, replay[..n]), replay[n], d);
    }
  }

  /** The catalog after one more job can be built over the base of that moment. */
  ghost predicate CanBuild(c: Catalog, replay: seq<Job>, compacted: set<nat>, k: nat)
    requires k < |replay|
  {
    Serves(BaseAt(c, replay[..k], compacted), OnTheWay(c, replay[..k + 1]).documents)
  }

  /** No replayed job is stale, and every catalog on the way can be built. */
  ghost predicate Replayable(c: Catalog, replay: seq<Job>, compacted: set<nat>) {
    (forall j :: j in replay ==> Admits(c, MutationOf(j))) && forall k :: 0 <= k < |replay| ==> CanBuild(c, replay, compacted, k)
  }

  lemma ReplayableNext(c: Catalog, replay: seq<Job>, compacted: set<nat>)
    requires replay != []
    ensures var n := |replay| - 1;
      Replayable(c, replay, compacted) <==>
      Replayable(c, replay[..n], compacted) && Admits(c, MutationOf(replay[n])) && CanBuild(c, replay, compacted, n)
  {
    hide Admits, Serves, BaseAt, OnTheWay;
    var n := |replay| - 1;
    forall k | 0 <= k < n
      ensures CanBuild(c, replay[..n], compacted, k) <==> CanBuild(c, replay, compacted, k)
    {
      assert replay[..n][..k] == replay[..k] && replay[..n][..k + 1] == replay[..k + 1];
    }
    assert forall j :: j in replay <==> j in replay[..n] || j == replay[n];
    if Replayable(c, replay, compacted) {
      assert forall k :: 0 <= k < n ==> CanBuild(c, replay, compacted, k);
    }
  }

  /** A ready job of a document that the replay has not met is refused when it is stale against the checkpoint, or
      the catalog with it cannot be built. */
  lemma ReplayStep(f: Preparation, base: nat, c: Catalog, mid: Catalog, j: Job)
    requires CatalogOk(mid) && RecordOk(f, j) && j.status == Ready && SameAt(c, mid, j.input.document)
    requires Serves(base, mid.documents)
    ensures ReplayJob(f, base, mid, j).Ok? <==> Admits(c, MutationOf(j)) && Serves(base, WithJob(mid, j).documents)
    ensures ReplayJob(f, base, mid, j).Ok? ==> ReplayJob(f, base, mid, j).value == WithJob(mid, j) && CatalogOk(WithJob(mid, j))
  {
    hide ValidDocument, Serves, RecordOk, ArbitrateJob, WithJob, CatalogOk, Sound;
    ArbitratedIff(f, mid, j);
  }

  lemma BaseServes(c: Catalog, replay: seq<Job>, compacted: set<nat>)
    requires replay == [] || Serves(BaseAt(c, replay[..|replay| - 1], compacted), OnTheWay(c, replay).documents)
    requires Buildable(OnTheWay(c, replay).documents)
    ensures Serves(BaseAt(c, replay, compacted), OnTheWay(c, replay).documents)
  {
    hide Buildable, DimensionIn, OnTheWay, FitsDimension;
    ServesItself(OnTheWay(c, replay).documents);
  }

  /** A replay succeeds exactly when it is replayable, and then ends in the catalog at the end of the way. */
  lemma {:induction false} ReplayIff(f: Preparation, c: Catalog, replay: seq<Job>, compacted: set<nat>)
    requires CatalogOk(c) && Buildable(c.documents)
    requires forall j :: j in replay ==> RecordOk(f, j) && j.status == Ready
    requires forall a, b :: 0 <= a < b < |replay| ==> replay[a].input.document != replay[b].input.document
    ensures Replay(f, c, replay, compacted).Ok? <==> Replayable(c, replay, compacted)
    ensures var r := Replay(f, c, replay, compacted);
      r.Ok? ==> r.value == OnTheWay(c, replay) && CatalogOk(r.value) && Serves(BaseAt(c, replay, compacted), r.value.documents)
  {
    hide RecordOk, Admits, Buildable, FitsDimension, CatalogOk, ReplayJob, WithJob, DimensionIn, SameAt;
    if replay == [] {
      assert BaseAt(c, [], compacted) == DimensionIn(c.documents);
      BaseServes(c, [], compacted);
    } else {
      var n := |replay| - 1;
      var front, last := replay[..n], replay[n];
      ReplayIff(f, c, front, compacted);
      hide Replayable, BaseAt;
      ReplayableNext(c, replay, compacted);
      if Replay(f, c, front, compacted).Ok? {
        OthersDiffer(replay);
        OnTheWayElsewhere(f, c, front, last.input.document);
        ReplayStep(f, BaseAt(c, front, compacted), c, OnTheWay(c, front), last);
        assert replay[..n + 1] == replay;
        if Replay(f, c, replay, compacted).Ok? {
          BaseServes(c, replay, compacted);
        }
      }
    }
  }

  lemma OthersDiffer(replay: seq<Job>)
    requires replay != []
    requires forall a, b :: 0 <= a < b < |replay| ==> replay[a].input.document != replay[b].input.document
    ensures forall j :: j in replay[..|replay| - 1] ==> j.input.document != replay[|replay| - 1].input.document
  {
  }

  lemma ListedDiffer(jobs: JobMap, replay: seq<Job>)
    requires ReplayList(jobs, replay)
    ensures forall a, b :: 0 <= a < b < |replay| ==> replay[a].input.document != replay[b].input.document
  {
    hide Replayed, Sooner;
  }

  /** Recovery is refused exactly when, for some document, the newest ready record of the log is older than the
      checkpoint's revision or at that revision with another effect, or some catalog on the way, in the order of
      replay, cannot be built over the base of that moment. */
  lemma RefusedIff(f: Preparation, s: Sys, replay: seq<Job>, compacted: set<nat>)
    requires Inv(f, s) && s.mode.Down? && ReplayList(Latest(s.log), replay) && Buildable(s.checkpoint.documents)
    ensures Replay(f, s.checkpoint, replay, compacted).Ok? <==>
            (forall j :: j in s.log && Replayed(Latest(s.log), j) ==> Admits(s.checkpoint, MutationOf(j))) &&
            (forall k :: 0 <= k < |replay| ==> CanBuild(s.checkpoint, replay, compacted, k))
  {
    hide LogKnown, Replay, CatalogOk, Admits, RecordOk, Buildable, CanBuild, ReplayList;
    var latest := Latest(s.log);
    ReplayedRecords(f, latest, replay);
    ListedDiffer(latest, replay);
    ReplayIff(f, s.checkpoint, replay, compacted);
    forall j | j in s.log && Replayed(latest, j)
      ensures j in replay
    {
      ReplayedIsListed(f, latest, replay, j);
    }
    ListedAreReplayed(s.log, replay);
  }

  lemma ListedAreReplayed(log: seq<Job>, replay: seq<Job>)
    requires ReplayList(Latest(log), replay)
    ensures forall j :: j in replay ==> j in log && Replayed(Latest(log), j)
  {
    forall j | j in replay
      ensures j in log && Replayed(Latest(log), j)
    {
      assert Replayed(Latest(log), j);
    }
  }

  lemma ReplayedIsListed(f: Preparation, jobs: JobMap, replay: seq<Job>, j: Job)
    requires KnownOk(f, jobs) && ReplayList(jobs, replay) && Replayed(jobs, j)
    ensures j in replay
  {
    hide ReplayList, OneJobPerSlot;
    var id :| id in jobs && jobs[id] == j;
    var r := LoadedIsReplayed(jobs, j, replay);
    ListedIsNewest(jobs, replay, r, j);
  }

  lemma ListedIsNewest(jobs: JobMap, replay: seq<Job>, r: Job, j: Job)
    requires ReplayList(jobs, replay) && r in replay && Replayed(jobs, j) && r.input.document == j.input.document
    ensures r.revision <= j.revision
  {
    assert Replayed(jobs, r);
    var id :| id in jobs && jobs[id] == r;
  }

  // ------------------------------------------------------------- concrete runs

  lemma Extend(f: Preparation, events: seq<Event>, e: Event)
    requires Legal(f, Initial, events) && Enabled(f, After(f, Initial, events), e)
    ensures Legal(f, Initial, events + [e])
    ensures After(f, Initial, events + [e]) == Apply(f, After(f, Initial, events), e)
  {
    ExtendFrom(f, Initial, events, e);
  }

  lemma ExtendFrom(f: Preparation, s: Sys, events: seq<Event>, e: Event)
    requires Legal(f, s, events) && Enabled(f, After(f, s, events), e)
    ensures Legal(f, s, events + [e])
    ensures After(f, s, events + [e]) == Apply(f, After(f, s, events), e)
  {
    assert (events + [e])[..|events|] == events;
  }

  /** Two runs, one after the other. */
  lemma {:induction false} Concat(f: Preparation, s: Sys, events: seq<Event>, more: seq<Event>)
    requires Legal(f, s, events) && Legal(f, After(f, s, events), more)
    ensures Legal(f, s, events + more) && After(f, s, events + more) == After(f, After(f, s, events), more)
  {
    hide Enabled, Apply;
    if more == [] {
      assert events + more == events;
    } else {
      var n := |more| - 1;
      Concat(f, s, events, more[..n]);
      assert events + more == events + more[..n] + [more[n]];
      ExtendFrom(f, s, events + more[..n], more[n]);
    }
  }

  const D: DocKey := "d"
  const Deletion := Input(D, "", "", map[])

  function DeletionJob(id: JobId, revision: nat, status: Status, applied: Option<bool>): Job {
    Job(id, Erasure, Deletion, revision, "deleted", status, 0, 0, None, None, applied)
  }

  /** The state after opening an empty store. */
  const Opened := Sys([], EmptyCatalog, Up, NoCoordinator, EmptyCatalog, 0, map[], Idle, {})

  const Loading := Sys([], EmptyCatalog, Recovering({}), NoCoordinator, EmptyCatalog, 0, map[], Idle, {})

  lemma LoadEmpty(f: Preparation)
    ensures Enabled(f, Initial, RecoverLoad([], {}, map[], map[])) && Apply(f, Initial, RecoverLoad([], {}, map[], map[])) == Loading
  {
    hide FinishAdmission, Execute, RecoverOne, RunEnabled, Answered, CutOf;
    assert Latest([]) == map[];
    var s := Apply(f, Initial, RecoverLoad([], {}, map[], map[]));
    assert s.mode.pending == {};
  }

  lemma OpenLoaded(f: Preparation)
    ensures Enabled(f, Loading, RecoverDone) && Apply(f, Loading, RecoverDone) == Opened
  {
    hide FinishAdmission, Execute, RecoverOne, RunEnabled, Answered, CutOf, Replay, ReplayList, Publishable;
    assert Apply(f, Loading, RecoverDone).exec == map[];
  }

  const OpenEvents := [RecoverLoad([], {}, map[], map[]), RecoverDone]

  lemma OpenEmpty(f: Preparation) returns (events: seq<Event>)
    ensures events == OpenEvents
    ensures Legal(f, Initial, events) && After(f, Initial, events) == Opened
  {
    var load := RecoverLoad([], {}, map[], map[]);
    assert Legal(f, Initial, []) && After(f, Initial, []) == Initial;
    hide Legal, After, Enabled, Apply;
    LoadEmpty(f);
    Extend(f, [], load);
    OpenLoaded(f);
    Extend(f, [] + [load], RecoverDone);
    events := [] + [load] + [RecoverDone];
  }

  /** The steps of a deletion from an idle coordinator, up to and including the backend. */
  function AfterErase(s: Sys, id: JobId, revision: nat): Sys {
    s.(log := s.log + [DeletionJob(id, revision, Queued, None), DeletionJob(id, revision, Publishing, None)],
       co := Coordinator(s.co.jobs[id := DeletionJob(id, revision, Publishing, None)],
                         s.co.latestRevision[D := revision], s.co.latestJob[D := id], s.co.queue, None),
       backend := Catalog(s.backend.revisions[D := revision], s.backend.documents),
       exec := s.exec[id := EnterErased(false)])
  }

  /** The coordinator is free, knows no unfinished job, and the backend is one behind the new deletion. */
  predicate ReadyToErase(s: Sys, id: JobId, revision: nat) {
    s.mode.Up? && s.co.admitting.None? && id !in s.co.jobs && id !in s.exec &&
    (forall k :: k in s.co.jobs ==> Terminal(s.co.jobs[k].status)) &&
    GetOr(s.co.latestRevision, D, 0) + 1 == revision &&
    (D in s.backend.revisions ==> s.backend.revisions[D] < revision) && D !in s.backend.documents
  }

  function EraseEvents(id: JobId): seq<Event> {
    [Admit(id, Erasure, Deletion, 0), Admitted(false, 0), Run(id, Fine, 0), Run(id, Fine, 0), Run(id, Fine, 0)]
  }

  lemma EraseStates(f: Preparation, s0: Sys, id: JobId, revision: nat) returns (s1: Sys, s2: Sys, s3: Sys, s4: Sys)
    requires ReadyToErase(s0, id, revision)
    ensures Enabled(f, s0, Admit(id, Erasure, Deletion, 0)) && Apply(f, s0, Admit(id, Erasure, Deletion, 0)) == s1
    ensures Enabled(f, s1, Admitted(false, 0)) && Apply(f, s1, Admitted(false, 0)) == s2
    ensures Enabled(f, s2, Run(id, Fine, 0)) && Apply(f, s2, Run(id, Fine, 0)) == s3
    ensures Enabled(f, s3, Run(id, Fine, 0)) && Apply(f, s3, Run(id, Fine, 0)) == s4
    ensures Enabled(f, s4, Run(id, Fine, 0)) && Apply(f, s4, Run(id, Fine, 0)) == AfterErase(s0, id, revision)
  {
    hide Replay, ReplayList, IsLatestIndex, Latest, CutOf, Answered, RecoverOne, AfterErase, FinishAdmission;
    s1, s2 := EraseAdmits(f, s0, id, revision);
    AdmitSteps(s0, s1, s2, id, revision);
    s3 := Apply(f, s2, Run(id, Fine, 0));
    assert s3 == s2.(exec := s2.exec[id := EnterErasing]);
    s4 := Apply(f, s3, Run(id, Fine, 0));
    EraseSteps(s0, s1, s2, s3, s4, Apply(f, s4, Run(id, Fine, 0)), id, revision);
  }

  lemma EraseAdmits(f: Preparation, s0: Sys, id: JobId, revision: nat) returns (s1: Sys, s2: Sys)
    requires ReadyToErase(s0, id, revision)
    ensures Enabled(f, s0, Admit(id, Erasure, Deletion, 0)) && Apply(f, s0, Admit(id, Erasure, Deletion, 0)) == s1
    ensures Enabled(f, s1, Admitted(false, 0)) && Apply(f, s1, Admitted(false, 0)) == s2
    ensures var job := DeletionJob(id, revision, Queued, None);
      s1 == s0.(log := s0.log + [job], co := s0.co.(admitting := Some(job)))
    ensures s2 == FinishAdmission(s1, false, 0)
  {
    hide Answered, FinishAdmission;
    s1 := Apply(f, s0, Admit(id, Erasure, Deletion, 0));
    s2 := Apply(f, s1, Admitted(false, 0));
  }

  /** A deletion run straight through from any such state. */
  lemma EraseRuns(f: Preparation, s0: Sys, id: JobId, revision: nat)
    requires ReadyToErase(s0, id, revision)
    ensures Legal(f, s0, EraseEvents(id)) && After(f, s0, EraseEvents(id)) == AfterErase(s0, id, revision)
  {
    hide EraseEvents, Legal, After, Apply, Enabled, ReadyToErase, AfterErase;
    var s1, s2, s3, s4 := EraseStates(f, s0, id, revision);
    NoEvents(f, s0);
    var run := Run(id, Fine, 0);
    ExtendFrom(f, s0, [], Admit(id, Erasure, Deletion, 0));
    var es := [] + [Admit(id, Erasure, Deletion, 0)];
    ExtendFrom(f, s0, es, Admitted(false, 0));
    ExtendFrom(f, s0, es + [Admitted(false, 0)], run);
    ExtendFrom(f, s0, es + [Admitted(false, 0)] + [run], run);
    ExtendFrom(f, s0, es + [Admitted(false, 0)] + [run] + [run], run);
    EraseEventsAre(id);
  }

  lemma NoEvents(f: Preparation, s: Sys)
    ensures Legal(f, s, []) && After(f, s, []) == s
  {
  }

  lemma EraseEventsAre(id: JobId)
    ensures var run := Run(id, Fine, 0);
      [] + [Admit(id, Erasure, Deletion, 0)] + [Admitted(false, 0)] + [run] + [run] + [run] == EraseEvents(id)
  {
  }

  lemma EraseUnacknowledged(f: Preparation, events: seq<Event>, id: JobId, revision: nat) returns (longer: seq<Event>)
    requires Legal(f, Initial, events) && ReadyToErase(After(f, Initial, events), id, revision)
    ensures longer == events + EraseEvents(id)
    ensures Legal(f, Initial, longer) && After(f, Initial, longer) == AfterErase(After(f, Initial, events), id, revision)
  {
    hide Legal, After, EraseEvents, ReadyToErase, AfterErase;
    longer := events + EraseEvents(id);
    EraseRuns(f, After(f, Initial, events), id, revision);
    Concat(f, Initial, events, EraseEvents(id));
  }

  lemma EraseSteps(s0: Sys, s1: Sys, s2: Sys, s3: Sys, s4: Sys, s5: Sys, id: JobId, revision: nat)
    requires ReadyToErase(s0, id, revision)
    requires var job := DeletionJob(id, revision, Queued, None);
      s1 == s0.(log := s0.log + [job], co := s0.co.(admitting := Some(job)))
    requires s2 == FinishAdmission(s1, false, 0) && s3 == s2.(exec := s2.exec[id := EnterErasing])
    requires s4 == Execute(s3, id, Fine, 0) && id in s4.exec && s5 == Execute(s4, id, Fine, 0)
    ensures s5 == AfterErase(s0, id, revision)
  {
    AdmitSteps(s0, s1, s2, id, revision);
    hide FinishAdmission, ReadyToErase;
    EnterSteps(s0, s3, s4, id, revision);
    hide Execute;
    assert s5 == ExecuteErase(s4, id, Fine) by { EraseIsNext(s4, id); }
    assert s5.backend.documents == s0.backend.documents;
    assert s5.exec == s0.exec[id := EnterErased(false)];
  }

  lemma EraseIsNext(s: Sys, id: JobId)
    requires id in s.exec && s.exec[id] == EraseBackend
    ensures Execute(s, id, Fine, 0) == ExecuteErase(s, id, Fine)
  {
  }

  lemma AdmitSteps(s0: Sys, s1: Sys, s2: Sys, id: JobId, revision: nat)
    requires ReadyToErase(s0, id, revision)
    requires var job := DeletionJob(id, revision, Queued, None);
      s1 == s0.(log := s0.log + [job], co := s0.co.(admitting := Some(job)))
    requires s2 == FinishAdmission(s1, false, 0)
    ensures D in s0.backend.revisions ==> s0.backend.revisions[D] < revision
    ensures D !in s0.backend.documents
    ensures var job := DeletionJob(id, revision, Queued, None);
      s2 == s1.(co := Coordinator(s0.co.jobs[id := job], s0.co.latestRevision[D := revision], s0.co.latestJob[D := id],
                                  s0.co.queue, None),
                exec := s0.exec[id := Begin])
  {
    assert Displaced(s1.co, D) == None;
  }

  lemma EnterSteps(s0: Sys, s3: Sys, s4: Sys, id: JobId, revision: nat)
    requires id in s3.exec && s3.exec == s0.exec[id := EnterErasing]
    requires s3.log == s0.log + [DeletionJob(id, revision, Queued, None)]
    requires s3.co == Coordinator(s0.co.jobs[id := DeletionJob(id, revision, Queued, None)],
                                  s0.co.latestRevision[D := revision], s0.co.latestJob[D := id], s0.co.queue, None)
    requires s4 == Execute(s3, id, Fine, 0)
    ensures var publishing := DeletionJob(id, revision, Publishing, None);
      s4 == s3.(log := s0.log + [DeletionJob(id, revision, Queued, None), publishing],
                co := s3.co.(jobs := s0.co.jobs[id := publishing]), exec := s0.exec[id := EraseBackend])
  {
    var publishing := DeletionJob(id, revision, Publishing, None);
    assert Advanced(s3.co.jobs[id], Publishing, None, None, None, 0) == publishing;
    assert s4.log == s3.log + [publishing];
    assert s4.exec == s0.exec[id := EraseBackend];
    assert s4.co.jobs == s0.co.jobs[id := publishing];
  }

  /** The acknowledged end of a deletion. */
  function AfterReady(s: Sys, id: JobId, revision: nat): Sys {
    var ready := DeletionJob(id, revision, Ready, Some(false));
    s.(log := s.log + [ready], co := s.co.(jobs := s.co.jobs[id := ready]), exec := s.exec - {id},
       acked := s.acked + {Mutation(D, revision, Gone)})
  }

  lemma ErasesFully(f: Preparation, s: Sys, id: JobId, revision: nat)
    requires ReadyToErase(s, id, revision)
    ensures var events := EraseEvents(id) + [Run(id, Fine, 0)];
      Legal(f, s, events) && After(f, s, events) == AfterReady(AfterErase(s, id, revision), id, revision)
  {
    hide Legal, After, EraseEvents;
    EraseRuns(f, s, id, revision);
    AcknowledgeStep(f, AfterErase(s, id, revision), id, revision);
    ExtendFrom(f, s, EraseEvents(id), Run(id, Fine, 0));
  }

  lemma AcknowledgeStep(f: Preparation, s: Sys, id: JobId, revision: nat)
    requires s.mode.Up? && s.co.admitting.None? && id in s.exec && s.exec[id] == EnterErased(false)
    requires id in s.co.jobs && s.co.jobs[id] == DeletionJob(id, revision, Publishing, None)
    requires GetOr(s.co.latestRevision, D, 0) == revision
    ensures Enabled(f, s, Run(id, Fine, 0)) && Apply(f, s, Run(id, Fine, 0)) == AfterReady(s, id, revision)
  {
  }

  lemma EraseAcknowledged(f: Preparation, events: seq<Event>, id: JobId, revision: nat) returns (longer: seq<Event>)
    requires Legal(f, Initial, events) && ReadyToErase(After(f, Initial, events), id, revision)
    ensures longer == events + EraseEvents(id) + [Run(id, Fine, 0)]
    ensures Legal(f, Initial, longer)
    ensures After(f, Initial, longer) == AfterReady(AfterErase(After(f, Initial, events), id, revision), id, revision)
  {
    hide Legal, After, EraseEvents, ReadyToErase, AfterErase, AfterReady;
    ErasesFully(f, After(f, Initial, events), id, revision);
    Concat(f, Initial, events, EraseEvents(id) + [Run(id, Fine, 0)]);
    longer := events + EraseEvents(id) + [Run(id, Fine, 0)];
    assert longer == events + (EraseEvents(id) + [Run(id, Fine, 0)]);
  }

  function AfterCheckpoint(s: Sys): Sys {
    s.(checkpoint := s.backend, maintenance := Written(|s.log|))
  }

  lemma CheckpointUncut(f: Preparation, events: seq<Event>) returns (longer: seq<Event>)
    requires Legal(f, Initial, events) && After(f, Initial, events).mode.Up?
    requires After(f, Initial, events).maintenance.Idle?
    ensures Legal(f, Initial, longer) && After(f, Initial, longer) == AfterCheckpoint(After(f, Initial, events))
  {
    Extend(f, events, CheckpointPosition);
    Extend(f, events + [CheckpointPosition], CheckpointCopy);
    Extend(f, events + [CheckpointPosition] + [CheckpointCopy], CheckpointWrite);
    longer := events + [CheckpointPosition] + [CheckpointCopy] + [CheckpointWrite];
  }

  const FirstReady := DeletionJob("a", 1, Ready, Some(false))

  /** The state after one acknowledged deletion. */
  const Once := Sys(
    [DeletionJob("a", 1, Queued, None), DeletionJob("a", 1, Publishing, None), FirstReady], EmptyCatalog, Up,
    Coordinator(map["a" := FirstReady], map[D := 1], map[D := "a"], [], None),
    Catalog(map[D := 1], map[]), 0, map[], Idle, {Mutation(D, 1, Gone)})

  lemma OnceIs()
    ensures AfterReady(AfterErase(Opened, "a", 1), "a", 1) == Once
  {
    var s := AfterReady(AfterErase(Opened, "a", 1), "a", 1);
    assert s.exec == map[];
    assert s.co.jobs == map["a" := FirstReady];
  }

  lemma EraseOnce(f: Preparation) returns (events: seq<Event>)
    ensures events == OpenEvents + (EraseEvents("a") + [Run("a", Fine, 0)])
    ensures Legal(f, Initial, events) && After(f, Initial, events) == Once
  {
    hide Legal, After;
    events := OpenEmpty(f);
    events := EraseAcknowledged(f, events, "a", 1);
    OnceIs();
  }

  /** Down after a checkpoint that caught an activated but unacknowledged second deletion. */
  function Caught(): Sys {
    Crashed(AfterCheckpoint(AfterErase(Once, "b", 2)))
  }

  lemma CaughtFacts()
    ensures Caught().checkpoint.revisions == map[D := 2]
    ensures Caught().log == Once.log + [DeletionJob("b", 2, Queued, None), DeletionJob("b", 2, Publishing, None)]
    ensures FirstReady in Caught().log && forall j :: j in Caught().log && j.status == Ready ==> j == FirstReady
  {
    assert Once.log[2] == FirstReady;
    assert Caught().log[2] == FirstReady;
  }

  /** A checkpoint taken between a second mutation's activation and its ready record, followed by
      a crash, leaves a store that no recovery will open. */
  lemma RefusedStoreIsReachable(f: Preparation) returns (events: seq<Event>)
    ensures Legal(f, Initial, events) && After(f, Initial, events).mode.Down?
    ensures forall replay, compacted, revisions, latest ::
      !Enabled(f, After(f, Initial, events), RecoverLoad(replay, compacted, revisions, latest))
  {
    hide Legal, After, Inv, Admits;
    events := EraseOnce(f);
    events := EraseUnacknowledged(f, events, "b", 2);
    events := CheckpointUncut(f, events);
    Extend(f, events, Crash);
    events := events + [Crash];
    assert After(f, Initial, events) == Caught();
    RunsKeep(f, events);
    CaughtFacts();
    NothingToBuild();
    Outrun(Caught().checkpoint, MutationOf(FirstReady));
    RefusedBy(f, Caught(), FirstReady);
  }

  lemma Outrun(c: Catalog, m: Mutation)
    requires m.doc in c.revisions && c.revisions[m.doc] > m.revision
    ensures !Admits(c, m)
  {
  }

  lemma DeletionCut(log: seq<Job>, id: JobId, revision: nat)
    requires log == [DeletionJob(id, revision, Queued, None), DeletionJob(id, revision, Publishing, None),
                     DeletionJob(id, revision, Ready, Some(false))]
    ensures CutOf(log[..3], [])
  {
    assert log[..3] == log;
    assert Latest(log) == map[id := log[2]];
  }

  lemma RefusedBy(f: Preparation, s: Sys, ready: Job)
    requires Inv(f, s) && s.mode.Down? && ready in s.log && ready.status == Ready
    requires forall j :: j in s.log && j.status == Ready ==> j == ready
    requires !Admits(s.checkpoint, MutationOf(ready)) && Buildable(s.checkpoint.documents)
    ensures forall replay, compacted, revisions, latest :: !Enabled(f, s, RecoverLoad(replay, compacted, revisions, latest))
  {
    hide Inv, Admits, Replay, ReplayList, IsLatestIndex, Buildable, CanBuild;
    OnlyReadyIsReplayed(f, s, ready);
    forall replay, compacted, revisions, latest | ReplayList(Latest(s.log), replay)
      ensures !Enabled(f, s, RecoverLoad(replay, compacted, revisions, latest))
    {
      RefusedIff(f, s, replay, compacted);
    }
  }

  lemma OnlyReadyIsReplayed(f: Preparation, s: Sys, ready: Job)
    requires Inv(f, s) && s.mode.Down? && ready in s.log && ready.status == Ready
    requires forall j :: j in s.log && j.status == Ready ==> j == ready
    ensures Replayed(Latest(s.log), ready)
  {
    hide KnownOk, LogKnown, Durable, Running;
    LatestOfTerminal(s.log, ready);
  }

  /** Reopened from a checkpoint whose jobs have all been cut from the log. */
  const Reopened := Sys([], Catalog(map[D := 1], map[]), Up, NoCoordinator, Catalog(map[D := 1], map[]), 0, map[], Idle,
                        {Mutation(D, 1, Gone)})

  lemma LoadNothing(f: Preparation, c: Catalog)
    ensures Latest([]) == map[] && ReplayList(map[], []) && IsLatestIndex(map[], map[], map[]) && Replay(f, c, [], {}) == Ok(c)
  {
  }

  lemma NoDimension()
    ensures DimensionIn(map[]) == 0
  {
  }

  lemma CutAndReopen(f: Preparation) returns (events: seq<Event>)
    ensures Legal(f, Initial, events) && After(f, Initial, events) == Reopened
  {
    hide Legal, After, CutOf, FinishAdmission, Execute, Latest, ReplayList, IsLatestIndex, Replay, AfterErase, AfterReady;
    events := EraseOnce(f);
    events := CheckpointUncut(f, events);
    DeletionCut(Once.log, "a", 1);
    Extend(f, events, CheckpointCut([]));
    events := events + [CheckpointCut([])];
    Extend(f, events, Crash);
    events := events + [Crash];
    var load := RecoverLoad([], {}, map[], map[]);
    LoadNothing(f, Catalog(map[D := 1], map[]));
    NoDimension();
    Extend(f, events, load);
    events := events + [load];
    var s := After(f, Initial, events);
    assert s.mode.pending == {};
    Extend(f, events, RecoverDone);
    events := events + [RecoverDone];
    assert After(f, Initial, events).exec == map[];
  }

  /** After a cut has dropped the terminal jobs, a restart assigns revision 1 again: the upsert
      that gets it is current, and the backend will not admit it. */
  lemma ReusedRevisionIsReachable(f: Preparation) returns (events: seq<Event>)
    ensures Legal(f, Initial, events)
    ensures var s := After(f, Initial, events);
      s.mode.Up? && "b" in s.co.jobs && s.co.jobs["b"].operation == Upsert &&
      Current(s.co.latestRevision, s.co.jobs["b"]) && !Admits(s.backend, MutationOf(s.co.jobs["b"]))
  {
    hide Legal, After, FinishAdmission;
    events := CutAndReopen(f);
    var admit := Admit("b", Upsert, Input(D, "", "x", map[]), 0);
    Extend(f, events, admit);
    events := events + [admit];
    var s := After(f, Initial, events);
    Extend(f, events, Admitted(true, 0));
    events := events + [Admitted(true, 0)];
    AdmittedOutrun(s);
  }

  lemma AdmittedOutrun(s: Sys)
    requires s.co.admitting.Some? && s.backend.revisions == map[D := 1] && D !in s.backend.documents
    requires var j := s.co.admitting.value;
      j.id == "b" && j.revision == 1 && j.operation == Upsert && j.input.document == D && j.status == Queued
    ensures var s' := FinishAdmission(s, true, 0);
      "b" in s'.co.jobs && s'.co.jobs["b"].operation == Upsert && s'.mode == s.mode &&
      Current(s'.co.latestRevision, s'.co.jobs["b"]) && !Admits(s'.backend, MutationOf(s'.co.jobs["b"]))
  {
  }
}
