/** Over whole runs: exactly when recovery is refused, when staleness alone decides, and runs that end in a store
    whose replay cannot be built. */
module RecoveryRefusal {
  import opened Wrappers
  import opened Documents
  import opened KeyOrder
  import opened Validation
  import opened Generations
  import opened Serving
  import opened Jobs
  import opened Ingestion
  import opened IngestionSafety
  import opened IngestionLimits
  import Convergence
  import BackendRuns

  // --------------------------------------------------- what a run has built can be built

  ghost predicate Built(s: Sys) {
    Buildable(s.checkpoint.documents) && (s.maintenance.Copied? ==> Buildable(s.maintenance.copy.documents)) &&
    (!s.mode.Down? ==> Serves(s.base, s.backend.documents))
  }

  lemma RunBuilt(f: Preparation, s: Sys, id: JobId, outcome: Outcome, now: int)
    requires Built(s) && s.mode.Up? && RunEnabled(f, s, id, outcome)
    ensures Built(Execute(s, id, outcome, now))
  {
    hide Transition, Buildable, FitsDimension, Serves, ValidDocument, ExecutePublish, ExecuteErase;
    assert forall status, error, prepared, applied :: SameCatalogs(s, Transition(s, id, status, error, prepared, applied, now).0) by {
      forall status, error, prepared, applied
        ensures SameCatalogs(s, Transition(s, id, status, error, prepared, applied, now).0)
      {
        TransitionCatalogs(s, id, status, error, prepared, applied, now);
      }
    }
    match s.exec[id]
    case Publish(p) => PublishBuilt(f, s, id, p, outcome);
    case EraseBackend => EraseBuilt(s, id, outcome);
    case _ =>
  }

  predicate SameCatalogs(s: Sys, s': Sys) {
    s'.checkpoint == s.checkpoint && s'.maintenance == s.maintenance && s'.backend == s.backend && s'.base == s.base &&
    s'.mode == s.mode
  }

  lemma TransitionCatalogs(s: Sys, id: JobId, status: Status, error: Option<Errc>, prepared: Option<PreparedDocument>,
                           applied: Option<bool>, now: int)
    ensures SameCatalogs(s, Transition(s, id, status, error, prepared, applied, now).0)
  {
  }

  lemma PublishBuilt(f: Preparation, s: Sys, id: JobId, p: PreparedDocument, outcome: Outcome)
    requires Built(s) && s.mode.Up? && id in s.exec && s.exec[id] == Publish(p) && RunEnabled(f, s, id, outcome)
    ensures Built(ExecutePublish(s, id, p, outcome))
  {
    hide Buildable, FitsDimension, Serves, ValidDocument, Activate;
  }

  lemma EraseBuilt(s: Sys, id: JobId, outcome: Outcome)
    requires Built(s) && s.mode.Up?
    ensures Built(ExecuteErase(s, id, outcome))
  {
    if id in s.co.jobs {
      BuildableWithout(s.backend.documents, s.base, s.co.jobs[id].input.document);
    }
    hide Buildable, FitsDimension, Serves;
  }

  lemma LoadBuilt(f: Preparation, s: Sys, e: Event)
    requires Inv(f, s) && Built(s) && e.RecoverLoad? && Enabled(f, s, e)
    ensures Built(Apply(f, s, e))
  {
    hide Final, LogKnown, IsLatestIndex, ReplayList, Latest, Secured, Replay, CatalogOk, RecordOk, OneJobPerSlot, Buildable,
         Serves, BaseAt, Replayable;
    ReplayedRecords(f, Latest(s.log), e.replay);
    ListedDiffer(Latest(s.log), e.replay);
    ReplayIff(f, s.checkpoint, e.replay, e.compacted);
  }

  lemma StepBuilt(f: Preparation, s: Sys, e: Event)
    requires Inv(f, s) && Built(s) && Enabled(f, s, e)
    ensures Built(Apply(f, s, e))
  {
    hide Inv, Execute, IsLatestIndex, ReplayList, Latest, Replay, CutOf, Buildable, DimensionIn;
    match e
    case Run(id, outcome, now) => RunBuilt(f, s, id, outcome, now);
    case RecoverLoad(_, _, _, _) => LoadBuilt(f, s, e);
    case Compacted => ServesItself(s.backend.documents);
    case _ =>
  }

  /** In every run the checkpoint and the active catalog can be built, the latter over the active base. */
  lemma {:induction false} RunsBuilt(f: Preparation, events: seq<Event>)
    requires Legal(f, Initial, events)
    ensures Built(After(f, Initial, events))
  {
    if events == [] {
      NothingToBuild();
    } else {
      var n := |events| - 1;
      RunsBuilt(f, events[..n]);
      RunsKeep(f, events[..n]);
      hide Inv, Apply, Enabled, Built;
      StepBuilt(f, After(f, Initial, events[..n]), events[n]);
    }
  }

  // ------------------------------------------------------- when recovery is refused

  /** Over every run that ends down, whatever compactions are published meanwhile: the replay is refused exactly when
      the newest ready record of some document is stale against the checkpoint, or some catalog on the way, in the
      order of replay, cannot be built. */
  lemma RecoveryRefusedIff(f: Preparation, events: seq<Event>, replay: seq<Job>, compacted: set<nat>)
    requires Legal(f, Initial, events) && After(f, Initial, events).mode.Down?
    requires ReplayList(Latest(After(f, Initial, events).log), replay)
    ensures var s := After(f, Initial, events);
      Replay(f, s.checkpoint, replay, compacted).Err? <==>
      (exists j :: j in s.log && Replayed(Latest(s.log), j) && !Admits(s.checkpoint, MutationOf(j))) ||
      (exists k :: 0 <= k < |replay| && !CanBuild(s.checkpoint, replay, compacted, k))
  {
    hide Legal, After, Inv, Replay, ReplayList, Replayed, Admits, CanBuild, Buildable;
    RunsKeep(f, events);
    RunsBuilt(f, events);
    RefusedIff(f, After(f, Initial, events), replay, compacted);
  }

  ghost predicate InOrder(a: seq<Job>) { forall i, j :: 0 <= i < j < |a| ==> Sooner(a[i], a[j]) }

  lemma SoonerIsStrict(a: Job, b: Job)
    ensures !Sooner(a, a) && !(Sooner(a, b) && Sooner(b, a))
  {
    KeyTotal(a.id, b.id);
  }

  /** Two lists in order of the same jobs are the same list. */
  lemma {:induction false} OrderUnique(a: seq<Job>, b: seq<Job>)
    requires InOrder(a) && InOrder(b) && forall j: Job :: j in a <==> j in b
    ensures a == b
  {
    hide Sooner;
    assert (|a| > 0 ==> a[0] in b) && (|b| > 0 ==> b[0] in a);
    if a != [] {
      SoonerIsStrict(a[0], b[0]);
      forall j: Job
        ensures j in a[1..] <==> j in b[1..]
      {
        SoonerIsStrict(j, j);
        assert j in a <==> j == a[0] || j in a[1..];
        assert j in b <==> j == b[0] || j in b[1..];
      }
      OrderUnique(a[1..], b[1..]);
    }
  }

  /** The jobs to be replayed and their order are determined by the log. */
  lemma ReplayListUnique(f: Preparation, jobs: JobMap, a: seq<Job>, b: seq<Job>)
    requires KnownOk(f, jobs) && ReplayList(jobs, a) && ReplayList(jobs, b)
    ensures a == b
  {
    hide *;
    ListInOrder(jobs, a);
    ListInOrder(jobs, b);
    forall j: Job
      ensures j in a <==> j in b
    {
      ListedElsewhere(f, jobs, a, b, j);
      ListedElsewhere(f, jobs, b, a, j);
    }
    OrderUnique(a, b);
  }

  lemma ListInOrder(jobs: JobMap, a: seq<Job>)
    requires ReplayList(jobs, a)
    ensures InOrder(a)
  {
    hide Replayed, Sooner;
  }

  lemma ListedElsewhere(f: Preparation, jobs: JobMap, a: seq<Job>, b: seq<Job>, j: Job)
    requires KnownOk(f, jobs) && ReplayList(jobs, a) && ReplayList(jobs, b)
    ensures j in a ==> j in b
  {
    hide KnownOk;
    if j in a {
      assert Replayed(jobs, j);
      hide ReplayList;
      ReplayedIsListed(f, jobs, b, j);
    }
  }

  // ----------------------------------------------- documents of one kind

  /** Every upsert that is replayed is one of the operations. */
  predicate ReplaysOf(replay: seq<Job>, ops: seq<Convergence.Op>) {
    forall j :: j in replay && j.operation == Upsert ==>
      j.prepared.Some? && j.prepared.value.key == j.input.document &&
      Convergence.Op.Upsert(j.prepared.value, j.revision) in ops
  }

  lemma {:induction false} WayFromOps(c: Catalog, replay: seq<Job>, ops: seq<Convergence.Op>)
    requires BackendRuns.FromOps(c.documents, ops) && ReplaysOf(replay, ops)
    ensures BackendRuns.FromOps(OnTheWay(c, replay).documents, ops)
  {
    if replay != [] {
      var n := |replay| - 1;
      assert replay[n] in replay;
      WayFromOps(c, replay[..n], ops);
    }
  }

  lemma KindDimension(f: Preparation, docs: Docs, ops: seq<Convergence.Op>, kind: BackendRuns.Kind)
    requires BackendRuns.Compatible(f, ops, kind) && BackendRuns.FromOps(docs, ops)
    ensures BackendRuns.OnBase(DimensionIn(docs), kind)
  {
    hide BackendRuns.Compatible, BackendRuns.FromOps, KeysAreUnique, LiveKeys, DimensionIn;
    BackendRuns.FromOpsIsKind(f, docs, ops, kind);
    DimensionInIs(docs, kind.dimension);
  }

  lemma {:induction false} BaseOfKind(f: Preparation, c: Catalog, replay: seq<Job>, compacted: set<nat>,
                                      ops: seq<Convergence.Op>, kind: BackendRuns.Kind)
    requires BackendRuns.Compatible(f, ops, kind) && BackendRuns.FromOps(c.documents, ops) && ReplaysOf(replay, ops)
    ensures BackendRuns.OnBase(BaseAt(c, replay, compacted), kind)
  {
    hide BackendRuns.Compatible, BackendRuns.FromOps, DimensionIn, OnTheWay;
    if replay == [] || |replay| in compacted {
      WayFromOps(c, replay, ops);
      KindDimension(f, OnTheWay(c, replay).documents, ops, kind);
    } else {
      BaseOfKind(f, c, replay[..|replay| - 1], compacted, ops, kind);
    }
  }

  /** Documents prepared alike can be built whatever has been replayed of them. */
  lemma OneKindBuilds(f: Preparation, c: Catalog, replay: seq<Job>, compacted: set<nat>, k: nat,
                      ops: seq<Convergence.Op>, kind: BackendRuns.Kind)
    requires BackendRuns.Compatible(f, ops, kind) && BackendRuns.FromOps(c.documents, ops) && ReplaysOf(replay, ops)
    requires k < |replay|
    ensures CanBuild(c, replay, compacted, k)
  {
    hide BackendRuns.Compatible, BackendRuns.FromOps, BackendRuns.OfKind, BaseAt, OnTheWay, Serves;
    WayFromOps(c, replay[..k + 1], ops);
    BaseOfKind(f, c, replay[..k], compacted, ops, kind);
    BackendRuns.FromOpsIsKind(f, OnTheWay(c, replay[..k + 1]).documents, ops, kind);
    BackendRuns.KindIsBuildable(OnTheWay(c, replay[..k + 1]).documents, BaseAt(c, replay[..k], compacted), kind);
  }

  /** When the checkpoint and the replayed documents were prepared alike, staleness alone decides. */
  lemma OneKindRefusedIff(f: Preparation, events: seq<Event>, replay: seq<Job>, compacted: set<nat>,
                          ops: seq<Convergence.Op>, kind: BackendRuns.Kind)
    requires Legal(f, Initial, events) && After(f, Initial, events).mode.Down?
    requires ReplayList(Latest(After(f, Initial, events).log), replay)
    requires BackendRuns.Compatible(f, ops, kind) && ReplaysOf(replay, ops)
    requires BackendRuns.FromOps(After(f, Initial, events).checkpoint.documents, ops)
    ensures var s := After(f, Initial, events);
      Replay(f, s.checkpoint, replay, compacted).Err? <==>
      exists j :: j in s.log && Replayed(Latest(s.log), j) && !Admits(s.checkpoint, MutationOf(j))
  {
    hide *;
    var s := After(f, Initial, events);
    RecoveryRefusedIff(f, events, replay, compacted);
    forall k | 0 <= k < |replay|
      ensures CanBuild(s.checkpoint, replay, compacted, k)
    {
      OneKindBuilds(f, s.checkpoint, replay, compacted, k, ops, kind);
    }
  }
}
