/** Two runs that end in a store no recovery opens although nothing in it is stale: each document was accepted when it
    was activated, but the catalogs replay goes through cannot be built. */
module RecoveryRuns {
  import opened Wrappers
  import Collections
  import opened Documents
  import opened KeyOrder
  import opened Dense
  import opened Validation
  import opened Generations
  import opened Serving
  import opened Jobs
  import opened Ingestion
  import opened IngestionSafety
  import opened IngestionLimits
  import opened IngestionStale
  import opened RecoveryRefusal

  // ---------------------------------------------- an upsert, run straight through to its end

  /** `job` as it stands on its way. */
  predicate InHand(j: Job, job: Job) { !Terminal(j.status) && j == job.(status := j.status, prepared := j.prepared) }

  function Indexed(co: Coordinator, job: Job, jobs: JobMap): Coordinator {
    Coordinator(jobs, co.latestRevision[job.input.document := job.revision], co.latestJob[job.input.document := job.id],
                co.queue, None)
  }

  /** From `s0` only this job has moved, its thread stands at `pc`, and the log names every job as it is. */
  predicate Rising(s0: Sys, s: Sys, job: Job, pc: Pc) {
    job.id in s.co.jobs && InHand(s.co.jobs[job.id], job) && Latest(s.log) == s.co.jobs &&
    s == s0.(log := s.log, co := Indexed(s0.co, job, s0.co.jobs[job.id := s.co.jobs[job.id]]), exec := s0.exec[job.id := pc])
  }

  predicate NewUpsert(f: Preparation, job: Job, p: PreparedDocument) {
    job.operation == Upsert && job.updatedAt == 0 && job.error == None && job.mutationApplied == None &&
    MadeOf(f, job.input, p) && job.contentHash == p.contentHash
  }

  /** The transition of the latest job of its document. */
  lemma TransitionIs(s: Sys, id: JobId, status: Status, prepared: Option<PreparedDocument>)
    requires id in s.co.jobs && !Terminal(s.co.jobs[id].status)
    requires GetOr(s.co.latestRevision, s.co.jobs[id].input.document, 0) == s.co.jobs[id].revision
    ensures var moved := Advanced(s.co.jobs[id], status, None, prepared, None, 0);
      Transition(s, id, status, None, prepared, None, 0) ==
      (s.(log := s.log + [moved], co := s.co.(jobs := s.co.jobs[id := moved]),
          acked := if status == Ready then s.acked + {MutationOf(moved)} else s.acked), true)
  {
    hide Advanced;
  }

  lemma InHandMoves(j: Job, job: Job, status: Status, prepared: Option<PreparedDocument>)
    requires InHand(j, job) && job.updatedAt == 0 && job.error == None && job.mutationApplied == None
    ensures var moved := Advanced(j, status, None, prepared, None, 0);
      moved.id == j.id && (!Terminal(status) ==> InHand(moved, job)) &&
      (status == Ready && prepared.Some? ==> moved == Finished(job, prepared.value))
  {
  }

  lemma TransitionRises(s0: Sys, s: Sys, job: Job, pc: Pc, status: Status, prepared: Option<PreparedDocument>, next: Pc)
    requires Rising(s0, s, job, pc) && !Terminal(status) && job.updatedAt == 0 && job.error == None && job.mutationApplied == None
    ensures Rising(s0, Goto(Transition(s, job.id, status, None, prepared, None, 0), job.id, next), job, next)
  {
    hide Latest, Transition, Advanced;
    var moved := Advanced(s.co.jobs[job.id], status, None, prepared, None, 0);
    InHandMoves(s.co.jobs[job.id], job, status, prepared);
    TransitionIs(s, job.id, status, prepared);
    LatestAppend(s.log, moved);
    var s' := Goto(Transition(s, job.id, status, None, prepared, None, 0), job.id, next);
    assert s'.co.jobs == s0.co.jobs[job.id := moved];
    assert s'.exec == s0.exec[job.id := next];
  }

  lemma AtRises(s0: Sys, s: Sys, job: Job, pc: Pc, next: Pc)
    requires Rising(s0, s, job, pc)
    ensures Rising(s0, At(s, job.id, next), job, next)
  {
    hide Latest;
    assert s0.exec[job.id := pc][job.id := next] == s0.exec[job.id := next];
  }

  lemma RisesOn(f: Preparation, s0: Sys, s: Sys, job: Job, pc: Pc, p: PreparedDocument)
    requires Rising(s0, s, job, pc) && HeadsTo(pc, job.input, p) && StepsLeft(pc) > 0 && NewUpsert(f, job, p)
    requires s0.mode.Up?
    ensures Enabled(f, s, Run(job.id, OutcomeAt(pc, p), 0))
    ensures Rising(s0, Execute(s, job.id, OutcomeAt(pc, p), 0), job, NextPc(pc, job.input, p))
  {
    hide Transition, Latest;
    var next := NextPc(pc, job.input, p);
    match pc
    case EnterChunking => TransitionRises(s0, s, job, pc, Chunking, None, next);
    case EnterEmbedding(_) => TransitionRises(s0, s, job, pc, Embedding, None, next);
    case EnterPublishing(_) => TransitionRises(s0, s, job, pc, Publishing, Some(p), next);
    case _ => AtRises(s0, s, job, pc, next);
  }

  lemma {:induction false} RisePublish(f: Preparation, events: seq<Event>, s0: Sys, job: Job, pc: Pc, p: PreparedDocument)
    returns (longer: seq<Event>)
    requires Legal(f, Initial, events) && Rising(s0, After(f, Initial, events), job, pc) && s0.mode.Up?
    requires HeadsTo(pc, job.input, p) && NewUpsert(f, job, p)
    ensures Legal(f, Initial, longer) && Rising(s0, After(f, Initial, longer), job, Publish(p))
    decreases StepsLeft(pc)
  {
    hide Legal, After, Rising, Execute, Enabled, HeadsTo, NextPc, StepsLeft, NewUpsert;
    NextOnTheWay(pc, job.input, p);
    if StepsLeft(pc) == 0 {
      longer := events;
    } else {
      var e := Run(job.id, OutcomeAt(pc, p), 0);
      RisesOn(f, s0, After(f, Initial, events), job, pc, p);
      Extend(f, events, e);
      longer := RisePublish(f, events + [e], s0, job, NextPc(pc, job.input, p), p);
    }
  }

  /** The catalog with the document active at this revision. */
  function WithDocument(c: Catalog, p: PreparedDocument, revision: nat): Catalog {
    Catalog(c.revisions[p.key := revision], c.documents[p.key := Active(revision, p)])
  }

  function Finished(job: Job, p: PreparedDocument): Job {
    job.(status := Ready, prepared := Some(p), input := job.input.(content := ""))
  }

  /** The upsert has been acknowledged, and nothing else has happened. */
  predicate Upserted(s0: Sys, s: Sys, job: Job, p: PreparedDocument) {
    Latest(s.log) == s.co.jobs &&
    s == s0.(log := s.log, co := Indexed(s0.co, job, s0.co.jobs[job.id := Finished(job, p)]), exec := s0.exec - {job.id},
             backend := WithDocument(s0.backend, p, job.revision),
             acked := s0.acked + {Mutation(job.input.document, job.revision, Documents.Effect.Put(job.contentHash))})
  }

  lemma PublishStep(f: Preparation, s0: Sys, s: Sys, job: Job, p: PreparedDocument)
    requires Rising(s0, s, job, Publish(p)) && s0.mode.Up? && NewUpsert(f, job, p) && ValidDocument(f, p, job.revision)
    requires p.key in s0.backend.revisions ==> s0.backend.revisions[p.key] < job.revision
    requires Serves(s0.base, WithDocument(s0.backend, p, job.revision).documents)
    ensures Enabled(f, s, Run(job.id, Fine, 0))
    ensures Execute(s, job.id, Fine, 0) == At(s.(backend := WithDocument(s0.backend, p, job.revision)), job.id, EnterReady(p))
  {
    hide ValidDocument, Serves, Latest;
  }

  lemma ReadyExecutes(f: Preparation, s: Sys, id: JobId, p: PreparedDocument)
    requires s.mode.Up? && s.co.admitting.None? && id in s.exec && s.exec[id] == EnterReady(p)
    ensures Enabled(f, s, Run(id, Fine, 0))
    ensures Execute(s, id, Fine, 0) == Leave(Transition(s, id, Ready, None, Some(p), None, 0).0, id)
  {
    hide Transition;
  }

  lemma ReadyStep(f: Preparation, s0: Sys, s: Sys, s': Sys, job: Job, p: PreparedDocument)
    requires Rising(s0, s, job, Publish(p)) && s0.mode.Up? && s0.co.admitting.None? && NewUpsert(f, job, p)
    requires s' == At(s.(backend := WithDocument(s0.backend, p, job.revision)), job.id, EnterReady(p))
    ensures Enabled(f, s', Run(job.id, Fine, 0)) && Upserted(s0, Execute(s', job.id, Fine, 0), job, p)
  {
    hide Latest, Transition, Advanced, WithDocument, Execute, Enabled, HashOf;
    var done := Finished(job, p);
    InHandMoves(s.co.jobs[job.id], job, Ready, Some(p));
    ReadyExecutes(f, s', job.id, p);
    TransitionIs(s', job.id, Ready, Some(p));
    LatestAppend(s.log, done);
    assert s.co.jobs[job.id := done] == s0.co.jobs[job.id := done];
    assert s'.exec - {job.id} == s0.exec - {job.id};
  }

  lemma AdmitRises(f: Preparation, s0: Sys, id: JobId, input: Input)
    requires s0.mode.Up? && s0.co.admitting.None? && id !in s0.co.jobs && input.document != ""
    requires !Answered(s0.co, input, HashOf(f, input)) && Displaced(s0.co, input.document) == None
    requires Latest(s0.log) == s0.co.jobs
    ensures var admit := Admit(id, Upsert, input, 0);
      Enabled(f, s0, admit) && Enabled(f, Apply(f, s0, admit), Admitted(false, 0)) &&
      Rising(s0, Apply(f, Apply(f, s0, admit), Admitted(false, 0)), Fresh(s0.co, id, Upsert, input, HashOf(f, input), 0), Begin)
  {
    hide Answered, Latest;
    var job := Fresh(s0.co, id, Upsert, input, HashOf(f, input), 0);
    LatestAppend(s0.log, job);
    var s1 := Apply(f, s0, Admit(id, Upsert, input, 0));
    assert Displaced(s1.co, input.document) == Displaced(s0.co, input.document);
  }

  /** The coordinator is free, has nothing unfinished for the document, and the backend will take the upsert. */
  ghost predicate ReadyToUpsert(f: Preparation, s: Sys, id: JobId, input: Input, p: PreparedDocument) {
    s.mode.Up? && s.co.admitting.None? && id !in s.co.jobs && input.document != "" && MadeOf(f, input, p) &&
    Latest(s.log) == s.co.jobs && !Answered(s.co, input, HashOf(f, input)) && Displaced(s.co, input.document) == None &&
    var revision := GetOr(s.co.latestRevision, input.document, 0) + 1;
    ValidDocument(f, p, revision) && (p.key in s.backend.revisions ==> s.backend.revisions[p.key] < revision) &&
    Serves(s.base, WithDocument(s.backend, p, revision).documents)
  }

  lemma UpsertRuns(f: Preparation, events: seq<Event>, id: JobId, input: Input, p: PreparedDocument) returns (longer: seq<Event>)
    requires Legal(f, Initial, events) && ReadyToUpsert(f, After(f, Initial, events), id, input, p)
    ensures Legal(f, Initial, longer)
    ensures var s := After(f, Initial, events);
      Upserted(s, After(f, Initial, longer), Fresh(s.co, id, Upsert, input, HashOf(f, input), 0), p)
  {
    hide Legal, After, Apply, Enabled, Execute, ValidDocument, Serves, Latest, Answered, Displaced, Rising, Upserted, WithDocument;
    var s0 := After(f, Initial, events);
    var job := Fresh(s0.co, id, Upsert, input, HashOf(f, input), 0);
    AdmitRises(f, s0, id, input);
    Extend(f, events, Admit(id, Upsert, input, 0));
    Extend(f, events + [Admit(id, Upsert, input, 0)], Admitted(false, 0));
    longer := RisePublish(f, events + [Admit(id, Upsert, input, 0)] + [Admitted(false, 0)], s0, job, Begin, p);
    longer := FinishUpsert(f, longer, s0, job, p);
  }

  lemma FinishUpsert(f: Preparation, events: seq<Event>, s0: Sys, job: Job, p: PreparedDocument) returns (longer: seq<Event>)
    requires Legal(f, Initial, events) && Rising(s0, After(f, Initial, events), job, Publish(p)) && s0.mode.Up? && s0.co.admitting.None?
    requires NewUpsert(f, job, p) && ValidDocument(f, p, job.revision)
    requires p.key in s0.backend.revisions ==> s0.backend.revisions[p.key] < job.revision
    requires Serves(s0.base, WithDocument(s0.backend, p, job.revision).documents)
    ensures Legal(f, Initial, longer) && Upserted(s0, After(f, Initial, longer), job, p)
  {
    hide Legal, After, Enabled, Execute, ValidDocument, Serves, Latest, Rising, Upserted, WithDocument;
    var s, run := After(f, Initial, events), Run(job.id, Fine, 0);
    PublishStep(f, s0, s, job, p);
    Extend(f, events, run);
    ReadyStep(f, s0, s, After(f, Initial, events + [run]), job, p);
    Extend(f, events + [run], run);
    longer := events + [run] + [run];
  }

  // -------------------------------------------------------------------------- a restart

  /** What a restart makes of a store in which every job is over. */
  ghost function Restarted(s: Sys, replay: seq<Job>, backend: Catalog): Sys {
    s.(mode := Up, co := Coordinator(s.co.jobs, s.co.latestRevision, s.co.latestJob, [], None), backend := backend,
       base := BaseAt(s.checkpoint, replay, {}), exec := map[], maintenance := Idle)
  }

  lemma RestartStep(f: Preparation, s: Sys, replay: seq<Job>, backend: Catalog)
    requires s.mode.Up? && Latest(s.log) == s.co.jobs && IsLatestIndex(s.co.jobs, s.co.latestRevision, s.co.latestJob)
    requires forall id :: id in s.co.jobs ==> Terminal(s.co.jobs[id].status)
    requires ReplayList(s.co.jobs, replay) && Replay(f, s.checkpoint, replay, {}) == Ok(backend)
    ensures var load := RecoverLoad(replay, {}, s.co.latestRevision, s.co.latestJob);
      Enabled(f, Crashed(s), load) && Enabled(f, Apply(f, Crashed(s), load), RecoverDone) &&
      Apply(f, Apply(f, Crashed(s), load), RecoverDone) == Restarted(s, replay, backend)
  {
    hide Latest, Replay, ReplayList, IsLatestIndex, BaseAt;
    var s1 := Apply(f, Crashed(s), RecoverLoad(replay, {}, s.co.latestRevision, s.co.latestJob));
    assert s1.mode == Recovering({});
    assert Apply(f, s1, RecoverDone).exec == map[];
  }

  lemma Restart(f: Preparation, events: seq<Event>, replay: seq<Job>, backend: Catalog) returns (longer: seq<Event>)
    requires Legal(f, Initial, events)
    requires var s := After(f, Initial, events);
      s.mode.Up? && Latest(s.log) == s.co.jobs && (forall id :: id in s.co.jobs ==> Terminal(s.co.jobs[id].status)) &&
      ReplayList(s.co.jobs, replay) && Replay(f, s.checkpoint, replay, {}) == Ok(backend)
    ensures Legal(f, Initial, longer) && After(f, Initial, longer) == Restarted(After(f, Initial, events), replay, backend)
  {
    hide Legal, After, Enabled, Latest, Replay, ReplayList, BaseAt, KnownOk, LogKnown, Final, Durable, Live, Threads, Unfinished,
         IsLatestIndex;
    var s := After(f, Initial, events);
    RunsKeep(f, events);
    RestartStep(f, s, replay, backend);
    var load := RecoverLoad(replay, {}, s.co.latestRevision, s.co.latestJob);
    Extend(f, events, Crash);
    assert After(f, Initial, events + [Crash]) == Crashed(s);
    hide Apply;
    Extend(f, events + [Crash], load);
    Extend(f, events + [Crash] + [load], RecoverDone);
    longer := events + [Crash] + [load] + [RecoverDone];
  }

  // ------------------------------------------------------------- documents of two kinds

  const Plain := Preparation(
    (text: string) => text, (title: string, content: string, m: Metadata) => content,
    (d: DocKey, from: nat, to: nat, text: string) => d + text)

  function Text(d: DocKey, content: string): Input { Input(d, "", content, map[]) }

  /** A document of one chunk with an embedding, or of none. */
  function Doc(d: DocKey, content: string, style: string, embedding: Vector): PreparedDocument {
    PreparedDocument(d, "", content, map[], content, style, "e",
                     if embedding == [] then [] else [PreparedChunk(d + "t", 0, "t", "t", "", 1, 1, embedding)])
  }

  lemma DocValid(d: DocKey, content: string, style: string, embedding: Vector, revision: nat)
    requires d != "" && content != "" && style != "" && revision != 0 && (embedding == [] || Normalized(embedding))
    ensures ValidDocument(Plain, Doc(d, content, style, embedding), revision)
  {
    hide Normalized;
  }

  lemma UnitVectors()
    ensures Normalized([1.0]) && Normalized([1.0, 0.0])
  {
    assert Dot([1.0], [1.0]) == 1.0 + Dot([], []);
    assert [1.0, 0.0][1..] == [0.0] && [0.0][1..] == [] && [1.0][1..] == [];
    assert Dot([0.0], [0.0]) == 0.0;
  }

  /** Without chunks only fingerprints and identities matter. */
  lemma ChunklessServes(base: nat, docs: Docs)
    requires forall d :: d in docs ==> docs[d].prepared.chunks == []
    ensures Serves(base, docs) <==> Settled(docs)
  {
    hide Settled;
    assert LiveKeys(docs) == {};
    assert Uniform(docs, 0);
  }

  const A: DocKey := "a"
  const B: DocKey := "b"

  /** The ready record of an upsert of `p`. */
  function Done(id: JobId, revision: nat, p: PreparedDocument): Job {
    Job(id, Upsert, Text(p.key, ""), revision, p.contentHash, Ready, 0, 0, None, Some(p), None)
  }

  ghost predicate IsDoc(p: PreparedDocument, d: DocKey, content: string, style: string) {
    exists v: Vector :: p == Doc(d, content, style, v) && (v == [] || Normalized(v))
  }

  lemma IsDocFacts(p: PreparedDocument, d: DocKey, content: string, style: string, revision: nat)
    requires IsDoc(p, d, content, style) && d != "" && content != "" && style != "" && revision != 0
    ensures ValidDocument(Plain, p, revision) && MadeOf(Plain, Text(d, content), p)
    ensures p.key == d && p.contentHash == content && p.chunkingFingerprint == style && p.embeddingIdentity == "e" && |p.chunks| <= 1
  {
    hide Normalized;
    var v: Vector :| p == Doc(d, content, style, v) && (v == [] || Normalized(v));
    DocValid(d, content, style, v, revision);
  }

  lemma OneDocumentServes(d: DocKey, a: Active)
    requires |a.prepared.chunks| <= 1
    ensures Serves(0, map[d := a])
  {
    var docs := map[d := a];
    if a.prepared.chunks == [] {
      ChunklessServes(0, docs);
    } else {
      var x := a.prepared.chunks[0];
      assert forall e, c :: ChunkOf(docs, e, c) ==> e == d && c == x;
      assert Uniform(docs, |x.embedding|);
      forall k | k in LiveKeys(docs)
        ensures k == x.key
      {
        var e, c := LiveWitness(docs, k);
      }
      hide LiveKeys;
      AtMostOne(LiveKeys(docs), x.key);
    }
  }

  lemma AtMostOne(s: set<string>, k: string)
    requires forall x :: x in s ==> x == k
    ensures |s| <= 1
  {
    Collections.SubsetSize(s, {k});
  }

  function OneDocument(p: PreparedDocument): Catalog { Catalog(map[p.key := 1], map[p.key := Active(1, p)]) }

  /** One acknowledged upsert of `a`, a restart with a log and no checkpoint, and a checkpoint whose cut is still to come. */
  function Base(log: seq<Job>, p: PreparedDocument): Sys {
    Sys(log, OneDocument(p), Up, Coordinator(map["1" := Done("1", 1, p)], map[A := 1], map[A := "1"], [], None), OneDocument(p),
        0, map[], Written(|log|), {Mutation(A, 1, Documents.Effect.Put(p.contentHash))})
  }

  lemma ReplayOne(p: PreparedDocument)
    requires IsDoc(p, A, "x", "f")
    ensures ReplayList(map["1" := Done("1", 1, p)], [Done("1", 1, p)])
    ensures Replay(Plain, EmptyCatalog, [Done("1", 1, p)], {}) == Ok(OneDocument(p))
    ensures BaseAt(EmptyCatalog, [Done("1", 1, p)], {}) == 0
  {
    var jobs, j := map["1" := Done("1", 1, p)], Done("1", 1, p);
    assert jobs["1"] == j && Replayed(jobs, j);
    NoBase(j);
    ReplayJobOne(p);
    hide ReplayJob, IsDoc;
    assert [j][..0] == [];
    assert [j][0] == j;
    assert Replay(Plain, EmptyCatalog, [], {}) == Ok(EmptyCatalog);
    assert Replay(Plain, EmptyCatalog, [j], {}) == ReplayJob(Plain, BaseAt(EmptyCatalog, [], {}), EmptyCatalog, j);
  }

  lemma NoBase(j: Job)
    ensures BaseAt(EmptyCatalog, [], {}) == 0 && BaseAt(EmptyCatalog, [j], {}) == 0
  {
    assert [j][..0] == [];
    assert DimensionIn(map[]) == 0 && OnTheWay(EmptyCatalog, []) == EmptyCatalog;
    hide DimensionIn, OnTheWay;
    assert |[j]| !in {};
  }

  lemma ReplayJobOne(p: PreparedDocument)
    requires IsDoc(p, A, "x", "f")
    ensures ReplayJob(Plain, 0, EmptyCatalog, Done("1", 1, p)) == Ok(OneDocument(p))
  {
    IsDocFacts(p, A, "x", "f", 1);
    OneDocumentServes(A, Active(1, p));
    hide ValidDocument, Serves, IsDoc;
    assert OneDocument(p) == WithDocument(EmptyCatalog, p, 1);
    assert ArbitrateJob(EmptyCatalog, Done("1", 1, p)) == Ok(OneDocument(p));
  }

  /** The state of the first upsert, spelt out. */
  lemma FirstIs(s: Sys, p: PreparedDocument)
    requires IsDoc(p, A, "x", "f")
    requires Upserted(Opened, s, Fresh(Opened.co, "1", Upsert, Text(A, "x"), HashOf(Plain, Text(A, "x")), 0), p)
    ensures s == Base(s.log, p).(checkpoint := EmptyCatalog, maintenance := Idle)
    ensures Latest(s.log) == map["1" := Done("1", 1, p)]
  {
    IsDocFacts(p, A, "x", "f", 1);
    hide ValidDocument, Latest, IsDoc;
    assert s.exec == map[];
    assert s.co.jobs == map["1" := Done("1", 1, p)];
    assert s.backend == OneDocument(p);
  }

  lemma ReadyFirst(p: PreparedDocument)
    requires IsDoc(p, A, "x", "f")
    ensures ReadyToUpsert(Plain, Opened, "1", Text(A, "x"), p)
  {
    IsDocFacts(p, A, "x", "f", 1);
    OneDocumentServes(A, Active(1, p));
    hide ValidDocument, Serves, IsDoc;
    assert WithDocument(EmptyCatalog, p, 1).documents == map[A := Active(1, p)];
  }

  lemma ReachBase(p: PreparedDocument) returns (events: seq<Event>)
    requires IsDoc(p, A, "x", "f")
    ensures Legal(Plain, Initial, events)
    ensures var s := After(Plain, Initial, events); s == Base(s.log, p) && Latest(s.log) == s.co.jobs
  {
    hide *;
    events := OpenEmpty(Plain);
    ReadyFirst(p);
    events := UpsertRuns(Plain, events, "1", Text(A, "x"), p);
    FirstIs(After(Plain, Initial, events), p);
    events := RestartFirst(events, p);
    events := CheckpointFirst(events, p);
  }

  lemma RestartFirst(events: seq<Event>, p: PreparedDocument) returns (longer: seq<Event>)
    requires IsDoc(p, A, "x", "f") && Legal(Plain, Initial, events)
    requires var s := After(Plain, Initial, events);
      s == Base(s.log, p).(checkpoint := EmptyCatalog, maintenance := Idle) && Latest(s.log) == map["1" := Done("1", 1, p)]
    ensures Legal(Plain, Initial, longer)
    ensures After(Plain, Initial, longer) == After(Plain, Initial, events)
  {
    hide Legal, After, Latest, Replay, ReplayList, BaseAt, IsDoc;
    ReplayOne(p);
    longer := Restart(Plain, events, [Done("1", 1, p)], OneDocument(p));
  }

  lemma CheckpointFirst(events: seq<Event>, p: PreparedDocument) returns (longer: seq<Event>)
    requires Legal(Plain, Initial, events)
    requires var s := After(Plain, Initial, events);
      s == Base(s.log, p).(checkpoint := EmptyCatalog, maintenance := Idle) && Latest(s.log) == map["1" := Done("1", 1, p)]
    ensures Legal(Plain, Initial, longer)
    ensures var s := After(Plain, Initial, longer); s == Base(s.log, p) && Latest(s.log) == s.co.jobs
  {
    hide Legal, After, Latest;
    longer := CheckpointUncut(Plain, events);
  }

  /** `a` again, prepared otherwise. */
  function Second(log: seq<Job>, s: Sys, p: PreparedDocument, q: PreparedDocument): Sys {
    s.(log := log,
       co := Coordinator(map["1" := Done("1", 1, p), "2" := Done("2", 2, q)], map[A := 2], map[A := "2"], [], None),
       backend := Catalog(map[A := 2], map[A := Active(2, q)]),
       acked := s.acked + {Mutation(A, 2, Documents.Effect.Put(q.contentHash))})
  }

  lemma ReadySecond(s: Sys, p: PreparedDocument, q: PreparedDocument)
    requires IsDoc(p, A, "x", "f") && IsDoc(q, A, "y", "g") && s == Base(s.log, p) && Latest(s.log) == s.co.jobs
    ensures ReadyToUpsert(Plain, s, "2", Text(A, "y"), q)
  {
    hide ValidDocument, Serves, IsDoc, Latest, Doc;
    IsDocFacts(p, A, "x", "f", 1);
    IsDocFacts(q, A, "y", "g", 2);
    OneDocumentServes(A, Active(2, q));
    assert Displaced(s.co, A) == None;
    assert !Answered(s.co, Text(A, "y"), HashOf(Plain, Text(A, "y")));
    assert s.backend.revisions[A := 2] == map[A := 2];
    assert WithDocument(s.backend, q, 2).documents == map[A := Active(2, q)];
  }

  lemma SecondIs(s: Sys, s': Sys, p: PreparedDocument, q: PreparedDocument)
    requires IsDoc(p, A, "x", "f") && IsDoc(q, A, "y", "g") && s == Base(s.log, p)
    requires Upserted(s, s', Fresh(s.co, "2", Upsert, Text(A, "y"), HashOf(Plain, Text(A, "y")), 0), q)
    ensures s' == Second(s'.log, s, p, q) && Latest(s'.log) == s'.co.jobs
  {
    hide ValidDocument, Latest, IsDoc, Doc;
    IsDocFacts(p, A, "x", "f", 1);
    IsDocFacts(q, A, "y", "g", 2);
    assert s'.exec == map[];
    assert s'.co.jobs == map["1" := Done("1", 1, p), "2" := Done("2", 2, q)];
    assert s'.backend == Catalog(map[A := 2], map[A := Active(2, q)]);
  }

  lemma ReachSecond(p: PreparedDocument, q: PreparedDocument) returns (events: seq<Event>)
    requires IsDoc(p, A, "x", "f") && IsDoc(q, A, "y", "g")
    ensures Legal(Plain, Initial, events)
    ensures var s := After(Plain, Initial, events);
      s == Second(s.log, Base([], p).(maintenance := s.maintenance), p, q) && Latest(s.log) == s.co.jobs
  {
    hide Legal, After, Latest, IsDoc, ReadyToUpsert, Upserted;
    events := ReachBase(p);
    var s := After(Plain, Initial, events);
    ReadySecond(s, p, q);
    events := UpsertRuns(Plain, events, "2", Text(A, "y"), q);
    SecondIs(s, After(Plain, Initial, events), p, q);
  }

  /** No recovery opens the store, whatever compactions are published during it. */
  ghost predicate NeverOpens(f: Preparation, s: Sys) {
    forall replay, compacted, revisions, latest :: !Enabled(f, s, RecoverLoad(replay, compacted, revisions, latest))
  }

  /** Nothing that would be replayed is stale. */
  ghost predicate NothingStale(s: Sys) {
    forall j :: j in s.log && Replayed(Latest(s.log), j) ==> Admits(s.checkpoint, MutationOf(j))
  }

  /** The first job to be replayed, and the catalog it would lead to. */
  ghost predicate FirstUnbuildable(s: Sys, j: Job) {
    (forall replay :: ReplayList(Latest(s.log), replay) ==> replay != [] && replay[0] == j) &&
    !Serves(DimensionIn(s.checkpoint.documents), WithJob(s.checkpoint, j).documents)
  }

  lemma FirstRefused(f: Preparation, events: seq<Event>, j: Job)
    requires Legal(f, Initial, events) && After(f, Initial, events).mode.Down? && FirstUnbuildable(After(f, Initial, events), j)
    ensures NeverOpens(f, After(f, Initial, events))
  {
    hide Legal, After, ReplayList, Replay, IsLatestIndex, Latest, FirstUnbuildable;
    var s := After(f, Initial, events);
    forall replay, compacted, revisions, latest | ReplayList(Latest(s.log), replay)
      ensures !Enabled(f, s, RecoverLoad(replay, compacted, revisions, latest))
    {
      ListRefused(f, events, j, replay, compacted);
    }
  }

  lemma ListRefused(f: Preparation, events: seq<Event>, j: Job, replay: seq<Job>, compacted: set<nat>)
    requires Legal(f, Initial, events) && After(f, Initial, events).mode.Down? && FirstUnbuildable(After(f, Initial, events), j)
    requires ReplayList(Latest(After(f, Initial, events).log), replay)
    ensures Replay(f, After(f, Initial, events).checkpoint, replay, compacted).Err?
  {
    hide Legal, After, ReplayList, Replay, Latest, Serves, WithJob, DimensionIn, Admits, Replayed;
    var c := After(f, Initial, events).checkpoint;
    RecoveryRefusedIff(f, events, replay, compacted);
    FirstStepOf(c, replay, compacted);
  }

  lemma FirstStepOf(c: Catalog, replay: seq<Job>, compacted: set<nat>)
    requires replay != []
    ensures CanBuild(c, replay, compacted, 0) <==> Serves(DimensionIn(c.documents), WithJob(c, replay[0]).documents)
  {
    hide Serves, WithJob, DimensionIn;
    assert replay[..0] == [] && replay[..1][..0] == [] && replay[..1][0] == replay[0];
    assert OnTheWay(c, replay[..0]) == c;
    assert OnTheWay(c, replay[..1]) == WithJob(OnTheWay(c, replay[..1][..0]), replay[0]);
  }

  lemma CrashAfter(f: Preparation, events: seq<Event>)
    requires Legal(f, Initial, events)
    ensures Legal(f, Initial, events + [Crash]) && After(f, Initial, events + [Crash]) == Crashed(After(f, Initial, events))
  {
    Extend(f, events, Crash);
  }

  // ------------------------------------------------- one document, two dimensions

  const Short := Doc(A, "x", "f", [1.0])
  const Long := Doc(A, "y", "g", [1.0, 0.0])

  lemma ShortAndLong()
    ensures IsDoc(Short, A, "x", "f") && IsDoc(Long, A, "y", "g")
    ensures DimensionIn(map[A := Active(1, Short)]) == 1 && !Serves(1, map[A := Active(2, Long)])
  {
    UnitVectors();
    hide Normalized;
    var docs := map[A := Active(1, Short)];
    assert ChunkOf(docs, A, Short.chunks[0]);
    assert Uniform(docs, 1);
    DimensionInIs(docs, 1);
    assert ChunkOf(map[A := Active(2, Long)], A, Long.chunks[0]);
  }

  lemma SecondFirst(s: Sys, q: PreparedDocument, p: PreparedDocument)
    requires Latest(s.log) == map["1" := Done("1", 1, p), "2" := Done("2", 2, q)] && p.key == A && q.key == A
    requires s.checkpoint == OneDocument(p)
    ensures forall replay :: ReplayList(Latest(s.log), replay) ==> replay != [] && replay[0] == Done("2", 2, q)
    ensures NothingStale(s)
  {
    hide Latest;
    var jobs := Latest(s.log);
    assert forall j :: Replayed(jobs, j) ==> j == Done("2", 2, q) by {
      assert jobs["2"] == Done("2", 2, q);
    }
    forall replay | ReplayList(jobs, replay)
      ensures replay != [] && replay[0] == Done("2", 2, q)
    {
      hide Replayed;
      var r := ListedFor(jobs, "2", replay);
    }
  }

  /** A document is prepared with vectors of one dimension and, after a restart, with vectors of another. The checkpoint
      holds the first, the log the second; restoring builds a base of the first dimension, and the replay is refused. */
  lemma DimensionRefused() returns (events: seq<Event>)
    ensures Legal(Plain, Initial, events)
    ensures var s := After(Plain, Initial, events);
      s.mode.Down? && NothingStale(s) && NeverOpens(Plain, s) && Mutation(A, 2, Documents.Effect.Put("y")) in s.acked
  {
    hide Legal, After, Latest, Serves, DimensionIn, NeverOpens, NothingStale, ReplayList;
    ShortAndLong();
    events := ReachSecond(Short, Long);
    CrashAfter(Plain, events);
    events := events + [Crash];
    var s := After(Plain, Initial, events);
    SecondFirst(s, Long, Short);
    assert WithJob(s.checkpoint, Done("2", 2, Long)).documents == map[A := Active(2, Long)];
    FirstRefused(Plain, events, Done("2", 2, Long));
  }

  // -------------------------------------------- two documents, two chunking fingerprints

  const Old := Doc(A, "x", "f", [])
  const New := Doc(A, "y", "g", [])
  const Other := Doc(B, "z", "g", [])

  lemma PlainDocs()
    ensures IsDoc(Old, A, "x", "f") && IsDoc(New, A, "y", "g") && IsDoc(Other, B, "z", "g")
    ensures Serves(0, map[A := Active(2, New), B := Active(1, Other)])
    ensures forall base :: !Serves(base, map[A := Active(1, Old), B := Active(1, Other)])
  {
    hide Normalized;
    ChunklessServes(0, map[A := Active(2, New), B := Active(1, Other)]);
    var mixed := map[A := Active(1, Old), B := Active(1, Other)];
    assert KeyLess(A, B);
    assert !Settled(mixed);
  }

  lemma SecondFacts(s: Sys)
    requires s == Second(s.log, Base([], Old).(maintenance := s.maintenance), Old, New)
    ensures s.mode.Up? && s.co.admitting.None? && "3" !in s.co.jobs && s.co.latestJob == map[A := "2"] && s.base == 0
    ensures s.co.latestRevision == map[A := 2] && s.backend == Catalog(map[A := 2], map[A := Active(2, New)])
  {
  }

  lemma ReadyThird(s: Sys)
    requires s == Second(s.log, Base([], Old).(maintenance := s.maintenance), Old, New) && Latest(s.log) == s.co.jobs
    ensures ReadyToUpsert(Plain, s, "3", Text(B, "z"), Other)
  {
    hide ValidDocument, Serves, IsDoc, Latest, Second, Base, Doc;
    PlainDocs();
    IsDocFacts(Other, B, "z", "g", 1);
    SecondFacts(s);
    assert map[A := Active(2, New)][B := Active(1, Other)] == map[A := Active(2, New), B := Active(1, Other)];
  }

  lemma ThirdIs(s: Sys, s': Sys)
    requires s == Second(s.log, Base([], Old).(maintenance := s.maintenance), Old, New)
    requires Upserted(s, s', Fresh(s.co, "3", Upsert, Text(B, "z"), HashOf(Plain, Text(B, "z")), 0), Other)
    ensures Latest(s'.log) == Three
    ensures s'.checkpoint == OneDocument(Old) && s'.mode.Up? && Mutation(B, 1, Documents.Effect.Put("z")) in s'.acked
  {
    hide Latest;
    assert s'.co.jobs == Three;
  }

  const Three: JobMap := map["1" := Done("1", 1, Old), "2" := Done("2", 2, New), "3" := Done("3", 1, Other)]

  lemma ThreeReplayed(j: Job)
    requires Replayed(Three, j)
    ensures j == Done("2", 2, New) || j == Done("3", 1, Other)
  {
    assert Three["2"] == Done("2", 2, New);
  }

  /** Of two jobs that may be replayed, the one that is not later comes first. */
  lemma FirstOfTwo(jobs: JobMap, replay: seq<Job>, id: JobId, other: Job)
    requires ReplayList(jobs, replay) && id in jobs && IsReady(jobs[id])
    requires forall j :: Replayed(jobs, j) ==> j == other || j == jobs[id]
    requires other.input.document != jobs[id].input.document && !Sooner(other, jobs[id])
    ensures replay != [] && replay[0] == jobs[id]
  {
    hide Replayed, Sooner;
    var r := ListedFor(jobs, id, replay);
    var i :| 0 <= i < |replay| && replay[i] == r;
    assert i > 0 ==> Sooner(replay[0], replay[i]);
  }

  lemma ThirdFirst(s: Sys)
    requires Latest(s.log) == Three && s.checkpoint == OneDocument(Old)
    ensures forall replay :: ReplayList(Latest(s.log), replay) ==> replay != [] && replay[0] == Done("3", 1, Other)
    ensures NothingStale(s)
  {
    hide Latest, Replayed, ReplayList;
    forall j | Replayed(Three, j)
      ensures j == Done("2", 2, New) || j == Done("3", 1, Other)
    {
      ThreeReplayed(j);
    }
    forall replay | ReplayList(Three, replay)
      ensures replay != [] && replay[0] == Done("3", 1, Other)
    {
      FirstOfTwo(Three, replay, "3", Done("2", 2, New));
    }
  }

  /** A document is prepared under other chunk options after a restart, and a second one is added. The checkpoint still
      holds the first under the old options; replay by revision puts the second beside it, and is refused. */
  lemma FingerprintRefused() returns (events: seq<Event>)
    ensures Legal(Plain, Initial, events)
    ensures var s := After(Plain, Initial, events);
      s.mode.Down? && NothingStale(s) && NeverOpens(Plain, s) && Mutation(B, 1, Documents.Effect.Put("z")) in s.acked
  {
    hide Legal, After, Latest, Serves, DimensionIn, NeverOpens, NothingStale, ReplayList, IsDoc, ReadyToUpsert, Upserted;
    PlainDocs();
    events := ReachSecond(Old, New);
    var s2 := After(Plain, Initial, events);
    ReadyThird(s2);
    events := UpsertRuns(Plain, events, "3", Text(B, "z"), Other);
    ThirdIs(s2, After(Plain, Initial, events));
    CrashAfter(Plain, events);
    events := events + [Crash];
    var s := After(Plain, Initial, events);
    ThirdFirst(s);
    assert WithJob(s.checkpoint, Done("3", 1, Other)).documents == map[A := Active(1, Old), B := Active(1, Other)];
    FirstRefused(Plain, events, Done("3", 1, Other));
  }
}
