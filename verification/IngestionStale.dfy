/** Exactly when a current upsert is refused as stale, and that every recovery whose log does not
    cover the checkpoint leads to such a refusal. */
module IngestionStale {
  import opened Wrappers
  import opened Documents
  import opened Validation
  import opened Serving
  import opened Jobs
  import opened Ingestion
  import opened IngestionSafety
  import opened IngestionTheorems
  import opened IngestionLimits

  /** The backend's record of `d` is past the revision just assigned, or at it with other content. */
  predicate Outruns(c: Catalog, d: DocKey, revision: nat, hash: string) {
    d in c.revisions && (c.revisions[d] > revision || (c.revisions[d] == revision && EffectAt(c, d) != Put(hash)))
  }

  /** Over every run: the activation of a current upsert is refused as stale exactly when the backend has
      outrun the latest assigned revision. */
  lemma StaleIff(f: Preparation, events: seq<Event>, id: JobId, p: PreparedDocument)
    requires Legal(f, Initial, events)
    requires var s := After(f, Initial, events);
      s.mode.Up? && id in s.exec && s.exec[id] == Publish(p) && id in s.co.jobs &&
      Current(s.co.latestRevision, s.co.jobs[id])
    ensures var s := After(f, Initial, events); var j := s.co.jobs[id];
      Activate(s.backend, p, j.revision).Err? <==>
      Outruns(s.backend, j.input.document, GetOr(s.co.latestRevision, j.input.document, 0), HashOf(f, j.input))
  {
    hide Legal, After, LogKnown, Final, Durable, IsLatestIndex, Unfinished, Activate, OneJobPerSlot, KeyedById;
    RunsKeep(f, events);
    var s := After(f, Initial, events);
    assert ThreadOk(f, s.co.latestRevision, s.backend, s.co.jobs[id], s.exec[id]);
    assert RecordOk(f, s.co.jobs[id]) by {
      assert id in Known(s);
    }
  }

  // ------------------------------------------- one upsert, run straight through

  /** Job `id` is the current upsert of its document, its thread stands at `pc`, and nobody has
      touched the backend. */
  predicate Heading(s: Sys, backend: Catalog, job: Job, pc: Pc) {
    s.mode.Up? && s.co.admitting.None? && s.backend == backend && job.id in s.exec && s.exec[job.id] == pc &&
    job.id in s.co.jobs && job.operation == Upsert && SameJob(s.co.jobs[job.id], job) &&
    s.co.jobs[job.id].input == job.input && Current(s.co.latestRevision, s.co.jobs[job.id])
  }

  function NextPc(pc: Pc, input: Input, p: PreparedDocument): Pc {
    match pc
    case Begin => EnterChunking
    case EnterChunking => ReadInput
    case ReadInput => Prepare(input)
    case Prepare(_) => EnterEmbedding(p)
    case EnterEmbedding(_) => Embed(p)
    case Embed(_) => EnterPublishing(p)
    case _ => Publish(p)
  }

  function StepsLeft(pc: Pc): nat {
    match pc
    case Begin => 7
    case EnterChunking => 6
    case ReadInput => 5
    case Prepare(_) => 4
    case EnterEmbedding(_) => 3
    case Embed(_) => 2
    case EnterPublishing(_) => 1
    case _ => 0
  }

  predicate HeadsTo(pc: Pc, input: Input, p: PreparedDocument) {
    match pc
    case Begin => true
    case EnterChunking => true
    case ReadInput => true
    case Prepare(i) => i == input
    case EnterEmbedding(q) => q == p
    case Embed(q) => q == p
    case EnterPublishing(q) => q == p
    case Publish(q) => q == p
    case _ => false
  }

  function OutcomeAt(pc: Pc, p: PreparedDocument): Outcome {
    if pc.Prepare? || pc.Embed? then Produced(p) else Fine
  }

  lemma HeadsOn(f: Preparation, s: Sys, backend: Catalog, job: Job, pc: Pc, p: PreparedDocument)
    requires Heading(s, backend, job, pc) && HeadsTo(pc, job.input, p) && StepsLeft(pc) > 0
    requires p.key == job.input.document && p.contentHash == HashOf(f, job.input)
    ensures Enabled(f, s, Run(job.id, OutcomeAt(pc, p), 0))
    ensures Heading(Execute(s, job.id, OutcomeAt(pc, p), 0), backend, job, NextPc(pc, job.input, p))
  {
    hide Activate, Erase;
  }

  lemma NextOnTheWay(pc: Pc, input: Input, p: PreparedDocument)
    requires HeadsTo(pc, input, p)
    ensures HeadsTo(NextPc(pc, input, p), input, p)
    ensures if pc == Publish(p) then StepsLeft(pc) == 0 else StepsLeft(NextPc(pc, input, p)) < StepsLeft(pc)
  {
  }

  lemma {:induction false} ReachPublish(f: Preparation, events: seq<Event>, backend: Catalog, job: Job, pc: Pc,
                                        p: PreparedDocument) returns (longer: seq<Event>)
    requires Legal(f, Initial, events) && Heading(After(f, Initial, events), backend, job, pc)
    requires HeadsTo(pc, job.input, p) && p.key == job.input.document && p.contentHash == HashOf(f, job.input)
    ensures events <= longer && Legal(f, Initial, longer)
    ensures Heading(After(f, Initial, longer), backend, job, Publish(p))
    decreases StepsLeft(pc)
  {
    hide Legal, After, Heading, Execute, Enabled, HeadsTo, NextPc, StepsLeft;
    NextOnTheWay(pc, job.input, p);
    if StepsLeft(pc) == 0 {
      longer := events;
    } else {
      var e := Run(job.id, OutcomeAt(pc, p), 0);
      HeadsOn(f, After(f, Initial, events), backend, job, pc, p);
      Extend(f, events, e);
      longer := ReachPublish(f, events + [e], backend, job, NextPc(pc, job.input, p), p);
    }
  }

  lemma StraightAdmitted(f: Preparation, s: Sys, id: JobId, input: Input, now: int)
    requires Enabled(f, s, Admit(id, Upsert, input, now))
    ensures var s1 := Apply(f, s, Admit(id, Upsert, input, now));
      Enabled(f, s1, Admitted(false, now)) &&
      Heading(Apply(f, s1, Admitted(false, now)), s.backend, Fresh(s.co, id, Upsert, input, HashOf(f, input), now), Begin)
  {
    hide Answered;
  }

  /** A document that preparation may make of the input. */
  predicate MadeOf(f: Preparation, input: Input, p: PreparedDocument) {
    p.key == input.document && p.contentHash == HashOf(f, input)
  }

  /** Any upsert that may be admitted, whatever document is prepared from it, can be run straight to its activation,
      where it is current and is refused as stale exactly when the backend has outrun the revision it was given. */
  lemma StraightUpsert(f: Preparation, events: seq<Event>, id: JobId, input: Input, now: int, p: PreparedDocument)
    returns (longer: seq<Event>)
    requires Legal(f, Initial, events) && Enabled(f, After(f, Initial, events), Admit(id, Upsert, input, now))
    requires MadeOf(f, input, p)
    ensures events <= longer && Legal(f, Initial, longer)
    ensures var s := After(f, Initial, events); var s' := After(f, Initial, longer);
      s'.mode.Up? && id in s'.exec && s'.exec[id] == Publish(p) && id in s'.co.jobs &&
      Current(s'.co.latestRevision, s'.co.jobs[id]) &&
      (Activate(s'.backend, p, s'.co.jobs[id].revision).Err? <==>
       Outruns(s.backend, input.document, GetOr(s.co.latestRevision, input.document, 0) + 1, HashOf(f, input)))
  {
    hide Legal, After, Apply, Enabled, Heading, Activate, Outruns, Inv, Current;
    var s := After(f, Initial, events);
    var admit := Admit(id, Upsert, input, now);
    StraightAdmitted(f, s, id, input, now);
    Extend(f, events, admit);
    Extend(f, events + [admit], Admitted(false, now));
    var job := Fresh(s.co, id, Upsert, input, HashOf(f, input), now);
    longer := ReachPublish(f, events + [admit] + [Admitted(false, now)], s.backend, job, Begin, p);
    RunsKeep(f, longer);
    HeadingAdmits(f, After(f, Initial, longer), s.backend, job, p);
  }

  lemma HeadingAdmits(f: Preparation, s: Sys, backend: Catalog, job: Job, p: PreparedDocument)
    requires Inv(f, s) && Heading(s, backend, job, Publish(p)) && p.key == job.input.document
    ensures s.mode.Up? && job.id in s.exec && s.exec[job.id] == Publish(p) && job.id in s.co.jobs
    ensures Current(s.co.latestRevision, s.co.jobs[job.id])
    ensures Activate(s.backend, p, s.co.jobs[job.id].revision).Err? <==>
            Outruns(backend, job.input.document, job.revision, p.contentHash)
  {
    hide KnownOk, LogKnown, Final, Durable, Threads, Unfinished, IsLatestIndex, Activate;
  }

  // -------------------------------------------------- revisions start at one

  predicate Counted(c: Catalog) { forall d :: d in c.revisions ==> c.revisions[d] > 0 }

  predicate CountedJobs(jobs: JobMap) { forall id :: id in jobs ==> jobs[id].revision > 0 }

  predicate CountedLog(log: seq<Job>) { forall j :: j in log ==> j.revision > 0 }

  predicate FromOne(s: Sys) {
    CountedLog(s.log) && Counted(s.checkpoint) && Counted(s.backend) && CountedJobs(s.co.jobs) &&
    (s.co.admitting.Some? ==> s.co.admitting.value.revision > 0) &&
    (s.maintenance.Copied? ==> Counted(s.maintenance.copy))
  }

  lemma TransitionFromOne(s: Sys, id: JobId, status: Status, error: Option<Errc>, prepared: Option<PreparedDocument>,
                          applied: Option<bool>, now: int)
    requires FromOne(s)
    ensures FromOne(Transition(s, id, status, error, prepared, applied, now).0)
  {
    hide Counted, CountedLog, CountedJobs, Advanced, Retired;
    if id in s.co.jobs {
      AdvancedSame(s.co.jobs[id], status, error, prepared, applied, now);
      RecordCounted(s.log, s.co.jobs, id, Retired(s.co.jobs[id], now).(error := None));
      RecordCounted(s.log, s.co.jobs, id, Advanced(s.co.jobs[id], status, error, prepared, applied, now));
    }
  }

  lemma RecordCounted(log: seq<Job>, jobs: JobMap, id: JobId, next: Job)
    requires CountedLog(log) && CountedJobs(jobs) && id in jobs && SameJob(jobs[id], next)
    ensures CountedLog(log + [next]) && CountedJobs(jobs[id := next])
  {
  }

  lemma PublishFromOne(s: Sys, id: JobId, p: PreparedDocument, outcome: Outcome)
    requires FromOne(s) && CatalogOk(s.backend)
    ensures FromOne(ExecutePublish(s, id, p, outcome))
  {
    hide Activate;
  }

  lemma EraseFromOne(s: Sys, id: JobId, outcome: Outcome)
    requires FromOne(s) && CatalogOk(s.backend)
    ensures FromOne(ExecuteErase(s, id, outcome))
  {
    hide Erase;
  }

  lemma CutFromOne(f: Preparation, s: Sys, kept: seq<Job>)
    requires Inv(f, s) && FromOne(s) && Enabled(f, s, CheckpointCut(kept))
    ensures FromOne(Apply(f, s, CheckpointCut(kept)))
  {
    hide KnownOk, LogKnown, Durable, Running, CutOf, Final;
    CutFinal(s.log, s.maintenance.position, kept);
  }

  lemma RunFromOne(s: Sys, id: JobId, outcome: Outcome, now: int)
    requires FromOne(s) && CatalogOk(s.backend) && id in s.exec
    ensures FromOne(Execute(s, id, outcome, now))
  {
    hide Transition, ExecutePublish, ExecuteErase, Counted, CountedLog, CountedJobs, CatalogOk;
    match s.exec[id]
    case Publish(p) => PublishFromOne(s, id, p, outcome);
    case EraseBackend => EraseFromOne(s, id, outcome);
    case EnterChunking => TransitionFromOne(s, id, Chunking, None, None, None, now);
    case EnterEmbedding(_) => TransitionFromOne(s, id, Embedding, None, None, None, now);
    case EnterPublishing(p) => TransitionFromOne(s, id, Publishing, None, Some(p), None, now);
    case EnterReady(p) => TransitionFromOne(s, id, Ready, None, Some(p), None, now);
    case EnterErasing => TransitionFromOne(s, id, Publishing, None, None, None, now);
    case EnterErased(a) => TransitionFromOne(s, id, Ready, None, None, Some(a), now);
    case EnterFailed(error) => TransitionFromOne(s, id, Failed, Some(error), None, None, now);
    case _ =>
  }

  lemma ReplayJobFromOne(f: Preparation, base: nat, c: Catalog, j: Job)
    requires Counted(c) && CatalogOk(c) && ReplayJob(f, base, c, j).Ok?
    requires j.revision > 0 && RecordOk(f, j) && j.status == Ready
    ensures Counted(ReplayJob(f, base, c, j).value) && CatalogOk(ReplayJob(f, base, c, j).value)
  {
    hide Activate, Erase, Serves, Sound, ValidDocument;
  }

  lemma {:induction false} ReplayFromOne(f: Preparation, c: Catalog, replay: seq<Job>, compacted: set<nat>)
    requires Counted(c) && CatalogOk(c) && Replay(f, c, replay, compacted).Ok?
    requires forall j :: j in replay ==> j.revision > 0 && RecordOk(f, j) && j.status == Ready
    ensures Counted(Replay(f, c, replay, compacted).value) && CatalogOk(Replay(f, c, replay, compacted).value)
  {
    hide ReplayJob, BaseAt, RecordOk;
    if replay != [] {
      var n := |replay| - 1;
      ReplayFromOne(f, c, replay[..n], compacted);
      assert replay[n] in replay;
      ReplayJobFromOne(f, BaseAt(c, replay[..n], compacted), Replay(f, c, replay[..n], compacted).value, replay[n]);
    }
  }

  lemma RecoverFromOne(f: Preparation, s: Sys, e: Event)
    requires Inv(f, s) && FromOne(s) && e.RecoverLoad? && Enabled(f, s, e)
    ensures FromOne(Apply(f, s, e))
  {
    hide Final, LogKnown, IsLatestIndex, ReplayList, Latest, Counted, Secured, Replay, CatalogOk, RecordOk, OneJobPerSlot;
    ReplayedRecords(f, Latest(s.log), e.replay);
    ReplayedLoaded(Latest(s.log), e.replay);
    ReplayFromOne(f, s.checkpoint, e.replay, e.compacted);
  }

  lemma StepFromOne(f: Preparation, s: Sys, e: Event)
    requires Inv(f, s) && FromOne(s) && Enabled(f, s, e)
    ensures FromOne(Apply(f, s, e))
  {
    hide Inv, Execute, CatalogOk, IsLatestIndex, ReplayList, Latest, Replay, CutOf;
    match e
    case CheckpointCut(kept) => CutFromOne(f, s, kept);
    case Run(id, outcome, now) =>
      BackendOk(f, s);
      RunFromOne(s, id, outcome, now);
    case RecoverLoad(_, _, _, _) => RecoverFromOne(f, s, e);
    case _ =>
  }

  lemma {:induction false} RunsFromOne(f: Preparation, events: seq<Event>)
    requires Legal(f, Initial, events)
    ensures FromOne(After(f, Initial, events))
  {
    if events != [] {
      var n := |events| - 1;
      RunsFromOne(f, events[..n]);
      RunsKeep(f, events[..n]);
      hide Inv, Apply, Enabled, FromOne;
      StepFromOne(f, After(f, Initial, events[..n]), events[n]);
    }
  }

  // ------------------------------------- an uncovered recovery ends in a refusal

  lemma RecoverOneKeeps(f: Preparation, s: Sys, id: JobId)
    requires Inv(f, s) && s.mode.Recovering? && id in s.mode.pending
    ensures Enabled(f, s, RecoverJob(id, 0))
    ensures var s' := Apply(f, s, RecoverJob(id, 0));
      s'.mode == Recovering(s.mode.pending - {id}) && Restored(s, s')
  {
    hide KnownOk, LogKnown, Final, Durable, Threads, IsLatestIndex, Live;
    RecoverJobId(f, s, id);
  }

  /** Everything a new submission is judged by is as it was. */
  predicate Restored(s: Sys, s': Sys) {
    s'.backend == s.backend && s'.co.latestRevision == s.co.latestRevision && s'.co.latestJob == s.co.latestJob &&
    s'.co.jobs.Keys == s.co.jobs.Keys && s'.co.admitting == s.co.admitting &&
    forall id :: id in s.co.jobs ==> s'.co.jobs[id].contentHash == s.co.jobs[id].contentHash
  }

  lemma {:induction false} FinishRecovery(f: Preparation, events: seq<Event>) returns (longer: seq<Event>)
    requires Legal(f, Initial, events) && After(f, Initial, events).mode.Recovering?
    ensures events <= longer && Legal(f, Initial, longer) && After(f, Initial, longer).mode.Up?
    ensures Restored(After(f, Initial, events), After(f, Initial, longer))
    decreases After(f, Initial, events).mode.pending
  {
    hide Legal, After, Inv;
    RunsKeep(f, events);
    var s := After(f, Initial, events);
    if s.mode.pending == {} {
      Extend(f, events, RecoverDone);
      longer := events + [RecoverDone];
    } else {
      hide Apply, Enabled;
      var id :| id in s.mode.pending;
      RecoverOneKeeps(f, s, id);
      Extend(f, events, RecoverJob(id, 0));
      longer := FinishRecovery(f, events + [RecoverJob(id, 0)]);
    }
  }

  /** The input is a submission of a new content for `d`. */
  predicate NewContent(f: Preparation, s: Sys, id: JobId, input: Input) {
    id !in s.co.jobs && input.document != "" &&
    (input.document in s.co.latestJob && s.co.latestJob[input.document] in s.co.jobs ==>
      s.co.jobs[s.co.latestJob[input.document]].contentHash != HashOf(f, input)) &&
    EffectAt(s.backend, input.document) != Put(HashOf(f, input))
  }

  lemma NewContentAdmitted(f: Preparation, s: Sys, s': Sys, id: JobId, input: Input)
    requires Restored(s, s') && s'.mode.Up? && s.co.admitting.None? && NewContent(f, s, id, input)
    ensures Enabled(f, s', Admit(id, Upsert, input, 0))
  {
  }

  lemma AheadSomewhere(c: Catalog, revisions: Revisions) returns (d: DocKey)
    requires !Below(c, revisions) && Counted(c)
    ensures d in c.revisions && GetOr(revisions, d, 0) < c.revisions[d]
  {
    d :| d in c.revisions && (d !in revisions || c.revisions[d] > revisions[d]);
  }

  /** The run ends where the current upsert `id` is about to activate `p` and will be refused. */
  ghost predicate RefusedAt(f: Preparation, events: seq<Event>, id: JobId, p: PreparedDocument) {
    Legal(f, Initial, events) &&
    var s := After(f, Initial, events);
    s.mode.Up? && id in s.exec && s.exec[id] == Publish(p) && id in s.co.jobs &&
    Current(s.co.latestRevision, s.co.jobs[id]) && Activate(s.backend, p, s.co.jobs[id].revision).Err?
  }

  lemma AheadIsRefused(f: Preparation, events: seq<Event>, id: JobId, input: Input, p: PreparedDocument)
    returns (longer: seq<Event>)
    requires Legal(f, Initial, events) && After(f, Initial, events).mode.Recovering?
    requires NewContent(f, After(f, Initial, events), id, input) && MadeOf(f, input, p)
    requires var s := After(f, Initial, events); var d := input.document;
      d in s.backend.revisions && GetOr(s.co.latestRevision, d, 0) < s.backend.revisions[d]
    ensures events <= longer && RefusedAt(f, longer, id, p)
  {
    hide Legal, After, Enabled, Restored, NewContent, KnownOk, LogKnown, Final, Durable, Live, Threads, Unfinished;
    RunsKeep(f, events);
    longer := FinishRecovery(f, events);
    NewContentAdmitted(f, After(f, Initial, events), After(f, Initial, longer), id, input);
    assert Outruns(After(f, Initial, longer).backend, input.document,
                   GetOr(After(f, Initial, longer).co.latestRevision, input.document, 0) + 1, HashOf(f, input)) by {
      NewContentOutrun(f, After(f, Initial, events), After(f, Initial, longer), id, input);
    }
    longer := StraightUpsert(f, longer, id, input, 0, p);
  }

  lemma NewContentOutrun(f: Preparation, s: Sys, s': Sys, id: JobId, input: Input)
    requires Restored(s, s') && NewContent(f, s, id, input) && input.document in s.backend.revisions
    requires GetOr(s.co.latestRevision, input.document, 0) < s.backend.revisions[input.document]
    ensures Outruns(s'.backend, input.document, GetOr(s'.co.latestRevision, input.document, 0) + 1, HashOf(f, input))
  {
  }

  /** A recovery whose log does not cover the checkpoint leaves a document for which every
      submission of new content, whatever document is prepared from it, can be run to a current upsert that is
      refused as stale. */
  lemma UncoveredIsRefused(f: Preparation, events: seq<Event>, load: Event) returns (d: DocKey)
    requires Legal(f, Initial, events) && load.RecoverLoad? && Enabled(f, After(f, Initial, events), load)
    requires !LogCovers(After(f, Initial, events))
    ensures Legal(f, Initial, events + [load])
    ensures forall id, input, p ::
      NewContent(f, After(f, Initial, events + [load]), id, input) && input.document == d && MadeOf(f, input, p) ==>
        exists longer :: events + [load] <= longer && RefusedAt(f, longer, id, p)
  {
    hide Legal, After, Enabled, LogCovers, Below, NewContent, RefusedAt, FromOne, Replay, Latest;
    UncoveredIsAhead(f, events, load);
    Extend(f, events, load);
    RunsFromOne(f, events + [load]);
    var s := After(f, Initial, events + [load]);
    assert s.mode.Recovering?;
    assert Counted(s.backend) by { BackendCounted(s); }
    d := AheadSomewhere(s.backend, s.co.latestRevision);
    forall id, input, p | NewContent(f, s, id, input) && input.document == d && MadeOf(f, input, p)
      ensures exists longer :: events + [load] <= longer && RefusedAt(f, longer, id, p)
    {
      var longer := AheadIsRefused(f, events + [load], id, input, p);
    }
  }

  lemma BackendCounted(s: Sys)
    requires FromOne(s)
    ensures Counted(s.backend)
  {
  }

  // ----------------------------------------------------- a covered run, in full

  lemma {:induction false} CoveredSuffix(f: Preparation, events: seq<Event>, more: seq<Event>)
    requires Legal(f, Initial, events) && CoveredRun(f, events) && Legal(f, Initial, events + more)
    requires forall i :: 0 <= i < |more| ==> !more[i].RecoverLoad?
    ensures CoveredRun(f, events + more)
  {
    hide Enabled, Apply, LogCovers;
    var all := events + more;
    if more == [] {
      assert all == events;
    } else {
      assert all[..|all| - 1] == events + more[..|more| - 1] && all[|all| - 1] == more[|more| - 1];
      CoveredSuffix(f, events, more[..|more| - 1]);
    }
  }

  lemma FirstLoadCovered(f: Preparation, load: Event)
    requires Legal(f, Initial, [load])
    ensures CoveredRun(f, [load])
  {
    hide Enabled, Apply;
    assert [load][..0] == [];
    assert After(f, Initial, []) == Initial;
    assert LogCovers(Initial);
  }

  /** The hypotheses of the theorems on covered runs are met by a run that acknowledges a mutation. */
  lemma CoveredRunExists(f: Preparation) returns (events: seq<Event>)
    ensures Legal(f, Initial, events) && CoveredRun(f, events)
    ensures After(f, Initial, events).acked == {Mutation(D, 1, Gone)} && After(f, Initial, events).mode.Up?
  {
    hide Legal, After, CoveredRun;
    events := EraseOnce(f);
    var load := OpenEvents[0];
    assert events[..1] == [load];
    PrefixLegal(f, events, 1);
    FirstLoadCovered(f, load);
    assert events == [load] + events[1..];
    CoveredSuffix(f, [load], events[1..]);
  }
}
