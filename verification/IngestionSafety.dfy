/** What every step of the ingestion protocol keeps, and what follows over whole runs. */
module IngestionSafety {
  import opened Wrappers
  import opened Documents
  import opened Validation
  import opened Serving
  import opened Jobs
  import opened Ingestion

  type JobMap = map<JobId, Job>
  type Revisions = map<DocKey, nat>

  predicate SameJob(a: Job, b: Job) {
    a.id == b.id && a.input.document == b.input.document && a.revision == b.revision &&
    a.operation == b.operation && a.contentHash == b.contentHash
  }

  predicate SameSlot(a: Job, b: Job) {
    a.input.document == b.input.document && a.revision == b.revision
  }

  /** Every job the system knows of: what recovery would load, or what the coordinator holds. */
  function Known(s: Sys): JobMap {
    if s.mode.Down? then Latest(s.log)
    else if s.co.admitting.Some? then s.co.jobs[s.co.admitting.value.id := s.co.admitting.value]
    else s.co.jobs
  }

  predicate KeyedById(known: JobMap) { forall id :: id in known ==> known[id].id == id }

  /** A document revision belongs to one job. */
  predicate OneJobPerSlot(known: JobMap) {
    forall a, b :: a in known && b in known && SameSlot(known[a], known[b]) ==> a == b
  }

  ghost predicate RecordOk(f: Preparation, j: Job) {
    j.input.document != "" && j.revision != 0 &&
    (j.status == Ready && j.operation == Upsert ==>
      j.prepared.Some? && j.prepared.value.key == j.input.document && j.prepared.value.contentHash == j.contentHash &&
      ValidDocument(f, j.prepared.value, j.revision)) &&
    (!Terminal(j.status) && j.operation == Upsert ==> j.contentHash == HashOf(f, j.input))
  }

  ghost predicate KnownOk(f: Preparation, known: JobMap) {
    KeyedById(known) && OneJobPerSlot(known) && forall id :: id in known ==> RecordOk(f, known[id])
  }

  /** A record belongs to a known job; a terminal one says how that job ended. */
  ghost predicate RecordKnown(f: Preparation, known: JobMap, j: Job) {
    RecordOk(f, j) && j.id in known && SameJob(j, known[j.id]) &&
    (Terminal(j.status) ==> Terminal(known[j.id].status))
  }

  ghost predicate LogKnown(f: Preparation, known: JobMap, log: seq<Job>) {
    forall j :: j in log ==> RecordKnown(f, known, j)
  }

  /** A terminal record is the last record of its job. */
  predicate Final(log: seq<Job>) {
    forall i, j :: 0 <= i < j < |log| && Terminal(log[i].status) ==> log[i].id != log[j].id
  }

  predicate Logged(log: seq<Job>, m: Mutation) {
    exists j :: j in log && j.status == Ready && MutationOf(j) == m
  }

  predicate Secured(c: Catalog, log: seq<Job>, acked: set<Mutation>) {
    forall m :: m in acked ==> Covers(c, m) || Logged(log, m)
  }

  /** No acknowledged mutation depends on the volatile state, whatever the checkpoint has reached. */
  predicate Durable(log: seq<Job>, checkpoint: Catalog, maintenance: Maintenance, acked: set<Mutation>) {
    CatalogOk(checkpoint) &&
    (forall j :: j in log && j.status == Ready ==> MutationOf(j) in acked) &&
    Secured(checkpoint, log, acked) &&
    match maintenance
    case Idle => true
    case Positioned(p) => p <= |log|
    case Copied(p, copy) => p <= |log| && CatalogOk(copy) && Secured(copy, log[p..], acked)
    case Written(p) => p <= |log| && Secured(checkpoint, log[p..], acked)
  }

  predicate Current(revisions: Revisions, j: Job) {
    !Terminal(j.status) && GetOr(revisions, j.input.document, 0) == j.revision
  }

  predicate Applied(backend: Catalog, j: Job) {
    j.input.document in backend.revisions && backend.revisions[j.input.document] == j.revision
    && EffectAt(backend, j.input.document) == EffectOf(j)
  }

  predicate Holds(j: Job, p: PreparedDocument) {
    j.operation == Upsert && p.key == j.input.document && (!Terminal(j.status) ==> p.contentHash == j.contentHash)
  }

  predicate Published(revisions: Revisions, backend: Catalog, j: Job) {
    Current(revisions, j) ==> Applied(backend, j)
  }

  /** What a thread between two lock regions may rely on. */
  ghost predicate ThreadOk(f: Preparation, revisions: Revisions, backend: Catalog, j: Job, pc: Pc) {
    match pc
    case Begin => true
    case EnterChunking => j.operation == Upsert
    case ReadInput => j.operation == Upsert
    case Prepare(input) => j.operation == Upsert && input.document == j.input.document &&
      (!Terminal(j.status) ==> input == j.input)
    case EnterEmbedding(p) => Holds(j, p)
    case Embed(p) => Holds(j, p)
    case EnterPublishing(p) => Holds(j, p)
    case Publish(p) => Holds(j, p)
    case EnterReady(p) => Holds(j, p) && ValidDocument(f, p, j.revision) && Published(revisions, backend, j)
    case EnterErasing => j.operation == Erasure
    case EraseBackend => j.operation == Erasure
    case EnterErased(_) => j.operation == Erasure && Published(revisions, backend, j)
    case EnterFailed(_) => true
  }

  ghost predicate Threads(f: Preparation, jobs: JobMap, revisions: Revisions, backend: Catalog, exec: map<JobId, Pc>) {
    forall id :: id in exec ==> id in jobs && ThreadOk(f, revisions, backend, jobs[id], exec[id])
  }

  /** An unfinished job, unless recovery has still to look at it, is the latest of its document. */
  predicate Unfinished(jobs: JobMap, revisions: Revisions, pending: set<JobId>) {
    (forall id :: id in jobs && !Terminal(jobs[id].status) && id !in pending ==> Current(revisions, jobs[id])) &&
    (forall id :: id in pending ==> id in jobs && !Terminal(jobs[id].status))
  }

  predicate Live(backend: Catalog, acked: set<Mutation>) {
    CatalogOk(backend) && forall m :: m in acked ==> Covers(backend, m)
  }

  function Pending(s: Sys): set<JobId> { if s.mode.Recovering? then s.mode.pending else {} }

  predicate Queued(jobs: JobMap, queue: seq<JobId>) { forall id :: id in queue ==> id in jobs }

  predicate AdmissionOk(co: Coordinator) {
    co.admitting.Some? ==>
      var a := co.admitting.value;
      a.id !in co.jobs && !Terminal(a.status) && a.revision == GetOr(co.latestRevision, a.input.document, 0) + 1
  }

  ghost predicate Running(f: Preparation, s: Sys) {
    Live(s.backend, s.acked) &&
    IsLatestIndex(s.co.jobs, s.co.latestRevision, s.co.latestJob) &&
    Threads(f, s.co.jobs, s.co.latestRevision, s.backend, s.exec) &&
    Queued(s.co.jobs, s.co.queue) &&
    Unfinished(s.co.jobs, s.co.latestRevision, Pending(s)) &&
    AdmissionOk(s.co) && (s.mode.Recovering? ==> s.exec == map[] && s.co.admitting.None?)
  }

  ghost predicate Inv(f: Preparation, s: Sys) {
    KnownOk(f, Known(s)) && LogKnown(f, Known(s), s.log) && Final(s.log) &&
    Durable(s.log, s.checkpoint, s.maintenance, s.acked) &&
    (!s.mode.Down? ==> Running(f, s)) && (s.mode.Down? ==> s.maintenance.Idle? && s.exec == map[])
  }

  lemma InitialInv(f: Preparation)
    ensures Inv(f, Initial)
  {
  }

  // -------------------------------------------------- appending to the log

  /** `next` carries every job of `known` on: same identity, and terminal stays terminal. */
  predicate Carries(known: JobMap, next: JobMap) {
    forall id :: id in known ==>
      id in next && SameJob(known[id], next[id]) && (Terminal(known[id].status) ==> Terminal(next[id].status))
  }

  lemma CarriesLog(f: Preparation, known: JobMap, next: JobMap, log: seq<Job>)
    requires LogKnown(f, known, log) && Carries(known, next)
    ensures LogKnown(f, next, log)
  {
    forall j | j in log
      ensures RecordKnown(f, next, j)
    {
      assert RecordKnown(f, known, j);
    }
  }

  lemma AppendKnown(f: Preparation, known: JobMap, next: JobMap, log: seq<Job>, j: Job)
    requires LogKnown(f, known, log) && Carries(known, next) && RecordKnown(f, next, j)
    ensures LogKnown(f, next, log + [j])
  {
    CarriesLog(f, known, next, log);
  }

  lemma AppendFinal(f: Preparation, known: JobMap, log: seq<Job>, j: Job)
    requires Final(log) && LogKnown(f, known, log)
    requires j.id in known ==> !Terminal(known[j.id].status)
    ensures Final(log + [j])
  {
    var log' := log + [j];
    forall a, b | 0 <= a < b < |log'| && Terminal(log'[a].status)
      ensures log'[a].id != log'[b].id
    {
      assert log'[a] == log[a] && log[a] in log;
      assert RecordKnown(f, known, log[a]);
      if b < |log| { assert log'[b] == log[b]; }
    }
  }

  function AckedBy(acked: set<Mutation>, j: Job): set<Mutation> {
    if j.status == Ready then acked + {MutationOf(j)} else acked
  }

  lemma LoggedWithin(log: seq<Job>, wider: seq<Job>, m: Mutation)
    requires Logged(log, m) && forall j :: j in log && j.status == Ready ==> j in wider
    ensures Logged(wider, m)
  {
    var j :| j in log && j.status == Ready && MutationOf(j) == m;
    assert j in wider;
  }

  lemma SecuredAppend(c: Catalog, log: seq<Job>, acked: set<Mutation>, j: Job)
    requires Secured(c, log, acked)
    ensures Secured(c, log + [j], AckedBy(acked, j))
  {
    forall m | m in AckedBy(acked, j)
      ensures Covers(c, m) || Logged(log + [j], m)
    {
      if m in acked && !Covers(c, m) {
        LoggedWithin(log, log + [j], m);
      } else if m !in acked {
        assert j in log + [j];
      }
    }
  }

  lemma AppendDurable(log: seq<Job>, checkpoint: Catalog, maintenance: Maintenance, acked: set<Mutation>, j: Job)
    requires Durable(log, checkpoint, maintenance, acked)
    ensures Durable(log + [j], checkpoint, maintenance, AckedBy(acked, j))
  {
    SecuredAppend(checkpoint, log, acked, j);
    match maintenance {
      case Idle =>
      case Positioned(p) =>
      case Copied(p, copy) =>
        SecuredAppend(copy, log[p..], acked, j);
        assert (log + [j])[p..] == log[p..] + [j];
      case Written(p) =>
        SecuredAppend(checkpoint, log[p..], acked, j);
        assert (log + [j])[p..] == log[p..] + [j];
    }
  }

  // ------------------------------------------------------ transitions of a job

  lemma AtKeeps(f: Preparation, s: Sys, id: JobId, pc: Pc)
    requires Inv(f, s) && s.mode.Up? && id in s.co.jobs
    requires ThreadOk(f, s.co.latestRevision, s.backend, s.co.jobs[id], pc)
    ensures Inv(f, At(s, id, pc))
  {
    hide KnownOk, LogKnown, Final, Durable, IsLatestIndex, Unfinished, Live;
  }

  lemma LeaveKeeps(f: Preparation, s: Sys, id: JobId)
    requires Inv(f, s) && s.mode.Up?
    ensures Inv(f, Leave(s, id))
  {
    hide KnownOk, LogKnown, Final, Durable, IsLatestIndex, Unfinished, Live;
  }

  /** `next` may replace the unfinished job `j`. */
  predicate Succeeds(j: Job, next: Job) {
    !Terminal(j.status) && SameJob(j, next) && (!Terminal(next.status) ==> next.input == j.input)
  }

  lemma ReplaceKnown(f: Preparation, jobs: JobMap, id: JobId, next: Job)
    requires KnownOk(f, jobs) && id in jobs && Succeeds(jobs[id], next) && RecordOk(f, next)
    ensures KnownOk(f, jobs[id := next]) && Carries(jobs, jobs[id := next]) && next.id == id
  {
  }

  lemma ReplaceThreads(f: Preparation, jobs: JobMap, revisions: Revisions, backend: Catalog, exec: map<JobId, Pc>, id: JobId, next: Job)
    requires Threads(f, jobs, revisions, backend, exec) && id in jobs && Succeeds(jobs[id], next)
    ensures Threads(f, jobs[id := next], revisions, backend, exec)
  {
  }

  lemma ReplaceIndex(jobs: JobMap, revisions: Revisions, latest: map<DocKey, JobId>, id: JobId, next: Job)
    requires IsLatestIndex(jobs, revisions, latest) && id in jobs && SameJob(jobs[id], next)
    ensures IsLatestIndex(jobs[id := next], revisions, latest)
  {
  }

  lemma AckLive(backend: Catalog, acked: set<Mutation>, j: Job)
    requires Live(backend, acked) && (j.status == Ready ==> Applied(backend, j))
    ensures Live(backend, AckedBy(acked, j))
  {
  }

  /** Replacing one unfinished job by its next record, appended to the log, keeps the invariant. */
  lemma RecordKeeps(f: Preparation, s: Sys, id: JobId, next: Job, s': Sys)
    requires Inv(f, s) && s.mode.Up? && s.co.admitting.None? && id in s.co.jobs
    requires Current(s.co.latestRevision, s.co.jobs[id])
    requires Succeeds(s.co.jobs[id], next) && RecordOk(f, next)
    requires next.status == Ready ==> Applied(s.backend, next)
    requires s' == s.(log := s.log + [next], co := s.co.(jobs := s.co.jobs[id := next]), acked := AckedBy(s.acked, next))
    ensures Inv(f, s')
  {
    hide KnownOk, LogKnown, Final, Durable, Threads, IsLatestIndex, Live;
    ReplaceKnown(f, s.co.jobs, id, next);
    AppendKnown(f, s.co.jobs, s'.co.jobs, s.log, next);
    AppendFinal(f, s.co.jobs, s.log, next);
    AppendDurable(s.log, s.checkpoint, s.maintenance, s.acked, next);
    ReplaceThreads(f, s.co.jobs, s.co.latestRevision, s.backend, s.exec, id, next);
    ReplaceIndex(s.co.jobs, s.co.latestRevision, s.co.latestJob, id, next);
    AckLive(s.backend, s.acked, next);
  }

  lemma JobFacts(f: Preparation, s: Sys, id: JobId)
    requires Inv(f, s) && s.mode.Up? && s.co.admitting.None? && id in s.co.jobs
    ensures s.co.jobs[id].id == id && RecordOk(f, s.co.jobs[id])
    ensures !Terminal(s.co.jobs[id].status) ==> Current(s.co.latestRevision, s.co.jobs[id])
  {
    hide LogKnown, Final, Durable, Threads, IsLatestIndex, Live, OneJobPerSlot;
  }

  lemma TransitionKeeps(f: Preparation, s: Sys, id: JobId, status: Status, error: Option<Errc>,
                        prepared: Option<PreparedDocument>, applied: Option<bool>, now: int)
    requires Inv(f, s) && s.mode.Up? && s.co.admitting.None? && id in s.co.jobs
    requires status == Ready ==> Published(s.co.latestRevision, s.backend, s.co.jobs[id])
    requires status == Ready && s.co.jobs[id].operation == Upsert ==>
      prepared.Some? && Holds(s.co.jobs[id], prepared.value) && ValidDocument(f, prepared.value, s.co.jobs[id].revision)
    ensures var r := Transition(s, id, status, error, prepared, applied, now);
      Inv(f, r.0) && r.0.exec == s.exec && r.0.mode.Up? && id in r.0.co.jobs &&
      SameJob(s.co.jobs[id], r.0.co.jobs[id]) && (r.1 ==> !Terminal(s.co.jobs[id].status))
  {
    hide LogKnown, Final, Durable, Threads, IsLatestIndex, Live, KnownOk, Unfinished, ValidDocument;
    if !Terminal(s.co.jobs[id].status) {
      JobFacts(f, s, id);
      var next := Advanced(s.co.jobs[id], status, error, prepared, applied, now);
      RecordKeeps(f, s, id, next, Transition(s, id, status, error, prepared, applied, now).0);
    }
  }

  // --------------------------------------------------- changes of the backend

  ghost predicate Grows(c: Catalog, next: Catalog) {
    CatalogOk(next) && (forall m :: Covers(c, m) ==> Covers(next, m))
  }

  lemma ActivateGrows(c: Catalog, p: PreparedDocument, revision: nat)
    requires CatalogOk(c) && Activate(c, p, revision).Ok?
    ensures Grows(c, Activate(c, p, revision).value)
    ensures Covers(Activate(c, p, revision).value, Mutation(p.key, revision, Put(p.contentHash)))
  {
  }

  lemma EraseGrows(c: Catalog, d: DocKey, revision: nat)
    requires CatalogOk(c) && Erase(c, d, revision).Ok?
    ensures Grows(c, Erase(c, d, revision).value.0)
    ensures Covers(Erase(c, d, revision).value.0, Mutation(d, revision, Gone))
  {
  }

  ghost predicate ChangesOnly(c: Catalog, next: Catalog, d: DocKey) {
    (forall e :: e != d ==> (e in next.revisions <==> e in c.revisions) && EffectAt(next, e) == EffectAt(c, e)) &&
    (forall e :: e != d && e in next.revisions ==> next.revisions[e] == c.revisions[e])
  }

  /** A backend change made for job `id` disturbs no other thread: a current job of the same
      document would be `id` itself, and an overtaken deletion is refused. */
  lemma BackendKeepsThreads(f: Preparation, jobs: JobMap, revisions: Revisions, latest: map<DocKey, JobId>,
                            backend: Catalog, next: Catalog, exec: map<JobId, Pc>, id: JobId)
    requires OneJobPerSlot(jobs) && IsLatestIndex(jobs, revisions, latest) && Threads(f, jobs, revisions, backend, exec)
    requires id in jobs && ChangesOnly(backend, next, jobs[id].input.document)
    requires next == backend || jobs[id].input.document !in backend.revisions
             || backend.revisions[jobs[id].input.document] < jobs[id].revision
    ensures Threads(f, jobs, revisions, next, exec - {id})
  {
    forall k | k in exec - {id}
      ensures k in jobs && ThreadOk(f, revisions, next, jobs[k], exec[k])
    {
      assert ThreadOk(f, revisions, backend, jobs[k], exec[k]);
      assert Current(revisions, jobs[k]) && Applied(backend, jobs[k]) ==> Applied(next, jobs[k]);
    }
  }

  /** Installing a grown backend together with the thread that grew it. */
  lemma BackendKeeps(f: Preparation, s: Sys, id: JobId, next: Catalog, pc: Pc)
    requires Inv(f, s) && s.mode.Up? && id in s.co.jobs
    requires Grows(s.backend, next) && ThreadOk(f, s.co.latestRevision, next, s.co.jobs[id], pc)
    requires Threads(f, s.co.jobs, s.co.latestRevision, next, s.exec - {id})
    ensures Inv(f, At(s.(backend := next), id, pc))
  {
    hide KnownOk, LogKnown, Final, Durable, IsLatestIndex, Unfinished;
    assert Live(next, s.acked);
  }

  lemma ActivateApplies(f: Preparation, jobs: JobMap, revisions: Revisions, latest: map<DocKey, JobId>, backend: Catalog,
                        exec: map<JobId, Pc>, id: JobId, p: PreparedDocument, next: Catalog)
    requires OneJobPerSlot(jobs) && IsLatestIndex(jobs, revisions, latest) && Threads(f, jobs, revisions, backend, exec)
    requires CatalogOk(backend) && id in jobs && Holds(jobs[id], p) && ValidDocument(f, p, jobs[id].revision)
    requires Activate(backend, p, jobs[id].revision) == Ok(next)
    ensures Grows(backend, next) && Threads(f, jobs, revisions, next, exec - {id})
    ensures ThreadOk(f, revisions, next, jobs[id], EnterReady(p))
  {
    hide OneJobPerSlot, IsLatestIndex, Threads, ValidDocument;
    ActivateGrows(backend, p, jobs[id].revision);
    BackendKeepsThreads(f, jobs, revisions, latest, backend, next, exec, id);
  }

  lemma EraseApplies(f: Preparation, jobs: JobMap, revisions: Revisions, latest: map<DocKey, JobId>, backend: Catalog,
                     exec: map<JobId, Pc>, id: JobId, next: (Catalog, bool))
    requires OneJobPerSlot(jobs) && IsLatestIndex(jobs, revisions, latest) && Threads(f, jobs, revisions, backend, exec)
    requires CatalogOk(backend) && id in jobs && jobs[id].operation == Erasure
    requires Erase(backend, jobs[id].input.document, jobs[id].revision) == Ok(next)
    ensures Grows(backend, next.0) && Threads(f, jobs, revisions, next.0, exec - {id})
    ensures ThreadOk(f, revisions, next.0, jobs[id], EnterErased(next.1))
  {
    hide OneJobPerSlot, IsLatestIndex, Threads;
    EraseGrows(backend, jobs[id].input.document, jobs[id].revision);
    BackendKeepsThreads(f, jobs, revisions, latest, backend, next.0, exec, id);
  }

  lemma PublishKeeps(f: Preparation, s: Sys, id: JobId, p: PreparedDocument, outcome: Outcome)
    requires Inv(f, s) && s.mode.Up? && s.co.admitting.None? && id in s.exec && s.exec[id] == Publish(p)
    requires RunEnabled(f, s, id, outcome)
    ensures Inv(f, ExecutePublish(s, id, p, outcome))
  {
    hide LogKnown, Final, Durable, IsLatestIndex, Unfinished, KeyedById, OneJobPerSlot, Activate, ValidDocument, Serves;
    assert ThreadOk(f, s.co.latestRevision, s.backend, s.co.jobs[id], s.exec[id]);
    var job := s.co.jobs[id];
    if Terminal(job.status) || GetOr(s.co.latestRevision, job.input.document, 0) != job.revision {
      LeaveKeeps(f, s, id);
    } else if outcome.Refused? {
      AtKeeps(f, s, id, EnterFailed(outcome.error));
    } else {
      match Activate(s.backend, p, job.revision)
      case Ok(next) =>
        ActivateApplies(f, s.co.jobs, s.co.latestRevision, s.co.latestJob, s.backend, s.exec, id, p, next);
        BackendKeeps(f, s, id, next, EnterReady(p));
      case Err(e) => AtKeeps(f, s, id, EnterFailed(e));
    }
  }

  lemma EraseKeeps(f: Preparation, s: Sys, id: JobId, outcome: Outcome)
    requires Inv(f, s) && s.mode.Up? && s.co.admitting.None? && id in s.exec && s.exec[id] == EraseBackend
    ensures Inv(f, ExecuteErase(s, id, outcome))
  {
    hide LogKnown, Final, Durable, IsLatestIndex, Unfinished, KeyedById, OneJobPerSlot, Erase;
    assert ThreadOk(f, s.co.latestRevision, s.backend, s.co.jobs[id], s.exec[id]);
    var job := s.co.jobs[id];
    if outcome.Refused? {
      AtKeeps(f, s, id, EnterFailed(outcome.error));
    } else {
      match Erase(s.backend, job.input.document, job.revision)
      case Ok(next) =>
        EraseApplies(f, s.co.jobs, s.co.latestRevision, s.co.latestJob, s.backend, s.exec, id, next);
        BackendKeeps(f, s, id, next.0, EnterErased(next.1));
      case Err(e) => AtKeeps(f, s, id, EnterFailed(e));
    }
  }

  lemma EnterKeeps(f: Preparation, s: Sys, id: JobId, status: Status, prepared: Option<PreparedDocument>, pc: Pc, now: int)
    requires Inv(f, s) && s.mode.Up? && s.co.admitting.None? && id in s.exec && status != Ready
    requires forall j: Job :: SameJob(s.co.jobs[id], j) && !Terminal(s.co.jobs[id].status) ==>
      ThreadOk(f, s.co.latestRevision, s.backend, j, pc)
    ensures Inv(f, Goto(Transition(s, id, status, None, prepared, None, now), id, pc))
  {
    hide LogKnown, Final, Durable, IsLatestIndex, Unfinished, KnownOk, Live;
    TransitionKeeps(f, s, id, status, None, prepared, None, now);
    var r := Transition(s, id, status, None, prepared, None, now);
    if r.1 {
      AtKeeps(f, r.0, id, pc);
    } else {
      LeaveKeeps(f, r.0, id);
    }
  }

  lemma FinishKeeps(f: Preparation, s: Sys, id: JobId, status: Status, error: Option<Errc>,
                    prepared: Option<PreparedDocument>, applied: Option<bool>, now: int)
    requires Inv(f, s) && s.mode.Up? && s.co.admitting.None? && id in s.exec
    requires status == Ready ==> Published(s.co.latestRevision, s.backend, s.co.jobs[id])
    requires status == Ready && s.co.jobs[id].operation == Upsert ==>
      prepared.Some? && Holds(s.co.jobs[id], prepared.value) && ValidDocument(f, prepared.value, s.co.jobs[id].revision)
    ensures Inv(f, Leave(Transition(s, id, status, error, prepared, applied, now).0, id))
  {
    hide LogKnown, Final, Durable, IsLatestIndex, Unfinished, KnownOk, Live;
    TransitionKeeps(f, s, id, status, error, prepared, applied, now);
    LeaveKeeps(f, Transition(s, id, status, error, prepared, applied, now).0, id);
  }

  lemma RunKeeps(f: Preparation, s: Sys, id: JobId, outcome: Outcome, now: int)
    requires Inv(f, s) && s.mode.Up? && s.co.admitting.None? && RunEnabled(f, s, id, outcome)
    ensures Inv(f, Execute(s, id, outcome, now))
  {
    hide Inv, Transition, ValidDocument, Publishable;
    RunFacts(f, s, id);
    match s.exec[id]
    case Begin =>
      if Terminal(s.co.jobs[id].status) {
        LeaveKeeps(f, s, id);
      } else {
        AtKeeps(f, s, id, if s.co.jobs[id].operation == Erasure then EnterErasing else EnterChunking);
      }
    case EnterChunking => EnterKeeps(f, s, id, Chunking, None, ReadInput, now);
    case ReadInput => AtKeeps(f, s, id, Prepare(s.co.jobs[id].input));
    case Prepare(input) =>
      AtKeeps(f, s, id, if outcome.Produced? then EnterEmbedding(outcome.document) else EnterFailed(outcome.error));
    case EnterEmbedding(p) => EnterKeeps(f, s, id, Embedding, None, Embed(p), now);
    case Embed(p) =>
      AtKeeps(f, s, id, if outcome.Produced? then EnterPublishing(outcome.document) else EnterFailed(outcome.error));
    case EnterPublishing(p) => EnterKeeps(f, s, id, Publishing, Some(p), Publish(p), now);
    case Publish(p) => PublishKeeps(f, s, id, p, outcome);
    case EnterReady(p) => FinishKeeps(f, s, id, Ready, None, Some(p), None, now);
    case EnterErasing => EnterKeeps(f, s, id, Publishing, None, EraseBackend, now);
    case EraseBackend => EraseKeeps(f, s, id, outcome);
    case EnterErased(applied) => FinishKeeps(f, s, id, Ready, None, None, Some(applied), now);
    case EnterFailed(error) => FinishKeeps(f, s, id, Failed, Some(error), None, None, now);
  }

  lemma RunFacts(f: Preparation, s: Sys, id: JobId)
    requires Inv(f, s) && s.mode.Up? && s.co.admitting.None? && id in s.exec
    ensures id in s.co.jobs && RecordOk(f, s.co.jobs[id])
    ensures ThreadOk(f, s.co.latestRevision, s.backend, s.co.jobs[id], s.exec[id])
  {
  }

  // ---------------------------------------------------------------- admission

  lemma AdmitKeeps(f: Preparation, s: Sys, e: Event)
    requires Inv(f, s) && e.Admit? && Enabled(f, s, e)
    ensures Inv(f, Apply(f, s, e))
  {
    hide LogKnown, Final, Durable, IsLatestIndex, Unfinished, KnownOk, Live, Threads, RecordOk, Answered, Fresh;
    var s' := Apply(f, s, e);
    var job := s'.co.admitting.value;
    FreshOk(f, s, e);
    AdmitKnown(f, s.co.jobs, s.co.latestRevision, s.co.latestJob, job);
    AppendKnown(f, s.co.jobs, Known(s'), s.log, job);
    AppendFinal(f, s.co.jobs, s.log, job);
    AppendDurable(s.log, s.checkpoint, s.maintenance, s.acked, job);
  }

  lemma FreshOk(f: Preparation, s: Sys, e: Event)
    requires e.Admit? && Enabled(f, s, e)
    ensures var job := Apply(f, s, e).co.admitting.value;
      RecordOk(f, job) && job.id == e.id && job.id !in s.co.jobs && !Terminal(job.status) && job.status == Status.Queued &&
      job.revision == GetOr(s.co.latestRevision, job.input.document, 0) + 1
    ensures var job := Apply(f, s, e).co.admitting.value; RecordKnown(f, s.co.jobs[job.id := job], job)
  {
    hide ValidDocument, Answered;
  }

  lemma NewSlot(jobs: JobMap, revisions: Revisions, latest: map<DocKey, JobId>, job: Job)
    requires IsLatestIndex(jobs, revisions, latest) && job.revision == GetOr(revisions, job.input.document, 0) + 1
    ensures forall id :: id in jobs ==> !SameSlot(jobs[id], job) && !SameSlot(job, jobs[id])
  {
  }

  lemma AdmitKnown(f: Preparation, jobs: JobMap, revisions: Revisions, latest: map<DocKey, JobId>, job: Job)
    requires KnownOk(f, jobs) && IsLatestIndex(jobs, revisions, latest) && job.id !in jobs && RecordOk(f, job)
    requires job.revision == GetOr(revisions, job.input.document, 0) + 1
    ensures KnownOk(f, jobs[job.id := job]) && Carries(jobs, jobs[job.id := job])
  {
    hide IsLatestIndex, SameSlot;
    NewSlot(jobs, revisions, latest, job);
  }

  /** The displaced job is the only unfinished one of its document. */
  lemma DisplacedIsAll(co: Coordinator, d: DocKey, id: JobId)
    requires KeyedById(co.jobs) && OneJobPerSlot(co.jobs) && Unfinished(co.jobs, co.latestRevision, {})
    requires IsLatestIndex(co.jobs, co.latestRevision, co.latestJob)
    requires id in co.jobs && !Terminal(co.jobs[id].status) && co.jobs[id].input.document == d
    ensures Displaced(co, d) == Some(co.jobs[id])
  {
  }

  lemma AdmittedUnfinished(co: Coordinator, job: Job, jobs: JobMap, now: int)
    requires KeyedById(co.jobs) && OneJobPerSlot(co.jobs) && Unfinished(co.jobs, co.latestRevision, {})
    requires IsLatestIndex(co.jobs, co.latestRevision, co.latestJob) && job.id !in co.jobs
    requires jobs == WithoutDisplaced(co, job.input.document, now)
    ensures Unfinished(jobs[job.id := job], co.latestRevision[job.input.document := job.revision], {})
  {
    hide IsLatestIndex, OneJobPerSlot;
    var d := job.input.document;
    var jobs' := jobs[job.id := job];
    forall id | id in jobs' && !Terminal(jobs'[id].status)
      ensures Current(co.latestRevision[d := job.revision], jobs'[id])
    {
      if id != job.id {
        assert id in co.jobs;
        if !Terminal(co.jobs[id].status) && co.jobs[id].input.document == d {
          DisplacedIsAll(co, d, id);
        }
      }
    }
  }

  function WithoutDisplaced(co: Coordinator, d: DocKey, now: int): JobMap {
    var older := Displaced(co, d);
    if older.Some? then co.jobs[older.value.id := Retired(older.value, now)] else co.jobs
  }

  lemma AdmittedIndex(jobs: JobMap, revisions: Revisions, latest: map<DocKey, JobId>, job: Job)
    requires IsLatestIndex(jobs, revisions, latest) && job.id !in jobs
    requires job.revision == GetOr(revisions, job.input.document, 0) + 1
    ensures IsLatestIndex(jobs[job.id := job], revisions[job.input.document := job.revision],
                          latest[job.input.document := job.id])
  {
  }

  lemma AdmittedThreads(f: Preparation, jobs: JobMap, revisions: Revisions, backend: Catalog, exec: map<JobId, Pc>, job: Job,
                        latest: map<DocKey, JobId>)
    requires Threads(f, jobs, revisions, backend, exec) && job.id !in jobs && IsLatestIndex(jobs, revisions, latest)
    requires job.revision == GetOr(revisions, job.input.document, 0) + 1
    ensures Threads(f, jobs[job.id := job], revisions[job.input.document := job.revision], backend, exec)
    ensures Threads(f, jobs[job.id := job], revisions[job.input.document := job.revision], backend, exec[job.id := Begin])
  {
    forall id | id in exec
      ensures ThreadOk(f, revisions[job.input.document := job.revision], backend, jobs[id], exec[id])
    {
      assert ThreadOk(f, revisions, backend, jobs[id], exec[id]);
    }
  }

  lemma AdmittedKeeps(f: Preparation, s: Sys, asynchronous: bool, now: int)
    requires Inv(f, s) && s.mode.Up? && s.co.admitting.Some?
    ensures Inv(f, FinishAdmission(s, asynchronous, now))
  {
    hide KnownOk, LogKnown, Final, Durable, Live, Threads, IsLatestIndex, Unfinished, OneJobPerSlot, Displaced, Retired;
    var s' := FinishAdmission(s, asynchronous, now);
    var job := s.co.admitting.value;
    var jobs := WithoutDisplaced(s.co, job.input.document, now);
    KnownWithout(f, s.co.jobs, job);
    RetiredKeeps(f, s, now);
    AdmittedThreads(f, jobs, s.co.latestRevision, s.backend, s.exec, job, s.co.latestJob);
    AdmittedIndex(jobs, s.co.latestRevision, s.co.latestJob, job);
    AdmittedUnfinished(s.co, job, jobs, now);
  }

  /** Superseding the older job, if it is unfinished. */
  lemma RetiredKeeps(f: Preparation, s: Sys, now: int)
    requires Inv(f, s) && s.mode.Up? && s.co.admitting.Some?
    ensures var job, s' := s.co.admitting.value, FinishAdmission(s, false, now);
      var jobs := WithoutDisplaced(s.co, job.input.document, now);
      job.id !in jobs && KnownOk(f, jobs[job.id := job]) && LogKnown(f, jobs[job.id := job], s'.log) && Final(s'.log) &&
      Durable(s'.log, s.checkpoint, s.maintenance, s.acked) &&
      Threads(f, jobs, s.co.latestRevision, s.backend, s.exec) &&
      IsLatestIndex(jobs, s.co.latestRevision, s.co.latestJob) && (forall id :: id in s.co.queue ==> id in jobs)
  {
    hide LogKnown, Final, Durable, Live, Threads, IsLatestIndex, Unfinished, OneJobPerSlot, RecordOk;
    var job := s.co.admitting.value;
    var older := Displaced(s.co, job.input.document);
    KnownWithout(f, s.co.jobs, job);
    if older.Some? {
      var id, retired := older.value.id, Retired(older.value, now);
      assert id in s.co.jobs && s.co.jobs[id] == older.value;
      RetiredOk(f, older.value, now);
      ReplaceThreads(f, s.co.jobs, s.co.latestRevision, s.backend, s.exec, id, retired);
      ReplaceIndex(s.co.jobs, s.co.latestRevision, s.co.latestJob, id, retired);
      ReplaceKnown(f, Known(s), id, retired);
      assert s.co.jobs[id := retired][job.id := job] == Known(s)[id := retired];
      AppendKnown(f, Known(s), Known(s)[id := retired], s.log, retired);
      AppendFinal(f, Known(s), s.log, retired);
      AppendDurable(s.log, s.checkpoint, s.maintenance, s.acked, retired);
    }
  }

  lemma RetiredOk(f: Preparation, j: Job, now: int)
    requires RecordOk(f, j)
    ensures RecordOk(f, Retired(j, now))
  {
  }

  lemma KnownWithout(f: Preparation, jobs: JobMap, job: Job)
    requires KnownOk(f, jobs[job.id := job]) && job.id !in jobs
    ensures KnownOk(f, jobs)
  {
    var known := jobs[job.id := job];
    forall id | id in jobs
      ensures jobs[id].id == id && RecordOk(f, jobs[id])
    {
      assert id in known && known[id] == jobs[id];
    }
    forall a, b | a in jobs && b in jobs && SameSlot(jobs[a], jobs[b])
      ensures a == b
    {
      assert known[a] == jobs[a] && known[b] == jobs[b];
    }
  }

  // --------------------------------------------------------------- checkpoint

  lemma CopyKeeps(f: Preparation, s: Sys)
    requires Inv(f, s) && s.mode.Up? && s.maintenance.Positioned?
    ensures Inv(f, s.(maintenance := Copied(s.maintenance.position, s.backend)))
  {
    hide KnownOk, LogKnown, Final, IsLatestIndex, Unfinished, Threads;
  }

  lemma WriteKeeps(f: Preparation, s: Sys)
    requires Inv(f, s) && s.mode.Up? && s.maintenance.Copied?
    ensures Inv(f, s.(checkpoint := s.maintenance.copy, maintenance := Written(s.maintenance.position)))
  {
    hide KnownOk, LogKnown, Final, IsLatestIndex, Unfinished, Threads, Live;
    var m := s.maintenance;
    assert Secured(m.copy, s.log, s.acked) by {
      SecuredWithin(m.copy, s.log[m.position..], s.log, s.acked);
    }
  }

  lemma SecuredWithin(c: Catalog, log: seq<Job>, wider: seq<Job>, acked: set<Mutation>)
    requires Secured(c, log, acked) && forall j :: j in log ==> j in wider
    ensures Secured(c, wider, acked)
  {
    forall m | m in acked && !Covers(c, m)
      ensures Logged(wider, m)
    {
      LoggedWithin(log, wider, m);
    }
  }

  lemma CutFinal(log: seq<Job>, position: nat, kept: seq<Job>)
    requires Final(log) && position <= |log| && CutOf(log[..position], kept)
    ensures Final(kept + log[position..])
    ensures forall j :: j in kept + log[position..] ==> j in log
  {
    var cut := kept + log[position..];
    forall a | 0 <= a < |kept|
      ensures kept[a] in log[..position]
    {
    }
    forall a, b | 0 <= a < b < |cut| && Terminal(cut[a].status)
      ensures cut[a].id != cut[b].id
    {
      if a < |kept| <= b {
        assert kept[a] in log[..position];
        var i :| 0 <= i < position && log[i] == kept[a];
        assert cut[b] == log[position + (b - |kept|)];
      } else if |kept| <= a {
        assert cut[a] == log[position + (a - |kept|)] && cut[b] == log[position + (b - |kept|)];
      }
    }
  }

  lemma CutKeeps(f: Preparation, s: Sys, kept: seq<Job>)
    requires Inv(f, s) && s.mode.Up? && s.maintenance.Written? && s.maintenance.position <= |s.log|
    requires CutOf(s.log[..s.maintenance.position], kept)
    ensures Inv(f, s.(log := kept + s.log[s.maintenance.position..], maintenance := Idle))
  {
    hide KnownOk, IsLatestIndex, Unfinished, Threads, Live, Final, CutOf;
    var p := s.maintenance.position;
    CutFinal(s.log, p, kept);
    SecuredWithin(s.checkpoint, s.log[p..], kept + s.log[p..], s.acked);
  }

  // ----------------------------------------------------------------- recovery

  lemma LatestOfTerminal(log: seq<Job>, j: Job)
    requires Final(log) && j in log && Terminal(j.status)
    ensures Latest(log)[j.id] == j
  {
    var i :| 0 <= i < |log| && log[i] == j;
    LatestIsLast(log, i);
  }

  lemma CrashKnown(f: Preparation, known: JobMap, log: seq<Job>)
    requires KnownOk(f, known) && LogKnown(f, known, log) && Final(log)
    ensures KnownOk(f, Latest(log)) && LogKnown(f, Latest(log), log)
  {
    var latest := Latest(log);
    forall id | id in latest
      ensures RecordKnown(f, known, latest[id])
    {
      assert latest[id] in log;
    }
    forall j | j in log
      ensures RecordKnown(f, latest, j)
    {
      assert RecordKnown(f, known, j) && RecordKnown(f, known, latest[j.id]);
      if Terminal(j.status) {
        LatestOfTerminal(log, j);
      }
    }
  }

  lemma CrashKeeps(f: Preparation, s: Sys)
    requires Inv(f, s)
    ensures Inv(f, Crashed(s))
  {
    hide KnownOk, LogKnown, Final, Threads, IsLatestIndex, Unfinished, Live;
    CrashKnown(f, Known(s), s.log);
  }

  lemma ReplayJobCovers(f: Preparation, base: nat, c: Catalog, j: Job)
    requires CatalogOk(c) && RecordOk(f, j) && j.status == Ready && ReplayJob(f, base, c, j).Ok?
    ensures Grows(c, ReplayJob(f, base, c, j).value) && Covers(ReplayJob(f, base, c, j).value, MutationOf(j))
  {
    hide Activate, Erase, CatalogOk, Grows, Serves, Sound, ValidDocument;
    if j.operation == Erasure {
      EraseGrows(c, j.input.document, j.revision);
    } else {
      ActivateGrows(c, j.prepared.value, j.revision);
    }
  }

  /** A successful replay forgets nothing of the checkpoint and puts every replayed mutation in place. */
  lemma {:induction false} ReplayCovers(f: Preparation, c: Catalog, replay: seq<Job>, compacted: set<nat>)
    requires CatalogOk(c) && Replay(f, c, replay, compacted).Ok?
    requires forall j :: j in replay ==> RecordOk(f, j) && j.status == Ready
    ensures Grows(c, Replay(f, c, replay, compacted).value)
    ensures forall j :: j in replay ==> Covers(Replay(f, c, replay, compacted).value, MutationOf(j))
  {
    hide ReplayJob, CatalogOk, RecordOk, BaseAt;
    if replay != [] {
      var n := |replay| - 1;
      var mid := Replay(f, c, replay[..n], compacted).value;
      ReplayCovers(f, c, replay[..n], compacted);
      ReplayJobCovers(f, BaseAt(c, replay[..n], compacted), mid, replay[n]);
      forall j | j in replay
        ensures Covers(Replay(f, c, replay, compacted).value, MutationOf(j))
      {
        assert j in replay[..n] || j == replay[n];
      }
    }
  }

  lemma LoggedIsLoaded(log: seq<Job>, m: Mutation) returns (j: Job)
    requires Final(log) && Logged(log, m)
    ensures j.id in Latest(log) && Latest(log)[j.id] == j && IsReady(j) && MutationOf(j) == m
  {
    j :| j in log && j.status == Ready && MutationOf(j) == m;
    hide Final, Latest;
    LatestOfTerminal(log, j);
  }

  /** A loaded ready job is the replayed one of its document, or older than it. */
  lemma LoadedIsReplayed(jobs: JobMap, j: Job, replay: seq<Job>) returns (r: Job)
    requires OneJobPerSlot(jobs) && j.id in jobs && jobs[j.id] == j && IsReady(j) && ReplayList(jobs, replay)
    ensures r in replay && r.input.document == j.input.document && (r.revision > j.revision || r == j)
  {
    hide OneJobPerSlot;
    r := ListedFor(jobs, j.id, replay);
    var id :| id in jobs && jobs[id] == r;
    SlotIsOne(jobs, id, j.id);
  }

  lemma ListedFor(jobs: JobMap, id: JobId, replay: seq<Job>) returns (r: Job)
    requires id in jobs && IsReady(jobs[id]) && ReplayList(jobs, replay)
    ensures r in replay && r.input.document == jobs[id].input.document && Replayed(jobs, r)
  {
    hide Sooner, Replayed;
    var i :| 0 <= i < |replay| && replay[i].input.document == jobs[id].input.document;
    r := replay[i];
  }

  lemma SlotIsOne(jobs: JobMap, a: JobId, b: JobId)
    requires OneJobPerSlot(jobs) && a in jobs && b in jobs
    ensures SameSlot(jobs[a], jobs[b]) ==> a == b
  {
  }

  lemma ReplayedRecords(f: Preparation, jobs: JobMap, replay: seq<Job>)
    requires KnownOk(f, jobs) && ReplayList(jobs, replay)
    ensures forall j :: j in replay ==> RecordOk(f, j) && j.status == Ready
  {
    forall j | j in replay
      ensures RecordOk(f, j) && j.status == Ready
    {
      assert Replayed(jobs, j);
    }
  }

  /** Every acknowledged mutation survives a recovery that succeeds. */
  lemma RecoveredLive(f: Preparation, log: seq<Job>, checkpoint: Catalog, acked: set<Mutation>,
                      replay: seq<Job>, compacted: set<nat>)
    requires KnownOk(f, Latest(log)) && Final(log) && CatalogOk(checkpoint) && Secured(checkpoint, log, acked)
    requires ReplayList(Latest(log), replay) && Replay(f, checkpoint, replay, compacted).Ok?
    ensures Live(Replay(f, checkpoint, replay, compacted).value, acked)
  {
    hide Replay, Final, CatalogOk, ReplayList, Latest, OneJobPerSlot, KeyedById, Logged;
    ReplayedRecords(f, Latest(log), replay);
    ReplayCovers(f, checkpoint, replay, compacted);
    forall m | m in acked
      ensures Covers(Replay(f, checkpoint, replay, compacted).value, m)
    {
      if !Covers(checkpoint, m) {
        var j := LoggedIsLoaded(log, m);
        var r := LoadedIsReplayed(Latest(log), j, replay);
        assert Covers(Replay(f, checkpoint, replay, compacted).value, MutationOf(r));
      }
    }
  }

  lemma RecoverLoadKeeps(f: Preparation, s: Sys, e: Event)
    requires Inv(f, s) && e.RecoverLoad? && Enabled(f, s, e)
    ensures Inv(f, Apply(f, s, e))
  {
    hide KnownOk, LogKnown, Final, IsLatestIndex, Live, Replay, ReplayList, Latest, CatalogOk, Secured;
    RecoveredLive(f, s.log, s.checkpoint, s.acked, e.replay, e.compacted);
  }

  lemma RecoverJobKeeps(f: Preparation, s: Sys, id: JobId, now: int)
    requires Inv(f, s) && s.mode.Recovering? && id in s.mode.pending && id in s.co.jobs
    ensures Inv(f, RecoverOne(s, id, now))
  {
    hide ValidDocument, KnownOk, LogKnown, Final, Durable, IsLatestIndex, Live;
    RecoverFacts(f, s, id);
    var s' := RecoverOne(s, id, now);
    var next := s'.co.jobs[id];
    ReplaceKnown(f, s.co.jobs, id, next);
    AppendKnown(f, s.co.jobs, s'.co.jobs, s.log, next);
    AppendFinal(f, s.co.jobs, s.log, next);
    AppendDurable(s.log, s.checkpoint, s.maintenance, s.acked, next);
    ReplaceIndex(s.co.jobs, s.co.latestRevision, s.co.latestJob, id, next);
  }

  lemma RecoverFacts(f: Preparation, s: Sys, id: JobId)
    requires Inv(f, s) && s.mode.Recovering? && id in s.co.jobs
    ensures RecordOk(f, s.co.jobs[id])
  {
  }

  lemma RecoverDoneKeeps(f: Preparation, s: Sys)
    requires Inv(f, s) && Enabled(f, s, RecoverDone)
    ensures Inv(f, Apply(f, s, RecoverDone))
  {
    hide KnownOk, LogKnown, Final, Durable, IsLatestIndex, Live;
  }

  lemma DequeueKeeps(f: Preparation, s: Sys)
    requires Inv(f, s) && Enabled(f, s, Dequeue)
    ensures Inv(f, Apply(f, s, Dequeue))
  {
    hide KnownOk, LogKnown, Final, Durable, IsLatestIndex, Live, Unfinished;
  }

  // -------------------------------------------------------------------- runs

  /** Every step of the protocol, a crash included, keeps the invariant. */
  lemma StepKeeps(f: Preparation, s: Sys, e: Event)
    requires Inv(f, s) && Enabled(f, s, e)
    ensures Inv(f, Apply(f, s, e))
  {
    match e
    case Admit(_, _, _, _) => AdmitKeeps(f, s, e);
    case Admitted(asynchronous, now) => AdmittedKeeps(f, s, asynchronous, now);
    case Dequeue => DequeueKeeps(f, s);
    case Run(id, outcome, now) => RunKeeps(f, s, id, outcome, now);
    case CheckpointPosition => MaintenanceKeeps(f, s, Positioned(|s.log|));
    case CheckpointCopy => CopyKeeps(f, s);
    case CheckpointWrite => WriteKeeps(f, s);
    case CheckpointCut(kept) => CutKeeps(f, s, kept);
    case CheckpointAbort => MaintenanceKeeps(f, s, Idle);
    case Crash => CrashKeeps(f, s);
    case RecoverLoad(_, _, _, _) => RecoverLoadKeeps(f, s, e);
    case RecoverJob(id, now) => RecoverJobKeeps(f, s, id, now);
    case RecoverDone => RecoverDoneKeeps(f, s);
    case Compacted => CompactKeeps(f, s);
  }

  lemma CompactKeeps(f: Preparation, s: Sys)
    requires Inv(f, s) && !s.mode.Down?
    ensures Inv(f, s.(base := DimensionIn(s.backend.documents)))
  {
    hide KnownOk, LogKnown, Final, Durable, IsLatestIndex, Live, Unfinished, Threads;
  }

  lemma MaintenanceKeeps(f: Preparation, s: Sys, m: Maintenance)
    requires Inv(f, s) && s.mode.Up? && (m == Idle || m == Positioned(|s.log|))
    ensures Inv(f, s.(maintenance := m))
  {
    hide KnownOk, LogKnown, Final, IsLatestIndex, Live, Unfinished, Threads;
  }

  lemma {:induction false} RunsKeep(f: Preparation, events: seq<Event>)
    requires Legal(f, Initial, events)
    ensures Inv(f, After(f, Initial, events))
  {
    if events == [] {
      InitialInv(f);
    } else {
      RunsKeep(f, events[..|events| - 1]);
      hide Inv, Apply, Enabled;
      StepKeeps(f, After(f, Initial, events[..|events| - 1]), events[|events| - 1]);
    }
  }
}
