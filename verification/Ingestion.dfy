/** The durable ingestion protocol as atomic steps.

    One step is one region executed under the coordinator mutex, one record appended to the
    job log, or one effect of the checkpoint sequence. The process may crash between any two
    steps. Only the job log and the checkpoint survive a crash; everything else is rebuilt by
    recovery. `acked` is a history variable: every mutation whose ready record was written. */
module Ingestion {
  import opened Wrappers
  import opened Documents
  import opened KeyOrder
  import opened Validation
  import opened Serving
  import opened Jobs

  /** Where the execution of one job stands between two lock regions. */
  datatype Pc =
    | Begin
    | EnterChunking
    | ReadInput
    | Prepare(input: Input)
    | EnterEmbedding(prepared: PreparedDocument)
    | Embed(prepared: PreparedDocument)
    | EnterPublishing(prepared: PreparedDocument)
    | Publish(prepared: PreparedDocument)
    | EnterReady(prepared: PreparedDocument)
    | EnterErasing
    | EraseBackend
    | EnterErased(applied: bool)
    | EnterFailed(error: Errc)

  datatype Mode = Down | Recovering(pending: set<JobId>) | Up

  /** A checkpoint in progress: position read, catalog copied, file replaced. */
  datatype Maintenance =
    | Idle
    | Positioned(position: nat)
    | Copied(position: nat, copy: Catalog)
    | Written(position: nat)

  datatype Coordinator = Coordinator(
    jobs: map<JobId, Job>, latestRevision: map<DocKey, nat>, latestJob: map<DocKey, JobId>, queue: seq<JobId>,
    admitting: Option<Job>)

  /** `base` is the dimension of the base index of the active generation. */
  datatype Sys = Sys(
    log: seq<Job>, checkpoint: Catalog,
    mode: Mode, co: Coordinator, backend: Catalog, base: nat, exec: map<JobId, Pc>, maintenance: Maintenance,
    acked: set<Mutation>)

  const NoCoordinator := Coordinator(map[], map[], map[], [], None)
  const Initial := Sys([], EmptyCatalog, Down, NoCoordinator, EmptyCatalog, 0, map[], Idle, {})

  datatype Event =
    | Admit(id: JobId, operation: Operation, input: Input, now: int)
    | Admitted(asynchronous: bool, now: int)
    | Dequeue
    | Run(id: JobId, outcome: Outcome, now: int)
    | CheckpointPosition
    | CheckpointCopy
    | CheckpointWrite
    | CheckpointCut(kept: seq<Job>)
    | CheckpointAbort
    | Crash
    | RecoverLoad(replay: seq<Job>, compacted: set<nat>, revisions: map<DocKey, nat>, latest: map<DocKey, JobId>)
    | RecoverJob(id: JobId, now: int)
    | RecoverDone
    | Compacted

  /** What the code outside the mutex reports: a prepared document, or an error. */
  datatype Outcome = Fine | Produced(document: PreparedDocument) | Refused(error: Errc)

  // ---------------------------------------------------------------- admission

  function Fresh(co: Coordinator, id: JobId, operation: Operation, input: Input, hash: string, now: int): Job {
    Job(id, operation, input, GetOr(co.latestRevision, input.document, 0) + 1, hash, Queued, now, now, None, None, None)
  }

  /** A submission that the latest job of the document already answers. */
  predicate Answered(co: Coordinator, input: Input, hash: string) {
    input.document in co.latestJob && co.latestJob[input.document] in co.jobs &&
    var latest := co.jobs[co.latestJob[input.document]];
    latest.contentHash == hash && (latest.status == Ready || !Terminal(latest.status))
  }

  function Retired(j: Job, now: int): Job {
    j.(status := Superseded, updatedAt := now, input := j.input.(content := ""), prepared := None)
  }

  /** The older job of the document that the admitted one displaces. */
  function Displaced(co: Coordinator, d: DocKey): Option<Job> {
    if d in co.latestJob && co.latestJob[d] in co.jobs && !Terminal(co.jobs[co.latestJob[d]].status)
    then Some(co.jobs[co.latestJob[d]])
    else None
  }

  function FinishAdmission(s: Sys, asynchronous: bool, now: int): Sys
    requires s.co.admitting.Some?
  {
    var job := s.co.admitting.value;
    var d := job.input.document;
    var older := Displaced(s.co, d);
    var jobs := if older.Some? then s.co.jobs[older.value.id := Retired(older.value, now)] else s.co.jobs;
    s.(
    log := if older.Some? then s.log + [Retired(older.value, now)] else s.log,
    co := Coordinator(jobs[job.id := job], s.co.latestRevision[d := job.revision], s.co.latestJob[d := job.id],
                      if asynchronous then s.co.queue + [job.id] else s.co.queue, None),
    exec := if asynchronous then s.exec else s.exec[job.id := Begin])
  }

  // --------------------------------------------------------------- execution

  /** `transition`: false when the job is already terminal or has been overtaken. */
  function Transition(s: Sys, id: JobId, status: Status, error: Option<Errc>, prepared: Option<PreparedDocument>,
                      applied: Option<bool>, now: int): (Sys, bool)
  {
    if id !in s.co.jobs || Terminal(s.co.jobs[id].status) then (s, false)
    else
      var job := s.co.jobs[id];
      if GetOr(s.co.latestRevision, job.input.document, 0) != job.revision then
        var next := Retired(job, now).(error := None);
        (s.(log := s.log + [next], co := s.co.(jobs := s.co.jobs[id := next])), false)
      else
        var next := Advanced(job, status, error, prepared, applied, now);
        (s.(log := s.log + [next], co := s.co.(jobs := s.co.jobs[id := next]),
            acked := if status == Ready then s.acked + {MutationOf(next)} else s.acked), true)
  }

  function Advanced(job: Job, status: Status, error: Option<Errc>, prepared: Option<PreparedDocument>,
                    applied: Option<bool>, now: int): Job
  {
    var next := job.(status := status, updatedAt := now, error := error,
                     prepared := if prepared.Some? then prepared else job.prepared,
                     mutationApplied := if applied.Some? then applied else job.mutationApplied);
    if !Terminal(status) then next
    else next.(input := next.input.(content := ""), prepared := if status == Ready then next.prepared else None)
  }

  function Goto(r: (Sys, bool), id: JobId, pc: Pc): Sys {
    if r.1 then r.0.(exec := r.0.exec[id := pc]) else r.0.(exec := r.0.exec - {id})
  }

  function Leave(s: Sys, id: JobId): Sys { s.(exec := s.exec - {id}) }

  function At(s: Sys, id: JobId, pc: Pc): Sys { s.(exec := s.exec[id := pc]) }

  /** The content hash under which a submission is known. */
  function HashOf(prep: Preparation, input: Input): string { prep.contentHash(input.title, input.content, input.metadata) }

  /** What the preparation step may report for the input it was given. */
  predicate Prepares(prep: Preparation, input: Input, outcome: Outcome) {
    outcome.Refused? ||
    (outcome.Produced? && outcome.document.key == input.document && outcome.document.contentHash == HashOf(prep, input))
  }

  /** Embedding fills vectors in and changes neither identity nor content. */
  predicate Embeds(p: PreparedDocument, outcome: Outcome) {
    outcome.Refused? ||
    (outcome.Produced? && outcome.document.key == p.key && outcome.document.contentHash == p.contentHash)
  }

  /** Another job of the document is the latest, or this one is over. */
  predicate PassedOver(s: Sys, id: JobId) {
    id !in s.co.jobs || Terminal(s.co.jobs[id].status) ||
    GetOr(s.co.latestRevision, s.co.jobs[id].input.document, 0) != s.co.jobs[id].revision
  }

  /** The backend validates the document, and builds the catalog with it unless the revision is stale. */
  ghost predicate Publishable(prep: Preparation, s: Sys, id: JobId, p: PreparedDocument) {
    PassedOver(s, id) ||
    (ValidDocument(prep, p, s.co.jobs[id].revision) &&
     match Activate(s.backend, p, s.co.jobs[id].revision)
     case Ok(next) => next == s.backend || Serves(s.base, next.documents)
     case Err(_) => true)
  }

  ghost predicate RunEnabled(prep: Preparation, s: Sys, id: JobId, outcome: Outcome) {
    id in s.exec &&
    match s.exec[id]
    case Prepare(input) => Prepares(prep, input, outcome)
    case Embed(p) => Embeds(p, outcome)
    case Publish(p) => (outcome.Fine? && Publishable(prep, s, id, p)) || outcome.Refused?
    case EraseBackend => outcome.Fine? || outcome.Refused?
    case _ => outcome.Fine?
  }

  /** One lock region (or one preparation step) of `execute`. A `Refused` publication models
      a backend error other than a stale revision, such as a document that is not valid or a catalog that
      cannot be built; the backend is then unchanged. */
  function Execute(s: Sys, id: JobId, outcome: Outcome, now: int): Sys
    requires id in s.exec
  {
    match s.exec[id]
    case Begin =>
      if id !in s.co.jobs || Terminal(s.co.jobs[id].status) then Leave(s, id)
      else At(s, id, if s.co.jobs[id].operation == Erasure then EnterErasing else EnterChunking)
    case EnterChunking => Goto(Transition(s, id, Chunking, None, None, None, now), id, ReadInput)
    case ReadInput => if id in s.co.jobs then At(s, id, Prepare(s.co.jobs[id].input)) else Leave(s, id)
    case Prepare(_) =>
      At(s, id, if outcome.Produced? then EnterEmbedding(outcome.document)
                else EnterFailed(if outcome.Refused? then outcome.error else InvalidArgument))
    case EnterEmbedding(p) => Goto(Transition(s, id, Embedding, None, None, None, now), id, Embed(p))
    case Embed(_) =>
      At(s, id, if outcome.Produced? then EnterPublishing(outcome.document)
                else EnterFailed(if outcome.Refused? then outcome.error else InvalidArgument))
    case EnterPublishing(p) => Goto(Transition(s, id, Publishing, None, Some(p), None, now), id, Publish(p))
    case Publish(p) => ExecutePublish(s, id, p, outcome)
    case EnterReady(p) => Leave(Transition(s, id, Ready, None, Some(p), None, now).0, id)
    case EnterErasing => Goto(Transition(s, id, Publishing, None, None, None, now), id, EraseBackend)
    case EraseBackend => ExecuteErase(s, id, outcome)
    case EnterErased(applied) => Leave(Transition(s, id, Ready, None, None, Some(applied), now).0, id)
    case EnterFailed(error) => Leave(Transition(s, id, Failed, Some(error), None, None, now).0, id)
  }

  function ExecutePublish(s: Sys, id: JobId, p: PreparedDocument, outcome: Outcome): Sys {
    if PassedOver(s, id) then Leave(s, id)
    else if outcome.Refused? then At(s, id, EnterFailed(outcome.error))
    else
      match Activate(s.backend, p, s.co.jobs[id].revision)
      case Ok(next) => At(s.(backend := next), id, EnterReady(p))
      case Err(e) => At(s, id, EnterFailed(e))
  }

  /** Deletion does not look at the latest revision again before touching the backend. */
  function ExecuteErase(s: Sys, id: JobId, outcome: Outcome): Sys {
    if id !in s.co.jobs then Leave(s, id)
    else if outcome.Refused? then At(s, id, EnterFailed(outcome.error))
    else
      match Erase(s.backend, s.co.jobs[id].input.document, s.co.jobs[id].revision)
      case Ok(next) => At(s.(backend := next.0), id, EnterErased(next.1))
      case Err(e) => At(s, id, EnterFailed(e))
  }

  // -------------------------------------------------------------- checkpoint

  /** What a cut may leave of a log prefix: the last record of every job that is not terminal,
      and of some of the terminal ones, each at most once. */
  predicate CutOf(prefix: seq<Job>, kept: seq<Job>) {
    var latest := Latest(prefix);
    (forall i :: 0 <= i < |kept| ==> kept[i].id in latest && latest[kept[i].id] == kept[i]) &&
    (forall i, j :: 0 <= i < j < |kept| ==> kept[i].id != kept[j].id) &&
    (forall id :: id in latest && !Terminal(latest[id].status) ==> latest[id] in kept)
  }

  // ---------------------------------------------------------------- recovery

  predicate IsReady(j: Job) { j.status == Ready }

  /** The ready job of a document that recovery replays: the one with the highest revision. */
  predicate Replayed(jobs: map<JobId, Job>, j: Job) {
    j in jobs.Values && IsReady(j) &&
    forall id :: id in jobs && IsReady(jobs[id]) && jobs[id].input.document == j.input.document ==>
      jobs[id].revision <= j.revision
  }

  /** Replayed jobs go by revision, then by id. */
  predicate Sooner(a: Job, b: Job) { a.revision < b.revision || (a.revision == b.revision && KeyLess(a.id, b.id)) }

  /** One replayed job per document, in the order of replay. */
  predicate ReplayList(jobs: map<JobId, Job>, replay: seq<Job>) {
    (forall i :: 0 <= i < |replay| ==> Replayed(jobs, replay[i])) &&
    (forall i, j :: 0 <= i < j < |replay| ==>
      replay[i].input.document != replay[j].input.document && Sooner(replay[i], replay[j])) &&
    (forall id :: id in jobs && IsReady(jobs[id]) ==>
      exists i :: 0 <= i < |replay| && replay[i].input.document == jobs[id].input.document)
  }

  /** What a replayed job makes of the catalog by revision alone. */
  function ArbitrateJob(c: Catalog, j: Job): Result<Catalog> {
    if j.operation == Erasure then
      match Erase(c, j.input.document, j.revision)
      case Ok(r) => Ok(r.0)
      case Err(e) => Err(e)
    else if j.prepared.None? then Err(CorruptIndex)
    else Activate(c, j.prepared.value, j.revision)
  }

  /** What the backend asks of a replayed job before it looks at revisions. */
  ghost predicate Sound(prep: Preparation, j: Job) {
    if j.operation == Erasure then j.input.document != "" && j.revision != 0
    else j.prepared.Some? ==> ValidDocument(prep, j.prepared.value, j.revision)
  }

  /** A replayed job is validated and arbitrated, and the catalog it leads to is built over the base, unless it is
      the one that is active already. `InvalidArgument` stands for whatever error the build reports. */
  ghost function ReplayJob(prep: Preparation, base: nat, c: Catalog, j: Job): Result<Catalog> {
    if !Sound(prep, j) then Err(InvalidArgument)
    else
      match ArbitrateJob(c, j)
      case Ok(next) => if next == c || Serves(base, next.documents) then Ok(next) else Err(InvalidArgument)
      case Err(e) => Err(e)
  }

  /** The catalog after a job that is not stale. */
  function WithJob(c: Catalog, j: Job): Catalog {
    var d := j.input.document;
    if d in c.revisions && c.revisions[d] == j.revision then c
    else Catalog(c.revisions[d := j.revision],
                 if j.operation == Erasure || j.prepared.None? then c.documents - {d}
                 else c.documents[d := Active(j.revision, j.prepared.value)])
  }

  /** The catalog on the way, after jobs that are not stale. */
  function OnTheWay(c: Catalog, replay: seq<Job>): Catalog {
    if replay == [] then c else WithJob(OnTheWay(c, replay[..|replay| - 1]), replay[|replay| - 1])
  }

  /** The dimension of the base after some jobs: the restored one, or that of the last compaction since. A number in
      `compacted` says that a compaction was published after that many jobs. */
  ghost function BaseAt(c: Catalog, replay: seq<Job>, compacted: set<nat>): nat {
    if replay == [] || |replay| in compacted then DimensionIn(OnTheWay(c, replay).documents)
    else BaseAt(c, replay[..|replay| - 1], compacted)
  }

  ghost function Replay(prep: Preparation, c: Catalog, replay: seq<Job>, compacted: set<nat>): Result<Catalog> {
    if replay == [] then Ok(c)
    else
      var n := |replay| - 1;
      match Replay(prep, c, replay[..n], compacted)
      case Ok(mid) => ReplayJob(prep, BaseAt(c, replay[..n], compacted), mid, replay[n])
      case Err(e) => Err(e)
  }

  predicate IsLatestIndex(jobs: map<JobId, Job>, revisions: map<DocKey, nat>, latest: map<DocKey, JobId>) {
    revisions.Keys == latest.Keys &&
    (forall id :: id in jobs ==>
      jobs[id].input.document in revisions && jobs[id].revision <= revisions[jobs[id].input.document]) &&
    (forall d :: d in latest ==>
      latest[d] in jobs && jobs[latest[d]].input.document == d && jobs[latest[d]].revision == revisions[d])
  }

  function RecoveredJob(co: Coordinator, j: Job, now: int): Job {
    if GetOr(co.latestRevision, j.input.document, 0) != j.revision
    then j.(status := Superseded, updatedAt := now)
    else j.(status := Queued, updatedAt := now, error := None, prepared := None)
  }

  function RecoverOne(s: Sys, id: JobId, now: int): Sys
    requires s.mode.Recovering? && id in s.co.jobs
  {
    var next := RecoveredJob(s.co, s.co.jobs[id], now);
    s.(log := s.log + [next], mode := Recovering(s.mode.pending - {id}),
       co := s.co.(jobs := s.co.jobs[id := next],
                   queue := if next.status == Queued && next.operation == Upsert then s.co.queue + [id] else s.co.queue))
  }

  /** Only the log and the checkpoint survive. */
  function Crashed(s: Sys): Sys {
    s.(mode := Down, co := NoCoordinator, backend := EmptyCatalog, base := 0, exec := map[],
        maintenance := Idle)
  }

  // -------------------------------------------------------------------- steps

  ghost predicate Enabled(prep: Preparation, s: Sys, e: Event) {
    match e
    case Admit(id, operation, input, _) =>
      s.mode.Up? && s.co.admitting.None? && id !in s.co.jobs && input.document != "" &&
      (operation == Upsert ==> !Answered(s.co, input, HashOf(prep, input)))
    case Admitted(asynchronous, _) => s.mode.Up? && s.co.admitting.Some?
    case Dequeue => s.mode.Up? && s.co.admitting.None? && s.co.queue != []
    case Run(id, outcome, _) => s.mode.Up? && s.co.admitting.None? && RunEnabled(prep, s, id, outcome)
    case CheckpointPosition => s.mode.Up? && s.maintenance.Idle?
    case CheckpointCopy => s.mode.Up? && s.maintenance.Positioned?
    case CheckpointWrite => s.mode.Up? && s.maintenance.Copied?
    case CheckpointCut(kept) =>
      s.mode.Up? && s.maintenance.Written? && s.maintenance.position <= |s.log| &&
      CutOf(s.log[..s.maintenance.position], kept)
    case CheckpointAbort => s.mode.Up?
    case Crash => true
    case RecoverLoad(replay, compacted, revisions, latest) =>
      s.mode.Down? && ReplayList(Latest(s.log), replay) && IsLatestIndex(Latest(s.log), revisions, latest) &&
      Replay(prep, s.checkpoint, replay, compacted).Ok?
    case RecoverJob(id, _) => s.mode.Recovering? && id in s.mode.pending && id in s.co.jobs
    case RecoverDone => s.mode.Recovering? && s.mode.pending == {}
    case Compacted => !s.mode.Down?
  }

  ghost function Apply(prep: Preparation, s: Sys, e: Event): Sys
    requires Enabled(prep, s, e)
  {
    match e
    case Admit(id, operation, input, now) =>
      var job := Fresh(s.co, id, operation, input, if operation == Erasure then "deleted" else HashOf(prep, input), now);
      s.(log := s.log + [job], co := s.co.(admitting := Some(job)))
    case Admitted(asynchronous, now) => FinishAdmission(s, asynchronous, now)
    case Dequeue => s.(co := s.co.(queue := s.co.queue[1..]), exec := s.exec[s.co.queue[0] := Begin])
    case Run(id, outcome, now) => Execute(s, id, outcome, now)
    case CheckpointPosition => s.(maintenance := Positioned(|s.log|))
    case CheckpointCopy => s.(maintenance := Copied(s.maintenance.position, s.backend))
    case CheckpointWrite => s.(checkpoint := s.maintenance.copy, maintenance := Written(s.maintenance.position))
    case CheckpointCut(kept) => s.(log := kept + s.log[s.maintenance.position..], maintenance := Idle)
    case CheckpointAbort => s.(maintenance := Idle)
    case Crash => Crashed(s)
    case RecoverLoad(replay, compacted, revisions, latest) =>
      var jobs := Latest(s.log);
      s.(mode := Recovering(set id | id in jobs && !Terminal(jobs[id].status)),
         co := Coordinator(jobs, revisions, latest, [], None),
         backend := Replay(prep, s.checkpoint, replay, compacted).value,
         base := BaseAt(s.checkpoint, replay, compacted))
    case RecoverJob(id, now) => RecoverOne(s, id, now)
    case RecoverDone =>
      s.(mode := Up, exec := map id | id in s.co.jobs && !Terminal(s.co.jobs[id].status)
                                      && s.co.jobs[id].operation == Erasure :: Begin)
    case Compacted => s.(base := DimensionIn(s.backend.documents))
  }

  /** A run: every event is enabled where it happens. */
  ghost predicate Legal(prep: Preparation, s: Sys, events: seq<Event>)
    decreases |events|, 0
  {
    events == [] ||
    (Legal(prep, s, events[..|events| - 1]) &&
     Enabled(prep, After(prep, s, events[..|events| - 1]), events[|events| - 1]))
  }

  ghost function After(prep: Preparation, s: Sys, events: seq<Event>): Sys
    requires Legal(prep, s, events)
    decreases |events|, 1
  {
    if events == [] then s
    else Apply(prep, After(prep, s, events[..|events| - 1]), events[|events| - 1])
  }
}
