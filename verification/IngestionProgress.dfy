/** Over every run: what answers a submission has been acknowledged and is served, and no unfinished job is stranded. */
module IngestionProgress {
  import opened Wrappers
  import opened Documents
  import opened Validation
  import opened Jobs
  import opened Ingestion
  import opened IngestionSafety
  import opened IngestionTheorems

  // ----------------------------------------------------------------- what a thread does

  /** Jobs may only change at `id`; when it leaves its thread, it is over or unheard of. */
  predicate OneMoves(s: Sys, s': Sys, id: JobId) {
    s'.co.jobs.Keys == s.co.jobs.Keys && (forall k :: k in s.co.jobs && k != id ==> s'.co.jobs[k] == s.co.jobs[k]) &&
    (forall k :: k in s.exec && k != id ==> k in s'.exec) && s'.co.queue == s.co.queue && s'.mode == s.mode &&
    (id in s'.exec || id !in s'.co.jobs || Terminal(s'.co.jobs[id].status))
  }

  /** If the job has become ready, its mutation is acknowledged. */
  predicate OneAcked(s: Sys, s': Sys, id: JobId) {
    s.acked <= s'.acked &&
    (id in s'.co.jobs && s'.co.jobs[id].status == Ready ==>
      MutationOf(s'.co.jobs[id]) in s'.acked || (id in s.co.jobs && s'.co.jobs[id] == s.co.jobs[id]))
  }

  lemma GotoMoves(s: Sys, id: JobId, status: Status, error: Option<Errc>, prepared: Option<PreparedDocument>, applied: Option<bool>,
                  now: int, pc: Pc)
    ensures var s' := Goto(Transition(s, id, status, error, prepared, applied, now), id, pc); OneMoves(s, s', id) && OneAcked(s, s', id)
  {
    hide Advanced;
    AdvancedStatus(s, id, status, error, prepared, applied, now);
  }

  lemma AdvancedStatus(s: Sys, id: JobId, status: Status, error: Option<Errc>, prepared: Option<PreparedDocument>,
                       applied: Option<bool>, now: int)
    ensures id in s.co.jobs ==> Advanced(s.co.jobs[id], status, error, prepared, applied, now).status == status
  {
  }

  lemma LeaveMoves(s: Sys, id: JobId, status: Status, error: Option<Errc>, prepared: Option<PreparedDocument>, applied: Option<bool>,
                   now: int)
    requires Terminal(status)
    ensures var s' := Leave(Transition(s, id, status, error, prepared, applied, now).0, id); OneMoves(s, s', id) && OneAcked(s, s', id)
  {
    hide Advanced;
    AdvancedStatus(s, id, status, error, prepared, applied, now);
  }

  lemma PublishMoves(s: Sys, id: JobId, p: PreparedDocument, outcome: Outcome)
    requires id in s.co.jobs && !Terminal(s.co.jobs[id].status) ==> Current(s.co.latestRevision, s.co.jobs[id])
    ensures var s' := ExecutePublish(s, id, p, outcome); OneMoves(s, s', id) && OneAcked(s, s', id)
  {
    hide Activate;
  }

  lemma EraseMoves(s: Sys, id: JobId, outcome: Outcome)
    ensures var s' := ExecuteErase(s, id, outcome); OneMoves(s, s', id) && OneAcked(s, s', id)
  {
    hide Erase;
  }

  lemma RunMoves(s: Sys, id: JobId, outcome: Outcome, now: int)
    requires id in s.exec
    requires id in s.co.jobs && !Terminal(s.co.jobs[id].status) ==> Current(s.co.latestRevision, s.co.jobs[id])
    ensures var s' := Execute(s, id, outcome, now); OneMoves(s, s', id) && OneAcked(s, s', id)
  {
    hide Transition, Goto, Leave, ExecutePublish, ExecuteErase;
    match s.exec[id]
    case EnterChunking => GotoMoves(s, id, Chunking, None, None, None, now, ReadInput);
    case EnterEmbedding(p) => GotoMoves(s, id, Embedding, None, None, None, now, Embed(p));
    case EnterPublishing(p) => GotoMoves(s, id, Publishing, None, Some(p), None, now, Publish(p));
    case Publish(p) => PublishMoves(s, id, p, outcome);
    case EnterReady(p) => LeaveMoves(s, id, Ready, None, Some(p), None, now);
    case EnterErasing => GotoMoves(s, id, Publishing, None, None, None, now, EraseBackend);
    case EraseBackend => EraseMoves(s, id, outcome);
    case EnterErased(a) => LeaveMoves(s, id, Ready, None, None, Some(a), now);
    case EnterFailed(error) => LeaveMoves(s, id, Failed, Some(error), None, None, now);
    case _ => LeaveIs(s, id);
  }

  lemma LeaveIs(s: Sys, id: JobId)
    ensures Leave(s, id) == s.(exec := s.exec - {id})
  {
  }

  // -------------------------------------------------------------------- what steps keep

  /** The mutation of every ready job has been acknowledged. */
  predicate ReadyAcked(s: Sys) {
    !s.mode.Down? ==> forall id :: id in s.co.jobs && s.co.jobs[id].status == Ready ==> MutationOf(s.co.jobs[id]) in s.acked
  }

  /** Every unfinished job is queued, has a thread, or is still to be looked at by recovery. */
  predicate NoneStranded(s: Sys) {
    !s.mode.Down? ==> forall id :: id in s.co.jobs && !Terminal(s.co.jobs[id].status) ==>
      id in s.co.queue || if s.mode.Recovering? then id in s.mode.pending || s.co.jobs[id].operation == Erasure else id in s.exec
  }

  lemma AdmissionKeeps(s: Sys, asynchronous: bool, now: int)
    requires ReadyAcked(s) && NoneStranded(s) && s.mode.Up? && s.co.admitting.Some? && AdmissionOk(s.co)
    ensures ReadyAcked(FinishAdmission(s, asynchronous, now)) && NoneStranded(FinishAdmission(s, asynchronous, now))
  {
    var older := Displaced(s.co, s.co.admitting.value.input.document);
    assert older.Some? ==> Retired(older.value, now).status == Superseded;
  }

  lemma LoadKeeps(f: Preparation, s: Sys, e: Event)
    requires Inv(f, s) && e.RecoverLoad? && Enabled(f, s, e)
    ensures ReadyAcked(Apply(f, s, e)) && NoneStranded(Apply(f, s, e))
  {
    hide Replay, ReplayList, IsLatestIndex, BaseAt, KnownOk, LogKnown, Final, Running, Secured;
  }

  lemma RunProgress(f: Preparation, s: Sys, id: JobId, outcome: Outcome, now: int)
    requires Inv(f, s) && ReadyAcked(s) && NoneStranded(s) && Enabled(f, s, Run(id, outcome, now))
    ensures ReadyAcked(Apply(f, s, Run(id, outcome, now))) && NoneStranded(Apply(f, s, Run(id, outcome, now)))
  {
    hide Inv, Execute, RunEnabled;
    ThreadCurrent(f, s, id, outcome);
    RunMoves(s, id, outcome, now);
  }

  lemma AdmittedProgress(f: Preparation, s: Sys, asynchronous: bool, now: int)
    requires Inv(f, s) && ReadyAcked(s) && NoneStranded(s) && Enabled(f, s, Admitted(asynchronous, now))
    ensures ReadyAcked(Apply(f, s, Admitted(asynchronous, now))) && NoneStranded(Apply(f, s, Admitted(asynchronous, now)))
  {
    hide Inv, FinishAdmission, ReadyAcked, NoneStranded;
    AdmittingOk(f, s);
    AdmissionKeeps(s, asynchronous, now);
  }

  lemma StepProgress(f: Preparation, s: Sys, e: Event)
    requires Inv(f, s) && ReadyAcked(s) && NoneStranded(s) && Enabled(f, s, e)
    ensures ReadyAcked(Apply(f, s, e)) && NoneStranded(Apply(f, s, e))
  {
    hide Inv, Enabled, Apply, ReadyAcked, NoneStranded;
    match e {
      case Run(id, outcome, now) => RunProgress(f, s, id, outcome, now);
      case Admitted(asynchronous, now) => AdmittedProgress(f, s, asynchronous, now);
      case RecoverLoad(_, _, _, _) => LoadKeeps(f, s, e);
      case RecoverJob(id, now) => RecoverProgress(f, s, id, now);
      case Dequeue => DequeueProgress(f, s);
      case _ => OtherProgress(f, s, e);
    }
  }

  lemma ThreadCurrent(f: Preparation, s: Sys, id: JobId, outcome: Outcome)
    requires Inv(f, s) && s.mode.Up? && RunEnabled(f, s, id, outcome)
    ensures id in s.exec && (id in s.co.jobs && !Terminal(s.co.jobs[id].status) ==> Current(s.co.latestRevision, s.co.jobs[id]))
  {
    hide KnownOk, LogKnown, Final, Durable, Threads, IsLatestIndex, Live;
  }

  lemma AdmittingOk(f: Preparation, s: Sys)
    requires Inv(f, s) && s.mode.Up?
    ensures AdmissionOk(s.co)
  {
    hide KnownOk, LogKnown, Final, Durable, Threads, IsLatestIndex, Live, Unfinished;
  }

  lemma RecoverProgress(f: Preparation, s: Sys, id: JobId, now: int)
    requires ReadyAcked(s) && NoneStranded(s) && Enabled(f, s, RecoverJob(id, now))
    ensures ReadyAcked(Apply(f, s, RecoverJob(id, now))) && NoneStranded(Apply(f, s, RecoverJob(id, now)))
  {
    var j := s.co.jobs[id];
    var next := RecoveredJob(s.co, j, now);
    assert next.operation == j.operation && next.status != Ready;
  }

  lemma DequeueProgress(f: Preparation, s: Sys)
    requires ReadyAcked(s) && NoneStranded(s) && Enabled(f, s, Dequeue)
    ensures ReadyAcked(Apply(f, s, Dequeue)) && NoneStranded(Apply(f, s, Dequeue))
  {
    assert s.co.queue == [s.co.queue[0]] + s.co.queue[1..];
  }

  lemma OtherProgress(f: Preparation, s: Sys, e: Event)
    requires ReadyAcked(s) && NoneStranded(s) && Enabled(f, s, e) && !e.Run? && !e.Admitted? && !e.RecoverLoad?
    requires !e.RecoverJob? && !e.Dequeue?
    ensures ReadyAcked(Apply(f, s, e)) && NoneStranded(Apply(f, s, e))
  {
    hide Replay, ReplayList, IsLatestIndex, Latest, CutOf, Answered, Execute, FinishAdmission;
  }

  lemma {:induction false} RunsProgress(f: Preparation, events: seq<Event>)
    requires Legal(f, Initial, events)
    ensures ReadyAcked(After(f, Initial, events)) && NoneStranded(After(f, Initial, events))
  {
    if events != [] {
      var n := |events| - 1;
      RunsProgress(f, events[..n]);
      RunsKeep(f, events[..n]);
      hide Inv, Apply, Enabled, ReadyAcked, NoneStranded;
      StepProgress(f, After(f, Initial, events[..n]), events[n]);
    }
  }

  // ------------------------------------------------------------------------- theorems

  /** Whenever the system is up, every unfinished job is in the queue or has a thread of its own. */
  lemma NothingStranded(f: Preparation, events: seq<Event>, id: JobId)
    requires Legal(f, Initial, events) && After(f, Initial, events).mode.Up?
    requires id in After(f, Initial, events).co.jobs && !Terminal(After(f, Initial, events).co.jobs[id].status)
    ensures id in After(f, Initial, events).co.queue || id in After(f, Initial, events).exec
  {
    hide Legal, After;
    RunsProgress(f, events);
  }

  /** A ready job that answers a submission without a new one: its mutation is acknowledged, and the backend serves it or
      something newer; in a covered run it serves this very content. */
  lemma AnswerIsServed(f: Preparation, events: seq<Event>, d: DocKey)
    requires Legal(f, Initial, events) && After(f, Initial, events).mode.Up?
    requires var co := After(f, Initial, events).co; d in co.latestJob && co.latestJob[d] in co.jobs
    requires var co := After(f, Initial, events).co; co.jobs[co.latestJob[d]].status == Ready
    ensures var s := After(f, Initial, events); var j := s.co.jobs[s.co.latestJob[d]];
      j.input.document == d && MutationOf(j) in s.acked && Covers(s.backend, MutationOf(j)) &&
      (CoveredRun(f, events) ==> EffectAt(s.backend, d) == EffectOf(j))
  {
    hide Legal, After, CoveredRun, Inv;
    RunsProgress(f, events);
    RunsKeep(f, events);
    var s := After(f, Initial, events);
    LatestServed(f, s, d);
    if CoveredRun(f, events) {
      BackendNotAhead(f, events, d);
    }
  }

  lemma LatestServed(f: Preparation, s: Sys, d: DocKey)
    requires Inv(f, s) && s.mode.Up? && d in s.co.latestJob
    ensures s.co.latestJob[d] in s.co.jobs && d in s.co.latestRevision
    ensures var j := s.co.jobs[s.co.latestJob[d]];
      j.input.document == d && j.revision == s.co.latestRevision[d] && (MutationOf(j) in s.acked ==> Covers(s.backend, MutationOf(j)))
  {
    hide KnownOk, LogKnown, Final, Durable, Threads, Unfinished, Covers;
  }

  /** Once a ready record stands in the log, every later state holds its mutation or something newer. */
  lemma ReadyRecordHeld(f: Preparation, events: seq<Event>, k: nat, j: Job)
    requires Legal(f, Initial, events) && k <= |events| && Legal(f, Initial, events[..k])
    requires j in After(f, Initial, events[..k]).log && j.status == Ready
    ensures var s := After(f, Initial, events);
      if s.mode.Down? then Covers(s.checkpoint, MutationOf(j)) || Logged(s.log, MutationOf(j)) else Covers(s.backend, MutationOf(j))
  {
    hide Legal, After, Inv;
    RunsKeep(f, events[..k]);
    ReadyIsAcked(f, After(f, Initial, events[..k]), j);
    NoAcknowledgedLoss(f, events, k, MutationOf(j));
  }

  lemma ReadyIsAcked(f: Preparation, s: Sys, j: Job)
    requires Inv(f, s) && j in s.log && j.status == Ready
    ensures MutationOf(j) in s.acked
  {
    hide KnownOk, LogKnown, Final, Running, Secured;
  }
}
