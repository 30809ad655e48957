/** Ingestion jobs: complete snapshots of one requested mutation and its progress. */
module Jobs {
  import opened Wrappers
  import opened Documents

  type JobId = string

  datatype Operation = Upsert | Erasure

  datatype Status = Queued | Chunking | Embedding | Publishing | Ready | Failed | Superseded | Cancelled

  predicate Terminal(s: Status) {
    s == Ready || s == Failed || s == Superseded || s == Cancelled
  }

  datatype Input = Input(document: DocKey, title: string, content: string, metadata: Metadata)

  datatype Job = Job(
    id: JobId, operation: Operation, input: Input, revision: nat, contentHash: string, status: Status,
    createdAt: int, updatedAt: int, error: Option<Errc>, prepared: Option<PreparedDocument>,
    mutationApplied: Option<bool>)

  function EffectOf(j: Job): Effect {
    if j.operation == Erasure then Gone else Put(j.contentHash)
  }

  function MutationOf(j: Job): Mutation {
    Mutation(j.input.document, j.revision, EffectOf(j))
  }

  /** The last record of each job id, as `load_latest` reads a log. */
  function Latest(log: seq<Job>): (m: map<JobId, Job>)
    ensures forall id :: id in m ==> m[id] in log && m[id].id == id
    ensures forall i :: 0 <= i < |log| ==> log[i].id in m
  {
    if log == [] then map[] else Latest(log[..|log| - 1])[log[|log| - 1].id := log[|log| - 1]]
  }

  lemma LatestAppend(log: seq<Job>, j: Job)
    ensures Latest(log + [j]) == Latest(log)[j.id := j]
  {
    assert (log + [j])[..|log|] == log;
  }

  /** Record `i` is followed by no other of its job. */
  predicate IsLast(log: seq<Job>, i: int) {
    0 <= i < |log| && forall j :: i < j < |log| ==> log[j].id != log[i].id
  }

  /** The map holds the last record of every job of the log, and nothing else. */
  ghost predicate HoldsLast(m: map<JobId, Job>, log: seq<Job>) {
    (forall i :: IsLast(log, i) ==> log[i].id in m && m[log[i].id] == log[i]) &&
    (forall id :: id in m ==> exists i :: IsLast(log, i) && log[i].id == id)
  }

  lemma {:induction false} LastExists(log: seq<Job>, id: JobId) returns (i: nat)
    requires id in Latest(log)
    ensures IsLast(log, i) && log[i].id == id
  {
    var n := |log| - 1;
    i := n;
    if log[n].id != id {
      i := LastExists(log[..n], id);
      LastStays(log, i);
    }
  }

  lemma LastStays(log: seq<Job>, i: nat)
    requires log != [] && IsLast(log[..|log| - 1], i) && log[|log| - 1].id != log[i].id
    ensures IsLast(log, i)
  {
    forall j | i < j < |log|
      ensures log[j].id != log[i].id
    {
      assert j < |log| - 1 ==> log[..|log| - 1][j] == log[j];
    }
  }

  lemma LatestHoldsLast(log: seq<Job>)
    ensures HoldsLast(Latest(log), log)
  {
    hide Latest;
    forall i | IsLast(log, i)
      ensures log[i].id in Latest(log) && Latest(log)[log[i].id] == log[i]
    {
      LatestIsLast(log, i);
    }
    forall id | id in Latest(log)
      ensures exists i :: IsLast(log, i) && log[i].id == id
    {
      var i := LastExists(log, id);
    }
  }

  /** Latest picks, for every id, the record after which the id does not occur again. */
  lemma {:induction false} LatestIsLast(log: seq<Job>, i: nat)
    requires IsLast(log, i)
    ensures log[i].id in Latest(log) && Latest(log)[log[i].id] == log[i]
  {
    if i < |log| - 1 {
      LatestIsLast(log[..|log| - 1], i);
    }
  }

  ghost predicate DistinctJobs(jobs: seq<Job>) {
    forall i, j :: 0 <= i < j < |jobs| ==> jobs[i].id != jobs[j].id
  }

  /** `listed` lists every job of `m` once. */
  ghost predicate Lists(listed: seq<Job>, m: map<JobId, Job>) {
    (forall i :: 0 <= i < |listed| ==> listed[i].id in m && m[listed[i].id] == listed[i]) &&
    DistinctJobs(listed) &&
    (forall id :: id in m ==> exists i :: 0 <= i < |listed| && listed[i].id == id)
  }
}
