# rag.cpp: a verified model of its durable core

A Dafny 4.11 model of the parts of `rag.cpp` on which correctness of stored and retrieved documents rests. Every claim below is a theorem about the model, for all inputs or all runs. `dafny verify dfyconfig.toml` checks the whole project.

**Durable ingestion** (`Documents`, `Jobs`, `Ingestion*`, `Recovery*`, `OverlappingCheckpoints`, `LogTracks`, `Deletions`, `OverlapLimits`, `OverlapRuns`, `Coordinator`). Submitters, workers and checkpoints are a state machine over the coordinator's lock regions, with a crash allowed between any two steps. A checkpoint is four steps: read the log position, copy the catalog, replace the file, cut the log. The order of activation, ready record and cut is what the safety proof is about. `IngestionCoordinator` is the coordinator object itself, calling the embedded backend object; each of its methods is proved to take steps of that machine.

**Job log** (`Bytes`, `JobLog`, `JobStore`). Frames, torn tails and prefix cuts over bytes, with an abstract record codec and checksum.

**Embedded backend** (`Sorting`, `Dense`, `Tiered`, `Generation*`, `PartitionLimits`, `Serving`, `Validation`, `Compaction`, `Backend`, `Convergence`, `BackendRuns`). Immutable generations with a base index, tombstones and an exact delta; optimistic compaction; checkpoint and restore. The reference for dense search is one sort of all live matching chunks.

**Chunker** (`Utf8`, `ChunkSplit`, `Spans`, `Filling`, `Chunker`, `ChunkContexts`, `Preparing`). Spans are seen as cells, one per byte and one per blank line. An in-place split leaves the cells unchanged, so windows are ranges of cells, and the cells from the window start on are the termination measure. A run of the chunker is a chain of rounds, one to a window, each beginning where the overlap of the last one says and carrying its headings on.

**Search structures** (`HnswGraph`, `HnswSearch`, `HnswLinks`, `Hnsw`, `HitLists`, `Bm25`, `Bm25Build`, `Bm25Search`, `LexicalIndex`). Insertion and beam search of the layered graph over any real-valued similarity, and BM25 over reals, proved against a score written down from the documents alone.

**Persistence and migration** (`Reading`, `Container`, `ContainerLayout`, `Checkpoint*`, `Migration*`). The container format, the checkpoint file, and the resumable copy.

Where a property does not hold of the code, the model keeps the code and the exact condition is proved beside a concrete case:

- Recovery can be refused. `docs/TECHNICAL_OVERVIEW.md` says that retained records replayed after a checkpoint are treated idempotently. The code refuses a ready record older than the checkpoint's catalog, and a catalog that cannot be built on the way: `RecoveryRefusedIff` says exactly when. `RefusedStoreIsReachable`, `FingerprintRefused` and `DimensionRefused` are runs that end there. Documents prepared alike leave staleness as the one reason (`OneKindRefusedIff`).
- The latest assigned revision is rebuilt from the log alone, so it can fall behind the backend once terminal jobs have been cut (`ReusedRevisionIsReachable`). It never does if and only if every recovery starts from a log that covers the checkpoint (`RecoveredBelowIff`, `NeverAheadIff`). Then no current upsert is refused as stale (`NeverStale`); after any other recovery, submissions of new content for some document can be (`UncoveredIsRefused`).
- Checkpoints that overlap can lose an acknowledged mutation, since only one of the callers takes a lock. A checkpoint keeps a byte offset, which `truncate_prefix` looks up in the log as it then is: after another cut it is refused, unless it happens to be a frame boundary again (`CutPossibleIff`), and then it drops other records than those it was read after. `OverlapsKeepAcknowledged` says which overlaps are safe, by how much of the log each copy and the file make up for. The condition is sufficient and not necessary in a single run, where the records that were cut may not have mattered; but no copy in hand is ever out of danger (`CopyCanLose`), nor any cut to come whose offset can be met again (`CutCanLose`, `LongCutCanLose`); a cut that drops one record at most is always harmless (`ShortCutKeeps`). `StaleOffsetLoses` is a run in which an offset read after few records drops many.
- A migration can stop midway, because `save` refuses what the audit accepts (`StopsMidway`), and can succeed into a destination that will not open, because `load` refuses it (`CopiedButClosed`). `Migrate` says exactly when, and what it leaves behind; `SavableIff` and `LoadableIff` spell the two conditions out. Repeated chunk keys and reversed line ranges can only come from rows written past a backend, since both backends' validation refuses them; `save`'s limits on counts and sizes are its own.
- A prepared document can be refused by validation, because two windows of one line can hold the same text (`PrepareChunks`, `RepeatedLetterRefused`). It never is when no line is longer than the limit, headings are off and keys tell start lines apart (`PrepareChunks`).
- A chunk's context is built from the headings in hand, which are never taken back when a window goes back over the end of the last one. So a line after the overlap can stand under a heading that comes later (`OverlapMisplaces`). Where windows take whole lines, every line stands under the headings that enclose it if and only if no window goes back over lines that change the headings for good (`EnclosedIff`, `ContextEncloses`), such as a heading (`QuietSettles`).
- A job that recovery finds overtaken is recorded as superseded with its content and its prepared document, which every other way of finishing a job drops (`LeftByRecovery`, `LeftoverIsReachable`).
- The two dense tiers hold exactly the embedded live chunks if and only if the generation has vectors or hides its whole base (`Partition`, `PartitionCanFail`).
- A container with an empty section before one that is not is accepted or rejected depending on how the sort places ranges of equal offset (`AnySortPasses`, `SomeSortFails`). Checkpoint files never contain an empty section.
- A job log is refused on opening when it holds more records than the limit, and appending counts none (`RoundsSurvive`).
- A saved checkpoint is loaded back if and only if it is `Loadable`; `BackendLoads` shows that the backend's own checkpoints are.

Parameters rather than definitions: the record codec, checksums, content and key hashes, text normalisation, the tokenizer, the idf, the token measurer, similarities, the random level of a new node, clocks and job ids, metadata filters, and the bit patterns of floats. Hypotheses are stated where they are used: the codec and the float codec are invertible on what is stored, equal chunk keys have equal embeddings, the idf is positive, a measurer is monotone where the hard limit is claimed.

## Model

| member | source | states |
|---|---|---|
| IngestionTheorems.NoAcknowledgedLoss | rag.cpp/src/ingestion/embedded_durability.cpp:5-11 | over every run of submissions, deletions, worker steps, one-at-a-time checkpoints and crashes between any two steps: once a ready record is written, every later state that is not down holds that revision with that effect or a newer one, and a store that is down still holds it in its checkpoint or its log |
| IngestionTheorems.OneUnfinishedJob | rag.cpp/src/ingestion/coordinator.cpp:171-202 | in every run an unfinished job is the latest of its document, no other job of the document is unfinished, and none has a higher revision |
| IngestionTheorems.TerminalIsFinal | rag.cpp/src/ingestion/coordinator.cpp:274-314 | no step within one lifetime changes a terminal job |
| IngestionTheorems.TerminalRecordIsFinal | rag.cpp/src/ingestion/coordinator.cpp:274-314 | a record that ends a job is never followed by a different end: later logs agree with it or, after a cut, know nothing of the job |
| IngestionTheorems.CutForgets | rag.cpp/src/ingestion/job_store.cpp:371-449 | a cut keeps a terminal record or every trace of its job |
| IngestionTheorems.RecoveredBelowIff | rag.cpp/src/ingestion/coordinator.cpp:65-136 | a recovery leaves the backend at or below the assigned revisions if and only if the log still names, for every document of the checkpoint, a job at or above its revision |
| IngestionTheorems.NeverAheadIff | rag.cpp/src/ingestion/coordinator.cpp:65-136 | over every run: the backend is never above the latest assigned revision, at any point, if and only if every recovery of the run started from such a log |
| IngestionTheorems.BackendNotAhead | rag.cpp/src/ingestion/coordinator.cpp:65-136 | in every run whose recoveries start from such a log, the backend never holds a revision above the latest assigned one |
| IngestionTheorems.NeverStale | rag.cpp/src/ingestion/coordinator.cpp:337-443 | in such a run an upsert that reaches activation while it is the current job is never refused as stale |
| IngestionStale.StaleIff | rag.cpp/src/backend/embedded_backend.cpp:203-241 | over every run: the activation of a current upsert is refused as stale if and only if the backend is past the latest assigned revision, or at it with other content |
| IngestionStale.StraightUpsert | rag.cpp/src/ingestion/coordinator.cpp:138-443 | every upsert that may be admitted, whatever document is prepared from it, has a run straight to its activation, where it is current and is refused as stale if and only if the backend is past the revision it was given, or at it with other content |
| IngestionStale.UncoveredIsRefused | rag.cpp/src/ingestion/coordinator.cpp:65-136 | after every recovery from a log that does not cover the checkpoint there is a document for which each submission of new content, whatever is prepared from it, has a run in which it is current and refused as stale |
| IngestionStale.RunsFromOne | rag.cpp/src/ingestion/coordinator.cpp:171-202 | in every run all revisions in the log, the job table, the backend and the checkpoint are at least one |
| IngestionStale.CoveredRunExists | rag.cpp/src/ingestion/coordinator.cpp:65-443 | such runs exist: one acknowledges a mutation |
| IngestionTheorems.LifetimeContinues | rag.cpp/src/ingestion/coordinator.cpp:138-443 | between two crashes of any run the backend uncovers no mutation it covered, and no job changes its document, revision or operation |
| IngestionTheorems.RevisionsOnlyRise | rag.cpp/src/backend/embedded_backend.cpp:203-273 | between two crashes of any run no document's revision goes down, and at an unchanged revision its content does not change |
| IngestionTheorems.OvertakenDeletion | rag.cpp/src/ingestion/coordinator.cpp:346-377 | in every run a deletion whose document the backend holds at a newer revision stays overtaken until the next crash, and none of its steps changes the backend |
| IngestionTheorems.OvertakenIsOver | rag.cpp/src/ingestion/coordinator.cpp:171-202 | in a covered run such a deletion is already terminal |
| IngestionTheorems.NewerIsKept | rag.cpp/src/backend/embedded_backend.cpp:203-273 | in every run no step of any job removes, replaces or rolls back a document that the backend holds above the job's revision |
| IngestionTheorems.RunsCovered | rag.cpp/src/ingestion/coordinator.cpp:65-136 | every step of a covered run keeps the log index at or above the backend catalog, with the same effect where they meet |
| IngestionProgress.NothingStranded | rag.cpp/src/ingestion/coordinator.cpp:65-458 | over every run: whenever the system is up, every unfinished job is in the queue or has a thread |
| IngestionProgress.AnswerIsServed | rag.cpp/src/ingestion/coordinator.cpp:150-167 | over every run: a ready job that answers a submission is acknowledged, and the backend holds its mutation or a newer one; in a covered run it serves this very content |
| IngestionProgress.ReadyRecordHeld | rag.cpp/src/ingestion/coordinator.cpp:274-314 | over every run: once a ready record stands in the log, every later state holds its mutation or something newer |
| IngestionRecords.RecordsTell | rag.cpp/src/ingestion/coordinator.cpp:274-314 | over every run: a record has an error if and only if its job failed, none is cancelled, and exactly ready deletions say whether they erased anything |
| IngestionRecords.LeftByRecovery | rag.cpp/src/ingestion/coordinator.cpp:112-121 | over every run: a finished record that still holds content, or a prepared document without being ready, is an unfinished job that a recovery found overtaken, as it then stood |
| IngestionRecords.LeftoverIsReachable | rag.cpp/src/ingestion/coordinator.cpp:112-121 | a run that leaves such a record |
| IngestionSafety.RunsKeep | rag.cpp/src/ingestion/coordinator.cpp:65-443 | the protocol invariant holds after every run from the empty store |
| IngestionSafety.StepKeeps | rag.cpp/src/ingestion/coordinator.cpp:138-443 | every event, a crash included, keeps the protocol invariant |
| IngestionSafety.RecordKeeps | rag.cpp/src/ingestion/coordinator.cpp:274-314 | replacing one unfinished job by its next record, appended to the log, keeps the invariant |
| IngestionSafety.TransitionKeeps | rag.cpp/src/ingestion/coordinator.cpp:274-314 | a transition keeps the invariant, whether or not the job was still the latest |
| IngestionSafety.BackendKeepsThreads | rag.cpp/src/ingestion/coordinator.cpp:357-433 | a backend change made for one job disturbs no other thread between its lock regions |
| IngestionSafety.PublishKeeps | rag.cpp/src/ingestion/coordinator.cpp:420-443 | activation before the ready record keeps the invariant, also when the backend refuses |
| IngestionSafety.EraseKeeps | rag.cpp/src/ingestion/coordinator.cpp:346-377 | deletion in the backend before its ready record keeps the invariant, also when the backend refuses |
| IngestionSafety.AdmittedKeeps | rag.cpp/src/ingestion/coordinator.cpp:171-202 | admitting a job, superseding the unfinished older one, keeps the invariant |
| IngestionSafety.CutKeeps | rag.cpp/src/ingestion/embedded_durability.cpp:5-11 | cutting the log at the position read before the catalog was copied keeps every acknowledged mutation in the checkpoint or the log |
| IngestionSafety.CrashKeeps | rag.cpp/src/ingestion/coordinator.cpp:65-136 | losing everything but the log and the checkpoint keeps the invariant |
| IngestionSafety.ReplayCovers | rag.cpp/src/ingestion/coordinator.cpp:84-118 | a successful replay forgets nothing of the checkpoint and puts every replayed mutation in place |
| IngestionSafety.RecoveredLive | rag.cpp/src/ingestion/coordinator.cpp:65-136 | after a recovery that succeeds the backend holds every acknowledged mutation or something newer |
| RecoveryRefusal.RecoveryRefusedIff | rag.cpp/src/ingestion/coordinator.cpp:97-118 | over every run that ends down, whatever compactions are published during the replay: recovery is refused if and only if the newest ready record of some document is stale against the checkpoint, or some catalog on the way, by revision and then id, cannot be built over the base of that moment |
| RecoveryRefusal.ReplayListUnique | rag.cpp/src/ingestion/coordinator.cpp:80-96 | the jobs to be replayed and their order are determined by the log |
| RecoveryRefusal.RunsBuilt | rag.cpp/src/backend/embedded_backend.cpp:124-201 | in every run the checkpoint can be built, and the active catalog over the active base |
| RecoveryRefusal.OneKindRefusedIff | rag.cpp/src/backend/embedded_backend.cpp:138-201 | when the checkpoint and the replayed documents were prepared alike and share no chunk key, staleness alone decides |
| IngestionLimits.ReplayIff | rag.cpp/src/ingestion/coordinator.cpp:97-118 | a replay succeeds if and only if no job is stale against the checkpoint and every catalog on the way can be built, and then ends in the last of them |
| RecoveryRuns.FingerprintRefused | rag.cpp/src/backend/embedded_backend.cpp:143-148 | a run with a restart under other chunk options that ends in a store no recovery opens, although nothing in it is stale |
| RecoveryRuns.DimensionRefused | rag.cpp/src/dense/tiered_index.cpp:26-57 | the same for one document embedded again in another dimension |
| IngestionLimits.RefusedStoreIsReachable | rag.cpp/src/ingestion/coordinator.cpp:97-118 | a checkpoint between an activation and its ready record, then a crash, leaves a store that no recovery opens |
| IngestionLimits.ReusedRevisionIsReachable | rag.cpp/src/ingestion/coordinator.cpp:69-76 | once a cut has dropped the terminal jobs, a restart can assign a revision the backend has already passed |
| OverlappingCheckpoints.OverlapsKeepAcknowledged | rag.cpp/src/ingestion/embedded_durability.cpp:5-11 | over every run with any number of checkpoints in progress at once, crashes anywhere and frames of any lengths: if no copy is written after a cut has gone past the log it was taken at, and no cut drops more records of the present log than the file makes up for, both followed through every cut, every acknowledged mutation is in the file or the log, and in the backend while it is up; a position is a byte offset, used as it was read |
| OverlappingCheckpoints.OverlapsKeepInv | rag.cpp/src/ingestion/embedded_durability.cpp:5-11 | the invariant behind it: what each copy and the file make up for |
| OverlappingCheckpoints.SerialIsCareful | rag.cpp/src/ingestion/embedded_runtime.cpp:122-130 | checkpoints begun only when none is in progress always meet that condition |
| OverlapLimits.CopyCanLose | rag.cpp/src/ingestion/embedded_runtime.cpp:71-130 | from every state reached carefully in which a checkpoint holds a copy there is a continuation, careful to its last step, in which writing that copy loses an acknowledged mutation |
| OverlapLimits.CutCanLose | rag.cpp/src/ingestion/job_store.cpp:371-449 | the same for a cut still to come, outside an admission, whenever its byte offset can be met again: it is the end of a record in the log that another cut, a deletion it interrupts, and further deletions leave |
| OverlapLimits.CutPossibleIff | rag.cpp/src/ingestion/job_store.cpp:383-390 | a cut at an offset read earlier goes ahead if and only if the offset is a frame boundary of the present log |
| OverlapLimits.ShortCutKeeps | rag.cpp/src/ingestion/job_store.cpp:371-449 | a cut that drops one record of the present log at most loses nothing, careful or not |
| OverlapRuns.LongCutCanLose | rag.cpp/src/ingestion/job_store.cpp:371-449 | every offset long enough is met again: one that leaves room for the records another cut keeps and two records of deletions, where the codec writes plain names as they are |
| OverlapRuns.StaleOffsetLoses | rag.cpp/src/ingestion/job_store.cpp:383-390 | a run in which an offset outlives a cut: it was read after no more records than the file makes up for, it is a boundary of the refilled log again, and the cut at it loses every late deletion, whenever the frame lengths add up |
| OverlapRuns.CutLoses | rag.cpp/src/ingestion/job_store.cpp:371-449 | they do for every codec that writes plain names as they are, so such a run exists |
| OverlapRuns.CopyLoses | rag.cpp/src/ingestion/embedded_runtime.cpp:71-130 | for every codec a run in which writing an old copy loses an acknowledged mutation exists |
| LogTracks.OverlapsTrack | rag.cpp/src/ingestion/job_store.cpp:371-449 | while checkpoints come and go, the log's last record of a job is the job as it stands, no unfinished job is missing, and a record that ends a job is preceded by another one of it where no cut has kept it |
| Deletions.DeletionRuns | rag.cpp/src/ingestion/coordinator.cpp:211-249 | from every state in which the coordinator is free a deletion of any document can be run to its end, and is acknowledged when the backend does not know the document |
| Documents.Activate | rag.cpp/src/backend/embedded_backend.cpp:203-241 | newer wins, the same content at the same revision is accepted again, everything else is stale; accepted exactly when the catalog admits the mutation, and other documents keep their effect |
| Documents.Erase | rag.cpp/src/backend/embedded_backend.cpp:243-273 | a newer deletion removes, a repeated one is accepted, everything else is stale; the flag says whether a document was there |
| CoordinatorObject.IngestionCoordinator.Submit | rag.cpp/src/ingestion/coordinator.cpp:138-209 | in the job table's own terms: answered without a new job if and only if the latest job of this very document has this content and is ready or unfinished, and then with that job; otherwise accepted, unless the input is empty, the coordinator is stopping or the queue is full; an accepted submission is the protocol's admission step and nothing else changes the state |
| CoordinatorObject.IngestionCoordinator.Delete | rag.cpp/src/ingestion/coordinator.cpp:211-249 | refused for an empty key or while stopping, with the error that fits; otherwise the protocol's admission of a deletion at the next revision |
| CoordinatorObject.IngestionCoordinator.Advance | rag.cpp/src/ingestion/coordinator.cpp:274-314 | is the protocol's transition: no change for a terminal or overtaken job, one logged record otherwise |
| CoordinatorObject.IngestionCoordinator.Publish | rag.cpp/src/ingestion/coordinator.cpp:420-434 | calls the backend object and is the protocol's publication step; refused if and only if the backend refuses |
| CoordinatorObject.IngestionCoordinator.EraseDocument | rag.cpp/src/ingestion/coordinator.cpp:354-367 | calls the backend object and is the protocol's deletion step |
| CoordinatorObject.IngestionCoordinator.LoadJobs | rag.cpp/src/ingestion/coordinator.cpp:65-83 | rebuilds the job map and the latest job and revision of every document from the loaded records |
| CoordinatorObject.IngestionCoordinator.SelectReady | rag.cpp/src/ingestion/coordinator.cpp:84-96 | picks for every document its ready job of the highest revision |
| CoordinatorObject.IngestionCoordinator.ReplayReady | rag.cpp/src/ingestion/coordinator.cpp:88-118 | sorts the selected jobs by revision and then id and replays them into the backend object, with exactly the outcome of the replay of that list |
| CoordinatorObject.IngestionCoordinator.ExecuteDeletion | rag.cpp/src/ingestion/coordinator.cpp:337-377 | is the steps of the protocol's thread of a deletion, from its start to its last record |
| CoordinatorObject.IngestionCoordinator.RunDeletions | rag.cpp/src/ingestion/coordinator.cpp:133-134 | executes the recovered deletions one after the other, as a run of the protocol |
| CoordinatorObject.IngestionCoordinator.Recover | rag.cpp/src/ingestion/coordinator.cpp:65-136 | succeeds if and only if the replay does; then the whole of it, the recovered deletions included, is a run of the protocol's events |
| CoordinatorObject.IngestionCoordinator.Dequeue | rag.cpp/src/ingestion/coordinator.cpp:445-458 | takes the oldest queued job, and none once stopping |
| Jobs.LatestIsLast | rag.cpp/src/ingestion/job_store.cpp:197-241 | the loaded state of a job is the record after which its id does not occur again |
| JobLog.ParseLog | rag.cpp/src/ingestion/job_store.cpp:26-57 | reading whole frames and a torn tail gives back exactly the whole frames, unless the record limit is passed |
| JobLog.ParseEnd | rag.cpp/src/ingestion/job_store.cpp:26-57 | after whole frames: damage, such as a bad checksum before the last frame, is refused whatever follows it; a last frame that is torn or does not check is left out |
| JobLog.TornIsNoDamage | rag.cpp/src/ingestion/job_store.cpp:26-57 | no proper prefix of a frame counts as damage |
| JobLog.CutSurvives | rag.cpp/src/ingestion/job_store.cpp:331-359 | every byte prefix of a log is the log of the frames that survive and a torn tail |
| JobLog.ReopenCut | rag.cpp/src/ingestion/job_store.cpp:287-317 | reopening a log cut at any byte leaves exactly its surviving frames |
| JobLog.RoundsSurvive | rag.cpp/src/ingestion/job_store.cpp:287-359 | after any number of rounds of append, cut at any byte and reopen, the file is the log of exactly the frames that survived every cut, in order; it is refused if and only if some reopening read more headers than the limit |
| Jobs.LatestHoldsLast | rag.cpp/src/ingestion/job_store.cpp:197-241 | the loaded map holds the last record of every job of the log and nothing else |
| JobLog.RoundsLoad | rag.cpp/src/ingestion/job_store.cpp:197-241 | reading such a file gives exactly the surviving records, and the map loaded from them holds the last surviving record of every job id and nothing else |
| JobStore.LoadAfterCrashes | rag.cpp/src/ingestion/job_store.cpp:197-241 | loading the file left by any such rounds lists the last surviving record of every job, oldest job first |
| JobStore.ValidPrefix | rag.cpp/src/ingestion/job_store.cpp:26-57 | the length of the intact part of any bytes, or an error for damage before the last frame |
| JobStore.LatestJobs | rag.cpp/src/ingestion/job_store.cpp:197-241 | lists the last record of every job of the intact part of any bytes once, by creation time and then id, or reports damage |
| JobStore.CutPreserves | rag.cpp/src/ingestion/job_store.cpp:371-449 | after a cut every job the log still knows has the state it had; a job it no longer knows was terminal at the cut and has no later record |
| JobStore.SelectionCuts | rag.cpp/src/ingestion/job_store.cpp:394-447 | the selected records are a legal cut: every unfinished job, some terminal ones, each as it stood |
| JobStore.Retain | rag.cpp/src/ingestion/job_store.cpp:416-435 | the kept terminal jobs fit both the count and the byte budget, newest first |
| JobStore.RetainedAll | rag.cpp/src/ingestion/job_store.cpp:416-435 | nothing is dropped while everything fits both budgets |
| JobStore.RetainedIff | rag.cpp/src/ingestion/job_store.cpp:416-435 | a finished job is kept if and only if fewer than the limit are newer and kept, and it fits beside them |
| JobStore.AllHistoryKept | rag.cpp/src/ingestion/job_store.cpp:416-435 | a cut of the kind the store makes keeps every finished job while they all fit both budgets |
| JobStore.BoundaryIff | rag.cpp/src/ingestion/job_store.cpp:380-390 | a position is a frame boundary if and only if reading the bytes before it consumes them all |
| JobStore.AppendOnlyJobStore.OpenFile | rag.cpp/src/ingestion/job_store.cpp:287-317 | for whole frames followed by a torn, unchecked or damaged end: refused if and only if there are more headers than the limit or the end is damage, such as a bad checksum before the last frame; otherwise the file then holds exactly the whole frames |
| JobStore.AppendOnlyJobStore.Persist | rag.cpp/src/ingestion/job_store.cpp:331-359 | appends exactly one frame, or refuses a record over the limit |
| JobStore.AppendOnlyJobStore.LoadLatest | rag.cpp/src/ingestion/job_store.cpp:361-364 | lists the last record of every job of the log, by creation time and then id |
| JobStore.AppendOnlyJobStore.TruncatePrefix | rag.cpp/src/ingestion/job_store.cpp:371-449 | accepts exactly frame boundaries; the tail is kept verbatim; what replaces the prefix is a legal cut in order of creation, within the retention budgets, and from below: a finished job is left out only if the count was used up or it had no room beside the newer ones kept, so all are kept while all fit |
| Dense.BuildExact | rag.cpp/src/dense/index.cpp:33-65 | accepts exactly rows with distinct non-empty keys, one dimension and normalised vectors, and keeps them |
| Dense.SearchExact | rag.cpp/src/dense/index.cpp:67-102 | the allowed rows sorted once by score descending then key ascending, cut at k; errors for a malformed query |
| Dense.MergeTiers | rag.cpp/src/dense/tiered_index.cpp:127-143 | the merged list with the first of every key kept, until k |
| Dense.MergeIsTopK | rag.cpp/src/dense/tiered_index.cpp:111-144 | merging the best k of two disjoint parts gives the best k of the whole |
| TieredIndex.WithDelta | rag.cpp/src/dense/tiered_index.cpp:26-57 | accepted exactly when tombstones lie in the base and no delta row is visible there; then the tiers are disjoint over the same base |
| TieredIndex.CompactTiers | rag.cpp/src/dense/tiered_index.cpp:59-82 | a fresh base of all live rows, nothing hidden, nothing in the delta |
| TieredIndex.SearchTiers | rag.cpp/src/dense/tiered_index.cpp:111-144 | the filtered two-tier search is one sort of everything in scope, cut at k, with the errors of a single exact search |
| Generations.AddDocument | rag.cpp/src/backend/embedded_backend.cpp:138-191 | reading one document of the build loop keeps the draft exact, and never fails for a catalog that can be built |
| Generations.SettledNext | rag.cpp/src/backend/embedded_backend.cpp:138-191 | in key order the draft's fingerprint and identity admit the next document exactly when the documents so far and it agree |
| Generations.BuildGeneration | rag.cpp/src/backend/embedded_backend.cpp:124-201 | the generation holds exactly the catalog's chunks, embedded all or none, and in its delta exactly the embedded chunks of delta documents that the old index does not show in its base; only catalogs whose fingerprints and identities settle in key order, with unique chunk keys within the limit, one dimension and the dimension of the base are built, and every such catalog of normalised vectors is |
| GenerationSafety.ReplaceKeeps | rag.cpp/src/backend/embedded_backend.cpp:203-273 | activation and deletion keep the data contract, although membership is tested against the old tombstones |
| GenerationSafety.StaysVisible | rag.cpp/src/backend/embedded_backend.cpp:184-187 | no chunk of the new documents is hidden by the new tombstones |
| GenerationSafety.CompactKeeps | rag.cpp/src/backend/embedded_backend.cpp:408-435 | a compacted or restored generation has everything in the base |
| GenerationSafety.Partition | rag.cpp/include/rag/backend/embedded_backend.hpp:29-33 | tombstones lie within the base, the visible base and the delta are disjoint, documents outside the delta set lie wholly in the base, and the two together are exactly the embedded live chunks if and only if the generation has vectors or hides its whole base |
| PartitionLimits.PartitionCanFail | rag.cpp/src/backend/embedded_backend.cpp:203-241 | a legal run that activates, compacts and activates again without vectors leaves a visible base row that nothing live embeds |
| GenerationSafety.ScanChunks | rag.cpp/src/backend/embedded_backend.cpp:308-319 | the matching chunk keys, divided exactly between the visible base and the delta |
| GenerationSafety.DenseCandidates | rag.cpp/src/backend/embedded_backend.cpp:298-321 | refused exactly for a malformed query; in every generation that keeps the contract the hits are, in scores and keys, matching live chunks under their scores, best first and then by key, at most k, and no matching live chunk left out comes before one of them; equal to one sort of all of them |
| GenerationSafety.TopIsBest | rag.cpp/src/backend/embedded_backend.cpp:298-321 | one sort cut at k is the best of the live matching chunks, said without the sort |
| Validation.Validate | rag.cpp/src/backend/embedded_backend.cpp:70-122 | accepts exactly documents whose hashes, keys, ordinals, lines and texts are right and whose embeddings are all absent or all normalised of one dimension; a dimension error means that two embeddings differ in length |
| Backend.EmbeddedBackend.Activate | rag.cpp/src/backend/embedded_backend.cpp:203-241 | the catalog changes exactly by revision arbitration, refusals and repetitions change nothing, the contract is kept, the document joins the delta and its chunks in the base are hidden; accepted if and only if the document is valid, its revision is not stale and the catalog with it can be built on the base |
| Backend.EmbeddedBackend.Erase | rag.cpp/src/backend/embedded_backend.cpp:243-273 | the catalog changes exactly by revision arbitration, the document leaves the delta and its chunks in the base are hidden; accepted if and only if the key and revision are not empty and the revision is not stale: building never fails |
| Serving.BuildableWithout | rag.cpp/src/backend/embedded_backend.cpp:243-273 | taking a document away leaves a catalog that can be built on the same base |
| Backend.EmbeddedBackend.Fetch | rag.cpp/src/backend/embedded_backend.cpp:323-354 | field by field, the chunk of the catalog under every live key asked for, in that order, with title, metadata and revision of its document, and text and embedding as asked for; the corruption errors cannot occur |
| Backend.EmbeddedBackend.BuildCompacted | rag.cpp/src/backend/embedded_backend.cpp:408-429 | for every generation a backend has made active: the same documents with everything in the base, refused if and only if the memory budget is exceeded and not overridden |
| Backend.EmbeddedBackend.PublishCompacted | rag.cpp/src/backend/embedded_backend.cpp:431-435 | published if and only if the very generation it was built from is still active; the catalog never changes |
| Backend.EmbeddedBackend.Checkpoint | rag.cpp/src/backend/embedded_backend.cpp:437-455 | every active document once under its revision, with the revision catalog |
| Backend.EmbeddedBackend.RestoreCheckpoint | rag.cpp/src/backend/embedded_backend.cpp:495-611 | a checkpoint of any catalog that a backend can have is restored to that catalog; a refused one changes nothing |
| Backend.ReadCheckpoint | rag.cpp/src/backend/embedded_backend.cpp:495-531 | accepts a checkpoint exactly as one catalog, and gives that catalog back |
| Compaction.OnlyDocumentsShow | rag.cpp/src/backend/embedded_backend.cpp:298-354 | stored chunks, dimension and exact dense answers depend on the documents alone, so compaction and restore are invisible |
| Compaction.GatherRows | rag.cpp/src/backend/embedded_backend.cpp:414-421 | exactly the live embedded chunks, each once |
| Convergence.Converges | rag.cpp/src/backend/embedded_backend.cpp:203-273 | operations with at most one per document and revision, in any order with any repeats, end with each document's highest revision and that operation's effect |
| Convergence.AnyOrder | rag.cpp/src/backend/embedded_backend.cpp:203-273 | two runs over the same operations end with the same catalog |
| BackendRuns.ApplyAll | rag.cpp/src/backend/embedded_backend.cpp:203-273 | the backend object, with compactions at any point, ends there too for compatible documents |
| BackendRuns.RunsShowWritesOnly | rag.cpp/src/backend/embedded_backend.cpp:408-435 | over every interleaving of writers and compactions the catalog is what the writers alone would have left, and every generation keeps the contract |
| BackendRuns.RunsAgree | rag.cpp/src/backend/embedded_backend.cpp:184-187 | when equal chunk keys have equal embeddings, every base row keeps its live embedding over every run |
| BackendRuns.StaleCompactionRefused | rag.cpp/src/backend/embedded_backend.cpp:431-435 | a compaction that started before a write is refused at publication, whatever happened in between |
| BackendRuns.BuildingBehind | rag.cpp/src/backend/embedded_backend.cpp:408-435 | once a writer has published, the generation a compaction started from is never active again |
| Utf8.NormalizeInput | rag.cpp/src/text/chunker.cpp:112-137 | under the reject policy exactly the ill-shaped inputs are refused; otherwise the input cleaned |
| Utf8.CleanIsShaped | rag.cpp/src/text/chunker.cpp:112-137 | normalised input is a sequence of whole scalars without carriage returns |
| Utf8.CleanKeeps | rag.cpp/src/text/chunker.cpp:112-137 | input that is already so is left as it is |
| Utf8.CleanTwice | rag.cpp/src/text/chunker.cpp:112-137 | normalising twice changes nothing more |
| Utf8.CleanFront | rag.cpp/src/text/chunker.cpp:112-137 | a line end of either kind becomes one line feed, a byte that begins no scalar becomes the replacement character |
| Utf8.CleanAlong | rag.cpp/src/text/chunker.cpp:112-137 | clean text in front of anything is kept, and what follows is cleaned by itself |
| Utf8.NextUtf8 | rag.cpp/src/text/chunker.cpp:20-35 | always moves on, by at most four bytes, and never past the end |
| ChunkSplit.SplitAt | rag.cpp/src/text/chunker.cpp:65-93 | the cut lies past the beginning and between whole scalars, prefers a sentence end, then a soft boundary, then as much as fits; the piece fits or is a single scalar |
| ChunkSplit.BestCutIs | rag.cpp/src/text/chunker.cpp:65-93 | the cut is all of the line if it fits, else the furthest sentence end that fits, else the furthest soft boundary, else as much as fits, else one scalar |
| ChunkSplit.PrefixFits | rag.cpp/src/text/chunker.cpp:43-63 | with a monotone measurer a prefix of a text that fits, fits |
| Spans.CutLines | rag.cpp/src/text/chunker.cpp:164-183 | the pieces of every line in order, each the best cut of what is left of it, under the line's number; they hold exactly what the lines of the document hold, every piece whole scalars, and lines that fit the limit are not cut |
| Spans.JoinOfLines | rag.cpp/src/text/chunker.cpp:166-183 | the lines joined are the document |
| Spans.SplitKeeps | rag.cpp/src/text/chunker.cpp:220-227 | an in-place split changes neither the cells of the document nor any span before it |
| Filling.FillWindow | rag.cpp/src/text/chunker.cpp:191-238 | the inner loop terminates, moves past its start, leaves the cells unchanged, gathers exactly the text of the spans it takes, one per line, stops exactly when it is first full, at the limit, at the line count or at the end, cuts a span only when it begins a window it does not fit, carries the headings and the context along span by span, and keeps the hard limit without heading context |
| Filling.TrimEnd | rag.cpp/src/text/chunker.cpp:239-240 | drops the trailing white space, all of it and nothing else, between whole scalars |
| Chunker.Rewind | rag.cpp/src/text/chunker.cpp:253-264 | the next window starts after the first span of this one and no later than its end; exactly as many lines back as asked for, or the fewest spans that reach the overlap in tokens |
| Chunker.ChunkDocument | rag.cpp/src/text/chunker.cpp:154-267 | terminates for every input, option and measurer. The windows are the rounds of one run over the pieces of the cleaned document: each round begins exactly where the overlap of the last one, in lines or in tokens, says, takes spans until it is first full or another of its reasons to stop holds, and carries the headings on. Window starts strictly increase without a gap to the end; every chunk's non-white text and line range are its window's, and its context is that of its round; chunks are whole scalars; and with a fair measurer and no heading context each embedding form keeps the usable limit; when no line is longer than it, no two chunks start on one line |
| Chunker.EveryCellCovered | rag.cpp/src/text/chunker.cpp:190-265 | every byte and every blank line lies in some window |
| ChunkContexts.HeadingsSoFar | rag.cpp/src/text/chunker.cpp:197-238 | the headings in hand at the start of a window are those of every text noted so far, in order |
| ChunkContexts.ContextIsFirst | rag.cpp/src/text/chunker.cpp:197-238 | the context of a window is the headings of its first span under any, or of the span it stopped before if none is, as long as no text failed to fit beside them |
| ChunkContexts.EnclosedIff | rag.cpp/src/text/chunker.cpp:197-264 | where windows take whole lines, every line is taken under the headings that enclose it in the document if and only if the lines each window goes over again leave the headings of its first line as they are |
| ChunkContexts.QuietSettles | rag.cpp/src/text/chunker.cpp:253-264 | they do where no window goes back over a heading |
| ChunkContexts.ContextEncloses | rag.cpp/src/text/chunker.cpp:197-264 | in such a run the context of a window is the headings that enclose its first line under any |
| ChunkContexts.OverlapMisplaces | rag.cpp/src/text/chunker.cpp:253-264 | a window that goes back over a heading takes its first line under the heading passed before, not under the one that encloses it |
| Preparing.PrepareChunks | rag.cpp/src/preparation/document_preparer.cpp:14-51 | refused for an empty key or content; what it makes is accepted by the backend's validation at every revision but zero if and only if no two windows of the chunker make chunks under one key, and so always when no line is longer than the limit, headings are off and keys tell start lines apart |
| Preparing.PreparedValidIff | rag.cpp/src/backend/embedded_backend.cpp:70-122 | the same as a statement about any windows the chunker may make |
| Preparing.EmbeddedValidIff | rag.cpp/src/preparation/document_preparer.cpp:53-91 | embedding with normalised vectors of one dimension does not change what validation says |
| Preparing.RepeatedLetterRefused | rag.cpp/src/text/chunker.cpp:212-227 | under every limit counted in scalars, with one span to a window, a line of one letter longer than the square of the limit makes chunks under one key, whatever windows it is cut into |
| NeighbourChoice.SelectNeighbours | rag.cpp/src/index/hnsw.cpp:334-366 | is the diverse picks followed by backfill |
| NeighbourChoice.SelectIs | rag.cpp/src/index/hnsw.cpp:334-366 | distinct candidates, as many as there are up to M, the diverse picks first |
| NeighbourChoice.DiverseIsDiverse | rag.cpp/src/index/hnsw.cpp:341-354 | no pick is nearer to an earlier pick than to the node being linked |
| NeighbourChoice.PassedOver | rag.cpp/src/index/hnsw.cpp:341-354 | a candidate passed over while there was room is covered by a pick |
| HnswSearch.SearchLayer | rag.cpp/src/index/hnsw.cpp:223-316 | terminates; at most ef distinct nodes, reachable, best first; nothing visited and left out is better than anything returned; every neighbour of a returned node was visited; and a beam as wide as the graph returns everything reachable |
| HnswSearch.Admit | rag.cpp/src/index/hnsw.cpp:288-306 | one neighbour is admitted when there is room or it beats the weakest, keeping the beam invariant |
| Hnsw.HnswIndex.Connect | rag.cpp/src/index/hnsw.cpp:404-424 | the node gets the chosen neighbours, each links back, or has a full list chosen from its old members and the node; every other list is unchanged, the graph stays well formed and no index is out of range |
| Hnsw.HnswIndex.Add | rag.cpp/src/index/hnsw.cpp:614-675 | descends from the entry layer by layer; in every shared layer, from the top down, the new node's list is chosen from what a search with the construction beam found, every chosen node links back or has a full list drawn from its old members and the new node, and no other list changes. Links stay in range, to other nodes that reach the layer, without duplicates and within 2M or M, the entry is at the top layer, one node per id is live, and exactly the former node of the id is superseded. While no list has been pruned every node is reachable from every node in the base layer |
| Hnsw.HnswIndex.LinkLayers | rag.cpp/src/index/hnsw.cpp:664-670 | links the new node into every layer it shares with the graph, from the top down, each from a search of that layer that starts at the best of the layer above; says of every list of every layer what it is afterwards |
| HnswLinks.StaysWhole | rag.cpp/src/index/hnsw.cpp:414-423 | if every node was reachable from every other in the base layer and the insertion pruned no list, that is still so |
| Hnsw.HnswIndex.DescendToBase | rag.cpp/src/index/hnsw.cpp:711-717 | ends where the greedy searches of the upper layers, one after the other from the entry, end |
| HnswLinks.FoundIsOld | rag.cpp/src/index/hnsw.cpp:653-670 | what is found while inserting reaches the layer and is never the new node |
| HnswLinks.BacklinkedOk | rag.cpp/src/index/hnsw.cpp:414-423 | a neighbour's list stays well formed when it links back |
| HnswLinks.IdsNext | rag.cpp/src/index/hnsw.cpp:621-646 | the new node is the live one of its id and every other id keeps its own |
| Hnsw.HnswIndex.Search | rag.cpp/src/index/hnsw.cpp:677-746 | the base search starts where the descent from the entry ends and has the beam asked for; the hits are the live nodes it found, the best k, best first, one per id, each the id's live node under its exact score. With a beam as wide as the graph no reachable live node is left out for a worse one; in a graph of at most 2M + 1 nodes none at all; an index of one live node returns it |
| Hnsw.HnswIndex.Remove | rag.cpp/src/index/hnsw.cpp:759-759 | marks the id deleted and changes nothing else |
| Bm25.PutPostingIs | rag.cpp/src/lexical/bm25.cpp:26-36 | a posting list stays in document order, with the new frequency and all others unchanged |
| Bm25.WeightPositive | rag.cpp/src/lexical/bm25.cpp:84-88 | the weight of a posting is positive |
| Bm25Build.DenseMirror | rag.cpp/src/lexical/bm25.cpp:53-61 | the mirror agrees with the lengths and exists exactly when ids are below twice the number of documents |
| Bm25Build.AllWeights | rag.cpp/src/lexical/bm25.cpp:63-94 | each term's span of the flat array holds the weights of its postings in order |
| LexicalIndex.Bm25Index.Add | rag.cpp/src/lexical/bm25.cpp:13-43 | for any id, new or added before: each term's frequency is that of the last text of the id that has the term, the length is that of the last text |
| Bm25Build.UniqueIndexed | rag.cpp/src/lexical/bm25.cpp:13-43 | with unique ids the index says of every term and document what the added text says |
| LexicalIndex.Bm25Index.Finalize | rag.cpp/src/lexical/bm25.cpp:45-96 | with unique ids, average length, length mirror and weights belong to the current postings |
| Bm25Search.ScoreSign | rag.cpp/src/lexical/bm25.cpp:177-298 | a score is positive exactly when the document contains a query term |
| Bm25Search.AddTerm | rag.cpp/src/lexical/bm25.cpp:207-215 | adds one term's shares and lists each touched document once |
| Bm25Search.SearchArray | rag.cpp/src/lexical/bm25.cpp:188-268 | with the precomputed weights or without them: at most k hits, best first, no document twice, each matching document under its score and none left out for a worse one |
| Bm25Search.SearchSparse | rag.cpp/src/lexical/bm25.cpp:270-298 | the hash-map path answers the same |
| Bm25Search.AnswersAgree | rag.cpp/src/lexical/bm25.cpp:187-298 | whichever path answers, the scores are the same place by place |
| Bm25Search.ScoreDoc | rag.cpp/src/lexical/bm25.cpp:150-175 | the score the searches give |
| LexicalIndex.ScoreIsReference | rag.cpp/src/lexical/bm25.cpp:150-175 | that score is the BM25 formula written out over the documents alone |
| LexicalIndex.Bm25Index.Search | rag.cpp/src/lexical/bm25.cpp:177-298 | whichever path it takes: at most k hits, best first, no document twice, each a document with a query term under BM25 written out over the added texts, and no such document left out for a worse one |
| LexicalIndex.AnswersAreBest | rag.cpp/src/lexical/bm25.cpp:177-298 | what the searches promise of the index, said of the texts |
| LexicalIndex.Bm25Index.ScoreDocument | rag.cpp/src/lexical/bm25.cpp:150-175 | equals both the index score and the reference |
| LexicalIndex.CreditTerm | rag.cpp/src/lexical/bm25.cpp:132-146 | one merge walk credits each listed document once, at the first slot that names it |
| LexicalIndex.Bm25Index.TermCoverage | rag.cpp/src/lexical/bm25.cpp:105-148 | for any candidates: the number of distinct query terms in the texts added under the id, and zero for a candidate that was listed before |
| Migration.ReadBatch | rag.cpp/src/migration/embedded_endpoint.cpp:139-152 | the records after the cursor, at most the limit, and whether that was the end |
| Migration.ReadFrom | rag.cpp/src/migration/embedded_endpoint.cpp:139-152 | a cursor finds its place again |
| Migration.ValidateRecord | rag.cpp/src/migration/contract.cpp:43-106 | accepts exactly whole records of the given identity, fingerprint and dimension |
| Migration.Audit | rag.cpp/src/migration/contract.cpp:182-221 | accepts exactly corpora of whole records prepared alike, and counts and hashes all of them; the error says whether the batch size or the corpus was at fault |
| MigrationRun.Reconcile | rag.cpp/src/migration/contract.cpp:141-178 | accepts exactly the destinations that are a source prefix, with their counts and cursor |
| MigrationStore.BuildCheckpoint | rag.cpp/src/migration/embedded_endpoint.cpp:184-191 | the checkpoint of the active documents in key order with their revisions |
| MigrationStore.SavableIff | rag.cpp/src/backend/embedded_checkpoint.cpp:23-66 | save accepts a destination if and only if the limits on counts and on every record and chunk hold and no chunk key occurs twice |
| MigrationStore.SavablePrefix | rag.cpp/src/backend/embedded_checkpoint.cpp:23-66 | what save accepts it accepts in every prefix |
| MigrationStore.LoadableIff | rag.cpp/src/backend/embedded_checkpoint.cpp:241-242 | what passes the audit can be loaded again if and only if no line range is reversed |
| MigrationRun.Open | rag.cpp/src/migration/embedded_endpoint.cpp:45-61 | no file is an empty destination; for every file it opens if and only if the file can be loaded, with the loader's error otherwise; a saved file opens if and only if it is loadable, and shows the documents that were saved |
| MigrationRun.Destination.WriteBatch | rag.cpp/src/migration/embedded_endpoint.cpp:160-198 | accepted if and only if it is for this run and corpus, no document conflicts, and save accepts the merged destination; the file is then the saved bytes, durable before the progress record; a refusal leaves both files as they were |
| MigrationRun.Destination.Finish | rag.cpp/src/migration/embedded_endpoint.cpp:200-206 | writes the completed progress record of this run only |
| MigrationRun.ExtendsWithoutConflict | rag.cpp/src/migration/embedded_endpoint.cpp:174-183 | merging the records that follow a prefix extends the prefix without conflict |
| MigrationRun.CopyBatch | rag.cpp/src/migration/contract.cpp:276-292 | one batch more, if and only if save accepts the longer prefix; refused, it stays in memory only |
| MigrationRun.CopyAll | rag.cpp/src/migration/contract.cpp:276-292 | ends with the whole source if and only if nothing was missing or save accepts all of it, and otherwise stops at the last batch boundary that could be saved |
| MigrationRun.Migrate | rag.cpp/src/migration/contract.cpp:223-306 | copies if and only if the options are in range, the source passes its audit, the destination is a source prefix, any progress record is this run's, and nothing is missing or save accepts the whole source; then it ends equal to the source with matching audits, every missing document written once in key order; a copy that may not start changes nothing, one that save stops leaves exactly the last batch boundary that could be saved; every durable state on the way is a source prefix, resumable if and only if its file is the one opened or has no reversed line range |
| MigrationLimits.RepeatedChunkRefused | rag.cpp/src/backend/embedded_checkpoint.cpp:52-58 | no audited source in which a document has two chunks with the same lines and text is saved |
| MigrationLimits.StopsMidway | rag.cpp/src/migration/contract.cpp:276-292 | an audited source that may be copied and stops after its first batch, since its second document has more metadata entries than a checkpoint may hold |
| MigrationLimits.CopiedButClosed | rag.cpp/src/backend/embedded_checkpoint.cpp:241-242 | an audited source that is copied whole and whose destination will not open |
| Reading.ReadPutStr | rag.cpp/include/rag/store/format.hpp:89-131 | a length-prefixed string is read back and the rest is left |
| Containers.Serialize | rag.cpp/src/store/container.cpp:61-94 | header, table, payloads and checksum |
| Containers.UpdateConcat | rag.cpp/src/store/container.cpp:39-50 | a checksum over parts is the checksum over the whole |
| Containers.WriteStreamed | rag.cpp/src/store/container.cpp:155-180 | the streamed file is byte for byte the serialized container |
| Containers.RangesOkIff | rag.cpp/src/store/container_layout.cpp:57-66 | the neighbour-by-neighbour check accepts exactly pairwise disjoint sections within bounds |
| ContainerLayout.ValidateLayout | rag.cpp/src/store/container_layout.cpp:13-72 | an accepted layout has the format, the checksum, distinct tags and disjoint sections within bounds; a container's own bytes are accepted exactly when the order the sort gave passes |
| ContainerLayout.AnySortPasses | rag.cpp/src/store/container_layout.cpp:53-66 | when no empty section precedes one that is not, every sort by offset passes |
| ContainerLayout.SomeSortFails | rag.cpp/src/store/container_layout.cpp:53-66 | otherwise some sort by offset is rejected as overlapping |
| ContainerLayout.OwnOrderPasses | rag.cpp/src/store/container_layout.cpp:53-66 | the table's own order, which a stable sort keeps, always passes |
| ContainerLayout.Parse | rag.cpp/src/store/container.cpp:97-117 | reads every file as the format says; gives back the container that was serialized |
| ContainerLayout.ParsedIsSound | rag.cpp/src/store/container_layout.cpp:13-72 | whatever is parsed has the format, the checksum, distinct tags and sections that do not overlap |
| CheckpointFormat.ValidateForSave | rag.cpp/src/backend/embedded_checkpoint.cpp:23-66 | accepts exactly checkpoints with consistent revisions, unique keys and sizes within the limits |
| CheckpointFormat.Save | rag.cpp/src/backend/embedded_checkpoint.cpp:70-160 | the file is the serialized container of the checkpoint's sections, or the checkpoint is refused |
| CheckpointLoad.ReadDocuments | rag.cpp/src/backend/embedded_checkpoint.cpp:184-216 | on every input exactly the rows the section encodes, or corruption; reads a saved documents section back |
| CheckpointChunks.ReadChunks | rag.cpp/src/backend/embedded_checkpoint.cpp:218-249 | on every input exactly the rows the section encodes, put into their documents, or corruption; a saved section is read back exactly when every line range is in order |
| CheckpointChunks.ReadEmbeddings | rag.cpp/src/backend/embedded_checkpoint.cpp:251-287 | on every input exactly the vectors the section encodes, or corruption; a saved section is read back exactly when dimensions agree and vectors are normalised |
| CheckpointStore.ReadRuntimeSection | rag.cpp/src/backend/embedded_checkpoint.cpp:294-348 | completes the checkpoint, on every input exactly as the section encodes it; a saved one exactly when ordinals are the chunks' places; whatever is accepted has a consistent catalog |
| CheckpointStore.Load | rag.cpp/src/backend/embedded_checkpoint.cpp:162-348 | on every file exactly the checkpoint that its sections encode, or corruption, and only from a sound container; inverts save: a saved file is loaded back if and only if line ranges, dimensions, norms and ordinals are in order |
| CheckpointStore.BackendLoads | rag.cpp/src/backend/embedded_backend.cpp:437-455 | whatever the backend checkpoints, if it can be saved, is loaded back |
| CheckpointStore.Reopen | rag.cpp/src/backend/embedded_backend.cpp:437-611 | the whole way: checkpoint, save, load and restore into a new backend that shows the same catalog |

## Left out

- PostgreSQL backend, job store and endpoint, and the connection pool: their behaviour lives in SQL.
- FAISS index, HNSW and exact sidecars: restore is modelled through the path that rebuilds the base.
- HTTP server, model client, embedding transport, configuration, both C ABIs, evaluation tools.
- JSON text, fsync, rename and mmap: an invertible codec and an atomic file replacement stand for them. A failed write is a crash.
- Float rounding, SIMD kernels, quantised codes and PQ training: scores are real numbers or arbitrary functions.
- Parallel HNSW construction, and adding after a seal.
- The legacy `Corpus` log and checkpoint.
- Consistency across one hybrid search: lexical, dense and fetch each load the generation separately.
- The lexical part of a generation, backend statistics and the maintenance thread: compaction may start at any time instead.
- The hard limit with heading context on: the breadcrumb can be filled in after the text was measured.
- ChunkContexts.ContextEncloses: speaks of windows of whole lines under headings that fit beside their text; where a line was cut to fit, the context of the window is given by the chain of its texts in `FillWindow`.
- Liveness of workers and condition variables, and waiting for a job: safety only.
- Reading a migration source's job log (`load_active`): a source is the ordered list of its records. Sampled searches after a copy, which compare equal corpora.
- Serialisation of the lexical index: the checkpoint treats it as a blob with a document count.
- Integer widths of counters that cannot be reached in practice: job counts, ordinals and line numbers are unbounded.
- CoordinatorObject.IngestionCoordinator.ReplayReady: no compaction is published between two jobs that the object replays; the protocol's own replay allows them.
- Dense.BuildExact: the index objects and their locks are values here, since every operation returns a fresh immutable index.
- OverlapRuns.LongCutCanLose: no append is refused in that machine, so one name may be as long as the offset needs; the limit on the size of a record is not part of it.
- HnswSearch.SearchLayer: heaps are sets from which the best or the weakest is taken, ties broken arbitrarily; the visited stamps are a set.
- MigrationRun.Migrate: ordered maps are lists in key order; failures of the file system and the JSON text of the progress record are left out.
- LexicalIndex.Bm25Index.Finalize: requires unique ids, as `bm25.hpp` demands of callers; a document added again with other terms keeps its old postings.
- ContainerLayout.Parse: the mapped view and the copying parser are one.
