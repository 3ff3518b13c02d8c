# Verified model of the TPT AV asset toolkit

Dafny models of the parts of the toolkit where a mistake loses or corrupts a user's work, and
machine-checked proofs about them:

* **The background job pipeline** (`JobQueue`, `Scheduler`, `PipelineState`, `PipelineInvariant`,
  `PipelineSafety`, `PipelineLiveness`, `PipelineRest`, `PipelineSchedule`, `PipelineFairness`,
  `PipelineLeads`, `ProgressTracker`, `Worker`, `LockOrder`, `LockRegions`). Any number of worker,
  submitter, canceller and stopper threads share a queue, a scheduler, a progress tracker, a running
  map and a job table. `PipelineState` is a transition system with one transition per lock
  region and a program counter per thread, so other threads may run in every gap, also in the middle
  of the sweep of `try_take`. The invariant says that what the shared state shows about a job is a
  function of where the job stands. Safety, crash consistency, bounded work and the outcome of every
  job at rest follow for every run; and every fair schedule of a pipeline that is not stopped reaches rest. `Worker` holds the program itself as methods over shared objects, with
  arbitrary interference between lock regions, and proves that it performs only those transitions.
* **Crash recovery** (`Payload`, `Jobs`, `Resubmission`, `Recovery`, `CrashRecovery`): rebuilding jobs
  from their records, the two recovery passes with every database state committed on the way, and a
  crash anywhere in a run of the pipeline followed by a recovery.
* **Byte formats** (`Bytes`, `AssetId`, `AnnexB`, `ContainerHeader`, `Pixels`, `Container`, `RowCodec`,
  `AssetTable`, `JobTable`, `CacheTable`): the cache hash and database keys, AVCC to Annex-B, the
  `.tkvp` container, the row codec, and the ordered scan over cache entries.
* **Change detection** (`Debounce`, `ChangeDetection`): the snapshot diff, the debouncer, the pump
  between them, and a consumer at the end.
* **Frame decimation** (`Decimation`): the exact number of frames a proxy keeps.

The source states a step-by-step program wherever it mutates something, and so does the model: classes
for the queue, the scheduler, the tracker, the shared pipeline, the container writer, the encoder and
decoder, the tables, the debouncer and the watcher; loops where the source loops. Each method is proved
against a function of the old state, and the properties are lemmas about those functions.

## Assumptions

* Job ids are fresh per pipeline (`Pipelines.Enabled`). Recovered jobs keep the ids of their records
  while `next_job_id` starts again at 1, so a caller who mixes the two can break this.
* Dependency edges are not persisted, and recovery resubmits every job without any, so dependency safety
  is a property of one pipeline's lifetime: a recovered job is ready for good
  (`PipelineSchedules.NeverWaits`), and runs even if its dependency is dead
  (`PipelineSchedules.RecoveredRunsRegardless`).
* Recovery runs before `start`, on a pipeline nobody submitted to: a job already submitted there has a
  Pending record and would be queued a second time.
* The clock read by the debouncer never goes back, and the watch set is fixed.
* The lossless frame codec decodes what it encodes, and the standard library reads back the doubles it
  prints (except NaN). Both are parameters with exactly that law.

## Where code and documentation disagree

The model follows the code.

* A worker is documented to exit once the pipeline is shut down *and drained*
  (`tpt-av-asset-pipeline/src/worker.rs:12`); at the head of its loop shutdown alone is enough
  (`PipelineSchedules.ExitsIff`), so it can leave a ready job queued
  (`PipelineSchedules.ReadyJobLeftQueued`).
* Any change to path, time or size is documented to change the cache hash
  (`tpt-av-asset-utils/src/asset_id.rs:84`); that holds for a change to one of them
  (`AssetIds.OneComponentChangesHash`), while changing two can collide (`AssetIds.HashCollides`), exactly
  as `AssetIds.CollisionSizeUnique` says.
* The scheduler says completion and death are mutually exclusive
  (`tpt-av-asset-pipeline/src/scheduler.rs:41`); its methods alone do not ensure that, the pipeline does
  (`Schedulers.ExclusiveUnlessRevived`, `PipelineSafety.DependencySafety`).
* The container header documents eight magic bytes (`tpt-av-asset-cache/src/container.rs:5`); only seven
  are written and checked (`ContainerHeaders.ParsedHeader`).
* `recv` says it surfaces anything still inside its window when the backend is gone
  (`tpt-av-asset-watcher/src/watcher.rs:122`); it surfaces only what is ready and drops the rest. That
  loses a new file (`ChangeDetection.ClosureLosesEvent`) or a modification, which leaves the consumer
  with the old state (`ChangeDetection.ClosureLosesModification`); the consumer is still right about
  every path and its state exactly when no dropped event would have changed what it believes or has
  seen (`ChangeDetection.ClosedRightIff`).
* `stop` promises that queued jobs stay persisted for later recovery
  (`tpt-av-asset-pipeline/src/pipeline.rs:321-322`); recovering through a pipeline that is itself shutting
  down deletes one record before its submission is refused, and that job is gone
  (`Recoveries.StoppedRecoveryLosesJob`).

## Model

| member | source | states |
|---|---|---|
| JobQueues.InsertKeepsOrder | tpt-av-asset-pipeline/src/queue.rs:37-46 | a pushed job lands behind every queued job of its priority or higher and ahead of every lower one; the order by descending priority and sequence number survives and nothing else changes |
| JobQueues.JobQueue.PartitionPoint | tpt-av-asset-pipeline/src/queue.rs:40-45 | binary search splits the vector exactly into the entries that do not dispatch after the new one and those that do |
| JobQueues.JobQueue.Push | tpt-av-asset-pipeline/src/queue.rs:37-46 | the vector becomes the ordered insertion, with the new entry behind every job of its priority or a higher one (Critical, High, Normal, Low in this order) and ahead of all others; the sequence number advances |
| JobQueues.JobQueue.PopReady | tpt-av-asset-pipeline/src/queue.rs:49-56 | removes the first entry in dispatch order that is ready, or nothing if none is; if the job is not Critical no ready Critical job was queued, if it is Normal or Low no ready High one, and if it is Low every ready one was Low |
| JobQueues.MostUrgentFirst | tpt-av-asset-pipeline/src/queue.rs:49-56 | the first entry that passes the test is of the highest priority among all that pass, priority by priority, and the oldest of its own |
| JobQueues.JobQueue.Remove | tpt-av-asset-pipeline/src/queue.rs:59-62 | removes the entry with that id, or nothing |
| JobQueues.ScanStopsEarlier | tpt-av-asset-pipeline/src/queue.rs:49-56 | a scan that stops at a job has refused every job that dispatches ahead of it |
| JobQueues.DispatchOrder | tpt-av-asset-pipeline/src/queue.rs:32-62 | over any run of pushes, pops and removals, a job that stays ready leaves before every job it dispatches ahead of: higher priority first, submission order within a priority |
| JobQueues.UrgentLeavesFirst | tpt-av-asset-utils/src/priority.rs:5-18 | the same on the priorities themselves: Critical before all others, High before Normal and Low, Normal before Low, and the older first within one |
| Schedulers.ExclusiveUnlessRevived | tpt-av-asset-pipeline/src/scheduler.rs:33-43 | after any marks a job is both completed and dead if and only if it was marked completed after it was dead: death revokes completion, not the other way round |
| Schedulers.RevivalOverlaps | tpt-av-asset-pipeline/src/scheduler.rs:33-35 | a completion reported after a death leaves a job both completed and dead |
| Schedulers.Scheduler.Register | tpt-av-asset-pipeline/src/scheduler.rs:28-30 | replaces the edges of one job and keeps the rest; the job is then ready exactly when all the given dependencies are completed, and blocked exactly when one of them is dead |
| Schedulers.Scheduler.MarkCompleted | tpt-av-asset-pipeline/src/scheduler.rs:33-35 | the job becomes completed, nothing else changes |
| Schedulers.Scheduler.MarkDead | tpt-av-asset-pipeline/src/scheduler.rs:39-43 | the job becomes dead and is no longer completed |
| Schedulers.Scheduler.Forget | tpt-av-asset-pipeline/src/scheduler.rs:63-65 | drops the edges of one job, which is then ready, and keeps the rest |
| PipelineInvariant.RunKeepsInv | tpt-av-asset-pipeline/src/pipeline.rs:164-248 | in every interleaving of submitters, cancellers, stoppers and workers the shared state shows of each job exactly what the stage of its life demands |
| PipelineSafety.ExclusiveOwnership | tpt-av-asset-pipeline/src/worker.rs:41-114 | every submitted job is in exactly one of: queued, held by one thread, finished; no two threads hold it, and `execute` was called at most once |
| PipelineSafety.NextMoves | tpt-av-asset-pipeline/src/pipeline.rs:164-248 | one lock region moves at most one job, along one edge of the life cycle, and only an accepted submission makes a job known |
| PipelineSafety.RemovedNeverRuns | tpt-av-asset-pipeline/src/pipeline.rs:219-234 | a job that `cancel` or the sweep took out of the queue is never executed in any continuation |
| PipelineSafety.DependencySafety | tpt-av-asset-pipeline/src/worker.rs:45-70 | a started job had `execute` called once for each of its dependencies and come back with success; they ended Completed, none of them dies later, and completed and dead stay disjoint |
| PipelineSafety.TransitiveDependencySafety | tpt-av-asset-pipeline/src/scheduler.rs:46-60 | the same along every path of dependencies: each ended Completed, and `execute` succeeded for it |
| PipelineSafety.BlockedNeverRuns | tpt-av-asset-pipeline/src/worker.rs:45-61 | a job with a dead dependency is not executed, now or ever, although the sweep drops and retakes its locks |
| PipelineSafety.ReturnedStep | tpt-av-asset-pipeline/src/worker.rs:86-100 | the region in which `execute` returns notes what it came back with, and no other region of any thread notes or changes an outcome |
| PipelineSafety.ReturnedStays | tpt-av-asset-pipeline/src/worker.rs:86-100 | a noted outcome is the same in every continuation |
| PipelineSafety.OutcomeDecides | tpt-av-asset-pipeline/src/worker.rs:95-112 | tracker and record of a finished job are Completed if and only if `execute` succeeded, Failed if and only if it came back with another error or panicked, and Cancelled if and only if it came back with a cancellation or was never called; the job is completed for its dependents in the first case and dead in all others |
| PipelineSafety.LifeCycleStep | tpt-av-asset-pipeline/src/progress.rs:91-105 | one transition changes tracker state and record only along Pending, Running, terminal or Pending, Cancelled |
| PipelineSafety.LifeCycle | tpt-av-asset-pipeline/src/progress.rs:91-105 | over whole runs the tracked state only moves forward and terminal states are absorbing |
| PipelineSafety.RecordLifeCycle | tpt-av-asset-db/src/job_table.rs:98-121 | over whole runs a written record stays, only moves forward, and never changes once terminal |
| PipelineSafety.CrashConsistency | tpt-av-asset-pipeline/src/pipeline.rs:54-84 | stop anywhere after a submission returned: the record exists, is not ahead of the tracker, is terminal exactly when the job is finished and then its true outcome, and is Pending only if the job never started |
| PipelineSafety.PersistFindsJob | tpt-av-asset-pipeline/src/pipeline.rs:57-66 | whenever a thread persists a job its metadata and tracker entry exist, so no write is skipped and the lookup cannot panic |
| PipelineSafety.CancelDeliveredIff | tpt-av-asset-pipeline/src/pipeline.rs:214-248 | a cancel without interference has an effect if and only if the job is queued, or published and not yet signalled |
| PipelineSafety.SignalStays | tpt-av-asset-pipeline/src/pipeline.rs:238-246 | once signalled, the token of a running job is never cleared and the job never published anew |
| PipelineSafety.OnlyCancelSignals | tpt-av-asset-pipeline/src/pipeline.rs:238-246 | a token is published clear, and no step but a `cancel` of that very job sets it |
| PipelineSafety.ShutdownAcceptsNothing | tpt-av-asset-pipeline/src/pipeline.rs:169-171 | after `stop` no run accepts another job |
| PipelineLiveness.StepUsesWork | tpt-av-asset-pipeline/src/worker.rs:41-114 | a well-founded measure falls with every region that moves a job and rises only with an accepted submission |
| PipelineLiveness.BoundedWork | tpt-av-asset-pipeline/src/worker.rs:14-31 | over any run the regions that move a job are bounded by the work at the start plus fifteen per job submitted |
| PipelineRest.TakeFindsIff | tpt-av-asset-pipeline/src/worker.rs:41-71 | `try_take` gets a job, to run or to sweep, if and only if some queued job is ready or blocked |
| PipelineRest.TakeFindsUnlessStuck | tpt-av-asset-pipeline/src/worker.rs:41-71 | while nobody holds a job, a worker gets one if and only if some queued job is blocked or its dependencies do not lead through the queue into a cycle or to an id nobody submitted |
| PipelineRest.LeftBehindIff | tpt-av-asset-pipeline/src/worker.rs:41-71 | at rest a job has not ended if and only if its dependencies lead through the queue into a cycle or to an id nobody submitted, with no assumption on any other job |
| PipelineRest.FinalOutcome | tpt-av-asset-pipeline/src/worker.rs:41-71 | job by job at rest: a stuck job is queued and never started; every other one has ended, and unless a caller cancelled it, it was run if and only if all its transitive dependencies ended Completed |
| PipelineRest.NothingLeftBehind | tpt-av-asset-pipeline/src/worker.rs:41-71 | with submitted, acyclic dependencies a non-empty queue always has work while nobody holds a job, and at rest every job has ended |
| PipelineLiveness.AstrayNeverStarts | tpt-av-asset-pipeline/src/scheduler.rs:46-60 | a job whose dependencies lead into a cycle, wherever on the way, or to an id nobody submitted, has never been started |
| PipelineLiveness.CycleNeverRuns | tpt-av-asset-pipeline/src/scheduler.rs:46-60 | a job whose dependencies lead into a cycle is not started in any continuation |
| PipelineSchedules.LeftBehind | tpt-av-asset-pipeline/src/pipeline.rs:164-201 | a run in which a job that depends on itself, or on a job nobody submitted, is still queued at rest |
| PipelineSchedules.ComesToRest | tpt-av-asset-pipeline/src/worker.rs:14-114 | without any further call and whatever the jobs end with, a pipeline that is not stopped and has a thread that can work can be run to rest |
| PipelineSchedules.Settles | tpt-av-asset-pipeline/src/worker.rs:14-114 | from every such reachable state there is a run after which every job has ended except exactly the stuck ones |
| PipelineFairness.FairReachesRest | tpt-av-asset-pipeline/src/worker.rs:14-114 | every endless schedule without submissions and without stop, in which threads in the middle of an operation go on some time and one worker keeps looking, reaches rest: no job moves any more, and exactly the stuck ones have not ended |
| PipelineSchedules.ExitsIff | tpt-av-asset-pipeline/src/worker.rs:14-71 | a worker returns if and only if it sees shutdown at the head of its loop, whatever is queued, or looks for work and sees shutdown and an empty queue; the queue stays as it is |
| PipelineSchedules.ReadyJobLeftQueued | tpt-av-asset-pipeline/src/worker.rs:12-15 | a run in which the only worker has returned while a ready job is queued |
| PipelineSchedules.SubmitRun | tpt-av-asset-pipeline/src/pipeline.rs:164-201 | an undisturbed submission registers, tracks, describes, persists and queues the job, and nothing else |
| PipelineSchedules.NeverWaits | tpt-av-asset-pipeline/src/pipeline.rs:155-157 | a job submitted without dependencies is ready and not blocked in every continuation |
| PipelineSchedules.RecoveredRunsRegardless | tpt-av-asset-pipeline/src/pipeline.rs:344-366 | a run after which a job is blocked for good by a dead dependency, and a run of a pipeline over the same records that executes that job |
| ProgressTrackers.ProgressTracker.Register | tpt-av-asset-pipeline/src/progress.rs:64-76 | one job becomes Pending with nothing done, at the current time |
| ProgressTrackers.ProgressTracker.UpdateFraction | tpt-av-asset-pipeline/src/progress.rs:79-86 | stamps a known job and never changes a state; a fraction between 0 and 1 is taken as it is, a smaller one as 0 and a larger one as 1 |
| ProgressTrackers.ProgressTracker.UpdateState | tpt-av-asset-pipeline/src/progress.rs:91-103 | changes the state of one known job and stamps it, completion saturates its fraction, unknown ids change nothing |
| ProgressTrackers.WaitFor | tpt-av-asset-pipeline/src/progress.rs:142-157 | returns exactly at the first look that shows a terminal state, with that snapshot; reports an unknown job exactly when a look misses it before |
| Wakeups.NoLostWakeup | tpt-av-asset-pipeline/src/progress.rs:142-211 | in every interleaving a sleeper whose condition holds implies some thread still owes a notify, and every wait that returned saw its job, or all jobs, Completed, Failed or Cancelled |
| Wakeups.OwedNotifyServes | tpt-av-asset-pipeline/src/progress.rs:91-105 | the notify that is owed wakes the sleeper and its next look returns |
| Workers.Shared.SubmitWithDeps | tpt-av-asset-pipeline/src/pipeline.rs:164-201 | refused without any effect after shutdown; otherwise only transitions of the model happen, and whatever other threads do in between the job ends up queued with its priority, registered with exactly the given dependencies, and Pending in tracker and database |
| Workers.Shared.Cancel | tpt-av-asset-pipeline/src/pipeline.rs:214-248 | fails without effect exactly for unknown ids; otherwise only transitions of the model happen, a job that is queued when the queue is looked at ends with tracker and record Cancelled, and any other is signalled if it is published |
| Workers.Shared.Stop | tpt-av-asset-pipeline/src/pipeline.rs:328-330 | sets shutdown by a transition of the model |
| Workers.Shared.TryTake | tpt-av-asset-pipeline/src/worker.rs:41-71 | the loop over the blocked jobs with its release and retake of the locks, and the pop, are transitions of the model: every job that was queued and blocked at the beginning has left the queue at the last region, and that region takes a ready job, or none and then none of the queued ones is ready, or sees shutdown and an empty queue |
| Workers.Shared.RunJob | tpt-av-asset-pipeline/src/worker.rs:74-114 | the job goes through its regions in order and ends as what `execute` came back with: tracker and record show Completed for success, Cancelled for a cancellation, Failed for any other error and for a panic |
| Workers.Shared.WorkerRound | tpt-av-asset-pipeline/src/worker.rs:14-31 | with shutdown set at its start the worker exits at once and changes nothing; otherwise it looks for work exactly as `TryTake` says, a job that it finds has run to its result when the round is over, and it exits only after it saw shutdown and an empty queue in one region |
| Workers.Shared.WorkerLoop | tpt-av-asset-pipeline/src/worker.rs:14-31 | a worker that has not exited has looked for work once in every round, each look over before the next; every job it found has run to the result of its round; it exits only after a shutdown |
| LockOrder.OperationLeads | tpt-av-asset-pipeline/src/pipeline.rs:54-84 | every operation, with everything nested in it, acquires locks only in the order queue, scheduler, database, submitted, running, tracker and returns all of them |
| LockOrder.PersistIsOneRegion | tpt-av-asset-pipeline/src/pipeline.rs:54-84 | a persist holds the database lock from its first action to its last |
| LockOrder.NoWaitCycle | tpt-av-asset-pipeline/src/worker.rs:41-114 | no reachable state of any number of threads has a cycle of threads waiting for each other's locks |
| LockOrder.NoDeadlock | tpt-av-asset-pipeline/src/worker.rs:41-114 | while some thread is in the middle of an operation, some thread can take its next lock action |
| LockRegions.ScriptsFollowPhases | tpt-av-asset-pipeline/src/pipeline.rs:54-248 | the lock scripts of submit, run and cancel are those of their regions, in the order of the transitions |
| LockRegions.OwnerChangesUnder | tpt-av-asset-pipeline/src/worker.rs:74-114 | a region of the owner of a job changes only shared data guarded by the locks its script acquires |
| LockRegions.TakeFollowsRegions | tpt-av-asset-pipeline/src/worker.rs:41-71 | the script of `try_take` is that of its regions: every sweep gives both locks back, persists, and takes them again |
| LockRegions.CancelFollowsRegions | tpt-av-asset-pipeline/src/pipeline.rs:214-248 | the scripts of cancelling an unknown and a running job are those of their regions |
| LockRegions.TakeChangesUnder | tpt-av-asset-pipeline/src/worker.rs:41-71 | a region of `try_take` changes only what the locks of its script guard, and persists next exactly if it swept |
| LockRegions.CancelChangesUnder | tpt-av-asset-pipeline/src/pipeline.rs:219-246 | so do the regions of `cancel` that hold no job |
| Payloads.CutAtAscii | tpt-av-asset-pipeline/src/jobs.rs:321 | cutting a UTF-8 string at an ASCII byte leaves two UTF-8 strings, so splitting bytes is splitting characters |
| Payloads.SplitJoin | tpt-av-asset-pipeline/src/jobs.rs:138-146 | the first field comes back if and only if it holds no separator, and then the rest splits as before |
| Payloads.DecimalRoundTrip | tpt-av-asset-pipeline/src/jobs.rs:336-337 | parsing undoes printing for every 32-bit number |
| Payloads.DecimalDigits | tpt-av-asset-pipeline/src/jobs.rs:138-146 | printing writes the decimal digits, most significant first and without leading zeros |
| Payloads.ParsesIff | tpt-av-asset-pipeline/src/jobs.rs:336-337 | a text reads as a 32-bit number if and only if it is its decimal behind any number of zeros and at most one plus sign |
| Jobs.PersistedKind | tpt-av-asset-pipeline/src/jobs.rs:126-290 | the kind of each job byte for byte, and its priority |
| Jobs.PersistedPayload | tpt-av-asset-pipeline/src/jobs.rs:138-300 | the fields of each payload in their order, with one byte 01 between them |
| Jobs.RebuildUndoesPayloadIff | tpt-av-asset-pipeline/src/jobs.rs:316-368 | rebuilding gives back the job that was persisted if and only if no path holds a separator, the preset is the default one and the interval prints readably |
| Jobs.RebuildIsStable | tpt-av-asset-pipeline/src/jobs.rs:316-368 | a job rebuilt from any record is rebuilt again from the record it then persists |
| Resubmissions.RebuiltTextsOk | tpt-av-asset-pipeline/src/jobs.rs:321-329 | the strings of a rebuilt job are well-formed |
| Resubmissions.ResubmitIsSound | tpt-av-asset-pipeline/src/jobs.rs:321-323 | the job and the Pending record that recovery makes of a record keep its id |
| Resubmissions.ResubmittedRecord | tpt-av-asset-pipeline/src/jobs.rs:316-368 | a record is resubmitted under its id, asset and kind, as Pending, with no progress, hint or error and the priority of its kind |
| Recoveries.Pipeline.Submit | tpt-av-asset-pipeline/src/pipeline.rs:155-201 | queues the job and, with the database attached, writes its fresh Pending record; refused exactly after shutdown |
| Recoveries.Pipeline.RecoverListed | tpt-av-asset-pipeline/src/pipeline.rs:351-363 | one pass queues exactly the jobs of its rebuildable records and rewrites exactly those, by a history of one delete and one insert for each; after shutdown it deletes one record and fails |
| Recoveries.Pipeline.RecoverInterrupted | tpt-av-asset-pipeline/src/pipeline.rs:344-366 | queues the jobs of all rebuildable Pending, then Running records; all other records stay; the history of the database from its first to its last state consists of single writes, two for each job if it is attached, and then at most one record is missing in every state of it |
| Recoveries.SecondListing | tpt-av-asset-pipeline/src/pipeline.rs:350-351 | what the first pass rewrites is not listed by the second |
| Recoveries.TableListing | tpt-av-asset-db/src/job_table.rs:156-179 | what recovery iterates over is the listing that the table decodes from its rows |
| Recoveries.RecoveredExactlyOnce | tpt-av-asset-pipeline/src/pipeline.rs:344-366 | the queued jobs have distinct ids and are exactly the jobs of the records to be recovered |
| Recoveries.RecoveredInOrder | tpt-av-asset-pipeline/src/pipeline.rs:350-351 | jobs of Pending records are queued before those of Running ones, and by ascending id within a state |
| Recoveries.StoppedRecoveryLosesJob | tpt-av-asset-pipeline/src/pipeline.rs:360-361 | a pipeline that is shutting down deletes exactly one record to be recovered, queues nothing, and fails |
| Recoveries.CrashDuringRecovery | tpt-av-asset-pipeline/src/pipeline.rs:360-361 | a crash at any point of a recovery loses at most one job; every other record still leads to the same job |
| CrashRecovery.PersistedIsWritten | tpt-av-asset-pipeline/src/pipeline.rs:54-84 | what a transition does to the state column is exactly the state of the row it persists |
| CrashRecovery.RunKeepsMirror | tpt-av-asset-pipeline/src/pipeline.rs:54-84 | along every run each job whose submission wrote its record has a row with its kind, payload, asset and priority and its recorded state |
| CrashRecovery.CrashThenRecover | tpt-av-asset-pipeline/src/pipeline.rs:344-366 | stop anywhere in any run and recover: of the restorable jobs whose submission had returned, exactly the unfinished ones are queued again, each exactly once, with the kind, asset and parameters it was submitted with |
| AssetIds.OneComponentChangesHash | tpt-av-asset-utils/src/asset_id.rs:86-95 | identities that differ in exactly one of path hash, time and size have different hashes |
| AssetIds.CollisionSizeUnique | tpt-av-asset-utils/src/asset_id.rs:86-95 | two identities share a hash if and only if the second has the one colliding size for its path and time |
| AssetIds.HashCollides | tpt-av-asset-utils/src/asset_id.rs:86-95 | a concrete collision of identities that differ in two components |
| AssetIds.ComputeHash | tpt-av-asset-utils/src/asset_id.rs:86-95 | the accumulator of the program, with its constants and shifts, computes the hash the results above speak of |
| Words64.XorBits | tpt-av-asset-utils/src/asset_id.rs:87-93 | every bit of an exclusive or is the sum of the two bits without carry |
| Words64.ShiftDivides | tpt-av-asset-utils/src/asset_id.rs:91-93 | a right shift divides by the power of two |
| AssetIds.HashPath | tpt-av-asset-utils/src/asset_id.rs:126-134 | the loop computes FNV-1a with 64-bit wrap-around |
| AssetIds.OneByteChangesPathHash | tpt-av-asset-utils/src/asset_id.rs:126-134 | paths that differ in exactly one byte have different path hashes |
| AssetIds.KeyBijection | tpt-av-asset-utils/src/asset_id.rs:99-123 | identities and 24-byte strings are in bijection; other lengths are refused |
| AssetIds.KeyLayout | tpt-av-asset-utils/src/asset_id.rs:99-105 | path hash, time and size stand in this order, and each byte is the digit of its word at its power of 256 |
| AssetIds.FillKey | tpt-av-asset-utils/src/asset_id.rs:99-105 | filling the array field by field yields the key |
| AnnexB.AvccToAnnexb | tpt-av-asset-cache/src/video.rs:268-285 | the loop computes the conversion, with its errors for truncated and empty samples |
| AnnexB.AcceptedIff | tpt-av-asset-cache/src/video.rs:268-285 | a sample is accepted if and only if it is one or more units, each behind its 4-byte length, and at most three stray bytes |
| Bytes.BigEndianWordValue | tpt-av-asset-cache/src/video.rs:272 | the four length bytes count for 256 cubed, 256 squared, 256 and 1, in this order |
| Bytes.BigEndianDigits | tpt-av-asset-cache/src/video.rs:272 | byte i of a k-byte big-endian word is the digit of the number at 256 to the power of k - 1 - i |
| AnnexB.ConvertByPrefix | tpt-av-asset-cache/src/video.rs:271-280 | one unit in terms of its four prefix bytes: it is accepted if and only if the length they spell fits and the rest is accepted, and becomes a start code and that many bytes |
| AnnexB.AcceptedByPrefix | tpt-av-asset-cache/src/video.rs:268-285 | a sample is accepted if and only if the lengths spelled by its prefix bytes lead from its start, in at least one step, to within three bytes of its end |
| AnnexB.PackConverts | tpt-av-asset-cache/src/video.rs:268-285 | such a sample becomes its units behind start codes, in order |
| AnnexB.SplitAnnexb | test-support/tpt-av-asset-test-media/src/lib.rs:297-336 | the loop computes the units of the stream |
| AnnexB.ScanUnit | test-support/tpt-av-asset-test-media/src/lib.rs:297-336 | a unit without 00 00 01 is collected unchanged up to the next start code, trailing zeros included; any other loses bytes |
| AnnexB.SkipLeading | test-support/tpt-av-asset-test-media/src/lib.rs:297-336 | what stands before the first start code is dropped |
| AnnexB.RoundTripIff | tpt-av-asset-cache/src/video.rs:268-285 | packing, converting and splitting gives back exactly the units if and only if all are non-empty and free of 00 00 01 |
| ContainerHeaders.FillBuffer | tpt-av-asset-cache/src/container.rs:121-133 | writing fields to their places in a zeroed buffer yields them in order around a zero byte 7 |
| ContainerHeaders.WriteHeader | tpt-av-asset-cache/src/container.rs:121-133 | the buffer becomes the serialised header |
| ContainerHeaders.HeaderFields | tpt-av-asset-cache/src/container.rs:121-133 | every field stands at its documented offset: the seven magic bytes, a zero byte 7, width, height, rate and count little-endian, and the bytes 1, 0, 3, 16 |
| ContainerHeaders.PositiveFiniteIff | tpt-av-asset-cache/src/container.rs:85-90 | a rate is usable if and only if, by its double, the sign is clear, the exponent is not all ones, and exponent and mantissa are not both zero |
| ContainerHeaders.HeaderRoundTrip | tpt-av-asset-cache/src/container.rs:73-133 | parsing undoes writing exactly for headers with an area and a positive finite rate, and refuses all others |
| ContainerHeaders.ParsedHeader | tpt-av-asset-cache/src/container.rs:73-101 | an accepted block is the writing of the header it parses to, except for byte 7, which is never looked at |
| Pixels.RgbaToPlanes | tpt-av-asset-cache/src/container.rs:236-266 | three colour planes in the order red, green, blue, each byte filling both bytes of its sample, zero where the buffer is short |
| Pixels.PlanesToRgba | tpt-av-asset-cache/src/container.rs:272-293 | fails exactly for a wrong number or size of planes; otherwise every pixel has the high bytes of its red, green and blue samples and is opaque |
| Pixels.PlanesRoundTrip | tpt-av-asset-cache/src/container.rs:236-293 | splitting and joining keeps every colour and makes every pixel opaque |
| Pixels.WidenedPlanesSurvive | tpt-av-asset-cache/src/container.rs:236-293 | joining and splitting keeps 16-bit planes if and only if every sample is a widened byte |
| Containers.Writer.Create | tpt-av-asset-cache/src/container.rs:152-179 | refuses exactly dimensions over 16 bits, and nothing else |
| Containers.Writer.WriteFrame | tpt-av-asset-cache/src/container.rs:196-217 | appends one encoded frame behind its length, or changes nothing when length or encoding fail |
| Containers.Writer.Finish | tpt-av-asset-cache/src/container.rs:223-231 | patches the number of frames into the header and leaves the table as it is |
| Containers.ScanFrameTable | tpt-av-asset-cache/src/container.rs:322-354 | the loop computes the entries up to the first that is cut off |
| Containers.ScanSound | tpt-av-asset-cache/src/container.rs:322-354 | for any bytes the entries are contiguous, in the file, behind their own length prefixes, and the scan stops only where the next is cut off |
| Containers.EntriesDisjoint | tpt-av-asset-cache/src/container.rs:322-354 | entries never overlap and come in file order |
| Containers.ScanWrittenIff | tpt-av-asset-cache/src/container.rs:213-214 | the scan of a written table finds every payload where it is if and only if every length fits 32 bits |
| Containers.TruncatedFile | tpt-av-asset-cache/src/container.rs:322-354 | a written file cut at any length scans to its longest prefix of complete frames |
| Containers.PayloadAt | tpt-av-asset-cache/src/container.rs:213-214 | the bytes of the i-th extent are the i-th payload |
| Containers.WrittenFileReadsBack | tpt-av-asset-cache/src/container.rs:301-354 | with a lossless codec a finished file parses, its header counts the frames modulo 2^32, and every frame decodes to what was written, made opaque |
| RowCodec.StrUndoes | tpt-av-asset-db/src/schema.rs:64-71 | a string with a 32-bit length is read back whole and the cursor stops behind it, whatever follows |
| RowCodec.U8Undoes | tpt-av-asset-db/src/schema.rs:44-46 | reading where a byte was written yields it and stops behind it, whatever follows |
| RowCodec.U16Undoes | tpt-av-asset-db/src/schema.rs:48-50 | the same for 16-bit words |
| RowCodec.U32Undoes | tpt-av-asset-db/src/schema.rs:52-54 | the same for 32-bit words |
| RowCodec.U64Undoes | tpt-av-asset-db/src/schema.rs:56-62 | the same for 64-bit words and the bits of doubles |
| Bytes.LittleEndianWordValue | tpt-av-asset-db/src/schema.rs:48-62 | the bytes of a 16-, 32- or 64-bit word count for ascending powers of 256 |
| Bytes.LittleEndianDigits | tpt-av-asset-db/src/schema.rs:48-62 | byte i of a little-endian word is the digit of the number at 256 to the power of i |
| RowCodec.BytesUndo | tpt-av-asset-db/src/schema.rs:64-67 | the same for byte strings with a 32-bit length |
| RowCodec.OptU64Undoes | tpt-av-asset-db/src/schema.rs:73-91 | the same for optional words and doubles |
| RowCodec.PresenceByte | tpt-av-asset-db/src/schema.rs:153-167 | a presence byte of 1 means that a value follows, any other byte that there is none |
| RowCodec.WordsLocal | tpt-av-asset-db/src/schema.rs:109-141 | reading inside a row does not depend on the bytes behind it |
| RowCodec.OptLocal | tpt-av-asset-db/src/schema.rs:153-167 | reading an optional value does not depend on the bytes behind the row |
| RowCodec.Enc.Bytes | tpt-av-asset-db/src/schema.rs:64-67 | appends the length cut to 32 bits and all the bytes |
| RowCodec.Dec.TakeBytes | tpt-av-asset-db/src/schema.rs:109-121 | hands out the next bytes and advances, or fails exactly when the row is too short |
| RowCodec.Dec.Str | tpt-av-asset-db/src/schema.rs:143-151 | reads a length-prefixed string, failing on a short row or malformed UTF-8 |
| RowCodec.ValidUtf8Iff | tpt-av-asset-db/src/schema.rs:143-151 | the strings that are accepted are exactly the encodings of sequences of Unicode scalar values |
| AssetTables.EncodeMediaInfo | tpt-av-asset-db/src/asset_table.rs:63-95 | the encoder calls produce the row of the record |
| AssetTables.DecodeMediaInfo | tpt-av-asset-db/src/asset_table.rs:101-155 | the decoder calls accept a row exactly when it decodes with no byte left |
| AssetTables.MediaLayout | tpt-av-asset-db/src/asset_table.rs:63-95 | a row is the three words of the identity, the framed path and name, a byte 0 to 2 for audio, video or image, and the streams behind their presence bytes, field by field |
| AssetTables.UnknownMediaType | tpt-av-asset-utils/src/media_info.rs:29-36 | no byte above 2 is a media type |
| AssetTables.MediaRoundTripIff | tpt-av-asset-db/src/asset_table.rs:63-155 | decoding undoes encoding if and only if the size repeats the size of the identity and all strings have 32-bit lengths |
| AssetTables.AcceptedRowsAreStable | tpt-av-asset-db/src/asset_table.rs:101-155 | every accepted row means a record that survives being stored again |
| AssetTables.RowIsPrefixFree | tpt-av-asset-db/src/asset_table.rs:101-155 | of the rows that begin an encoding or that it begins, only the encoding is accepted |
| JobTables.EncodeJobRow | tpt-av-asset-db/src/job_table.rs:98-110 | the encoder calls produce the row of the record with its update time refreshed |
| JobTables.DecodeJobRecord | tpt-av-asset-db/src/job_table.rs:202-230 | the decoder calls compute the record or fail |
| JobTables.JobLayout | tpt-av-asset-db/src/job_table.rs:98-121 | a row is its fields in order: key, priority byte 0 to 3 from Low to Critical, state byte 0 to 4 in the order Pending, Running, Completed, Failed, Cancelled, kind, progress, hint, payload, times and error |
| JobTables.UnknownTags | tpt-av-asset-db/src/job_table.rs:39-48 | no byte above 3 is a priority and none above 4 a state |
| JobTables.JobRoundTripIff | tpt-av-asset-db/src/job_table.rs:98-230 | decoding undoes the row encoding, up to the update time, if and only if all strings have 32-bit lengths; the update time becomes the later of its old value and now |
| JobTables.JobRowPrefixes | tpt-av-asset-db/src/job_table.rs:202-230 | anything may follow a job row, but no strict prefix of one is accepted |
| JobTables.ListingIff | tpt-av-asset-db/src/job_table.rs:156-168 | a listing succeeds if and only if every row decodes, and then shows every record once, by ascending id |
| JobTables.StoreRecord | tpt-av-asset-db/src/job_table.rs:98-121 | storing a row is storing the stamped record among the records |
| JobTables.JobTable.JobsInState | tpt-av-asset-db/src/job_table.rs:173-179 | the records of the listing in that state, in order |
| JobTables.InStateIff | tpt-av-asset-db/src/job_table.rs:173-179 | filtering by state keeps exactly the records in that state |
| JobTables.JobTable.UpsertJob | tpt-av-asset-db/src/job_table.rs:98-121 | stores the row of the stamped record under its id |
| JobTables.JobTable.GetJob | tpt-av-asset-db/src/job_table.rs:127-137 | the record of that id, nothing if there is none, and an error exactly for a corrupt row |
| JobTables.JobTable.DeleteJob | tpt-av-asset-db/src/job_table.rs:142-151 | removes that row and tells whether there was one |
| CacheTables.RangeScanIsFilter | tpt-av-asset-db/src/cache_table.rs:138-163 | with whole keys in lexicographic order, the scan that stops at the first foreign key sees exactly the rows of the asset |
| CacheTables.LessIff | tpt-av-asset-db/src/cache_table.rs:138-163 | the order of the keys is decided by the first byte that differs, and a proper prefix comes first |
| CacheTables.BareKeyEndsScan | tpt-av-asset-db/src/cache_table.rs:151-153 | a bare 24-byte key would end that scan before the asset's rows |
| CacheTables.CacheTable.ListCacheEntries | tpt-av-asset-db/src/cache_table.rs:138-163 | the loop with its early break decodes exactly the rows of the asset |
| CacheTables.CacheTable.InvalidateCaches | tpt-av-asset-db/src/cache_table.rs:171-202 | removes exactly the rows of the asset and returns their number, in any sorted table |
| CacheTables.CacheTable.RecordCacheEntry | tpt-av-asset-db/src/cache_table.rs:67-88 | stores the row of the entry in key order |
| CacheTables.CacheTable.GetCacheEntry | tpt-av-asset-db/src/cache_table.rs:113-133 | the path stored under the key, nothing if there is none, and an error exactly for a corrupt row |
| CacheTables.StoredLookup | tpt-av-asset-db/src/cache_table.rs:80-88 | storing changes the entry of one key only |
| CacheTables.WithoutLookup | tpt-av-asset-db/src/cache_table.rs:171-202 | invalidation removes the entries of the asset's keys and no other |
| CacheTables.WithoutIsComplement | tpt-av-asset-db/src/cache_table.rs:171-202 | removed and remaining rows make up the table; a second invalidation finds nothing and changes nothing |
| CacheTables.KeysOfAsset | tpt-av-asset-db/src/schema.rs:27-32 | a cache key belongs to one asset only |
| CacheTables.CacheKeyLayout | tpt-av-asset-db/src/schema.rs:27-32 | a key is the 24 bytes of the asset and a byte 0 to 3 for peaks, thumbnails, video proxy and audio proxy; no other byte is a type |
| CacheTables.ListingShowsRecorded | tpt-av-asset-db/src/cache_table.rs:138-163 | the listing of an asset succeeds and shows exactly the entries recorded for it, whatever else the table holds |
| Debouncing.EventDebouncer.Push | tpt-av-asset-watcher/src/debounce.rs:37-40 | replaces the pending event of the path, ready again one window from now |
| Debouncing.EventDebouncer.PopReady | tpt-av-asset-watcher/src/debounce.rs:43-51 | takes out an event whose window has elapsed and that has waited longest; nothing comes out exactly when every pending event was pushed less than a window ago |
| Debouncing.EventDebouncer.Flush | tpt-av-asset-watcher/src/debounce.rs:54-62 | everything pending, each once, by readiness |
| Debouncing.PushKeepsInv | tpt-av-asset-watcher/src/debounce.rs:37-40 | feeding an event keeps: surfaced events were the latest for their path and a window old, came out in order of their pushes, and the latest push of every path is pending or has come out |
| Debouncing.PopKeepsInv | tpt-av-asset-watcher/src/debounce.rs:43-51 | so does taking one out |
| Debouncing.OneFate | tpt-av-asset-watcher/src/debounce.rs:37-51 | every push is exactly one of surfaced, superseded and pending |
| Debouncing.EveryRun | tpt-av-asset-watcher/src/debounce.rs:37-62 | over any run with a clock that does not go back: one fate per push; what came out was the latest for its path and a window old; surfaced, then flushed events are in order of their pushes |
| Debouncing.FlushGoesOn | tpt-av-asset-watcher/src/debounce.rs:54-62 | nothing flushed is older than anything that surfaced before |
| Polling.Diff | tpt-av-asset-watcher/src/backend/read_dir.rs:140-156 | one event for every path that changed and no other: Deleted exactly for a path that is gone, Created for a new one, Modified for one with another state |
| ChangeDetection.StepKeeps | tpt-av-asset-watcher/src/backend/read_dir.rs:140-162 | every step of scanner, channel, debouncer and consumer keeps: the newest event on its way tells whether the path exists, and without one the consumer is right |
| ChangeDetection.QuietMeansRight | tpt-av-asset-watcher/src/watcher.rs:113-147 | over every run, once nothing is on its way the consumer believes in exactly the paths of the last snapshot and has seen the state of each |
| ChangeDetection.ComesToRest | tpt-av-asset-watcher/src/watcher.rs:113-147 | without further changes every reachable state can be run to such a rest |
| ChangeDetection.PumpedAll | tpt-av-asset-watcher/src/watcher.rs:138-147 | the pump hands the events of the channel to the debouncer in order and drops none |
| ChangeDetection.MediaWatcher.TryRecv | tpt-av-asset-watcher/src/watcher.rs:138-147 | empties the channel by steps of the pump, then lets the longest ready event out, or none exactly if every pending one is still inside its window; fails exactly when the backend is gone |
| ChangeDetection.MediaWatcher.Close | tpt-av-asset-watcher/src/watcher.rs:121-127 | with the backend gone nothing comes out if and only if every pending event is still inside its window at the clock just read; then, and only then, all of them are dropped |
| ChangeDetection.ClosedRightIff | tpt-av-asset-watcher/src/watcher.rs:121-127 | after such a loss the consumer is right about all paths and their states if and only if no dropped event would have changed what it believes or has seen |
| ChangeDetection.ClosureLosesEvent | tpt-av-asset-watcher/src/watcher.rs:121-127 | a run in which a file that appeared is never reported |
| ChangeDetection.ClosureLosesModification | tpt-av-asset-watcher/src/watcher.rs:121-127 | a run after which the consumer believes in the right paths and keeps the old state of a file |
| ChangeDetection.MediaWatcher.Recv | tpt-av-asset-watcher/src/watcher.rs:113-131 | only steps of the pump, then an event; without one after its last look it has taken as many events as it looked or the channel held, and nothing was ready at the start; it fails only with the backend gone, the channel empty and every pending event inside its window, and exactly those events are lost |
| Decimation.Decimate | tpt-av-asset-proxy/src/video_proxy.rs:46-80 | the loop keeps the frames that open a bucket at the reported rate if that is positive and at 30 frames per second otherwise, or all frames without a profile rate |
| Decimation.KeptCount | tpt-av-asset-proxy/src/video_proxy.rs:56-66 | of n frames exactly the smaller of n and floor((n-1) * target / source) + 1 are kept, for every pair of rates |
| Decimation.OneFramePerBucket | tpt-av-asset-proxy/src/video_proxy.rs:56-66 | every bucket that is reached keeps exactly one frame, the first that reaches it |
| Decimation.KeptInOrder | tpt-av-asset-proxy/src/video_proxy.rs:46-80 | the kept frames are a subsequence of the source |
| Decimation.WithinOneFrame | tpt-av-asset-proxy/src/video_proxy.rs:56-66 | a slower target keeps n * target / source of n frames to within one frame |

## Left out

- Threads, timeouts and clocks of the operating system: steps, nondeterministic scheduling and logical clocks stand for them. A wakeup of the worker's own condition variable is not modelled, because that wait is bounded and looks again.
- A nested acquisition inside one critical section is part of one transition of `PipelineState`; `LockOrder` models the single lock actions.
- `attach_db` in the middle of a run: whether a database is attached is fixed per run.
- The error text, progress fraction and times of the records the running pipeline writes: the transitions carry the state column, and `CrashRecovery` the rows beside it with these fields free.
- The 64-bit limit of job ids and of the queue's sequence number, and poisoned mutexes.
- Failing database writes: committed writes succeed and are atomic.
- Workers.Shared.WorkerLoop: runs at most as many rounds as it is given results for, because termination of the program's loop depends on a shutdown that may never come.
- ChangeDetection.MediaWatcher.Recv: looks at most `patience` times, because the program blocks for as long as nothing happens; events that arrive during a call count as arriving before or after it, while the transition system lets them arrive at any step.
- ProgressTrackers.ProgressTracker.UpdateFraction: does not notify; the notify is a step of its own in `Wakeups`, because the lock is given back before it.
- ProgressTrackers.ProgressTracker.UpdateState: does not notify, for the same reason.
- Workers.Shared.Stop: ends with the flag; joining the worker threads, and the mutex over their handles that `stop` holds meanwhile, are not part of this model, nor of `LockOrder`.
- Recoveries.Pipeline.Submit: carries the row and the queue; registration, tracker entry and metadata of a submission are those of `Workers.Shared.SubmitWithDeps`.
- ProgressTrackers.WaitFor: is told what it sees at each look, the states in between being those of `Wakeups`; `wait_for_timeout` and the periodic looks of `wait_all` differ only in the deadline.
- Recoveries.Pipeline.RecoverInterrupted: starts from decodable records; a corrupt row makes the listing fail before its pass changes anything, see `JobTables.ListingIff`.
- Jobs.RebuildIsStable: says nothing about a NaN thumbnail interval, because how a NaN prints loses its bits.
- Paths that are not UTF-8, which the program stores lossily.
- AssetTables.MediaRoundTripIff: doubles are their 64 bits, in all row and header codecs; no floating-point arithmetic is involved there.
- Decimation.Decimate: over exact reals, like `KeptCount` below.
- Decimation.OneFramePerBucket: over exact reals, like `KeptCount` below.
- Decimation.WithinOneFrame: over exact reals, like `KeptCount` below.
- Decimation.KeptCount: rates are exact reals; rounding of the quotient, and saturation of the bucket number at 64 bits, are not modelled.
- Containers.Writer.WriteFrame: the frame count wraps at 2^32 as in an optimized build; a checked build would stop there. The encoder is a function of its input.
- Overlapping watched directories, symbolic links and the scan depth limit: the snapshot is given.
- Rename events, which the polling backend never emits; the other backends, `watch` and `unwatch` while events are on their way.
- Waveform generation and `.peaks` files, thumbnails, YUV conversion, WAV headers, MP4 muxing, command line, presets beyond the two recovery uses, and deletion of cache files: input and output, or facts about one function.
