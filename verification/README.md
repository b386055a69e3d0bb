# Yori in Dafny

Yori is a single-node GPU job scheduler daemon. This project models its core and proves what that core
promises, over all inputs and over all runs.

- **Control plane.** A store of jobs and GPU leases that changes only by checked mutations, a sorted queue
  derived from it, a scheduler with GPU affinity and a bounded scan window, crash recovery, and the
  single-writer worker that ties them together. The environment is free: spawn results, identity checks,
  exits, clock readings, failing store writes, and a crash before or after any store write.
- **Codecs.** The versioned IPC payloads and stream frames, and the SQLite rows with the row-by-row write of
  a mutation.
- **Log observation.** The rotating log sink, the pump that publishes what it accepted, the bounded backlog
  with its replay plan, the follow session, and the GPU sampler with its baseline and events.

Each imperative component is a class or a method with loops (`StateStores.StateStore`,
`Queue.GlobalJobQueue`, `FifoSchedulers.FifoScheduler`, `JobRecoveries.JobRecovery`,
`ManagerWorkers.ManagerWorker`, `Codec.Writer`, `Codec.Reader`, `SqliteStateStores.SqliteStateStore`,
`LogStreamer.LogStream`, `LogSinks.LogSink`, `LogPump.StreamPump`, `FollowWorkers.LogSession`,
`GpuManagers.GpuManager`). Its methods are proved equal to functions on values, and the theorems are about
those functions: what a method returns and leaves behind is what the theorems speak of.

## Layout

| files | contents |
|---|---|
| Basics, Job, Store, StateStore, Queue | records, the mutation core, the store, the queue |
| JobChecks, StoreChecks, QueueChecks | which specifications, records, leases, mutations and snapshots are accepted, and which rule a refusal names |
| Scheduler, ScheduleRun, SchedulePolicy, QueueDivergence, FifoScheduler | choice of a device, one scheduling run, what the run should be by store and devices alone, what it says of a diverged queue, its implementation |
| Recovery, RecoverySettle, RecoveryRun, JobRecovery | the recovery plan, what a chunk does, whole recoveries, the implementation |
| Manager, ManagerSafety, ManagerSteps, ManagerRuns, ManagerExit, ManagerQueue, ManagerRevisions, ManagerTheorems, ManagerScenarios, ManagerWorker | the daemon as a transition system, its invariants, theorems over its runs, runs that reach the boundaries, and the worker |
| ManagerPolicy, ManagerPolicyRuns | what every command and event should do, field by field, and that every step of every run does it |
| Wire, WireLaws, Payload, Codec, Messages, EnvMap, Requests, Responses, InspectInfo, ResponseCodec, StreamFrames | wire formats as data, their laws, and every message |
| WireLayout, RequestLayout, ResponseLayout, FrameLayout, WireChecks | every message as bytes, exactly which messages are sent and read, and which error a malformed field gets |
| SqliteRows, SqliteTables, SqliteStore, SqliteStateStore, RowChecks, TableChecks | row codec, tables, refinement of the mutation core, every column and every answer written out |
| LogSink, LogSinkLaws, LogStreamer, LogPump, FollowSession, FollowEnd, FollowWorker, GpuManager, GpuTicks | log files, backlog and replay, the pump between them, follow sessions and how they end, GPU sampling |

## Where the code is narrower than its comments

The model follows the code. In each of these places an if-and-only-if states the exact boundary by a
condition that can be told before the call. Where it lies deep, a run or an input reaches the other side.

- `advance_replay` never counts a replay as delivered, and a stream's first chunk may begin anywhere. So the
  first live chunk closes the session with BACKPRESSURE exactly if it begins behind the start of the plan
  (`FollowSession.FirstLiveExact`): the client asked for a byte the backlog still held, or nothing was published
  yet and the file had bytes already (`FollowSession.FirstLiveOfHistory`, `LogPump.ResumedCloses`).
  `LogPump.BytesClose`, `LogPump.MarkerGoesOn` and `LogPump.ResumedInput` are inputs on either side.
- A chunk above the frame limit is counted as delivered although its frame is refused
  (`FollowSession.SentIffSmall`, `FollowSession.OversizeLeavesHole`). So what is sent has no hole exactly if no chunk
  within the limit comes behind one above it (`FollowSession.FollowIsContiguous`). The pump never publishes one
  above it (`LogPump.PumpKeeps`).
- For a job that had ended, a session with room in its buffer is closed after one cycle, with EOF exactly if no
  stream had more than sixteen chunks left to replay (`FollowWorkers.CycleEnds`); `FollowWorkers.CutShort` loses
  the seventeenth.
- REQUIRED devices are joined by commas, which a uuid may contain (`SqliteRows.SplitUndoesJoin`), and a row is
  read back exactly when it stays within the signed columns and exit ranges (`SqliteRows.RowRoundTrip`). So a
  committed mutation is loaded as the core's next state exactly when the last record written for each job is
  within these limits (`SqliteStores.CommittedDecodes`). `ManagerScenarios.CommaCommitted` is one that is not.
- An INSPECT request of version 1 is encoded but not decoded (`Requests.RequestRoundTrip`,
  `Requests.InspectRefused`), and a response can be encoded with values only the decoder refuses
  (`ResponseCodec.ResponseRoundTrip`, `ResponseCodec.StateLost`).
- A refused admission that cannot be undone leaves a waiting job that the queue lacks. That happens exactly if
  the job can be created, the queue is full, and the backend is gone for the undoing write or the creation took
  the last revision (`ManagerQueue.SubmitLoses`, `ManagerQueue.SubmitSynced`). `ManagerScenarios.EntryLostRun` and
  `ManagerScenarios.ExhaustedRun` reach the two cases; the second needs room for more jobs than a fifth of the
  revisions (`ManagerRevisions.RevisionsLast`). From then on the scheduler starts nothing
  (`ManagerPolicyRuns.LostStalls`).
- An exit or a recovery with a clock before the recorded start is refused by the store
  (`ManagerExit.ExitAccepted`, `RecoveryRuns.RecoverExact`). `ManagerScenarios.EarlyExitRun` and
  `ManagerScenarios.EarlyRecoveryRun` reach them: the job stays RUNNING, and the daemon does not come up.
- A launch failure with a clock before the start is refused too: the job stays RUNNING with its lease and nobody
  watches it (`ManagerTheorems.FailLaunchExact`, `ManagerTheorems.UnwatchedExact`, `ManagerScenarios.UnwatchedRun`).
- The branches for the late end of a finished job are refused exactly when it has ended
  (`ManagerTheorems.LateEndExact`), and no run ever takes them (`ManagerTheorems.ExitsOnlyActive`,
  `ManagerTheorems.LaunchFailsActive`).
- A job can be cancelled exactly in QUEUED, RUNNING, STOPPING and CANCELLED (`ManagerTheorems.CancelExact`), and a
  launch that cannot read the store leaves one STARTING (`ManagerScenarios.StuckStartingRun`).
- The limit of a log file is kept by counting, and a write keeps the count exact if and only if it succeeds or
  leaves nothing behind (`LogSinks.WriteCounts`). While that is so the file is bounded (`LogSinks.FileIsBounded`);
  `LogSinks.FileCanPass` is an input that passes the limit.

## Model

| member | source | states |
|---|---|---|
| `Job.CheckArguments` | src/job/job.cpp:79-91 | the running byte total accepts exactly the argument lists whose every argument and whose sum are within the limits |
| `Job.CheckLogdir` | src/job/job.cpp:23-43 | the component scan accepts exactly the relative paths without a `..` component |
| `JobChecks.SpecMeans` | src/job/job.cpp:68-188 | exactly these specifications are accepted, with every count and byte limit as a number, sums as lengths of concatenations, and device sets without repetition |
| `JobChecks.LogdirMeans` | src/job/job.cpp:23-43 | a logdir is accepted exactly if it is relative, within 4096 bytes, and no text between two slashes is `..` |
| `JobChecks.TransitionsMean` | src/job/job.cpp:47-66 | the thirteen moves a job can make, and no other |
| `JobChecks.StatesMean` | src/job/job.cpp:47-66 | a state is final exactly if no move leaves it, and every other state but QUEUED holds a device |
| `StoreChecks.ExecutionMeans` | src/store/state_store.cpp:48-108 | an execution record is accepted exactly if it breaks none of the twelve rules, each written out; else the code names the first broken one in the order of the checks |
| `StoreChecks.CreateMeans` | src/store/mutation_core.cpp:42-57 | a new job is refused with the error of the first rule it breaks, and added if it breaks none |
| `StoreChecks.UpdateMeans` | src/store/mutation_core.cpp:59-81 | an update is refused with the error of the first of six rules it breaks, and replaces the record if it breaks none |
| `StoreChecks.AcquireMeans` | src/store/mutation_core.cpp:94-115 | the same for a new lease and its five rules |
| `StoreChecks.ReleaseMeans` | src/store/mutation_core.cpp:83-92 | which releases are refused and why; an accepted one removes that lease only |
| `StoreChecks.MutationMeans` | src/store/mutation_core.cpp:26-141 | a conflict is reported exactly for another revision, and an invalid mutation exactly for none or more than 64 entries or an exhausted revision |
| `StoreChecks.MatrixMeans` | src/store/mutation_core.cpp:117-136 | the lease matrix says that each STARTING, RUNNING or STOPPING job holds exactly one device by count and every other job none |
| `StoreChecks.WholeMeans` | src/store/mutation_core.cpp:26-141 | a mutation whose entries are all accepted comes through exactly if that holds, and is refused as an invalid lease otherwise |
| `Store.ApplyKeeps` | src/store/mutation_core.cpp:26-141 | any accepted mutation, several updates of one job included, keeps the store consistent, moves records only forward, and raises each job's revision by exactly its number of updates |
| `Store.StoreHistory` | src/store/mutation_core.cpp:26-141 | over every sequence of mutations from the empty store: the lease matrix holds, revision is 0 iff QUEUED, and accepted updates equal the revision and are at most four per job |
| `Store.StoreHistoryForward` | src/store/mutation_core.cpp:59-81 | at any later point ids and specifications are kept, finished records never change, and nothing is QUEUED again |
| `Store.LoadLists` | src/store/sqlite_state_store.cpp:910-933 | a loaded snapshot lists every record exactly once by increasing id |
| `StateStores.CheckLeaseMatrix` | src/store/mutation_core.cpp:117-136 | the counting pass accepts exactly when leases and STARTING/RUNNING/STOPPING jobs are in one-to-one correspondence |
| `StateStores.ApplyEntries` | src/store/mutation_core.cpp:26-141 | editing working copies entry by entry gives the mutation's outcome, with the error of the first bad entry |
| `StateStores.WriteKeeps` | src/store/mutation_core.cpp:26-141 | whatever happens to a write (refusal, failure, crash before or after), the store is untouched or exactly one accepted mutation further |
| `StateStores.FateDecides` | src/store/sqlite_state_store.cpp:935-994 | by what happens to a write and what the core answers: whether the daemon lives, what it is told, and which store is left |
| `StateStores.StateStore.Apply` | src/store/mutation_core.cpp:26-141 | the store after a write under any fate |
| `Queue.AdmitInSync` | src/queue/job_queue.cpp:110-148 | admitting a created record keeps the queue equal to the QUEUED records in order |
| `Queue.RemoveInSync` | src/queue/job_queue.cpp:150-168 | removing a job matches any update that takes it out of QUEUED |
| `Queue.RemoveThenAdmit` | src/queue/job_queue.cpp:110-168 | removing a waiting job and admitting it again restores the exact sequence |
| `Queue.RestoreInSync` | src/queue/job_queue.cpp:170-220 | restoring succeeds exactly when the waiting jobs are no more than the capacity, and then gives each QUEUED record once, each entry with an earlier submit time than the next or the same and a smaller id |
| `Queue.InSyncMeans` | src/queue/job_queue.cpp:10-16 | a queue in step lists exactly the QUEUED records, by submit time and then id, written on the numbers |
| `QueueChecks.AdmitMeans` | src/queue/job_queue.cpp:110-140 | a job is refused with the error of the first of six rules it breaks, and admitted if it breaks none |
| `QueueChecks.RemoveMeans` | src/queue/job_queue.cpp:150-162 | which removals are refused and why |
| `QueueChecks.RestoreMeans` | src/queue/job_queue.cpp:170-220 | for every snapshot, sound or not: one without a revision that is not empty is refused, else the first fault of the first faulty record is the error, and without a fault the queue is its waiting jobs by submit time and then id |
| `Queue.QueueIsView` | src/ipc/ipc_service.cpp:440-463 | a queue in step with the store is the list clients are shown, by submit time and then id |
| `Queue.GlobalJobQueue.AdmitRecord` | src/queue/job_queue.cpp:110-148 | error and new entries of an admission; the place is found by a linear scan equal to lower_bound |
| `Queue.Bisect` | src/queue/job_queue.cpp:110-148 | on a sorted queue bisection finds that same place |
| `Queue.GlobalJobQueue.RemoveJob` | src/queue/job_queue.cpp:150-168 | error and new entries of a removal |
| `Queue.GlobalJobQueue.RestoreFrom` | src/queue/job_queue.cpp:170-220 | a refused snapshot leaves the queue as it was, an accepted one replaces it |
| `Scheduler.SelectAnySpec` | src/scheduler/scheduler.cpp:53-84 | ANY gets the lowest usable device outside all REQUIRED sets if there is one, else the lowest usable device, and the reason tells the cases apart |
| `Scheduler.ChooseSpec` | src/scheduler/scheduler.cpp:325-345 | in every mode the chosen device is FREE, unleased and the one the placement rules name; none is chosen exactly when there is none |
| `Scheduler.ChoicePermutation` | src/scheduler/scheduler.cpp:33-154 | permuting the snapshot's devices or a device set changes neither the device nor the selection reason nor the wait reason |
| `Scheduler.SelectAnyGpu` | src/scheduler/scheduler.cpp:53-84 | the best-so-far loop computes that choice |
| `Scheduler.SelectRequiredGpu` | src/scheduler/scheduler.cpp:100-115 | the loop over the set picks the lowest usable index |
| `Scheduler.RequiredWaitReason` | src/scheduler/scheduler.cpp:121-154 | the loop over the set gives, for different devices, the reason and device that `Scheduler.WaitSpec` names on the members of the set: leased before external before other states, and the observed device of lowest index |
| `Scheduler.RequiredWaitMeans` | src/scheduler/scheduler.cpp:121-154 | for different devices: a job that is not REQUIRED waits for a free device; a REQUIRED one waits as allocated if one of its devices is leased, else as external if one is used by others, else as unavailable, and names the device of lowest index among those of its set that the snapshot shows, if there is one |
| `ScheduleRuns.StartAccepted` | src/scheduler/scheduler.cpp:347-364 | the STARTING-plus-lease mutation passes every check of the store it was built from, except for exhausted leases or revisions |
| `ScheduleRuns.NoDivergence` | src/scheduler/scheduler.cpp:256-301 | a queue in step with the store is never reported as diverged |
| `ScheduleRuns.GiveBack` | src/scheduler/scheduler.cpp:357-373 | taking a job off the queue and giving it back after a failed write restores the queue and reports no error |
| `ScheduleRuns.WindowScanSpec` | src/scheduler/scheduler.cpp:309-345 | the scan takes exactly the first satisfiable entry of the window, and lists exactly the earlier ones, each with the reason and device that `Scheduler.WaitSpec` gives on the members of its device set |
| `ScheduleRuns.RunOnceSpec` | src/scheduler/scheduler.cpp:230-396 | the whole outcome of a run: NoCandidate iff no window entry is satisfiable, Scheduled iff the write is answered and there is headroom |
| `ScheduleRuns.RunOnceKeeps` | src/scheduler/scheduler.cpp:230-396 | a run changes nothing or moves one waiting job to STARTING with its lease, never diverges, and gives the queue back exactly on a failed write |
| `ScheduleRuns.RunOnceSafe` | src/scheduler/scheduler.cpp:230-396 | even with an arbitrary queue a run starts at most one waiting job on one free device |
| `SchedulePolicy.SnapshotMeans` | src/gpu/gpu_provider.cpp:5-52 | exactly these snapshots are looked at: at most 128 devices, names and indexes once each, percentages and memory within bounds |
| `SchedulePolicy.RunFollowsPolicy` | src/scheduler/scheduler.cpp:230-396 | a whole run without queue or scan: among the waiting jobs of which fewer than the window are ahead by (submit time, id), the soonest that a device can serve gets the lowest such device by index and uuid, avoiding devices that REQUIRED jobs of the window name; the record, the lease, the remaining queue, the reasons of all jobs passed over, and when nothing is done and why |
| `QueueDivergence.DivergenceMeans` | src/scheduler/scheduler.cpp:256-301 | the cross-check of any queue with any sound store: another number of entries than waiting jobs names the soonest waiting job that is missing, or the front; else the first entry that is no waiting job or has another submit time inside the window is named with its error |
| `QueueDivergence.RunDiverges` | src/scheduler/scheduler.cpp:256-301 | a run then reports exactly that and touches nothing |
| `FifoSchedulers.CheckQueue` | src/scheduler/scheduler.cpp:256-301 | the cross-check of queue and snapshot reports the first divergence |
| `FifoSchedulers.CollectAffinityTargets` | src/scheduler/scheduler.cpp:33-50 | the devices named by REQUIRED jobs of the window |
| `FifoSchedulers.ScanWindow` | src/scheduler/scheduler.cpp:309-345 | the loop finds the hit and collects the skipped entries of the scan |
| `FifoSchedulers.FifoScheduler.PlaceHit` | src/scheduler/scheduler.cpp:347-396 | queue, store and result after placing a hit, under any write fate |
| `FifoSchedulers.FifoScheduler.RunOnce` | src/scheduler/scheduler.cpp:230-396 | queue, store and result of one run |
| `Recovery.ChunksKeepPlan` | src/recovery/job_recovery.cpp:211-245 | every chunk has 1 to 64 entries, and put end to end the chunks are the plan, so no LOST update is separated from its release |
| `RecoverySettles.UpdateDistinct` | src/store/mutation_core.cpp:59-81 | updates of different jobs are accepted together exactly when each is accepted alone |
| `RecoverySettles.ChunkApplies` | src/recovery/job_recovery.cpp:118-193 | the store accepts a chunk exactly when clock and revisions allow it, and then it settles its jobs and releases their leases and changes nothing else |
| `RecoverySettles.SettleTwice` | src/recovery/job_recovery.cpp:211-245 | settling in two rounds is settling the union |
| `RecoveryRuns.WritesSettlePrefix` | src/recovery/job_recovery.cpp:211-245 | whatever happens to the writes, they settle the jobs of a prefix of the chunks and nothing else |
| `RecoveryRuns.RecoverKeeps` | src/recovery/job_recovery.cpp:195-257 | from any consistent store and any answers, recovery leaves a consistent store; a completed one has settled every job and its queue is in step |
| `RecoveryRuns.RecoverExact` | src/recovery/job_recovery.cpp:195-257 | with an answering backend recovery succeeds exactly when no start time lies after the clock, revisions remain and the waiting jobs fit |
| `RecoveryRuns.RecoveredIsRecuperated` | src/recovery/job_recovery.cpp:118-193 | after success every record is what its state, its identity and the answer about its process say: confirmed RUNNING and STOPPING jobs are untouched, the others that were active are LOST at that time for that reason with all else kept; a lease stays exactly while its job is active; the queue is in step and in order |
| `RecoveryRuns.RecoveryReports` | src/recovery/job_recovery.cpp:118-193 | whatever happens to the writes, there is one report for each job by increasing id, with its earlier state, the decision by state, identity and answer, and the lease it held exactly if it is given up |
| `RecoveryRuns.RecoveryAnswers` | src/recovery/job_recovery.cpp:195-257 | whatever happens to the writes, a recovery that lives answers what failed with the error of that alone: the load, a write, or a queue too small for the waiting jobs; only success replaces the queue |
| `RecoveryRuns.Reentrant` | src/recovery/job_recovery.cpp:195-257 | however a first recovery ended, running another gives the states, leases and queue of an uninterrupted one, up to end times |
| `RecoveryRuns.RecoveredStaysSettled` | src/recovery/job_recovery.cpp:118-193 | recovering again after success plans nothing and writes nothing |
| `JobRecoveries.FindLeaseGpu` | src/recovery/job_recovery.cpp:13-20 | the scan finds the job's lease |
| `JobRecoveries.PlanSnapshot` | src/recovery/job_recovery.cpp:118-193 | the loop gives for each job its earlier state, the decision by state, identity and answer, and the lease it held exactly if it is given up, and the plan |
| `JobRecoveries.JobRecovery.WritePlan` | src/recovery/job_recovery.cpp:211-245 | filling and flushing chunks one entry at a time writes exactly the chunks of the plan |
| `JobRecoveries.JobRecovery.Recover` | src/recovery/job_recovery.cpp:195-257 | store, queue and result of a recovery under any fates |
| `ManagerSteps.NextIdFresh` | src/runtime/job_manager.cpp:528-582 | a new id is larger than every id in use, and invalid exactly when the numbers have run out |
| `ManagerRuns.StepsSafe` | src/runtime/job_manager.cpp:284-1013 | every handler, restart and crash keeps the worker's safety invariant |
| `ManagerRuns.SpawnedAtMostOnce` | src/runtime/job_manager.cpp:684-865 | over every run from an empty store with crashes anywhere, each job's process is started at most once and a started job never waits again |
| `ManagerTheorems.SupervisedHoldLeases` | src/runtime/job_manager.cpp:284-336 | in every reachable state a supervised job not seen to exit is RUNNING, or STOPPING iff it is being cancelled, and holds exactly its recorded lease |
| `ManagerExit.ExitAccepted` | src/runtime/job_manager.cpp:908-995 | the exit of a registered process is written exactly when the clock is not before the start. The record then holds the exit if it was verified, the end time, the state by cancellation and exit code, and the text with the code or signal of the event or none; identity, start and log path stay, its lease is released and nothing else changes |
| `ManagerExit.IntTextReads` | src/runtime/job_manager.cpp:932-942 | the number in that text is written in decimal digits without a leading zero, with a minus sign exactly if it is negative |
| `ManagerTheorems.ExitAlwaysLegal` | src/runtime/job_manager.cpp:908-995 | that holds in every reachable state |
| `ManagerQueue.CreatableExact` | src/store/mutation_core.cpp:26-58 | the store accepts a new job exactly if its specification is valid, the ids have not run out, and jobs and revisions are left |
| `ManagerQueue.SubmitLoses` | src/runtime/job_manager.cpp:528-582 | a submit reports a failed undo if and only if the job can be created, the queue is full, and the backend is gone for the undoing write or the creation took the last revision |
| `ManagerQueue.SubmitSynced` | src/runtime/job_manager.cpp:528-582 | a submit leaves queue and store in step if and only if it does not meet that condition |
| `ManagerQueue.StepsSynced` | src/runtime/job_manager.cpp:284-1013 | every run keeps queue and store in step while no such entry was lost since the last restart |
| `ManagerQueue.QueueAlwaysInStep` | src/queue/job_queue.cpp:110-220 | from an empty store the queue is then exactly the QUEUED records by (submit time, id), the numbers compared, as shown to clients |
| `ManagerTheorems.SchedulerNeverDiverges` | src/scheduler/scheduler.cpp:256-301 | in those states no scheduling run reports a diverged queue or a failed rollback |
| `ManagerTheorems.RestartNeverPromotes` | src/recovery/job_recovery.cpp:118-193 | no restart ever promotes a STARTING job to RUNNING |
| `ManagerRevisions.StepsKept` | src/runtime/job_manager.cpp:284-1013 | whatever property of the store every write of the worker keeps, every run keeps, with crashes and restarts anywhere |
| `ManagerRevisions.RevisionBound` | src/store/mutation_core.cpp:26-141 | over every run from an empty store the revision is at most five per job, and the jobs stay within their limit |
| `ManagerRevisions.RevisionsLast` | src/runtime/job_manager.cpp:528-582 | with a job limit of at most a fifth of the revisions none ever runs out, and a submit loses an entry exactly if the queue is full and the backend is gone for the undoing write |
| `ManagerRevisions.ColumnLasts` | src/store/sqlite_state_store.cpp:935-994 | with a job limit of at most a fifth of what the revision column holds, the SQLite store refuses no mutation for its revision in any state a run can reach |
| `ManagerTheorems.CancelExact` | src/runtime/job_manager.cpp:583-653 | in every safe world the answer to a cancel and the state it leaves, and that it succeeds if and only if the job is QUEUED, RUNNING, STOPPING or CANCELLED |
| `ManagerTheorems.FailLaunchExact` | src/runtime/job_manager.cpp:869-893 | a failed launch makes its STARTING or RUNNING job FAILED and releases its lease exactly if the failure is not before the recorded start and its reason is a proper text; otherwise nothing changes |
| `ManagerTheorems.LaunchFailsActive` | src/runtime/job_manager.cpp:728-865 | whatever happens to the RUNNING write, the job of a launch that goes wrong is STARTING or RUNNING and holds its lease |
| `ManagerTheorems.UnwatchedExact` | src/runtime/job_manager.cpp:728-893 | when a started process cannot be watched, its job ends exactly if the failure is not timed before the start; else it stays RUNNING with its lease, unsupervised |
| `ManagerTheorems.ExitsOnlyActive` | src/runtime/job_manager.cpp:908-995 | in every reachable state a registered process belongs to a RUNNING or STOPPING job |
| `ManagerTheorems.LateEndExact` | src/runtime/job_manager.cpp:869-995 | a launch failure or exit is refused as an invalid revision if and only if its job has ended, and no refusal changes the store |
| `ManagerScenarios.EntryLostRun` | src/runtime/job_manager.cpp:528-582 | a run that loses an entry because the backend is gone: the store keeps a waiting job the queue lacks |
| `ManagerScenarios.ExhaustedRun` | src/runtime/job_manager.cpp:528-582 | a run that uses up the revisions and loses an entry although the backend answers |
| `ManagerScenarios.StuckStartingRun` | src/runtime/job_manager.cpp:583-865 | a run that leaves a job STARTING, where cancelling fails with an invalid execution record |
| `ManagerScenarios.UnwatchedRun` | src/runtime/job_manager.cpp:728-893 | a run that leaves a job RUNNING with its lease and nobody watching |
| `ManagerScenarios.EarlyExitRun` | src/runtime/job_manager.cpp:908-995 | a run whose exit is timed before the start: the job stays RUNNING with its lease and its process is forgotten |
| `ManagerScenarios.EarlyRecoveryRun` | src/recovery/job_recovery.cpp:195-257 | a run with a crash whose recovery is timed before the start: the daemon does not come up |
| `ManagerScenarios.CommaCommitted` | src/store/sqlite_state_store.cpp:815-835 | a creation with a comma in a REQUIRED device that is committed and loaded as something else |
| `ManagerPolicy.SubmitMeans` | src/runtime/job_manager.cpp:528-582 | a submission, whatever happens to its two writes: the new number and record, which refusal is answered, when the job waits in its place in the queue, and what the undo leaves and answers |
| `ManagerPolicy.CancelMeans` | src/runtime/job_manager.cpp:583-653 | a cancellation by the state of the job, whatever happens to its write: record, queue, supervision and reply |
| `ManagerPolicy.AskedMeans` | src/runtime/job_manager.cpp:655-678 | what a supervisor asked to stop answers, and that it is terminating afterwards exactly if it was or was alive and the signal went out |
| `ManagerPolicy.BeginMeans` | src/runtime/job_manager.cpp:655-678 | only the asked process is marked as being cancelled, and it is terminating exactly if it was alive and the signal went out |
| `ManagerPolicy.LaunchMeans` | src/runtime/job_manager.cpp:728-893 | a launch, whatever happens to its writes: when the job is RUNNING with this identity, start and log path and is watched with its device, and when it is FAILED with the first 4096 bytes of the reason and its device is free |
| `ManagerPolicy.RewriteMissing` | src/runtime/job_manager.cpp:498-522 | a job the store does not hold is not rewritten |
| `ManagerPolicyRuns.ExitMeans` | src/runtime/job_manager.cpp:908-995 | the exit of a watched process, whatever happens to its write: record, lease, pid table, and that it is watched on exactly until its output is drained |
| `ManagerPolicyRuns.ExitIgnored` | src/runtime/job_manager.cpp:908-995 | the exit of a process nobody watches leaves at most its pid forgotten |
| `ManagerPolicyRuns.PumpMeans` | src/runtime/job_manager.cpp:997-1013 | a drained job is watched on exactly until its process has exited |
| `ManagerPolicyRuns.ScheduleMeans` | src/runtime/job_manager.cpp:684-726 | a scheduling round is a run that follows the policy, then the launch of the job it started, and nothing else |
| `ManagerPolicyRuns.StartMeans` | src/runtime/job_manager.cpp:284-336 | a restart that comes up has recovered every job, queues the waiting ones in order, and watches exactly the RUNNING and STOPPING jobs whose process could be taken over, with the device each holds; a STOPPING one is signalled again, and a pid leads to the last job that had it |
| `ManagerPolicyRuns.EveryStepObeys` | src/runtime/job_manager.cpp:284-1013 | in every run from an empty store that has lost no queue entry, the next command, event, crash or restart does exactly that |
| `ManagerPolicyRuns.LostStalls` | src/scheduler/scheduler.cpp:256-301 | after a submission that loses its entry every scheduling run names that job as missing and starts nothing |
| `ManagerWorkers.NoConflict` | src/runtime/job_manager.cpp:498-522 | a mutation built on the current revision never conflicts, so the retry loop writes once |
| `ManagerWorkers.ManagerWorker.RewriteJob` | src/runtime/job_manager.cpp:498-522 | the bounded retry loop is a single load, compose and write |
| `ManagerWorkers.ManagerWorker.ProcessSubmit` | src/runtime/job_manager.cpp:528-582 | store, queue, supervision and reply of a submit, its undo included |
| `ManagerWorkers.ManagerWorker.ProcessCancel` | src/runtime/job_manager.cpp:583-653 | the same for a cancel in every job state |
| `ManagerWorkers.ManagerWorker.Begin` | src/runtime/job_manager.cpp:655-678 | what cancelling does to the supervision of a process |
| `ManagerWorkers.ManagerWorker.FailLaunch` | src/runtime/job_manager.cpp:869-893 | the state after recording a launch failure in one write, whether the store takes it or not |
| `ManagerWorkers.ManagerWorker.LaunchScheduled` | src/runtime/job_manager.cpp:728-865 | the state after a launch, for every point at which it can fail |
| `ManagerWorkers.ManagerWorker.ScheduleNow` | src/runtime/job_manager.cpp:684-726 | the state after a scheduling round and the launch it leads to |
| `ManagerWorkers.ManagerWorker.ProcessExit` | src/runtime/job_manager.cpp:908-995 | the state after an exit event, known process or not; for a watched process record, lease, pid table and supervision field by field |
| `ManagerWorkers.ManagerWorker.DrainPumpDone` | src/runtime/job_manager.cpp:997-1013 | the state after a log pump has finished |
| `ManagerWorkers.ManagerWorker.ArmRecovery` | src/runtime/job_manager.cpp:284-336 | the loop that takes over every process a recovery confirmed |
| `WireLaws.Canonical` | src/ipc/ipc_protocol.cpp:74-206 | for every format, whatever bytes are accepted are exactly the encoding of what was decoded |
| `WireLaws.RoundTrip` | src/ipc/ipc_protocol.cpp:13-68 | for every format, a fitting value is encoded, and decoded again wherever its bytes stand |
| `WireLaws.Cut` | src/ipc/ipc_protocol.cpp:74-206 | for every format, cutting an accepted field anywhere reads as truncated |
| `WireLaws.Local` | src/ipc/ipc_protocol.cpp:74-206 | decoding a field depends on nothing behind it |
| `WireLaws.EncodedFits` | src/ipc/ipc_protocol.cpp:216-544 | of what the encoder accepts, the decoder can produce exactly what passes the checks only it makes |
| `WireChecks.TextReads` | src/ipc/ipc_protocol.cpp:127-144 | a text is refused as too long above 64 KiB, as truncated exactly if its length or its bytes are cut, and as a bad string exactly if it is complete and holds a NUL |
| `WireChecks.ListReads` | src/ipc/ipc_protocol.cpp:179-187 | a list above its limit is refused for its count before any item is read |
| `WireChecks.RecordReads` | src/ipc/ipc_protocol.cpp:546-1158 | a refused record is refused for its first field that cannot be read where the ones before it end |
| `WireChecks.ResponsesInvalid` | src/ipc/ipc_protocol.cpp:724-1158 | in every response a value out of range is refused as an invalid value |
| `WireChecks.RequestsInvalid` | src/ipc/ipc_protocol.cpp:546-722 | the same for every request |
| `WireChecks.DataReads` | src/ipc/ipc_protocol.cpp:1249-1267 | the data of a frame is refused for its size above 256 KiB once it is complete |
| `Payloads.PayloadCanonical` | src/ipc/ipc_protocol.cpp:1163-1180 | an accepted payload is exactly what the encoder writes for what was decoded, in every version |
| `Payloads.PayloadCut` | src/ipc/ipc_protocol.cpp:1460-1480 | every strict prefix of an accepted payload is truncated |
| `Payloads.PayloadExtended` | src/ipc/ipc_protocol.cpp:1460-1480 | every extension within the size limit has trailing bytes |
| `Codec.Writer.Write` | src/ipc/ipc_protocol.cpp:13-68 | appends the encoding of a value or reports that there is none |
| `Codec.Reader.ReadField` | src/ipc/ipc_protocol.cpp:74-206 | reads any field, moves its offset exactly past it, and never indexes outside the data |
| `Codec.ReadPayload` | src/ipc/ipc_protocol.cpp:546-560 | the value or error of a whole payload |
| `Codec.AppendFrame` | src/ipc/ipc_protocol.cpp:1438-1458 | a frame is the length prefix and the payload; a refused message leaves the output as it was |
| `Codec.FrameSplits` | src/ipc/ipc_protocol.cpp:1438-1458 | the first frame of a byte stream gives back its payload and leaves the rest |
| `EnvMaps.EmplaceAllSpec` | src/ipc/ipc_protocol.cpp:546-722 | the environment map built from wire pairs holds, in strictly increasing name order, exactly the first binding of every name |
| `EnvMaps.SortedIffSame` | src/ipc/ipc_protocol.cpp:546-722 | building the map changes nothing exactly if the pairs were sorted and distinct |
| `Requests.ListedCanonical` | src/ipc/ipc_protocol.cpp:546-722 | every accepted request with its pairs as listed encodes to the accepted bytes |
| `Requests.RequestCanonical` | src/ipc/ipc_protocol.cpp:546-722 | every accepted request can be encoded again, and gives the accepted bytes exactly unless it is a SUBMIT with unsorted or repeated pairs; which requests those are `RequestLayout.OnlyRequestsRead` says |
| `Requests.RequestRoundTrip` | src/ipc/ipc_protocol.cpp:216-316 | every encoded request is decoded again, except INSPECT of version 1, which is refused; which requests are encoded `RequestLayout.RequestLaidOut` says |
| `Requests.InspectRefused` | src/ipc/ipc_protocol.cpp:216-722 | an INSPECT of version 1 is encoded and refused as a bad kind |
| `Requests.RequestDelimited` | src/ipc/ipc_protocol.cpp:546-722 | requests are self-delimiting |
| `RequestLayout.RequestLaidOut` | src/ipc/ipc_protocol.cpp:216-316 | a request is sent if and only if its version is 1 to 4 and carries its fields, its counts, lengths and numbers are within the limits written out, and it is at most one mebibyte; then as exactly these bytes, from version and kind number to the last field |
| `RequestLayout.RequestRead` | src/ipc/ipc_protocol.cpp:546-722 | those bytes are read as that request, and refused as a bad kind exactly for an INSPECT of version 1 |
| `RequestLayout.OnlyRequestsRead` | src/ipc/ipc_protocol.cpp:546-722 | no other payload is accepted |
| `RequestLayout.RequestHeader` | src/ipc/ipc_protocol.cpp:546-560 | which payloads are refused for their size or their first two bytes, and how |
| `ResponseCodec.ResponseCanonical` | src/ipc/ipc_protocol.cpp:724-1158 | every accepted response of every kind and version encodes to the accepted bytes |
| `ResponseCodec.ResponseRoundTrip` | src/ipc/ipc_protocol.cpp:318-544 | an encoded response comes back if and only if it meets the decoder's extra checks and holds nothing its version does not carry |
| `ResponseCodec.StateLost` | src/ipc/ipc_protocol.cpp:318-1158 | a CANCEL response with a state that does not exist is encoded and does not come back |
| `ResponseCodec.DecodedTransmissible` | src/ipc/ipc_protocol.cpp:724-1158 | every decoded response meets that condition |
| `ResponseCodec.ResponseDelimited` | src/ipc/ipc_protocol.cpp:724-1158 | responses are self-delimiting |
| `ResponseLayout.ResponseLaidOut` | src/ipc/ipc_protocol.cpp:318-544 | the same for every response: sent if and only if within these limits, as exactly these bytes |
| `ResponseLayout.ResponseRead` | src/ipc/ipc_protocol.cpp:724-1158 | those bytes are read as that response if and only if its codes, percentages and counts are within the numbers the receiver knows and it holds nothing its version does not carry |
| `ResponseLayout.OnlyResponsesRead` | src/ipc/ipc_protocol.cpp:724-1158 | no other payload is accepted |
| `ResponseLayout.ResponseHeader` | src/ipc/ipc_protocol.cpp:724-760 | which payloads are refused for their size or their first two bytes, and how |
| `StreamFrames.FrameCanonical` | src/ipc/ipc_protocol.cpp:1231-1318 | every accepted stream frame encodes to the accepted bytes |
| `StreamFrames.FrameRoundTrip` | src/ipc/ipc_protocol.cpp:1187-1229 | every encoded frame is decoded again |
| `StreamFrames.FrameDelimited` | src/ipc/ipc_protocol.cpp:1231-1318 | frames are self-delimiting |
| `FrameLayout.FrameLaidOut` | src/ipc/ipc_protocol.cpp:1187-1229 | the same for every stream frame |
| `FrameLayout.FrameRead` | src/ipc/ipc_protocol.cpp:1231-1318 | those bytes are read as that frame |
| `FrameLayout.OnlyFramesRead` | src/ipc/ipc_protocol.cpp:1231-1318 | no other payload is accepted |
| `FrameLayout.FrameHeader` | src/ipc/ipc_protocol.cpp:1231-1260 | which payloads are refused for their size or their first two bytes, and how |
| `SqliteRows.StringsRoundTrip` | src/store/sqlite_state_store.cpp:145-199 | a list within the item limit is read back |
| `SqliteRows.StringsCanonical` | src/store/sqlite_state_store.cpp:178-199 | an accepted blob is exactly the encoding of what was read |
| `SqliteRows.SplitUndoesJoin` | src/store/sqlite_state_store.cpp:815-835 | splitting the joined devices gives them back if and only if none contains a comma |
| `SqliteRows.RowRoundTrip` | src/store/sqlite_state_store.cpp:776-879 | a consistent record is read back from its row if and only if it is within the signed columns, the exit ranges and has comma-free REQUIRED devices |
| `RowChecks.ListRead` | src/store/sqlite_state_store.cpp:167-199 | a blob is read exactly if it is a count of at most 512 and that many texts behind their lengths, and as these texts |
| `RowChecks.RowMeans` | src/store/sqlite_state_store.cpp:776-879 | the row of a job column by column: state and reason numbers, flags, signed columns, byte layout of the lists, mode texts and the devices joined by commas |
| `RowChecks.RowReads` | src/store/sqlite_state_store.cpp:503-706 | for every row: it is refused with the error of the first of five groups of rules it breaks, each with its numbers, and read as its columns say if it breaks none |
| `SqliteTables.InsertRowsHold` | src/store/sqlite_state_store.cpp:889-899 | inserting accepted leases never violates lease uniqueness |
| `TableChecks.InsertMeans` | src/store/sqlite_state_store.cpp:889-899 | a lease row is refused exactly if its device or its job has one already |
| `SqliteTables.PutRowsFor` | src/store/sqlite_state_store.cpp:776-879 | writing records one by one, in any number and with repetitions, leaves for each job the row of its last record, and all other rows as readable as they were |
| `SqliteStores.WritesStore` | src/store/sqlite_state_store.cpp:965-994 | writing an accepted mutation in order never fails on uniqueness, and the tables then store exactly the core's next state |
| `SqliteStores.StoredDecodes` | src/store/sqlite_state_store.cpp:765-774 | tables that store a state are loaded as that state if and only if every written job is within the limits of its row |
| `SqliteStores.ApplyRefines` | src/store/sqlite_state_store.cpp:935-994 | on readable tables with a backend that answers, the transaction does what the mutation core does, with the same refusals, plus a refusal of revisions beyond the column |
| `SqliteStores.CommittedDecodes` | src/store/sqlite_state_store.cpp:765-774 | what was committed is loaded again as the core's next state if and only if the last record written for each job is within the limits of its row |
| `SqliteStores.CommitsExactly` | src/store/sqlite_state_store.cpp:935-994 | whichever statement fails, the transaction commits if and only if none does and the core accepts with a revision the column can hold; otherwise the tables are as before |
| `SqliteStores.CommitsAsCore` | src/store/sqlite_state_store.cpp:935-994 | while the column has room for one more revision, the transaction commits if and only if no statement fails and the core accepts |
| `TableChecks.LoadMeans` | src/store/sqlite_state_store.cpp:503-774 | what a load answers for any tables: a revision that does not exist, the error of the unreadable row with the smallest key, leases that do not correspond to the jobs by count, or the state |
| `TableChecks.WriteMeans` | src/store/sqlite_state_store.cpp:935-994 | the error of a transaction whichever statement fails, in the order of its steps; an error leaves the tables as they were |
| `SqliteStateStores.ReadStrings` | src/store/sqlite_state_store.cpp:178-199 | the cursor loop accepts and returns exactly the list encoded in the blob |
| `SqliteStateStores.SplitText` | src/store/sqlite_state_store.cpp:503-706 | the loop splits at every comma |
| `SqliteStateStores.SqliteStateStore.Load` | src/store/sqlite_state_store.cpp:910-933 | all rows by key, or the error of the first unreadable one |
| `SqliteStateStores.SqliteStateStore.WriteStatements` | src/store/sqlite_state_store.cpp:965-994 | the loops over creates, updates, releases and acquires write the mutation exactly if no statement fails |
| `SqliteStateStores.SqliteStateStore.Apply` | src/store/sqlite_state_store.cpp:935-994 | tables and result of one transaction, with the rows written in place and rolled back after a failure at any statement |
| `LogStreamer.TrimKeeps` | src/runtime/log_streamer.cpp:16-23 | trimming keeps a suffix, never the empty one, with its byte count exact and within budget unless one chunk is left |
| `LogStreamer.PublishAllKeeps` | src/runtime/log_streamer.cpp:106-128 | after any publications the backlog is a contiguous suffix of what was accepted, ends at the offset, and its byte count is its size |
| `LogStreamer.WindowNeverEmpty` | src/runtime/log_streamer.cpp:130-160 | the branch for an empty window is never taken |
| `LogStreamer.PlanKeeps` | src/runtime/log_streamer.cpp:130-160 | start is since plus gap; the chunks are consecutive, begin at or before the start and end at the offset; a gap means the whole backlog is replayed |
| `LogStreamer.ReplayedBytes` | src/runtime/log_streamer.cpp:130-160 | the replayed bytes are the end of all published bytes, from the first chunk's begin to the offset |
| `LogStreamer.AnyReplay` | src/runtime/log_streamer.cpp:226-287 | all of this after any history of publications |
| `LogStreamer.MarkerTells` | src/observe/log_sink.cpp:118-121 | the number in a marker is the number of bytes dropped, in decimal digits without a leading zero |
| `LogStreamer.StartsBeforeEnd` | src/runtime/log_streamer.cpp:130-160 | a plan starts before the end of the stream if and only if the client asks for a byte the backlog still holds |
| `LogStreamer.MarkerOnly` | src/runtime/log_streamer.cpp:16-160 | a marker can push the last bytes out of the backlog, and the plan is then the marker alone |
| `LogStreamer.LogStream.TrimBacklog` | src/runtime/log_streamer.cpp:16-23 | the loop trims the backlog and its byte count |
| `LogStreamer.LogStream.PublishLocked` | src/runtime/log_streamer.cpp:106-128 | a chunk that does not continue the stream is refused and changes nothing |
| `LogStreamer.LogStream.PlanLocked` | src/runtime/log_streamer.cpp:130-160 | the loops compute the plan |
| `LogSinks.AppendAccounts` | src/observe/log_sink.cpp:291-347 | on an open stream accepted plus dropped is the input size, the offset grows by what was accepted, drops are owed a marker, and success means nothing was dropped; a closed stream takes nothing |
| `LogSinkLaws.WriteMeans` | src/observe/log_sink.cpp:29-43 | a write adds to the current file the text, or a part of it when it fails, and counts only success |
| `LogSinkLaws.OpenMeans` | src/observe/log_sink.cpp:205-232 | opening takes up the current file where it is, creates it if there is none, and changes no content |
| `LogSinkLaws.MarkedMeans` | src/observe/log_sink.cpp:300-309 | a marker is written exactly if drops are owed one, counts for the file and not for the offset, and settles them exactly if it succeeds |
| `LogSinkLaws.AppendLocal` | src/observe/log_sink.cpp:291-345 | what an append comes to depends on the answers to the calls it makes and on nothing else |
| `LogSinkLaws.RotatedExactly` | src/observe/log_sink.cpp:311-335 | without failures an append reports a rotation exactly if the file cannot hold all of it |
| `LogSinkLaws.ConfigMeans` | src/observe/log_sink.cpp:123-129 | the limits of a configuration in numbers |
| `LogSinks.AppendBounded` | src/observe/log_sink.cpp:291-347 | the counted bytes of the current file pass its limit by at most one marker |
| `LogSinks.AcceptedIsBounded` | src/observe/log_sink.cpp:291-347 | an append that accepts anything leaves the counted bytes within the limit, however many they were before |
| `LogSinks.RunAccounts` | src/observe/log_sink.cpp:291-347 | accounting and the bound on counted bytes over any run with any I/O failures |
| `LogSinks.WriteCounts` | src/observe/log_sink.cpp:322-347 | a write keeps the counted bytes equal to the file's size if and only if it succeeds or leaves nothing behind |
| `LogSinks.FileIsBounded` | src/observe/log_sink.cpp:291-347 | over any run whose failed writes leave nothing behind, every byte of the file is counted, and the file itself passes its limit by at most one marker |
| `LogSinks.FileCanPass` | src/observe/log_sink.cpp:322-347 | two failed writes that each leave a byte behind take the file past its limit while the count stays below it |
| `LogSinks.RotateContent` | src/observe/log_sink.cpp:227-257 | a rotation without failures keeps everything but the oldest file |
| `LogSinks.AppendKeeps` | src/observe/log_sink.cpp:291-347 | without failures an append accepts everything and the files hold the end of all that was written, marker first |
| `LogSinks.KeptSuffix` | src/observe/log_sink.cpp:227-257 | the files .h to .1 and current are everything written, or a suffix of it of at least h times the file limit |
| `LogSinks.FreshRun` | src/observe/log_sink.cpp:201-347 | that holds after any run without I/O failures from an empty directory |
| `LogSinks.LogSink.OpenStream` | src/observe/log_sink.cpp:201-225 | opening resumes at the size of the existing file |
| `LogSinks.LogSink.RotateStream` | src/observe/log_sink.cpp:227-257 | renames, reopening and the kept logical offset, for every failing call |
| `LogSinks.LogSink.Append` | src/observe/log_sink.cpp:291-347 | the terminating loop of rotations and writes with its result |
| `LogPump.PumpKeeps` | src/runtime/log_pump.cpp:187-225 | over any reads and any I/O failures the published chunks grow by exactly one for each publication, every chunk fits a frame, and the stream ends at the sink's logical offset |
| `LogPump.ComingChained` | src/runtime/log_pump.cpp:187-225 | what the pump publishes after a client came continues, in order and within the frame limit, where the stream stood |
| `LogPump.FollowPumped` | src/runtime/job_manager.cpp:160-177 | end to end, with replayed and live chunks taken from the pump: what is read in any pieces before and after the client came is sent to it in one piece, whatever the queue takes |
| `LogPump.BytesClose` | src/runtime/log_follow_service.cpp:252-318 | a client that replays bytes is closed by the first live chunk |
| `LogPump.MarkerGoesOn` | src/runtime/log_follow_service.cpp:252-318 | when a marker has pushed these bytes out, the same client goes on live |
| `LogPump.ResumedCloses` | src/observe/log_sink.cpp:201-225 | when nothing was published before the client came, the first chunk the pump publishes closes the session if and only if the file had bytes of an earlier life |
| `LogPump.ResumedInput` | src/runtime/log_streamer.cpp:106-128 | a file of a hundred bytes: the chunk from 100 to 101 closes the session |
| `LogPump.StreamPump.PumpStream` | src/runtime/log_pump.cpp:187-225 | sink, stream and what was published after one read |
| `FollowSession.FollowIsContiguous` | src/runtime/log_follow_service.cpp:225-318 | for every interleaving, every pattern of queue rejections and chunks of any size: what the session counts has no hole and no repetition, what it sends is that within the frame limit, and it has no hole if and only if no chunk within the limit comes behind one above it |
| `FollowSession.AnyPlanFits` | src/runtime/log_streamer.cpp:351-367 | the plan and the offset taken together at subscription fit each other, whatever was published |
| `FollowSession.FollowAnything` | src/runtime/log_follow_service.cpp:225-318 | end to end: the same whatever was published and wherever the client starts |
| `FollowSession.FollowAllSmall` | src/runtime/log_follow_service.cpp:225-318 | when all chunks of a stream are within the frame limit, all that is counted is sent, in one piece |
| `FollowSession.FedIsChained` | src/runtime/log_streamer.cpp:106-128 | a run is fed in order if and only if the chunks of each stream come one behind the other, however the streams interleave |
| `FollowSession.RejectedLeavesHole` | src/runtime/log_streamer.cpp:106-128 | rejecting a chunk with bytes leaves a hole at its begin |
| `FollowSession.ReplayLeavesHole` | src/runtime/log_follow_service.cpp:252-270 | so does a replay, which never counts as delivered |
| `FollowSession.FirstLiveExact` | src/runtime/log_follow_service.cpp:252-318 | after any replay, the first live chunk, data or marker, closes the session with BACKPRESSURE if and only if it begins behind the plan's start, and is sent if and only if it begins there and fits a frame |
| `FollowSession.FirstLiveOfHistory` | src/runtime/log_follow_service.cpp:252-318 | for every history, either stream and any run before: it closes the session if and only if the client asked for a byte the backlog still held, or nothing was published and the chunk begins after 0 |
| `FollowSession.NothingBehindHole` | src/runtime/log_follow_service.cpp:272-318 | whatever happens after a hole, no byte behind it is counted or sent live |
| `FollowSession.HoleCloses` | src/runtime/log_follow_service.cpp:303-308 | the first chunk behind a hole yields BACKPRESSURE at its offset and closes the session |
| `FollowSession.SentIffSmall` | src/ipc/ipc_protocol.cpp:1187-1229 | a chunk at the right place is sent if and only if it is within the frame limit |
| `FollowSession.OversizeLeavesHole` | src/runtime/log_follow_service.cpp:309-316 | a larger one is skipped in silence, and what follows leaves a hole in what was sent |
| `FollowEnd.FollowEndsOnce` | src/runtime/log_follow_service.cpp:225-341 | in every session at most one closing frame is queued, behind all data; an EOF carries a state and an exit with which the end of the job was announced to it |
| `FollowEnd.EofSays` | src/runtime/log_follow_service.cpp:320-341 | the end of the job closes an open session with an EOF of that state and exit and changes nothing in a closed one |
| `FollowEnd.TopicCloses` | src/runtime/log_streamer.cpp:208-310 | over every run the topic is closed exactly if the end of the job was published or the job unregistered |
| `FollowEnd.HungCloses` | src/runtime/log_follow_service.cpp:281-291 | a session that finds the topic closed and nothing left is closed without a frame |
| `FollowWorkers.LogSession.ReplayStream` | src/runtime/log_follow_service.cpp:252-270 | at most sixteen chunks per cycle and none once the buffer is full, as replay steps of the protocol, and why it stopped |
| `FollowWorkers.LogSession.AdvanceLive` | src/runtime/log_follow_service.cpp:272-318 | the drain loop as steps of the protocol, and why it stopped |
| `FollowWorkers.LogSession.Advance` | src/runtime/log_follow_service.cpp:244-250 | one cycle is a run of the protocol's steps, the bytes going out are the frames', and for a job that had ended it ends as `FollowWorkers.CycleEnds` says |
| `FollowWorkers.CycleEnds` | src/runtime/log_follow_service.cpp:244-291 | for a job that had ended and an empty queue: after a cycle EOF is queued if and only if the replay is done, the session is closed without EOF if and only if it is not and there is room in the buffer, and with room EOF is queued if and only if no stream had more than sixteen chunks left |
| `FollowWorkers.ManyFrames` | src/runtime/log_follow_service.cpp:252-270 | replaying some chunks of the plan hands over exactly their frames, in order |
| `FollowWorkers.CutShort` | src/runtime/log_follow_service.cpp:244-291 | under the default configuration, a replay of seventeen chunks is closed after sixteen, without EOF |
| `FollowWorkers.LogSession.Flush` | src/runtime/log_follow_service.cpp:343-363 | a flush hands over everything pending or drops the session; what the socket has then taken is the answer and every frame, in order |
| `GpuManagers.ChangedExact` | src/runtime/gpu_manager.cpp:24-38 | the list names exactly the devices whose presence or state differs |
| `GpuManagers.ChangedOnce` | src/runtime/gpu_manager.cpp:24-38 | it names each once, new and changed ones in order and then the lost ones in order |
| `GpuManagers.UnchangedIsSame` | src/runtime/gpu_manager.cpp:24-38 | it is empty if and only if the states are equal |
| `GpuManagers.StatesHold` | src/runtime/gpu_manager.cpp:15-21 | for a valid snapshot the map records every device's own state |
| `GpuManagers.SampleAnnounces` | src/runtime/gpu_manager.cpp:248-317 | an established baseline changes only together with a taken event that lists exactly the differences, and no other taken event lists devices |
| `GpuManagers.NoSilentChange` | src/runtime/gpu_manager.cpp:248-317 | over any ticks and rejections, a device whose baseline state changed was named by a taken event |
| `GpuManagers.TickCatchesUp` | src/runtime/gpu_manager.cpp:293-317 | a tick whose event is taken brings the baseline up to the snapshot |
| `GpuManagers.FlagIsExact` | src/runtime/gpu_manager.cpp:193-205 | over any ticks, an event says that earlier ones were dropped if and only if one was rejected since the last taken one |
| `GpuManagers.StreaksAlternate` | src/runtime/gpu_manager.cpp:220-245 | over any ticks, starts and ends of error streaks alternate, and a streak is open exactly while failures are counted |
| `GpuManagers.FromTheStart` | src/runtime/gpu_manager.cpp:193-245 | both hold from the start of the daemon over any ticks |
| `GpuTicks.TickMeans` | src/runtime/gpu_manager.cpp:193-317 | every tick, whatever answers it gets: streak, last error, baseline, and the notices tried, in order and with their flags |
| `GpuTicks.StreakCounts` | src/runtime/gpu_manager.cpp:219-246 | from the start of the daemon over any ticks the streak counts the failures since the last success, and the last error is that of the last of them or none |
| `GpuTicks.StatesMirror` | src/runtime/gpu_manager.cpp:15-21 | the state map holds exactly the devices of a snapshot, each with the state of its first entry |
| `GpuManagers.BuildStateMap` | src/runtime/gpu_manager.cpp:15-21 | the emplace loop keeps the first device of every uuid |
| `GpuManagers.DiffStates` | src/runtime/gpu_manager.cpp:24-38 | the two loops collect the list |
| `GpuManagers.GpuManager.SendEvent` | src/runtime/gpu_manager.cpp:193-205 | the flag of the event and the pending mark after an accepted or rejected event |
| `GpuManagers.GpuManager.SampleOnce` | src/runtime/gpu_manager.cpp:248-317 | the manager's state after a tick, for every answer it can get |

## Left out

- Programs, sockets and I/O: argument parsing, printing, the UDS server and client, poll, deadlines.
- Processes: fork, signals, /proc and waitpid; spawn results, identity checks and exits are inputs of the model.
- NVML and the dynamic loading of SQLite: a snapshot is an input, tables are maps with commit or rollback, and reading them does not fail half way.
- The executor library: its channels are bounded queues that take or reject, its tasks run one at a time.
- Environment capture and launch planning: preparing a launch succeeds or fails as the environment decides.
- IPC service answers, authorisation and masking, to_string tables, statistics counters and log messages.
- Texts of launch failures: they are inputs of the model, clipped as the code clips them.
- The grace timer of a cancellation: only the request to stop and its effect on supervision are modelled.
- Retries of `rewrite_job` after a conflict: with one writer there is none, as `ManagerWorkers.NoConflict` shows.
- Session limits, registration and finishing of jobs in the log streamer: bookkeeping of one map.
- Closing the log sink and file ownership: an open that fails for any reason is one failed call.
- The second stream of the log sink: both streams run the same code on their own files.
- Write deadlines and the removal of finished follow sessions: a flush succeeds or fails as the environment decides.
- Listeners that wake other workers after an event or a publication.
- Wrap-around of byte counters in the log sink and streamer: offsets are mathematical integers there.
- LogSinks.RunAccounts: assumes that the bytes ever dropped stay below two to the 64, so that a marker's number has at most twenty digits.
- LogSinks.FileIsBounded: the same assumption.
- The pump's reads: end of file, errors of read and the draining after an exit.
- FollowSession.FollowIsContiguous: complete delivery is not claimed, since EOF may follow a rejected last chunk. Offsets are below two to the 64, as their type is.
- LogPump.FollowPumped: assumes that a stream's offset stays below two to the 64, the width of a frame's offset.
- ManagerQueue.SubmitLoses: the last revision is that of the mutation core; the SQLite column ends at half of it, which `SqliteStores.CommitsExactly` states and `ManagerRevisions.ColumnLasts` shows out of reach for a fitting job limit.
- ManagerExit.ExitAccepted: assumes that a revision is left and that the exit code and signal are machine words.
- ManagerPolicyRuns.EveryStepObeys: for runs that have lost no queue entry since the last restart, and for exit codes and signals that are machine words; `ManagerPolicyRuns.LostStalls` says what follows a lost entry.
- SchedulePolicy.RunFollowsPolicy: for a queue in step with the store; `QueueDivergence.RunDiverges` is about any other.
- LogSinkLaws.RotatedExactly: for appends without I/O failures.
