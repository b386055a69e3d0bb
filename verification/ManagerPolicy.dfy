/** What every command and event does to the daemon, field by field and whatever happens to its writes: the
    record, the lease, the queue, the supervised process and the reply (job_manager.cpp). */
module ManagerPolicy {
  import opened Basics
  import opened Job
  import opened Store
  import opened Queue
  import opened StateStores
  import opened Scheduler
  import opened ScheduleRuns
  import opened RecoveryRuns
  import opened Manager
  import opened ManagerSafety
  import opened ManagerQueue
  import Steps = ManagerSteps
  import Exits = ManagerExit

  // ---- One write ----

  predicate Outlives(env: RewriteEnv) {
    !env.loadOk || env.fate == Answered || env.fate == Unavailable
  }

  /** The answer of a store that would refuse the write with `refusal`. */
  function Answer(env: RewriteEnv, refusal: Option<StoreError>): Option<StoreError> {
    if !env.loadOk || env.fate == Unavailable then Some(BackendUnavailable) else refusal
  }

  predicate Lands(env: RewriteEnv, refusal: Option<StoreError>) {
    env.loadOk && refusal == None && (env.fate == Answered || env.fate == CrashAfter)
  }

  /** What became of a write of `next`. */
  predicate Came(s: StoreState, next: StoreState, env: RewriteEnv, refusal: Option<StoreError>, w: Written) {
    && (w.alive <==> Outlives(env)) && (w.alive ==> w.code == Answer(env, refusal))
    && w.store == if Lands(env, refusal) then next else s
  }

  lemma RewriteComes(s: StoreState, config: StoreConfig, id: JobId, compose: StoredJob -> Change, env: RewriteEnv,
                     refusal: Option<StoreError>, next: StoreState)
    requires id in s.jobs
    requires ApplyMutation(s, config, ChangeMutation(s.revision, compose(s.jobs[id]))) ==
      if refusal == None then Ok(next) else Err(refusal.value)
    ensures Came(s, next, env, refusal, Rewrite(s, config, id, compose, env))
  {
    FateDecides(s, config, ChangeMutation(s.revision, compose(s.jobs[id])), env.fate, refusal, next);
  }

  /** A job that the store does not hold is not rewritten. */
  lemma RewriteMissing(s: StoreState, config: StoreConfig, id: JobId, compose: StoredJob -> Change, env: RewriteEnv)
    requires id !in s.jobs
    ensures Rewrite(s, config, id, compose, env) ==
      Written(s, Some(if env.loadOk then JobNotFound else BackendUnavailable), true)
  {
  }

  // ---- Records ----

  predicate SameJob(before: StoredJob, after: StoredJob) {
    after.id == before.id && after.spec == before.spec && after.revision == before.revision + 1
  }

  predicate Moved(before: StoredJob, after: StoredJob, state: JobState) {
    SameJob(before, after) && after.state == state && after.execution == before.execution
  }

  predicate Launched(before: StoredJob, after: StoredJob, identity: ProcessIdentity, started: Time, logPath: string) {
    && SameJob(before, after) && after.state == JobState.Running
    && after.execution.identity == identity && after.execution.startTime == Some(started)
    && after.execution.logPath == Some(logPath) && after.execution.endTime == before.execution.endTime
    && after.execution.exit == before.execution.exit
    && after.execution.failureReason == before.execution.failureReason
  }

  /** The text kept of a failure: its first 4096 bytes. */
  function Kept(reason: string): string {
    if |reason| > 4096 then reason[..4096] else reason
  }

  predicate Broken(before: StoredJob, after: StoredJob, reason: string, now: Time) {
    && SameJob(before, after) && after.state == JobState.Failed
    && after.execution.failureReason == Some(Kept(reason)) && after.execution.endTime == Some(now)
    && after.execution.identity == before.execution.identity
    && after.execution.startTime == before.execution.startTime
    && after.execution.logPath == before.execution.logPath && after.execution.exit == before.execution.exit
  }

  /** `t` is `s` with another record for `id` and without the leases of `freed`. */
  predicate Replaced(s: StoreState, t: StoreState, id: JobId, freed: set<Uuid>) {
    id in s.jobs && id in t.jobs && t == StoreState(s.jobs[id := t.jobs[id]], s.leases - freed, s.revision + 1)
  }

  // ---- Submit ----

  /** The record of a new job: the number after the largest, waiting, never executed. */
  predicate NewJob(jobs: Jobs, spec: JobSpec, record: StoredJob) {
    && record.spec == spec && record.state == JobState.Queued && record.revision == 0
    && record.execution == Execution(ProcessIdentity(0, 0, 0), None, None, None, None, None)
    && NextNumber(jobs, record.id)
  }

  predicate Added(s: StoreState, t: StoreState, spec: JobSpec, id: JobId) {
    && id !in s.jobs && id in t.jobs && t.jobs[id].id == id && NewJob(s.jobs, spec, t.jobs[id])
    && t == StoreState(s.jobs[id := t.jobs[id]], s.leases, s.revision + 1)
  }

  /** What the store has against a new job. */
  function SubmitRefusal(config: StoreConfig, s: StoreState, spec: JobSpec): Option<StoreError> {
    if s.revision == 0xFFFF_FFFF_FFFF_FFFF then Some(InvalidMutation)
    else if !ValidSpec(spec) || 0xFFFF_FFFF_FFFF_FFFF in s.jobs then Some(InvalidJob)
    else if |s.jobs| >= config.maxJobs then Some(StoreError.CapacityExceeded)
    else None
  }

  lemma LastId(ids: seq<JobId>)
    requires U64_MAX !in ids
    ensures After64(ids) == 1 || After64(ids) - 1 in ids
  {
    if ids != [] {
      assert ids[|ids| - 1] in ids;
    }
  }

  lemma NextIdFollows(jobs: Jobs)
    requires U64_MAX !in jobs
    ensures NextId(jobs) == 1 || NextId(jobs) - 1 in jobs
  {
    LastId(InOrder(jobs.Keys));
  }

  /** The number comes after all others, next to the largest. */
  predicate NextNumber(jobs: Jobs, id: JobId) {
    (forall other :: other in jobs ==> other < id) && (id == 1 || id - 1 in jobs)
  }

  lemma NumberFollows(jobs: Jobs)
    requires JobsSound(jobs)
    ensures NextId(jobs) !in jobs && (ValidId(NextId(jobs)) <==> U64_MAX !in jobs)
    ensures U64_MAX !in jobs ==> NextNumber(jobs, NextId(jobs))
  {
    Steps.NextIdFresh(jobs);
    if U64_MAX !in jobs {
      NextIdFollows(jobs);
    }
  }

  lemma OneJobAnswers(jobs: Jobs, record: StoredJob, maxJobs: nat)
    requires record.id !in jobs && record.state == JobState.Queued && record.revision == 0
    requires record.execution == NO_EXECUTION
    ensures CreateJob(jobs, record, maxJobs) ==
      if !ValidId(record.id) || !ValidSpec(record.spec) then Err(InvalidJob)
      else if |jobs| >= maxJobs then Err(StoreError.CapacityExceeded)
      else Ok(jobs[record.id := record])
  {
  }

  lemma CreateAnswers(config: StoreConfig, s: StoreState, spec: JobSpec)
    requires Consistent(s)
    ensures var record := NewRecord(NextId(s.jobs), spec);
      var refusal := SubmitRefusal(config, s, spec);
      ApplyMutation(s, config, CreateMutation(s, record)) ==
         if refusal == None then Ok(StoreState(s.jobs[record.id := record], s.leases, s.revision + 1))
         else Err(refusal.value)
  {
    var record := NewRecord(NextId(s.jobs), spec);
    NumberFollows(s.jobs);
    OneJobAnswers(s.jobs, record, config.maxJobs);
    CreateMutates(s, config, record);
  }

  lemma CreateMutates(s: StoreState, config: StoreConfig, record: StoredJob)
    requires Consistent(s) && record.id !in s.jobs && record.state == JobState.Queued
    ensures var created := CreateJob(s.jobs, record, config.maxJobs);
      ApplyMutation(s, config, CreateMutation(s, record)) ==
      if s.revision == U64_MAX then Err(InvalidMutation)
      else if created.Err? then Err(created.error)
      else Ok(StoreState(created.value, s.leases, s.revision + 1))
  {
    Steps.OneCreated(s.jobs, record, config.maxJobs);
    Steps.CreatedMatrix(s.jobs, s.leases, record);
  }

  /** The queue refuses the new job for want of room, and the job is cancelled again. */
  predicate TurnedAway(w: World, t: StoreState, id: JobId, rollback: Fate, d: Daemon, reply: SubmitReply)
    requires id in t.jobs
  {
    var env := RewriteEnv(true, rollback);
    var refusal := if t.revision == 0xFFFF_FFFF_FFFF_FFFF then Some(InvalidMutation) else None;
    && (d.Up? <==> Outlives(env))
    && (if Lands(env, refusal) then
          Replaced(t, StoreAt(d), id, {}) && Moved(t.jobs[id], StoreAt(d).jobs[id], JobState.Cancelled)
        else StoreAt(d) == t)
    && (d.Up? ==> d.world == w.(store := d.world.store)
                  && reply == QueueRejected(QueueCapacityExceeded, Answer(env, refusal)))
    && (d.Down? ==> d.spawned == w.spawned && reply == NoSubmitReply)
  }

  function StoreAt(d: Daemon): StoreState {
    match d
    case Up(w) => w.store
    case Down(s, _) => s
  }

  /** The new job is waiting, in its place. */
  ghost predicate Admitted(w: World, t: StoreState, id: JobId, d: Daemon, reply: SubmitReply) {
    && d.Up? && reply == Submitted(id) && d.world == w.(store := t, queue := d.world.queue)
    && WaitingInOrder(d.world.queue, t.jobs)
  }

  /** The whole of a submission; `t` is the store with the new job `id`. */
  ghost predicate SubmitObeys(config: SchedulerConfig, w: World, spec: JobSpec, env: SubmitEnv, t: StoreState,
                              id: JobId, d: Daemon, reply: SubmitReply) {
    var write := RewriteEnv(env.loadOk, env.create);
    var refusal := SubmitRefusal(config.store, w.store, spec);
    && (Lands(write, refusal) ==> Added(w.store, t, spec, id))
    && (if !Outlives(write) then
          reply == NoSubmitReply && d == Down(if Lands(write, refusal) then t else w.store, w.spawned)
        else if Answer(write, refusal) != None then
          reply == SubmitFailed(Answer(write, refusal).value) && d == Up(w)
        else if |w.queue| < config.capacity then Admitted(w, t, id, d, reply)
        else id in t.jobs && TurnedAway(w, t, id, env.rollback, d, reply))
  }

  lemma UndoAnswers(t: StoreState, config: StoreConfig, record: StoredJob, rollback: Fate)
    requires Consistent(t) && record.id in t.jobs && t.jobs[record.id] == record && record.state == JobState.Queued
    requires record.execution == NO_EXECUTION
    ensures var refusal := if t.revision == 0xFFFF_FFFF_FFFF_FFFF then Some(InvalidMutation) else None;
      Came(t, StoreState(t.jobs[record.id := ToCancelled(record).update], t.leases, t.revision + 1),
           RewriteEnv(true, rollback), refusal,
           Write(t, config, ChangeMutation(t.revision, ToCancelled(record)), rollback))
  {
    assert ConsistentRecord(record.id, record);
    SoleUpdate(t, config, ToCancelled(record).update);
    FateDecides(t, config, ChangeMutation(t.revision, ToCancelled(record)), rollback,
                if t.revision == 0xFFFF_FFFF_FFFF_FFFF then Some(InvalidMutation) else None,
                StoreState(t.jobs[record.id := ToCancelled(record).update], t.leases, t.revision + 1));
  }

  lemma AdmitObeys(config: SchedulerConfig, w: World, t: StoreState, record: StoredJob, rollback: Fate)
    requires Consistent(w.store) && Synced(w.queue, w.store, config.capacity) && Consistent(t)
    requires Steps.Created(w.store, t, record) && record.state == JobState.Queued && record.execution == NO_EXECUTION
    ensures var r := AdmitCreated(config, w.(store := t), record, rollback);
      if |w.queue| < config.capacity then Admitted(w, t, record.id, r.0, r.1)
      else TurnedAway(w, t, record.id, rollback, r.0, r.1)
  {
    assert ConsistentRecord(record.id, t.jobs[record.id]);
    OnlyFullRefuses(w.queue, w.store.jobs, record, config.capacity);
    if |w.queue| < config.capacity {
      AdmittedSynced(w.queue, w.store, t, record, config.capacity);
      InSyncMeans(Insert(w.queue, EntryOf(record)), t.jobs);
    } else {
      FullRefusal(w.queue, w.store.jobs, record, config.capacity);
      UndoAnswers(t, config.store, record, rollback);
      assert t.leases - {} == t.leases;
    }
  }

  lemma FullRefusal(queue: seq<QueueEntry>, jobs: Jobs, record: StoredJob, capacity: nat)
    requires InSync(queue, jobs) && record.id !in jobs && record.state.Queued?
    requires ConsistentRecord(record.id, record) && |queue| >= capacity
    ensures AdmitError(queue, capacity, record) == Some(QueueCapacityExceeded)
  {
    forall i | 0 <= i < |queue| ensures queue[i].job != record.id {
      assert queue[i] in queue;
    }
  }

  lemma CreateComes(config: StoreConfig, s: StoreState, spec: JobSpec, fate: Fate)
    requires Consistent(s)
    ensures var record := NewRecord(NextId(s.jobs), spec);
      var refusal := SubmitRefusal(config, s, spec);
      var t := StoreState(s.jobs[record.id := record], s.leases, s.revision + 1);
      && Came(s, t, RewriteEnv(true, fate), refusal, Write(s, config, CreateMutation(s, record), fate))
      && (refusal == None ==> Added(s, t, spec, record.id) && Consistent(t))
  {
    var record := NewRecord(NextId(s.jobs), spec);
    CreateAnswers(config, s, spec);
    NumberFollows(s.jobs);
    FateDecides(s, config, CreateMutation(s, record), fate, SubmitRefusal(config, s, spec),
                StoreState(s.jobs[record.id := record], s.leases, s.revision + 1));
    if SubmitRefusal(config, s, spec) == None {
      ApplyKeeps(s, config, CreateMutation(s, record));
    }
  }

  /** A submission whose creation does not come through. */
  lemma SubmitFails(config: SchedulerConfig, w: World, spec: JobSpec, env: SubmitEnv, t: StoreState, id: JobId,
                    created: Written)
    requires created == Write(w.store, config.store, CreateMutation(w.store, NewRecord(NextId(w.store.jobs), spec)),
                              env.create)
    requires Came(w.store, t, RewriteEnv(true, env.create), SubmitRefusal(config.store, w.store, spec), created)
    requires SubmitRefusal(config.store, w.store, spec) == None ==> Added(w.store, t, spec, id)
    requires env.loadOk ==> !created.alive || created.code != None
    ensures var r := Submit(config, w, spec, env); SubmitObeys(config, w, spec, env, t, id, r.0, r.1)
  {
  }

  /** Every submission, whatever happens to its writes. */
  lemma SubmitMeans(config: SchedulerConfig, w: World, spec: JobSpec, env: SubmitEnv)
    returns (t: StoreState, id: JobId)
    requires Consistent(w.store) && Synced(w.queue, w.store, config.capacity)
    ensures var r := Submit(config, w, spec, env); SubmitObeys(config, w, spec, env, t, id, r.0, r.1)
  {
    var record := NewRecord(NextId(w.store.jobs), spec);
    id := record.id;
    t := StoreState(w.store.jobs[id := record], w.store.leases, w.store.revision + 1);
    CreateComes(config.store, w.store, spec, env.create);
    var created := Write(w.store, config.store, CreateMutation(w.store, record), env.create);
    if env.loadOk && created.alive && created.code == None {
      AdmitObeys(config, w, t, record, env.rollback);
    } else {
      SubmitFails(config, w, spec, env, t, id, created);
    }
  }

  // ---- Cancel ----

  /** Asked to stop: a living process is signalled, and its exit will end the job as cancelled. */
  predicate Signalled(before: Supervised, after: Supervised, signalOk: bool) {
    if before.phase == Phase.Idle || before.phase == Gone then after == before
    else
      && after.cancelling && after.phase == (if before.phase == Alive && signalOk then Terminating else before.phase)
      && after.gpu == before.gpu && after.adopted == before.adopted && after.exited == before.exited
      && after.pumpDone == before.pumpDone
  }

  predicate OnlySignalled(before: SupervisedJobs, after: SupervisedJobs, id: JobId, signalOk: bool) {
    && after.Keys == before.Keys && (forall j :: j in before && j != id ==> after[j] == before[j])
    && (id in before ==> Signalled(before[id], after[id], signalOk))
  }

  /** The answer of a supervisor asked to stop its process. */
  lemma AskedMeans(phase: Phase, signalOk: bool)
    ensures var r := RequestCancel(phase, signalOk);
      && r.1 == (if phase == Alive && signalOk then Terminating else phase)
      && (r.0 == NotRunning <==> phase == Phase.Idle) && (r.0 == AlreadyExited <==> phase == Gone)
      && (r.0 == AlreadyTerminating <==> phase == Terminating)
      && (r.0 == NowTerminating <==> phase == Alive && signalOk)
      && (r.0 == SignalFailed <==> phase == Alive && !signalOk)
  {
  }

  lemma BeginMeans(supervised: SupervisedJobs, id: JobId, signalOk: bool)
    ensures OnlySignalled(supervised, BeginCancellation(supervised, id, signalOk), id, signalOk)
  {
  }

  /** What the store has against stopping a job. */
  function StopRefusal(s: StoreState, state: JobState): Option<StoreError> {
    if s.revision == 0xFFFF_FFFF_FFFF_FFFF then Some(InvalidMutation)
    else if state == JobState.Starting then Some(InvalidExecutionRecord)
    else None
  }

  predicate MoveWritten(s: StoreState, id: JobId, target: JobState, env: RewriteEnv, refusal: Option<StoreError>,
                        w: Written)
    requires id in s.jobs
  {
    && (w.alive <==> Outlives(env)) && (w.alive ==> w.code == Answer(env, refusal))
    && (if Lands(env, refusal) then
          Replaced(s, w.store, id, {}) && Moved(s.jobs[id], w.store.jobs[id], target)
        else w.store == s)
  }

  ghost predicate StopsBy(state: JobState, compose: StoredJob -> Change, target: JobState) {
    if state == JobState.Queued then target == JobState.Cancelled && compose == ToCancelled
    else
      && (state == JobState.Starting || state == JobState.Running)
      && target == JobState.Stopping && compose == ToStopping
  }

  lemma StopUpdates(jobs: Jobs, id: JobId, compose: StoredJob -> Change, target: JobState)
    requires id in jobs && ConsistentRecord(id, jobs[id]) && RevisionFits(jobs[id].state, jobs[id].revision)
    requires StopsBy(jobs[id].state, compose, target)
    requires jobs[id].state == JobState.Starting ==> jobs[id].execution.identity == NO_IDENTITY
    ensures var update := compose(jobs[id]).update;
      && Moved(jobs[id], update, target) && compose(jobs[id]).releases == []
      && UpdateJob(jobs, update) ==
         if jobs[id].state == JobState.Starting then Err(InvalidExecutionRecord) else Ok(jobs[id := update])
  {
  }

  lemma StopAnswers(s: StoreState, config: StoreConfig, id: JobId, compose: StoredJob -> Change, target: JobState)
    requires StoreSafe(s) && id in s.jobs && StopsBy(s.jobs[id].state, compose, target)
    ensures var update := compose(s.jobs[id]).update;
      var refusal := StopRefusal(s, s.jobs[id].state);
      && Moved(s.jobs[id], update, target)
      && ApplyMutation(s, config, ChangeMutation(s.revision, compose(s.jobs[id]))) ==
         if refusal == None then Ok(StoreState(s.jobs[id := update], s.leases, s.revision + 1))
         else Err(refusal.value)
  {
    StopUpdates(s.jobs, id, compose, target);
    SoleUpdate(s, config, compose(s.jobs[id]).update);
  }

  lemma StopWritten(s: StoreState, config: StoreConfig, id: JobId, compose: StoredJob -> Change, target: JobState,
                    env: RewriteEnv)
    requires StoreSafe(s) && id in s.jobs && StopsBy(s.jobs[id].state, compose, target)
    ensures MoveWritten(s, id, target, env, StopRefusal(s, s.jobs[id].state), Rewrite(s, config, id, compose, env))
  {
    StopAnswers(s, config, id, compose, target);
    RewriteComes(s, config, id, compose, env, StopRefusal(s, s.jobs[id].state),
                 StoreState(s.jobs[id := compose(s.jobs[id]).update], s.leases, s.revision + 1));
    assert s.leases - {} == s.leases;
  }

  /** The cancellation of a job that is not stopping yet. */
  ghost predicate CancelWrites(w: World, id: JobId, env: CancelEnv, d: Daemon, reply: CancelReply)
    requires id in w.store.jobs
  {
    var state := w.store.jobs[id].state;
    var target := if state == JobState.Queued then JobState.Cancelled else JobState.Stopping;
    var refusal := StopRefusal(w.store, state);
    var answer := Answer(env.rewrite, refusal);
    && MoveWritten(w.store, id, target, env.rewrite, refusal, Written(StoreAt(d), answer, d.Up?))
    && (d.Down? ==> d.spawned == w.spawned && reply == NoCancelReply)
    && (d.Up? && answer != None ==> d.world == w && reply == CancelFailed(answer.value))
    && (d.Up? && answer == None && state == JobState.Queued ==>
          && reply == JobCancelled && d.world == w.(store := d.world.store, queue := d.world.queue)
          && WaitingInOrder(d.world.queue, d.world.store.jobs))
    && (d.Up? && answer == None && state != JobState.Queued ==>
          && reply == JobStopping && d.world == w.(store := d.world.store, supervised := d.world.supervised)
          && OnlySignalled(w.supervised, d.world.supervised, id, env.signalOk))
  }

  /** The whole of a cancellation, by the state of the job. */
  ghost predicate CancelObeys(w: World, id: JobId, env: CancelEnv, d: Daemon, reply: CancelReply) {
    if !env.loadOk then d == Up(w) && reply == CancelFailed(BackendUnavailable)
    else if id !in w.store.jobs then d == Up(w) && reply == CancelNotFound
    else
      var state := w.store.jobs[id].state;
      && (state == JobState.Queued || state == JobState.Starting || state == JobState.Running ==>
            CancelWrites(w, id, env, d, reply))
      && (state == JobState.Stopping ==>
            && reply == JobStopping && d.Up? && d.world == w.(supervised := d.world.supervised)
            && OnlySignalled(w.supervised, d.world.supervised, id, env.signalOk))
      && (state == JobState.Cancelled ==> d == Up(w) && reply == JobCancelled)
      && (state == JobState.Finished || state == JobState.Failed || state == JobState.Lost ==>
            d == Up(w) && reply == CancelInvalidState(state))
  }

  lemma CancelledInOrder(queue: seq<QueueEntry>, s: StoreState, t: StoreState, id: JobId, capacity: nat)
    requires Consistent(s) && Synced(queue, s, capacity) && id in s.jobs && s.jobs[id].state == JobState.Queued
    requires Replaced(s, t, id, {}) && Moved(s.jobs[id], t.jobs[id], JobState.Cancelled)
    ensures WaitingInOrder(Remove(queue, id), t.jobs)
  {
    assert ConsistentRecord(id, s.jobs[id]);
    RemovedSynced(queue, s, t, Change(t.jobs[id], []), capacity);
    InSyncMeans(Remove(queue, id), t.jobs);
  }

  lemma CancelQueuedMeans(config: SchedulerConfig, w: World, id: JobId, env: CancelEnv)
    requires StoreSafe(w.store) && Synced(w.queue, w.store, config.capacity)
    requires id in w.store.jobs && w.store.jobs[id].state == JobState.Queued
    ensures var r := CancelQueued(config, w, id, env); CancelWrites(w, id, env, r.0, r.1)
  {
    StopWritten(w.store, config.store, id, ToCancelled, JobState.Cancelled, env.rewrite);
    var written := Rewrite(w.store, config.store, id, ToCancelled, env.rewrite);
    if Lands(env.rewrite, StopRefusal(w.store, JobState.Queued)) {
      CancelledInOrder(w.queue, w.store, written.store, id, config.capacity);
    }
  }

  lemma CancelActiveMeans(config: SchedulerConfig, w: World, id: JobId, env: CancelEnv)
    requires StoreSafe(w.store) && id in w.store.jobs
    requires w.store.jobs[id].state == JobState.Starting || w.store.jobs[id].state == JobState.Running
    ensures var r := CancelActive(config, w, id, env); CancelWrites(w, id, env, r.0, r.1)
  {
    StopWritten(w.store, config.store, id, ToStopping, JobState.Stopping, env.rewrite);
    BeginMeans(w.supervised, id, env.signalOk);
  }

  /** Every cancellation, whatever happens to its write. */
  lemma CancelMeans(config: SchedulerConfig, w: World, id: JobId, env: CancelEnv)
    requires StoreSafe(w.store) && Synced(w.queue, w.store, config.capacity)
    ensures var r := Cancel(config, w, id, env); CancelObeys(w, id, env, r.0, r.1)
  {
    if env.loadOk && id in w.store.jobs {
      match w.store.jobs[id].state
      case Queued => CancelQueuedMeans(config, w, id, env);
      case Starting => CancelActiveMeans(config, w, id, env);
      case Running => CancelActiveMeans(config, w, id, env);
      case Stopping => BeginMeans(w.supervised, id, env.signalOk);
      case _ =>
    }
  }

  // ---- Launch ----

  predicate PathFits(path: string) {
    1 <= |path| <= 4096 && '\0' !in path && path[0] == '/'
  }

  predicate ReasonFits(reason: string) {
    1 <= |reason| && '\0' !in Kept(reason)
  }

  /** What the store has against a job that runs. */
  function RunRefusal(s: StoreState, record: StoredJob, identity: ProcessIdentity, started: Time, logPath: string)
    : Option<StoreError> {
    if s.revision == 0xFFFF_FFFF_FFFF_FFFF then Some(InvalidMutation)
    else if identity.pid > 0 && identity.pgid > 0 && identity.startTicks > 0 && started >= record.spec.submitTime
      && PathFits(logPath) then None
    else Some(InvalidExecutionRecord)
  }

  /** What the store has against a job that failed at `now`. */
  function FailRefusal(s: StoreState, record: StoredJob, reason: string, now: Time): Option<StoreError> {
    if s.revision == 0xFFFF_FFFF_FFFF_FFFF then Some(InvalidMutation)
    else if ReasonFits(reason) && (record.execution.startTime.Some? ==> record.execution.startTime.value <= now) then
      None
    else Some(InvalidExecutionRecord)
  }

  /** A launch that goes wrong ends its job and gives the device back, if the store lets it. */
  predicate FailObeys(w: World, id: JobId, uuid: Uuid, env: LaunchEnv, d: Daemon)
    requires id in w.store.jobs
  {
    var refusal := FailRefusal(w.store, w.store.jobs[id], env.reason, env.failed);
    && (d.Up? <==> Outlives(env.fail))
    && (if Lands(env.fail, refusal) then
          && Replaced(w.store, StoreAt(d), id, {uuid})
          && Broken(w.store.jobs[id], StoreAt(d).jobs[id], env.reason, env.failed)
        else StoreAt(d) == w.store)
    && (d.Up? ==> d.world == w.(store := d.world.store)) && (d.Down? ==> d.spawned == w.spawned)
  }

  /** A process was started for the job; `t` is the store that knows it. */
  predicate SpawnObeys(w: World, id: JobId, uuid: Uuid, identity: ProcessIdentity, env: LaunchEnv, t: StoreState,
                       d: Daemon)
    requires id in w.store.jobs
  {
    var refusal := RunRefusal(w.store, w.store.jobs[id], identity, env.started, env.logPath);
    var spawned := w.spawned + multiset{id};
    && (if Lands(env.running, refusal) then
          && Replaced(w.store, t, id, {})
          && Launched(w.store.jobs[id], t.jobs[id], identity, env.started, env.logPath)
        else t == w.store)
    && (if !Outlives(env.running) then d == Down(t, spawned)
        else if Answer(env.running, refusal) == None && env.registered && env.attached then
          d == Up(World(t, w.queue, w.supervised[id := Supervised(uuid, Alive, false, false, false, false)],
                        w.byPid[identity.pid := id], spawned))
        else id in t.jobs && FailObeys(w.(store := t, spawned := spawned), id, uuid, env, d))
  }

  /** The whole of a launch. */
  ghost predicate LaunchObeys(w: World, id: JobId, uuid: Uuid, env: LaunchEnv, d: Daemon)
    requires id in w.store.jobs
  {
    if !env.loadOk then d == Up(w)
    else match env.spawn
      case Refused => FailObeys(w, id, uuid, env, d)
      case Spawned(identity) => exists t :: SpawnObeys(w, id, uuid, identity, env, t, d)
  }

  /** The job is being launched or runs, and holds the device. */
  predicate OnDevice(s: StoreState, id: JobId, uuid: Uuid) {
    && StoreSafe(s) && id in s.jobs && uuid in s.leases && s.leases[uuid] == id
    && (s.jobs[id].state == JobState.Starting || s.jobs[id].state == JobState.Running)
  }

  lemma FailedRecord(record: StoredJob, uuid: Uuid, reason: string, now: Time)
    requires ValidExecution(record) && (record.state.Starting? || record.state.Running?)
    ensures var change := ToFailed(record, uuid, reason, now);
      && change.releases == [uuid] && Broken(record, change.update, reason, now)
      && (ValidExecution(change.update) <==>
          ReasonFits(reason) && (record.execution.startTime.Some? ==> record.execution.startTime.value <= now))
  {
    Exits.TerminalExecution(record, ToFailed(record, uuid, reason, now).update, now);
  }

  lemma FailAnswers(s: StoreState, config: StoreConfig, id: JobId, uuid: Uuid, reason: string, now: Time)
    requires OnDevice(s, id, uuid)
    ensures var change := ToFailed(s.jobs[id], uuid, reason, now);
      var refusal := FailRefusal(s, s.jobs[id], reason, now);
      ApplyMutation(s, config, ChangeMutation(s.revision, change)) ==
      if refusal == None then Ok(StoreState(s.jobs[id := change.update], s.leases - {uuid}, s.revision + 1))
      else Err(refusal.value)
  {
    assert ConsistentRecord(id, s.jobs[id]) && RevisionFits(s.jobs[id].state, s.jobs[id].revision);
    FailedRecord(s.jobs[id], uuid, reason, now);
    if s.revision != U64_MAX {
      Exits.TerminalChange(s, config, ToFailed(s.jobs[id], uuid, reason, now).update, uuid);
    }
  }

  lemma FailMeans(config: SchedulerConfig, w: World, id: JobId, uuid: Uuid, env: LaunchEnv)
    requires OnDevice(w.store, id, uuid)
    ensures FailObeys(w, id, uuid, env, FailLaunch(config, w, id, uuid, env))
  {
    var s := w.store;
    var update := ToFailed(s.jobs[id], uuid, env.reason, env.failed).update;
    assert ConsistentRecord(id, s.jobs[id]);
    FailedRecord(s.jobs[id], uuid, env.reason, env.failed);
    FailAnswers(s, config.store, id, uuid, env.reason, env.failed);
    RewriteComes(s, config.store, id, record => ToFailed(record, uuid, env.reason, env.failed), env.fail,
                 FailRefusal(s, s.jobs[id], env.reason, env.failed),
                 StoreState(s.jobs[id := update], s.leases - {uuid}, s.revision + 1));
  }

  lemma RunningRecord(record: StoredJob, identity: ProcessIdentity, started: Time, logPath: string)
    requires ValidExecution(record) && record.state == JobState.Starting
    ensures var change := ToRunning(record, identity, started, logPath);
      && change.releases == [] && Launched(record, change.update, identity, started, logPath)
      && (ValidExecution(change.update) <==>
          && identity.pid > 0 && identity.pgid > 0 && identity.startTicks > 0 && started >= record.spec.submitTime
          && PathFits(logPath))
  {
  }

  lemma RunAnswers(s: StoreState, config: StoreConfig, id: JobId, identity: ProcessIdentity, started: Time,
                   logPath: string)
    requires StoreSafe(s) && id in s.jobs && s.jobs[id].state == JobState.Starting
    ensures var change := ToRunning(s.jobs[id], identity, started, logPath);
      var refusal := RunRefusal(s, s.jobs[id], identity, started, logPath);
      ApplyMutation(s, config, ChangeMutation(s.revision, change)) ==
      if refusal == None then Ok(StoreState(s.jobs[id := change.update], s.leases, s.revision + 1))
      else Err(refusal.value)
  {
    assert ConsistentRecord(id, s.jobs[id]) && RevisionFits(s.jobs[id].state, s.jobs[id].revision);
    RunningRecord(s.jobs[id], identity, started, logPath);
    SoleUpdate(s, config, ToRunning(s.jobs[id], identity, started, logPath).update);
  }

  lemma RunningOnDevice(s: StoreState, t: StoreState, id: JobId, uuid: Uuid, identity: ProcessIdentity,
                        started: Time, logPath: string)
    requires OnDevice(s, id, uuid) && s.jobs[id].state == JobState.Starting && Follows(s, t)
    requires t == StoreState(s.jobs[id := ToRunning(s.jobs[id], identity, started, logPath).update], s.leases,
                             s.revision + 1)
    ensures OnDevice(t, id, uuid)
  {
    assert ConsistentRecord(id, s.jobs[id]);
  }

  lemma SpawnMeans(config: SchedulerConfig, w: World, id: JobId, uuid: Uuid, identity: ProcessIdentity,
                   env: LaunchEnv) returns (t: StoreState)
    requires OnDevice(w.store, id, uuid) && w.store.jobs[id].state == JobState.Starting
    ensures SpawnObeys(w, id, uuid, identity, env, t,
                       LaunchSpawned(config, w.(spawned := w.spawned + multiset{id}), id, uuid, identity, env))
  {
    var s := w.store;
    var compose := record => ToRunning(record, identity, env.started, env.logPath);
    assert ConsistentRecord(id, s.jobs[id]);
    RunningRecord(s.jobs[id], identity, env.started, env.logPath);
    RunAnswers(s, config.store, id, identity, env.started, env.logPath);
    RewriteComes(s, config.store, id, compose, env.running,
                 RunRefusal(s, s.jobs[id], identity, env.started, env.logPath),
                 StoreState(s.jobs[id := compose(s.jobs[id]).update], s.leases, s.revision + 1));
    t := Rewrite(s, config.store, id, compose, env.running).store;
    assert s.leases - {} == s.leases;
    RewriteKeeps(s, config.store, id, compose, env.running);
    if t != s {
      RunningOnDevice(s, t, id, uuid, identity, env.started, env.logPath);
    }
    FailMeans(config, w.(store := t, spawned := w.spawned + multiset{id}), id, uuid, env);
  }

  /** Every launch, whatever happens to its writes. */
  lemma LaunchMeans(config: SchedulerConfig, w: World, id: JobId, uuid: Uuid, env: LaunchEnv)
    requires OnDevice(w.store, id, uuid) && w.store.jobs[id].state == JobState.Starting
    ensures LaunchObeys(w, id, uuid, env, Launch(config, w, id, uuid, env))
  {
    match env.spawn
    case Refused => FailMeans(config, w, id, uuid, env);
    case Spawned(identity) => var _ := SpawnMeans(config, w, id, uuid, identity, env);
  }
}
