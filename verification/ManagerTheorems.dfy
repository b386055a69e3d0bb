/** Consequences for every run of the daemon, and the rewrites the store refuses. */
module ManagerTheorems {
  import opened Basics
  import opened Job
  import opened Store
  import opened Queue
  import opened StateStores
  import opened Scheduler
  import opened ScheduleRuns
  import opened Recovery
  import opened RecoveryRuns
  import opened Manager
  import opened ManagerSafety
  import opened ManagerRuns
  import opened ManagerQueue
  import opened ManagerExit

  /** In every state a run can reach, a supervised job whose process has not been seen to exit is RUNNING
      or, when it is being cancelled, STOPPING, and it holds exactly the lease recorded for it. */
  lemma SupervisedHoldLeases(config: SchedulerConfig, events: seq<Event>, id: JobId)
    ensures var d := Steps(config, FRESH_DAEMON, events);
      d.Up? && id in d.world.supervised ==>
        Guarded(d.world.store, id, d.world.supervised[id]) && LeaseMatrix(d.world.store.jobs, d.world.store.leases)
  {
    StepsSafe(config, FRESH_DAEMON, events);
  }

  /** In every reachable state, the exit of a registered process can be written unless the clock runs
      before the recorded start of the job. */
  lemma ExitAlwaysLegal(config: SchedulerConfig, events: seq<Event>, event: ExitEvent, now: Time)
    requires StatusFits(event.status)
    requires var d := Steps(config, FRESH_DAEMON, events);
      d.Up? && event.pid in d.world.byPid && d.world.store.revision != U64_MAX
    ensures var w := Steps(config, FRESH_DAEMON, events).world;
      w.byPid[event.pid] in w.supervised && w.byPid[event.pid] in w.store.jobs
    ensures var w := Steps(config, FRESH_DAEMON, events).world;
      var id := w.byPid[event.pid];
      var v := w.supervised[id];
      ExitOutcome(w.store, id, v, event, now,
                  Rewrite(w.store, config.store, id, record => ToExited(record, v, event, now),
                          RewriteEnv(true, Answered)))
  {
    StepsSafe(config, FRESH_DAEMON, events);
    ExitAccepted(config.store, Steps(config, FRESH_DAEMON, events).world, event, now);
  }

  /** While no refused admission has been left in the store, no scheduling run ever reports a diverged
      queue or a failed rollback. */
  lemma SchedulerNeverDiverges(config: SchedulerConfig, events: seq<Event>, gpu: GpuSnapshot, loadOk: bool, fate: Fate)
    ensures var d := Steps(config, FRESH_DAEMON, events);
      d.Up? && !EntryLost(config, FRESH_DAEMON, events, false) ==>
        var code := RunOnce(config, d.world.store, d.world.queue, gpu, loadOk, fate).result.code;
        !code.QueueStateDiverged? && !code.QueueRollbackFailed?
  {
    StepsSafe(config, FRESH_DAEMON, events);
    StepsSynced(config, FRESH_DAEMON, events, false);
    var d := Steps(config, FRESH_DAEMON, events);
    if d.Up? && !EntryLost(config, FRESH_DAEMON, events, false) {
      RunOnceKeeps(config, d.world.store, d.world.queue, gpu, loadOk, fate);
    }
  }

  lemma BareIsNotPromoted(jobs: Jobs, id: JobId, answers: Answers)
    requires StartingBare(jobs) && id in jobs
    ensures !Decide(jobs[id], answers).AdoptedPromotedToRunning?
  {
  }

  /** No restart ever promotes a STARTING job: its identity is only written together with RUNNING. */
  lemma RestartNeverPromotes(config: SchedulerConfig, events: seq<Event>, id: JobId, answers: Answers)
    ensures var s := StoreOf(Steps(config, FRESH_DAEMON, events));
      id in s.jobs ==> !Decide(s.jobs[id], answers).AdoptedPromotedToRunning?
  {
    StepsSafe(config, FRESH_DAEMON, events);
    var s := StoreOf(Steps(config, FRESH_DAEMON, events));
    if id in s.jobs {
      BareIsNotPromoted(s.jobs, id, answers);
    }
  }

  // ---- Failed launches ----

  /** What a launch failure that the store accepts leaves: the job FAILED, its lease released. */
  function FailedStore(s: StoreState, id: JobId, uuid: Uuid, env: LaunchEnv): StoreState
    requires id in s.jobs
  {
    StoreState(s.jobs[id := ToFailed(s.jobs[id], uuid, env.reason, env.failed).update], s.leases - {uuid},
               s.revision + 1)
  }

  /** The failure can be recorded: it is not before the recorded start, and its reason is a proper text. */
  predicate FailureFits(record: StoredJob, env: LaunchEnv) {
    && (record.execution.startTime.Some? ==> record.execution.startTime.value <= env.failed)
    && BoundedText(Clipped(env.reason), MAX_FAILURE_REASON_BYTES)
  }

  /** With an answering backend and a revision left, a failed launch ends its job and releases its lease
      exactly when the failure can be recorded; otherwise nothing changes. */
  lemma FailLaunchExact(config: SchedulerConfig, w: World, id: JobId, uuid: Uuid, env: LaunchEnv)
    requires Consistent(w.store) && RevisionsFit(w.store.jobs) && w.store.revision != U64_MAX
    requires id in w.store.jobs && (w.store.jobs[id].state.Starting? || w.store.jobs[id].state.Running?)
    requires uuid in w.store.leases && w.store.leases[uuid] == id && env.fail == RewriteEnv(true, Answered)
    ensures FailLaunch(config, w, id, uuid, env) ==
      if FailureFits(w.store.jobs[id], env) then Up(w.(store := FailedStore(w.store, id, uuid, env))) else Up(w)
    ensures FailedStore(w.store, id, uuid, env).jobs[id].state.Failed?
      && uuid !in FailedStore(w.store, id, uuid, env).leases
  {
    var record := w.store.jobs[id];
    var update := ToFailed(record, uuid, env.reason, env.failed).update;
    assert ConsistentRecord(id, record) && RevisionFits(record.state, record.revision);
    TerminalExecution(record, update, env.failed);
    TerminalChange(w.store, config.store, update, uuid);
  }

  /** The job of a launch that goes wrong is never finished: it is STARTING, or RUNNING if that was
      written, and holds its lease. */
  predicate StillActive(s: StoreState, id: JobId, uuid: Uuid) {
    && Consistent(s) && RevisionsFit(s.jobs) && id in s.jobs
      && (s.jobs[id].state.Starting? || s.jobs[id].state.Running?)
    && uuid in s.leases && s.leases[uuid] == id
  }

  lemma LaunchFailsActive(config: StoreConfig, s: StoreState, id: JobId, uuid: Uuid, identity: ProcessIdentity,
                          env: LaunchEnv)
    requires StoreSafe(s) && id in s.jobs && s.jobs[id].state.Starting? && uuid in s.leases && s.leases[uuid] == id
    ensures var t := Rewrite(s, config, id, record => ToRunning(record, identity, env.started, env.logPath),
                             env.running).store;
      StillActive(t, id, uuid)
  {
    var compose := record => ToRunning(record, identity, env.started, env.logPath);
    RewriteKeeps(s, config, id, compose, env.running);
    var t := Rewrite(s, config, id, compose, env.running).store;
    assert ConsistentRecord(id, s.jobs[id]);
    if t != s {
      RunningActive(s, t, compose(s.jobs[id]), id, uuid);
    }
  }

  lemma RunningActive(s: StoreState, t: StoreState, change: Change, id: JobId, uuid: Uuid)
    requires Changed(s, t, change) && Follows(s, t) && RevisionsFit(s.jobs) && uuid in s.leases && s.leases[uuid] == id
    requires change.update.id == id && change.update.state.Running? && change.releases == []
    ensures StillActive(t, id, uuid)
  {
    assert s.leases - (set u | u in change.releases) == s.leases;
  }

  /** Composing the end of a job from its record sends the unchanged revision exactly if the job has ended
      already: only then does the store answer so. */
  predicate RefusedIfEnded(s: StoreState, id: JobId, written: Written)
    requires id in s.jobs
  {
    && (written.code == Some(InvalidJobRevision) <==> IsTerminal(s.jobs[id].state))
    && (written.code.Some? ==> written.store == s)
  }

  lemma EndUpdate(s: StoreState, config: StoreConfig, id: JobId, change: Change)
    requires Consistent(s) && RevisionsFit(s.jobs) && s.revision != U64_MAX && id in s.jobs
    requires change.update.id == id && change.update.spec == s.jobs[id].spec
    requires if IsTerminal(s.jobs[id].state) then change == Change(s.jobs[id], [])
             else change.update.revision == s.jobs[id].revision + 1
    ensures RefusedIfEnded(s, id, Write(s, config, ChangeMutation(s.revision, change), Answered))
  {
    assert ConsistentRecord(id, s.jobs[id]) && RevisionFits(s.jobs[id].state, s.jobs[id].revision);
    OneUpdate(s.jobs, change.update);
    ReleaseErrors(s.leases, change.releases);
  }

  lemma {:induction false} ReleaseErrors(leases: Leases, uuids: seq<Uuid>)
    ensures ReleaseLeases(leases, uuids).Err? ==>
      ReleaseLeases(leases, uuids).error.InvalidLease? || ReleaseLeases(leases, uuids).error.LeaseNotFound?
    decreases uuids
  {
    if uuids != [] {
      ReleaseErrors(leases - {uuids[0]}, uuids[1..]);
    }
  }

  /** A late launch failure or exit is refused as an unchanged revision exactly if its job has ended. */
  lemma LateEndExact(s: StoreState, config: StoreConfig, id: JobId, uuid: Uuid, reason: string, v: Supervised,
                     event: ExitEvent, now: Time)
    requires Consistent(s) && RevisionsFit(s.jobs) && id in s.jobs && s.revision != U64_MAX
    ensures RefusedIfEnded(s, id,
                           Rewrite(s, config, id, record => ToFailed(record, uuid, reason, now),
                                   RewriteEnv(true, Answered)))
    ensures RefusedIfEnded(s, id,
                           Rewrite(s, config, id, record => ToExited(record, v, event, now),
                                   RewriteEnv(true, Answered)))
  {
    assert ConsistentRecord(id, s.jobs[id]);
    EndUpdate(s, config, id, ToFailed(s.jobs[id], uuid, reason, now));
    EndUpdate(s, config, id, ToExited(s.jobs[id], v, event, now));
  }

  /** In every state a run can reach, a registered process belongs to a job that has not ended: the branch
      for the late exit of a finished job is never taken. */
  lemma ExitsOnlyActive(config: SchedulerConfig, events: seq<Event>, pid: int)
    ensures var d := Steps(config, FRESH_DAEMON, events);
      d.Up? && pid in d.world.byPid ==>
        var id := d.world.byPid[pid];
        id in d.world.store.jobs && (d.world.store.jobs[id].state.Running? || d.world.store.jobs[id].state.Stopping?)
  {
    StepsSafe(config, FRESH_DAEMON, events);
    var d := Steps(config, FRESH_DAEMON, events);
    if d.Up? && pid in d.world.byPid {
      var id := d.world.byPid[pid];
      assert Guarded(d.world.store, id, d.world.supervised[id]);
    }
  }

  /** RUNNING was written and then the process could not be watched. The job ends exactly when the failure
      is not timed before the start. Otherwise it stays RUNNING with its lease, and nobody watches it. */
  lemma UnwatchedExact(config: SchedulerConfig, w: World, id: JobId, uuid: Uuid, identity: ProcessIdentity,
                       env: LaunchEnv)
    requires WorldSafe(w) && id in w.store.jobs && w.store.jobs[id].state.Starting? && id !in w.supervised
    requires uuid in w.store.leases && w.store.leases[uuid] == id
    requires env.loadOk && env.spawn == Spawned(identity) && !(env.registered && env.attached)
    requires env.running == env.fail == RewriteEnv(true, Answered) && w.store.revision < U64_MAX - 1
    requires BoundedText(Clipped(env.reason), MAX_FAILURE_REASON_BYTES)
    requires ValidExecution(ToRunning(w.store.jobs[id], identity, env.started, env.logPath).update)
    ensures var d := Launch(config, w, id, uuid, env);
      && d.Up? && id !in d.world.supervised && id in d.world.store.jobs
      && (if env.started <= env.failed then d.world.store.jobs[id].state.Failed? && uuid !in d.world.store.leases
          else && d.world.store.jobs[id].state.Running?
               && uuid in d.world.store.leases && d.world.store.leases[uuid] == id)
  {
    var s := w.store;
    var update := ToRunning(s.jobs[id], identity, env.started, env.logPath).update;
    assert ConsistentRecord(id, s.jobs[id]) && RevisionFits(s.jobs[id].state, s.jobs[id].revision);
    SoleUpdate(s, config.store, update);
    LaunchFailsActive(config.store, s, id, uuid, identity, env);
    var t := StoreState(s.jobs[id := update], s.leases, s.revision + 1);
    FailLaunchExact(config, w.(spawned := w.spawned + multiset{id}, store := t), id, uuid, env);
  }

  // ---- Cancellation ----

  /** The answer to a cancellation and the state it leaves the job in, by the state the job was in. */
  function CancelVerdict(state: JobState): (CancelReply, JobState) {
    match state
    case Queued => (JobCancelled, JobState.Cancelled)
    case Cancelled => (JobCancelled, JobState.Cancelled)
    case Running => (JobStopping, JobState.Stopping)
    case Stopping => (JobStopping, JobState.Stopping)
    case Starting => (CancelFailed(InvalidExecutionRecord), state)
    case _ => (CancelInvalidState(state), state)
  }

  lemma CancelUpdate(record: StoredJob, jobs: Jobs)
    requires ConsistentRecord(record.id, record) && record.id in jobs && jobs[record.id] == record
    requires RevisionFits(record.state, record.revision)
    requires record.state.Starting? ==> record.execution.identity == NO_IDENTITY
    ensures record.state.Queued? ==> UpdateJob(jobs, ToCancelled(record).update).Ok?
    ensures record.state.Running? ==> UpdateJob(jobs, ToStopping(record).update).Ok?
    ensures record.state.Starting? ==> UpdateJob(jobs, ToStopping(record).update) == Err(InvalidExecutionRecord)
  {
  }

  /** With an answering backend and a revision left, a cancellation succeeds exactly for a job that is
      QUEUED, RUNNING, STOPPING or CANCELLED. A STARTING job cannot be cancelled: it has no process
      identity, which STOPPING requires. */
  lemma CancelExact(config: SchedulerConfig, w: World, id: JobId, signalOk: bool)
    requires WorldSafe(w) && w.store.revision != U64_MAX && id in w.store.jobs
    ensures var r := Cancel(config, w, id, CancelEnv(true, RewriteEnv(true, Answered), signalOk));
      var state := w.store.jobs[id].state;
      && r.0.Up? && id in r.0.world.store.jobs
      && (r.1, r.0.world.store.jobs[id].state) == CancelVerdict(state)
      && (r.1.JobCancelled? || r.1.JobStopping? <==>
          state.Queued? || state.Running? || state.Stopping? || state.Cancelled?)
      && (!state.Queued? && !state.Running? ==> r.0.world.store == w.store)
  {
    var record := w.store.jobs[id];
    assert ConsistentRecord(id, record) && RevisionFits(record.state, record.revision);
    CancelUpdate(record, w.store.jobs);
    if record.state.Queued? {
      SoleUpdate(w.store, config.store, ToCancelled(record).update);
    } else if record.state.Starting? || record.state.Running? {
      SoleUpdate(w.store, config.store, ToStopping(record).update);
    }
  }
}
