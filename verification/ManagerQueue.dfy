/** The worker's queue beside its store: in step after every step, unless an admission could neither be
    queued nor undone. */
module ManagerQueue {
  import opened Basics
  import opened Job
  import opened Store
  import opened Queue
  import opened StateStores
  import opened Scheduler
  import opened ScheduleRuns
  import opened RecoveryRuns
  import opened Manager
  import opened ManagerSafety
  import opened ManagerSteps
  import opened ManagerRuns

  ghost predicate Synced(queue: seq<QueueEntry>, s: StoreState, capacity: nat) {
    InSync(queue, s.jobs) && |queue| <= capacity
  }

  ghost predicate DaemonSynced(d: Daemon, capacity: nat) {
    d.Up? ==> Synced(d.world.queue, d.world.store, capacity)
  }

  /** A change from one active or finished state to another does not concern the queue. */
  lemma ActiveSynced(queue: seq<QueueEntry>, s: StoreState, t: StoreState, change: Change, capacity: nat)
    requires Synced(queue, s, capacity) && ChangedOrNot(s, t, change)
    requires change.update.id in s.jobs && !s.jobs[change.update.id].state.Queued? && !change.update.state.Queued?
    ensures Synced(queue, t, capacity)
  {
    if t != s {
      OtherInSync(queue, s.jobs, change.update);
    }
  }

  // ---- Submit ----

  /** The store has a waiting job that the queue has not. */
  predicate RollbackFailed(reply: SubmitReply) {
    reply.QueueRejected? && reply.rollbackError.Some?
  }

  lemma InsertLength(entries: seq<QueueEntry>, e: QueueEntry)
    ensures |Insert(entries, e)| == |entries| + 1
  {
  }

  lemma AdmittedSynced(queue: seq<QueueEntry>, s: StoreState, t: StoreState, record: StoredJob, capacity: nat)
    requires Synced(queue, s, capacity) && Created(s, t, record) && record.state.Queued? && |queue| < capacity
    ensures Synced(Insert(queue, EntryOf(record)), t, capacity)
  {
    AdmitInSync(queue, s.jobs, record);
    InsertLength(queue, EntryOf(record));
  }

  lemma UndoneSynced(queue: seq<QueueEntry>, s: StoreState, t: StoreState, u: StoreState, record: StoredJob,
                     capacity: nat)
    requires Synced(queue, s, capacity) && Created(s, t, record) && Changed(t, u, ToCancelled(record))
    ensures Synced(queue, u, capacity)
  {
  }

  lemma LeftBehind(queue: seq<QueueEntry>, s: StoreState, t: StoreState, record: StoredJob)
    requires InSync(queue, s.jobs) && Created(s, t, record) && record.state.Queued?
    ensures !InSync(queue, t.jobs)
  {
    var e := EntryOf(record);
    assert Waiting(t.jobs, e);
    assert e !in queue;
  }

  /** After a submission the queue is in step with the store exactly unless the queue refused the new job
      and undoing its creation failed too. */
  lemma AdmitCreatedSynced(config: SchedulerConfig, w: World, before: StoreState, record: StoredJob, rollback: Fate)
    requires Consistent(w.store) && Synced(w.queue, before, config.capacity) && Created(before, w.store, record)
    requires record.state.Queued?
    ensures var r := AdmitCreated(config, w, record, rollback);
      r.0.Up? ==> (Synced(r.0.world.queue, r.0.world.store, config.capacity) <==> !RollbackFailed(r.1))
  {
    if AdmitError(w.queue, config.capacity, record).None? {
      AdmittedSynced(w.queue, before, w.store, record, config.capacity);
    } else {
      WriteChange(w.store, config.store, ToCancelled(record), rollback);
      var undone := Write(w.store, config.store, ChangeMutation(w.store.revision, ToCancelled(record)), rollback);
      if undone.store == w.store {
        LeftBehind(w.queue, before, w.store, record);
      } else {
        UndoneSynced(w.queue, before, w.store, undone.store, record, config.capacity);
      }
    }
  }

  /** What the store demands of a new job. */
  predicate Creatable(config: StoreConfig, s: StoreState, spec: JobSpec) {
    ValidSpec(spec) && U64_MAX !in s.jobs && |s.jobs| < config.maxJobs && s.revision != U64_MAX
  }

  lemma CreatableExact(config: StoreConfig, s: StoreState, spec: JobSpec)
    requires Consistent(s)
    ensures ApplyMutation(s, config, CreateMutation(s, NewRecord(NextId(s.jobs), spec))).Ok? <==>
      Creatable(config, s, spec)
  {
    NextIdFresh(s.jobs);
    SoleCreate(s, config, NewRecord(NextId(s.jobs), spec));
  }

  /** A submit that will leave a waiting job behind: the job is created, the queue is full, and the
      creation cannot be undone because the backend is gone or because it took the last revision. */
  predicate LosesSubmit(config: SchedulerConfig, w: World, spec: JobSpec, env: SubmitEnv) {
    && env.loadOk && env.create.Answered? && Creatable(config.store, w.store, spec)
    && |w.queue| >= config.capacity
    && (env.rollback.Unavailable? || (env.rollback.Answered? && w.store.revision + 1 == U64_MAX))
  }

  /** In step with the store, the queue refuses a new job only for want of room. */
  lemma OnlyFullRefuses(queue: seq<QueueEntry>, jobs: Jobs, record: StoredJob, capacity: nat)
    requires InSync(queue, jobs) && JobsSound(jobs) && record.id !in jobs && record.state.Queued?
    requires ConsistentRecord(record.id, record)
    ensures AdmitError(queue, capacity, record).Some? <==> |queue| >= capacity
  {
    forall i | 0 <= i < |queue| ensures queue[i].job != record.id {
      assert queue[i] in queue;
    }
  }

  lemma UndoExact(t: StoreState, config: StoreConfig, record: StoredJob, fate: Fate)
    requires Consistent(t) && record.id in t.jobs && t.jobs[record.id] == record && record.state.Queued?
    requires record.execution == NO_EXECUTION
    ensures var undone := Write(t, config, ChangeMutation(t.revision, ToCancelled(record)), fate);
      undone.alive && undone.code.Some? <==> fate.Unavailable? || (fate.Answered? && t.revision == U64_MAX)
  {
    assert ConsistentRecord(record.id, record);
    SoleUpdate(t, config, ToCancelled(record).update);
  }

  lemma AdmitLoses(config: SchedulerConfig, w: World, before: StoreState, record: StoredJob, rollback: Fate)
    requires JobsSound(before.jobs) && InSync(w.queue, before.jobs) && Created(before, w.store, record)
    requires Consistent(w.store) && record.state.Queued? && record.execution == NO_EXECUTION
    ensures RollbackFailed(AdmitCreated(config, w, record, rollback).1) <==>
      && |w.queue| >= config.capacity
      && (rollback.Unavailable? || (rollback.Answered? && w.store.revision == U64_MAX))
  {
    assert ConsistentRecord(record.id, w.store.jobs[record.id]);
    OnlyFullRefuses(w.queue, before.jobs, record, config.capacity);
    UndoExact(w.store, config.store, record, rollback);
  }

  /** The reply of a submit that loses an entry. */
  lemma SubmitLoses(config: SchedulerConfig, w: World, spec: JobSpec, env: SubmitEnv)
    requires Consistent(w.store) && InSync(w.queue, w.store.jobs)
    ensures RollbackFailed(Submit(config, w, spec, env).1) <==> LosesSubmit(config, w, spec, env)
  {
    var record := NewRecord(NextId(w.store.jobs), spec);
    CreatableExact(config.store, w.store, spec);
    if env.loadOk && env.create.Answered? && Creatable(config.store, w.store, spec) {
      CreateSucceeds(config.store, w.store, record);
      var t := ApplyMutation(w.store, config.store, CreateMutation(w.store, record)).value;
      AdmitLoses(config, w.(store := t), w.store, record, env.rollback);
    }
  }

  lemma CreateSucceeds(config: StoreConfig, s: StoreState, record: StoredJob)
    requires Consistent(s) && ApplyMutation(s, config, CreateMutation(s, record)).Ok?
    ensures var t := ApplyMutation(s, config, CreateMutation(s, record)).value; Consistent(t) && Created(s, t, record)
  {
    ApplyKeeps(s, config, CreateMutation(s, record));
    SoleCreate(s, config, record);
  }

  lemma SubmitCases(config: SchedulerConfig, w: World, spec: JobSpec, env: SubmitEnv)
    requires Consistent(w.store) && Synced(w.queue, w.store, config.capacity)
    ensures var r := Submit(config, w, spec, env);
      r.0.Up? ==> (Synced(r.0.world.queue, r.0.world.store, config.capacity) <==> !RollbackFailed(r.1))
  {
    var record := NewRecord(NextId(w.store.jobs), spec);
    OneCreate(w.store, config.store, record, env.create);
    var created := Write(w.store, config.store, CreateMutation(w.store, record), env.create);
    if created.store != w.store {
      AdmitCreatedSynced(config, w.(store := created.store), w.store, record, env.rollback);
    }
  }

  /** A submit leaves the queue in step with the store exactly unless it loses an entry, which can be told
      before the call. */
  lemma SubmitSynced(config: SchedulerConfig, w: World, spec: JobSpec, env: SubmitEnv)
    requires Consistent(w.store) && Synced(w.queue, w.store, config.capacity)
    ensures var d := Submit(config, w, spec, env).0;
      d.Up? ==> (Synced(d.world.queue, d.world.store, config.capacity) <==> !LosesSubmit(config, w, spec, env))
  {
    SubmitCases(config, w, spec, env);
    SubmitLoses(config, w, spec, env);
  }

  // ---- Cancel ----

  lemma RemovedSynced(queue: seq<QueueEntry>, s: StoreState, t: StoreState, change: Change, capacity: nat)
    requires Consistent(s) && Synced(queue, s, capacity) && Changed(s, t, change) && !change.update.state.Queued?
    requires s.jobs[change.update.id].state.Queued?
    ensures Synced(Remove(queue, change.update.id), t, capacity)
  {
    var id := change.update.id;
    assert ConsistentRecord(id, s.jobs[id]);
    InSyncOnce(queue, s.jobs);
    RemoveInSync(queue, s.jobs, change.update);
    assert RemoveError(queue, id).None?;
  }

  lemma CancelSynced(config: SchedulerConfig, w: World, id: JobId, env: CancelEnv)
    requires Consistent(w.store) && Synced(w.queue, w.store, config.capacity)
    ensures DaemonSynced(Cancel(config, w, id, env).0, config.capacity)
  {
    if env.loadOk && id in w.store.jobs {
      var record := w.store.jobs[id];
      assert ConsistentRecord(id, record);
      if record.state.Queued? {
        RewriteKeeps(w.store, config.store, id, ToCancelled, env.rewrite);
        var t := Rewrite(w.store, config.store, id, ToCancelled, env.rewrite).store;
        if t != w.store {
          RemovedSynced(w.queue, w.store, t, ToCancelled(record), config.capacity);
        }
      } else if record.state.Starting? || record.state.Running? {
        RewriteKeeps(w.store, config.store, id, ToStopping, env.rewrite);
        ActiveSynced(w.queue, w.store, Rewrite(w.store, config.store, id, ToStopping, env.rewrite).store,
                     ToStopping(record), config.capacity);
      }
    }
  }

  // ---- Schedule ----

  lemma FailLaunchSynced(config: SchedulerConfig, w: World, id: JobId, uuid: Uuid, env: LaunchEnv)
    requires Consistent(w.store) && Synced(w.queue, w.store, config.capacity)
    requires id in w.store.jobs && !w.store.jobs[id].state.Queued?
    ensures DaemonSynced(FailLaunch(config, w, id, uuid, env), config.capacity)
  {
    var compose := record => ToFailed(record, uuid, env.reason, env.failed);
    RewriteKeeps(w.store, config.store, id, compose, env.fail);
    assert ConsistentRecord(id, w.store.jobs[id]);
    ActiveSynced(w.queue, w.store, Rewrite(w.store, config.store, id, compose, env.fail).store,
                 compose(w.store.jobs[id]), config.capacity);
  }

  lemma LaunchSynced(config: SchedulerConfig, w: World, id: JobId, uuid: Uuid, env: LaunchEnv)
    requires Consistent(w.store) && Synced(w.queue, w.store, config.capacity)
    ensures DaemonSynced(Launch(config, w, id, uuid, env), config.capacity)
  {
    if env.loadOk && id in w.store.jobs && w.store.jobs[id].state.Starting? {
      FailLaunchSynced(config, w, id, uuid, env);
      if env.spawn.Spawned? {
        LaunchSpawnedSynced(config, w.(spawned := w.spawned + multiset{id}), id, uuid, env.spawn.identity, env);
      }
    }
  }

  lemma LaunchSpawnedSynced(config: SchedulerConfig, w: World, id: JobId, uuid: Uuid, identity: ProcessIdentity,
                            env: LaunchEnv)
    requires Consistent(w.store) && Synced(w.queue, w.store, config.capacity)
    requires id in w.store.jobs && w.store.jobs[id].state.Starting?
    ensures DaemonSynced(LaunchSpawned(config, w, id, uuid, identity, env), config.capacity)
  {
    var compose := record => ToRunning(record, identity, env.started, env.logPath);
    RewriteKeeps(w.store, config.store, id, compose, env.running);
    var t := Rewrite(w.store, config.store, id, compose, env.running).store;
    assert ConsistentRecord(id, w.store.jobs[id]);
    ActiveSynced(w.queue, w.store, t, compose(w.store.jobs[id]), config.capacity);
    FailLaunchSynced(config, w.(store := t), id, uuid, env);
  }

  lemma StartedSynced(queue: seq<QueueEntry>, s: StoreState, id: JobId, uuid: Uuid, capacity: nat)
    requires Consistent(s) && Synced(queue, s, capacity) && id in s.jobs && s.jobs[id].state.Queued?
    ensures Synced(Without(queue, id), Started(s, id, uuid), capacity)
  {
    assert ConsistentRecord(id, s.jobs[id]);
    RemoveInSync(queue, s.jobs, ToStarting(s.jobs[id]));
  }

  lemma AfterRunSynced(config: SchedulerConfig, w: World, run: Run, env: LaunchEnv)
    requires Consistent(w.store) && Synced(w.queue, w.store, config.capacity) && RunGuarantee(w.store, w.queue, run)
    ensures DaemonSynced(AfterRun(config, w, run, env), config.capacity)
  {
    if run.alive && run.result.code.Scheduled? {
      var id, uuid := run.result.job.value, run.result.gpu.value;
      StartedFollows(w.store, id, uuid);
      StartedSynced(w.queue, w.store, id, uuid, config.capacity);
      LaunchSynced(config, w.(store := run.store, queue := run.entries), id, uuid, env);
    }
  }

  lemma ScheduleSynced(config: SchedulerConfig, w: World, env: ScheduleEnv)
    requires Consistent(w.store) && Synced(w.queue, w.store, config.capacity)
    ensures DaemonSynced(Schedule(config, w, env), config.capacity)
  {
    if env.gpu.Some? {
      RunOnceKeeps(config, w.store, w.queue, env.gpu.value, env.loadOk, env.fate);
      AfterRunSynced(config, w, RunOnce(config, w.store, w.queue, env.gpu.value, env.loadOk, env.fate), env.launch);
    }
  }

  // ---- Exit ----

  lemma ExitSynced(config: SchedulerConfig, w: World, event: ExitEvent, now: Time, env: RewriteEnv)
    requires WorldSafe(w) && Synced(w.queue, w.store, config.capacity)
    ensures DaemonSynced(Exit(config, w, event, now, env), config.capacity)
  {
    if event.pid in w.byPid {
      var id := w.byPid[event.pid];
      var v := w.supervised[id];
      assert Guarded(w.store, id, v) && ConsistentRecord(id, w.store.jobs[id]);
      var compose := record => ToExited(record, v, event, now);
      RewriteKeeps(w.store, config.store, id, compose, env);
      ExitedChange(w.store.jobs[id], v, event, now);
      var written := Rewrite(w.store, config.store, id, compose, env);
      ActiveSynced(w.queue, w.store, written.store, compose(w.store.jobs[id]), config.capacity);
    }
  }

  // ---- Every run ----

  /** Does this step leave a created job that is neither queued nor cancelled again? */
  predicate LosesEntry(config: SchedulerConfig, d: Daemon, e: Event) {
    d.Up? && e.SubmitJob? && LosesSubmit(config, d.world, e.spec, e.submit)
  }

  lemma HandlerSynced(config: SchedulerConfig, w: World, e: Event)
    requires WorldSafe(w) && Synced(w.queue, w.store, config.capacity)
    ensures !LosesEntry(config, Up(w), e) ==> DaemonSynced(Step(config, Up(w), e), config.capacity)
  {
    match e
    case SubmitJob(spec, env) => SubmitSynced(config, w, spec, env);
    case CancelJob(id, env) => CancelSynced(config, w, id, env);
    case RunScheduler(env) => ScheduleSynced(config, w, env);
    case ProcessExit(exit, now, env) => ExitSynced(config, w, exit, now, env);
    case PumpDrained(id) =>
    case Crash =>
    case Restart(_) =>
  }

  lemma StepSynced(config: SchedulerConfig, d: Daemon, e: Event)
    requires Safe(d) && DaemonSynced(d, config.capacity)
    ensures !LosesEntry(config, d, e) ==> DaemonSynced(Step(config, d, e), config.capacity)
  {
    match d
    case Down(s, spawned) =>
      if e.Restart? {
        StartSafe(config, s, spawned, e.start);
      }
    case Up(w) => HandlerSynced(config, w, e);
  }

  /** Has an entry been lost since the daemon last came up? `lost` is the answer before `events`. */
  function EntryLost(config: SchedulerConfig, d: Daemon, events: seq<Event>, lost: bool): bool
    decreases events
  {
    if events == [] then lost
    else
      var now := if d.Down? then false else lost || LosesEntry(config, d, events[0]);
      EntryLost(config, Step(config, d, events[0]), events[1..], now)
  }

  lemma {:induction false} StepsSynced(config: SchedulerConfig, d: Daemon, events: seq<Event>, lost: bool)
    requires Safe(d) && (!lost ==> DaemonSynced(d, config.capacity))
    ensures !EntryLost(config, d, events, lost) ==> DaemonSynced(Steps(config, d, events), config.capacity)
    decreases events
  {
    if events != [] {
      var e := events[0];
      var now := if d.Down? then false else lost || LosesEntry(config, d, e);
      StepSafe(config, d, e);
      if d.Down? || !lost {
        StepSynced(config, d, e);
      }
      StepsSynced(config, Step(config, d, e), events[1..], now);
    }
  }

  /** Over every run from an empty store: unless a refused admission could not be undone since the last
      restart, the queue holds exactly the QUEUED records by (submit time, id), which is the list shown
      to clients. */
  lemma QueueAlwaysInStep(config: SchedulerConfig, events: seq<Event>)
    ensures var d := Steps(config, FRESH_DAEMON, events);
      d.Up? && !EntryLost(config, FRESH_DAEMON, events, false) ==>
        && InSync(d.world.queue, d.world.store.jobs) && WaitingInOrder(d.world.queue, d.world.store.jobs)
        && d.world.queue == QueueView(Load(d.world.store))
  {
    StepsSafe(config, FRESH_DAEMON, events);
    StepsSynced(config, FRESH_DAEMON, events, false);
    var d := Steps(config, FRESH_DAEMON, events);
    if d.Up? && !EntryLost(config, FRESH_DAEMON, events, false) {
      QueueIsView(d.world.queue, d.world.store);
    }
  }
}
