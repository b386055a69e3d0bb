/** Each handler of the worker keeps the worker safe, whatever the environment does. */
module ManagerSteps {
  import opened Basics
  import opened Job
  import opened Store
  import opened Queue
  import opened StateStores
  import opened Scheduler
  import opened ScheduleRuns
  import opened Recovery
  import opened RecoverySettles
  import opened RecoveryRuns
  import opened Manager
  import opened ManagerSafety

  // ---- A change of a job nobody supervises ----

  /** A change of an unsupervised job, however its write ends, leaves a safe daemon. */
  lemma ChangeSafe(w: World, t: StoreState, change: Change)
    requires WorldSafe(w) && ChangedOrNot(w.store, t, change)
    requires change.update.id !in w.supervised
    requires change.update.state.Starting? ==> change.update.execution.identity == NO_IDENTITY
    ensures WorldSafe(w.(store := t))
  {
    StoreKept(w.store, t, change);
    if t != w.store {
      SpawnedKept(w.store, t, w.spawned);
    }
    GuardsKept(w.store, t, change, w.supervised);
  }

  // ---- Submit ----

  /** `t` is `s` with one created job. */
  predicate Created(s: StoreState, t: StoreState, record: StoredJob) {
    record.id !in s.jobs && t == StoreState(s.jobs[record.id := record], s.leases, s.revision + 1)
  }

  lemma OneCreated(jobs: Jobs, record: StoredJob, maxJobs: nat)
    ensures CreateJobs(jobs, [record], maxJobs) == CreateJob(jobs, record, maxJobs)
  {
    assert [record][1..] == [];
  }

  lemma CreatedMatrix(jobs: Jobs, leases: Leases, record: StoredJob)
    requires LeaseMatrix(jobs, leases) && record.id !in jobs && record.state.Queued?
    ensures LeaseMatrix(jobs[record.id := record], leases)
  {
  }

  /** Creating one job succeeds exactly when the job alone is accepted and a store revision is left. */
  lemma SoleCreate(s: StoreState, config: StoreConfig, record: StoredJob)
    requires Consistent(s)
    ensures var r, step := ApplyMutation(s, config, CreateMutation(s, record)),
      CreateJob(s.jobs, record, config.maxJobs);
      && (r.Ok? <==> s.revision != U64_MAX && step.Ok?)
      && (r.Ok? ==> Created(s, r.value, record))
  {
    OneCreated(s.jobs, record, config.maxJobs);
    if CreateJob(s.jobs, record, config.maxJobs).Ok? {
      CreatedMatrix(s.jobs, s.leases, record);
    }
  }

  lemma OneCreate(s: StoreState, config: StoreConfig, record: StoredJob, fate: Fate)
    requires Consistent(s)
    ensures var w := Write(s, config, CreateMutation(s, record), fate);
      && (w.store == s || (Created(s, w.store, record) && Follows(s, w.store)))
      && (w.alive && w.code.None? ==> w.store != s) && (w.alive && w.code.Some? ==> w.store == s)
  {
    WriteKeeps(s, config, CreateMutation(s, record), fate);
    SoleCreate(s, config, record);
  }

  lemma After64Fresh(ids: seq<JobId>)
    requires forall i, j :: 0 <= i < j < |ids| ==> ids[i] < ids[j]
    requires forall id :: id in ids ==> ValidId(id)
    ensures After64(ids) !in ids
    ensures
      if U64_MAX in ids then After64(ids) == 0
      else ValidId(After64(ids)) && forall id :: id in ids ==> id < After64(ids)
  {
    if ids != [] {
      assert ids[|ids| - 1] in ids;
      forall id | id in ids ensures id <= ids[|ids| - 1] {
        var i :| 0 <= i < |ids| && ids[i] == id;
      }
    }
  }

  /** A new id is larger than every id in use; when the numbers run out it is the invalid id zero. */
  lemma NextIdFresh(jobs: Jobs)
    requires JobsSound(jobs)
    ensures NextId(jobs) !in jobs
    ensures
      if U64_MAX in jobs then NextId(jobs) == 0
      else ValidId(NextId(jobs)) && forall id :: id in jobs ==> id < NextId(jobs)
  {
    var ids := InOrder(jobs.Keys);
    forall id | id in ids ensures ValidId(id) {
      assert ConsistentRecord(id, jobs[id]);
    }
    After64Fresh(ids);
  }

  lemma CreatedSafe(w: World, t: StoreState, record: StoredJob)
    requires WorldSafe(w) && Created(w.store, t, record) && Follows(w.store, t) && record.state.Queued?
    ensures WorldSafe(w.(store := t)) && record.id !in w.supervised
  {
    SpawnedKept(w.store, t, w.spawned);
    forall id | id in w.supervised ensures Guarded(t, id, w.supervised[id]) {
      assert Guarded(w.store, id, w.supervised[id]);
    }
  }

  lemma AdmitCreatedSafe(config: SchedulerConfig, w: World, record: StoredJob, rollback: Fate)
    requires WorldSafe(w) && record.id !in w.supervised
    ensures Safe(AdmitCreated(config, w, record, rollback).0)
  {
    if AdmitError(w.queue, config.capacity, record).Some? {
      WriteChange(w.store, config.store, ToCancelled(record), rollback);
      var undone := Write(w.store, config.store, ChangeMutation(w.store.revision, ToCancelled(record)), rollback);
      ChangeSafe(w, undone.store, ToCancelled(record));
    }
  }

  lemma SubmitSafe(config: SchedulerConfig, w: World, spec: JobSpec, env: SubmitEnv)
    requires WorldSafe(w)
    ensures Safe(Submit(config, w, spec, env).0)
  {
    var record := NewRecord(NextId(w.store.jobs), spec);
    OneCreate(w.store, config.store, record, env.create);
    var created := Write(w.store, config.store, CreateMutation(w.store, record), env.create);
    if created.store != w.store {
      CreatedSafe(w, created.store, record);
      AdmitCreatedSafe(config, w.(store := created.store), record, env.rollback);
    }
  }

  // ---- Cancel ----

  /** Asking a live process to stop always marks its job as being cancelled. */
  lemma BeginMarks(supervised: SupervisedJobs, id: JobId, signalOk: bool)
    requires id in supervised && (supervised[id].phase.Alive? || supervised[id].phase.Terminating?)
    ensures var after := BeginCancellation(supervised, id, signalOk);
      && after.Keys == supervised.Keys
      && (forall other :: other in supervised && other != id ==> after[other] == supervised[other])
      && after[id] == supervised[id].(cancelling := true, phase := after[id].phase)
      && (after[id].phase.Alive? || after[id].phase.Terminating?)
  {
  }

  lemma PidsKept(before: SupervisedJobs, after: SupervisedJobs, byPid: Pids)
    requires PidsSafe(before, byPid)
    requires forall id :: id in before ==> id in after && after[id].exited == before[id].exited
    ensures PidsSafe(after, byPid)
  {
    forall p | p in byPid ensures byPid[p] in after && !after[byPid[p]].exited {
      var id := byPid[p];
      assert id in before && !before[id].exited;
      assert after[id].exited == before[id].exited;
    }
  }

  lemma StoppingGuards(s: StoreState, id: JobId, before: SupervisedJobs, after: SupervisedJobs)
    requires SupervisedSafe(s, before) && id in s.jobs && s.jobs[id].state.Stopping? && id in before
    requires after.Keys == before.Keys && forall other :: other in before && other != id ==>
      after[other] == before[other]
    requires after[id] == before[id].(cancelling := true, phase := after[id].phase)
    requires after[id].phase.Alive? || after[id].phase.Terminating?
    ensures SupervisedSafe(s, after)
  {
    assert Guarded(s, id, before[id]);
    forall j | j in after ensures Guarded(s, j, after[j]) {
      assert Guarded(s, j, before[j]);
    }
  }

  lemma StoppingSafe(w: World, id: JobId, signalOk: bool)
    requires WorldSafe(w) && id in w.store.jobs && w.store.jobs[id].state.Stopping?
    ensures WorldSafe(w.(supervised := BeginCancellation(w.supervised, id, signalOk)))
  {
    if id in w.supervised {
      assert Guarded(w.store, id, w.supervised[id]);
      var after := BeginCancellation(w.supervised, id, signalOk);
      BeginMarks(w.supervised, id, signalOk);
      StoppingGuards(w.store, id, w.supervised, after);
      PidsKept(w.supervised, after, w.byPid);
    }
  }

  lemma StopGuard(s: StoreState, t: StoreState, id: JobId, j: JobId, before: Supervised, after: Supervised)
    requires id in s.jobs && s.jobs[id].id == id && Changed(s, t, ToStopping(s.jobs[id])) && Guarded(s, j, before)
    requires after.phase.Alive? || after.phase.Terminating?
    requires after == if j == id then before.(cancelling := true, phase := after.phase) else before
    ensures Guarded(t, j, after)
  {
    assert s.leases - (set u | u in ToStopping(s.jobs[id]).releases) == s.leases;
  }

  lemma StopGuards(s: StoreState, t: StoreState, id: JobId, supervised: SupervisedJobs, signalOk: bool)
    requires SupervisedSafe(s, supervised) && id in s.jobs
    requires Changed(s, t, ToStopping(s.jobs[id])) && s.jobs[id].id == id
    ensures SupervisedSafe(t, BeginCancellation(supervised, id, signalOk))
  {
    assert id in supervised ==> Guarded(s, id, supervised[id]);
    if id in supervised {
      BeginMarks(supervised, id, signalOk);
    }
    var after := BeginCancellation(supervised, id, signalOk);
    forall j | j in after ensures Guarded(t, j, after[j]) {
      assert Guarded(s, j, supervised[j]);
      StopGuard(s, t, id, j, supervised[j], after[j]);
    }
  }

  lemma CancelQueuedSafe(config: SchedulerConfig, w: World, id: JobId, env: CancelEnv)
    requires WorldSafe(w) && id in w.store.jobs && w.store.jobs[id].state.Queued?
    ensures Safe(CancelQueued(config, w, id, env).0)
  {
    var s := w.store;
    RewriteKeeps(s, config.store, id, ToCancelled, env.rewrite);
    var written := Rewrite(s, config.store, id, ToCancelled, env.rewrite);
    assert ConsistentRecord(id, s.jobs[id]);
    assert id in w.supervised ==> Guarded(s, id, w.supervised[id]);
    ChangeSafe(w, written.store, ToCancelled(s.jobs[id]));
  }

  lemma StopSafe(w: World, t: StoreState, id: JobId, signalOk: bool)
    requires WorldSafe(w) && id in w.store.jobs && w.store.jobs[id].id == id
    requires Changed(w.store, t, ToStopping(w.store.jobs[id])) && Follows(w.store, t)
    ensures StoreSafe(t) && SpawnedSafe(t, w.spawned)
    ensures WorldSafe(w.(store := t, supervised := BeginCancellation(w.supervised, id, signalOk)))
  {
    StoreKept(w.store, t, ToStopping(w.store.jobs[id]));
    SpawnedKept(w.store, t, w.spawned);
    StopGuards(w.store, t, id, w.supervised, signalOk);
    var after := BeginCancellation(w.supervised, id, signalOk);
    PidsKept(w.supervised, after, w.byPid);
  }

  lemma CancelActiveSafe(config: SchedulerConfig, w: World, id: JobId, env: CancelEnv)
    requires WorldSafe(w) && id in w.store.jobs
    ensures Safe(CancelActive(config, w, id, env).0)
  {
    RewriteKeeps(w.store, config.store, id, ToStopping, env.rewrite);
    var written := Rewrite(w.store, config.store, id, ToStopping, env.rewrite);
    assert ConsistentRecord(id, w.store.jobs[id]);
    if written.store != w.store {
      StopSafe(w, written.store, id, env.signalOk);
    }
  }

  lemma CancelSafe(config: SchedulerConfig, w: World, id: JobId, env: CancelEnv)
    requires WorldSafe(w)
    ensures Safe(Cancel(config, w, id, env).0)
  {
    if env.loadOk && id in w.store.jobs {
      match w.store.jobs[id].state
      case Queued => CancelQueuedSafe(config, w, id, env);
      case Starting => CancelActiveSafe(config, w, id, env);
      case Running => CancelActiveSafe(config, w, id, env);
      case Stopping => StoppingSafe(w, id, env.signalOk);
      case _ =>
    }
  }

  // ---- Schedule ----

  lemma QueuedHasNoIdentity(record: StoredJob)
    requires ValidExecution(record) && record.state.Queued?
    ensures record.execution.identity == NO_IDENTITY
  {
  }

  lemma StartedFollows(s: StoreState, id: JobId, uuid: Uuid)
    requires Consistent(s) && id in s.jobs && s.jobs[id].state.Queued? && ValidUuid(uuid) && uuid !in s.leases
    ensures Follows(s, Started(s, id, uuid)) && s.jobs[id].execution.identity == NO_IDENTITY
  {
    var record := s.jobs[id];
    assert ConsistentRecord(id, record);
    QueuedHasNoIdentity(record);
    assert UpdateJob(s.jobs, ToStarting(record)) == Ok(s.jobs[id := ToStarting(record)]);
    UpdateJobKeeps(s.jobs, ToStarting(record));
    StartedMatrix(s.jobs, s.leases, ToStarting(record), uuid);
  }

  lemma StartedGuards(s: StoreState, supervised: SupervisedJobs, id: JobId, uuid: Uuid)
    requires SupervisedSafe(s, supervised) && id in s.jobs && s.jobs[id].state.Queued? && uuid !in s.leases
    ensures SupervisedSafe(Started(s, id, uuid), supervised) && id !in supervised
  {
    assert id in supervised ==> Guarded(s, id, supervised[id]);
    forall j | j in supervised ensures Guarded(Started(s, id, uuid), j, supervised[j]) {
      assert Guarded(s, j, supervised[j]);
    }
  }

  lemma StartedSafe(w: World, queue: seq<QueueEntry>, id: JobId, uuid: Uuid)
    requires WorldSafe(w) && id in w.store.jobs && w.store.jobs[id].state.Queued?
    requires ValidUuid(uuid) && uuid !in w.store.leases
    ensures WorldSafe(w.(store := Started(w.store, id, uuid), queue := queue))
    ensures id !in w.supervised && id !in w.spawned
  {
    var t := Started(w.store, id, uuid);
    StartedFollows(w.store, id, uuid);
    SpawnedKept(w.store, t, w.spawned);
    StartedGuards(w.store, w.supervised, id, uuid);
  }

  lemma FailLaunchSafe(config: SchedulerConfig, w: World, id: JobId, uuid: Uuid, env: LaunchEnv)
    requires WorldSafe(w) && id !in w.supervised
    ensures Safe(FailLaunch(config, w, id, uuid, env))
  {
    var compose := record => ToFailed(record, uuid, env.reason, env.failed);
    RewriteKeeps(w.store, config.store, id, compose, env.fail);
    var written := Rewrite(w.store, config.store, id, compose, env.fail);
    if id in w.store.jobs {
      assert ConsistentRecord(id, w.store.jobs[id]);
      ChangeSafe(w, written.store, compose(w.store.jobs[id]));
    }
  }

  lemma WatchedSafe(t: StoreState, supervised: SupervisedJobs, byPid: Pids, id: JobId, v: Supervised, pid: int)
    requires SupervisedSafe(t, supervised) && PidsSafe(supervised, byPid)
    requires id !in supervised && Guarded(t, id, v) && !v.exited
    ensures SupervisedSafe(t, supervised[id := v]) && PidsSafe(supervised[id := v], byPid[pid := id])
  {
    var after := supervised[id := v];
    forall j | j in after ensures Guarded(t, j, after[j]) {
      if j != id {
        assert Guarded(t, j, supervised[j]);
      }
    }
    forall p | p in byPid ensures byPid[p] != id && byPid[p] in after && !after[byPid[p]].exited {
      var j := byPid[p];
      assert j in supervised && !supervised[j].exited;
    }
  }

  lemma RunningGuarded(s: StoreState, t: StoreState, change: Change, id: JobId, uuid: Uuid)
    requires Changed(s, t, change) && change.update.id == id && change.update.state.Running? && change.releases == []
    requires uuid in s.leases && s.leases[uuid] == id
    ensures Guarded(t, id, Supervised(uuid, Alive, false, false, false, false))
  {
    assert s.leases - (set u | u in change.releases) == s.leases;
  }

  lemma LaunchSpawnedSafe(config: SchedulerConfig, w: World, id: JobId, uuid: Uuid, identity: ProcessIdentity,
                          env: LaunchEnv)
    requires WorldSafe(w) && id !in w.supervised && id in w.store.jobs
    requires uuid in w.store.leases && w.store.leases[uuid] == id
    ensures Safe(LaunchSpawned(config, w, id, uuid, identity, env))
  {
    var compose := record => ToRunning(record, identity, env.started, env.logPath);
    RewriteKeeps(w.store, config.store, id, compose, env.running);
    var t := Rewrite(w.store, config.store, id, compose, env.running).store;
    var change := compose(w.store.jobs[id]);
    assert ConsistentRecord(id, w.store.jobs[id]);
    ChangeSafe(w, t, change);
    FailLaunchSafe(config, w.(store := t), id, uuid, env);
    if t != w.store {
      RunningGuarded(w.store, t, change, id, uuid);
      WatchedSafe(t, w.supervised, w.byPid, id, Supervised(uuid, Alive, false, false, false, false), identity.pid);
    }
  }

  lemma FirstSpawn(s: StoreState, spawned: multiset<JobId>, id: JobId)
    requires SpawnedSafe(s, spawned) && id !in spawned && id in s.jobs && !s.jobs[id].state.Queued?
    ensures SpawnedSafe(s, spawned + multiset{id})
  {
  }

  lemma LaunchSafe(config: SchedulerConfig, w: World, id: JobId, uuid: Uuid, env: LaunchEnv)
    requires WorldSafe(w) && id !in w.supervised && id !in w.spawned
    requires uuid in w.store.leases && w.store.leases[uuid] == id
    ensures Safe(Launch(config, w, id, uuid, env))
  {
    if env.loadOk && id in w.store.jobs && w.store.jobs[id].state.Starting? {
      match env.spawn
      case Refused => FailLaunchSafe(config, w, id, uuid, env);
      case Spawned(identity) =>
        FirstSpawn(w.store, w.spawned, id);
        LaunchSpawnedSafe(config, w.(spawned := w.spawned + multiset{id}), id, uuid, identity, env);
    }
  }

  lemma AfterRunSafe(config: SchedulerConfig, w: World, run: Run, env: LaunchEnv)
    requires WorldSafe(w) && RunSafe(w.store, run)
    ensures Safe(AfterRun(config, w, run, env))
  {
    if run.store != w.store {
      var id, uuid :| StartsOne(w.store, run, id, uuid);
      StartedSafe(w, run.entries, id, uuid);
    }
    if run.alive && run.result.code.Scheduled? {
      StartedSafe(w, run.entries, run.result.job.value, run.result.gpu.value);
      LaunchSafe(config, w.(store := run.store, queue := run.entries), run.result.job.value, run.result.gpu.value, env);
    }
  }

  lemma ScheduleSafe(config: SchedulerConfig, w: World, env: ScheduleEnv)
    requires WorldSafe(w)
    ensures Safe(Schedule(config, w, env))
  {
    if env.gpu.Some? {
      RunOnceSafe(config, w.store, w.queue, env.gpu.value, env.loadOk, env.fate);
      AfterRunSafe(config, w, RunOnce(config, w.store, w.queue, env.gpu.value, env.loadOk, env.fate), env.launch);
    }
  }

  // ---- Exit and pump ----

  /** The supervised jobs once the exit of `id` has been handled. */
  function Ended(supervised: SupervisedJobs, id: JobId): SupervisedJobs
    requires id in supervised
  {
    var v := supervised[id];
    if v.adopted || v.pumpDone then supervised - {id} else supervised[id := v.(exited := true)]
  }

  lemma EndedSafe(s: StoreState, supervised: SupervisedJobs, byPid: Pids, pid: int)
    requires SupervisedSafe(s, supervised) && PidsSafe(supervised, byPid) && pid in byPid && byPid[pid] in supervised
    ensures SupervisedSafe(s, Ended(supervised, byPid[pid])) && PidsSafe(Ended(supervised, byPid[pid]), byPid - {pid})
  {
    var id := byPid[pid];
    var after := Ended(supervised, id);
    forall j | j in after ensures Guarded(s, j, after[j]) {
      assert Guarded(s, j, supervised[j]);
    }
    forall p | p in byPid - {pid} ensures byPid[p] in after && !after[byPid[p]].exited {
      var j := byPid[p];
      assert j in supervised && j != id;
    }
  }

  lemma ExitSafe(config: SchedulerConfig, w: World, event: ExitEvent, now: Time, env: RewriteEnv)
    requires WorldSafe(w)
    ensures Safe(Exit(config, w, event, now, env))
  {
    if event.pid in w.byPid {
      var id := w.byPid[event.pid];
      var v := w.supervised[id];
      var compose := record => ToExited(record, v, event, now);
      RewriteKeeps(w.store, config.store, id, compose, env);
      assert Guarded(w.store, id, v) && ConsistentRecord(id, w.store.jobs[id]);
      ExitedChange(w.store.jobs[id], v, event, now);
      EndedSafe(w.store, w.supervised, w.byPid, event.pid);
      EndedWriteSafe(w, Rewrite(w.store, config.store, id, compose, env).store, compose(w.store.jobs[id]), event.pid);
    }
  }

  lemma ExitedChange(record: StoredJob, v: Supervised, event: ExitEvent, now: Time)
    requires !record.state.Queued? && (!v.exited ==> !record.state.Starting?)
    ensures var update := ToExited(record, v, event, now).update;
      update.id == record.id && !update.state.Queued? && (!v.exited ==> !update.state.Starting?)
  {
  }

  lemma EndedWriteSafe(w: World, t: StoreState, change: Change, pid: int)
    requires WorldSafe(w) && pid in w.byPid && w.byPid[pid] in w.supervised
    requires SupervisedSafe(w.store, Ended(w.supervised, w.byPid[pid]))
    requires PidsSafe(Ended(w.supervised, w.byPid[pid]), w.byPid - {pid})
    requires ChangedOrNot(w.store, t, change) && change.update.id == w.byPid[pid]
    requires !change.update.state.Starting? && !change.update.state.Queued?
    ensures StoreSafe(t) && SpawnedSafe(t, w.spawned)
    ensures WorldSafe(w.(store := t, supervised := Ended(w.supervised, w.byPid[pid]), byPid := w.byPid - {pid}))
  {
    StoreKept(w.store, t, change);
    if t != w.store {
      SpawnedKept(w.store, t, w.spawned);
    }
    GuardsKept(w.store, t, change, Ended(w.supervised, w.byPid[pid]));
  }

  /** The supervised jobs once the pump of `id` has drained. */
  function Drained(supervised: SupervisedJobs, id: JobId): SupervisedJobs
    requires id in supervised
  {
    if supervised[id].exited then supervised - {id} else supervised[id := supervised[id].(pumpDone := true)]
  }

  lemma DrainedSafe(s: StoreState, supervised: SupervisedJobs, byPid: Pids, id: JobId)
    requires SupervisedSafe(s, supervised) && PidsSafe(supervised, byPid) && id in supervised
    ensures SupervisedSafe(s, Drained(supervised, id)) && PidsSafe(Drained(supervised, id), byPid)
  {
    var after := Drained(supervised, id);
    forall j | j in after ensures Guarded(s, j, after[j]) {
      assert Guarded(s, j, supervised[j]);
    }
    forall p | p in byPid ensures byPid[p] in after && !after[byPid[p]].exited {
      var j := byPid[p];
      assert j in supervised && !supervised[j].exited;
    }
  }

  lemma PumpDoneSafe(w: World, id: JobId)
    requires WorldSafe(w)
    ensures WorldSafe(PumpDone(w, id))
  {
    if id in w.supervised {
      DrainedSafe(w.store, w.supervised, w.byPid, id);
    }
  }
}
