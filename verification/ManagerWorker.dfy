/** The worker object: handlers that update the store, the queue and the tables of supervised processes. */
module ManagerWorkers {
  import opened Basics
  import opened Job
  import opened Store
  import opened Queue
  import opened StateStores
  import opened Scheduler
  import opened ScheduleRuns
  import opened FifoSchedulers
  import opened Recovery
  import opened JobRecoveries
  import opened Manager
  import P = ManagerPolicyRuns

  /** A mutation built on the current revision never conflicts with it. */
  lemma NoConflict(s: StoreState, config: StoreConfig, change: Change, fate: Fate)
    ensures Write(s, config, ChangeMutation(s.revision, change), fate).code != Some(RevisionConflict)
  {
    var m := ChangeMutation(s.revision, change);
    assert CreateJobs(s.jobs, m.creates, config.maxJobs) == Ok(s.jobs);
    UpdateNoConflict(s.jobs, m.updates);
    ReleaseNoConflict(s.leases, m.releases);
  }

  lemma {:induction false} UpdateNoConflict(jobs: Jobs, records: seq<StoredJob>)
    ensures UpdateJobs(jobs, records) != Err(RevisionConflict)
  {
    if records != [] && UpdateJob(jobs, records[0]).Ok? {
      UpdateNoConflict(UpdateJob(jobs, records[0]).value, records[1..]);
    }
  }

  lemma {:induction false} ReleaseNoConflict(leases: Leases, uuids: seq<Uuid>)
    ensures ReleaseLeases(leases, uuids) != Err(RevisionConflict)
  {
    if uuids != [] && ReleaseLease(leases, uuids[0]).Ok? {
      ReleaseNoConflict(ReleaseLease(leases, uuids[0]).value, uuids[1..]);
    }
  }

  class ManagerWorker {
    const store: StateStore
    const queue: GlobalJobQueue
    const scheduler: FifoScheduler
    var supervised: SupervisedJobs
    var byPid: Pids
    ghost var spawned: multiset<JobId>

    constructor (store: StateStore, queue: GlobalJobQueue, scheduler: FifoScheduler, ghost spawned: multiset<JobId>)
      requires scheduler.store == store && scheduler.queue == queue
      ensures Valid() && this.store == store && this.queue == queue && this.scheduler == scheduler
      ensures State() == World(store.state, queue.entries, map[], map[], spawned)
    {
      this.store, this.queue, this.scheduler := store, queue, scheduler;
      this.supervised, this.byPid, this.spawned := map[], map[], spawned;
    }

    predicate Valid() {
      scheduler.store == store && scheduler.queue == queue
    }

    function Config(): SchedulerConfig {
      scheduler.Config()
    }

    ghost function State(): World
      reads this, store, queue
    {
      World(store.state, queue.entries, supervised, byPid, spawned)
    }

    /** What is left of the daemon: everything, or the store alone once it has died. */
    ghost function Left(alive: bool): Daemon
      reads this, store, queue
    {
      if alive then Up(State()) else Down(store.state, spawned)
    }

    /** Load, find the job, compose, write; retried at most three times on a revision conflict, which
        with a single writer never comes (see NoConflict). */
    method RewriteJob(id: JobId, compose: StoredJob -> Change, env: RewriteEnv)
      returns (code: Option<StoreError>, alive: bool)
      modifies store
      ensures Written(store.state, code, alive) == Rewrite(old(store.state), store.config, id, compose, env)
    {
      for attempt := 0 to 3
        invariant store.state == old(store.state)
        invariant attempt > 0 ==>
          Rewrite(store.state, store.config, id, compose, env) == Written(store.state, Some(RevisionConflict), true)
      {
        if !env.loadOk {
          return Some(BackendUnavailable), true;
        }
        if id !in store.state.jobs {
          return Some(JobNotFound), true;
        }
        code, alive := store.Apply(ChangeMutation(store.state.revision, compose(store.state.jobs[id])), env.fate);
        if code != Some(RevisionConflict) {
          return;
        }
      }
      return Some(RevisionConflict), true;
    }

    method ProcessSubmit(spec: JobSpec, env: SubmitEnv) returns (reply: SubmitReply, alive: bool)
      requires Valid()
      modifies store, queue
      ensures (Left(alive), reply) == Submit(Config(), old(State()), spec, env)
    {
      if !env.loadOk {
        return SubmitFailed(BackendUnavailable), true;
      }
      var record := NewRecord(NextId(store.state.jobs), spec);
      var code;
      code, alive := store.Apply(StateMutation(store.state.revision, [record], [], [], []), env.create);
      if !alive {
        return NoSubmitReply, false;
      }
      if code.Some? {
        return SubmitFailed(code.value), true;
      }
      var refused := queue.AdmitRecord(record);
      if refused.None? {
        return Submitted(record.id), true;
      }
      code, alive := store.Apply(ChangeMutation(store.state.revision, ToCancelled(record)), env.rollback);
      reply := if alive then QueueRejected(refused.value, code) else NoSubmitReply;
    }

    method Begin(id: JobId, signalOk: bool)
      modifies `supervised
      ensures supervised == BeginCancellation(old(supervised), id, signalOk)
    {
      if id !in supervised {
        return;
      }
      var v := supervised[id];
      var outcome, phase := RequestCancel(v.phase, signalOk).0, RequestCancel(v.phase, signalOk).1;
      if outcome.NotRunning? || outcome.AlreadyExited? {
        return;
      }
      supervised := supervised[id := v.(phase := phase, cancelling := true)];
    }

    method ProcessCancel(id: JobId, env: CancelEnv) returns (reply: CancelReply, alive: bool)
      requires Valid()
      modifies store, queue, `supervised
      ensures (Left(alive), reply) == Cancel(Config(), old(State()), id, env)
    {
      if !env.loadOk {
        return CancelFailed(BackendUnavailable), true;
      }
      if id !in store.state.jobs {
        return CancelNotFound, true;
      }
      var state := store.state.jobs[id].state;
      if state.Queued? {
        var code;
        code, alive := RewriteJob(id, ToCancelled, env.rewrite);
        if !alive {
          return NoCancelReply, false;
        }
        if code.Some? {
          return CancelFailed(code.value), true;
        }
        var removal := queue.RemoveJob(id);
        return JobCancelled, true;
      }
      if state.Starting? || state.Running? {
        var code;
        code, alive := RewriteJob(id, ToStopping, env.rewrite);
        if !alive {
          return NoCancelReply, false;
        }
        if code.Some? {
          return CancelFailed(code.value), true;
        }
        Begin(id, env.signalOk);
        return JobStopping, true;
      }
      if state.Stopping? {
        Begin(id, env.signalOk);
        return JobStopping, true;
      }
      return if state.Cancelled? then JobCancelled else CancelInvalidState(state), true;
    }

    method FailLaunch(id: JobId, uuid: Uuid, env: LaunchEnv) returns (alive: bool)
      requires Valid()
      modifies store
      ensures Left(alive) == Manager.FailLaunch(Config(), old(State()), id, uuid, env)
    {
      var code;
      code, alive := RewriteJob(id, record => ToFailed(record, uuid, env.reason, env.failed), env.fail);
    }

    method LaunchScheduled(id: JobId, uuid: Uuid, env: LaunchEnv) returns (alive: bool)
      requires Valid()
      modifies this, store
      ensures Left(alive) == Launch(Config(), old(State()), id, uuid, env)
    {
      if !env.loadOk || id !in store.state.jobs || !store.state.jobs[id].state.Starting? {
        return true;
      }
      if env.spawn.Refused? {
        alive := FailLaunch(id, uuid, env);
        return;
      }
      var identity := env.spawn.identity;
      spawned := spawned + multiset{id};
      var code;
      code, alive := RewriteJob(id, record => ToRunning(record, identity, env.started, env.logPath), env.running);
      if !alive {
        return;
      }
      if code.Some? || !env.registered || !env.attached {
        alive := FailLaunch(id, uuid, env);
        return;
      }
      supervised := supervised[id := Supervised(uuid, Alive, false, false, false, false)];
      byPid := byPid[identity.pid := id];
    }

    method ScheduleNow(env: ScheduleEnv) returns (alive: bool)
      requires Valid()
      modifies this, store, queue
      ensures Left(alive) == Schedule(Config(), old(State()), env)
    {
      if env.gpu.None? {
        return true;
      }
      var result;
      result, alive := scheduler.RunOnce(env.gpu.value, env.loadOk, env.fate);
      if alive && result.code.Scheduled? && result.job.Some? && result.gpu.Some? {
        alive := LaunchScheduled(result.job.value, result.gpu.value, env.launch);
      }
    }

    method ProcessExit(event: ExitEvent, now: Time, env: RewriteEnv) returns (alive: bool)
      requires Valid()
      modifies this, store
      ensures Left(alive) == Exit(Config(), old(State()), event, now, env)
      ensures P.Watched(old(State()), event) ==> P.ExitObeys(old(State()), event, now, env, Left(alive))
    {
      if P.Watched(State(), event) {
        P.ExitMeans(Config(), State(), event, now, env);
      }
      if event.pid !in byPid {
        return true;
      }
      var id := byPid[event.pid];
      if id !in supervised {
        byPid := byPid - {event.pid};
        return true;
      }
      var v := supervised[id];
      var code;
      code, alive := RewriteJob(id, record => ToExited(record, v, event, now), env);
      if !alive {
        return;
      }
      if v.adopted || v.pumpDone {
        supervised := supervised - {id};
      } else {
        supervised := supervised[id := v.(exited := true)];
      }
      byPid := byPid - {event.pid};
    }

    method DrainPumpDone(id: JobId)
      modifies `supervised
      ensures State() == PumpDone(old(State()), id)
    {
      if id in supervised {
        if supervised[id].exited {
          supervised := supervised - {id};
        } else {
          supervised := supervised[id := supervised[id].(pumpDone := true)];
        }
      }
    }

    /** Takes over the processes that a completed recovery confirmed. */
    method ArmRecovery(outcomes: seq<Outcome>, answers: JobId -> ArmAnswer)
      modifies `supervised, `byPid
      ensures State() == ArmAll(old(State()), outcomes, answers)
    {
      for i := 0 to |outcomes|
        invariant store.state == old(store.state) && queue.entries == old(queue.entries) && spawned == old(spawned)
        invariant ArmAll(old(State()), outcomes, answers) == ArmAll(State(), outcomes[i..], answers)
      {
        assert outcomes[i..][0] == outcomes[i] && outcomes[i..][1..] == outcomes[i + 1..];
        ghost var before := State();
        var o := outcomes[i];
        var answer := answers(o.job);
        if Adopts(o.decision) && answer.loadOk && o.job in store.state.jobs
          && ValidIdentity(store.state.jobs[o.job].execution.identity) && answer.adopted && answer.registered
        {
          var lease := FindLeaseGpu(store.state.leases, o.job);
          var recancel := o.decision.AdoptedStoppingNeedsRecancel?;
          supervised := supervised[o.job :=
            Supervised(if lease.Some? then lease.value else "", Alive, recancel, true, false, false)];
          byPid := byPid[store.state.jobs[o.job].execution.identity.pid := o.job];
          if recancel {
            Begin(o.job, answer.signalOk);
          }
        }
        assert State() == ArmOne(before, o, answer);
      }
      assert outcomes[|outcomes|..] == [];
    }
  }
}
