/** How far the store's revision can get: every write of the worker moves a job forward, and a job moves
    at most four times. */
module ManagerRevisions {
  import opened Basics
  import opened Job
  import opened Store
  import opened Queue
  import opened StateStores
  import opened Scheduler
  import opened ScheduleRuns
  import opened Recovery
  import opened RecoveryRuns
  import opened Manager
  import opened ManagerSafety
  import opened ManagerSteps
  import opened ManagerRuns
  import opened ManagerQueue
  import R = SqliteRows
  import T = SqliteTables
  import Q = SqliteStores

  // ---- Weight ----

  /** One for the creation of each job and one for each of its updates. */
  function Weight(jobs: Jobs, ids: set<JobId>): int
    requires ids <= jobs.Keys
    decreases |ids|
  {
    if ids == {} then 0
    else
      var id := Least(ids);
      1 + jobs[id].revision + Weight(jobs, ids - {id})
  }

  lemma {:induction false} WeightWithout(jobs: Jobs, ids: set<JobId>, id: JobId)
    requires ids <= jobs.Keys && id in ids
    ensures Weight(jobs, ids) == 1 + jobs[id].revision + Weight(jobs, ids - {id})
    decreases |ids|
  {
    var first := Least(ids);
    if first != id {
      WeightWithout(jobs, ids - {first}, id);
      WeightWithout(jobs, ids - {id}, first);
      assert ids - {first} - {id} == ids - {id} - {first};
    }
  }

  predicate NoLower(a: Jobs, b: Jobs) {
    forall id :: id in a ==> id in b && 0 <= a[id].revision <= b[id].revision
  }

  lemma {:induction false} WeightGrows(a: Jobs, b: Jobs, small: set<JobId>, large: set<JobId>)
    requires NoLower(a, b) && small <= a.Keys && small <= large <= b.Keys
    requires forall id :: id in large ==> 0 <= b[id].revision
    ensures Weight(a, small) <= Weight(b, large)
    decreases |large|
  {
    if large != {} {
      var id := Least(large);
      WeightGrows(a, b, small - {id}, large - {id});
      if id in small {
        WeightWithout(a, small, id);
      } else {
        assert small - {id} == small;
      }
    }
  }

  /** A job that is new or has moved makes the weight grow. */
  lemma WeightGrowsAt(a: Jobs, b: Jobs, id: JobId)
    requires NoLower(a, b) && (forall x :: x in b ==> 0 <= b[x].revision)
    requires id in b && (id in a ==> a[id].revision < b[id].revision)
    ensures Weight(a, a.Keys) < Weight(b, b.Keys)
  {
    WeightWithout(b, b.Keys, id);
    forall x | x in a.Keys - {id} ensures x in b.Keys - {id} {
      assert x in a;
    }
    WeightGrows(a, b, a.Keys - {id}, b.Keys - {id});
    if id in a {
      WeightWithout(a, a.Keys, id);
    } else {
      assert a.Keys - {id} == a.Keys;
    }
  }

  lemma {:induction false} WeightBound(jobs: Jobs, ids: set<JobId>)
    requires ids <= jobs.Keys && RevisionsFit(jobs)
    ensures Weight(jobs, ids) <= 5 * |ids|
    decreases |ids|
  {
    if ids != {} {
      var id := Least(ids);
      assert RevisionFits(jobs[id].state, jobs[id].revision);
      WeightBound(jobs, ids - {id});
    }
  }

  // ---- Writes ----

  /** No more revisions than moves of jobs, and no more jobs than allowed. */
  predicate Paced(s: StoreState, maxJobs: nat) {
    s.revision <= Weight(s.jobs, s.jobs.Keys) && |s.jobs| <= maxJobs
  }

  lemma EvolvedNoLower(a: Jobs, b: Jobs)
    requires JobsSound(a) && JobsEvolve(a, b)
    ensures NoLower(a, b)
  {
    forall id | id in a ensures id in b && 0 <= a[id].revision <= b[id].revision {
      assert ConsistentRecord(id, a[id]) && Evolves(a[id], b[id]);
    }
  }

  /** One revision more, and at least one job that is new or has moved. */
  lemma MovedPaced(s: StoreState, t: StoreState, maxJobs: nat, id: JobId)
    requires Paced(s, maxJobs) && JobsSound(s.jobs) && JobsSound(t.jobs) && JobsEvolve(s.jobs, t.jobs)
    requires t.revision == s.revision + 1 && |t.jobs| <= maxJobs
    requires id in t.jobs && (id in s.jobs ==> s.jobs[id].revision < t.jobs[id].revision)
    ensures Paced(t, maxJobs)
  {
    EvolvedNoLower(s.jobs, t.jobs);
    forall x | x in t.jobs ensures 0 <= t.jobs[x].revision {
      assert ConsistentRecord(x, t.jobs[x]);
    }
    WeightGrowsAt(s.jobs, t.jobs, id);
  }

  lemma KeysCount(a: Jobs, b: Jobs)
    requires a.Keys == b.Keys
    ensures |a| == |b|
  {
    assert |a| == |a.Keys| && |b| == |b.Keys|;
  }

  lemma CountedUpdate(records: seq<StoredJob>)
    requires records != []
    ensures CountUpdates(records, records[0].id) >= 1
  {
  }

  /** A write of updates alone, whatever happens to it. */
  lemma UpdatesPaced(s: StoreState, config: StoreConfig, m: StateMutation, fate: Fate)
    requires Consistent(s) && Paced(s, config.maxJobs) && m.creates == [] && m.updates != []
    ensures Paced(Write(s, config, m, fate).store, config.maxJobs)
  {
    WriteKeeps(s, config, m, fate);
    var t := Write(s, config, m, fate).store;
    if t != s {
      ApplyKeeps(s, config, m);
      var created, jobs, kept, leases := StepsOf(s, config, m);
      UpdateJobsKeeps(s.jobs, m.updates);
      KeysCount(s.jobs, jobs);
      var id := m.updates[0].id;
      CountedUpdate(m.updates);
      assert RevisionOf(t.jobs, id) > RevisionOf(s.jobs, id);
      UpdatedKnown(s.jobs, m.updates);
      MovedPaced(s, t, config.maxJobs, id);
    }
  }

  lemma UpdatedKnown(jobs: Jobs, records: seq<StoredJob>)
    requires records != [] && UpdateJobs(jobs, records).Ok?
    ensures records[0].id in jobs
  {
  }

  lemma CreatePaced(s: StoreState, config: StoreConfig, record: StoredJob, fate: Fate)
    requires Consistent(s) && Paced(s, config.maxJobs)
    ensures Paced(Write(s, config, CreateMutation(s, record), fate).store, config.maxJobs)
  {
    OneCreate(s, config, record, fate);
    var t := Write(s, config, CreateMutation(s, record), fate).store;
    if t != s {
      CreatedRoom(s, config, record, fate);
      MovedPaced(s, t, config.maxJobs, record.id);
    }
  }

  lemma CreatedRoom(s: StoreState, config: StoreConfig, record: StoredJob, fate: Fate)
    requires Consistent(s) && Write(s, config, CreateMutation(s, record), fate).store != s
    ensures |Write(s, config, CreateMutation(s, record), fate).store.jobs| <= config.maxJobs
  {
    SoleCreate(s, config, record);
    assert s.jobs[record.id := record].Keys == s.jobs.Keys + {record.id};
  }

  lemma StartedPaced(s: StoreState, maxJobs: nat, id: JobId, uuid: Uuid)
    requires Consistent(s) && Paced(s, maxJobs) && CanStart(s, id, uuid)
    ensures Paced(Started(s, id, uuid), maxJobs) && Consistent(Started(s, id, uuid))
  {
    var t := Started(s, id, uuid);
    StartedFollows(s, id, uuid);
    StartedCount(s, id, uuid);
    MovedPaced(s, t, maxJobs, id);
  }

  lemma StartedCount(s: StoreState, id: JobId, uuid: Uuid)
    requires id in s.jobs
    ensures |Started(s, id, uuid).jobs| == |s.jobs|
  {
    assert Started(s, id, uuid).jobs.Keys == s.jobs.Keys;
    KeysCount(s.jobs, Started(s, id, uuid).jobs);
  }

  // ---- What every write keeps, every run keeps ----

  /** The mutations the worker writes: one new job, or updates of jobs. */
  predicate Touches(m: StateMutation) {
    if m.creates == [] then m.updates != []
      else |m.creates| == 1 && m.updates == [] && m.acquires == [] && m.releases == []
  }

  predicate CanStart(s: StoreState, id: JobId, uuid: Uuid) {
    id in s.jobs && s.jobs[id].state.Queued? && ValidUuid(uuid) && uuid !in s.leases
  }

  ghost predicate KeptByWrites(config: StoreConfig, keep: StoreState -> bool) {
    && (forall s :: keep(s) ==> Consistent(s))
    && (forall s, m, fate :: keep(s) && Touches(m) && m.expectedRevision == s.revision ==>
        keep(Write(s, config, m, fate).store))
    && (forall s, id, uuid :: keep(s) && CanStart(s, id, uuid) ==> keep(Started(s, id, uuid)))
  }

  lemma RewriteKept(keep: StoreState -> bool, s: StoreState, config: StoreConfig, id: JobId,
                    compose: StoredJob -> Change, env: RewriteEnv)
    requires KeptByWrites(config, keep) && keep(s)
    ensures keep(Rewrite(s, config, id, compose, env).store)
  {
    if env.loadOk && id in s.jobs {
      assert Touches(ChangeMutation(s.revision, compose(s.jobs[id])));
    }
  }

  lemma SubmitKept(keep: StoreState -> bool, config: SchedulerConfig, w: World, spec: JobSpec, env: SubmitEnv)
    requires KeptByWrites(config.store, keep) && keep(w.store)
    ensures keep(StoreOf(Submit(config, w, spec, env).0))
  {
    var record := NewRecord(NextId(w.store.jobs), spec);
    assert Touches(CreateMutation(w.store, record));
    var t := Write(w.store, config.store, CreateMutation(w.store, record), env.create).store;
    AdmitCreatedKept(keep, config, w.(store := t), record, env.rollback);
    SubmitStore(config, w, spec, env);
  }

  lemma SubmitStore(config: SchedulerConfig, w: World, spec: JobSpec, env: SubmitEnv)
    ensures var record := NewRecord(NextId(w.store.jobs), spec);
      var written := Write(w.store, config.store, CreateMutation(w.store, record), env.create);
      StoreOf(Submit(config, w, spec, env).0) ==
        if !env.loadOk then w.store
        else if written.alive && written.code.None? then
          StoreOf(AdmitCreated(config, w.(store := written.store), record, env.rollback).0)
        else written.store
  {
  }

  lemma AdmitCreatedKept(keep: StoreState -> bool, config: SchedulerConfig, w: World, record: StoredJob, rollback: Fate)
    requires KeptByWrites(config.store, keep) && keep(w.store)
    ensures keep(StoreOf(AdmitCreated(config, w, record, rollback).0))
  {
    assert Touches(ChangeMutation(w.store.revision, ToCancelled(record)));
  }

  lemma CancelKept(keep: StoreState -> bool, config: SchedulerConfig, w: World, id: JobId, env: CancelEnv)
    requires KeptByWrites(config.store, keep) && keep(w.store)
    ensures keep(StoreOf(Cancel(config, w, id, env).0))
  {
    if env.loadOk && id in w.store.jobs {
      match w.store.jobs[id].state
      case Queued =>
        CancelQueuedStore(config, w, id, env);
        RewriteKept(keep, w.store, config.store, id, ToCancelled, env.rewrite);
      case Starting =>
        CancelActiveStore(config, w, id, env);
        RewriteKept(keep, w.store, config.store, id, ToStopping, env.rewrite);
      case Running =>
        CancelActiveStore(config, w, id, env);
        RewriteKept(keep, w.store, config.store, id, ToStopping, env.rewrite);
      case _ =>
    }
  }

  lemma CancelQueuedStore(config: SchedulerConfig, w: World, id: JobId, env: CancelEnv)
    ensures StoreOf(CancelQueued(config, w, id, env).0) ==
      Rewrite(w.store, config.store, id, ToCancelled, env.rewrite).store
  {
  }

  lemma CancelActiveStore(config: SchedulerConfig, w: World, id: JobId, env: CancelEnv)
    ensures StoreOf(CancelActive(config, w, id, env).0) ==
      Rewrite(w.store, config.store, id, ToStopping, env.rewrite).store
  {
  }

  lemma FailLaunchKept(keep: StoreState -> bool, config: SchedulerConfig, w: World, id: JobId, uuid: Uuid,
                       env: LaunchEnv)
    requires KeptByWrites(config.store, keep) && keep(w.store)
    ensures keep(StoreOf(FailLaunch(config, w, id, uuid, env)))
  {
    RewriteKept(keep, w.store, config.store, id, record => ToFailed(record, uuid, env.reason, env.failed), env.fail);
  }

  lemma LaunchKept(keep: StoreState -> bool, config: SchedulerConfig, w: World, id: JobId, uuid: Uuid, env: LaunchEnv)
    requires KeptByWrites(config.store, keep) && keep(w.store)
    ensures keep(StoreOf(Launch(config, w, id, uuid, env)))
  {
    match env.spawn
    case Refused => FailLaunchKept(keep, config, w, id, uuid, env);
    case Spawned(identity) => SpawnedKeeps(keep, config, w.(spawned := w.spawned + multiset{id}), id, uuid, identity,
                                           env);
  }

  lemma SpawnedKeeps(keep: StoreState -> bool, config: SchedulerConfig, w: World, id: JobId, uuid: Uuid,
                     identity: ProcessIdentity, env: LaunchEnv)
    requires KeptByWrites(config.store, keep) && keep(w.store)
    ensures keep(StoreOf(LaunchSpawned(config, w, id, uuid, identity, env)))
  {
    var compose := record => ToRunning(record, identity, env.started, env.logPath);
    RewriteKept(keep, w.store, config.store, id, compose, env.running);
    var t := Rewrite(w.store, config.store, id, compose, env.running).store;
    FailLaunchKept(keep, config, w.(store := t), id, uuid, env);
  }

  lemma AfterRunKept(keep: StoreState -> bool, config: SchedulerConfig, w: World, run: Run, env: LaunchEnv)
    requires KeptByWrites(config.store, keep) && keep(w.store) && RunSafe(w.store, run)
    ensures keep(StoreOf(AfterRun(config, w, run, env)))
  {
    if run.store != w.store {
      var id, uuid :| StartsOne(w.store, run, id, uuid);
      assert CanStart(w.store, id, uuid);
    }
    if run.result.job.Some? && run.result.gpu.Some? {
      LaunchKept(keep, config, w.(store := run.store, queue := run.entries), run.result.job.value,
                 run.result.gpu.value, env);
    }
  }

  lemma ScheduleKept(keep: StoreState -> bool, config: SchedulerConfig, w: World, env: ScheduleEnv)
    requires KeptByWrites(config.store, keep) && keep(w.store)
    ensures keep(StoreOf(Schedule(config, w, env)))
  {
    if env.gpu.Some? {
      RunOnceSafe(config, w.store, w.queue, env.gpu.value, env.loadOk, env.fate);
      AfterRunKept(keep, config, w, RunOnce(config, w.store, w.queue, env.gpu.value, env.loadOk, env.fate), env.launch);
    }
  }

  lemma ExitKept(keep: StoreState -> bool, config: SchedulerConfig, w: World, event: ExitEvent, now: Time,
                 env: RewriteEnv)
    requires KeptByWrites(config.store, keep) && keep(w.store)
    ensures keep(StoreOf(Exit(config, w, event, now, env)))
  {
    if event.pid in w.byPid && w.byPid[event.pid] in w.supervised {
      var id := w.byPid[event.pid];
      var v := w.supervised[id];
      RewriteKept(keep, w.store, config.store, id, record => ToExited(record, v, event, now), env);
    }
  }

  lemma {:induction false} WritesKept(keep: StoreState -> bool, s: StoreState, config: StoreConfig,
                                      chunks: seq<seq<Entry>>, fates: Fates, k: nat)
    requires KeptByWrites(config, keep) && keep(s) && forall i :: 0 <= i < |chunks| ==> chunks[i] != []
    ensures keep(WriteAll(s, config, s.revision, chunks, fates, k).store)
    decreases chunks
  {
    if chunks != [] {
      assert Touches(MutationOf(s.revision, chunks[0]));
      WritesKept(keep, Write(s, config, MutationOf(s.revision, chunks[0]), fates(k)).store, config, chunks[1..], fates,
                 k + 1);
    }
  }

  lemma ChunksFilled(plan: seq<Entry>)
    ensures forall i :: 0 <= i < |Chunks([], plan)| ==> Chunks([], plan)[i] != []
  {
    ChunksKeepPlan([], plan);
    var chunks := Chunks([], plan);
    forall i | 0 <= i < |chunks| ensures chunks[i] != [] {
      assert 1 <= Size(chunks[i]);
    }
  }

  lemma RecoverKept(keep: StoreState -> bool, config: StoreConfig, s: StoreState, entries: seq<QueueEntry>,
                    capacity: nat, answers: Answers, now: Time, loadOk: bool, fates: Fates)
    requires KeptByWrites(config, keep) && keep(s)
    ensures keep(Recover(config, s, entries, capacity, answers, now, loadOk, fates).store)
  {
    if loadOk {
      RecoverFromKept(keep, config, s, Load(s), entries, capacity, answers, now, fates);
    }
  }

  lemma RecoverFromKept(keep: StoreState -> bool, config: StoreConfig, s: StoreState, snapshot: Snapshot,
                        entries: seq<QueueEntry>, capacity: nat, answers: Answers, now: Time, fates: Fates)
    requires KeptByWrites(config, keep) && keep(s) && snapshot.revision == s.revision
    ensures keep(RecoverFrom(config, s, snapshot, entries, capacity, answers, now, fates).store)
  {
    var chunks := Chunks([], PlanOf(snapshot, answers, now));
    ChunksFilled(PlanOf(snapshot, answers, now));
    WritesKept(keep, s, config, chunks, fates, 0);
    FinishKeepsStore(WriteAll(s, config, s.revision, chunks, fates, 0), entries,
                     Outcomes(snapshot.jobs, |snapshot.jobs|, snapshot.leases, answers), Restore(snapshot, capacity));
  }

  lemma FinishKeepsStore(p: Progress, entries: seq<QueueEntry>, outcomes: seq<Outcome>,
                         restored: Result<seq<QueueEntry>, QueueError>)
    ensures Finish(p, entries, outcomes, restored).store == p.store
  {
  }

  lemma {:induction false} ArmKeepsStore(w: World, outcomes: seq<Outcome>, answers: JobId -> ArmAnswer)
    ensures ArmAll(w, outcomes, answers).store == w.store
    decreases outcomes
  {
    if outcomes != [] {
      ArmKeepsStore(ArmOne(w, outcomes[0], answers(outcomes[0].job)), outcomes[1..], answers);
    }
  }

  lemma AfterRecoveryKeepsStore(spawned: multiset<JobId>, r: RecoveryRun, arm: JobId -> ArmAnswer)
    ensures StoreOf(AfterRecovery(spawned, r, arm)) == r.store
  {
    ArmKeepsStore(World(r.store, r.entries, map[], map[], spawned), r.outcomes, arm);
  }

  lemma StartKept(keep: StoreState -> bool, config: SchedulerConfig, s: StoreState, spawned: multiset<JobId>,
                  env: StartEnv)
    requires KeptByWrites(config.store, keep) && keep(s)
    ensures keep(StoreOf(Start(config, s, spawned, env)))
  {
    RecoverKept(keep, config.store, s, [], config.capacity, env.answers, env.now, env.loadOk, env.fates);
    AfterRecoveryKeepsStore(
      spawned, Recover(config.store, s, [], config.capacity, env.answers, env.now, env.loadOk, env.fates), env.arm);
  }

  lemma HandlerKept(keep: StoreState -> bool, config: SchedulerConfig, w: World, e: Event)
    requires KeptByWrites(config.store, keep) && keep(w.store)
    ensures keep(StoreOf(Step(config, Up(w), e)))
  {
    match e
    case SubmitJob(spec, env) => SubmitKept(keep, config, w, spec, env);
    case CancelJob(id, env) => CancelKept(keep, config, w, id, env);
    case RunScheduler(env) => ScheduleKept(keep, config, w, env);
    case ProcessExit(exit, now, env) => ExitKept(keep, config, w, exit, now, env);
    case PumpDrained(id) =>
    case Crash =>
    case Restart(_) =>
  }

  /** Whatever every write of the worker keeps of the store, every run keeps, with crashes and restarts. */
  lemma {:induction false} StepsKept(keep: StoreState -> bool, config: SchedulerConfig, d: Daemon, events: seq<Event>)
    requires KeptByWrites(config.store, keep) && keep(StoreOf(d))
    ensures keep(StoreOf(Steps(config, d, events)))
    decreases events
  {
    if events != [] {
      match d {
        case Down(s, spawned) =>
          if events[0].Restart? {
            StartKept(keep, config, s, spawned, events[0].start);
          }
        case Up(w) => HandlerKept(keep, config, w, events[0]);
      }
      StepsKept(keep, config, Step(config, d, events[0]), events[1..]);
    }
  }

  // ---- Every run ----

  lemma WritePaced(s: StoreState, config: StoreConfig, m: StateMutation, fate: Fate)
    requires Consistent(s) && Paced(s, config.maxJobs) && Touches(m) && m.expectedRevision == s.revision
    ensures Consistent(Write(s, config, m, fate).store) && Paced(Write(s, config, m, fate).store, config.maxJobs)
  {
    WriteKeeps(s, config, m, fate);
    if m.creates == [] {
      UpdatesPaced(s, config, m, fate);
    } else {
      assert m == CreateMutation(s, m.creates[0]);
      CreatePaced(s, config, m.creates[0], fate);
    }
  }

  lemma PacedKept(config: StoreConfig, keep: StoreState -> bool)
    requires forall s :: keep(s) <==> Consistent(s) && Paced(s, config.maxJobs)
    ensures KeptByWrites(config, keep)
  {
    forall s, m, fate | keep(s) && Touches(m) && m.expectedRevision == s.revision
      ensures keep(Write(s, config, m, fate).store)
    {
      WritePaced(s, config, m, fate);
    }
    forall s, id, uuid | keep(s) && CanStart(s, id, uuid) ensures keep(Started(s, id, uuid)) {
      StartedPaced(s, config.maxJobs, id, uuid);
    }
  }

  lemma StepsPaced(config: SchedulerConfig, events: seq<Event>)
    ensures Paced(StoreOf(Steps(config, FRESH_DAEMON, events)), config.store.maxJobs)
  {
    var keep := (s: StoreState) => Consistent(s) && Paced(s, config.store.maxJobs);
    PacedKept(config.store, keep);
    StepsKept(keep, config, FRESH_DAEMON, events);
  }

  /** Over every run from an empty store the revision is at most five for each job. */
  lemma RevisionBound(config: SchedulerConfig, events: seq<Event>)
    ensures var s := StoreOf(Steps(config, FRESH_DAEMON, events));
      s.revision <= 5 * |s.jobs| && |s.jobs| <= config.store.maxJobs
  {
    StepsSafe(config, FRESH_DAEMON, events);
    StepsPaced(config, events);
    var s := StoreOf(Steps(config, FRESH_DAEMON, events));
    WeightBound(s.jobs, s.jobs.Keys);
    assert |s.jobs| == |s.jobs.Keys|;
  }

  /** With a limit of jobs that is at most a fifth of the revisions, no revision ever runs out, and a submit
      loses an entry exactly if the queue is full and the backend is gone for the undoing write. */
  lemma RevisionsLast(config: SchedulerConfig, events: seq<Event>, spec: JobSpec, env: SubmitEnv)
    requires 5 * config.store.maxJobs < U64_MAX - 1
    ensures StoreOf(Steps(config, FRESH_DAEMON, events)).revision < U64_MAX - 1
    ensures var d := Steps(config, FRESH_DAEMON, events);
      d.Up? ==> (LosesSubmit(config, d.world, spec, env) <==>
        && env.loadOk && env.create.Answered? && Creatable(config.store, d.world.store, spec)
        && |d.world.queue| >= config.capacity && env.rollback.Unavailable?)
  {
    RevisionBound(config, events);
  }

  /** With a limit of jobs that is at most a fifth of what the revision column holds, the column refuses nothing
      that the mutation core accepts, in any state that a run can reach. */
  lemma ColumnLasts(config: SchedulerConfig, events: seq<Event>, t: T.Tables, m: StateMutation, failAt: nat)
    requires 5 * config.store.maxJobs < R.I64_LIMIT - 1
    requires Q.WellTyped(t) && T.Writable(m.creates) && T.Writable(m.updates)
    requires Q.DecodeTables(t) == Ok(StoreOf(Steps(config, FRESH_DAEMON, events)))
    ensures Q.ApplyRows(t, config.store, m, failAt).1.None? <==>
      failAt >= Q.Statements(m) && ApplyMutation(StoreOf(Steps(config, FRESH_DAEMON, events)), config.store, m).Ok?
  {
    RevisionBound(config, events);
    Q.CommitsAsCore(t, config.store, m, failAt);
  }
}
