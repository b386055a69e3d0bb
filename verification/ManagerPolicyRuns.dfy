/** Exits, pumps, scheduling and restarts, field by field, and every step of every run (job_manager.cpp). */
module ManagerPolicyRuns {
  import opened Basics
  import opened Job
  import opened Store
  import opened Queue
  import opened StateStores
  import opened Scheduler
  import opened ScheduleRuns
  import opened Recovery
  import opened RecoverySettles
  import opened RecoveryRuns
  import opened Manager
  import opened ManagerSafety
  import opened ManagerRuns
  import opened ManagerQueue
  import opened ManagerPolicy
  import Steps = ManagerSteps
  import Exits = ManagerExit
  import SchedulePolicy
  import QueueDivergence

  // ---- Exit and pump ----

  /** What the store has against the end of a job at `now`. */
  function EndRefusal(s: StoreState, record: StoredJob, now: Time): Option<StoreError> {
    if s.revision == 0xFFFF_FFFF_FFFF_FFFF then Some(InvalidMutation)
    else if record.execution.startTime.Some? && record.execution.startTime.value > now then
      Some(InvalidExecutionRecord)
    else None
  }

  /** Only the supervision of `id` is another one, or none. */
  predicate OnlyThat(before: SupervisedJobs, after: SupervisedJobs, id: JobId) {
    && id in before && (forall j :: j in before && j != id ==> j in after && after[j] == before[j])
    && (forall j :: j in after ==> j in before)
  }

  /** A process that has exited is watched on until its output is drained. */
  predicate Exited(before: SupervisedJobs, after: SupervisedJobs, id: JobId) {
    && OnlyThat(before, after, id)
    && (id in after <==> !before[id].adopted && !before[id].pumpDone)
    && (id in after ==>
          && after[id].exited && after[id].gpu == before[id].gpu && after[id].phase == before[id].phase
          && after[id].cancelling == before[id].cancelling && !after[id].adopted && !after[id].pumpDone)
  }

  /** A drained job is watched on until its process has exited. */
  predicate Drained(before: SupervisedJobs, after: SupervisedJobs, id: JobId) {
    && OnlyThat(before, after, id) && (id in after <==> !before[id].exited)
    && (id in after ==>
          && after[id].pumpDone && !after[id].exited && after[id].gpu == before[id].gpu
          && after[id].phase == before[id].phase && after[id].cancelling == before[id].cancelling
          && after[id].adopted == before[id].adopted)
  }

  /** The exit of a supervised process. */
  predicate ExitObeys(w: World, event: ExitEvent, now: Time, env: RewriteEnv, d: Daemon)
    requires event.pid in w.byPid && w.byPid[event.pid] in w.supervised && w.byPid[event.pid] in w.store.jobs
  {
    var id := w.byPid[event.pid];
    && (d.Up? <==> Outlives(env))
    && (if Lands(env, EndRefusal(w.store, w.store.jobs[id], now)) then
          Exits.ExitWritten(w.store, StoreAt(d), id, w.supervised[id], event, now)
        else StoreAt(d) == w.store)
    && (d.Up? ==>
          && d.world == w.(store := d.world.store, supervised := d.world.supervised, byPid := w.byPid - {event.pid})
          && Exited(w.supervised, d.world.supervised, id))
    && (d.Down? ==> d.spawned == w.spawned)
  }

  /** A safe daemon watches the process, and its status is a machine word. */
  predicate Watched(w: World, event: ExitEvent) {
    && WorldSafe(w) && event.pid in w.byPid && Exits.StatusFits(event.status)
    && w.byPid[event.pid] in w.supervised && w.byPid[event.pid] in w.store.jobs
  }

  lemma ExitAnswers(s: StoreState, config: StoreConfig, id: JobId, v: Supervised, event: ExitEvent, now: Time)
    requires StoreSafe(s) && Guarded(s, id, v) && !v.exited && Exits.StatusFits(event.status)
    ensures var change := ToExited(s.jobs[id], v, event, now);
      var refusal := EndRefusal(s, s.jobs[id], now);
      && change.update.id == id && Exits.Ended(s.jobs[id], change.update, v.cancelling, event, now)
      && ApplyMutation(s, config, ChangeMutation(s.revision, change)) ==
         if refusal == None then Ok(StoreState(s.jobs[id := change.update], s.leases - {v.gpu}, s.revision + 1))
         else Err(refusal.value)
  {
    var record := s.jobs[id];
    assert ConsistentRecord(id, record) && RevisionFits(record.state, record.revision);
    Exits.ExitChange(record, v, event, now);
    Exits.ExitEnds(record, v, event, now);
    if s.revision != U64_MAX {
      Exits.TerminalChange(s, config, ToExited(record, v, event, now).update, v.gpu);
    }
  }

  lemma ExitComes(s: StoreState, config: StoreConfig, id: JobId, v: Supervised, event: ExitEvent, now: Time,
                  env: RewriteEnv)
    requires StoreSafe(s) && Guarded(s, id, v) && !v.exited && Exits.StatusFits(event.status)
    ensures var w := Rewrite(s, config, id, record => ToExited(record, v, event, now), env);
      && (w.alive <==> Outlives(env))
      && (if Lands(env, EndRefusal(s, s.jobs[id], now)) then Exits.ExitWritten(s, w.store, id, v, event, now)
          else w.store == s)
  {
    ExitAnswers(s, config, id, v, event, now);
    RewriteComes(s, config, id, record => ToExited(record, v, event, now), env, EndRefusal(s, s.jobs[id], now),
                 StoreState(s.jobs[id := ToExited(s.jobs[id], v, event, now).update], s.leases - {v.gpu},
                            s.revision + 1));
  }

  lemma WatchedExit(config: SchedulerConfig, w: World, event: ExitEvent, now: Time, env: RewriteEnv, id: JobId)
    requires event.pid in w.byPid && w.byPid[event.pid] == id && id in w.supervised && Exits.StatusFits(event.status)
    requires StoreSafe(w.store) && Guarded(w.store, id, w.supervised[id]) && !w.supervised[id].exited
    ensures ExitObeys(w, event, now, env, Exit(config, w, event, now, env))
  {
    ExitComes(w.store, config.store, id, w.supervised[id], event, now, env);
  }

  /** The exit of every watched process, whatever happens to its write. */
  lemma ExitMeans(config: SchedulerConfig, w: World, event: ExitEvent, now: Time, env: RewriteEnv)
    requires WorldSafe(w) && event.pid in w.byPid && Exits.StatusFits(event.status)
    ensures w.byPid[event.pid] in w.supervised && w.byPid[event.pid] in w.store.jobs
    ensures ExitObeys(w, event, now, env, Exit(config, w, event, now, env))
  {
    var id := w.byPid[event.pid];
    assert Guarded(w.store, id, w.supervised[id]);
    WatchedExit(config, w, event, now, env, id);
  }

  /** The exit of a process that is not watched leaves no trace of it. */
  lemma ExitIgnored(config: SchedulerConfig, w: World, event: ExitEvent, now: Time, env: RewriteEnv)
    requires event.pid in w.byPid ==> w.byPid[event.pid] !in w.supervised
    ensures Exit(config, w, event, now, env) == Up(w.(byPid := w.byPid - {event.pid}))
  {
    assert event.pid !in w.byPid ==> w.byPid - {event.pid} == w.byPid;
  }

  lemma PumpMeans(w: World, id: JobId)
    ensures var after := PumpDone(w, id);
      && after == w.(supervised := after.supervised)
      && (if id in w.supervised then Drained(w.supervised, after.supervised, id)
          else after.supervised == w.supervised)
  {
  }

  // ---- Schedule ----

  /** What follows a run: a scheduled job is launched, and only that. */
  ghost predicate RunObeyed(w: World, r: Run, env: LaunchEnv, d: Daemon) {
    var next := w.(store := r.store, queue := r.entries);
    if !r.alive then d == Down(r.store, w.spawned)
    else if r.result.code == Scheduled then
      && r.result.job.Some? && r.result.gpu.Some? && r.result.job.value in r.store.jobs
      && LaunchObeys(next, r.result.job.value, r.result.gpu.value, env, d)
    else d == Up(next)
  }

  ghost predicate ScheduleObeys(config: SchedulerConfig, w: World, env: ScheduleEnv, r: Run, d: Daemon) {
    if env.gpu == None then d == Up(w)
    else
      && SchedulePolicy.Policy(config, w.store, w.queue, env.gpu.value, env.loadOk, env.fate, r)
      && RunObeyed(w, r, env.launch, d)
  }

  lemma StartedOnDevice(s: StoreState, t: StoreState, id: JobId, uuid: Uuid)
    requires StoreSafe(s) && id in s.jobs && s.jobs[id].state == JobState.Queued && ValidUuid(uuid)
    requires uuid !in s.leases && t == Started(s, id, uuid)
    ensures OnDevice(t, id, uuid) && t.jobs[id].state == JobState.Starting
  {
    Steps.StartedFollows(s, id, uuid);
  }

  /** Every run of the scheduler and the launch behind it. */
  lemma ScheduleMeans(config: SchedulerConfig, w: World, env: ScheduleEnv) returns (r: Run)
    requires WorldSafe(w) && Synced(w.queue, w.store, config.capacity)
    ensures ScheduleObeys(config, w, env, r, Schedule(config, w, env))
  {
    if env.gpu.Some? {
      r := RunOnce(config, w.store, w.queue, env.gpu.value, env.loadOk, env.fate);
      SchedulePolicy.RunFollowsPolicy(config, w.store, w.queue, env.gpu.value, env.loadOk, env.fate);
      RunOnceKeeps(config, w.store, w.queue, env.gpu.value, env.loadOk, env.fate);
      if r.alive && r.result.code == Scheduled {
        StartedOnDevice(w.store, r.store, r.result.job.value, r.result.gpu.value);
        LaunchMeans(config, w.(store := r.store, queue := r.entries), r.result.job.value, r.result.gpu.value,
                    env.launch);
      }
    } else {
      r :| true;
    }
  }

  // ---- Restart ----

  predicate Lives(s: StoreState, id: JobId) {
    id in s.jobs && (s.jobs[id].state == JobState.Running || s.jobs[id].state == JobState.Stopping)
  }

  function PidOf(s: StoreState, id: JobId): int {
    if id in s.jobs then s.jobs[id].execution.identity.pid else 0
  }

  predicate Watchable(s: StoreState, id: JobId, answer: ArmAnswer) {
    Lives(s, id) && answer.loadOk && answer.adopted && answer.registered
  }

  /** A process taken over with the device its job holds; that of a STOPPING job is signalled again. */
  predicate Taken(s: StoreState, id: JobId, answer: ArmAnswer, v: Supervised) {
    && Lives(s, id) && v.gpu in s.leases && s.leases[v.gpu] == id && v.adopted && !v.exited && !v.pumpDone
    && (v.cancelling <==> s.jobs[id].state == JobState.Stopping)
    && v.phase == if s.jobs[id].state == JobState.Stopping && answer.signalOk then Terminating else Alive
  }

  /** The jobs of `done` are watched: each that lives and can be, and a pid leads to the last job that had it. */
  ghost predicate Watches(w: World, done: set<JobId>, arm: JobId -> ArmAnswer) {
    && (forall id :: id in w.supervised <==> id in done && Watchable(w.store, id, arm(id)))
    && (forall id :: id in w.supervised ==> Taken(w.store, id, arm(id), w.supervised[id]))
    && (forall id :: id in w.supervised ==> PidOf(w.store, id) in w.byPid)
    && (forall p :: p in w.byPid ==> w.byPid[p] in w.supervised && PidOf(w.store, w.byPid[p]) == p)
    && (forall id :: id in w.supervised ==> id <= w.byPid[PidOf(w.store, id)])
  }

  /** The report agrees with the store that the recovery left. */
  predicate Tells(s: StoreState, o: Outcome) {
    && (Adopts(o.decision) <==> Lives(s, o.job))
    && (o.decision == AdoptedStoppingNeedsRecancel <==> o.job in s.jobs && s.jobs[o.job].state == JobState.Stopping)
  }

  /** What arming one job adds. */
  predicate ArmedOne(w: World, after: World, id: JobId, answer: ArmAnswer) {
    if Watchable(w.store, id, answer) then
      && id in after.supervised && Taken(w.store, id, answer, after.supervised[id])
      && after == w.(supervised := w.supervised[id := after.supervised[id]],
                     byPid := w.byPid[PidOf(w.store, id) := id])
    else after == w
  }

  lemma ArmsLiving(w: World, o: Outcome, answer: ArmAnswer, gpu: Uuid)
    requires Watchable(w.store, o.job, answer) && Tells(w.store, o)
    requires ValidIdentity(w.store.jobs[o.job].execution.identity) && LeaseOf(w.store.leases, o.job) == Some(gpu)
    ensures ArmedOne(w, ArmOne(w, o, answer), o.job, answer)
  {
    Resignalled(w.supervised, o.job, Supervised(gpu, Alive, true, true, false, false), answer.signalOk);
  }

  lemma ArmOneMeans(w: World, o: Outcome, answer: ArmAnswer)
    requires Consistent(w.store) && Tells(w.store, o)
    ensures ArmedOne(w, ArmOne(w, o, answer), o.job, answer)
  {
    if Watchable(w.store, o.job, answer) {
      assert ConsistentRecord(o.job, w.store.jobs[o.job]);
      OnlyLease(w.store.jobs, w.store.leases, o.job);
      ArmsLiving(w, o, answer, LeaseOf(w.store.leases, o.job).value);
    }
  }

  lemma Resignalled(supervised: SupervisedJobs, id: JobId, v: Supervised, signalOk: bool)
    requires v.phase == Alive && v.cancelling
    ensures BeginCancellation(supervised[id := v], id, signalOk) ==
      supervised[id := v.(phase := if signalOk then Terminating else Alive)]
  {
    BeginMeans(supervised[id := v], id, signalOk);
  }

  lemma ArmedWatches(w: World, after: World, done: set<JobId>, id: JobId, arm: JobId -> ArmAnswer)
    requires Watches(w, done, arm) && ArmedOne(w, after, id, arm(id)) && forall j :: j in done ==> j < id
    ensures Watches(after, done + {id}, arm) && after.store == w.store
  {
  }

  predicate AllTell(s: StoreState, outcomes: seq<Outcome>) {
    forall i :: 0 <= i < |outcomes| ==> Tells(s, outcomes[i])
  }

  /** By increasing number, all behind those of `done`. */
  predicate InTurn(outcomes: seq<Outcome>, done: set<JobId>) {
    && (forall i, j :: 0 <= i < j < |outcomes| ==> outcomes[i].job < outcomes[j].job)
    && (forall i, j :: 0 <= i < |outcomes| && j in done ==> j < outcomes[i].job)
  }

  function JobsOf(outcomes: seq<Outcome>): set<JobId> {
    set o | o in outcomes :: o.job
  }

  lemma NextInTurn(s: StoreState, outcomes: seq<Outcome>, done: set<JobId>)
    requires outcomes != [] && InTurn(outcomes, done) && AllTell(s, outcomes)
    ensures Tells(s, outcomes[0]) && AllTell(s, outcomes[1..]) && InTurn(outcomes[1..], done + {outcomes[0].job})
    ensures forall j :: j in done ==> j < outcomes[0].job
    ensures done + JobsOf(outcomes) == done + {outcomes[0].job} + JobsOf(outcomes[1..])
  {
    assert outcomes == [outcomes[0]] + outcomes[1..];
  }

  lemma {:induction false} ArmAllMeans(w: World, outcomes: seq<Outcome>, done: set<JobId>, arm: JobId -> ArmAnswer)
    requires Consistent(w.store) && Watches(w, done, arm) && AllTell(w.store, outcomes) && InTurn(outcomes, done)
    ensures var after := ArmAll(w, outcomes, arm);
      && Watches(after, done + JobsOf(outcomes), arm)
      && after == w.(supervised := after.supervised, byPid := after.byPid)
    decreases outcomes
  {
    if outcomes == [] {
      assert done + JobsOf(outcomes) == done;
    } else {
      var o := outcomes[0];
      var next := ArmOne(w, o, arm(o.job));
      NextInTurn(w.store, outcomes, done);
      ArmOneMeans(w, o, arm(o.job));
      ArmedWatches(w, next, done, o.job, arm);
      ArmAllMeans(next, outcomes[1..], done + {o.job}, arm);
    }
  }

  /** Who is reported as adopted is alive in the recovered store, and nobody else is. */
  lemma ReportTells(before: StoredJob, t: StoreState, leases: Leases, answer: Verification, now: Time, o: Outcome)
    requires Reported(before, leases, answer, o) && before.id in t.jobs
    requires RecoveredJob(before, t.jobs[before.id], answer, now)
    ensures Tells(t, o)
  {
  }

  lemma ReportsTell(s: StoreState, t: StoreState, answers: Answers, now: Time, outcomes: seq<Outcome>)
    requires JobsSound(s.jobs) && AllReported(s, answers, outcomes) && Recuperated(s, answers, now, t)
    ensures AllTell(t, outcomes) && InTurn(outcomes, {}) && JobsOf(outcomes) == t.jobs.Keys
  {
    forall i | 0 <= i < |outcomes| ensures Tells(t, outcomes[i]) {
      var id := outcomes[i].job;
      assert ConsistentRecord(id, s.jobs[id]);
      ReportTells(s.jobs[id], t, s.leases, answers(id), now, outcomes[i]);
    }
  }

  /** A restart: every job comes out of the recovery as it should, and exactly the living ones that can be
      taken over are watched. */
  ghost predicate StartObeys(s: StoreState, spawned: multiset<JobId>, env: StartEnv, d: Daemon) {
    && (d.Down? ==> d.spawned == spawned)
    && (d.Up? ==>
          && Recuperated(s, env.answers, env.now, d.world.store) && d.world.spawned == spawned
          && WaitingInOrder(d.world.queue, d.world.store.jobs) && Watches(d.world, d.world.store.jobs.Keys, env.arm))
  }

  lemma ArmedFresh(w: World, outcomes: seq<Outcome>, arm: JobId -> ArmAnswer)
    requires Consistent(w.store) && w.supervised == map[] && w.byPid == map[]
    requires AllTell(w.store, outcomes) && InTurn(outcomes, {}) && JobsOf(outcomes) == w.store.jobs.Keys
    ensures var after := ArmAll(w, outcomes, arm);
      && Watches(after, w.store.jobs.Keys, arm)
      && after == w.(supervised := after.supervised, byPid := after.byPid)
  {
    ArmAllMeans(w, outcomes, {}, arm);
    assert {} + JobsOf(outcomes) == JobsOf(outcomes);
  }

  lemma RecoveredStarts(s: StoreState, spawned: multiset<JobId>, env: StartEnv, r: RecoveryRun)
    requires r.alive && r.code.Recovered? && Prepared(s, env, r)
    ensures StartObeys(s, spawned, env, AfterRecovery(spawned, r, env.arm))
  {
    ArmedFresh(World(r.store, r.entries, map[], map[], spawned), r.outcomes, env.arm);
  }

  /** What a completed recovery hands over to be armed. */
  ghost predicate Prepared(s: StoreState, env: StartEnv, r: RecoveryRun) {
    && Consistent(r.store) && AllTell(r.store, r.outcomes) && InTurn(r.outcomes, {})
    && JobsOf(r.outcomes) == r.store.jobs.Keys
    && Recuperated(s, env.answers, env.now, r.store) && WaitingInOrder(r.entries, r.store.jobs)
  }

  lemma RecoveryPrepares(config: SchedulerConfig, s: StoreState, env: StartEnv)
    requires Consistent(s) && EmptyAtStart(s)
    ensures var r := Recover(config.store, s, [], config.capacity, env.answers, env.now, env.loadOk, env.fates);
      r.alive && r.code.Recovered? ==> Prepared(s, env, r)
  {
    var r := Recover(config.store, s, [], config.capacity, env.answers, env.now, env.loadOk, env.fates);
    var n := RecoverKeeps(config.store, s, [], config.capacity, env.answers, env.now, env.loadOk, env.fates);
    if r.alive && r.code.Recovered? {
      RecoveredIsRecuperated(config.store, s, [], config.capacity, env.answers, env.now, env.loadOk, env.fates);
      RecoveryReports(config.store, s, [], config.capacity, env.answers, env.now, env.fates);
      ReportsTell(s, r.store, env.answers, env.now, r.outcomes);
    }
  }

  /** Every restart from a store that a daemon left. */
  lemma StartMeans(config: SchedulerConfig, s: StoreState, spawned: multiset<JobId>, env: StartEnv)
    requires StoreSafe(s) && SpawnedSafe(s, spawned)
    ensures StartObeys(s, spawned, env, Start(config, s, spawned, env))
  {
    var r := Recover(config.store, s, [], config.capacity, env.answers, env.now, env.loadOk, env.fates);
    RecoveryPrepares(config, s, env);
    if r.alive && r.code.Recovered? {
      RecoveredStarts(s, spawned, env, r);
    }
  }

  // ---- Every run ----

  /** What one event does to the daemon. */
  ghost predicate Obeys(config: SchedulerConfig, d: Daemon, e: Event, after: Daemon) {
    match d
    case Down(s, spawned) => if e.Restart? then StartObeys(s, spawned, e.start, after) else after == d
    case Up(w) =>
      match e
      case SubmitJob(spec, env) => exists t, id, reply :: SubmitObeys(config, w, spec, env, t, id, after, reply)
      case CancelJob(id, env) => exists reply :: CancelObeys(w, id, env, after, reply)
      case RunScheduler(env) => exists r :: ScheduleObeys(config, w, env, r, after)
      case ProcessExit(event, now, env) =>
        if event.pid !in w.byPid then after == d
        else
          Exits.StatusFits(event.status) ==>
            && w.byPid[event.pid] in w.supervised && w.byPid[event.pid] in w.store.jobs
            && ExitObeys(w, event, now, env, after)
      case PumpDrained(id) =>
        && after.Up? && after.world == w.(supervised := after.world.supervised)
        && (if id in w.supervised then Drained(w.supervised, after.world.supervised, id) else after == d)
      case Crash => after == Down(w.store, w.spawned)
      case Restart(_) => after == d
  }

  lemma SubmitStep(config: SchedulerConfig, w: World, spec: JobSpec, env: SubmitEnv)
    requires WorldSafe(w) && Synced(w.queue, w.store, config.capacity)
    ensures Obeys(config, Up(w), Event.SubmitJob(spec, env), Submit(config, w, spec, env).0)
  {
    var t, id := SubmitMeans(config, w, spec, env);
  }

  lemma CancelStep(config: SchedulerConfig, w: World, id: JobId, env: CancelEnv)
    requires WorldSafe(w) && Synced(w.queue, w.store, config.capacity)
    ensures Obeys(config, Up(w), Event.CancelJob(id, env), Cancel(config, w, id, env).0)
  {
    CancelMeans(config, w, id, env);
  }

  lemma ScheduleStep(config: SchedulerConfig, w: World, env: ScheduleEnv)
    requires WorldSafe(w) && Synced(w.queue, w.store, config.capacity)
    ensures Obeys(config, Up(w), RunScheduler(env), Schedule(config, w, env))
  {
    var r := ScheduleMeans(config, w, env);
  }

  lemma ExitStep(config: SchedulerConfig, w: World, event: ExitEvent, now: Time, env: RewriteEnv)
    requires WorldSafe(w)
    ensures Obeys(config, Up(w), ProcessExit(event, now, env), Exit(config, w, event, now, env))
  {
    if event.pid in w.byPid && Exits.StatusFits(event.status) {
      ExitMeans(config, w, event, now, env);
    }
  }

  lemma StepObeys(config: SchedulerConfig, d: Daemon, e: Event)
    requires Safe(d) && (d.Up? ==> Synced(d.world.queue, d.world.store, config.capacity))
    ensures Obeys(config, d, e, Step(config, d, e))
  {
    match d
    case Down(s, spawned) =>
      if e.Restart? {
        StartMeans(config, s, spawned, e.start);
      }
    case Up(w) =>
      match e
      case SubmitJob(spec, env) => SubmitStep(config, w, spec, env);
      case CancelJob(id, env) => CancelStep(config, w, id, env);
      case RunScheduler(env) => ScheduleStep(config, w, env);
      case ProcessExit(event, now, env) => ExitStep(config, w, event, now, env);
      case PumpDrained(id) => PumpMeans(w, id);
      case Crash =>
      case Restart(_) =>
  }

  /** In every run that has lost no queue entry, the next event does exactly what it should. */
  lemma EveryStepObeys(config: SchedulerConfig, events: seq<Event>, e: Event)
    requires !EntryLost(config, FRESH_DAEMON, events, false)
    ensures var d := Manager.Steps(config, FRESH_DAEMON, events); Obeys(config, d, e, Step(config, d, e))
  {
    StepsSafe(config, FRESH_DAEMON, events);
    StepsSynced(config, FRESH_DAEMON, events, false);
    StepObeys(config, Manager.Steps(config, FRESH_DAEMON, events), e);
  }

  // ---- After a lost entry ----

  lemma OneMissing(queue: seq<QueueEntry>, s: StoreState, t: StoreState, spec: JobSpec, id: JobId)
    requires InSync(queue, s.jobs) && Added(s, t, spec, id)
    ensures |WaitingIds(t.jobs)| == |queue| + 1 && QueueDivergence.Missing(queue, t.jobs) == {id}
  {
    InSyncCount(queue, s.jobs);
    InSyncOnce(queue, s.jobs);
    assert WaitingIds(t.jobs) == WaitingIds(s.jobs) + {id};
    forall other | other in WaitingIds(s.jobs) ensures exists i :: 0 <= i < |queue| && queue[i].job == other {
      assert Contains(queue, other);
    }
    forall i | 0 <= i < |queue| ensures queue[i].job != id {
      assert queue[i] in queue;
    }
  }

  lemma MissingStalls(config: SchedulerConfig, s: StoreState, t: StoreState, queue: seq<QueueEntry>, spec: JobSpec,
                      id: JobId, gpu: GpuSnapshot, fate: Fate)
    requires InSync(queue, s.jobs) && Added(s, t, spec, id) && JobsSound(t.jobs) && SchedulePolicy.SnapshotOf(gpu)
    ensures RunOnce(config, t, queue, gpu, true, fate) ==
      Run(t, queue, SchedulePolicy.Unseen(QueueStateDiverged, Some(id), None, Some(QueueJobNotFound)), true)
  {
    OneMissing(queue, s, t, spec, id);
    var d := QueueDivergence.RunDiverges(config, t, queue, gpu, fate);
    assert d.value.0.value in QueueDivergence.Missing(queue, t.jobs);
  }

  lemma ObeysLost(config: SchedulerConfig, w: World, spec: JobSpec, env: SubmitEnv, t: StoreState, id: JobId,
                  d: Daemon, reply: SubmitReply)
    requires SubmitObeys(config, w, spec, env, t, id, d, reply) && LosesSubmit(config, w, spec, env)
    ensures d == Up(w.(store := t)) && Added(w.store, t, spec, id)
  {
    assert SubmitRefusal(config.store, w.store, spec) == None;
    assert id in t.jobs && TurnedAway(w, t, id, env.rollback, d, reply);
  }

  /** What a submission that loses its entry leaves: the new job in the store, and everything else as it was. */
  lemma LostLeaves(config: SchedulerConfig, w: World, spec: JobSpec, env: SubmitEnv) returns (t: StoreState, id: JobId)
    requires WorldSafe(w) && Synced(w.queue, w.store, config.capacity) && LosesSubmit(config, w, spec, env)
    ensures Submit(config, w, spec, env).0 == Up(w.(store := t)) && Added(w.store, t, spec, id)
  {
    t, id := SubmitMeans(config, w, spec, env);
    var r := Submit(config, w, spec, env);
    ObeysLost(config, w, spec, env, t, id, r.0, r.1);
  }

  /** A submission that loses its entry stalls the scheduler: every run then names that job and does nothing. */
  lemma LostStalls(config: SchedulerConfig, w: World, spec: JobSpec, env: SubmitEnv, gpu: GpuSnapshot, fate: Fate)
    returns (id: JobId)
    requires WorldSafe(w) && Synced(w.queue, w.store, config.capacity) && LosesSubmit(config, w, spec, env)
    requires SchedulePolicy.SnapshotOf(gpu)
    ensures var d := Submit(config, w, spec, env).0;
      && d.Up? && id in WaitingIds(d.world.store.jobs) && id !in w.store.jobs
      && RunOnce(config, d.world.store, d.world.queue, gpu, true, fate) ==
         Run(d.world.store, d.world.queue,
             SchedulePolicy.Unseen(QueueStateDiverged, Some(id), None, Some(QueueJobNotFound)), true)
  {
    var t: StoreState;
    t, id := LostLeaves(config, w, spec, env);
    Steps.SubmitSafe(config, w, spec, env);
    MissingStalls(config, w.store, t, w.queue, spec, id, gpu, fate);
  }
}
