/** The single-writer worker as a transition system: submit, cancel, schedule and launch, process exit,
    pump drained, crash and restart (job_manager.cpp). */
module Manager {
  import opened Basics
  import opened Job
  import opened Store
  import opened Queue
  import opened StateStores
  import opened Scheduler
  import opened ScheduleRuns
  import opened Recovery
  import opened RecoveryRuns

  // ---- State ----

  /** The phase of a process supervisor. Only `poll_exit`, which the worker never calls, makes it Gone. */
  datatype Phase = Idle | Alive | Terminating | Gone

  datatype Supervised = Supervised(
    gpu: Uuid, phase: Phase, cancelling: bool, adopted: bool, exited: bool, pumpDone: bool)

  type SupervisedJobs = map<JobId, Supervised>
  type Pids = map<int, JobId>

  /** `spawned` counts the processes ever started for each job, over all lives of the daemon. */
  datatype World = World(
    store: StoreState, queue: seq<QueueEntry>, supervised: SupervisedJobs, byPid: Pids, spawned: multiset<JobId>)

  /** What survives a crash is the store; that a process was started cannot be undone either. */
  datatype Daemon = Up(world: World) | Down(store: StoreState, spawned: multiset<JobId>)

  function Resume(w: World, written: Written): Daemon {
    if written.alive then Up(w.(store := written.store)) else Down(written.store, w.spawned)
  }

  // ---- One job rewritten: load, compose, write ----

  datatype RewriteEnv = RewriteEnv(loadOk: bool, fate: Fate)

  datatype Change = Change(update: StoredJob, releases: seq<Uuid>)

  function ChangeMutation(revision: int, change: Change): StateMutation {
    StateMutation(revision, [], [change.update], [], change.releases)
  }

  function Rewrite(s: StoreState, config: StoreConfig, id: JobId, compose: StoredJob -> Change,
                   env: RewriteEnv): Written {
    if !env.loadOk then Written(s, Some(BackendUnavailable), true)
    else if id !in s.jobs then Written(s, Some(JobNotFound), true)
    else Write(s, config, ChangeMutation(s.revision, compose(s.jobs[id])), env.fate)
  }

  function MoveTo(record: StoredJob, state: JobState): StoredJob {
    record.(state := state, revision := record.revision + 1)
  }

  function ToCancelled(record: StoredJob): Change {
    Change(MoveTo(record, JobState.Cancelled), [])
  }

  function ToStopping(record: StoredJob): Change {
    Change(MoveTo(record, JobState.Stopping), [])
  }

  function ToRunning(record: StoredJob, identity: ProcessIdentity, now: Time, logPath: string): Change {
    Change(MoveTo(record, JobState.Running).(execution := record.execution.(
             identity := identity, startTime := Some(now), logPath := Some(logPath))), [])
  }

  function ToFailed(record: StoredJob, uuid: Uuid, reason: string, now: Time): Change {
    if IsTerminal(record.state) then Change(record, [])
    else
      Change(MoveTo(record, JobState.Failed).(execution := record.execution.(
               failureReason := Some(Clipped(reason)), endTime := Some(now))), [uuid])
  }

  function Clipped(reason: string): string {
    if |reason| <= MAX_FAILURE_REASON_BYTES then reason else reason[..MAX_FAILURE_REASON_BYTES]
  }

  function IntText(n: int): string {
    if n < 0 then "-" + Decimal(-n) else Decimal(n)
  }

  datatype ExitEvent = ExitEvent(pid: int, verified: bool, status: ExitStatus)

  // Put together from words: its length and characters are then easy to prove.
  const STATUS_UNAVAILABLE := "exit status unavailable " + "(identity verification failed " + "or adopted process)"

  /** How a finished process ends its job: the terminal state and the reason for a failure. */
  function Verdict(cancelling: bool, event: ExitEvent): (JobState, Option<string>) {
    if cancelling then (JobState.Cancelled, None)
    else if !event.verified then
      (JobState.Failed, Some(STATUS_UNAVAILABLE))
    else if event.status.reason.Exited? && event.status.exitCode == 0 then (JobState.Finished, None)
    else if event.status.reason.Exited? then
      (JobState.Failed, Some("exited with code " + IntText(event.status.exitCode)))
    else (JobState.Failed, Some("terminated by signal " + IntText(event.status.signal)))
  }

  function ToExited(record: StoredJob, v: Supervised, event: ExitEvent, now: Time): Change {
    if IsTerminal(record.state) then Change(record, [])
    else
      var verdict := Verdict(v.cancelling, event);
      var execution := record.execution.(endTime := Some(now), failureReason := verdict.1);
      Change(MoveTo(record, verdict.0).(
               execution := if event.verified then execution.(exit := Some(event.status)) else execution), [v.gpu])
  }

  // ---- Submit ----

  /** The id after the last one, in 64-bit arithmetic. */
  function After64(ids: seq<JobId>): JobId {
    if ids == [] then 1 else if ids[|ids| - 1] == U64_MAX then 0 else ids[|ids| - 1] + 1
  }

  function NextId(jobs: Jobs): JobId {
    After64(InOrder(jobs.Keys))
  }

  function NewRecord(id: JobId, spec: JobSpec): StoredJob {
    StoredJob(id, spec, JobState.Queued, 0, NO_EXECUTION)
  }

  function CreateMutation(s: StoreState, record: StoredJob): StateMutation {
    StateMutation(s.revision, [record], [], [], [])
  }

  datatype SubmitEnv = SubmitEnv(loadOk: bool, create: Fate, rollback: Fate)

  /** The daemon sends no reply when it dies. */
  datatype SubmitReply =
    | NoSubmitReply | Submitted(id: JobId) | SubmitFailed(error: StoreError)
    | QueueRejected(refusal: QueueError, rollbackError: Option<StoreError>)

  function Submit(config: SchedulerConfig, w: World, spec: JobSpec, env: SubmitEnv): (Daemon, SubmitReply) {
    if !env.loadOk then (Up(w), SubmitFailed(BackendUnavailable))
    else
      var record := NewRecord(NextId(w.store.jobs), spec);
      var created := Write(w.store, config.store, CreateMutation(w.store, record), env.create);
      if !created.alive then (Down(created.store, w.spawned), NoSubmitReply)
      else if created.code.Some? then (Up(w), SubmitFailed(created.code.value))
      else AdmitCreated(config, w.(store := created.store), record, env.rollback)
  }

  /** Queues the created job; a job the queue refuses is cancelled again in the store. */
  function AdmitCreated(config: SchedulerConfig, w: World, record: StoredJob, rollback: Fate): (Daemon, SubmitReply) {
    var refused := AdmitError(w.queue, config.capacity, record);
    if refused.None? then (Up(w.(queue := Insert(w.queue, EntryOf(record)))), Submitted(record.id))
    else
      var undone := Write(w.store, config.store, ChangeMutation(w.store.revision, ToCancelled(record)), rollback);
      (Resume(w, undone), if undone.alive then QueueRejected(refused.value, undone.code) else NoSubmitReply)
  }

  // ---- Cancel ----

  datatype CancelOutcome = NotRunning | NowTerminating | AlreadyTerminating | AlreadyExited | SignalFailed

  function RequestCancel(phase: Phase, signalOk: bool): (CancelOutcome, Phase) {
    match phase
    case Idle => (NotRunning, phase)
    case Terminating => (AlreadyTerminating, phase)
    case Gone => (AlreadyExited, phase)
    case Alive => if signalOk then (NowTerminating, Terminating) else (SignalFailed, phase)
  }

  function BeginCancellation(supervised: SupervisedJobs, id: JobId, signalOk: bool): SupervisedJobs {
    if id !in supervised then supervised
    else
      var v := supervised[id];
      var asked := RequestCancel(v.phase, signalOk);
      if asked.0.NotRunning? || asked.0.AlreadyExited? then supervised
      else supervised[id := v.(phase := asked.1, cancelling := true)]
  }

  datatype CancelEnv = CancelEnv(loadOk: bool, rewrite: RewriteEnv, signalOk: bool)

  datatype CancelReply =
    | NoCancelReply | JobCancelled | JobStopping | CancelNotFound | CancelFailed(error: StoreError)
    | CancelInvalidState(state: JobState)

  function Cancel(config: SchedulerConfig, w: World, id: JobId, env: CancelEnv): (Daemon, CancelReply) {
    if !env.loadOk then (Up(w), CancelFailed(BackendUnavailable))
    else if id !in w.store.jobs then (Up(w), CancelNotFound)
    else match w.store.jobs[id].state
      case Queued => CancelQueued(config, w, id, env)
      case Starting => CancelActive(config, w, id, env)
      case Running => CancelActive(config, w, id, env)
      case Stopping => (Up(w.(supervised := BeginCancellation(w.supervised, id, env.signalOk))), JobStopping)
      case Cancelled => (Up(w), JobCancelled)
      case state => (Up(w), CancelInvalidState(state))
  }

  function CancelQueued(config: SchedulerConfig, w: World, id: JobId, env: CancelEnv): (Daemon, CancelReply) {
    var written := Rewrite(w.store, config.store, id, ToCancelled, env.rewrite);
    if !written.alive then (Down(written.store, w.spawned), NoCancelReply)
    else if written.code.Some? then (Up(w.(store := written.store)), CancelFailed(written.code.value))
    else (Up(w.(store := written.store, queue := Remove(w.queue, id))), JobCancelled)
  }

  function CancelActive(config: SchedulerConfig, w: World, id: JobId, env: CancelEnv): (Daemon, CancelReply) {
    var written := Rewrite(w.store, config.store, id, ToStopping, env.rewrite);
    if !written.alive then (Down(written.store, w.spawned), NoCancelReply)
    else if written.code.Some? then (Up(w.(store := written.store)), CancelFailed(written.code.value))
    else (Up(w.(store := written.store, supervised := BeginCancellation(w.supervised, id, env.signalOk))), JobStopping)
  }

  // ---- Schedule and launch ----

  /** What the launch of a scheduled job meets. A refusal is any failure before a process exists; the
      text of a failure is the environment's. */
  datatype Spawn = Refused | Spawned(identity: ProcessIdentity)

  datatype LaunchEnv = LaunchEnv(
    loadOk: bool, spawn: Spawn, started: Time, logPath: string, running: RewriteEnv,
    registered: bool, attached: bool, reason: string, failed: Time, fail: RewriteEnv)

  function FailLaunch(config: SchedulerConfig, w: World, id: JobId, uuid: Uuid, env: LaunchEnv): Daemon {
    Resume(w, Rewrite(w.store, config.store, id, record => ToFailed(record, uuid, env.reason, env.failed), env.fail))
  }

  function LaunchSpawned(config: SchedulerConfig, w: World, id: JobId, uuid: Uuid, identity: ProcessIdentity,
                         env: LaunchEnv): Daemon {
    var written := Rewrite(w.store, config.store, id, record => ToRunning(record, identity, env.started, env.logPath),
                           env.running);
    var next := w.(store := written.store);
    if !written.alive then Down(written.store, w.spawned)
    else if written.code.Some? || !env.registered || !env.attached then FailLaunch(config, next, id, uuid, env)
    else Up(next.(supervised := w.supervised[id := Supervised(uuid, Alive, false, false, false, false)],
                  byPid := w.byPid[identity.pid := id]))
  }

  function Launch(config: SchedulerConfig, w: World, id: JobId, uuid: Uuid, env: LaunchEnv): Daemon {
    if !env.loadOk || id !in w.store.jobs || !w.store.jobs[id].state.Starting? then Up(w)
    else match env.spawn
      case Refused => FailLaunch(config, w, id, uuid, env)
      case Spawned(identity) =>
        LaunchSpawned(config, w.(spawned := w.spawned + multiset{id}), id, uuid, identity, env)
  }

  /** `gpu` is `None` when there is no snapshot or the run is not accepted. */
  datatype ScheduleEnv = ScheduleEnv(gpu: Option<GpuSnapshot>, loadOk: bool, fate: Fate, launch: LaunchEnv)

  function AfterRun(config: SchedulerConfig, w: World, run: Run, env: LaunchEnv): Daemon {
    var next := w.(store := run.store, queue := run.entries);
    if !run.alive then Down(run.store, w.spawned)
    else if run.result.code.Scheduled? && run.result.job.Some? && run.result.gpu.Some? then
      Launch(config, next, run.result.job.value, run.result.gpu.value, env)
    else Up(next)
  }

  function Schedule(config: SchedulerConfig, w: World, env: ScheduleEnv): Daemon {
    if env.gpu.None? then Up(w)
    else AfterRun(config, w, RunOnce(config, w.store, w.queue, env.gpu.value, env.loadOk, env.fate), env.launch)
  }

  // ---- Exit and pump ----

  function Exit(config: SchedulerConfig, w: World, event: ExitEvent, now: Time, env: RewriteEnv): Daemon {
    if event.pid !in w.byPid then Up(w)
    else if w.byPid[event.pid] !in w.supervised then Up(w.(byPid := w.byPid - {event.pid}))
    else
      var id := w.byPid[event.pid];
      var v := w.supervised[id];
      var written := Rewrite(w.store, config.store, id, record => ToExited(record, v, event, now), env);
      if !written.alive then Down(written.store, w.spawned)
      else Up(w.(store := written.store, byPid := w.byPid - {event.pid},
                 supervised := if v.adopted || v.pumpDone then w.supervised - {id}
                               else w.supervised[id := v.(exited := true)]))
  }

  function PumpDone(w: World, id: JobId): World {
    if id !in w.supervised then w
    else if w.supervised[id].exited then w.(supervised := w.supervised - {id})
    else w.(supervised := w.supervised[id := w.supervised[id].(pumpDone := true)])
  }

  // ---- Restart ----

  datatype ArmAnswer = ArmAnswer(loadOk: bool, adopted: bool, registered: bool, signalOk: bool)

  predicate Adopts(d: Decision) {
    d.AdoptedRunning? || d.AdoptedPromotedToRunning? || d.AdoptedStoppingNeedsRecancel?
  }

  function ArmOne(w: World, o: Outcome, answer: ArmAnswer): World {
    var s := w.store;
    if !Adopts(o.decision) || !answer.loadOk || o.job !in s.jobs || !ValidIdentity(s.jobs[o.job].execution.identity)
       || !answer.adopted || !answer.registered then w
    else
      var lease := LeaseOf(s.leases, o.job);
      var recancel := o.decision.AdoptedStoppingNeedsRecancel?;
      var v := Supervised(if lease.Some? then lease.value else "", Alive, recancel, true, false, false);
      var supervised := w.supervised[o.job := v];
      w.(supervised := if recancel then BeginCancellation(supervised, o.job, answer.signalOk) else supervised,
         byPid := w.byPid[s.jobs[o.job].execution.identity.pid := o.job])
  }

  function ArmAll(w: World, outcomes: seq<Outcome>, answers: JobId -> ArmAnswer): World
    decreases outcomes
  {
    if outcomes == [] then w else ArmAll(ArmOne(w, outcomes[0], answers(outcomes[0].job)), outcomes[1..], answers)
  }

  datatype StartEnv = StartEnv(
    answers: Answers, now: Time, loadOk: bool, fates: Fates, arm: JobId -> ArmAnswer)

  /** A daemon whose recovery fails does not come up. */
  function AfterRecovery(spawned: multiset<JobId>, r: RecoveryRun, arm: JobId -> ArmAnswer): Daemon {
    if !r.alive || !r.code.Recovered? then Down(r.store, spawned)
    else Up(ArmAll(World(r.store, r.entries, map[], map[], spawned), r.outcomes, arm))
  }

  function Start(config: SchedulerConfig, s: StoreState, spawned: multiset<JobId>, env: StartEnv): Daemon {
    AfterRecovery(spawned, Recover(config.store, s, [], config.capacity, env.answers, env.now, env.loadOk, env.fates),
                  env.arm)
  }

  // ---- Runs ----

  datatype Event =
    | SubmitJob(spec: JobSpec, submit: SubmitEnv)
    | CancelJob(id: JobId, cancel: CancelEnv)
    | RunScheduler(schedule: ScheduleEnv)
    | ProcessExit(exit: ExitEvent, now: Time, write: RewriteEnv)
    | PumpDrained(pump: JobId)
    | Crash
    | Restart(start: StartEnv)

  /** A stopped daemon only reacts to a restart, a running one to everything else. */
  function Step(config: SchedulerConfig, d: Daemon, e: Event): Daemon {
    match d
    case Down(s, spawned) => if e.Restart? then Start(config, s, spawned, e.start) else d
    case Up(w) =>
      match e
      case SubmitJob(spec, env) => Submit(config, w, spec, env).0
      case CancelJob(id, env) => Cancel(config, w, id, env).0
      case RunScheduler(env) => Schedule(config, w, env)
      case ProcessExit(exit, now, env) => Exit(config, w, exit, now, env)
      case PumpDrained(id) => Up(PumpDone(w, id))
      case Crash => Down(w.store, w.spawned)
      case Restart(_) => d
  }

  function Steps(config: SchedulerConfig, d: Daemon, events: seq<Event>): Daemon
    decreases events
  {
    if events == [] then d else Steps(config, Step(config, d, events[0]), events[1..])
  }

  const FRESH_DAEMON := Down(EMPTY_STORE, multiset{})
}
