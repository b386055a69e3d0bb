/** Runs of the daemon that reach the edge cases of the theorems about it. */
module ManagerScenarios {
  import opened Basics
  import opened Job
  import opened Store
  import opened Queue
  import opened StateStores
  import opened Scheduler
  import opened ScheduleRuns
  import opened Recovery
  import opened RecoverySettles
  import opened RecoveryRuns
  import opened Manager
  import opened ManagerSafety
  import opened ManagerSteps
  import opened ManagerRuns
  import opened ManagerQueue
  import opened ManagerTheorems
  import opened ManagerExit
  import R = SqliteRows
  import Q = SqliteStores
  import T = SqliteTables

  const SPEC := JobSpec(1, 1, ["a"], "/", [], None, None, 1, GpuPlacement(AnyGpu, []), None, None, 1)
  const GPU := Observation("g", 0, Free, Telemetry(None, None, None))
  const SNAPSHOT := GpuSnapshot(1, 1, [GPU])
  const IDENTITY := ProcessIdentity(7, 7, 7)

  lemma SpecIsValid()
    ensures ValidSpec(SPEC)
  {
    assert TotalBytes(["a"], 0) == 0 && EnvBytes([], 0) == 0;
  }

  lemma SnapshotIsValid()
    ensures ValidSnapshot(SNAPSHOT)
  {
  }

  // ---- Runs piece by piece ----

  lemma {:induction false} StepsJoin(config: SchedulerConfig, d: Daemon, first: seq<Event>, rest: seq<Event>)
    ensures Steps(config, d, first + rest) == Steps(config, Steps(config, d, first), rest)
    decreases first
  {
    if first == [] {
      assert first + rest == rest;
    } else {
      StepsJoin(config, Step(config, d, first[0]), first[1..], rest);
      assert (first + rest)[1..] == first[1..] + rest;
    }
  }

  lemma StepsLast(config: SchedulerConfig, d: Daemon, first: seq<Event>, e: Event)
    ensures Steps(config, d, first + [e]) == Step(config, Steps(config, d, first), e)
  {
    StepsJoin(config, d, first, [e]);
    assert [e][1..] == [];
  }

  // ---- The first steps ----

  const NO_ANSWER := ArmAnswer(false, false, false, false)

  const BOOT := Restart(StartEnv(id => ProcessGone, 1, true, k => Answered, id => NO_ANSWER))

  const EMPTY_WORLD := World(EMPTY_STORE, [], map[], map[], multiset{})

  lemma EmptyLoad()
    ensures Load(EMPTY_STORE) == Snapshot(0, [], map[])
  {
    assert InOrder(EMPTY_STORE.jobs.Keys) == [];
  }

  lemma EmptyRecovers(config: SchedulerConfig, answers: Answers, now: Time, fates: Fates)
    ensures Recover(config.store, EMPTY_STORE, [], config.capacity, answers, now, true, fates) ==
      RecoveryRun(EMPTY_STORE, [], Recovered, [], None, None, true)
  {
    EmptyLoad();
  }

  lemma Boots(config: SchedulerConfig) returns (events: seq<Event>)
    ensures Steps(config, FRESH_DAEMON, events) == Up(EMPTY_WORLD)
  {
    var env := BOOT.start;
    EmptyRecovers(config, env.answers, env.now, env.fates);
    events := [BOOT];
    assert events[1..] == [];
  }

  const RECORD := StoredJob(1, SPEC, JobState.Queued, 0, NO_EXECUTION)
  const ONE_STORE := StoreState(map[1 := RECORD], map[], 1)
  const ONE_WORLD := World(ONE_STORE, [EntryOf(RECORD)], map[], map[], multiset{})
  const ACCEPTED := SubmitEnv(true, Answered, Answered)

  lemma EmptyIsConsistent()
    ensures Consistent(EMPTY_STORE) && InSync([], EMPTY_STORE.jobs) && NextId(EMPTY_STORE.jobs) == 1
  {
    assert InOrder(EMPTY_STORE.jobs.Keys) == [];
  }

  lemma FirstSubmit(config: SchedulerConfig)
    requires config.capacity >= 1 && config.store.maxJobs >= 1
    ensures Submit(config, EMPTY_WORLD, SPEC, ACCEPTED).0 == Up(ONE_WORLD)
  {
    EmptyIsConsistent();
    SpecIsValid();
    CreatableExact(config.store, EMPTY_STORE, SPEC);
    SoleCreate(EMPTY_STORE, config.store, RECORD);
    assert EMPTY_STORE.jobs[1 := RECORD] == ONE_STORE.jobs;
    OnlyFullRefuses([], EMPTY_STORE.jobs, RECORD, config.capacity);
    assert Insert([], EntryOf(RECORD)) == [EntryOf(RECORD)];
  }

  lemma OneIsSynced(config: SchedulerConfig)
    requires config.capacity >= 1
    ensures Synced(ONE_WORLD.queue, ONE_STORE, config.capacity)
  {
    EmptyIsConsistent();
    AdmitInSync([], EMPTY_STORE.jobs, RECORD);
    assert Insert([], EntryOf(RECORD)) == [EntryOf(RECORD)];
    assert EMPTY_STORE.jobs[1 := RECORD] == ONE_STORE.jobs;
  }

  /** The store and the queue after one job has been submitted. */
  lemma OneWaiting(config: SchedulerConfig) returns (events: seq<Event>)
    requires config.capacity >= 1 && config.store.maxJobs >= 1
    ensures Steps(config, FRESH_DAEMON, events) == Up(ONE_WORLD) && WorldSafe(ONE_WORLD)
  {
    var boot := Boots(config);
    FirstSubmit(config);
    SubmitLast(config, boot, EMPTY_WORLD, SPEC, ACCEPTED, Up(ONE_WORLD));
    events := boot + [SubmitJob(SPEC, ACCEPTED)];
    StepsSafe(config, FRESH_DAEMON, events);
  }

  // ---- A lost entry ----

  const REFUSED := SubmitEnv(true, Answered, Unavailable)

  lemma SecondIsLost(config: SchedulerConfig)
    requires config.capacity == 1 && config.store.maxJobs >= 2 && Consistent(ONE_STORE)
    ensures LosesSubmit(config, ONE_WORLD, SPEC, REFUSED)
    ensures var d := Submit(config, ONE_WORLD, SPEC, REFUSED).0; d.Up? && !InSync(d.world.queue, d.world.store.jobs)
  {
    SpecIsValid();
    OneIsSynced(config);
    SubmitSynced(config, ONE_WORLD, SPEC, REFUSED);
    SubmitLoses(config, ONE_WORLD, SPEC, REFUSED);
    SubmitKeepsQueue(config, ONE_WORLD, SPEC, REFUSED);
  }

  lemma SubmitKeepsQueue(config: SchedulerConfig, w: World, spec: JobSpec, env: SubmitEnv)
    requires RollbackFailed(Submit(config, w, spec, env).1)
    ensures Submit(config, w, spec, env).0.Up? && Submit(config, w, spec, env).0.world.queue == w.queue
  {
  }

  lemma SubmitLast(config: SchedulerConfig, events: seq<Event>, w: World, spec: JobSpec, env: SubmitEnv, d: Daemon)
    requires Steps(config, FRESH_DAEMON, events) == Up(w) && Submit(config, w, spec, env).0 == d
    ensures Steps(config, FRESH_DAEMON, events + [SubmitJob(spec, env)]) == d
    ensures LosesSubmit(config, w, spec, env) ==>
      EntryLost(config, FRESH_DAEMON, events + [SubmitJob(spec, env)], false)
  {
    StepsLast(config, FRESH_DAEMON, events, SubmitJob(spec, env));
    if LosesSubmit(config, w, spec, env) {
      LostLast(config, FRESH_DAEMON, events, SubmitJob(spec, env), false);
    }
  }

  /** A full queue and a backend that is gone when the refused job is to be undone: the store keeps a
      waiting job that the queue lacks. */
  lemma EntryLostRun(config: SchedulerConfig) returns (events: seq<Event>, d: Daemon)
    requires config.capacity == 1 && config.store.maxJobs >= 2
    ensures Steps(config, FRESH_DAEMON, events) == d && EntryLost(config, FRESH_DAEMON, events, false)
    ensures d.Up? && !InSync(d.world.queue, d.world.store.jobs)
  {
    var early := OneWaiting(config);
    SecondIsLost(config);
    d := Submit(config, ONE_WORLD, SPEC, REFUSED).0;
    SubmitLast(config, early, ONE_WORLD, SPEC, REFUSED, d);
    events := early + [SubmitJob(SPEC, REFUSED)];
  }

  lemma {:induction false} LostLast(config: SchedulerConfig, d: Daemon, events: seq<Event>, e: Event, lost: bool)
    requires LosesEntry(config, Steps(config, d, events), e)
    ensures EntryLost(config, d, events + [e], lost)
    decreases events
  {
    if events == [] {
      assert [] + [e] == [e] && [e][1..] == [];
    } else {
      var now := if d.Down? then false else lost || LosesEntry(config, d, events[0]);
      LostLast(config, Step(config, d, events[0]), events[1..], e, now);
      assert (events + [e])[1..] == events[1..] + [e];
    }
  }

  // ---- The last revision ----

  /** After two queued and `k` refused and undone jobs. */
  ghost predicate Full(config: SchedulerConfig, w: World, k: nat) {
    && Consistent(w.store) && Synced(w.queue, w.store, config.capacity) && |w.queue| >= config.capacity
    && w.store.revision == 2 + 2 * k && |w.store.jobs| == 2 + k
    && forall id :: id in w.store.jobs ==> id <= 2 + k
  }

  /** One job more, under the next id, and `more` revisions. */
  predicate Grown(s: StoreState, t: StoreState, more: nat) {
    t.jobs.Keys == s.jobs.Keys + {NextId(s.jobs)} && t.revision == s.revision + more
  }

  lemma OneMore(a: Jobs, b: Jobs, next: JobId, n: nat)
    requires b.Keys == a.Keys + {next} && next !in a && next <= n + 1 && |a| == n
    requires forall id :: id in a ==> id <= n
    ensures |b| == n + 1 && forall id :: id in b ==> id <= n + 1
  {
    assert |a| == |a.Keys| && |b| == |b.Keys|;
    forall id | id in b ensures id <= n + 1 {
      assert id in a.Keys + {next};
    }
  }

  lemma GrownCount(s: StoreState, t: StoreState, more: nat, n: nat)
    requires Grown(s, t, more) && JobsSound(s.jobs) && |s.jobs| == n
    requires forall id :: id in s.jobs ==> id <= n
    ensures |t.jobs| == n + 1 && forall id :: id in t.jobs ==> id <= n + 1
  {
    NextIdFresh(s.jobs);
    NextIdNear(s.jobs, n);
    OneMore(s.jobs, t.jobs, NextId(s.jobs), n);
  }

  lemma NextIdNear(jobs: Jobs, n: nat)
    requires forall id :: id in jobs ==> id <= n
    ensures NextId(jobs) <= n + 1
  {
    var ids := InOrder(jobs.Keys);
    if ids != [] {
      assert ids[|ids| - 1] in ids;
    }
  }

  /** A submit whose creation is accepted goes on to the queue. */
  lemma SubmitAdmits(config: SchedulerConfig, w: World, spec: JobSpec, env: SubmitEnv)
    returns (record: StoredJob, t: StoreState)
    requires Consistent(w.store) && env.loadOk && env.create.Answered? && Creatable(config.store, w.store, spec)
    ensures Submit(config, w, spec, env) == AdmitCreated(config, w.(store := t), record, env.rollback)
    ensures record == NewRecord(NextId(w.store.jobs), spec) && Created(w.store, t, record) && Consistent(t)
  {
    record := NewRecord(NextId(w.store.jobs), spec);
    CreatableExact(config.store, w.store, spec);
    CreateSucceeds(config.store, w.store, record);
    t := ApplyMutation(w.store, config.store, CreateMutation(w.store, record)).value;
  }

  lemma CreatedGrown(s: StoreState, t: StoreState, record: StoredJob)
    requires Created(s, t, record) && record.id == NextId(s.jobs)
    ensures Grown(s, t, 1)
  {
  }

  lemma AdmitsWithRoom(config: SchedulerConfig, w: World, before: StoreState, record: StoredJob, rollback: Fate)
    requires JobsSound(before.jobs) && Synced(w.queue, before, config.capacity) && |w.queue| < config.capacity
    requires Created(before, w.store, record) && Consistent(w.store) && record.state.Queued?
    ensures AdmitCreated(config, w, record, rollback).0 == Up(w.(queue := Insert(w.queue, EntryOf(record))))
    ensures Synced(Insert(w.queue, EntryOf(record)), w.store, config.capacity)
  {
    assert ConsistentRecord(record.id, w.store.jobs[record.id]);
    OnlyFullRefuses(w.queue, before.jobs, record, config.capacity);
    AdmittedSynced(w.queue, before, w.store, record, config.capacity);
  }

  /** A submit that the queue has room for. */
  lemma QueuedSubmit(config: SchedulerConfig, w: World, spec: JobSpec)
    requires Consistent(w.store) && Synced(w.queue, w.store, config.capacity) && |w.queue| < config.capacity
    requires Creatable(config.store, w.store, spec)
    ensures var d := Submit(config, w, spec, ACCEPTED).0;
      && d.Up? && Consistent(d.world.store) && Synced(d.world.queue, d.world.store, config.capacity)
      && |d.world.queue| == |w.queue| + 1 && Grown(w.store, d.world.store, 1)
  {
    var record, t := SubmitAdmits(config, w, spec, ACCEPTED);
    AdmitsWithRoom(config, w.(store := t), w.store, record, Answered);
    InsertLength(w.queue, EntryOf(record));
    CreatedGrown(w.store, t, record);
  }

  lemma UndoneStore(t: StoreState, config: StoreConfig, record: StoredJob)
    requires Consistent(t) && record.id in t.jobs && t.jobs[record.id] == record && record.state.Queued?
    requires record.execution == NO_EXECUTION && t.revision != U64_MAX
    ensures var u := Write(t, config, ChangeMutation(t.revision, ToCancelled(record)), Answered);
      && u.alive && u.code.None? && Consistent(u.store) && u.store.revision == t.revision + 1
      && u.store.jobs.Keys == t.jobs.Keys && Changed(t, u.store, ToCancelled(record))
  {
    WriteChange(t, config, ToCancelled(record), Answered);
    UndoExact(t, config, record, Answered);
  }

  lemma UndoesWhenFull(config: SchedulerConfig, w: World, before: StoreState, record: StoredJob)
    requires JobsSound(before.jobs) && Synced(w.queue, before, config.capacity) && |w.queue| >= config.capacity
    requires Created(before, w.store, record) && Consistent(w.store) && record.state.Queued?
    requires record.execution == NO_EXECUTION && w.store.revision != U64_MAX
    ensures var d := AdmitCreated(config, w, record, Answered).0;
      && d.Up? && d.world == w.(store := d.world.store) && Consistent(d.world.store)
      && Synced(w.queue, d.world.store, config.capacity)
      && d.world.store.jobs.Keys == w.store.jobs.Keys && d.world.store.revision == w.store.revision + 1
  {
    assert ConsistentRecord(record.id, w.store.jobs[record.id]);
    OnlyFullRefuses(w.queue, before.jobs, record, config.capacity);
    UndoneStore(w.store, config.store, record);
    var u := Write(w.store, config.store, ChangeMutation(w.store.revision, ToCancelled(record)), Answered).store;
    UndoneSynced(w.queue, before, w.store, u, record, config.capacity);
  }

  /** A submit that is refused for want of room and undone. */
  lemma UndoneSubmit(config: SchedulerConfig, w: World, spec: JobSpec)
    requires Consistent(w.store) && Synced(w.queue, w.store, config.capacity) && |w.queue| >= config.capacity
    requires Creatable(config.store, w.store, spec) && w.store.revision < U64_MAX - 1
    ensures var d := Submit(config, w, spec, ACCEPTED).0;
      && d.Up? && Consistent(d.world.store) && Synced(d.world.queue, d.world.store, config.capacity)
      && d.world.queue == w.queue && Grown(w.store, d.world.store, 2)
  {
    var record, t := SubmitAdmits(config, w, spec, ACCEPTED);
    CreatedGrown(w.store, t, record);
    UndoesWhenFull(config, w.(store := t), w.store, record);
  }

  lemma OneCreatable(config: StoreConfig, s: StoreState, n: nat)
    requires |s.jobs| == n < config.maxJobs && n < U64_MAX && s.revision != U64_MAX
    requires forall id :: id in s.jobs ==> id <= n
    ensures Creatable(config, s, SPEC)
  {
    SpecIsValid();
  }

  lemma TwoQueued(config: SchedulerConfig) returns (events: seq<Event>, w: World)
    requires config.capacity == 2 && config.store.maxJobs >= 2
    ensures Steps(config, FRESH_DAEMON, events) == Up(w) && Full(config, w, 0)
  {
    var early := OneWaiting(config);
    OneIsSynced(config);
    OneCreatable(config.store, ONE_STORE, 1);
    QueuedSubmit(config, ONE_WORLD, SPEC);
    w := Submit(config, ONE_WORLD, SPEC, ACCEPTED).0.world;
    GrownCount(ONE_STORE, w.store, 1, 1);
    SubmitLast(config, early, ONE_WORLD, SPEC, ACCEPTED, Up(w));
    events := early + [SubmitJob(SPEC, ACCEPTED)];
  }

  lemma FullStep(config: SchedulerConfig, w: World, k: nat)
    requires Full(config, w, k) && config.store.maxJobs > 2 + k && 2 + 2 * k < U64_MAX - 1
    ensures var d := Submit(config, w, SPEC, ACCEPTED).0; d.Up? && Full(config, d.world, k + 1)
  {
    OneCreatable(config.store, w.store, 2 + k);
    UndoneSubmit(config, w, SPEC);
    GrownCount(w.store, Submit(config, w, SPEC, ACCEPTED).0.world.store, 2, 2 + k);
  }

  lemma {:induction false} FullRun(config: SchedulerConfig, k: nat) returns (events: seq<Event>, w: World)
    requires config.capacity == 2 && config.store.maxJobs >= 2 + k && 2 + 2 * k <= U64_MAX - 1
    ensures Steps(config, FRESH_DAEMON, events) == Up(w) && Full(config, w, k)
    decreases k
  {
    if k == 0 {
      events, w := TwoQueued(config);
    } else {
      var early, before := FullRun(config, k - 1);
      FullStep(config, before, k - 1);
      w := Submit(config, before, SPEC, ACCEPTED).0.world;
      SubmitLast(config, early, before, SPEC, ACCEPTED, Up(w));
      events := early + [SubmitJob(SPEC, ACCEPTED)];
    }
  }

  const HALF_WAY := 0x7FFF_FFFF_FFFF_FFFE

  /** With a limit of more than half the revisions in jobs, creations that are undone use up all revisions
      but one; the next refused job takes the last one and cannot be undone although the backend answers. */
  lemma ExhaustedRun(config: SchedulerConfig) returns (events: seq<Event>, d: Daemon)
    requires config.capacity == 2 && config.store.maxJobs > HALF_WAY + 2
    ensures Steps(config, FRESH_DAEMON, events) == d && EntryLost(config, FRESH_DAEMON, events, false)
    ensures d.Up? && d.world.store.revision == U64_MAX && !InSync(d.world.queue, d.world.store.jobs)
  {
    var early, w := FullRun(config, HALF_WAY);
    OneCreatable(config.store, w.store, 2 + HALF_WAY);
    LastIsLost(config, w);
    d := Submit(config, w, SPEC, ACCEPTED).0;
    SubmitLast(config, early, w, SPEC, ACCEPTED, d);
    events := early + [SubmitJob(SPEC, ACCEPTED)];
  }

  lemma LastIsLost(config: SchedulerConfig, w: World)
    requires Consistent(w.store) && Synced(w.queue, w.store, config.capacity) && |w.queue| >= config.capacity
    requires Creatable(config.store, w.store, SPEC) && w.store.revision == U64_MAX - 1
    ensures LosesSubmit(config, w, SPEC, ACCEPTED)
    ensures var d := Submit(config, w, SPEC, ACCEPTED).0;
      d.Up? && d.world.store.revision == U64_MAX && !InSync(d.world.queue, d.world.store.jobs)
  {
    SubmitSynced(config, w, SPEC, ACCEPTED);
    SubmitLoses(config, w, SPEC, ACCEPTED);
    SubmitKeepsQueue(config, w, SPEC, ACCEPTED);
    LostRevision(config, w, SPEC, ACCEPTED);
  }

  /** What a submit that loses an entry leaves is the creation alone. */
  lemma LostRevision(config: SchedulerConfig, w: World, spec: JobSpec, env: SubmitEnv)
    requires Consistent(w.store) && Synced(w.queue, w.store, config.capacity) && LosesSubmit(config, w, spec, env)
    ensures var d := Submit(config, w, spec, env).0; d.Up? && d.world.store.revision == w.store.revision + 1
  {
    var record, t := SubmitAdmits(config, w, spec, env);
    SubmitLoses(config, w, spec, env);
    RefusedKeepsStore(config, w.(store := t), record, env.rollback);
  }

  lemma RefusedKeepsStore(config: SchedulerConfig, w: World, record: StoredJob, rollback: Fate)
    requires RollbackFailed(AdmitCreated(config, w, record, rollback).1)
    ensures var d := AdmitCreated(config, w, record, rollback).0; d.Up? && d.world.store == w.store
  {
  }

  // ---- A job that is started ----

  const STARTED_STORE := Started(ONE_STORE, 1, "g")
  const STARTED_WORLD := World(STARTED_STORE, [], map[], map[], multiset{})

  lemma OneIsSatisfiable()
    ensures SatisfiableAt(ONE_STORE, ONE_WORLD.queue, SNAPSHOT.devices, 0)
  {
    assert GPU in SNAPSHOT.devices && Usable(GPU, ONE_STORE.leases);
  }

  /** The only waiting job is placed on the only device. */
  lemma OneIsPlaced(config: SchedulerConfig)
    requires config.capacity >= 1 && config.window >= 1 && config.store.maxLeases >= 1 && WorldSafe(ONE_WORLD)
    ensures var r := RunOnce(config, ONE_STORE, ONE_WORLD.queue, SNAPSHOT, true, Answered);
      && r.alive && r.result.code.Scheduled? && r.result.job == Some(1) && r.result.gpu == Some("g")
      && r.store == STARTED_STORE && r.entries == []
  {
    SnapshotIsValid();
    OneIsSynced(config);
    RunOnceSpec(config, ONE_STORE, ONE_WORLD.queue, SNAPSHOT, Answered);
    RunOnceKeeps(config, ONE_STORE, ONE_WORLD.queue, SNAPSHOT, true, Answered);
    OneIsSatisfiable();
    var scan := WindowScan(config, ONE_STORE, ONE_WORLD.queue, SNAPSHOT.devices);
    HitIsOnly(config, scan);
    PlacedOnly(config, scan, RunOnce(config, ONE_STORE, ONE_WORLD.queue, SNAPSHOT, true, Answered));
  }

  lemma PlacedOnly(config: SchedulerConfig, scan: (Option<Hit>, seq<Skip>), r: Run)
    requires scan.0.Some? && scan.0.value.index == 0 && scan.0.value.device == GPU && config.store.maxLeases >= 1
    requires EndsWith(config, ONE_STORE, ONE_WORLD.queue, Answered, scan, r)
    requires RunGuarantee(ONE_STORE, ONE_WORLD.queue, r)
    ensures r.alive && r.result.code.Scheduled? && r.result.job == Some(1) && r.result.gpu == Some("g")
    ensures r.store == STARTED_STORE && r.entries == []
  {
    assert Without(ONE_WORLD.queue, 1) == [];
  }

  lemma HitIsOnly(config: SchedulerConfig, scan: (Option<Hit>, seq<Skip>))
    requires config.window >= 1 && Known(ONE_WORLD.queue, ONE_STORE.jobs, WindowOf(config, ONE_WORLD.queue))
    requires TakesFirst(ONE_STORE, ONE_WORLD.queue, SNAPSHOT.devices, WindowOf(config, ONE_WORLD.queue), scan)
    requires SatisfiableAt(ONE_STORE, ONE_WORLD.queue, SNAPSHOT.devices, 0)
    ensures scan.0.Some? && scan.0.value.index == 0 && scan.0.value.device == GPU
  {
  }

  const NO_REWRITE := RewriteEnv(true, Answered)

  /** The launch finds the store unreadable and leaves the job as it is. */
  const UNREADABLE := LaunchEnv(false, Refused, 2, "/l", NO_REWRITE, false, false, "r", 1, NO_REWRITE)

  /** RUNNING is written at 2, the process cannot be watched, and the clock then reads 1. */
  const UNWATCHED := LaunchEnv(true, Spawned(IDENTITY), 2, "/l", NO_REWRITE, false, false, "r", 1, NO_REWRITE)

  lemma ScheduleLast(config: SchedulerConfig, events: seq<Event>, w: World, env: ScheduleEnv, d: Daemon)
    requires Steps(config, FRESH_DAEMON, events) == Up(w) && Schedule(config, w, env) == d
    ensures Steps(config, FRESH_DAEMON, events + [RunScheduler(env)]) == d
  {
    StepsLast(config, FRESH_DAEMON, events, RunScheduler(env));
  }

  lemma Scheduled(config: SchedulerConfig, launch: LaunchEnv)
    requires config.capacity >= 1 && config.window >= 1 && config.store.maxLeases >= 1 && WorldSafe(ONE_WORLD)
    ensures Schedule(config, ONE_WORLD, ScheduleEnv(Some(SNAPSHOT), true, Answered, launch)) ==
      Launch(config, STARTED_WORLD, 1, "g", launch)
    ensures WorldSafe(STARTED_WORLD)
  {
    OneIsPlaced(config);
    StartedSafe(ONE_WORLD, [], 1, "g");
  }

  /** A job stays STARTING when its launch cannot read the store, and then it cannot be cancelled. */
  lemma StuckStartingRun(config: SchedulerConfig, signalOk: bool) returns (events: seq<Event>, w: World)
    requires config.capacity >= 1 && config.window >= 1 && config.store.maxJobs >= 1 && config.store.maxLeases >= 1
    ensures Steps(config, FRESH_DAEMON, events) == Up(w) && 1 in w.store.jobs && w.store.jobs[1].state.Starting?
    ensures Cancel(config, w, 1, CancelEnv(true, NO_REWRITE, signalOk)).1 == CancelFailed(InvalidExecutionRecord)
  {
    var early := OneWaiting(config);
    var env := ScheduleEnv(Some(SNAPSHOT), true, Answered, UNREADABLE);
    Scheduled(config, UNREADABLE);
    w := STARTED_WORLD;
    ScheduleLast(config, early, ONE_WORLD, env, Up(w));
    events := early + [RunScheduler(env)];
    CancelExact(config, w, 1, signalOk);
  }

  lemma UnwatchedStays(config: SchedulerConfig)
    requires WorldSafe(STARTED_WORLD)
    ensures var d := Launch(config, STARTED_WORLD, 1, "g", UNWATCHED);
      && d.Up? && 1 !in d.world.supervised && 1 in d.world.store.jobs && d.world.store.jobs[1].state.Running?
      && "g" in d.world.store.leases && d.world.store.leases["g"] == 1
  {
    UnwatchedExact(config, STARTED_WORLD, 1, "g", IDENTITY, UNWATCHED);
  }

  /** A launch failure timed before the start is refused: the job stays RUNNING with its lease, and nobody
      watches its process. */
  lemma UnwatchedRun(config: SchedulerConfig) returns (events: seq<Event>, w: World)
    requires config.capacity >= 1 && config.window >= 1 && config.store.maxJobs >= 1 && config.store.maxLeases >= 1
    ensures Steps(config, FRESH_DAEMON, events) == Up(w)
    ensures 1 in w.store.jobs && w.store.jobs[1].state.Running? && 1 !in w.supervised
    ensures "g" in w.store.leases && w.store.leases["g"] == 1
  {
    var early := OneWaiting(config);
    var env := ScheduleEnv(Some(SNAPSHOT), true, Answered, UNWATCHED);
    Scheduled(config, UNWATCHED);
    UnwatchedStays(config);
    var d := Launch(config, STARTED_WORLD, 1, "g", UNWATCHED);
    ScheduleLast(config, early, ONE_WORLD, env, d);
    events, w := early + [RunScheduler(env)], d.world;
  }

  // ---- A clock that runs back ----

  /** RUNNING is written at 2, and the process is watched. */
  const WATCHED := LaunchEnv(true, Spawned(IDENTITY), 2, "/l", NO_REWRITE, true, true, "r", 1, NO_REWRITE)

  /** The only job runs since 2 as process 7. */
  predicate RunsSinceTwo(w: World) {
    && 7 in w.byPid && w.byPid[7] == 1 && 1 in w.supervised && 1 in w.store.jobs
    && w.store.jobs[1].state.Running? && w.store.jobs[1].execution.startTime == Some(2)
    && "g" in w.store.leases && w.store.leases["g"] == 1 && w.store.revision == 3
  }

  const RUNNING_RECORD := ToRunning(STARTED_STORE.jobs[1], IDENTITY, 2, "/l").update
  const RUNNING_STORE := StoreState(STARTED_STORE.jobs[1 := RUNNING_RECORD], STARTED_STORE.leases, 3)

  lemma RunningWritten(config: StoreConfig)
    requires Consistent(STARTED_STORE)
    ensures ApplyMutation(STARTED_STORE, config, ChangeMutation(2, Change(RUNNING_RECORD, []))) == Ok(RUNNING_STORE)
  {
    assert ConsistentRecord(1, STARTED_STORE.jobs[1]);
    SoleUpdate(STARTED_STORE, config, RUNNING_RECORD);
  }

  lemma WatchedRuns(config: SchedulerConfig)
    requires Consistent(STARTED_STORE)
    ensures var d := Launch(config, STARTED_WORLD, 1, "g", WATCHED); d.Up? && RunsSinceTwo(d.world)
  {
    RunningWritten(config.store);
  }

  lemma SafeRun(config: SchedulerConfig, events: seq<Event>, w: World)
    requires Steps(config, FRESH_DAEMON, events) == Up(w)
    ensures WorldSafe(w)
  {
    StepsSafe(config, FRESH_DAEMON, events);
  }

  lemma WatchedRun(config: SchedulerConfig) returns (events: seq<Event>, w: World)
    requires config.capacity >= 1 && config.window >= 1 && config.store.maxJobs >= 1 && config.store.maxLeases >= 1
    ensures Steps(config, FRESH_DAEMON, events) == Up(w) && RunsSinceTwo(w)
  {
    var early := OneWaiting(config);
    var env := ScheduleEnv(Some(SNAPSHOT), true, Answered, WATCHED);
    Scheduled(config, WATCHED);
    WatchedRuns(config);
    var d := Launch(config, STARTED_WORLD, 1, "g", WATCHED);
    ScheduleLast(config, early, ONE_WORLD, env, d);
    events, w := early + [RunScheduler(env)], d.world;
  }

  const EXIT_SEVEN := ExitEvent(7, true, ExitStatus(Exited, 0, 0))

  lemma EarlyExit(config: SchedulerConfig, w: World)
    requires WorldSafe(w) && RunsSinceTwo(w)
    ensures var d := Exit(config, w, EXIT_SEVEN, 1, NO_REWRITE);
      d.Up? && d.world.store == w.store && 7 !in d.world.byPid
  {
    ExitAccepted(config.store, w, EXIT_SEVEN, 1);
  }

  lemma ExitLast(config: SchedulerConfig, events: seq<Event>, w: World, exit: ExitEvent, now: Time, d: Daemon)
    requires Steps(config, FRESH_DAEMON, events) == Up(w) && Exit(config, w, exit, now, NO_REWRITE) == d
    ensures Steps(config, FRESH_DAEMON, events + [ProcessExit(exit, now, NO_REWRITE)]) == d
  {
    StepsLast(config, FRESH_DAEMON, events, ProcessExit(exit, now, NO_REWRITE));
  }

  /** An exit that the clock puts before the start is refused: the job stays RUNNING with its lease, and its
      process is forgotten. */
  lemma EarlyExitRun(config: SchedulerConfig) returns (events: seq<Event>, w: World)
    requires config.capacity >= 1 && config.window >= 1 && config.store.maxJobs >= 1 && config.store.maxLeases >= 1
    ensures Steps(config, FRESH_DAEMON, events) == Up(w) && 7 !in w.byPid
    ensures 1 in w.store.jobs && w.store.jobs[1].state.Running? && "g" in w.store.leases && w.store.leases["g"] == 1
  {
    var early, before := WatchedRun(config);
    SafeRun(config, early, before);
    EarlyExit(config, before);
    var d := Exit(config, before, EXIT_SEVEN, 1, NO_REWRITE);
    ExitLast(config, early, before, EXIT_SEVEN, 1, d);
    events, w := early + [ProcessExit(EXIT_SEVEN, 1, NO_REWRITE)], d.world;
  }

  lemma NotRecovered(config: StoreConfig, s: StoreState, capacity: nat, answers: Answers, now: Time, fates: Fates,
                     id: JobId)
    requires Consistent(s) && EmptyAtStart(s) && s.revision <= U64_MAX && Answering(fates)
    requires id in s.jobs && Changes(s.jobs[id], answers) && !CanSettle(s.jobs[id], answers, now)
    ensures Recover(config, s, [], capacity, answers, now, true, fates).code == StoreWriteFailed
  {
    RecoverExact(config, s, [], capacity, answers, now, fates);
  }

  lemma StaysDown(config: SchedulerConfig, s: StoreState, spawned: multiset<JobId>, env: StartEnv, id: JobId)
    requires Consistent(s) && EmptyAtStart(s) && s.revision <= U64_MAX && env.loadOk && Answering(env.fates)
    requires id in s.jobs && Changes(s.jobs[id], env.answers) && !CanSettle(s.jobs[id], env.answers, env.now)
    ensures Start(config, s, spawned, env).Down?
  {
    NotRecovered(config.store, s, config.capacity, env.answers, env.now, env.fates, id);
  }

  lemma GoneTooEarly(record: StoredJob, answers: Answers)
    requires record.state.Running? && record.execution.startTime == Some(2) && answers(record.id) == ProcessGone
    ensures Changes(record, answers) && !CanSettle(record, answers, 1)
  {
  }

  lemma EarlyRecovery(config: SchedulerConfig, w: World)
    requires WorldSafe(w) && RunsSinceTwo(w)
    ensures Start(config, w.store, w.spawned, BOOT.start).Down?
  {
    GoneTooEarly(w.store.jobs[1], BOOT.start.answers);
    StaysDown(config, w.store, w.spawned, BOOT.start, 1);
  }

  lemma CrashLast(config: SchedulerConfig, events: seq<Event>, w: World)
    requires Steps(config, FRESH_DAEMON, events) == Up(w)
    ensures Steps(config, FRESH_DAEMON, events + [Crash]) == Down(w.store, w.spawned)
  {
    StepsLast(config, FRESH_DAEMON, events, Crash);
  }

  lemma RestartLast(config: SchedulerConfig, events: seq<Event>, s: StoreState, spawned: multiset<JobId>,
                    env: StartEnv, d: Daemon)
    requires Steps(config, FRESH_DAEMON, events) == Down(s, spawned) && Start(config, s, spawned, env) == d
    ensures Steps(config, FRESH_DAEMON, events + [Restart(env)]) == d
  {
    StepsLast(config, FRESH_DAEMON, events, Restart(env));
  }

  /** After a crash, a recovery that finds the process gone and the clock before its start is refused: the
      daemon does not come up. */
  lemma EarlyRecoveryRun(config: SchedulerConfig) returns (events: seq<Event>)
    requires config.capacity >= 1 && config.window >= 1 && config.store.maxJobs >= 1 && config.store.maxLeases >= 1
    ensures events != [] && events[|events| - 1].Restart? && Steps(config, FRESH_DAEMON, events).Down?
  {
    var early, w := WatchedRun(config);
    SafeRun(config, early, w);
    EarlyRecovery(config, w);
    CrashLast(config, early, w);
    RestartLast(config, early + [Crash], w.store, w.spawned, BOOT.start,
                Start(config, w.store, w.spawned, BOOT.start));
    events := early + [Crash] + [BOOT];
  }

  // ---- A device with a comma ----

  const COMMA_RECORD := RECORD.(spec := SPEC.(placement := GpuPlacement(Required, ["a,b"])))
  const COMMA_MUTATION := StateMutation(0, [COMMA_RECORD], [], [], [])
  const EMPTY_TABLES := T.Tables(map[], map[], 0)

  lemma CommaCreated(config: StoreConfig)
    requires config.maxJobs >= 1
    ensures var r := ApplyMutation(EMPTY_STORE, config, COMMA_MUTATION);
      r.Ok? && r.value.jobs == map[1 := COMMA_RECORD] && r.value.revision == 1
  {
    SpecIsValid();
    EmptyIsConsistent();
    SoleCreate(EMPTY_STORE, config, COMMA_RECORD);
  }

  /** It is committed, and the tables then hold something else. */
  lemma CommaCommitted(config: StoreConfig)
    requires config.maxJobs >= 1
    ensures var r := Q.ApplyRows(EMPTY_TABLES, config, COMMA_MUTATION, Q.Statements(COMMA_MUTATION));
      r.1.None? && Q.DecodeTables(r.0) != ApplyMutation(EMPTY_STORE, config, COMMA_MUTATION)
  {
    CommaCreated(config);
    EmptyDecodes();
    var n := Q.Statements(COMMA_MUTATION);
    Q.CommitsExactly(EMPTY_TABLES, config, COMMA_MUTATION, n);
    Q.CommittedDecodes(EMPTY_TABLES, config, COMMA_MUTATION, n);
    assert 1 in Q.WrittenIds(COMMA_MUTATION) && R.COMMA in "a,b";
  }

  lemma EmptyDecodes()
    ensures Q.DecodeTables(EMPTY_TABLES) == Ok(EMPTY_STORE)
  {
    assert InOrder(EMPTY_TABLES.jobs.Keys) == [];
  }
}
