/** Restart, and safety over every run: any interleaving of commands and events, with the daemon dying at
    any write and coming back. */
module ManagerRuns {
  import opened Basics
  import opened Job
  import opened Store
  import opened Queue
  import opened StateStores
  import opened Scheduler
  import opened ScheduleRuns
  import opened Recovery
  import opened RecoverySettles
  import opened RecoveryRuns
  import opened Manager
  import opened ManagerSafety
  import opened ManagerSteps

  // ---- Taking over the processes that recovery confirmed ----

  /** The outcome of an adopted job agrees with the state the store now gives it. */
  predicate OutcomeFits(s: StoreState, o: Outcome) {
    Adopts(o.decision) ==>
      o.job in s.jobs
      && s.jobs[o.job].state ==
        (if o.decision.AdoptedStoppingNeedsRecancel? then JobState.Stopping else JobState.Running)
  }

  predicate OutcomesFit(s: StoreState, outcomes: seq<Outcome>) {
    && (forall i :: 0 <= i < |outcomes| ==> OutcomeFits(s, outcomes[i]))
    && (forall i, j :: 0 <= i < j < |outcomes| ==> outcomes[i].job != outcomes[j].job)
  }

  lemma AdoptedGuarded(s: StoreState, o: Outcome)
    requires Consistent(s) && OutcomeFits(s, o) && Adopts(o.decision)
    ensures LeaseOf(s.leases, o.job).Some?
    ensures Guarded(s, o.job,
                    Supervised(LeaseOf(s.leases, o.job).value, Alive, o.decision.AdoptedStoppingNeedsRecancel?,
                                         true, false, false))
  {
    OnlyLease(s.jobs, s.leases, o.job);
  }

  lemma ArmOneSafe(w: World, o: Outcome, answer: ArmAnswer)
    requires WorldSafe(w) && OutcomeFits(w.store, o) && o.job !in w.supervised
    ensures var after := ArmOne(w, o, answer);
      && WorldSafe(after) && after.store == w.store && after.queue == w.queue
      && after.supervised.Keys <= w.supervised.Keys + {o.job}
  {
    if ArmOne(w, o, answer) != w {
      AdoptedGuarded(w.store, o);
      var v := Supervised(LeaseOf(w.store.leases, o.job).value, Alive, o.decision.AdoptedStoppingNeedsRecancel?, true,
                          false, false);
      var pid := w.store.jobs[o.job].execution.identity.pid;
      WatchedSafe(w.store, w.supervised, w.byPid, o.job, v, pid);
      var taken := w.(supervised := w.supervised[o.job := v], byPid := w.byPid[pid := o.job]);
      if o.decision.AdoptedStoppingNeedsRecancel? {
        StoppingSafe(taken, o.job, answer.signalOk);
        BeginMarks(taken.supervised, o.job, answer.signalOk);
      }
    }
  }

  lemma {:induction false} ArmAllSafe(w: World, outcomes: seq<Outcome>, answers: JobId -> ArmAnswer)
    requires WorldSafe(w) && OutcomesFit(w.store, outcomes)
    requires forall i :: 0 <= i < |outcomes| ==> outcomes[i].job !in w.supervised
    ensures var after := ArmAll(w, outcomes, answers);
      WorldSafe(after) && after.store == w.store && after.queue == w.queue
    decreases outcomes
  {
    if outcomes != [] {
      ArmOneSafe(w, outcomes[0], answers(outcomes[0].job));
      var next, rest := ArmOne(w, outcomes[0], answers(outcomes[0].job)), outcomes[1..];
      assert forall i :: 0 <= i < |rest| ==> rest[i] == outcomes[i + 1];
      ArmAllSafe(next, rest, answers);
    }
  }

  lemma {:induction false} OutcomesAre(records: seq<StoredJob>, n: nat, leases: Leases, answers: Answers)
    requires n <= |records|
    ensures |Outcomes(records, n, leases, answers)| == n
    ensures forall i :: 0 <= i < n ==>
      Outcomes(records, n, leases, answers)[i] == OutcomeFor(records[i], leases, answers)
  {
    if n > 0 {
      OutcomesAre(records, n - 1, leases, answers);
    }
  }

  lemma SettledFits(s: StoreState, record: StoredJob, answers: Answers, now: Time, n: nat)
    requires record.id in s.jobs && s.jobs[record.id] == record
    ensures OutcomeFits(Settle(s, Changing(s.jobs, answers), answers, now, n), OutcomeFor(record, s.leases, answers))
  {
  }

  lemma OutcomesFitSettled(s: StoreState, snapshot: Snapshot, answers: Answers, now: Time, n: nat)
    requires LoadedFrom(snapshot, s)
    ensures OutcomesFit(Settle(s, Changing(s.jobs, answers), answers, now, n),
                        Outcomes(snapshot.jobs, |snapshot.jobs|, snapshot.leases, answers))
  {
    var records := snapshot.jobs;
    OutcomesAre(records, |records|, s.leases, answers);
    forall i | 0 <= i < |records|
      ensures OutcomeFits(Settle(s, Changing(s.jobs, answers), answers, now, n),
                          OutcomeFor(records[i], s.leases, answers))
    {
      SettledFits(s, records[i], answers, now, n);
    }
  }

  // ---- Restart ----

  lemma SettledBare(s: StoreState, ids: set<JobId>, answers: Answers, now: Time, n: nat)
    requires StartingBare(s.jobs)
    ensures StartingBare(Settle(s, ids, answers, now, n).jobs)
  {
  }

  lemma GuaranteeSafe(s: StoreState, spawned: multiset<JobId>, chunks: seq<seq<Entry>>, capacity: nat,
                      answers: Answers, now: Time, r: RecoveryRun, n: nat)
    requires StoreSafe(s) && SpawnedSafe(s, spawned) && RecoveryGuarantee(s, chunks, capacity, answers, now, r, n)
    ensures StoreSafe(r.store) && SpawnedSafe(r.store, spawned)
  {
    SettledBare(s, Ids(Flatten(chunks[..n])), answers, now, n);
    StartedOnce(s, Ids(Flatten(chunks[..n])), answers, now, n);
    SpawnedKept(s, r.store, spawned);
  }

  lemma FinishOutcomes(p: Progress, entries: seq<QueueEntry>, outcomes: seq<Outcome>,
                       restored: Result<seq<QueueEntry>, QueueError>)
    ensures Finish(p, entries, outcomes, restored).outcomes == outcomes
  {
  }

  lemma RecoveredOutcomes(config: StoreConfig, s: StoreState, snapshot: Snapshot, entries: seq<QueueEntry>,
                          capacity: nat, answers: Answers, now: Time, fates: Fates)
    ensures RecoverFrom(config, s, snapshot, entries, capacity, answers, now, fates).outcomes ==
      Outcomes(snapshot.jobs, |snapshot.jobs|, snapshot.leases, answers)
  {
    FinishOutcomes(WriteAll(s, config, snapshot.revision, Chunks([], PlanOf(snapshot, answers, now)), fates, 0),
                   entries,
                   Outcomes(snapshot.jobs, |snapshot.jobs|, snapshot.leases, answers), Restore(snapshot, capacity));
  }

  lemma AfterRecoverySafe(s: StoreState, snapshot: Snapshot, spawned: multiset<JobId>, chunks: seq<seq<Entry>>,
                          capacity: nat, answers: Answers, now: Time, r: RecoveryRun, n: nat, arm: JobId -> ArmAnswer)
    requires StoreSafe(s) && SpawnedSafe(s, spawned) && LoadedFrom(snapshot, s)
    requires RecoveryGuarantee(s, chunks, capacity, answers, now, r, n)
    requires r.code.Recovered? ==> r.outcomes == Outcomes(snapshot.jobs, |snapshot.jobs|, snapshot.leases, answers)
    ensures var d := AfterRecovery(spawned, r, arm);
      && Safe(d)
      && (d.Up? ==> InSync(d.world.queue, d.world.store.jobs) && |d.world.queue| <= capacity)
  {
    GuaranteeSafe(s, spawned, chunks, capacity, answers, now, r, n);
    if r.alive && r.code.Recovered? {
      OutcomesFitSettled(s, snapshot, answers, now, n);
      ArmAllSafe(World(r.store, r.entries, map[], map[], spawned), r.outcomes, arm);
    }
  }

  lemma StartSafe(config: SchedulerConfig, s: StoreState, spawned: multiset<JobId>, env: StartEnv)
    requires StoreSafe(s) && SpawnedSafe(s, spawned)
    ensures var d := Start(config, s, spawned, env);
      && Safe(d)
      && (d.Up? ==> InSync(d.world.queue, d.world.store.jobs) && |d.world.queue| <= config.capacity)
  {
    LoadLists(s);
    var n := RecoverKeeps(config.store, s, [], config.capacity, env.answers, env.now, env.loadOk, env.fates);
    RecoveredOutcomes(config.store, s, Load(s), [], config.capacity, env.answers, env.now, env.fates);
    var r := Recover(config.store, s, [], config.capacity, env.answers, env.now, env.loadOk, env.fates);
    AfterRecoverySafe(s, Load(s), spawned, RecoveryChunks(s, env.answers, env.now), config.capacity, env.answers,
                      env.now, r, n, env.arm);
  }

  // ---- Every run ----

  lemma StepSafe(config: SchedulerConfig, d: Daemon, e: Event)
    requires Safe(d)
    ensures Safe(Step(config, d, e))
  {
    match d
    case Down(s, spawned) =>
      if e.Restart? {
        StartSafe(config, s, spawned, e.start);
      }
    case Up(w) =>
      match e
      case SubmitJob(spec, env) => SubmitSafe(config, w, spec, env);
      case CancelJob(id, env) => CancelSafe(config, w, id, env);
      case RunScheduler(env) => ScheduleSafe(config, w, env);
      case ProcessExit(exit, now, env) => ExitSafe(config, w, exit, now, env);
      case PumpDrained(id) => PumpDoneSafe(w, id);
      case Crash =>
      case Restart(_) =>
  }

  lemma {:induction false} StepsSafe(config: SchedulerConfig, d: Daemon, events: seq<Event>)
    requires Safe(d)
    ensures Safe(Steps(config, d, events))
    decreases events
  {
    if events != [] {
      StepSafe(config, d, events[0]);
      StepsSafe(config, Step(config, d, events[0]), events[1..]);
    }
  }

  function SpawnsOf(d: Daemon): multiset<JobId> {
    if d.Up? then d.world.spawned else d.spawned
  }

  function StoreOf(d: Daemon): StoreState {
    if d.Up? then d.world.store else d.store
  }

  /** Over every run from an empty store, with the daemon dying anywhere: no job's process is started
      twice, and a job whose process was started is never waiting again. */
  lemma SpawnedAtMostOnce(config: SchedulerConfig, events: seq<Event>, id: JobId)
    ensures var d := Steps(config, FRESH_DAEMON, events);
      && SpawnsOf(d)[id] <= 1
      && (SpawnsOf(d)[id] == 1 ==> id in StoreOf(d).jobs && !StoreOf(d).jobs[id].state.Queued?)
  {
    StepsSafe(config, FRESH_DAEMON, events);
    var d := Steps(config, FRESH_DAEMON, events);
    assert SpawnedSafe(StoreOf(d), SpawnsOf(d));
    if id !in SpawnsOf(d) {
      assert SpawnsOf(d)[id] == 0;
    }
  }
}
