/** What every step of the worker keeps: leases held by supervised jobs, one process per job. */
module ManagerSafety {
  import opened Basics
  import opened Job
  import opened Store
  import opened Queue
  import opened StateStores
  import opened Scheduler
  import opened ScheduleRuns
  import opened Recovery
  import opened RecoverySettles
  import opened RecoveryRuns
  import opened Manager

  // ---- Invariants ----

  /** A job under supervision whose process has not been seen to exit is RUNNING, or STOPPING once it is
      being cancelled, and holds the lease recorded for it. */
  predicate Guarded(s: StoreState, id: JobId, v: Supervised) {
    && id in s.jobs && !s.jobs[id].state.Queued?
    && (v.phase.Alive? || v.phase.Terminating?)
    && (!v.exited ==>
          && s.jobs[id].state == (if v.cancelling then JobState.Stopping else JobState.Running)
          && v.gpu in s.leases && s.leases[v.gpu] == id)
  }

  predicate SupervisedSafe(s: StoreState, supervised: SupervisedJobs) {
    forall id :: id in supervised ==> Guarded(s, id, supervised[id])
  }

  predicate PidsSafe(supervised: SupervisedJobs, byPid: Pids) {
    && (forall p :: p in byPid ==> byPid[p] in supervised && !supervised[byPid[p]].exited)
    && (forall p, q :: p in byPid && q in byPid && byPid[p] == byPid[q] ==> p == q)
  }

  /** Every job was started at most once, and a job that was started is not waiting. */
  predicate SpawnedSafe(s: StoreState, spawned: multiset<JobId>) {
    forall id :: id in spawned ==> spawned[id] == 1 && id in s.jobs && !s.jobs[id].state.Queued?
  }

  /** A process identity is only ever written together with RUNNING. */
  predicate StartingBare(jobs: Jobs) {
    forall id :: id in jobs && jobs[id].state.Starting? ==> jobs[id].execution.identity == NO_IDENTITY
  }

  predicate StoreSafe(s: StoreState) {
    Consistent(s) && RevisionsFit(s.jobs) && EmptyAtStart(s) && StartingBare(s.jobs)
  }

  predicate WorldSafe(w: World) {
    && StoreSafe(w.store) && SpawnedSafe(w.store, w.spawned)
    && SupervisedSafe(w.store, w.supervised) && PidsSafe(w.supervised, w.byPid)
  }

  predicate Safe(d: Daemon) {
    match d
    case Up(w) => WorldSafe(w)
    case Down(s, spawned) => StoreSafe(s) && SpawnedSafe(s, spawned)
  }

  // ---- One rewrite of one job ----

  /** `t` is `s` after the accepted change of one job. */
  predicate Changed(s: StoreState, t: StoreState, change: Change) {
    var id := change.update.id;
    && id in s.jobs && CanTransition(s.jobs[id].state, change.update.state)
    && t == StoreState(s.jobs[id := change.update], s.leases - (set u | u in change.releases), s.revision + 1)
  }

  lemma OneUpdate(jobs: Jobs, record: StoredJob)
    ensures UpdateJobs(jobs, [record]) == UpdateJob(jobs, record)
    ensures UpdateJob(jobs, record).Ok? ==>
      && record.id in jobs && CanTransition(jobs[record.id].state, record.state)
      && UpdateJob(jobs, record).value == jobs[record.id := record]
  {
    assert [record][1..] == [];
  }

  lemma LeasesLeft(leases: Leases, releases: seq<Uuid>)
    requires ReleaseLeases(leases, releases).Ok?
    ensures ReleaseLeases(leases, releases).value == leases - (set u | u in releases)
  {
    ReleaseLeasesKeeps(leases, releases);
  }

  lemma OneChange(s: StoreState, config: StoreConfig, change: Change)
    requires Consistent(s) && ApplyMutation(s, config, ChangeMutation(s.revision, change)).Ok?
    ensures Changed(s, ApplyMutation(s, config, ChangeMutation(s.revision, change)).value, change)
  {
    var created, jobs, kept, leases := StepsOf(s, config, ChangeMutation(s.revision, change));
    OneUpdate(s.jobs, change.update);
    LeasesLeft(s.leases, change.releases);
  }

  lemma SameLeasesMatrix(jobs: Jobs, leases: Leases, update: StoredJob)
    requires LeaseMatrix(jobs, leases) && update.id in jobs
    requires Leaseable(update.state) <==> Leaseable(jobs[update.id].state)
    ensures LeaseMatrix(jobs[update.id := update], leases)
  {
  }

  /** One update that neither needs nor gives up a lease succeeds exactly when the update alone is
      accepted and a store revision is left. */
  lemma SoleUpdate(s: StoreState, config: StoreConfig, update: StoredJob)
    requires Consistent(s) && update.id in s.jobs
    requires Leaseable(update.state) <==> Leaseable(s.jobs[update.id].state)
    ensures ApplyMutation(s, config, ChangeMutation(s.revision, Change(update, []))) ==
      if s.revision == U64_MAX then Err(InvalidMutation)
      else if UpdateJob(s.jobs, update).Err? then Err(UpdateJob(s.jobs, update).error)
      else Ok(StoreState(s.jobs[update.id := update], s.leases, s.revision + 1))
  {
    OneUpdate(s.jobs, update);
    SameLeasesMatrix(s.jobs, s.leases, update);
  }

  /** What can have become of the store: nothing, or the change and all that an accepted write keeps. */
  predicate ChangedOrNot(s: StoreState, t: StoreState, change: Change) {
    t == s || (Changed(s, t, change) && Follows(s, t))
  }

  lemma WriteChange(s: StoreState, config: StoreConfig, change: Change, fate: Fate)
    requires Consistent(s)
    ensures var w := Write(s, config, ChangeMutation(s.revision, change), fate);
      && ChangedOrNot(s, w.store, change)
      && (w.alive && w.code.None? ==> w.store != s) && (w.alive && w.code.Some? ==> w.store == s)
  {
    var m := ChangeMutation(s.revision, change);
    WriteKeeps(s, config, m, fate);
    if ApplyMutation(s, config, m).Ok? {
      OneChange(s, config, change);
    }
  }

  predicate RewriteOutcome(s: StoreState, id: JobId, compose: StoredJob -> Change, w: Written) {
    && (w.store == s || (id in s.jobs && ChangedOrNot(s, w.store, compose(s.jobs[id]))))
    && (w.alive && w.code.None? ==> w.store != s) && (w.alive && w.code.Some? ==> w.store == s)
  }

  lemma RewriteKeeps(s: StoreState, config: StoreConfig, id: JobId, compose: StoredJob -> Change, env: RewriteEnv)
    requires Consistent(s)
    ensures RewriteOutcome(s, id, compose, Rewrite(s, config, id, compose, env))
  {
    if env.loadOk && id in s.jobs {
      WriteChange(s, config, compose(s.jobs[id]), env.fate);
    }
  }

  // ---- What a change leaves in place ----

  lemma SpawnedKept(s: StoreState, t: StoreState, spawned: multiset<JobId>)
    requires JobsEvolve(s.jobs, t.jobs) && SpawnedSafe(s, spawned)
    ensures SpawnedSafe(t, spawned)
  {
    forall id | id in spawned ensures id in t.jobs && !t.jobs[id].state.Queued? {
      assert Evolves(s.jobs[id], t.jobs[id]);
    }
  }

  lemma StoreKept(s: StoreState, t: StoreState, change: Change)
    requires StoreSafe(s) && ChangedOrNot(s, t, change)
    requires change.update.state.Starting? ==> change.update.execution.identity == NO_IDENTITY
    ensures StoreSafe(t)
  {
  }

  /** A job that stays active keeps its own lease when leases are only released. */
  lemma LeaseKept(s: StoreState, t: StoreState, gone: set<Uuid>, id: JobId, gpu: Uuid)
    requires LeaseMatrix(s.jobs, s.leases) && LeaseMatrix(t.jobs, t.leases) && t.leases == s.leases - gone
    requires gpu in s.leases && s.leases[gpu] == id && id in t.jobs && Leaseable(t.jobs[id].state)
    ensures gpu in t.leases && t.leases[gpu] == id
  {
    assert id in t.leases.Values;
    var u :| u in t.leases && t.leases[u] == id;
    assert s.leases[u] == id;
  }

  lemma GuardKept(s: StoreState, t: StoreState, change: Change, id: JobId, v: Supervised)
    requires Consistent(s) && Changed(s, t, change) && Consistent(t) && Guarded(s, id, v)
    requires id == change.update.id ==> v.exited && !change.update.state.Queued?
    ensures Guarded(t, id, v)
  {
    if !v.exited {
      LeaseKept(s, t, (set u | u in change.releases), id, v.gpu);
    }
  }

  /** A change of a job that is not supervised, or has already exited, leaves every guard in place. */
  lemma GuardsKept(s: StoreState, t: StoreState, change: Change, supervised: SupervisedJobs)
    requires Consistent(s) && ChangedOrNot(s, t, change) && SupervisedSafe(s, supervised)
    requires change.update.id in supervised ==> supervised[change.update.id].exited && !change.update.state.Queued?
    ensures SupervisedSafe(t, supervised)
  {
    if t != s {
      forall id | id in supervised ensures Guarded(t, id, supervised[id]) {
        GuardKept(s, t, change, id, supervised[id]);
      }
    }
  }
}
