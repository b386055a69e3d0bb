/** One scheduling run: bounded-skip FIFO over the queue, one STARTING write (scheduler.cpp). */
module ScheduleRuns {
  import opened Basics
  import opened Job
  import opened Store
  import opened Queue
  import opened StateStores
  import opened Scheduler

  datatype ScheduleCode =
    | Scheduled | QueueEmpty | NoCandidate | InvalidGpuSnapshot | StateLoadFailed
    | QueueStateDiverged | StateWriteFailed | QueueRollbackFailed

  datatype ScheduleResult = ScheduleResult(
    code: ScheduleCode,
    job: Option<JobId>,
    gpu: Option<Uuid>,
    reason: SelectionReason,
    storeError: Option<StoreError>,
    queueError: Option<QueueError>,
    skipped: seq<Skip>,
    truncated: bool)

  /** A result without a device, a reason or an evaluation. */
  function Plain(code: ScheduleCode, job: Option<JobId>, storeError: Option<StoreError>, queueError: Option<QueueError>)
    : ScheduleResult
  {
    ScheduleResult(code, job, None, DefaultChoice, storeError, queueError, [], false)
  }

  datatype SchedulerConfig = SchedulerConfig(store: StoreConfig, capacity: nat, window: nat)

  // ---- Is the queue still the store's? ----

  /** The earliest QUEUED record among the first `n` that the queue does not hold. */
  function EarliestMissing(records: seq<StoredJob>, n: nat, entries: seq<QueueEntry>): Option<StoredJob>
    requires n <= |records|
  {
    if n == 0 then None
    else
      var best := EarliestMissing(records, n - 1, entries);
      var record := records[n - 1];
      if record.state.Queued? && !Contains(entries, record.id)
         && (best.None? || EntryLess(EntryOf(record), EntryOf(best.value))) then Some(record)
      else best
  }

  /** The first entry from `i` on that contradicts the store. Fields are compared inside the window. */
  function EntryDivergence(entries: seq<QueueEntry>, jobs: Jobs, window: nat, i: nat): (d: Option<(JobId, QueueError)>)
    requires i <= |entries|
    ensures d.None? ==> forall k :: i <= k < |entries| ==> entries[k].job in jobs && jobs[entries[k].job].state.Queued?
    decreases |entries| - i
  {
    if i == |entries| then None
    else
      var id := entries[i].job;
      if id !in jobs || !jobs[id].state.Queued? then Some((id, QueueJobNotFound))
      else if i < window && jobs[id].spec.submitTime != entries[i].submitTime then Some((id, InvalidJobSpec))
      else if i < window && jobs[id].revision != 0 then Some((id, QueueJobRevision))
      else EntryDivergence(entries, jobs, window, i + 1)
  }

  function Divergence(entries: seq<QueueEntry>, snapshot: Snapshot, jobs: Jobs, window: nat)
    : (d: Option<(Option<JobId>, QueueError)>)
    ensures d.None? ==> forall k :: 0 <= k < |entries| ==> entries[k].job in jobs && jobs[entries[k].job].state.Queued?
  {
    if |QueuedFrom(snapshot.jobs, 0)| != |entries| then
      var missing := EarliestMissing(snapshot.jobs, |snapshot.jobs|, entries);
      Some((if missing.Some? then Some(missing.value.id) else FrontId(entries), QueueJobNotFound))
    else
      match EntryDivergence(entries, jobs, window, 0)
      case Some(d) => Some((Some(d.0), d.1))
      case None => None
  }

  function FrontId(entries: seq<QueueEntry>): Option<JobId> {
    if entries == [] then None else Some(entries[0].job)
  }

  lemma {:induction false} NoEntryDivergence(entries: seq<QueueEntry>, jobs: Jobs, window: nat, i: nat)
    requires InSync(entries, jobs) && JobsSound(jobs) && i <= |entries|
    ensures EntryDivergence(entries, jobs, window, i).None?
    decreases |entries| - i
  {
    if i < |entries| {
      assert entries[i] in entries;
      assert ConsistentRecord(entries[i].job, jobs[entries[i].job]);
      NoEntryDivergence(entries, jobs, window, i + 1);
    }
  }

  /** A queue in step with the store is never reported as diverged. */
  lemma NoDivergence(entries: seq<QueueEntry>, s: StoreState, window: nat)
    requires InSync(entries, s.jobs) && JobsSound(s.jobs)
    ensures Divergence(entries, Load(s), s.jobs, window).None?
  {
    QueueIsView(entries, s);
    SortEntriesLength(QueuedFrom(Load(s).jobs, 0));
    NoEntryDivergence(entries, s.jobs, window, 0);
  }

  // ---- Scanning the window ----

  predicate Known(entries: seq<QueueEntry>, jobs: Jobs, window: nat) {
    window <= |entries| && forall k :: 0 <= k < window ==> entries[k].job in jobs
  }

  /** Every device named by a REQUIRED job of the window. */
  function AffinityTargets(entries: seq<QueueEntry>, jobs: Jobs, window: nat): set<Uuid>
    requires Known(entries, jobs, window)
  {
    set k, u | 0 <= k < window && jobs[entries[k].job].spec.placement.mode.Required?
      && u in jobs[entries[k].job].spec.placement.devices :: u
  }

  function SkipOf(entries: seq<QueueEntry>, jobs: Jobs, leases: Leases, devices: seq<Observation>, k: nat): Skip
    requires k < |entries| && entries[k].job in jobs
  {
    var p := jobs[entries[k].job].spec.placement;
    if p.mode.Required? then
      var wait := RequiredWait(devices, leases, p.devices);
      Skip(entries[k].job, wait.0, wait.1)
    else Skip(entries[k].job, NoFreeGpu, None)
  }

  datatype Hit = Hit(index: nat, device: Observation, reason: SelectionReason)

  /** The first entry from `i` on that gets a device, and what is recorded about those before it. */
  function Scan(entries: seq<QueueEntry>, jobs: Jobs, leases: Leases, devices: seq<Observation>,
                anyChoice: (Option<Observation>, SelectionReason), window: nat, i: nat)
    : (r: (Option<Hit>, seq<Skip>))
    requires Known(entries, jobs, window) && i <= window
    ensures r.0.Some? ==> i <= r.0.value.index < window
    decreases window - i
  {
    if i == window then (None, [])
    else
      var choice := Choose(devices, leases, anyChoice, jobs[entries[i].job].spec.placement);
      if choice.0.Some? then (Some(Hit(i, choice.0.value, choice.1)), [])
      else
        var rest := Scan(entries, jobs, leases, devices, anyChoice, window, i + 1);
        (rest.0, [SkipOf(entries, jobs, leases, devices, i)] + rest.1)
  }

  /** A job can be given a device now: one of its set if it is REQUIRED, any usable one otherwise. */
  ghost predicate Satisfiable(devices: seq<Observation>, leases: Leases, p: GpuPlacement) {
    exists d :: d in devices && Usable(d, leases) && (p.mode.Required? ==> d.uuid in p.devices)
  }

  lemma SatisfiableWhenChosen(devices: seq<Observation>, leases: Leases, targets: set<Uuid>, p: GpuPlacement)
    requires DistinctDevices(devices) && ValidPlacement(p)
    ensures Choose(devices, leases, SelectAny(devices, leases, targets), p).0.Some? <==> Satisfiable(devices, leases, p)
  {
    ChooseSpec(devices, leases, targets, p);
    SelectAnySpec(devices, leases, targets);
    var all := Candidates(devices, leases, Outside({}));
    if Satisfiable(devices, leases, p) {
      var d :| d in devices && Usable(d, leases) && (p.mode.Required? ==> d.uuid in p.devices);
      assert d in all;
      if p.mode.Required? {
        assert d in Candidates(devices, leases, Within(p.devices));
      }
    }
  }

  function ChoiceAt(entries: seq<QueueEntry>, jobs: Jobs, leases: Leases, devices: seq<Observation>,
                    anyChoice: (Option<Observation>, SelectionReason), k: nat): (Option<Observation>, SelectionReason)
    requires k < |entries| && entries[k].job in jobs
  {
    Choose(devices, leases, anyChoice, jobs[entries[k].job].spec.placement)
  }

  lemma {:induction false} ScanStops(entries: seq<QueueEntry>, jobs: Jobs, leases: Leases, devices: seq<Observation>,
                                     anyChoice: (Option<Observation>, SelectionReason), window: nat, i: nat)
    requires Known(entries, jobs, window) && i <= window
    ensures var r := Scan(entries, jobs, leases, devices, anyChoice, window, i);
      var stop := if r.0.Some? then r.0.value.index else window;
      && |r.1| == stop - i
      && (forall k :: i <= k < stop ==>
            ChoiceAt(entries, jobs, leases, devices, anyChoice, k).0.None?
            && r.1[k - i] == SkipOf(entries, jobs, leases, devices, k))
      && (r.0.Some? ==>
            ChoiceAt(entries, jobs, leases, devices, anyChoice, stop) == (Some(r.0.value.device), r.0.value.reason))
    decreases window - i
  {
    if i < window && ChoiceAt(entries, jobs, leases, devices, anyChoice, i).0.None? {
      ScanStops(entries, jobs, leases, devices, anyChoice, window, i + 1);
    }
  }

  lemma ChoiceAtSpec(entries: seq<QueueEntry>, jobs: Jobs, leases: Leases, devices: seq<Observation>,
                     targets: set<Uuid>, k: nat)
    requires k < |entries| && entries[k].job in jobs && JobsSound(jobs) && DistinctDevices(devices)
    ensures var r := ChoiceAt(entries, jobs, leases, devices, SelectAny(devices, leases, targets), k);
      var p := jobs[entries[k].job].spec.placement;
      && ValidPlacement(p)
      && (r.0.Some? <==> Satisfiable(devices, leases, p))
      && ChoiceSpec(devices, leases, targets, p, r)
  {
    var p := jobs[entries[k].job].spec.placement;
    assert ConsistentRecord(entries[k].job, jobs[entries[k].job]);
    SatisfiableWhenChosen(devices, leases, targets, p);
    ChooseSpec(devices, leases, targets, p);
  }

  // ---- The run ----

  function ToStarting(record: StoredJob): StoredJob {
    record.(state := JobState.Starting, revision := record.revision + 1)
  }

  function StartMutation(s: StoreState, record: StoredJob, uuid: Uuid): StateMutation {
    StateMutation(s.revision, [], [ToStarting(record)], [Lease(uuid, record.id)], [])
  }

  /** The store, the queue and the result after a run; `alive` is false if the daemon died in it. */
  datatype Run = Run(store: StoreState, entries: seq<QueueEntry>, result: ScheduleResult, alive: bool)

  /** The queue `rest` has lost the job; `written` is what became of the write. */
  function Placed(rest: seq<QueueEntry>, capacity: nat, record: StoredJob, hit: Hit, skipped: seq<Skip>,
                  truncated: bool, written: Written): Run
  {
    var uuid := hit.device.uuid;
    if !written.alive then Run(written.store, rest, Plain(StateWriteFailed, Some(record.id), None, None), false)
    else if written.code.Some? then
      var rollback := AdmitError(rest, capacity, record);
      Run(written.store, Admit(rest, capacity, record),
          Plain(if rollback.Some? then QueueRollbackFailed else StateWriteFailed, Some(record.id), written.code,
                rollback)
          .(gpu := Some(uuid)), true)
    else
      Run(written.store, rest,
          ScheduleResult(Scheduled, Some(record.id), Some(uuid), hit.reason, None, None, skipped, truncated), true)
  }

  function Place(config: SchedulerConfig, s: StoreState, entries: seq<QueueEntry>, record: StoredJob, hit: Hit,
                 skipped: seq<Skip>, truncated: bool, fate: Fate): Run
  {
    var uuid := hit.device.uuid;
    var removal := RemoveError(entries, record.id);
    if removal.Some? then
      Run(s, entries, Plain(QueueStateDiverged, Some(record.id), None, removal).(gpu := Some(uuid)), true)
    else
      Placed(Remove(entries, record.id), config.capacity, record, hit, skipped, truncated,
             Write(s, config.store, StartMutation(s, record, uuid), fate))
  }

  function WindowOf(config: SchedulerConfig, entries: seq<QueueEntry>): nat {
    if config.window < |entries| then config.window else |entries|
  }

  function WindowScan(config: SchedulerConfig, s: StoreState, entries: seq<QueueEntry>, devices: seq<Observation>)
    : (r: (Option<Hit>, seq<Skip>))
    requires Known(entries, s.jobs, WindowOf(config, entries))
    ensures r.0.Some? ==> r.0.value.index < WindowOf(config, entries)
  {
    var window := WindowOf(config, entries);
    var anyChoice := SelectAny(devices, s.leases, AffinityTargets(entries, s.jobs, window));
    Scan(entries, s.jobs, s.leases, devices, anyChoice, window, 0)
  }

  /** The run once the snapshot, the load and the queue have been found sound. */
  function Evaluate(config: SchedulerConfig, s: StoreState, entries: seq<QueueEntry>, devices: seq<Observation>,
                    fate: Fate): Run
    requires Known(entries, s.jobs, WindowOf(config, entries))
  {
    var scan := WindowScan(config, s, entries, devices);
    var truncated := |entries| > WindowOf(config, entries);
    match scan.0
    case None => Run(s, entries, Plain(NoCandidate, None, None, None).(skipped := scan.1, truncated := truncated), true)
    case Some(hit) => Place(config, s, entries, s.jobs[entries[hit.index].job], hit, scan.1, truncated, fate)
  }

  function RunOnce(config: SchedulerConfig, s: StoreState, entries: seq<QueueEntry>, gpu: GpuSnapshot, loadOk: bool,
                   fate: Fate): Run {
    if !ValidSnapshot(gpu) then Run(s, entries, Plain(InvalidGpuSnapshot, None, None, None), true)
    else if !loadOk then Run(s, entries, Plain(StateLoadFailed, FrontId(entries), Some(BackendUnavailable), None), true)
    else
      match Divergence(entries, Load(s), s.jobs, WindowOf(config, entries))
      case Some(d) => Run(s, entries, Plain(QueueStateDiverged, d.0, None, Some(d.1)), true)
      case None =>
        if entries == [] then Run(s, entries, Plain(QueueEmpty, None, None, None), true)
        else Evaluate(config, s, entries, gpu.devices, fate)
  }

  // ---- What a run guarantees ----

  function Started(s: StoreState, id: JobId, uuid: Uuid): StoreState
    requires id in s.jobs
  {
    StoreState(s.jobs[id := ToStarting(s.jobs[id])], s.leases[uuid := id], s.revision + 1)
  }

  predicate Headroom(s: StoreState, config: StoreConfig) {
    |s.leases| < config.maxLeases && s.revision != U64_MAX
  }

  lemma StartedMatrix(jobs: Jobs, leases: Leases, record: StoredJob, uuid: Uuid)
    requires LeaseMatrix(jobs, leases)
    requires record.id in jobs && !Leaseable(jobs[record.id].state) && Leaseable(record.state)
    requires uuid !in leases
    ensures record.id !in leases.Values
    ensures LeaseMatrix(jobs[record.id := record], leases[uuid := record.id])
  {
    var after, now := jobs[record.id := record], leases[uuid := record.id];
    assert now[uuid] == record.id;
    forall id | id in after && Leaseable(after[id].state) ensures id in now.Values {
      if id != record.id {
        assert id in leases.Values;
        var u :| u in leases && leases[u] == id;
        assert now[u] == id;
      }
    }
  }

  /** The STARTING-plus-lease mutation passes every check of the store it was built from: it is
      refused exactly when the store has no lease left or no revision left. */
  lemma StartAccepted(s: StoreState, config: StoreConfig, id: JobId, uuid: Uuid)
    requires Consistent(s) && id in s.jobs && s.jobs[id].state.Queued?
    requires ValidUuid(uuid) && uuid !in s.leases
    ensures ApplyMutation(s, config, StartMutation(s, s.jobs[id], uuid)) ==
      if s.revision == U64_MAX then Err(InvalidMutation)
      else if |s.leases| >= config.maxLeases then Err(StoreError.CapacityExceeded)
      else Ok(Started(s, id, uuid))
  {
    var record := s.jobs[id];
    assert ConsistentRecord(id, record);
    var m := StartMutation(s, record, uuid);
    assert m.updates[1..] == [] && m.acquires[1..] == [];
    assert UpdateJob(s.jobs, ToStarting(record)) == Ok(s.jobs[id := ToStarting(record)]);
    StartedMatrix(s.jobs, s.leases, ToStarting(record), uuid);
    var jobs := s.jobs[id := ToStarting(record)];
    assert UpdateJobs(s.jobs, m.updates) == Ok(jobs);
    assert AcquireLeases(jobs, s.leases, m.acquires, config.maxLeases) ==
      if |s.leases| >= config.maxLeases then Err(StoreError.CapacityExceeded) else Ok(s.leases[uuid := id]);
  }

  /** What a run may do, seen from outside: start one waiting job on one free device, or nothing. */
  ghost predicate StartsOne(s: StoreState, r: Run, id: JobId, uuid: Uuid) {
    && id in s.jobs && s.jobs[id].state.Queued? && ValidUuid(uuid) && uuid !in s.leases
    && r.store == Started(s, id, uuid)
  }

  /** What can become of the write that starts a job. */
  ghost predicate StartWritten(s: StoreState, config: StoreConfig, id: JobId, uuid: Uuid, fate: Fate, w: Written)
    requires id in s.jobs
  {
    && (w.alive <==> fate.Answered? || fate.Unavailable?)
    && (w.store == s || w.store == Started(s, id, uuid))
    && (w.alive && w.code.None? <==> fate.Answered? && Headroom(s, config))
    && (w.alive && w.code.None? ==> w.store == Started(s, id, uuid))
    && (w.alive && w.code.Some? ==> w.store == s)
  }

  lemma WriteStarts(s: StoreState, config: StoreConfig, id: JobId, uuid: Uuid, fate: Fate)
    requires Consistent(s) && id in s.jobs && s.jobs[id].state.Queued? && ValidUuid(uuid) && uuid !in s.leases
    ensures StartWritten(s, config, id, uuid, fate, Write(s, config, StartMutation(s, s.jobs[id], uuid), fate))
  {
    StartAccepted(s, config, id, uuid);
  }

  /** What the placement of a waiting job on a free device comes to. */
  ghost predicate PlaceOutcome(config: SchedulerConfig, s: StoreState, entries: seq<QueueEntry>, id: JobId, hit: Hit,
                               skipped: seq<Skip>, truncated: bool, fate: Fate, r: Run)
    requires id in s.jobs
  {
    && (r.alive <==> fate.Answered? || fate.Unavailable?)
    && (r.store == s || StartsOne(s, r, id, hit.device.uuid))
    && (r.alive ==> if fate.Answered? && Headroom(s, config.store)
                    then r.result == ScheduleResult(Scheduled, Some(id), Some(hit.device.uuid), hit.reason, None, None,
                                                    skipped, truncated)
                      && r.store == Started(s, id, hit.device.uuid) && r.entries == Without(entries, id)
                    else r.result.code.StateWriteFailed? && r.store == s && r.entries == entries)
  }

  lemma TakenOff(entries: seq<QueueEntry>, jobs: Jobs, id: JobId)
    requires InSync(entries, jobs) && JobsSound(jobs) && id in jobs && jobs[id].state.Queued?
    ensures RemoveError(entries, id).None? && Remove(entries, id) == Without(entries, id)
    ensures |Without(entries, id)| == |entries| - 1 && !Contains(Without(entries, id), id)
  {
    assert ConsistentRecord(id, jobs[id]);
    InSyncOnce(entries, jobs);
    assert EntryOf(jobs[id]) in entries;
    WithoutKeeps(entries, id);
    var rest := Without(entries, id);
    forall k | 0 <= k < |rest| ensures rest[k].job != id {
      assert rest[k] in rest;
    }
  }

  lemma GiveBack(entries: seq<QueueEntry>, jobs: Jobs, capacity: nat, id: JobId)
    requires InSync(entries, jobs) && JobsSound(jobs) && |entries| <= capacity && id in jobs && jobs[id].state.Queued?
    ensures RemoveError(entries, id).None? && Remove(entries, id) == Without(entries, id)
    ensures AdmitError(Without(entries, id), capacity, jobs[id]).None?
      && Admit(Without(entries, id), capacity, jobs[id]) == entries
  {
    assert ConsistentRecord(id, jobs[id]);
    TakenOff(entries, jobs, id);
    RemoveThenAdmit(entries, jobs, id);
  }

  lemma PlacedKeeps(config: SchedulerConfig, s: StoreState, entries: seq<QueueEntry>, id: JobId, hit: Hit,
                    skipped: seq<Skip>, truncated: bool, fate: Fate, w: Written)
    requires id in s.jobs && s.jobs[id].id == id && s.jobs[id].state.Queued? && ValidUuid(hit.device.uuid)
    requires hit.device.uuid !in s.leases
    requires StartWritten(s, config.store, id, hit.device.uuid, fate, w)
    requires AdmitError(Without(entries, id), config.capacity, s.jobs[id]).None?
    requires Admit(Without(entries, id), config.capacity, s.jobs[id]) == entries
    ensures PlaceOutcome(config, s, entries, id, hit, skipped, truncated, fate,
                         Placed(Without(entries, id), config.capacity, s.jobs[id], hit, skipped, truncated, w))
  {
  }

  lemma PlaceKeeps(config: SchedulerConfig, s: StoreState, entries: seq<QueueEntry>, id: JobId, hit: Hit,
                   skipped: seq<Skip>, truncated: bool, fate: Fate)
    requires Consistent(s) && InSync(entries, s.jobs) && |entries| <= config.capacity
    requires id in s.jobs && s.jobs[id].state.Queued?
    requires ValidUuid(hit.device.uuid) && hit.device.uuid !in s.leases
    ensures PlaceOutcome(config, s, entries, id, hit, skipped, truncated, fate,
                         Place(config, s, entries, s.jobs[id], hit, skipped, truncated, fate))
  {
    assert ConsistentRecord(id, s.jobs[id]);
    GiveBack(entries, s.jobs, config.capacity, id);
    WriteStarts(s, config.store, id, hit.device.uuid, fate);
    PlacedKeeps(config, s, entries, id, hit, skipped, truncated, fate,
                Write(s, config.store, StartMutation(s, s.jobs[id], hit.device.uuid), fate));
  }

  lemma {:induction false} LowestUsable(devices: seq<Observation>, n: nat, leases: Leases, avoid: set<Uuid>)
    requires n <= |devices|
    ensures var best := LowestOf(devices, n, leases, avoid);
      best.Some? ==> best.value in devices && Usable(best.value, leases)
  {
    if n > 0 {
      LowestUsable(devices, n - 1, leases, avoid);
    }
  }

  lemma {:induction false} RequiredUsable(devices: seq<Observation>, leases: Leases, wanted: seq<Uuid>, n: nat)
    requires n <= |wanted|
    ensures var best := SelectRequired(devices, leases, wanted, n);
      best.Some? ==> best.value in devices && Usable(best.value, leases)
  {
    if n > 0 {
      RequiredUsable(devices, leases, wanted, n - 1);
    }
  }

  lemma ChoiceUsable(devices: seq<Observation>, leases: Leases, anyChoice: (Option<Observation>, SelectionReason),
                     p: GpuPlacement, targets: set<Uuid>)
    requires anyChoice == SelectAny(devices, leases, targets)
    ensures var d := Choose(devices, leases, anyChoice, p).0;
      d.Some? ==> d.value in devices && Usable(d.value, leases)
  {
    LowestUsable(devices, |devices|, leases, {});
    LowestUsable(devices, |devices|, leases, targets);
    RequiredUsable(devices, leases, p.devices, |p.devices|);
  }

  lemma AllKnown(entries: seq<QueueEntry>, jobs: Jobs, window: nat)
    requires InSync(entries, jobs) && window <= |entries|
    ensures Known(entries, jobs, window)
  {
    assert forall k :: 0 <= k < |entries| ==> entries[k] in entries;
  }

  ghost predicate RunGuarantee(s: StoreState, entries: seq<QueueEntry>, r: Run) {
    && !r.result.code.QueueStateDiverged? && !r.result.code.QueueRollbackFailed?
    && (r.store == s || exists id, uuid :: StartsOne(s, r, id, uuid))
    && (r.alive && !r.result.code.Scheduled? ==> r.store == s && r.entries == entries)
    && (r.alive && r.result.code.Scheduled? ==>
          && r.result.job.Some? && r.result.gpu.Some?
          && StartsOne(s, r, r.result.job.value, r.result.gpu.value)
          && r.entries == Without(entries, r.result.job.value))
  }

  lemma ScanUsable(config: SchedulerConfig, s: StoreState, entries: seq<QueueEntry>, devices: seq<Observation>)
    requires Known(entries, s.jobs, WindowOf(config, entries))
    ensures var hit := WindowScan(config, s, entries, devices).0;
      hit.Some? ==> hit.value.device in devices && Usable(hit.value.device, s.leases)
  {
    var window := WindowOf(config, entries);
    var targets := AffinityTargets(entries, s.jobs, window);
    var anyChoice := SelectAny(devices, s.leases, targets);
    var hit := WindowScan(config, s, entries, devices).0;
    if hit.Some? {
      ScanStops(entries, s.jobs, s.leases, devices, anyChoice, window, 0);
      ChoiceUsable(devices, s.leases, anyChoice, s.jobs[entries[hit.value.index].job].spec.placement, targets);
    }
  }

  lemma EvaluateKeeps(config: SchedulerConfig, s: StoreState, entries: seq<QueueEntry>, devices: seq<Observation>,
                      fate: Fate)
    requires Consistent(s) && InSync(entries, s.jobs) && |entries| <= config.capacity
    requires forall i :: 0 <= i < |devices| ==> ValidUuid(devices[i].uuid)
    requires Known(entries, s.jobs, WindowOf(config, entries))
    ensures RunGuarantee(s, entries, Evaluate(config, s, entries, devices, fate))
  {
    var scan := WindowScan(config, s, entries, devices);
    if scan.0.Some? {
      ScanUsable(config, s, entries, devices);
      assert entries[scan.0.value.index] in entries;
      PlaceKeeps(config, s, entries, entries[scan.0.value.index].job, scan.0.value, scan.1,
                 |entries| > WindowOf(config, entries), fate);
    }
  }

  /** From a queue in step with the store, a run with something to look at is an evaluation, and any
      other run touches nothing. */
  lemma RunOnceCases(config: SchedulerConfig, s: StoreState, entries: seq<QueueEntry>, gpu: GpuSnapshot, loadOk: bool,
                     fate: Fate)
    requires InSync(entries, s.jobs) && JobsSound(s.jobs)
    ensures Known(entries, s.jobs, WindowOf(config, entries))
    ensures var r := RunOnce(config, s, entries, gpu, loadOk, fate);
      if ValidSnapshot(gpu) && loadOk && entries != [] then r == Evaluate(config, s, entries, gpu.devices, fate)
      else (&& r.alive && r.store == s && r.entries == entries
            && (r.result.code.InvalidGpuSnapshot? || r.result.code.StateLoadFailed? || r.result.code.QueueEmpty?))
  {
    AllKnown(entries, s.jobs, WindowOf(config, entries));
    NoDivergence(entries, s, WindowOf(config, entries));
  }

  /** From a queue in step with the store, a run never reports a diverged queue or a failed rollback:
      it leaves everything as it was, or it moves one waiting job to STARTING together with its lease.
      A failed write gives the queue back exactly as it was. */
  lemma RunOnceKeeps(config: SchedulerConfig, s: StoreState, entries: seq<QueueEntry>, gpu: GpuSnapshot, loadOk: bool,
                     fate: Fate)
    requires Consistent(s) && InSync(entries, s.jobs) && |entries| <= config.capacity
    ensures RunGuarantee(s, entries, RunOnce(config, s, entries, gpu, loadOk, fate))
  {
    RunOnceCases(config, s, entries, gpu, loadOk, fate);
    if ValidSnapshot(gpu) && loadOk && entries != [] {
      EvaluateKeeps(config, s, entries, gpu.devices, fate);
    }
  }

  ghost predicate SatisfiableAt(s: StoreState, entries: seq<QueueEntry>, devices: seq<Observation>, k: nat)
    requires k < |entries| && entries[k].job in s.jobs
  {
    Satisfiable(devices, s.leases, s.jobs[entries[k].job].spec.placement)
  }

  /** The evaluation of a run that passed over the first `n` entries: each of them, in queue order,
      with its own wait reason. */
  ghost predicate Passed(s: StoreState, entries: seq<QueueEntry>, devices: seq<Observation>, n: nat, skipped: seq<Skip>)
    requires n <= |entries| && Known(entries, s.jobs, n)
  {
    |skipped| == n && forall k :: 0 <= k < n ==>
      !SatisfiableAt(s, entries, devices, k) && skipped[k].job == entries[k].job
      && WaitSpec(devices, s.leases, s.jobs[entries[k].job].spec.placement, skipped[k].reason, skipped[k].target)
  }

  lemma SkipMeans(s: StoreState, entries: seq<QueueEntry>, devices: seq<Observation>, k: nat)
    requires k < |entries| && entries[k].job in s.jobs && DistinctDevices(devices)
    ensures var skip := SkipOf(entries, s.jobs, s.leases, devices, k);
      skip.job == entries[k].job
        && WaitSpec(devices, s.leases, s.jobs[entries[k].job].spec.placement, skip.reason, skip.target)
  {
    if s.jobs[entries[k].job].spec.placement.mode.Required? {
      RequiredWaitMeans(devices, s.leases, s.jobs[entries[k].job].spec.placement);
    }
  }

  /** Which job a scan of the window takes: the first satisfiable one, on a device its placement
      rules name; none exactly when no entry of the window is satisfiable. */
  ghost predicate TakesFirst(s: StoreState, entries: seq<QueueEntry>, devices: seq<Observation>, window: nat,
                             scan: (Option<Hit>, seq<Skip>))
    requires Known(entries, s.jobs, window)
  {
    match scan.0
    case None => Passed(s, entries, devices, window, scan.1)
    case Some(hit) =>
      && hit.index < window && SatisfiableAt(s, entries, devices, hit.index)
      && Passed(s, entries, devices, hit.index, scan.1)
      && ValidPlacement(s.jobs[entries[hit.index].job].spec.placement)
      && ChoiceSpec(devices, s.leases, AffinityTargets(entries, s.jobs, window),
                    s.jobs[entries[hit.index].job].spec.placement, (Some(hit.device), hit.reason))
  }

  predicate Denied(s: StoreState, entries: seq<QueueEntry>, devices: seq<Observation>, targets: set<Uuid>, n: nat,
                   skipped: seq<Skip>)
    requires n <= |entries| && Known(entries, s.jobs, n)
  {
    |skipped| == n && forall k :: 0 <= k < n ==>
      ChoiceAt(entries, s.jobs, s.leases, devices, SelectAny(devices, s.leases, targets), k).0.None?
      && skipped[k] == SkipOf(entries, s.jobs, s.leases, devices, k)
  }

  lemma PassedFrom(s: StoreState, entries: seq<QueueEntry>, devices: seq<Observation>, targets: set<Uuid>, n: nat,
                   skipped: seq<Skip>)
    requires n <= |entries| && Known(entries, s.jobs, n) && JobsSound(s.jobs) && DistinctDevices(devices)
    requires Denied(s, entries, devices, targets, n, skipped)
    ensures Passed(s, entries, devices, n, skipped)
  {
    forall k | 0 <= k < n
      ensures !SatisfiableAt(s, entries, devices, k) && skipped[k].job == entries[k].job
        && WaitSpec(devices, s.leases, s.jobs[entries[k].job].spec.placement, skipped[k].reason, skipped[k].target)
    {
      ChoiceAtSpec(entries, s.jobs, s.leases, devices, targets, k);
      SkipMeans(s, entries, devices, k);
    }
  }

  lemma TakenFrom(s: StoreState, entries: seq<QueueEntry>, devices: seq<Observation>, window: nat,
                  scan: (Option<Hit>, seq<Skip>))
    requires Known(entries, s.jobs, window) && JobsSound(s.jobs) && DistinctDevices(devices)
    requires scan.0.Some? ==> scan.0.value.index < window
    requires var targets := AffinityTargets(entries, s.jobs, window);
      && Denied(s, entries, devices, targets, if scan.0.Some? then scan.0.value.index else window, scan.1)
      && (scan.0.Some? ==>
            ChoiceAt(entries, s.jobs, s.leases, devices, SelectAny(devices, s.leases, targets), scan.0.value.index)
            == (Some(scan.0.value.device), scan.0.value.reason))
    ensures TakesFirst(s, entries, devices, window, scan)
  {
    var targets := AffinityTargets(entries, s.jobs, window);
    PassedFrom(s, entries, devices, targets, if scan.0.Some? then scan.0.value.index else window, scan.1);
    if scan.0.Some? {
      ChoiceAtSpec(entries, s.jobs, s.leases, devices, targets, scan.0.value.index);
    }
  }

  lemma ScanDenies(s: StoreState, entries: seq<QueueEntry>, devices: seq<Observation>, targets: set<Uuid>, window: nat)
    requires Known(entries, s.jobs, window)
    ensures var anyChoice := SelectAny(devices, s.leases, targets);
      var scan := Scan(entries, s.jobs, s.leases, devices, anyChoice, window, 0);
      && Denied(s, entries, devices, targets, if scan.0.Some? then scan.0.value.index else window, scan.1)
      && (scan.0.Some? ==>
            ChoiceAt(entries, s.jobs, s.leases, devices, anyChoice, scan.0.value.index) ==
              (Some(scan.0.value.device), scan.0.value.reason))
  {
    ScanStops(entries, s.jobs, s.leases, devices, SelectAny(devices, s.leases, targets), window, 0);
  }

  lemma WindowScanSpec(config: SchedulerConfig, s: StoreState, entries: seq<QueueEntry>, devices: seq<Observation>)
    requires Known(entries, s.jobs, WindowOf(config, entries)) && JobsSound(s.jobs) && DistinctDevices(devices)
    ensures TakesFirst(s, entries, devices, WindowOf(config, entries), WindowScan(config, s, entries, devices))
  {
    var window := WindowOf(config, entries);
    ScanDenies(s, entries, devices, AffinityTargets(entries, s.jobs, window), window);
    TakenFrom(s, entries, devices, window, WindowScan(config, s, entries, devices));
  }

  /** How a run ends once the window has been scanned: nothing to take is NoCandidate, and a taken
      job is scheduled exactly when the backend answers and the store has headroom. */
  ghost predicate EndsWith(config: SchedulerConfig, s: StoreState, entries: seq<QueueEntry>, fate: Fate,
                           scan: (Option<Hit>, seq<Skip>), r: Run)
    requires scan.0.Some? ==> scan.0.value.index < |entries|
  {
    match scan.0
    case None =>
      && r.alive && r.result.code.NoCandidate? && r.result.skipped == scan.1
      && r.result.truncated == (|entries| > WindowOf(config, entries))
    case Some(hit) =>
      && (r.alive <==> fate.Answered? || fate.Unavailable?)
      && (r.alive ==>
            if fate.Answered? && Headroom(s, config.store) then
              r.result == ScheduleResult(Scheduled, Some(entries[hit.index].job), Some(hit.device.uuid), hit.reason,
                                         None, None, scan.1, |entries| > WindowOf(config, entries))
            else r.result.code.StateWriteFailed?)
  }

  /** The whole outcome of a run over a sound snapshot and a non-empty queue. */
  lemma RunOnceSpec(config: SchedulerConfig, s: StoreState, entries: seq<QueueEntry>, gpu: GpuSnapshot, fate: Fate)
    requires Consistent(s) && InSync(entries, s.jobs) && |entries| <= config.capacity
    requires ValidSnapshot(gpu) && entries != []
    ensures Known(entries, s.jobs, WindowOf(config, entries))
    ensures var scan := WindowScan(config, s, entries, gpu.devices);
      && TakesFirst(s, entries, gpu.devices, WindowOf(config, entries), scan)
      && EndsWith(config, s, entries, fate, scan, RunOnce(config, s, entries, gpu, true, fate))
  {
    RunOnceCases(config, s, entries, gpu, true, fate);
    WindowScanSpec(config, s, entries, gpu.devices);
    var scan := WindowScan(config, s, entries, gpu.devices);
    if scan.0.Some? {
      ScanUsable(config, s, entries, gpu.devices);
      assert entries[scan.0.value.index] in entries;
      PlaceKeeps(config, s, entries, entries[scan.0.value.index].job, scan.0.value, scan.1,
                 |entries| > WindowOf(config, entries), fate);
    }
  }

  // ---- A run over a queue that may have diverged ----

  /** Whatever the queue holds, a run changes nothing or starts one waiting job on one free device. */
  ghost predicate RunSafe(s: StoreState, r: Run) {
    && (r.store == s || exists id, uuid :: StartsOne(s, r, id, uuid))
    && (r.alive && !r.result.code.Scheduled? ==> r.store == s)
    && (r.alive && r.result.code.Scheduled? ==>
          r.result.job.Some? && r.result.gpu.Some? && StartsOne(s, r, r.result.job.value, r.result.gpu.value))
  }

  lemma PlacedSafe(config: SchedulerConfig, s: StoreState, rest: seq<QueueEntry>, id: JobId, hit: Hit,
                   skipped: seq<Skip>, truncated: bool, fate: Fate, w: Written)
    requires id in s.jobs && s.jobs[id].id == id && s.jobs[id].state.Queued? && ValidUuid(hit.device.uuid)
    requires hit.device.uuid !in s.leases
    requires StartWritten(s, config.store, id, hit.device.uuid, fate, w)
    ensures RunSafe(s, Placed(rest, config.capacity, s.jobs[id], hit, skipped, truncated, w))
  {
    var r := Placed(rest, config.capacity, s.jobs[id], hit, skipped, truncated, w);
    assert r.store == s || StartsOne(s, r, id, hit.device.uuid);
  }

  lemma PlaceSafe(config: SchedulerConfig, s: StoreState, entries: seq<QueueEntry>, id: JobId, hit: Hit,
                  skipped: seq<Skip>, truncated: bool, fate: Fate)
    requires Consistent(s) && id in s.jobs && s.jobs[id].state.Queued?
    requires ValidUuid(hit.device.uuid) && hit.device.uuid !in s.leases
    ensures RunSafe(s, Place(config, s, entries, s.jobs[id], hit, skipped, truncated, fate))
  {
    assert ConsistentRecord(id, s.jobs[id]);
    WriteStarts(s, config.store, id, hit.device.uuid, fate);
    PlacedSafe(config, s, Remove(entries, id), id, hit, skipped, truncated, fate,
               Write(s, config.store, StartMutation(s, s.jobs[id], hit.device.uuid), fate));
  }

  lemma RunOnceSafe(config: SchedulerConfig, s: StoreState, entries: seq<QueueEntry>, gpu: GpuSnapshot, loadOk: bool,
                    fate: Fate)
    requires Consistent(s)
    ensures RunSafe(s, RunOnce(config, s, entries, gpu, loadOk, fate))
  {
    if ValidSnapshot(gpu) && loadOk && Divergence(entries, Load(s), s.jobs, WindowOf(config, entries)).None?
      && entries != [] {
      EvaluateSafe(config, s, entries, gpu.devices, fate);
    }
  }

  lemma EvaluateSafe(config: SchedulerConfig, s: StoreState, entries: seq<QueueEntry>, devices: seq<Observation>,
                     fate: Fate)
    requires Consistent(s) && forall k :: 0 <= k < |entries| ==>
      entries[k].job in s.jobs && s.jobs[entries[k].job].state.Queued?
    requires forall i :: 0 <= i < |devices| ==> ValidUuid(devices[i].uuid)
    ensures RunSafe(s, Evaluate(config, s, entries, devices, fate))
  {
    var scan := WindowScan(config, s, entries, devices);
    if scan.0.Some? {
      ScanUsable(config, s, entries, devices);
      PlaceSafe(config, s, entries, entries[scan.0.value.index].job, scan.0.value, scan.1,
                |entries| > WindowOf(config, entries), fate);
    }
  }
}
