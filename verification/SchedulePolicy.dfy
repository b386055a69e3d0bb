/** What a scheduling run does, told from the store and the devices alone: no queue, no scan, no window. */
module SchedulePolicy {
  import opened Basics
  import opened Job
  import opened Store
  import opened Queue
  import opened JobChecks
  import opened StateStores
  import opened Scheduler
  import opened ScheduleRuns

  predicate Sooner(a: StoredJob, b: StoredJob) {
    a.spec.submitTime < b.spec.submitTime || (a.spec.submitTime == b.spec.submitTime && a.id < b.id)
  }

  /** The waiting jobs that come before `id`. */
  function Ahead(jobs: Jobs, id: JobId): set<JobId>
    requires id in jobs
  {
    set other | other in jobs && jobs[other].state == JobState.Queued && Sooner(jobs[other], jobs[id])
  }

  /** A waiting job with fewer than `window` others before it. */
  predicate InWindow(jobs: Jobs, window: nat, id: JobId) {
    id in jobs && jobs[id].state == JobState.Queued && |Ahead(jobs, id)| < window
  }

  /** The device is free, nobody holds it, and the job would take it. */
  predicate CanTake(d: Observation, leases: Leases, p: GpuPlacement) {
    d.state == Free && d.uuid !in leases && (p.mode == Required ==> d.uuid in p.devices)
  }

  ghost predicate Servable(s: StoreState, devices: seq<Observation>, id: JobId)
    requires id in s.jobs
  {
    exists d :: d in devices && CanTake(d, s.leases, s.jobs[id].spec.placement)
  }

  /** The jobs of the window that can be served now. */
  ghost predicate Eligible(s: StoreState, devices: seq<Observation>, window: nat, id: JobId) {
    InWindow(s.jobs, window, id) && Servable(s, devices, id)
  }

  /** The soonest of them. */
  ghost predicate FirstEligible(s: StoreState, devices: seq<Observation>, window: nat, id: JobId) {
    && Eligible(s, devices, window, id)
    && forall other :: Eligible(s, devices, window, other) && other != id ==> Sooner(s.jobs[id], s.jobs[other])
  }

  /** The devices that REQUIRED jobs of the window name. */
  ghost predicate TargetsOf(s: StoreState, window: nat, targets: set<Uuid>) {
    forall u :: u in targets <==> exists id :: Names(s, window, id, u)
  }

  predicate Names(s: StoreState, window: nat, id: JobId, u: Uuid) {
    InWindow(s.jobs, window, id)
    && s.jobs[id].spec.placement.mode == Required && u in s.jobs[id].spec.placement.devices
  }

  /** The device of the job is the one its placement names, with its reason. */
  ghost predicate Serves(s: StoreState, devices: seq<Observation>, window: nat, id: JobId, uuid: Uuid,
                         reason: SelectionReason) {
    && id in s.jobs && ValidPlacement(s.jobs[id].spec.placement)
    && exists d, targets :: d in devices && d.uuid == uuid && CanTake(d, s.leases, s.jobs[id].spec.placement)
         && TargetsOf(s, window, targets)
         && ChoiceSpec(devices, s.leases, targets, s.jobs[id].spec.placement, (Some(d), reason))
  }

  /** Each job that was passed over, in order, with the reason it waits for. */
  ghost predicate PassesOver(s: StoreState, devices: seq<Observation>, skipped: seq<Skip>) {
    forall k :: 0 <= k < |skipped| ==>
      var id := skipped[k].job;
      && id in s.jobs && s.jobs[id].state == JobState.Queued && |Ahead(s.jobs, id)| == k
      && !Servable(s, devices, id)
      && WaitSpec(devices, s.leases, s.jobs[id].spec.placement, skipped[k].reason, skipped[k].target)
  }

  /** The store with one more job started: STARTING, one revision on, and its lease. */
  function StartedStore(s: StoreState, id: JobId, uuid: Uuid): StoreState
    requires id in s.jobs
  {
    StoreState(s.jobs[id := s.jobs[id].(state := JobState.Starting, revision := s.jobs[id].revision + 1)],
               s.leases[uuid := id], s.revision + 1)
  }

  // ---- The queue is the jobs by how many are before them ----

  lemma AheadOfEntry(entries: seq<QueueEntry>, jobs: Jobs, k: nat)
    requires InSync(entries, jobs) && JobsSound(jobs) && k < |entries|
    ensures entries[k].job in jobs && jobs[entries[k].job].state == JobState.Queued
    ensures Ahead(jobs, entries[k].job) == set i | 0 <= i < k :: entries[i].job
  {
    InSyncOnce(entries, jobs);
    var id := entries[k].job;
    assert entries[k] in entries;
    assert ConsistentRecord(id, jobs[id]);
    forall other ensures other in Ahead(jobs, id) <==> other in (set i | 0 <= i < k :: entries[i].job) {
      if other in jobs && jobs[other].state == JobState.Queued {
        assert ConsistentRecord(other, jobs[other]);
        assert EntryOf(jobs[other]) in entries;
        var i :| 0 <= i < |entries| && entries[i] == EntryOf(jobs[other]);
        SoonerIsBefore(entries, jobs, i, k);
      }
      if i :| 0 <= i < k && entries[i].job == other {
        assert entries[i] in entries;
      }
    }
  }

  lemma SoonerIsBefore(entries: seq<QueueEntry>, jobs: Jobs, i: nat, k: nat)
    requires InSync(entries, jobs) && JobsSound(jobs) && i < |entries| && k < |entries|
    ensures entries[i].job in jobs && entries[k].job in jobs
    ensures Sooner(jobs[entries[i].job], jobs[entries[k].job]) <==> i < k
  {
    InSyncMeans(entries, jobs);
    assert entries[i] in entries && entries[k] in entries;
    assert QueueEntry(entries[i].job, entries[i].submitTime) == entries[i];
    assert QueueEntry(entries[k].job, entries[k].submitTime) == entries[k];
    assert ConsistentRecord(entries[i].job, jobs[entries[i].job]);
    assert ConsistentRecord(entries[k].job, jobs[entries[k].job]);
  }

  lemma PlaceInQueue(entries: seq<QueueEntry>, jobs: Jobs, k: nat)
    requires InSync(entries, jobs) && JobsSound(jobs) && k < |entries|
    ensures entries[k].job in jobs && jobs[entries[k].job].state == JobState.Queued
    ensures |Ahead(jobs, entries[k].job)| == k
  {
    AheadOfEntry(entries, jobs, k);
    InSyncOnce(entries, jobs);
    DistinctJobs(entries[..k]);
    assert (set i | 0 <= i < k :: entries[i].job) == set i | 0 <= i < |entries[..k]| :: entries[..k][i].job;
  }

  /** A waiting job stands in the queue behind exactly the jobs before it. */
  lemma FoundInQueue(entries: seq<QueueEntry>, jobs: Jobs, id: JobId) returns (k: nat)
    requires InSync(entries, jobs) && JobsSound(jobs) && id in jobs && jobs[id].state == JobState.Queued
    ensures k < |entries| && entries[k].job == id && k == |Ahead(jobs, id)|
  {
    InSyncOnce(entries, jobs);
    assert Contains(entries, id);
    k :| 0 <= k < |entries| && entries[k].job == id;
    PlaceInQueue(entries, jobs, k);
  }

  // ---- The scan ----

  lemma WindowMeans(config: SchedulerConfig, s: StoreState, entries: seq<QueueEntry>, id: JobId)
    requires InSync(entries, s.jobs) && JobsSound(s.jobs)
    ensures InWindow(s.jobs, config.window, id) <==>
      exists k :: 0 <= k < WindowOf(config, entries) && entries[k].job == id
  {
    if k :| 0 <= k < WindowOf(config, entries) && entries[k].job == id {
      PlaceInQueue(entries, s.jobs, k);
    }
    if InWindow(s.jobs, config.window, id) {
      var k := FoundInQueue(entries, s.jobs, id);
    }
  }

  lemma TargetsMean(config: SchedulerConfig, s: StoreState, entries: seq<QueueEntry>)
    requires InSync(entries, s.jobs) && JobsSound(s.jobs) && Known(entries, s.jobs, WindowOf(config, entries))
    ensures TargetsOf(s, config.window, AffinityTargets(entries, s.jobs, WindowOf(config, entries)))
  {
    var window := WindowOf(config, entries);
    forall u ensures u in AffinityTargets(entries, s.jobs, window) <==> exists id :: Names(s, config.window, id, u) {
      if u in AffinityTargets(entries, s.jobs, window) {
        var k :| 0 <= k < window && s.jobs[entries[k].job].spec.placement.mode.Required?
          && u in s.jobs[entries[k].job].spec.placement.devices;
        WindowMeans(config, s, entries, entries[k].job);
        assert Names(s, config.window, entries[k].job, u);
      }
      if id :| Names(s, config.window, id, u) {
        WindowMeans(config, s, entries, id);
      }
    }
  }

  lemma ServableMeans(s: StoreState, entries: seq<QueueEntry>, devices: seq<Observation>, k: nat)
    requires k < |entries| && entries[k].job in s.jobs
    ensures SatisfiableAt(s, entries, devices, k) <==> Servable(s, devices, entries[k].job)
  {
    var p := s.jobs[entries[k].job].spec.placement;
    if d :| d in devices && Usable(d, s.leases) && (p.mode.Required? ==> d.uuid in p.devices) {
      assert CanTake(d, s.leases, p);
    }
  }

  lemma PassedMeans(s: StoreState, entries: seq<QueueEntry>, devices: seq<Observation>, n: nat, skipped: seq<Skip>)
    requires InSync(entries, s.jobs) && JobsSound(s.jobs)
    requires n <= |entries| && Known(entries, s.jobs, n) && Passed(s, entries, devices, n, skipped)
    ensures PassesOver(s, devices, skipped)
  {
    forall k | 0 <= k < |skipped|
      ensures var id := skipped[k].job;
        && id in s.jobs && s.jobs[id].state == JobState.Queued && |Ahead(s.jobs, id)| == k
        && !Servable(s, devices, id)
    {
      PlaceInQueue(entries, s.jobs, k);
      ServableMeans(s, entries, devices, k);
    }
  }

  /** Nothing of the window can be served. */
  lemma NoneMeans(config: SchedulerConfig, s: StoreState, entries: seq<QueueEntry>, devices: seq<Observation>,
                  scan: (Option<Hit>, seq<Skip>))
    requires InSync(entries, s.jobs) && JobsSound(s.jobs) && Known(entries, s.jobs, WindowOf(config, entries))
    requires TakesFirst(s, entries, devices, WindowOf(config, entries), scan) && scan.0.None?
    ensures forall id :: !Eligible(s, devices, config.window, id)
    ensures PassesOver(s, devices, scan.1) && |scan.1| == WindowOf(config, entries)
  {
    forall id ensures !Eligible(s, devices, config.window, id) {
      if InWindow(s.jobs, config.window, id) {
        WindowMeans(config, s, entries, id);
        var k :| 0 <= k < WindowOf(config, entries) && entries[k].job == id;
        ServableMeans(s, entries, devices, k);
      }
    }
    PassedMeans(s, entries, devices, WindowOf(config, entries), scan.1);
  }

  lemma FirstMeans(config: SchedulerConfig, s: StoreState, entries: seq<QueueEntry>, devices: seq<Observation>,
                   scan: (Option<Hit>, seq<Skip>))
    requires InSync(entries, s.jobs) && JobsSound(s.jobs) && Known(entries, s.jobs, WindowOf(config, entries))
    requires TakesFirst(s, entries, devices, WindowOf(config, entries), scan) && scan.0.Some?
    ensures FirstEligible(s, devices, config.window, entries[scan.0.value.index].job)
  {
    var k := scan.0.value.index;
    var id := entries[k].job;
    PlaceInQueue(entries, s.jobs, k);
    ServableMeans(s, entries, devices, k);
    forall other | Eligible(s, devices, config.window, other) && other != id ensures Sooner(s.jobs[id], s.jobs[other]) {
      var i := FoundInQueue(entries, s.jobs, other);
      ServableMeans(s, entries, devices, i);
      SoonerIsBefore(entries, s.jobs, k, i);
    }
  }

  lemma HitServes(config: SchedulerConfig, s: StoreState, entries: seq<QueueEntry>, devices: seq<Observation>,
                  scan: (Option<Hit>, seq<Skip>))
    requires InSync(entries, s.jobs) && JobsSound(s.jobs) && Known(entries, s.jobs, WindowOf(config, entries))
    requires TakesFirst(s, entries, devices, WindowOf(config, entries), scan) && scan.0.Some?
    requires scan.0.value.device in devices && Usable(scan.0.value.device, s.leases)
    ensures Serves(s, devices, config.window, entries[scan.0.value.index].job, scan.0.value.device.uuid,
                   scan.0.value.reason)
  {
    var hit := scan.0.value;
    var p := s.jobs[entries[hit.index].job].spec.placement;
    TargetsMean(config, s, entries);
    var targets := AffinityTargets(entries, s.jobs, WindowOf(config, entries));
    assert ChoiceSpec(devices, s.leases, targets, p, (Some(hit.device), hit.reason));
    assert CanTake(hit.device, s.leases, p);
  }

  // ---- The snapshot ----

  predicate TelemetryOf(t: Telemetry) {
    && (t.utilization != None ==> t.utilization.value <= 100) && (t.memoryTotal != None ==> t.memoryTotal.value != 0)
    && (t.memoryUsed != None ==> t.memoryTotal != None && t.memoryUsed.value <= t.memoryTotal.value)
  }

  function Uuids(devices: seq<Observation>): seq<Uuid> {
    seq(|devices|, i requires 0 <= i < |devices| => devices[i].uuid)
  }

  function Indexes(devices: seq<Observation>): seq<int> {
    seq(|devices|, i requires 0 <= i < |devices| => devices[i].index)
  }

  /** At most 128 devices, no name and no index twice. */
  predicate SnapshotOf(gpu: GpuSnapshot) {
    && gpu.revision != 0 && gpu.observedAt > 0 && |gpu.devices| <= 128
    && (forall d :: d in gpu.devices ==> TextOf(d.uuid, 1, 96) && TelemetryOf(d.telemetry))
    && (forall u :: u in Uuids(gpu.devices) ==> multiset(Uuids(gpu.devices))[u] == 1)
    && (forall k :: k in Indexes(gpu.devices) ==> multiset(Indexes(gpu.devices))[k] == 1)
  }

  lemma DistinctMeans(devices: seq<Observation>)
    ensures DistinctDevices(devices) <==>
      && (forall u :: u in Uuids(devices) ==> multiset(Uuids(devices))[u] == 1)
      && (forall k :: k in Indexes(devices) ==> multiset(Indexes(devices))[k] == 1)
  {
    OnceEach(Uuids(devices));
    OnceEach(Indexes(devices));
    var uuids, indexes := Uuids(devices), Indexes(devices);
    if DistinctDevices(devices) {
      forall i, j | 0 <= i < j < |devices| ensures uuids[i] != uuids[j] && indexes[i] != indexes[j] {
        assert devices[i].uuid != devices[j].uuid && devices[i].index != devices[j].index;
      }
    } else {
      var i, j :| 0 <= i < j < |devices|
        && (devices[i].uuid == devices[j].uuid || devices[i].index == devices[j].index);
      assert uuids[i] == uuids[j] || indexes[i] == indexes[j];
    }
  }

  /** Exactly these snapshots are looked at. */
  lemma SnapshotMeans(gpu: GpuSnapshot)
    ensures ValidSnapshot(gpu) <==> SnapshotOf(gpu)
  {
    DistinctMeans(gpu.devices);
    assert forall i :: 0 <= i < |gpu.devices| ==> gpu.devices[i] in gpu.devices;
  }

  // ---- The run ----

  /** The run came to this result and touched nothing. */
  predicate Idle(s: StoreState, entries: seq<QueueEntry>, r: Run, result: ScheduleResult) {
    r == Run(s, entries, result, true)
  }

  /** The result of a run that looked at no job. */
  function Unseen(code: ScheduleCode, job: Option<JobId>, storeError: Option<StoreError>,
                  queueError: Option<QueueError>): ScheduleResult
  {
    ScheduleResult(code, job, None, DefaultChoice, storeError, queueError, [], false)
  }

  /** The soonest waiting job, if there is one. */
  predicate Front(jobs: Jobs, front: Option<JobId>) {
    && (front == None <==> WaitingIds(jobs) == {})
    && (front != None ==>
          && front.value in WaitingIds(jobs)
          && forall id :: id in WaitingIds(jobs) && id != front.value ==> Sooner(jobs[front.value], jobs[id]))
  }

  lemma FrontMeans(entries: seq<QueueEntry>, jobs: Jobs)
    requires InSync(entries, jobs) && JobsSound(jobs)
    ensures Front(jobs, FrontId(entries))
  {
    InSyncCount(entries, jobs);
    if entries != [] {
      PlaceInQueue(entries, jobs, 0);
      forall id | id in WaitingIds(jobs) && id != entries[0].job ensures Sooner(jobs[entries[0].job], jobs[id]) {
        var i := FoundInQueue(entries, jobs, id);
        SoonerIsBefore(entries, jobs, 0, i);
      }
    }
  }

  /** What can stop the write of a started job. */
  function WriteError(config: StoreConfig, s: StoreState, fate: Fate): Option<StoreError> {
    if fate == Unavailable then Some(BackendUnavailable)
    else if s.revision == U64_MAX then Some(InvalidMutation)
    else if |s.leases| >= config.maxLeases then Some(StoreError.CapacityExceeded)
    else None
  }

  /** The run picked `id` for the device `uuid`, and this is what became of it. */
  ghost predicate Attempted(config: SchedulerConfig, s: StoreState, entries: seq<QueueEntry>, fate: Fate, r: Run,
                            id: JobId, uuid: Uuid)
    requires id in s.jobs
  {
    var error := WriteError(config.store, s, fate);
    && r.store == (if error == None && fate != CrashBefore then StartedStore(s, id, uuid) else s)
    && (r.alive <==> fate == Answered || fate == Unavailable)
    && (r.alive && error == None ==>
          && r.result.code == Scheduled && r.result.job == Some(id) && r.result.gpu == Some(uuid)
          && r.result.storeError == None && r.result.queueError == None && WaitingInOrder(r.entries, r.store.jobs))
    && (r.alive && error != None ==>
          Idle(s, entries, r, Unseen(StateWriteFailed, Some(id), error, None).(gpu := Some(uuid))))
  }

  lemma WriteAttempted(config: StoreConfig, s: StoreState, id: JobId, uuid: Uuid, fate: Fate)
    requires Consistent(s) && id in s.jobs && s.jobs[id].state == JobState.Queued && ValidUuid(uuid)
    requires uuid !in s.leases
    ensures var w := Write(s, config, StartMutation(s, s.jobs[id], uuid), fate);
      && (w.alive <==> fate == Answered || fate == Unavailable)
      && (w.alive ==> w.code == WriteError(config, s, fate))
      && w.store == if WriteError(config, s, fate) == None && fate != CrashBefore then StartedStore(s, id, uuid) else s
  {
    StartAccepted(s, config, id, uuid);
    assert StartedStore(s, id, uuid) == Started(s, id, uuid);
    FateDecides(s, config, StartMutation(s, s.jobs[id], uuid), fate, WriteError(config, s, Answered),
                StartedStore(s, id, uuid));
  }

  lemma RestInOrder(s: StoreState, entries: seq<QueueEntry>, id: JobId, uuid: Uuid)
    requires InSync(entries, s.jobs) && JobsSound(s.jobs) && id in s.jobs
    ensures WaitingInOrder(Without(entries, id), StartedStore(s, id, uuid).jobs)
  {
    var record := s.jobs[id].(state := JobState.Starting, revision := s.jobs[id].revision + 1);
    assert ConsistentRecord(id, s.jobs[id]);
    RemoveInSync(entries, s.jobs, record);
    InSyncMeans(Without(entries, id), s.jobs[id := record]);
  }

  lemma PlaceAttempted(config: SchedulerConfig, s: StoreState, entries: seq<QueueEntry>, id: JobId, hit: Hit,
                       skipped: seq<Skip>, truncated: bool, fate: Fate)
    requires Consistent(s) && InSync(entries, s.jobs) && |entries| <= config.capacity
    requires id in s.jobs && s.jobs[id].state == JobState.Queued
    requires ValidUuid(hit.device.uuid) && hit.device.uuid !in s.leases
    ensures var r := Place(config, s, entries, s.jobs[id], hit, skipped, truncated, fate);
      && Attempted(config, s, entries, fate, r, id, hit.device.uuid)
      && (r.alive && r.result.code == Scheduled ==>
            r.result.reason == hit.reason && r.result.skipped == skipped && r.result.truncated == truncated)
  {
    assert ConsistentRecord(id, s.jobs[id]);
    GiveBack(entries, s.jobs, config.capacity, id);
    WriteAttempted(config.store, s, id, hit.device.uuid, fate);
    RestInOrder(s, entries, id, hit.device.uuid);
  }

  /** How many jobs the window holds. */
  function WindowSize(jobs: Jobs, window: nat): nat {
    if |WaitingIds(jobs)| <= window then |WaitingIds(jobs)| else window
  }

  /** No job of the window can be served: each is reported with its reason. */
  ghost predicate ServesNone(config: SchedulerConfig, s: StoreState, entries: seq<QueueEntry>,
                             devices: seq<Observation>, r: Run) {
    && (forall id :: !Eligible(s, devices, config.window, id))
    && Idle(s, entries, r, Unseen(NoCandidate, None, None, None).(
                             skipped := r.result.skipped, truncated := r.result.truncated))
    && PassesOver(s, devices, r.result.skipped)
    && |r.result.skipped| == WindowSize(s.jobs, config.window)
    && (r.result.truncated <==> |WaitingIds(s.jobs)| > config.window)
  }

  /** The soonest job that can be served gets its device, and the jobs before it are reported. */
  ghost predicate ServesFirst(config: SchedulerConfig, s: StoreState, entries: seq<QueueEntry>,
                              devices: seq<Observation>, fate: Fate, r: Run, id: JobId, uuid: Uuid,
                              reason: SelectionReason) {
    && FirstEligible(s, devices, config.window, id) && Serves(s, devices, config.window, id, uuid, reason)
    && Attempted(config, s, entries, fate, r, id, uuid)
    && (r.alive && r.result.code == Scheduled ==>
          && r.result.reason == reason && PassesOver(s, devices, r.result.skipped)
          && |r.result.skipped| == |Ahead(s.jobs, id)|
          && (r.result.truncated <==> |WaitingIds(s.jobs)| > config.window))
  }

  ghost predicate ServesOne(config: SchedulerConfig, s: StoreState, entries: seq<QueueEntry>,
                            devices: seq<Observation>, fate: Fate, r: Run) {
    exists id, uuid, reason :: ServesFirst(config, s, entries, devices, fate, r, id, uuid, reason)
  }

  /** The whole run. */
  ghost predicate Policy(config: SchedulerConfig, s: StoreState, entries: seq<QueueEntry>, gpu: GpuSnapshot,
                         loadOk: bool, fate: Fate, r: Run) {
    if !SnapshotOf(gpu) then Idle(s, entries, r, Unseen(InvalidGpuSnapshot, None, None, None))
    else if !loadOk then
      && Front(s.jobs, r.result.job)
      && Idle(s, entries, r, Unseen(StateLoadFailed, r.result.job, Some(BackendUnavailable), None))
    else if WaitingIds(s.jobs) == {} then Idle(s, entries, r, Unseen(QueueEmpty, None, None, None))
    else
      ServesNone(config, s, entries, gpu.devices, r) || ServesOne(config, s, entries, gpu.devices, fate, r)
  }

  lemma EvaluatesNone(config: SchedulerConfig, s: StoreState, entries: seq<QueueEntry>, devices: seq<Observation>,
                      fate: Fate)
    requires Consistent(s) && InSync(entries, s.jobs) && Known(entries, s.jobs, WindowOf(config, entries))
    requires DistinctDevices(devices) && WindowScan(config, s, entries, devices).0.None?
    ensures ServesNone(config, s, entries, devices, Evaluate(config, s, entries, devices, fate))
  {
    WindowScanSpec(config, s, entries, devices);
    NoneMeans(config, s, entries, devices, WindowScan(config, s, entries, devices));
    InSyncCount(entries, s.jobs);
  }

  lemma EvaluatesFirst(config: SchedulerConfig, s: StoreState, entries: seq<QueueEntry>, devices: seq<Observation>,
                       fate: Fate)
    requires Consistent(s) && InSync(entries, s.jobs) && |entries| <= config.capacity
    requires Known(entries, s.jobs, WindowOf(config, entries)) && DistinctDevices(devices)
    requires forall i :: 0 <= i < |devices| ==> ValidUuid(devices[i].uuid)
    requires WindowScan(config, s, entries, devices).0.Some?
    ensures var hit := WindowScan(config, s, entries, devices).0.value;
      ServesFirst(config, s, entries, devices, fate, Evaluate(config, s, entries, devices, fate),
                  entries[hit.index].job, hit.device.uuid, hit.reason)
  {
    var scan := WindowScan(config, s, entries, devices);
    var hit := scan.0.value;
    WindowScanSpec(config, s, entries, devices);
    ScanUsable(config, s, entries, devices);
    FirstMeans(config, s, entries, devices, scan);
    HitServes(config, s, entries, devices, scan);
    PassedMeans(s, entries, devices, hit.index, scan.1);
    PlaceInQueue(entries, s.jobs, hit.index);
    InSyncCount(entries, s.jobs);
    PlaceAttempted(config, s, entries, entries[hit.index].job, hit, scan.1, |entries| > WindowOf(config, entries),
                   fate);
  }

  lemma Evaluates(config: SchedulerConfig, s: StoreState, entries: seq<QueueEntry>, devices: seq<Observation>,
                  fate: Fate)
    requires Consistent(s) && InSync(entries, s.jobs) && |entries| <= config.capacity
    requires Known(entries, s.jobs, WindowOf(config, entries)) && DistinctDevices(devices)
    requires forall i :: 0 <= i < |devices| ==> ValidUuid(devices[i].uuid)
    ensures var r := Evaluate(config, s, entries, devices, fate);
      ServesNone(config, s, entries, devices, r) || ServesOne(config, s, entries, devices, fate, r)
  {
    if WindowScan(config, s, entries, devices).0.None? {
      EvaluatesNone(config, s, entries, devices, fate);
    } else {
      EvaluatesFirst(config, s, entries, devices, fate);
    }
  }

  /** A run that has nothing to look at. */
  lemma StaysIdle(config: SchedulerConfig, s: StoreState, entries: seq<QueueEntry>, gpu: GpuSnapshot, loadOk: bool,
                  fate: Fate)
    requires InSync(entries, s.jobs) && JobsSound(s.jobs)
    requires !ValidSnapshot(gpu) || !loadOk || entries == []
    ensures var r := RunOnce(config, s, entries, gpu, loadOk, fate);
      if !ValidSnapshot(gpu) then Idle(s, entries, r, Unseen(InvalidGpuSnapshot, None, None, None))
      else if !loadOk then
        && Front(s.jobs, r.result.job)
        && Idle(s, entries, r, Unseen(StateLoadFailed, r.result.job, Some(BackendUnavailable), None))
      else Idle(s, entries, r, Unseen(QueueEmpty, None, None, None))
  {
    FrontMeans(entries, s.jobs);
    NoDivergence(entries, s, WindowOf(config, entries));
  }

  /** A run over a queue in step is what the store and the devices say it should be. */
  lemma RunFollowsPolicy(config: SchedulerConfig, s: StoreState, entries: seq<QueueEntry>, gpu: GpuSnapshot,
                         loadOk: bool, fate: Fate)
    requires Consistent(s) && InSync(entries, s.jobs) && |entries| <= config.capacity
    ensures Policy(config, s, entries, gpu, loadOk, fate, RunOnce(config, s, entries, gpu, loadOk, fate))
  {
    InSyncCount(entries, s.jobs);
    SnapshotMeans(gpu);
    if ValidSnapshot(gpu) && loadOk && entries != [] {
      RunOnceCases(config, s, entries, gpu, loadOk, fate);
      Evaluates(config, s, entries, gpu.devices, fate);
    } else {
      StaysIdle(config, s, entries, gpu, loadOk, fate);
    }
  }
}
