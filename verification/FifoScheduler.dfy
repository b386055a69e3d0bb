/** The scheduler object: the loops of a scheduling run over the live queue and store. */
module FifoSchedulers {
  import opened Basics
  import opened Job
  import opened Store
  import opened Queue
  import opened StateStores
  import opened Scheduler
  import opened ScheduleRuns

  method FindEarliestMissing(records: seq<StoredJob>, entries: seq<QueueEntry>) returns (missing: Option<StoredJob>)
    ensures missing == EarliestMissing(records, |records|, entries)
  {
    missing := None;
    for i := 0 to |records|
      invariant missing == EarliestMissing(records, i, entries)
    {
      var record := records[i];
      if record.state.Queued? && !Contains(entries, record.id) {
        if missing.None? || EntryLess(EntryOf(record), EntryOf(missing.value)) {
          missing := Some(record);
        }
      }
    }
  }

  method CheckQueue(entries: seq<QueueEntry>, snapshot: Snapshot, jobs: Jobs, window: nat)
    returns (d: Option<(Option<JobId>, QueueError)>)
    ensures d == Divergence(entries, snapshot, jobs, window)
  {
    var queued := 0;
    for i := 0 to |snapshot.jobs|
      invariant queued + |QueuedFrom(snapshot.jobs, i)| == |QueuedFrom(snapshot.jobs, 0)|
    {
      if snapshot.jobs[i].state.Queued? {
        queued := queued + 1;
      }
    }
    if queued != |entries| {
      var missing := FindEarliestMissing(snapshot.jobs, entries);
      return Some((if missing.Some? then Some(missing.value.id) else FrontId(entries), QueueJobNotFound));
    }
    for i := 0 to |entries|
      invariant EntryDivergence(entries, jobs, window, 0) == EntryDivergence(entries, jobs, window, i)
    {
      var id := entries[i].job;
      if id !in jobs || !jobs[id].state.Queued? {
        return Some((Some(id), QueueJobNotFound));
      }
      if i < window {
        if jobs[id].spec.submitTime != entries[i].submitTime {
          return Some((Some(id), InvalidJobSpec));
        }
        if jobs[id].revision != 0 {
          return Some((Some(id), QueueJobRevision));
        }
      }
    }
    return None;
  }

  method CollectAffinityTargets(entries: seq<QueueEntry>, jobs: Jobs, window: nat) returns (targets: set<Uuid>)
    requires Known(entries, jobs, window)
    ensures targets == AffinityTargets(entries, jobs, window)
  {
    targets := {};
    for i := 0 to window
      invariant forall u :: u in targets <==> u in AffinityTargets(entries, jobs, i)
    {
      var p := jobs[entries[i].job].spec.placement;
      if p.mode.Required? {
        targets := targets + (set u | u in p.devices);
      }
      forall u ensures u in targets <==> u in AffinityTargets(entries, jobs, i + 1) {
        assert u in AffinityTargets(entries, jobs, i + 1) <==>
          u in AffinityTargets(entries, jobs, i) || (p.mode.Required? && u in p.devices);
      }
    }
  }

  method ChooseGpu(devices: seq<Observation>, leases: Leases, anyChoice: (Option<Observation>, SelectionReason),
                   p: GpuPlacement)
    returns (selected: Option<Observation>, reason: SelectionReason)
    ensures (selected, reason) == Choose(devices, leases, anyChoice, p)
  {
    selected, reason := anyChoice.0, anyChoice.1;
    if p.mode.Required? {
      selected := SelectRequiredGpu(devices, leases, p.devices);
      reason := DefaultChoice;
    } else if p.mode.Preferred? {
      var target := if p.devices == [] then None else FindDevice(devices, p.devices[0]);
      if target.Some? && Usable(target.value, leases) {
        selected, reason := target, DefaultChoice;
      } else {
        reason := if selected.Some? then PreferredFallback else DefaultChoice;
      }
    }
  }

  method ExplainSkip(entries: seq<QueueEntry>, jobs: Jobs, leases: Leases, devices: seq<Observation>,
                     k: nat) returns (skip: Skip)
    requires k < |entries| && entries[k].job in jobs
    ensures skip == SkipOf(entries, jobs, leases, devices, k)
  {
    var p := jobs[entries[k].job].spec.placement;
    skip := Skip(entries[k].job, NoFreeGpu, None);
    if p.mode.Required? {
      var wait, target := RequiredWaitReason(devices, leases, p.devices);
      skip := Skip(entries[k].job, wait, target);
    }
  }

  lemma ScanStep(entries: seq<QueueEntry>, jobs: Jobs, leases: Leases, devices: seq<Observation>,
                 anyChoice: (Option<Observation>, SelectionReason), window: nat, i: nat, before: seq<Skip>)
    requires Known(entries, jobs, window) && i < window
    ensures var here := Scan(entries, jobs, leases, devices, anyChoice, window, i);
      var choice := ChoiceAt(entries, jobs, leases, devices, anyChoice, i);
      if choice.0.Some? then here == (Some(Hit(i, choice.0.value, choice.1)), []) && before + here.1 == before
      else
        var rest := Scan(entries, jobs, leases, devices, anyChoice, window, i + 1);
        here.0 == rest.0 && before + here.1 == before + [SkipOf(entries, jobs, leases, devices, i)] + rest.1
  {
    var rest := Scan(entries, jobs, leases, devices, anyChoice, window, i + 1);
    var skip := SkipOf(entries, jobs, leases, devices, i);
    assert before + ([skip] + rest.1) == before + [skip] + rest.1;
  }

  method ScanWindow(entries: seq<QueueEntry>, jobs: Jobs, leases: Leases, devices: seq<Observation>,
                    anyChoice: (Option<Observation>, SelectionReason), window: nat)
    returns (hit: Option<Hit>, skipped: seq<Skip>)
    requires Known(entries, jobs, window)
    ensures (hit, skipped) == Scan(entries, jobs, leases, devices, anyChoice, window, 0)
  {
    skipped := [];
    ghost var all := Scan(entries, jobs, leases, devices, anyChoice, window, 0);
    assert [] + all.1 == all.1;
    for i := 0 to window
      invariant var rest := Scan(entries, jobs, leases, devices, anyChoice, window, i);
        all == (rest.0, skipped + rest.1)
    {
      ScanStep(entries, jobs, leases, devices, anyChoice, window, i, skipped);
      var selected, reason := ChooseGpu(devices, leases, anyChoice, jobs[entries[i].job].spec.placement);
      if selected.Some? {
        return Some(Hit(i, selected.value, reason)), skipped;
      }
      var skip := ExplainSkip(entries, jobs, leases, devices, i);
      skipped := skipped + [skip];
    }
    assert skipped + [] == skipped;
    hit := None;
  }

  class FifoScheduler {
    const queue: GlobalJobQueue
    const store: StateStore
    const window: nat

    constructor (queue: GlobalJobQueue, store: StateStore, window: nat)
      ensures this.queue == queue && this.store == store && this.window == window
    {
      this.queue, this.store, this.window := queue, store, window;
    }

    function Config(): SchedulerConfig {
      SchedulerConfig(store.config, queue.capacity, window)
    }

    /** Takes `hit` off the queue, writes it as STARTING, and gives it back if the write fails. */
    method PlaceHit(s: StoreState, record: StoredJob, hit: Hit, skipped: seq<Skip>, truncated: bool, fate: Fate)
      returns (result: ScheduleResult, alive: bool)
      requires s == store.state
      modifies queue, store
      ensures Run(store.state, queue.entries, result, alive) ==
        Place(Config(), old(store.state), old(queue.entries), record, hit, skipped, truncated, fate)
    {
      var uuid := hit.device.uuid;
      var removal := queue.RemoveJob(record.id);
      if removal.Some? {
        return Plain(QueueStateDiverged, Some(record.id), None, removal).(gpu := Some(uuid)), true;
      }
      var code;
      code, alive := store.Apply(StartMutation(s, record, uuid), fate);
      if !alive {
        return Plain(StateWriteFailed, Some(record.id), None, None), false;
      }
      if code.Some? {
        var rollback := queue.AdmitRecord(record);
        return Plain(if rollback.Some? then QueueRollbackFailed else StateWriteFailed, Some(record.id), code, rollback)
          .(gpu := Some(uuid)), true;
      }
      return ScheduleResult(Scheduled, Some(record.id), Some(uuid), hit.reason, None, None, skipped, truncated), true;
    }

    method RunOnce(gpu: GpuSnapshot, loadOk: bool, fate: Fate) returns (result: ScheduleResult, alive: bool)
      modifies queue, store
      ensures Run(store.state, queue.entries, result, alive) ==
        ScheduleRuns.RunOnce(Config(), old(store.state), old(queue.entries), gpu, loadOk, fate)
    {
      var entries, s := queue.entries, store.state;
      if !ValidSnapshot(gpu) {
        return Plain(InvalidGpuSnapshot, None, None, None), true;
      }
      if !loadOk {
        return Plain(StateLoadFailed, FrontId(entries), Some(BackendUnavailable), None), true;
      }
      var size := WindowOf(Config(), entries);
      var diverged := CheckQueue(entries, Load(s), s.jobs, size);
      if diverged.Some? {
        return Plain(QueueStateDiverged, diverged.value.0, None, Some(diverged.value.1)), true;
      }
      if entries == [] {
        return Plain(QueueEmpty, None, None, None), true;
      }
      var targets := CollectAffinityTargets(entries, s.jobs, size);
      var any, reason := SelectAnyGpu(gpu.devices, s.leases, targets);
      var hit, skipped := ScanWindow(entries, s.jobs, s.leases, gpu.devices, (any, reason), size);
      if hit.None? {
        return Plain(NoCandidate, None, None, None).(skipped := skipped, truncated := |entries| > size), true;
      }
      result, alive := PlaceHit(s, s.jobs[entries[hit.value.index].job], hit.value, skipped, |entries| > size, fate);
    }
  }
}
