/** What a scheduling run says of a queue that is not the store's: the cross-check told from the jobs and the
    entries alone (scheduler.cpp). */
module QueueDivergence {
  import opened Basics
  import opened Job
  import opened Store
  import opened Queue
  import opened StateStores
  import opened Scheduler
  import opened ScheduleRuns
  import opened SchedulePolicy

  /** The waiting jobs that the queue does not hold. */
  function Missing(entries: seq<QueueEntry>, jobs: Jobs): set<JobId> {
    set id | id in WaitingIds(jobs) && !exists i :: 0 <= i < |entries| && entries[i].job == id
  }

  /** The entry is that of a waiting job, with its submission time if it is inside the window. */
  predicate Stands(entries: seq<QueueEntry>, jobs: Jobs, window: nat, i: nat)
    requires i < |entries|
  {
    var id := entries[i].job;
    id in WaitingIds(jobs) && (i < window ==> entries[i].submitTime == jobs[id].spec.submitTime)
  }

  /** What the cross-check says: by number first, then by the first entry that does not stand. */
  ghost predicate Diverged(entries: seq<QueueEntry>, jobs: Jobs, window: nat, d: Option<(Option<JobId>, QueueError)>) {
    if |entries| != |WaitingIds(jobs)| then
      && d != None && d.value.1 == QueueJobNotFound
      && (if Missing(entries, jobs) == {} then d.value.0 == if entries == [] then None else Some(entries[0].job)
          else
            && d.value.0 != None && d.value.0.value in Missing(entries, jobs)
            && forall id :: id in Missing(entries, jobs) && id != d.value.0.value ==>
                 Sooner(jobs[d.value.0.value], jobs[id]))
    else
      && (d == None ==> forall i :: 0 <= i < |entries| ==> Stands(entries, jobs, window, i))
      && (d != None ==> exists i :: FirstToFall(entries, jobs, window, i, d.value))
  }

  predicate FirstToFall(entries: seq<QueueEntry>, jobs: Jobs, window: nat, i: int, d: (Option<JobId>, QueueError)) {
    && 0 <= i < |entries| && !Stands(entries, jobs, window, i) && d.0 == Some(entries[i].job)
    && d.1 == (if entries[i].job in WaitingIds(jobs) then InvalidJobSpec else QueueJobNotFound)
    && forall k :: 0 <= k < i ==> Stands(entries, jobs, window, k)
  }

  /** The soonest of the first `n` records that wait and are missing. */
  predicate EarliestOf(records: seq<StoredJob>, n: nat, entries: seq<QueueEntry>, best: Option<StoredJob>)
    requires n <= |records|
  {
    && (best == None ==> forall k :: 0 <= k < n ==> !Lacks(records[k], entries))
    && (best != None ==>
          && (exists k :: 0 <= k < n && records[k] == best.value) && Lacks(best.value, entries)
          && forall k :: 0 <= k < n && Lacks(records[k], entries) && records[k].id != best.value.id ==>
               Sooner(best.value, records[k]))
  }

  predicate Lacks(record: StoredJob, entries: seq<QueueEntry>) {
    record.state == JobState.Queued && !exists i :: 0 <= i < |entries| && entries[i].job == record.id
  }

  lemma {:induction false} EarliestMeans(records: seq<StoredJob>, n: nat, entries: seq<QueueEntry>)
    requires n <= |records| && forall i, j :: 0 <= i < j < |records| ==> records[i].id < records[j].id
    ensures EarliestOf(records, n, entries, EarliestMissing(records, n, entries))
  {
    if n > 0 {
      EarliestMeans(records, n - 1, entries);
      assert Contains(entries, records[n - 1].id) <==>
        exists i :: 0 <= i < |entries| && entries[i].job == records[n - 1].id;
    }
  }

  lemma {:induction false} EntryDivergenceMeans(entries: seq<QueueEntry>, jobs: Jobs, window: nat, i: nat)
    requires JobsSound(jobs) && i <= |entries| && forall k :: 0 <= k < i ==> Stands(entries, jobs, window, k)
    ensures var d := EntryDivergence(entries, jobs, window, i);
      && (d == None ==> forall k :: 0 <= k < |entries| ==> Stands(entries, jobs, window, k))
      && (d != None ==> exists k :: FirstToFall(entries, jobs, window, k, (Some(d.value.0), d.value.1)))
    decreases |entries| - i
  {
    if i < |entries| {
      var id := entries[i].job;
      if id in jobs {
        assert ConsistentRecord(id, jobs[id]);
      }
      if Stands(entries, jobs, window, i) {
        EntryDivergenceMeans(entries, jobs, window, i + 1);
      } else {
        var d := EntryDivergence(entries, jobs, window, i);
        assert FirstToFall(entries, jobs, window, i, (Some(d.value.0), d.value.1));
      }
    }
  }

  lemma WaitingCount(s: StoreState)
    requires JobsSound(s.jobs)
    ensures |QueuedFrom(Load(s).jobs, 0)| == |WaitingIds(s.jobs)|
  {
    LoadLists(s);
    SortedView(Load(s).jobs, s.jobs);
    SortEntriesLength(QueuedFrom(Load(s).jobs, 0));
    InSyncCount(QueueView(Load(s)), s.jobs);
  }

  lemma Listed(records: seq<StoredJob>, jobs: Jobs, id: JobId) returns (k: int)
    requires JobsSound(jobs) && Lists(records, jobs) && id in jobs
    ensures 0 <= k < |records| && records[k] == jobs[id] && records[k].id == id
  {
    assert ConsistentRecord(id, jobs[id]);
    k :| 0 <= k < |records| && records[k] == jobs[id];
  }

  lemma MissingNone(entries: seq<QueueEntry>, records: seq<StoredJob>, jobs: Jobs)
    requires JobsSound(jobs) && Lists(records, jobs) && EarliestOf(records, |records|, entries, None)
    ensures Missing(entries, jobs) == {}
  {
    forall id | id in jobs ensures id !in Missing(entries, jobs) {
      var k := Listed(records, jobs, id);
      assert !Lacks(records[k], entries);
    }
    assert forall id :: id in Missing(entries, jobs) ==> id in jobs;
  }

  lemma MissingBest(entries: seq<QueueEntry>, records: seq<StoredJob>, jobs: Jobs, best: StoredJob)
    requires JobsSound(jobs) && Lists(records, jobs) && EarliestOf(records, |records|, entries, Some(best))
    ensures best.id in jobs && jobs[best.id] == best && best.id in Missing(entries, jobs)
    ensures forall id :: id in Missing(entries, jobs) && id != best.id ==> Sooner(best, jobs[id])
  {
    forall id | id in Missing(entries, jobs) && id != best.id ensures Sooner(best, jobs[id]) {
      var k := Listed(records, jobs, id);
      assert Lacks(records[k], entries);
    }
  }

  lemma NumbersDiffer(entries: seq<QueueEntry>, s: StoreState, window: nat)
    requires JobsSound(s.jobs) && |entries| != |WaitingIds(s.jobs)|
    ensures Diverged(entries, s.jobs, window, Divergence(entries, Load(s), s.jobs, window))
  {
    WaitingCount(s);
    LoadLists(s);
    var records := Load(s).jobs;
    EarliestMeans(records, |records|, entries);
    var best := EarliestMissing(records, |records|, entries);
    if best == None {
      MissingNone(entries, records, s.jobs);
    } else {
      MissingBest(entries, records, s.jobs, best.value);
    }
  }

  /** The cross-check of any queue with any sound store. */
  lemma DivergenceMeans(entries: seq<QueueEntry>, s: StoreState, window: nat)
    requires JobsSound(s.jobs)
    ensures Diverged(entries, s.jobs, window, Divergence(entries, Load(s), s.jobs, window))
  {
    if |entries| != |WaitingIds(s.jobs)| {
      NumbersDiffer(entries, s, window);
    } else {
      WaitingCount(s);
      EntryDivergenceMeans(entries, s.jobs, window, 0);
    }
  }

  /** The cross-check compares as far as the window and the queue go. */
  lemma SameWindow(config: SchedulerConfig, entries: seq<QueueEntry>, jobs: Jobs,
                   d: Option<(Option<JobId>, QueueError)>)
    requires Diverged(entries, jobs, WindowOf(config, entries), d)
    ensures Diverged(entries, jobs, config.window, d)
  {
    var window := WindowOf(config, entries);
    assert forall i :: 0 <= i < |entries| ==>
      (Stands(entries, jobs, window, i) <==> Stands(entries, jobs, config.window, i));
    if |entries| == |WaitingIds(jobs)| && d != None {
      var i :| FirstToFall(entries, jobs, window, i, d.value);
      assert FirstToFall(entries, jobs, config.window, i, d.value);
    }
  }

  /** A run over a queue that is not the store's stops at the cross-check, names a job and touches nothing. */
  lemma RunDiverges(config: SchedulerConfig, s: StoreState, entries: seq<QueueEntry>, gpu: GpuSnapshot, fate: Fate)
    returns (d: Option<(Option<JobId>, QueueError)>)
    requires JobsSound(s.jobs) && SnapshotOf(gpu)
    ensures Diverged(entries, s.jobs, config.window, d)
    ensures d != None ==>
      Idle(s, entries, RunOnce(config, s, entries, gpu, true, fate),
           Unseen(QueueStateDiverged, d.value.0, None, Some(d.value.1)))
  {
    SnapshotMeans(gpu);
    d := Divergence(entries, Load(s), s.jobs, WindowOf(config, entries));
    DivergenceMeans(entries, s, WindowOf(config, entries));
    SameWindow(config, entries, s.jobs, d);
  }
}
