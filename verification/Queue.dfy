/** The derived FIFO index of QUEUED jobs (job_queue.hpp, job_queue.cpp). */
module Queue {
  import opened Basics
  import opened Job
  import opened Store

  datatype QueueEntry = QueueEntry(job: JobId, submitTime: Time)

  datatype QueueError =
    | InvalidSnapshotRevision | InvalidJobId | InvalidJobSpec | QueueJobRevision
    | JobNotQueued | DuplicateJob | QueueCapacityExceeded | QueueJobNotFound

  predicate EntryLess(a: QueueEntry, b: QueueEntry) {
    if a.submitTime != b.submitTime then a.submitTime < b.submitTime else a.job < b.job
  }

  /** The order of the queue: by submission time, then by id, with no job twice. */
  predicate Sorted(entries: seq<QueueEntry>) {
    forall i, j :: 0 <= i < j < |entries| ==> EntryLess(entries[i], entries[j])
  }

  function EntryOf(record: StoredJob): QueueEntry {
    QueueEntry(record.id, record.spec.submitTime)
  }

  predicate Waiting(jobs: Jobs, e: QueueEntry) {
    e.job in jobs && jobs[e.job].state.Queued? && e.submitTime == jobs[e.job].spec.submitTime
  }

  /** The queue is exactly the QUEUED records of the store, in order. */
  ghost predicate InSync(entries: seq<QueueEntry>, jobs: Jobs) {
    Sorted(entries) && forall e :: e in entries <==> Waiting(jobs, e)
  }

  predicate Contains(entries: seq<QueueEntry>, id: JobId) {
    exists i :: 0 <= i < |entries| && entries[i].job == id
  }

  /** `std::lower_bound`: the first position whose entry is not before `e`. */
  function LowerBound(entries: seq<QueueEntry>, e: QueueEntry): (k: nat)
    ensures k <= |entries|
    ensures forall i :: 0 <= i < k ==> EntryLess(entries[i], e)
    ensures k < |entries| ==> !EntryLess(entries[k], e)
  {
    if entries == [] || !EntryLess(entries[0], e) then 0 else 1 + LowerBound(entries[1..], e)
  }

  lemma {:induction false} BoundIsOnly(entries: seq<QueueEntry>, e: QueueEntry, k: nat)
    requires k <= |entries| && forall i :: 0 <= i < k ==> EntryLess(entries[i], e)
    requires k < |entries| ==> !EntryLess(entries[k], e)
    ensures k == LowerBound(entries, e)
  {
    if k > 0 {
      BoundIsOnly(entries[1..], e, k - 1);
    }
  }

  /** Bisection finds the same position in a queue that is in order. */
  method Bisect(entries: seq<QueueEntry>, e: QueueEntry) returns (k: nat)
    requires Sorted(entries)
    ensures k == LowerBound(entries, e)
  {
    var low, high := 0, |entries|;
    while low < high
      invariant 0 <= low <= high <= |entries|
      invariant forall i :: 0 <= i < low ==> EntryLess(entries[i], e)
      invariant forall i :: high <= i < |entries| ==> !EntryLess(entries[i], e)
    {
      var middle := (low + high) / 2;
      if EntryLess(entries[middle], e) {
        low := middle + 1;
      } else {
        high := middle;
      }
    }
    BoundIsOnly(entries, e, low);
    return low;
  }

  function Insert(entries: seq<QueueEntry>, e: QueueEntry): seq<QueueEntry> {
    var k := LowerBound(entries, e);
    entries[..k] + [e] + entries[k..]
  }

  /** The position of the first entry for `id`, or the length when there is none. */
  function Position(entries: seq<QueueEntry>, id: JobId): (k: nat)
    ensures k <= |entries|
    ensures forall i :: 0 <= i < k ==> entries[i].job != id
    ensures k < |entries| ==> entries[k].job == id
  {
    if entries == [] || entries[0].job == id then 0 else 1 + Position(entries[1..], id)
  }

  function Without(entries: seq<QueueEntry>, id: JobId): seq<QueueEntry> {
    var k := Position(entries, id);
    if k == |entries| then entries else entries[..k] + entries[k + 1..]
  }

  function SortEntries(entries: seq<QueueEntry>): seq<QueueEntry> {
    if entries == [] then [] else Insert(SortEntries(entries[1..]), entries[0])
  }

  function AdmitError(entries: seq<QueueEntry>, capacity: nat, record: StoredJob): Option<QueueError> {
    if !ValidId(record.id) then Some(InvalidJobId)
    else if !ValidSpec(record.spec) then Some(InvalidJobSpec)
    else if !record.state.Queued? then Some(JobNotQueued)
    else if record.revision != 0 then Some(QueueJobRevision)
    else if Contains(entries, record.id) then Some(DuplicateJob)
    else if |entries| >= capacity then Some(QueueCapacityExceeded)
    else None
  }

  function Admit(entries: seq<QueueEntry>, capacity: nat, record: StoredJob): seq<QueueEntry> {
    if AdmitError(entries, capacity, record).Some? then entries else Insert(entries, EntryOf(record))
  }

  function RemoveError(entries: seq<QueueEntry>, id: JobId): Option<QueueError> {
    if !ValidId(id) then Some(InvalidJobId)
    else if !Contains(entries, id) then Some(QueueJobNotFound)
    else None
  }

  function Remove(entries: seq<QueueEntry>, id: JobId): seq<QueueEntry> {
    if RemoveError(entries, id).Some? then entries else Without(entries, id)
  }

  /** Why the `i`-th record of a snapshot makes the whole snapshot unusable, if it does. */
  function SnapshotError(records: seq<StoredJob>, i: nat): Option<QueueError>
    requires i < |records|
  {
    var record := records[i];
    if !ValidId(record.id) then Some(InvalidJobId)
    else if !ValidSpec(record.spec) then Some(InvalidJobSpec)
    else if record.state.Queued? != (record.revision == 0) then Some(QueueJobRevision)
    else if exists k :: 0 <= k < i && records[k].id == record.id then Some(DuplicateJob)
    else None
  }

  /** The QUEUED entries of `records[i..]` after those already found. */
  function Collect(records: seq<StoredJob>, i: nat, found: seq<QueueEntry>, capacity: nat)
    : Result<seq<QueueEntry>, QueueError>
    requires i <= |records|
    decreases |records| - i
  {
    if i == |records| then Ok(found)
    else if SnapshotError(records, i).Some? then Err(SnapshotError(records, i).value)
    else if !records[i].state.Queued? then Collect(records, i + 1, found, capacity)
    else if |found| >= capacity then Err(QueueCapacityExceeded)
    else Collect(records, i + 1, found + [EntryOf(records[i])], capacity)
  }

  function Restore(snapshot: Snapshot, capacity: nat): Result<seq<QueueEntry>, QueueError> {
    if snapshot.revision == 0 && (snapshot.jobs != [] || snapshot.leases != map[]) then Err(InvalidSnapshotRevision)
    else match Collect(snapshot.jobs, 0, [], capacity)
      case Err(e) => Err(e)
      case Ok(found) => Ok(SortEntries(found))
  }

  // ---- Order ----

  lemma SplicedIn(a: seq<QueueEntry>, k: nat, e: QueueEntry, r: seq<QueueEntry>)
    requires Sorted(a) && k <= |a| && r == a[..k] + [e] + a[k..]
    requires forall i :: 0 <= i < k ==> EntryLess(a[i], e)
    requires forall i :: k <= i < |a| ==> EntryLess(e, a[i])
    ensures Sorted(r)
  {
    forall i, j | 0 <= i < j < |r| ensures EntryLess(r[i], r[j]) {
      assert r[i] == if i < k then a[i] else if i == k then e else a[i - 1];
      assert r[j] == if j < k then a[j] else if j == k then e else a[j - 1];
    }
  }

  lemma AfterBound(entries: seq<QueueEntry>, e: QueueEntry)
    requires Sorted(entries) && e !in entries
    ensures var k := LowerBound(entries, e);
      (forall i :: 0 <= i < k ==> EntryLess(entries[i], e))
        && (forall i :: k <= i < |entries| ==> EntryLess(e, entries[i]))
  {
    var k := LowerBound(entries, e);
    forall i | k <= i < |entries| ensures EntryLess(e, entries[i]) {
      assert entries[k] in entries && entries[k] != e;
      assert i == k || EntryLess(entries[k], entries[i]);
    }
  }

  lemma SplicedMembers(a: seq<QueueEntry>, k: nat, e: QueueEntry, r: seq<QueueEntry>)
    requires k <= |a| && r == a[..k] + [e] + a[k..]
    ensures forall x :: x in r <==> x == e || x in a
  {
    assert a == a[..k] + a[k..];
  }

  lemma InsertKeeps(entries: seq<QueueEntry>, e: QueueEntry)
    requires Sorted(entries) && e !in entries
    ensures Sorted(Insert(entries, e))
    ensures forall x :: x in Insert(entries, e) <==> x == e || x in entries
  {
    var k := LowerBound(entries, e);
    AfterBound(entries, e);
    SplicedIn(entries, k, e, Insert(entries, e));
    SplicedMembers(entries, k, e, Insert(entries, e));
  }

  lemma SplicedOut(a: seq<QueueEntry>, k: nat, r: seq<QueueEntry>)
    requires Sorted(a) && k < |a| && r == a[..k] + a[k + 1..]
    ensures Sorted(r)
  {
    forall i, j | 0 <= i < j < |r| ensures EntryLess(r[i], r[j]) {
      assert r[i] == a[if i < k then i else i + 1];
      assert r[j] == a[if j < k then j else j + 1];
    }
  }

  lemma SplitMembers(a: seq<QueueEntry>, k: nat, x: QueueEntry)
    requires k < |a|
    ensures x in a <==> x in a[..k] || x == a[k] || x in a[k + 1..]
  {
    assert a == a[..k] + [a[k]] + a[k + 1..];
  }

  lemma WithoutMember(a: seq<QueueEntry>, k: nat, r: seq<QueueEntry>, x: QueueEntry)
    requires k < |a| && r == a[..k] + a[k + 1..]
    requires forall i, j :: 0 <= i < j < |a| ==> a[i].job != a[j].job
    ensures x in r <==> x in a && x.job != a[k].job
  {
    SplitMembers(a, k, x);
    var head, tail := a[..k], a[k + 1..];
    assert forall i :: 0 <= i < |head| ==> head[i] == a[i];
    assert forall i :: 0 <= i < |tail| ==> tail[i] == a[k + 1 + i];
  }

  lemma WithoutKeeps(entries: seq<QueueEntry>, id: JobId)
    requires Sorted(entries)
    requires forall i, j :: 0 <= i < j < |entries| ==> entries[i].job != entries[j].job
    ensures Sorted(Without(entries, id))
    ensures forall x :: x in Without(entries, id) <==> x in entries && x.job != id
  {
    var k := Position(entries, id);
    if k < |entries| {
      SplicedOut(entries, k, Without(entries, id));
      forall x ensures x in Without(entries, id) <==> x in entries && x.job != id {
        WithoutMember(entries, k, Without(entries, id), x);
      }
    }
  }

  /** A sorted queue is determined by its members. */
  lemma {:induction false} SortedUnique(a: seq<QueueEntry>, b: seq<QueueEntry>)
    requires Sorted(a) && Sorted(b)
    requires forall x :: x in a <==> x in b
    ensures a == b
  {
    if b != [] {
      assert b[0] in b;
    }
    if a != [] {
      assert a[0] in a;
      var k :| 0 <= k < |b| && b[k] == a[0];
      var m :| 0 <= m < |a| && a[m] == b[0];
      assert k == 0 && m == 0;
      forall x ensures x in a[1..] <==> x in b[1..] {
        TailMember(a, x);
        TailMember(b, x);
      }
      SortedUnique(a[1..], b[1..]);
    }
  }

  lemma TailMember(a: seq<QueueEntry>, x: QueueEntry)
    requires a != [] && Sorted(a)
    ensures x in a[1..] <==> x in a && x != a[0]
  {
    if x in a && x != a[0] {
      var k :| 0 <= k < |a| && a[k] == x;
      assert a[1..][k - 1] == x;
    }
  }

  lemma {:induction false} SortEntriesKeeps(entries: seq<QueueEntry>)
    requires forall i, j :: 0 <= i < j < |entries| ==> entries[i] != entries[j]
    ensures Sorted(SortEntries(entries))
    ensures forall x :: x in SortEntries(entries) <==> x in entries
  {
    if entries != [] {
      SortEntriesKeeps(entries[1..]);
      assert entries[0] !in entries[1..];
      InsertKeeps(SortEntries(entries[1..]), entries[0]);
      assert entries == [entries[0]] + entries[1..];
    }
  }

  // ---- The queue beside the store ----

  lemma InSyncOnce(entries: seq<QueueEntry>, jobs: Jobs)
    requires InSync(entries, jobs)
    ensures forall i, j :: 0 <= i < j < |entries| ==> entries[i].job != entries[j].job
    ensures forall id :: Contains(entries, id) <==> id in jobs && jobs[id].state.Queued?
  {
    forall i, j | 0 <= i < j < |entries| ensures entries[i].job != entries[j].job {
      assert entries[i] in entries && entries[j] in entries;
    }
    forall id ensures Contains(entries, id) <==> id in jobs && jobs[id].state.Queued? {
      if Contains(entries, id) {
        var i :| 0 <= i < |entries| && entries[i].job == id;
        assert entries[i] in entries;
      }
      if id in jobs && jobs[id].state.Queued? {
        assert QueueEntry(id, jobs[id].spec.submitTime) in entries;
      }
    }
  }

  /** Admitting a freshly created record keeps the queue equal to the store. */
  lemma AdmitInSync(entries: seq<QueueEntry>, jobs: Jobs, record: StoredJob)
    requires InSync(entries, jobs)
    requires record.id !in jobs && record.state.Queued?
    ensures InSync(Insert(entries, EntryOf(record)), jobs[record.id := record])
  {
    InsertKeeps(entries, EntryOf(record));
  }

  /** Taking a job out of the queue matches any update that takes it out of QUEUED. */
  lemma RemoveInSync(entries: seq<QueueEntry>, jobs: Jobs, record: StoredJob)
    requires InSync(entries, jobs)
    requires record.id in jobs && !record.state.Queued?
    ensures InSync(Without(entries, record.id), jobs[record.id := record])
  {
    InSyncOnce(entries, jobs);
    WithoutKeeps(entries, record.id);
  }

  /** An update of a job that is not QUEUED does not concern the queue. */
  lemma OtherInSync(entries: seq<QueueEntry>, jobs: Jobs, record: StoredJob)
    requires InSync(entries, jobs)
    requires record.id in jobs && !jobs[record.id].state.Queued? && !record.state.Queued?
    ensures InSync(entries, jobs[record.id := record])
  {
  }

  /** Removing a waiting job and admitting it again gives back the exact sequence. */
  lemma RemoveThenAdmit(entries: seq<QueueEntry>, jobs: Jobs, id: JobId)
    requires InSync(entries, jobs)
    requires id in jobs && jobs[id].state.Queued? && jobs[id].id == id
    ensures Insert(Without(entries, id), EntryOf(jobs[id])) == entries
  {
    InSyncOnce(entries, jobs);
    WithoutKeeps(entries, id);
    InsertKeeps(Without(entries, id), EntryOf(jobs[id]));
    SortedUnique(Insert(Without(entries, id), EntryOf(jobs[id])), entries);
  }

  // ---- Rebuilding the queue from a snapshot ----

  /** The QUEUED entries of `records[i..]`, in the order of the records. */
  function QueuedFrom(records: seq<StoredJob>, i: nat): seq<QueueEntry>
    requires i <= |records|
    decreases |records| - i
  {
    if i == |records| then []
    else if records[i].state.Queued? then [EntryOf(records[i])] + QueuedFrom(records, i + 1)
    else QueuedFrom(records, i + 1)
  }

  lemma SnapshotSound(records: seq<StoredJob>, jobs: Jobs, i: nat)
    requires Lists(records, jobs) && JobsSound(jobs) && i < |records|
    ensures SnapshotError(records, i).None?
  {
    assert ConsistentRecord(records[i].id, records[i]);
  }

  lemma CollectStep(records: seq<StoredJob>, i: nat, found: seq<QueueEntry>, capacity: nat)
    requires i < |records| && SnapshotError(records, i).None?
    ensures Collect(records, i, found, capacity) ==
      if !records[i].state.Queued? then Collect(records, i + 1, found, capacity)
      else if |found| >= capacity then Err(QueueCapacityExceeded)
      else Collect(records, i + 1, found + [EntryOf(records[i])], capacity)
  {
  }

  lemma TakenNext(records: seq<StoredJob>, i: nat, found: seq<QueueEntry>)
    requires i < |records| && records[i].state.Queued?
    ensures found + QueuedFrom(records, i) == found + [EntryOf(records[i])] + QueuedFrom(records, i + 1)
    ensures |QueuedFrom(records, i)| == |QueuedFrom(records, i + 1)| + 1
  {
  }

  lemma {:induction false} CollectFrom(records: seq<StoredJob>, jobs: Jobs, i: nat, found: seq<QueueEntry>,
                                       capacity: nat)
    requires Lists(records, jobs) && JobsSound(jobs)
    requires i <= |records| && |found| <= capacity
    ensures Collect(records, i, found, capacity) ==
      if |found| + |QueuedFrom(records, i)| <= capacity then Ok(found + QueuedFrom(records, i))
      else Err(QueueCapacityExceeded)
    decreases |records| - i
  {
    if i == |records| {
      assert found + [] == found;
    } else {
      SnapshotSound(records, jobs, i);
      CollectStep(records, i, found, capacity);
      if !records[i].state.Queued? {
        CollectFrom(records, jobs, i + 1, found, capacity);
      } else if |found| < capacity {
        CollectFrom(records, jobs, i + 1, found + [EntryOf(records[i])], capacity);
        TakenNext(records, i, found);
      }
    }
  }

  lemma {:induction false} QueuedMembers(records: seq<StoredJob>, jobs: Jobs, i: nat)
    requires Lists(records, jobs) && i <= |records|
    ensures forall x :: x in QueuedFrom(records, i) <==>
      exists k :: i <= k < |records| && records[k].state.Queued? && x == EntryOf(records[k])
    ensures forall p, q :: 0 <= p < q < |QueuedFrom(records, i)| ==>
      QueuedFrom(records, i)[p].job < QueuedFrom(records, i)[q].job
    decreases |records| - i
  {
    if i < |records| {
      QueuedMembers(records, jobs, i + 1);
      var rest := QueuedFrom(records, i + 1);
      forall q | 0 <= q < |rest| ensures records[i].id < rest[q].job {
        assert rest[q] in rest;
      }
    }
  }

  lemma {:induction false} SortEntriesLength(entries: seq<QueueEntry>)
    ensures |SortEntries(entries)| == |entries|
  {
    if entries != [] {
      SortEntriesLength(entries[1..]);
    }
  }

  /** The list that `handle_queue` sends to clients: the QUEUED records of a snapshot, sorted. */
  function QueueView(snapshot: Snapshot): seq<QueueEntry> {
    SortEntries(QueuedFrom(snapshot.jobs, 0))
  }

  lemma SortedView(records: seq<StoredJob>, jobs: Jobs)
    requires JobsSound(jobs) && Lists(records, jobs)
    ensures InSync(SortEntries(QueuedFrom(records, 0)), jobs)
  {
    QueuedMembers(records, jobs, 0);
    SortEntriesKeeps(QueuedFrom(records, 0));
    forall e | Waiting(jobs, e) ensures e in QueuedFrom(records, 0) {
      var k :| 0 <= k < |records| && records[k] == jobs[e.job];
      assert ConsistentRecord(e.job, jobs[e.job]);
      assert e == EntryOf(records[k]);
    }
  }

  lemma RestoreListed(snapshot: Snapshot, jobs: Jobs, capacity: nat)
    requires JobsSound(jobs) && Lists(snapshot.jobs, jobs)
    requires snapshot.revision == 0 ==> snapshot.jobs == [] && snapshot.leases == map[]
    ensures Restore(snapshot, capacity) ==
      if |QueuedFrom(snapshot.jobs, 0)| <= capacity then Ok(QueueView(snapshot)) else Err(QueueCapacityExceeded)
  {
    CollectFrom(snapshot.jobs, jobs, 0, [], capacity);
    assert [] + QueuedFrom(snapshot.jobs, 0) == QueuedFrom(snapshot.jobs, 0);
  }

  /** `entries` are the waiting jobs of the store, by submission time and then by id. */
  ghost predicate WaitingInOrder(entries: seq<QueueEntry>, jobs: Jobs) {
    && (forall i, j :: 0 <= i < j < |entries| ==>
          entries[i].submitTime < entries[j].submitTime
          || (entries[i].submitTime == entries[j].submitTime && entries[i].job < entries[j].job))
    && (forall id, time :: QueueEntry(id, time) in entries <==>
          id in jobs && jobs[id].state == JobState.Queued && jobs[id].spec.submitTime == time)
  }

  lemma InSyncMeans(entries: seq<QueueEntry>, jobs: Jobs)
    requires InSync(entries, jobs)
    ensures WaitingInOrder(entries, jobs)
  {
    forall i, j | 0 <= i < j < |entries|
      ensures entries[i].submitTime < entries[j].submitTime
        || (entries[i].submitTime == entries[j].submitTime && entries[i].job < entries[j].job)
    {
      assert EntryLess(entries[i], entries[j]);
    }
    forall id, time ensures QueueEntry(id, time) in entries <==>
      id in jobs && jobs[id].state == JobState.Queued && jobs[id].spec.submitTime == time
    {
      assert QueueEntry(id, time) in entries <==> Waiting(jobs, QueueEntry(id, time));
    }
  }

  /** The waiting jobs. */
  function WaitingIds(jobs: Jobs): set<JobId> {
    set id | id in jobs && jobs[id].state == JobState.Queued
  }

  lemma {:induction false} DistinctJobs(entries: seq<QueueEntry>)
    requires forall i, j :: 0 <= i < j < |entries| ==> entries[i].job != entries[j].job
    ensures |set i | 0 <= i < |entries| :: entries[i].job| == |entries|
  {
    if entries != [] {
      var n := |entries| - 1;
      DistinctJobs(entries[..n]);
      var before := set i | 0 <= i < n :: entries[..n][i].job;
      assert (set i | 0 <= i < |entries| :: entries[i].job) == before + {entries[n].job};
      assert entries[n].job !in before;
    }
  }

  /** A queue in step has one entry for each waiting job. */
  lemma InSyncCount(entries: seq<QueueEntry>, jobs: Jobs)
    requires InSync(entries, jobs)
    ensures |entries| == |WaitingIds(jobs)|
  {
    InSyncOnce(entries, jobs);
    DistinctJobs(entries);
    var ids := set i | 0 <= i < |entries| :: entries[i].job;
    forall id ensures id in ids <==> id in WaitingIds(jobs) {
      assert id in ids <==> Contains(entries, id);
    }
    assert ids == WaitingIds(jobs);
  }

  /** Restoring succeeds exactly when the waiting jobs fit, and then yields them in order of submission. */
  lemma RestoreInSync(s: StoreState, capacity: nat)
    requires JobsSound(s.jobs)
    requires s.revision == 0 ==> s.jobs == map[] && s.leases == map[]
    ensures Restore(Load(s), capacity) ==
      if |WaitingIds(s.jobs)| <= capacity then Ok(QueueView(Load(s))) else Err(QueueCapacityExceeded)
    ensures InSync(QueueView(Load(s)), s.jobs) && WaitingInOrder(QueueView(Load(s)), s.jobs)
  {
    LoadLists(s);
    RestoreListed(Load(s), s.jobs, capacity);
    SortedView(Load(s).jobs, s.jobs);
    SortEntriesLength(QueuedFrom(Load(s).jobs, 0));
    InSyncCount(QueueView(Load(s)), s.jobs);
    InSyncMeans(QueueView(Load(s)), s.jobs);
  }

  /** A queue in step with the store is what clients are shown. */
  lemma QueueIsView(entries: seq<QueueEntry>, s: StoreState)
    requires JobsSound(s.jobs) && InSync(entries, s.jobs)
    ensures entries == QueueView(Load(s)) && WaitingInOrder(entries, s.jobs)
  {
    LoadLists(s);
    SortedView(Load(s).jobs, s.jobs);
    SortedUnique(entries, QueueView(Load(s)));
    InSyncMeans(entries, s.jobs);
  }

  // ---- The queue object ----

  class GlobalJobQueue {
    var entries: seq<QueueEntry>
    const capacity: nat

    constructor (capacity: nat)
      ensures this.capacity == capacity && entries == []
    {
      this.capacity := capacity;
      entries := [];
    }

    method AdmitRecord(record: StoredJob) returns (error: Option<QueueError>)
      modifies this
      ensures error == AdmitError(old(entries), capacity, record)
      ensures entries == Admit(old(entries), capacity, record)
    {
      error := AdmitError(entries, capacity, record);
      if error.None? {
        var e := EntryOf(record);
        var k := 0;
        while k < |entries| && EntryLess(entries[k], e)
          invariant 0 <= k <= |entries|
          invariant forall i :: 0 <= i < k ==> EntryLess(entries[i], e)
        {
          k := k + 1;
        }
        assert k == LowerBound(entries, e);
        entries := entries[..k] + [e] + entries[k..];
      }
    }

    method RemoveJob(id: JobId) returns (error: Option<QueueError>)
      modifies this
      ensures error == RemoveError(old(entries), id)
      ensures entries == Remove(old(entries), id)
    {
      if !ValidId(id) {
        return Some(InvalidJobId);
      }
      var k := 0;
      while k < |entries| && entries[k].job != id
        invariant 0 <= k <= |entries|
        invariant forall i :: 0 <= i < k ==> entries[i].job != id
      {
        k := k + 1;
      }
      assert k == Position(entries, id);
      if k == |entries| {
        return Some(QueueJobNotFound);
      }
      entries := entries[..k] + entries[k + 1..];
      return None;
    }

    /** Rebuilds the queue from one snapshot; a refused snapshot leaves the queue as it was. */
    method RestoreFrom(snapshot: Snapshot) returns (error: Option<QueueError>)
      modifies this
      ensures match Restore(snapshot, capacity)
              case Ok(restored) => error == None && entries == restored
              case Err(e) => error == Some(e) && entries == old(entries)
    {
      if snapshot.revision == 0 && (snapshot.jobs != [] || snapshot.leases != map[]) {
        return Some(InvalidSnapshotRevision);
      }
      var restored: seq<QueueEntry> := [];
      var seen: set<JobId> := {};
      for i := 0 to |snapshot.jobs|
        invariant forall id :: id in seen <==> exists k :: 0 <= k < i && snapshot.jobs[k].id == id
        invariant Collect(snapshot.jobs, 0, [], capacity) == Collect(snapshot.jobs, i, restored, capacity)
      {
        var record := snapshot.jobs[i];
        if !ValidId(record.id) {
          return Some(InvalidJobId);
        }
        if !ValidSpec(record.spec) {
          return Some(InvalidJobSpec);
        }
        if record.state.Queued? != (record.revision == 0) {
          return Some(QueueJobRevision);
        }
        if record.id in seen {
          return Some(DuplicateJob);
        }
        seen := seen + {record.id};
        if record.state.Queued? {
          if |restored| >= capacity {
            return Some(QueueCapacityExceeded);
          }
          restored := restored + [EntryOf(record)];
        }
      }
      entries := SortEntries(restored);
      return None;
    }
  }
}
