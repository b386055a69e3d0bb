/** Which jobs and which snapshots the queue refuses and why, and what a restored queue holds, for every input
    (job_queue.cpp). */
module QueueChecks {
  import opened Basics
  import opened Job
  import opened Store
  import opened Queue
  import opened JobChecks
  import opened StoreChecks

  // ---- One job ----

  function AdmitFault(rule: int): QueueError {
    if rule == 0 then InvalidJobId
    else if rule == 1 then InvalidJobSpec
    else if rule == 2 then JobNotQueued
    else if rule == 3 then QueueJobRevision
    else if rule == 4 then DuplicateJob
    else QueueCapacityExceeded
  }

  /** The rules of an admission, in the order of the checks. */
  predicate AdmitBreaks(rule: int, entries: seq<QueueEntry>, capacity: nat, record: StoredJob) {
    if rule == 0 then !NumberOf(record.id)
    else if rule == 1 then !SpecOf(record.spec)
    else if rule == 2 then record.state != JobState.Queued
    else if rule == 3 then record.revision != 0
    else if rule == 4 then exists i :: 0 <= i < |entries| && entries[i].job == record.id
    else rule == 5 && |entries| >= capacity
  }

  /** A job is refused by the first rule it breaks, and admitted if it breaks none. */
  lemma AdmitMeans(entries: seq<QueueEntry>, capacity: nat, record: StoredJob) returns (rule: int)
    ensures 0 <= rule <= 6 && (forall k :: 0 <= k < rule ==> !AdmitBreaks(k, entries, capacity, record))
    ensures rule < 6 ==> AdmitBreaks(rule, entries, capacity, record)
    ensures AdmitError(entries, capacity, record) == if rule == 6 then None else Some(AdmitFault(rule))
  {
    SpecMeans(record.spec);
    var r := AdmitError(entries, capacity, record);
    rule := if r.None? then 6 else if r.value == InvalidJobId then 0 else if r.value == InvalidJobSpec then 1
            else if r.value == JobNotQueued then 2 else if r.value == QueueJobRevision then 3
            else if r.value == DuplicateJob then 4 else 5;
  }

  /** A job that is not there cannot be removed. */
  lemma RemoveMeans(entries: seq<QueueEntry>, id: JobId)
    ensures var r := RemoveError(entries, id);
      && (r == Some(InvalidJobId) <==> !NumberOf(id))
      && (r == Some(QueueJobNotFound) <==> NumberOf(id) && forall i :: 0 <= i < |entries| ==> entries[i].job != id)
      && (r == None <==> NumberOf(id) && exists i :: 0 <= i < |entries| && entries[i].job == id)
  {
  }

  // ---- A whole snapshot ----

  predicate Waits(record: StoredJob) {
    record.state == JobState.Queued
  }

  function WaitingBefore(records: seq<StoredJob>, n: nat): set<int>
    requires n <= |records|
  {
    set k | 0 <= k < n && Waits(records[k])
  }

  function Fault(rule: int): QueueError {
    if rule == 0 then InvalidJobId
    else if rule == 1 then InvalidJobSpec
    else if rule == 2 then QueueJobRevision
    else if rule == 3 then DuplicateJob
    else QueueCapacityExceeded
  }

  /** The rules for the record at `i`, in the order of the checks. */
  predicate Faulty(rule: int, records: seq<StoredJob>, i: nat, capacity: nat)
    requires i < |records|
  {
    if rule == 0 then !NumberOf(records[i].id)
    else if rule == 1 then !SpecOf(records[i].spec)
    else if rule == 2 then
      (Waits(records[i]) && records[i].revision != 0) || (!Waits(records[i]) && records[i].revision == 0)
    else if rule == 3 then exists k :: 0 <= k < i && records[k].id == records[i].id
    else rule == 4 && Waits(records[i]) && |WaitingBefore(records, i)| >= capacity
  }

  predicate Faultless(records: seq<StoredJob>, i: nat, capacity: nat)
    requires i < |records|
  {
    forall rule :: 0 <= rule <= 4 ==> !Faulty(rule, records, i, capacity)
  }

  predicate Clean(records: seq<StoredJob>, n: nat, capacity: nat)
    requires n <= |records|
  {
    forall i :: 0 <= i < n ==> Faultless(records, i, capacity)
  }

  /** The entries are those of the first `n` records that wait. */
  ghost predicate Holds(entries: seq<QueueEntry>, records: seq<StoredJob>, n: nat)
    requires n <= |records|
  {
    && |entries| == |WaitingBefore(records, n)|
    && (forall i, j :: 0 <= i < j < |entries| ==> entries[i].job != entries[j].job)
    && forall e :: e in entries <==>
         exists k :: 0 <= k < n && Waits(records[k]) && e == QueueEntry(records[k].id, records[k].spec.submitTime)
  }

  lemma OneMore(records: seq<StoredJob>, n: nat)
    requires n < |records|
    ensures WaitingBefore(records, n + 1) == WaitingBefore(records, n) + if Waits(records[n]) then {n} else {}
    ensures |WaitingBefore(records, n + 1)| == |WaitingBefore(records, n)| + if Waits(records[n]) then 1 else 0
  {
    assert WaitingBefore(records, n + 1) == WaitingBefore(records, n) + if Waits(records[n]) then {n} else {};
  }

  lemma HoldsMore(entries: seq<QueueEntry>, records: seq<StoredJob>, n: nat, capacity: nat)
    requires n < |records| && Holds(entries, records, n) && !Faulty(3, records, n, capacity)
    ensures Waits(records[n]) ==> Holds(entries + [EntryOf(records[n])], records, n + 1)
    ensures !Waits(records[n]) ==> Holds(entries, records, n + 1)
  {
    OneMore(records, n);
    forall i | 0 <= i < |entries| ensures entries[i].job != records[n].id {
      assert entries[i] in entries;
    }
  }

  /** The first fault of a record, or none. */
  lemma FaultOf(records: seq<StoredJob>, i: nat, found: seq<QueueEntry>, capacity: nat) returns (rule: int)
    requires i < |records| && |found| == |WaitingBefore(records, i)|
    ensures 0 <= rule <= 5 && (forall k :: 0 <= k < rule ==> !Faulty(k, records, i, capacity))
    ensures rule < 5 ==> Faulty(rule, records, i, capacity) && Collect(records, i, found, capacity) == Err(Fault(rule))
    ensures rule == 5 ==>
      && Faultless(records, i, capacity)
      && Collect(records, i, found, capacity) ==
         Collect(records, i + 1, if Waits(records[i]) then found + [EntryOf(records[i])] else found, capacity)
  {
    SpecMeans(records[i].spec);
    var r := SnapshotError(records, i);
    rule := if r.Some? && r.value == InvalidJobId then 0 else if r.Some? && r.value == InvalidJobSpec then 1
            else if r.Some? && r.value == QueueJobRevision then 2 else if r.Some? then 3
            else if Waits(records[i]) && |found| >= capacity then 4 else 5;
  }

  /** The verdict on a snapshot: the first fault of its first faulty record, at `i`, or the waiting jobs. */
  ghost predicate Verdict(records: seq<StoredJob>, capacity: nat, i: int, rule: int,
                          r: Result<seq<QueueEntry>, QueueError>) {
    && 0 <= i <= |records| && Clean(records, i, capacity)
    && (i == |records| ==> r.Ok? && Holds(r.value, records, i))
    && (i < |records| ==>
          && 0 <= rule <= 4 && Faulty(rule, records, i, capacity) && r == Err(Fault(rule))
          && forall k :: 0 <= k < rule ==> !Faulty(k, records, i, capacity))
  }

  lemma {:induction false} CollectMeans(records: seq<StoredJob>, i: nat, found: seq<QueueEntry>, capacity: nat)
    returns (at: int, rule: int)
    requires i <= |records| && Clean(records, i, capacity) && Holds(found, records, i)
    ensures Verdict(records, capacity, at, rule, Collect(records, i, found, capacity))
    decreases |records| - i
  {
    at, rule := i, 5;
    if i < |records| {
      rule := FaultOf(records, i, found, capacity);
      if rule == 5 {
        HoldsMore(found, records, i, capacity);
        var next := if Waits(records[i]) then found + [EntryOf(records[i])] else found;
        at, rule := CollectMeans(records, i + 1, next, capacity);
      }
    }
  }

  /** By submission time, then by number. */
  predicate InTime(entries: seq<QueueEntry>) {
    forall i, j :: 0 <= i < j < |entries| ==>
      entries[i].submitTime < entries[j].submitTime
      || (entries[i].submitTime == entries[j].submitTime && entries[i].job < entries[j].job)
  }

  lemma SortedHolds(found: seq<QueueEntry>, records: seq<StoredJob>)
    requires Holds(found, records, |records|)
    ensures Holds(SortEntries(found), records, |records|) && InTime(SortEntries(found))
  {
    SortEntriesKeeps(found);
    SortEntriesLength(found);
    var sorted := SortEntries(found);
    forall i, j | 0 <= i < j < |sorted|
      ensures EntryLess(sorted[i], sorted[j]) && sorted[i].job != sorted[j].job
    {
      assert EntryLess(sorted[i], sorted[j]) && sorted[i] in found && sorted[j] in found;
    }
  }

  /** Every snapshot: one without a revision must be empty, the first fault of the first faulty record refuses it,
      and otherwise the queue is its waiting jobs by submission time and number. */
  lemma RestoreMeans(snapshot: Snapshot, capacity: nat) returns (at: int, rule: int)
    ensures var r := Restore(snapshot, capacity);
      if snapshot.revision == 0 && (|snapshot.jobs| > 0 || |snapshot.leases| > 0) then
        r == Err(InvalidSnapshotRevision)
      else Verdict(snapshot.jobs, capacity, at, rule, r) && (r.Ok? ==> InTime(r.value))
  {
    at, rule := CollectMeans(snapshot.jobs, 0, [], capacity);
    var found := Collect(snapshot.jobs, 0, [], capacity);
    if found.Ok? {
      SortedHolds(found.value, snapshot.jobs);
    }
  }
}
