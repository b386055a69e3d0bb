/** Which rule a refused record, lease or mutation breaks: the rules one by one with their limits written out,
    and the order in which the store checks them (state_store.cpp, mutation_core.cpp). */
module StoreChecks {
  import opened Basics
  import opened Job
  import opened Store
  import opened JobChecks

  // ---- Execution records ----

  predicate NoProcess(p: ProcessIdentity) {
    p.pid == 0 && p.pgid == 0 && p.startTicks == 0
  }

  predicate SomeProcess(p: ProcessIdentity) {
    p.pid > 0 && p.pgid > 0 && p.startTicks > 0
  }

  predicate HasEnded(state: JobState) {
    state == JobState.Finished || state == JobState.Failed || state == JobState.Cancelled || state == JobState.Lost
  }

  /** What each code complains of. */
  predicate Breaks(code: ExecutionCode, e: Execution, state: JobState, spec: JobSpec) {
    match code
    case ExecutionOk => false
    case InvalidIdentity => !NoProcess(e.identity) && !SomeProcess(e.identity)
    case IdentityNotAllowed => SomeProcess(e.identity) && state == JobState.Queued
    case IdentityRequired => !SomeProcess(e.identity) && (state == JobState.Running || state == JobState.Stopping)
    case ExitNotAllowed => e.exit != None && !HasEnded(state)
    case StartTimeNotAllowed => e.startTime != None && !SomeProcess(e.identity)
    case InvalidStartTime => e.startTime != None && e.startTime.value < spec.submitTime
    case EndTimeNotAllowed => e.endTime != None && !HasEnded(state)
    case InvalidEndTime => e.endTime != None && e.startTime != None && e.endTime.value < e.startTime.value
    case FailureReasonNotAllowed => e.failureReason != None && !HasEnded(state)
    case InvalidFailureReason => e.failureReason != None && !TextOf(e.failureReason.value, 1, 4096)
    case LogPathNotAllowed => e.logPath != None && state == JobState.Queued
    case InvalidLogPath => e.logPath != None && !AbsoluteOf(e.logPath.value)
  }

  /** The order of the checks. */
  function Turn(code: ExecutionCode): nat {
    match code
    case InvalidIdentity => 0
    case IdentityNotAllowed => 1
    case IdentityRequired => 2
    case ExitNotAllowed => 3
    case StartTimeNotAllowed => 4
    case InvalidStartTime => 5
    case EndTimeNotAllowed => 6
    case InvalidEndTime => 7
    case FailureReasonNotAllowed => 8
    case InvalidFailureReason => 9
    case LogPathNotAllowed => 10
    case InvalidLogPath => 11
    case ExecutionOk => 12
  }

  /** A record is accepted exactly if it breaks no rule; else the code names the first one it breaks. */
  lemma ExecutionMeans(e: Execution, state: JobState, spec: JobSpec)
    ensures var code := ValidateExecution(e, state, spec);
      && (code == ExecutionOk <==> forall c :: !Breaks(c, e, state, spec))
      && (code != ExecutionOk ==> Breaks(code, e, state, spec))
      && (forall c :: Breaks(c, e, state, spec) ==> Turn(code) <= Turn(c))
  {
    var code := ValidateExecution(e, state, spec);
    assert code != ExecutionOk ==> Breaks(code, e, state, spec);
  }

  predicate RecordBroken(record: StoredJob) {
    exists c :: Breaks(c, record.execution, record.state, record.spec)
  }

  lemma RecordMeans(record: StoredJob)
    ensures ValidExecution(record) <==> !RecordBroken(record)
  {
    ExecutionMeans(record.execution, record.state, record.spec);
  }

  // ---- Jobs ----

  predicate NumberOf(id: JobId) {
    1 <= id <= 0xFFFF_FFFF_FFFF_FFFF
  }

  function CreateError(rule: int): StoreError {
    if rule == 0 then InvalidJob
    else if rule == 1 then InvalidExecutionRecord
    else if rule == 2 then JobAlreadyExists
    else CapacityExceeded
  }

  /** The rules for a new job, in the order of the checks. */
  predicate CreateBreaks(rule: int, jobs: Jobs, record: StoredJob, maxJobs: nat) {
    if rule == 0 then
      !NumberOf(record.id) || !SpecOf(record.spec) || record.state != JobState.Queued || record.revision != 0
    else if rule == 1 then RecordBroken(record)
    else if rule == 2 then record.id in jobs
    else rule == 3 && |jobs| >= maxJobs
  }

  /** A new job is refused by the first rule it breaks, and added if it breaks none. */
  lemma CreateMeans(jobs: Jobs, record: StoredJob, maxJobs: nat) returns (rule: int)
    ensures 0 <= rule <= 4 && (forall k :: 0 <= k < rule ==> !CreateBreaks(k, jobs, record, maxJobs))
    ensures rule < 4 ==> CreateBreaks(rule, jobs, record, maxJobs)
    ensures CreateJob(jobs, record, maxJobs) ==
      if rule == 4 then Ok(jobs[record.id := record]) else Err(CreateError(rule))
  {
    SpecMeans(record.spec);
    RecordMeans(record);
    var r := CreateJob(jobs, record, maxJobs);
    rule := if r.Ok? then 4 else if r.error == InvalidJob then 0 else if r.error == InvalidExecutionRecord then 1
            else if r.error == JobAlreadyExists then 2 else 3;
  }

  function UpdateError(rule: int): StoreError {
    if rule == 0 then InvalidJob
    else if rule == 1 then InvalidExecutionRecord
    else if rule == 2 then JobNotFound
    else if rule == 3 then InvalidJobRevision
    else if rule == 4 then JobSpecChanged
    else InvalidJobTransition
  }

  /** The rules for an update, in the order of the checks. */
  predicate UpdateBreaks(rule: int, jobs: Jobs, record: StoredJob) {
    if rule == 0 then !NumberOf(record.id) || !SpecOf(record.spec)
    else if rule == 1 then RecordBroken(record)
    else if rule == 2 then record.id !in jobs
    else if record.id !in jobs then false
    else if rule == 3 then
      jobs[record.id].revision == 0xFFFF_FFFF_FFFF_FFFF || record.revision != jobs[record.id].revision + 1
    else if rule == 4 then record.spec != jobs[record.id].spec
    else rule == 5 && !CanTransition(jobs[record.id].state, record.state)
  }

  /** An update is refused by the first rule it breaks, and replaces the record if it breaks none. */
  lemma UpdateMeans(jobs: Jobs, record: StoredJob) returns (rule: int)
    ensures 0 <= rule <= 6 && (forall k :: 0 <= k < rule ==> !UpdateBreaks(k, jobs, record))
    ensures rule < 6 ==> UpdateBreaks(rule, jobs, record)
    ensures UpdateJob(jobs, record) == if rule == 6 then Ok(jobs[record.id := record]) else Err(UpdateError(rule))
  {
    SpecMeans(record.spec);
    RecordMeans(record);
    var r := UpdateJob(jobs, record);
    rule := if r.Ok? then 6 else if r.error == InvalidJob then 0 else if r.error == InvalidExecutionRecord then 1
            else if r.error == JobNotFound then 2 else if r.error == InvalidJobRevision then 3
            else if r.error == JobSpecChanged then 4 else 5;
  }

  // ---- Leases ----

  /** A device without a proper name is refused before one that is not leased. */
  lemma ReleaseMeans(leases: Leases, uuid: Uuid)
    ensures var r := ReleaseLease(leases, uuid);
      && (r == Err(InvalidLease) <==> !TextOf(uuid, 1, 96))
      && (r == Err(LeaseNotFound) <==> TextOf(uuid, 1, 96) && uuid !in leases)
      && (r.Ok? <==> TextOf(uuid, 1, 96) && uuid in leases) && (r.Ok? ==> r.value == leases - {uuid})
  {
  }

  function AcquireError(rule: int): StoreError {
    if rule == 0 || rule == 2 then InvalidLease
    else if rule == 1 then GpuAlreadyLeased
    else if rule == 3 then JobAlreadyLeased
    else CapacityExceeded
  }

  /** The rules for a new lease, in the order of the checks. */
  predicate AcquireBreaks(rule: int, jobs: Jobs, leases: Leases, lease: Lease, maxLeases: nat) {
    if rule == 0 then !TextOf(lease.uuid, 1, 96) || !NumberOf(lease.job)
    else if rule == 1 then lease.uuid in leases
    else if rule == 2 then
      lease.job !in jobs || jobs[lease.job].state == JobState.Queued || HasEnded(jobs[lease.job].state)
    else if rule == 3 then exists u :: u in leases && leases[u] == lease.job
    else rule == 4 && |leases| >= maxLeases
  }

  /** A new lease is refused by the first rule it breaks, and granted if it breaks none. */
  lemma AcquireMeans(jobs: Jobs, leases: Leases, lease: Lease, maxLeases: nat) returns (rule: int)
    ensures 0 <= rule <= 5 && (forall k :: 0 <= k < rule ==> !AcquireBreaks(k, jobs, leases, lease, maxLeases))
    ensures rule < 5 ==> AcquireBreaks(rule, jobs, leases, lease, maxLeases)
    ensures AcquireLease(jobs, leases, lease, maxLeases) ==
      if rule == 5 then Ok(leases[lease.uuid := lease.job]) else Err(AcquireError(rule))
  {
    var r := AcquireLease(jobs, leases, lease, maxLeases);
    rule := if r.Ok? then 5 else if AcquireBreaks(0, jobs, leases, lease, maxLeases) then 0
            else if r.error == GpuAlreadyLeased then 1 else if r.error == InvalidLease then 2
            else if r.error == JobAlreadyLeased then 3 else 4;
  }

  // ---- Mutations ----

  predicate CountsOf(m: StateMutation) {
    1 <= |m.creates| + |m.updates| + |m.acquires| + |m.releases| <= 64
  }

  /** What decides before anything is looked at: a stale revision, then the size and the revisions left. */
  lemma MutationMeans(s: StoreState, config: StoreConfig, m: StateMutation)
    ensures var r := ApplyMutation(s, config, m);
      && (r == Err(RevisionConflict) <==> m.expectedRevision != s.revision)
      && (r == Err(InvalidMutation) <==>
          m.expectedRevision == s.revision && (!CountsOf(m) || s.revision == 0xFFFF_FFFF_FFFF_FFFF))
  {
    if m.expectedRevision == s.revision && CountsOf(m) && s.revision != U64_MAX {
      CreatesMean(s.jobs, m.creates, config.maxJobs);
      if CreateJobs(s.jobs, m.creates, config.maxJobs).Ok? {
        var jobs := UpdateJobs(CreateJobs(s.jobs, m.creates, config.maxJobs).value, m.updates);
        UpdatesMean(CreateJobs(s.jobs, m.creates, config.maxJobs).value, m.updates);
        ReleasesMean(s.leases, m.releases);
        if jobs.Ok? && ReleaseLeases(s.leases, m.releases).Ok? {
          AcquiresMean(jobs.value, ReleaseLeases(s.leases, m.releases).value, m.acquires, config.maxLeases);
        }
      }
    }
  }

  /** The errors that only the mutation as a whole can have. */
  predicate OfTheWhole(e: StoreError) {
    e == RevisionConflict || e == InvalidMutation || e == BackendUnavailable
  }

  lemma {:induction false} CreatesMean(jobs: Jobs, records: seq<StoredJob>, maxJobs: nat)
    ensures var r := CreateJobs(jobs, records, maxJobs); r.Err? ==> !OfTheWhole(r.error)
    decreases records
  {
    if records != [] && CreateJob(jobs, records[0], maxJobs).Ok? {
      CreatesMean(CreateJob(jobs, records[0], maxJobs).value, records[1..], maxJobs);
    }
  }

  lemma {:induction false} UpdatesMean(jobs: Jobs, records: seq<StoredJob>)
    ensures var r := UpdateJobs(jobs, records); r.Err? ==> !OfTheWhole(r.error)
    decreases records
  {
    if records != [] && UpdateJob(jobs, records[0]).Ok? {
      UpdatesMean(UpdateJob(jobs, records[0]).value, records[1..]);
    }
  }

  lemma {:induction false} ReleasesMean(leases: Leases, uuids: seq<Uuid>)
    ensures var r := ReleaseLeases(leases, uuids); r.Err? ==> !OfTheWhole(r.error)
    decreases uuids
  {
    if uuids != [] && ReleaseLease(leases, uuids[0]).Ok? {
      ReleasesMean(ReleaseLease(leases, uuids[0]).value, uuids[1..]);
    }
  }

  lemma {:induction false} AcquiresMean(jobs: Jobs, leases: Leases, acquires: seq<Lease>, maxLeases: nat)
    ensures var r := AcquireLeases(jobs, leases, acquires, maxLeases); r.Err? ==> !OfTheWhole(r.error)
    decreases acquires
  {
    if acquires != [] && AcquireLease(jobs, leases, acquires[0], maxLeases).Ok? {
      AcquiresMean(jobs, AcquireLease(jobs, leases, acquires[0], maxLeases).value, acquires[1..], maxLeases);
    }
  }

  // ---- Leases and jobs together ----

  function Holds(leases: Leases, id: JobId): set<Uuid> {
    set u | u in leases && leases[u] == id
  }

  lemma CountedHolds(leases: Leases, id: JobId)
    ensures |Holds(leases, id)| == 0 <==> id !in leases.Values
    ensures |Holds(leases, id)| <= 1 <==> forall u, v :: u in Holds(leases, id) && v in Holds(leases, id) ==> u == v
  {
    var held := Holds(leases, id);
    if u :| u in leases && leases[u] == id {
      assert u in held;
      var rest := held - {u};
      assert |held| == |rest| + 1;
      assert rest == {} <==> |rest| == 0;
      if v :| v in rest {
        assert u in held && v in held && u != v;
      }
    } else {
      assert held == {};
    }
  }

  /** Every job that is starting, running or stopping holds one device, and no other job holds any. */
  predicate OneEach(jobs: Jobs, leases: Leases) {
    && (forall u :: u in leases ==> leases[u] in jobs)
    && (forall id :: id in jobs ==>
          |Holds(leases, id)| == if jobs[id].state == JobState.Queued || HasEnded(jobs[id].state) then 0 else 1)
  }

  lemma MatrixMeans(jobs: Jobs, leases: Leases)
    ensures LeaseMatrix(jobs, leases) <==> OneEach(jobs, leases)
  {
    if LeaseMatrix(jobs, leases) {
      forall id | id in jobs
        ensures |Holds(leases, id)| == if jobs[id].state == JobState.Queued || HasEnded(jobs[id].state) then 0 else 1
      {
        CountedHolds(leases, id);
      }
    }
    if OneEach(jobs, leases) {
      OneEachIsMatrix(jobs, leases);
    }
  }

  lemma OneEachIsMatrix(jobs: Jobs, leases: Leases)
    requires OneEach(jobs, leases)
    ensures LeaseMatrix(jobs, leases)
  {
    forall u | u in leases ensures Leaseable(jobs[leases[u]].state) {
      CountedHolds(leases, leases[u]);
    }
    forall u, v | u in leases && v in leases && leases[u] == leases[v] ensures u == v {
      CountedHolds(leases, leases[u]);
      assert u in Holds(leases, leases[u]) && v in Holds(leases, leases[u]);
    }
    forall id | id in jobs && Leaseable(jobs[id].state) ensures id in leases.Values {
      CountedHolds(leases, id);
    }
  }

  /** A mutation whose entries are all accepted comes through exactly if jobs and devices then correspond. */
  lemma WholeMeans(s: StoreState, config: StoreConfig, m: StateMutation, created: Jobs, jobs: Jobs, kept: Leases,
                   leases: Leases)
    requires m.expectedRevision == s.revision < 0xFFFF_FFFF_FFFF_FFFF && CountsOf(m)
    requires CreateJobs(s.jobs, m.creates, config.maxJobs) == Ok(created) && UpdateJobs(created, m.updates) == Ok(jobs)
    requires ReleaseLeases(s.leases, m.releases) == Ok(kept)
    requires AcquireLeases(jobs, kept, m.acquires, config.maxLeases) == Ok(leases)
    ensures ApplyMutation(s, config, m) ==
      if OneEach(jobs, leases) then Ok(StoreState(jobs, leases, s.revision + 1)) else Err(InvalidLease)
  {
    MatrixMeans(jobs, leases);
  }
}
