/** Persistent state, its compare-and-swap mutations and what every mutation keeps
    (state_store.hpp, state_store.cpp, mutation_core.cpp). */
module Store {
  import opened Basics
  import opened Job

  datatype ProcessIdentity = ProcessIdentity(pid: int, pgid: int, startTicks: int)

  const NO_IDENTITY := ProcessIdentity(0, 0, 0)

  predicate ValidIdentity(identity: ProcessIdentity) {
    identity.pid > 0 && identity.pgid > 0 && identity.startTicks > 0
  }

  datatype ExitReason = Exited | Signaled | UnknownExit

  datatype ExitStatus = ExitStatus(reason: ExitReason, exitCode: int, signal: int)

  /** The run-time facts recorded beside a job's specification. */
  datatype Execution = Execution(
    identity: ProcessIdentity,
    startTime: Option<Time>,
    endTime: Option<Time>,
    exit: Option<ExitStatus>,
    failureReason: Option<string>,
    logPath: Option<string>)

  const NO_EXECUTION := Execution(NO_IDENTITY, None, None, None, None, None)

  const MAX_FAILURE_REASON_BYTES := 4096
  const MAX_LOG_PATH_BYTES := 4096

  datatype ExecutionCode =
    | ExecutionOk
    | InvalidIdentity | IdentityNotAllowed | IdentityRequired
    | ExitNotAllowed
    | StartTimeNotAllowed | InvalidStartTime
    | EndTimeNotAllowed | InvalidEndTime
    | FailureReasonNotAllowed | InvalidFailureReason
    | LogPathNotAllowed | InvalidLogPath

  function ValidateExecution(e: Execution, state: JobState, spec: JobSpec): ExecutionCode {
    var hasIdentity := ValidIdentity(e.identity);
    if e.identity != NO_IDENTITY && !hasIdentity then InvalidIdentity
    else if hasIdentity && state.Queued? then IdentityNotAllowed
    else if !hasIdentity && (state.Running? || state.Stopping?) then IdentityRequired
    else if e.exit.Some? && !IsTerminal(state) then ExitNotAllowed
    else if e.startTime.Some? && !hasIdentity then StartTimeNotAllowed
    else if e.startTime.Some? && e.startTime.value < spec.submitTime then InvalidStartTime
    else if e.endTime.Some? && !IsTerminal(state) then EndTimeNotAllowed
    else if e.endTime.Some? && e.startTime.Some? && e.endTime.value < e.startTime.value then InvalidEndTime
    else if e.failureReason.Some? && !IsTerminal(state) then FailureReasonNotAllowed
    else if e.failureReason.Some? && !BoundedText(e.failureReason.value, MAX_FAILURE_REASON_BYTES) then
      InvalidFailureReason
    else if e.logPath.Some? && state.Queued? then LogPathNotAllowed
    else if e.logPath.Some? && !AbsolutePath(e.logPath.value, MAX_LOG_PATH_BYTES) then InvalidLogPath
    else ExecutionOk
  }

  datatype StoredJob = StoredJob(
    id: JobId, spec: JobSpec, state: JobState, revision: int, execution: Execution)

  predicate ValidExecution(record: StoredJob) {
    ValidateExecution(record.execution, record.state, record.spec).ExecutionOk?
  }

  datatype Lease = Lease(uuid: Uuid, job: JobId)

  const MAX_ENTRIES := 64

  datatype StateMutation = StateMutation(
    expectedRevision: int,
    creates: seq<StoredJob>,
    updates: seq<StoredJob>,
    acquires: seq<Lease>,
    releases: seq<Uuid>)

  /** The number of entries, saturated just above the limit so that no addition can wrap. */
  function EntryCount(m: StateMutation): (n: nat)
    ensures n <= MAX_ENTRIES + 1
    ensures n <= MAX_ENTRIES <==> |m.creates| + |m.updates| + |m.acquires| + |m.releases| <= MAX_ENTRIES
    ensures n <= MAX_ENTRIES ==> n == |m.creates| + |m.updates| + |m.acquires| + |m.releases|
  {
    if |m.creates| > MAX_ENTRIES then MAX_ENTRIES + 1
    else if |m.updates| > MAX_ENTRIES - |m.creates| then MAX_ENTRIES + 1
    else if |m.acquires| > MAX_ENTRIES - |m.creates| - |m.updates| then MAX_ENTRIES + 1
    else if |m.releases| > MAX_ENTRIES - |m.creates| - |m.updates| - |m.acquires| then MAX_ENTRIES + 1
    else |m.creates| + |m.updates| + |m.acquires| + |m.releases|
  }

  datatype StoreError =
    | BackendUnavailable | RevisionConflict | InvalidMutation | CapacityExceeded
    | InvalidJob | InvalidExecutionRecord | JobAlreadyExists | JobNotFound
    | InvalidJobRevision | JobSpecChanged | InvalidJobTransition
    | InvalidLease | GpuAlreadyLeased | JobAlreadyLeased | LeaseNotFound

  type Jobs = map<JobId, StoredJob>
  type Leases = map<Uuid, JobId>

  datatype StoreState = StoreState(jobs: Jobs, leases: Leases, revision: int)

  const EMPTY_STORE := StoreState(map[], map[], 0)

  datatype StoreConfig = StoreConfig(maxJobs: nat, maxLeases: nat)

  // ---- The mutation core on values ----

  function CreateJob(jobs: Jobs, record: StoredJob, maxJobs: nat): Result<Jobs, StoreError> {
    if !ValidId(record.id) || !ValidSpec(record.spec) || !record.state.Queued? || record.revision != 0 then
      Err(InvalidJob)
    else if !ValidExecution(record) then Err(InvalidExecutionRecord)
    else if record.id in jobs then Err(JobAlreadyExists)
    else if |jobs| >= maxJobs then Err(CapacityExceeded)
    else Ok(jobs[record.id := record])
  }

  function UpdateJob(jobs: Jobs, record: StoredJob): Result<Jobs, StoreError> {
    if !ValidId(record.id) || !ValidSpec(record.spec) then Err(InvalidJob)
    else if !ValidExecution(record) then Err(InvalidExecutionRecord)
    else if record.id !in jobs then Err(JobNotFound)
    else if jobs[record.id].revision == U64_MAX || record.revision != jobs[record.id].revision + 1 then
      Err(InvalidJobRevision)
    else if jobs[record.id].spec != record.spec then Err(JobSpecChanged)
    else if !CanTransition(jobs[record.id].state, record.state) then Err(InvalidJobTransition)
    else Ok(jobs[record.id := record])
  }

  function ReleaseLease(leases: Leases, uuid: Uuid): Result<Leases, StoreError> {
    if !ValidUuid(uuid) then Err(InvalidLease)
    else if uuid !in leases then Err(LeaseNotFound)
    else Ok(leases - {uuid})
  }

  function AcquireLease(jobs: Jobs, leases: Leases, lease: Lease, maxLeases: nat): Result<Leases, StoreError> {
    if !ValidUuid(lease.uuid) || !ValidId(lease.job) then Err(InvalidLease)
    else if lease.uuid in leases then Err(GpuAlreadyLeased)
    else if lease.job !in jobs || !Leaseable(jobs[lease.job].state) then Err(InvalidLease)
    else if lease.job in leases.Values then Err(JobAlreadyLeased)
    else if |leases| >= maxLeases then Err(CapacityExceeded)
    else Ok(leases[lease.uuid := lease.job])
  }

  function CreateJobs(jobs: Jobs, records: seq<StoredJob>, maxJobs: nat): Result<Jobs, StoreError>
    decreases records
  {
    if records == [] then Ok(jobs)
    else match CreateJob(jobs, records[0], maxJobs)
      case Err(e) => Err(e)
      case Ok(next) => CreateJobs(next, records[1..], maxJobs)
  }

  function UpdateJobs(jobs: Jobs, records: seq<StoredJob>): Result<Jobs, StoreError> {
    if records == [] then Ok(jobs)
    else match UpdateJob(jobs, records[0])
      case Err(e) => Err(e)
      case Ok(next) => UpdateJobs(next, records[1..])
  }

  function ReleaseLeases(leases: Leases, uuids: seq<Uuid>): Result<Leases, StoreError> {
    if uuids == [] then Ok(leases)
    else match ReleaseLease(leases, uuids[0])
      case Err(e) => Err(e)
      case Ok(next) => ReleaseLeases(next, uuids[1..])
  }

  function AcquireLeases(jobs: Jobs, leases: Leases, acquires: seq<Lease>, maxLeases: nat)
    : Result<Leases, StoreError>
    decreases acquires
  {
    if acquires == [] then Ok(leases)
    else match AcquireLease(jobs, leases, acquires[0], maxLeases)
      case Err(e) => Err(e)
      case Ok(next) => AcquireLeases(jobs, next, acquires[1..], maxLeases)
  }

  /** Leases and leaseable jobs correspond one to one. */
  predicate LeaseMatrix(jobs: Jobs, leases: Leases) {
    && (forall u :: u in leases ==> leases[u] in jobs && Leaseable(jobs[leases[u]].state))
    && (forall u, v :: u in leases && v in leases && leases[u] == leases[v] ==> u == v)
    && (forall id :: id in jobs && Leaseable(jobs[id].state) ==> id in leases.Values)
  }

  function ApplyMutation(s: StoreState, config: StoreConfig, m: StateMutation): Result<StoreState, StoreError> {
    if m.expectedRevision != s.revision then Err(RevisionConflict)
    else if EntryCount(m) == 0 || EntryCount(m) > MAX_ENTRIES || s.revision == U64_MAX then Err(InvalidMutation)
    else match CreateJobs(s.jobs, m.creates, config.maxJobs)
      case Err(e) => Err(e)
      case Ok(created) =>
        match UpdateJobs(created, m.updates)
        case Err(e) => Err(e)
        case Ok(jobs) =>
          match ReleaseLeases(s.leases, m.releases)
          case Err(e) => Err(e)
          case Ok(kept) =>
            match AcquireLeases(jobs, kept, m.acquires, config.maxLeases)
            case Err(e) => Err(e)
            case Ok(leases) =>
              if !LeaseMatrix(jobs, leases) then Err(InvalidLease)
              else Ok(StoreState(jobs, leases, s.revision + 1))
  }

  // ---- What every accepted mutation keeps ----

  predicate ConsistentRecord(id: JobId, record: StoredJob) {
    && record.id == id && ValidId(id) && 0 <= record.revision <= U64_MAX
    && ValidSpec(record.spec) && ValidExecution(record)
    && (record.state.Queued? <==> record.revision == 0)
  }

  /** What a loaded snapshot satisfies: sound records, sound uuids and the lease matrix. */
  predicate Consistent(s: StoreState) {
    && (forall id :: id in s.jobs ==> ConsistentRecord(id, s.jobs[id]))
    && (forall u :: u in s.leases ==> ValidUuid(u))
    && LeaseMatrix(s.jobs, s.leases)
  }

  /** The update counts with which a job can have reached a state. */
  predicate RevisionFits(state: JobState, revision: int) {
    match state
    case Queued => revision == 0
    case Starting => revision == 1
    case Running => revision == 2
    case Stopping => 2 <= revision <= 3
    case Finished => revision == 3
    case Failed => 2 <= revision <= 4
    case Cancelled => revision == 1 || 3 <= revision <= 4
    case Lost => 2 <= revision <= 4
  }

  predicate RevisionsFit(jobs: Jobs) {
    forall id :: id in jobs ==> RevisionFits(jobs[id].state, jobs[id].revision)
  }

  /** How one record may change over any number of mutations. */
  predicate Evolves(before: StoredJob, after: StoredJob) {
    && after.id == before.id && after.spec == before.spec
    && before.revision <= after.revision
    && (after.revision == before.revision || IsTerminal(before.state) || after.state.Queued? ==> after == before)
  }

  predicate JobsEvolve(before: Jobs, after: Jobs) {
    forall id :: id in before ==> id in after && Evolves(before[id], after[id])
  }

  function CountUpdates(records: seq<StoredJob>, id: JobId): nat {
    if records == [] then 0 else (if records[0].id == id then 1 else 0) + CountUpdates(records[1..], id)
  }

  function RevisionOf(jobs: Jobs, id: JobId): int {
    if id in jobs then jobs[id].revision else 0
  }

  predicate JobsSound(jobs: Jobs) {
    forall id :: id in jobs ==> ConsistentRecord(id, jobs[id])
  }

  /** What replacing or adding one sound record keeps. */
  predicate JobsKept(before: Jobs, after: Jobs) {
    JobsSound(after) && JobsEvolve(before, after) && (RevisionsFit(before) ==> RevisionsFit(after))
  }

  predicate RecordFollows(jobs: Jobs, record: StoredJob) {
    if record.id in jobs then
      && Evolves(jobs[record.id], record)
      && (RevisionFits(jobs[record.id].state, jobs[record.id].revision) ==> RevisionFits(record.state, record.revision))
    else RevisionFits(record.state, record.revision)
  }

  lemma PutKeeps(jobs: Jobs, record: StoredJob)
    requires JobsSound(jobs) && ConsistentRecord(record.id, record) && RecordFollows(jobs, record)
    ensures JobsKept(jobs, jobs[record.id := record])
  {
  }

  lemma KeptTransitive(a: Jobs, b: Jobs, c: Jobs)
    requires JobsKept(a, b) && JobsKept(b, c)
    ensures JobsKept(a, c)
  {
    EvolveTransitive(a, b, c);
  }

  lemma CreateJobKeeps(jobs: Jobs, record: StoredJob, maxJobs: nat)
    requires JobsSound(jobs) && CreateJob(jobs, record, maxJobs).Ok?
    ensures var next := CreateJob(jobs, record, maxJobs).value;
      JobsKept(jobs, next) && next == jobs[record.id := record] && record.id !in jobs && record.revision == 0
  {
    PutKeeps(jobs, record);
  }

  lemma {:induction false} CreateJobsKeeps(jobs: Jobs, records: seq<StoredJob>, maxJobs: nat)
    requires JobsSound(jobs)
    requires CreateJobs(jobs, records, maxJobs).Ok?
    ensures var next := CreateJobs(jobs, records, maxJobs).value;
      && JobsSound(next) && JobsEvolve(jobs, next)
      && (RevisionsFit(jobs) ==> RevisionsFit(next))
      && forall id :: RevisionOf(next, id) == RevisionOf(jobs, id)
    decreases records
  {
    if records != [] {
      var step := CreateJob(jobs, records[0], maxJobs).value;
      CreateJobKeeps(jobs, records[0], maxJobs);
      CreateJobsKeeps(step, records[1..], maxJobs);
      KeptTransitive(jobs, step, CreateJobs(jobs, records, maxJobs).value);
    }
  }

  lemma UpdatedRecord(before: StoredJob, record: StoredJob)
    requires ConsistentRecord(before.id, before) && record.id == before.id && record.spec == before.spec
    requires ValidExecution(record) && CanTransition(before.state, record.state)
    requires before.revision < U64_MAX && record.revision == before.revision + 1
    ensures ConsistentRecord(record.id, record) && Evolves(before, record)
    ensures RevisionFits(before.state, before.revision) ==> RevisionFits(record.state, record.revision)
  {
  }

  lemma UpdateJobKeeps(jobs: Jobs, record: StoredJob)
    requires JobsSound(jobs)
    requires UpdateJob(jobs, record).Ok?
    ensures var next := UpdateJob(jobs, record).value;
      && JobsSound(next) && JobsEvolve(jobs, next) && next.Keys == jobs.Keys
      && (RevisionsFit(jobs) ==> RevisionsFit(next))
      && next == jobs[record.id := record] && record.revision == jobs[record.id].revision + 1
  {
    assert ConsistentRecord(record.id, jobs[record.id]);
    UpdatedRecord(jobs[record.id], record);
    PutKeeps(jobs, record);
  }

  lemma {:induction false} UpdateJobsKeeps(jobs: Jobs, records: seq<StoredJob>)
    requires JobsSound(jobs)
    requires UpdateJobs(jobs, records).Ok?
    ensures var next := UpdateJobs(jobs, records).value;
      && JobsSound(next) && JobsEvolve(jobs, next) && next.Keys == jobs.Keys
      && (RevisionsFit(jobs) ==> RevisionsFit(next))
      && forall id :: RevisionOf(next, id) == RevisionOf(jobs, id) + CountUpdates(records, id)
  {
    if records != [] {
      UpdateJobKeeps(jobs, records[0]);
      var step := UpdateJob(jobs, records[0]).value;
      UpdateJobsKeeps(step, records[1..]);
      EvolveTransitive(jobs, step, UpdateJobs(jobs, records).value);
    }
  }

  lemma EvolveTransitive(a: Jobs, b: Jobs, c: Jobs)
    requires JobsEvolve(a, b) && JobsEvolve(b, c)
    ensures JobsEvolve(a, c)
  {
    forall id | id in a ensures id in c && Evolves(a[id], c[id]) {
      assert Evolves(a[id], b[id]) && Evolves(b[id], c[id]);
    }
  }

  lemma {:induction false} ReleaseLeasesKeeps(leases: Leases, uuids: seq<Uuid>)
    requires ReleaseLeases(leases, uuids).Ok?
    ensures var next := ReleaseLeases(leases, uuids).value;
      && next.Keys == leases.Keys - (set u | u in uuids)
      && (forall u :: u in next ==> next[u] == leases[u])
  {
    if uuids != [] {
      ReleaseLeasesKeeps(leases - {uuids[0]}, uuids[1..]);
    }
  }

  lemma {:induction false} AcquireLeasesKeeps(jobs: Jobs, leases: Leases, acquires: seq<Lease>, maxLeases: nat)
    requires AcquireLeases(jobs, leases, acquires, maxLeases).Ok?
    ensures var next := AcquireLeases(jobs, leases, acquires, maxLeases).value;
      && (forall u :: u in leases ==> u in next && next[u] == leases[u])
      && (forall u :: u in next ==> u in leases || ValidUuid(u))
      && (|leases| <= maxLeases ==> |next| <= maxLeases)
    decreases acquires
  {
    if acquires != [] {
      var step := AcquireLease(jobs, leases, acquires[0], maxLeases).value;
      assert step.Keys == leases.Keys + {acquires[0].uuid};
      AcquireLeasesKeeps(jobs, step, acquires[1..], maxLeases);
    }
  }

  /** The steps of an accepted mutation, by name. */
  predicate AcceptedSteps(s: StoreState, config: StoreConfig, m: StateMutation,
                          created: Jobs, jobs: Jobs, kept: Leases, leases: Leases) {
    && CreateJobs(s.jobs, m.creates, config.maxJobs) == Ok(created) && UpdateJobs(created, m.updates) == Ok(jobs)
    && ReleaseLeases(s.leases, m.releases) == Ok(kept)
    && AcquireLeases(jobs, kept, m.acquires, config.maxLeases) == Ok(leases) && LeaseMatrix(jobs, leases)
  }

  lemma StepsOf(s: StoreState, config: StoreConfig, m: StateMutation)
    returns (created: Jobs, jobs: Jobs, kept: Leases, leases: Leases)
    requires ApplyMutation(s, config, m).Ok?
    ensures AcceptedSteps(s, config, m, created, jobs, kept, leases)
    ensures ApplyMutation(s, config, m).value == StoreState(jobs, leases, s.revision + 1)
  {
    created := CreateJobs(s.jobs, m.creates, config.maxJobs).value;
    jobs := UpdateJobs(created, m.updates).value;
    kept := ReleaseLeases(s.leases, m.releases).value;
    leases := AcquireLeases(jobs, kept, m.acquires, config.maxLeases).value;
  }

  lemma LeaseUuidsKept(jobs: Jobs, before: Leases, m: StateMutation, kept: Leases, leases: Leases, maxLeases: nat)
    requires ReleaseLeases(before, m.releases) == Ok(kept)
    requires AcquireLeases(jobs, kept, m.acquires, maxLeases) == Ok(leases)
    requires forall u :: u in before ==> ValidUuid(u)
    ensures forall u :: u in leases ==> ValidUuid(u)
  {
    ReleaseLeasesKeeps(before, m.releases);
    AcquireLeasesKeeps(jobs, kept, m.acquires, maxLeases);
  }

  lemma JobStepsKeep(before: Jobs, created: Jobs, jobs: Jobs, m: StateMutation, maxJobs: nat)
    requires JobsSound(before)
    requires CreateJobs(before, m.creates, maxJobs) == Ok(created) && UpdateJobs(created, m.updates) == Ok(jobs)
    ensures JobsKept(before, jobs)
    ensures forall id :: RevisionOf(jobs, id) == RevisionOf(before, id) + CountUpdates(m.updates, id)
  {
    CreateJobsKeeps(before, m.creates, maxJobs);
    UpdateJobsKeeps(created, m.updates);
    EvolveTransitive(before, created, jobs);
  }

  /** One accepted mutation, whatever it contains: the store stays consistent, every record only
      moves forward, and each entry in `updates` moves its job's revision by exactly one. */
  lemma ApplyKeeps(s: StoreState, config: StoreConfig, m: StateMutation)
    requires Consistent(s)
    requires ApplyMutation(s, config, m).Ok?
    ensures var next := ApplyMutation(s, config, m).value;
      && Consistent(next) && JobsEvolve(s.jobs, next.jobs)
      && (RevisionsFit(s.jobs) ==> RevisionsFit(next.jobs))
      && next.revision == s.revision + 1
      && forall id :: RevisionOf(next.jobs, id) == RevisionOf(s.jobs, id) + CountUpdates(m.updates, id)
  {
    var created, jobs, kept, leases := StepsOf(s, config, m);
    JobStepsKeep(s.jobs, created, jobs, m, config.maxJobs);
    LeaseUuidsKept(jobs, s.leases, m, kept, leases, config.maxLeases);
  }

  // ---- Every sequence of mutations ----

  /** A rejected mutation leaves the store as it was. */
  function ApplyOrKeep(s: StoreState, config: StoreConfig, m: StateMutation): StoreState {
    match ApplyMutation(s, config, m)
    case Ok(next) => next
    case Err(_) => s
  }

  function ApplyAll(s: StoreState, config: StoreConfig, ms: seq<StateMutation>): StoreState
    decreases ms
  {
    if ms == [] then s else ApplyAll(ApplyOrKeep(s, config, ms[0]), config, ms[1..])
  }

  /** The update entries for `id` in the mutations that were accepted along the way. */
  function AcceptedUpdates(s: StoreState, config: StoreConfig, ms: seq<StateMutation>, id: JobId): nat
    decreases ms
  {
    if ms == [] then 0
    else
      (if ApplyMutation(s, config, ms[0]).Ok? then CountUpdates(ms[0].updates, id) else 0)
      + AcceptedUpdates(ApplyOrKeep(s, config, ms[0]), config, ms[1..], id)
  }

  lemma {:induction false} ApplyAllKeeps(s: StoreState, config: StoreConfig, ms: seq<StateMutation>)
    requires Consistent(s)
    ensures var last := ApplyAll(s, config, ms);
      && Consistent(last) && JobsEvolve(s.jobs, last.jobs)
      && (RevisionsFit(s.jobs) ==> RevisionsFit(last.jobs))
      && forall id :: RevisionOf(last.jobs, id) == RevisionOf(s.jobs, id) + AcceptedUpdates(s, config, ms, id)
    decreases ms
  {
    if ms != [] {
      var step := ApplyOrKeep(s, config, ms[0]);
      if ApplyMutation(s, config, ms[0]).Ok? {
        ApplyKeeps(s, config, ms[0]);
      }
      ApplyAllKeeps(step, config, ms[1..]);
      EvolveTransitive(s.jobs, step.jobs, ApplyAll(step, config, ms[1..]).jobs);
    }
  }

  /** Whatever is sent to a store that started empty: the lease matrix holds, a job is QUEUED exactly
      while its revision is 0, and no job ever has more than four accepted updates. */
  lemma StoreHistory(config: StoreConfig, ms: seq<StateMutation>)
    ensures var last := ApplyAll(EMPTY_STORE, config, ms);
      && Consistent(last) && RevisionsFit(last.jobs)
      && (forall id :: AcceptedUpdates(EMPTY_STORE, config, ms, id) == RevisionOf(last.jobs, id) <= 4)
  {
    ApplyAllKeeps(EMPTY_STORE, config, ms);
  }

  /** At any later point of a history a job keeps its id and specification, a finished job keeps its
      whole record, and no job is QUEUED again. */
  lemma StoreHistoryForward(config: StoreConfig, first: seq<StateMutation>, rest: seq<StateMutation>)
    ensures JobsEvolve(ApplyAll(EMPTY_STORE, config, first).jobs, ApplyAll(EMPTY_STORE, config, first + rest).jobs)
  {
    ApplyAllKeeps(EMPTY_STORE, config, first);
    ApplyAllAppend(EMPTY_STORE, config, first, rest);
    ApplyAllKeeps(ApplyAll(EMPTY_STORE, config, first), config, rest);
  }

  lemma {:induction false} ApplyAllAppend(s: StoreState, config: StoreConfig, first: seq<StateMutation>,
                                          rest: seq<StateMutation>)
    ensures ApplyAll(s, config, first + rest) == ApplyAll(ApplyAll(s, config, first), config, rest)
    decreases first
  {
    if first == [] {
      assert first + rest == rest;
    } else {
      assert (first + rest)[1..] == first[1..] + rest;
      ApplyAllAppend(ApplyOrKeep(s, config, first[0]), config, first[1..], rest);
    }
  }

  // ---- Snapshots ----

  /** What `load` returns: every record, by increasing id. */
  datatype Snapshot = Snapshot(revision: int, jobs: seq<StoredJob>, leases: Leases)

  predicate Lists(records: seq<StoredJob>, jobs: Jobs) {
    && (forall i, j :: 0 <= i < j < |records| ==> records[i].id < records[j].id)
    && (forall i :: 0 <= i < |records| ==> records[i].id in jobs && jobs[records[i].id] == records[i])
    && (forall id :: id in jobs ==> jobs[id] in records)
  }

  function RecordsFor(jobs: Jobs, ids: seq<JobId>): (records: seq<StoredJob>)
    requires forall i :: 0 <= i < |ids| ==> ids[i] in jobs
    ensures |records| == |ids|
    ensures forall i :: 0 <= i < |ids| ==> records[i] == jobs[ids[i]]
  {
    seq(|ids|, i requires 0 <= i < |ids| => jobs[ids[i]])
  }

  function Load(s: StoreState): Snapshot {
    var ids := InOrder(s.jobs.Keys);
    assert forall i :: 0 <= i < |ids| ==> ids[i] in ids;
    Snapshot(s.revision, RecordsFor(s.jobs, ids), s.leases)
  }

  /** `ids` is the keys, each once, by increasing value. */
  predicate Enumerates(ids: seq<JobId>, keys: set<JobId>) {
    && (forall i :: 0 <= i < |ids| ==> ids[i] in keys) && (forall id :: id in keys ==> id in ids)
    && (forall i, j :: 0 <= i < j < |ids| ==> ids[i] < ids[j])
  }

  lemma InOrderEnumerates(keys: set<JobId>)
    ensures Enumerates(InOrder(keys), keys)
  {
    var ids := InOrder(keys);
    assert forall i :: 0 <= i < |ids| ==> ids[i] in ids;
  }

  lemma RecordsList(jobs: Jobs, ids: seq<JobId>)
    requires JobsSound(jobs) && Enumerates(ids, jobs.Keys)
    ensures Lists(RecordsFor(jobs, ids), jobs)
  {
    var records := RecordsFor(jobs, ids);
    forall i | 0 <= i < |records| ensures records[i].id == ids[i] {
      assert ConsistentRecord(ids[i], jobs[ids[i]]);
    }
    forall id | id in jobs ensures jobs[id] in records {
      assert id in ids;
      var i :| 0 <= i < |ids| && ids[i] == id;
      assert records[i] == jobs[id];
    }
  }

  lemma LoadLists(s: StoreState)
    requires JobsSound(s.jobs)
    ensures Lists(Load(s).jobs, s.jobs)
  {
    InOrderEnumerates(s.jobs.Keys);
    RecordsList(s.jobs, InOrder(s.jobs.Keys));
  }
}
