/** Loading and applying on the SQLite tables, against the mutation core. */
module SqliteStores {
  import opened Basics
  import opened Job
  import opened Store
  import opened Wire
  import opened SqliteRows
  import opened SqliteTables

  // ---- Reading the job table ----

  function DecodeJobs(rows: map<int, Row>, keys: seq<int>, decode: Decoder): Result<Jobs, StoreError>
    requires forall i :: 0 <= i < |keys| ==> keys[i] in rows
    decreases keys
  {
    if keys == [] then Ok(map[])
    else match decode(rows[keys[0]])
      case Err(e) => Err(e)
      case Ok(record) =>
        match DecodeJobs(rows, keys[1..], decode)
        case Err(e) => Err(e)
        case Ok(rest) => if record.id in rest then Err(InvalidJob) else Ok(rest[record.id := record])
  }

  predicate Distinct(keys: seq<int>) {
    forall i, j :: 0 <= i < j < |keys| ==> keys[i] != keys[j]
  }

  /** What a decoder makes of a row has the id of the row's key. */
  ghost predicate Keyed(rows: map<int, Row>, decode: Decoder) {
    forall k :: k in rows ==>
      -I64_LIMIT <= k < I64_LIMIT && (decode(rows[k]).Ok? ==> decode(rows[k]).value.id == Unsigned64(k))
  }

  predicate ReadFrom(rows: map<int, Row>, keys: seq<int>, jobs: Jobs, decode: Decoder) {
    && (forall id {:trigger jobs[id]} :: id in jobs ==>
          0 <= id < U64_LIMIT && Signed64(id) in keys && Signed64(id) in rows
            && decode(rows[Signed64(id)]) == Ok(jobs[id]))
    && (forall i :: 0 <= i < |keys| ==> Unsigned64(keys[i]) in jobs)
  }

  lemma ReadOneMore(rows: map<int, Row>, keys: seq<int>, rest: Jobs, record: StoredJob, decode: Decoder)
    requires keys != [] && ReadFrom(rows, keys[1..], rest, decode) && keys[0] in rows
    requires -I64_LIMIT <= keys[0] < I64_LIMIT && decode(rows[keys[0]]) == Ok(record)
    requires record.id == Unsigned64(keys[0])
    ensures ReadFrom(rows, keys, rest[record.id := record], decode)
  {
    var jobs := rest[record.id := record];
    Wraps(keys[0]);
    assert keys[0] in keys;
    forall id | id in jobs
      ensures 0 <= id < U64_LIMIT && Signed64(id) in keys && Signed64(id) in rows
        && decode(rows[Signed64(id)]) == Ok(jobs[id])
    {
      assert id == record.id || jobs[id] == rest[id];
    }
    forall i | 0 <= i < |keys| ensures Unsigned64(keys[i]) in jobs {
      assert i > 0 ==> keys[i] == keys[1..][i - 1];
    }
  }

  lemma {:induction false} DecodedJobsRead(rows: map<int, Row>, keys: seq<int>, decode: Decoder)
    requires Keyed(rows, decode) && forall i :: 0 <= i < |keys| ==> keys[i] in rows
    requires DecodeJobs(rows, keys, decode).Ok?
    ensures ReadFrom(rows, keys, DecodeJobs(rows, keys, decode).value, decode)
    decreases keys
  {
    if keys != [] {
      DecodedJobsRead(rows, keys[1..], decode);
      ReadOneMore(rows, keys, DecodeJobs(rows, keys[1..], decode).value, decode(rows[keys[0]]).value, decode);
    }
  }

  lemma NotReadTwice(rows: map<int, Row>, keys: seq<int>, jobs: Jobs, decode: Decoder, k: int)
    requires ReadFrom(rows, keys, jobs, decode) && k !in keys && -I64_LIMIT <= k < I64_LIMIT
    ensures Unsigned64(k) !in jobs
  {
    Wraps(k);
  }

  lemma FirstDistinct(keys: seq<int>)
    requires Distinct(keys) && keys != []
    ensures keys[0] !in keys[1..] && Distinct(keys[1..])
  {
    assert forall i :: 0 <= i < |keys[1..]| ==> keys[1..][i] == keys[i + 1];
  }

  predicate Among(part: Jobs, jobs: Jobs) {
    forall id :: id in part ==> id in jobs && part[id] == jobs[id]
  }

  lemma OneMoreRow(rows: map<int, Row>, keys: seq<int>, decode: Decoder, rest: Jobs, record: StoredJob)
    requires keys != [] && forall i :: 0 <= i < |keys| ==> keys[i] in rows
    requires DecodeJobs(rows, keys[1..], decode) == Ok(rest) && decode(rows[keys[0]]) == Ok(record)
    requires record.id !in rest
    ensures DecodeJobs(rows, keys, decode) == Ok(rest[record.id := record])
  {
  }

  lemma HeldRow(rows: map<int, Row>, jobs: Jobs, decode: Decoder, k: int)
    requires JobsHold(rows, jobs, decode) && Keyed(rows, decode) && k in rows
    ensures Unsigned64(k) in jobs && decode(rows[k]) == Ok(jobs[Unsigned64(k)])
      && jobs[Unsigned64(k)].id == Unsigned64(k)
  {
    Wraps(k);
  }

  lemma NextHeldRow(rows: map<int, Row>, keys: seq<int>, jobs: Jobs, decode: Decoder, rest: Jobs, record: StoredJob)
    requires keys != [] && (forall i :: 0 <= i < |keys| ==> keys[i] in rows) && keys[0] !in keys[1..]
    requires DecodeJobs(rows, keys[1..], decode) == Ok(rest) && ReadFrom(rows, keys[1..], rest, decode)
    requires -I64_LIMIT <= keys[0] < I64_LIMIT && decode(rows[keys[0]]) == Ok(record)
    requires record.id == Unsigned64(keys[0])
    requires Among(rest, jobs) && record.id in jobs && jobs[record.id] == record
    ensures DecodeJobs(rows, keys, decode).Ok? && Among(DecodeJobs(rows, keys, decode).value, jobs)
  {
    NotReadTwice(rows, keys[1..], rest, decode, keys[0]);
    OneMoreRow(rows, keys, decode, rest, record);
  }

  /** Reading the rows of distinct keys that hold `jobs` gives those of the jobs. */
  lemma {:induction false} HeldJobsDecode(rows: map<int, Row>, keys: seq<int>, jobs: Jobs, decode: Decoder)
    requires JobsHold(rows, jobs, decode) && Keyed(rows, decode) && Distinct(keys)
    requires forall i :: 0 <= i < |keys| ==> keys[i] in rows
    ensures DecodeJobs(rows, keys, decode).Ok? && Among(DecodeJobs(rows, keys, decode).value, jobs)
    decreases keys
  {
    if keys != [] {
      FirstDistinct(keys);
      HeldJobsDecode(rows, keys[1..], jobs, decode);
      DecodedJobsRead(rows, keys[1..], decode);
      HeldRow(rows, jobs, decode, keys[0]);
      NextHeldRow(rows, keys, jobs, decode, DecodeJobs(rows, keys[1..], decode).value, jobs[Unsigned64(keys[0])]);
    }
  }

  // ---- Reading all tables ----

  predicate LeaseRowsOk(rows: map<Uuid, int>, jobs: Jobs) {
    forall u :: u in rows ==> ValidUuid(u) && ValidId(Unsigned64(rows[u])) && Unsigned64(rows[u]) in jobs
  }

  function DecodeWith(t: Tables, keys: seq<int>, decode: Decoder): Result<StoreState, StoreError>
    requires forall i :: 0 <= i < |keys| ==> keys[i] in t.jobs
  {
    if t.revision < 0 then Err(BackendUnavailable)
    else match DecodeJobs(t.jobs, keys, decode)
      case Err(e) => Err(e)
      case Ok(jobs) =>
        if !LeaseRowsOk(t.leases, jobs) || !LeaseMatrix(jobs, LeasesOf(t.leases)) then Err(InvalidLease)
        else Ok(StoreState(jobs, LeasesOf(t.leases), t.revision))
  }

  function DecodeTables(t: Tables): Result<StoreState, StoreError> {
    var keys := InOrder(t.jobs.Keys);
    assert forall i :: 0 <= i < |keys| ==> keys[i] in keys;
    DecodeWith(t, keys, DecodeRow)
  }

  /** The tables are the state. */
  predicate Holds(t: Tables, s: StoreState) {
    JobsHold(t.jobs, s.jobs, DecodeRow) && LeasesHold(t.leases, s.leases) && t.revision == s.revision
  }

  /** Keys and columns are 64-bit integers and every row is stored under its own key. */
  predicate WellTyped(t: Tables) {
    && (forall k :: k in t.jobs ==> t.jobs[k].key == k && -I64_LIMIT <= k < I64_LIMIT && t.jobs[k].revision < I64_LIMIT)
    && (forall u :: u in t.leases ==> -I64_LIMIT <= t.leases[u] < I64_LIMIT)
  }

  lemma RowKeyed(row: Row)
    ensures DecodeRow(row).Ok? ==> DecodeRow(row).value.id == Unsigned64(row.key)
  {
  }

  lemma DecodedConsistent(row: Row)
    requires row.revision < I64_LIMIT
    ensures DecodeRow(row).Ok? ==> ConsistentRecord(DecodeRow(row).value.id, DecodeRow(row).value)
  {
  }

  lemma TablesKeyed(t: Tables)
    requires WellTyped(t)
    ensures Keyed(t.jobs, DecodeRow)
  {
    forall k | k in t.jobs ensures DecodeRow(t.jobs[k]).Ok? ==> DecodeRow(t.jobs[k]).value.id == Unsigned64(k) {
      RowKeyed(t.jobs[k]);
    }
  }

  lemma ReadAllHolds(rows: map<int, Row>, keys: seq<int>, jobs: Jobs, decode: Decoder)
    requires ReadFrom(rows, keys, jobs, decode) && forall k :: k in rows ==> k in keys && -I64_LIMIT <= k < I64_LIMIT
    ensures JobsHold(rows, jobs, decode)
  {
    forall k | k in rows ensures Unsigned64(k) in jobs {
      var i :| 0 <= i < |keys| && keys[i] == k;
    }
  }

  lemma HeldSame(rows: map<int, Row>, a: Jobs, b: Jobs, decode: Decoder)
    requires JobsHold(rows, a, decode) && JobsHold(rows, b, decode)
    ensures a == b
  {
    forall id | id in a ensures id in b && b[id] == a[id] {
      Wraps(id);
    }
    forall id | id in b ensures id in a {
      Wraps(id);
    }
  }

  lemma DecodeHolds(t: Tables, keys: seq<int>, decode: Decoder)
    requires Keyed(t.jobs, decode) && (forall i :: 0 <= i < |keys| ==> keys[i] in t.jobs)
      && (forall k :: k in t.jobs ==> k in keys)
    requires DecodeWith(t, keys, decode).Ok?
    ensures JobsHold(t.jobs, DecodeWith(t, keys, decode).value.jobs, decode)
  {
    DecodedJobsRead(t.jobs, keys, decode);
    ReadAllHolds(t.jobs, keys, DecodeJobs(t.jobs, keys, decode).value, decode);
  }

  lemma HeldDecodes(t: Tables, keys: seq<int>, s: StoreState, decode: Decoder)
    requires Keyed(t.jobs, decode) && Distinct(keys)
    requires (forall i :: 0 <= i < |keys| ==> keys[i] in t.jobs) && (forall k :: k in t.jobs ==> k in keys)
    requires JobsHold(t.jobs, s.jobs, decode) && LeasesHold(t.leases, s.leases) && t.revision == s.revision >= 0
    requires LeaseMatrix(s.jobs, s.leases) && LeaseRowsOk(t.leases, s.jobs)
    ensures DecodeWith(t, keys, decode) == Ok(s)
  {
    HeldJobsSame(t.jobs, keys, s.jobs, decode);
    DecodedParts(t, keys, s, decode);
  }

  lemma HeldJobsSame(rows: map<int, Row>, keys: seq<int>, jobs: Jobs, decode: Decoder)
    requires Keyed(rows, decode) && Distinct(keys) && JobsHold(rows, jobs, decode)
    requires (forall i :: 0 <= i < |keys| ==> keys[i] in rows) && (forall k :: k in rows ==> k in keys)
    ensures DecodeJobs(rows, keys, decode) == Ok(jobs)
  {
    HeldJobsDecode(rows, keys, jobs, decode);
    DecodedJobsRead(rows, keys, decode);
    ReadAllHolds(rows, keys, DecodeJobs(rows, keys, decode).value, decode);
    HeldSame(rows, DecodeJobs(rows, keys, decode).value, jobs, decode);
  }

  lemma DecodedParts(t: Tables, keys: seq<int>, s: StoreState, decode: Decoder)
    requires (forall i :: 0 <= i < |keys| ==> keys[i] in t.jobs) && DecodeJobs(t.jobs, keys, decode) == Ok(s.jobs)
    requires LeasesHold(t.leases, s.leases) && t.revision == s.revision >= 0
    requires LeaseMatrix(s.jobs, s.leases) && LeaseRowsOk(t.leases, s.jobs)
    ensures DecodeWith(t, keys, decode) == Ok(s)
  {
  }

  // ---- Applying ----

  function WriteMutation(t: Tables, m: StateMutation, revision: int): Option<Tables> {
    match InsertRows(DeleteRows(t.leases, m.releases), m.acquires)
    case None => None
    case Some(leases) =>
      Some(Tables(PutRows(PutRows(t.jobs, m.creates, EncodeRow), m.updates, EncodeRow), leases, Signed64(revision)))
  }

  /** The statements of one transaction: the begin, one for each entry, the revision and the commit. */
  function Statements(m: StateMutation): nat {
    |m.creates| + |m.updates| + |m.releases| + |m.acquires| + 3
  }

  /** One transaction whose statement number `failAt` fails, if there are that many. Whatever does not commit
      leaves the tables as they were. */
  function ApplyRows(t: Tables, config: StoreConfig, m: StateMutation, failAt: nat): (Tables, Option<StoreError>) {
    if failAt == 0 then (t, Some(BackendUnavailable))
    else match DecodeTables(t)
      case Err(e) => (t, Some(e))
      case Ok(s) => ApplyDecoded(t, s, config, m, failAt)
  }

  function ApplyDecoded(t: Tables, s: StoreState, config: StoreConfig, m: StateMutation, failAt: nat)
    : (Tables, Option<StoreError>)
  {
    match ApplyMutation(s, config, m)
    case Err(e) => (t, Some(e))
    case Ok(next) =>
      if next.revision >= I64_LIMIT then (t, Some(InvalidMutation)) else Commit(t, m, next.revision, failAt)
  }

  function Commit(t: Tables, m: StateMutation, revision: int, failAt: nat): (Tables, Option<StoreError>) {
    if failAt < Statements(m) then (t, Some(BackendUnavailable))
    else match WriteMutation(t, m, revision)
      case None => (t, Some(BackendUnavailable))
      case Some(written) => (written, None)
  }

  /** The jobs a mutation writes rows for. */
  function WrittenIds(m: StateMutation): set<JobId> {
    IdsOf(m.creates) + IdsOf(m.updates)
  }

  /** The tables are the state, as far as the rows of `written` jobs can be read back. */
  predicate Stores(t: Tables, s: StoreState, written: set<JobId>) {
    RowsFor(t.jobs, s.jobs, written, EncodeRow, DecodeRow) && LeasesHold(t.leases, s.leases) && t.revision == s.revision
  }

  lemma JobRowsFor(rows: map<int, Row>, s: StoreState, config: StoreConfig, m: StateMutation, created: Jobs, jobs: Jobs)
    requires JobsHold(rows, s.jobs, DecodeRow) && Writable(m.creates) && Writable(m.updates)
    requires CreateJobs(s.jobs, m.creates, config.maxJobs) == Ok(created) && UpdateJobs(created, m.updates) == Ok(jobs)
    ensures RowsFor(PutRows(PutRows(rows, m.creates, EncodeRow), m.updates, EncodeRow), jobs, WrittenIds(m), EncodeRow,
                    DecodeRow)
  {
    NoneWritten(rows, s.jobs, EncodeRow, DecodeRow);
    PutRowsFor(rows, s.jobs, {}, m.creates, EncodeRow, DecodeRow);
    CreateIsPut(s.jobs, m.creates, config.maxJobs);
    assert {} + IdsOf(m.creates) == IdsOf(m.creates);
    PutRowsFor(PutRows(rows, m.creates, EncodeRow), created, IdsOf(m.creates), m.updates, EncodeRow, DecodeRow);
    UpdateIsPut(created, m.updates);
  }

  /** Writing an accepted mutation row by row never violates the uniqueness of leases, and the tables then
      store exactly the state the mutation core computed. */
  lemma WritesStore(t: Tables, s: StoreState, config: StoreConfig, m: StateMutation)
    requires Holds(t, s) && Writable(m.creates) && Writable(m.updates)
    requires ApplyMutation(s, config, m).Ok? && 0 <= ApplyMutation(s, config, m).value.revision < I64_LIMIT
    ensures var next := ApplyMutation(s, config, m).value;
      && WriteMutation(t, m, next.revision).Some?
      && Stores(WriteMutation(t, m, next.revision).value, next, WrittenIds(m))
  {
    var created, jobs, kept, leases := StepsOf(s, config, m);
    JobRowsFor(t.jobs, s, config, m, created, jobs);
    DeleteRowsHold(t.leases, s.leases, m.releases);
    InsertRowsHold(DeleteRows(t.leases, m.releases), jobs, kept, m.acquires, config.maxLeases);
  }

  // ---- Tables and states correspond ----

  lemma HeldConsistent(t: Tables, jobs: Jobs)
    requires WellTyped(t) && JobsHold(t.jobs, jobs, DecodeRow)
    ensures JobsSound(jobs)
  {
    forall id | id in jobs ensures ConsistentRecord(id, jobs[id]) {
      Wraps(id);
      var row := t.jobs[Signed64(id)];
      RowKeyed(row);
      DecodedConsistent(row);
    }
  }

  /** All keys of the job table, each once. */
  predicate KeysOf(t: Tables, keys: seq<int>) {
    && (forall i :: 0 <= i < |keys| ==> keys[i] in t.jobs) && (forall k :: k in t.jobs ==> k in keys) && Distinct(keys)
  }

  lemma OrderedKeys(t: Tables)
    ensures KeysOf(t, InOrder(t.jobs.Keys))
  {
    var keys := InOrder(t.jobs.Keys);
    assert forall i :: 0 <= i < |keys| ==> keys[i] in keys;
  }

  lemma DecodedLeases(t: Tables, keys: seq<int>, decode: Decoder)
    requires (forall i :: 0 <= i < |keys| ==> keys[i] in t.jobs) && DecodeWith(t, keys, decode).Ok?
    requires forall u :: u in t.leases ==> -I64_LIMIT <= t.leases[u] < I64_LIMIT
    ensures var s := DecodeWith(t, keys, decode).value;
      && LeasesHold(t.leases, s.leases) && LeaseMatrix(s.jobs, s.leases) && t.revision == s.revision >= 0
      && forall u :: u in s.leases ==> ValidUuid(u)
  {
  }

  lemma SoundParts(s: StoreState)
    requires JobsSound(s.jobs) && LeaseMatrix(s.jobs, s.leases) && forall u :: u in s.leases ==> ValidUuid(u)
    ensures Consistent(s)
  {
  }

  lemma DecodedHoldsBy(t: Tables, keys: seq<int>)
    requires WellTyped(t) && KeysOf(t, keys) && DecodeWith(t, keys, DecodeRow).Ok?
    ensures var s := DecodeWith(t, keys, DecodeRow).value; Holds(t, s) && Consistent(s) && s.revision >= 0
  {
    TablesKeyed(t);
    DecodeHolds(t, keys, DecodeRow);
    DecodedLeases(t, keys, DecodeRow);
    var s := DecodeWith(t, keys, DecodeRow).value;
    HeldConsistent(t, s.jobs);
    SoundParts(s);
  }

  lemma DecodedHolds(t: Tables)
    requires WellTyped(t) && DecodeTables(t).Ok?
    ensures var s := DecodeTables(t).value; Holds(t, s) && Consistent(s) && s.revision >= 0
  {
    OrderedKeys(t);
    DecodedHoldsBy(t, InOrder(t.jobs.Keys));
  }

  lemma HeldLeaseRows(rows: map<Uuid, int>, s: StoreState)
    requires LeasesHold(rows, s.leases) && Consistent(s)
    ensures LeaseRowsOk(rows, s.jobs)
  {
    forall u | u in rows ensures ValidUuid(u) && ValidId(Unsigned64(rows[u])) && Unsigned64(rows[u]) in s.jobs {
      assert LeasesOf(rows)[u] == Unsigned64(rows[u]) && u in s.leases;
      assert ConsistentRecord(s.leases[u], s.jobs[s.leases[u]]);
    }
  }

  lemma HeldDecodedBy(t: Tables, keys: seq<int>, s: StoreState)
    requires WellTyped(t) && KeysOf(t, keys) && Holds(t, s) && Consistent(s) && s.revision >= 0
    ensures DecodeWith(t, keys, DecodeRow) == Ok(s)
  {
    TablesKeyed(t);
    HeldLeaseRows(t.leases, s);
    HeldDecodes(t, keys, s, DecodeRow);
  }

  lemma HeldDecoded(t: Tables, s: StoreState)
    requires WellTyped(t) && Holds(t, s) && Consistent(s) && s.revision >= 0
    ensures DecodeTables(t) == Ok(s)
  {
    OrderedKeys(t);
    HeldDecodedBy(t, InOrder(t.jobs.Keys), s);
  }

  // ---- Column types are kept ----

  predicate JobRowsTyped(rows: map<int, Row>) {
    forall k :: k in rows ==> rows[k].key == k && -I64_LIMIT <= k < I64_LIMIT && rows[k].revision < I64_LIMIT
  }

  lemma {:induction false} PutRowsTyped(rows: map<int, Row>, records: seq<StoredJob>)
    requires JobRowsTyped(rows) && Writable(records)
    ensures JobRowsTyped(PutRows(rows, records, EncodeRow))
    decreases records
  {
    if records != [] {
      var r := records[0];
      RowTyped(r);
      PutRowsTyped(rows[Signed64(r.id) := EncodeRow(r)], records[1..]);
    }
  }

  lemma RowTyped(r: StoredJob)
    requires Representable(r)
    ensures var row := EncodeRow(r);
      row.key == Signed64(r.id) && -I64_LIMIT <= row.key < I64_LIMIT && row.revision < I64_LIMIT
  {
    Wraps(r.id);
    Wraps(r.revision);
  }

  lemma WritesTyped(t: Tables, m: StateMutation, revision: int)
    requires WellTyped(t) && Writable(m.creates) && Writable(m.updates) && WriteMutation(t, m, revision).Some?
    requires forall u :: u in WriteMutation(t, m, revision).value.leases ==>
      -I64_LIMIT <= WriteMutation(t, m, revision).value.leases[u] < I64_LIMIT
    ensures WellTyped(WriteMutation(t, m, revision).value)
  {
    PutRowsTyped(t.jobs, m.creates);
    PutRowsTyped(PutRows(t.jobs, m.creates, EncodeRow), m.updates);
  }

  // ---- Refinement ----

  /** The mutation core's refusals with nothing changed, or tables that store its next state. The only addition
      is that a revision beyond a signed 64-bit column is refused. */
  ghost predicate Refined(t: Tables, s: StoreState, config: StoreConfig, m: StateMutation,
                          r: (Tables, Option<StoreError>)) {
    match ApplyMutation(s, config, m)
    case Err(e) => r == (t, Some(e))
    case Ok(next) =>
      if next.revision >= I64_LIMIT then r == (t, Some(InvalidMutation))
      else r.1.None? && WellTyped(r.0) && Stores(r.0, next, WrittenIds(m)) && Consistent(next) && next.revision >= 0
  }

  lemma AcceptedRefines(t: Tables, s: StoreState, config: StoreConfig, m: StateMutation, next: StoreState)
    requires WellTyped(t) && Holds(t, s) && Consistent(s) && s.revision >= 0 && Writable(m.creates)
    requires Writable(m.updates)
    requires ApplyMutation(s, config, m) == Ok(next) && next.revision < I64_LIMIT
    ensures var written := WriteMutation(t, m, next.revision);
      && written.Some? && WellTyped(written.value) && Stores(written.value, next, WrittenIds(m))
      && Consistent(next) && next.revision >= 0
  {
    ApplyKeeps(s, config, m);
    WritesStore(t, s, config, m);
    WritesTyped(t, m, next.revision);
  }

  lemma ApplyDecodedRefines(t: Tables, s: StoreState, config: StoreConfig, m: StateMutation, failAt: nat)
    requires WellTyped(t) && Holds(t, s) && Consistent(s) && s.revision >= 0 && Writable(m.creates)
    requires Writable(m.updates)
    requires failAt >= Statements(m)
    ensures Refined(t, s, config, m, ApplyDecoded(t, s, config, m, failAt))
  {
    match ApplyMutation(s, config, m)
    case Err(_) =>
    case Ok(next) =>
      if next.revision < I64_LIMIT {
        AcceptedRefines(t, s, config, m, next);
        CommitsAll(t, m, next.revision, failAt);
      }
  }

  lemma CommitsAll(t: Tables, m: StateMutation, revision: int, failAt: nat)
    requires failAt >= Statements(m) && WriteMutation(t, m, revision).Some?
    ensures Commit(t, m, revision, failAt) == (WriteMutation(t, m, revision).value, None)
  {
  }

  /** On tables that can be read, with a backend that answers, a mutation of records within their types does what
      the mutation core does. */
  lemma ApplyRefines(t: Tables, config: StoreConfig, m: StateMutation, failAt: nat)
    requires WellTyped(t) && DecodeTables(t).Ok? && Writable(m.creates) && Writable(m.updates)
    requires failAt >= Statements(m)
    ensures Refined(t, DecodeTables(t).value, config, m, ApplyRows(t, config, m, failAt))
  {
    var s := DecodeTables(t).value;
    DecodedHolds(t);
    AppliesDecoded(t, s, config, m, failAt);
    ApplyDecodedRefines(t, s, config, m, failAt);
  }

  lemma AppliesDecoded(t: Tables, s: StoreState, config: StoreConfig, m: StateMutation, failAt: nat)
    requires DecodeTables(t) == Ok(s) && failAt > 0
    ensures ApplyRows(t, config, m, failAt) == ApplyDecoded(t, s, config, m, failAt)
  {
  }

  /** Every written job is within the limits of its row. */
  predicate AllSafe(jobs: Jobs, written: set<JobId>) {
    forall id :: id in written && id in jobs ==> RowSafe(jobs[id])
  }

  lemma ReadBackIffSafe(t: Tables, s: StoreState, written: set<JobId>)
    requires Stores(t, s, written) && Consistent(s)
    ensures JobsHold(t.jobs, s.jobs, DecodeRow) <==> AllSafe(s.jobs, written)
  {
    HoldIffReadBack(t.jobs, s.jobs, written, EncodeRow, DecodeRow);
    forall id | id in written && id in s.jobs
      ensures DecodeRow(EncodeRow(s.jobs[id])) == Ok(s.jobs[id]) <==> RowSafe(s.jobs[id])
    {
      assert ConsistentRecord(id, s.jobs[id]);
      assert RowFor(t.jobs[Signed64(id)], s.jobs[id], true, EncodeRow, DecodeRow);
      RowRoundTrip(s.jobs[id]);
    }
  }

  lemma DecodesIffHolds(t: Tables, s: StoreState)
    requires WellTyped(t) && LeasesHold(t.leases, s.leases) && t.revision == s.revision >= 0 && Consistent(s)
    ensures DecodeTables(t) == Ok(s) <==> JobsHold(t.jobs, s.jobs, DecodeRow)
  {
    if JobsHold(t.jobs, s.jobs, DecodeRow) {
      HeldDecoded(t, s);
    }
    if DecodeTables(t) == Ok(s) {
      DecodedHolds(t);
    }
  }

  /** Tables that store a state decode to it exactly if every written job is within the limits of its row. */
  lemma StoredDecodes(t: Tables, s: StoreState, written: set<JobId>)
    requires WellTyped(t) && Stores(t, s, written) && Consistent(s) && s.revision >= 0
    ensures DecodeTables(t) == Ok(s) <==> AllSafe(s.jobs, written)
  {
    ReadBackIffSafe(t, s, written);
    DecodesIffHolds(t, s);
  }

  lemma RefinedDecodes(t: Tables, s: StoreState, config: StoreConfig, m: StateMutation, r: (Tables, Option<StoreError>))
    requires Refined(t, s, config, m, r) && r.1.None?
    ensures ApplyMutation(s, config, m).Ok?
    ensures DecodeTables(r.0) == ApplyMutation(s, config, m) <==>
      AllSafe(ApplyMutation(s, config, m).value.jobs, WrittenIds(m))
  {
    StoredDecodes(r.0, ApplyMutation(s, config, m).value, WrittenIds(m));
  }

  /** What was committed is loaded again as the mutation core's next state if and only if the last record
      written for each job is within the limits of its row. */
  lemma CommittedDecodes(t: Tables, config: StoreConfig, m: StateMutation, failAt: nat)
    requires WellTyped(t) && DecodeTables(t).Ok? && Writable(m.creates) && Writable(m.updates)
    requires ApplyRows(t, config, m, failAt).1.None?
    ensures var core := ApplyMutation(DecodeTables(t).value, config, m);
      core.Ok? && (DecodeTables(ApplyRows(t, config, m, failAt).0) == core <==> AllSafe(core.value.jobs, WrittenIds(m)))
  {
    CommittedAll(t, config, m, failAt);
    ApplyRefines(t, config, m, failAt);
    RefinedDecodes(t, DecodeTables(t).value, config, m, ApplyRows(t, config, m, failAt));
  }

  lemma CommittedAll(t: Tables, config: StoreConfig, m: StateMutation, failAt: nat)
    requires ApplyRows(t, config, m, failAt).1.None?
    ensures failAt >= Statements(m)
  {
  }

  /** A transaction commits exactly if every statement succeeds and the core accepts a representable revision. */
  lemma CommitsExactly(t: Tables, config: StoreConfig, m: StateMutation, failAt: nat)
    requires WellTyped(t) && Writable(m.creates) && Writable(m.updates)
    ensures ApplyRows(t, config, m, failAt).1.None? <==>
      && failAt >= Statements(m) && DecodeTables(t).Ok? && ApplyMutation(DecodeTables(t).value, config, m).Ok?
      && ApplyMutation(DecodeTables(t).value, config, m).value.revision < I64_LIMIT
    ensures ApplyRows(t, config, m, failAt).1.Some? ==> ApplyRows(t, config, m, failAt).0 == t
  {
    if DecodeTables(t).Ok? && failAt >= Statements(m) {
      ApplyRefines(t, config, m, failAt);
    }
  }

  lemma NextRevision(s: StoreState, config: StoreConfig, m: StateMutation)
    requires ApplyMutation(s, config, m).Ok?
    ensures ApplyMutation(s, config, m).value.revision == s.revision + 1
  {
  }

  /** While the column has room for the next revision, a transaction commits exactly if the core accepts. */
  lemma CommitsAsCore(t: Tables, config: StoreConfig, m: StateMutation, failAt: nat)
    requires WellTyped(t) && Writable(m.creates) && Writable(m.updates) && DecodeTables(t).Ok?
    requires DecodeTables(t).value.revision + 1 < I64_LIMIT
    ensures ApplyRows(t, config, m, failAt).1.None? <==>
      failAt >= Statements(m) && ApplyMutation(DecodeTables(t).value, config, m).Ok?
  {
    CommitsExactly(t, config, m, failAt);
    if ApplyMutation(DecodeTables(t).value, config, m).Ok? {
      NextRevision(DecodeTables(t).value, config, m);
    }
  }
}
