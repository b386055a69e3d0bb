/** The SQLite tables as a refinement of the store state: row-wise writes inside a transaction. */
module SqliteTables {
  import opened Basics
  import opened Job
  import opened Store
  import opened Wire
  import opened SqliteRows

  /** `jobs` by primary key, `leases` by device with unique job, and the revision. */
  datatype Tables = Tables(jobs: map<int, Row>, leases: map<Uuid, int>, revision: int)

  type Encoder = StoredJob -> Row
  type Decoder = Row -> Result<StoredJob, StoreError>

  // ---- Job rows ----

  lemma Wraps(n: int)
    ensures 0 <= n < U64_LIMIT ==> -I64_LIMIT <= Signed64(n) < I64_LIMIT && Unsigned64(Signed64(n)) == n
    ensures -I64_LIMIT <= n < I64_LIMIT ==> 0 <= Unsigned64(n) < U64_LIMIT && Signed64(Unsigned64(n)) == n
  {
  }

  /** Row by row, the table is the jobs. */
  predicate JobsHold(rows: map<int, Row>, jobs: Jobs, decode: Decoder) {
    && (forall k {:trigger rows[k]} :: k in rows ==> -I64_LIMIT <= k < I64_LIMIT && Unsigned64(k) in jobs)
    && (forall id {:trigger jobs[id]} :: id in jobs ==>
          0 <= id < U64_LIMIT && Signed64(id) in rows && decode(rows[Signed64(id)]) == Ok(jobs[id]))
  }

  function PutRows(rows: map<int, Row>, records: seq<StoredJob>, encode: Encoder): map<int, Row>
    decreases records
  {
    if records == [] then rows else PutRows(rows[Signed64(records[0].id) := encode(records[0])], records[1..], encode)
  }

  /** The row of a job that was written is its encoding, which may not read back; any other row reads back. */
  predicate RowFor(row: Row, job: StoredJob, written: bool, encode: Encoder, decode: Decoder) {
    if written then row == encode(job) && Representable(job) else decode(row) == Ok(job)
  }

  /** Row by row, the table is the jobs, as far as rows can be read back. */
  predicate RowsFor(rows: map<int, Row>, jobs: Jobs, written: set<JobId>, encode: Encoder, decode: Decoder) {
    && (forall k {:trigger rows[k]} :: k in rows ==> -I64_LIMIT <= k < I64_LIMIT && Unsigned64(k) in jobs)
    && (forall id {:trigger jobs[id]} :: id in jobs ==>
          && 0 <= id < U64_LIMIT && Signed64(id) in rows
          && RowFor(rows[Signed64(id)], jobs[id], id in written, encode, decode))
  }

  predicate Writable(records: seq<StoredJob>) {
    forall i :: 0 <= i < |records| ==> Representable(records[i])
  }

  function IdsOf(records: seq<StoredJob>): set<JobId> {
    set i | 0 <= i < |records| :: records[i].id
  }

  lemma IdsOfRest(records: seq<StoredJob>)
    requires records != []
    ensures IdsOf(records) == {records[0].id} + IdsOf(records[1..])
  {
    forall id | id in IdsOf(records) ensures id == records[0].id || id in IdsOf(records[1..]) {
      var i :| 0 <= i < |records| && records[i].id == id;
      assert i > 0 ==> records[1..][i - 1].id == id;
    }
    forall id | id in IdsOf(records[1..]) ensures id in IdsOf(records) {
      var i :| 0 <= i < |records[1..]| && records[1..][i].id == id;
      assert records[i + 1].id == id;
    }
  }

  lemma NoneWritten(rows: map<int, Row>, jobs: Jobs, encode: Encoder, decode: Decoder)
    ensures JobsHold(rows, jobs, decode) <==> RowsFor(rows, jobs, {}, encode, decode)
  {
  }

  lemma PutRowFor(rows: map<int, Row>, jobs: Jobs, written: set<JobId>, r: StoredJob, encode: Encoder, decode: Decoder)
    requires RowsFor(rows, jobs, written, encode, decode) && Representable(r)
    ensures RowsFor(rows[Signed64(r.id) := encode(r)], jobs[r.id := r], written + {r.id}, encode, decode)
  {
    Wraps(r.id);
    var next, after := rows[Signed64(r.id) := encode(r)], jobs[r.id := r];
    forall id | id in after
      ensures 0 <= id < U64_LIMIT && Signed64(id) in next
      ensures RowFor(next[Signed64(id)], after[id], id in written + {r.id}, encode, decode)
    {
      Wraps(id);
    }
    forall k | k in next ensures -I64_LIMIT <= k < I64_LIMIT && Unsigned64(k) in after {
      assert k == Signed64(r.id) || k in rows;
    }
  }

  /** The jobs with `records` in their places, the last one of each id counting. */
  function PutJobs(jobs: Jobs, records: seq<StoredJob>): Jobs
    decreases records
  {
    if records == [] then jobs else PutJobs(jobs[records[0].id := records[0]], records[1..])
  }

  lemma {:induction false} PutRowsFor(rows: map<int, Row>, jobs: Jobs, written: set<JobId>, records: seq<StoredJob>,
                                      encode: Encoder, decode: Decoder)
    requires RowsFor(rows, jobs, written, encode, decode) && Writable(records)
    ensures RowsFor(PutRows(rows, records, encode), PutJobs(jobs, records), written + IdsOf(records), encode, decode)
    decreases records
  {
    if records == [] {
      assert written + IdsOf(records) == written;
    } else {
      var r := records[0];
      PutRowFor(rows, jobs, written, r, encode, decode);
      PutRowsFor(rows[Signed64(r.id) := encode(r)], jobs[r.id := r], written + {r.id}, records[1..], encode, decode);
      IdsOfRest(records);
      assert written + {r.id} + IdsOf(records[1..]) == written + IdsOf(records);
    }
  }

  lemma {:induction false} CreateIsPut(jobs: Jobs, records: seq<StoredJob>, maxJobs: nat)
    requires CreateJobs(jobs, records, maxJobs).Ok?
    ensures CreateJobs(jobs, records, maxJobs).value == PutJobs(jobs, records)
    decreases records
  {
    if records != [] {
      CreateIsPut(jobs[records[0].id := records[0]], records[1..], maxJobs);
    }
  }

  lemma {:induction false} UpdateIsPut(jobs: Jobs, records: seq<StoredJob>)
    requires UpdateJobs(jobs, records).Ok?
    ensures UpdateJobs(jobs, records).value == PutJobs(jobs, records)
    decreases records
  {
    if records != [] {
      UpdateIsPut(jobs[records[0].id := records[0]], records[1..]);
    }
  }

  /** Everything reads back exactly if what was written does. */
  lemma HoldIffReadBack(rows: map<int, Row>, jobs: Jobs, written: set<JobId>, encode: Encoder, decode: Decoder)
    requires RowsFor(rows, jobs, written, encode, decode)
    ensures JobsHold(rows, jobs, decode) <==>
      forall id :: id in written && id in jobs ==> decode(encode(jobs[id])) == Ok(jobs[id])
  {
  }

  // ---- Lease rows ----

  function LeasesOf(rows: map<Uuid, int>): Leases {
    map u | u in rows :: Unsigned64(rows[u])
  }

  predicate LeasesHold(rows: map<Uuid, int>, leases: Leases) {
    LeasesOf(rows) == leases && forall u :: u in rows ==> -I64_LIMIT <= rows[u] < I64_LIMIT
  }

  function DeleteRows(rows: map<Uuid, int>, uuids: seq<Uuid>): map<Uuid, int> {
    if uuids == [] then rows else DeleteRows(rows - {uuids[0]}, uuids[1..])
  }

  /** Fails when the device or the job is already in the table. */
  function InsertRow(rows: map<Uuid, int>, lease: Lease): Option<map<Uuid, int>> {
    if lease.uuid in rows || Signed64(lease.job) in rows.Values then None
      else Some(rows[lease.uuid := Signed64(lease.job)])
  }

  function InsertRows(rows: map<Uuid, int>, leases: seq<Lease>): Option<map<Uuid, int>>
    decreases leases
  {
    if leases == [] then Some(rows)
    else match InsertRow(rows, leases[0])
      case None => None
      case Some(next) => InsertRows(next, leases[1..])
  }

  lemma {:induction false} DeleteRowsHold(rows: map<Uuid, int>, leases: Leases, uuids: seq<Uuid>)
    requires LeasesHold(rows, leases) && ReleaseLeases(leases, uuids).Ok?
    ensures LeasesHold(DeleteRows(rows, uuids), ReleaseLeases(leases, uuids).value)
  {
    if uuids != [] {
      assert LeasesOf(rows - {uuids[0]}) == leases - {uuids[0]};
      DeleteRowsHold(rows - {uuids[0]}, leases - {uuids[0]}, uuids[1..]);
    }
  }

  lemma InsertRowHolds(rows: map<Uuid, int>, leases: Leases, lease: Lease)
    requires LeasesHold(rows, leases) && ValidId(lease.job) && lease.uuid !in leases && lease.job !in leases.Values
    ensures InsertRow(rows, lease).Some? && LeasesHold(InsertRow(rows, lease).value, leases[lease.uuid := lease.job])
  {
    Wraps(lease.job);
    assert rows.Keys == LeasesOf(rows).Keys;
    assert Signed64(lease.job) !in rows.Values by {
      forall u | u in rows ensures rows[u] != Signed64(lease.job) {
        assert leases[u] == Unsigned64(rows[u]) && leases[u] in leases.Values;
      }
    }
    assert LeasesOf(rows[lease.uuid := Signed64(lease.job)]) == leases[lease.uuid := lease.job];
  }

  /** Inserting the acquired leases never meets a device or a job that is already leased. */
  lemma {:induction false} InsertRowsHold(rows: map<Uuid, int>, jobs: Jobs, leases: Leases, acquires: seq<Lease>,
                                          maxLeases: nat)
    requires LeasesHold(rows, leases) && AcquireLeases(jobs, leases, acquires, maxLeases).Ok?
    ensures InsertRows(rows, acquires).Some?
    ensures LeasesHold(InsertRows(rows, acquires).value, AcquireLeases(jobs, leases, acquires, maxLeases).value)
    decreases acquires
  {
    if acquires != [] {
      InsertRowHolds(rows, leases, acquires[0]);
      InsertRowsHold(InsertRow(rows, acquires[0]).value, jobs, leases[acquires[0].uuid := acquires[0].job],
                     acquires[1..], maxLeases);
    }
  }
}
