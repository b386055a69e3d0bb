/** What loading and writing the SQLite tables answer, case by case (sqlite_state_store.cpp). */
module TableChecks {
  import opened Basics
  import opened Job
  import opened Store
  import opened SqliteRows
  import opened SqliteTables
  import opened SqliteStores
  import J = JobChecks
  import S = StoreChecks

  // ---- Leases ----

  /** A lease row is refused exactly if its device or its job has one already. */
  lemma InsertMeans(rows: map<Uuid, int>, lease: Lease)
    ensures InsertRow(rows, lease) == None <==>
      lease.uuid in rows || exists u :: u in rows && rows[u] == Signed64(lease.job)
    ensures InsertRow(rows, lease) != None ==> InsertRow(rows, lease).value == rows[lease.uuid := Signed64(lease.job)]
  {
  }

  // ---- Loading ----

  /** How far the rows can be read, and what the first one that cannot says. */
  lemma {:induction false} ReadsUpTo(rows: map<int, Row>, keys: seq<int>, decode: Decoder) returns (i: nat)
    requires Keyed(rows, decode) && Distinct(keys) && forall k :: 0 <= k < |keys| ==> keys[k] in rows
    ensures i <= |keys| && forall k :: 0 <= k < i ==> decode(rows[keys[k]]).Ok?
    ensures i < |keys| ==>
      decode(rows[keys[i]]).Err? && DecodeJobs(rows, keys, decode) == Err(decode(rows[keys[i]]).error)
    ensures i == |keys| ==> DecodeJobs(rows, keys, decode).Ok?
    decreases keys
  {
    if keys == [] || decode(rows[keys[0]]).Err? {
      i := 0;
    } else {
      var rest := keys[1..];
      FirstDistinct(keys);
      var n := ReadsUpTo(rows, rest, decode);
      i := n + 1;
      forall k | 0 <= k < i ensures decode(rows[keys[k]]).Ok? {
        assert k > 0 ==> keys[k] == rest[k - 1];
      }
      if n == |rest| {
        DecodedJobsRead(rows, rest, decode);
        NotReadTwice(rows, rest, DecodeJobs(rows, rest, decode).value, decode, keys[0]);
      } else {
        assert keys[i] == rest[n];
      }
    }
  }

  /** The unreadable row of the smallest key. */
  ghost predicate FirstBad(rows: map<int, Row>, decode: Decoder, k: int, e: StoreError) {
    k in rows && decode(rows[k]) == Err(e) && forall j :: j in rows && j < k ==> decode(rows[j]).Ok?
  }

  ghost predicate AllReadable(rows: map<int, Row>, decode: Decoder) {
    forall k :: k in rows ==> decode(rows[k]).Ok?
  }

  /** What reading the job table comes to. */
  ghost predicate JobsRead(rows: map<int, Row>, decode: Decoder, r: Result<Jobs, StoreError>) {
    if AllReadable(rows, decode) then r.Ok? && JobsHold(rows, r.value, decode)
    else r.Err? && exists k :: FirstBad(rows, decode, k, r.error)
  }

  lemma FirstIsSmallest(rows: map<int, Row>, keys: seq<int>, decode: Decoder, i: nat)
    requires keys == InOrder(rows.Keys) && i < |keys| && keys[i] in rows && decode(rows[keys[i]]).Err?
    requires forall k :: 0 <= k < i ==> keys[k] in rows && decode(rows[keys[k]]).Ok?
    ensures FirstBad(rows, decode, keys[i], decode(rows[keys[i]]).error)
  {
    forall j | j in rows && j < keys[i] ensures decode(rows[j]).Ok? {
      assert j in keys;
      var n :| 0 <= n < |keys| && keys[n] == j;
    }
  }

  lemma EveryKeyListed(rows: map<int, Row>, keys: seq<int>)
    requires keys == InOrder(rows.Keys)
    ensures forall k :: k in rows ==> k in keys
  {
  }

  lemma AllRead(rows: map<int, Row>, keys: seq<int>, decode: Decoder)
    requires Keyed(rows, decode) && (forall k :: 0 <= k < |keys| ==> keys[k] in rows && decode(rows[keys[k]]).Ok?)
    requires (forall k :: k in rows ==> k in keys) && DecodeJobs(rows, keys, decode).Ok?
    ensures AllReadable(rows, decode) && JobsHold(rows, DecodeJobs(rows, keys, decode).value, decode)
  {
    DecodedJobsRead(rows, keys, decode);
    ReadAllHolds(rows, keys, DecodeJobs(rows, keys, decode).value, decode);
  }

  lemma RowsRead(rows: map<int, Row>, keys: seq<int>, decode: Decoder)
    requires Keyed(rows, decode) && keys == InOrder(rows.Keys) && forall k :: 0 <= k < |keys| ==> keys[k] in rows
    ensures JobsRead(rows, decode, DecodeJobs(rows, keys, decode))
  {
    var i := ReadsUpTo(rows, keys, decode);
    if i < |keys| {
      FirstIsSmallest(rows, keys, decode, i);
    } else {
      EveryKeyListed(rows, keys);
      AllRead(rows, keys, decode);
    }
  }

  /** Each lease has a proper device, and devices and active jobs correspond one to one. */
  predicate LeasesOk(t: Tables, jobs: Jobs) {
    && (forall u :: u in t.leases ==> J.TextOf(u, 1, 96) && S.NumberOf(Unsigned64(t.leases[u])))
    && S.OneEach(jobs, LeasesOf(t.leases))
  }

  /** The tables are refused for a revision that does not exist, then for the unreadable row of the smallest key,
      then for leases that do not correspond to the jobs. */
  ghost predicate LoadAnswers(t: Tables, read: Result<Jobs, StoreError>, r: Result<StoreState, StoreError>) {
    if t.revision < 0 then r == Err(BackendUnavailable)
    else if read.Err? then r == Err(read.error)
    else if !LeasesOk(t, read.value) then r == Err(InvalidLease)
    else r == Ok(StoreState(read.value, LeasesOf(t.leases), t.revision))
  }

  lemma LeasesMean(t: Tables, jobs: Jobs)
    ensures LeaseRowsOk(t.leases, jobs) && LeaseMatrix(jobs, LeasesOf(t.leases)) <==> LeasesOk(t, jobs)
  {
    S.MatrixMeans(jobs, LeasesOf(t.leases));
    assert forall u :: u in t.leases ==> u in LeasesOf(t.leases) && LeasesOf(t.leases)[u] == Unsigned64(t.leases[u]);
  }

  /** Every load. */
  lemma LoadMeans(t: Tables) returns (read: Result<Jobs, StoreError>)
    requires WellTyped(t)
    ensures JobsRead(t.jobs, DecodeRow, read) && LoadAnswers(t, read, DecodeTables(t))
  {
    var keys := InOrder(t.jobs.Keys);
    assert forall i :: 0 <= i < |keys| ==> keys[i] in keys;
    TablesKeyed(t);
    RowsRead(t.jobs, keys, DecodeRow);
    read := DecodeJobs(t.jobs, keys, DecodeRow);
    if read.Ok? {
      LeasesMean(t, read.value);
    }
  }

  // ---- Writing ----

  /** The error of a transaction, in the order of its steps: the begin, the load, the core, the column of the
      revision, and the statements of its entries with the revision and the commit. */
  function WriteError(t: Tables, config: StoreConfig, m: StateMutation, failAt: nat): Option<StoreError> {
    var entries := |m.creates| + |m.updates| + |m.releases| + |m.acquires|;
    if failAt == 0 then Some(BackendUnavailable)
    else if DecodeTables(t).Err? then Some(DecodeTables(t).error)
    else
      var core := ApplyMutation(DecodeTables(t).value, config, m);
      if core.Err? then Some(core.error)
      else if core.value.revision > 0x7FFF_FFFF_FFFF_FFFF then Some(InvalidMutation)
      else if failAt <= entries + 2 then Some(BackendUnavailable)
      else None
  }

  /** Every transaction, whichever statement fails: an error leaves the tables as they were. */
  lemma WriteMeans(t: Tables, config: StoreConfig, m: StateMutation, failAt: nat)
    requires WellTyped(t) && Writable(m.creates) && Writable(m.updates)
    ensures var r := ApplyRows(t, config, m, failAt);
      r.1 == WriteError(t, config, m, failAt) && (r.1 != None ==> r.0 == t)
  {
    CommitsExactly(t, config, m, failAt);
  }
}
