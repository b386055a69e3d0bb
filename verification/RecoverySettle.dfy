/** What one recovery chunk does to the store, and when the store accepts it. */
module RecoverySettles {
  import opened Basics
  import opened Job
  import opened Store
  import opened Recovery

  // ---- Independent updates and releases ----

  predicate DistinctIds(records: seq<StoredJob>) {
    forall i, j :: 0 <= i < j < |records| ==> records[i].id != records[j].id
  }

  predicate Touches(records: seq<StoredJob>, id: JobId) {
    exists i :: 0 <= i < |records| && records[i].id == id
  }

  predicate Overwrites(before: Jobs, records: seq<StoredJob>, after: Jobs) {
    && after.Keys == before.Keys
    && (forall i :: 0 <= i < |records| ==> records[i].id in after && after[records[i].id] == records[i])
    && (forall id :: id in before && !Touches(records, id) ==> after[id] == before[id])
  }

  lemma UpdateElsewhere(jobs: Jobs, first: StoredJob, other: StoredJob)
    requires other.id != first.id
    ensures UpdateJob(jobs[first.id := first], other).Ok? <==> UpdateJob(jobs, other).Ok?
  {
  }

  lemma OverwritesTwo(jobs: Jobs, first: StoredJob, rest: seq<StoredJob>, after: Jobs)
    requires first.id in jobs && DistinctIds([first] + rest)
    requires Overwrites(jobs[first.id := first], rest, after)
    ensures Overwrites(jobs, [first] + rest, after)
  {
    var all := [first] + rest;
    assert all[0] == first && all[1..] == rest;
    assert !Touches(rest, first.id) by {
      assert forall i :: 0 <= i < |rest| ==> all[i + 1] == rest[i];
    }
    forall id | Touches(rest, id) ensures Touches(all, id) {
      var i :| 0 <= i < |rest| && rest[i].id == id;
      assert all[i + 1].id == id;
    }
    assert Touches(all, first.id);
  }

  predicate EachUpdates(jobs: Jobs, records: seq<StoredJob>) {
    forall i :: 0 <= i < |records| ==> UpdateJob(jobs, records[i]).Ok?
  }

  lemma EachAfterFirst(jobs: Jobs, first: StoredJob, rest: seq<StoredJob>)
    requires DistinctIds([first] + rest)
    ensures EachUpdates(jobs[first.id := first], rest) <==> EachUpdates(jobs, rest)
  {
    forall i | 0 <= i < |rest|
      ensures UpdateJob(jobs[first.id := first], rest[i]).Ok? <==> UpdateJob(jobs, rest[i]).Ok?
    {
      assert ([first] + rest)[i + 1] == rest[i] && ([first] + rest)[0] == first;
      UpdateElsewhere(jobs, first, rest[i]);
    }
  }

  lemma EachOfFirst(jobs: Jobs, first: StoredJob, rest: seq<StoredJob>)
    ensures EachUpdates(jobs, [first] + rest) <==> UpdateJob(jobs, first).Ok? && EachUpdates(jobs, rest)
  {
    var all := [first] + rest;
    assert all[0] == first && forall i :: 0 <= i < |rest| ==> all[i + 1] == rest[i];
    if EachUpdates(jobs, all) {
      assert UpdateJob(jobs, all[0]).Ok?;
      forall i | 0 <= i < |rest| ensures UpdateJob(jobs, rest[i]).Ok? {
        assert UpdateJob(jobs, all[i + 1]).Ok?;
      }
    }
  }

  lemma UpdateFirst(jobs: Jobs, first: StoredJob, rest: seq<StoredJob>)
    ensures UpdateJobs(jobs, [first] + rest) ==
      if UpdateJob(jobs, first).Ok? then UpdateJobs(jobs[first.id := first], rest)
        else Err(UpdateJob(jobs, first).error)
    ensures UpdateJob(jobs, first).Ok? ==> first.id in jobs
  {
    assert ([first] + rest)[1..] == rest;
  }

  lemma DistinctRest(first: StoredJob, rest: seq<StoredJob>)
    requires DistinctIds([first] + rest)
    ensures DistinctIds(rest)
  {
    assert forall i :: 0 <= i < |rest| ==> ([first] + rest)[i + 1] == rest[i];
  }

  /** Updates of different jobs do not interfere: together they are accepted exactly when each of
      them alone is. */
  lemma {:induction false} UpdateDistinct(jobs: Jobs, records: seq<StoredJob>)
    requires DistinctIds(records)
    ensures UpdateJobs(jobs, records).Ok? <==> EachUpdates(jobs, records)
    ensures UpdateJobs(jobs, records).Ok? ==> Overwrites(jobs, records, UpdateJobs(jobs, records).value)
    decreases records
  {
    if records != [] {
      var first, rest := records[0], records[1..];
      var next := jobs[first.id := first];
      assert records == [first] + rest;
      DistinctRest(first, rest);
      UpdateFirst(jobs, first, rest);
      EachOfFirst(jobs, first, rest);
      EachAfterFirst(jobs, first, rest);
      UpdateDistinct(next, rest);
      if UpdateJob(jobs, first).Ok? && UpdateJobs(next, rest).Ok? {
        OverwritesTwo(jobs, first, rest, UpdateJobs(next, rest).value);
      }
    }
  }

  lemma {:induction false} ReleaseDistinct(leases: Leases, uuids: seq<Uuid>)
    requires forall i, j :: 0 <= i < j < |uuids| ==> uuids[i] != uuids[j]
    requires forall i :: 0 <= i < |uuids| ==> uuids[i] in leases && ValidUuid(uuids[i])
    ensures ReleaseLeases(leases, uuids) == Ok(leases - (set u | u in uuids))
  {
    if uuids == [] {
      assert leases - (set u | u in uuids) == leases;
    } else {
      var rest := uuids[1..];
      assert forall i :: 0 <= i < |rest| ==> rest[i] == uuids[i + 1];
      ReleaseDistinct(leases - {uuids[0]}, rest);
      assert (set u | u in uuids) == {uuids[0]} + (set u | u in rest);
      assert leases - {uuids[0]} - (set u | u in rest) == leases - (set u | u in uuids);
    }
  }

  // ---- One record ----

  /** The clock and the revision counter allow the record to be written as recovery wants it. */
  predicate CanSettle(record: StoredJob, answers: Answers, now: Time) {
    && record.revision < U64_MAX
    && (GivesUp(record, answers) && record.execution.startTime.Some? ==> record.execution.startTime.value <= now)
  }

  lemma GoneReasonFits()
    ensures BoundedText(FailureReason(LostProcessGone), MAX_FAILURE_REASON_BYTES)
  {
  }

  lemma MismatchReasonFits()
    ensures BoundedText(FailureReason(LostIdentityMismatch), MAX_FAILURE_REASON_BYTES)
  {
  }

  lemma MissingReasonFits()
    ensures BoundedText(FailureReason(LostIdentityMissing), MAX_FAILURE_REASON_BYTES)
  {
  }

  lemma ReasonFits(d: Decision)
    requires d.LostProcessGone? || d.LostIdentityMismatch? || d.LostIdentityMissing?
    ensures BoundedText(FailureReason(d), MAX_FAILURE_REASON_BYTES)
  {
    GoneReasonFits();
    MismatchReasonFits();
    MissingReasonFits();
  }

  lemma AfterExecution(record: StoredJob, answers: Answers, now: Time)
    requires ValidExecution(record) && Changes(record, answers)
    ensures ValidExecution(After(record, answers, now)) <==>
      (GivesUp(record, answers) && record.execution.startTime.Some? ==> record.execution.startTime.value <= now)
  {
    if GivesUp(record, answers) {
      ReasonFits(Decide(record, answers));
    }
  }

  lemma AfterUpdates(jobs: Jobs, id: JobId, answers: Answers, now: Time)
    requires id in jobs && ConsistentRecord(id, jobs[id]) && Changes(jobs[id], answers)
    ensures UpdateJob(jobs, After(jobs[id], answers, now)).Ok? <==> CanSettle(jobs[id], answers, now)
  {
    AfterExecution(jobs[id], answers, now);
  }

  /** Nothing is left to do for a record that recovery has been over. */
  lemma AfterSettled(record: StoredJob, answers: Answers, now: Time)
    ensures !Changes(After(record, answers, now), answers)
  {
  }

  // ---- Several records ----

  function SettleJobs(jobs: Jobs, ids: set<JobId>, answers: Answers, now: Time): Jobs {
    map id | id in jobs :: if id in ids then After(jobs[id], answers, now) else jobs[id]
  }

  predicate Keeps(jobs: Jobs, ids: set<JobId>, answers: Answers, id: JobId) {
    id in ids && id in jobs ==> !GivesUp(jobs[id], answers)
  }

  function SettleLeases(jobs: Jobs, leases: Leases, ids: set<JobId>, answers: Answers): Leases {
    map u | u in leases && Keeps(jobs, ids, answers, leases[u]) :: leases[u]
  }

  /** The store with the jobs `ids` settled, `writes` mutations later. */
  function Settle(s: StoreState, ids: set<JobId>, answers: Answers, now: Time, writes: nat): StoreState {
    StoreState(SettleJobs(s.jobs, ids, answers, now), SettleLeases(s.jobs, s.leases, ids, answers), s.revision + writes)
  }

  function Ids(c: seq<Entry>): set<JobId> {
    set i | 0 <= i < |c| :: c[i].update.id
  }

  predicate PlannedAt(s: StoreState, e: Entry, answers: Answers, now: Time) {
    var id := e.update.id;
    id in s.jobs && Changes(s.jobs[id], answers) && e == EntryFor(s.jobs[id], s.leases, answers, now)
  }

  /** `c` is what a plan made now would say about its jobs. */
  predicate Planned(s: StoreState, c: seq<Entry>, answers: Answers, now: Time) {
    && DistinctIds(Updates(c))
    && forall i :: 0 <= i < |c| ==> PlannedAt(s, c[i], answers, now)
  }

  predicate AllSettle(s: StoreState, c: seq<Entry>, answers: Answers, now: Time)
    requires Planned(s, c, answers, now)
  {
    forall i :: 0 <= i < |c| ==> CanSettle(s.jobs[c[i].update.id], answers, now)
  }

  lemma ChunkUpdates(s: StoreState, c: seq<Entry>, answers: Answers, now: Time)
    requires JobsSound(s.jobs) && Planned(s, c, answers, now)
    ensures UpdateJobs(s.jobs, Updates(c)) ==
      if AllSettle(s, c, answers, now) then Ok(SettleJobs(s.jobs, Ids(c), answers, now))
      else UpdateJobs(s.jobs, Updates(c))
    ensures UpdateJobs(s.jobs, Updates(c)).Ok? <==> AllSettle(s, c, answers, now)
  {
    UpdateDistinct(s.jobs, Updates(c));
    forall i | 0 <= i < |c|
      ensures UpdateJob(s.jobs, Updates(c)[i]).Ok? <==> CanSettle(s.jobs[c[i].update.id], answers, now)
    {
      assert PlannedAt(s, c[i], answers, now) && ConsistentRecord(c[i].update.id, s.jobs[c[i].update.id]);
      AfterUpdates(s.jobs, c[i].update.id, answers, now);
    }
    if AllSettle(s, c, answers, now) {
      OverwriteIsSettle(s, c, answers, now, UpdateJobs(s.jobs, Updates(c)).value);
    }
  }

  lemma OverwriteIsSettle(s: StoreState, c: seq<Entry>, answers: Answers, now: Time, after: Jobs)
    requires Planned(s, c, answers, now) && Overwrites(s.jobs, Updates(c), after)
    ensures after == SettleJobs(s.jobs, Ids(c), answers, now)
  {
    forall id | id in s.jobs ensures after[id] == SettleJobs(s.jobs, Ids(c), answers, now)[id] {
      if id in Ids(c) {
        var i :| 0 <= i < |c| && c[i].update.id == id;
        assert PlannedAt(s, c[i], answers, now) && Updates(c)[i] == c[i].update;
      } else {
        assert !Touches(Updates(c), id);
      }
    }
  }

  lemma OnlyLease(jobs: Jobs, leases: Leases, id: JobId)
    requires LeaseMatrix(jobs, leases) && id in jobs && Leaseable(jobs[id].state)
    ensures LeaseOf(leases, id).Some?
    ensures forall u :: u in leases && leases[u] == id ==> LeaseOf(leases, id) == Some(u)
  {
  }

  predicate Released(s: StoreState, ids: set<JobId>, answers: Answers, u: Uuid) {
    u in s.leases && !Keeps(s.jobs, ids, answers, s.leases[u])
  }

  lemma PlannedPrefix(s: StoreState, c: seq<Entry>, answers: Answers, now: Time, n: nat)
    requires Planned(s, c, answers, now) && n <= |c|
    ensures Planned(s, c[..n], answers, now)
  {
    assert forall i :: 0 <= i < n ==> Updates(c[..n])[i] == Updates(c)[i];
  }

  /** A chunk releases the lease of every job it gives up, each once. */
  lemma {:induction false} ReleasesAre(s: StoreState, c: seq<Entry>, answers: Answers, now: Time)
    requires LeaseMatrix(s.jobs, s.leases) && Planned(s, c, answers, now)
    ensures forall u :: u in Releases(c) <==> Released(s, Ids(c), answers, u)
    ensures forall i, j :: 0 <= i < j < |Releases(c)| ==> Releases(c)[i] != Releases(c)[j]
  {
    if c != [] {
      var n := |c| - 1;
      var id := c[n].update.id;
      PlannedPrefix(s, c, answers, now, n);
      ReleasesAre(s, c[..n], answers, now);
      assert PlannedAt(s, c[n], answers, now);
      OnlyLease(s.jobs, s.leases, id);
      assert Ids(c) == Ids(c[..n]) + {id};
      assert id !in Ids(c[..n]) by {
        assert forall i :: 0 <= i < n ==> Updates(c)[i].id != Updates(c)[n].id;
      }
      forall u ensures Released(s, Ids(c), answers, u) <==>
        Released(s, Ids(c[..n]), answers, u) || (c[n].release == Some(u))
      {
      }
    }
  }

  lemma ReleasedLeave(s: StoreState, ids: set<JobId>, answers: Answers, gone: set<Uuid>)
    requires forall u :: u in gone <==> Released(s, ids, answers, u)
    ensures s.leases - gone == SettleLeases(s.jobs, s.leases, ids, answers)
  {
    forall u | u in s.leases ensures u in gone <==> !Keeps(s.jobs, ids, answers, s.leases[u]) {
      assert u in gone <==> Released(s, ids, answers, u);
    }
  }

  lemma ReleasedAreLeased(s: StoreState, ids: set<JobId>, answers: Answers, uuids: seq<Uuid>)
    requires Consistent(s) && forall u :: u in uuids <==> Released(s, ids, answers, u)
    ensures forall i :: 0 <= i < |uuids| ==> uuids[i] in s.leases && ValidUuid(uuids[i])
  {
    forall i | 0 <= i < |uuids| ensures uuids[i] in s.leases && ValidUuid(uuids[i]) {
      assert Released(s, ids, answers, uuids[i]);
    }
  }

  lemma ChunkReleases(s: StoreState, c: seq<Entry>, answers: Answers, now: Time)
    requires Consistent(s) && Planned(s, c, answers, now)
    ensures ReleaseLeases(s.leases, Releases(c)) == Ok(SettleLeases(s.jobs, s.leases, Ids(c), answers))
  {
    ReleasesAre(s, c, answers, now);
    var uuids := Releases(c);
    ReleasedAreLeased(s, Ids(c), answers, uuids);
    ReleaseDistinct(s.leases, uuids);
    var gone := set u | u in uuids;
    assert forall u :: u in gone <==> u in uuids;
    ReleasedLeave(s, Ids(c), answers, gone);
  }

  lemma SettledMatrix(jobs: Jobs, leases: Leases, ids: set<JobId>, answers: Answers, now: Time)
    requires LeaseMatrix(jobs, leases)
    ensures LeaseMatrix(SettleJobs(jobs, ids, answers, now), SettleLeases(jobs, leases, ids, answers))
  {
    var after, kept := SettleJobs(jobs, ids, answers, now), SettleLeases(jobs, leases, ids, answers);
    forall id | id in after && Leaseable(after[id].state) ensures id in kept.Values {
      assert id in leases.Values;
      var u :| u in leases && leases[u] == id;
      assert kept[u] == id;
    }
  }

  /** A mutation that only updates and releases is decided by its updates and the last revision. */
  lemma UpdatesDecide(s: StoreState, config: StoreConfig, updates: seq<StoredJob>, releases: seq<Uuid>,
                      allowed: bool, t: StoreState)
    requires 1 <= |updates| + |releases| <= MAX_ENTRIES && (UpdateJobs(s.jobs, updates).Ok? <==> allowed)
    requires allowed ==> UpdateJobs(s.jobs, updates) == Ok(t.jobs) && LeaseMatrix(t.jobs, t.leases)
    requires ReleaseLeases(s.leases, releases) == Ok(t.leases) && t.revision == s.revision + 1
    ensures var r := ApplyMutation(s, config, StateMutation(s.revision, [], updates, [], releases));
      && (r.Ok? <==> s.revision != U64_MAX && allowed)
      && (r.Ok? ==> r.value == t)
  {
  }

  /** The store accepts a planned chunk exactly when the clock and the revisions allow it, and then
      the chunk settles its jobs and nothing else. */
  lemma ChunkApplies(s: StoreState, config: StoreConfig, c: seq<Entry>, answers: Answers, now: Time)
    requires Consistent(s) && Planned(s, c, answers, now) && 1 <= Size(c) <= MAX_ENTRIES
    ensures var r := ApplyMutation(s, config, MutationOf(s.revision, c));
      && (r.Ok? <==> s.revision != U64_MAX && AllSettle(s, c, answers, now))
      && (r.Ok? ==> r.value == Settle(s, Ids(c), answers, now, 1))
  {
    ChunkUpdates(s, c, answers, now);
    ChunkReleases(s, c, answers, now);
    SettledMatrix(s.jobs, s.leases, Ids(c), answers, now);
    UpdatesDecide(s, config, Updates(c), Releases(c), AllSettle(s, c, answers, now),
                  Settle(s, Ids(c), answers, now, 1));
  }

  // ---- One chunk after another ----

  lemma SettleTwice(s: StoreState, a: set<JobId>, b: set<JobId>, answers: Answers, now: Time, m: nat, n: nat)
    ensures Settle(Settle(s, a, answers, now, m), b, answers, now, n) == Settle(s, a + b, answers, now, m + n)
  {
    var mid := Settle(s, a, answers, now, m);
    forall id | id in s.jobs
      ensures SettleJobs(mid.jobs, b, answers, now)[id] == SettleJobs(s.jobs, a + b, answers, now)[id]
    {
      AfterSettled(s.jobs[id], answers, now);
    }
    forall id ensures Keeps(s.jobs, a + b, answers, id) <==>
      Keeps(s.jobs, a, answers, id) && Keeps(mid.jobs, b, answers, id)
    {
      if id in s.jobs {
        AfterSettled(s.jobs[id], answers, now);
      }
    }
  }

  /** The rest of a plan stays a plan after an earlier part of it has been written. */
  lemma RestPlanned(s: StoreState, c: seq<Entry>, d: seq<Entry>, answers: Answers, now: Time)
    requires LeaseMatrix(s.jobs, s.leases) && Planned(s, c + d, answers, now)
    ensures Planned(s, c, answers, now)
    ensures Planned(Settle(s, Ids(c), answers, now, 1), d, answers, now)
  {
    PlannedPrefix(s, c + d, answers, now, |c|);
    assert (c + d)[..|c|] == c;
    var t := Settle(s, Ids(c), answers, now, 1);
    assert forall i :: 0 <= i < |d| ==> Updates(c + d)[|c| + i] == Updates(d)[i];
    forall i | 0 <= i < |d| ensures PlannedAt(t, d[i], answers, now) {
      assert (c + d)[|c| + i] == d[i];
      assert PlannedAt(s, d[i], answers, now);
      var id := d[i].update.id;
      assert id !in Ids(c) by {
        assert forall k :: 0 <= k < |c| ==> Updates(c + d)[k] == c[k].update;
      }
      SettledMatrix(s.jobs, s.leases, Ids(c), answers, now);
      OnlyLease(s.jobs, s.leases, id);
      OnlyLease(t.jobs, t.leases, id);
    }
  }
}
