/** The mutation core as the loops it is written in, and the single-writer store around it
    (mutation_core.cpp, in_memory_state_store.cpp, store_task_runner.cpp). */
module StateStores {
  import opened Basics
  import opened Job
  import opened Store

  /** The closing pass of a mutation: it counts the leases of every job. */
  method CheckLeaseMatrix(jobs: Jobs, leases: Leases) returns (ok: bool)
    ensures ok <==> LeaseMatrix(jobs, leases)
  {
    var unchecked := leases.Keys;
    while unchecked != {}
      invariant unchecked <= leases.Keys
      invariant forall u :: u in leases && u !in unchecked ==> leases[u] in jobs && Leaseable(jobs[leases[u]].state)
    {
      var u :| u in unchecked;
      if leases[u] !in jobs || !Leaseable(jobs[leases[u]].state) {
        return false;
      }
      unchecked := unchecked - {u};
    }
    ok := CheckJobLeases(jobs, leases);
    if !ok {
      return;
    }
    forall u, v | u in leases && v in leases && leases[u] == leases[v] ensures u == v {
      assert LeaseCountFits(leases, leases[u], jobs[leases[u]].state);
    }
  }

  method CheckJobLeases(jobs: Jobs, leases: Leases) returns (ok: bool)
    ensures ok <==> forall id :: id in jobs ==> LeaseCountFits(leases, id, jobs[id].state)
  {
    var order := Listing(jobs.Keys);
    for i := 0 to |order|
      invariant forall k :: 0 <= k < i ==> order[k] in jobs && LeaseCountFits(leases, order[k], jobs[order[k]].state)
    {
      var id := order[i];
      assert id in order;
      var count := CountLeases(leases, id);
      if (Leaseable(jobs[id].state) && count != 1) || (!Leaseable(jobs[id].state) && count != 0) {
        assert !LeaseCountFits(leases, id, jobs[id].state);
        return false;
      }
    }
    forall id | id in jobs ensures LeaseCountFits(leases, id, jobs[id].state) {
      assert id in order;
    }
    return true;
  }

  method Listing(ids: set<JobId>) returns (order: seq<JobId>)
    ensures forall k :: k in order <==> k in ids
  {
    order := InOrder(ids);
  }

  predicate LeaseCountFits(leases: Leases, id: JobId, state: JobState) {
    HeldOnce(leases, id) && (Leaseable(state) <==> id in leases.Values)
  }

  predicate HeldOnce(leases: Leases, id: JobId) {
    forall u, v :: u in leases && v in leases && leases[u] == id && leases[v] == id ==> u == v
  }

  method CountLeases(leases: Leases, id: JobId) returns (count: nat)
    ensures count == 0 <==> id !in leases.Values
    ensures count <= 1 <==> HeldOnce(leases, id)
  {
    count := 0;
    var rest := leases.Keys;
    ghost var first: Uuid, second: Uuid := "", "";
    while rest != {}
      invariant rest <= leases.Keys
      invariant forall u :: u in leases && u !in rest && leases[u] == id ==> count >= 1 && (count == 1 ==> u == first)
      invariant count >= 1 ==> first in leases && first !in rest && leases[first] == id
      invariant count >= 2 ==> second in leases && second !in rest && leases[second] == id && first != second
    {
      var u :| u in rest;
      if leases[u] == id {
        if count == 0 { first := u; } else { second := u; }
        count := count + 1;
      }
      rest := rest - {u};
    }
  }

  /** `apply_mutation`: working copies are edited entry by entry, and the first bad entry wins. */
  method ApplyEntries(s: StoreState, config: StoreConfig, m: StateMutation)
    returns (outcome: Result<StoreState, StoreError>)
    ensures outcome == ApplyMutation(s, config, m)
  {
    if m.expectedRevision != s.revision {
      return Err(RevisionConflict);
    }
    if EntryCount(m) == 0 || EntryCount(m) > MAX_ENTRIES || s.revision == U64_MAX {
      return Err(InvalidMutation);
    }
    var updated := JobEntries(s.jobs, m, config.maxJobs);
    if updated.Err? {
      return Err(updated.error);
    }
    var leases := LeaseEntries(updated.value, s.leases, m, config.maxLeases);
    if leases.Err? {
      return Err(leases.error);
    }
    var matrix := CheckLeaseMatrix(updated.value, leases.value);
    if !matrix {
      return Err(InvalidLease);
    }
    return Ok(StoreState(updated.value, leases.value, s.revision + 1));
  }

  method JobEntries(jobs: Jobs, m: StateMutation, maxJobs: nat) returns (r: Result<Jobs, StoreError>)
    ensures var created := CreateJobs(jobs, m.creates, maxJobs);
      r == if created.Err? then created else UpdateJobs(created.value, m.updates)
  {
    r := CreateEntries(jobs, m.creates, maxJobs);
    if r.Ok? {
      r := UpdateEntries(r.value, m.updates);
    }
  }

  method CreateEntries(jobs: Jobs, records: seq<StoredJob>, maxJobs: nat) returns (r: Result<Jobs, StoreError>)
    ensures r == CreateJobs(jobs, records, maxJobs)
  {
    var next := jobs;
    for i := 0 to |records|
      invariant CreateJobs(jobs, records, maxJobs) == CreateJobs(next, records[i..], maxJobs)
    {
      assert records[i..][0] == records[i] && records[i..][1..] == records[i + 1..];
      var one := CreateJob(next, records[i], maxJobs);
      if one.Err? {
        return one;
      }
      next := one.value;
    }
    assert records[|records|..] == [];
    return Ok(next);
  }

  method UpdateEntries(jobs: Jobs, records: seq<StoredJob>) returns (r: Result<Jobs, StoreError>)
    ensures r == UpdateJobs(jobs, records)
  {
    var next := jobs;
    for i := 0 to |records|
      invariant UpdateJobs(jobs, records) == UpdateJobs(next, records[i..])
    {
      assert records[i..][0] == records[i] && records[i..][1..] == records[i + 1..];
      var one := UpdateJob(next, records[i]);
      if one.Err? {
        return one;
      }
      next := one.value;
    }
    assert records[|records|..] == [];
    return Ok(next);
  }

  /** Releases run before acquisitions, so a device can change hands in one mutation. */
  method LeaseEntries(jobs: Jobs, leases: Leases, m: StateMutation, maxLeases: nat)
    returns (r: Result<Leases, StoreError>)
    ensures var released := ReleaseLeases(leases, m.releases);
      r == if released.Err? then released else AcquireLeases(jobs, released.value, m.acquires, maxLeases)
  {
    var next := leases;
    for i := 0 to |m.releases|
      invariant ReleaseLeases(leases, m.releases) == ReleaseLeases(next, m.releases[i..])
    {
      assert m.releases[i..][0] == m.releases[i] && m.releases[i..][1..] == m.releases[i + 1..];
      var one := ReleaseLease(next, m.releases[i]);
      if one.Err? {
        return one;
      }
      next := one.value;
    }
    assert m.releases[|m.releases|..] == [];
    ghost var kept := next;
    for i := 0 to |m.acquires|
      invariant AcquireLeases(jobs, kept, m.acquires, maxLeases) ==
        AcquireLeases(jobs, next, m.acquires[i..], maxLeases)
    {
      assert m.acquires[i..][0] == m.acquires[i] && m.acquires[i..][1..] == m.acquires[i + 1..];
      var one := AcquireLease(jobs, next, m.acquires[i], maxLeases);
      if one.Err? {
        return one;
      }
      next := one.value;
    }
    assert m.acquires[|m.acquires|..] == [];
    return Ok(next);
  }

  // ---- Writes as the daemon sees them ----

  /** What happens to one write: the backend answers, the backend is unavailable and nothing is
      written, or the daemon dies just before or just after the write. */
  datatype Fate = Answered | Unavailable | CrashBefore | CrashAfter

  /** `code` is `None` for an accepted write; `alive` is false when the daemon died here. */
  datatype Written = Written(store: StoreState, code: Option<StoreError>, alive: bool)

  function Write(s: StoreState, config: StoreConfig, m: StateMutation, fate: Fate): Written {
    match fate
    case CrashBefore => Written(s, None, false)
    case Unavailable => Written(s, Some(BackendUnavailable), true)
    case Answered =>
      (match ApplyMutation(s, config, m)
       case Ok(next) => Written(next, None, true)
       case Err(e) => Written(s, Some(e), true))
    case CrashAfter =>
      (match ApplyMutation(s, config, m)
       case Ok(next) => Written(next, None, false)
       case Err(_) => Written(s, None, false))
  }

  /** What becomes of a write whose check comes to `error`, and to `next` without one. */
  lemma FateDecides(s: StoreState, config: StoreConfig, m: StateMutation, fate: Fate, error: Option<StoreError>,
                    next: StoreState)
    requires ApplyMutation(s, config, m) == if error == None then Ok(next) else Err(error.value)
    ensures var w := Write(s, config, m, fate);
      && (w.alive <==> fate == Answered || fate == Unavailable)
      && (fate == Answered ==> w.code == error)
      && (fate == Unavailable ==> w.code == Some(BackendUnavailable))
      && w.store == if (fate == Answered || fate == CrashAfter) && error == None then next else s
  {
  }

  /** Whatever happens to a write, the store is either untouched or one accepted mutation further. */
  lemma WriteKeeps(s: StoreState, config: StoreConfig, m: StateMutation, fate: Fate)
    requires Consistent(s)
    ensures var w := Write(s, config, m, fate);
      && Consistent(w.store) && JobsEvolve(s.jobs, w.store.jobs)
      && (RevisionsFit(s.jobs) ==> RevisionsFit(w.store.jobs))
      && (w.store == s || ApplyMutation(s, config, m) == Ok(w.store))
      && (w.alive && w.code.None? <==> fate.Answered? && ApplyMutation(s, config, m).Ok?)
  {
    if ApplyMutation(s, config, m).Ok? {
      ApplyKeeps(s, config, m);
    }
  }

  class StateStore {
    var state: StoreState
    const config: StoreConfig

    constructor (config: StoreConfig)
      ensures this.config == config && state == EMPTY_STORE
    {
      this.config := config;
      state := EMPTY_STORE;
    }

    /** The outcome of a write under `fate`. A rejected or failed write changes nothing. */
    method Apply(m: StateMutation, fate: Fate) returns (code: Option<StoreError>, alive: bool)
      modifies this
      ensures Written(state, code, alive) == Write(old(state), config, m, fate)
    {
      if fate.CrashBefore? {
        return None, false;
      }
      if fate.Unavailable? {
        return Some(BackendUnavailable), true;
      }
      var outcome := ApplyEntries(state, config, m);
      match outcome {
        case Ok(next) =>
          state := next;
          return None, fate.Answered?;
        case Err(e) =>
          if fate.Answered? {
            return Some(e), true;
          }
          return None, false;
      }
    }
  }
}
