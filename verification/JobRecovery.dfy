/** The recovery object: the planning loop and the chunked writes over the live store and queue. */
module JobRecoveries {
  import opened Basics
  import opened Job
  import opened Store
  import opened Queue
  import opened StateStores
  import opened Recovery
  import opened RecoveryRuns

  method FindLeaseGpu(leases: Leases, id: JobId) returns (found: Option<Uuid>)
    ensures found == LeaseOf(leases, id)
  {
    found := None;
    var rest := leases.Keys;
    ghost var held := set u | u in leases && leases[u] == id;
    while rest != {}
      invariant rest <= leases.Keys
      invariant found.None? ==> forall u :: u in held ==> u in rest
      invariant found.Some? ==> found.value in held
      invariant found.Some? ==> forall u :: u in held && u !in rest ==> u == found.value || TextLess(found.value, u)
      decreases rest
    {
      var u :| u in rest;
      rest := rest - {u};
      if leases[u] == id {
        if found.Some? {
          TextLessTotal(u, found.value);
        }
        if found.None? || TextLess(u, found.value) {
          if found.Some? {
            Below(u, found.value, held, rest + {u});
          }
          found := Some(u);
        }
      }
    }
    if found.Some? {
      FirstTextUnique(held, found.value, FirstText(held));
    } else {
      assert held == {};
    }
  }

  lemma Below(u: string, first: string, held: set<string>, rest: set<string>)
    requires TextLess(u, first)
    requires forall v :: v in held && v !in rest ==> v == first || TextLess(first, v)
    ensures forall v :: v in held && v !in rest ==> TextLess(u, v)
  {
    forall v | v in held && v !in rest ensures TextLess(u, v) {
      if v != first {
        TextLessTransitive(u, first, v);
      }
    }
  }

  method PlanSnapshot(snapshot: Snapshot, answers: Answers, now: Time)
    returns (outcomes: seq<Outcome>, plan: seq<Entry>)
    ensures outcomes == Outcomes(snapshot.jobs, |snapshot.jobs|, snapshot.leases, answers)
    ensures plan == PlanOf(snapshot, answers, now)
    ensures |outcomes| == |snapshot.jobs|
    ensures forall i :: 0 <= i < |outcomes| ==>
      Reported(snapshot.jobs[i], snapshot.leases, answers(snapshot.jobs[i].id), outcomes[i])
  {
    OutcomesMean(snapshot.jobs, |snapshot.jobs|, snapshot.leases, answers);
    outcomes, plan := [], [];
    for i := 0 to |snapshot.jobs|
      invariant outcomes == Outcomes(snapshot.jobs, i, snapshot.leases, answers)
      invariant plan == Plan(snapshot.jobs, i, snapshot.leases, answers, now)
    {
      var record := snapshot.jobs[i];
      var decision := Decide(record, answers);
      var outcome := Outcome(record.id, record.state, decision, None);
      if decision.AdoptedPromotedToRunning? {
        plan := plan + [Entry(record.(state := JobState.Running, revision := record.revision + 1), None)];
      } else if decision.LostProcessGone? || decision.LostIdentityMismatch? || decision.LostIdentityMissing? {
        var release := FindLeaseGpu(snapshot.leases, record.id);
        var execution := record.execution.(failureReason := Some(FailureReason(decision)), endTime := Some(now));
        outcome := outcome.(released := release);
        plan := plan + [Entry(record.(state := JobState.Lost, revision := record.revision + 1, execution := execution),
                              release)];
      }
      outcomes := outcomes + [outcome];
    }
  }

  /** Filling one chunk and writing it when the next entry does not fit. */
  function WriteEntries(s: StoreState, config: StoreConfig, expected: int, open: seq<Entry>, rest: seq<Entry>,
                        fates: Fates, k: nat): Progress
    decreases rest
  {
    if rest == [] && open == [] then Progress(s, None, true)
    else if rest != [] && Size(open) + Weight(rest[0]) <= MAX_ENTRIES then
      WriteEntries(s, config, expected, open + [rest[0]], rest[1..], fates, k)
    else
      var w := Write(s, config, MutationOf(expected, open), fates(k));
      if rest == [] || !w.alive || w.code.Some? then Progress(w.store, w.code, w.alive)
      else WriteEntries(w.store, config, w.store.revision, [rest[0]], rest[1..], fates, k + 1)
  }

  lemma FirstChunk(s: StoreState, config: StoreConfig, expected: int, c: seq<Entry>, chunks: seq<seq<Entry>>,
                   fates: Fates, k: nat)
    ensures var w := Write(s, config, MutationOf(expected, c), fates(k));
      WriteAll(s, config, expected, [c] + chunks, fates, k) ==
      if !w.alive || w.code.Some? then Progress(w.store, w.code, w.alive)
      else WriteAll(w.store, config, w.store.revision, chunks, fates, k + 1)
  {
    assert ([c] + chunks)[1..] == chunks;
  }

  /** Writing while filling is the same as cutting the plan first and writing the chunks then. */
  lemma {:induction false} EntriesAreChunks(s: StoreState, config: StoreConfig, expected: int, open: seq<Entry>,
                                            rest: seq<Entry>, fates: Fates, k: nat)
    ensures WriteEntries(s, config, expected, open, rest, fates, k) ==
      WriteAll(s, config, expected, Chunks(open, rest), fates, k)
    decreases rest
  {
    if rest == [] {
      if open != [] {
        FirstChunk(s, config, expected, open, [], fates, k);
        assert [open] + [] == [open];
      }
    } else if Size(open) + Weight(rest[0]) <= MAX_ENTRIES {
      EntriesAreChunks(s, config, expected, open + [rest[0]], rest[1..], fates, k);
    } else {
      FirstChunk(s, config, expected, open, Chunks([rest[0]], rest[1..]), fates, k);
      var w := Write(s, config, MutationOf(expected, open), fates(k));
      EntriesAreChunks(w.store, config, w.store.revision, [rest[0]], rest[1..], fates, k + 1);
    }
  }

  class JobRecovery {
    const store: StateStore
    const queue: GlobalJobQueue

    constructor (store: StateStore, queue: GlobalJobQueue)
      ensures this.store == store && this.queue == queue
    {
      this.store, this.queue := store, queue;
    }

    /** Writes the plan in chunks of at most 64 entries, each against the revision the last one left. */
    method WritePlan(plan: seq<Entry>, revision: int, fates: Fates) returns (code: Option<StoreError>, alive: bool)
      modifies store
      ensures Progress(store.state, code, alive) ==
        WriteAll(old(store.state), store.config, revision, Chunks([], plan), fates, 0)
    {
      EntriesAreChunks(store.state, store.config, revision, [], plan, fates, 0);
      code, alive := FillAndFlush(plan, revision, fates);
    }

    method FillAndFlush(plan: seq<Entry>, revision: int, fates: Fates) returns (code: Option<StoreError>, alive: bool)
      modifies store
      ensures Progress(store.state, code, alive) ==
        WriteEntries(old(store.state), store.config, revision, [], plan, fates, 0)
    {
      ghost var goal := WriteEntries(store.state, store.config, revision, [], plan, fates, 0);
      ghost var open: seq<Entry> := [];
      var chunk := MutationOf(0, []);
      var expected, k := revision, 0;
      for i := 0 to |plan|
        invariant chunk == MutationOf(0, open) && Size(open) <= MAX_ENTRIES
        invariant goal == WriteEntries(store.state, store.config, expected, open, plan[i..], fates, k)
      {
        var entry := plan[i];
        assert plan[i..][0] == entry && plan[i..][1..] == plan[i + 1..];
        if EntryCount(chunk) + Weight(entry) > MAX_ENTRIES {
          code, alive := store.Apply(chunk.(expectedRevision := expected), fates(k));
          if code.Some? || !alive {
            return;
          }
          expected, k := store.state.revision, k + 1;
          chunk, open := MutationOf(0, []), [];
        }
        SizeOfOne(open, entry);
        assert [] + [entry] == [entry];
        chunk := chunk.(updates := chunk.updates + [entry.update]);
        if entry.release.Some? {
          chunk := chunk.(releases := chunk.releases + [entry.release.value]);
        }
        open := open + [entry];
      }
      assert plan[|plan|..] == [];
      if EntryCount(chunk) == 0 {
        return None, true;
      }
      code, alive := store.Apply(chunk.(expectedRevision := expected), fates(k));
    }

    method Recover(answers: Answers, now: Time, loadOk: bool, fates: Fates)
      returns (code: RecoveryCode, outcomes: seq<Outcome>, storeError: Option<StoreError>,
               queueError: Option<QueueError>, alive: bool)
      modifies store, queue
      ensures RecoveryRun(store.state, queue.entries, code, outcomes, storeError, queueError, alive) ==
        RecoveryRuns.Recover(store.config, old(store.state), old(queue.entries), queue.capacity, answers, now, loadOk,
                             fates)
    {
      if !loadOk {
        return StoreLoadFailed, [], Some(BackendUnavailable), None, true;
      }
      var snapshot := Load(store.state);
      var plan;
      outcomes, plan := PlanSnapshot(snapshot, answers, now);
      storeError, alive := WritePlan(plan, snapshot.revision, fates);
      if !alive {
        return StoreWriteFailed, outcomes, None, None, false;
      }
      if storeError.Some? {
        return StoreWriteFailed, outcomes, storeError, None, true;
      }
      queueError := queue.RestoreFrom(snapshot);
      if queueError.Some? {
        return QueueRestoreFailed, outcomes, None, queueError, true;
      }
      return Recovered, outcomes, None, None, true;
    }
  }
}
