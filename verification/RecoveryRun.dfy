/** A whole recovery, what it guarantees, and why it can be cut short anywhere and started again. */
module RecoveryRuns {
  import opened Basics
  import opened Job
  import opened Store
  import opened Queue
  import opened StateStores
  import opened Recovery
  import opened RecoverySettles

  /** The fate of each write, by its number. */
  type Fates = nat -> Fate

  datatype Progress = Progress(store: StoreState, code: Option<StoreError>, alive: bool)

  /** Writes the chunks in order, each against the revision the one before it produced. */
  function WriteAll(s: StoreState, config: StoreConfig, expected: int, chunks: seq<seq<Entry>>, fates: Fates,
                    k: nat): Progress
    decreases chunks
  {
    if chunks == [] then Progress(s, None, true)
    else
      var w := Write(s, config, MutationOf(expected, chunks[0]), fates(k));
      if !w.alive || w.code.Some? then Progress(w.store, w.code, w.alive)
      else WriteAll(w.store, config, w.store.revision, chunks[1..], fates, k + 1)
  }

  datatype RecoveryCode = Recovered | StoreLoadFailed | StoreWriteFailed | QueueRestoreFailed

  datatype RecoveryRun = RecoveryRun(
    store: StoreState, entries: seq<QueueEntry>, code: RecoveryCode, outcomes: seq<Outcome>,
    storeError: Option<StoreError>, queueError: Option<QueueError>, alive: bool)

  function PlanOf(snapshot: Snapshot, answers: Answers, now: Time): seq<Entry> {
    Plan(snapshot.jobs, |snapshot.jobs|, snapshot.leases, answers, now)
  }

  /** How a recovery ends once its writes and the queue are known. */
  function Finish(p: Progress, entries: seq<QueueEntry>, outcomes: seq<Outcome>,
                  restored: Result<seq<QueueEntry>, QueueError>): RecoveryRun
  {
    if !p.alive then RecoveryRun(p.store, entries, StoreWriteFailed, outcomes, None, None, false)
    else if p.code.Some? then RecoveryRun(p.store, entries, StoreWriteFailed, outcomes, p.code, None, true)
    else match restored
      case Ok(queue) => RecoveryRun(p.store, queue, Recovered, outcomes, None, None, true)
      case Err(e) => RecoveryRun(p.store, entries, QueueRestoreFailed, outcomes, None, Some(e), true)
  }

  function RecoverFrom(config: StoreConfig, s: StoreState, snapshot: Snapshot, entries: seq<QueueEntry>, capacity: nat,
                       answers: Answers, now: Time, fates: Fates): RecoveryRun
  {
    Finish(WriteAll(s, config, snapshot.revision, Chunks([], PlanOf(snapshot, answers, now)), fates, 0), entries,
           Outcomes(snapshot.jobs, |snapshot.jobs|, snapshot.leases, answers), Restore(snapshot, capacity))
  }

  function Recover(config: StoreConfig, s: StoreState, entries: seq<QueueEntry>, capacity: nat,
                   answers: Answers, now: Time, loadOk: bool, fates: Fates): RecoveryRun
  {
    if !loadOk then RecoveryRun(s, entries, StoreLoadFailed, [], Some(BackendUnavailable), None, true)
    else RecoverFrom(config, s, Load(s), entries, capacity, answers, now, fates)
  }

  // ---- The plan covers every job that needs it ----

  ghost function Changing(jobs: Jobs, answers: Answers): set<JobId> {
    set id | id in jobs && Changes(jobs[id], answers)
  }

  lemma IdsOfTwo(c: seq<Entry>, d: seq<Entry>)
    ensures Ids(c + d) == Ids(c) + Ids(d)
  {
    forall id | id in Ids(c) + Ids(d) ensures id in Ids(c + d) {
      if id in Ids(c) {
        var i :| 0 <= i < |c| && c[i].update.id == id;
        assert (c + d)[i].update.id == id;
      } else {
        var i :| 0 <= i < |d| && d[i].update.id == id;
        assert (c + d)[|c| + i].update.id == id;
      }
    }
  }

  /** The records a plan is about. */
  function Selected(records: seq<StoredJob>, n: nat, answers: Answers): seq<StoredJob>
    requires n <= |records|
  {
    if n == 0 then []
    else if Changes(records[n - 1], answers) then Selected(records, n - 1, answers) + [records[n - 1]]
    else Selected(records, n - 1, answers)
  }

  lemma {:induction false} PlanIsSelected(records: seq<StoredJob>, n: nat, leases: Leases, answers: Answers, now: Time)
    requires n <= |records|
    ensures |Plan(records, n, leases, answers, now)| == |Selected(records, n, answers)|
    ensures forall i :: 0 <= i < |Selected(records, n, answers)| ==>
      Plan(records, n, leases, answers, now)[i] == EntryFor(Selected(records, n, answers)[i], leases, answers, now)
  {
    if n > 0 {
      PlanIsSelected(records, n - 1, leases, answers, now);
    }
  }

  lemma {:induction false} SelectedCovers(records: seq<StoredJob>, n: nat, answers: Answers)
    requires forall i, j :: 0 <= i < j < |records| ==> records[i].id < records[j].id
    requires n <= |records|
    ensures var chosen := Selected(records, n, answers);
      && (forall i :: 0 <= i < |chosen| ==> chosen[i] in records && Changes(chosen[i], answers))
      && (forall i :: 0 <= i < |chosen| && n < |records| ==> chosen[i].id < records[n].id)
      && (forall i, j :: 0 <= i < j < |chosen| ==> chosen[i].id < chosen[j].id)
      && (forall k :: 0 <= k < n && Changes(records[k], answers) ==> records[k] in chosen)
  {
    if n > 0 {
      SelectedCovers(records, n - 1, answers);
    }
  }

  lemma EntryPlanned(s: StoreState, record: StoredJob, answers: Answers, now: Time)
    requires record.id in s.jobs && s.jobs[record.id] == record && Changes(record, answers)
    ensures var e := EntryFor(record, s.leases, answers, now);
      PlannedAt(s, e, answers, now) && e.update.id == record.id
  {
  }

  lemma PlanIsPlanned(s: StoreState, snapshot: Snapshot, answers: Answers, now: Time)
    requires Lists(snapshot.jobs, s.jobs) && JobsSound(s.jobs) && snapshot.leases == s.leases
    ensures Planned(s, PlanOf(snapshot, answers, now), answers, now)
    ensures Ids(PlanOf(snapshot, answers, now)) == Changing(s.jobs, answers)
  {
    var records, plan := snapshot.jobs, PlanOf(snapshot, answers, now);
    var chosen := Selected(records, |records|, answers);
    PlanIsSelected(records, |records|, s.leases, answers, now);
    SelectedCovers(records, |records|, answers);
    forall i | 0 <= i < |plan| ensures PlannedAt(s, plan[i], answers, now) && plan[i].update.id == chosen[i].id {
      assert chosen[i] in records;
      EntryPlanned(s, chosen[i], answers, now);
    }
    forall id | id in Changing(s.jobs, answers) ensures id in Ids(plan) {
      assert s.jobs[id] in records && ConsistentRecord(id, s.jobs[id]);
      assert s.jobs[id] in chosen;
      var i :| 0 <= i < |chosen| && chosen[i] == s.jobs[id];
      assert plan[i].update.id == id;
    }
  }

  // ---- Writing the plan ----

  /** The store a write leaves behind has kept everything the one before it had. */
  predicate Follows(s: StoreState, t: StoreState) {
    Consistent(t) && JobsEvolve(s.jobs, t.jobs) && (RevisionsFit(s.jobs) ==> RevisionsFit(t.jobs))
  }

  lemma SettleNone(s: StoreState, answers: Answers, now: Time)
    ensures Settle(s, {}, answers, now, 0) == s
  {
  }

  /** What a write of the chunk `c` can come to. */
  ghost predicate ChunkOutcome(s: StoreState, c: seq<Entry>, answers: Answers, now: Time, w: Written) {
    && Follows(s, w.store)
    && (w.store == s || w.store == Settle(s, Ids(c), answers, now, 1))
    && (w.alive && w.code.None? ==> w.store == Settle(s, Ids(c), answers, now, 1))
  }

  lemma ChunkWritten(s: StoreState, config: StoreConfig, c: seq<Entry>, answers: Answers, now: Time, fate: Fate)
    requires Consistent(s) && Planned(s, c, answers, now) && 1 <= Size(c) <= MAX_ENTRIES
    ensures var w := Write(s, config, MutationOf(s.revision, c), fate);
      && ChunkOutcome(s, c, answers, now, w)
      && (fate.Answered? ==> w.alive && (w.code.None? <==> s.revision != U64_MAX && AllSettle(s, c, answers, now)))
  {
    ChunkApplies(s, config, c, answers, now);
    WriteKeeps(s, config, MutationOf(s.revision, c), fate);
  }

  lemma FollowsTransitive(a: StoreState, b: StoreState, c: StoreState)
    requires Follows(a, b) && Follows(b, c)
    ensures Follows(a, c)
  {
    EvolveTransitive(a.jobs, b.jobs, c.jobs);
  }

  lemma SettleFirstThen(s: StoreState, chunks: seq<seq<Entry>>, n: nat, answers: Answers, now: Time)
    requires n < |chunks|
    ensures var first := Settle(s, Ids(chunks[0]), answers, now, 1);
      Settle(first, Ids(Flatten(chunks[1..][..n])), answers, now, n) ==
      Settle(s, Ids(Flatten(chunks[..n + 1])), answers, now, n + 1)
  {
    var rest := chunks[1..][..n];
    assert chunks[..n + 1][1..] == rest && chunks[..n + 1][0] == chunks[0];
    IdsOfTwo(chunks[0], Flatten(rest));
    SettleTwice(s, Ids(chunks[0]), Ids(Flatten(rest)), answers, now, 1, n);
  }

  /** The first `n` chunks are settled and nothing else is; all of them if the writes went through. */
  ghost predicate SettlesPrefix(s: StoreState, chunks: seq<seq<Entry>>, answers: Answers, now: Time, p: Progress,
                                n: nat) {
    && n <= |chunks|
    && p.store == Settle(s, Ids(Flatten(chunks[..n])), answers, now, n)
    && Follows(s, p.store)
    && (p.alive && p.code.None? ==> n == |chunks|)
  }

  lemma FirstFlat(chunks: seq<seq<Entry>>)
    requires chunks != []
    ensures Flatten(chunks[..1]) == chunks[0]
  {
    assert chunks[..1][1..] == [];
    assert chunks[0] + [] == chunks[0];
  }

  lemma StopsHere(s: StoreState, chunks: seq<seq<Entry>>, answers: Answers, now: Time, p: Progress) returns (n: nat)
    requires chunks != [] && Follows(s, p.store) && !(p.alive && p.code.None?)
    requires p.store == s || p.store == Settle(s, Ids(chunks[0]), answers, now, 1)
    ensures SettlesPrefix(s, chunks, answers, now, p, n)
  {
    if p.store == s {
      SettleNone(s, answers, now);
      n := 0;
    } else {
      FirstFlat(chunks);
      n := 1;
    }
  }

  lemma GoesOn(s: StoreState, next: StoreState, chunks: seq<seq<Entry>>, answers: Answers, now: Time, p: Progress,
               n: nat)
    requires chunks != [] && Follows(s, next) && next == Settle(s, Ids(chunks[0]), answers, now, 1)
    requires SettlesPrefix(next, chunks[1..], answers, now, p, n)
    ensures SettlesPrefix(s, chunks, answers, now, p, n + 1)
  {
    FollowsTransitive(s, next, p.store);
    SettleFirstThen(s, chunks, n, answers, now);
  }

  lemma NothingWritten(s: StoreState, answers: Answers, now: Time)
    requires Consistent(s)
    ensures SettlesPrefix(s, [], answers, now, Progress(s, None, true), 0)
  {
    SettleNone(s, answers, now);
  }

  lemma StepSettles(s: StoreState, w: Written, chunks: seq<seq<Entry>>, answers: Answers, now: Time, p: Progress,
                    m: nat)
    returns (n: nat)
    requires chunks != [] && ChunkOutcome(s, chunks[0], answers, now, w)
    requires if w.alive && w.code.None? then SettlesPrefix(w.store, chunks[1..], answers, now, p, m)
             else p == Progress(w.store, w.code, w.alive)
    ensures SettlesPrefix(s, chunks, answers, now, p, n)
  {
    if w.alive && w.code.None? {
      GoesOn(s, w.store, chunks, answers, now, p, m);
      n := m + 1;
    } else {
      n := StopsHere(s, chunks, answers, now, p);
    }
  }

  /** Whatever happens to the writes, they settle the first `n` chunks of the plan and nothing else. */
  lemma {:induction false} WritesSettlePrefix(s: StoreState, config: StoreConfig, chunks: seq<seq<Entry>>,
                                              answers: Answers, now: Time, fates: Fates, k: nat) returns (n: nat)
    requires Consistent(s) && Sound(chunks) && Planned(s, Flatten(chunks), answers, now)
    ensures SettlesPrefix(s, chunks, answers, now, WriteAll(s, config, s.revision, chunks, fates, k), n)
    decreases chunks
  {
    n := 0;
    if chunks == [] {
      NothingWritten(s, answers, now);
    } else {
      RestPlanned(s, chunks[0], Flatten(chunks[1..]), answers, now);
      ChunkWritten(s, config, chunks[0], answers, now, fates(k));
      var w := Write(s, config, MutationOf(s.revision, chunks[0]), fates(k));
      if w.alive && w.code.None? {
        n := WritesSettlePrefix(w.store, config, chunks[1..], answers, now, fates, k + 1);
      }
      n := StepSettles(s, w, chunks, answers, now, WriteAll(s, config, s.revision, chunks, fates, k), n);
    }
  }

  // ---- When every write goes through ----

  lemma AllSettleSplit(s: StoreState, c: seq<Entry>, d: seq<Entry>, answers: Answers, now: Time)
    requires Planned(s, c + d, answers, now) && Planned(s, c, answers, now)
    requires Planned(Settle(s, Ids(c), answers, now, 1), d, answers, now)
    ensures AllSettle(s, c + d, answers, now) <==>
      AllSettle(s, c, answers, now) && AllSettle(Settle(s, Ids(c), answers, now, 1), d, answers, now)
  {
    var t := Settle(s, Ids(c), answers, now, 1);
    assert forall i :: 0 <= i < |c| ==> (c + d)[i] == c[i] && Updates(c + d)[i] == c[i].update;
    forall i | 0 <= i < |d| ensures (c + d)[|c| + i] == d[i] && t.jobs[d[i].update.id] == s.jobs[d[i].update.id] {
      assert Updates(c + d)[|c| + i] == d[i].update;
      assert PlannedAt(s, (c + d)[|c| + i], answers, now);
      assert d[i].update.id !in Ids(c);
    }
  }

  ghost predicate Answering(fates: Fates) {
    forall k :: fates(k).Answered?
  }

  /** With every write answered, the plan goes through exactly if the clock and the revisions allow it. */
  ghost predicate Exact(s: StoreState, chunks: seq<seq<Entry>>, answers: Answers, now: Time, p: Progress)
    requires Planned(s, Flatten(chunks), answers, now)
  {
    p.alive && (p.code.None? <==> AllSettle(s, Flatten(chunks), answers, now) && s.revision + |chunks| <= U64_MAX)
  }

  ghost predicate AnsweredOutcome(s: StoreState, c: seq<Entry>, answers: Answers, now: Time, w: Written)
    requires Planned(s, c, answers, now)
  {
    && w.alive && (w.code.None? <==> s.revision != U64_MAX && AllSettle(s, c, answers, now))
    && (w.code.None? ==> w.store == Settle(s, Ids(c), answers, now, 1))
  }

  lemma ChunkAnswered(s: StoreState, config: StoreConfig, c: seq<Entry>, answers: Answers, now: Time)
    requires Consistent(s) && Planned(s, c, answers, now) && 1 <= Size(c) <= MAX_ENTRIES
    ensures var w := Write(s, config, MutationOf(s.revision, c), Answered);
      AnsweredOutcome(s, c, answers, now, w) && Consistent(w.store)
  {
    ChunkWritten(s, config, c, answers, now, Answered);
  }

  lemma StepExact(s: StoreState, w: Written, chunks: seq<seq<Entry>>, answers: Answers, now: Time, p: Progress)
    requires LeaseMatrix(s.jobs, s.leases) && s.revision <= U64_MAX
    requires chunks != [] && Planned(s, Flatten(chunks), answers, now) && Planned(s, chunks[0], answers, now)
    requires AnsweredOutcome(s, chunks[0], answers, now, w)
    requires w.code.Some? ==> p == Progress(w.store, w.code, w.alive)
    requires w.code.None? ==>
      Planned(w.store, Flatten(chunks[1..]), answers, now) && Exact(w.store, chunks[1..], answers, now, p)
    ensures Exact(s, chunks, answers, now, p)
  {
    RestPlanned(s, chunks[0], Flatten(chunks[1..]), answers, now);
    AllSettleSplit(s, chunks[0], Flatten(chunks[1..]), answers, now);
  }

  lemma {:induction false} WritesSucceed(s: StoreState, config: StoreConfig, chunks: seq<seq<Entry>>, answers: Answers,
                                         now: Time, fates: Fates, k: nat)
    requires Consistent(s) && Sound(chunks) && Planned(s, Flatten(chunks), answers, now)
    requires Answering(fates) && s.revision <= U64_MAX
    ensures Exact(s, chunks, answers, now, WriteAll(s, config, s.revision, chunks, fates, k))
    decreases chunks
  {
    if chunks != [] {
      RestPlanned(s, chunks[0], Flatten(chunks[1..]), answers, now);
      ChunkAnswered(s, config, chunks[0], answers, now);
      var w := Write(s, config, MutationOf(s.revision, chunks[0]), Answered);
      if w.code.None? {
        WritesSucceed(w.store, config, chunks[1..], answers, now, fates, k + 1);
      }
      StepExact(s, w, chunks, answers, now, WriteAll(s, config, s.revision, chunks, fates, k));
    }
  }

  // ---- The whole recovery ----

  /** A store that has never been written is empty. */
  predicate EmptyAtStart(s: StoreState) {
    0 <= s.revision && (s.revision == 0 ==> s.jobs == map[] && s.leases == map[])
  }

  lemma SettleKeepsQueue(entries: seq<QueueEntry>, jobs: Jobs, ids: set<JobId>, answers: Answers, now: Time)
    requires InSync(entries, jobs)
    ensures InSync(entries, SettleJobs(jobs, ids, answers, now))
  {
    var after := SettleJobs(jobs, ids, answers, now);
    forall e ensures Waiting(jobs, e) <==> Waiting(after, e) {
    }
  }

  /** What a recovery leaves behind, whatever the backend and the verifier do. */
  ghost predicate RecoveryGuarantee(s: StoreState, chunks: seq<seq<Entry>>, capacity: nat, answers: Answers, now: Time,
                                    r: RecoveryRun, n: nat) {
    && n <= |chunks|
    && r.store == Settle(s, Ids(Flatten(chunks[..n])), answers, now, n)
    && Follows(s, r.store)
    && (r.alive && r.code.Recovered? ==>
          r.store == Settle(s, Changing(s.jobs, answers), answers, now, n)
          && InSync(r.entries, r.store.jobs) && |r.entries| <= capacity)
  }

  predicate LoadedFrom(snapshot: Snapshot, s: StoreState) {
    Lists(snapshot.jobs, s.jobs) && snapshot.leases == s.leases && snapshot.revision == s.revision
  }

  /** The queue that a load of `s` is restored to, when the waiting jobs fit. */
  lemma RestoredQueue(s: StoreState, snapshot: Snapshot, capacity: nat)
    requires JobsSound(s.jobs) && LoadedFrom(snapshot, s) && EmptyAtStart(s)
    ensures Restore(snapshot, capacity).Ok? <==> |QueuedFrom(snapshot.jobs, 0)| <= capacity
    ensures Restore(snapshot, capacity).Ok? ==>
      InSync(Restore(snapshot, capacity).value, s.jobs) && |Restore(snapshot, capacity).value| <= capacity
  {
    if snapshot.jobs != [] {
      assert snapshot.jobs[0] in snapshot.jobs && snapshot.jobs[0].id in s.jobs;
    }
    RestoreListed(snapshot, s.jobs, capacity);
    SortedView(snapshot.jobs, s.jobs);
    SortEntriesLength(QueuedFrom(snapshot.jobs, 0));
  }

  lemma PlanChunks(s: StoreState, snapshot: Snapshot, answers: Answers, now: Time)
    requires JobsSound(s.jobs) && LoadedFrom(snapshot, s)
    ensures var chunks := Chunks([], PlanOf(snapshot, answers, now));
      && Sound(chunks) && Flatten(chunks) == PlanOf(snapshot, answers, now)
      && Planned(s, Flatten(chunks), answers, now) && Ids(Flatten(chunks)) == Changing(s.jobs, answers)
  {
    var plan := PlanOf(snapshot, answers, now);
    PlanIsPlanned(s, snapshot, answers, now);
    ChunksKeepPlan([], plan);
    assert [] + plan == plan;
  }

  lemma FinishKeeps(s: StoreState, snapshot: Snapshot, chunks: seq<seq<Entry>>, capacity: nat, answers: Answers,
                    now: Time, p: Progress, entries: seq<QueueEntry>, outcomes: seq<Outcome>, n: nat)
    requires JobsSound(s.jobs) && LoadedFrom(snapshot, s) && EmptyAtStart(s)
    requires SettlesPrefix(s, chunks, answers, now, p, n) && Ids(Flatten(chunks)) == Changing(s.jobs, answers)
    ensures RecoveryGuarantee(s, chunks, capacity, answers, now,
                              Finish(p, entries, outcomes, Restore(snapshot, capacity)), n)
  {
    var r := Finish(p, entries, outcomes, Restore(snapshot, capacity));
    if r.code.Recovered? {
      assert chunks[..n] == chunks;
      RestoredQueue(s, snapshot, capacity);
      SettleKeepsQueue(r.entries, s.jobs, Changing(s.jobs, answers), answers, now);
    }
  }

  lemma RecoverFromKeeps(config: StoreConfig, s: StoreState, snapshot: Snapshot, entries: seq<QueueEntry>,
                         capacity: nat, answers: Answers, now: Time, fates: Fates) returns (n: nat)
    requires Consistent(s) && LoadedFrom(snapshot, s) && EmptyAtStart(s)
    ensures RecoveryGuarantee(s, Chunks([], PlanOf(snapshot, answers, now)), capacity, answers, now,
                              RecoverFrom(config, s, snapshot, entries, capacity, answers, now, fates), n)
  {
    var chunks := Chunks([], PlanOf(snapshot, answers, now));
    PlanChunks(s, snapshot, answers, now);
    n := WritesSettlePrefix(s, config, chunks, answers, now, fates, 0);
    FinishKeeps(s, snapshot, chunks, capacity, answers, now, WriteAll(s, config, s.revision, chunks, fates, 0),
                entries, Outcomes(snapshot.jobs, |snapshot.jobs|, snapshot.leases, answers), n);
  }

  function RecoveryChunks(s: StoreState, answers: Answers, now: Time): seq<seq<Entry>> {
    Chunks([], PlanOf(Load(s), answers, now))
  }

  lemma UnloadedKeeps(s: StoreState, chunks: seq<seq<Entry>>, capacity: nat, answers: Answers, now: Time,
                      r: RecoveryRun)
    requires Consistent(s) && r.store == s && !r.code.Recovered?
    ensures RecoveryGuarantee(s, chunks, capacity, answers, now, r, 0)
  {
    SettleNone(s, answers, now);
    assert chunks[..0] == [];
  }

  /** From any consistent store, for any verifier answers, any clock and any failure of the backend or
      of the daemon: recovery leaves a consistent store in which the jobs of the first `n` chunks are
      settled and no other job is touched. A completed recovery has settled every job and its queue
      is in step with the store. */
  lemma RecoverKeeps(config: StoreConfig, s: StoreState, entries: seq<QueueEntry>, capacity: nat,
                     answers: Answers, now: Time, loadOk: bool, fates: Fates) returns (n: nat)
    requires Consistent(s) && EmptyAtStart(s)
    ensures RecoveryGuarantee(s, RecoveryChunks(s, answers, now), capacity, answers, now,
                              Recover(config, s, entries, capacity, answers, now, loadOk, fates), n)
  {
    LoadLists(s);
    if loadOk {
      n := RecoverFromKeeps(config, s, Load(s), entries, capacity, answers, now, fates);
    } else {
      n := 0;
      UnloadedKeeps(s, RecoveryChunks(s, answers, now), capacity, answers, now,
                    Recover(config, s, entries, capacity, answers, now, loadOk, fates));
    }
  }

  /** No job may have a start time after `now` if recovery is to give it up. */
  predicate ClockAndRevisionsAllow(s: StoreState, answers: Answers, now: Time) {
    forall id :: id in s.jobs && Changes(s.jobs[id], answers) ==> CanSettle(s.jobs[id], answers, now)
  }

  lemma AllowedIsAllSettle(s: StoreState, plan: seq<Entry>, answers: Answers, now: Time)
    requires Planned(s, plan, answers, now) && Ids(plan) == Changing(s.jobs, answers)
    ensures AllSettle(s, plan, answers, now) <==> ClockAndRevisionsAllow(s, answers, now)
  {
    forall i | 0 <= i < |plan| ensures plan[i].update.id in Changing(s.jobs, answers) {
      assert plan[i].update.id in Ids(plan);
    }
    if AllSettle(s, plan, answers, now) {
      forall id | id in Changing(s.jobs, answers) ensures CanSettle(s.jobs[id], answers, now) {
        assert id in Ids(plan);
        var i :| 0 <= i < |plan| && plan[i].update.id == id;
      }
    }
  }

  /** How a recovery ends, by whether its writes go through and whether the waiting jobs fit. */
  predicate EndsAs(written: bool, fits: bool, r: RecoveryRun) {
    && r.alive
    && (r.code.StoreWriteFailed? <==> !written)
    && (r.code.Recovered? <==> written && fits)
  }

  ghost predicate ExactOutcome(s: StoreState, writes: nat, waiting: nat, capacity: nat, answers: Answers, now: Time,
                               r: RecoveryRun) {
    EndsAs(ClockAndRevisionsAllow(s, answers, now) && s.revision + writes <= U64_MAX, waiting <= capacity, r)
  }

  lemma FinishCases(p: Progress, entries: seq<QueueEntry>, outcomes: seq<Outcome>,
                    restored: Result<seq<QueueEntry>, QueueError>)
    requires p.alive
    ensures EndsAs(p.code.None?, restored.Ok?, Finish(p, entries, outcomes, restored))
  {
  }

  lemma WrittenExactly(s: StoreState, plan: seq<Entry>, fits: bool, answers: Answers, now: Time, p: Progress)
    requires Planned(s, plan, answers, now) && Ids(plan) == Changing(s.jobs, answers)
    requires p.code.None? <==> AllSettle(s, plan, answers, now) && fits
    ensures p.code.None? <==> ClockAndRevisionsAllow(s, answers, now) && fits
  {
    AllowedIsAllSettle(s, plan, answers, now);
  }

  lemma RecoverFromExact(config: StoreConfig, s: StoreState, snapshot: Snapshot, entries: seq<QueueEntry>,
                         capacity: nat, answers: Answers, now: Time, fates: Fates)
    requires Consistent(s) && LoadedFrom(snapshot, s) && EmptyAtStart(s) && s.revision <= U64_MAX && Answering(fates)
    ensures ExactOutcome(s, |Chunks([], PlanOf(snapshot, answers, now))|, |QueuedFrom(snapshot.jobs, 0)|, capacity,
                         answers, now,
                         RecoverFrom(config, s, snapshot, entries, capacity, answers, now, fates))
  {
    var chunks := Chunks([], PlanOf(snapshot, answers, now));
    PlanChunks(s, snapshot, answers, now);
    WritesSucceed(s, config, chunks, answers, now, fates, 0);
    RestoredQueue(s, snapshot, capacity);
    var p := WriteAll(s, config, s.revision, chunks, fates, 0);
    WrittenExactly(s, Flatten(chunks), s.revision + |chunks| <= U64_MAX, answers, now, p);
    FinishCases(p, entries, Outcomes(snapshot.jobs, |snapshot.jobs|, snapshot.leases, answers),
                Restore(snapshot, capacity));
  }

  /** With an answering backend, recovery succeeds exactly when no start time lies after the clock,
      no revision counter is exhausted and the waiting jobs fit the queue. */
  lemma RecoverExact(config: StoreConfig, s: StoreState, entries: seq<QueueEntry>, capacity: nat,
                     answers: Answers, now: Time, fates: Fates)
    requires Consistent(s) && EmptyAtStart(s) && s.revision <= U64_MAX && Answering(fates)
    ensures ExactOutcome(s, |RecoveryChunks(s, answers, now)|, |QueuedFrom(Load(s).jobs, 0)|, capacity, answers, now,
                         Recover(config, s, entries, capacity, answers, now, true, fates))
  {
    LoadLists(s);
    RecoverFromExact(config, s, Load(s), entries, capacity, answers, now, fates);
  }

  // ---- After a completed recovery ----

  predicate Confirmed(record: StoredJob, answers: Answers) {
    answers(record.id).Verified? && ValidIdentity(record.execution.identity)
  }

  /** How one record comes out of a completed recovery: never STARTING, active only if its process was
      confirmed, LOST if it was active and was not confirmed, untouched if it was not active. */
  predicate RecuperatedJob(before: StoredJob, after: StoredJob, answers: Answers) {
    && !after.state.Starting?
    && (Leaseable(after.state) <==> Leaseable(before.state) && Confirmed(before, answers))
    && (Leaseable(before.state) && !Confirmed(before, answers) ==> after.state.Lost?)
    && (!Leaseable(before.state) ==> after == before)
  }

  lemma AfterRecuperates(record: StoredJob, answers: Answers, now: Time)
    ensures RecuperatedJob(record, After(record, answers, now), answers)
  {
  }

  /** A record given up at `now` for `reason`, field by field. */
  predicate GivenUp(before: StoredJob, after: StoredJob, now: Time, reason: string) {
    && after.id == before.id && after.spec == before.spec && after.state == JobState.Lost
    && after.revision == before.revision + 1
    && after.execution.identity == before.execution.identity && after.execution.exit == before.execution.exit
    && after.execution.startTime == before.execution.startTime && after.execution.logPath == before.execution.logPath
    && after.execution.endTime == Some(now) && after.execution.failureReason == Some(reason)
  }

  predicate WasActive(record: StoredJob) {
    record.state == JobState.Starting || record.state == JobState.Running || record.state == JobState.Stopping
  }

  predicate HadIdentity(record: StoredJob) {
    record.execution.identity.pid > 0 && record.execution.identity.pgid > 0 && record.execution.identity.startTicks > 0
  }

  /** What a recovery decides about a record, by its state, its identity and the verifier's answer. */
  function Judged(record: StoredJob, answer: Verification): Decision {
    if record.state == JobState.Queued then QueuedRestored
    else if !WasActive(record) then TerminalUntouched
    else if !HadIdentity(record) then LostIdentityMissing
    else if answer == ProcessGone then LostProcessGone
    else if answer == Mismatch then LostIdentityMismatch
    else if record.state == JobState.Starting then AdoptedPromotedToRunning
    else if record.state == JobState.Running then AdoptedRunning
    else AdoptedStoppingNeedsRecancel
  }

  /** The record after a completed recovery. A confirmed RUNNING or STOPPING job is not touched. */
  predicate RecoveredJob(before: StoredJob, after: StoredJob, answer: Verification, now: Time) {
    match Judged(before, answer)
    case LostIdentityMissing =>
      GivenUp(before, after, now, "recovery: " + "active job without " + "recorded process " + "identity")
    case LostProcessGone =>
      GivenUp(before, after, now, "recovery: " + "process gone before " + "or during " + "daemon restart")
    case LostIdentityMismatch =>
      GivenUp(before, after, now,
              "recovery: " + "pid reused by " + "another process " + "(pgid/start ticks " + "mismatch)")
    case AdoptedPromotedToRunning => after == before.(state := JobState.Running, revision := before.revision + 1)
    case _ => after == before
  }

  lemma AfterMeans(record: StoredJob, answers: Answers, now: Time)
    ensures Decide(record, answers) == Judged(record, answers(record.id))
    ensures RecoveredJob(record, After(record, answers, now), answers(record.id), now)
  {
  }

  /** The report about one job: its decision, and the lease it held if it was given up. */
  predicate Reported(record: StoredJob, leases: Leases, answer: Verification, o: Outcome) {
    && o.job == record.id && o.previous == record.state && o.decision == Judged(record, answer)
    && (o.released.Some? ==> o.released.value in leases && leases[o.released.value] == record.id)
    && (o.released.None? <==>
        (o.decision != LostIdentityMissing && o.decision != LostProcessGone && o.decision != LostIdentityMismatch)
        || record.id !in leases.Values)
  }

  lemma OutcomeMeans(record: StoredJob, leases: Leases, answers: Answers)
    ensures Reported(record, leases, answers(record.id), OutcomeFor(record, leases, answers))
  {
    AfterMeans(record, answers, 0);
  }

  lemma {:induction false} OutcomesMean(records: seq<StoredJob>, n: nat, leases: Leases, answers: Answers)
    requires n <= |records|
    ensures |Outcomes(records, n, leases, answers)| == n
    ensures forall i :: 0 <= i < n ==>
      Reported(records[i], leases, answers(records[i].id), Outcomes(records, n, leases, answers)[i])
  {
    if n > 0 {
      OutcomesMean(records, n - 1, leases, answers);
      OutcomeMeans(records[n - 1], leases, answers);
    }
  }

  /** One report for each job, by increasing id. */
  predicate AllReported(s: StoreState, answers: Answers, outcomes: seq<Outcome>) {
    && |outcomes| == |s.jobs| && (forall i, j :: 0 <= i < j < |outcomes| ==> outcomes[i].job < outcomes[j].job)
    && (set o | o in outcomes :: o.job) == s.jobs.Keys
    && (forall i :: 0 <= i < |outcomes| ==>
          && outcomes[i].job in s.jobs
          && Reported(s.jobs[outcomes[i].job], s.leases, answers(outcomes[i].job), outcomes[i]))
  }

  lemma OutcomesNamed(records: seq<StoredJob>, leases: Leases, answers: Answers)
    ensures |Outcomes(records, |records|, leases, answers)| == |records|
    ensures forall i :: 0 <= i < |records| ==> Outcomes(records, |records|, leases, answers)[i].job == records[i].id
  {
    OutcomesMean(records, |records|, leases, answers);
    forall i | 0 <= i < |records| ensures Outcomes(records, |records|, leases, answers)[i].job == records[i].id {
      assert Reported(records[i], leases, answers(records[i].id), Outcomes(records, |records|, leases, answers)[i]);
    }
  }

  lemma ReportsOf(s: StoreState, records: seq<StoredJob>, answers: Answers, outcomes: seq<Outcome>)
    requires Lists(records, s.jobs) && |outcomes| == |records| == |s.jobs|
    requires (set o | o in outcomes :: o.job) == s.jobs.Keys
    requires forall i :: 0 <= i < |records| ==>
      outcomes[i].job == records[i].id && Reported(records[i], s.leases, answers(records[i].id), outcomes[i])
    ensures AllReported(s, answers, outcomes)
  {
    forall i | 0 <= i < |outcomes|
      ensures outcomes[i].job in s.jobs
        && Reported(s.jobs[outcomes[i].job], s.leases, answers(outcomes[i].job), outcomes[i])
    {
      assert s.jobs[records[i].id] == records[i];
    }
  }

  lemma ListedReports(s: StoreState, records: seq<StoredJob>, answers: Answers)
    requires JobsSound(s.jobs) && Lists(records, s.jobs) && |records| == |s.jobs|
    ensures AllReported(s, answers, Outcomes(records, |records|, s.leases, answers))
  {
    var outcomes := Outcomes(records, |records|, s.leases, answers);
    OutcomesMean(records, |records|, s.leases, answers);
    OutcomesNamed(records, s.leases, answers);
    ListedJobs(s.jobs, records, outcomes);
    ReportsOf(s, records, answers, outcomes);
  }

  lemma ListedJobs(jobs: Jobs, records: seq<StoredJob>, outcomes: seq<Outcome>)
    requires JobsSound(jobs) && Lists(records, jobs) && |outcomes| == |records|
    requires forall i :: 0 <= i < |records| ==> outcomes[i].job == records[i].id
    ensures (set o | o in outcomes :: o.job) == jobs.Keys
  {
    forall id | id in jobs ensures exists o :: o in outcomes && o.job == id {
      var i :| 0 <= i < |records| && records[i] == jobs[id];
      assert ConsistentRecord(id, jobs[id]);
      assert outcomes[i] in outcomes;
    }
  }

  /** Whatever becomes of the writes, a recovery that could load reports on every job. */
  lemma RecoveryReports(config: StoreConfig, s: StoreState, entries: seq<QueueEntry>, capacity: nat,
                        answers: Answers, now: Time, fates: Fates)
    requires JobsSound(s.jobs)
    ensures AllReported(s, answers, Recover(config, s, entries, capacity, answers, now, true, fates).outcomes)
  {
    LoadLists(s);
    var snapshot := Load(s);
    ListedReports(s, snapshot.jobs, answers);
    FinishKeepsOutcomes(WriteAll(s, config, snapshot.revision, Chunks([], PlanOf(snapshot, answers, now)), fates, 0),
                        entries, Outcomes(snapshot.jobs, |snapshot.jobs|, snapshot.leases, answers),
                        Restore(snapshot, capacity));
  }

  lemma FinishKeepsOutcomes(p: Progress, entries: seq<QueueEntry>, outcomes: seq<Outcome>,
                            restored: Result<seq<QueueEntry>, QueueError>)
    ensures Finish(p, entries, outcomes, restored).outcomes == outcomes
  {
  }

  /** Every job comes out as it should, and a device stays leased exactly while its job stays active. */
  ghost predicate Recuperated(s: StoreState, answers: Answers, now: Time, t: StoreState) {
    && t.jobs.Keys == s.jobs.Keys
    && (forall id :: id in s.jobs ==>
          RecuperatedJob(s.jobs[id], t.jobs[id], answers) && RecoveredJob(s.jobs[id], t.jobs[id], answers(id), now))
    && (forall u :: u in t.leases ==> u in s.leases && t.leases[u] == s.leases[u])
    && (forall u :: u in s.leases ==>
          (u in t.leases <==> s.leases[u] in s.jobs && Confirmed(s.jobs[s.leases[u]], answers)))
  }

  lemma SettledJob(s: StoreState, answers: Answers, now: Time, n: nat, id: JobId)
    requires JobsSound(s.jobs) && id in s.jobs
    ensures var after := Settle(s, Changing(s.jobs, answers), answers, now, n).jobs[id];
      RecuperatedJob(s.jobs[id], after, answers) && RecoveredJob(s.jobs[id], after, answers(id), now)
  {
    assert ConsistentRecord(id, s.jobs[id]);
    AfterRecuperates(s.jobs[id], answers, now);
    AfterMeans(s.jobs[id], answers, now);
  }

  lemma SettledLease(s: StoreState, answers: Answers, now: Time, n: nat, u: Uuid)
    requires LeaseMatrix(s.jobs, s.leases) && u in s.leases
    ensures u in Settle(s, Changing(s.jobs, answers), answers, now, n).leases <==>
      Confirmed(s.jobs[s.leases[u]], answers)
  {
    AfterRecuperates(s.jobs[s.leases[u]], answers, now);
  }

  lemma SettledAll(s: StoreState, answers: Answers, now: Time, n: nat)
    requires LeaseMatrix(s.jobs, s.leases) && JobsSound(s.jobs)
    ensures Recuperated(s, answers, now, Settle(s, Changing(s.jobs, answers), answers, now, n))
  {
    var t := Settle(s, Changing(s.jobs, answers), answers, now, n);
    forall id | id in s.jobs
      ensures RecuperatedJob(s.jobs[id], t.jobs[id], answers) && RecoveredJob(s.jobs[id], t.jobs[id], answers(id), now)
    {
      SettledJob(s, answers, now, n, id);
    }
    forall u | u in s.leases ensures u in t.leases <==> Confirmed(s.jobs[s.leases[u]], answers) {
      SettledLease(s, answers, now, n, u);
    }
  }

  lemma GuaranteedRecuperated(s: StoreState, chunks: seq<seq<Entry>>, capacity: nat, answers: Answers, now: Time,
                              r: RecoveryRun, n: nat)
    requires Consistent(s) && RecoveryGuarantee(s, chunks, capacity, answers, now, r, n)
    requires r.alive && r.code.Recovered?
    ensures Recuperated(s, answers, now, r.store)
    ensures InSync(r.entries, r.store.jobs) && WaitingInOrder(r.entries, r.store.jobs)
  {
    SettledAll(s, answers, now, n);
    InSyncMeans(r.entries, r.store.jobs);
  }

  lemma RecoveredIsRecuperated(config: StoreConfig, s: StoreState, entries: seq<QueueEntry>, capacity: nat,
                               answers: Answers, now: Time, loadOk: bool, fates: Fates)
    requires Consistent(s) && EmptyAtStart(s)
    ensures var r := Recover(config, s, entries, capacity, answers, now, loadOk, fates);
      r.alive && r.code.Recovered? ==>
        && Recuperated(s, answers, now, r.store)
        && InSync(r.entries, r.store.jobs) && WaitingInOrder(r.entries, r.store.jobs)
  {
    var n := RecoverKeeps(config, s, entries, capacity, answers, now, loadOk, fates);
    var r := Recover(config, s, entries, capacity, answers, now, loadOk, fates);
    if r.alive && r.code.Recovered? {
      GuaranteedRecuperated(s, RecoveryChunks(s, answers, now), capacity, answers, now, r, n);
    }
  }

  // ---- What a recovery answers ----

  /** The result of a recovery whose daemon lives: what failed, with the error of that and of nothing else, and a
      queue that is replaced only by success. */
  predicate AnswersFor(s: StoreState, entries: seq<QueueEntry>, capacity: nat, loadOk: bool, r: RecoveryRun) {
    if !loadOk then r == RecoveryRun(s, entries, StoreLoadFailed, [], Some(BackendUnavailable), None, true)
    else
      && r.code != StoreLoadFailed
      && (r.code == Recovered <==> r.storeError == None && r.queueError == None)
      && (r.code == StoreWriteFailed ==> r.storeError != None && r.queueError == None && r.entries == entries)
      && (r.code == QueueRestoreFailed ==>
            r.storeError == None && r.queueError == Some(QueueCapacityExceeded) && r.entries == entries)
      && (r.code != StoreWriteFailed ==> (r.code == Recovered <==> |WaitingIds(s.jobs)| <= capacity))
  }

  lemma FinishAnswers(p: Progress, entries: seq<QueueEntry>, outcomes: seq<Outcome>, queue: seq<QueueEntry>,
                      s: StoreState, capacity: nat)
    requires p.alive
    ensures AnswersFor(s, entries, capacity, true,
                       Finish(p, entries, outcomes,
                              if |WaitingIds(s.jobs)| <= capacity then Ok(queue) else Err(QueueCapacityExceeded)))
  {
  }

  lemma RestoreFits(s: StoreState, capacity: nat) returns (queue: seq<QueueEntry>)
    requires JobsSound(s.jobs) && EmptyAtStart(s)
    ensures Restore(Load(s), capacity) ==
      if |WaitingIds(s.jobs)| <= capacity then Ok(queue) else Err(QueueCapacityExceeded)
  {
    RestoreInSync(s, capacity);
    queue := QueueView(Load(s));
  }

  lemma LoadedAnswers(config: StoreConfig, s: StoreState, snapshot: Snapshot, entries: seq<QueueEntry>, capacity: nat,
                      answers: Answers, now: Time, fates: Fates, queue: seq<QueueEntry>)
    requires Restore(snapshot, capacity) ==
      if |WaitingIds(s.jobs)| <= capacity then Ok(queue) else Err(QueueCapacityExceeded)
    ensures var r := RecoverFrom(config, s, snapshot, entries, capacity, answers, now, fates);
      if r.alive then AnswersFor(s, entries, capacity, true, r) else r.entries == entries
  {
    var p := WriteAll(s, config, snapshot.revision, Chunks([], PlanOf(snapshot, answers, now)), fates, 0);
    if p.alive {
      FinishAnswers(p, entries, Outcomes(snapshot.jobs, |snapshot.jobs|, snapshot.leases, answers), queue, s, capacity);
    }
  }

  /** Every recovery from a sound store, whatever happens to its writes. */
  lemma RecoveryAnswers(config: StoreConfig, s: StoreState, entries: seq<QueueEntry>, capacity: nat,
                        answers: Answers, now: Time, loadOk: bool, fates: Fates)
    requires JobsSound(s.jobs) && EmptyAtStart(s)
    ensures var r := Recover(config, s, entries, capacity, answers, now, loadOk, fates);
      if r.alive then AnswersFor(s, entries, capacity, loadOk, r) else r.entries == entries && loadOk
  {
    if loadOk {
      var queue := RestoreFits(s, capacity);
      LoadedAnswers(config, s, Load(s), entries, capacity, answers, now, fates, queue);
    }
  }

  // ---- Stopping anywhere and starting again ----

  function Untimed(record: StoredJob): StoredJob {
    record.(execution := record.execution.(endTime := None))
  }

  /** The same job states and leases, up to the recorded end times. */
  ghost predicate SameStates(a: StoreState, b: StoreState) {
    && a.jobs.Keys == b.jobs.Keys
    && (forall id :: id in a.jobs ==> Untimed(a.jobs[id]) == Untimed(b.jobs[id]))
    && a.leases == b.leases
  }

  lemma AfterTimes(record: StoredJob, answers: Answers, a: Time, b: Time)
    ensures Untimed(After(record, answers, a)) == Untimed(After(record, answers, b))
  {
  }

  lemma ResumedJob(s: StoreState, part: set<JobId>, answers: Answers, a: Time, b: Time, c: Time, id: JobId)
    requires id in s.jobs
    ensures var mid := SettleJobs(s.jobs, part, answers, a);
      && Untimed(SettleJobs(mid, Changing(mid, answers), answers, b)[id]) ==
         Untimed(SettleJobs(s.jobs, Changing(s.jobs, answers), answers, c)[id])
      && (Keeps(s.jobs, Changing(s.jobs, answers), answers, id) <==>
          Keeps(s.jobs, part, answers, id) && Keeps(mid, Changing(mid, answers), answers, id))
  {
    AfterSettled(s.jobs[id], answers, a);
    AfterTimes(s.jobs[id], answers, a, c);
    AfterTimes(s.jobs[id], answers, b, c);
  }

  lemma ResumedStore(s: StoreState, part: set<JobId>, answers: Answers, a: Time, b: Time, c: Time, l: nat, m: nat,
                     n: nat)
    ensures var mid := Settle(s, part, answers, a, l);
      SameStates(Settle(mid, Changing(mid.jobs, answers), answers, b, m),
                 Settle(s, Changing(s.jobs, answers), answers, c, n))
  {
    var mid := Settle(s, part, answers, a, l);
    forall id | id in s.jobs
      ensures Untimed(SettleJobs(mid.jobs, Changing(mid.jobs, answers), answers, b)[id]) ==
              Untimed(SettleJobs(s.jobs, Changing(s.jobs, answers), answers, c)[id])
      ensures Keeps(s.jobs, Changing(s.jobs, answers), answers, id) <==>
              Keeps(s.jobs, part, answers, id) && Keeps(mid.jobs, Changing(mid.jobs, answers), answers, id)
    {
      ResumedJob(s, part, answers, a, b, c, id);
    }
  }

  lemma SameStatesSameQueue(a: StoreState, b: StoreState, p: seq<QueueEntry>, q: seq<QueueEntry>)
    requires SameStates(a, b) && InSync(p, a.jobs) && InSync(q, b.jobs)
    ensures p == q
  {
    forall e ensures Waiting(a.jobs, e) <==> Waiting(b.jobs, e) {
      if e.job in a.jobs {
        assert Untimed(a.jobs[e.job]) == Untimed(b.jobs[e.job]);
      }
    }
    SortedUnique(p, q);
  }

  lemma GuaranteesAgree(s: StoreState, t: StoreState, chunks: seq<seq<Entry>>, again: seq<seq<Entry>>,
                        whole: seq<seq<Entry>>, capacity: nat, answers: Answers, a: Time, b: Time, c: Time,
                        first: RecoveryRun, second: RecoveryRun, full: RecoveryRun, l: nat, m: nat, n: nat)
    requires RecoveryGuarantee(s, chunks, capacity, answers, a, first, l) && t == first.store
    requires RecoveryGuarantee(t, again, capacity, answers, b, second, m) && second.alive && second.code.Recovered?
    requires RecoveryGuarantee(s, whole, capacity, answers, c, full, n) && full.alive && full.code.Recovered?
    ensures SameStates(second.store, full.store) && second.entries == full.entries
  {
    ResumedStore(s, Ids(Flatten(chunks[..l])), answers, a, b, c, l, m, n);
    SameStatesSameQueue(second.store, full.store, second.entries, full.entries);
  }

  lemma StartedOnce(s: StoreState, ids: set<JobId>, answers: Answers, now: Time, n: nat)
    requires EmptyAtStart(s)
    ensures EmptyAtStart(Settle(s, ids, answers, now, n))
  {
  }

  lemma SecondAgrees(config: StoreConfig, s: StoreState, entries: seq<QueueEntry>, capacity: nat, answers: Answers,
                     a: Time, b: Time, c: Time, fatesB: Fates, fatesC: Fates,
                     chunks: seq<seq<Entry>>, first: RecoveryRun, l: nat)
    requires Consistent(s) && EmptyAtStart(s) && RecoveryGuarantee(s, chunks, capacity, answers, a, first, l)
    ensures var second := Recover(config, first.store, [], capacity, answers, b, true, fatesB);
      var full := Recover(config, s, entries, capacity, answers, c, true, fatesC);
      second.alive && second.code.Recovered? && full.alive && full.code.Recovered? ==>
        SameStates(second.store, full.store) && second.entries == full.entries
  {
    StartedOnce(s, Ids(Flatten(chunks[..l])), answers, a, l);
    var m := RecoverKeeps(config, first.store, [], capacity, answers, b, true, fatesB);
    var n := RecoverKeeps(config, s, entries, capacity, answers, c, true, fatesC);
    var second := Recover(config, first.store, [], capacity, answers, b, true, fatesB);
    var full := Recover(config, s, entries, capacity, answers, c, true, fatesC);
    if second.alive && second.code.Recovered? && full.alive && full.code.Recovered? {
      GuaranteesAgree(s, first.store, chunks, RecoveryChunks(first.store, answers, b),
                      RecoveryChunks(s, answers, c), capacity, answers, a, b, c, first, second, full, l, m, n);
    }
  }

  /** However a first recovery ended, running another one gives the job states, the leases and the
      queue that a single uninterrupted recovery gives. */
  lemma Reentrant(config: StoreConfig, s: StoreState, entries: seq<QueueEntry>, capacity: nat, answers: Answers,
                  a: Time, b: Time, c: Time, loadOk: bool, fatesA: Fates, fatesB: Fates, fatesC: Fates)
    requires Consistent(s) && EmptyAtStart(s)
    ensures var first := Recover(config, s, entries, capacity, answers, a, loadOk, fatesA);
      var second := Recover(config, first.store, [], capacity, answers, b, true, fatesB);
      var full := Recover(config, s, entries, capacity, answers, c, true, fatesC);
      second.alive && second.code.Recovered? && full.alive && full.code.Recovered? ==>
        SameStates(second.store, full.store) && second.entries == full.entries
  {
    var l := RecoverKeeps(config, s, entries, capacity, answers, a, loadOk, fatesA);
    SecondAgrees(config, s, entries, capacity, answers, a, b, c, fatesB, fatesC, RecoveryChunks(s, answers, a),
                 Recover(config, s, entries, capacity, answers, a, loadOk, fatesA), l);
  }

  lemma NothingChanges(s: StoreState, answers: Answers, now: Time, n: nat)
    ensures Changing(Settle(s, Changing(s.jobs, answers), answers, now, n).jobs, answers) == {}
  {
    forall id | id in s.jobs ensures !Changes(After(s.jobs[id], answers, now), answers) {
      AfterSettled(s.jobs[id], answers, now);
    }
  }

  lemma EmptyPlan(t: StoreState, answers: Answers, now: Time)
    requires JobsSound(t.jobs) && Changing(t.jobs, answers) == {}
    ensures PlanOf(Load(t), answers, now) == []
  {
    LoadLists(t);
    PlanIsPlanned(t, Load(t), answers, now);
    var plan := PlanOf(Load(t), answers, now);
    assert plan == [] || plan[0].update.id in Ids(plan);
  }

  lemma EmptyPlanWritesNothing(config: StoreConfig, s: StoreState, snapshot: Snapshot, entries: seq<QueueEntry>,
                               capacity: nat, answers: Answers, now: Time, fates: Fates)
    requires PlanOf(snapshot, answers, now) == []
    ensures RecoverFrom(config, s, snapshot, entries, capacity, answers, now, fates).store == s
  {
    assert Chunks([], []) == [];
  }

  /** Recovering again after a success plans no mutation and writes nothing, whenever it runs. */
  lemma RecoveredStaysSettled(config: StoreConfig, s: StoreState, entries: seq<QueueEntry>, capacity: nat,
                              answers: Answers, now: Time, fates: Fates, later: Time, laterFates: Fates)
    requires Consistent(s) && EmptyAtStart(s)
    ensures var r := Recover(config, s, entries, capacity, answers, now, true, fates);
      r.alive && r.code.Recovered? ==>
        && PlanOf(Load(r.store), answers, later) == []
        && Recover(config, r.store, r.entries, capacity, answers, later, true, laterFates).store == r.store
  {
    var r := Recover(config, s, entries, capacity, answers, now, true, fates);
    var n := RecoverKeeps(config, s, entries, capacity, answers, now, true, fates);
    if r.alive && r.code.Recovered? {
      NothingChanges(s, answers, now, n);
      EmptyPlan(r.store, answers, later);
      EmptyPlanWritesNothing(config, r.store, Load(r.store), r.entries, capacity, answers, later, laterFates);
    }
  }
}
