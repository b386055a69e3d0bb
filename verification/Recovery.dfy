/** Restart recovery: adopt verified processes, give up the rest, rebuild the queue (job_recovery.cpp). */
module Recovery {
  import opened Basics
  import opened Job
  import opened Store
  import opened Queue
  import opened StateStores

  datatype Verification = Verified | ProcessGone | Mismatch

  /** What the identity verifier answers for each job. Keyed by job, so that even a verifier that
      answers differently from call to call is covered. */
  type Answers = JobId -> Verification

  datatype Decision =
    | AdoptedRunning | AdoptedPromotedToRunning | AdoptedStoppingNeedsRecancel | QueuedRestored
    | LostProcessGone | LostIdentityMismatch | LostIdentityMissing | TerminalUntouched

  function Decide(record: StoredJob, answers: Answers): Decision {
    if record.state.Queued? then QueuedRestored
    else if !Leaseable(record.state) then TerminalUntouched
    else if !ValidIdentity(record.execution.identity) then LostIdentityMissing
    else match answers(record.id)
      case ProcessGone => LostProcessGone
      case Mismatch => LostIdentityMismatch
      case Verified =>
        if record.state.Starting? then AdoptedPromotedToRunning
        else if record.state.Stopping? then AdoptedStoppingNeedsRecancel
        else AdoptedRunning
  }

  predicate GivesUp(record: StoredJob, answers: Answers) {
    var d := Decide(record, answers);
    d.LostProcessGone? || d.LostIdentityMismatch? || d.LostIdentityMissing?
  }

  predicate Changes(record: StoredJob, answers: Answers) {
    GivesUp(record, answers) || Decide(record, answers).AdoptedPromotedToRunning?
  }

  // Each text is put together from words: their lengths and characters are then easy to prove.
  const PROCESS_GONE := "recovery: " + "process gone before " + "or during " + "daemon restart"
  const IDENTITY_MISMATCH :=
    "recovery: " + "pid reused by " + "another process " + "(pgid/start ticks " + "mismatch)"
  const IDENTITY_MISSING := "recovery: " + "active job without " + "recorded process " + "identity"

  function FailureReason(d: Decision): string {
    match d
    case LostProcessGone => PROCESS_GONE
    case LostIdentityMismatch => IDENTITY_MISMATCH
    case LostIdentityMissing => IDENTITY_MISSING
    case _ => ""
  }

  /** The record as recovery leaves it. */
  function After(record: StoredJob, answers: Answers, now: Time): StoredJob {
    if GivesUp(record, answers) then
      record.(state := JobState.Lost, revision := record.revision + 1,
              execution := record.execution.(failureReason := Some(FailureReason(Decide(record, answers))),
                                             endTime := Some(now)))
    else if Changes(record, answers) then record.(state := JobState.Running, revision := record.revision + 1)
    else record
  }

  /** The first lease of a job, in the order of the snapshot. */
  function LeaseOf(leases: Leases, id: JobId): (r: Option<Uuid>)
    ensures r.Some? ==> r.value in leases && leases[r.value] == id
    ensures r.None? <==> id !in leases.Values
  {
    var held := set u | u in leases && leases[u] == id;
    if held == {} then
      assert forall u :: u in leases && leases[u] == id ==> u in held;
      None
    else Some(FirstText(held))
  }

  datatype Outcome = Outcome(job: JobId, previous: JobState, decision: Decision, released: Option<Uuid>)

  function OutcomeFor(record: StoredJob, leases: Leases, answers: Answers): Outcome {
    Outcome(record.id, record.state, Decide(record, answers),
            if GivesUp(record, answers) then LeaseOf(leases, record.id) else None)
  }

  /** One job's update together with the lease to release in the same mutation. */
  datatype Entry = Entry(update: StoredJob, release: Option<Uuid>)

  function EntryFor(record: StoredJob, leases: Leases, answers: Answers, now: Time): Entry {
    Entry(After(record, answers, now), if GivesUp(record, answers) then LeaseOf(leases, record.id) else None)
  }

  function Outcomes(records: seq<StoredJob>, n: nat, leases: Leases, answers: Answers): seq<Outcome>
    requires n <= |records|
  {
    if n == 0 then [] else Outcomes(records, n - 1, leases, answers) + [OutcomeFor(records[n - 1], leases, answers)]
  }

  function Plan(records: seq<StoredJob>, n: nat, leases: Leases, answers: Answers, now: Time): seq<Entry>
    requires n <= |records|
  {
    if n == 0 then []
    else
      var before := Plan(records, n - 1, leases, answers, now);
      if Changes(records[n - 1], answers) then before + [EntryFor(records[n - 1], leases, answers, now)] else before
  }

  // ---- Chunks ----

  function Weight(e: Entry): nat {
    if e.release.Some? then 2 else 1
  }

  function Updates(c: seq<Entry>): (r: seq<StoredJob>)
    ensures |r| == |c| && forall i :: 0 <= i < |c| ==> r[i] == c[i].update
  {
    seq(|c|, i requires 0 <= i < |c| => c[i].update)
  }

  function Releases(c: seq<Entry>): seq<Uuid> {
    if c == [] then []
    else
      var last := c[|c| - 1];
      Releases(c[..|c| - 1]) + (if last.release.Some? then [last.release.value] else [])
  }

  function Size(c: seq<Entry>): nat {
    |Updates(c)| + |Releases(c)|
  }

  function MutationOf(expected: int, c: seq<Entry>): StateMutation {
    StateMutation(expected, [], Updates(c), [], Releases(c))
  }

  /** The plan cut into mutations: `open` is the chunk being filled. */
  function Chunks(open: seq<Entry>, rest: seq<Entry>): seq<seq<Entry>>
    decreases rest
  {
    if rest == [] then (if open == [] then [] else [open])
    else if Size(open) + Weight(rest[0]) > MAX_ENTRIES then [open] + Chunks([rest[0]], rest[1..])
    else Chunks(open + [rest[0]], rest[1..])
  }

  function Flatten(chunks: seq<seq<Entry>>): seq<Entry> {
    if chunks == [] then [] else chunks[0] + Flatten(chunks[1..])
  }

  lemma SizeOfOne(c: seq<Entry>, e: Entry)
    ensures Size(c + [e]) == Size(c) + Weight(e)
    ensures Releases(c + [e]) == Releases(c) + if e.release.Some? then [e.release.value] else []
    ensures Updates(c + [e]) == Updates(c) + [e.update]
  {
    assert (c + [e])[..|c|] == c;
  }

  predicate Sound(chunks: seq<seq<Entry>>) {
    forall k :: 0 <= k < |chunks| ==> 1 <= Size(chunks[k]) <= MAX_ENTRIES
  }

  lemma SoundMore(c: seq<Entry>, chunks: seq<seq<Entry>>)
    requires Sound(chunks) && 1 <= Size(c) <= MAX_ENTRIES
    ensures Sound([c] + chunks) && Flatten([c] + chunks) == c + Flatten(chunks)
  {
    assert ([c] + chunks)[1..] == chunks;
  }

  lemma SizeOfFirst(e: Entry)
    ensures Size([e]) == Weight(e)
  {
    SizeOfOne([], e);
    assert [] + [e] == [e];
  }

  /** Cutting keeps the plan: every chunk is a mutation of 1 to 64 entries, and put end to end the
      chunks are the plan itself, so no update is separated from its release. */
  lemma {:induction false} ChunksKeepPlan(open: seq<Entry>, rest: seq<Entry>)
    requires Size(open) <= MAX_ENTRIES
    ensures Flatten(Chunks(open, rest)) == open + rest && Sound(Chunks(open, rest))
    decreases rest
  {
    if rest == [] {
      SoundMoreOrNone(open);
    } else {
      SizeOfOne(open, rest[0]);
      SizeOfFirst(rest[0]);
      if Size(open) + Weight(rest[0]) > MAX_ENTRIES {
        ChunksKeepPlan([rest[0]], rest[1..]);
        SoundMore(open, Chunks([rest[0]], rest[1..]));
        assert [rest[0]] + rest[1..] == rest;
      } else {
        ChunksKeepPlan(open + [rest[0]], rest[1..]);
        assert open + [rest[0]] + rest[1..] == open + rest;
      }
    }
  }

  lemma SoundMoreOrNone(open: seq<Entry>)
    requires Size(open) <= MAX_ENTRIES
    ensures Flatten(Chunks(open, [])) == open + [] && Sound(Chunks(open, []))
  {
    if open != [] {
      SoundMore(open, []);
      assert [open] + [] == [open];
    }
  }
}
