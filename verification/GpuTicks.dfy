/** What every tick of the GPU sampler does, field by field, and what any number of ticks leave: the length and the
    last error of the running streak of failures (gpu_manager.cpp). */
module GpuTicks {
  import opened Basics
  import opened Job
  import opened Scheduler
  import opened GpuManagers

  /** The error of a tick: that of the provider, or 3 for an exception or a snapshot that is not sound. */
  function ErrorOf(t: Tick): Option<int> {
    match t.observed
    case Idle => None
    case Thrown => Some(3)
    case Refused(error) => Some(error)
    case Seen(snapshot) => if ValidSnapshot(snapshot) then None else Some(3)
  }

  /** A sound snapshot was seen and taken. */
  predicate Succeeds(t: Tick) {
    t.observed.Seen? && ValidSnapshot(t.observed.snapshot) && t.published
  }

  /** The device and its state are in the snapshot; with several of one uuid the first counts. */
  predicate Shows(devices: seq<Observation>, u: Uuid, state: ObservedState) {
    exists i :: 0 <= i < |devices| && devices[i].uuid == u && devices[i].state == state
      && forall k :: 0 <= k < i ==> devices[k].uuid != u
  }

  predicate Mirrors(states: StateMap, devices: seq<Observation>) {
    && (forall u :: u in states ==> Shows(devices, u, states[u]))
    && (forall i :: 0 <= i < |devices| ==> devices[i].uuid in states)
  }

  lemma {:induction false} StatesMirror(devices: seq<Observation>)
    ensures Mirrors(StatesOf(devices), devices)
  {
    if devices != [] {
      var n := |devices| - 1;
      var before := devices[..n];
      StatesMirror(before);
      forall u | u in StatesOf(devices) ensures Shows(devices, u, StatesOf(devices)[u]) {
        if u in StatesOf(before) {
          var i :| 0 <= i < n && before[i].uuid == u && before[i].state == StatesOf(before)[u]
            && forall k :: 0 <= k < i ==> before[k].uuid != u;
          assert devices[i] == before[i] && forall k :: 0 <= k < i ==> devices[k] == before[k];
        } else {
          assert forall k :: 0 <= k < n ==> before[k].uuid in StatesOf(before);
          assert forall k :: 0 <= k < n ==> devices[k] == before[k];
          assert devices[n].uuid == u && devices[n].state == StatesOf(devices)[u];
        }
      }
      forall i | 0 <= i < |devices| ensures devices[i].uuid in StatesOf(devices) {
        assert i < n ==> devices[i] == before[i];
      }
    }
  }

  /** Some device appeared, disappeared or changed its state. */
  predicate Moved(before: StateMap, after: StateMap) {
    before.Keys != after.Keys || exists u :: u in before && u in after && before[u] != after[u]
  }

  lemma MovedMeans(before: StateMap, after: StateMap)
    ensures Moved(before, after) <==> Changed(before, after) != []
  {
    UnchangedIsSame(before, after);
  }

  /** What a tick has to say of failures. */
  function OfStreak(w: Watch, t: Tick): Option<Notice> {
    if ErrorOf(t) != None then (if w.streak == 0 then Some(StreakStarted(ErrorOf(t).value)) else None)
    else if Succeeds(t) && w.streak > 0 then Some(StreakEnded(t.observed.snapshot.revision, w.streak))
    else None
  }

  /** What it has to say of devices. */
  function OfDevices(w: Watch, t: Tick): Option<Notice> {
    if Succeeds(t) && t.loaded && w.established && Moved(w.baseline, StatesOf(t.observed.snapshot.devices)) then
      Some(StateChanged(t.observed.snapshot.revision, Changed(w.baseline, StatesOf(t.observed.snapshot.devices))))
    else None
  }

  /** Each notice is tried once, that of the streak first; it says whether the one before it was dropped. */
  predicate Tried(w: Watch, t: Tick, log: seq<Attempt>, pending: bool) {
    var streak, devices := OfStreak(w, t), OfDevices(w, t);
    var told := if streak == None then w.pending else !t.takesStreak;
    var first := if streak == None then [] else [Attempt(streak.value, w.pending, t.takesStreak)];
    var second := if devices == None then [] else [Attempt(devices.value, told, t.takesChange)];
    log == w.log + first + second && pending == if devices == None then told else !t.takesChange
  }

  /** The baseline follows a snapshot that was read back, unless a change could not be told. */
  predicate Follows(w: Watch, t: Tick, baseline: StateMap, established: bool) {
    if Succeeds(t) && t.loaded then
      && established
      && baseline == if OfDevices(w, t) != None && !t.takesChange then w.baseline
                     else StatesOf(t.observed.snapshot.devices)
    else baseline == w.baseline && established == w.established
  }

  lemma NothingMore(log: seq<Attempt>)
    ensures log + [] == log
  {
  }

  lemma DetectMeans(w: Watch, revision: int, next: StateMap, accepted: bool)
    ensures var r := Detect(w, revision, next, accepted);
      var moved := w.established && Moved(w.baseline, next);
      && r.established && r.streak == w.streak && r.lastError == w.lastError
      && r.baseline == (if moved && !accepted then w.baseline else next)
      && r.pending == (if moved then !accepted else w.pending)
      && r.log == w.log
                  + if moved then [Attempt(StateChanged(revision, Changed(w.baseline, next)), w.pending, accepted)]
                    else []
  {
    MovedMeans(w.baseline, next);
    NothingMore(w.log);
  }

  lemma SuccessMeans(w: Watch, revision: int, accepted: bool)
    ensures var r := RecordSuccess(w, revision, accepted);
      && r.streak == 0 && r.lastError == 0 && r.baseline == w.baseline && r.established == w.established
      && r.pending == (if w.streak > 0 then !accepted else w.pending)
      && r.log == w.log + if w.streak > 0 then [Attempt(StreakEnded(revision, w.streak), w.pending, accepted)] else []
  {
    NothingMore(w.log);
  }

  lemma TakeMeans(w: Watch, t: Tick)
    requires Succeeds(t)
    ensures var r := Sample(w, t);
      && r.streak == 0 && r.lastError == 0
      && Tried(w, t, r.log, r.pending) && Follows(w, t, r.baseline, r.established)
  {
    var revision, next := t.observed.snapshot.revision, StatesOf(t.observed.snapshot.devices);
    var fine := RecordSuccess(w, revision, t.takesStreak);
    SuccessMeans(w, revision, t.takesStreak);
    DetectMeans(fine, revision, next, t.takesChange);
    NothingMore(fine.log);
    assert Sample(w, t) == if t.loaded then Detect(fine, revision, next, t.takesChange) else fine;
  }

  lemma FailMeans(w: Watch, t: Tick)
    requires ErrorOf(t) != None
    ensures var r := Sample(w, t);
      && r.streak == w.streak + 1 && r.lastError == ErrorOf(t).value
      && Tried(w, t, r.log, r.pending) && Follows(w, t, r.baseline, r.established)
  {
    NothingMore(w.log);
    NothingMore(Sample(w, t).log);
  }

  lemma IdleMeans(w: Watch, t: Tick)
    requires ErrorOf(t) == None && !Succeeds(t)
    ensures Sample(w, t) == w && Tried(w, t, w.log, w.pending) && Follows(w, t, w.baseline, w.established)
  {
    NothingMore(w.log);
  }

  /** Every tick, whatever answers it gets. */
  lemma TickMeans(w: Watch, t: Tick)
    ensures var r := Sample(w, t);
      && r.streak == (if Succeeds(t) then 0 else if ErrorOf(t) != None then w.streak + 1 else w.streak)
      && r.lastError == (if Succeeds(t) then 0 else if ErrorOf(t) != None then ErrorOf(t).value else w.lastError)
      && Tried(w, t, r.log, r.pending) && Follows(w, t, r.baseline, r.established)
  {
    if Succeeds(t) {
      TakeMeans(w, t);
    } else if ErrorOf(t) != None {
      FailMeans(w, t);
    } else {
      IdleMeans(w, t);
    }
  }

  // ---- Any number of ticks ----

  /** The errors since the last success. */
  function Failures(ticks: seq<Tick>): seq<int> {
    if ticks == [] then []
    else
      var before, t := Failures(ticks[..|ticks| - 1]), ticks[|ticks| - 1];
      if Succeeds(t) then [] else if ErrorOf(t) != None then before + [ErrorOf(t).value] else before
  }

  lemma {:induction false} LastTick(w: Watch, ticks: seq<Tick>, t: Tick)
    ensures SampleAll(w, ticks + [t]) == Sample(SampleAll(w, ticks), t)
    decreases ticks
  {
    if ticks == [] {
      assert (ticks + [t])[1..] == [];
    } else {
      assert (ticks + [t])[1..] == ticks[1..] + [t];
      LastTick(Sample(w, ticks[0]), ticks[1..], t);
    }
  }

  /** From the start of the daemon, the streak counts the failures since the last success, and the last error is
      that of the last of them, or 0. */
  lemma {:induction false} StreakCounts(ticks: seq<Tick>)
    ensures var w, failures := SampleAll(FRESH_WATCH, ticks), Failures(ticks);
      w.streak == |failures| && w.lastError == if failures == [] then 0 else failures[|failures| - 1]
  {
    if ticks != [] {
      var before, t := ticks[..|ticks| - 1], ticks[|ticks| - 1];
      StreakCounts(before);
      LastTick(FRESH_WATCH, before, t);
      assert ticks == before + [t];
      TickMeans(SampleAll(FRESH_WATCH, before), t);
    }
  }
}
