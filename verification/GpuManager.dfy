/** Periodic GPU sampling: the state baseline, its differences and the events about them (gpu_manager.cpp). */
module GpuManagers {
  import opened Basics
  import opened Job
  import opened Scheduler

  type StateMap = map<Uuid, ObservedState>

  // ---- States and differences ----

  /** The states by uuid; of several devices with one uuid the first counts. */
  function StatesOf(devices: seq<Observation>): StateMap {
    if devices == [] then map[]
    else
      var before, last := StatesOf(devices[..|devices| - 1]), devices[|devices| - 1];
      if last.uuid in before then before else before[last.uuid := last.state]
  }

  /** The uuids of a state map in iteration order. */
  function TextOrder(texts: set<string>): (order: seq<string>)
    ensures forall t :: t in order <==> t in texts
    ensures forall i, j :: 0 <= i < j < |order| ==> TextLess(order[i], order[j])
  {
    if texts == {} then []
    else
      var first := FirstText(texts);
      var rest := TextOrder(texts - {first});
      assert forall i :: 0 <= i < |rest| ==> rest[i] in rest;
      [first] + rest
  }

  /** The device appeared, disappeared or changed its state. */
  predicate Differs(previous: StateMap, current: StateMap, u: Uuid) {
    if u in previous && u in current then previous[u] != current[u] else u in previous || u in current
  }

  /** Of the first `i` uuids those that are new in `current` or changed. */
  function Fresh(previous: StateMap, current: StateMap, order: seq<Uuid>, i: nat): seq<Uuid>
    requires i <= |order|
  {
    if i == 0 then []
    else
      var u, before := order[i - 1], Fresh(previous, current, order, i - 1);
      if u !in previous || (u in current && previous[u] != current[u]) then before + [u] else before
  }

  /** Of the first `i` uuids those that `current` lacks. */
  function Gone(current: StateMap, order: seq<Uuid>, i: nat): seq<Uuid>
    requires i <= |order|
  {
    if i == 0 then []
    else if order[i - 1] !in current then Gone(current, order, i - 1) + [order[i - 1]]
    else Gone(current, order, i - 1)
  }

  function Changed(previous: StateMap, current: StateMap): seq<Uuid> {
    var later, earlier := TextOrder(current.Keys), TextOrder(previous.Keys);
    Fresh(previous, current, later, |later|) + Gone(current, earlier, |earlier|)
  }

  lemma {:induction false} FreshExact(previous: StateMap, current: StateMap, order: seq<Uuid>, i: nat, u: Uuid)
    requires i <= |order| && (forall k :: 0 <= k < |order| ==> order[k] in current)
    ensures u in Fresh(previous, current, order, i) <==> u in order[..i] && Differs(previous, current, u)
  {
    if i > 0 {
      FreshExact(previous, current, order, i - 1, u);
      assert order[..i] == order[..i - 1] + [order[i - 1]];
    }
  }

  lemma {:induction false} GoneExact(current: StateMap, order: seq<Uuid>, i: nat, u: Uuid)
    requires i <= |order|
    ensures u in Gone(current, order, i) <==> u in order[..i] && u !in current
  {
    if i > 0 {
      GoneExact(current, order, i - 1, u);
      assert order[..i] == order[..i - 1] + [order[i - 1]];
    }
  }

  /** The list names exactly the devices that differ. */
  lemma ChangedExact(previous: StateMap, current: StateMap, u: Uuid)
    ensures u in Changed(previous, current) <==> Differs(previous, current, u)
  {
    var later, earlier := TextOrder(current.Keys), TextOrder(previous.Keys);
    FreshExact(previous, current, later, |later|, u);
    GoneExact(current, earlier, |earlier|, u);
    assert later[..|later|] == later && earlier[..|earlier|] == earlier;
  }

  predicate Ascending(texts: seq<string>) {
    forall i, j :: 0 <= i < j < |texts| ==> TextLess(texts[i], texts[j])
  }

  lemma JoinDistinct(a: seq<string>, b: seq<string>)
    requires Ascending(a) && Ascending(b) && forall k :: 0 <= k < |a| ==> a[k] !in b
    ensures forall i, j :: 0 <= i < j < |a + b| ==> (a + b)[i] != (a + b)[j]
  {
    forall i, j | 0 <= i < j < |a + b| ensures (a + b)[i] != (a + b)[j] {
      if j < |a| {
        TextLessTotal(a[i], a[j]);
      } else if i < |a| {
        assert b[j - |a|] in b;
      } else {
        TextLessTotal(b[i - |a|], b[j - |a|]);
      }
    }
  }

  /** It names each once: the new and changed ones in order, then the lost ones in order. */
  lemma ChangedOnce(previous: StateMap, current: StateMap)
    ensures var later, earlier := TextOrder(current.Keys), TextOrder(previous.Keys);
      Ascending(Fresh(previous, current, later, |later|)) && Ascending(Gone(current, earlier, |earlier|))
    ensures var cs := Changed(previous, current); forall i, j :: 0 <= i < j < |cs| ==> cs[i] != cs[j]
  {
    var later, earlier := TextOrder(current.Keys), TextOrder(previous.Keys);
    var came, gone := Fresh(previous, current, later, |later|), Gone(current, earlier, |earlier|);
    FreshAscends(previous, current, later, |later|);
    GoneAscends(current, earlier, |earlier|);
    assert later[..|later|] == later;
    forall k | 0 <= k < |came| ensures came[k] !in gone {
      GoneExact(current, earlier, |earlier|, came[k]);
    }
    JoinDistinct(came, gone);
  }

  lemma {:induction false} FreshAscends(previous: StateMap, current: StateMap, order: seq<Uuid>, i: nat)
    requires i <= |order| && Ascending(order)
    ensures var f := Fresh(previous, current, order, i);
      Ascending(f) && forall k :: 0 <= k < |f| ==> f[k] in order[..i]
  {
    if i > 0 {
      FreshAscends(previous, current, order, i - 1);
      assert order[..i] == order[..i - 1] + [order[i - 1]];
    }
  }

  lemma {:induction false} GoneAscends(current: StateMap, order: seq<Uuid>, i: nat)
    requires i <= |order| && Ascending(order)
    ensures var f := Gone(current, order, i); Ascending(f) && forall k :: 0 <= k < |f| ==> f[k] in order[..i]
  {
    if i > 0 {
      GoneAscends(current, order, i - 1);
      assert order[..i] == order[..i - 1] + [order[i - 1]];
    }
  }

  /** The list is empty exactly if nothing differs. */
  lemma UnchangedIsSame(previous: StateMap, current: StateMap)
    ensures Changed(previous, current) == [] <==> previous == current
  {
    forall u: Uuid ensures u in Changed(previous, current) <==> Differs(previous, current, u) {
      ChangedExact(previous, current, u);
    }
    var cs := Changed(previous, current);
    if cs == [] {
      forall u: Uuid ensures (u in previous <==> u in current) && (u in previous ==> previous[u] == current[u]) {
        assert !Differs(previous, current, u);
      }
    } else {
      assert Differs(previous, current, cs[0]);
    }
  }

  /** In a valid snapshot every device's own state is recorded, */
  lemma {:induction false} StatesHold(devices: seq<Observation>, i: nat)
    requires DistinctDevices(devices) && i < |devices|
    ensures devices[i].uuid in StatesOf(devices) && StatesOf(devices)[devices[i].uuid] == devices[i].state
    decreases |devices|
  {
    var before, last := devices[..|devices| - 1], devices[|devices| - 1];
    if i < |before| {
      StatesHold(before, i);
    } else if last.uuid in StatesOf(before) {
      var k := StatesOnly(before, last.uuid);
    }
  }

  /** and no other. */
  lemma {:induction false} StatesOnly(devices: seq<Observation>, u: Uuid) returns (i: nat)
    requires u in StatesOf(devices)
    ensures i < |devices| && devices[i].uuid == u
  {
    var before := devices[..|devices| - 1];
    if u in StatesOf(before) {
      i := StatesOnly(before, u);
    } else {
      i := |devices| - 1;
    }
  }

  // ---- Sampling ----

  const NO_ERROR := 0
  const OBSERVATION_FAILED := 3

  datatype Notice =
    | StateChanged(revision: int, changed: seq<Uuid>)
    | StreakStarted(error: int)
    | StreakEnded(revisionAfter: int, failures: nat)

  /** One attempt to hand an event to the bounded channel. */
  datatype Attempt = Attempt(notice: Notice, droppedEarlier: bool, accepted: bool)

  /** `log` holds every attempt so far; the channel has seen the accepted ones. */
  datatype Watch = Watch(
    baseline: StateMap, established: bool, streak: nat, lastError: int, pending: bool, log: seq<Attempt>)

  const FRESH_WATCH := Watch(map[], false, 0, NO_ERROR, false, [])

  /** What the provider does in a tick. */
  datatype Observed = Idle | Thrown | Refused(error: int) | Seen(snapshot: GpuSnapshot)

  /** A tick and the answers it gets: whether the snapshot is published and can be read back, and whether
      the channel takes the event about the error streak and the one about changed devices. */
  datatype Tick = Tick(observed: Observed, published: bool, loaded: bool, takesStreak: bool, takesChange: bool)

  function Send(w: Watch, n: Notice, accepted: bool): Watch {
    w.(log := w.log + [Attempt(n, w.pending, accepted)], pending := !accepted)
  }

  function RecordFailure(w: Watch, error: int, accepted: bool): Watch {
    var failed := w.(streak := w.streak + 1, lastError := error);
    if w.streak == 0 then Send(failed, StreakStarted(error), accepted) else failed
  }

  function RecordSuccess(w: Watch, revision: int, accepted: bool): Watch {
    var fine := w.(streak := 0, lastError := NO_ERROR);
    if w.streak > 0 then Send(fine, StreakEnded(revision, w.streak), accepted) else fine
  }

  /** The baseline moves on unless the event about the change is rejected. */
  function Detect(w: Watch, revision: int, next: StateMap, accepted: bool): Watch {
    if !w.established then w.(baseline := next, established := true)
    else
      var changed := Changed(w.baseline, next);
      if changed == [] then w.(baseline := next)
      else
        var sent := Send(w, StateChanged(revision, changed), accepted);
        if accepted then sent.(baseline := next) else sent
  }

  function Take(w: Watch, revision: int, next: StateMap, t: Tick): Watch {
    if !t.published then w
    else
      var fine := RecordSuccess(w, revision, t.takesStreak);
      if t.loaded then Detect(fine, revision, next, t.takesChange) else fine
  }

  function Sample(w: Watch, t: Tick): Watch {
    match t.observed
    case Idle => w
    case Thrown => RecordFailure(w, OBSERVATION_FAILED, t.takesStreak)
    case Refused(error) => RecordFailure(w, error, t.takesStreak)
    case Seen(snapshot) =>
      if ValidSnapshot(snapshot) then Take(w, snapshot.revision, StatesOf(snapshot.devices), t)
      else RecordFailure(w, OBSERVATION_FAILED, t.takesStreak)
  }

  function SampleAll(w: Watch, ticks: seq<Tick>): Watch
    decreases ticks
  {
    if ticks == [] then w else SampleAll(Sample(w, ticks[0]), ticks[1..])
  }

  // ---- The channel's flag ----

  /** The `j`-th attempt was rejected and so were all up to the `i`-th. */
  predicate RejectedFrom(log: seq<Attempt>, i: int, j: int)
    requires 0 <= i <= |log|
  {
    0 <= j < i && forall k :: j <= k < i ==> !log[k].accepted
  }

  /** Since the last event the channel took before the `i`-th attempt, one was rejected. */
  predicate RejectedSince(log: seq<Attempt>, i: int)
    requires 0 <= i <= |log|
  {
    exists j :: 0 <= j < i && RejectedFrom(log, i, j)
  }

  /** Every attempt carries the flag exactly if an event was lost since the last one taken. */
  predicate Flagged(w: Watch) {
    && (w.pending <==> RejectedSince(w.log, |w.log|))
    && forall i :: 0 <= i < |w.log| ==> (w.log[i].droppedEarlier <==> RejectedSince(w.log, i))
  }

  /** A loss since the last taken event means that the attempt just before was rejected. */
  lemma RejectedIsLast(log: seq<Attempt>, i: int)
    requires 0 <= i <= |log|
    ensures RejectedSince(log, i) <==> i > 0 && !log[i - 1].accepted
  {
    assert i > 0 && !log[i - 1].accepted ==> RejectedFrom(log, i, i - 1);
  }

  lemma RejectedPrefix(log: seq<Attempt>, a: Attempt, i: int)
    requires 0 <= i <= |log|
    ensures RejectedSince(log + [a], i) == RejectedSince(log, i)
  {
    RejectedIsLast(log, i);
    RejectedIsLast(log + [a], i);
  }

  lemma SendFlagged(w: Watch, n: Notice, accepted: bool)
    requires Flagged(w)
    ensures Flagged(Send(w, n, accepted))
  {
    var a := Attempt(n, w.pending, accepted);
    var after := Send(w, n, accepted);
    RejectedIsLast(after.log, |after.log|);
    forall i | 0 <= i < |after.log| ensures after.log[i].droppedEarlier <==> RejectedSince(after.log, i) {
      RejectedPrefix(w.log, a, i);
    }
  }

  lemma FailureFlagged(w: Watch, error: int, accepted: bool)
    requires Flagged(w)
    ensures Flagged(RecordFailure(w, error, accepted))
  {
    SendFlagged(w.(streak := w.streak + 1, lastError := error), StreakStarted(error), accepted);
  }

  lemma SuccessFlagged(w: Watch, revision: int, accepted: bool)
    requires Flagged(w)
    ensures Flagged(RecordSuccess(w, revision, accepted))
  {
    SendFlagged(w.(streak := 0, lastError := NO_ERROR), StreakEnded(revision, w.streak), accepted);
  }

  lemma DetectFlagged(w: Watch, revision: int, next: StateMap, accepted: bool)
    requires Flagged(w)
    ensures Flagged(Detect(w, revision, next, accepted))
  {
    SendFlagged(w, StateChanged(revision, Changed(w.baseline, next)), accepted);
  }

  lemma TakeFlagged(w: Watch, revision: int, next: StateMap, t: Tick)
    requires Flagged(w)
    ensures Flagged(Take(w, revision, next, t))
  {
    SuccessFlagged(w, revision, t.takesStreak);
    DetectFlagged(RecordSuccess(w, revision, t.takesStreak), revision, next, t.takesChange);
  }

  lemma SampleFlagged(w: Watch, t: Tick)
    requires Flagged(w)
    ensures Flagged(Sample(w, t))
  {
    FailureFlagged(w, OBSERVATION_FAILED, t.takesStreak);
    match t.observed
    case Refused(error) => FailureFlagged(w, error, t.takesStreak);
    case Seen(snapshot) => TakeFlagged(w, snapshot.revision, StatesOf(snapshot.devices), t);
    case _ =>
  }

  /** Over every run, the flag of an event says exactly whether one was rejected since the last taken. */
  lemma {:induction false} FlagIsExact(w: Watch, ticks: seq<Tick>)
    requires Flagged(w)
    ensures Flagged(SampleAll(w, ticks))
    decreases ticks
  {
    if ticks != [] {
      SampleFlagged(w, ticks[0]);
      FlagIsExact(Sample(w, ticks[0]), ticks[1..]);
    }
  }

  // ---- The baseline ----

  predicate Extends(before: seq<Attempt>, after: seq<Attempt>) {
    |before| <= |after| && after[..|before|] == before
  }

  /** The attempt is an event, taken by the channel, that names exactly the differences. */
  predicate Announces(a: Attempt, previous: StateMap, current: StateMap) {
    a.accepted && a.notice.StateChanged? && a.notice.changed == Changed(previous, current) && a.notice.changed != []
  }

  /** In one tick an established baseline stays, or the last event of the tick, taken by the channel, names
      exactly the devices that differ between the old and the new one. No other taken event names devices. */
  predicate Announced(w: Watch, after: Watch) {
    && Extends(w.log, after.log) && (w.established ==> after.established)
    && (w.established ==>
          if after.baseline == w.baseline
          then forall i :: |w.log| <= i < |after.log| && after.log[i].accepted ==> !after.log[i].notice.StateChanged?
          else |after.log| > |w.log| && Announces(after.log[|after.log| - 1], w.baseline, after.baseline))
  }

  lemma DetectAnnounces(w: Watch, revision: int, next: StateMap, accepted: bool)
    ensures Announced(w, Detect(w, revision, next, accepted))
  {
    UnchangedIsSame(w.baseline, next);
  }

  /** Nothing about devices was said and the baseline did not move. */
  predicate Quiet(w: Watch, after: Watch) {
    && Extends(w.log, after.log) && after.established == w.established && after.baseline == w.baseline
    && forall i :: |w.log| <= i < |after.log| ==> !after.log[i].notice.StateChanged?
  }

  lemma FailureQuiet(w: Watch, error: int, accepted: bool)
    ensures Quiet(w, RecordFailure(w, error, accepted))
  {
  }

  lemma SuccessQuiet(w: Watch, revision: int, accepted: bool)
    ensures Quiet(w, RecordSuccess(w, revision, accepted))
  {
  }

  lemma QuietThen(a: Watch, b: Watch, c: Watch)
    requires Quiet(a, b) && Announced(b, c)
    ensures Announced(a, c)
  {
    assert c.log[..|a.log|] == c.log[..|b.log|][..|a.log|];
    forall i | |a.log| <= i < |b.log| ensures !c.log[i].notice.StateChanged? {
      assert c.log[i] == b.log[i];
    }
  }

  lemma TakeAnnounces(w: Watch, revision: int, next: StateMap, t: Tick)
    ensures Announced(w, Take(w, revision, next, t))
  {
    var fine := RecordSuccess(w, revision, t.takesStreak);
    SuccessQuiet(w, revision, t.takesStreak);
    DetectAnnounces(fine, revision, next, t.takesChange);
    QuietThen(w, fine, Detect(fine, revision, next, t.takesChange));
  }

  /** The baseline changes only together with an event that says how. */
  lemma SampleAnnounces(w: Watch, t: Tick)
    ensures Announced(w, Sample(w, t))
  {
    FailureQuiet(w, OBSERVATION_FAILED, t.takesStreak);
    match t.observed
    case Refused(error) => FailureQuiet(w, error, t.takesStreak);
    case Seen(snapshot) => TakeAnnounces(w, snapshot.revision, StatesOf(snapshot.devices), t);
    case _ =>
  }

  /** A tick whose events are taken brings the baseline up to the snapshot. */
  lemma TickCatchesUp(w: Watch, t: Tick)
    requires t.observed.Seen? && ValidSnapshot(t.observed.snapshot) && t.published && t.loaded && t.takesChange
    ensures var after := Sample(w, t); after.established && after.baseline == StatesOf(t.observed.snapshot.devices)
  {
  }

  /** The events taken after the first `from` attempts name the device. */
  ghost predicate Named(log: seq<Attempt>, from: int, u: Uuid) {
    exists i :: from <= i < |log| && 0 <= i && log[i].accepted && log[i].notice.StateChanged?
      && u in log[i].notice.changed
  }

  /** Over every run, however often events are rejected: a device whose baseline state changed was named. */
  lemma {:induction false} NoSilentChange(w: Watch, ticks: seq<Tick>, u: Uuid)
    requires w.established
    ensures var after := SampleAll(w, ticks);
      && after.established && Extends(w.log, after.log)
      && (Differs(w.baseline, after.baseline, u) ==> Named(after.log, |w.log|, u))
    decreases ticks
  {
    if ticks != [] {
      var next := Sample(w, ticks[0]);
      SampleAnnounces(w, ticks[0]);
      NoSilentChange(next, ticks[1..], u);
      var after := SampleAll(next, ticks[1..]);
      if Differs(w.baseline, next.baseline, u) {
        ChangedExact(w.baseline, next.baseline, u);
        var i := |next.log| - 1;
        assert after.log[i] == next.log[i];
        assert Named(after.log, |w.log|, u);
      }
    }
  }

  // ---- Error streaks ----

  /** Of the first `i` attempts, the last one about a streak says that it started. */
  predicate Streaking(log: seq<Attempt>, i: nat)
    requires i <= |log|
  {
    i > 0 && (log[i - 1].notice.StreakStarted? || (log[i - 1].notice.StateChanged? && Streaking(log, i - 1)))
  }

  /** Starts and ends of error streaks alternate, and a streak is open exactly while failures are counted. */
  predicate Alternates(w: Watch) {
    && (w.streak > 0 <==> Streaking(w.log, |w.log|))
    && forall i :: 0 <= i < |w.log| ==>
         && (w.log[i].notice.StreakStarted? ==> !Streaking(w.log, i))
         && (w.log[i].notice.StreakEnded? ==> Streaking(w.log, i) && w.log[i].notice.failures > 0)
  }

  lemma {:induction false} StreakingPrefix(log: seq<Attempt>, a: Attempt, i: nat)
    requires i <= |log|
    ensures Streaking(log + [a], i) == Streaking(log, i)
  {
    if i > 0 {
      StreakingPrefix(log, a, i - 1);
    }
  }

  /** What each notice says about the failures counted before and after it. */
  predicate Counts(n: Notice, before: nat, after: nat) {
    match n
    case StateChanged(_, _) => after == before
    case StreakStarted(_) => before == 0 && after == 1
    case StreakEnded(_, failures) => failures == before > 0 && after == 0
  }

  lemma SendAlternates(w: Watch, n: Notice, accepted: bool, after: Watch)
    requires Alternates(w) && after.log == Send(w, n, accepted).log
    requires Counts(n, w.streak, after.streak)
    ensures Alternates(after)
  {
    var a := Attempt(n, w.pending, accepted);
    forall i | 0 <= i <= |w.log| ensures Streaking(after.log, i) == Streaking(w.log, i) {
      StreakingPrefix(w.log, a, i);
    }
  }

  lemma FailureAlternates(w: Watch, error: int, accepted: bool)
    requires Alternates(w)
    ensures Alternates(RecordFailure(w, error, accepted))
  {
    if w.streak == 0 {
      SendAlternates(w, StreakStarted(error), accepted, RecordFailure(w, error, accepted));
    }
  }

  lemma TakeAlternates(w: Watch, revision: int, next: StateMap, t: Tick)
    requires Alternates(w)
    ensures Alternates(Take(w, revision, next, t))
  {
    var fine := RecordSuccess(w, revision, t.takesStreak);
    if w.streak > 0 {
      SendAlternates(w, StreakEnded(revision, w.streak), t.takesStreak, fine);
    }
    var after := Detect(fine, revision, next, t.takesChange);
    if fine.established && Changed(fine.baseline, next) != [] {
      SendAlternates(fine, StateChanged(revision, Changed(fine.baseline, next)), t.takesChange, after);
    }
  }

  lemma {:induction false} StreaksAlternate(w: Watch, ticks: seq<Tick>)
    requires Alternates(w)
    ensures Alternates(SampleAll(w, ticks))
    decreases ticks
  {
    if ticks != [] {
      var t := ticks[0];
      FailureAlternates(w, OBSERVATION_FAILED, t.takesStreak);
      match t.observed {
        case Refused(error) => FailureAlternates(w, error, t.takesStreak);
        case Seen(snapshot) => TakeAlternates(w, snapshot.revision, StatesOf(snapshot.devices), t);
        case _ =>
      }
      StreaksAlternate(Sample(w, t), ticks[1..]);
    }
  }

  /** All of it holds from the start of the daemon. */
  lemma FromTheStart(ticks: seq<Tick>)
    ensures Flagged(SampleAll(FRESH_WATCH, ticks)) && Alternates(SampleAll(FRESH_WATCH, ticks))
  {
    FlagIsExact(FRESH_WATCH, ticks);
    StreaksAlternate(FRESH_WATCH, ticks);
  }

  // ---- The manager ----

  method BuildStateMap(devices: seq<Observation>) returns (states: StateMap)
    ensures states == StatesOf(devices)
  {
    states := map[];
    for i := 0 to |devices|
      invariant states == StatesOf(devices[..i])
    {
      assert devices[..i + 1][..i] == devices[..i];
      if devices[i].uuid !in states {
        states := states[devices[i].uuid := devices[i].state];
      }
    }
    assert devices[..|devices|] == devices;
  }

  method CollectFresh(previous: StateMap, current: StateMap, order: seq<Uuid>) returns (came: seq<Uuid>)
    requires forall k :: 0 <= k < |order| ==> order[k] in current
    ensures came == Fresh(previous, current, order, |order|)
  {
    came := [];
    for i := 0 to |order|
      invariant came == Fresh(previous, current, order, i)
    {
      var u := order[i];
      if u !in previous || previous[u] != current[u] {
        came := came + [u];
      }
    }
  }

  method CollectGone(current: StateMap, order: seq<Uuid>) returns (gone: seq<Uuid>)
    ensures gone == Gone(current, order, |order|)
  {
    gone := [];
    for i := 0 to |order|
      invariant gone == Gone(current, order, i)
    {
      if order[i] !in current {
        gone := gone + [order[i]];
      }
    }
  }

  method DiffStates(previous: StateMap, current: StateMap) returns (changed: seq<Uuid>)
    ensures changed == Changed(previous, current)
  {
    var later, earlier := TextOrder(current.Keys), TextOrder(previous.Keys);
    var came := CollectFresh(previous, current, later);
    var gone := CollectGone(current, earlier);
    changed := came + gone;
  }

  class GpuManager {
    var baseline: StateMap
    var established: bool
    var streak: nat
    var lastError: int
    var pending: bool
    ghost var log: seq<Attempt>

    ghost function Now(): Watch
      reads this
    {
      Watch(baseline, established, streak, lastError, pending, log)
    }

    constructor ()
      ensures Now() == FRESH_WATCH
    {
      baseline, established, streak, lastError, pending, log := map[], false, 0, NO_ERROR, false, [];
    }

    /** `accepted` is the answer of the bounded channel. */
    method SendEvent(n: Notice, accepted: bool) returns (ok: bool)
      modifies this
      ensures Now() == Send(old(Now()), n, accepted) && ok == accepted
    {
      log := log + [Attempt(n, pending, accepted)];
      pending := !accepted;
      return accepted;
    }

    method FailTick(error: int, accepted: bool)
      modifies this
      ensures Now() == RecordFailure(old(Now()), error, accepted)
    {
      lastError := error;
      streak := streak + 1;
      if streak == 1 {
        var sent := SendEvent(StreakStarted(error), accepted);
      }
    }

    method PassTick(revision: int, accepted: bool)
      modifies this
      ensures Now() == RecordSuccess(old(Now()), revision, accepted)
    {
      lastError := NO_ERROR;
      var failures := streak;
      streak := 0;
      if failures > 0 {
        var sent := SendEvent(StreakEnded(revision, failures), accepted);
      }
    }

    method DetectChanges(revision: int, devices: seq<Observation>, accepted: bool)
      modifies this
      ensures Now() == Detect(old(Now()), revision, StatesOf(devices), accepted)
    {
      var next := BuildStateMap(devices);
      if !established {
        baseline, established := next, true;
        return;
      }
      var changed := DiffStates(baseline, next);
      if changed != [] {
        var sent := SendEvent(StateChanged(revision, changed), accepted);
        if !sent {
          return;
        }
      }
      baseline := next;
    }

    method SampleOnce(t: Tick)
      modifies this
      ensures Now() == Sample(old(Now()), t)
    {
      match t.observed
      case Idle =>
      case Thrown => FailTick(OBSERVATION_FAILED, t.takesStreak);
      case Refused(error) => FailTick(error, t.takesStreak);
      case Seen(snapshot) =>
        if !ValidSnapshot(snapshot) {
          FailTick(OBSERVATION_FAILED, t.takesStreak);
          return;
        }
        if !t.published {
          return;
        }
        PassTick(snapshot.revision, t.takesStreak);
        if t.loaded {
          DetectChanges(snapshot.revision, snapshot.devices, t.takesChange);
        }
    }
  }
}
