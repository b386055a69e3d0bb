/** GPU observations and the choice of one job and one device per scheduling run
    (gpu_provider.cpp, scheduler.hpp, scheduler.cpp). */
module Scheduler {
  import opened Basics
  import opened Job
  import opened Store
  import opened Queue
  import opened StateStores

  datatype ObservedState = Free | ExternalBusy | GpuUnavailable

  datatype Telemetry = Telemetry(utilization: Option<int>, memoryTotal: Option<int>, memoryUsed: Option<int>)

  datatype Observation = Observation(uuid: Uuid, index: int, state: ObservedState, telemetry: Telemetry)

  datatype GpuSnapshot = GpuSnapshot(revision: int, observedAt: Time, devices: seq<Observation>)

  const MAX_DEVICES := 128

  predicate ValidTelemetry(t: Telemetry) {
    && (t.utilization.Some? ==> t.utilization.value <= 100)
    && (t.memoryUsed.Some? ==> t.memoryTotal.Some? && t.memoryUsed.value <= t.memoryTotal.value)
    && (t.memoryTotal.Some? ==> t.memoryTotal.value != 0)
  }

  /** No uuid and no physical index occurs twice. */
  predicate DistinctDevices(devices: seq<Observation>) {
    forall i, j :: 0 <= i < j < |devices| ==>
      devices[i].uuid != devices[j].uuid && devices[i].index != devices[j].index
  }

  predicate ValidSnapshot(s: GpuSnapshot) {
    && s.revision != 0 && s.observedAt > 0 && |s.devices| <= MAX_DEVICES
    && (forall i :: 0 <= i < |s.devices| ==> ValidUuid(s.devices[i].uuid) && ValidTelemetry(s.devices[i].telemetry))
    && DistinctDevices(s.devices)
  }

  // ---- Choosing a device ----

  datatype SelectionReason = DefaultChoice | AvoidRequiredAffinity | AffinityFallback | PreferredFallback

  datatype WaitReason = NoFreeGpu | AffinityGpuAllocated | AffinityGpuExternal | AffinityGpuState

  predicate Usable(d: Observation, leases: Leases) {
    d.state.Free? && d.uuid !in leases
  }

  /** The running best after `n` devices: usable, outside `avoid`, of strictly lower index than before. */
  function LowestOf(devices: seq<Observation>, n: nat, leases: Leases, avoid: set<Uuid>): Option<Observation>
    requires n <= |devices|
  {
    if n == 0 then None
    else
      var best := LowestOf(devices, n - 1, leases, avoid);
      var d := devices[n - 1];
      if Usable(d, leases) && d.uuid !in avoid && (best.None? || d.index < best.value.index) then Some(d) else best
  }

  function SelectAny(devices: seq<Observation>, leases: Leases, targets: set<Uuid>)
    : (Option<Observation>, SelectionReason)
  {
    var fallback := LowestOf(devices, |devices|, leases, {});
    var preferred := LowestOf(devices, |devices|, leases, targets);
    if preferred.Some? then (preferred, if preferred == fallback then DefaultChoice else AvoidRequiredAffinity)
    else if fallback.Some? then (fallback, AffinityFallback)
    else (None, DefaultChoice)
  }

  function FindDevice(devices: seq<Observation>, uuid: Uuid): (d: Option<Observation>)
    ensures d.Some? ==> d.value in devices && d.value.uuid == uuid
    ensures d.None? ==> forall i :: 0 <= i < |devices| ==> devices[i].uuid != uuid
  {
    if devices == [] then None
    else if devices[0].uuid == uuid then Some(devices[0])
    else FindDevice(devices[1..], uuid)
  }

  function SelectRequired(devices: seq<Observation>, leases: Leases, wanted: seq<Uuid>, n: nat): Option<Observation>
    requires n <= |wanted|
  {
    if n == 0 then None
    else
      var best := SelectRequired(devices, leases, wanted, n - 1);
      var d := FindDevice(devices, wanted[n - 1]);
      if d.Some? && Usable(d.value, leases) && (best.None? || d.value.index < best.value.index) then d else best
  }

  predicate AnyLeased(leases: Leases, wanted: seq<Uuid>) {
    exists i :: 0 <= i < |wanted| && wanted[i] in leases
  }

  predicate AnyExternal(devices: seq<Observation>, wanted: seq<Uuid>) {
    exists i :: 0 <= i < |wanted| && FindDevice(devices, wanted[i]).Some?
      && FindDevice(devices, wanted[i]).value.state.ExternalBusy?
  }

  /** The observed device of lowest index among the first `n` wanted ones. */
  function Representative(devices: seq<Observation>, wanted: seq<Uuid>, n: nat): Option<Observation>
    requires n <= |wanted|
  {
    if n == 0 then None
    else
      var best := Representative(devices, wanted, n - 1);
      var d := FindDevice(devices, wanted[n - 1]);
      if d.Some? && (best.None? || d.value.index < best.value.index) then d else best
  }

  datatype Skip = Skip(job: JobId, reason: WaitReason, target: Option<Uuid>)

  function RequiredWait(devices: seq<Observation>, leases: Leases, wanted: seq<Uuid>): (WaitReason, Option<Uuid>) {
    var shown := Representative(devices, wanted, |wanted|);
    var target := if shown.Some? then Some(shown.value.uuid) else None;
    (if AnyLeased(leases, wanted) then AffinityGpuAllocated
     else if AnyExternal(devices, wanted) then AffinityGpuExternal
     else AffinityGpuState, target)
  }

  /** The device and reason for one job, given the choice that ANY jobs would get. */
  function Choose(devices: seq<Observation>, leases: Leases, anyChoice: (Option<Observation>, SelectionReason),
                  p: GpuPlacement)
    : (Option<Observation>, SelectionReason)
  {
    match p.mode
    case Required => (SelectRequired(devices, leases, p.devices, |p.devices|), DefaultChoice)
    case Preferred =>
      var target := if p.devices == [] then None else FindDevice(devices, p.devices[0]);
      if target.Some? && Usable(target.value, leases) then (target, DefaultChoice)
      else if anyChoice.0.Some? then (anyChoice.0, PreferredFallback)
      else (None, DefaultChoice)
    case AnyGpu => anyChoice
  }

  // ---- What the choice means ----

  ghost function Candidates(devices: seq<Observation>, leases: Leases, allowed: iset<Uuid>): iset<Observation> {
    iset d | d in devices && Usable(d, leases) && d.uuid in allowed
  }

  ghost function Observed(devices: seq<Observation>, wanted: iset<Uuid>): iset<Observation> {
    iset d | d in devices && d.uuid in wanted
  }

  /** `best` is a candidate of lowest physical index, or there is no candidate. */
  ghost predicate Picks(best: Option<Observation>, candidates: iset<Observation>) {
    match best
    case Some(d) => d in candidates && forall x :: x in candidates ==> d.index <= x.index
    case None => forall x :: x !in candidates
  }

  ghost function Outside(avoid: set<Uuid>): iset<Uuid> {
    iset u: Uuid | u !in avoid
  }

  ghost function Within(wanted: seq<Uuid>): iset<Uuid> {
    iset u: Uuid | u in wanted
  }

  /** What an ANY job gets: the lowest usable device that no waiting REQUIRED job names, if there is
      one, and otherwise the lowest usable device. The reason tells the three cases apart. */
  ghost predicate AnySpec(devices: seq<Observation>, leases: Leases, targets: set<Uuid>,
                          r: (Option<Observation>, SelectionReason)) {
    var all := Candidates(devices, leases, Outside({}));
    var clear := Candidates(devices, leases, Outside(targets));
    && Picks(r.0, if clear != iset{} then clear else all)
    && r.1 == (if all == iset{} then DefaultChoice
               else if clear == iset{} then AffinityFallback
               else if Picks(r.0, all) then DefaultChoice
               else AvoidRequiredAffinity)
  }

  /** What a job gets under its placement mode. */
  ghost predicate ChoiceSpec(devices: seq<Observation>, leases: Leases, targets: set<Uuid>, p: GpuPlacement,
                             r: (Option<Observation>, SelectionReason))
    requires p.mode.Preferred? ==> p.devices != []
  {
    match p.mode
    case Required => Picks(r.0, Candidates(devices, leases, Within(p.devices))) && r.1.DefaultChoice?
    case AnyGpu => AnySpec(devices, leases, targets, r)
    case Preferred =>
      var target := Candidates(devices, leases, Within([p.devices[0]]));
      if target != iset{} then Picks(r.0, target) && r.1.DefaultChoice?
      else
        exists reason :: AnySpec(devices, leases, targets, (r.0, reason))
          && r.1 == if r.0.Some? then PreferredFallback else DefaultChoice
  }

  lemma {:induction false} LowestOfPicks(devices: seq<Observation>, n: nat, leases: Leases, avoid: set<Uuid>)
    requires n <= |devices|
    ensures Picks(LowestOf(devices, n, leases, avoid), Candidates(devices[..n], leases, Outside(avoid)))
  {
    if n > 0 {
      LowestOfPicks(devices, n - 1, leases, avoid);
      assert devices[..n] == devices[..n - 1] + [devices[n - 1]];
      assert forall x :: x in Candidates(devices[..n], leases, Outside(avoid)) <==>
        x in Candidates(devices[..n - 1], leases, Outside(avoid))
        || (x == devices[n - 1] && Usable(x, leases) && x.uuid !in avoid);
    }
  }

  lemma {:induction false} SelectRequiredPicks(devices: seq<Observation>, leases: Leases, wanted: seq<Uuid>, n: nat)
    requires DistinctDevices(devices) && n <= |wanted|
    ensures Picks(SelectRequired(devices, leases, wanted, n), Candidates(devices, leases, Within(wanted[..n])))
  {
    if n > 0 {
      SelectRequiredPicks(devices, leases, wanted, n - 1);
      assert wanted[..n] == wanted[..n - 1] + [wanted[n - 1]];
      FoundIsOnly(devices, wanted[n - 1]);
      assert forall x :: x in Candidates(devices, leases, Within(wanted[..n])) <==>
        x in Candidates(devices, leases, Within(wanted[..n - 1]))
        || (FindDevice(devices, wanted[n - 1]) == Some(x) && Usable(x, leases));
    }
  }

  lemma {:induction false} RepresentativePicks(devices: seq<Observation>, wanted: seq<Uuid>, n: nat)
    requires DistinctDevices(devices) && n <= |wanted|
    ensures Picks(Representative(devices, wanted, n), Observed(devices, Within(wanted[..n])))
  {
    if n > 0 {
      RepresentativePicks(devices, wanted, n - 1);
      assert wanted[..n] == wanted[..n - 1] + [wanted[n - 1]];
      FoundIsOnly(devices, wanted[n - 1]);
      assert forall x :: x in Observed(devices, Within(wanted[..n])) <==>
        x in Observed(devices, Within(wanted[..n - 1])) || FindDevice(devices, wanted[n - 1]) == Some(x);
    }
  }

  lemma {:induction false} FoundIsOnly(devices: seq<Observation>, uuid: Uuid)
    requires DistinctDevices(devices)
    ensures forall x :: x in devices && x.uuid == uuid ==> FindDevice(devices, uuid) == Some(x)
  {
    forall x | x in devices && x.uuid == uuid ensures FindDevice(devices, uuid) == Some(x) {
      var i :| 0 <= i < |devices| && devices[i] == x;
      var found := FindDevice(devices, uuid).value;
      var j :| 0 <= j < |devices| && devices[j] == found;
    }
  }

  /** Distinct physical indexes leave at most one lowest device. */
  lemma PicksUnique(devices: seq<Observation>, candidates: iset<Observation>, a: Option<Observation>,
                    b: Option<Observation>)
    requires DistinctDevices(devices) && forall x :: x in candidates ==> x in devices
    requires Picks(a, candidates) && Picks(b, candidates)
    ensures a == b
  {
    if a.Some? && b.Some? {
      var i :| 0 <= i < |devices| && devices[i] == a.value;
      var j :| 0 <= j < |devices| && devices[j] == b.value;
    }
  }

  lemma SelectAnySpec(devices: seq<Observation>, leases: Leases, targets: set<Uuid>)
    requires DistinctDevices(devices)
    ensures AnySpec(devices, leases, targets, SelectAny(devices, leases, targets))
  {
    var all := Candidates(devices, leases, Outside({}));
    var clear := Candidates(devices, leases, Outside(targets));
    var fallback := LowestOf(devices, |devices|, leases, {});
    var preferred := LowestOf(devices, |devices|, leases, targets);
    assert devices[..|devices|] == devices;
    LowestOfPicks(devices, |devices|, leases, {});
    LowestOfPicks(devices, |devices|, leases, targets);
    if Picks(preferred, all) {
      PicksUnique(devices, all, preferred, fallback);
    }
    assert preferred.Some? <==> clear != iset{};
    assert fallback.Some? <==> all != iset{};
    assert forall x :: x in clear ==> x in all;
  }

  /** Every choice, in every mode, is the one the placement rules name. */
  lemma ChooseSpec(devices: seq<Observation>, leases: Leases, targets: set<Uuid>, p: GpuPlacement)
    requires DistinctDevices(devices) && ValidPlacement(p)
    ensures ChoiceSpec(devices, leases, targets, p, Choose(devices, leases, SelectAny(devices, leases, targets), p))
  {
    SelectAnySpec(devices, leases, targets);
    match p.mode {
      case Required =>
        SelectRequiredPicks(devices, leases, p.devices, |p.devices|);
        assert p.devices[..|p.devices|] == p.devices;
      case Preferred =>
        FoundIsOnly(devices, p.devices[0]);
        var target := Candidates(devices, leases, Within([p.devices[0]]));
        var found := FindDevice(devices, p.devices[0]);
        if found.Some? && Usable(found.value, leases) {
          assert found.value in target;
        }
        assert target != iset{} ==> exists x :: x in target;
      case AnyGpu =>
    }
  }

  // ---- What a wait reason means ----

  /** A job that waits because none of its devices is usable: a leased one comes before an externally used one,
      and the observed device of lowest index is shown. A job that would take any device just waits for one. */
  ghost predicate WaitSpec(devices: seq<Observation>, leases: Leases, p: GpuPlacement, reason: WaitReason,
                           target: Option<Uuid>) {
    var leased := exists u :: u in p.devices && u in leases;
    var external := exists d :: d in devices && d.uuid in p.devices && d.state == ExternalBusy;
    if p.mode != Required then reason == NoFreeGpu && target == None
    else
      && (reason == AffinityGpuAllocated <==> leased)
      && (reason == AffinityGpuExternal <==> !leased && external)
      && (reason == AffinityGpuState <==> !leased && !external)
      && (target == None <==> forall d :: d in devices ==> d.uuid !in p.devices)
      && (target.Some? ==> exists d :: d in devices && LowestShown(devices, p.devices, d) && d.uuid == target.value)
  }

  predicate LowestShown(devices: seq<Observation>, wanted: seq<Uuid>, d: Observation) {
    d.uuid in wanted && forall x :: x in devices && x.uuid in wanted ==> d.index <= x.index
  }

  lemma LeasedMeans(leases: Leases, wanted: seq<Uuid>)
    ensures AnyLeased(leases, wanted) <==> exists u :: u in wanted && u in leases
  {
    if u :| u in wanted && u in leases {
      var i :| 0 <= i < |wanted| && wanted[i] == u;
    }
  }

  lemma ExternalMeans(devices: seq<Observation>, wanted: seq<Uuid>)
    requires DistinctDevices(devices)
    ensures AnyExternal(devices, wanted) <==>
      exists d :: d in devices && d.uuid in wanted && d.state == ExternalBusy
  {
    if d :| d in devices && d.uuid in wanted && d.state == ExternalBusy {
      var i :| 0 <= i < |wanted| && wanted[i] == d.uuid;
      FoundIsOnly(devices, d.uuid);
    }
  }

  lemma RequiredWaitMeans(devices: seq<Observation>, leases: Leases, p: GpuPlacement)
    requires DistinctDevices(devices) && p.mode == Required
    ensures var wait := RequiredWait(devices, leases, p.devices); WaitSpec(devices, leases, p, wait.0, wait.1)
  {
    var shown := Representative(devices, p.devices, |p.devices|);
    LeasedMeans(leases, p.devices);
    ExternalMeans(devices, p.devices);
    RepresentativePicks(devices, p.devices, |p.devices|);
    assert p.devices[..|p.devices|] == p.devices;
    forall d | d in devices && d.uuid in p.devices ensures d in Observed(devices, Within(p.devices)) {
    }
    if shown.Some? {
      assert LowestShown(devices, p.devices, shown.value);
    }
  }

  // ---- The order in which devices and set members are listed does not matter ----

  ghost predicate SameMembers<T(!new)>(a: seq<T>, b: seq<T>) {
    forall x :: x in a <==> x in b
  }

  lemma FindSame(devices: seq<Observation>, other: seq<Observation>, uuid: Uuid)
    requires DistinctDevices(devices) && DistinctDevices(other) && SameMembers(devices, other)
    ensures FindDevice(devices, uuid) == FindDevice(other, uuid)
  {
    FoundIsOnly(devices, uuid);
    FoundIsOnly(other, uuid);
    var a, b := FindDevice(devices, uuid), FindDevice(other, uuid);
    assert a.Some? ==> a.value in other;
    assert b.Some? ==> b.value in devices;
  }

  lemma LowestSame(devices: seq<Observation>, other: seq<Observation>, leases: Leases, avoid: set<Uuid>)
    requires DistinctDevices(devices) && DistinctDevices(other) && SameMembers(devices, other)
    ensures LowestOf(devices, |devices|, leases, avoid) == LowestOf(other, |other|, leases, avoid)
  {
    var candidates := Candidates(devices, leases, Outside(avoid));
    assert devices[..|devices|] == devices && other[..|other|] == other;
    LowestOfPicks(devices, |devices|, leases, avoid);
    LowestOfPicks(other, |other|, leases, avoid);
    assert candidates == Candidates(other, leases, Outside(avoid));
    PicksUnique(devices, candidates, LowestOf(devices, |devices|, leases, avoid),
                LowestOf(other, |other|, leases, avoid));
  }

  lemma RequiredSame(devices: seq<Observation>, other: seq<Observation>, leases: Leases, wanted: seq<Uuid>,
                     again: seq<Uuid>)
    requires DistinctDevices(devices) && DistinctDevices(other) && SameMembers(devices, other)
    requires SameMembers(wanted, again)
    ensures SelectRequired(devices, leases, wanted, |wanted|) == SelectRequired(other, leases, again, |again|)
    ensures Representative(devices, wanted, |wanted|) == Representative(other, again, |again|)
  {
    assert wanted[..|wanted|] == wanted && again[..|again|] == again;
    assert Within(wanted) == Within(again);
    var candidates := Candidates(devices, leases, Within(wanted));
    assert candidates == Candidates(other, leases, Within(again));
    SelectRequiredPicks(devices, leases, wanted, |wanted|);
    SelectRequiredPicks(other, leases, again, |again|);
    PicksUnique(devices, candidates, SelectRequired(devices, leases, wanted, |wanted|),
                SelectRequired(other, leases, again, |again|));
    var observed := Observed(devices, Within(wanted));
    assert observed == Observed(other, Within(again));
    RepresentativePicks(devices, wanted, |wanted|);
    RepresentativePicks(other, again, |again|);
    PicksUnique(devices, observed, Representative(devices, wanted, |wanted|), Representative(other, again, |again|));
  }

  lemma WaitSame(devices: seq<Observation>, other: seq<Observation>, leases: Leases, wanted: seq<Uuid>,
                 again: seq<Uuid>)
    requires DistinctDevices(devices) && DistinctDevices(other) && SameMembers(devices, other)
    requires SameMembers(wanted, again)
    ensures AnyLeased(leases, wanted) ==> AnyLeased(leases, again)
    ensures AnyExternal(devices, wanted) ==> AnyExternal(other, again)
  {
    if AnyLeased(leases, wanted) {
      var i :| 0 <= i < |wanted| && wanted[i] in leases;
      assert wanted[i] in again;
      var j :| 0 <= j < |again| && again[j] == wanted[i];
    }
    if AnyExternal(devices, wanted) {
      var i :| 0 <= i < |wanted| && FindDevice(devices, wanted[i]).Some?
        && FindDevice(devices, wanted[i]).value.state.ExternalBusy?;
      FindSame(devices, other, wanted[i]);
      assert wanted[i] in again;
      var j :| 0 <= j < |again| && again[j] == wanted[i];
    }
  }

  /** Reordering the snapshot's devices or a job's device set changes neither the chosen device, nor
      the selection reason, nor the reason and target reported for a skipped job. */
  lemma ChoicePermutation(devices: seq<Observation>, other: seq<Observation>, leases: Leases, targets: set<Uuid>,
                          p: GpuPlacement, q: GpuPlacement)
    requires DistinctDevices(devices) && DistinctDevices(other) && SameMembers(devices, other)
    requires ValidPlacement(p) && ValidPlacement(q) && p.mode == q.mode && SameMembers(p.devices, q.devices)
    ensures Choose(devices, leases, SelectAny(devices, leases, targets), p)
         == Choose(other, leases, SelectAny(other, leases, targets), q)
    ensures RequiredWait(devices, leases, p.devices) == RequiredWait(other, leases, q.devices)
  {
    LowestSame(devices, other, leases, {});
    LowestSame(devices, other, leases, targets);
    RequiredSame(devices, other, leases, p.devices, q.devices);
    WaitSame(devices, other, leases, p.devices, q.devices);
    WaitSame(other, devices, leases, q.devices, p.devices);
    if p.mode.Preferred? {
      assert p.devices[0] in q.devices;
      FindSame(devices, other, p.devices[0]);
    }
  }

  // ---- The loops ----

  method SelectAnyGpu(devices: seq<Observation>, leases: Leases, targets: set<Uuid>)
    returns (choice: Option<Observation>, reason: SelectionReason)
    ensures (choice, reason) == SelectAny(devices, leases, targets)
  {
    var preferred, fallback: Option<Observation> := None, None;
    for i := 0 to |devices|
      invariant fallback == LowestOf(devices, i, leases, {})
      invariant preferred == LowestOf(devices, i, leases, targets)
    {
      var d := devices[i];
      if Usable(d, leases) {
        if fallback.None? || d.index < fallback.value.index {
          fallback := Some(d);
        }
        if d.uuid !in targets && (preferred.None? || d.index < preferred.value.index) {
          preferred := Some(d);
        }
      }
    }
    if preferred.Some? {
      return preferred, if preferred == fallback then DefaultChoice else AvoidRequiredAffinity;
    }
    if fallback.Some? {
      return fallback, AffinityFallback;
    }
    return None, DefaultChoice;
  }

  method SelectRequiredGpu(devices: seq<Observation>, leases: Leases, wanted: seq<Uuid>)
    returns (selected: Option<Observation>)
    ensures selected == SelectRequired(devices, leases, wanted, |wanted|)
  {
    selected := None;
    for i := 0 to |wanted|
      invariant selected == SelectRequired(devices, leases, wanted, i)
    {
      var d := FindDevice(devices, wanted[i]);
      if d.Some? && Usable(d.value, leases) && (selected.None? || d.value.index < selected.value.index) {
        selected := d;
      }
    }
  }

  method RequiredWaitReason(devices: seq<Observation>, leases: Leases, wanted: seq<Uuid>)
    returns (reason: WaitReason, target: Option<Uuid>)
    ensures (reason, target) == RequiredWait(devices, leases, wanted)
    ensures DistinctDevices(devices) ==> WaitSpec(devices, leases, GpuPlacement(Required, wanted), reason, target)
  {
    var anyLeased, anyExternal := false, false;
    var shown: Option<Observation> := None;
    for i := 0 to |wanted|
      invariant anyLeased <==> AnyLeased(leases, wanted[..i])
      invariant anyExternal <==> AnyExternal(devices, wanted[..i])
      invariant shown == Representative(devices, wanted, i)
    {
      assert wanted[..i + 1] == wanted[..i] + [wanted[i]];
      if wanted[i] in leases {
        assert wanted[..i + 1][i] in leases;
        anyLeased := true;
      }
      var d := FindDevice(devices, wanted[i]);
      if d.Some? {
        if d.value.state.ExternalBusy? {
          assert FindDevice(devices, wanted[..i + 1][i]) == d;
          anyExternal := true;
        }
        if shown.None? || d.value.index < shown.value.index {
          shown := d;
        }
      }
      assert forall k :: 0 <= k < i ==> wanted[..i + 1][k] == wanted[..i][k];
    }
    assert wanted[..|wanted|] == wanted;
    target := if shown.None? then None else Some(shown.value.uuid);
    reason := if anyLeased then AffinityGpuAllocated else if anyExternal then AffinityGpuExternal else AffinityGpuState;
    if DistinctDevices(devices) {
      RequiredWaitMeans(devices, leases, GpuPlacement(Required, wanted));
    }
  }
}
