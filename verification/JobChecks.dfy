/** The checks of job specifications and states, said in other words and with every limit written out
    (job.hpp, job.cpp). */
module JobChecks {
  import opened Basics
  import opened Job

  predicate TextOf(text: string, least: nat, most: nat) {
    least <= |text| <= most && '\0' !in text
  }

  predicate AbsoluteOf(path: string) {
    TextOf(path, 1, 4096) && path[0] == '/'
  }

  /** All items behind one another. */
  function Flat(items: seq<string>): string {
    if items == [] then "" else Flat(items[..|items| - 1]) + items[|items| - 1]
  }

  lemma {:induction false} TotalIsFlat(items: seq<string>, n: nat)
    requires n <= |items|
    ensures TotalBytes(items, n) == |Flat(items[..n])|
  {
    if n > 0 {
      TotalIsFlat(items, n - 1);
      assert items[..n][..n - 1] == items[..n - 1];
    }
  }

  function FlatEnv(env: seq<EnvVar>): string {
    if env == [] then "" else FlatEnv(env[..|env| - 1]) + (env[|env| - 1].name + env[|env| - 1].value)
  }

  lemma {:induction false} EnvIsFlat(env: seq<EnvVar>, n: nat)
    requires n <= |env|
    ensures EnvBytes(env, n) == |FlatEnv(env[..n])|
  {
    if n > 0 {
      EnvIsFlat(env, n - 1);
      assert env[..n][..n - 1] == env[..n - 1];
    }
  }

  // ---- Path components ----

  function FirstSlash(path: string): (k: nat)
    ensures k <= |path| && (forall i :: 0 <= i < k ==> path[i] != '/') && (k < |path| ==> path[k] == '/')
  {
    if path == "" || path[0] == '/' then 0 else 1 + FirstSlash(path[1..])
  }

  /** The texts between the slashes. */
  function Components(path: string): seq<string> {
    var k := FirstSlash(path);
    if k == |path| then [path] else [path[..k]] + Components(path[k + 1..])
  }

  lemma DotsInHead(path: string, i: int)
    requires DotDotAt(path, i) && i < FirstSlash(path)
    ensures path[..FirstSlash(path)] == ".."
  {
    var k := FirstSlash(path);
    assert i == 0 && k == 2;
  }

  lemma DotsBehind(path: string, rest: string, k: nat, i: int)
    requires k < |path| && path[k] == '/' && rest == path[k + 1..] && i != k
    ensures DotDotAt(rest, i - k - 1) ==> DotDotAt(path, i)
    ensures k < i && DotDotAt(path, i) ==> DotDotAt(rest, i - k - 1)
  {
  }

  ghost predicate LeadsOut(path: string) {
    exists i :: DotDotAt(path, i)
  }

  lemma HeadLeadsOut(path: string, k: nat)
    requires k == FirstSlash(path) && path[..k] == ".."
    ensures LeadsOut(path)
  {
    assert path[0] == path[..k][0] && path[1] == path[..k][1];
    assert DotDotAt(path, 0);
  }

  lemma RestLeadsOut(path: string, rest: string, k: nat)
    requires k < |path| && path[k] == '/' && rest == path[k + 1..] && LeadsOut(rest)
    ensures LeadsOut(path)
  {
    var i :| DotDotAt(rest, i);
    DotsBehind(path, rest, k, i + k + 1);
  }

  lemma OutByHeadOrRest(path: string, rest: string, k: nat)
    requires k == FirstSlash(path) < |path| && rest == path[k + 1..] && LeadsOut(path)
    ensures path[..k] == ".." || LeadsOut(rest)
  {
    var i :| DotDotAt(path, i);
    if i < k {
      DotsInHead(path, i);
    } else {
      DotsBehind(path, rest, k, i);
    }
  }

  lemma {:induction false} DotsAreComponents(path: string)
    ensures ".." in Components(path) <==> LeadsOut(path)
  {
    var k := FirstSlash(path);
    if path[..k] == ".." {
      HeadLeadsOut(path, k);
    }
    if k == |path| {
      assert path[..k] == path;
      if i :| DotDotAt(path, i) {
        DotsInHead(path, i);
      }
    } else {
      var rest := path[k + 1..];
      DotsAreComponents(rest);
      if LeadsOut(rest) {
        RestLeadsOut(path, rest, k);
      }
      if LeadsOut(path) {
        OutByHeadOrRest(path, rest, k);
      }
    }
  }

  /** A relative path within 4096 bytes, with no component that leads out of its directory. */
  lemma LogdirMeans(path: string)
    ensures ValidLogdir(path) <==> TextOf(path, 1, 4096) && path[0] != '/' && ".." !in Components(path)
  {
    DotsAreComponents(path);
    assert LeadsOut(path) <==> exists i :: 0 <= i < |path| && DotDotAt(path, i);
  }

  // ---- Specifications ----

  predicate UuidOf(uuid: Uuid) {
    TextOf(uuid, 1, 96)
  }

  predicate ArgumentsOf(argv: seq<string>) {
    && 1 <= |argv| <= 256 && 1 <= |argv[0]| && |Flat(argv)| <= 65536
    && (forall a :: a in argv ==> TextOf(a, 0, 16384))
  }

  predicate EnvOf(env: seq<EnvVar>) {
    && |env| <= 256 && |FlatEnv(env)| <= 262144
    && (forall v :: v in env ==> TextOf(v.name, 1, 255) && '=' !in v.name && TextOf(v.value, 0, 32768))
  }

  /** One to eight different devices if they are required, exactly one if it is preferred, else none. */
  predicate PlacementOf(p: GpuPlacement) {
    && (p.mode == AnyGpu ==> |p.devices| == 0) && (p.mode == Preferred ==> |p.devices| == 1)
    && (p.mode == Required ==> 1 <= |p.devices| <= 8)
    && (forall u :: u in p.devices ==> UuidOf(u) && multiset(p.devices)[u] == 1)
  }

  predicate SpecOf(spec: JobSpec) {
    && spec.ownerUid != 0 && spec.gpuRequest == 1 && spec.submitTime > 0
    && ArgumentsOf(spec.argv) && AbsoluteOf(spec.cwd) && EnvOf(spec.env) && PlacementOf(spec.placement)
    && (spec.executable != None ==> AbsoluteOf(spec.executable.value))
    && (spec.envMetadata != None && spec.envMetadata.value.pythonVersion != None ==>
          TextOf(spec.envMetadata.value.pythonVersion.value, 1, 64))
    && (spec.launchProfile != None ==> TextOf(spec.launchProfile.value, 1, 128))
    && (spec.tensorboardLogdir != None ==>
          var path := spec.tensorboardLogdir.value;
          TextOf(path, 1, 4096) && path[0] != '/' && ".." !in Components(path))
  }

  lemma ArgumentsMean(argv: seq<string>)
    ensures ValidArguments(argv) <==> ArgumentsOf(argv)
  {
    TotalIsFlat(argv, |argv|);
    assert argv[..|argv|] == argv;
    assert forall i :: 0 <= i < |argv| ==> argv[i] in argv;
  }

  lemma EnvMeans(env: seq<EnvVar>)
    ensures ValidEnv(env) <==> EnvOf(env)
  {
    EnvIsFlat(env, |env|);
    assert env[..|env|] == env;
    assert forall i :: 0 <= i < |env| ==> env[i] in env;
  }

  lemma {:induction false} OnceEach<T>(devices: seq<T>)
    ensures (forall i, j :: 0 <= i < j < |devices| ==> devices[i] != devices[j]) <==>
      (forall u :: u in devices ==> multiset(devices)[u] == 1)
  {
    if devices != [] {
      var init, last := devices[..|devices| - 1], devices[|devices| - 1];
      OnceEach(init);
      assert devices == init + [last];
      assert multiset(devices) == multiset(init) + multiset{last};
      if forall u :: u in devices ==> multiset(devices)[u] == 1 {
        assert last in devices && last !in multiset(init);
        forall u | u in init ensures multiset(init)[u] == 1 {
          assert u in devices;
        }
      }
      if forall i, j :: 0 <= i < j < |devices| ==> devices[i] != devices[j] {
        assert last !in init;
      }
    }
  }

  lemma PlacementMeans(p: GpuPlacement)
    ensures ValidPlacement(p) <==> PlacementOf(p)
  {
    OnceEach(p.devices);
    assert forall i :: 0 <= i < |p.devices| ==> p.devices[i] in p.devices;
  }

  /** Exactly these specifications are accepted. */
  lemma SpecMeans(spec: JobSpec)
    ensures ValidSpec(spec) <==> SpecOf(spec)
  {
    ArgumentsMean(spec.argv);
    EnvMeans(spec.env);
    PlacementMeans(spec.placement);
    if spec.tensorboardLogdir.Some? {
      LogdirMeans(spec.tensorboardLogdir.value);
    }
  }

  // ---- States ----

  /** Everything a job can do, and where it ends. */
  lemma TransitionsMean(a: JobState, b: JobState)
    ensures CanTransition(a, b) <==>
      (a, b) in {
        (JobState.Queued, JobState.Starting), (JobState.Queued, JobState.Cancelled),
        (JobState.Starting, JobState.Running), (JobState.Starting, JobState.Stopping),
        (JobState.Starting, JobState.Failed), (JobState.Starting, JobState.Lost),
        (JobState.Running, JobState.Stopping), (JobState.Running, JobState.Finished),
        (JobState.Running, JobState.Failed), (JobState.Running, JobState.Lost),
        (JobState.Stopping, JobState.Cancelled), (JobState.Stopping, JobState.Failed),
        (JobState.Stopping, JobState.Lost)
      }
  {
  }

  /** A state is final exactly if nothing follows it; every other state but QUEUED holds a device. */
  lemma StatesMean(a: JobState)
    ensures IsTerminal(a) <==> forall b :: !CanTransition(a, b)
    ensures Leaseable(a) <==> a != JobState.Queued && !IsTerminal(a)
  {
    match a
    case Queued => assert CanTransition(a, JobState.Cancelled);
    case Starting => assert CanTransition(a, JobState.Running);
    case Running => assert CanTransition(a, JobState.Finished);
    case Stopping => assert CanTransition(a, JobState.Cancelled);
    case _ =>
  }
}
