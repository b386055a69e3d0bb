/** Job specifications and the job state machine (job.hpp, job.cpp). */
module Job {
  import opened Basics

  /** A 64-bit job number; zero is the invalid id. */
  type JobId = int

  predicate ValidId(id: JobId) {
    0 < id <= U64_MAX
  }

  type Uuid = string

  const MAX_UUID_BYTES := 96

  predicate ValidUuid(uuid: Uuid) {
    1 <= |uuid| <= MAX_UUID_BYTES && NulFree(uuid)
  }

  datatype JobState = Queued | Starting | Running | Stopping | Finished | Failed | Cancelled | Lost

  predicate IsTerminal(state: JobState) {
    state.Finished? || state.Failed? || state.Cancelled? || state.Lost?
  }

  /** The states in which a job holds a GPU lease. */
  predicate Leaseable(state: JobState) {
    state.Starting? || state.Running? || state.Stopping?
  }

  predicate CanTransition(from: JobState, to: JobState) {
    match from
    case Queued => to.Starting? || to.Cancelled?
    case Starting => to.Running? || to.Stopping? || to.Failed? || to.Lost?
    case Running => to.Stopping? || to.Finished? || to.Failed? || to.Lost?
    case Stopping => to.Cancelled? || to.Failed? || to.Lost?
    case _ => false
  }

  datatype EnvVar = EnvVar(name: string, value: string)

  /** `std::map<std::string, std::string>`: bindings in strictly increasing name order. */
  predicate SortedEnv(env: seq<EnvVar>) {
    forall i, j :: 0 <= i < j < |env| ==> TextLess(env[i].name, env[j].name)
  }

  datatype EnvSource = NoSource | Conda | Venv

  datatype EnvMetadata = EnvMetadata(source: EnvSource, pythonVersion: Option<string>)

  datatype PlacementMode = AnyGpu | Required | Preferred

  datatype GpuPlacement = GpuPlacement(mode: PlacementMode, devices: seq<Uuid>)

  datatype JobSpec = JobSpec(
    ownerUid: int,
    ownerGid: int,
    argv: seq<string>,
    cwd: string,
    env: seq<EnvVar>,
    executable: Option<string>,
    envMetadata: Option<EnvMetadata>,
    gpuRequest: int,
    placement: GpuPlacement,
    launchProfile: Option<string>,
    tensorboardLogdir: Option<string>,
    submitTime: Time)

  const MAX_ARGUMENTS := 256
  const MAX_ARGUMENT_BYTES := 65536
  const MAX_SINGLE_ARGUMENT_BYTES := 16384
  const MAX_CWD_BYTES := 4096
  const MAX_ENV_VARIABLES := 256
  const MAX_ENV_NAME_BYTES := 255
  const MAX_ENV_VALUE_BYTES := 32768
  const MAX_ENV_BYTES := 262144
  const MAX_LAUNCH_PROFILE_BYTES := 128
  const MAX_PLACEMENT_DEVICES := 8
  const MAX_LOGDIR_BYTES := 4096
  const MAX_EXECUTABLE_BYTES := 4096
  const MAX_PYTHON_VERSION_BYTES := 64

  const SLASH := '/'
  const DOT := '.'
  const EQUALS := '='

  /** The size of the first `n` items together. */
  function TotalBytes(items: seq<string>, n: nat): nat
    requires n <= |items|
  {
    if n == 0 then 0 else TotalBytes(items, n - 1) + |items[n - 1]|
  }

  function EnvBytes(env: seq<EnvVar>, n: nat): nat
    requires n <= |env|
  {
    if n == 0 then 0 else EnvBytes(env, n - 1) + |env[n - 1].name| + |env[n - 1].value|
  }

  predicate ValidEnvVar(v: EnvVar) {
    && 1 <= |v.name| <= MAX_ENV_NAME_BYTES && NulFree(v.name) && EQUALS !in v.name
    && |v.value| <= MAX_ENV_VALUE_BYTES && NulFree(v.value)
  }

  predicate AbsolutePath(path: string, limit: nat) {
    1 <= |path| <= limit && NulFree(path) && path[0] == SLASH
  }

  predicate BoundedText(text: string, limit: nat) {
    1 <= |text| <= limit && NulFree(text)
  }

  /** A path component `..` occupies positions `i` and `i + 1`. */
  predicate DotDotAt(path: string, i: int) {
    && 0 <= i <= |path| - 2
    && path[i] == DOT && path[i + 1] == DOT
    && (i == 0 || path[i - 1] == SLASH)
    && (i + 2 == |path| || path[i + 2] == SLASH)
  }

  predicate ValidLogdir(path: string) {
    BoundedText(path, MAX_LOGDIR_BYTES) && path[0] != SLASH
    && forall i :: 0 <= i < |path| ==> !DotDotAt(path, i)
  }

  predicate ValidPlacement(placement: GpuPlacement) {
    match placement.mode
    case AnyGpu => placement.devices == []
    case Required =>
      && 1 <= |placement.devices| <= MAX_PLACEMENT_DEVICES
      && (forall i :: 0 <= i < |placement.devices| ==> ValidUuid(placement.devices[i]))
      && (forall i, j :: 0 <= i < j < |placement.devices| ==> placement.devices[i] != placement.devices[j])
    case Preferred => |placement.devices| == 1 && ValidUuid(placement.devices[0])
  }

  predicate ValidArguments(argv: seq<string>) {
    && 1 <= |argv| <= MAX_ARGUMENTS
    && (forall i :: 0 <= i < |argv| ==> NulFree(argv[i]) && |argv[i]| <= MAX_SINGLE_ARGUMENT_BYTES)
    && TotalBytes(argv, |argv|) <= MAX_ARGUMENT_BYTES
    && argv[0] != []
  }

  predicate ValidEnv(env: seq<EnvVar>) {
    && |env| <= MAX_ENV_VARIABLES
    && (forall i :: 0 <= i < |env| ==> ValidEnvVar(env[i]))
    && EnvBytes(env, |env|) <= MAX_ENV_BYTES
  }

  /** The specifications that `job::validate` accepts. */
  predicate ValidSpec(spec: JobSpec) {
    && spec.ownerUid != 0
    && ValidArguments(spec.argv)
    && AbsolutePath(spec.cwd, MAX_CWD_BYTES)
    && ValidEnv(spec.env)
    && ValidPlacement(spec.placement)
    && spec.gpuRequest == 1
    && (spec.executable.Some? ==> AbsolutePath(spec.executable.value, MAX_EXECUTABLE_BYTES))
    && (spec.envMetadata.Some? && spec.envMetadata.value.pythonVersion.Some? ==>
          BoundedText(spec.envMetadata.value.pythonVersion.value, MAX_PYTHON_VERSION_BYTES))
    && (spec.launchProfile.Some? ==> BoundedText(spec.launchProfile.value, MAX_LAUNCH_PROFILE_BYTES))
    && (spec.tensorboardLogdir.Some? ==> ValidLogdir(spec.tensorboardLogdir.value))
    && spec.submitTime > 0
  }

  /** The argument loop of `job::validate`, with its running byte total kept within the limit. */
  method CheckArguments(argv: seq<string>) returns (ok: bool)
    ensures ok <==> ValidArguments(argv)
  {
    if argv == [] || |argv| > MAX_ARGUMENTS {
      return false;
    }
    var total := 0;
    for i := 0 to |argv|
      invariant total == TotalBytes(argv, i) <= MAX_ARGUMENT_BYTES
      invariant forall k :: 0 <= k < i ==> NulFree(argv[k]) && |argv[k]| <= MAX_SINGLE_ARGUMENT_BYTES
    {
      if !NulFree(argv[i]) || |argv[i]| > MAX_SINGLE_ARGUMENT_BYTES {
        return false;
      }
      if |argv[i]| > MAX_ARGUMENT_BYTES - total {
        TotalBytesMonotone(argv, i + 1, |argv|);
        return false;
      }
      total := total + |argv[i]|;
    }
    ok := argv[0] != [];
  }

  lemma {:induction false} TotalBytesMonotone(items: seq<string>, n: nat, m: nat)
    requires n <= m <= |items|
    ensures TotalBytes(items, n) <= TotalBytes(items, m)
  {
    if n < m {
      TotalBytesMonotone(items, n, m - 1);
    }
  }

  /** The component scan of `is_valid_tensorboard_logdir`. */
  method CheckLogdir(path: string) returns (ok: bool)
    ensures ok <==> ValidLogdir(path)
  {
    if path == [] || |path| > MAX_LOGDIR_BYTES || !NulFree(path) || path[0] == SLASH {
      return false;
    }
    var begin := 0;
    while true
      invariant 0 <= begin <= |path|
      invariant begin == 0 || path[begin - 1] == SLASH
      invariant forall i :: i < begin ==> !DotDotAt(path, i)
      decreases |path| - begin
    {
      var end := begin;
      while end < |path| && path[end] != SLASH
        invariant begin <= end <= |path|
        invariant forall k :: begin <= k < end ==> path[k] != SLASH
      {
        end := end + 1;
      }
      if end - begin == 2 && path[begin] == DOT && path[begin + 1] == DOT {
        assert DotDotAt(path, begin);
        return false;
      }
      forall i | begin <= i <= end ensures !DotDotAt(path, i) {}
      if end == |path| {
        return true;
      }
      begin := end + 1;
    }
  }
}
