/** One job as a row of the SQLite table, and what a row is read back as (sqlite_state_store.cpp). */
module SqliteRows {
  import opened Basics
  import opened Job
  import opened Store
  import opened Wire
  import opened EnvMaps

  // ---- String lists ----

  const MAX_ENCODED_ITEMS := 512

  function EncodeItem(item: string): string {
    LittleEndian(|item|, 4) + item
  }

  function EncodeAll(items: seq<string>): string {
    if items == [] then [] else EncodeItem(items[0]) + EncodeAll(items[1..])
  }

  function EncodeStrings(items: seq<string>): string {
    LittleEndian(|items|, 4) + EncodeAll(items)
  }

  /** Reads `n` items from the start of `blob`, which they must fill exactly. */
  function DecodeAll(blob: string, n: nat): Option<seq<string>>
    decreases n
  {
    if n == 0 then (if blob == [] then Some([]) else None)
    else if |blob| < 4 then None
    else
      var length := FromLittleEndian(blob[..4]);
      if |blob| - 4 < length then None
      else match DecodeAll(blob[4 + length..], n - 1)
        case None => None
        case Some(rest) => Some([blob[4..4 + length]] + rest)
  }

  function DecodeStrings(blob: string): Option<seq<string>> {
    if |blob| < 4 then None
    else
      var count := FromLittleEndian(blob[..4]);
      if count > MAX_ENCODED_ITEMS then None else DecodeAll(blob[4..], count)
  }

  predicate Short(items: seq<string>) {
    forall i :: 0 <= i < |items| ==> |items[i]| < U32_LIMIT
  }

  lemma ItemReads(item: string, rest: string)
    requires |item| < U32_LIMIT
    ensures var blob := EncodeItem(item) + rest;
      |blob| >= 4 + |item| && FromLittleEndian(blob[..4]) == |item| && blob[4..4 + |item|] == item
        && blob[4 + |item|..] == rest
  {
    var blob := EncodeItem(item) + rest;
    assert blob[..4] == LittleEndian(|item|, 4);
    assert Pow256(2) == 65536 && Pow256(4) == U32_LIMIT;
    NumberRoundTrip(|item|, 4);
  }

  lemma {:induction false} AllRoundTrip(items: seq<string>)
    requires Short(items)
    ensures DecodeAll(EncodeAll(items), |items|) == Some(items)
  {
    if items != [] {
      ItemReads(items[0], EncodeAll(items[1..]));
      AllRoundTrip(items[1..]);
      assert [items[0]] + items[1..] == items;
    }
  }

  /** A list within the item limit is read back as it was written. */
  lemma StringsRoundTrip(items: seq<string>)
    requires Short(items) && |items| <= MAX_ENCODED_ITEMS
    ensures DecodeStrings(EncodeStrings(items)) == Some(items)
  {
    var blob := EncodeStrings(items);
    assert blob[..4] == LittleEndian(|items|, 4) && blob[4..] == EncodeAll(items);
    assert Pow256(2) == 65536 && Pow256(4) == U32_LIMIT;
    NumberRoundTrip(|items|, 4);
    AllRoundTrip(items);
  }

  lemma ItemCanonical(blob: string, length: nat)
    requires Bytes(blob) && |blob| >= 4 + length && length == FromLittleEndian(blob[..4])
    ensures blob == EncodeItem(blob[4..4 + length]) + blob[4 + length..]
  {
    BytesRoundTrip(blob[..4]);
    assert blob == blob[..4] + blob[4..4 + length] + blob[4 + length..];
  }

  lemma {:induction false} AllCanonical(blob: string, n: nat)
    requires Bytes(blob) && DecodeAll(blob, n).Some?
    ensures EncodeAll(DecodeAll(blob, n).value) == blob && |DecodeAll(blob, n).value| == n
    decreases n
  {
    if n > 0 {
      var length := FromLittleEndian(blob[..4]);
      ItemCanonical(blob, length);
      AllCanonical(blob[4 + length..], n - 1);
      var item, rest := blob[4..4 + length], DecodeAll(blob[4 + length..], n - 1).value;
      assert ([item] + rest)[1..] == rest;
    }
  }

  /** Any blob that is accepted is exactly the encoding of what was read. */
  lemma StringsCanonical(blob: string)
    requires Bytes(blob) && DecodeStrings(blob).Some?
    ensures EncodeStrings(DecodeStrings(blob).value) == blob
  {
    BytesRoundTrip(blob[..4]);
    AllCanonical(blob[4..], FromLittleEndian(blob[..4]));
    assert blob == blob[..4] + blob[4..];
  }

  // ---- Comma-joined devices ----

  const COMMA := ','

  function JoinDevices(devices: seq<Uuid>): string {
    if devices == [] then ""
    else if |devices| == 1 then devices[0]
    else devices[0] + [COMMA] + JoinDevices(devices[1..])
  }

  function FindComma(text: string): (k: nat)
    ensures k <= |text| && COMMA !in text[..k] && (k < |text| ==> text[k] == COMMA)
  {
    if text == [] || text[0] == COMMA then 0
    else
      var k := 1 + FindComma(text[1..]);
      assert text[..k] == [text[0]] + text[1..][..k - 1];
      k
  }

  function SplitDevices(text: string): seq<Uuid>
    decreases |text|
  {
    var k := FindComma(text);
    if k == |text| then [text] else [text[..k]] + SplitDevices(text[k + 1..])
  }

  predicate CommaFree(devices: seq<Uuid>) {
    forall i :: 0 <= i < |devices| ==> COMMA !in devices[i]
  }

  lemma {:induction false} SplitCommaFree(text: string)
    ensures SplitDevices(text) != [] && CommaFree(SplitDevices(text))
    decreases |text|
  {
    var k := FindComma(text);
    if k < |text| {
      SplitCommaFree(text[k + 1..]);
    } else {
      assert text[..k] == text;
    }
  }

  lemma {:induction false} FirstComma(a: string, rest: string)
    requires COMMA !in a
    ensures FindComma(a + [COMMA] + rest) == |a| && FindComma(a) == |a|
  {
    if a != [] {
      assert a[0] in a;
      assert (a + [COMMA] + rest)[1..] == a[1..] + [COMMA] + rest;
      FirstComma(a[1..], rest);
    }
  }

  lemma {:induction false} SplitJoined(devices: seq<Uuid>)
    requires devices != [] && CommaFree(devices)
    ensures SplitDevices(JoinDevices(devices)) == devices
  {
    if |devices| == 1 {
      FirstComma(devices[0], "");
    } else {
      var rest := JoinDevices(devices[1..]);
      FirstComma(devices[0], rest);
      var text := devices[0] + [COMMA] + rest;
      assert text[..|devices[0]|] == devices[0] && text[|devices[0]| + 1..] == rest;
      SplitJoined(devices[1..]);
      assert [devices[0]] + devices[1..] == devices;
    }
  }

  /** Splitting undoes joining exactly for devices without commas. */
  lemma SplitUndoesJoin(devices: seq<Uuid>)
    requires devices != []
    ensures SplitDevices(JoinDevices(devices)) == devices <==> CommaFree(devices)
  {
    SplitCommaFree(JoinDevices(devices));
    if CommaFree(devices) {
      SplitJoined(devices);
    }
  }

  lemma {:induction false} JoinedLength(devices: seq<Uuid>)
    requires forall i :: 0 <= i < |devices| ==> 1 <= |devices[i]| <= MAX_UUID_BYTES
    ensures |JoinDevices(devices)| <= |devices| * (MAX_UUID_BYTES + 1)
    ensures devices != [] ==> 1 <= |JoinDevices(devices)| <= |devices| * (MAX_UUID_BYTES + 1) - 1
  {
    if |devices| > 1 {
      JoinedLength(devices[1..]);
    }
  }

  // ---- Environment as a flat list ----

  function EnvItems(env: seq<EnvVar>): seq<string> {
    if env == [] then [] else [env[0].name, env[0].value] + EnvItems(env[1..])
  }

  function EnvPairs(items: seq<string>): seq<EnvVar>
    requires |items| % 2 == 0
  {
    if items == [] then [] else [EnvVar(items[0], items[1])] + EnvPairs(items[2..])
  }

  lemma {:induction false} EnvFlat(env: seq<EnvVar>)
    requires forall i :: 0 <= i < |env| ==> ValidEnvVar(env[i])
    ensures |EnvItems(env)| == 2 * |env| && EnvPairs(EnvItems(env)) == env && Short(EnvItems(env))
  {
    if env != [] {
      EnvFlat(env[1..]);
      var items := [env[0].name, env[0].value] + EnvItems(env[1..]);
      assert items[2..] == EnvItems(env[1..]);
      assert [env[0]] + env[1..] == env;
      assert ValidEnvVar(env[0]);
      forall i | 0 <= i < |items| ensures |items[i]| < U32_LIMIT {
        if i >= 2 {
          assert items[i] == EnvItems(env[1..])[i - 2];
        }
      }
    }
  }

  // ---- Columns ----

  const I64_LIMIT := 0x8000_0000_0000_0000
  const U64_LIMIT := 0x1_0000_0000_0000_0000

  /** How an unsigned 64-bit number is stored in a signed column, and read back. */
  function Signed64(n: int): int {
    if n >= I64_LIMIT then n - U64_LIMIT else n
  }

  function Unsigned64(n: int): int {
    if n < 0 then n + U64_LIMIT else n
  }

  datatype SpecColumns = SpecColumns(
    ownerUid: int, ownerGid: int, argv: string, cwd: Option<string>, env: string, gpuRequest: int,
    launchProfile: Option<string>, tensorboardLogdir: Option<string>, submitTime: int,
    executable: Option<string>, environmentType: Option<string>, pythonVersion: Option<string>)

  datatype RunColumns = RunColumns(
    pid: int, pgid: int, startTicks: int, hasStart: int, start: int, hasEnd: int, end: int,
    hasExit: int, exitReason: int, exitCode: int, exitSignal: int,
    failureReason: Option<string>, logPath: Option<string>)

  datatype PlaceColumns = PlaceColumns(mode: Option<string>, device: Option<string>, devices: Option<string>)

  datatype Row = Row(key: int, state: int, revision: int, spec: SpecColumns, run: RunColumns, place: PlaceColumns)

  function SourceText(source: EnvSource): string {
    match source
    case NoSource => "none"
    case Conda => "conda"
    case Venv => "venv"
  }

  function EncodeSpec(spec: JobSpec): SpecColumns {
    SpecColumns(
      spec.ownerUid, spec.ownerGid, EncodeStrings(spec.argv), Some(spec.cwd), EncodeStrings(EnvItems(spec.env)),
      spec.gpuRequest,
      spec.launchProfile, spec.tensorboardLogdir, spec.submitTime, spec.executable,
      if spec.envMetadata.Some? then Some(SourceText(spec.envMetadata.value.source)) else None,
      if spec.envMetadata.Some? then spec.envMetadata.value.pythonVersion else None)
  }

  predicate Word(n: int) {
    0 <= n < U32_LIMIT
  }

  predicate SpecOk(c: SpecColumns) {
    && Word(c.ownerUid) && Word(c.ownerGid) && DecodeStrings(c.argv).Some?
    && DecodeStrings(c.env).Some? && |DecodeStrings(c.env).value| % 2 == 0
    && Word(c.gpuRequest)
  }

  predicate ContextOk(c: SpecColumns) {
    match c.environmentType
    case None => c.pythonVersion.None?
    case Some(kind) => kind == "conda" || kind == "venv" || kind == "none"
  }

  function SpecOf(c: SpecColumns, placement: GpuPlacement): JobSpec
    requires SpecOk(c)
  {
    JobSpec(
      c.ownerUid, c.ownerGid, DecodeStrings(c.argv).value, if c.cwd.Some? then c.cwd.value else "",
      EmplaceAll([], EnvPairs(DecodeStrings(c.env).value)), c.executable,
      match c.environmentType
      case None => None
      case Some(kind) =>
        Some(EnvMetadata(
               if kind == "conda" then Conda else if kind == "venv" then Venv else NoSource, c.pythonVersion)),
      c.gpuRequest, placement, c.launchProfile, c.tensorboardLogdir, c.submitTime)
  }

  const EXIT_CODE_LIMIT := 255
  const SIGNAL_LIMIT := 64

  function ReasonCode(reason: ExitReason): int {
    match reason
    case Exited => 0
    case Signaled => 1
    case UnknownExit => 2
  }

  function EncodeRun(e: Execution): RunColumns {
    RunColumns(
      e.identity.pid, e.identity.pgid, Signed64(e.identity.startTicks),
      if e.startTime.Some? then 1 else 0, if e.startTime.Some? then e.startTime.value else 0,
      if e.endTime.Some? then 1 else 0, if e.endTime.Some? then e.endTime.value else 0,
      if e.exit.Some? then 1 else 0,
      if e.exit.Some? then ReasonCode(e.exit.value.reason) else 0,
      if e.exit.Some? then e.exit.value.exitCode else 0,
      if e.exit.Some? then e.exit.value.signal else 0,
      e.failureReason, e.logPath)
  }

  predicate RunOk(c: RunColumns) {
    && c.pid >= 0 && c.pgid >= 0 && c.startTicks >= 0
    && (c.hasStart == 0 || c.hasStart == 1) && (c.hasEnd == 0 || c.hasEnd == 1) && (c.hasExit == 0 || c.hasExit == 1)
    && (c.hasExit == 1 ==>
          0 <= c.exitReason <= 2 && 0 <= c.exitCode <= EXIT_CODE_LIMIT && 0 <= c.exitSignal <= SIGNAL_LIMIT)
  }

  function RunOf(c: RunColumns): Execution {
    Execution(
      ProcessIdentity(c.pid, c.pgid, c.startTicks),
      if c.hasStart == 1 then Some(c.start) else None,
      if c.hasEnd == 1 then Some(c.end) else None,
      if c.hasExit == 1 then
        Some(ExitStatus(
               if c.exitReason == 0 then Exited else if c.exitReason == 1 then Signaled else UnknownExit,
               c.exitCode, c.exitSignal))
      else None,
      c.failureReason, c.logPath)
  }

  const MAX_DEVICES_TEXT := MAX_PLACEMENT_DEVICES * MAX_UUID_BYTES + MAX_PLACEMENT_DEVICES - 1

  /** The first device; the specifications the store accepts always have one where it is asked for. */
  function FrontDevice(devices: seq<Uuid>): Uuid {
    if devices == [] then "" else devices[0]
  }

  function EncodePlace(p: GpuPlacement): PlaceColumns {
    match p.mode
    case AnyGpu => PlaceColumns(None, None, None)
    case Required => PlaceColumns(Some("required"), Some(FrontDevice(p.devices)), Some(JoinDevices(p.devices)))
    case Preferred => PlaceColumns(Some("preferred"), Some(FrontDevice(p.devices)), None)
  }

  predicate RequiredOk(device: string, text: string) {
    && 1 <= |text| <= MAX_DEVICES_TEXT
    && (forall i :: 0 <= i < |SplitDevices(text)| ==> ValidUuid(SplitDevices(text)[i]))
    && SplitDevices(text) != [] && device == SplitDevices(text)[0]
  }

  /** What the placement columns say, or nothing if they contradict each other. */
  function PlaceOf(c: PlaceColumns): Option<GpuPlacement> {
    if c.mode.None? || c.mode.value == "any" then
      if c.device.Some? || c.devices.Some? then None else Some(GpuPlacement(AnyGpu, []))
    else if c.mode.value == "required" then
      if c.device.Some? && c.devices.Some? && RequiredOk(c.device.value, c.devices.value) then
        Some(GpuPlacement(Required, SplitDevices(c.devices.value)))
      else None
    else if c.mode.value == "preferred" then
      if c.device.Some? && ValidUuid(c.device.value) && c.devices.None? then
        Some(GpuPlacement(Preferred, [c.device.value]))
      else None
    else None
  }

  function StateCode(state: JobState): int {
    match state
    case Queued => 0
    case Starting => 1
    case Running => 2
    case Stopping => 3
    case Finished => 4
    case Failed => 5
    case Cancelled => 6
    case Lost => 7
  }

  function StateOf(code: int): JobState {
    if code == 0 then JobState.Queued
    else if code == 1 then JobState.Starting
    else if code == 2 then JobState.Running
    else if code == 3 then JobState.Stopping
    else if code == 4 then JobState.Finished
    else if code == 5 then JobState.Failed
    else if code == 6 then JobState.Cancelled
    else JobState.Lost
  }

  function EncodeRow(r: StoredJob): Row {
    Row(Signed64(r.id), StateCode(r.state), Signed64(r.revision), EncodeSpec(r.spec), EncodeRun(r.execution),
        EncodePlace(r.spec.placement))
  }

  /** The record that readable columns describe. */
  function Assemble(row: Row, placement: GpuPlacement): StoredJob
    requires SpecOk(row.spec)
  {
    StoredJob(Unsigned64(row.key), SpecOf(row.spec, placement), StateOf(row.state), row.revision, RunOf(row.run))
  }

  function Validated(record: StoredJob): Result<StoredJob, StoreError> {
    if !ValidId(record.id) || !ValidSpec(record.spec) || record.state.Queued? != (record.revision == 0) then
      Err(InvalidJob)
    else if !ValidExecution(record) then Err(InvalidExecutionRecord)
    else Ok(record)
  }

  function DecodeRow(row: Row): Result<StoredJob, StoreError> {
    if !(0 <= row.state <= 7) || row.revision < 0 || !SpecOk(row.spec) then Err(InvalidJob)
    else if !RunOk(row.run) then Err(InvalidExecutionRecord)
    else if !ContextOk(row.spec) || PlaceOf(row.place).None? then Err(InvalidJob)
    else Validated(Assemble(row, PlaceOf(row.place).value))
  }

  // ---- Round trip ----

  /** The ranges of the C++ types of a record: unsigned and signed words, and a map for the environment. */
  predicate Representable(r: StoredJob) {
    && 0 <= r.id < U64_LIMIT && 0 <= r.revision < U64_LIMIT
    && Word(r.spec.ownerUid) && Word(r.spec.ownerGid) && SortedEnv(r.spec.env)
    && 0 <= r.execution.identity.startTicks < U64_LIMIT
  }

  /** What the signed columns, the exit ranges and the comma-joined device list can hold. */
  predicate RowSafe(r: StoredJob) {
    && r.revision < I64_LIMIT && r.execution.identity.startTicks < I64_LIMIT
    && (r.execution.exit.Some? ==>
          0 <= r.execution.exit.value.exitCode <= EXIT_CODE_LIMIT && 0 <= r.execution.exit.value.signal <= SIGNAL_LIMIT)
    && (r.spec.placement.mode.Required? ==> CommaFree(r.spec.placement.devices))
  }

  lemma ArgvBack(argv: seq<string>)
    requires ValidArguments(argv)
    ensures DecodeStrings(EncodeStrings(argv)) == Some(argv)
  {
    StringsRoundTrip(argv);
  }

  lemma ItemsBack(items: seq<string>)
    requires Short(items) && |items| <= MAX_ENCODED_ITEMS
    ensures DecodeStrings(EncodeStrings(items)) == Some(items)
  {
    StringsRoundTrip(items);
  }

  lemma EnvBack(env: seq<EnvVar>, items: seq<string>)
    requires items == EnvItems(env) && |env| <= MAX_ENV_VARIABLES && SortedEnv(env)
    requires forall i :: 0 <= i < |env| ==> ValidEnvVar(env[i])
    ensures Short(items) && |items| <= MAX_ENCODED_ITEMS && |items| % 2 == 0 && EmplaceAll([], EnvPairs(items)) == env
  {
    EnvFlat(env);
    SortedIffSame(env);
  }

  lemma SpecBack(spec: JobSpec)
    requires ValidArguments(spec.argv) && ValidEnv(spec.env) && SortedEnv(spec.env)
    requires Word(spec.ownerUid) && Word(spec.ownerGid) && Word(spec.gpuRequest)
    ensures SpecOk(EncodeSpec(spec)) && ContextOk(EncodeSpec(spec)) && SpecOf(EncodeSpec(spec), spec.placement) == spec
  {
    ArgvBack(spec.argv);
    EnvBack(spec.env, EnvItems(spec.env));
    ItemsBack(EnvItems(spec.env));
    MetadataBack(spec.envMetadata);
  }

  lemma MetadataBack(m: Option<EnvMetadata>)
    ensures m.Some? ==>
      var kind := SourceText(m.value.source);
      && (kind == "conda" || kind == "venv" || kind == "none")
      && (if kind == "conda" then Conda else if kind == "venv" then Venv else NoSource) == m.value.source
  {
    assert |"conda"| == 5 && |"venv"| == 4 && |"none"| == 4 && "venv"[0] != "none"[0];
  }

  lemma RunBack(record: StoredJob)
    requires ValidExecution(record) && 0 <= record.execution.identity.startTicks < U64_LIMIT
    ensures RunOk(EncodeRun(record.execution)) <==>
      && record.execution.identity.startTicks < I64_LIMIT
      && (record.execution.exit.Some? ==>
            0 <= record.execution.exit.value.exitCode <= EXIT_CODE_LIMIT
              && 0 <= record.execution.exit.value.signal <= SIGNAL_LIMIT)
    ensures record.execution.identity.startTicks < I64_LIMIT ==> RunOf(EncodeRun(record.execution)) == record.execution
  {
  }

  lemma PlaceBack(p: GpuPlacement)
    requires ValidPlacement(p)
    ensures PlaceOf(EncodePlace(p)) == Some(p) <==> (p.mode.Required? ==> CommaFree(p.devices))
  {
    assert |"required"| == 8 && |"preferred"| == 9 && |"any"| == 3;
    if p.mode.Required? {
      RequiredBack(p.devices);
    } else if p.mode.Preferred? {
      assert p.devices == [p.devices[0]];
    }
  }

  lemma RequiredBack(devices: seq<Uuid>)
    requires 1 <= |devices| <= MAX_PLACEMENT_DEVICES && forall i :: 0 <= i < |devices| ==> ValidUuid(devices[i])
    ensures SplitDevices(JoinDevices(devices)) == devices <==> CommaFree(devices)
    ensures CommaFree(devices) ==> RequiredOk(devices[0], JoinDevices(devices))
  {
    SplitUndoesJoin(devices);
    JoinedLength(devices);
  }

  lemma ValidatedConsistent(r: StoredJob)
    requires ConsistentRecord(r.id, r)
    ensures Validated(r) == Ok(r)
    ensures ValidArguments(r.spec.argv) && ValidEnv(r.spec.env) && ValidPlacement(r.spec.placement)
      && Word(r.spec.gpuRequest)
    ensures ValidExecution(r)
  {
  }

  lemma ValidatedSame(a: StoredJob)
    ensures Validated(a).Ok? ==> Validated(a).value == a
  {
  }

  lemma AssembledBack(r: StoredJob, placement: GpuPlacement)
    requires ValidPlacement(r.spec.placement) && Representable(r) && r.execution.identity.startTicks < I64_LIMIT
    requires r.revision < I64_LIMIT
    requires SpecOk(EncodeSpec(r.spec)) && SpecOf(EncodeSpec(r.spec), r.spec.placement) == r.spec
    requires RunOf(EncodeRun(r.execution)) == r.execution
    ensures Assemble(EncodeRow(r), placement) == r.(spec := r.spec.(placement := placement))
  {
  }

  /** A stored job is read back as it was written exactly when its row is safe. */
  lemma RowRoundTrip(r: StoredJob)
    requires ConsistentRecord(r.id, r) && Representable(r)
    ensures DecodeRow(EncodeRow(r)) == Ok(r) <==> RowSafe(r)
  {
    ValidatedConsistent(r);
    SpecBack(r.spec);
    RunBack(r);
    PlaceBack(r.spec.placement);
    RowReads(r, EncodeRow(r));
  }

  lemma RowReads(r: StoredJob, row: Row)
    requires ValidPlacement(r.spec.placement) && row == EncodeRow(r) && Representable(r) && Validated(r) == Ok(r)
    requires SpecOk(row.spec) && ContextOk(row.spec) && SpecOf(row.spec, r.spec.placement) == r.spec
    requires RunOk(row.run) <==>
      && r.execution.identity.startTicks < I64_LIMIT
      && (r.execution.exit.Some? ==>
            0 <= r.execution.exit.value.exitCode <= EXIT_CODE_LIMIT
              && 0 <= r.execution.exit.value.signal <= SIGNAL_LIMIT)
    requires r.execution.identity.startTicks < I64_LIMIT ==> RunOf(row.run) == r.execution
    requires PlaceOf(row.place) == Some(r.spec.placement) <==>
      (r.spec.placement.mode.Required? ==> CommaFree(r.spec.placement.devices))
    ensures DecodeRow(row) == Ok(r) <==> RowSafe(r)
  {
    if r.revision < I64_LIMIT && RunOk(row.run) && PlaceOf(row.place).Some? {
      AssembledBack(r, PlaceOf(row.place).value);
      ValidatedSame(Assemble(row, PlaceOf(row.place).value));
    }
  }
}
