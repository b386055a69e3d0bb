/** The job table column by column: what a job is written as, and which rows cannot be read and why, with every
    number and text written out (sqlite_state_store.cpp). */
module RowChecks {
  import opened Basics
  import opened Job
  import opened Store
  import opened Wire
  import opened SqliteRows
  import opened WireLayout
  import J = JobChecks
  import S = StoreChecks

  // ---- String lists ----

  lemma {:induction false} ListBytes(items: seq<string>)
    requires Short(items)
    ensures EncodeAll(items) == AllSized(items)
  {
    if items != [] {
      LittleEndian4(|items[0]|);
      ListBytes(items[1..]);
    }
  }

  /** A count in four bytes, then each text behind its length in four bytes. */
  lemma ListMeans(items: seq<string>)
    requires Short(items) && Is32(|items|)
    ensures EncodeStrings(items) == U32(|items|) + AllSized(items)
  {
    LittleEndian4(|items|);
    ListBytes(items);
  }

  /** The blob is such a list of at most 512 texts. */
  ghost predicate IsList(blob: string, items: seq<string>) {
    |items| <= 512 && Short(items) && blob == U32(|items|) + AllSized(items)
  }

  lemma {:induction false} ReadShort(blob: string, n: nat)
    requires Bytes(blob) && DecodeAll(blob, n).Some?
    ensures Short(DecodeAll(blob, n).value)
    decreases n
  {
    if n > 0 {
      var length := FromLittleEndian(blob[..4]);
      assert Pow256(2) == 65536 && Pow256(4) == U32_LIMIT;
      BytesRoundTrip(blob[..4]);
      ReadShort(blob[4 + length..], n - 1);
    }
  }

  /** Exactly such blobs are read, as the texts they list. */
  lemma ListRead(blob: string)
    requires Bytes(blob)
    ensures DecodeStrings(blob).Some? ==> IsList(blob, DecodeStrings(blob).value)
    ensures forall items :: IsList(blob, items) ==> DecodeStrings(blob) == Some(items)
  {
    if DecodeStrings(blob).Some? {
      var items := DecodeStrings(blob).value;
      var count := FromLittleEndian(blob[..4]);
      StringsCanonical(blob);
      AllCanonical(blob[4..], count);
      ReadShort(blob[4..], count);
      ListMeans(items);
    }
    forall items | IsList(blob, items) ensures DecodeStrings(blob) == Some(items) {
      ListMeans(items);
      StringsRoundTrip(items);
    }
  }

  // ---- What a job is written as ----

  /** A 64-bit number in a signed column. */
  predicate Column(n: int, column: int) {
    -0x8000_0000_0000_0000 <= column < 0x8000_0000_0000_0000 && (column - n) % 0x1_0000_0000_0000_0000 == 0
  }

  function StateNumber(state: JobState): int {
    match state
    case Queued => 0
    case Starting => 1
    case Running => 2
    case Stopping => 3
    case Finished => 4
    case Failed => 5
    case Cancelled => 6
    case Lost => 7
  }

  /** Names and values in turn. */
  function Alternating(env: seq<EnvVar>): seq<string> {
    if env == [] then [] else [env[0].name, env[0].value] + Alternating(env[1..])
  }

  predicate SpecWritten(spec: JobSpec, c: SpecColumns) {
    && c.ownerUid == spec.ownerUid && c.ownerGid == spec.ownerGid && c.cwd == Some(spec.cwd)
    && c.argv == U32(|spec.argv|) + AllSized(spec.argv)
    && c.env == U32(2 * |spec.env|) + AllSized(Alternating(spec.env))
    && c.gpuRequest == spec.gpuRequest && c.launchProfile == spec.launchProfile
    && c.tensorboardLogdir == spec.tensorboardLogdir && c.submitTime == spec.submitTime
    && c.executable == spec.executable
    && (spec.envMetadata == None <==> c.environmentType == None)
    && (spec.envMetadata == None ==> c.pythonVersion == None)
    && (spec.envMetadata != None ==>
          && c.pythonVersion == spec.envMetadata.value.pythonVersion
          && (spec.envMetadata.value.source == NoSource ==> c.environmentType == Some("none"))
          && (spec.envMetadata.value.source == Conda ==> c.environmentType == Some("conda"))
          && (spec.envMetadata.value.source == Venv ==> c.environmentType == Some("venv")))
  }

  /** An optional number as a flag of 0 or 1 and the number, 0 without one. */
  predicate Flags(o: Option<int>, has: int, n: int) {
    if o == None then has == 0 && n == 0 else has == 1 && n == o.value
  }

  predicate RunWritten(e: Execution, c: RunColumns) {
    && c.pid == e.identity.pid && c.pgid == e.identity.pgid && Column(e.identity.startTicks, c.startTicks)
    && Flags(e.startTime, c.hasStart, c.start) && Flags(e.endTime, c.hasEnd, c.end)
    && c.failureReason == e.failureReason && c.logPath == e.logPath
    && (e.exit == None ==> c.hasExit == 0 && c.exitReason == 0 && c.exitCode == 0 && c.exitSignal == 0)
    && (e.exit != None ==>
          && c.hasExit == 1 && c.exitCode == e.exit.value.exitCode && c.exitSignal == e.exit.value.signal
          && (e.exit.value.reason == Exited ==> c.exitReason == 0)
          && (e.exit.value.reason == Signaled ==> c.exitReason == 1)
          && (e.exit.value.reason == UnknownExit ==> c.exitReason == 2))
  }

  /** The devices with a comma between each two. */
  function Commas(devices: seq<Uuid>): string {
    if devices == [] then ""
    else Commas(devices[..|devices| - 1]) + (if |devices| == 1 then "" else ",") + devices[|devices| - 1]
  }

  predicate PlaceWritten(p: GpuPlacement, c: PlaceColumns) {
    && (p.mode == AnyGpu ==> c.mode == None && c.device == None && c.devices == None)
    && (p.mode == Required ==>
          p.devices != [] && c.mode == Some("required") && c.device == Some(p.devices[0])
            && c.devices == Some(Commas(p.devices)))
    && (p.mode == Preferred ==>
          p.devices != [] && c.mode == Some("preferred") && c.device == Some(p.devices[0]) && c.devices == None)
  }

  lemma {:induction false} CommasMore(devices: seq<Uuid>, last: Uuid)
    ensures JoinDevices(devices + [last]) ==
      if devices == [] then last else JoinDevices(devices) + "," + last
  {
    if |devices| == 0 {
      assert devices + [last] == [last];
    } else {
      assert (devices + [last])[1..] == devices[1..] + [last];
      CommasMore(devices[1..], last);
      if |devices| > 1 {
        assert devices[0] + "," + (JoinDevices(devices[1..]) + "," + last) ==
          devices[0] + "," + JoinDevices(devices[1..]) + "," + last;
      }
    }
  }

  lemma {:induction false} CommasMean(devices: seq<Uuid>)
    ensures JoinDevices(devices) == Commas(devices)
  {
    if devices != [] {
      var before, last := devices[..|devices| - 1], devices[|devices| - 1];
      CommasMean(before);
      CommasMore(before, last);
      assert devices == before + [last];
      if |devices| == 1 {
        assert "" + "" + last == last;
      }
    }
  }

  lemma {:induction false} AlternatingMeans(env: seq<EnvVar>)
    ensures EnvItems(env) == Alternating(env) && |Alternating(env)| == 2 * |env|
  {
    if env != [] {
      AlternatingMeans(env[1..]);
    }
  }

  lemma SpecColumnsMean(spec: JobSpec)
    requires ValidSpec(spec)
    ensures SpecWritten(spec, EncodeSpec(spec))
  {
    ListMeans(spec.argv);
    EnvFlat(spec.env);
    AlternatingMeans(spec.env);
    ListMeans(EnvItems(spec.env));
  }

  lemma RunColumnsMean(e: Execution)
    requires 0 <= e.identity.startTicks < 0x1_0000_0000_0000_0000
    ensures RunWritten(e, EncodeRun(e))
  {
  }

  lemma PlaceColumnsMean(p: GpuPlacement)
    requires ValidPlacement(p)
    ensures PlaceWritten(p, EncodePlace(p))
  {
    CommasMean(p.devices);
  }

  /** Every column of a row. */
  predicate Written(r: StoredJob, row: Row) {
    && Column(r.id, row.key) && row.state == StateNumber(r.state) && Column(r.revision, row.revision)
    && SpecWritten(r.spec, row.spec) && RunWritten(r.execution, row.run) && PlaceWritten(r.spec.placement, row.place)
  }

  lemma ColumnsMean(r: StoredJob, row: Row)
    requires row.key == Signed64(r.id) && row.state == StateCode(r.state) && row.revision == Signed64(r.revision)
    requires 0 <= r.id < U64_LIMIT && 0 <= r.revision < U64_LIMIT
    requires SpecWritten(r.spec, row.spec) && RunWritten(r.execution, row.run)
    requires PlaceWritten(r.spec.placement, row.place)
    ensures Written(r, row)
  {
  }

  /** The row of a job, column by column. */
  lemma RowMeans(r: StoredJob)
    requires ConsistentRecord(r.id, r) && Representable(r)
    ensures Written(r, EncodeRow(r))
  {
    SpecColumnsMean(r.spec);
    RunColumnsMean(r.execution);
    PlaceColumnsMean(r.spec.placement);
    ColumnsMean(r, EncodeRow(r));
  }

  // ---- Which rows cannot be read ----

  ghost predicate ListColumn(blob: string, even: bool) {
    exists items :: IsList(blob, items) && (even ==> |items| % 2 == 0)
  }

  ghost predicate HeadBroken(row: Row) {
    || row.state < 0 || row.state > 7 || row.revision < 0
    || !Is32(row.spec.ownerUid) || !Is32(row.spec.ownerGid) || !Is32(row.spec.gpuRequest)
    || !ListColumn(row.spec.argv, false) || !ListColumn(row.spec.env, true)
  }

  predicate BadFlag(n: int) {
    n != 0 && n != 1
  }

  predicate RunBroken(c: RunColumns) {
    || c.pid < 0 || c.pgid < 0 || c.startTicks < 0 || BadFlag(c.hasStart) || BadFlag(c.hasEnd) || BadFlag(c.hasExit)
    || (c.hasExit == 1 && (c.exitReason < 0 || c.exitReason > 2))
    || (c.hasExit == 1 && (c.exitCode < 0 || c.exitCode > 255 || c.exitSignal < 0 || c.exitSignal > 64))
  }

  predicate ContextBroken(c: SpecColumns) {
    || (c.environmentType == None && c.pythonVersion != None)
    || (c.environmentType != None && c.environmentType.value !in {"conda", "venv", "none"})
  }

  /** The devices are the texts between the commas, at most 775 bytes in all, and the first is named apart. */
  predicate PlaceBroken(c: PlaceColumns) {
    if c.mode == None || c.mode == Some("any") then c.device != None || c.devices != None
    else if c.mode == Some("required") then
      || c.device == None || c.devices == None || |c.devices.value| < 1 || |c.devices.value| > 775
      || c.device.value != SplitDevices(c.devices.value)[0]
      || exists u :: u in SplitDevices(c.devices.value) && !J.TextOf(u, 1, 96)
    else c.mode != Some("preferred") || c.device == None || !J.TextOf(c.device.value, 1, 96) || c.devices != None
  }

  predicate Unsound(r: StoredJob) {
    || !S.NumberOf(r.id) || !J.SpecOf(r.spec)
    || (r.state == JobState.Queued && r.revision != 0) || (r.state != JobState.Queued && r.revision == 0)
  }

  /** The record that the columns describe, if they can be read. */
  function Described(row: Row): Option<StoredJob> {
    if SpecOk(row.spec) && PlaceOf(row.place).Some? then Some(Assemble(row, PlaceOf(row.place).value)) else None
  }

  /** The rules for a row, in the order of the checks. */
  ghost predicate RowBreaks(rule: int, row: Row) {
    if rule == 0 then HeadBroken(row)
    else if rule == 1 then RunBroken(row.run)
    else if rule == 2 then ContextBroken(row.spec) || PlaceBroken(row.place)
    else if rule == 3 then Described(row) != None && Unsound(Described(row).value)
    else rule == 4 && Described(row) != None && S.RecordBroken(Described(row).value)
  }

  function RowError(rule: int): StoreError {
    if rule == 1 || rule == 4 then InvalidExecutionRecord else InvalidJob
  }

  lemma HeadMeans(row: Row)
    requires Bytes(row.spec.argv) && Bytes(row.spec.env)
    ensures HeadBroken(row) <==> !(0 <= row.state <= 7) || row.revision < 0 || !SpecOk(row.spec)
  {
    ListRead(row.spec.argv);
    ListRead(row.spec.env);
  }

  lemma PlaceMeans(c: PlaceColumns)
    ensures PlaceBroken(c) <==> PlaceOf(c).None?
  {
    if c.devices.Some? {
      SplitCommaFree(c.devices.value);
      var devices := SplitDevices(c.devices.value);
      assert (exists u :: u in devices && !J.TextOf(u, 1, 96)) <==>
        exists i :: 0 <= i < |devices| && !ValidUuid(devices[i]) by {
        assert forall i :: 0 <= i < |devices| ==> devices[i] in devices;
      }
    }
  }

  lemma ValidatedMeans(r: StoredJob)
    ensures Validated(r) ==
      if Unsound(r) then Err(InvalidJob) else if S.RecordBroken(r) then Err(InvalidExecutionRecord) else Ok(r)
  {
    J.SpecMeans(r.spec);
    S.RecordMeans(r);
  }

  lemma ColumnsRead(row: Row)
    requires Bytes(row.spec.argv) && Bytes(row.spec.env)
    ensures HeadBroken(row) ==> DecodeRow(row) == Err(InvalidJob)
    ensures !HeadBroken(row) && RunBroken(row.run) ==> DecodeRow(row) == Err(InvalidExecutionRecord)
    ensures !HeadBroken(row) && !RunBroken(row.run) && (ContextBroken(row.spec) || PlaceBroken(row.place)) ==>
      DecodeRow(row) == Err(InvalidJob)
    ensures !HeadBroken(row) && !RunBroken(row.run) && !ContextBroken(row.spec) && !PlaceBroken(row.place) ==>
      Described(row) != None && DecodeRow(row) == Validated(Described(row).value)
  {
    HeadMeans(row);
    PlaceMeans(row.place);
  }

  /** A row is refused with the error of the first rule it breaks, and read as its columns say if it breaks none. */
  lemma RowReads(row: Row) returns (rule: int)
    requires Bytes(row.spec.argv) && Bytes(row.spec.env)
    ensures 0 <= rule <= 5 && (forall k :: 0 <= k < rule ==> !RowBreaks(k, row))
    ensures rule < 5 ==> RowBreaks(rule, row) && DecodeRow(row) == Err(RowError(rule))
    ensures rule == 5 ==> Described(row) != None && DecodeRow(row) == Ok(Described(row).value)
  {
    ColumnsRead(row);
    if HeadBroken(row) {
      rule := 0;
    } else if RunBroken(row.run) {
      rule := 1;
    } else if ContextBroken(row.spec) || PlaceBroken(row.place) {
      rule := 2;
    } else {
      var r := Described(row).value;
      ValidatedMeans(r);
      rule := if Unsound(r) then 3 else if S.RecordBroken(r) then 4 else 5;
    }
  }
}
