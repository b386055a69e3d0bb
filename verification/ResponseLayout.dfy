/** Every response as bytes, written out: what is sent and when, and what is read back (ipc_protocol.cpp). */
module ResponseLayout {
  import opened Basics
  import opened Wire
  import opened WireLaws
  import opened Payloads
  import opened Messages
  import opened Responses
  import opened InspectInfos
  import opened ResponseCodec
  import opened WireLayout
  import RequestLayout

  // ---- Fields ----

  predicate Opt32Ok(o: Option<int>) {
    o.Some? ==> Is32(o.value)
  }

  function OptU32(o: Option<int>): string {
    if o.Some? then U8(1) + U32(o.value) else U8(0)
  }

  /** From version 3 on, why a job waits. */
  predicate WaitOk(version: int, reason: int, detail: Option<string>) {
    version >= 3 ==> 0 <= reason <= 4 && OptTextOk(detail)
  }

  function WaitText(version: int, reason: int, detail: Option<string>): string {
    if version >= 3 then U8(reason) + OptSized(detail) else ""
  }

  predicate IdentityOk(job: int, state: int, owner: int, revision: int) {
    Is64(job) && Is8(state) && Is32(owner) && Is64(revision)
  }

  function IdentityText(job: int, state: int, owner: int, revision: int): string {
    U64(job) + U8(state) + U32(owner) + U64(revision)
  }

  predicate CommandLineOk(argv: seq<string>, cwd: string, logdir: Option<string>) {
    |argv| <= 256 && AllTextOk(argv) && TextOk(cwd) && OptTextOk(logdir)
  }

  function CommandLineText(argv: seq<string>, cwd: string, logdir: Option<string>): string {
    U32(|argv|) + AllSized(argv) + Sized(cwd) + OptSized(logdir)
  }

  predicate SummaryOk(version: int, s: JobSummary) {
    && IdentityOk(s.job, s.state, s.ownerUid, s.revision)
    && (!s.masked ==> CommandLineOk(s.argv, s.cwd, s.tensorboardLogdir))
    && ExitOk(s.exit) && WaitOk(version, s.waitReason, s.waitDetail)
  }

  function SummaryText(version: int, s: JobSummary): string {
    IdentityText(s.job, s.state, s.ownerUid, s.revision)
    + (if s.masked then U8(1) else U8(0) + CommandLineText(s.argv, s.cwd, s.tensorboardLogdir))
    + ExitText(s.exit) + WaitText(version, s.waitReason, s.waitDetail)
  }

  predicate AllSummaryOk(version: int, xs: seq<JobSummary>) {
    forall i :: 0 <= i < |xs| ==> SummaryOk(version, xs[i])
  }

  function SummariesText(version: int, xs: seq<JobSummary>): string {
    if xs == [] then "" else SummaryText(version, xs[0]) + SummariesText(version, xs[1..])
  }

  predicate ItemOk(version: int, q: QueueItem) {
    Is64(q.job) && Is32(q.ownerUid) && Is64(q.submitTime) && Is8(q.state) && WaitOk(version, q.waitReason, q.waitDetail)
  }

  function ItemText(version: int, q: QueueItem): string {
    U64(q.job) + U32(q.ownerUid) + U64(q.submitTime) + U8(q.state) + WaitText(version, q.waitReason, q.waitDetail)
  }

  predicate AllItemOk(version: int, xs: seq<QueueItem>) {
    forall i :: 0 <= i < |xs| ==> ItemOk(version, xs[i])
  }

  function ItemsText(version: int, xs: seq<QueueItem>): string {
    if xs == [] then "" else ItemText(version, xs[0]) + ItemsText(version, xs[1..])
  }

  predicate DeviceOk(d: GpuDevice) {
    && TextOk(d.uuid) && Is32(d.index) && Is8(d.observedState) && Is8(d.logicalState) && Opt32Ok(d.utilization)
    && (d.memoryUsed.Some? && d.memoryTotal.Some? ==> Is64(d.memoryUsed.value) && Is64(d.memoryTotal.value))
    && Opt64Ok(d.leasedBy)
  }

  /** Used and total memory are sent together or not at all. */
  function MemoryText(used: Option<int>, total: Option<int>): string {
    if used.Some? && total.Some? then U8(1) + U64(used.value) + U64(total.value) else U8(0)
  }

  function DeviceText(d: GpuDevice): string {
    Sized(d.uuid) + U32(d.index) + U8(d.observedState) + U8(d.logicalState) + OptU32(d.utilization)
    + MemoryText(d.memoryUsed, d.memoryTotal) + OptU64(d.leasedBy)
  }

  predicate AllDeviceOk(xs: seq<GpuDevice>) {
    forall i :: 0 <= i < |xs| ==> DeviceOk(xs[i])
  }

  function DevicesText(xs: seq<GpuDevice>): string {
    if xs == [] then "" else DeviceText(xs[0]) + DevicesText(xs[1..])
  }

  predicate EntryOk(e: EnvEntry) {
    TextOk(e.name) && TextOk(e.value)
  }

  function EntryText(e: EnvEntry): string {
    Sized(e.name) + Flagged(e.masked) + Sized(e.value)
  }

  predicate AllEntryOk(env: seq<EnvEntry>) {
    forall i :: 0 <= i < |env| ==> EntryOk(env[i])
  }

  function EntriesText(env: seq<EnvEntry>): string {
    if env == [] then "" else EntryText(env[0]) + EntriesText(env[1..])
  }

  predicate InspectOk(version: int, m: InspectInfo) {
    && IdentityOk(m.job, m.state, m.ownerUid, m.revision) && TextOk(m.cwd) && OptTextOk(m.executable)
    && |m.argv| <= 256 && AllTextOk(m.argv)
    && MetadataOk(m.envMetadata) && |m.env| <= 1024 && AllEntryOk(m.env)
    && OptTextOk(m.gpuUuid) && Opt32Ok(m.gpuIndex)
    && Is64(m.submitTime) && ExitOk(m.exit) && OptTextOk(m.logPath)
    && (version >= 3 ==> 0 <= m.placementMode <= 2 && OptTextOk(m.placementDevice))
    && (version >= 4 ==> |m.placementDevices| <= 256 && AllTextOk(m.placementDevices))
  }

  function ContextText(m: InspectInfo): string {
    IdentityText(m.job, m.state, m.ownerUid, m.revision) + Sized(m.cwd) + OptSized(m.executable)
    + (U32(|m.argv|) + AllSized(m.argv))
  }

  function AllocationText(m: InspectInfo): string {
    MetadataText(m.envMetadata) + (U32(|m.env|) + EntriesText(m.env)) + OptSized(m.gpuUuid) + OptU32(m.gpuIndex)
  }

  function ProvenanceText(m: InspectInfo): string {
    U64(m.submitTime) + ExitText(m.exit) + OptSized(m.logPath)
  }

  /** Version 3 added the placement, version 4 its set of devices, whose count is cut to one byte. */
  function PlacementText(version: int, m: InspectInfo): string {
    (if version >= 3 then U8(m.placementMode) + OptSized(m.placementDevice) else "")
    + (if version >= 4 then U8(|m.placementDevices| % 256) + AllSized(m.placementDevices) else "")
  }

  function InspectText(version: int, m: InspectInfo): string {
    ContextText(m) + AllocationText(m) + ProvenanceText(m) + PlacementText(version, m)
  }

  // ---- Whole responses ----

  /** Counted even where they are masked. */
  predicate ArgumentsCounted(jobs: seq<JobSummary>) {
    forall i :: 0 <= i < |jobs| ==> |jobs[i].argv| <= 256
  }

  predicate BodyOk(version: int, b: ResponseBody) {
    match b
    case SubmitDone(job) => Is64(job)
    case JobList(jobs) => |jobs| <= 1024 && AllSummaryOk(version, jobs) && ArgumentsCounted(jobs)
    case QueueList(entries) => |entries| <= 1024 && AllItemOk(version, entries)
    case GpuList(revision, devices) => Is64(revision) && |devices| <= 1024 && AllDeviceOk(devices)
    case CancelDone(state) => Is8(state)
    case LogTails(_, out, _, err) => |out| <= 524288 && |err| <= 524288
    case FollowStarted(state, out, err) => Is8(state) && Is64(out) && Is64(err)
    case TensorboardInfo(logdir, cwd) => OptTextOk(logdir) && TextOk(cwd)
    case InspectDone(info) => version >= 2 && InspectOk(version, info)
  }

  predicate ResponseOk(m: Response) {
    1 <= m.version <= 4 && Is8(m.error) && TextOk(m.detail) && BodyOk(m.version, m.body)
  }

  function KindNumber(b: ResponseBody): int {
    match b
    case SubmitDone(_) => 1
    case JobList(_) => 2
    case QueueList(_) => 3
    case GpuList(_, _) => 4
    case CancelDone(_) => 5
    case LogTails(_, _, _, _) => 6
    case FollowStarted(_, _, _) => 7
    case TensorboardInfo(_, _) => 8
    case InspectDone(_) => 9
  }

  function BodyText(version: int, b: ResponseBody): string {
    match b
    case SubmitDone(job) => U64(job)
    case JobList(jobs) => U32(|jobs|) + SummariesText(version, jobs)
    case QueueList(entries) => U32(|entries|) + ItemsText(version, entries)
    case GpuList(revision, devices) => U64(revision) + (U32(|devices|) + DevicesText(devices))
    case CancelDone(state) => U8(state)
    case LogTails(cutOut, out, cutErr, err) => Flagged(cutOut) + Sized(out) + Flagged(cutErr) + Sized(err)
    case FollowStarted(state, out, err) => U8(state) + U64(out) + U64(err)
    case TensorboardInfo(logdir, cwd) => OptSized(logdir) + Sized(cwd)
    case InspectDone(info) => InspectText(version, info)
  }

  /** The version, the kind, the error with its detail, and the body. */
  function ResponseText(m: Response): string {
    U8(m.version) + U8(KindNumber(m.body)) + (U8(m.error) + Sized(m.detail) + BodyText(m.version, m.body))
  }

  // ---- Laying out ----

  lemma LaysOptU32(o: Option<int>)
    ensures Lays(Opt(UInt(4)), OptNum(o), Opt32Ok(o), OptU32(o))
  {
    LaysAbsent(UInt(4));
    if o.Some? {
      LaysU32(o.value);
      LaysPresent(UInt(4), Num(o.value), Is32(o.value), U32(o.value));
    }
  }

  lemma LaysWait(version: int, reason: int, detail: Option<string>)
    ensures Lays(WaitFormat(version), WaitValue(version, reason, detail), WaitOk(version, reason, detail),
                 WaitText(version, reason, detail))
  {
    LaysByte(4, reason);
    LaysOptText(detail);
    LaysTwo(Byte(4, true), Opt(Str), Num(reason), OptText(detail), Is8(reason) && reason <= 4, OptTextOk(detail),
            U8(reason), OptSized(detail));
    LaysWhen(version >= 3, Record([Byte(4, true), Opt(Str)]), Items([Num(reason), OptText(detail)]),
             Is8(reason) && reason <= 4 && OptTextOk(detail), U8(reason) + OptSized(detail));
  }

  lemma LaysIdentity(job: int, state: int, owner: int, revision: int)
    ensures Lays(IdentityFormat(), IdentityValue(job, state, owner, revision), IdentityOk(job, state, owner, revision),
                 IdentityText(job, state, owner, revision))
  {
    LaysU64(job);
    LaysU8(state);
    LaysU32(owner);
    LaysU64(revision);
    LaysFour(UInt(8), UInt(1), UInt(4), UInt(8), Num(job), Num(state), Num(owner), Num(revision),
             Is64(job), Is8(state), Is32(owner), Is64(revision), U64(job), U8(state), U32(owner), U64(revision));
    LaysTested(Record([UInt(8), UInt(1), UInt(4), UInt(8)]), StateSecond, InvalidValue,
               IdentityValue(job, state, owner, revision), IdentityOk(job, state, owner, revision),
               IdentityText(job, state, owner, revision));
  }

  lemma LaysCommandLine(argv: seq<string>, cwd: string, logdir: Option<string>)
    ensures Lays(COMMAND_LINE, CommandLineValue(argv, cwd, logdir), CommandLineOk(argv, cwd, logdir),
                 CommandLineText(argv, cwd, logdir))
  {
    LaysTexts(argv);
    LaysText(cwd);
    LaysOptText(logdir);
    LaysThree(List(256, Str), Str, Opt(Str), Texts(argv), Text(cwd), OptText(logdir),
              |argv| <= 256 && AllTextOk(argv), TextOk(cwd), OptTextOk(logdir),
              U32(|argv|) + AllSized(argv), Sized(cwd), OptSized(logdir));
  }

  lemma LaysShown(masked: bool, argv: seq<string>, cwd: string, logdir: Option<string>)
    ensures Lays(Unless(COMMAND_LINE), ShownValue(masked, argv, cwd, logdir),
                 !masked ==> CommandLineOk(argv, cwd, logdir),
                 if masked then U8(1) else U8(0) + CommandLineText(argv, cwd, logdir))
  {
    LaysAbsent(COMMAND_LINE);
    LaysCommandLine(argv, cwd, logdir);
    LaysPresent(COMMAND_LINE, CommandLineValue(argv, cwd, logdir), CommandLineOk(argv, cwd, logdir),
                CommandLineText(argv, cwd, logdir));
  }

  lemma LaysSummary(version: int, s: JobSummary)
    ensures Lays(SummaryFormat(version), SummaryValue(version, s), SummaryOk(version, s), SummaryText(version, s))
  {
    LaysIdentity(s.job, s.state, s.ownerUid, s.revision);
    LaysShown(s.masked, s.argv, s.cwd, s.tensorboardLogdir);
    LaysExit(s.exit);
    LaysWait(version, s.waitReason, s.waitDetail);
    LaysFour(IdentityFormat(), Unless(COMMAND_LINE), EXIT_FORMAT, WaitFormat(version),
             IdentityValue(s.job, s.state, s.ownerUid, s.revision),
             ShownValue(s.masked, s.argv, s.cwd, s.tensorboardLogdir), ExitValue(s.exit),
             WaitValue(version, s.waitReason, s.waitDetail),
             IdentityOk(s.job, s.state, s.ownerUid, s.revision),
             !s.masked ==> CommandLineOk(s.argv, s.cwd, s.tensorboardLogdir), ExitOk(s.exit),
             WaitOk(version, s.waitReason, s.waitDetail),
             IdentityText(s.job, s.state, s.ownerUid, s.revision),
             if s.masked then U8(1) else U8(0) + CommandLineText(s.argv, s.cwd, s.tensorboardLogdir),
             ExitText(s.exit), WaitText(version, s.waitReason, s.waitDetail));
  }

  lemma LaysItem(version: int, q: QueueItem)
    ensures Lays(ItemFormat(version), ItemValue(version, q), ItemOk(version, q), ItemText(version, q))
  {
    LaysU64(q.job);
    LaysU32(q.ownerUid);
    LaysU64(q.submitTime);
    LaysU8(q.state);
    LaysWait(version, q.waitReason, q.waitDetail);
    var head := U64(q.job) + U32(q.ownerUid) + U64(q.submitTime) + U8(q.state);
    var ok := Is64(q.job) && Is32(q.ownerUid) && Is64(q.submitTime) && Is8(q.state);
    LaysFour(UInt(8), UInt(4), UInt(8), UInt(1), Num(q.job), Num(q.ownerUid), Num(q.submitTime), Num(q.state),
             Is64(q.job), Is32(q.ownerUid), Is64(q.submitTime), Is8(q.state),
             U64(q.job), U32(q.ownerUid), U64(q.submitTime), U8(q.state));
    LaysTested(Record([UInt(8), UInt(4), UInt(8), UInt(1)]), StateFourth, InvalidValue,
               WaitingValue(q.job, q.ownerUid, q.submitTime, q.state), ok, head);
    LaysTwo(WaitingFormat(), WaitFormat(version), WaitingValue(q.job, q.ownerUid, q.submitTime, q.state),
            WaitValue(version, q.waitReason, q.waitDetail), ok, WaitOk(version, q.waitReason, q.waitDetail), head,
            WaitText(version, q.waitReason, q.waitDetail));
  }

  lemma LaysPlace(index: int, observed: int, logical: int)
    ensures Lays(PlaceFormat(), PlaceValue(index, observed, logical), Is32(index) && Is8(observed) && Is8(logical),
                 U32(index) + U8(observed) + U8(logical))
  {
    LaysU32(index);
    LaysU8(observed);
    LaysU8(logical);
    LaysThree(UInt(4), UInt(1), UInt(1), Num(index), Num(observed), Num(logical), Is32(index), Is8(observed),
              Is8(logical), U32(index), U8(observed), U8(logical));
    LaysTested(Record([UInt(4), UInt(1), UInt(1)]), StatesOk, InvalidValue, PlaceValue(index, observed, logical),
               Is32(index) && Is8(observed) && Is8(logical), U32(index) + U8(observed) + U8(logical));
  }

  lemma LaysPercent(o: Option<int>)
    ensures Lays(PercentFormat(), OptNum(o), Opt32Ok(o), OptU32(o))
  {
    var f := Tested(UInt(4), PercentOk, InvalidValue, false);
    LaysAbsent(f);
    if o.Some? {
      LaysU32(o.value);
      LaysTested(UInt(4), PercentOk, InvalidValue, Num(o.value), Is32(o.value), U32(o.value));
      LaysPresent(f, Num(o.value), Is32(o.value), U32(o.value));
    }
  }

  predicate MemoryFits(used: Option<int>, total: Option<int>) {
    used.Some? && total.Some? ==> Is64(used.value) && Is64(total.value)
  }

  lemma LaysMemory(used: Option<int>, total: Option<int>)
    ensures Lays(MemoryFormat(), MemoryValue(used, total), MemoryFits(used, total), MemoryText(used, total))
  {
    var f := Tested(Record([UInt(8), UInt(8)]), MemoryOk, InvalidValue, false);
    LaysAbsent(f);
    if used.Some? && total.Some? {
      var v, text := Items([Num(used.value), Num(total.value)]), U64(used.value) + U64(total.value);
      LaysU64(used.value);
      LaysU64(total.value);
      LaysTwo(UInt(8), UInt(8), Num(used.value), Num(total.value), Is64(used.value), Is64(total.value),
              U64(used.value), U64(total.value));
      LaysTested(Record([UInt(8), UInt(8)]), MemoryOk, InvalidValue, v, MemoryFits(used, total), text);
      LaysPresent(f, v, MemoryFits(used, total), text);
      RequestLayout.Regroup(U8(1), U64(used.value), U64(total.value));
    }
  }

  lemma LaysUsage(d: GpuDevice)
    ensures Lays(UsageFormat(), UsageValue(d.utilization, d.memoryUsed, d.memoryTotal, d.leasedBy),
                 Opt32Ok(d.utilization) && MemoryFits(d.memoryUsed, d.memoryTotal) && Opt64Ok(d.leasedBy),
                 OptU32(d.utilization) + MemoryText(d.memoryUsed, d.memoryTotal) + OptU64(d.leasedBy))
  {
    LaysPercent(d.utilization);
    LaysMemory(d.memoryUsed, d.memoryTotal);
    LaysOptU64(d.leasedBy);
    LaysThree(PercentFormat(), MemoryFormat(), Opt(UInt(8)), OptNum(d.utilization),
              MemoryValue(d.memoryUsed, d.memoryTotal), OptNum(d.leasedBy), Opt32Ok(d.utilization),
              MemoryFits(d.memoryUsed, d.memoryTotal), Opt64Ok(d.leasedBy), OptU32(d.utilization),
              MemoryText(d.memoryUsed, d.memoryTotal), OptU64(d.leasedBy));
  }

  lemma RegroupDevice(a: string, b: string, c: string, d: string, e: string, f: string, g: string)
    ensures a + (b + c + d) + (e + f + g) == a + b + c + d + e + f + g
  {
  }

  lemma LaysDevice(d: GpuDevice)
    ensures Lays(DeviceFormat(), DeviceValue(d), DeviceOk(d), DeviceText(d))
  {
    LaysText(d.uuid);
    LaysPlace(d.index, d.observedState, d.logicalState);
    LaysUsage(d);
    LaysThree(Str, PlaceFormat(), UsageFormat(), Text(d.uuid), PlaceValue(d.index, d.observedState, d.logicalState),
              UsageValue(d.utilization, d.memoryUsed, d.memoryTotal, d.leasedBy), TextOk(d.uuid),
              Is32(d.index) && Is8(d.observedState) && Is8(d.logicalState),
              Opt32Ok(d.utilization) && MemoryFits(d.memoryUsed, d.memoryTotal) && Opt64Ok(d.leasedBy),
              Sized(d.uuid), U32(d.index) + U8(d.observedState) + U8(d.logicalState),
              OptU32(d.utilization) + MemoryText(d.memoryUsed, d.memoryTotal) + OptU64(d.leasedBy));
    RegroupDevice(Sized(d.uuid), U32(d.index), U8(d.observedState), U8(d.logicalState), OptU32(d.utilization),
                  MemoryText(d.memoryUsed, d.memoryTotal), OptU64(d.leasedBy));
  }

  // ---- Lists ----

  lemma {:induction false} SummariesConcat(version: int, xs: seq<JobSummary>, texts: seq<string>)
    requires |texts| == |xs| && forall i :: 0 <= i < |xs| ==> texts[i] == SummaryText(version, xs[i])
    ensures Concat(texts) == SummariesText(version, xs)
  {
    if xs != [] {
      SummariesConcat(version, xs[1..], texts[1..]);
    }
  }

  lemma SummariesLaid(version: int, xs: seq<JobSummary>) returns (oks: seq<bool>, texts: seq<string>)
    ensures AllLaid(SummaryFormat(version), SummaryValues(version, xs).items, oks, texts)
    ensures Concat(texts) == SummariesText(version, xs)
    ensures AllSummaryOk(version, xs) <==> AllTrue(oks)
  {
    oks := seq(|xs|, i requires 0 <= i < |xs| => SummaryOk(version, xs[i]));
    texts := seq(|xs|, i requires 0 <= i < |xs| => SummaryText(version, xs[i]));
    forall i | 0 <= i < |xs|
      ensures Lays(SummaryFormat(version), SummaryValues(version, xs).items[i], oks[i], texts[i])
    {
      LaysSummary(version, xs[i]);
    }
    SummariesConcat(version, xs, texts);
    assert forall i :: 0 <= i < |xs| ==> oks[i] == SummaryOk(version, xs[i]);
  }

  lemma LaysSummaries(version: int, xs: seq<JobSummary>)
    ensures Lays(List(1024, SummaryFormat(version)), SummaryValues(version, xs),
                 |xs| <= 1024 && AllSummaryOk(version, xs), U32(|xs|) + SummariesText(version, xs))
  {
    var oks, texts := SummariesLaid(version, xs);
    LaysList(1024, SummaryFormat(version), SummaryValues(version, xs).items, oks, texts);
  }

  lemma {:induction false} ItemsConcat(version: int, xs: seq<QueueItem>, texts: seq<string>)
    requires |texts| == |xs| && forall i :: 0 <= i < |xs| ==> texts[i] == ItemText(version, xs[i])
    ensures Concat(texts) == ItemsText(version, xs)
  {
    if xs != [] {
      ItemsConcat(version, xs[1..], texts[1..]);
    }
  }

  lemma QueueLaid(version: int, xs: seq<QueueItem>) returns (oks: seq<bool>, texts: seq<string>)
    ensures AllLaid(ItemFormat(version), ItemValues(version, xs).items, oks, texts)
    ensures Concat(texts) == ItemsText(version, xs)
    ensures AllItemOk(version, xs) <==> AllTrue(oks)
  {
    oks := seq(|xs|, i requires 0 <= i < |xs| => ItemOk(version, xs[i]));
    texts := seq(|xs|, i requires 0 <= i < |xs| => ItemText(version, xs[i]));
    forall i | 0 <= i < |xs| ensures Lays(ItemFormat(version), ItemValues(version, xs).items[i], oks[i], texts[i]) {
      LaysItem(version, xs[i]);
    }
    ItemsConcat(version, xs, texts);
    assert forall i :: 0 <= i < |xs| ==> oks[i] == ItemOk(version, xs[i]);
  }

  lemma LaysQueue(version: int, xs: seq<QueueItem>)
    ensures Lays(List(1024, ItemFormat(version)), ItemValues(version, xs),
                 |xs| <= 1024 && AllItemOk(version, xs), U32(|xs|) + ItemsText(version, xs))
  {
    var oks, texts := QueueLaid(version, xs);
    LaysList(1024, ItemFormat(version), ItemValues(version, xs).items, oks, texts);
  }

  lemma {:induction false} DevicesConcat(xs: seq<GpuDevice>, texts: seq<string>)
    requires |texts| == |xs| && forall i :: 0 <= i < |xs| ==> texts[i] == DeviceText(xs[i])
    ensures Concat(texts) == DevicesText(xs)
  {
    if xs != [] {
      DevicesConcat(xs[1..], texts[1..]);
    }
  }

  lemma DevicesLaid(xs: seq<GpuDevice>) returns (oks: seq<bool>, texts: seq<string>)
    ensures AllLaid(DeviceFormat(), DeviceValues(xs).items, oks, texts)
    ensures Concat(texts) == DevicesText(xs)
    ensures AllDeviceOk(xs) <==> AllTrue(oks)
  {
    oks := seq(|xs|, i requires 0 <= i < |xs| => DeviceOk(xs[i]));
    texts := seq(|xs|, i requires 0 <= i < |xs| => DeviceText(xs[i]));
    forall i | 0 <= i < |xs| ensures Lays(DeviceFormat(), DeviceValues(xs).items[i], oks[i], texts[i]) {
      LaysDevice(xs[i]);
    }
    DevicesConcat(xs, texts);
    assert forall i :: 0 <= i < |xs| ==> oks[i] == DeviceOk(xs[i]);
  }

  lemma LaysDevices(xs: seq<GpuDevice>)
    ensures Lays(List(1024, DeviceFormat()), DeviceValues(xs),
                 |xs| <= 1024 && AllDeviceOk(xs), U32(|xs|) + DevicesText(xs))
  {
    var oks, texts := DevicesLaid(xs);
    LaysList(1024, DeviceFormat(), DeviceValues(xs).items, oks, texts);
  }

  lemma LaysEntry(e: EnvEntry)
    ensures Lays(ENTRY, EntryValue(e), EntryOk(e), EntryText(e))
  {
    LaysText(e.name);
    LaysFlag(e.masked);
    LaysText(e.value);
    LaysThree(Str, Flag, Str, Text(e.name), Bool(e.masked), Text(e.value), TextOk(e.name), true, TextOk(e.value),
              Sized(e.name), Flagged(e.masked), Sized(e.value));
  }

  lemma {:induction false} EntriesConcat(env: seq<EnvEntry>, texts: seq<string>)
    requires |texts| == |env| && forall i :: 0 <= i < |env| ==> texts[i] == EntryText(env[i])
    ensures Concat(texts) == EntriesText(env)
  {
    if env != [] {
      EntriesConcat(env[1..], texts[1..]);
    }
  }

  lemma EntriesLaid(xs: seq<EnvEntry>) returns (oks: seq<bool>, texts: seq<string>)
    ensures AllLaid(ENTRY, EntryValues(xs).items, oks, texts)
    ensures Concat(texts) == EntriesText(xs)
    ensures AllEntryOk(xs) <==> AllTrue(oks)
  {
    oks := seq(|xs|, i requires 0 <= i < |xs| => EntryOk(xs[i]));
    texts := seq(|xs|, i requires 0 <= i < |xs| => EntryText(xs[i]));
    forall i | 0 <= i < |xs| ensures Lays(ENTRY, EntryValues(xs).items[i], oks[i], texts[i]) {
      LaysEntry(xs[i]);
    }
    EntriesConcat(xs, texts);
    assert forall i :: 0 <= i < |xs| ==> oks[i] == EntryOk(xs[i]);
  }

  lemma LaysEntries(xs: seq<EnvEntry>)
    ensures Lays(List(1024, ENTRY), EntryValues(xs), |xs| <= 1024 && AllEntryOk(xs), U32(|xs|) + EntriesText(xs))
  {
    var oks, texts := EntriesLaid(xs);
    LaysList(1024, ENTRY, EntryValues(xs).items, oks, texts);
  }

  // ---- INSPECT ----

  lemma LaysContext(m: InspectInfo)
    ensures Lays(ContextFormat(), ContextValue(m),
                 IdentityOk(m.job, m.state, m.ownerUid, m.revision) && TextOk(m.cwd) && OptTextOk(m.executable)
                 && (|m.argv| <= 256 && AllTextOk(m.argv)), ContextText(m))
  {
    LaysIdentity(m.job, m.state, m.ownerUid, m.revision);
    LaysText(m.cwd);
    LaysOptText(m.executable);
    LaysTexts(m.argv);
    LaysFour(IdentityFormat(), Str, Opt(Str), List(256, Str),
             IdentityValue(m.job, m.state, m.ownerUid, m.revision), Text(m.cwd), OptText(m.executable), Texts(m.argv),
             IdentityOk(m.job, m.state, m.ownerUid, m.revision), TextOk(m.cwd), OptTextOk(m.executable),
             |m.argv| <= 256 && AllTextOk(m.argv), IdentityText(m.job, m.state, m.ownerUid, m.revision),
             Sized(m.cwd), OptSized(m.executable), U32(|m.argv|) + AllSized(m.argv));
  }

  lemma LaysAllocation(m: InspectInfo)
    ensures Lays(AllocationFormat(), AllocationValue(m),
                 MetadataOk(m.envMetadata) && (|m.env| <= 1024 && AllEntryOk(m.env)) && OptTextOk(m.gpuUuid)
                 && Opt32Ok(m.gpuIndex),
                 AllocationText(m))
  {
    LaysMetadata(m.envMetadata);
    LaysEntries(m.env);
    LaysOptText(m.gpuUuid);
    LaysOptU32(m.gpuIndex);
    LaysFour(MetadataFormat(), List(1024, ENTRY), Opt(Str), Opt(UInt(4)), MetadataValue(m.envMetadata),
             EntryValues(m.env), OptText(m.gpuUuid), OptNum(m.gpuIndex), MetadataOk(m.envMetadata),
             |m.env| <= 1024 && AllEntryOk(m.env), OptTextOk(m.gpuUuid), Opt32Ok(m.gpuIndex),
             MetadataText(m.envMetadata),
             U32(|m.env|) + EntriesText(m.env), OptSized(m.gpuUuid), OptU32(m.gpuIndex));
  }

  lemma LaysProvenance(m: InspectInfo)
    ensures Lays(PROVENANCE, ProvenanceValue(m), Is64(m.submitTime) && ExitOk(m.exit) && OptTextOk(m.logPath),
                 ProvenanceText(m))
  {
    LaysU64(m.submitTime);
    LaysExit(m.exit);
    LaysOptText(m.logPath);
    LaysThree(UInt(8), EXIT_FORMAT, Opt(Str), Num(m.submitTime), ExitValue(m.exit), OptText(m.logPath),
              Is64(m.submitTime), ExitOk(m.exit), OptTextOk(m.logPath), U64(m.submitTime), ExitText(m.exit),
              OptSized(m.logPath));
  }

  predicate PlacementOk(version: int, m: InspectInfo) {
    && (version >= 3 ==> 0 <= m.placementMode <= 2 && OptTextOk(m.placementDevice))
    && (version >= 4 ==> |m.placementDevices| <= 256 && AllTextOk(m.placementDevices))
  }

  lemma LaysPlacement(version: int, m: InspectInfo)
    ensures Lays(PlacementFormat(version), PlacementValue(version, m), PlacementOk(version, m),
                 PlacementText(version, m))
  {
    var mode, moded := U8(m.placementMode) + OptSized(m.placementDevice),
      Is8(m.placementMode) && m.placementMode <= 2 && OptTextOk(m.placementDevice);
    var devices, deviced := U8(|m.placementDevices| % 256) + AllSized(m.placementDevices),
      |m.placementDevices| <= 256 && AllTextOk(m.placementDevices);
    LaysByte(2, m.placementMode);
    LaysOptText(m.placementDevice);
    LaysTwo(Byte(2, true), Opt(Str), Num(m.placementMode), OptText(m.placementDevice),
            Is8(m.placementMode) && m.placementMode <= 2, OptTextOk(m.placementDevice), U8(m.placementMode),
            OptSized(m.placementDevice));
    LaysTexts(m.placementDevices);
    LaysWhen(version >= 3, ModeFormat(), ModeValue(m.placementMode, m.placementDevice), moded, mode);
    LaysWhen(version >= 4, ShortList(Str), Texts(m.placementDevices), deviced, devices);
    LaysTwo(When(version >= 3, ModeFormat()), When(version >= 4, ShortList(Str)),
            ValueWhen(version >= 3, ModeValue(m.placementMode, m.placementDevice)),
            ValueWhen(version >= 4, Texts(m.placementDevices)), version >= 3 ==> moded, version >= 4 ==> deviced,
            if version >= 3 then mode else "", if version >= 4 then devices else "");
  }

  lemma LaysInspect(version: int, m: InspectInfo)
    ensures Lays(InspectFormat(version), InspectValue(version, m), InspectOk(version, m), InspectText(version, m))
  {
    LaysContext(m);
    LaysAllocation(m);
    LaysProvenance(m);
    LaysPlacement(version, m);
    LaysFour(ContextFormat(), AllocationFormat(), PROVENANCE, PlacementFormat(version),
             ContextValue(m), AllocationValue(m), ProvenanceValue(m), PlacementValue(version, m),
             IdentityOk(m.job, m.state, m.ownerUid, m.revision) && TextOk(m.cwd) && OptTextOk(m.executable)
             && (|m.argv| <= 256 && AllTextOk(m.argv)),
             MetadataOk(m.envMetadata) && (|m.env| <= 1024 && AllEntryOk(m.env)) && OptTextOk(m.gpuUuid)
             && Opt32Ok(m.gpuIndex),
             Is64(m.submitTime) && ExitOk(m.exit) && OptTextOk(m.logPath), PlacementOk(version, m),
             ContextText(m), AllocationText(m), ProvenanceText(m), PlacementText(version, m));
  }

  // ---- Bodies ----

  /** A body is laid out as its text. */
  ghost predicate BodyLays(version: int, b: ResponseBody, ok: bool) {
    Lays(BodyLayout(version, KindNumber(b)), BodyValue(version, b), ok, BodyText(version, b))
  }

  /** Without the count of masked arguments, which the encoder checks apart. */
  predicate FieldsOk(version: int, b: ResponseBody) {
    match b
    case JobList(jobs) => |jobs| <= 1024 && AllSummaryOk(version, jobs)
    case InspectDone(info) => InspectOk(version, info)
    case _ => BodyOk(version, b)
  }

  lemma LaysNumbers(version: int, b: ResponseBody)
    requires b.SubmitDone? || b.CancelDone? || b.FollowStarted?
    ensures BodyLays(version, b, FieldsOk(version, b))
  {
    match b
    case SubmitDone(job) => LaysU64(job);
    case CancelDone(state) => LaysByte(7, state);
    case FollowStarted(state, out, err) =>
      LaysU8(state);
      LaysU64(out);
      LaysU64(err);
      LaysThree(UInt(1), UInt(8), UInt(8), Num(state), Num(out), Num(err), Is8(state), Is64(out), Is64(err),
                U8(state), U64(out), U64(err));
      LaysTested(Record([UInt(1), UInt(8), UInt(8)]), StateFirst, InvalidValue,
                 Items([Num(state), Num(out), Num(err)]), FieldsOk(version, b), BodyText(version, b));
  }

  lemma LaysGpus(version: int, revision: int, devices: seq<GpuDevice>)
    ensures BodyLays(version, GpuList(revision, devices), FieldsOk(version, GpuList(revision, devices)))
  {
    LaysU64(revision);
    LaysDevices(devices);
    LaysTwo(UInt(8), List(1024, DeviceFormat()), Num(revision), DeviceValues(devices), Is64(revision),
            |devices| <= 1024 && AllDeviceOk(devices), U64(revision), U32(|devices|) + DevicesText(devices));
  }

  lemma LaysTails(version: int, cutOut: bool, out: string, cutErr: bool, err: string)
    ensures BodyLays(version, LogTails(cutOut, out, cutErr, err), |out| <= 524288 && |err| <= 524288)
  {
    LaysFlag(cutOut);
    LaysBlob(out);
    LaysFlag(cutErr);
    LaysBlob(err);
    LaysFour(Flag, Blob, Flag, Blob, Bool(cutOut), Text(out), Bool(cutErr), Text(err), true, |out| <= 524288, true,
             |err| <= 524288, Flagged(cutOut), Sized(out), Flagged(cutErr), Sized(err));
  }

  lemma LaysBoard(version: int, logdir: Option<string>, cwd: string)
    ensures BodyLays(version, TensorboardInfo(logdir, cwd), OptTextOk(logdir) && TextOk(cwd))
  {
    LaysOptText(logdir);
    LaysText(cwd);
    LaysTwo(Opt(Str), Str, OptText(logdir), Text(cwd), OptTextOk(logdir), TextOk(cwd), OptSized(logdir), Sized(cwd));
  }

  lemma LaysLists(version: int, b: ResponseBody)
    requires b.JobList? || b.QueueList? || b.GpuList?
    ensures BodyLays(version, b, FieldsOk(version, b))
  {
    match b
    case JobList(jobs) => LaysSummaries(version, jobs);
    case QueueList(entries) => LaysQueue(version, entries);
    case GpuList(revision, devices) => LaysGpus(version, revision, devices);
  }

  lemma LaysTexted(version: int, b: ResponseBody)
    requires b.LogTails? || b.TensorboardInfo?
    ensures BodyLays(version, b, FieldsOk(version, b))
  {
    match b
    case LogTails(cutOut, out, cutErr, err) => LaysTails(version, cutOut, out, cutErr, err);
    case TensorboardInfo(logdir, cwd) => LaysBoard(version, logdir, cwd);
  }

  lemma LaysInspected(version: int, b: ResponseBody)
    requires b.InspectDone?
    ensures BodyLays(version, b, FieldsOk(version, b))
  {
    LaysInspect(version, b.info);
  }

  lemma LaysBody(version: int, b: ResponseBody)
    ensures BodyLays(version, b, FieldsOk(version, b))
  {
    if b.JobList? || b.QueueList? || b.GpuList? {
      LaysLists(version, b);
    } else if b.LogTails? || b.TensorboardInfo? {
      LaysTexted(version, b);
    } else if b.InspectDone? {
      LaysInspected(version, b);
    } else {
      LaysNumbers(version, b);
    }
  }

  lemma KindNumbered(b: ResponseBody)
    ensures BodyKind(b) == KindNumber(b)
  {
  }

  /** The error, its detail and the body. */
  lemma LaysResponse(m: Response)
    ensures Lays(ResponseCodec.ResponseLayout(m.version, KindNumber(m.body)), ResponseValue(m),
                 Is8(m.error) && TextOk(m.detail) && FieldsOk(m.version, m.body),
                 U8(m.error) + Sized(m.detail) + BodyText(m.version, m.body))
  {
    LaysByte(11, m.error);
    LaysText(m.detail);
    LaysBody(m.version, m.body);
    LaysThree(Byte(11, false), Str, BodyLayout(m.version, KindNumber(m.body)), Num(m.error), Text(m.detail),
              BodyValue(m.version, m.body), Is8(m.error), TextOk(m.detail), FieldsOk(m.version, m.body),
              U8(m.error), Sized(m.detail), BodyText(m.version, m.body));
  }

  /** Every response, for all its values: it is sent exactly if it is within the limits, as these bytes. */
  lemma ResponseLaidOut(m: Response)
    ensures RequestLayout.Sent(EncodeResponse(m), ResponseOk(m), ResponseText(m))
  {
    KindNumbered(m.body);
    if 0 <= m.version <= 255 {
      LaysResponse(m);
      RequestLayout.LaysPayload(
        RESPONSES, ResponseCodec.ResponseLayout(m.version, KindNumber(m.body)),
        Payload(m.version, KindNumber(m.body), ResponseValue(m)),
        Is8(m.error) && TextOk(m.detail) && FieldsOk(m.version, m.body),
        U8(m.error) + Sized(m.detail) + BodyText(m.version, m.body));
    }
  }

  // ---- What is read ----

  predicate SummaryShown(version: int, s: JobSummary) {
    && s.state <= 7 && (s.masked ==> s.argv == [] && s.cwd == "" && s.tensorboardLogdir.None?)
    && (version < 3 ==> s.waitReason == 0 && s.waitDetail.None?)
  }

  predicate ItemShown(version: int, q: QueueItem) {
    q.state <= 7 && (version < 3 ==> q.waitReason == 0 && q.waitDetail.None?)
  }

  predicate DeviceShown(d: GpuDevice) {
    && d.observedState <= 2 && d.logicalState <= 3 && (d.utilization.Some? ==> d.utilization.value <= 100)
    && (d.memoryUsed.Some? <==> d.memoryTotal.Some?)
    && (d.memoryUsed.Some? && d.memoryTotal.Some? ==> d.memoryUsed.value <= d.memoryTotal.value)
  }

  predicate InspectShown(version: int, m: InspectInfo) {
    && m.state <= 7 && |m.placementDevices| < 256
    && (version < 3 ==> m.placementMode == 0 && m.placementDevice.None?)
    && (version < 4 ==> m.placementDevices == [])
  }

  /** What the receiver can be shown: codes it knows, and nothing that its version does not carry. */
  predicate BodyShown(version: int, b: ResponseBody) {
    match b
    case JobList(jobs) => forall i :: 0 <= i < |jobs| ==> SummaryShown(version, jobs[i])
    case QueueList(entries) => forall i :: 0 <= i < |entries| ==> ItemShown(version, entries[i])
    case GpuList(_, devices) => forall i :: 0 <= i < |devices| ==> DeviceShown(devices[i])
    case CancelDone(state) => state <= 7
    case FollowStarted(state, _, _) => state <= 7
    case InspectDone(info) => InspectShown(version, info)
    case _ => true
  }

  lemma ShownMeans(version: int, b: ResponseBody)
    ensures BodyShown(version, b) <==> BodyAccepted(version, b) && BodyLossless(version, b)
  {
    match b
    case JobList(jobs) =>
      assert forall i :: 0 <= i < |jobs| ==>
        (SummaryShown(version, jobs[i]) <==> jobs[i].state <= MAX_JOB_STATE && SummaryLossless(version, jobs[i]));
    case QueueList(entries) =>
      assert forall i :: 0 <= i < |entries| ==>
        (ItemShown(version, entries[i]) <==> entries[i].state <= MAX_JOB_STATE && ItemLossless(version, entries[i]));
    case GpuList(_, devices) =>
      assert forall i :: 0 <= i < |devices| ==>
        (DeviceShown(devices[i]) <==> DeviceAccepted(devices[i]) && DeviceLossless(devices[i]));
    case _ =>
  }

  /** A response that is sent is read as itself exactly if the receiver knows its codes and its version carries
      what it says. */
  lemma ResponseRead(m: Response)
    requires AllBytes(ResponseValue(m)) && ResponseOk(m) && |ResponseText(m)| <= 1048576
    ensures DecodeResponse(ResponseText(m)) == Ok(m) <==> m.error <= 11 && BodyShown(m.version, m.body)
  {
    ResponseLaidOut(m);
    ResponseRoundTrip(m);
    ShownMeans(m.version, m.body);
  }

  /** Nothing else is read: a payload that is accepted is the text of the response it is read as. */
  lemma OnlyResponsesRead(p: string)
    requires Bytes(p) && DecodeResponse(p).Ok?
    ensures var m := DecodeResponse(p).value;
      ResponseOk(m) && p == ResponseText(m) && m.error <= 11 && BodyShown(m.version, m.body)
  {
    var m := DecodeResponse(p).value;
    ResponseCanonical(p);
    ResponseLaidOut(m);
    DecodedTransmissible(p, m);
    ShownMeans(m.version, m.body);
  }

  /** What the size and the two bytes of the header decide. */
  lemma ResponseHeader(p: string)
    ensures |p| > 1048576 ==> DecodeResponse(p) == Err(Oversize)
    ensures |p| < 2 ==> DecodeResponse(p) == Err(Truncated)
    ensures 2 <= |p| <= 1048576 && !(1 <= p[0] as int <= 4) ==> DecodeResponse(p) == Err(BadVersion)
    ensures 2 <= |p| <= 1048576 && 1 <= p[0] as int <= 4 && !(1 <= p[1] as int <= 9) ==>
      DecodeResponse(p) == Err(BadKind)
    ensures 2 <= |p| <= 1048576 && p[0] as int == 1 && p[1] as int == 9 ==> DecodeResponse(p) == Err(BadKind)
  {
  }
}
