/** Response records of the IPC protocol, versions 1 to 4. */
module Responses {
  import opened Basics
  import opened Wire
  import opened WireLaws
  import opened Messages

  // ---- Wait reasons, from version 3 on ----

  const MAX_WAIT_REASON := 4

  function WaitFormat(version: int): Format {
    When(version >= 3, Record([Byte(MAX_WAIT_REASON, true), Opt(Str)]))
  }

  function WaitValue(version: int, reason: int, detail: Option<string>): Value {
    ValueWhen(version >= 3, Items([Num(reason), OptText(detail)]))
  }

  lemma WaitBack(version: int, v: Value)
    requires Fits(WaitFormat(version), v)
    ensures version >= 3 ==> WaitValue(version, NumOf(Field(v, 0)), TextOpt(Field(v, 1))) == v
    ensures version < 3 ==> v == Items([])
  {
    if version >= 3 {
      FitsTwo(Byte(MAX_WAIT_REASON, true), Opt(Str), v);
      ByteIsNum(MAX_WAIT_REASON, true, v.items[0]);
      OptTextBack(v.items[1]);
    }
  }

  lemma WaitPasses(version: int, reason: int, detail: Option<string>)
    ensures Passes(WaitFormat(version), WaitValue(version, reason, detail))
  {
    if version >= 3 {
      PassesTwo(Byte(MAX_WAIT_REASON, true), Opt(Str), Num(reason), OptText(detail));
    }
  }

  // ---- PS ----

  datatype JobSummary = JobSummary(
    job: int, state: int, ownerUid: int, revision: int, masked: bool,
    argv: seq<string>, cwd: string, tensorboardLogdir: Option<string>,
    exit: Option<WireExit>, waitReason: int, waitDetail: Option<string>)

  predicate StateSecond(v: Value) {
    UpTo(Field(v, 1), MAX_JOB_STATE)
  }

  /** Job, state, owner and revision; the state is tested once all four have been read. */
  function IdentityFormat(): Format {
    Tested(Record([UInt(8), UInt(1), UInt(4), UInt(8)]), StateSecond, InvalidValue, false)
  }

  const COMMAND_LINE := Record([List(MAX_ITEMS, Str), Str, Opt(Str)])

  function SummaryFormat(version: int): Format {
    Record([IdentityFormat(), Unless(COMMAND_LINE), EXIT_FORMAT, WaitFormat(version)])
  }

  function IdentityValue(job: int, state: int, owner: int, revision: int): Value {
    Items([Num(job), Num(state), Num(owner), Num(revision)])
  }

  function CommandLineValue(argv: seq<string>, cwd: string, logdir: Option<string>): Value {
    Items([Texts(argv), Text(cwd), OptText(logdir)])
  }

  function ShownValue(masked: bool, argv: seq<string>, cwd: string, logdir: Option<string>): Value {
    if masked then Absent else Present(CommandLineValue(argv, cwd, logdir))
  }

  function SummaryValue(version: int, s: JobSummary): Value {
    Items([IdentityValue(s.job, s.state, s.ownerUid, s.revision),
           ShownValue(s.masked, s.argv, s.cwd, s.tensorboardLogdir),
           ExitValue(s.exit),
           WaitValue(version, s.waitReason, s.waitDetail)])
  }

  function SummaryOf(version: int, v: Value): JobSummary {
    var id, shown := Field(v, 0), Field(v, 1);
    JobSummary(
      NumOf(Field(id, 0)), NumOf(Field(id, 1)), NumOf(Field(id, 2)), NumOf(Field(id, 3)), shown.Absent?,
      ArgvOf(shown), CwdOf(shown), LogdirOf(shown), ExitOf(Field(v, 2)),
      if version >= 3 then NumOf(Field(Field(v, 3), 0)) else 0,
      if version >= 3 then TextOpt(Field(Field(v, 3), 1)) else None)
  }

  /** Nothing the frame does not carry: a masked summary has no command, an old version no wait reason. */
  predicate SummaryLossless(version: int, s: JobSummary) {
    && (s.masked ==> s.argv == [] && s.cwd == "" && s.tensorboardLogdir.None?)
    && (version < 3 ==> s.waitReason == 0 && s.waitDetail.None?)
  }

  lemma IdentityBack(v: Value)
    requires Fits(IdentityFormat(), v)
    ensures v == IdentityValue(NumOf(Field(v, 0)), NumOf(Field(v, 1)), NumOf(Field(v, 2)), NumOf(Field(v, 3)))
  {
    FitsFour(UInt(8), UInt(1), UInt(4), UInt(8), v);
  }

  lemma IdentityPasses(job: int, state: int, owner: int, revision: int)
    ensures Passes(IdentityFormat(), IdentityValue(job, state, owner, revision)) <==> state <= MAX_JOB_STATE
  {
    PassesFour(UInt(8), UInt(1), UInt(4), UInt(8), Num(job), Num(state), Num(owner), Num(revision));
  }

  lemma CommandLineBack(v: Value)
    requires Fits(COMMAND_LINE, v)
    ensures v == CommandLineValue(TextsOf(Field(v, 0)), TextOf(Field(v, 1)), TextOpt(Field(v, 2)))
  {
    FitsThree(List(MAX_ITEMS, Str), Str, Opt(Str), v);
    TextsBack(List(MAX_ITEMS, Str), v.items[0]);
    OptTextBack(v.items[2]);
  }

  lemma CommandLinePasses(argv: seq<string>, cwd: string, logdir: Option<string>)
    ensures Passes(COMMAND_LINE, CommandLineValue(argv, cwd, logdir))
  {
    PassesThree(List(MAX_ITEMS, Str), Str, Opt(Str), Texts(argv), Text(cwd), OptText(logdir));
  }

  function ArgvOf(shown: Value): seq<string> {
    if shown.Present? then TextsOf(Field(shown.v, 0)) else []
  }

  function CwdOf(shown: Value): string {
    if shown.Present? then TextOf(Field(shown.v, 1)) else ""
  }

  function LogdirOf(shown: Value): Option<string> {
    if shown.Present? then TextOpt(Field(shown.v, 2)) else None
  }

  lemma ShownBack(shown: Value)
    requires Fits(Unless(COMMAND_LINE), shown)
    ensures ShownValue(shown.Absent?, ArgvOf(shown), CwdOf(shown), LogdirOf(shown)) == shown
  {
    if shown.Present? {
      CommandLineBack(shown.v);
    }
  }

  lemma SummaryBack(version: int, v: Value)
    requires Fits(SummaryFormat(version), v)
    ensures SummaryValue(version, SummaryOf(version, v)) == v && SummaryLossless(version, SummaryOf(version, v))
  {
    FitsFour(IdentityFormat(), Unless(COMMAND_LINE), EXIT_FORMAT, WaitFormat(version), v);
    IdentityBack(v.items[0]);
    ShownBack(v.items[1]);
    ExitBack(v.items[2]);
    WaitBack(version, v.items[3]);
  }

  lemma SummaryThere(version: int, s: JobSummary)
    requires SummaryLossless(version, s)
    ensures SummaryOf(version, SummaryValue(version, s)) == s
  {
    TextsThere(s.argv);
  }

  lemma SummaryPasses(version: int, s: JobSummary)
    ensures Passes(SummaryFormat(version), SummaryValue(version, s)) <==> s.state <= MAX_JOB_STATE
  {
    var v := SummaryValue(version, s).items;
    IdentityPasses(s.job, s.state, s.ownerUid, s.revision);
    CommandLinePasses(s.argv, s.cwd, s.tensorboardLogdir);
    ExitPasses(s.exit);
    WaitPasses(version, s.waitReason, s.waitDetail);
    PassesFour(IdentityFormat(), Unless(COMMAND_LINE), EXIT_FORMAT, WaitFormat(version), v[0], v[1], v[2], v[3]);
  }

  // ---- QUEUE ----

  datatype QueueItem = QueueItem(
    job: int, ownerUid: int, submitTime: int, state: int, waitReason: int, waitDetail: Option<string>)

  predicate StateFourth(v: Value) {
    UpTo(Field(v, 3), MAX_JOB_STATE)
  }

  function WaitingFormat(): Format {
    Tested(Record([UInt(8), UInt(4), UInt(8), UInt(1)]), StateFourth, InvalidValue, false)
  }

  function ItemFormat(version: int): Format {
    Record([WaitingFormat(), WaitFormat(version)])
  }

  function WaitingValue(job: int, owner: int, time: int, state: int): Value {
    Items([Num(job), Num(owner), Num(time), Num(state)])
  }

  function ItemValue(version: int, q: QueueItem): Value {
    Items([WaitingValue(q.job, q.ownerUid, q.submitTime, q.state), WaitValue(version, q.waitReason, q.waitDetail)])
  }

  function ItemOf(version: int, v: Value): QueueItem {
    var head := Field(v, 0);
    QueueItem(NumOf(Field(head, 0)), NumOf(Field(head, 1)), NumOf(Field(head, 2)), NumOf(Field(head, 3)),
              if version >= 3 then NumOf(Field(Field(v, 1), 0)) else 0,
              if version >= 3 then TextOpt(Field(Field(v, 1), 1)) else None)
  }

  predicate ItemLossless(version: int, q: QueueItem) {
    version < 3 ==> q.waitReason == 0 && q.waitDetail.None?
  }

  lemma WaitingBack(v: Value)
    requires Fits(WaitingFormat(), v)
    ensures v == WaitingValue(NumOf(Field(v, 0)), NumOf(Field(v, 1)), NumOf(Field(v, 2)), NumOf(Field(v, 3)))
  {
    FitsFour(UInt(8), UInt(4), UInt(8), UInt(1), v);
  }

  lemma WaitingPasses(job: int, owner: int, time: int, state: int)
    ensures Passes(WaitingFormat(), WaitingValue(job, owner, time, state)) <==> state <= MAX_JOB_STATE
  {
    PassesFour(UInt(8), UInt(4), UInt(8), UInt(1), Num(job), Num(owner), Num(time), Num(state));
  }

  lemma ItemBack(version: int, v: Value)
    requires Fits(ItemFormat(version), v)
    ensures ItemValue(version, ItemOf(version, v)) == v && ItemLossless(version, ItemOf(version, v))
  {
    FitsTwo(WaitingFormat(), WaitFormat(version), v);
    WaitingBack(v.items[0]);
    WaitBack(version, v.items[1]);
  }

  lemma ItemThere(version: int, q: QueueItem)
    requires ItemLossless(version, q)
    ensures ItemOf(version, ItemValue(version, q)) == q
  {
  }

  lemma ItemPasses(version: int, q: QueueItem)
    ensures Passes(ItemFormat(version), ItemValue(version, q)) <==> q.state <= MAX_JOB_STATE
  {
    var v := ItemValue(version, q).items;
    WaitingPasses(q.job, q.ownerUid, q.submitTime, q.state);
    WaitPasses(version, q.waitReason, q.waitDetail);
    PassesTwo(WaitingFormat(), WaitFormat(version), v[0], v[1]);
  }

  // ---- GPU ----

  const MAX_OBSERVED_STATE := 2
  const MAX_LOGICAL_STATE := 3
  const MAX_PERCENT := 100

  datatype GpuDevice = GpuDevice(
    uuid: string, index: int, observedState: int, logicalState: int, utilization: Option<int>,
    memoryUsed: Option<int>, memoryTotal: Option<int>, leasedBy: Option<int>)

  predicate StatesOk(v: Value) {
    UpTo(Field(v, 1), MAX_OBSERVED_STATE) && UpTo(Field(v, 2), MAX_LOGICAL_STATE)
  }

  predicate PercentOk(v: Value) {
    UpTo(v, MAX_PERCENT)
  }

  predicate MemoryOk(v: Value) {
    NumOf(Field(v, 0)) <= NumOf(Field(v, 1))
  }

  function PlaceFormat(): Format {
    Tested(Record([UInt(4), UInt(1), UInt(1)]), StatesOk, InvalidValue, false)
  }

  function PercentFormat(): Format {
    Opt(Tested(UInt(4), PercentOk, InvalidValue, false))
  }

  function MemoryFormat(): Format {
    Opt(Tested(Record([UInt(8), UInt(8)]), MemoryOk, InvalidValue, false))
  }

  function UsageFormat(): Format {
    Record([PercentFormat(), MemoryFormat(), Opt(UInt(8))])
  }

  function DeviceFormat(): Format {
    Record([Str, PlaceFormat(), UsageFormat()])
  }

  /** Used and total memory travel together or not at all. */
  function MemoryValue(used: Option<int>, total: Option<int>): Value {
    if used.Some? && total.Some? then Present(Items([Num(used.value), Num(total.value)])) else Absent
  }

  function PlaceValue(index: int, observed: int, logical: int): Value {
    Items([Num(index), Num(observed), Num(logical)])
  }

  function UsageValue(utilization: Option<int>, used: Option<int>, total: Option<int>, leasedBy: Option<int>): Value {
    Items([OptNum(utilization), MemoryValue(used, total), OptNum(leasedBy)])
  }

  function MemoryUsedOf(v: Value): Option<int> {
    if v.Present? then Some(NumOf(Field(v.v, 0))) else None
  }

  function MemoryTotalOf(v: Value): Option<int> {
    if v.Present? then Some(NumOf(Field(v.v, 1))) else None
  }

  function DeviceValue(d: GpuDevice): Value {
    Items([Text(d.uuid), PlaceValue(d.index, d.observedState, d.logicalState),
           UsageValue(d.utilization, d.memoryUsed, d.memoryTotal, d.leasedBy)])
  }

  function DeviceOf(v: Value): GpuDevice {
    var place, usage := Field(v, 1), Field(v, 2);
    GpuDevice(
      TextOf(Field(v, 0)), NumOf(Field(place, 0)), NumOf(Field(place, 1)), NumOf(Field(place, 2)),
      NumOpt(Field(usage, 0)),
      MemoryUsedOf(Field(usage, 1)), MemoryTotalOf(Field(usage, 1)), NumOpt(Field(usage, 2)))
  }

  predicate DeviceLossless(d: GpuDevice) {
    d.memoryUsed.Some? <==> d.memoryTotal.Some?
  }

  /** What the receiver checks and the sender does not. */
  predicate DeviceAccepted(d: GpuDevice) {
    && d.observedState <= MAX_OBSERVED_STATE && d.logicalState <= MAX_LOGICAL_STATE
    && (d.utilization.Some? ==> d.utilization.value <= MAX_PERCENT)
    && (d.memoryUsed.Some? && d.memoryTotal.Some? ==> d.memoryUsed.value <= d.memoryTotal.value)
  }

  lemma MemoryBack(v: Value)
    requires Fits(MemoryFormat(), v)
    ensures MemoryValue(MemoryUsedOf(v), MemoryTotalOf(v)) == v
  {
    if v.Present? {
      assert Fits(Tested(Record([UInt(8), UInt(8)]), MemoryOk, InvalidValue, false), v.v);
      FitsTwo(UInt(8), UInt(8), v.v);
    }
  }

  lemma PercentBack(v: Value)
    requires Fits(PercentFormat(), v)
    ensures OptNum(NumOpt(v)) == v
  {
    if v.Present? {
      assert Fits(UInt(4), v.v);
    }
  }

  lemma PlaceBack(v: Value)
    requires Fits(PlaceFormat(), v)
    ensures v == PlaceValue(NumOf(Field(v, 0)), NumOf(Field(v, 1)), NumOf(Field(v, 2)))
  {
    FitsThree(UInt(4), UInt(1), UInt(1), v);
  }

  lemma UsageBack(v: Value)
    requires Fits(UsageFormat(), v)
    ensures v == UsageValue(NumOpt(Field(v, 0)), MemoryUsedOf(Field(v, 1)), MemoryTotalOf(Field(v, 1)),
                            NumOpt(Field(v, 2)))
  {
    FitsThree(PercentFormat(), MemoryFormat(), Opt(UInt(8)), v);
    PercentBack(v.items[0]);
    MemoryBack(v.items[1]);
    OptNumBack(8, v.items[2]);
  }

  lemma DeviceBack(v: Value)
    requires Fits(DeviceFormat(), v)
    ensures DeviceValue(DeviceOf(v)) == v && DeviceLossless(DeviceOf(v))
  {
    FitsThree(Str, PlaceFormat(), UsageFormat(), v);
    PlaceBack(v.items[1]);
    UsageBack(v.items[2]);
  }

  lemma DeviceThere(d: GpuDevice)
    requires DeviceLossless(d)
    ensures DeviceOf(DeviceValue(d)) == d
  {
  }

  lemma PercentPasses(utilization: Option<int>)
    ensures Passes(PercentFormat(), OptNum(utilization)) <==> (utilization.Some? ==> utilization.value <= MAX_PERCENT)
  {
    if utilization.Some? {
      assert Passes(Tested(UInt(4), PercentOk, InvalidValue, false), Num(utilization.value)) <==>
        utilization.value <= MAX_PERCENT;
    }
  }

  lemma MemoryPasses(used: Option<int>, total: Option<int>)
    ensures Passes(MemoryFormat(), MemoryValue(used, total)) <==>
      (used.Some? && total.Some? ==> used.value <= total.value)
  {
    if used.Some? && total.Some? {
      var v := Items([Num(used.value), Num(total.value)]);
      PassesTwo(UInt(8), UInt(8), Num(used.value), Num(total.value));
      assert Passes(Tested(Record([UInt(8), UInt(8)]), MemoryOk, InvalidValue, false), v) <==>
        used.value <= total.value;
    }
  }

  lemma UsagePasses(utilization: Option<int>, used: Option<int>, total: Option<int>, leasedBy: Option<int>)
    ensures Passes(UsageFormat(), UsageValue(utilization, used, total, leasedBy)) <==>
      (utilization.Some? ==> utilization.value <= MAX_PERCENT)
        && (used.Some? && total.Some? ==> used.value <= total.value)
  {
    PercentPasses(utilization);
    MemoryPasses(used, total);
    OptNumPasses(8, leasedBy);
    PassesThree(PercentFormat(), MemoryFormat(), Opt(UInt(8)), OptNum(utilization), MemoryValue(used, total),
                OptNum(leasedBy));
  }

  lemma PlacePasses(index: int, observed: int, logical: int)
    ensures Passes(PlaceFormat(), PlaceValue(index, observed, logical)) <==>
      observed <= MAX_OBSERVED_STATE && logical <= MAX_LOGICAL_STATE
  {
    PassesThree(UInt(4), UInt(1), UInt(1), Num(index), Num(observed), Num(logical));
  }

  lemma DevicePasses(d: GpuDevice)
    ensures Passes(DeviceFormat(), DeviceValue(d)) <==> DeviceAccepted(d)
  {
    PlacePasses(d.index, d.observedState, d.logicalState);
    UsagePasses(d.utilization, d.memoryUsed, d.memoryTotal, d.leasedBy);
    var v := DeviceValue(d).items;
    PassesThree(Str, PlaceFormat(), UsageFormat(), v[0], v[1], v[2]);
  }
}
