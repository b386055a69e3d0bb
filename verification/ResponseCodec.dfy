/** Responses of the IPC protocol, versions 1 to 4. */
module ResponseCodec {
  import opened Basics
  import opened Wire
  import opened WireLaws
  import opened Payloads
  import opened Messages
  import opened Responses
  import opened InspectInfos

  datatype ResponseBody =
    | SubmitDone(job: int)
    | JobList(jobs: seq<JobSummary>)
    | QueueList(entries: seq<QueueItem>)
    | GpuList(gpuRevision: int, devices: seq<GpuDevice>)
    | CancelDone(state: int)
    | LogTails(stdoutTruncated: bool, stdoutTail: string, stderrTruncated: bool, stderrTail: string)
    | FollowStarted(jobState: int, stdoutOffset: int, stderrOffset: int)
    | TensorboardInfo(logdir: Option<string>, cwd: string)
    | InspectDone(info: InspectInfo)

  datatype Response = Response(version: int, error: int, detail: string, body: ResponseBody)

  const MAX_ERROR := 11
  const INSPECT_KIND := 9

  // ---- Lists ----

  function SummaryValues(version: int, xs: seq<JobSummary>): (v: Value)
    ensures v.Items? && |v.items| == |xs| && forall i :: 0 <= i < |xs| ==> v.items[i] == SummaryValue(version, xs[i])
  {
    Items(seq(|xs|, i requires 0 <= i < |xs| => SummaryValue(version, xs[i])))
  }

  function SummariesOf(version: int, v: Value): (xs: seq<JobSummary>)
    ensures v.Items? ==> |xs| == |v.items| && forall i :: 0 <= i < |xs| ==> xs[i] == SummaryOf(version, v.items[i])
  {
    if v.Items? then seq(|v.items|, i requires 0 <= i < |v.items| => SummaryOf(version, v.items[i])) else []
  }

  function ItemValues(version: int, xs: seq<QueueItem>): (v: Value)
    ensures v.Items? && |v.items| == |xs| && forall i :: 0 <= i < |xs| ==> v.items[i] == ItemValue(version, xs[i])
  {
    Items(seq(|xs|, i requires 0 <= i < |xs| => ItemValue(version, xs[i])))
  }

  function ItemsOf(version: int, v: Value): (xs: seq<QueueItem>)
    ensures v.Items? ==> |xs| == |v.items| && forall i :: 0 <= i < |xs| ==> xs[i] == ItemOf(version, v.items[i])
  {
    if v.Items? then seq(|v.items|, i requires 0 <= i < |v.items| => ItemOf(version, v.items[i])) else []
  }

  function DeviceValues(xs: seq<GpuDevice>): (v: Value)
    ensures v.Items? && |v.items| == |xs| && forall i :: 0 <= i < |xs| ==> v.items[i] == DeviceValue(xs[i])
  {
    Items(seq(|xs|, i requires 0 <= i < |xs| => DeviceValue(xs[i])))
  }

  function DevicesOf(v: Value): (xs: seq<GpuDevice>)
    ensures v.Items? ==> |xs| == |v.items| && forall i :: 0 <= i < |xs| ==> xs[i] == DeviceOf(v.items[i])
  {
    if v.Items? then seq(|v.items|, i requires 0 <= i < |v.items| => DeviceOf(v.items[i])) else []
  }

  predicate SummariesLossless(version: int, xs: seq<JobSummary>) {
    forall i :: 0 <= i < |xs| ==> SummaryLossless(version, xs[i])
  }

  predicate ItemsLossless(version: int, xs: seq<QueueItem>) {
    forall i :: 0 <= i < |xs| ==> ItemLossless(version, xs[i])
  }

  predicate DevicesLossless(xs: seq<GpuDevice>) {
    forall i :: 0 <= i < |xs| ==> DeviceLossless(xs[i])
  }

  lemma SummariesBack(version: int, v: Value)
    requires Fits(List(MAX_LIST_ITEMS, SummaryFormat(version)), v)
    ensures SummaryValues(version, SummariesOf(version, v)) == v && SummariesLossless(version, SummariesOf(version, v))
  {
    forall i | 0 <= i < |v.items|
      ensures SummaryValue(version, SummaryOf(version, v.items[i])) == v.items[i]
        && SummaryLossless(version, SummaryOf(version, v.items[i]))
    {
      SummaryBack(version, v.items[i]);
    }
    assert SummaryValues(version, SummariesOf(version, v)).items == v.items;
  }

  lemma ItemsBack(version: int, v: Value)
    requires Fits(List(MAX_LIST_ITEMS, ItemFormat(version)), v)
    ensures ItemValues(version, ItemsOf(version, v)) == v && ItemsLossless(version, ItemsOf(version, v))
  {
    forall i | 0 <= i < |v.items|
      ensures ItemValue(version, ItemOf(version, v.items[i])) == v.items[i]
        && ItemLossless(version, ItemOf(version, v.items[i]))
    {
      ItemBack(version, v.items[i]);
    }
    assert ItemValues(version, ItemsOf(version, v)).items == v.items;
  }

  lemma DevicesBack(v: Value)
    requires Fits(List(MAX_LIST_ITEMS, DeviceFormat()), v)
    ensures DeviceValues(DevicesOf(v)) == v && DevicesLossless(DevicesOf(v))
  {
    forall i | 0 <= i < |v.items| ensures DeviceValue(DeviceOf(v.items[i])) == v.items[i]
      && DeviceLossless(DeviceOf(v.items[i])) {
      DeviceBack(v.items[i]);
    }
    assert DeviceValues(DevicesOf(v)).items == v.items;
  }

  lemma SummariesThere(version: int, xs: seq<JobSummary>)
    requires SummariesLossless(version, xs)
    ensures SummariesOf(version, SummaryValues(version, xs)) == xs
  {
    forall i | 0 <= i < |xs| ensures SummaryOf(version, SummaryValue(version, xs[i])) == xs[i] {
      SummaryThere(version, xs[i]);
    }
  }

  lemma ItemsThere(version: int, xs: seq<QueueItem>)
    requires ItemsLossless(version, xs)
    ensures ItemsOf(version, ItemValues(version, xs)) == xs
  {
    forall i | 0 <= i < |xs| ensures ItemOf(version, ItemValue(version, xs[i])) == xs[i] {
      ItemThere(version, xs[i]);
    }
  }

  lemma DevicesThere(xs: seq<GpuDevice>)
    requires DevicesLossless(xs)
    ensures DevicesOf(DeviceValues(xs)) == xs
  {
    forall i | 0 <= i < |xs| ensures DeviceOf(DeviceValue(xs[i])) == xs[i] {
      DeviceThere(xs[i]);
    }
  }

  lemma SummariesPass(version: int, xs: seq<JobSummary>)
    ensures Passes(List(MAX_LIST_ITEMS, SummaryFormat(version)), SummaryValues(version, xs)) <==>
      forall i :: 0 <= i < |xs| ==> xs[i].state <= MAX_JOB_STATE
  {
    forall i | 0 <= i < |xs|
      ensures Passes(SummaryFormat(version), SummaryValues(version, xs).items[i]) <==> xs[i].state <= MAX_JOB_STATE
    {
      SummaryPasses(version, xs[i]);
    }
  }

  lemma ItemsPass(version: int, xs: seq<QueueItem>)
    ensures Passes(List(MAX_LIST_ITEMS, ItemFormat(version)), ItemValues(version, xs)) <==>
      forall i :: 0 <= i < |xs| ==> xs[i].state <= MAX_JOB_STATE
  {
    forall i | 0 <= i < |xs|
      ensures Passes(ItemFormat(version), ItemValues(version, xs).items[i]) <==> xs[i].state <= MAX_JOB_STATE
    {
      ItemPasses(version, xs[i]);
    }
  }

  lemma DevicesPass(xs: seq<GpuDevice>)
    ensures Passes(List(MAX_LIST_ITEMS, DeviceFormat()), DeviceValues(xs)) <==> forall i :: 0 <= i < |xs| ==>
      DeviceAccepted(xs[i])
  {
    forall i | 0 <= i < |xs| ensures Passes(DeviceFormat(), DeviceValues(xs).items[i]) <==> DeviceAccepted(xs[i]) {
      DevicePasses(xs[i]);
    }
  }

  // ---- Bodies ----

  predicate StateFirst(v: Value) {
    UpTo(Field(v, 0), MAX_JOB_STATE)
  }

  function FollowFormat(): Format {
    Tested(Record([UInt(1), UInt(8), UInt(8)]), StateFirst, InvalidValue, false)
  }

  const TAILS := Record([Flag, Blob, Flag, Blob])
  const BOARD := Record([Opt(Str), Str])

  function GpuFormat(): Format {
    Record([UInt(8), List(MAX_LIST_ITEMS, DeviceFormat())])
  }

  function BodyLayout(version: int, kind: int): Format {
    if kind == 1 then UInt(8)
    else if kind == 2 then List(MAX_LIST_ITEMS, SummaryFormat(version))
    else if kind == 3 then List(MAX_LIST_ITEMS, ItemFormat(version))
    else if kind == 4 then GpuFormat()
    else if kind == 5 then Byte(MAX_JOB_STATE, false)
    else if kind == 6 then TAILS
    else if kind == 7 then FollowFormat()
    else if kind == 8 then BOARD
    else InspectFormat(version)
  }

  function BodyKind(b: ResponseBody): int {
    match b
    case SubmitDone(_) => 1
    case JobList(_) => 2
    case QueueList(_) => 3
    case GpuList(_, _) => 4
    case CancelDone(_) => 5
    case LogTails(_, _, _, _) => 6
    case FollowStarted(_, _, _) => 7
    case TensorboardInfo(_, _) => 8
    case InspectDone(_) => INSPECT_KIND
  }

  function BodyValue(version: int, b: ResponseBody): Value {
    match b
    case SubmitDone(job) => Num(job)
    case JobList(jobs) => SummaryValues(version, jobs)
    case QueueList(entries) => ItemValues(version, entries)
    case GpuList(revision, devices) => Items([Num(revision), DeviceValues(devices)])
    case CancelDone(state) => Num(state)
    case LogTails(cutOut, out, cutErr, err) => Items([Bool(cutOut), Text(out), Bool(cutErr), Text(err)])
    case FollowStarted(state, out, err) => Items([Num(state), Num(out), Num(err)])
    case TensorboardInfo(logdir, cwd) => Items([OptText(logdir), Text(cwd)])
    case InspectDone(info) => InspectValue(version, info)
  }

  function BodyOf(version: int, kind: int, v: Value): ResponseBody {
    if kind == 1 then SubmitDone(NumOf(v))
    else if kind == 2 then JobList(SummariesOf(version, v))
    else if kind == 3 then QueueList(ItemsOf(version, v))
    else if kind == 4 then GpuList(NumOf(Field(v, 0)), DevicesOf(Field(v, 1)))
    else if kind == 5 then CancelDone(NumOf(v))
    else if kind == 6 then LogTails(BoolOf(Field(v, 0)), TextOf(Field(v, 1)), BoolOf(Field(v, 2)), TextOf(Field(v, 3)))
    else if kind == 7 then FollowStarted(NumOf(Field(v, 0)), NumOf(Field(v, 1)), NumOf(Field(v, 2)))
    else if kind == 8 then TensorboardInfo(TextOpt(Field(v, 0)), TextOf(Field(v, 1)))
    else InspectDone(InspectOf(version, v))
  }

  /** The body holds nothing its frame does not carry. */
  predicate BodyLossless(version: int, b: ResponseBody) {
    match b
    case JobList(jobs) => SummariesLossless(version, jobs)
    case QueueList(entries) => ItemsLossless(version, entries)
    case GpuList(_, devices) => DevicesLossless(devices)
    case InspectDone(info) => InspectLossless(version, info)
    case _ => true
  }

  /** The body meets the checks that only the receiver makes: states in range, utilisation at most 100,
      used memory within the total, fewer than 256 placement devices. */
  predicate BodyAccepted(version: int, b: ResponseBody) {
    match b
    case JobList(jobs) => forall i :: 0 <= i < |jobs| ==> jobs[i].state <= MAX_JOB_STATE
    case QueueList(entries) => forall i :: 0 <= i < |entries| ==> entries[i].state <= MAX_JOB_STATE
    case GpuList(_, devices) => forall i :: 0 <= i < |devices| ==> DeviceAccepted(devices[i])
    case CancelDone(state) => state <= MAX_JOB_STATE
    case FollowStarted(state, _, _) => state <= MAX_JOB_STATE
    case InspectDone(info) => InspectAccepted(version, info)
    case _ => true
  }

  ghost predicate ComesBack(version: int, kind: int, v: Value) {
    var b := BodyOf(version, kind, v); BodyKind(b) == kind && BodyValue(version, b) == v && BodyLossless(version, b)
  }

  lemma GpuParts(version: int, v: Value, devices: seq<GpuDevice>)
    requires v.Items? && |v.items| == 2 && v.items == [Num(NumOf(v.items[0])), DeviceValues(devices)]
    requires devices == DevicesOf(v.items[1]) && DevicesLossless(devices)
    ensures ComesBack(version, 4, v)
  {
  }

  lemma GpuBack(version: int, v: Value)
    requires Fits(GpuFormat(), v)
    ensures ComesBack(version, 4, v)
  {
    FitsTwo(UInt(8), List(MAX_LIST_ITEMS, DeviceFormat()), v);
    DevicesBack(v.items[1]);
    GpuParts(version, v, DevicesOf(v.items[1]));
  }

  lemma TailsBack(version: int, v: Value)
    requires Fits(TAILS, v)
    ensures ComesBack(version, 6, v)
  {
    FitsFour(Flag, Blob, Flag, Blob, v);
  }

  lemma FollowBack(version: int, v: Value)
    requires Fits(FollowFormat(), v)
    ensures ComesBack(version, 7, v)
  {
    FitsThree(UInt(1), UInt(8), UInt(8), v);
  }

  lemma BoardBack(version: int, v: Value)
    requires Fits(BOARD, v)
    ensures ComesBack(version, 8, v)
  {
    FitsTwo(Opt(Str), Str, v);
    OptTextBack(v.items[0]);
  }

  lemma NumberBack(version: int, kind: int, v: Value)
    requires (kind == 1 && Fits(UInt(8), v)) || (kind == 5 && Fits(Byte(MAX_JOB_STATE, false), v))
    ensures ComesBack(version, kind, v)
  {
    if kind == 5 {
      ByteIsNum(MAX_JOB_STATE, false, v);
    }
  }

  lemma ListsBack(version: int, kind: int, v: Value)
    requires (kind == 2 || kind == 3) && Fits(BodyLayout(version, kind), v)
    ensures ComesBack(version, kind, v)
  {
    if kind == 2 {
      SummariesBack(version, v);
    } else {
      ItemsBack(version, v);
    }
  }

  lemma BodyBack(version: int, kind: int, v: Value)
    requires 1 <= kind <= INSPECT_KIND && Fits(BodyLayout(version, kind), v)
    ensures ComesBack(version, kind, v)
  {
    if kind == 2 || kind == 3 {
      ListsBack(version, kind, v);
    } else if kind == 4 {
      GpuBack(version, v);
    } else if kind == 6 {
      TailsBack(version, v);
    } else if kind == 7 {
      FollowBack(version, v);
    } else if kind == 8 {
      BoardBack(version, v);
    } else if kind == 9 {
      InspectBack(version, v);
    } else {
      NumberBack(version, kind, v);
    }
  }

  ghost predicate GoesThere(version: int, b: ResponseBody) {
    BodyOf(version, BodyKind(b), BodyValue(version, b)) == b
  }

  lemma ListsThere(version: int, b: ResponseBody)
    requires (b.JobList? || b.QueueList? || b.GpuList?) && BodyLossless(version, b)
    ensures GoesThere(version, b)
  {
    match b
    case JobList(jobs) => SummariesThere(version, jobs);
    case QueueList(entries) => ItemsThere(version, entries);
    case GpuList(_, devices) => DevicesThere(devices);
  }

  lemma PlainThere(version: int, b: ResponseBody)
    requires !(b.JobList? || b.QueueList? || b.GpuList? || b.InspectDone?)
    ensures GoesThere(version, b)
  {
  }

  lemma BodyThere(version: int, b: ResponseBody)
    requires BodyLossless(version, b)
    ensures GoesThere(version, b)
  {
    if b.InspectDone? {
      InspectThere(version, b.info);
    } else if b.JobList? || b.QueueList? || b.GpuList? {
      ListsThere(version, b);
    } else {
      PlainThere(version, b);
    }
  }

  ghost predicate PassesExactly(version: int, b: ResponseBody) {
    Passes(BodyLayout(version, BodyKind(b)), BodyValue(version, b)) <==> BodyAccepted(version, b)
  }

  lemma ListsPass(version: int, b: ResponseBody)
    requires b.JobList? || b.QueueList?
    ensures PassesExactly(version, b)
  {
    match b
    case JobList(jobs) => SummariesPass(version, jobs);
    case QueueList(entries) => ItemsPass(version, entries);
  }

  lemma GpuPasses(version: int, revision: int, devices: seq<GpuDevice>)
    ensures PassesExactly(version, GpuList(revision, devices))
  {
    DevicesPass(devices);
    PassesTwo(UInt(8), List(MAX_LIST_ITEMS, DeviceFormat()), Num(revision), DeviceValues(devices));
  }

  lemma TailsPass(version: int, cutOut: bool, out: string, cutErr: bool, err: string)
    ensures PassesExactly(version, LogTails(cutOut, out, cutErr, err))
  {
    PassesFour(Flag, Blob, Flag, Blob, Bool(cutOut), Text(out), Bool(cutErr), Text(err));
  }

  lemma FollowPasses(version: int, state: int, out: int, err: int)
    ensures PassesExactly(version, FollowStarted(state, out, err))
  {
    PassesThree(UInt(1), UInt(8), UInt(8), Num(state), Num(out), Num(err));
  }

  lemma BoardPasses(version: int, logdir: Option<string>, cwd: string)
    ensures PassesExactly(version, TensorboardInfo(logdir, cwd))
  {
    assert Passes(Opt(Str), OptText(logdir)) && Passes(Str, Text(cwd)) by {
      assert logdir.Some? ==> Passes(Str, Text(logdir.value));
    }
    PassesTwo(Opt(Str), Str, OptText(logdir), Text(cwd));
  }

  lemma NumberPasses(version: int, b: ResponseBody)
    requires b.SubmitDone? || b.CancelDone?
    ensures PassesExactly(version, b)
  {
  }

  lemma BodyPasses(version: int, b: ResponseBody)
    ensures PassesExactly(version, b)
  {
    match b
    case JobList(_) => ListsPass(version, b);
    case QueueList(_) => ListsPass(version, b);
    case GpuList(revision, devices) => GpuPasses(version, revision, devices);
    case LogTails(cutOut, out, cutErr, err) => TailsPass(version, cutOut, out, cutErr, err);
    case FollowStarted(state, out, err) => FollowPasses(version, state, out, err);
    case TensorboardInfo(logdir, cwd) => BoardPasses(version, logdir, cwd);
    case InspectDone(info) => InspectPasses(version, info);
    case _ => NumberPasses(version, b);
  }

  // ---- Whole responses ----

  function ResponseLayout(version: int, kind: int): Format {
    Record([Byte(MAX_ERROR, false), Str, BodyLayout(version, kind)])
  }

  function ResponseFormat(version: int, kind: int): Option<Format> {
    if kind == INSPECT_KIND && version < 2 then None else Some(ResponseLayout(version, kind))
  }

  const RESPONSES := Family(1, 4, 1, INSPECT_KIND, ResponseFormat)

  function ResponseValue(m: Response): Value {
    Items([Num(m.error), Text(m.detail), BodyValue(m.version, m.body)])
  }

  function ResponseOf(version: int, kind: int, v: Value): Response {
    Response(version, NumOf(Field(v, 0)), TextOf(Field(v, 1)), BodyOf(version, kind, Field(v, 2)))
  }

  /** A masked summary with too many arguments is refused although they would not be written. */
  predicate ArgumentsFit(b: ResponseBody) {
    b.JobList? ==> forall i :: 0 <= i < |b.jobs| ==> |b.jobs[i].argv| <= MAX_ITEMS
  }

  function EncodeResponse(m: Response): Option<string> {
    if m.body.InspectDone? && m.version < 2 then None
    else if !ArgumentsFit(m.body) then None
    else
      EncodePayload(RESPONSES, ResponseLayout(m.version, BodyKind(m.body)),
                    Payload(m.version, BodyKind(m.body), ResponseValue(m)))
  }

  function DecodeResponse(p: string): Result<Response, DecodeError> {
    match DecodePayload(RESPONSES, p)
    case Err(e) => Err(e)
    case Ok(m) => Ok(ResponseOf(m.version, m.kind, m.body))
  }

  predicate Transmissible(m: Response) {
    m.error <= MAX_ERROR && BodyAccepted(m.version, m.body) && BodyLossless(m.version, m.body)
  }

  lemma ResponseBack(version: int, kind: int, v: Value)
    requires 1 <= kind <= INSPECT_KIND && Fits(ResponseLayout(version, kind), v)
    ensures var m := ResponseOf(version, kind, v);
      BodyKind(m.body) == kind && ResponseValue(m) == v && BodyLossless(version, m.body)
  {
    FitsThree(Byte(MAX_ERROR, false), Str, BodyLayout(version, kind), v);
    ByteIsNum(MAX_ERROR, false, v.items[0]);
    BodyBack(version, kind, v.items[2]);
  }

  lemma ResponsePasses(m: Response)
    ensures Passes(ResponseLayout(m.version, BodyKind(m.body)), ResponseValue(m)) <==>
      m.error <= MAX_ERROR && BodyAccepted(m.version, m.body)
  {
    BodyPasses(m.version, m.body);
    PassesThree(Byte(MAX_ERROR, false), Str, BodyLayout(m.version, BodyKind(m.body)),
                Num(m.error), Text(m.detail), BodyValue(m.version, m.body));
  }

  lemma FittingArguments(version: int, kind: int, v: Value)
    requires 1 <= kind <= INSPECT_KIND && Fits(BodyLayout(version, kind), v)
    ensures ArgumentsFit(BodyOf(version, kind, v))
  {
    if kind == 2 {
      forall i | 0 <= i < |v.items| ensures |SummaryOf(version, v.items[i]).argv| <= MAX_ITEMS {
        assert Fits(SummaryFormat(version), v.items[i]);
        FittingArgv(version, v.items[i]);
      }
    }
  }

  lemma FittingArgv(version: int, v: Value)
    requires Fits(SummaryFormat(version), v)
    ensures |SummaryOf(version, v).argv| <= MAX_ITEMS
  {
    FitsFour(IdentityFormat(), Unless(COMMAND_LINE), EXIT_FORMAT, WaitFormat(version), v);
    if v.items[1].Present? {
      FitsThree(List(MAX_ITEMS, Str), Str, Opt(Str), v.items[1].v);
    }
  }

  /** Every accepted response, of every version, encodes to the very bytes it was decoded from. */
  lemma ResponseCanonical(p: string)
    requires Bytes(p) && DecodeResponse(p).Ok?
    ensures EncodeResponse(DecodeResponse(p).value) == Some(p)
  {
    PayloadCanonical(RESPONSES, p);
    var m := DecodePayload(RESPONSES, p).value;
    ResponseBack(m.version, m.kind, m.body);
    FitsThree(Byte(MAX_ERROR, false), Str, BodyLayout(m.version, m.kind), m.body);
    FittingArguments(m.version, m.kind, m.body.items[2]);
  }

  lemma TransmissibleComesBack(m: Response)
    requires EncodeResponse(m).Some? && AllBytes(ResponseValue(m)) && Transmissible(m)
    ensures DecodeResponse(EncodeResponse(m).value) == Ok(m)
  {
    var kind := BodyKind(m.body);
    var f := ResponseLayout(m.version, kind);
    ResponsePasses(m);
    EncodedFits(f, ResponseValue(m));
    PayloadRoundTrip(RESPONSES, f, Payload(m.version, kind, ResponseValue(m)));
    BodyThere(m.version, m.body);
  }

  lemma EncodedResponseBytes(m: Response)
    requires EncodeResponse(m).Some? && AllBytes(ResponseValue(m))
    ensures Bytes(EncodeResponse(m).value)
  {
    EncodedBytes(ResponseLayout(m.version, BodyKind(m.body)), ResponseValue(m));
  }

  /** A response the encoder accepts comes back exactly when it is transmissible. */
  lemma ResponseRoundTrip(m: Response)
    requires EncodeResponse(m).Some? && AllBytes(ResponseValue(m))
    ensures DecodeResponse(EncodeResponse(m).value) == Ok(m) <==> Transmissible(m)
  {
    EncodedResponseBytes(m);
    var p := EncodeResponse(m).value;
    if Transmissible(m) {
      TransmissibleComesBack(m);
    }
    if DecodeResponse(p) == Ok(m) {
      DecodedTransmissible(p, m);
    }
  }

  lemma DecodedTransmissible(p: string, m: Response)
    requires DecodeResponse(p) == Ok(m) && Bytes(p)
    ensures Transmissible(m)
  {
    PayloadCanonical(RESPONSES, p);
    var d := DecodePayload(RESPONSES, p).value;
    ResponseBack(d.version, d.kind, d.body);
    ResponsePasses(m);
    FittingPasses(ResponseLayout(d.version, d.kind), d.body);
  }

  lemma {:induction false} FittingPasses(f: Format, v: Value)
    requires Fits(f, v)
    ensures Passes(f, v)
  {
    match f
    case Opt(g) =>
      if v.Present? {
        FittingPasses(g, v.v);
      }
    case Unless(g) =>
      if v.Present? {
        FittingPasses(g, v.v);
      }
    case List(_, g) =>
      forall i | 0 <= i < |v.items| ensures Passes(g, v.items[i]) {
        FittingPasses(g, v.items[i]);
      }
    case ShortList(g) =>
      forall i | 0 <= i < |v.items| ensures Passes(g, v.items[i]) {
        FittingPasses(g, v.items[i]);
      }
    case Record(fields) =>
      forall i | 0 <= i < |fields| ensures Passes(fields[i], v.items[i]) {
        FittingPasses(fields[i], v.items[i]);
      }
    case Tested(g, _, _, _) => FittingPasses(g, v);
    case _ =>
  }

  /** A response cut short is truncated; a response with more behind it has trailing bytes. */
  lemma ResponseDelimited(p: string, k: nat, more: string)
    requires DecodeResponse(p).Ok?
    ensures k < |p| ==> DecodeResponse(p[..k]) == Err(Truncated)
    ensures more != [] && |p| + |more| <= MAX_PAYLOAD_BYTES ==> DecodeResponse(p + more) == Err(TrailingBytes)
  {
    if k < |p| {
      PayloadCut(RESPONSES, p, k);
    }
    if more != [] && |p| + |more| <= MAX_PAYLOAD_BYTES {
      PayloadExtended(RESPONSES, p, more);
    }
  }

  /** A state that does not exist is written, and does not come back. */
  lemma StateLost(version: int)
    requires 1 <= version <= 4
    ensures var m := Response(version, 0, "", CancelDone(MAX_JOB_STATE + 1));
      EncodeResponse(m).Some? && DecodeResponse(EncodeResponse(m).value) != Ok(m)
  {
    var m := Response(version, 0, "", CancelDone(MAX_JOB_STATE + 1));
    EncodeThree(Byte(MAX_ERROR, false), Str, Byte(MAX_JOB_STATE, false), Num(0), Text(""), Num(MAX_JOB_STATE + 1));
    assert Pow256(1) == 256;
    ResponseRoundTrip(m);
  }
}
