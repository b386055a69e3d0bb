/** Requests of the IPC protocol, versions 1 to 4. */
module Requests {
  import opened Basics
  import opened Job
  import opened Wire
  import opened WireLaws
  import opened Payloads
  import opened Messages
  import opened EnvMaps

  datatype SubmitRequest = SubmitRequest(
    argv: seq<string>, cwd: string, env: seq<EnvVar>, gpuRequest: int,
    launchProfile: Option<string>, tensorboardLogdir: Option<string>,
    executable: Option<string>, envMetadata: Option<WireMetadata>,
    gpuSpec: Option<string>, gpuPreferredSpec: Option<string>)

  datatype RequestBody =
    | SubmitJob(submit: SubmitRequest)
    | ListJobs
    | ListQueue
    | ListGpus
    | CancelJob(cancel: int)
    | ReadLogs(logs: int, maxBytes: int)
    | FollowLogs(follow: int, sinceStdout: Option<int>, sinceStderr: Option<int>)
    | Tensorboard(tensorboard: int)
    | Inspect(inspect: int)

  datatype Request = Request(version: int, body: RequestBody)

  const INSPECT_KIND := 9

  // ---- SUBMIT ----

  const PAIR := Record([Str, Str])

  function PairValue(x: EnvVar): Value {
    Items([Text(x.name), Text(x.value)])
  }

  function PairOf(v: Value): EnvVar {
    EnvVar(TextOf(Field(v, 0)), TextOf(Field(v, 1)))
  }

  function PairValues(env: seq<EnvVar>): (v: Value)
    ensures v.Items? && |v.items| == |env| && forall i :: 0 <= i < |env| ==> v.items[i] == PairValue(env[i])
  {
    Items(seq(|env|, i requires 0 <= i < |env| => PairValue(env[i])))
  }

  function PairsOf(v: Value): (env: seq<EnvVar>)
    ensures v.Items? ==> |env| == |v.items| && forall i :: 0 <= i < |env| ==> env[i] == PairOf(v.items[i])
  {
    if v.Items? then seq(|v.items|, i requires 0 <= i < |v.items| => PairOf(v.items[i])) else []
  }

  const COMMAND := Record([List(MAX_ITEMS, Str), Str, List(MAX_ITEMS, PAIR)])
  const OPTIONS := Record([UInt(4), Opt(Str), Opt(Str)])

  function CaptureFormat(): Format {
    Record([Opt(Str), MetadataFormat()])
  }

  /** What later versions append. */
  function ExtrasFormat(version: int): Format {
    Record([When(version >= 2, CaptureFormat()), When(version >= 3, Opt(Str)), When(version >= 4, Opt(Str))])
  }

  function SubmitFormat(version: int): Format {
    Record([COMMAND, OPTIONS, ExtrasFormat(version)])
  }

  function CommandValue(m: SubmitRequest): Value {
    Items([Texts(m.argv), Text(m.cwd), PairValues(m.env)])
  }

  function OptionsValue(m: SubmitRequest): Value {
    Items([Num(m.gpuRequest), OptText(m.launchProfile), OptText(m.tensorboardLogdir)])
  }

  function ExtrasValue(version: int, m: SubmitRequest): Value {
    Items([ValueWhen(version >= 2, Items([OptText(m.executable), MetadataValue(m.envMetadata)])),
           ValueWhen(version >= 3, OptText(m.gpuSpec)),
           ValueWhen(version >= 4, OptText(m.gpuPreferredSpec))])
  }

  function SubmitValue(version: int, m: SubmitRequest): Value {
    Items([CommandValue(m), OptionsValue(m), ExtrasValue(version, m)])
  }

  /** The request with its environment as the list of pairs that was sent. */
  function ListedSubmit(version: int, v: Value): SubmitRequest {
    var command, options, extras := Field(v, 0), Field(v, 1), Field(v, 2);
    SubmitRequest(
      TextsOf(Field(command, 0)), TextOf(Field(command, 1)), PairsOf(Field(command, 2)),
      NumOf(Field(options, 0)), TextOpt(Field(options, 1)), TextOpt(Field(options, 2)),
      if version >= 2 then TextOpt(Field(Field(extras, 0), 0)) else None,
      if version >= 2 then MetadataOf(Field(Field(extras, 0), 1)) else None,
      if version >= 3 then TextOpt(Field(extras, 1)) else None,
      if version >= 4 then TextOpt(Field(extras, 2)) else None)
  }

  /** Fields a version cannot carry; the encoder refuses them. */
  predicate VersionFits(version: int, m: SubmitRequest) {
    && (version >= 2 || (m.executable.None? && m.envMetadata.None?))
    && (version >= 3 || m.gpuSpec.None?)
    && (version >= 4 || m.gpuPreferredSpec.None?)
  }

  // ---- All requests ----

  function RequestKind(b: RequestBody): int {
    match b
    case SubmitJob(_) => 1
    case ListJobs => 2
    case ListQueue => 3
    case ListGpus => 4
    case CancelJob(_) => 5
    case ReadLogs(_, _) => 6
    case FollowLogs(_, _, _) => 7
    case Tensorboard(_) => 8
    case Inspect(_) => INSPECT_KIND
  }

  /** The layout the encoder uses. */
  function BodyLayout(version: int, kind: int): Format {
    if kind == 1 then SubmitFormat(version)
    else if kind <= 4 then Record([])
    else if kind == 6 then Record([UInt(8), UInt(4)])
    else if kind == 7 then Record([UInt(8), Opt(UInt(8)), Opt(UInt(8))])
    else Record([UInt(8)])
  }

  /** The layouts the decoder accepts: INSPECT exists from version 2 on. */
  function RequestFormat(version: int, kind: int): Option<Format> {
    if kind == INSPECT_KIND && version < 2 then None else Some(BodyLayout(version, kind))
  }

  const REQUESTS := Family(1, 4, 1, INSPECT_KIND, RequestFormat)

  function RequestValue(m: Request): Value {
    match m.body
    case SubmitJob(s) => SubmitValue(m.version, s)
    case CancelJob(id) => Items([Num(id)])
    case ReadLogs(id, max) => Items([Num(id), Num(max)])
    case FollowLogs(id, out, err) => Items([Num(id), OptNum(out), OptNum(err)])
    case Tensorboard(id) => Items([Num(id)])
    case Inspect(id) => Items([Num(id)])
    case _ => Items([])
  }

  function Listed(version: int, kind: int, v: Value): Request {
    Request(version,
            if kind == 1 then SubmitJob(ListedSubmit(version, v))
            else if kind == 2 then ListJobs
            else if kind == 3 then ListQueue
            else if kind == 4 then ListGpus
            else if kind == 5 then CancelJob(NumOf(Field(v, 0)))
            else if kind == 6 then ReadLogs(NumOf(Field(v, 0)), NumOf(Field(v, 1)))
            else if kind == 7 then FollowLogs(NumOf(Field(v, 0)), NumOpt(Field(v, 1)), NumOpt(Field(v, 2)))
            else if kind == 8 then Tensorboard(NumOf(Field(v, 0)))
            else Inspect(NumOf(Field(v, 0))))
  }

  /** The environment of a SUBMIT becomes a map: sorted, the first value of a name kept. */
  function Mapped(m: Request): Request {
    if m.body.SubmitJob? then m.(body := SubmitJob(m.body.submit.(env := EmplaceAll([], m.body.submit.env)))) else m
  }

  function EncodeRequest(m: Request): Option<string> {
    if m.body.SubmitJob? && !VersionFits(m.version, m.body.submit) then None
    else
      EncodePayload(REQUESTS, BodyLayout(m.version, RequestKind(m.body)),
                    Payload(m.version, RequestKind(m.body), RequestValue(m)))
  }

  /** The request as listed on the wire, before its environment becomes a map. */
  function DecodeListed(p: string): Result<Request, DecodeError> {
    match DecodePayload(REQUESTS, p)
    case Err(e) => Err(e)
    case Ok(m) => Ok(Listed(m.version, m.kind, m.body))
  }

  function DecodeRequest(p: string): Result<Request, DecodeError> {
    match DecodeListed(p)
    case Err(e) => Err(e)
    case Ok(m) => Ok(Mapped(m))
  }

  // ---- Values and messages correspond ----

  lemma PairBack(v: Value)
    requires Fits(PAIR, v)
    ensures PairValue(PairOf(v)) == v
  {
    assert Fits(PAIR.fields[0], v.items[0]) && Fits(PAIR.fields[1], v.items[1]);
    assert v.items == [v.items[0], v.items[1]];
  }

  lemma PairsBack(v: Value)
    requires Fits(List(MAX_ITEMS, PAIR), v)
    ensures PairValues(PairsOf(v)) == v
  {
    forall i | 0 <= i < |v.items| ensures PairValue(PairOf(v.items[i])) == v.items[i] {
      assert Fits(PAIR, v.items[i]);
      PairBack(v.items[i]);
    }
    assert PairValues(PairsOf(v)).items == v.items;
  }

  lemma PairsThere(env: seq<EnvVar>)
    ensures PairsOf(PairValues(env)) == env
  {
  }

  lemma CommandBack(version: int, v: Value, command: Value)
    requires Fits(COMMAND, command) && command == Field(v, 0)
    ensures CommandValue(ListedSubmit(version, v)) == command
  {
    FitsThree(List(MAX_ITEMS, Str), Str, List(MAX_ITEMS, PAIR), command);
    TextsBack(List(MAX_ITEMS, Str), command.items[0]);
    PairsBack(command.items[2]);
  }

  lemma OptionsBack(version: int, v: Value, options: Value)
    requires Fits(OPTIONS, options) && options == Field(v, 1)
    ensures OptionsValue(ListedSubmit(version, v)) == options
  {
    FitsThree(UInt(4), Opt(Str), Opt(Str), options);
    OptTextBack(options.items[1]);
    OptTextBack(options.items[2]);
  }

  lemma CaptureBack(v: Value)
    requires Fits(CaptureFormat(), v)
    ensures Items([OptText(TextOpt(Field(v, 0))), MetadataValue(MetadataOf(Field(v, 1)))]) == v
  {
    FitsTwo(Opt(Str), MetadataFormat(), v);
    OptTextBack(v.items[0]);
    MetadataBack(v.items[1]);
  }

  lemma OptionalTextBack(present: bool, v: Value)
    requires Fits(When(present, Opt(Str)), v)
    ensures ValueWhen(present, OptText(TextOpt(v))) == v
  {
    if present {
      OptTextBack(v);
    } else {
      WhenAbsent(Opt(Str), v);
    }
  }

  lemma ExtrasBack(version: int, v: Value, extras: Value)
    requires Fits(ExtrasFormat(version), extras) && extras == Field(v, 2)
    ensures ExtrasValue(version, ListedSubmit(version, v)) == extras
  {
    FitsThree(When(version >= 2, CaptureFormat()), When(version >= 3, Opt(Str)), When(version >= 4, Opt(Str)), extras);
    if version >= 2 {
      CaptureBack(extras.items[0]);
    } else {
      WhenAbsent(CaptureFormat(), extras.items[0]);
    }
    OptionalTextBack(version >= 3, extras.items[1]);
    OptionalTextBack(version >= 4, extras.items[2]);
  }

  lemma SubmitBack(version: int, v: Value)
    requires Fits(SubmitFormat(version), v)
    ensures SubmitValue(version, ListedSubmit(version, v)) == v && VersionFits(version, ListedSubmit(version, v))
  {
    FitsThree(COMMAND, OPTIONS, ExtrasFormat(version), v);
    CommandBack(version, v, v.items[0]);
    OptionsBack(version, v, v.items[1]);
    ExtrasBack(version, v, v.items[2]);
  }

  lemma SubmitThere(version: int, m: SubmitRequest)
    requires VersionFits(version, m)
    ensures ListedSubmit(version, SubmitValue(version, m)) == m
  {
    TextsThere(m.argv);
    PairsThere(m.env);
  }

  lemma SmallBack(version: int, kind: int, v: Value)
    requires 2 <= kind <= INSPECT_KIND && Fits(BodyLayout(version, kind), v)
    ensures RequestValue(Listed(version, kind, v)) == v
  {
    if kind == 6 {
      FitsTwo(UInt(8), UInt(4), v);
    } else if kind == 7 {
      FitsThree(UInt(8), Opt(UInt(8)), Opt(UInt(8)), v);
      OptNumBack(8, v.items[1]);
      OptNumBack(8, v.items[2]);
    } else if 5 <= kind {
      FitsOne(UInt(8), v);
    } else {
      assert v.items == [];
    }
  }

  lemma RequestBack(version: int, kind: int, v: Value)
    requires 1 <= kind <= INSPECT_KIND && Fits(BodyLayout(version, kind), v)
    ensures var m := Listed(version, kind, v);
      && RequestKind(m.body) == kind && RequestValue(m) == v
      && (m.body.SubmitJob? ==> VersionFits(version, m.body.submit))
  {
    if kind == 1 {
      SubmitBack(version, v);
    } else {
      SmallBack(version, kind, v);
    }
  }

  lemma RequestThere(m: Request)
    requires m.body.SubmitJob? ==> VersionFits(m.version, m.body.submit)
    ensures Listed(m.version, RequestKind(m.body), RequestValue(m)) == m
  {
    if m.body.SubmitJob? {
      SubmitThere(m.version, m.body.submit);
    }
  }

  // ---- Laws ----

  /** What was listed on the wire encodes to the very bytes that were accepted. */
  lemma ListedCanonical(p: string)
    requires Bytes(p) && DecodeListed(p).Ok?
    ensures EncodeRequest(DecodeListed(p).value) == Some(p)
  {
    PayloadCanonical(REQUESTS, p);
    var m := DecodePayload(REQUESTS, p).value;
    RequestBack(m.version, m.kind, m.body);
  }

  predicate SubmitBytes(m: SubmitRequest) {
    && TextBytes(m.argv) && Bytes(m.cwd)
    && (forall i :: 0 <= i < |m.env| ==> Bytes(m.env[i].name) && Bytes(m.env[i].value))
    && OptBytes(m.launchProfile) && OptBytes(m.tensorboardLogdir) && OptBytes(m.executable)
    && (m.envMetadata.Some? ==> OptBytes(m.envMetadata.value.pythonVersion))
    && OptBytes(m.gpuSpec) && OptBytes(m.gpuPreferredSpec)
  }

  /** Every text of the request is made of bytes, as every C++ string is. */
  predicate RequestBytes(m: Request) {
    m.body.SubmitJob? ==> SubmitBytes(m.body.submit)
  }

  lemma PairsPass(env: seq<EnvVar>)
    requires forall i :: 0 <= i < |env| ==> Bytes(env[i].name) && Bytes(env[i].value)
    ensures AllBytes(PairValues(env)) && Passes(List(MAX_ITEMS, PAIR), PairValues(env))
  {
    forall i | 0 <= i < |env| ensures AllBytes(PairValue(env[i])) && Passes(PAIR, PairValue(env[i])) {
      PassesTwo(Str, Str, Text(env[i].name), Text(env[i].value));
    }
  }

  lemma CommandPasses(m: SubmitRequest)
    requires SubmitBytes(m)
    ensures AllBytes(CommandValue(m)) && Passes(COMMAND, CommandValue(m))
  {
    TextsPass(m.argv);
    PairsPass(m.env);
    PassesThree(List(MAX_ITEMS, Str), Str, List(MAX_ITEMS, PAIR), Texts(m.argv), Text(m.cwd), PairValues(m.env));
  }

  lemma OptionsPass(m: SubmitRequest)
    requires SubmitBytes(m)
    ensures AllBytes(OptionsValue(m)) && Passes(OPTIONS, OptionsValue(m))
  {
    OptTextPasses(m.launchProfile);
    OptTextPasses(m.tensorboardLogdir);
    PassesThree(UInt(4), Opt(Str), Opt(Str), Num(m.gpuRequest), OptText(m.launchProfile), OptText(m.tensorboardLogdir));
  }

  lemma ExtrasPass(version: int, m: SubmitRequest)
    requires SubmitBytes(m)
    ensures AllBytes(ExtrasValue(version, m)) && Passes(ExtrasFormat(version), ExtrasValue(version, m))
  {
    OptTextPasses(m.executable);
    MetadataPasses(m.envMetadata);
    OptTextPasses(m.gpuSpec);
    OptTextPasses(m.gpuPreferredSpec);
    PassesTwo(Opt(Str), MetadataFormat(), OptText(m.executable), MetadataValue(m.envMetadata));
    WhenPasses(version >= 2, CaptureFormat(), Items([OptText(m.executable), MetadataValue(m.envMetadata)]));
    WhenPasses(version >= 3, Opt(Str), OptText(m.gpuSpec));
    WhenPasses(version >= 4, Opt(Str), OptText(m.gpuPreferredSpec));
    var v := ExtrasValue(version, m).items;
    PassesThree(When(version >= 2, CaptureFormat()), When(version >= 3, Opt(Str)), When(version >= 4, Opt(Str)), v[0],
                v[1], v[2]);
  }

  lemma SubmitPasses(version: int, m: SubmitRequest)
    requires SubmitBytes(m)
    ensures AllBytes(SubmitValue(version, m)) && Passes(SubmitFormat(version), SubmitValue(version, m))
  {
    CommandPasses(m);
    OptionsPass(m);
    ExtrasPass(version, m);
    PassesThree(COMMAND, OPTIONS, ExtrasFormat(version), CommandValue(m), OptionsValue(m), ExtrasValue(version, m));
  }

  lemma RequestPasses(m: Request)
    requires RequestBytes(m)
    ensures AllBytes(RequestValue(m)) && Passes(BodyLayout(m.version, RequestKind(m.body)), RequestValue(m))
  {
    match m.body
    case SubmitJob(s) => SubmitPasses(m.version, s);
    case ReadLogs(id, max) => PassesTwo(UInt(8), UInt(4), Num(id), Num(max));
    case FollowLogs(id, out, err) =>
      OptNumPasses(8, out);
      OptNumPasses(8, err);
      PassesThree(UInt(8), Opt(UInt(8)), Opt(UInt(8)), Num(id), OptNum(out), OptNum(err));
    case _ =>
  }

  lemma EncodedRequestFits(m: Request)
    requires RequestBytes(m) && EncodeRequest(m).Some?
    ensures Fits(BodyLayout(m.version, RequestKind(m.body)), RequestValue(m))
  {
    RequestPasses(m);
    EncodedFits(BodyLayout(m.version, RequestKind(m.body)), RequestValue(m));
  }

  /** Every request the encoder accepts is listed back as it was sent, except an INSPECT of version 1,
      which the encoder writes and the decoder refuses. */
  lemma ListedRoundTrip(m: Request)
    requires RequestBytes(m) && EncodeRequest(m).Some?
    ensures DecodeListed(EncodeRequest(m).value) ==
      if m.body.Inspect? && m.version < 2 then Err(BadKind) else Ok(m)
  {
    EncodedRequestFits(m);
    if !(m.body.Inspect? && m.version < 2) {
      var kind := RequestKind(m.body);
      PayloadRoundTrip(REQUESTS, BodyLayout(m.version, kind), Payload(m.version, kind, RequestValue(m)));
      RequestThere(m);
    }
  }

  /** A request round trips exactly unless it is an INSPECT of version 1. */
  lemma RequestRoundTrip(m: Request)
    requires RequestBytes(m) && EncodeRequest(m).Some?
    requires m.body.SubmitJob? ==> SortedEnv(m.body.submit.env)
    ensures DecodeRequest(EncodeRequest(m).value) ==
      if m.body.Inspect? && m.version < 2 then Err(BadKind) else Ok(m)
  {
    ListedRoundTrip(m);
    if m.body.SubmitJob? {
      SortedIffSame(m.body.submit.env);
    }
  }

  /** A request cut short is truncated; a request with more behind it has trailing bytes. */
  lemma RequestDelimited(p: string, k: nat, more: string)
    requires DecodeRequest(p).Ok?
    ensures k < |p| ==> DecodeRequest(p[..k]) == Err(Truncated)
    ensures more != [] && |p| + |more| <= MAX_PAYLOAD_BYTES ==> DecodeRequest(p + more) == Err(TrailingBytes)
  {
    if k < |p| {
      PayloadCut(REQUESTS, p, k);
    }
    if more != [] && |p| + |more| <= MAX_PAYLOAD_BYTES {
      PayloadExtended(REQUESTS, p, more);
    }
  }

  // ---- The environment as a map ----

  /** Eight bytes of lengths and the two texts. */
  lemma PairSize(x: EnvVar)
    requires Fits(PAIR, PairValue(x))
    ensures Encode(PAIR, PairValue(x)).Some? && |Encode(PAIR, PairValue(x)).value| == 8 + |x.name| + |x.value|
  {
    var v := [Text(x.name), Text(x.value)];
    FitsTwo(Str, Str, PairValue(x));
    assert EncodeFields(PAIR, 1, v) == Join(Encode(Str, Text(x.value)), EncodeFields(PAIR, 2, v));
  }

  lemma {:induction false} PairsSize(env: seq<EnvVar>, items: seq<Value>)
    requires items == PairValues(env).items && forall i :: 0 <= i < |env| ==> Fits(PAIR, PairValue(env[i]))
    ensures var e := EncodeItems(List(MAX_ITEMS, PAIR), items); e.Some? && |e.value| == SizeSum(env)
    decreases env
  {
    if env != [] {
      PairSize(env[0]);
      assert items[1..] == PairValues(env[1..]).items;
      PairsSize(env[1..], items[1..]);
    }
  }

  /** Replacing the pairs by their map leaves a value that fits and is no longer. */
  lemma MappedPairs(env: seq<EnvVar>)
    requires Fits(List(MAX_ITEMS, PAIR), PairValues(env))
    ensures var sorted := PairValues(EmplaceAll([], env));
      && Fits(List(MAX_ITEMS, PAIR), sorted)
      && Encode(List(MAX_ITEMS, PAIR), sorted).Some? && Encode(List(MAX_ITEMS, PAIR), PairValues(env)).Some?
      && |Encode(List(MAX_ITEMS, PAIR), sorted).value| <= |Encode(List(MAX_ITEMS, PAIR), PairValues(env)).value|
  {
    var kept := EmplaceAll([], env);
    EmplaceAllSize([], env);
    assert env[..|env|] == env;
    EmplaceAllSpec(env, |env|);
    forall i | 0 <= i < |env| ensures Fits(PAIR, PairValue(env[i])) {
      assert PairValues(env).items[i] == PairValue(env[i]);
    }
    forall i | 0 <= i < |kept| ensures Fits(PAIR, PairValue(kept[i])) {
      assert kept[i] in kept;
      var j :| 0 <= j < |env| && env[j] == kept[i];
    }
    PairsSize(env, PairValues(env).items);
    PairsSize(kept, PairValues(kept).items);
  }

  /** One value instead of another in the first field of a record, or the last. */
  lemma ThreeShorter(a: Format, b: Format, c: Format, x: Value, y: Value, z: Value, newX: Value, newZ: Value)
    requires Fits(Record([a, b, c]), Items([x, y, z])) && Fits(a, newX) && Fits(c, newZ)
    requires Encode(a, x).Some? && Encode(b, y).Some? && Encode(c, z).Some? && Encode(a, newX).Some?
    requires Encode(c, newZ).Some?
    requires |Encode(a, newX).value| <= |Encode(a, x).value| && |Encode(c, newZ).value| <= |Encode(c, z).value|
    ensures Fits(Record([a, b, c]), Items([newX, y, newZ]))
    ensures var before, after := Encode(Record([a, b, c]), Items([x, y, z])),
      Encode(Record([a, b, c]), Items([newX, y, newZ]));
      before.Some? && after.Some? && |after.value| <= |before.value|
  {
    ThreeFit(a, b, c, x, y, z);
    ThreeFit(a, b, c, newX, y, newZ);
    EncodeThree(a, b, c, x, y, z);
    EncodeThree(a, b, c, newX, y, newZ);
  }

  function WithMap(m: SubmitRequest): SubmitRequest {
    m.(env := EmplaceAll([], m.env))
  }

  lemma FittingEncodes(f: Format, v: Value)
    requires Fits(f, v)
    ensures Encode(f, v).Some?
  {
    RoundTrip(f, v, [], 0);
  }

  lemma MappedCommand(m: SubmitRequest)
    requires Fits(COMMAND, CommandValue(m))
    ensures Fits(COMMAND, CommandValue(WithMap(m)))
    ensures var before, after := Encode(COMMAND, CommandValue(m)), Encode(COMMAND, CommandValue(WithMap(m)));
      before.Some? && after.Some? && |after.value| <= |before.value|
  {
    var a, b, c := List(MAX_ITEMS, Str), Str, List(MAX_ITEMS, PAIR);
    ThreeFit(a, b, c, Texts(m.argv), Text(m.cwd), PairValues(m.env));
    MappedPairs(m.env);
    FittingEncodes(a, Texts(m.argv));
    ThreeShorter(a, b, c, Texts(m.argv), Text(m.cwd), PairValues(m.env), Texts(m.argv), PairValues(WithMap(m).env));
  }

  lemma MappedSubmit(version: int, m: SubmitRequest)
    requires Fits(SubmitFormat(version), SubmitValue(version, m))
    ensures Fits(SubmitFormat(version), SubmitValue(version, WithMap(m)))
    ensures var before, after := Encode(SubmitFormat(version), SubmitValue(version, m)),
      Encode(SubmitFormat(version), SubmitValue(version, WithMap(m)));
      before.Some? && after.Some? && |after.value| <= |before.value|
  {
    ThreeFit(COMMAND, OPTIONS, ExtrasFormat(version), CommandValue(m), OptionsValue(m), ExtrasValue(version, m));
    MappedCommand(m);
    FittingEncodes(OPTIONS, OptionsValue(m));
    FittingEncodes(ExtrasFormat(version), ExtrasValue(version, m));
    ThreeShorter(COMMAND, OPTIONS, ExtrasFormat(version), CommandValue(m), OptionsValue(m), ExtrasValue(version, m),
                 CommandValue(WithMap(m)), ExtrasValue(version, m));
  }

  /** The map of an accepted SUBMIT can be encoded again, and is listed back. */
  lemma MappedEncodes(version: int, m: SubmitRequest)
    requires 1 <= version <= 4 && VersionFits(version, m) && Fits(SubmitFormat(version), SubmitValue(version, m))
    requires EncodeRequest(Request(version, SubmitJob(m))).Some?
    ensures var r := Request(version, SubmitJob(WithMap(m)));
      EncodeRequest(r).Some? && DecodeListed(EncodeRequest(r).value) == Ok(r)
  {
    MappedSubmit(version, m);
    var r := Request(version, SubmitJob(WithMap(m)));
    PayloadRoundTrip(REQUESTS, SubmitFormat(version), Payload(version, 1, RequestValue(r)));
    RequestThere(r);
  }

  /** Every accepted request can be encoded again, and gives back the very bytes that were accepted exactly
      when it is not a SUBMIT with environment pairs out of order or repeated; those come back as the sorted
      map with the first value of every name. */
  lemma RequestCanonical(p: string)
    requires Bytes(p) && DecodeRequest(p).Ok?
    ensures var sent := DecodeListed(p).value;
      && EncodeRequest(sent) == Some(p)
      && EncodeRequest(DecodeRequest(p).value).Some?
      && (EncodeRequest(DecodeRequest(p).value) == Some(p) <==>
          (sent.body.SubmitJob? ==> SortedEnv(sent.body.submit.env)))
  {
    ListedCanonical(p);
    var sent := DecodeListed(p).value;
    if sent.body.SubmitJob? {
      PayloadCanonical(REQUESTS, p);
      var m := DecodePayload(REQUESTS, p).value;
      RequestBack(m.version, m.kind, m.body);
      MappedEncodes(sent.version, sent.body.submit);
      SortedIffSame(sent.body.submit.env);
    }
  }

  /** An INSPECT of version 1 is written, and refused by the reader. */
  lemma InspectRefused(id: int)
    requires 0 <= id < Pow256(8)
    ensures var m := Request(1, Inspect(id));
      EncodeRequest(m).Some? && DecodeRequest(EncodeRequest(m).value) == Err(BadKind)
  {
    var m := Request(1, Inspect(id));
    assert EncodeFields(Record([UInt(8)]), 1, [Num(id)]) == Some([]);
    assert Encode(Record([UInt(8)]), Items([Num(id)])) == Join(Some(LittleEndian(id, 8)), Some([]));
    RequestRoundTrip(m);
  }
}
