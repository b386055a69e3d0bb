/** Every request as bytes, written out: what is sent, and exactly when (ipc_protocol.cpp). */
module RequestLayout {
  import opened Basics
  import opened Job
  import opened Wire
  import opened WireLaws
  import opened Payloads
  import opened Messages
  import opened EnvMaps
  import opened Requests
  import opened WireLayout

  const MEBIBYTE := 1048576

  predicate PairsOk(env: seq<EnvVar>) {
    forall i :: 0 <= i < |env| ==> TextOk(env[i].name) && TextOk(env[i].value)
  }

  function PairsText(env: seq<EnvVar>): string {
    if env == [] then "" else Sized(env[0].name) + Sized(env[0].value) + PairsText(env[1..])
  }

  predicate CommandOk(m: SubmitRequest) {
    |m.argv| <= 256 && AllTextOk(m.argv) && TextOk(m.cwd) && |m.env| <= 256 && PairsOk(m.env)
  }

  function CommandText(m: SubmitRequest): string {
    U32(|m.argv|) + AllSized(m.argv) + Sized(m.cwd) + U32(|m.env|) + PairsText(m.env)
  }

  predicate OptionsOk(m: SubmitRequest) {
    Is32(m.gpuRequest) && OptTextOk(m.launchProfile) && OptTextOk(m.tensorboardLogdir)
  }

  function OptionsText(m: SubmitRequest): string {
    U32(m.gpuRequest) + OptSized(m.launchProfile) + OptSized(m.tensorboardLogdir)
  }

  /** Version 2 added the executable and the environment's origin, 3 a device choice and 4 a preferred one. */
  predicate ExtrasOk(version: int, m: SubmitRequest) {
    && (if version >= 2 then OptTextOk(m.executable) && MetadataOk(m.envMetadata)
        else m.executable == None && m.envMetadata == None)
    && (if version >= 3 then OptTextOk(m.gpuSpec) else m.gpuSpec == None)
    && (if version >= 4 then OptTextOk(m.gpuPreferredSpec) else m.gpuPreferredSpec == None)
  }

  function ExtrasText(version: int, m: SubmitRequest): string {
    (if version >= 2 then OptSized(m.executable) + MetadataText(m.envMetadata) else "")
    + (if version >= 3 then OptSized(m.gpuSpec) else "")
    + (if version >= 4 then OptSized(m.gpuPreferredSpec) else "")
  }

  /** The version is one of four, and every field is within its limit. */
  predicate RequestOk(m: Request) {
    && 1 <= m.version <= 4
    && match m.body
       case SubmitJob(s) => CommandOk(s) && OptionsOk(s) && ExtrasOk(m.version, s)
       case ListJobs => true
       case ListQueue => true
       case ListGpus => true
       case CancelJob(id) => Is64(id)
       case ReadLogs(id, bytes) => Is64(id) && Is32(bytes)
       case FollowLogs(id, out, err) => Is64(id) && Opt64Ok(out) && Opt64Ok(err)
       case Tensorboard(id) => Is64(id)
       case Inspect(id) => Is64(id)
  }

  /** The version, the kind and the fields. */
  function RequestText(m: Request): string {
    U8(m.version) +
    match m.body
    case SubmitJob(s) => U8(1) + CommandText(s) + OptionsText(s) + ExtrasText(m.version, s)
    case ListJobs => U8(2)
    case ListQueue => U8(3)
    case ListGpus => U8(4)
    case CancelJob(id) => U8(5) + U64(id)
    case ReadLogs(id, bytes) => U8(6) + U64(id) + U32(bytes)
    case FollowLogs(id, out, err) => U8(7) + U64(id) + OptU64(out) + OptU64(err)
    case Tensorboard(id) => U8(8) + U64(id)
    case Inspect(id) => U8(9) + U64(id)
  }

  // ---- SUBMIT ----

  lemma LaysPair(x: EnvVar)
    ensures Lays(PAIR, PairValue(x), TextOk(x.name) && TextOk(x.value), Sized(x.name) + Sized(x.value))
  {
    LaysText(x.name);
    LaysText(x.value);
    LaysTwo(Str, Str, Text(x.name), Text(x.value), TextOk(x.name), TextOk(x.value), Sized(x.name), Sized(x.value));
  }

  lemma {:induction false} PairsConcat(env: seq<EnvVar>, texts: seq<string>)
    requires |texts| == |env|
    requires forall i :: 0 <= i < |env| ==> texts[i] == Sized(env[i].name) + Sized(env[i].value)
    ensures Concat(texts) == PairsText(env)
  {
    if env != [] {
      PairsConcat(env[1..], texts[1..]);
    }
  }

  lemma PairsLaid(env: seq<EnvVar>) returns (oks: seq<bool>, texts: seq<string>)
    ensures AllLaid(PAIR, PairValues(env).items, oks, texts) && Concat(texts) == PairsText(env)
    ensures PairsOk(env) <==> AllTrue(oks)
  {
    oks := seq(|env|, i requires 0 <= i < |env| => TextOk(env[i].name) && TextOk(env[i].value));
    texts := seq(|env|, i requires 0 <= i < |env| => Sized(env[i].name) + Sized(env[i].value));
    forall i | 0 <= i < |env| ensures Lays(PAIR, PairValues(env).items[i], oks[i], texts[i]) {
      LaysPair(env[i]);
    }
    PairsConcat(env, texts);
    assert forall i :: 0 <= i < |env| ==> oks[i] == (TextOk(env[i].name) && TextOk(env[i].value));
  }

  lemma LaysPairs(env: seq<EnvVar>)
    ensures Lays(List(256, PAIR), PairValues(env), |env| <= 256 && PairsOk(env), U32(|env|) + PairsText(env))
  {
    var oks, texts := PairsLaid(env);
    LaysList(256, PAIR, PairValues(env).items, oks, texts);
  }

  lemma LaysCommand(m: SubmitRequest)
    ensures Lays(COMMAND, CommandValue(m), CommandOk(m), CommandText(m))
  {
    LaysTexts(m.argv);
    LaysText(m.cwd);
    LaysPairs(m.env);
    var argv, env := U32(|m.argv|) + AllSized(m.argv), U32(|m.env|) + PairsText(m.env);
    LaysThree(List(256, Str), Str, List(256, PAIR), Texts(m.argv), Text(m.cwd), PairValues(m.env),
              |m.argv| <= 256 && AllTextOk(m.argv), TextOk(m.cwd), |m.env| <= 256 && PairsOk(m.env),
              argv, Sized(m.cwd), env);
    assert argv + Sized(m.cwd) + env == CommandText(m);
  }

  lemma LaysOptions(m: SubmitRequest)
    ensures Lays(OPTIONS, OptionsValue(m), OptionsOk(m), OptionsText(m))
  {
    LaysU32(m.gpuRequest);
    LaysOptText(m.launchProfile);
    LaysOptText(m.tensorboardLogdir);
    LaysThree(UInt(4), Opt(Str), Opt(Str), Num(m.gpuRequest), OptText(m.launchProfile), OptText(m.tensorboardLogdir),
              Is32(m.gpuRequest), OptTextOk(m.launchProfile), OptTextOk(m.tensorboardLogdir),
              U32(m.gpuRequest), OptSized(m.launchProfile), OptSized(m.tensorboardLogdir));
  }

  lemma LaysCapture(m: SubmitRequest)
    ensures Lays(CaptureFormat(), Items([OptText(m.executable), MetadataValue(m.envMetadata)]),
                 OptTextOk(m.executable) && MetadataOk(m.envMetadata),
                 OptSized(m.executable) + MetadataText(m.envMetadata))
  {
    LaysOptText(m.executable);
    LaysMetadata(m.envMetadata);
    LaysTwo(Opt(Str), MetadataFormat(), OptText(m.executable), MetadataValue(m.envMetadata), OptTextOk(m.executable),
            MetadataOk(m.envMetadata), OptSized(m.executable), MetadataText(m.envMetadata));
  }

  lemma LaysExtras(version: int, m: SubmitRequest)
    requires VersionFits(version, m)
    ensures Lays(ExtrasFormat(version), ExtrasValue(version, m), ExtrasOk(version, m), ExtrasText(version, m))
  {
    var capture := Items([OptText(m.executable), MetadataValue(m.envMetadata)]);
    var captured := OptTextOk(m.executable) && MetadataOk(m.envMetadata);
    var text := OptSized(m.executable) + MetadataText(m.envMetadata);
    LaysCapture(m);
    LaysOptText(m.gpuSpec);
    LaysOptText(m.gpuPreferredSpec);
    LaysWhen(version >= 2, CaptureFormat(), capture, captured, text);
    LaysWhen(version >= 3, Opt(Str), OptText(m.gpuSpec), OptTextOk(m.gpuSpec), OptSized(m.gpuSpec));
    LaysWhen(version >= 4, Opt(Str), OptText(m.gpuPreferredSpec), OptTextOk(m.gpuPreferredSpec),
             OptSized(m.gpuPreferredSpec));
    LaysThree(When(version >= 2, CaptureFormat()), When(version >= 3, Opt(Str)), When(version >= 4, Opt(Str)),
              ValueWhen(version >= 2, capture), ValueWhen(version >= 3, OptText(m.gpuSpec)),
              ValueWhen(version >= 4, OptText(m.gpuPreferredSpec)),
              version >= 2 ==> captured, version >= 3 ==> OptTextOk(m.gpuSpec),
              version >= 4 ==> OptTextOk(m.gpuPreferredSpec),
              if version >= 2 then text else "", if version >= 3 then OptSized(m.gpuSpec) else "",
              if version >= 4 then OptSized(m.gpuPreferredSpec) else "");
  }

  lemma LaysSubmit(version: int, m: SubmitRequest)
    requires VersionFits(version, m)
    ensures Lays(SubmitFormat(version), SubmitValue(version, m), CommandOk(m) && OptionsOk(m) && ExtrasOk(version, m),
                 CommandText(m) + OptionsText(m) + ExtrasText(version, m))
  {
    LaysCommand(m);
    LaysOptions(m);
    LaysExtras(version, m);
    LaysThree(COMMAND, OPTIONS, ExtrasFormat(version), CommandValue(m), OptionsValue(m), ExtrasValue(version, m),
              CommandOk(m), OptionsOk(m), ExtrasOk(version, m), CommandText(m), OptionsText(m),
              ExtrasText(version, m));
  }

  // ---- The other requests ----

  lemma LaysId(id: int)
    ensures Lays(Record([UInt(8)]), Items([Num(id)]), Is64(id), U64(id))
  {
    LaysU64(id);
    LaysOne(UInt(8), Num(id), Is64(id), U64(id));
  }

  lemma LaysReadLogs(id: int, bytes: int)
    ensures Lays(Record([UInt(8), UInt(4)]), Items([Num(id), Num(bytes)]), Is64(id) && Is32(bytes),
                 U64(id) + U32(bytes))
  {
    LaysU64(id);
    LaysU32(bytes);
    LaysTwo(UInt(8), UInt(4), Num(id), Num(bytes), Is64(id), Is32(bytes), U64(id), U32(bytes));
  }

  lemma LaysFollow(id: int, out: Option<int>, err: Option<int>)
    ensures Lays(Record([UInt(8), Opt(UInt(8)), Opt(UInt(8))]), Items([Num(id), OptNum(out), OptNum(err)]),
                 Is64(id) && Opt64Ok(out) && Opt64Ok(err), U64(id) + OptU64(out) + OptU64(err))
  {
    LaysU64(id);
    LaysOptU64(out);
    LaysOptU64(err);
    LaysThree(UInt(8), Opt(UInt(8)), Opt(UInt(8)), Num(id), OptNum(out), OptNum(err), Is64(id), Opt64Ok(out),
              Opt64Ok(err), U64(id), OptU64(out), OptU64(err));
  }

  // ---- Whole requests ----

  /** A message is sent as `text` if `ok` and if that is at most one mebibyte. */
  predicate Sent(encoded: Option<string>, ok: bool, text: string) {
    encoded == if ok && |text| <= MEBIBYTE then Some(text) else None
  }

  /** A header of version and kind, and a body that is laid out. */
  lemma LaysPayload(family: Family, f: Format, m: Payload, ok: bool, text: string)
    requires Lays(f, m.body, ok, text) && 0 <= m.version <= 255 && 0 <= m.kind <= 255
    ensures Sent(EncodePayload(family, f, m), family.minVersion <= m.version <= family.maxVersion && ok,
                 U8(m.version) + U8(m.kind) + text)
  {
    assert U8(m.version) + U8(m.kind) == [m.version as char, m.kind as char];
  }

  lemma BodyLaid(m: Request, f: Format, kind: int, ok: bool, text: string)
    requires m.body.SubmitJob? ==> VersionFits(m.version, m.body.submit)
    requires f == BodyLayout(m.version, RequestKind(m.body)) && kind == RequestKind(m.body) && 0 <= kind <= 255
    requires Lays(f, RequestValue(m), ok, text)
    ensures Sent(EncodeRequest(m), 1 <= m.version <= 4 && ok, U8(m.version) + U8(kind) + text)
  {
    if 0 <= m.version <= 255 {
      LaysPayload(REQUESTS, f, Payload(m.version, kind, RequestValue(m)), ok, text);
    }
  }

  lemma Regroup(a: string, b: string, c: string)
    ensures a + b + c == a + (b + c)
  {
  }

  lemma SubmitLaidOut(m: Request)
    requires m.body.SubmitJob?
    ensures Sent(EncodeRequest(m), RequestOk(m), RequestText(m))
  {
    var s := m.body.submit;
    if VersionFits(m.version, s) {
      var text := CommandText(s) + OptionsText(s) + ExtrasText(m.version, s);
      LaysSubmit(m.version, s);
      BodyLaid(m, SubmitFormat(m.version), 1, CommandOk(s) && OptionsOk(s) && ExtrasOk(m.version, s), text);
      Regroup(U8(m.version), U8(1), text);
      Regroup(U8(1), CommandText(s) + OptionsText(s), ExtrasText(m.version, s));
      Regroup(U8(1), CommandText(s), OptionsText(s));
    }
  }

  lemma ListLaidOut(m: Request, kind: int)
    requires (m.body == ListJobs && kind == 2) || (m.body == ListQueue && kind == 3)
      || (m.body == ListGpus && kind == 4)
    ensures Sent(EncodeRequest(m), RequestOk(m), RequestText(m))
  {
    LaysNothing();
    BodyLaid(m, Record([]), kind, true, "");
    assert U8(m.version) + U8(kind) + "" == U8(m.version) + U8(kind);
  }

  lemma IdLaidOut(m: Request, kind: int, id: int)
    requires (m.body == CancelJob(id) && kind == 5) || (m.body == Tensorboard(id) && kind == 8)
      || (m.body == Inspect(id) && kind == 9)
    ensures Sent(EncodeRequest(m), RequestOk(m), RequestText(m))
  {
    LaysId(id);
    BodyLaid(m, Record([UInt(8)]), kind, Is64(id), U64(id));
    Regroup(U8(m.version), U8(kind), U64(id));
  }

  lemma ReadLogsLaidOut(m: Request, id: int, bytes: int)
    requires m.body == ReadLogs(id, bytes)
    ensures Sent(EncodeRequest(m), RequestOk(m), RequestText(m))
  {
    LaysReadLogs(id, bytes);
    BodyLaid(m, Record([UInt(8), UInt(4)]), 6, Is64(id) && Is32(bytes), U64(id) + U32(bytes));
    Regroup(U8(m.version), U8(6), U64(id) + U32(bytes));
    Regroup(U8(6), U64(id), U32(bytes));
  }

  lemma FollowLaidOut(m: Request, id: int, out: Option<int>, err: Option<int>)
    requires m.body == FollowLogs(id, out, err)
    ensures Sent(EncodeRequest(m), RequestOk(m), RequestText(m))
  {
    var text := U64(id) + OptU64(out) + OptU64(err);
    LaysFollow(id, out, err);
    BodyLaid(m, Record([UInt(8), Opt(UInt(8)), Opt(UInt(8))]), 7, Is64(id) && Opt64Ok(out) && Opt64Ok(err), text);
    Regroup(U8(m.version), U8(7), text);
    Regroup(U8(7), U64(id) + OptU64(out), OptU64(err));
    Regroup(U8(7), U64(id), OptU64(out));
  }

  /** Every request, for all its values: it is sent exactly if it is within the limits, as these bytes. */
  lemma RequestLaidOut(m: Request)
    ensures Sent(EncodeRequest(m), RequestOk(m), RequestText(m))
  {
    match m.body
    case SubmitJob(_) => SubmitLaidOut(m);
    case ListJobs => ListLaidOut(m, 2);
    case ListQueue => ListLaidOut(m, 3);
    case ListGpus => ListLaidOut(m, 4);
    case CancelJob(id) => IdLaidOut(m, 5, id);
    case ReadLogs(id, bytes) => ReadLogsLaidOut(m, id, bytes);
    case FollowLogs(id, out, err) => FollowLaidOut(m, id, out, err);
    case Tensorboard(id) => IdLaidOut(m, 8, id);
    case Inspect(id) => IdLaidOut(m, 9, id);
  }

  /** Every request within the limits is read from these bytes, except an INSPECT of version 1. */
  lemma RequestRead(m: Request)
    requires RequestBytes(m) && RequestOk(m) && |RequestText(m)| <= MEBIBYTE
    ensures DecodeListed(RequestText(m)) == if m.body.Inspect? && m.version == 1 then Err(BadKind) else Ok(m)
  {
    RequestLaidOut(m);
    ListedRoundTrip(m);
  }

  /** Nothing else is read: a payload that is accepted is the text of the request it is read as. */
  lemma OnlyRequestsRead(p: string)
    requires Bytes(p) && DecodeListed(p).Ok?
    ensures RequestOk(DecodeListed(p).value) && p == RequestText(DecodeListed(p).value)
  {
    ListedCanonical(p);
    RequestLaidOut(DecodeListed(p).value);
  }

  /** What the size and the two bytes of the header decide. */
  lemma RequestHeader(p: string)
    ensures |p| > 1048576 ==> DecodeListed(p) == Err(Oversize)
    ensures |p| < 2 ==> DecodeListed(p) == Err(Truncated)
    ensures 2 <= |p| <= 1048576 && !(1 <= p[0] as int <= 4) ==> DecodeListed(p) == Err(BadVersion)
    ensures 2 <= |p| <= 1048576 && 1 <= p[0] as int <= 4 && !(1 <= p[1] as int <= 9) ==> DecodeListed(p) == Err(BadKind)
    ensures 2 <= |p| <= 1048576 && p[0] as int == 1 && p[1] as int == 9 ==> DecodeListed(p) == Err(BadKind)
  {
  }
}
