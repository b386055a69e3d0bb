/** The stream frames of a followed log: DATA, GAP, BACKPRESSURE and EOF. */
module StreamFrames {
  import opened Basics
  import opened Wire
  import opened WireLaws
  import opened Payloads
  import opened Messages

  const STREAM_VERSION := 1
  const MAX_STREAM_DATA_BYTES := 262144
  const MAX_STREAM := 1

  datatype StreamFrame =
    | LogData(stream: int, begin: int, end: int, data: string)
    | LogGap(stream: int, begin: int, end: int)
    | LogBackpressure(stream: int, begin: int)
    | LogEof(state: int, exit: Option<WireExit>)

  /** Stream, begin and end: a known stream and an interval that is not reversed. */
  predicate SpanOk(v: Value) {
    NumOf(Field(v, 0)) <= MAX_STREAM && NumOf(Field(v, 1)) <= NumOf(Field(v, 2))
  }

  function SpanFormat(): Format {
    Tested(Record([UInt(1), UInt(8), UInt(8)]), SpanOk, InvalidValue, true)
  }

  predicate DataOk(v: Value) {
    |TextOf(v)| <= MAX_STREAM_DATA_BYTES
  }

  predicate StreamOk(v: Value) {
    NumOf(Field(v, 0)) <= MAX_STREAM
  }

  function FrameFormat(version: int, kind: int): Option<Format> {
    if kind == 1 then Some(Record([SpanFormat(), Tested(Blob, DataOk, Oversize, true)]))
    else if kind == 2 then Some(SpanFormat())
    else if kind == 3 then Some(Tested(Record([UInt(1), UInt(8)]), StreamOk, InvalidValue, true))
    else if kind == 4 then Some(Record([Byte(MAX_JOB_STATE, true), EXIT_FORMAT]))
    else None
  }

  const STREAMS := Family(STREAM_VERSION, STREAM_VERSION, 1, 4, FrameFormat)

  function FrameKind(m: StreamFrame): int {
    match m
    case LogData(_, _, _, _) => 1
    case LogGap(_, _, _) => 2
    case LogBackpressure(_, _) => 3
    case LogEof(_, _) => 4
  }

  function FrameValue(m: StreamFrame): Value {
    match m
    case LogData(stream, begin, end, data) => Items([Items([Num(stream), Num(begin), Num(end)]), Text(data)])
    case LogGap(stream, begin, end) => Items([Num(stream), Num(begin), Num(end)])
    case LogBackpressure(stream, begin) => Items([Num(stream), Num(begin)])
    case LogEof(state, exit) => Items([Num(state), ExitValue(exit)])
  }

  function FrameOf(kind: int, v: Value): StreamFrame {
    if kind == 1 then
      var span := Field(v, 0);
      LogData(NumOf(Field(span, 0)), NumOf(Field(span, 1)), NumOf(Field(span, 2)), TextOf(Field(v, 1)))
    else if kind == 2 then LogGap(NumOf(Field(v, 0)), NumOf(Field(v, 1)), NumOf(Field(v, 2)))
    else if kind == 3 then LogBackpressure(NumOf(Field(v, 0)), NumOf(Field(v, 1)))
    else LogEof(NumOf(Field(v, 0)), ExitOf(Field(v, 1)))
  }

  function EncodeFrame(m: StreamFrame): Option<string> {
    EncodePayload(STREAMS, FrameFormat(STREAM_VERSION, FrameKind(m)).value,
                  Payload(STREAM_VERSION, FrameKind(m), FrameValue(m)))
  }

  function DecodeFrame(p: string): Result<StreamFrame, DecodeError> {
    match DecodePayload(STREAMS, p)
    case Err(e) => Err(e)
    case Ok(m) => Ok(FrameOf(m.kind, m.body))
  }

  lemma SpanBack(v: Value)
    requires Fits(SpanFormat(), v)
    ensures v == Items([Num(NumOf(Field(v, 0))), Num(NumOf(Field(v, 1))), Num(NumOf(Field(v, 2)))])
  {
    FitsThree(UInt(1), UInt(8), UInt(8), v);
  }

  lemma DataBack(v: Value)
    requires Fits(FrameFormat(1, 1).value, v)
    ensures FrameValue(FrameOf(1, v)) == v
  {
    FitsTwo(SpanFormat(), Tested(Blob, DataOk, Oversize, true), v);
    SpanBack(v.items[0]);
    assert Fits(Blob, v.items[1]);
  }

  lemma PressureBack(v: Value)
    requires Fits(FrameFormat(1, 3).value, v)
    ensures FrameValue(FrameOf(3, v)) == v
  {
    FitsTwo(UInt(1), UInt(8), v);
  }

  lemma EofBack(v: Value)
    requires Fits(FrameFormat(1, 4).value, v)
    ensures FrameValue(FrameOf(4, v)) == v
  {
    FitsTwo(Byte(MAX_JOB_STATE, true), EXIT_FORMAT, v);
    ByteIsNum(MAX_JOB_STATE, true, v.items[0]);
    ExitBack(v.items[1]);
  }

  lemma FrameBack(kind: int, v: Value)
    requires 1 <= kind <= 4 && Fits(FrameFormat(1, kind).value, v)
    ensures FrameKind(FrameOf(kind, v)) == kind && FrameValue(FrameOf(kind, v)) == v
  {
    if kind == 1 {
      DataBack(v);
    } else if kind == 2 {
      SpanBack(v);
    } else if kind == 3 {
      PressureBack(v);
    } else {
      EofBack(v);
    }
  }

  /** Every accepted frame encodes to the very bytes it was decoded from. */
  lemma FrameCanonical(p: string)
    requires Bytes(p) && DecodeFrame(p).Ok?
    ensures EncodeFrame(DecodeFrame(p).value) == Some(p)
  {
    PayloadCanonical(STREAMS, p);
    var m := DecodePayload(STREAMS, p).value;
    FrameBack(m.kind, m.body);
  }

  predicate FrameBytes(m: StreamFrame) {
    m.LogData? ==> Bytes(m.data)
  }

  lemma FramePasses(m: StreamFrame)
    requires FrameBytes(m)
    ensures AllBytes(FrameValue(m)) && Passes(FrameFormat(STREAM_VERSION, FrameKind(m)).value, FrameValue(m))
  {
    match m
    case LogData(stream, begin, end, data) => DataPasses(stream, begin, end, data);
    case LogGap(stream, begin, end) => SpanPasses(stream, begin, end);
    case LogBackpressure(stream, begin) => PassesTwo(UInt(1), UInt(8), Num(stream), Num(begin));
    case LogEof(state, exit) =>
      ExitPasses(exit);
      PassesTwo(Byte(MAX_JOB_STATE, true), EXIT_FORMAT, Num(state), ExitValue(exit));
  }

  lemma DataPasses(stream: int, begin: int, end: int, data: string)
    requires Bytes(data)
    ensures var v := FrameValue(LogData(stream, begin, end, data)); AllBytes(v) && Passes(FrameFormat(1, 1).value, v)
  {
    SpanPasses(stream, begin, end);
    PassesTwo(SpanFormat(), Tested(Blob, DataOk, Oversize, true), Items([Num(stream), Num(begin), Num(end)]),
              Text(data));
  }

  lemma SpanPasses(stream: int, begin: int, end: int)
    ensures var v := Items([Num(stream), Num(begin), Num(end)]); AllBytes(v) && Passes(SpanFormat(), v)
  {
    PassesThree(UInt(1), UInt(8), UInt(8), Num(stream), Num(begin), Num(end));
  }

  /** Every frame the encoder accepts is decoded again. */
  lemma FrameRoundTrip(m: StreamFrame)
    requires FrameBytes(m) && EncodeFrame(m).Some?
    ensures DecodeFrame(EncodeFrame(m).value) == Ok(m)
  {
    FramePasses(m);
    var f := FrameFormat(STREAM_VERSION, FrameKind(m)).value;
    EncodedFits(f, FrameValue(m));
    PayloadRoundTrip(STREAMS, f, Payload(STREAM_VERSION, FrameKind(m), FrameValue(m)));
  }

  /** A frame cut short is truncated; a frame with more behind it has trailing bytes. */
  lemma FrameDelimited(p: string, k: nat, more: string)
    requires DecodeFrame(p).Ok?
    ensures k < |p| ==> DecodeFrame(p[..k]) == Err(Truncated)
    ensures more != [] && |p| + |more| <= MAX_PAYLOAD_BYTES ==> DecodeFrame(p + more) == Err(TrailingBytes)
  {
    if k < |p| {
      PayloadCut(STREAMS, p, k);
    }
    if more != [] && |p| + |more| <= MAX_PAYLOAD_BYTES {
      PayloadExtended(STREAMS, p, more);
    }
  }
}
