/** Every stream frame as bytes, written out (ipc_protocol.cpp). */
module FrameLayout {
  import opened Basics
  import opened Wire
  import opened WireLaws
  import opened Payloads
  import opened Messages
  import opened StreamFrames
  import opened WireLayout
  import opened RequestLayout

  /** A stream of a job, 0 or 1, and an interval that is not reversed. */
  predicate IntervalOk(stream: int, begin: int, end: int) {
    0 <= stream <= 1 && Is64(begin) && Is64(end) && begin <= end
  }

  predicate FrameOk(m: StreamFrame) {
    match m
    case LogData(stream, begin, end, data) => IntervalOk(stream, begin, end) && |data| <= 262144
    case LogGap(stream, begin, end) => IntervalOk(stream, begin, end)
    case LogBackpressure(stream, begin) => 0 <= stream <= 1 && Is64(begin)
    case LogEof(state, exit) => 0 <= state <= 7 && ExitOk(exit)
  }

  function FrameWire(m: StreamFrame): string {
    U8(1) +
    match m
    case LogData(stream, begin, end, data) => U8(1) + U8(stream) + U64(begin) + U64(end) + Sized(data)
    case LogGap(stream, begin, end) => U8(2) + U8(stream) + U64(begin) + U64(end)
    case LogBackpressure(stream, begin) => U8(3) + U8(stream) + U64(begin)
    case LogEof(state, exit) => U8(4) + U8(state) + ExitText(exit)
  }

  lemma LaysSpan(stream: int, begin: int, end: int)
    ensures Lays(SpanFormat(), Items([Num(stream), Num(begin), Num(end)]), IntervalOk(stream, begin, end),
                 U8(stream) + U64(begin) + U64(end))
  {
    LaysU8(stream);
    LaysU64(begin);
    LaysU64(end);
    var v, text := Items([Num(stream), Num(begin), Num(end)]), U8(stream) + U64(begin) + U64(end);
    LaysThree(UInt(1), UInt(8), UInt(8), Num(stream), Num(begin), Num(end), Is8(stream), Is64(begin), Is64(end),
              U8(stream), U64(begin), U64(end));
    LaysTested(Record([UInt(1), UInt(8), UInt(8)]), SpanOk, InvalidValue, v, Is8(stream) && Is64(begin) && Is64(end),
               text);
  }

  lemma LaysData(data: string)
    ensures Lays(Tested(Blob, DataOk, Oversize, true), Text(data), |data| <= 262144, Sized(data))
  {
    LaysBlob(data);
    LaysTested(Blob, DataOk, Oversize, Text(data), |data| <= 524288, Sized(data));
  }

  lemma FrameLaid(m: StreamFrame, kind: int, ok: bool, text: string)
    requires kind == FrameKind(m) && 1 <= kind <= 4 && Lays(FrameFormat(1, kind).value, FrameValue(m), ok, text)
    ensures Sent(EncodeFrame(m), ok, U8(1) + U8(kind) + text)
  {
    LaysPayload(STREAMS, FrameFormat(1, kind).value, Payload(1, kind, FrameValue(m)), ok, text);
  }

  lemma Regroup5(a: string, b: string, c: string, d: string, e: string, f: string)
    ensures a + b + (c + d + e + f) == a + (b + c + d + e + f)
    ensures a + b + (c + d + e) == a + (b + c + d + e)
  {
  }

  lemma DataLaidOut(stream: int, begin: int, end: int, data: string)
    ensures var m := LogData(stream, begin, end, data); Sent(EncodeFrame(m), FrameOk(m), FrameWire(m))
  {
    var span, text := Items([Num(stream), Num(begin), Num(end)]), U8(stream) + U64(begin) + U64(end);
    LaysSpan(stream, begin, end);
    LaysData(data);
    LaysTwo(SpanFormat(), Tested(Blob, DataOk, Oversize, true), span, Text(data), IntervalOk(stream, begin, end),
            |data| <= 262144, text, Sized(data));
    FrameLaid(LogData(stream, begin, end, data), 1, IntervalOk(stream, begin, end) && |data| <= 262144,
              text + Sized(data));
    Regroup5(U8(1), U8(1), U8(stream), U64(begin), U64(end), Sized(data));
  }

  lemma GapLaidOut(stream: int, begin: int, end: int)
    ensures var m := LogGap(stream, begin, end); Sent(EncodeFrame(m), FrameOk(m), FrameWire(m))
  {
    var text := U8(stream) + U64(begin) + U64(end);
    LaysSpan(stream, begin, end);
    FrameLaid(LogGap(stream, begin, end), 2, IntervalOk(stream, begin, end), text);
    Regroup5(U8(1), U8(2), U8(stream), U64(begin), U64(end), "");
  }

  lemma PressureLaidOut(stream: int, begin: int)
    ensures var m := LogBackpressure(stream, begin); Sent(EncodeFrame(m), FrameOk(m), FrameWire(m))
  {
    var f, v, text := Record([UInt(1), UInt(8)]), Items([Num(stream), Num(begin)]), U8(stream) + U64(begin);
    LaysU8(stream);
    LaysU64(begin);
    LaysTwo(UInt(1), UInt(8), Num(stream), Num(begin), Is8(stream), Is64(begin), U8(stream), U64(begin));
    LaysTested(f, StreamOk, InvalidValue, v, Is8(stream) && Is64(begin), text);
    FrameLaid(LogBackpressure(stream, begin), 3, Is8(stream) && Is64(begin) && StreamOk(v), text);
    assert U8(1) + U8(3) + text == U8(1) + (U8(3) + U8(stream) + U64(begin));
  }

  lemma EofLaidOut(state: int, exit: Option<WireExit>)
    ensures var m := LogEof(state, exit); Sent(EncodeFrame(m), FrameOk(m), FrameWire(m))
  {
    LaysByte(7, state);
    LaysExit(exit);
    LaysTwo(Byte(7, true), EXIT_FORMAT, Num(state), ExitValue(exit), Is8(state) && state <= 7, ExitOk(exit),
            U8(state), ExitText(exit));
    FrameLaid(LogEof(state, exit), 4, Is8(state) && state <= 7 && ExitOk(exit), U8(state) + ExitText(exit));
    assert U8(1) + U8(4) + (U8(state) + ExitText(exit)) == U8(1) + (U8(4) + U8(state) + ExitText(exit));
  }

  /** Every frame, for all its values: it is sent exactly if it is within the limits, as these bytes. */
  lemma FrameLaidOut(m: StreamFrame)
    ensures Sent(EncodeFrame(m), FrameOk(m), FrameWire(m))
  {
    match m
    case LogData(stream, begin, end, data) => DataLaidOut(stream, begin, end, data);
    case LogGap(stream, begin, end) => GapLaidOut(stream, begin, end);
    case LogBackpressure(stream, begin) => PressureLaidOut(stream, begin);
    case LogEof(state, exit) => EofLaidOut(state, exit);
  }

  /** Every such frame is read from these bytes. */
  lemma FrameRead(m: StreamFrame)
    requires FrameBytes(m) && FrameOk(m) && |FrameWire(m)| <= MEBIBYTE
    ensures DecodeFrame(FrameWire(m)) == Ok(m)
  {
    FrameLaidOut(m);
    FrameRoundTrip(m);
  }

  /** Nothing else is read. */
  lemma OnlyFramesRead(p: string)
    requires Bytes(p) && DecodeFrame(p).Ok?
    ensures FrameOk(DecodeFrame(p).value) && p == FrameWire(DecodeFrame(p).value)
  {
    FrameCanonical(p);
    FrameLaidOut(DecodeFrame(p).value);
  }

  /** What the size and the two bytes of the header decide. */
  lemma FrameHeader(p: string)
    ensures |p| > 1048576 ==> DecodeFrame(p) == Err(Oversize)
    ensures |p| < 2 ==> DecodeFrame(p) == Err(Truncated)
    ensures 2 <= |p| <= 1048576 && p[0] as int != 1 ==> DecodeFrame(p) == Err(BadVersion)
    ensures 2 <= |p| <= 1048576 && p[0] as int == 1 && !(1 <= p[1] as int <= 4) ==> DecodeFrame(p) == Err(BadKind)
  {
  }
}
