/** Which error a malformed field is refused with, with every limit written out, and that of a record or list the
    first bad field decides (Reader of ipc_protocol.cpp). */
module WireChecks {
  import opened Basics
  import opened Wire
  import opened Payloads
  import opened Messages
  import opened StreamFrames
  import Requests
  import ResponseCodec
  import Responses
  import InspectInfos

  /** The number in the four bytes at `i`. */
  function NumberAt(p: string, i: nat): nat
    requires i + 4 <= |p|
  {
    p[i] as int + 0x100 * (p[i + 1] as int) + 0x1_0000 * (p[i + 2] as int) + 0x100_0000 * (p[i + 3] as int)
  }

  lemma NumberMeans(p: string, i: nat)
    requires i + 4 <= |p|
    ensures FromLittleEndian(p[i..i + 4]) == NumberAt(p, i)
  {
    var a := p[i..i + 4];
    var b, c, d := a[1..], a[1..][1..], a[1..][1..][1..];
    assert d[1..] == [] && d[0] == p[i + 3] && c[0] == p[i + 2] && b[0] == p[i + 1] && a[0] == p[i];
    assert FromLittleEndian(d) == d[0] as int;
    assert FromLittleEndian(c) == c[0] as int + 256 * FromLittleEndian(d);
    assert FromLittleEndian(b) == b[0] as int + 256 * FromLittleEndian(c);
  }

  // ---- Single fields ----

  /** A sized text: cut short, longer than `cap`, or complete. */
  predicate SizedReads(cap: nat, p: string, i: nat, r: Decoded)
    requires i <= |p|
  {
    if |p| - i < 4 then r == Err(Truncated)
    else if NumberAt(p, i) > cap then r == Err(Oversize)
    else if |p| - i - 4 < NumberAt(p, i) then r == Err(Truncated)
    else r == Ok(Read(Text(p[i + 4..i + 4 + NumberAt(p, i)]), i + 4 + NumberAt(p, i)))
  }

  lemma BlobReads(p: string, i: nat)
    requires i <= |p|
    ensures SizedReads(524288, p, i, Decode(Blob, p, i))
  {
    if |p| - i >= 4 {
      NumberMeans(p, i);
    }
  }

  /** A text is a sized one of at most 64 KiB without a NUL. */
  lemma TextReads(p: string, i: nat)
    requires i <= |p|
    ensures var r := Decode(Str, p, i);
      && (r == Err(BadString) <==>
          && |p| - i >= 4 && NumberAt(p, i) <= 65536 && |p| - i - 4 >= NumberAt(p, i)
          && '\0' in p[i + 4..i + 4 + NumberAt(p, i)])
      && (r != Err(BadString) ==> SizedReads(65536, p, i, r))
  {
    if |p| - i >= 4 {
      NumberMeans(p, i);
    }
  }

  lemma FlagReads(p: string, i: nat)
    requires i <= |p|
    ensures Decode(Flag, p, i) ==
      if i == |p| then Err(Truncated)
      else if p[i] == 0 as char then Ok(Read(Bool(false), i + 1))
      else if p[i] == 1 as char then Ok(Read(Bool(true), i + 1))
      else Err(InvalidValue)
  {
  }

  lemma NumberReads(width: nat, p: string, i: nat)
    requires i <= |p|
    ensures Decode(UInt(width), p, i) == Err(Truncated) <==> |p| - i < width
    ensures Decode(UInt(width), p, i).Err? ==> Decode(UInt(width), p, i) == Err(Truncated)
  {
  }

  /** A list with more than `cap` items is refused for its count, before any item is looked at. */
  lemma ListReads(cap: nat, g: Format, p: string, i: nat)
    requires i <= |p|
    ensures var r := Decode(List(cap, g), p, i);
      && (|p| - i < 4 ==> r == Err(Truncated))
      && (|p| - i >= 4 && NumberAt(p, i) > cap ==> r == Err(TooManyItems))
      && (|p| - i >= 4 && NumberAt(p, i) <= cap ==> r == DecodeItems(List(cap, g), NumberAt(p, i), p, i + 4))
  {
    if |p| - i >= 4 {
      NumberMeans(p, i);
    }
  }

  /** Where the first `k` fields end when they are read one behind the other. */
  function EndOf(fields: seq<Format>, p: string, i: nat, k: nat): (end: Option<nat>)
    requires i <= |p| && k <= |fields|
    ensures end != None ==> end.value <= |p|
  {
    if k == 0 then Some(i)
    else
      var at := EndOf(fields, p, i, k - 1);
      if at == None || Decode(fields[k - 1], p, at.value).Err? then None
      else Some(Decode(fields[k - 1], p, at.value).value.end)
  }

  lemma {:induction false} FieldsRead(f: Format, k: nat, p: string, i: nat, at: nat) returns (n: nat)
    requires f.Record? && k <= |f.fields| && i <= |p| && at <= |p| && EndOf(f.fields, p, i, k) == Some(at)
    requires DecodeFields(f, k, p, at).Err?
    ensures n < |f.fields| && EndOf(f.fields, p, i, n) != None
    ensures Decode(f.fields[n], p, EndOf(f.fields, p, i, n).value) == Err(DecodeFields(f, k, p, at).error)
    decreases |f.fields| - k
  {
    var first := Decode(f.fields[k], p, at);
    if first.Err? {
      n := k;
    } else {
      n := FieldsRead(f, k + 1, p, i, first.value.end);
    }
  }

  /** A record that is refused is refused for its first field that cannot be read where the ones before it end. */
  lemma RecordReads(fields: seq<Format>, p: string, i: nat) returns (n: nat)
    requires i <= |p| && Decode(Record(fields), p, i).Err?
    ensures n < |fields| && EndOf(fields, p, i, n) != None
    ensures Decode(fields[n], p, EndOf(fields, p, i, n).value) == Err(Decode(Record(fields), p, i).error)
  {
    n := FieldsRead(Record(fields), 0, p, i, i);
  }

  // ---- Values out of range ----

  /** Every further check of a format answers that the value is invalid. */
  ghost predicate AllInvalid(f: Format)
    decreases f
  {
    match f
    case Opt(g) => AllInvalid(g)
    case Unless(g) => AllInvalid(g)
    case List(_, g) => AllInvalid(g)
    case ShortList(g) => AllInvalid(g)
    case Record(fields) => forall i :: 0 <= i < |fields| ==> AllInvalid(fields[i])
    case Tested(g, _, error, _) => error == InvalidValue && AllInvalid(g)
    case _ => true
  }

  lemma OneInvalid(a: Format)
    requires AllInvalid(a)
    ensures AllInvalid(Record([a])) && AllInvalid(Opt(a)) && AllInvalid(Unless(a)) && AllInvalid(ShortList(a))
  {
  }

  lemma TwoInvalid(a: Format, b: Format)
    requires AllInvalid(a) && AllInvalid(b)
    ensures AllInvalid(Record([a, b]))
  {
  }

  lemma ThreeInvalid(a: Format, b: Format, c: Format)
    requires AllInvalid(a) && AllInvalid(b) && AllInvalid(c)
    ensures AllInvalid(Record([a, b, c]))
  {
  }

  lemma FourInvalid(a: Format, b: Format, c: Format, d: Format)
    requires AllInvalid(a) && AllInvalid(b) && AllInvalid(c) && AllInvalid(d)
    ensures AllInvalid(Record([a, b, c, d]))
  {
  }

  lemma WhenInvalid(present: bool, f: Format)
    requires AllInvalid(f)
    ensures AllInvalid(When(present, f))
  {
  }

  lemma PlainInvalid()
    ensures AllInvalid(Str) && AllInvalid(Opt(Str)) && AllInvalid(List(256, Str)) && AllInvalid(ShortList(Str))
    ensures AllInvalid(EXIT_FORMAT) && AllInvalid(MetadataFormat())
  {
    TwoInvalid(Flag, I32);
    OneInvalid(Record([Flag, I32]));
    TwoInvalid(Byte(2, true), Opt(Str));
    OneInvalid(Record([Byte(2, true), Opt(Str)]));
  }

  lemma SubmitInvalid(version: int)
    ensures AllInvalid(Requests.SubmitFormat(version))
  {
    PlainInvalid();
    TwoInvalid(Str, Str);
    ThreeInvalid(List(256, Str), Str, List(256, Requests.PAIR));
    ThreeInvalid(UInt(4), Opt(Str), Opt(Str));
    TwoInvalid(Opt(Str), MetadataFormat());
    WhenInvalid(version >= 2, Requests.CaptureFormat());
    WhenInvalid(version >= 3, Opt(Str));
    WhenInvalid(version >= 4, Opt(Str));
    ThreeInvalid(When(version >= 2, Requests.CaptureFormat()), When(version >= 3, Opt(Str)),
                 When(version >= 4, Opt(Str)));
    ThreeInvalid(Requests.COMMAND, Requests.OPTIONS, Requests.ExtrasFormat(version));
  }

  /** In every message a value out of range, a state or a percentage say, is refused as an invalid value. */
  lemma RequestsInvalid(version: int, kind: int)
    ensures AllInvalid(Requests.BodyLayout(version, kind))
  {
    SubmitInvalid(version);
    OneInvalid(UInt(8));
    TwoInvalid(UInt(8), UInt(4));
    ThreeInvalid(UInt(8), Opt(UInt(8)), Opt(UInt(8)));
  }

  lemma IdentityInvalid()
    ensures AllInvalid(Responses.IdentityFormat()) && AllInvalid(Responses.WaitingFormat())
  {
    FourInvalid(UInt(8), UInt(1), UInt(4), UInt(8));
    FourInvalid(UInt(8), UInt(4), UInt(8), UInt(1));
  }

  lemma SummaryInvalid(version: int)
    ensures AllInvalid(Responses.SummaryFormat(version)) && AllInvalid(Responses.ItemFormat(version))
  {
    PlainInvalid();
    IdentityInvalid();
    TwoInvalid(Byte(4, true), Opt(Str));
    WhenInvalid(version >= 3, Record([Byte(4, true), Opt(Str)]));
    ThreeInvalid(List(256, Str), Str, Opt(Str));
    OneInvalid(Responses.COMMAND_LINE);
    FourInvalid(Responses.IdentityFormat(), Unless(Responses.COMMAND_LINE), EXIT_FORMAT, Responses.WaitFormat(version));
    TwoInvalid(Responses.WaitingFormat(), Responses.WaitFormat(version));
  }

  lemma DeviceInvalid()
    ensures AllInvalid(Responses.DeviceFormat())
  {
    ThreeInvalid(UInt(4), UInt(1), UInt(1));
    TwoInvalid(UInt(8), UInt(8));
    ThreeInvalid(Responses.PercentFormat(), Responses.MemoryFormat(), Opt(UInt(8)));
    ThreeInvalid(Str, Responses.PlaceFormat(), Responses.UsageFormat());
  }

  lemma ContextInvalid()
    ensures AllInvalid(InspectInfos.ContextFormat()) && AllInvalid(InspectInfos.AllocationFormat())
    ensures AllInvalid(InspectInfos.PROVENANCE)
  {
    PlainInvalid();
    IdentityInvalid();
    FourInvalid(Responses.IdentityFormat(), Str, Opt(Str), List(256, Str));
    ThreeInvalid(Str, Flag, Str);
    FourInvalid(MetadataFormat(), List(1024, InspectInfos.ENTRY), Opt(Str), Opt(UInt(4)));
    ThreeInvalid(UInt(8), EXIT_FORMAT, Opt(Str));
  }

  lemma PlacementInvalid(version: int)
    ensures AllInvalid(InspectInfos.PlacementFormat(version))
  {
    PlainInvalid();
    TwoInvalid(Byte(2, true), Opt(Str));
    WhenInvalid(version >= 3, InspectInfos.ModeFormat());
    WhenInvalid(version >= 4, ShortList(Str));
    TwoInvalid(When(version >= 3, InspectInfos.ModeFormat()), When(version >= 4, ShortList(Str)));
  }

  lemma InspectInvalid(version: int)
    ensures AllInvalid(InspectInfos.InspectFormat(version))
  {
    ContextInvalid();
    PlacementInvalid(version);
    FourInvalid(InspectInfos.ContextFormat(), InspectInfos.AllocationFormat(), InspectInfos.PROVENANCE,
                InspectInfos.PlacementFormat(version));
  }

  lemma GpusInvalid()
    ensures AllInvalid(ResponseCodec.GpuFormat())
  {
    DeviceInvalid();
    TwoInvalid(UInt(8), List(1024, Responses.DeviceFormat()));
  }

  lemma ShortInvalid()
    ensures AllInvalid(ResponseCodec.TAILS) && AllInvalid(ResponseCodec.BOARD)
    ensures AllInvalid(ResponseCodec.FollowFormat())
  {
    PlainInvalid();
    FourInvalid(Flag, Blob, Flag, Blob);
    TwoInvalid(Opt(Str), Str);
    ThreeInvalid(UInt(1), UInt(8), UInt(8));
  }

  lemma BodiesInvalid(version: int, kind: int)
    ensures AllInvalid(ResponseCodec.BodyLayout(version, kind))
  {
    SummaryInvalid(version);
    GpusInvalid();
    ShortInvalid();
    InspectInvalid(version);
  }

  lemma ResponsesInvalid(version: int, kind: int)
    ensures AllInvalid(ResponseCodec.ResponseLayout(version, kind))
  {
    BodiesInvalid(version, kind);
    ThreeInvalid(Byte(11, false), Str, ResponseCodec.BodyLayout(version, kind));
  }

  /** Only the data of a frame, once it is complete, is refused for its size. */
  lemma FramesInvalid(version: int, kind: int)
    requires 1 <= kind <= 4
    ensures FrameFormat(version, kind) != None
    ensures kind != 1 ==> AllInvalid(FrameFormat(version, kind).value)
    ensures kind == 1 ==>
      FrameFormat(version, kind).value == Record([SpanFormat(), Tested(Blob, DataOk, Oversize, true)])
      && AllInvalid(SpanFormat())
  {
    PlainInvalid();
    ThreeInvalid(UInt(1), UInt(8), UInt(8));
    TwoInvalid(UInt(1), UInt(8));
    TwoInvalid(Byte(7, true), EXIT_FORMAT);
  }

  lemma DataReads(p: string, i: nat)
    requires i <= |p|
    ensures var r := Decode(Tested(Blob, DataOk, Oversize, true), p, i);
      && (|p| - i >= 4 && |p| - i - 4 >= NumberAt(p, i) && 262144 < NumberAt(p, i) <= 524288 ==> r == Err(Oversize))
      && (|p| - i < 4 || |p| - i - 4 < NumberAt(p, i) || NumberAt(p, i) <= 262144 ==> SizedReads(524288, p, i, r))
  {
    BlobReads(p, i);
  }
}
