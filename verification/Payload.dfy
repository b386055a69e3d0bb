/** Payloads: a version byte, a kind byte and a body, consumed to the last byte (ipc_protocol.cpp). */
module Payloads {
  import opened Basics
  import opened Wire
  import opened WireLaws

  const MAX_PAYLOAD_BYTES := 1048576

  /** The body layouts of one message family: none for a version and kind the decoder refuses. */
  datatype Family = Family(minVersion: int, maxVersion: int, minKind: int, maxKind: int,
                           body: (int, int) -> Option<Format>)

  predicate Speaks(family: Family, version: int) {
    family.minVersion <= version <= family.maxVersion
  }

  function BodyFormat(family: Family, version: int, kind: int): Option<Format> {
    if family.minKind <= kind <= family.maxKind then family.body(version, kind) else None
  }

  datatype Payload = Payload(version: int, kind: int, body: Value)

  function DecodePayload(family: Family, p: string): Result<Payload, DecodeError> {
    if |p| > MAX_PAYLOAD_BYTES then Err(Oversize)
    else if |p| < 2 then Err(Truncated)
    else
      var version, kind := p[0] as int, p[1] as int;
      if !Speaks(family, version) then Err(BadVersion)
      else match BodyFormat(family, version, kind)
        case None => Err(BadKind)
        case Some(f) =>
          match Decode(f, p, 2)
          case Err(e) => Err(e)
          case Ok(read) => if read.end == |p| then Ok(Payload(version, kind, read.v)) else Err(TrailingBytes)
  }

  /** Writes the header and the body in layout `f`; the encoder checks the version but not the kind. */
  function EncodePayload(family: Family, f: Format, m: Payload): Option<string> {
    if !Speaks(family, m.version) || !(0 <= m.version < 256) || !(0 <= m.kind < 256) then None
    else match Encode(f, m.body)
      case None => None
      case Some(body) =>
        if 2 + |body| > MAX_PAYLOAD_BYTES then None else Some([m.version as char, m.kind as char] + body)
  }

  lemma Header(p: string)
    requires Bytes(p) && |p| >= 2
    ensures 0 <= p[0] as int < 256 && 0 <= p[1] as int < 256 && p == [p[0], p[1]] + p[2..]
  {
  }

  /** An accepted payload is exactly what the encoder writes for what was decoded. */
  lemma PayloadCanonical(family: Family, p: string)
    requires Bytes(p) && DecodePayload(family, p).Ok?
    ensures var m := DecodePayload(family, p).value;
      && BodyFormat(family, m.version, m.kind).Some? && Fits(BodyFormat(family, m.version, m.kind).value, m.body)
      && EncodePayload(family, BodyFormat(family, m.version, m.kind).value, m) == Some(p)
  {
    var m := DecodePayload(family, p).value;
    Header(p);
    Canonical(BodyFormat(family, m.version, m.kind).value, p, 2);
    assert p[2..|p|] == p[2..];
  }

  /** What was encoded from a body that fits is decoded again. */
  lemma PayloadRoundTrip(family: Family, f: Format, m: Payload)
    requires BodyFormat(family, m.version, m.kind) == Some(f) && Fits(f, m.body)
    requires EncodePayload(family, f, m).Some?
    ensures DecodePayload(family, EncodePayload(family, f, m).value) == Ok(m)
  {
    var p := EncodePayload(family, f, m).value;
    RoundTrip(f, m.body, p, 2);
    var body := Encode(f, m.body).value;
    assert p[2..2 + |body|] == body;
  }

  /** Cutting an accepted payload anywhere makes it truncated. */
  lemma PayloadCut(family: Family, p: string, k: nat)
    requires DecodePayload(family, p).Ok? && k < |p|
    ensures DecodePayload(family, p[..k]) == Err(Truncated)
  {
    if k >= 2 {
      Cut(BodyFormat(family, p[0] as int, p[1] as int).value, p, 2, k);
    }
  }

  /** Appending anything to an accepted payload leaves trailing bytes. */
  lemma PayloadExtended(family: Family, p: string, more: string)
    requires DecodePayload(family, p).Ok? && more != [] && |p| + |more| <= MAX_PAYLOAD_BYTES
    ensures DecodePayload(family, p + more) == Err(TrailingBytes)
  {
    assert (p + more)[..|p|] == p[..|p|];
    Local(BodyFormat(family, p[0] as int, p[1] as int).value, p, p + more, 2);
  }
}
