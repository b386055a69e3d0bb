/** Binary field formats of the IPC protocol: what the encoder writes, what the decoder reads, and the
    laws that hold between them for every format (Writer and Reader of ipc_protocol.cpp). */
module Wire {
  import opened Basics

  // ---- Bytes ----

  /** A payload is a string of bytes. */
  predicate Bytes(p: string) {
    forall i :: 0 <= i < |p| ==> p[i] < '\U{100}'
  }

  function Pow256(k: nat): nat {
    if k == 0 then 1 else 256 * Pow256(k - 1)
  }

  /** `k` bytes of `n`, least significant first. */
  function LittleEndian(n: nat, k: nat): (s: string)
    ensures |s| == k && Bytes(s)
  {
    if k == 0 then [] else [(n % 256) as char] + LittleEndian(n / 256, k - 1)
  }

  function FromLittleEndian(s: string): nat {
    if s == [] then 0 else s[0] as int + 256 * FromLittleEndian(s[1..])
  }

  lemma {:induction false} NumberRoundTrip(n: nat, k: nat)
    requires n < Pow256(k)
    ensures FromLittleEndian(LittleEndian(n, k)) == n
  {
    if k > 0 {
      NumberRoundTrip(n / 256, k - 1);
      assert LittleEndian(n, k)[1..] == LittleEndian(n / 256, k - 1);
    }
  }

  lemma LowByte(b: int, m: nat)
    requires 0 <= b < 256
    ensures (b + 256 * m) % 256 == b && (b + 256 * m) / 256 == m
  {
  }

  lemma LowestFirst(b: char, m: nat, k: nat)
    requires b < '\U{100}'
    ensures LittleEndian(b as int + 256 * m, k + 1) == [b] + LittleEndian(m, k)
  {
    LowByte(b as int, m);
  }

  lemma {:induction false} BytesRoundTrip(s: string)
    requires Bytes(s)
    ensures FromLittleEndian(s) < Pow256(|s|)
    ensures LittleEndian(FromLittleEndian(s), |s|) == s
  {
    if s != [] {
      var m := FromLittleEndian(s[1..]);
      BytesRoundTrip(s[1..]);
      LowestFirst(s[0], m, |s| - 1);
      assert s == [s[0]] + s[1..];
    }
  }

  /** One more byte, most significant, at the end. */
  lemma {:induction false} NextByte(s: string, b: char)
    ensures FromLittleEndian(s + [b]) == FromLittleEndian(s) + Pow256(|s|) * b as int
  {
    if s == [] {
      assert [b][1..] == [] && s + [b] == [b];
    } else {
      NextByte(s[1..], b);
      assert (s + [b])[1..] == s[1..] + [b];
      assert 256 * (Pow256(|s| - 1) * b as int) == Pow256(|s|) * b as int;
    }
  }

  // ---- Formats and values ----

  datatype DecodeError =
    | Truncated | Oversize | BadVersion | BadKind | BadString | TooManyItems | TrailingBytes | InvalidValue

  const MAX_STRING_BYTES := 65536
  const MAX_BLOB_BYTES := 524288

  datatype Value =
    | Num(n: int) | Text(text: string) | Bool(b: bool) | Absent | Present(v: Value) | Items(items: seq<Value>)

  /** How a field is laid out. `Opt` is a flag and, if it is set, the field; `Unless` is a flag and, if it
      is not set, the field. `Tested` is a test that the decoder applies to what it has read; `sender`
      tells whether the encoder applies it too. The count of a `ShortList` is one byte, into which the
      encoder also puts the count 256. */
  datatype Format =
    | UInt(width: nat)
    | I32 | Str | Blob | Flag
    | Opt(some: Format)
    | Unless(shown: Format)
    | List(cap: nat, item: Format)
    | ShortList(item: Format)
    | Record(fields: seq<Format>)
    | Tested(of: Format, test: Value -> bool, error: DecodeError, sender: bool)

  const I32_LIMIT := 0x8000_0000
  const U32_LIMIT := 0x1_0000_0000

  /** The values the decoder can produce for a format. */
  predicate Fits(f: Format, v: Value) {
    match f
    case UInt(width) => v.Num? && 0 <= v.n < Pow256(width)
    case I32 => v.Num? && -I32_LIMIT <= v.n < I32_LIMIT
    case Str => v.Text? && |v.text| <= MAX_STRING_BYTES && NulFree(v.text) && Bytes(v.text)
    case Blob => v.Text? && |v.text| <= MAX_BLOB_BYTES && Bytes(v.text)
    case Flag => v.Bool?
    case Opt(g) => v.Absent? || (v.Present? && Fits(g, v.v))
    case Unless(g) => v.Absent? || (v.Present? && Fits(g, v.v))
    case List(cap, g) => v.Items? && |v.items| <= cap && |v.items| < U32_LIMIT && forall i :: 0 <= i < |v.items| ==>
      Fits(g, v.items[i])
    case ShortList(g) => v.Items? && |v.items| < 256 && forall i :: 0 <= i < |v.items| ==> Fits(g, v.items[i])
    case Record(fields) => v.Items? && |v.items| == |fields| && forall i :: 0 <= i < |fields| ==>
      Fits(fields[i], v.items[i])
    case Tested(g, test, _, _) => Fits(g, v) && test(v)
  }

  // ---- Encoding ----

  function Join(a: Option<string>, b: Option<string>): Option<string> {
    if a.Some? && b.Some? then Some(a.value + b.value) else None
  }

  function EncodeText(text: string, cap: nat): Option<string> {
    if |text| > cap then None else Some(LittleEndian(|text|, 4) + text)
  }

  /** The bytes of a value, or nothing when the encoder refuses it. */
  function Encode(f: Format, v: Value): Option<string>
    decreases f
  {
    match f
    case UInt(width) => if v.Num? && 0 <= v.n < Pow256(width) then Some(LittleEndian(v.n, width)) else None
    case I32 =>
      if v.Num? && -I32_LIMIT <= v.n < I32_LIMIT then Some(LittleEndian(if v.n < 0 then v.n + U32_LIMIT else v.n, 4))
      else None
    case Str => if v.Text? && NulFree(v.text) then EncodeText(v.text, MAX_STRING_BYTES) else None
    case Blob => if v.Text? then EncodeText(v.text, MAX_BLOB_BYTES) else None
    case Flag => if v.Bool? then Some(if v.b then [1 as char] else [0 as char]) else None
    case Opt(g) =>
      if v.Absent? then Some([0 as char])
      else if v.Present? then Join(Some([1 as char]), Encode(g, v.v))
      else None
    case Unless(g) =>
      if v.Absent? then Some([1 as char])
      else if v.Present? then Join(Some([0 as char]), Encode(g, v.v))
      else None
    case List(cap, g) =>
      if v.Items? && |v.items| <= cap && |v.items| < U32_LIMIT then
        Join(Some(LittleEndian(|v.items|, 4)), EncodeItems(f, v.items))
      else None
    case ShortList(g) =>
      if v.Items? && |v.items| <= 256 then Join(Some(LittleEndian(|v.items| % 256, 1)), EncodeItems(f, v.items))
      else None
    case Record(fields) => if v.Items? && |v.items| == |fields| then EncodeFields(f, 0, v.items) else None
    case Tested(g, test, _, sender) => if sender && !test(v) then None else Encode(g, v)
  }

  function EncodeItems(f: Format, items: seq<Value>): Option<string>
    requires f.List? || f.ShortList?
    decreases f, |items|
  {
    if items == [] then Some([]) else Join(Encode(f.item, items[0]), EncodeItems(f, items[1..]))
  }

  function EncodeFields(f: Format, k: nat, values: seq<Value>): Option<string>
    requires f.Record? && k <= |f.fields| == |values|
    decreases f, |values| - k
  {
    if k == |values| then Some([]) else Join(Encode(f.fields[k], values[k]), EncodeFields(f, k + 1, values))
  }

  // ---- Decoding ----

  datatype Read = Read(v: Value, end: nat)

  type Decoded = Result<Read, DecodeError>

  function DecodeUInt(width: nat, p: string, i: nat): (r: Decoded)
    requires i <= |p|
    ensures r.Ok? ==> i <= r.value.end <= |p|
  {
    if |p| - i < width then Err(Truncated) else Ok(Read(Num(FromLittleEndian(p[i..i + width])), i + width))
  }

  function DecodeText(cap: nat, p: string, i: nat): (r: Decoded)
    requires i <= |p|
    ensures r.Ok? ==> i <= r.value.end <= |p|
  {
    match DecodeUInt(4, p, i)
    case Err(e) => Err(e)
    case Ok(length) =>
      if length.v.n > cap then Err(Oversize)
      else if |p| - length.end < length.v.n then Err(Truncated)
      else Ok(Read(Text(p[length.end..length.end + length.v.n]), length.end + length.v.n))
  }

  function DecodeFlag(p: string, i: nat): (r: Decoded)
    requires i <= |p|
    ensures r.Ok? ==> i <= r.value.end <= |p|
  {
    if i == |p| then Err(Truncated)
    else if p[i] > 1 as char then Err(InvalidValue)
    else Ok(Read(Bool(p[i] == 1 as char), i + 1))
  }

  function Decode(f: Format, p: string, i: nat): (r: Decoded)
    requires i <= |p|
    ensures r.Ok? ==> i <= r.value.end <= |p|
    decreases f
  {
    match f
    case UInt(width) => DecodeUInt(width, p, i)
    case I32 =>
      (match DecodeUInt(4, p, i)
       case Err(e) => Err(e)
       case Ok(bits) => Ok(bits.(v := Num(if bits.v.n >= I32_LIMIT then bits.v.n - U32_LIMIT else bits.v.n))))
    case Str =>
      (match DecodeText(MAX_STRING_BYTES, p, i)
       case Err(e) => Err(e)
       case Ok(text) => if NulFree(text.v.text) then Ok(text) else Err(BadString))
    case Blob => DecodeText(MAX_BLOB_BYTES, p, i)
    case Flag => DecodeFlag(p, i)
    case Opt(g) =>
      (match DecodeFlag(p, i)
       case Err(e) => Err(e)
       case Ok(flag) => if flag.v.b then DecodePresent(f, g, p, flag.end) else Ok(Read(Absent, flag.end)))
    case Unless(g) =>
      (match DecodeFlag(p, i)
       case Err(e) => Err(e)
       case Ok(flag) => if flag.v.b then Ok(Read(Absent, flag.end)) else DecodePresent(f, g, p, flag.end))
    case List(cap, g) =>
      (match DecodeUInt(4, p, i)
       case Err(e) => Err(e)
       case Ok(count) =>
         if count.v.n > cap then Err(TooManyItems) else DecodeItems(f, count.v.n, p, count.end))
    case ShortList(g) =>
      (match DecodeUInt(1, p, i)
       case Err(e) => Err(e)
       case Ok(count) => DecodeItems(f, count.v.n, p, count.end))
    case Record(fields) => DecodeFields(f, 0, p, i)
    case Tested(g, test, error, _) =>
      (match Decode(g, p, i)
       case Err(e) => Err(e)
       case Ok(read) => if test(read.v) then Ok(read) else Err(error))
  }

  function DecodePresent(f: Format, g: Format, p: string, i: nat): (r: Decoded)
    requires i <= |p| && (f == Opt(g) || f == Unless(g))
    ensures r.Ok? ==> i <= r.value.end <= |p|
    decreases f, 0
  {
    match Decode(g, p, i)
    case Err(e) => Err(e)
    case Ok(read) => Ok(read.(v := Present(read.v)))
  }

  function DecodeItems(f: Format, n: nat, p: string, i: nat): (r: Decoded)
    requires i <= |p| && (f.List? || f.ShortList?)
    ensures r.Ok? ==> i <= r.value.end <= |p| && r.value.v.Items? && |r.value.v.items| == n
    decreases f, n
  {
    if n == 0 then Ok(Read(Items([]), i))
    else match Decode(f.item, p, i)
      case Err(e) => Err(e)
      case Ok(first) =>
        match DecodeItems(f, n - 1, p, first.end)
        case Err(e) => Err(e)
        case Ok(rest) => Ok(Read(Items([first.v] + rest.v.items), rest.end))
  }

  function DecodeFields(f: Format, k: nat, p: string, i: nat): (r: Decoded)
    requires i <= |p| && f.Record? && k <= |f.fields|
    ensures r.Ok? ==> i <= r.value.end <= |p| && r.value.v.Items? && |r.value.v.items| == |f.fields| - k
    decreases f, |f.fields| - k
  {
    if k == |f.fields| then Ok(Read(Items([]), i))
    else match Decode(f.fields[k], p, i)
      case Err(e) => Err(e)
      case Ok(first) =>
        match DecodeFields(f, k + 1, p, first.end)
        case Err(e) => Err(e)
        case Ok(rest) => Ok(Read(Items([first.v] + rest.v.items), rest.end))
  }
}
