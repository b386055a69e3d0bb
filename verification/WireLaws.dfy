/** Laws of the codec, for every format: canonical form, round trip, locality and self-delimitation. */
module WireLaws {
  import opened Basics
  import opened Wire

  // ---- Canonical: what was read is exactly what would be written ----

  lemma CanonicalUInt(width: nat, p: string, i: nat)
    requires Bytes(p) && i <= |p| && DecodeUInt(width, p, i).Ok?
    ensures var r := DecodeUInt(width, p, i).value;
      0 <= r.v.n < Pow256(width) && LittleEndian(r.v.n, width) == p[i..r.end]
  {
    BytesRoundTrip(p[i..i + width]);
  }

  lemma CanonicalText(cap: nat, p: string, i: nat)
    requires Bytes(p) && i <= |p| && DecodeText(cap, p, i).Ok? && cap < U32_LIMIT
    ensures var r := DecodeText(cap, p, i).value;
      |r.v.text| <= cap && Bytes(r.v.text) && EncodeText(r.v.text, cap) == Some(p[i..r.end])
  {
    CanonicalUInt(4, p, i);
    var r := DecodeText(cap, p, i).value;
    assert p[i..r.end] == p[i..i + 4] + p[i + 4..r.end];
  }

  lemma FourBytes()
    ensures Pow256(1) == 256 && Pow256(4) == U32_LIMIT
  {
    assert Pow256(2) == 65536;
  }

  lemma CanonicalFlag(p: string, i: nat)
    requires i <= |p| && DecodeFlag(p, i).Ok?
    ensures var r := DecodeFlag(p, i).value;
      r.end == i + 1 && p[i..r.end] == (if r.v.b then [1 as char] else [0 as char])
  {
  }

  lemma CanonicalLeaf(f: Format, p: string, i: nat)
    requires f.UInt? || f.I32? || f.Str? || f.Blob? || f.Flag?
    requires Bytes(p) && i <= |p| && Decode(f, p, i).Ok?
    ensures var r := Decode(f, p, i).value; Fits(f, r.v) && Encode(f, r.v) == Some(p[i..r.end])
  {
    match f
    case UInt(width) => CanonicalUInt(width, p, i);
    case I32 =>
      FourBytes();
      CanonicalUInt(4, p, i);
    case Str => CanonicalText(MAX_STRING_BYTES, p, i);
    case Blob => CanonicalText(MAX_BLOB_BYTES, p, i);
    case Flag => CanonicalFlag(p, i);
  }

  /** Whatever bytes the decoder accepts, the value fits the format and encodes to those very bytes. */
  lemma {:induction false} Canonical(f: Format, p: string, i: nat)
    requires Bytes(p) && i <= |p| && Decode(f, p, i).Ok?
    ensures var r := Decode(f, p, i).value; Fits(f, r.v) && Encode(f, r.v) == Some(p[i..r.end])
    decreases f, 2
  {
    match f
    case Opt(g) => CanonicalOptional(f, g, p, i);
    case Unless(g) => CanonicalOptional(f, g, p, i);
    case List(cap, g) => CanonicalList(f, p, i);
    case ShortList(g) => CanonicalList(f, p, i);
    case Record(fields) =>
      var values := Decode(f, p, i).value.v.items;
      assert values[0..] == values;
      CanonicalFields(f, 0, p, i, values);
    case Tested(g, _, _, _) => Canonical(g, p, i);
    case _ => CanonicalLeaf(f, p, i);
  }

  lemma {:induction false} CanonicalOptional(f: Format, g: Format, p: string, i: nat)
    requires f == Opt(g) || f == Unless(g)
    requires Bytes(p) && i <= |p| && Decode(f, p, i).Ok?
    ensures var r := Decode(f, p, i).value; Fits(f, r.v) && Encode(f, r.v) == Some(p[i..r.end])
    decreases f, 1
  {
    var r := Decode(f, p, i).value;
    CanonicalFlag(p, i);
    if r.v.Present? {
      Canonical(g, p, i + 1);
      assert p[i..r.end] == p[i..i + 1] + p[i + 1..r.end];
    }
  }

  lemma {:induction false} CanonicalList(f: Format, p: string, i: nat)
    requires f.List? || f.ShortList?
    requires Bytes(p) && i <= |p| && Decode(f, p, i).Ok?
    ensures var r := Decode(f, p, i).value; Fits(f, r.v) && Encode(f, r.v) == Some(p[i..r.end])
    decreases f, 1
  {
    var width := if f.List? then 4 else 1;
    var count := DecodeUInt(width, p, i).value;
    CanonicalUInt(width, p, i);
    CanonicalItems(f, count.v.n, p, i + width);
    ListRead(f, p, i, width, count.v.n, DecodeItems(f, count.v.n, p, i + width).value);
  }

  lemma ListRead(f: Format, p: string, i: nat, width: nat, n: nat, items: Read)
    requires (f.List? || f.ShortList?) && width == (if f.List? then 4 else 1) && i + width <= items.end <= |p|
    requires n < Pow256(width) && LittleEndian(n, width) == p[i..i + width] && (f.List? ==> n <= f.cap)
    requires items.v.Items? && |items.v.items| == n && EncodeItems(f, items.v.items) == Some(p[i + width..items.end])
    requires forall k :: 0 <= k < n ==> Fits(f.item, items.v.items[k])
    ensures Fits(f, items.v) && Encode(f, items.v) == Some(p[i..items.end])
  {
    FourBytes();
    assert p[i..items.end] == p[i..i + width] + p[i + width..items.end];
  }

  lemma ItemsJoin(f: Format, v: Value, rest: seq<Value>, p: string, i: nat, j: nat, end: nat)
    requires (f.List? || f.ShortList?) && i <= j <= end <= |p|
    requires Encode(f.item, v) == Some(p[i..j]) && EncodeItems(f, rest) == Some(p[j..end])
    ensures EncodeItems(f, [v] + rest) == Some(p[i..end])
  {
    assert ([v] + rest)[1..] == rest;
    assert p[i..j] + p[j..end] == p[i..end];
  }

  lemma {:induction false} CanonicalItems(f: Format, n: nat, p: string, i: nat)
    requires Bytes(p) && i <= |p| && (f.List? || f.ShortList?) && DecodeItems(f, n, p, i).Ok?
    ensures var r := DecodeItems(f, n, p, i).value;
      && (forall k :: 0 <= k < n ==> Fits(f.item, r.v.items[k]))
      && EncodeItems(f, r.v.items) == Some(p[i..r.end])
    decreases f, 0, n
  {
    if n == 0 {
      assert p[i..i] == [];
    } else {
      Canonical(f.item, p, i);
      var first := Decode(f.item, p, i).value;
      CanonicalItems(f, n - 1, p, first.end);
      var rest := DecodeItems(f, n - 1, p, first.end).value;
      ItemsJoin(f, first.v, rest.v.items, p, i, first.end, rest.end);
    }
  }

  lemma FieldsJoin(f: Format, k: nat, values: seq<Value>, p: string, i: nat, j: nat, end: nat)
    requires f.Record? && k < |f.fields| == |values| && i <= j <= end <= |p|
    requires Encode(f.fields[k], values[k]) == Some(p[i..j]) && EncodeFields(f, k + 1, values) == Some(p[j..end])
    ensures EncodeFields(f, k, values) == Some(p[i..end])
  {
    assert p[i..j] + p[j..end] == p[i..end];
  }

  /** `values` is any full list of values that ends in what is read from field `k` on. */
  lemma {:induction false} CanonicalFields(f: Format, k: nat, p: string, i: nat, values: seq<Value>)
    requires Bytes(p) && i <= |p| && f.Record? && k <= |f.fields| == |values| && DecodeFields(f, k, p, i).Ok?
    requires values[k..] == DecodeFields(f, k, p, i).value.v.items
    ensures forall j :: k <= j < |f.fields| ==> Fits(f.fields[j], values[j])
    ensures EncodeFields(f, k, values) == Some(p[i..DecodeFields(f, k, p, i).value.end])
    decreases f, 0, |f.fields| - k
  {
    if k == |f.fields| {
      assert p[i..i] == [];
    } else {
      Canonical(f.fields[k], p, i);
      var first := Decode(f.fields[k], p, i).value;
      var rest := DecodeFields(f, k + 1, p, first.end).value;
      assert values[k] == values[k..][0] && values[k + 1..] == values[k..][1..];
      CanonicalFields(f, k + 1, p, first.end, values);
      FieldsJoin(f, k, values, p, i, first.end, rest.end);
    }
  }

  // ---- Round trip: every value that fits is written, and read back from anywhere ----

  /** `e` stands at position `i` of `p`. */
  predicate At(p: string, i: nat, e: string) {
    i + |e| <= |p| && p[i..i + |e|] == e
  }

  lemma AtSplit(p: string, i: nat, a: string, b: string)
    requires At(p, i, a + b)
    ensures At(p, i, a) && At(p, i + |a|, b)
  {
    var whole := p[i..i + |a| + |b|];
    assert p[i..i + |a|] == whole[..|a|] == a;
    assert p[i + |a|..i + |a| + |b|] == whole[|a|..] == b;
  }

  lemma ReadUInt(width: nat, n: nat, p: string, i: nat)
    requires n < Pow256(width) && At(p, i, LittleEndian(n, width))
    ensures DecodeUInt(width, p, i) == Ok(Read(Num(n), i + width))
  {
    NumberRoundTrip(n, width);
  }

  lemma ReadTextAt(cap: nat, text: string, p: string, i: nat)
    requires i + 4 <= |p| && DecodeUInt(4, p, i) == Ok(Read(Num(|text|), i + 4)) && At(p, i + 4, text) && |text| <= cap
    ensures DecodeText(cap, p, i) == Ok(Read(Text(text), i + 4 + |text|))
  {
  }

  /** A count in `width` bytes followed by anything is read as that count. */
  lemma ReadCount(width: nat, n: nat, body: string, p: string, i: nat)
    requires n < Pow256(width) && At(p, i, LittleEndian(n, width) + body)
    ensures i + width <= |p| && DecodeUInt(width, p, i) == Ok(Read(Num(n), i + width)) && At(p, i + width, body)
  {
    AtSplit(p, i, LittleEndian(n, width), body);
    ReadUInt(width, n, p, i);
  }

  lemma ReadText(cap: nat, text: string, p: string, i: nat)
    requires |text| <= cap < U32_LIMIT && At(p, i, LittleEndian(|text|, 4) + text)
    ensures DecodeText(cap, p, i) == Ok(Read(Text(text), i + 4 + |text|))
  {
    FourBytes();
    ReadCount(4, |text|, text, p, i);
    ReadTextAt(cap, text, p, i);
  }

  lemma ReadFlag(b: bool, p: string, i: nat)
    requires At(p, i, if b then [1 as char] else [0 as char])
    ensures DecodeFlag(p, i) == Ok(Read(Bool(b), i + 1))
  {
    assert p[i] == p[i..i + 1][0];
  }

  ghost predicate ReadsBack(f: Format, v: Value, p: string, i: nat) {
    Encode(f, v).Some? && (At(p, i, Encode(f, v).value) ==> Decode(f, p, i) == Ok(Read(v, i + |Encode(f, v).value|)))
  }

  lemma RoundTripLeaf(f: Format, v: Value, p: string, i: nat)
    requires (f.UInt? || f.I32? || f.Str? || f.Blob? || f.Flag?) && Fits(f, v)
    ensures ReadsBack(f, v, p, i)
  {
    FourBytes();
    if At(p, i, Encode(f, v).value) {
      match f
      case UInt(width) => ReadUInt(width, v.n, p, i);
      case I32 => ReadUInt(4, if v.n < 0 then v.n + U32_LIMIT else v.n, p, i);
      case Str => ReadText(MAX_STRING_BYTES, v.text, p, i);
      case Blob => ReadText(MAX_BLOB_BYTES, v.text, p, i);
      case Flag => ReadFlag(v.b, p, i);
    }
  }

  /** A value that fits its format is never refused, and wherever its bytes stand they are read back. */
  lemma {:induction false} RoundTrip(f: Format, v: Value, p: string, i: nat)
    requires Fits(f, v)
    ensures ReadsBack(f, v, p, i)
    decreases f, 2
  {
    match f
    case Opt(g) => RoundTripOptional(f, g, v, p, i);
    case Unless(g) => RoundTripOptional(f, g, v, p, i);
    case List(cap, g) => RoundTripList(f, v, p, i);
    case ShortList(g) => RoundTripList(f, v, p, i);
    case Record(fields) => RoundTripFields(f, 0, v.items, p, i);
    case Tested(g, _, _, _) => RoundTrip(g, v, p, i);
    case _ => RoundTripLeaf(f, v, p, i);
  }

  lemma {:induction false} RoundTripOptional(f: Format, g: Format, v: Value, p: string, i: nat)
    requires (f == Opt(g) || f == Unless(g)) && Fits(f, v)
    ensures ReadsBack(f, v, p, i)
    decreases f, 1
  {
    var flag := if f.Opt? then v.Present? else v.Absent?;
    var head := if flag then [1 as char] else [0 as char];
    if v.Present? {
      RoundTrip(g, v.v, p, i + 1);
      if At(p, i, head + Encode(g, v.v).value) {
        AtSplit(p, i, head, Encode(g, v.v).value);
        ReadFlag(flag, p, i);
      }
    } else if At(p, i, head) {
      ReadFlag(flag, p, i);
    }
  }

  lemma {:induction false} RoundTripList(f: Format, v: Value, p: string, i: nat)
    requires (f.List? || f.ShortList?) && Fits(f, v)
    ensures ReadsBack(f, v, p, i)
    decreases f, 1
  {
    var width := if f.List? then 4 else 1;
    RoundTripItems(f, v.items, p, i + width);
    var body := EncodeItems(f, v.items).value;
    ListBytes(f, v, width, body);
    if At(p, i, LittleEndian(|v.items|, width) + body) {
      ReadCount(width, |v.items|, body, p, i);
      ListAt(f, v, p, i, width, body);
    }
  }

  lemma ListBytes(f: Format, v: Value, width: nat, body: string)
    requires (f.List? || f.ShortList?) && width == (if f.List? then 4 else 1)
    requires Fits(f, v) && EncodeItems(f, v.items) == Some(body)
    ensures |v.items| < Pow256(width) && Encode(f, v) == Some(LittleEndian(|v.items|, width) + body)
  {
    FourBytes();
  }

  lemma ListAt(f: Format, v: Value, p: string, i: nat, width: nat, body: string)
    requires (f.List? || f.ShortList?) && width == (if f.List? then 4 else 1) && Fits(f, v) && i + width <= |p|
    requires DecodeUInt(width, p, i) == Ok(Read(Num(|v.items|), i + width))
    requires DecodeItems(f, |v.items|, p, i + width) == Ok(Read(Items(v.items), i + width + |body|))
    ensures Decode(f, p, i) == Ok(Read(v, i + width + |body|))
  {
  }

  lemma {:induction false} RoundTripItems(f: Format, items: seq<Value>, p: string, i: nat)
    requires (f.List? || f.ShortList?) && forall k :: 0 <= k < |items| ==> Fits(f.item, items[k])
    ensures EncodeItems(f, items).Some?
    ensures At(p, i, EncodeItems(f, items).value) ==>
      DecodeItems(f, |items|, p, i) == Ok(Read(Items(items), i + |EncodeItems(f, items).value|))
    decreases f, 0, |items|
  {
    if items != [] {
      RoundTrip(f.item, items[0], p, i);
      var head := Encode(f.item, items[0]).value;
      RoundTripItems(f, items[1..], p, i + |head|);
      var body := EncodeItems(f, items[1..]).value;
      if At(p, i, head + body) {
        AtSplit(p, i, head, body);
        assert [items[0]] + items[1..] == items;
      }
    }
  }

  lemma {:induction false} RoundTripFields(f: Format, k: nat, values: seq<Value>, p: string, i: nat)
    requires f.Record? && k <= |f.fields| == |values| && forall j :: k <= j < |values| ==> Fits(f.fields[j], values[j])
    ensures EncodeFields(f, k, values).Some?
    ensures At(p, i, EncodeFields(f, k, values).value) ==>
      DecodeFields(f, k, p, i) == Ok(Read(Items(values[k..]), i + |EncodeFields(f, k, values).value|))
    decreases f, 0, |values| - k
  {
    if k == |values| {
      assert values[k..] == [];
    } else {
      RoundTrip(f.fields[k], values[k], p, i);
      var head := Encode(f.fields[k], values[k]).value;
      RoundTripFields(f, k + 1, values, p, i + |head|);
      var body := EncodeFields(f, k + 1, values).value;
      if At(p, i, head + body) {
        AtSplit(p, i, head, body);
        assert [values[k]] + values[k + 1..] == values[k..];
      }
    }
  }

  // ---- Locality: only the bytes that were read matter ----

  predicate Agree(p: string, q: string, end: nat) {
    end <= |p| && end <= |q| && p[..end] == q[..end]
  }

  lemma AgreeSlice(p: string, q: string, end: nat, i: nat, j: nat)
    requires Agree(p, q, end) && i <= j <= end
    ensures p[i..j] == q[i..j] && Agree(p, q, j)
  {
    assert p[i..j] == p[..end][i..j] && q[i..j] == q[..end][i..j];
    assert p[..j] == p[..end][..j] && q[..j] == q[..end][..j];
  }

  lemma LocalUInt(width: nat, p: string, q: string, i: nat)
    requires i <= |p| && DecodeUInt(width, p, i).Ok? && Agree(p, q, i + width)
    ensures DecodeUInt(width, q, i) == DecodeUInt(width, p, i)
  {
    AgreeSlice(p, q, i + width, i, i + width);
  }

  lemma LocalText(cap: nat, p: string, q: string, i: nat)
    requires i <= |p| && DecodeText(cap, p, i).Ok? && Agree(p, q, DecodeText(cap, p, i).value.end)
    ensures DecodeText(cap, q, i) == DecodeText(cap, p, i)
  {
    var end := DecodeText(cap, p, i).value.end;
    AgreeSlice(p, q, end, i, i + 4);
    LocalUInt(4, p, q, i);
    AgreeSlice(p, q, end, i + 4, end);
  }

  lemma LocalFlag(p: string, q: string, i: nat)
    requires i <= |p| && DecodeFlag(p, i).Ok? && Agree(p, q, i + 1)
    ensures DecodeFlag(q, i) == DecodeFlag(p, i)
  {
    assert p[i] == p[..i + 1][i] && q[i] == q[..i + 1][i];
  }

  lemma LocalLeaf(f: Format, p: string, q: string, i: nat)
    requires f.UInt? || f.I32? || f.Str? || f.Blob? || f.Flag?
    requires i <= |p| && Decode(f, p, i).Ok? && Agree(p, q, Decode(f, p, i).value.end)
    ensures Decode(f, q, i) == Decode(f, p, i)
  {
    match f
    case UInt(width) => LocalUInt(width, p, q, i);
    case I32 => LocalUInt(4, p, q, i);
    case Str => LocalText(MAX_STRING_BYTES, p, q, i);
    case Blob => LocalText(MAX_BLOB_BYTES, p, q, i);
    case Flag => LocalFlag(p, q, i);
  }

  /** Two payloads that agree up to where a field ends decode alike up to there. */
  lemma {:induction false} Local(f: Format, p: string, q: string, i: nat)
    requires i <= |p| && Decode(f, p, i).Ok? && Agree(p, q, Decode(f, p, i).value.end)
    ensures Decode(f, q, i) == Decode(f, p, i)
    decreases f, 2
  {
    match f
    case Opt(g) => LocalOptional(f, g, p, q, i);
    case Unless(g) => LocalOptional(f, g, p, q, i);
    case List(cap, g) => LocalList(f, p, q, i);
    case ShortList(g) => LocalList(f, p, q, i);
    case Record(fields) => LocalFields(f, 0, p, q, i);
    case Tested(g, _, _, _) => Local(g, p, q, i);
    case _ => LocalLeaf(f, p, q, i);
  }

  lemma {:induction false} LocalOptional(f: Format, g: Format, p: string, q: string, i: nat)
    requires f == Opt(g) || f == Unless(g)
    requires i <= |p| && Decode(f, p, i).Ok? && Agree(p, q, Decode(f, p, i).value.end)
    ensures Decode(f, q, i) == Decode(f, p, i)
    decreases f, 1
  {
    var r := Decode(f, p, i).value;
    AgreeSlice(p, q, r.end, i, i + 1);
    LocalFlag(p, q, i);
    if r.v.Present? {
      Local(g, p, q, i + 1);
    }
  }

  lemma {:induction false} LocalList(f: Format, p: string, q: string, i: nat)
    requires f.List? || f.ShortList?
    requires i <= |p| && Decode(f, p, i).Ok? && Agree(p, q, Decode(f, p, i).value.end)
    ensures Decode(f, q, i) == Decode(f, p, i)
    decreases f, 1
  {
    var r := Decode(f, p, i).value;
    var width := if f.List? then 4 else 1;
    AgreeSlice(p, q, r.end, i, i + width);
    LocalUInt(width, p, q, i);
    LocalItems(f, DecodeUInt(width, p, i).value.v.n, p, q, i + width);
  }

  lemma {:induction false} LocalItems(f: Format, n: nat, p: string, q: string, i: nat)
    requires (f.List? || f.ShortList?) && i <= |p|
    requires DecodeItems(f, n, p, i).Ok? && Agree(p, q, DecodeItems(f, n, p, i).value.end)
    ensures DecodeItems(f, n, q, i) == DecodeItems(f, n, p, i)
    decreases f, 0, n
  {
    if n > 0 {
      var end := DecodeItems(f, n, p, i).value.end;
      var first := Decode(f.item, p, i).value;
      AgreeSlice(p, q, end, i, first.end);
      Local(f.item, p, q, i);
      LocalItems(f, n - 1, p, q, first.end);
    }
  }

  lemma {:induction false} LocalFields(f: Format, k: nat, p: string, q: string, i: nat)
    requires f.Record? && k <= |f.fields| && i <= |p|
    requires DecodeFields(f, k, p, i).Ok? && Agree(p, q, DecodeFields(f, k, p, i).value.end)
    ensures DecodeFields(f, k, q, i) == DecodeFields(f, k, p, i)
    decreases f, 0, |f.fields| - k
  {
    if k < |f.fields| {
      var end := DecodeFields(f, k, p, i).value.end;
      var first := Decode(f.fields[k], p, i).value;
      AgreeSlice(p, q, end, i, first.end);
      Local(f.fields[k], p, q, i);
      LocalFields(f, k + 1, p, q, first.end);
    }
  }

  // ---- Self-delimitation: a field that is cut short is reported as truncated ----

  lemma CutAgrees(p: string, k: nat, end: nat)
    requires end <= k <= |p|
    ensures Agree(p, p[..k], end)
  {
    assert p[..k][..end] == p[..end];
  }

  lemma CutLeaf(f: Format, p: string, i: nat, k: nat)
    requires f.UInt? || f.I32? || f.Str? || f.Blob? || f.Flag?
    requires i <= |p| && Decode(f, p, i).Ok? && i <= k < Decode(f, p, i).value.end
    ensures Decode(f, p[..k], i) == Err(Truncated)
  {
    if (f.Str? || f.Blob?) && i + 4 <= k {
      CutAgrees(p, k, i + 4);
      LocalUInt(4, p, p[..k], i);
    }
  }

  lemma {:induction false} Cut(f: Format, p: string, i: nat, k: nat)
    requires i <= |p| && Decode(f, p, i).Ok? && i <= k < Decode(f, p, i).value.end
    ensures Decode(f, p[..k], i) == Err(Truncated)
    decreases f, 2
  {
    match f
    case Opt(g) => CutOptional(f, g, p, i, k);
    case Unless(g) => CutOptional(f, g, p, i, k);
    case List(cap, g) => CutList(f, p, i, k);
    case ShortList(g) => CutList(f, p, i, k);
    case Record(fields) => CutFields(f, 0, p, i, k);
    case Tested(g, _, _, _) => Cut(g, p, i, k);
    case _ => CutLeaf(f, p, i, k);
  }

  lemma {:induction false} CutOptional(f: Format, g: Format, p: string, i: nat, k: nat)
    requires f == Opt(g) || f == Unless(g)
    requires i <= |p| && Decode(f, p, i).Ok? && i <= k < Decode(f, p, i).value.end
    ensures Decode(f, p[..k], i) == Err(Truncated)
    decreases f, 1
  {
    if i < k {
      CutAgrees(p, k, i + 1);
      LocalFlag(p, p[..k], i);
      Cut(g, p, i + 1, k);
    }
  }

  lemma {:induction false} CutList(f: Format, p: string, i: nat, k: nat)
    requires f.List? || f.ShortList?
    requires i <= |p| && Decode(f, p, i).Ok? && i <= k < Decode(f, p, i).value.end
    ensures Decode(f, p[..k], i) == Err(Truncated)
    decreases f, 1
  {
    var width := if f.List? then 4 else 1;
    if i + width <= k {
      CutAgrees(p, k, i + width);
      LocalUInt(width, p, p[..k], i);
      CutItems(f, DecodeUInt(width, p, i).value.v.n, p, i + width, k);
    }
  }

  lemma {:induction false} CutItems(f: Format, n: nat, p: string, i: nat, k: nat)
    requires (f.List? || f.ShortList?) && i <= |p|
    requires DecodeItems(f, n, p, i).Ok? && i <= k < DecodeItems(f, n, p, i).value.end
    ensures DecodeItems(f, n, p[..k], i) == Err(Truncated)
    decreases f, 0, n
  {
    var first := Decode(f.item, p, i).value;
    if k < first.end {
      Cut(f.item, p, i, k);
    } else {
      CutAgrees(p, k, first.end);
      Local(f.item, p, p[..k], i);
      CutItems(f, n - 1, p, first.end, k);
    }
  }

  lemma {:induction false} CutFields(f: Format, n: nat, p: string, i: nat, k: nat)
    requires f.Record? && n <= |f.fields| && i <= |p|
    requires DecodeFields(f, n, p, i).Ok? && i <= k < DecodeFields(f, n, p, i).value.end
    ensures DecodeFields(f, n, p[..k], i) == Err(Truncated)
    decreases f, 0, |f.fields| - n
  {
    var first := Decode(f.fields[n], p, i).value;
    if k < first.end {
      Cut(f.fields[n], p, i, k);
    } else {
      CutAgrees(p, k, first.end);
      Local(f.fields[n], p, p[..k], i);
      CutFields(f, n + 1, p, first.end, k);
    }
  }

  // ---- What the encoder does not check ----

  /** Every text of a value is made of bytes, as every C++ string is. */
  predicate AllBytes(v: Value) {
    match v
    case Text(text) => Bytes(text)
    case Present(w) => AllBytes(w)
    case Items(items) => forall i :: 0 <= i < |items| ==> AllBytes(items[i])
    case _ => true
  }

  /** The tests that only the decoder makes hold, and no one-byte count overflows. */
  predicate Passes(f: Format, v: Value) {
    match f
    case Opt(g) => v.Present? ==> Passes(g, v.v)
    case Unless(g) => v.Present? ==> Passes(g, v.v)
    case List(_, g) => v.Items? ==> forall i :: 0 <= i < |v.items| ==> Passes(g, v.items[i])
    case ShortList(g) => v.Items? ==> |v.items| < 256 && forall i :: 0 <= i < |v.items| ==> Passes(g, v.items[i])
    case Record(fields) => v.Items? && |v.items| == |fields| ==> forall i :: 0 <= i < |fields| ==>
      Passes(fields[i], v.items[i])
    case Tested(g, test, _, sender) => Passes(g, v) && (sender || test(v))
    case _ => true
  }

  lemma {:induction false} ItemsEncoded(f: Format, items: seq<Value>, i: nat)
    requires (f.List? || f.ShortList?) && i < |items| && EncodeItems(f, items).Some?
    ensures Encode(f.item, items[i]).Some?
    decreases items
  {
    if i > 0 {
      ItemsEncoded(f, items[1..], i - 1);
    }
  }

  lemma {:induction false} FieldsEncoded(f: Format, k: nat, values: seq<Value>, i: nat)
    requires f.Record? && k <= i < |f.fields| == |values| && EncodeFields(f, k, values).Some?
    ensures Encode(f.fields[i], values[i]).Some?
    decreases i - k
  {
    if k < i {
      FieldsEncoded(f, k + 1, values, i);
    }
  }

  /** Of what the encoder accepts, the decoder can produce exactly what passes the missing tests. */
  lemma {:induction false} EncodedFits(f: Format, v: Value)
    requires Encode(f, v).Some? && AllBytes(v)
    ensures Fits(f, v) <==> Passes(f, v)
    decreases f
  {
    match f
    case Opt(g) =>
      if v.Present? {
        EncodedFits(g, v.v);
      }
    case Unless(g) =>
      if v.Present? {
        EncodedFits(g, v.v);
      }
    case List(_, g) =>
      forall i | 0 <= i < |v.items| ensures Fits(g, v.items[i]) <==> Passes(g, v.items[i]) {
        ItemsEncoded(f, v.items, i);
        EncodedFits(g, v.items[i]);
      }
    case ShortList(g) =>
      forall i | 0 <= i < |v.items| ensures Fits(g, v.items[i]) <==> Passes(g, v.items[i]) {
        ItemsEncoded(f, v.items, i);
        EncodedFits(g, v.items[i]);
      }
    case Record(fields) =>
      forall i | 0 <= i < |fields| ensures Fits(fields[i], v.items[i]) <==> Passes(fields[i], v.items[i]) {
        FieldsEncoded(f, 0, v.items, i);
        EncodedFits(fields[i], v.items[i]);
      }
    case Tested(g, _, _, _) => EncodedFits(g, v);
    case _ =>
  }

  // ---- What is written is made of bytes ----

  lemma JoinBytes(a: Option<string>, b: Option<string>)
    requires a.Some? ==> Bytes(a.value)
    requires b.Some? ==> Bytes(b.value)
    ensures Join(a, b).Some? ==> Bytes(Join(a, b).value)
  {
  }

  lemma {:induction false} EncodedBytes(f: Format, v: Value)
    requires Encode(f, v).Some? && AllBytes(v)
    ensures Bytes(Encode(f, v).value)
    decreases f, 1
  {
    match f
    case Opt(g) =>
      if v.Present? {
        EncodedBytes(g, v.v);
        JoinBytes(Some([1 as char]), Encode(g, v.v));
      }
    case Unless(g) =>
      if v.Present? {
        EncodedBytes(g, v.v);
        JoinBytes(Some([0 as char]), Encode(g, v.v));
      }
    case List(_, g) =>
      EncodedItemsBytes(f, v.items);
      JoinBytes(Some(LittleEndian(|v.items|, 4)), EncodeItems(f, v.items));
    case ShortList(g) =>
      EncodedItemsBytes(f, v.items);
      JoinBytes(Some(LittleEndian(|v.items| % 256, 1)), EncodeItems(f, v.items));
    case Record(fields) => EncodedFieldsBytes(f, 0, v.items);
    case Tested(g, _, _, _) => EncodedBytes(g, v);
    case _ =>
  }

  lemma {:induction false} EncodedItemsBytes(f: Format, items: seq<Value>)
    requires (f.List? || f.ShortList?) && EncodeItems(f, items).Some?
    requires forall i :: 0 <= i < |items| ==> AllBytes(items[i])
    ensures Bytes(EncodeItems(f, items).value)
    decreases f, 0, |items|
  {
    if items != [] {
      EncodedBytes(f.item, items[0]);
      EncodedItemsBytes(f, items[1..]);
      JoinBytes(Encode(f.item, items[0]), EncodeItems(f, items[1..]));
    }
  }

  lemma {:induction false} EncodedFieldsBytes(f: Format, k: nat, values: seq<Value>)
    requires f.Record? && k <= |f.fields| == |values| && EncodeFields(f, k, values).Some?
    requires forall i :: 0 <= i < |values| ==> AllBytes(values[i])
    ensures Bytes(EncodeFields(f, k, values).value)
    decreases f, 0, |values| - k
  {
    if k < |values| {
      EncodedBytes(f.fields[k], values[k]);
      EncodedFieldsBytes(f, k + 1, values);
      JoinBytes(Encode(f.fields[k], values[k]), EncodeFields(f, k + 1, values));
    }
  }
}
