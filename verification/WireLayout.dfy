/** The bytes of single fields, written out: what the encoder of the protocol puts on the wire, call by call
    (Writer of ipc_protocol.cpp). */
module WireLayout {
  import opened Basics
  import opened Wire
  import opened WireLaws
  import opened Messages

  // ---- Numbers ----

  predicate Is8(n: int) {
    0 <= n <= 0xFF
  }

  predicate Is32(n: int) {
    0 <= n <= 0xFFFF_FFFF
  }

  predicate Is64(n: int) {
    0 <= n <= 0xFFFF_FFFF_FFFF_FFFF
  }

  function Low(n: nat): char {
    (n % 256) as char
  }

  function U8(n: int): string {
    if Is8(n) then [Low(n)] else ""
  }

  /** Four bytes, least significant first. */
  function U32(n: int): string {
    if Is32(n) then [Low(n), Low(n / 0x100), Low(n / 0x1_0000), Low(n / 0x100_0000)] else ""
  }

  function U64(n: int): string {
    if Is64(n) then
      [Low(n), Low(n / 0x100), Low(n / 0x1_0000), Low(n / 0x100_0000), Low(n / 0x1_0000_0000),
       Low(n / 0x100_0000_0000), Low(n / 0x1_0000_0000_0000), Low(n / 0x100_0000_0000_0000)]
    else ""
  }

  /** Two's complement. */
  function S32(n: int): string {
    U32(if n < 0 then n + 0x1_0000_0000 else n)
  }

  // ---- Texts ----

  predicate TextOk(text: string) {
    |text| <= 65536 && '\0' !in text
  }

  /** A length in four bytes and the text. */
  function Sized(text: string): string {
    U32(|text|) + text
  }

  predicate OptTextOk(o: Option<string>) {
    o.Some? ==> TextOk(o.value)
  }

  function OptSized(o: Option<string>): string {
    if o.Some? then U8(1) + Sized(o.value) else U8(0)
  }

  function Flagged(b: bool): string {
    U8(if b then 1 else 0)
  }

  predicate Opt64Ok(o: Option<int>) {
    o.Some? ==> Is64(o.value)
  }

  function OptU64(o: Option<int>): string {
    if o.Some? then U8(1) + U64(o.value) else U8(0)
  }

  function Concat(texts: seq<string>): string {
    if texts == [] then "" else texts[0] + Concat(texts[1..])
  }

  predicate AllTextOk(xs: seq<string>) {
    forall i :: 0 <= i < |xs| ==> TextOk(xs[i])
  }

  function AllSized(xs: seq<string>): string {
    if xs == [] then "" else Sized(xs[0]) + AllSized(xs[1..])
  }

  predicate ExitOk(e: Option<WireExit>) {
    e.Some? ==> -0x8000_0000 <= e.value.code <= 0x7FFF_FFFF
  }

  function ExitText(e: Option<WireExit>): string {
    if e.Some? then U8(1) + Flagged(e.value.exitedNormally) + S32(e.value.code) else U8(0)
  }

  predicate MetadataOk(m: Option<WireMetadata>) {
    m.Some? ==> 0 <= m.value.source <= 2 && OptTextOk(m.value.pythonVersion)
  }

  function MetadataText(m: Option<WireMetadata>): string {
    if m.Some? then U8(1) + U8(m.value.source) + OptSized(m.value.pythonVersion) else U8(0)
  }

  // ---- Formats lay values out ----

  /** In format `f` the encoder writes `text` for `v` if `ok`, and nothing otherwise. */
  ghost predicate Lays(f: Format, v: Value, ok: bool, text: string) {
    Encode(f, v) == if ok then Some(text) else None
  }

  lemma Widths()
    ensures Pow256(1) == 0x100 && Pow256(4) == 0x1_0000_0000 && Pow256(8) == 0x1_0000_0000_0000_0000
  {
    assert Pow256(6) == 0x1_0000_0000_0000;
  }

  lemma LittleEndian1(n: nat)
    ensures LittleEndian(n, 1) == [Low(n)]
  {
    assert LittleEndian(n / 256, 0) == [];
  }

  lemma FourMore(n: nat, k: nat)
    ensures LittleEndian(n, k + 4) ==
      [Low(n), Low(n / 0x100), Low(n / 0x1_0000), Low(n / 0x100_0000)] + LittleEndian(n / 0x1_0000_0000, k)
  {
    var a, b, c, d := n / 256, n / 256 / 256, n / 256 / 256 / 256, n / 256 / 256 / 256 / 256;
    assert b == n / 0x1_0000 && c == n / 0x100_0000 && d == n / 0x1_0000_0000;
    assert LittleEndian(c, k + 1) == [Low(c)] + LittleEndian(d, k);
    assert LittleEndian(b, k + 2) == [Low(b)] + LittleEndian(c, k + 1);
    assert LittleEndian(a, k + 3) == [Low(a)] + LittleEndian(b, k + 2);
  }

  lemma LittleEndian4(n: nat)
    ensures LittleEndian(n, 4) == [Low(n), Low(n / 0x100), Low(n / 0x1_0000), Low(n / 0x100_0000)]
  {
    FourMore(n, 0);
  }

  lemma LittleEndian8(n: nat)
    requires Is64(n)
    ensures LittleEndian(n, 8) == U64(n)
  {
    var m := n / 0x1_0000_0000;
    FourMore(n, 4);
    FourMore(m, 0);
    assert m / 0x100 == n / 0x100_0000_0000 && m / 0x1_0000 == n / 0x1_0000_0000_0000;
    assert m / 0x100_0000 == n / 0x100_0000_0000_0000;
  }

  lemma LaysU8(n: int)
    ensures Lays(UInt(1), Num(n), Is8(n), U8(n))
  {
    Widths();
    if Is8(n) {
      LittleEndian1(n);
    }
  }

  lemma LaysU32(n: int)
    ensures Lays(UInt(4), Num(n), Is32(n), U32(n))
  {
    Widths();
    if Is32(n) {
      LittleEndian4(n);
    }
  }

  lemma LaysU64(n: int)
    ensures Lays(UInt(8), Num(n), Is64(n), U64(n))
  {
    Widths();
    if Is64(n) {
      LittleEndian8(n);
    }
  }

  lemma LaysS32(n: int)
    ensures Lays(I32, Num(n), -0x8000_0000 <= n <= 0x7FFF_FFFF, S32(n))
  {
    if -0x8000_0000 <= n <= 0x7FFF_FFFF {
      LittleEndian4(if n < 0 then n + 0x1_0000_0000 else n);
    }
  }

  lemma LaysText(text: string)
    ensures Lays(Str, Text(text), TextOk(text), Sized(text))
  {
    if TextOk(text) {
      LittleEndian4(|text|);
    }
  }

  lemma LaysBlob(text: string)
    ensures Lays(Blob, Text(text), |text| <= 524288, Sized(text))
  {
    if |text| <= 524288 {
      LittleEndian4(|text|);
    }
  }

  lemma LaysFlag(b: bool)
    ensures Lays(Flag, Bool(b), true, Flagged(b))
  {
  }

  lemma LaysAbsent(g: Format)
    ensures Lays(Opt(g), Absent, true, U8(0)) && Lays(Unless(g), Absent, true, U8(1))
  {
  }

  lemma LaysPresent(g: Format, v: Value, ok: bool, text: string)
    requires Lays(g, v, ok, text)
    ensures Lays(Opt(g), Present(v), ok, U8(1) + text) && Lays(Unless(g), Present(v), ok, U8(0) + text)
  {
  }

  lemma LaysOptText(o: Option<string>)
    ensures Lays(Opt(Str), OptText(o), OptTextOk(o), OptSized(o))
  {
    LaysAbsent(Str);
    if o.Some? {
      LaysText(o.value);
      LaysPresent(Str, Text(o.value), TextOk(o.value), Sized(o.value));
    }
  }

  lemma LaysOptU64(o: Option<int>)
    ensures Lays(Opt(UInt(8)), OptNum(o), Opt64Ok(o), OptU64(o))
  {
    LaysAbsent(UInt(8));
    if o.Some? {
      LaysU64(o.value);
      LaysPresent(UInt(8), Num(o.value), Is64(o.value), U64(o.value));
    }
  }

  /** A test of the sender. */
  lemma LaysTested(g: Format, test: Value -> bool, error: DecodeError, v: Value, ok: bool, text: string)
    requires Lays(g, v, ok, text)
    ensures Lays(Tested(g, test, error, true), v, ok && test(v), text)
    ensures Lays(Tested(g, test, error, false), v, ok, text)
  {
  }

  lemma LaysByte(limit: int, n: int)
    ensures Lays(Byte(limit, true), Num(n), Is8(n) && n <= limit, U8(n))
    ensures Lays(Byte(limit, false), Num(n), Is8(n), U8(n))
  {
    LaysU8(n);
    LaysTested(UInt(1), (v: Value) => UpTo(v, limit), InvalidValue, Num(n), Is8(n), U8(n));
  }

  lemma JoinLaid(f: Format, v: Value, ok: bool, text: string, rest: Option<string>)
    requires Lays(f, v, ok, text)
    ensures Join(Encode(f, v), rest) == if ok && rest.Some? then Some(text + rest.value) else None
  {
  }

  lemma FieldsFrom(f: Format, k: nat, values: seq<Value>, ok: bool, text: string)
    requires f.Record? && k < |f.fields| == |values| && Lays(f.fields[k], values[k], ok, text)
    ensures var rest := EncodeFields(f, k + 1, values);
      EncodeFields(f, k, values) == if ok && rest.Some? then Some(text + rest.value) else None
  {
  }

  lemma LaysTwo(a: Format, b: Format, x: Value, y: Value, p: bool, q: bool, s: string, t: string)
    requires Lays(a, x, p, s) && Lays(b, y, q, t)
    ensures Lays(Record([a, b]), Items([x, y]), p && q, s + t)
  {
    var f, values := Record([a, b]), [x, y];
    FieldsFrom(f, 1, values, q, t);
    FieldsFrom(f, 0, values, p, s);
    assert t + [] == t;
  }

  lemma LaysThree(a: Format, b: Format, c: Format, x: Value, y: Value, z: Value,
                  p: bool, q: bool, r: bool, s: string, t: string, u: string)
    requires Lays(a, x, p, s) && Lays(b, y, q, t) && Lays(c, z, r, u)
    ensures Lays(Record([a, b, c]), Items([x, y, z]), p && q && r, s + t + u)
  {
    var f, values := Record([a, b, c]), [x, y, z];
    FieldsFrom(f, 2, values, r, u);
    FieldsFrom(f, 1, values, q, t);
    FieldsFrom(f, 0, values, p, s);
    assert u + [] == u && s + (t + u) == s + t + u;
  }

  lemma LaysFour(a: Format, b: Format, c: Format, d: Format, w: Value, x: Value, y: Value, z: Value,
                 p: bool, q: bool, r: bool, o: bool, s: string, t: string, u: string, e: string)
    requires Lays(a, w, p, s) && Lays(b, x, q, t) && Lays(c, y, r, u) && Lays(d, z, o, e)
    ensures Lays(Record([a, b, c, d]), Items([w, x, y, z]), p && q && r && o, s + t + u + e)
  {
    var f, values := Record([a, b, c, d]), [w, x, y, z];
    FieldsFrom(f, 3, values, o, e);
    FieldsFrom(f, 2, values, r, u);
    FieldsFrom(f, 1, values, q, t);
    FieldsFrom(f, 0, values, p, s);
    assert e + [] == e && s + (t + (u + e)) == s + t + u + e;
  }

  lemma LaysOne(a: Format, x: Value, p: bool, s: string)
    requires Lays(a, x, p, s)
    ensures Lays(Record([a]), Items([x]), p, s)
  {
    FieldsFrom(Record([a]), 0, [x], p, s);
    assert s + [] == s;
  }

  lemma LaysNothing()
    ensures Lays(Record([]), Items([]), true, "")
  {
  }

  /** A part that only some versions carry. */
  lemma LaysWhen(present: bool, f: Format, v: Value, ok: bool, text: string)
    requires Lays(f, v, ok, text)
    ensures Lays(When(present, f), ValueWhen(present, v), present ==> ok, if present then text else "")
  {
    LaysNothing();
  }

  // ---- Lists ----

  predicate AllTrue(oks: seq<bool>) {
    forall i :: 0 <= i < |oks| ==> oks[i]
  }

  /** Each value is laid out as its text. */
  ghost predicate AllLaid(g: Format, values: seq<Value>, oks: seq<bool>, texts: seq<string>) {
    |values| == |oks| == |texts| && forall i :: 0 <= i < |values| ==> Lays(g, values[i], oks[i], texts[i])
  }

  /** All items of a list, one behind the other. */
  lemma {:induction false} ItemsLaid(f: Format, values: seq<Value>, oks: seq<bool>, texts: seq<string>)
    requires (f.List? || f.ShortList?) && AllLaid(f.item, values, oks, texts)
    ensures EncodeItems(f, values) == if AllTrue(oks) then Some(Concat(texts)) else None
  {
    if values != [] {
      ItemsLaid(f, values[1..], oks[1..], texts[1..]);
      assert Lays(f.item, values[0], oks[0], texts[0]);
      assert AllTrue(oks) <==> oks[0] && AllTrue(oks[1..]) by {
        assert oks == [oks[0]] + oks[1..];
      }
    }
  }

  lemma LaysList(cap: nat, g: Format, values: seq<Value>, oks: seq<bool>, texts: seq<string>)
    requires cap <= 0xFFFF_FFFF && AllLaid(g, values, oks, texts)
    ensures Lays(List(cap, g), Items(values), |values| <= cap && AllTrue(oks), U32(|values|) + Concat(texts))
  {
    ItemsLaid(List(cap, g), values, oks, texts);
    LittleEndian4(|values|);
  }

  lemma LaysShortList(g: Format, values: seq<Value>, oks: seq<bool>, texts: seq<string>)
    requires AllLaid(g, values, oks, texts)
    ensures Lays(ShortList(g), Items(values), |values| <= 256 && AllTrue(oks), U8(|values| % 256) + Concat(texts))
  {
    ItemsLaid(ShortList(g), values, oks, texts);
    LittleEndian1(|values| % 256);
  }

  lemma {:induction false} SizedConcat(xs: seq<string>, texts: seq<string>)
    requires |texts| == |xs| && forall i :: 0 <= i < |xs| ==> texts[i] == Sized(xs[i])
    ensures Concat(texts) == AllSized(xs)
  {
    if xs != [] {
      SizedConcat(xs[1..], texts[1..]);
    }
  }

  lemma TextsLaid(xs: seq<string>) returns (oks: seq<bool>, texts: seq<string>)
    ensures AllLaid(Str, Texts(xs).items, oks, texts) && Concat(texts) == AllSized(xs)
    ensures AllTextOk(xs) <==> AllTrue(oks)
  {
    oks := seq(|xs|, i requires 0 <= i < |xs| => TextOk(xs[i]));
    texts := seq(|xs|, i requires 0 <= i < |xs| => Sized(xs[i]));
    forall i | 0 <= i < |xs| ensures Lays(Str, Texts(xs).items[i], oks[i], texts[i]) {
      LaysText(xs[i]);
    }
    SizedConcat(xs, texts);
    assert forall i :: 0 <= i < |xs| ==> oks[i] == TextOk(xs[i]);
  }

  lemma LaysTexts(xs: seq<string>)
    ensures Lays(List(256, Str), Texts(xs), |xs| <= 256 && AllTextOk(xs), U32(|xs|) + AllSized(xs))
    ensures Lays(ShortList(Str), Texts(xs), |xs| <= 256 && AllTextOk(xs), U8(|xs| % 256) + AllSized(xs))
  {
    var oks, texts := TextsLaid(xs);
    LaysList(256, Str, Texts(xs).items, oks, texts);
    LaysShortList(Str, Texts(xs).items, oks, texts);
  }

  // ---- Shared records ----

  lemma LaysExit(e: Option<WireExit>)
    ensures Lays(EXIT_FORMAT, ExitValue(e), ExitOk(e), ExitText(e))
  {
    LaysAbsent(Record([Flag, I32]));
    if e.Some? {
      var x := e.value;
      LaysFlag(x.exitedNormally);
      LaysS32(x.code);
      LaysTwo(Flag, I32, Bool(x.exitedNormally), Num(x.code), true, -0x8000_0000 <= x.code <= 0x7FFF_FFFF,
              Flagged(x.exitedNormally), S32(x.code));
      LaysPresent(Record([Flag, I32]), Items([Bool(x.exitedNormally), Num(x.code)]),
                  -0x8000_0000 <= x.code <= 0x7FFF_FFFF, Flagged(x.exitedNormally) + S32(x.code));
      assert U8(1) + (Flagged(x.exitedNormally) + S32(x.code)) == ExitText(e);
    }
  }

  lemma LaysMetadata(m: Option<WireMetadata>)
    ensures Lays(MetadataFormat(), MetadataValue(m), MetadataOk(m), MetadataText(m))
  {
    var f := Record([Byte(2, true), Opt(Str)]);
    assert MetadataFormat() == Opt(f);
    LaysAbsent(f);
    if m.Some? {
      var x := m.value;
      LaysByte(2, x.source);
      LaysOptText(x.pythonVersion);
      LaysTwo(Byte(2, true), Opt(Str), Num(x.source), OptText(x.pythonVersion), Is8(x.source) && x.source <= 2,
              OptTextOk(x.pythonVersion), U8(x.source), OptSized(x.pythonVersion));
      LaysPresent(f, Items([Num(x.source), OptText(x.pythonVersion)]),
                  Is8(x.source) && x.source <= 2 && OptTextOk(x.pythonVersion),
                  U8(x.source) + OptSized(x.pythonVersion));
      assert U8(1) + (U8(x.source) + OptSized(x.pythonVersion)) == MetadataText(m);
    }
  }
}
