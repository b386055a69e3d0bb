/** Field values of the typed messages and their way back. */
module Messages {
  import opened Basics
  import opened Wire
  import opened WireLaws

  const MAX_ITEMS := 256
  const MAX_LIST_ITEMS := 1024
  const MAX_JOB_STATE := 7

  // ---- Single fields ----

  function NumOf(v: Value): int {
    if v.Num? then v.n else 0
  }

  function TextOf(v: Value): string {
    if v.Text? then v.text else ""
  }

  function BoolOf(v: Value): bool {
    v.Bool? && v.b
  }

  function OptText(o: Option<string>): Value {
    if o.Some? then Present(Text(o.value)) else Absent
  }

  function TextOpt(v: Value): Option<string> {
    if v.Present? then Some(TextOf(v.v)) else None
  }

  function OptNum(o: Option<int>): Value {
    if o.Some? then Present(Num(o.value)) else Absent
  }

  function NumOpt(v: Value): Option<int> {
    if v.Present? then Some(NumOf(v.v)) else None
  }

  function Field(v: Value, k: nat): Value {
    if v.Items? && k < |v.items| then v.items[k] else Absent
  }

  function Texts(xs: seq<string>): (v: Value)
    ensures v.Items? && |v.items| == |xs| && forall i :: 0 <= i < |xs| ==> v.items[i] == Text(xs[i])
  {
    Items(seq(|xs|, i requires 0 <= i < |xs| => Text(xs[i])))
  }

  function TextsOf(v: Value): (xs: seq<string>)
    ensures v.Items? ==> |xs| == |v.items| && forall i :: 0 <= i < |xs| ==> xs[i] == TextOf(v.items[i])
  {
    if v.Items? then seq(|v.items|, i requires 0 <= i < |v.items| => TextOf(v.items[i])) else []
  }

  predicate UpTo(v: Value, limit: int) {
    v.Num? && v.n <= limit
  }

  function Byte(limit: int, sender: bool): Format {
    Tested(UInt(1), (v: Value) => UpTo(v, limit), InvalidValue, sender)
  }

  lemma TextsThere(xs: seq<string>)
    ensures TextsOf(Texts(xs)) == xs
  {
  }

  lemma TextsBack(f: Format, v: Value)
    requires (f == List(MAX_ITEMS, Str) || f == ShortList(Str)) && Fits(f, v)
    ensures Texts(TextsOf(v)) == v
  {
    assert Texts(TextsOf(v)).items == v.items;
  }

  lemma OptTextBack(v: Value)
    requires Fits(Opt(Str), v)
    ensures OptText(TextOpt(v)) == v
  {
  }

  lemma OptNumBack(width: nat, v: Value)
    requires Fits(Opt(UInt(width)), v)
    ensures OptNum(NumOpt(v)) == v
  {
  }

  // ---- Exit status and environment metadata ----

  datatype WireExit = WireExit(exitedNormally: bool, code: int)

  const EXIT_FORMAT := Opt(Record([Flag, I32]))

  function ExitValue(e: Option<WireExit>): Value {
    if e.Some? then Present(Items([Bool(e.value.exitedNormally), Num(e.value.code)])) else Absent
  }

  function ExitOf(v: Value): Option<WireExit> {
    if v.Present? then Some(WireExit(BoolOf(Field(v.v, 0)), NumOf(Field(v.v, 1)))) else None
  }

  lemma ExitBack(v: Value)
    requires Fits(EXIT_FORMAT, v)
    ensures ExitValue(ExitOf(v)) == v
  {
    if v.Present? {
      var f := Record([Flag, I32]);
      assert Fits(f, v.v) && Fits(f.fields[0], v.v.items[0]) && Fits(f.fields[1], v.v.items[1]);
      assert v.v.items == [v.v.items[0], v.v.items[1]];
    }
  }

  datatype WireMetadata = WireMetadata(source: int, pythonVersion: Option<string>)

  const MAX_SOURCE := 2

  function MetadataFormat(): Format {
    Opt(Record([Byte(MAX_SOURCE, true), Opt(Str)]))
  }

  function MetadataValue(m: Option<WireMetadata>): Value {
    if m.Some? then Present(Items([Num(m.value.source), OptText(m.value.pythonVersion)])) else Absent
  }

  function MetadataOf(v: Value): Option<WireMetadata> {
    if v.Present? then Some(WireMetadata(NumOf(Field(v.v, 0)), TextOpt(Field(v.v, 1)))) else None
  }

  lemma ByteIsNum(limit: int, sender: bool, v: Value)
    requires Fits(Byte(limit, sender), v)
    ensures v.Num? && 0 <= v.n <= limit && v == Num(NumOf(v))
  {
    assert Fits(UInt(1), v);
  }

  lemma MetadataBack(v: Value)
    requires Fits(MetadataFormat(), v)
    ensures MetadataValue(MetadataOf(v)) == v
  {
    if v.Present? {
      var f := Record([Byte(MAX_SOURCE, true), Opt(Str)]);
      assert Fits(f, v.v) && Fits(f.fields[0], v.v.items[0]) && Fits(f.fields[1], v.v.items[1]);
      ByteIsNum(MAX_SOURCE, true, v.v.items[0]);
      OptTextBack(v.v.items[1]);
      assert v.v.items == [v.v.items[0], v.v.items[1]];
    }
  }

  // ---- Records of a few fields ----

  lemma FitsOne(a: Format, v: Value)
    requires Fits(Record([a]), v)
    ensures v.Items? && |v.items| == 1 && v.items == [v.items[0]] && Fits(a, v.items[0])
  {
    assert Fits(Record([a]).fields[0], v.items[0]);
  }

  lemma FitsTwo(a: Format, b: Format, v: Value)
    requires Fits(Record([a, b]), v)
    ensures v.Items? && |v.items| == 2 && v.items == [v.items[0], v.items[1]]
    ensures Fits(a, v.items[0]) && Fits(b, v.items[1])
  {
    var f := Record([a, b]);
    assert Fits(f.fields[0], v.items[0]) && Fits(f.fields[1], v.items[1]);
  }

  lemma FitsThree(a: Format, b: Format, c: Format, v: Value)
    requires Fits(Record([a, b, c]), v)
    ensures v.Items? && |v.items| == 3 && v.items == [v.items[0], v.items[1], v.items[2]]
    ensures Fits(a, v.items[0]) && Fits(b, v.items[1]) && Fits(c, v.items[2])
  {
    var f := Record([a, b, c]);
    assert Fits(f.fields[0], v.items[0]) && Fits(f.fields[1], v.items[1]) && Fits(f.fields[2], v.items[2]);
  }

  lemma ThreeFit(a: Format, b: Format, c: Format, x: Value, y: Value, z: Value)
    ensures Fits(Record([a, b, c]), Items([x, y, z])) <==> Fits(a, x) && Fits(b, y) && Fits(c, z)
  {
    var f, v := Record([a, b, c]), Items([x, y, z]);
    assert f.fields[0] == a && f.fields[1] == b && f.fields[2] == c;
    assert v.items[0] == x && v.items[1] == y && v.items[2] == z;
  }

  lemma FitsFour(a: Format, b: Format, c: Format, d: Format, v: Value)
    requires Fits(Record([a, b, c, d]), v)
    ensures v.Items? && |v.items| == 4 && v.items == [v.items[0], v.items[1], v.items[2], v.items[3]]
    ensures Fits(a, v.items[0]) && Fits(b, v.items[1]) && Fits(c, v.items[2]) && Fits(d, v.items[3])
  {
    var f := Record([a, b, c, d]);
    assert Fits(f.fields[0], v.items[0]) && Fits(f.fields[1], v.items[1]);
    assert Fits(f.fields[2], v.items[2]) && Fits(f.fields[3], v.items[3]);
  }

  lemma PassesTwo(a: Format, b: Format, x: Value, y: Value)
    ensures Passes(Record([a, b]), Items([x, y])) <==> Passes(a, x) && Passes(b, y)
    ensures AllBytes(Items([x, y])) <==> AllBytes(x) && AllBytes(y)
  {
    var f, v := Record([a, b]), Items([x, y]);
    assert f.fields[0] == a && f.fields[1] == b && v.items[0] == x && v.items[1] == y;
  }

  lemma PassesThree(a: Format, b: Format, c: Format, x: Value, y: Value, z: Value)
    ensures Passes(Record([a, b, c]), Items([x, y, z])) <==> Passes(a, x) && Passes(b, y) && Passes(c, z)
    ensures AllBytes(Items([x, y, z])) <==> AllBytes(x) && AllBytes(y) && AllBytes(z)
  {
    var f, v := Record([a, b, c]), Items([x, y, z]);
    assert f.fields[0] == a && f.fields[1] == b && f.fields[2] == c;
    assert v.items[0] == x && v.items[1] == y && v.items[2] == z;
  }

  lemma PassesFour(a: Format, b: Format, c: Format, d: Format, w: Value, x: Value, y: Value, z: Value)
    ensures Passes(Record([a, b, c, d]), Items([w, x, y, z])) <==>
      Passes(a, w) && Passes(b, x) && Passes(c, y) && Passes(d, z)
    ensures AllBytes(Items([w, x, y, z])) <==> AllBytes(w) && AllBytes(x) && AllBytes(y) && AllBytes(z)
  {
    var f, v := Record([a, b, c, d]), Items([w, x, y, z]);
    assert f.fields[0] == a && f.fields[1] == b && f.fields[2] == c && f.fields[3] == d;
    assert v.items[0] == w && v.items[1] == x && v.items[2] == y && v.items[3] == z;
  }

  // ---- Fields that only some versions carry ----

  function When(present: bool, f: Format): Format {
    if present then f else Record([])
  }

  function ValueWhen(present: bool, v: Value): Value {
    if present then v else Items([])
  }

  lemma WhenPasses(present: bool, f: Format, v: Value)
    requires AllBytes(v) && Passes(f, v)
    ensures AllBytes(ValueWhen(present, v)) && Passes(When(present, f), ValueWhen(present, v))
  {
  }

  lemma WhenAbsent(f: Format, v: Value)
    requires Fits(When(false, f), v)
    ensures v == Items([])
  {
  }

  lemma LastFields(f: Format, values: seq<Value>)
    requires f.Record? && |f.fields| == |values| == 3
    ensures EncodeFields(f, 2, values) == Join(Encode(f.fields[2], values[2]), Some([]))
  {
  }

  lemma LaterFields(f: Format, values: seq<Value>)
    requires f.Record? && |f.fields| == |values| == 3
    ensures EncodeFields(f, 1, values) ==
      Join(Encode(f.fields[1], values[1]), Join(Encode(f.fields[2], values[2]), Some([])))
  {
    LastFields(f, values);
  }

  lemma AllFields(f: Format, values: seq<Value>)
    requires f.Record? && |f.fields| == |values| == 3
    ensures Encode(f, Items(values)) ==
      Join(Encode(f.fields[0], values[0]),
           Join(Encode(f.fields[1], values[1]), Join(Encode(f.fields[2], values[2]), Some([]))))
  {
    LaterFields(f, values);
  }

  lemma EncodeThree(a: Format, b: Format, c: Format, x: Value, y: Value, z: Value)
    ensures Encode(Record([a, b, c]), Items([x, y, z])) ==
      Join(Encode(a, x), Join(Encode(b, y), Join(Encode(c, z), Some([]))))
  {
    AllFields(Record([a, b, c]), [x, y, z]);
  }

  // ---- Texts pass every test ----

  predicate TextBytes(xs: seq<string>) {
    forall i :: 0 <= i < |xs| ==> Bytes(xs[i])
  }

  predicate OptBytes(o: Option<string>) {
    o.Some? ==> Bytes(o.value)
  }

  lemma TextsPass(xs: seq<string>)
    requires TextBytes(xs)
    ensures AllBytes(Texts(xs)) && Passes(List(MAX_ITEMS, Str), Texts(xs))
  {
  }

  lemma OptTextPasses(o: Option<string>)
    requires OptBytes(o)
    ensures AllBytes(OptText(o)) && Passes(Opt(Str), OptText(o))
  {
  }

  lemma OptNumPasses(width: nat, o: Option<int>)
    ensures AllBytes(OptNum(o)) && Passes(Opt(UInt(width)), OptNum(o))
  {
  }

  lemma MetadataPasses(m: Option<WireMetadata>)
    requires m.Some? ==> OptBytes(m.value.pythonVersion)
    ensures AllBytes(MetadataValue(m)) && Passes(MetadataFormat(), MetadataValue(m))
  {
    if m.Some? {
      OptTextPasses(m.value.pythonVersion);
      PassesTwo(Byte(MAX_SOURCE, true), Opt(Str), Num(m.value.source), OptText(m.value.pythonVersion));
    }
  }

  lemma ExitPasses(exit: Option<WireExit>)
    ensures AllBytes(ExitValue(exit)) && Passes(EXIT_FORMAT, ExitValue(exit))
  {
    if exit.Some? {
      PassesTwo(Flag, I32, Bool(exit.value.exitedNormally), Num(exit.value.code));
    }
  }
}
