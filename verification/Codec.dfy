/** The byte-level reader and writer objects. */
module Codec {
  import opened Basics
  import opened Wire
  import opened WireLaws
  import opened Payloads

  class Writer {
    var buffer: string

    constructor ()
      ensures buffer == []
    {
      buffer := [];
    }

    method WriteUInt(n: nat, width: nat)
      modifies this
      ensures buffer == old(buffer) + LittleEndian(n, width)
    {
      var rest := n;
      ghost var written: string := [];
      for k := 0 to width
        invariant buffer == old(buffer) + written
        invariant written + LittleEndian(rest, width - k) == LittleEndian(n, width)
      {
        var byte := (rest % 256) as char;
        assert LittleEndian(rest, width - k) == [byte] + LittleEndian(rest / 256, width - k - 1);
        assert written + ([byte] + LittleEndian(rest / 256, width - k - 1))
            == (written + [byte]) + LittleEndian(rest / 256, width - k - 1);
        assert buffer + [byte] == old(buffer) + (written + [byte]);
        buffer := buffer + [byte];
        written := written + [byte];
        rest := rest / 256;
      }
      assert written + LittleEndian(rest, 0) == written;
    }

    method WriteText(text: string, cap: nat) returns (ok: bool)
      modifies this
      ensures ok <==> EncodeText(text, cap).Some?
      ensures buffer == if ok then old(buffer) + EncodeText(text, cap).value else old(buffer)
    {
      if |text| > cap {
        return false;
      }
      WriteUInt(|text|, 4);
      assert buffer + text == old(buffer) + (LittleEndian(|text|, 4) + text);
      buffer := buffer + text;
      return true;
    }

    method WriteItems(f: Format, items: seq<Value>) returns (ok: bool)
      requires f.List? || f.ShortList?
      modifies this
      ensures ok <==> EncodeItems(f, items).Some?
      ensures ok ==> buffer == old(buffer) + EncodeItems(f, items).value
      decreases f, 0
    {
      ghost var written: string := [];
      assert items[0..] == items;
      JoinEmpty(EncodeItems(f, items));
      for k := 0 to |items|
        invariant EncodeItems(f, items) == Join(Some(written), EncodeItems(f, items[k..]))
        invariant buffer == old(buffer) + written
      {
        assert items[k..][0] == items[k] && items[k..][1..] == items[k + 1..];
        ok := Write(f.item, items[k]);
        if !ok {
          return;
        }
        ghost var one := Encode(f.item, items[k]).value;
        JoinLeft(written, one, EncodeItems(f, items[k + 1..]));
        assert old(buffer) + written + one == old(buffer) + (written + one);
        written := written + one;
      }
      assert written + [] == written;
      return true;
    }

    method WriteFields(f: Format, values: seq<Value>) returns (ok: bool)
      requires f.Record? && |f.fields| == |values|
      modifies this
      ensures ok <==> EncodeFields(f, 0, values).Some?
      ensures ok ==> buffer == old(buffer) + EncodeFields(f, 0, values).value
      decreases f, 0
    {
      ghost var written: string := [];
      JoinEmpty(EncodeFields(f, 0, values));
      for k := 0 to |values|
        invariant EncodeFields(f, 0, values) == Join(Some(written), EncodeFields(f, k, values))
        invariant buffer == old(buffer) + written
      {
        ok := Write(f.fields[k], values[k]);
        if !ok {
          return;
        }
        ghost var one := Encode(f.fields[k], values[k]).value;
        JoinLeft(written, one, EncodeFields(f, k + 1, values));
        assert old(buffer) + written + one == old(buffer) + (written + one);
        written := written + one;
      }
      assert written + [] == written;
      return true;
    }

    method Write(f: Format, v: Value) returns (ok: bool)
      modifies this
      ensures ok <==> Encode(f, v).Some?
      ensures ok ==> buffer == old(buffer) + Encode(f, v).value
      decreases f
    {
      ok := false;
      match f {
        case UInt(width) =>
          if v.Num? && 0 <= v.n < Pow256(width) {
            WriteUInt(v.n, width);
            ok := true;
          }
        case I32 =>
          if v.Num? && -I32_LIMIT <= v.n < I32_LIMIT {
            WriteUInt(if v.n < 0 then v.n + U32_LIMIT else v.n, 4);
            ok := true;
          }
        case Str =>
          if v.Text? && NulFree(v.text) {
            ok := WriteText(v.text, MAX_STRING_BYTES);
          }
        case Blob =>
          if v.Text? {
            ok := WriteText(v.text, MAX_BLOB_BYTES);
          }
        case Flag =>
          if v.Bool? {
            buffer := buffer + (if v.b then [1 as char] else [0 as char]);
            ok := true;
          }
        case Opt(g) => ok := WriteOptional(f, g, v, 0 as char, 1 as char);
        case Unless(g) => ok := WriteOptional(f, g, v, 1 as char, 0 as char);
        case List(cap, g) =>
          if v.Items? && |v.items| <= cap && |v.items| < U32_LIMIT {
            ok := WriteList(f, v.items, |v.items|, 4);
          }
        case ShortList(g) =>
          if v.Items? && |v.items| <= 256 {
            ok := WriteList(f, v.items, |v.items| % 256, 1);
          }
        case Record(fields) =>
          if v.Items? && |v.items| == |fields| {
            ok := WriteFields(f, v.items);
          }
        case Tested(g, test, error, sender) =>
          if !(sender && !test(v)) {
            ok := Write(g, v);
          }
      }
    }

    method WriteOptional(f: Format, g: Format, v: Value, absent: char, present: char) returns (ok: bool)
      requires f == Opt(g) || f == Unless(g)
      requires absent == (if f.Opt? then 0 as char else 1 as char)
        && present == (if f.Opt? then 1 as char else 0 as char)
      modifies this
      ensures ok <==> Encode(f, v).Some?
      ensures ok ==> buffer == old(buffer) + Encode(f, v).value
      decreases f, 0
    {
      ok := false;
      if v.Absent? {
        buffer := buffer + [absent];
        ok := true;
      } else if v.Present? {
        buffer := buffer + [present];
        ok := Write(g, v.v);
        if ok {
          ghost var body := Encode(g, v.v).value;
          assert old(buffer) + [present] + body == old(buffer) + ([present] + body);
        }
      }
    }

    method WriteList(f: Format, items: seq<Value>, count: nat, width: nat) returns (ok: bool)
      requires f.List? || f.ShortList?
      modifies this
      ensures ok <==> EncodeItems(f, items).Some?
      ensures ok ==> buffer == old(buffer) + (LittleEndian(count, width) + EncodeItems(f, items).value)
      decreases f, 1
    {
      WriteUInt(count, width);
      ok := WriteItems(f, items);
      if ok {
        ghost var head, body := LittleEndian(count, width), EncodeItems(f, items).value;
        assert old(buffer) + head + body == old(buffer) + (head + body);
      }
    }
  }

  lemma JoinEmpty(rest: Option<string>)
    ensures Join(Some([]), rest) == rest
  {
    if rest.Some? {
      assert [] + rest.value == rest.value;
    }
  }

  lemma JoinLeft(a: string, b: string, rest: Option<string>)
    ensures Join(Some(a), Join(Some(b), rest)) == Join(Some(a + b), rest)
  {
    if rest.Some? {
      assert a + (b + rest.value) == a + b + rest.value;
    }
  }

  class Reader {
    const data: string
    var offset: nat

    constructor (data: string)
      ensures Valid() && this.data == data && offset == 0
    {
      this.data := data;
      offset := 0;
    }

    predicate Valid()
      reads this
    {
      offset <= |data|
    }

    /** What the reader has done after a field: advanced past it, or stopped inside the data with an error. */
    ghost predicate Took(r: Result<Value, DecodeError>, goal: Decoded)
      reads this
    {
      && Valid()
      && (goal.Ok? ==> r == Ok(goal.value.v) && offset == goal.value.end)
      && (goal.Err? ==> r == Err(goal.error))
    }

    method ReadUInt(width: nat) returns (r: Result<Value, DecodeError>)
      requires Valid()
      modifies this
      ensures Took(r, DecodeUInt(width, data, old(offset)))
      ensures r.Ok? ==> r.value.Num? && r.value.n >= 0
    {
      if |data| - offset < width {
        return Err(Truncated);
      }
      var n, weight := 0, 1;
      ghost var field := data[offset..offset + width];
      for k := 0 to width
        invariant offset == old(offset)
        invariant weight == Pow256(k) && n == FromLittleEndian(field[..k])
      {
        assert field[..k + 1] == field[..k] + [field[k]];
        NextByte(field[..k], field[k]);
        n := n + weight * data[offset + k] as int;
        weight := 256 * weight;
      }
      assert field[..width] == field;
      offset := offset + width;
      return Ok(Num(n));
    }

    method ReadText(cap: nat) returns (r: Result<Value, DecodeError>)
      requires Valid()
      modifies this
      ensures Took(r, DecodeText(cap, data, old(offset)))
      ensures r.Ok? ==> r.value.Text?
    {
      var length := ReadUInt(4);
      if length.Err? {
        return length;
      }
      var n := length.value.n;
      if n > cap {
        return Err(Oversize);
      }
      if |data| - offset < n {
        return Err(Truncated);
      }
      var text := data[offset..offset + n];
      offset := offset + n;
      return Ok(Text(text));
    }

    method ReadFlag() returns (r: Result<Value, DecodeError>)
      requires Valid()
      modifies this
      ensures Took(r, DecodeFlag(data, old(offset)))
      ensures r.Ok? ==> r.value.Bool?
    {
      if offset == |data| {
        return Err(Truncated);
      }
      var byte := data[offset];
      offset := offset + 1;
      if byte > 1 as char {
        return Err(InvalidValue);
      }
      return Ok(Bool(byte == 1 as char));
    }

    method ReadItems(f: Format, n: nat) returns (r: Result<Value, DecodeError>)
      requires Valid() && (f.List? || f.ShortList?)
      modifies this
      ensures Took(r, DecodeItems(f, n, data, old(offset)))
      decreases f, 0
    {
      var items: seq<Value> := [];
      ItemsStart(f, n);
      for k := 0 to n
        invariant Valid() && |items| == k
        invariant ItemsSoFar(f, n - k, items, offset, DecodeItems(f, n, data, old(offset)))
      {
        ghost var at := offset;
        var one := ReadField(f.item);
        if one.Err? {
          return one;
        }
        ItemsNext(f, n - k, items, at, DecodeItems(f, n, data, old(offset)));
        items := items + [one.value];
      }
      assert items + [] == items;
      return Ok(Items(items));
    }

    /** `goal` is `items` followed by what is still to be read. */
    ghost predicate ItemsSoFar(f: Format, left: nat, items: seq<Value>, at: nat, goal: Decoded)
      requires at <= |data| && (f.List? || f.ShortList?)
    {
      match DecodeItems(f, left, data, at)
      case Err(e) => goal == Err(e)
      case Ok(rest) => goal == Ok(Read(Items(items + rest.v.items), rest.end))
    }

    lemma ItemsStart(f: Format, n: nat)
      requires Valid() && (f.List? || f.ShortList?)
      ensures ItemsSoFar(f, n, [], offset, DecodeItems(f, n, data, offset))
    {
      match DecodeItems(f, n, data, offset)
      case Err(_) =>
      case Ok(rest) => assert [] + rest.v.items == rest.v.items;
    }

    lemma ItemsNext(f: Format, left: nat, items: seq<Value>, at: nat, goal: Decoded)
      requires at <= |data| && (f.List? || f.ShortList?) && left > 0
      requires ItemsSoFar(f, left, items, at, goal) && Decode(f.item, data, at).Ok?
      ensures var one := Decode(f.item, data, at).value;
        ItemsSoFar(f, left - 1, items + [one.v], one.end, goal)
    {
      var one := Decode(f.item, data, at).value;
      match DecodeItems(f, left - 1, data, one.end)
      case Err(_) =>
      case Ok(rest) => assert items + ([one.v] + rest.v.items) == items + [one.v] + rest.v.items;
    }

    method ReadFields(f: Format) returns (r: Result<Value, DecodeError>)
      requires Valid() && f.Record?
      modifies this
      ensures Took(r, DecodeFields(f, 0, data, old(offset)))
      decreases f, 0
    {
      var values: seq<Value> := [];
      FieldsStart(f);
      for k := 0 to |f.fields|
        invariant Valid() && |values| == k
        invariant FieldsSoFar(f, k, values, offset, DecodeFields(f, 0, data, old(offset)))
      {
        ghost var at := offset;
        var one := ReadField(f.fields[k]);
        if one.Err? {
          return one;
        }
        FieldsNext(f, k, values, at, DecodeFields(f, 0, data, old(offset)));
        values := values + [one.value];
      }
      assert values + [] == values;
      return Ok(Items(values));
    }

    ghost predicate FieldsSoFar(f: Format, k: nat, values: seq<Value>, at: nat, goal: Decoded)
      requires at <= |data| && f.Record? && k <= |f.fields|
    {
      match DecodeFields(f, k, data, at)
      case Err(e) => goal == Err(e)
      case Ok(rest) => goal == Ok(Read(Items(values + rest.v.items), rest.end))
    }

    lemma FieldsStart(f: Format)
      requires Valid() && f.Record?
      ensures FieldsSoFar(f, 0, [], offset, DecodeFields(f, 0, data, offset))
    {
      match DecodeFields(f, 0, data, offset)
      case Err(_) =>
      case Ok(rest) => assert [] + rest.v.items == rest.v.items;
    }

    lemma FieldsNext(f: Format, k: nat, values: seq<Value>, at: nat, goal: Decoded)
      requires at <= |data| && f.Record? && k < |f.fields|
      requires FieldsSoFar(f, k, values, at, goal) && Decode(f.fields[k], data, at).Ok?
      ensures var one := Decode(f.fields[k], data, at).value;
        FieldsSoFar(f, k + 1, values + [one.v], one.end, goal)
    {
      var one := Decode(f.fields[k], data, at).value;
      match DecodeFields(f, k + 1, data, one.end)
      case Err(_) =>
      case Ok(rest) => assert values + ([one.v] + rest.v.items) == values + [one.v] + rest.v.items;
    }

    method ReadOptional(f: Format, g: Format) returns (r: Result<Value, DecodeError>)
      requires Valid() && (f == Opt(g) || f == Unless(g))
      modifies this
      ensures Took(r, Decode(f, data, old(offset)))
      decreases f, 0
    {
      var flag := ReadFlag();
      if flag.Err? {
        return flag;
      }
      if flag.value.b != f.Opt? {
        return Ok(Absent);
      }
      r := ReadField(g);
      if r.Ok? {
        r := Ok(Present(r.value));
      }
    }

    /** Reads one field of any format; never looks outside the data, whatever it holds. */
    method ReadField(f: Format) returns (r: Result<Value, DecodeError>)
      requires Valid()
      modifies this
      ensures Took(r, Decode(f, data, old(offset)))
      decreases f
    {
      match f {
        case UInt(width) => r := ReadUInt(width);
        case I32 =>
          r := ReadUInt(4);
          if r.Ok? && r.value.n >= I32_LIMIT {
            r := Ok(Num(r.value.n - U32_LIMIT));
          }
        case Str =>
          r := ReadText(MAX_STRING_BYTES);
          if r.Ok? && !NulFree(r.value.text) {
            r := Err(BadString);
          }
        case Blob => r := ReadText(MAX_BLOB_BYTES);
        case Flag => r := ReadFlag();
        case Opt(g) => r := ReadOptional(f, g);
        case Unless(g) => r := ReadOptional(f, g);
        case List(cap, g) =>
          r := ReadUInt(4);
          if r.Ok? {
            if r.value.n > cap {
              return Err(TooManyItems);
            }
            r := ReadItems(f, r.value.n);
          }
        case ShortList(g) =>
          r := ReadUInt(1);
          if r.Ok? {
            r := ReadItems(f, r.value.n);
          }
        case Record(fields) => r := ReadFields(f);
        case Tested(g, test, error, sender) =>
          r := ReadField(g);
          if r.Ok? && !test(r.value) {
            r := Err(error);
          }
      }
    }
  }

  // ---- Payloads and frames ----

  method ReadPayload(family: Family, p: string) returns (r: Result<Payload, DecodeError>)
    ensures r == DecodePayload(family, p)
  {
    if |p| > MAX_PAYLOAD_BYTES {
      return Err(Oversize);
    }
    var reader := new Reader(p);
    var version := reader.ReadUInt(1);
    if version.Err? {
      return Err(Truncated);
    }
    var kind := reader.ReadUInt(1);
    if kind.Err? {
      return Err(Truncated);
    }
    OneByte(p, 0);
    OneByte(p, 1);
    if !Speaks(family, version.value.n) {
      return Err(BadVersion);
    }
    var f := BodyFormat(family, version.value.n, kind.value.n);
    if f.None? {
      return Err(BadKind);
    }
    var body := reader.ReadField(f.value);
    if body.Err? {
      return Err(body.error);
    }
    if reader.offset != |p| {
      return Err(TrailingBytes);
    }
    return Ok(Payload(version.value.n, kind.value.n, body.value));
  }

  lemma OneByte(p: string, i: nat)
    requires i < |p|
    ensures DecodeUInt(1, p, i) == Ok(Read(Num(p[i] as int), i + 1))
  {
    assert p[i..i + 1] == [p[i]] && [p[i]][1..] == [];
    assert FromLittleEndian([p[i]]) == p[i] as int + 256 * FromLittleEndian([]);
  }

  /** A refused message leaves the output as it was. */
  method AppendFrame(family: Family, f: Format, m: Payload, out: string) returns (ok: bool, framed: string)
    ensures ok <==> EncodePayload(family, f, m).Some?
    ensures framed == if ok then out + Framed(EncodePayload(family, f, m).value) else out
  {
    if !Speaks(family, m.version) || !(0 <= m.version < 256) || !(0 <= m.kind < 256) {
      return false, out;
    }
    var writer := new Writer();
    writer.WriteUInt(m.version, 1);
    writer.WriteUInt(m.kind, 1);
    OneByteWritten(m.version);
    OneByteWritten(m.kind);
    assert writer.buffer == [m.version as char, m.kind as char];
    ok := writer.Write(f, m.body);
    if !ok || |writer.buffer| > MAX_PAYLOAD_BYTES {
      return false, out;
    }
    var frame := new Writer();
    frame.WriteUInt(|writer.buffer|, 4);
    framed := out + (frame.buffer + writer.buffer);
  }

  lemma OneByteWritten(n: int)
    requires 0 <= n < 256
    ensures LittleEndian(n, 1) == [n as char]
  {
    assert LittleEndian(n / 256, 0) == [];
  }

  /** A payload behind its length in four bytes. */
  function Framed(p: string): string {
    LittleEndian(|p|, 4) + p
  }

  /** The first frame of a stream gives back its payload and leaves the rest. */
  lemma FrameSplits(p: string, rest: string)
    requires |p| <= MAX_PAYLOAD_BYTES
    ensures var stream := Framed(p) + rest;
      && DecodeUInt(4, stream, 0) == Ok(Read(Num(|p|), 4))
      && stream[4..4 + |p|] == p && stream[4 + |p|..] == rest
  {
    var stream := Framed(p) + rest;
    assert stream == LittleEndian(|p|, 4) + (p + rest);
    FourBytes();
    ReadCount(4, |p|, p + rest, stream, 0);
  }
}
