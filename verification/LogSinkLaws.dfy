/** The log sink under any answers of the I/O layer: what each call does to the files, that every answer is used
    once, and when a rotation happens (log_sink.cpp). */
module LogSinkLaws {
  import opened Basics
  import opened LogSinks
  import L = LogStreamer

  /** Files of 4 KiB to 1 GiB, up to four rotated ones. */
  lemma ConfigMeans(c: Config)
    ensures ValidConfig(c) <==> 4096 <= c.maxBytes <= 1073741824 && 0 <= c.history <= 4
  {
  }

  // ---- Single calls ----

  /** A write adds to the current file all of the text, or, if it fails, a part of it, and counts only success. */
  lemma WriteMeans(s: State, text: string, script: Script)
    ensures var r, a := WriteChunk(s, text, script), script(s.calls);
      && r.calls == s.calls + 1 && r.disk.Keys == s.disk.Keys + {0}
      && (forall i :: i in s.disk && i != 0 ==> r.disk[i] == s.disk[i])
      && (exists n :: 0 <= n <= |text| && r.disk[0] == At(s.disk, 0) + text[..n]
                      && n == if a == Done || a.partial > |text| then |text| else a.partial)
      && r.stream == s.stream.(fileBytes := s.stream.fileBytes + (if a == Done then |text| else 0),
                               offset := s.stream.offset + (if a == Done then |text| else 0))
  {
    var a := script(s.calls);
    var n := if a == Done || a.partial > |text| then |text| else a.partial;
    assert text[..|text|] == text;
    assert WriteChunk(s, text, script).disk[0] == At(s.disk, 0) + text[..n];
  }

  /** Opening takes up the current file where it is, creates it if there is none, and may leave an empty one
      behind when it fails. */
  lemma OpenMeans(s: State, script: Script)
    ensures var r, a := OpenFile(s, script), script(s.calls);
      && r.calls == s.calls + 1 && (r.stream.open <==> a == Done) && r.stream.pendingDrop == s.stream.pendingDrop
      && (forall i :: At(r.disk, i) == At(s.disk, i))
      && r.disk.Keys == s.disk.Keys + (if a == Done || a.partial > 0 then {0} else {})
      && (a == Done ==> r.stream.fileBytes == |At(s.disk, 0)| && r.stream.offset == |At(s.disk, 0)|)
      && (a != Done ==> r.stream == s.stream.(open := false))
  {
  }

  /** A rotation asks once for each rotated file and once for the current one. */
  lemma AsideMeans(c: Config, s: State, script: Script)
    ensures var r := Aside(c, s, script);
      && r.1.calls == s.calls + (if c.history <= 1 then 1 else c.history) && r.1.stream == s.stream
      && (r.0 ==> 0 !in r.1.disk)
  {
  }

  /** The marker goes to the current file and counts as content but not as offset; only a written one is settled. */
  lemma MarkedMeans(s: State, script: Script)
    ensures var r, a := Marked(s, script), script(s.calls);
      var text := if s.stream.pendingDrop == 0 then "" else L.MarkerText(s.stream.pendingDrop);
      && r.calls == (if s.stream.pendingDrop == 0 then s.calls else s.calls + 1)
      && (s.stream.pendingDrop == 0 ==> r == s)
      && (s.stream.pendingDrop > 0 && a == Done ==>
            && At(r.disk, 0) == At(s.disk, 0) + text
            && r.stream == s.stream.(fileBytes := s.stream.fileBytes + |text|, pendingDrop := 0))
      && (s.stream.pendingDrop > 0 && a != Done ==> r.stream == s.stream)
  {
  }

  /** Before it is opened a stream takes nothing. */
  lemma FreshIsClosed(c: Config, script: Script, data: string)
    requires ValidConfig(c)
    ensures Appended(c, FRESH, script, data) == Outcome(FRESH, NotOpen, 0, 0, false)
    ensures FRESH.disk == map[] && FRESH.calls == 0 && FRESH.stream.pendingDrop == 0
  {
  }

  // ---- Whole appends depend on the answers they used, and on nothing else ----

  /** The scripts give the same answers to the calls from `i` up to `j`. */
  ghost predicate Agree(a: Script, b: Script, i: nat, j: nat) {
    forall k :: i <= k < j ==> a(k) == b(k)
  }

  lemma {:induction false} ShiftLocal(disk: Disk, a: Script, b: Script, calls: nat, i: int)
    requires Agree(a, b, calls, calls + ShiftCalls(i))
    ensures Shift(disk, a, calls, i) == Shift(disk, b, calls, i)
    decreases i
  {
    if i >= 2 {
      assert a(calls) == b(calls);
      ShiftLocal(Renamed(disk, i - 1, i, a(calls)), a, b, calls + 1, i - 1);
    }
  }

  lemma RotateLocal(c: Config, s: State, a: Script, b: Script)
    requires Agree(a, b, s.calls, Rotate(c, s, a).calls)
    ensures Rotate(c, s, a) == Rotate(c, s, b) && Rotate(c, s, a).calls > s.calls
  {
    var closed := s.(stream := s.stream.(open := false));
    AsideMeans(c, closed, a);
    AsideMeans(c, closed, b);
    var n := closed.calls + ShiftCalls(c.history);
    assert a(n) == b(n);
    if c.history > 0 {
      ShiftLocal(s.disk, a, b, s.calls, c.history);
    }
    assert Aside(c, closed, a) == Aside(c, closed, b);
    var aside := Aside(c, closed, a);
    if aside.0 {
      assert a(aside.1.calls) == b(aside.1.calls);
    }
  }

  lemma TurnLocal(c: Config, s: State, a: Script, b: Script, data: string, written: nat, rotated: bool)
    requires ValidConfig(c) && written < |data|
    requires Agree(a, b, s.calls, Turn(c, s, a, data, written, rotated).state.calls)
    ensures Turn(c, s, a, data, written, rotated) == Turn(c, s, b, data, written, rotated)
    ensures Turn(c, s, a, data, written, rotated).state.calls > s.calls
  {
    if s.stream.fileBytes >= c.maxBytes {
      RotateLocal(c, s, a, b);
    } else {
      assert a(s.calls) == b(s.calls);
    }
  }

  lemma {:induction false} LoopUses(c: Config, s: State, a: Script, data: string, written: nat, rotated: bool)
    requires ValidConfig(c) && written <= |data|
    ensures AppendFrom(c, s, a, data, written, rotated).state.calls >= s.calls
    decreases |data| - written, if s.stream.fileBytes >= c.maxBytes then 1 else 0
  {
    if written < |data| {
      var p := Turn(c, s, a, data, written, rotated);
      TurnLocal(c, s, a, a, data, written, rotated);
      if p.code == Fine {
        LoopUses(c, p.state, a, data, p.written, p.rotated);
      }
    }
  }

  lemma {:induction false} LoopLocal(c: Config, s: State, a: Script, b: Script, data: string, written: nat,
                                     rotated: bool)
    requires ValidConfig(c) && written <= |data|
    requires Agree(a, b, s.calls, AppendFrom(c, s, a, data, written, rotated).state.calls)
    ensures AppendFrom(c, s, a, data, written, rotated) == AppendFrom(c, s, b, data, written, rotated)
    decreases |data| - written, if s.stream.fileBytes >= c.maxBytes then 1 else 0
  {
    if written < |data| {
      var p := Turn(c, s, a, data, written, rotated);
      if p.code == Fine {
        LoopUses(c, p.state, a, data, p.written, p.rotated);
        TurnLocal(c, s, a, b, data, written, rotated);
        LoopLocal(c, p.state, a, b, data, p.written, p.rotated);
      } else {
        TurnLocal(c, s, a, b, data, written, rotated);
      }
    }
  }

  /** What an append comes to depends on the answers to the calls it made, each used once, and on nothing else. */
  lemma AppendLocal(c: Config, s: State, a: Script, b: Script, data: string)
    requires ValidConfig(c) && Agree(a, b, s.calls, Appended(c, s, a, data).state.calls)
    ensures Appended(c, s, a, data) == Appended(c, s, b, data)
  {
    if s.stream.open {
      var m := Marked(s, a);
      LoopUses(c, m, a, data, 0, false);
      assert s.stream.pendingDrop > 0 ==> a(s.calls) == b(s.calls);
      assert Marked(s, b) == m;
      LoopLocal(c, m, a, b, data, 0, false);
    }
  }

  // ---- Rotation ----

  lemma RotateSucceeds(c: Config, s: State, script: Script)
    requires ValidConfig(c) && NoFailure(script, s.calls) && 0 in s.disk
    ensures var r := Rotate(c, s, script); r.stream.open && 0 in r.disk && r.calls >= s.calls && r.stream.fileBytes == 0
  {
    RotateLocal(c, s, script, script);
    ShiftKeepsFirst(s.disk, script, s.calls, c.history);
  }

  lemma {:induction false} ShiftKeepsFirst(disk: Disk, script: Script, calls: nat, i: int)
    requires 0 in disk
    ensures 0 in Shift(disk, script, calls, i)
    decreases i
  {
    if i >= 2 {
      ShiftKeepsFirst(Renamed(disk, i - 1, i, script(calls)), script, calls + 1, i - 1);
    }
  }

  lemma {:induction false} LoopRotates(c: Config, s: State, script: Script, data: string, written: nat, rotated: bool)
    requires ValidConfig(c) && written <= |data| && NoFailure(script, s.calls) && 0 in s.disk
    ensures AppendFrom(c, s, script, data, written, rotated).rotated <==>
      rotated || (written < |data| && s.stream.fileBytes + (|data| - written) > c.maxBytes)
    decreases |data| - written, if s.stream.fileBytes >= c.maxBytes then 1 else 0
  {
    if written < |data| {
      var p := Turn(c, s, script, data, written, rotated);
      TurnLocal(c, s, script, script, data, written, rotated);
      if s.stream.fileBytes >= c.maxBytes {
        RotateSucceeds(c, s, script);
      } else {
        assert script(s.calls) == Done;
      }
      LoopRotates(c, p.state, script, data, p.written, p.rotated);
    }
  }

  /** Without failures an append says that it rotated exactly if the file could not hold all of it. */
  lemma RotatedExactly(c: Config, s: State, script: Script, data: string)
    requires ValidConfig(c) && s.stream.open && 0 in s.disk && NoFailure(script, s.calls)
    ensures Appended(c, s, script, data).rotated <==>
      data != [] && Marked(s, script).stream.fileBytes + |data| > c.maxBytes
  {
    LoopRotates(c, Marked(s, script), script, data, 0, false);
  }
}
