/** One stream of the log sink: bounded files, rotation and drop accounting (log_sink.cpp). */
module LogSinks {
  import opened Basics
  import L = LogStreamer

  /** `maxBytes` per file and `history` rotated files beside the current one. */
  datatype Config = Config(maxBytes: int, history: int)

  const MIN_FILE_BYTES := 4096
  const MAX_FILE_BYTES := 0x4000_0000
  const MAX_ROTATION_HISTORY := 4

  predicate ValidConfig(c: Config) {
    MIN_FILE_BYTES <= c.maxBytes <= MAX_FILE_BYTES && 0 <= c.history <= MAX_ROTATION_HISTORY
  }

  datatype Code = Fine | NotOpen | WriteFailed | RotateFailed

  /** How one I/O call ends; a failed write may leave some bytes, a failed open an empty file. */
  datatype Answer = Done | Failed(partial: nat)

  /** The answers of the I/O layer, call by call. */
  type Script = nat -> Answer

  /** The files of the stream: 0 is the current one, `i` the `i`-th rotated one. */
  type Disk = map<int, string>

  datatype Stream = Stream(open: bool, fileBytes: int, offset: int, pendingDrop: nat)

  datatype State = State(stream: Stream, disk: Disk, calls: nat)

  function At(disk: Disk, i: int): string {
    if i in disk then disk[i] else ""
  }

  // ---- I/O ----

  /** What of `text` reaches the current file. */
  function Landed(text: string, a: Answer): string {
    if a.Done? || a.partial >= |text| then text else text[..a.partial]
  }

  function WriteAll(disk: Disk, text: string, a: Answer): Disk {
    disk[0 := At(disk, 0) + Landed(text, a)]
  }

  function Renamed(disk: Disk, from: int, to: int, a: Answer): Disk {
    if a.Done? && from in disk then disk[to := disk[from]] - {from} else disk
  }

  function OpenFile(s: State, script: Script): (r: State)
    ensures r.stream.open ==> r.stream.fileBytes == r.stream.offset == |At(r.disk, 0)| && At(r.disk, 0) == At(s.disk, 0)
  {
    match script(s.calls)
    case Failed(n) => s.(calls := s.calls + 1, disk := if n > 0 then s.disk[0 := At(s.disk, 0)] else s.disk,
                         stream := s.stream.(open := false))
    case Done =>
      var size := |At(s.disk, 0)|;
      s.(calls := s.calls + 1, disk := s.disk[0 := At(s.disk, 0)],
         stream := s.stream.(open := true, fileBytes := size, offset := size))
  }

  // ---- Rotation ----

  /** Moves the rotated files one place up, the oldest first; failures are ignored. */
  function Shift(disk: Disk, script: Script, calls: nat, i: int): Disk
    decreases i
  {
    if i < 2 then disk else Shift(Renamed(disk, i - 1, i, script(calls)), script, calls + 1, i - 1)
  }

  function ShiftCalls(history: int): nat {
    if history < 2 then 0 else history - 1
  }

  /** Makes room for a new current file. */
  function Aside(c: Config, s: State, script: Script): (bool, State) {
    if c.history <= 0 then
      var gone := script(s.calls).Done?;
      (gone, s.(calls := s.calls + 1, disk := if gone then s.disk - {0} else s.disk))
    else
      var shifted := Shift(s.disk, script, s.calls, c.history);
      var n := s.calls + ShiftCalls(c.history);
      (script(n).Done? && 0 in shifted, s.(calls := n + 1, disk := Renamed(shifted, 0, 1, script(n))))
  }

  /** The stream is open afterwards exactly if the rotation succeeded. */
  function Rotate(c: Config, s: State, script: Script): (r: State)
    ensures r.stream.open ==> r.stream.fileBytes == 0 && r.stream.offset == s.stream.offset
    ensures r.stream.pendingDrop == s.stream.pendingDrop && (!r.stream.open ==> r.stream.offset == s.stream.offset)
  {
    var aside := Aside(c, s.(stream := s.stream.(open := false)), script);
    if !aside.0 then aside.1
    else
      var r := OpenFile(aside.1, script);
      r.(stream := r.stream.(offset := s.stream.offset))
  }

  // ---- Append ----

  datatype Progress = Progress(state: State, written: nat, code: Code, rotated: bool)

  function Room(c: Config, s: State, data: string, written: nat): (n: nat)
    requires s.stream.fileBytes < c.maxBytes && written < |data|
    ensures 0 < n <= |data| - written && s.stream.fileBytes + n <= c.maxBytes
  {
    if c.maxBytes - s.stream.fileBytes < |data| - written then c.maxBytes - s.stream.fileBytes else |data| - written
  }

  function WriteChunk(s: State, text: string, script: Script): State {
    s.(disk := WriteAll(s.disk, text, script(s.calls)), calls := s.calls + 1,
       stream := if script(s.calls).Done?
                 then s.stream.(fileBytes := s.stream.fileBytes + |text|, offset := s.stream.offset + |text|)
                 else s.stream)
  }

  /** One turn of the append loop: a rotation, or a write of what the file has room for. */
  function Turn(c: Config, s: State, script: Script, data: string, written: nat, rotated: bool): (p: Progress)
    requires ValidConfig(c) && written < |data|
    ensures written <= p.written <= |data|
    ensures p.code == Fine ==> p.written > written || s.stream.fileBytes >= c.maxBytes > p.state.stream.fileBytes
  {
    if s.stream.fileBytes >= c.maxBytes then
      var r := Rotate(c, s, script);
      if r.stream.open then Progress(r, written, Fine, true) else Progress(r, written, RotateFailed, rotated)
    else
      var n := Room(c, s, data, written);
      var w := WriteChunk(s, data[written..written + n], script);
      if script(s.calls).Done? then Progress(w, written + n, Fine, rotated)
        else Progress(w, written, WriteFailed, rotated)
  }

  function AppendFrom(c: Config, s: State, script: Script, data: string, written: nat, rotated: bool): Progress
    requires ValidConfig(c) && written <= |data|
    decreases |data| - written, if s.stream.fileBytes >= c.maxBytes then 1 else 0
  {
    if written == |data| then Progress(s, written, Fine, rotated)
    else
      var p := Turn(c, s, script, data, written, rotated);
      if p.code == Fine then AppendFrom(c, p.state, script, data, p.written, p.rotated) else p
  }

  /** Writes the marker of what was dropped before, if there is something to say. */
  function Marked(s: State, script: Script): State {
    if s.stream.pendingDrop == 0 then s
    else
      var text := L.MarkerText(s.stream.pendingDrop);
      s.(disk := WriteAll(s.disk, text, script(s.calls)), calls := s.calls + 1,
         stream := if script(s.calls).Done?
                   then s.stream.(fileBytes := s.stream.fileBytes + |text|, pendingDrop := 0)
                   else s.stream)
  }

  datatype Outcome = Outcome(state: State, code: Code, accepted: nat, dropped: nat, rotated: bool)

  function Appended(c: Config, s: State, script: Script, data: string): Outcome
    requires ValidConfig(c)
  {
    if !s.stream.open then Outcome(s, NotOpen, 0, 0, false)
    else
      var p := AppendFrom(c, Marked(s, script), script, data, 0, false);
      var dropped: int := |data| - p.written;
      if dropped <= 0 then Outcome(p.state, p.code, p.written, 0, p.rotated)
      else Outcome(p.state.(stream := p.state.stream.(pendingDrop := p.state.stream.pendingDrop + dropped)),
                   p.code, p.written, dropped, p.rotated)
  }

  // ---- Accounting ----

  /** What a turn, or any number of turns, makes of the stream. */
  predicate Accounted(c: Config, s: Stream, written: nat, size: nat, p: Progress) {
    var t := p.state.stream;
    && written <= p.written <= size && t.offset == s.offset + (p.written - written) && t.pendingDrop == s.pendingDrop
    && p.code != NotOpen && (p.code == RotateFailed <==> !t.open)
    && (t.fileBytes <= c.maxBytes || (t.fileBytes == s.fileBytes && p.written == written))
    && (p.code == WriteFailed ==> t.fileBytes < c.maxBytes)
  }

  lemma TurnAccounts(c: Config, s: State, script: Script, data: string, written: nat, rotated: bool)
    requires ValidConfig(c) && written < |data| && s.stream.open
    ensures Accounted(c, s.stream, written, |data|, Turn(c, s, script, data, written, rotated))
  {
  }

  lemma AccountedTwice(c: Config, s: Stream, written: nat, size: nat, p: Progress, q: Progress)
    requires Accounted(c, s, written, size, p) && Accounted(c, p.state.stream, p.written, size, q)
    ensures Accounted(c, s, written, size, q)
  {
  }

  lemma {:induction false} LoopAccounts(c: Config, s: State, script: Script, data: string, written: nat, rotated: bool)
    requires ValidConfig(c) && written <= |data| && s.stream.open
    ensures var p := AppendFrom(c, s, script, data, written, rotated);
      Accounted(c, s.stream, written, |data|, p) && (p.code == Fine <==> p.written == |data|)
    decreases |data| - written, if s.stream.fileBytes >= c.maxBytes then 1 else 0
  {
    if written < |data| {
      var p := Turn(c, s, script, data, written, rotated);
      TurnAccounts(c, s, script, data, written, rotated);
      if p.code == Fine {
        LoopAccounts(c, p.state, script, data, p.written, p.rotated);
        AccountedTwice(c, s.stream, written, |data|, p, AppendFrom(c, p.state, script, data, p.written, p.rotated));
      }
    }
  }

  /** On an open stream every byte is accepted or dropped, the offset grows by what was accepted, drops
      are owed a marker, and success means nothing was dropped; a closed stream takes nothing. */
  lemma AppendAccounts(c: Config, s: State, script: Script, data: string)
    requires ValidConfig(c)
    ensures var r := Appended(c, s, script, data);
      if !s.stream.open then r == Outcome(s, NotOpen, 0, 0, false)
      else
        && r.accepted + r.dropped == |data| && r.state.stream.offset == s.stream.offset + r.accepted
        && (r.code == Fine <==> r.dropped == 0) && (r.code == RotateFailed <==> !r.state.stream.open)
        && (r.state.stream.pendingDrop == Marked(s, script).stream.pendingDrop + r.dropped)
  {
    if s.stream.open {
      LoopAccounts(c, Marked(s, script), script, data, 0, false);
    }
  }

  /** The counted bytes of the current file pass its limit by at most one marker; a stream that owes one is
      within it. */
  predicate Bounded(c: Config, s: Stream, marker: int) {
    s.fileBytes <= c.maxBytes + marker && (s.pendingDrop > 0 && s.open ==> s.fileBytes <= c.maxBytes)
  }

  lemma AppendBounded(c: Config, s: State, script: Script, data: string, marker: int)
    requires ValidConfig(c) && Bounded(c, s.stream, marker) && |L.MarkerText(s.stream.pendingDrop)| <= marker
    ensures Bounded(c, Appended(c, s, script, data).state.stream, marker)
  {
    if s.stream.open {
      LoopAccounts(c, Marked(s, script), script, data, 0, false);
    }
  }

  /** Whatever was counted before, an append that accepts something leaves the count within the limit. */
  lemma AcceptedIsBounded(c: Config, s: State, script: Script, data: string)
    requires ValidConfig(c) && Appended(c, s, script, data).accepted > 0
    ensures Bounded(c, Appended(c, s, script, data).state.stream, 0)
  {
    LoopAccounts(c, Marked(s, script), script, data, 0, false);
  }

  // ---- The counted bytes and the file ----

  /** The stream is open and has counted every byte of its file. */
  predicate Current(s: State) {
    s.stream.open && 0 in s.disk && s.stream.fileBytes == |s.disk[0]|
  }

  /** A write keeps the count exact if and only if it succeeds or leaves nothing behind. */
  lemma WriteCounts(s: State, text: string, script: Script)
    requires Current(s)
    ensures Current(WriteChunk(s, text, script)) <==> script(s.calls).Done? || Landed(text, script(s.calls)) == ""
  {
  }

  /** From call number `calls` on, a failed write leaves no part of its text. */
  ghost predicate NoPartial(script: Script, calls: nat) {
    forall n: nat :: n >= calls && script(n).Failed? ==> script(n).partial == 0
  }

  lemma RotateCounts(c: Config, s: State, script: Script)
    ensures var r := Rotate(c, s, script); r.calls >= s.calls && (r.stream.open ==> Current(r))
  {
  }

  lemma TurnCounts(c: Config, s: State, script: Script, data: string, written: nat, rotated: bool)
    requires ValidConfig(c) && written < |data| && Current(s) && NoPartial(script, s.calls)
    ensures var p := Turn(c, s, script, data, written, rotated);
      p.state.calls >= s.calls && (p.state.stream.open ==> Current(p.state))
  {
    RotateCounts(c, s, script);
    if s.stream.fileBytes < c.maxBytes {
      WriteCounts(s, data[written..written + Room(c, s, data, written)], script);
    }
  }

  lemma {:induction false} LoopCounts(c: Config, s: State, script: Script, data: string, written: nat, rotated: bool)
    requires ValidConfig(c) && written <= |data| && Current(s) && NoPartial(script, s.calls)
    ensures var p := AppendFrom(c, s, script, data, written, rotated);
      p.state.calls >= s.calls && (p.state.stream.open ==> Current(p.state))
    decreases |data| - written, if s.stream.fileBytes >= c.maxBytes then 1 else 0
  {
    if written < |data| {
      var p := Turn(c, s, script, data, written, rotated);
      TurnCounts(c, s, script, data, written, rotated);
      TurnAccounts(c, s, script, data, written, rotated);
      if p.code == Fine {
        LoopCounts(c, p.state, script, data, p.written, p.rotated);
      }
    }
  }

  /** As long as failed writes leave nothing behind, an append leaves every byte of the file counted. */
  lemma AppendCounts(c: Config, s: State, script: Script, data: string)
    requires ValidConfig(c) && (s.stream.open ==> Current(s)) && NoPartial(script, s.calls)
    ensures var after := Appended(c, s, script, data).state;
      after.calls >= s.calls && (after.stream.open ==> Current(after))
  {
    if s.stream.open {
      LoopCounts(c, Marked(s, script), script, data, 0, false);
    }
  }

  /** Every call fails and leaves one byte: an append then adds one byte, or two if a marker is owed, and
      counts none. */
  lemma FailingAppend(c: Config, s: State)
    requires ValidConfig(c) && s.stream.open && s.stream.fileBytes < c.maxBytes && 0 in s.disk
    ensures var r := Appended(c, s, n => Failed(1), "a");
      && r.code == WriteFailed && r.state.stream == s.stream.(pendingDrop := s.stream.pendingDrop + 1)
        && 0 in r.state.disk
      && |r.state.disk[0]| == |s.disk[0]| + (if s.stream.pendingDrop > 0 then 2 else 1)
  {
    var script: Script := n => Failed(1);
    var marked := Marked(s, script);
    assert Room(c, marked, "a", 0) == 1;
    assert Turn(c, marked, script, "a", 0, false).code == WriteFailed;
  }

  /** So the file can pass its limit although the counted bytes do not. */
  lemma FileCanPass(c: Config, s: State)
    requires ValidConfig(c) && Current(s) && s.stream.fileBytes == c.maxBytes - 1 && s.stream.pendingDrop == 0
    ensures var first := Appended(c, s, n => Failed(1), "a").state;
      var after := Appended(c, first, n => Failed(1), "a").state;
      after.stream.fileBytes < c.maxBytes && 0 in after.disk && |after.disk[0]| == c.maxBytes + 2
  {
    FailingAppend(c, s);
    FailingAppend(c, Appended(c, s, n => Failed(1), "a").state);
  }

  const MARKER_BYTES := 42

  /** A marker for any 64-bit count is short. */
  lemma MarkerIsShort(n: nat)
    requires n < 0x1_0000_0000_0000_0000
    ensures |L.MarkerText(n)| <= MARKER_BYTES
  {
    TwentyDigits();
    DecimalLength(n, 20);
  }

  lemma TwentyDigits()
    ensures 0x1_0000_0000_0000_0000 <= Pow10(20)
  {
    assert Pow10(4) == 10000;
    assert Pow10(8) == 100000000;
    assert Pow10(12) == 1000000000000;
    assert Pow10(16) == 10000000000000000;
  }

  // ---- Any number of appends ----

  /** The final state, and the bytes accepted and dropped in all. */
  datatype Total = Total(state: State, accepted: nat, dropped: nat)

  function AppendAll(c: Config, s: State, script: Script, texts: seq<string>): Total
    requires ValidConfig(c)
    decreases texts
  {
    if texts == [] then Total(s, 0, 0)
    else
      var r := Appended(c, s, script, texts[0]);
      var rest := AppendAll(c, r.state, script, texts[1..]);
      Total(rest.state, r.accepted + rest.accepted, r.dropped + rest.dropped)
  }

  function Length(texts: seq<string>): nat
    decreases texts
  {
    if texts == [] then 0 else |texts[0]| + Length(texts[1..])
  }

  /** Over any run with any failures: the offset counts exactly what was accepted, every byte is accounted
      for as long as the stream is open, and the counted bytes keep the file limit. */
  lemma {:induction false} RunAccounts(c: Config, s: State, script: Script, texts: seq<string>)
    requires ValidConfig(c) && Bounded(c, s.stream, MARKER_BYTES)
    requires s.stream.pendingDrop + Length(texts) < 0x1_0000_0000_0000_0000
    ensures var t := AppendAll(c, s, script, texts);
      && t.state.stream.offset == s.stream.offset + t.accepted && Bounded(c, t.state.stream, MARKER_BYTES)
      && t.accepted + t.dropped <= Length(texts)
      && (t.state.stream.open ==> t.accepted + t.dropped == Length(texts))
    decreases texts
  {
    if texts != [] {
      AppendAccounts(c, s, script, texts[0]);
      MarkerIsShort(s.stream.pendingDrop);
      AppendBounded(c, s, script, texts[0], MARKER_BYTES);
      RunAccounts(c, Appended(c, s, script, texts[0]).state, script, texts[1..]);
      if !s.stream.open {
        ClosedStays(c, s, script, texts);
      }
    }
  }

  /** Over any run whose failed writes leave nothing behind, every byte of the file is counted, and so the file
      itself passes its limit by at most one marker. */
  lemma {:induction false} FileIsBounded(c: Config, s: State, script: Script, texts: seq<string>)
    requires ValidConfig(c) && Bounded(c, s.stream, MARKER_BYTES)
    requires s.stream.pendingDrop + Length(texts) < 0x1_0000_0000_0000_0000
    requires (s.stream.open ==> Current(s)) && NoPartial(script, s.calls)
    ensures var after := AppendAll(c, s, script, texts).state;
      after.stream.open ==> Current(after) && |after.disk[0]| <= c.maxBytes + MARKER_BYTES
    decreases texts
  {
    if texts != [] {
      AppendAccounts(c, s, script, texts[0]);
      MarkerIsShort(s.stream.pendingDrop);
      AppendBounded(c, s, script, texts[0], MARKER_BYTES);
      AppendCounts(c, s, script, texts[0]);
      FileIsBounded(c, Appended(c, s, script, texts[0]).state, script, texts[1..]);
    }
  }

  /** A closed stream takes nothing until it is opened again. */
  lemma {:induction false} ClosedStays(c: Config, s: State, script: Script, texts: seq<string>)
    requires ValidConfig(c) && !s.stream.open
    ensures AppendAll(c, s, script, texts) == Total(s, 0, 0)
    decreases texts
  {
    if texts != [] {
      ClosedStays(c, s, script, texts[1..]);
    }
  }

  // ---- What the files hold ----

  /** The rotated files from the `i`-th down to the first. */
  function Rotated(disk: Disk, i: int): string
    decreases i
  {
    if i <= 0 then "" else At(disk, i) + Rotated(disk, i - 1)
  }

  /** All files in the order they were written. */
  function Content(disk: Disk, history: int): string {
    Rotated(disk, history) + At(disk, 0)
  }

  ghost predicate NoFailure(script: Script, calls: nat) {
    forall n: nat :: n >= calls ==> script(n).Done?
  }

  predicate SameAt(a: Disk, i: int, b: Disk, j: int) {
    (i in a <==> j in b) && At(a, i) == At(b, j)
  }

  /** Where the `j`-th file comes from when the files up to the `i`-th move one place up: only the
      `i`-th can stay where it is. */
  function Source(before: Disk, i: int, j: int): int {
    if j <= 0 || j > i || (j == i && i - 1 !in before) then j else j - 1
  }

  ghost predicate Shifted(before: Disk, after: Disk, i: int) {
    1 !in after && forall j :: j != 1 ==> SameAt(after, j, before, Source(before, i, j))
  }

  lemma {:induction false} ShiftMoves(disk: Disk, script: Script, calls: nat, i: int)
    requires NoFailure(script, calls) && i >= 2
    ensures Shifted(disk, Shift(disk, script, calls, i), i)
    decreases i
  {
    var next := Renamed(disk, i - 1, i, script(calls));
    var after := Shift(disk, script, calls, i);
    if i > 2 {
      ShiftMoves(next, script, calls + 1, i - 1);
      forall j | j != 1 ensures SameAt(after, j, disk, Source(disk, i, j)) {
        assert SameAt(after, j, next, Source(next, i - 1, j));
      }
    }
  }

  lemma {:induction false} RotatedMoved(before: Disk, after: Disk, i: int, k: int)
    requires Shifted(before, after, i) && 1 <= k < i
    ensures Rotated(after, k) == Rotated(before, k - 1)
    decreases k
  {
    if k > 1 {
      RotatedMoved(before, after, i, k - 1);
      assert SameAt(after, k, before, Source(before, i, k));
    }
  }

  lemma {:induction false} RotatedJoined(before: Disk, after: Disk, k: int)
    requires k >= 1 && 1 !in before && 1 in after && after[1] == At(before, 0)
    requires forall j :: j > 1 ==> SameAt(after, j, before, j)
    ensures Rotated(after, k) == Rotated(before, k) + At(before, 0)
    decreases k
  {
    if k > 1 {
      RotatedJoined(before, after, k - 1);
      assert SameAt(after, k, before, k);
    }
  }

  /** What a rotation without failures throws away: the oldest file, unless there was room for it. */
  function Lost(disk: Disk, history: int): string {
    if history <= 0 then At(disk, 0) else if history >= 2 && history - 1 !in disk then "" else At(disk, history)
  }

  lemma ShiftContent(before: Disk, after: Disk, i: int)
    requires Shifted(before, after, i) && i >= 2
    ensures Rotated(before, i) == Lost(before, i) + Rotated(after, i)
  {
    RotatedMoved(before, after, i, i - 1);
    assert SameAt(after, i, before, Source(before, i, i));
  }

  lemma Grouped(a: string, b: string, c: string)
    ensures a + b + c == a + (b + c)
  {
  }

  lemma JoinedContent(before: Disk, shifted: Disk, h: int)
    requires Shifted(before, shifted, h) && h >= 2 && 0 in before
    ensures 0 in shifted && 0 !in Renamed(shifted, 0, 1, Done)
    ensures Content(before, h) == Lost(before, h) + Rotated(Renamed(shifted, 0, 1, Done), h)
  {
    ShiftContent(before, shifted, h);
    assert SameAt(shifted, 0, before, Source(before, h, 0));
    RotatedJoined(shifted, Renamed(shifted, 0, 1, Done), h);
    Grouped(Lost(before, h), Rotated(shifted, h), At(before, 0));
  }

  lemma AsideContent(c: Config, s: State, script: Script)
    requires ValidConfig(c) && NoFailure(script, s.calls) && 0 in s.disk
    ensures var aside := Aside(c, s, script);
      aside.0 && 0 !in aside.1.disk
        && Content(s.disk, c.history) == Lost(s.disk, c.history) + Rotated(aside.1.disk, c.history)
  {
    if c.history == 0 {
      assert "" + At(s.disk, 0) == At(s.disk, 0) == At(s.disk, 0) + "";
    } else if c.history == 1 {
      OnlyOne(s.disk);
    } else {
      var shifted := Shift(s.disk, script, s.calls, c.history);
      ShiftMoves(s.disk, script, s.calls, c.history);
      JoinedContent(s.disk, shifted, c.history);
    }
  }

  lemma OnlyOne(disk: Disk)
    requires 0 in disk
    ensures Content(disk, 1) == At(disk, 1) + Rotated(Renamed(disk, 0, 1, Done), 1)
  {
    assert At(disk, 1) + Rotated(disk, 0) == At(disk, 1);
    assert disk[0] + Rotated(Renamed(disk, 0, 1, Done), 0) == disk[0];
  }

  /** A rotation without failures succeeds and keeps everything but the oldest file. */
  lemma RotateContent(c: Config, s: State, script: Script)
    requires ValidConfig(c) && NoFailure(script, s.calls) && 0 in s.disk
    ensures var r := Rotate(c, s, script);
      && r.stream.open && 0 in r.disk && At(r.disk, 0) == "" && r.calls >= s.calls
      && Content(s.disk, c.history) == Lost(s.disk, c.history) + Content(r.disk, c.history)
  {
    var closed := s.(stream := s.stream.(open := false));
    AsideContent(c, closed, script);
    var aside := Aside(c, closed, script).1;
    SameRotated(aside.disk, aside.disk[0 := ""], c.history);
    assert Rotated(aside.disk, c.history) + "" == Rotated(aside.disk, c.history);
  }

  lemma {:induction false} SameRotated(a: Disk, b: Disk, i: int)
    requires forall j :: 1 <= j <= i ==> SameAt(a, j, b, j)
    ensures Rotated(a, i) == Rotated(b, i)
    decreases i
  {
    if i > 0 {
      SameRotated(a, b, i - 1);
      assert SameAt(a, i, b, i);
    }
  }

  // ---- Full history ----

  /** The first `n` rotated files exist, each at least as long as the limit, and no later one does. */
  predicate Packed(disk: Disk, c: Config, n: int) {
    && 0 <= n <= c.history
    && (forall j :: 1 <= j <= n ==> j in disk && c.maxBytes <= |disk[j]|)
    && (forall j :: n < j <= c.history ==> j !in disk)
  }

  lemma ShiftPacked(before: Disk, shifted: Disk, c: Config, n: int)
    requires ValidConfig(c) && c.history >= 2 && Shifted(before, shifted, c.history) && Packed(before, c, n)
    requires 0 in before && |before[0]| >= c.maxBytes
    ensures Packed(Renamed(shifted, 0, 1, Done), c, if n < c.history then n + 1 else n)
  {
    var after, h := Renamed(shifted, 0, 1, Done), c.history;
    var m := if n < h then n + 1 else n;
    assert SameAt(shifted, 0, before, Source(before, h, 0));
    forall j | 1 <= j <= m ensures j in after && c.maxBytes <= |after[j]| {
      if j > 1 {
        assert SameAt(shifted, j, before, Source(before, h, j));
      }
    }
    forall j | m < j <= h ensures j !in after {
      assert SameAt(shifted, j, before, Source(before, h, j));
    }
  }

  lemma RotatePacked(c: Config, s: State, script: Script, n: int)
    requires ValidConfig(c) && NoFailure(script, s.calls) && 0 in s.disk && |s.disk[0]| >= c.maxBytes
    requires Packed(s.disk, c, n)
    ensures Packed(Rotate(c, s, script).disk, c, if n < c.history then n + 1 else n)
  {
    RotateContent(c, s, script);
    if c.history >= 2 {
      ShiftMoves(s.disk, script, s.calls, c.history);
      ShiftPacked(s.disk, Shift(s.disk, script, s.calls, c.history), c, n);
    }
  }

  lemma {:induction false} PackedLength(disk: Disk, c: Config, n: int, i: int)
    requires Packed(disk, c, n) && 0 <= i <= n
    ensures |Rotated(disk, i)| >= i * c.maxBytes
    decreases i
  {
    if i > 0 {
      PackedLength(disk, c, n, i - 1);
      assert i * c.maxBytes == (i - 1) * c.maxBytes + c.maxBytes;
    }
  }

  // ---- What a run without failures keeps ----

  /** `held` is the end of `all`, and the whole of it if nothing had to go. */
  predicate Holds(all: string, held: string, whole: bool) {
    L.EndsWith(all, held) && (whole ==> held == all)
  }

  /** The files hold the end of `all`, and the whole of it while there is room for another rotated file. */
  predicate Keeps(c: Config, all: string, disk: Disk, n: int) {
    Packed(disk, c, n) && Holds(all, Content(disk, c.history), n < c.history)
  }

  ghost predicate Kept(c: Config, all: string, disk: Disk) {
    exists n :: Keeps(c, all, disk, n)
  }

  lemma EndOfEnd(all: string, lost: string, rest: string)
    requires L.EndsWith(all, lost + rest)
    ensures L.EndsWith(all, rest)
  {
    var k := |all| - |lost + rest|;
    assert all[k..] == lost + rest;
    assert all[k..][|lost|..] == rest;
    assert all[k + |lost|..] == rest;
  }

  lemma EndGrows(all: string, end: string, text: string)
    requires L.EndsWith(all, end)
    ensures L.EndsWith(all + text, end + text)
  {
    var k := |all| - |end|;
    assert (all + text)[k..] == all[k..] + text;
  }

  lemma RotateKeeps(c: Config, all: string, s: State, script: Script, n: int)
    requires ValidConfig(c) && NoFailure(script, s.calls) && Current(s) && s.stream.fileBytes >= c.maxBytes
    requires Keeps(c, all, s.disk, n)
    ensures Kept(c, all, Rotate(c, s, script).disk)
  {
    RotateContent(c, s, script);
    RotatePacked(c, s, script, n);
    var r, h := Rotate(c, s, script), c.history;
    EndOfEnd(all, Lost(s.disk, h), Content(r.disk, h));
    if n < h {
      assert Lost(s.disk, h) == "";
      assert "" + Content(r.disk, h) == Content(r.disk, h);
    }
    assert Keeps(c, all, r.disk, if n < h then n + 1 else n);
  }

  lemma RotateKept(c: Config, all: string, s: State, script: Script)
    requires ValidConfig(c) && NoFailure(script, s.calls) && Current(s) && s.stream.fileBytes >= c.maxBytes
    requires Kept(c, all, s.disk)
    ensures var r := Rotate(c, s, script); Kept(c, all, r.disk) && Current(r) && r.calls >= s.calls
  {
    var n :| Keeps(c, all, s.disk, n);
    RotateKeeps(c, all, s, script, n);
    RotateContent(c, s, script);
  }

  lemma ContentGrows(disk: Disk, h: int, text: string)
    ensures Content(WriteAll(disk, text, Done), h) == Content(disk, h) + text
  {
    SameRotated(disk, WriteAll(disk, text, Done), h);
    Grouped(Rotated(disk, h), At(disk, 0), text);
  }

  lemma HoldsMore(all: string, held: string, whole: bool, text: string)
    requires Holds(all, held, whole)
    ensures Holds(all + text, held + text, whole)
  {
    EndGrows(all, held, text);
  }

  /** Writing text to the current file adds it to what the files hold. */
  lemma WriteKept(c: Config, all: string, disk: Disk, text: string)
    requires Kept(c, all, disk)
    ensures Kept(c, all + text, WriteAll(disk, text, Done))
  {
    var n :| Keeps(c, all, disk, n);
    ContentGrows(disk, c.history, text);
    HoldsMore(all, Content(disk, c.history), n < c.history, text);
    assert Keeps(c, all + text, WriteAll(disk, text, Done), n);
  }

  lemma Regrouped(all: string, data: string, written: nat, n: nat)
    requires written + n <= |data|
    ensures all + data[written..written + n] + data[written + n..] == all + data[written..]
  {
    assert data[written..written + n] + data[written + n..] == data[written..];
    Grouped(all, data[written..written + n], data[written + n..]);
  }

  /** The stream is in step with its file, the files hold the end of `all`, and no failure is to come. */
  ghost predicate Good(c: Config, all: string, s: State, script: Script) {
    Current(s) && Kept(c, all, s.disk) && NoFailure(script, s.calls)
  }

  lemma RotateGood(c: Config, all: string, s: State, script: Script, r: State)
    requires ValidConfig(c) && Good(c, all, s, script) && s.stream.fileBytes >= c.maxBytes && r == Rotate(c, s, script)
    ensures Good(c, all, r, script)
  {
    RotateKept(c, all, s, script);
  }

  lemma ChunkGood(c: Config, all: string, s: State, script: Script, text: string, w: State)
    requires ValidConfig(c) && Good(c, all, s, script) && w == WriteChunk(s, text, script)
    ensures Good(c, all + text, w, script)
  {
    WriteKept(c, all, s.disk, text);
  }

  /** What rotations keep and writes extend, a whole append without failures keeps and extends. */
  lemma {:induction false} LoopExtends(
      c: Config, good: (string, State) -> bool, all: string, s: State, script: Script, data: string, written: nat,
      rotated: bool)
    requires ValidConfig(c) && written <= |data| && good(all, s)
    requires forall a: string, r: State :: good(a, r) && r.stream.fileBytes >= c.maxBytes ==>
      Rotate(c, r, script).stream.open && good(a, Rotate(c, r, script))
    requires forall a: string, r: State :: good(a, r) ==> script(r.calls).Done?
    requires forall a: string, r: State, text: string :: good(a, r) ==> good(a + text, WriteChunk(r, text, script))
    ensures var p := AppendFrom(c, s, script, data, written, rotated);
      p.code == Fine && good(all + data[written..], p.state)
    decreases |data| - written, if s.stream.fileBytes >= c.maxBytes then 1 else 0
  {
    if written == |data| {
      assert all + data[written..] == all;
    } else {
      var p := Turn(c, s, script, data, written, rotated);
      var text := data[written..p.written];
      if s.stream.fileBytes >= c.maxBytes {
        assert all + text == all;
      }
      LoopExtends(c, good, all + text, p.state, script, data, p.written, p.rotated);
      Regrouped(all, data, written, p.written - written);
    }
  }

  lemma LoopKeeps(c: Config, all: string, s: State, script: Script, data: string)
    requires ValidConfig(c) && Good(c, all, s, script)
    ensures var p := AppendFrom(c, s, script, data, 0, false); p.code == Fine && Good(c, all + data, p.state, script)
  {
    var good := (a: string, r: State) => Good(c, a, r, script);
    forall a: string, r: State | good(a, r) && r.stream.fileBytes >= c.maxBytes
      ensures Rotate(c, r, script).stream.open && good(a, Rotate(c, r, script))
    {
      RotateGood(c, a, r, script, Rotate(c, r, script));
    }
    forall a: string, r: State, text: string | good(a, r) ensures good(a + text, WriteChunk(r, text, script)) {
      ChunkGood(c, a, r, script, text, WriteChunk(r, text, script));
    }
    LoopExtends(c, good, all, s, script, data, 0, false);
    assert data[0..] == data;
  }

  /** The marker a stream owes. */
  function Owed(s: Stream): string {
    if s.pendingDrop == 0 then "" else L.MarkerText(s.pendingDrop)
  }

  lemma MarkedGood(c: Config, all: string, s: State, script: Script)
    requires ValidConfig(c) && Good(c, all, s, script)
    ensures Good(c, all + Owed(s.stream), Marked(s, script), script) && Marked(s, script).stream.pendingDrop == 0
  {
    if s.stream.pendingDrop == 0 {
      assert all + "" == all;
    } else {
      WriteKept(c, all, s.disk, Owed(s.stream));
    }
  }

  /** Without I/O failures an append accepts everything, and the files hold the end of all that was
      written, marker first. */
  lemma AppendKeeps(c: Config, all: string, s: State, script: Script, data: string)
    requires ValidConfig(c) && Good(c, all, s, script)
    ensures var r := Appended(c, s, script, data);
      && r.code == Fine && r.accepted == |data| && r.dropped == 0 && r.state.stream.pendingDrop == 0
      && Good(c, all + Owed(s.stream) + data, r.state, script)
  {
    MarkedGood(c, all, s, script);
    LoopKeeps(c, all + Owed(s.stream), Marked(s, script), script, data);
    LoopAccounts(c, Marked(s, script), script, data, 0, false);
  }

  function Joined(texts: seq<string>): string
    decreases texts
  {
    if texts == [] then "" else texts[0] + Joined(texts[1..])
  }

  /** What every append extends, a run extends. */
  lemma {:induction false} RunExtends(
      c: Config, good: (string, State) -> bool, all: string, s: State, script: Script, texts: seq<string>)
    requires ValidConfig(c) && good(all, s)
    requires forall a: string, r: State, data: string :: good(a, r) ==>
      Appended(c, r, script, data).dropped == 0 && good(a + data, Appended(c, r, script, data).state)
    ensures var t := AppendAll(c, s, script, texts); t.dropped == 0 && good(all + Joined(texts), t.state)
    decreases texts
  {
    if texts == [] {
      assert all + "" == all;
    } else {
      RunExtends(c, good, all + texts[0], Appended(c, s, script, texts[0]).state, script, texts[1..]);
      Grouped(all, texts[0], Joined(texts[1..]));
    }
  }

  /** Over any run without I/O failures. */
  lemma RunKeeps(c: Config, all: string, s: State, script: Script, texts: seq<string>)
    requires ValidConfig(c) && Good(c, all, s, script) && s.stream.pendingDrop == 0
    ensures var t := AppendAll(c, s, script, texts); t.dropped == 0 && Good(c, all + Joined(texts), t.state, script)
  {
    var good := (a: string, r: State) => Good(c, a, r, script) && r.stream.pendingDrop == 0;
    forall a: string, r: State, data: string | good(a, r)
      ensures Appended(c, r, script, data).dropped == 0 && good(a + data, Appended(c, r, script, data).state)
    {
      AppendKeeps(c, a, r, script, data);
      assert a + "" == a;
    }
    RunExtends(c, good, all, s, script, texts);
  }

  /** The files in the order .h, ..., .1, current hold the end of all that was written: everything, or at
      least the rotated files' full length. */
  lemma KeptSuffix(c: Config, all: string, disk: Disk)
    requires ValidConfig(c) && Kept(c, all, disk)
    ensures var held := Content(disk, c.history);
      L.EndsWith(all, held) && (held == all || |held| >= c.history * c.maxBytes)
  {
    var n :| Keeps(c, all, disk, n);
    PackedLength(disk, c, n, n);
  }

  const FRESH := State(Stream(false, 0, 0, 0), map[], 0)

  /** From an empty directory, without I/O failures: nothing is lost but the oldest files. */
  lemma FreshRun(c: Config, script: Script, texts: seq<string>)
    requires ValidConfig(c) && NoFailure(script, 0)
    ensures var t := AppendAll(c, OpenFile(FRESH, script), script, texts);
      var held := Content(t.state.disk, c.history);
      && t.dropped == 0 && L.EndsWith(Joined(texts), held)
      && (held == Joined(texts) || |held| >= c.history * c.maxBytes)
  {
    var s := OpenFile(FRESH, script);
    SameRotated(map[], s.disk, c.history);
    NoFiles(c.history);
    assert Keeps(c, "", s.disk, 0);
    RunKeeps(c, "", s, script, texts);
    assert "" + Joined(texts) == Joined(texts);
    KeptSuffix(c, Joined(texts), AppendAll(c, s, script, texts).state.disk);
  }

  lemma {:induction false} NoFiles(i: int)
    ensures Rotated(map[], i) == ""
    decreases i
  {
    if i > 0 {
      NoFiles(i - 1);
    }
  }

  // ---- The sink ----

  class LogSink {
    const config: Config
    const script: Script
    var open: bool
    var fileBytes: int
    var offset: int
    var pendingDrop: nat
    var disk: Disk
    var calls: nat

    function Now(): State
      reads this
    {
      State(Stream(open, fileBytes, offset, pendingDrop), disk, calls)
    }

    constructor (config: Config, script: Script, disk: Disk)
      ensures this.config == config && this.script == script && Now() == OpenFile(FRESH.(disk := disk), script)
    {
      this.config, this.script, this.disk := config, script, disk;
      open, fileBytes, offset, pendingDrop, calls := false, 0, 0, 0, 0;
      new;
      OpenStream();
    }

    /** Opens or creates the current file and resumes at its size. */
    method OpenStream()
      modifies this
      ensures Now() == OpenFile(old(Now()), script)
    {
      var a := script(calls);
      calls := calls + 1;
      match a
      case Failed(n) =>
        if n > 0 {
          disk := disk[0 := At(disk, 0)];
        }
        open := false;
      case Done =>
        disk := disk[0 := At(disk, 0)];
        open, fileBytes, offset := true, |disk[0]|, |disk[0]|;
    }

    method Rename(from: int, to: int) returns (ok: bool)
      modifies this
      ensures ok == (script(old(calls)).Done? && from in old(disk))
      ensures Now() == old(Now()).(disk := Renamed(old(disk), from, to, script(old(calls))), calls := old(calls) + 1)
    {
      ok := script(calls).Done? && from in disk;
      calls := calls + 1;
      if ok {
        disk := disk[to := disk[from]] - {from};
      }
    }

    /** Frees the name of the current file. */
    method MoveAside() returns (ok: bool)
      requires ValidConfig(config)
      modifies this
      ensures (ok, Now()) == Aside(config, old(Now()), script)
    {
      if config.history == 0 {
        ok := script(calls).Done?;
        calls := calls + 1;
        if ok {
          disk := disk - {0};
        }
      } else {
        ShiftFiles();
        ok := Rename(0, 1);
      }
    }

    method RotateStream() returns (ok: bool)
      requires ValidConfig(config)
      modifies this
      ensures Now() == Rotate(config, old(Now()), script) && ok == open
    {
      var before := offset;
      open := false;
      ok := MoveAside();
      if ok {
        OpenStream();
        ok := open;
        offset := before;
      }
    }

    method ShiftFiles()
      modifies this
      ensures Now() == old(Now()).(disk := Shift(old(disk), script, old(calls), config.history),
                                   calls := old(calls) + ShiftCalls(config.history))
    {
      var i := config.history;
      while i >= 2
        invariant i <= config.history
        invariant Now() == old(Now()).(disk := disk, calls := calls)
        invariant calls + ShiftCalls(i) == old(calls) + ShiftCalls(config.history)
        invariant Shift(disk, script, calls, i) == Shift(old(disk), script, old(calls), config.history)
      {
        var moved := Rename(i - 1, i);
        i := i - 1;
      }
    }

    /** Writes to the current file; the caller counts. */
    method Write(text: string) returns (ok: bool)
      modifies this
      ensures ok == script(old(calls)).Done?
      ensures Now() == old(Now()).(disk := WriteAll(old(disk), text, script(old(calls))), calls := old(calls) + 1)
    {
      ok := script(calls).Done?;
      disk := WriteAll(disk, text, script(calls));
      calls := calls + 1;
    }

    method WriteMarker()
      modifies this
      ensures Now() == Marked(old(Now()), script)
    {
      if pendingDrop > 0 {
        var text := L.MarkerText(pendingDrop);
        var ok := Write(text);
        if ok {
          fileBytes := fileBytes + |text|;
          pendingDrop := 0;
        }
      }
    }

    /** Writes and counts what was written. */
    method WriteNext(text: string) returns (ok: bool)
      modifies this
      ensures ok == script(old(calls)).Done? && Now() == WriteChunk(old(Now()), text, script)
    {
      ok := Write(text);
      if ok {
        fileBytes, offset := fileBytes + |text|, offset + |text|;
      }
    }

    method AppendOnce(data: string, written: nat, rotated: bool) returns (code: Code, more: nat, turned: bool)
      requires ValidConfig(config) && written < |data|
      modifies this
      ensures Progress(Now(), more, code, turned) == Turn(config, old(Now()), script, data, written, rotated)
    {
      if fileBytes >= config.maxBytes {
        var ok := RotateStream();
        if ok {
          return Fine, written, true;
        }
        return RotateFailed, written, rotated;
      }
      var n := Room(config, Now(), data, written);
      var ok := WriteNext(data[written..written + n]);
      if ok {
        return Fine, written + n, rotated;
      }
      return WriteFailed, written, rotated;
    }

    method AppendLoop(data: string) returns (code: Code, accepted: nat, rotated: bool)
      requires ValidConfig(config)
      modifies this
      ensures Progress(Now(), accepted, code, rotated) == AppendFrom(config, old(Now()), script, data, 0, false)
    {
      code, accepted, rotated := Fine, 0, false;
      while accepted < |data|
        invariant accepted <= |data| && code == Fine
        invariant AppendFrom(config, Now(), script, data, accepted, rotated) ==
          AppendFrom(config, old(Now()), script, data, 0, false)
        decreases |data| - accepted, if fileBytes >= config.maxBytes then 1 else 0
      {
        code, accepted, rotated := AppendOnce(data, accepted, rotated);
        if code != Fine {
          return;
        }
      }
    }

    method Append(data: string) returns (code: Code, accepted: nat, dropped: nat, rotated: bool)
      requires ValidConfig(config)
      modifies this
      ensures Outcome(Now(), code, accepted, dropped, rotated) == Appended(config, old(Now()), script, data)
    {
      if !open {
        return NotOpen, 0, 0, false;
      }
      WriteMarker();
      code, accepted, rotated := AppendLoop(data);
      dropped := 0;
      if accepted < |data| {
        dropped := |data| - accepted;
        pendingDrop := pendingDrop + dropped;
      }
    }
  }
}
