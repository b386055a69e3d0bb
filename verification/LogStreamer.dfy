/** The live log streams: a bounded backlog per stream and the replay plan of a new session
    (log_streamer.cpp). */
module LogStreamer {
  import opened Basics

  /** Bytes `[begin, end)` of a stream; a drop marker has text but `begin == end`. */
  datatype Chunk = Chunk(begin: int, end: int, data: string)

  datatype StreamState = StreamState(backlog: seq<Chunk>, bytes: int, offset: int, seen: bool)

  const FRESH_STREAM := StreamState([], 0, 0, false)

  // ---- Publishing ----

  /** Drops whole chunks from the old end until the rest fits the budget; the newest always stays. */
  function Trim(backlog: seq<Chunk>, bytes: int, budget: int): (seq<Chunk>, int) {
    if |backlog| > 1 && bytes > budget then Trim(backlog[1..], bytes - |backlog[0].data|, budget) else (backlog, bytes)
  }

  function Push(s: StreamState, c: Chunk, budget: int): Option<StreamState> {
    if s.seen && c.begin != s.offset then None
    else
      var trimmed := Trim(s.backlog + [c], s.bytes + |c.data|, budget);
      Some(StreamState(trimmed.0, trimmed.1, c.end, true))
  }

  datatype Publication = Data(text: string, begin: int, end: int) | Marker(offset: int, dropped: nat)

  function MarkerText(dropped: nat): (text: string)
    ensures text != []
  {
    "[yori] dropped " + Decimal(dropped) + " bytes\n"
  }

  /** The number in the marker is the number of bytes that were dropped. */
  lemma MarkerTells(dropped: nat) returns (digits: string)
    ensures MarkerText(dropped) == "[yori] dropped " + digits + " bytes\n" && Numeral(digits, dropped)
  {
    digits := Decimal(dropped);
    DecimalReads(dropped);
  }

  /** The chunk a publication stands for; data must be non-empty and span its interval exactly. */
  function ChunkOf(p: Publication): Option<Chunk> {
    match p
    case Data(text, begin, end) =>
      if text == [] || begin < 0 || begin + |text| != end then None else Some(Chunk(begin, end, text))
    case Marker(offset, dropped) => if offset < 0 then None else Some(Chunk(offset, offset, MarkerText(dropped)))
  }

  function Publish(s: StreamState, p: Publication, budget: int): Option<StreamState> {
    match ChunkOf(p)
    case None => None
    case Some(c) => Push(s, c, budget)
  }

  /** A stream and everything it has accepted so far. */
  datatype History = History(state: StreamState, published: seq<Chunk>)

  function PublishAll(h: History, ps: seq<Publication>, budget: int): History
    decreases ps
  {
    if ps == [] then h
    else
      var next := Publish(h.state, ps[0], budget);
      PublishAll(if next.Some? then History(next.value, h.published + [ChunkOf(ps[0]).value]) else h, ps[1..], budget)
  }

  // ---- What every history keeps ----

  predicate WellFormed(c: Chunk) {
    0 <= c.begin && (c.begin + |c.data| == c.end || c.begin == c.end)
  }

  predicate Joined(cs: seq<Chunk>, i: int) {
    0 < i < |cs| && cs[i - 1].end == cs[i].begin
  }

  /** Chunks that follow each other without a hole or an overlap. */
  predicate Consecutive(cs: seq<Chunk>) {
    (forall i :: 0 <= i < |cs| ==> WellFormed(cs[i])) && (forall i :: 0 < i < |cs| ==> Joined(cs, i))
  }

  function SizeOf(cs: seq<Chunk>): nat {
    if cs == [] then 0 else |cs[0].data| + SizeOf(cs[1..])
  }

  predicate SuffixAt(all: seq<Chunk>, part: seq<Chunk>, k: int) {
    0 <= k <= |all| && part == all[k..]
  }

  /** The backlog is the newest part of what was published, up to the stream's offset. */
  predicate StreamOk(h: History) {
    var s := h.state;
    && Consecutive(h.published) && SuffixAt(h.published, s.backlog, |h.published| - |s.backlog|)
    && s.bytes == SizeOf(s.backlog)
    && (s.seen <==> h.published != []) && (h.published != [] ==> s.backlog != [])
    && (h.published != [] ==> s.offset == h.published[|h.published| - 1].end)
    && (h.published == [] ==> s.offset == 0)
  }

  lemma {:induction false} SizeOfMore(cs: seq<Chunk>, c: Chunk)
    ensures SizeOf(cs + [c]) == SizeOf(cs) + |c.data|
  {
    if cs == [] {
      assert cs + [c] == [c] && [c][1..] == [];
    } else {
      assert (cs + [c])[1..] == cs[1..] + [c];
      SizeOfMore(cs[1..], c);
    }
  }

  lemma {:induction false} TrimKeeps(backlog: seq<Chunk>, bytes: int, budget: int)
    requires bytes == SizeOf(backlog)
    ensures var t := Trim(backlog, bytes, budget);
      && t.1 == SizeOf(t.0) && SuffixAt(backlog, t.0, |backlog| - |t.0|)
      && (backlog != [] ==> t.0 != []) && (|t.0| > 1 ==> t.1 <= budget)
    decreases |backlog|
  {
    if |backlog| > 1 && bytes > budget {
      TrimKeeps(backlog[1..], bytes - |backlog[0].data|, budget);
    }
  }

  lemma ConsecutiveMore(cs: seq<Chunk>, c: Chunk)
    requires Consecutive(cs) && WellFormed(c) && (cs != [] ==> cs[|cs| - 1].end == c.begin)
    ensures Consecutive(cs + [c])
  {
    forall i | 0 < i < |cs + [c]| ensures Joined(cs + [c], i) {
      assert i < |cs| ==> Joined(cs, i);
    }
  }

  lemma SuffixOfSuffix(all: seq<Chunk>, part: seq<Chunk>, rest: seq<Chunk>)
    requires SuffixAt(all, part, |all| - |part|) && SuffixAt(part, rest, |part| - |rest|)
    ensures SuffixAt(all, rest, |all| - |rest|)
  {
  }

  lemma SuffixMore(all: seq<Chunk>, part: seq<Chunk>, c: Chunk)
    requires SuffixAt(all, part, |all| - |part|)
    ensures SuffixAt(all + [c], part + [c], |all| - |part|)
  {
  }

  lemma PushedOk(published: seq<Chunk>, c: Chunk, backlog: seq<Chunk>, bytes: int)
    requires Consecutive(published + [c]) && SuffixAt(published + [c], backlog, |published| + 1 - |backlog|)
    requires bytes == SizeOf(backlog) && backlog != []
    ensures StreamOk(History(StreamState(backlog, bytes, c.end, true), published + [c]))
  {
  }

  lemma TrimmedSuffix(published: seq<Chunk>, backlog: seq<Chunk>, c: Chunk, bytes: int, budget: int)
    requires SuffixAt(published, backlog, |published| - |backlog|) && bytes == SizeOf(backlog)
    ensures var t := Trim(backlog + [c], bytes + |c.data|, budget);
      SuffixAt(published + [c], t.0, |published| + 1 - |t.0|) && t.1 == SizeOf(t.0) && t.0 != []
  {
    SizeOfMore(backlog, c);
    TrimKeeps(backlog + [c], bytes + |c.data|, budget);
    SuffixMore(published, backlog, c);
    SuffixOfSuffix(published + [c], backlog + [c], Trim(backlog + [c], bytes + |c.data|, budget).0);
  }

  lemma PushKeeps(h: History, c: Chunk, budget: int)
    requires StreamOk(h) && WellFormed(c) && Push(h.state, c, budget).Some?
    ensures StreamOk(History(Push(h.state, c, budget).value, h.published + [c]))
  {
    ConsecutiveMore(h.published, c);
    TrimmedSuffix(h.published, h.state.backlog, c, h.state.bytes, budget);
    var t := Trim(h.state.backlog + [c], h.state.bytes + |c.data|, budget);
    PushedOk(h.published, c, t.0, t.1);
  }

  lemma ChunkWellFormed(p: Publication)
    ensures ChunkOf(p).Some? ==> WellFormed(ChunkOf(p).value)
  {
  }

  /** After any publications whatever, accepted or not, the backlog is a contiguous suffix of what was
      accepted, it ends at the stream's offset, and its byte count is its size. */
  lemma {:induction false} PublishAllKeeps(h: History, ps: seq<Publication>, budget: int)
    requires StreamOk(h)
    ensures StreamOk(PublishAll(h, ps, budget))
    decreases ps
  {
    if ps != [] {
      var next := Publish(h.state, ps[0], budget);
      if next.Some? {
        ChunkWellFormed(ps[0]);
        PushKeeps(h, ChunkOf(ps[0]).value, budget);
        PublishAllKeeps(History(next.value, h.published + [ChunkOf(ps[0]).value]), ps[1..], budget);
      } else {
        PublishAllKeeps(h, ps[1..], budget);
      }
    }
  }

  // ---- Replay ----

  datatype Plan = Plan(start: int, gap: int, chunks: seq<Chunk>)

  /** The first chunk from `i` on that ends after `since`. */
  function FirstAfter(backlog: seq<Chunk>, since: int, i: nat): (k: nat)
    requires i <= |backlog|
    ensures i <= k <= |backlog|
    decreases |backlog| - i
  {
    if i == |backlog| || backlog[i].end > since then i else FirstAfter(backlog, since, i + 1)
  }

  function PlanFor(s: StreamState, since: Option<int>): Plan {
    if since.None? || since.value >= s.offset then Plan(s.offset, 0, [])
    else
      var k := FirstAfter(s.backlog, since.value, 0);
      if k == |s.backlog| then Plan(s.offset, s.offset - since.value, []) else PlanOf(since.value, s.backlog[k..])
  }

  /** What a plan promises for a starting point below the offset: it starts where the client asked, or as
      soon after as the backlog allows; its chunks are consecutive, cover the start and end at the offset. */
  ghost predicate PlanOk(h: History, since: int, p: Plan) {
    && p.start == since + p.gap && p.gap >= 0
    && p.chunks != [] && SuffixAt(h.published, p.chunks, |h.published| - |p.chunks|) && Consecutive(p.chunks)
    && p.chunks[0].begin <= p.start <= p.chunks[0].end && p.chunks[|p.chunks| - 1].end == h.state.offset
    && (p.gap > 0 ==> p.chunks == h.state.backlog && p.start == p.chunks[0].begin)
  }

  lemma ConsecutiveSuffix(all: seq<Chunk>, part: seq<Chunk>)
    requires Consecutive(all) && SuffixAt(all, part, |all| - |part|)
    ensures Consecutive(part)
  {
    var k := |all| - |part|;
    forall i | 0 < i < |part| ensures Joined(part, i) {
      assert Joined(all, k + i);
    }
  }

  lemma LastOfBacklog(h: History)
    requires StreamOk(h) && h.published != []
    ensures h.state.backlog != [] && h.state.backlog[|h.state.backlog| - 1].end == h.state.offset
    ensures Consecutive(h.state.backlog)
  {
    ConsecutiveSuffix(h.published, h.state.backlog);
  }

  lemma {:induction false} FirstIsAfter(backlog: seq<Chunk>, since: int, i: nat)
    requires i < |backlog| && since < backlog[|backlog| - 1].end
    ensures var k := FirstAfter(backlog, since, i);
      k < |backlog| && backlog[k].end > since && (i < k ==> backlog[k - 1].end <= since)
    decreases |backlog| - i
  {
    if backlog[i].end <= since {
      FirstIsAfter(backlog, since, i + 1);
    }
  }

  /** The branch for an empty window is never taken. */
  lemma WindowNeverEmpty(h: History, since: int)
    requires StreamOk(h) && 0 <= since < h.state.offset
    ensures FirstAfter(h.state.backlog, since, 0) < |h.state.backlog|
  {
    LastOfBacklog(h);
    FirstIsAfter(h.state.backlog, since, 0);
  }

  lemma Tail(cs: seq<Chunk>, k: nat, tail: seq<Chunk>)
    requires Consecutive(cs) && k < |cs| && tail == cs[k..]
    ensures SuffixAt(cs, tail, |cs| - |tail|) && Consecutive(tail) && tail[|tail| - 1] == cs[|cs| - 1]
    ensures tail[0] == cs[k] && (k > 0 ==> cs[k - 1].end == tail[0].begin) && (k == 0 ==> tail == cs)
  {
    ConsecutiveSuffix(cs, tail);
    assert k > 0 ==> Joined(cs, k);
  }

  function PlanOf(since: int, tail: seq<Chunk>): Plan
    requires tail != []
  {
    if tail[0].begin > since then Plan(tail[0].begin, tail[0].begin - since, tail) else Plan(since, 0, tail)
  }

  lemma PlanFromTail(h: History, since: int, k: nat, tail: seq<Chunk>)
    requires tail != [] && Consecutive(tail) && SuffixAt(h.published, tail, |h.published| - |tail|)
    requires tail[|tail| - 1].end == h.state.offset && tail[0].end > since
    requires if k == 0 then tail == h.state.backlog else tail[0].begin <= since
    ensures PlanOk(h, since, PlanOf(since, tail))
  {
    assert WellFormed(tail[0]);
  }

  lemma PlanFromBacklog(h: History, since: int, k: nat, tail: seq<Chunk>)
    requires var backlog := h.state.backlog;
      && Consecutive(backlog) && SuffixAt(h.published, backlog, |h.published| - |backlog|)
      && k < |backlog| && backlog[k].end > since && (0 < k ==> backlog[k - 1].end <= since)
      && backlog[|backlog| - 1].end == h.state.offset && tail == backlog[k..]
    ensures PlanOk(h, since, PlanOf(since, tail))
  {
    Tail(h.state.backlog, k, tail);
    SuffixOfSuffix(h.published, h.state.backlog, tail);
    PlanFromTail(h, since, k, tail);
  }

  /** The plan keeps its promise. */
  lemma PlanKeeps(h: History, since: int)
    requires StreamOk(h) && 0 <= since < h.state.offset
    ensures PlanOk(h, since, PlanFor(h.state, Some(since)))
  {
    LastOfBacklog(h);
    FirstIsAfter(h.state.backlog, since, 0);
    var k := FirstAfter(h.state.backlog, since, 0);
    PlanFromBacklog(h, since, k, h.state.backlog[k..]);
  }

  /** Without a starting point, or with one in the future, the session starts at the current end. */
  lemma PlanAtEnd(s: StreamState, since: Option<int>)
    requires since.Some? ==> since.value >= s.offset
    ensures PlanFor(s, since) == Plan(s.offset, 0, [])
  {
  }

  // ---- When there is something to replay ----

  /** The backlog still holds a byte behind `since`. */
  predicate HoldsByte(backlog: seq<Chunk>, since: int) {
    exists i :: 0 <= i < |backlog| && backlog[i].begin < backlog[i].end && since < backlog[i].end
  }

  lemma {:induction false} Ascends(cs: seq<Chunk>, i: nat, j: nat)
    requires Consecutive(cs) && i <= j < |cs|
    ensures cs[i].begin <= cs[j].begin && cs[i].end <= cs[j].end && cs[j].begin <= cs[j].end
    decreases j - i
  {
    assert WellFormed(cs[i]) && WellFormed(cs[j]);
    if i < j {
      Ascends(cs, i, j - 1);
      assert Joined(cs, j);
    }
  }

  /** Chunks that get ahead have one with bytes among them. */
  lemma {:induction false} SomeByte(cs: seq<Chunk>, k: nat) returns (i: nat)
    requires Consecutive(cs) && k < |cs| && cs[k].begin < cs[|cs| - 1].end
    ensures k <= i < |cs| && cs[i].begin < cs[i].end
    decreases |cs| - k
  {
    assert WellFormed(cs[k]);
    if cs[k].begin < cs[k].end {
      i := k;
    } else {
      assert Joined(cs, k + 1);
      i := SomeByte(cs, k + 1);
    }
  }

  lemma HeldIsBelow(h: History, since: int)
    requires StreamOk(h) && HoldsByte(h.state.backlog, since)
    ensures since < h.state.offset
  {
    LastOfBacklog(h);
    var i :| 0 <= i < |h.state.backlog| && h.state.backlog[i].begin < h.state.backlog[i].end
      && since < h.state.backlog[i].end;
    Ascends(h.state.backlog, i, |h.state.backlog| - 1);
  }

  lemma FirstDecides(backlog: seq<Chunk>, since: int, k: nat)
    requires Consecutive(backlog) && k < |backlog| && since < backlog[k].end
    requires 0 < k ==> backlog[k - 1].end <= since
    ensures backlog[k].begin < backlog[|backlog| - 1].end <==> HoldsByte(backlog, since)
  {
    if backlog[k].begin < backlog[|backlog| - 1].end {
      var i := SomeByte(backlog, k);
      Ascends(backlog, k, i);
    }
    if HoldsByte(backlog, since) {
      var i :| 0 <= i < |backlog| && backlog[i].begin < backlog[i].end && since < backlog[i].end;
      if i < k {
        Ascends(backlog, i, k - 1);
      } else {
        Ascends(backlog, k, i);
      }
      Ascends(backlog, i, |backlog| - 1);
    }
  }

  lemma StartsBelow(h: History, since: int, k: nat)
    requires StreamOk(h) && since < h.state.offset && k == FirstAfter(h.state.backlog, since, 0)
    requires k < |h.state.backlog|
    ensures PlanFor(h.state, Some(since)).start < h.state.offset <==> h.state.backlog[k].begin < h.state.offset
  {
  }

  /** A plan starts before the end exactly if the client asks for a byte that the backlog still holds.
      Otherwise it replays nothing, or markers only. */
  lemma StartsBeforeEnd(h: History, since: Option<int>)
    requires StreamOk(h) && (since.Some? ==> 0 <= since.value)
    ensures PlanFor(h.state, since).start < h.state.offset <==> since.Some? && HoldsByte(h.state.backlog, since.value)
  {
    if since.Some? {
      if since.value < h.state.offset {
        LastOfBacklog(h);
        FirstIsAfter(h.state.backlog, since.value, 0);
        var k := FirstAfter(h.state.backlog, since.value, 0);
        StartsBelow(h, since.value, k);
        FirstDecides(h.state.backlog, since.value, k);
      } else if HoldsByte(h.state.backlog, since.value) {
        HeldIsBelow(h, since.value);
      }
    }
  }

  lemma TrimFirst(a: Chunk, b: Chunk, bytes: int, budget: int)
    requires bytes > budget
    ensures Trim([a, b], bytes, budget) == ([b], bytes - |a.data|)
  {
    assert [a, b][1..] == [b];
  }

  lemma PublishOne(h: History, p: Publication, budget: int)
    requires Publish(h.state, p, budget).Some?
    ensures PublishAll(h, [p], budget) == History(Publish(h.state, p, budget).value, h.published + [ChunkOf(p).value])
  {
    assert [p][1..] == [];
  }

  lemma PublishFirst(h: History, p: Publication, q: Publication, budget: int)
    ensures PublishAll(h, [p, q], budget) == PublishAll(PublishAll(h, [p], budget), [q], budget)
  {
    assert [p, q][1..] == [q] && [p][1..] == [];
  }

  /** Bytes within the budget stay in the backlog. */
  lemma DataHeld(text: string, budget: int)
    requires text != []
    ensures var h := PublishAll(History(FRESH_STREAM, []), [Data(text, 0, |text|)], budget);
      h.state.offset == |text| && HoldsByte(h.state.backlog, 0)
  {
    var h := History(FRESH_STREAM, []);
    PublishOne(h, Data(text, 0, |text|), budget);
    assert PublishAll(h, [Data(text, 0, |text|)], budget).state.backlog[0] == Chunk(0, |text|, text);
  }

  /** A marker can push the last bytes out of the backlog: then a client that asks for them all gets the
      marker only, and its plan starts at the end. */
  lemma MarkerOnly(text: string, budget: int)
    requires text != [] && |text| == budget
    ensures var h := PublishAll(History(FRESH_STREAM, []), [Data(text, 0, |text|), Marker(|text|, 1)], budget);
      h.state.offset == |text|
        && PlanFor(h.state, Some(0)) == Plan(|text|, |text|, [Chunk(|text|, |text|, MarkerText(1))])
  {
    var data, marker := Chunk(0, |text|, text), Chunk(|text|, |text|, MarkerText(1));
    var h := History(FRESH_STREAM, []);
    assert [] + [data] == [data];
    assert Push(FRESH_STREAM, data, budget) == Some(StreamState([data], |text|, |text|, true));
    PublishOne(h, Data(text, 0, |text|), budget);
    var first := PublishAll(h, [Data(text, 0, |text|)], budget);
    assert [data] + [marker] == [data, marker];
    TrimFirst(data, marker, |text| + |MarkerText(1)|, budget);
    assert Push(first.state, marker, budget) == Some(StreamState([marker], |MarkerText(1)|, |text|, true));
    PublishOne(first, Marker(|text|, 1), budget);
    PublishFirst(h, Data(text, 0, |text|), Marker(|text|, 1), budget);
    assert [marker][0..] == [marker];
  }

  // ---- The bytes of a replay ----

  /** The stream's own bytes; markers carry none. */
  function TextOf(cs: seq<Chunk>): string {
    if cs == [] then "" else (if cs[0].begin < cs[0].end then cs[0].data else "") + TextOf(cs[1..])
  }

  lemma {:induction false} TextLength(cs: seq<Chunk>)
    requires Consecutive(cs) && cs != []
    ensures |TextOf(cs)| == cs[|cs| - 1].end - cs[0].begin
  {
    if |cs| == 1 {
      assert cs[1..] == [];
    } else {
      ConsecutiveSuffix(cs, cs[1..]);
      TextLength(cs[1..]);
      assert Joined(cs, 1);
    }
  }

  predicate EndsWith(text: string, end: string) {
    |end| <= |text| && text[|text| - |end|..] == end
  }

  lemma EndsWithMore(front: string, text: string, end: string)
    requires EndsWith(text, end)
    ensures EndsWith(front + text, end)
  {
  }

  lemma {:induction false} TextOfSuffix(all: seq<Chunk>, k: nat)
    requires k <= |all|
    ensures EndsWith(TextOf(all), TextOf(all[k..]))
    decreases k
  {
    if k == 0 {
      assert all[0..] == all;
    } else {
      assert all[1..][k - 1..] == all[k..];
      TextOfSuffix(all[1..], k - 1);
      EndsWithMore(if all[0].begin < all[0].end then all[0].data else "", TextOf(all[1..]), TextOf(all[k..]));
    }
  }

  /** The replayed bytes are exactly the last published ones, from the begin of the first chunk to the
      stream's offset. */
  lemma ReplayedBytes(h: History, since: int)
    requires StreamOk(h) && 0 <= since < h.state.offset
    ensures var p := PlanFor(h.state, Some(since));
      && p.chunks != [] && |TextOf(p.chunks)| == h.state.offset - p.chunks[0].begin
      && EndsWith(TextOf(h.published), TextOf(p.chunks))
  {
    PlanKeeps(h, since);
    var chunks := PlanFor(h.state, Some(since)).chunks;
    TextLength(chunks);
    TextOfSuffix(h.published, |h.published| - |chunks|);
  }

  /** After any publications, any starting point below the offset gets a plan that keeps its promise. */
  lemma AnyReplay(ps: seq<Publication>, budget: int, since: int)
    requires 0 <= since < PublishAll(History(FRESH_STREAM, []), ps, budget).state.offset
    ensures var h := PublishAll(History(FRESH_STREAM, []), ps, budget);
      StreamOk(h) && PlanOk(h, since, PlanFor(h.state, Some(since)))
  {
    PublishAllKeeps(History(FRESH_STREAM, []), ps, budget);
    PlanKeeps(PublishAll(History(FRESH_STREAM, []), ps, budget), since);
  }

  // ---- The stream object ----

  class LogStream {
    var backlog: seq<Chunk>
    var bytes: int
    var offset: int
    var seen: bool
    const budget: int

    constructor (budget: int)
      ensures this.budget == budget && State() == FRESH_STREAM
    {
      this.budget := budget;
      backlog, bytes, offset, seen := [], 0, 0, false;
    }

    function State(): StreamState
      reads this
    {
      StreamState(backlog, bytes, offset, seen)
    }

    method TrimBacklog()
      modifies `backlog, `bytes
      ensures (backlog, bytes) == Trim(old(backlog), old(bytes), budget)
    {
      while |backlog| > 1 && bytes > budget
        invariant Trim(backlog, bytes, budget) == Trim(old(backlog), old(bytes), budget)
        decreases |backlog|
      {
        bytes := bytes - |backlog[0].data|;
        backlog := backlog[1..];
      }
    }

    method PublishLocked(p: Publication) returns (accepted: bool)
      modifies this
      ensures accepted <==> Publish(old(State()), p, budget).Some?
      ensures State() == if accepted then Publish(old(State()), p, budget).value else old(State())
    {
      var c := ChunkOf(p);
      if c.None? || (seen && c.value.begin != offset) {
        return false;
      }
      seen := true;
      offset := c.value.end;
      bytes := bytes + |c.value.data|;
      backlog := backlog + [c.value];
      TrimBacklog();
      return true;
    }

    method PlanLocked(since: Option<int>) returns (plan: Plan)
      ensures plan == PlanFor(State(), since)
    {
      if since.None? || since.value >= offset {
        return Plan(offset, 0, []);
      }
      var index := 0;
      while index < |backlog| && backlog[index].end <= since.value
        invariant 0 <= index <= |backlog|
        invariant FirstAfter(backlog, since.value, 0) == FirstAfter(backlog, since.value, index)
      {
        index := index + 1;
      }
      if index >= |backlog| {
        return Plan(offset, offset - since.value, []);
      }
      plan := Plan(since.value, 0, backlog[index..]);
      if backlog[index].begin > since.value {
        plan := Plan(backlog[index].begin, backlog[index].begin - since.value, backlog[index..]);
      }
    }
  }
}
