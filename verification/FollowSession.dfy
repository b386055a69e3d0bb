/** One follow session: replay, live chunks, BACKPRESSURE and EOF (log_follow_service.cpp). */
module FollowSession {
  import opened Basics
  import opened Wire
  import opened WireLaws
  import opened Payloads
  import opened Messages
  import opened StreamFrames
  import L = LogStreamer

  type Chunk = L.Chunk

  const U64_SPAN := 0x1_0000_0000_0000_0000

  /** Where one stream of the session stands: the next replay chunk and the offset delivered live. */
  datatype Position = Position(index: nat, delivered: int)

  /** `frames` are those handed to the encoder, in order. */
  datatype Session = Session(
    positions: seq<Position>, closing: bool, eofQueued: bool, backpressure: bool, frames: seq<StreamFrame>)

  /** The plans of the two streams, fixed when the session starts. */
  type Plans = seq<L.Plan>

  function Begin(plans: Plans): Session
    requires |plans| == 2
  {
    Session([Position(0, plans[0].start), Position(0, plans[1].start)], false, false, false, [])
  }

  function DataFrame(k: int, c: Chunk): StreamFrame {
    LogData(k, c.begin, c.end, c.data)
  }

  // ---- Steps ----

  predicate Stream(k: int) {
    k == 0 || k == 1
  }

  /** Sends the next chunk of the plan. What is delivered live does not move. */
  function ReplayNext(plans: Plans, s: Session, k: int): Session
    requires |plans| == 2 && |s.positions| == 2 && Stream(k)
  {
    var at := s.positions[k];
    if s.closing || at.index >= |plans[k].chunks| then s
    else s.(frames := s.frames + [DataFrame(k, plans[k].chunks[at.index])],
            positions := s.positions[k := at.(index := at.index + 1)])
  }

  function Receive(s: Session, k: int, c: Chunk): Session
    requires |s.positions| == 2 && Stream(k)
  {
    var at := s.positions[k];
    if s.closing || c.begin < at.delivered then s
    else if c.begin > at.delivered then
      s.(backpressure := true, closing := true, frames := s.frames + [LogBackpressure(k, c.begin)])
    else
      s.(frames := s.frames + [DataFrame(k, c)], positions := s.positions[k := at.(delivered := c.end)])
  }

  function QueueEof(s: Session, state: int, exit: Option<WireExit>): Session {
    if s.closing || s.eofQueued then s
    else s.(eofQueued := true, closing := true, frames := s.frames + [LogEof(state, exit)])
  }

  function TopicClosed(s: Session): Session {
    if s.eofQueued then s else s.(closing := true)
  }

  // ---- Runs ----

  /** What waits in the session's subscription: chunks of both streams and the end of the job. */
  datatype Item = Piece(source: int, chunk: Chunk) | Finish(state: int, exit: Option<WireExit>)

  /** What happens around a session: replay makes progress; a chunk or the end of the job is published
      and the bounded queue takes or rejects it; the job is unregistered; the session drains an item; it
      finds the topic closed and the queue empty; or, for a job that had ended before, it concludes after
      the replay. */
  datatype Event =
    | Replayed(stream: int)
    | Published(source: int, chunk: Chunk, taken: bool)
    | Finished(state: int, exit: Option<WireExit>, taken: bool)
    | Unregistered
    | Drained
    | Hung
    | Concluded(state: int, exit: Option<WireExit>)

  /** The session, its queue, how far the streams have been published, and whether the topic is closed. */
  datatype World = World(session: Session, queue: seq<Item>, ends: seq<int>, finished: bool)

  predicate Shaped(plans: Plans, w: World) {
    |plans| == 2 && |w.session.positions| == 2 && |w.ends| == 2
  }

  predicate ReplayDone(plans: Plans, s: Session)
    requires |plans| == 2 && |s.positions| == 2
  {
    s.positions[0].index >= |plans[0].chunks| && s.positions[1].index >= |plans[1].chunks|
  }

  /** A chunk of bytes at offsets of 64 bits. */
  predicate Typed(c: Chunk) {
    L.WellFormed(c) && c.begin <= c.end < U64_SPAN && Bytes(c.data)
  }

  predicate Small(c: Chunk) {
    |c.data| <= MAX_STREAM_DATA_BYTES
  }

  /** A chunk that a frame can carry. */
  predicate Carried(c: Chunk) {
    Typed(c) && Small(c)
  }

  /** Nothing is published once the topic is closed, and it is closed once. */
  predicate Possible(plans: Plans, w: World, e: Event)
    requires Shaped(plans, w)
  {
    match e
    case Replayed(k) => Stream(k)
    case Published(k, _, _) => Stream(k) && !w.finished
    case Finished(_, _, _) => !w.finished
    case Unregistered => !w.finished
    case Drained => w.queue != [] && (w.queue[0].Piece? ==> Stream(w.queue[0].source))
    case Hung => w.queue == [] && w.finished
    case Concluded(_, _) => w.finished && ReplayDone(plans, w.session)
  }

  function Drain(s: Session, item: Item): Session
    requires |s.positions| == 2 && (item.Piece? ==> Stream(item.source))
  {
    match item
    case Piece(k, c) => Receive(s, k, c)
    case Finish(state, exit) => QueueEof(s, state, exit)
  }

  function Offer(queue: seq<Item>, item: Item, taken: bool): seq<Item> {
    if taken then queue + [item] else queue
  }

  function Step(plans: Plans, w: World, e: Event): World
    requires Shaped(plans, w) && Possible(plans, w, e)
  {
    match e
    case Replayed(k) => w.(session := ReplayNext(plans, w.session, k))
    case Published(k, c, taken) => w.(queue := Offer(w.queue, Piece(k, c), taken), ends := w.ends[k := c.end])
    case Finished(state, exit, taken) => w.(queue := Offer(w.queue, Finish(state, exit), taken), finished := true)
    case Unregistered => w.(finished := true)
    case Drained => w.(session := Drain(w.session, w.queue[0]), queue := w.queue[1..])
    case Hung => w.(session := TopicClosed(w.session))
    case Concluded(state, exit) => w.(session := QueueEof(w.session, state, exit))
  }

  predicate AllPossible(plans: Plans, w: World, events: seq<Event>)
    requires Shaped(plans, w)
    decreases events
  {
    events == [] || (Possible(plans, w, events[0]) && AllPossible(plans, Step(plans, w, events[0]), events[1..]))
  }

  function Steps(plans: Plans, w: World, events: seq<Event>): (r: World)
    requires Shaped(plans, w) && AllPossible(plans, w, events)
    ensures Shaped(plans, r)
    decreases events
  {
    if events == [] then w else Steps(plans, Step(plans, w, events[0]), events[1..])
  }

  /** `c` can come next on stream `k`: only a stream's first chunk can leave out offsets. */
  predicate Next(ends: seq<int>, k: int, c: Chunk)
    requires |ends| == 2
  {
    Stream(k) && ends[k] <= c.begin && Typed(c)
  }

  /** Chunks are published one behind the other, from `ends` on. */
  predicate Fed(events: seq<Event>, ends: seq<int>)
    requires |ends| == 2
    decreases events
  {
    if events == [] then true
    else match events[0]
      case Published(k, c, _) => Next(ends, k, c) && Fed(events[1..], ends[k := c.end])
      case _ => Fed(events[1..], ends)
  }

  /** The chunks of stream `k` that are published in a run, in order. */
  function Live(events: seq<Event>, k: int): seq<Chunk>
    decreases events
  {
    if events == [] then []
    else if events[0].Published? && events[0].source == k then [events[0].chunk] + Live(events[1..], k)
    else Live(events[1..], k)
  }

  /** Chunks one behind the other, from `from` on. */
  predicate Chained(cs: seq<Chunk>, from: int)
    decreases cs
  {
    cs == [] || (from <= cs[0].begin && Typed(cs[0]) && Chained(cs[1..], cs[0].end))
  }

  /** A run is fed in order exactly if the chunks of each stream come one behind the other. */
  lemma {:induction false} FedIsChained(plans: Plans, w: World, events: seq<Event>, ends: seq<int>)
    requires Shaped(plans, w) && AllPossible(plans, w, events) && |ends| == 2
    ensures Fed(events, ends) <==> Chained(Live(events, 0), ends[0]) && Chained(Live(events, 1), ends[1])
    decreases events
  {
    if events != [] {
      var rest := if events[0].Published? then ends[events[0].source := events[0].chunk.end] else ends;
      FedIsChained(plans, Step(plans, w, events[0]), events[1..], rest);
    }
  }

  // ---- What the client sees ----

  predicate Carries(f: StreamFrame, k: int) {
    f.LogData? && f.stream == k && f.begin < f.end
  }

  /** The bytes of stream `k` in `frames`: its DATA frames that are not mere markers. */
  function Counted(frames: seq<StreamFrame>, k: int): seq<Chunk> {
    if frames == [] then []
    else
      var f, before := frames[|frames| - 1], Counted(frames[..|frames| - 1], k);
      if Carries(f, k) then before + [L.Chunk(f.begin, f.end, f.data)] else before
  }

  /** The frames that go out: one the encoder refuses is not sent, and nobody is told. */
  function Going(frames: seq<StreamFrame>): seq<StreamFrame> {
    if frames == [] then []
    else
      var f, before := frames[|frames| - 1], Going(frames[..|frames| - 1]);
      if EncodeFrame(f).Some? then before + [f] else before
  }

  /** The bytes of stream `k` that were sent. */
  function Sent(frames: seq<StreamFrame>, k: int): seq<Chunk> {
    Counted(Going(frames), k)
  }

  /** The chunks that carry bytes. */
  function Advancing(cs: seq<Chunk>): seq<Chunk> {
    if cs == [] then []
    else
      var c, before := cs[|cs| - 1], Advancing(cs[..|cs| - 1]);
      if c.begin < c.end then before + [c] else before
  }

  /** The chunks within the frame limit. */
  function Fitting(cs: seq<Chunk>): seq<Chunk> {
    if cs == [] then []
    else
      var c, before := cs[|cs| - 1], Fitting(cs[..|cs| - 1]);
      if Small(c) then before + [c] else before
  }

  lemma CountedMore(frames: seq<StreamFrame>, f: StreamFrame, k: int)
    ensures Counted(frames + [f], k) ==
      if Carries(f, k) then Counted(frames, k) + [L.Chunk(f.begin, f.end, f.data)] else Counted(frames, k)
  {
    assert (frames + [f])[..|frames|] == frames;
  }

  lemma GoingMore(frames: seq<StreamFrame>, f: StreamFrame)
    ensures Going(frames + [f]) == if EncodeFrame(f).Some? then Going(frames) + [f] else Going(frames)
  {
    assert (frames + [f])[..|frames|] == frames;
  }

  lemma AdvancingMore(cs: seq<Chunk>, c: Chunk)
    ensures Advancing(cs + [c]) == if c.begin < c.end then Advancing(cs) + [c] else Advancing(cs)
  {
    assert (cs + [c])[..|cs|] == cs;
  }

  lemma FittingMore(cs: seq<Chunk>, c: Chunk)
    ensures Fitting(cs + [c]) == if Small(c) then Fitting(cs) + [c] else Fitting(cs)
  {
    assert (cs + [c])[..|cs|] == cs;
  }

  lemma DataEncodes(k: int, c: Chunk)
    requires Stream(k) && Carried(c)
    ensures EncodeFrame(DataFrame(k, c)).Some? && |EncodeFrame(DataFrame(k, c)).value| <= 23 + |c.data|
  {
    EightBytes();
    var span := Items([Num(k), Num(c.begin), Num(c.end)]);
    ThreeFit(UInt(1), UInt(8), UInt(8), Num(k), Num(c.begin), Num(c.end));
    assert Fits(SpanFormat(), span);
    EncodeThree(UInt(1), UInt(8), UInt(8), Num(k), Num(c.begin), Num(c.end));
    DataEncoded(span, c.data);
  }

  lemma EightBytes()
    ensures Pow256(1) == 256 && Pow256(8) == U64_SPAN
  {
    assert Pow256(4) == 0x1_0000_0000;
    assert Pow256(6) == 0x1_0000_0000_0000;
  }

  lemma DataEncoded(span: Value, data: string)
    requires Fits(SpanFormat(), span) && |data| <= MAX_STREAM_DATA_BYTES && Bytes(data)
    requires Encode(SpanFormat(), span).Some? && |Encode(SpanFormat(), span).value| <= 17
    ensures var e := Encode(FrameFormat(STREAM_VERSION, 1).value, Items([span, Text(data)]));
      e.Some? && |e.value| <= 21 + |data|
  {
    var blob := Tested(Blob, DataOk, Oversize, true);
    assert DataOk(Text(data));
    assert Encode(Blob, Text(data)) == Some(LittleEndian(|data|, 4) + data);
    assert Encode(blob, Text(data)) == Encode(Blob, Text(data));
    TwoEncode(SpanFormat(), blob, span, Text(data));
  }

  lemma TwoEncode(a: Format, b: Format, x: Value, y: Value)
    requires Encode(a, x).Some? && Encode(b, y).Some?
    ensures var e := Encode(Record([a, b]), Items([x, y]));
      e.Some? && |e.value| == |Encode(a, x).value| + |Encode(b, y).value|
  {
    TwoFields(Record([a, b]), [x, y]);
  }

  lemma TwoFields(f: Format, values: seq<Value>)
    requires f.Record? && |f.fields| == |values| == 2
    ensures Encode(f, Items(values)) ==
      Join(Encode(f.fields[0], values[0]), Join(Encode(f.fields[1], values[1]), Some([])))
  {
    assert EncodeFields(f, 1, values) == Join(Encode(f.fields[1], values[1]), EncodeFields(f, 2, values));
  }

  lemma OversizeRefused(k: int, c: Chunk)
    requires |c.data| > MAX_STREAM_DATA_BYTES
    ensures EncodeFrame(DataFrame(k, c)).None?
  {
    var blob := Tested(Blob, DataOk, Oversize, true);
    assert !DataOk(Text(c.data));
    assert Encode(blob, Text(c.data)).None?;
    TwoFields(Record([SpanFormat(), blob]), [Items([Num(k), Num(c.begin), Num(c.end)]), Text(c.data)]);
  }

  /** A DATA frame is encoded exactly if its chunk is within the frame limit. */
  lemma DataGoes(k: int, c: Chunk)
    requires Stream(k) && Typed(c)
    ensures EncodeFrame(DataFrame(k, c)).Some? <==> Small(c)
  {
    if Small(c) {
      DataEncodes(k, c);
    } else {
      OversizeRefused(k, c);
    }
  }

  /** Exactly the counted chunks within the frame limit were sent. */
  predicate Matched(frames: seq<StreamFrame>, k: int) {
    Sent(frames, k) == Fitting(Counted(frames, k))
  }

  lemma DataMatched(frames: seq<StreamFrame>, k: int, c: Chunk)
    requires Matched(frames, k) && Stream(k) && Typed(c)
    ensures Matched(frames + [DataFrame(k, c)], k)
  {
    var f := DataFrame(k, c);
    DataGoes(k, c);
    GoingMore(frames, f);
    CountedMore(frames, f, k);
    CountedMore(Going(frames), f, k);
    FittingMore(Counted(frames, k), c);
  }

  lemma OtherMatched(frames: seq<StreamFrame>, k: int, f: StreamFrame)
    requires Matched(frames, k) && !Carries(f, k)
    ensures Matched(frames + [f], k) && Counted(frames + [f], k) == Counted(frames, k)
  {
    GoingMore(frames, f);
    CountedMore(frames, f, k);
    CountedMore(Going(frames), f, k);
  }

  // ---- Contiguity ----

  /** `cs` covers `[from, to)` without a hole or an overlap. */
  predicate Contiguous(cs: seq<Chunk>, from: int, to: int) {
    if cs == [] then from == to
    else cs[|cs| - 1].end == to && Contiguous(cs[..|cs| - 1], from, cs[|cs| - 1].begin)
  }

  /** `cs` covers some stretch from `from` on. */
  ghost predicate Whole(cs: seq<Chunk>, from: int) {
    exists to :: Contiguous(cs, from, to)
  }

  /** That stretch ends at or before `limit`. */
  ghost predicate WholeBefore(cs: seq<Chunk>, from: int, limit: int) {
    exists to :: to <= limit && Contiguous(cs, from, to)
  }

  lemma ContiguousMore(cs: seq<Chunk>, from: int, c: Chunk)
    requires Contiguous(cs, from, c.begin)
    ensures Contiguous(cs + [c], from, c.end)
  {
    assert (cs + [c])[..|cs|] == cs;
  }

  /** A plan that ends where the stream stood when the session started. */
  predicate PlanFits(p: L.Plan, from: int) {
    && 0 <= from < U64_SPAN && p.start <= from
    && (p.chunks == [] ==> p.start == from)
    && (p.chunks != [] ==>
          && L.Consecutive(p.chunks) && p.chunks[|p.chunks| - 1].end == from && p.chunks[0].begin <= p.start
          && (p.start == from ==> p.chunks[0].begin == from))
    && forall i :: 0 <= i < |p.chunks| ==> Typed(p.chunks[i])
  }

  function EndOf(p: L.Plan, i: nat): int
    requires p.chunks != [] && i <= |p.chunks|
  {
    if i == 0 then p.chunks[0].begin else p.chunks[i - 1].end
  }

  lemma AdvancingContiguous(before: seq<Chunk>, origin: int, c: Chunk)
    requires Contiguous(Advancing(before), origin, c.begin) && c.begin <= c.end
    ensures Contiguous(Advancing(before + [c]), origin, c.end)
  {
    AdvancingMore(before, c);
    if c.begin < c.end {
      ContiguousMore(Advancing(before), origin, c);
    }
  }

  lemma {:induction false} ReplayContiguous(p: L.Plan, from: int, i: nat)
    requires PlanFits(p, from) && p.chunks != [] && i <= |p.chunks|
    ensures Contiguous(Advancing(p.chunks[..i]), p.chunks[0].begin, EndOf(p, i)) && p.chunks[0].begin <= EndOf(p, i)
  {
    if i > 0 {
      ReplayContiguous(p, from, i - 1);
      var c := p.chunks[i - 1];
      assert p.chunks[..i] == p.chunks[..i - 1] + [c];
      assert Typed(c);
      assert i > 1 ==> L.Joined(p.chunks, i - 1);
      AdvancingContiguous(p.chunks[..i - 1], p.chunks[0].begin, c);
    }
  }

  lemma {:induction false} EndsGrow(p: L.Plan, from: int, i: nat)
    requires PlanFits(p, from) && p.chunks != [] && i <= |p.chunks|
    ensures EndOf(p, i) <= from
    decreases |p.chunks| - i
  {
    if i < |p.chunks| {
      EndsGrow(p, from, i + 1);
      assert Typed(p.chunks[i]);
      assert i > 0 ==> L.Joined(p.chunks, i);
    }
  }

  /** A plan that starts at the end has only markers to replay. */
  lemma {:induction false} OnlyMarkers(p: L.Plan, from: int, i: nat)
    requires PlanFits(p, from) && p.start == from && i <= |p.chunks|
    ensures Advancing(p.chunks[..i]) == []
  {
    if i > 0 {
      OnlyMarkers(p, from, i - 1);
      var c := p.chunks[i - 1];
      assert p.chunks[..i] == p.chunks[..i - 1] + [c];
      AdvancingMore(p.chunks[..i - 1], c);
      ReplayContiguous(p, from, i - 1);
      EndsGrow(p, from, i);
      assert i > 1 ==> L.Joined(p.chunks, i - 1);
    }
  }

  // ---- The invariant of one stream ----

  predicate StreamInv(p: L.Plan, from: int, k: int, at: Position, frames: seq<StreamFrame>) {
    && at.index <= |p.chunks| && Matched(frames, k)
    && (if p.start < from then at.delivered == p.start && Counted(frames, k) == Advancing(p.chunks[..at.index])
        else from <= at.delivered && Contiguous(Counted(frames, k), from, at.delivered))
  }

  /** Where the bytes sent on a stream begin. */
  function Origin(p: L.Plan, from: int): int {
    if p.start < from && p.chunks != [] then p.chunks[0].begin else from
  }

  lemma CountedIsContiguous(p: L.Plan, from: int, k: int, at: Position, frames: seq<StreamFrame>)
    requires PlanFits(p, from) && StreamInv(p, from, k, at, frames)
    ensures Whole(Counted(frames, k), Origin(p, from))
  {
    if p.start < from {
      ReplayContiguous(p, from, at.index);
      assert Contiguous(Counted(frames, k), Origin(p, from), EndOf(p, at.index));
    } else {
      assert Contiguous(Counted(frames, k), Origin(p, from), at.delivered);
    }
  }

  lemma OtherKeeps(p: L.Plan, from: int, k: int, at: Position, frames: seq<StreamFrame>, f: StreamFrame)
    requires StreamInv(p, from, k, at, frames) && (f.LogData? ==> f.stream != k)
    ensures StreamInv(p, from, k, at, frames + [f])
  {
    OtherMatched(frames, k, f);
  }

  lemma ReplayKeeps(p: L.Plan, from: int, k: int, at: Position, frames: seq<StreamFrame>)
    requires PlanFits(p, from) && Stream(k) && StreamInv(p, from, k, at, frames) && at.index < |p.chunks|
    ensures StreamInv(p, from, k, at.(index := at.index + 1), frames + [DataFrame(k, p.chunks[at.index])])
  {
    var c := p.chunks[at.index];
    DataMatched(frames, k, c);
    CountedMore(frames, DataFrame(k, c), k);
    assert p.chunks[..at.index + 1] == p.chunks[..at.index] + [c];
    AdvancingMore(p.chunks[..at.index], c);
    if p.start == from {
      OnlyMarkers(p, from, at.index);
      OnlyMarkers(p, from, at.index + 1);
    }
  }

  lemma LiveKeeps(p: L.Plan, from: int, k: int, at: Position, frames: seq<StreamFrame>, c: Chunk)
    requires PlanFits(p, from) && Stream(k) && Typed(c)
    requires StreamInv(p, from, k, at, frames) && from <= c.begin == at.delivered
    ensures StreamInv(p, from, k, at.(delivered := c.end), frames + [DataFrame(k, c)])
  {
    DataMatched(frames, k, c);
    CountedMore(frames, DataFrame(k, c), k);
    if c.begin < c.end {
      ContiguousMore(Counted(frames, k), from, c);
    }
  }

  // ---- The queue ----

  /** The chunks of stream `k` that wait lie one after the other between `low` and `end`. */
  predicate Ordered(queue: seq<Item>, k: int, low: int, end: int) {
    if queue == [] then low <= end
    else match queue[0]
      case Piece(j, c) =>
        Stream(j) && Typed(c) && Ordered(queue[1..], k, if j == k then c.end else low, end)
          && (j == k ==> low <= c.begin)
      case Finish(_, _) => Ordered(queue[1..], k, low, end)
  }

  lemma {:induction false} OrderedLower(queue: seq<Item>, k: int, low: int, lower: int, end: int)
    requires Ordered(queue, k, low, end) && lower <= low
    ensures Ordered(queue, k, lower, end)
  {
    if queue != [] && !(queue[0].Piece? && queue[0].source == k) {
      OrderedLower(queue[1..], k, low, lower, end);
    }
  }

  lemma {:induction false} OrderedOffer(queue: seq<Item>, k: int, low: int, end: int, item: Item, taken: bool,
                                        further: int)
    requires Ordered(queue, k, low, end) && end <= further
    requires item.Piece? ==> Stream(item.source) && Typed(item.chunk)
    requires item.Piece? && item.source == k ==> end <= item.chunk.begin && item.chunk.end == further
    ensures Ordered(Offer(queue, item, taken), k, low, further)
    decreases queue
  {
    if queue == [] {
      assert [item][1..] == [];
      assert Ordered([], k, further, further);
      assert [] + [item] == [item];
    } else {
      var next := if queue[0].Piece? && queue[0].source == k then queue[0].chunk.end else low;
      OrderedOffer(queue[1..], k, next, end, item, taken, further);
      assert (queue + [item])[1..] == queue[1..] + [item];
    }
  }

  lemma {:induction false} OrderedEnds(queue: seq<Item>, k: int, low: int, end: int, i: nat)
    requires Ordered(queue, k, low, end)
    ensures low <= end
    ensures i < |queue| && queue[i].Piece? && queue[i].source == k ==> queue[i].chunk.end <= end
    decreases queue
  {
    if queue != [] {
      var next := if queue[0].Piece? && queue[0].source == k then queue[0].chunk.end else low;
      OrderedEnds(queue[1..], k, next, end, if i > 0 then i - 1 else 0);
    }
  }

  // ---- The whole session ----

  /** Below this offset nothing waits: what was delivered, and what had been published at the start. */
  function Low(from: int, at: Position): int {
    if from < at.delivered then at.delivered else from
  }

  predicate StreamOk(p: L.Plan, from: int, k: int, at: Position, frames: seq<StreamFrame>, queue: seq<Item>, end: int) {
    PlanFits(p, from) && StreamInv(p, from, k, at, frames) && Ordered(queue, k, Low(from, at), end) && end < U64_SPAN
  }

  predicate Follows(plans: Plans, froms: seq<int>, w: World, k: int)
    requires Shaped(plans, w) && |froms| == 2 && Stream(k)
  {
    StreamOk(plans[k], froms[k], k, w.session.positions[k], w.session.frames, w.queue, w.ends[k])
  }

  predicate SessionInv(plans: Plans, froms: seq<int>, w: World) {
    Shaped(plans, w) && |froms| == 2 && Follows(plans, froms, w, 0) && Follows(plans, froms, w, 1)
  }

  lemma ReplayOk(p: L.Plan, from: int, k: int, at: Position, frames: seq<StreamFrame>, queue: seq<Item>, end: int)
    requires StreamOk(p, from, k, at, frames, queue, end) && Stream(k) && at.index < |p.chunks|
    ensures StreamOk(p, from, k, at.(index := at.index + 1), frames + [DataFrame(k, p.chunks[at.index])], queue, end)
  {
    ReplayKeeps(p, from, k, at, frames);
  }

  lemma OtherOk(p: L.Plan, from: int, k: int, at: Position, frames: seq<StreamFrame>, queue: seq<Item>, end: int,
                f: StreamFrame)
    requires StreamOk(p, from, k, at, frames, queue, end) && (f.LogData? ==> f.stream != k)
    ensures StreamOk(p, from, k, at, frames + [f], queue, end)
  {
    OtherKeeps(p, from, k, at, frames, f);
  }

  lemma ReplaySame(plans: Plans, froms: seq<int>, w: World, k: int)
    requires Shaped(plans, w) && |froms| == 2 && Stream(k) && Follows(plans, froms, w, k)
    ensures Follows(plans, froms, w.(session := ReplayNext(plans, w.session, k)), k)
  {
    var s := w.session;
    if !s.closing && s.positions[k].index < |plans[k].chunks| {
      ReplayOk(plans[k], froms[k], k, s.positions[k], s.frames, w.queue, w.ends[k]);
    }
  }

  lemma ReplayOther(plans: Plans, froms: seq<int>, w: World, k: int, j: int)
    requires Shaped(plans, w) && |froms| == 2 && Stream(k) && j == 1 - k && Follows(plans, froms, w, j)
    ensures Follows(plans, froms, w.(session := ReplayNext(plans, w.session, k)), j)
  {
    var s := w.session;
    if !s.closing && s.positions[k].index < |plans[k].chunks| {
      OtherOk(plans[j], froms[j], j, s.positions[j], s.frames, w.queue, w.ends[j],
              DataFrame(k, plans[k].chunks[s.positions[k].index]));
    }
  }

  lemma OfferStep(plans: Plans, froms: seq<int>, w: World, item: Item, taken: bool, ends: seq<int>, finished: bool)
    requires SessionInv(plans, froms, w) && |ends| == 2
    requires item.Piece? ==> Next(w.ends, item.source, item.chunk)
    requires ends == if item.Piece? then w.ends[item.source := item.chunk.end] else w.ends
    ensures SessionInv(plans, froms, w.(queue := Offer(w.queue, item, taken), ends := ends, finished := finished))
  {
    OrderedOffer(w.queue, 0, Low(froms[0], w.session.positions[0]), w.ends[0], item, taken, ends[0]);
    OrderedOffer(w.queue, 1, Low(froms[1], w.session.positions[1]), w.ends[1], item, taken, ends[1]);
  }

  lemma ReceiveStep(p: L.Plan, from: int, k: int, at: Position, frames: seq<StreamFrame>, queue: seq<Item>, end: int,
                    c: Chunk)
    requires StreamOk(p, from, k, at, frames, queue, end) && queue != [] && queue[0] == Piece(k, c) && Stream(k)
    ensures at.delivered <= c.begin
    ensures c.begin == at.delivered ==>
      StreamOk(p, from, k, at.(delivered := c.end), frames + [DataFrame(k, c)], queue[1..], end)
    ensures StreamOk(p, from, k, at, frames + [LogBackpressure(k, c.begin)], queue[1..], end)
    ensures StreamOk(p, from, k, at, frames, queue[1..], end)
  {
    OrderedLower(queue[1..], k, c.end, Low(from, at), end);
    OtherKeeps(p, from, k, at, frames, LogBackpressure(k, c.begin));
    if c.begin == at.delivered {
      LiveKeeps(p, from, k, at, frames, c);
    }
  }

  /** A frame that is not DATA of stream `k`, or the drain of an item that is not its chunk. */
  lemma SkipStep(p: L.Plan, from: int, k: int, at: Position, frames: seq<StreamFrame>, queue: seq<Item>, end: int,
                 f: StreamFrame)
    requires StreamOk(p, from, k, at, frames, queue, end) && queue != [] && !(queue[0].Piece? && queue[0].source == k)
    requires f.LogData? ==> f.stream != k
    ensures StreamOk(p, from, k, at, frames + [f], queue[1..], end)
      && StreamOk(p, from, k, at, frames, queue[1..], end)
  {
    OtherKeeps(p, from, k, at, frames, f);
  }

  lemma DrainPiece(plans: Plans, froms: seq<int>, w: World, k: int, j: int, c: Chunk)
    requires SessionInv(plans, froms, w) && w.queue != [] && w.queue[0] == Piece(k, c) && Stream(k) && j == 1 - k
    requires Follows(plans, froms, w, k) && Follows(plans, froms, w, j)
    ensures var after := w.(session := Receive(w.session, k, c), queue := w.queue[1..]);
      Follows(plans, froms, after, k) && Follows(plans, froms, after, j)
  {
    var s := w.session;
    ReceiveStep(plans[k], froms[k], k, s.positions[k], s.frames, w.queue, w.ends[k], c);
    SkipStep(plans[j], froms[j], j, s.positions[j], s.frames, w.queue, w.ends[j], DataFrame(k, c));
    SkipStep(plans[j], froms[j], j, s.positions[j], s.frames, w.queue, w.ends[j], LogBackpressure(k, c.begin));
  }

  lemma DrainFinish(plans: Plans, froms: seq<int>, w: World, state: int, exit: Option<WireExit>)
    requires SessionInv(plans, froms, w) && w.queue != [] && w.queue[0] == Finish(state, exit)
    ensures SessionInv(plans, froms, w.(session := QueueEof(w.session, state, exit), queue := w.queue[1..]))
  {
    var s := w.session;
    SkipStep(plans[0], froms[0], 0, s.positions[0], s.frames, w.queue, w.ends[0], LogEof(state, exit));
    SkipStep(plans[1], froms[1], 1, s.positions[1], s.frames, w.queue, w.ends[1], LogEof(state, exit));
  }

  lemma ReplayedKeeps(plans: Plans, froms: seq<int>, w: World, k: int)
    requires SessionInv(plans, froms, w) && Stream(k)
    ensures SessionInv(plans, froms, w.(session := ReplayNext(plans, w.session, k)))
  {
    ReplaySame(plans, froms, w, k);
    ReplayOther(plans, froms, w, k, 1 - k);
  }

  lemma DrainedKeeps(plans: Plans, froms: seq<int>, w: World)
    requires SessionInv(plans, froms, w) && w.queue != [] && (w.queue[0].Piece? ==> Stream(w.queue[0].source))
    ensures SessionInv(plans, froms, w.(session := Drain(w.session, w.queue[0]), queue := w.queue[1..]))
  {
    match w.queue[0]
    case Piece(k, c) => DrainPiece(plans, froms, w, k, 1 - k, c);
    case Finish(state, exit) => DrainFinish(plans, froms, w, state, exit);
  }

  lemma StepKeeps(plans: Plans, froms: seq<int>, w: World, e: Event)
    requires SessionInv(plans, froms, w) && Possible(plans, w, e)
    requires e.Published? ==> Next(w.ends, e.source, e.chunk)
    ensures SessionInv(plans, froms, Step(plans, w, e))
  {
    match e
    case Replayed(k) => ReplayedKeeps(plans, froms, w, k);
    case Published(k, c, taken) => OfferStep(plans, froms, w, Piece(k, c), taken, w.ends[k := c.end], w.finished);
    case Finished(state, exit, taken) => OfferStep(plans, froms, w, Finish(state, exit), taken, w.ends, true);
    case Unregistered =>
    case Drained => DrainedKeeps(plans, froms, w);
    case Hung =>
    case Concluded(state, exit) =>
      OtherKeeps(plans[0], froms[0], 0, w.session.positions[0], w.session.frames, LogEof(state, exit));
      OtherKeeps(plans[1], froms[1], 1, w.session.positions[1], w.session.frames, LogEof(state, exit));
  }

  lemma {:induction false} StepsKeep(plans: Plans, froms: seq<int>, w: World, events: seq<Event>)
    requires SessionInv(plans, froms, w) && AllPossible(plans, w, events) && Fed(events, w.ends)
    ensures SessionInv(plans, froms, Steps(plans, w, events))
    decreases events
  {
    if events != [] {
      StepKeeps(plans, froms, w, events[0]);
      StepsKeep(plans, froms, Step(plans, w, events[0]), events[1..]);
    }
  }

  /** A session starts with an empty queue and with what had been published. */
  function Start(plans: Plans, froms: seq<int>, finished: bool): World
    requires |plans| == 2
  {
    World(Begin(plans), [], froms, finished)
  }

  lemma StartKeeps(plans: Plans, froms: seq<int>, finished: bool)
    requires |plans| == |froms| == 2 && PlanFits(plans[0], froms[0]) && PlanFits(plans[1], froms[1])
    ensures SessionInv(plans, froms, Start(plans, froms, finished))
  {
    assert plans[0].chunks[..0] == [] && plans[1].chunks[..0] == [];
  }

  // ---- Chunks a frame cannot carry ----

  predicate AllSmall(cs: seq<Chunk>) {
    forall i :: 0 <= i < |cs| ==> Small(cs[i])
  }

  predicate AllAdvance(cs: seq<Chunk>) {
    forall i :: 0 <= i < |cs| ==> cs[i].begin < cs[i].end
  }

  /** No chunk within the frame limit comes behind one above it. */
  predicate Unbroken(cs: seq<Chunk>) {
    forall i, j :: 0 <= i < j < |cs| && !Small(cs[i]) ==> !Small(cs[j])
  }

  function Span(cs: seq<Chunk>): int {
    if cs == [] then 0 else Span(cs[..|cs| - 1]) + cs[|cs| - 1].end - cs[|cs| - 1].begin
  }

  lemma {:induction false} SpanIs(cs: seq<Chunk>, from: int, to: int)
    requires Contiguous(cs, from, to)
    ensures Span(cs) == to - from
  {
    if cs != [] {
      SpanIs(cs[..|cs| - 1], from, cs[|cs| - 1].begin);
    }
  }

  lemma {:induction false} FittingSpan(cs: seq<Chunk>)
    requires AllAdvance(cs)
    ensures Span(Fitting(cs)) <= Span(cs) && (Span(Fitting(cs)) == Span(cs) <==> AllSmall(cs))
    ensures AllSmall(cs) ==> Fitting(cs) == cs
  {
    if cs != [] {
      var before, c := cs[..|cs| - 1], cs[|cs| - 1];
      assert cs == before + [c];
      FittingSpan(before);
      assert AllSmall(cs) <==> AllSmall(before) && Small(c);
      if Small(c) {
        assert (Fitting(before) + [c])[..|Fitting(before)|] == Fitting(before);
      }
    }
  }

  /** Leaving out the chunks above the limit leaves no hole exactly if only chunks at the end are left out. */
  lemma {:induction false} FittingWhole(cs: seq<Chunk>, from: int, to: int)
    requires Contiguous(cs, from, to) && AllAdvance(cs)
    ensures Whole(Fitting(cs), from) <==> Unbroken(cs)
  {
    if cs == [] {
      assert Contiguous([], from, from);
    } else {
      var before, c := cs[..|cs| - 1], cs[|cs| - 1];
      if Small(c) {
        LastFits(before, from, c);
        assert Unbroken(cs) <==> AllSmall(before);
      } else {
        FittingWhole(before, from, c.begin);
        assert Unbroken(cs) <==> Unbroken(before);
      }
    }
  }

  lemma LastFits(before: seq<Chunk>, from: int, c: Chunk)
    requires Contiguous(before, from, c.begin) && AllAdvance(before)
    ensures Whole(Fitting(before) + [c], from) <==> AllSmall(before)
  {
    var kept := Fitting(before);
    FittingSpan(before);
    SpanIs(before, from, c.begin);
    assert (kept + [c])[..|kept|] == kept;
    if AllSmall(before) {
      assert Contiguous(kept + [c], from, c.end);
    } else {
      forall to ensures !Contiguous(kept + [c], from, to) {
        if Contiguous(kept, from, c.begin) {
          SpanIs(kept, from, c.begin);
        }
      }
    }
  }

  lemma {:induction false} CountedAdvance(frames: seq<StreamFrame>, k: int)
    ensures AllAdvance(Counted(frames, k))
  {
    if frames != [] {
      CountedAdvance(frames[..|frames| - 1], k);
    }
  }

  /** What a client gets of stream `k`: the session counts a stretch without a hole and without a repetition,
      sends what the frame limit lets through, and so sends a stretch without a hole exactly if no chunk
      within the limit comes behind one above it. */
  ghost predicate Delivers(frames: seq<StreamFrame>, k: int, from: int) {
    && Whole(Counted(frames, k), from) && Sent(frames, k) == Fitting(Counted(frames, k))
    && (Whole(Sent(frames, k), from) <==> Unbroken(Counted(frames, k)))
  }

  lemma StreamDelivers(p: L.Plan, from: int, k: int, at: Position, frames: seq<StreamFrame>)
    requires PlanFits(p, from) && StreamInv(p, from, k, at, frames)
    ensures Delivers(frames, k, Origin(p, from))
  {
    CountedIsContiguous(p, from, k, at, frames);
    CountedAdvance(frames, k);
    var to :| Contiguous(Counted(frames, k), Origin(p, from), to);
    FittingWhole(Counted(frames, k), Origin(p, from), to);
  }

  /** In every session, for every interleaving, every pattern of queue rejections and chunks of any size. */
  lemma FollowIsContiguous(plans: Plans, froms: seq<int>, finished: bool, events: seq<Event>, k: int)
    requires |plans| == |froms| == 2 && PlanFits(plans[0], froms[0]) && PlanFits(plans[1], froms[1]) && Stream(k)
    requires AllPossible(plans, Start(plans, froms, finished), events) && Fed(events, froms)
    ensures Delivers(Steps(plans, Start(plans, froms, finished), events).session.frames, k, Origin(plans[k], froms[k]))
  {
    StartKeeps(plans, froms, finished);
    StepsKeep(plans, froms, Start(plans, froms, finished), events);
    var w := Steps(plans, Start(plans, froms, finished), events);
    assert Follows(plans, froms, w, k);
    StreamDelivers(plans[k], froms[k], k, w.session.positions[k], w.session.frames);
  }

  // ---- Chunks that all fit ----

  predicate SmallEvents(events: seq<Event>, k: int) {
    forall i :: 0 <= i < |events| && events[i].Published? && events[i].source == k ==> Small(events[i].chunk)
  }

  lemma {:induction false} SmallLive(events: seq<Event>, k: int)
    requires AllSmall(Live(events, k))
    ensures SmallEvents(events, k)
    decreases events
  {
    if events != [] {
      var live := Live(events, k);
      if events[0].Published? && events[0].source == k {
        assert Small(live[0]) && live[1..] == Live(events[1..], k);
      }
      SmallLive(events[1..], k);
    }
  }

  predicate SmallItems(queue: seq<Item>, k: int) {
    forall i :: 0 <= i < |queue| && queue[i].Piece? && queue[i].source == k ==> Small(queue[i].chunk)
  }

  predicate SmallData(f: StreamFrame, k: int) {
    f.LogData? && f.stream == k ==> |f.data| <= MAX_STREAM_DATA_BYTES
  }

  predicate SmallFrames(frames: seq<StreamFrame>, k: int) {
    forall i :: 0 <= i < |frames| ==> SmallData(frames[i], k)
  }

  predicate SmallWorld(plans: Plans, w: World, k: int)
    requires Shaped(plans, w) && Stream(k)
  {
    AllSmall(plans[k].chunks) && SmallItems(w.queue, k) && SmallFrames(w.session.frames, k)
  }

  lemma {:induction false} SmallCounted(frames: seq<StreamFrame>, k: int)
    requires SmallFrames(frames, k)
    ensures AllSmall(Counted(frames, k))
  {
    if frames != [] {
      assert SmallData(frames[|frames| - 1], k);
      SmallCounted(frames[..|frames| - 1], k);
    }
  }

  lemma SmallStep(plans: Plans, w: World, e: Event, k: int)
    requires Shaped(plans, w) && Stream(k) && SmallWorld(plans, w, k) && Possible(plans, w, e)
    requires e.Published? && e.source == k ==> Small(e.chunk)
    ensures SmallWorld(plans, Step(plans, w, e), k)
  {
  }

  lemma {:induction false} SmallSteps(plans: Plans, w: World, events: seq<Event>, k: int)
    requires Shaped(plans, w) && Stream(k) && SmallWorld(plans, w, k) && AllPossible(plans, w, events)
    requires SmallEvents(events, k)
    ensures SmallWorld(plans, Steps(plans, w, events), k)
    decreases events
  {
    if events != [] {
      SmallStep(plans, w, events[0], k);
      SmallSteps(plans, Step(plans, w, events[0]), events[1..], k);
    }
  }

  /** When all chunks of a stream are within the frame limit, all that was counted was sent, in one piece. */
  lemma FollowSmall(plans: Plans, froms: seq<int>, finished: bool, events: seq<Event>, k: int)
    requires |plans| == |froms| == 2 && PlanFits(plans[0], froms[0]) && PlanFits(plans[1], froms[1]) && Stream(k)
    requires AllPossible(plans, Start(plans, froms, finished), events) && Fed(events, froms)
    requires AllSmall(plans[k].chunks) && SmallEvents(events, k)
    ensures var frames := Steps(plans, Start(plans, froms, finished), events).session.frames;
      Sent(frames, k) == Counted(frames, k) && Whole(Sent(frames, k), Origin(plans[k], froms[k]))
  {
    FollowIsContiguous(plans, froms, finished, events, k);
    SmallSteps(plans, Start(plans, froms, finished), events, k);
    var frames := Steps(plans, Start(plans, froms, finished), events).session.frames;
    SmallCounted(frames, k);
    CountedAdvance(frames, k);
    FittingSpan(Counted(frames, k));
  }

  // ---- From any history ----

  lemma {:induction false} EndsAscend(cs: seq<Chunk>, i: nat)
    requires i < |cs| && L.Consecutive(cs) && AllTyped(cs)
    ensures cs[i].end <= cs[|cs| - 1].end
    decreases |cs| - i
  {
    if i + 1 < |cs| {
      EndsAscend(cs, i + 1);
      assert L.Joined(cs, i + 1) && Typed(cs[i + 1]);
    }
  }

  predicate AllTyped(cs: seq<Chunk>) {
    forall i :: 0 <= i < |cs| ==> Typed(cs[i])
  }

  /** The chunks of a plan were published. */
  lemma PlanChunksOf(h: L.History, since: Option<int>)
    requires L.StreamOk(h) && (since.Some? ==> 0 <= since.value)
    ensures var cs := L.PlanFor(h.state, since).chunks; L.SuffixAt(h.published, cs, |h.published| - |cs|)
  {
    if since.None? || since.value >= h.state.offset {
      L.PlanAtEnd(h.state, since);
      assert h.published[|h.published|..] == [];
    } else {
      L.PlanKeeps(h, since.value);
    }
  }

  /** The plan the streamer makes for a stream, whatever was published and wherever the client starts,
      fits a session that starts at the stream's end. */
  lemma AnyPlanFits(h: L.History, since: Option<int>)
    requires L.StreamOk(h) && AllTyped(h.published) && (since.Some? ==> 0 <= since.value)
    ensures PlanFits(L.PlanFor(h.state, since), h.state.offset)
  {
    var p := L.PlanFor(h.state, since);
    PlanChunksOf(h, since);
    var d := |h.published| - |p.chunks|;
    forall i | 0 <= i < |p.chunks| ensures Typed(p.chunks[i]) {
      assert p.chunks[i] == h.published[d + i];
    }
    if since.None? || since.value >= h.state.offset {
      L.PlanAtEnd(h.state, since);
    } else {
      L.PlanKeeps(h, since.value);
      EndsAscend(p.chunks, 0);
    }
  }

  /** Two streams, what they have published, and the offsets a client asks for. */
  predicate Subscribed(hs: seq<L.History>, sinces: seq<Option<int>>) {
    && |hs| == |sinces| == 2
    && forall k :: 0 <= k < 2 ==>
         L.StreamOk(hs[k]) && AllTyped(hs[k].published) && (sinces[k].Some? ==> 0 <= sinces[k].value)
  }

  function PlansOf(hs: seq<L.History>, sinces: seq<Option<int>>): Plans
    requires |hs| == |sinces| == 2
  {
    [L.PlanFor(hs[0].state, sinces[0]), L.PlanFor(hs[1].state, sinces[1])]
  }

  function EndsOf(hs: seq<L.History>): seq<int>
    requires |hs| == 2
  {
    [hs[0].state.offset, hs[1].state.offset]
  }

  /** The session of that client. */
  function NewSession(hs: seq<L.History>, sinces: seq<Option<int>>, finished: bool): World
    requires |hs| == |sinces| == 2
  {
    Start(PlansOf(hs, sinces), EndsOf(hs), finished)
  }

  lemma SubscribedFits(hs: seq<L.History>, sinces: seq<Option<int>>, finished: bool)
    requires Subscribed(hs, sinces)
    ensures PlanFits(PlansOf(hs, sinces)[0], EndsOf(hs)[0]) && PlanFits(PlansOf(hs, sinces)[1], EndsOf(hs)[1])
  {
    AnyPlanFits(hs[0], sinces[0]);
    AnyPlanFits(hs[1], sinces[1]);
  }

  /** End to end: whatever both streams had published, wherever the client starts, and whatever happens in the
      session. */
  lemma FollowAnything(hs: seq<L.History>, sinces: seq<Option<int>>, finished: bool, events: seq<Event>, k: int)
    requires Subscribed(hs, sinces) && Stream(k)
    requires AllPossible(PlansOf(hs, sinces), NewSession(hs, sinces, finished), events) && Fed(events, EndsOf(hs))
    ensures Delivers(Steps(PlansOf(hs, sinces), NewSession(hs, sinces, finished), events).session.frames, k,
                     Origin(PlansOf(hs, sinces)[k], EndsOf(hs)[k]))
  {
    SubscribedFits(hs, sinces, finished);
    FollowIsContiguous(PlansOf(hs, sinces), EndsOf(hs), finished, events, k);
  }

  lemma PlanIsSmall(h: L.History, since: Option<int>)
    requires L.StreamOk(h) && (since.Some? ==> 0 <= since.value) && AllSmall(h.published)
    ensures AllSmall(L.PlanFor(h.state, since).chunks)
  {
    PlanChunksOf(h, since);
  }

  /** When all chunks of a stream are within the frame limit, its bytes arrive in one piece. */
  lemma FollowAllSmall(hs: seq<L.History>, sinces: seq<Option<int>>, finished: bool, events: seq<Event>, k: int)
    requires Subscribed(hs, sinces) && Stream(k) && AllSmall(hs[k].published) && SmallEvents(events, k)
    requires AllPossible(PlansOf(hs, sinces), NewSession(hs, sinces, finished), events) && Fed(events, EndsOf(hs))
    ensures var frames := Steps(PlansOf(hs, sinces), NewSession(hs, sinces, finished), events).session.frames;
      Sent(frames, k) == Counted(frames, k)
        && Whole(Sent(frames, k), Origin(PlansOf(hs, sinces)[k], EndsOf(hs)[k]))
  {
    SubscribedFits(hs, sinces, finished);
    PlanIsSmall(hs[k], sinces[k]);
    FollowSmall(PlansOf(hs, sinces), EndsOf(hs), finished, events, k);
  }

  // ---- After a hole ----

  /** The stream has a hole at `gap`: the session stands at or before it, and what waits or will come
      lies wholly before it or wholly behind it. */
  predicate Stuck(w: World, k: int, gap: int)
    requires |w.session.positions| == |w.ends| == 2 && Stream(k)
  {
    && w.session.positions[k].delivered <= gap < w.ends[k]
    && forall i :: 0 <= i < |w.queue| && w.queue[i].Piece? && w.queue[i].source == k ==>
         w.queue[i].chunk.end <= gap || gap < w.queue[i].chunk.begin
  }

  /** Rejecting a chunk with bytes leaves a hole where it begins. */
  lemma RejectedLeavesHole(plans: Plans, froms: seq<int>, w: World, k: int, c: Chunk)
    requires SessionInv(plans, froms, w) && Possible(plans, w, Published(k, c, false))
    requires Next(w.ends, k, c) && c.begin < c.end
    ensures Stuck(Step(plans, w, Published(k, c, false)), k, c.begin)
  {
    var low := Low(froms[k], w.session.positions[k]);
    OrderedEnds(w.queue, k, low, w.ends[k], 0);
    forall i | 0 <= i < |w.queue| && w.queue[i].Piece? && w.queue[i].source == k
      ensures w.queue[i].chunk.end <= c.begin
    {
      OrderedEnds(w.queue, k, low, w.ends[k], i);
    }
  }

  /** The answer of a session to a chunk: it closes with BACKPRESSURE exactly if the chunk lies behind what the
      session counts as delivered, and sends the chunk exactly if it does not and a frame can carry it. */
  ghost predicate Answers(before: Session, s: Session, k: int, c: Chunk, behind: bool) {
    && (s.closing <==> behind)
    && (Going(s.frames) == Going(before.frames) + [LogBackpressure(k, c.begin)] <==> behind)
    && (Going(s.frames) == Going(before.frames) + [DataFrame(k, c)] <==> !behind && Small(c))
  }

  lemma LastFrame(frames: seq<StreamFrame>, f: StreamFrame, g: StreamFrame)
    ensures frames + [f] == frames + [g] <==> f == g
    ensures frames != frames + [f]
  {
    assert (frames + [f])[|frames|] == f && (frames + [g])[|frames|] == g;
  }

  /** The first live chunk of a stream, after any replay, which never counts as delivered. It may be a marker,
      and it may leave out offsets. */
  lemma FirstLiveExact(plans: Plans, froms: seq<int>, w: World, k: int, c: Chunk)
    requires SessionInv(plans, froms, w) && Stream(k) && !w.session.closing
    requires w.session.positions[k].delivered == plans[k].start && froms[k] <= c.begin && Typed(c)
    ensures Answers(w.session, Drain(w.session, Piece(k, c)), k, c, plans[k].start < c.begin)
  {
    assert Follows(plans, froms, w, k);
    DataGoes(k, c);
    PressureEncodes(k, c.begin);
    var data, pressure := DataFrame(k, c), LogBackpressure(k, c.begin);
    GoingMore(w.session.frames, data);
    GoingMore(w.session.frames, pressure);
    LastFrame(Going(w.session.frames), data, pressure);
    LastFrame(Going(w.session.frames), pressure, data);
  }

  /** The first live chunk lies behind what the session counts as delivered: the client asked for a byte that
      the backlog still held, or nothing had been published and the file had bytes already. */
  predicate Behind(h: L.History, since: Option<int>, c: Chunk) {
    (since.Some? && L.HoldsByte(h.state.backlog, since.value)) || (!h.state.seen && 0 < c.begin)
  }

  lemma BehindExact(h: L.History, since: Option<int>, c: Chunk)
    requires L.StreamOk(h) && (since.Some? ==> 0 <= since.value)
    requires Typed(c) && (h.state.seen ==> c.begin == h.state.offset)
    ensures h.state.offset <= c.begin && (L.PlanFor(h.state, since).start < c.begin <==> Behind(h, since, c))
  {
    L.StartsBeforeEnd(h, since);
  }

  /** For every history and after any run: the first live chunk of a stream closes the session exactly if it
      lies behind. */
  lemma FirstLiveOfHistory(hs: seq<L.History>, sinces: seq<Option<int>>, finished: bool, events: seq<Event>, k: int,
                           c: Chunk)
    requires Subscribed(hs, sinces) && Stream(k) && Typed(c) && (hs[k].state.seen ==> c.begin == hs[k].state.offset)
    requires AllPossible(PlansOf(hs, sinces), NewSession(hs, sinces, finished), events) && Fed(events, EndsOf(hs))
    requires var s := Steps(PlansOf(hs, sinces), NewSession(hs, sinces, finished), events).session;
      !s.closing && s.positions[k].delivered == PlansOf(hs, sinces)[k].start
    ensures var s := Steps(PlansOf(hs, sinces), NewSession(hs, sinces, finished), events).session;
      Answers(s, Drain(s, Piece(k, c)), k, c, Behind(hs[k], sinces[k], c))
  {
    SubscribedFits(hs, sinces, finished);
    var plans, froms := PlansOf(hs, sinces), EndsOf(hs);
    StartKeeps(plans, froms, finished);
    StepsKeep(plans, froms, Start(plans, froms, finished), events);
    BehindExact(hs[k], sinces[k], c);
    FirstLiveExact(plans, froms, Steps(plans, Start(plans, froms, finished), events), k, c);
  }

  /** A replay leaves one too: it never counts as delivered. */
  lemma ReplayLeavesHole(plans: Plans, froms: seq<int>, finished: bool, k: int)
    requires |plans| == |froms| == 2 && Stream(k) && plans[k].start < froms[k]
    ensures Stuck(Start(plans, froms, finished), k, plans[k].start)
  {
  }

  lemma StuckStays(plans: Plans, froms: seq<int>, w: World, e: Event, k: int, gap: int)
    requires SessionInv(plans, froms, w) && Possible(plans, w, e) && Stream(k) && Stuck(w, k, gap)
    requires e.Published? ==> Next(w.ends, e.source, e.chunk)
    ensures Stuck(Step(plans, w, e), k, gap)
  {
  }

  lemma {:induction false} StuckForever(plans: Plans, froms: seq<int>, w: World, events: seq<Event>, k: int, gap: int)
    requires SessionInv(plans, froms, w) && AllPossible(plans, w, events) && Stream(k) && Stuck(w, k, gap)
    requires Fed(events, w.ends)
    ensures Stuck(Steps(plans, w, events), k, gap)
    decreases events
  {
    if events != [] {
      StuckStays(plans, froms, w, events[0], k, gap);
      StepKeeps(plans, froms, w, events[0]);
      StuckForever(plans, froms, Step(plans, w, events[0]), events[1..], k, gap);
    }
  }

  /** Whatever happens after a hole, no byte behind it is sent live: what is counted ends at or before the
      hole, or is the replay, and nothing else is sent. */
  lemma NothingBehindHole(plans: Plans, froms: seq<int>, w: World, events: seq<Event>, k: int, gap: int)
    requires SessionInv(plans, froms, w) && AllPossible(plans, w, events) && Stream(k) && Stuck(w, k, gap)
    requires Fed(events, w.ends)
    ensures var frames := Steps(plans, w, events).session.frames;
      && Sent(frames, k) == Fitting(Counted(frames, k))
      && (if plans[k].start < froms[k] then
            exists i :: 0 <= i <= |plans[k].chunks| && Counted(frames, k) == Advancing(plans[k].chunks[..i])
          else WholeBefore(Counted(frames, k), froms[k], gap))
  {
    StepsKeep(plans, froms, w, events);
    StuckForever(plans, froms, w, events, k, gap);
    var after := Steps(plans, w, events);
    assert Follows(plans, froms, after, k);
    var at := after.session.positions[k];
    assert at.delivered <= gap;
    assert 0 <= at.index <= |plans[k].chunks|;
  }

  /** The first chunk behind the hole that an open session drains is answered with BACKPRESSURE at its
      offset and closes the session. */
  lemma HoleCloses(w: World, k: int, gap: int, c: Chunk)
    requires |w.session.positions| == |w.ends| == 2 && Stream(k) && Stuck(w, k, gap) && !w.session.closing
    requires gap < c.begin < U64_SPAN && 0 <= c.begin
    ensures var s := Drain(w.session, Piece(k, c));
      s.closing && s.backpressure && Going(s.frames) == Going(w.session.frames) + [LogBackpressure(k, c.begin)]
  {
    PressureEncodes(k, c.begin);
    GoingMore(w.session.frames, LogBackpressure(k, c.begin));
  }

  lemma PressureEncodes(k: int, begin: int)
    requires Stream(k) && 0 <= begin < U64_SPAN
    ensures EncodeFrame(LogBackpressure(k, begin)).Some?
  {
    EightBytes();
    TwoEncode(UInt(1), UInt(8), Num(k), Num(begin));
  }

  lemma ContiguousEnd(cs: seq<Chunk>, from: int, a: int, b: int)
    requires Contiguous(cs, from, a) && Contiguous(cs, from, b)
    ensures a == b
  {
  }

  lemma SentMore(frames: seq<StreamFrame>, k: int, c: Chunk)
    requires Stream(k) && Typed(c) && c.begin < c.end
    ensures Sent(frames + [DataFrame(k, c)], k) == if Small(c) then Sent(frames, k) + [c] else Sent(frames, k)
  {
    DataGoes(k, c);
    GoingMore(frames, DataFrame(k, c));
    CountedMore(Going(frames), DataFrame(k, c), k);
  }

  /** A chunk that comes at the right place is sent exactly if it is within the frame limit. */
  lemma SentIffSmall(s: Session, k: int, c: Chunk)
    requires |s.positions| == 2 && Stream(k) && !s.closing && c.begin == s.positions[k].delivered < c.end && Typed(c)
    ensures Sent(Receive(s, k, c).frames, k) == Sent(s.frames, k) + [c] <==> Small(c)
  {
    SentMore(s.frames, k, c);
  }

  /** A chunk above the frame limit is skipped in silence: the session counts it as delivered, and what
      follows leaves a hole. */
  lemma OversizeLeavesHole(s: Session, k: int, from: int, c: Chunk, d: Chunk)
    requires |s.positions| == 2 && Stream(k) && !s.closing && c.begin == s.positions[k].delivered && c.begin < c.end
    requires Typed(c) && !Small(c) && Carried(d) && d.begin == c.end && d.begin < d.end
    requires Contiguous(Sent(s.frames, k), from, c.begin)
    ensures var after := Receive(Receive(s, k, c), k, d);
      Sent(after.frames, k) == Sent(s.frames, k) + [d] && !Whole(Sent(after.frames, k), from)
  {
    SentMore(s.frames, k, c);
    SentMore(s.frames + [DataFrame(k, c)], k, d);
    var sent := Sent(s.frames, k);
    assert (sent + [d])[..|sent|] == sent;
    forall to ensures !Contiguous(sent + [d], from, to) {
      if Contiguous(sent, from, d.begin) {
        ContiguousEnd(sent, from, c.begin, d.begin);
      }
    }
  }
}
