/** From the process to the followers: what a pump reads goes to the sink, and what the sink accepted or
    dropped is published (log_pump.cpp, job_manager.cpp). */
module LogPump {
  import opened Basics
  import opened Wire
  import opened StreamFrames
  import L = LogStreamer
  import S = LogSinks
  import F = FollowSession

  const MAX_CHUNK_BYTES := 65536
  const U64_SPAN := 0x1_0000_0000_0000_0000

  /** The sink and the stream of one output of one job. */
  datatype Pump = Pump(sink: S.State, history: L.History)

  /** What is published for one read: the accepted bytes at their offsets, then a marker for the rest. */
  function Published(begin: int, text: string, accepted: nat, dropped: nat): seq<L.Publication>
    requires accepted <= |text|
  {
    var data, marker := DataOf(begin, text, accepted), L.Marker(begin + accepted, dropped);
    if accepted > 0 && dropped > 0 then [data, marker]
    else if accepted > 0 then [data]
    else if dropped > 0 then [marker]
    else []
  }

  function DataOf(begin: int, text: string, accepted: nat): L.Publication
    requires accepted <= |text|
  {
    L.Data(text[..accepted], begin, begin + accepted)
  }

  function PumpOnce(c: S.Config, script: S.Script, budget: int, p: Pump, text: string): Pump
    requires S.ValidConfig(c)
  {
    var r := S.Appended(c, p.sink, script, text);
    S.AppendAccounts(c, p.sink, script, text);
    Pump(r.state, L.PublishAll(p.history, Published(p.sink.stream.offset, text, r.accepted, r.dropped), budget))
  }

  /** What is published for one read, in the state of the pump. */
  function Attempts(c: S.Config, script: S.Script, p: Pump, text: string): seq<L.Publication>
    requires S.ValidConfig(c)
  {
    var r := S.Appended(c, p.sink, script, text);
    S.AppendAccounts(c, p.sink, script, text);
    Published(p.sink.stream.offset, text, r.accepted, r.dropped)
  }

  function PumpAll(c: S.Config, script: S.Script, budget: int, p: Pump, texts: seq<string>): Pump
    requires S.ValidConfig(c)
    decreases texts
  {
    if texts == [] then p else PumpAll(c, script, budget, PumpOnce(c, script, budget, p, texts[0]), texts[1..])
  }

  /** Everything that is published for some reads, in order. */
  function AllAttempts(c: S.Config, script: S.Script, budget: int, p: Pump, texts: seq<string>): seq<L.Publication>
    requires S.ValidConfig(c)
    decreases texts
  {
    if texts == [] then []
    else
      var next := PumpOnce(c, script, budget, p, texts[0]);
      Attempts(c, script, p, texts[0]) + AllAttempts(c, script, budget, next, texts[1..])
  }

  /** The chunks of well-formed publications. */
  function Chunks(ps: seq<L.Publication>): seq<L.Chunk>
    decreases ps
  {
    if ps == [] then []
    else if L.ChunkOf(ps[0]).Some? then [L.ChunkOf(ps[0]).value] + Chunks(ps[1..])
    else Chunks(ps[1..])
  }

  lemma {:induction false} ChunksJoin(ps: seq<L.Publication>, qs: seq<L.Publication>)
    ensures Chunks(ps + qs) == Chunks(ps) + Chunks(qs)
    decreases ps
  {
    if ps == [] {
      assert ps + qs == qs;
    } else {
      assert (ps + qs)[1..] == ps[1..] + qs;
      ChunksJoin(ps[1..], qs);
    }
  }

  // ---- What is published fits a frame and is never refused ----

  lemma {:induction false} DecimalBytes(n: nat)
    ensures Bytes(Decimal(n))
  {
    if n >= 10 {
      DecimalBytes(n / 10);
    }
  }

  lemma BytesJoin(a: string, b: string)
    requires Bytes(a) && Bytes(b)
    ensures Bytes(a + b)
  {
  }

  lemma MarkerCarried(offset: int, n: nat)
    requires 0 <= offset < U64_SPAN && n < U64_SPAN
    ensures F.Carried(L.Chunk(offset, offset, L.MarkerText(n)))
  {
    S.MarkerIsShort(n);
    DecimalBytes(n);
    BytesJoin("[yori] dropped ", Decimal(n));
    BytesJoin("[yori] dropped " + Decimal(n), " bytes\n");
  }

  predicate AllCarried(cs: seq<L.Chunk>) {
    forall i :: 0 <= i < |cs| ==> F.Carried(cs[i])
  }

  /** The stream is in step with the sink, and everything in it fits a frame. */
  predicate InStep(p: Pump) {
    Ready(p.history, p.sink.stream.offset) && 0 <= p.sink.stream.offset
  }

  /** The stream is in order and ends at `offset`, if anything was published. */
  predicate Ready(h: L.History, offset: int) {
    L.StreamOk(h) && AllCarried(h.published) && (h.state.seen ==> h.state.offset == offset)
  }

  /** `next` is the stream with one more chunk, and ends where the chunk does. */
  predicate Extended(h: L.History, next: L.History, c: L.Chunk) {
    Ready(next, c.end) && next.published == h.published + [c]
  }

  lemma CarriedMore(cs: seq<L.Chunk>, c: L.Chunk)
    requires AllCarried(cs) && F.Carried(c)
    ensures AllCarried(cs + [c])
  {
  }

  /** A chunk at the offset is accepted and keeps the stream in order. */
  lemma PublishNext(h: L.History, p: L.Publication, budget: int, c: L.Chunk)
    requires Ready(h, c.begin) && L.ChunkOf(p) == Some(c) && F.Carried(c)
    ensures Extended(h, L.PublishAll(h, [p], budget), c)
  {
    L.PublishOne(h, p, budget);
    L.PublishAllKeeps(h, [p], budget);
    CarriedMore(h.published, c);
  }

  lemma OneChunk(p: L.Publication)
    requires L.ChunkOf(p).Some?
    ensures Chunks([p]) == [L.ChunkOf(p).value]
  {
    assert [p][1..] == [];
  }

  /** `ps` are all well-formed and accepted, and the stream then ends at `offset`. */
  predicate Accepted(h: L.History, ps: seq<L.Publication>, budget: int, offset: int) {
    var next := L.PublishAll(h, ps, budget);
    Ready(next, offset) && next.published == h.published + Chunks(ps) && |Chunks(ps)| == |ps|
  }

  lemma BothAccepted(h: L.History, p: L.Publication, q: L.Publication, budget: int, middle: int, offset: int)
    requires Accepted(h, [p], budget, middle) && Accepted(L.PublishAll(h, [p], budget), [q], budget, offset)
    ensures Accepted(h, [p, q], budget, offset)
  {
    L.PublishFirst(h, p, q, budget);
    ChunksJoin([p], [q]);
    assert [p] + [q] == [p, q];
  }

  lemma NoneAccepted(h: L.History, budget: int, offset: int)
    requires Ready(h, offset)
    ensures Accepted(h, [], budget, offset)
  {
  }

  lemma OneAccepted(h: L.History, p: L.Publication, budget: int, c: L.Chunk)
    requires Ready(h, c.begin) && L.ChunkOf(p) == Some(c) && F.Carried(c)
    ensures Accepted(h, [p], budget, c.end)
  {
    PublishNext(h, p, budget, c);
    OneChunk(p);
  }

  lemma DataCarried(begin: int, text: string, accepted: nat)
    requires 0 <= begin && begin + |text| < U64_SPAN && 0 < accepted <= |text| <= MAX_CHUNK_BYTES && Bytes(text)
    ensures F.Carried(L.Chunk(begin, begin + accepted, text[..accepted]))
    ensures L.ChunkOf(DataOf(begin, text, accepted)) == Some(L.Chunk(begin, begin + accepted, text[..accepted]))
  {
  }

  lemma DataAccepted(h: L.History, budget: int, begin: int, text: string, accepted: nat)
    requires Ready(h, begin) && 0 <= begin && begin + |text| < U64_SPAN
    requires 0 < accepted <= |text| <= MAX_CHUNK_BYTES && Bytes(text)
    ensures Accepted(h, [DataOf(begin, text, accepted)], budget, begin + accepted)
  {
    DataCarried(begin, text, accepted);
    OneAccepted(h, DataOf(begin, text, accepted), budget, L.Chunk(begin, begin + accepted, text[..accepted]));
  }

  lemma MarkerAccepted(h: L.History, budget: int, offset: int, dropped: nat)
    requires Ready(h, offset) && 0 <= offset < U64_SPAN && dropped < U64_SPAN
    ensures Accepted(h, [L.Marker(offset, dropped)], budget, offset)
  {
    MarkerCarried(offset, dropped);
    OneAccepted(h, L.Marker(offset, dropped), budget, L.Chunk(offset, offset, L.MarkerText(dropped)));
  }

  lemma PairAccepted(h: L.History, budget: int, begin: int, text: string, accepted: nat, dropped: nat)
    requires Ready(h, begin) && 0 <= begin && begin + |text| < U64_SPAN
    requires 0 < accepted <= |text| <= MAX_CHUNK_BYTES && Bytes(text) && dropped < U64_SPAN
    ensures Accepted(h, [DataOf(begin, text, accepted), L.Marker(begin + accepted, dropped)], budget, begin + accepted)
  {
    var data, end := DataOf(begin, text, accepted), begin + accepted;
    DataAccepted(h, budget, begin, text, accepted);
    MarkerAccepted(L.PublishAll(h, [data], budget), budget, end, dropped);
    BothAccepted(h, data, L.Marker(end, dropped), budget, end, end);
  }

  /** Publishing for one read: every publication is accepted, and the stream ends where the sink does. */
  lemma PublishedInStep(h: L.History, budget: int, begin: int, text: string, accepted: nat, dropped: nat,
                        ps: seq<L.Publication>)
    requires Ready(h, begin) && 0 <= begin && begin + |text| < U64_SPAN
    requires accepted + dropped <= |text| <= MAX_CHUNK_BYTES && Bytes(text)
    requires ps == Published(begin, text, accepted, dropped)
    ensures Accepted(h, ps, budget, begin + accepted)
  {
    if accepted > 0 && dropped > 0 {
      PairAccepted(h, budget, begin, text, accepted, dropped);
    } else if accepted > 0 {
      DataAccepted(h, budget, begin, text, accepted);
    } else if dropped > 0 {
      MarkerAccepted(h, budget, begin, dropped);
    } else {
      NoneAccepted(h, budget, begin);
    }
  }

  /** `ps` were published and accepted between `p` and `next`, which is in step. */
  predicate Pumped(p: Pump, next: Pump, ps: seq<L.Publication>) {
    && InStep(next) && next.history.published == p.history.published + Chunks(ps) && |Chunks(ps)| == |ps|
    && p.sink.stream.offset <= next.sink.stream.offset
  }

  /** One read, whatever the disk does. */
  lemma PumpOnceKeeps(c: S.Config, script: S.Script, budget: int, p: Pump, text: string)
    requires S.ValidConfig(c) && InStep(p) && |text| <= MAX_CHUNK_BYTES && Bytes(text)
    requires p.sink.stream.offset + |text| < U64_SPAN
    ensures var next := PumpOnce(c, script, budget, p, text);
      Pumped(p, next, Attempts(c, script, p, text)) && next.sink.stream.offset <= p.sink.stream.offset + |text|
  {
    var r := S.Appended(c, p.sink, script, text);
    S.AppendAccounts(c, p.sink, script, text);
    PublishedInStep(p.history, budget, p.sink.stream.offset, text, r.accepted, r.dropped,
                    Published(p.sink.stream.offset, text, r.accepted, r.dropped));
  }

  predicate Readable(texts: seq<string>) {
    forall i :: 0 <= i < |texts| ==> |texts[i]| <= MAX_CHUNK_BYTES && Bytes(texts[i])
  }

  lemma PumpedTwice(p: Pump, q: Pump, r: Pump, ps: seq<L.Publication>, qs: seq<L.Publication>)
    requires Pumped(p, q, ps) && Pumped(q, r, qs)
    ensures Pumped(p, r, ps + qs)
  {
    ChunksJoin(ps, qs);
  }

  lemma NothingPumped(p: Pump)
    requires InStep(p)
    ensures Pumped(p, p, [])
  {
    assert p.history.published + [] == p.history.published;
  }

  /** Over any reads and any I/O failures: every publication is accepted and no other, every chunk fits a frame,
      and the stream ends at the sink's logical offset. */
  lemma {:induction false} PumpKeeps(c: S.Config, script: S.Script, budget: int, p: Pump, texts: seq<string>)
    requires S.ValidConfig(c) && InStep(p) && Readable(texts) && p.sink.stream.offset + S.Length(texts) < U64_SPAN
    ensures var next := PumpAll(c, script, budget, p, texts);
      && Pumped(p, next, AllAttempts(c, script, budget, p, texts))
      && next.sink.stream.offset <= p.sink.stream.offset + S.Length(texts)
    decreases texts
  {
    if texts == [] {
      NothingPumped(p);
    } else {
      var next := PumpOnce(c, script, budget, p, texts[0]);
      PumpOnceKeeps(c, script, budget, p, texts[0]);
      PumpKeeps(c, script, budget, next, texts[1..]);
      PumpedTwice(p, next, PumpAll(c, script, budget, next, texts[1..]), Attempts(c, script, p, texts[0]),
                  AllAttempts(c, script, budget, next, texts[1..]));
    }
  }

  /** A pump at its start: the file of an earlier life may have bytes, the stream has none. */
  function FreshPump(sink: S.State): Pump {
    Pump(sink, L.History(L.FRESH_STREAM, []))
  }

  // ---- From the process to the client ----

  /** One output of a job: the sink it starts with, what its disk answers, what was read before the client came
      and what is read afterwards. */
  datatype Output = Output(script: S.Script, sink: S.State, earlier: seq<string>, later: seq<string>)

  predicate OutputOk(o: Output) {
    && Readable(o.earlier) && Readable(o.later) && 0 <= o.sink.stream.offset
    && o.sink.stream.offset + S.Length(o.earlier) + S.Length(o.later) < U64_SPAN
  }

  function Before(c: S.Config, budget: int, o: Output): Pump
    requires S.ValidConfig(c)
  {
    PumpAll(c, o.script, budget, FreshPump(o.sink), o.earlier)
  }

  /** The chunks that the pump publishes after the client came. */
  function Coming(c: S.Config, budget: int, o: Output): seq<L.Chunk>
    requires S.ValidConfig(c)
  {
    Chunks(AllAttempts(c, o.script, budget, Before(c, budget, o), o.later))
  }

  lemma {:induction false} SuffixChained(all: seq<L.Chunk>, n: nat, from: int)
    requires L.Consecutive(all) && AllCarried(all) && n <= |all|
    requires if n == 0 then from <= 0 else from == all[n - 1].end
    ensures F.Chained(all[n..], from)
    decreases |all| - n
  {
    if n < |all| {
      assert n > 0 ==> L.Joined(all, n);
      assert F.Carried(all[n]) && all[n..][1..] == all[n + 1..];
      SuffixChained(all, n + 1, all[n].end);
    }
  }

  lemma {:induction false} ChainedPrefix(cs: seq<L.Chunk>, all: seq<L.Chunk>, from: int)
    requires F.Chained(all, from) && cs <= all
    ensures F.Chained(cs, from)
    decreases cs
  {
    if cs != [] {
      ChainedPrefix(cs[1..], all[1..], cs[0].end);
    }
  }

  /** What the pump publishes, before and after the client came, is in order and fits a frame. */
  lemma ComingChained(c: S.Config, budget: int, o: Output)
    requires S.ValidConfig(c) && OutputOk(o)
    ensures var h := Before(c, budget, o).history;
      && L.StreamOk(h) && AllCarried(h.published)
      && F.Chained(Coming(c, budget, o), h.state.offset) && AllCarried(Coming(c, budget, o))
  {
    var p := Before(c, budget, o);
    PumpKeeps(c, o.script, budget, FreshPump(o.sink), o.earlier);
    PumpKeeps(c, o.script, budget, p, o.later);
    var all, n := PumpAll(c, o.script, budget, p, o.later).history.published, |p.history.published|;
    assert all[n..] == Coming(c, budget, o);
    SuffixChained(all, n, p.history.state.offset);
  }

  function Histories(c: S.Config, budget: int, outs: seq<Output>): seq<L.History>
    requires S.ValidConfig(c) && |outs| == 2
  {
    [Before(c, budget, outs[0]).history, Before(c, budget, outs[1]).history]
  }

  /** In the run, stream `k` publishes what its pump does, as far as the run goes. */
  predicate PumpedRun(c: S.Config, budget: int, outs: seq<Output>, events: seq<F.Event>)
    requires S.ValidConfig(c) && |outs| == 2
  {
    F.Live(events, 0) <= Coming(c, budget, outs[0]) && F.Live(events, 1) <= Coming(c, budget, outs[1])
  }

  lemma PrefixSmall(cs: seq<L.Chunk>, all: seq<L.Chunk>)
    requires cs <= all && AllCarried(all)
    ensures F.AllSmall(cs)
  {
    forall i | 0 <= i < |cs| ensures F.Small(cs[i]) {
      assert cs[i] == all[i] && F.Carried(all[i]);
    }
  }

  lemma RunIsFed(c: S.Config, budget: int, outs: seq<Output>, plans: F.Plans, w: F.World, events: seq<F.Event>)
    requires S.ValidConfig(c) && |outs| == 2 && OutputOk(outs[0]) && OutputOk(outs[1])
    requires F.Shaped(plans, w) && F.AllPossible(plans, w, events) && PumpedRun(c, budget, outs, events)
    ensures F.Fed(events, F.EndsOf(Histories(c, budget, outs)))
    ensures F.SmallEvents(events, 0) && F.SmallEvents(events, 1)
  {
    var ends := F.EndsOf(Histories(c, budget, outs));
    ComingChained(c, budget, outs[0]);
    ComingChained(c, budget, outs[1]);
    ChainedPrefix(F.Live(events, 0), Coming(c, budget, outs[0]), ends[0]);
    ChainedPrefix(F.Live(events, 1), Coming(c, budget, outs[1]), ends[1]);
    PrefixSmall(F.Live(events, 0), Coming(c, budget, outs[0]));
    PrefixSmall(F.Live(events, 1), Coming(c, budget, outs[1]));
    F.FedIsChained(plans, w, events, ends);
    F.SmallLive(events, 0);
    F.SmallLive(events, 1);
  }

  lemma HistoriesOk(c: S.Config, budget: int, outs: seq<Output>, sinces: seq<Option<int>>)
    requires S.ValidConfig(c) && |outs| == |sinces| == 2 && OutputOk(outs[0]) && OutputOk(outs[1])
    requires forall k :: 0 <= k < 2 && sinces[k].Some? ==> 0 <= sinces[k].value
    ensures var hs := Histories(c, budget, outs);
      F.Subscribed(hs, sinces) && F.AllSmall(hs[0].published) && F.AllSmall(hs[1].published)
  {
    ComingChained(c, budget, outs[0]);
    ComingChained(c, budget, outs[1]);
    var hs := Histories(c, budget, outs);
    PrefixSmall(hs[0].published, hs[0].published);
    PrefixSmall(hs[1].published, hs[1].published);
  }

  /** End to end: what the job wrote, read and pumped in any pieces and with any I/O failures before and after
      the client came, reaches it in one piece, wherever it starts and whatever happens to its session. */
  lemma FollowPumped(c: S.Config, budget: int, outs: seq<Output>, sinces: seq<Option<int>>, finished: bool,
                     events: seq<F.Event>, k: int)
    requires S.ValidConfig(c) && |outs| == |sinces| == 2 && OutputOk(outs[0]) && OutputOk(outs[1]) && F.Stream(k)
    requires forall j :: 0 <= j < 2 && sinces[j].Some? ==> 0 <= sinces[j].value
    requires var hs := Histories(c, budget, outs);
      F.AllPossible(F.PlansOf(hs, sinces), F.NewSession(hs, sinces, finished), events)
    requires PumpedRun(c, budget, outs, events)
    ensures var hs := Histories(c, budget, outs);
      var frames := F.Steps(F.PlansOf(hs, sinces), F.NewSession(hs, sinces, finished), events).session.frames;
      && F.Sent(frames, k) == F.Counted(frames, k)
      && F.Whole(F.Sent(frames, k), F.Origin(F.PlansOf(hs, sinces)[k], F.EndsOf(hs)[k]))
  {
    var hs := Histories(c, budget, outs);
    HistoriesOk(c, budget, outs, sinces);
    RunIsFed(c, budget, outs, F.PlansOf(hs, sinces), F.NewSession(hs, sinces, finished), events);
    F.FollowAllSmall(hs, sinces, finished, events, k);
  }

  // ---- The first live chunk ----

  const NOTHING := L.History(L.FRESH_STREAM, [])

  /** The client of a job that has written to one output only, and asks for all of it. */
  function AsksForAll(h: L.History, finished: bool): F.Session {
    F.NewSession([h, NOTHING], [Some(0), None], finished).session
  }

  lemma AnswerToAll(h: L.History, c: L.Chunk, finished: bool)
    requires Ready(h, c.begin) && h.state.seen && F.Typed(c)
    ensures F.Answers(AsksForAll(h, finished), F.Drain(AsksForAll(h, finished), F.Piece(0, c)), 0, c,
                      L.HoldsByte(h.state.backlog, 0))
  {
    F.FirstLiveOfHistory([h, NOTHING], [Some(0), None], finished, [], 0, c);
  }

  /** The bytes are still there: a client that asks for them replays them, and its session is closed by the
      first live chunk. */
  lemma BytesClose(text: string, c: L.Chunk, finished: bool)
    requires |text| == MAX_CHUNK_BYTES && Bytes(text) && F.Typed(c) && c.begin == |text|
    ensures var h := L.PublishAll(NOTHING, [L.Data(text, 0, |text|)], MAX_CHUNK_BYTES);
      F.Drain(AsksForAll(h, finished), F.Piece(0, c)).closing
  {
    assert text[..|text|] == text;
    DataAccepted(NOTHING, MAX_CHUNK_BYTES, 0, text, |text|);
    L.DataHeld(text, MAX_CHUNK_BYTES);
    AnswerToAll(L.PublishAll(NOTHING, [L.Data(text, 0, |text|)], MAX_CHUNK_BYTES), c, finished);
  }

  /** A marker has pushed them out: the same client replays the marker only, and its session goes on live. */
  lemma MarkerGoesOn(text: string, c: L.Chunk, finished: bool)
    requires |text| == MAX_CHUNK_BYTES && Bytes(text) && F.Carried(c) && c.begin == |text|
    ensures var h := L.PublishAll(NOTHING, [L.Data(text, 0, |text|), L.Marker(|text|, 1)], MAX_CHUNK_BYTES);
      var s := F.Drain(AsksForAll(h, finished), F.Piece(0, c));
      !s.closing && F.Going(s.frames) == [F.DataFrame(0, c)]
  {
    L.MarkerOnly(text, MAX_CHUNK_BYTES);
    PairAccepted(NOTHING, MAX_CHUNK_BYTES, 0, text, |text|, 1);
    assert text[..|text|] == text;
    GoesOn(L.PublishAll(NOTHING, [L.Data(text, 0, |text|), L.Marker(|text|, 1)], MAX_CHUNK_BYTES), c, finished);
  }

  lemma GoesOn(h: L.History, c: L.Chunk, finished: bool)
    requires Ready(h, c.begin) && h.state.seen && F.Carried(c) && L.PlanFor(h.state, Some(0)).start == h.state.offset
    ensures var s := F.Drain(AsksForAll(h, finished), F.Piece(0, c));
      !s.closing && F.Going(s.frames) == [F.DataFrame(0, c)]
  {
    L.StartsBeforeEnd(h, Some(0));
    AnswerToAll(h, c, finished);
    assert F.Going([]) + [F.DataFrame(0, c)] == [F.DataFrame(0, c)];
  }

  lemma NothingMoves(c: S.Config, script: S.Script, p: Pump, text: string)
    requires S.ValidConfig(c) && InStep(p)
    ensures var ps := Attempts(c, script, p, text);
      if ps == [] then S.Appended(c, p.sink, script, text).state.stream.offset == p.sink.stream.offset
      else Chunks(ps) != [] && Chunks(ps)[0].begin == p.sink.stream.offset
  {
    S.AppendAccounts(c, p.sink, script, text);
  }

  lemma FirstOfBoth(ps: seq<L.Publication>, rest: seq<L.Publication>, offset: int, moved: int)
    requires if ps == [] then moved == offset else Chunks(ps) != [] && Chunks(ps)[0].begin == offset
    requires Chunks(rest) != [] ==> Chunks(rest)[0].begin == moved
    ensures Chunks(ps + rest) != [] ==> Chunks(ps + rest)[0].begin == offset
  {
    ChunksJoin(ps, rest);
  }

  /** A pump publishes from where its sink stands. */
  lemma {:induction false} FirstChunkAt(c: S.Config, script: S.Script, budget: int, p: Pump, texts: seq<string>)
    requires S.ValidConfig(c) && InStep(p) && Readable(texts) && p.sink.stream.offset + S.Length(texts) < U64_SPAN
    ensures var cs := Chunks(AllAttempts(c, script, budget, p, texts));
      cs != [] ==> cs[0].begin == p.sink.stream.offset
    decreases texts
  {
    if texts != [] {
      var next := PumpOnce(c, script, budget, p, texts[0]);
      PumpOnceKeeps(c, script, budget, p, texts[0]);
      NothingMoves(c, script, p, texts[0]);
      FirstChunkAt(c, script, budget, next, texts[1..]);
      FirstOfBoth(Attempts(c, script, p, texts[0]), AllAttempts(c, script, budget, next, texts[1..]),
                  p.sink.stream.offset, next.sink.stream.offset);
    }
  }

  /** Nothing was published when the client came: the first chunk that the pump publishes closes the session
      exactly if the file had bytes of an earlier life. */
  lemma ResumedCloses(c: S.Config, budget: int, outs: seq<Output>, sinces: seq<Option<int>>, k: int)
    requires S.ValidConfig(c) && |outs| == |sinces| == 2 && OutputOk(outs[0]) && OutputOk(outs[1]) && F.Stream(k)
    requires forall j :: 0 <= j < 2 && sinces[j].Some? ==> 0 <= sinces[j].value
    requires outs[k].earlier == [] && Coming(c, budget, outs[k]) != []
    ensures var s := F.NewSession(Histories(c, budget, outs), sinces, false).session;
      var first := Coming(c, budget, outs[k])[0];
      F.Answers(s, F.Drain(s, F.Piece(k, first)), k, first, 0 < outs[k].sink.stream.offset)
  {
    var hs, first := Histories(c, budget, outs), Coming(c, budget, outs[k])[0];
    HistoriesOk(c, budget, outs, sinces);
    ComingChained(c, budget, outs[k]);
    FirstChunkAt(c, outs[k].script, budget, FreshPump(outs[k].sink), outs[k].later);
    assert hs[k] == NOTHING && F.Carried(first);
    F.FirstLiveOfHistory(hs, sinces, false, [], k, first);
  }

  lemma OneByte(c: S.Config, s: S.State, script: S.Script)
    requires S.ValidConfig(c) && s.stream.open && s.stream.fileBytes < c.maxBytes && s.stream.pendingDrop == 0
    requires script(s.calls).Done?
    ensures var r := S.Appended(c, s, script, "a"); r.accepted == 1 && r.dropped == 0
  {
    var p := S.Turn(c, s, script, "a", 0, false);
    assert S.Marked(s, script) == s && S.Room(c, s, "a", 0) == 1 && p.code == S.Fine && p.written == 1;
    assert S.AppendFrom(c, p.state, script, "a", 1, p.rotated).written == 1;
  }

  const CALM: S.Script := n => S.Done

  /** The sink of a job whose file holds `text` from an earlier life. */
  function Resumed(text: string): S.State {
    S.OpenFile(S.State(S.Stream(false, 0, 0, 0), map[0 := text], 0), CALM)
  }

  const SILENT := Output(CALM, Resumed(""), [], [])

  /** A file of a hundred bytes, a client that comes first, and one more byte. */
  lemma ResumedInput(c: S.Config, budget: int, text: string)
    requires S.ValidConfig(c) && |text| == 100
    ensures var outs := [Output(CALM, Resumed(text), [], ["a"]), SILENT];
      var s := F.NewSession(Histories(c, budget, outs), [None, None], false).session;
      && Coming(c, budget, outs[0]) == [L.Chunk(100, 101, "a")]
      && F.Drain(s, F.Piece(0, L.Chunk(100, 101, "a"))).closing
  {
    var outs := [Output(CALM, Resumed(text), [], ["a"]), SILENT];
    var p := FreshPump(Resumed(text));
    OneByte(c, p.sink, CALM);
    assert p.sink.stream.offset == 100 && "a"[..1] == "a";
    assert Attempts(c, CALM, p, "a") == [DataOf(100, "a", 1)];
    OneChunk(DataOf(100, "a", 1));
    assert ["a"][1..] == [] && AllAttempts(c, CALM, budget, p, ["a"]) == Attempts(c, CALM, p, "a");
    ResumedCloses(c, budget, outs, [None, None], 0);
  }

  // ---- The pump ----

  class StreamPump {
    const sink: S.LogSink
    const stream: L.LogStream
    ghost var published: seq<L.Chunk>

    constructor (sink: S.LogSink, stream: L.LogStream)
      ensures this.sink == sink && this.stream == stream && published == []
    {
      this.sink, this.stream, published := sink, stream, [];
    }

    ghost function Now(): Pump
      reads this, sink, stream
    {
      Pump(sink.Now(), L.History(stream.State(), published))
    }

    method Publish(p: L.Publication)
      modifies stream, `published
      ensures Now() == old(Now()).(history := L.PublishAll(old(Now()).history, [p], stream.budget))
    {
      assert [p][1..] == [];
      var accepted := stream.PublishLocked(p);
      if accepted {
        published := published + [L.ChunkOf(p).value];
      }
    }

    /** One read: append to the sink, then publish what it accepted and what it dropped. */
    method PumpStream(text: string)
      requires S.ValidConfig(sink.config)
      modifies sink, stream, `published
      ensures Now() == PumpOnce(sink.config, sink.script, stream.budget, old(Now()), text)
    {
      var begin := sink.offset;
      S.AppendAccounts(sink.config, sink.Now(), sink.script, text);
      var code, accepted, dropped, rotated := sink.Append(text);
      label Appended:
      if accepted > 0 {
        Publish(DataOf(begin, text, accepted));
      }
      if dropped > 0 {
        Publish(L.Marker(begin + accepted, dropped));
      }
      Pieces(old@Appended(Now()).history, begin, text, accepted, dropped, stream.budget);
    }
  }

  /** Publishing one after the other is publishing the list. */
  lemma Pieces(h: L.History, begin: int, text: string, accepted: nat, dropped: nat, budget: int)
    requires accepted <= |text|
    ensures var first := if accepted > 0 then L.PublishAll(h, [DataOf(begin, text, accepted)], budget) else h;
      L.PublishAll(h, Published(begin, text, accepted, dropped), budget) ==
        if dropped > 0 then L.PublishAll(first, [L.Marker(begin + accepted, dropped)], budget) else first
  {
    L.PublishFirst(h, DataOf(begin, text, accepted), L.Marker(begin + accepted, dropped), budget);
  }
}
