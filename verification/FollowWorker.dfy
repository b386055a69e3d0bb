/** The session worker of the follow service: one cycle over one session (log_follow_service.cpp). */
module FollowWorkers {
  import opened Basics
  import opened Payloads
  import opened Messages
  import opened StreamFrames
  import opened FollowSession
  import Codec
  import L = LogStreamer

  const REPLAY_CHUNKS_PER_CYCLE := 16

  /** The bytes of the frames as they go out. */
  function FramesText(frames: seq<StreamFrame>): string {
    if frames == [] then ""
    else FramesText(frames[..|frames| - 1]) + FrameText(frames[|frames| - 1])
  }

  function FrameText(f: StreamFrame): string {
    var p := EncodeFrame(f);
    if p.Some? then Codec.Framed(p.value) else ""
  }

  function Concat(texts: seq<string>): string {
    if texts == [] then "" else Concat(texts[..|texts| - 1]) + texts[|texts| - 1]
  }

  /** `texts` are the bytes of the frames, one for each. */
  predicate Spelled(frames: seq<StreamFrame>, texts: seq<string>) {
    && |frames| == |texts|
    && forall i {:trigger FrameText(frames[i])} :: 0 <= i < |frames| ==> texts[i] == FrameText(frames[i])
  }

  lemma {:induction false} SpelledText(frames: seq<StreamFrame>, texts: seq<string>)
    requires Spelled(frames, texts)
    ensures Concat(texts) == FramesText(frames)
  {
    if frames != [] {
      var n := |frames| - 1;
      assert texts[n] == FrameText(frames[n]);
      forall i | 0 <= i < n ensures texts[..n][i] == FrameText(frames[..n][i]) {
        assert texts[i] == FrameText(frames[i]);
      }
      SpelledText(frames[..n], texts[..n]);
    }
  }

  lemma SpelledMore(frames: seq<StreamFrame>, texts: seq<string>, f: StreamFrame)
    requires Spelled(frames, texts)
    ensures Spelled(frames + [f], texts + [FrameText(f)])
  {
    forall i | 0 <= i < |frames + [f]| ensures (texts + [FrameText(f)])[i] == FrameText((frames + [f])[i]) {
      if i < |frames| {
        assert texts[i] == FrameText(frames[i]);
      }
    }
  }

  /** What was taken and what is going out are the answer and the texts. */
  predicate Written(taken: string, outgoing: string, prelude: string, texts: seq<string>) {
    taken + outgoing == prelude + Concat(texts)
  }

  lemma WrittenMore(taken: string, outgoing: string, prelude: string, texts: seq<string>, text: string)
    requires Written(taken, outgoing, prelude, texts)
    ensures Written(taken, outgoing + text, prelude, texts + [text])
  {
    assert (texts + [text])[..|texts|] == texts;
    assert taken + (outgoing + text) == taken + outgoing + text;
    assert prelude + Concat(texts) + text == prelude + (Concat(texts) + text);
  }

  lemma {:induction false} StepsMore(plans: Plans, w: World, events: seq<Event>, e: Event)
    requires Shaped(plans, w) && AllPossible(plans, w, events) && Possible(plans, Steps(plans, w, events), e)
    ensures AllPossible(plans, w, events + [e])
    ensures Steps(plans, w, events + [e]) == Step(plans, Steps(plans, w, events), e)
    decreases events
  {
    if events == [] {
      assert [] + [e] == [e];
      assert [e][1..] == [];
    } else {
      StepsMore(plans, Step(plans, w, events[0]), events[1..], e);
      assert (events + [e])[1..] == events[1..] + [e];
    }
  }

  /** `now` is what `events` make of `before`. */
  ghost predicate Reached(plans: Plans, before: World, events: seq<Event>, now: World) {
    Shaped(plans, before) && AllPossible(plans, before, events) && now == Steps(plans, before, events)
  }

  lemma ReachedMore(plans: Plans, before: World, events: seq<Event>, now: World, e: Event, next: World)
    requires Reached(plans, before, events, now) && Possible(plans, now, e) && next == Step(plans, now, e)
    ensures Reached(plans, before, events + [e], next)
  {
    StepsMore(plans, before, events, e);
  }

  lemma ReplayReached(plans: Plans, before: World, events: seq<Event>, now: World, k: int, next: World)
    requires Reached(plans, before, events, now) && Shaped(plans, now) && Stream(k)
    requires next == now.(session := ReplayNext(plans, now.session, k))
    ensures Reached(plans, before, events + [Replayed(k)], next)
  {
    ReachedMore(plans, before, events, now, Replayed(k), next);
  }

  method EncodeOnto(f: StreamFrame, out: string) returns (framed: string)
    ensures framed == out + FrameText(f)
  {
    var format := FrameFormat(STREAM_VERSION, FrameKind(f)).value;
    var ok, whole := Codec.AppendFrame(STREAMS, format, Payload(STREAM_VERSION, FrameKind(f), FrameValue(f)), out);
    assert ok == EncodeFrame(f).Some?;
    assert out + "" == out;
    return whole;
  }

  /** The next `n` chunks of the plan of stream `k`. */
  function ReplayMany(plans: Plans, s: Session, k: int, n: nat): (r: Session)
    requires |plans| == 2 && |s.positions| == 2 && Stream(k)
    ensures |r.positions| == 2
  {
    if n == 0 then s else ReplayNext(plans, ReplayMany(plans, s, k, n - 1), k)
  }

  /** An open session that has replayed `n` chunks, all of them in the plan. */
  predicate Moved(plans: Plans, s: Session, k: int, n: nat, after: Session)
    requires |plans| == 2 && |s.positions| == 2 && Stream(k)
  {
    && (n > 0 ==> s.positions[k].index + n <= |plans[k].chunks|) && !after.closing
    && after.positions == s.positions[k := s.positions[k].(index := s.positions[k].index + n)]
    && after.eofQueued == s.eofQueued
  }

  predicate HasReplayed(plans: Plans, s: Session, k: int, n: nat, after: Session)
    requires |plans| == 2 && |s.positions| == 2 && Stream(k)
  {
    after == ReplayMany(plans, s, k, n) && Moved(plans, s, k, n, after)
  }

  lemma {:induction false} ManyMoved(plans: Plans, s: Session, k: int, n: nat)
    requires |plans| == 2 && |s.positions| == 2 && Stream(k) && !s.closing
    requires n > 0 ==> s.positions[k].index + n <= |plans[k].chunks|
    ensures Moved(plans, s, k, n, ReplayMany(plans, s, k, n))
  {
    if n > 0 {
      ManyMoved(plans, s, k, n - 1);
    }
  }

  function DataFrames(k: int, cs: seq<Chunk>): seq<StreamFrame> {
    if cs == [] then [] else DataFrames(k, cs[..|cs| - 1]) + [DataFrame(k, cs[|cs| - 1])]
  }

  lemma DataFramesMore(frames: seq<StreamFrame>, k: int, cs: seq<Chunk>, c: Chunk)
    ensures frames + DataFrames(k, cs + [c]) == frames + DataFrames(k, cs) + [DataFrame(k, c)]
  {
    assert (cs + [c])[..|cs|] == cs;
  }

  lemma NextFrames(plans: Plans, s: Session, k: int, frames: seq<StreamFrame>, i: nat)
    requires |plans| == 2 && |s.positions| == 2 && Stream(k) && !s.closing && i <= s.positions[k].index
    requires s.positions[k].index < |plans[k].chunks|
    requires s.frames == frames + DataFrames(k, plans[k].chunks[i..s.positions[k].index])
    ensures ReplayNext(plans, s, k).frames == frames + DataFrames(k, plans[k].chunks[i..s.positions[k].index + 1])
  {
    var cs, j := plans[k].chunks, s.positions[k].index;
    assert cs[i..j + 1] == cs[i..j] + [cs[j]];
    DataFramesMore(frames, k, cs[i..j], cs[j]);
  }

  /** Replaying `n` chunks of the plan hands over their frames. */
  lemma {:induction false} ManyFrames(plans: Plans, s: Session, k: int, n: nat)
    requires |plans| == 2 && |s.positions| == 2 && Stream(k) && !s.closing
    requires s.positions[k].index + n <= |plans[k].chunks|
    ensures var i := s.positions[k].index;
      ReplayMany(plans, s, k, n).frames == s.frames + DataFrames(k, plans[k].chunks[i..i + n])
  {
    if n == 0 {
      assert s.frames + [] == s.frames;
    } else {
      ManyFrames(plans, s, k, n - 1);
      ManyMoved(plans, s, k, n - 1);
      NextFrames(plans, ReplayMany(plans, s, k, n - 1), k, s.frames, s.positions[k].index);
    }
  }

  function Replays(k: int, n: nat): seq<Event> {
    if n == 0 then [] else Replays(k, n - 1) + [Replayed(k)]
  }

  lemma {:induction false} ManyReached(plans: Plans, w: World, k: int, n: nat)
    requires Shaped(plans, w) && Stream(k)
    ensures Reached(plans, w, Replays(k, n), w.(session := ReplayMany(plans, w.session, k, n)))
  {
    if n > 0 {
      ManyReached(plans, w, k, n - 1);
      ReplayReached(plans, w, Replays(k, n - 1), w.(session := ReplayMany(plans, w.session, k, n - 1)), k,
                    w.(session := ReplayMany(plans, w.session, k, n)));
    }
  }

  /** The end of a cycle for a job that had ended: EOF after the replay; before that, a session with room in
      its buffer finds the topic closed and empty. */
  function Concludes(plans: Plans, s: Session, state: int, exit: Option<WireExit>, room: bool): Session
    requires |plans| == 2 && |s.positions| == 2
  {
    if ReplayDone(plans, s) then QueueEof(s, state, exit) else s.(closing := room)
  }

  /** Both replays can end in this cycle. */
  predicate LastCycle(plans: Plans, s: Session)
    requires |plans| == 2 && |s.positions| == 2
  {
    && |plans[0].chunks| <= s.positions[0].index + 16 && |plans[1].chunks| <= s.positions[1].index + 16
  }

  /** One cycle of an open session for a job that had ended: it is over with EOF exactly if the replay is done,
      and it is over without EOF, its replay cut, exactly if there is more to replay and room in the buffer.
      With room, EOF is sent exactly if no stream had more than sixteen chunks left. */
  predicate CycleOfEnded(plans: Plans, before: Session, after: Session, room: bool)
    requires |plans| == 2 && |before.positions| == |after.positions| == 2
  {
    && (after.eofQueued <==> ReplayDone(plans, after))
    && (after.closing && !after.eofQueued <==> !ReplayDone(plans, after) && room)
    && (room ==> (after.eofQueued <==> LastCycle(plans, before)))
  }

  /** Both streams have replayed, the first `n` and the second `m` chunks. */
  function BothReplayed(plans: Plans, s: Session, n: nat, m: nat): (r: Session)
    requires |plans| == 2 && |s.positions| == 2
    ensures |r.positions| == 2
  {
    ReplayMany(plans, ReplayMany(plans, s, 0, n), 1, m)
  }

  /** How far one cycle replays a stream: sixteen chunks, or to the end, or until there is no room. */
  predicate Reaches(plans: Plans, s: Session, k: int, n: nat, room: bool)
    requires |plans| == 2 && |s.positions| == 2 && Stream(k)
  {
    && n <= REPLAY_CHUNKS_PER_CYCLE && (n > 0 ==> s.positions[k].index + n <= |plans[k].chunks|)
    && (room ==> n == REPLAY_CHUNKS_PER_CYCLE || s.positions[k].index + n >= |plans[k].chunks|)
  }

  lemma CycleEnds(plans: Plans, s: Session, n: nat, m: nat, room: bool, state: int, exit: Option<WireExit>)
    requires |plans| == 2 && |s.positions| == 2 && !s.closing && !s.eofQueued
    requires Reaches(plans, s, 0, n, room) && Reaches(plans, s, 1, m, room)
    ensures CycleOfEnded(plans, s, Concludes(plans, BothReplayed(plans, s, n, m), state, exit, room), room)
  {
    ManyMoved(plans, s, 0, n);
    ManyMoved(plans, ReplayMany(plans, s, 0, n), 1, m);
  }

  class LogSession {
    const plans: Plans
    /** The answer to the request, sent before the first frame. */
    const prelude: string
    /** The job had ended when the session started. */
    const jobFinished: bool
    const endState: int
    const endExit: Option<WireExit>

    var session: Session
    var queue: seq<Item>
    var finished: bool
    var outgoing: string
    var sent: nat
    /** What the socket had taken before `outgoing`. */
    ghost var taken: string
    /** The bytes of the frames, one for each. */
    ghost var texts: seq<string>
    ghost var ends: seq<int>

    ghost function Now(): World
      reads this
    {
      World(session, queue, ends, finished)
    }

    ghost predicate Valid()
      reads this
    {
      && Shaped(plans, Now()) && Written(taken, outgoing, prelude, texts) && sent <= |outgoing|
      && Spelled(session.frames, texts)
      && (forall i :: 0 <= i < |queue| && queue[i].Piece? ==> Stream(queue[i].source)) && (jobFinished ==> finished)
      && (session.eofQueued ==> session.closing)
    }

    constructor (plans: Plans, froms: seq<int>, prelude: string, ended: bool, state: int, exit: Option<WireExit>)
      requires |plans| == |froms| == 2
      ensures Valid() && Now() == Start(plans, froms, ended) && this.plans == plans && this.prelude == prelude
      ensures outgoing == prelude && sent == 0 && taken == ""
      ensures jobFinished == ended && endState == state && endExit == exit
    {
      this.plans, this.prelude, jobFinished, endState, endExit := plans, prelude, ended, state, exit;
      session, queue, finished, ends := Begin(plans), [], ended, froms;
      outgoing, sent, taken, texts := prelude, 0, "", [];
      new;
      assert "" + prelude == prelude + "";
    }

    /** All that the socket has taken. */
    ghost function Taken(): string
      requires Valid()
      reads this
    {
      taken + outgoing[..sent]
    }

    function PendingBytes(): (n: nat)
      requires Valid()
      reads this
    {
      |outgoing| - sent
    }

    /** A frame the encoder refuses leaves no trace. */
    method AppendFrame(f: StreamFrame)
      requires Valid()
      modifies this
      ensures Valid() && Now() == old(Now()).(session := old(session).(frames := old(session).frames + [f]))
      ensures outgoing == old(outgoing) + FrameText(f) && sent == old(sent) && taken == old(taken)
    {
      WrittenMore(taken, outgoing, prelude, texts, FrameText(f));
      SpelledMore(session.frames, texts, f);
      outgoing := EncodeOnto(f, outgoing);
      texts := texts + [FrameText(f)];
      session := session.(frames := session.frames + [f]);
    }

    method ReplayOne(k: int, ghost start: Session, ghost n: nat)
      requires Valid() && Stream(k) && |start.positions| == 2 && HasReplayed(plans, start, k, n, session)
      requires session.positions[k].index < |plans[k].chunks|
      modifies this
      ensures Valid() && Now() == old(Now()).(session := session) && HasReplayed(plans, start, k, n + 1, session)
      ensures sent == old(sent) && |outgoing| >= |old(outgoing)| && taken == old(taken)
    {
      var at := session.positions[k];
      AppendFrame(DataFrame(k, plans[k].chunks[at.index]));
      session := session.(positions := session.positions[k := at.(index := at.index + 1)]);
    }

    /** At most sixteen chunks of one stream, and none once the buffer is full. */
    method ReplayStream(k: int, limit: nat) returns (n: nat)
      requires Valid() && Stream(k) && !session.closing
      modifies this
      ensures Valid() && Now() == old(Now()).(session := ReplayMany(plans, old(session), k, n))
      ensures n <= REPLAY_CHUNKS_PER_CYCLE && (n > 0 ==> old(session).positions[k].index + n <= |plans[k].chunks|)
      ensures n == REPLAY_CHUNKS_PER_CYCLE || PendingBytes() >= limit
        || old(session).positions[k].index + n >= |plans[k].chunks|
      ensures PendingBytes() >= old(PendingBytes()) && taken == old(taken) && sent == old(sent) && !session.closing
    {
      n := 0;
      while session.positions[k].index < |plans[k].chunks| && n < REPLAY_CHUNKS_PER_CYCLE && PendingBytes() < limit
        invariant Valid() && Now() == old(Now()).(session := session) && n <= REPLAY_CHUNKS_PER_CYCLE
        invariant HasReplayed(plans, old(session), k, n, session)
        invariant PendingBytes() >= old(PendingBytes()) && taken == old(taken) && sent == old(sent)
        decreases REPLAY_CHUNKS_PER_CYCLE - n
      {
        ReplayOne(k, old(session), n);
        n := n + 1;
      }
    }

    method QueueEofFrame(state: int, exit: Option<WireExit>)
      requires Valid() && !session.closing
      modifies this
      ensures Valid() && Now() == old(Now()).(session := QueueEof(old(session), state, exit))
      ensures PendingBytes() >= old(PendingBytes())
    {
      session := session.(eofQueued := true, closing := true);
      AppendFrame(LogEof(state, exit));
    }

    method TakePiece(k: int, c: Chunk)
      requires Valid() && Stream(k) && !session.closing
      modifies this
      ensures Valid() && Now() == old(Now()).(session := Receive(old(session), k, c))
    {
      var at := session.positions[k];
      if c.begin < at.delivered {
        return;
      }
      if c.begin > at.delivered {
        session := session.(backpressure := true, closing := true);
        AppendFrame(LogBackpressure(k, c.begin));
        return;
      }
      AppendFrame(DataFrame(k, c));
      session := session.(positions := session.positions[k := at.(delivered := c.end)]);
    }

    method DrainOne()
      requires Valid() && !session.closing && queue != []
      modifies this
      ensures Valid() && Now() == old(Now()).(session := Drain(old(session), old(queue)[0]), queue := old(queue)[1..])
    {
      var item := queue[0];
      queue := queue[1..];
      match item
      case Piece(k, c) => TakePiece(k, c);
      case Finish(state, exit) => QueueEofFrame(state, exit);
    }

    /** The drain loop: at most `most` items, none once the buffer is full or the session is closing; a session
        whose topic is closed and empty is closed. */
    method DrainLive(most: nat, limit: nat) returns (ghost events: seq<Event>)
      requires Valid() && !session.closing
      modifies this
      ensures Valid() && Reached(plans, old(Now()), events, Now()) && |events| <= most + 1
      ensures session.closing || |events| == most || PendingBytes() >= limit || (queue == [] && !finished)
      ensures old(queue) == [] && finished ==>
        && session == old(session).(closing := most > 0 && old(PendingBytes()) < limit)
        && PendingBytes() == old(PendingBytes())
    {
      events := [];
      var drained := 0;
      while drained < most && PendingBytes() < limit && !session.closing
        invariant Valid() && Reached(plans, old(Now()), events, Now())
        invariant drained == |events| <= most
        invariant old(queue) == [] ==> drained == 0 && Now() == old(Now()) && PendingBytes() == old(PendingBytes())
        decreases most - drained
      {
        ghost var before := Now();
        if queue == [] {
          if finished {
            session := session.(closing := true);
            ReachedMore(plans, old(Now()), events, before, Hung, Now());
            events := events + [Hung];
          }
          return;
        }
        drained := drained + 1;
        DrainOne();
        ReachedMore(plans, old(Now()), events, before, Drained, Now());
        events := events + [Drained];
      }
    }

    /** EOF after the replay of a job that had ended, else the drain loop. */
    method AdvanceLive(most: nat, limit: nat) returns (ghost events: seq<Event>)
      requires Valid() && !session.closing
      modifies this
      ensures Valid() && Reached(plans, old(Now()), events, Now()) && |events| <= most + 1
      ensures jobFinished && ReplayDone(plans, old(session)) ==> events == [Concluded(endState, endExit)]
      ensures !(jobFinished && ReplayDone(plans, old(session))) ==>
        || session.closing || |events| == most || PendingBytes() >= limit || (queue == [] && !finished)
      ensures jobFinished && old(queue) == [] && most > 0 ==>
        && PendingBytes() >= old(PendingBytes())
        && session == Concludes(plans, old(session), endState, endExit, old(PendingBytes()) < limit)
        && (!session.eofQueued ==> PendingBytes() == old(PendingBytes()))
    {
      if jobFinished && ReplayDone(plans, session) {
        QueueEofFrame(endState, endExit);
        events := [Concluded(endState, endExit)];
        ReachedMore(plans, old(Now()), [], old(Now()), Concluded(endState, endExit), Now());
      } else {
        events := DrainLive(most, limit);
      }
    }

    /** Hands everything that is pending to the socket. It takes all of it, or the session is dropped. When it
        did, what it has taken so far is the answer and every frame of the session, in order. */
    method Flush(ok: bool) returns (kept: bool)
      requires Valid()
      modifies `outgoing, `sent, `taken
      ensures kept <==> ok || old(PendingBytes()) == 0
      ensures kept ==> Valid() && PendingBytes() == 0 && Taken() == prelude + FramesText(session.frames)
    {
      SpelledText(session.frames, texts);
      if PendingBytes() == 0 {
        assert outgoing[..sent] == outgoing;
        return true;
      }
      if !ok {
        return false;
      }
      sent := sent + PendingBytes();
      if sent == |outgoing| {
        taken := taken + outgoing;
        outgoing, sent := "", 0;
        assert taken + "" == taken && outgoing[..sent] == "";
      }
      return true;
    }

    /** One cycle: the session after it is one that a run of the protocol's steps reaches. */
    method Advance(most: nat, limit: nat) returns (ghost events: seq<Event>, ghost n: nat, ghost m: nat)
      requires Valid()
      modifies this
      ensures Valid() && Reached(plans, old(Now()), events, Now())
      ensures old(session).closing ==> events == []
      ensures jobFinished && old(queue) == [] && most > 0 && !old(session).closing ==>
        && session == Concludes(plans, BothReplayed(plans, old(session), n, m), endState, endExit,
                                PendingBytes() < limit)
        && Reaches(plans, old(session), 0, n, PendingBytes() < limit)
        && Reaches(plans, old(session), 1, m, PendingBytes() < limit)
        && CycleOfEnded(plans, old(session), session, PendingBytes() < limit)
    {
      events, n, m := [], 0, 0;
      if session.closing {
        return;
      }
      ghost var start := Now();
      var first := ReplayStream(0, limit);
      ghost var middle := Now();
      var second := ReplayStream(1, limit);
      ghost var late := Now();
      n, m := first, second;
      ManyMoved(plans, start.session, 0, n);
      var third := AdvanceLive(most, limit);
      if jobFinished && start.queue == [] && most > 0 {
        CycleEnds(plans, start.session, n, m, PendingBytes() < limit, endState, endExit);
      }
      ManyReached(plans, start, 0, n);
      ManyReached(plans, middle, 1, m);
      ReachedJoin(plans, start, Replays(0, n), middle, Replays(1, m), late);
      ReachedJoin(plans, start, Replays(0, n) + Replays(1, m), late, third, Now());
      events := Replays(0, n) + Replays(1, m) + third;
    }
  }

  // ---- A replay of seventeen chunks ----

  lemma DataTextSize(k: int, c: Chunk)
    requires Stream(k) && Carried(c)
    ensures |FrameText(DataFrame(k, c))| <= 27 + |c.data|
  {
    DataEncodes(k, c);
  }

  lemma {:induction false} SmallTexts(cs: seq<Chunk>, k: int)
    requires Stream(k) && forall i :: 0 <= i < |cs| ==> Carried(cs[i]) && |cs[i].data| <= 1
    ensures |FramesText(DataFrames(k, cs))| <= 28 * |cs|
  {
    if cs != [] {
      SmallTexts(cs[..|cs| - 1], k);
      DataTextSize(k, cs[|cs| - 1]);
    }
  }

  const SEVENTEEN := L.Plan(0, 0, seq(17, i => L.Chunk(i, i + 1, "a")))

  lemma FirstFrames(plans: Plans, n: nat)
    requires |plans| == 2 && n < |plans[0].chunks|
    ensures var r := BothReplayed(plans, Begin(plans), n, 0);
      r.frames == DataFrames(0, plans[0].chunks[..n]) && !ReplayDone(plans, r)
  {
    ManyFrames(plans, Begin(plans), 0, n);
    ManyMoved(plans, Begin(plans), 0, n);
    assert plans[0].chunks[0..n] == plans[0].chunks[..n];
    assert [] + DataFrames(0, plans[0].chunks[..n]) == DataFrames(0, plans[0].chunks[..n]);
  }

  lemma CutTexts(n: nat)
    requires n <= 17
    ensures |FramesText(DataFrames(0, SEVENTEEN.chunks[..n]))| <= 28 * n
  {
    SmallTexts(SEVENTEEN.chunks[..n], 0);
  }

  /** A job that had ended, with seventeen bytes to replay one by one, under the default configuration: the
      session is closed after sixteen of them, without EOF. */
  method CutShort(state: int, exit: Option<WireExit>) returns (s: LogSession)
    ensures fresh(s) && s.jobFinished && s.session.closing && !s.session.eofQueued
    ensures s.session.frames == DataFrames(0, SEVENTEEN.chunks[..REPLAY_CHUNKS_PER_CYCLE])
  {
    s := new LogSession([SEVENTEEN, L.Plan(0, 0, [])], [17, 0], "", true, state, exit);
    var events, n, m := s.Advance(32, 2 * 1024 * 1024);
    FirstFrames(s.plans, n);
    CutTexts(n);
    SpelledText(s.session.frames, s.texts);
  }

  lemma {:induction false} ReachedJoin(plans: Plans, a: World, first: seq<Event>, b: World, second: seq<Event>,
                                       c: World)
    requires Reached(plans, a, first, b) && Reached(plans, b, second, c)
    ensures Reached(plans, a, first + second, c)
    decreases first
  {
    if first == [] {
      assert first + second == second;
    } else {
      ReachedJoin(plans, Step(plans, a, first[0]), first[1..], b, second, c);
      assert (first + second)[1..] == first[1..] + second;
    }
  }
}
