/** How a follow session ends: one closing frame, behind everything else, that says how the job ended
    (log_follow_service.cpp). */
module FollowEnd {
  import opened Basics
  import opened Messages
  import opened StreamFrames
  import opened FollowSession

  /** The end of the job was announced to the session with this state and exit. */
  ghost predicate Told(done: seq<Event>, state: int, exit: Option<WireExit>) {
    exists i :: 0 <= i < |done| && (done[i] == Finished(state, exit, true) || done[i] == Concluded(state, exit))
  }

  /** Everything before the last frame is data. */
  predicate DataFirst(frames: seq<StreamFrame>) {
    forall i :: 0 <= i < |frames| - 1 ==> frames[i].LogData?
  }

  /** A session that has not said goodbye has sent data only; one that has did so once, with EOF for an end it
      was told of or with BACKPRESSURE. */
  ghost predicate EndsOnce(done: seq<Event>, s: Session) {
    && DataFirst(s.frames)
    && (s.frames != [] && !s.frames[|s.frames| - 1].LogData? ==> s.closing)
    && (s.eofQueued <==> s.frames != [] && s.frames[|s.frames| - 1].LogEof?)
    && (s.backpressure <==> s.frames != [] && s.frames[|s.frames| - 1].LogBackpressure?)
    && (s.eofQueued ==> Told(done, s.frames[|s.frames| - 1].state, s.frames[|s.frames| - 1].exit))
  }

  ghost predicate AllTold(done: seq<Event>, queue: seq<Item>) {
    forall i :: 0 <= i < |queue| && queue[i].Finish? ==> Told(done, queue[i].state, queue[i].exit)
  }

  lemma ToldMore(done: seq<Event>, e: Event, state: int, exit: Option<WireExit>)
    ensures Told(done, state, exit) ==> Told(done + [e], state, exit)
    ensures e == Finished(state, exit, true) || e == Concluded(state, exit) ==> Told(done + [e], state, exit)
  {
    if Told(done, state, exit) {
      var i :| 0 <= i < |done| && (done[i] == Finished(state, exit, true) || done[i] == Concluded(state, exit));
      assert (done + [e])[i] == done[i];
    }
    assert (done + [e])[|done|] == e;
  }

  lemma EndsMore(done: seq<Event>, e: Event, s: Session, queue: seq<Item>)
    requires EndsOnce(done, s) && AllTold(done, queue)
    ensures EndsOnce(done + [e], s) && AllTold(done + [e], queue)
  {
    if s.eofQueued {
      ToldMore(done, e, s.frames[|s.frames| - 1].state, s.frames[|s.frames| - 1].exit);
    }
    forall i | 0 <= i < |queue| && queue[i].Finish? ensures Told(done + [e], queue[i].state, queue[i].exit) {
      ToldMore(done, e, queue[i].state, queue[i].exit);
    }
  }

  /** The end of the job closes an open session with the very state and exit it was given, and does nothing
      to a closed one. */
  lemma EofSays(s: Session, state: int, exit: Option<WireExit>)
    requires s.eofQueued ==> s.closing
    ensures var r := QueueEof(s, state, exit);
      && r.positions == s.positions && r.backpressure == s.backpressure && r.closing
      && (s.closing ==> r == s) && (!s.closing ==> r.eofQueued && r.frames == s.frames + [LogEof(state, exit)])
  {
  }

  lemma EofEnds(done: seq<Event>, s: Session, state: int, exit: Option<WireExit>)
    requires EndsOnce(done, s) && Told(done, state, exit)
    ensures EndsOnce(done, QueueEof(s, state, exit))
  {
    EofSays(s, state, exit);
  }

  lemma ReplayEnds(done: seq<Event>, plans: Plans, s: Session, k: int)
    requires |plans| == 2 && |s.positions| == 2 && Stream(k) && EndsOnce(done, s)
    ensures EndsOnce(done, ReplayNext(plans, s, k))
  {
  }

  lemma ReceiveEnds(done: seq<Event>, s: Session, k: int, c: Chunk)
    requires |s.positions| == 2 && Stream(k) && EndsOnce(done, s)
    ensures EndsOnce(done, Receive(s, k, c))
  {
  }

  lemma DrainEnds(done: seq<Event>, w: World)
    requires |w.session.positions| == 2 && w.queue != [] && (w.queue[0].Piece? ==> Stream(w.queue[0].source))
    requires EndsOnce(done, w.session) && AllTold(done, w.queue)
    ensures EndsOnce(done, Drain(w.session, w.queue[0])) && AllTold(done, w.queue[1..])
  {
    match w.queue[0]
    case Piece(k, c) => ReceiveEnds(done, w.session, k, c);
    case Finish(state, exit) => EofEnds(done, w.session, state, exit);
  }

  lemma OfferTold(done: seq<Event>, queue: seq<Item>, item: Item, taken: bool)
    requires AllTold(done, queue) && (item.Finish? && taken ==> Told(done, item.state, item.exit))
    ensures AllTold(done, Offer(queue, item, taken))
  {
  }

  lemma StepEnds(plans: Plans, w: World, e: Event, done: seq<Event>)
    requires Shaped(plans, w) && Possible(plans, w, e) && EndsOnce(done, w.session) && AllTold(done, w.queue)
    ensures EndsOnce(done + [e], Step(plans, w, e).session) && AllTold(done + [e], Step(plans, w, e).queue)
  {
    EndsMore(done, e, w.session, w.queue);
    match e
    case Replayed(k) => ReplayEnds(done + [e], plans, w.session, k);
    case Published(k, c, taken) => OfferTold(done + [e], w.queue, Piece(k, c), taken);
    case Finished(state, exit, taken) =>
      ToldMore(done, e, state, exit);
      OfferTold(done + [e], w.queue, Finish(state, exit), taken);
    case Unregistered =>
    case Drained => DrainEnds(done + [e], w);
    case Hung =>
    case Concluded(state, exit) =>
      ToldMore(done, e, state, exit);
      EofEnds(done + [e], w.session, state, exit);
  }

  lemma {:induction false} StepsEnd(plans: Plans, w: World, events: seq<Event>, done: seq<Event>)
    requires Shaped(plans, w) && AllPossible(plans, w, events)
    requires EndsOnce(done, w.session) && AllTold(done, w.queue)
    ensures EndsOnce(done + events, Steps(plans, w, events).session)
    decreases events
  {
    if events == [] {
      assert done + events == done;
    } else {
      StepEnds(plans, w, events[0], done);
      StepsEnd(plans, Step(plans, w, events[0]), events[1..], done + [events[0]]);
      assert done + [events[0]] + events[1..] == done + events;
    }
  }

  /** In every session there is at most one closing frame, it comes last, and an EOF carries a state and an
      exit with which the end of the job was announced to the session. */
  lemma FollowEndsOnce(plans: Plans, froms: seq<int>, finished: bool, events: seq<Event>)
    requires |plans| == |froms| == 2 && AllPossible(plans, Start(plans, froms, finished), events)
    ensures EndsOnce(events, Steps(plans, Start(plans, froms, finished), events).session)
  {
    StepsEnd(plans, Start(plans, froms, finished), events, []);
    assert [] + events == events;
  }

  // ---- The topic ----

  predicate Ends(e: Event) {
    e.Finished? || e.Unregistered?
  }

  /** A session that finds the topic closed and nothing left is closed, and nothing is sent for it. */
  lemma HungCloses(plans: Plans, w: World)
    requires Shaped(plans, w) && Possible(plans, w, Hung) && (w.session.eofQueued ==> w.session.closing)
    ensures Step(plans, w, Hung) == w.(session := w.session.(closing := true))
  {
  }

  /** The topic is closed exactly once the end of the job was published or the job unregistered. */
  lemma {:induction false} TopicCloses(plans: Plans, w: World, events: seq<Event>)
    requires Shaped(plans, w) && AllPossible(plans, w, events)
    ensures Steps(plans, w, events).finished <==> w.finished || exists i :: 0 <= i < |events| && Ends(events[i])
    decreases events
  {
    if events != [] {
      TopicCloses(plans, Step(plans, w, events[0]), events[1..]);
      assert forall i :: 1 <= i < |events| ==> events[i] == events[1..][i - 1];
      assert (exists i :: 0 <= i < |events| && Ends(events[i])) <==>
        Ends(events[0]) || exists i :: 0 <= i < |events[1..]| && Ends(events[1..][i]);
    }
  }
}
