/**
 * Many threads writing to one WebSocket.  A frame is written in one piece under the write lock, so threads interleave
 * frame by frame; at most one of them is in the middle of a fragmented message at any time.
 */
module WsWriters {
  import opened Common
  import opened WsFrame
  import opened WsReceive
  import opened DataFrame

  type Thread = nat

  /** The message being sent in fragments, and how much of it has been written. */
  datatype OpenTrain = OpenTrain(thread: Thread, data: Bytes, off: nat)

  datatype Done = Done(thread: Thread, event: Event)

  /** `begun` logs messages in the order their sends began, `done` in the order their last frames were written. */
  datatype Writers = Writers(wire: seq<Frame>, train: Option<OpenTrain>, begun: seq<Done>, done: seq<Done>)

  datatype Turn =
    | Whole(thread: Thread, op: Op)
    | Reply(payload: Bytes)
    | Begin(thread: Thread, data: Bytes)
    | Continue

  predicate Enabled(w: Writers, t: Turn) {
    match t
    case Whole(thread, op) =>
      |OpFrames(op)| == 1 && Acceptable(op) && (w.train.Some? ==> w.train.value.thread != thread)
    case Reply(payload) => |payload| <= MAX_PAYLOAD
    case Begin(_, data) => w.train.None? && |data| > SEND_CHUNK
    case Continue => w.train.Some? && w.train.value.off < |w.train.value.data|
  }

  function Logged(thread: Thread, op: Op): seq<Done> {
    match op
    case SendText(bytes) => [Done(thread, Received(TextMessage(bytes)))]
    case SendBinary(bytes) => [Done(thread, Received(BinaryMessage(bytes)))]
    case SendPing => []
  }

  /** One frame goes out. */
  function Take(w: Writers, t: Turn): Writers
    requires Enabled(w, t)
  {
    match t
    case Whole(thread, op) =>
      w.(wire := w.wire + OpFrames(op), begun := w.begun + Logged(thread, op), done := w.done + Logged(thread, op))
    case Reply(payload) => w.(wire := w.wire + [Frame(true, PONG, payload)])
    case Begin(thread, data) =>
      w.(wire := w.wire + [Frame(false, BINARY, data[..SEND_CHUNK])],
         train := Some(OpenTrain(thread, data, SEND_CHUNK)),
         begun := w.begun + Logged(thread, SendBinary(data)))
    case Continue =>
      var tr := w.train.value;
      var size := if SEND_CHUNK < |tr.data| - tr.off then SEND_CHUNK else |tr.data| - tr.off;
      var last := tr.off + size >= |tr.data|;
      var wire := w.wire + [Frame(last, CONTINUATION, tr.data[tr.off..tr.off + size])];
      if last then w.(wire := wire, train := None, done := w.done + Logged(tr.thread, SendBinary(tr.data)))
      else w.(wire := wire, train := Some(tr.(off := tr.off + size)))
  }

  function Run(turns: seq<Turn>): Writers {
    if turns == [] then Writers([], None, [], [])
    else
      var w, t := Run(turns[..|turns| - 1]), turns[|turns| - 1];
      if Enabled(w, t) then Take(w, t) else w
  }

  function Events(done: seq<Done>): (es: seq<Event>)
    ensures |es| == |done|
  {
    seq(|done|, k requires 0 <= k < |done| => done[k].event)
  }

  /** The receiver, having seen the wire so far, holds exactly what the writers have finished and begun. */
  predicate Follows(w: Writers, e: Endpoint) {
    && e.events == Events(w.done)
    && match w.train
       case None => Between(e)
       case Some(tr) =>
         0 < tr.off < |tr.data| && e.fragOpcode == BINARY && e.fragBuf == tr.data[..tr.off]
  }

  predicate FrameFits(f: Frame) {
    |f.payload| <= MAX_PAYLOAD && f.opcode != CLOSE
  }

  lemma OneFrame(e: Endpoint, f: Frame)
    ensures OnFrames(e, [f]) == OnFrame(e, f)
  {
    assert [f][1..] == [];
  }

  lemma EventsSnoc(done: seq<Done>, d: Done)
    ensures Events(done + [d]) == Events(done) + [d.event]
  {
  }

  /** A whole one-frame message lands between the fragments of another without touching them. */
  lemma WholeFollows(w: Writers, e: Endpoint, thread: Thread, op: Op)
    requires Follows(w, e) && Enabled(w, Whole(thread, op))
    ensures Follows(Take(w, Whole(thread, op)), OnFrames(e, OpFrames(op)))
    ensures FrameFits(OpFrames(op)[0]) && OpFrames(op) == [OpFrames(op)[0]]
  {
    OneFrame(e, OpFrames(op)[0]);
    assert OpFrames(op) == [OpFrames(op)[0]];
    if op.SendBinary? { SingleFragment(op.bytes); }
  }

  lemma SingleFragment(data: Bytes)
    ensures |Train(data, BINARY)| == 1 <==> |data| <= SEND_CHUNK
  {
  }

  lemma ContinueFollows(w: Writers, e: Endpoint)
    requires Follows(w, e) && Enabled(w, Continue)
    ensures var w' := Take(w, Continue); var f := w'.wire[|w.wire|];
            w'.wire == w.wire + [f] && FrameFits(f) && Follows(w', OnFrame(e, f))
  {
    var tr := w.train.value;
    var size := if SEND_CHUNK < |tr.data| - tr.off then SEND_CHUNK else |tr.data| - tr.off;
    assert tr.data[..tr.off] + tr.data[tr.off..tr.off + size] == tr.data[..tr.off + size];
    assert tr.data[..|tr.data|] == tr.data;
    EventsSnoc(w.done, Done(tr.thread, Received(BinaryMessage(tr.data))));
  }

  lemma TakeFollows(w: Writers, e: Endpoint, t: Turn)
    requires Follows(w, e) && Enabled(w, t)
    ensures var w' := Take(w, t); var f := w'.wire[|w.wire|];
            w'.wire == w.wire + [f] && FrameFits(f) && Follows(w', OnFrame(e, f))
  {
    match t
    case Whole(thread, op) =>
      WholeFollows(w, e, thread, op);
      OneFrame(e, OpFrames(op)[0]);
    case Reply(payload) =>
    case Begin(thread, data) =>
    case Continue => ContinueFollows(w, e);
  }

  lemma {:induction false} RunFollows(turns: seq<Turn>)
    ensures Follows(Run(turns), OnFrames(Fresh(), Run(turns).wire))
    ensures forall f | f in Run(turns).wire :: FrameFits(f)
  {
    if turns != [] {
      var w, t := Run(turns[..|turns| - 1]), turns[|turns| - 1];
      RunFollows(turns[..|turns| - 1]);
      if Enabled(w, t) {
        var e := OnFrames(Fresh(), w.wire);
        TakeFollows(w, e, t);
        var f := Take(w, t).wire[|w.wire|];
        OnFramesConcat(Fresh(), w.wire, [f]);
        OneFrame(e, f);
      }
    }
  }

  /**
   * Any interleaving is delivered: the receiver gets every finished message intact, in the order their last frames
   * were written, whatever the keys and however its reads split the stream.
   */
  lemma InterleavedRoundTrip(turns: seq<Turn>, ws: seq<Wire>)
    requires Frames(ws) == Run(turns).wire
    ensures Sendable(ws)
    ensures Consume(Fresh(), EncodeAll(ws)).events == Events(Run(turns).done) + [Ended("connection closed")]
  {
    RunFollows(turns);
    forall k | 0 <= k < |ws| ensures Carried(ws[k]) {
      assert Frames(ws)[k] in Run(turns).wire;
      assert FrameFits(Frames(ws)[k]);
    }
    ConsumeAll(Fresh(), ws, []);
    assert EncodeAll(ws) + [] == EncodeAll(ws);
    hide OnFrames, EncodeAll, Run;
  }

  // ----- the order of each thread's messages -----------------------------------------------

  function OfThread(log: seq<Done>, thread: Thread): seq<Done> {
    if log == [] then []
    else
      OfThread(log[..|log| - 1], thread) + if log[|log| - 1].thread == thread then [log[|log| - 1]] else []
  }

  lemma OfThreadSnoc(log: seq<Done>, d: Done, thread: Thread)
    ensures OfThread(log + [d], thread) == OfThread(log, thread) + if d.thread == thread then [d] else []
  {
    assert (log + [d])[..|log|] == log;
  }

  /** The message a thread has begun and not finished. */
  function Unfinished(w: Writers, thread: Thread): seq<Done> {
    if w.train.Some? && w.train.value.thread == thread
    then [Done(thread, Received(BinaryMessage(w.train.value.data)))] else []
  }

  /** What a thread has begun is what it has finished, then at most one message still under way. */
  predicate InOrder(w: Writers, thread: Thread) {
    OfThread(w.begun, thread) == OfThread(w.done, thread) + Unfinished(w, thread)
  }

  /** Each thread's messages are finished in the order it began them. */
  lemma {:induction false} ThreadOrder(turns: seq<Turn>, thread: Thread)
    ensures InOrder(Run(turns), thread)
  {
    if turns != [] {
      var w, t := Run(turns[..|turns| - 1]), turns[|turns| - 1];
      ThreadOrder(turns[..|turns| - 1], thread);
      if Enabled(w, t) { TurnKeepsOrder(w, t, thread); }
    }
  }

  lemma WholeKeepsOrder(w: Writers, who: Thread, op: Op, thread: Thread)
    requires Enabled(w, Whole(who, op)) && InOrder(w, thread)
    ensures InOrder(Take(w, Whole(who, op)), thread)
  {
    hide OfThread, OpFrames;
    var d := Logged(who, op);
    if d != [] {
      OfThreadSnoc(w.begun, d[0], thread);
      OfThreadSnoc(w.done, d[0], thread);
      assert d == [d[0]];
    } else {
      assert w.begun + d == w.begun && w.done + d == w.done;
    }
  }

  lemma ContinueKeepsOrder(w: Writers, thread: Thread)
    requires Enabled(w, Continue) && InOrder(w, thread)
    ensures InOrder(Take(w, Continue), thread)
  {
    hide OfThread;
    OfThreadSnoc(w.done, Done(w.train.value.thread, Received(BinaryMessage(w.train.value.data))), thread);
  }

  lemma TurnKeepsOrder(w: Writers, t: Turn, thread: Thread)
    requires Enabled(w, t) && InOrder(w, thread)
    ensures InOrder(Take(w, t), thread)
  {
    hide OfThread;
    match t
    case Whole(who, op) => WholeKeepsOrder(w, who, op, thread);
    case Reply(_) =>
    case Begin(who, data) => OfThreadSnoc(w.begun, Done(who, Received(BinaryMessage(data))), thread);
    case Continue => ContinueKeepsOrder(w, thread);
  }

  // ----- when the hypothesis holds ---------------------------------------------------------------

  /**
   * A thread that is not itself in the middle of a message may send a data message at any time, whatever the others
   * are doing, exactly when its chunk leaves room for the id in one frame; a chunk of 64 KiB does.
   */
  lemma DataMessagesAreWhole(w: Writers, thread: Thread, id: Word, chunk: Bytes)
    requires w.train.Some? ==> w.train.value.thread != thread
    ensures Enabled(w, Whole(thread, SendBinary(EncodeData(id, chunk)))) <==> |chunk| <= SEND_CHUNK - HEADER
    ensures |chunk| <= 65536 ==> |chunk| <= SEND_CHUNK - HEADER
  {
    SingleFragment(EncodeData(id, chunk));
  }

  /** Without it delivery fails: two fragmented messages at once come out as one wrong message. */
  lemma TwoTrainsCorrupt(a0: Bytes, a1: Bytes, b0: Bytes, b1: Bytes)
    ensures OnFrames(Fresh(), [Frame(false, BINARY, a0), Frame(false, BINARY, b0),
                               Frame(true, CONTINUATION, a1), Frame(true, CONTINUATION, b1)]).events
         == [Received(BinaryMessage(b0 + a1))]
  {
    var f0, f1, f2, f3 := Frame(false, BINARY, a0), Frame(false, BINARY, b0),
                          Frame(true, CONTINUATION, a1), Frame(true, CONTINUATION, b1);
    Uncons(Fresh(), f0, [f1, f2, f3]);
    Uncons(OnFrame(Fresh(), f0), f1, [f2, f3]);
    Uncons(OnFrame(OnFrame(Fresh(), f0), f1), f2, [f3]);
    OneFrame(OnFrame(OnFrame(OnFrame(Fresh(), f0), f1), f2), f3);
    assert [f0] + [f1, f2, f3] == [f0, f1, f2, f3] && [f1] + [f2, f3] == [f1, f2, f3] && [f2] + [f3] == [f2, f3];
    hide OnFrames;
  }

  lemma Uncons(e: Endpoint, f: Frame, rest: seq<Frame>)
    ensures OnFrames(e, [f] + rest) == OnFrames(OnFrame(e, f), rest)
  {
    assert ([f] + rest)[1..] == rest;
  }
}
