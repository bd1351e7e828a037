/**
 * What a read loop does with frames and with a raw byte stream, and the round trip: whatever one end sends, the
 * other end's handlers get.
 */
module WsReceive {
  import opened Common
  import opened WsFrame

  datatype WsState = Open | Closing | Closed

  datatype Message = TextMessage(bytes: Bytes) | BinaryMessage(bytes: Bytes)

  /** Calls of the text or binary handler, of the error handler, and of the close handler. */
  datatype Event = Received(message: Message) | Errored(reason: string) | Ended(reason: string)

  /**
   * The state of one endpoint.  `sent` are the frames it has put on its own outgoing stream, which takes them only
   * while `writable`; `events` are the handler calls it made.
   */
  datatype Endpoint = Endpoint(
    state: WsState, fragOpcode: Opcode, fragBuf: Bytes, emitted: bool, writable: bool,
    statusCode: nat, closeReason: string, events: seq<Event>, sent: seq<Frame>)

  /** An endpoint just past its handshake. */
  function Fresh(): Endpoint {
    Endpoint(Open, 0, [], false, true, 1006, "", [], [])
  }

  // ----- one frame ---------------------------------------------------------------------

  /** `sendFrame`: data only while open, control frames always, as long as the stream takes them. */
  function Send(e: Endpoint, f: Frame): Endpoint {
    if (e.state == Open || f.opcode >= 8) && e.writable then e.(sent := e.sent + [f]) else e
  }

  function Deliver(e: Endpoint, opcode: Opcode, payload: Bytes): Endpoint {
    if opcode == TEXT then e.(events := e.events + [Received(TextMessage(payload))])
    else if opcode == BINARY then e.(events := e.events + [Received(BinaryMessage(payload))])
    else e
  }

  /** `dispatchFrame` */
  function Dispatch(e: Endpoint, f: Frame): Endpoint {
    if f.opcode == CONTINUATION then
      if e.fragOpcode == 0 then e
      else if !f.fin then e.(fragBuf := e.fragBuf + f.payload)
      else Deliver(e.(fragBuf := [], fragOpcode := 0), e.fragOpcode, e.fragBuf + f.payload)
    else if !f.fin then e.(fragOpcode := f.opcode, fragBuf := f.payload)
    else Deliver(e, f.opcode, f.payload)
  }

  /** `handleControl` */
  function Control(e: Endpoint, f: Frame): Endpoint {
    if f.opcode == PING then Send(e, Frame(true, PONG, f.payload))
    else if f.opcode == CLOSE && e.state != Closed then
      var e1 := if e.state == Open then Send(e.(state := Closing), Frame(true, CLOSE, f.payload)) else e;
      var e2 := if |f.payload| >= 2 then e1.(statusCode := BigEndian(f.payload[..2])) else e1;
      if |f.payload| > 2 then e2.(closeReason := AsText(f.payload[2..])) else e2
    else e
  }

  function OnFrame(e: Endpoint, f: Frame): Endpoint {
    if f.opcode >= 8 then Control(e, f) else Dispatch(e, f)
  }

  function OnFrames(e: Endpoint, fs: seq<Frame>): Endpoint
    decreases |fs|
  {
    if fs == [] then e else OnFrames(OnFrame(e, fs[0]), fs[1..])
  }

  lemma {:induction false} OnFramesConcat(e: Endpoint, fs: seq<Frame>, gs: seq<Frame>)
    ensures OnFrames(e, fs + gs) == OnFrames(OnFrames(e, fs), gs)
    decreases |fs|
  {
    if fs == [] {
      assert fs + gs == gs;
    } else {
      OnFramesConcat(OnFrame(e, fs[0]), fs[1..], gs);
      assert (fs + gs)[1..] == fs[1..] + gs;
    }
  }

  /** `emitClose` */
  function EmitClose(e: Endpoint, reason: string): Endpoint {
    if e.emitted then e else e.(emitted := true, events := e.events + [Ended(reason)])
  }

  /** `failConnection` */
  function Fail(e: Endpoint, reason: string, notify: bool): Endpoint {
    if e.state == Closed then e
    else
      var e1 := e.(state := Closed, writable := false);
      EmitClose(if notify then e1.(events := e1.events + [Errored(reason)]) else e1, reason)
  }

  // ----- a byte stream ------------------------------------------------------------------------

  /** The whole read loop on everything that arrives before the stream ends. */
  function Consume(e: Endpoint, s: Bytes): Endpoint
    decreases |s|
  {
    if e.state == Closed then e
    else
      match ParseFrame(s)
      case Short => Fail(e, "connection closed", false)
      case Oversized => Fail(e, "payload too large", true)
      case Parsed(f, n) =>
        var e' := OnFrame(e, f);
        if f.opcode == CLOSE then Fail(e', "connection closed", false) else Consume(e', s[n..])
  }

  predicate Carried(w: Wire) {
    |w.frame.payload| <= MAX_PAYLOAD && w.frame.opcode != CLOSE
  }

  function Frames(ws: seq<Wire>): (fs: seq<Frame>)
    ensures |fs| == |ws|
  {
    seq(|ws|, k requires 0 <= k < |ws| => ws[k].frame)
  }

  lemma ConsumeOne(e: Endpoint, w: Wire, rest: Bytes)
    requires e.state == Open && Carried(w)
    ensures Consume(e, Encode(w) + rest) == Consume(OnFrame(e, w.frame), rest)
  {
    FrameRoundTrip(w, rest);
    hide Encode, ParseFrame, OnFrame;
  }

  lemma StaysOpen(e: Endpoint, f: Frame)
    requires f.opcode != CLOSE
    ensures OnFrame(e, f).state == e.state && OnFrame(e, f).emitted == e.emitted
  {
  }

  lemma FramesFirst(e: Endpoint, ws: seq<Wire>)
    requires ws != []
    ensures ws == [ws[0]] + ws[1..]
    ensures OnFrames(e, Frames(ws)) == OnFrames(OnFrame(e, ws[0].frame), Frames(ws[1..]))
  {
    assert Frames(ws)[1..] == Frames(ws[1..]);
  }

  /** A stream of encoded frames acts on the endpoint frame by frame, whatever the keys and whatever follows. */
  lemma {:induction false} ConsumeAll(e: Endpoint, ws: seq<Wire>, rest: Bytes)
    requires e.state == Open && Sendable(ws) && forall k | 0 <= k < |ws| :: Carried(ws[k])
    ensures Consume(e, EncodeAll(ws) + rest) == Consume(OnFrames(e, Frames(ws)), rest)
    ensures OnFrames(e, Frames(ws)).state == Open && OnFrames(e, Frames(ws)).emitted == e.emitted
    decreases |ws|
  {
    if ws == [] {
      assert [] + rest == rest;
    } else {
      var w, tail := ws[0], ws[1..];
      FramesFirst(e, ws);
      assert Sendable(tail) && Carried(w) && w.frame.opcode != CLOSE && |w.frame.payload| < WORD_LIMIT;
      hide *;
      StaysOpen(e, w.frame);
      ConsumeAll(OnFrame(e, w.frame), tail, rest);
      EncodeCons(w, tail);
      ConsumeOne(e, w, EncodeAll(tail) + rest);
      ConcatAssoc(Encode(w), EncodeAll(tail), rest);
    }
  }

  // ----- sending ---------------------------------------------------------------------------------

  datatype Op = SendText(bytes: Bytes) | SendBinary(bytes: Bytes) | SendPing

  /** The fragments of one binary message, the first of which carries `opcode`. */
  function Train(data: Bytes, opcode: Opcode): (fs: seq<Frame>)
    ensures fs != []
  {
    if |data| <= SEND_CHUNK then [Frame(true, opcode, data)]
    else [Frame(false, opcode, data[..SEND_CHUNK])] + Train(data[SEND_CHUNK..], CONTINUATION)
  }

  function OpFrames(op: Op): seq<Frame> {
    match op
    case SendText(bytes) => [Frame(true, TEXT, bytes)]
    case SendBinary(bytes) => Train(bytes, BINARY)
    case SendPing => [Frame(true, PING, [])]
  }

  function OpsFrames(ops: seq<Op>): seq<Frame> {
    if ops == [] then [] else OpFrames(ops[0]) + OpsFrames(ops[1..])
  }

  function OpMessages(op: Op): seq<Event> {
    match op
    case SendText(bytes) => [Received(TextMessage(bytes))]
    case SendBinary(bytes) => [Received(BinaryMessage(bytes))]
    case SendPing => []
  }

  function Messages(ops: seq<Op>): seq<Event> {
    if ops == [] then [] else OpMessages(ops[0]) + Messages(ops[1..])
  }

  /** Every fragment fits in a frame a receiver takes, and none is a Close. */
  lemma {:induction false} TrainFits(data: Bytes, opcode: Opcode)
    requires opcode == BINARY || opcode == CONTINUATION
    ensures forall k | 0 <= k < |Train(data, opcode)| ::
              var f := Train(data, opcode)[k];
              |f.payload| <= SEND_CHUNK && (f.opcode == opcode || f.opcode == CONTINUATION)
    decreases |data|
  {
    if |data| > SEND_CHUNK { TrainFits(data[SEND_CHUNK..], CONTINUATION); }
  }

  /** The rest of a train completes the message that is being put together. */
  lemma {:induction false} TrainTail(e: Endpoint, data: Bytes)
    requires e.fragOpcode == BINARY
    ensures OnFrames(e, Train(data, CONTINUATION))
         == e.(fragOpcode := 0, fragBuf := [], events := e.events + [Received(BinaryMessage(e.fragBuf + data))])
    decreases |data|
  {
    if |data| > SEND_CHUNK {
      var first, tail := data[..SEND_CHUNK], data[SEND_CHUNK..];
      var fs := Train(data, CONTINUATION);
      assert fs[1..] == Train(tail, CONTINUATION);
      TrainTail(OnFrame(e, fs[0]), tail);
      assert e.fragBuf + first + tail == e.fragBuf + data by { assert first + tail == data; }
    } else {
      assert Train(data, CONTINUATION)[1..] == [];
    }
  }

  /** Not inside a message that is being put together. */
  predicate Between(e: Endpoint) {
    e.fragOpcode == 0 && e.fragBuf == []
  }

  /** A receiver that is not inside a message gets a whole train as one message. */
  lemma TrainArrives(e: Endpoint, data: Bytes)
    requires Between(e)
    ensures OnFrames(e, Train(data, BINARY)) == e.(events := e.events + [Received(BinaryMessage(data))])
  {
    var fs := Train(data, BINARY);
    if |data| > SEND_CHUNK {
      assert fs[1..] == Train(data[SEND_CHUNK..], CONTINUATION);
      TrainTail(OnFrame(e, fs[0]), data[SEND_CHUNK..]);
      assert data[..SEND_CHUNK] + data[SEND_CHUNK..] == data;
    } else {
      assert fs[1..] == [];
    }
  }

  lemma OpArrives(e: Endpoint, op: Op)
    requires Between(e)
    ensures var e' := OnFrames(e, OpFrames(op)); Between(e') && e'.events == e.events + OpMessages(op)
  {
    match op
    case SendText(bytes) => assert OpFrames(op)[1..] == [];
    case SendBinary(bytes) => TrainArrives(e, bytes);
    case SendPing => assert OpFrames(op)[1..] == [];
  }

  lemma {:induction false} OpsArrive(e: Endpoint, ops: seq<Op>)
    requires Between(e)
    ensures var e' := OnFrames(e, OpsFrames(ops)); Between(e') && e'.events == e.events + Messages(ops)
    decreases |ops|
  {
    if ops != [] {
      hide OnFrames, OpFrames, OpMessages, Between;
      OpArrives(e, ops[0]);
      OpsArrive(OnFrames(e, OpFrames(ops[0])), ops[1..]);
      OnFramesConcat(e, OpFrames(ops[0]), OpsFrames(ops[1..]));
    }
  }

  predicate Acceptable(op: Op) {
    op.SendText? ==> |op.bytes| <= MAX_PAYLOAD
  }

  lemma {:induction false} OpsFit(ops: seq<Op>)
    requires forall k | 0 <= k < |ops| :: Acceptable(ops[k])
    ensures forall f | f in OpsFrames(ops) :: |f.payload| <= MAX_PAYLOAD && f.opcode != CLOSE
    decreases |ops|
  {
    if ops != [] {
      OpsFit(ops[1..]);
      if ops[0].SendBinary? { TrainFits(ops[0].bytes, BINARY); }
    }
  }

  /**
   * The round trip.  Whatever was sent, in whatever role and with whatever keys, the other end's handlers are called
   * with exactly those messages, in that order; then the stream ends and the close handler is called once.
   */
  lemma RoundTrip(e: Endpoint, ops: seq<Op>, ws: seq<Wire>)
    requires e.state == Open && !e.emitted && Between(e)
    requires forall k | 0 <= k < |ops| :: Acceptable(ops[k])
    requires Frames(ws) == OpsFrames(ops)
    ensures Sendable(ws)
    ensures Consume(e, EncodeAll(ws)).events == e.events + Messages(ops) + [Ended("connection closed")]
  {
    OpsFit(ops);
    forall k | 0 <= k < |ws| ensures Carried(ws[k]) { assert Frames(ws)[k] in OpsFrames(ops); }
    ConsumeAll(e, ws, []);
    assert EncodeAll(ws) + [] == EncodeAll(ws);
    OpsArrive(e, ops);
    hide OnFrames, EncodeAll, OpsFrames, Messages;
  }

  // ----- closing -----------------------------------------------------------------------------------

  /** The code, then as much of the reason as a control frame takes. */
  function ClosePayload(code: nat, reason: Bytes): (r: Bytes)
    requires code < 0x1_0000
    ensures 2 <= |r| <= 125
  {
    ToBigEndian(code, 2) + reason[..if |reason| < 123 then |reason| else 123]
  }

  /** `close` */
  function StartClose(e: Endpoint, code: nat, reason: Bytes): Endpoint
    requires code < 0x1_0000
  {
    if e.state == Closed then e
    else
      Send(e.(state := Closing), Frame(true, CLOSE, ClosePayload(code, reason)))
      .(statusCode := code, closeReason := AsText(reason))
  }

  lemma ClosePayloadParts(code: nat, reason: Bytes)
    requires code < 0x1_0000
    ensures BigEndian(ClosePayload(code, reason)[..2]) == code
    ensures ClosePayload(code, reason)[2..] == reason[..if |reason| < 123 then |reason| else 123]
  {
    assert Pow256(2) == 0x1_0000;
    BigEndianRoundTrip(code, 2);
    assert ClosePayload(code, reason)[..2] == ToBigEndian(code, 2);
  }

  /**
   * A Close of any length ends the read loop of an endpoint that is open or closing already: it learns what code and
   * reason there are, echoes the frame if it is the first Close here, and reads nothing after it.
   */
  lemma CloseOne(e: Endpoint, payload: Bytes, key: Option<Key>, after: Bytes)
    requires e.state != Closed && |payload| <= MAX_PAYLOAD
    ensures var e' := Consume(e, Encode(Wire(Frame(true, CLOSE, payload), key)) + after);
            && e'.events == (if e.emitted then e.events else e.events + [Ended("connection closed")])
            && e'.state == Closed && e'.emitted && !e'.writable
            && e'.statusCode == (if |payload| >= 2 then BigEndian(payload[..2]) else e.statusCode)
            && e'.closeReason == (if |payload| > 2 then AsText(payload[2..]) else e.closeReason)
            && e'.sent == if e.state == Open && e.writable then e.sent + [Frame(true, CLOSE, payload)] else e.sent
  {
    hide Encode, ParseFrame, BigEndian, AsText;
    FrameRoundTrip(Wire(Frame(true, CLOSE, payload), key), after);
  }

  /** Messages sent before a `close` are delivered first; bytes after it never are. */
  lemma CloseArrives(e: Endpoint, ops: seq<Op>, ws: seq<Wire>, code: nat, reason: Bytes, key: Option<Key>, after: Bytes)
    requires e.state == Open && !e.emitted && Between(e) && code < 0x1_0000
    requires forall k | 0 <= k < |ops| :: Acceptable(ops[k])
    requires Frames(ws) == OpsFrames(ops)
    ensures Sendable(ws)
    ensures var w := Wire(Frame(true, CLOSE, ClosePayload(code, reason)), key);
            var e' := Consume(e, EncodeAll(ws) + (Encode(w) + after));
            && e'.events == e.events + Messages(ops) + [Ended("connection closed")]
            && e'.state == Closed && e'.statusCode == code
            && (reason != [] ==> e'.closeReason == AsText(reason[..if |reason| < 123 then |reason| else 123]))
  {
    hide OnFrames, EncodeAll, OpsFrames, Messages, Encode, Consume, ClosePayload, AsText;
    OpsFit(ops);
    forall k | 0 <= k < |ws| ensures Carried(ws[k]) { assert Frames(ws)[k] in OpsFrames(ops); }
    var w := Wire(Frame(true, CLOSE, ClosePayload(code, reason)), key);
    ConsumeAll(e, ws, Encode(w) + after);
    OpsArrive(e, ops);
    ClosePayloadParts(code, reason);
    CloseOne(OnFrames(e, Frames(ws)), ClosePayload(code, reason), key, after);
  }

  /** A text reaches the other end's handler exactly when it is no longer than the receiver's limit. */
  lemma TextArrives(bytes: Bytes, key: Option<Key>)
    requires |bytes| < WORD_LIMIT
    ensures var w := Wire(Frame(true, TEXT, bytes), key);
            Received(TextMessage(bytes)) in Consume(Fresh(), Encode(w)).events <==> |bytes| <= MAX_PAYLOAD
  {
    var w := Wire(Frame(true, TEXT, bytes), key);
    FrameRoundTrip(w, []);
    assert Encode(w) + [] == Encode(w);
    if |bytes| <= MAX_PAYLOAD {
      ConsumeOne(Fresh(), w, []);
      assert Consume(OnFrame(Fresh(), w.frame), []).events[0] == Received(TextMessage(bytes));
    }
  }
}
