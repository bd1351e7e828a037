/**
 * What an endpoint of src/common/websocket.cpp answers and how it ends: Pongs, fragments, frames that are too long, the
 * closing handshake; and the bytes of RFC 6455's own examples.
 */
module WsControl {
  import opened Common
  import opened WsFrame
  import opened WsReceive

  // ----- pings -------------------------------------------------------------------------------

  /** One Pong for each Ping, with its payload, in order. */
  function Pongs(fs: seq<Frame>): seq<Frame> {
    if fs == [] then []
    else
      var front, last := fs[..|fs| - 1], fs[|fs| - 1];
      Pongs(front) + if last.opcode == PING then [Frame(true, PONG, last.payload)] else []
  }

  lemma FrameAnswered(e: Endpoint, f: Frame)
    requires e.state == Open && e.writable && f.opcode != CLOSE
    ensures var e' := OnFrame(e, f);
            && e'.sent == e.sent + (if f.opcode == PING then [Frame(true, PONG, f.payload)] else [])
            && e'.state == Open && e'.writable
  {
  }

  lemma LastFrame(e: Endpoint, fs: seq<Frame>)
    requires fs != []
    ensures OnFrames(e, fs) == OnFrame(OnFrames(e, fs[..|fs| - 1]), fs[|fs| - 1])
  {
    var front, last := fs[..|fs| - 1], fs[|fs| - 1];
    assert fs == front + [last] && [last][1..] == [];
    OnFramesConcat(e, front, [last]);
  }

  /** An open endpoint answers every Ping, whatever stands between them, and writes nothing else while it reads. */
  lemma {:induction false} FramesAnswered(e: Endpoint, fs: seq<Frame>)
    requires e.state == Open && e.writable && forall f | f in fs :: f.opcode != CLOSE
    ensures var e' := OnFrames(e, fs);
            e'.sent == e.sent + Pongs(fs) && e'.state == Open && e'.writable
  {
    hide OnFrame, OnFrames;
    if fs == [] {
      NoFrames(e);
    } else {
      FramesAnswered(e, fs[..|fs| - 1]);
      FrameAnswered(OnFrames(e, fs[..|fs| - 1]), fs[|fs| - 1]);
      LastFrame(e, fs);
    }
  }

  lemma NoFrames(e: Endpoint)
    ensures OnFrames(e, []) == e && e.sent + [] == e.sent
  {
  }

  lemma EndOfStream(e: Endpoint)
    ensures Consume(e, []) == Fail(e, "connection closed", false) && Consume(e, []).sent == e.sent
  {
  }

  /** The same of the bytes: what has been written once a stream of frames has been read to its end. */
  lemma PingsAnswered(e: Endpoint, ws: seq<Wire>)
    requires e.state == Open && e.writable && Sendable(ws) && forall k | 0 <= k < |ws| :: Carried(ws[k])
    ensures Consume(e, EncodeAll(ws)).sent == e.sent + Pongs(Frames(ws))
  {
    hide OnFrames, EncodeAll, Consume, Pongs;
    ConsumeAll(e, ws, []);
    assert EncodeAll(ws) + [] == EncodeAll(ws);
    FramesAnswered(e, Frames(ws));
    EndOfStream(OnFrames(e, Frames(ws)));
  }

  lemma OpsAnswered(e: Endpoint, ops: seq<Op>, ws: seq<Wire>)
    requires e.state == Open && e.writable && forall k | 0 <= k < |ops| :: Acceptable(ops[k])
    requires Sendable(ws) && Frames(ws) == OpsFrames(ops)
    ensures Consume(e, EncodeAll(ws)).sent == e.sent + Pongs(OpsFrames(ops))
  {
    hide OpsFrames, EncodeAll, Consume, Pongs;
    OpsFit(ops);
    forall k | 0 <= k < |ws| ensures Carried(ws[k]) { assert Frames(ws)[k] in OpsFrames(ops); }
    PingsAnswered(e, ws);
  }

  // ----- fragments ----------------------------------------------------------------------------

  function Continuations(parts: seq<Bytes>): seq<Frame>
    decreases |parts|
  {
    if parts == [] then []
    else [Frame(|parts| == 1, CONTINUATION, parts[0])] + Continuations(parts[1..])
  }

  /** A message in pieces of any size. */
  function Fragments(opcode: Opcode, parts: seq<Bytes>): seq<Frame>
    requires parts != []
  {
    [Frame(|parts| == 1, opcode, parts[0])] + Continuations(parts[1..])
  }

  function Whole(opcode: Opcode, bytes: Bytes): Event {
    Received(if opcode == TEXT then TextMessage(bytes) else BinaryMessage(bytes))
  }

  lemma {:induction false} PiecesArrive(e: Endpoint, parts: seq<Bytes>)
    requires parts != [] && (e.fragOpcode == TEXT || e.fragOpcode == BINARY)
    ensures OnFrames(e, Continuations(parts))
         == e.(fragOpcode := 0, fragBuf := [], events := e.events + [Whole(e.fragOpcode, e.fragBuf + Flat(parts))])
    decreases |parts|
  {
    var f, rest := Frame(|parts| == 1, CONTINUATION, parts[0]), Continuations(parts[1..]);
    assert Continuations(parts) == [f] + rest && ([f] + rest)[1..] == rest;
    if |parts| > 1 {
      PiecesArrive(OnFrame(e, f), parts[1..]);
      ConcatAssoc(e.fragBuf, parts[0], Flat(parts[1..]));
    } else {
      assert rest == [] && Flat(parts) == parts[0] + [] == parts[0];
    }
  }

  /** A text or a binary message in any number of pieces of any sizes is put together and handed over once. */
  lemma FragmentsArrive(e: Endpoint, opcode: Opcode, parts: seq<Bytes>)
    requires Between(e) && parts != [] && (opcode == TEXT || opcode == BINARY)
    ensures OnFrames(e, Fragments(opcode, parts)) == e.(events := e.events + [Whole(opcode, Flat(parts))])
  {
    var f, rest := Frame(|parts| == 1, opcode, parts[0]), Continuations(parts[1..]);
    assert ([f] + rest)[1..] == rest;
    if |parts| > 1 {
      PiecesArrive(OnFrame(e, f), parts[1..]);
    } else {
      assert rest == [] && Flat(parts) == parts[0] + [] == parts[0];
    }
  }

  /** A continuation of nothing, and a data frame of an unknown kind, are dropped without a trace. */
  lemma StrayIsDropped(e: Endpoint, f: Frame)
    requires Between(e) && (f.opcode == CONTINUATION || (f.fin && 2 < f.opcode && f.opcode !in {CLOSE, PING}))
    ensures OnFrame(e, f) == e
  {
  }

  // ----- the end --------------------------------------------------------------------------------

  /** What is too short for the frame it starts with holds no frame yet. */
  lemma CutFrame(t: Bytes, k: nat)
    requires ParseFrame(t).Parsed? && k < ParseFrame(t).size
    ensures k <= |t| && ParseFrame(t[..k]).Short?
  {
    hide Masked, BigEndian;
    var head := 2 + ExtSize(t[1]);
    if k >= head { assert t[..k][2..head] == t[2..head]; }
  }

  /** A stream that breaks off inside a frame: all before it is handled, nothing of it is, and the connection ends. */
  lemma CutShort(e: Endpoint, ws: seq<Wire>, w: Wire, k: nat)
    requires e.state == Open && Sendable(ws) && forall j | 0 <= j < |ws| :: Carried(ws[j])
    requires |w.frame.payload| <= MAX_PAYLOAD && k < |Encode(w)|
    ensures Consume(e, EncodeAll(ws) + Encode(w)[..k]) == Fail(OnFrames(e, Frames(ws)), "connection closed", false)
  {
    hide Encode, EncodeAll, ParseFrame, OnFrames, Consume;
    FrameRoundTrip(w, []);
    assert Encode(w) + [] == Encode(w);
    CutFrame(Encode(w), k);
    ConsumeAll(e, ws, Encode(w)[..k]);
    NothingMore(OnFrames(e, Frames(ws)), Encode(w)[..k]);
  }

  lemma NothingMore(e: Endpoint, s: Bytes)
    requires ParseFrame(s).Short?
    ensures Consume(e, s) == Fail(e, "connection closed", false)
  {
    hide ParseFrame;
  }

  /** How often the close handler was called. */
  function Endings(events: seq<Event>): nat {
    if events == [] then 0 else Endings(events[..|events| - 1]) + if events[|events| - 1].Ended? then 1 else 0
  }

  lemma OneMore(events: seq<Event>, x: Event)
    ensures Endings(events + [x]) == Endings(events) + if x.Ended? then 1 else 0
  {
    assert (events + [x])[..|events|] == events;
  }

  lemma FailEnds(e: Endpoint, reason: string, notify: bool)
    requires e.state != Closed
    ensures var e' := Fail(e, reason, notify);
            e'.state == Closed && e'.emitted && Endings(e'.events) == Endings(e.events) + if e.emitted then 0 else 1
  {
    hide Endings;
    OneMore(e.events, Errored(reason));
    OneMore(e.events, Ended(reason));
    OneMore(e.events + [Errored(reason)], Ended(reason));
  }

  lemma FrameEndsNothing(e: Endpoint, f: Frame)
    requires e.state != Closed
    ensures var e' := OnFrame(e, f);
            e'.state != Closed && e'.emitted == e.emitted && Endings(e'.events) == Endings(e.events)
  {
    hide Endings, BigEndian, AsText;
    OneMore(e.events, Received(TextMessage(f.payload)));
    OneMore(e.events, Received(BinaryMessage(f.payload)));
    OneMore(e.events, Received(TextMessage(e.fragBuf + f.payload)));
    OneMore(e.events, Received(BinaryMessage(e.fragBuf + f.payload)));
  }

  /** Whatever bytes arrive, the endpoint is closed when they are over and its close handler has been called once. */
  lemma {:induction false} OneEnding(e: Endpoint, s: Bytes)
    requires e.state != Closed && !e.emitted
    ensures var e' := Consume(e, s);
            e'.state == Closed && e'.emitted && Endings(e'.events) == Endings(e.events) + 1
    decreases |s|
  {
    hide ParseFrame, OnFrame, Fail, Endings;
    match ParseFrame(s) {
      case Short => FailEnds(e, "connection closed", false);
      case Oversized => FailEnds(e, "payload too large", true);
      case Parsed(f, n) =>
        FrameEndsNothing(e, f);
        if f.opcode == CLOSE {
          FailEnds(OnFrame(e, f), "connection closed", false);
        } else {
          OneEnding(OnFrame(e, f), s[n..]);
        }
    }
  }

  /** A frame longer than the limit ends the connection with an error, and nothing after its header is read. */
  lemma OversizedFails(e: Endpoint, w: Wire, rest: Bytes)
    requires e.state != Closed && !e.emitted && MAX_PAYLOAD < |w.frame.payload| < WORD_LIMIT
    ensures Consume(e, Encode(w) + rest)
         == e.(state := Closed, writable := false, emitted := true,
               events := e.events + [Errored("payload too large")] + [Ended("payload too large")])
  {
    hide Encode, ParseFrame;
    FrameRoundTrip(w, rest);
  }

  /**
   * The closing handshake.  The end that calls `close` puts one Close on its stream; the peer reads code and reason from
   * it, answers with the same payload, and closes; on that answer the first end closes too, and both have called their
   * close handlers once.
   */
  lemma CloseHandshake(a: Endpoint, b: Endpoint, code: nat, reason: Bytes, ours: Option<Key>, theirs: Option<Key>,
                       after: Bytes)
    requires code < 0x1_0000 && a.state == Open && a.writable && !a.emitted && b.state == Open && b.writable && !b.emitted
    ensures var f := Frame(true, CLOSE, ClosePayload(code, reason));
            var a1 := StartClose(a, code, reason);
            var b1 := Consume(b, Encode(Wire(f, ours)) + after);
            var a2 := Consume(a1, Encode(Wire(f, theirs)));
            && a1.state == Closing && a1.sent == a.sent + [f] && a1.events == a.events
            && b1.state == Closed && b1.statusCode == code && b1.sent == b.sent + [f]
            && (reason != [] ==> b1.closeReason == AsText(reason[..if |reason| < 123 then |reason| else 123]))
            && b1.events == b.events + [Ended("connection closed")]
            && a2.state == Closed && a2.statusCode == code && a2.sent == a1.sent
            && a2.events == a.events + [Ended("connection closed")]
  {
    hide Encode, Consume, ClosePayload, AsText, BigEndian;
    var payload := ClosePayload(code, reason);
    ClosePayloadParts(code, reason);
    CloseOne(b, payload, ours, after);
    CloseOne(StartClose(a, code, reason), payload, theirs, []);
    assert Encode(Wire(Frame(true, CLOSE, payload), theirs)) + [] == Encode(Wire(Frame(true, CLOSE, payload), theirs));
  }

  /** `close` on an endpoint that is closing already sends another Close; on a closed one it does nothing. */
  lemma CloseAgain(e: Endpoint, code: nat, reason: Bytes)
    requires code < 0x1_0000 && e.state != Open
    ensures StartClose(e, code, reason).state == e.state
    ensures StartClose(e, code, reason).sent
         == if e.state == Closing && e.writable then e.sent + [Frame(true, CLOSE, ClosePayload(code, reason))] else e.sent
  {
  }

  // ----- the bytes of section 5.7 of RFC 6455 -----------------------------------------------------

  const HELLO: Bytes := [0x48, 0x65, 0x6c, 0x6c, 0x6f]
  const HELLO_KEY: Key := [0x37, 0xfa, 0x21, 0x3d]
  const HELLO_MASKED: Bytes := [0x7f, 0x9f, 0x4d, 0x51, 0x58]

  function Differ(x: nat, y: nat): nat {
    if x % 2 == y % 2 then 0 else 1
  }

  lemma XorStep(x: nat, y: nat, width: nat)
    ensures XorBits(x, y, width + 1) == 2 * XorBits(x / 2, y / 2, width) + Differ(x, y)
  {
  }

  lemma XorNibble(x: nat, y: nat, width: nat)
    ensures XorBits(x, y, width + 4)
         == 16 * XorBits(x / 16, y / 16, width)
            + 8 * Differ(x / 8, y / 8) + 4 * Differ(x / 4, y / 4) + 2 * Differ(x / 2, y / 2) + Differ(x, y)
  {
    hide XorBits, Differ;
    XorStep(x, y, width + 3);
    XorStep(x / 2, y / 2, width + 2);
    XorStep(x / 4, y / 4, width + 1);
    XorStep(x / 8, y / 8, width);
    assert x / 2 / 2 == x / 4 && x / 4 / 2 == x / 8 && x / 8 / 2 == x / 16;
    assert y / 2 / 2 == y / 4 && y / 4 / 2 == y / 8 && y / 8 / 2 == y / 16;
  }

  lemma XorByte(x: Byte, y: Byte, hi: nat, lo: nat)
    requires hi == 8 * Differ(x / 128, y / 128) + 4 * Differ(x / 64, y / 64) + 2 * Differ(x / 32, y / 32) + Differ(x / 16, y / 16)
    requires lo == 8 * Differ(x / 8, y / 8) + 4 * Differ(x / 4, y / 4) + 2 * Differ(x / 2, y / 2) + Differ(x, y)
    ensures Xor(x, y) == 16 * hi + lo
  {
    hide XorBits, Differ;
    XorNibble(x, y, 4);
    XorNibble(x / 16, y / 16, 0);
    assert x / 16 / 8 == x / 128 && x / 16 / 4 == x / 64 && x / 16 / 2 == x / 32;
    assert y / 16 / 8 == y / 128 && y / 16 / 4 == y / 64 && y / 16 / 2 == y / 32;
    NoBits(x / 16 / 16, y / 16 / 16);
  }

  lemma NoBits(x: nat, y: nat)
    ensures XorBits(x, y, 0) == 0
  {
  }

  lemma HelXors()
    ensures Xor(0x48, 0x37) == 0x7f && Xor(0x65, 0xfa) == 0x9f && Xor(0x6c, 0x21) == 0x4d
  {
    hide Xor;
    XorByte(0x48, 0x37, 0x7, 0xf);
    XorByte(0x65, 0xfa, 0x9, 0xf);
    XorByte(0x6c, 0x21, 0x4, 0xd);
  }

  lemma LoXors()
    ensures Xor(0x6c, 0x3d) == 0x51 && Xor(0x6f, 0x37) == 0x58
  {
    hide Xor;
    XorByte(0x6c, 0x3d, 0x5, 0x1);
    XorByte(0x6f, 0x37, 0x5, 0x8);
  }

  lemma MaskedHello()
    ensures Masked(HELLO, HELLO_KEY) == HELLO_MASKED
  {
    hide Xor;
    HelXors();
    LoXors();
  }

  /** The examples of the RFC, byte for byte: text in one frame and in two, a Ping and its Pong, both long lengths. */
  lemma RfcExamples(data: Bytes)
    ensures Encode(Wire(Frame(true, TEXT, HELLO), None)) == [0x81, 0x05] + HELLO
    ensures Encode(Wire(Frame(true, TEXT, HELLO), Some(HELLO_KEY))) == [0x81, 0x85] + HELLO_KEY + HELLO_MASKED
    ensures Encode(Wire(Frame(false, TEXT, HELLO[..3]), None)) == [0x01, 0x03] + HELLO[..3]
    ensures Encode(Wire(Frame(true, CONTINUATION, HELLO[3..]), None)) == [0x80, 0x02] + HELLO[3..]
    ensures Encode(Wire(Frame(true, PING, HELLO), None)) == [0x89, 0x05] + HELLO
    ensures Encode(Wire(Frame(true, PONG, HELLO), Some(HELLO_KEY))) == [0x8a, 0x85] + HELLO_KEY + HELLO_MASKED
    ensures |data| == 256 ==> Encode(Wire(Frame(true, BINARY, data), None)) == [0x82, 0x7e, 0x01, 0x00] + data
    ensures |data| == 65536 ==>
              Encode(Wire(Frame(true, BINARY, data), None)) == [0x82, 0x7f, 0, 0, 0, 0, 0, 1, 0, 0] + data
  {
    MaskedHello();
    LongLengths();
    hide Masked, ToBigEndian;
  }

  lemma LongLengths()
    ensures ToBigEndian(256, 2) == [1, 0] && ToBigEndian(65536, 8) == [0, 0, 0, 0, 0, 1, 0, 0]
  {
    assert ToBigEndian(1, 1) == [1];
    assert ToBigEndian(1, 6) == [0, 0, 0, 0, 0, 1];
    assert ToBigEndian(256, 7) == [0, 0, 0, 0, 0, 1, 0];
  }
}
