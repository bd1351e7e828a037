/** The endpoint object of src/common/websocket.cpp: its sender, its reader, and its reassembly state. */
module WsEndpoint {
  import opened Common
  import opened WsFrame
  import opened WsReceive
  import opened WsControl

  class WsImpl {
    const serverSide: bool
    var state: WsState
    var fragOpcode: Opcode
    var fragBuf: Bytes
    var closeEmitted: bool
    var statusCode: nat
    var closeReason: string
    /** Calls of the handlers, in order. */
    var events: seq<Event>

    /** Everything the peer sends before its stream ends, and how much of it has been read. */
    const input: Bytes
    var pos: nat

    /** Everything written so far; nothing more is taken once `writable` is down. */
    var out: Bytes
    var writable: bool
    ghost var wires: seq<Wire>

    /** The outgoing bytes are encoded frames, masked exactly when this end is the client. */
    ghost predicate Valid()
      reads this
    {
      && pos <= |input|
      && Sendable(wires) && out == EncodeAll(wires) && RoleOk(wires, serverSide)
    }

    ghost function View(): Endpoint
      reads this
    {
      Endpoint(state, fragOpcode, fragBuf, closeEmitted, writable, statusCode, closeReason, events, Frames(wires))
    }

    constructor (serverSide: bool, input: Bytes)
      ensures Valid() && View() == Fresh()
      ensures this.serverSide == serverSide && this.input == input && pos == 0 && out == [] && wires == []
    {
      this.serverSide, this.input, pos := serverSide, input, 0;
      state, fragOpcode, fragBuf, closeEmitted, statusCode, closeReason := Open, 0, [], false, 1006, "";
      events, out, writable, wires := [], [], true, [];
    }

    // ----- sending ------------------------------------------------------------------------

    /** The key comes from the operating system: any four bytes. */
    method RandomKey() returns (key: Key)
    {
      key :| |key| == 4 by {
        var k: Key := [0, 0, 0, 0];
        assert |k| == 4;
      }
    }

    /** The header bytes in front of the key or payload. */
    method Header(opcode: Opcode, len: nat, fin: bool, mask: bool) returns (frame: Bytes)
      requires len < WORD_LIMIT
      ensures frame == [FirstByte(fin, opcode)] + LengthField(len, mask)
    {
      frame := [(if fin then 0x80 else 0) + opcode];
      var bit := if mask then 0x80 else 0;
      if len < 126 {
        frame := frame + [bit + len];
      } else if len <= 0xFFFF {
        frame := frame + [bit + 126];
        frame := frame + [ByteOf(len / 256)];
        frame := frame + [ByteOf(len)];
        TwoBytes(len);
      } else {
        frame := frame + [bit + 127];
        var head := frame;
        for i := 8 downto 0
          invariant |frame| == |head| + 8 - i && frame == head + ToBigEndian(len, 8)[..8 - i]
        {
          ToBigEndianAt(len, 8, 7 - i);
          frame := frame + [ByteOf(len / Pow256(i))];
        }
        assert ToBigEndian(len, 8)[..8] == ToBigEndian(len, 8);
      }
    }

    /** The payload under the mask. */
    method Mask(payload: Bytes, key: Key) returns (masked: Bytes)
      ensures masked == Masked(payload, key)
    {
      var body := new Byte[|payload|];
      for i := 0 to |payload|
        invariant forall k | 0 <= k < i :: body[k] == Xor(payload[k], key[k % 4])
      {
        body[i] := Xor(payload[i], key[i % 4]);
      }
      masked := body[..];
    }

    /** `sendFrame`: build the bytes, then write them in one piece. */
    method SendFrame(opcode: Opcode, payload: Bytes, fin: bool) returns (ok: bool)
      requires Valid() && |payload| < WORD_LIMIT
      modifies this`out, this`wires
      ensures Valid() && View() == Send(old(View()), Frame(fin, opcode, payload))
      ensures ok <==> (old(state) == Open || opcode >= 8) && writable
    {
      if state != Open && opcode < 0x8 { return false; }
      var frame := Header(opcode, |payload|, fin, !serverSide);
      var key := None;
      if !serverSide {
        var bytes := RandomKey();
        var masked := Mask(payload, bytes);
        key := Some(bytes);
        frame := frame + bytes + masked;
      } else {
        frame := frame + payload;
      }
      ghost var w := Wire(Frame(fin, opcode, payload), key);
      assert frame == Encode(w) by { Assemble(w); }
      ok := WriteRaw(frame, w);
    }

    /** `writeRaw`: all of it, or nothing on a stream that no longer takes bytes. */
    method WriteRaw(bytes: Bytes, ghost w: Wire) returns (ok: bool)
      requires Valid() && |w.frame.payload| < WORD_LIMIT && bytes == Encode(w) && (w.key.None? <==> serverSide)
      modifies this`out, this`wires
      ensures Valid() && ok == writable
      ensures Frames(wires) == if writable then Frames(old(wires)) + [w.frame] else Frames(old(wires))
    {
      ok := writable;
      if writable {
        hide *;
        Appended(wires, w, serverSide);
        out := out + bytes;
        wires := wires + [w];
      }
    }

    method SendText(text: Bytes) returns (ok: bool)
      requires Valid() && |text| < WORD_LIMIT
      modifies this`out, this`wires
      ensures Valid() && View() == Send(old(View()), Frame(true, TEXT, text))
      ensures ok <==> old(state) == Open && writable
    {
      ok := SendFrame(TEXT, text, true);
    }

    method SendPing() returns (ok: bool)
      requires Valid()
      modifies this`out, this`wires
      ensures Valid() && View() == Send(old(View()), Frame(true, PING, []))
      ensures ok <==> writable
    {
      ok := SendFrame(PING, [], true);
    }

    /** `sendBinary`: one frame when it fits, fragments otherwise. */
    method SendBinary(data: Bytes) returns (ok: bool)
      requires Valid() && |data| < WORD_LIMIT
      modifies this`out, this`wires
      ensures Valid() && View() == SendAll(old(View()), Train(data, BINARY))
      ensures ok <==> old(state) == Open && writable
    {
      if state != Open {
        TrainFits(data, BINARY);
        CannotSend(View(), Train(data, BINARY));
        return false;
      }
      if |data| <= SEND_CHUNK {
        ok := SendFrame(BINARY, data, true);
        return;
      }
      var off, first := 0, true;
      ghost var whole := SendAll(View(), Train(data, BINARY));
      assert data[0..] == data;
      while off < |data|
        invariant off <= |data| && Valid() && state == Open && writable == old(writable)
        invariant first <==> off == 0
        invariant off < |data| ==>
                    SendAll(View(), Train(data[off..], if first then BINARY else CONTINUATION)) == whole
        invariant off == |data| ==> View() == whole
        invariant !first ==> writable
      {
        var take := if SEND_CHUNK < |data| - off then SEND_CHUNK else |data| - off;
        var last := off + take >= |data|;
        var op := if first then BINARY else CONTINUATION;
        ghost var before := View();
        TrainStep(before, data, off, op);
        var sent := SendFrame(op, data[off..off + take], last);
        if !sent {
          CannotSend(View(), Train(data[off..], op));
          return false;
        }
        first := false;
        off := off + take;
      }
      ok := true;
    }

    // ----- reading ------------------------------------------------------------------------------

    /** `Stream::read`: some of what is there, at most `room` bytes; nothing only at the end. */
    method Read(room: nat) returns (bytes: Bytes)
      requires Valid() && room > 0
      modifies this`pos
      ensures Valid() && old(pos) <= pos && bytes == input[old(pos)..pos] && |bytes| <= room
      ensures bytes == [] <==> old(pos) == |input|
    {
      if pos == |input| { return []; }
      var most := if room < |input| - pos then room else |input| - pos;
      var n: nat :| 1 <= n <= most by { assert 1 <= most; }
      bytes := input[pos..pos + n];
      pos := pos + n;
    }

    /** The bytes of one read go behind those of the earlier ones. */
    static method CopyInto(buf: array<Byte>, off: nat, bytes: Bytes)
      requires off + |bytes| <= buf.Length
      modifies buf
      ensures buf[..off + |bytes|] == old(buf[..off]) + bytes
    {
      forall k | 0 <= k < |bytes| { buf[off + k] := bytes[k]; }
    }

    /** `readFull`: fill the buffer over as many reads as it takes. */
    method ReadFull(buf: array<Byte>) returns (ok: bool)
      requires Valid()
      modifies buf, this`pos
      ensures Valid() && old(pos) <= pos
      ensures ok <==> old(pos) + buf.Length <= |input|
      ensures ok ==> pos == old(pos) + buf.Length && buf[..] == input[old(pos)..pos]
    {
      var off := 0;
      while off < buf.Length
        invariant off <= buf.Length && Valid() && pos == old(pos) + off && buf[..off] == input[old(pos)..pos]
        decreases buf.Length - off
      {
        var bytes := Read(buf.Length - off);
        if |bytes| == 0 { return false; }
        ghost var start := old(pos);
        CopyInto(buf, off, bytes);
        Longer(input, start, off, pos, bytes);
        off := off + |bytes|;
      }
      ok := true;
    }

    /** The extended length, if the second byte announces one. */
    method ReadLength(second: Byte) returns (len: Option<nat>)
      requires Valid()
      modifies this`pos
      ensures Valid() && old(pos) <= pos
      ensures len.Some? <==> old(pos) + ExtSize(second) <= |input|
      ensures len.Some? ==>
                pos == old(pos) + ExtSize(second) && len.value == LengthOf(second, input[old(pos)..pos])
    {
      var payloadLen: nat := second % 128;
      if payloadLen == 126 {
        var ext := new Byte[2];
        var ok := ReadFull(ext);
        if !ok { return None; }
        payloadLen := 256 * (ext[0] as int) + ext[1];
        TwoByteNumber(ext[..]);
      } else if payloadLen == 127 {
        var ext := new Byte[8];
        var ok := ReadFull(ext);
        if !ok { return None; }
        payloadLen := 0;
        for i := 0 to 8
          invariant payloadLen == BigEndian(ext[..i])
        {
          assert ext[..i + 1][..i] == ext[..i];
          payloadLen := 256 * payloadLen + ext[i];
        }
        assert ext[..8] == ext[..];
      }
      len := Some(payloadLen);
    }

    /** The unmasking loop, in place. */
    static method Unmask(buf: array<Byte>, maskKey: array<Byte>)
      requires buf != maskKey && maskKey.Length == 4
      modifies buf
      ensures buf[..] == Masked(old(buf[..]), maskKey[..])
    {
      for i := 0 to buf.Length
        invariant maskKey[..] == old(maskKey[..])
        invariant forall k | 0 <= k < i :: buf[k] == Xor(old(buf[k]), maskKey[k % 4])
        invariant forall k | i <= k < buf.Length :: buf[k] == old(buf[k])
      {
        buf[i] := Xor(buf[i], maskKey[i % 4]);
      }
    }

    /** The mask key, if any, and the payload, unmasked. */
    method ReadBody(first: Byte, second: Byte, len: nat, ghost head: nat) returns (p: Option<Frame>)
      requires Valid() && head >= 2 && len <= MAX_PAYLOAD
      modifies this`pos
      ensures Valid() && old(pos) <= pos
      ensures ParseBody(first, second, len, old(input[pos..]), head)
           == match p case None => Short case Some(f) => Parsed(f, head + (pos - old(pos)))
    {
      hide Masked;
      ghost var rest := input[pos..];
      var masked := second >= 0x80;
      var maskKey := new Byte[4];
      if masked {
        var ok := ReadFull(maskKey);
        if !ok { return None; }
        assert maskKey[..] == rest[..4];
      }
      var buf := new Byte[len];
      var ok := ReadFull(buf);
      if !ok { return None; }
      assert buf[..] == rest[KeySize(second)..KeySize(second) + len];
      if masked { Unmask(buf, maskKey); }
      p := Some(Frame(first >= 0x80, first % 16, buf[..]));
    }

    /** One turn of the read loop up to its dispatch: the next frame, if it arrives whole and is not too long. */
    method ReadFrame() returns (p: Parse)
      requires Valid()
      modifies this`pos
      ensures Valid() && old(pos) <= pos
      ensures p == ParseFrame(old(input[pos..]))
      ensures p.Parsed? ==> pos == old(pos) + p.size
    {
      hide ParseBody, LengthOf;
      var start := pos;
      var h := new Byte[2];
      var ok := ReadFull(h);
      if !ok { return Short; }
      var first, second := h[0], h[1];
      var len := ReadLength(second);
      if len.None? { return Short; }
      var head := pos - start;
      HeaderAt(input, start, first, second);
      assert ParseFrame(input[start..]) == ParseBody(first, second, len.value, input[pos..], head);
      if len.value > MAX_PAYLOAD {
        TooLong(first, second, len.value, input[pos..], head);
        return Oversized;
      }
      var frame := ReadBody(first, second, len.value, head);
      match frame
      case None => p := Short;
      case Some(f) => p := Parsed(f, pos - start);
    }

    // ----- what a frame does -----------------------------------------------------------------------

    /** `dispatchFrame` */
    method DispatchFrame(opcode: Opcode, payload: Bytes, fin: bool)
      requires Valid() && opcode < 8
      modifies this`fragOpcode, this`fragBuf, this`events
      ensures Valid() && View() == Dispatch(old(View()), Frame(fin, opcode, payload))
      decreases if opcode == CONTINUATION then 1 else 0
    {
      if opcode == CONTINUATION {
        if fragOpcode == 0 { return; }
        fragBuf := fragBuf + payload;
        if !fin { return; }
        var op, full := fragOpcode, fragBuf;
        fragBuf := [];
        fragOpcode := 0;
        DispatchWhole(op, full);
        return;
      }
      if !fin {
        fragOpcode := opcode;
        fragBuf := payload;
        return;
      }
      DispatchWhole(opcode, payload);
    }

    /** The tail of `dispatchFrame`: hand a whole message to its handler. */
    method DispatchWhole(opcode: Opcode, payload: Bytes)
      requires Valid()
      modifies this`events
      ensures Valid() && View() == Deliver(old(View()), opcode, payload)
    {
      if opcode == TEXT {
        events := events + [Received(TextMessage(payload))];
      } else if opcode == BINARY {
        events := events + [Received(BinaryMessage(payload))];
      }
    }

    /** `handleControl` */
    method HandleControl(opcode: Opcode, payload: Bytes)
      requires Valid() && opcode >= 8 && |payload| < WORD_LIMIT
      modifies this`out, this`wires, this`state, this`statusCode, this`closeReason
      ensures Valid() && View() == Control(old(View()), Frame(true, opcode, payload))
    {
      if opcode == PING {
        var _ := SendFrame(PONG, payload, true);
        return;
      }
      if opcode == PONG { return; }
      if opcode == CLOSE { PeerCloses(payload); }
    }

    /** The part of `handleControl` for a Close. */
    method PeerCloses(payload: Bytes)
      requires Valid() && |payload| < WORD_LIMIT
      modifies this`out, this`wires, this`state, this`statusCode, this`closeReason
      ensures Valid() && View() == Control(old(View()), Frame(true, CLOSE, payload))
    {
      hide WsReceive.Send, BigEndian;
      var s := state;
      if s != Closed {
        if s == Open {
          state := Closing;
          var _ := SendFrame(CLOSE, payload, true);
        }
        if |payload| >= 2 {
          statusCode := 256 * (payload[0] as int) + payload[1];
          TwoByteNumber(payload[..2]);
        }
        if |payload| > 2 { closeReason := AsText(payload[2..]); }
      }
    }

    method EmitClose(reason: string)
      requires Valid()
      modifies this`closeEmitted, this`events
      ensures Valid() && View() == WsReceive.EmitClose(old(View()), reason)
    {
      if closeEmitted { return; }
      closeEmitted := true;
      events := events + [Ended(reason)];
    }

    /** `failConnection` */
    method FailConnection(reason: string, notifyError: bool)
      requires Valid()
      modifies this`state, this`writable, this`closeEmitted, this`events
      ensures Valid() && View() == Fail(old(View()), reason, notifyError)
    {
      var was := state;
      state := Closed;
      if was == Closed { return; }
      writable := false;
      if notifyError { events := events + [Errored(reason)]; }
      EmitClose(reason);
    }

    /** `runReadLoop`: its effect is that of consuming every byte the peer sends, however the reads split them. */
    method RunReadLoop()
      requires Valid()
      modifies this
      ensures Valid() && View() == Consume(old(View()), old(input[pos..]))
    {
      ghost var goal := Consume(View(), input[pos..]);
      while state != Closed
        invariant Valid() && Consume(View(), input[pos..]) == goal
        decreases |input| - pos
      {
        ghost var rest := input[pos..];
        ghost var start := pos;
        var p := ReadFrame();
        if p.Short? { break; }
        if p.Oversized? {
          FailConnection("payload too large", true);
          break;
        }
        assert rest[p.size..] == input[pos..];
        ParsedFits(rest);
        if p.frame.opcode >= 0x8 {
          ControlIgnoresFin(View(), p.frame);
          HandleControl(p.frame.opcode, p.frame.payload);
          if p.frame.opcode == CLOSE { break; }
          continue;
        }
        DispatchFrame(p.frame.opcode, p.frame.payload, p.frame.fin);
      }
      if state != Closed { FailConnection("connection closed", false); }
    }

    /** `close` */
    method CloseWith(code: nat, reason: Bytes)
      requires Valid() && code < 0x1_0000
      modifies this`out, this`wires, this`state, this`statusCode, this`closeReason
      ensures Valid() && View() == StartClose(old(View()), code, reason)
    {
      hide WsReceive.Send, ToBigEndian;
      if state == Open {
        state := Closing;
      } else if state == Closed {
        return;
      }
      var payload := [ByteOf(code / 256), ByteOf(code)];
      var rlen := if |reason| < 123 then |reason| else 123;
      TwoBytes(code);
      var _ := SendFrame(CLOSE, payload + reason[..rlen], true);
      statusCode := code;
      closeReason := AsText(reason);
    }

    /** `terminate` */
    method Terminate()
      requires Valid()
      modifies this`state, this`writable, this`closeEmitted, this`events
      ensures Valid()
      ensures var reason := if old(closeReason) == "" then "terminated" else old(closeReason);
              View() == WsReceive.EmitClose(old(View()).(state := Closed, writable := false), reason)
    {
      state := Closed;
      writable := false;
      EmitClose(if closeReason == "" then "terminated" else closeReason);
    }

    // ----- any number of sends -----------------------------------------------------------------------

    method PerformOne(op: Op)
      requires Valid() && state == Open && writable
      requires Acceptable(op) && (op.SendBinary? ==> |op.bytes| < WORD_LIMIT)
      modifies this`out, this`wires
      ensures Valid() && Frames(wires) == Frames(old(wires)) + OpFrames(op)
    {
      hide Train;
      match op {
        case SendText(bytes) => var _ := SendText(bytes);
        case SendBinary(bytes) =>
          SendsAll(View(), Train(bytes, BINARY));
          var _ := SendBinary(bytes);
        case SendPing => var _ := SendPing();
      }
    }

    /** A program that makes some calls of the three send methods. */
    method Perform(ops: seq<Op>)
      requires Valid() && state == Open && writable
      requires forall k | 0 <= k < |ops| :: Acceptable(ops[k]) && (ops[k].SendBinary? ==> |ops[k].bytes| < WORD_LIMIT)
      modifies this`out, this`wires
      ensures Valid() && Frames(wires) == Frames(old(wires)) + OpsFrames(ops)
    {
      assert ops[0..] == ops;
      ghost var goal := Frames(wires) + OpsFrames(ops);
      for i := 0 to |ops|
        invariant Valid() && state == Open && writable && Frames(wires) + OpsFrames(ops[i..]) == goal
      {
        hide *;
        ghost var before := Frames(wires);
        PerformOne(ops[i]);
        OpsTail(before, ops, i);
      }
    }
  }

  /**
   * One end makes any calls and goes away; the other end's handlers get exactly the messages, and what it has written
   * back is one Pong for each Ping.
   */
  method Relay(ops: seq<Op>, clientSends: bool) returns (events: seq<Event>, back: Bytes, ghost replies: seq<Wire>)
    requires forall k | 0 <= k < |ops| :: Acceptable(ops[k]) && (ops[k].SendBinary? ==> |ops[k].bytes| < WORD_LIMIT)
    ensures events == Messages(ops) + [Ended("connection closed")]
    ensures Sendable(replies) && RoleOk(replies, clientSends) && back == EncodeAll(replies)
    ensures Frames(replies) == Pongs(OpsFrames(ops))
  {
    hide OpsFrames, Messages, EncodeAll, Consume, Pongs;
    var sender := new WsImpl(!clientSends, []);
    sender.Perform(ops);
    var receiver := new WsImpl(clientSends, sender.out);
    assert receiver.input[receiver.pos..] == sender.out;
    RoundTrip(receiver.View(), ops, sender.wires);
    OpsAnswered(receiver.View(), ops, sender.wires);
    receiver.RunReadLoop();
    events, back, replies := receiver.events, receiver.out, receiver.wires;
  }

  /** An endpoint that reads any frames up to the end of the stream writes one Pong for each Ping, and nothing else. */
  method Answers(ws: seq<Wire>, serverSide: bool) returns (back: Bytes, ghost replies: seq<Wire>)
    requires Sendable(ws) && forall k | 0 <= k < |ws| :: Carried(ws[k])
    ensures Sendable(replies) && RoleOk(replies, serverSide) && back == EncodeAll(replies)
    ensures Frames(replies) == Pongs(Frames(ws))
    ensures serverSide ==> Sendable(Unmasked(Pongs(Frames(ws)))) && back == EncodeAll(Unmasked(Pongs(Frames(ws))))
  {
    hide EncodeAll, Consume, Pongs, Frames, RoleOk, Unmasked;
    var reader := new WsImpl(serverSide, EncodeAll(ws));
    assert reader.input[reader.pos..] == EncodeAll(ws);
    PingsAnswered(reader.View(), ws);
    reader.RunReadLoop();
    back, replies := reader.out, reader.wires;
    if serverSide { ServersUnmasked(replies); }
  }

  /** Frames as a server puts them on the wire. */
  function Unmasked(fs: seq<Frame>): (ws: seq<Wire>)
    ensures |ws| == |fs|
  {
    seq(|fs|, k requires 0 <= k < |fs| => Wire(fs[k], None))
  }

  lemma ServersUnmasked(ws: seq<Wire>)
    requires RoleOk(ws, true)
    ensures ws == Unmasked(Frames(ws))
  {
  }

  /** Servers never mask, clients always do. */
  predicate RoleOk(ws: seq<Wire>, serverSide: bool) {
    forall k | 0 <= k < |ws| :: ws[k].key.None? <==> serverSide
  }

  lemma Appended(ws: seq<Wire>, w: Wire, serverSide: bool)
    requires Sendable(ws) && |w.frame.payload| < WORD_LIMIT && RoleOk(ws, serverSide) && (w.key.None? <==> serverSide)
    ensures Sendable(ws + [w]) && EncodeAll(ws + [w]) == EncodeAll(ws) + Encode(w)
    ensures RoleOk(ws + [w], serverSide) && Frames(ws + [w]) == Frames(ws) + [w.frame]
  {
    hide Encode, EncodeAll;
    EncodeSnoc(ws, w);
    FramesSnoc(ws, w);
  }

  lemma FramesSnoc(ws: seq<Wire>, w: Wire)
    ensures Frames(ws + [w]) == Frames(ws) + [w.frame]
  {
  }

  // ----- specification of sending several frames -------------------------------------------------

  function SendAll(e: Endpoint, fs: seq<Frame>): Endpoint
    decreases |fs|
  {
    if fs == [] then e else SendAll(Send(e, fs[0]), fs[1..])
  }

  lemma {:induction false} CannotSend(e: Endpoint, fs: seq<Frame>)
    requires !e.writable || (e.state != Open && forall k | 0 <= k < |fs| :: fs[k].opcode < 8)
    ensures SendAll(e, fs) == e
    decreases |fs|
  {
    if fs != [] { CannotSend(e, fs[1..]); }
  }

  lemma {:induction false} SendsAll(e: Endpoint, fs: seq<Frame>)
    requires e.writable && e.state == Open
    ensures SendAll(e, fs) == e.(sent := e.sent + fs)
    decreases |fs|
  {
    if fs != [] {
      SendsAll(Send(e, fs[0]), fs[1..]);
      assert e.sent + [fs[0]] + fs[1..] == e.sent + fs;
    } else {
      assert e.sent + fs == e.sent;
    }
  }

  lemma TrainStep(e: Endpoint, data: Bytes, off: nat, op: Opcode)
    requires off < |data|
    ensures var rest := data[off..];
            var take := if SEND_CHUNK < |rest| then SEND_CHUNK else |rest|;
            var sent := Send(e, Frame(off + take >= |data|, op, data[off..off + take]));
            SendAll(e, Train(rest, op))
              == if off + take < |data| then SendAll(sent, Train(data[off + take..], CONTINUATION)) else sent
  {
    var rest := data[off..];
    if SEND_CHUNK < |rest| {
      assert rest[SEND_CHUNK..] == data[off + SEND_CHUNK..] && rest[..SEND_CHUNK] == data[off..off + SEND_CHUNK];
      assert Train(rest, op)[1..] == Train(rest[SEND_CHUNK..], CONTINUATION);
    } else {
      assert rest == data[off..off + |rest|];
      assert Train(rest, op)[1..] == [];
    }
  }

  lemma Assemble(w: Wire)
    requires |w.frame.payload| < WORD_LIMIT
    ensures var head := [FirstByte(w.frame.fin, w.frame.opcode)] + LengthField(|w.frame.payload|, w.key.Some?);
            Encode(w) == match w.key
                         case None => head + w.frame.payload
                         case Some(key) => head + key + Masked(w.frame.payload, key)
  {
    hide LengthField, Masked;
  }

  lemma OpsTail(before: seq<Frame>, ops: seq<Op>, i: nat)
    requires i < |ops|
    ensures before + OpFrames(ops[i]) + OpsFrames(ops[i + 1..]) == before + OpsFrames(ops[i..])
  {
    assert ops[i..][1..] == ops[i + 1..] && ops[i..][0] == ops[i];
    assert OpsFrames(ops[i..]) == OpFrames(ops[i]) + OpsFrames(ops[i + 1..]);
    hide OpsFrames, OpFrames;
    ConcatAssoc(before, OpFrames(ops[i]), OpsFrames(ops[i + 1..]));
  }

  lemma Longer(input: Bytes, start: nat, off: nat, pos: nat, bytes: Bytes)
    requires start + off <= pos <= |input| && bytes == input[start + off..pos]
    ensures input[start..start + off] + bytes == input[start..pos]
  {
  }

  lemma TwoByteNumber(bytes: Bytes)
    requires |bytes| == 2
    ensures BigEndian(bytes) == 256 * (bytes[0] as int) + bytes[1]
  {
    assert bytes[..1] == [bytes[0]];
    assert BigEndian([bytes[0]]) == bytes[0];
  }

  /** The start of a stream, seen from the bytes that were read one piece at a time. */
  lemma HeaderAt(input: Bytes, start: nat, first: Byte, second: Byte)
    requires start + 2 + ExtSize(second) <= |input| && input[start..start + 2] == [first, second]
    ensures var s, head := input[start..], 2 + ExtSize(second);
            |s| == |input| - start && s[0] == first && s[1] == second
            && s[2..head] == input[start + 2..start + head] && s[head..] == input[start + head..]
  {
    var s := input[start..];
    assert s[0] == input[start..start + 2][0] && s[1] == input[start..start + 2][1];
    hide ExtSize;
  }

  lemma TooLong(first: Byte, second: Byte, len: nat, rest: Bytes, head: nat)
    requires head >= 2 && len > MAX_PAYLOAD
    ensures ParseBody(first, second, len, rest, head) == Oversized
  {
  }

  lemma ParsedFits(s: Bytes)
    ensures ParseFrame(s).Parsed? ==> |ParseFrame(s).frame.payload| <= MAX_PAYLOAD
  {
    hide Masked, LengthOf;
  }

  lemma ControlIgnoresFin(e: Endpoint, f: Frame)
    ensures Control(e, f) == Control(e, Frame(true, f.opcode, f.payload))
  {
  }

  lemma TwoBytes(n: nat)
    ensures ToBigEndian(n, 2) == [ByteOf(n / 256), ByteOf(n)]
  {
    assert ToBigEndian(n / 256, 1) == [ByteOf(n / 256)];
  }
}
