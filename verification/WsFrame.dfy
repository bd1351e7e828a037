/**
 * WebSocket frames as bytes (section 5.2 of RFC 6455) and what the read loop of src/common/websocket.cpp makes of a
 * byte stream.
 */
module WsFrame {
  import opened Common

  const CONTINUATION := 0
  const TEXT := 1
  const BINARY := 2
  const CLOSE := 8
  const PING := 9
  const PONG := 10

  /** The longest payload a receiver takes. */
  const MAX_PAYLOAD := 64 * 1024 * 1024

  /** The largest fragment `sendBinary` writes. */
  const SEND_CHUNK := 256 * 1024

  /** `size_t` and `uint64_t` values stay below this. */
  const WORD_LIMIT := 0x1_0000_0000_0000_0000

  type Opcode = n: int | 0 <= n < 16
  type Key = k: Bytes | |k| == 4 witness [0, 0, 0, 0]

  datatype Frame = Frame(fin: bool, opcode: Opcode, payload: Bytes)

  /** A frame as written: clients mask with a fresh key, servers do not. */
  datatype Wire = Wire(frame: Frame, key: Option<Key>)

  // ----- writing ----------------------------------------------------------------------

  function Masked(data: Bytes, key: Key): (r: Bytes)
    ensures |r| == |data|
  {
    seq(|data|, k requires 0 <= k < |data| => Xor(data[k], key[k % 4]))
  }

  lemma MaskedTwice(data: Bytes, key: Key)
    ensures Masked(Masked(data, key), key) == data
  {
    forall k | 0 <= k < |data| ensures Masked(Masked(data, key), key)[k] == data[k] {
      XorTwice(data[k], key[k % 4]);
    }
  }

  function FirstByte(fin: bool, opcode: Opcode): Byte {
    (if fin then 128 else 0) + opcode
  }

  /** The length in its shortest form, under the mask bit. */
  function LengthField(len: nat, masked: bool): (r: Bytes)
    requires len < WORD_LIMIT
    ensures r != []
  {
    var bit := if masked then 128 else 0;
    if len < 126 then [bit + len]
    else if len <= 0xFFFF then [bit + 126] + ToBigEndian(len, 2)
    else [bit + 127] + ToBigEndian(len, 8)
  }

  function Encode(w: Wire): Bytes
    requires |w.frame.payload| < WORD_LIMIT
  {
    var f := w.frame;
    [FirstByte(f.fin, f.opcode)] + LengthField(|f.payload|, w.key.Some?)
    + (match w.key case None => f.payload case Some(key) => key + Masked(f.payload, key))
  }

  predicate Sendable(ws: seq<Wire>) {
    forall k | 0 <= k < |ws| :: |ws[k].frame.payload| < WORD_LIMIT
  }

  function EncodeAll(ws: seq<Wire>): Bytes
    requires Sendable(ws)
  {
    if ws == [] then [] else EncodeAll(ws[..|ws| - 1]) + Encode(ws[|ws| - 1])
  }

  lemma EncodeSnoc(ws: seq<Wire>, w: Wire)
    requires Sendable(ws) && |w.frame.payload| < WORD_LIMIT
    ensures Sendable(ws + [w]) && EncodeAll(ws + [w]) == EncodeAll(ws) + Encode(w)
  {
    assert (ws + [w])[..|ws|] == ws;
  }

  lemma NothingEncoded()
    ensures Sendable([]) && EncodeAll([]) == []
  {
  }

  lemma {:induction false} EncodeCons(w: Wire, ws: seq<Wire>)
    requires Sendable(ws) && |w.frame.payload| < WORD_LIMIT
    ensures Sendable([w] + ws) && EncodeAll([w] + ws) == Encode(w) + EncodeAll(ws)
  {
    hide Encode, EncodeAll;
    NothingEncoded();
    if ws == [] {
      EncodeSnoc([], w);
      assert [] + [w] == [w] + ws && [] + Encode(w) == Encode(w) + [];
    } else {
      var front, last := ws[..|ws| - 1], ws[|ws| - 1];
      EncodeCons(w, front);
      EncodeSnoc(front, last);
      EncodeSnoc([w] + front, last);
      assert front + [last] == ws && [w] + front + [last] == [w] + ws;
      ConcatAssoc(Encode(w), EncodeAll(front), Encode(last));
    }
  }

  // ----- reading ------------------------------------------------------------------------

  datatype Parse = Short | Oversized | Parsed(frame: Frame, size: nat)

  function ExtSize(second: Byte): nat {
    if second % 128 == 126 then 2 else if second % 128 == 127 then 8 else 0
  }

  /** The length announced by a header whose extension is `ext`. */
  function LengthOf(second: Byte, ext: Bytes): nat {
    if ext == [] then second % 128 else BigEndian(ext)
  }

  function KeySize(second: Byte): nat {
    if second >= 128 then 4 else 0
  }

  /** What follows a header of `head` bytes that announced `len`: key, payload, and the limit on it. */
  function ParseBody(first: Byte, second: Byte, len: nat, rest: Bytes, head: nat): (p: Parse)
    requires head >= 2
    ensures p.Parsed? ==> 2 <= p.size <= head + |rest|
  {
    var start := KeySize(second);
    if len > MAX_PAYLOAD then Oversized
    else if |rest| < start + len then Short
    else
      var body := rest[start..start + len];
      Parsed(Frame(first >= 128, first % 16, if second >= 128 then Masked(body, rest[..start]) else body),
             head + start + len)
  }

  /** The frame at the front of a stream. */
  function ParseFrame(s: Bytes): (p: Parse)
    ensures p.Parsed? ==> 2 <= p.size <= |s|
  {
    if |s| < 2 then Short
    else
      var head := 2 + ExtSize(s[1]);
      if |s| < head then Short else ParseBody(s[0], s[1], LengthOf(s[1], s[2..head]), s[head..], head)
  }

  /** A length field is read back as the length it was written for. */
  lemma LengthRoundTrip(len: nat, masked: bool)
    requires len < WORD_LIMIT
    ensures var f := LengthField(len, masked);
            && |f| == 1 + ExtSize(f[0])
            && LengthOf(f[0], f[1..]) == len
            && (f[0] >= 128 <==> masked)
  {
    assert Pow256(2) == 0x1_0000;
    Pow256Of8();
    if len >= 126 {
      if len <= 0xFFFF { BigEndianRoundTrip(len, 2); } else { BigEndianRoundTrip(len, 8); }
    }
  }

  /** The parts of an encoded frame, and where a parser finds them. */
  lemma EncodedParts(w: Wire, rest: Bytes)
    requires |w.frame.payload| < WORD_LIMIT
    ensures var f := w.frame;
            var s := Encode(w) + rest;
            var head := 1 + |LengthField(|f.payload|, w.key.Some?)|;
            var start := if w.key.Some? then 4 else 0;
            && |Encode(w)| == head + start + |f.payload| && |s| == |Encode(w)| + |rest|
            && s[0] == FirstByte(f.fin, f.opcode)
            && s[1..head] == LengthField(|f.payload|, w.key.Some?)
            && (w.key.Some? ==> s[head..][..start] == w.key.value)
            && s[head..][start..start + |f.payload|]
               == (if w.key.Some? then Masked(f.payload, w.key.value) else f.payload)
            && s[|Encode(w)|..] == rest
  {
    hide LengthField, Masked, FirstByte;
    var f := w.frame;
    var field := LengthField(|f.payload|, w.key.Some?);
    var tail := match w.key case None => f.payload case Some(key) => key + Masked(f.payload, key);
    FiveParts(FirstByte(f.fin, f.opcode), field, tail, rest);
    match w.key {
      case None => Prefix(f.payload, rest);
      case Some(key) =>
        TwoPrefix(key, Masked(f.payload, key), rest);
    }
  }

  /** Where the pieces of a concatenation stand. */
  lemma FiveParts(first: Byte, field: Bytes, tail: Bytes, rest: Bytes)
    ensures var s := [first] + field + tail + rest;
            && s[0] == first && s[1..1 + |field|] == field && s[1 + |field|..] == tail + rest
            && s[|[first] + field + tail|..] == rest
  {
  }

  lemma Prefix(a: Bytes, b: Bytes)
    ensures (a + b)[0..0 + |a|] == a
  {
  }

  lemma TwoPrefix(a: Bytes, b: Bytes, c: Bytes)
    ensures (a + b + c)[..|a|] == a && (a + b + c)[|a|..|a| + |b|] == b
  {
  }

  /** Any stream that starts with an encoded frame of acceptable length parses to that frame, whatever follows. */
  lemma FrameRoundTrip(w: Wire, rest: Bytes)
    requires |w.frame.payload| < WORD_LIMIT
    ensures var s := Encode(w) + rest;
            if |w.frame.payload| <= MAX_PAYLOAD
            then ParseFrame(s) == Parsed(w.frame, |Encode(w)|) && s[|Encode(w)|..] == rest
            else ParseFrame(s) == Oversized
  {
    hide Encode, LengthField, Masked, LengthOf, BigEndian, ExtSize, KeySize;
    var f := w.frame;
    EncodedParts(w, rest);
    LengthRoundTrip(|f.payload|, w.key.Some?);
    KeyIs(w);
    var s := Encode(w) + rest;
    var field := LengthField(|f.payload|, w.key.Some?);
    FieldIs(s, field);
    if w.key.Some? { MaskedTwice(f.payload, w.key.value); }
  }

  lemma KeyIs(w: Wire)
    requires |w.frame.payload| < WORD_LIMIT
    ensures KeySize(LengthField(|w.frame.payload|, w.key.Some?)[0]) == if w.key.Some? then 4 else 0
  {
    LengthRoundTrip(|w.frame.payload|, w.key.Some?);
  }

  lemma FieldIs(s: Bytes, field: Bytes)
    requires field != [] && |field| < |s| && s[1..1 + |field|] == field
    ensures s[1] == field[0] && s[2..1 + |field|] == field[1..]
  {
    assert s[1..1 + |field|][0] == s[1];
    assert s[1..1 + |field|][1..] == s[2..1 + |field|];
  }
}
