/** SHA-1 (RFC 3174) and the streaming object of src/common/sha1.cpp. */
module Sha1 {
  import opened Common

  // ----- words (section 3 of RFC 3174) ----------------------------------------------------

  lemma Pow2Of32Bits()
    ensures Pow2(32) == WORD32
  {
    assert Pow2(8) == 256 by { Pow2Of8Bits(); }
    assert Pow2(12) == 16 * Pow2(8);
    assert Pow2(16) == 16 * Pow2(12);
    assert Pow2(20) == 16 * Pow2(16);
    assert Pow2(24) == 16 * Pow2(20);
    assert Pow2(28) == 16 * Pow2(24);
  }

  function And32(x: Word, y: Word): Word {
    Pow2Of32Bits();
    AndBits(x, y, 32)
  }

  function Or32(x: Word, y: Word): Word {
    Pow2Of32Bits();
    OrBits(x, y, 32)
  }

  function Xor32(x: Word, y: Word): Word {
    Pow2Of32Bits();
    XorBits(x, y, 32)
  }

  function Not32(x: Word): Word {
    0xFFFF_FFFF - x
  }

  function Add32(x: Word, y: Word): Word {
    (x + y) % WORD32
  }

  /** Circular left shift; the two halves share no bit, so their union is their sum. */
  function Rol(v: Word, n: nat): Word
    requires n == 1 || n == 5 || n == 30
  {
    if n == 1 then v % 0x8000_0000 * 2 + v / 0x8000_0000
    else if n == 5 then v % 0x800_0000 * 32 + v / 0x800_0000
    else v % 4 * 0x4000_0000 + v / 4
  }

  // ----- one block (sections 5 and 6.1) --------------------------------------------------------

  type Block = b: Bytes | |b| == 64 witness seq(64, _ => 0)

  datatype State = State(a: Word, b: Word, c: Word, d: Word, e: Word)

  const INIT := State(0x67452301, 0xEFCDAB89, 0x98BADCFE, 0x10325476, 0xC3D2E1F0)

  function WordAt(block: Block, t: nat): Word
    requires t < 16
  {
    0x100_0000 * (block[4 * t] as int) + 0x1_0000 * (block[4 * t + 1] as int)
    + 0x100 * (block[4 * t + 2] as int) + block[4 * t + 3]
  }

  /** The message schedule. */
  function Schedule(block: Block, t: nat): Word
    requires t < 80
  {
    if t < 16 then WordAt(block, t)
    else
      Rol(Xor32(Xor32(Xor32(Schedule(block, t - 3), Schedule(block, t - 8)), Schedule(block, t - 14)),
                Schedule(block, t - 16)), 1)
  }

  function F(t: nat, b: Word, c: Word, d: Word): Word {
    if t < 20 then Or32(And32(b, c), And32(Not32(b), d))
    else if t < 40 then Xor32(Xor32(b, c), d)
    else if t < 60 then Or32(Or32(And32(b, c), And32(b, d)), And32(c, d))
    else Xor32(Xor32(b, c), d)
  }

  function K(t: nat): Word {
    if t < 20 then 0x5A827999 else if t < 40 then 0x6ED9EBA1 else if t < 60 then 0x8F1BBCDC else 0xCA62C1D6
  }

  function Round(s: State, t: nat, w: Word): State {
    var tmp := Add32(Add32(Add32(Add32(Rol(s.a, 5), F(t, s.b, s.c, s.d)), s.e), K(t)), w);
    State(tmp, s.a, Rol(s.b, 30), s.c, s.d)
  }

  /** The first `t` rounds. */
  function Rounds(s: State, block: Block, t: nat): State
    requires t <= 80
  {
    if t == 0 then s else Round(Rounds(s, block, t - 1), t - 1, Schedule(block, t - 1))
  }

  function Compress(h: State, block: Block): State {
    var s := Rounds(h, block, 80);
    State(Add32(h.a, s.a), Add32(h.b, s.b), Add32(h.c, s.c), Add32(h.d, s.d), Add32(h.e, s.e))
  }

  /** The whole blocks of a byte string, one after the other. */
  function Fold(h: State, bytes: Bytes): State
    decreases |bytes|
  {
    if |bytes| < 64 then h else Fold(Compress(h, bytes[..64]), bytes[64..])
  }

  lemma {:induction false} FoldConcat(h: State, a: Bytes, b: Bytes)
    requires |a| % 64 == 0
    ensures Fold(h, a + b) == Fold(Fold(h, a), b)
    decreases |a|
  {
    hide Compress;
    if a == [] {
      assert a + b == b;
    } else {
      TakeDrop(a, b, 64);
      FoldConcat(Compress(h, a[..64]), a[64..], b);
    }
  }

  // ----- whole messages (sections 4 and 6.1) -----------------------------------------------------

  function Zeros(n: nat): (z: Bytes)
    ensures |z| == n
  {
    seq(n, _ => 0)
  }

  /** The least number of zero bytes that leaves room for the length in the last block. */
  function ZeroCount(len: nat): (n: nat)
    ensures n < 64 && (len + 1 + n) % 64 == 56
  {
    (119 - len % 64) % 64
  }

  function Pad(message: Bytes): Bytes {
    message + [0x80] + Zeros(ZeroCount(|message|)) + ToBigEndian(8 * |message|, 8)
  }

  function Digest(s: State): (d: Bytes)
    ensures |d| == 20
  {
    ToBigEndian(s.a, 4) + ToBigEndian(s.b, 4) + ToBigEndian(s.c, 4) + ToBigEndian(s.d, 4) + ToBigEndian(s.e, 4)
  }

  function Hash(message: Bytes): Bytes {
    Digest(Fold(INIT, Pad(message)))
  }

  /** Padding gives a whole number of blocks. */
  lemma PadIsWhole(message: Bytes)
    ensures |Pad(message)| % 64 == 0 && |Pad(message)| > |message| + 8
  {
    hide ToBigEndian, ZeroCount;
    assert |Pad(message)| == (|message| + 1 + ZeroCount(|message|)) + 8;
  }

  /** Padding loses nothing: two messages with the same padded form are the same. */
  lemma PadInjective(m: Bytes, n: Bytes)
    requires |m| < 0x2000_0000_0000_0000 && |n| < 0x2000_0000_0000_0000
    requires Pad(m) == Pad(n)
    ensures m == n
  {
    Pow256Of8();
    BigEndianRoundTrip(8 * |m|, 8);
    BigEndianRoundTrip(8 * |n|, 8);
    assert Pad(m)[|Pad(m)| - 8..] == ToBigEndian(8 * |m|, 8);
    assert Pad(n)[|Pad(n)| - 8..] == ToBigEndian(8 * |n|, 8);
    assert Pad(m)[..|m|] == m && Pad(n)[..|n|] == n;
  }

  // ----- the object ---------------------------------------------------------------------------------

  const SIZE_LIMIT := 0x1_0000_0000_0000_0000

  /** `fed` is everything passed to `update` since the last reset. */
  class Hasher {
    var h: State
    const buf: array<Byte>
    var bufLen: nat
    var totalLen: nat
    ghost var fed: Bytes

    /** The state is the fold of the whole blocks fed so far, and the buffer holds the rest. */
    ghost predicate Buffered()
      reads this, buf
    {
      && buf.Length == 64 && bufLen < 64 && bufLen <= |fed| && (|fed| - bufLen) % 64 == 0
      && h == Fold(INIT, fed[..|fed| - bufLen])
      && buf[..bufLen] == fed[|fed| - bufLen..]
    }

    ghost predicate Valid()
      reads this, buf
    {
      Buffered() && totalLen == |fed| % SIZE_LIMIT
    }

    constructor ()
      ensures Valid() && fed == [] && fresh(buf)
    {
      h := INIT;
      buf := new Byte[64];
      bufLen, totalLen, fed := 0, 0, [];
    }

    /** The schedule of `processBlock`. */
    method MakeSchedule() returns (w: array<Word>)
      requires buf.Length == 64
      ensures fresh(w) && w.Length == 80 && forall k | 0 <= k < 80 :: w[k] == Schedule(buf[..], k)
    {
      hide Rol, Xor32;
      ghost var block: Block := buf[..];
      w := new Word[80];
      for i := 0 to 16
        invariant forall k | 0 <= k < i :: w[k] == WordAt(block, k)
      {
        w[i] := 0x100_0000 * (buf[i * 4] as int) + 0x1_0000 * (buf[i * 4 + 1] as int)
                + 0x100 * (buf[i * 4 + 2] as int) + buf[i * 4 + 3];
      }
      for i := 16 to 80
        invariant forall k | 0 <= k < i :: w[k] == Schedule(block, k)
      {
        w[i] := Rol(Xor32(Xor32(Xor32(w[i - 3], w[i - 8]), w[i - 14]), w[i - 16]), 1);
      }
    }

    /** The function and constant of a round. */
    static method Select(i: nat, b: Word, c: Word, d: Word) returns (f: Word, k: Word)
      requires i < 80
      ensures f == F(i, b, c, d) && k == K(i)
    {
      hide And32, Or32, Xor32, Not32;
      if i < 20 {
        f := Or32(And32(b, c), And32(Not32(b), d));
        k := 0x5A827999;
      } else if i < 40 {
        f := Xor32(Xor32(b, c), d);
        k := 0x6ED9EBA1;
      } else if i < 60 {
        f := Or32(Or32(And32(b, c), And32(b, d)), And32(c, d));
        k := 0x8F1BBCDC;
      } else {
        f := Xor32(Xor32(b, c), d);
        k := 0xCA62C1D6;
      }
    }

    /** `processBlock` on the full buffer. */
    method ProcessBlock()
      requires buf.Length == 64
      modifies this`h
      ensures h == Compress(old(h), buf[..])
    {
      hide Rol, F, K, Schedule, Add32;
      var w := MakeSchedule();
      ghost var block: Block := buf[..];
      var a, b, c, d, e := h.a, h.b, h.c, h.d, h.e;
      for i := 0 to 80
        invariant h == old(h) && (forall k | 0 <= k < 80 :: w[k] == Schedule(block, k))
        invariant State(a, b, c, d, e) == Rounds(h, block, i)
      {
        var f, k := Select(i, b, c, d);
        var tmp := Add32(Add32(Add32(Add32(Rol(a, 5), f), e), k), w[i]);
        e := d;
        d := c;
        c := Rol(b, 30);
        b := a;
        a := tmp;
      }
      h := State(Add32(h.a, a), Add32(h.b, b), Add32(h.c, c), Add32(h.d, d), Add32(h.e, e));
    }

    /** `memcpy` behind the bytes already buffered. */
    method Copy(piece: Bytes)
      requires buf.Length == 64 && bufLen + |piece| <= 64
      modifies buf
      ensures buf[..bufLen + |piece|] == old(buf[..bufLen]) + piece
    {
      forall k | 0 <= k < |piece| { buf[bufLen + k] := piece[k]; }
    }

    /** One turn of the loop of `update`: buffer what fits, and process the buffer when it is full. */
    method Absorb(piece: Bytes)
      requires Buffered() && bufLen + |piece| <= 64
      modifies this`h, this`bufLen, this`fed, buf
      ensures Buffered() && fed == old(fed) + piece
    {
      hide Fold, Compress;
      Copy(piece);
      KeepsPrefix(fed, piece, bufLen);
      fed := fed + piece;
      bufLen := bufLen + |piece|;
      if bufLen == 64 {
        assert buf[..64] == buf[..];
        WholeBlock(fed);
        ProcessBlock();
        bufLen := 0;
      }
    }

    /** `update` */
    method Update(data: Bytes)
      requires Valid()
      modifies this, buf
      ensures Valid() && fed == old(fed) + data
    {
      hide Fold, Compress;
      totalLen := (totalLen + |data|) % SIZE_LIMIT;
      var off := 0;
      while off < |data|
        invariant off <= |data| && Buffered() && fed == old(fed) + data[..off]
        invariant totalLen == (|old(fed)| + |data|) % SIZE_LIMIT
      {
        var room := 64 - bufLen;
        var take := if |data| - off < room then |data| - off else room;
        Absorb(data[off..off + take]);
        assert fed == old(fed) + data[..off + take] by { Extends(old(fed), data, off, take); }
        off := off + take;
      }
      assert data[..|data|] == data;
    }

    /** The padding of `final` in front of the length: one byte 0x80, then zeros until eight bytes of a block remain. */
    method PadToLength()
      requires Valid()
      modifies this, buf
      ensures Valid() && bufLen == 56
      ensures fed == old(fed) + [0x80] + Zeros(ZeroCount(|old(fed)|))
    {
      hide Fold;
      ghost var message := fed;
      Update([0x80]);
      ghost var zeros := 0;
      assert message + [0x80] + Zeros(0) == message + [0x80];
      while bufLen != 56
        invariant Valid() && fed == message + [0x80] + Zeros(zeros)
        invariant zeros <= ZeroCount(|message|)
        decreases ZeroCount(|message|) - zeros
      {
        BeforeLength(message, zeros, bufLen);
        OneMoreZero(message + [0x80], zeros);
        Update([0]);
        zeros := zeros + 1;
      }
      AtLength(message, zeros, bufLen);
    }

    /** The eight bytes of the bit length. */
    static method LengthBytes(bitLen: nat) returns (lenBuf: Bytes)
      ensures lenBuf == ToBigEndian(bitLen, 8)
    {
      var bytes := new Byte[8];
      for i := 0 to 8
        invariant forall k | 0 <= k < i :: bytes[k] == ToBigEndian(bitLen, 8)[k]
      {
        ToBigEndianAt(bitLen, 8, i);
        bytes[i] := ByteOf(bitLen / Pow256(7 - i));
      }
      lenBuf := bytes[..];
    }

    /** `final` */
    method Final() returns (out: Bytes)
      requires Valid()
      modifies this, buf
      ensures |old(fed)| < 0x2000_0000_0000_0000 ==> out == Hash(old(fed))
    {
      hide Fold, Digest, ToBigEndian, Compress, Pad, ZeroCount;
      ghost var message := fed;
      var bitLen := totalLen * 8 % SIZE_LIMIT;
      ShortLength(totalLen, |message|);
      PadToLength();
      var lenBuf := LengthBytes(bitLen);
      Update(lenBuf);
      PadParts(message);
      PadIsWhole(message);
      assert fed[..|fed|] == fed;
      out := Digest(h);
    }
  }

  lemma ShortLength(totalLen: nat, len: nat)
    requires totalLen == len % SIZE_LIMIT
    ensures len < 0x2000_0000_0000_0000 ==> totalLen * 8 % SIZE_LIMIT == 8 * len
  {
  }

  lemma PadParts(message: Bytes)
    ensures message + [0x80] + Zeros(ZeroCount(|message|)) + ToBigEndian(8 * |message|, 8) == Pad(message)
  {
  }

  lemma OneMoreZero(a: Bytes, zeros: nat)
    ensures a + Zeros(zeros) + [0] == a + Zeros(zeros + 1)
  {
    assert Zeros(zeros) + [0] == Zeros(zeros + 1);
  }

  lemma Extends(before: Bytes, data: Bytes, off: nat, take: nat)
    requires off + take <= |data|
    ensures before + data[..off] + data[off..off + take] == before + data[..off + take]
  {
  }

  lemma KeepsPrefix(fed: Bytes, piece: Bytes, n: nat)
    requires n <= |fed|
    ensures (fed + piece)[..|fed| - n] == fed[..|fed| - n]
    ensures (fed + piece)[|fed| - n..] == fed[|fed| - n..] + piece
  {
  }

  /** The last 64 bytes of a whole number of blocks are one more block. */
  lemma WholeBlock(fed: Bytes)
    requires |fed| >= 64 && |fed| % 64 == 0
    ensures Fold(INIT, fed[..|fed|]) == Compress(Fold(INIT, fed[..|fed| - 64]), fed[|fed| - 64..])
  {
    hide Compress;
    var a, b := fed[..|fed| - 64], fed[|fed| - 64..];
    FoldConcat(INIT, a, b);
    assert a + b == fed[..|fed|];
    assert b[..64] == b && b[64..] == [];
    assert Fold(Fold(INIT, a), b) == Compress(Fold(INIT, a), b);
  }

  lemma BeforeLength(message: Bytes, zeros: nat, bufLen: nat)
    requires bufLen < 64 && (|message| + 1 + zeros - bufLen) % 64 == 0 && bufLen != 56
    requires zeros <= ZeroCount(|message|)
    ensures zeros < ZeroCount(|message|)
  {
  }

  lemma AtLength(message: Bytes, zeros: nat, bufLen: nat)
    requires bufLen == 56 && (|message| + 1 + zeros - bufLen) % 64 == 0 && zeros <= ZeroCount(|message|)
    ensures zeros == ZeroCount(|message|)
  {
  }

  /** `hash`: one update, one final. */
  method HashOf(data: Bytes) returns (out: Bytes)
    requires |data| < 0x2000_0000_0000_0000
    ensures out == Hash(data) && |out| == 20
  {
    hide Fold, Pad, Digest;
    var s := new Hasher();
    s.Update(data);
    assert [] + data == data;
    out := s.Final();
  }

  // ----- every split ------------------------------------------------------------------------------------

  function Joined(pieces: seq<Bytes>): Bytes {
    if pieces == [] then [] else Joined(pieces[..|pieces| - 1]) + pieces[|pieces| - 1]
  }

  /** A message handed over in any pieces hashes to the digest of the whole. */
  method HashPieces(pieces: seq<Bytes>) returns (out: Bytes)
    requires |Joined(pieces)| < 0x2000_0000_0000_0000
    ensures out == Hash(Joined(pieces))
  {
    var s := new Hasher();
    for i := 0 to |pieces|
      invariant s.Valid() && fresh(s) && fresh(s.buf) && s.fed == Joined(pieces[..i])
    {
      hide Fold, Hash;
      assert pieces[..i + 1][..i] == pieces[..i];
      s.Update(pieces[i]);
    }
    assert pieces[..|pieces|] == pieces;
    out := s.Final();
  }
}
