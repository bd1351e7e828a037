/**
 * Words of SHA-1 as eight hexadecimal digits, so that a whole digest can be worked out digit by digit; every operation
 * on digits is shown to be the operation on words.
 */
module Sha1Hex {
  import opened Common
  import opened Sha1
  import opened Sha1Bits

  /** Four bits, the highest first. */
  datatype Digit = Digit(b3: bool, b2: bool, b1: bool, b0: bool)

  const D0 := Digit(false, false, false, false)
  const D1 := Digit(false, false, false, true)
  const D2 := Digit(false, false, true, false)
  const D3 := Digit(false, false, true, true)
  const D4 := Digit(false, true, false, false)
  const D5 := Digit(false, true, false, true)
  const D6 := Digit(false, true, true, false)
  const D7 := Digit(false, true, true, true)
  const D8 := Digit(true, false, false, false)
  const D9 := Digit(true, false, false, true)
  const DA := Digit(true, false, true, false)
  const DB := Digit(true, false, true, true)
  const DC := Digit(true, true, false, false)
  const DD := Digit(true, true, false, true)
  const DE := Digit(true, true, true, false)
  const DF := Digit(true, true, true, true)

  datatype Hex = W(d7: Digit, d6: Digit, d5: Digit, d4: Digit, d3: Digit, d2: Digit, d1: Digit, d0: Digit)

  function Num(d: Digit): (n: nat)
    ensures n < 16
  {
    (if d.b3 then 8 else 0) + (if d.b2 then 4 else 0) + (if d.b1 then 2 else 0) + (if d.b0 then 1 else 0)
  }

  /** The word written with these digits. */
  function V(a: Hex): Word {
    0x1000_0000 * Num(a.d7) + 0x100_0000 * Num(a.d6) + 0x10_0000 * Num(a.d5) + 0x1_0000 * Num(a.d4)
    + 0x1000 * Num(a.d3) + 0x100 * Num(a.d2) + 0x10 * Num(a.d1) + Num(a.d0)
  }

  // ----- bits of a word in digits --------------------------------------------------------------------

  predicate DigitAt(d: Digit, j: nat) {
    if j == 0 then d.b0 else if j == 1 then d.b1 else if j == 2 then d.b2 else d.b3
  }

  function Nth(a: Hex, i: nat): Digit {
    if i == 0 then a.d0 else if i == 1 then a.d1 else if i == 2 then a.d2 else if i == 3 then a.d3
    else if i == 4 then a.d4 else if i == 5 then a.d5 else if i == 6 then a.d6 else a.d7
  }

  predicate BitAt(a: Hex, k: nat) {
    DigitAt(Nth(a, k / 4), k % 4)
  }

  lemma DigitBit(d: Digit, j: nat)
    requires j < 4
    ensures Bit(Num(d), j) <==> DigitAt(d, j)
  {
    hide Bit;
    var h3 := if d.b3 then 1 else 0;
    var h2 := 2 * h3 + if d.b2 then 1 else 0;
    var h1 := 2 * h2 + if d.b1 then 1 else 0;
    BitZero(Num(d));
    BitZero(h1);
    BitZero(h2);
    BitZero(h3);
    if j > 0 { BitNext(Num(d), j); }
    if j > 1 { BitNext(h1, j - 1); }
    if j > 2 { BitNext(h2, j - 2); }
  }

  /** The digits from the `i`-th up. */
  function Upper(a: Hex, i: nat): nat
    requires i <= 8
    decreases 8 - i
  {
    if i == 8 then 0 else 16 * Upper(a, i + 1) + Num(Nth(a, i))
  }

  lemma UpperIs(a: Hex)
    ensures Upper(a, 0) == V(a)
  {
    hide Num;
    assert Upper(a, 7) == Num(a.d7);
    assert Upper(a, 5) == 16 * (16 * Num(a.d7) + Num(a.d6)) + Num(a.d5);
    assert Upper(a, 3) == 16 * (16 * Upper(a, 5) + Num(a.d4)) + Num(a.d3);
    assert Upper(a, 1) == 16 * (16 * Upper(a, 3) + Num(a.d2)) + Num(a.d1);
  }

  lemma {:induction false} UpperBit(a: Hex, i: nat, k: nat)
    requires i < 8 && 4 * i + k < 32
    ensures Bit(Upper(a, i), k) <==> BitAt(a, 4 * i + k)
    decreases 8 - i
  {
    hide Bit, DigitAt, Nth, Num;
    assert Pow2(4) == 16;
    SplitBit(Upper(a, i + 1), Num(Nth(a, i)), 4, k);
    if k < 4 {
      DigitBit(Nth(a, i), k);
      assert (4 * i + k) / 4 == i && (4 * i + k) % 4 == k;
    } else {
      UpperBit(a, i + 1, k - 4);
    }
  }

  lemma WordBit(a: Hex, k: nat)
    requires k < 32
    ensures Bit(V(a), k) <==> BitAt(a, k)
  {
    hide Bit, BitAt, Upper, V;
    UpperIs(a);
    UpperBit(a, 0, k);
  }

  /** A word is the one written with digits if its bits are theirs. */
  lemma IsWord(x: Word, a: Hex)
    requires forall k | 0 <= k < 32 :: Bit(x, k) <==> BitAt(a, k)
    ensures x == V(a)
  {
    hide Bit, BitAt, V;
    Pow2Of32Bits();
    forall k | 0 <= k < 32 ensures Bit(x, k) <==> Bit(V(a), k) {
      WordBit(a, k);
      assert Bit(x, k) <==> BitAt(a, k);
    }
    SameBits(x, V(a), 32);
  }

  // ----- logic -------------------------------------------------------------------------------------

  predicate FB(t: nat, p: bool, q: bool, r: bool) {
    if t < 20 then (if p then q else r)
    else if 40 <= t < 60 then (p && q) || (p && r) || (q && r)
    else (p != q) != r
  }

  function FD(t: nat, p: Digit, q: Digit, r: Digit): Digit {
    Digit(FB(t, p.b3, q.b3, r.b3), FB(t, p.b2, q.b2, r.b2), FB(t, p.b1, q.b1, r.b1), FB(t, p.b0, q.b0, r.b0))
  }

  function FH(t: nat, a: Hex, b: Hex, c: Hex): Hex {
    W(FD(t, a.d7, b.d7, c.d7), FD(t, a.d6, b.d6, c.d6), FD(t, a.d5, b.d5, c.d5), FD(t, a.d4, b.d4, c.d4),
      FD(t, a.d3, b.d3, c.d3), FD(t, a.d2, b.d2, c.d2), FD(t, a.d1, b.d1, c.d1), FD(t, a.d0, b.d0, c.d0))
  }

  lemma FAt(t: nat, a: Hex, b: Hex, c: Hex, k: nat)
    requires k < 32
    ensures BitAt(FH(t, a, b, c), k) <==> FB(t, BitAt(a, k), BitAt(b, k), BitAt(c, k))
  {
    hide FB, FD, DigitAt;
    FNth(t, a, b, c, k / 4);
    FDigitAt(t, Nth(a, k / 4), Nth(b, k / 4), Nth(c, k / 4), k % 4);
  }

  lemma FNth(t: nat, a: Hex, b: Hex, c: Hex, i: nat)
    requires i < 8
    ensures Nth(FH(t, a, b, c), i) == FD(t, Nth(a, i), Nth(b, i), Nth(c, i))
  {
    hide FD;
  }

  lemma FDigitAt(t: nat, p: Digit, q: Digit, r: Digit, j: nat)
    requires j < 4
    ensures DigitAt(FD(t, p, q, r), j) <==> FB(t, DigitAt(p, j), DigitAt(q, j), DigitAt(r, j))
  {
    hide FB;
  }

  lemma FWord(t: nat, a: Hex, b: Hex, c: Hex)
    requires t < 80
    ensures F(t, V(a), V(b), V(c)) == V(FH(t, a, b, c))
  {
    hide Bit, BitAt, V, F, FH;
    forall k | 0 <= k < 32 ensures Bit(F(t, V(a), V(b), V(c)), k) <==> BitAt(FH(t, a, b, c), k) {
      RoundFunction(t, V(a), V(b), V(c), k);
      WordBit(a, k);
      WordBit(b, k);
      WordBit(c, k);
      FAt(t, a, b, c, k);
    }
    IsWord(F(t, V(a), V(b), V(c)), FH(t, a, b, c));
  }

  function XorD(p: Digit, q: Digit): Digit {
    Digit(p.b3 != q.b3, p.b2 != q.b2, p.b1 != q.b1, p.b0 != q.b0)
  }

  function XorH(a: Hex, b: Hex): Hex {
    W(XorD(a.d7, b.d7), XorD(a.d6, b.d6), XorD(a.d5, b.d5), XorD(a.d4, b.d4),
      XorD(a.d3, b.d3), XorD(a.d2, b.d2), XorD(a.d1, b.d1), XorD(a.d0, b.d0))
  }

  lemma XorAt(a: Hex, b: Hex, k: nat)
    requires k < 32
    ensures BitAt(XorH(a, b), k) <==> BitAt(a, k) != BitAt(b, k)
  {
    hide XorD, DigitAt;
    assert Nth(XorH(a, b), k / 4) == XorD(Nth(a, k / 4), Nth(b, k / 4));
    XorDigitAt(Nth(a, k / 4), Nth(b, k / 4), k % 4);
  }

  lemma XorDigitAt(p: Digit, q: Digit, j: nat)
    requires j < 4
    ensures DigitAt(XorD(p, q), j) <==> DigitAt(p, j) != DigitAt(q, j)
  {
  }

  lemma XorWord(a: Hex, b: Hex)
    ensures Xor32(V(a), V(b)) == V(XorH(a, b))
  {
    hide Bit, BitAt, V, Xor32, XorH;
    forall k | 0 <= k < 32 ensures Bit(Xor32(V(a), V(b)), k) <==> BitAt(XorH(a, b), k) {
      Xor32Bit(V(a), V(b), k);
      WordBit(a, k);
      WordBit(b, k);
      XorAt(a, b, k);
    }
    IsWord(Xor32(V(a), V(b)), XorH(a, b));
  }

  // ----- a step in digits ------------------------------------------------------------------------------

  /** A word of the schedule from four earlier ones. */
  lemma NextWord(block: Block, t: nat, w3: Hex, w8: Hex, w14: Hex, w16: Hex)
    requires 16 <= t < 80
    requires Schedule(block, t - 3) == V(w3) && Schedule(block, t - 8) == V(w8)
    requires Schedule(block, t - 14) == V(w14) && Schedule(block, t - 16) == V(w16)
    ensures Schedule(block, t) == Rol(V(XorH(XorH(XorH(w3, w8), w14), w16)), 1)
  {
    hide V, Xor32, Rol, XorH;
    XorWord(w3, w8);
    XorWord(XorH(w3, w8), w14);
    XorWord(XorH(XorH(w3, w8), w14), w16);
  }

  /** One more round of a block, with its three arguments of `F` in digits. */
  lemma OneRound(h: State, block: Block, t: nat, a: Word, b: Hex, c: Hex, d: Hex, e: Word)
    requires t < 80 && Rounds(h, block, t) == State(a, V(b), V(c), V(d), e)
    ensures Rounds(h, block, t + 1)
         == State((Rol(a, 5) + V(FH(t, b, c, d)) + e + K(t) + Schedule(block, t)) % WORD32, a, Rol(V(b), 30), V(c), V(d))
  {
    hide V, Round, F, FH, Schedule, Rol, K;
    FWord(t, b, c, d);
    RoundMoves(Rounds(h, block, t), t, Schedule(block, t));
  }
}
