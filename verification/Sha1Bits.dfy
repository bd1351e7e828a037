/** What the words of SHA-1 do, bit by bit, and where its constants come from (RFC 3174, sections 3, 5 and 6.1). */
module Sha1Bits {
  import opened Common
  import opened Sha1

  /** The bit of a number at position `k`, the lowest being 0. */
  predicate Bit(x: nat, k: nat) {
    x / Pow2(k) % 2 == 1
  }

  lemma BitZero(x: nat)
    ensures Bit(x, 0) <==> x % 2 == 1
  {
  }

  lemma BitNext(x: nat, k: nat)
    requires k > 0
    ensures Bit(x, k) <==> Bit(x / 2, k - 1)
  {
    DivProduct(x, 2, Pow2(k - 1));
  }

  // ----- the operations -------------------------------------------------------------------------

  lemma HalfOf(x: nat, y: nat, r: nat, low: nat)
    requires r == 2 * y + low && low < 2
    ensures r / 2 == y && r % 2 == low
  {
  }

  lemma {:induction false} AndBit(x: nat, y: nat, width: nat, k: nat)
    requires k < width
    ensures Bit(AndBits(x, y, width), k) <==> Bit(x, k) && Bit(y, k)
  {
    hide Bit;
    var r := AndBits(x, y, width);
    HalfOf(x, AndBits(x / 2, y / 2, width - 1), r, if x % 2 == 1 && y % 2 == 1 then 1 else 0);
    if k == 0 {
      BitZero(x);
      BitZero(y);
      BitZero(r);
    } else {
      AndBit(x / 2, y / 2, width - 1, k - 1);
      BitNext(x, k);
      BitNext(y, k);
      BitNext(r, k);
    }
  }

  lemma {:induction false} OrBit(x: nat, y: nat, width: nat, k: nat)
    requires k < width
    ensures Bit(OrBits(x, y, width), k) <==> Bit(x, k) || Bit(y, k)
  {
    hide Bit;
    var r := OrBits(x, y, width);
    HalfOf(x, OrBits(x / 2, y / 2, width - 1), r, if x % 2 == 1 || y % 2 == 1 then 1 else 0);
    if k == 0 {
      BitZero(x);
      BitZero(y);
      BitZero(r);
    } else {
      OrBit(x / 2, y / 2, width - 1, k - 1);
      BitNext(x, k);
      BitNext(y, k);
      BitNext(r, k);
    }
  }

  lemma {:induction false} XorBit(x: nat, y: nat, width: nat, k: nat)
    requires k < width
    ensures Bit(XorBits(x, y, width), k) <==> Bit(x, k) != Bit(y, k)
  {
    hide Bit;
    var r := XorBits(x, y, width);
    HalfOf(x, XorBits(x / 2, y / 2, width - 1), r, if x % 2 == y % 2 then 0 else 1);
    if k == 0 {
      BitZero(x);
      BitZero(y);
      BitZero(r);
    } else {
      XorBit(x / 2, y / 2, width - 1, k - 1);
      BitNext(x, k);
      BitNext(y, k);
      BitNext(r, k);
    }
  }

  lemma {:induction false} NotBit(x: nat, width: nat, k: nat)
    requires k < width && x < Pow2(width)
    ensures Bit(Pow2(width) - 1 - x, k) <==> !Bit(x, k)
  {
    hide Bit;
    var r: nat := Pow2(width) - 1 - x;
    HalfOf(x, Pow2(width - 1) - 1 - x / 2, r, 1 - x % 2);
    if k == 0 {
      BitZero(x);
      BitZero(r);
    } else {
      NotBit(x / 2, width - 1, k - 1);
      BitNext(x, k);
      BitNext(r, k);
    }
  }

  /** Words with the same bits are the same. */
  lemma {:induction false} SameBits(x: nat, y: nat, width: nat)
    requires x < Pow2(width) && y < Pow2(width) && forall k | 0 <= k < width :: Bit(x, k) <==> Bit(y, k)
    ensures x == y
  {
    hide Bit;
    if width > 0 {
      BitZero(x);
      BitZero(y);
      assert Bit(x, 0) <==> Bit(y, 0);
      forall k | 0 <= k < width - 1 ensures Bit(x / 2, k) <==> Bit(y / 2, k) {
        BitNext(x, k + 1);
        BitNext(y, k + 1);
        assert Bit(x, k + 1) <==> Bit(y, k + 1);
      }
      SameBits(x / 2, y / 2, width - 1);
    }
  }

  // ----- the round function, bit by bit -------------------------------------------------------------

  lemma And32Bit(x: Word, y: Word, k: nat)
    requires k < 32
    ensures Bit(And32(x, y), k) <==> Bit(x, k) && Bit(y, k)
  {
    hide Bit;
    AndBit(x, y, 32, k);
  }

  lemma Or32Bit(x: Word, y: Word, k: nat)
    requires k < 32
    ensures Bit(Or32(x, y), k) <==> Bit(x, k) || Bit(y, k)
  {
    hide Bit;
    OrBit(x, y, 32, k);
  }

  lemma Xor32Bit(x: Word, y: Word, k: nat)
    requires k < 32
    ensures Bit(Xor32(x, y), k) <==> Bit(x, k) != Bit(y, k)
  {
    hide Bit;
    XorBit(x, y, 32, k);
  }

  lemma Not32Bit(x: Word, k: nat)
    requires k < 32
    ensures Bit(Not32(x), k) <==> !Bit(x, k)
  {
    hide Bit;
    Pow2Of32Bits();
    NotBit(x, 32, k);
  }

  lemma ChooseBit(b: Word, c: Word, d: Word, k: nat)
    requires k < 32
    ensures Bit(Or32(And32(b, c), And32(Not32(b), d)), k) <==> if Bit(b, k) then Bit(c, k) else Bit(d, k)
  {
    hide Bit, And32, Or32, Not32;
    And32Bit(b, c, k);
    Not32Bit(b, k);
    And32Bit(Not32(b), d, k);
    Or32Bit(And32(b, c), And32(Not32(b), d), k);
  }

  lemma ParityBit(b: Word, c: Word, d: Word, k: nat)
    requires k < 32
    ensures Bit(Xor32(Xor32(b, c), d), k) <==> ((Bit(b, k) != Bit(c, k)) != Bit(d, k))
  {
    hide Bit, Xor32;
    Xor32Bit(b, c, k);
    Xor32Bit(Xor32(b, c), d, k);
  }

  lemma MajorityBit(b: Word, c: Word, d: Word, k: nat)
    requires k < 32
    ensures Bit(Or32(Or32(And32(b, c), And32(b, d)), And32(c, d)), k) <==>
              (Bit(b, k) && Bit(c, k)) || (Bit(b, k) && Bit(d, k)) || (Bit(c, k) && Bit(d, k))
  {
    hide Bit, And32, Or32;
    And32Bit(b, c, k);
    And32Bit(b, d, k);
    And32Bit(c, d, k);
    Or32Bit(And32(b, c), And32(b, d), k);
    Or32Bit(Or32(And32(b, c), And32(b, d)), And32(c, d), k);
  }

  /** How many of three bits are set. */
  function Count(p: bool, q: bool, r: bool): nat {
    (if p then 1 else 0) + (if q then 1 else 0) + (if r then 1 else 0)
  }

  /** Section 5: `F` chooses in the first twenty rounds, takes the majority in the third twenty, and the parity else. */
  lemma RoundFunction(t: nat, b: Word, c: Word, d: Word, k: nat)
    requires t < 80 && k < 32
    ensures var p, q, r := Bit(b, k), Bit(c, k), Bit(d, k);
            Bit(F(t, b, c, d), k) <==>
              if t < 20 then (if p then q else r)
              else if 40 <= t < 60 then Count(p, q, r) >= 2
              else Count(p, q, r) % 2 == 1
  {
    hide Bit, And32, Or32, Xor32, Not32;
    if t < 20 { ChooseBit(b, c, d, k); }
    else if 40 <= t < 60 { MajorityBit(b, c, d, k); }
    else { ParityBit(b, c, d, k); }
  }

  // ----- the circular shift ---------------------------------------------------------------------------

  /** Below position `n` a sum of a multiple of `2^n` and a remainder has the remainder's bits, from it on the factor's. */
  lemma {:induction false} SplitBit(hi: nat, lo: nat, n: nat, k: nat)
    requires lo < Pow2(n)
    ensures Bit(hi * Pow2(n) + lo, k) <==> if k < n then Bit(lo, k) else Bit(hi, k - n)
    decreases n
  {
    hide Bit;
    var x := hi * Pow2(n) + lo;
    if n == 0 {
    } else {
      MulAssoc(hi, 2, Pow2(n - 1));
      assert x == 2 * (hi * Pow2(n - 1) + lo / 2) + lo % 2;
      HalfOf(0, hi * Pow2(n - 1) + lo / 2, x, lo % 2);
      if k == 0 {
        BitZero(x);
        BitZero(lo);
      } else {
        SplitBit(hi, lo / 2, n - 1, k - 1);
        BitNext(x, k);
        if k < n { BitNext(lo, k); }
      }
    }
  }

  lemma RolIs(v: Word, n: nat)
    requires n == 1 || n == 5 || n == 30
    ensures Pow2(32 - n) > 0 && v / Pow2(32 - n) < Pow2(n)
    ensures Rol(v, n) == (v % Pow2(32 - n)) * Pow2(n) + v / Pow2(32 - n)
  {
    SomePowers();
  }

  lemma SomePowers()
    ensures Pow2(1) == 2 && Pow2(2) == 4 && Pow2(5) == 32
    ensures Pow2(27) == 0x800_0000 && Pow2(30) == 0x4000_0000 && Pow2(31) == 0x8000_0000
  {
    assert Pow2(3) == 8;
    Pow2Sum(5, 5);
    Pow2Sum(10, 10);
    Pow2Sum(20, 5);
    Pow2Sum(25, 2);
    Pow2Sum(25, 5);
    Pow2Sum(30, 1);
  }

  /** Section 3: a circular shift by `n` moves the bit at `k` to `k + n`, round the end of the word. */
  lemma RolBit(v: Word, n: nat, k: nat)
    requires (n == 1 || n == 5 || n == 30) && k < 32
    ensures Bit(Rol(v, n), (k + n) % 32) <==> Bit(v, k)
  {
    hide Bit, Pow2, Rol;
    RolIs(v, n);
    var hi: nat, lo: nat := v % Pow2(32 - n), v / Pow2(32 - n);
    SplitBit(hi, lo, n, (k + n) % 32);
    Decompose(v, Pow2(32 - n));
    SplitBit(lo, hi, 32 - n, k);
  }

  lemma Decompose(v: nat, d: nat)
    requires d > 0
    ensures v == (v / d) * d + v % d && v % d < d
  {
  }

  // ----- the constants ----------------------------------------------------------------------------------

  /** The four constants are the integer parts of 2^30 times the square roots of 2, 3, 5 and 10. */
  lemma Constants(t: nat)
    requires t < 80
    ensures var n := if t < 20 then 2 else if t < 40 then 3 else if t < 60 then 5 else 10;
            var k := K(t) as int;
            k * k <= 0x1000_0000_0000_0000 * n < (k + 1) * (k + 1)
  {
    assert 0x5A827999 * 0x5A827999 <= 0x2000_0000_0000_0000 < 0x5A82799A * 0x5A82799A;
    assert 0x6ED9EBA1 * 0x6ED9EBA1 <= 0x3000_0000_0000_0000 < 0x6ED9EBA2 * 0x6ED9EBA2;
    assert 0x8F1BBCDC * 0x8F1BBCDC <= 0x5000_0000_0000_0000 < 0x8F1BBCDD * 0x8F1BBCDD;
    assert 0xCA62C1D6 * 0xCA62C1D6 <= 0xA000_0000_0000_0000 < 0xCA62C1D7 * 0xCA62C1D7;
  }

  /** The bytes of a word, lowest first. */
  function LowFirst(w: Word): Bytes {
    [w % 256, w / 0x100 % 256, w / 0x1_0000 % 256, w / 0x100_0000]
  }

  /** Bytes that start at `first` and go on in steps. */
  predicate Runs(bytes: Bytes, first: int, step: int) {
    forall k | 0 <= k < |bytes| :: bytes[k] == first + step * k
  }

  /** The initial words, lowest byte first: 01 23 .. EF, then FE DC .. 10, then F0 E1 D2 C3. */
  lemma InitialWords()
    ensures Runs(LowFirst(INIT.a) + LowFirst(INIT.b), 0x01, 0x22)
    ensures Runs(LowFirst(INIT.c) + LowFirst(INIT.d), 0xFE, -0x22)
    ensures Runs(LowFirst(INIT.e), 0xF0, -0x0F)
  {
    assert LowFirst(INIT.a) == [0x01, 0x23, 0x45, 0x67];
    assert LowFirst(INIT.b) == [0x89, 0xAB, 0xCD, 0xEF];
    assert LowFirst(INIT.c) == [0xFE, 0xDC, 0xBA, 0x98];
    assert LowFirst(INIT.d) == [0x76, 0x54, 0x32, 0x10];
    assert LowFirst(INIT.e) == [0xF0, 0xE1, 0xD2, 0xC3];
  }

  /** One round (section 6.1, step d): five words move down, and the new one is the sum of five modulo 2^32. */
  lemma RoundMoves(s: State, t: nat, w: Word)
    requires t < 80
    ensures var s' := Round(s, t, w);
            && s'.a == (Rol(s.a, 5) + F(t, s.b, s.c, s.d) + s.e + K(t) + w) % WORD32
            && s'.b == s.a && s'.c == Rol(s.b, 30) && s'.d == s.c && s'.e == s.d
  {
    hide Rol, F, K;
    var p, q := Rol(s.a, 5) + F(t, s.b, s.c, s.d), s.e as int;
    SumWraps(p, q, K(t), w);
  }

  lemma SumWraps(p: nat, q: nat, r: nat, u: nat)
    ensures (((p % WORD32 + q) % WORD32 + r) % WORD32 + u) % WORD32 == (p + q + r + u) % WORD32
  {
    var a := p % WORD32;
    var b := (a + q) % WORD32;
    var c := (b + r) % WORD32;
    assert p == WORD32 * (p / WORD32) + a;
    assert a + q == WORD32 * ((a + q) / WORD32) + b;
    assert b + r == WORD32 * ((b + r) / WORD32) + c;
    assert p + q + r + u == c + u + WORD32 * (p / WORD32 + (a + q) / WORD32 + (b + r) / WORD32);
  }
}
