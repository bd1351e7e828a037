/** The CIDR prefix test and the block tables of src/common/ssrf.cpp. */
module Cidr {
  import opened Common

  lemma Pow2Add8(n: nat)
    ensures Pow2(n + 8) == 256 * Pow2(n)
  {
    assert Pow2(n + 4) == 16 * Pow2(n) by {
      assert Pow2(n + 2) == 4 * Pow2(n);
    }
    assert Pow2(n + 6) == 4 * Pow2(n + 4);
  }

  lemma {:induction false} Pow2Of8(k: nat)
    ensures Pow2(8 * k) == Pow256(k)
  {
    if k > 0 {
      Pow2Of8(k - 1);
      Pow2Add8(8 * k - 8);
    }
  }

  /** The leading `bits` bits of two addresses agree, as numbers. */
  predicate SamePrefix(actual: Bytes, base: Bytes, bits: nat)
    requires |actual| == |base| && bits <= 8 * |actual|
  {
    var scale := Pow2(8 * |actual| - bits);
    BigEndian(actual) / scale == BigEndian(base) / scale
  }

  /** `(0xff << (8 - restBits)) & 0xff` */
  function Mask(restBits: nat): Byte
    requires 1 <= restBits <= 7
  {
    ByteOf(0xff * Pow2(8 - restBits))
  }

  lemma HalfRemainder(x: nat, half: nat)
    requires half > 0
    ensures x % (2 * half) == 2 * (x / 2 % half) + x % 2
  {
    var q, r := x / 2 / half, x / 2 % half;
    assert x / 2 == half * q + r;
    assert x == 2 * half * q + (2 * r + x % 2);
    Remainder(x, 2 * half, q, 2 * r + x % 2);
  }

  lemma AndEven(x: nat, half: nat, width: nat)
    requires width > 0
    ensures AndBits(x, 2 * half, width) == 2 * AndBits(x / 2, half, width - 1)
  {
  }

  lemma AndOdd(x: nat, half: nat, width: nat)
    requires width > 0
    ensures AndBits(x, 2 * half + 1, width) == 2 * AndBits(x / 2, half, width - 1) + x % 2
  {
  }

  /** A mask of ones above the low `k` bits clears exactly those `k` bits. */
  lemma {:induction false} HighMask(x: nat, width: nat, k: nat)
    requires k <= width && x < Pow2(width)
    ensures Pow2(k) <= Pow2(width)
    ensures AndBits(x, Pow2(width) - Pow2(k), width) + x % Pow2(k) == x
    decreases width
  {
    hide AndBits;
    if k > 0 {
      HighMask(x / 2, width - 1, k - 1);
      AndEven(x, Pow2(width - 1) - Pow2(k - 1), width);
      HalfRemainder(x, Pow2(k - 1));
    } else if width > 0 {
      HighMask(x / 2, width - 1, 0);
      AndOdd(x, Pow2(width - 1) - 1, width);
    } else {
      NoBits(x);
    }
  }

  lemma NoBits(x: nat)
    ensures AndBits(x, 0, 0) == 0
  {
  }

  lemma MaskValue(restBits: nat)
    requires 1 <= restBits <= 7
    ensures Mask(restBits) == 256 - Pow2(8 - restBits)
  {
    var p := Pow2(8 - restBits);
    assert p > 1;
    HighMask(0, 8, 8 - restBits);
    Pow2Of8Bits();
    Remainder(255 * p, 256, p - 1, 256 - p);
  }

  lemma MaskRemainder(x: Byte, restBits: nat)
    requires 1 <= restBits <= 7
    ensures And(x, Mask(restBits)) + x % Pow2(8 - restBits) == x
  {
    hide AndBits, Pow2, Mask;
    Pow2Of8Bits();
    MaskValue(restBits);
    HighMask(x, 8, 8 - restBits);
  }

  /** The prefix test on one byte: masked bytes agree exactly when the quotients do. */
  lemma MaskKeepsHighBits(x: Byte, y: Byte, restBits: nat)
    requires 1 <= restBits <= 7
    ensures And(x, Mask(restBits)) == And(y, Mask(restBits)) <==> x / Pow2(8 - restBits) == y / Pow2(8 - restBits)
  {
    MaskRemainder(x, restBits);
    MaskRemainder(y, restBits);
    SameQuotient(x, y, Pow2(8 - restBits));
  }

  lemma SameQuotient(x: nat, y: nat, d: nat)
    requires d > 0
    ensures x - x % d == y - y % d <==> x / d == y / d
  {
    assert x == d * (x / d) + x % d;
    assert y == d * (y / d) + y % d;
    if x - x % d == y - y % d {
      SameFactor(d, x / d, y / d);
    }
  }

  lemma SameFactor(d: nat, a: nat, b: nat)
    requires d > 0 && d * a == d * b
    ensures a == b
  {
  }

  // ----- the numeric meaning of the prefix test -------------------------------

  /** Dividing by `256^k` drops the last `k` bytes. */
  lemma {:induction false} DropBytes(bytes: Bytes, k: nat)
    requires k <= |bytes|
    ensures BigEndian(bytes) / Pow256(k) == BigEndian(bytes[..|bytes| - k])
  {
    if k == 0 {
      assert bytes[..|bytes|] == bytes;
    } else {
      var front := bytes[..|bytes| - 1];
      DropBytes(front, k - 1);
      assert front[..|front| - (k - 1)] == bytes[..|bytes| - k];
      assert BigEndian(bytes) / 256 == BigEndian(front);
      DivProduct(BigEndian(bytes), 256, Pow256(k - 1));
    }
  }

  lemma BigEndianInjective(a: Bytes, b: Bytes)
    requires |a| == |b|
    ensures a == b <==> BigEndian(a) == BigEndian(b)
  {
    ToBigEndianRoundTrip(a);
    ToBigEndianRoundTrip(b);
  }

  lemma SplitQuotient(h: nat, b: nat, p: nat, d: nat)
    requires p > 0 && d > 0 && p * d == 256
    ensures (256 * h + b) / d == p * h + b / d
  {
    assert b == d * (b / d) + b % d;
    assert 256 * h == d * (p * h) by {
      assert p * d * h == d * (p * h);
    }
    assert d * (p * h + b / d) == d * (p * h) + d * (b / d);
    Remainder(256 * h + b, d, p * h + b / d, b % d);
  }

  /** The quotient that `SamePrefix` compares, in terms of whole bytes and the bits left over. */
  lemma PrefixQuotient(bytes: Bytes, full: nat, rest: nat)
    requires full < |bytes| && rest < 8
    ensures BigEndian(bytes) / Pow2(8 * |bytes| - (8 * full + rest))
         == Pow2(rest) * BigEndian(bytes[..full]) + bytes[full] / Pow2(8 - rest)
  {
    var k := |bytes| - full - 1;
    var d := Pow2(8 - rest);
    assert BigEndian(bytes) / Pow2(8 * k + (8 - rest)) == BigEndian(bytes[..full + 1]) / d by {
      Pow2Sum(8 * k, 8 - rest);
      Pow2Of8(k);
      DivProduct(BigEndian(bytes), Pow256(k), d);
      DropBytes(bytes, k);
    }
    assert Pow2(rest) * d == 256 by {
      Pow2Sum(rest, 8 - rest);
      Pow2Of8Bits();
    }
    assert bytes[..full + 1][..full] == bytes[..full];
    SplitQuotient(BigEndian(bytes[..full]), bytes[full], Pow2(rest), d);
  }

  lemma QuotientBound(x: nat, d: nat, p: nat)
    requires d > 0 && x < d * p
    ensures x / d < p
  {
    assert x == d * (x / d) + x % d;
  }

  lemma PairEquality(d: nat, q: nat, r: nat, q': nat, r': nat)
    requires r < d && r' < d
    ensures d * q + r == d * q' + r' <==> q == q' && r == r'
  {
    Remainder(d * q + r, d, q, r);
    Remainder(d * q' + r', d, q', r');
  }

  lemma PrefixNumbers(actual: Bytes, base: Bytes, full: nat, rest: nat)
    requires |actual| == |base| && rest < 8 && full < |actual|
    ensures SamePrefix(actual, base, 8 * full + rest) <==>
              Pow2(rest) * BigEndian(actual[..full]) + actual[full] / Pow2(8 - rest)
              == Pow2(rest) * BigEndian(base[..full]) + base[full] / Pow2(8 - rest)
  {
    PrefixQuotient(actual, full, rest);
    PrefixQuotient(base, full, rest);
  }

  lemma WholeAddress(actual: Bytes, base: Bytes)
    requires |actual| == |base|
    ensures SamePrefix(actual, base, 8 * |actual|) <==> actual == base
  {
    assert Pow2(8 * |actual| - 8 * |actual|) == 1;
    BigEndianInjective(actual, base);
  }

  lemma PartialAddress(actual: Bytes, base: Bytes, full: nat, rest: nat)
    requires |actual| == |base| && rest < 8 && full < |actual|
    ensures SamePrefix(actual, base, 8 * full + rest) <==>
              actual[..full] == base[..full] && actual[full] / Pow2(8 - rest) == base[full] / Pow2(8 - rest)
  {
    hide Pow2, BigEndian, SamePrefix, And, Mask;
    PrefixNumbers(actual, base, full, rest);
    NextByte(actual[full], base[full], rest);
    PairEquality(Pow2(rest), BigEndian(actual[..full]), ByteOver(actual[full], Pow2(8 - rest)),
                 BigEndian(base[..full]), ByteOver(base[full], Pow2(8 - rest)));
    BigEndianInjective(actual[..full], base[..full]);
  }

  function ByteOver(x: Byte, d: nat): nat
    requires d > 0
  {
    x / d
  }

  /** Prefixes agree exactly when the whole bytes agree and so do the masked next bytes. */
  lemma PrefixByBytes(actual: Bytes, base: Bytes, full: nat, rest: nat)
    requires |actual| == |base| && rest < 8 && 8 * full + rest <= 8 * |actual|
    ensures SamePrefix(actual, base, 8 * full + rest) <==>
              actual[..full] == base[..full]
              && (rest > 0 ==> And(actual[full], Mask(rest)) == And(base[full], Mask(rest)))
  {
    if full == |actual| {
      assert actual[..full] == actual && base[..full] == base;
      WholeAddress(actual, base);
    } else {
      PartialAddress(actual, base, full, rest);
      NextByte(actual[full], base[full], rest);
    }
  }

  lemma NextByte(x: Byte, y: Byte, rest: nat)
    requires rest < 8
    ensures x / Pow2(8 - rest) < Pow2(rest) && y / Pow2(8 - rest) < Pow2(rest)
    ensures x / Pow2(8 - rest) == y / Pow2(8 - rest) <==> (rest > 0 ==> And(x, Mask(rest)) == And(y, Mask(rest)))
  {
    assert Pow2(8 - rest) * Pow2(rest) == 256 by { Pow2Sum(8 - rest, rest); Pow2Of8Bits(); }
    QuotientBound(x, Pow2(8 - rest), Pow2(rest));
    QuotientBound(y, Pow2(8 - rest), Pow2(rest));
    if rest > 0 { MaskKeepsHighBits(x, y, rest); }
  }

  /** The source's byte-and-mask loop decides exactly the numeric prefix test. */
  method InBlock(actual: Bytes, base: Bytes, bits: nat) returns (inside: bool)
    requires |actual| == |base| && bits <= 8 * |actual|
    ensures inside <==> SamePrefix(actual, base, bits)
  {
    var fullBytes := bits / 8;
    var restBits := bits % 8;
    PrefixByBytes(actual, base, fullBytes, restBits);
    var i := 0;
    while i < fullBytes
      invariant 0 <= i <= fullBytes && actual[..i] == base[..i]
    {
      if actual[i] != base[i] {
        assert actual[..fullBytes][i] != base[..fullBytes][i];
        return false;
      }
      i := i + 1;
    }
    if restBits > 0 {
      var mask := Mask(restBits);
      if And(actual[fullBytes], mask) != And(base[fullBytes], mask) { return false; }
    }
    inside := true;
  }
}
