/** Vocabulary shared by every module: optional values, bytes and byte order. */
module Common {

  datatype Option<+T> = None | Some(value: T)

  /** `uint8_t` */
  type Byte = n: int | 0 <= n < 256
  type Bytes = seq<Byte>

  const WORD32 := 0x1_0000_0000

  /** `uint32_t` */
  type Word = n: int | 0 <= n < WORD32

  /** `static_cast<uint8_t>`: the low eight bits. */
  function ByteOf(n: nat): (b: Byte)
    ensures n < 256 ==> b == n
  {
    n % 256
  }

  /** Bytes as a string, one `char` a byte. */
  function AsText(bytes: Bytes): (s: string)
    ensures |s| == |bytes|
  {
    seq(|bytes|, k requires 0 <= k < |bytes| => bytes[k] as char)
  }

  function Pow2(n: nat): (p: nat)
    ensures p > 0
  {
    if n == 0 then 1 else 2 * Pow2(n - 1)
  }

  /** Bitwise `x & y` on the low `width` bits. */
  function AndBits(x: nat, y: nat, width: nat): (r: nat)
    ensures r < Pow2(width)
  {
    if width == 0 then 0 else 2 * AndBits(x / 2, y / 2, width - 1) + (if x % 2 == 1 && y % 2 == 1 then 1 else 0)
  }

  /** Bitwise `x | y` on the low `width` bits. */
  function OrBits(x: nat, y: nat, width: nat): (r: nat)
    ensures r < Pow2(width)
  {
    if width == 0 then 0 else 2 * OrBits(x / 2, y / 2, width - 1) + (if x % 2 == 1 || y % 2 == 1 then 1 else 0)
  }

  /** Bitwise `x ^ y` on the low `width` bits. */
  function XorBits(x: nat, y: nat, width: nat): (r: nat)
    ensures r < Pow2(width)
  {
    if width == 0 then 0 else 2 * XorBits(x / 2, y / 2, width - 1) + (if x % 2 == y % 2 then 0 else 1)
  }

  lemma Pow2Of8Bits()
    ensures Pow2(8) == 256
  {
    assert Pow2(4) == 16;
  }

  function And(x: Byte, y: Byte): Byte {
    Pow2Of8Bits();
    AndBits(x, y, 8)
  }

  function Xor(x: Byte, y: Byte): Byte {
    Pow2Of8Bits();
    XorBits(x, y, 8)
  }

  lemma {:induction false} XorBitsTwice(x: nat, y: nat, width: nat)
    requires x < Pow2(width)
    ensures XorBits(XorBits(x, y, width), y, width) == x
  {
    if width > 0 {
      XorBitsTwice(x / 2, y / 2, width - 1);
      var r := XorBits(x, y, width);
      assert r / 2 == XorBits(x / 2, y / 2, width - 1);
      assert r % 2 == if x % 2 == y % 2 then 0 else 1;
    }
  }

  /** Masking twice with the same byte restores the original. */
  lemma XorTwice(x: Byte, y: Byte)
    ensures Xor(Xor(x, y), y) == x
  {
    Pow2Of8Bits();
    XorBitsTwice(x, y, 8);
  }

  /** The number a big-endian run of bytes stands for. */
  function BigEndian(bytes: Bytes): (n: nat) {
    if bytes == [] then 0 else 256 * BigEndian(bytes[..|bytes| - 1]) + bytes[|bytes| - 1]
  }

  /** `width` bytes holding the low `8 * width` bits of `n`, most significant first. */
  function ToBigEndian(n: nat, width: nat): (bytes: Bytes)
    ensures |bytes| == width
  {
    if width == 0 then [] else ToBigEndian(n / 256, width - 1) + [ByteOf(n)]
  }

  function Pow256(width: nat): (p: nat)
    ensures p > 0
  {
    if width == 0 then 1 else 256 * Pow256(width - 1)
  }

  lemma Pow256Of8()
    ensures Pow256(8) == 0x1_0000_0000_0000_0000
  {
    assert Pow256(4) == 0x1_0000_0000;
    assert Pow256(6) == 0x1_0000_0000_0000;
  }

  /** Printing a number in `width` bytes and reading it back gives the number, when it fits. */
  lemma {:induction false} BigEndianRoundTrip(n: nat, width: nat)
    requires n < Pow256(width)
    ensures BigEndian(ToBigEndian(n, width)) == n
  {
    if width > 0 {
      BigEndianRoundTrip(n / 256, width - 1);
      assert ToBigEndian(n, width)[..width - 1] == ToBigEndian(n / 256, width - 1);
    }
  }

  /** Reading bytes and printing the number again gives the bytes. */
  lemma {:induction false} ToBigEndianRoundTrip(bytes: Bytes)
    ensures BigEndian(bytes) < Pow256(|bytes|)
    ensures ToBigEndian(BigEndian(bytes), |bytes|) == bytes
  {
    if bytes != [] {
      var front, last := bytes[..|bytes| - 1], bytes[|bytes| - 1];
      ToBigEndianRoundTrip(front);
      assert BigEndian(bytes) / 256 == BigEndian(front);
      assert front + [last] == bytes;
    }
  }

  /** Pieces put together again. */
  function Flat(chunks: seq<Bytes>): Bytes {
    if chunks == [] then [] else chunks[0] + Flat(chunks[1..])
  }

  /** No element stands twice. */
  predicate Distinct<T(==)>(s: seq<T>) {
    forall j, k | 0 <= j < k < |s| :: s[j] != s[k]
  }

  lemma SubsetSize<T>(a: set<T>, b: set<T>)
    requires a <= b
    ensures |a| <= |b|
  {
    assert b == a + (b - a);
  }

  lemma ConcatAssoc<T>(a: seq<T>, b: seq<T>, c: seq<T>)
    ensures (a + b) + c == a + (b + c)
  {
  }

  lemma TakeDrop<T>(a: seq<T>, b: seq<T>, n: nat)
    requires n <= |a|
    ensures (a + b)[..n] == a[..n] && (a + b)[n..] == a[n..] + b
  {
  }

  // ----- division --------------------------------------------------------------------

  lemma Remainder(x: nat, d: nat, q: nat, r: nat)
    requires d > 0 && r < d && x == d * q + r
    ensures x / d == q && x % d == r
  {
    var gap := x / d - q;
    assert d * gap == d * (x / d) - d * q;
    assert d * gap == r - x % d;
  }

  lemma MulAssoc(a: int, b: int, c: int)
    ensures (a * b) * c == a * (b * c)
  {
  }

  lemma MulBelow(a: nat, s: nat, t: nat, b: nat)
    requires t < a && s < b
    ensures a * s + t < a * b
  {
    assert a * s + a == a * (s + 1);
    MulOrder(a, s + 1, b);
  }

  lemma MulOrder(a: nat, x: nat, y: nat)
    requires x <= y
    ensures a * x <= a * y
  {
  }

  lemma MulSum(a: int, x: int, y: int)
    ensures a * (x + y) == a * x + a * y
  {
  }

  /** Dividing twice is dividing by the product. */
  lemma DivProduct(x: nat, a: nat, b: nat)
    requires a > 0 && b > 0
    ensures a * b > 0 && x / (a * b) == x / a / b
  {
    var y, t := x / a, x % a;
    var q, s := y / b, y % b;
    TwoStep(x, a, b, y, t, q, s);
    Remainder(x, a * b, q, a * s + t);
  }

  lemma TwoStep(x: nat, a: nat, b: nat, y: nat, t: nat, q: nat, s: nat)
    requires x == a * y + t && t < a && y == b * q + s && s < b
    ensures x == a * b * q + (a * s + t) && a * s + t < a * b
  {
    MulSum(a, b * q, s);
    MulAssoc(a, b, q);
    MulBelow(a, s, t, b);
  }

  lemma {:induction false} Pow2Sum(a: nat, b: nat)
    ensures Pow2(a + b) == Pow2(a) * Pow2(b)
  {
    if a > 0 {
      Pow2Sum(a - 1, b);
      MulAssoc(2, Pow2(a - 1), Pow2(b));
    }
  }

  /** The bytes of a big-endian number, by shifting. */
  lemma {:induction false} ToBigEndianAt(n: nat, width: nat, k: nat)
    requires k < width
    ensures ToBigEndian(n, width)[k] == ByteOf(n / Pow256(width - 1 - k))
  {
    if k < width - 1 {
      ToBigEndianAt(n / 256, width - 1, k);
      DivProduct(n, 256, Pow256(width - 2 - k));
    }
  }
}
