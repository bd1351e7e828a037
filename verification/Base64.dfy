/** Base64 (section 4 of RFC 4648) as src/common/base64.cpp encodes and decodes it, and the handshake's accept key. */
module Base64 {
  import opened Common
  import Sha1

  /** Six bits. */
  type Sextet = n: int | 0 <= n < 64

  function Symbol(v: Sextet): char {
    if v < 26 then ('A' as int + v) as char
    else if v < 52 then ('a' as int + (v - 26)) as char
    else if v < 62 then ('0' as int + (v - 52)) as char
    else if v == 62 then '+'
    else '/'
  }

  /** `decodeChar`, with None for its -1. */
  function Value(c: char): Option<Sextet> {
    if 'A' <= c <= 'Z' then Some(c as int - 'A' as int)
    else if 'a' <= c <= 'z' then Some(c as int - 'a' as int + 26)
    else if '0' <= c <= '9' then Some(c as int - '0' as int + 52)
    else if c == '+' then Some(62)
    else if c == '/' then Some(63)
    else None
  }

  lemma SymbolValue(v: Sextet)
    ensures Value(Symbol(v)) == Some(v) && Symbol(v) != '=' && !Skipped(Symbol(v))
  {
  }

  predicate Skipped(c: char) {
    c == '\r' || c == '\n' || c == ' '
  }

  // ----- bytes and sextets ------------------------------------------------------------------

  /** Three bytes as four sextets. */
  function Four(x: Byte, y: Byte, z: Byte): seq<Sextet> {
    [x / 4, x % 4 * 16 + y / 16, y % 16 * 4 + z / 64, z % 64]
  }

  /** The sextets of a byte string, the last one filled up with zero bits. */
  function Sextets(data: Bytes): seq<Sextet>
    decreases |data|
  {
    if |data| == 0 then []
    else if |data| == 1 then [data[0] / 4, data[0] % 4 * 16]
    else if |data| == 2 then [data[0] / 4, data[0] % 4 * 16 + data[1] / 16, data[1] % 16 * 4]
    else Four(data[0], data[1], data[2]) + Sextets(data[3..])
  }

  function Padding(data: Bytes): string {
    if |data| % 3 == 0 then "" else if |data| % 3 == 1 then "==" else "="
  }

  function Symbols(ss: seq<Sextet>): (s: string)
    ensures |s| == |ss|
  {
    seq(|ss|, k requires 0 <= k < |ss| => Symbol(ss[k]))
  }

  function Encode(data: Bytes): string {
    Symbols(Sextets(data)) + Padding(data)
  }

  /** The byte that the last of `ss` completes, if it completes one. */
  function Completes(ss: seq<Sextet>, v: Sextet): Bytes {
    var n := |ss|;
    if n % 4 == 0 then []
    else if n % 4 == 1 then [ss[n - 1] * 4 + v / 16]
    else if n % 4 == 2 then [ss[n - 1] % 16 * 16 + v / 4]
    else [ss[n - 1] % 4 * 64 + v]
  }

  /** The whole bytes in a run of sextets; bits that fill no byte are dropped. */
  function WholeBytes(ss: seq<Sextet>): Bytes {
    if ss == [] then [] else WholeBytes(ss[..|ss| - 1]) + Completes(ss[..|ss| - 1], ss[|ss| - 1])
  }

  lemma BytesSnoc(ss: seq<Sextet>, v: Sextet)
    ensures WholeBytes(ss + [v]) == WholeBytes(ss) + Completes(ss, v)
  {
    assert (ss + [v])[..|ss|] == ss;
  }

  lemma CompletesSuffix(a: seq<Sextet>, b: seq<Sextet>, v: Sextet)
    requires |a| % 4 == 0
    ensures Completes(a + b, v) == Completes(b, v)
  {
    assert |a + b| % 4 == |b| % 4;
    if b != [] { assert (a + b)[|a + b| - 1] == b[|b| - 1]; }
  }

  /** Whole groups in front stay as they are. */
  lemma {:induction false} BytesConcat(a: seq<Sextet>, b: seq<Sextet>)
    requires |a| % 4 == 0
    ensures WholeBytes(a + b) == WholeBytes(a) + WholeBytes(b)
    decreases |b|
  {
    hide Completes, WholeBytes;
    NoBytes();
    if b == [] {
      assert a + b == a;
    } else {
      var front, last := b[..|b| - 1], b[|b| - 1];
      BytesConcat(a, front);
      assert a + b == a + front + [last] && b == front + [last];
      BytesSnoc(a + front, last);
      BytesSnoc(front, last);
      CompletesSuffix(a, front, last);
      ConcatAssoc(WholeBytes(a), WholeBytes(front), Completes(front, last));
    }
  }

  lemma NoBytes()
    ensures WholeBytes([]) == [] && forall a: Bytes :: a + [] == a
  {
  }

  /** Splitting into sixes and joining into eights. */
  lemma SixesAndEights(x: Byte, y: Byte, z: Byte)
    ensures (x / 4) * 4 + (x % 4 * 16 + y / 16) / 16 == x
    ensures (x % 4 * 16 + y / 16) % 16 * 16 + (y % 16 * 4 + z / 64) / 4 == y
    ensures (y % 16 * 4 + z / 64) % 4 * 64 + z % 64 == z
  {
    assert (x % 4 * 16 + y / 16) / 16 == x % 4 && (x % 4 * 16 + y / 16) % 16 == y / 16;
    assert (y % 16 * 4 + z / 64) / 4 == y % 16 && (y % 16 * 4 + z / 64) % 4 == z / 64;
  }

  lemma PairBytes(s0: Sextet, s1: Sextet)
    ensures WholeBytes([s0, s1]) == [s0 * 4 + s1 / 16]
  {
    BytesSnoc([], s0);
    BytesSnoc([s0], s1);
    assert [] + [s0] == [s0] && [s0] + [s1] == [s0, s1] && WholeBytes([]) == [];
  }

  lemma TripleBytes(s0: Sextet, s1: Sextet, s2: Sextet)
    ensures WholeBytes([s0, s1, s2]) == [s0 * 4 + s1 / 16, s1 % 16 * 16 + s2 / 4]
  {
    PairBytes(s0, s1);
    BytesSnoc([s0, s1], s2);
    assert [s0, s1] + [s2] == [s0, s1, s2];
  }

  lemma FourBytes(x: Byte, y: Byte, z: Byte)
    ensures WholeBytes(Four(x, y, z)) == [x, y, z]
  {
    var f := Four(x, y, z);
    hide WholeBytes;
    TripleBytes(f[0], f[1], f[2]);
    BytesSnoc([f[0], f[1], f[2]], f[3]);
    assert [f[0], f[1], f[2]] + [f[3]] == f;
    SixesAndEights(x, y, z);
  }

  /** The sextets of a byte string give its bytes back. */
  lemma {:induction false} SextetsRoundTrip(data: Bytes)
    ensures WholeBytes(Sextets(data)) == data
    decreases |data|
  {
    hide Four, Completes;
    if |data| >= 3 {
      hide WholeBytes;
      SextetsRoundTrip(data[3..]);
      FourLength(data[0], data[1], data[2]);
      FourBytes(data[0], data[1], data[2]);
      BytesConcat(Four(data[0], data[1], data[2]), Sextets(data[3..]));
      assert data == [data[0], data[1], data[2]] + data[3..];
    } else if |data| == 2 {
      TripleBytes(data[0] / 4, data[0] % 4 * 16 + data[1] / 16, data[1] % 16 * 4);
      SixesAndEights(data[0], data[1], 0);
    } else if |data| == 1 {
      PairBytes(data[0] / 4, data[0] % 4 * 16);
      SixesAndEights(data[0], 0, 0);
    }
  }

  lemma FourLength(x: Byte, y: Byte, z: Byte)
    ensures |Four(x, y, z)| == 4
  {
  }

  // ----- decoding ------------------------------------------------------------------------------

  /** The sextets before the first `=`, white space left out; None at any other character. */
  function ReadSextets(s: string): Option<seq<Sextet>>
    decreases |s|
  {
    if s == "" || s[0] == '=' then Some([])
    else if Skipped(s[0]) then ReadSextets(s[1..])
    else
      var v, rest := Value(s[0]), ReadSextets(s[1..]);
      if v.None? || rest.None? then None else Some([v.value] + rest.value)
  }

  lemma {:induction false} ReadSymbols(ss: seq<Sextet>, tail: string)
    requires tail == "" || tail[0] == '='
    ensures ReadSextets(Symbols(ss) + tail) == Some(ss)
    decreases |ss|
  {
    var s := Symbols(ss) + tail;
    if ss == [] {
      assert s == tail;
    } else {
      SymbolValue(ss[0]);
      ReadSymbols(ss[1..], tail);
      assert s[1..] == Symbols(ss[1..]) + tail;
      assert [ss[0]] + ss[1..] == ss;
    }
  }

  /** Decoding an encoded byte string gives it back. */
  lemma RoundTrip(data: Bytes)
    ensures ReadSextets(Encode(data)) == Some(Sextets(data)) && WholeBytes(Sextets(data)) == data
  {
    ReadSymbols(Sextets(data), Padding(data));
    SextetsRoundTrip(data);
  }

  /** Four for every whole group, and one more than the bytes of a last partial one. */
  function SextetsFor(n: nat): nat {
    n / 3 * 4 + if n % 3 == 0 then 0 else n % 3 + 1
  }

  lemma OneGroupMore(n: nat)
    requires n >= 3
    ensures SextetsFor(n) == 4 + SextetsFor(n - 3)
  {
    assert n / 3 == (n - 3) / 3 + 1 && n % 3 == (n - 3) % 3;
  }

  lemma {:induction false} SextetCount(data: Bytes)
    ensures |Sextets(data)| == SextetsFor(|data|)
    decreases |data|
  {
    hide Four, SextetsFor;
    FewSextets();
    if |data| >= 3 {
      var rest := data[3..];
      SextetCount(rest);
      FourLength(data[0], data[1], data[2]);
      OneGroupMore(|data|);
    }
  }

  lemma FewSextets()
    ensures SextetsFor(0) == 0 && SextetsFor(1) == 2 && SextetsFor(2) == 3
  {
  }

  lemma WithPadding(n: nat)
    ensures SextetsFor(n) + (if n % 3 == 0 then 0 else 3 - n % 3) == (n + 2) / 3 * 4
  {
    if n % 3 == 0 {
      assert (n + 2) / 3 == n / 3;
    } else {
      assert (n + 2) / 3 == n / 3 + 1;
    }
  }

  /** An encoding is four symbols for every three bytes begun. */
  lemma EncodedLength(data: Bytes)
    ensures |Encode(data)| == (|data| + 2) / 3 * 4
  {
    hide Sextets, Symbol, SextetsFor;
    SextetCount(data);
    WithPadding(|data|);
  }

  // ----- the loops ---------------------------------------------------------------------------------

  /** The four symbols of three bytes. */
  method EncodeGroup(x: Byte, y: Byte, z: Byte) returns (out: string)
    ensures out == [Symbol(x / 4), Symbol(x % 4 * 16 + y / 16), Symbol(y % 16 * 4 + z / 64), Symbol(z % 64)]
  {
    hide Symbol;
    var n := 0x1_0000 * (x as int) + 0x100 * (y as int) + z;
    assert n == Join24(x, y, z);
    hide Join24;
    Split24(x, y, z);
    out := [Symbol(n / 0x4_0000 % 64), Symbol(n / 0x1000 % 64), Symbol(n / 0x40 % 64), Symbol(n % 64)];
  }

  /** `base64Encode` */
  method Base64Encode(data: Bytes) returns (out: string)
    ensures out == Encode(data)
  {
    hide Encode, Four, Symbol;
    out := "";
    var i := 0;
    assert data[0..] == data && "" + Encode(data) == Encode(data);
    while i + 3 <= |data|
      invariant i <= |data| && Encode(data) == out + Encode(data[i..])
      decreases |data| - i
    {
      GroupStep(data[i..]);
      assert data[i..][3..] == data[i + 3..];
      var group := EncodeGroup(data[i], data[i + 1], data[i + 2]);
      ConcatAssoc(out, group, Encode(data[i + 3..]));
      out := out + group;
      i := i + 3;
    }
    var rem := |data| - i;
    LastGroup(data[i..]);
    if rem == 1 {
      var group := EncodeGroup(data[i], 0, 0);
      out := out + (group[..2] + "==");
    } else if rem == 2 {
      var group := EncodeGroup(data[i], data[i + 1], 0);
      out := out + (group[..3] + "=");
    }
  }

  lemma LastGroup(rest: Bytes)
    requires |rest| < 3
    ensures |rest| == 0 ==> Encode(rest) == ""
    ensures |rest| == 1 ==> Encode(rest) == [Symbol(rest[0] / 4), Symbol(rest[0] % 4 * 16)] + "=="
    ensures |rest| == 2 ==>
              Encode(rest) == [Symbol(rest[0] / 4), Symbol(rest[0] % 4 * 16 + rest[1] / 16), Symbol(rest[1] % 16 * 4)] + "="
  {
    hide Symbol;
  }

  function Join24(x: Byte, y: Byte, z: Byte): nat {
    0x1_0000 * (x as int) + 0x100 * (y as int) + z
  }

  lemma FirstSix(x: Byte, y: Byte, z: Byte)
    ensures Join24(x, y, z) / 0x4_0000 % 64 == x / 4
  {
    Remainder(Join24(x, y, z), 0x4_0000, x / 4, 0x1_0000 * (x % 4) + 0x100 * (y as int) + z);
  }

  lemma SecondSix(x: Byte, y: Byte, z: Byte)
    ensures Join24(x, y, z) / 0x1000 % 64 == x % 4 * 16 + y / 16
  {
    Remainder(Join24(x, y, z), 0x1000, 16 * (x as int) + y / 16, 0x100 * (y % 16) + z);
    Add64(x % 4 * 16 + y / 16, x / 4);
  }

  lemma ThirdSix(x: Byte, y: Byte, z: Byte)
    ensures Join24(x, y, z) / 0x40 % 64 == y % 16 * 4 + z / 64
  {
    Remainder(Join24(x, y, z), 0x40, 1024 * (x as int) + 4 * (y as int) + z / 64, z % 64);
    Add64(y % 16 * 4 + z / 64, 16 * (x as int) + y / 16);
  }

  lemma FourthSix(x: Byte, y: Byte, z: Byte)
    ensures Join24(x, y, z) % 64 == z % 64
  {
    Add64(z, 1024 * (x as int) + 4 * (y as int));
  }

  /** The four sextets of a 24-bit number. */
  lemma Split24(x: Byte, y: Byte, z: Byte)
    ensures var n := Join24(x, y, z);
            && n / 0x4_0000 % 64 == x / 4
            && n / 0x1000 % 64 == x % 4 * 16 + y / 16
            && n / 0x40 % 64 == y % 16 * 4 + z / 64
            && n % 64 == z % 64
  {
    hide Join24;
    FirstSix(x, y, z);
    SecondSix(x, y, z);
    ThirdSix(x, y, z);
    FourthSix(x, y, z);
  }

  lemma SymbolsConcat(a: seq<Sextet>, b: seq<Sextet>)
    ensures Symbols(a + b) == Symbols(a) + Symbols(b)
  {
    hide Symbol;
  }

  lemma FourSymbols(f: seq<Sextet>)
    requires |f| == 4
    ensures Symbols(f) == [Symbol(f[0]), Symbol(f[1]), Symbol(f[2]), Symbol(f[3])]
  {
    hide Symbol;
  }

  lemma GroupStep(rest: Bytes)
    requires |rest| >= 3
    ensures Encode(rest)
         == [Symbol(rest[0] / 4), Symbol(rest[0] % 4 * 16 + rest[1] / 16), Symbol(rest[1] % 16 * 4 + rest[2] / 64),
             Symbol(rest[2] % 64)] + Encode(rest[3..])
  {
    hide Symbol, Symbols;
    var f := Four(rest[0], rest[1], rest[2]);
    SymbolsConcat(f, Sextets(rest[3..]));
    FourSymbols(f);
    assert Padding(rest) == Padding(rest[3..]);
    ConcatAssoc(Symbols(f), Symbols(Sextets(rest[3..])), Padding(rest));
  }

  /** A 32-bit `int` after an operation whose exact result is `x`. */
  function Wrap(x: int): int {
    (x + 0x8000_0000) % WORD32 - 0x8000_0000
  }

  /** Bits of the accumulator that belong to no byte yet. */
  function Left(ss: seq<Sextet>): nat {
    var n := |ss|;
    if n % 4 == 0 then 0 else if n % 4 == 1 then ss[n - 1] else if n % 4 == 2 then ss[n - 1] % 16 else ss[n - 1] % 4
  }

  function LeftBits(ss: seq<Sextet>): nat {
    if |ss| % 4 == 0 then 0 else if |ss| % 4 == 1 then 6 else if |ss| % 4 == 2 then 4 else 2
  }

  /** What the accumulator must agree with: only its low bits matter, however it has wrapped. */
  predicate Accumulates(buf: int, ss: seq<Sextet>) {
    match |ss| % 4
    case 0 => true
    case 1 => buf % 64 == Left(ss)
    case 2 => buf % 16 == Left(ss)
    case _ => buf % 4 == Left(ss)
  }

  lemma Add64(a: int, k: int)
    ensures (a + 64 * k) % 64 == a % 64 && (a + 64 * k) / 64 == a / 64 + k
  {
  }

  lemma Add16(a: int, k: int)
    ensures (a + 16 * k) % 16 == a % 16 && (a + 16 * k) / 16 == a / 16 + k
  {
  }

  lemma Add4(a: int, k: int)
    ensures (a + 4 * k) % 4 == a % 4 && (a + 4 * k) / 4 == a / 4 + k
  {
  }

  lemma Add256(a: int, k: int)
    ensures (a + 256 * k) % 256 == a % 256
  {
  }

  /** Wrapping does not touch the low 14 bits, so none of the bits that are ever read. */
  lemma WrapLow(x: int)
    ensures var b := Wrap(x);
            && b % 64 == x % 64 && b % 16 == x % 16 && b % 4 == x % 4
            && b / 16 % 256 == x / 16 % 256 && b / 4 % 256 == x / 4 % 256 && b % 256 == x % 256
  {
    var q := (x + 0x8000_0000) / WORD32;
    var b := Wrap(x);
    assert x == b + WORD32 * q;
    Add64(b, 0x400_0000 * q);
    Add16(b, 0x1000_0000 * q);
    Add4(b, 0x4000_0000 * q);
    Add256(b, 0x100_0000 * q);
    Add256(b / 16, 0x10_0000 * q);
    Add256(b / 4, 0x40_0000 * q);
  }

  /** The exact bits of a symbol behind a whole sextet, behind four bits, and behind two. */
  lemma AfterSix(buf: int, v: Sextet)
    ensures (buf * 64 + v) / 16 % 256 == buf % 64 * 4 + v / 16
  {
    var q, left := buf / 64, buf % 64;
    assert buf * 64 + v == v + 16 * (256 * q + 4 * left);
    Add16(v, 256 * q + 4 * left);
    Add256(v / 16 + 4 * left, q);
  }

  lemma AfterFour(buf: int, v: Sextet)
    ensures (buf * 64 + v) / 4 % 256 == buf % 16 * 16 + v / 4
  {
    var q, left := buf / 16, buf % 16;
    assert buf * 64 + v == v + 4 * (256 * q + 16 * left);
    Add4(v, 256 * q + 16 * left);
    Add256(v / 4 + 16 * left, q);
  }

  lemma AfterTwo(buf: int, v: Sextet)
    ensures (buf * 64 + v) % 256 == buf % 4 * 64 + v
  {
    var q, left := buf / 4, buf % 4;
    assert buf * 64 + v == 64 * left + v + 256 * q;
    Add256(64 * left + v, q);
  }

  lemma LowSix(buf: int, v: Sextet)
    ensures var x := buf * 64 + v; x % 64 == v && x % 16 == v % 16 && x % 4 == v % 4
  {
    Add64(v, buf);
    Add16(v, 4 * buf);
    Add4(v, 16 * buf);
  }

  /** One symbol into the accumulator, and the byte it completes. */
  lemma AccumulateStep(buf: int, ss: seq<Sextet>, v: Sextet)
    requires Accumulates(buf, ss)
    ensures var b := Wrap(buf * 64 + v);
            && Accumulates(b, ss + [v])
            && (|ss| % 4 == 1 ==> [b / 16 % 256] == Completes(ss, v))
            && (|ss| % 4 == 2 ==> [b / 4 % 256] == Completes(ss, v))
            && (|ss| % 4 == 3 ==> [b % 256] == Completes(ss, v))
  {
    StillAccumulates(buf, ss, v);
    CompletesByte(buf, ss, v);
  }

  lemma StillAccumulates(buf: int, ss: seq<Sextet>, v: Sextet)
    ensures Accumulates(Wrap(buf * 64 + v), ss + [v])
  {
    hide Wrap;
    WrapLow(buf * 64 + v);
    LowSix(buf, v);
    assert |ss + [v]| == |ss| + 1 && (ss + [v])[|ss|] == v;
  }

  lemma CompletesByte(buf: int, ss: seq<Sextet>, v: Sextet)
    requires Accumulates(buf, ss)
    ensures var b := Wrap(buf * 64 + v);
            && (|ss| % 4 == 1 ==> [b / 16 % 256] == Completes(ss, v))
            && (|ss| % 4 == 2 ==> [b / 4 % 256] == Completes(ss, v))
            && (|ss| % 4 == 3 ==> [b % 256] == Completes(ss, v))
  {
    hide Wrap;
    WrapLow(buf * 64 + v);
    if |ss| % 4 == 1 {
      AfterSix(buf, v);
    } else if |ss| % 4 == 2 {
      AfterFour(buf, v);
    } else if |ss| % 4 == 3 {
      AfterTwo(buf, v);
    }
  }

  /** Sextets read so far, then those of the rest. */
  function Then(read: seq<Sextet>, rest: Option<seq<Sextet>>): Option<seq<Sextet>> {
    match rest case None => None case Some(more) => Some(read + more)
  }

  lemma ThenStart(s: string)
    ensures ReadSextets(s) == Then([], ReadSextets(s[0..]))
  {
    assert s[0..] == s;
    if ReadSextets(s).Some? { assert [] + ReadSextets(s).value == ReadSextets(s).value; }
  }

  /** One character read. */
  lemma ThenStep(read: seq<Sextet>, s: string, i: nat)
    requires i < |s|
    ensures var c, now := s[i], Then(read, ReadSextets(s[i..]));
            if c == '=' then now == Some(read)
            else if Skipped(c) then now == Then(read, ReadSextets(s[i + 1..]))
            else if Value(c).None? then now == None
            else now == Then(read + [Value(c).value], ReadSextets(s[i + 1..]))
  {
    var c := s[i];
    assert s[i..][0] == c && s[i..][1..] == s[i + 1..];
    var rest := ReadSextets(s[i + 1..]);
    if c == '=' {
      assert read + [] == read;
    } else if !Skipped(c) && Value(c).Some? && rest.Some? {
      ConcatAssoc(read, [Value(c).value], rest.value);
    }
  }

  /** `base64Decode`: on success the output grows by the whole bytes of the sextets read. */
  method Base64Decode(s: string) returns (ok: bool, out: Bytes)
    ensures ok <==> ReadSextets(s).Some?
    ensures ok ==> out == WholeBytes(ReadSextets(s).value)
  {
    hide Wrap, Value, WholeBytes, Skipped, ReadSextets, Then, LeftBits, Accumulates, Completes, LowByte;
    out := [];
    var buf: int, bits := 0, 0;
    ghost var read: seq<Sextet> := [];
    ThenStart(s);
    EmptyReads();
    var i := 0;
    while i < |s|
      invariant i <= |s| && bits == LeftBits(read) && Accumulates(buf, read) && out == WholeBytes(read)
      invariant ReadSextets(s) == Then(read, ReadSextets(s[i..]))
    {
      var c := s[i];
      ThenStep(read, s, i);
      if c == '=' { return true, out; }
      i := i + 1;
      if Skipped(c) { continue; }
      var v := Value(c);
      if v.None? { return false, out; }
      SymbolStep(buf, bits, read, v.value);
      BytesSnoc(read, v.value);
      buf := Wrap(buf * 64 + v.value);
      bits := bits + 6;
      if bits >= 8 {
        bits := bits - 8;
        out := out + [LowByte(buf, bits)];
      }
      read := read + [v.value];
    }
    AtEnd(read, s);
    ok := true;
  }

  /** `(buf >> bits) & 0xff` */
  function LowByte(buf: int, bits: nat): Byte {
    (if bits == 4 then buf / 16 else if bits == 2 then buf / 4 else buf) % 256
  }

  /** One symbol as the loop handles it: the bits left over, and the byte that goes out. */
  lemma SymbolStep(buf: int, bits: nat, ss: seq<Sextet>, v: Sextet)
    requires Accumulates(buf, ss) && bits == LeftBits(ss)
    ensures var b := Wrap(buf * 64 + v);
            && Accumulates(b, ss + [v])
            && LeftBits(ss + [v]) == (if bits + 6 >= 8 then bits + 6 - 8 else bits + 6)
            && Completes(ss, v) == (if bits + 6 >= 8 then [LowByte(b, bits + 6 - 8)] else [])
    ensures forall a: Bytes :: a + [] == a
  {
    hide Wrap, Accumulates;
    AccumulateStep(buf, ss, v);
  }

  lemma EmptyReads()
    ensures WholeBytes([]) == [] && LeftBits([]) == 0 && Accumulates(0, [])
  {
  }

  lemma AtEnd(read: seq<Sextet>, s: string)
    ensures Then(read, ReadSextets(s[|s|..])) == Some(read)
  {
    assert s[|s|..] == "" && read + [] == read;
  }

  /** Encoding and decoding compose to the identity. */
  method EncodeThenDecode(data: Bytes) returns (ok: bool, back: Bytes)
    ensures ok && back == data
  {
    var s := Base64Encode(data);
    RoundTrip(data);
    ok, back := Base64Decode(s);
  }

  // ----- the accept key -------------------------------------------------------------------------------

  /** Section 1.3 of RFC 6455. */
  const GUID := "258EAFA5-E914-47DA-95CA-C5AB0DC85B11"

  function TextBytes(s: string): (b: Bytes)
    ensures |b| == |s|
  {
    seq(|s|, k requires 0 <= k < |s| => s[k] as int % 256)
  }

  /** `acceptKey`: the encoded hash of the key and the GUID, 28 symbols long. */
  method AcceptKey(clientKey: string) returns (accept: string)
    requires |clientKey| < 0x1000_0000_0000_0000
    ensures accept == Encode(Sha1.Hash(TextBytes(clientKey + "258EAFA5-E914-47DA-95CA-C5AB0DC85B11")))
    ensures |accept| == 28
  {
    hide Sha1.Hash, Encode, TextBytes;
    var text := TextBytes(clientKey + GUID);
    var digest := Sha1.HashOf(text);
    EncodedLength(digest);
    accept := Base64Encode(digest);
  }
}
