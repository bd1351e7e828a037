/** Strings seen as byte strings (one `char` a byte): searching, splitting, and printing numbers. */
module Text {
  import opened Common

  predicate IsDigit(c: char) {
    '0' <= c <= '9'
  }

  predicate AllDigits(s: string) {
    forall k | 0 <= k < |s| :: IsDigit(s[k])
  }

  function DigitValue(c: char): (d: nat)
    requires IsDigit(c)
    ensures d < 10
  {
    c as nat - '0' as nat
  }

  function DigitChar(d: nat): (c: char)
    requires d < 10
    ensures IsDigit(c) && DigitValue(c) == d
  {
    ('0' as nat + d) as char
  }

  /** The number a run of decimal digits denotes, leading zeros allowed. */
  function DecimalValue(s: string): (n: nat)
    requires AllDigits(s)
  {
    if s == "" then 0 else 10 * DecimalValue(s[..|s| - 1]) + DigitValue(s[|s| - 1])
  }

  /** `std::to_string` and `%u`: no leading zero. */
  function Decimal(n: nat): (s: string)
    ensures s != "" && AllDigits(s)
  {
    if n < 10 then [DigitChar(n)] else Decimal(n / 10) + [DigitChar(n % 10)]
  }

  lemma {:induction false} DecimalRoundTrip(n: nat)
    ensures DecimalValue(Decimal(n)) == n
  {
    if n < 10 {
      assert Decimal(n)[..0] == "";
    } else {
      DecimalRoundTrip(n / 10);
      assert Decimal(n)[..|Decimal(n)| - 1] == Decimal(n / 10);
    }
  }

  function Pow10(k: nat): (p: nat)
    ensures p > 0
  {
    if k == 0 then 1 else 10 * Pow10(k - 1)
  }

  lemma {:induction false} DecimalWidth(n: nat, width: nat)
    requires width >= 1 && n < Pow10(width)
    ensures |Decimal(n)| <= width
  {
    if n >= 10 {
      DecimalWidth(n / 10, width - 1);
    }
  }

  // ----- hexadecimal ---------------------------------------------------------

  predicate IsHex(c: char) {
    '0' <= c <= '9' || 'a' <= c <= 'f' || 'A' <= c <= 'F'
  }

  predicate AllHex(s: string) {
    forall k | 0 <= k < |s| :: IsHex(s[k])
  }

  function HexDigit(c: char): (d: nat)
    requires IsHex(c)
    ensures d < 16
  {
    if '0' <= c <= '9' then c as nat - '0' as nat
    else if 'a' <= c <= 'f' then c as nat - 'a' as nat + 10
    else c as nat - 'A' as nat + 10
  }

  function HexChar(d: nat): (c: char)
    requires d < 16
    ensures IsHex(c) && HexDigit(c) == d && c != ':' && c != '.' && c != '%'
  {
    if d < 10 then ('0' as nat + d) as char else ('a' as nat + (d - 10)) as char
  }

  function HexValue(s: string): (n: nat)
    requires AllHex(s)
  {
    if s == "" then 0 else 16 * HexValue(s[..|s| - 1]) + HexDigit(s[|s| - 1])
  }

  /** `%x`: lower case, no leading zero. */
  function Hex(n: nat): (s: string)
    ensures s != "" && AllHex(s)
  {
    if n < 16 then [HexChar(n)] else Hex(n / 16) + [HexChar(n % 16)]
  }

  lemma {:induction false} HexRoundTrip(n: nat)
    ensures HexValue(Hex(n)) == n
  {
    if n < 16 {
      assert Hex(n)[..0] == "";
    } else {
      HexRoundTrip(n / 16);
      assert Hex(n)[..|Hex(n)| - 1] == Hex(n / 16);
    }
  }

  function Pow16(k: nat): (p: nat)
    ensures p > 0
  {
    if k == 0 then 1 else 16 * Pow16(k - 1)
  }

  lemma {:induction false} HexWidth(n: nat, width: nat)
    requires width >= 1 && n < Pow16(width)
    ensures |Hex(n)| <= width
  {
    if n >= 16 {
      HexWidth(n / 16, width - 1);
    }
  }

  lemma {:induction false} HexValueBound(s: string)
    requires AllHex(s) && |s| <= 4
    ensures HexValue(s) < 0x10000
  {
    var s3 := if |s| > 0 then s[..|s| - 1] else "";
    var s2 := if |s3| > 0 then s3[..|s3| - 1] else "";
    var s1 := if |s2| > 0 then s2[..|s2| - 1] else "";
    assert |s1| <= 1;
    assert HexValue(s1) < 16;
    assert HexValue(s2) < 256;
    assert HexValue(s3) < 4096;
  }

  // ----- searching -----------------------------------------------------------

  /** `find(c, from)`: the first position at or after `from`, or the length when there is none. */
  function FindChar(s: string, c: char, from: nat): (p: nat)
    requires from <= |s|
    ensures from <= p <= |s|
    ensures p < |s| ==> s[p] == c
    ensures forall k | from <= k < p :: s[k] != c
    decreases |s| - from
  {
    if from == |s| || s[from] == c then from else FindChar(s, c, from + 1)
  }

  /** `rfind(c)` over the first `upto` characters; `None` when there is none. */
  function RFindChar(s: string, c: char, upto: nat): (p: Option<nat>)
    requires upto <= |s|
    ensures p.Some? ==> p.value < upto && s[p.value] == c && forall k | p.value < k < upto :: s[k] != c
    ensures p.None? ==> forall k | 0 <= k < upto :: s[k] != c
  {
    if upto == 0 then None else if s[upto - 1] == c then Some(upto - 1) else RFindChar(s, c, upto - 1)
  }

  /** Whether a doubled character starts at `k`. */
  predicate DoubleAt(s: string, c: char, k: nat) {
    k + 1 < |s| && s[k] == c && s[k + 1] == c
  }

  /** `find("cc", from)`: the first position of a doubled character, or `None`. */
  function FindDouble(s: string, c: char, from: nat): (p: Option<nat>)
    ensures p.Some? ==> from <= p.value && DoubleAt(s, c, p.value)
    ensures p.Some? ==> forall k | from <= k < p.value :: !DoubleAt(s, c, k)
    ensures p.None? ==> forall k | from <= k :: !DoubleAt(s, c, k)
    decreases |s| - from
  {
    if from + 1 >= |s| then None
    else if DoubleAt(s, c, from) then Some(from)
    else FindDouble(s, c, from + 1)
  }

  // ----- splitting and joining -----------------------------------------------

  /** The pieces between separators: always one more piece than there are separators. */
  function Split(s: string, sep: char): (parts: seq<string>)
    ensures |parts| >= 1
  {
    if s == "" then [""]
    else
      var rest := Split(s[1..], sep);
      if s[0] == sep then [""] + rest else [[s[0]] + rest[0]] + rest[1..]
  }

  function Join(parts: seq<string>, sep: char): (s: string) {
    if parts == [] then ""
    else if |parts| == 1 then parts[0]
    else parts[0] + [sep] + Join(parts[1..], sep)
  }

  lemma {:induction false} SplitPiece(a: string, sep: char)
    requires sep !in a
    ensures Split(a, sep) == [a]
  {
    if a != "" {
      assert sep !in a[1..];
      SplitPiece(a[1..], sep);
      assert [a[0]] + a[1..] == a;
    }
  }

  lemma {:induction false} SplitAt(a: string, sep: char, b: string)
    requires sep !in a
    ensures Split(a + [sep] + b, sep) == [a] + Split(b, sep)
  {
    var s := a + [sep] + b;
    if a == "" {
      assert s[1..] == b;
    } else {
      assert sep !in a[1..];
      SplitAt(a[1..], sep, b);
      assert s[1..] == a[1..] + [sep] + b;
      assert [a[0]] + a[1..] == a;
    }
  }

  lemma {:induction false} SplitJoin(parts: seq<string>, sep: char)
    requires parts != [] && forall k | 0 <= k < |parts| :: sep !in parts[k]
    ensures Split(Join(parts, sep), sep) == parts
  {
    if |parts| == 1 {
      SplitPiece(parts[0], sep);
    } else {
      SplitJoin(parts[1..], sep);
      SplitAt(parts[0], sep, Join(parts[1..], sep));
      assert parts == [parts[0]] + parts[1..];
    }
  }

  lemma {:induction false} JoinSplit(s: string, sep: char)
    ensures Join(Split(s, sep), sep) == s
    ensures forall k | 0 <= k < |Split(s, sep)| :: sep !in Split(s, sep)[k]
  {
    if s != "" {
      JoinSplit(s[1..], sep);
      var rest := Split(s[1..], sep);
      var all := Split(s, sep);
      if s[0] == sep {
        assert all[1..] == rest;
        assert s == [sep] + s[1..];
      } else {
        assert all[1..] == rest[1..];
        assert s == [s[0]] + s[1..];
      }
    }
  }
}
