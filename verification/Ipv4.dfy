/** Dotted-quad IPv4 text and the CIDR prefix test of src/common/ssrf.cpp. */
module Ipv4 {
  import opened Common
  import opened Text

  /** One to three decimal digits worth at most 255; leading zeros are accepted. */
  predicate IsOctet(p: string) {
    1 <= |p| <= 3 && AllDigits(p) && DecimalValue(p) <= 255
  }

  /** The values of exactly `n` octets, or `None`. */
  function Octets(parts: seq<string>, n: nat): (r: Option<Bytes>)
    ensures r.Some? ==> |r.value| == n
  {
    if n == 0 then (if parts == [] then Some([]) else None)
    else if parts == [] || !IsOctet(parts[0]) then None
    else Prepend([DecimalValue(parts[0])], Octets(parts[1..], n - 1))
  }

  function Prepend(front: Bytes, r: Option<Bytes>): Option<Bytes> {
    if r.None? then None else Some(front + r.value)
  }

  /** The four bytes of a dotted quad, or `None` for any other text. */
  function Ipv4Bytes(s: string): (r: Option<Bytes>)
    ensures r.Some? ==> |r.value| == 4
  {
    Octets(Split(s, '.'), 4)
  }

  /** What `Octets` accepts, said without recursion. */
  lemma {:induction false} OctetsMeaning(parts: seq<string>, n: nat)
    ensures Octets(parts, n).Some? <==> |parts| == n && forall k | 0 <= k < n :: IsOctet(parts[k])
    ensures Octets(parts, n).Some? ==> forall k | 0 <= k < n :: Octets(parts, n).value[k] == DecimalValue(parts[k])
  {
    if n > 0 && parts != [] {
      OctetsMeaning(parts[1..], n - 1);
      assert forall k | 1 <= k < |parts| :: parts[k] == parts[1..][k - 1];
      if IsOctet(parts[0]) && Octets(parts[1..], n - 1).Some? {
        forall k | 1 <= k < |parts| ensures IsOctet(parts[k]) { assert parts[1..][k - 1] == parts[k]; }
      }
      if |parts| == n && (forall k | 0 <= k < n :: IsOctet(parts[k])) {
        forall k | 0 <= k < n - 1 ensures IsOctet(parts[1..][k]) {}
      }
    }
  }

  /** `%u.%u.%u.%u` */
  function Dotted(v4: Bytes): (s: string)
    requires |v4| == 4
  {
    Join([Decimal(v4[0]), Decimal(v4[1]), Decimal(v4[2]), Decimal(v4[3])], '.')
  }

  lemma DecimalOctet(b: Byte)
    ensures IsOctet(Decimal(b)) && DecimalValue(Decimal(b)) == b
    ensures '.' !in Decimal(b) && ':' !in Decimal(b)
  {
    DecimalRoundTrip(b);
    assert Pow10(1) == 10 && Pow10(2) == 100 && Pow10(3) == 1000;
    DecimalWidth(b, 3);
  }

  /** Printing four bytes and parsing the text again gives the bytes. */
  lemma DottedRoundTrip(v4: Bytes)
    requires |v4| == 4
    ensures Ipv4Bytes(Dotted(v4)) == Some(v4)
  {
    var a, b, c, d := Decimal(v4[0]), Decimal(v4[1]), Decimal(v4[2]), Decimal(v4[3]);
    DecimalOctet(v4[0]);
    DecimalOctet(v4[1]);
    DecimalOctet(v4[2]);
    DecimalOctet(v4[3]);
    SplitJoin([a, b, c, d], '.');
    assert Split(Dotted(v4), '.') == [a, b, c, d];
    OctetsMeaning([a, b, c, d], 4);
    assert Octets([a, b, c, d], 4).value == v4;
  }

  /** Where the first piece of a text ends, and what is left after it. */
  lemma SplitFirst(s: string, sep: char)
    ensures var p := FindChar(s, sep, 0);
            Split(s, sep) == [s[..p]] + (if p < |s| then Split(s[p + 1..], sep) else [])
  {
    var p := FindChar(s, sep, 0);
    if p < |s| {
      assert s == s[..p] + [sep] + s[p + 1..];
      SplitAt(s[..p], sep, s[p + 1..]);
    } else {
      assert s[..p] == s;
      SplitPiece(s, sep);
    }
  }

  lemma JoinFour(parts: seq<string>, sep: char)
    requires |parts| == 4
    ensures Join(parts, sep) == parts[0] + [sep] + (parts[1] + [sep] + (parts[2] + [sep] + parts[3]))
  {
    assert Join(parts[1..], sep) == parts[1] + [sep] + Join(parts[1..][1..], sep);
    assert Join(parts[1..][1..], sep) == parts[2] + [sep] + Join(parts[1..][1..][1..], sep);
  }

  /** A dotted quad holds digits and dots only. */
  lemma DottedQuadHasNoColon(s: string)
    requires Ipv4Bytes(s).Some?
    ensures ':' !in s && '%' !in s && '.' in s && |s| <= 15
  {
    OctetsMeaning(Split(s, '.'), 4);
    JoinSplit(s, '.');
    JoinFour(Split(s, '.'), '.');
  }

  /** One more digit. */
  lemma DecimalNext(ip: string, start: nat, i: nat)
    requires start <= i < |ip| && AllDigits(ip[start..i]) && IsDigit(ip[i])
    ensures AllDigits(ip[start..i + 1])
    ensures DecimalValue(ip[start..i + 1]) == 10 * DecimalValue(ip[start..i]) + DigitValue(ip[i])
  {
    var s := ip[start..i + 1];
    assert s[..|s| - 1] == ip[start..i] && s[|s| - 1] == ip[i];
  }

  /** Digits never reach past the first separator. */
  lemma DigitInPiece(rest: string, k: nat)
    requires k < |rest| && IsDigit(rest[k]) && k <= FindChar(rest, '.', 0)
    ensures k < FindChar(rest, '.', 0)
  {
  }

  /** How the first piece of a text relates to the digits read from its start. */
  lemma PieceAfter(ip: string, start: nat, i: nat)
    requires start <= i <= |ip| && i - start <= FindChar(ip[start..], '.', 0) && AllDigits(ip[start..i])
    ensures i == |ip| ==> Split(ip[start..], '.') == [ip[start..i]]
    ensures i < |ip| && ip[i] == '.' ==> Split(ip[start..], '.') == [ip[start..i]] + Split(ip[i + 1..], '.')
    ensures i < |ip| && ip[i] != '.' && !IsDigit(ip[i]) ==> !AllDigits(Split(ip[start..], '.')[0])
    ensures ip[start..i] <= Split(ip[start..], '.')[0]
  {
    hide Split, FindChar;
    var rest := ip[start..];
    var q := FindChar(rest, '.', 0);
    SplitFirst(rest, '.');
    assert ip[start..i] == rest[..i - start];
    if i < |ip| {
      assert rest[i - start] == ip[i];
      if ip[i] == '.' {
        assert rest[q + 1..] == ip[i + 1..];
      } else if !IsDigit(ip[i]) {
        assert rest[..q][i - start] == ip[i];
      }
    }
  }

  lemma LongPiece(a: string, b: string)
    requires a <= b && |a| > 3
    ensures !IsOctet(b)
  {
  }

  /** Reads the digits of one octet, as far as they go. */
  method ScanOctet(ip: string, start: nat) returns (ok: bool, value: nat, i: nat)
    requires start <= |ip|
    ensures ok ==> start < i <= |ip| && IsOctet(ip[start..i]) && value == DecimalValue(ip[start..i])
    ensures ok && i == |ip| ==> Split(ip[start..], '.') == [ip[start..i]]
    ensures ok && i < |ip| && ip[i] == '.' ==> Split(ip[start..], '.') == [ip[start..i]] + Split(ip[i + 1..], '.')
    ensures !ok || (i < |ip| && ip[i] != '.') ==> !IsOctet(Split(ip[start..], '.')[0])
  {
    hide FindChar, Split, DecimalValue, IsDigit;
    ghost var q := FindChar(ip[start..], '.', 0);
    i, value := start, 0;
    Nothing(ip, start);
    PieceAfter(ip, start, i);
    if i >= |ip| { return false, value, i; }
    if !IsDigit(ip[i]) {
      NoDigits(ip, start);
      return false, value, i;
    }
    var digits := 0;
    while i < |ip| && IsDigit(ip[i])
      invariant start <= i <= |ip| && digits == i - start <= 3 && digits <= q
      invariant AllDigits(ip[start..i]) && value == DecimalValue(ip[start..i])
      invariant i == start ==> i < |ip| && IsDigit(ip[i])
      decreases |ip| - i
    {
      DigitInPiece(ip[start..], digits);
      DecimalNext(ip, start, i);
      value := value * 10 + DigitValue(ip[i]);
      digits := digits + 1;
      if digits > 3 {
        PieceAfter(ip, start, i + 1);
        LongPiece(ip[start..i + 1], Split(ip[start..], '.')[0]);
        return false, value, i;
      }
      i := i + 1;
    }
    PieceAfter(ip, start, i);
    ok := value <= 255;
    if !ok && (i == |ip| || ip[i] == '.') { assert Split(ip[start..], '.')[0] == ip[start..i]; }
  }

  lemma Nothing(ip: string, start: nat)
    requires start <= |ip|
    ensures ip[start..start] == "" && AllDigits("") && DecimalValue("") == 0 && !IsOctet("")
  {
  }

  lemma NoDigits(ip: string, start: nat)
    requires start < |ip| && !IsDigit(ip[start])
    ensures !IsOctet(Split(ip[start..], '.')[0])
  {
    SplitFirst(ip[start..], '.');
    var piece := Split(ip[start..], '.')[0];
    if piece != "" { assert piece[0] == ip[start]; }
  }

  /** One octet off the front of a list. */
  lemma OctetStep(parts: seq<string>, n: nat)
    requires n > 0 && parts != []
    ensures Octets(parts, n)
         == if IsOctet(parts[0]) then Prepend([DecimalValue(parts[0])], Octets(parts[1..], n - 1)) else None
  {
  }

  lemma Rest<T>(x: T, rest: seq<T>)
    ensures ([x] + rest)[0] == x && ([x] + rest)[1..] == rest && [x][1..] == []
  {
  }

  method ParseIpv4(ip: string) returns (ok: bool, out: Bytes)
    ensures ok <==> Ipv4Bytes(ip).Some?
    ensures ok ==> out == Ipv4Bytes(ip).value
  {
    hide Split, Octets, DecimalValue, IsOctet;
    out := [];
    var i := 0;
    assert ip[0..] == ip;
    assert Ipv4Bytes(ip).Some? ==> [] + Ipv4Bytes(ip).value == Ipv4Bytes(ip).value;
    while |out| < 4
      invariant |out| < 4 && 0 <= i <= |ip|
      invariant Ipv4Bytes(ip) == Prepend(out, Octets(Split(ip[i..], '.'), 4 - |out|))
      decreases 4 - |out|
    {
      var octet, value, j := ScanOctet(ip, i);
      OctetStep(Split(ip[i..], '.'), 4 - |out|);
      if !octet { return false, out; }
      OctetBound(ip[i..j]);
      ghost var before, more := out, Octets(if j == |ip| then [] else Split(ip[j + 1..], '.'), 3 - |out|);
      if j == |ip| || ip[j] == '.' {
        Rest(ip[i..j], if j == |ip| then [] else Split(ip[j + 1..], '.'));
        PrependTwice(before, [value], more);
      }
      out := out + [ByteOf(value)];
      i := j;
      if |out| == 4 { break; }
      if i >= |ip| || ip[i] != '.' {
        NoneLeft(4 - |out|);
        return false, out;
      }
      i := i + 1;
    }
    ok := i == |ip|;
    NoneLeft(0);
    if !ok { SplitNonEmpty(if i < |ip| then ip[i + 1..] else ""); }
  }

  lemma OctetBound(p: string)
    requires IsOctet(p)
    ensures AllDigits(p) && DecimalValue(p) < 256
  {
  }

  lemma NoneLeft(n: nat)
    ensures Octets([], n) == if n == 0 then Some([]) else None
    ensures forall a: Bytes :: a + [] == a
  {
  }

  lemma SplitNonEmpty(s: string)
    ensures Split(s, '.') != [] && Octets(Split(s, '.'), 0) == None
  {
  }

  lemma PrependTwice(a: Bytes, b: Bytes, r: Option<Bytes>)
    ensures Prepend(a, Prepend(b, r)) == Prepend(a + b, r)
  {
    assert r.Some? ==> a + (b + r.value) == a + b + r.value;
  }
}
