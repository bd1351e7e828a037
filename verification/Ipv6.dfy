/** IPv6 text (section 2.2 of RFC 4291) as src/common/ssrf.cpp reads it. */
module Ipv6 {
  import opened Common
  import opened Text
  import Ipv4

  predicate IsGroup(g: string) {
    1 <= |g| <= 4 && AllHex(g)
  }

  predicate AllGroups(groups: seq<string>) {
    forall k | 0 <= k < |groups| :: IsGroup(groups[k])
  }

  /** Two bytes a group, in order. */
  function GroupBytes(groups: seq<string>): (bytes: Bytes)
    requires AllGroups(groups)
    ensures |bytes| == 2 * |groups|
  {
    if groups == [] then []
    else
      var front, n := groups[..|groups| - 1], HexValue(groups[|groups| - 1]);
      GroupBytes(front) + [ByteOf(n / 256), ByteOf(n)]
  }

  /** The text before the zone id, as in `fe80::1%eth0`. */
  function CutZone(s: string): string {
    s[..FindChar(s, '%', 0)]
  }

  /** Rewrites a dotted-quad last group as two hexadecimal groups. */
  function Unmix(s: string): (r: Option<string>) {
    var colon := RFindChar(s, ':', |s|);
    if colon.Some? && FindChar(s, '.', colon.value) < |s| then
      var v4 := Ipv4.Ipv4Bytes(s[colon.value + 1..]);
      if v4.None? then None else Some(s[..colon.value + 1] + HexPair(v4.value))
    else Some(s)
  }

  function U16(hi: Byte, lo: Byte): (n: nat)
    ensures n < 0x10000 && n / 256 == hi && n % 256 == lo
  {
    256 * (hi as int) + lo as int
  }

  /** `%x:%x` of the two 16-bit halves. */
  function HexPair(v4: Bytes): string
    requires |v4| == 4
  {
    Hex(U16(v4[0], v4[1])) + ":" + Hex(U16(v4[2], v4[3]))
  }

  function SplitGroups(s: string): seq<string> {
    if s == "" then [] else Split(s, ':')
  }

  function Zeros(n: nat): (z: seq<string>)
    ensures |z| == n && forall k | 0 <= k < n :: z[k] == "0"
  {
    if n == 0 then [] else Zeros(n - 1) + ["0"]
  }

  /** The eight groups, with a `::` filled in. */
  function Expand(s: string): (r: Option<seq<string>>)
    ensures r.Some? ==> |r.value| == 8
  {
    var pos := FindDouble(s, ':', 0);
    if pos.Some? then
      var head, tail := SplitGroups(s[..pos.value]), SplitGroups(s[pos.value + 2..]);
      if FindDouble(s, ':', pos.value + 1).Some? || |head| + |tail| > 8 then None
      else Some(head + Zeros(8 - |head| - |tail|) + tail)
    else
      var groups := SplitGroups(s);
      if |groups| == 8 then Some(groups) else None
  }

  /** The sixteen bytes an IPv6 text stands for, or `None`. */
  function Ipv6Bytes(ip: string): (r: Option<Bytes>)
    ensures r.Some? ==> |r.value| == 16
  {
    var s := CutZone(ip);
    if s == "" || |s| > 45 || Unmix(s).None? then None
    else
      var groups := Expand(Unmix(s).value);
      if groups.Some? && AllGroups(groups.value) then Some(GroupBytes(groups.value)) else None
  }

  // ----- the source's loops ----------------------------------------------------

  /** The piece up to the next colon, and what is left after it. */
  lemma NextPiece(s: string, start: nat)
    requires start <= |s|
    ensures var c := FindChar(s, ':', start);
            Split(s[start..], ':') == if c < |s| then [s[start..c]] + Split(s[c + 1..], ':') else [s[start..]]
  {
    hide Split;
    var c := FindChar(s, ':', start);
    if c == |s| {
      assert s[start..] == s[start..c];
      SplitPiece(s[start..], ':');
    } else {
      assert s[start..] == s[start..c] + [':'] + s[c + 1..];
      SplitAt(s[start..c], ':', s[c + 1..]);
    }
  }

  method SplitOnColons(s: string) returns (groups: seq<string>)
    ensures groups == SplitGroups(s)
  {
    hide Split, FindChar;
    groups := [];
    if s == "" { return; }
    var start := 0;
    assert s[0..] == s;
    while true
      invariant 0 <= start <= |s| && Split(s, ':') == groups + Split(s[start..], ':')
      decreases |s| - start
    {
      var c := FindChar(s, ':', start);
      NextPiece(s, start);
      if c == |s| {
        groups := groups + [s[start..]];
        return;
      }
      ConcatAssoc(groups, [s[start..c]], Split(s[c + 1..], ':'));
      groups := groups + [s[start..c]];
      start := c + 1;
    }
  }

  method ReadGroup(g: string) returns (ok: bool, n: nat)
    ensures ok <==> IsGroup(g)
    ensures ok ==> n == HexValue(g)
  {
    n := 0;
    if g == "" || |g| > 4 { return false, n; }
    var k := 0;
    while k < |g|
      invariant 0 <= k <= |g| && AllHex(g[..k]) && n == HexValue(g[..k])
    {
      if !IsHex(g[k]) { return false, n; }
      assert g[..k + 1][..k] == g[..k];
      n := n * 16 + HexDigit(g[k]);
      k := k + 1;
    }
    assert g[..k] == g;
    ok := true;
  }

  method ExpandGroups(str: string) returns (ok: bool, groups: seq<string>)
    ensures ok <==> Expand(str).Some?
    ensures ok ==> groups == Expand(str).value
  {
    groups := [];
    var pos := FindDouble(str, ':', 0);
    if pos.Some? && FindDouble(str, ':', pos.value + 1).Some? { return false, groups; }
    var head, tail: seq<string>;
    if pos.Some? {
      head := SplitOnColons(str[..pos.value]);
      tail := SplitOnColons(str[pos.value + 2..]);
    } else {
      head := SplitOnColons(str);
      tail := [];
    }
    var total := |head| + |tail|;
    if total > 8 { return false, groups; }
    groups := head;
    if pos.Some? {
      var i := total;
      while i < 8
        invariant total <= i <= 8 && groups == head + Zeros(i - total)
      {
        groups := groups + ["0"];
        i := i + 1;
      }
      groups := groups + tail;
    }
    ok := |groups| == 8;
  }

  method RewriteMixed(s: string) returns (ok: bool, str: string)
    ensures ok <==> Unmix(s).Some?
    ensures ok ==> str == Unmix(s).value
  {
    ok, str := true, s;
    var lastColon := RFindChar(s, ':', |s|);
    if lastColon.Some? && FindChar(s, '.', lastColon.value) < |s| {
      var v4ok, v4 := Ipv4.ParseIpv4(s[lastColon.value + 1..]);
      if !v4ok { return false, s; }
      str := s[..lastColon.value + 1] + HexPair(v4);
    }
  }

  method ReadGroups(groups: seq<string>) returns (ok: bool, out: Bytes)
    ensures ok <==> AllGroups(groups)
    ensures ok ==> out == GroupBytes(groups)
  {
    out := [];
    var i := 0;
    while i < |groups|
      invariant 0 <= i <= |groups| && AllGroups(groups[..i]) && out == GroupBytes(groups[..i])
    {
      var good, n := ReadGroup(groups[i]);
      if !good { return false, out; }
      assert groups[..i + 1][..i] == groups[..i];
      out := out + [ByteOf(n / 256), ByteOf(n)];
      i := i + 1;
    }
    assert groups[..i] == groups;
    ok := true;
  }

  method Ipv6ToBytes(ip: string) returns (ok: bool, out: Bytes)
    ensures ok <==> Ipv6Bytes(ip).Some?
    ensures ok ==> out == Ipv6Bytes(ip).value
  {
    out := [];
    var str := ip[..FindChar(ip, '%', 0)];
    if str == "" || |str| > 45 { return false, out; }
    ok, str := RewriteMixed(str);
    if !ok { return; }
    var groups: seq<string>;
    ok, groups := ExpandGroups(str);
    if !ok { return; }
    ok, out := ReadGroups(groups);
  }

  // ----- text forms agree --------------------------------------------------------

  lemma GroupHasNoPunctuation(g: string)
    requires IsGroup(g)
    ensures ':' !in g && '.' !in g && '%' !in g
  {
  }

  /** Every character of a joined list of groups is a hexadecimal digit or a colon. */
  lemma {:induction false} JoinChars(groups: seq<string>, c: char)
    requires AllGroups(groups) && c in Join(groups, ':')
    ensures c == ':' || IsHex(c)
  {
    if |groups| > 1 {
      var rest := Join(groups[1..], ':');
      if c in rest { JoinChars(groups[1..], c); }
    }
  }

  lemma {:induction false} JoinLength(groups: seq<string>)
    requires AllGroups(groups)
    ensures groups == [] <==> Join(groups, ':') == ""
    ensures |Join(groups, ':')| <= 5 * |groups|
    ensures groups != [] ==> |Join(groups, ':')| <= 5 * |groups| - 1
  {
    if |groups| > 1 { JoinLength(groups[1..]); }
  }

  /** A joined list of groups has no doubled colon, and no colon at either end. */
  lemma {:induction false} JoinHasNoDouble(groups: seq<string>)
    requires AllGroups(groups)
    ensures var s := Join(groups, ':');
            (forall k: nat :: !DoubleAt(s, ':', k)) && (s != "" ==> s[0] != ':' && s[|s| - 1] != ':')
  {
    if |groups| == 1 {
      GroupHasNoPunctuation(groups[0]);
    } else if |groups| > 1 {
      JoinHasNoDouble(groups[1..]);
      JoinLength(groups[1..]);
      GroupHasNoPunctuation(groups[0]);
      var a, b := groups[0], Join(groups[1..], ':');
      var s := a + [':'] + b;
      forall k: nat ensures !DoubleAt(s, ':', k) {
        if k + 1 < |s| && k > |a| {
          assert !DoubleAt(b, ':', k - |a| - 1);
        }
      }
    }
  }

  lemma SplitGroupsOfJoin(groups: seq<string>)
    requires AllGroups(groups)
    ensures SplitGroups(Join(groups, ':')) == groups
  {
    JoinLength(groups);
    forall k | 0 <= k < |groups| ensures ':' !in groups[k] { GroupHasNoPunctuation(groups[k]); }
    if groups != [] { SplitJoin(groups, ':'); }
  }

  function Compressed(head: seq<string>, tail: seq<string>): string {
    Join(head, ':') + "::" + Join(tail, ':')
  }

  /** The `::` of a compressed text is its only doubled colon. */
  lemma CompressedDouble(head: seq<string>, tail: seq<string>)
    requires AllGroups(head) && AllGroups(tail)
    ensures var s := Compressed(head, tail);
            FindDouble(s, ':', 0) == Some(|Join(head, ':')|) && FindDouble(s, ':', |Join(head, ':')| + 1) == None
  {
    var a, b := Join(head, ':'), Join(tail, ':');
    var s := Compressed(head, tail);
    JoinHasNoDouble(head);
    JoinHasNoDouble(tail);
    forall k: nat ensures DoubleAt(s, ':', k) ==> k == |a| {
      assert k + 1 < |a| ==> (DoubleAt(s, ':', k) <==> DoubleAt(a, ':', k));
      assert k >= |a| + 2 ==> (DoubleAt(s, ':', k) <==> DoubleAt(b, ':', k - |a| - 2));
    }
    assert DoubleAt(s, ':', |a|);
  }

  lemma ExpandCompressed(head: seq<string>, tail: seq<string>)
    requires AllGroups(head) && AllGroups(tail) && |head| + |tail| <= 8
    ensures Expand(Compressed(head, tail)) == Some(head + Zeros(8 - |head| - |tail|) + tail)
  {
    var s, a, b := Compressed(head, tail), Join(head, ':'), Join(tail, ':');
    CompressedDouble(head, tail);
    assert s[..|a|] == a && s[|a| + 2..] == b;
    assert SplitGroups(s[..|a|]) == head by { SplitGroupsOfJoin(head); }
    assert SplitGroups(s[|a| + 2..]) == tail by { SplitGroupsOfJoin(tail); }
  }

  lemma ExpandFull(groups: seq<string>)
    requires AllGroups(groups) && |groups| == 8
    ensures Expand(Join(groups, ':')) == Some(groups)
  {
    JoinHasNoDouble(groups);
    SplitGroupsOfJoin(groups);
  }

  /** A text of hexadecimal digits and colons has no zone and no dotted part. */
  lemma PlainText(s: string)
    requires forall c | c in s :: c == ':' || IsHex(c)
    ensures CutZone(s) == s && Unmix(s) == Some(s)
  {
    forall k | 0 <= k < |s| ensures s[k] != '%' && s[k] != '.' {
      assert s[k] in s;
    }
  }

  lemma CompressedChars(head: seq<string>, tail: seq<string>)
    requires AllGroups(head) && AllGroups(tail)
    ensures forall c | c in Compressed(head, tail) :: c == ':' || IsHex(c)
  {
    forall c | c in Compressed(head, tail) ensures c == ':' || IsHex(c) {
      if c in Join(head, ':') { JoinChars(head, c); }
      if c in Join(tail, ':') { JoinChars(tail, c); }
    }
  }

  /** The `::` form and the fully written form denote the same sixteen bytes. */
  lemma CompressedEqualsFull(head: seq<string>, tail: seq<string>)
    requires AllGroups(head) && AllGroups(tail) && |head| + |tail| <= 8
    ensures var groups := head + Zeros(8 - |head| - |tail|) + tail;
            AllGroups(groups)
            && Ipv6Bytes(Compressed(head, tail)) == Some(GroupBytes(groups))
            && Ipv6Bytes(Join(groups, ':')) == Some(GroupBytes(groups))
  {
    var groups := head + Zeros(8 - |head| - |tail|) + tail;
    assert AllGroups(groups);
    JoinLength(head);
    JoinLength(tail);
    JoinLength(groups);
    CompressedChars(head, tail);
    PlainText(Compressed(head, tail));
    ExpandCompressed(head, tail);
    forall c | c in Join(groups, ':') ensures c == ':' || IsHex(c) { JoinChars(groups, c); }
    PlainText(Join(groups, ':'));
    ExpandFull(groups);
  }

  // ----- IPv4-mapped text ----------------------------------------------------------

  predicate IsV4Mapped(v6: Bytes)
    requires |v6| == 16
  {
    (forall k | 0 <= k < 10 :: v6[k] == 0) && v6[10] == 0xff && v6[11] == 0xff
  }

  lemma U16Group(hi: Byte, lo: Byte)
    ensures IsGroup(Hex(U16(hi, lo))) && HexValue(Hex(U16(hi, lo))) == U16(hi, lo)
  {
    assert Pow16(2) == 256 && Pow16(4) == 65536;
    HexWidth(U16(hi, lo), 4);
    HexRoundTrip(U16(hi, lo));
  }

  lemma OneGroup(g: string, hi: Byte, lo: Byte)
    requires IsGroup(g) && HexValue(g) == U16(hi, lo)
    ensures GroupBytes([g]) == [hi, lo]
  {
    assert [g][..0] == [];
  }

  lemma FfffValue()
    ensures HexValue("ffff") == 0xffff
  {
    assert "f"[..0] == "" && "ff"[..1] == "f" && "fff"[..2] == "ff" && "ffff"[..3] == "fff";
    assert HexValue("f") == 0xf;
    assert HexValue("ff") == 0xff;
    assert HexValue("fff") == 0xfff;
  }

  lemma HexPairGroups(v4: Bytes)
    requires |v4| == 4
    ensures var hi, lo := Hex(U16(v4[0], v4[1])), Hex(U16(v4[2], v4[3]));
            IsGroup(hi) && IsGroup(lo) && GroupBytes(["ffff", hi, lo]) == [0xff, 0xff] + v4
  {
    var hi, lo := Hex(U16(v4[0], v4[1])), Hex(U16(v4[2], v4[3]));
    U16Group(v4[0], v4[1]);
    U16Group(v4[2], v4[3]);
    FfffValue();
    OneGroup("ffff", 0xff, 0xff);
    OneGroup(hi, v4[0], v4[1]);
    OneGroup(lo, v4[2], v4[3]);
    GroupBytesConcat(["ffff"], [hi]);
    GroupBytesConcat(["ffff", hi], [lo]);
    assert ["ffff"] + [hi] == ["ffff", hi] && ["ffff", hi] + [lo] == ["ffff", hi, lo];
    assert [v4[0], v4[1]] + [v4[2], v4[3]] == v4;
  }

  lemma MappedText(v4: Bytes)
    requires |v4| == 4
    ensures "::ffff:" + HexPair(v4) == Compressed([], ["ffff", Hex(U16(v4[0], v4[1])), Hex(U16(v4[2], v4[3]))])
  {
    var hi, lo := Hex(U16(v4[0], v4[1])), Hex(U16(v4[2], v4[3]));
    var groups := ["ffff", hi, lo];
    assert groups[1..] == [hi, lo] && [hi, lo][1..] == [lo];
    assert Join([hi, lo], ':') == hi + [':'] + lo;
    assert Join(groups, ':') == "ffff" + [':'] + Join([hi, lo], ':');
  }

  lemma {:induction false} GroupBytesConcat(a: seq<string>, b: seq<string>)
    requires AllGroups(a) && AllGroups(b)
    ensures AllGroups(a + b) && GroupBytes(a + b) == GroupBytes(a) + GroupBytes(b)
  {
    if b == [] {
      assert a + b == a;
    } else {
      var front := b[..|b| - 1];
      GroupBytesConcat(a, front);
      assert (a + b)[..|a + b| - 1] == a + front;
    }
  }

  lemma {:induction false} ZeroGroupBytes(n: nat)
    ensures AllGroups(Zeros(n)) && GroupBytes(Zeros(n)) == seq(2 * n, _ => 0)
  {
    if n > 0 {
      ZeroGroupBytes(n - 1);
      assert Zeros(n)[..n - 1] == Zeros(n - 1);
      assert "0"[..0] == "" && HexValue("0") == 0;
    }
  }

  /** The dotted part of `::ffff:a.b.c.d` is found and rewritten. */
  lemma UnmixMapped(s: string)
    requires Ipv4.Ipv4Bytes(s).Some?
    ensures var ip := "::ffff:" + s;
            CutZone(ip) == ip && |ip| <= 45 && Unmix(ip) == Some("::ffff:" + HexPair(Ipv4.Ipv4Bytes(s).value))
  {
    var ip := "::ffff:" + s;
    Ipv4.DottedQuadHasNoColon(s);
    forall k | 7 <= k < |ip| ensures ip[k] != ':' && ip[k] != '%' {
      assert ip[k] == s[k - 7] && s[k - 7] in s;
    }
    assert forall k | 0 <= k < 7 :: ip[k] == "::ffff:"[k] && ip[k] != '%';
    assert RFindChar(ip, ':', |ip|) == Some(6) by { assert ip[6] == ':'; }
    var k :| 0 <= k < |s| && s[k] == '.';
    assert ip[k + 7] == '.';
    assert ip[7..] == s && ip[..7] == "::ffff:";
  }

  lemma MappedExpands(v4: Bytes)
    requires |v4| == 4
    ensures var tail := ["ffff", Hex(U16(v4[0], v4[1])), Hex(U16(v4[2], v4[3]))];
            Expand("::ffff:" + HexPair(v4)) == Some(Zeros(5) + tail)
  {
    var tail := ["ffff", Hex(U16(v4[0], v4[1])), Hex(U16(v4[2], v4[3]))];
    hide Expand, Zeros, Hex, Compressed, HexValue;
    HexPairGroups(v4);
    MappedText(v4);
    ExpandCompressed([], tail);
    assert [] + Zeros(5) + tail == Zeros(5) + tail;
  }

  lemma MappedGroups(v4: Bytes)
    requires |v4| == 4
    ensures var groups := Zeros(5) + ["ffff", Hex(U16(v4[0], v4[1])), Hex(U16(v4[2], v4[3]))];
            AllGroups(groups) && GroupBytes(groups) == seq(10, _ => 0) + ([0xff, 0xff] + v4)
  {
    hide Zeros, Hex, HexValue, GroupBytes;
    HexPairGroups(v4);
    ZeroGroupBytes(5);
    GroupBytesConcat(Zeros(5), ["ffff", Hex(U16(v4[0], v4[1])), Hex(U16(v4[2], v4[3]))]);
  }

  /** `::ffff:` in front of a dotted quad gives the mapped address of that quad. */
  lemma MappedBytes(s: string)
    requires Ipv4.Ipv4Bytes(s).Some?
    ensures var v6 := Ipv6Bytes("::ffff:" + s);
            v6.Some? && IsV4Mapped(v6.value) && v6.value[12..] == Ipv4.Ipv4Bytes(s).value
  {
    hide Expand, Unmix, CutZone, Zeros, Hex, AllGroups, GroupBytes, HexPair, Ipv4.Ipv4Bytes;
    var v4 := Ipv4.Ipv4Bytes(s).value;
    UnmixMapped(s);
    MappedExpands(v4);
    MappedGroups(v4);
  }
}
