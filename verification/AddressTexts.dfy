/** Exactly which texts src/common/ssrf.cpp takes for addresses, said without its scanning. */
module AddressTexts {
  import opened Common
  import opened Text
  import opened Ipv4
  import opened Ipv6

  // ----- dotted quads -----------------------------------------------------------------------------

  predicate QuadText(s: string, a: string, b: string, c: string, d: string) {
    s == a + "." + b + "." + c + "." + d && IsOctet(a) && IsOctet(b) && IsOctet(c) && IsOctet(d)
  }

  lemma OctetHasNoDot(p: string)
    requires IsOctet(p)
    ensures '.' !in p
  {
  }

  lemma FourOctets(a: string, b: string, c: string, d: string)
    requires IsOctet(a) && IsOctet(b) && IsOctet(c) && IsOctet(d)
    ensures Octets([a, b, c, d], 4) == Some([DecimalValue(a), DecimalValue(b), DecimalValue(c), DecimalValue(d)])
  {
    hide DecimalValue, AllDigits, Octets, IsOctet;
    var parts := [a, b, c, d];
    OctetsMeaning(parts, 4);
    assert forall k | 0 <= k < 4 :: IsOctet(parts[k]);
    var value := Octets(parts, 4).value;
    assert value == [value[0], value[1], value[2], value[3]];
  }

  lemma FourJoined(a: string, b: string, c: string, d: string)
    ensures Join([a, b, c, d], '.') == a + "." + b + "." + c + "." + d
  {
    JoinFour([a, b, c, d], '.');
    assert a + ['.'] + (b + ['.'] + (c + ['.'] + d)) == a + "." + b + "." + c + "." + d;
  }

  /** Four octets with dots between them are read as their values. */
  lemma QuadIsRead(s: string, a: string, b: string, c: string, d: string)
    requires QuadText(s, a, b, c, d)
    ensures Ipv4Bytes(s) == Some([DecimalValue(a), DecimalValue(b), DecimalValue(c), DecimalValue(d)])
  {
    hide DecimalValue, AllDigits, Split, Join, Octets, IsOctet;
    OctetHasNoDot(a);
    OctetHasNoDot(b);
    OctetHasNoDot(c);
    OctetHasNoDot(d);
    FourJoined(a, b, c, d);
    SplitJoin([a, b, c, d], '.');
    FourOctets(a, b, c, d);
  }

  /** And nothing else is read at all. */
  lemma OnlyQuads(s: string)
    ensures Ipv4Bytes(s).Some? <==> exists a, b, c, d :: QuadText(s, a, b, c, d)
  {
    hide DecimalValue, AllDigits, Split, Join, Octets, IsOctet;
    if Ipv4Bytes(s).Some? {
      var parts := Split(s, '.');
      OctetsMeaning(parts, 4);
      JoinSplit(s, '.');
      assert parts == [parts[0], parts[1], parts[2], parts[3]];
      FourJoined(parts[0], parts[1], parts[2], parts[3]);
      assert QuadText(s, parts[0], parts[1], parts[2], parts[3]);
    }
    if exists a, b, c, d :: QuadText(s, a, b, c, d) {
      var a, b, c, d :| QuadText(s, a, b, c, d);
      QuadIsRead(s, a, b, c, d);
    }
  }

  // ----- groups -------------------------------------------------------------------------------------

  /** Eight groups, all written out. */
  predicate FullText(s: string, groups: seq<string>) {
    AllGroups(groups) && |groups| == 8 && s == Join(groups, ':')
  }

  /** Up to eight groups with one `::`. */
  predicate ShortText(s: string, head: seq<string>, tail: seq<string>) {
    AllGroups(head) && AllGroups(tail) && |head| + |tail| <= 8 && s == Compressed(head, tail)
  }

  lemma JoinGroups(s: string)
    ensures Join(SplitGroups(s), ':') == s
  {
    if s != "" { JoinSplit(s, ':'); }
  }

  lemma PartsOk(head: seq<string>, zeros: seq<string>, tail: seq<string>)
    requires AllGroups(head + zeros + tail)
    ensures AllGroups(head) && AllGroups(tail)
  {
    hide IsGroup;
    var all := head + zeros + tail;
    forall k | 0 <= k < |head| ensures IsGroup(head[k]) { assert all[k] == head[k]; }
    forall k | 0 <= k < |tail| ensures IsGroup(tail[k]) { assert all[|head| + |zeros| + k] == tail[k]; }
  }

  lemma AroundDouble(s: string, pos: nat)
    requires DoubleAt(s, ':', pos)
    ensures s == s[..pos] + "::" + s[pos + 2..]
  {
  }

  /** What is cut into groups that are all right is one of the two forms. */
  lemma ExpandedForms(s: string)
    requires Expand(s).Some? && AllGroups(Expand(s).value)
    ensures FullText(s, Expand(s).value) || exists head, tail :: ShortText(s, head, tail)
  {
    hide IsGroup, Join, SplitGroups, AllGroups;
    var pos := FindDouble(s, ':', 0);
    if pos.Some? {
      var head, tail := SplitGroups(s[..pos.value]), SplitGroups(s[pos.value + 2..]);
      PartsOk(head, Zeros(8 - |head| - |tail|), tail);
      AroundDouble(s, pos.value);
      JoinGroups(s[..pos.value]);
      JoinGroups(s[pos.value + 2..]);
      assert ShortText(s, head, tail);
    } else {
      JoinGroups(s);
    }
  }

  lemma FormsAreShort(s: string, head: seq<string>, tail: seq<string>)
    requires FullText(s, head) || ShortText(s, head, tail)
    ensures |s| <= 45
  {
    JoinLength(head);
    if ShortText(s, head, tail) { JoinLength(tail); }
  }

  lemma ExpandedIsShort(s: string)
    requires Expand(s).Some? && AllGroups(Expand(s).value)
    ensures |s| <= 45
  {
    hide AllGroups, Expand, Join;
    ExpandedForms(s);
    if FullText(s, Expand(s).value) {
      FormsAreShort(s, Expand(s).value, []);
    } else {
      var head, tail :| ShortText(s, head, tail);
      FormsAreShort(s, head, tail);
    }
  }

  /** A text of hexadecimal digits and colons. */
  predicate Plain(s: string) {
    forall c | c in s :: c == ':' || IsHex(c)
  }

  /** Such a text is an address exactly when it is eight groups, or up to eight with one `::`. */
  lemma OnlyGroups(s: string)
    requires Plain(s)
    ensures Ipv6Bytes(s).Some? <==>
              (exists groups :: FullText(s, groups)) || exists head, tail :: ShortText(s, head, tail)
  {
    hide AllGroups, Expand, Join, GroupBytes, Zeros, Compressed, CutZone, Unmix;
    PlainText(s);
    if Ipv6Bytes(s).Some? { ExpandedForms(s); }
    if groups :| FullText(s, groups) { FullIsRead(s, groups); }
    if head, tail :| ShortText(s, head, tail) { CompressedEqualsFull(head, tail); }
  }

  lemma FullIsRead(s: string, groups: seq<string>)
    requires FullText(s, groups)
    ensures Ipv6Bytes(s) == Some(GroupBytes(groups))
  {
    hide AllGroups, Join, GroupBytes, Ipv6Bytes;
    CompressedEqualsFull(groups, []);
    assert Zeros(0) == [] && groups + [] + [] == groups;
  }

  // ----- zones and dotted ends ---------------------------------------------------------------------------

  lemma ZoneCut(s: string, zone: string)
    requires '%' !in s
    ensures CutZone(s + "%" + zone) == s && CutZone(s) == s
  {
    var t := s + "%" + zone;
    assert t[|s|] == '%' && forall k | 0 <= k < |s| :: t[k] == s[k];
    assert FindChar(t, '%', 0) == |s|;
    assert t[..|s|] == s;
  }

  /** A zone id is cut off, whatever it is. */
  lemma ZoneIsIgnored(s: string, zone: string)
    requires '%' !in s
    ensures Ipv6Bytes(s + "%" + zone) == Ipv6Bytes(s)
  {
    hide CutZone, Expand, Unmix, AllGroups;
    ZoneCut(s, zone);
  }

  lemma DottedEnd(a: string, q: string)
    requires a != "" && a[|a| - 1] == ':' && Plain(a) && Ipv4Bytes(q).Some?
    ensures CutZone(a + q) == a + q && Unmix(a + q) == Some(a + HexPair(Ipv4Bytes(q).value))
  {
    hide Ipv4Bytes, HexPair;
    var ip := a + q;
    DottedQuadHasNoColon(q);
    forall k | 0 <= k < |ip| ensures ip[k] != '%' && (k >= |a| ==> ip[k] != ':') {
      assert k < |a| ==> ip[k] == a[k] && a[k] in a;
      assert k >= |a| ==> ip[k] == q[k - |a|] && q[k - |a|] in q;
    }
    assert ip[|a| - 1] == ':' && RFindChar(ip, ':', |ip|) == Some(|a| - 1);
    var k :| 0 <= k < |q| && q[k] == '.';
    assert ip[|a| + k] == '.';
    assert ip[|a|..] == q && ip[..|a|] == a;
  }

  lemma PairIsPlain(a: string, v4: Bytes)
    requires Plain(a) && |v4| == 4
    ensures Plain(a + HexPair(v4)) && HexPair(v4) != ""
  {
    hide Hex, U16, HexValue;
    HexPairGroups(v4);
    GroupIsHex(Hex(U16(v4[0], v4[1])));
    GroupIsHex(Hex(U16(v4[2], v4[3])));
  }

  lemma GroupIsHex(g: string)
    requires IsGroup(g)
    ensures forall c | c in g :: IsHex(c)
  {
  }

  /** A dotted quad at the end stands for its two groups in hexadecimal, in texts of at most 45 characters. */
  lemma MixedTexts(a: string, q: string)
    requires a != "" && a[|a| - 1] == ':' && Plain(a) && Ipv4Bytes(q).Some?
    ensures Ipv6Bytes(a + q) == if |a + q| > 45 then None else Ipv6Bytes(a + HexPair(Ipv4Bytes(q).value))
  {
    hide CutZone, Expand, Unmix, AllGroups, GroupBytes, HexPair, Plain;
    var t := a + HexPair(Ipv4Bytes(q).value);
    DottedEnd(a, q);
    PairIsPlain(a, Ipv4Bytes(q).value);
    PlainIsWhole(t);
    if Expand(t).Some? && AllGroups(Expand(t).value) { ExpandedIsShort(t); }
  }

  lemma PlainIsWhole(s: string)
    requires Plain(s)
    ensures CutZone(s) == s && Unmix(s) == Some(s)
  {
    PlainText(s);
  }
}
