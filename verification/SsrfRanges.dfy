/** The blocks src/common/ssrf.cpp refuses, as ranges of numbers: what is refused, and under which name. */
module SsrfRanges {
  import opened Common
  import opened Text
  import opened Cidr
  import opened Ipv4
  import opened Ipv6
  import opened Ssrf

  /** A block by its name, its first and its last address. */
  datatype Range = Range(name: string, first: nat, last: nat)

  const V4_RANGES: seq<Range> := [
    Range("0.0.0.0/8", 0x0000_0000, 0x00ff_ffff),
    Range("10.0.0.0/8", 0x0a00_0000, 0x0aff_ffff),
    Range("100.64.0.0/10", 0x6440_0000, 0x647f_ffff),
    Range("127.0.0.0/8", 0x7f00_0000, 0x7fff_ffff),
    Range("169.254.0.0/16", 0xa9fe_0000, 0xa9fe_ffff),
    Range("172.16.0.0/12", 0xac10_0000, 0xac1f_ffff),
    Range("192.168.0.0/16", 0xc0a8_0000, 0xc0a8_ffff),
    Range("224.0.0.0/4", 0xe000_0000, 0xefff_ffff),
    Range("240.0.0.0/4", 0xf000_0000, 0xffff_ffff)
  ]

  const V6_RANGES: seq<Range> := [
    Range("::/128", 0, 0),
    Range("::1/128", 1, 1),
    Range("64:ff9b::/96", 0x0064_ff9b_0000_0000_0000_0000_0000_0000, 0x0064_ff9b_0000_0000_0000_0000_ffff_ffff),
    Range("2002::/16", 0x2002_0000_0000_0000_0000_0000_0000_0000, 0x2002_ffff_ffff_ffff_ffff_ffff_ffff_ffff),
    Range("fc00::/7", 0xfc00_0000_0000_0000_0000_0000_0000_0000, 0xfdff_ffff_ffff_ffff_ffff_ffff_ffff_ffff),
    Range("fe80::/10", 0xfe80_0000_0000_0000_0000_0000_0000_0000, 0xfebf_ffff_ffff_ffff_ffff_ffff_ffff_ffff)
  ]

  predicate Within(n: nat, r: Range) {
    r.first <= n <= r.last
  }

  /** The verdict is that of the ranges: refused exactly inside one of them, and under its name. */
  ghost predicate Judges(verdict: BlockResult, n: nat, ranges: seq<Range>) {
    && (verdict.blocked <==> exists k :: 0 <= k < |ranges| && Within(n, ranges[k]))
    && (forall k | 0 <= k < |ranges| && Within(n, ranges[k]) :: verdict == BlockResult(true, ranges[k].name))
  }

  // ----- a table of blocks and a table of ranges --------------------------------------------------

  lemma QuotientRange(n: nat, lo: nat, scale: nat)
    requires scale > 0 && lo % scale == 0
    ensures n / scale == lo / scale <==> lo <= n <= lo + scale - 1
  {
    var q, r := lo / scale, n % scale;
    assert lo == scale * q && n == scale * (n / scale) + r;
    if lo <= n <= lo + scale - 1 {
      Remainder(n, scale, q, n - lo);
    }
  }

  /** A block is the range from its base on, as long as its free bits make it. */
  predicate Spans(b: Block, r: Range, width: nat) {
    && |b.base| == width && b.bits <= 8 * width && b.cidr == r.name && BigEndian(b.base) == r.first
    && r.last == r.first + Pow2(8 * width - b.bits) - 1 && r.first % Pow2(8 * width - b.bits) == 0
  }

  predicate SpansAll(blocks: seq<Block>, ranges: seq<Range>, width: nat) {
    |blocks| == |ranges| && forall k | 0 <= k < |blocks| :: Spans(blocks[k], ranges[k], width)
  }

  predicate Apart(ranges: seq<Range>) {
    forall j, k | 0 <= j < k < |ranges| :: ranges[j].last < ranges[k].first
  }

  lemma InBlockIsWithin(b: Block, r: Range, address: Bytes)
    requires Spans(b, r, |address|)
    ensures SamePrefix(address, b.base, b.bits) <==> Within(BigEndian(address), r)
  {
    hide BigEndian, Pow2;
    QuotientRange(BigEndian(address), r.first, Pow2(8 * |address| - b.bits));
  }

  lemma {:induction false} FirstMatch(blocks: seq<Block>, address: Bytes, k: nat)
    requires ForWidth(blocks, |address|) && k <= |blocks|
    requires forall j | 0 <= j < k :: !SamePrefix(address, blocks[j].base, blocks[j].bits)
    requires k < |blocks| ==> SamePrefix(address, blocks[k].base, blocks[k].bits)
    ensures FirstBlock(blocks, address)
         == if k < |blocks| then BlockResult(true, blocks[k].cidr) else BlockResult(false, "")
    decreases k
  {
    hide SamePrefix;
    if k > 0 {
      assert !SamePrefix(address, blocks[0].base, blocks[0].bits);
      forall j | 0 <= j < k - 1 ensures !SamePrefix(address, blocks[1..][j].base, blocks[1..][j].bits) {
        assert blocks[1..][j] == blocks[j + 1];
      }
      FirstMatch(blocks[1..], address, k - 1);
    }
  }

  lemma TableJudges(blocks: seq<Block>, ranges: seq<Range>, address: Bytes)
    requires SpansAll(blocks, ranges, |address|) && Apart(ranges)
    ensures ForWidth(blocks, |address|) && Judges(FirstBlock(blocks, address), BigEndian(address), ranges)
  {
    hide BigEndian, Pow2, SamePrefix, FirstBlock;
    forall k | 0 <= k < |blocks|
      ensures |blocks[k].base| == |address| && blocks[k].bits <= 8 * |address| && blocks[k].cidr == ranges[k].name
      ensures SamePrefix(address, blocks[k].base, blocks[k].bits) <==> Within(BigEndian(address), ranges[k])
    {
      assert Spans(blocks[k], ranges[k], |address|);
      InBlockIsWithin(blocks[k], ranges[k], address);
    }
    var n := BigEndian(address);
    if k :| 0 <= k < |ranges| && Within(n, ranges[k]) {
      OneRange(ranges, n, k);
      FirstMatch(blocks, address, k);
    } else {
      FirstMatch(blocks, address, |blocks|);
    }
  }

  lemma OneRange(ranges: seq<Range>, n: nat, k: nat)
    requires Apart(ranges) && k < |ranges| && Within(n, ranges[k])
    ensures forall j | 0 <= j < |ranges| && j != k :: !Within(n, ranges[j])
  {
    forall j | 0 <= j < |ranges| && j != k ensures !Within(n, ranges[j]) {
      if j < k {
        assert ranges[j].last < ranges[k].first;
      } else {
        assert ranges[k].last < ranges[j].first;
      }
    }
  }

  // ----- IPv4 -----------------------------------------------------------------------------------------

  lemma BigEndian4(b: Bytes)
    requires |b| == 4
    ensures BigEndian(b) == 0x1000000 * (b[0] as int) + 0x10000 * (b[1] as int) + 0x100 * (b[2] as int) + b[3] as int
  {
    assert b[..3][..2] == b[..2] && b[..2][..1] == b[..1] && b[..1][..0] == [];
    assert BigEndian(b[..1]) == b[0];
    assert BigEndian(b[..2]) == 256 * BigEndian(b[..1]) + b[1];
    assert BigEndian(b[..3]) == 256 * BigEndian(b[..2]) + b[2];
  }

  lemma V4Powers()
    ensures Pow2(16) == 0x10000 && Pow2(20) == 0x100000 && Pow2(22) == 0x400000
    ensures Pow2(24) == 0x1000000 && Pow2(28) == 0x10000000
  {
    Pow2Of8Bits();
    Pow2Sum(8, 8);
    Pow2Sum(16, 4);
    Pow2Sum(20, 2);
    Pow2Sum(20, 4);
    Pow2Sum(24, 4);
    assert Pow2(4) == 16 && Pow2(2) == 4;
  }

  lemma V4Spans(k: nat)
    requires k < 9
    ensures Spans(IPV4_BLOCKS[k], V4_RANGES[k], 4)
  {
    hide BigEndian, Pow2;
    V4Powers();
    BigEndian4(IPV4_BLOCKS[k].base);
  }

  lemma V4Apart()
    ensures Apart(V4_RANGES)
  {
  }

  /** On four bytes the table test is that of nine ranges. */
  lemma Verdict4Judges(v4: Bytes)
    requires |v4| == 4
    ensures Judges(Verdict4(v4), BigEndian(v4), V4_RANGES)
  {
    hide BigEndian, Pow2, FirstBlock, Spans, Judges, Apart;
    V4Apart();
    forall k: nat | k < 9 ensures Spans(IPV4_BLOCKS[k], V4_RANGES[k], 4) { V4Spans(k); }
    TableJudges(IPV4_BLOCKS, V4_RANGES, v4);
  }

  /** The number a dotted quad denotes: its four octets in base 256. */
  function QuadValue(s: string): nat
    requires Ipv4Bytes(s).Some?
  {
    var parts := Split(s, '.');
    OctetsMeaning(parts, 4);
    0x1000000 * DecimalValue(parts[0]) + 0x10000 * DecimalValue(parts[1])
    + 0x100 * DecimalValue(parts[2]) + DecimalValue(parts[3])
  }

  /** A dotted quad is refused exactly when its number lies in one of the nine ranges, and under that range's name. */
  lemma DottedQuadRefused(s: string)
    requires Ipv4Bytes(s).Some?
    ensures Judges(IsBlocked(s), QuadValue(s), V4_RANGES)
  {
    hide Judges;
    OctetsMeaning(Split(s, '.'), 4);
    BigEndian4(Ipv4Bytes(s).value);
    Verdict4Judges(Ipv4Bytes(s).value);
  }

  // ----- IPv6 -------------------------------------------------------------------------------------------

  lemma {:induction false} BigEndianConcat(a: Bytes, b: Bytes)
    ensures BigEndian(a + b) == BigEndian(a) * Pow256(|b|) + BigEndian(b)
  {
    if b == [] {
      assert a + b == a;
    } else {
      var front := b[..|b| - 1];
      BigEndianConcat(a, front);
      assert (a + b)[..|a + b| - 1] == a + front;
      MulAssoc(256, BigEndian(a), Pow256(|front|));
      MulAssoc(BigEndian(a), 256, Pow256(|front|));
    }
  }

  function Quad(b: Bytes, at: nat): nat
    requires at + 4 <= |b|
  {
    0x1000000 * (b[at] as int) + 0x10000 * (b[at + 1] as int) + 0x100 * (b[at + 2] as int) + b[at + 3] as int
  }

  lemma QuadIs(b: Bytes, at: nat)
    requires at + 4 <= |b|
    ensures BigEndian(b[at..at + 4]) == Quad(b, at)
  {
    BigEndian4(b[at..at + 4]);
  }

  lemma BigEndian16(b: Bytes)
    requires |b| == 16
    ensures BigEndian(b) == 0x1_0000_0000_0000_0000_0000_0000 * Quad(b, 0) + 0x1_0000_0000_0000_0000 * Quad(b, 4)
                            + 0x1_0000_0000 * Quad(b, 8) + Quad(b, 12)
  {
    hide BigEndian, Quad, Pow256;
    QuadIs(b, 0);
    QuadIs(b, 4);
    QuadIs(b, 8);
    QuadIs(b, 12);
    assert b[..8] == b[0..4] + b[4..8] && b[8..] == b[8..12] + b[12..16] && b == b[..8] + b[8..];
    BigEndianConcat(b[0..4], b[4..8]);
    BigEndianConcat(b[8..12], b[12..16]);
    BigEndianConcat(b[..8], b[8..]);
    Pow256Of8();
    Pow256Of4();
  }

  lemma Pow256Of4()
    ensures Pow256(4) == 0x1_0000_0000
  {
  }

  lemma V6Powers()
    ensures Pow2(0) == 1 && Pow2(32) == 0x1_0000_0000
    ensures Pow2(112) == 0x1_0000_0000_0000_0000_0000_0000_0000
    ensures Pow2(118) == 0x40_0000_0000_0000_0000_0000_0000_0000
    ensures Pow2(121) == 0x200_0000_0000_0000_0000_0000_0000_0000
  {
    hide Pow2;
    V4Powers();
    SmallPowers();
    Pow2Sum(16, 16);
    Pow2Sum(32, 32);
    Pow2Sum(64, 32);
    Pow2Sum(96, 16);
    Pow2Sum(112, 6);
    Pow2Sum(118, 3);
  }

  lemma SmallPowers()
    ensures Pow2(0) == 1 && Pow2(3) == 8 && Pow2(6) == 64
  {
  }

  lemma V6Spans(k: nat)
    requires k < 6
    ensures Spans(IPV6_BLOCKS[k], V6_RANGES[k], 16)
  {
    hide BigEndian, Pow2;
    V6Powers();
    BigEndian16(IPV6_BLOCKS[k].base);
  }

  lemma TableSixJudges(v6: Bytes)
    requires |v6| == 16
    ensures ForWidth(IPV6_BLOCKS, 16) && Judges(FirstBlock(IPV6_BLOCKS, v6), BigEndian(v6), V6_RANGES)
  {
    hide BigEndian, Pow2, FirstBlock, Spans, Judges;
    forall k: nat | k < 6 ensures Spans(IPV6_BLOCKS[k], V6_RANGES[k], 16) { V6Spans(k); }
    TableJudges(IPV6_BLOCKS, V6_RANGES, v6);
  }

  lemma NoColonNoAddress(s: string)
    requires ':' !in s
    ensures Ipv6Bytes(s).None?
  {
    var cut := CutZone(s);
    assert ':' !in cut;
    SplitPiece(cut, ':');
    assert Unmix(cut) == Some(cut) && FindDouble(cut, ':', 0) == None;
  }

  /** A text that stands for sixteen bytes holds a colon. */
  lemma HasColon(s: string)
    requires Ipv6Bytes(s).Some?
    ensures ':' in s
  {
    hide Ipv6Bytes;
    if ':' !in s { NoColonNoAddress(s); }
  }

  /**
   * An IPv6 address that is not a mapped one is refused exactly when its number lies in one of the six ranges, and
   * under that range's name.
   */
  lemma Ipv6Refused(s: string)
    requires Ipv4Bytes(s).None? && Ipv6Bytes(s).Some? && !IsV4Mapped(Ipv6Bytes(s).value)
    ensures Judges(IsBlocked(s), BigEndian(Ipv6Bytes(s).value), V6_RANGES)
  {
    hide Judges, FirstBlock, Ipv4Bytes, Ipv6Bytes;
    HasColon(s);
    TableSixJudges(Ipv6Bytes(s).value);
  }

  /** A mapped one is judged as the IPv4 address in its last four bytes. */
  lemma MappedRefused(s: string)
    requires Ipv4Bytes(s).None? && Ipv6Bytes(s).Some? && IsV4Mapped(Ipv6Bytes(s).value)
    ensures Judges(IsBlocked(s), BigEndian(Ipv6Bytes(s).value[12..]), V4_RANGES)
  {
    hide Judges, Verdict4, Ipv4Bytes, Ipv6Bytes;
    HasColon(s);
    Verdict4Judges(Ipv6Bytes(s).value[12..]);
  }

  /** What is no address at all is refused as that. */
  lemma NoAddressRefused(s: string)
    requires Ipv4Bytes(s).None? && Ipv6Bytes(s).None?
    ensures IsBlocked(s) == BlockResult(true, "not-an-ip")
  {
  }

  // ----- what the texts denote, and what a refusal says -----------------------------------------------------

  /** A group is one digit in base 65536: the number of a full address is that of its groups, first to last. */
  lemma GroupAppends(groups: seq<string>, g: string)
    requires AllGroups(groups) && IsGroup(g)
    ensures AllGroups(groups + [g])
    ensures BigEndian(GroupBytes(groups + [g])) == 0x1_0000 * BigEndian(GroupBytes(groups)) + HexValue(g)
  {
    HexValueBound(g);
    var n, front := HexValue(g), GroupBytes(groups);
    assert (groups + [g])[..|groups|] == groups;
    var all := front + [ByteOf(n / 256), ByteOf(n)];
    assert all[..|front| + 1] == front + [ByteOf(n / 256)] && (front + [ByteOf(n / 256)])[..|front|] == front;
  }

  /** A host counts as a literal exactly when it denotes an address of either kind. */
  lemma LiteralsAreAddresses(host: string)
    ensures IsIpLiteral(host) != 0 <==> Ipv4Bytes(host).Some? || Ipv6Bytes(host).Some?
  {
    hide Ipv4Bytes, Ipv6Bytes;
    if Ipv6Bytes(host).Some? { HasColon(host); }
  }

  /** The reason names the block of a refused literal, and of a name the block of the first answer that is refused. */
  lemma RefusalNamesBlock(host: string, lookup: Lookup, k: nat)
    requires host != ""
    ensures IsIpLiteral(host) != 0 && IsBlocked(host).blocked ==>
              Guard(host, lookup).reason == "target IP " + host + " is in blocked range " + IsBlocked(host).cidr
    ensures IsIpLiteral(host) == 0 && lookup.Threw? ==>
              Guard(host, lookup).reason == "DNS resolve failed for " + host + ": " + lookup.what
    ensures IsIpLiteral(host) == 0 && lookup.Answers? && k < |lookup.addresses|
            && IsBlocked(lookup.addresses[k]).blocked && (forall j | 0 <= j < k :: !IsBlocked(lookup.addresses[j]).blocked) ==>
              Guard(host, lookup).reason
              == "target " + host + " resolves to blocked range " + IsBlocked(lookup.addresses[k]).cidr
  {
    hide IsBlocked, IsIpLiteral, FirstRefused;
    if lookup.Answers? && k < |lookup.addresses|
       && IsBlocked(lookup.addresses[k]).blocked && (forall j | 0 <= j < k :: !IsBlocked(lookup.addresses[j]).blocked) {
      FirstRefusedIs(lookup.addresses, k);
    }
  }
}
