/** Which addresses src/common/ssrf.cpp refuses, and the guard built on that test. */
module Ssrf {
  import opened Common
  import opened Text
  import opened Cidr
  import opened Ipv4
  import opened Ipv6

  datatype Block = Block(cidr: string, base: Bytes, bits: nat)
  datatype BlockResult = BlockResult(blocked: bool, cidr: string)

  const IPV4_BLOCKS: seq<Block> := [
    Block("0.0.0.0/8", [0, 0, 0, 0], 8),
    Block("10.0.0.0/8", [10, 0, 0, 0], 8),
    Block("100.64.0.0/10", [100, 64, 0, 0], 10),
    Block("127.0.0.0/8", [127, 0, 0, 0], 8),
    Block("169.254.0.0/16", [169, 254, 0, 0], 16),
    Block("172.16.0.0/12", [172, 16, 0, 0], 12),
    Block("192.168.0.0/16", [192, 168, 0, 0], 16),
    Block("224.0.0.0/4", [224, 0, 0, 0], 4),
    Block("240.0.0.0/4", [240, 0, 0, 0], 4)
  ]

  const IPV6_BLOCKS: seq<Block> := [
    Block("::/128", [0, 0, 0, 0, 0, 0, 0, 0, 0, 0, 0, 0, 0, 0, 0, 0], 128),
    Block("::1/128", [0, 0, 0, 0, 0, 0, 0, 0, 0, 0, 0, 0, 0, 0, 0, 1], 128),
    Block("64:ff9b::/96", [0, 0x64, 0xff, 0x9b, 0, 0, 0, 0, 0, 0, 0, 0, 0, 0, 0, 0], 96),
    Block("2002::/16", [0x20, 0x02, 0, 0, 0, 0, 0, 0, 0, 0, 0, 0, 0, 0, 0, 0], 16),
    Block("fc00::/7", [0xfc, 0, 0, 0, 0, 0, 0, 0, 0, 0, 0, 0, 0, 0, 0, 0], 7),
    Block("fe80::/10", [0xfe, 0x80, 0, 0, 0, 0, 0, 0, 0, 0, 0, 0, 0, 0, 0, 0], 10)
  ]

  predicate ForWidth(blocks: seq<Block>, width: nat) {
    forall k | 0 <= k < |blocks| :: |blocks[k].base| == width && blocks[k].bits <= 8 * width
  }

  /** The first block of the table the address falls in. */
  function FirstBlock(blocks: seq<Block>, address: Bytes): BlockResult
    requires ForWidth(blocks, |address|)
  {
    if blocks == [] then BlockResult(false, "")
    else if SamePrefix(address, blocks[0].base, blocks[0].bits) then BlockResult(true, blocks[0].cidr)
    else FirstBlock(blocks[1..], address)
  }

  function Verdict4(v4: Bytes): BlockResult
    requires |v4| == 4
  {
    FirstBlock(IPV4_BLOCKS, v4)
  }

  /** A mapped address is judged as the IPv4 address inside it. */
  function Verdict6(v6: Bytes): BlockResult
    requires |v6| == 16
  {
    if IsV4Mapped(v6) then Verdict4(v6[12..]) else FirstBlock(IPV6_BLOCKS, v6)
  }

  function IsBlocked(ip: string): BlockResult {
    var v4 := Ipv4Bytes(ip);
    if v4.Some? then Verdict4(v4.value)
    else if ':' in ip && Ipv6Bytes(ip).Some? then Verdict6(Ipv6Bytes(ip).value)
    else BlockResult(true, "not-an-ip")
  }

  method ScanBlocks(blocks: seq<Block>, address: Bytes) returns (r: BlockResult)
    requires ForWidth(blocks, |address|)
    ensures r == FirstBlock(blocks, address)
  {
    var k := 0;
    assert blocks[0..] == blocks;
    while k < |blocks|
      invariant 0 <= k <= |blocks| && FirstBlock(blocks, address) == FirstBlock(blocks[k..], address)
    {
      var inside := InBlock(address, blocks[k].base, blocks[k].bits);
      if inside { return BlockResult(true, blocks[k].cidr); }
      k := k + 1;
    }
    r := BlockResult(false, "");
  }

  /** The mapped case prints the inner address and classifies the printed text, as the source does. */
  method IsBlockedIp(ip: string) returns (r: BlockResult)
    ensures r == IsBlocked(ip)
    decreases if Ipv4Bytes(ip).Some? then 0 else 1
  {
    hide FirstBlock, Ipv4Bytes, Ipv6Bytes;
    var is4, v4 := ParseIpv4(ip);
    if is4 {
      r := ScanBlocks(IPV4_BLOCKS, v4);
      return;
    }
    if ':' in ip {
      var is6, v6 := Ipv6ToBytes(ip);
      if is6 {
        var mapped := true;
        var i := 0;
        while i < 10
          invariant 0 <= i <= 10 && (mapped <==> forall k | 0 <= k < i :: v6[k] == 0)
        {
          if v6[i] != 0 { mapped := false; }
          i := i + 1;
        }
        if mapped && v6[10] == 0xff && v6[11] == 0xff {
          DottedRoundTrip(v6[12..]);
          r := IsBlockedIp(Dotted(v6[12..]));
          return;
        }
        r := ScanBlocks(IPV6_BLOCKS, v6);
        return;
      }
    }
    r := BlockResult(true, "not-an-ip");
  }

  // ----- the same address in other forms --------------------------------------------

  /** Writing an IPv4 address in mapped form changes neither the verdict nor the block named. */
  lemma MappedSameVerdict(s: string)
    requires Ipv4Bytes(s).Some?
    ensures IsBlocked("::ffff:" + s) == IsBlocked(s)
  {
    var ip := "::ffff:" + s;
    MappedBytes(s);
    assert ip[0] == ':';
    if Ipv4Bytes(ip).Some? { DottedQuadHasNoColon(ip); }
  }

  /** Compressing zero groups with `::` changes neither the verdict nor the block named. */
  lemma CompressedSameVerdict(head: seq<string>, tail: seq<string>)
    requires AllGroups(head) && AllGroups(tail) && |head| + |tail| <= 8
    ensures IsBlocked(Compressed(head, tail)) == IsBlocked(Join(head + Zeros(8 - |head| - |tail|) + tail, ':'))
  {
    var groups := head + Zeros(8 - |head| - |tail|) + tail;
    var short, full := Compressed(head, tail), Join(groups, ':');
    CompressedEqualsFull(head, tail);
    assert short[|Join(head, ':')|] == ':';
    assert full == groups[0] + [':'] + Join(groups[1..], ':') && full[|groups[0]|] == ':';
    if Ipv4Bytes(short).Some? { DottedQuadHasNoColon(short); }
    if Ipv4Bytes(full).Some? { DottedQuadHasNoColon(full); }
  }

  // ----- the guard -------------------------------------------------------------------

  /** What the resolver did: answered with a list of addresses, or threw. */
  datatype Lookup = Answers(addresses: seq<string>) | Threw(what: string)
  datatype GuardResult = GuardResult(ok: bool, reason: string, addresses: seq<string>)

  function IsIpLiteral(s: string): nat {
    if Ipv4Bytes(s).Some? then 4 else if ':' in s && Ipv6Bytes(s).Some? then 6 else 0
  }

  /** The first refused answer, or the number of answers. */
  function FirstRefused(answers: seq<string>): (k: nat)
    ensures k <= |answers|
  {
    if answers == [] || IsBlocked(answers[0]).blocked then 0 else 1 + FirstRefused(answers[1..])
  }

  lemma {:induction false} FirstRefusedIs(answers: seq<string>, k: nat)
    requires k <= |answers| && (forall j | 0 <= j < k :: !IsBlocked(answers[j]).blocked)
    requires k < |answers| ==> IsBlocked(answers[k]).blocked
    ensures FirstRefused(answers) == k
    decreases k
  {
    hide IsBlocked;
    if k > 0 {
      assert !IsBlocked(answers[0]).blocked;
      forall j | 0 <= j < k - 1 ensures !IsBlocked(answers[1..][j]).blocked { assert answers[1..][j] == answers[j + 1]; }
      FirstRefusedIs(answers[1..], k - 1);
    }
  }

  lemma {:induction false} FirstRefusedMeaning(answers: seq<string>)
    ensures var k := FirstRefused(answers);
            (forall j | 0 <= j < k :: !IsBlocked(answers[j]).blocked) && (k < |answers| ==> IsBlocked(answers[k]).blocked)
  {
    hide IsBlocked;
    if answers != [] && !IsBlocked(answers[0]).blocked {
      FirstRefusedMeaning(answers[1..]);
      var k := FirstRefused(answers);
      forall j | 0 <= j < k ensures !IsBlocked(answers[j]).blocked {
        if j > 0 { assert answers[1..][j - 1] == answers[j]; }
      }
    }
  }

  function Guard(host: string, lookup: Lookup): GuardResult {
    if host == "" then GuardResult(false, "empty host", [])
    else if IsIpLiteral(host) != 0 then
      var r := IsBlocked(host);
      if r.blocked then GuardResult(false, "target IP " + host + " is in blocked range " + r.cidr, [])
      else GuardResult(true, "", [host])
    else match lookup
      case Threw(what) => GuardResult(false, "DNS resolve failed for " + host + ": " + what, [])
      case Answers(answers) =>
        if answers == [] then GuardResult(false, "DNS resolve returned no address for " + host, [])
        else
          var k := FirstRefused(answers);
          if k < |answers| then
            GuardResult(false, "target " + host + " resolves to blocked range " + IsBlocked(answers[k]).cidr, [])
          else GuardResult(true, "", answers)
  }

  method GuardTarget(host: string, lookup: Lookup) returns (g: GuardResult)
    ensures g == Guard(host, lookup)
  {
    hide IsBlocked, IsIpLiteral, FirstRefused;
    if host == "" { return GuardResult(false, "empty host", []); }
    if IsIpLiteral(host) != 0 {
      var r := IsBlockedIp(host);
      if r.blocked {
        return GuardResult(false, "target IP " + host + " is in blocked range " + r.cidr, []);
      }
      return GuardResult(true, "", [host]);
    }
    if lookup.Threw? { return GuardResult(false, "DNS resolve failed for " + host + ": " + lookup.what, []); }
    var records := lookup.addresses;
    if records == [] { return GuardResult(false, "DNS resolve returned no address for " + host, []); }
    var addresses := [];
    var i := 0;
    while i < |records|
      invariant 0 <= i <= |records| && addresses == records[..i]
      invariant forall j | 0 <= j < i :: !IsBlocked(records[j]).blocked
    {
      var r := IsBlockedIp(records[i]);
      if r.blocked {
        FirstRefusedIs(records, i);
        return GuardResult(false, "target " + host + " resolves to blocked range " + r.cidr, []);
      }
      addresses := addresses + [records[i]];
      i := i + 1;
    }
    FirstRefusedIs(records, |records|);
    g := GuardResult(true, "", addresses);
  }

  /**
   * The guard passes exactly when the host is a literal that is not refused, or a name that resolved to a
   * non-empty list none of whose members is refused; it then returns that literal or that whole list.
   */
  lemma GuardPasses(host: string, lookup: Lookup)
    ensures var g := Guard(host, lookup);
            var candidates := if IsIpLiteral(host) != 0 then [host] else if lookup.Answers? then lookup.addresses else [];
            (g.ok <==> host != "" && candidates != [] && forall a | a in candidates :: !IsBlocked(a).blocked)
            && (g.ok ==> g.addresses == candidates)
  {
    hide IsBlocked, IsIpLiteral, FirstRefused;
    if host != "" && IsIpLiteral(host) == 0 && lookup.Answers? {
      var answers := lookup.addresses;
      FirstRefusedMeaning(answers);
      var k := FirstRefused(answers);
      if k < |answers| { assert answers[k] in answers; }
    }
  }
}
