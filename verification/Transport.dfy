/**
 * From the transition system to the byte stream: in a run with host names as long as a request head allows, every
 * message either end writes is one the WebSocket carries, so the logs of the model are what the other end reads.
 */
module Transport {
  import opened Common
  import opened Text
  import opened JsonText
  import opened JsonGrammar
  import opened MuxClient
  import opened MuxServer
  import opened MuxCross
  import opened Mux
  import P = Protocol
  import F = WsFrame
  import W = WsReceive
  import opened DataFrame
  import CI = MuxClientInv
  import SI = MuxServerInv
  import Ipv4
  import Ipv6
  import Ssrf

  // ----- the size of a text ------------------------------------------------------------------------

  /** A byte string of at most `n` bytes. */
  predicate Short(s: string, n: nat) {
    P.ByteText(s) && |s| <= n
  }

  lemma ShortConcat(a: string, m: nat, b: string, n: nat)
    requires Short(a, m) && Short(b, n)
    ensures Short(a + b, m + n)
  {
  }

  lemma ShortMore(s: string, m: nat, n: nat)
    requires Short(s, m) && m <= n
    ensures Short(s, n)
  {
  }

  lemma EscapedChar(c: char)
    requires c as int < 256
    ensures Short(EscapeChar(c), 6)
  {
  }

  lemma {:induction false} EscapeShort(s: string)
    requires P.ByteText(s)
    ensures Short(Escape(s), 6 * |s|)
  {
    hide EscapeChar;
    if s != "" {
      var front := s[..|s| - 1];
      assert forall k | 0 <= k < |front| :: front[k] == s[k];
      EscapeShort(front);
      EscapedChar(s[|s| - 1]);
      ShortConcat(Escape(front), 6 * |front|, EscapeChar(s[|s| - 1]), 6);
    }
  }

  lemma WordShort(n: nat)
    requires n < ID_LIMIT
    ensures Short(Decimal(n), 10)
  {
    assert Pow10(5) == 100000;
    assert Pow10(10) == 10000000000;
    DecimalWidth(n, 10);
    DecimalRoundTrip(n);
  }

  // ----- the size of a message ------------------------------------------------------------------------

  /** The longest request head the proxy reads, so the longest host it asks for. */
  const HEAD_LIMIT: nat := 64 * 1024
  /** Room for any reason or error the server words. */
  const REASON_LIMIT: nat := 4 * HEAD_LIMIT
  /** Room for one member of a message. */
  const MEMBER_LIMIT: nat := 6 * REASON_LIMIT + 32

  predicate MemberShort(m: Member) {
    Short(MemberText(m), MEMBER_LIMIT)
  }

  lemma FieldText(name: string, v: Value)
    requires Short(name, 16) && Short(ValueText(v), 6 * REASON_LIMIT + 2)
    ensures MemberShort(P.Field(name, v))
  {
    hide ValueText;
    assert MemberText(P.Field(name, v)) == "\"" + name + "\":" + ValueText(v);
    ShortConcat("\"", 1, name, 16);
    ShortConcat("\"" + name, 17, "\":", 2);
    ShortConcat("\"" + name + "\":", 19, ValueText(v), 6 * REASON_LIMIT + 2);
  }

  lemma QuotedText(body: string, n: nat)
    requires Short(body, n)
    ensures Short(ValueText(Str(body)), n + 2)
  {
    ShortConcat("\"", 1, body, n);
    ShortConcat("\"" + body, n + 1, "\"", 1);
  }

  lemma StringMember(name: string, s: string)
    requires Short(name, 16) && Short(s, REASON_LIMIT)
    ensures MemberShort(P.Field(name, Str(Escape(s))))
  {
    hide MemberShort, ValueText;
    EscapeShort(s);
    ShortMore(Escape(s), 6 * |s|, 6 * REASON_LIMIT);
    QuotedText(Escape(s), 6 * REASON_LIMIT);
    FieldText(name, Str(Escape(s)));
  }

  lemma PlainMember(name: string, s: string)
    requires Short(name, 16) && Short(s, 16)
    ensures MemberShort(P.Field(name, Str(s)))
  {
    hide MemberShort, ValueText;
    QuotedText(s, 16);
    FieldText(name, Str(s));
  }

  lemma NumberMember(name: string, n: nat)
    requires Short(name, 16) && n < ID_LIMIT
    ensures MemberShort(P.Field(name, Num(Decimal(n))))
  {
    hide MemberShort;
    WordShort(n);
    FieldText(name, Num(Decimal(n)));
  }

  lemma {:induction false} MembersShort(ms: seq<Member>, n: nat)
    requires ms != [] && |ms| <= n && forall k | 0 <= k < |ms| :: MemberShort(ms[k])
    ensures Short(MembersText(ms), n * (MEMBER_LIMIT + 1))
    decreases |ms|
  {
    hide MemberText;
    assert MemberShort(ms[0]);
    ShortConcat(MemberText(ms[0]), MEMBER_LIMIT, if |ms| == 1 then "}" else ",", 1);
    if |ms| > 1 {
      MembersShort(ms[1..], n - 1);
      ShortConcat(MemberText(ms[0]) + ",", MEMBER_LIMIT + 1, MembersText(ms[1..]), (n - 1) * (MEMBER_LIMIT + 1));
      assert MemberText(ms[0]) + ("," + MembersText(ms[1..])) == MemberText(ms[0]) + "," + MembersText(ms[1..]);
    }
  }

  lemma ObjectShort(ms: seq<Member>)
    requires ms != [] && |ms| <= 5 && forall k | 0 <= k < |ms| :: MemberShort(ms[k])
    ensures P.Sends(P.TextCarrier(ObjectText("", ms)))
  {
    hide MembersText, MemberShort;
    MembersShort(ms, 5);
    ShortConcat("{", 1, MembersText(ms), 5 * (MEMBER_LIMIT + 1));
    assert ObjectText("", ms) == "{" + MembersText(ms);
  }

  lemma IdMembers(type_: string, id: nat, more: seq<Member>)
    requires Short(type_, 16) && id < ID_LIMIT && |more| <= 3 && forall k | 0 <= k < |more| :: MemberShort(more[k])
    ensures P.Sends(P.TextCarrier(ObjectText("", P.IdFields(type_, id, more))))
  {
    hide MemberShort, ObjectText, P.Field;
    PlainMember("type", type_);
    NumberMember("sessionId", id);
    ObjectShort(P.IdFields(type_, id, more));
  }

  predicate HostFits(host: string) {
    Short(host, HEAD_LIMIT)
  }

  predicate ReasonFits(reason: string) {
    Short(reason, REASON_LIMIT)
  }

  predicate UpFits(m: Up) {
    m.id < ID_LIMIT && (m.Connect? ==> m.port < 65536 && HostFits(m.host))
  }

  predicate WordsFit(m: Down) {
    (m.Close? ==> ReasonFits(m.reason)) && (m.Error? ==> ReasonFits(m.message))
  }

  predicate DownFits(m: Down) {
    m.id < ID_LIMIT && WordsFit(m)
  }

  lemma ConnectIsSent(id: nat, host: string, port: nat)
    requires id < ID_LIMIT && port < 65536 && HostFits(host)
    ensures P.Sends(P.TextCarrier(ObjectText("", P.ConnectFields(id, host, port))))
  {
    hide MemberShort, ObjectText, P.Field, P.Sends;
    ShortMore(host, HEAD_LIMIT, REASON_LIMIT);
    StringMember("host", host);
    NumberMember("port", port);
    PlainMember("mode", P.MODE);
    IdMembers("connect", id,
              [P.Field("host", Str(Escape(host)))] + ([P.Field("port", Num(Decimal(port)))] + [P.Field("mode", Str(P.MODE))]));
  }

  lemma UpIsSent(m: Up)
    requires UpFits(m)
    ensures P.UpOk(m) && P.Sends(P.WriteUp(m))
  {
    hide ObjectText, P.IdFields, HostFits;
    match m
    case Connect(id, host, port) => ConnectIsSent(id, host, port);
    case UpData(_, _) =>
    case HalfClose(id) => IdMembers("half-close", id, []);
    case UpClose(id) => IdMembers("close", id, []);
  }

  lemma DownIsSent(m: Down)
    requires DownFits(m)
    ensures P.DownOk(m) && P.Sends(P.WriteDown(m))
  {
    hide ObjectText, P.IdFields, MemberShort, P.Field;
    match m
    case Connected(id) => IdMembers("connected", id, []);
    case DownData(_, _) =>
    case Close(id, reason) =>
      StringMember("reason", reason);
      IdMembers("close", id, [P.Field("reason", Str(Escape(reason)))]);
    case Error(id, message) =>
      StringMember("message", message);
      IdMembers("error", id, [P.Field("message", Str(Escape(message)))]);
  }

  // ----- what the server says ------------------------------------------------------------------------

  lemma {:induction false} BlockName(blocks: seq<Ssrf.Block>, address: Bytes)
    requires Ssrf.ForWidth(blocks, |address|) && forall k | 0 <= k < |blocks| :: Short(blocks[k].cidr, 16)
    ensures Short(Ssrf.FirstBlock(blocks, address).cidr, 16)
  {
    if blocks != [] {
      assert Short(blocks[0].cidr, 16);
      assert forall k | 0 <= k < |blocks[1..]| :: blocks[1..][k] == blocks[k + 1];
      BlockName(blocks[1..], address);
    }
  }

  lemma V4Named()
    ensures Ssrf.ForWidth(Ssrf.IPV4_BLOCKS, 4)
    ensures forall k | 0 <= k < |Ssrf.IPV4_BLOCKS| :: Short(Ssrf.IPV4_BLOCKS[k].cidr, 16)
  {
  }

  lemma V6Named()
    ensures Ssrf.ForWidth(Ssrf.IPV6_BLOCKS, 16)
    ensures forall k | 0 <= k < |Ssrf.IPV6_BLOCKS| :: Short(Ssrf.IPV6_BLOCKS[k].cidr, 16)
  {
  }

  lemma VerdictName(ip: string)
    ensures Short(Ssrf.IsBlocked(ip).cidr, 16)
  {
    hide Ssrf.FirstBlock, Ssrf.IPV4_BLOCKS, Ssrf.IPV6_BLOCKS, Ssrf.ForWidth, Ipv4.Ipv4Bytes, Ipv6.Ipv6Bytes;
    var v4, v6 := Ipv4.Ipv4Bytes(ip), Ipv6.Ipv6Bytes(ip);
    V4Named();
    V6Named();
    if v4.Some? {
      BlockName(Ssrf.IPV4_BLOCKS, v4.value);
    } else if ':' in ip && v6.Some? {
      BlockName(Ssrf.IPV4_BLOCKS, v6.value[12..]);
      BlockName(Ssrf.IPV6_BLOCKS, v6.value);
    }
  }

  /** What a resolver may say when it throws. */
  predicate LookupFits(lookup: Ssrf.Lookup) {
    lookup.Threw? ==> Short(lookup.what, HEAD_LIMIT)
  }

  lemma AroundFits(a: string, host: string, b: string, c: string)
    requires Short(a, 64) && HostFits(host) && Short(b, 64) && Short(c, HEAD_LIMIT)
    ensures ReasonFits(a + host + b + c)
  {
    ShortConcat(a, 64, host, HEAD_LIMIT);
    ShortConcat(a + host, 64 + HEAD_LIMIT, b, 64);
    ShortConcat(a + host + b, 128 + HEAD_LIMIT, c, HEAD_LIMIT);
    ShortMore(a + host + b + c, 128 + 2 * HEAD_LIMIT, REASON_LIMIT);
  }

  lemma LiteralReasonFits(host: string, lookup: Ssrf.Lookup)
    requires HostFits(host) && Ssrf.IsIpLiteral(host) != 0
    ensures ReasonFits(Ssrf.Guard(host, lookup).reason)
  {
    hide Ssrf.IsBlocked, Ssrf.IsIpLiteral, HostFits;
    VerdictName(host);
    ShortMore(Ssrf.IsBlocked(host).cidr, 16, HEAD_LIMIT);
    AroundFits("target IP ", host, " is in blocked range ", Ssrf.IsBlocked(host).cidr);
  }

  lemma ThrownReasonFits(host: string, what: string)
    requires HostFits(host) && Short(what, HEAD_LIMIT) && Ssrf.IsIpLiteral(host) == 0
    ensures ReasonFits(Ssrf.Guard(host, Ssrf.Threw(what)).reason)
  {
    hide Ssrf.IsBlocked, Ssrf.IsIpLiteral, HostFits;
    AroundFits("DNS resolve failed for ", host, ": ", what);
  }

  lemma AnsweredReasonFits(host: string, answers: seq<string>)
    requires HostFits(host) && Ssrf.IsIpLiteral(host) == 0
    ensures ReasonFits(Ssrf.Guard(host, Ssrf.Answers(answers)).reason)
  {
    hide Ssrf.IsBlocked, Ssrf.IsIpLiteral, Ssrf.FirstRefused, HostFits, Short, ReasonFits;
    NoneFits(host);
    if answers != [] {
      var k := Ssrf.FirstRefused(answers);
      if k < |answers| { RefusedFits(host, answers[k]); } else { EmptyFits(); }
    }
  }

  lemma EmptyFits()
    ensures ReasonFits("")
  {
  }

  lemma NoneFits(host: string)
    requires HostFits(host)
    ensures ReasonFits("DNS resolve returned no address for " + host) && ReasonFits("empty host")
  {
  }

  lemma RefusedFits(host: string, answer: string)
    requires HostFits(host)
    ensures ReasonFits("target " + host + " resolves to blocked range " + Ssrf.IsBlocked(answer).cidr)
  {
    hide Ssrf.IsBlocked, HostFits, ReasonFits;
    VerdictName(answer);
    ShortMore(Ssrf.IsBlocked(answer).cidr, 16, HEAD_LIMIT);
    AroundFits("target ", host, " resolves to blocked range ", Ssrf.IsBlocked(answer).cidr);
  }

  lemma GuardReasonFits(host: string, lookup: Ssrf.Lookup)
    requires HostFits(host) && LookupFits(lookup)
    ensures ReasonFits(Ssrf.Guard(host, lookup).reason)
  {
    hide Ssrf.IsIpLiteral, Ssrf.Guard, HostFits, ReasonFits;
    if Ssrf.IsIpLiteral(host) != 0 { LiteralReasonFits(host, lookup); }
    else if lookup.Threw? { ThrownReasonFits(host, lookup.what); }
    else { AnsweredReasonFits(host, lookup.addresses); }
  }

  // ----- every step keeps what is said within these limits ------------------------------------------

  predicate TargetFits(t: Target) {
    HostFits(t.host) && (t.release.Some? ==> ReasonFits(t.release.value.reason))
  }

  ghost predicate ServerFits(s: Server) {
    && (forall i | i in s.targets :: TargetFits(s.targets[i]))
    && (forall k | 0 <= k < |s.down| :: WordsFit(s.down[k]))
    && (s.handler.Checked? ==> HostFits(s.handler.host))
  }

  lemma SetFits(s: Server, i: Id, t: Target)
    requires ServerFits(s) && TargetFits(t)
    ensures ServerFits(Set(s, i, t))
  {
    hide TargetFits, WordsFit, HostFits;
  }

  lemma SendFits(s: Server, m: Down)
    requires ServerFits(s) && WordsFit(m)
    ensures ServerFits(Send(s, m))
  {
    hide TargetFits, WordsFit, HostFits;
  }

  lemma SaysFits(s: Server, i: Id, message: string)
    requires ServerFits(s) && ReasonFits(message)
    ensures ServerFits(Send(s, MuxClient.Error(i, message))) && ServerFits(Send(s, MuxClient.Close(i, message)))
    ensures ServerFits(Send(s, MuxClient.Connected(i)))
  {
    hide ServerFits, ReasonFits;
    SendFits(s, MuxClient.Error(i, message));
    SendFits(s, MuxClient.Close(i, message));
    SendFits(s, MuxClient.Connected(i));
  }

  lemma CloseFits(s: Server, i: Id, reason: string, notify: bool)
    requires ServerFits(s) && s.live <= s.targets.Keys && ReasonFits(reason)
    ensures ServerFits(BeginClose(s, i, reason, notify))
  {
    hide WordsFit, HostFits, ReasonFits;
  }

  lemma CheckFits(s: Server, i: Id, host: string, port: nat)
    requires ServerFits(s) && HostFits(host)
    ensures ServerFits(ConnectCheck(s, i, host, port))
  {
    hide Send, ServerFits, HostFits, ReasonFits;
    RefusalsFit();
    SaysFits(s, i, "duplicate sessionId");
    SaysFits(s, i, "per-connection session limit reached");
    CheckedFits(s, i, host, port);
  }

  lemma RefusalsFit()
    ensures ReasonFits("duplicate sessionId") && ReasonFits("per-connection session limit reached")
  {
  }

  lemma CheckedFits(s: Server, i: Id, host: string, port: nat)
    requires ServerFits(s) && HostFits(host)
    ensures ServerFits(s.(handler := Checked(i, host, port)))
  {
    hide TargetFits, WordsFit, HostFits;
  }

  lemma DataFits(s: Server, i: Id, payload: Bytes, taken: nat)
    requires ServerFits(s) && s.live <= s.targets.Keys && taken <= |payload|
    ensures ServerFits(HandleData(s, i, payload, taken))
  {
    hide BeginClose, ServerFits, HostFits;
    if !s.closed && i in s.live {
      RecordFits(s, i);
      var s1 := Set(s, i, s.targets[i].(written := s.targets[i].written + payload[..taken]));
      SetFits(s, i, s1.targets[i]);
      CloseFits(s1, i, "target write failed", true);
    }
  }

  lemma RecordFits(s: Server, i: Id)
    requires ServerFits(s) && i in s.targets
    ensures TargetFits(s.targets[i]) && HostFits(s.targets[i].host)
  {
    hide WordsFit, HostFits, ReasonFits;
  }

  lemma HandleUpFits(s: Server, m: Up, taken: nat)
    requires ServerFits(s) && s.live <= s.targets.Keys && UpFits(m) && (m.UpData? ==> taken <= |m.payload|)
    ensures ServerFits(HandleUp(s, m, taken))
  {
    hide ServerFits, ConnectCheck, HandleData, BeginClose, HostFits;
    match m
    case Connect(i, host, port) => CheckFits(s, i, host, port);
    case UpData(i, payload) => DataFits(s, i, payload, taken);
    case HalfClose(i) =>
      if !s.closed && i in s.live {
        RecordFits(s, i);
        SetFits(s, i, s.targets[i].(uplinkClosed := true, finSent := s.targets[i].finSent || s.targets[i].socket.Live?));
      }
    case UpClose(i) => CloseFits(s, i, "client closed", false);
  }

  lemma HandlerMoves(s: Server, h: Handler)
    requires ServerFits(s) && !h.Checked?
    ensures ServerFits(s.(handler := h))
  {
    hide TargetFits, WordsFit, HostFits;
  }

  /** What is in the map, the flags and the dials say nothing. */
  lemma SameWords(s: Server, s': Server)
    requires ServerFits(s) && s'.targets == s.targets && s'.down == s.down
    requires s'.handler == s.handler || !s'.handler.Checked?
    ensures ServerFits(s')
  {
    hide TargetFits, WordsFit, HostFits;
  }

  lemma InsertFits(s: Server)
    requires ServerFits(s) && s.handler.Checked?
    ensures ServerFits(Insert(s))
  {
    hide WordsFit, HostFits, ReasonFits;
  }

  lemma GuardFits(s: Server, lookup: Ssrf.Lookup)
    requires ServerFits(s) && s.handler.Inserted? && s.handler.id in s.targets && LookupFits(lookup)
    ensures ServerFits(GuardPhase(s, lookup))
  {
    hide Ssrf.Guard, ServerFits, HostFits, ReasonFits, LookupFits, Send;
    var i := s.handler.id;
    RecordFits(s, i);
    var guard := Ssrf.Guard(s.targets[i].host, lookup);
    GuardReasonFits(s.targets[i].host, lookup);
    SaysFits(s, i, guard.reason);
    HandlerMoves(Send(s, MuxClient.Error(i, guard.reason)), Failing(i));
    SameWords(s, s.(live := s.live - {i}, handler := Idle));
    if !s.closed && guard.ok { SameWords(s, GuardPhase(s, lookup)); }
  }

  lemma DialFits(s: Server, connected: bool)
    requires ServerFits(s) && s.handler.Resolved? && s.handler.id in s.targets
    ensures ServerFits(DialPhase(s, connected))
  {
    hide ServerFits, HostFits, ReasonFits, Send;
    var i := s.handler.id;
    var s1 := s.(dials := s.dials + [s.handler.dial]);
    SameWords(s, s1);
    RecordFits(s, i);
    if connected {
      SetFits(s1, i, s.targets[i].(socket := Live));
      HandlerMoves(Set(s1, i, s.targets[i].(socket := Live)), Handler.Dialed(i));
    } else {
      DialWordsFit();
      SaysFits(s1, i, "target socket error: connect failed");
      HandlerMoves(Send(s1, MuxClient.Error(i, "target socket error: connect failed")), Failing(i));
    }
  }

  lemma DialWordsFit()
    ensures ReasonFits("target socket error: connect failed")
  {
  }

  /** A change of one record that keeps its host and its release. */
  lemma RecordChanges(s: Server, i: Id, t: Target, h: Handler)
    requires ServerFits(s) && i in s.targets && t.host == s.targets[i].host && t.release == s.targets[i].release
    requires !h.Checked?
    ensures ServerFits(Set(s, i, t)) && ServerFits(Set(s, i, t).(handler := h))
  {
    hide ServerFits, HostFits, ReasonFits;
    RecordFits(s, i);
    SetFits(s, i, t);
    HandlerMoves(Set(s, i, t), h);
  }

  lemma HandlerStepFits(s: Server, a: Action)
    requires ServerFits(s) && HandlerEnabled(s, a) && (a.GuardReturns? ==> LookupFits(a.lookup))
    ensures ServerFits(HandlerStep(s, a))
  {
    hide ServerFits, LookupFits, GuardPhase, DialPhase, Send;
    var i := s.handler.id;
    match a
    case Inserts => InsertFits(s);
    case GuardReturns(lookup) => GuardFits(s, lookup);
    case DialReturns(connected) => DialFits(s, connected);
    case Fails => SameWords(s, FailPhase(s));
    case Publishes =>
      RecordChanges(s, i, s.targets[i].(socket := Socket.Released), Idle);
      RecordChanges(s, i, s.targets[i].(published := true), Published(i));
    case Announces =>
      SendFits(s, MuxClient.Connected(i));
      SI.SendFrame(s, MuxClient.Connected(i));
      RecordChanges(Send(s, MuxClient.Connected(i)), i, s.targets[i].(announcedAt := NextAt(s)), Handler.Announced(i));
    case StartsReader => RecordChanges(s, i, s.targets[i].(reader := MuxServer.Waiting), Idle);
  }

  lemma ReleaseFits(s: Server, i: Id)
    requires ServerFits(s) && i in s.targets && s.targets[i].release.Some?
    ensures ServerFits(ReleaseStep(s, i))
  {
    hide ServerFits, HostFits, ReasonFits, Send;
    RecordFits(s, i);
    var t := s.targets[i];
    match t.release.value
    case CloseSocket(notify, reason) =>
      SetFits(s, i, t.(socket := if t.socket.Live? then Socket.Released else t.socket,
                       release := if notify then Some(Notify(reason)) else None));
    case Notify(reason) =>
      SaysFits(s, i, reason);
      SetFits(Send(s, MuxClient.Close(i, reason)), i, t.(release := None, closeAt := NextAt(s)));
  }

  lemma ClearFits(s: Server)
    requires ServerFits(s) && ReasonFits("manager stopped")
    ensures ServerFits(ClearAll(s))
  {
    hide WordsFit, HostFits, ReasonFits;
  }

  lemma EndingsFit()
    ensures ReasonFits("idle timeout") && ReasonFits("manager stopped") && ReasonFits(TARGET_CLOSED)
  {
  }

  lemma ReaderEndingsFit()
    ensures ReasonFits("target idle timeout") && ReasonFits("wss send failed") && ReasonFits("wss closed")
  {
  }

  lemma ManagerStepFits(s: Server, a: Action)
    requires ServerFits(s) && s.live <= s.targets.Keys && ManagerEnabled(s, a)
    ensures ServerFits(ManagerStep(s, a))
  {
    hide ServerFits, ReasonFits, BeginClose, ReleaseStep, ClearAll;
    EndingsFit();
    match a
    case Sweeps(i) => CloseFits(s, i, "idle timeout", true);
    case Releases(i) => ReleaseFits(s, i);
    case Stops => SameWords(s, RaiseStopped(s));
    case Closes => SameWords(s, RaiseClosed(s));
    case Clears => ClearFits(s);
    case ServerLinkFails(broken) => SameWords(s, s.(link := Mux.Failed(broken)));
  }

  lemma ReaderSendFits(s: Server, i: Id)
    requires ServerFits(s) && i in s.targets && s.targets[i].reader.Holding? && s.live <= s.targets.Keys
    ensures ServerFits(ReaderSend(s, i))
  {
    hide ServerFits, ReasonFits, BeginClose, Send;
    ReaderEndingsFit();
    var t := s.targets[i];
    RecordChanges(s, i, t.(reader := MuxServer.Waiting), Idle);
    RecordChanges(s, i, t.(reader := MuxServer.Done), Idle);
    match s.link
    case Healthy => SendFits(Set(s, i, t.(reader := MuxServer.Waiting)), MuxClient.DownData(i, t.reader.chunk));
    case Broken => CloseFits(Set(s, i, t.(reader := MuxServer.Done)), i, "wss send failed", false);
    case Shut => CloseFits(Set(s, i, t.(reader := MuxServer.Done)), i, "wss closed", false);
  }

  lemma ReaderEndFits(s: Server, i: Id, reason: string)
    requires ServerFits(s) && i in s.targets && s.live <= s.targets.Keys && ReasonFits(reason)
    ensures ServerFits(ReaderEnd(s, i, reason))
  {
    hide ServerFits, ReasonFits, BeginClose;
    RecordChanges(s, i, s.targets[i].(reader := MuxServer.Done), Idle);
    CloseFits(ReaderExit(s, i), i, reason, true);
  }

  lemma ReaderStepFits(s: Server, a: Action)
    requires ServerFits(s) && s.live <= s.targets.Keys && ReaderEnabled(s, a)
    ensures ServerFits(ReaderStep(s, a))
  {
    hide ServerFits, ReasonFits, BeginClose, ReaderSend, ReaderEnd;
    EndingsFit();
    ReaderEndingsFit();
    match a
    case TargetSends(i, bytes) => RecordChanges(s, i, TargetSend(s, i, bytes).targets[i], Idle);
    case TargetEnds(i) => RecordChanges(s, i, s.targets[i].(peerClosed := true), Idle);
    case ReaderTakes(i, n) => RecordChanges(s, i, ReaderTake(s, i, n).targets[i], Idle);
    case ReaderSends(i) => ReaderSendFits(s, i);
    case ReaderAtEof(i) => ReaderEndFits(s, i, TARGET_CLOSED);
    case ReaderIdles(i) => ReaderEndFits(s, i, "target idle timeout");
    case ReaderExits(i) => RecordChanges(s, i, s.targets[i].(reader := MuxServer.Done), Idle);
  }

  // ----- and what the client says -----------------------------------------------------------------------

  /** Session ids, ports and hosts as the tunnel and the proxy produce them, and what a resolver may say. */
  predicate Sane(a: Action) {
    match a
    case OpenStep(i, host, port, _) => 1 <= i < ID_LIMIT - 1 && port < 65536 && HostFits(host)
    case GuardReturns(lookup) => LookupFits(lookup)
    case _ => true
  }

  ghost predicate ClientFits(c: Client) {
    forall k | 0 <= k < |c.up| :: UpFits(c.up[k])
  }

  /** Every message belongs to a session whose connect was written, so connects are all there is to look at. */
  lemma ConnectsDecide(c: Client, c': Client)
    requires CI.Inv(c') && ClientFits(c) && c.up <= c'.up
    requires forall k | |c.up| <= k < |c'.up| :: c'.up[k].Connect? ==> UpFits(c'.up[k])
    ensures ClientFits(c')
  {
    hide UpFits, CI.BytesOk, CI.FlagsOk;
    forall k | 0 <= k < |c'.up| ensures UpFits(c'.up[k]) {
      if k < |c.up| {
        assert c'.up[k] == c.up[k];
      } else if !c'.up[k].Connect? {
        assert CI.UpOk(c', k) && CI.SessionOk(c', c'.up[k].id);
        var at := c'.sess[c'.up[k].id].openAt;
        if at < |c.up| { assert c'.up[at] == c.up[at]; }
        SameId(c'.up[at], c'.up[k]);
      }
    }
  }

  lemma SameId(m: Up, n: Up)
    requires UpFits(m) && n.id == m.id && !n.Connect?
    ensures UpFits(n)
  {
  }

  lemma NoNewConnect(c: Client, c': Client, i: Id)
    requires CI.OwnStep(c, c', i) && CI.SessionOk(c, i) && forall k | |c.up| <= k < |c'.up| :: CI.UpOk(c', k)
    ensures forall k | |c.up| <= k < |c'.up| :: !c'.up[k].Connect?
  {
    hide CI.BytesOk, CI.FlagsOk;
    forall k | |c.up| <= k < |c'.up| ensures !c'.up[k].Connect? { assert CI.UpOk(c', k) && c'.up[k].id == i; }
  }

  lemma ReceiveAdds(c: Client, m: Down)
    requires CI.Inv(c)
    ensures c.live <= c.sess.Keys
    ensures var c' := Receive(c, m); c.up <= c'.up && forall k | |c.up| <= k < |c'.up| :: !c'.up[k].Connect?
  {
    hide CI.SessionOk, CI.UpOk, CI.OwnStep, ProxyOpened;
    if m.id in c.live && m.Connected? && c.sess[m.id].state == Connecting {
      CI.InvSession(c, m.id);
      CI.OpenedKeeps(c, m.id);
      NoNewConnect(c, Receive(c, m), m.id);
      LongerUp(c, Receive(c, m), m.id);
    }
  }

  lemma LongerUp(c: Client, c': Client, i: Id)
    requires CI.OwnStep(c, c', i)
    ensures c.up <= c'.up
  {
  }

  lemma ProxyAdds(c: Client, a: Action)
    requires CI.Inv(c) && ClientEnabled(c, a) && ProxyStep(a)
    ensures var c' := ClientStep(c, a); c.up <= c'.up && forall k | |c.up| <= k < |c'.up| :: !c'.up[k].Connect?
  {
    hide CI.SessionOk, CI.UpOk, CI.OwnStep, ClientStep;
    ProxyStepLocal(c, a);
    LocalFacts(c, ClientStep(c, a), a.id);
    LongerUp(c, ClientStep(c, a), a.id);
    CI.InvSession(c, a.id);
    NoNewConnect(c, ClientStep(c, a), a.id);
  }

  lemma OpenAdds(c: Client, a: Action)
    requires ClientEnabled(c, a) && !ProxyStep(a) && Sane(a)
    ensures var c' := ClientStep(c, a);
            c.up <= c'.up && forall k | |c.up| <= k < |c'.up| :: c'.up[k].Connect? ==> UpFits(c'.up[k])
  {
    hide PumpRead, PumpEof, PumpStop, ProxyExit, HostFits;
  }

  // ----- every run ---------------------------------------------------------------------------------------

  ghost predicate Fit(z: Conn) {
    ClientFits(z.c) && ServerFits(z.s)
  }

  /** A step adds to the upstream, and a connect only when the tunnel opens a session. */
  lemma StepAdds(z: Conn, a: Action)
    requires Inv(z) && Sane(a)
    ensures var c, c' := z.c, Step(z, a).c;
            c.up <= c'.up && forall k | |c.up| <= k < |c'.up| :: c'.up[k].Connect? ==> UpFits(c'.up[k])
  {
    hide CI.Inv, SI.Inv, ClientStep, HandlerStep, ManagerStep, ReaderStep, Receive, HandleUp, UpFits, Sane;
    if Enabled(z, a) {
      if a.ClientReceives? { ReceiveAdds(z.c, z.s.down[z.downRead]); }
      else if !a.ServerReads? && ClientEnabled(z.c, a) {
        if ProxyStep(a) { ProxyAdds(z.c, a); } else { OpenAdds(z.c, a); }
      }
    }
  }

  lemma StepFitsServer(z: Conn, a: Action)
    requires Inv(z) && Fit(z) && Sane(a)
    ensures ServerFits(Step(z, a).s)
  {
    hide CI.Inv, SI.Inv, ClientStep, HandlerStep, ManagerStep, ReaderStep, Receive, HandleUp, UpFits, ServerFits;
    if Enabled(z, a) && !a.ClientReceives? {
      if a.ServerReads? { HandleUpFits(z.s, z.c.up[z.upRead], a.taken); }
      else if !ClientEnabled(z.c, a) {
        if HandlerEnabled(z.s, a) { HandlerStepFits(z.s, a); }
        else if ManagerEnabled(z.s, a) { ManagerStepFits(z.s, a); }
        else { ReaderStepFits(z.s, a); }
      }
    }
  }

  lemma {:induction false} RunFits(maxSessions: nat, actions: seq<Action>)
    requires forall a | a in actions :: Sane(a)
    ensures Fit(Run(maxSessions, actions))
  {
    hide Step, Inv, Sane, ClientFits, ServerFits;
    if actions == [] {
      StartFits(maxSessions);
    } else {
      var before, a := actions[..|actions| - 1], actions[|actions| - 1];
      var z := Run(maxSessions, before);
      RunFits(maxSessions, before);
      RunHolds(maxSessions, before);
      StepAdds(z, a);
      StepKeeps(z, a);
      Parts(Step(z, a));
      ConnectsDecide(z.c, Step(z, a).c);
      StepFitsServer(z, a);
    }
  }

  lemma StartFits(maxSessions: nat)
    ensures ClientFits(Start(maxSessions).c) && ServerFits(Start(maxSessions).s)
  {
  }

  /** A message from the server belongs to a session whose connect was written. */
  lemma DownIdFits(z: Conn, k: nat)
    requires Inv(z) && ClientFits(z.c) && k < |z.s.down|
    ensures z.s.down[k].id < ID_LIMIT
  {
    hide CI.Inv, SI.Inv, CI.BytesOk, CI.FlagsOk, CrossOk;
    Parts(z);
    DownFacts(z.s, k);
    var i := z.s.down[k].id;
    CI.InvSession(z.c, i);
    assert UpFits(z.c.up[z.c.sess[i].openAt]);
  }

  /**
   * In a run whose session ids, ports and hosts are the tunnel's and the proxy's, the WebSocket carries every message
   * the client writes: a stream of frames for the whole log is read at the other end as that log.
   */
  lemma UpstreamArrives(maxSessions: nat, actions: seq<Action>, ws: seq<F.Wire>)
    requires forall a | a in actions :: Sane(a)
    ensures var up := Run(maxSessions, actions).c.up;
            && P.AllUp(up)
            && (W.Frames(ws) == W.OpsFrames(P.UpOps(up)) ==>
                  && F.Sendable(ws)
                  && var es := W.Consume(W.Fresh(), F.EncodeAll(ws)).events;
                     |es| == |up| + 1
                     && forall k | 0 <= k < |up| :: es[k].Received? && P.ReadUp(P.Handled(es[k].message)) == Some(up[k]))
  {
    hide Run, W.OpsFrames, F.EncodeAll, W.Consume, P.WriteUp, P.ReadUp, P.UpOps, P.Sends, Sane, ServerFits, UpFits;
    RunFits(maxSessions, actions);
    var up := Run(maxSessions, actions).c.up;
    forall k | 0 <= k < |up| ensures P.UpOk(up[k]) && P.Sends(P.WriteUp(up[k])) { UpIsSent(up[k]); }
    if W.Frames(ws) == W.OpsFrames(P.UpOps(up)) { P.UpstreamIsFifo(up, ws); }
  }

  /** The same for every message the server writes. */
  lemma DownstreamArrives(maxSessions: nat, actions: seq<Action>, ws: seq<F.Wire>)
    requires forall a | a in actions :: Sane(a)
    ensures var down := Run(maxSessions, actions).s.down;
            && P.AllDown(down)
            && (W.Frames(ws) == W.OpsFrames(P.DownOps(down)) ==>
                  && F.Sendable(ws)
                  && var es := W.Consume(W.Fresh(), F.EncodeAll(ws)).events;
                     |es| == |down| + 1
                     && forall k | 0 <= k < |down| :: es[k].Received? && P.ReadDown(P.Handled(es[k].message)) == Some(down[k]))
  {
    hide Run, Inv, W.OpsFrames, F.EncodeAll, W.Consume, P.WriteDown, P.ReadDown, P.DownOps, P.Sends, Sane, ClientFits, WordsFit;
    RunFits(maxSessions, actions);
    RunHolds(maxSessions, actions);
    var z := Run(maxSessions, actions);
    forall k | 0 <= k < |z.s.down| ensures P.DownOk(z.s.down[k]) && P.Sends(P.WriteDown(z.s.down[k])) {
      DownIdFits(z, k);
      DownIsSent(z.s.down[k]);
    }
    if W.Frames(ws) == W.OpsFrames(P.DownOps(z.s.down)) { P.DownstreamIsFifo(z.s.down, ws); }
  }
}
