/**
 * The messages as docs/protocol.md sets them, with white space between their parts, and what each end reads in them for
 * every id, host, port and plain text.
 */
module Documented {
  import opened Common
  import opened Text
  import opened JsonText
  import opened JsonGrammar
  import opened Messages
  import opened DataFrame
  import opened Protocol
  import MuxClient

  // ----- texts --------------------------------------------------------------------------------------

  /** One member: `"name": value` behind its white space. */
  function Named(w: string, name: string, value: string): string {
    w + "\"" + name + "\": " + value
  }

  function Quoted(s: string): string {
    "\"" + s + "\""
  }

  /** `{ "type": T, "sessionId": I`, the part every message starts with. */
  function TypeAndId(w: string, type_: string, id: nat): string {
    "{" + Named(w, "type", Quoted(type_)) + "," + Named(w, "sessionId", Decimal(id))
  }

  /** The end of a message behind its last member. */
  function Ended(z: string): string {
    z + "}"
  }

  // ----- building them up -----------------------------------------------------------------------------

  function Placed(w: string, name: string, v: Value): Member {
    Member(w, name, "", " ", v, "")
  }

  /** An object text still open that denotes `o`. */
  ghost predicate Denotes(text: string, ms: seq<Member>, o: JsonObject) {
    && ms != [] && MembersOk(ms) && !ms[|ms| - 1].value.Literal?
    && text == "{" + Joined(ms) && Denote(ms, map[]) == o
  }

  lemma PlacedIs(w: string, name: string, v: Value)
    requires Spaces(w) && PlainName(name) && ValueOk(v)
    ensures MemberOk(Placed(w, name, v)) && Meaning(name) == name
    ensures MemberText(Placed(w, name, v)) == Named(w, name, ValueText(v))
  {
    hide Raw, ValueText, Meaning;
    PlainRaw(name);
    assert "\":" + " " == "\": ";
  }

  lemma Alone(m: Member, out: JsonObject)
    requires MemberOk(m)
    ensures MembersOk([m]) && Denote([m], out) == out[Meaning(m.key) := ValueOf(m.value)] && Joined([m]) == MemberText(m)
  {
    hide MemberText, MemberOk, Meaning, ValueOf;
    assert [m][1..] == [];
  }

  lemma First(w: string, name: string, v: Value)
    requires Spaces(w) && PlainName(name) && ValueOk(v) && !v.Literal?
    ensures Denotes("{" + Named(w, name, ValueText(v)), [Placed(w, name, v)], map[name := ValueOf(v)])
  {
    hide MemberText, MemberOk, Meaning, ValueOf, ValueText, Named, Denote, Joined;
    PlacedIs(w, name, v);
    Alone(Placed(w, name, v), map[]);
  }

  lemma Next(text: string, ms: seq<Member>, o: JsonObject, w: string, name: string, v: Value)
    requires Denotes(text, ms, o) && Spaces(w) && PlainName(name) && ValueOk(v) && !v.Literal?
    ensures Denotes(text + "," + Named(w, name, ValueText(v)), ms + [Placed(w, name, v)], o[name := ValueOf(v)])
  {
    hide MemberText, MemberOk, Meaning, ValueOf, ValueText, Named, Denote, Joined;
    var m := Placed(w, name, v);
    PlacedIs(w, name, v);
    Alone(m, o);
    DenoteConcat(ms, [m], map[]);
    JoinedSnoc(ms, m);
    assert "{" + Joined(ms) + "," + MemberText(m) == "{" + (Joined(ms) + "," + MemberText(m));
  }

  lemma LastSpace(m: Member, z: string)
    requires MemberOk(m) && Spaces(z) && m.w3 == ""
    ensures MemberOk(m.(w3 := z)) && MemberText(m.(w3 := z)) == MemberText(m) + z
  {
  }

  lemma LastSpaces(ms: seq<Member>, z: string)
    requires ms != [] && MembersOk(ms) && Spaces(z) && ms[|ms| - 1].w3 == ""
    ensures var ms' := ms[..|ms| - 1] + [ms[|ms| - 1].(w3 := z)];
            MembersOk(ms') && Joined(ms') == Joined(ms) + z && Denote(ms', map[]) == Denote(ms, map[])
  {
    hide MemberText, MemberOk, Meaning, ValueOf, Denote, Joined;
    var front, m := ms[..|ms| - 1], ms[|ms| - 1];
    var m' := m.(w3 := z);
    assert ms == front + [m];
    LastSpace(m, z);
    DenoteConcat(front, [m], map[]);
    DenoteConcat(front, [m'], map[]);
    Alone(m, Denote(front, map[]));
    Alone(m', Denote(front, map[]));
    if front == [] {
      assert front + [m] == [m] && front + [m'] == [m'];
    } else {
      JoinedSnoc(front, m);
      JoinedSnoc(front, m');
    }
  }

  /** The whole text parses to the object. */
  lemma Whole(text: string, ms: seq<Member>, o: JsonObject, z: string)
    requires Denotes(text, ms, o) && ms[|ms| - 1].w3 == "" && Spaces(z)
    requires "type" in o && o["type"].JStr? && o["type"].str != ""
    ensures ParseControl(text + Ended(z)) == Some(o)
  {
    hide MemberOk, Denote, Joined, ParseObject, ObjectText;
    var ms' := ms[..|ms| - 1] + [ms[|ms| - 1].(w3 := z)];
    LastSpaces(ms, z);
    assert text + z == "{" + Joined(ms');
    Close(text + z, ms');
    assert text + Ended(z) == text + z + "}";
    ParsesExactly("", ms');
  }

  // ----- the messages ---------------------------------------------------------------------------------

  lemma Start(w: string, type_: string, id: nat)
    requires Spaces(w) && PlainName(type_)
    ensures Denotes(TypeAndId(w, type_, id),
                    [Placed(w, "type", Str(type_))] + [Placed(w, "sessionId", Num(Decimal(id)))],
                    map["type" := JStr(type_)]["sessionId" := JNum(Decimal(id))])
  {
    hide Denotes, Decimal, Raw, Meaning, Named;
    NameOk(type_);
    NumberValue(id);
    First(w, "type", Str(type_));
    Next("{" + Named(w, "type", Quoted(type_)), [Placed(w, "type", Str(type_))], map["type" := JStr(type_)],
         w, "sessionId", Num(Decimal(id)));
  }

  lemma IdAloneParses(w: string, z: string, type_: string, id: nat)
    requires Spaces(w) && Spaces(z) && PlainName(type_) && type_ != ""
    ensures ParseControl(TypeAndId(w, type_, id) + Ended(z))
         == Some(map["type" := JStr(type_)]["sessionId" := JNum(Decimal(id))])
  {
    hide Denotes, Decimal, TypeAndId, ParseControl, Ended, Spaces, PlainName;
    Start(w, type_, id);
    Whole(TypeAndId(w, type_, id), [Placed(w, "type", Str(type_))] + [Placed(w, "sessionId", Num(Decimal(id)))],
          map["type" := JStr(type_)]["sessionId" := JNum(Decimal(id))], z);
  }

  lemma WithTextParses(w: string, z: string, type_: string, id: nat, name: string, s: string)
    requires Spaces(w) && Spaces(z) && PlainName(type_) && type_ != "" && PlainName(name) && PlainName(s) && name != "type"
    ensures ParseControl(TypeAndId(w, type_, id) + "," + Named(w, name, Quoted(s)) + Ended(z))
         == Some(map["type" := JStr(type_)]["sessionId" := JNum(Decimal(id))][name := JStr(s)])
  {
    hide Denotes, Decimal, TypeAndId, ParseControl, Ended, Spaces, PlainName, Raw, Meaning, Named;
    var ms := [Placed(w, "type", Str(type_))] + [Placed(w, "sessionId", Num(Decimal(id)))];
    var o: JsonObject := map["type" := JStr(type_)]["sessionId" := JNum(Decimal(id))];
    Start(w, type_, id);
    NameOk(s);
    Next(TypeAndId(w, type_, id), ms, o, w, name, Str(s));
    Whole(TypeAndId(w, type_, id) + "," + Named(w, name, Quoted(s)), ms + [Placed(w, name, Str(s))], o[name := JStr(s)], z);
  }

  /** `connected`, `half-close` and `close`; a server's close without a reason reads as "server closed". */
  lemma ShortMessages(w: string, z: string, id: Word)
    requires Spaces(w) && Spaces(z)
    ensures ReadDown(TextCarrier(TypeAndId(w, "connected", id) + Ended(z))) == Some(MuxClient.Connected(id))
    ensures ReadUp(TextCarrier(TypeAndId(w, "half-close", id) + Ended(z))) == Some(MuxClient.HalfClose(id))
    ensures ReadUp(TextCarrier(TypeAndId(w, "close", id) + Ended(z))) == Some(MuxClient.UpClose(id))
    ensures ReadDown(TextCarrier(TypeAndId(w, "close", id) + Ended(z))) == Some(MuxClient.Close(id, "server closed"))
  {
    hide Decimal, TypeAndId, ParseControl, Ended, Spaces;
    DecimalRoundTrip(id);
    IdAloneParses(w, z, "connected", id);
    IdAloneParses(w, z, "half-close", id);
    IdAloneParses(w, z, "close", id);
  }

  /** `close` with its reason, and `error` with its message. */
  lemma LongMessages(w: string, z: string, id: Word, s: string)
    requires Spaces(w) && Spaces(z) && PlainName(s)
    ensures ReadDown(TextCarrier(TypeAndId(w, "close", id) + "," + Named(w, "reason", Quoted(s)) + Ended(z)))
         == Some(MuxClient.Close(id, s))
    ensures ReadDown(TextCarrier(TypeAndId(w, "error", id) + "," + Named(w, "message", Quoted(s)) + Ended(z)))
         == Some(MuxClient.Error(id, s))
  {
    hide Decimal, TypeAndId, ParseControl, Ended, Spaces, Named;
    DecimalRoundTrip(id);
    WithTextParses(w, z, "close", id, "reason", s);
    WithTextParses(w, z, "error", id, "message", s);
  }

  /** The client's `connect`; the mode is optional, and any other mode is refused. */
  function ConnectText(w: string, id: nat, host: string, port: nat): string {
    TypeAndId(w, "connect", id) + "," + Named(w, "host", Quoted(host)) + "," + Named(w, "port", Decimal(port))
  }

  function ConnectMembers(w: string, id: nat, host: string, port: nat): seq<Member> {
    [Placed(w, "type", Str("connect"))] + [Placed(w, "sessionId", Num(Decimal(id)))]
    + [Placed(w, "host", Str(host))] + [Placed(w, "port", Num(Decimal(port)))]
  }

  function ConnectSeen(id: nat, host: string, port: nat): JsonObject {
    map["type" := JStr("connect")]["sessionId" := JNum(Decimal(id))]["host" := JStr(host)]["port" := JNum(Decimal(port))]
  }

  lemma ConnectDenotes(w: string, id: nat, host: string, port: nat)
    requires Spaces(w) && PlainName(host)
    ensures Denotes(ConnectText(w, id, host, port), ConnectMembers(w, id, host, port), ConnectSeen(id, host, port))
  {
    hide Denotes, Decimal, TypeAndId, Spaces, PlainName, Raw, Meaning, Named, Quoted;
    var ms := [Placed(w, "type", Str("connect"))] + [Placed(w, "sessionId", Num(Decimal(id)))];
    var o: JsonObject := map["type" := JStr("connect")]["sessionId" := JNum(Decimal(id))];
    Names();
    Start(w, "connect", id);
    StringPart(TypeAndId(w, "connect", id), ms, o, w, "host", host);
    NumberValue(port);
    Next(TypeAndId(w, "connect", id) + "," + Named(w, "host", Quoted(host)), ms + [Placed(w, "host", Str(host))],
         o["host" := JStr(host)], w, "port", Num(Decimal(port)));
  }

  lemma Names()
    ensures PlainName("connect") && PlainName("host") && PlainName("port") && PlainName("mode")
  {
  }

  lemma StringPart(text: string, ms: seq<Member>, o: JsonObject, w: string, name: string, s: string)
    requires Denotes(text, ms, o) && Spaces(w) && PlainName(name) && PlainName(s)
    ensures Denotes(text + "," + Named(w, name, Quoted(s)), ms + [Placed(w, name, Str(s))], o[name := JStr(s)])
  {
    hide Denotes, Spaces, PlainName, Raw, Meaning, Named;
    NameOk(s);
    Next(text, ms, o, w, name, Str(s));
  }

  lemma ConnectParses(w: string, z: string, id: nat, host: string, port: nat, mode: string)
    requires Spaces(w) && Spaces(z) && PlainName(host) && PlainName(mode)
    ensures ParseControl(ConnectText(w, id, host, port) + Ended(z)) == Some(ConnectSeen(id, host, port))
    ensures ParseControl(ConnectText(w, id, host, port) + "," + Named(w, "mode", Quoted(mode)) + Ended(z))
         == Some(ConnectSeen(id, host, port)["mode" := JStr(mode)])
  {
    hide Denotes, Decimal, TypeAndId, ParseControl, Ended, Spaces, PlainName, Raw, Meaning, Named, ConnectText, Quoted;
    var ms, o := ConnectMembers(w, id, host, port), ConnectSeen(id, host, port);
    Names();
    ConnectDenotes(w, id, host, port);
    Whole(ConnectText(w, id, host, port), ms, o, z);
    StringPart(ConnectText(w, id, host, port), ms, o, w, "mode", mode);
    Whole(ConnectText(w, id, host, port) + "," + Named(w, "mode", Quoted(mode)), ms + [Placed(w, "mode", Str(mode))],
          o["mode" := JStr(mode)], z);
  }

  /** A connect without a mode asks for the only one there is, and one for any other mode is not taken. */
  lemma ConnectMode(w: string, z: string, id: Word, host: string, port: nat, mode: string)
    requires Spaces(w) && Spaces(z) && PlainName(host) && PlainName(mode) && port < 65536
    ensures ReadUp(TextCarrier(ConnectText(w, id, host, port) + Ended(z))) == Some(MuxClient.Connect(id, host, port))
    ensures ReadUp(TextCarrier(ConnectText(w, id, host, port) + "," + Named(w, "mode", Quoted(mode)) + Ended(z)))
         == if mode == "tcp-over-wss" then Some(MuxClient.Connect(id, host, port)) else None
  {
    hide Decimal, ConnectText, ParseControl, Ended, Spaces, PlainName, Named, Quoted;
    DecimalRoundTrip(id);
    DecimalRoundTrip(port);
    ConnectParses(w, z, id, host, port, mode);
  }

  /** A data frame: the four bytes of its id, the highest first, and then the target's bytes as they are. */
  lemma DataLayout(id: Word, payload: Bytes)
    ensures EncodeData(id, payload)
         == [id / 0x100_0000, id / 0x1_0000 % 0x100, id / 0x100 % 0x100, id % 0x100] + payload
  {
    OneByte(id / 0x100_0000);
    MoreBytes(id / 0x1_0000, 1);
    MoreBytes(id / 0x100, 2);
    MoreBytes(id, 3);
  }

  lemma OneByte(n: nat)
    requires n < 0x100
    ensures ToBigEndian(n, 1) == [n]
  {
    assert ToBigEndian(n / 256, 0) == [];
  }

  lemma MoreBytes(n: nat, k: nat)
    ensures ToBigEndian(n, k + 1) == ToBigEndian(n / 256, k) + [ByteOf(n)]
  {
  }
}
