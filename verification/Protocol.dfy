/**
 * The messages the two ends exchange, as text and bytes: how each is printed, how the other end reads it, and why a
 * WebSocket carries a list of them as a first-in first-out channel.
 */
module Protocol {
  import opened Common
  import opened Text
  import opened JsonText
  import opened JsonGrammar
  import opened JsonScanner
  import opened DataFrame
  import opened WsFrame
  import opened WsReceive
  import MuxClient

  type Up = MuxClient.Up
  type Down = MuxClient.Down

  /** A WebSocket message: text for control messages, binary for data. */
  datatype Carrier = TextCarrier(text: string) | BinaryCarrier(frame: Bytes)

  const MODE := "tcp-over-wss"

  // ----- members without white space -----------------------------------------------------

  function Field(name: string, value: Value): Member {
    Member("", name, "", "", value, "")
  }

  predicate PlainName(s: string) {
    forall k | 0 <= k < |s| :: s[k] != '"' && s[k] != '\\'
  }

  lemma {:induction false} PlainRaw(s: string)
    requires PlainName(s)
    ensures Raw(s) && Meaning(s) == s
    decreases |s|
  {
    if s != "" {
      PlainRaw(s[1..]);
      assert s[..1] == [s[0]] && s == s[..1] + s[1..];
    }
  }

  lemma PlainField(name: string, v: Value)
    requires PlainName(name) && ValueOk(v)
    ensures MemberOk(Field(name, v)) && Meaning(name) == name
  {
    PlainRaw(name);
  }

  lemma NumberOk(n: nat)
    ensures ValueOk(Num(Decimal(n)))
  {
  }

  lemma StringOk(s: string)
    ensures ValueOk(Str(Escape(s))) && ValueOf(Str(Escape(s))) == JStr(s)
  {
    EscapeRoundTrip(s);
  }

  lemma NameOk(s: string)
    requires PlainName(s)
    ensures ValueOk(Str(s)) && ValueOf(Str(s)) == JStr(s)
  {
    PlainRaw(s);
  }

  lemma DenoteCons(m: Member, rest: seq<Member>, out: JsonObject)
    requires MemberOk(m) && MembersOk(rest)
    ensures MembersOk([m] + rest) && Denote([m] + rest, out) == Denote(rest, out[Meaning(m.key) := ValueOf(m.value)])
  {
    assert ([m] + rest)[1..] == rest;
  }

  // ----- printing ----------------------------------------------------------------------------

  /** `{"type":T,"sessionId":I}` followed by further fields. */
  function IdFields(type_: string, id: nat, more: seq<Member>): seq<Member> {
    [Field("type", Str(type_))] + ([Field("sessionId", Num(Decimal(id)))] + more)
  }

  function ConnectFields(id: nat, host: string, port: nat): seq<Member> {
    IdFields("connect", id,
             [Field("host", Str(Escape(host)))] + ([Field("port", Num(Decimal(port)))] + [Field("mode", Str(MODE))]))
  }

  function UpFields(m: Up): seq<Member>
    requires !m.UpData?
  {
    match m
    case Connect(id, host, port) => ConnectFields(id, host, port)
    case HalfClose(id) => IdFields("half-close", id, [])
    case UpClose(id) => IdFields("close", id, [])
  }

  function DownFields(m: Down): seq<Member>
    requires !m.DownData?
  {
    match m
    case Connected(id) => IdFields("connected", id, [])
    case Close(id, reason) => IdFields("close", id, [Field("reason", Str(Escape(reason)))])
    case Error(id, message) => IdFields("error", id, [Field("message", Str(Escape(message)))])
  }

  predicate UpOk(m: Up) {
    m.id < ID_LIMIT && (m.Connect? ==> m.port < 65536)
  }

  predicate DownOk(m: Down) {
    m.id < ID_LIMIT
  }

  function WriteUp(m: Up): Carrier
    requires UpOk(m)
  {
    if m.UpData? then BinaryCarrier(EncodeData(m.id, m.payload)) else TextCarrier(ObjectText("", UpFields(m)))
  }

  function WriteDown(m: Down): Carrier
    requires DownOk(m)
  {
    if m.DownData? then BinaryCarrier(EncodeData(m.id, m.payload)) else TextCarrier(ObjectText("", DownFields(m)))
  }

  // ----- reading ---------------------------------------------------------------------------------

  /** A number that `strtod` reads exactly and a cast to an unsigned type of that range keeps. */
  function NumberOf(obj: JsonObject, key: string, limit: nat): (n: Option<nat>)
    ensures n.Some? ==> n.value < limit
  {
    if key in obj && obj[key].JNum? && obj[key].token != "" && AllDigits(obj[key].token)
       && DecimalValue(obj[key].token) < limit
    then Some(DecimalValue(obj[key].token))
    else None
  }

  function StringOf(obj: JsonObject, key: string): Option<string> {
    if key in obj && obj[key].JStr? then Some(obj[key].str) else None
  }

  /** The server's dispatch on a control message, down to what its handlers take from it. */
  function ReadUpObject(obj: JsonObject): Option<Up>
    requires StringOf(obj, "type").Some?
  {
    var type_, id := StringOf(obj, "type").value, NumberOf(obj, "sessionId", ID_LIMIT);
    if id.None? then None
    else if type_ == "connect" then
      var host, port, mode := StringOf(obj, "host"), NumberOf(obj, "port", 65536), StringOf(obj, "mode");
      if host.None? || port.None? || (mode.Some? && mode.value != MODE) then None
      else Some(MuxClient.Connect(id.value, host.value, port.value))
    else if type_ == "half-close" then Some(MuxClient.HalfClose(id.value))
    else if type_ == "close" then Some(MuxClient.UpClose(id.value))
    else None
  }

  /** The client's dispatch on a control message. */
  function ReadDownObject(obj: JsonObject): Option<Down>
    requires StringOf(obj, "type").Some?
  {
    var type_, id := StringOf(obj, "type").value, NumberOf(obj, "sessionId", ID_LIMIT);
    if id.None? then None
    else if type_ == "connected" then Some(MuxClient.Connected(id.value))
    else if type_ == "close" then
      var reason := StringOf(obj, "reason");
      Some(MuxClient.Close(id.value, if reason.Some? then reason.value else "server closed"))
    else if type_ == "error" then
      var message := StringOf(obj, "message");
      Some(MuxClient.Error(id.value, if message.Some? then message.value else "server error"))
    else None
  }

  function ReadUp(c: Carrier): Option<Up> {
    match c
    case TextCarrier(text) =>
      var obj := ParseControl(text);
      if obj.None? then None else ReadUpObject(obj.value)
    case BinaryCarrier(frame) =>
      var d := DecodeData(frame);
      if d.None? then None else Some(MuxClient.UpData(d.value.0, d.value.1))
  }

  function ReadDown(c: Carrier): Option<Down> {
    match c
    case TextCarrier(text) =>
      var obj := ParseControl(text);
      if obj.None? then None else ReadDownObject(obj.value)
    case BinaryCarrier(frame) =>
      var d := DecodeData(frame);
      if d.None? then None else Some(MuxClient.DownData(d.value.0, d.value.1))
  }

  // ----- round trips --------------------------------------------------------------------------------

  /** The object both ends see of a message that starts with its type and its id. */
  function IdObject(type_: string, id: nat): JsonObject {
    map["type" := JStr(type_), "sessionId" := JNum(Decimal(id))]
  }

  lemma IdFieldsDenote(type_: string, id: nat, more: seq<Member>)
    requires PlainName(type_) && MembersOk(more)
    ensures MembersOk(IdFields(type_, id, more))
    ensures Denote(IdFields(type_, id, more), map[]) == Denote(more, IdObject(type_, id))
  {
    hide Raw, Meaning, Denote, MemberOk, ValueOk, ValueOf;
    var first, second := Field("type", Str(type_)), Field("sessionId", Num(Decimal(id)));
    NameOk(type_);
    NumberOk(id);
    PlainField("type", first.value);
    PlainField("sessionId", second.value);
    NumberValue(id);
    DenoteCons(second, more, map["type" := JStr(type_)]);
    DenoteCons(first, [second] + more, map[]);
    assert map["type" := JStr(type_)]["sessionId" := JNum(Decimal(id))] == IdObject(type_, id);
  }

  lemma NumberValue(n: nat)
    ensures ValueOk(Num(Decimal(n))) && ValueOf(Num(Decimal(n))) == JNum(Decimal(n))
  {
    NumberOk(n);
  }

  lemma IdFieldsParse(type_: string, id: nat, more: seq<Member>)
    requires PlainName(type_) && type_ != "" && MembersOk(more) && (more != [] ==> !more[|more| - 1].value.Literal?)
    requires forall k | 0 <= k < |more| :: Meaning(more[k].key) != "type"
    ensures MembersOk(IdFields(type_, id, more))
    ensures ParseControl(ObjectText("", IdFields(type_, id, more))) == Some(Denote(more, IdObject(type_, id)))
  {
    hide Raw, Meaning, ParseObject, ObjectText, Denote, MemberOk;
    IdFieldsDenote(type_, id, more);
    LastField(type_, id, more);
    ParsesExactly("", IdFields(type_, id, more));
    KeepsOther(more, "type", IdObject(type_, id));
  }

  lemma LastField(type_: string, id: nat, more: seq<Member>)
    requires more != [] ==> !more[|more| - 1].value.Literal?
    ensures var ms := IdFields(type_, id, more); ms != [] && !ms[|ms| - 1].value.Literal?
  {
  }

  /** Members with other keys leave a key alone. */
  lemma {:induction false} KeepsOther(ms: seq<Member>, key: string, out: JsonObject)
    requires MembersOk(ms) && key in out && forall k | 0 <= k < |ms| :: Meaning(ms[k].key) != key
    ensures key in Denote(ms, out) && Denote(ms, out)[key] == out[key]
    decreases |ms|
  {
    if ms != [] {
      assert Meaning(ms[0].key) != key;
      KeepsOther(ms[1..], key, out[Meaning(ms[0].key) := ValueOf(ms[0].value)]);
    }
  }

  lemma OneFieldParses(type_: string, id: nat, name: string, s: string)
    requires PlainName(type_) && type_ != "" && PlainName(name) && name != "type"
    ensures ParseControl(ObjectText("", IdFields(type_, id, [Field(name, Str(Escape(s)))])))
         == Some(IdObject(type_, id)[name := JStr(s)])
  {
    hide Raw, Meaning, ParseControl, ObjectText;
    var f := Field(name, Str(Escape(s)));
    StringOk(s);
    PlainField(name, f.value);
    IdFieldsParse(type_, id, [f]);
    DenoteCons(f, [], IdObject(type_, id));
    assert [f] + [] == [f];
  }

  function ConnectObject(id: nat, host: string, port: nat): JsonObject {
    IdObject("connect", id)["host" := JStr(host)]["port" := JNum(Decimal(port))]["mode" := JStr(MODE)]
  }

  /** A member as both ends understand it. */
  predicate Says(f: Member, name: string, v: JsonValue) {
    MemberOk(f) && Meaning(f.key) == name && ValueOf(f.value) == v
  }

  lemma StringField(name: string, s: string)
    requires PlainName(name)
    ensures Says(Field(name, Str(Escape(s))), name, JStr(s))
  {
    StringOk(s);
    PlainField(name, Str(Escape(s)));
  }

  lemma NumberField(name: string, n: nat)
    requires PlainName(name)
    ensures Says(Field(name, Num(Decimal(n))), name, JNum(Decimal(n)))
  {
    NumberValue(n);
    PlainField(name, Num(Decimal(n)));
  }

  lemma NameField(name: string, s: string)
    requires PlainName(name) && PlainName(s)
    ensures Says(Field(name, Str(s)), name, JStr(s))
  {
    NameOk(s);
    PlainField(name, Str(s));
  }

  lemma ThreeFields(a: Member, b: Member, c: Member, out: JsonObject)
    requires MemberOk(a) && MemberOk(b) && MemberOk(c)
    ensures MembersOk([a] + ([b] + [c]))
    ensures Denote([a] + ([b] + [c]), out)
         == out[Meaning(a.key) := ValueOf(a.value)][Meaning(b.key) := ValueOf(b.value)][Meaning(c.key) := ValueOf(c.value)]
  {
    hide Raw, Meaning, ValueOk, ValueOf;
    var out1 := out[Meaning(a.key) := ValueOf(a.value)];
    DenoteCons(c, [], out1[Meaning(b.key) := ValueOf(b.value)]);
    assert [c] + [] == [c];
    DenoteCons(b, [c], out1);
    DenoteCons(a, [b] + [c], out);
  }

  lemma ConnectDenotes(h: Member, p: Member, m: Member, id: nat, host: string, port: nat)
    requires h == Field("host", Str(Escape(host))) && p == Field("port", Num(Decimal(port))) && m == Field("mode", Str(MODE))
    ensures MembersOk([h] + ([p] + [m])) && Denote([h] + ([p] + [m]), IdObject("connect", id)) == ConnectObject(id, host, port)
    ensures Says(h, "host", JStr(host)) && Says(p, "port", JNum(Decimal(port))) && Says(m, "mode", JStr(MODE))
  {
    hide Raw, Meaning, ValueOk, ValueOf, MemberOk, Escape, IdObject, Denote, MembersOk, Decimal;
    StringField("host", host);
    NumberField("port", port);
    NameField("mode", MODE);
    ThreeFields(h, p, m, IdObject("connect", id));
  }

  lemma ConnectParses(id: nat, host: string, port: nat)
    ensures ParseControl(ObjectText("", ConnectFields(id, host, port))) == Some(ConnectObject(id, host, port))
  {
    hide Raw, Meaning, ParseControl, ObjectText, Denote, ConnectObject, IdObject, Escape, MemberOk;
    var h, p, m := Field("host", Str(Escape(host))), Field("port", Num(Decimal(port))), Field("mode", Str(MODE));
    ConnectDenotes(h, p, m, id, host, port);
    IdFieldsParse("connect", id, [h] + ([p] + [m]));
  }

  /**
   * The connect message: for every id, every host byte string and every port, the server recovers exactly what the
   * client asked for.
   */
  lemma ConnectRoundTrip(id: nat, host: string, port: nat)
    requires id < ID_LIMIT && port < 65536
    ensures ReadUp(WriteUp(MuxClient.Connect(id, host, port))) == Some(MuxClient.Connect(id, host, port))
  {
    hide ParseControl, ObjectText, ConnectFields;
    ConnectParses(id, host, port);
    DecimalRoundTrip(id);
    DecimalRoundTrip(port);
  }

  /** Every message of the client is read by the server as that message. */
  lemma UpRoundTrip(m: Up)
    requires UpOk(m)
    ensures ReadUp(WriteUp(m)) == Some(m)
  {
    hide ParseControl, ObjectText, ConnectFields, IdFields, Denote;
    match m
    case Connect(id, host, port) => ConnectRoundTrip(id, host, port);
    case UpData(id, payload) => DataRoundTrip(id, payload);
    case HalfClose(id) =>
      BareParses("half-close", id);
      DecimalRoundTrip(id);
    case UpClose(id) =>
      BareParses("close", id);
      DecimalRoundTrip(id);
  }

  lemma BareParses(type_: string, id: nat)
    requires PlainName(type_) && type_ != ""
    ensures ParseControl(ObjectText("", IdFields(type_, id, []))) == Some(IdObject(type_, id))
  {
    IdFieldsParse(type_, id, []);
  }

  lemma CloseRoundTrip(id: nat, reason: string)
    requires id < ID_LIMIT
    ensures ReadDown(WriteDown(MuxClient.Close(id, reason))) == Some(MuxClient.Close(id, reason))
  {
    hide ParseControl, ObjectText, IdFields, Escape;
    OneFieldParses("close", id, "reason", reason);
    DecimalRoundTrip(id);
  }

  lemma ErrorRoundTrip(id: nat, message: string)
    requires id < ID_LIMIT
    ensures ReadDown(WriteDown(MuxClient.Error(id, message))) == Some(MuxClient.Error(id, message))
  {
    hide ParseControl, ObjectText, IdFields, Escape;
    OneFieldParses("error", id, "message", message);
    DecimalRoundTrip(id);
  }

  lemma ConnectedRoundTrip(id: nat)
    requires id < ID_LIMIT
    ensures ReadDown(WriteDown(MuxClient.Connected(id))) == Some(MuxClient.Connected(id))
  {
    hide ParseControl, ObjectText, IdFields;
    BareParses("connected", id);
    DecimalRoundTrip(id);
  }

  lemma DownDataRoundTrip(id: nat, payload: Bytes)
    requires id < ID_LIMIT
    ensures ReadDown(WriteDown(MuxClient.DownData(id, payload))) == Some(MuxClient.DownData(id, payload))
  {
    hide EncodeData, DecodeData;
    DataRoundTrip(id, payload);
  }

  /** Every message of the server is read by the client as that message. */
  lemma DownRoundTrip(m: Down)
    requires DownOk(m)
    ensures ReadDown(WriteDown(m)) == Some(m)
  {
    hide ReadDown, WriteDown;
    match m
    case Connected(id) => ConnectedRoundTrip(id);
    case DownData(id, payload) => DownDataRoundTrip(id, payload);
    case Close(id, reason) => CloseRoundTrip(id, reason);
    case Error(id, message) => ErrorRoundTrip(id, message);
  }

  // ----- controlMessage -------------------------------------------------------------------------------

  /** The fields of a general control message, in whatever order the map is walked. */
  function GeneralFields(type_: string, fields: seq<(string, string)>): (ms: seq<Member>)
    ensures |ms| == |fields| + 1
  {
    [Field("type", Str(Escape(type_)))]
    + seq(|fields|, k requires 0 <= k < |fields| => Field(Escape(fields[k].0), Str(Escape(fields[k].1))))
  }

  /** The strings of a list of fields, as an object. */
  function Strings(fields: seq<(string, string)>, out: JsonObject): JsonObject
    decreases |fields|
  {
    if fields == [] then out else Strings(fields[1..], out[fields[0].0 := JStr(fields[0].1)])
  }

  lemma EscapedField(name: string, value: string)
    ensures var f := Field(Escape(name), Str(Escape(value)));
            MemberOk(f) && Meaning(f.key) == name && ValueOf(f.value) == JStr(value)
  {
    EscapeRoundTrip(name);
    EscapeRoundTrip(value);
  }

  lemma {:induction false} DenoteStrings(fields: seq<(string, string)>, ms: seq<Member>, out: JsonObject)
    requires |ms| == |fields|
    requires forall k | 0 <= k < |ms| :: ms[k] == Field(Escape(fields[k].0), Str(Escape(fields[k].1)))
    ensures MembersOk(ms) && Denote(ms, out) == Strings(fields, out)
    decreases |fields|
  {
    hide Raw, Meaning, Escape;
    if ms != [] {
      EscapedField(fields[0].0, fields[0].1);
      DenoteStrings(fields[1..], ms[1..], out[fields[0].0 := JStr(fields[0].1)]);
      assert forall k | 0 < k < |ms| :: ms[k] == ms[1..][k - 1];
    }
  }

  /** The text of `controlMessage` parses to the type and the fields as strings, a field named "type" winning. */
  lemma GeneralParses(type_: string, fields: seq<(string, string)>)
    ensures ParseObject(ObjectText("", GeneralFields(type_, fields))) == Some(Strings(fields, map["type" := JStr(type_)]))
  {
    hide Raw, Meaning, Escape, ParseObject, ObjectText;
    var ms := GeneralFields(type_, fields);
    var first := Field("type", Str(Escape(type_)));
    StringOk(type_);
    PlainField("type", first.value);
    DenoteStrings(fields, ms[1..], map["type" := JStr(type_)]);
    DenoteCons(first, ms[1..], map[]);
    assert ms == [first] + ms[1..];
    ParsesExactly("", ms);
  }

  /** The names of a list of fields. */
  function Keys(fields: seq<(string, string)>): (keys: seq<string>)
    ensures |keys| == |fields| && forall k | 0 <= k < |fields| :: keys[k] == fields[k].0
  {
    seq(|fields|, k requires 0 <= k < |fields| => fields[k].0)
  }

  lemma {:induction false} StringsAt(fields: seq<(string, string)>, out: JsonObject, key: string)
    ensures key in out || (exists k :: 0 <= k < |fields| && fields[k].0 == key) <==> key in Strings(fields, out)
    ensures (forall k | 0 <= k < |fields| :: fields[k].0 != key) && key in out ==> Strings(fields, out)[key] == out[key]
    ensures forall k | 0 <= k < |fields| && fields[k].0 == key && Distinct(Keys(fields)) ::
              Strings(fields, out)[key] == JStr(fields[k].1)
    decreases |fields|
  {
    if fields != [] {
      assert Keys(fields[1..]) == Keys(fields)[1..];
      StringsAt(fields[1..], out[fields[0].0 := JStr(fields[0].1)], key);
      assert forall k | 0 < k < |fields| :: fields[k] == fields[1..][k - 1];
    }
  }

  predicate Names(fields: seq<(string, string)>, key: string) {
    exists k :: 0 <= k < |fields| && fields[k].0 == key
  }

  /** Exactly the type and the fields, as strings. */
  ghost predicate Returns(obj: JsonObject, type_: string, fields: seq<(string, string)>) {
    && (forall key: string :: key in obj <==> key == "type" || Names(fields, key))
    && "type" in obj && obj["type"] == JStr(type_)
    && forall k | 0 <= k < |fields| :: fields[k].0 in obj && obj[fields[k].0] == JStr(fields[k].1)
  }

  /**
   * The general round trip, for any bytes and any order of the fields: the message is read back as exactly its type
   * and its fields if and only if the type is not empty and no field named "type" says otherwise.
   */
  lemma GeneralRoundTrip(type_: string, fields: seq<(string, string)>)
    requires Distinct(Keys(fields))
    ensures var r := ParseControl(ObjectText("", GeneralFields(type_, fields)));
            r.Some? && Returns(r.value, type_, fields) <==>
              type_ != "" && forall k | 0 <= k < |fields| && fields[k].0 == "type" :: fields[k].1 == type_
  {
    hide ParseObject, ObjectText, GeneralFields, Strings;
    GeneralParses(type_, fields);
    forall key: string
      ensures var out := Strings(fields, map["type" := JStr(type_)]);
              && (key in out <==> key == "type" || Names(fields, key))
              && forall k | 0 <= k < |fields| && fields[k].0 == key :: key in out && out[key] == JStr(fields[k].1)
    {
      StringsAt(fields, map["type" := JStr(type_)], key);
    }
    StringsAt(fields, map["type" := JStr(type_)], "type");
  }

  // ----- a WebSocket as a channel ------------------------------------------------------------------------

  /** A byte string. */
  predicate ByteText(s: string) {
    forall k | 0 <= k < |s| :: s[k] as int < 256
  }

  function ToBytes(s: string): (b: Bytes)
    requires ByteText(s)
    ensures |b| == |s|
  {
    seq(|s|, k requires 0 <= k < |s| => s[k] as int)
  }

  predicate Sends(c: Carrier) {
    c.TextCarrier? ==> ByteText(c.text) && |c.text| <= MAX_PAYLOAD
  }

  function OpOf(c: Carrier): Op
    requires Sends(c)
  {
    match c
    case TextCarrier(text) => SendText(ToBytes(text))
    case BinaryCarrier(frame) => SendBinary(frame)
  }

  function OpsOf(cs: seq<Carrier>): (ops: seq<Op>)
    requires forall k | 0 <= k < |cs| :: Sends(cs[k])
    ensures |ops| == |cs|
  {
    seq(|cs|, k requires 0 <= k < |cs| => OpOf(cs[k]))
  }

  /** What a handler is given, as a carrier. */
  function Handled(m: Message): Carrier {
    match m
    case TextMessage(bytes) => TextCarrier(AsText(bytes))
    case BinaryMessage(bytes) => BinaryCarrier(bytes)
  }

  lemma TextBytes(s: string)
    requires ByteText(s)
    ensures AsText(ToBytes(s)) == s
  {
  }

  lemma {:induction false} CarriersArrive(cs: seq<Carrier>)
    requires forall k | 0 <= k < |cs| :: Sends(cs[k])
    ensures var es := Messages(OpsOf(cs));
            |es| == |cs| && forall k | 0 <= k < |cs| :: es[k].Received? && Handled(es[k].message) == cs[k]
    decreases |cs|
  {
    if cs != [] {
      assert OpsOf(cs)[1..] == OpsOf(cs[1..]);
      CarriersArrive(cs[1..]);
      if cs[0].TextCarrier? { TextBytes(cs[0].text); }
      var es := Messages(OpsOf(cs));
      assert es == OpMessages(OpOf(cs[0])) + Messages(OpsOf(cs[1..]));
      forall k | 0 <= k < |cs| ensures es[k].Received? && Handled(es[k].message) == cs[k] {
        if k > 0 { assert es[k] == Messages(OpsOf(cs[1..]))[k - 1]; }
      }
    }
  }

  /** Any list of messages sent on a WebSocket is handled at the other end as that list, in order and complete. */
  lemma ChannelIsFifo(cs: seq<Carrier>, ws: seq<Wire>)
    requires forall k | 0 <= k < |cs| :: Sends(cs[k])
    requires Frames(ws) == OpsFrames(OpsOf(cs))
    ensures Sendable(ws)
    ensures var es := Consume(Fresh(), EncodeAll(ws)).events;
            && |es| == |cs| + 1 && es[|cs|] == Ended("connection closed")
            && forall k | 0 <= k < |cs| :: es[k].Received? && Handled(es[k].message) == cs[k]
  {
    hide Messages, OpsFrames, EncodeAll, Consume, Handled;
    CarriersArrive(cs);
    forall k | 0 <= k < |cs| ensures Acceptable(OpsOf(cs)[k]) { assert Sends(cs[k]); }
    RoundTrip(Fresh(), OpsOf(cs), ws);
  }

  predicate AllUp(ms: seq<Up>) {
    forall k | 0 <= k < |ms| :: UpOk(ms[k]) && Sends(WriteUp(ms[k]))
  }

  predicate AllDown(ms: seq<Down>) {
    forall k | 0 <= k < |ms| :: DownOk(ms[k]) && Sends(WriteDown(ms[k]))
  }

  /** The calls that send a list of messages. */
  function UpOps(ms: seq<Up>): seq<Op>
    requires AllUp(ms)
  {
    OpsOf(seq(|ms|, k requires 0 <= k < |ms| => WriteUp(ms[k])))
  }

  function DownOps(ms: seq<Down>): seq<Op>
    requires AllDown(ms)
  {
    OpsOf(seq(|ms|, k requires 0 <= k < |ms| => WriteDown(ms[k])))
  }

  /** The client's messages reach the server's handlers as they were written. */
  lemma UpstreamIsFifo(ms: seq<Up>, ws: seq<Wire>)
    requires AllUp(ms) && Frames(ws) == OpsFrames(UpOps(ms))
    ensures Sendable(ws)
    ensures var es := Consume(Fresh(), EncodeAll(ws)).events;
            |es| == |ms| + 1
            && forall k | 0 <= k < |ms| :: es[k].Received? && ReadUp(Handled(es[k].message)) == Some(ms[k])
  {
    hide OpsFrames, EncodeAll, Consume, Handled, WriteUp, ReadUp;
    var cs := seq(|ms|, k requires 0 <= k < |ms| => WriteUp(ms[k]));
    ChannelIsFifo(cs, ws);
    forall k | 0 <= k < |ms| ensures ReadUp(cs[k]) == Some(ms[k]) { UpRoundTrip(ms[k]); }
  }

  /** The server's messages reach the client's handlers as they were written. */
  lemma DownstreamIsFifo(ms: seq<Down>, ws: seq<Wire>)
    requires AllDown(ms) && Frames(ws) == OpsFrames(DownOps(ms))
    ensures Sendable(ws)
    ensures var es := Consume(Fresh(), EncodeAll(ws)).events;
            |es| == |ms| + 1
            && forall k | 0 <= k < |ms| :: es[k].Received? && ReadDown(Handled(es[k].message)) == Some(ms[k])
  {
    hide OpsFrames, EncodeAll, Consume, Handled, WriteDown, ReadDown;
    var cs := seq(|ms|, k requires 0 <= k < |ms| => WriteDown(ms[k]));
    ChannelIsFifo(cs, ws);
    forall k | 0 <= k < |ms| ensures ReadDown(cs[k]) == Some(ms[k]) { DownRoundTrip(ms[k]); }
  }
}
