/** The hand-built control messages of both ends, as the program concatenates them. */
module Messages {
  import opened Common
  import opened Text
  import opened JsonText
  import opened JsonGrammar
  import opened JsonScanner
  import opened DataFrame
  import opened Protocol
  import MuxClient

  /** The members of a text so far, without the closing brace. */
  function Joined(ms: seq<Member>): string
    requires ms != []
    decreases |ms|
  {
    if |ms| == 1 then MemberText(ms[0]) else Joined(ms[..|ms| - 1]) + "," + MemberText(ms[|ms| - 1])
  }

  lemma JoinedSnoc(ms: seq<Member>, m: Member)
    requires ms != []
    ensures Joined(ms + [m]) == Joined(ms) + "," + MemberText(m)
  {
    assert (ms + [m])[..|ms|] == ms;
  }

  lemma {:induction false} JoinedCons(m: Member, ms: seq<Member>)
    requires ms != []
    ensures Joined([m] + ms) == MemberText(m) + "," + Joined(ms)
    decreases |ms|
  {
    hide MemberText;
    var front, last := ms[..|ms| - 1], ms[|ms| - 1];
    assert ([m] + ms)[..|ms|] == [m] + front;
    if front == [] {
      assert [m] + front == [m];
    } else {
      JoinedCons(m, front);
    }
  }

  lemma {:induction false} JoinedIsText(ms: seq<Member>)
    requires ms != []
    ensures MembersText(ms) == Joined(ms) + "}"
    decreases |ms|
  {
    hide MemberText;
    if |ms| > 1 {
      assert ms == [ms[0]] + ms[1..];
      JoinedIsText(ms[1..]);
      JoinedCons(ms[0], ms[1..]);
    }
  }

  lemma FieldText(name: string, v: Value)
    ensures MemberText(Field(name, v)) == "\"" + name + "\":" + ValueText(v)
  {
  }

  /** A text grows by one field. */
  lemma Append(text: string, ms: seq<Member>, name: string, v: Value)
    requires ms != [] && text == "{" + Joined(ms)
    ensures text + ",\"" + name + "\":" + ValueText(v) == "{" + Joined(ms + [Field(name, v)])
  {
    hide MemberText, ValueText, Joined;
    FieldText(name, v);
    JoinedSnoc(ms, Field(name, v));
    assert ",\"" == "," + "\"";
  }

  lemma Close(text: string, ms: seq<Member>)
    requires ms != [] && text == "{" + Joined(ms)
    ensures text + "}" == ObjectText("", ms)
  {
    hide Joined, MembersText;
    JoinedIsText(ms);
    assert "" + "{" == "{";
  }

  lemma FirstField(escaped: string)
    ensures "{\"type\":\"" + escaped + "\"" == "{" + Joined([Field("type", Str(escaped))])
  {
    FieldText("type", Str(escaped));
    assert "{\"type\":\"" == "{" + "\"" + "type" + "\":" + "\"";
  }

  lemma TypeAndId(head: string, type_: string, id: nat)
    requires head == "{\"type\":\"" + type_ + "\",\"sessionId\":"
    ensures head + Decimal(id) == "{" + Joined(IdFields(type_, id, []))
  {
    hide Decimal, Joined, MemberText;
    var text := "{\"type\":\"" + type_ + "\"";
    FirstField(type_);
    Append(text, [Field("type", Str(type_))], "sessionId", Num(Decimal(id)));
    assert "\",\"sessionId\":" == "\"" + ",\"" + "sessionId" + "\":";
    assert head == text + ",\"" + "sessionId" + "\":";
    assert IdFields(type_, id, []) == [Field("type", Str(type_))] + [Field("sessionId", Num(Decimal(id)))];
  }

  lemma MoreFields(type_: string, id: nat, ms: seq<Member>, m: Member)
    ensures IdFields(type_, id, ms) + [m] == IdFields(type_, id, ms + [m])
  {
  }

  lemma ConnectHead()
    ensures "{\"type\":\"connect\",\"sessionId\":" == "{\"type\":\"" + "connect" + "\",\"sessionId\":"
  {
  }

  lemma HalfCloseHead()
    ensures "{\"type\":\"half-close\",\"sessionId\":" == "{\"type\":\"" + "half-close" + "\",\"sessionId\":"
  {
  }

  lemma CloseHead()
    ensures "{\"type\":\"close\",\"sessionId\":" == "{\"type\":\"" + "close" + "\",\"sessionId\":"
  {
  }

  lemma ConnectedHead()
    ensures "{\"type\":\"connected\",\"sessionId\":" == "{\"type\":\"" + "connected" + "\",\"sessionId\":"
  {
  }

  lemma ErrorHead()
    ensures "{\"type\":\"error\",\"sessionId\":" == "{\"type\":\"" + "error" + "\",\"sessionId\":"
  {
  }

  // ----- the client's ----------------------------------------------------------------------

  /** The text `openSession` sends. */
  method ConnectMessage(id: Word, host: string, port: nat) returns (msg: string)
    requires port < 65536
    ensures TextCarrier(msg) == WriteUp(MuxClient.Connect(id, host, port))
  {
    var escaped := JsonEscape(host);
    msg := "{\"type\":\"connect\",\"sessionId\":" + Decimal(id);
    msg := msg + ",\"host\":\"" + escaped + "\"";
    msg := msg + ",\"port\":" + Decimal(port);
    msg := msg + ",\"mode\":\"" + MODE + "\"";
    msg := msg + "}";
    ConnectIs(id, host, port, msg);
  }

  lemma ConnectIs(id: nat, host: string, port: nat, msg: string)
    requires msg == "{\"type\":\"connect\",\"sessionId\":" + Decimal(id) + ",\"host\":\"" + Escape(host) + "\""
                    + ",\"port\":" + Decimal(port) + ",\"mode\":\"" + MODE + "\"" + "}"
    ensures msg == ObjectText("", ConnectFields(id, host, port))
  {
    hide Decimal, Escape, Joined, ObjectText, MemberText;
    var h, p, m := Field("host", Str(Escape(host))), Field("port", Num(Decimal(port))), Field("mode", Str(MODE));
    var t0 := "{\"type\":\"connect\",\"sessionId\":" + Decimal(id);
    var t1 := t0 + ",\"host\":\"" + Escape(host) + "\"";
    var t2 := t1 + ",\"port\":" + Decimal(port);
    var t3 := t2 + ",\"mode\":\"" + MODE + "\"";
    ConnectHead();
    TypeAndId("{\"type\":\"connect\",\"sessionId\":", "connect", id);
    AppendString(t0, IdFields("connect", id, []), "host", Escape(host), ",\"host\":\"");
    MoreFields("connect", id, [], h);
    AppendNumber(t1, IdFields("connect", id, [] + [h]), "port", Decimal(port), ",\"port\":");
    MoreFields("connect", id, [] + [h], p);
    AppendString(t2, IdFields("connect", id, [] + [h] + [p]), "mode", MODE, ",\"mode\":\"");
    MoreFields("connect", id, [] + [h] + [p], m);
    Close(t3, IdFields("connect", id, [] + [h] + [p] + [m]));
    assert [] + [h] + [p] + [m] == [h] + ([p] + [m]);
  }

  lemma AppendString(text: string, ms: seq<Member>, name: string, value: string, literal: string)
    requires ms != [] && text == "{" + Joined(ms) && literal == ",\"" + name + "\":\""
    ensures text + literal + value + "\"" == "{" + Joined(ms + [Field(name, Str(value))])
  {
    hide Joined;
    Append(text, ms, name, Str(value));
    assert literal == ",\"" + name + "\":" + "\"";
  }

  lemma AppendNumber(text: string, ms: seq<Member>, name: string, token: string, literal: string)
    requires ms != [] && text == "{" + Joined(ms) && literal == ",\"" + name + "\":"
    ensures text + literal + token == "{" + Joined(ms + [Field(name, Num(token))])
  {
    hide Joined;
    Append(text, ms, name, Num(token));
  }

  lemma BareIs(type_: string, id: nat, head: string)
    requires head == "{\"type\":\"" + type_ + "\",\"sessionId\":"
    ensures head + Decimal(id) + "}" == ObjectText("", IdFields(type_, id, []))
  {
    hide Decimal, Joined, ObjectText;
    TypeAndId(head, type_, id);
    Close(head + Decimal(id), IdFields(type_, id, []));
  }

  lemma OneStringIs(type_: string, id: nat, head: string, name: string, value: string, literal: string)
    requires head == "{\"type\":\"" + type_ + "\",\"sessionId\":" && literal == ",\"" + name + "\":\""
    ensures head + Decimal(id) + literal + value + "\"" + "}"
         == ObjectText("", IdFields(type_, id, [Field(name, Str(value))]))
  {
    hide Decimal, Joined, ObjectText;
    TypeAndId(head, type_, id);
    AppendString(head + Decimal(id), IdFields(type_, id, []), name, value, literal);
    MoreFields(type_, id, [], Field(name, Str(value)));
    assert [] + [Field(name, Str(value))] == [Field(name, Str(value))];
    Close(head + Decimal(id) + literal + value + "\"", IdFields(type_, id, [Field(name, Str(value))]));
  }

  /** The text `pushEnd` sends. */
  method HalfCloseMessage(id: Word) returns (msg: string)
    ensures TextCarrier(msg) == WriteUp(MuxClient.HalfClose(id))
  {
    HalfCloseHead();
    BareIs("half-close", id, "{\"type\":\"half-close\",\"sessionId\":");
    msg := "{\"type\":\"half-close\",\"sessionId\":" + Decimal(id) + "}";
  }

  /** The text the client's `closeSession` sends. */
  method CloseMessage(id: Word) returns (msg: string)
    ensures TextCarrier(msg) == WriteUp(MuxClient.UpClose(id))
  {
    CloseHead();
    BareIs("close", id, "{\"type\":\"close\",\"sessionId\":");
    msg := "{\"type\":\"close\",\"sessionId\":" + Decimal(id) + "}";
  }

  // ----- the server's --------------------------------------------------------------------------

  /** The text that announces a connected target. */
  method ConnectedMessage(id: Word) returns (msg: string)
    ensures TextCarrier(msg) == WriteDown(MuxClient.Connected(id))
  {
    ConnectedHead();
    BareIs("connected", id, "{\"type\":\"connected\",\"sessionId\":");
    msg := "{\"type\":\"connected\",\"sessionId\":" + Decimal(id) + "}";
  }

  /** The text the server's `closeSession` sends. */
  method CloseReasonMessage(id: Word, reason: string) returns (msg: string)
    ensures TextCarrier(msg) == WriteDown(MuxClient.Close(id, reason))
  {
    hide Escape, ObjectText;
    var escaped := JsonEscape(reason);
    CloseHead();
    OneStringIs("close", id, "{\"type\":\"close\",\"sessionId\":", "reason", escaped, ",\"reason\":\"");
    msg := "{\"type\":\"close\",\"sessionId\":" + Decimal(id) + ",\"reason\":\"" + escaped + "\"" + "}";
  }

  /** `sendError` */
  method ErrorMessage(id: Word, message: string) returns (msg: string)
    ensures TextCarrier(msg) == WriteDown(MuxClient.Error(id, message))
  {
    hide Escape, ObjectText;
    var escaped := JsonEscape(message);
    ErrorHead();
    OneStringIs("error", id, "{\"type\":\"error\",\"sessionId\":", "message", escaped, ",\"message\":\"");
    msg := "{\"type\":\"error\",\"sessionId\":" + Decimal(id) + ",\"message\":\"" + escaped + "\"" + "}";
  }

  // ----- controlMessage ----------------------------------------------------------------------------

  /** `controlMessage`, with the fields in the order the map is walked. */
  method ControlMessage(type_: string, fields: seq<(string, string)>) returns (out: string)
    ensures out == ObjectText("", GeneralFields(type_, fields))
  {
    hide Joined, ObjectText, Escape;
    var ms := GeneralFields(type_, fields);
    var escaped := JsonEscape(type_);
    out := "{\"type\":\"" + escaped + "\"";
    FirstField(escaped);
    assert ms[..1] == [Field("type", Str(Escape(type_)))];
    for k := 0 to |fields|
      invariant out == "{" + Joined(ms[..k + 1])
    {
      var key := JsonEscape(fields[k].0);
      var value := JsonEscape(fields[k].1);
      GeneralAt(type_, fields, k);
      Append(out, ms[..k + 1], key, Str(value));
      out := out + ",\"" + key + "\":\"" + value + "\"";
      assert "\":\"" == "\":" + "\"";
    }
    assert ms[..|fields| + 1] == ms;
    Close(out, ms);
    out := out + "}";
  }

  lemma GeneralAt(type_: string, fields: seq<(string, string)>, k: nat)
    requires k < |fields|
    ensures var ms := GeneralFields(type_, fields);
            ms[..k + 1] + [Field(Escape(fields[k].0), Str(Escape(fields[k].1)))] == ms[..k + 2]
  {
  }
}
