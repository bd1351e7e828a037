/** Object texts as a grammar, and what the scanner makes of every one of them. */
module JsonGrammar {
  import opened Common
  import opened Text
  import opened JsonText

  /** `text` stands in `s` at `i`. */
  predicate At(s: string, i: nat, text: string) {
    i + |text| <= |s| && s[i..i + |text|] == text
  }

  lemma AtSplit(s: string, i: nat, a: string, b: string)
    ensures At(s, i, a + b) <==> At(s, i, a) && At(s, i + |a|, b)
  {
    if At(s, i, a + b) {
      assert s[i..i + |a|] == (a + b)[..|a|];
      assert s[i + |a|..i + |a| + |b|] == (a + b)[|a|..];
    }
  }

  lemma AtChar(s: string, i: nat, text: string, k: nat)
    requires At(s, i, text) && k < |text|
    ensures s[i + k] == text[k]
  {
    assert s[i..i + |text|][k] == s[i + k];
  }

  // ----- quoted strings ------------------------------------------------------------------

  /** One character or one complete escape. */
  predicate Unit(u: string) {
    || (|u| == 1 && u[0] != '"' && u[0] != '\\')
    || (|u| == 2 && u[0] == '\\' && u[1] != 'u')
    || (|u| == 6 && u[0] == '\\' && u[1] == 'u' && AllHex(u[2..6]))
  }

  function UnitMeaning(u: string): string
    requires Unit(u)
  {
    if |u| == 1 then u
    else if |u| == 2 then [Unescaped(u[1])]
    else
      HexValueBound(u[2..6]);
      Utf8(HexValue(u[2..6]))
  }

  /** The length of the unit a body starts with. */
  function UnitSize(body: string): (n: nat)
    requires body != ""
    ensures n > 0
  {
    if body[0] != '\\' then 1 else if |body| >= 2 && body[1] != 'u' then 2 else 6
  }

  /** A string body as it stands between quotes: complete units. */
  predicate Raw(body: string)
    decreases |body|
  {
    body == ""
    || (UnitSize(body) <= |body| && Unit(body[..UnitSize(body)]) && Raw(body[UnitSize(body)..]))
  }

  /** The string a body denotes. */
  function Meaning(body: string): string
    requires Raw(body)
    decreases |body|
  {
    if body == "" then "" else UnitMeaning(body[..UnitSize(body)]) + Meaning(body[UnitSize(body)..])
  }

  lemma ScanUnit(s: string, i: nat, u: string, acc: string)
    requires Unit(u) && At(s, i, u) && i + |u| < |s|
    ensures StringTail(s, i, acc) == StringTail(s, i + |u|, acc + UnitMeaning(u))
  {
    AtChar(s, i, u, 0);
    if |u| == 1 {
      assert u == [s[i]];
    } else {
      AtChar(s, i, u, 1);
      if |u| == 6 { assert s[i + 2..i + 6] == s[i..i + 6][2..6] == u[2..6]; }
    }
  }

  lemma ScanQuote(s: string, i: nat, acc: string)
    requires At(s, i, "\"")
    ensures StringTail(s, i, acc) == Some((acc, i + 1))
  {
    AtChar(s, i, "\"", 0);
  }

  lemma EmptyMeaning(acc: string)
    ensures Raw("") && Meaning("") == "" && acc + "" == acc
  {
  }

  /** A body that is not empty is a unit and a shorter body. */
  lemma FirstUnitOf(body: string)
    requires Raw(body) && body != ""
    ensures var n := UnitSize(body);
            && 0 < n <= |body| && Unit(body[..n]) && Raw(body[n..]) && body == body[..n] + body[n..]
            && Meaning(body) == UnitMeaning(body[..n]) + Meaning(body[n..])
  {
    hide Unit, UnitMeaning, UnitSize;
    TakeRest(body, UnitSize(body));
  }

  lemma TakeRest(s: string, n: nat)
    ensures n <= |s| ==> s == s[..n] + s[n..]
  {
  }

  lemma AtBound(s: string, i: nat, text: string)
    requires At(s, i, text)
    ensures i + |text| <= |s|
  {
  }

  /** The scanner reads a body up to its quote and gets what it denotes. */
  lemma {:induction false} ScanBody(s: string, i: nat, body: string, acc: string)
    requires Raw(body) && At(s, i, body) && At(s, i + |body|, "\"")
    ensures StringTail(s, i, acc) == Some((acc + Meaning(body), i + |body| + 1))
    decreases |body|
  {
    hide At, Unit, UnitSize, UnitMeaning, StringTail, Raw, Meaning;
    AtBound(s, i + |body|, "\"");
    if body == "" {
      ScanQuote(s, i, acc);
      EmptyMeaning(acc);
    } else {
      FirstUnitOf(body);
      var n := UnitSize(body);
      var u, rest := body[..n], body[n..];
      AtSplit(s, i, u, rest);
      ScanUnit(s, i, u, acc);
      ScanBody(s, i + n, rest, acc + UnitMeaning(u));
      ConcatAssoc(acc, UnitMeaning(u), Meaning(rest));
    }
  }

  lemma OpenQuote(s: string, i: nat)
    requires At(s, i, "\"")
    ensures i < |s| && s[i] == '"' && ScanString(s, i) == StringTail(s, i + 1, "")
  {
    hide StringTail;
    AtChar(s, i, "\"", 0);
  }

  lemma QuotedAt(s: string, i: nat, body: string)
    requires Raw(body) && At(s, i, "\"" + body + "\"")
    ensures i < |s| && s[i] == '"' && ScanString(s, i) == Some((Meaning(body), i + |body| + 2))
  {
    hide At, Raw, StringTail, ScanString, Meaning;
    AtSplit(s, i, "\"" + body, "\"");
    AtSplit(s, i, "\"", body);
    OpenQuote(s, i);
    ScanBody(s, i + 1, body, "");
    assert "" + Meaning(body) == Meaning(body);
  }

  lemma FirstUnit(a: string, b: string)
    requires Raw(a) && a != ""
    ensures var n := UnitSize(a);
            n <= |a| && UnitSize(a + b) == n && (a + b)[..n] == a[..n] && (a + b)[n..] == a[n..] + b
  {
    if UnitSize(a) <= |a| { TakeDrop(a, b, UnitSize(a)); }
  }

  lemma {:induction false} RawConcat(a: string, b: string)
    requires Raw(a) && Raw(b)
    ensures Raw(a + b) && Meaning(a + b) == Meaning(a) + Meaning(b)
    decreases |a|
  {
    if a == "" {
      assert a + b == b;
    } else {
      var n := UnitSize(a);
      FirstUnit(a, b);
      hide Unit, UnitSize, UnitMeaning;
      RawConcat(a[n..], b);
      ConcatAssoc(UnitMeaning(a[..n]), Meaning(a[n..]), Meaning(b));
    }
  }

  lemma RawUnit(u: string)
    requires Unit(u)
    ensures Raw(u) && Meaning(u) == UnitMeaning(u)
  {
    assert u[..|u|] == u && u[|u|..] == "" && UnitSize(u) == |u|;
    assert Raw("") && Meaning("") == "";
    assert UnitMeaning(u) + "" == UnitMeaning(u);
  }

  lemma HexOfByte(n: nat)
    requires n < 32
    ensures AllHex(['0', '0', HexChar(n / 16), HexChar(n % 16)])
    ensures HexValue(['0', '0', HexChar(n / 16), HexChar(n % 16)]) == n
  {
    var h := ['0', '0', HexChar(n / 16), HexChar(n % 16)];
    assert h[..3] == ['0', '0', HexChar(n / 16)] && h[..3][..2] == ['0', '0'] && h[..2][..1] == ['0'];
    assert HexValue(['0']) == 0;
    assert HexValue(['0', '0']) == 0 by { assert ['0', '0'][..1] == ['0']; }
    assert HexValue(h[..3]) == n / 16;
  }

  lemma EscapedChar(c: char)
    ensures Raw(EscapeChar(c)) && Meaning(EscapeChar(c)) == [c]
  {
    var u := EscapeChar(c);
    if |u| == 6 {
      HexOfByte(c as nat);
      assert u[2..6] == ['0', '0', HexChar(c as nat / 16), HexChar(c as nat % 16)];
    }
    RawUnit(u);
  }

  /** The escaper's output is a complete body that denotes its input, for every string. */
  lemma {:induction false} EscapeRoundTrip(s: string)
    ensures Raw(Escape(s)) && Meaning(Escape(s)) == s
    decreases |s|
  {
    hide EscapeChar, Raw, Meaning;
    EmptyMeaning("");
    if s != "" {
      var front, last := s[..|s| - 1], s[|s| - 1];
      EscapeRoundTrip(front);
      EscapedChar(last);
      RawConcat(Escape(front), EscapeChar(last));
    }
  }

  // ----- nested values ---------------------------------------------------------------------

  /** A piece of a nested value: a bracket, a quoted string, or any other character. */
  datatype Token = Bracket(c: char) | Quoted(body: string) | Plain(c: char)

  predicate TokenOk(t: Token) {
    match t
    case Bracket(c) => IsOpen(c) || IsClose(c)
    case Quoted(body) => Raw(body)
    case Plain(c) => c != '"' && !IsOpen(c) && !IsClose(c)
  }

  function TokenText(t: Token): (s: string)
    ensures s != ""
  {
    match t
    case Bracket(c) => [c]
    case Quoted(body) => "\"" + body + "\""
    case Plain(c) => [c]
  }

  function TokensText(ts: seq<Token>): string {
    if ts == [] then "" else TokenText(ts[0]) + TokensText(ts[1..])
  }

  function DepthAfter(t: Token, depth: nat): int {
    if t.Bracket? then (if IsOpen(t.c) then depth + 1 else depth - 1) else depth
  }

  /** Inside `depth` open brackets, the last token is the first to close them all. */
  predicate ClosesAtEnd(ts: seq<Token>, depth: nat)
    decreases |ts|
  {
    && ts != [] && TokenOk(ts[0]) && depth > 0
    && var after := DepthAfter(ts[0], depth);
       if |ts| == 1 then after == 0 else after > 0 && ClosesAtEnd(ts[1..], after)
  }

  /** An object or array of any depth: its first bracket closes with its last token. */
  predicate Nested(ts: seq<Token>) {
    ts != [] && ts[0].Bracket? && IsOpen(ts[0].c) && ClosesAtEnd(ts[1..], 1)
  }

  lemma SkipToken(s: string, i: nat, t: Token, depth: nat)
    requires TokenOk(t) && depth > 0 && At(s, i, TokenText(t))
    ensures var next, after := i + |TokenText(t)|, DepthAfter(t, depth);
            SkipLoop(s, i, depth) == if after == 0 then Some(next) else SkipLoop(s, next, after)
  {
    AtChar(s, i, TokenText(t), 0);
    if t.Quoted? { QuotedAt(s, i, t.body); }
  }

  /** `skipValue` stops exactly past the bracket that closes the value. */
  lemma {:induction false} SkipTokens(s: string, i: nat, ts: seq<Token>, depth: nat)
    requires ClosesAtEnd(ts, depth) && At(s, i, TokensText(ts))
    ensures SkipLoop(s, i, depth) == Some(i + |TokensText(ts)|)
    decreases |ts|
  {
    hide SkipLoop, At, TokenText, TokenOk;
    var t, rest := ts[0], ts[1..];
    assert TokensText(ts) == TokenText(t) + TokensText(rest);
    AtSplit(s, i, TokenText(t), TokensText(rest));
    SkipToken(s, i, t, depth);
    if |ts| > 1 {
      SkipTokens(s, i + |TokenText(t)|, rest, DepthAfter(t, depth));
    } else {
      assert TokensText(rest) == "";
    }
  }

  lemma SkipNested(s: string, i: nat, ts: seq<Token>)
    requires Nested(ts) && At(s, i, TokensText(ts))
    ensures SkipLoop(s, i, 0) == Some(i + |TokensText(ts)|)
  {
    AtSplit(s, i, TokenText(ts[0]), TokensText(ts[1..]));
    AtChar(s, i, TokenText(ts[0]), 0);
    SkipTokens(s, i + 1, ts[1..], 1);
  }

  // ----- members ---------------------------------------------------------------------------

  datatype Value = Str(body: string) | Num(token: string) | Box(tokens: seq<Token>) | Literal(text: string)

  /** A member with the white space around its parts. */
  datatype Member = Member(w0: string, key: string, w1: string, w2: string, value: Value, w3: string)

  predicate Spaces(w: string) {
    forall k | 0 <= k < |w| :: IsSpace(w[k])
  }

  predicate ValueOk(v: Value) {
    match v
    case Str(body) => Raw(body)
    case Num(token) =>
      token != "" && (token[0] == '-' || IsDigit(token[0])) && forall k | 0 <= k < |token| :: IsNumberChar(token[k])
    case Box(tokens) => Nested(tokens)
    case Literal(text) =>
      && text != "" && !IsSpace(text[0]) && text[0] != '-' && !IsDigit(text[0])
      && forall k | 0 <= k < |text| :: text[k] != '"' && text[k] != ',' && !IsOpen(text[k]) && !IsClose(text[k])
  }

  predicate MemberOk(m: Member) {
    Spaces(m.w0) && Spaces(m.w1) && Spaces(m.w2) && Spaces(m.w3) && Raw(m.key) && ValueOk(m.value)
  }

  function ValueText(v: Value): string {
    match v
    case Str(body) => "\"" + body + "\""
    case Num(token) => token
    case Box(tokens) => TokensText(tokens)
    case Literal(text) => text
  }

  function ValueOf(v: Value): JsonValue
    requires ValueOk(v)
  {
    match v
    case Str(body) => JStr(Meaning(body))
    case Num(token) => JNum(token)
    case _ => JOther
  }

  function MemberText(m: Member): string {
    m.w0 + "\"" + m.key + "\"" + m.w1 + ":" + m.w2 + ValueText(m.value) + m.w3
  }

  predicate MembersOk(ms: seq<Member>) {
    forall k | 0 <= k < |ms| :: MemberOk(ms[k])
  }

  /** Members separated by commas, then the closing brace. */
  function MembersText(ms: seq<Member>): string
    requires ms != []
    decreases |ms|
  {
    MemberText(ms[0]) + if |ms| == 1 then "}" else "," + MembersText(ms[1..])
  }

  function ObjectText(w: string, ms: seq<Member>): string {
    w + "{" + if ms == [] then "}" else MembersText(ms)
  }

  /** The object a list of members denotes, later members replacing earlier ones of the same key. */
  function Denote(ms: seq<Member>, out: JsonObject): JsonObject
    requires MembersOk(ms)
    decreases |ms|
  {
    if ms == [] then out else Denote(ms[1..], out[Meaning(ms[0].key) := ValueOf(ms[0].value)])
  }

  // ----- scanning a member -------------------------------------------------------------------

  lemma {:induction false} SkipSpaces(s: string, i: nat, w: string)
    requires At(s, i, w) && Spaces(w) && (i + |w| == |s| || !IsSpace(s[i + |w|]))
    ensures SkipWs(s, i) == i + |w|
    decreases |w|
  {
    if w != "" {
      AtChar(s, i, w, 0);
      assert w == [w[0]] + w[1..];
      AtSplit(s, i, [w[0]], w[1..]);
      SkipSpaces(s, i + 1, w[1..]);
    }
  }

  lemma {:induction false} RunAt(s: string, i: nat, token: string)
    requires At(s, i, token) && (forall k | 0 <= k < |token| :: IsNumberChar(token[k]))
    requires i + |token| < |s| && !IsNumberChar(s[i + |token|])
    ensures NumberRun(s, i) == i + |token|
    decreases |token|
  {
    if token != "" {
      AtChar(s, i, token, 0);
      assert token == [token[0]] + token[1..];
      AtSplit(s, i, [token[0]], token[1..]);
      RunAt(s, i + 1, token[1..]);
    }
  }

  lemma NumberAt(s: string, i: nat, token: string)
    requires ValueOk(Num(token)) && At(s, i, token)
    requires i + |token| < |s| && !IsNumberChar(s[i + |token|])
    ensures i < |s| && s[i] == token[0] && NumberEnd(s, i) == i + |token|
  {
    AtChar(s, i, token, 0);
    RunAt(s, i, token);
  }

  /** A bare literal is skipped up to a comma, or past a closing bracket. */
  lemma {:induction false} SkipLiteral(s: string, i: nat, text: string)
    requires At(s, i, text) && i + |text| < |s| && (s[i + |text|] == ',' || s[i + |text|] == '}')
    requires forall k | 0 <= k < |text| :: text[k] != '"' && text[k] != ',' && !IsOpen(text[k]) && !IsClose(text[k])
    ensures SkipLoop(s, i, 0) == Some(if s[i + |text|] == ',' then i + |text| else i + |text| + 1)
    decreases |text|
  {
    if text != "" {
      AtChar(s, i, text, 0);
      assert text == [text[0]] + text[1..];
      AtSplit(s, i, [text[0]], text[1..]);
      SkipLiteral(s, i + 1, text[1..]);
    }
  }

  lemma BoxAt(s: string, i: nat, tokens: seq<Token>)
    requires Nested(tokens) && At(s, i, TokensText(tokens))
    ensures i < |s| && IsOpen(s[i]) && SkipLoop(s, i, 0) == Some(i + |TokensText(tokens)|)
  {
    AtSplit(s, i, TokenText(tokens[0]), TokensText(tokens[1..]));
    AtChar(s, i, TokenText(tokens[0]), 0);
    SkipNested(s, i, tokens);
  }

  lemma LiteralAt(s: string, i: nat, text: string, w: string)
    requires ValueOk(Literal(text)) && Spaces(w) && At(s, i, text) && At(s, i + |text|, w)
    requires var e := i + |text| + |w|; e < |s| && (s[e] == ',' || s[e] == '}')
    ensures var e := i + |text| + |w|;
            s[i] == text[0] && SkipLoop(s, i, 0) == Some(if s[e] == ',' then e else e + 1)
  {
    AtChar(s, i, text, 0);
    AtSplit(s, i, text, w);
    assert forall k | 0 <= k < |w| :: IsSpace(w[k]);
    SkipLiteral(s, i, text + w);
  }

  /** The character after a value is white space or a separator. */
  lemma NextChar(s: string, i: nat, w: string)
    requires Spaces(w) && At(s, i, w) && i + |w| < |s| && (s[i + |w|] == ',' || s[i + |w|] == '}')
    ensures i < |s| && !IsNumberChar(s[i])
  {
    if w != "" { AtChar(s, i, w, 0); }
  }

  /** Where the scanner stands after a value, and what it got. */
  lemma ValueAt(s: string, i: nat, v: Value, w: string)
    requires ValueOk(v) && Spaces(w) && At(s, i, ValueText(v)) && At(s, i + |ValueText(v)|, w)
    requires var e := i + |ValueText(v)| + |w|; e < |s| && (s[e] == ',' || s[e] == '}')
    ensures var e := i + |ValueText(v)| + |w|;
            ScanValue(s, i) == Some((ValueOf(v), if !v.Literal? then i + |ValueText(v)| else if s[e] == ',' then e else e + 1))
  {
    hide At, Raw, Meaning, SkipLoop, ScanString, Nested, TokensText, NumberEnd, Spaces;
    match v
    case Str(body) => QuotedAt(s, i, body);
    case Num(token) =>
      NextChar(s, i + |token|, w);
      NumberAt(s, i, token);
      AtIs(s, i, token);
    case Box(tokens) => BoxAt(s, i, tokens);
    case Literal(text) => LiteralAt(s, i, text, w);
  }

  lemma AtIs(s: string, i: nat, text: string)
    requires At(s, i, text)
    ensures i + |text| <= |s| && s[i..i + |text|] == text
  {
  }

  lemma ValueStart(v: Value)
    requires ValueOk(v)
    ensures ValueText(v) != "" && !IsSpace(ValueText(v)[0])
  {
  }

  /** The parts of a member, and where they stand. */
  lemma MemberParts(s: string, i: nat, m: Member)
    requires MemberOk(m) && At(s, i, MemberText(m))
    ensures var k := i + |m.w0|;
            var c := k + |m.key| + 2 + |m.w1|;
            var v := c + 1 + |m.w2|;
            var e := v + |ValueText(m.value)| + |m.w3|;
            && At(s, i, m.w0) && At(s, k, "\"" + m.key + "\"") && At(s, k + |m.key| + 2, m.w1) && At(s, c, ":")
            && At(s, c + 1, m.w2) && At(s, v, ValueText(m.value)) && At(s, v + |ValueText(m.value)|, m.w3)
            && e == i + |MemberText(m)|
  {
    hide At, ValueText;
    var key, value := "\"" + m.key + "\"", ValueText(m.value);
    var p1 := m.w0 + key;
    var p2 := p1 + m.w1;
    var p3 := p2 + ":";
    var p4 := p3 + m.w2;
    assert m.w0 + "\"" + m.key + "\"" == p1;
    assert MemberText(m) == p4 + value + m.w3;
    AtSplit(s, i, p4 + value, m.w3);
    AtSplit(s, i, p4, value);
    AtSplit(s, i, p3, m.w2);
    AtSplit(s, i, p2, ":");
    AtSplit(s, i, p1, m.w1);
    AtSplit(s, i, m.w0, key);
  }

  /** The scanner's index at the parts of a member up to the colon, white space skipped. */
  lemma KeyIndices(s: string, i: nat, m: Member)
    requires MemberOk(m) && At(s, i, MemberText(m))
    ensures var k := i + |m.w0|;
            var c := k + |m.key| + 2 + |m.w1|;
            && ScanString(s, k) == Some((Meaning(m.key), k + |m.key| + 2)) && c < |s| && s[c] == ':'
            && SkipWs(s, i) == k && SkipWs(s, k + |m.key| + 2) == c
  {
    hide ScanString, At, Raw, MemberText, ValueText, ValueOk, Spaces, SkipWs, Meaning;
    MemberParts(s, i, m);
    var k := i + |m.w0|;
    var c := k + |m.key| + 2 + |m.w1|;
    QuotedAt(s, k, m.key);
    AtBound(s, c, ":");
    AtChar(s, c, ":", 0);
    SkipSpaces(s, i, m.w0);
    SkipSpaces(s, k + |m.key| + 2, m.w1);
  }

  /** The same for the parts after the colon. */
  lemma ValueIndices(s: string, i: nat, m: Member)
    requires MemberOk(m) && At(s, i, MemberText(m))
    requires var e := i + |MemberText(m)|; e < |s| && !IsSpace(s[e])
    ensures var c := i + |m.w0| + |m.key| + 2 + |m.w1|;
            var v := c + 1 + |m.w2|;
            var e := i + |MemberText(m)|;
            SkipWs(s, c + 1) == v && SkipWs(s, v + |ValueText(m.value)|) == e && SkipWs(s, e) == e
  {
    hide ScanString, At, Raw, MemberText, ValueText, ValueOk, Spaces, SkipWs, Meaning;
    MemberParts(s, i, m);
    var c := i + |m.w0| + |m.key| + 2 + |m.w1|;
    var v := c + 1 + |m.w2|;
    var e := i + |MemberText(m)|;
    ValueStart(m.value);
    AtChar(s, v, ValueText(m.value), 0);
    SkipSpaces(s, c + 1, m.w2);
    SkipSpaces(s, e - |m.w3|, m.w3);
    AfterSpaces(s, e);
  }

  lemma MemberAt(s: string, i: nat, m: Member)
    requires MemberOk(m) && At(s, i, MemberText(m))
    requires var e := i + |MemberText(m)|; e < |s| && (s[e] == ',' || s[e] == '}')
    ensures var e := i + |MemberText(m)|;
            if m.value.Literal? && s[e] == '}' then
              ScanMember(s, i) == Some((Meaning(m.key), JOther, SkipWs(s, e + 1)))
            else ScanMember(s, i) == Some((Meaning(m.key), ValueOf(m.value), e))
  {
    hide ScanString, ScanValue, At, Raw, MemberText, ValueText, ValueOk, Spaces, SkipWs, Meaning, IsOpen, IsClose;
    KeyIndices(s, i, m);
    ValueIndices(s, i, m);
    MemberParts(s, i, m);
    ValueAt(s, i + |m.w0| + |m.key| + 2 + |m.w1| + 1 + |m.w2|, m.value, m.w3);
  }

  lemma AfterSpaces(s: string, e: nat)
    requires e < |s| && !IsSpace(s[e])
    ensures SkipWs(s, e) == e
  {
  }

  // ----- whole objects ----------------------------------------------------------------------

  /** The first member of a text, the separator after it, and the rest. */
  lemma FirstMember(s: string, i: nat, ms: seq<Member>)
    requires ms != [] && At(s, i, MembersText(ms))
    ensures var e := i + |MemberText(ms[0])|;
            && At(s, i, MemberText(ms[0])) && e < |s| && s[e] == (if |ms| == 1 then '}' else ',')
            && (|ms| > 1 ==> At(s, e + 1, MembersText(ms[1..]))
                             && |MembersText(ms)| == |MemberText(ms[0])| + 1 + |MembersText(ms[1..])|)
            && (|ms| == 1 ==> |MembersText(ms)| == |MemberText(ms[0])| + 1)
  {
    hide MemberText, At;
    var rest := if |ms| == 1 then "}" else "," + MembersText(ms[1..]);
    var e := i + |MemberText(ms[0])|;
    assert MembersText(ms) == MemberText(ms[0]) + rest;
    AtSplit(s, i, MemberText(ms[0]), rest);
    AtBound(s, e, rest);
    AtChar(s, e, rest, 0);
    if |ms| > 1 { AtSplit(s, e, ",", MembersText(ms[1..])); }
  }

  /** A text whose last member is not a bare literal scans to what its members denote, whatever follows. */
  lemma {:induction false} MembersAt(s: string, i: nat, ms: seq<Member>, out: JsonObject)
    requires ms != [] && MembersOk(ms) && At(s, i, MembersText(ms)) && !ms[|ms| - 1].value.Literal?
    ensures i <= |s| && ScanMembers(s, i, out) == Some(Denote(ms, out))
    decreases |ms|
  {
    hide At, MemberText, MembersText, ScanMember, Raw, Meaning, ValueOf, ValueOk, Spaces;
    FirstMember(s, i, ms);
    MemberAt(s, i, ms[0]);
    var out' := out[Meaning(ms[0].key) := ValueOf(ms[0].value)];
    if |ms| > 1 {
      MembersAt(s, i + |MemberText(ms[0])| + 1, ms[1..], out');
    } else {
      assert Denote(ms[1..], out') == out';
    }
  }

  /** A text that ends with a bare literal's closing brace does not scan: the literal swallows the brace. */
  lemma {:induction false} LiteralSwallowsBrace(s: string, i: nat, ms: seq<Member>, out: JsonObject)
    requires ms != [] && MembersOk(ms) && At(s, i, MembersText(ms)) && ms[|ms| - 1].value.Literal?
    requires |s| == i + |MembersText(ms)|
    ensures ScanMembers(s, i, out) == None
    decreases |ms|
  {
    hide At, MemberText, MembersText, ScanMember, Raw, Meaning, ValueOf, ValueOk, Spaces;
    FirstMember(s, i, ms);
    MemberAt(s, i, ms[0]);
    if |ms| > 1 {
      var out' := out[Meaning(ms[0].key) := ValueOf(ms[0].value)];
      LiteralSwallowsBrace(s, i + |MemberText(ms[0])| + 1, ms[1..], out');
    }
  }

  /** After the white space of its first member a text has a quote, not a closing brace. */
  lemma FirstQuote(s: string, i: nat, ms: seq<Member>)
    requires ms != [] && MembersOk(ms) && At(s, i, MembersText(ms))
    ensures SkipWs(s, i) < |s| && s[SkipWs(s, i)] == '"'
  {
    hide At, MemberText, MembersText, Raw, ValueOk;
    var m := ms[0];
    FirstMember(s, i, ms);
    MemberParts(s, i, m);
    AtChar(s, i + |m.w0|, "\"" + m.key + "\"", 0);
    SkipSpaces(s, i, m.w0);
  }

  lemma ObjectStart(w: string, ms: seq<Member>)
    requires Spaces(w) && ms != [] && MembersOk(ms)
    ensures var s := ObjectText(w, ms);
            At(s, |w| + 1, MembersText(ms)) && |s| == |w| + 1 + |MembersText(ms)|
            && ParseObject(s) == ScanMembers(s, SkipWs(s, |w| + 1), map[])
            && SkipWs(s, |w| + 1) <= |s|
  {
    hide Raw, ScanMembers, MembersText;
    var s := ObjectText(w, ms);
    assert At(s, 0, w + "{" + MembersText(ms));
    AtSplit(s, 0, w + "{", MembersText(ms));
    AtSplit(s, 0, w, "{");
    AtChar(s, |w|, "{", 0);
    SkipSpaces(s, 0, w);
    FirstQuote(s, |w| + 1, ms);
  }

  /** Scanning from after the white space of the first member is the same as scanning from before it. */
  lemma SpacesFirst(s: string, i: nat, out: JsonObject)
    requires i <= |s|
    ensures SkipWs(s, i) <= |s| && ScanMembers(s, SkipWs(s, i), out) == ScanMembers(s, i, out)
  {
    hide ScanString, ScanValue;
    SkipTwice(s, i);
    assert ScanMember(s, SkipWs(s, i)) == ScanMember(s, i);
  }

  lemma {:induction false} SkipTwice(s: string, i: nat)
    requires i <= |s|
    ensures SkipWs(s, SkipWs(s, i)) == SkipWs(s, i)
    decreases |s| - i
  {
    if i < |s| && IsSpace(s[i]) { SkipTwice(s, i + 1); }
  }

  lemma EmptyObject(w: string)
    requires Spaces(w)
    ensures ParseObject(ObjectText(w, [])) == Some(map[])
  {
    hide ScanMembers;
    var s := ObjectText(w, []);
    assert s == w + "{}" && At(s, 0, w + "{}");
    AtSplit(s, 0, w, "{}");
    AtChar(s, |w|, "{}", 0);
    AtChar(s, |w|, "{}", 1);
    SkipSpaces(s, 0, w);
    AfterSpaces(s, |w| + 1);
  }

  /**
   * Every object text, with white space anywhere and nested values of any depth, parses to what its members denote;
   * the only ones that do not parse at all are those whose last member is a bare literal.
   */
  lemma ParsesExactly(w: string, ms: seq<Member>)
    requires Spaces(w) && MembersOk(ms)
    ensures ParseObject(ObjectText(w, ms))
         == if ms != [] && ms[|ms| - 1].value.Literal? then None else Some(Denote(ms, map[]))
  {
    hide ParseObject, ObjectText, ScanMembers, MembersText, At, MemberOk, SkipWs, Spaces, Raw, Meaning, ValueOf;
    if ms == [] {
      EmptyObject(w);
    } else {
      ObjectStart(w, ms);
      var s := ObjectText(w, ms);
      SpacesFirst(s, |w| + 1, map[]);
      if ms[|ms| - 1].value.Literal? {
        LiteralSwallowsBrace(s, |w| + 1, ms, map[]);
      } else {
        MembersAt(s, |w| + 1, ms, map[]);
      }
    }
  }

  // ----- unknown members ----------------------------------------------------------------------

  lemma {:induction false} DenoteConcat(a: seq<Member>, b: seq<Member>, out: JsonObject)
    requires MembersOk(a) && MembersOk(b)
    ensures MembersOk(a + b) && Denote(a + b, out) == Denote(b, Denote(a, out))
    decreases |a|
  {
    hide Raw, Meaning, ValueOf, ValueOk;
    if a == [] {
      assert a + b == b;
    } else {
      DenoteConcat(a[1..], b, out[Meaning(a[0].key) := ValueOf(a[0].value)]);
      assert (a + b)[1..] == a[1..] + b;
    }
  }

  /** Members after it do not care about a key they do not have. */
  lemma {:induction false} DenoteFresh(ms: seq<Member>, key: string, v: JsonValue, out: JsonObject)
    requires MembersOk(ms) && forall k | 0 <= k < |ms| :: Meaning(ms[k].key) != key
    ensures Denote(ms, out[key := v]) == Denote(ms, out)[key := v]
    decreases |ms|
  {
    if ms != [] {
      var k, x := Meaning(ms[0].key), ValueOf(ms[0].value);
      assert Meaning(ms[0].key) != key;
      assert out[key := v][k := x] == out[k := x][key := v];
      DenoteFresh(ms[1..], key, v, out[k := x]);
    }
  }

  lemma DenoteBox(m: Member, out: JsonObject)
    requires MemberOk(m) && m.value.Box?
    ensures Denote([m], out) == out[Meaning(m.key) := JOther]
  {
    assert [m][1..] == [];
  }

  /**
   * A member with a fresh key and any object or array as its value can be put anywhere into a text that parses, and
   * leaves every other member as it was.
   */
  lemma NestedIsTransparent(w: string, a: seq<Member>, m: Member, b: seq<Member>)
    requires Spaces(w) && MembersOk(a) && MembersOk(b) && MemberOk(m) && m.value.Box?
    requires a + b != [] ==> !(a + b)[|a + b| - 1].value.Literal?
    requires forall k | 0 <= k < |b| :: Meaning(b[k].key) != Meaning(m.key)
    ensures MembersOk(a + b) && MembersOk(a + [m] + b)
    ensures ParseObject(ObjectText(w, a + b)).Some?
    ensures ParseObject(ObjectText(w, a + [m] + b))
         == Some(ParseObject(ObjectText(w, a + b)).value[Meaning(m.key) := JOther])
  {
    hide ParseObject, ObjectText, Raw, Meaning, ValueOf, Nested;
    var with := a + [m] + b;
    ParsesExactly(w, a + b);
    ParsesExactly(w, with);
    DenoteConcat(a, b, map[]);
    DenoteConcat(a, [m], map[]);
    DenoteConcat(a + [m], b, map[]);
    DenoteFresh(b, Meaning(m.key), JOther, Denote(a, map[]));
    DenoteBox(m, Denote(a, map[]));
  }
}
