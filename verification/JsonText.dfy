/**
 * The control-message scanner of src/common/protocol.cpp as functions of a text and an index.  A text is a byte
 * string, one `char` a byte.
 */
module JsonText {
  import opened Common
  import opened Text

  /** A parsed member: a string, a number kept as its token, or a value that was skipped. */
  datatype JsonValue = JStr(str: string) | JNum(token: string) | JOther

  type JsonObject = map<string, JsonValue>

  // ----- characters -------------------------------------------------------------------

  /** `std::isspace` in the C locale. */
  predicate IsSpace(c: char) {
    c == ' ' || 9 as char <= c <= 13 as char
  }

  predicate IsNumberChar(c: char) {
    IsDigit(c) || c == '.' || c == 'e' || c == 'E' || c == '+' || c == '-'
  }

  predicate IsOpen(c: char) {
    c == '{' || c == '['
  }

  predicate IsClose(c: char) {
    c == '}' || c == ']'
  }

  /** UTF-8 of a code point read from four hex digits; surrogates become a question mark. */
  function Utf8(code: nat): string
    requires code < 0x1_0000
  {
    if code < 0x80 then [code as char]
    else if code < 0x800 then [(0xC0 + code / 64) as char, (0x80 + code % 64) as char]
    else if 0xD800 <= code <= 0xDFFF then "?"
    else [(0xE0 + code / 4096) as char, (0x80 + code / 64 % 64) as char, (0x80 + code % 64) as char]
  }

  /** What a backslash followed by `e`, not `u`, stands for. */
  function Unescaped(e: char): char {
    if e == 'n' then '\n'
    else if e == 'r' then '\r'
    else if e == 't' then '\t'
    else if e == 'b' then 8 as char
    else if e == 'f' then 12 as char
    else e
  }

  // ----- the scanner --------------------------------------------------------------------

  function Peek(s: string, i: nat): char {
    if i < |s| then s[i] else 0 as char
  }

  function SkipWs(s: string, i: nat): (j: nat)
    ensures i <= j && (i <= |s| ==> j <= |s|)
    decreases |s| - i
  {
    if i < |s| && IsSpace(s[i]) then SkipWs(s, i + 1) else i
  }

  /** The rest of a quoted string: its value and the index past the closing quote. */
  function StringTail(s: string, i: nat, acc: string): (r: Option<(string, nat)>)
    ensures r.Some? ==> i < r.value.1 <= |s|
    decreases |s| - i
  {
    if i >= |s| then None
    else if s[i] == '"' then Some((acc, i + 1))
    else if s[i] == '\\' && i + 1 < |s| then
      if s[i + 1] == 'u' then
        if i + 6 > |s| || !AllHex(s[i + 2..i + 6]) then None
        else
          HexValueBound(s[i + 2..i + 6]);
          StringTail(s, i + 6, acc + Utf8(HexValue(s[i + 2..i + 6])))
      else StringTail(s, i + 2, acc + [Unescaped(s[i + 1])])
    else StringTail(s, i + 1, acc + [s[i]])
  }

  /** `string` */
  function ScanString(s: string, i: nat): (r: Option<(string, nat)>)
    ensures r.Some? ==> i + 1 < r.value.1 <= |s|
  {
    if Peek(s, i) == '"' && i < |s| then StringTail(s, i + 1, "") else None
  }

  function NumberRun(s: string, i: nat): (j: nat)
    ensures i <= j && (i <= |s| ==> j <= |s|)
    decreases |s| - i
  {
    if i < |s| && IsNumberChar(s[i]) then NumberRun(s, i + 1) else i
  }

  /** `number` consumes an optional minus sign, then every character a number may hold. */
  function NumberEnd(s: string, i: nat): (j: nat)
    requires i < |s|
    ensures i <= j <= |s|
  {
    NumberRun(s, if s[i] == '-' then i + 1 else i)
  }

  /** The loop of `skipValue`, `depth` brackets in: the index it stops at. */
  function SkipLoop(s: string, i: nat, depth: nat): (r: Option<nat>)
    ensures r.Some? ==> i <= r.value && (i <= |s| ==> r.value <= |s|)
    decreases |s| - i
  {
    if i >= |s| then (if depth == 0 then Some(i) else None)
    else if s[i] == '"' then
      var q := ScanString(s, i);
      if q.None? then None else SkipLoop(s, q.value.1, depth)
    else if IsOpen(s[i]) then SkipLoop(s, i + 1, depth + 1)
    else if IsClose(s[i]) then
      if depth <= 1 then Some(i + 1) else SkipLoop(s, i + 1, depth - 1)
    else if depth == 0 && s[i] == ',' then Some(i)
    else SkipLoop(s, i + 1, depth)
  }

  /** A member's value and the index past it. */
  function ScanValue(s: string, i: nat): (r: Option<(JsonValue, nat)>)
    requires i <= |s|
    ensures r.Some? ==> i <= r.value.1 <= |s|
  {
    if Peek(s, i) == '"' then
      var q := ScanString(s, i);
      if q.None? then None else Some((JStr(q.value.0), q.value.1))
    else if Peek(s, i) == '-' || IsDigit(Peek(s, i)) then
      var end := NumberEnd(s, i);
      Some((JNum(s[i..end]), end))
    else
      var end := SkipLoop(s, i, 0);
      if end.None? then None else Some((JOther, end.value))
  }

  /** One turn of the member loop, up to the separator after it. */
  function ScanMember(s: string, i: nat): (r: Option<(string, JsonValue, nat)>)
    requires i <= |s|
    ensures r.Some? ==> i < r.value.2 <= |s|
  {
    var key := ScanString(s, SkipWs(s, i));
    if key.None? then None
    else
      var colon := SkipWs(s, key.value.1);
      if colon == |s| || s[colon] != ':' then None
      else
        var value := ScanValue(s, SkipWs(s, colon + 1));
        if value.None? then None
        else Some((key.value.0, value.value.0, SkipWs(s, value.value.1)))
  }

  /** The member loop of `parseObject`. */
  function ScanMembers(s: string, i: nat, out: JsonObject): Option<JsonObject>
    requires i <= |s|
    decreases |s| - i
  {
    var m := ScanMember(s, i);
    if m.None? then None
    else
      var (key, value, j) := m.value;
      var out' := out[key := value];
      if j < |s| && s[j] == ',' then ScanMembers(s, j + 1, out')
      else if j < |s| && s[j] == '}' then Some(out')
      else None
  }

  /** `parseObject` */
  function ParseObject(s: string): Option<JsonObject> {
    var i := SkipWs(s, 0);
    if i == |s| || s[i] != '{' then None
    else
      var j := SkipWs(s, i + 1);
      if j < |s| && s[j] == '}' then Some(map[]) else ScanMembers(s, j, map[])
  }

  /** `parseControlMessage`: an object with a non-empty string named "type". */
  function ParseControl(s: string): Option<JsonObject> {
    var obj := ParseObject(s);
    if obj.None? || "type" !in obj.value || !obj.value["type"].JStr? || obj.value["type"].str == "" then None
    else obj
  }

  // ----- the escaper -----------------------------------------------------------------------

  /** `jsonEscape` on one byte. */
  function EscapeChar(c: char): string {
    if c == '"' then "\\\""
    else if c == '\\' then "\\\\"
    else if c == '\n' then "\\n"
    else if c == '\r' then "\\r"
    else if c == '\t' then "\\t"
    else if c == 8 as char then "\\b"
    else if c == 12 as char then "\\f"
    else if c < 32 as char then ['\\', 'u', '0', '0', HexChar(c as nat / 16), HexChar(c as nat % 16)]
    else [c]
  }

  function Escape(s: string): string {
    if s == "" then "" else Escape(s[..|s| - 1]) + EscapeChar(s[|s| - 1])
  }
}
