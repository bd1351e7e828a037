/** The scanner object of src/common/protocol.cpp, which advances an index over its text. */
module JsonScanner {
  import opened Common
  import opened Text
  import opened JsonText

  class Scanner {
    const s: string
    var i: nat

    ghost predicate Valid()
      reads this
    {
      i <= |s|
    }

    constructor (s: string)
      ensures Valid() && this.s == s && i == 0
    {
      this.s, i := s, 0;
    }

    method Peek() returns (c: char)
      ensures c == JsonText.Peek(s, i)
    {
      c := if i < |s| then s[i] else 0 as char;
    }

    method Ws()
      requires Valid()
      modifies this
      ensures Valid() && i == SkipWs(s, old(i))
    {
      while i < |s| && IsSpace(s[i])
        invariant Valid() && SkipWs(s, i) == SkipWs(s, old(i))
      {
        i := i + 1;
      }
    }

    method Eat(c: char) returns (ok: bool)
      requires Valid()
      modifies this
      ensures Valid() && ok == (old(i) < |s| && s[old(i)] == c) && i == if ok then old(i) + 1 else old(i)
    {
      if i < |s| && s[i] == c {
        i := i + 1;
        return true;
      }
      ok := false;
    }

    /** The four digits of a `\u` escape. */
    method HexCode() returns (code: Option<nat>)
      requires Valid()
      modifies this
      ensures Valid() && i >= old(i)
      ensures code.Some? <==> old(i) + 4 <= |s| && AllHex(s[old(i)..old(i) + 4])
      ensures code.Some? ==> i == old(i) + 4 && code.value == HexValue(s[old(i)..old(i) + 4]) < 0x1_0000
    {
      if i + 4 > |s| { return None; }
      ghost var digits := s[i..i + 4];
      var n := 0;
      for k := 0 to 4
        invariant i == old(i) && AllHex(digits[..k]) && n == HexValue(digits[..k])
      {
        var h := s[i + k];
        assert h == digits[k];
        if !IsHex(h) { return None; }
        assert digits[..k + 1][..k] == digits[..k];
        n := 16 * n + HexDigit(h);
      }
      assert digits[..4] == digits;
      HexValueBound(digits);
      i := i + 4;
      code := Some(n);
    }

    /** `string` */
    method String() returns (r: Option<string>)
      requires Valid()
      modifies this
      ensures Valid() && i >= old(i)
      ensures var spec := ScanString(s, old(i));
              r == (match spec case None => None case Some((v, _)) => Some(v)) && (r.Some? ==> i == spec.value.1)
    {
      var quoted := Eat('"');
      if !quoted { return None; }
      ghost var spec := StringTail(s, i, "");
      var out := "";
      while i < |s|
        invariant Valid() && i > old(i) && StringTail(s, i, out) == spec
      {
        var c := s[i];
        i := i + 1;
        if c == '"' { return Some(out); }
        if c == '\\' && i < |s| {
          var e := s[i];
          i := i + 1;
          if e == 'u' {
            var code := HexCode();
            if code.None? { return None; }
            out := out + Utf8(code.value);
          } else {
            out := out + [Unescaped(e)];
          }
          continue;
        }
        out := out + [c];
      }
      r := None;
    }

    /** `number`: the token that is handed to `strtod`. */
    method Number() returns (token: string)
      requires Valid() && i < |s|
      modifies this
      ensures Valid() && i == NumberEnd(s, old(i)) && token == s[old(i)..i]
    {
      var start := i;
      if s[i] == '-' { i := i + 1; }
      while i < |s| && IsNumberChar(s[i])
        invariant Valid() && i >= start && NumberRun(s, i) == NumberEnd(s, start)
      {
        i := i + 1;
      }
      token := s[start..i];
    }

    /** `skipValue`, whose depth drops below zero on a closing bracket it did not open. */
    method SkipValue() returns (ok: bool)
      requires Valid()
      modifies this
      ensures Valid() && i >= old(i)
      ensures JsonText.Peek(s, old(i)) != '"' ==>
                ok == SkipLoop(s, old(i), 0).Some? && (ok ==> i == SkipLoop(s, old(i), 0).value)
      ensures JsonText.Peek(s, old(i)) == '"' ==>
                ok == ScanString(s, old(i)).Some? && (ok ==> i == ScanString(s, old(i)).value.1)
    {
      var first := Peek();
      if first == '"' {
        var dummy := String();
        return dummy.Some?;
      }
      var depth: int := 0;
      while i < |s|
        invariant Valid() && i >= old(i) && depth >= 0 && SkipLoop(s, i, depth) == SkipLoop(s, old(i), 0)
        decreases |s| - i
      {
        var c := s[i];
        if c == '"' {
          var dummy := String();
          if dummy.None? { return false; }
          continue;
        }
        if c == '{' || c == '[' { depth := depth + 1; }
        if c == '}' || c == ']' {
          depth := depth - 1;
          i := i + 1;
          if depth <= 0 { return true; }
          continue;
        }
        if depth == 0 && (c == ',' || c == '}') { return true; }
        i := i + 1;
      }
      ok := depth == 0;
    }

    /** The value of a member. */
    method Value() returns (v: Option<JsonValue>)
      requires Valid()
      modifies this
      ensures Valid() && i >= old(i)
      ensures var spec := ScanValue(s, old(i));
              v == (match spec case None => None case Some((x, _)) => Some(x)) && (v.Some? ==> i == spec.value.1)
    {
      var c := Peek();
      if c == '"' {
        var str := String();
        if str.None? { return None; }
        v := Some(JStr(str.value));
      } else if c == '-' || IsDigit(c) {
        var token := Number();
        v := Some(JNum(token));
      } else {
        var ok := SkipValue();
        if !ok { return None; }
        v := Some(JOther);
      }
    }

    /** The body of the member loop of `parseObject`, up to the separator. */
    method Member() returns (m: Option<(string, JsonValue)>)
      requires Valid()
      modifies this
      ensures Valid() && i >= old(i)
      ensures var spec := ScanMember(s, old(i));
              m == (match spec case None => None case Some((k, v, _)) => Some((k, v))) && (m.Some? ==> i == spec.value.2)
    {
      hide ScanString, ScanValue;
      Ws();
      var key := String();
      if key.None? { return None; }
      Ws();
      var colon := Eat(':');
      if !colon { return None; }
      Ws();
      var v := Value();
      if v.None? { return None; }
      Ws();
      m := Some((key.value, v.value));
    }

    /** `parseObject` */
    method ParseObject() returns (out: Option<JsonObject>)
      requires Valid() && i == 0
      modifies this
      ensures Valid() && out == JsonText.ParseObject(s)
    {
      hide ScanMember, SkipWs;
      Ws();
      var open := Eat('{');
      if !open { return None; }
      Ws();
      var empty := Eat('}');
      if empty { return Some(map[]); }
      var members: JsonObject := map[];
      while true
        invariant Valid() && ScanMembers(s, i, members) == JsonText.ParseObject(s)
        decreases |s| - i
      {
        var m := Member();
        if m.None? { return None; }
        hide JsonText.ParseObject;
        members := members[m.value.0 := m.value.1];
        var more := Eat(',');
        if more { continue; }
        var close := Eat('}');
        if close { return Some(members); }
        return None;
      }
    }
  }

  /** `parseControlMessage` */
  method ParseControlMessage(text: string) returns (r: Option<JsonObject>)
    ensures r == ParseControl(text)
  {
    var sc := new Scanner(text);
    var obj := sc.ParseObject();
    if obj.None? { return None; }
    if "type" !in obj.value || !obj.value["type"].JStr? || obj.value["type"].str == "" { return None; }
    r := obj;
  }

  /** `jsonEscape` */
  method JsonEscape(s: string) returns (out: string)
    ensures out == Escape(s)
  {
    out := "";
    for k := 0 to |s|
      invariant out == Escape(s[..k])
    {
      assert s[..k + 1][..k] == s[..k];
      out := out + EscapeChar(s[k]);
    }
    assert s[..|s|] == s;
  }
}
