/** The characters of a control message: UTF-8 (section 3 of RFC 3629), escapes (section 7 of RFC 8259), hexadecimal. */
module JsonChars {
  import opened Common
  import opened Text
  import opened JsonText

  // ----- UTF-8 ---------------------------------------------------------------------------------

  /** A byte of the form 10xxxxxx. */
  predicate Continues(c: char) {
    0x80 <= c as int < 0xC0
  }

  /** The number a sequence of one, two or three bytes encodes, read by the leading bits of its first. */
  function Decoded(s: string): Option<nat> {
    if |s| == 1 && s[0] as int < 0x80 then Some(s[0] as nat)
    else if |s| == 2 && 0xC0 <= s[0] as int < 0xE0 && Continues(s[1]) then
      Some((s[0] as nat - 0xC0) * 0x40 + (s[1] as nat - 0x80))
    else if |s| == 3 && 0xE0 <= s[0] as int < 0xF0 && Continues(s[1]) && Continues(s[2]) then
      Some((s[0] as nat - 0xE0) * 0x1000 + (s[1] as nat - 0x80) * 0x40 + (s[2] as nat - 0x80))
    else None
  }

  /** Every code point but a surrogate is written in its shortest form, and reads back. */
  lemma Utf8RoundTrip(code: nat)
    requires code < 0x1_0000 && !(0xD800 <= code <= 0xDFFF)
    ensures Decoded(Utf8(code)) == Some(code)
    ensures |Utf8(code)| == if code < 0x80 then 1 else if code < 0x800 then 2 else 3
  {
    if code >= 0x800 {
      assert code / 4096 < 16 && code / 64 % 64 < 64;
      assert code / 64 == code / 4096 * 64 + code / 64 % 64;
    }
  }

  /** Half of a surrogate pair becomes a question mark. */
  lemma SurrogatesAreReplaced(code: nat)
    requires 0xD800 <= code <= 0xDFFF
    ensures Utf8(code) == "?"
  {
  }

  // ----- escapes ---------------------------------------------------------------------------------

  /** The two-character escapes of the RFC, and the control characters they stand for. */
  lemma ShortEscapes()
    ensures Unescaped('b') as int == 0x08 && Unescaped('f') as int == 0x0C && Unescaped('n') as int == 0x0A
    ensures Unescaped('r') as int == 0x0D && Unescaped('t') as int == 0x09
    ensures Unescaped('"') == '"' && Unescaped('\\') == '\\' && Unescaped('/') == '/'
  {
  }

  // ----- hexadecimal --------------------------------------------------------------------------------

  /** The digits in order, in either case. */
  lemma HexDigits(c: char)
    requires IsHex(c)
    ensures c == "0123456789abcdef"[HexDigit(c)] || c == "0123456789ABCDEF"[HexDigit(c)]
  {
  }

  predicate SameLetter(c: char, d: char) {
    c == d || ('a' <= c <= 'f' && d as int == c as int - 32)
  }

  /** Upper and lower case denote the same number. */
  lemma {:induction false} CaseDoesNotMatter(s: string, t: string)
    requires AllHex(s) && |t| == |s| && forall k | 0 <= k < |s| :: SameLetter(s[k], t[k])
    ensures AllHex(t) && HexValue(t) == HexValue(s)
  {
    if s != "" {
      var s', t' := s[..|s| - 1], t[..|t| - 1];
      assert forall k | 0 <= k < |s'| :: s'[k] == s[k] && t'[k] == t[k];
      assert SameLetter(s[|s| - 1], t[|t| - 1]);
      CaseDoesNotMatter(s', t');
      assert forall k | 0 <= k < |s'| :: IsHex(t'[k]);
    }
  }

  /** The decimal digits in order. */
  lemma DecimalDigits(c: char)
    requires IsDigit(c)
    ensures c == "0123456789"[DigitValue(c)]
  {
  }

  // ----- what the escaper writes ---------------------------------------------------------------------

  lemma EscapedCharIsPrintable(c: char)
    ensures forall d | d in EscapeChar(c) :: d >= ' '
  {
  }

  /** No control character is left in an escaped string, as section 7 of the RFC demands. */
  lemma {:induction false} EscapedIsPrintable(s: string)
    ensures forall d | d in Escape(s) :: d >= ' '
  {
    hide EscapeChar;
    if s != "" {
      EscapedIsPrintable(s[..|s| - 1]);
      EscapedCharIsPrintable(s[|s| - 1]);
    }
  }

  /** Printable characters but quote and backslash are left as they are; the five named controls get their short form. */
  lemma EscapesAsWritten(c: char)
    ensures c >= ' ' && c != '"' && c != '\\' ==> EscapeChar(c) == [c]
    ensures EscapeChar('"') == ['\\', '"'] && EscapeChar('\\') == ['\\', '\\']
    ensures EscapeChar(0x08 as char) == ['\\', 'b'] && EscapeChar(0x09 as char) == ['\\', 't']
    ensures EscapeChar(0x0A as char) == ['\\', 'n'] && EscapeChar(0x0C as char) == ['\\', 'f']
    ensures EscapeChar(0x0D as char) == ['\\', 'r']
    ensures c < ' ' && c as int !in {0x08, 0x09, 0x0A, 0x0C, 0x0D} ==>
              EscapeChar(c)[..2] == ['\\', 'u'] && |EscapeChar(c)| == 6 && AllHex(EscapeChar(c)[2..])
  {
  }
}
