/** The alphabet and the test vectors of RFC 4648, sections 4 and 10. */
module Base64Examples {
  import opened Common
  import opened Base64

  const UPPER := "ABCDEFGHIJKLMNOPQRSTUVWXYZ"
  const LOWER := "abcdefghijklmnopqrstuvwxyz"
  const DIGITS := "0123456789"

  lemma UpperSymbols(v: Sextet)
    requires v < 26
    ensures Symbol(v) == UPPER[v]
  {
    if v < 9 { } else if v < 18 { } else { }
  }

  lemma LowerSymbols(v: Sextet)
    requires 26 <= v < 52
    ensures Symbol(v) == LOWER[v - 26]
  {
    if v < 35 { } else if v < 44 { } else { }
  }

  lemma DigitSymbols(v: Sextet)
    requires 52 <= v < 62
    ensures Symbol(v) == DIGITS[v - 52]
  {
  }

  /** Section 4: the 64 symbols in order, each read back as its place. */
  lemma Alphabet(v: Sextet)
    ensures |UPPER + LOWER + DIGITS + "+/"| == 64
    ensures Symbol(v) == (UPPER + LOWER + DIGITS + "+/")[v] && Value(Symbol(v)) == Some(v)
  {
    hide UPPER, LOWER, DIGITS;
    Lengths();
    SymbolValue(v);
    if v < 26 { UpperSymbols(v); } else if v < 52 { LowerSymbols(v); } else if v < 62 { DigitSymbols(v); }
  }

  lemma Lengths()
    ensures |UPPER| == 26 && |LOWER| == 26 && |DIGITS| == 10
  {
  }

  // ----- test vectors ------------------------------------------------------------------------------

  const FOO: Bytes := [0x66, 0x6f, 0x6f]
  const BAR: Bytes := [0x62, 0x61, 0x72]

  lemma Split(data: Bytes)
    requires |data| <= 3
    ensures Sextets(data)
         == if |data| == 0 then []
            else if |data| == 1 then [data[0] / 4, data[0] % 4 * 16]
            else if |data| == 2 then [data[0] / 4, data[0] % 4 * 16 + data[1] / 16, data[1] % 16 * 4]
            else Four(data[0], data[1], data[2])
  {
    if |data| == 3 { assert data[3..] == []; }
  }

  lemma FooSextets()
    ensures Sextets(FOO[..1]) == [25, 32] && Sextets(FOO[..2]) == [25, 38, 60] && Sextets(FOO) == [25, 38, 61, 47]
  {
    hide Sextets;
    Split(FOO[..1]);
    Split(FOO[..2]);
    Split(FOO);
  }

  lemma BarSextets()
    ensures Sextets(BAR[..1]) == [24, 32] && Sextets(BAR[..2]) == [24, 38, 4] && Sextets(BAR) == [24, 38, 5, 50]
  {
    hide Sextets;
    Split(BAR[..1]);
    Split(BAR[..2]);
    Split(BAR);
  }

  lemma FooVectors()
    ensures Encode([]) == "" && Encode(FOO[..1]) == "Zg==" && Encode(FOO[..2]) == "Zm8=" && Encode(FOO) == "Zm9v"
  {
    hide Sextets;
    Split([]);
    FooSextets();
  }

  lemma FooFirst(rest: Bytes)
    requires |rest| <= 3
    ensures Encode(FOO + rest) == "Zm9v" + Encode(rest)
  {
    hide Sextets;
    assert (FOO + rest)[3..] == rest;
    MoreSextets(rest);
    FooSextets();
    assert Symbols([25, 38, 61, 47] + Sextets(rest)) == Symbols([25, 38, 61, 47]) + Symbols(Sextets(rest));
    assert Symbols([25, 38, 61, 47]) == "Zm9v";
  }

  lemma MoreSextets(rest: Bytes)
    ensures Sextets(FOO + rest) == Sextets(FOO) + Sextets(rest)
  {
    Split(FOO);
    assert (FOO + rest)[3..] == rest;
  }

  /** Section 10: the encodings of "", "f", "fo", "foo", "foob", "fooba" and "foobar". */
  lemma TestVectors()
    ensures Encode([]) == "" && Encode(FOO[..1]) == "Zg==" && Encode(FOO[..2]) == "Zm8=" && Encode(FOO) == "Zm9v"
    ensures Encode(FOO + BAR[..1]) == "Zm9v" + "Yg==" && Encode(FOO + BAR[..2]) == "Zm9v" + "YmE="
    ensures Encode(FOO + BAR) == "Zm9v" + "YmFy"
  {
    hide Encode;
    FooVectors();
    FooFirst(BAR[..1]);
    FooFirst(BAR[..2]);
    FooFirst(BAR);
    BarVectors();
  }

  lemma BarVectors()
    ensures Encode(BAR[..1]) == "Yg==" && Encode(BAR[..2]) == "YmE=" && Encode(BAR) == "YmFy"
  {
    hide Sextets;
    BarSextets();
  }
}
