/** The first test of RFC 3174, section 7.3, worked out in full, as in a hand calculation: the digest of "abc". */
module Sha1Abc {
  import opened Common
  import opened Sha1
  import opened Sha1Bits
  import opened Sha1Hex

  const ABC: Bytes := [0x61, 0x62, 0x63]

  /** The one block "abc" is padded to. */
  ghost predicate Only(block: Block) {
    block == ABC + [0x80] + Zeros(59) + [24]
  }

  lemma PadsToOne()
    ensures |Pad(ABC)| == 64 && Only(Pad(ABC))
  {
    Length24();
    assert ZeroCount(3) == 52;
    assert Zeros(52) + Zeros(7) == Zeros(59);
  }

  lemma Length24()
    ensures ToBigEndian(24, 8) == Zeros(7) + [24]
  {
    assert ToBigEndian(0, 4) == [0, 0, 0, 0];
    assert ToBigEndian(0, 7) == [0, 0, 0, 0, 0, 0, 0];
  }

  /** Word `t` of the schedule is written with these digits. */
  ghost predicate Scheduled(block: Block, t: nat, w: Hex) {
    t < 80 && Schedule(block, t) == V(w)
  }

  /** The five words after `t` rounds. */
  ghost predicate Reached(block: Block, t: nat, a: Word, b: Word, c: Word, d: Word, e: Word) {
    t <= 80 && Rounds(INIT, block, t) == State(a, b, c, d, e)
  }

  lemma Word(block: Block, t: nat, w3: Hex, w8: Hex, w14: Hex, w16: Hex, w: Hex)
    requires 16 <= t < 80 && Scheduled(block, t - 3, w3) && Scheduled(block, t - 8, w8)
    requires Scheduled(block, t - 14, w14) && Scheduled(block, t - 16, w16)
    requires V(w) == Rol(V(XorH(XorH(XorH(w3, w8), w14), w16)), 1)
    ensures Scheduled(block, t, w)
  {
    hide V, Rol, XorH, Schedule;
    NextWord(block, t, w3, w8, w14, w16);
  }

  lemma Next(block: Block, t: nat, a: Word, b: Hex, c: Hex, d: Hex, e: Word, w: Hex, a': Word)
    requires t < 80 && Reached(block, t, a, V(b), V(c), V(d), e) && Scheduled(block, t, w)
    requires a' == (Rol(a, 5) + V(FH(t, b, c, d)) + e + K(t) + V(w)) % WORD32
    ensures Reached(block, t + 1, a', a, Rol(V(b), 30), V(c), V(d))
  {
    hide V, Rol, FH, K, Schedule, Rounds;
    OneRound(INIT, block, t, a, b, c, d, e);
  }

  // ----- the schedule ------------------------------------------------------------------------------

  const W0 := W(D6, D1, D6, D2, D6, D3, D8, D0)
  const W1 := W(D0, D0, D0, D0, D0, D0, D0, D0)
  const W2 := W(D0, D0, D0, D0, D0, D0, D0, D0)
  const W3 := W(D0, D0, D0, D0, D0, D0, D0, D0)
  const W4 := W(D0, D0, D0, D0, D0, D0, D0, D0)
  const W5 := W(D0, D0, D0, D0, D0, D0, D0, D0)
  const W6 := W(D0, D0, D0, D0, D0, D0, D0, D0)
  const W7 := W(D0, D0, D0, D0, D0, D0, D0, D0)
  const W8 := W(D0, D0, D0, D0, D0, D0, D0, D0)
  const W9 := W(D0, D0, D0, D0, D0, D0, D0, D0)
  const W10 := W(D0, D0, D0, D0, D0, D0, D0, D0)
  const W11 := W(D0, D0, D0, D0, D0, D0, D0, D0)
  const W12 := W(D0, D0, D0, D0, D0, D0, D0, D0)
  const W13 := W(D0, D0, D0, D0, D0, D0, D0, D0)
  const W14 := W(D0, D0, D0, D0, D0, D0, D0, D0)
  const W15 := W(D0, D0, D0, D0, D0, D0, D1, D8)
  const W16 := W(DC, D2, DC, D4, DC, D7, D0, D0)
  const W17 := W(D0, D0, D0, D0, D0, D0, D0, D0)
  const W18 := W(D0, D0, D0, D0, D0, D0, D3, D0)
  const W19 := W(D8, D5, D8, D9, D8, DE, D0, D1)
  const W20 := W(D0, D0, D0, D0, D0, D0, D0, D0)
  const W21 := W(D0, D0, D0, D0, D0, D0, D6, D0)
  const W22 := W(D0, DB, D1, D3, D1, DC, D0, D3)
  const W23 := W(D0, D0, D0, D0, D0, D0, D3, D0)
  const W24 := W(D8, D5, D8, D9, D8, DE, DC, D1)
  const W25 := W(D1, D6, D2, D6, D3, D8, D0, D6)
  const W26 := W(D0, D0, D0, D0, D0, D0, D0, D0)
  const W27 := W(D0, D0, D0, D0, D0, D1, D8, D0)
  const W28 := W(D2, DC, D4, DC, D7, D0, D0, DC)
  const W29 := W(D0, D0, D0, D0, D0, D0, DF, D0)
  const W30 := W(D9, D3, DA, DF, DB, D5, D0, D7)
  const W31 := W(D5, D8, D9, D8, DE, D0, D4, D8)
  const W32 := W(D8, DE, D9, DA, D9, D2, D0, D2)
  const W33 := W(D0, D0, D0, D0, D0, D6, D0, D0)
  const W34 := W(DB, D1, D3, D1, DC, D0, DF, D0)
  const W35 := W(D1, D6, D2, D6, D3, DB, DC, D6)
  const W36 := W(D4, DE, DB, DE, DD, D4, D1, DE)
  const W37 := W(D6, D2, D6, D3, D8, D0, DA, D1)
  const W38 := W(D1, D6, D2, D6, D3, D8, D0, D6)
  const W39 := W(D0, D0, D0, D0, D1, D8, DC, D0)
  const W40 := W(DD, D2, DE, D1, D3, D8, DC, D4)
  const W41 := W(D0, D0, D0, D0, D0, DF, D0, D0)
  const W42 := W(D3, DA, DF, DB, D5, D0, D7, D9)
  const W43 := W(D8, D9, D8, DE, D0, D4, DE, D5)
  const W44 := W(DE, D2, DB, DA, D3, DC, D2, DB)
  const W45 := W(D0, D0, D0, D0, D6, D0, DC, D0)
  const W46 := W(D0, D5, D3, DA, D3, D7, DC, DD)
  const W47 := W(D7, D4, D4, D5, D8, D5, D4, D7)
  const W48 := W(DD, DA, D9, D4, D1, D5, DE, DD)
  const W49 := W(D2, D6, D3, D8, D0, DA, D1, D6)
  const W50 := W(D6, D2, D6, D3, D8, D3, DA, D1)
  const W51 := W(D4, DE, DB, DF, D5, D4, DD, DE)
  const W52 := W(D3, D8, D3, D5, DB, D4, D4, DB)
  const W53 := W(D0, D0, D0, D0, DF, D6, D0, D0)
  const W54 := W(D1, DE, D8, D4, DC, D7, DA, D3)
  const W55 := W(D9, D8, DE, D0, D4, DD, D9, D8)
  const W56 := W(D6, D5, D1, DD, D1, D6, DA, D0)
  const W57 := W(D6, D2, D6, D5, D8, DC, DA, D1)
  const W58 := W(D4, D5, D8, D5, D4, D4, DD, D6)
  const W59 := W(D4, D4, D5, D8, D4, DC, DB, D7)
  const W60 := W(D7, DB, DA, D0, D6, D6, D1, D9)
  const W61 := W(D6, D3, D8, D0, DA, DE, DA, D2)
  const W62 := W(D0, DA, DE, D5, D5, D2, D6, D9)
  const W63 := W(D6, D2, D7, DB, D4, D9, DA, D1)
  const W64 := W(D7, DC, DD, D4, D5, DC, D9, DD)
  const W65 := W(D0, D0, D0, DF, D0, D0, D0, D0)
  const W66 := W(DF, DB, D5, D0, D7, D5, D3, DA)
  const W67 := W(DE, DC, D6, D7, D6, D5, DE, D8)
  const W68 := W(DB, DA, D3, DC, D2, DB, DE, D2)
  const W69 := W(D0, D0, D6, D0, DC, D0, D0, D0)
  const W70 := W(D3, DA, D3, D7, DC, DD, D0, D5)
  const W71 := W(D4, D5, D8, D5, D4, D6, DF, D4)
  const W72 := W(DB, D8, D5, D9, D9, DD, DD, D6)
  const W73 := W(D3, D8, D0, DA, D1, DA, D2, D6)
  const W74 := W(D0, D1, DE, D0, D2, D2, D0, D3)
  const W75 := W(DE, D7, DC, DC, D3, D4, D5, D6)
  const W76 := W(DE, D6, DE, D6, D0, DB, D6, D9)
  const W77 := W(D0, D0, DF, D6, D0, DA, D0, D0)
  const W78 := W(D5, D7, D9, D5, DE, DF, D4, DF)
  const W79 := W(D8, D2, D2, DE, D0, D8, D7, D9)

  lemma Words0(block: Block)
    requires Only(block)
    ensures Scheduled(block, 0, W0) && Scheduled(block, 1, W1) && Scheduled(block, 2, W2) && Scheduled(block, 3, W3)
    ensures Scheduled(block, 4, W4) && Scheduled(block, 5, W5) && Scheduled(block, 6, W6) && Scheduled(block, 7, W7)
    ensures Scheduled(block, 8, W8) && Scheduled(block, 9, W9) && Scheduled(block, 10, W10) && Scheduled(block, 11, W11)
    ensures Scheduled(block, 12, W12) && Scheduled(block, 13, W13) && Scheduled(block, 14, W14) && Scheduled(block, 15, W15)
  {
    hide V, Schedule;
    GivenWords(block);
    Numerals();
  }

  lemma GivenWords(block: Block)
    requires Only(block)
    ensures Schedule(block, 0) == 0x61626380 && Schedule(block, 15) == 24
    ensures forall t | 0 < t < 15 :: Schedule(block, t) == 0
  {
  }

  lemma Numerals()
    ensures V(W0) == 0x61626380 && V(W1) == 0 && V(W15) == 24
    ensures W1 == W2 == W3 == W4 == W5 == W6 == W7 == W8 == W9 == W10 == W11 == W12 == W13 == W14
  {
  }

  lemma Words16(block: Block)
    requires Only(block)
    ensures Scheduled(block, 16, W16) && Scheduled(block, 17, W17) && Scheduled(block, 18, W18) && Scheduled(block, 19, W19)
  {
    hide Scheduled, Only;
    Words0(block);
    Word(block, 16, W13, W8, W2, W0, W16);
    Word(block, 17, W14, W9, W3, W1, W17);
    Word(block, 18, W15, W10, W4, W2, W18);
    Word(block, 19, W16, W11, W5, W3, W19);
  }

  lemma Words20(block: Block)
    requires Only(block)
    ensures Scheduled(block, 20, W20) && Scheduled(block, 21, W21) && Scheduled(block, 22, W22) && Scheduled(block, 23, W23)
  {
    hide Scheduled, Only;
    Words0(block);
    Words16(block);
    Word(block, 20, W17, W12, W6, W4, W20);
    Word(block, 21, W18, W13, W7, W5, W21);
    Word(block, 22, W19, W14, W8, W6, W22);
    Word(block, 23, W20, W15, W9, W7, W23);
  }

  lemma Words24(block: Block)
    requires Only(block)
    ensures Scheduled(block, 24, W24) && Scheduled(block, 25, W25) && Scheduled(block, 26, W26) && Scheduled(block, 27, W27)
  {
    hide Scheduled, Only;
    Words0(block);
    Words16(block);
    Words20(block);
    Word(block, 24, W21, W16, W10, W8, W24);
    Word(block, 25, W22, W17, W11, W9, W25);
    Word(block, 26, W23, W18, W12, W10, W26);
    Word(block, 27, W24, W19, W13, W11, W27);
  }

  lemma Words28(block: Block)
    requires Only(block)
    ensures Scheduled(block, 28, W28) && Scheduled(block, 29, W29) && Scheduled(block, 30, W30) && Scheduled(block, 31, W31)
  {
    hide Scheduled, Only;
    Words0(block);
    Words16(block);
    Words20(block);
    Words24(block);
    Word(block, 28, W25, W20, W14, W12, W28);
    Word(block, 29, W26, W21, W15, W13, W29);
    Word(block, 30, W27, W22, W16, W14, W30);
    Word(block, 31, W28, W23, W17, W15, W31);
  }

  lemma Words32(block: Block)
    requires Only(block)
    ensures Scheduled(block, 32, W32) && Scheduled(block, 33, W33) && Scheduled(block, 34, W34) && Scheduled(block, 35, W35)
  {
    hide Scheduled, Only;
    Words16(block);
    Words20(block);
    Words24(block);
    Words28(block);
    Word(block, 32, W29, W24, W18, W16, W32);
    Word(block, 33, W30, W25, W19, W17, W33);
    Word(block, 34, W31, W26, W20, W18, W34);
    Word(block, 35, W32, W27, W21, W19, W35);
  }

  lemma Words36(block: Block)
    requires Only(block)
    ensures Scheduled(block, 36, W36) && Scheduled(block, 37, W37) && Scheduled(block, 38, W38) && Scheduled(block, 39, W39)
  {
    hide Scheduled, Only;
    Words20(block);
    Words24(block);
    Words28(block);
    Words32(block);
    Word(block, 36, W33, W28, W22, W20, W36);
    Word(block, 37, W34, W29, W23, W21, W37);
    Word(block, 38, W35, W30, W24, W22, W38);
    Word(block, 39, W36, W31, W25, W23, W39);
  }

  lemma Words40(block: Block)
    requires Only(block)
    ensures Scheduled(block, 40, W40) && Scheduled(block, 41, W41) && Scheduled(block, 42, W42) && Scheduled(block, 43, W43)
  {
    hide Scheduled, Only;
    Words24(block);
    Words28(block);
    Words32(block);
    Words36(block);
    Word(block, 40, W37, W32, W26, W24, W40);
    Word(block, 41, W38, W33, W27, W25, W41);
    Word(block, 42, W39, W34, W28, W26, W42);
    Word(block, 43, W40, W35, W29, W27, W43);
  }

  lemma Words44(block: Block)
    requires Only(block)
    ensures Scheduled(block, 44, W44) && Scheduled(block, 45, W45) && Scheduled(block, 46, W46) && Scheduled(block, 47, W47)
  {
    hide Scheduled, Only;
    Words28(block);
    Words32(block);
    Words36(block);
    Words40(block);
    Word(block, 44, W41, W36, W30, W28, W44);
    Word(block, 45, W42, W37, W31, W29, W45);
    Word(block, 46, W43, W38, W32, W30, W46);
    Word(block, 47, W44, W39, W33, W31, W47);
  }

  lemma Words48(block: Block)
    requires Only(block)
    ensures Scheduled(block, 48, W48) && Scheduled(block, 49, W49) && Scheduled(block, 50, W50) && Scheduled(block, 51, W51)
  {
    hide Scheduled, Only;
    Words32(block);
    Words36(block);
    Words40(block);
    Words44(block);
    Word(block, 48, W45, W40, W34, W32, W48);
    Word(block, 49, W46, W41, W35, W33, W49);
    Word(block, 50, W47, W42, W36, W34, W50);
    Word(block, 51, W48, W43, W37, W35, W51);
  }

  lemma Words52(block: Block)
    requires Only(block)
    ensures Scheduled(block, 52, W52) && Scheduled(block, 53, W53) && Scheduled(block, 54, W54) && Scheduled(block, 55, W55)
  {
    hide Scheduled, Only;
    Words36(block);
    Words40(block);
    Words44(block);
    Words48(block);
    Word(block, 52, W49, W44, W38, W36, W52);
    Word(block, 53, W50, W45, W39, W37, W53);
    Word(block, 54, W51, W46, W40, W38, W54);
    Word(block, 55, W52, W47, W41, W39, W55);
  }

  lemma Words56(block: Block)
    requires Only(block)
    ensures Scheduled(block, 56, W56) && Scheduled(block, 57, W57) && Scheduled(block, 58, W58) && Scheduled(block, 59, W59)
  {
    hide Scheduled, Only;
    Words40(block);
    Words44(block);
    Words48(block);
    Words52(block);
    Word(block, 56, W53, W48, W42, W40, W56);
    Word(block, 57, W54, W49, W43, W41, W57);
    Word(block, 58, W55, W50, W44, W42, W58);
    Word(block, 59, W56, W51, W45, W43, W59);
  }

  lemma Words60(block: Block)
    requires Only(block)
    ensures Scheduled(block, 60, W60) && Scheduled(block, 61, W61) && Scheduled(block, 62, W62) && Scheduled(block, 63, W63)
  {
    hide Scheduled, Only;
    Words44(block);
    Words48(block);
    Words52(block);
    Words56(block);
    Word(block, 60, W57, W52, W46, W44, W60);
    Word(block, 61, W58, W53, W47, W45, W61);
    Word(block, 62, W59, W54, W48, W46, W62);
    Word(block, 63, W60, W55, W49, W47, W63);
  }

  lemma Words64(block: Block)
    requires Only(block)
    ensures Scheduled(block, 64, W64) && Scheduled(block, 65, W65) && Scheduled(block, 66, W66) && Scheduled(block, 67, W67)
  {
    hide Scheduled, Only;
    Words48(block);
    Words52(block);
    Words56(block);
    Words60(block);
    Word(block, 64, W61, W56, W50, W48, W64);
    Word(block, 65, W62, W57, W51, W49, W65);
    Word(block, 66, W63, W58, W52, W50, W66);
    Word(block, 67, W64, W59, W53, W51, W67);
  }

  lemma Words68(block: Block)
    requires Only(block)
    ensures Scheduled(block, 68, W68) && Scheduled(block, 69, W69) && Scheduled(block, 70, W70) && Scheduled(block, 71, W71)
  {
    hide Scheduled, Only;
    Words52(block);
    Words56(block);
    Words60(block);
    Words64(block);
    Word(block, 68, W65, W60, W54, W52, W68);
    Word(block, 69, W66, W61, W55, W53, W69);
    Word(block, 70, W67, W62, W56, W54, W70);
    Word(block, 71, W68, W63, W57, W55, W71);
  }

  lemma Words72(block: Block)
    requires Only(block)
    ensures Scheduled(block, 72, W72) && Scheduled(block, 73, W73) && Scheduled(block, 74, W74) && Scheduled(block, 75, W75)
  {
    hide Scheduled, Only;
    Words56(block);
    Words60(block);
    Words64(block);
    Words68(block);
    Word(block, 72, W69, W64, W58, W56, W72);
    Word(block, 73, W70, W65, W59, W57, W73);
    Word(block, 74, W71, W66, W60, W58, W74);
    Word(block, 75, W72, W67, W61, W59, W75);
  }

  lemma Words76(block: Block)
    requires Only(block)
    ensures Scheduled(block, 76, W76) && Scheduled(block, 77, W77) && Scheduled(block, 78, W78) && Scheduled(block, 79, W79)
  {
    hide Scheduled, Only;
    Words60(block);
    Words64(block);
    Words68(block);
    Words72(block);
    Word(block, 76, W73, W68, W62, W60, W76);
    Word(block, 77, W74, W69, W63, W61, W77);
    Word(block, 78, W75, W70, W64, W62, W78);
    Word(block, 79, W76, W71, W65, W63, W79);
  }

  // ----- the rounds ------------------------------------------------------------------------------

  lemma Round0(block: Block)
    ensures Reached(block, 0, 0x67452301, 0xEFCDAB89, 0x98BADCFE, 0x10325476, 0xC3D2E1F0)
  {
    hide Schedule;
  }

  lemma Round4(block: Block)
    requires Only(block)
    ensures Reached(block, 4, 0xCDD8E11B, 0xA1390F08, 0x626414DB, 0xC045BF0C, 0x59D148C0)
  {
    hide Reached, Scheduled, Only;
    Round0(block);
    Words0(block);
    Next(block, 0, 0x67452301, W(DE, DF, DC, DD, DA, DB, D8, D9), W(D9, D8, DB, DA, DD, DC, DF, DE),
         W(D1, D0, D3, D2, D5, D4, D7, D6), 0xC3D2E1F0, W0, 0x0116FC33);
    Next(block, 1, 0x0116FC33, W(D6, D7, D4, D5, D2, D3, D0, D1), W(D7, DB, DF, D3, D6, DA, DE, D2),
         W(D9, D8, DB, DA, DD, DC, DF, DE), 0x10325476, W1, 0x8990536D);
    Next(block, 2, 0x8990536D, W(D0, D1, D1, D6, DF, DC, D3, D3), W(D5, D9, DD, D1, D4, D8, DC, D0),
         W(D7, DB, DF, D3, D6, DA, DE, D2), 0x98BADCFE, W2, 0xA1390F08);
    Next(block, 3, 0xA1390F08, W(D8, D9, D9, D0, D5, D3, D6, DD), W(DC, D0, D4, D5, DB, DF, D0, DC),
         W(D5, D9, DD, D1, D4, D8, DC, D0), 0x7BF36AE2, W3, 0xCDD8E11B);
  }

  lemma Round8(block: Block)
    requires Only(block)
    ensures Reached(block, 8, 0x9E8C07D4, 0x993E30C1, 0x0FF1F290, 0xB3F52677, 0xF3763846)
  {
    hide Reached, Scheduled, Only;
    Round4(block);
    Words0(block);
    Next(block, 4, 0xCDD8E11B, W(DA, D1, D3, D9, D0, DF, D0, D8), W(D6, D2, D6, D4, D1, D4, DD, DB),
         W(DC, D0, D4, D5, DB, DF, D0, DC), 0x59D148C0, W4, 0xCFD499DE);
    Next(block, 5, 0xCFD499DE, W(DC, DD, DD, D8, DE, D1, D1, DB), W(D2, D8, D4, DE, D4, D3, DC, D2),
         W(D6, D2, D6, D4, D1, D4, DD, DB), 0xC045BF0C, W5, 0x3FC7CA40);
    Next(block, 6, 0x3FC7CA40, W(DC, DF, DD, D4, D9, D9, DD, DE), W(DF, D3, D7, D6, D3, D8, D4, D6),
         W(D2, D8, D4, DE, D4, D3, DC, D2), 0x626414DB, W6, 0x993E30C1);
    Next(block, 7, 0x993E30C1, W(D3, DF, DC, D7, DC, DA, D4, D0), W(DB, D3, DF, D5, D2, D6, D7, D7),
         W(DF, D3, D7, D6, D3, D8, D4, D6), 0x284E43C2, W7, 0x9E8C07D4);
  }

  lemma Round12(block: Block)
    requires Only(block)
    ensures Reached(block, 12, 0x63188FE4, 0xFBDA9E89, 0x60D47E4A, 0x12DAB8CA, 0x27A301F5)
  {
    hide Reached, Scheduled, Only;
    Round8(block);
    Words0(block);
    Next(block, 8, 0x9E8C07D4, W(D9, D9, D3, DE, D3, D0, DC, D1), W(D0, DF, DF, D1, DF, D2, D9, D0),
         W(DB, D3, DF, D5, D2, D6, D7, D7), 0xF3763846, W8, 0x4B6AE328);
    Next(block, 9, 0x4B6AE328, W(D9, DE, D8, DC, D0, D7, DD, D4), W(D6, D6, D4, DF, D8, DC, D3, D0),
         W(D0, DF, DF, D1, DF, D2, D9, D0), 0xB3F52677, W9, 0x8351F929);
    Next(block, 10, 0x8351F929, W(D4, DB, D6, DA, DE, D3, D2, D8), W(D2, D7, DA, D3, D0, D1, DF, D5),
         W(D6, D6, D4, DF, D8, DC, D3, D0), 0x0FF1F290, W10, 0xFBDA9E89);
    Next(block, 11, 0xFBDA9E89, W(D8, D3, D5, D1, DF, D9, D2, D9), W(D1, D2, DD, DA, DB, D8, DC, DA),
         W(D2, D7, DA, D3, D0, D1, DF, D5), 0x664F8C30, W11, 0x63188FE4);
  }

  lemma Round16(block: Block)
    requires Only(block)
    ensures Reached(block, 16, 0x20BDD62F, 0x196BEE77, 0x644A3DA5, 0x1181ED99, 0x18C623F9)
  {
    hide Reached, Scheduled, Only;
    Round12(block);
    Words0(block);
    Next(block, 12, 0x63188FE4, W(DF, DB, DD, DA, D9, DE, D8, D9), W(D6, D0, DD, D4, D7, DE, D4, DA),
         W(D1, D2, DD, DA, DB, D8, DC, DA), 0x27A301F5, W12, 0x4607B664);
    Next(block, 13, 0x4607B664, W(D6, D3, D1, D8, D8, DF, DE, D4), W(D7, DE, DF, D6, DA, D7, DA, D2),
         W(D6, D0, DD, D4, D7, DE, D4, DA), 0x12DAB8CA, W13, 0x9128F695);
    Next(block, 14, 0x9128F695, W(D4, D6, D0, D7, DB, D6, D6, D4), W(D1, D8, DC, D6, D2, D3, DF, D9),
         W(D7, DE, DF, D6, DA, D7, DA, D2), 0x60D47E4A, W14, 0x196BEE77);
    Next(block, 15, 0x196BEE77, W(D9, D1, D2, D8, DF, D6, D9, D5), W(D1, D1, D8, D1, DE, DD, D9, D9),
         W(D1, D8, DC, D6, D2, D3, DF, D9), 0x7EF6A7A2, W15, 0x20BDD62F);
  }

  lemma Round20(block: Block)
    requires Only(block)
    ensures Reached(block, 20, 0xFD9E1D7D, 0xDC64901D, 0x20AA99CA, 0xD3A49608, 0xC82F758B)
  {
    hide Reached, Scheduled, Only;
    Round16(block);
    Words16(block);
    Next(block, 16, 0x20BDD62F, W(D1, D9, D6, DB, DE, DE, D7, D7), W(D6, D4, D4, DA, D3, DD, DA, D5),
         W(D1, D1, D8, D1, DE, DD, D9, D9), 0x18C623F9, W16, 0x4E925823);
    Next(block, 17, 0x4E925823, W(D2, D0, DB, DD, DD, D6, D2, DF), W(DC, D6, D5, DA, DF, DB, D9, DD),
         W(D6, D4, D4, DA, D3, DD, DA, D5), 0x1181ED99, W17, 0x82AA6728);
    Next(block, 18, 0x82AA6728, W(D4, DE, D9, D2, D5, D8, D2, D3), W(DC, D8, D2, DF, D7, D5, D8, DB),
         W(DC, D6, D5, DA, DF, DB, D9, DD), 0x644A3DA5, W18, 0xDC64901D);
    Next(block, 19, 0xDC64901D, W(D8, D2, DA, DA, D6, D7, D2, D8), W(DD, D3, DA, D4, D9, D6, D0, D8),
         W(DC, D8, D2, DF, D7, D5, D8, DB), 0xC65AFB9D, W19, 0xFD9E1D7D);
  }

  lemma Round24(block: Block)
    requires Only(block)
    ensures Reached(block, 24, 0xD541F12D, 0x21283486, 0x0CE88EFF, 0x868DEC32, 0x7F67875F)
  {
    hide Reached, Scheduled, Only;
    Round20(block);
    Words20(block);
    Next(block, 20, 0xFD9E1D7D, W(DD, DC, D6, D4, D9, D0, D1, DD), W(D2, D0, DA, DA, D9, D9, DC, DA),
         W(DD, D3, DA, D4, D9, D6, D0, D8), 0xC82F758B, W20, 0x1A37B0CA);
    Next(block, 21, 0x1A37B0CA, W(DF, DD, D9, DE, D1, DD, D7, DD), W(D7, D7, D1, D9, D2, D4, D0, D7),
         W(D2, D0, DA, DA, D9, D9, DC, DA), 0xD3A49608, W21, 0x33A23BFC);
    Next(block, 22, 0x33A23BFC, W(D1, DA, D3, D7, DB, D0, DC, DA), W(D7, DF, D6, D7, D8, D7, D5, DF),
         W(D7, D7, D1, D9, D2, D4, D0, D7), 0x20AA99CA, W22, 0x21283486);
    Next(block, 23, 0x21283486, W(D3, D3, DA, D2, D3, DB, DF, DC), W(D8, D6, D8, DD, DE, DC, D3, D2),
         W(D7, DF, D6, D7, D8, D7, D5, DF), 0x77192407, W23, 0xD541F12D);
  }

  lemma Round28(block: Block)
    requires Only(block)
    ensures Reached(block, 28, 0x4AA84D97, 0xBE35FBD5, 0x12104EE9, 0xB1D59F71, 0x75507C4B)
  {
    hide Reached, Scheduled, Only;
    Round24(block);
    Words24(block);
    Next(block, 24, 0xD541F12D, W(D2, D1, D2, D8, D3, D4, D8, D6), W(D0, DC, DE, D8, D8, DE, DF, DF),
         W(D8, D6, D8, DD, DE, DC, D3, D2), 0x7F67875F, W24, 0xC7567DC6);
    Next(block, 25, 0xC7567DC6, W(DD, D5, D4, D1, DF, D1, D2, DD), W(D8, D8, D4, DA, D0, DD, D2, D1),
         W(D0, DC, DE, D8, D8, DE, DF, DF), 0x868DEC32, W25, 0x48413BA4);
    Next(block, 26, 0x48413BA4, W(DC, D7, D5, D6, D7, DD, DC, D6), W(D7, D5, D5, D0, D7, DC, D4, DB),
         W(D8, D8, D4, DA, D0, DD, D2, D1), 0x0CE88EFF, W26, 0xBE35FBD5);
    Next(block, 27, 0xBE35FBD5, W(D4, D8, D4, D1, D3, DB, DA, D4), W(DB, D1, DD, D5, D9, DF, D7, D1),
         W(D7, D5, D5, D0, D7, DC, D4, DB), 0x884A0D21, W27, 0x4AA84D97);
  }

  lemma Round32(block: Block)
    requires Only(block)
    ensures Reached(block, 32, 0x3B845D33, 0x1267B407, 0x717EEBD7, 0xA0DC2D4B, 0xD2AA1365)
  {
    hide Reached, Scheduled, Only;
    Round28(block);
    Words28(block);
    Next(block, 28, 0x4AA84D97, W(DB, DE, D3, D5, DF, DB, DD, D5), W(D1, D2, D1, D0, D4, DE, DE, D9),
         W(DB, D1, DD, D5, D9, DF, D7, D1), 0x75507C4B, W28, 0x8370B52E);
    Next(block, 29, 0x8370B52E, W(D4, DA, DA, D8, D4, DD, D9, D7), W(D6, DF, D8, DD, D7, DE, DF, D5),
         W(D1, D2, D1, D0, D4, DE, DE, D9), 0xB1D59F71, W29, 0xC5FBAF5D);
    Next(block, 30, 0xC5FBAF5D, W(D8, D3, D7, D0, DB, D5, D2, DE), W(DD, D2, DA, DA, D1, D3, D6, D5),
         W(D6, DF, D8, DD, D7, DE, DF, D5), 0x12104EE9, W30, 0x1267B407);
    Next(block, 31, 0x1267B407, W(DC, D5, DF, DB, DA, DF, D5, DD), W(DA, D0, DD, DC, D2, DD, D4, DB),
         W(DD, D2, DA, DA, D1, D3, D6, D5), 0x6F8D7EF5, W31, 0x3B845D33);
  }

  lemma Round36(block: Block)
    requires Only(block)
    ensures Reached(block, 36, 0xDCBBB0CB, 0x21796AD4, 0x4B03AF04, 0x811BEA82, 0xCEE1174C)
  {
    hide Reached, Scheduled, Only;
    Round32(block);
    Words32(block);
    Next(block, 32, 0x3B845D33, W(D1, D2, D6, D7, DB, D4, D0, D7), W(D7, D1, D7, DE, DE, DB, DD, D7),
         W(DA, D0, DD, DC, D2, DD, D4, DB), 0xD2AA1365, W32, 0x046FAA0A);
    Next(block, 33, 0x046FAA0A, W(D3, DB, D8, D4, D5, DD, D3, D3), W(DC, D4, D9, D9, DE, DD, D0, D1),
         W(D7, D1, D7, DE, DE, DB, DD, D7), 0xA0DC2D4B, W33, 0x2C0EBC11);
    Next(block, 34, 0x2C0EBC11, W(D0, D4, D6, DF, DA, DA, D0, DA), W(DC, DE, DE, D1, D1, D7, D4, DC),
         W(DC, D4, D9, D9, DE, DD, D0, D1), 0x717EEBD7, W34, 0x21796AD4);
    Next(block, 35, 0x21796AD4, W(D2, DC, D0, DE, DB, DC, D1, D1), W(D8, D1, D1, DB, DE, DA, D8, D2),
         W(DC, DE, DE, D1, D1, D7, D4, DC), 0xC499ED01, W35, 0xDCBBB0CB);
  }

  lemma Round40(block: Block)
    requires Only(block)
    ensures Reached(block, 40, 0x32DE1CBA, 0x4C986405, 0xF718E5CF, 0x03D447F6, 0xF72EEC32)
  {
    hide Reached, Scheduled, Only;
    Round36(block);
    Words36(block);
    Next(block, 36, 0xDCBBB0CB, W(D2, D1, D7, D9, D6, DA, DD, D4), W(D4, DB, D0, D3, DA, DF, D0, D4),
         W(D8, D1, D1, DB, DE, DA, D8, D2), 0xCEE1174C, W36, 0x0F511FD8);
    Next(block, 37, 0x0F511FD8, W(DD, DC, DB, DB, DB, D0, DC, DB), W(D0, D8, D5, DE, D5, DA, DB, D5),
         W(D4, DB, D0, D3, DA, DF, D0, D4), 0x811BEA82, W37, 0xDC63973F);
    Next(block, 38, 0xDC63973F, W(D0, DF, D5, D1, D1, DF, DD, D8), W(DF, D7, D2, DE, DE, DC, D3, D2),
         W(D0, D8, D5, DE, D5, DA, DB, D5), 0x4B03AF04, W38, 0x4C986405);
    Next(block, 39, 0x4C986405, W(DD, DC, D6, D3, D9, D7, D3, DF), W(D0, D3, DD, D4, D4, D7, DF, D6),
         W(DF, D7, D2, DE, DE, DC, D3, D2), 0x085E5AB5, W39, 0x32DE1CBA);
  }

  lemma Round44(block: Block)
    requires Only(block)
    ensures Reached(block, 44, 0xEE1B1AAF, 0x7F193DC5, 0x25C28357, 0xFF21F7B7, 0x8CB7872E)
  {
    hide Reached, Scheduled, Only;
    Round40(block);
    Words40(block);
    Next(block, 40, 0x32DE1CBA, W(D4, DC, D9, D8, D6, D4, D0, D5), W(DF, D7, D1, D8, DE, D5, DC, DF),
         W(D0, D3, DD, D4, D4, D7, DF, D6), 0xF72EEC32, W40, 0xFC87DEDF);
    Next(block, 41, 0xFC87DEDF, W(D3, D2, DD, DE, D1, DC, DB, DA), W(D5, D3, D2, D6, D1, D9, D0, D1),
         W(DF, D7, D1, D8, DE, D5, DC, DF), 0x03D447F6, W41, 0x970A0D5C);
    Next(block, 42, 0x970A0D5C, W(DF, DC, D8, D7, DD, DE, DD, DF), W(D8, DC, DB, D7, D8, D7, D2, DE),
         W(D5, D3, D2, D6, D1, D9, D0, D1), 0xF718E5CF, W42, 0x7F193DC5);
    Next(block, 43, 0x7F193DC5, W(D9, D7, D0, DA, D0, DD, D5, DC), W(DF, DF, D2, D1, DF, D7, DB, D7),
         W(D8, DC, DB, D7, D8, D7, D2, DE), 0x53261901, W43, 0xEE1B1AAF);
  }

  lemma Round48(block: Block)
    requires Only(block)
    ensures Reached(block, 48, 0xBEAD02CA, 0xA01B846C, 0x8714787C, 0x503CA382, 0xFB86C6AB)
  {
    hide Reached, Scheduled, Only;
    Round44(block);
    Words44(block);
    Next(block, 44, 0xEE1B1AAF, W(D7, DF, D1, D9, D3, DD, DC, D5), W(D2, D5, DC, D2, D8, D3, D5, D7),
         W(DF, DF, D2, D1, DF, D7, DB, D7), 0x8CB7872E, W44, 0x40F28E09);
    Next(block, 45, 0x40F28E09, W(DE, DE, D1, DB, D1, DA, DA, DF), W(D5, DF, DC, D6, D4, DF, D7, D1),
         W(D2, D5, DC, D2, D8, D3, D5, D7), 0xFF21F7B7, W45, 0x1C51E1F2);
    Next(block, 46, 0x1C51E1F2, W(D4, D0, DF, D2, D8, DE, D0, D9), W(DF, DB, D8, D6, DC, D6, DA, DB),
         W(D5, DF, DC, D6, D4, DF, D7, D1), 0x25C28357, W46, 0xA01B846C);
    Next(block, 47, 0xA01B846C, W(D1, DC, D5, D1, DE, D1, DF, D2), W(D5, D0, D3, DC, DA, D3, D8, D2),
         W(DF, DB, D8, D6, DC, D6, DA, DB), 0x5FC64F71, W47, 0xBEAD02CA);
  }

  lemma Round52(block: Block)
    requires Only(block)
    ensures Reached(block, 52, 0x3847AD66, 0x641DB2CE, 0x4481CC71, 0xEEBCE4CD, 0xAFAB40B2)
  {
    hide Reached, Scheduled, Only;
    Round48(block);
    Words48(block);
    Next(block, 48, 0xBEAD02CA, W(DA, D0, D1, DB, D8, D4, D6, DC), W(D8, D7, D1, D4, D7, D8, D7, DC),
         W(D5, D0, D3, DC, DA, D3, D8, D2), 0xFB86C6AB, W48, 0xBAF39337);
    Next(block, 49, 0xBAF39337, W(DB, DE, DA, DD, D0, D2, DC, DA), W(D2, D8, D0, D6, DE, D1, D1, DB),
         W(D8, D7, D1, D4, D7, D8, D7, DC), 0x503CA382, W49, 0x120731C5);
    Next(block, 50, 0x120731C5, W(DB, DA, DF, D3, D9, D3, D3, D7), W(DA, DF, DA, DB, D4, D0, DB, D2),
         W(D2, D8, D0, D6, DE, D1, D1, DB), 0x8714787C, W50, 0x641DB2CE);
    Next(block, 51, 0x641DB2CE, W(D1, D2, D0, D7, D3, D1, DC, D5), W(DE, DE, DB, DC, DE, D4, DC, DD),
         W(DA, DF, DA, DB, D4, D0, DB, D2), 0x2806E11B, W51, 0x3847AD66);
  }

  lemma Round56(block: Block)
    requires Only(block)
    ensures Reached(block, 56, 0x5E6456AF, 0x7B71F76D, 0x09FA7C76, 0x792410DB, 0x8E11EB59)
  {
    hide Reached, Scheduled, Only;
    Round52(block);
    Words52(block);
    Next(block, 52, 0x3847AD66, W(D6, D4, D1, DD, DB, D2, DC, DE), W(D4, D4, D8, D1, DC, DC, D7, D1),
         W(DE, DE, DB, DC, DE, D4, DC, DD), 0xAFAB40B2, W52, 0xE490436D);
    Next(block, 53, 0xE490436D, W(D3, D8, D4, D7, DA, DD, D6, D6), W(D9, D9, D0, D7, D6, DC, DB, D3),
         W(D4, D4, D8, D1, DC, DC, D7, D1), 0xEEBCE4CD, W53, 0x27E9F1D8);
    Next(block, 54, 0x27E9F1D8, W(DE, D4, D9, D0, D4, D3, D6, DD), W(D8, DE, D1, D1, DE, DB, D5, D9),
         W(D9, D9, D0, D7, D6, DC, DB, D3), 0x4481CC71, W54, 0x7B71F76D);
    Next(block, 55, 0x7B71F76D, W(D2, D7, DE, D9, DF, D1, DD, D8), W(D7, D9, D2, D4, D1, D0, DD, DB),
         W(D8, DE, D1, D1, DE, DB, D5, D9), 0x99076CB3, W55, 0x5E6456AF);
  }

  lemma Round60(block: Block)
    requires Only(block)
    ensures Reached(block, 60, 0x3F52DE5A, 0x09D785FD, 0x3498BFD4, 0xF211824F, 0xD79915AB)
  {
    hide Reached, Scheduled, Only;
    Round56(block);
    Words56(block);
    Next(block, 56, 0x5E6456AF, W(D7, DB, D7, D1, DF, D7, D6, DD), W(D0, D9, DF, DA, D7, DC, D7, D6),
         W(D7, D9, D2, D4, D1, D0, DD, DB), 0x8E11EB59, W56, 0xC846093F);
    Next(block, 57, 0xC846093F, W(D5, DE, D6, D4, D5, D6, DA, DF), W(D5, DE, DD, DC, D7, DD, DD, DB),
         W(D0, D9, DF, DA, D7, DC, D7, D6), 0x792410DB, W57, 0xD262FF50);
    Next(block, 58, 0xD262FF50, W(DC, D8, D4, D6, D0, D9, D3, DF), W(DD, D7, D9, D9, D1, D5, DA, DB),
         W(D5, DE, DD, DC, D7, DD, DD, DB), 0x09FA7C76, W58, 0x09D785FD);
    Next(block, 59, 0x09D785FD, W(DD, D2, D6, D2, DF, DF, D5, D0), W(DF, D2, D1, D1, D8, D2, D4, DF),
         W(DD, D7, D9, D9, D1, D5, DA, DB), 0x5EDC7DDB, W59, 0x3F52DE5A);
  }

  lemma Round64(block: Block)
    requires Only(block)
    ensures Reached(block, 64, 0x6B61C9E1, 0xB66C020B, 0x9523272C, 0xF5D5B051, 0x8FD4B796)
  {
    hide Reached, Scheduled, Only;
    Round60(block);
    Words60(block);
    Next(block, 60, 0x3F52DE5A, W(D0, D9, DD, D7, D8, D5, DF, DD), W(D3, D4, D9, D8, DB, DF, DD, D4),
         W(DF, D2, D1, D1, D8, D2, D4, DF), 0xD79915AB, W60, 0xD756C147);
    Next(block, 61, 0xD756C147, W(D3, DF, D5, D2, DD, DE, D5, DA), W(D4, D2, D7, D5, DE, D1, D7, DF),
         W(D3, D4, D9, D8, DB, DF, DD, D4), 0xF211824F, W61, 0x548C9CB2);
    Next(block, 62, 0x548C9CB2, W(DD, D7, D5, D6, DC, D1, D4, D7), W(D8, DF, DD, D4, DB, D7, D9, D6),
         W(D4, D2, D7, D5, DE, D1, D7, DF), 0x3498BFD4, W62, 0xB66C020B);
    Next(block, 63, 0xB66C020B, W(D5, D4, D8, DC, D9, DC, DB, D2), W(DF, D5, DD, D5, DB, D0, D5, D1),
         W(D8, DF, DD, D4, DB, D7, D9, D6), 0x4275E17F, W63, 0x6B61C9E1);
  }

  lemma Round68(block: Block)
    requires Only(block)
    ensures Reached(block, 68, 0x78DD4D2B, 0x0C3DF2B4, 0x4405957E, 0x0677E9EB, 0x5AD87278)
  {
    hide Reached, Scheduled, Only;
    Round64(block);
    Words64(block);
    Next(block, 64, 0x6B61C9E1, W(DB, D6, D6, DC, D0, D2, D0, DB), W(D9, D5, D2, D3, D2, D7, D2, DC),
         W(DF, D5, DD, D5, DB, D0, D5, D1), 0x8FD4B796, W64, 0x19DFA7AC);
    Next(block, 65, 0x19DFA7AC, W(D6, DB, D6, D1, DC, D9, DE, D1), W(DE, DD, D9, DB, D0, D0, D8, D2),
         W(D9, D5, D2, D3, D2, D7, D2, DC), 0xF5D5B051, W65, 0x101655F9);
    Next(block, 66, 0x101655F9, W(D1, D9, DD, DF, DA, D7, DA, DC), W(D5, DA, DD, D8, D7, D2, D7, D8),
         W(DE, DD, D9, DB, D0, D0, D8, D2), 0x9523272C, W66, 0x0C3DF2B4);
    Next(block, 67, 0x0C3DF2B4, W(D1, D0, D1, D6, D5, D5, DF, D9), W(D0, D6, D7, D7, DE, D9, DE, DB),
         W(D5, DA, DD, D8, D7, D2, D7, D8), 0xED9B0082, W67, 0x78DD4D2B);
  }

  lemma Round72(block: Block)
    requires Only(block)
    ensures Reached(block, 72, 0x39859DE7, 0xC199F8C7, 0x8FC96230, 0x125C24F0, 0xDE37534A)
  {
    hide Reached, Scheduled, Only;
    Round68(block);
    Words68(block);
    Next(block, 68, 0x78DD4D2B, W(D0, DC, D3, DD, DF, D2, DB, D4), W(D4, D4, D0, D5, D9, D5, D7, DE),
         W(D0, D6, D7, D7, DE, D9, DE, DB), 0x5AD87278, W68, 0x497093C0);
    Next(block, 69, 0x497093C0, W(D7, D8, DD, DD, D4, DD, D2, DB), W(D0, D3, D0, DF, D7, DC, DA, DD),
         W(D4, D4, D0, D5, D9, D5, D7, DE), 0x0677E9EB, W69, 0x3F2588C2);
    Next(block, 70, 0x3F2588C2, W(D4, D9, D7, D0, D9, D3, DC, D0), W(DD, DE, D3, D7, D5, D3, D4, DA),
         W(D0, D3, D0, DF, D7, DC, DA, DD), 0x4405957E, W70, 0xC199F8C7);
    Next(block, 71, 0xC199F8C7, W(D3, DF, D2, D5, D8, D8, DC, D2), W(D1, D2, D5, DC, D2, D4, DF, D0),
         W(DD, DE, D3, D7, D5, D3, D4, DA), 0x030F7CAD, W71, 0x39859DE7);
  }

  lemma Round76(block: Block)
    requires Only(block)
    ensures Reached(block, 76, 0x63F7DAB7, 0x5EE76897, 0xC45E4FDB, 0x3B6D0B79, 0xCE616779)
  {
    hide Reached, Scheduled, Only;
    Round72(block);
    Words72(block);
    Next(block, 72, 0x39859DE7, W(DC, D1, D9, D9, DF, D8, DC, D7), W(D8, DF, DC, D9, D6, D2, D3, D0),
         W(D1, D2, D5, DC, D2, D4, DF, D0), 0xDE37534A, W72, 0xEDB42DE4);
    Next(block, 73, 0xEDB42DE4, W(D3, D9, D8, D5, D9, DD, DE, D7), W(DF, D0, D6, D6, D7, DE, D3, D1),
         W(D8, DF, DC, D9, D6, D2, D3, D0), 0x125C24F0, W73, 0x11793F6F);
    Next(block, 74, 0x11793F6F, W(DE, DD, DB, D4, D2, DD, DE, D4), W(DC, DE, D6, D1, D6, D7, D7, D9),
         W(DF, D0, D6, D6, D7, DE, D3, D1), 0x8FC96230, W74, 0x5EE76897);
    Next(block, 75, 0x5EE76897, W(D1, D1, D7, D9, D3, DF, D6, DF), W(D3, DB, D6, DD, D0, DB, D7, D9),
         W(DC, DE, D6, D1, D6, D7, D7, D9), 0xF0667E31, W75, 0x63F7DAB7);
  }

  lemma Round80(block: Block)
    requires Only(block)
    ensures Reached(block, 80, 0x42541B35, 0x5738D5E1, 0x21834873, 0x681E6DF6, 0xD8FDF6AD)
  {
    hide Reached, Scheduled, Only;
    Round76(block);
    Words76(block);
    Next(block, 76, 0x63F7DAB7, W(D5, DE, DE, D7, D6, D8, D9, D7), W(DC, D4, D5, DE, D4, DF, DD, DB),
         W(D3, DB, D6, DD, D0, DB, D7, D9), 0xCE616779, W76, 0xA079B7D9);
    Next(block, 77, 0xA079B7D9, W(D6, D3, DF, D7, DD, DA, DB, D7), W(DD, D7, DB, D9, DD, DA, D2, D5),
         W(DC, D4, D5, DE, D4, DF, DD, DB), 0x3B6D0B79, W77, 0x860D21CC);
    Next(block, 78, 0x860D21CC, W(DA, D0, D7, D9, DB, D7, DD, D9), W(DD, D8, DF, DD, DF, D6, DA, DD),
         W(DD, D7, DB, D9, DD, DA, D2, D5), 0xC45E4FDB, W78, 0x5738D5E1);
    Next(block, 79, 0x5738D5E1, W(D8, D6, D0, DD, D2, D1, DC, DC), W(D6, D8, D1, DE, D6, DD, DF, D6),
         W(DD, D8, DF, DD, DF, D6, DA, DD), 0xD7B9DA25, W79, 0x42541B35);
  }

  lemma OneBlock(h: State, bytes: Bytes)
    requires |bytes| == 64
    ensures Fold(h, bytes) == Compress(h, bytes)
  {
    hide Compress;
    assert bytes[..64] == bytes;
  }

  lemma LastSums(block: Block)
    requires Only(block)
    ensures Compress(INIT, block) == State(0xA9993E36, 0x4706816A, 0xBA3E2571, 0x7850C26C, 0x9CD0D89D)
  {
    hide Rounds, Only;
    Round80(block);
  }

  lemma DigestBytes()
    ensures ToBigEndian(0xA9993E36, 4) == [0xA9, 0x99, 0x3E, 0x36]
    ensures ToBigEndian(0x4706816A, 4) == [0x47, 0x06, 0x81, 0x6A]
    ensures ToBigEndian(0xBA3E2571, 4) == [0xBA, 0x3E, 0x25, 0x71]
    ensures ToBigEndian(0x7850C26C, 4) == [0x78, 0x50, 0xC2, 0x6C]
    ensures ToBigEndian(0x9CD0D89D, 4) == [0x9C, 0xD0, 0xD8, 0x9D]
  {
    FourBytes(0xA9993E36, 0xA9, 0x99, 0x3E, 0x36);
    FourBytes(0x4706816A, 0x47, 0x06, 0x81, 0x6A);
    FourBytes(0xBA3E2571, 0xBA, 0x3E, 0x25, 0x71);
    FourBytes(0x7850C26C, 0x78, 0x50, 0xC2, 0x6C);
    FourBytes(0x9CD0D89D, 0x9C, 0xD0, 0xD8, 0x9D);
  }

  lemma FourBytes(n: nat, w: Byte, x: Byte, y: Byte, z: Byte)
    requires n == 0x100_0000 * w + 0x1_0000 * x + 0x100 * y + z
    ensures ToBigEndian(n, 4) == [w, x, y, z]
  {
    assert n / 256 == 0x1_0000 * w + 0x100 * x + y && n / 256 / 256 == 0x100 * w + x;
    assert n / 256 / 256 / 256 == w as int;
    assert ToBigEndian(n / 256 / 256 / 256, 1) == [w];
    assert ToBigEndian(n / 256 / 256, 2) == [w, x];
    assert ToBigEndian(n / 256, 3) == [w, x, y];
  }

  /** The whole chain: padding, schedule, eighty rounds, the sums at the end, and the bytes of the digest. */
  lemma DigestOfAbc()
    ensures Hash(ABC)
         == [0xA9, 0x99, 0x3E, 0x36,
             0x47, 0x06, 0x81, 0x6A,
             0xBA, 0x3E, 0x25, 0x71,
             0x78, 0x50, 0xC2, 0x6C,
             0x9C, 0xD0, 0xD8, 0x9D]
  {
    hide Compress, Pad, Only, ToBigEndian, Fold;
    PadsToOne();
    OneBlock(INIT, Pad(ABC));
    LastSums(Pad(ABC));
    DigestBytes();
  }
}
