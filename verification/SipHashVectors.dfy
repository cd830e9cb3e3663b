/** The definition of SipHash-2-4 against the paper's own numbers: its constants and the
    test values of its appendix A. */
module SipHashVectors {
  import opened SipHash
  import opened SipHash64

  // ----- the constants -----

  function Ascii(c: char): Byte {
    if c <= '~' then (c as int) as Byte else 0
  }

  /** The word of eight characters of which the first is the most significant. */
  function TextWord(text: string): Word
    requires |text| == 8
  {
    FromLE([Ascii(text[7]), Ascii(text[6]), Ascii(text[5]), Ascii(text[4]),
            Ascii(text[3]), Ascii(text[2]), Ascii(text[1]), Ascii(text[0])])
  }

  lemma FirstText()
    ensures TextWord("somepseu") == Constants().v0
  {
    assert Ascii('s') == 0x73 && Ascii('o') == 0x6f && Ascii('m') == 0x6d && Ascii('e') == 0x65;
    assert Ascii('p') == 0x70 && Ascii('s') == 0x73 && Ascii('e') == 0x65 && Ascii('u') == 0x75;
  }

  lemma SecondText()
    ensures TextWord("dorandom") == Constants().v1
  {
    assert Ascii('d') == 0x64 && Ascii('o') == 0x6f && Ascii('r') == 0x72 && Ascii('a') == 0x61;
    assert Ascii('n') == 0x6e && Ascii('d') == 0x64 && Ascii('o') == 0x6f && Ascii('m') == 0x6d;
  }

  lemma ThirdText()
    ensures TextWord("lygenera") == Constants().v2
  {
    assert Ascii('l') == 0x6c && Ascii('y') == 0x79 && Ascii('g') == 0x67 && Ascii('e') == 0x65;
    assert Ascii('n') == 0x6e && Ascii('e') == 0x65 && Ascii('r') == 0x72 && Ascii('a') == 0x61;
  }

  lemma FourthText()
    ensures TextWord("tedbytes") == Constants().v3
  {
    assert Ascii('t') == 0x74 && Ascii('e') == 0x65 && Ascii('d') == 0x64 && Ascii('b') == 0x62;
    assert Ascii('y') == 0x79 && Ascii('t') == 0x74 && Ascii('e') == 0x65 && Ascii('s') == 0x73;
  }

  /** Together they are the text "somepseudorandomlygeneratedbytes". */
  lemma ConstantsSpellText()
    ensures Constants() == State(TextWord("somepseu"), TextWord("dorandom"), TextWord("lygenera"), TextWord("tedbytes"))
  {
    FirstText();
    SecondText();
    ThirdText();
    FourthText();
  }

  // ----- the message 00 01 ... 0e under the key 00 01 ... 0f -----

  const KEY: seq<Byte> := [0x00, 0x01, 0x02, 0x03, 0x04, 0x05, 0x06, 0x07,
                           0x08, 0x09, 0x0a, 0x0b, 0x0c, 0x0d, 0x0e, 0x0f]

  const MESSAGE: seq<Byte> := [0x00, 0x01, 0x02, 0x03, 0x04, 0x05, 0x06, 0x07,
                               0x08, 0x09, 0x0a, 0x0b, 0x0c, 0x0d, 0x0e]

  lemma KeyWords()
    ensures FromLE(KEY[..8]) == 0x0706_0504_0302_0100 && FromLE(KEY[8..]) == 0x0f0e_0d0c_0b0a_0908
  {
  }

  lemma MessageWords()
    ensures BlockOf(Words64(), Padded(MESSAGE), 0) == 0x0706_0504_0302_0100
    ensures BlockOf(Words64(), Padded(MESSAGE), 1) == 0x0f0e_0d0c_0b0a_0908
  {
    assert Padded(MESSAGE) == KEY;
    LoadIsFromLE(KEY[..8]);
    LoadIsFromLE(KEY[8..]);
    KeyWords();
  }

  lemma Round1()
    ensures SipRound(Words64(), State(0x7469_6861_7371_6475, 0x6b61_7f6d_656e_6665,
                                      0x6b7f_6261_6d67_7361, 0x7c6d_6c6a_717c_6d7b)) ==
            State(0x6466_8a92_9363_847f, 0x4ed2_3208_3d9a_a8dc,
                  0xf2f7_4892_d814_1a2e, 0x9290_f981_0552_f4a8)
  {
  }

  lemma Round2()
    ensures SipRound(Words64(), State(0x6466_8a92_9363_847f, 0x4ed2_3208_3d9a_a8dc,
                                      0xf2f7_4892_d814_1a2e, 0x9290_f981_0552_f4a8)) ==
            State(0x4d07_749c_dd08_58e0, 0x0d52_f6f6_2a4f_59a4,
                  0x634c_b357_7b01_fd3d, 0xa522_4d6f_55c7_d9c8)
  {
  }

  lemma Round3()
    ensures SipRound(Words64(), State(0x4a01_7198_de0a_59e0, 0x0d52_f6f6_2a4f_59a4,
                                      0x634c_b357_7b01_fd3d, 0xaa2c_4063_5ecd_d0c0)) ==
            State(0x5575_60fb_6063_d060, 0x4c8e_675b_d961_133e,
                  0xbd3d_002b_1703_a181, 0xfb94_4117_9a4a_7315)
  {
  }

  lemma Round4()
    ensures SipRound(Words64(), State(0x5575_60fb_6063_d060, 0x4c8e_675b_d961_133e,
                                      0xbd3d_002b_1703_a181, 0xfb94_4117_9a4a_7315)) ==
            State(0x338b_bea7_645f_b759, 0x414f_c3fb_98ef_e374,
                  0xccf1_3ea5_27b9_f4bd, 0x5293_f5da_8400_8f82)
  {
  }

  lemma Round5()
    ensures SipRound(Words64(), State(0x3c85_b3ab_6f55_be51, 0x414f_c3fb_98ef_e374,
                                      0xccf1_3ea5_27b9_f442, 0x5293_f5da_8400_8f82)) ==
            State(0xf2a5_5244_a20e_48fe, 0xac5a_d16c_cc3c_a6e4,
                  0x9fe5_adb0_a52f_393a, 0xfd41_d55e_88f3_0308)
  {
  }

  lemma Round6()
    ensures SipRound(Words64(), State(0xf2a5_5244_a20e_48fe, 0xac5a_d16c_cc3c_a6e4,
                                      0x9fe5_adb0_a52f_393a, 0xfd41_d55e_88f3_0308)) ==
            State(0xb6c3_fbde_cc2a_e4b4, 0x1638_c86a_dc6b_3cf0,
                  0x28b8_b6ab_6255_3d46, 0xc946_5e86_ec43_eb95)
  {
  }

  lemma Round7()
    ensures SipRound(Words64(), State(0xb6c3_fbde_cc2a_e4b4, 0x1638_c86a_dc6b_3cf0,
                                      0x28b8_b6ab_6255_3d46, 0xc946_5e86_ec43_eb95)) ==
            State(0x5810_1b16_7209_a5e6, 0xf879_2ae7_5b66_e7dd,
                  0x1da1_4c3e_c7f0_b4f7, 0x7624_ba8a_41bc_4ad9)
  {
  }

  lemma Round8()
    ensures SipRound(Words64(), State(0x5810_1b16_7209_a5e6, 0xf879_2ae7_5b66_e7dd,
                                      0x1da1_4c3e_c7f0_b4f7, 0x7624_ba8a_41bc_4ad9)) ==
            State(0xf6bc_d538_93fe_cff1, 0x54b9_964c_7ea0_d937,
                  0x1b38_329c_099b_b55a, 0x1814_bb89_ad7b_e679)
  {
  }

  lemma TwoRounds<W>(o: Arx<W>, s: State<W>)
    ensures Rounds(o, s, 2) == SipRound(o, SipRound(o, s))
  {
    assert Rounds(o, s, 0) == s;
    assert Rounds(o, s, 1) == SipRound(o, Rounds(o, s, 0));
  }

  lemma FourRounds<W>(o: Arx<W>, s: State<W>)
    ensures Rounds(o, s, 4) == SipRound(o, SipRound(o, SipRound(o, SipRound(o, s))))
  {
    TwoRounds(o, s);
    assert Rounds(o, s, 3) == SipRound(o, Rounds(o, s, 2));
  }

  lemma AfterKey()
    ensures Initial(Words64(), Constants(), 0x0706_0504_0302_0100, 0x0f0e_0d0c_0b0a_0908) ==
            State(0x7469_6861_7371_6475, 0x6b61_7f6d_656e_6665,
                  0x6b7f_6261_6d67_7361, 0x7b6b_696e_727e_6c7b)
  {
  }

  lemma AfterFirstWord()
    ensures Compress(Words64(), State(0x7469_6861_7371_6475, 0x6b61_7f6d_656e_6665,
                                      0x6b7f_6261_6d67_7361, 0x7b6b_696e_727e_6c7b),
                     0x0706_0504_0302_0100) ==
            State(0x4a01_7198_de0a_59e0, 0x0d52_f6f6_2a4f_59a4,
                  0x634c_b357_7b01_fd3d, 0xa522_4d6f_55c7_d9c8)
  {
    TwoRounds(Words64(), State(0x7469_6861_7371_6475, 0x6b61_7f6d_656e_6665,
                               0x6b7f_6261_6d67_7361, 0x7c6d_6c6a_717c_6d7b));
    Round1();
    Round2();
  }

  lemma AfterSecondWord()
    ensures Compress(Words64(), State(0x4a01_7198_de0a_59e0, 0x0d52_f6f6_2a4f_59a4,
                                      0x634c_b357_7b01_fd3d, 0xa522_4d6f_55c7_d9c8),
                     0x0f0e_0d0c_0b0a_0908) ==
            State(0x3c85_b3ab_6f55_be51, 0x414f_c3fb_98ef_e374,
                  0xccf1_3ea5_27b9_f4bd, 0x5293_f5da_8400_8f82)
  {
    TwoRounds(Words64(), State(0x4a01_7198_de0a_59e0, 0x0d52_f6f6_2a4f_59a4,
                               0x634c_b357_7b01_fd3d, 0xaa2c_4063_5ecd_d0c0));
    Round3();
    Round4();
  }

  lemma AfterLastRound()
    ensures FinalState(Words64(), State(0x3c85_b3ab_6f55_be51, 0x414f_c3fb_98ef_e374,
                                        0xccf1_3ea5_27b9_f4bd, 0x5293_f5da_8400_8f82), 0xff) ==
            State(0xf6bc_d538_93fe_cff1, 0x54b9_964c_7ea0_d937,
                  0x1b38_329c_099b_b55a, 0x1814_bb89_ad7b_e679)
  {
    FourRounds(Words64(), State(0x3c85_b3ab_6f55_be51, 0x414f_c3fb_98ef_e374,
                                0xccf1_3ea5_27b9_f442, 0x5293_f5da_8400_8f82));
    Round5();
    Round6();
    Round7();
    Round8();
  }

  lemma TwoWords<W>(o: Arx<W>, s: State<W>, bytes: seq<Byte>)
    requires |bytes| == 16
    ensures Absorb(o, s, bytes, 2) == Compress(o, Compress(o, s, BlockOf(o, bytes, 0)), BlockOf(o, bytes, 1))
  {
    assert Absorb(o, s, bytes, 0) == s;
    assert Absorb(o, s, bytes, 1) == Compress(o, Absorb(o, s, bytes, 0), BlockOf(o, bytes, 0));
  }

  lemma OutputOfFinalState()
    ensures Finish(Words64(), State(0x3c85_b3ab_6f55_be51, 0x414f_c3fb_98ef_e374,
                                    0xccf1_3ea5_27b9_f4bd, 0x5293_f5da_8400_8f82), 0xff) == 0xa129_ca61_49be_45e5
  {
    AfterLastRound();
  }

  /** The example of the paper's appendix A. */
  lemma PaperExample()
    ensures SipHash24(KEY, MESSAGE) == 0xa129_ca61_49be_45e5
  {
    KeyWords();
    MessageWords();
    AfterKey();
    AfterFirstWord();
    AfterSecondWord();
    OutputOfFinalState();
    TwoWords(Words64(), Initial(Words64(), Constants(), 0x0706_0504_0302_0100, 0x0f0e_0d0c_0b0a_0908), Padded(MESSAGE));
  }
}
