/**
 * Checks that the host's lookup table is CRC-8/MAXIM: every entry i is what
 * eight reflected shift-register steps (polynomial 0x8C) make of i, and so
 * the table-driven `_crc8` computes the bit-by-bit CRC of Maxim Application
 * Note 27. The table is checked one row of eight at a time: first the entries
 * themselves, then the same row quantified over a bv8 index.
 */
module HostTableCheck {
  import opened Bytes
  import opened Crc8Maxim
  import opened HostProtocol

  lemma Row00()
    ensures CRC8_ROW_00[0] == Rounds8(0x00) as int &&
      CRC8_ROW_00[1] == Rounds8(0x01) as int &&
      CRC8_ROW_00[2] == Rounds8(0x02) as int &&
      CRC8_ROW_00[3] == Rounds8(0x03) as int &&
      CRC8_ROW_00[4] == Rounds8(0x04) as int &&
      CRC8_ROW_00[5] == Rounds8(0x05) as int &&
      CRC8_ROW_00[6] == Rounds8(0x06) as int &&
      CRC8_ROW_00[7] == Rounds8(0x07) as int
  {
  }

  lemma Place00()
    ensures forall i :: 0x00 <= i < 0x08 ==> CRC8_TABLE[i] == CRC8_ROW_00[i - 0x00]
  {
  }

  lemma Block00()
    ensures forall b: bv8 :: 0x00 <= b as int < 0x08 ==> CRC8_TABLE[b as int] == Rounds8(b) as int
  {
    Place00();
    assert forall b: bv8 :: 0x00 <= b as int < 0x08 ==> CRC8_ROW_00[b as int - 0x00] == Rounds8(b) as int by {
      Row00();
    }
  }

  lemma Row01()
    ensures CRC8_ROW_01[0] == Rounds8(0x08) as int &&
      CRC8_ROW_01[1] == Rounds8(0x09) as int &&
      CRC8_ROW_01[2] == Rounds8(0x0A) as int &&
      CRC8_ROW_01[3] == Rounds8(0x0B) as int &&
      CRC8_ROW_01[4] == Rounds8(0x0C) as int &&
      CRC8_ROW_01[5] == Rounds8(0x0D) as int &&
      CRC8_ROW_01[6] == Rounds8(0x0E) as int &&
      CRC8_ROW_01[7] == Rounds8(0x0F) as int
  {
  }

  lemma Place01()
    ensures forall i :: 0x08 <= i < 0x10 ==> CRC8_TABLE[i] == CRC8_ROW_01[i - 0x08]
  {
  }

  lemma Block01()
    ensures forall b: bv8 :: 0x08 <= b as int < 0x10 ==> CRC8_TABLE[b as int] == Rounds8(b) as int
  {
    Place01();
    assert forall b: bv8 :: 0x08 <= b as int < 0x10 ==> CRC8_ROW_01[b as int - 0x08] == Rounds8(b) as int by {
      Row01();
    }
  }

  lemma Row02()
    ensures CRC8_ROW_02[0] == Rounds8(0x10) as int &&
      CRC8_ROW_02[1] == Rounds8(0x11) as int &&
      CRC8_ROW_02[2] == Rounds8(0x12) as int &&
      CRC8_ROW_02[3] == Rounds8(0x13) as int &&
      CRC8_ROW_02[4] == Rounds8(0x14) as int &&
      CRC8_ROW_02[5] == Rounds8(0x15) as int &&
      CRC8_ROW_02[6] == Rounds8(0x16) as int &&
      CRC8_ROW_02[7] == Rounds8(0x17) as int
  {
  }

  lemma Place02()
    ensures forall i :: 0x10 <= i < 0x18 ==> CRC8_TABLE[i] == CRC8_ROW_02[i - 0x10]
  {
  }

  lemma Block02()
    ensures forall b: bv8 :: 0x10 <= b as int < 0x18 ==> CRC8_TABLE[b as int] == Rounds8(b) as int
  {
    Place02();
    assert forall b: bv8 :: 0x10 <= b as int < 0x18 ==> CRC8_ROW_02[b as int - 0x10] == Rounds8(b) as int by {
      Row02();
    }
  }

  lemma Row03()
    ensures CRC8_ROW_03[0] == Rounds8(0x18) as int &&
      CRC8_ROW_03[1] == Rounds8(0x19) as int &&
      CRC8_ROW_03[2] == Rounds8(0x1A) as int &&
      CRC8_ROW_03[3] == Rounds8(0x1B) as int &&
      CRC8_ROW_03[4] == Rounds8(0x1C) as int &&
      CRC8_ROW_03[5] == Rounds8(0x1D) as int &&
      CRC8_ROW_03[6] == Rounds8(0x1E) as int &&
      CRC8_ROW_03[7] == Rounds8(0x1F) as int
  {
  }

  lemma Place03()
    ensures forall i :: 0x18 <= i < 0x20 ==> CRC8_TABLE[i] == CRC8_ROW_03[i - 0x18]
  {
  }

  lemma Block03()
    ensures forall b: bv8 :: 0x18 <= b as int < 0x20 ==> CRC8_TABLE[b as int] == Rounds8(b) as int
  {
    Place03();
    assert forall b: bv8 :: 0x18 <= b as int < 0x20 ==> CRC8_ROW_03[b as int - 0x18] == Rounds8(b) as int by {
      Row03();
    }
  }

  lemma Row04()
    ensures CRC8_ROW_04[0] == Rounds8(0x20) as int &&
      CRC8_ROW_04[1] == Rounds8(0x21) as int &&
      CRC8_ROW_04[2] == Rounds8(0x22) as int &&
      CRC8_ROW_04[3] == Rounds8(0x23) as int &&
      CRC8_ROW_04[4] == Rounds8(0x24) as int &&
      CRC8_ROW_04[5] == Rounds8(0x25) as int &&
      CRC8_ROW_04[6] == Rounds8(0x26) as int &&
      CRC8_ROW_04[7] == Rounds8(0x27) as int
  {
  }

  lemma Place04()
    ensures forall i :: 0x20 <= i < 0x28 ==> CRC8_TABLE[i] == CRC8_ROW_04[i - 0x20]
  {
  }

  lemma Block04()
    ensures forall b: bv8 :: 0x20 <= b as int < 0x28 ==> CRC8_TABLE[b as int] == Rounds8(b) as int
  {
    Place04();
    assert forall b: bv8 :: 0x20 <= b as int < 0x28 ==> CRC8_ROW_04[b as int - 0x20] == Rounds8(b) as int by {
      Row04();
    }
  }

  lemma Row05()
    ensures CRC8_ROW_05[0] == Rounds8(0x28) as int &&
      CRC8_ROW_05[1] == Rounds8(0x29) as int &&
      CRC8_ROW_05[2] == Rounds8(0x2A) as int &&
      CRC8_ROW_05[3] == Rounds8(0x2B) as int &&
      CRC8_ROW_05[4] == Rounds8(0x2C) as int &&
      CRC8_ROW_05[5] == Rounds8(0x2D) as int &&
      CRC8_ROW_05[6] == Rounds8(0x2E) as int &&
      CRC8_ROW_05[7] == Rounds8(0x2F) as int
  {
  }

  lemma Place05()
    ensures forall i :: 0x28 <= i < 0x30 ==> CRC8_TABLE[i] == CRC8_ROW_05[i - 0x28]
  {
  }

  lemma Block05()
    ensures forall b: bv8 :: 0x28 <= b as int < 0x30 ==> CRC8_TABLE[b as int] == Rounds8(b) as int
  {
    Place05();
    assert forall b: bv8 :: 0x28 <= b as int < 0x30 ==> CRC8_ROW_05[b as int - 0x28] == Rounds8(b) as int by {
      Row05();
    }
  }

  lemma Row06()
    ensures CRC8_ROW_06[0] == Rounds8(0x30) as int &&
      CRC8_ROW_06[1] == Rounds8(0x31) as int &&
      CRC8_ROW_06[2] == Rounds8(0x32) as int &&
      CRC8_ROW_06[3] == Rounds8(0x33) as int &&
      CRC8_ROW_06[4] == Rounds8(0x34) as int &&
      CRC8_ROW_06[5] == Rounds8(0x35) as int &&
      CRC8_ROW_06[6] == Rounds8(0x36) as int &&
      CRC8_ROW_06[7] == Rounds8(0x37) as int
  {
  }

  lemma Place06()
    ensures forall i :: 0x30 <= i < 0x38 ==> CRC8_TABLE[i] == CRC8_ROW_06[i - 0x30]
  {
  }

  lemma Block06()
    ensures forall b: bv8 :: 0x30 <= b as int < 0x38 ==> CRC8_TABLE[b as int] == Rounds8(b) as int
  {
    Place06();
    assert forall b: bv8 :: 0x30 <= b as int < 0x38 ==> CRC8_ROW_06[b as int - 0x30] == Rounds8(b) as int by {
      Row06();
    }
  }

  lemma Row07()
    ensures CRC8_ROW_07[0] == Rounds8(0x38) as int &&
      CRC8_ROW_07[1] == Rounds8(0x39) as int &&
      CRC8_ROW_07[2] == Rounds8(0x3A) as int &&
      CRC8_ROW_07[3] == Rounds8(0x3B) as int &&
      CRC8_ROW_07[4] == Rounds8(0x3C) as int &&
      CRC8_ROW_07[5] == Rounds8(0x3D) as int &&
      CRC8_ROW_07[6] == Rounds8(0x3E) as int &&
      CRC8_ROW_07[7] == Rounds8(0x3F) as int
  {
  }

  lemma Place07()
    ensures forall i :: 0x38 <= i < 0x40 ==> CRC8_TABLE[i] == CRC8_ROW_07[i - 0x38]
  {
  }

  lemma Block07()
    ensures forall b: bv8 :: 0x38 <= b as int < 0x40 ==> CRC8_TABLE[b as int] == Rounds8(b) as int
  {
    Place07();
    assert forall b: bv8 :: 0x38 <= b as int < 0x40 ==> CRC8_ROW_07[b as int - 0x38] == Rounds8(b) as int by {
      Row07();
    }
  }

  lemma Row08()
    ensures CRC8_ROW_08[0] == Rounds8(0x40) as int &&
      CRC8_ROW_08[1] == Rounds8(0x41) as int &&
      CRC8_ROW_08[2] == Rounds8(0x42) as int &&
      CRC8_ROW_08[3] == Rounds8(0x43) as int &&
      CRC8_ROW_08[4] == Rounds8(0x44) as int &&
      CRC8_ROW_08[5] == Rounds8(0x45) as int &&
      CRC8_ROW_08[6] == Rounds8(0x46) as int &&
      CRC8_ROW_08[7] == Rounds8(0x47) as int
  {
  }

  lemma Place08()
    ensures forall i :: 0x40 <= i < 0x48 ==> CRC8_TABLE[i] == CRC8_ROW_08[i - 0x40]
  {
  }

  lemma Block08()
    ensures forall b: bv8 :: 0x40 <= b as int < 0x48 ==> CRC8_TABLE[b as int] == Rounds8(b) as int
  {
    Place08();
    assert forall b: bv8 :: 0x40 <= b as int < 0x48 ==> CRC8_ROW_08[b as int - 0x40] == Rounds8(b) as int by {
      Row08();
    }
  }

  lemma Row09()
    ensures CRC8_ROW_09[0] == Rounds8(0x48) as int &&
      CRC8_ROW_09[1] == Rounds8(0x49) as int &&
      CRC8_ROW_09[2] == Rounds8(0x4A) as int &&
      CRC8_ROW_09[3] == Rounds8(0x4B) as int &&
      CRC8_ROW_09[4] == Rounds8(0x4C) as int &&
      CRC8_ROW_09[5] == Rounds8(0x4D) as int &&
      CRC8_ROW_09[6] == Rounds8(0x4E) as int &&
      CRC8_ROW_09[7] == Rounds8(0x4F) as int
  {
  }

  lemma Place09()
    ensures forall i :: 0x48 <= i < 0x50 ==> CRC8_TABLE[i] == CRC8_ROW_09[i - 0x48]
  {
  }

  lemma Block09()
    ensures forall b: bv8 :: 0x48 <= b as int < 0x50 ==> CRC8_TABLE[b as int] == Rounds8(b) as int
  {
    Place09();
    assert forall b: bv8 :: 0x48 <= b as int < 0x50 ==> CRC8_ROW_09[b as int - 0x48] == Rounds8(b) as int by {
      Row09();
    }
  }

  lemma Row10()
    ensures CRC8_ROW_10[0] == Rounds8(0x50) as int &&
      CRC8_ROW_10[1] == Rounds8(0x51) as int &&
      CRC8_ROW_10[2] == Rounds8(0x52) as int &&
      CRC8_ROW_10[3] == Rounds8(0x53) as int &&
      CRC8_ROW_10[4] == Rounds8(0x54) as int &&
      CRC8_ROW_10[5] == Rounds8(0x55) as int &&
      CRC8_ROW_10[6] == Rounds8(0x56) as int &&
      CRC8_ROW_10[7] == Rounds8(0x57) as int
  {
  }

  lemma Place10()
    ensures forall i :: 0x50 <= i < 0x58 ==> CRC8_TABLE[i] == CRC8_ROW_10[i - 0x50]
  {
  }

  lemma Block10()
    ensures forall b: bv8 :: 0x50 <= b as int < 0x58 ==> CRC8_TABLE[b as int] == Rounds8(b) as int
  {
    Place10();
    assert forall b: bv8 :: 0x50 <= b as int < 0x58 ==> CRC8_ROW_10[b as int - 0x50] == Rounds8(b) as int by {
      Row10();
    }
  }

  lemma Row11()
    ensures CRC8_ROW_11[0] == Rounds8(0x58) as int &&
      CRC8_ROW_11[1] == Rounds8(0x59) as int &&
      CRC8_ROW_11[2] == Rounds8(0x5A) as int &&
      CRC8_ROW_11[3] == Rounds8(0x5B) as int &&
      CRC8_ROW_11[4] == Rounds8(0x5C) as int &&
      CRC8_ROW_11[5] == Rounds8(0x5D) as int &&
      CRC8_ROW_11[6] == Rounds8(0x5E) as int &&
      CRC8_ROW_11[7] == Rounds8(0x5F) as int
  {
  }

  lemma Place11()
    ensures forall i :: 0x58 <= i < 0x60 ==> CRC8_TABLE[i] == CRC8_ROW_11[i - 0x58]
  {
  }

  lemma Block11()
    ensures forall b: bv8 :: 0x58 <= b as int < 0x60 ==> CRC8_TABLE[b as int] == Rounds8(b) as int
  {
    Place11();
    assert forall b: bv8 :: 0x58 <= b as int < 0x60 ==> CRC8_ROW_11[b as int - 0x58] == Rounds8(b) as int by {
      Row11();
    }
  }

  lemma Row12()
    ensures CRC8_ROW_12[0] == Rounds8(0x60) as int &&
      CRC8_ROW_12[1] == Rounds8(0x61) as int &&
      CRC8_ROW_12[2] == Rounds8(0x62) as int &&
      CRC8_ROW_12[3] == Rounds8(0x63) as int &&
      CRC8_ROW_12[4] == Rounds8(0x64) as int &&
      CRC8_ROW_12[5] == Rounds8(0x65) as int &&
      CRC8_ROW_12[6] == Rounds8(0x66) as int &&
      CRC8_ROW_12[7] == Rounds8(0x67) as int
  {
  }

  lemma Place12()
    ensures forall i :: 0x60 <= i < 0x68 ==> CRC8_TABLE[i] == CRC8_ROW_12[i - 0x60]
  {
  }

  lemma Block12()
    ensures forall b: bv8 :: 0x60 <= b as int < 0x68 ==> CRC8_TABLE[b as int] == Rounds8(b) as int
  {
    Place12();
    assert forall b: bv8 :: 0x60 <= b as int < 0x68 ==> CRC8_ROW_12[b as int - 0x60] == Rounds8(b) as int by {
      Row12();
    }
  }

  lemma Row13()
    ensures CRC8_ROW_13[0] == Rounds8(0x68) as int &&
      CRC8_ROW_13[1] == Rounds8(0x69) as int &&
      CRC8_ROW_13[2] == Rounds8(0x6A) as int &&
      CRC8_ROW_13[3] == Rounds8(0x6B) as int &&
      CRC8_ROW_13[4] == Rounds8(0x6C) as int &&
      CRC8_ROW_13[5] == Rounds8(0x6D) as int &&
      CRC8_ROW_13[6] == Rounds8(0x6E) as int &&
      CRC8_ROW_13[7] == Rounds8(0x6F) as int
  {
  }

  lemma Place13()
    ensures forall i :: 0x68 <= i < 0x70 ==> CRC8_TABLE[i] == CRC8_ROW_13[i - 0x68]
  {
  }

  lemma Block13()
    ensures forall b: bv8 :: 0x68 <= b as int < 0x70 ==> CRC8_TABLE[b as int] == Rounds8(b) as int
  {
    Place13();
    assert forall b: bv8 :: 0x68 <= b as int < 0x70 ==> CRC8_ROW_13[b as int - 0x68] == Rounds8(b) as int by {
      Row13();
    }
  }

  lemma Row14()
    ensures CRC8_ROW_14[0] == Rounds8(0x70) as int &&
      CRC8_ROW_14[1] == Rounds8(0x71) as int &&
      CRC8_ROW_14[2] == Rounds8(0x72) as int &&
      CRC8_ROW_14[3] == Rounds8(0x73) as int &&
      CRC8_ROW_14[4] == Rounds8(0x74) as int &&
      CRC8_ROW_14[5] == Rounds8(0x75) as int &&
      CRC8_ROW_14[6] == Rounds8(0x76) as int &&
      CRC8_ROW_14[7] == Rounds8(0x77) as int
  {
  }

  lemma Place14()
    ensures forall i :: 0x70 <= i < 0x78 ==> CRC8_TABLE[i] == CRC8_ROW_14[i - 0x70]
  {
  }

  lemma Block14()
    ensures forall b: bv8 :: 0x70 <= b as int < 0x78 ==> CRC8_TABLE[b as int] == Rounds8(b) as int
  {
    Place14();
    assert forall b: bv8 :: 0x70 <= b as int < 0x78 ==> CRC8_ROW_14[b as int - 0x70] == Rounds8(b) as int by {
      Row14();
    }
  }

  lemma Row15()
    ensures CRC8_ROW_15[0] == Rounds8(0x78) as int &&
      CRC8_ROW_15[1] == Rounds8(0x79) as int &&
      CRC8_ROW_15[2] == Rounds8(0x7A) as int &&
      CRC8_ROW_15[3] == Rounds8(0x7B) as int &&
      CRC8_ROW_15[4] == Rounds8(0x7C) as int &&
      CRC8_ROW_15[5] == Rounds8(0x7D) as int &&
      CRC8_ROW_15[6] == Rounds8(0x7E) as int &&
      CRC8_ROW_15[7] == Rounds8(0x7F) as int
  {
  }

  lemma Place15()
    ensures forall i :: 0x78 <= i < 0x80 ==> CRC8_TABLE[i] == CRC8_ROW_15[i - 0x78]
  {
  }

  lemma Block15()
    ensures forall b: bv8 :: 0x78 <= b as int < 0x80 ==> CRC8_TABLE[b as int] == Rounds8(b) as int
  {
    Place15();
    assert forall b: bv8 :: 0x78 <= b as int < 0x80 ==> CRC8_ROW_15[b as int - 0x78] == Rounds8(b) as int by {
      Row15();
    }
  }

  lemma Row16()
    ensures CRC8_ROW_16[0] == Rounds8(0x80) as int &&
      CRC8_ROW_16[1] == Rounds8(0x81) as int &&
      CRC8_ROW_16[2] == Rounds8(0x82) as int &&
      CRC8_ROW_16[3] == Rounds8(0x83) as int &&
      CRC8_ROW_16[4] == Rounds8(0x84) as int &&
      CRC8_ROW_16[5] == Rounds8(0x85) as int &&
      CRC8_ROW_16[6] == Rounds8(0x86) as int &&
      CRC8_ROW_16[7] == Rounds8(0x87) as int
  {
  }

  lemma Place16()
    ensures forall i :: 0x80 <= i < 0x88 ==> CRC8_TABLE[i] == CRC8_ROW_16[i - 0x80]
  {
  }

  lemma Block16()
    ensures forall b: bv8 :: 0x80 <= b as int < 0x88 ==> CRC8_TABLE[b as int] == Rounds8(b) as int
  {
    Place16();
    assert forall b: bv8 :: 0x80 <= b as int < 0x88 ==> CRC8_ROW_16[b as int - 0x80] == Rounds8(b) as int by {
      Row16();
    }
  }

  lemma Row17()
    ensures CRC8_ROW_17[0] == Rounds8(0x88) as int &&
      CRC8_ROW_17[1] == Rounds8(0x89) as int &&
      CRC8_ROW_17[2] == Rounds8(0x8A) as int &&
      CRC8_ROW_17[3] == Rounds8(0x8B) as int &&
      CRC8_ROW_17[4] == Rounds8(0x8C) as int &&
      CRC8_ROW_17[5] == Rounds8(0x8D) as int &&
      CRC8_ROW_17[6] == Rounds8(0x8E) as int &&
      CRC8_ROW_17[7] == Rounds8(0x8F) as int
  {
  }

  lemma Place17()
    ensures forall i :: 0x88 <= i < 0x90 ==> CRC8_TABLE[i] == CRC8_ROW_17[i - 0x88]
  {
  }

  lemma Block17()
    ensures forall b: bv8 :: 0x88 <= b as int < 0x90 ==> CRC8_TABLE[b as int] == Rounds8(b) as int
  {
    Place17();
    assert forall b: bv8 :: 0x88 <= b as int < 0x90 ==> CRC8_ROW_17[b as int - 0x88] == Rounds8(b) as int by {
      Row17();
    }
  }

  lemma Row18()
    ensures CRC8_ROW_18[0] == Rounds8(0x90) as int &&
      CRC8_ROW_18[1] == Rounds8(0x91) as int &&
      CRC8_ROW_18[2] == Rounds8(0x92) as int &&
      CRC8_ROW_18[3] == Rounds8(0x93) as int &&
      CRC8_ROW_18[4] == Rounds8(0x94) as int &&
      CRC8_ROW_18[5] == Rounds8(0x95) as int &&
      CRC8_ROW_18[6] == Rounds8(0x96) as int &&
      CRC8_ROW_18[7] == Rounds8(0x97) as int
  {
  }

  lemma Place18()
    ensures forall i :: 0x90 <= i < 0x98 ==> CRC8_TABLE[i] == CRC8_ROW_18[i - 0x90]
  {
  }

  lemma Block18()
    ensures forall b: bv8 :: 0x90 <= b as int < 0x98 ==> CRC8_TABLE[b as int] == Rounds8(b) as int
  {
    Place18();
    assert forall b: bv8 :: 0x90 <= b as int < 0x98 ==> CRC8_ROW_18[b as int - 0x90] == Rounds8(b) as int by {
      Row18();
    }
  }

  lemma Row19()
    ensures CRC8_ROW_19[0] == Rounds8(0x98) as int &&
      CRC8_ROW_19[1] == Rounds8(0x99) as int &&
      CRC8_ROW_19[2] == Rounds8(0x9A) as int &&
      CRC8_ROW_19[3] == Rounds8(0x9B) as int &&
      CRC8_ROW_19[4] == Rounds8(0x9C) as int &&
      CRC8_ROW_19[5] == Rounds8(0x9D) as int &&
      CRC8_ROW_19[6] == Rounds8(0x9E) as int &&
      CRC8_ROW_19[7] == Rounds8(0x9F) as int
  {
  }

  lemma Place19()
    ensures forall i :: 0x98 <= i < 0xA0 ==> CRC8_TABLE[i] == CRC8_ROW_19[i - 0x98]
  {
  }

  lemma Block19()
    ensures forall b: bv8 :: 0x98 <= b as int < 0xA0 ==> CRC8_TABLE[b as int] == Rounds8(b) as int
  {
    Place19();
    assert forall b: bv8 :: 0x98 <= b as int < 0xA0 ==> CRC8_ROW_19[b as int - 0x98] == Rounds8(b) as int by {
      Row19();
    }
  }

  lemma Row20()
    ensures CRC8_ROW_20[0] == Rounds8(0xA0) as int &&
      CRC8_ROW_20[1] == Rounds8(0xA1) as int &&
      CRC8_ROW_20[2] == Rounds8(0xA2) as int &&
      CRC8_ROW_20[3] == Rounds8(0xA3) as int &&
      CRC8_ROW_20[4] == Rounds8(0xA4) as int &&
      CRC8_ROW_20[5] == Rounds8(0xA5) as int &&
      CRC8_ROW_20[6] == Rounds8(0xA6) as int &&
      CRC8_ROW_20[7] == Rounds8(0xA7) as int
  {
  }

  lemma Place20()
    ensures forall i :: 0xA0 <= i < 0xA8 ==> CRC8_TABLE[i] == CRC8_ROW_20[i - 0xA0]
  {
  }

  lemma Block20()
    ensures forall b: bv8 :: 0xA0 <= b as int < 0xA8 ==> CRC8_TABLE[b as int] == Rounds8(b) as int
  {
    Place20();
    assert forall b: bv8 :: 0xA0 <= b as int < 0xA8 ==> CRC8_ROW_20[b as int - 0xA0] == Rounds8(b) as int by {
      Row20();
    }
  }

  lemma Row21()
    ensures CRC8_ROW_21[0] == Rounds8(0xA8) as int &&
      CRC8_ROW_21[1] == Rounds8(0xA9) as int &&
      CRC8_ROW_21[2] == Rounds8(0xAA) as int &&
      CRC8_ROW_21[3] == Rounds8(0xAB) as int &&
      CRC8_ROW_21[4] == Rounds8(0xAC) as int &&
      CRC8_ROW_21[5] == Rounds8(0xAD) as int &&
      CRC8_ROW_21[6] == Rounds8(0xAE) as int &&
      CRC8_ROW_21[7] == Rounds8(0xAF) as int
  {
  }

  lemma Place21()
    ensures forall i :: 0xA8 <= i < 0xB0 ==> CRC8_TABLE[i] == CRC8_ROW_21[i - 0xA8]
  {
  }

  lemma Block21()
    ensures forall b: bv8 :: 0xA8 <= b as int < 0xB0 ==> CRC8_TABLE[b as int] == Rounds8(b) as int
  {
    Place21();
    assert forall b: bv8 :: 0xA8 <= b as int < 0xB0 ==> CRC8_ROW_21[b as int - 0xA8] == Rounds8(b) as int by {
      Row21();
    }
  }

  lemma Row22()
    ensures CRC8_ROW_22[0] == Rounds8(0xB0) as int &&
      CRC8_ROW_22[1] == Rounds8(0xB1) as int &&
      CRC8_ROW_22[2] == Rounds8(0xB2) as int &&
      CRC8_ROW_22[3] == Rounds8(0xB3) as int &&
      CRC8_ROW_22[4] == Rounds8(0xB4) as int &&
      CRC8_ROW_22[5] == Rounds8(0xB5) as int &&
      CRC8_ROW_22[6] == Rounds8(0xB6) as int &&
      CRC8_ROW_22[7] == Rounds8(0xB7) as int
  {
  }

  lemma Place22()
    ensures forall i :: 0xB0 <= i < 0xB8 ==> CRC8_TABLE[i] == CRC8_ROW_22[i - 0xB0]
  {
  }

  lemma Block22()
    ensures forall b: bv8 :: 0xB0 <= b as int < 0xB8 ==> CRC8_TABLE[b as int] == Rounds8(b) as int
  {
    Place22();
    assert forall b: bv8 :: 0xB0 <= b as int < 0xB8 ==> CRC8_ROW_22[b as int - 0xB0] == Rounds8(b) as int by {
      Row22();
    }
  }

  lemma Row23()
    ensures CRC8_ROW_23[0] == Rounds8(0xB8) as int &&
      CRC8_ROW_23[1] == Rounds8(0xB9) as int &&
      CRC8_ROW_23[2] == Rounds8(0xBA) as int &&
      CRC8_ROW_23[3] == Rounds8(0xBB) as int &&
      CRC8_ROW_23[4] == Rounds8(0xBC) as int &&
      CRC8_ROW_23[5] == Rounds8(0xBD) as int &&
      CRC8_ROW_23[6] == Rounds8(0xBE) as int &&
      CRC8_ROW_23[7] == Rounds8(0xBF) as int
  {
  }

  lemma Place23()
    ensures forall i :: 0xB8 <= i < 0xC0 ==> CRC8_TABLE[i] == CRC8_ROW_23[i - 0xB8]
  {
  }

  lemma Block23()
    ensures forall b: bv8 :: 0xB8 <= b as int < 0xC0 ==> CRC8_TABLE[b as int] == Rounds8(b) as int
  {
    Place23();
    assert forall b: bv8 :: 0xB8 <= b as int < 0xC0 ==> CRC8_ROW_23[b as int - 0xB8] == Rounds8(b) as int by {
      Row23();
    }
  }

  lemma Row24()
    ensures CRC8_ROW_24[0] == Rounds8(0xC0) as int &&
      CRC8_ROW_24[1] == Rounds8(0xC1) as int &&
      CRC8_ROW_24[2] == Rounds8(0xC2) as int &&
      CRC8_ROW_24[3] == Rounds8(0xC3) as int &&
      CRC8_ROW_24[4] == Rounds8(0xC4) as int &&
      CRC8_ROW_24[5] == Rounds8(0xC5) as int &&
      CRC8_ROW_24[6] == Rounds8(0xC6) as int &&
      CRC8_ROW_24[7] == Rounds8(0xC7) as int
  {
  }

  lemma Place24()
    ensures forall i :: 0xC0 <= i < 0xC8 ==> CRC8_TABLE[i] == CRC8_ROW_24[i - 0xC0]
  {
  }

  lemma Block24()
    ensures forall b: bv8 :: 0xC0 <= b as int < 0xC8 ==> CRC8_TABLE[b as int] == Rounds8(b) as int
  {
    Place24();
    assert forall b: bv8 :: 0xC0 <= b as int < 0xC8 ==> CRC8_ROW_24[b as int - 0xC0] == Rounds8(b) as int by {
      Row24();
    }
  }

  lemma Row25()
    ensures CRC8_ROW_25[0] == Rounds8(0xC8) as int &&
      CRC8_ROW_25[1] == Rounds8(0xC9) as int &&
      CRC8_ROW_25[2] == Rounds8(0xCA) as int &&
      CRC8_ROW_25[3] == Rounds8(0xCB) as int &&
      CRC8_ROW_25[4] == Rounds8(0xCC) as int &&
      CRC8_ROW_25[5] == Rounds8(0xCD) as int &&
      CRC8_ROW_25[6] == Rounds8(0xCE) as int &&
      CRC8_ROW_25[7] == Rounds8(0xCF) as int
  {
  }

  lemma Place25()
    ensures forall i :: 0xC8 <= i < 0xD0 ==> CRC8_TABLE[i] == CRC8_ROW_25[i - 0xC8]
  {
  }

  lemma Block25()
    ensures forall b: bv8 :: 0xC8 <= b as int < 0xD0 ==> CRC8_TABLE[b as int] == Rounds8(b) as int
  {
    Place25();
    assert forall b: bv8 :: 0xC8 <= b as int < 0xD0 ==> CRC8_ROW_25[b as int - 0xC8] == Rounds8(b) as int by {
      Row25();
    }
  }

  lemma Row26()
    ensures CRC8_ROW_26[0] == Rounds8(0xD0) as int &&
      CRC8_ROW_26[1] == Rounds8(0xD1) as int &&
      CRC8_ROW_26[2] == Rounds8(0xD2) as int &&
      CRC8_ROW_26[3] == Rounds8(0xD3) as int &&
      CRC8_ROW_26[4] == Rounds8(0xD4) as int &&
      CRC8_ROW_26[5] == Rounds8(0xD5) as int &&
      CRC8_ROW_26[6] == Rounds8(0xD6) as int &&
      CRC8_ROW_26[7] == Rounds8(0xD7) as int
  {
  }

  lemma Place26()
    ensures forall i :: 0xD0 <= i < 0xD8 ==> CRC8_TABLE[i] == CRC8_ROW_26[i - 0xD0]
  {
  }

  lemma Block26()
    ensures forall b: bv8 :: 0xD0 <= b as int < 0xD8 ==> CRC8_TABLE[b as int] == Rounds8(b) as int
  {
    Place26();
    assert forall b: bv8 :: 0xD0 <= b as int < 0xD8 ==> CRC8_ROW_26[b as int - 0xD0] == Rounds8(b) as int by {
      Row26();
    }
  }

  lemma Row27()
    ensures CRC8_ROW_27[0] == Rounds8(0xD8) as int &&
      CRC8_ROW_27[1] == Rounds8(0xD9) as int &&
      CRC8_ROW_27[2] == Rounds8(0xDA) as int &&
      CRC8_ROW_27[3] == Rounds8(0xDB) as int &&
      CRC8_ROW_27[4] == Rounds8(0xDC) as int &&
      CRC8_ROW_27[5] == Rounds8(0xDD) as int &&
      CRC8_ROW_27[6] == Rounds8(0xDE) as int &&
      CRC8_ROW_27[7] == Rounds8(0xDF) as int
  {
  }

  lemma Place27()
    ensures forall i :: 0xD8 <= i < 0xE0 ==> CRC8_TABLE[i] == CRC8_ROW_27[i - 0xD8]
  {
  }

  lemma Block27()
    ensures forall b: bv8 :: 0xD8 <= b as int < 0xE0 ==> CRC8_TABLE[b as int] == Rounds8(b) as int
  {
    Place27();
    assert forall b: bv8 :: 0xD8 <= b as int < 0xE0 ==> CRC8_ROW_27[b as int - 0xD8] == Rounds8(b) as int by {
      Row27();
    }
  }

  lemma Row28()
    ensures CRC8_ROW_28[0] == Rounds8(0xE0) as int &&
      CRC8_ROW_28[1] == Rounds8(0xE1) as int &&
      CRC8_ROW_28[2] == Rounds8(0xE2) as int &&
      CRC8_ROW_28[3] == Rounds8(0xE3) as int &&
      CRC8_ROW_28[4] == Rounds8(0xE4) as int &&
      CRC8_ROW_28[5] == Rounds8(0xE5) as int &&
      CRC8_ROW_28[6] == Rounds8(0xE6) as int &&
      CRC8_ROW_28[7] == Rounds8(0xE7) as int
  {
  }

  lemma Place28()
    ensures forall i :: 0xE0 <= i < 0xE8 ==> CRC8_TABLE[i] == CRC8_ROW_28[i - 0xE0]
  {
  }

  lemma Block28()
    ensures forall b: bv8 :: 0xE0 <= b as int < 0xE8 ==> CRC8_TABLE[b as int] == Rounds8(b) as int
  {
    Place28();
    assert forall b: bv8 :: 0xE0 <= b as int < 0xE8 ==> CRC8_ROW_28[b as int - 0xE0] == Rounds8(b) as int by {
      Row28();
    }
  }

  lemma Row29()
    ensures CRC8_ROW_29[0] == Rounds8(0xE8) as int &&
      CRC8_ROW_29[1] == Rounds8(0xE9) as int &&
      CRC8_ROW_29[2] == Rounds8(0xEA) as int &&
      CRC8_ROW_29[3] == Rounds8(0xEB) as int &&
      CRC8_ROW_29[4] == Rounds8(0xEC) as int &&
      CRC8_ROW_29[5] == Rounds8(0xED) as int &&
      CRC8_ROW_29[6] == Rounds8(0xEE) as int &&
      CRC8_ROW_29[7] == Rounds8(0xEF) as int
  {
  }

  lemma Place29()
    ensures forall i :: 0xE8 <= i < 0xF0 ==> CRC8_TABLE[i] == CRC8_ROW_29[i - 0xE8]
  {
  }

  lemma Block29()
    ensures forall b: bv8 :: 0xE8 <= b as int < 0xF0 ==> CRC8_TABLE[b as int] == Rounds8(b) as int
  {
    Place29();
    assert forall b: bv8 :: 0xE8 <= b as int < 0xF0 ==> CRC8_ROW_29[b as int - 0xE8] == Rounds8(b) as int by {
      Row29();
    }
  }

  lemma Row30()
    ensures CRC8_ROW_30[0] == Rounds8(0xF0) as int &&
      CRC8_ROW_30[1] == Rounds8(0xF1) as int &&
      CRC8_ROW_30[2] == Rounds8(0xF2) as int &&
      CRC8_ROW_30[3] == Rounds8(0xF3) as int &&
      CRC8_ROW_30[4] == Rounds8(0xF4) as int &&
      CRC8_ROW_30[5] == Rounds8(0xF5) as int &&
      CRC8_ROW_30[6] == Rounds8(0xF6) as int &&
      CRC8_ROW_30[7] == Rounds8(0xF7) as int
  {
  }

  lemma Place30()
    ensures forall i :: 0xF0 <= i < 0xF8 ==> CRC8_TABLE[i] == CRC8_ROW_30[i - 0xF0]
  {
  }

  lemma Block30()
    ensures forall b: bv8 :: 0xF0 <= b as int < 0xF8 ==> CRC8_TABLE[b as int] == Rounds8(b) as int
  {
    Place30();
    assert forall b: bv8 :: 0xF0 <= b as int < 0xF8 ==> CRC8_ROW_30[b as int - 0xF0] == Rounds8(b) as int by {
      Row30();
    }
  }

  lemma Row31()
    ensures CRC8_ROW_31[0] == Rounds8(0xF8) as int &&
      CRC8_ROW_31[1] == Rounds8(0xF9) as int &&
      CRC8_ROW_31[2] == Rounds8(0xFA) as int &&
      CRC8_ROW_31[3] == Rounds8(0xFB) as int &&
      CRC8_ROW_31[4] == Rounds8(0xFC) as int &&
      CRC8_ROW_31[5] == Rounds8(0xFD) as int &&
      CRC8_ROW_31[6] == Rounds8(0xFE) as int &&
      CRC8_ROW_31[7] == Rounds8(0xFF) as int
  {
  }

  lemma Place31()
    ensures forall i :: 0xF8 <= i < 0x100 ==> CRC8_TABLE[i] == CRC8_ROW_31[i - 0xF8]
  {
  }

  lemma Block31()
    ensures forall b: bv8 :: 0xF8 <= b as int < 0x100 ==> CRC8_TABLE[b as int] == Rounds8(b) as int
  {
    Place31();
    assert forall b: bv8 :: 0xF8 <= b as int < 0x100 ==> CRC8_ROW_31[b as int - 0xF8] == Rounds8(b) as int by {
      Row31();
    }
  }

  /** Every entry of the host table is eight reflected shift-register steps applied to its index. */
  lemma TableIsMaxim()
    ensures |CRC8_TABLE| == 256
    ensures forall b: bv8 :: CRC8_TABLE[b as int] == Rounds8(b) as int
  {
    Block00();
    Block01();
    Block02();
    Block03();
    Block04();
    Block05();
    Block06();
    Block07();
    Block08();
    Block09();
    Block10();
    Block11();
    Block12();
    Block13();
    Block14();
    Block15();
    Block16();
    Block17();
    Block18();
    Block19();
    Block20();
    Block21();
    Block22();
    Block23();
    Block24();
    Block25();
    Block26();
    Block27();
    Block28();
    Block29();
    Block30();
    Block31();
  }

  /** One table lookup is one byte's worth of the bit-by-bit register. */
  lemma TableStep(c: byte, x: byte)
    ensures CRC8_TABLE[Xor(c, x)] == Rounds8((c as bv8) ^ (x as bv8)) as int
  {
    TableIsMaxim();
    var b := (c as bv8) ^ (x as bv8);
    assert CRC8_TABLE[b as int] == Rounds8(b) as int;
  }

  /** `_crc8` is CRC-8/MAXIM computed bit by bit. */
  lemma {:induction false} Crc8IsMaxim(data: seq<byte>)
    ensures Crc8(data) == Bitwise(data)
    decreases |data|
  {
    if |data| > 0 {
      var prefix := data[..|data| - 1];
      Crc8IsMaxim(prefix);
      TableStep(Crc8(prefix), data[|data| - 1]);
    }
  }

  /**
   * Swapping two bytes does not always change the checksum: 0xF7 is a fixed
   * point of the table, so the pair (0x00, 0xF7) checks the same either way.
   */
  lemma SwappedPairCollides()
    ensures Crc8([0x00, 0xF7]) == Crc8([0xF7, 0x00]) == 0xF7
  {
    var p: seq<byte> := [0x00, 0xF7];
    var q: seq<byte> := [0xF7, 0x00];
    assert Bitwise(p[..1]) == 0x00 by { assert p[..1][..0] == []; }
    assert p[..2] == p;
    assert Bitwise(q[..1]) == 0xF7 by { assert q[..1][..0] == []; }
    assert q[..2] == q;
    Crc8IsMaxim(p);
    Crc8IsMaxim(q);
  }
}
