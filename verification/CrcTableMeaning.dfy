/** What the entries of the lookup tables mean: each is the register left by
    shifting its index a whole number of bytes. */
module CrcTableMeaning {
  import opened BitSerial
  import opened CrcWords
  import opened CrcTables

  /** Reflected generator polynomials of CRC-32 (section 8 of RFC 1952) and of
      CRC32C (section 12.1 of RFC 3720). */
  const CRC32_POLY: bv32 := 0xEDB88320
  const CRC32C_POLY: bv32 := 0x82F63B78

  // ---- a table is determined by its entries at the powers of two ----

  function Pick(bit: bool, c: bv32): bv32 {
    if bit then c else 0
  }

  function Quad(s0: bool, s1: bool, s2: bool, s3: bool, c0: bv32, c1: bv32, c2: bv32, c3: bv32): bv32 {
    Xor(Xor(Pick(s0, c0), Pick(s1, c1)), Xor(Pick(s2, c2), Pick(s3, c3)))
  }

  function Spread(b: bv8, c0: bv32, c1: bv32, c2: bv32, c3: bv32, c4: bv32, c5: bv32, c6: bv32, c7: bv32): bv32 {
    Xor(Quad(b & 1 != 0, b & 2 != 0, b & 4 != 0, b & 8 != 0, c0, c1, c2, c3),
        Quad(b & 16 != 0, b & 32 != 0, b & 64 != 0, b & 128 != 0, c4, c5, c6, c7))
  }

  lemma {:induction false} ShiftZero(p: bv32, n: nat)
    ensures Shift(p, 0, n) == 0
    decreases n
  {
    if n > 0 {
      assert Step(p, 0) == 0;
      ShiftZero(p, n - 1);
    }
  }

  lemma ShiftPick(p: bv32, bit: bool, c: bv32, n: nat)
    ensures Shift(p, Pick(bit, c), n) == Pick(bit, Shift(p, c, n))
  {
    hide Step, Shift;
    ShiftZero(p, n);
  }

  lemma ShiftQuad(p: bv32, n: nat, s0: bool, s1: bool, s2: bool, s3: bool, c0: bv32, c1: bv32, c2: bv32, c3: bv32)
    ensures Shift(p, Quad(s0, s1, s2, s3, c0, c1, c2, c3), n)
         == Quad(s0, s1, s2, s3, Shift(p, c0, n), Shift(p, c1, n), Shift(p, c2, n), Shift(p, c3, n))
  {
    hide Step, Shift, Xor, Pick;
    ShiftXor(p, Xor(Pick(s0, c0), Pick(s1, c1)), Xor(Pick(s2, c2), Pick(s3, c3)), n);
    ShiftXor(p, Pick(s0, c0), Pick(s1, c1), n);
    ShiftXor(p, Pick(s2, c2), Pick(s3, c3), n);
    ShiftPick(p, s0, c0, n);
    ShiftPick(p, s1, c1, n);
    ShiftPick(p, s2, c2, n);
    ShiftPick(p, s3, c3, n);
  }

  lemma ShiftSpread(p: bv32, n: nat, b: bv8, c0: bv32, c1: bv32, c2: bv32, c3: bv32, c4: bv32, c5: bv32, c6: bv32, c7: bv32)
    ensures Shift(p, Spread(b, c0, c1, c2, c3, c4, c5, c6, c7), n)
         == Spread(b, Shift(p, c0, n), Shift(p, c1, n), Shift(p, c2, n), Shift(p, c3, n),
                      Shift(p, c4, n), Shift(p, c5, n), Shift(p, c6, n), Shift(p, c7, n))
  {
    hide Step, Shift, Xor, Quad;
    ShiftQuad(p, n, b & 1 != 0, b & 2 != 0, b & 4 != 0, b & 8 != 0, c0, c1, c2, c3);
    ShiftQuad(p, n, b & 16 != 0, b & 32 != 0, b & 64 != 0, b & 128 != 0, c4, c5, c6, c7);
    ShiftXor(p, Quad(b & 1 != 0, b & 2 != 0, b & 4 != 0, b & 8 != 0, c0, c1, c2, c3),
             Quad(b & 16 != 0, b & 32 != 0, b & 64 != 0, b & 128 != 0, c4, c5, c6, c7), n);
  }

  // ---- the one-byte tables ----

  /** An entry is its index after the register has shifted it eight times. */
  lemma Crc32TableEntry(b: bv8)
    ensures Crc32Table(b) == Shift(CRC32_POLY, Wide(b), 8)
  {
  }

  lemma Crc32cTableEntry(b: bv8)
    ensures Crc32cTable(b) == Shift(CRC32C_POLY, Wide(b), 8)
  {
  }

  lemma O32Entry(b: bv8)
    ensures O32(b) == Shift(CRC32C_POLY, Wide(b), 8)
  {
  }

  // ---- the slicing tables ----

  lemma O32Spread(b: bv8)
    ensures O32(b) == Spread(b, 0xF26B8303, 0xE13B70F7, 0xC79A971F, 0x8AD958CF,
                             0x105EC76F, 0x20BD8EDE, 0x417B1DBC, 0x82F63B78)
  {
  }

  lemma O40Spread(b: bv8)
    ensures O40(b) == Spread(b, 0x13A29877, 0x274530EE, 0x4E8A61DC, 0x9D14C3B8,
                             0x3FC5F181, 0x7F8BE302, 0xFF17C604, 0xFBC3FAF9)
  {
  }

  lemma O48Spread(b: bv8)
    ensures O48(b) == Spread(b, 0xA541927E, 0x4F6F520D, 0x9EDEA41A, 0x38513EC5,
                             0x70A27D8A, 0xE144FB14, 0xC76580D9, 0x8B277743)
  {
  }

  lemma O56Spread(b: bv8)
    ensures O56(b) == Spread(b, 0xDD45AAB8, 0xBF672381, 0x7B2231F3, 0xF64463E6,
                             0xE964B13D, 0xD725148B, 0xABA65FE7, 0x52A0C93F)
  {
  }

  lemma O64Spread(b: bv8)
    ensures O64(b) == Spread(b, 0x38116FAC, 0x7022DF58, 0xE045BEB0, 0xC5670B91,
                             0x8F2261D3, 0x1BA8B557, 0x37516AAE, 0x6EA2D55C)
  {
  }

  lemma O72Spread(b: bv8)
    ensures O72(b) == Spread(b, 0xEF306B19, 0xDB8CA0C3, 0xB2F53777, 0x6006181F,
                             0xC00C303E, 0x85F4168D, 0x0E045BEB, 0x1C08B7D6)
  {
  }

  lemma O80Spread(b: bv8)
    ensures O80(b) == Spread(b, 0x68032CC8, 0xD0065990, 0xA5E0C5D1, 0x4E2DFD53,
                             0x9C5BFAA6, 0x3D5B83BD, 0x7AB7077A, 0xF56E0EF4)
  {
  }

  lemma O88Spread(b: bv8)
    ensures O88(b) == Spread(b, 0x493C7D27, 0x9278FA4E, 0x211D826D, 0x423B04DA,
                             0x847609B4, 0x0D006599, 0x1A00CB32, 0x34019664)
  {
  }

  lemma O40Next(b: bv8)
    ensures O40(b) == Shift(CRC32C_POLY, O32(b), 8)
  {
    O32Spread(b);
    O40Spread(b);
    ShiftSpread(CRC32C_POLY, 8, b, 0xF26B8303, 0xE13B70F7, 0xC79A971F, 0x8AD958CF,
                0x105EC76F, 0x20BD8EDE, 0x417B1DBC, 0x82F63B78);
    PowersO40();
  }

  lemma PowersO40()
    ensures Shift(CRC32C_POLY, 0xF26B8303, 8) == 0x13A29877
    ensures Shift(CRC32C_POLY, 0xE13B70F7, 8) == 0x274530EE
    ensures Shift(CRC32C_POLY, 0xC79A971F, 8) == 0x4E8A61DC
    ensures Shift(CRC32C_POLY, 0x8AD958CF, 8) == 0x9D14C3B8
    ensures Shift(CRC32C_POLY, 0x105EC76F, 8) == 0x3FC5F181
    ensures Shift(CRC32C_POLY, 0x20BD8EDE, 8) == 0x7F8BE302
    ensures Shift(CRC32C_POLY, 0x417B1DBC, 8) == 0xFF17C604
    ensures Shift(CRC32C_POLY, 0x82F63B78, 8) == 0xFBC3FAF9
  {
  }

  lemma O48Next(b: bv8)
    ensures O48(b) == Shift(CRC32C_POLY, O40(b), 8)
  {
    O40Spread(b);
    O48Spread(b);
    ShiftSpread(CRC32C_POLY, 8, b, 0x13A29877, 0x274530EE, 0x4E8A61DC, 0x9D14C3B8,
                0x3FC5F181, 0x7F8BE302, 0xFF17C604, 0xFBC3FAF9);
    PowersO48();
  }

  lemma PowersO48()
    ensures Shift(CRC32C_POLY, 0x13A29877, 8) == 0xA541927E
    ensures Shift(CRC32C_POLY, 0x274530EE, 8) == 0x4F6F520D
    ensures Shift(CRC32C_POLY, 0x4E8A61DC, 8) == 0x9EDEA41A
    ensures Shift(CRC32C_POLY, 0x9D14C3B8, 8) == 0x38513EC5
    ensures Shift(CRC32C_POLY, 0x3FC5F181, 8) == 0x70A27D8A
    ensures Shift(CRC32C_POLY, 0x7F8BE302, 8) == 0xE144FB14
    ensures Shift(CRC32C_POLY, 0xFF17C604, 8) == 0xC76580D9
    ensures Shift(CRC32C_POLY, 0xFBC3FAF9, 8) == 0x8B277743
  {
  }

  lemma O56Next(b: bv8)
    ensures O56(b) == Shift(CRC32C_POLY, O48(b), 8)
  {
    O48Spread(b);
    O56Spread(b);
    ShiftSpread(CRC32C_POLY, 8, b, 0xA541927E, 0x4F6F520D, 0x9EDEA41A, 0x38513EC5,
                0x70A27D8A, 0xE144FB14, 0xC76580D9, 0x8B277743);
    PowersO56();
  }

  lemma PowersO56()
    ensures Shift(CRC32C_POLY, 0xA541927E, 8) == 0xDD45AAB8
    ensures Shift(CRC32C_POLY, 0x4F6F520D, 8) == 0xBF672381
    ensures Shift(CRC32C_POLY, 0x9EDEA41A, 8) == 0x7B2231F3
    ensures Shift(CRC32C_POLY, 0x38513EC5, 8) == 0xF64463E6
    ensures Shift(CRC32C_POLY, 0x70A27D8A, 8) == 0xE964B13D
    ensures Shift(CRC32C_POLY, 0xE144FB14, 8) == 0xD725148B
    ensures Shift(CRC32C_POLY, 0xC76580D9, 8) == 0xABA65FE7
    ensures Shift(CRC32C_POLY, 0x8B277743, 8) == 0x52A0C93F
  {
  }

  lemma O64Next(b: bv8)
    ensures O64(b) == Shift(CRC32C_POLY, O56(b), 8)
  {
    O56Spread(b);
    O64Spread(b);
    ShiftSpread(CRC32C_POLY, 8, b, 0xDD45AAB8, 0xBF672381, 0x7B2231F3, 0xF64463E6,
                0xE964B13D, 0xD725148B, 0xABA65FE7, 0x52A0C93F);
    PowersO64();
  }

  lemma PowersO64()
    ensures Shift(CRC32C_POLY, 0xDD45AAB8, 8) == 0x38116FAC
    ensures Shift(CRC32C_POLY, 0xBF672381, 8) == 0x7022DF58
    ensures Shift(CRC32C_POLY, 0x7B2231F3, 8) == 0xE045BEB0
    ensures Shift(CRC32C_POLY, 0xF64463E6, 8) == 0xC5670B91
    ensures Shift(CRC32C_POLY, 0xE964B13D, 8) == 0x8F2261D3
    ensures Shift(CRC32C_POLY, 0xD725148B, 8) == 0x1BA8B557
    ensures Shift(CRC32C_POLY, 0xABA65FE7, 8) == 0x37516AAE
    ensures Shift(CRC32C_POLY, 0x52A0C93F, 8) == 0x6EA2D55C
  {
  }

  lemma O72Next(b: bv8)
    ensures O72(b) == Shift(CRC32C_POLY, O64(b), 8)
  {
    O64Spread(b);
    O72Spread(b);
    ShiftSpread(CRC32C_POLY, 8, b, 0x38116FAC, 0x7022DF58, 0xE045BEB0, 0xC5670B91,
                0x8F2261D3, 0x1BA8B557, 0x37516AAE, 0x6EA2D55C);
    PowersO72();
  }

  lemma PowersO72()
    ensures Shift(CRC32C_POLY, 0x38116FAC, 8) == 0xEF306B19
    ensures Shift(CRC32C_POLY, 0x7022DF58, 8) == 0xDB8CA0C3
    ensures Shift(CRC32C_POLY, 0xE045BEB0, 8) == 0xB2F53777
    ensures Shift(CRC32C_POLY, 0xC5670B91, 8) == 0x6006181F
    ensures Shift(CRC32C_POLY, 0x8F2261D3, 8) == 0xC00C303E
    ensures Shift(CRC32C_POLY, 0x1BA8B557, 8) == 0x85F4168D
    ensures Shift(CRC32C_POLY, 0x37516AAE, 8) == 0x0E045BEB
    ensures Shift(CRC32C_POLY, 0x6EA2D55C, 8) == 0x1C08B7D6
  {
  }

  lemma O80Next(b: bv8)
    ensures O80(b) == Shift(CRC32C_POLY, O72(b), 8)
  {
    O72Spread(b);
    O80Spread(b);
    ShiftSpread(CRC32C_POLY, 8, b, 0xEF306B19, 0xDB8CA0C3, 0xB2F53777, 0x6006181F,
                0xC00C303E, 0x85F4168D, 0x0E045BEB, 0x1C08B7D6);
    PowersO80();
  }

  lemma PowersO80()
    ensures Shift(CRC32C_POLY, 0xEF306B19, 8) == 0x68032CC8
    ensures Shift(CRC32C_POLY, 0xDB8CA0C3, 8) == 0xD0065990
    ensures Shift(CRC32C_POLY, 0xB2F53777, 8) == 0xA5E0C5D1
    ensures Shift(CRC32C_POLY, 0x6006181F, 8) == 0x4E2DFD53
    ensures Shift(CRC32C_POLY, 0xC00C303E, 8) == 0x9C5BFAA6
    ensures Shift(CRC32C_POLY, 0x85F4168D, 8) == 0x3D5B83BD
    ensures Shift(CRC32C_POLY, 0x0E045BEB, 8) == 0x7AB7077A
    ensures Shift(CRC32C_POLY, 0x1C08B7D6, 8) == 0xF56E0EF4
  {
  }

  lemma O88Next(b: bv8)
    ensures O88(b) == Shift(CRC32C_POLY, O80(b), 8)
  {
    O80Spread(b);
    O88Spread(b);
    ShiftSpread(CRC32C_POLY, 8, b, 0x68032CC8, 0xD0065990, 0xA5E0C5D1, 0x4E2DFD53,
                0x9C5BFAA6, 0x3D5B83BD, 0x7AB7077A, 0xF56E0EF4);
    PowersO88();
  }

  lemma PowersO88()
    ensures Shift(CRC32C_POLY, 0x68032CC8, 8) == 0x493C7D27
    ensures Shift(CRC32C_POLY, 0xD0065990, 8) == 0x9278FA4E
    ensures Shift(CRC32C_POLY, 0xA5E0C5D1, 8) == 0x211D826D
    ensures Shift(CRC32C_POLY, 0x4E2DFD53, 8) == 0x423B04DA
    ensures Shift(CRC32C_POLY, 0x9C5BFAA6, 8) == 0x847609B4
    ensures Shift(CRC32C_POLY, 0x3D5B83BD, 8) == 0x0D006599
    ensures Shift(CRC32C_POLY, 0x7AB7077A, 8) == 0x1A00CB32
    ensures Shift(CRC32C_POLY, 0xF56E0EF4, 8) == 0x34019664
  {
  }
}
