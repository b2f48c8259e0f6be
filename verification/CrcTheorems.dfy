/** What `crc32` and `crc32c` promise about whole messages. */
module CrcTheorems {
  import opened BitSerial
  import opened CrcWords
  import opened CrcTableMeaning
  import opened CrcSoftware

  // ---- the register is invertible ----

  lemma StepKernel(p: bv32, d: bv32)
    requires Top(p) && Step(p, d) == 0
    ensures d == 0
  {
    Parity(d);
  }

  lemma StepInjective(p: bv32, a: bv32, b: bv32)
    requires Top(p) && Step(p, a) == Step(p, b)
    ensures a == b
  {
    hide Step, Xor, Top;
    StepXor(p, a, b);
    XorCancel(Step(p, a), Step(p, b));
    StepKernel(p, Xor(a, b));
    XorCancel(a, b);
  }

  lemma {:induction false} ShiftInjective(p: bv32, a: bv32, b: bv32, n: nat)
    requires Top(p) && Shift(p, a, n) == Shift(p, b, n)
    ensures a == b
    decreases n
  {
    hide Step, Top;
    if n > 0 {
      ShiftInjective(p, Step(p, a), Step(p, b), n - 1);
      StepInjective(p, a, b);
    }
  }

  lemma XorInjective(a: bv32, b: bv32, c: bv32)
    requires Xor(a, c) == Xor(b, c)
    ensures a == b
  {
    hide Xor;
    XorAssoc(a, c, c);
    XorAssoc(b, c, c);
    XorZero(c);
    XorZero(a);
    XorZero(b);
  }

  /** Two registers that differ stay different under the same input. */
  lemma {:induction false} FeedInjective(p: bv32, a: bv32, b: bv32, x: seq<bool>)
    requires Top(p) && Feed(p, a, x) == Feed(p, b, x)
    ensures a == b
    decreases |x|
  {
    hide Step, Top, Xor, BitWord;
    if x != [] {
      var s := BitWord(x[0]);
      FeedInjective(p, Step(p, Xor(a, s)), Step(p, Xor(b, s)), x[1..]);
      StepInjective(p, Xor(a, s), Xor(b, s));
      XorInjective(a, b, s);
    }
  }

  // ---- burst detection ----

  /** Two different strings of at most 32 bits leave different registers,
      whatever precedes and follows them. */
  lemma BurstBits(p: bv32, r: bv32, before: seq<bool>, u: seq<bool>, v: seq<bool>, after: seq<bool>)
    requires Top(p)
    requires |u| == |v| <= 32 && u != v
    ensures Feed(p, r, before + u + after) != Feed(p, r, before + v + after)
  {
    hide Step, Shift, Top, Xor, Feed, Pack;
    var s := Feed(p, r, before);
    FeedAppend(p, r, before + u, after);
    FeedAppend(p, r, before + v, after);
    FeedAppend(p, r, before, u);
    FeedAppend(p, r, before, v);
    if Feed(p, Feed(p, s, u), after) == Feed(p, Feed(p, s, v), after) {
      FeedInjective(p, Feed(p, s, u), Feed(p, s, v), after);
      SameWord(p, s, u, v);
    }
  }

  lemma SameWord(p: bv32, s: bv32, u: seq<bool>, v: seq<bool>)
    requires Top(p)
    requires |u| == |v| <= 32 && Feed(p, s, u) == Feed(p, s, v)
    ensures u == v
  {
    hide Step, Shift, Top, Xor, Feed, Pack;
    FeedPacked(p, s, u);
    FeedPacked(p, s, v);
    ShiftInjective(p, Xor(s, Pack(u)), Xor(s, Pack(v)), |u|);
    XorComm(s, Pack(u));
    XorComm(s, Pack(v));
    XorInjective(Pack(u), Pack(v), s);
    PackInjective(u, v);
  }

  lemma {:induction false} BitsInjective(x: seq<bv8>, y: seq<bv8>)
    requires |x| == |y| && Bits(x) == Bits(y)
    ensures x == y
  {
    hide Bit;
    forall i | 0 <= i < |x| ensures x[i] == y[i] {
      forall k | 0 <= k < 8 ensures Bit(x[i], k) == Bit(y[i], k) {
        BitsAt(x, 8 * i + k);
        BitsAt(y, 8 * i + k);
      }
      ByteFromBits(x[i], y[i]);
    }
  }

  lemma ByteFromBits(a: bv8, b: bv8)
    requires forall k :: 0 <= k < 8 ==> Bit(a, k) == Bit(b, k)
    ensures a == b
  {
    hide Bit, Eight, Wide;
    ByteOfBits(a);
    ByteOfBits(b);
    WideInjective(a, b);
  }

  lemma WideInjective(a: bv8, b: bv8)
    requires Wide(a) == Wide(b)
    ensures a == b
  {
    assert (a as bv32) as bv8 == a && (b as bv32) as bv8 == b;
  }

  /** Messages whose bits differ only inside the 32 bits from bit `k` on. */
  ghost predicate DifferInBurst(x: seq<bv8>, y: seq<bv8>, k: nat) {
    && |x| == |y|
    && x != y
    && forall i :: 0 <= i < 8 * |x| && !(k <= i < k + 32) ==> Bits(x)[i] == Bits(y)[i]
  }

  lemma BurstRegister(p: bv32, r: bv32, x: seq<bv8>, y: seq<bv8>, k: nat)
    requires Top(p) && DifferInBurst(x, y, k)
    ensures Register(p, r, x) != Register(p, r, y)
  {
    hide Feed, Bits, Top;
    var s, t, n := Bits(x), Bits(y), 8 * |x|;
    var lo := if k < n then k else n;
    var hi := if k + 32 < n then k + 32 else n;
    var before, u, v, after := s[..lo], s[lo..hi], t[lo..hi], s[hi..];
    assert before == t[..lo] && after == t[hi..];
    assert s == before + u + after && t == before + v + after;
    if u == v {
      BitsInjective(x, y);
    }
    BurstBits(p, r, before, u, v, after);
  }

  /** Main result: `crc32` and `crc32c` detect every burst of at most 32
      consecutive message bits, at any bit position. */
  lemma BurstDetected(seed: bv32, x: seq<bv8>, y: seq<bv8>, k: nat)
    requires DifferInBurst(x, y, k)
    ensures Crc32cOf(seed, x) != Crc32cOf(seed, y)
    ensures Crc32Of(x) != Crc32Of(y)
  {
    hide Register;
    BurstRegister(CRC32C_POLY, seed, x, y, k);
    BurstRegister(CRC32_POLY, !0, x, y, k);
    NotInjective(Register(CRC32_POLY, !0, x), Register(CRC32_POLY, !0, y));
  }

  lemma NotInjective(a: bv32, b: bv32)
    ensures !a == !b ==> a == b
  {
    assert !(!a) == a && !(!b) == b;
  }

  lemma FeedZero(p: bv32, b: bool)
    ensures Step(p, Xor(0, BitWord(b))) == if b then p else 0
  {
    if b {
      assert (1 as bv32) & 1 == 1 && ((1 as bv32) >> 1) ^ p == p;
    }
  }

  /** The bound of 32 is sharp and the exception is exactly one pattern: of two
      different 33-bit strings the register misses just those whose difference
      is the generator polynomial itself. */
  lemma BurstOf33(p: bv32, r: bv32, before: seq<bool>, u: seq<bool>, v: seq<bool>, after: seq<bool>)
    requires Top(p)
    requires |u| == |v| == 33 && u != v
    ensures Feed(p, r, before + u + after) == Feed(p, r, before + v + after)
       <==> u[0] != v[0] && Pack(XorBits(u, v)[1..]) == p
  {
    hide Step, Shift, Top, Xor, Feed, Pack;
    var s, d := Feed(p, r, before), XorBits(u, v);
    FeedAppend(p, r, before + u, after);
    FeedAppend(p, r, before + v, after);
    FeedAppend(p, r, before, u);
    FeedAppend(p, r, before, v);
    FeedXor(p, s, s, u, v);
    XorZero(s);
    XorCancel(Feed(p, s, u), Feed(p, s, v));
    if Feed(p, Feed(p, s, u), after) == Feed(p, Feed(p, s, v), after) {
      FeedInjective(p, Feed(p, s, u), Feed(p, s, v), after);
    }
    assert exists i :: 0 <= i < 33 && d[i] by {
      var i :| 0 <= i < 33 && u[i] != v[i];
      assert d[i];
    }
    Kernel33(p, d);
  }

  lemma Kernel33(p: bv32, d: seq<bool>)
    requires Top(p)
    requires |d| == 33 && exists i :: 0 <= i < 33 && d[i]
    ensures Feed(p, 0, d) == 0 <==> d[0] && Pack(d[1..]) == p
  {
    hide Step, Shift, Top, Xor, BitWord, Pack;
    var first: bv32 := if d[0] then p else 0;
    FeedZero(p, d[0]);
    FeedPacked(p, first, d[1..]);
    ShiftZero(p, 32);
    if Feed(p, 0, d) == 0 {
      ShiftInjective(p, Xor(first, Pack(d[1..])), 0, 32);
    }
    XorCancel(first, Pack(d[1..]));
    var zeros := seq(32, i => false);
    PackZeros(zeros);
    if !d[0] && Pack(d[1..]) == 0 {
      PackInjective(d[1..], zeros);
    }
  }

  lemma {:induction false} PackZeros(u: seq<bool>)
    requires forall i :: 0 <= i < |u| ==> !u[i]
    ensures Pack(u) == 0
  {
    if u != [] {
      PackZeros(u[1..]);
    }
  }

  // ---- streaming and linearity of the two checksums ----

  /** Main result: `crc32c` of a message is `crc32c` of its tail seeded with
      `crc32c` of its head, wherever it is cut. */
  lemma Streaming(seed: bv32, x: seq<bv8>, y: seq<bv8>)
    ensures Crc32cOf(seed, x + y) == Crc32cOf(Crc32cOf(seed, x), y)
  {
    hide Register;
    RegisterAppend(CRC32C_POLY, seed, x, y);
  }

  /** Main result: `crc32c` is linear over GF(2) in seed and message. */
  lemma Linearity(a: bv32, b: bv32, x: seq<bv8>, y: seq<bv8>)
    requires |x| == |y|
    ensures Crc32cOf(a ^ b, XorBytes(x, y)) == Crc32cOf(a, x) ^ Crc32cOf(b, y)
  {
    hide Register;
    RegisterLinear(CRC32C_POLY, a, b, x, y);
  }

  // ---- combining two checksums ----

  /** A seed adds its own shifts to what the message leaves. */
  lemma {:induction false} FeedSeed(p: bv32, a: bv32, b: bv32, x: seq<bool>)
    ensures Feed(p, Xor(a, b), x) == Xor(Shift(p, a, |x|), Feed(p, b, x))
    decreases |x|
  {
    hide Step, Xor, BitWord;
    if x != [] {
      var c := BitWord(x[0]);
      XorAssoc(a, b, c);
      StepXor(p, a, Xor(b, c));
      FeedSeed(p, Step(p, a), Step(p, Xor(b, c)), x[1..]);
    }
  }

  function Not(w: bv32): bv32 {
    !w
  }

  lemma NotIsXor(w: bv32)
    ensures Not(w) == Xor(w, 0xFFFF_FFFF)
  {
  }

  lemma NotXor(a: bv32, b: bv32)
    ensures Not(Xor(a, b)) == Xor(a, Not(b)) && Xor(Not(a), 0xFFFF_FFFF) == a
  {
    hide Not, Xor;
    NotIsXor(a);
    NotIsXor(b);
    NotIsXor(Xor(a, b));
    XorAssoc(a, b, 0xFFFF_FFFF);
    XorAssoc(a, 0xFFFF_FFFF, 0xFFFF_FFFF);
    XorZero(0xFFFF_FFFF);
    XorZero(a);
  }

  lemma NotOnes()
    ensures Not(0xFFFF_FFFF) == 0
  {
  }

  lemma Crc32IsNot(x: seq<bv8>)
    ensures Crc32Of(x) == Not(Register(CRC32_POLY, 0xFFFF_FFFF, x))
  {
    hide Register;
  }

  /** Main result: the `crc32` of a concatenation follows from those of its parts
      and the length of the second; the preset and the final complement cancel. */
  lemma CombineCrc32(x: seq<bv8>, y: seq<bv8>)
    ensures Crc32Of([]) == 0
    ensures Crc32Of(x + y) == Xor(Shift(CRC32_POLY, Crc32Of(x), 8 * |y|), Crc32Of(y))
  {
    hide Step, Shift, Xor, Feed, Bits, Not, Crc32Of, Register;
    var r := Register(CRC32_POLY, 0xFFFF_FFFF, x);
    Crc32IsNot([]);
    Crc32IsNot(x);
    Crc32IsNot(y);
    Crc32IsNot(x + y);
    NotOnes();
    RegisterNone(CRC32_POLY, 0xFFFF_FFFF, []);
    RegisterAppend(CRC32_POLY, 0xFFFF_FFFF, x, y);
    NotXor(r, 0);
    RegisterSeed(CRC32_POLY, Not(r), 0xFFFF_FFFF, y);
    NotXor(Shift(CRC32_POLY, Not(r), 8 * |y|), Register(CRC32_POLY, 0xFFFF_FFFF, y));
  }

  lemma RegisterSeed(p: bv32, a: bv32, b: bv32, x: seq<bv8>)
    ensures Register(p, Xor(a, b), x) == Xor(Shift(p, a, 8 * |x|), Register(p, b, x))
  {
    hide Shift, Xor, Feed, Bits;
    FeedSeed(p, a, b, Bits(x));
  }

  /** Main result: the same for `crc32c`, whose seed is shifted in unchanged. */
  lemma CombineCrc32c(seed: bv32, x: seq<bv8>, y: seq<bv8>)
    ensures Crc32cOf(seed, []) == seed
    ensures Crc32cOf(seed, x + y) == Xor(Shift(CRC32C_POLY, Crc32cOf(seed, x), 8 * |y|), Crc32cOf(0, y))
  {
    hide Step, Shift, Xor, Feed, Bits, Register;
    var r := Register(CRC32C_POLY, seed, x);
    RegisterNone(CRC32C_POLY, seed, []);
    RegisterAppend(CRC32C_POLY, seed, x, y);
    XorZero(r);
    RegisterSeed(CRC32C_POLY, r, 0, y);
  }

  // ---- check values ----

  /** The digits 1 to 9 in ASCII, the customary check message. */
  const DIGITS: seq<bv8> := [0x31, 0x32, 0x33, 0x34, 0x35, 0x36, 0x37, 0x38, 0x39]

  function EightSteps(p: bv32, r: bv32): bv32 {
    Step(p, Step(p, Step(p, Step(p, Step(p, Step(p, Step(p, Step(p, r))))))))
  }

  lemma ShiftEight(p: bv32, r: bv32)
    ensures Shift(p, r, 8) == EightSteps(p, r)
  {
    hide Step;
  }

  lemma NextByte(p: bv32, r: bv32, data: seq<bv8>, k: nat, r0: bv32)
    requires k < |data| && r0 == Register(p, r, data[..k])
    ensures Register(p, r, data[..k + 1]) == EightSteps(p, Xor(r0, Wide(data[k])))
  {
    hide Shift, Xor, Wide, Register, EightSteps;
    ShiftEight(p, Xor(r0, Wide(data[k])));
    RegisterNext(p, r, data, k);
    FeedByte(p, r0, data[k]);
  }

  lemma DigitsCrc32()
    ensures Register(CRC32_POLY, 0xFFFF_FFFF, DIGITS) == 0x340B_C6D9
  {
    hide Register, Shift;
    RegisterNone(CRC32_POLY, 0xFFFF_FFFF, DIGITS);
    NextByte(CRC32_POLY, 0xFFFF_FFFF, DIGITS, 0, 0xFFFF_FFFF);
    assert Register(CRC32_POLY, 0xFFFF_FFFF, DIGITS[..1]) == 0x7C23_1048;
    NextByte(CRC32_POLY, 0xFFFF_FFFF, DIGITS, 1, 0x7C23_1048);
    assert Register(CRC32_POLY, 0xFFFF_FFFF, DIGITS[..2]) == 0xB0AC_BB32;
    NextByte(CRC32_POLY, 0xFFFF_FFFF, DIGITS, 2, 0xB0AC_BB32);
    assert Register(CRC32_POLY, 0xFFFF_FFFF, DIGITS[..3]) == 0x77B7_9C2D;
    NextByte(CRC32_POLY, 0xFFFF_FFFF, DIGITS, 3, 0x77B7_9C2D);
    assert Register(CRC32_POLY, 0xFFFF_FFFF, DIGITS[..4]) == 0x641C_1F5C;
    NextByte(CRC32_POLY, 0xFFFF_FFFF, DIGITS, 4, 0x641C_1F5C);
    assert Register(CRC32_POLY, 0xFFFF_FFFF, DIGITS[..5]) == 0x340A_C5E3;
    NextByte(CRC32_POLY, 0xFFFF_FFFF, DIGITS, 5, 0x340A_C5E3);
    assert Register(CRC32_POLY, 0xFFFF_FFFF, DIGITS[..6]) == 0xF68D_2C9E;
    NextByte(CRC32_POLY, 0xFFFF_FFFF, DIGITS, 6, 0xF68D_2C9E);
    assert Register(CRC32_POLY, 0xFFFF_FFFF, DIGITS[..7]) == 0xAFFC_9660;
    NextByte(CRC32_POLY, 0xFFFF_FFFF, DIGITS, 7, 0xAFFC_9660);
    assert Register(CRC32_POLY, 0xFFFF_FFFF, DIGITS[..8]) == 0x651F_2550;
    NextByte(CRC32_POLY, 0xFFFF_FFFF, DIGITS, 8, 0x651F_2550);
    assert Register(CRC32_POLY, 0xFFFF_FFFF, DIGITS[..9]) == 0x340B_C6D9;
    assert DIGITS[..9] == DIGITS;
  }

  lemma DigitsCrc32c()
    ensures Register(CRC32C_POLY, 0xFFFF_FFFF, DIGITS) == 0x1CF9_6D7C
  {
    hide Register, Shift;
    RegisterNone(CRC32C_POLY, 0xFFFF_FFFF, DIGITS);
    NextByte(CRC32C_POLY, 0xFFFF_FFFF, DIGITS, 0, 0xFFFF_FFFF);
    assert Register(CRC32C_POLY, 0xFFFF_FFFF, DIGITS[..1]) == 0x6F0A_661C;
    NextByte(CRC32C_POLY, 0xFFFF_FFFF, DIGITS, 1, 0x6F0A_661C);
    assert Register(CRC32C_POLY, 0xFFFF_FFFF, DIGITS[..2]) == 0x8CAA_3B9F;
    NextByte(CRC32C_POLY, 0xFFFF_FFFF, DIGITS, 2, 0x8CAA_3B9F);
    assert Register(CRC32C_POLY, 0xFFFF_FFFF, DIGITS[..3]) == 0xEF84_D04D;
    NextByte(CRC32C_POLY, 0xFFFF_FFFF, DIGITS, 3, 0xEF84_D04D);
    assert Register(CRC32C_POLY, 0xFFFF_FFFF, DIGITS[..4]) == 0x09C5_0B11;
    NextByte(CRC32C_POLY, 0xFFFF_FFFF, DIGITS, 4, 0x09C5_0B11);
    assert Register(CRC32C_POLY, 0xFFFF_FFFF, DIGITS[..5]) == 0xE72E_DCCA;
    NextByte(CRC32C_POLY, 0xFFFF_FFFF, DIGITS, 5, 0xE72E_DCCA);
    assert Register(CRC32C_POLY, 0xFFFF_FFFF, DIGITS[..6]) == 0xBECA_8E79;
    NextByte(CRC32C_POLY, 0xFFFF_FFFF, DIGITS, 6, 0xBECA_8E79);
    assert Register(CRC32C_POLY, 0xFFFF_FFFF, DIGITS[..7]) == 0xEDBD_6815;
    NextByte(CRC32C_POLY, 0xFFFF_FFFF, DIGITS, 7, 0xEDBD_6815);
    assert Register(CRC32C_POLY, 0xFFFF_FFFF, DIGITS[..8]) == 0x9F78_7F65;
    NextByte(CRC32C_POLY, 0xFFFF_FFFF, DIGITS, 8, 0x9F78_7F65);
    assert Register(CRC32C_POLY, 0xFFFF_FFFF, DIGITS[..9]) == 0x1CF9_6D7C;
    assert DIGITS[..9] == DIGITS;
  }

  /** The check values of CRC-32 and, with its customary preset and complement,
      of CRC32C. */
  lemma CheckValues()
    ensures Crc32Of(DIGITS) == 0xCBF4_3926
    ensures Not(Crc32cOf(0xFFFF_FFFF, DIGITS)) == 0xE306_9283
  {
    hide Register;
    DigitsCrc32();
    DigitsCrc32c();
  }

  // ---- residue ----

  /** The four bytes of a word in little-endian order. */
  function LeBytes(w: bv32): seq<bv8> {
    [Byte0(w), Byte1(w), Byte2(w), Byte3(w)]
  }

  lemma FeedLeBytes(p: bv32, r: bv32, w: bv32)
    ensures Register(p, r, LeBytes(w)) == Shift(p, Xor(r, w), 32)
  {
    hide Shift, Xor, Register, Byte0, Byte1, Byte2, Byte3, Le32;
    WordOfBytes(w);
    FeedWord(p, r, Byte0(w), Byte1(w), Byte2(w), Byte3(w));
  }

  /** Main result: a message followed by its own `crc32c` has `crc32c` zero. */
  lemma ResidueCrc32c(seed: bv32, m: seq<bv8>)
    ensures Crc32cOf(seed, m + LeBytes(Crc32cOf(seed, m))) == 0
  {
    hide Shift, Xor, Register, LeBytes;
    var c := Crc32cOf(seed, m);
    RegisterAppend(CRC32C_POLY, seed, m, LeBytes(c));
    FeedLeBytes(CRC32C_POLY, c, c);
    XorZero(c);
    ShiftZero(CRC32C_POLY, 32);
  }

  lemma XorNot(a: bv32)
    ensures Xor(a, !a) == 0xFFFF_FFFF
  {
  }

  /** Thirty-two shifts of the all-ones register. */
  lemma ShiftOnes()
    ensures !Shift(CRC32_POLY, 0xFFFF_FFFF, 32) == 0x2144_DF1C
  {
    ShiftAdd(CRC32_POLY, 0xFFFF_FFFF, 8, 24);
    ShiftAdd(CRC32_POLY, Shift(CRC32_POLY, 0xFFFF_FFFF, 8), 8, 16);
    ShiftAdd(CRC32_POLY, Shift(CRC32_POLY, Shift(CRC32_POLY, 0xFFFF_FFFF, 8), 8), 8, 8);
  }

  /** Main result: a message followed by its own `crc32` has one fixed `crc32`. */
  lemma ResidueCrc32(m: seq<bv8>)
    ensures Crc32Of(m + LeBytes(Crc32Of(m))) == 0x2144_DF1C
  {
    hide Shift, Xor, Register, LeBytes;
    var r := Register(CRC32_POLY, !0, m);
    RegisterAppend(CRC32_POLY, !0, m, LeBytes(!r));
    FeedLeBytes(CRC32_POLY, r, !r);
    XorNot(r);
    ShiftOnes();
  }
}
