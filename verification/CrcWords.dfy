/** Message bits packed into words, words loaded from bytes, and feeding the
    register a whole byte or word at once. */
module CrcWords {
  import opened BitSerial

  // ---- up to 32 message bits enter the register at once ----

  /** The word whose bit `i` is `u[i]`. */
  function Pack(u: seq<bool>): bv32 {
    if u == [] then 0 else Xor(BitWord(u[0]), Double(Pack(u[1..])))
  }

  function Double(w: bv32): bv32 {
    w << 1
  }

  function Half(w: bv32): bv32 {
    w >> 1
  }

  predicate Odd(w: bv32) {
    w & 1 == 1
  }

  predicate Top(w: bv32) {
    w & 0x8000_0000 != 0
  }

  /** `w` without its `n` low bits. */
  function Drop(w: bv32, n: nat): bv32
    decreases n
  {
    if n == 0 then w else Drop(Half(w), n - 1)
  }

  lemma {:induction false} DropZero(n: nat)
    ensures Drop(0, n) == 0
  {
    if n > 0 {
      DropZero(n - 1);
    }
  }

  lemma {:induction false} DropMore(w: bv32, m: nat, n: nat)
    requires m <= n && Drop(w, m) == 0
    ensures Drop(w, n) == 0
    decreases m
  {
    if m == 0 {
      DropZero(n);
    } else {
      DropMore(Half(w), m - 1, n - 1);
    }
  }

  lemma Halves(w: bv32)
    ensures Half(w) == w >> 1 && Half(w >> 1) == w >> 2 && Half(w >> 2) == w >> 3 && Half(w >> 3) == w >> 4
    ensures Half(w >> 4) == w >> 5 && Half(w >> 5) == w >> 6 && Half(w >> 6) == w >> 7 && Half(w >> 7) == w >> 8
  {
  }

  function LowByteOff(w: bv32): bv32 {
    w >> 8
  }

  lemma Drop8(w: bv32, n: nat)
    ensures Drop(w, n + 8) == Drop(LowByteOff(w), n)
    ensures Drop(w, 7) == w >> 7
  {
    Halves(w);
    var w1, w2, w3, w4, w5, w6, w7 := w >> 1, w >> 2, w >> 3, w >> 4, w >> 5, w >> 6, w >> 7;
    assert Drop(w, n + 8) == Drop(w1, n + 7) == Drop(w2, n + 6) == Drop(w3, n + 5) == Drop(w4, n + 4)
        == Drop(w5, n + 3) == Drop(w6, n + 2) == Drop(w7, n + 1) == Drop(w >> 8, n) by { hide Half; }
    assert Drop(w, 7) == w7 by { hide Half; }
  }

  lemma TopClear(w: bv32)
    requires Drop(w, 31) == 0
    ensures !Top(w)
  {
    hide Drop, Half, Top, LowByteOff;
    var top := LowByteOff(LowByteOff(LowByteOff(w)));
    Drop8(w, 23);
    Drop8(LowByteOff(w), 15);
    Drop8(LowByteOff(LowByteOff(w)), 7);
    Drop8(top, 0);
    TopBit(w, top);
  }

  lemma TopBit(w: bv32, top: bv32)
    requires top == LowByteOff(LowByteOff(LowByteOff(w)))
    ensures Top(w) <==> top >> 7 != 0
  {
    assert (((w >> 8) >> 8) >> 8) >> 7 == w >> 31;
    assert w & 0x8000_0000 != 0 <==> w >> 31 != 0;
  }

  lemma HalfOfDouble(s: bool, w: bv32)
    requires !Top(w)
    ensures Half(Xor(BitWord(s), Double(w))) == w
  {
  }

  /** A packed string of `n` bits occupies only the `n` low bits. */
  lemma {:induction false} PackFits(u: seq<bool>, n: nat)
    requires |u| <= n <= 32
    ensures Drop(Pack(u), n) == 0
    decreases |u|
  {
    hide BitWord, Double, Xor, Half, Odd, Top;
    if u == [] {
      DropZero(n);
    } else {
      PackFits(u[1..], n - 1);
      DropMore(Pack(u[1..]), n - 1, 31);
      TopClear(Pack(u[1..]));
      HalfOfDouble(u[0], Pack(u[1..]));
    }
  }

  lemma PackTopClear(u: seq<bool>)
    requires |u| <= 31
    ensures !Top(Pack(u))
  {
    PackFits(u, 31);
    TopClear(Pack(u));
  }

  lemma EvenStep(p: bv32, w: bv32)
    requires !Odd(w)
    ensures Step(p, w) == Half(w)
  {
    Parity(w);
  }

  lemma DoubleEven(w: bv32)
    requires !Top(w)
    ensures !Odd(Double(w)) && Half(Double(w)) == w
  {
  }

  lemma StepDouble(p: bv32, w: bv32)
    requires !Top(w)
    ensures Step(p, Double(w)) == w
  {
    hide Step, Double, Half, Odd, Top;
    DoubleEven(w);
    EvenStep(p, Double(w));
  }

  /** Feeding at most 32 bits one at a time is adding them all at once and
      then shifting. */
  lemma {:induction false} FeedPacked(p: bv32, r: bv32, u: seq<bool>)
    requires |u| <= 32
    ensures Feed(p, r, u) == Shift(p, Xor(r, Pack(u)), |u|)
    decreases |u|
  {
    hide Step, Xor, BitWord, Double, Top;
    if u == [] {
      XorZero(r);
    } else {
      var b, w := BitWord(u[0]), Pack(u[1..]);
      var s := Xor(r, b);
      PackTopClear(u[1..]);
      XorAssoc(r, b, Double(w));
      StepXor(p, s, Double(w));
      StepDouble(p, w);
      FeedPacked(p, Step(p, s), u[1..]);
    }
  }

  lemma LowBitOfPack(s: bool, w: bv32)
    ensures Odd(Xor(BitWord(s), Double(w))) == s
  {
  }

  lemma {:induction false} PackInjective(u: seq<bool>, v: seq<bool>)
    requires |u| == |v| <= 32 && Pack(u) == Pack(v)
    ensures u == v
    decreases |u|
  {
    hide BitWord, Double, Xor, Half, Odd, Top;
    if u != [] {
      LowBitOfPack(u[0], Pack(u[1..]));
      LowBitOfPack(v[0], Pack(v[1..]));
      PackTopClear(u[1..]);
      PackTopClear(v[1..]);
      HalfOfDouble(u[0], Pack(u[1..]));
      HalfOfDouble(v[0], Pack(v[1..]));
      PackInjective(u[1..], v[1..]);
    }
  }

  // ---- bytes and little-endian words ----

  function Wide(b: bv8): bv32 {
    b as bv32
  }

  /** The value of a 32-bit load from four bytes on a little-endian machine. */
  function Le32(b0: bv8, b1: bv8, b2: bv8, b3: bv8): bv32 {
    Or(Or(Or(Wide(b0), Wide(b1) << 8), Wide(b2) << 16), Wide(b3) << 24)
  }

  function Or(a: bv32, b: bv32): bv32 {
    a | b
  }

  lemma PackByte(b: bv8)
    ensures Pack(Bits([b])) == Wide(b)
  {
    var u := Bits([b]);
    assert u == [Bit(b, 0), Bit(b, 1), Bit(b, 2), Bit(b, 3), Bit(b, 4), Bit(b, 5), Bit(b, 6), Bit(b, 7)];
    PackEight(u);
    ByteOfBits(b);
  }

  lemma PackEight(u: seq<bool>)
    requires |u| == 8
    ensures Pack(u) == Eight(u[0], u[1], u[2], u[3], u[4], u[5], u[6], u[7])
  {
    hide Xor, Double, BitWord;
    assert Pack(u[8..]) == 0;
    assert Pack(u[7..]) == Xor(BitWord(u[7]), Double(0)) by { assert u[7..][1..] == u[8..]; }
    assert Pack(u[6..]) == Xor(BitWord(u[6]), Double(Pack(u[7..]))) by { assert u[6..][1..] == u[7..]; }
    assert Pack(u[5..]) == Xor(BitWord(u[5]), Double(Pack(u[6..]))) by { assert u[5..][1..] == u[6..]; }
    assert Pack(u[4..]) == Xor(BitWord(u[4]), Double(Pack(u[5..]))) by { assert u[4..][1..] == u[5..]; }
    assert Pack(u[3..]) == Xor(BitWord(u[3]), Double(Pack(u[4..]))) by { assert u[3..][1..] == u[4..]; }
    assert Pack(u[2..]) == Xor(BitWord(u[2]), Double(Pack(u[3..]))) by { assert u[2..][1..] == u[3..]; }
    assert Pack(u[1..]) == Xor(BitWord(u[1]), Double(Pack(u[2..]))) by { assert u[1..][1..] == u[2..]; }
  }

  function Eight(s0: bool, s1: bool, s2: bool, s3: bool, s4: bool, s5: bool, s6: bool, s7: bool): bv32 {
    Xor(BitWord(s0), Double(Xor(BitWord(s1), Double(Xor(BitWord(s2), Double(Xor(BitWord(s3), Double(
    Xor(BitWord(s4), Double(Xor(BitWord(s5), Double(Xor(BitWord(s6), Double(Xor(BitWord(s7), Double(0)))))))))))))))) 
  }

  lemma ByteOfBits(b: bv8)
    ensures Eight(Bit(b, 0), Bit(b, 1), Bit(b, 2), Bit(b, 3), Bit(b, 4), Bit(b, 5), Bit(b, 6), Bit(b, 7)) == Wide(b)
  {
  }

  lemma FeedByte(p: bv32, r: bv32, b: bv8)
    ensures Register(p, r, [b]) == Shift(p, Xor(r, Wide(b)), 8)
  {
    hide Shift, Xor, Bits, Feed, Wide;
    FeedPacked(p, r, Bits([b]));
    PackByte(b);
  }

  lemma ShiftEven(p: bv32, w: bv32, n: nat)
    requires n > 0 && !Odd(w)
    ensures Shift(p, w, n) == Shift(p, Half(w), n - 1)
  {
    hide Step, Half, Odd;
    EvenStep(p, w);
  }

  lemma LowByteClear(w: bv32)
    requires w & 0xFF == 0
    ensures !Odd(w) && !Odd(w >> 1) && !Odd(w >> 2) && !Odd(w >> 3)
    ensures !Odd(w >> 4) && !Odd(w >> 5) && !Odd(w >> 6) && !Odd(w >> 7)
  {
    assert w & 1 == 0 && (w >> 1) & 1 == 0 && (w >> 2) & 1 == 0 && (w >> 3) & 1 == 0;
    assert (w >> 4) & 1 == 0 && (w >> 5) & 1 == 0 && (w >> 6) & 1 == 0 && (w >> 7) & 1 == 0;
  }

  /** Eight empty low bits are shifted out without feedback. */
  lemma ShiftOut8(p: bv32, w: bv32)
    requires w & 0xFF == 0
    ensures Shift(p, w, 8) == w >> 8
  {
    LowByteClear(w);
    Halves(w);
    ShiftOut8Halves(p, w, w >> 1, w >> 2, w >> 3, w >> 4, w >> 5, w >> 6, w >> 7, w >> 8);
  }

  lemma ShiftOut8Halves(p: bv32, w: bv32, w1: bv32, w2: bv32, w3: bv32, w4: bv32, w5: bv32, w6: bv32, w7: bv32, w8: bv32)
    requires !Odd(w) && !Odd(w1) && !Odd(w2) && !Odd(w3) && !Odd(w4) && !Odd(w5) && !Odd(w6) && !Odd(w7)
    requires w1 == Half(w) && w2 == Half(w1) && w3 == Half(w2) && w4 == Half(w3)
    requires w5 == Half(w4) && w6 == Half(w5) && w7 == Half(w6) && w8 == Half(w7)
    ensures Shift(p, w, 8) == w8
  {
    hide Shift, Half, Odd;
    ShiftEven(p, w, 8);
    ShiftEven(p, w1, 7);
    ShiftEven(p, w2, 6);
    ShiftEven(p, w3, 5);
    ShiftEven(p, w4, 4);
    ShiftEven(p, w5, 3);
    ShiftEven(p, w6, 2);
    ShiftEven(p, w7, 1);
    ShiftNone(p, w8);
  }

  lemma ShiftNone(p: bv32, w: bv32)
    ensures Shift(p, w, 0) == w
  {
  }

  lemma ShiftOut(p: bv32, b: bv8, n: nat)
    ensures Shift(p, Wide(b) << 8, n + 8) == Shift(p, Wide(b), n)
    ensures Shift(p, Wide(b) << 16, n + 16) == Shift(p, Wide(b), n)
    ensures Shift(p, Wide(b) << 24, n + 24) == Shift(p, Wide(b), n)
  {
    hide Step, Shift;
    var w := Wide(b);
    ShiftOut8(p, w << 8);
    ShiftOut8(p, w << 16);
    ShiftOut8(p, w << 24);
    assert (w << 8) >> 8 == w && (w << 16) >> 8 == w << 8 && (w << 24) >> 8 == w << 16;
    ShiftAdd(p, w << 8, 8, n);
    ShiftAdd(p, w << 16, 8, n + 8);
    ShiftAdd(p, w << 24, 8, n + 16);
  }

  lemma WordIsSum(b0: bv8, b1: bv8, b2: bv8, b3: bv8)
    ensures Le32(b0, b1, b2, b3)
         == Xor(Xor(Xor(Wide(b0), Wide(b1) << 8), Wide(b2) << 16), Wide(b3) << 24)
  {
    hide Xor, Or, Wide, Disjoint;
    var w0, w1, w2, w3 := Wide(b0), Wide(b1) << 8, Wide(b2) << 16, Wide(b3) << 24;
    BytesDisjoint(b0, b1, b2, b3);
    OrIsXor(w0, w1);
    OrIsXor(Or(w0, w1), w2);
    OrIsXor(Or(Or(w0, w1), w2), w3);
  }

  lemma BytesDisjoint(b0: bv8, b1: bv8, b2: bv8, b3: bv8)
    ensures Disjoint(Wide(b0), Wide(b1) << 8)
    ensures Disjoint(Or(Wide(b0), Wide(b1) << 8), Wide(b2) << 16)
    ensures Disjoint(Or(Or(Wide(b0), Wide(b1) << 8), Wide(b2) << 16), Wide(b3) << 24)
  {
  }

  predicate Disjoint(a: bv32, b: bv32) {
    a & b == 0
  }

  lemma OrXorBits(a: bv32, b: bv32)
    requires a & b == 0
    ensures a | b == a ^ b
  {
  }

  lemma OrIsXor(a: bv32, b: bv32)
    requires Disjoint(a, b)
    ensures Or(a, b) == Xor(a, b)
  {
    OrXorBits(a, b);
  }

  /** A byte may be added `k` bytes late if it is also added `k` bytes lower. */
  lemma AddLate(p: bv32, s: bv32, w: bv32, late: bv32, n: nat)
    requires Shift(p, w, n) == late
    ensures Shift(p, Xor(Shift(p, s, n), late), 8) == Shift(p, Xor(s, w), n + 8)
  {
    hide Step, Shift, Xor;
    ShiftXor(p, s, w, n);
    ShiftAdd(p, Xor(s, w), n, 8);
  }

  /** Four bytes enter the register as one little-endian word. */
  lemma FeedWord(p: bv32, r: bv32, b0: bv8, b1: bv8, b2: bv8, b3: bv8)
    ensures Register(p, r, [b0, b1, b2, b3]) == Shift(p, Xor(r, Le32(b0, b1, b2, b3)), 32)
  {
    hide Step, Shift, Xor, Wide, Le32, Register;
    var s0 := Xor(r, Wide(b0));
    var s1 := Xor(s0, Wide(b1) << 8);
    var s2 := Xor(s1, Wide(b2) << 16);
    var s3 := Xor(s2, Wide(b3) << 24);
    Register4(p, r, b0, b1, b2, b3);
    FeedByte(p, r, b0);
    FeedByte(p, Shift(p, s0, 8), b1);
    FeedByte(p, Shift(p, s1, 16), b2);
    FeedByte(p, Shift(p, s2, 24), b3);
    ShiftOut(p, b1, 0);
    ShiftOut(p, b2, 0);
    ShiftOut(p, b3, 0);
    ShiftNone(p, Wide(b1));
    ShiftNone(p, Wide(b2));
    ShiftNone(p, Wide(b3));
    AddLate(p, s0, Wide(b1) << 8, Wide(b1), 8);
    AddLate(p, s1, Wide(b2) << 16, Wide(b2), 16);
    AddLate(p, s2, Wide(b3) << 24, Wide(b3), 24);
    WordIsSum(b0, b1, b2, b3);
    XorAssoc(r, Wide(b0), Wide(b1) << 8);
    XorAssoc(r, Xor(Wide(b0), Wide(b1) << 8), Wide(b2) << 16);
    XorAssoc(r, Xor(Xor(Wide(b0), Wide(b1) << 8), Wide(b2) << 16), Wide(b3) << 24);
  }

  lemma Register4(p: bv32, r: bv32, b0: bv8, b1: bv8, b2: bv8, b3: bv8)
    ensures Register(p, r, [b0, b1, b2, b3])
         == Register(p, Register(p, Register(p, Register(p, r, [b0]), [b1]), [b2]), [b3])
  {
    hide Register;
    RegisterAppend(p, r, [b0], [b1]);
    RegisterAppend(p, r, [b0, b1], [b2]);
    RegisterAppend(p, r, [b0, b1, b2], [b3]);
    assert [b0] + [b1] == [b0, b1];
    assert [b0, b1] + [b2] == [b0, b1, b2];
    assert [b0, b1, b2] + [b3] == [b0, b1, b2, b3];
  }

  function Byte0(w: bv32): bv8 { (w & 0xFF) as bv8 }
  function Byte1(w: bv32): bv8 { ((w >> 8) & 0xFF) as bv8 }
  function Byte2(w: bv32): bv8 { ((w >> 16) & 0xFF) as bv8 }
  function Byte3(w: bv32): bv8 { ((w >> 24) & 0xFF) as bv8 }

  lemma WideByteOf(w: bv32)
    ensures Wide(Byte0(w)) == w & 0xFF
    ensures Wide(Byte1(w)) == (w >> 8) & 0xFF
    ensures Wide(Byte2(w)) == (w >> 16) & 0xFF
    ensures Wide(Byte3(w)) == (w >> 24) & 0xFF
  {
    assert ((w & 0xFF) as bv8) as bv32 == w & 0xFF;
    assert (((w >> 8) & 0xFF) as bv8) as bv32 == (w >> 8) & 0xFF;
    assert (((w >> 16) & 0xFF) as bv8) as bv32 == (w >> 16) & 0xFF;
    assert (((w >> 24) & 0xFF) as bv8) as bv32 == (w >> 24) & 0xFF;
  }

  lemma WordOfBytes(w: bv32)
    ensures Le32(Byte0(w), Byte1(w), Byte2(w), Byte3(w)) == w
  {
    hide Wide, Byte0, Byte1, Byte2, Byte3;
    WideByteOf(w);
    assert (w & 0xFF) | (((w >> 8) & 0xFF) << 8) | (((w >> 16) & 0xFF) << 16) | (((w >> 24) & 0xFF) << 24) == w;
  }

  /** Shifting a word is shifting its four bytes separately. */
  lemma ShiftLe32(p: bv32, b0: bv8, b1: bv8, b2: bv8, b3: bv8, n: nat)
    ensures Shift(p, Le32(b0, b1, b2, b3), n + 32)
         == Xor(Xor(Xor(Shift(p, Wide(b0), n + 32), Shift(p, Wide(b1), n + 24)),
                    Shift(p, Wide(b2), n + 16)),
                Shift(p, Wide(b3), n + 8))
  {
    hide Step, Shift, Xor, Wide, Le32;
    WordIsSum(b0, b1, b2, b3);
    ShiftOut(p, b1, n + 24);
    ShiftOut(p, b2, n + 16);
    ShiftOut(p, b3, n + 8);
    ShiftXor(p, Wide(b0), Wide(b1) << 8, n + 32);
    ShiftXor(p, Xor(Wide(b0), Wide(b1) << 8), Wide(b2) << 16, n + 32);
    ShiftXor(p, Xor(Xor(Wide(b0), Wide(b1) << 8), Wide(b2) << 16), Wide(b3) << 24, n + 32);
  }
}
