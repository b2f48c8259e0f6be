/** `crc32c_hw` of crc32.intel/cpu_fi.c: words first, then single bytes, through
    the processor's CRC32 instruction. */
module CrcHardware {
  import opened BitSerial
  import opened CrcWords
  import opened CrcTableMeaning
  import opened CrcSoftware

  function Xor64(a: bv64, b: bv64): bv64 {
    a ^ b
  }

  function Half64(w: bv64): bv64 {
    w >> 1
  }

  predicate Odd64(w: bv64) {
    w & 1 == 1
  }

  function Extend(r: bv32): bv64 {
    r as bv64
  }

  /** One step of dividing a whole word, lowest bit first. */
  function DivStep(x: bv64): bv64 {
    if Odd64(x) then Xor64(Half64(x), Extend(CRC32C_POLY)) else Half64(x)
  }

  function Divide(x: bv64, n: nat): bv64
    decreases n
  {
    if n == 0 then x else Divide(DivStep(x), n - 1)
  }

  /** The CRC32 instruction on an `n`-bit operand: the operand is added to the
      register and all its bits are divided out. */
  function Instruction(crc: bv32, operand: bv64, n: nat): bv32 {
    (Divide(Xor64(operand, Extend(crc)), n) & 0xFFFF_FFFF) as bv32
  }

  // ---- the instruction is bit-serial division ----

  /** The `n` low bits of a word, lowest first, and the word without them. */
  function WordBits(w: bv64, n: nat): (bits: seq<bool>)
    ensures |bits| == n
    decreases n
  {
    if n == 0 then [] else [Odd64(w)] + WordBits(Half64(w), n - 1)
  }

  function Rest(w: bv64, n: nat): bv64
    decreases n
  {
    if n == 0 then w else Rest(Half64(w), n - 1)
  }

  lemma OddSum(w: bv64, r: bv32)
    ensures Odd64(Xor64(w, Extend(r))) == (Odd64(w) != Odd(r))
  {
  }

  lemma HalfSum(w: bv64, r: bv32)
    ensures Half64(Xor64(w, Extend(r))) == Xor64(Half64(w), Extend(Half(r)))
  {
    assert (w ^ (r as bv64)) >> 1 == (w >> 1) ^ ((r >> 1) as bv64);
  }

  lemma AddPoly(w: bv64, a: bv32, b: bv32)
    ensures Xor64(Xor64(w, Extend(a)), Extend(b)) == Xor64(w, Extend(Xor(a, b)))
  {
    hide Xor, Xor64, Extend;
    ExtendXor(a, b);
    Xor64Assoc(w, Extend(a), Extend(b));
  }

  lemma ExtendXor(a: bv32, b: bv32)
    ensures Extend(Xor(a, b)) == Xor64(Extend(a), Extend(b))
  {
  }

  lemma Xor64Assoc(a: bv64, b: bv64, c: bv64)
    ensures Xor64(Xor64(a, b), c) == Xor64(a, Xor64(b, c))
  {
    hide Xor64;
    Xor64Left(a, b, c);
    Xor64Right(a, b, c);
  }

  lemma Xor64Left(a: bv64, b: bv64, c: bv64)
    ensures Xor64(Xor64(a, b), c) == (a ^ b) ^ c
  {
  }

  lemma Xor64Right(a: bv64, b: bv64, c: bv64)
    ensures Xor64(a, Xor64(b, c)) == (a ^ b) ^ c
  {
    RawXor64Assoc(a, b, c);
  }

  lemma RawXor64Assoc(a: bv64, b: bv64, c: bv64)
    ensures (a ^ b) ^ c == a ^ (b ^ c)
  {
  }

  lemma StepCases(p: bv32, r: bv32)
    ensures Step(p, r) == if Odd(r) then Xor(Half(r), p) else Half(r)
  {
  }

  lemma AddBit(r: bv32, s: bool)
    ensures Odd(Xor(r, BitWord(s))) == (Odd(r) != s)
    ensures Half(Xor(r, BitWord(s))) == Half(r)
  {
    hide Xor, Odd, Half;
    FlipLowBit(r);
    XorZero(r);
  }

  lemma FlipLowBit(r: bv32)
    ensures Odd(Xor(r, 1)) != Odd(r)
    ensures Half(Xor(r, 1)) == Half(r)
  {
    assert (r ^ 1) >> 1 == r >> 1;
  }

  /** A step of the division is a register step that takes in the next bit. */
  lemma DivStepFeed(w: bv64, r: bv32)
    ensures DivStep(Xor64(w, Extend(r)))
         == Xor64(Half64(w), Extend(Step(CRC32C_POLY, Xor(r, BitWord(Odd64(w))))))
  {
    hide Step, Xor, Xor64, Odd, Odd64, Half, Half64, Extend, BitWord;
    OddSum(w, r);
    HalfSum(w, r);
    AddPoly(Half64(w), Half(r), CRC32C_POLY);
    AddBit(r, Odd64(w));
    StepCases(CRC32C_POLY, Xor(r, BitWord(Odd64(w))));
  }

  lemma WordBitsFirst(w: bv64, n: nat)
    requires n > 0
    ensures WordBits(w, n)[0] == Odd64(w) && WordBits(w, n)[1..] == WordBits(Half64(w), n - 1)
  {
    hide Odd64, Half64;
  }

  lemma {:induction false} DivideFeeds(w: bv64, r: bv32, n: nat)
    ensures Divide(Xor64(w, Extend(r)), n) == Xor64(Rest(w, n), Extend(Feed(CRC32C_POLY, r, WordBits(w, n))))
    decreases n
  {
    hide Step, Xor, Xor64, Odd64, Half64, Extend, BitWord, DivStep, WordBits;
    if n > 0 {
      WordBitsFirst(w, n);
      DivStepFeed(w, r);
      DivideFeeds(Half64(w), Step(CRC32C_POLY, Xor(r, BitWord(Odd64(w)))), n - 1);
    }
  }

  lemma LowWord(r: bv32)
    ensures (Xor64(0, Extend(r)) & 0xFFFF_FFFF) as bv32 == r
  {
    assert ((0 ^ (r as bv64)) & 0xFFFF_FFFF) as bv32 == r;
  }

  // ---- a load of one to eight bytes ----

  function Append64(b: bv8, w: bv64): bv64 {
    (b as bv64) | (w << 8)
  }

  /** The value of a load of `|data|` bytes on the little-endian x86. */
  function Load(data: seq<bv8>): bv64 {
    if data == [] then 0 else Append64(data[0], Load(data[1..]))
  }

  /** `w` occupies at most the low seven bytes. */
  predicate TopByteClear(w: bv64) {
    w & 0xFF00_0000_0000_0000 == 0
  }

  lemma OddAppend(b: bv8, w: bv64)
    ensures Odd64(Append64(b, w)) == Bit(b, 0)
    ensures Odd64(Half64(Append64(b, w))) == Bit(b, 1)
    ensures Odd64(Half64(Half64(Append64(b, w)))) == Bit(b, 2)
    ensures Odd64(Half64(Half64(Half64(Append64(b, w))))) == Bit(b, 3)
    ensures Odd64(Half64(Half64(Half64(Half64(Append64(b, w)))))) == Bit(b, 4)
    ensures Odd64(Half64(Half64(Half64(Half64(Half64(Append64(b, w))))))) == Bit(b, 5)
    ensures Odd64(Half64(Half64(Half64(Half64(Half64(Half64(Append64(b, w)))))))) == Bit(b, 6)
    ensures Odd64(Half64(Half64(Half64(Half64(Half64(Half64(Half64(Append64(b, w))))))))) == Bit(b, 7)
  {
  }

  function NibbleOff(x: bv64): bv64 {
    x >> 4
  }

  lemma FourHalves(x: bv64)
    ensures Half64(Half64(Half64(Half64(x)))) == NibbleOff(x)
  {
  }

  lemma TwoNibbles(b: bv8, w: bv64)
    requires TopByteClear(w)
    ensures NibbleOff(NibbleOff(Append64(b, w))) == w
  {
    ByteShiftedOff(b, w);
  }

  lemma ByteShiftedOff(b: bv8, w: bv64)
    requires w & 0xFF00_0000_0000_0000 == 0
    ensures (((b as bv64) | (w << 8)) >> 4) >> 4 == w
  {
    assert (((b as bv64) | (w << 8)) >> 4) >> 4 == (w << 8) >> 8;
  }

  lemma DropAppended(b: bv8, w: bv64)
    requires TopByteClear(w)
    ensures Half64(Half64(Half64(Half64(Half64(Half64(Half64(Half64(Append64(b, w))))))))) == w
  {
    hide Half64, NibbleOff, Append64, TopByteClear;
    FourHalves(Append64(b, w));
    FourHalves(NibbleOff(Append64(b, w)));
    TwoNibbles(b, w);
  }

  lemma {:induction false} RestStep(x: bv64, k: nat)
    ensures Rest(x, k + 1) == Half64(Rest(x, k))
    decreases k
  {
    hide Half64;
    if k > 0 {
      RestStep(Half64(x), k - 1);
    }
  }

  lemma RestNone(x: bv64)
    ensures Rest(x, 0) == x
  {
  }

  lemma {:induction false} RestAdd(x: bv64, m: nat, n: nat)
    ensures Rest(Rest(x, m), n) == Rest(x, m + n)
    decreases m
  {
    hide Half64;
    if m > 0 {
      RestAdd(Half64(x), m - 1, n);
    }
  }

  lemma {:induction false} WordBitsAt(x: bv64, n: nat, k: nat)
    requires k < n
    ensures WordBits(x, n)[k] == Odd64(Rest(x, k))
    decreases n
  {
    hide Half64, Odd64;
    if k > 0 {
      WordBitsAt(Half64(x), n - 1, k - 1);
    }
  }

  lemma RestNested(x: bv64)
    ensures Rest(x, 0) == x
    ensures Rest(x, 1) == Half64(x)
    ensures Rest(x, 2) == Half64(Half64(x))
    ensures Rest(x, 3) == Half64(Half64(Half64(x)))
    ensures Rest(x, 4) == Half64(Half64(Half64(Half64(x))))
    ensures Rest(x, 5) == Half64(Half64(Half64(Half64(Half64(x)))))
    ensures Rest(x, 6) == Half64(Half64(Half64(Half64(Half64(Half64(x))))))
    ensures Rest(x, 7) == Half64(Half64(Half64(Half64(Half64(Half64(Half64(x)))))))
    ensures Rest(x, 8) == Half64(Half64(Half64(Half64(Half64(Half64(Half64(Half64(x))))))))
  {
    hide Half64, Rest;
    RestNone(x);
    RestStep(x, 0);
    RestStep(x, 1);
    RestStep(x, 2);
    RestStep(x, 3);
    RestStep(x, 4);
    RestStep(x, 5);
    RestStep(x, 6);
    RestStep(x, 7);
  }

  /** The low byte of a load comes out first, bit by bit. */
  lemma AppendedBit(b: bv8, w: bv64, k: nat)
    requires k < 8
    ensures Odd64(Rest(Append64(b, w), k)) == Bit(b, k)
  {
    hide Append64, Odd64, Half64, Bit, Rest;
    OddAppend(b, w);
    RestNested(Append64(b, w));
    match k
    case 0 => case 1 => case 2 => case 3 => case 4 => case 5 => case 6 => case 7 =>
  }

  lemma AppendedRest(b: bv8, w: bv64)
    requires TopByteClear(w)
    ensures Rest(Append64(b, w), 8) == w
  {
    hide Append64, Half64, TopByteClear, Rest;
    DropAppended(b, w);
    RestNested(Append64(b, w));
  }

  /** The low byte of a load comes out first and leaves the rest of the load. */
  lemma UnfoldAppend(b: bv8, w: bv64, n: nat)
    requires TopByteClear(w)
    ensures Rest(Append64(b, w), n + 8) == Rest(w, n)
    ensures WordBits(Append64(b, w), n + 8) == Bits([b]) + WordBits(w, n)
  {
    hide Append64, Odd64, Bit, TopByteClear, Rest, WordBits, Bits;
    var x := Append64(b, w);
    AppendedRest(b, w);
    RestAdd(x, 8, n);
    forall k | 0 <= k < n + 8 ensures WordBits(x, n + 8)[k] == (Bits([b]) + WordBits(w, n))[k] {
      WordBitsAt(x, n + 8, k);
      if k < 8 {
        AppendedBit(b, w, k);
        BitsAt([b], k);
      } else {
        RestAdd(x, 8, k - 8);
        WordBitsAt(w, n, k - 8);
      }
    }
  }

  /** All bits up to the end of byte `k`. */
  function Limit(k: nat): bv64 {
    if k == 0 then 0 else (Limit(k - 1) << 8) | 0xFF
  }

  predicate Within(w: bv64, limit: bv64) {
    w & !limit == 0
  }

  lemma AppendWithin(b: bv8, w: bv64, limit: bv64)
    requires Within(w, limit)
    ensures Within(Append64(b, w), (limit << 8) | 0xFF)
  {
    assert (b as bv64) & !0xFF == 0;
    assert (w << 8) & !(limit << 8) == (w & !limit) << 8;
  }

  lemma {:induction false} LoadWithin(data: seq<bv8>)
    ensures Within(Load(data), Limit(|data|))
    decreases |data|
  {
    hide Within, Append64;
    if data == [] {
      NothingWithin(Limit(0));
    } else {
      LoadWithin(data[1..]);
      AppendWithin(data[0], Load(data[1..]), Limit(|data| - 1));
    }
  }

  lemma NothingWithin(limit: bv64)
    ensures Within(0, limit)
  {
  }

  lemma LoadTopClear(data: seq<bv8>)
    requires |data| <= 7
    ensures TopByteClear(Load(data))
  {
    hide Load;
    LoadWithin(data);
    assert Limit(0) == 0 && Limit(1) == 0xFF && Limit(2) == 0xFFFF && Limit(3) == 0xFF_FFFF;
    assert Limit(4) == 0xFFFF_FFFF && Limit(5) == 0xFF_FFFF_FFFF;
    assert Limit(6) == 0xFFFF_FFFF_FFFF && Limit(7) == 0xFF_FFFF_FFFF_FFFF;
  }

  /** A load of at most eight bytes has exactly the bits of those bytes. */
  lemma {:induction false} LoadBits(data: seq<bv8>)
    requires |data| <= 8
    ensures WordBits(Load(data), 8 * |data|) == Bits(data)
    ensures Rest(Load(data), 8 * |data|) == 0
    decreases |data|
  {
    hide Append64, Odd64, Half64, Bit, TopByteClear;
    if data != [] {
      LoadBits(data[1..]);
      LoadTopClear(data[1..]);
      UnfoldAppend(data[0], Load(data[1..]), 8 * (|data| - 1));
      BitsAppend([data[0]], data[1..]);
      assert [data[0]] + data[1..] == data;
    }
  }

  /** The instruction on a loaded operand divides in all of its bytes. */
  lemma InstructionFeeds(crc: bv32, data: seq<bv8>)
    requires |data| <= 8
    ensures Instruction(crc, Load(data), 8 * |data|) == Crc32cOf(crc, data)
  {
    hide Load, Divide, Rest, Feed, Bits, Xor64, Extend, WordBits;
    DivideFeeds(Load(data), crc, 8 * |data|);
    LoadBits(data);
    LowWord(Crc32cOf(crc, data));
  }

  // ---- the routine ----

  /** `crc32c_hw`, with words of eight bytes (x86_64) or four bytes (i386). It
      computes the same function of seed and buffer as `crc32c`. */
  method Crc32cHw(seed: bv32, buf: seq<bv8>, len: nat, scale: nat) returns (crc: bv32)
    requires len <= |buf|
    requires scale == 8 || scale == 4
    ensures crc == Crc32cOf(seed, buf[..len])
  {
    hide Register, Instruction, Load;
    var nwords, nbytes := len / scale, len % scale;
    var p := 0;
    crc := seed;
    RegisterNone(CRC32C_POLY, seed, buf);
    while nwords > 0
      invariant 0 <= nwords && 0 <= nbytes
      invariant scale == 8 ==> p + 8 * nwords + nbytes == len
      invariant scale == 4 ==> p + 4 * nwords + nbytes == len
      invariant crc == Crc32cOf(seed, buf[..p])
    {
      nwords := nwords - 1;
      InstructionFeeds(crc, buf[p..p + scale]);
      RegisterAppend(CRC32C_POLY, seed, buf[..p], buf[p..p + scale]);
      assert buf[..p] + buf[p..p + scale] == buf[..p + scale];
      crc := Instruction(crc, Load(buf[p..p + scale]), 8 * scale);
      p := p + scale;
    }
    while nbytes > 0
      invariant 0 <= nbytes && p + nbytes == len
      invariant crc == Crc32cOf(seed, buf[..p])
    {
      nbytes := nbytes - 1;
      InstructionFeeds(crc, buf[p..p + 1]);
      RegisterNext(CRC32C_POLY, seed, buf, p);
      assert buf[p..p + 1] == [buf[p]];
      crc := Instruction(crc, Load(buf[p..p + 1]), 8);
      p := p + 1;
    }
  }
}
