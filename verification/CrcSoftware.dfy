/** The software CRC routines of crc32.intel/crc32.c against the bit-serial
    register. Buffers are byte strings; `addr` is the buffer's address. */
module CrcSoftware {
  import opened BitSerial
  import opened CrcWords
  import opened CrcTables
  import opened CrcTableMeaning

  const TWO_32 := 0x1_0000_0000

  /** `uint32_t` used as a length. */
  type U32 = x: int | 0 <= x < TWO_32

  /** `uint32_t` subtraction wraps. */
  function Sub32(a: U32, b: U32): U32 {
    (a - b) % TWO_32
  }

  /** The value of `crc32` on a byte string: register preset and complemented. */
  function Crc32Of(data: seq<bv8>): bv32 {
    !Register(CRC32_POLY, !0, data)
  }

  /** The value of `crc32c` on a byte string: no preset and no complement. */
  function Crc32cOf(seed: bv32, data: seq<bv8>): bv32 {
    Register(CRC32C_POLY, seed, data)
  }

  // ---- one byte at a time ----

  function HighBytes(w: bv32): bv32 {
    w >> 8
  }

  lemma SplitLowByte(w: bv32)
    ensures w == Xor(Wide(Byte0(w)), w & 0xFFFF_FF00)
    ensures (w & 0xFFFF_FF00) & 0xFF == 0
    ensures (w & 0xFFFF_FF00) >> 8 == HighBytes(w)
  {
    WideByteOf(w);
    assert w == (w & 0xFF) ^ (w & 0xFFFF_FF00);
    assert (w & 0xFFFF_FF00) >> 8 == w >> 8;
  }

  /** Eight shifts of a word are eight shifts of its low byte added to the rest. */
  lemma ShiftLowByte(p: bv32, w: bv32)
    ensures Shift(p, w, 8) == Xor(Shift(p, Wide(Byte0(w)), 8), HighBytes(w))
  {
    hide Step, Shift, Xor, Wide, Byte0, HighBytes;
    SplitLowByte(w);
    ShiftOut8(p, w & 0xFFFF_FF00);
    ShiftXor(p, Wide(Byte0(w)), w & 0xFFFF_FF00, 8);
  }

  lemma HighBytesXor(r: bv32, b: bv8)
    ensures HighBytes(Xor(r, Wide(b))) == HighBytes(r)
  {
    assert (r ^ (b as bv32)) >> 8 == r >> 8;
  }

  /** The table loop body performs one byte of polynomial division. */
  lemma TableStep(p: bv32, r: bv32, b: bv8, entry: bv32)
    requires entry == Shift(p, Wide(Byte0(Xor(r, Wide(b)))), 8)
    ensures Xor(entry, HighBytes(r)) == Register(p, r, [b])
  {
    hide Step, Shift, Xor, Wide, Byte0, HighBytes, Register;
    FeedByte(p, r, b);
    ShiftLowByte(p, Xor(r, Wide(b)));
    HighBytesXor(r, b);
  }

  lemma RegisterNext(p: bv32, r: bv32, data: seq<bv8>, k: nat)
    requires k < |data|
    ensures Register(p, r, data[..k + 1]) == Register(p, Register(p, r, data[..k]), [data[k]])
  {
    hide Register;
    RegisterAppend(p, r, data[..k], [data[k]]);
    assert data[..k] + [data[k]] == data[..k + 1];
  }

  lemma RegisterNone(p: bv32, r: bv32, data: seq<bv8>)
    ensures Register(p, r, data[..0]) == r
  {
  }

  /** `crc32`: the CRC of section 8 of RFC 1952, with both complements. */
  method Crc32(buf: seq<bv8>, size: nat) returns (result: bv32)
    requires size <= |buf|
    ensures result == Crc32Of(buf[..size])
  {
    hide Step, Shift, Xor, Wide, Byte0, HighBytes, Register, Crc32Table;
    var p, left := 0, size;
    var crc: bv32 := !0;
    RegisterNone(CRC32_POLY, !0, buf);
    while left > 0
      invariant p + left == size
      invariant crc == Register(CRC32_POLY, !0, buf[..p])
    {
      left := left - 1;
      var index := Byte0(Xor(crc, Wide(buf[p])));
      Crc32TableEntry(index);
      TableStep(CRC32_POLY, crc, buf[p], Crc32Table(index));
      RegisterNext(CRC32_POLY, !0, buf, p);
      crc := Xor(Crc32Table(index), HighBytes(crc));
      p := p + 1;
    }
    result := !crc;
  }

  method SingletableCrc32c(seed: bv32, buf: seq<bv8>, size: nat) returns (crc: bv32)
    requires size <= |buf|
    ensures crc == Crc32cOf(seed, buf[..size])
  {
    hide Step, Shift, Xor, Wide, Byte0, HighBytes, Register, Crc32cTable;
    var p, left := 0, size;
    crc := seed;
    RegisterNone(CRC32C_POLY, seed, buf);
    while left > 0
      invariant p + left == size
      invariant crc == Register(CRC32C_POLY, seed, buf[..p])
    {
      left := left - 1;
      var index := Byte0(Xor(crc, Wide(buf[p])));
      Crc32cTableEntry(index);
      TableStep(CRC32C_POLY, crc, buf[p], Crc32cTable(index));
      RegisterNext(CRC32C_POLY, seed, buf, p);
      crc := Xor(Crc32cTable(index), HighBytes(crc));
      p := p + 1;
    }
  }

  // ---- eight bytes at a time ----

  /** Slice `k` of the tables shifts its index by `k + 1` bytes. */
  lemma SliceEntries(b: bv8)
    ensures O32(b) == Shift(CRC32C_POLY, Wide(b), 8)
    ensures O40(b) == Shift(CRC32C_POLY, Wide(b), 16)
    ensures O48(b) == Shift(CRC32C_POLY, Wide(b), 24)
    ensures O56(b) == Shift(CRC32C_POLY, Wide(b), 32)
    ensures O64(b) == Shift(CRC32C_POLY, Wide(b), 40)
    ensures O72(b) == Shift(CRC32C_POLY, Wide(b), 48)
    ensures O80(b) == Shift(CRC32C_POLY, Wide(b), 56)
    ensures O88(b) == Shift(CRC32C_POLY, Wide(b), 64)
  {
    hide Step, Shift, Wide, O32, O40, O48, O56, O64, O72, O80, O88;
    O32Entry(b);
    O40Next(b);
    O48Next(b);
    O56Next(b);
    O64Next(b);
    O72Next(b);
    O80Next(b);
    O88Next(b);
    ShiftAdd(CRC32C_POLY, Wide(b), 8, 8);
    ShiftAdd(CRC32C_POLY, Wide(b), 16, 8);
    ShiftAdd(CRC32C_POLY, Wide(b), 24, 8);
    ShiftAdd(CRC32C_POLY, Wide(b), 32, 8);
    ShiftAdd(CRC32C_POLY, Wide(b), 40, 8);
    ShiftAdd(CRC32C_POLY, Wide(b), 48, 8);
    ShiftAdd(CRC32C_POLY, Wide(b), 56, 8);
  }

  /** Each slice table is the previous one pushed through the one-byte table. */
  lemma SliceRecurrence(b: bv8)
    ensures O40(b) == Xor(O32(Byte0(O32(b))), HighBytes(O32(b)))
    ensures O48(b) == Xor(O32(Byte0(O40(b))), HighBytes(O40(b)))
    ensures O56(b) == Xor(O32(Byte0(O48(b))), HighBytes(O48(b)))
    ensures O64(b) == Xor(O32(Byte0(O56(b))), HighBytes(O56(b)))
    ensures O72(b) == Xor(O32(Byte0(O64(b))), HighBytes(O64(b)))
    ensures O80(b) == Xor(O32(Byte0(O72(b))), HighBytes(O72(b)))
    ensures O88(b) == Xor(O32(Byte0(O80(b))), HighBytes(O80(b)))
  {
    hide Step, Shift, Wide, Xor, Byte0, HighBytes, O32, O40, O48, O56, O64, O72, O80, O88;
    O40Next(b);
    PushByte(O32(b));
    O48Next(b);
    PushByte(O40(b));
    O56Next(b);
    PushByte(O48(b));
    O64Next(b);
    PushByte(O56(b));
    O72Next(b);
    PushByte(O64(b));
    O80Next(b);
    PushByte(O72(b));
    O88Next(b);
    PushByte(O80(b));
  }

  lemma PushByte(w: bv32)
    ensures Shift(CRC32C_POLY, w, 8) == Xor(O32(Byte0(w)), HighBytes(w))
  {
    hide Step, Shift, Wide, Xor, Byte0, HighBytes, O32;
    ShiftLowByte(CRC32C_POLY, w);
    O32Entry(Byte0(w));
  }

  function HighHalf(w: bv32): bv32 {
    w >> 16
  }

  lemma HighHalfBytes(w: bv32)
    ensures Byte0(HighHalf(w)) == Byte2(w) && Byte1(HighHalf(w)) == Byte3(w)
  {
    assert (w >> 16) & 0xFF == (w >> 16) & 0xFF;
    assert ((w >> 16) >> 8) & 0xFF == (w >> 24) & 0xFF;
  }

  /** The four tables of the first word shift it by eight bytes. */
  lemma FirstSlices(x: bv32)
    ensures Xor(Xor(Xor(O88(Byte0(x)), O80(Byte1(x))), O72(Byte0(HighHalf(x)))), O64(Byte1(HighHalf(x))))
         == Shift(CRC32C_POLY, x, 64)
  {
    hide Step, Shift, Wide, Xor, Le32, HighHalf, Byte0, Byte1, Byte2, Byte3, O32, O40, O48, O56, O64, O72, O80, O88;
    HighHalfBytes(x);
    WordOfBytes(x);
    SliceEntries(Byte0(x));
    SliceEntries(Byte1(x));
    SliceEntries(Byte2(x));
    SliceEntries(Byte3(x));
    ShiftLe32(CRC32C_POLY, Byte0(x), Byte1(x), Byte2(x), Byte3(x), 32);
  }

  /** The four tables of the second word shift it by four bytes; this is the
      big-endian branch, which looks its bytes up one by one. */
  lemma SecondSlicesBig(r: bv32, b0: bv8, b1: bv8, b2: bv8, b3: bv8)
    ensures Xor(Xor(Xor(Xor(r, O56(b0)), O48(b1)), O40(b2)), O32(b3))
         == Xor(r, Shift(CRC32C_POLY, Le32(b0, b1, b2, b3), 32))
  {
    hide Step, Shift, Wide, Xor, Le32, O32, O40, O48, O56, O64, O72, O80, O88;
    SliceEntries(b0);
    SliceEntries(b1);
    SliceEntries(b2);
    SliceEntries(b3);
    ShiftLe32(CRC32C_POLY, b0, b1, b2, b3, 0);
    XorFour(r, O56(b0), O48(b1), O40(b2), O32(b3));
  }

  /** The same with the little-endian branch's order of additions. */
  lemma SecondSlicesLittle(r: bv32, y: bv32)
    ensures Xor(Xor(Xor(r, Xor(O56(Byte0(y)), O48(Byte1(y)))), O40(Byte0(HighHalf(y)))), O32(Byte1(HighHalf(y))))
         == Xor(r, Shift(CRC32C_POLY, y, 32))
  {
    hide Shift, Xor, Le32, HighHalf, Byte0, Byte1, Byte2, Byte3, O32, O40, O48, O56;
    HighHalfBytes(y);
    WordOfBytes(y);
    SecondSlicesBig(r, Byte0(y), Byte1(y), Byte2(y), Byte3(y));
    XorAssoc(r, O56(Byte0(y)), O48(Byte1(y)));
  }

  /** Eight bytes enter the register as two little-endian words. */
  lemma FeedTwoWords(p: bv32, r: bv32, d: seq<bv8>)
    requires |d| == 8
    ensures Register(p, r, d)
         == Xor(Shift(p, Xor(r, Le32(d[0], d[1], d[2], d[3])), 64), Shift(p, Le32(d[4], d[5], d[6], d[7]), 32))
  {
    hide Step, Shift, Xor, Register, Le32;
    assert d == [d[0], d[1], d[2], d[3]] + [d[4], d[5], d[6], d[7]];
    RegisterAppend(p, r, [d[0], d[1], d[2], d[3]], [d[4], d[5], d[6], d[7]]);
    var x, y := Xor(r, Le32(d[0], d[1], d[2], d[3])), Le32(d[4], d[5], d[6], d[7]);
    FeedWord(p, r, d[0], d[1], d[2], d[3]);
    FeedWord(p, Shift(p, x, 32), d[4], d[5], d[6], d[7]);
    ShiftXor(p, Shift(p, x, 32), y, 32);
    ShiftAdd(p, x, 32, 32);
  }

  lemma XorFour(r: bv32, a: bv32, b: bv32, c: bv32, d: bv32)
    ensures Xor(Xor(Xor(Xor(r, a), b), c), d) == Xor(r, Xor(Xor(Xor(a, b), c), d))
  {
    hide Xor;
    XorAssoc(r, a, b);
    XorAssoc(r, Xor(a, b), c);
    XorAssoc(r, Xor(Xor(a, b), c), d);
  }

  function Up8(b: bv8): bv32 {
    Wide(b) << 8
  }

  function Up16(b: bv8): bv32 {
    Wide(b) << 16
  }

  function Up24(b: bv8): bv32 {
    Wide(b) << 24
  }

  /** The big-endian branch assembles the first word byte by byte. */
  lemma LoadBig(r: bv32, b0: bv8, b1: bv8, b2: bv8, b3: bv8)
    ensures Xor(Xor(Xor(Xor(r, Wide(b0)), Up8(b1)), Up16(b2)), Up24(b3))
         == Xor(r, Le32(b0, b1, b2, b3))
  {
    hide Wide, Xor, Le32;
    WordIsSum(b0, b1, b2, b3);
    XorFour(r, Wide(b0), Wide(b1) << 8, Wide(b2) << 16, Wide(b3) << 24);
  }

  /** The 32-bit load of the little-endian branch. */
  function Load32(buf: seq<bv8>, p: nat): bv32
    requires p + 4 <= |buf|
  {
    Le32(buf[p], buf[p + 1], buf[p + 2], buf[p + 3])
  }

  lemma TwoLoads(r: bv32, buf: seq<bv8>, p: nat)
    requires p + 8 <= |buf|
    ensures Register(CRC32C_POLY, r, buf[p..p + 8])
         == Xor(Shift(CRC32C_POLY, Xor(r, Load32(buf, p)), 64), Shift(CRC32C_POLY, Load32(buf, p + 4), 32))
  {
    hide Shift, Xor, Le32, Register;
    FeedTwoWords(CRC32C_POLY, r, buf[p..p + 8]);
  }

  /** One round of the slicing loop, on a machine of either byte order. */
  method SliceRound(seed: bv32, buf: seq<bv8>, start: nat, bigEndian: bool) returns (crc: bv32)
    requires start + 8 <= |buf|
    ensures crc == Register(CRC32C_POLY, seed, buf[start..start + 8])
  {
    hide Shift, Wide, Up8, Up16, Up24, Xor, Le32, Byte0, Byte1, HighHalf, Register, O32, O40, O48, O56, O64, O72, O80, O88;
    var p := start;
    crc := seed;
    if bigEndian {
      LoadBig(crc, buf[p], buf[p + 1], buf[p + 2], buf[p + 3]);
      crc := Xor(crc, Wide(buf[p]));
      crc := Xor(crc, Up8(buf[p + 1]));
      crc := Xor(crc, Up16(buf[p + 2]));
      crc := Xor(crc, Up24(buf[p + 3]));
    } else {
      crc := Xor(crc, Load32(buf, p));
    }
    p := p + 4;
    FirstSlices(crc);
    var term1 := Xor(O88(Byte0(crc)), O80(Byte1(crc)));
    var term2 := HighHalf(crc);
    crc := Xor(Xor(term1, O72(Byte0(term2))), O64(Byte1(term2)));
    if bigEndian {
      SecondSlicesBig(crc, buf[p], buf[p + 1], buf[p + 2], buf[p + 3]);
      crc := Xor(crc, O56(buf[p]));
      crc := Xor(crc, O48(buf[p + 1]));
      crc := Xor(crc, O40(buf[p + 2]));
      crc := Xor(crc, O32(buf[p + 3]));
    } else {
      SecondSlicesLittle(crc, Load32(buf, p));
      term1 := Xor(O56(Byte0(Load32(buf, p))), O48(Byte1(Load32(buf, p))));
      term2 := HighHalf(Load32(buf, p));
      crc := Xor(Xor(Xor(crc, term1), O40(Byte0(term2))), O32(Byte1(term2)));
    }
    TwoLoads(seed, buf, start);
  }

  lemma RegisterNext8(p: bv32, r: bv32, data: seq<bv8>, k: nat)
    requires k + 8 <= |data|
    ensures Register(p, r, data[..k + 8]) == Register(p, Register(p, r, data[..k]), data[k..k + 8])
  {
    hide Register;
    RegisterAppend(p, r, data[..k], data[k..k + 8]);
    assert data[..k] + data[k..k + 8] == data[..k + 8];
  }

  /** One byte through `sctp_crc_tableil8_o32`: the prologue and tail loops. */
  method O32Loop(seed: bv32, buf: seq<bv8>, start: nat, n: nat, ghost first: bv32) returns (crc: bv32, p: nat)
    requires start + n <= |buf|
    requires seed == Register(CRC32C_POLY, first, buf[..start])
    ensures p == start + n
    ensures crc == Register(CRC32C_POLY, first, buf[..p])
  {
    hide Step, Shift, Xor, Wide, Byte0, HighBytes, Register, O32;
    p := start;
    crc := seed;
    var li := 0;
    while li < n
      invariant li <= n && p == start + li
      invariant crc == Register(CRC32C_POLY, first, buf[..p])
    {
      var index := Byte0(Xor(crc, Wide(buf[p])));
      O32Entry(index);
      TableStep(CRC32C_POLY, crc, buf[p], O32(index));
      RegisterNext(CRC32C_POLY, first, buf, p);
      crc := Xor(O32(index), HighBytes(crc));
      p := p + 1;
      li := li + 1;
    }
  }

  /** `crc32c_sb8_64_bit`. It reads `buf[..length]` once, in order, because the
      caller's guard keeps `initBytes <= length`. */
  method Crc32cSb8(seed: bv32, buf: seq<bv8>, length: U32, initBytes: U32, bigEndian: bool) returns (crc: bv32)
    requires initBytes <= length <= |buf|
    ensures crc == Crc32cOf(seed, buf[..length])
  {
    hide Register;
    var runningLength: U32 := (Sub32(length, initBytes) / 8) * 8;
    var endBytes := Sub32(Sub32(length, initBytes), runningLength);
    assert initBytes + runningLength + endBytes == length;
    var p: nat;
    RegisterNone(CRC32C_POLY, seed, buf);
    crc, p := O32Loop(seed, buf, 0, initBytes, seed);
    var li := 0;
    while li < runningLength / 8
      invariant li <= runningLength / 8
      invariant p == initBytes + 8 * li
      invariant crc == Register(CRC32C_POLY, seed, buf[..p])
    {
      RegisterNext8(CRC32C_POLY, seed, buf, p);
      crc := SliceRound(crc, buf, p, bigEndian);
      p := p + 8;
      li := li + 1;
    }
    crc, p := O32Loop(crc, buf, p, endBytes, seed);
  }

  method MultitableCrc32c(seed: bv32, buf: seq<bv8>, addr: nat, length: U32, bigEndian: bool) returns (crc: bv32)
    requires length <= |buf|
    requires length == 0 || 4 - addr % 4 <= length
    ensures crc == Crc32cOf(seed, buf[..length])
  {
    if length == 0 {
      RegisterNone(CRC32C_POLY, seed, buf);
      return seed;
    }
    var toEvenWord: U32 := 4 - addr % 4;
    crc := Crc32cSb8(seed, buf, length, toEvenWord, bigEndian);
  }

  /** `crc32c`: for every seed, buffer, address and byte order, the value of the
      bit-serial CRC32C register. */
  method Crc32c(seed: bv32, buf: seq<bv8>, addr: nat, length: U32, bigEndian: bool) returns (crc: bv32)
    requires length <= |buf|
    ensures crc == Crc32cOf(seed, buf[..length])
  {
    if length < 4 {
      crc := SingletableCrc32c(seed, buf, length);
    } else {
      crc := MultitableCrc32c(seed, buf, addr, length, bigEndian);
    }
  }
}
