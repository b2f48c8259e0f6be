/** The bit-serial CRC register: the reference that every CRC routine of the
    repository is measured against, and what follows from the linearity over
    GF(2) and the invertibility of one shift/xor operation.

    `Xor` and `Step` are named so that proofs can hide them: the solver then
    sees an algebra instead of 32 individual bits. */
module BitSerial {

  function Xor(a: bv32, b: bv32): bv32 {
    a ^ b
  }

  /** One shift/xor operation of a right-shifting register with feedback `p`. */
  function Step(p: bv32, r: bv32): bv32 {
    if r & 1 == 1 then (r >> 1) ^ p else r >> 1
  }

  /** `n` shift/xor operations with no input. */
  function Shift(p: bv32, r: bv32, n: nat): bv32
    decreases n
  {
    if n == 0 then r else Shift(p, Step(p, r), n - 1)
  }

  function BitWord(bit: bool): bv32 {
    if bit then 1 else 0
  }

  /** Bit-serial polynomial division: each message bit enters the low end. */
  function Feed(p: bv32, r: bv32, bits: seq<bool>): bv32
    decreases |bits|
  {
    if bits == [] then r else Feed(p, Step(p, Xor(r, BitWord(bits[0]))), bits[1..])
  }

  /** Bit `k` of a byte; bit 0 is the first one a UART sends. */
  function Bit(b: bv8, k: nat): bool
    requires k < 8
  {
    (b >> k) & 1 == 1
  }

  /** The bits of a byte string, least significant bit of each byte first. */
  function Bits(data: seq<bv8>): (bits: seq<bool>)
    ensures |bits| == 8 * |data|
  {
    if data == [] then []
    else [Bit(data[0], 0), Bit(data[0], 1), Bit(data[0], 2), Bit(data[0], 3),
          Bit(data[0], 4), Bit(data[0], 5), Bit(data[0], 6), Bit(data[0], 7)] + Bits(data[1..])
  }

  /** The register after all bytes of `data`. */
  function Register(p: bv32, r: bv32, data: seq<bv8>): bv32 {
    Feed(p, r, Bits(data))
  }

  // ---- the algebra of Xor ----

  lemma XorAssoc(a: bv32, b: bv32, c: bv32)
    ensures Xor(Xor(a, b), c) == Xor(a, Xor(b, c))
  {
  }

  lemma XorComm(a: bv32, b: bv32)
    ensures Xor(a, b) == Xor(b, a)
  {
  }

  lemma XorSwap(a: bv32, b: bv32, c: bv32, d: bv32)
    ensures Xor(Xor(a, b), Xor(c, d)) == Xor(Xor(a, c), Xor(b, d))
  {
    hide Xor;
    XorAssoc(a, b, Xor(c, d));
    XorAssoc(b, c, d);
    XorComm(b, c);
    XorAssoc(c, b, d);
    XorAssoc(a, c, Xor(b, d));
  }

  lemma XorZero(a: bv32)
    ensures Xor(a, 0) == a && Xor(0, a) == a && Xor(a, a) == 0
  {
  }

  lemma XorCancel(a: bv32, b: bv32)
    ensures Xor(a, b) == 0 <==> a == b
  {
    if a ^ b == 0 {
      assert a == (a ^ b) ^ b;
    }
  }

  // ---- linearity ----

  lemma StepXorEvenEven(p: bv32, a: bv32, b: bv32)
    requires a & 1 == 0 && b & 1 == 0
    ensures Step(p, a ^ b) == Step(p, a) ^ Step(p, b)
  {
  }

  lemma StepXorOddEven(p: bv32, a: bv32, b: bv32)
    requires a & 1 == 1 && b & 1 == 0
    ensures Step(p, a ^ b) == Step(p, a) ^ Step(p, b)
  {
  }

  lemma StepXorOddOdd(p: bv32, a: bv32, b: bv32)
    requires a & 1 == 1 && b & 1 == 1
    ensures Step(p, a ^ b) == Step(p, a) ^ Step(p, b)
  {
  }

  lemma Parity(a: bv32)
    ensures a & 1 == 0 || a & 1 == 1
  {
  }

  /** One shift/xor operation is linear. */
  lemma StepXor(p: bv32, a: bv32, b: bv32)
    ensures Step(p, Xor(a, b)) == Xor(Step(p, a), Step(p, b))
  {
    hide Step;
    Parity(a);
    Parity(b);
    if a & 1 == 0 && b & 1 == 0 {
      StepXorEvenEven(p, a, b);
    } else if a & 1 == 1 && b & 1 == 0 {
      StepXorOddEven(p, a, b);
    } else if a & 1 == 1 {
      StepXorOddOdd(p, a, b);
    } else {
      StepXorOddEven(p, b, a);
      XorComm(a, b);
      XorComm(Step(p, a), Step(p, b));
    }
  }

  lemma {:induction false} ShiftXor(p: bv32, a: bv32, b: bv32, n: nat)
    ensures Shift(p, Xor(a, b), n) == Xor(Shift(p, a, n), Shift(p, b, n))
    decreases n
  {
    hide Step, Xor;
    if n > 0 {
      StepXor(p, a, b);
      ShiftXor(p, Step(p, a), Step(p, b), n - 1);
    }
  }

  lemma {:induction false} ShiftAdd(p: bv32, r: bv32, m: nat, n: nat)
    ensures Shift(p, Shift(p, r, m), n) == Shift(p, r, m + n)
    decreases m
  {
    hide Step;
    if m > 0 {
      ShiftAdd(p, Step(p, r), m - 1, n);
    }
  }

  function XorBits(x: seq<bool>, y: seq<bool>): (z: seq<bool>)
    requires |x| == |y|
    ensures |z| == |x|
  {
    seq(|x|, i requires 0 <= i < |x| => x[i] != y[i])
  }

  function XorBytes(x: seq<bv8>, y: seq<bv8>): (z: seq<bv8>)
    requires |x| == |y|
    ensures |z| == |x|
  {
    seq(|x|, i requires 0 <= i < |x| => x[i] ^ y[i])
  }

  lemma BitWordXor(s: bool, t: bool)
    ensures BitWord(s != t) == Xor(BitWord(s), BitWord(t))
  {
  }

  lemma {:induction false} FeedXor(p: bv32, a: bv32, b: bv32, x: seq<bool>, y: seq<bool>)
    requires |x| == |y|
    ensures Feed(p, Xor(a, b), XorBits(x, y)) == Xor(Feed(p, a, x), Feed(p, b, y))
    decreases |x|
  {
    hide Step, Xor, BitWord;
    if x != [] {
      var s, t := Xor(a, BitWord(x[0])), Xor(b, BitWord(y[0]));
      BitWordXor(x[0], y[0]);
      XorSwap(a, b, BitWord(x[0]), BitWord(y[0]));
      StepXor(p, s, t);
      FeedXor(p, Step(p, s), Step(p, t), x[1..], y[1..]);
      assert XorBits(x, y)[1..] == XorBits(x[1..], y[1..]);
    }
  }

  lemma BitXor(a: bv8, b: bv8, k: nat)
    requires k < 8
    ensures Bit(a ^ b, k) == (Bit(a, k) != Bit(b, k))
  {
    LowBitXor(a >> k, b >> k);
    match k
    case 0 => case 1 => case 2 => case 3 => case 4 => case 5 => case 6 => case 7 =>
  }

  lemma LowBitXor(a: bv8, b: bv8)
    ensures ((a ^ b) & 1 == 1) == ((a & 1 == 1) != (b & 1 == 1))
  {
  }

  /** Bit `i` of a byte string is bit `i % 8` of byte `i / 8`. */
  lemma {:induction false} BitsAt(data: seq<bv8>, i: nat)
    requires i < 8 * |data|
    ensures Bits(data)[i] == Bit(data[i / 8], i % 8)
    decreases |data|
  {
    hide Bit;
    if i >= 8 {
      BitsAt(data[1..], i - 8);
      assert data[1..][(i - 8) / 8] == data[i / 8];
    }
  }

  lemma BitsXor(x: seq<bv8>, y: seq<bv8>)
    requires |x| == |y|
    ensures Bits(XorBytes(x, y)) == XorBits(Bits(x), Bits(y))
  {
    hide Bit;
    var z := XorBytes(x, y);
    forall i | 0 <= i < 8 * |x| ensures Bits(z)[i] == XorBits(Bits(x), Bits(y))[i] {
      BitsAt(x, i);
      BitsAt(y, i);
      BitsAt(z, i);
      BitXor(x[i / 8], y[i / 8], i % 8);
    }
  }

  /** The register is a GF(2)-linear function of seed and message. */
  lemma RegisterLinear(p: bv32, a: bv32, b: bv32, x: seq<bv8>, y: seq<bv8>)
    requires |x| == |y|
    ensures Register(p, a ^ b, XorBytes(x, y)) == Register(p, a, x) ^ Register(p, b, y)
  {
    hide Feed, Bits, XorBytes;
    BitsXor(x, y);
    FeedXor(p, a, b, Bits(x), Bits(y));
  }

  // ---- streaming ----

  lemma {:induction false} FeedAppend(p: bv32, r: bv32, x: seq<bool>, y: seq<bool>)
    ensures Feed(p, r, x + y) == Feed(p, Feed(p, r, x), y)
    decreases |x|
  {
    hide Step, Xor, BitWord;
    if x == [] {
      assert x + y == y;
    } else {
      assert (x + y)[1..] == x[1..] + y;
      FeedAppend(p, Step(p, Xor(r, BitWord(x[0]))), x[1..], y);
    }
  }

  lemma {:induction false} BitsAppend(x: seq<bv8>, y: seq<bv8>)
    ensures Bits(x + y) == Bits(x) + Bits(y)
  {
    hide Bit;
    if x == [] {
      assert x + y == y;
    } else {
      assert (x + y)[1..] == x[1..] + y;
      BitsAppend(x[1..], y);
    }
  }

  /** A message may be cut anywhere and its pieces processed in turn. */
  lemma RegisterAppend(p: bv32, r: bv32, x: seq<bv8>, y: seq<bv8>)
    ensures Register(p, r, x + y) == Register(p, Register(p, r, x), y)
  {
    hide Feed, Bits;
    BitsAppend(x, y);
    FeedAppend(p, r, Bits(x), Bits(y));
  }
}
