/** The base64 codec of base64/b64.c, and the encoding of section 4 of RFC 4648
    that it is measured against. */
module Base64 {
  const PAD: bv8 := 61

  /** Error numbers of the decoder. */
  datatype Error = EMSGSIZE | EINVAL
  datatype Result<T> = Ok(value: T) | Err(error: Error)

  function Byte(i: nat): bv8
    requires i < 256
  {
    i as bv8
  }

  function Index(v: bv8): (i: nat)
    ensures i < 256
  {
    v as int
  }

  lemma ByteOfIndex(v: bv8)
    ensures Byte(Index(v)) == v
  {
  }

  lemma IndexOfNext(v: bv8)
    requires Index(v) < 255
    ensures Index(v + 1) == Index(v) + 1
  {
  }

  lemma {:induction false} IndexOfByte(i: nat)
    requires i < 256
    ensures Index(Byte(i)) == i
  {
    hide Byte, Index;
    if i == 0 {
      NulIndex();
      ByteOfIndex(0);
    } else {
      IndexOfByte(i - 1);
      IndexOfNext(Byte(i - 1));
      ByteOfIndex(Byte(i - 1) + 1);
    }
  }

  lemma NulIndex()
    ensures Index(0) == 0
  {
  }

  lemma SextetIndex(v: bv8)
    requires v < 64
    ensures Index(v) < 64
  {
  }

  // ---- the alphabet ----

  /** The code of the alphabet's character for value `i`: A-Z, a-z, 0-9, +, /. */
  function CodeOf(i: nat): (c: nat)
    requires i < 64
    ensures c < 128
  {
    if i < 26 then 65 + i else if i < 52 then 97 + (i - 26) else if i < 62 then 48 + (i - 52)
    else if i == 62 then 43 else 47
  }

  /** The decoding table: the value of a character of the alphabet, 0 for the
      pad and for code 255, 0x80 for everything else. */
  function ValueOf(c: nat): (i: nat)
    requires c < 256
    ensures i < 64 || i == 128
  {
    if 65 <= c <= 90 then c - 65
    else if 97 <= c <= 122 then 26 + (c - 97)
    else if 48 <= c <= 57 then 52 + (c - 48)
    else if c == 43 then 62
    else if c == 47 then 63
    else if c == 61 || c == 255 then 0
    else 128
  }

  function EncodeSextet(v: bv8): bv8
    requires v < 64
  {
    SextetIndex(v);
    Byte(CodeOf(Index(v)))
  }

  function DecodeChar(c: bv8): bv8 {
    Byte(ValueOf(Index(c)))
  }

  predicate Invalid(c: bv8) {
    DecodeChar(c) & 0x80 != 0
  }

  predicate InAlphabet(c: bv8) {
    ValueOf(Index(c)) < 64 && c != PAD && c != 255
  }

  lemma PadIndex()
    ensures Index(PAD) == 61 && Index(255) == 255 && Byte(61) == PAD && Byte(255) == 255
  {
  }

  lemma ByteSmall(i: nat)
    requires i < 256
    ensures Byte(i) < 64 <==> i < 64
    ensures Byte(i) & 0x80 != 0 <==> i >= 128
  {
  }

  lemma InvalidMeans(c: bv8)
    ensures Invalid(c) <==> ValueOf(Index(c)) == 128
    ensures !Invalid(c) <==> DecodeChar(c) < 64
  {
    hide Byte, Index;
    ByteSmall(ValueOf(Index(c)));
  }

  /** The decoder accepts the alphabet, the pad and code 255. */
  lemma AcceptedCharacters(c: bv8)
    ensures !Invalid(c) <==> InAlphabet(c) || c == PAD || c == 255
  {
    hide Byte, Index;
    InvalidMeans(c);
    PadIndex();
  }

  lemma DecodeEncodeSextet(v: bv8)
    requires v < 64
    ensures DecodeChar(EncodeSextet(v)) == v
    ensures InAlphabet(EncodeSextet(v)) && !Invalid(EncodeSextet(v))
  {
    hide Byte, Index;
    SextetIndex(v);
    IndexOfByte(CodeOf(Index(v)));
    ByteOfIndex(v);
    PadIndex();
    InvalidMeans(EncodeSextet(v));
  }

  lemma EncodeDecodeChar(c: bv8)
    requires InAlphabet(c)
    ensures DecodeChar(c) < 64 && EncodeSextet(DecodeChar(c)) == c
  {
    hide Byte, Index;
    InvalidMeans(c);
    IndexOfByte(ValueOf(Index(c)));
    PadIndex();
    ByteOfIndex(c);
  }

  /** The alphabet of section 4 of RFC 4648, in the order of the values. */
  const UPPER := "ABCDEFGHIJKLMNOPQRSTUVWXYZ"
  const LOWER := "abcdefghijklmnopqrstuvwxyz"
  const OTHERS := "0123456789+/"
  const ALPHABET := UPPER + LOWER + OTHERS

  lemma UpperAt(i: nat)
    requires i < 26
    ensures UPPER[i] as int == 65 + i
  {
  }

  lemma LowerAt(i: nat)
    requires i < 26
    ensures LOWER[i] as int == 97 + i
  {
  }

  lemma OtherAt(i: nat)
    requires i < 12
    ensures OTHERS[i] as int == CodeOf(52 + i)
  {
  }

  lemma AlphabetAt(i: nat)
    requires i < 64
    ensures |UPPER| == |LOWER| == 26 && |OTHERS| == 12 && |ALPHABET| == 64
    ensures ALPHABET[i] == if i < 26 then UPPER[i] else if i < 52 then LOWER[i - 26] else OTHERS[i - 52]
  {
    var (u, l, o) := (UPPER, LOWER, OTHERS);
    assert |u| == |l| == 26 && |o| == 12;
    assert ALPHABET == u + l + o;
  }

  /** The character for value `i` is character `i` of the alphabet, and the value
      of a character is its place there. */
  lemma CodesAreAlphabet(i: nat)
    requires i < 64
    ensures |ALPHABET| == 64 && CodeOf(i) == ALPHABET[i] as int && ValueOf(CodeOf(i)) == i
    ensures PAD == '=' as bv8
  {
    hide UPPER, LOWER, OTHERS, ALPHABET;
    AlphabetAt(i);
    if i < 26 {
      UpperAt(i);
    } else if i < 52 {
      LowerAt(i - 26);
    } else {
      OtherAt(i - 52);
    }
  }

  /** Character `c` stands for digit `v`. */
  predicate Spells(c: bv8, v: bv8) {
    v < 64 && Index(v) < |ALPHABET| && Index(c) == ALPHABET[Index(v)] as int
  }

  lemma SextetSpelled(v: bv8)
    requires v < 64
    ensures Spells(EncodeSextet(v), v) && DecodeChar(EncodeSextet(v)) == v
  {
    hide Byte, Index, ALPHABET;
    SextetIndex(v);
    CodesAreAlphabet(Index(v));
    IndexOfByte(CodeOf(Index(v)));
    DecodeEncodeSextet(v);
  }

  // ---- groups ----

  /** The four sextets of three bytes. */
  function Sextet0(a: bv8): bv8 { a >> 2 }
  function Sextet1(a: bv8, b: bv8): bv8 { ((a & 3) << 4) | (b >> 4) }
  function Sextet2(b: bv8, c: bv8): bv8 { ((b & 0xF) << 2) | (c >> 6) }
  function Sextet3(c: bv8): bv8 { c & 0x3F }

  /** The three bytes of four sextets; high bits that do not fit are lost. */
  function Octet0(u: bv8, v: bv8): bv8 { (u << 2) | (v >> 4) }
  function Octet1(v: bv8, w: bv8): bv8 { (v << 4) | (w >> 2) }
  function Octet2(w: bv8, x: bv8): bv8 { (w << 6) | x }

  lemma SextetsSmall(a: bv8, b: bv8, c: bv8)
    ensures Sextet0(a) < 64 && Sextet1(a, b) < 64 && Sextet2(b, c) < 64 && Sextet3(c) < 64
  {
  }

  lemma OctetsOfSextets(a: bv8, b: bv8, c: bv8)
    ensures Octet0(Sextet0(a), Sextet1(a, b)) == a
    ensures Octet1(Sextet1(a, b), Sextet2(b, c)) == b
    ensures Octet2(Sextet2(b, c), Sextet3(c)) == c
  {
    assert ((a >> 2) << 2) | ((((a & 3) << 4) | (b >> 4)) >> 4) == a;
    assert ((((a & 3) << 4) | (b >> 4)) << 4) | ((((b & 0xF) << 2) | (c >> 6)) >> 2) == b;
    assert ((((b & 0xF) << 2) | (c >> 6)) << 6) | (c & 0x3F) == c;
  }

  lemma SextetsOfOctets(u: bv8, v: bv8, w: bv8, x: bv8)
    requires u < 64 && v < 64 && w < 64 && x < 64
    ensures Sextet0(Octet0(u, v)) == u
    ensures Sextet1(Octet0(u, v), Octet1(v, w)) == v
    ensures Sextet2(Octet1(v, w), Octet2(w, x)) == w
    ensures Sextet3(Octet2(w, x)) == x
    ensures v & 0xF == 0 ==> Sextet1(Octet0(u, v), 0) == v
    ensures w & 3 == 0 ==> Sextet2(Octet1(v, w), 0) == w
  {
  }

  /** Three bytes, first one highest, as a number of 24 bits. */
  function ByteGroup(a: bv8, b: bv8, c: bv8): bv24 {
    ((a as bv24) << 16) | ((b as bv24) << 8) | (c as bv24)
  }

  /** Four digits of 6 bits, first one highest. */
  function SextetGroup(u: bv8, v: bv8, w: bv8, x: bv8): bv24 {
    ((u as bv24) << 18) | ((v as bv24) << 12) | ((w as bv24) << 6) | (x as bv24)
  }

  /** The two sides of a group are one 24-bit number. */
  lemma SameGroup(a: bv8, b: bv8, c: bv8, u: bv8, v: bv8, w: bv8, x: bv8)
    ensures ByteGroup(a, b, c) == SextetGroup(Sextet0(a), Sextet1(a, b), Sextet2(b, c), Sextet3(c))
    ensures u < 64 && v < 64 && w < 64 && x < 64 ==>
      ByteGroup(Octet0(u, v), Octet1(v, w), Octet2(w, x)) == SextetGroup(u, v, w, x)
  {
  }

  /** One output group of the encoder for 1, 2 or 3 input bytes. */
  function EncodeGroup(g: seq<bv8>): (q: seq<bv8>)
    requires 1 <= |g| <= 3
    ensures |q| == 4
  {
    var (a, b, c) := (g[0], if |g| > 1 then g[1] else 0, if |g| > 2 then g[2] else 0);
    SextetsSmall(a, b, c);
    [EncodeSextet(Sextet0(a)), EncodeSextet(Sextet1(a, b)),
     if |g| < 2 then PAD else EncodeSextet(Sextet2(b, c)),
     if |g| < 3 then PAD else EncodeSextet(Sextet3(c))]
  }

  /** Main result: an output group spells, in the alphabet, the four digits of its
      input bytes read as one number, missing bytes being 0; characters without
      input bits are pads. */
  lemma GroupSpelled(g: seq<bv8>) returns (u: bv8, v: bv8, w: bv8, x: bv8)
    requires 1 <= |g| <= 3
    ensures SextetGroup(u, v, w, x) == ByteGroup(g[0], if |g| > 1 then g[1] else 0, if |g| > 2 then g[2] else 0)
    ensures Spells(EncodeGroup(g)[0], u) && Spells(EncodeGroup(g)[1], v)
    ensures if |g| > 1 then Spells(EncodeGroup(g)[2], w) else EncodeGroup(g)[2] == PAD
    ensures if |g| > 2 then Spells(EncodeGroup(g)[3], x) else EncodeGroup(g)[3] == PAD
  {
    hide Byte, Index, Spells, EncodeSextet, DecodeChar, Sextet0, Sextet1, Sextet2, Sextet3, SextetGroup, ByteGroup;
    var (a, b, c) := (g[0], if |g| > 1 then g[1] else 0, if |g| > 2 then g[2] else 0);
    SextetsSmall(a, b, c);
    u, v, w, x := Sextet0(a), Sextet1(a, b), Sextet2(b, c), Sextet3(c);
    SameGroup(a, b, c, u, v, w, x);
    SextetSpelled(u);
    SextetSpelled(v);
    SextetSpelled(w);
    SextetSpelled(x);
  }

  /** The base64 encoding of a byte string. */
  function Encode(s: seq<bv8>): seq<bv8> {
    if s == [] then []
    else if |s| <= 3 then EncodeGroup(s)
    else EncodeGroup(s[..3]) + Encode(s[3..])
  }

  /** Four characters for every three bytes begun. */
  lemma {:induction false} EncodeLength(s: seq<bv8>)
    ensures |Encode(s)| == (|s| + 2) / 3 * 4
    decreases |s|
  {
    hide EncodeGroup;
    if |s| > 3 {
      EncodeLength(s[3..]);
      assert (|s| + 2) / 3 == (|s| - 3 + 2) / 3 + 1;
    }
  }

  /** The bytes the decoder takes from one group of four valid characters. */
  function DecodeGroup(q: seq<bv8>): (g: seq<bv8>)
    requires |q| == 4
    ensures 1 <= |g| <= 3
  {
    var (u, v, w, x) := (DecodeChar(q[0]), DecodeChar(q[1]), DecodeChar(q[2]), DecodeChar(q[3]));
    if q[2] == PAD then [Octet0(u, v)]
    else if q[3] == PAD then [Octet0(u, v), Octet1(v, w)]
    else [Octet0(u, v), Octet1(v, w), Octet2(w, x)]
  }

  /** Main result: what the decoder takes from a group are the bytes of the number
      that its four digits form, as many as there are no pads for. */
  lemma GroupRead(q: seq<bv8>) returns (a: bv8, b: bv8, c: bv8)
    requires |q| == 4 && Valid(q)
    ensures ByteGroup(a, b, c) == SextetGroup(DecodeChar(q[0]), DecodeChar(q[1]), DecodeChar(q[2]), DecodeChar(q[3]))
    ensures DecodeGroup(q) == [a, b, c][..if q[2] == PAD then 1 else if q[3] == PAD then 2 else 3]
  {
    hide Byte, Index, Invalid, DecodeChar, Octet0, Octet1, Octet2, SextetGroup, ByteGroup;
    forall i | 0 <= i < 4 ensures DecodeChar(q[i]) < 64 {
      InvalidMeans(q[i]);
    }
    var (u, v, w, x) := (DecodeChar(q[0]), DecodeChar(q[1]), DecodeChar(q[2]), DecodeChar(q[3]));
    a, b, c := Octet0(u, v), Octet1(v, w), Octet2(w, x);
    SameGroup(a, b, c, u, v, w, x);
  }

  function DecodeGroups(e: seq<bv8>): (s: seq<bv8>)
    requires |e| % 4 == 0
    ensures |s| <= |e| / 4 * 3
  {
    if e == [] then [] else DecodeGroup(e[..4]) + DecodeGroups(e[4..])
  }

  ghost predicate Valid(e: seq<bv8>) {
    forall i :: 0 <= i < |e| ==> !Invalid(e[i])
  }

  /** What the decoder computes when its buffer is large enough. */
  ghost function Decode(e: seq<bv8>): Result<seq<bv8>> {
    if |e| % 4 != 0 then Err(EMSGSIZE)
    else if !Valid(e) then Err(EINVAL)
    else Ok(DecodeGroups(e))
  }

  /** Main result: when the decoder refuses: for its length if and only if that is
      no multiple of 4, else for a character that is neither in the alphabet nor
      the pad nor 255. */
  lemma Refusals(e: seq<bv8>)
    ensures Decode(e) == Err(EMSGSIZE) <==> |e| % 4 != 0
    ensures Decode(e) == Err(EINVAL) <==>
      |e| % 4 == 0 && exists i :: 0 <= i < |e| && !InAlphabet(e[i]) && e[i] != PAD && e[i] != 255
  {
    hide Invalid, InAlphabet, DecodeGroups;
    forall i | 0 <= i < |e| ensures Invalid(e[i]) <==> !InAlphabet(e[i]) && e[i] != PAD && e[i] != 255 {
      AcceptedCharacters(e[i]);
    }
  }

  /** The characters of the alphabet are those that spell a digit. */
  lemma InAlphabetMeans(c: bv8)
    ensures InAlphabet(c) <==> exists v :: Spells(c, v)
  {
    hide Byte, Index, DecodeChar, EncodeSextet, Spells;
    if InAlphabet(c) {
      EncodeDecodeChar(c);
      SextetSpelled(DecodeChar(c));
    }
    if v :| Spells(c, v) {
      SpelledOnce(c, v);
      DecodeEncodeSextet(v);
    }
  }

  lemma SpelledOnce(c: bv8, v: bv8)
    requires Spells(c, v)
    ensures v < 64 && c == EncodeSextet(v)
  {
    hide Byte, Index, ALPHABET;
    SextetIndex(v);
    CodesAreAlphabet(Index(v));
    ByteOfIndex(c);
  }

  // ---- decoding an encoding ----

  lemma GroupRoundTrip(g: seq<bv8>)
    requires 1 <= |g| <= 3
    ensures Valid(EncodeGroup(g)) && DecodeGroup(EncodeGroup(g)) == g
  {
    hide Byte, Index, Invalid, EncodeSextet, DecodeChar, InAlphabet,
         Sextet0, Sextet1, Sextet2, Sextet3, Octet0, Octet1, Octet2;
    var (a, b, c) := (g[0], if |g| > 1 then g[1] else 0, if |g| > 2 then g[2] else 0);
    SextetsSmall(a, b, c);
    OctetsOfSextets(a, b, c);
    DecodeEncodeSextet(Sextet0(a));
    DecodeEncodeSextet(Sextet1(a, b));
    DecodeEncodeSextet(Sextet2(b, c));
    DecodeEncodeSextet(Sextet3(c));
    NotPad(Sextet2(b, c));
    NotPad(Sextet3(c));
    AcceptedCharacters(PAD);
  }

  lemma NotPad(v: bv8)
    requires v < 64
    ensures EncodeSextet(v) != PAD
  {
    hide Byte, Index, EncodeSextet;
    DecodeEncodeSextet(v);
  }

  lemma OneGroup(q: seq<bv8>)
    requires |q| == 4
    ensures DecodeGroups(q) == DecodeGroup(q)
  {
    hide DecodeGroup;
    assert q[..4] == q && q[4..] == [];
    assert DecodeGroups([]) == [];
  }

  /** Main result: decoding an encoding gives back the encoded bytes. */
  lemma {:induction false} RoundTrip(s: seq<bv8>)
    ensures Decode(Encode(s)) == Ok(s)
    decreases |s|
  {
    hide Invalid, EncodeGroup, DecodeGroup;
    if s == [] {
    } else if |s| <= 3 {
      GroupRoundTrip(s);
      OneGroup(Encode(s));
    } else {
      var q, rest := EncodeGroup(s[..3]), Encode(s[3..]);
      GroupRoundTrip(s[..3]);
      RoundTrip(s[3..]);
      assert (q + rest)[..4] == q && (q + rest)[4..] == rest;
      assert s == s[..3] + s[3..];
    }
  }

  lemma NulInvalid()
    ensures Invalid(0)
  {
    hide Byte, Index;
    AcceptedCharacters(0);
    NulIndex();
  }

  /** Nothing that the decoder accepts holds a terminator. */
  lemma AcceptedIsCString(e: seq<bv8>)
    requires Decode(e).Ok?
    ensures 0 !in e
  {
    hide Invalid, DecodeGroups;
    NulInvalid();
  }

  /** So an encoding is a C string. */
  lemma EncodingIsCString(s: seq<bv8>)
    ensures 0 !in Encode(s)
  {
    hide Encode, Decode;
    RoundTrip(s);
    AcceptedIsCString(Encode(s));
  }

  // ---- encoding a decoding ----

  /** A final group of sections 3.5 and 4 of RFC 4648: at most two pads, and no
      stray bits before them. */
  ghost predicate CanonicalLast(q: seq<bv8>) {
    && |q| == 4 && InAlphabet(q[0]) && InAlphabet(q[1])
    && (|| (InAlphabet(q[2]) && InAlphabet(q[3]))
        || (InAlphabet(q[2]) && q[3] == PAD && DecodeChar(q[2]) & 3 == 0)
        || (q[2] == PAD && q[3] == PAD && DecodeChar(q[1]) & 0xF == 0))
  }

  ghost predicate Canonical(e: seq<bv8>) {
    if |e| <= 4 then e == [] || CanonicalLast(e)
    else (forall i :: 0 <= i < 4 ==> InAlphabet(e[i])) && Canonical(e[4..])
  }

  function Pads(e: seq<bv8>): nat {
    if |e| >= 2 && e[|e| - 2] == PAD then 2 else if |e| >= 1 && e[|e| - 1] == PAD then 1 else 0
  }

  lemma LastGroupRoundTrip(q: seq<bv8>)
    requires CanonicalLast(q)
    ensures Valid(q) && EncodeGroup(DecodeGroup(q)) == q
    ensures |DecodeGroup(q)| == 3 - Pads(q)
  {
    hide Byte, Index, Invalid, EncodeSextet, DecodeChar, InAlphabet,
         Sextet0, Sextet1, Sextet2, Sextet3, Octet0, Octet1, Octet2;
    var (u, v, w, x) := (DecodeChar(q[0]), DecodeChar(q[1]), DecodeChar(q[2]), DecodeChar(q[3]));
    forall i | 0 <= i < 4 ensures !Invalid(q[i]) && DecodeChar(q[i]) < 64 {
      AcceptedCharacters(q[i]);
      InvalidMeans(q[i]);
    }
    forall i | 0 <= i < 4 && InAlphabet(q[i]) ensures EncodeSextet(DecodeChar(q[i])) == q[i] && q[i] != PAD {
      EncodeDecodeChar(q[i]);
      NotPad(DecodeChar(q[i]));
    }
    SextetsOfOctets(u, v, w, x);
  }

  lemma EncodedGroupCanonical(g: seq<bv8>)
    requires 1 <= |g| <= 3
    ensures CanonicalLast(EncodeGroup(g))
    ensures |g| == 3 ==> forall i :: 0 <= i < 4 ==> InAlphabet(EncodeGroup(g)[i])
  {
    hide Byte, Index, Invalid, EncodeSextet, DecodeChar, InAlphabet, Sextet0, Sextet1, Sextet2, Sextet3;
    var (a, b, c) := (g[0], if |g| > 1 then g[1] else 0, if |g| > 2 then g[2] else 0);
    SextetsSmall(a, b, c);
    DecodeEncodeSextet(Sextet0(a));
    DecodeEncodeSextet(Sextet1(a, b));
    DecodeEncodeSextet(Sextet2(b, c));
    DecodeEncodeSextet(Sextet3(c));
    PadBits(a, b);
  }

  lemma PadBits(a: bv8, b: bv8)
    ensures Sextet1(a, 0) & 0xF == 0 && Sextet2(b, 0) & 3 == 0
  {
  }

  lemma {:induction false} EncodingsAreCanonical(s: seq<bv8>)
    ensures Canonical(Encode(s))
    decreases |s|
  {
    hide EncodeGroup, InAlphabet, CanonicalLast;
    if s == [] {
    } else if |s| <= 3 {
      EncodedGroupCanonical(s);
    } else {
      EncodedGroupCanonical(s[..3]);
      EncodingsAreCanonical(s[3..]);
      assert Encode(s)[4..] == Encode(s[3..]);
    }
  }

  lemma FullGroup(q: seq<bv8>)
    requires |q| == 4 && forall i :: 0 <= i < 4 ==> InAlphabet(q[i])
    ensures CanonicalLast(q) && Pads(q) == 0
  {
    hide Byte, Index, DecodeChar;
  }

  lemma Nothing()
    ensures Valid([]) && Encode([]) == [] && Pads([]) == 0
  {
  }

  lemma ValidParts(q: seq<bv8>, rest: seq<bv8>)
    requires Valid(q) && Valid(rest)
    ensures Valid(q + rest)
  {
    hide Invalid;
  }

  lemma DecodedNonEmpty(e: seq<bv8>)
    requires |e| % 4 == 0 && e != []
    ensures DecodeGroups(e) != []
  {
    hide DecodeGroup;
  }

  /** `e` is accepted, encoding its decoding gives it back, and the decoded
      length follows from the pads. */
  ghost predicate ReEncodes(e: seq<bv8>) {
    && |e| % 4 == 0 && Valid(e)
    && Encode(DecodeGroups(e)) == e
    && |DecodeGroups(e)| == |e| / 4 * 3 - Pads(e)
  }

  lemma FullGroupInFront(q: seq<bv8>, rest: seq<bv8>)
    requires CanonicalLast(q) && Pads(q) == 0
    requires ReEncodes(rest) && |rest| >= 4
    ensures ReEncodes(q + rest)
  {
    hide Invalid, InAlphabet, CanonicalLast, EncodeGroup, DecodeGroup, Pads, Encode, Valid;
    CanonicalLastLength(q);
    LastGroupRoundTrip(q);
    assert (q + rest)[..4] == q && (q + rest)[4..] == rest;
    DecodedNonEmpty(rest);
    LongEncoding(DecodeGroup(q), DecodeGroups(rest));
    PadsOfTail(q + rest);
    ValidParts(q, rest);
  }

  lemma {:induction false} CanonicalRoundTrip(e: seq<bv8>)
    requires Canonical(e)
    ensures ReEncodes(e)
    decreases |e|
  {
    hide Invalid, InAlphabet, CanonicalLast, EncodeGroup, DecodeGroup, Pads, Encode, Valid;
    if e == [] {
      Nothing();
    } else if |e| <= 4 {
      CanonicalLastLength(e);
      LastGroupRoundTrip(e);
      OneGroup(e);
      ShortEncoding(DecodeGroup(e));
    } else {
      var q, rest := e[..4], e[4..];
      FullGroup(q);
      CanonicalRoundTrip(rest);
      CanonicalNonEmpty(rest);
      assert e == q + rest;
      FullGroupInFront(q, rest);
    }
  }

  lemma ShortEncoding(g: seq<bv8>)
    requires 1 <= |g| <= 3
    ensures Encode(g) == EncodeGroup(g)
  {
  }

  /** A group of three bytes in front of a further encoding. */
  lemma LongEncoding(g: seq<bv8>, s: seq<bv8>)
    requires |g| == 3 && s != []
    ensures Encode(g + s) == EncodeGroup(g) + Encode(s)
  {
    hide EncodeGroup;
    assert (g + s)[..3] == g && (g + s)[3..] == s;
  }

  lemma PadsOfTail(e: seq<bv8>)
    requires |e| > 4 && |e[4..]| >= 4
    ensures Pads(e) == Pads(e[4..])
  {
  }

  lemma CanonicalLastLength(q: seq<bv8>)
    requires CanonicalLast(q)
    ensures |q| == 4
  {
  }

  lemma CanonicalNonEmpty(e: seq<bv8>)
    requires Canonical(e) && e != []
    ensures |e| >= 4
  {
  }

  /** Main result: encoding a decoding gives back the input exactly for the
      canonical encodings, and their decoded length follows from the pads. */
  lemma ReverseRoundTrip(e: seq<bv8>)
    ensures Canonical(e) <==> Decode(e).Ok? && Encode(Decode(e).value) == e
    ensures Canonical(e) ==> |Decode(e).value| == |e| / 4 * 3 - Pads(e)
  {
    hide Canonical, Valid, Encode, DecodeGroups, Pads;
    if Canonical(e) {
      CanonicalRoundTrip(e);
    }
    if Decode(e).Ok? && Encode(Decode(e).value) == e {
      EncodingsAreCanonical(Decode(e).value);
    }
  }
}
