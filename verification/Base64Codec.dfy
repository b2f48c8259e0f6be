/** The tables and loops of base64/b64.c. A C string is the sequence of its bytes
    before the terminator; `uint8_t` is `bv8`. */
module Base64Codec {
  import opened Base64

  /** The two buffer-length macros. */
  function MinDecodedBuflen(el: nat): nat {
    (el / 4 + 1) * 3 + 1
  }

  function MinEncodedBuflen(l: nat): nat {
    (l / 3 + 1) * 4 + 1
  }

  /** A buffer of the macro's size holds the whole encoding and its terminator,
      with one group to spare when no byte is left over. */
  lemma EncodedFits(s: seq<bv8>)
    ensures |Encode(s)| < MinEncodedBuflen(|s|)
    ensures MinEncodedBuflen(|s|) == |Encode(s)| + 1 + if |s| % 3 == 0 then 4 else 0
  {
    hide Encode;
    EncodeLength(s);
    GroupsBegun(|s|);
  }

  lemma GroupsBegun(l: nat)
    ensures (l + 2) / 3 == l / 3 + if l % 3 == 0 then 0 else 1
  {
  }

  /** The macro for decoding leaves room for one more group and the terminator. */
  lemma DecodedFits(e: seq<bv8>, s: seq<bv8>)
    requires Canonical(e) && Decode(e) == Ok(s)
    ensures MinDecodedBuflen(|e|) == |s| + Pads(e) + 3 + 1
  {
    hide Encode, DecodeGroups, Canonical, Pads;
    ReverseRoundTrip(e);
  }

  ghost predicate EncodingTable(t: seq<bv8>) {
    |t| == 64 && forall i :: 0 <= i < 64 ==> t[i] == Byte(CodeOf(i))
  }

  ghost predicate DecodingTable(t: seq<bv8>) {
    |t| == 256 && forall c :: 0 <= c < 256 ==> t[c] == Byte(ValueOf(c))
  }

  class Codec {
    var ready: bool
    const etable: array<bv8>
    const dtable: array<bv8>

    ghost predicate Valid()
      reads this, etable, dtable
    {
      && etable.Length == 64 && dtable.Length == 256 && etable != dtable
      && dtable[255] == 0
      && (ready ==> EncodingTable(etable[..]) && DecodingTable(dtable[..]))
    }

    /** Static storage starts out zero. */
    constructor ()
      ensures Valid() && fresh(etable) && fresh(dtable)
    {
      etable := new bv8[64](_ => 0);
      dtable := new bv8[256](_ => 0);
      ready := false;
    }

    /** Entries `lo` to `hi - 1` of the encoding table are in place. */
    ghost predicate Filled(lo: nat, hi: nat)
      requires hi <= etable.Length == 64
      reads etable
    {
      forall k :: lo <= k < hi ==> etable[k] == Byte(CodeOf(k))
    }

    method InitEtable()
      requires etable.Length == 64
      modifies etable
      ensures EncodingTable(etable[..])
    {
      hide Byte;
      InitLetters();
      for i := 0 to 8
        invariant Filled(0, 18 + i) && Filled(26, 44 + i)
      {
        etable[i + 18] := Byte(83 + i);
        etable[26 + i + 18] := Byte(115 + i);
      }
      for i := 0 to 10
        invariant Filled(0, 52 + i)
      {
        etable[52 + i] := Byte(48 + i);
      }
      etable[62] := Byte(43);
      etable[63] := Byte(47);
      assert Filled(0, 64);
    }

    /** The first loop of `init_etable`: A-R and a-r. */
    method InitLetters()
      requires etable.Length == 64
      modifies etable
      ensures Filled(0, 18) && Filled(26, 44)
    {
      hide Byte;
      for i := 0 to 9
        invariant Filled(0, i) && Filled(9, 9 + i) && Filled(26, 26 + i) && Filled(35, 35 + i)
      {
        etable[i] := Byte(65 + i);
        etable[i + 9] := Byte(74 + i);
        etable[26 + i] := Byte(97 + i);
        etable[26 + i + 9] := Byte(106 + i);
      }
    }

    /** One of the seven range loops of `init_dtable`. */
    method FillRange(lo: nat, hi: nat, base: nat)
      requires dtable.Length == 256 && lo <= hi < 255 && base + (hi - lo) < 64
      modifies dtable
      ensures forall c :: 0 <= c < 256 ==> dtable[c] == if lo <= c <= hi then Byte(base + (c - lo)) else old(dtable[c])
    {
      hide Byte;
      for i := lo to hi + 1
        invariant forall c :: 0 <= c < 256 ==> dtable[c] == if lo <= c < i then Byte(base + (c - lo)) else old(dtable[c])
      {
        dtable[i] := Byte(base + (i - lo));
      }
    }

    /** The first loop stops before entry 255, which keeps its initial 0. */
    method InitDtable()
      requires dtable.Length == 256 && dtable[255] == 0
      modifies dtable
      ensures DecodingTable(dtable[..])
    {
      hide Byte;
      ZeroByte();
      for i := 0 to 255
        invariant forall c :: 0 <= c < i ==> dtable[c] == Byte(128)
        invariant dtable[255] == 0
      {
        dtable[i] := Byte(128);
      }
      FillLetters();
      FillRange(48, 57, 52);
      dtable[43] := Byte(62);
      dtable[47] := Byte(63);
      dtable[61] := Byte(0);
    }

    /** The six loops over letters. */
    method FillLetters()
      requires dtable.Length == 256
      modifies dtable
      ensures forall c :: 0 <= c < 256 ==>
        dtable[c] == if 65 <= c <= 90 || 97 <= c <= 122 then Byte(ValueOf(c)) else old(dtable[c])
    {
      hide Byte;
      FillRange(65, 73, 0);
      FillRange(74, 82, 9);
      FillRange(83, 90, 18);
      FillRange(97, 105, 26);
      FillRange(106, 114, 35);
      FillRange(115, 122, 44);
    }

    /** `b64_init`. */
    method Init()
      requires Valid()
      modifies this`ready, etable, dtable
      ensures Valid() && ready
    {
      InitEtable();
      InitDtable();
      ready := true;
    }

    /** `b64_encode`: the encoding, cut to the buffer, and a terminator. */
    method B64Encode(plain: seq<bv8>, enc: array<bv8>, nenc: nat)
      requires Valid() && 1 <= nenc <= enc.Length && enc != etable && enc != dtable
      requires 0 !in plain
      modifies this`ready, etable, dtable, enc
      ensures Valid()
      ensures var n := if |Encode(plain)| < nenc then |Encode(plain)| else nenc - 1;
        && enc[..n] == Encode(plain)[..n] && enc[n] == 0
        && enc[n + 1..] == old(enc[n + 1..])
    {
      if !ready {
        Init();
      }
      var j := EncodeLoop(plain, enc, nenc);
      enc[j] := 0;
    }

    /** The main loop of `b64_encode`. */
    method EncodeLoop(plain: seq<bv8>, enc: array<bv8>, nenc: nat) returns (j: nat)
      requires Valid() && ready && 1 <= nenc <= enc.Length && enc != etable && enc != dtable
      requires 0 !in plain
      modifies enc
      ensures j == if |Encode(plain)| < nenc then |Encode(plain)| else nenc - 1
      ensures enc[..j] == Encode(plain)[..j] && enc[j..] == old(enc[j..])
    {
      hide EncodeGroup, Encode, Valid;
      var i := 0;
      j := 0;
      ghost var out := [];
      assert plain[0..] == plain;
      while i < |plain| && plain[i] != 0
        invariant i <= |plain| && Valid()
        invariant Encode(plain) == out + Encode(plain[i..])
        invariant j == if |out| < nenc then |out| else nenc - 1
        invariant enc[..j] == out[..j]
        invariant enc[j..] == old(enc[j..])
      {
        var next, ogroup := NextOgroup(plain, i);
        NextGroup(plain, i, next);
        ghost var before, from := out, j;
        out := out + ogroup;
        i := next;
        j := Store(enc, j, nenc - 1, ogroup);
        assert out[..j] == before[..from] + ogroup[..j - from];
      }
      EncodeNothing(plain, i);
    }

    /** One round of the encoder up to its output: reads up to three bytes. */
    method NextOgroup(plain: seq<bv8>, start: nat) returns (i: nat, ogroup: seq<bv8>)
      requires Valid() && ready && start < |plain|
      ensures start < i <= |plain| && i == if start + 3 <= |plain| then start + 3 else |plain|
      ensures ogroup == EncodeGroup(plain[start..i])
    {
      hide EncodeGroup;
      i := start;
      var n := 1;
      var g0, g1, g2: bv8 := plain[i], 0, 0;
      i := i + 1;
      if i < |plain| {
        g1 := plain[i];
        i := i + 1;
        n := n + 1;
      }
      if i < |plain| {
        g2 := plain[i];
        i := i + 1;
        n := n + 1;
      }
      assert plain[start..i] == [g0, g1, g2][..n];
      ogroup := Group(g0, g1, g2, n);
    }

    /** The innermost loop of both directions: copy a group as far as `limit`. */
    static method Store(buf: array<bv8>, start: nat, limit: nat, group: seq<bv8>) returns (j: nat)
      requires start <= limit < buf.Length
      modifies buf
      ensures j == if start + |group| <= limit then start + |group| else limit
      ensures start <= j && buf[..j] == old(buf[..start]) + group[..j - start]
      ensures buf[j..] == old(buf[j..])
    {
      var k := 0;
      j := start;
      while k < |group| && j < limit
        invariant k <= |group| && j == start + k <= limit
        invariant forall m :: 0 <= m < start ==> buf[m] == old(buf[m])
        invariant forall m :: start <= m < j ==> buf[m] == group[m - start]
        invariant forall m :: j <= m < buf.Length ==> buf[m] == old(buf[m])
      {
        buf[j] := group[k];
        k := k + 1;
        j := j + 1;
      }
    }

    /** The table look-ups and padding of one group. */
    method Group(g0: bv8, g1: bv8, g2: bv8, n: nat) returns (ogroup: seq<bv8>)
      requires Valid() && ready && 1 <= n <= 3
      requires (n < 2 ==> g1 == 0) && (n < 3 ==> g2 == 0)
      ensures ogroup == EncodeGroup([g0, g1, g2][..n])
    {
      hide Byte, Index, Sextet0, Sextet1, Sextet2, Sextet3;
      SextetsSmall(g0, g1, g2);
      SextetIndex(Sextet0(g0));
      SextetIndex(Sextet1(g0, g1));
      SextetIndex(Sextet2(g1, g2));
      SextetIndex(Sextet3(g2));
      ogroup := [etable[Index(Sextet0(g0))], etable[Index(Sextet1(g0, g1))],
                 etable[Index(Sextet2(g1, g2))], etable[Index(Sextet3(g2))]];
      if n < 3 {
        ogroup := ogroup[3 := PAD];
        if n < 2 {
          ogroup := ogroup[2 := PAD];
        }
      }
    }

    /** `b64_decode`: the result, with the decoded bytes and a terminator in the
        buffer on success. */
    method B64Decode(encoded: seq<bv8>, decoded: array<bv8>, ndecoded: nat) returns (r: Result<nat>)
      requires Valid() && ndecoded <= decoded.Length && decoded != etable && decoded != dtable
      requires 0 !in encoded
      modifies this`ready, etable, dtable, decoded
      ensures Valid()
      ensures r == if ndecoded < MinDecodedBuflen(|encoded|) then Err(EMSGSIZE)
                   else match Decode(encoded) case Err(e) => Err(e) case Ok(s) => Ok(|s|)
      ensures r.Ok? ==> r.value < ndecoded
      ensures r.Ok? ==> Decode(encoded) == Ok(decoded[..r.value]) && decoded[r.value] == 0
      ensures r.Ok? ==> decoded[r.value + 1..] == old(decoded[r.value + 1..])
      ensures r == Err(EMSGSIZE) ==> decoded[..] == old(decoded[..])
    {
      hide DecodeGroups, Invalid;
      if !ready {
        Init();
      }
      if |encoded| % 4 != 0 || ndecoded < MinDecodedBuflen(|encoded|) {
        return Err(EMSGSIZE);
      }
      var ok, j := DecodeLoop(encoded, decoded, ndecoded);
      if !ok {
        return Err(EINVAL);
      }
      decoded[j] := 0;
      r := Ok(j);
    }

    /** The main loop of `b64_decode`; the buffer guard never cuts it short. */
    method DecodeLoop(encoded: seq<bv8>, decoded: array<bv8>, ndecoded: nat) returns (ok: bool, j: nat)
      requires Valid() && ready && decoded != etable && decoded != dtable
      requires |encoded| % 4 == 0 && MinDecodedBuflen(|encoded|) <= ndecoded <= decoded.Length
      modifies decoded
      ensures ok <==> Base64.Valid(encoded)
      ensures ok ==> j < ndecoded && decoded[..j] == DecodeGroups(encoded) && decoded[j..] == old(decoded[j..])
    {
      hide DecodeGroup, DecodeGroups, Invalid, Codec.Valid, Base64.Valid;
      var i := 0;
      j := 0;
      Nothing();
      assert encoded[0..] == encoded && encoded[..0] == [];
      ghost var out, round, rounds := [], 0, |encoded| / 4;
      assert |encoded| == 4 * rounds && 3 * rounds + 3 < ndecoded;
      while i < |encoded| && j < ndecoded - 1
        invariant i == 4 * round && round <= rounds && Valid()
        invariant DecodeGroups(encoded) == out + DecodeGroups(encoded[i..])
        invariant Base64.Valid(encoded[..i])
        invariant j == |out| <= 3 * round
        invariant decoded[..j] == out
        invariant decoded[j..] == old(decoded[j..])
      {
        var good, o := Quad(encoded[i..i + 4]);
        if !good {
          BadCharacter(encoded, i);
          return false, j;
        }
        FourValid(encoded, i);
        out := out + o;
        i := i + 4;
        round := round + 1;
        j := Store(decoded, j, ndecoded - 1, o);
        assert o[..|o|] == o;
      }
      DecodeNothing(encoded, i);
      assert encoded[..i] == encoded;
      ok := true;
    }

    /** What the two routines are for: through buffers of the sizes of the two
        macros a C string comes back unchanged. */
    method EncodeThenDecode(plain: seq<bv8>, enc: array<bv8>, decoded: array<bv8>)
      requires Valid() && 0 !in plain
      requires enc.Length >= MinEncodedBuflen(|plain|) && enc != etable && enc != dtable
      requires decoded.Length >= MinDecodedBuflen(|Encode(plain)|) && decoded != etable && decoded != dtable
      modifies this`ready, etable, dtable, enc, decoded
      ensures Valid()
      ensures |plain| < decoded.Length && decoded[..|plain|] == plain && decoded[|plain|] == 0
    {
      hide Encode, DecodeGroups, Codec.Valid;
      EncodedFits(plain);
      EncodingIsCString(plain);
      RoundTrip(plain);
      B64Encode(plain, enc, MinEncodedBuflen(|plain|));
      var n := |Encode(plain)|;
      assert enc[..n] == Encode(plain);
      var r := B64Decode(enc[..n], decoded, MinDecodedBuflen(n));
    }

    /** And the other way round, for the encodings that an encoder produces: a
        canonical encoding of a C string comes back unchanged. */
    method DecodeThenEncode(encoded: seq<bv8>, ghost plain: seq<bv8>, decoded: array<bv8>, enc: array<bv8>)
      returns (r: Result<nat>)
      requires Valid() && Canonical(encoded) && Decode(encoded) == Ok(plain) && 0 !in plain
      requires decoded.Length >= MinDecodedBuflen(|encoded|) && decoded != etable && decoded != dtable
      requires enc.Length >= MinEncodedBuflen(|plain|) && enc != etable && enc != dtable
      modifies this`ready, etable, dtable, decoded, enc
      ensures Valid()
      ensures r == Ok(|encoded| / 4 * 3 - Pads(encoded))
      ensures |encoded| < enc.Length && enc[..|encoded|] == encoded && enc[|encoded|] == 0
    {
      hide Encode, Decode, Codec.Valid, Canonical, Pads;
      ReverseRoundTrip(encoded);
      EncodedFits(plain);
      AcceptedIsCString(encoded);
      r := B64Decode(encoded, decoded, MinDecodedBuflen(|encoded|));
      assert decoded[..r.value] == plain;
      B64Encode(decoded[..r.value], enc, MinEncodedBuflen(r.value));
      assert enc[..|encoded|] == encoded;
    }

    /** One round of the decoder up to its output: the inner loop over four
        characters, and the bytes to store; `ok` is false on a bad character. */
    method Quad(q: seq<bv8>) returns (ok: bool, o: seq<bv8>)
      requires Valid() && ready && |q| == 4
      ensures ok <==> Base64.Valid(q)
      ensures ok ==> o == DecodeGroup(q)
    {
      hide Byte, Index, Octet0, Octet1, Octet2;
      var a, b: seq<bv8> := [], [];
      var k := 0;
      while k < 4
        invariant 0 <= k <= 4 && |a| == |b| == k
        invariant forall m :: 0 <= m < k ==> a[m] == q[m] && b[m] == DecodeChar(q[m]) && !Invalid(q[m])
      {
        var c := q[k];
        if dtable[Index(c)] & 0x80 != 0 {
          return false, [];
        }
        a := a + [c];
        b := b + [dtable[Index(c)]];
        k := k + 1;
      }
      o := [Octet0(b[0], b[1]), Octet1(b[1], b[2]), Octet2(b[2], b[3])];
      var olen := if a[2] == PAD then 1 else if a[3] == PAD then 2 else 3;
      return true, o[..olen];
    }
  }

  lemma ZeroByte()
    ensures Byte(0) == 0
  {
  }

  lemma EncodeNothing(s: seq<bv8>, i: nat)
    requires i == |s|
    ensures Encode(s[i..]) == []
  {
  }

  lemma DecodeNothing(e: seq<bv8>, i: nat)
    requires i == |e|
    ensures DecodeGroups(e[i..]) == []
  {
  }

  lemma BadCharacter(e: seq<bv8>, i: nat)
    requires i + 4 <= |e|
    requires !Base64.Valid(e[i..i + 4])
    ensures !Base64.Valid(e)
  {
    hide Invalid;
    var k :| 0 <= k < 4 && Invalid(e[i..i + 4][k]);
    assert Invalid(e[i + k]);
  }

  /** The four characters after position `i`, and what follows them. */
  lemma FourValid(e: seq<bv8>, i: nat)
    requires i + 4 <= |e| && |e| % 4 == 0 && i % 4 == 0
    requires Base64.Valid(e[..i]) && Base64.Valid(e[i..i + 4])
    ensures DecodeGroups(e[i..]) == DecodeGroup(e[i..i + 4]) + DecodeGroups(e[i + 4..])
    ensures Base64.Valid(e[..i + 4])
  {
    hide Invalid, DecodeGroup;
    assert e[i..][..4] == e[i..i + 4] && e[i..][4..] == e[i + 4..];
    ValidParts(e[..i], e[i..i + 4]);
    assert e[..i] + e[i..i + 4] == e[..i + 4];
  }

  lemma NextGroup(s: seq<bv8>, i: nat, n: nat)
    requires i < n <= |s| && (n == i + 3 || (n < i + 3 && n == |s|))
    ensures Encode(s[i..]) == EncodeGroup(s[i..n]) + Encode(s[n..])
  {
    hide EncodeGroup;
    var t := s[i..];
    if |t| <= 3 {
      assert t == s[i..n] && s[n..] == [];
    } else {
      assert t[..3] == s[i..n] && t[3..] == s[n..];
    }
  }
}
