/** `nwrite` and `nwritev` of fdwatch/fdio.c, and the chunks of `writev_nbuf` of
    wal/wbuft.c, against an arbitrary kernel. */
module VectoredWrite {

  /** `iov_base` is an offset into the caller's memory. */
  datatype Iovec = Iovec(base: nat, len: nat)

  /** What one system call does: it accepts at most `n` bytes, or fails. After
      a call that accepts 0 bytes `errno` still has an old value. */
  datatype Response = Accepts(n: nat, staleErrno: int) | Fails(errno: int)

  const EINTR := 4

  // ---- the bytes that a vector stands for ----

  function Bytes(mem: seq<bv8>, v: Iovec): seq<bv8>
    requires v.base + v.len <= |mem|
  {
    mem[v.base..v.base + v.len]
  }

  ghost predicate InMemory(mem: seq<bv8>, iov: seq<Iovec>) {
    forall i :: 0 <= i < |iov| ==> iov[i].base + iov[i].len <= |mem|
  }

  function Concat(mem: seq<bv8>, iov: seq<Iovec>): (bytes: seq<bv8>)
    requires InMemory(mem, iov)
    ensures |bytes| == Total(iov)
  {
    if iov == [] then [] else Bytes(mem, iov[0]) + Concat(mem, iov[1..])
  }

  function Total(iov: seq<Iovec>): nat {
    if iov == [] then 0 else iov[0].len + Total(iov[1..])
  }

  /** How many bytes the kernel takes when offered `offered`. */
  function Taken(r: Response, offered: nat): nat {
    match r
    case Accepts(n, _) => if n <= offered then n else offered
    case Fails(_) => 0
  }

  function Errno(r: Response): int {
    match r
    case Accepts(_, e) => e
    case Fails(e) => e
  }

  /** How a call ends: it returns `ret`, or the kernel has not yet answered. */
  datatype Ending = Returns(ret: int) | Pending

  /** A failing system call sets `errno`. */
  ghost predicate Legal(script: seq<Response>) {
    forall k :: 0 <= k < |script| && script[k].Fails? ==> script[k].errno != 0
  }

  /** The response ends the loop: nothing was taken and it was no interruption. */
  predicate Stops(r: Response, offered: nat) {
    Taken(r, offered) == 0 && Errno(r) != EINTR
  }

  /** How many of `n` bytes the first `k` answers take when each call offers
      all that is left. */
  function Sent(script: seq<Response>, k: nat, n: nat): (sent: nat)
    requires k <= |script|
    ensures sent <= n
  {
    if k == 0 then 0
    else Sent(script, k - 1, n) + Taken(script[k - 1], n - Sent(script, k - 1, n))
  }

  /** Answer `k` ends the loop over `n` bytes. */
  predicate StopsAt(script: seq<Response>, k: nat, n: nat)
    requires k < |script|
  {
    Stops(script[k], n - Sent(script, k, n))
  }

  /** An answer ends the loop exactly when it sends nothing and `errno` is not
      that of an interrupted call. */
  lemma StopsMeans(script: seq<Response>, k: nat, n: nat)
    requires k < |script|
    ensures StopsAt(script, k, n) <==> Sent(script, k + 1, n) == Sent(script, k, n) && Errno(script[k]) != 4
  {
  }

  /** `calls` answers are used: none before the last one ends the loop, and no
      call is made once all bytes are sent. */
  predicate Consumes(script: seq<Response>, calls: nat, n: nat)
    requires calls <= |script|
  {
    && (forall k :: 0 <= k < calls - 1 ==> !StopsAt(script, k, n))
    && (forall k :: 0 < k < calls ==> Sent(script, k, n) < n)
  }

  lemma NothingConsumed(script: seq<Response>, n: nat)
    ensures Sent(script, 0, n) == 0 && Consumes(script, 0, n)
  {
  }

  /** Call `k`, when none before it ended the loop and bytes are left or no call
      was made yet. */
  lemma NextCall(script: seq<Response>, k: nat, n: nat, total: nat)
    requires k < |script| && Consumes(script, k, n) && total == Sent(script, k, n)
    requires k > 0 ==> !StopsAt(script, k - 1, n) && total < n
    ensures Consumes(script, k + 1, n)
    ensures Sent(script, k + 1, n) == total + Taken(script[k], n - total)
    ensures StopsAt(script, k, n) <==> Taken(script[k], n - total) == 0 && Errno(script[k]) != EINTR
  {
    hide Taken;
  }

  // ---- advancing the vector ----

  /** The vector without its first `n` bytes, as the inner loop leaves it. */
  function Advance(iov: seq<Iovec>, n: nat): seq<Iovec> {
    if iov == [] then []
    else if n < iov[0].len then [Iovec(iov[0].base + n, iov[0].len - n)] + iov[1..]
    else Advance(iov[1..], n - iov[0].len)
  }

  /** Advancing drops exactly the accepted bytes. */
  lemma {:induction false} AdvanceDrops(mem: seq<bv8>, iov: seq<Iovec>, n: nat)
    requires InMemory(mem, iov) && n <= Total(iov)
    ensures InMemory(mem, Advance(iov, n))
    ensures Concat(mem, Advance(iov, n)) == Concat(mem, iov)[n..]
    ensures Total(Advance(iov, n)) == Total(iov) - n
    decreases |iov|
  {
    hide Concat;
    NoVector(mem);
    if iov == [] {
    } else if n < iov[0].len {
      var first := Iovec(iov[0].base + n, iov[0].len - n);
      assert Advance(iov, n)[1..] == iov[1..];
      FirstOf(mem, iov);
      FirstOf(mem, Advance(iov, n));
      assert Bytes(mem, first) == Bytes(mem, iov[0])[n..];
    } else {
      AdvanceDrops(mem, iov[1..], n - iov[0].len);
      FirstOf(mem, iov);
      assert Concat(mem, iov)[n..] == Concat(mem, iov[1..])[n - iov[0].len..];
    }
  }

  // ---- nwritev ----

  /** The inner loop: `nbytes` accepted bytes are taken off the vector from
      position `first` on, in place. */
  method AdvanceInPlace(iov: array<Iovec>, first: nat, nbytes: nat) returns (next: nat)
    requires first <= iov.Length
    modifies iov
    ensures first <= next <= iov.Length
    ensures iov[next..] == Advance(old(iov[first..]), nbytes)
  {
    next := first;
    var left: nat := nbytes;
    assert iov[next..] == old(iov[first..]);
    while next < iov.Length
      invariant first <= next <= iov.Length
      invariant iov[next..] == old(iov[next..])
      invariant Advance(old(iov[first..]), nbytes) == Advance(iov[next..], left)
    {
      if left < iov[next].len {
        iov[next] := Iovec(iov[next].base + left, iov[next].len - left);
        assert iov[next + 1..] == old(iov[next..])[1..];
        return;
      }
      left := left - iov[next].len;
      assert iov[next..][1..] == iov[next + 1..];
      next := next + 1;
    }
  }

  /** `nwritev`. `script` holds the kernel's answers, one a call; `calls` says
      how many were used. The bytes that these took are a prefix of the
      original ones, and those still in the vector are the others. `underwr` is
      the number of the diagnostic. */
  method Nwritev(mem: seq<bv8>, iov: array<Iovec>, script: seq<Response>)
    returns (ending: Ending, total: nat, underwr: nat, calls: nat, accepted: seq<bv8>, rest: seq<Iovec>)
    requires iov.Length > 0 && InMemory(mem, iov[..]) && Legal(script)
    modifies iov
    ensures calls <= |script| && Consumes(script, calls, old(Total(iov[..])))
    ensures total == Sent(script, calls, old(Total(iov[..])))
    ensures accepted == old(Concat(mem, iov[..]))[..total]
    ensures InMemory(mem, rest) && Concat(mem, rest) == old(Concat(mem, iov[..]))[total..]
    ensures rest == [] ==> calls > 0 && !StopsAt(script, calls - 1, old(Total(iov[..])))
    ensures rest == [] ==> ending == Returns(total) && total == old(Total(iov[..]))
    ensures rest != [] && ending.Pending? ==>
      calls == |script| && (calls == 0 || !StopsAt(script, calls - 1, old(Total(iov[..]))))
    ensures rest != [] && ending.Returns? ==> calls > 0 && StopsAt(script, calls - 1, old(Total(iov[..])))
    ensures rest != [] && ending.Returns? ==>
      ending.ret == if script[calls - 1].Fails? then -1 else if script[calls - 1].staleErrno == 0 then total else 0
    ensures ending == Returns(-1) ==> total + underwr == old(Total(iov[..]))
    ensures ending != Returns(-1) ==> underwr == 0
    ensures ending.Returns? && ending.ret != -1 ==>
      (ending.ret == total <==> rest == [] || total == 0 || Errno(script[calls - 1]) == 0)
  {
    hide Concat, Total, Legal, Sent, StopsAt, Consumes, InMemory;
    var pending, first, nbytes, err;
    pending, first, nbytes, err, total, calls, accepted := WriteLoop(mem, iov, script);
    underwr, rest := 0, iov[first..];
    if pending {
      ending := Pending;
      return;
    }
    if nbytes < 0 {
      underwr := SumFrom(iov, first);
      assert Total(rest) == |Concat(mem, rest)|;
    }
    ending := Returns(if err != 0 then nbytes else total);
    NoVector(mem);
  }

  /** The outer loop of `nwritev`; `pending` says that the kernel's next answer
      is still to come. */
  method WriteLoop(mem: seq<bv8>, iov: array<Iovec>, script: seq<Response>)
    returns (pending: bool, first: nat, nbytes: int, err: int, total: nat, calls: nat, accepted: seq<bv8>)
    requires iov.Length > 0 && InMemory(mem, iov[..]) && Legal(script)
    modifies iov
    ensures first <= iov.Length && calls <= |script| && Consumes(script, calls, old(Total(iov[..])))
    ensures total == Sent(script, calls, old(Total(iov[..]))) && accepted == old(Concat(mem, iov[..]))[..total]
    ensures InMemory(mem, iov[first..]) && Concat(mem, iov[first..]) == old(Concat(mem, iov[..]))[total..]
    ensures pending ==> first < iov.Length && calls == |script|
    ensures pending || first == iov.Length ==>
      err == 0 && nbytes >= 0 && (calls > 0 ==> !StopsAt(script, calls - 1, old(Total(iov[..]))))
    ensures first == iov.Length ==> calls > 0
    ensures !pending && first < iov.Length ==> calls > 0 && StopsAt(script, calls - 1, old(Total(iov[..])))
    ensures !pending && first < iov.Length ==>
      err == Errno(script[calls - 1]) && (if script[calls - 1].Fails? then nbytes == -1 && err != 0 else nbytes == 0)
  {
    hide Concat, Total, Advance, Legal, Sent, Stops, StopsAt, Consumes, InMemory;
    ghost var original, n := Concat(mem, iov[..]), Total(iov[..]);
    NothingConsumed(script, n);
    pending, first, nbytes, err, total, calls, accepted := false, 0, 0, 0, 0, 0, [];
    assert iov[0..] == iov[..];
    while first < iov.Length
      invariant first <= iov.Length && calls <= |script|
      invariant InMemory(mem, iov[first..])
      invariant total == Sent(script, calls, n) && accepted == original[..total]
      invariant Concat(mem, iov[first..]) == original[total..]
      invariant Consumes(script, calls, n)
      invariant calls > 0 ==> !StopsAt(script, calls - 1, n) && (first < iov.Length ==> total < n)
      invariant calls == 0 ==> first == 0
      invariant err == 0 && nbytes >= 0
      decreases |script| - calls
    {
      if calls == |script| {
        pending := true;
        return;
      }
      var r := script[calls];
      FailureSetsErrno(script, calls);
      NextCall(script, calls, n, total);
      calls := calls + 1;
      nbytes := if r.Fails? then -1 else Taken(r, Total(iov[first..]));
      if nbytes <= 0 {
        err := Errno(r);
        if err == EINTR {
          err := 0;
          nbytes := 0;
        } else {
          break;
        }
      }
      ghost var rest := iov[first..];
      Progress(mem, rest, original, total, nbytes);
      accepted := accepted + Concat(mem, iov[first..])[..nbytes];
      total := total + nbytes;
      first := AdvanceInPlace(iov, first, nbytes);
    }
  }

  /** When the kernel takes nothing of the rest while `errno` has an old value,
      `nwritev` reports 0 although a byte was written. */
  method ReportsNothing(mem: seq<bv8>, stale: int) returns (ending: Ending, total: nat, rest: seq<Iovec>)
    requires |mem| >= 2 && stale != 0 && stale != EINTR
    ensures ending == Returns(0) && total == 1 && rest != []
  {
    hide Concat, InMemory, Sent, StopsAt;
    var iov := new Iovec[1][Iovec(0, |mem|)];
    var script := [Accepts(1, 0), Accepts(0, stale)];
    OneVector(mem, iov[..]);
    NothingConsumed(script, |mem|);
    NextCall(script, 0, |mem|, 0);
    NextCall(script, 1, |mem|, 1);
    var underwr, calls, accepted;
    ending, total, underwr, calls, accepted, rest := Nwritev(mem, iov, script);
    assert calls == 2;
  }

  lemma OneVector(mem: seq<bv8>, iov: seq<Iovec>)
    requires iov == [Iovec(0, |mem|)]
    ensures InMemory(mem, iov) && Total(iov) == |mem|
  {
  }

  /** Nothing is left of the vector exactly when all its bytes were accepted. */
  lemma {:induction false} AdvanceAll(iov: seq<Iovec>, n: nat)
    requires n <= Total(iov)
    ensures Advance(iov, n) == [] <==> n == Total(iov)
    decreases |iov|
  {
    if iov != [] && n >= iov[0].len {
      AdvanceAll(iov[1..], n - iov[0].len);
    }
  }

  lemma NoVector(mem: seq<bv8>)
    ensures Concat(mem, []) == []
  {
  }

  lemma FailureSetsErrno(script: seq<Response>, k: nat)
    requires Legal(script) && k < |script|
    ensures script[k].Fails? ==> script[k].errno != 0
  {
  }

  /** `m` more bytes are accepted of a vector that stands for the bytes after
      the first `n`. */
  lemma Progress(mem: seq<bv8>, rest: seq<Iovec>, original: seq<bv8>, n: nat, m: nat)
    requires InMemory(mem, rest) && n <= |original| && Concat(mem, rest) == original[n..]
    requires m <= Total(rest)
    ensures InMemory(mem, Advance(rest, m)) && n + m <= |original|
    ensures Concat(mem, Advance(rest, m)) == original[n + m..]
    ensures original[..n] + Concat(mem, rest)[..m] == original[..n + m]
    ensures Advance(rest, m) == [] <==> m == Total(rest)
  {
    hide InMemory, Concat, Total, Advance;
    AdvanceDrops(mem, rest, m);
    AdvanceAll(rest, m);
  }

  /** The loop that adds up what has not been written. */
  method SumFrom(iov: array<Iovec>, first: nat) returns (sum: nat)
    requires first <= iov.Length
    ensures sum == Total(iov[first..])
  {
    sum := 0;
    var i := first;
    while i < iov.Length
      invariant first <= i <= iov.Length
      invariant sum + Total(iov[i..]) == Total(iov[first..])
    {
      assert iov[i..][1..] == iov[i + 1..];
      sum := sum + iov[i].len;
      i := i + 1;
    }
  }

  /** `nwrite`: the same for one buffer. An interrupted call is repeated; after
      an error the bytes accepted before it are not reported. */
  method Nwrite(buf: seq<bv8>, script: seq<Response>)
    returns (ending: Ending, total: nat, calls: nat, accepted: seq<bv8>)
    ensures calls <= |script| && Consumes(script, calls, |buf|) && (buf == [] ==> calls == 0)
    ensures total == Sent(script, calls, |buf|) && accepted == buf[..total]
    ensures total == |buf| ==> ending == Returns(total) && (calls == 0 || !StopsAt(script, calls - 1, |buf|))
    ensures total < |buf| && ending.Pending? ==>
      calls == |script| && (calls == 0 || !StopsAt(script, calls - 1, |buf|))
    ensures total < |buf| && ending.Returns? ==> calls > 0 && StopsAt(script, calls - 1, |buf|)
    ensures total < |buf| && ending.Returns? ==> ending.ret == if script[calls - 1].Fails? then -1 else total
  {
    hide Sent, StopsAt, Consumes;
    total, calls, accepted := 0, 0, [];
    NothingConsumed(script, |buf|);
    var nwr: int := 0;
    while |buf| > total
      invariant total <= |buf| && calls <= |script| && accepted == buf[..total]
      invariant buf == [] ==> calls == 0
      invariant total == Sent(script, calls, |buf|)
      invariant Consumes(script, calls, |buf|)
      invariant calls > 0 ==> !StopsAt(script, calls - 1, |buf|)
      invariant total == |buf| ==> nwr >= 0
      decreases |script| - calls
    {
      if calls == |script| {
        ending := Pending;
        return;
      }
      var r := script[calls];
      NextCall(script, calls, |buf|, total);
      calls := calls + 1;
      nwr := if r.Fails? then -1 else Taken(r, |buf| - total);
      if nwr <= 0 {
        if Errno(r) == EINTR {
          continue;
        }
        break;
      }
      accepted := accepted + buf[total..total + nwr];
      total := total + nwr;
    }
    ending := Returns(if nwr < 0 then nwr else total);
  }

  // ---- the chunks of writev_nbuf ----

  lemma {:induction false} ConcatAppend(mem: seq<bv8>, x: seq<Iovec>, v: Iovec)
    requires InMemory(mem, x) && v.base + v.len <= |mem|
    ensures InMemory(mem, x + [v]) && Concat(mem, x + [v]) == Concat(mem, x) + Bytes(mem, v)
    decreases |x|
  {
    hide Bytes, Concat;
    NoVector(mem);
    if x == [] {
      assert x + [v] == [v];
      FirstOf(mem, [v]);
    } else {
      ConcatAppend(mem, x[1..], v);
      assert (x + [v])[1..] == x[1..] + [v];
      FirstOf(mem, x);
      FirstOf(mem, x + [v]);
      assert InMemory(mem, x + [v]);
    }
  }

  lemma FirstOf(mem: seq<bv8>, iov: seq<Iovec>)
    requires iov != [] && InMemory(mem, iov)
    ensures Concat(mem, iov) == Bytes(mem, iov[0]) + Concat(mem, iov[1..])
  {
    hide Bytes;
  }

  /** Cuts `buf` into `numChunks` chunks. All chunks are filled and non-empty,
      all but the last have the same length, and together they are `buf`: the
      assertion after the loop holds. */
  method BuildChunks(buf: seq<bv8>, numChunks: nat) returns (iov: array<Iovec>)
    requires 1 < numChunks < |buf|
    ensures fresh(iov) && iov.Length == numChunks
    ensures InMemory(buf, iov[..]) && Concat(buf, iov[..]) == buf
    ensures forall i :: 0 <= i < numChunks - 1 ==> iov[i].len == |buf| / numChunks
    ensures forall i :: 0 <= i < numChunks ==> iov[i].len >= 1
  {
    hide Concat;
    NoVector(buf);
    var chunkLen := |buf| / numChunks;
    DivBound(|buf|, numChunks);
    iov := new Iovec[numChunks](_ => Iovec(0, 0));
    var p, nleft, i := 0, |buf|, 0;
    while i < numChunks && nleft > 0
      invariant 0 <= i <= numChunks && p + nleft == |buf| && nleft >= 0
      invariant i < numChunks ==> p == i * chunkLen && nleft > 0
      invariant i == numChunks ==> nleft == 0
      invariant InMemory(buf, iov[..i]) && Concat(buf, iov[..i]) == buf[..p]
      invariant forall k :: 0 <= k < i && k < numChunks - 1 ==> iov[k].len == chunkLen
      invariant forall k :: 0 <= k < i ==> iov[k].len >= 1
    {
      if i + 1 < numChunks {
        ChunkFits(|buf|, numChunks, chunkLen, i);
      }
      ghost var before := iov[..i];
      var v := Iovec(p, if i + 1 < numChunks then chunkLen else nleft);
      iov[i] := v;
      NextChunk(buf, before, p, v);
      assert iov[..i + 1] == before + [v];
      p := p + v.len;
      nleft := nleft - v.len;
      i := i + 1;
    }
    assert nleft == 0;
    assert iov[..i] == iov[..] && buf[..p] == buf;
  }

  lemma NextChunk(buf: seq<bv8>, before: seq<Iovec>, p: nat, v: Iovec)
    requires InMemory(buf, before) && p <= |buf| && Concat(buf, before) == buf[..p]
    requires v.base == p && p + v.len <= |buf|
    ensures InMemory(buf, before + [v]) && Concat(buf, before + [v]) == buf[..p + v.len]
  {
    hide Concat, InMemory;
    ConcatAppend(buf, before, v);
    assert buf[..p] + buf[p..p + v.len] == buf[..p + v.len];
  }

  lemma DivBound(len: nat, n: nat)
    requires 1 < n < len
    ensures len / n >= 1 && n * (len / n) <= len
  {
    assert len == n * (len / n) + len % n;
  }

  lemma ChunkFits(len: nat, n: nat, c: nat, i: nat)
    requires c >= 1 && n * c <= len && i + 1 < n
    ensures i * c + c == (i + 1) * c && (i + 1) * c < len
  {
    var others := n - i - 2;
    assert n * c == (i + 1) * c + c + others * c;
  }
}
