/** The extensible slot list of fdwatch/xvdat.c. */
module Xvlst {

  /** `ssize_t` is 64 bits wide; sizes beyond it are not modelled. */
  const SSIZE_MAX := 0x7FFF_FFFF_FFFF_FFFF

  const EALREADY := 114
  const ERANGE := 34

  // ---- the map of taken slots ----

  function CountTaken(taken: seq<bool>): (n: nat)
    ensures n <= |taken|
  {
    if taken == [] then 0 else CountTaken(taken[..|taken| - 1]) + if taken[|taken| - 1] then 1 else 0
  }

  /** `i` is the least free slot, or -1 when every slot is taken. */
  ghost predicate LeastFree(taken: seq<bool>, i: int) {
    if i == -1 then forall k :: 0 <= k < |taken| ==> taken[k]
    else 0 <= i < |taken| && !taken[i] && forall k :: 0 <= k < i ==> taken[k]
  }

  /** `n` more slots, all free. */
  function Extended(taken: seq<bool>, n: nat): (r: seq<bool>)
    ensures |r| == |taken| + n
  {
    taken + seq(n, _ => false)
  }

  lemma {:induction false} CountUpdate(taken: seq<bool>, i: nat, b: bool)
    requires i < |taken|
    ensures CountTaken(taken[i := b])
         == CountTaken(taken) - (if taken[i] then 1 else 0) + (if b then 1 else 0)
    decreases |taken|
  {
    var n := |taken| - 1;
    var upd := taken[i := b];
    if i < n {
      CountUpdate(taken[..n], i, b);
      assert upd[..n] == taken[..n][i := b];
    } else {
      assert upd[..n] == taken[..n];
    }
  }

  lemma {:induction false} CountExtended(taken: seq<bool>, n: nat)
    ensures CountTaken(Extended(taken, n)) == CountTaken(taken)
    decreases n
  {
    if n == 0 {
      assert Extended(taken, 0) == taken;
    } else {
      var ext := Extended(taken, n);
      assert ext[..|ext| - 1] == Extended(taken, n - 1);
      CountExtended(taken, n - 1);
    }
  }

  lemma ExtendNothing(taken: seq<bool>)
    ensures Extended(taken, 0) == taken
  {
  }

  /** The count reaches the size exactly when no slot is free. */
  lemma {:induction false} CountFull(taken: seq<bool>)
    ensures CountTaken(taken) == |taken| <==> forall k :: 0 <= k < |taken| ==> taken[k]
    decreases |taken|
  {
    if taken != [] {
      var n := |taken| - 1;
      CountFull(taken[..n]);
      assert forall k :: 0 <= k < n ==> taken[..n][k] == taken[k];
    }
  }

  lemma AvailInRange(taken: seq<bool>, i: int)
    requires LeastFree(taken, i) && taken != []
    ensures -1 <= i < |taken|
  {
  }

  lemma SomeFree(taken: seq<bool>, i: int)
    requires LeastFree(taken, i) && CountTaken(taken) < |taken|
    ensures 0 <= i < |taken|
  {
    CountFull(taken);
  }

  // ---- handles ----

  /** The handles that are out: the indices of the taken slots. */
  function Held(taken: seq<bool>): set<nat> {
    set k: nat | k < |taken| && taken[k]
  }

  /** `len` counts the handles that are out. */
  lemma {:induction false} CountIsCardinality(taken: seq<bool>)
    ensures CountTaken(taken) == |Held(taken)|
    decreases |taken|
  {
    if taken != [] {
      var n := |taken| - 1;
      CountIsCardinality(taken[..n]);
      assert Held(taken) == if taken[n] then Held(taken[..n]) + {n} else Held(taken[..n]);
    }
  }

  ghost predicate LeastUnheld(held: set<nat>, h: nat) {
    h !in held && forall k: nat :: k < h ==> k in held
  }

  /** Whatever the growth, `xvlst_add` hands out the least number that is not
      out already. */
  lemma AddHandsOutLeast(taken: seq<bool>, n: nat, i: nat)
    requires LeastFree(Extended(taken, n), i)
    ensures LeastUnheld(Held(taken), i)
    ensures Held(Extended(taken, n)[i := true]) == Held(taken) + {i}
  {
    var ext := Extended(taken, n);
    assert forall k :: 0 <= k < |ext| ==> ext[k] == (k < |taken| && taken[k]);
  }

  /** Growth neither hands out nor takes back a handle. */
  lemma GrowthKeepsHandles(taken: seq<bool>, n: nat)
    ensures Held(Extended(taken, n)) == Held(taken)
  {
    var ext := Extended(taken, n);
    assert forall k :: 0 <= k < |ext| ==> ext[k] == (k < |taken| && taken[k]);
  }

  lemma DelTakesBack(taken: seq<bool>, i: nat)
    requires i < |taken|
    ensures Held(taken[i := false]) == Held(taken) - {i}
  {
  }

  /** `OutOfRange` and `NotTaken` are the refusals of a deletion, `Reserved` is a
      reservation. */
  datatype Event = Added(h: nat) | Deleted(h: nat) | OutOfRange(h: nat) | NotTaken(h: nat) | Reserved

  function Apply(held: set<nat>, e: Event): set<nat> {
    match e
    case Added(h) => held + {h}
    case Deleted(h) => held - {h}
    case _ => held
  }

  function HeldAfter(held: set<nat>, events: seq<Event>): set<nat> {
    if events == [] then held else Apply(HeldAfter(held, events[..|events| - 1]), events[|events| - 1])
  }

  /** The high-water mark, from `mark` on: the greatest handle handed out. */
  function MarkAfter(mark: nat, events: seq<Event>): nat {
    if events == [] then mark
    else
      var before := MarkAfter(mark, events[..|events| - 1]);
      Raise(before, events[|events| - 1])
  }

  function Raise(mark: nat, e: Event): nat {
    if e.Added? && mark < e.h then e.h else mark
  }

  lemma {:induction false} MarkIsGreatest(mark: nat, events: seq<Event>)
    ensures mark <= MarkAfter(mark, events)
    ensures forall i :: 0 <= i < |events| && events[i].Added? ==> events[i].h <= MarkAfter(mark, events)
    ensures MarkAfter(mark, events) == mark || Added(MarkAfter(mark, events)) in events
    decreases |events|
  {
    if events != [] {
      var n := |events| - 1;
      MarkIsGreatest(mark, events[..n]);
      assert events == events[..n] + [events[n]];
    }
  }

  /** Every addition hands out the least number that is not out. */
  ghost predicate Allocates(held: set<nat>, events: seq<Event>) {
    forall i :: 0 <= i < |events| && events[i].Added? ==> LeastUnheld(HeldAfter(held, events[..i]), events[i].h)
  }

  /** No handle is handed out twice without having been deleted in between. */
  ghost predicate Exclusive(events: seq<Event>) {
    forall i, j :: 0 <= i < j < |events| && events[i].Added? && events[j] == events[i] ==>
      exists k :: i < k < j && events[k] == Deleted(events[i].h)
  }

  /** Main result, over every run. */
  lemma HandlesAreExclusive(held: set<nat>, events: seq<Event>)
    requires Allocates(held, events)
    ensures Exclusive(events)
  {
    forall i, j | 0 <= i < j < |events| && events[i].Added? && events[j] == events[i]
      ensures exists k :: i < k < j && events[k] == Deleted(events[i].h)
    {
      if forall k :: i < k < j ==> events[k] != Deleted(events[i].h) {
        StaysHeld(held, events, i, j);
      }
    }
  }

  lemma {:induction false} StaysHeld(held: set<nat>, events: seq<Event>, i: nat, j: nat)
    requires i < j <= |events| && events[i].Added?
    requires forall k :: i < k < j ==> events[k] != Deleted(events[i].h)
    ensures events[i].h in HeldAfter(held, events[..j])
    decreases j
  {
    assert events[..j][..j - 1] == events[..j - 1];
    if j > i + 1 {
      StaysHeld(held, events, i, j - 1);
    }
  }

  // ---- growth ----

  /** `nblk` of `xvec_reserve`. */
  function Rounded(newMax: nat, growblk: nat): nat
    requires newMax >= 1 && growblk >= 1
  {
    (1 + (newMax - 1) / growblk) * growblk
  }

  /** Growth rounds up to the least sufficient multiple of `growblk`. */
  lemma RoundedIsLeast(newMax: nat, growblk: nat)
    requires newMax >= 1 && growblk >= 1
    ensures newMax <= Rounded(newMax, growblk) < newMax + growblk
    ensures exists k: nat :: Rounded(newMax, growblk) == k * growblk
    ensures forall k: nat :: newMax <= k * growblk ==> Rounded(newMax, growblk) <= k * growblk
  {
    var q := (newMax - 1) / growblk;
    assert newMax - 1 == q * growblk + (newMax - 1) % growblk;
    assert Rounded(newMax, growblk) == q * growblk + growblk;
    forall k: nat | newMax <= k * growblk ensures Rounded(newMax, growblk) <= k * growblk {
      if k <= q {
        MulMonotone(k, q, growblk);
      } else {
        MulMonotone(1 + q, k, growblk);
      }
    }
  }

  lemma MulMonotone(a: nat, b: nat, c: nat)
    requires a <= b
    ensures a * c <= b * c
  {
  }

  // ---- the list ----

  class SlotList<T(0)> {
    var data: array<T>
    var len: nat
    var maxLen: nat
    var taken: array<bool>
    var last: nat
    var avail: int

    ghost predicate Valid()
      reads this, data, taken
    {
      && data.Length == maxLen && taken.Length == maxLen && maxLen <= SSIZE_MAX
      && data as object != taken
      && len == CountTaken(taken[..])
      && (maxLen == 0 ==> avail == 0 && last == 0)
      && (maxLen > 0 ==> LeastFree(taken[..], avail))
      && (forall k :: last < k < maxLen ==> !taken[k])
      && (maxLen > 0 ==> last < maxLen)
    }

    /** A zeroed structure. */
    constructor ()
      ensures Valid() && maxLen == 0 && fresh(data) && fresh(taken)
    {
      data := new T[0];
      taken := new bool[0];
      len, maxLen, last, avail := 0, 0, 0, 0;
    }

    /** `xvec_reserve` on the data part; reallocation succeeds and keeps the
        old contents. */
    method ReserveData(newMax: nat, growblk: nat)
      requires growblk >= 1 && newMax >= 1 && newMax + growblk <= SSIZE_MAX
      requires data.Length == maxLen
      modifies this`data, this`maxLen
      ensures maxLen == if newMax < old(maxLen) then old(maxLen) else Rounded(newMax, growblk)
      ensures data.Length == maxLen && newMax <= maxLen && old(maxLen) <= maxLen
      ensures data[..old(maxLen)] == old(data[..])
      ensures if newMax < old(maxLen) then data == old(data) else fresh(data)
    {
      if newMax < maxLen {
        return;
      }
      RoundedIsLeast(newMax, growblk);
      var nblk := (1 + (newMax - 1) / growblk) * growblk;
      var p := new T[nblk];
      forall i | 0 <= i < maxLen {
        p[i] := data[i];
      }
      data := p;
      maxLen := nblk;
    }

    /** `xvlst_reserve`: nothing when large enough; otherwise the list grows to
        the least sufficient multiple of `growblk`, the new slots are free and
        the old ones keep their state and data. */
    method Reserve(newMax: nat, growblk: nat)
      requires Valid() && growblk >= 1 && newMax + growblk <= SSIZE_MAX
      modifies this
      ensures Valid()
      ensures maxLen == if old(maxLen) >= newMax then old(maxLen) else Rounded(newMax, growblk)
      ensures maxLen >= old(maxLen) && maxLen >= newMax
      ensures taken[..] == Extended(old(taken[..]), maxLen - old(maxLen))
      ensures data[..old(maxLen)] == old(data[..])
      ensures len == old(len)
      ensures last == old(last) && (maxLen == old(maxLen) ==> avail == old(avail))
      ensures (data == old(data) && taken == old(taken)) || (fresh(data) && fresh(taken))
    {
      ExtendNothing(taken[..]);
      if maxLen >= newMax {
        return;
      }
      var oldMax := maxLen;
      ghost var was := taken[..];
      RoundedIsLeast(newMax, growblk);
      ReserveData(newMax, growblk);
      GrowTaken();
      CountExtended(was, maxLen - oldMax);
      if avail < 0 {
        avail := oldMax;
      }
    }

    /** The reallocation of `taken` to `max_len` entries, the new ones zeroed. */
    method GrowTaken()
      requires taken.Length <= maxLen
      modifies this`taken
      ensures fresh(taken) && taken[..] == Extended(old(taken[..]), maxLen - old(taken.Length))
    {
      var t := new bool[maxLen];
      forall i | 0 <= i < maxLen {
        t[i] := if i < taken.Length then taken[i] else false;
      }
      taken := t;
    }

    /** `xvlst_expand`. */
    method Expand(plus: nat, growblk: nat)
      requires Valid() && plus >= 1 && growblk >= 1 && len + plus + growblk <= SSIZE_MAX
      modifies this
      ensures Valid()
      ensures maxLen == if old(maxLen) >= old(len) + plus then old(maxLen) else Rounded(old(len) + plus, growblk)
      ensures maxLen >= old(maxLen) && maxLen >= len + plus
      ensures taken[..] == Extended(old(taken[..]), maxLen - old(maxLen))
      ensures data[..old(maxLen)] == old(data[..])
      ensures len == old(len) && last == old(last)
      ensures (data == old(data) && taken == old(taken)) || (fresh(data) && fresh(taken))
    {
      Reserve(len + plus, growblk);
    }

    /** `xvlst_add`: takes the least free slot, growing the list when it is
        full. The list must have been reserved once. */
    method Add(growblk: nat) returns (i: nat)
      requires Valid() && maxLen > 0 && growblk >= 1 && len + 1 + growblk <= SSIZE_MAX
      modifies this, taken
      ensures Valid()
      ensures maxLen == if old(len) == old(maxLen) then Rounded(old(len) + 1, growblk) else old(maxLen)
      ensures maxLen >= old(maxLen)
      ensures LeastUnheld(Held(old(taken[..])), i)
      ensures Held(taken[..]) == Held(old(taken[..])) + {i}
      ensures taken[..] == Extended(old(taken[..]), maxLen - old(maxLen))[i := true]
      ensures len == old(len) + 1
      ensures last == if old(last) < i then i else old(last)
      ensures data[..old(maxLen)] == old(data[..])
      ensures (data == old(data) && taken == old(taken)) || (fresh(data) && fresh(taken))
    {
      hide CountTaken, Extended, Held, LeastUnheld, Rounded, LeastFree;
      ghost var was, wasMax := taken[..], maxLen;
      assert avail < maxLen by { AvailInRange(was, avail); }
      Expand(1, growblk);
      SomeFree(taken[..], avail);
      AddHandsOutLeast(was, maxLen - wasMax, avail);
      i := TakeAvail();
    }

    /** The part of `xvlst_add` after the growth: take slot `avail` and look for
        the next free one. */
    method TakeAvail() returns (i: nat)
      requires Valid() && maxLen > 0 && avail >= 0
      modifies this`last, this`avail, this`len, taken
      ensures Valid()
      ensures i == old(avail)
      ensures taken[..] == old(taken[..])[i := true]
      ensures len == old(len) + 1
      ensures last == if old(last) < i then i else old(last)
    {
      hide CountTaken;
      ghost var was := taken[..];
      i := avail;
      CountUpdate(was, i, true);
      taken[i] := true;
      assert taken[..] == was[i := true];
      if last < i {
        last := i;
      }
      if i == last {
        avail := i + 1;
        if avail >= maxLen {
          avail := -1;
        } else {
          assert !taken[avail];
        }
      } else if !taken[i + 1] {
        avail := i + 1;
      } else {
        avail := FirstFreeFrom(i + 1);
      }
      len := len + 1;
    }

    /** `memchr(&taken[from], 0, max_len - from)`: the first free slot. */
    method FirstFreeFrom(from: nat) returns (i: int)
      requires from <= taken.Length
      ensures if i == -1 then forall k :: from <= k < taken.Length ==> taken[k]
              else from <= i < taken.Length && !taken[i] && forall k :: from <= k < i ==> taken[k]
    {
      i := from;
      while i < taken.Length
        invariant from <= i <= taken.Length
        invariant forall k :: from <= k < i ==> taken[k]
      {
        if !taken[i] {
          return;
        }
        i := i + 1;
      }
      i := -1;
    }

    /** `xvlst_del`; only slot 0 of a zeroed list cannot be asked for. */
    method Del(index: nat) returns (rc: int)
      requires Valid() && (maxLen > 0 || index > 0)
      modifies this`avail, this`len, taken
      ensures Valid()
      ensures rc == if index > last then ERANGE else if old(taken[index]) then 0 else EALREADY
      ensures rc != 0 ==> taken[..] == old(taken[..]) && len == old(len) && avail == old(avail)
      ensures rc == 0 ==> taken[..] == old(taken[..])[index := false] && len == old(len) - 1
      ensures Held(taken[..]) == Held(old(taken[..])) - {index}
    {
      if index > last {
        return ERANGE;
      }
      if !taken[index] {
        return EALREADY;
      }
      ghost var was := taken[..];
      CountUpdate(was, index, false);
      DelTakesBack(was, index);
      taken[index] := false;
      assert taken[..] == was[index := false];
      if avail < 0 || index < avail {
        avail := index;
      }
      assert len > 0;
      len := len - 1;
      return 0;
    }
  }

  // ---- runs of the list ----

  datatype Request = AddOne(growblk: nat) | DelAt(index: nat) | ReserveTo(newMax: nat, growblk: nat)

  /** The sizes that the request asks of a list of at most `len` handles are
      within `ssize_t`. */
  predicate Fits(r: Request, len: nat) {
    match r
    case AddOne(growblk) => growblk >= 1 && len + 1 + growblk <= SSIZE_MAX
    case DelAt(_) => true
    case ReserveTo(newMax, growblk) => growblk >= 1 && newMax + growblk <= SSIZE_MAX
  }

  /** The event is an outcome of the request on the given handles, when `mark` is
      the greatest handle handed out so far. */
  ghost predicate Answers(r: Request, e: Event, held: set<nat>, mark: nat) {
    match r
    case AddOne(_) => e.Added? && LeastUnheld(held, e.h)
    case DelAt(index) =>
      e == if index > mark then OutOfRange(index) else if index in held then Deleted(index) else NotTaken(index)
    case ReserveTo(_, _) => e == Reserved
  }

  /** Every event is an outcome of its request. */
  ghost predicate Served(requests: seq<Request>, events: seq<Event>, held: set<nat>, mark: nat) {
    && |events| <= |requests|
    && forall i :: 0 <= i < |events| ==>
         Answers(requests[i], events[i], HeldAfter(held, events[..i]), MarkAfter(mark, events[..i]))
  }

  lemma ServedNext(requests: seq<Request>, events: seq<Event>, held: set<nat>, mark: nat, e: Event)
    requires |events| < |requests| && Served(requests, events, held, mark)
    requires Answers(requests[|events|], e, HeldAfter(held, events), MarkAfter(mark, events))
    ensures Served(requests, events + [e], held, mark)
  {
    hide Answers;
    var longer := events + [e];
    assert longer[..|events|] == events;
    assert forall i :: 0 <= i < |events| ==> longer[..i] == events[..i];
  }

  lemma AllocatesNext(held: set<nat>, events: seq<Event>, e: Event)
    requires Allocates(held, events)
    requires e.Added? ==> LeastUnheld(HeldAfter(held, events), e.h)
    ensures Allocates(held, events + [e])
    ensures HeldAfter(held, events + [e]) == Apply(HeldAfter(held, events), e)
    ensures forall mark: nat :: MarkAfter(mark, events + [e]) == Raise(MarkAfter(mark, events), e)
  {
    hide LeastUnheld, Apply;
    var longer := events + [e];
    assert longer[..|events|] == events;
    forall i | 0 <= i < |longer| && longer[i].Added?
      ensures LeastUnheld(HeldAfter(held, longer[..i]), longer[i].h)
    {
      if i < |events| {
        assert longer[..i] == events[..i];
      }
    }
  }

  /** Serves one request on a list that has been reserved once. */
  method Serve<T(0)>(list: SlotList<T>, r: Request) returns (e: Event)
    requires list.Valid() && list.maxLen > 0 && Fits(r, list.len)
    modifies list, list.taken
    ensures list.Valid() && list.maxLen > 0 && list.len <= old(list.len) + 1
    ensures list.taken == old(list.taken) || fresh(list.taken)
    ensures Answers(r, e, Held(old(list.taken[..])), old(list.last))
    ensures list.last == Raise(old(list.last), e)
    ensures Held(list.taken[..]) == Apply(Held(old(list.taken[..])), e)
  {
    hide CountTaken, Extended, LeastUnheld, Rounded, LeastFree;
    match r
    case AddOne(growblk) =>
      var h := list.Add(growblk);
      e := Added(h);
    case DelAt(index) =>
      var rc := list.Del(index);
      e := if rc == 0 then Deleted(index) else if rc == ERANGE then OutOfRange(index) else NotTaken(index);
    case ReserveTo(newMax, growblk) =>
      ghost var was, wasMax := list.taken[..], list.maxLen;
      list.Reserve(newMax, growblk);
      GrowthKeepsHandles(was, list.maxLen - wasMax);
      e := Reserved;
  }

  /** The list itself allocates like that: any script of requests gives such a
      run, and so no handle is handed out twice without a successful deletion
      in between. */
  method ServeAll<T(0)>(list: SlotList<T>, requests: seq<Request>) returns (events: seq<Event>)
    requires list.Valid() && list.maxLen > 0
    requires forall i :: 0 <= i < |requests| ==> Fits(requests[i], list.len + |requests|)
    modifies list, list.taken
    ensures list.Valid() && |events| == |requests|
    ensures Served(requests, events, Held(old(list.taken[..])), old(list.last))
    ensures list.last == MarkAfter(old(list.last), events)
    ensures Allocates(Held(old(list.taken[..])), events)
    ensures Held(list.taken[..]) == HeldAfter(Held(old(list.taken[..])), events)
    ensures Exclusive(events)
  {
    hide Served, Answers, Allocates, Held, HeldAfter, LeastUnheld, Apply, Fits, Exclusive;
    events := [];
    ghost var held, mark := Held(list.taken[..]), list.last;
    NewRun(requests, held, mark);
    while |events| < |requests|
      invariant list.Valid() && list.maxLen > 0 && list.len <= old(list.len) + |events|
      invariant list.taken == old(list.taken) || fresh(list.taken)
      invariant |events| <= |requests|
      invariant Served(requests, events, held, mark) && list.last == MarkAfter(mark, events)
      invariant Allocates(held, events) && Held(list.taken[..]) == HeldAfter(held, events)
      decreases |requests| - |events|
    {
      var n := |events|;
      FitsLess(requests[n], list.len, old(list.len) + |requests|);
      var e := Serve(list, requests[n]);
      AnswerAdds(requests[n], e, HeldAfter(held, events), MarkAfter(mark, events));
      AllocatesNext(held, events, e);
      ServedNext(requests, events, held, mark, e);
      events := events + [e];
    }
    HandlesAreExclusive(held, events);
  }

  lemma AnswerAdds(r: Request, e: Event, held: set<nat>, mark: nat)
    requires Answers(r, e, held, mark)
    ensures e.Added? ==> LeastUnheld(held, e.h)
  {
  }

  lemma NewRun(requests: seq<Request>, held: set<nat>, mark: nat)
    ensures Allocates(held, []) && HeldAfter(held, []) == held && Served(requests, [], held, mark) && MarkAfter(mark, []) == mark
  {
  }

  lemma FitsLess(r: Request, len: nat, bound: nat)
    requires Fits(r, bound) && len <= bound
    ensures Fits(r, len)
  {
  }
}
