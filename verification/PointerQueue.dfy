/** The bounded queue of queue/queue.c: a circular array that is a FIFO. */
module PointerQueue {

  datatype Option<T> = None | Some(value: T)

  class Queue<T(0)> {
    const data: array<T>
    const maxCount: nat
    var count: nat
    var head: int
    var tail: int

    ghost predicate Valid()
      reads this
    {
      && data.Length == maxCount && count <= maxCount
      && if count == 0 then head == -1 && tail == -1
         else 0 <= head < maxCount && 0 <= tail < maxCount
              && tail == (if head + count - 1 < maxCount then head + count - 1 else head + count - 1 - maxCount)
    }

    /** The position `k` places behind the head. */
    ghost function Slot(k: nat): nat
      requires Valid() && k < count
      reads this
    {
      if head + k < maxCount then head + k else head + k - maxCount
    }

    /** The queued items, oldest first. */
    ghost function Contents(): (s: seq<T>)
      requires Valid()
      reads this, data
      ensures |s| == count
    {
      seq(count, k requires 0 <= k < count && Valid() reads this, data => data[Slot(k)])
    }

    /** `pqueue_create`; allocation succeeds. */
    constructor (capacity: nat)
      ensures Valid() && maxCount == capacity && Contents() == [] && fresh(data)
    {
      data := new T[capacity];
      maxCount := capacity;
      count := 0;
      head, tail := -1, -1;
    }

    /** `pqueue_count`. */
    method Count() returns (n: nat)
      requires Valid()
      ensures n == |Contents()|
    {
      n := count;
    }

    /** `pqueue_is_empty`. */
    method IsEmpty() returns (empty: bool)
      requires Valid()
      ensures empty <==> Contents() == []
    {
      empty := 0 == count;
    }

    /** `pqueue_get`: the oldest item, or nothing (errno ENOENT) when empty. */
    method Get() returns (val: Option<T>)
      requires Valid()
      modifies this
      ensures Valid()
      ensures old(Contents()) == [] <==> val == None
      ensures Contents() == if val.None? then old(Contents()) else old(Contents())[1..]
      ensures val.Some? ==> val.value == old(Contents())[0]
    {
      if 0 == count {
        return None;
      }
      ghost var was := Contents();
      assert 0 <= head < maxCount;
      val := Some(data[head]);
      count := count - 1;
      if 0 == count {
        head, tail := -1, -1;
      } else {
        head := head + 1;
        if head >= maxCount {
          head := 0;
        }
      }
      assert Contents() == was[1..];
    }

    /** `pqueue_put`: false (errno ENOMEM) exactly when the queue is full. */
    method Put(val: T) returns (ok: bool)
      requires Valid()
      modifies this, data
      ensures Valid()
      ensures ok <==> |old(Contents())| < maxCount
      ensures Contents() == if ok then old(Contents()) + [val] else old(Contents())
    {
      if count >= maxCount {
        return false;
      }
      ghost var was := Contents();
      count := count + 1;
      if 1 == count {
        head, tail := 0, 0;
      } else {
        tail := tail + 1;
        if tail >= maxCount {
          tail := 0;
        }
      }
      assert 0 <= tail < maxCount;
      data[tail] := val;
      assert Contents() == was + [val];
      return true;
    }

    /** The traversal of `pqueue_dump`. */
    method Dump() returns (visited: seq<T>)
      requires Valid()
      ensures visited == Contents()
    {
      visited := [];
      var n, i := 0, head;
      while n < count
        invariant 0 <= n <= count && visited == Contents()[..n]
        invariant i == if head + n <= maxCount then head + n else head + n - maxCount
      {
        if i >= maxCount {
          i := 0;
        }
        visited := visited + [data[i]];
        n := n + 1;
        i := i + 1;
      }
    }
  }

  // ---- whole runs ----

  datatype Event<T> = PutDone(val: T) | PutFull | GotItem(val: T) | GetEmpty

  function Accepted<T>(events: seq<Event<T>>): seq<T> {
    if events == [] then []
    else
      var e := events[|events| - 1];
      Accepted(events[..|events| - 1]) + if e.PutDone? then [e.val] else []
  }

  function Gotten<T>(events: seq<Event<T>>): seq<T> {
    if events == [] then []
    else
      var e := events[|events| - 1];
      Gotten(events[..|events| - 1]) + if e.GotItem? then [e.val] else []
  }

  /** One call on a queue with the given contents, as `Put` and `Get` specify. */
  ghost predicate Call<T>(contents: seq<T>, e: Event<T>, capacity: nat, contents': seq<T>) {
    match e
    case PutDone(val) => |contents| < capacity && contents' == contents + [val]
    case PutFull => |contents| >= capacity && contents' == contents
    case GotItem(val) => contents != [] && val == contents[0] && contents' == contents[1..]
    case GetEmpty => contents == [] && contents' == contents
  }

  /** `states[i]` are the contents before call `i` on a new queue. */
  ghost predicate Run<T>(states: seq<seq<T>>, events: seq<Event<T>>, capacity: nat) {
    && |states| == |events| + 1 && states[0] == []
    && forall i :: 0 <= i < |events| ==> Call(states[i], events[i], capacity, states[i + 1])
  }

  /** Main result: over every run, what has been accepted is what has been got
      followed by what is queued; so the values come out in the order in which
      they went in, and the queue never exceeds its capacity. */
  lemma {:induction false} Fifo<T>(states: seq<seq<T>>, events: seq<Event<T>>, capacity: nat)
    requires Run(states, events, capacity)
    ensures Accepted(events) == Gotten(events) + states[|events|]
    ensures Gotten(events) <= Accepted(events)
    ensures |states[|events|]| <= capacity
    decreases |events|
  {
    if events != [] {
      hide Call;
      var n := |events| - 1;
      assert Run(states[..n + 1], events[..n], capacity);
      Fifo(states[..n + 1], events[..n], capacity);
      FifoNext(states[n], events[n], capacity, states[n + 1], Gotten(events[..n]));
    }
  }

  /** One call moves no item past another. */
  lemma FifoNext<T>(contents: seq<T>, e: Event<T>, capacity: nat, contents': seq<T>, gotten: seq<T>)
    requires Call(contents, e, capacity, contents') && |contents| <= capacity
    ensures (gotten + contents) + (if e.PutDone? then [e.val] else [])
         == (gotten + if e.GotItem? then [e.val] else []) + contents'
    ensures |contents'| <= capacity
  {
    if e.GotItem? {
      assert contents == [contents[0]] + contents';
    }
  }

  datatype Request<T> = PutItem(val: T) | GetItem

  /** The event is an outcome of the request. */
  ghost predicate Answers<T>(r: Request<T>, e: Event<T>) {
    match r
    case PutItem(val) => e == PutDone(val) || e == PutFull
    case GetItem => e.GotItem? || e == GetEmpty
  }

  lemma RunNext<T>(states: seq<seq<T>>, events: seq<Event<T>>, capacity: nat, e: Event<T>, contents: seq<T>)
    requires Run(states, events, capacity) && Call(states[|events|], e, capacity, contents)
    ensures Run(states + [contents], events + [e], capacity)
  {
    hide Call;
  }

  /** Serves one request. */
  method Serve<T(0)>(q: Queue<T>, r: Request<T>) returns (e: Event<T>)
    requires q.Valid()
    modifies q, q.data
    ensures q.Valid() && Answers(r, e)
    ensures Call(old(q.Contents()), e, q.maxCount, q.Contents())
  {
    match r
    case PutItem(val) =>
      var ok := q.Put(val);
      e := if ok then PutDone(val) else PutFull;
    case GetItem =>
      var got := q.Get();
      e := if got.Some? then GotItem(got.value) else GetEmpty;
  }

  /** The queue itself makes such runs: any script of requests on a new queue
      gives one, and so its values come out in order. */
  method ServeAll<T(0)>(capacity: nat, requests: seq<Request<T>>)
    returns (q: Queue<T>, events: seq<Event<T>>, ghost states: seq<seq<T>>)
    ensures q.Valid() && q.maxCount == capacity
    ensures |events| == |requests| && forall i :: 0 <= i < |events| ==> Answers(requests[i], events[i])
    ensures Run(states, events, capacity) && states[|events|] == q.Contents()
    ensures Accepted(events) == Gotten(events) + q.Contents()
  {
    hide Answers, Call, Run, Accepted, Gotten;
    q := new Queue(capacity);
    events, states := [], [[]];
    NewRun<T>(capacity);
    while |events| < |requests|
      invariant q.Valid() && q.maxCount == capacity && fresh(q) && fresh(q.data)
      invariant |events| <= |requests|
      invariant forall i :: 0 <= i < |events| ==> Answers(requests[i], events[i])
      invariant |states| == |events| + 1 && Run(states, events, capacity)
      invariant states[|events|] == q.Contents()
      decreases |requests| - |events|
    {
      var e := Serve(q, requests[|events|]);
      RunNext(states, events, capacity, e, q.Contents());
      events, states := events + [e], states + [q.Contents()];
    }
    Fifo(states, events, capacity);
  }

  lemma NewRun<T>(capacity: nat)
    ensures Run<T>([[]], [], capacity)
  {
  }
}
