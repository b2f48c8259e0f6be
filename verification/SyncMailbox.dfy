/** The background-sync mailbox of wal/wbuft.c: one slot under a mutex, one
    client that posts requests and finally stops the worker, one worker that
    performs them and coalesces those it finds overwritten. */
module SyncMailbox {

  /** The values of `state`: sQUIT, sWAIT, sSYNC. */
  datatype Slot = QUIT | WAIT | SYNC

  /** `g_st` without its mutex and condition. */
  datatype Mail = Mail(slot: Slot, fd: int, flags: nat)

  /** What the mailbox holds when it is not waiting. */
  datatype Request = Request(quit: bool, fd: int, flags: nat)

  function Held(m: Mail): Request {
    Request(m.slot == QUIT, m.fd, m.flags)
  }

  /** `fd_sync` knows sync types 0, 1 and 2 and asserts on 3. */
  predicate Syncable(flags: nat) {
    flags % 4 != 3
  }

  /** How a segment of the worker ends: asleep, or out of the loop. */
  datatype WorkerEnd = Sleeping | Exiting

  datatype Segment = Segment(mail: Mail, performed: seq<Request>, end: WorkerEnd)

  /** The worker from taking the mutex (or waking up) to its next wait or its
      exit; `ok` is whether `fd_sync` succeeds. */
  function WorkerSegment(m: Mail, ok: bool): Segment {
    if m.slot == WAIT then Segment(m, [], Sleeping)
    else if !ok then Segment(m, [], Exiting)
    else if m.slot == QUIT then Segment(m, [Held(m)], Exiting)
    else Segment(m.(slot := WAIT), [Held(m)], Sleeping)
  }

  /** The shared structure, updated in place. */
  class SyncState {
    var slot: Slot
    var fd: int
    var flags: nat

    constructor ()
      ensures Contents() == Mail(WAIT, -1, 0)
    {
      slot, fd, flags := WAIT, -1, 0;
    }

    function Contents(): Mail
      reads this
    {
      Mail(slot, fd, flags)
    }

    /** `toggle_sync_thread` under the mutex. */
    method Toggle(newFd: int, newFlags: nat, newSlot: Slot)
      modifies this
      ensures Contents() == Mail(newSlot, newFd, newFlags)
    {
      fd := newFd;
      flags := newFlags;
      slot := newSlot;
    }

    /** The loops of `thread_run` up to the next wait or the exit; `nsync`
        counts the syncs of this segment. */
    method ThreadRun(ok: bool) returns (performed: seq<Request>, nsync: nat, end: WorkerEnd)
      requires slot != WAIT ==> Syncable(flags)
      modifies this
      ensures Segment(Contents(), performed, end) == WorkerSegment(old(Contents()), ok)
      ensures nsync == |performed|
    {
      performed, nsync := [], 0;
      while true
        invariant nsync == |performed|
        invariant slot == WAIT || (Contents() == old(Contents()) && performed == [])
        invariant slot == WAIT ==> WorkerSegment(old(Contents()), ok) == Segment(Contents(), performed, Sleeping)
        decreases slot != WAIT
      {
        if slot == WAIT {
          return performed, nsync, Sleeping;
        }
        if slot == SYNC || slot == QUIT {
          assert Syncable(flags);
          if !ok {
            break;
          }
          performed := performed + [Held(Contents())];
          nsync := nsync + 1;
        }
        if slot == QUIT {
          break;
        } else {
          slot := WAIT;
        }
      }
      end := Exiting;
    }
  }

  // ---- the protocol ----

  /** `failed` says that the worker has left because `fd_sync` failed. */
  datatype Worker = NotStarted | Asleep(signalled: bool) | Exited(failed: bool)
  datatype Client = Running | Joining | Joined

  /** `issued` and `performed` are the histories of requests and syncs,
      `overwritten` counts the requests that a later one replaced. */
  datatype State = State(mail: Mail, worker: Worker, client: Client,
                         issued: seq<Request>, performed: seq<Request>, overwritten: nat)

  datatype Step =
    | PostSync(fd: int, flags: nat)
    | PostQuit
    | Join
    | WorkerRuns(ok: bool)

  /** The client posts syncs, stops the worker once and then joins it. The
      worker may run when it has just been created, and, asleep, at any time: a
      spurious wake-up is a run without a signal. */
  predicate Enabled(s: State, step: Step) {
    match step
    case PostSync(_, flags) => s.client.Running? && Syncable(flags)
    case PostQuit => s.client.Running?
    case Join => s.client.Joining? && s.worker.Exited?
    case WorkerRuns(_) => !s.worker.Exited?
  }

  /** `toggle_sync_thread`: the slot is overwritten and the worker signalled. */
  function Post(s: State, m: Mail): State {
    s.(mail := m,
       worker := if s.worker.Asleep? then Asleep(true) else s.worker,
       issued := s.issued + [Held(m)],
       overwritten := s.overwritten + if Pending(s) then 1 else 0)
  }

  /** The slot holds a request that has not been performed. */
  predicate Pending(s: State) {
    s.mail.slot != WAIT && s.worker != Exited(false)
  }

  function Next(s: State, step: Step): State
    requires Enabled(s, step)
  {
    match step
    case PostSync(fd, flags) => Post(s, Mail(SYNC, fd, flags))
    case PostQuit => Post(s, Mail(QUIT, -1, 0)).(client := Joining)
    case Join => s.(client := Joined)
    case WorkerRuns(ok) =>
      var e := WorkerSegment(s.mail, ok);
      s.(mail := e.mail, performed := s.performed + e.performed,
         worker := if e.end.Sleeping? then Asleep(false) else Exited(!ok))
  }

  ghost predicate Init(s: State) {
    s == State(Mail(WAIT, -1, 0), NotStarted, Running, [], [], 0)
  }

  ghost predicate Run(states: seq<State>, steps: seq<Step>) {
    && |states| == |steps| + 1 && Init(states[0])
    && forall i :: 0 <= i < |steps| ==> Enabled(states[i], steps[i]) && states[i + 1] == Next(states[i], steps[i])
  }

  // ---- subsequences ----

  predicate Subsequence(a: seq<Request>, b: seq<Request>)
    decreases |b|
  {
    a == [] || (b != [] && (Subsequence(a, b[..|b| - 1])
                            || (a[|a| - 1] == b[|b| - 1] && Subsequence(a[..|a| - 1], b[..|b| - 1]))))
  }

  lemma SubsequenceSkip(a: seq<Request>, b: seq<Request>, r: Request)
    requires Subsequence(a, b)
    ensures Subsequence(a, b + [r])
  {
    assert (b + [r])[..|b|] == b;
  }

  lemma SubsequenceTake(a: seq<Request>, b: seq<Request>, r: Request)
    requires Subsequence(a, b)
    ensures Subsequence(a + [r], b + [r])
  {
    assert (b + [r])[..|b|] == b && (a + [r])[..|a|] == a;
  }

  // ---- what every run keeps ----

  ghost predicate Safe(s: State) {
    && (s.mail.slot != WAIT ==> Syncable(s.mail.flags))
    && (s.worker == Asleep(false) ==> s.mail.slot == WAIT)
    && (s.client.Running? <==> s.mail.slot != QUIT)
    && (s.worker == Exited(false) ==> s.mail.slot == QUIT)
  }

  ghost predicate Conserved(s: State) {
    && |s.issued| == |s.performed| + s.overwritten + (if Pending(s) then 1 else 0)
    && if Pending(s)
       then s.issued != [] && s.issued[|s.issued| - 1] == Held(s.mail)
            && Subsequence(s.performed, s.issued[..|s.issued| - 1])
       else Subsequence(s.performed, s.issued)
            && (s.issued != [] ==> s.performed != [] && s.performed[|s.performed| - 1] == s.issued[|s.issued| - 1])
  }

  lemma NextSafe(s: State, step: Step)
    requires Safe(s) && Enabled(s, step)
    ensures Safe(Next(s, step))
  {
  }

  lemma NextConserved(s: State, step: Step)
    requires Safe(s) && Conserved(s) && Enabled(s, step)
    ensures Conserved(Next(s, step))
  {
    hide Subsequence;
    var s' := Next(s, step);
    match step
    case PostSync(_, _) => PostConserved(s, s'.mail);
    case PostQuit => PostConserved(s, s'.mail);
    case Join =>
    case WorkerRuns(ok) =>
      if s.mail.slot != WAIT && ok {
        var n := |s.issued| - 1;
        assert s.issued == s.issued[..n] + [s.issued[n]];
        SubsequenceTake(s.performed, s.issued[..n], Held(s.mail));
      } else {
        assert s'.performed == s.performed;
      }
  }

  lemma PostConserved(s: State, m: Mail)
    requires Conserved(s) && s.worker != Exited(false) && m.slot != WAIT
    ensures Conserved(Post(s, m))
  {
    hide Subsequence;
    var n := |s.issued|;
    assert (s.issued + [Held(m)])[..n] == s.issued;
    if Pending(s) {
      assert s.issued == s.issued[..n - 1] + [s.issued[n - 1]];
      SubsequenceSkip(s.performed, s.issued[..n - 1], s.issued[n - 1]);
    }
  }

  lemma {:induction false} RunSafe(states: seq<State>, steps: seq<Step>, i: nat)
    requires Run(states, steps) && i < |states|
    ensures Safe(states[i])
  {
    if i > 0 {
      RunSafe(states, steps, i - 1);
      NextSafe(states[i - 1], steps[i - 1]);
    }
  }

  lemma {:induction false} RunConserved(states: seq<State>, steps: seq<Step>, i: nat)
    requires Run(states, steps) && i < |states|
    ensures Conserved(states[i])
  {
    if i > 0 {
      RunConserved(states, steps, i - 1);
      RunSafe(states, steps, i - 1);
      NextConserved(states[i - 1], steps[i - 1]);
    }
  }

  /** Main result: in every run, failing syncs included, requests issued are syncs
      performed plus requests overwritten plus the one that is pending; syncs
      are performed in the order of the requests; the last request is the one
      that is pending, or the last one performed. */
  lemma Conservation(states: seq<State>, steps: seq<Step>, i: nat)
    requires Run(states, steps) && i < |states|
    ensures var s := states[i];
      && |s.issued| == |s.performed| + s.overwritten + (if Pending(s) then 1 else 0)
      && Subsequence(s.performed, s.issued)
      && (Pending(s) ==> s.issued != [] && s.issued[|s.issued| - 1] == Held(s.mail))
      && (!Pending(s) && s.issued != [] ==> s.performed != [] && s.performed[|s.performed| - 1] == s.issued[|s.issued| - 1])
  {
    RunConserved(states, steps, i);
    var s := states[i];
    if Pending(s) {
      var n := |s.issued| - 1;
      SubsequenceSkip(s.performed, s.issued[..n], s.issued[n]);
      assert s.issued == s.issued[..n] + [s.issued[n]];
    }
  }

  /** Main result: what one step issues and performs. A sync request is issued as
      it was given, the quit request with descriptor -1; the worker performs
      what the slot holds exactly when `fd_sync` succeeds, clears it exactly
      after a sync request, and exits exactly after a quit or a failure. */
  lemma StepAnswers(s: State, step: Step)
    requires Enabled(s, step)
    ensures match step
      case PostSync(fd, flags) =>
        var s' := Next(s, step);
        s'.issued == s.issued + [Request(false, fd, flags)] && s'.performed == s.performed && s'.mail == Mail(SYNC, fd, flags)
      case PostQuit =>
        var s' := Next(s, step);
        s'.issued == s.issued + [Request(true, -1, 0)] && s'.performed == s.performed && s'.mail == Mail(QUIT, -1, 0)
      case Join => Next(s, step) == s.(client := Joined)
      case WorkerRuns(ok) =>
        var (s', slot) := (Next(s, step), s.mail.slot);
        && s'.issued == s.issued && s'.overwritten == s.overwritten
        && s'.performed == (if slot == WAIT || !ok then s.performed
                            else s.performed + [Request(slot == QUIT, s.mail.fd, s.mail.flags)])
        && s'.mail == Mail(if slot == SYNC && ok then WAIT else slot, s.mail.fd, s.mail.flags)
        && (s'.worker.Exited? <==> slot == QUIT || (slot == SYNC && !ok))
        && (s'.worker == Exited(true) <==> slot != WAIT && !ok)
  {
  }

  /** Main result: after a sync has failed nothing is ever performed again, and
      the last request issued stays undone. */
  lemma {:induction false} FailureIsFinal(states: seq<State>, steps: seq<Step>, i: nat, j: nat)
    requires Run(states, steps) && i <= j < |states| && states[i].worker == Exited(true)
    ensures states[j].worker == Exited(true) && states[j].performed == states[i].performed
    ensures Pending(states[j]) && states[j].issued != []
    ensures states[j].issued[|states[j].issued| - 1] == Held(states[j].mail)
    decreases j
  {
    RunConserved(states, steps, j);
    RunSafe(states, steps, j);
    if i < j {
      FailureIsFinal(states, steps, i, j - 1);
    } else {
      FailedSlot(states, steps, i);
    }
  }

  lemma {:induction false} FailedSlot(states: seq<State>, steps: seq<Step>, i: nat)
    requires Run(states, steps) && i < |states| && states[i].worker == Exited(true)
    ensures states[i].mail.slot != WAIT
  {
    if i > 0 && states[i - 1].worker == Exited(true) {
      FailedSlot(states, steps, i - 1);
    }
  }

  /** Main result: the worker is never asleep unsignalled with a request in the
      slot. */
  lemma NoLostRequest(states: seq<State>, steps: seq<Step>, i: nat)
    requires Run(states, steps) && i < |states|
    ensures states[i].mail.slot != WAIT ==> states[i].worker != Asleep(false)
  {
    RunSafe(states, steps, i);
  }

  /** Main result: the quit request is never overwritten, and the worker exits
      the next time it runs. */
  lemma {:induction false} QuitLeadsToExit(states: seq<State>, steps: seq<Step>, i: nat, j: nat)
    requires Run(states, steps) && i < j < |states| && steps[i] == PostQuit
    ensures states[j].mail == Mail(QUIT, -1, 0)
    ensures j < |steps| && steps[j].WorkerRuns? ==> states[j + 1].worker.Exited?
    decreases j
  {
    RunSafe(states, steps, j - 1);
    if j > i + 1 {
      QuitLeadsToExit(states, steps, i, j - 1);
    }
  }
}
