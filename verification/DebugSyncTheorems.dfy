/** What debug sync promises over whole runs: any number of threads and points,
    any interleaving, spurious wake-ups included. */
module DebugSyncTheorems {
  import opened DebugSync
  import opened DebugSyncProtocol

  // ---- no lost wake-up ----

  /** Main result: in every reachable state a thread that is asleep on the
      condition variable and that no broadcast has reached since still has a
      true sleeping condition. */
  lemma NoLostWakeup(states: seq<State>, steps: seq<Step>, i: nat, t: Tid)
    requires Run(states, steps) && i < |states|
    ensures var s := states[i];
      match At(s, t)
      case InWait(sec, false) => sec.pt < |s.sh.points| && WaiterSleeps(s.sh.points[sec.pt])
      case InExec(pt, false) => pt < |s.sh.points| && HolderSleeps(s.sh.points[pt])
      case _ => true
  {
    RunInv(states, steps, i);
    if t in states[i].loc {
      assert ThreadOk(states[i], t, states[i].loc[t]);
    }
  }

  // ---- accounting ----

  /** Threads inside `ds_wait` on point `p`. */
  function Waiters(s: State, p: nat): set<Tid> {
    set t | t in s.loc && s.loc[t].InWait? && s.loc[t].sec.pt == p
  }

  /** Sections of point `p` that still owe a `ds_unblock`. */
  function Credits(s: State, p: nat): set<Section> {
    set x | x in SectionsAt(s.live, p) && Owed(s, x)
  }

  lemma {:induction false} WaiterSections(s: State, ts: set<Tid>, p: nat)
    requires Inv(s) && ts <= Waiters(s, p)
    ensures |set t | t in ts :: s.loc[t].sec| == |ts|
    decreases ts
  {
    hide SharedOk, SectionOk, Accounted;
    if ts != {} {
      var t :| t in ts;
      var rest := ts - {t};
      WaiterSections(s, rest, p);
      assert forall u :: u in ts ==> ThreadOk(s, u, s.loc[u]);
      assert (set u | u in ts :: s.loc[u].sec) == (set u | u in rest :: s.loc[u].sec) + {s.loc[t].sec};
    }
  }

  lemma LiveIsWaitersAndCredits(s: State, p: nat)
    requires Inv(s)
    ensures |SectionsAt(s.live, p)| == |Waiters(s, p)| + |Credits(s, p)|
  {
    hide SharedOk, SectionOk, Accounted;
    var ts := Waiters(s, p);
    var waiting := set t | t in ts :: s.loc[t].sec;
    WaiterSections(s, ts, p);
    assert forall u :: u in ts ==> ThreadOk(s, u, s.loc[u]);
    assert waiting !! Credits(s, p);
    assert SectionsAt(s.live, p) == waiting + Credits(s, p) by {
      forall x | x in SectionsAt(s.live, p) ensures x in waiting + Credits(s, p) {
        if !Owed(s, x) {
          assert x.tid in ts && s.loc[x.tid].sec == x;
        }
      }
    }
  }

  /** Main result: in every reachable state the count of a point is exactly its
      waiters plus its outstanding credits plus its lost sections, whose
      `ds_wait` returned -1 or whose `ds_unblock` had no effect; a raised point
      has a positive count, the table stays within its bound and the assertion
      in `ds_unblock` never fires. */
  lemma Accounting(states: seq<State>, steps: seq<Step>, i: nat)
    requires Run(states, steps) && i < |states|
    ensures |states[i].sh.points| <= DS_MAX_POINT_COUNT
    ensures forall p :: 0 <= p < |states[i].sh.points| ==>
      && (states[i].sh.points[p].inSyncwait ==> states[i].sh.points[p].nblocked > 0)
      && states[i].sh.points[p].nblocked
         == |Waiters(states[i], p)| + |Credits(states[i], p)| + |SectionsAt(states[i].lost, p)|
    ensures i < |steps| ==> Segment(states[i], steps[i]).outcome != AssertFailed
  {
    RunInv(states, steps, i);
    forall p | 0 <= p < |states[i].sh.points|
      ensures states[i].sh.points[p].nblocked
           == |Waiters(states[i], p)| + |Credits(states[i], p)| + |SectionsAt(states[i].lost, p)|
    {
      assert Accounted(states[i], p);
      LiveIsWaitersAndCredits(states[i], p);
    }
    if i < |steps| {
      SegmentDoesNotAbort(states[i], steps[i]);
    }
  }

  lemma SegmentDoesNotAbort(s: State, step: Step)
    requires Inv(s) && Enabled(s, step)
    ensures Segment(s, step).outcome != AssertFailed
  {
    hide LookUp, Acquire;
    if step.UnblockCall? {
      UnblockSegment(s, step.sec);
    }
  }

  lemma {:induction false} StuckForEver(states: seq<State>, steps: seq<Step>, i: nat, j: nat, x: Section)
    requires Run(states, steps) && i <= j < |states| && Stuck(states[i], x)
    ensures Stuck(states[j], x)
    decreases j
  {
    hide Next, Enabled, Stuck;
    if i < j {
      StuckForEver(states, steps, i, j - 1, x);
      RunInv(states, steps, j - 1);
      StuckStays(states[j - 1], steps[j - 1], x);
    }
  }

  /** Main result: once a section is lost, or registered under a name too long
      to be stored, the count of its point is never 0 again. */
  lemma StuckNeverDrains(states: seq<State>, steps: seq<Step>, i: nat, j: nat, x: Section)
    requires Run(states, steps) && i <= j < |states| && Stuck(states[i], x)
    ensures CountOf(states[j].sh.points, x.pt) > 0
  {
    hide SharedOk, ThreadOk;
    StuckForEver(states, steps, i, j, x);
    RunInv(states, steps, j);
    assert SectionOk(states[j], x) && Accounted(states[j], x.pt);
    assert x in SectionsAt(states[j].live, x.pt) || x in SectionsAt(states[j].lost, x.pt);
  }

  /** Main result: the ways in which a step loses a section. A `ds_wait` loses
      its section if and only if the point is disabled when it returns; a
      `ds_unblock` if and only if it is skipped, finds the framework inactive or
      has a name too long to be found. */
  lemma WhatLoses(s: State, step: Step, x: Section)
    requires Enabled(s, step) && Inv(s)
    ensures x in Failed(s, step) <==>
      match step
      case WaitCall(_, _) => x in Counted(s, step) && !Segment(s, step).sh.points[x.pt].isEnabled
      case WaitResume(t) => x == At(s, t).sec && !s.sh.points[x.pt].isEnabled
      case UnblockCall(sec) => x == sec && (!s.sh.active || |sec.name| > DS_MAX_POINT_NAME_LEN)
      case UnblockSkipped(sec) => x == sec
      case _ => false
  {
    hide LookUp, Acquire, Inv, Unblock, CountOf;
    if step.UnblockCall? {
      UnblockSegment(s, step.sec);
      UnblockNext(s, step.sec);
    }
  }

  // ---- what a caller can tell ----

  /** The section of the `ds_wait` call that a step is part of, if it was
      counted. */
  function WaitSection(s: State, step: Step): set<Section>
    requires Enabled(s, step)
  {
    if step.WaitResume? then {At(s, step.t).sec} else Counted(s, step)
  }

  /** Main result: a `ds_wait` that returns 0 was counted, and owes a
      `ds_unblock`, if and only if it was not skipped as locally inactive. */
  lemma ZeroMeansCounted(s: State, step: Step)
    requires Enabled(s, step) && Inv(s)
    requires step.WaitCall? || step.WaitResume? || step.WaitSkipped?
    requires Segment(s, step).outcome == Returned(0)
    ensures (exists x :: x in WaitSection(s, step) && Owed(Next(s, step), x)) <==> !LocalInactive(s.sh)
    ensures LocalInactive(s.sh) ==> Next(s, step).sh == s.sh && Next(s, step).live == s.live
  {
    hide LookUp, Acquire, SectionOk, Accounted;
    if step.WaitCall? {
      var x := Section(s.next, step.t, Acquire(s.sh.points, step.name).1, step.name);
      assert x in WaitSection(s, step);
    } else if step.WaitResume? {
      assert ThreadOk(s, step.t, s.loc[step.t]);
      EnabledIsActive(s.sh, At(s, step.t).sec.pt);
      assert At(s, step.t).sec in WaitSection(s, step);
    }
  }

  /** Main result: what a `ds_unblock` does that no counted `ds_wait` owes, in
      any reachable state. On a point that it finds, the assertion fires if and
      only if there is no live and no lost section; otherwise the count becomes
      one too low for the sections that are there. */
  lemma UnowedUnblock(states: seq<State>, steps: seq<Step>, i: nat, name: string)
    requires Run(states, steps) && i < |states|
    requires states[i].sh.active && LookUp(states[i].sh.points, name) >= 0
    ensures var (s, e) := (states[i], Unblock(states[i].sh, name));
            var p := LookUp(s.sh.points, name);
            && (e.outcome == AssertFailed <==> SectionsAt(s.live, p) == SectionsAt(s.lost, p) == {})
            && (e.outcome != AssertFailed ==> CountOf(e.sh.points, p) == SectionCount(s, p) - 1)
  {
    hide SharedOk, SectionOk, ThreadOk, LookUp;
    RunInv(states, steps, i);
    assert Accounted(states[i], LookUp(states[i].sh.points, name));
  }

  // ---- runs in which nothing is disabled ----

  /** A step that does not disable a point, nor register a section under a name
      too long to be stored. */
  predicate Calm(s: State, step: Step) {
    match step
    case EnableCall(_, enable) => enable
    case DisableAllCall => !s.sh.active
    case ActivateCall(_) => !s.sh.active
    case WaitCall(_, name) => |name| <= DS_MAX_POINT_NAME_LEN
    case _ => true
  }

  ghost predicate CalmRun(states: seq<State>, steps: seq<Step>) {
    && Run(states, steps)
    && forall i :: 0 <= i < |steps| ==> Calm(states[i], steps[i])
  }

  predicate AllEnabled(sh: Shared) {
    forall p :: 0 <= p < |sh.points| ==> sh.points[p].isEnabled
  }

  lemma CalmStaysEnabled(s: State, step: Step)
    requires Enabled(s, step) && Calm(s, step) && AllEnabled(s.sh)
    ensures AllEnabled(Segment(s, step).sh)
  {
  }

  ghost predicate ShortSections(s: State) {
    forall x :: x in s.live ==> |x.name| <= DS_MAX_POINT_NAME_LEN
  }

  /** While all points are enabled and all names short nothing is lost. */
  lemma EnabledLosesNothing(s: State, step: Step)
    requires Enabled(s, step) && Inv(s) && Calm(s, step) && AllEnabled(s.sh) && ShortSections(s)
    ensures Failed(s, step) == {}
  {
    hide SharedOk, Accounted, LookUp, Acquire, Unblock, Failed;
    forall x | x in Failed(s, step) ensures false {
      WhatLoses(s, step, x);
      if step.UnblockCall? || step.UnblockSkipped? {
        assert SectionOk(s, x);
        EnabledIsActive(s.sh, x.pt);
      } else {
        CalmStaysEnabled(s, step);
      }
    }
  }

  lemma SectionsStayShort(s: State, step: Step)
    requires Enabled(s, step) && Calm(s, step) && ShortSections(s)
    ensures ShortSections(Next(s, step))
  {
    hide Segment, Acquire, Failed, Unblocked;
  }

  lemma {:induction false} CalmRunLosesNothing(states: seq<State>, steps: seq<Step>, i: nat)
    requires CalmRun(states, steps) && i < |states|
    ensures AllEnabled(states[i].sh) && ShortSections(states[i]) && states[i].lost == {}
  {
    hide Segment, Enabled, Calm, Failed, AllEnabled, ShortSections;
    if i > 0 {
      CalmRunLosesNothing(states, steps, i - 1);
      RunInv(states, steps, i - 1);
      CalmStaysEnabled(states[i - 1], steps[i - 1]);
      EnabledLosesNothing(states[i - 1], steps[i - 1]);
      SectionsStayShort(states[i - 1], steps[i - 1]);
    } else {
      NothingYet(states[0]);
    }
  }

  lemma NothingYet(s: State)
    requires Init(s)
    ensures AllEnabled(s.sh) && ShortSections(s)
  {
  }

  /** Main result: without disabling, the count is exactly the waiters plus the
      outstanding credits. */
  lemma CalmAccounting(states: seq<State>, steps: seq<Step>, i: nat, p: nat)
    requires CalmRun(states, steps) && i < |states| && p < |states[i].sh.points|
    ensures states[i].sh.points[p].nblocked == |Waiters(states[i], p)| + |Credits(states[i], p)|
  {
    CalmRunLosesNothing(states, steps, i);
    Accounting(states, steps, i);
    assert SectionsAt(states[i].lost, p) == {};
  }

  // ---- deadlock ----

  /** The waiter of the section has been signalled, or the section is over and
      still owes its `ds_unblock`. */
  predicate CanMove(s: State, x: Section) {
    At(s, x.tid) == InWait(x, true) || Owed(s, x)
  }

  /** Main result: whenever a `ds_exec` is asleep unsignalled, its point has a
      signalled waiter or a section that still owes a `ds_unblock` if and only if
      not all of its count is lost. */
  lemma DeadlockCondition(states: seq<State>, steps: seq<Step>, i: nat, t: Tid)
    requires Run(states, steps) && i < |states|
    requires At(states[i], t).InExec? && !At(states[i], t).signalled
    ensures var s, p := states[i], At(states[i], t).pt;
      (exists x :: x in SectionsAt(s.live, p) && CanMove(s, x)) <==> CountOf(s.sh.points, p) > |SectionsAt(s.lost, p)|
  {
    hide SharedOk, SectionOk;
    var s, p := states[i], At(states[i], t).pt;
    RunInv(states, steps, i);
    assert ThreadOk(s, t, s.loc[t]);
    assert Accounted(s, p);
    if CountOf(s.sh.points, p) > |SectionsAt(s.lost, p)| {
      assert SectionsAt(s.live, p) != {};
      var x :| x in SectionsAt(s.live, p);
      LiveCanMove(s, p, x);
    }
  }

  /** At a raised point every live section can move. */
  lemma LiveCanMove(s: State, p: nat, x: Section)
    requires Inv(s) && p < |s.sh.points| && s.sh.points[p].inSyncwait && x in SectionsAt(s.live, p)
    ensures CanMove(s, x)
  {
    hide SharedOk, SectionOk, Accounted;
    if !Owed(s, x) {
      assert ThreadOk(s, x.tid, s.loc[x.tid]);
    }
  }

  /** Main result: in a run without disabling, whenever a `ds_exec` is asleep
      unsignalled, its point has a waiter that has been signalled or a section
      that still owes a `ds_unblock`. */
  lemma DeadlockFreedom(states: seq<State>, steps: seq<Step>, i: nat, t: Tid)
    requires CalmRun(states, steps) && i < |states|
    requires At(states[i], t).InExec? && !At(states[i], t).signalled
    ensures exists x :: x in SectionsAt(states[i].live, At(states[i], t).pt) && CanMove(states[i], x)
  {
    hide SectionOk, Accounted;
    var s, p := states[i], At(states[i], t).pt;
    CalmRunLosesNothing(states, steps, i);
    DeadlockCondition(states, steps, i, t);
    RunInv(states, steps, i);
    assert ThreadOk(s, t, s.loc[t]);
    RaisedIsCounted(s.sh, p);
    assert SectionsAt(s.lost, p) == {};
  }

  // ---- no waiter is passed over ----

  predicate Raised(s: State, p: nat) {
    p < |s.sh.points| && s.sh.points[p].inSyncwait
  }

  lemma WaiterStep(s: State, step: Step, t: Tid)
    requires Enabled(s, step) && Inv(s)
    requires At(s, t).InWait? && At(Next(s, step), t).InWait?
    ensures At(Next(s, step), t).sec == At(s, t).sec
    ensures var p := At(s, t).sec.pt;
            && p < |s.sh.points| && p < |Next(s, step).sh.points|
            && (HolderSleeps(s.sh.points[p]) && Next(s, step).sh.points[p].isEnabled ==> Raised(Next(s, step), p))
  {
    hide SharedOk, SectionOk, Accounted, LookUp, Acquire, Segment, Evolves;
    var s', sec := Next(s, step), At(s, t).sec;
    NextInv(s, step);
    assert ThreadOk(s, t, s.loc[t]) && ThreadOk(s', t, s'.loc[t]);
    SegmentEvolves(s, step);
    EvolvesAt(s.sh, Segment(s, step).sh, Segment(s, step).broadcast, sec.pt);
    OwedIsCounted(s', s'.loc[t].sec);
  }

  /** Thread `t` is inside `ds_wait` on point `p`, which is enabled. */
  ghost predicate WaitsEnabled(s: State, t: Tid, p: nat) {
    At(s, t).InWait? && At(s, t).sec.pt == p && p < |s.sh.points| && s.sh.points[p].isEnabled
  }

  /** Main result: while a point is not disabled and a thread is inside
      `ds_wait` on it, the point once raised stays raised. */
  lemma {:induction false} NotPassedOver(states: seq<State>, steps: seq<Step>, i: nat, j: nat, t: Tid, p: nat)
    requires Run(states, steps) && i <= j < |states|
    requires forall k :: i <= k <= j ==> WaitsEnabled(states[k], t, p)
    requires Raised(states[i], p)
    ensures Raised(states[j], p)
    decreases j
  {
    hide Inv, Next, Segment, Enabled, Init;
    if i < j {
      assert WaitsEnabled(states[j - 1], t, p) && WaitsEnabled(states[j], t, p);
      NotPassedOver(states, steps, i, j - 1, t, p);
      RunInv(states, steps, j - 1);
      WaiterStep(states[j - 1], steps[j - 1], t);
    }
  }

  /** Main result: so when the thread next runs it leaves `ds_wait` with 0. */
  lemma RaisedWaiterLeaves(states: seq<State>, steps: seq<Step>, i: nat, j: nat, t: Tid, p: nat)
    requires Run(states, steps) && i <= j < |steps|
    requires forall k :: i <= k <= j ==> WaitsEnabled(states[k], t, p)
    requires Raised(states[i], p)
    requires steps[j] == WaitResume(t)
    ensures Segment(states[j], steps[j]).outcome == Returned(0)
    ensures At(states[j + 1], t) == Outside && Owed(states[j + 1], At(states[j], t).sec)
  {
    hide SharedOk, SectionOk, Accounted, LookUp, Acquire;
    assert WaitsEnabled(states[j], t, p);
    NotPassedOver(states, steps, i, j, t, p);
    RunInv(states, steps, j);
    assert ThreadOk(states[j], t, states[j].loc[t]);
  }

  // ---- how a hold ends ----

  /** At state `s` the count of `p` is 0 and all of `cohort` have unblocked. */
  ghost predicate DrainedAt(s: State, p: nat, cohort: set<Section>) {
    p < |s.sh.points| && s.sh.points[p].nblocked == 0 && cohort <= s.finished
  }

  /** The step is a `ds_exec` that lowers point `p` because it is disabled. */
  predicate LowersDisabled(s: State, step: Step, p: nat)
    requires Enabled(s, step)
  {
    && (step.ExecCall? || step.ExecResume?)
    && Raised(s, p) && !s.sh.points[p].isEnabled && !Raised(Next(s, step), p)
  }

  /** When the count is 0 no section of the point is left. */
  lemma ZeroMeansFinished(s: State, p: nat, cohort: set<Section>)
    requires Inv(s) && p < |s.sh.points| && s.sh.points[p].nblocked == 0
    requires cohort <= s.live + s.lost + s.finished
    requires forall x :: x in cohort ==> x.pt == p
    ensures cohort <= s.finished
  {
    hide SharedOk, ThreadOk, SectionOk;
    assert Accounted(s, p);
    forall x | x in cohort ensures x in s.finished {
      assert x !in SectionsAt(s.live, p) && x !in SectionsAt(s.lost, p);
    }
  }

  /** A point is lowered by the `ds_unblock` that takes its count to 0, or by a
      `ds_exec` that finds it disabled. */
  lemma WhoLowers(s: State, step: Step, p: nat)
    requires Enabled(s, step) && Inv(s)
    requires Raised(s, p) && !Raised(Next(s, step), p)
    ensures p < |Next(s, step).sh.points|
    ensures LowersDisabled(s, step, p) <==> Next(s, step).sh.points[p].nblocked > 0
  {
    hide SectionOk, ThreadOk, Accounted, Acquire, LookUp, Counted, Failed;
    SegmentEvolves(s, step);
    RaisedIsCounted(s.sh, p);
    if step.ExecCall? {
      AcquireKeepsPoints(s.sh, step.name);
    } else if step.WaitCall? {
      AcquireKeepsPoints(s.sh, step.name);
    }
  }

  lemma AcquireKeepsPoints(sh: Shared, name: string)
    ensures var points := Acquire(sh.points, name).0;
            |sh.points| <= |points| && forall p :: 0 <= p < |sh.points| ==> points[p] == sh.points[p]
  {
  }

  /** Main result: when a raised point is lowered, the sections registered
      before have all unblocked if and only if it was not a `ds_exec` on the
      disabled point that lowered it. */
  lemma LoweredIffDrained(s: State, step: Step, p: nat, cohort: set<Section>)
    requires Enabled(s, step) && Inv(s)
    requires Raised(s, p) && !Raised(Next(s, step), p)
    requires cohort <= s.live + s.lost + s.finished && forall x :: x in cohort ==> x.pt == p
    ensures DrainedAt(Next(s, step), p, cohort) <==> !LowersDisabled(s, step, p)
  {
    hide Inv, Next, LowersDisabled, Raised;
    WhoLowers(s, step, p);
    NextInv(s, step);
    NextKeepsSections(s, step);
    if Next(s, step).sh.points[p].nblocked == 0 {
      ZeroMeansFinished(Next(s, step), p, cohort);
    }
  }

  /** Thread `t` is inside a held `ds_exec` on point `p`. */
  ghost predicate Holds(s: State, t: Tid, p: nat) {
    At(s, t).InExec? && At(s, t).pt == p
  }

  /** A `ds_exec` that goes to sleep has raised its point. */
  lemma RaiseStep(s: State, step: Step)
    requires Enabled(s, step) && step.ExecCall?
    requires At(Next(s, step), step.t).InExec?
    ensures Raised(Next(s, step), At(Next(s, step), step.t).pt)
  {
    hide LookUp, Acquire;
  }

  /** A point that is raised at one state and not at a later one is lowered by
      a first step in between. */
  lemma {:induction false} FirstLowering(states: seq<State>, p: nat, i: nat, j: nat) returns (k: nat)
    requires i < j < |states| && Raised(states[i], p) && !Raised(states[j], p)
    ensures i <= k < j && !Raised(states[k + 1], p)
    ensures forall m :: i <= m <= k ==> Raised(states[m], p)
    decreases j - i
  {
    hide Raised;
    if Raised(states[i + 1], p) {
      k := FirstLowering(states, p, i + 1, j);
    } else {
      k := i;
    }
  }

  /** Main result: every `ds_exec` that has been held and returns 0 was released
      by a step `k` that lowered its point, and at that instant the count was 0
      and every section registered at the raise had left `ds_wait` and called
      `ds_unblock` if and only if step `k` was not a `ds_exec` on the disabled
      point. Nothing is assumed about enabling and disabling. */
  lemma HoldRelease(states: seq<State>, steps: seq<Step>, i: nat, j: nat, t: Tid, p: nat) returns (k: nat)
    requires Run(states, steps) && i < j < |steps|
    requires steps[i].ExecCall? && steps[i].t == t
    requires forall m :: i < m <= j ==> Holds(states[m], t, p)
    requires steps[j] == ExecResume(t) && Segment(states[j], steps[j]).outcome == Returned(0)
    ensures i < k < j && !Raised(states[k + 1], p)
    ensures forall m :: i < m <= k ==> Raised(states[m], p)
    ensures DrainedAt(states[k + 1], p, SectionsAt(states[i + 1].live, p)) <==> !LowersDisabled(states[k], steps[k], p)
  {
    hide Inv, Next, LowersDisabled, DrainedAt, Enabled;
    assert Holds(states[i + 1], t, p) && Holds(states[j], t, p);
    RaiseStep(states[i], steps[i]);
    ReturnsLowered(states[j], t);
    k := FirstLowering(states, p, i + 1, j);
    RunInv(states, steps, k);
    RunKeepsSections(states, steps, i + 1, k);
    LoweredIffDrained(states[k], steps[k], p, SectionsAt(states[i + 1].live, p));
  }

  lemma ReturnsLowered(s: State, t: Tid)
    requires Enabled(s, ExecResume(t)) && Segment(s, ExecResume(t)).outcome == Returned(0)
    ensures !Raised(s, At(s, t).pt) && s.sh.points[At(s, t).pt].isEnabled
  {
  }

  /** Main result: a held `ds_exec` returns 0 only after an instant at which its
      point had drained, or after some `ds_exec` lowered the disabled point. */
  lemma DrainedOrLowered(states: seq<State>, steps: seq<Step>, i: nat, j: nat, t: Tid, p: nat)
    requires Run(states, steps) && i < j < |steps|
    requires steps[i].ExecCall? && steps[i].t == t
    requires forall m :: i < m <= j ==> Holds(states[m], t, p)
    requires steps[j] == ExecResume(t) && Segment(states[j], steps[j]).outcome == Returned(0)
    ensures (exists k :: i < k <= j && DrainedAt(states[k], p, SectionsAt(states[i + 1].live, p)))
         || (exists k :: i < k < j && LowersDisabled(states[k], steps[k], p))
  {
    hide Next, LowersDisabled, DrainedAt, Enabled, Holds, Raised;
    var k := HoldRelease(states, steps, i, j, t, p);
  }

  /** Main result: if the point stays enabled from the raise of a `ds_exec` to
      its return, the call returns 0 only if at some instant in between the
      count was 0, and by then every section registered at the raise had left
      `ds_wait` and called `ds_unblock`. */
  lemma DrainGuarantee(states: seq<State>, steps: seq<Step>, i: nat, j: nat, t: Tid, p: nat)
    requires Run(states, steps) && i < j < |steps|
    requires steps[i].ExecCall? && steps[i].t == t
    requires forall m :: i < m <= j ==> Holds(states[m], t, p)
    requires forall m :: i < m <= j ==> p < |states[m].sh.points| && states[m].sh.points[p].isEnabled
    requires steps[j] == ExecResume(t) && Segment(states[j], steps[j]).outcome == Returned(0)
    ensures exists k :: i < k <= j && DrainedAt(states[k], p, SectionsAt(states[i + 1].live, p))
  {
    hide Next, DrainedAt, Enabled, Holds, Raised;
    DrainedOrLowered(states, steps, i, j, t, p);
  }

  /** Main result: on a point with a lost section, or with one whose name is too
      long, a held `ds_exec` returns 0 only after some `ds_exec` lowered the
      disabled point. */
  lemma StuckHoldNeedsLowering(states: seq<State>, steps: seq<Step>, i: nat, j: nat, t: Tid, p: nat, x: Section)
    requires Run(states, steps) && i < j < |steps|
    requires steps[i].ExecCall? && steps[i].t == t
    requires forall m :: i < m <= j ==> Holds(states[m], t, p)
    requires Stuck(states[i], x) && x.pt == p
    requires steps[j] == ExecResume(t) && Segment(states[j], steps[j]).outcome == Returned(0)
    ensures exists k :: i < k < j && LowersDisabled(states[k], steps[k], p)
  {
    hide Next, LowersDisabled, Enabled, Holds, Raised, Stuck;
    DrainedOrLowered(states, steps, i, j, t, p);
    if k :| i < k <= j && DrainedAt(states[k], p, SectionsAt(states[i + 1].live, p)) {
      StuckNeverDrains(states, steps, i, k, x);
    }
  }

  // ---- example runs ----

  /** The framework with the one point that `name` creates, on which one section
      is counted. */
  function OnePoint(name: string, active: bool, enabled: bool, raised: bool): Shared {
    Shared(active, false, [Point(Stored(name), enabled, raised, 1)])
  }

  function FirstSection(name: string): Section {
    Section(0, 1, 0, name)
  }

  lemma FindsOnePoint(name: string, active: bool, enabled: bool, raised: bool)
    ensures var points := OnePoint(name, active, enabled, raised).points;
            && LookUp(points, Stored(name)) == 0 && Acquire(points, Stored(name)) == (points, 0)
            && (|name| > DS_MAX_POINT_NAME_LEN ==> LookUp(points, name) == -1)
  {
  }

  function Start(): State {
    State(Shared(true, false, []), map[], {}, {}, {}, 0)
  }

  function Waiting(name: string): State {
    State(OnePoint(name, true, true, false), map[1 := InWait(FirstSection(name), false)],
          {FirstSection(name)}, {}, {}, 1)
  }

  /** Thread 1 in `ds_wait`, thread 2 in `ds_exec`, thread 3 outside. */
  function Held(name: string, enabled: bool, raised: bool, signalled: bool, third: bool, next: nat): State {
    var two := map[1 := InWait(FirstSection(name), true), 2 := InExec(0, signalled)];
    State(OnePoint(name, true, enabled, raised), if third then two[3 := Outside] else two,
          {FirstSection(name)}, {}, {}, next)
  }

  /** Thread 1 has returned from `ds_wait`, thread 2 is in `ds_exec`. */
  function Returning(name: string, active: bool, enabled: bool, signalled: bool, lost: bool, next: nat): State {
    var xs := {FirstSection(name)};
    State(OnePoint(name, active, enabled, true), map[1 := Outside, 2 := InExec(0, signalled)],
          if lost then {} else xs, if lost then xs else {}, {}, next)
  }

  lemma ExampleWait(name: string)
    ensures Enabled(Start(), WaitCall(1, name)) && Next(Start(), WaitCall(1, name)) == Waiting(name)
  {
    hide Stored;
    assert LookUp([], name) == -1;
    assert [] + [Point(Stored(name), true, false, 0)] == [Point(Stored(name), true, false, 0)];
    assert Acquire([], name) == ([Point(Stored(name), true, false, 0)], 0);
    assert Segment(Start(), WaitCall(1, name)) == Effect(OnePoint(name, true, true, false), false, Sleeps(0));
  }

  lemma ExampleRaise(name: string)
    ensures Enabled(Waiting(name), ExecCall(2, Stored(name)))
    ensures Next(Waiting(name), ExecCall(2, Stored(name))) == Held(name, true, true, false, false, 2)
  {
    hide LookUp, Acquire, Stored;
    FindsOnePoint(name, true, true, false);
    assert Segment(Waiting(name), ExecCall(2, Stored(name)))
        == Effect(OnePoint(name, true, true, true), true, Sleeps(0));
  }

  lemma ExampleDisable(name: string)
    ensures Next(Held(name, true, true, false, false, 2), EnableCall(Stored(name), false))
         == Held(name, false, true, true, false, 3)
  {
    hide LookUp, Stored;
    FindsOnePoint(name, true, true, true);
    var s := Held(name, true, true, false, false, 2);
    assert Segment(s, EnableCall(Stored(name), false)) == Effect(OnePoint(name, true, false, true), true, Returned(0));
  }

  lemma ExampleLower(name: string)
    ensures Next(Held(name, false, true, true, false, 3), ExecCall(3, Stored(name)))
         == Held(name, false, false, true, true, 4)
  {
    hide LookUp, Acquire, Stored;
    FindsOnePoint(name, true, false, true);
    var s := Held(name, false, true, true, false, 3);
    assert Segment(s, ExecCall(3, Stored(name))) == Effect(OnePoint(name, true, false, false), true, Returned(-1));
  }

  lemma ExampleEnable(name: string)
    ensures Next(Held(name, false, false, true, true, 4), EnableCall(Stored(name), true))
         == Held(name, true, false, true, true, 5)
  {
    hide LookUp, Stored;
    FindsOnePoint(name, true, false, false);
    var s := Held(name, false, false, true, true, 4);
    assert Segment(s, EnableCall(Stored(name), true)) == Effect(OnePoint(name, true, true, false), false, Returned(0));
  }

  /** A holder whose point is disabled and enabled again before it wakes up can
      return 0 although its only section has not unblocked: thread 1 waits,
      thread 2 holds, thread 3 runs through the disabled point and lowers it. */
  lemma ReenabledHolderReturnsUndrained(name: string) returns (states: seq<State>, steps: seq<Step>)
    ensures Run(states, steps)
    ensures steps == [WaitCall(1, name), ExecCall(2, Stored(name)), EnableCall(Stored(name), false),
                      ExecCall(3, Stored(name)), EnableCall(Stored(name), true), ExecResume(2)]
    ensures forall k :: 1 < k <= 5 ==> At(states[k], 2).InExec?
    ensures forall k :: 1 <= k <= 5 ==> CountOf(states[k].sh.points, 0) == 1 && states[k].finished == {}
    ensures Segment(states[5], steps[5]).outcome == Returned(0)
  {
    hide Next, Stored;
    ExampleWait(name);
    ExampleRaise(name);
    ExampleDisable(name);
    ExampleLower(name);
    ExampleEnable(name);
    steps := [WaitCall(1, name), ExecCall(2, Stored(name)), EnableCall(Stored(name), false),
              ExecCall(3, Stored(name)), EnableCall(Stored(name), true), ExecResume(2)];
    var s5 := Held(name, true, false, true, true, 5);
    states := [Start(), Waiting(name), Held(name, true, true, false, false, 2), Held(name, false, true, true, false, 3),
               Held(name, false, false, true, true, 4), s5, Next(s5, ExecResume(2))];
  }

  lemma ExampleReturn(name: string)
    ensures Next(Held(name, true, true, false, false, 2), WaitResume(1)) == Returning(name, true, true, false, false, 3)
    ensures Segment(Held(name, true, true, false, false, 2), WaitResume(1)).outcome == Returned(0)
  {
    hide Stored;
  }

  lemma ExampleLongUnblock(name: string)
    requires |name| > DS_MAX_POINT_NAME_LEN
    ensures var s := Returning(name, true, true, false, false, 3);
            && Segment(s, UnblockCall(FirstSection(name))).outcome == Returned(-1)
            && Next(s, UnblockCall(FirstSection(name))) == Returning(name, true, true, false, true, 4)
  {
    hide LookUp, Stored;
    FindsOnePoint(name, true, true, true);
  }

  /** Without any disabling, a section under a name too long to be stored strands
      a holder: its one `ds_unblock` does not find the point, and the holder is
      asleep unsignalled while nobody waits or owes anything. */
  lemma LongNameStrandsHolder(name: string) returns (states: seq<State>, steps: seq<Step>)
    requires |name| > DS_MAX_POINT_NAME_LEN
    ensures Run(states, steps)
    ensures steps == [WaitCall(1, name), ExecCall(2, Stored(name)), WaitResume(1), UnblockCall(FirstSection(name))]
    ensures Segment(states[2], steps[2]).outcome == Returned(0) && Segment(states[3], steps[3]).outcome == Returned(-1)
    ensures At(states[4], 2) == InExec(0, false) && AllEnabled(states[4].sh) && states[4].live == {}
  {
    hide Next, Segment, Stored;
    ExampleWait(name);
    ExampleRaise(name);
    ExampleReturn(name);
    ExampleLongUnblock(name);
    steps := [WaitCall(1, name), ExecCall(2, Stored(name)), WaitResume(1), UnblockCall(FirstSection(name))];
    states := [Start(), Waiting(name), Held(name, true, true, false, false, 2),
               Returning(name, true, true, false, false, 3), Returning(name, true, true, false, true, 4)];
  }

  lemma ExampleDeactivate(name: string)
    ensures Next(Returning(name, true, true, false, false, 3), ActivateCall(false))
         == Returning(name, false, false, true, false, 4)
  {
    hide Stored;
    var s := Returning(name, true, true, false, false, 3);
    assert s.sh.points[0].isEnabled && PendingWaits(s.sh.points);
    assert DisabledPoints(s.sh.points) == OnePoint(name, true, false, true).points;
  }

  lemma ExampleSkippedUnblock(name: string)
    ensures var (s, step) := (Returning(name, false, false, true, false, 4), UnblockSkipped(FirstSection(name)));
            && Enabled(s, step) && Segment(s, step).outcome == Returned(0)
            && Next(s, step) == Returning(name, false, false, true, true, 5)
  {
    hide Stored;
  }

  lemma ExampleReactivate(name: string)
    ensures var s6 := Next(Returning(name, false, false, true, true, 5), ActivateUnlocked);
            && s6 == Returning(name, true, false, true, true, 6)
            && Next(s6, EnableCall(Stored(name), true)) == Returning(name, true, true, true, true, 7)
  {
    hide LookUp, Stored;
    FindsOnePoint(name, true, false, true);
    var s6 := Returning(name, true, false, true, true, 6);
    assert Segment(s6, EnableCall(Stored(name), true)) == Effect(OnePoint(name, true, true, true), false, Returned(0));
  }

  lemma ExampleSleepAgain(name: string)
    ensures Next(Returning(name, true, true, true, true, 7), ExecResume(2)) == Returning(name, true, true, false, true, 8)
  {
    hide Stored;
  }

  /** So does a `ds_unblock` that is skipped between a deactivation and the next
      activation, although every call of the section has returned 0. */
  lemma SkippedUnblockStrandsHolder(name: string) returns (states: seq<State>, steps: seq<Step>)
    ensures Run(states, steps)
    ensures steps == [WaitCall(1, name), ExecCall(2, Stored(name)), WaitResume(1), ActivateCall(false),
                      UnblockSkipped(FirstSection(name)), ActivateUnlocked, EnableCall(Stored(name), true), ExecResume(2)]
    ensures Segment(states[2], steps[2]).outcome == Segment(states[4], steps[4]).outcome == Returned(0)
    ensures At(states[8], 2) == InExec(0, false) && AllEnabled(states[8].sh) && states[8].live == {}
  {
    hide Next, Segment, Stored;
    ExampleWait(name);
    ExampleRaise(name);
    ExampleReturn(name);
    ExampleDeactivate(name);
    ExampleSkippedUnblock(name);
    ExampleReactivate(name);
    ExampleSleepAgain(name);
    steps := [WaitCall(1, name), ExecCall(2, Stored(name)), WaitResume(1), ActivateCall(false),
              UnblockSkipped(FirstSection(name)), ActivateUnlocked, EnableCall(Stored(name), true), ExecResume(2)];
    states := [Start(), Waiting(name), Held(name, true, true, false, false, 2),
               Returning(name, true, true, false, false, 3), Returning(name, false, false, true, false, 4),
               Returning(name, false, false, true, true, 5), Returning(name, true, false, true, true, 6),
               Returning(name, true, true, true, true, 7), Returning(name, true, true, false, true, 8)];
  }

  /** A thread whose `ds_wait` was skipped, and returned 0, cannot tell that it
      owes nothing: when the framework is activated and a `ds_exec` has created
      the point, its `ds_unblock` fires the assertion. */
  lemma SkippedWaitMeetsAssertion(name: string) returns (states: seq<State>, steps: seq<Step>)
    requires |name| <= DS_MAX_POINT_NAME_LEN
    ensures Run(states, steps)
    ensures steps == [WaitSkipped(1, name), ActivateUnlocked, ExecCall(2, name)]
    ensures Segment(states[0], steps[0]).outcome == Returned(0)
    ensures Unblock(states[3].sh, name).outcome == AssertFailed
  {
    var s0 := State(Shared(false, false, []), map[], {}, {}, {}, 0);
    var s1 := Next(s0, WaitSkipped(1, name));
    var s2 := Next(s1, ActivateUnlocked);
    assert LookUp([], name) == -1;
    assert s2.sh == Shared(true, false, []) && s2.loc == map[];
    var s3 := Next(s2, ExecCall(2, name));
    steps := [WaitSkipped(1, name), ActivateUnlocked, ExecCall(2, name)];
    states := [s0, s1, s2, s3];
    assert s3.sh.points == [Point(name, true, false, 0)];
  }

  // ---- the way out ----

  /** A step that does not rely on a spurious wake-up. */
  predicate Signalled(s: State, step: Step) {
    match step
    case ExecResume(t) => At(s, t).InExec? && At(s, t).signalled
    case WaitResume(t) => At(s, t).InWait? && At(s, t).signalled
    case _ => true
  }

  /** The steps of threads that finish their sections. */
  predicate Finishes(step: Step) {
    step.WaitResume? || step.UnblockCall?
  }

  /** The sections of point `p` have names that can be looked up, and no thread
      with such a section has gone into another call. */
  ghost predicate CanFinish(s: State, p: nat) {
    forall x :: x in SectionsAt(s.live, p) ==>
      && |x.name| <= DS_MAX_POINT_NAME_LEN
      && (At(s, x.tid).Outside? || (At(s, x.tid).InWait? && At(s, x.tid).sec == x))
  }

  /** `steps` lead from `s` through steps without spurious wake-ups that only
      finish sections. */
  ghost predicate WayOut(s: State, steps: seq<Step>)
    decreases |steps|
  {
    steps != [] ==>
      && Enabled(s, steps[0]) && Signalled(s, steps[0]) && Finishes(steps[0])
      && WayOut(Next(s, steps[0]), steps[1..])
  }

  ghost function After(s: State, steps: seq<Step>): State
    requires WayOut(s, steps)
    decreases |steps|
  {
    if steps == [] then s else After(Next(s, steps[0]), steps[1..])
  }

  /** The holder `t` of a raised and enabled point `p` without lost sections. */
  ghost predicate Holding(s: State, t: Tid, p: nat) {
    && Inv(s) && CanFinish(s, p) && Holds(s, t, p)
    && Raised(s, p) && s.sh.points[p].isEnabled
    && SectionsAt(s.lost, p) == {}
  }

  lemma ResumeWaiter(s: State, t: Tid, p: nat, x: Section) returns (s': State)
    requires Holding(s, t, p) && x in SectionsAt(s.live, p) && At(s, x.tid).InWait?
    ensures Enabled(s, WaitResume(x.tid)) && Signalled(s, WaitResume(x.tid))
    ensures s' == Next(s, WaitResume(x.tid))
    ensures Holding(s', t, p) && x in SectionsAt(s'.live, p) && At(s', x.tid).Outside?
    ensures SectionsAt(s'.live, p) == SectionsAt(s.live, p)
  {
    hide SharedOk, SectionOk, Accounted, LookUp, Acquire;
    assert ThreadOk(s, x.tid, s.loc[x.tid]);
    var step := WaitResume(x.tid);
    s' := Next(s, step);
    NextInv(s, step);
    assert s'.live == s.live && s'.lost == s.lost;
  }

  lemma UnblockEffect(s: State, x: Section)
    requires Inv(s) && x in s.live && |x.name| <= DS_MAX_POINT_NAME_LEN
    requires x.pt < |s.sh.points| ==> s.sh.points[x.pt].isEnabled
    ensures x.pt < |s.sh.points| && s.sh.points[x.pt].nblocked > 0
    ensures var (e, q) := (Unblock(s.sh, x.name), s.sh.points[x.pt]);
            && e.outcome == Returned(0) && e.broadcast == (q.nblocked == 1)
            && e.sh == SetPoint(s.sh, x.pt, q.(nblocked := q.nblocked - 1, inSyncwait := q.inSyncwait && q.nblocked > 1))
  {
    hide SharedOk, ThreadOk, LookUp;
    assert SectionOk(s, x);
    OwedIsCounted(s, x);
    EnabledIsActive(s.sh, x.pt);
  }

  lemma FinishSection(s: State, t: Tid, p: nat, x: Section) returns (s': State)
    requires Holding(s, t, p) && x in SectionsAt(s.live, p) && At(s, x.tid).Outside?
    ensures Enabled(s, UnblockCall(x)) && s' == Next(s, UnblockCall(x))
    ensures SectionsAt(s'.live, p) == SectionsAt(s.live, p) - {x}
    ensures if SectionsAt(s'.live, p) == {} then Released(s', t, p) else Holding(s', t, p)
  {
    hide Inv, Next, Segment, Acquire, Unblock, LookUp;
    var step := UnblockCall(x);
    s' := Next(s, step);
    UnblockEffect(s, x);
    UnblockNext(s, x);
    NextInv(s, step);
    SectionsRemove(s.live, x, p);
    CountIsLive(s', p);
  }

  lemma CountIsLive(s: State, p: nat)
    requires Inv(s) && p < |s.sh.points| && SectionsAt(s.lost, p) == {}
    ensures s.sh.points[p].nblocked == |SectionsAt(s.live, p)|
  {
    hide SharedOk, SectionOk, ThreadOk;
    assert Accounted(s, p);
  }

  /** The holder `t` has been signalled, the count is 0 and resuming `t` makes
      `ds_exec` return 0. */
  ghost predicate Released(s: State, t: Tid, p: nat) {
    && Holds(s, t, p) && At(s, t).signalled
    && p < |s.sh.points| && s.sh.points[p].nblocked == 0
    && ExecWake(s.sh, p).outcome == Returned(0)
  }

  lemma WayOutStep(s: State, step: Step, rest: seq<Step>)
    requires Enabled(s, step) && Signalled(s, step) && Finishes(step)
    requires WayOut(Next(s, step), rest)
    ensures WayOut(s, [step] + rest) && After(s, [step] + rest) == After(Next(s, step), rest)
  {
    hide Next, Enabled, Signalled;
    assert ([step] + rest)[1..] == rest;
  }

  /** A held `ds_exec` can always be brought to return 0, by the sections of its
      point alone and without relying on spurious wake-ups. */
  lemma {:induction false} HoldEnds(s: State, t: Tid, p: nat) returns (steps: seq<Step>)
    requires Holding(s, t, p)
    ensures WayOut(s, steps) && Released(After(s, steps), t, p)
    decreases |SectionsAt(s.live, p)|
  {
    hide Inv, CanFinish, Next, Segment, Enabled, Released;
    var x := SomeSection(s, t, p);
    var s1 := s;
    if At(s, x.tid).InWait? {
      s1 := ResumeWaiter(s, t, p, x);
    }
    var s2 := FinishSection(s1, t, p, x);
    var rest := [];
    if SectionsAt(s2.live, p) != {} {
      rest := HoldEnds(s2, t, p);
    }
    WayOutStep(s1, UnblockCall(x), rest);
    steps := [UnblockCall(x)] + rest;
    if At(s, x.tid).InWait? {
      WayOutStep(s, WaitResume(x.tid), steps);
      steps := [WaitResume(x.tid)] + steps;
    }
  }

  lemma SomeSection(s: State, t: Tid, p: nat) returns (x: Section)
    requires Holding(s, t, p)
    ensures x in SectionsAt(s.live, p) && (At(s, x.tid).Outside? || At(s, x.tid).InWait?)
  {
    hide ThreadOk, SectionOk, SharedOk, Accounted;
    RaisedIsCounted(s.sh, p);
    CountIsLive(s, p);
    assert SectionsAt(s.live, p) != {};
    x :| x in SectionsAt(s.live, p);
  }

  /** Main result: in every run, an asleep `ds_exec` on a point without lost
      sections, whose live sections can finish, has a way to return 0. */
  lemma HeldExecCanReturn(states: seq<State>, steps: seq<Step>, i: nat, t: Tid) returns (way: seq<Step>)
    requires Run(states, steps) && i < |states|
    requires At(states[i], t).InExec? && !At(states[i], t).signalled
    requires CanFinish(states[i], At(states[i], t).pt)
    requires SectionsAt(states[i].lost, At(states[i], t).pt) == {}
    ensures WayOut(states[i], way) && Released(After(states[i], way), t, At(states[i], t).pt)
  {
    hide SharedOk, SectionOk, Accounted, CanFinish, Released, WayOut, After;
    RunInv(states, steps, i);
    assert ThreadOk(states[i], t, states[i].loc[t]);
    way := HoldEnds(states[i], t, At(states[i], t).pt);
  }

  // ---- names ----

  predicate ShortNames(step: Step) {
    match step
    case ExecCall(_, name) => |name| <= DS_MAX_POINT_NAME_LEN
    case WaitCall(_, name) => |name| <= DS_MAX_POINT_NAME_LEN
    case _ => true
  }

  lemma NamesKept(points: seq<Point>, points': seq<Point>)
    requires DistinctNames(points) && |points'| == |points|
    requires forall p :: 0 <= p < |points| ==> points'[p].name == points[p].name
    ensures DistinctNames(points')
  {
  }

  lemma NextNamesDistinct(s: State, step: Step)
    requires Enabled(s, step) && ShortNames(step) && DistinctNames(s.sh.points)
    ensures DistinctNames(Next(s, step).sh.points)
  {
    hide LookUp, Acquire, DistinctNames;
    var points' := Next(s, step).sh.points;
    if step.ExecCall? || step.WaitCall? {
      var points := Acquire(s.sh.points, step.name).0;
      AcquireKeepsNamesDistinct(s.sh.points, step.name);
      NamesKept(if s.sh.active then points else s.sh.points, points');
    } else {
      NamesKept(s.sh.points, points');
    }
  }

  /** Main result: as long as all names given to `ds_exec` and `ds_wait` can be
      stored whole, the names in the table stay pairwise distinct. */
  lemma {:induction false} NamesDistinct(states: seq<State>, steps: seq<Step>, i: nat)
    requires Run(states, steps) && i < |states|
    requires forall k :: 0 <= k < |steps| ==> ShortNames(steps[k])
    ensures DistinctNames(states[i].sh.points)
  {
    hide Next, Enabled, ShortNames;
    if i > 0 {
      NamesDistinct(states, steps, i - 1);
      NextNamesDistinct(states[i - 1], steps[i - 1]);
    }
  }
}
