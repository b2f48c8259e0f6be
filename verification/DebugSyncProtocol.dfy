/** Any number of threads calling the debug-sync monitor, as a state machine
    whose steps are the mutex-held segments of DebugSync. */
module DebugSyncProtocol {
  import opened DebugSync

  type Tid = nat

  /** One call of `ds_wait` that was counted in `nblocked` of point `pt`. */
  datatype Section = Section(id: nat, tid: Tid, pt: nat, name: string)

  /** Where a thread is. `signalled` says that a broadcast has reached it since
      it went to sleep. */
  datatype Location =
    | Outside
    | InWait(sec: Section, signalled: bool)
    | InExec(pt: nat, signalled: bool)

  /** The counted sections are in one of three places: `finished` when their
      `ds_unblock` has lowered the count, `lost` when their `ds_wait` has returned
      -1 or their `ds_unblock` has not lowered the count, `live` until then. No
      step depends on `lost`, `finished` and `next`. */
  datatype State = State(sh: Shared, loc: map<Tid, Location>,
                         live: set<Section>, lost: set<Section>, finished: set<Section>, next: nat)

  function At(s: State, t: Tid): Location {
    if t in s.loc then s.loc[t] else Outside
  }

  datatype Step =
    | ExecCall(t: Tid, name: string)
    | ExecResume(t: Tid)
    | WaitCall(t: Tid, name: string)
    | WaitResume(t: Tid)
    | UnblockCall(sec: Section)
    | ExecSkipped(t: Tid, name: string)
    | WaitSkipped(t: Tid, name: string)
    | UnblockSkipped(sec: Section)
    | EnableCall(name: string, enable: bool)
    | DisableAllCall
    | ActivateCall(activate: bool)
    | ActivateUnlocked

  /** A section whose `ds_wait` has returned 0 and that still owes its one call of
      `ds_unblock`. */
  predicate Owed(s: State, sec: Section) {
    sec in s.live && !(At(s, sec.tid).InWait? && At(s, sec.tid).sec == sec)
  }

  /** Sleeping threads may be resumed at any time: a resume without a signal is
      a spurious wake-up. A call is skipped when the unlocked test finds the
      framework locally inactive. The calling discipline is that `ds_unblock` is
      called by a thread that owes it, once, with the name it gave to `ds_wait`. */
  predicate Enabled(s: State, step: Step) {
    match step
    case ExecCall(t, _) => At(s, t).Outside?
    case WaitCall(t, _) => At(s, t).Outside?
    case ExecResume(t) => At(s, t).InExec? && At(s, t).pt < |s.sh.points|
    case WaitResume(t) => At(s, t).InWait? && At(s, t).sec.pt < |s.sh.points|
    case UnblockCall(sec) => Owed(s, sec) && At(s, sec.tid).Outside?
    case ExecSkipped(t, _) => At(s, t).Outside? && LocalInactive(s.sh)
    case WaitSkipped(t, _) => At(s, t).Outside? && LocalInactive(s.sh)
    case UnblockSkipped(sec) => Owed(s, sec) && At(s, sec.tid).Outside? && LocalInactive(s.sh)
    case _ => true
  }

  /** The segment that a step executes. */
  function Segment(s: State, step: Step): Effect
    requires Enabled(s, step)
  {
    match step
    case ExecCall(_, name) => ExecEnter(s.sh, name)
    case ExecResume(t) => ExecWake(s.sh, At(s, t).pt)
    case WaitCall(_, name) => WaitEnter(s.sh, name)
    case WaitResume(t) => WaitLoop(s.sh, At(s, t).sec.pt)
    case UnblockCall(sec) => Unblock(s.sh, sec.name)
    case EnableCall(name, enable) => Enable(s.sh, name, enable)
    case DisableAllCall => DisableAll(s.sh)
    case ActivateCall(activate) => Activate(s.sh, activate)
    case ActivateUnlocked => Effect(s.sh.(active := true), false, Returned(0))
    case _ => Effect(s.sh, false, Returned(0))
  }

  /** A broadcast reaches every thread asleep on the one condition variable. */
  function Woken(l: Location): Location {
    match l
    case Outside => l
    case InWait(sec, _) => InWait(sec, true)
    case InExec(pt, _) => InExec(pt, true)
  }

  /** Where the calling thread of a step is after it. */
  function CallerAfter(s: State, step: Step): Location
    requires Enabled(s, step)
  {
    var o := Segment(s, step).outcome;
    match step
    case ExecCall(t, _) => if o.Sleeps? then InExec(o.pt, false) else Outside
    case ExecResume(t) => if o.Sleeps? then At(s, t).(signalled := false) else Outside
    case WaitCall(t, name) => if o.Sleeps? then InWait(Section(s.next, t, o.pt, name), false) else Outside
    case WaitResume(t) => if o.Sleeps? then At(s, t).(signalled := false) else Outside
    case _ => Outside
  }

  function Caller(step: Step): set<Tid> {
    match step
    case ExecCall(t, _) => {t}
    case ExecResume(t) => {t}
    case WaitCall(t, _) => {t}
    case WaitResume(t) => {t}
    case _ => {}
  }

  /** The section that a step counts, if any. */
  function Counted(s: State, step: Step): set<Section> {
    match step
    case WaitCall(t, name) =>
      var i := Acquire(s.sh.points, name).1;
      if s.sh.active && i >= 0 then {Section(s.next, t, i, name)} else {}
    case _ => {}
  }

  /** The count of point `p`. */
  function CountOf(points: seq<Point>, p: nat): nat {
    if p < |points| then points[p].nblocked else 0
  }

  /** The section whose `ds_unblock` lowers the count of its point, if any. */
  function Unblocked(s: State, step: Step): set<Section>
    requires Enabled(s, step)
  {
    match step
    case UnblockCall(sec) =>
      if CountOf(Segment(s, step).sh.points, sec.pt) < CountOf(s.sh.points, sec.pt) then {sec} else {}
    case _ => {}
  }

  /** The counted section that a step ends without lowering the count, if any. */
  function Failed(s: State, step: Step): set<Section>
    requires Enabled(s, step)
  {
    match step
    case WaitCall(_, _) => if Segment(s, step).outcome == Returned(-1) then Counted(s, step) else {}
    case WaitResume(t) => if Segment(s, step).outcome == Returned(-1) then {At(s, t).sec} else {}
    case UnblockCall(sec) => {sec} - Unblocked(s, step)
    case UnblockSkipped(sec) => {sec}
    case _ => {}
  }

  function Next(s: State, step: Step): State
    requires Enabled(s, step)
  {
    var e := Segment(s, step);
    State(e.sh,
          map t | t in s.loc.Keys + Caller(step) ::
            if t in Caller(step) then CallerAfter(s, step)
            else if e.broadcast then Woken(s.loc[t]) else s.loc[t],
          (s.live + Counted(s, step)) - Failed(s, step) - Unblocked(s, step),
          s.lost + Failed(s, step),
          s.finished + Unblocked(s, step),
          s.next + 1)
  }

  ghost predicate Init(s: State) {
    && s.sh.points == []
    && s.loc == map[]
    && s.live == {} && s.lost == {} && s.finished == {}
  }

  /** A run: `states[i]` goes to `states[i + 1]` by `steps[i]`. */
  ghost predicate Run(states: seq<State>, steps: seq<Step>) {
    && |states| == |steps| + 1
    && Init(states[0])
    && forall i :: 0 <= i < |steps| ==> Enabled(states[i], steps[i]) && states[i + 1] == Next(states[i], steps[i])
  }

  /** Every segment that makes some sleeper's condition false broadcasts. */
  lemma SegmentEvolves(s: State, step: Step)
    requires Enabled(s, step) && SharedOk(s.sh)
    ensures SharedOk(Segment(s, step).sh)
    ensures Evolves(s.sh, Segment(s, step).sh, Segment(s, step).broadcast)
  {
    hide SharedOk, Evolves;
    match step
    case ExecCall(_, name) => ExecEnterEvolves(s.sh, name);
    case WaitCall(_, name) => WaitEnterEvolves(s.sh, name);
    case ExecResume(t) => ExecWakeEvolves(s.sh, At(s, t).pt);
    case UnblockCall(sec) => UnblockEvolves(s.sh, sec.name);
    case EnableCall(name, enable) => EnableEvolves(s.sh, name, enable);
    case WaitResume(_) => SameEvolves(s.sh, s.sh.active);
    case DisableAllCall => DisableAllEvolves(s.sh, s.sh.active);
    case ActivateCall(activate) => DisableAllEvolves(s.sh, activate);
    case ActivateUnlocked => SameEvolves(s.sh, true);
    case _ => SameEvolves(s.sh, s.sh.active);
  }

  // ---- the invariant ----

  /** The sections of point `p` among `xs`. */
  function SectionsAt(xs: set<Section>, p: nat): set<Section> {
    set x | x in xs && x.pt == p
  }

  ghost predicate SectionOk(s: State, x: Section) {
    && x.id < s.next
    && x.pt < |s.sh.points|
    && LookUp(s.sh.points, x.name) == (if |x.name| <= DS_MAX_POINT_NAME_LEN then x.pt else -1)
  }

  /** The count of a point is the number of its live and lost sections. */
  ghost predicate Accounted(s: State, p: nat)
    requires p < |s.sh.points|
  {
    s.sh.points[p].nblocked == |SectionsAt(s.live, p)| + |SectionsAt(s.lost, p)|
  }

  ghost predicate ThreadOk(s: State, t: Tid, l: Location) {
    match l
    case Outside => true
    case InWait(sec, signalled) =>
      && sec in s.live && sec.tid == t && sec.pt < |s.sh.points|
      && (!signalled ==> WaiterSleeps(s.sh.points[sec.pt]))
    case InExec(pt, signalled) =>
      && pt < |s.sh.points|
      && (!signalled ==> HolderSleeps(s.sh.points[pt]))
  }

  ghost predicate Inv(s: State) {
    && SharedOk(s.sh)
    && s.live !! s.lost
    && (forall x :: x in s.live + s.lost ==> SectionOk(s, x))
    && (forall p :: 0 <= p < |s.sh.points| ==> Accounted(s, p))
    && (forall t :: t in s.loc ==> ThreadOk(s, t, s.loc[t]))
  }

  // ---- sections ----

  lemma AcquiredSection(points: seq<Point>, name: string)
    requires forall p :: 0 <= p < |points| ==> |points[p].name| <= DS_MAX_POINT_NAME_LEN
    requires Acquire(points, name).1 >= 0
    ensures LookUp(Acquire(points, name).0, name)
         == if |name| <= DS_MAX_POINT_NAME_LEN then Acquire(points, name).1 else -1
  {
    hide LookUp;
    var (points', i) := Acquire(points, name);
    if LookUp(points, name) == -1 {
      NewPointLookUp(points, points', name);
    }
  }

  lemma NewPointLookUp(points: seq<Point>, points': seq<Point>, name: string)
    requires |points'| == |points| + 1
    requires forall p :: 0 <= p < |points| ==> points'[p] == points[p]
    requires points'[|points|].name == Stored(name)
    requires forall p :: 0 <= p < |points| ==> |points[p].name| <= DS_MAX_POINT_NAME_LEN
    requires LookUp(points, name) == -1
    ensures LookUp(points', name) == if |name| <= DS_MAX_POINT_NAME_LEN then |points| else -1
  {
    hide LookUp;
    assert forall k :: 0 <= k < |points| ==> points[k].name != name;
  }

  lemma LookUpKept(points: seq<Point>, points': seq<Point>, name: string, p: int)
    requires |points| <= |points'| && forall k :: 0 <= k < |points| ==> points'[k].name == points[k].name
    requires forall k :: 0 <= k < |points'| ==> |points'[k].name| <= DS_MAX_POINT_NAME_LEN
    requires LookUp(points, name) == (if |name| <= DS_MAX_POINT_NAME_LEN then p else -1) && p >= 0
    ensures LookUp(points', name) == if |name| <= DS_MAX_POINT_NAME_LEN then p else -1
  {
    if |name| <= DS_MAX_POINT_NAME_LEN {
      LookUpStable(points, points', name);
    }
  }

  lemma NextSections(s: State, step: Step)
    requires Enabled(s, step) && Inv(s)
    ensures forall x :: x in Next(s, step).live + Next(s, step).lost ==> SectionOk(Next(s, step), x)
  {
    hide LookUp, Acquire, Accounted, ThreadOk;
    var s' := Next(s, step);
    SegmentEvolves(s, step);
    CountedSection(s, step);
    forall x | x in s'.live + s'.lost ensures SectionOk(s', x) {
      if x in s.live + s.lost {
        LookUpKept(s.sh.points, s'.sh.points, x.name, x.pt);
      } else {
        NewSection(s, step, x);
      }
    }
  }

  /** A section is either old or the one that the step counts. */
  lemma NewSection(s: State, step: Step, x: Section)
    requires Enabled(s, step) && Inv(s)
    requires x in Next(s, step).live + Next(s, step).lost && x !in s.live + s.lost
    ensures x in Counted(s, step)
  {
    hide LookUp, Acquire, Accounted, SharedOk, SectionOk, Segment;
    assert step.WaitResume? ==> ThreadOk(s, step.t, s.loc[step.t]);
  }

  lemma CountedSection(s: State, step: Step)
    requires Enabled(s, step) && Inv(s)
    ensures forall x :: x in Counted(s, step) ==> SectionOk(Next(s, step), x)
  {
    hide Accounted, SectionOk, ThreadOk;
    if Counted(s, step) != {} {
      var (points, i) := Acquire(s.sh.points, step.name);
      AcquiredSection(s.sh.points, step.name);
      AcquireEvolves(s.sh, step.name);
      var q := points[i].(nblocked := points[i].nblocked + 1);
      SetPointEvolves(s.sh.(points := points), i, q, false);
      LookUpKept(points, points[i := q], step.name, i);
      CountedOk(s, step, Section(s.next, step.t, i, step.name));
    }
  }

  lemma CountedOk(s: State, step: Step, x: Section)
    requires Enabled(s, step)
    requires x.id < Next(s, step).next && x.pt < |Next(s, step).sh.points|
    requires LookUp(Next(s, step).sh.points, x.name) == (if |x.name| <= DS_MAX_POINT_NAME_LEN then x.pt else -1)
    ensures SectionOk(Next(s, step), x)
  {
    hide Next, LookUp;
  }

  /** A counted section never disappears, and a finished or lost one stays so. */
  lemma NextKeepsSections(s: State, step: Step)
    requires Enabled(s, step)
    ensures var s' := Next(s, step);
            && s.live + s.lost + s.finished <= s'.live + s'.lost + s'.finished
            && s.lost <= s'.lost && s.finished <= s'.finished
  {
    hide Segment, Counted;
  }

  lemma NextDisjoint(s: State, step: Step)
    requires Enabled(s, step) && Inv(s)
    ensures Next(s, step).live !! Next(s, step).lost
  {
    hide Segment, Acquire, LookUp, SharedOk, Accounted;
    assert forall x :: x in s.live + s.lost ==> SectionOk(s, x) && x.id < s.next;
  }

  // ---- counting ----

  lemma SectionsAdd(xs: set<Section>, x: Section, p: nat)
    ensures SectionsAt(xs + {x}, p) == if x.pt == p then SectionsAt(xs, p) + {x} else SectionsAt(xs, p)
  {
  }

  lemma SectionsRemove(xs: set<Section>, x: Section, p: nat)
    ensures SectionsAt(xs - {x}, p) == if x.pt == p then SectionsAt(xs, p) - {x} else SectionsAt(xs, p)
  {
  }

  /** What the count of point `p` should be. */
  function SectionCount(s: State, p: nat): nat {
    |SectionsAt(s.live, p)| + |SectionsAt(s.lost, p)|
  }

  lemma OwedIsCounted(s: State, sec: Section)
    requires Inv(s) && sec in s.live
    ensures sec.pt < |s.sh.points| && s.sh.points[sec.pt].nblocked >= 1
  {
    assert SectionOk(s, sec) && Accounted(s, sec.pt);
    assert sec in SectionsAt(s.live, sec.pt);
  }

  /** A `ds_unblock` that obeys the discipline never meets a zero count. */
  lemma UnblockSegment(s: State, sec: Section)
    requires Inv(s) && sec in s.live
    ensures var o := Unblock(s.sh, sec.name).outcome;
            && o == Returned(if s.sh.active && |sec.name| <= DS_MAX_POINT_NAME_LEN then 0 else -1)
            && forall p :: CountOf(Unblock(s.sh, sec.name).sh.points, p)
                 == CountOf(s.sh.points, p) - if o == Returned(0) && p == sec.pt then 1 else 0
  {
    hide LookUp;
    OwedIsCounted(s, sec);
    assert SectionOk(s, sec);
  }

  /** Only `ds_wait` and `ds_unblock` change a count. */
  lemma CountKept(s: State, step: Step, p: nat)
    requires Enabled(s, step) && !step.WaitCall? && !step.UnblockCall? && !step.UnblockSkipped?
    ensures CountOf(Segment(s, step).sh.points, p) == CountOf(s.sh.points, p)
  {
    hide LookUp, Acquire;
    if step.ExecCall? {
      AcquireCount(s.sh.points, step.name, p);
    }
  }

  /** Every step changes the count of a point by as much as its sections. */
  lemma NextCount(s: State, step: Step, p: nat)
    requires Enabled(s, step) && Inv(s)
    ensures CountOf(Next(s, step).sh.points, p) - SectionCount(Next(s, step), p)
         == CountOf(s.sh.points, p) - SectionCount(s, p)
  {
    hide LookUp, Acquire, SharedOk, CountOf, Segment, Inv, Next, SectionCount;
    if step.WaitCall? {
      WaitCount(s, step.t, step.name, p);
    } else if step.UnblockCall? {
      UnblockCount(s, step.sec, p);
    } else if step.UnblockSkipped? {
      SkippedCount(s, step.sec, p);
    } else if step.WaitResume? {
      ResumeCount(s, step.t, p);
    } else {
      CountKept(s, step, p);
      SectionsKept(s, step, p);
    }
  }

  lemma SectionsKept(s: State, step: Step, p: nat)
    requires Enabled(s, step)
    requires !step.WaitCall? && !step.UnblockCall? && !step.UnblockSkipped? && !step.WaitResume?
    ensures SectionCount(Next(s, step), p) == SectionCount(s, p) && Next(s, step).sh == Segment(s, step).sh
  {
    hide LookUp, Acquire, Segment, SectionsAt;
    assert Next(s, step).live == s.live && Next(s, step).lost == s.lost;
  }

  lemma UnblockNext(s: State, x: Section)
    requires Enabled(s, UnblockCall(x)) && Inv(s)
    ensures var (e, s') := (Unblock(s.sh, x.name), Next(s, UnblockCall(x)));
            && s'.sh == e.sh && s'.live == s.live - {x}
            && s'.lost == (if e.outcome == Returned(0) then s.lost else s.lost + {x})
            && s'.finished == (if e.outcome == Returned(0) then s.finished + {x} else s.finished)
            && forall t :: At(s', t) == if e.broadcast then Woken(At(s, t)) else At(s, t)
  {
    hide LookUp, Unblock, CountOf, Inv;
    UnblockSegment(s, x);
    OwedIsCounted(s, x);
    CountAt(s.sh.points, x.pt);
  }

  lemma CountAt(points: seq<Point>, p: nat)
    requires p < |points|
    ensures CountOf(points, p) == points[p].nblocked
  {
  }

  /** What becomes of an owed section moves it out of the live ones. */
  lemma MovedCount(s: State, s': State, x: Section, p: nat)
    requires x in s.live && x !in s.lost && s'.live == s.live - {x}
    requires s'.lost == s.lost || s'.lost == s.lost + {x}
    ensures SectionCount(s', p) == SectionCount(s, p) - if p == x.pt && s'.lost == s.lost then 1 else 0
  {
    hide SectionsAt;
    SectionsRemove(s.live, x, p);
    SectionsAdd(s.lost, x, p);
    InSectionsAt(s.live, x);
    InSectionsAt(s.lost, x);
  }

  lemma LiveNotLost(s: State, x: Section)
    requires Inv(s) && x in s.live
    ensures x !in s.lost
  {
  }

  lemma UnblockCount(s: State, sec: Section, p: nat)
    requires Enabled(s, UnblockCall(sec)) && Inv(s)
    ensures var s' := Next(s, UnblockCall(sec));
            CountOf(s'.sh.points, p) - SectionCount(s', p) == CountOf(s.sh.points, p) - SectionCount(s, p)
  {
    hide Inv, CountOf, Unblock, SectionCount, Next;
    UnblockSegment(s, sec);
    UnblockNext(s, sec);
    LiveNotLost(s, sec);
    MovedCount(s, Next(s, UnblockCall(sec)), sec, p);
  }

  lemma SkippedCount(s: State, sec: Section, p: nat)
    requires Enabled(s, UnblockSkipped(sec)) && Inv(s)
    ensures var s' := Next(s, UnblockSkipped(sec));
            CountOf(s'.sh.points, p) - SectionCount(s', p) == CountOf(s.sh.points, p) - SectionCount(s, p)
  {
    hide Inv, CountOf, SectionCount;
    LiveNotLost(s, sec);
    MovedCount(s, Next(s, UnblockSkipped(sec)), sec, p);
  }

  lemma InSectionsAt(xs: set<Section>, x: Section)
    ensures x in SectionsAt(xs, x.pt) <==> x in xs
  {
  }

  lemma ResumeNext(s: State, t: Tid)
    requires Enabled(s, WaitResume(t))
    ensures Next(s, WaitResume(t)).sh == s.sh
    ensures var (s', sec) := (Next(s, WaitResume(t)), At(s, t).sec);
            if WaitLoop(s.sh, sec.pt).outcome == Returned(-1)
            then s'.live == s.live - {sec} && s'.lost == s.lost + {sec}
            else s'.live == s.live && s'.lost == s.lost
  {
  }

  lemma ResumeCount(s: State, t: Tid, p: nat)
    requires Enabled(s, WaitResume(t)) && Inv(s)
    ensures var s' := Next(s, WaitResume(t));
            CountOf(s'.sh.points, p) - SectionCount(s', p) == CountOf(s.sh.points, p) - SectionCount(s, p)
  {
    hide SharedOk, CountOf, SectionOk, Accounted, SectionsAt, Next;
    assert ThreadOk(s, t, s.loc[t]);
    ResumeNext(s, t);
    LiveNotLost(s, At(s, t).sec);
    if WaitLoop(s.sh, At(s, t).sec.pt).outcome == Returned(-1) {
      MovedCount(s, Next(s, WaitResume(t)), At(s, t).sec, p);
    }
  }

  lemma AcquireCount(points: seq<Point>, name: string, p: nat)
    ensures CountOf(Acquire(points, name).0, p) == CountOf(points, p)
  {
  }

  lemma WaitEnterCount(sh: Shared, name: string, i: int, p: nat)
    requires i == Acquire(sh.points, name).1
    ensures CountOf(WaitEnter(sh, name).sh.points, p)
         == CountOf(sh.points, p) + if sh.active && i >= 0 && p == i then 1 else 0
  {
    hide LookUp, Acquire;
    AcquireCount(sh.points, name, p);
  }

  /** A counted `ds_wait` call adds its section to the live or to the lost. */
  lemma WaitSections(s: State, t: Tid, name: string, i: int)
    requires Enabled(s, WaitCall(t, name)) && Inv(s) && i == Acquire(s.sh.points, name).1
    ensures var s' := Next(s, WaitCall(t, name));
            if s.sh.active && i >= 0 then
              var x := Section(s.next, t, i, name);
              && x !in s.live + s.lost
              && if WaitEnter(s.sh, name).outcome == Returned(-1)
                 then s'.live == s.live && s'.lost == s.lost + {x}
                 else s'.live == s.live + {x} && s'.lost == s.lost
            else s'.live == s.live && s'.lost == s.lost
  {
    hide LookUp, Acquire, SharedOk, WaitEnter, Accounted, ThreadOk;
    assert forall y :: y in s.live + s.lost ==> SectionOk(s, y) && y.id < s.next;
  }

  lemma WaitCount(s: State, t: Tid, name: string, p: nat)
    requires Enabled(s, WaitCall(t, name)) && Inv(s)
    ensures var s' := Next(s, WaitCall(t, name));
            CountOf(s'.sh.points, p) - SectionCount(s', p) == CountOf(s.sh.points, p) - SectionCount(s, p)
  {
    hide LookUp, Acquire, Inv, CountOf, WaitEnter, SectionsAt, Counted, Failed;
    var i := Acquire(s.sh.points, name).1;
    WaitSections(s, t, name, i);
    WaitEnterCount(s.sh, name, i, p);
    if s.sh.active && i >= 0 {
      var x := Section(s.next, t, i, name);
      SectionsAdd(s.live, x, p);
      SectionsAdd(s.lost, x, p);
      InSectionsAt(s.live, x);
      InSectionsAt(s.lost, x);
    }
  }

  lemma NoSectionBeyond(s: State, p: nat)
    requires Inv(s) && p >= |s.sh.points|
    ensures SectionCount(s, p) == 0
  {
    hide SharedOk, Accounted, ThreadOk;
    forall x | x in s.live + s.lost ensures x.pt != p {
      assert SectionOk(s, x);
    }
    assert SectionsAt(s.live, p) == {} && SectionsAt(s.lost, p) == {};
  }

  lemma NextAccounted(s: State, step: Step, p: nat)
    requires Enabled(s, step) && Inv(s)
    requires p < |Next(s, step).sh.points|
    ensures Accounted(Next(s, step), p)
  {
    hide SharedOk, LookUp, Acquire, Segment, Next, SectionsAt;
    NextCount(s, step, p);
    if p < |s.sh.points| {
      assert Accounted(s, p);
    } else {
      NoSectionBeyond(s, p);
    }
  }

  // ---- threads ----

  lemma EvolvesAt(sh: Shared, sh': Shared, broadcast: bool, p: nat)
    requires Evolves(sh, sh', broadcast) && p < |sh.points|
    ensures p < |sh'.points| && PointEvolves(sh.points[p], sh'.points[p], broadcast)
  {
  }

  lemma RaisedIsCounted(sh: Shared, p: nat)
    requires SharedOk(sh) && p < |sh.points| && sh.points[p].inSyncwait
    ensures sh.points[p].nblocked > 0
  {
  }

  lemma EnabledIsActive(sh: Shared, p: nat)
    requires SharedOk(sh) && p < |sh.points| && sh.points[p].isEnabled
    ensures sh.active
  {
  }

  /** A section that a thread other than the caller waits in stays live. */
  lemma OtherSectionStays(s: State, step: Step, t: Tid)
    requires Enabled(s, step) && Inv(s)
    requires t in s.loc && t !in Caller(step) && s.loc[t].InWait?
    ensures s.loc[t].sec in Next(s, step).live
  {
    hide LookUp, Acquire, SharedOk, Accounted;
    var sec := s.loc[t].sec;
    assert ThreadOk(s, t, s.loc[t]);
    assert SectionOk(s, sec);
    if step.WaitResume? {
      assert ThreadOk(s, step.t, s.loc[step.t]);
    }
  }

  lemma OtherWaiter(s: State, step: Step, t: Tid)
    requires Enabled(s, step) && Inv(s)
    requires t in s.loc && t !in Caller(step) && s.loc[t].InWait?
    ensures ThreadOk(Next(s, step), t, Next(s, step).loc[t])
  {
    hide LookUp, Acquire, SharedOk, Segment, Evolves, Accounted, SectionOk;
    assert ThreadOk(s, t, s.loc[t]);
    OtherSectionStays(s, step, t);
    OwedIsCounted(s, s.loc[t].sec);
    SegmentEvolves(s, step);
    EvolvesAt(s.sh, Segment(s, step).sh, Segment(s, step).broadcast, s.loc[t].sec.pt);
  }

  lemma OtherHolder(s: State, step: Step, t: Tid)
    requires Enabled(s, step) && Inv(s)
    requires t in s.loc && t !in Caller(step) && s.loc[t].InExec?
    ensures ThreadOk(Next(s, step), t, Next(s, step).loc[t])
  {
    hide LookUp, Acquire, SharedOk, SectionOk, Segment, Evolves, Accounted;
    assert ThreadOk(s, t, s.loc[t]);
    SegmentEvolves(s, step);
    EvolvesAt(s.sh, Segment(s, step).sh, Segment(s, step).broadcast, s.loc[t].pt);
    if s.sh.points[s.loc[t].pt].inSyncwait {
      RaisedIsCounted(s.sh, s.loc[t].pt);
    }
  }

  /** The calling thread itself. */
  lemma CallingThread(s: State, step: Step, t: Tid)
    requires Enabled(s, step) && Inv(s)
    requires t in Caller(step)
    ensures ThreadOk(Next(s, step), t, Next(s, step).loc[t])
  {
    hide LookUp, Acquire, Accounted, SharedOk, SectionOk;
    if t in s.loc {
      assert ThreadOk(s, t, s.loc[t]);
    }
  }

  /** Every step keeps the invariant. */
  lemma NextInv(s: State, step: Step)
    requires Enabled(s, step) && Inv(s)
    ensures Inv(Next(s, step))
  {
    hide SharedOk, ThreadOk, Accounted, SectionOk, Segment, LookUp, Acquire;
    var s' := Next(s, step);
    SegmentEvolves(s, step);
    NextSections(s, step);
    NextDisjoint(s, step);
    forall p | 0 <= p < |s'.sh.points| ensures Accounted(s', p) {
      NextAccounted(s, step, p);
    }
    forall t | t in s'.loc ensures ThreadOk(s', t, s'.loc[t]) {
      if t in Caller(step) {
        CallingThread(s, step, t);
      } else if s.loc[t].InWait? {
        OtherWaiter(s, step, t);
      } else if s.loc[t].InExec? {
        OtherHolder(s, step, t);
      } else {
        OutsideOk(s', t);
      }
    }
  }

  lemma OutsideOk(s: State, t: Tid)
    ensures ThreadOk(s, t, Outside)
  {
  }

  /** The invariant holds in every reachable state. */
  lemma {:induction false} RunInv(states: seq<State>, steps: seq<Step>, i: nat)
    requires Run(states, steps) && i < |states|
    ensures Inv(states[i])
  {
    if i > 0 {
      RunInv(states, steps, i - 1);
      NextInv(states[i - 1], steps[i - 1]);
    }
  }

  /** A section that will never lower the count: it is lost, or its name is too
      long to be found by its `ds_unblock`. */
  predicate Stuck(s: State, x: Section) {
    x in s.lost || (x in s.live && |x.name| > DS_MAX_POINT_NAME_LEN)
  }

  lemma StuckStays(s: State, step: Step, x: Section)
    requires Enabled(s, step) && Inv(s) && Stuck(s, x)
    ensures Stuck(Next(s, step), x)
  {
    hide Inv, CountOf, Segment, Counted;
    if step.UnblockCall? && step.sec == x {
      LiveNotLost(s, x);
      UnblockSegment(s, x);
      UnblockNext(s, x);
    }
  }

  /** Over a run no counted section disappears, and what is lost or finished
      stays so. */
  lemma {:induction false} RunKeepsSections(states: seq<State>, steps: seq<Step>, i: nat, j: nat)
    requires Run(states, steps) && i <= j < |states|
    ensures states[i].live + states[i].lost + states[i].finished
         <= states[j].live + states[j].lost + states[j].finished
    ensures states[i].lost <= states[j].lost && states[i].finished <= states[j].finished
    decreases j
  {
    hide Next, Enabled;
    if i < j {
      RunKeepsSections(states, steps, i, j - 1);
      NextKeepsSections(states[j - 1], steps[j - 1]);
    }
  }
}
