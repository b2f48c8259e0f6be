/** What every call of debug sync answers and changes in every reachable state,
    told by the names in the table and by the sections of the point. */
module DebugSyncAnswers {
  import opened DebugSync
  import opened DebugSyncProtocol

  /** Point `p` is the first one called `name`. */
  predicate IsFirst(points: seq<Point>, p: int, name: string) {
    0 <= p < |points| && points[p].name == name && forall k :: 0 <= k < p ==> points[k].name != name
  }

  predicate Known(points: seq<Point>, name: string) {
    exists k :: 0 <= k < |points| && points[k].name == name
  }

  /** Only point `p` may differ. */
  predicate OthersSame(points: seq<Point>, points': seq<Point>, p: int) {
    && |points'| == |points|
    && forall k :: 0 <= k < |points| && k != p ==> points'[k] == points[k]
  }

  lemma LookUpIsFirst(points: seq<Point>, name: string)
    ensures LookUp(points, name) >= 0 <==> Known(points, name)
    ensures LookUp(points, name) >= 0 ==> IsFirst(points, LookUp(points, name), name)
    ensures forall p :: IsFirst(points, p, name) ==> p == LookUp(points, name)
  {
    hide LookUp;
    var i := LookUp(points, name);
    assert i >= 0 ==> points[i].name == name;
  }

  /** `acquire` gives the first point of that name; failing that a new one,
      enabled, lowered, without sections and named by the first 32 characters;
      and it fails exactly when 256 other points are there. */
  lemma AcquireAnswers(points: seq<Point>, name: string)
    ensures var (points', p) := Acquire(points, name);
      && (p == -1 <==> !Known(points, name) && |points| >= 256)
      && (p == -1 || Known(points, name) ==> points' == points)
      && (Known(points, name) ==> IsFirst(points, p, name))
      && (p >= 0 && !Known(points, name) ==>
            && p == |points| && |points'| == p + 1 && points'[..p] == points
            && points'[p].isEnabled && !points'[p].inSyncwait && points'[p].nblocked == 0
            && points'[p].name <= name && |points'[p].name| == if |name| < 32 then |name| else 32)
  {
    hide LookUp;
    LookUpIsFirst(points, name);
  }

  lemma CountIsSections(s: State, p: nat)
    requires Inv(s)
    ensures CountOf(s.sh.points, p) == SectionCount(s, p)
  {
    hide SharedOk, SectionOk, ThreadOk;
    if p < |s.sh.points| {
      assert Accounted(s, p);
    } else {
      NoSectionBeyond(s, p);
    }
  }

  /** The point that `ds_exec` and `ds_wait` act on, -1 when they fail before. */
  function Target(sh: Shared, name: string): (p: int)
    ensures p == -1 || 0 <= p < |Acquire(sh.points, name).0|
  {
    if sh.active then Acquire(sh.points, name).1 else -1
  }

  /** The table after looking up or creating the point. */
  function Looked(sh: Shared, name: string): seq<Point> {
    if sh.active then Acquire(sh.points, name).0 else sh.points
  }

  lemma TargetCount(s: State, name: string)
    requires Inv(s) && Target(s.sh, name) >= 0
    ensures Looked(s.sh, name)[Target(s.sh, name)].nblocked == SectionCount(s, Target(s.sh, name))
  {
    hide LookUp, Acquire, Inv, SectionCount;
    var p := Target(s.sh, name);
    AcquireCount(s.sh.points, name, p);
    CountIsSections(s, p);
    CountAt(Looked(s.sh, name), p);
  }

  lemma TargetRaised(s: State, name: string)
    requires Inv(s) && Target(s.sh, name) >= 0
    ensures Looked(s.sh, name)[Target(s.sh, name)].inSyncwait ==> SectionCount(s, Target(s.sh, name)) > 0
  {
    hide LookUp, SectionOk, ThreadOk, Accounted, SectionCount;
    TargetCount(s, name);
  }

  // ---- ds_exec ----

  /** Main result: `ds_exec` returns 0 at once exactly when the point is
      available and has no sections, sleeps exactly when it has some and is
      enabled and not raised, and fails exactly when there is no point, or one
      with sections that is busy or disabled. It raises the point when it
      sleeps, lowers a disabled one and changes nothing else. */
  lemma ExecAnswers(states: seq<State>, steps: seq<Step>, i: nat, t: Tid, name: string)
    requires Run(states, steps) && i < |steps| && steps[i] == ExecCall(t, name)
    ensures var (s, e) := (states[i], Segment(states[i], steps[i]));
      var (points, p) := (Looked(s.sh, name), Target(s.sh, name));
      && (e.outcome == Returned(0) <==> p >= 0 && SectionCount(s, p) == 0)
      && (e.outcome.Sleeps? <==> p >= 0 && SectionCount(s, p) > 0 && (!points[p].inSyncwait && points[p].isEnabled))
      && (e.outcome.Sleeps? ==> e.outcome.pt == p)
      && (e.outcome == Returned(-1) <==> p == -1 || (SectionCount(s, p) > 0 && (points[p].inSyncwait || !points[p].isEnabled)))
      && (e.broadcast <==> p >= 0 && SectionCount(s, p) > 0 && !(points[p].inSyncwait && points[p].isEnabled))
      && e.sh.active == s.sh.active && e.sh.global == s.sh.global && OthersSame(points, e.sh.points, p)
      && (p >= 0 ==>
            var raised := e.outcome.Sleeps? || (points[p].inSyncwait && points[p].isEnabled);
            e.sh.points[p] == points[p].(inSyncwait := raised))
  {
    hide LookUp, Acquire, Inv, SectionCount, Next;
    RunInv(states, steps, i);
    if Target(states[i].sh, name) >= 0 {
      TargetCount(states[i], name);
      TargetRaised(states[i], name);
    }
  }

  /** Main result: woken up, `ds_exec` sleeps on exactly while its point is
      raised and enabled, and returns 0 exactly when it is enabled and lowered;
      it leaves the point lowered. */
  lemma ExecWakeAnswers(states: seq<State>, steps: seq<Step>, i: nat, t: Tid)
    requires Run(states, steps) && i < |steps| && steps[i] == ExecResume(t)
    ensures var (s, e, p) := (states[i], Segment(states[i], steps[i]), At(states[i], t).pt);
      && p < |s.sh.points|
      && (e.outcome == Sleeps(p) <==> (s.sh.points[p].inSyncwait && s.sh.points[p].isEnabled))
      && (e.outcome == Returned(0) <==> s.sh.points[p].isEnabled && !s.sh.points[p].inSyncwait)
      && (e.outcome == Returned(-1) <==> !s.sh.points[p].isEnabled)
      && !e.broadcast && e.sh.active == s.sh.active && e.sh.global == s.sh.global
      && OthersSame(s.sh.points, e.sh.points, p)
      && e.sh.points[p] == s.sh.points[p].(inSyncwait := e.outcome.Sleeps?)
  {
    hide Next;
  }

  // ---- ds_wait ----

  /** Main result: `ds_wait` counts itself exactly when the point is available;
      it then sleeps on an enabled point until that is raised, returns 0 on one
      that is raised, and -1 on a disabled one. */
  lemma WaitAnswers(states: seq<State>, steps: seq<Step>, i: nat, t: Tid, name: string)
    requires Run(states, steps) && i < |steps| && steps[i] == WaitCall(t, name)
    ensures var (s, e) := (states[i], Segment(states[i], steps[i]));
      var (points, p) := (Looked(s.sh, name), Target(s.sh, name));
      && (e.outcome == Returned(0) <==> p >= 0 && (points[p].inSyncwait && points[p].isEnabled))
      && (e.outcome.Sleeps? <==> p >= 0 && (!points[p].inSyncwait && points[p].isEnabled))
      && (e.outcome.Sleeps? ==> e.outcome.pt == p)
      && (e.outcome == Returned(-1) <==> p == -1 || !points[p].isEnabled)
      && !e.broadcast && e.sh.active == s.sh.active && e.sh.global == s.sh.global
      && OthersSame(points, e.sh.points, p)
      && (p >= 0 ==> e.sh.points[p] == points[p].(nblocked := SectionCount(s, p) + 1))
  {
    hide LookUp, Acquire, Inv, SectionCount, Next;
    RunInv(states, steps, i);
    if Target(states[i].sh, name) >= 0 {
      TargetCount(states[i], name);
    }
  }

  lemma WaitWakeAnswers(states: seq<State>, steps: seq<Step>, i: nat, t: Tid)
    requires Run(states, steps) && i < |steps| && steps[i] == WaitResume(t)
    ensures var (s, e, p) := (states[i], Segment(states[i], steps[i]), At(states[i], t).sec.pt);
      && p < |s.sh.points| && e.sh == s.sh && !e.broadcast
      && (e.outcome == Sleeps(p) <==> (!s.sh.points[p].inSyncwait && s.sh.points[p].isEnabled))
      && (e.outcome == Returned(0) <==> (s.sh.points[p].inSyncwait && s.sh.points[p].isEnabled))
      && (e.outcome == Returned(-1) <==> !s.sh.points[p].isEnabled)
  {
    hide Next;
  }

  // ---- ds_unblock ----

  /** Main result: an owed `ds_unblock` takes its section off the count, with 0,
      exactly when the framework is active and the name was stored whole; the
      last one of a point lowers it and broadcasts. */
  lemma UnblockAnswers(states: seq<State>, steps: seq<Step>, i: nat, x: Section)
    requires Run(states, steps) && i < |steps| && steps[i] == UnblockCall(x)
    ensures var (s, e) := (states[i], Segment(states[i], steps[i]));
      var (effective, n) := (s.sh.active && |x.name| <= 32, SectionCount(s, x.pt));
      && e.outcome == Returned(if effective then 0 else -1)
      && n > 0 && x.pt < |s.sh.points|
      && (e.broadcast <==> effective && n == 1)
      && (!effective ==> e.sh == s.sh)
      && (effective ==>
            && e.sh.active && e.sh.global == s.sh.global && OthersSame(s.sh.points, e.sh.points, x.pt)
            && e.sh.points[x.pt]
            == s.sh.points[x.pt].(nblocked := n - 1, inSyncwait := s.sh.points[x.pt].inSyncwait && n > 1))
  {
    hide LookUp, SharedOk, ThreadOk, SectionCount, Accounted, Next;
    var s := states[i];
    RunInv(states, steps, i);
    assert SectionOk(s, x);
    OwedIsCounted(s, x);
    CountIsSections(s, x.pt);
    CountAt(s.sh.points, x.pt);
  }

  // ---- ds_enable, ds_disable_all, ds_activate ----

  /** Main result: `ds_enable` sets the first point of the given name and no
      other, with 0 exactly when the framework is active and there is one. */
  lemma EnableAnswers(states: seq<State>, steps: seq<Step>, i: nat, name: string, enable: bool)
    requires Run(states, steps) && i < |steps| && steps[i] == EnableCall(name, enable)
    ensures var (s, e) := (states[i], Segment(states[i], steps[i]));
      var found := s.sh.active && Known(s.sh.points, name);
      && e.outcome == Returned(if found then 0 else -1)
      && e.sh.active == s.sh.active && e.sh.global == s.sh.global && |e.sh.points| == |s.sh.points|
      && (forall p :: 0 <= p < |s.sh.points| ==>
            var named := found && IsFirst(s.sh.points, p, name);
            e.sh.points[p] == if named then s.sh.points[p].(isEnabled := enable) else s.sh.points[p])
      && (e.broadcast <==>
            found && !enable && exists p: nat :: IsFirst(s.sh.points, p, name) && SectionCount(s, p) > 0)
  {
    hide LookUp, Inv, SectionCount, Next;
    var s := states[i];
    RunInv(states, steps, i);
    LookUpIsFirst(s.sh.points, name);
    var p := LookUp(s.sh.points, name);
    if p >= 0 {
      CountIsSections(s, p);
      CountAt(s.sh.points, p);
    }
  }

  /** With distinct names that is the one point called so. */
  lemma EnableByName(sh: Shared, name: string, enable: bool)
    requires sh.active && DistinctNames(sh.points)
    ensures var points' := Enable(sh, name, enable).sh.points;
      && |points'| == |sh.points|
      && forall p :: 0 <= p < |sh.points| ==>
           points'[p] == if sh.points[p].name == name then sh.points[p].(isEnabled := enable) else sh.points[p]
  {
    hide LookUp;
    LookUpIsFirst(sh.points, name);
  }

  /** Main result: disabling all and switching the framework on or off disable
      every point of an active framework, and they broadcast exactly when that
      ends some wait. */
  lemma DisableAnswers(states: seq<State>, steps: seq<Step>, i: nat)
    requires Run(states, steps) && i < |steps| && (steps[i].DisableAllCall? || steps[i].ActivateCall?)
    ensures var (s, step, e) := (states[i], steps[i], Segment(states[i], steps[i]));
      && e.outcome == Returned(0) && e.sh.global == s.sh.global
      && e.sh.active == (if step.ActivateCall? then step.activate else s.sh.active)
      && |e.sh.points| == |s.sh.points|
      && (forall p :: 0 <= p < |s.sh.points| ==>
            e.sh.points[p] == if s.sh.active then s.sh.points[p].(isEnabled := false) else s.sh.points[p])
      && (e.broadcast <==>
            s.sh.active && exists p :: 0 <= p < |s.sh.points| && s.sh.points[p].isEnabled && SectionCount(s, p) > 0)
  {
    hide Inv, SectionCount, Next;
    var s := states[i];
    RunInv(states, steps, i);
    forall p | 0 <= p < |s.sh.points| ensures s.sh.points[p].nblocked == SectionCount(s, p) {
      CountIsSections(s, p);
      CountAt(s.sh.points, p);
    }
  }

  // ---- without the lock ----

  /** A call is skipped only while the framework is inactive and activation not
      global; it returns 0 and changes nothing in the table. The unlocked
      activation sets that one flag. */
  lemma UnlockedAnswers(s: State, step: Step)
    requires Enabled(s, step)
    requires step.ExecSkipped? || step.WaitSkipped? || step.UnblockSkipped? || step.ActivateUnlocked?
    ensures Segment(s, step).outcome == Returned(0) && !Segment(s, step).broadcast
    ensures Segment(s, step).sh.global == s.sh.global && Segment(s, step).sh.points == s.sh.points
    ensures Segment(s, step).sh.active == (s.sh.active || step.ActivateUnlocked?)
    ensures !step.ActivateUnlocked? ==> !s.sh.active && !s.sh.global
  {
  }
}
