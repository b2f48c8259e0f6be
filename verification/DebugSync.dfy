/** The debug-sync monitor of debugsync/debugsync.c, one mutex-held segment at a
    time. A segment runs from taking the mutex (or from waking up inside
    `pthread_cond_wait`) to the next `pthread_cond_wait` or to the unlock. */
module DebugSync {

  const DS_MAX_POINT_NAME_LEN := 32
  const DS_MAX_POINT_COUNT := 256

  datatype Point = Point(name: string, isEnabled: bool, inSyncwait: bool, nblocked: nat)

  /** `active` and `global` are the two bits of the activation word. */
  datatype Shared = Shared(active: bool, global: bool, points: seq<Point>)

  /** The test at the head of every call, made without the lock: the call then
      returns at once with 0. */
  predicate LocalInactive(sh: Shared) {
    !sh.active && !sh.global
  }

  /** What a segment ends in: a return code, a wait on the condition variable
      for the point with the given index, or a failed assertion. */
  datatype Outcome = Returned(rc: int) | Sleeps(pt: nat) | AssertFailed

  /** New shared state, whether the condition was broadcast, and the outcome. */
  datatype Effect = Effect(sh: Shared, broadcast: bool, outcome: Outcome)

  // ---- lookup and creation ----

  /** Index of the first point called `name`, or -1. */
  function LookUp(points: seq<Point>, name: string): (i: int)
    ensures -1 <= i < |points|
    ensures i >= 0 ==> points[i].name == name && forall j :: 0 <= j < i ==> points[j].name != name
    ensures i == -1 ==> forall j :: 0 <= j < |points| ==> points[j].name != name
  {
    if points == [] then -1
    else
      var last := |points| - 1;
      var i := LookUp(points[..last], name);
      if i >= 0 then i else if points[last].name == name then last else -1
  }

  /** What `strndup` keeps of a name. */
  function Stored(name: string): string {
    if |name| <= DS_MAX_POINT_NAME_LEN then name else name[..DS_MAX_POINT_NAME_LEN]
  }

  /** The table after `acquire`, and the index of the point or -1. */
  function Acquire(points: seq<Point>, name: string): (r: (seq<Point>, int))
    ensures -1 <= r.1 < |r.0|
    ensures points <= r.0
  {
    var i := LookUp(points, name);
    if i >= 0 then (points, i)
    else if |points| >= DS_MAX_POINT_COUNT then (points, -1)
    else (points + [Point(Stored(name), true, false, 0)], |points|)
  }

  // ---- segments ----

  function DisabledPoints(points: seq<Point>): (r: seq<Point>)
    ensures |r| == |points|
    ensures forall i :: 0 <= i < |r| ==> r[i] == points[i].(isEnabled := false)
  {
    seq(|points|, i requires 0 <= i < |points| => points[i].(isEnabled := false))
  }

  predicate PendingWaits(points: seq<Point>) {
    exists i :: 0 <= i < |points| && points[i].isEnabled && points[i].nblocked > 0
  }

  function SetPoint(sh: Shared, i: nat, pt: Point): Shared
    requires i < |sh.points|
  {
    sh.(points := sh.points[i := pt])
  }

  /** `disable_all` under the lock, when the framework is active. */
  function DisableAll(sh: Shared): Effect {
    if !sh.active then Effect(sh, false, Returned(0))
    else Effect(sh.(points := DisabledPoints(sh.points)), PendingWaits(sh.points), Returned(0))
  }

  /** `ds_activate` on its locked path. */
  function Activate(sh: Shared, activate: bool): Effect {
    var e := DisableAll(sh);
    e.(sh := e.sh.(active := activate))
  }

  function Enable(sh: Shared, name: string, enable: bool): Effect {
    if !sh.active then Effect(sh, false, Returned(-1))
    else
      var i := LookUp(sh.points, name);
      if i < 0 then Effect(sh, false, Returned(-1))
      else
        var pt := sh.points[i].(isEnabled := enable);
        Effect(SetPoint(sh, i, pt), !enable && pt.nblocked > 0, Returned(0))
  }

  /** `ds_exec` up to its first wait or its return. */
  function ExecEnter(sh: Shared, name: string): Effect {
    if !sh.active then Effect(sh, false, Returned(-1))
    else
      var (points, i) := Acquire(sh.points, name);
      var sh1 := sh.(points := points);
      if i < 0 then Effect(sh1, false, Returned(-1))
      else if points[i].isEnabled && points[i].inSyncwait then Effect(sh1, false, Returned(-1))
      else if points[i].nblocked == 0 then Effect(sh1, false, Returned(0))
      else if points[i].isEnabled then Effect(SetPoint(sh1, i, points[i].(inSyncwait := true)), true, Sleeps(i))
      else Effect(SetPoint(sh1, i, points[i].(inSyncwait := false)), true, Returned(-1))
  }

  /** `ds_exec` after waking up. */
  function ExecWake(sh: Shared, i: nat): Effect
    requires i < |sh.points|
  {
    var pt := sh.points[i];
    if pt.inSyncwait && pt.isEnabled then Effect(sh, false, Sleeps(i))
    else Effect(SetPoint(sh, i, pt.(inSyncwait := false)), false, Returned(if pt.isEnabled then 0 else -1))
  }

  /** The wait loop of `ds_wait`: sleep again or return. */
  function WaitLoop(sh: Shared, i: nat): Effect
    requires i < |sh.points|
  {
    var pt := sh.points[i];
    Effect(sh, false, if !pt.inSyncwait && pt.isEnabled then Sleeps(i) else Returned(if pt.isEnabled then 0 else -1))
  }

  /** `ds_wait` up to its first wait or its return. */
  function WaitEnter(sh: Shared, name: string): Effect {
    if !sh.active then Effect(sh, false, Returned(-1))
    else
      var (points, i) := Acquire(sh.points, name);
      var sh1 := sh.(points := points);
      if i < 0 then Effect(sh1, false, Returned(-1))
      else WaitLoop(SetPoint(sh1, i, points[i].(nblocked := points[i].nblocked + 1)), i)
  }

  function Unblock(sh: Shared, name: string): Effect {
    if !sh.active then Effect(sh, false, Returned(-1))
    else
      var i := LookUp(sh.points, name);
      if i < 0 then Effect(sh, false, Returned(-1))
      else if sh.points[i].nblocked == 0 then Effect(sh, false, AssertFailed)
      else
        var pt := sh.points[i].(nblocked := sh.points[i].nblocked - 1);
        if pt.nblocked == 0 then Effect(SetPoint(sh, i, pt.(inSyncwait := false)), true, Returned(0))
        else Effect(SetPoint(sh, i, pt), false, Returned(0))
  }

  // ---- names ----

  ghost predicate DistinctNames(points: seq<Point>) {
    forall i, j :: 0 <= i < j < |points| ==> points[i].name != points[j].name
  }

  /** Creation keeps names distinct except when a name too long to be stored
      whole collides with one already there. */
  lemma AcquireKeepsNamesDistinct(points: seq<Point>, name: string)
    requires DistinctNames(points)
    ensures DistinctNames(Acquire(points, name).0)
       <==> |name| <= DS_MAX_POINT_NAME_LEN || |points| >= DS_MAX_POINT_COUNT || LookUp(points, name) >= 0
            || LookUp(points, Stored(name)) == -1
  {
    var points' := Acquire(points, name).0;
    if LookUp(points, name) == -1 && |points| < DS_MAX_POINT_COUNT {
      var n := |points|;
      assert points'[n].name == Stored(name);
      assert forall i :: 0 <= i < n ==> points'[i] == points[i];
      var k := LookUp(points, Stored(name));
      if k >= 0 {
        assert points'[k].name == points'[n].name;
      }
    }
  }

  /** Acquiring a name of more than 32 characters twice creates two points with
      one name, because the lookup compares the whole name. */
  lemma LongNameDuplicates(name: string)
    requires |name| > DS_MAX_POINT_NAME_LEN
    ensures DistinctNames(Acquire([], name).0)
    ensures !DistinctNames(Acquire(Acquire([], name).0, name).0)
  {
    hide LookUp;
    var points := Acquire([], name).0;
    assert |points| == 1 && points[0].name == Stored(name);
    AcquireKeepsNamesDistinct([], name);
    AcquireKeepsNamesDistinct(points, name);
  }

  /** A name that has been found is found at the same index for ever. */
  lemma LookUpStable(points: seq<Point>, points': seq<Point>, name: string)
    requires LookUp(points, name) >= 0
    requires |points| <= |points'| && forall k :: 0 <= k < |points| ==> points'[k].name == points[k].name
    ensures LookUp(points', name) == LookUp(points, name)
  {
    var i := LookUp(points, name);
    assert points'[i].name == name;
  }

  // ---- what every segment keeps ----

  /** The condition under which a thread in `ds_wait` goes to sleep. */
  predicate WaiterSleeps(q: Point) {
    !q.inSyncwait && q.isEnabled
  }

  /** The condition under which a thread in `ds_exec` goes to sleep. */
  predicate HolderSleeps(q: Point) {
    q.inSyncwait && q.isEnabled
  }

  /** A raised point is in use, and no point is enabled while the framework is
      inactive: deactivation disables all of them. */
  predicate SharedOk(sh: Shared) {
    && |sh.points| <= DS_MAX_POINT_COUNT
    && (!sh.active ==> forall p :: 0 <= p < |sh.points| ==> !sh.points[p].isEnabled)
    && forall p :: 0 <= p < |sh.points| ==>
         (sh.points[p].inSyncwait ==> sh.points[p].nblocked > 0) && |sh.points[p].name| <= DS_MAX_POINT_NAME_LEN
  }

  /** How a point may change in a segment: without a broadcast no sleeping
      condition of a point in use becomes false, and a raised point stays
      raised until it is disabled or its count reaches 0. */
  predicate PointEvolves(q: Point, q': Point, broadcast: bool) {
    && q'.name == q.name
    && (!broadcast && q.nblocked > 0 && WaiterSleeps(q) ==> WaiterSleeps(q'))
    && (!broadcast && q.nblocked > 0 && HolderSleeps(q) ==> HolderSleeps(q'))
    && (HolderSleeps(q) && q'.isEnabled && q'.nblocked > 0 ==> q'.inSyncwait)
  }

  predicate Evolves(sh: Shared, sh': Shared, broadcast: bool) {
    && |sh.points| <= |sh'.points|
    && forall p :: 0 <= p < |sh.points| ==> PointEvolves(sh.points[p], sh'.points[p], broadcast)
  }

  lemma SameEvolves(sh: Shared, active: bool)
    requires SharedOk(sh) && (sh.active ==> active)
    ensures SharedOk(sh.(active := active)) && Evolves(sh, sh.(active := active), false)
  {
  }

  lemma SetPointEvolves(sh: Shared, i: nat, q: Point, broadcast: bool)
    requires SharedOk(sh) && i < |sh.points|
    requires PointEvolves(sh.points[i], q, broadcast) && (q.inSyncwait ==> q.nblocked > 0)
    requires q.isEnabled ==> sh.points[i].isEnabled || sh.active
    ensures SharedOk(SetPoint(sh, i, q)) && Evolves(sh, SetPoint(sh, i, q), broadcast)
  {
  }

  lemma AcquireEvolves(sh: Shared, name: string)
    requires SharedOk(sh) && sh.active
    ensures var sh1 := sh.(points := Acquire(sh.points, name).0);
            SharedOk(sh1) && |sh.points| <= |sh1.points| && forall p :: 0 <= p < |sh.points| ==> sh1.points[p] == sh.points[p]
  {
    var points := Acquire(sh.points, name).0;
    assert forall p :: 0 <= p < |sh.points| ==> points[p] == sh.points[p];
  }

  lemma EvolvesFrom(sh: Shared, sh1: Shared, sh2: Shared, broadcast: bool)
    requires |sh.points| <= |sh1.points| && forall p :: 0 <= p < |sh.points| ==> sh1.points[p] == sh.points[p]
    requires Evolves(sh1, sh2, broadcast)
    ensures Evolves(sh, sh2, broadcast)
  {
  }

  lemma ExecEnterEvolves(sh: Shared, name: string)
    requires SharedOk(sh)
    ensures var e := ExecEnter(sh, name); SharedOk(e.sh) && Evolves(sh, e.sh, e.broadcast)
  {
    hide SharedOk, Evolves, Acquire;
    SameEvolves(sh, sh.active);
    if sh.active {
      var (points, i) := Acquire(sh.points, name);
      var sh1 := sh.(points := points);
      AcquireEvolves(sh, name);
      SameEvolves(sh1, sh.active);
      EvolvesFrom(sh, sh1, sh1, false);
      if i >= 0 && points[i].nblocked > 0 && !HolderSleeps(points[i]) {
        var q := points[i].(inSyncwait := points[i].isEnabled);
        SetPointEvolves(sh1, i, q, true);
        EvolvesFrom(sh, sh1, SetPoint(sh1, i, q), true);
      }
    }
  }

  lemma WaitEnterEvolves(sh: Shared, name: string)
    requires SharedOk(sh)
    ensures var e := WaitEnter(sh, name); SharedOk(e.sh) && Evolves(sh, e.sh, e.broadcast)
  {
    hide SharedOk, Evolves, Acquire;
    SameEvolves(sh, sh.active);
    if sh.active {
      var (points, i) := Acquire(sh.points, name);
      var sh1 := sh.(points := points);
      AcquireEvolves(sh, name);
      SameEvolves(sh1, sh.active);
      EvolvesFrom(sh, sh1, sh1, false);
      if i >= 0 {
        var q := points[i].(nblocked := points[i].nblocked + 1);
        SetPointEvolves(sh1, i, q, false);
        EvolvesFrom(sh, sh1, SetPoint(sh1, i, q), false);
      }
    }
  }

  lemma ExecWakeEvolves(sh: Shared, i: nat)
    requires SharedOk(sh) && i < |sh.points|
    ensures var e := ExecWake(sh, i); SharedOk(e.sh) && Evolves(sh, e.sh, e.broadcast)
  {
    SameEvolves(sh, sh.active);
    if !HolderSleeps(sh.points[i]) {
      SetPointEvolves(sh, i, sh.points[i].(inSyncwait := false), false);
    }
  }

  lemma UnblockEvolves(sh: Shared, name: string)
    requires SharedOk(sh)
    ensures var e := Unblock(sh, name); SharedOk(e.sh) && Evolves(sh, e.sh, e.broadcast)
  {
    SameEvolves(sh, sh.active);
    var i := LookUp(sh.points, name);
    if i >= 0 && sh.points[i].nblocked > 0 {
      var q := sh.points[i].(nblocked := sh.points[i].nblocked - 1);
      if q.nblocked == 0 {
        SetPointEvolves(sh, i, q.(inSyncwait := false), true);
      } else {
        SetPointEvolves(sh, i, q, false);
      }
    }
  }

  lemma EnableEvolves(sh: Shared, name: string, enable: bool)
    requires SharedOk(sh)
    ensures var e := Enable(sh, name, enable); SharedOk(e.sh) && Evolves(sh, e.sh, e.broadcast)
  {
    SameEvolves(sh, sh.active);
    var i := LookUp(sh.points, name);
    if sh.active && i >= 0 {
      var q := sh.points[i].(isEnabled := enable);
      SetPointEvolves(sh, i, q, !enable && q.nblocked > 0);
    }
  }

  lemma DisableAllEvolves(sh: Shared, active: bool)
    requires SharedOk(sh)
    ensures var e := DisableAll(sh); SharedOk(e.sh.(active := active)) && Evolves(sh, e.sh.(active := active), e.broadcast)
  {
  }
}
