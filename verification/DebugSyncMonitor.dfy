/** The global `ds` of debugsync/debugsync.c with its table of points, updated in
    place. Each method is the code between taking the mutex (or waking up) and
    the next wait or unlock; it refines the segment of the same meaning. */
module DebugSyncMonitor {
  import opened DebugSync

  class Monitor {
    var active: bool
    var global: bool
    var point: array<Point>
    var count: nat

    ghost predicate Valid()
      reads this, point
    {
      point.Length == DS_MAX_POINT_COUNT && count <= DS_MAX_POINT_COUNT
    }

    ghost function Contents(): Shared
      requires Valid()
      reads this, point
    {
      Shared(active, global, point[..count])
    }

    /** `ds_init`. */
    constructor (isActive: bool, isGlobal: bool)
      ensures Valid() && fresh(point)
      ensures Contents() == Shared(isActive, isGlobal, [])
    {
      active, global, count := isActive, isGlobal, 0;
      point := new Point[DS_MAX_POINT_COUNT](_ => Point("", false, false, 0));
    }

    /** `local_inactive`. */
    method LocallyInactive() returns (b: bool)
      requires Valid()
      ensures b <==> LocalInactive(Contents())
    {
      b := !active && !global;
    }

    /** `look_up`. */
    method Find(name: string) returns (i: int)
      requires Valid()
      ensures i == LookUp(point[..count], name)
    {
      var k := 0;
      while k < count
        invariant k <= count
        invariant forall j :: 0 <= j < k ==> point[j].name != name
      {
        if point[k].name == name {
          return k;
        }
        k := k + 1;
      }
      return -1;
    }

    /** `create_new`; allocation of the name succeeds. */
    method CreateNew(name: string) returns (i: int)
      requires Valid()
      modifies this`count, point
      ensures Valid()
      ensures i == if old(count) < DS_MAX_POINT_COUNT then old(count) else -1
      ensures Contents() == if old(count) < DS_MAX_POINT_COUNT
        then old(Contents()).(points := old(Contents()).points + [Point(Stored(name), true, false, 0)])
        else old(Contents())
    {
      if count >= DS_MAX_POINT_COUNT {
        return -1;
      }
      i := count;
      point[i] := Point(Stored(name), true, false, 0);
      count := count + 1;
    }

    method AcquirePoint(name: string) returns (i: int)
      requires Valid()
      modifies this`count, point
      ensures Valid()
      ensures (Contents().points, i) == Acquire(old(Contents()).points, name)
      ensures active == old(active) && global == old(global)
    {
      i := Find(name);
      if i < 0 {
        i := CreateNew(name);
      }
    }

    /** `disable_all`; the result says whether to broadcast. */
    method DisablePoints() returns (hasPendingWaits: bool)
      requires Valid()
      modifies point
      ensures Valid()
      ensures Contents().points == DisabledPoints(old(Contents()).points)
      ensures hasPendingWaits == PendingWaits(old(Contents()).points)
    {
      ghost var was := point[..count];
      hasPendingWaits := false;
      var i := 0;
      while i < count
        invariant i <= count
        invariant forall j :: 0 <= j < i ==> point[j] == was[j].(isEnabled := false)
        invariant forall j :: i <= j < count ==> point[j] == was[j]
        invariant hasPendingWaits <==> exists j :: 0 <= j < i && was[j].isEnabled && was[j].nblocked > 0
      {
        if point[i].isEnabled {
          point[i] := point[i].(isEnabled := false);
          if point[i].nblocked > 0 {
            hasPendingWaits := true;
          }
        }
        i := i + 1;
      }
    }

    /** `ds_disable_all`, locked part. */
    method DsDisableAll() returns (broadcast: bool)
      requires Valid()
      modifies point
      ensures Valid()
      ensures Effect(Contents(), broadcast, Returned(0)) == DisableAll(old(Contents()))
    {
      broadcast := false;
      if active {
        broadcast := DisablePoints();
      }
    }

    /** `ds_activate`, locked part. */
    method DsActivate(activate: bool) returns (broadcast: bool)
      requires Valid()
      modifies this`active, point
      ensures Valid()
      ensures Effect(Contents(), broadcast, Returned(0)) == Activate(old(Contents()), activate)
    {
      broadcast := false;
      if active {
        broadcast := DisablePoints();
      }
      active := activate;
    }

    method DsEnable(name: string, enable: bool) returns (broadcast: bool, rc: int)
      requires Valid()
      modifies point
      ensures Valid()
      ensures Effect(Contents(), broadcast, Returned(rc)) == Enable(old(Contents()), name, enable)
    {
      broadcast, rc := false, -1;
      if !active {
        return;
      }
      var i := Find(name);
      if i < 0 {
        return;
      }
      rc := 0;
      point[i] := point[i].(isEnabled := enable);
      if !point[i].isEnabled && point[i].nblocked > 0 {
        broadcast := true;
      }
    }

    /** `ds_exec` from the lock to the first wait or the unlock. */
    method DsExec(name: string) returns (broadcast: bool, outcome: Outcome)
      requires Valid()
      modifies this`count, point
      ensures Valid()
      ensures Effect(Contents(), broadcast, outcome) == ExecEnter(old(Contents()), name)
    {
      broadcast, outcome := false, Returned(-1);
      if !active {
        return;
      }
      var i := AcquirePoint(name);
      if i < 0 {
        return;
      }
      if point[i].isEnabled && point[i].inSyncwait {
        return;
      }
      if point[i].nblocked == 0 {
        outcome := Returned(0);
        return;
      }
      point[i] := point[i].(inSyncwait := true);
      broadcast := true;
      if point[i].inSyncwait && point[i].isEnabled {
        outcome := Sleeps(i);
        return;
      }
      point[i] := point[i].(inSyncwait := false);
    }

    /** `ds_exec` from a wake-up to the next wait or the unlock. */
    method DsExecWoken(i: nat) returns (outcome: Outcome)
      requires Valid() && i < count
      modifies point
      ensures Valid()
      ensures Effect(Contents(), false, outcome) == ExecWake(old(Contents()), i)
    {
      if point[i].inSyncwait && point[i].isEnabled {
        return Sleeps(i);
      }
      point[i] := point[i].(inSyncwait := false);
      outcome := Returned(if point[i].isEnabled then 0 else -1);
    }

    /** `ds_wait` from the lock to the first wait or the unlock. */
    method DsWait(name: string) returns (outcome: Outcome)
      requires Valid()
      modifies this`count, point
      ensures Valid()
      ensures Effect(Contents(), false, outcome) == WaitEnter(old(Contents()), name)
    {
      if !active {
        return Returned(-1);
      }
      var i := AcquirePoint(name);
      if i < 0 {
        return Returned(-1);
      }
      point[i] := point[i].(nblocked := point[i].nblocked + 1);
      outcome := DsWaitWoken(i);
    }

    /** `ds_wait` from a wake-up to the next wait or the unlock. */
    method DsWaitWoken(i: nat) returns (outcome: Outcome)
      requires Valid() && i < count
      ensures Effect(Contents(), false, outcome) == WaitLoop(Contents(), i)
    {
      if !point[i].inSyncwait && point[i].isEnabled {
        outcome := Sleeps(i);
      } else if !point[i].isEnabled {
        outcome := Returned(-1);
      } else {
        outcome := Returned(0);
      }
    }

    /** `ds_unblock`; under the calling discipline its assertion holds. */
    method DsUnblock(name: string) returns (broadcast: bool, rc: int)
      requires Valid()
      requires Unblock(Contents(), name).outcome != AssertFailed
      modifies point
      ensures Valid()
      ensures Effect(Contents(), broadcast, Returned(rc)) == Unblock(old(Contents()), name)
    {
      broadcast, rc := false, -1;
      if !active {
        return;
      }
      var i := Find(name);
      if i < 0 {
        return;
      }
      assert point[i].nblocked > 0;
      point[i] := point[i].(nblocked := point[i].nblocked - 1);
      rc := 0;
      if point[i].nblocked == 0 {
        point[i] := point[i].(inSyncwait := false);
        broadcast := true;
      }
    }
  }
}
