/** shared_timed_mutex: what one section under `state_change` does, and the class whose methods are
    the sections. A wait loop is a section that is run again after each wake-up. */
module SharedMutexModel {
  import opened Basics

  /** state_data: `blocked` is exclusive_waiting_blocked. */
  datatype StateData = StateData(sharedCount: nat, exclusive: bool, upgrade: bool, blocked: bool)

  datatype Cond = SharedCond | ExclusiveCond | UpgradeCond

  /** The members of the class; `Until` stands for the `_for` and `_until` forms. */
  datatype Call =
    | LockShared | TryLockShared | TryLockSharedUntil | UnlockShared
    | Lock | TryLock | TryLockUntil | Unlock
    | LockUpgrade | TryLockUpgrade | TryLockUpgradeUntil | UnlockUpgrade
    | UnlockUpgradeAndLock | UnlockAndLockUpgrade | TryUnlockUpgradeAndLock | TryUnlockUpgradeAndLockUntil
    | UnlockAndLockShared | TryUnlockSharedAndLock | TryUnlockSharedAndLockUntil
    | UnlockUpgradeAndLockShared | TryUnlockSharedAndLockUpgrade | TryUnlockSharedAndLockUpgradeUntil

  /** Whom a section that returns notifies: nobody, all of shared_cond, release_waiters(), or
      upgrade_cond and then release_waiters(). */
  datatype Wakes = Nobody | AllShared | Release | UpgradeThenRelease

  datatype Verdict = Waits(c: Cond) | Returns(ok: bool, wakes: Wakes)

  /** How a section is entered: by the call, or after a wait that ended in the given way. */
  datatype Entrance = First | Again(timedOut: bool)

  predicate CanLock(d: StateData) { d.sharedCount == 0 && !d.exclusive }
  predicate CanLockShared(d: StateData) { !d.exclusive && !d.blocked }
  predicate CanLockUpgrade(d: StateData) { !d.exclusive && !d.blocked && !d.upgrade }

  predicate AssertFree(d: StateData) { !d.exclusive && !d.upgrade && d.sharedCount == 0 }
  predicate AssertLocked(d: StateData) { d.exclusive && d.sharedCount == 0 && !d.upgrade }
  predicate AssertLockShared(d: StateData) { !d.exclusive && d.sharedCount > 0 }
  predicate AssertLockUpgraded(d: StateData) { !d.exclusive && d.upgrade && d.sharedCount > 0 }

  /** The assertions a member makes on entry; unlock_upgrade() makes none but decrements the count. */
  predicate Demand(call: Call, d: StateData) {
    match call
    case UnlockShared => AssertLockShared(d)
    case TryUnlockSharedAndLock => AssertLockShared(d)
    case TryUnlockSharedAndLockUntil => AssertLockShared(d)
    case TryUnlockSharedAndLockUpgrade => AssertLockShared(d)
    case TryUnlockSharedAndLockUpgradeUntil => AssertLockShared(d)
    case Unlock => AssertLocked(d)
    case UnlockAndLockUpgrade => AssertLocked(d)
    case UnlockAndLockShared => AssertLocked(d)
    case UnlockUpgrade => d.sharedCount > 0
    case UnlockUpgradeAndLock => AssertLockUpgraded(d)
    case TryUnlockUpgradeAndLock => AssertLockUpgraded(d)
    case TryUnlockUpgradeAndLockUntil => AssertLockUpgraded(d)
    case UnlockUpgradeAndLockShared => AssertLockUpgraded(d)
    case _ => true
  }

  predicate Timed(call: Call) {
    || call.TryLockSharedUntil? || call.TryLockUntil? || call.TryLockUpgradeUntil?
    || call.TryUnlockUpgradeAndLockUntil? || call.TryUnlockSharedAndLockUntil?
    || call.TryUnlockSharedAndLockUpgradeUntil?
  }

  predicate MayWait(call: Call) {
    call.LockShared? || call.Lock? || call.LockUpgrade? || call.UnlockUpgradeAndLock? || Timed(call)
  }

  /** A section may run: on entry its assertions hold, and only a call that waits is entered again. */
  predicate MayRun(call: Call, e: Entrance, d: StateData) {
    if e.First? then Demand(call, d) else MayWait(call) && (e.timedOut ==> Timed(call))
  }

  function AcquireShared(d: StateData): StateData { d.(sharedCount := d.sharedCount + 1) }
  function AcquireExclusive(d: StateData): StateData { d.(exclusive := true) }
  function AcquireUpgrade(d: StateData): StateData { d.(sharedCount := d.sharedCount + 1, upgrade := true) }
  function ToExclusive(d: StateData): StateData {
    d.(sharedCount := 0, exclusive := true, upgrade := false, blocked := false)
  }

  const OK: Verdict := Returns(true, Nobody)
  const NO: Verdict := Returns(false, Nobody)

  // ----- The sections -----

  predicate IsShared(call: Call) {
    call.LockShared? || call.TryLockShared? || call.TryLockSharedUntil? || call.UnlockShared?
  }

  predicate IsExclusive(call: Call) {
    call.Lock? || call.TryLock? || call.TryLockUntil? || call.Unlock?
  }

  predicate IsUpgrade(call: Call) {
    call.LockUpgrade? || call.TryLockUpgrade? || call.TryLockUpgradeUntil? || call.UnlockUpgrade?
  }

  predicate IsUpgradeExclusive(call: Call) {
    call.UnlockUpgradeAndLock? || call.UnlockAndLockUpgrade?
    || call.TryUnlockUpgradeAndLock? || call.TryUnlockUpgradeAndLockUntil?
  }

  predicate IsConversion(call: Call) {
    call.UnlockAndLockShared? || call.TryUnlockSharedAndLock? || call.TryUnlockSharedAndLockUntil?
    || call.UnlockUpgradeAndLockShared? || call.TryUnlockSharedAndLockUpgrade? || call.TryUnlockSharedAndLockUpgradeUntil?
  }

  function SharedSection(call: Call, e: Entrance, d: StateData): (StateData, Verdict)
    requires IsShared(call) && MayRun(call, e, d)
  {
    if call.UnlockShared? then
      var d1 := d.(sharedCount := d.sharedCount - 1);
      if d1.sharedCount > 0 then (d1, OK)
      else if d1.upgrade then (d1.(upgrade := false, exclusive := true), Returns(true, UpgradeThenRelease))
      else (d1.(blocked := false), Returns(true, Release))
    else if call.TryLockSharedUntil? && e == Again(true) then (d, NO)
    else if CanLockShared(d) then (AcquireShared(d), OK)
    else (d, if call.TryLockShared? then NO else Waits(SharedCond))
  }

  function ExclusiveSection(call: Call, e: Entrance, d: StateData): (StateData, Verdict)
    requires IsExclusive(call)
  {
    if call.Unlock? then (d.(exclusive := false, blocked := false), Returns(true, Release))
    else if CanLock(d) then (AcquireExclusive(d), OK)
    else if call.TryLock? then (d, NO)
    else if call.TryLockUntil? && e == Again(true) then (d.(blocked := false), Returns(false, Release))
    else (d.(blocked := true), Waits(ExclusiveCond))
  }

  function UpgradeSection(call: Call, e: Entrance, d: StateData): (StateData, Verdict)
    requires IsUpgrade(call) && MayRun(call, e, d)
  {
    if call.UnlockUpgrade? then
      var d1 := d.(sharedCount := d.sharedCount - 1, upgrade := false);
      if d1.sharedCount > 0 then (d1, Returns(true, AllShared)) else (d1.(blocked := false), Returns(true, Release))
    else if CanLockUpgrade(d) then (AcquireUpgrade(d), OK)
    else if call.TryLockUpgrade? || (call.TryLockUpgradeUntil? && e == Again(true)) then (d, NO)
    else (d, Waits(SharedCond))
  }

  /** Conversions between upgrade and exclusive ownership. */
  function UpgradeExclusiveSection(call: Call, e: Entrance, d: StateData): (StateData, Verdict)
    requires IsUpgradeExclusive(call)
    requires MayRun(call, e, d)
  {
    match call
    case UnlockUpgradeAndLock =>
      var d1 := if e.First? then d.(sharedCount := d.sharedCount - 1) else d;
      if d1.sharedCount > 0 then (d1, Waits(UpgradeCond)) else (d1.(upgrade := false, exclusive := true), OK)
    case UnlockAndLockUpgrade =>
      (AcquireUpgrade(d).(exclusive := false, blocked := false), Returns(true, Release))
    case TryUnlockUpgradeAndLock =>
      if !d.exclusive && !d.blocked && d.upgrade && d.sharedCount == 1 then
        (d.(sharedCount := 0, exclusive := true, upgrade := false), OK)
      else (d, NO)
    case _ => TimedToExclusive(e, d)
  }

  /** The timed conversions to exclusive ownership wait on shared_cond until the count is 1. */
  function TimedToExclusive(e: Entrance, d: StateData): (StateData, Verdict) {
    if d.sharedCount == 1 then (ToExclusive(d), OK)
    else if e == Again(true) then (d, NO)
    else (d, Waits(SharedCond))
  }

  /** Conversions that start or end with shared ownership. */
  function SharedConversionSection(call: Call, e: Entrance, d: StateData): (StateData, Verdict)
    requires IsConversion(call)
  {
    match call
    case UnlockAndLockShared => (AcquireShared(d).(exclusive := false, blocked := false), Returns(true, Release))
    case UnlockUpgradeAndLockShared => (d.(upgrade := false, blocked := false), Returns(true, Release))
    case TryUnlockSharedAndLock =>
      if CanLockUpgrade(d) && d.sharedCount == 1 then (d.(sharedCount := 0, exclusive := true), OK) else (d, NO)
    case TryUnlockSharedAndLockUntil => TimedToExclusive(e, d)
    case _ =>
      if CanLockUpgrade(d) then (d.(upgrade := true), OK)
      else if call.TryUnlockSharedAndLockUpgrade? || e == Again(true) then (d, NO)
      else (d, Waits(ExclusiveCond))
  }

  function Section(call: Call, e: Entrance, d: StateData): (StateData, Verdict)
    requires MayRun(call, e, d)
  {
    if IsShared(call) then SharedSection(call, e, d)
    else if IsExclusive(call) then ExclusiveSection(call, e, d)
    else if IsUpgrade(call) then UpgradeSection(call, e, d)
    else if IsUpgradeExclusive(call) then UpgradeExclusiveSection(call, e, d)
    else SharedConversionSection(call, e, d)
  }

  // ----- The class -----

  datatype Queues = Queues(shared: seq<Tid>, exclusive: seq<Tid>, upgrade: seq<Tid>)

  /** What a section does to the condition queues: a wait joins one, unlock_upgrade() may empty one. */
  function Enqueued(q: Queues, v: Verdict, t: Tid): Queues {
    match v
    case Waits(SharedCond) => q.(shared := q.shared + [t])
    case Waits(ExclusiveCond) => q.(exclusive := q.exclusive + [t])
    case Waits(UpgradeCond) => q.(upgrade := q.upgrade + [t])
    case Returns(_, wakes) => if wakes == AllShared then q.(shared := []) else q
  }

  /** Each method is one section, run by the call or after a wake-up; notifications that follow it are
      in the verdict, and `NotifyUpgrade`, `NotifyExclusive` and `NotifyShared` carry them out. */
  class SharedTimedMutex {
    var sharedCount: nat
    var exclusive: bool
    var upgrade: bool
    var blocked: bool
    var sharedCond: seq<Tid>
    var exclusiveCond: seq<Tid>
    var upgradeCond: seq<Tid>

    ghost function Data(): StateData
      reads this
    {
      StateData(sharedCount, exclusive, upgrade, blocked)
    }

    ghost function Waiters(): Queues
      reads this
    {
      Queues(sharedCond, exclusiveCond, upgradeCond)
    }

    constructor ()
      ensures Data() == StateData(0, false, false, false) && Waiters() == Queues([], [], [])
    {
      sharedCount, exclusive, upgrade, blocked := 0, false, false, false;
      sharedCond, exclusiveCond, upgradeCond := [], [], [];
    }

    method Wait(c: Cond, t: Tid) returns (v: Verdict)
      modifies this`sharedCond, this`exclusiveCond, this`upgradeCond
      ensures v == Waits(c) && Waiters() == Enqueued(old(Waiters()), v, t)
    {
      match c {
        case SharedCond => sharedCond := sharedCond + [t];
        case ExclusiveCond => exclusiveCond := exclusiveCond + [t];
        case UpgradeCond => upgradeCond := upgradeCond + [t];
      }
      v := Waits(c);
    }

    method DoLockShared(t: Tid, e: Entrance) returns (v: Verdict)
      requires MayRun(LockShared, e, Data())
      modifies this
      ensures (Data(), v) == Section(LockShared, e, old(Data())) && Waiters() == Enqueued(old(Waiters()), v, t)
    {
      if exclusive || blocked {
        v := Wait(SharedCond, t);
        return;
      }
      sharedCount := sharedCount + 1;
      return OK;
    }

    method DoTryLockShared(t: Tid) returns (v: Verdict)
      modifies this
      ensures (Data(), v) == Section(TryLockShared, First, old(Data())) && Waiters() == old(Waiters())
    {
      if exclusive || blocked {
        return NO;
      }
      sharedCount := sharedCount + 1;
      return OK;
    }

    method DoTryLockSharedUntil(t: Tid, e: Entrance) returns (v: Verdict)
      requires MayRun(TryLockSharedUntil, e, Data())
      modifies this
      ensures (Data(), v) == Section(TryLockSharedUntil, e, old(Data())) && Waiters() == Enqueued(old(Waiters()), v, t)
    {
      if e == Again(true) {
        return NO;
      }
      if exclusive || blocked {
        v := Wait(SharedCond, t);
        return;
      }
      sharedCount := sharedCount + 1;
      return OK;
    }

    method DoUnlockShared(t: Tid) returns (v: Verdict)
      requires AssertLockShared(Data())
      modifies this
      ensures (Data(), v) == Section(UnlockShared, First, old(Data())) && Waiters() == old(Waiters())
    {
      sharedCount := sharedCount - 1;
      v := OK;
      if sharedCount == 0 {
        if upgrade {
          upgrade := false;
          exclusive := true;
          v := Returns(true, UpgradeThenRelease);
        } else {
          blocked := false;
          v := Returns(true, Release);
        }
      }
    }

    method DoLock(t: Tid, e: Entrance) returns (v: Verdict)
      requires MayRun(Lock, e, Data())
      modifies this
      ensures (Data(), v) == Section(Lock, e, old(Data())) && Waiters() == Enqueued(old(Waiters()), v, t)
    {
      if sharedCount != 0 || exclusive {
        blocked := true;
        v := Wait(ExclusiveCond, t);
        return;
      }
      exclusive := true;
      return OK;
    }

    method DoTryLock(t: Tid) returns (v: Verdict)
      modifies this
      ensures (Data(), v) == Section(TryLock, First, old(Data())) && Waiters() == old(Waiters())
    {
      if sharedCount != 0 || exclusive {
        return NO;
      }
      exclusive := true;
      return OK;
    }

    method DoTryLockUntil(t: Tid, e: Entrance) returns (v: Verdict)
      requires MayRun(TryLockUntil, e, Data())
      modifies this
      ensures (Data(), v) == Section(TryLockUntil, e, old(Data())) && Waiters() == Enqueued(old(Waiters()), v, t)
    {
      if sharedCount != 0 || exclusive {
        if e == Again(true) {
          blocked := false;
          return Returns(false, Release);
        }
        blocked := true;
        v := Wait(ExclusiveCond, t);
        return;
      }
      exclusive := true;
      return OK;
    }

    method DoUnlock(t: Tid) returns (v: Verdict)
      requires AssertLocked(Data())
      modifies this
      ensures (Data(), v) == Section(Unlock, First, old(Data())) && Waiters() == old(Waiters())
    {
      exclusive := false;
      blocked := false;
      assert AssertFree(Data());
      return Returns(true, Release);
    }

    /** lock_upgrade() when `e` never times out, try_lock_upgrade_until() otherwise. */
    method DoLockUpgrade(t: Tid, call: Call, e: Entrance) returns (v: Verdict)
      requires (call.LockUpgrade? || call.TryLockUpgradeUntil?) && MayRun(call, e, Data())
      modifies this
      ensures (Data(), v) == Section(call, e, old(Data())) && Waiters() == Enqueued(old(Waiters()), v, t)
    {
      if exclusive || blocked || upgrade {
        if e == Again(true) {
          return NO;
        }
        v := Wait(SharedCond, t);
        return;
      }
      sharedCount := sharedCount + 1;
      upgrade := true;
      return OK;
    }

    method DoTryLockUpgrade(t: Tid) returns (v: Verdict)
      modifies this
      ensures (Data(), v) == Section(TryLockUpgrade, First, old(Data())) && Waiters() == old(Waiters())
      ensures v == OK ==> AssertLockUpgraded(Data())
    {
      if exclusive || blocked || upgrade {
        return NO;
      }
      sharedCount := sharedCount + 1;
      upgrade := true;
      return OK;
    }

    method DoUnlockUpgrade(t: Tid) returns (v: Verdict)
      requires sharedCount > 0
      modifies this
      ensures (Data(), v) == Section(UnlockUpgrade, First, old(Data())) && Waiters() == Enqueued(old(Waiters()), v, t)
    {
      upgrade := false;
      sharedCount := sharedCount - 1;
      if sharedCount == 0 {
        blocked := false;
        return Returns(true, Release);
      }
      sharedCond := [];
      return Returns(true, AllShared);
    }

    method DoUnlockUpgradeAndLock(t: Tid, e: Entrance) returns (v: Verdict)
      requires MayRun(UnlockUpgradeAndLock, e, Data())
      modifies this
      ensures (Data(), v) == Section(UnlockUpgradeAndLock, e, old(Data())) && Waiters() == Enqueued(old(Waiters()), v, t)
      ensures v == OK ==> AssertLocked(Data())
    {
      if e.First? {
        sharedCount := sharedCount - 1;
      }
      if sharedCount > 0 {
        v := Wait(UpgradeCond, t);
        return;
      }
      upgrade := false;
      exclusive := true;
      return OK;
    }

    method DoUnlockAndLockUpgrade(t: Tid) returns (v: Verdict)
      requires AssertLocked(Data())
      modifies this
      ensures (Data(), v) == Section(UnlockAndLockUpgrade, First, old(Data())) && Waiters() == old(Waiters())
      ensures AssertLockUpgraded(Data())
    {
      exclusive := false;
      upgrade := true;
      sharedCount := sharedCount + 1;
      blocked := false;
      return Returns(true, Release);
    }

    method DoTryUnlockUpgradeAndLock(t: Tid) returns (v: Verdict)
      requires AssertLockUpgraded(Data())
      modifies this
      ensures (Data(), v) == Section(TryUnlockUpgradeAndLock, First, old(Data())) && Waiters() == old(Waiters())
      ensures v == OK ==> AssertLocked(Data())
    {
      if !exclusive && !blocked && upgrade && sharedCount == 1 {
        sharedCount := 0;
        exclusive := true;
        upgrade := false;
        return OK;
      }
      return NO;
    }

    /** try_unlock_upgrade_and_lock_until() and try_unlock_shared_and_lock_until() have the same body. */
    method DoTimedToExclusive(t: Tid, call: Call, e: Entrance) returns (v: Verdict)
      requires (call.TryUnlockUpgradeAndLockUntil? || call.TryUnlockSharedAndLockUntil?) && MayRun(call, e, Data())
      modifies this
      ensures (Data(), v) == Section(call, e, old(Data())) && Waiters() == Enqueued(old(Waiters()), v, t)
    {
      if sharedCount != 1 {
        if e == Again(true) {
          return NO;
        }
        v := Wait(SharedCond, t);
        return;
      }
      upgrade := false;
      exclusive := true;
      blocked := false;
      sharedCount := 0;
      return OK;
    }

    method DoUnlockAndLockShared(t: Tid) returns (v: Verdict)
      requires AssertLocked(Data())
      modifies this
      ensures (Data(), v) == Section(UnlockAndLockShared, First, old(Data())) && Waiters() == old(Waiters())
    {
      exclusive := false;
      sharedCount := sharedCount + 1;
      blocked := false;
      return Returns(true, Release);
    }

    method DoTryUnlockSharedAndLock(t: Tid) returns (v: Verdict)
      requires AssertLockShared(Data())
      modifies this
      ensures (Data(), v) == Section(TryUnlockSharedAndLock, First, old(Data())) && Waiters() == old(Waiters())
    {
      if !exclusive && !blocked && !upgrade && sharedCount == 1 {
        sharedCount := 0;
        exclusive := true;
        return OK;
      }
      return NO;
    }

    method DoUnlockUpgradeAndLockShared(t: Tid) returns (v: Verdict)
      requires AssertLockUpgraded(Data())
      modifies this
      ensures (Data(), v) == Section(UnlockUpgradeAndLockShared, First, old(Data())) && Waiters() == old(Waiters())
    {
      upgrade := false;
      blocked := false;
      return Returns(true, Release);
    }

    method DoTryUnlockSharedAndLockUpgrade(t: Tid) returns (v: Verdict)
      requires AssertLockShared(Data())
      modifies this
      ensures (Data(), v) == Section(TryUnlockSharedAndLockUpgrade, First, old(Data())) && Waiters() == old(Waiters())
    {
      if !exclusive && !blocked && !upgrade {
        upgrade := true;
        return OK;
      }
      return NO;
    }

    method DoTryUnlockSharedAndLockUpgradeUntil(t: Tid, e: Entrance) returns (v: Verdict)
      requires MayRun(TryUnlockSharedAndLockUpgradeUntil, e, Data())
      modifies this
      ensures (Data(), v) == Section(TryUnlockSharedAndLockUpgradeUntil, e, old(Data()))
      ensures Waiters() == Enqueued(old(Waiters()), v, t)
    {
      if exclusive || blocked || upgrade {
        if e == Again(true) {
          return NO;
        }
        v := Wait(ExclusiveCond, t);
        return;
      }
      upgrade := true;
      return OK;
    }

    /** upgrade_cond.notify_one(). */
    method NotifyUpgrade() returns (woken: seq<Tid>)
      modifies this`upgradeCond
      ensures woken + upgradeCond == old(upgradeCond) && |woken| <= 1 && (upgradeCond != [] ==> |woken| == 1)
    {
      if upgradeCond == [] {
        return [];
      }
      woken := [upgradeCond[0]];
      upgradeCond := upgradeCond[1..];
    }

    /** The first half of release_waiters(): exclusive_cond.notify_one(). */
    method NotifyExclusive() returns (woken: seq<Tid>)
      modifies this`exclusiveCond
      ensures woken + exclusiveCond == old(exclusiveCond) && |woken| <= 1 && (exclusiveCond != [] ==> |woken| == 1)
    {
      if exclusiveCond == [] {
        return [];
      }
      woken := [exclusiveCond[0]];
      exclusiveCond := exclusiveCond[1..];
    }

    /** The second half: shared_cond.notify_all(). */
    method NotifyShared() returns (woken: seq<Tid>)
      modifies this`sharedCond
      ensures woken == old(sharedCond) && sharedCond == []
    {
      woken := sharedCond;
      sharedCond := [];
    }
  }
}
