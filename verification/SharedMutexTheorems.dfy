/** The promises of shared_timed_mutex, for every reachable state. */
module SharedMutexTheorems {
  import opened Basics
  import opened SharedMutexModel
  import opened SharedMutexRuns

  // ----- Exclusion -----

  /** t holds the lock exclusively: as a writer, or as a converter granted by the last reader. */
  predicate HoldsExclusively(s: Sys, t: Tid) {
    RoleOf(s.h, t).Writer? || (RoleOf(s.h, t).Converter? && s.d.exclusive)
  }

  /** An exclusive holder excludes everybody else. */
  lemma Exclusion(s: Sys, t: Tid, u: Tid)
    requires Reachable(s) && HoldsExclusively(s, t) && u != t
    ensures RoleOf(s.h, u) == NoRole
  {
    ReachableInv(s);
    RoleCounted(s.h, t);
    RoleCounted(s.h, u);
    if RoleOf(s.h, t).Writer? && RoleOf(s.h, u).Writer? { TwoMembers(s.h.writers, t, u); }
    if RoleOf(s.h, t).Converter? && RoleOf(s.h, u).Converter? { TwoMembers(s.h.converters, t, u); }
  }

  lemma OneUpgrader(s: Sys, t: Tid, u: Tid)
    requires Reachable(s) && (RoleOf(s.h, t).Upgrader? || RoleOf(s.h, t).Converter?)
    requires RoleOf(s.h, u).Upgrader? || RoleOf(s.h, u).Converter?
    ensures t == u
  {
    ReachableInv(s);
    RoleCounted(s.h, t);
    RoleCounted(s.h, u);
    if t != u {
      if RoleOf(s.h, t).Upgrader? { TwoMembers(s.h.upgraders, t, u); } else { TwoMembers(s.h.converters, t, u); }
    }
  }

  /** The fields mean what they say: the count is that of the readers and the upgrader, `exclusive` that
      of an exclusive holder, and `upgrade` that of an upgrader or of a converter not yet granted. */
  lemma FieldsMean(s: Sys)
    requires Reachable(s)
    ensures s.d.sharedCount == |s.h.readers| + |s.h.upgraders|
    ensures s.d.exclusive ==> s.d.sharedCount == 0 && !s.d.upgrade
    ensures s.d.upgrade <==> s.h.upgraders != {} || (s.h.converters != {} && !s.d.exclusive)
    ensures s.d.upgrade ==> s.d.sharedCount >= 1
    ensures s.d.exclusive <==> exists t :: HoldsExclusively(s, t)
  {
    ReachableInv(s);
    if s.h.writers != {} {
      var t :| t in s.h.writers;
      assert HoldsExclusively(s, t);
    } else if s.h.converters != {} {
      var t :| t in s.h.converters;
      assert s.d.exclusive ==> HoldsExclusively(s, t);
    }
    forall t | HoldsExclusively(s, t) ensures s.d.exclusive { RoleCounted(s.h, t); }
  }

  /** No assertion fires: the ones a member makes on entry hold for every correct caller... */
  lemma EntryAssertions(s: Sys, t: Tid, call: Call)
    requires Reachable(s) && Fits(s, t, call)
    ensures MayRun(call, First, s.d)
  {
    ReachableInv(s);
    RoleCounted(s.h, t);
    DemandsMet(s.d, CountsOf(s.h), call);
  }

  /** The assertions made before a member returns. */
  predicate Leaves(call: Call, d: StateData, v: Verdict) {
    match call
    case Unlock => AssertFree(d)
    case TryLockUpgrade => v == OK ==> AssertLockUpgraded(d)
    case UnlockUpgradeAndLock => v == OK ==> AssertLocked(d)
    case UnlockAndLockUpgrade => AssertLockUpgraded(d)
    case TryUnlockUpgradeAndLock => v == OK ==> AssertLocked(d)
    case _ => true
  }

  /** ... and so do the ones it makes before it returns. */
  lemma ExitAssertions(d: StateData, k: Counts, call: Call, e: Entrance)
    requires Correct(d, k, call, e)
    ensures Leaves(call, Section(call, e, d).0, Section(call, e, d).1)
  {
  }

  /** A converter that wakes up was granted: its loop ends and it holds the lock. */
  lemma WokenConverterOwns(s: Sys, t: Tid)
    requires Reachable(s) && t in s.phase && s.phase[t] == Woken(UnlockUpgradeAndLock, false)
    ensures Enabled(s, Label.Resume(t)) && HoldsExclusively(s, t)
    ensures RoleOf(Next(s, Label.Resume(t)).h, t) == Writer && Next(s, Label.Resume(t)).phase[t] == Outside
  {
    ReachableInv(s);
    assert ThreadOk(s, t);
    assert UpgradeExclusiveSection(UnlockUpgradeAndLock, Again(false), s.d).1 == OK;
    ResumedConverter(s, t);
  }

  lemma ResumedConverter(s: Sys, t: Tid)
    requires Enabled(s, Label.Resume(t)) && s.phase[t] == Woken(UnlockUpgradeAndLock, false) && s.d.sharedCount == 0
    ensures RoleOf(Next(s, Label.Resume(t)).h, t) == Writer && Next(s, Label.Resume(t)).phase[t] == Outside
  {
  }

  /** A woken thread can always run its section again: the model restricts nobody who is on its way. */
  lemma WokenCanRun(s: Sys, t: Tid)
    requires Reachable(s) && t in s.phase && s.phase[t].Woken? && Considered(s.phase[t].call, s.d)
    ensures Enabled(s, Label.Resume(t))
  {
    hide Reachable;
    ReachableInv(s);
    assert ThreadOk(s, t);
  }

  // ----- What exclusive_waiting_blocked does -----

  /** While `blocked` is set nobody from outside becomes a reader or upgrader, and it is only taken
      back together with a release of the waiters or by somebody who takes the lock exclusively. */
  lemma BlockedKeepsOut(d: StateData, call: Call, e: Entrance)
    requires MayRun(call, e, d) && d.blocked
    ensures KeepsOut(call, Section(call, e, d).0, Section(call, e, d).1)
  {
    hide SharedSection, ExclusiveSection, UpgradeSection, UpgradeExclusiveSection, SharedConversionSection;
    if IsShared(call) { KeepsOutShared(d, call, e); }
    else if IsExclusive(call) { KeepsOutExclusive(d, call, e); }
    else if IsUpgrade(call) { KeepsOutUpgrade(d, call, e); }
    else if IsUpgradeExclusive(call) { KeepsOutConversions(d, call, e); }
    else { KeepsOutSharedConversions(d, call, e); }
  }

  predicate KeepsOut(call: Call, d': StateData, v: Verdict) {
    && (RoleBefore(call) == NoRole ==> !RoleThen(call, v).Reader? && !RoleThen(call, v).Upgrader?)
    && (!d'.blocked ==> (v.Returns? && v.wakes == Release) || d'.exclusive)
  }

  lemma KeepsOutShared(d: StateData, call: Call, e: Entrance)
    requires MayRun(call, e, d) && d.blocked && IsShared(call)
    ensures KeepsOut(call, SharedSection(call, e, d).0, SharedSection(call, e, d).1)
  {
  }

  lemma KeepsOutExclusive(d: StateData, call: Call, e: Entrance)
    requires MayRun(call, e, d) && d.blocked && IsExclusive(call)
    ensures KeepsOut(call, ExclusiveSection(call, e, d).0, ExclusiveSection(call, e, d).1)
  {
  }

  lemma KeepsOutUpgrade(d: StateData, call: Call, e: Entrance)
    requires MayRun(call, e, d) && d.blocked && IsUpgrade(call)
    ensures KeepsOut(call, UpgradeSection(call, e, d).0, UpgradeSection(call, e, d).1)
  {
  }

  lemma KeepsOutConversions(d: StateData, call: Call, e: Entrance)
    requires MayRun(call, e, d) && d.blocked && IsUpgradeExclusive(call)
    ensures KeepsOut(call, UpgradeExclusiveSection(call, e, d).0, UpgradeExclusiveSection(call, e, d).1)
  {
  }

  lemma KeepsOutSharedConversions(d: StateData, call: Call, e: Entrance)
    requires MayRun(call, e, d) && d.blocked && IsConversion(call)
    ensures KeepsOut(call, SharedConversionSection(call, e, d).0, SharedConversionSection(call, e, d).1)
  {
  }

  // ----- Nobody is stranded -----

  lemma BlockedImpliesHeld(s: Sys)
    requires Reachable(s) && s.d.blocked
    ensures s.d.exclusive || s.d.sharedCount > 0
  {
    ReachableInv(s);
  }

  /** A free lock with a parked writer has a notified writer, or a release that will notify one. */
  lemma FreeLockServesWriters(s: Sys, t: Tid)
    requires Reachable(s) && CanLock(s.d) && t in s.q.exclusive
    ensures exists u :: WriterComing(s, u)
  {
    ReachableInv(s);
  }

  /** A reader or upgrader that is parked although it could pass has a notification in flight. */
  lemma PassableIsServed(s: Sys, t: Tid)
    requires Reachable(s) && ParkedAndPassable(s, t)
    ensures exists u :: InRelease(s, u)
  {
    ReachableInv(s);
  }

  /** Nothing is on its way: every thread is outside or parked. */
  predicate Quiescent(s: Sys) {
    forall t :: t in s.phase ==> s.phase[t].Outside? || s.phase[t].Parked?
  }

  lemma FreeFlags(d: StateData, k: Counts)
    requires FlagsOk(d, k) && CanLock(d)
    ensures !d.upgrade && !d.blocked && k == Counts(0, 0, 0, 0)
  {
  }

  /** Whoever is parked on a free lock wants to take it, and could. */
  lemma FreeWaiter(s: Sys, t: Tid)
    requires t in s.phase && ThreadOk(s, t) && s.phase[t].Parked? && RoleOf(s.h, t) == NoRole
    requires CanLock(s.d) && !s.d.upgrade && !s.d.blocked
    ensures t in s.q.exclusive || ParkedAndPassable(s, t)
  {
  }

  /** When nothing is on its way and nobody holds the lock, nobody waits for it. */
  lemma NobodyStranded(s: Sys, t: Tid)
    requires Reachable(s) && Quiescent(s) && CanLock(s.d) && t in s.phase
    ensures s.phase[t].Outside?
  {
    hide Reachable, ThreadOk, FlagsOk, QueuesOk, Disjoint, GrantOk;
    ReachableInv(s);
    assert ThreadOk(s, t);
    FreeFlags(s.d, CountsOf(s.h));
    RoleCounted(s.h, t);
    if s.phase[t].Parked? { FreeWaiter(s, t); }
  }

  /** A parked converter can only be woken by the last reader, and then its notification is in flight. */
  lemma ConverterIsServed(s: Sys, t: Tid)
    requires Reachable(s) && t in s.phase && s.phase[t] == Parked(UnlockUpgradeAndLock)
    ensures s.d.exclusive ==> exists u :: Granting(s, u)
    ensures !s.d.exclusive ==> s.h.readers != {}
  {
    ReachableInv(s);
    assert ThreadOk(s, t);
    RoleCounted(s.h, t);
  }

  // ----- The timed conversion from shared to exclusive -----

  /** t runs a section of the timed conversion: it makes the call, or its wait has ended. */
  predicate Converting(s: Sys, t: Tid, e: Entrance) {
    if e.First? then Fits(s, t, TryUnlockSharedAndLockUntil)
    else t in s.phase && s.phase[t] == Woken(TryUnlockSharedAndLockUntil, e.timedOut)
  }

  /** try_unlock_shared_and_lock_until() takes the lock whenever it finds the count at 1, at the call,
      after a notification and after a timeout. That breaks the invariant exactly when a converter
      is waiting then, which is when `upgrade` is set. */
  lemma TimedConversionIff(s: Sys, t: Tid, e: Entrance)
    requires Reachable(s) && Converting(s, t, e)
    ensures MayRun(TryUnlockSharedAndLockUntil, e, s.d)
    ensures Inv(Run(s, t, TryUnlockSharedAndLockUntil, e)) <==> !(s.d.sharedCount == 1 && s.d.upgrade)
  {
    hide Inv, Reachable, Run;
    ReachableInv(s);
    ConvertingReader(s, t, e);
    if s.d.sharedCount == 1 && s.d.upgrade {
      LoneReader(s, t);
      TwoOwners(s, t, e);
    } else if e.First? {
      StepInv(s, Begin(t, TryUnlockSharedAndLockUntil));
    } else {
      StepInv(s, Label.Resume(t));
    }
  }

  lemma ConvertingReader(s: Sys, t: Tid, e: Entrance)
    requires Inv(s) && Converting(s, t, e)
    ensures RoleOf(s.h, t) == Reader && MayRun(TryUnlockSharedAndLockUntil, e, s.d)
  {
    hide Disjoint, QueuesOk, GrantOk, WritersServed, ReadersServed;
    assert ThreadOk(s, t);
    RoleCounted(s.h, t);
    DemandsMet(s.d, CountsOf(s.h), TryUnlockSharedAndLockUntil);
  }

  lemma LoneReader(s: Sys, t: Tid)
    requires Inv(s) && RoleOf(s.h, t) == Reader && s.d.sharedCount == 1 && s.d.upgrade
    ensures |s.h.converters| > 0 && Disjoint(s.h)
  {
    RoleCounted(s.h, t);
  }

  lemma TwoOwners(s: Sys, t: Tid, e: Entrance)
    requires MayRun(TryUnlockSharedAndLockUntil, e, s.d) && s.d.sharedCount == 1 && RoleOf(s.h, t) == Reader
    requires |s.h.converters| > 0 && Disjoint(s.h)
    ensures !Inv(Run(s, t, TryUnlockSharedAndLockUntil, e))
  {
    hide ThreadsOk, QueuesOk, GrantOk, WritersServed, ReadersServed, MayRun, Section, Disjoint, RoleOf, SetRole;
    SetRoleCounts(s.h, t, Writer);
    TakesTheLock(s.d, e);
    assert Run(s, t, TryUnlockSharedAndLockUntil, e).h == SetRole(s.h, t, Writer);
  }

  lemma TakesTheLock(d: StateData, e: Entrance)
    requires MayRun(TryUnlockSharedAndLockUntil, e, d) && d.sharedCount == 1
    ensures Section(TryUnlockSharedAndLockUntil, e, d) == (ToExclusive(d), OK)
  {
  }

  const Both: map<Tid, Phase> := map[1 := Outside, 2 := Outside]
  const Waiting: map<Tid, Phase> := map[1 := Outside, 2 := Parked(UnlockUpgradeAndLock)]

  /** Thread 1 reads, and thread 2 waits to convert. */
  function ReaderAndConverter(): Sys {
    Sys(StateData(1, false, true, false), Queues([], [], [2]), Holders({1}, {}, {2}, {}), Waiting)
  }

  lemma ReaderAndConverterReachable()
    ensures Reachable(ReaderAndConverter())
  {
    var s0 := Sys(StateData(0, false, false, false), Queues([], [], []), Holders({}, {}, {}, {}), Both);
    var s1 := Sys(StateData(1, false, false, false), Queues([], [], []), Holders({1}, {}, {}, {}), Both);
    var s2 := Sys(StateData(2, false, true, false), Queues([], [], []), Holders({1}, {2}, {}, {}), Both);
    hide Enabled, Next, Reachable;
    InitialReachable(s0);
    Reads(s0, s1);
    ReachableNext(s0, Begin(1, LockShared));
    Upgrades(s1, s2);
    ReachableNext(s1, Begin(2, LockUpgrade));
    Parks(s2);
    ReachableNext(s2, Begin(2, UnlockUpgradeAndLock));
  }

  lemma Reads(s0: Sys, s1: Sys)
    requires s0 == Sys(StateData(0, false, false, false), Queues([], [], []), Holders({}, {}, {}, {}), Both)
    requires s1 == Sys(StateData(1, false, false, false), Queues([], [], []), Holders({1}, {}, {}, {}), Both)
    ensures Enabled(s0, Begin(1, LockShared)) && Next(s0, Begin(1, LockShared)) == s1
  {
  }

  lemma Upgrades(s1: Sys, s2: Sys)
    requires s1 == Sys(StateData(1, false, false, false), Queues([], [], []), Holders({1}, {}, {}, {}), Both)
    requires s2 == Sys(StateData(2, false, true, false), Queues([], [], []), Holders({1}, {2}, {}, {}), Both)
    ensures Enabled(s1, Begin(2, LockUpgrade)) && Next(s1, Begin(2, LockUpgrade)) == s2
  {
  }

  lemma Parks(s2: Sys)
    requires s2 == Sys(StateData(2, false, true, false), Queues([], [], []), Holders({1}, {2}, {}, {}), Both)
    ensures Enabled(s2, Begin(2, UnlockUpgradeAndLock)) && Next(s2, Begin(2, UnlockUpgradeAndLock)) == ReaderAndConverter()
  {
  }

  /** The run in which it goes wrong: thread 1 converts first, unlocks, and makes all its notifications.
      The lock is free, nothing is on its way, and thread 2 is still parked, on a condition that only
      the last reader of a conversion in progress notifies. */
  lemma StrandedConverter() returns (s: Sys)
    ensures Reachable(ReaderAndConverter()) && Fits(ReaderAndConverter(), 1, TryUnlockSharedAndLockUntil)
    ensures var s1 := Run(ReaderAndConverter(), 1, TryUnlockSharedAndLockUntil, First);
      && Fits(s1, 1, Unlock) && Demand(Unlock, s1.d)
      && s == Notify(Notify(Run(s1, 1, Unlock, First), 1, NotifyingExclusive), 1, NotifyingShared)
    ensures CanLock(s.d) && Quiescent(s) && s.phase == Waiting && s.q.upgrade == [2]
  {
    hide Run, Notify, Reachable;
    ReaderAndConverterReachable();
    Converts();
    s := AfterUnlock(Converted());
  }

  /** Two owners: thread 1 as a writer, and the converter. */
  function Converted(): Sys {
    Sys(StateData(0, true, false, false), Queues([], [], [2]), Holders({}, {}, {2}, {1}), Waiting)
  }

  lemma Converts()
    ensures Fits(ReaderAndConverter(), 1, TryUnlockSharedAndLockUntil)
    ensures MayRun(TryUnlockSharedAndLockUntil, First, ReaderAndConverter().d)
    ensures Run(ReaderAndConverter(), 1, TryUnlockSharedAndLockUntil, First) == Converted()
    ensures Fits(Converted(), 1, Unlock) && Demand(Unlock, Converted().d)
  {
  }

  lemma AfterUnlock(s1: Sys) returns (s: Sys)
    requires s1 == Sys(StateData(0, true, false, false), Queues([], [], [2]), Holders({}, {}, {2}, {1}), Waiting)
    ensures s == Notify(Notify(Run(s1, 1, Unlock, First), 1, NotifyingExclusive), 1, NotifyingShared)
    ensures CanLock(s.d) && s.phase == Waiting && s.q.upgrade == [2]
  {
    var s2 := Run(s1, 1, Unlock, First);
    assert s2.d == StateData(0, false, false, false) && s2.q == s1.q
        && s2.phase == Waiting[1 := Releasing(NotifyingExclusive)];
    s := Notified(s2);
  }

  lemma Notified(s2: Sys) returns (s: Sys)
    requires s2.q == Queues([], [], [2]) && s2.phase == Waiting[1 := Releasing(NotifyingExclusive)]
    ensures s == Notify(Notify(s2, 1, NotifyingExclusive), 1, NotifyingShared)
    ensures s.d == s2.d && s.phase == Waiting && s.q.upgrade == [2]
  {
    var s3 := Notify(s2, 1, NotifyingExclusive);
    assert s3.q == s2.q && s3.phase == Waiting[1 := Releasing(NotifyingShared)];
    s := Notify(s3, 1, NotifyingShared);
  }
}
