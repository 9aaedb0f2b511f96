/** What every member of shared_timed_mutex answers, in terms of who holds the lock: when it succeeds, when it
    waits and when it is refused, whom it notifies, and what becomes of exclusive_waiting_blocked. */
module SharedMutexOutcomes {
  import opened Basics
  import opened SharedMutexModel
  import opened SharedMutexRuns
  import opened SharedMutexTheorems
  import opened SharedMutexWriters

  /** t runs a section of the call: it makes it with the role it demands, or its wait has ended. */
  predicate Entering(s: Sys, t: Tid, call: Call, e: Entrance) {
    if e.First? then Fits(s, t, call) else t in s.phase && s.phase[t] == Woken(call, e.timedOut)
  }

  /** Somebody holds the lock exclusively: a writer, or a converter that waits for no reader any more. */
  predicate Excluded(h: Holders) { h.writers != {} || (h.converters != {} && h.readers == {}) }

  predicate NobodyUpgrades(h: Holders) { h.upgraders == {} && h.converters == {} }

  /** The lock, as it is held, admits what the call asks for. */
  predicate Admits(h: Holders, blocked: bool, t: Tid, call: Call) {
    match call
    case LockShared => !Excluded(h) && !blocked
    case TryLockShared => !Excluded(h) && !blocked
    case TryLockSharedUntil => !Excluded(h) && !blocked
    case Lock => h == Holders({}, {}, {}, {})
    case TryLock => h == Holders({}, {}, {}, {})
    case TryLockUntil => h == Holders({}, {}, {}, {})
    case LockUpgrade => !Excluded(h) && !blocked && NobodyUpgrades(h)
    case TryLockUpgrade => !Excluded(h) && !blocked && NobodyUpgrades(h)
    case TryLockUpgradeUntil => !Excluded(h) && !blocked && NobodyUpgrades(h)
    case UnlockUpgradeAndLock => h.readers == {}
    case TryUnlockUpgradeAndLock => h.readers == {} && !blocked
    case TryUnlockUpgradeAndLockUntil => h.readers == {}
    case TryUnlockSharedAndLock => h.readers == {t} && NobodyUpgrades(h) && !blocked
    case TryUnlockSharedAndLockUntil => h.readers == {t} && h.upgraders == {}
    case TryUnlockSharedAndLockUpgrade => NobodyUpgrades(h) && !blocked
    case TryUnlockSharedAndLockUpgradeUntil => NobodyUpgrades(h) && !blocked
    case _ => true
  }

  /** The same in numbers; `Caller` counts itself. */
  predicate AdmitsCounts(k: Counts, blocked: bool, call: Call) {
    var excluded := k.writers > 0 || (k.converters > 0 && k.readers == 0);
    var nobodyUpgrades := k.upgraders == 0 && k.converters == 0;
    match RoleAfter(call)
    case Reader => call.UnlockAndLockShared? || call.UnlockUpgradeAndLockShared? || (!excluded && !blocked)
    case Upgrader => call.UnlockAndLockUpgrade? || (!excluded && !blocked && nobodyUpgrades)
    case Writer =>
      (match RoleBefore(call)
       case Reader =>
         k.readers == 1 && k.upgraders == 0 && (call.TryUnlockSharedAndLock? ==> k.converters == 0 && !blocked)
       case Upgrader => k.readers == 0 && (call.TryUnlockUpgradeAndLock? ==> !blocked)
       case _ => k == Counts(0, 0, 0, 0))
    case _ => true
  }

  /** Success, waiting and refusal: a timed lock_shared() alone does not look again after a timeout. */
  predicate Answers(admits: bool, call: Call, e: Entrance, v: Verdict) {
    && (v.Returns? && v.ok <==> admits && !(call.TryLockSharedUntil? && e == Again(true)))
    && (v.Waits? <==> !admits && MayWait(call) && e != Again(true))
  }

  lemma SharedAnswers(d: StateData, k: Counts, call: Call, e: Entrance)
    requires FlagsOk(d, k) && Counted(k, RoleFound(call, e)) && MayRun(call, e, d) && IsShared(call)
    ensures Answers(AdmitsCounts(k, d.blocked, call), call, e, SharedSection(call, e, d).1)
  {
  }

  lemma FreeIff(d: StateData, k: Counts)
    requires FlagsOk(d, k)
    ensures CanLock(d) <==> k == Counts(0, 0, 0, 0)
  {
  }

  lemma ExclusiveAnswers(d: StateData, k: Counts, call: Call, e: Entrance)
    requires FlagsOk(d, k) && MayRun(call, e, d) && IsExclusive(call)
    ensures Answers(AdmitsCounts(k, d.blocked, call), call, e, ExclusiveSection(call, e, d).1)
  {
    hide FlagsOk, CanLock;
    FreeIff(d, k);
  }

  lemma UpgradeAnswers(d: StateData, k: Counts, call: Call, e: Entrance)
    requires FlagsOk(d, k) && Counted(k, RoleFound(call, e)) && MayRun(call, e, d) && IsUpgrade(call)
    ensures Answers(AdmitsCounts(k, d.blocked, call), call, e, UpgradeSection(call, e, d).1)
  {
  }

  lemma UpgradeExclusiveAnswers(d: StateData, k: Counts, call: Call, e: Entrance)
    requires FlagsOk(d, k) && Counted(k, RoleFound(call, e)) && MayRun(call, e, d) && IsUpgradeExclusive(call)
    ensures Answers(AdmitsCounts(k, d.blocked, call), call, e, UpgradeExclusiveSection(call, e, d).1)
  {
  }

  lemma ConversionAnswers(d: StateData, k: Counts, call: Call, e: Entrance)
    requires FlagsOk(d, k) && Counted(k, RoleFound(call, e)) && MayRun(call, e, d) && IsConversion(call)
    ensures Answers(AdmitsCounts(k, d.blocked, call), call, e, SharedConversionSection(call, e, d).1)
  {
  }

  lemma SectionAnswers(d: StateData, k: Counts, call: Call, e: Entrance)
    requires FlagsOk(d, k) && Counted(k, RoleFound(call, e)) && MayRun(call, e, d)
    ensures Answers(AdmitsCounts(k, d.blocked, call), call, e, Section(call, e, d).1)
  {
    hide Answers, AdmitsCounts, FlagsOk;
    hide SharedSection, ExclusiveSection, UpgradeSection, UpgradeExclusiveSection, SharedConversionSection;
    if IsShared(call) { SharedAnswers(d, k, call, e); }
    else if IsExclusive(call) { ExclusiveAnswers(d, k, call, e); }
    else if IsUpgrade(call) { UpgradeAnswers(d, k, call, e); }
    else if IsUpgradeExclusive(call) { UpgradeExclusiveAnswers(d, k, call, e); }
    else { ConversionAnswers(d, k, call, e); }
  }

  lemma OneMember(a: set<Tid>, t: Tid)
    requires t in a
    ensures |a| == 1 <==> a == {t}
  {
    if |a| == 1 && a != {t} {
      var u :| u in a && u != t;
      TwoMembers(a, t, u);
    }
  }

  lemma Alone(h: Holders, t: Tid)
    requires RoleOf(h, t).Reader?
    ensures |h.readers| == 1 <==> h.readers == {t}
  {
    OneMember(h.readers, t);
  }

  lemma AdmitsMeans(s: Sys, t: Tid, call: Call, e: Entrance)
    requires FlagsOk(s.d, CountsOf(s.h)) && RoleOf(s.h, t) == RoleFound(call, e)
    ensures AdmitsCounts(CountsOf(s.h), s.d.blocked, call) <==> Admits(s.h, s.d.blocked, t, call)
  {
    hide RoleOf;
    RoleCounted(s.h, t);
    if RoleFound(call, e).Reader? { Alone(s.h, t); }
    assert s.h == Holders({}, {}, {}, {}) <==> CountsOf(s.h) == Counts(0, 0, 0, 0);
  }

  lemma EnteringRole(s: Sys, t: Tid, call: Call, e: Entrance)
    requires Inv(s) && Entering(s, t, call, e)
    ensures RoleOf(s.h, t) == RoleFound(call, e) && MayRun(call, e, s.d) && Counted(CountsOf(s.h), RoleFound(call, e))
  {
    hide Disjoint, QueuesOk, GrantOk, WritersServed, ReadersServed;
    assert ThreadOk(s, t);
    RoleCounted(s.h, t);
    if e.First? { DemandsMet(s.d, CountsOf(s.h), call); }
  }

  /** Every member succeeds exactly when the lock admits what it asks for, and waits exactly when it does not
      and the call may wait and its time is not up. */
  lemma SuccessIff(s: Sys, t: Tid, call: Call, e: Entrance)
    requires Reachable(s) && Entering(s, t, call, e)
    ensures MayRun(call, e, s.d)
    ensures Answers(Admits(s.h, s.d.blocked, t, call), call, e, Section(call, e, s.d).1)
  {
    hide Reachable, Entering, FlagsOk, RoleOf, Answers, Admits, AdmitsCounts, Section, MayRun, Counted;
    ReachableInv(s);
    EnteringRole(s, t, call, e);
    AdmitsMeans(s, t, call, e);
    SectionAnswers(s.d, CountsOf(s.h), call, e);
  }

  // ----- Notifications, and exclusive_waiting_blocked -----

  /** The caller is the last holder, as far as the lock counts. */
  predicate LastHolder(h: Holders, t: Tid, call: Call) {
    if call.UnlockShared? then h.readers == {t} && h.upgraders == {} else h.readers == {}
  }

  predicate LastCounted(k: Counts, call: Call) {
    if call.UnlockShared? then k.readers == 1 && k.upgraders == 0 else k.readers == 0
  }

  /** Whom a member notifies when it returns. */
  function WhomToNotify(last: bool, converters: bool, call: Call, e: Entrance, ok: bool): Wakes {
    match call
    case Unlock => Release
    case UnlockAndLockUpgrade => Release
    case UnlockAndLockShared => Release
    case UnlockUpgradeAndLockShared => Release
    case UnlockShared => if !last then Nobody else if converters then UpgradeThenRelease else Release
    case UnlockUpgrade => if last then Release else AllShared
    case TryLockUntil => if ok then Nobody else Release
    case _ => Nobody
  }

  /** The flag is set by a writer that waits, taken back by whoever releases the waiters and by a timed
      conversion that takes the lock, and otherwise kept. */
  function BlockedThen(blocked: bool, call: Call, v: Verdict): bool {
    if v.Waits? then IsWriting(call) || blocked
    else if v.wakes.Release? then false
    else if v.ok && (call.TryUnlockUpgradeAndLockUntil? || call.TryUnlockSharedAndLockUntil?) then false
    else blocked
  }

  predicate Notifies(d: StateData, k: Counts, call: Call, e: Entrance, d': StateData, v: Verdict) {
    && (v.Returns? ==> v.wakes == WhomToNotify(LastCounted(k, call), k.converters > 0, call, e, v.ok))
    && d'.blocked == BlockedThen(d.blocked, call, v)
  }

  lemma SharedNotifies(d: StateData, k: Counts, call: Call, e: Entrance)
    requires FlagsOk(d, k) && Counted(k, RoleFound(call, e)) && MayRun(call, e, d) && IsShared(call)
    ensures Notifies(d, k, call, e, SharedSection(call, e, d).0, SharedSection(call, e, d).1)
  {
  }

  lemma ExclusiveNotifies(d: StateData, k: Counts, call: Call, e: Entrance)
    requires FlagsOk(d, k) && Counted(k, RoleFound(call, e)) && MayRun(call, e, d) && IsExclusive(call)
    ensures Notifies(d, k, call, e, ExclusiveSection(call, e, d).0, ExclusiveSection(call, e, d).1)
  {
  }

  lemma UpgradeNotifies(d: StateData, k: Counts, call: Call, e: Entrance)
    requires FlagsOk(d, k) && Counted(k, RoleFound(call, e)) && MayRun(call, e, d) && IsUpgrade(call)
    ensures Notifies(d, k, call, e, UpgradeSection(call, e, d).0, UpgradeSection(call, e, d).1)
  {
  }

  lemma UpgradeExclusiveNotifies(d: StateData, k: Counts, call: Call, e: Entrance)
    requires FlagsOk(d, k) && Counted(k, RoleFound(call, e)) && MayRun(call, e, d) && IsUpgradeExclusive(call)
    ensures Notifies(d, k, call, e, UpgradeExclusiveSection(call, e, d).0, UpgradeExclusiveSection(call, e, d).1)
  {
  }

  lemma ConversionNotifies(d: StateData, k: Counts, call: Call, e: Entrance)
    requires FlagsOk(d, k) && Counted(k, RoleFound(call, e)) && MayRun(call, e, d) && IsConversion(call)
    ensures Notifies(d, k, call, e, SharedConversionSection(call, e, d).0, SharedConversionSection(call, e, d).1)
  {
  }

  lemma SectionNotifies(d: StateData, k: Counts, call: Call, e: Entrance)
    requires FlagsOk(d, k) && Counted(k, RoleFound(call, e)) && MayRun(call, e, d)
    ensures Notifies(d, k, call, e, Section(call, e, d).0, Section(call, e, d).1)
  {
    hide Notifies, FlagsOk;
    hide SharedSection, ExclusiveSection, UpgradeSection, UpgradeExclusiveSection, SharedConversionSection;
    if IsShared(call) { SharedNotifies(d, k, call, e); }
    else if IsExclusive(call) { ExclusiveNotifies(d, k, call, e); }
    else if IsUpgrade(call) { UpgradeNotifies(d, k, call, e); }
    else if IsUpgradeExclusive(call) { UpgradeExclusiveNotifies(d, k, call, e); }
    else { ConversionNotifies(d, k, call, e); }
  }

  /** Whom a member notifies is decided by who else holds the lock, and the flag by what it answered. */
  lemma NotifiesWhom(s: Sys, t: Tid, call: Call, e: Entrance)
    requires Reachable(s) && Entering(s, t, call, e)
    ensures MayRun(call, e, s.d)
    ensures var (d', v) := Section(call, e, s.d);
      && (v.Returns? ==> v.wakes == WhomToNotify(LastHolder(s.h, t, call), s.h.converters != {}, call, e, v.ok))
      && d'.blocked == BlockedThen(s.d.blocked, call, v)
  {
    hide Reachable, Entering, FlagsOk, RoleOf, Section, MayRun, Counted, BlockedThen, WhomToNotify;
    ReachableInv(s);
    EnteringRole(s, t, call, e);
    if call.UnlockShared? { Alone(s.h, t); }
    SectionNotifies(s.d, CountsOf(s.h), call, e);
  }
}
