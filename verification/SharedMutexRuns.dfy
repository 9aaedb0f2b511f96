/** Any number of threads calling one shared_timed_mutex: exclusion, and nobody is stranded. */
module SharedMutexRuns {
  import opened Basics
  import opened SharedMutexModel

  /** Who holds what (history). A converter is inside unlock_upgrade_and_lock(). */
  datatype Holders = Holders(readers: set<Tid>, upgraders: set<Tid>, converters: set<Tid>, writers: set<Tid>)

  datatype Role = NoRole | Reader | Upgrader | Converter | Writer

  /** The notifications that a returning section still has to make, one atomic step each. */
  datatype Stage = NotifyingUpgrade | NotifyingExclusive | NotifyingShared

  datatype Phase =
    | Outside                                 // in no call
    | Parked(call: Call)
    | Woken(call: Call, timedOut: bool)
    | Releasing(stage: Stage)

  datatype Sys = Sys(d: StateData, q: Queues, h: Holders, phase: map<Tid, Phase>)

  predicate Initial(s: Sys) {
    && s.d == StateData(0, false, false, false) && s.q == Queues([], [], []) && s.h == Holders({}, {}, {}, {})
    && forall t :: t in s.phase ==> s.phase[t] == Outside
  }

  // ----- Roles -----

  function RoleOf(h: Holders, t: Tid): Role {
    if t in h.readers then Reader
    else if t in h.upgraders then Upgrader
    else if t in h.converters then Converter
    else if t in h.writers then Writer
    else NoRole
  }

  function SetRole(h: Holders, t: Tid, r: Role): Holders {
    Holders(if r.Reader? then h.readers + {t} else h.readers - {t},
            if r.Upgrader? then h.upgraders + {t} else h.upgraders - {t},
            if r.Converter? then h.converters + {t} else h.converters - {t},
            if r.Writer? then h.writers + {t} else h.writers - {t})
  }

  /** What a correct caller holds when it calls. */
  function RoleBefore(call: Call): Role {
    match call
    case UnlockShared => Reader
    case TryUnlockSharedAndLock => Reader
    case TryUnlockSharedAndLockUntil => Reader
    case TryUnlockSharedAndLockUpgrade => Reader
    case TryUnlockSharedAndLockUpgradeUntil => Reader
    case UnlockUpgrade => Upgrader
    case UnlockUpgradeAndLock => Upgrader
    case TryUnlockUpgradeAndLock => Upgrader
    case TryUnlockUpgradeAndLockUntil => Upgrader
    case UnlockUpgradeAndLockShared => Upgrader
    case Unlock => Writer
    case UnlockAndLockUpgrade => Writer
    case UnlockAndLockShared => Writer
    case _ => NoRole
  }

  /** What it holds while it waits. */
  function RoleWaiting(call: Call): Role {
    if call.UnlockUpgradeAndLock? then Converter else RoleBefore(call)
  }

  /** What it holds when the call has succeeded. */
  function RoleAfter(call: Call): Role {
    match call
    case LockShared => Reader
    case TryLockShared => Reader
    case TryLockSharedUntil => Reader
    case UnlockAndLockShared => Reader
    case UnlockUpgradeAndLockShared => Reader
    case LockUpgrade => Upgrader
    case TryLockUpgrade => Upgrader
    case TryLockUpgradeUntil => Upgrader
    case UnlockAndLockUpgrade => Upgrader
    case TryUnlockSharedAndLockUpgrade => Upgrader
    case TryUnlockSharedAndLockUpgradeUntil => Upgrader
    case UnlockShared => NoRole
    case Unlock => NoRole
    case UnlockUpgrade => NoRole
    case _ => Writer
  }

  function RoleThen(call: Call, v: Verdict): Role {
    match v
    case Waits(_) => RoleWaiting(call)
    case Returns(ok, _) => if ok then RoleAfter(call) else RoleWaiting(call)
  }

  function PhaseThen(call: Call, v: Verdict): Phase {
    match v
    case Waits(_) => Parked(call)
    case Returns(_, Release) => Releasing(NotifyingExclusive)
    case Returns(_, UpgradeThenRelease) => Releasing(NotifyingUpgrade)
    case Returns(_, _) => Outside
  }

  // ----- Steps -----

  /** Every thread of the list is woken by a notification. */
  function Wake(phase: map<Tid, Phase>, woken: seq<Tid>): map<Tid, Phase> {
    map t | t in phase :: if t in woken && phase[t].Parked? then Woken(phase[t].call, false) else phase[t]
  }

  function Run(s: Sys, t: Tid, call: Call, e: Entrance): Sys
    requires MayRun(call, e, s.d)
  {
    var (d, v) := Section(call, e, s.d);
    var woken := if v.Returns? && v.wakes == AllShared then s.q.shared else [];
    Sys(d, Enqueued(s.q, v, t), SetRole(s.h, t, RoleThen(call, v)), Wake(s.phase, woken)[t := PhaseThen(call, v)])
  }

  function Without(q: seq<Tid>, t: Tid): seq<Tid> {
    if q == [] then [] else if q[0] == t then Without(q[1..], t) else [q[0]] + Without(q[1..], t)
  }

  function WithoutAll(q: Queues, t: Tid): Queues {
    Queues(Without(q.shared, t), Without(q.exclusive, t), Without(q.upgrade, t))
  }

  function FrontOf(q: seq<Tid>): seq<Tid> { if q == [] then [] else [q[0]] }

  function Tail(q: seq<Tid>): seq<Tid> { if q == [] then [] else q[1..] }

  function Notify(s: Sys, t: Tid, stage: Stage): Sys {
    match stage
    case NotifyingUpgrade =>
      s.(q := s.q.(upgrade := Tail(s.q.upgrade)),
         phase := Wake(s.phase, FrontOf(s.q.upgrade))[t := Releasing(NotifyingExclusive)])
    case NotifyingExclusive =>
      s.(q := s.q.(exclusive := Tail(s.q.exclusive)),
         phase := Wake(s.phase, FrontOf(s.q.exclusive))[t := Releasing(NotifyingShared)])
    case NotifyingShared =>
      s.(q := s.q.(shared := []), phase := Wake(s.phase, s.q.shared)[t := Outside])
  }

  /** The time of a timed wait is up: the thread leaves its queue unless it was notified before. */
  function TimeUp(s: Sys, t: Tid, call: Call): Sys {
    s.(q := WithoutAll(s.q, t), phase := s.phase[t := Woken(call, true)])
  }

  datatype Label = Begin(t: Tid, call: Call) | Resume(t: Tid) | TimeOut(t: Tid) | Notification(t: Tid)

  predicate Fits(s: Sys, t: Tid, call: Call) {
    t in s.phase && s.phase[t].Outside? && RoleOf(s.h, t) == RoleBefore(call)
  }

  /** The timed conversion from shared to exclusive ignores a waiting converter, which shows in `upgrade`
      being set although the caller is the only one counted. Every other section of it is considered. */
  predicate Considered(call: Call, d: StateData) {
    call.TryUnlockSharedAndLockUntil? && d.sharedCount == 1 ==> !d.upgrade
  }

  /** Correct callers: each call is made with the role it demands. */
  predicate Enabled(s: Sys, l: Label) {
    match l
    case Begin(t, call) => Fits(s, t, call) && Considered(call, s.d) && MayRun(call, First, s.d)
    case Resume(t) =>
      && t in s.phase && s.phase[t].Woken? && Considered(s.phase[t].call, s.d)
      && MayRun(s.phase[t].call, Again(s.phase[t].timedOut), s.d)
    case TimeOut(t) => t in s.phase && (s.phase[t].Parked? || s.phase[t].Woken?) && Timed(s.phase[t].call)
    case Notification(t) => t in s.phase && s.phase[t].Releasing?
  }

  function Next(s: Sys, l: Label): Sys
    requires Enabled(s, l)
  {
    match l
    case Begin(t, call) => Run(s, t, call, First)
    case Resume(t) => Run(s, t, s.phase[t].call, Again(s.phase[t].timedOut))
    case TimeOut(t) => TimeUp(s, t, s.phase[t].call)
    case Notification(t) => Notify(s, t, s.phase[t].stage)
  }

  // ----- The invariant on the counts and flags -----

  predicate Held(d: StateData) { d.exclusive || d.sharedCount > 0 }

  predicate Disjoint(h: Holders) {
    && h.readers !! h.upgraders && h.readers !! h.converters && h.readers !! h.writers
    && h.upgraders !! h.converters && h.upgraders !! h.writers && h.converters !! h.writers
  }

  /** How many threads have each role. */
  datatype Counts = Counts(readers: int, upgraders: int, converters: int, writers: int)

  function CountsOf(h: Holders): Counts {
    Counts(|h.readers|, |h.upgraders|, |h.converters|, |h.writers|)
  }

  function Add(k: Counts, r: Role, n: int): Counts {
    match r
    case Reader => k.(readers := k.readers + n)
    case Upgrader => k.(upgraders := k.upgraders + n)
    case Converter => k.(converters := k.converters + n)
    case Writer => k.(writers := k.writers + n)
    case NoRole => k
  }

  /** At most one upgrader or converter, at most one writer, never a writer beside a converter; the
      count is that of the readers and the upgrader; a converter keeps `upgrade` set until the last
      reader grants it, and counts as exclusive from then on. */
  predicate FlagsOk(d: StateData, k: Counts) {
    && 0 <= k.readers && 0 <= k.upgraders && 0 <= k.converters && 0 <= k.writers
    && k.upgraders + k.converters <= 1 && k.writers + k.converters <= 1
    && d.sharedCount == k.readers + k.upgraders
    && (d.upgrade <==> k.upgraders > 0 || (k.converters > 0 && !d.exclusive))
    && (d.exclusive <==> k.writers > 0 || (k.converters > 0 && d.sharedCount == 0))
    && (d.exclusive ==> d.sharedCount == 0)
    && (d.blocked ==> Held(d))
  }

  lemma Adding(a: set<Tid>, t: Tid, wanted: bool)
    ensures var a' := if wanted then a + {t} else a - {t};
      |a'| - |a| == (if wanted then 1 else 0) - (if t in a then 1 else 0)
    ensures t in a ==> |a| >= 1
  {
    if t in a { assert a + {t} == a; assert |a - {t}| == |a| - 1; } else { assert a - {t} == a; }
  }

  /** A change of role moves one from the count of the old role to the count of the new one. */
  lemma SetRoleCounts(h: Holders, t: Tid, r: Role)
    requires Disjoint(h)
    ensures Disjoint(SetRole(h, t, r)) && RoleOf(SetRole(h, t, r), t) == r
    ensures CountsOf(SetRole(h, t, r)) == Add(Add(CountsOf(h), RoleOf(h, t), -1), r, 1)
    ensures Add(CountsOf(h), RoleOf(h, t), -1).readers >= 0 && Add(CountsOf(h), RoleOf(h, t), -1).upgraders >= 0
    ensures Add(CountsOf(h), RoleOf(h, t), -1).converters >= 0 && Add(CountsOf(h), RoleOf(h, t), -1).writers >= 0
  {
    hide Disjoint, RoleOf, SetRole;
    SetRoleDisjoint(h, t, r);
    SetRoleSizes(h, t, r);
    RoleMembers(h, t);
  }

  function One(b: bool): int { if b then 1 else 0 }

  lemma SetRoleSizes(h: Holders, t: Tid, r: Role)
    ensures |SetRole(h, t, r).readers| == |h.readers| + One(r.Reader?) - One(t in h.readers)
    ensures |SetRole(h, t, r).upgraders| == |h.upgraders| + One(r.Upgrader?) - One(t in h.upgraders)
    ensures |SetRole(h, t, r).converters| == |h.converters| + One(r.Converter?) - One(t in h.converters)
    ensures |SetRole(h, t, r).writers| == |h.writers| + One(r.Writer?) - One(t in h.writers)
    ensures |h.readers| >= One(t in h.readers) && |h.upgraders| >= One(t in h.upgraders)
    ensures |h.converters| >= One(t in h.converters) && |h.writers| >= One(t in h.writers)
  {
    Adding(h.readers, t, r.Reader?);
    Adding(h.upgraders, t, r.Upgrader?);
    Adding(h.converters, t, r.Converter?);
    Adding(h.writers, t, r.Writer?);
  }

  lemma SetRoleDisjoint(h: Holders, t: Tid, r: Role)
    requires Disjoint(h)
    ensures Disjoint(SetRole(h, t, r)) && RoleOf(SetRole(h, t, r), t) == r
  {
  }

  lemma RoleMembers(h: Holders, t: Tid)
    requires Disjoint(h)
    ensures (t in h.readers <==> RoleOf(h, t).Reader?) && (t in h.upgraders <==> RoleOf(h, t).Upgrader?)
    ensures (t in h.converters <==> RoleOf(h, t).Converter?) && (t in h.writers <==> RoleOf(h, t).Writer?)
  {
  }

  lemma SetRoleOthers(h: Holders, t: Tid, r: Role, u: Tid)
    requires u != t
    ensures RoleOf(SetRole(h, t, r), u) == RoleOf(h, u)
  {
  }

  /** t is counted. */
  predicate Counted(k: Counts, r: Role) {
    match r
    case Reader => k.readers > 0
    case Upgrader => k.upgraders > 0
    case Converter => k.converters > 0
    case Writer => k.writers > 0
    case NoRole => true
  }

  lemma RoleCounted(h: Holders, t: Tid)
    ensures Counted(CountsOf(h), RoleOf(h, t))
  {
    SetRolePositive(h.readers, t);
    SetRolePositive(h.upgraders, t);
    SetRolePositive(h.converters, t);
    SetRolePositive(h.writers, t);
  }

  lemma SetRolePositive(a: set<Tid>, t: Tid)
    ensures t in a ==> |a| > 0
  {
  }

  /** The assertions of the code hold for every correct caller. */
  lemma DemandsMet(d: StateData, k: Counts, call: Call)
    requires FlagsOk(d, k) && Counted(k, RoleBefore(call))
    ensures Demand(call, d)
  {
  }

  /** The role with which a section finds its thread: by the call with its role, or again with the
      role of a waiter. */
  function RoleFound(call: Call, e: Entrance): Role {
    if e.First? then RoleBefore(call) else RoleWaiting(call)
  }

  /** What SectionFlags shows of each group of sections. */
  predicate KeepsFlags(k: Counts, call: Call, e: Entrance, d': StateData, v: Verdict) {
    FlagsOk(d', Add(Add(k, RoleFound(call, e), -1), RoleThen(call, v), 1))
  }

  /** A correct caller: it is counted in its role, and a converter runs again only once granted. */
  predicate Correct(d: StateData, k: Counts, call: Call, e: Entrance) {
    && FlagsOk(d, k) && Counted(k, RoleFound(call, e)) && MayRun(call, e, d) && Considered(call, d)
    && (e.Again? && call.UnlockUpgradeAndLock? ==> d.exclusive)
  }

  lemma SharedFlags(d: StateData, k: Counts, call: Call, e: Entrance)
    requires Correct(d, k, call, e) && IsShared(call)
    ensures KeepsFlags(k, call, e, SharedSection(call, e, d).0, SharedSection(call, e, d).1)
  {
  }

  lemma ExclusiveFlags(d: StateData, k: Counts, call: Call, e: Entrance)
    requires Correct(d, k, call, e) && IsExclusive(call)
    ensures KeepsFlags(k, call, e, ExclusiveSection(call, e, d).0, ExclusiveSection(call, e, d).1)
  {
  }

  lemma UpgradeFlags(d: StateData, k: Counts, call: Call, e: Entrance)
    requires Correct(d, k, call, e) && IsUpgrade(call)
    ensures KeepsFlags(k, call, e, UpgradeSection(call, e, d).0, UpgradeSection(call, e, d).1)
  {
  }

  lemma UpgradeExclusiveFlags(d: StateData, k: Counts, call: Call, e: Entrance)
    requires Correct(d, k, call, e) && IsUpgradeExclusive(call)
    ensures KeepsFlags(k, call, e, UpgradeExclusiveSection(call, e, d).0, UpgradeExclusiveSection(call, e, d).1)
  {
  }

  lemma ConversionFlags(d: StateData, k: Counts, call: Call, e: Entrance)
    requires Correct(d, k, call, e) && IsConversion(call)
    ensures KeepsFlags(k, call, e, SharedConversionSection(call, e, d).0, SharedConversionSection(call, e, d).1)
  {
  }

  /** A section of a correct caller keeps the counts and flags in step. */
  lemma SectionFlags(d: StateData, k: Counts, call: Call, e: Entrance)
    requires Correct(d, k, call, e)
    ensures KeepsFlags(k, call, e, Section(call, e, d).0, Section(call, e, d).1)
  {
    hide KeepsFlags, SharedSection, ExclusiveSection, UpgradeSection, UpgradeExclusiveSection, SharedConversionSection;
    if IsShared(call) { SharedFlags(d, k, call, e); }
    else if IsExclusive(call) { ExclusiveFlags(d, k, call, e); }
    else if IsUpgrade(call) { UpgradeFlags(d, k, call, e); }
    else if IsUpgradeExclusive(call) { UpgradeExclusiveFlags(d, k, call, e); }
    else { ConversionFlags(d, k, call, e); }
  }

  // ----- The invariant on queues, phases and pending notifications -----

  /** The condition a call waits on. */
  function CondFor(call: Call): Cond {
    match call
    case Lock => ExclusiveCond
    case TryLockUntil => ExclusiveCond
    case TryUnlockSharedAndLockUpgradeUntil => ExclusiveCond
    case UnlockUpgradeAndLock => UpgradeCond
    case _ => SharedCond
  }

  predicate Queued(q: Queues, t: Tid) {
    t in q.shared || t in q.exclusive || t in q.upgrade
  }

  /** t is queued exactly where its phase says, and holds what it should. */
  predicate ThreadOk(s: Sys, t: Tid)
    requires t in s.phase
  {
    match s.phase[t]
    case Parked(call) =>
      && MayWait(call) && RoleOf(s.h, t) == RoleWaiting(call)
      && (t in s.q.shared <==> CondFor(call).SharedCond?)
      && (t in s.q.exclusive <==> CondFor(call).ExclusiveCond?)
      && (t in s.q.upgrade <==> CondFor(call).UpgradeCond?)
    case Woken(call, timedOut) =>
      && MayWait(call) && RoleOf(s.h, t) == RoleWaiting(call)
      && !Queued(s.q, t) && (timedOut ==> Timed(call))
      && (call.UnlockUpgradeAndLock? ==> s.d.exclusive)
    case Releasing(stage) =>
      && !Queued(s.q, t) && !RoleOf(s.h, t).Converter?
      && (stage.NotifyingUpgrade? ==> s.d.exclusive && s.q.upgrade != [])
    case Outside => !Queued(s.q, t) && !RoleOf(s.h, t).Converter?
  }

  ghost predicate ThreadsOk(s: Sys) {
    forall t :: t in s.phase ==> ThreadOk(s, t)
  }

  ghost predicate QueuesOk(s: Sys) {
    && NoDup(s.q.shared) && NoDup(s.q.exclusive) && NoDup(s.q.upgrade)
    && (forall t :: Queued(s.q, t) ==> t in s.phase)
    && (forall t :: t in s.h.converters ==> t in s.phase)
  }

  predicate Granting(s: Sys, u: Tid) {
    u in s.phase && s.phase[u] == Releasing(NotifyingUpgrade)
  }

  /** A granted converter that is still parked has exactly one notification on its way. */
  ghost predicate GrantOk(s: Sys) {
    && (s.d.exclusive && s.q.upgrade != [] ==> exists u :: Granting(s, u))
    && (forall u, v :: Granting(s, u) && Granting(s, v) ==> u == v)
  }

  predicate InRelease(s: Sys, u: Tid) {
    u in s.phase && s.phase[u].Releasing?
  }

  /** u will look at the lock for a writer: it is a notified writer, or about to notify one. */
  predicate WriterComing(s: Sys, u: Tid) {
    u in s.phase && match s.phase[u]
      case Woken(call, _) => call.Lock? || call.TryLockUntil?
      case Releasing(stage) => !stage.NotifyingShared?
      case _ => false
  }

  ghost predicate WritersServed(s: Sys) {
    CanLock(s.d) && s.q.exclusive != [] ==> exists u :: WriterComing(s, u)
  }

  /** The condition that a parked lock_shared() or lock_upgrade() waits for. */
  predicate CanPass(d: StateData, call: Call) {
    match call
    case LockShared => CanLockShared(d)
    case TryLockSharedUntil => CanLockShared(d)
    case LockUpgrade => CanLockUpgrade(d)
    case TryLockUpgradeUntil => CanLockUpgrade(d)
    case _ => false
  }

  predicate ParkedAndPassable(s: Sys, t: Tid) {
    t in s.phase && s.phase[t].Parked? && CanPass(s.d, s.phase[t].call)
  }

  ghost predicate ReadersServed(s: Sys) {
    (exists t :: ParkedAndPassable(s, t)) ==> exists u :: InRelease(s, u)
  }

  ghost predicate Inv(s: Sys) {
    && Disjoint(s.h) && FlagsOk(s.d, CountsOf(s.h))
    && ThreadsOk(s) && QueuesOk(s) && GrantOk(s) && WritersServed(s) && ReadersServed(s)
  }

  lemma InitialInv(s: Sys)
    requires Initial(s)
    ensures Inv(s)
  {
  }

  // ----- What a section does to its flags -----

  predicate Facts(d: StateData, call: Call, d': StateData, v: Verdict) {
    && (d.exclusive && !d'.exclusive ==> RoleBefore(call).Writer?)
    && (!d.exclusive && d'.exclusive ==>
      || CanLock(d) || RoleBefore(call).Upgrader? || !d.upgrade || (call.TryUnlockSharedAndLockUntil? && d.sharedCount == 1)
      || (v.Returns? && v.wakes == UpgradeThenRelease))
    && (Held(d) && !Held(d') ==> v.Returns? && v.wakes == Release)
    && (CanLockShared(d') && !CanLockShared(d) ==> v.Returns? && v.wakes == Release)
    && (CanLockUpgrade(d') && !CanLockUpgrade(d) ==> v.Returns? && (v.wakes == Release || v.wakes == AllShared))
    && (v.Waits? ==> MayWait(call) && v.c == CondFor(call) && !CanPass(d', call))
    && (v.Waits? && v.c.ExclusiveCond? ==> Held(d') || RoleBefore(call).Reader?)
    && (v.Waits? && v.c.UpgradeCond? ==> d.sharedCount > 0 && d'.exclusive == d.exclusive)
    && (v.Returns? && call.UnlockUpgradeAndLock? ==> v.ok)
    && (v.Returns? && v.wakes == UpgradeThenRelease ==>
      call.UnlockShared? && d.upgrade && d.sharedCount == 1 && !d.exclusive && d'.exclusive)
  }

  lemma SharedFacts(d: StateData, call: Call, e: Entrance)
    requires MayRun(call, e, d) && IsShared(call)
    ensures Facts(d, call, SharedSection(call, e, d).0, SharedSection(call, e, d).1)
  {
  }

  lemma ExclusiveFacts(d: StateData, call: Call, e: Entrance)
    requires MayRun(call, e, d) && IsExclusive(call)
    ensures Facts(d, call, ExclusiveSection(call, e, d).0, ExclusiveSection(call, e, d).1)
  {
  }

  lemma UpgradeFacts(d: StateData, call: Call, e: Entrance)
    requires MayRun(call, e, d) && IsUpgrade(call)
    ensures Facts(d, call, UpgradeSection(call, e, d).0, UpgradeSection(call, e, d).1)
  {
  }

  lemma UpgradeExclusiveFacts(d: StateData, call: Call, e: Entrance)
    requires MayRun(call, e, d) && IsUpgradeExclusive(call)
    ensures Facts(d, call, UpgradeExclusiveSection(call, e, d).0, UpgradeExclusiveSection(call, e, d).1)
  {
  }

  lemma ConversionFacts(d: StateData, call: Call, e: Entrance)
    requires MayRun(call, e, d) && IsConversion(call)
    ensures Facts(d, call, SharedConversionSection(call, e, d).0, SharedConversionSection(call, e, d).1)
  {
  }

  lemma SectionFacts(d: StateData, call: Call, e: Entrance)
    requires MayRun(call, e, d)
    ensures Facts(d, call, Section(call, e, d).0, Section(call, e, d).1)
  {
    hide Facts, SharedSection, ExclusiveSection, UpgradeSection, UpgradeExclusiveSection, SharedConversionSection;
    if IsShared(call) { SharedFacts(d, call, e); }
    else if IsExclusive(call) { ExclusiveFacts(d, call, e); }
    else if IsUpgrade(call) { UpgradeFacts(d, call, e); }
    else if IsUpgradeExclusive(call) { UpgradeExclusiveFacts(d, call, e); }
    else { ConversionFacts(d, call, e); }
  }

  // ----- A section keeps the invariant -----

  /** How a section starts: its thread is in no queue and has the role the call finds it with. */
  ghost predicate Starts(s: Sys, t: Tid, call: Call, e: Entrance) {
    && t in s.phase && MayRun(call, e, s.d) && Considered(call, s.d)
    && !Queued(s.q, t) && RoleOf(s.h, t) == RoleFound(call, e)
    && (e.Again? && call.UnlockUpgradeAndLock? ==> s.d.exclusive)
    && (if e.First? then s.phase[t].Outside? else s.phase[t] == Woken(call, e.timedOut))
  }

  lemma StartsFromLabel(s: Sys, l: Label)
    requires ThreadsOk(s) && Enabled(s, l) && (l.Begin? || l.Resume?)
    ensures var (call, e) := if l.Begin? then (l.call, First) else (s.phase[l.t].call, Again(s.phase[l.t].timedOut));
      Starts(s, l.t, call, e) && Next(s, l) == Run(s, l.t, call, e)
  {
    assert ThreadOk(s, l.t);
  }

  /** While somebody waits for a conversion no writer holds the lock, so exclusive ownership stays. */
  lemma ConverterExcludesWriter(h: Holders, d: StateData, c: Tid, t: Tid)
    requires FlagsOk(d, CountsOf(h)) && RoleOf(h, c).Converter?
    ensures !RoleOf(h, t).Writer? && (RoleOf(h, t).Upgrader? ==> false)
  {
    RoleCounted(h, c);
    RoleCounted(h, t);
  }

  lemma ExclusiveStays(s: Sys, t: Tid, call: Call, e: Entrance, c: Tid)
    requires FlagsOk(s.d, CountsOf(s.h)) && Starts(s, t, call, e) && RoleOf(s.h, c).Converter? && c != t
    ensures s.d.exclusive ==> Run(s, t, call, e).d.exclusive
    ensures !call.UnlockUpgradeAndLock?
  {
    SectionFacts(s.d, call, e);
    ConverterExcludesWriter(s.h, s.d, c, t);
    if call.UnlockUpgradeAndLock? { RoleCounted(s.h, t); RoleCounted(s.h, c); OneConverter(s.h, s.d, c, t); }
  }

  lemma TwoMembers(a: set<Tid>, x: Tid, y: Tid)
    requires x in a && y in a && x != y
    ensures |a| >= 2
  {
    assert |a - {x}| == |a| - 1 && y in a - {x};
  }

  lemma OneConverter(h: Holders, d: StateData, x: Tid, y: Tid)
    requires FlagsOk(d, CountsOf(h)) && RoleOf(h, x).Converter? && RoleOf(h, y).Converter?
    ensures x == y
  {
    if x != y { TwoMembers(h.converters, x, y); }
  }

  lemma RunFlags(s: Sys, s': Sys, t: Tid, call: Call, e: Entrance)
    requires Disjoint(s.h) && FlagsOk(s.d, CountsOf(s.h)) && Starts(s, t, call, e) && s' == Run(s, t, call, e)
    ensures Disjoint(s'.h) && FlagsOk(s'.d, CountsOf(s'.h))
  {
    var (d', v) := Section(call, e, s.d);
    RoleCounted(s.h, t);
    SetRoleCounts(s.h, t, RoleThen(call, v));
    SectionFlags(s.d, CountsOf(s.h), call, e);
  }

  /** What a section leaves: its own parts, and everybody else as before or woken by notify_all. */
  lemma RunParts(s: Sys, s': Sys, t: Tid, call: Call, e: Entrance, d': StateData, v: Verdict)
    requires Starts(s, t, call, e) && s' == Run(s, t, call, e) && (d', v) == Section(call, e, s.d)
    ensures s'.d == d' && s'.phase.Keys == s.phase.Keys && s'.phase[t] == PhaseThen(call, v)
    ensures s'.q == Enqueued(s.q, v, t)
    ensures s'.h == SetRole(s.h, t, RoleThen(call, v))
    ensures forall u :: u in s.phase && u != t ==>
      s'.phase[u] == if v.Returns? && v.wakes == AllShared && u in s.q.shared && s.phase[u].Parked?
                     then Woken(s.phase[u].call, false) else s.phase[u]
  {
  }

  lemma AppendMembers(q: seq<Tid>, t: Tid)
    ensures forall u :: u in q + [t] <==> u in q || u == t
    ensures NoDup(q) && t !in q ==> NoDup(q + [t])
  {
  }

  lemma EnqueuedMembers(q: Queues, v: Verdict, t: Tid)
    ensures forall u :: u in Enqueued(q, v, t).shared <==>
      (u in q.shared && !(v.Returns? && v.wakes == AllShared)) || (v == Waits(SharedCond) && u == t)
    ensures forall u :: u in Enqueued(q, v, t).exclusive <==> u in q.exclusive || (v == Waits(ExclusiveCond) && u == t)
    ensures forall u :: u in Enqueued(q, v, t).upgrade <==> u in q.upgrade || (v == Waits(UpgradeCond) && u == t)
  {
    AppendMembers(q.shared, t);
    AppendMembers(q.exclusive, t);
    AppendMembers(q.upgrade, t);
  }

  lemma RunQueues(s: Sys, s': Sys, t: Tid, call: Call, e: Entrance)
    requires QueuesOk(s) && Starts(s, t, call, e) && s' == Run(s, t, call, e)
    ensures QueuesOk(s')
  {
    var (d', v) := Section(call, e, s.d);
    RunParts(s, s', t, call, e, d', v);
    EnqueuedMembers(s.q, v, t);
    AppendMembers(s.q.shared, t);
    AppendMembers(s.q.exclusive, t);
    AppendMembers(s.q.upgrade, t);
  }

  lemma RunSelf(s: Sys, s': Sys, t: Tid, call: Call, e: Entrance, d': StateData, v: Verdict)
    requires Disjoint(s.h) && Starts(s, t, call, e) && s' == Run(s, t, call, e)
    requires (d', v) == Section(call, e, s.d)
    requires v.Returns? && v.wakes == UpgradeThenRelease ==> s.q.upgrade != []
    ensures t in s'.phase && ThreadOk(s', t)
  {
    hide Section, MayRun, Run, Starts, SetRole, RoleOf, Disjoint, Enqueued, Demand, Facts;
    StartsFacts(s, t, call, e);
    RunParts(s, s', t, call, e, d', v);
    EnqueuedMembers(s.q, v, t);
    SetRoleCounts(s.h, t, RoleThen(call, v));
    EndsFacts(s.d, call, e, d', v);
    EnqueuedUpgrade(s.q, v, t);
  }

  lemma StartsFacts(s: Sys, t: Tid, call: Call, e: Entrance)
    requires Starts(s, t, call, e)
    ensures !Queued(s.q, t) && Considered(call, s.d) && MayRun(call, e, s.d) && t in s.phase
    ensures RoleOf(s.h, t) == RoleFound(call, e) && !s.phase[t].Parked? && !s.phase[t].Releasing?
  {
  }

  lemma EnqueuedUpgrade(q: Queues, v: Verdict, t: Tid)
    ensures q.upgrade != [] ==> Enqueued(q, v, t).upgrade != []
  {
  }

  lemma EndsFacts(d: StateData, call: Call, e: Entrance, d': StateData, v: Verdict)
    requires MayRun(call, e, d) && (d', v) == Section(call, e, d)
    ensures v.Waits? ==> MayWait(call) && v.c == CondFor(call)
    ensures v.Returns? ==> !RoleThen(call, v).Converter?
    ensures v.Returns? && v.wakes == UpgradeThenRelease ==> d'.exclusive
  {
    hide Section;
    SectionFacts(d, call, e);
  }

  /** The last reader grants a converter only if one is parked. */
  lemma GrantFindsConverter(s: Sys, t: Tid, call: Call, e: Entrance)
    requires Inv(s) && Starts(s, t, call, e)
    ensures var v := Section(call, e, s.d).1; v.Returns? && v.wakes == UpgradeThenRelease ==> s.q.upgrade != []
  {
    hide Section;
    SectionFacts(s.d, call, e);
    var v := Section(call, e, s.d).1;
    if v.Returns? && v.wakes == UpgradeThenRelease {
      RoleCounted(s.h, t);
      assert |s.h.converters| > 0;
      var c :| c in s.h.converters;
      assert ThreadOk(s, c) && RoleOf(s.h, c).Converter?;
    }
  }

  /** Somebody who is not running the section keeps its place, or is woken by notify_all. */
  lemma BystanderOk(s: Sys, s': Sys, u: Tid, cleared: bool)
    requires u in s.phase && ThreadOk(s, u) && u in s'.phase && RoleOf(s'.h, u) == RoleOf(s.h, u)
    requires s'.phase[u] ==
      if cleared && u in s.q.shared && s.phase[u].Parked? then Woken(s.phase[u].call, false) else s.phase[u]
    requires u in s'.q.shared <==> u in s.q.shared && !cleared
    requires (u in s'.q.exclusive <==> u in s.q.exclusive) && (u in s'.q.upgrade <==> u in s.q.upgrade)
    requires RoleOf(s.h, u).Converter? || Granting(s, u) ==> (s.d.exclusive ==> s'.d.exclusive)
    requires s.q.upgrade != [] ==> s'.q.upgrade != []
    ensures ThreadOk(s', u)
  {
    hide RoleOf;
  }

  lemma RunOther(s: Sys, s': Sys, t: Tid, call: Call, e: Entrance, d': StateData, v: Verdict, u: Tid)
    requires FlagsOk(s.d, CountsOf(s.h)) && ThreadsOk(s) && Starts(s, t, call, e) && s' == Run(s, t, call, e)
    requires (d', v) == Section(call, e, s.d) && u in s.phase && u != t
    requires s.q.upgrade != [] ==> exists c :: c in s.q.upgrade && c in s.phase
    ensures u in s'.phase && ThreadOk(s', u)
  {
    hide Section, MayRun, SetRole, RoleOf, Enqueued, Demand, FlagsOk, CountsOf, ThreadOk;
    RunParts(s, s', t, call, e, d', v);
    EnqueuedMembers(s.q, v, t);
    EnqueuedUpgrade(s.q, v, t);
    SetRoleOthers(s.h, t, RoleThen(call, v), u);
    assert ThreadOk(s, u);
    if RoleOf(s.h, u).Converter? { ExclusiveStays(s, t, call, e, u); }
    if Granting(s, u) { GrantKeepsExclusive(s, t, call, e, u); }
    BystanderOk(s, s', u, v.Returns? && v.wakes == AllShared);
  }

  lemma GrantKeepsExclusive(s: Sys, t: Tid, call: Call, e: Entrance, u: Tid)
    requires FlagsOk(s.d, CountsOf(s.h)) && ThreadsOk(s) && Starts(s, t, call, e) && Granting(s, u)
    requires s.q.upgrade != [] ==> exists c :: c in s.q.upgrade && c in s.phase
    ensures s.d.exclusive ==> Run(s, t, call, e).d.exclusive
  {
    hide Run, FlagsOk, CountsOf;
    assert ThreadOk(s, u);
    var c :| c in s.q.upgrade && c in s.phase;
    assert ThreadOk(s, c) && c != t;
    ExclusiveStays(s, t, call, e, c);
  }

  lemma FrontQueued(s: Sys)
    requires QueuesOk(s)
    ensures s.q.upgrade != [] ==> exists c :: c in s.q.upgrade && c in s.phase
  {
    if s.q.upgrade != [] { assert Queued(s.q, s.q.upgrade[0]); }
  }

  lemma RunThreads(s: Sys, s': Sys, t: Tid, call: Call, e: Entrance)
    requires Inv(s) && Starts(s, t, call, e) && s' == Run(s, t, call, e)
    ensures ThreadsOk(s')
  {
    hide Section, ThreadOk;
    var (d', v) := Section(call, e, s.d);
    RunParts(s, s', t, call, e, d', v);
    GrantFindsConverter(s, t, call, e);
    RunSelf(s, s', t, call, e, d', v);
    FrontQueued(s);
    forall u | u in s'.phase ensures ThreadOk(s', u) { if u != t { RunOther(s, s', t, call, e, d', v, u); } }
  }

  /** Exclusive ownership that begins while a converter waits is the converter's. */
  lemma OnlyAGrant(s: Sys, t: Tid, call: Call, e: Entrance, c: Tid)
    requires FlagsOk(s.d, CountsOf(s.h)) && Starts(s, t, call, e) && RoleOf(s.h, c).Converter? && c != t
    ensures var (d', v) := Section(call, e, s.d);
      !s.d.exclusive && d'.exclusive ==> v.Returns? && v.wakes == UpgradeThenRelease
  {
    hide Section;
    SectionFacts(s.d, call, e);
    RoleCounted(s.h, c);
    ConverterExcludesWriter(s.h, s.d, c, t);
    if e.Again? && call.UnlockUpgradeAndLock? { OneConverter(s.h, s.d, c, t); }
  }

  lemma QueuedConverter(s: Sys)
    requires QueuesOk(s) && ThreadsOk(s) && s.q.upgrade != []
    ensures s.q.upgrade[0] in s.phase && RoleOf(s.h, s.q.upgrade[0]).Converter?
  {
    assert Queued(s.q, s.q.upgrade[0]);
    assert ThreadOk(s, s.q.upgrade[0]);
  }

  lemma RunGrant(s: Sys, s': Sys, t: Tid, call: Call, e: Entrance, d': StateData, v: Verdict)
    requires Inv(s) && Starts(s, t, call, e) && s' == Run(s, t, call, e) && (d', v) == Section(call, e, s.d)
    ensures s'.d.exclusive && s'.q.upgrade != [] ==> exists u :: Granting(s', u)
  {
    hide Section, MayRun, Run, ThreadOk, Disjoint;
    RunParts(s, s', t, call, e, d', v);
    SectionFacts(s.d, call, e);
    if s'.d.exclusive && s.q.upgrade != [] {
      QueuedConverter(s);
      var c := s.q.upgrade[0];
      if s.d.exclusive {
        var u :| Granting(s, u);
        assert Granting(s', u);
      } else {
        OnlyAGrant(s, t, call, e, c);
        assert Granting(s', t);
      }
    }
  }

  lemma RunOneGrant(s: Sys, s': Sys, t: Tid, call: Call, e: Entrance, d': StateData, v: Verdict)
    requires Inv(s) && Starts(s, t, call, e) && s' == Run(s, t, call, e) && (d', v) == Section(call, e, s.d)
    ensures forall u, w :: Granting(s', u) && Granting(s', w) ==> u == w
  {
    hide Section, MayRun, Run, Disjoint, FlagsOk;
    RunParts(s, s', t, call, e, d', v);
    SectionFacts(s.d, call, e);
    forall u | Granting(s', u) ensures if s.d.exclusive then Granting(s, u) else u == t {
      if u != t { assert Granting(s, u) && ThreadOk(s, u); }
    }
  }

  lemma RunWriters(s: Sys, s': Sys, t: Tid, call: Call, e: Entrance, d': StateData, v: Verdict)
    requires Inv(s) && Starts(s, t, call, e) && s' == Run(s, t, call, e) && (d', v) == Section(call, e, s.d)
    ensures WritersServed(s')
  {
    hide Section, MayRun, Run, Disjoint, ThreadOk, QueuesOk, GrantOk, ReadersServed;
    RunParts(s, s', t, call, e, d', v);
    SectionFacts(s.d, call, e);
    if v.Waits? && v.c.ExclusiveCond? { WaiterHolds(s, t, call, e, d', v); }
    if CanLock(d') && s'.q.exclusive != [] {
      if Held(s.d) {
        assert WriterComing(s', t);
      } else {
        var u :| WriterComing(s, u);
        if u == t { WriterTakes(s.d, call, e, d'); }
        assert WriterComing(s', u);
      }
    }
  }

  /** Whoever waits on exclusive_cond leaves the lock held: by somebody, or by itself as a reader. */
  lemma WaiterHolds(s: Sys, t: Tid, call: Call, e: Entrance, d': StateData, v: Verdict)
    requires Inv(s) && Starts(s, t, call, e) && (d', v) == Section(call, e, s.d) && v.Waits? && v.c.ExclusiveCond?
    ensures Held(d')
  {
    hide Section;
    SectionFacts(s.d, call, e);
    RoleCounted(s.h, t);
    if call.TryUnlockSharedAndLockUpgradeUntil? { UpgradeWaitKeeps(s.d, call, e, d'); }
  }

  lemma UpgradeWaitKeeps(d: StateData, call: Call, e: Entrance, d': StateData)
    requires call.TryUnlockSharedAndLockUpgradeUntil? && MayRun(call, e, d) && d' == Section(call, e, d).0
    ensures d'.sharedCount == d.sharedCount
  {
  }

  /** A notified writer that finds the lock free takes it. */
  lemma WriterTakes(d: StateData, call: Call, e: Entrance, d': StateData)
    requires MayRun(call, e, d) && d' == Section(call, e, d).0 && CanLock(d) && (call.Lock? || call.TryLockUntil?)
    ensures d'.exclusive
  {
  }

  lemma RunReaders(s: Sys, s': Sys, t: Tid, call: Call, e: Entrance, d': StateData, v: Verdict)
    requires Inv(s) && Starts(s, t, call, e) && s' == Run(s, t, call, e) && (d', v) == Section(call, e, s.d)
    ensures ReadersServed(s')
  {
    hide Section, MayRun, Run, Disjoint, QueuesOk, GrantOk, WritersServed, FlagsOk, ThreadOk, CanPass;
    RunParts(s, s', t, call, e, d', v);
    SectionFacts(s.d, call, e);
    if exists u :: ParkedAndPassable(s', u) {
      var u :| ParkedAndPassable(s', u);
      assert u != t;
      if ParkedAndPassable(s, u) {
        var w :| InRelease(s, w);
        assert InRelease(s', w);
      } else {
        assert s'.phase[u] == s.phase[u];
        assert ThreadOk(s, u);
        PassableQueued(s, u, d');
        NewlyPassable(s.d, call, d', v, s.phase[u].call);
        assert InRelease(s', t);
      }
    }
  }

  lemma PassableQueued(s: Sys, u: Tid, d': StateData)
    requires u in s.phase && ThreadOk(s, u) && s.phase[u].Parked? && CanPass(d', s.phase[u].call)
    ensures u in s.q.shared
  {
  }

  /** What a parked reader or upgrader waits for comes true only with a notification. */
  lemma NewlyPassable(d: StateData, call: Call, d': StateData, v: Verdict, waiting: Call)
    requires Facts(d, call, d', v) && CanPass(d', waiting) && !CanPass(d, waiting)
    ensures v.Returns? && (v.wakes == Release || v.wakes == AllShared)
  {
  }

  lemma RunInv(s: Sys, t: Tid, call: Call, e: Entrance)
    requires Inv(s) && Starts(s, t, call, e)
    ensures Inv(Run(s, t, call, e))
  {
    var s' := Run(s, t, call, e);
    var (d', v) := Section(call, e, s.d);
    RunFlags(s, s', t, call, e);
    RunQueues(s, s', t, call, e);
    RunThreads(s, s', t, call, e);
    RunGrant(s, s', t, call, e, d', v);
    RunOneGrant(s, s', t, call, e, d', v);
    RunWriters(s, s', t, call, e, d', v);
    RunReaders(s, s', t, call, e, d', v);
  }

  // ----- A notification keeps the invariant -----

  lemma WokenPhase(phase: map<Tid, Phase>, woken: seq<Tid>, u: Tid)
    requires u in phase
    ensures u in Wake(phase, woken)
    ensures Wake(phase, woken)[u] == if u in woken && phase[u].Parked? then Woken(phase[u].call, false) else phase[u]
  {
  }

  lemma TailMembers(q: seq<Tid>)
    requires NoDup(q)
    ensures NoDup(Tail(q)) && forall u :: u in Tail(q) <==> u in q && u !in FrontOf(q)
  {
    if q != [] { assert q == [q[0]] + q[1..]; }
  }

  /** Whom a stage takes out of its queue. */
  function Taken(s: Sys, stage: Stage): seq<Tid> {
    match stage
    case NotifyingUpgrade => FrontOf(s.q.upgrade)
    case NotifyingExclusive => FrontOf(s.q.exclusive)
    case NotifyingShared => s.q.shared
  }

  function NextPhase(stage: Stage): Phase {
    match stage
    case NotifyingUpgrade => Releasing(NotifyingExclusive)
    case NotifyingExclusive => Releasing(NotifyingShared)
    case NotifyingShared => Outside
  }

  lemma NotifyParts(s: Sys, s': Sys, t: Tid, stage: Stage)
    requires QueuesOk(s) && t in s.phase && s.phase[t] == Releasing(stage) && s' == Notify(s, t, stage)
    ensures s'.d == s.d && s'.h == s.h && s'.phase.Keys == s.phase.Keys && s'.phase[t] == NextPhase(stage)
    ensures forall u :: u in s.phase && u != t ==>
      s'.phase[u] == if u in Taken(s, stage) && s.phase[u].Parked? then Woken(s.phase[u].call, false) else s.phase[u]
    ensures s'.q.shared == if stage.NotifyingShared? then [] else s.q.shared
    ensures s'.q.exclusive == if stage.NotifyingExclusive? then Tail(s.q.exclusive) else s.q.exclusive
    ensures s'.q.upgrade == if stage.NotifyingUpgrade? then Tail(s.q.upgrade) else s.q.upgrade
    ensures NoDup(s'.q.shared) && NoDup(s'.q.exclusive) && NoDup(s'.q.upgrade)
  {
    TailMembers(s.q.upgrade);
    TailMembers(s.q.exclusive);
    forall u | u in s.phase ensures u in s'.phase { WokenPhase(s.phase, Taken(s, stage), u); }
  }

  lemma NotifyOther(s: Sys, s': Sys, t: Tid, stage: Stage, u: Tid)
    requires QueuesOk(s) && t in s.phase && s.phase[t] == Releasing(stage) && s' == Notify(s, t, stage)
    requires u in s.phase && u != t && ThreadOk(s, u) && ThreadOk(s, t)
    requires stage.NotifyingUpgrade? ==> !Granting(s, u)
    ensures u in s'.phase && ThreadOk(s', u)
  {
    hide Notify, RoleOf, Tail, FrontOf;
    NotifyParts(s, s', t, stage);
    TailMembers(s.q.upgrade);
    TailMembers(s.q.exclusive);
    FrontMember(s.q.upgrade);
    FrontMember(s.q.exclusive);
  }

  lemma FrontMember(q: seq<Tid>)
    ensures forall u :: u in FrontOf(q) ==> u in q
  {
  }

  lemma NotifySelf(s: Sys, s': Sys, t: Tid, stage: Stage)
    requires QueuesOk(s) && t in s.phase && s.phase[t] == Releasing(stage) && s' == Notify(s, t, stage) && ThreadOk(s, t)
    ensures t in s'.phase && ThreadOk(s', t)
  {
    hide Notify, QueuesOk;
    NotifyParts(s, s', t, stage);
    TailIn(s.q.upgrade);
    TailIn(s.q.exclusive);
  }

  lemma TailIn(q: seq<Tid>)
    ensures forall u :: u in Tail(q) ==> u in q
  {
  }

  lemma NotifyThreads(s: Sys, s': Sys, t: Tid, stage: Stage)
    requires Inv(s) && t in s.phase && s.phase[t] == Releasing(stage) && s' == Notify(s, t, stage)
    ensures ThreadsOk(s')
  {
    hide Notify, ThreadOk, FlagsOk, Disjoint, QueuesOk;
    NotifyParts(s, s', t, stage);
    NotifySelf(s, s', t, stage);
    forall u | u in s'.phase ensures ThreadOk(s', u) {
      if u != t {
        assert stage.NotifyingUpgrade? ==> Granting(s, t);
        NotifyOther(s, s', t, stage, u);
      }
    }
  }

  lemma NotifyQueues(s: Sys, s': Sys, t: Tid, stage: Stage)
    requires QueuesOk(s) && t in s.phase && s.phase[t] == Releasing(stage) && s' == Notify(s, t, stage)
    ensures QueuesOk(s')
  {
    hide Notify;
    NotifyParts(s, s', t, stage);
    TailIn(s.q.upgrade);
    TailIn(s.q.exclusive);
    forall u | Queued(s'.q, u) ensures u in s'.phase { assert Queued(s.q, u); }
  }

  /** There is at most one converter, so the notification it was granted empties the queue. */
  lemma OneInUpgradeQueue(s: Sys)
    requires Inv(s)
    ensures |s.q.upgrade| <= 1
  {
    hide ThreadOk, RoleOf;
    if |s.q.upgrade| > 1 {
      var x, y := s.q.upgrade[0], s.q.upgrade[1];
      assert Queued(s.q, x) && Queued(s.q, y);
      UpgradeWaiter(s, x);
      UpgradeWaiter(s, y);
      OneConverter(s.h, s.d, x, y);
    }
  }

  lemma UpgradeWaiter(s: Sys, x: Tid)
    requires ThreadsOk(s) && x in s.phase && x in s.q.upgrade
    ensures RoleOf(s.h, x).Converter?
  {
    assert ThreadOk(s, x);
  }

  lemma NotifyGrant(s: Sys, s': Sys, t: Tid, stage: Stage)
    requires Inv(s) && t in s.phase && s.phase[t] == Releasing(stage) && s' == Notify(s, t, stage)
    ensures GrantOk(s')
  {
    hide Notify, ThreadOk, FlagsOk, Disjoint;
    NotifyParts(s, s', t, stage);
    OneInUpgradeQueue(s);
    forall u | Granting(s', u) ensures Granting(s, u) {}
    if s'.d.exclusive && s'.q.upgrade != [] && !stage.NotifyingUpgrade? {
      var u :| Granting(s, u);
      assert Granting(s', u);
    }
  }

  /** The front of exclusive_cond, when the lock is free, is a writer. */
  lemma FrontWriter(s: Sys)
    requires Inv(s) && CanLock(s.d) && s.q.exclusive != []
    ensures s.q.exclusive[0] in s.phase && s.phase[s.q.exclusive[0]].Parked?
    ensures s.phase[s.q.exclusive[0]].call.Lock? || s.phase[s.q.exclusive[0]].call.TryLockUntil?
  {
    var f := s.q.exclusive[0];
    assert Queued(s.q, f) && ThreadOk(s, f);
    RoleCounted(s.h, f);
  }

  lemma NotifyWriters(s: Sys, s': Sys, t: Tid, stage: Stage)
    requires Inv(s) && t in s.phase && s.phase[t] == Releasing(stage) && s' == Notify(s, t, stage)
    ensures WritersServed(s')
  {
    hide Notify, ThreadOk, FlagsOk, Disjoint;
    NotifyParts(s, s', t, stage);
    if CanLock(s'.d) && s'.q.exclusive != [] {
      if stage.NotifyingUpgrade? {
        assert WriterComing(s', t);
      } else if stage.NotifyingExclusive? {
        FrontWriter(s);
        assert s.q.exclusive[0] in Taken(s, stage);
        assert WriterComing(s', s.q.exclusive[0]);
      } else {
        var u :| WriterComing(s, u);
        assert WriterComing(s', u);
      }
    }
  }

  lemma NotifyReaders(s: Sys, s': Sys, t: Tid, stage: Stage)
    requires Inv(s) && t in s.phase && s.phase[t] == Releasing(stage) && s' == Notify(s, t, stage)
    ensures ReadersServed(s')
  {
    hide Notify, FlagsOk, Disjoint, QueuesOk;
    NotifyParts(s, s', t, stage);
    if stage.NotifyingShared? {
      forall u | ParkedAndPassable(s', u) ensures false {
        assert s.phase[u] == s'.phase[u] && ThreadOk(s, u);
      }
    } else {
      assert InRelease(s', t);
    }
  }

  lemma NotifyInv(s: Sys, t: Tid, stage: Stage)
    requires Inv(s) && t in s.phase && s.phase[t] == Releasing(stage)
    ensures Inv(Notify(s, t, stage))
  {
    var s' := Notify(s, t, stage);
    NotifyParts(s, s', t, stage);
    NotifyThreads(s, s', t, stage);
    NotifyQueues(s, s', t, stage);
    NotifyGrant(s, s', t, stage);
    NotifyWriters(s, s', t, stage);
    NotifyReaders(s, s', t, stage);
  }

  // ----- A timeout keeps the invariant -----

  lemma {:induction false} WithoutMembers(q: seq<Tid>, t: Tid)
    ensures forall u :: u in Without(q, t) <==> u in q && u != t
    ensures t !in q ==> Without(q, t) == q
    ensures NoDup(q) ==> NoDup(Without(q, t))
  {
    if q != [] {
      WithoutMembers(q[1..], t);
      assert q == [q[0]] + q[1..];
      ConsNoDup(q[0], q[1..]);
      ConsNoDup(q[0], Without(q[1..], t));
    }
  }

  lemma ConsNoDup(x: Tid, q: seq<Tid>)
    ensures NoDup([x] + q) <==> NoDup(q) && x !in q
  {
    var p := [x] + q;
    assert forall i :: 0 <= i < |q| ==> p[i + 1] == q[i];
    if NoDup(p) {
      forall i, j | 0 <= i < j < |q| ensures q[i] != q[j] { assert p[i + 1] != p[j + 1]; }
      forall i | 0 <= i < |q| ensures q[i] != x { assert p[0] != p[i + 1]; }
    }
  }

  lemma TimeUpParts(s: Sys, s': Sys, t: Tid, call: Call)
    requires QueuesOk(s) && t in s.phase && s' == TimeUp(s, t, call)
    ensures s'.d == s.d && s'.h == s.h && s'.phase == s.phase[t := Woken(call, true)] && QueuesOk(s')
    ensures forall u :: u in s'.q.shared <==> u in s.q.shared && u != t
    ensures forall u :: u in s'.q.exclusive <==> u in s.q.exclusive && u != t
    ensures forall u :: u in s'.q.upgrade <==> u in s.q.upgrade && u != t
    ensures t !in s.q.upgrade ==> s'.q.upgrade == s.q.upgrade
  {
    WithoutMembers(s.q.shared, t);
    WithoutMembers(s.q.exclusive, t);
    WithoutMembers(s.q.upgrade, t);
    forall u | Queued(s'.q, u) ensures u in s'.phase { assert Queued(s.q, u); }
  }

  predicate CanTimeOut(s: Sys, t: Tid, call: Call) {
    t in s.phase && (s.phase[t].Parked? || s.phase[t].Woken?) && s.phase[t].call == call && Timed(call)
  }

  lemma TimeUpThreads(s: Sys, s': Sys, t: Tid, call: Call)
    requires ThreadsOk(s) && QueuesOk(s) && CanTimeOut(s, t, call) && s' == TimeUp(s, t, call)
    ensures ThreadsOk(s') && t !in s.q.upgrade
  {
    hide TimeUp, RoleOf;
    TimeUpParts(s, s', t, call);
    assert ThreadOk(s, t);
    forall u | u in s'.phase ensures ThreadOk(s', u) { assert ThreadOk(s, u); }
  }

  lemma TimeUpServed(s: Sys, s': Sys, t: Tid, call: Call)
    requires Inv(s) && CanTimeOut(s, t, call) && s' == TimeUp(s, t, call) && t !in s.q.upgrade
    ensures GrantOk(s') && WritersServed(s') && ReadersServed(s')
  {
    hide TimeUp, ThreadOk, FlagsOk, Disjoint;
    TimeUpParts(s, s', t, call);
    forall u ensures Granting(s', u) <==> Granting(s, u) {}
    forall u | InRelease(s, u) ensures InRelease(s', u) {}
    forall u | WriterComing(s, u) ensures WriterComing(s', u) {}
    forall u | ParkedAndPassable(s', u) ensures ParkedAndPassable(s, u) {}
    if s'.q.exclusive != [] { assert s'.q.exclusive[0] in s.q.exclusive; }
  }

  lemma TimeUpInv(s: Sys, t: Tid, call: Call)
    requires Inv(s) && CanTimeOut(s, t, call)
    ensures Inv(TimeUp(s, t, call))
  {
    TimeUpParts(s, TimeUp(s, t, call), t, call);
    TimeUpThreads(s, TimeUp(s, t, call), t, call);
    TimeUpServed(s, TimeUp(s, t, call), t, call);
  }

  // ----- Runs -----

  lemma StepInv(s: Sys, l: Label)
    requires Inv(s) && Enabled(s, l)
    ensures Inv(Next(s, l))
  {
    match l {
      case Begin(t, call) => StartsFromLabel(s, l); RunInv(s, t, call, First);
      case Resume(t) => StartsFromLabel(s, l); RunInv(s, t, s.phase[t].call, Again(s.phase[t].timedOut));
      case TimeOut(t) => TimeUpInv(s, t, s.phase[t].call);
      case Notification(t) => NotifyInv(s, t, s.phase[t].stage);
    }
  }

  function Exec(s: Sys, ls: seq<Label>): Option<Sys>
    decreases |ls|
  {
    if ls == [] then Some(s) else if Enabled(s, ls[0]) then Exec(Next(s, ls[0]), ls[1..]) else None
  }

  lemma {:induction false} ExecInv(s: Sys, ls: seq<Label>)
    requires Inv(s) && Exec(s, ls).Some?
    ensures Inv(Exec(s, ls).value)
    decreases |ls|
  {
    if ls != [] {
      StepInv(s, ls[0]);
      ExecInv(Next(s, ls[0]), ls[1..]);
    }
  }

  ghost predicate Reachable(s: Sys) {
    exists s0: Sys, ls: seq<Label> :: Initial(s0) && Exec(s0, ls) == Some(s)
  }

  lemma InitialReachable(s: Sys)
    requires Initial(s)
    ensures Reachable(s)
  {
    assert Exec(s, []) == Some(s);
  }

  lemma {:induction false} ExecOneMore(s: Sys, ls: seq<Label>, l: Label)
    requires Exec(s, ls).Some? && Enabled(Exec(s, ls).value, l)
    ensures Exec(s, ls + [l]) == Some(Next(Exec(s, ls).value, l))
    decreases |ls|
  {
    hide Enabled, Next;
    if ls == [] {
      assert [] + [l] == [l] && [l][1..] == [];
      assert Exec(Next(s, l), []) == Some(Next(s, l));
    } else {
      assert (ls + [l])[1..] == ls[1..] + [l];
      ExecOneMore(Next(s, ls[0]), ls[1..], l);
    }
  }

  lemma ReachableNext(s: Sys, l: Label)
    requires Reachable(s) && Enabled(s, l)
    ensures Reachable(Next(s, l))
  {
    hide Initial, Enabled, Next;
    var s0: Sys, ls: seq<Label> :| Initial(s0) && Exec(s0, ls) == Some(s);
    ExecOneMore(s0, ls, l);
  }

  lemma ReachableInv(s: Sys)
    requires Reachable(s)
    ensures Inv(s)
  {
    hide Inv, Initial, Enabled, Next;
    var s0: Sys, ls: seq<Label> :| Initial(s0) && Exec(s0, ls) == Some(s);
    InitialInv(s0);
    ExecInv(s0, ls);
  }
}
