/** When a waiting writer of shared_timed_mutex keeps new readers out, when it does not, and that nobody but a
    waiting writer does. */
module SharedMutexWriters {
  import opened Basics
  import opened SharedMutexModel
  import opened SharedMutexRuns
  import opened SharedMutexTheorems

  predicate IsWriting(call: Call) { call.Lock? || call.TryLockUntil? }

  predicate ParkedWriter(s: Sys, w: Tid) {
    w in s.phase && s.phase[w].Parked? && IsWriting(s.phase[w].call)
  }

  /** While a writer is parked the lock is closed to newcomers, or a writer is about to look at it. */
  ghost predicate WritersGuarded(s: Sys) {
    (exists w :: ParkedWriter(s, w)) ==> s.d.blocked || s.d.exclusive || exists u :: WriterComing(s, u)
  }

  /** notify_one() of exclusive_cond wakes a conversion to upgrade ownership, which waits in the same
      queue, while a writer stays parked that nothing else guards. */
  ghost predicate Missed(s: Sys, l: Label) {
    && l.Notification? && l.t in s.phase && s.phase[l.t] == Releasing(NotifyingExclusive)
    && s.q.exclusive != [] && s.q.exclusive[0] in s.phase
    && s.phase[s.q.exclusive[0]] == Parked(TryUnlockSharedAndLockUpgradeUntil)
    && !s.d.blocked && !s.d.exclusive && (exists w :: ParkedWriter(s, w))
    && forall u :: u != l.t ==> !WriterComing(s, u)
  }

  // ----- Sections -----

  /** What opens the lock also notifies, and a writer that runs leaves the lock guarded. */
  predicate GuardFacts(d: StateData, call: Call, e: Entrance, d': StateData, v: Verdict) {
    && (d.blocked && !d'.blocked ==> d'.exclusive || (v.Returns? && v.wakes == Release))
    && (d.exclusive && !d'.exclusive ==> v.Returns? && v.wakes == Release)
    && (IsWriting(call) ==> d'.blocked || d'.exclusive || (v.Returns? && v.wakes == Release))
  }

  lemma GuardShared(d: StateData, call: Call, e: Entrance)
    requires MayRun(call, e, d) && IsShared(call)
    ensures GuardFacts(d, call, e, SharedSection(call, e, d).0, SharedSection(call, e, d).1)
  {
  }

  lemma GuardExclusive(d: StateData, call: Call, e: Entrance)
    requires MayRun(call, e, d) && IsExclusive(call)
    ensures GuardFacts(d, call, e, ExclusiveSection(call, e, d).0, ExclusiveSection(call, e, d).1)
  {
  }

  lemma GuardUpgrade(d: StateData, call: Call, e: Entrance)
    requires MayRun(call, e, d) && IsUpgrade(call)
    ensures GuardFacts(d, call, e, UpgradeSection(call, e, d).0, UpgradeSection(call, e, d).1)
  {
  }

  lemma GuardUpgradeExclusive(d: StateData, call: Call, e: Entrance)
    requires MayRun(call, e, d) && IsUpgradeExclusive(call)
    ensures GuardFacts(d, call, e, UpgradeExclusiveSection(call, e, d).0, UpgradeExclusiveSection(call, e, d).1)
  {
  }

  lemma GuardConversion(d: StateData, call: Call, e: Entrance)
    requires MayRun(call, e, d) && IsConversion(call)
    ensures GuardFacts(d, call, e, SharedConversionSection(call, e, d).0, SharedConversionSection(call, e, d).1)
  {
  }

  lemma SectionGuards(d: StateData, call: Call, e: Entrance)
    requires MayRun(call, e, d)
    ensures GuardFacts(d, call, e, Section(call, e, d).0, Section(call, e, d).1)
  {
    hide GuardFacts, SharedSection, ExclusiveSection, UpgradeSection, UpgradeExclusiveSection, SharedConversionSection;
    if IsShared(call) { GuardShared(d, call, e); }
    else if IsExclusive(call) { GuardExclusive(d, call, e); }
    else if IsUpgrade(call) { GuardUpgrade(d, call, e); }
    else if IsUpgradeExclusive(call) { GuardUpgradeExclusive(d, call, e); }
    else { GuardConversion(d, call, e); }
  }

  lemma RunGuarded(s: Sys, s': Sys, t: Tid, call: Call, e: Entrance)
    requires WritersGuarded(s) && Starts(s, t, call, e) && s' == Run(s, t, call, e)
    ensures WritersGuarded(s')
  {
    hide Section, MayRun, Run, SetRole, RoleOf;
    var (d', v) := Section(call, e, s.d);
    RunParts(s, s', t, call, e, d', v);
    SectionGuards(s.d, call, e);
    if v.Returns? && v.wakes == Release {
      assert WriterComing(s', t);
    } else if !s'.d.blocked && !s'.d.exclusive {
      forall w | ParkedWriter(s', w) ensures ParkedWriter(s, w) {}
      forall u | WriterComing(s, u) ensures WriterComing(s', u) { assert u != t; }
    }
  }

  // ----- Timeouts and notifications -----

  lemma TimeUpGuarded(s: Sys, t: Tid, call: Call)
    requires WritersGuarded(s) && CanTimeOut(s, t, call)
    ensures WritersGuarded(TimeUp(s, t, call))
  {
    var s' := TimeUp(s, t, call);
    forall w | ParkedWriter(s', w) ensures ParkedWriter(s, w) {}
    forall u | WriterComing(s, u) ensures WriterComing(s', u) {}
  }

  lemma NotifyGuarded(s: Sys, s': Sys, t: Tid, stage: Stage)
    requires Inv(s) && WritersGuarded(s) && t in s.phase && s.phase[t] == Releasing(stage) && s' == Notify(s, t, stage)
    ensures WritersGuarded(s') <==> !Missed(s, Notification(t))
  {
    hide Notify, FlagsOk, Disjoint, ThreadOk, GrantOk, WritersServed, ReadersServed;
    NotifyParts(s, s', t, stage);
    forall w | ParkedWriter(s', w) ensures ParkedWriter(s, w) {}
    if stage.NotifyingUpgrade? {
      assert WriterComing(s', t);
    } else if stage.NotifyingShared? || s.q.exclusive == [] {
      NothingTaken(s, s', t, stage);
    } else {
      NotifyFront(s, s', t);
    }
  }

  /** Everybody on exclusive_cond is parked there. */
  lemma OnExclusiveCond(s: Sys, w: Tid)
    requires Inv(s) && w in s.q.exclusive
    ensures w in s.phase && s.phase[w].Parked?
    ensures IsWriting(s.phase[w].call) || s.phase[w].call.TryUnlockSharedAndLockUpgradeUntil?
  {
    assert Queued(s.q, w) && ThreadOk(s, w);
  }

  lemma WritersQueued(s: Sys, w: Tid)
    requires Inv(s) && ParkedWriter(s, w)
    ensures w in s.q.exclusive
  {
    assert ThreadOk(s, w);
  }

  lemma NothingTaken(s: Sys, s': Sys, t: Tid, stage: Stage)
    requires Inv(s) && WritersGuarded(s) && t in s.phase && s.phase[t] == Releasing(stage) && s' == Notify(s, t, stage)
    requires stage.NotifyingShared? || (stage.NotifyingExclusive? && s.q.exclusive == [])
    ensures WritersGuarded(s')
  {
    hide Notify, FlagsOk, Disjoint, ThreadOk, GrantOk, WritersServed, ReadersServed;
    NotifyParts(s, s', t, stage);
    forall w | ParkedWriter(s', w) ensures ParkedWriter(s, w) {}
    if stage.NotifyingShared? {
      forall u | WriterComing(s, u) ensures WriterComing(s', u) {}
    } else {
      forall w | ParkedWriter(s, w) ensures false { WritersQueued(s, w); }
    }
  }

  lemma NotifyFront(s: Sys, s': Sys, t: Tid)
    requires Inv(s) && WritersGuarded(s) && t in s.phase && s.phase[t] == Releasing(NotifyingExclusive)
    requires s' == Notify(s, t, NotifyingExclusive) && s.q.exclusive != []
    ensures WritersGuarded(s') <==> !Missed(s, Notification(t))
  {
    hide Notify, FlagsOk, Disjoint, ThreadOk, GrantOk, WritersServed, ReadersServed;
    NotifyParts(s, s', t, NotifyingExclusive);
    var f := s.q.exclusive[0];
    OnExclusiveCond(s, f);
    assert Taken(s, NotifyingExclusive) == [f] && f != t;
    if IsWriting(s.phase[f].call) {
      assert WriterComing(s', f);
    } else {
      forall w ensures ParkedWriter(s', w) <==> ParkedWriter(s, w) {}
      forall u | u != t ensures WriterComing(s', u) <==> WriterComing(s, u) {}
      assert !WriterComing(s', t);
    }
  }

  // ----- Steps and runs -----

  /** Every step keeps the writers guarded, except exactly the missed notification. */
  lemma StepGuarded(s: Sys, l: Label)
    requires Inv(s) && WritersGuarded(s) && Enabled(s, l)
    ensures WritersGuarded(Next(s, l)) <==> !Missed(s, l)
  {
    hide Inv, WritersGuarded, Run, TimeUp, Notify, MayRun, Section;
    match l {
      case Begin(t, call) => BeginsOrResumes(s, l); RunGuarded(s, Next(s, l), t, call, First);
      case Resume(t) =>
        BeginsOrResumes(s, l);
        RunGuarded(s, Next(s, l), t, s.phase[t].call, Again(s.phase[t].timedOut));
      case TimeOut(t) => TimeUpGuarded(s, t, s.phase[t].call);
      case Notification(t) => NotifyGuarded(s, Next(s, l), t, s.phase[t].stage);
    }
  }

  lemma BeginsOrResumes(s: Sys, l: Label)
    requires Inv(s) && Enabled(s, l) && (l.Begin? || l.Resume?)
    ensures var (call, e) := if l.Begin? then (l.call, First) else (s.phase[l.t].call, Again(s.phase[l.t].timedOut));
      Starts(s, l.t, call, e) && Next(s, l) == Run(s, l.t, call, e)
  {
    StartsFromLabel(s, l);
  }

  predicate Upgrading(l: Label) { l.Begin? && l.call.TryUnlockSharedAndLockUpgradeUntil? }

  /** Nobody is inside try_unlock_shared_and_lock_upgrade_for() or _until(). */
  predicate NobodyUpgrading(s: Sys) {
    forall t :: t in s.phase && (s.phase[t].Parked? || s.phase[t].Woken?) ==>
      !s.phase[t].call.TryUnlockSharedAndLockUpgradeUntil?
  }

  lemma StepNobodyUpgrading(s: Sys, l: Label)
    requires NobodyUpgrading(s) && Enabled(s, l) && !Upgrading(l)
    ensures NobodyUpgrading(Next(s, l)) && !Missed(s, l)
  {
    hide Section, MayRun, Enqueued, SetRole, Fits, Considered;
  }

  lemma {:induction false} ExecGuarded(s: Sys, ls: seq<Label>)
    requires Inv(s) && WritersGuarded(s) && NobodyUpgrading(s) && Exec(s, ls).Some?
    requires forall l :: l in ls ==> !Upgrading(l)
    ensures Inv(Exec(s, ls).value) && WritersGuarded(Exec(s, ls).value) && NobodyUpgrading(Exec(s, ls).value)
    decreases |ls|
  {
    hide Inv, WritersGuarded, NobodyUpgrading, Enabled, Next, Missed;
    if ls != [] {
      assert ls[0] in ls;
      StepInv(s, ls[0]);
      StepNobodyUpgrading(s, ls[0]);
      StepGuarded(s, ls[0]);
      ExecGuarded(Next(s, ls[0]), ls[1..]);
    }
  }

  /** In every run without the timed conversion to upgrade ownership, a parked writer keeps everybody
      from becoming a reader or an upgrader, until a writer is on its way to look at the lock. */
  lemma ParkedWriterKeepsOut(s0: Sys, ls: seq<Label>, s: Sys, w: Tid)
    requires Initial(s0) && Exec(s0, ls) == Some(s) && (forall l :: l in ls ==> !Upgrading(l))
    requires w in s.q.exclusive
    ensures (exists u :: WriterComing(s, u)) || (!CanLockShared(s.d) && !CanLockUpgrade(s.d))
  {
    hide Inv, Initial, Enabled, Next;
    InitialInv(s0);
    InitialGuarded(s0);
    ExecGuarded(s0, ls);
    OnExclusiveCond(s, w);
    assert ParkedWriter(s, w);
  }

  lemma InitialGuarded(s: Sys)
    requires Initial(s)
    ensures WritersGuarded(s) && NobodyUpgrading(s)
  {
  }

  // ----- The flag is set for a writer -----

  predicate InsideWriter(s: Sys, w: Tid) {
    w in s.phase && (s.phase[w].Parked? || s.phase[w].Woken?) && IsWriting(s.phase[w].call)
  }

  /** While the lock is not held exclusively, exclusive_waiting_blocked is there for a writer inside its call. */
  ghost predicate BlockedForWriter(s: Sys) {
    s.d.blocked && !s.d.exclusive ==> exists w :: InsideWriter(s, w)
  }

  /** A writer that leaves its call takes the lock or takes the flag back; nobody else sets the flag. */
  predicate BlockFacts(d: StateData, call: Call, d': StateData, v: Verdict) {
    d'.blocked && !d'.exclusive ==> if IsWriting(call) then v.Waits? else d.blocked && !d.exclusive
  }

  lemma BlockShared(d: StateData, call: Call, e: Entrance)
    requires MayRun(call, e, d) && IsShared(call)
    ensures BlockFacts(d, call, SharedSection(call, e, d).0, SharedSection(call, e, d).1)
  {
  }

  lemma BlockExclusive(d: StateData, call: Call, e: Entrance)
    requires MayRun(call, e, d) && IsExclusive(call)
    ensures BlockFacts(d, call, ExclusiveSection(call, e, d).0, ExclusiveSection(call, e, d).1)
  {
  }

  lemma BlockUpgrade(d: StateData, call: Call, e: Entrance)
    requires MayRun(call, e, d) && IsUpgrade(call)
    ensures BlockFacts(d, call, UpgradeSection(call, e, d).0, UpgradeSection(call, e, d).1)
  {
  }

  lemma BlockUpgradeExclusive(d: StateData, call: Call, e: Entrance)
    requires MayRun(call, e, d) && IsUpgradeExclusive(call)
    ensures BlockFacts(d, call, UpgradeExclusiveSection(call, e, d).0, UpgradeExclusiveSection(call, e, d).1)
  {
  }

  lemma BlockConversion(d: StateData, call: Call, e: Entrance)
    requires MayRun(call, e, d) && IsConversion(call)
    ensures BlockFacts(d, call, SharedConversionSection(call, e, d).0, SharedConversionSection(call, e, d).1)
  {
  }

  lemma SectionBlocks(d: StateData, call: Call, e: Entrance)
    requires MayRun(call, e, d)
    ensures BlockFacts(d, call, Section(call, e, d).0, Section(call, e, d).1)
  {
    hide BlockFacts, SharedSection, ExclusiveSection, UpgradeSection, UpgradeExclusiveSection, SharedConversionSection;
    if IsShared(call) { BlockShared(d, call, e); }
    else if IsExclusive(call) { BlockExclusive(d, call, e); }
    else if IsUpgrade(call) { BlockUpgrade(d, call, e); }
    else if IsUpgradeExclusive(call) { BlockUpgradeExclusive(d, call, e); }
    else { BlockConversion(d, call, e); }
  }

  lemma RunBlocked(s: Sys, s': Sys, t: Tid, call: Call, e: Entrance)
    requires BlockedForWriter(s) && Starts(s, t, call, e) && s' == Run(s, t, call, e)
    ensures BlockedForWriter(s')
  {
    hide Section, MayRun, Run, SetRole, RoleOf;
    var (d', v) := Section(call, e, s.d);
    RunParts(s, s', t, call, e, d', v);
    SectionBlocks(s.d, call, e);
    if d'.blocked && !d'.exclusive {
      if IsWriting(call) {
        assert InsideWriter(s', t);
      } else {
        forall w | InsideWriter(s, w) ensures InsideWriter(s', w) { assert w != t; }
      }
    }
  }

  lemma TimeUpBlocked(s: Sys, t: Tid, call: Call)
    requires BlockedForWriter(s) && CanTimeOut(s, t, call)
    ensures BlockedForWriter(TimeUp(s, t, call))
  {
    forall w | InsideWriter(s, w) ensures InsideWriter(TimeUp(s, t, call), w) {}
  }

  lemma NotifyBlocked(s: Sys, s': Sys, t: Tid, stage: Stage)
    requires QueuesOk(s) && BlockedForWriter(s)
    requires t in s.phase && s.phase[t] == Releasing(stage) && s' == Notify(s, t, stage)
    ensures BlockedForWriter(s')
  {
    hide Notify, QueuesOk;
    NotifyParts(s, s', t, stage);
    forall w | InsideWriter(s, w) ensures InsideWriter(s', w) { assert w != t; }
  }

  /** Every section, notification and timeout keeps it. */
  lemma StepBlocked(s: Sys, l: Label)
    requires Inv(s) && BlockedForWriter(s) && Enabled(s, l)
    ensures BlockedForWriter(Next(s, l))
  {
    hide BlockedForWriter, Run, TimeUp, Notify, MayRun, Section, ThreadsOk, FlagsOk, Disjoint;
    match l {
      case Begin(t, call) => BeginsOrResumes(s, l); RunBlocked(s, Next(s, l), t, call, First);
      case Resume(t) =>
        BeginsOrResumes(s, l);
        RunBlocked(s, Next(s, l), t, s.phase[t].call, Again(s.phase[t].timedOut));
      case TimeOut(t) => TimeUpBlocked(s, t, s.phase[t].call);
      case Notification(t) => NotifyBlocked(s, Next(s, l), t, s.phase[t].stage);
    }
  }

  lemma {:induction false} ExecBlocked(s: Sys, ls: seq<Label>)
    requires Inv(s) && BlockedForWriter(s) && Exec(s, ls).Some?
    ensures Inv(Exec(s, ls).value) && BlockedForWriter(Exec(s, ls).value)
    decreases |ls|
  {
    hide Inv, BlockedForWriter, Enabled, Next;
    if ls != [] {
      StepInv(s, ls[0]);
      StepBlocked(s, ls[0]);
      ExecBlocked(Next(s, ls[0]), ls[1..]);
    }
  }

  /** In every reachable state a lock that nobody holds exclusively is closed to readers only while a writer
      is inside lock() or try_lock_until(): one that gave up has let them in again, and a reader that is
      parked by then has a notification in flight. */
  lemma ClosedOnlyForWriters(s: Sys)
    requires Reachable(s) && !s.d.exclusive && !CanLockShared(s.d)
    ensures exists w :: InsideWriter(s, w)
  {
    hide Inv, Enabled, Next;
    var s0: Sys, ls: seq<Label> :| Initial(s0) && Exec(s0, ls) == Some(s);
    InitialInv(s0);
    ExecBlocked(s0, ls);
  }

  lemma NoWriterReadersPass(s: Sys, t: Tid)
    requires Reachable(s) && !s.d.exclusive && (forall w :: !InsideWriter(s, w))
    requires t in s.phase && (s.phase[t] == Parked(LockShared) || s.phase[t] == Parked(TryLockSharedUntil))
    ensures CanLockShared(s.d) && exists u :: InRelease(s, u)
  {
    hide Reachable;
    if !CanLockShared(s.d) { ClosedOnlyForWriters(s); }
    assert ParkedAndPassable(s, t);
    PassableIsServed(s, t);
  }

  // ----- A run with a missed notification -----

  const Three: map<Tid, Phase> := map[1 := Outside, 2 := Outside, 3 := Outside]
  const Nothing: Queues := Queues([], [], [])

  function Start(): Sys { Sys(StateData(0, false, false, false), Nothing, Holders({}, {}, {}, {}), Three) }

  /** 1 reads and 2 has upgrade ownership. */
  function Shared(): Sys { Sys(StateData(2, false, true, false), Nothing, Holders({1}, {2}, {}, {}), Three) }

  /** 1 waits to become the upgrader, and 3 behind it to become the writer. */
  function BothWait(): Sys {
    Sys(StateData(2, false, true, true), Queues([], [1, 3], []), Holders({1}, {2}, {}, {}),
        Three[1 := Parked(TryUnlockSharedAndLockUpgradeUntil)][3 := Parked(Lock)])
  }

  /** 2 has given up upgrade ownership, and its notify_one() has taken 1 from the queue. */
  function OneWoken(): Sys {
    Sys(StateData(2, false, false, false), Queues([], [3], []), Holders({1, 2}, {}, {}, {}),
        Three[1 := Woken(TryUnlockSharedAndLockUpgradeUntil, false)][3 := Parked(Lock)])
  }

  function Overtaken(): Sys {
    Sys(StateData(2, false, true, false), Queues([], [3], []), Holders({2}, {1}, {}, {}), Three[3 := Parked(Lock)])
  }

  lemma TwoSteps(s: Sys, a: Label, b: Label, s': Sys)
    requires Reachable(s) && Enabled(s, a) && Enabled(Next(s, a), b) && Next(Next(s, a), b) == s'
    ensures Reachable(s')
  {
    hide Reachable, Enabled, Next;
    ReachableNext(s, a);
    ReachableNext(Next(s, a), b);
  }

  lemma ToShared()
    ensures Enabled(Start(), Begin(1, LockShared))
    ensures var s := Next(Start(), Begin(1, LockShared));
      Enabled(s, Begin(2, LockUpgrade)) && Next(s, Begin(2, LockUpgrade)) == Shared()
  {
    var s := Next(Start(), Begin(1, LockShared));
    assert s == Sys(StateData(1, false, false, false), Nothing, Holders({1}, {}, {}, {}), Three);
  }

  lemma ToBothWait()
    ensures Enabled(Shared(), Begin(1, TryUnlockSharedAndLockUpgradeUntil))
    ensures var s := Next(Shared(), Begin(1, TryUnlockSharedAndLockUpgradeUntil));
      Enabled(s, Begin(3, Lock)) && Next(s, Begin(3, Lock)) == BothWait()
  {
    var s := Next(Shared(), Begin(1, TryUnlockSharedAndLockUpgradeUntil));
    assert s == Sys(StateData(2, false, true, false), Queues([], [1], []), Holders({1}, {2}, {}, {}),
                    Three[1 := Parked(TryUnlockSharedAndLockUpgradeUntil)]);
  }

  function GivenUp(): Sys {
    Sys(StateData(2, false, false, false), Queues([], [1, 3], []), Holders({1, 2}, {}, {}, {}),
        BothWait().phase[2 := Releasing(NotifyingExclusive)])
  }

  lemma ToGivenUp()
    ensures Enabled(BothWait(), Begin(2, UnlockUpgradeAndLockShared))
    ensures Next(BothWait(), Begin(2, UnlockUpgradeAndLockShared)) == GivenUp()
  {
  }

  lemma ToOneWoken()
    ensures Enabled(GivenUp(), Notification(2))
    ensures var s := Next(GivenUp(), Notification(2));
      Enabled(s, Notification(2)) && Next(s, Notification(2)) == OneWoken()
  {
    var s := Next(GivenUp(), Notification(2));
    assert s == GivenUp().(q := Queues([], [3], []), phase := OneWoken().phase[2 := Releasing(NotifyingShared)]);
  }

  lemma ToOvertaken()
    ensures Enabled(OneWoken(), Label.Resume(1)) && Next(OneWoken(), Label.Resume(1)) == Overtaken()
  {
  }

  /** With the timed conversion to upgrade ownership the writer is overtaken: the notification is
      missed, nothing is on its way, thread 3 is parked in lock(), and yet readers can enter. */
  lemma WriterOvertaken()
    ensures Reachable(GivenUp()) && Missed(GivenUp(), Notification(2))
    ensures Reachable(Overtaken()) && Quiescent(Overtaken()) && Overtaken().phase[3] == Parked(Lock)
    ensures CanLockShared(Overtaken().d)
  {
    hide Reachable, Enabled, Next;
    InitialReachable(Start());
    ToShared();
    TwoSteps(Start(), Begin(1, LockShared), Begin(2, LockUpgrade), Shared());
    ToBothWait();
    TwoSteps(Shared(), Begin(1, TryUnlockSharedAndLockUpgradeUntil), Begin(3, Lock), BothWait());
    ToGivenUp();
    assert ParkedWriter(GivenUp(), 3);
    ReachableNext(BothWait(), Begin(2, UnlockUpgradeAndLockShared));
    ToOneWoken();
    TwoSteps(GivenUp(), Notification(2), Notification(2), OneWoken());
    ToOvertaken();
    ReachableNext(OneWoken(), Label.Resume(1));
  }
}
