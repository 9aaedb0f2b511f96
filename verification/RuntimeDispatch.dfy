/** Each label is one of the steps already shown to keep the invariant. */
module RuntimeDispatch {
  import opened Basics
  import opened MutexModel
  import opened Runtime
  import opened RuntimeInvariant
  import opened RuntimeFrames
  import opened RuntimeSteps
  import opened RuntimeRegister
  import opened RuntimeWake
  import opened RuntimeUnlock
  import opened RuntimeReturn
  import opened RuntimeJoin

  lemma RunningFacts(s: Sys, t: Tid)
    requires Inv(s) && At(s, t, Running)
    ensures s.threads[t].wait.NoWait? && s.threads[t].phase == OnCpu
  {
    ThreadOk(s, t);
  }

  lemma MutexFacts(s: Sys, m: Mid)
    requires Inv(s) && m in s.mutexes
    ensures MutexQueueOk(s, m) && MutexOk(s.mutexes[m])
  {
  }

  lemma LockCases(s: Sys, t: Tid, m: Mid, timed: bool)
    requires t in s.threads && m in s.mutexes && MutexOk(s.mutexes[m])
    ensures var s' := DoLock(s, t, m, timed);
      var timer := if timed then Some(s.nextTimer) else None;
      match LockStep(s.mutexes[m], t, timer).1
      case Acquired => s' == Acquire(s, t, m)
      case Enqueued => s' == Register(s, t, OnMutex(m, timer), Parking)
      case _ => s' == s
  {
  }

  lemma LockInv(s: Sys, t: Tid, m: Mid, timed: bool)
    requires Inv(s) && At(s, t, Running) && m in s.mutexes
    ensures Inv(DoLock(s, t, m, timed))
  {
    RunningFacts(s, t);
    MutexFacts(s, m);
    LockCases(s, t, m, timed);
    var timer := if timed then Some(s.nextTimer) else None;
    match LockStep(s.mutexes[m], t, timer).1 {
      case Acquired => AcquireInv(s, t, m);
      case Enqueued => RegisterInv(s, t, OnMutex(m, timer), Parking);
      case _ =>
    }
  }

  lemma TryLockCases(s: Sys, t: Tid, m: Mid)
    requires t in s.threads && m in s.mutexes && MutexOk(s.mutexes[m])
    ensures var (ms, s') := (s.mutexes[m], DoTryLock(s, t, m));
      s' == if ms.owner.None? || (ms.owner == Some(t) && ms.recursive) then Acquire(s, t, m) else s
  {
  }

  lemma TryLockInv(s: Sys, t: Tid, m: Mid)
    requires Inv(s) && At(s, t, Running) && m in s.mutexes
    ensures Inv(DoTryLock(s, t, m))
  {
    RunningFacts(s, t);
    MutexFacts(s, m);
    TryLockCases(s, t, m);
    if s.mutexes[m].owner.None? || (s.mutexes[m].owner == Some(t) && s.mutexes[m].recursive) {
      AcquireInv(s, t, m);
    }
  }

  // ----- Unlock of an outer level -----

  function Lower(s: Sys, t: Tid, m: Mid): Sys
    requires m in s.mutexes && s.mutexes[m].level > 1
  {
    SubHeld(SetMutex(s, m, s.mutexes[m].(level := s.mutexes[m].level - 1)), t, m)
  }

  predicate CanLower(s: Sys, t: Tid, m: Mid) {
    && At(s, t, Running) && s.threads[t].wait.NoWait?
    && m in s.mutexes && s.mutexes[m].owner == Some(t) && s.mutexes[m].level > 1
  }

  lemma LowerThreads(s: Sys, s': Sys, t: Tid, m: Mid)
    requires CanLower(s, t, m) && ThreadsOk(s) && s' == Lower(s, t, m)
    ensures ThreadsOk(s')
  {
    var ms := s.mutexes[m].(level := s.mutexes[m].level - 1);
    assert ViewOf(s', t) == ViewOf(s, t);
    forall u | u in s.threads && u != t ensures Unaffected(s, s', u) { SectionOther(s, s', m, ms, u); }
    OthersOk(s, s', t, t);
  }

  lemma LowerQueues(s: Sys, s': Sys, t: Tid, m: Mid)
    requires CanLower(s, t, m) && QueuesOk(s) && s' == Lower(s, t, m)
    ensures QueuesOk(s')
  {
    assert MutexQueueOk(s, m);
    forall n | n in s'.mutexes && n != m ensures MutexQueueOk(s', n) { KeepMutex(s, s', t, n); }
    forall c | c in s'.conds ensures CondQueueOk(s', c) { KeepCond(s, s', t, c); }
    forall f | f in s'.threads ensures JoinQueueOk(s', f) { KeepJoin(s, s', t, f); }
    forall x | x in s'.timers ensures TimerOwned(s', x) { assert TimerOwned(s, x); }
  }

  lemma LowerCounts(s: Sys, s': Sys, t: Tid, m: Mid)
    requires CanLower(s, t, m) && HeldOk(s) && SchedOk(s) && s' == Lower(s, t, m)
    ensures HeldOk(s') && SchedOk(s')
  {
    forall u: Tid, n: Mid ensures Held(s', u, n) == ExpectedHeld(s', u, n) {
      assert Held(s, u, n) == ExpectedHeld(s, u, n);
    }
    SchedFrame(s, s');
  }

  lemma LowerInv(s: Sys, t: Tid, m: Mid)
    requires CanLower(s, t, m) && Inv(s)
    ensures Inv(Lower(s, t, m))
  {
    LowerThreads(s, Lower(s, t, m), t, m);
    LowerQueues(s, Lower(s, t, m), t, m);
    LowerCounts(s, Lower(s, t, m), t, m);
  }

  lemma UnlockOuter(s: Sys, t: Tid, m: Mid)
    requires t in s.threads && m in s.mutexes && s.mutexes[m].owner == Some(t) && s.mutexes[m].level > 1
    ensures DoUnlock(s, t, m) == Lower(s, t, m)
  {
  }

  lemma UnlockFreed(s: Sys, s': Sys, t: Tid, m: Mid)
    requires At(s, t, Running) && s.threads[t].wait.NoWait? && m in s.mutexes && s.mutexes[m].owner == Some(t)
    requires s.mutexes[m].level == 1 && s.mutexes[m].queue == [] && s' == DoUnlock(s, t, m)
    ensures s' == UnlockSection(s, t, m, Running)
  {
    var s1 := Released(s, t, m);
    assert s' == s1;
    assert s1.threads == s1.threads[t := s1.threads[t].(stage := Running, wait := NoWait)];
  }

  lemma UnlockHanded(s: Sys, s': Sys, t: Tid, m: Mid)
    requires At(s, t, Running) && s.threads[t].wait.NoWait? && m in s.mutexes && s.mutexes[m].owner == Some(t)
    requires s.mutexes[m].level == 1 && s.mutexes[m].queue != [] && s' == DoUnlock(s, t, m)
    ensures s' == UnlockSection(s, t, m, Yielding)
  {
  }

  lemma UnlockInv(s: Sys, t: Tid, m: Mid)
    requires Inv(s) && At(s, t, Running) && m in s.mutexes
    ensures Inv(DoUnlock(s, t, m))
  {
    RunningFacts(s, t);
    MutexFacts(s, m);
    if s.mutexes[m].owner == Some(t) {
      if s.mutexes[m].level > 1 {
        UnlockOuter(s, t, m);
        LowerInv(s, t, m);
      } else if s.mutexes[m].queue == [] {
        UnlockFreed(s, DoUnlock(s, t, m), t, m);
        UnlockSectionInv(s, t, m, Running);
      } else {
        UnlockHanded(s, DoUnlock(s, t, m), t, m);
        UnlockSectionInv(s, t, m, Yielding);
      }
    }
  }

  // ----- Condition variables -----

  lemma CondWaitCases(s: Sys, t: Tid, c: Cid, m: Mid, timed: bool)
    requires t in s.threads && c in s.conds && m in s.mutexes && !s.mutexes[m].recursive && s.mutexes[m].owner == Some(t)
    ensures var timer := if timed then Some(s.nextTimer) else None;
      DoCondWait(s, t, c, m, timed) == Register(s, t, OnCond(c, m, timer), CondUnlock)
  {
  }

  lemma CondWaitInv(s: Sys, t: Tid, c: Cid, m: Mid, timed: bool)
    requires Inv(s) && At(s, t, Running) && c in s.conds && m in s.mutexes && !s.mutexes[m].recursive
    ensures Inv(DoCondWait(s, t, c, m, timed))
  {
    if s.mutexes[m].owner == Some(t) {
      CondWaitCases(s, t, c, m, timed);
      RegisterInv(s, t, OnCond(c, m, if timed then Some(s.nextTimer) else None), CondUnlock);
    }
  }

  lemma CondUnlockFacts(s: Sys, t: Tid)
    requires Inv(s) && At(s, t, CondUnlock)
    ensures var w := s.threads[t].wait;
      && w.OnCond? && w.m in s.mutexes && s.mutexes[w.m].owner == Some(t) && s.mutexes[w.m].level == 1
      && MutexOk(s.mutexes[w.m])
  {
    ThreadOk(s, t);
    MutexFacts(s, s.threads[t].wait.m);
  }

  lemma CondUnlockCases(s: Sys, t: Tid, w: Wait)
    requires At(s, t, CondUnlock) && w == s.threads[t].wait && w.OnCond? && w.m in s.mutexes
    requires s.mutexes[w.m].owner == Some(t) && s.mutexes[w.m].level == 1 && MutexOk(s.mutexes[w.m])
    ensures DoCondUnlock(s, t, w) == UnlockSection(s, t, w.m, if s.mutexes[w.m].queue == [] then Parking else Yielding)
  {
  }

  lemma UnlockInWaitInv(s: Sys, t: Tid)
    requires Inv(s) && At(s, t, CondUnlock) && s.threads[t].wait.OnCond? && s.threads[t].wait.m in s.mutexes
    ensures Inv(DoCondUnlock(s, t, s.threads[t].wait))
  {
    var w := s.threads[t].wait;
    CondUnlockFacts(s, t);
    CondUnlockCases(s, t, w);
    UnlockSectionInv(s, t, w.m, if s.mutexes[w.m].queue == [] then Parking else Yielding);
  }

  lemma LeftFacts(s: Sys, t: Tid)
    requires t in s.threads
    ensures At(Leave(s, t), t, Running) && Leave(s, t).mutexes == s.mutexes
  {
  }

  lemma RelockInv(s: Sys, t: Tid)
    requires Inv(s) && At(s, t, Woken) && s.threads[t].wait.OnCond? && s.threads[t].wait.m in s.mutexes
    ensures Inv(DoRelock(s, t, s.threads[t].wait.m))
  {
    LeaveInv(s, t);
    LeftFacts(s, t);
    LockInv(Leave(s, t), t, s.threads[t].wait.m, false);
  }

  lemma MustYieldInv(s: Sys, t: Tid)
    requires Inv(s) && At(s, t, Running)
    ensures Inv(Move(s, t, MustYield, NoWait))
  {
    RunningFacts(s, t);
    ThreadOk(s, t);
    MustYieldView(s, Move(s, t, MustYield, NoWait), t);
    LocalInv(s, Move(s, t, MustYield, NoWait), t);
  }

  lemma MustYieldView(s: Sys, s': Sys, t: Tid)
    requires At(s, t, Running) && s.threads[t].wait.NoWait? && Ok(ViewOf(s, t)) && s' == Move(s, t, MustYield, NoWait)
    ensures LocalStep(s, s', t) && Ok(ViewOf(s', t))
  {
  }

  lemma NotifiedInv(s: Sys, who: Option<Tid>)
    requires Inv(s) && (who.Some? ==> At(s, who.value, Running))
    ensures Inv(Notified(s, who))
  {
    if who.Some? { MustYieldInv(s, who.value); }
  }

  lemma PopKeepsRunning(s: Sys, c: Cid, t: Tid)
    requires c in s.conds && s.conds[c] != [] && At(s, t, Running)
    ensures At(PopWaiter(s, c), t, Running)
  {
  }

  lemma {:induction false} PopAllKeepsRunning(s: Sys, c: Cid, t: Tid)
    requires c in s.conds && At(s, t, Running)
    ensures At(PopAllWaiters(s, c), t, Running)
    decreases |s.conds[c]|
  {
    if s.conds[c] != [] {
      PopKeepsRunning(s, c, t);
      PopAllKeepsRunning(PopWaiter(s, c), c, t);
    }
  }

  lemma NotifyOneInv(s: Sys, who: Option<Tid>, c: Cid)
    requires Inv(s) && c in s.conds && (who.Some? ==> At(s, who.value, Running))
    ensures Inv(DoNotifyOne(s, who, c))
  {
    if s.conds[c] != [] {
      PopWaiterInv(s, c);
      if who.Some? { PopKeepsRunning(s, c, who.value); }
      NotifiedInv(PopWaiter(s, c), who);
    }
  }

  lemma NotifyAllInv(s: Sys, who: Option<Tid>, c: Cid)
    requires Inv(s) && c in s.conds && (who.Some? ==> At(s, who.value, Running))
    ensures Inv(DoNotifyAll(s, who, c))
  {
    PopAllInv(s, c);
    if who.Some? { PopAllKeepsRunning(s, c, who.value); }
    NotifiedInv(PopAllWaiters(s, c), who);
  }

  // ----- Context switches -----

  lemma SleepInv(s: Sys, t: Tid)
    requires Inv(s) && At(s, t, Running)
    ensures Inv(Move(Arm(s, t, AtSleep), t, Parking, OnSleep(s.nextTimer)))
  {
    assert Move(Arm(s, t, AtSleep), t, Parking, OnSleep(s.nextTimer)) == Register(s, t, OnSleep(s.nextTimer), Parking);
    RegisterInv(s, t, OnSleep(s.nextTimer), Parking);
  }

  lemma YieldView(s: Sys, s': Sys, t: Tid, switch: bool)
    requires (At(s, t, Yielding) || (At(s, t, MustYield) && switch)) && Ok(ViewOf(s, t)) && s' == DoYield(s, t, switch)
    ensures LocalStep(s, s', t) && Ok(ViewOf(s', t))
  {
  }

  lemma YieldInv(s: Sys, t: Tid, switch: bool)
    requires Inv(s) && (At(s, t, Yielding) || (At(s, t, MustYield) && switch))
    ensures Inv(DoYield(s, t, switch))
  {
    ThreadOk(s, t);
    YieldView(s, DoYield(s, t, switch), t, switch);
    LocalInv(s, DoYield(s, t, switch), t);
  }

  lemma EndStepView(s: Sys, s': Sys, t: Tid)
    requires t in s.threads && s.threads[t].phase in {Returned(READY), Returned(BLOCKED)} && Ok(ViewOf(s, t))
    requires s' == DoEndStep(s, t)
    ensures LocalStep(s, s', t) && Ok(ViewOf(s', t))
  {
  }

  lemma EndStepInv(s: Sys, t: Tid)
    requires Inv(s) && t in s.threads && s.threads[t].phase in {Returned(READY), Returned(BLOCKED)}
    ensures Inv(DoEndStep(s, t))
  {
    ThreadOk(s, t);
    EndStepView(s, DoEndStep(s, t), t);
    LocalInv(s, DoEndStep(s, t), t);
  }

  lemma ActivateView(s: Sys, s': Sys, t: Tid)
    requires t in s.threads && s.threads[t].pending > 0 && s.threads[t].phase == Idle && Ok(ViewOf(s, t))
    requires s' == DoActivate(s, t)
    ensures s.threads[t].stage.Fresh? || s.threads[t].stage.Paused? || s.threads[t].stage.Yielded?
    ensures LocalStep(s, s', t) && Ok(ViewOf(s', t))
  {
  }

  lemma ActivateInv(s: Sys, t: Tid)
    requires Inv(s) && t in s.threads && s.threads[t].pending > 0 && s.threads[t].phase == Idle
    ensures Inv(DoActivate(s, t))
  {
    ThreadOk(s, t);
    ActivateView(s, DoActivate(s, t), t);
    LocalInv(s, DoActivate(s, t), t);
  }

  lemma ReturnCases(s: Sys, t: Tid, w: Wait)
    requires At(s, t, Woken) && w == s.threads[t].wait
    requires (w.OnMutex? ==> w.m in s.mutexes) && (w.OnJoin? ==> w.f in s.threads)
    requires w.OnMutex? && w.timer.None? ==> s.mutexes[w.m].owner == Some(t)
    ensures DoReturn(s, t, w) == match w
      case OnMutex(_, _) => LeaveMutex(s, t)
      case OnJoin(f, rethrow) => if rethrow then Propagate(Leave(s, t), f) else Leave(s, t)
      case _ => Leave(s, t)
  {
  }

  lemma ReturnInv(s: Sys, t: Tid)
    requires Inv(s) && CanReturn(s, t)
    ensures Inv(DoReturn(s, t, s.threads[t].wait))
  {
    var w := s.threads[t].wait;
    ThreadOk(s, t);
    AwakeFacts(ViewOf(s, t));
    ReturnCases(s, t, w);
    if w.OnMutex? {
      LeaveMutexInv(s, t);
    } else {
      LeaveInv(s, t);
      if w.OnJoin? { PropagateInv(Leave(s, t), w.f); }
    }
  }

  // ----- Joins and the scheduler -----

  lemma StoppedState(s: Sys, f: Tid)
    requires Inv(s) && f in s.threads
    ensures s.threads[f].state == STOPPED <==> s.threads[f].stage.Stopped?
  {
    ThreadOk(s, f);
  }

  lemma JoinTestInv(s: Sys, t: Tid, f: Tid, rethrow: bool)
    requires Inv(s) && At(s, t, Running) && f in s.threads && f != t && s.threads[f].joinLock.None?
    ensures Inv(DoJoinTest(s, t, f, rethrow))
  {
    RunningFacts(s, t);
    StoppedState(s, f);
    if s.threads[f].state == STOPPED { PropagateInv(s, f); } else { LockJoinInv(s, t, f, rethrow); }
  }

  lemma JoinPushInv(s: Sys, t: Tid)
    requires Inv(s) && At(s, t, Joining) && s.threads[t].wait.OnJoin? && s.threads[t].wait.f in s.threads
    ensures Inv(DoJoinPush(s, t, s.threads[t].wait.f))
  {
    ThreadOk(s, t);
    assert WaitFits(ViewOf(s, t));
    PushJoinInv(s, t, s.threads[t].wait.f);
  }

  lemma CheckTimerInv(s: Sys)
    requires Inv(s)
    ensures Inv(if s.threadCount > 0 || !s.started then s else s.(stopped := true))
  {
    if s.threadCount == 0 && s.started { StopServiceInv(s); }
  }

  /** After the service stopped there is no green thread left to create another one. */
  lemma NobodyRuns(s: Sys, t: Tid)
    requires Inv(s) && s.stopped && t in s.threads
    ensures s.threads[t].stage.Stopped? && s.threads[t].exit == Processed && s.threads[t].pending == 0
    ensures s.threads[t].phase == Idle
  {
    assert Live(s) == {};
    assert t !in Live(s);
    ThreadOk(s, t);
  }

  lemma SpawnStepInv(s: Sys, parent: Option<Tid>, child: Tid)
    requires Inv(s) && child !in s.threads
    requires if parent.Some? then At(s, parent.value, Running) else s.threads == map[]
    ensures Inv(DoSpawn(s, child))
  {
    if s.stopped && parent.Some? { NobodyRuns(s, parent.value); }
    SpawnInv(s, child);
  }
}
