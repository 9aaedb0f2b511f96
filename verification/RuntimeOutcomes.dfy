/** What the calls of a running thread answer, what they refuse, and how a run-time ends. */
module RuntimeOutcomes {
  import opened Basics
  import opened MutexModel
  import opened Runtime
  import opened RuntimeInvariant
  import opened RuntimeFrames
  import opened RuntimeReturn
  import opened RuntimeDispatch
  import opened RuntimeSafety
  import opened RuntimeTheorems

  // ----- Mutexes and condition variables -----

  /** try_lock(): it returns true exactly if the caller owns the mutex then, and false changes nothing. A free
      mutex is taken, once; the owner of a recursive one acquires it once more. */
  lemma TryLockResult(s: Sys, t: Tid, m: Mid)
    requires Reachable(s) && Enabled(s, TryLock(t, m))
    ensures var (s', ok) := (Next(s, TryLock(t, m)), TryLockStep(s.mutexes[m], t).1);
      && m in s'.mutexes && (ok <==> s'.mutexes[m].owner == Some(t))
      && (ok <==> s.mutexes[m].owner.None? || s.mutexes[m].owner == Some(t))
      && (!ok ==> s' == s)
      && Held(s', t, m) == Held(s, t, m)
           + (if s.mutexes[m].owner.None? || (ok && s.mutexes[m].recursive) then 1 else 0)
      && (ok ==> Held(s', t, m) == s'.mutexes[m].level >= 1)
  {
    hide Reachable, Inv;
    ReachableInv(s);
    RunningFacts(s, t);
    MutexFacts(s, m);
    if s.mutexes[m].owner == Some(t) {
      HeldIsLevel(s, t, m);
    } else {
      NotHeld(s, t, m);
    }
  }

  lemma NotHeld(s: Sys, t: Tid, m: Mid)
    requires Inv(s) && m in s.mutexes && s.mutexes[m].owner != Some(t)
    ensures Held(s, t, m) == 0
  {
    assert Held(s, t, m) == ExpectedHeld(s, t, m);
  }

  /** What the code refuses changes nothing: lock() of a mutex that is not recursive by its owner, unlock()
      and wait() by a thread that does not own the mutex. */
  lemma RefusedCalls(s: Sys, t: Tid, m: Mid, c: Cid, timed: bool)
    requires At(s, t, Running) && m in s.mutexes && c in s.conds
    ensures s.mutexes[m].owner == Some(t) && !s.mutexes[m].recursive ==>
      LockStep(s.mutexes[m], t, None).1 == Deadlock && DoLock(s, t, m, timed) == s
    ensures s.mutexes[m].owner != Some(t) ==>
      UnlockStep(s.mutexes[m], t).1 == NotOwner && DoUnlock(s, t, m) == s && DoCondWait(s, t, c, m, timed) == s
  {
    assert s.mutexes[m := s.mutexes[m]] == s.mutexes;
  }

  /** A call that is not refused goes on: lock() acquires or parks its thread, wait() parks it. */
  lemma AcceptedCalls(s: Sys, t: Tid, m: Mid, c: Cid, timed: bool)
    requires At(s, t, Running) && m in s.mutexes && c in s.conds
    ensures s.mutexes[m].owner.None? || (s.mutexes[m].owner == Some(t) && s.mutexes[m].recursive) ==>
      At(DoLock(s, t, m, timed), t, Running) && Held(DoLock(s, t, m, timed), t, m) == Held(s, t, m) + 1
    ensures s.mutexes[m].owner.Some? && s.mutexes[m].owner != Some(t) ==> At(DoLock(s, t, m, timed), t, Parking)
    ensures s.mutexes[m].owner == Some(t) ==> At(DoCondWait(s, t, c, m, timed), t, CondUnlock)
  {
  }

  /** t has to give way: the only step it can take next is to switch out. */
  predicate MustSwitch(s: Sys, t: Tid) {
    At(s, t, MustYield) && Enabled(s, Yield(t, true)) && !Enabled(s, Yield(t, false))
  }

  lemma NotifiedMustSwitch(s: Sys, t: Tid)
    requires t in s.threads
    ensures MustSwitch(Notified(s, Some(t)), t)
  {
  }

  /** notify_one() that found somebody, and notify_all() always, make a green thread give way. */
  lemma NotifierYields(s: Sys, t: Tid, c: Cid)
    requires At(s, t, Running) && c in s.conds
    ensures if s.conds[c] == [] then DoNotifyOne(s, Some(t), c) == s else MustSwitch(DoNotifyOne(s, Some(t), c), t)
    ensures MustSwitch(DoNotifyAll(s, Some(t), c), t)
  {
    hide PopAllWaiters, PopWaiter, MustSwitch, Notified;
    if s.conds[c] != [] {
      PopKeepsThreads(s, c);
      NotifiedMustSwitch(PopWaiter(s, c), t);
    }
    PopAllKeepsThreads(s, c);
    NotifiedMustSwitch(PopAllWaiters(s, c), t);
  }

  lemma PopKeepsThreads(s: Sys, c: Cid)
    requires c in s.conds && s.conds[c] != []
    ensures PopWaiter(s, c).threads.Keys == s.threads.Keys
    ensures c in PopWaiter(s, c).conds && PopWaiter(s, c).conds[c] == s.conds[c][1..]
  {
    hide DoWake;
    WakeKeepsMutexes(s.(conds := s.conds[c := s.conds[c][1..]]), WakeOf(s.conds[c][0]));
  }

  lemma {:induction false} PopAllKeepsThreads(s: Sys, c: Cid)
    requires c in s.conds
    ensures PopAllWaiters(s, c).threads.Keys == s.threads.Keys
    decreases |s.conds[c]|
  {
    hide PopWaiter;
    if s.conds[c] != [] {
      PopKeepsThreads(s, c);
      PopAllKeepsThreads(PopWaiter(s, c), c);
    }
  }

  /** sleep_rel() comes back only after its time, and its handler is gone then. */
  lemma SleepReturnsAfterItsTime(s: Sys, t: Tid, x: TimerId)
    requires Reachable(s) && At(s, t, Woken) && s.threads[t].wait == OnSleep(x)
    ensures x in s.timers && s.timers[x].t == t && s.timers[x].expired && UnrunHandlers(s, t) == {}
  {
    ReachableInv(s);
    ThreadOk(s, t);
    AwakeFacts(ViewOf(s, t));
    HandlersCount(s, t);
    assert TimerFits(ViewOf(s, t));
  }

  // ----- Exceptions -----

  /** An exception is never dropped: it is kept until it is rethrown, to exactly one joiner. */
  lemma ExceptionIsKeptOrRethrown(s: Sys, f: Tid)
    requires Reachable(s) && f in s.threads
    ensures (if s.threads[f].exc then 1 else 0) + s.threads[f].rethrown == (if s.threads[f].raised then 1 else 0)
  {
    ReachableInv(s);
    ThreadOk(s, f);
    assert PhaseOk(s.threads[f]);
  }

  /** f hands its exception over: to a joiner that rethrows, and if there is one. */
  predicate HandsOver(before: Thread, after: Thread, rethrow: bool) {
    && after.rethrown == before.rethrown + (if rethrow && before.exc then 1 else 0)
    && (after.exc <==> before.exc && !rethrow) && after.raised == before.raised
  }

  lemma StopKeepsException(s: Sys, t: Tid, throws: bool)
    requires Reachable(s) && Enabled(s, Stop(t, throws))
    ensures var th := Next(s, Stop(t, throws)).threads[t];
      th.raised == throws && th.exc == throws && th.rethrown == 0 && th.state == STOPPED
  {
    ReachableInv(s);
    ThreadOk(s, t);
    assert PhaseOk(s.threads[t]);
  }

  /** After its pause join_and_rethrow() rethrows what it finds; join() leaves it for somebody else. */
  lemma JoinReturnHandsOver(s: Sys, t: Tid, f: Tid, rethrow: bool)
    requires Reachable(s) && Enabled(s, Return(t)) && s.threads[t].wait == OnJoin(f, rethrow)
    ensures var s' := Next(s, Return(t));
      && f in s.threads && f != t && At(s', t, Running)
      && f in s'.threads && HandsOver(s.threads[f], s'.threads[f], rethrow)
  {
    hide Reachable, Inv, DoReturn, HandsOver, Next, Enabled;
    ReachableInv(s);
    JoinsAnother(s, t, f, rethrow);
    ReturnHandsOver(s, t, f, rethrow);
  }

  lemma JoinsAnother(s: Sys, t: Tid, f: Tid, rethrow: bool)
    requires Inv(s) && Enabled(s, Return(t)) && s.threads[t].wait == OnJoin(f, rethrow)
    ensures f != t && f in s.threads && At(s, t, Woken) && Next(s, Return(t)) == DoReturn(s, t, OnJoin(f, rethrow))
  {
    hide DoReturn, Rest;
    assert Ok(ViewOf(s, t));
    assert WaitFits(ViewOf(s, t));
  }

  lemma ReturnHandsOver(s: Sys, t: Tid, f: Tid, rethrow: bool)
    requires At(s, t, Woken) && f in s.threads && f != t && s.threads[t].wait == OnJoin(f, rethrow)
    ensures var s' := DoReturn(s, t, OnJoin(f, rethrow));
      At(s', t, Running) && f in s'.threads && HandsOver(s.threads[f], s'.threads[f], rethrow)
  {
    var s1 := Leave(s, t);
    assert s1.threads[f] == s.threads[f] && At(s1, t, Running);
  }

  /** The same at once when f has stopped before; otherwise the test changes nothing about the exception. */
  lemma JoinTestHandsOver(s: Sys, t: Tid, f: Tid, rethrow: bool)
    requires Enabled(s, JoinTest(t, f, rethrow))
    ensures var (s', stopped) := (Next(s, JoinTest(t, f, rethrow)), s.threads[f].state == STOPPED);
      && At(s', t, if stopped then Running else Joining)
      && f in s'.threads && HandsOver(s.threads[f], s'.threads[f], rethrow && stopped)
  {
    hide Propagate, DoJoinTest;
    if s.threads[f].state == STOPPED { TestOfStopped(s, t, f, rethrow); } else { TestOfRunning(s, t, f, rethrow); }
  }

  lemma TestOfStopped(s: Sys, t: Tid, f: Tid, rethrow: bool)
    requires At(s, t, Running) && f in s.threads && f != t && s.threads[f].state == STOPPED
    ensures var s' := DoJoinTest(s, t, f, rethrow);
      At(s', t, Running) && f in s'.threads && HandsOver(s.threads[f], s'.threads[f], rethrow)
  {
  }

  lemma TestOfRunning(s: Sys, t: Tid, f: Tid, rethrow: bool)
    requires t in s.threads && f in s.threads && f != t && s.threads[f].state != STOPPED
    ensures var s' := DoJoinTest(s, t, f, rethrow);
      At(s', t, Joining) && f in s'.threads && HandsOver(s.threads[f], s'.threads[f], false)
  {
  }

  // ----- The end -----

  /** The check timer stops the service exactly when a thread was created and every exit was processed. */
  lemma StopsWhenDone(s: Sys)
    requires Reachable(s) && Enabled(s, CheckTimer)
    ensures Next(s, CheckTimer).stopped <==>
      s.threads != map[] && forall t :: t in s.threads ==> s.threads[t].exit == Processed
  {
    hide Reachable;
    ReachableInv(s);
    NobodyLive(s);
  }

  lemma NobodyLive(s: Sys)
    ensures Live(s) == {} <==> forall t :: t in s.threads ==> s.threads[t].exit == Processed
  {
    assert forall t :: t in Live(s) <==> t in s.threads && s.threads[t].exit != Processed;
  }

  /** The last exit message makes the next check stop the service. */
  lemma LastExitStops(s: Sys, t: Tid)
    requires Reachable(s) && Enabled(s, ProcessExit(t)) && Live(s) == {t}
    ensures var s' := Next(s, ProcessExit(t)); Enabled(s', CheckTimer) && Next(s', CheckTimer).stopped
  {
    hide Reachable, Live;
    CountIsLive(s);
    Started(s, t);
    assert s.threadCount == 1;
  }

  lemma Started(s: Sys, t: Tid)
    requires Reachable(s) && t in s.threads
    ensures s.started
  {
    ReachableInv(s);
  }
}
