/** The hand-off order of one mutex, over whole runs of the run-time: what the run does to the mutex is a
    run of `MutexModel`, so that its first-in-first-out theorems hold of the system. */
module RuntimeFifo {
  import opened Basics
  import opened MutexModel
  import opened Runtime
  import opened RuntimeReturn
  import opened RuntimeSafety

  /** What a step does to the mutex m, as a sequence of length 0 or 1. */
  function EventOf(s: Sys, l: Label, m: Mid): seq<Event>
    requires Enabled(s, l)
  {
    match l
    case Lock(t, n, timed) => if n == m then [ELock(t, if timed then Some(s.nextTimer) else None)] else []
    case TryLock(t, n) => if n == m then [ETry(t)] else []
    case Unlock(t, n) => if n == m then [EUnlock(t)] else []
    case UnlockInWait(t) => if s.threads[t].wait.m == m then [EUnlock(t)] else []
    case Relock(t) => if s.threads[t].wait.m == m then [ELock(t, None)] else []
    case TimerHandler(x) => if s.timers[x].site == AtMutex(m) then [ETimeout(s.timers[x].t)] else []
    case _ => []
  }

  function Events(s: Sys, ls: seq<Label>, m: Mid): seq<Event>
    requires Exec(s, ls).Some?
    decreases |ls|
  {
    if ls == [] then [] else EventOf(s, ls[0], m) + Events(Next(s, ls[0]), ls[1..], m)
  }

  // ----- The fields of each step -----

  lemma WakeMutexes(s: Sys, w: Wake)
    ensures DoWake(s, w).mutexes == s.mutexes
  {
  }

  lemma OneEvent(ms: MutexState, ev: Event)
    ensures Run(ms, [ev]) == Apply(ms, ev) && Run(ms, []) == ms
  {
    assert [ev][1..] == [];
  }

  lemma LockMutexes(s: Sys, t: Tid, n: Mid, timed: bool)
    requires t in s.threads && n in s.mutexes
    ensures DoLock(s, t, n, timed).mutexes
         == s.mutexes[n := LockStep(s.mutexes[n], t, if timed then Some(s.nextTimer) else None).0]
  {
    hide LockStep;
  }

  lemma TryLockMutexes(s: Sys, t: Tid, n: Mid)
    requires n in s.mutexes
    ensures DoTryLock(s, t, n).mutexes == s.mutexes[n := TryLockStep(s.mutexes[n], t).0]
  {
  }

  lemma UnlockMutexes(s: Sys, t: Tid, n: Mid)
    requires t in s.threads && n in s.mutexes
    ensures DoUnlock(s, t, n).mutexes == s.mutexes[n := UnlockStep(s.mutexes[n], t).0]
  {
    hide DoWake;
    var (ms, r) := UnlockStep(s.mutexes[n], t);
    if r.Handed? { WakeMutexes(SubHeld(SetMutex(s, n, ms), t, n), WakeOf(r.e)); }
  }

  lemma CondUnlockMutexes(s: Sys, t: Tid, w: Wait)
    requires t in s.threads && w.OnCond? && w.m in s.mutexes
    ensures DoCondUnlock(s, t, w).mutexes == s.mutexes[w.m := UnlockStep(s.mutexes[w.m], t).0]
  {
    hide DoWake;
    var (ms, r) := UnlockStep(s.mutexes[w.m], t);
    if r.Handed? { WakeMutexes(SubHeld(SetMutex(s, w.m, ms), t, w.m), WakeOf(r.e)); }
  }

  lemma HandlerMutexes(s: Sys, x: TimerId)
    requires x in s.timers
    ensures DoTimerHandler(s, x).mutexes
         == if s.timers[x].site.AtMutex? && s.timers[x].site.m in s.mutexes
            then s.mutexes[s.timers[x].site.m := TimeoutStep(s.mutexes[s.timers[x].site.m], s.timers[x].t)]
            else s.mutexes
  {
    hide TimeoutStep, Erase, Cleanup;
    var s1 := s.(timers := s.timers[x := Ran(s.timers[x])]);
    HandlerParts(s, x);
    CleanupMutexes(s1, s.timers[x]);
  }

  lemma CleanupMutexes(s: Sys, tm: Timer)
    ensures Cleanup(s, tm).mutexes
         == if tm.site.AtMutex? && tm.site.m in s.mutexes
            then s.mutexes[tm.site.m := TimeoutStep(s.mutexes[tm.site.m], tm.t)]
            else s.mutexes
  {
    hide TimeoutStep, Erase, EraseMutex, EraseCond;
    if tm.site.AtMutex? && tm.site.m in s.mutexes { EraseMutexFields(s, tm.site.m, tm.t); }
    else if tm.site.AtCond? && tm.site.c in s.conds { EraseCondFields(s, tm.site.c, tm.t); }
  }

  lemma EraseMutexFields(s: Sys, m: Mid, t: Tid)
    requires m in s.mutexes
    ensures EraseMutex(s, m, t).mutexes == s.mutexes[m := TimeoutStep(s.mutexes[m], t)]
  {
    hide TimeoutStep;
  }

  lemma EraseCondFields(s: Sys, c: Cid, t: Tid)
    requires c in s.conds
    ensures EraseCond(s, c, t).mutexes == s.mutexes
  {
    hide Erase;
  }

  lemma {:induction false} PopAllMutexes(s: Sys, c: Cid)
    requires c in s.conds
    ensures PopAllWaiters(s, c).mutexes == s.mutexes
    decreases |s.conds[c]|
  {
    if s.conds[c] != [] {
      WakeMutexes(s.(conds := s.conds[c := s.conds[c][1..]]), WakeOf(s.conds[c][0]));
      PopAllMutexes(PopWaiter(s, c), c);
    }
  }

  lemma NotifyMutexes(s: Sys, who: Option<Tid>, c: Cid)
    requires c in s.conds
    ensures DoNotifyOne(s, who, c).mutexes == s.mutexes && DoNotifyAll(s, who, c).mutexes == s.mutexes
  {
    hide DoWake, PopAllWaiters;
    PopAllMutexes(s, c);
    if s.conds[c] != [] {
      WakeMutexes(s.(conds := s.conds[c := s.conds[c][1..]]), WakeOf(s.conds[c][0]));
    }
  }

  lemma SwitchMutexes(s: Sys, t: Tid, switch: bool)
    requires t in s.threads
    ensures DoPause(s, t).mutexes == s.mutexes && DoYield(s, t, switch).mutexes == s.mutexes
    ensures DoEndStep(s, t).mutexes == s.mutexes
    ensures s.threads[t].pending > 0 ==> DoActivate(s, t).mutexes == s.mutexes
  {
  }

  lemma ReturnMutexes(s: Sys, t: Tid, w: Wait)
    requires t in s.threads && (w.OnMutex? ==> w.m in s.mutexes) && (w.OnJoin? ==> w.f in s.threads)
    ensures DoReturn(s, t, w).mutexes == s.mutexes
  {
  }

  lemma CondWaitMutexes(s: Sys, t: Tid, c: Cid, m: Mid, timed: bool)
    requires t in s.threads && c in s.conds && m in s.mutexes
    ensures DoCondWait(s, t, c, m, timed).mutexes == s.mutexes
  {
  }

  lemma SwitchStepMutexes(s: Sys, l: Label)
    requires Enabled(s, l) && IsSwitch(l)
    ensures Next(s, l).mutexes == s.mutexes
  {
    hide DoPause, DoYield, DoEndStep, DoActivate, DoReturn;
    match l {
      case Pause(t) => SwitchMutexes(s, t, false);
      case UserYield(t) =>
      case Yield(t, switch) => SwitchMutexes(s, t, switch);
      case EndStep(t) => SwitchMutexes(s, t, false);
      case Activate(t) => SwitchMutexes(s, t, false);
      case Return(t) => ReturnMutexes(s, t, s.threads[t].wait);
    }
  }

  /** The steps that begin or end other waits, and those of the scheduler. */
  lemma OtherMutexes(s: Sys, l: Label)
    requires Enabled(s, l) && (IsScheduler(l) || l.Expire? || l.Sleep? || l.CondWait?)
    ensures Next(s, l).mutexes == s.mutexes
  {
    hide DoCondWait;
    if l.CondWait? { CondWaitMutexes(s, l.t, l.c, l.m, l.timed); }
  }

  lemma JoinerMutexes(s: Sys, t: Tid, f: Tid, rethrow: bool)
    requires t in s.threads && f in s.threads
    ensures DoJoinTest(s, t, f, rethrow).mutexes == s.mutexes
  {
    hide Propagate;
    PropagateMutexes(s, f);
  }

  lemma PropagateMutexes(s: Sys, f: Tid)
    ensures Propagate(s, f).mutexes == s.mutexes
  {
  }

  lemma PusherMutexes(s: Sys, t: Tid, f: Tid)
    requires t in s.threads && f in s.threads
    ensures DoJoinPush(s, t, f).mutexes == s.mutexes
  {
  }

  lemma EnderMutexes(s: Sys, f: Tid, throws: bool)
    requires f in s.threads
    ensures DoStop(s, f, throws).mutexes == s.mutexes && DoDrain(s, f).mutexes == s.mutexes
    ensures DoDrainEnd(s, f).mutexes == s.mutexes
    ensures s.threads[f].draining != [] ==> DoDrainOne(s, f).mutexes == s.mutexes
  {
  }

  lemma JoinMutexes(s: Sys, l: Label)
    requires Enabled(s, l) && IsJoin(l)
    ensures Next(s, l).mutexes == s.mutexes
  {
    hide DoJoinTest, DoJoinPush, DoStop, DoDrain, DoDrainOne, DoDrainEnd;
    match l {
      case JoinTest(t, f, rethrow) => JoinerMutexes(s, t, f, rethrow);
      case JoinPush(t) => PusherMutexes(s, t, s.threads[t].wait.f);
      case Stop(t, throws) => EnderMutexes(s, t, throws);
      case Drain(f) => EnderMutexes(s, f, false);
      case DrainOne(f) => EnderMutexes(s, f, false);
      case DrainEnd(f) => EnderMutexes(s, f, false);
    }
  }

  // ----- Steps and runs -----

  lemma MutexStep(s: Sys, l: Label, m: Mid)
    requires Enabled(s, l) && IsMutex(l) && m in s.mutexes
    ensures m in Next(s, l).mutexes && Next(s, l).mutexes[m] == Run(s.mutexes[m], EventOf(s, l, m))
  {
    hide DoLock, DoTryLock, DoUnlock, LockStep, TryLockStep, UnlockStep;
    match l {
      case Lock(t, n, timed) =>
        LockMutexes(s, t, n, timed);
        OneEvent(s.mutexes[m], ELock(t, if timed then Some(s.nextTimer) else None));
      case TryLock(t, n) => TryLockMutexes(s, t, n); OneEvent(s.mutexes[m], ETry(t));
      case Unlock(t, n) => UnlockMutexes(s, t, n); OneEvent(s.mutexes[m], EUnlock(t));
    }
  }

  lemma WaitStep(s: Sys, l: Label, m: Mid)
    requires Enabled(s, l) && (l.UnlockInWait? || l.Relock? || l.TimerHandler?) && m in s.mutexes
    ensures m in Next(s, l).mutexes && Next(s, l).mutexes[m] == Run(s.mutexes[m], EventOf(s, l, m))
  {
    hide DoLock, DoCondUnlock, DoTimerHandler, LockStep, UnlockStep, TimeoutStep;
    match l {
      case UnlockInWait(t) => CondUnlockMutexes(s, t, s.threads[t].wait); OneEvent(s.mutexes[m], EUnlock(t));
      case Relock(t) =>
        LockMutexes(Leave(s, t), t, s.threads[t].wait.m, false);
        OneEvent(s.mutexes[m], ELock(t, None));
      case TimerHandler(x) => HandlerMutexes(s, x); OneEvent(s.mutexes[m], ETimeout(s.timers[x].t));
    }
  }

  lemma StepIsEvent(s: Sys, l: Label, m: Mid)
    requires Enabled(s, l) && m in s.mutexes
    ensures m in Next(s, l).mutexes && Next(s, l).mutexes[m] == Run(s.mutexes[m], EventOf(s, l, m))
  {
    hide DoNotifyOne, DoNotifyAll;
    if IsMutex(l) { MutexStep(s, l, m); }
    else if l.UnlockInWait? || l.Relock? || l.TimerHandler? { WaitStep(s, l, m); }
    else if l.NotifyOne? || l.NotifyAll? { NotifyMutexes(s, l.who, l.c); }
    else if IsJoin(l) { JoinMutexes(s, l); }
    else if IsSwitch(l) { SwitchStepMutexes(s, l); }
    else { OtherMutexes(s, l); }
  }

  lemma {:induction false} RunSplit(ms: MutexState, a: seq<Event>, b: seq<Event>)
    ensures Run(ms, a + b) == Run(Run(ms, a), b)
    decreases |a|
  {
    if a == [] {
      assert a + b == b;
    } else {
      RunSplit(Apply(ms, a[0]), a[1..], b);
      assert (a + b)[1..] == a[1..] + b;
    }
  }

  /** What a run of the system does to a mutex is a run of the mutex. */
  lemma {:induction false} ExecIsRun(s: Sys, ls: seq<Label>, m: Mid)
    requires Exec(s, ls).Some? && m in s.mutexes
    ensures m in Exec(s, ls).value.mutexes
    ensures Exec(s, ls).value.mutexes[m] == Run(s.mutexes[m], Events(s, ls, m))
    decreases |ls|
  {
    hide EventOf, Enabled, Next;
    if ls != [] {
      StepIsEvent(s, ls[0], m);
      ExecIsRun(Next(s, ls[0]), ls[1..], m);
      RunSplit(s.mutexes[m], EventOf(s, ls[0], m), Events(Next(s, ls[0]), ls[1..], m));
    }
  }

  /** First in, first out, in every run of the system in which no timed lock of m times out: the threads
      queued, then those that enqueue, are those handed the mutex, then those still queued. */
  lemma SystemIsFifo(s: Sys, ls: seq<Label>, m: Mid)
    requires Exec(s, ls).Some? && m in s.mutexes && NoTimeouts(Events(s, ls, m))
    ensures m in Exec(s, ls).value.mutexes
    ensures var evs := Events(s, ls, m);
      Tids(s.mutexes[m].queue) + Arrivals(s.mutexes[m], evs)
      == Grants(s.mutexes[m], evs) + Tids(Exec(s, ls).value.mutexes[m].queue)
  {
    ExecIsRun(s, ls, m);
    HandOffIsFifo(s.mutexes[m], Events(s, ls, m));
  }

  /** With timeouts of others: a waiter at position k that does not time out is handed the mutex by the
      (k+1)-th hand-off of the run at the latest. */
  lemma SystemServesWaiter(s: Sys, ls: seq<Label>, m: Mid, k: nat) returns (i: nat)
    requires Exec(s, ls).Some? && m in s.mutexes && k < |s.mutexes[m].queue|
    requires NeverTimesOut(Events(s, ls, m), s.mutexes[m].queue[k].t)
    ensures m in Exec(s, ls).value.mutexes
    ensures var g, q := Grants(s.mutexes[m], Events(s, ls, m)), Exec(s, ls).value.mutexes[m].queue;
      var e := s.mutexes[m].queue[k];
      (i <= k && i < |g| && g[i] == e.t) || (i < |q| && q[i] == e && i + |g| <= k)
  {
    ExecIsRun(s, ls, m);
    i := WaiterWithTimeouts(s.mutexes[m], Events(s, ls, m), k);
  }
}
