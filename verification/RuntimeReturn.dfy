/** Acquiring a mutex, leaving a call after its pause, and the handlers of timers. */
module RuntimeReturn {
  import opened Basics
  import opened MutexModel
  import opened Runtime
  import opened RuntimeInvariant
  import opened RuntimeFrames
  import opened RuntimeWake

  // ----- Acquiring -----

  function Acquire(s: Sys, t: Tid, m: Mid): Sys
    requires m in s.mutexes
  {
    AddHeld(SetMutex(s, m, s.mutexes[m].(owner := Some(t), level := s.mutexes[m].level + 1)), t, m)
  }

  predicate CanAcquire(s: Sys, t: Tid, m: Mid) {
    && At(s, t, Running) && s.threads[t].wait.NoWait? && m in s.mutexes
    && (s.mutexes[m].owner.None? || (s.mutexes[m].owner == Some(t) && s.mutexes[m].recursive))
  }

  lemma AcquireThreads(s: Sys, t: Tid, m: Mid)
    requires CanAcquire(s, t, m) && ThreadsOk(s)
    ensures ThreadsOk(Acquire(s, t, m))
  {
    var s' := Acquire(s, t, m);
    var ms := s.mutexes[m].(owner := Some(t), level := s.mutexes[m].level + 1);
    assert ViewOf(s', t) == ViewOf(s, t);
    forall u | u in s.threads && u != t ensures Unaffected(s, s', u) { SectionOther(s, s', m, ms, u); }
    OthersOk(s, s', t, t);
  }

  lemma AcquireQueues(s: Sys, t: Tid, m: Mid)
    requires CanAcquire(s, t, m) && QueuesOk(s)
    ensures QueuesOk(Acquire(s, t, m))
  {
    var s' := Acquire(s, t, m);
    assert MutexQueueOk(s, m);
    forall n | n in s'.mutexes && n != m ensures MutexQueueOk(s', n) { KeepMutex(s, s', t, n); }
    forall c | c in s'.conds ensures CondQueueOk(s', c) { KeepCond(s, s', t, c); }
    forall f | f in s'.threads ensures JoinQueueOk(s', f) { KeepJoin(s, s', t, f); }
    forall x | x in s'.timers ensures TimerOwned(s', x) { assert TimerOwned(s, x); }
  }

  lemma AcquireHeld(s: Sys, t: Tid, m: Mid)
    requires CanAcquire(s, t, m) && HeldOk(s) && MutexQueueOk(s, m)
    ensures HeldOk(Acquire(s, t, m))
  {
    var s' := Acquire(s, t, m);
    forall u: Tid, n: Mid ensures Held(s', u, n) == ExpectedHeld(s', u, n) {
      assert Held(s, u, n) == ExpectedHeld(s, u, n);
    }
  }

  lemma AcquireInv(s: Sys, t: Tid, m: Mid)
    requires CanAcquire(s, t, m) && Inv(s)
    ensures Inv(Acquire(s, t, m))
  {
    AcquireThreads(s, t, m);
    AcquireQueues(s, t, m);
    assert MutexQueueOk(s, m);
    AcquireHeld(s, t, m);
    SchedFrame(s, Acquire(s, t, m));
  }

  // ----- Leaving a call -----

  /** What an awake thread knows: its timer has run and no queue has it. */
  lemma AwakeFacts(v: View)
    requires Ok(v) && v.th.stage.Woken?
    ensures !v.entry && v.th.pending == 0 && v.th.phase == OnCpu && !Unrun(v.timer)
    ensures v.th.wait.OnMutex? && v.th.wait.timer.None? ==> v.owns
    ensures v.th.wait.OnJoin? ==> v.joineeStopped
  {
  }

  lemma LeaveSelf(s: Sys, t: Tid)
    requires At(s, t, Woken) && Ok(ViewOf(s, t))
    ensures Ok(ViewOf(Leave(s, t), t))
  {
    AwakeFacts(ViewOf(s, t));
  }

  lemma DropOther(s: Sys, timer: Option<TimerId>, t: Tid, u: Tid)
    requires u in s.threads && u != t && (timer.Some? ==> timer.value in s.timers && s.timers[timer.value].t == t)
    ensures Unaffected(s, Drop(s, timer), u)
  {
  }

  lemma MoveOther(s: Sys, s': Sys, t: Tid, stage: Stage, w: Wait, u: Tid)
    requires t in s.threads && s' == Move(s, t, stage, w)
    requires !stage.Stopped? && !s.threads[t].stage.Stopped? && u in s.threads && u != t
    ensures Unaffected(s, s', u)
  {
  }

  lemma LeaveOther(s: Sys, t: Tid, u: Tid)
    requires At(s, t, Woken) && TimerBound(s, t) && u in s.threads && u != t
    ensures Unaffected(s, Leave(s, t), u)
  {
    var s1 := Drop(s, TimerOf(s.threads[t].wait));
    DropOther(s, TimerOf(s.threads[t].wait), t, u);
    MoveOther(s1, Leave(s, t), t, Running, NoWait, u);
    UnaffectedTrans(s, s1, Leave(s, t), u);
  }

  lemma LeaveThreads(s: Sys, t: Tid)
    requires ThreadsOk(s) && At(s, t, Woken)
    ensures ThreadsOk(Leave(s, t))
  {
    OkBound(s, t);
    LeaveSelf(s, t);
    forall u | u in s.threads && u != t ensures Unaffected(s, Leave(s, t), u) { LeaveOther(s, t, u); }
    OthersOk(s, Leave(s, t), t, t);
  }

  /** A thread without an entry for its own wait is in no queue at all. */
  lemma NoEntryNotQueued(s: Sys, t: Tid)
    requires QueuesOk(s) && t in s.threads && !HasEntry(s, t, s.threads[t].wait)
    ensures forall m :: m in s.mutexes ==> !Waits(s.mutexes[m].queue, t)
    ensures forall c :: c in s.conds ==> !Waits(s.conds[c], t)
    ensures forall f :: f in s.threads ==> !InJoinQueue(s.threads[f], t)
    ensures forall x :: x in s.timers && s.timers[x].t == t ==> TimerOf(s.threads[t].wait) == Some(x)
  {
    forall m | m in s.mutexes ensures !Waits(s.mutexes[m].queue, t) {
      assert MutexQueueOk(s, m);
      WaitsEntry(s.mutexes[m].queue, t);
    }
    forall c | c in s.conds ensures !Waits(s.conds[c], t) {
      assert CondQueueOk(s, c);
      WaitsEntry(s.conds[c], t);
    }
    forall f | f in s.threads ensures !InJoinQueue(s.threads[f], t) {
      assert JoinQueueOk(s, f);
    }
    forall x | x in s.timers && s.timers[x].t == t ensures TimerOf(s.threads[t].wait) == Some(x) {
      assert TimerOwned(s, x);
    }
  }

  lemma DropQueues(s: Sys, timer: Option<TimerId>)
    requires QueuesOk(s)
    ensures QueuesOk(Drop(s, timer))
  {
    var s' := Drop(s, timer);
    forall m | m in s'.mutexes ensures MutexQueueOk(s', m) { assert MutexQueueOk(s, m); }
    forall c | c in s'.conds ensures CondQueueOk(s', c) { assert CondQueueOk(s, c); }
    forall f | f in s'.threads ensures JoinQueueOk(s', f) { assert JoinQueueOk(s, f); }
    forall y | y in s'.timers ensures TimerOwned(s', y) { assert TimerOwned(s, y); }
  }

  lemma MoveQueues(s: Sys, s': Sys, t: Tid, stage: Stage, w: Wait)
    requires QueuesOk(s) && Free(s, t) && s' == Move(s, t, stage, w) && !stage.Stopped? && !s.threads[t].stage.Stopped?
    ensures QueuesOk(s')
  {
    forall f | f in s.threads ensures JoinQueueOk(s', f) { KeepJoin(s, s', t, f); }
    KeepQueues(s, s', t);
  }

  lemma LeaveFree(s: Sys, t: Tid)
    requires QueuesOk(s) && At(s, t, Woken) && !HasEntry(s, t, s.threads[t].wait)
    ensures Free(Drop(s, TimerOf(s.threads[t].wait)), t)
  {
    NoEntryNotQueued(s, t);
  }

  lemma LeaveQueues(s: Sys, t: Tid)
    requires QueuesOk(s) && At(s, t, Woken) && !HasEntry(s, t, s.threads[t].wait)
    ensures QueuesOk(Leave(s, t))
  {
    var s1 := Drop(s, TimerOf(s.threads[t].wait));
    DropQueues(s, TimerOf(s.threads[t].wait));
    LeaveFree(s, t);
    MoveQueues(s1, Leave(s, t), t, Running, NoWait);
  }

  lemma LeaveSched(s: Sys, t: Tid)
    requires SchedOk(s) && t in s.threads
    ensures SchedOk(Leave(s, t))
  {
    SchedFrame(s, Leave(s, t));
  }

  lemma LeaveRest(s: Sys, t: Tid)
    requires Rest(s) && At(s, t, Woken) && !s.threads[t].wait.OnMutex? && !HasEntry(s, t, s.threads[t].wait)
    ensures Rest(Leave(s, t))
  {
    LeaveQueues(s, t);
    HeldFrame(s, Leave(s, t));
    LeaveSched(s, t);
  }

  lemma LeaveInv(s: Sys, t: Tid)
    requires Inv(s) && At(s, t, Woken) && !s.threads[t].wait.OnMutex?
    ensures Inv(Leave(s, t))
  {
    ThreadOk(s, t);
    AwakeFacts(ViewOf(s, t));
    LeaveThreads(s, t);
    LeaveRest(s, t);
  }

  /** lock() and try_lock_rel() after the pause: the owner counts its acquisition from now on. */
  function LeaveMutex(s: Sys, t: Tid): Sys
    requires t in s.threads && s.threads[t].wait.OnMutex? && s.threads[t].wait.m in s.mutexes
  {
    var m := s.threads[t].wait.m;
    if s.mutexes[m].owner == Some(t) then AddHeld(Leave(s, t), t, m) else Leave(s, t)
  }

  lemma LeaveMutexHeld(s: Sys, s': Sys, t: Tid, m: Mid)
    requires t in s.threads && s.threads[t].wait.OnMutex? && s.threads[t].wait.m == m && m in s.mutexes && HeldOk(s)
    requires s'.mutexes == s.mutexes && s'.threads.Keys == s.threads.Keys && s'.threads[t].wait.NoWait?
    requires forall u :: u in s.threads && u != t ==> s'.threads[u] == s.threads[u]
    requires s'.held == if s.mutexes[m].owner == Some(t) then s.held[(t, m) := Held(s, t, m) + 1] else s.held
    ensures HeldOk(s')
  {
    forall u: Tid, n: Mid ensures Held(s', u, n) == ExpectedHeld(s', u, n) {
      assert Held(s, u, n) == ExpectedHeld(s, u, n);
    }
  }

  lemma HistoryInv(s: Sys, s': Sys)
    requires ThreadsOk(s) && QueuesOk(s) && SchedOk(s) && s' == s.(held := s'.held)
    ensures ThreadsOk(s') && QueuesOk(s') && SchedOk(s')
  {
    forall u | u in s'.threads ensures Ok(ViewOf(s', u)) {
      HistoryOther(s, s'.held, u);
      SameView(s, s', u);
    }
    forall m | m in s'.mutexes ensures MutexQueueOk(s', m) { assert MutexQueueOk(s, m); }
    forall c | c in s'.conds ensures CondQueueOk(s', c) { assert CondQueueOk(s, c); }
    forall f | f in s'.threads ensures JoinQueueOk(s', f) { assert JoinQueueOk(s, f); }
    forall x | x in s'.timers ensures TimerOwned(s', x) { assert TimerOwned(s, x); }
    SchedFrame(s, s');
  }

  lemma LeaveMutexFields(s: Sys, s': Sys, t: Tid, m: Mid)
    requires t in s.threads && s.threads[t].wait.OnMutex? && s.threads[t].wait.m == m && m in s.mutexes
    requires s' == LeaveMutex(s, t)
    ensures s'.mutexes == s.mutexes && s'.threads == s.threads[t := s.threads[t].(stage := Running, wait := NoWait)]
    ensures s'.held == if s.mutexes[m].owner == Some(t) then s.held[(t, m) := Held(s, t, m) + 1] else s.held
  {
  }

  lemma LeaveMutexCounts(s: Sys, s': Sys, t: Tid)
    requires At(s, t, Woken) && s.threads[t].wait.OnMutex? && s.threads[t].wait.m in s.mutexes && HeldOk(s)
    requires s' == LeaveMutex(s, t)
    ensures HeldOk(s')
  {
    LeaveMutexFields(s, s', t, s.threads[t].wait.m);
    LeaveMutexHeld(s, s', t, s.threads[t].wait.m);
  }

  lemma LeaveMutexInv(s: Sys, t: Tid)
    requires Inv(s) && At(s, t, Woken) && s.threads[t].wait.OnMutex? && s.threads[t].wait.m in s.mutexes
    ensures Inv(LeaveMutex(s, t))
  {
    ThreadOk(s, t);
    AwakeFacts(ViewOf(s, t));
    LeaveThreads(s, t);
    LeaveQueues(s, t);
    LeaveSched(s, t);
    LeaveMutexCounts(s, LeaveMutex(s, t), t);
    HistoryInv(Leave(s, t), LeaveMutex(s, t));
  }

  // ----- Timers -----

  lemma ExpireOk(v: View)
    requires Ok(v) && v.timer.Some? && v.timer.value.phase == Armed && TimerOf(v.th.wait).Some?
    ensures Ok(v.(timer := Some(v.timer.value.(phase := Expired, expired := true))))
  {
  }

  lemma SetTimerOther(s: Sys, x: TimerId, tm: Timer, u: Tid)
    requires x in s.timers && s.timers[x].t != u && u in s.threads
    ensures Unaffected(s, s.(timers := s.timers[x := tm]), u)
  {
  }

  lemma SetTimerView(s: Sys, x: TimerId, tm: Timer, t: Tid)
    requires t in s.threads && TimerOf(s.threads[t].wait) == Some(x) && x in s.timers
    ensures ViewOf(s.(timers := s.timers[x := tm]), t) == ViewOf(s, t).(timer := Some(tm))
  {
  }

  lemma SetTimerQueues(s: Sys, x: TimerId, tm: Timer)
    requires QueuesOk(s) && x in s.timers && tm.t == s.timers[x].t
    ensures QueuesOk(s.(timers := s.timers[x := tm]))
  {
    var s' := s.(timers := s.timers[x := tm]);
    forall m | m in s'.mutexes ensures MutexQueueOk(s', m) { assert MutexQueueOk(s, m); }
    forall c | c in s'.conds ensures CondQueueOk(s', c) { assert CondQueueOk(s, c); }
    forall f | f in s'.threads ensures JoinQueueOk(s', f) { assert JoinQueueOk(s, f); }
    forall y | y in s'.timers ensures TimerOwned(s', y) { assert TimerOwned(s, y); }
  }

  lemma StepExpire(s: Sys, x: TimerId)
    requires Inv(s) && x in s.timers && s.timers[x].phase == Armed
    ensures Inv(DoExpire(s, x))
  {
    var s', t := DoExpire(s, x), s.timers[x].t;
    assert TimerOwned(s, x);
    ThreadOk(s, t);
    SetTimerView(s, x, s'.timers[x], t);
    ExpireOk(ViewOf(s, t));
    forall u | u in s.threads && u != t ensures Unaffected(s, s', u) { SetTimerOther(s, x, s'.timers[x], u); }
    OthersOk(s, s', t, t);
    SetTimerQueues(s, x, s'.timers[x]);
    HeldWaits(s, s');
    SchedFrame(s, s');
  }

  predicate Handling(s: Sys, x: TimerId) {
    && x in s.timers && s.timers[x].t in s.threads && s.timers[x].phase in {Expired, Cancelled}
    && TimerOf(s.threads[s.timers[x].t].wait) == Some(x) && s.timers[x].site == SiteOf(s.threads[s.timers[x].t].wait)
  }

  function Ran(tm: Timer): Timer {
    tm.(phase := Done, timedOut := tm.site.AtCond? && tm.phase == Expired)
  }

  // The queue part of a handler, at a mutex and at a condition.

  function EraseMutex(s: Sys, m: Mid, t: Tid): Sys
    requires m in s.mutexes
  {
    SetMutex(s, m, TimeoutStep(s.mutexes[m], t))
  }

  function EraseCond(s: Sys, c: Cid, t: Tid): Sys
    requires c in s.conds
  {
    s.(conds := s.conds[c := Erase(s.conds[c], t)])
  }

  function Cleanup(s: Sys, tm: Timer): Sys {
    match tm.site
    case AtMutex(m) => if m in s.mutexes then EraseMutex(s, m, tm.t) else s
    case AtCond(c) => if c in s.conds && tm.phase == Expired then EraseCond(s, c, tm.t) else s
    case AtSleep => s
  }

  lemma HandlerParts(s: Sys, x: TimerId)
    requires x in s.timers
    ensures DoTimerHandler(s, x)
         == Post(Cleanup(s.(timers := s.timers[x := Ran(s.timers[x])]), s.timers[x]), s.timers[x].t)
  {
  }

  lemma EraseMutexOther(s: Sys, m: Mid, t: Tid, u: Tid)
    requires m in s.mutexes && Distinct(s.mutexes[m].queue) && u in s.threads && u != t
    ensures Unaffected(s, EraseMutex(s, m, t), u)
  {
    EraseWaits(s.mutexes[m].queue, t);
    SetMutexOther(s, m, TimeoutStep(s.mutexes[m], t), u);
  }

  lemma EraseCondOther(s: Sys, c: Cid, t: Tid, u: Tid)
    requires c in s.conds && Distinct(s.conds[c]) && u in s.threads && u != t
    ensures Unaffected(s, EraseCond(s, c, t), u)
  {
    EraseWaits(s.conds[c], t);
  }

  lemma EraseMutexQueues(s: Sys, m: Mid, t: Tid)
    requires m in s.mutexes && t in s.threads && QueuesOk(s)
    ensures QueuesOk(EraseMutex(s, m, t))
  {
    var s' := EraseMutex(s, m, t);
    assert MutexQueueOk(s, m);
    EraseWaits(s.mutexes[m].queue, t);
    EraseRemoves(s.mutexes[m].queue, t);
    forall n | n in s'.mutexes && n != m ensures MutexQueueOk(s', n) { assert MutexQueueOk(s, n); }
    forall c | c in s'.conds ensures CondQueueOk(s', c) { assert CondQueueOk(s, c); }
    forall f | f in s'.threads ensures JoinQueueOk(s', f) { assert JoinQueueOk(s, f); }
    forall y | y in s'.timers ensures TimerOwned(s', y) { assert TimerOwned(s, y); }
  }

  lemma EraseCondQueues(s: Sys, c: Cid, t: Tid)
    requires c in s.conds && t in s.threads && QueuesOk(s)
    ensures QueuesOk(EraseCond(s, c, t))
  {
    var s' := EraseCond(s, c, t);
    assert CondQueueOk(s, c);
    EraseWaits(s.conds[c], t);
    EraseRemoves(s.conds[c], t);
    forall n | n in s'.mutexes ensures MutexQueueOk(s', n) { assert MutexQueueOk(s, n); }
    forall d | d in s'.conds && d != c ensures CondQueueOk(s', d) { assert CondQueueOk(s, d); }
    forall f | f in s'.threads ensures JoinQueueOk(s', f) { assert JoinQueueOk(s, f); }
    forall y | y in s'.timers ensures TimerOwned(s', y) { assert TimerOwned(s, y); }
  }

  lemma CleanupOther(s: Sys, tm: Timer, u: Tid)
    requires QueuesOk(s) && u in s.threads && u != tm.t
    ensures Unaffected(s, Cleanup(s, tm), u)
  {
    if tm.site.AtMutex? && tm.site.m in s.mutexes {
      assert MutexQueueOk(s, tm.site.m);
      EraseMutexOther(s, tm.site.m, tm.t, u);
    } else if tm.site.AtCond? && tm.site.c in s.conds {
      assert CondQueueOk(s, tm.site.c);
      EraseCondOther(s, tm.site.c, tm.t, u);
    }
  }

  lemma CleanupQueues(s: Sys, tm: Timer)
    requires QueuesOk(s) && tm.t in s.threads
    ensures QueuesOk(Cleanup(s, tm))
  {
    if tm.site.AtMutex? && tm.site.m in s.mutexes {
      EraseMutexQueues(s, tm.site.m, tm.t);
    } else if tm.site.AtCond? && tm.site.c in s.conds {
      EraseCondQueues(s, tm.site.c, tm.t);
    }
  }

  /** The handler's thread: its entry is gone whoever removed it, and an activation is posted. */
  lemma HandledOk(v: View, v': View)
    requires Ok(v) && TimerOf(v.th.wait).Some? && v.timer.Some? && v.timer.value.phase in {Expired, Cancelled}
    requires v' == v.(th := v.th.(pending := v.th.pending + 1), timer := Some(Ran(v.timer.value)), entry := false)
    ensures Ok(v')
  {
  }

  lemma EraseMutexView(s: Sys, m: Mid, t: Tid)
    requires t in s.threads && m in s.mutexes && s.threads[t].wait.OnMutex? && s.threads[t].wait.m == m
    requires Distinct(s.mutexes[m].queue) && (s.mutexes[m].owner == Some(t) ==> !Waits(s.mutexes[m].queue, t))
    ensures ViewOf(EraseMutex(s, m, t), t) == ViewOf(s, t).(entry := false)
  {
    EraseWaits(s.mutexes[m].queue, t);
  }

  lemma EraseCondView(s: Sys, c: Cid, t: Tid)
    requires t in s.threads && c in s.conds && s.threads[t].wait.OnCond? && s.threads[t].wait.c == c
    requires Distinct(s.conds[c])
    ensures ViewOf(EraseCond(s, c, t), t) == ViewOf(s, t).(entry := false)
  {
    EraseWaits(s.conds[c], t);
  }

  lemma CleanupSelf(s: Sys, tm: Timer)
    requires tm.t in s.threads && QueuesOk(s) && Known(s, s.threads[tm.t].wait)
    requires TimerOf(s.threads[tm.t].wait).Some? && tm.site == SiteOf(s.threads[tm.t].wait)
    requires tm.phase == Expired || tm.site.AtMutex? || !HasEntry(s, tm.t, s.threads[tm.t].wait)
    ensures tm.t in Cleanup(s, tm).threads
    ensures ViewOf(Cleanup(s, tm), tm.t) == ViewOf(s, tm.t).(entry := false)
  {
    var w := s.threads[tm.t].wait;
    if w.OnMutex? {
      assert MutexQueueOk(s, w.m);
      EraseMutexView(s, w.m, tm.t);
    } else if w.OnCond? && tm.phase == Expired {
      assert CondQueueOk(s, w.c);
      EraseCondView(s, w.c, tm.t);
    }
  }

  lemma PostView(s: Sys, t: Tid)
    requires t in s.threads
    ensures t in Post(s, t).threads
    ensures s.threads[t].wait.OnJoin? ==> s.threads[t].wait.f != t
    ensures ViewOf(Post(s, t), t) == ViewOf(s, t).(th := s.threads[t].(pending := s.threads[t].pending + 1))
    requires s.threads[t].wait.OnJoin? ==> s.threads[t].wait.f != t
  {
  }

  lemma HandlerSelf(s: Sys, x: TimerId)
    requires Handling(s, x) && Ok(ViewOf(s, s.timers[x].t)) && QueuesOk(s)
    ensures s.timers[x].t in DoTimerHandler(s, x).threads
    ensures Ok(ViewOf(DoTimerHandler(s, x), s.timers[x].t))
  {
    var tm, t, s' := s.timers[x], s.timers[x].t, DoTimerHandler(s, x);
    var s1 := s.(timers := s.timers[x := Ran(tm)]);
    HandlerParts(s, x);
    assert TimerFits(ViewOf(s, t));
    OkBound(s, t);
    SetTimerView(s, x, Ran(tm), t);
    SetTimerQueues(s, x, Ran(tm));
    CleanupSelf(s1, tm);
    PostView(Cleanup(s1, tm), t);
    HandledOk(ViewOf(s, t), ViewOf(s', t));
  }

  lemma HandlerOther(s: Sys, x: TimerId, u: Tid)
    requires Handling(s, x) && QueuesOk(s) && u in s.threads && u != s.timers[x].t
    ensures Unaffected(s, DoTimerHandler(s, x), u)
  {
    var tm, s' := s.timers[x], DoTimerHandler(s, x);
    var s1 := s.(timers := s.timers[x := Ran(tm)]);
    var s2 := Cleanup(s1, tm);
    HandlerParts(s, x);
    SetTimerOther(s, x, Ran(tm), u);
    SetTimerQueues(s, x, Ran(tm));
    CleanupOther(s1, tm, u);
    PostOther(s2, tm.t, u);
    UnaffectedTrans(s, s1, s2, u);
    UnaffectedTrans(s, s2, s', u);
  }

  lemma HandlerThreads(s: Sys, x: TimerId)
    requires Handling(s, x) && ThreadsOk(s) && QueuesOk(s)
    ensures ThreadsOk(DoTimerHandler(s, x))
  {
    HandlerSelf(s, x);
    forall u | u in s.threads && u != s.timers[x].t ensures Unaffected(s, DoTimerHandler(s, x), u) {
      HandlerOther(s, x, u);
    }
    HandlerFields(s, DoTimerHandler(s, x), x);
    OthersOk(s, DoTimerHandler(s, x), s.timers[x].t, s.timers[x].t);
  }

  lemma EraseMutexCounts(s: Sys, m: Mid, t: Tid)
    requires m in s.mutexes
    ensures SameCounts(s, EraseMutex(s, m, t))
  {
    var ms, ms' := s.mutexes[m], TimeoutStep(s.mutexes[m], t);
    assert ms'.owner == ms.owner && ms'.level == ms.level;
  }

  lemma EraseCondCounts(s: Sys, c: Cid, t: Tid)
    requires c in s.conds
    ensures SameCounts(s, EraseCond(s, c, t))
  {
  }

  lemma CleanupCounts(s: Sys, tm: Timer)
    ensures SameCounts(s, Cleanup(s, tm))
  {
    if tm.site.AtMutex? && tm.site.m in s.mutexes {
      EraseMutexCounts(s, tm.site.m, tm.t);
    } else if tm.site.AtCond? && tm.site.c in s.conds && tm.phase == Expired {
      EraseCondCounts(s, tm.site.c, tm.t);
    }
  }

  lemma HandlerFields(s: Sys, s': Sys, x: TimerId)
    requires Handling(s, x) && s' == DoTimerHandler(s, x)
    ensures SameCounts(s, s')
  {
    HandlerParts(s, x);
    CleanupCounts(s.(timers := s.timers[x := Ran(s.timers[x])]), s.timers[x]);
  }

  lemma HandlerQueues(s: Sys, x: TimerId)
    requires Handling(s, x) && QueuesOk(s)
    ensures QueuesOk(DoTimerHandler(s, x))
  {
    var s1 := s.(timers := s.timers[x := Ran(s.timers[x])]);
    HandlerParts(s, x);
    SetTimerQueues(s, x, Ran(s.timers[x]));
    CleanupQueues(s1, s.timers[x]);
    PostQueues(Cleanup(s1, s.timers[x]), s.timers[x].t);
  }

  lemma HandlerCounts(s: Sys, s': Sys, x: TimerId)
    requires Handling(s, x) && HeldOk(s) && SchedOk(s) && s' == DoTimerHandler(s, x)
    ensures HeldOk(s') && SchedOk(s')
  {
    HandlerFields(s, s', x);
    CountsKept(s, s');
  }

  lemma StepTimerHandler(s: Sys, x: TimerId)
    requires Inv(s) && CanHandle(s, x)
    ensures Inv(DoTimerHandler(s, x))
  {
    assert TimerOwned(s, x);
    ThreadOk(s, s.timers[x].t);
    assert TimerFits(ViewOf(s, s.timers[x].t));
    HandlerThreads(s, x);
    HandlerQueues(s, x);
    HandlerCounts(s, DoTimerHandler(s, x), x);
  }
}
