/** Joining, stopping, draining the join queue, creation and exit keep the invariant. */
module RuntimeJoin {
  import opened Basics
  import opened Runtime
  import opened RuntimeInvariant
  import opened RuntimeFrames
  import opened RuntimeWake
  import opened RuntimeReturn
  import opened RuntimeSteps

  // ----- The joiner -----

  lemma PropagateOk(v: View)
    requires Ok(v) && v.th.exc
    ensures Ok(v.(th := v.th.(exc := false, rethrown := v.th.rethrown + 1)))
  {
  }

  /** A change of the exception fields of f is seen by nobody else. */
  lemma PropagateInv(s: Sys, f: Tid)
    requires Inv(s)
    ensures Inv(Propagate(s, f))
  {
    if f in s.threads && s.threads[f].exc {
      ThreadOk(s, f);
      PropagateView(s, Propagate(s, f), f);
      PropagateOk(ViewOf(s, f));
      LocalInv(s, Propagate(s, f), f);
    }
  }

  lemma PropagateView(s: Sys, s': Sys, f: Tid)
    requires f in s.threads && Ok(ViewOf(s, f)) && s.threads[f].exc && s' == Propagate(s, f)
    ensures LocalStep(s, s', f)
    ensures ViewOf(s', f) == ViewOf(s, f).(th := s.threads[f].(exc := false, rethrown := s.threads[f].rethrown + 1))
  {
    assert WaitFits(ViewOf(s, f));
  }

  function LockJoin(s: Sys, t: Tid, f: Tid, rethrow: bool): Sys
    requires t in s.threads && f in s.threads
  {
    Move(Put(s, f, s.threads[f].(joinLock := Some(t))), t, Joining, OnJoin(f, rethrow))
  }

  predicate CanLockJoin(s: Sys, t: Tid, f: Tid) {
    && At(s, t, Running) && s.threads[t].wait.NoWait? && f in s.threads && f != t
    && s.threads[f].joinLock.None? && !s.threads[f].stage.Stopped?
  }

  lemma LockJoinOther(s: Sys, t: Tid, f: Tid, rethrow: bool, u: Tid)
    requires CanLockJoin(s, t, f) && u in s.threads && u != t && u != f
    ensures Unaffected(s, LockJoin(s, t, f, rethrow), u)
  {
  }

  lemma LockJoinSelf(s: Sys, s': Sys, t: Tid, f: Tid, rethrow: bool)
    requires CanLockJoin(s, t, f) && Ok(ViewOf(s, t)) && s' == LockJoin(s, t, f, rethrow)
    requires !InJoinQueue(s.threads[f], t)
    ensures Ok(ViewOf(s', t))
  {
  }

  lemma LockJoinTarget(s: Sys, s': Sys, t: Tid, f: Tid, rethrow: bool)
    requires CanLockJoin(s, t, f) && Ok(ViewOf(s, f)) && s' == LockJoin(s, t, f, rethrow)
    ensures Ok(ViewOf(s', f))
  {
    assert WaitFits(ViewOf(s, f));
    assert ViewOf(s', f) == ViewOf(s, f).(th := s.threads[f].(joinLock := Some(t)));
  }

  lemma LockJoinFields(s: Sys, s': Sys, t: Tid, f: Tid, rethrow: bool)
    requires CanLockJoin(s, t, f) && s' == LockJoin(s, t, f, rethrow)
    ensures s' == s.(threads := s'.threads) && s'.threads.Keys == s.threads.Keys && WaitsKept(s, s', t)
    ensures forall g :: g in s.threads ==>
      && s'.threads[g].joinQueue == s.threads[g].joinQueue && s'.threads[g].draining == s.threads[g].draining
      && s'.threads[g].phase == s.threads[g].phase && Drained(s'.threads[g]) == Drained(s.threads[g])
  {
  }

  lemma LockJoinQueues(s: Sys, s': Sys, t: Tid, f: Tid, rethrow: bool)
    requires CanLockJoin(s, t, f) && QueuesOk(s) && s' == LockJoin(s, t, f, rethrow)
    ensures QueuesOk(s')
  {
    NotQueued(s, t);
    LockJoinFields(s, s', t, f, rethrow);
    forall g | g in s.threads ensures JoinQueueOk(s', g) { KeepJoin(s, s', t, g); }
    KeepQueues(s, s', t);
  }

  lemma LockJoinCounts(s: Sys, t: Tid, f: Tid, rethrow: bool)
    requires CanLockJoin(s, t, f) && HeldOk(s) && SchedOk(s)
    ensures HeldOk(LockJoin(s, t, f, rethrow)) && SchedOk(LockJoin(s, t, f, rethrow))
  {
    HeldFrame(s, LockJoin(s, t, f, rethrow));
    SchedFrame(s, LockJoin(s, t, f, rethrow));
  }

  lemma LockJoinThreads(s: Sys, t: Tid, f: Tid, rethrow: bool)
    requires CanLockJoin(s, t, f) && ThreadsOk(s) && QueuesOk(s)
    ensures ThreadsOk(LockJoin(s, t, f, rethrow))
  {
    var s' := LockJoin(s, t, f, rethrow);
    NotQueued(s, t);
    LockJoinSelf(s, s', t, f, rethrow);
    LockJoinTarget(s, s', t, f, rethrow);
    forall u | u in s.threads && u != t && u != f ensures Unaffected(s, s', u) { LockJoinOther(s, t, f, rethrow, u); }
    OthersOk(s, s', t, f);
  }

  lemma LockJoinInv(s: Sys, t: Tid, f: Tid, rethrow: bool)
    requires CanLockJoin(s, t, f) && Inv(s)
    ensures Inv(LockJoin(s, t, f, rethrow))
  {
    LockJoinThreads(s, t, f, rethrow);
    LockJoinQueues(s, LockJoin(s, t, f, rethrow), t, f, rethrow);
    LockJoinCounts(s, t, f, rethrow);
  }

  predicate CanPushJoin(s: Sys, t: Tid, f: Tid) {
    && At(s, t, Joining) && s.threads[t].wait.OnJoin? && s.threads[t].wait.f == f && f in s.threads && f != t
    && s.threads[f].joinLock == Some(t) && !Drained(s.threads[f])
  }

  lemma PushJoinOther(s: Sys, t: Tid, f: Tid, u: Tid)
    requires CanPushJoin(s, t, f) && u in s.threads && u != t && u != f
    ensures Unaffected(s, DoJoinPush(s, t, f), u)
  {
  }

  lemma PushJoinSelf(s: Sys, s': Sys, t: Tid, f: Tid)
    requires CanPushJoin(s, t, f) && Ok(ViewOf(s, t)) && s' == DoJoinPush(s, t, f)
    ensures Ok(ViewOf(s', t))
  {
    assert t in s'.threads[f].joinQueue by {
      assert s'.threads[f].joinQueue[|s.threads[f].joinQueue|] == t;
    }
  }

  lemma PushJoinTarget(s: Sys, s': Sys, t: Tid, f: Tid)
    requires CanPushJoin(s, t, f) && Ok(ViewOf(s, f)) && s' == DoJoinPush(s, t, f)
    ensures Ok(ViewOf(s', f))
  {
    assert WaitFits(ViewOf(s, f));
    assert ViewOf(s', f)
        == ViewOf(s, f).(th := s.threads[f].(joinQueue := s.threads[f].joinQueue + [t], joinLock := None));
  }

  lemma PushJoinFields(s: Sys, s': Sys, t: Tid, f: Tid)
    requires CanPushJoin(s, t, f) && s' == DoJoinPush(s, t, f)
    ensures s' == s.(threads := s'.threads) && s'.threads.Keys == s.threads.Keys && WaitsKept(s, s', t)
    ensures forall g :: g in s.threads ==>
      && s'.threads[g].joinQueue == (if g == f then s.threads[f].joinQueue + [t] else s.threads[g].joinQueue)
      && s'.threads[g].draining == s.threads[g].draining
      && s'.threads[g].phase == s.threads[g].phase && Drained(s'.threads[g]) == Drained(s.threads[g])
    ensures WaitsOnJoin(s'.threads[t], f)
  {
  }

  lemma PushJoinTargetQueue(s: Sys, s': Sys, t: Tid, f: Tid)
    requires CanPushJoin(s, t, f) && s' == DoJoinPush(s, t, f) && JoinQueueOk(s, f) && !InJoinQueue(s.threads[f], t)
    ensures JoinQueueOk(s', f)
  {
    PushJoinFields(s, s', t, f);
  }

  lemma PushJoinQueues(s: Sys, s': Sys, t: Tid, f: Tid)
    requires CanPushJoin(s, t, f) && QueuesOk(s) && s' == DoJoinPush(s, t, f)
    ensures QueuesOk(s')
  {
    NotQueued(s, t);
    PushJoinFields(s, s', t, f);
    assert JoinQueueOk(s, f);
    PushJoinTargetQueue(s, s', t, f);
    forall g | g in s.threads && g != f ensures JoinQueueOk(s', g) { KeepJoin(s, s', t, g); }
    KeepQueues(s, s', t);
  }

  lemma PushJoinThreads(s: Sys, t: Tid, f: Tid)
    requires CanPushJoin(s, t, f) && ThreadsOk(s)
    ensures ThreadsOk(DoJoinPush(s, t, f))
  {
    var s' := DoJoinPush(s, t, f);
    PushJoinSelf(s, s', t, f);
    PushJoinTarget(s, s', t, f);
    forall u | u in s.threads && u != t && u != f ensures Unaffected(s, s', u) { PushJoinOther(s, t, f, u); }
    OthersOk(s, s', t, f);
  }

  lemma PushJoinCounts(s: Sys, t: Tid, f: Tid)
    requires CanPushJoin(s, t, f) && HeldOk(s) && SchedOk(s)
    ensures HeldOk(DoJoinPush(s, t, f)) && SchedOk(DoJoinPush(s, t, f))
  {
    CountsKept(s, DoJoinPush(s, t, f));
  }

  lemma PushJoinInv(s: Sys, t: Tid, f: Tid)
    requires CanPushJoin(s, t, f) && Inv(s)
    ensures Inv(DoJoinPush(s, t, f))
  {
    PushJoinThreads(s, t, f);
    PushJoinQueues(s, DoJoinPush(s, t, f), t, f);
    PushJoinCounts(s, t, f);
  }

  // ----- The end of a thread -----

  lemma StoppedOk(v: View, stopped: bool)
    requires Ok(v) && (v.joineeStopped ==> stopped)
    ensures Ok(v.(joineeStopped := stopped))
  {
  }

  lemma StopOther(s: Sys, s': Sys, t: Tid, throws: bool, u: Tid)
    requires At(s, t, Running) && u in s.threads && u != t && s' == DoStop(s, t, throws)
    ensures ViewOf(s', u) == ViewOf(s, u).(joineeStopped := JoineeStopped(s', s.threads[u].wait))
    ensures JoineeStopped(s, s.threads[u].wait) ==> JoineeStopped(s', s.threads[u].wait)
  {
  }

  lemma StopSelf(s: Sys, s': Sys, t: Tid, throws: bool)
    requires At(s, t, Running) && Ok(ViewOf(s, t)) && s' == DoStop(s, t, throws)
    ensures Ok(ViewOf(s', t))
  {
  }

  lemma StopThreads(s: Sys, t: Tid, throws: bool)
    requires At(s, t, Running) && ThreadsOk(s)
    ensures ThreadsOk(DoStop(s, t, throws))
  {
    var s' := DoStop(s, t, throws);
    forall u | u in s'.threads ensures Ok(ViewOf(s', u)) {
      if u == t {
        StopSelf(s, s', t, throws);
      } else {
        StopOther(s, s', t, throws, u);
        StoppedOk(ViewOf(s, u), JoineeStopped(s', s.threads[u].wait));
      }
    }
  }

  lemma StopQueues(s: Sys, t: Tid, throws: bool)
    requires At(s, t, Running) && s.threads[t].phase == OnCpu && QueuesOk(s)
    ensures QueuesOk(DoStop(s, t, throws))
  {
    var s' := DoStop(s, t, throws);
    forall g | g in s.threads ensures JoinQueueOk(s', g) { KeepJoin(s, s', t, g); }
    KeepQueues(s, s', t);
  }

  lemma StopCounts(s: Sys, t: Tid, throws: bool)
    requires At(s, t, Running) && HeldOk(s) && SchedOk(s)
    ensures HeldOk(DoStop(s, t, throws)) && SchedOk(DoStop(s, t, throws))
  {
    CountsKept(s, DoStop(s, t, throws));
  }

  lemma StopInv(s: Sys, t: Tid, throws: bool)
    requires At(s, t, Running) && Inv(s)
    ensures Inv(DoStop(s, t, throws))
  {
    ThreadOk(s, t);
    StopThreads(s, t, throws);
    StopQueues(s, t, throws);
    StopCounts(s, t, throws);
  }

  predicate CanDrain(s: Sys, f: Tid) {
    && At(s, f, Stopped) && s.threads[f].wait.NoWait? && s.threads[f].phase == Returned(STOPPED)
    && s.threads[f].joinLock.None? && s.threads[f].draining == []
  }

  lemma DrainThreads(s: Sys, f: Tid)
    requires CanDrain(s, f) && ThreadsOk(s)
    ensures ThreadsOk(DoDrain(s, f))
  {
    var s' := DoDrain(s, f);
    DrainSelf(s, s', f);
    forall u | u in s.threads && u != f ensures Unaffected(s, s', u) {}
    OthersOk(s, s', f, f);
  }

  lemma DrainSelf(s: Sys, s': Sys, f: Tid)
    requires CanDrain(s, f) && Ok(ViewOf(s, f)) && s' == DoDrain(s, f)
    ensures Ok(ViewOf(s', f))
  {
  }

  lemma DrainQueues(s: Sys, f: Tid)
    requires CanDrain(s, f) && QueuesOk(s)
    ensures QueuesOk(DoDrain(s, f))
  {
    var s' := DoDrain(s, f);
    forall g | g in s.threads && g != f ensures JoinQueueOk(s', g) { KeepJoin(s, s', f, g); }
    assert JoinQueueOk(s, f);
    KeepQueues(s, s', f);
  }

  lemma DrainCounts(s: Sys, f: Tid)
    requires CanDrain(s, f) && HeldOk(s) && SchedOk(s)
    ensures HeldOk(DoDrain(s, f)) && SchedOk(DoDrain(s, f))
  {
    CountsKept(s, DoDrain(s, f));
  }

  lemma DrainInv(s: Sys, f: Tid)
    requires f in s.threads && s.threads[f].phase == Returned(STOPPED) && s.threads[f].joinLock.None? && Inv(s)
    ensures Inv(DoDrain(s, f))
  {
    ThreadOk(s, f);
    assert JoinQueueOk(s, f);
    DrainThreads(s, f);
    DrainQueues(s, f);
    DrainCounts(s, f);
  }

  /** Running the first function of the drained queue: its joiner leaves the queue and is activated. */
  function PopDrain(s: Sys, f: Tid): Sys
    requires f in s.threads && s.threads[f].draining != []
  {
    Put(s, f, s.threads[f].(draining := s.threads[f].draining[1..]))
  }

  predicate CanPopDrain(s: Sys, f: Tid) {
    f in s.threads && s.threads[f].phase == Draining && s.threads[f].draining != [] && NoDup(s.threads[f].draining)
  }

  lemma TailOf(q: seq<Tid>)
    requires q != [] && NoDup(q)
    ensures NoDup(q[1..]) && q[0] in q && forall u :: u in q[1..] <==> u in q && u != q[0]
  {
    assert q == [q[0]] + q[1..];
  }

  lemma PopDrainOther(s: Sys, f: Tid, u: Tid)
    requires CanPopDrain(s, f) && u in s.threads && u != f && u != s.threads[f].draining[0]
    ensures Unaffected(s, PopDrain(s, f), u)
  {
    TailOf(s.threads[f].draining);
  }

  lemma PopDrainQueues(s: Sys, f: Tid)
    requires CanPopDrain(s, f) && QueuesOk(s)
    ensures QueuesOk(PopDrain(s, f))
  {
    var s' := PopDrain(s, f);
    TailOf(s.threads[f].draining);
    forall g | g in s.threads && g != f ensures JoinQueueOk(s', g) { KeepJoin(s, s', f, g); }
    assert JoinQueueOk(s, f);
    KeepQueues(s, s', f);
  }

  lemma JoinedView(s: Sys, f: Tid, u: Tid)
    requires CanPopDrain(s, f) && At(s, f, Stopped) && u == s.threads[f].draining[0] && u in s.threads && u != f
    requires WaitsOnJoin(s.threads[u], f) && s.threads[f].joinQueue == []
    ensures ViewOf(PopDrain(s, f), u) == ViewOf(s, u).(entry := false)
    ensures ViewOf(s, u).entry && ViewOf(s, u).joineeStopped
  {
    TailOf(s.threads[f].draining);
  }

  lemma JoinedOk(v: View)
    requires Ok(v) && v.th.wait.OnJoin? && !v.th.stage.Joining? && v.entry && v.joineeStopped
    ensures Ok(v.(entry := false, th := v.th.(pending := v.th.pending + 1)))
  {
  }

  lemma DrainedTarget(s: Sys, f: Tid, u: Tid)
    requires CanPopDrain(s, f) && Ok(ViewOf(s, f)) && u != f && u in s.threads
    ensures Ok(ViewOf(Post(PopDrain(s, f), u), f))
  {
    var s' := Post(PopDrain(s, f), u);
    assert WaitFits(ViewOf(s, f)) && StageFits(s.threads[f].stage, s.threads[f].wait) && PhaseOk(s.threads[f]);
    assert ViewOf(s', f) == ViewOf(s, f).(th := s.threads[f].(draining := s.threads[f].draining[1..]));
  }

  lemma DrainOneThreads(s: Sys, f: Tid, u: Tid)
    requires ThreadsOk(s) && CanPopDrain(s, f) && At(s, f, Stopped) && s.threads[f].joinQueue == []
    requires u == s.threads[f].draining[0] && u in s.threads && u != f && WaitsOnJoin(s.threads[u], f)
    ensures ThreadsOk(DoDrainOne(s, f))
  {
    var s1, s' := PopDrain(s, f), DoDrainOne(s, f);
    JoinedView(s, f, u);
    PostView(s1, u);
    JoinedOk(ViewOf(s, u));
    DrainedTarget(s, f, u);
    forall v | v in s.threads && v != f && v != u ensures Unaffected(s, s', v) {
      PopDrainOther(s, f, v);
      PostOther(s1, u, v);
      UnaffectedTrans(s, s1, s', v);
    }
    OthersOk(s, s', f, u);
  }

  lemma PopDrainCounts(s: Sys, f: Tid)
    requires CanPopDrain(s, f) && HeldOk(s) && SchedOk(s)
    ensures HeldOk(PopDrain(s, f)) && SchedOk(PopDrain(s, f))
  {
    CountsKept(s, PopDrain(s, f));
  }

  lemma DrainOneFacts(s: Sys, f: Tid, u: Tid)
    requires Inv(s) && f in s.threads && s.threads[f].phase == Draining && s.threads[f].draining != []
    requires u == s.threads[f].draining[0]
    ensures CanPopDrain(s, f) && At(s, f, Stopped) && s.threads[f].joinQueue == []
    ensures u in s.threads && u != f && WaitsOnJoin(s.threads[u], f)
  {
    ThreadOk(s, f);
    assert JoinQueueOk(s, f) && u in s.threads[f].draining;
    ThreadOk(s, u);
    assert WaitFits(ViewOf(s, u));
  }

  lemma DrainOneInv(s: Sys, f: Tid)
    requires Inv(s) && f in s.threads && s.threads[f].phase == Draining && s.threads[f].draining != []
    ensures Inv(DoDrainOne(s, f))
  {
    var u := s.threads[f].draining[0];
    DrainOneFacts(s, f, u);
    DrainOneThreads(s, f, u);
    PopDrainQueues(s, f);
    PostQueues(PopDrain(s, f), u);
    PopDrainCounts(s, f);
    PostHeld(PopDrain(s, f), u);
    PostSched(PopDrain(s, f), u);
  }

  lemma DrainEndSelf(s: Sys, s': Sys, f: Tid)
    requires f in s.threads && s.threads[f].phase == Draining && Ok(ViewOf(s, f)) && s' == DoDrainEnd(s, f)
    ensures Ok(ViewOf(s', f)) && At(s, f, Stopped) && s.threads[f].exit == NotPosted
  {
    assert PhaseOk(s.threads[f]);
  }

  lemma DrainEndThreads(s: Sys, f: Tid)
    requires At(s, f, Stopped) && s.threads[f].phase == Draining && ThreadsOk(s)
    ensures ThreadsOk(DoDrainEnd(s, f))
  {
    var s' := DoDrainEnd(s, f);
    DrainEndSelf(s, s', f);
    forall u | u in s.threads && u != f ensures Unaffected(s, s', u) {}
    OthersOk(s, s', f, f);
  }

  lemma DrainEndQueues(s: Sys, f: Tid)
    requires At(s, f, Stopped) && s.threads[f].phase == Draining && s.threads[f].draining == [] && QueuesOk(s)
    ensures QueuesOk(DoDrainEnd(s, f))
  {
    var s' := DoDrainEnd(s, f);
    forall g | g in s.threads && g != f ensures JoinQueueOk(s', g) { KeepJoin(s, s', f, g); }
    assert JoinQueueOk(s, f);
    KeepQueues(s, s', f);
  }

  lemma DrainEndCounts(s: Sys, f: Tid)
    requires f in s.threads && s.threads[f].exit == NotPosted && HeldOk(s) && SchedOk(s)
    ensures HeldOk(DoDrainEnd(s, f)) && SchedOk(DoDrainEnd(s, f))
  {
    var s' := DoDrainEnd(s, f);
    HeldWaits(s, s');
    assert Live(s') == Live(s);
  }

  lemma DrainEndInv(s: Sys, f: Tid)
    requires Inv(s) && f in s.threads && s.threads[f].phase == Draining && s.threads[f].draining == []
    ensures Inv(DoDrainEnd(s, f))
  {
    ThreadOk(s, f);
    DrainEndSelf(s, DoDrainEnd(s, f), f);
    DrainEndThreads(s, f);
    DrainEndQueues(s, f);
    DrainEndCounts(s, f);
  }

  // ----- The scheduler -----

  lemma ProcessExitInv(s: Sys, t: Tid)
    requires Inv(s) && t in s.threads && s.threads[t].exit == Posted && s.threadCount > 0
    ensures Inv(DoProcessExit(s, t))
  {
    ProcessExitThreads(s, DoProcessExit(s, t), t);
    ProcessExitQueues(s, DoProcessExit(s, t), t);
    ProcessExitCounts(s, DoProcessExit(s, t), t);
  }

  lemma ProcessExitCounts(s: Sys, s': Sys, t: Tid)
    requires HeldOk(s) && SchedOk(s) && t in s.threads && s.threads[t].exit == Posted && s.threadCount > 0
    requires s' == DoProcessExit(s, t)
    ensures HeldOk(s') && SchedOk(s')
  {
    HeldWaits(s, s');
    assert Live(s') == Live(s) - {t} && t in Live(s);
  }

  lemma ProcessExitThreads(s: Sys, s': Sys, t: Tid)
    requires ThreadsOk(s) && t in s.threads && s.threads[t].exit == Posted && s.threadCount > 0 && s' == DoProcessExit(s, t)
    ensures ThreadsOk(s')
  {
    ProcessExitSelf(s, s', t);
    forall u | u in s.threads && u != t ensures Unaffected(s, s', u) {}
    OthersOk(s, s', t, t);
  }

  lemma ProcessExitSelf(s: Sys, s': Sys, t: Tid)
    requires t in s.threads && Ok(ViewOf(s, t)) && s.threads[t].exit == Posted && s.threadCount > 0
    requires s' == DoProcessExit(s, t)
    ensures Ok(ViewOf(s', t))
  {
    assert PhaseOk(s.threads[t]) && StageFits(s.threads[t].stage, s.threads[t].wait);
    assert ViewOf(s', t) == ViewOf(s, t).(th := s.threads[t].(exit := Processed));
  }

  lemma ProcessExitQueues(s: Sys, s': Sys, t: Tid)
    requires QueuesOk(s) && t in s.threads && s.threadCount > 0 && s' == DoProcessExit(s, t)
    ensures QueuesOk(s')
  {
    forall g | g in s.threads ensures JoinQueueOk(s', g) { KeepJoin(s, s', t, g); }
    KeepQueues(s, s', t);
  }

  lemma SpawnOther(s: Sys, child: Tid, u: Tid)
    requires child !in s.threads && u in s.threads
    ensures Unaffected(s, DoSpawn(s, child), u)
  {
  }

  lemma SpawnThreads(s: Sys, child: Tid)
    requires child !in s.threads && ThreadsOk(s)
    ensures ThreadsOk(DoSpawn(s, child))
  {
    var s' := DoSpawn(s, child);
    SpawnSelf(s', child);
    forall u | u in s'.threads && u != child ensures Ok(ViewOf(s', u)) {
      SpawnOther(s, child, u);
      SameView(s, s', u);
    }
  }

  lemma SpawnSelf(s': Sys, child: Tid)
    requires child in s'.threads && s'.threads[child] == NewThread()
    ensures Ok(ViewOf(s', child))
  {
  }

  lemma SpawnMutex(s: Sys, s': Sys, child: Tid, m: Mid)
    requires s' == DoSpawn(s, child) && child !in s.threads && m in s.mutexes && MutexQueueOk(s, m)
    ensures MutexQueueOk(s', m)
  {
  }

  lemma SpawnCond(s: Sys, s': Sys, child: Tid, c: Cid)
    requires s' == DoSpawn(s, child) && child !in s.threads && c in s.conds && CondQueueOk(s, c)
    ensures CondQueueOk(s', c)
  {
  }

  lemma SpawnJoin(s: Sys, s': Sys, child: Tid, f: Tid)
    requires s' == DoSpawn(s, child) && child !in s.threads && f in s'.threads && (f in s.threads ==> JoinQueueOk(s, f))
    ensures JoinQueueOk(s', f)
  {
  }

  lemma SpawnQueues(s: Sys, s': Sys, child: Tid)
    requires s' == DoSpawn(s, child) && child !in s.threads && QueuesOk(s)
    ensures QueuesOk(s')
  {
    forall m | m in s'.mutexes ensures MutexQueueOk(s', m) { SpawnMutex(s, s', child, m); }
    forall c | c in s'.conds ensures CondQueueOk(s', c) { SpawnCond(s, s', child, c); }
    forall f | f in s'.threads ensures JoinQueueOk(s', f) { SpawnJoin(s, s', child, f); }
    forall x | x in s'.timers ensures TimerOwned(s', x) { assert TimerOwned(s, x); }
  }

  lemma SpawnCounts(s: Sys, s': Sys, child: Tid)
    requires s' == DoSpawn(s, child) && child !in s.threads && QueuesOk(s) && HeldOk(s) && SchedOk(s)
    requires !s.stopped
    ensures HeldOk(s') && SchedOk(s')
  {
    SpawnHeld(s, s', child);
    SpawnSched(s, s', child);
  }

  lemma SpawnHeld(s: Sys, s': Sys, child: Tid)
    requires s' == DoSpawn(s, child) && child !in s.threads && QueuesOk(s) && HeldOk(s)
    ensures HeldOk(s')
  {
    forall t, m | m in s.mutexes && s.mutexes[m].owner == Some(t) ensures LocksInside(s', t, m) == LocksInside(s, t, m) {
      assert MutexQueueOk(s, m);
    }
    HeldFrame(s, s');
  }

  lemma SpawnSched(s: Sys, s': Sys, child: Tid)
    requires s' == DoSpawn(s, child) && child !in s.threads && SchedOk(s) && !s.stopped
    ensures SchedOk(s')
  {
    assert Live(s') == Live(s) + {child};
    assert child in s'.threads;
  }

  lemma SpawnInv(s: Sys, child: Tid)
    requires Inv(s) && child !in s.threads && !s.stopped
    ensures Inv(DoSpawn(s, child))
  {
    SpawnThreads(s, child);
    SpawnQueues(s, DoSpawn(s, child), child);
    SpawnCounts(s, DoSpawn(s, child), child);
  }

  lemma StopServiceInv(s: Sys)
    requires Inv(s) && s.threadCount == 0 && s.started
    ensures Inv(s.(stopped := true))
  {
    var s' := s.(stopped := true);
    forall u | u in s'.threads ensures Ok(ViewOf(s', u)) {
      assert ViewOf(s', u) == ViewOf(s, u);
    }
    forall m | m in s'.mutexes ensures MutexQueueOk(s', m) { assert MutexQueueOk(s, m); }
    forall c | c in s'.conds ensures CondQueueOk(s', c) { assert CondQueueOk(s, c); }
    forall f | f in s'.threads ensures JoinQueueOk(s', f) { assert JoinQueueOk(s, f); }
    forall x | x in s'.timers ensures TimerOwned(s', x) { assert TimerOwned(s, x); }
    HeldWaits(s, s');
    assert Live(s') == Live(s);
  }
}
