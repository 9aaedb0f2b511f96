/** Every step of the run-time is a step of the Mesa monitor, a few of them, or none. */
module MesaRefinement {
  import opened Basics
  import opened MutexModel
  import opened Runtime
  import opened RuntimeInvariant
  import opened RuntimeFrames
  import opened RuntimeRegister
  import opened RuntimeWake
  import opened RuntimeUnlock
  import opened RuntimeReturn
  import opened RuntimeDispatch
  import opened RuntimeSafety
  import opened Mesa
  import opened MesaMonitor

  // ----- The monitor steps of a label -----

  function Granting(ms: MutexState, m: Mid): seq<Action> {
    if ms.queue == [] then [] else [Enter(ms.queue[0].t, m)]
  }

  function LockScript(s: Sys, t: Tid, m: Mid, timed: bool): seq<Action>
    requires m in s.mutexes
  {
    var o := s.mutexes[m].owner;
    if o.None? then [Request(t, m, timed), Enter(t, m)] else if o == Some(t) then [] else [Request(t, m, timed)]
  }

  function UnlockScript(s: Sys, t: Tid, m: Mid): seq<Action>
    requires m in s.mutexes
  {
    var ms := s.mutexes[m];
    if ms.owner == Some(t) && ms.level <= 1 then [Exit(t, m)] + Granting(ms, m) else []
  }

  function HandlerScript(s: Sys, x: TimerId): seq<Action>
    requires x in s.timers
  {
    var tm := s.timers[x];
    if tm.site.AtCond? && tm.site.c in s.conds && tm.phase == Expired && Waits(s.conds[tm.site.c], tm.t)
    then [GiveUpWait(tm.t)] else []
  }

  function ReturnScript(s: Sys, t: Tid, w: Runtime.Wait): seq<Action> {
    if w.OnMutex? && w.m in s.mutexes && s.mutexes[w.m].owner != Some(t) then [GiveUpEntry(t)] else []
  }

  function Script(s: Sys, l: Label): seq<Action>
    requires Enabled(s, l)
  {
    match l
    case Lock(t, m, timed) => LockScript(s, t, m, timed)
    case TryLock(t, m) => if s.mutexes[m].owner.None? then [Request(t, m, true), Enter(t, m)] else []
    case Unlock(t, m) => UnlockScript(s, t, m)
    case CondWait(t, c, m, timed) => if s.mutexes[m].owner == Some(t) then [Action.Wait(t, c, m, timed)] else []
    case UnlockInWait(t) => Granting(s.mutexes[s.threads[t].wait.m], s.threads[t].wait.m)
    case Relock(t) =>
      if s.mutexes[s.threads[t].wait.m].owner.None? then [Enter(t, s.threads[t].wait.m)] else []
    case NotifyOne(_, c) => if s.conds[c] == [] then [] else [Signal(c)]
    case NotifyAll(_, c) => Signals(c, |s.conds[c]|)
    case TimerHandler(x) => HandlerScript(s, x)
    case Return(t) => ReturnScript(s, t, s.threads[t].wait)
    case Spawn(_, child) => [Born(child)]
    case _ => []
  }

  /** The monitor goes from Abs(s) to Abs(s') by the actions. */
  ghost predicate Simulates(s: Sys, acts: seq<Action>, s': Sys) {
    Perform(Abs(s), acts) == Some(Abs(s'))
  }

  lemma Stutter(s: Sys, s': Sys)
    requires Abs(s') == Abs(s)
    ensures Simulates(s, [], s')
  {
  }

  // ----- Stutters -----

  predicate QuietWait(w: Runtime.Wait, w': Runtime.Wait) {
    w' == w || (!w.OnMutex? && !w.OnCond? && !w'.OnMutex? && !w'.OnCond?)
  }

  /** A step the monitor does not see: owners, condition queues and waits on them stay. */
  ghost predicate Quiet(s: Sys, s': Sys) {
    && s'.mutexes.Keys == s.mutexes.Keys && s'.threads.Keys == s.threads.Keys && s'.conds == s.conds
    && (forall m :: m in s.mutexes ==> s'.mutexes[m].owner == s.mutexes[m].owner)
    && (forall u :: u in s.threads ==>
      && QuietWait(s.threads[u].wait, s'.threads[u].wait)
      && (s'.threads[u].stage.CondUnlock? <==> s.threads[u].stage.CondUnlock?)
      && (s.threads[u].stage.CondUnlock? ==> s'.threads[u].wait == s.threads[u].wait))
  }

  /** What the status depends on: the wait, the owner of the mutex, the queue of the condition. */
  function StatusIn(s: Sys, u: Tid): Status
    requires u in s.threads
  {
    match s.threads[u].wait
    case OnMutex(m, timer) => if m in s.mutexes && s.mutexes[m].owner == Some(u) then Out else Entering(m, timer.Some?)
    case OnCond(c, m, timer) =>
      if c in s.conds && Waits(s.conds[c], u) then Waiting(c, m, timer.Some?) else Entering(m, false)
    case _ => Out
  }

  lemma StatusIs(s: Sys, u: Tid)
    requires u in s.threads
    ensures u in Statuses(s) && Statuses(s)[u] == StatusIn(s, u)
  {
  }

  lemma QuietStatusIn(s: Sys, s': Sys, u: Tid)
    requires Quiet(s, s') && u in s.threads
    ensures StatusIn(s', u) == StatusIn(s, u)
  {
  }

  lemma QuietStatus(s: Sys, s': Sys, u: Tid)
    requires Quiet(s, s') && u in s.threads
    ensures u in Statuses(s) && u in Statuses(s') && Statuses(s')[u] == Statuses(s)[u]
  {
    StatusIs(s, u);
    StatusIs(s', u);
    QuietStatusIn(s, s', u);
  }

  lemma QuietAbs(s: Sys, s': Sys)
    requires Quiet(s, s')
    ensures Abs(s') == Abs(s) && Simulates(s, [], s')
  {
    forall u | u in s.threads ensures u in Statuses(s) && u in Statuses(s') && Statuses(s')[u] == Statuses(s)[u] {
      QuietStatus(s, s', u);
    }
    SameStatuses(s, s');
    HoldersKept(s, s');
    CondsKept(s, s');
  }

  lemma QuietTrans(s: Sys, s1: Sys, s2: Sys)
    requires Quiet(s, s1) && Quiet(s1, s2)
    ensures Quiet(s, s2)
  {
  }

  /** The record of one thread changes. */
  lemma PutQuiet(s: Sys, s': Sys, t: Tid)
    requires t in s.threads && t in s'.threads && s' == Put(s, t, s'.threads[t])
    requires QuietWait(s.threads[t].wait, s'.threads[t].wait)
    requires s'.threads[t].stage.CondUnlock? <==> s.threads[t].stage.CondUnlock?
    requires s.threads[t].stage.CondUnlock? ==> s'.threads[t].wait == s.threads[t].wait
    ensures Quiet(s, s')
  {
  }

  lemma PropagateQuiet(s: Sys, s': Sys, f: Tid)
    requires s' == Propagate(s, f)
    ensures Quiet(s, s')
  {
    if f in s.threads && s.threads[f].exc { PutQuiet(s, s', f); }
  }

  lemma JoinTestQuiet(s: Sys, s': Sys, t: Tid, f: Tid, rethrow: bool)
    requires At(s, t, Running) && s.threads[t].wait.NoWait? && f in s.threads && s' == DoJoinTest(s, t, f, rethrow)
    ensures Quiet(s, s')
  {
    if s.threads[f].state == STOPPED {
      if rethrow { PropagateQuiet(s, s', f); }
    } else {
      var s1 := Put(s, f, s.threads[f].(joinLock := Some(t)));
      PutQuiet(s, s1, f);
      PutQuiet(s1, s', t);
      QuietTrans(s, s1, s');
    }
  }

  lemma JoinPushQuiet(s: Sys, s': Sys, t: Tid, f: Tid)
    requires At(s, t, Joining) && f in s.threads && s' == DoJoinPush(s, t, f)
    ensures Quiet(s, s')
  {
    var s1 := Put(s, f, s.threads[f].(joinQueue := s.threads[f].joinQueue + [t], joinLock := None));
    PutQuiet(s, s1, f);
    PutQuiet(s1, s', t);
    QuietTrans(s, s1, s');
  }

  lemma PostQuiet(s: Sys, s': Sys, t: Tid)
    requires s' == Post(s, t)
    ensures Quiet(s, s')
  {
    if t in s.threads { PutQuiet(s, s', t); }
  }

  lemma DrainOneQuiet(s: Sys, s': Sys, f: Tid)
    requires f in s.threads && s.threads[f].draining != [] && s' == DoDrainOne(s, f)
    ensures Quiet(s, s')
  {
    var s1 := Put(s, f, s.threads[f].(draining := s.threads[f].draining[1..]));
    PutQuiet(s, s1, f);
    PostQuiet(s1, s', s.threads[f].draining[0]);
    QuietTrans(s, s1, s');
  }

  /** A thread that stops waits for nothing, and one_step's work on its join queue is not seen. */
  lemma EndQuiet(s: Sys, s': Sys, t: Tid, throws: bool)
    requires t in s.threads
    requires (At(s, t, Running) && s' == DoStop(s, t, throws)) || s' == DoDrain(s, t) || s' == DoDrainEnd(s, t)
    ensures Quiet(s, s')
  {
    PutQuiet(s, s', t);
  }

  lemma JoinerQuiet(s: Sys, s': Sys, l: Label)
    requires Inv(s) && Enabled(s, l) && (l.JoinTest? || l.JoinPush?) && s' == Next(s, l)
    ensures Quiet(s, s')
  {
    hide Inv, Quiet, DoJoinTest, DoJoinPush;
    match l {
      case JoinTest(t, f, rethrow) => RunningFacts(s, t); JoinTestQuiet(s, s', t, f, rethrow);
      case JoinPush(t) => JoinPushQuiet(s, s', t, s.threads[t].wait.f);
    }
  }

  lemma EnderQuiet(s: Sys, s': Sys, l: Label)
    requires Enabled(s, l) && IsJoin(l) && !l.JoinTest? && !l.JoinPush? && s' == Next(s, l)
    ensures Quiet(s, s')
  {
    hide Quiet, DoDrainOne, DoStop, DoDrain, DoDrainEnd;
    match l {
      case Stop(t, throws) => EndQuiet(s, s', t, throws);
      case Drain(f) => EndQuiet(s, s', f, false);
      case DrainOne(f) => DrainOneQuiet(s, s', f);
      case DrainEnd(f) => EndQuiet(s, s', f, false);
    }
  }

  lemma EndStepQuiet(s: Sys, s': Sys, t: Tid)
    requires t in s.threads && s' == DoEndStep(s, t)
    ensures Quiet(s, s')
  {
    var s1 := Put(s, t, s.threads[t].(phase := Idle));
    PutQuiet(s, s1, t);
    if s' != s1 { PostQuiet(s1, s', t); QuietTrans(s, s1, s'); }
  }

  lemma ActivateQuiet(s: Sys, s': Sys, t: Tid)
    requires t in s.threads && s.threads[t].pending > 0 && s.threads[t].phase == Idle && Ok(ViewOf(s, t))
    requires s' == DoActivate(s, t)
    ensures Quiet(s, s')
  {
    ActivateView(s, s', t);
    PutQuiet(s, s', t);
  }

  lemma YieldQuiet(s: Sys, s': Sys, l: Label)
    requires Inv(s) && Enabled(s, l) && (l.Pause? || l.UserYield? || l.Yield?) && s' == Next(s, l)
    ensures Quiet(s, s')
  {
    hide Inv, Quiet;
    match l {
      case Pause(t) => PutQuiet(s, s', t);
      case UserYield(t) => RunningFacts(s, t); PutQuiet(s, s', t);
      case Yield(t, switch) => PutQuiet(s, s', t);
    }
  }

  lemma StrandQuiet(s: Sys, s': Sys, l: Label)
    requires Inv(s) && Enabled(s, l) && (l.EndStep? || l.Activate?) && s' == Next(s, l)
    ensures Quiet(s, s')
  {
    hide Inv, Quiet, Ok, ViewOf, DoEndStep, DoActivate;
    match l {
      case EndStep(t) => EndStepQuiet(s, s', t);
      case Activate(t) => ThreadOk(s, t); ActivateQuiet(s, s', t);
    }
  }

  // ----- Mutexes -----

  lemma SimulateLock(s: Sys, s': Sys, t: Tid, m: Mid, timed: bool)
    requires Inv(s) && At(s, t, Running) && m in s.mutexes && s' == DoLock(s, t, m, timed)
    ensures Simulates(s, LockScript(s, t, m, timed), s')
  {
    hide Inv, Statuses, Holders, CondQueues, Perform, Can, Quiet, MutexQueueOk;
    RunningFacts(s, t);
    MutexFacts(s, m);
    LockCases(s, t, m, timed);
    OutWhenIdle(s, t);
    var o := s.mutexes[m].owner;
    if o.None? {
      AbsAcquire(s, s', t, m);
      FreeHolder(s, m);
      EnterFree(Abs(s), Abs(s'), t, m, timed);
    } else if o == Some(t) && s.mutexes[m].recursive {
      ReacquireQuiet(s, s', t, m);
      QuietAbs(s, s');
    } else if o == Some(t) {
      Stutter(s, s');
    } else {
      RequestSteps(s, s', t, m, timed);
    }
  }

  /** Enqueueing is the request. */
  lemma RequestSteps(s: Sys, s': Sys, t: Tid, m: Mid, timed: bool)
    requires Inv(s) && At(s, t, Running) && s.threads[t].wait.NoWait? && m in s.mutexes
    requires s.mutexes[m].owner.Some? && s.mutexes[m].owner != Some(t)
    requires s' == Register(s, t, OnMutex(m, if timed then Some(s.nextTimer) else None), Parking)
    ensures Simulates(s, [Request(t, m, timed)], s')
  {
    AbsRegister(s, s', t, OnMutex(m, if timed then Some(s.nextTimer) else None), Parking);
    OutWhenIdle(s, t);
    OneAction(Abs(s), Request(t, m, timed));
  }

  lemma EnterFree(mo: Monitor, mo': Monitor, t: Tid, m: Mid, timed: bool)
    requires t in mo.status && mo.status[t] == Out && m in mo.holder && mo.holder[m].None?
    requires mo' == mo.(holder := mo.holder[m := Some(t)])
    ensures Perform(mo, [Request(t, m, timed), Enter(t, m)]) == Some(mo')
  {
    TwoActions(mo, Request(t, m, timed), Enter(t, m));
    assert mo.status[t := Entering(m, timed)][t := Out] == mo.status;
  }

  lemma ReacquireQuiet(s: Sys, s': Sys, t: Tid, m: Mid)
    requires m in s.mutexes && s.mutexes[m].owner == Some(t) && s' == Acquire(s, t, m)
    ensures Quiet(s, s')
  {
  }

  lemma SimulateTryLock(s: Sys, s': Sys, t: Tid, m: Mid)
    requires Inv(s) && At(s, t, Running) && m in s.mutexes && s' == DoTryLock(s, t, m)
    ensures s.mutexes[m].owner.None? ==> Simulates(s, [Request(t, m, true), Enter(t, m)], s')
    ensures s.mutexes[m].owner.Some? ==> Simulates(s, [], s')
  {
    hide Inv, Statuses, Holders, CondQueues, Perform, Can, Quiet, MutexQueueOk;
    RunningFacts(s, t);
    MutexFacts(s, m);
    TryLockCases(s, t, m);
    OutWhenIdle(s, t);
    if s.mutexes[m].owner.None? {
      AbsAcquire(s, s', t, m);
      FreeHolder(s, m);
      EnterFree(Abs(s), Abs(s'), t, m, true);
    } else if s.mutexes[m].owner == Some(t) && s.mutexes[m].recursive {
      ReacquireQuiet(s, s', t, m);
      QuietAbs(s, s');
    } else {
      Stutter(s, s');
    }
  }

  lemma ExitFree(mo: Monitor, mo': Monitor, t: Tid, m: Mid)
    requires Can(mo, Exit(t, m)) && mo' == mo.(holder := mo.holder[m := None])
    ensures Perform(mo, [Exit(t, m)] + []) == Some(mo')
  {
    OneAction(mo, Exit(t, m));
    assert [Exit(t, m)] + [] == [Exit(t, m)];
  }

  lemma ExitGrant(mo: Monitor, mo': Monitor, t: Tid, m: Mid, v: Tid)
    requires Can(mo, Exit(t, m)) && v in mo.status && mo.status[v].Entering? && mo.status[v].m == m
    requires mo' == mo.(holder := mo.holder[m := Some(v)], status := mo.status[v := Out])
    ensures Perform(mo, [Exit(t, m)] + [Enter(v, m)]) == Some(mo')
  {
    TwoActions(mo, Exit(t, m), Enter(v, m));
    assert mo.holder[m := None][m := Some(v)] == mo.holder[m := Some(v)];
    assert [Exit(t, m)] + [Enter(v, m)] == [Exit(t, m), Enter(v, m)];
  }

  lemma RunningHolds(s: Sys, t: Tid, m: Mid)
    requires At(s, t, Running) && s.threads[t].wait.NoWait? && m in s.mutexes && s.mutexes[m].owner == Some(t)
    ensures Can(Abs(s), Exit(t, m))
  {
    OutWhenIdle(s, t);
  }

  /** The section of an unlock by the holder lets it out and the longest waiter in. */
  lemma ExitSteps(s: Sys, s': Sys, t: Tid, m: Mid, stage: Stage)
    requires Inv(s) && CanUnlock(s, t, m, stage) && At(s, t, Running) && s.mutexes[m].level == 1
    requires s' == UnlockSection(s, t, m, stage)
    ensures Simulates(s, [Exit(t, m)] + Granting(s.mutexes[m], m), s')
  {
    hide Inv, Holders, Statuses, CondQueues, Can, Perform, UnlockSection;
    var q := s.mutexes[m].queue;
    RunningHolds(s, t, m);
    if q == [] {
      AbsUnlock(s, s', t, m, stage, t);
      ExitFree(Abs(s), Abs(s'), t, m);
    } else {
      AbsUnlock(s, s', t, m, stage, q[0].t);
      ExitGrant(Abs(s), Abs(s'), t, m, q[0].t);
    }
  }

  lemma SimulateUnlock(s: Sys, s': Sys, t: Tid, m: Mid)
    requires Inv(s) && At(s, t, Running) && m in s.mutexes && s' == DoUnlock(s, t, m)
    ensures Simulates(s, UnlockScript(s, t, m), s')
  {
    RunningFacts(s, t);
    MutexFacts(s, m);
    if s.mutexes[m].owner != Some(t) {
      QuietAbs(s, s');
    } else if s.mutexes[m].level > 1 {
      UnlockOuter(s, t, m);
      LowerAbs(s, s', t, m);
    } else if s.mutexes[m].queue == [] {
      UnlockFreed(s, s', t, m);
      ExitSteps(s, s', t, m, Running);
    } else {
      UnlockHanded(s, s', t, m);
      ExitSteps(s, s', t, m, Yielding);
    }
  }

  lemma SimulateMutex(s: Sys, l: Label)
    requires Inv(s) && Enabled(s, l) && IsMutex(l)
    ensures Simulates(s, Script(s, l), Next(s, l))
  {
    hide Inv, Simulates, DoLock, DoTryLock, DoUnlock;
    match l {
      case Lock(t, m, timed) => SimulateLock(s, Next(s, l), t, m, timed);
      case TryLock(t, m) => SimulateTryLock(s, Next(s, l), t, m);
      case Unlock(t, m) => SimulateUnlock(s, Next(s, l), t, m);
    }
  }

  // ----- Condition variables -----

  /** Release-and-wait is one step, although the mutex is unlocked in a later section. */
  lemma SimulateCondWait(s: Sys, s': Sys, t: Tid, c: Cid, m: Mid, timed: bool)
    requires Inv(s) && At(s, t, Running) && c in s.conds && m in s.mutexes && !s.mutexes[m].recursive
    requires s' == DoCondWait(s, t, c, m, timed)
    ensures Simulates(s, if s.mutexes[m].owner == Some(t) then [Action.Wait(t, c, m, timed)] else [], s')
  {
    if s.mutexes[m].owner == Some(t) {
      RunningFacts(s, t);
      OutWhenIdle(s, t);
      CondWaitCases(s, t, c, m, timed);
      AbsRegister(s, s', t, OnCond(c, m, if timed then Some(s.nextTimer) else None), CondUnlock);
      OneAction(Abs(s), Action.Wait(t, c, m, timed));
    } else {
      QuietAbs(s, s');
    }
  }

  lemma ReleasedByWait(s: Sys, t: Tid, m: Mid)
    requires At(s, t, CondUnlock) && s.threads[t].wait.OnCond? && s.threads[t].wait.m == m
    requires m in s.mutexes && s.mutexes[m].owner == Some(t)
    ensures m in Abs(s).holder && Abs(s).holder[m] == None
  {
  }

  lemma LetIn(mo: Monitor, mo': Monitor, m: Mid, v: Tid)
    requires m in mo.holder && mo.holder[m] == None && v in mo.status && mo.status[v].Entering? && mo.status[v].m == m
    requires mo' == mo.(holder := mo.holder[m := Some(v)], status := mo.status[v := Out])
    ensures Perform(mo, [Enter(v, m)]) == Some(mo')
  {
    OneAction(mo, Enter(v, m));
  }

  /** The unlock inside a wait: the monitor was released when the wait began. */
  lemma SimulateUnlockInWait(s: Sys, s': Sys, t: Tid, w: Runtime.Wait)
    requires Inv(s) && At(s, t, CondUnlock) && w == s.threads[t].wait && w.OnCond? && w.m in s.mutexes
    requires s' == DoCondUnlock(s, t, w)
    ensures Simulates(s, Granting(s.mutexes[w.m], w.m), s')
  {
    hide Inv, Holders, Statuses, CondQueues, Can, Perform, UnlockSection, DoCondUnlock, MutexOk;
    var q := s.mutexes[w.m].queue;
    CondUnlockFacts(s, t);
    CondUnlockCases(s, t, w);
    ReleasedByWait(s, t, w.m);
    if q == [] {
      AbsUnlock(s, s', t, w.m, Parking, t);
      assert Holders(s)[w.m := None] == Holders(s);
      Stutter(s, s');
    } else {
      AbsUnlock(s, s', t, w.m, Yielding, q[0].t);
      LetIn(Abs(s), Abs(s'), w.m, q[0].t);
    }
  }

  lemma RelockFacts(s: Sys, s1: Sys, t: Tid, m: Mid)
    requires Inv(s) && At(s, t, Woken) && s.threads[t].wait.OnCond? && s.threads[t].wait.m == m && m in s.mutexes
    requires s1 == Leave(s, t)
    ensures s.mutexes[m].owner != Some(t) && !s.mutexes[m].recursive
    ensures t in Statuses(s) && Statuses(s)[t] == Entering(m, false)
    ensures Inv(s1) && At(s1, t, Running) && s1.mutexes == s.mutexes
  {
    ThreadOk(s, t);
    AwakeFacts(ViewOf(s, t));
    WokenFromCond(ViewOf(s, t));
    StatusAt(s, t);
    LeaveInv(s, t);
    LeftFacts(s, t);
  }

  lemma WokenFromCond(v: View)
    requires Ok(v) && v.th.stage.Woken? && v.th.wait.OnCond?
    ensures !v.owns
  {
  }

  lemma RelockEnqueues(s1: Sys, s': Sys, t: Tid, m: Mid)
    requires Inv(s1) && At(s1, t, Running) && m in s1.mutexes && s1.mutexes[m].owner.Some? && s1.mutexes[m].owner != Some(t)
    requires s' == DoLock(s1, t, m, false)
    ensures Abs(s') == Abs(s1).(status := Statuses(s1)[t := Entering(m, false)])
  {
    RunningFacts(s1, t);
    MutexFacts(s1, m);
    LockCases(s1, t, m, false);
    AbsRegister(s1, s', t, OnMutex(m, None), Parking);
  }

  lemma RelockAcquires(s1: Sys, s': Sys, t: Tid, m: Mid)
    requires Inv(s1) && At(s1, t, Running) && m in s1.mutexes && s1.mutexes[m].owner.None?
    requires s' == DoLock(s1, t, m, false)
    ensures Abs(s') == Abs(s1).(holder := Holders(s1)[m := Some(t)])
  {
    RunningFacts(s1, t);
    MutexFacts(s1, m);
    LockCases(s1, t, m, false);
    AbsAcquire(s1, s', t, m);
  }

  lemma RelockedIn(s: Sys, s1: Sys, s': Sys, t: Tid, m: Mid)
    requires Abs(s1) == Abs(s).(status := Statuses(s)[t := Out]) && Abs(s') == Abs(s1).(holder := Holders(s1)[m := Some(t)])
    requires t in Statuses(s) && Statuses(s)[t] == Entering(m, false) && m in Holders(s) && Holders(s)[m] == None
    ensures Simulates(s, [Enter(t, m)], s')
  {
    LetIn(Abs(s), Abs(s'), m, t);
  }

  lemma RelockQueued(s: Sys, s1: Sys, s': Sys, t: Tid, m: Mid)
    requires Abs(s1) == Abs(s).(status := Statuses(s)[t := Out])
    requires Abs(s') == Abs(s1).(status := Statuses(s1)[t := Entering(m, false)])
    requires t in Statuses(s) && Statuses(s)[t] == Entering(m, false)
    ensures Simulates(s, [], s')
  {
    hide Statuses, Holders, CondQueues;
    assert Statuses(s)[t := Out][t := Entering(m, false)] == Statuses(s);
    Stutter(s, s');
  }

  lemma FreeHolder(s: Sys, m: Mid)
    requires m in s.mutexes && s.mutexes[m].owner.None?
    ensures m in Holders(s) && Holders(s)[m] == None
  {
  }

  lemma SimulateRelock(s: Sys, s': Sys, t: Tid, m: Mid)
    requires Inv(s) && At(s, t, Woken) && s.threads[t].wait.OnCond? && s.threads[t].wait.m == m && m in s.mutexes
    requires s' == DoRelock(s, t, m)
    ensures Simulates(s, if s.mutexes[m].owner.None? then [Enter(t, m)] else [], s')
  {
    hide Inv, Holders, Statuses, CondQueues, Simulates, Leave, DoLock;
    var s1 := Leave(s, t);
    RelockFacts(s, s1, t, m);
    assert ThreadsOk(s) by { InvThreads(s); }
    AbsLeave(s, s1, t);
    if s.mutexes[m].owner.None? {
      RelockAcquires(s1, s', t, m);
      FreeHolder(s, m);
      RelockedIn(s, s1, s', t, m);
    } else {
      RelockEnqueues(s1, s', t, m);
      RelockQueued(s, s1, s', t, m);
    }
  }

  lemma InvThreads(s: Sys)
    requires Inv(s)
    ensures ThreadsOk(s)
  {
  }

  lemma NotifiedQuiet(s: Sys, s': Sys, who: Option<Tid>)
    requires Inv(s) && (who.Some? ==> At(s, who.value, Running)) && s' == Notified(s, who)
    ensures Abs(s') == Abs(s)
  {
    hide Inv, Abs;
    if who.Some? {
      RunningFacts(s, who.value);
      PutQuiet(s, s', who.value);
      QuietAbs(s, s');
    }
  }

  lemma SimulateNotifyOne(s: Sys, s': Sys, who: Option<Tid>, c: Cid)
    requires Inv(s) && c in s.conds && (who.Some? ==> At(s, who.value, Running)) && s' == DoNotifyOne(s, who, c)
    ensures Simulates(s, if s.conds[c] == [] then [] else [Signal(c)], s')
  {
    if s.conds[c] != [] {
      var s1 := PopWaiter(s, c);
      PopWaiterInv(s, c);
      if who.Some? { PopKeepsRunning(s, c, who.value); }
      AbsPop(s, s1, c);
      NotifiedQuiet(s1, s', who);
      OneAction(Abs(s), Signal(c));
    } else {
      Stutter(s, s');
    }
  }

  lemma SimulateNotifyAll(s: Sys, s': Sys, who: Option<Tid>, c: Cid)
    requires Inv(s) && c in s.conds && (who.Some? ==> At(s, who.value, Running)) && s' == DoNotifyAll(s, who, c)
    ensures Simulates(s, Signals(c, |s.conds[c]|), s')
  {
    PopAllInv(s, c);
    if who.Some? { PopAllKeepsRunning(s, c, who.value); }
    AbsPopAll(s, c);
    NotifiedQuiet(PopAllWaiters(s, c), s', who);
  }

  lemma SimulateCond(s: Sys, l: Label)
    requires Inv(s) && Enabled(s, l) && IsCond(l)
    ensures Simulates(s, Script(s, l), Next(s, l))
  {
    hide Inv, Simulates, DoCondWait, DoCondUnlock, DoRelock, DoNotifyOne, DoNotifyAll;
    match l {
      case CondWait(t, c, m, timed) => SimulateCondWait(s, Next(s, l), t, c, m, timed);
      case UnlockInWait(t) => SimulateUnlockInWait(s, Next(s, l), t, s.threads[t].wait);
      case Relock(t) => SimulateRelock(s, Next(s, l), t, s.threads[t].wait.m);
      case NotifyOne(who, c) => SimulateNotifyOne(s, Next(s, l), who, c);
      case NotifyAll(who, c) => SimulateNotifyAll(s, Next(s, l), who, c);
    }
  }

  // ----- Timers -----

  lemma {:induction false} TidsErase(q: seq<Entry>, t: Tid)
    ensures Tids(Erase(q, t)) == RemoveTid(Tids(q), t)
    ensures !Waits(q, t) ==> Erase(q, t) == q
    ensures t in Tids(q) <==> Waits(q, t)
  {
    if q != [] {
      TidsErase(q[1..], t);
      TidsTail(q);
      assert Tids(q) == [q[0].t] + Tids(q[1..]);
      if q[0].t != t {
        assert Tids([q[0]] + Erase(q[1..], t)) == [q[0].t] + Tids(Erase(q[1..], t));
        assert q == [q[0]] + q[1..];
      }
    }
  }

  lemma HandlerWaits(s: Sys, s': Sys, x: TimerId)
    requires Handling(s, x) && s' == DoTimerHandler(s, x)
    ensures s'.threads.Keys == s.threads.Keys && s'.mutexes.Keys == s.mutexes.Keys
    ensures forall u :: u in s.threads ==>
      s'.threads[u].stage == s.threads[u].stage && s'.threads[u].wait == s.threads[u].wait
    ensures forall m :: m in s.mutexes ==> s'.mutexes[m].owner == s.mutexes[m].owner
    ensures s'.conds == if s.timers[x].site.AtCond? && s.timers[x].site.c in s.conds && s.timers[x].phase == Expired
      then s.conds[s.timers[x].site.c := Erase(s.conds[s.timers[x].site.c], s.timers[x].t)] else s.conds
  {
    var s1 := s.(timers := s.timers[x := Ran(s.timers[x])]);
    HandlerParts(s, x);
    CleanupFields(s1, Cleanup(s1, s.timers[x]), s.timers[x]);
    PostFields(Cleanup(s1, s.timers[x]), s', s.timers[x].t);
  }

  lemma CleanupFields(s: Sys, s': Sys, tm: Timer)
    requires s' == Cleanup(s, tm)
    ensures s'.threads == s.threads && s'.mutexes.Keys == s.mutexes.Keys
    ensures forall m :: m in s.mutexes ==> s'.mutexes[m].owner == s.mutexes[m].owner
    ensures s'.conds == if tm.site.AtCond? && tm.site.c in s.conds && tm.phase == Expired
      then s.conds[tm.site.c := Erase(s.conds[tm.site.c], tm.t)] else s.conds
  {
    hide TimeoutStep, Erase;
    if tm.site.AtMutex? && tm.site.m in s.mutexes { TimeoutOwner(s.mutexes[tm.site.m], tm.t); }
  }

  lemma TimeoutOwner(ms: MutexState, t: Tid)
    ensures TimeoutStep(ms, t).owner == ms.owner
  {
  }

  lemma HandlerFits(s: Sys, x: TimerId)
    requires Inv(s) && CanHandle(s, x)
    ensures Handling(s, x)
  {
    assert TimerOwned(s, x);
    ThreadOk(s, s.timers[x].t);
    assert TimerFits(ViewOf(s, s.timers[x].t));
  }

  lemma GiveUpStatus(s: Sys, s': Sys, x: TimerId, c: Cid, t: Tid, u: Tid)
    requires Handling(s, x) && s' == DoTimerHandler(s, x) && s.timers[x].site == AtCond(c) && c in s.conds
    requires s.timers[x].phase == Expired && Distinct(s.conds[c]) && t == s.timers[x].t && u in s.threads
    ensures u in Statuses(s) && u in Statuses(s')
    ensures u != t ==> Statuses(s')[u] == Statuses(s)[u]
    ensures u == t ==> s.threads[t].wait.OnCond? && Statuses(s')[u] == Entering(s.threads[t].wait.m, false)
  {
    HandlerWaits(s, s', x);
    EraseWaits(s.conds[c], t);
    StatusAt(s, u);
    StatusAt(s', u);
  }

  lemma GiveUpStatuses(s: Sys, s': Sys, x: TimerId, c: Cid, t: Tid)
    requires Handling(s, x) && s' == DoTimerHandler(s, x) && s.timers[x].site == AtCond(c) && c in s.conds
    requires s.timers[x].phase == Expired && Distinct(s.conds[c]) && t == s.timers[x].t
    ensures s.threads[t].wait.OnCond? && t in Statuses(s)
    ensures Statuses(s') == Statuses(s)[t := Entering(s.threads[t].wait.m, false)]
  {
    GiveUpStatus(s, s', x, c, t, t);
    StatusKeys(s);
    StatusKeys(s');
    HandlerWaits(s, s', x);
    forall u | u in s.threads && u != t ensures Statuses(s')[u] == Statuses(s)[u] { GiveUpStatus(s, s', x, c, t, u); }
    UpdateBut(Statuses(s), Statuses(s'), t, t);
  }

  lemma GiveUpConds(s: Sys, s': Sys, c: Cid, t: Tid)
    requires c in s.conds && s'.conds == s.conds[c := Erase(s.conds[c], t)]
    ensures CondQueues(s') == CondQueues(s)[c := RemoveTid(CondQueues(s)[c], t)]
  {
    TidsErase(s.conds[c], t);
  }

  /** The handler that finds the entry takes it out: the waiter moves to the entry of the monitor. */
  lemma SimulateGiveUp(s: Sys, s': Sys, x: TimerId, c: Cid, t: Tid)
    requires Handling(s, x) && s' == DoTimerHandler(s, x) && s.timers[x].site == AtCond(c) && c in s.conds
    requires s.timers[x].phase == Expired && Distinct(s.conds[c]) && t == s.timers[x].t && Waits(s.conds[c], t)
    ensures Simulates(s, [GiveUpWait(t)], s')
  {
    GiveUpStatuses(s, s', x, c, t);
    HandlerWaits(s, s', x);
    GiveUpConds(s, s', c, t);
    HoldersKept(s, s');
    TidsErase(s.conds[c], t);
    StatusAt(s, t);
    OneAction(Abs(s), GiveUpWait(t));
  }

  lemma HandlerQuiet(s: Sys, s': Sys, x: TimerId)
    requires Handling(s, x) && s' == DoTimerHandler(s, x) && HandlerScript(s, x) == []
    ensures Quiet(s, s')
  {
    HandlerWaits(s, s', x);
    if s.timers[x].site.AtCond? && s.timers[x].site.c in s.conds { TidsErase(s.conds[s.timers[x].site.c], s.timers[x].t); }
  }

  lemma SimulateHandler(s: Sys, s': Sys, x: TimerId)
    requires Inv(s) && CanHandle(s, x) && s' == DoTimerHandler(s, x)
    ensures Simulates(s, HandlerScript(s, x), s')
  {
    HandlerFits(s, x);
    if HandlerScript(s, x) == [] {
      HandlerQuiet(s, s', x);
      QuietAbs(s, s');
    } else {
      assert CondQueueOk(s, s.timers[x].site.c);
      SimulateGiveUp(s, s', x, s.timers[x].site.c, s.timers[x].t);
    }
  }

  lemma SleepQuiet(s: Sys, s': Sys, t: Tid)
    requires At(s, t, Running) && s.threads[t].wait.NoWait?
    requires s' == Move(Arm(s, t, AtSleep), t, Parking, OnSleep(s.nextTimer))
    ensures Quiet(s, s')
  {
  }

  lemma ExpireQuiet(s: Sys, s': Sys, x: TimerId)
    requires x in s.timers && s' == DoExpire(s, x)
    ensures Quiet(s, s')
  {
  }

  lemma SimulateTimer(s: Sys, l: Label)
    requires Inv(s) && Enabled(s, l) && IsTimer(l)
    ensures Simulates(s, Script(s, l), Next(s, l))
  {
    hide Inv, Quiet, Simulates, DoTimerHandler, HandlerScript;
    match l {
      case Expire(x) => ExpireQuiet(s, Next(s, l), x); QuietAbs(s, Next(s, l));
      case TimerHandler(x) => SimulateHandler(s, Next(s, l), x);
      case Sleep(t) => RunningFacts(s, t); SleepQuiet(s, Next(s, l), t); QuietAbs(s, Next(s, l));
    }
  }

  // ----- Returning -----

  lemma GaveUp(s: Sys, t: Tid, m: Mid)
    requires Inv(s) && At(s, t, Woken) && s.threads[t].wait.OnMutex? && s.threads[t].wait.m == m && m in s.mutexes
    ensures t in Statuses(s)
    ensures Statuses(s)[t] == if s.mutexes[m].owner == Some(t) then Out else Entering(m, true)
  {
    ThreadOk(s, t);
    AwakeFacts(ViewOf(s, t));
    StatusAt(s, t);
  }

  lemma LeaveMutexAbs(s: Sys, s': Sys, t: Tid)
    requires Inv(s) && At(s, t, Woken) && s.threads[t].wait.OnMutex? && s.threads[t].wait.m in s.mutexes
    requires s' == LeaveMutex(s, t)
    ensures Abs(s') == Abs(s).(status := Statuses(s)[t := Out])
  {
    AbsLeave(s, Leave(s, t), t);
    HistoryAbs(Leave(s, t), s');
  }

  lemma LeftAlone(s: Sys, s': Sys, t: Tid)
    requires Abs(s') == Abs(s).(status := Statuses(s)[t := Out]) && t in Statuses(s)
    ensures Statuses(s)[t] == Out ==> Simulates(s, [], s')
    ensures Statuses(s)[t].Entering? && Statuses(s)[t].timed ==> Simulates(s, [GiveUpEntry(t)], s')
  {
    hide Statuses, Holders, CondQueues;
    if Statuses(s)[t] == Out {
      assert Statuses(s)[t := Out] == Statuses(s);
      Stutter(s, s');
    } else if Statuses(s)[t].Entering? && Statuses(s)[t].timed {
      OneAction(Abs(s), GiveUpEntry(t));
    }
  }

  lemma SimulateLockReturn(s: Sys, s': Sys, t: Tid, m: Mid)
    requires Inv(s) && At(s, t, Woken) && s.threads[t].wait.OnMutex? && s.threads[t].wait.m == m && m in s.mutexes
    requires s' == LeaveMutex(s, t)
    ensures Simulates(s, if s.mutexes[m].owner == Some(t) then [] else [GiveUpEntry(t)], s')
  {
    hide Inv, Statuses, Simulates, LeaveMutex;
    GaveUp(s, t, m);
    LeaveMutexAbs(s, s', t);
    LeftAlone(s, s', t);
  }

  lemma LeaveQuiet(s: Sys, s': Sys, t: Tid)
    requires At(s, t, Woken) && !s.threads[t].wait.OnMutex? && !s.threads[t].wait.OnCond? && s' == Leave(s, t)
    ensures Quiet(s, s')
  {
  }

  lemma ReturnQuiet(s: Sys, s': Sys, t: Tid, w: Runtime.Wait)
    requires At(s, t, Woken) && w == s.threads[t].wait && !w.OnMutex? && !w.OnCond? && (w.OnJoin? ==> w.f in s.threads)
    requires s' == DoReturn(s, t, w)
    ensures Quiet(s, s')
  {
    var s1 := Leave(s, t);
    LeaveQuiet(s, s1, t);
    if w.OnJoin? && w.rethrow {
      PropagateQuiet(s1, s', w.f);
      QuietTrans(s, s1, s');
    }
  }

  lemma SimulateReturn(s: Sys, s': Sys, t: Tid, w: Runtime.Wait)
    requires Inv(s) && CanReturn(s, t) && w == s.threads[t].wait && s' == DoReturn(s, t, w)
    ensures Simulates(s, ReturnScript(s, t, w), s')
  {
    ThreadOk(s, t);
    AwakeFacts(ViewOf(s, t));
    ReturnCases(s, t, w);
    if w.OnMutex? {
      SimulateLockReturn(s, s', t, w.m);
    } else {
      ReturnQuiet(s, s', t, w);
      QuietAbs(s, s');
    }
  }

  // ----- The scheduler -----

  lemma SpawnStatuses(s: Sys, s': Sys, child: Tid)
    requires child !in s.threads && s' == DoSpawn(s, child)
    ensures child !in Statuses(s) && Statuses(s') == Statuses(s)[child := Out]
  {
    hide Statuses, DoSpawn, ViewOf;
    StatusKeys(s);
    StatusKeys(s');
    SpawnFields(s, s', child);
    forall u | u in s'.threads ensures u in Statuses(s') && Statuses(s')[u] == if u == child then Out else Statuses(s)[u] {
      StatusIs(s', u);
      if u != child { StatusIs(s, u); }
    }
  }

  lemma SpawnFields(s: Sys, s': Sys, child: Tid)
    requires child !in s.threads && s' == DoSpawn(s, child)
    ensures s'.mutexes == s.mutexes && s'.conds == s.conds && s'.threads == s.threads[child := NewThread()]
  {
  }

  lemma SpawnHolders(s: Sys, s': Sys, child: Tid)
    requires child !in s.threads && s' == DoSpawn(s, child)
    ensures Holders(s') == Holders(s)
  {
    forall m | m in s.mutexes ensures HolderOf(s', m) == HolderOf(s, m) {}
  }

  lemma SimulateSpawn(s: Sys, s': Sys, child: Tid)
    requires Inv(s) && child !in s.threads && s' == DoSpawn(s, child)
    ensures Simulates(s, [Born(child)], s')
  {
    hide Statuses, Holders, CondQueues, DoSpawn;
    SpawnStatuses(s, s', child);
    SpawnHolders(s, s', child);
    SpawnFields(s, s', child);
    CondsKept(s, s');
    OneAction(Abs(s), Born(child));
  }

  lemma ProcessExitQuiet(s: Sys, s': Sys, t: Tid)
    requires t in s.threads && s.threadCount > 0 && s' == DoProcessExit(s, t)
    ensures Quiet(s, s')
  {
  }

  lemma CheckTimerQuiet(s: Sys, s': Sys)
    requires s' == s || s' == s.(stopped := true)
    ensures Quiet(s, s')
  {
  }

  lemma SimulateScheduler(s: Sys, l: Label)
    requires Inv(s) && Enabled(s, l) && IsScheduler(l)
    ensures Simulates(s, Script(s, l), Next(s, l))
  {
    hide Inv, Quiet, Simulates;
    match l {
      case Spawn(parent, child) => SimulateSpawn(s, Next(s, l), child);
      case ProcessExit(t) => ProcessExitQuiet(s, Next(s, l), t); QuietAbs(s, Next(s, l));
      case CheckTimer => CheckTimerQuiet(s, Next(s, l)); QuietAbs(s, Next(s, l));
    }
  }

  // ----- The refinement -----

  /** Every step of the run-time is the given sequence of monitor steps between the abstractions. */
  lemma StepRefines(s: Sys, l: Label)
    requires Inv(s) && Enabled(s, l)
    ensures Perform(Abs(s), Script(s, l)) == Some(Abs(Next(s, l)))
  {
    if IsMutex(l) { SimulateMutex(s, l); }
    else if IsCond(l) { SimulateCond(s, l); }
    else if IsTimer(l) { SimulateTimer(s, l); }
    else if l.Return? { SimulateReturn(s, Next(s, l), l.t, s.threads[l.t].wait); }
    else if IsScheduler(l) { SimulateScheduler(s, l); }
    else { SimulateQuiet(s, l); }
  }

  lemma SimulateQuiet(s: Sys, l: Label)
    requires Inv(s) && Enabled(s, l) && ((IsSwitch(l) && !l.Return?) || IsJoin(l))
    ensures Simulates(s, Script(s, l), Next(s, l))
  {
    hide Inv, Quiet, Simulates, Next, Enabled, Script;
    if l.JoinTest? || l.JoinPush? { JoinerQuiet(s, Next(s, l), l); }
    else if IsJoin(l) { EnderQuiet(s, Next(s, l), l); }
    else if l.EndStep? || l.Activate? { StrandQuiet(s, Next(s, l), l); }
    else { YieldQuiet(s, Next(s, l), l); }
    QuietAbs(s, Next(s, l));
    QuietScript(s, l);
  }

  lemma QuietScript(s: Sys, l: Label)
    requires Enabled(s, l) && ((IsSwitch(l) && !l.Return?) || IsJoin(l))
    ensures Script(s, l) == []
  {
    hide Enabled;
  }

  function Scripts(s: Sys, ls: seq<Label>): seq<Action>
    requires Exec(s, ls).Some?
    decreases |ls|
  {
    if ls == [] then [] else Script(s, ls[0]) + Scripts(Next(s, ls[0]), ls[1..])
  }

  /** Whole runs: the monitor steps of a run of the run-time are a run of the monitor. */
  lemma {:induction false} RunRefines(s: Sys, ls: seq<Label>)
    requires Inv(s) && Exec(s, ls).Some?
    ensures Perform(Abs(s), Scripts(s, ls)) == Some(Abs(Exec(s, ls).value))
    decreases |ls|
  {
    if ls != [] {
      var s1 := Next(s, ls[0]);
      StepInv(s, ls[0]);
      StepRefines(s, ls[0]);
      RunRefines(s1, ls[1..]);
      PerformSplit(Abs(s), Script(s, ls[0]), Scripts(s1, ls[1..]));
    }
  }

  // ----- What the run-time promises a waiter -----

  /** The same of the run-time: whatever run takes an untimed waiter back to its caller notified it
      while it was the longest waiter, and then gave it the mutex. */
  lemma WaitReturnsNotified(s: Sys, ls: seq<Label>, t: Tid, c: Cid, m: Mid) returns (i: nat, j: nat)
    requires Inv(s) && Exec(s, ls).Some?
    requires t in s.threads && s.threads[t].wait == OnCond(c, m, None) && HasEntry(s, t, s.threads[t].wait)
    requires t in Exec(s, ls).value.threads && Exec(s, ls).value.threads[t].wait.NoWait?
    ensures var acts := Scripts(s, ls);
      && i < j < |acts| && acts[i] == Signal(c) && acts[j] == Enter(t, m)
      && Perform(Abs(s), acts[..i]).Some?
      && var at := Perform(Abs(s), acts[..i]).value; c in at.conds && at.conds[c] != [] && at.conds[c][0] == t
  {
    RunRefines(s, ls);
    StatusIs(s, t);
    OutWhenIdle(Exec(s, ls).value, t);
    i, j := WaitEndsBySignal(Abs(s), Scripts(s, ls), t, c, m);
  }

  /** In every run of the run-time in which no timed wait on a condition is given up, notifications serve its
      waiters in the order in which they began to wait. */
  lemma ConditionIsFifo(s: Sys, ls: seq<Label>, c: Cid)
    requires Inv(s) && Exec(s, ls).Some? && c in s.conds && NobodyGivesUp(Scripts(s, ls))
    ensures Perform(Abs(s), Scripts(s, ls)).Some? && c in Exec(s, ls).value.conds
    ensures Tids(s.conds[c]) + Waiters(Scripts(s, ls), c)
         == Signalled(Abs(s), Scripts(s, ls), c) + Tids(Exec(s, ls).value.conds[c])
  {
    hide Inv, Enabled, Next, Scripts, Holders, Statuses, Perform, Waiters, Signalled;
    RunRefines(s, ls);
    SignalsAreFifo(Abs(s), Scripts(s, ls), c);
  }
}
