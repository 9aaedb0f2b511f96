/** What holds in every reachable state of the run-time. */
module RuntimeSafety {
  import opened Basics
  import opened MutexModel
  import opened Runtime
  import opened RuntimeInvariant
  import opened RuntimeSteps
  import opened RuntimeReturn
  import opened RuntimeJoin
  import opened RuntimeDispatch

  lemma InitialInv(s: Sys)
    requires Initial(s)
    ensures Inv(s)
  {
    assert Live(s) == {};
  }

  predicate IsMutex(l: Label) {
    l.Lock? || l.TryLock? || l.Unlock?
  }

  lemma MutexStepInv(s: Sys, l: Label)
    requires Inv(s) && Enabled(s, l) && IsMutex(l)
    ensures Inv(Next(s, l))
  {
    hide Inv;
    match l {
      case Lock(t, m, timed) => LockInv(s, t, m, timed);
      case TryLock(t, m) => TryLockInv(s, t, m);
      case Unlock(t, m) => UnlockInv(s, t, m);
    }
  }

  predicate IsCond(l: Label) {
    l.CondWait? || l.UnlockInWait? || l.Relock? || l.NotifyOne? || l.NotifyAll?
  }

  lemma CondStepInv(s: Sys, l: Label)
    requires Inv(s) && Enabled(s, l) && IsCond(l)
    ensures Inv(Next(s, l))
  {
    hide Inv;
    match l {
      case CondWait(t, c, m, timed) => CondWaitInv(s, t, c, m, timed);
      case UnlockInWait(t) => UnlockInWaitInv(s, t);
      case Relock(t) => RelockInv(s, t);
      case NotifyOne(who, c) => NotifyOneInv(s, who, c);
      case NotifyAll(who, c) => NotifyAllInv(s, who, c);
    }
  }

  predicate IsTimer(l: Label) {
    l.Expire? || l.TimerHandler? || l.Sleep?
  }

  lemma TimerStepInv(s: Sys, l: Label)
    requires Inv(s) && Enabled(s, l) && IsTimer(l)
    ensures Inv(Next(s, l))
  {
    hide Inv;
    match l {
      case Expire(x) => StepExpire(s, x);
      case TimerHandler(x) => StepTimerHandler(s, x);
      case Sleep(t) => SleepInv(s, t);
    }
  }

  predicate IsSwitch(l: Label) {
    l.Pause? || l.UserYield? || l.Yield? || l.EndStep? || l.Activate? || l.Return?
  }

  lemma SwitchStepInv(s: Sys, l: Label)
    requires Inv(s) && Enabled(s, l) && IsSwitch(l)
    ensures Inv(Next(s, l))
  {
    hide Inv;
    match l {
      case Pause(t) => StepPause(s, t);
      case UserYield(t) => MustYieldInv(s, t);
      case Yield(t, switch) => YieldInv(s, t, switch);
      case EndStep(t) => EndStepInv(s, t);
      case Activate(t) => ActivateInv(s, t);
      case Return(t) => ReturnInv(s, t);
    }
  }

  predicate IsJoin(l: Label) {
    l.JoinTest? || l.JoinPush? || l.Stop? || l.Drain? || l.DrainOne? || l.DrainEnd?
  }

  lemma JoinStepInv(s: Sys, l: Label)
    requires Inv(s) && Enabled(s, l) && IsJoin(l)
    ensures Inv(Next(s, l))
  {
    hide Inv;
    match l {
      case JoinTest(t, f, rethrow) => JoinTestInv(s, t, f, rethrow);
      case JoinPush(t) => JoinPushInv(s, t);
      case Stop(t, throws) => StopInv(s, t, throws);
      case Drain(f) => DrainInv(s, f);
      case DrainOne(f) => DrainOneInv(s, f);
      case DrainEnd(f) => DrainEndInv(s, f);
    }
  }

  predicate IsScheduler(l: Label) {
    l.Spawn? || l.ProcessExit? || l.CheckTimer?
  }

  lemma SchedulerStepInv(s: Sys, l: Label)
    requires Inv(s) && Enabled(s, l) && IsScheduler(l)
    ensures Inv(Next(s, l))
  {
    hide Inv;
    match l {
      case Spawn(parent, child) => SpawnStepInv(s, parent, child);
      case ProcessExit(t) => ProcessExitInv(s, t);
      case CheckTimer => CheckTimerInv(s);
    }
  }

  lemma StepInv(s: Sys, l: Label)
    requires Inv(s) && Enabled(s, l)
    ensures Inv(Next(s, l))
  {
    hide Inv, Next;
    if IsMutex(l) { MutexStepInv(s, l); }
    else if IsCond(l) { CondStepInv(s, l); }
    else if IsTimer(l) { TimerStepInv(s, l); }
    else if IsSwitch(l) { SwitchStepInv(s, l); }
    else if IsJoin(l) { JoinStepInv(s, l); }
    else { SchedulerStepInv(s, l); }
  }

  /** The states a run can reach from an initial one. */
  ghost predicate Reachable(s: Sys) {
    exists s0: Sys, ls: seq<Label> :: Initial(s0) && Exec(s0, ls) == Some(s)
  }

  lemma {:induction false} ExecInv(s: Sys, ls: seq<Label>)
    requires Inv(s) && Exec(s, ls).Some?
    ensures Inv(Exec(s, ls).value)
    decreases |ls|
  {
    if ls != [] {
      StepInv(s, ls[0]);
      ExecInv(Next(s, ls[0]), ls[1..]);
    }
  }

  lemma ReachableInv(s: Sys)
    requires Reachable(s)
    ensures Inv(s)
  {
    var s0: Sys, ls: seq<Label> :| Initial(s0) && Exec(s0, ls) == Some(s);
    InitialInv(s0);
    ExecInv(s0, ls);
  }
}
