/** Steps by which a thread begins a wait or takes a free mutex. */
module RuntimeRegister {
  import opened Basics
  import opened Runtime
  import opened RuntimeInvariant
  import opened RuntimeFrames

  /** The effect common to lock(), try_lock_rel(), wait(), wait_rel() and sleep_rel(): an entry at the
      end of the queue, a timer armed if the wait is timed, and the thread on its way to a pause. */
  function Register(s: Sys, t: Tid, w: Wait, stage: Stage): Sys
    requires t in s.threads && Known(s, w)
  {
    s.(mutexes := match w
         case OnMutex(m, timer) => s.mutexes[m := s.mutexes[m].(queue := s.mutexes[m].queue + [Entry(t, timer)])]
         case _ => s.mutexes,
       conds := match w
         case OnCond(c, _, timer) => s.conds[c := s.conds[c] + [Entry(t, timer)]]
         case _ => s.conds,
       timers := if TimerOf(w).Some? then s.timers[TimerOf(w).value := Timer(t, SiteOf(w), Armed, false, false, false)]
                 else s.timers,
       nextTimer := if TimerOf(w).Some? then s.nextTimer + 1 else s.nextTimer,
       threads := s.threads[t := s.threads[t].(stage := stage, wait := w)])
  }

  predicate CanRegister(s: Sys, t: Tid, w: Wait, stage: Stage) {
    && At(s, t, Running) && Known(s, w)
    && (w.OnMutex? || w.OnCond? || w.OnSleep?)
    && (w.OnMutex? ==> s.mutexes[w.m].owner.Some? && s.mutexes[w.m].owner != Some(t))
    && (w.OnCond? ==> s.mutexes[w.m].owner == Some(t))
    && stage == (if w.OnCond? then CondUnlock else Parking)
    && (TimerOf(w).Some? ==> TimerOf(w).value == s.nextTimer)
  }

  lemma RegisterOther(s: Sys, t: Tid, w: Wait, stage: Stage, u: Tid)
    requires CanRegister(s, t, w, stage) && u in s.threads && u != t && s.nextTimer !in s.timers
    ensures Unaffected(s, Register(s, t, w, stage), u)
  {
    var s' := Register(s, t, w, stage);
    assert MutexSame(s, s', u) by {
      if w.OnMutex? { AppendWaits(s.mutexes[w.m].queue, Entry(t, w.timer)); }
    }
    assert CondSame(s, s', u) by {
      if w.OnCond? { AppendWaits(s.conds[w.c], Entry(t, w.timer)); }
    }
  }

  lemma RegisterSelf(s: Sys, t: Tid, w: Wait, stage: Stage)
    requires CanRegister(s, t, w, stage) && Ok(ViewOf(s, t))
    ensures Ok(ViewOf(Register(s, t, w, stage), t))
  {
    match w {
      case OnMutex(m, timer) => AppendWaits(s.mutexes[m].queue, Entry(t, timer));
      case OnCond(c, m, timer) => AppendWaits(s.conds[c], Entry(t, timer));
      case _ =>
    }
  }

  lemma RegisterMutexes(s: Sys, t: Tid, w: Wait, stage: Stage, m: Mid)
    requires CanRegister(s, t, w, stage) && m in s.mutexes && MutexQueueOk(s, m) && !Waits(s.mutexes[m].queue, t)
    ensures MutexQueueOk(Register(s, t, w, stage), m)
  {
    var s' := Register(s, t, w, stage);
    if s'.mutexes[m] == s.mutexes[m] {
      KeepMutex(s, s', t, m);
    } else {
      AppendWaits(s.mutexes[m].queue, Entry(t, TimerOf(w)));
      WaitsEntries(s.mutexes[m].queue);
    }
  }

  lemma RegisterConds(s: Sys, t: Tid, w: Wait, stage: Stage, c: Cid)
    requires CanRegister(s, t, w, stage) && c in s.conds && CondQueueOk(s, c) && !Waits(s.conds[c], t)
    ensures CondQueueOk(Register(s, t, w, stage), c)
  {
    var s' := Register(s, t, w, stage);
    if s'.conds[c] == s.conds[c] {
      KeepCond(s, s', t, c);
    } else {
      AppendWaits(s.conds[c], Entry(t, TimerOf(w)));
      WaitsEntries(s.conds[c]);
    }
  }

  lemma RegisterTimers(s: Sys, t: Tid, w: Wait, stage: Stage, x: TimerId)
    requires CanRegister(s, t, w, stage) && x in Register(s, t, w, stage).timers
    requires x in s.timers ==> TimerOwned(s, x) && s.timers[x].t != t
    ensures TimerOwned(Register(s, t, w, stage), x)
  {
  }

  lemma RegisterQueues(s: Sys, t: Tid, w: Wait, stage: Stage)
    requires CanRegister(s, t, w, stage) && QueuesOk(s) && s.threads[t].wait.NoWait?
    ensures QueuesOk(Register(s, t, w, stage))
  {
    var s' := Register(s, t, w, stage);
    NotQueued(s, t);
    forall m | m in s'.mutexes ensures MutexQueueOk(s', m) { RegisterMutexes(s, t, w, stage, m); }
    forall c | c in s'.conds ensures CondQueueOk(s', c) { RegisterConds(s, t, w, stage, c); }
    forall f | f in s'.threads ensures JoinQueueOk(s', f) { KeepJoin(s, s', t, f); }
    forall x | x in s'.timers ensures TimerOwned(s', x) { RegisterTimers(s, t, w, stage, x); }
  }

  lemma RegisterThreads(s: Sys, t: Tid, w: Wait, stage: Stage)
    requires CanRegister(s, t, w, stage) && ThreadsOk(s) && s.nextTimer !in s.timers
    ensures ThreadsOk(Register(s, t, w, stage))
  {
    var s' := Register(s, t, w, stage);
    forall u | u in s.threads && u != t ensures Unaffected(s, s', u) { RegisterOther(s, t, w, stage, u); }
    RegisterSelf(s, t, w, stage);
    OthersOk(s, s', t, t);
  }

  lemma RegisterCounts(s: Sys, t: Tid, w: Wait, stage: Stage)
    requires CanRegister(s, t, w, stage) && HeldOk(s) && SchedOk(s) && s.threads[t].wait.NoWait?
    ensures HeldOk(Register(s, t, w, stage)) && SchedOk(Register(s, t, w, stage))
  {
    var s' := Register(s, t, w, stage);
    HeldFrame(s, s');
    SchedFrame(s, s');
  }

  lemma RegisterInv(s: Sys, t: Tid, w: Wait, stage: Stage)
    requires Inv(s) && CanRegister(s, t, w, stage)
    ensures Inv(Register(s, t, w, stage))
  {
    ThreadOk(s, t);
    FreshTimer(s);
    RegisterThreads(s, t, w, stage);
    RegisterQueues(s, t, w, stage);
    RegisterCounts(s, t, w, stage);
  }
}
