/** The unlock of a mutex, on its own or inside a condition wait, keeps the invariant. */
module RuntimeUnlock {
  import opened Basics
  import opened MutexModel
  import opened Runtime
  import opened RuntimeInvariant
  import opened RuntimeFrames
  import opened RuntimeWake
  import opened RuntimeSteps

  function Released(s: Sys, t: Tid, m: Mid): Sys
    requires m in s.mutexes
  {
    SubHeld(SetMutex(s, m, UnlockStep(s.mutexes[m], t).0), t, m)
  }

  /** The section of unlock() by the owner, and where its thread goes next. */
  function UnlockSection(s: Sys, t: Tid, m: Mid, stage: Stage): Sys
    requires t in s.threads && m in s.mutexes
  {
    var r, s1 := UnlockStep(s.mutexes[m], t).1, Released(s, t, m);
    var s2 := if r.Handed? then DoWake(s1, WakeOf(r.e)) else s1;
    Move(s2, t, stage, s2.threads[t].wait)
  }

  predicate CanUnlock(s: Sys, t: Tid, m: Mid, stage: Stage) {
    && t in s.threads && m in s.mutexes && s.mutexes[m].owner == Some(t)
    && var th := s.threads[t];
       || (th.stage.Running? && th.wait.NoWait? && (stage.Running? || stage.Yielding?))
       || (th.stage.CondUnlock? && th.wait.OnCond? && th.wait.m == m && (stage.Parking? || stage.Yielding?)
           && s.mutexes[m].level == 1)
  }

  lemma ReleasedOther(s: Sys, t: Tid, m: Mid, u: Tid)
    requires m in s.mutexes && s.mutexes[m].owner == Some(t) && Distinct(s.mutexes[m].queue)
    requires u in s.threads && u != t && (UnlockStep(s.mutexes[m], t).1.Handed? ==> u != UnlockStep(s.mutexes[m], t).1.e.t)
    ensures Unaffected(s, Released(s, t, m), u)
  {
    var ms, ms' := s.mutexes[m], UnlockStep(s.mutexes[m], t).0;
    SectionOther(s, Released(s, t, m), m, ms', u);
  }

  lemma ReleasedQueues(s: Sys, t: Tid, m: Mid)
    requires m in s.mutexes && s.mutexes[m].owner == Some(t) && QueuesOk(s) && t in s.threads
    ensures QueuesOk(Released(s, t, m))
  {
    var s', q := Released(s, t, m), s.mutexes[m].queue;
    assert MutexQueueOk(s, m);
    ApplyKeepsOk(s.mutexes[m], EUnlock(t));
    forall n | n in s'.mutexes && n != m ensures MutexQueueOk(s', n) { KeepMutex(s, s', t, n); }
    forall c | c in s'.conds ensures CondQueueOk(s', c) { KeepCond(s, s', t, c); }
    forall f | f in s'.threads ensures JoinQueueOk(s', f) { KeepJoin(s, s', t, f); }
    forall x | x in s'.timers ensures TimerOwned(s', x) { assert TimerOwned(s, x); }
  }

  lemma ReleasedHeld(s: Sys, t: Tid, m: Mid)
    requires m in s.mutexes && s.mutexes[m].owner == Some(t) && HeldOk(s) && MutexQueueOk(s, m)
    requires !LocksInside(s, t, m)
    ensures HeldOk(Released(s, t, m))
  {
    var s', q := Released(s, t, m), s.mutexes[m].queue;
    forall u: Tid, n: Mid ensures Held(s', u, n) == ExpectedHeld(s', u, n) {
      assert Held(s, u, n) == ExpectedHeld(s, u, n);
    }
  }

  /** The wait of the thread the mutex is handed to. */
  lemma GrantedEntry(s: Sys, m: Mid)
    requires m in s.mutexes && s.mutexes[m].queue != [] && MutexQueueOk(s, m)
    ensures s.mutexes[m].queue[0].t in s.threads
    ensures s.threads[s.mutexes[m].queue[0].t].wait == OnMutex(m, s.mutexes[m].queue[0].timer)
    ensures Waits(s.mutexes[m].queue, s.mutexes[m].queue[0].t) && Distinct(s.mutexes[m].queue)
  {
  }

  lemma OkGranted(v: View, v': View)
    requires Ok(v) && v.th.wait.OnMutex? && v.entry && !v.owns
    requires v' == v.(entry := false, owns := true, th := v'.th, timer := v'.timer)
    requires v.th.wait.timer.None? ==> v'.th == v.th.(pending := v.th.pending + 1) && v'.timer == v.timer
    requires v.th.wait.timer.Some? ==> v'.th == v.th && v.timer.Some? && v'.timer == Some(Chosen(v.timer.value))
    ensures Ok(v')
  {
  }

  lemma OkUnlocker(v: View, stage: Stage)
    requires Ok(v)
    requires (v.th.stage.Running? && (stage.Running? || stage.Yielding?))
      || (v.th.stage.CondUnlock? && (stage.Parking? || stage.Yielding?))
    ensures Ok(v.(th := v.th.(stage := stage), owns := false))
  {
  }

  lemma ReleaserView(s: Sys, t: Tid, m: Mid)
    requires t in s.threads && m in s.mutexes && s.mutexes[m].owner == Some(t) && MutexQueueOk(s, m)
    requires UnlockStep(s.mutexes[m], t).1 != StillHeld
    requires s.threads[t].wait.NoWait? || (s.threads[t].wait.OnCond? && s.threads[t].wait.m == m)
    ensures ViewOf(Released(s, t, m), t) == ViewOf(s, t).(owns := false)
  {
    if s.mutexes[m].queue != [] { GrantedEntry(s, m); }
  }

  lemma MovedView(s: Sys, s': Sys, t: Tid, stage: Stage)
    requires t in s.threads && s' == Move(s, t, stage, s.threads[t].wait)
    requires s.threads[t].wait.NoWait? || s.threads[t].wait.OnCond?
    ensures ViewOf(s', t) == ViewOf(s, t).(th := s.threads[t].(stage := stage))
  {
  }

  lemma MovedOther(s: Sys, t: Tid, stage: Stage, u: Tid)
    requires t in s.threads && !stage.Stopped? && !s.threads[t].stage.Stopped? && u in s.threads && u != t
    ensures Unaffected(s, Move(s, t, stage, s.threads[t].wait), u)
  {
  }

  lemma UnlockerView(s: Sys, t: Tid, m: Mid, stage: Stage)
    requires CanUnlock(s, t, m, stage) && MutexQueueOk(s, m) && TimerBound(s, t) && Known(s, s.threads[t].wait)
    requires UnlockStep(s.mutexes[m], t).1 != StillHeld
    requires s.mutexes[m].queue != [] ==> OwnTimer(s, s.mutexes[m].queue[0])
    ensures ViewOf(UnlockSection(s, t, m, stage), t)
         == ViewOf(s, t).(th := s.threads[t].(stage := stage), owns := false)
  {
    var q, s1 := s.mutexes[m].queue, Released(s, t, m);
    ReleaserView(s, t, m);
    if q == [] {
      MovedView(s1, UnlockSection(s, t, m, stage), t, stage);
    } else {
      GrantedEntry(s, m);
      var s2 := DoWake(s1, WakeOf(q[0]));
      WakeOther(s1, q[0], t);
      SameViewFor(s1, s2, t);
      MovedView(s2, UnlockSection(s, t, m, stage), t, stage);
    }
  }

  lemma GrantedView(s: Sys, t: Tid, m: Mid, stage: Stage)
    requires CanUnlock(s, t, m, stage) && MutexQueueOk(s, m) && s.mutexes[m].level == 1 && s.mutexes[m].queue != []
    requires OwnTimer(s, s.mutexes[m].queue[0]) && Ok(ViewOf(s, s.mutexes[m].queue[0].t))
    ensures Ok(ViewOf(UnlockSection(s, t, m, stage), s.mutexes[m].queue[0].t))
  {
    var e := s.mutexes[m].queue[0];
    GrantedEntry(s, m);
    var s' := UnlockSection(s, t, m, stage);
    OkGranted(ViewOf(s, e.t), ViewOf(s', e.t));
  }

  lemma UnlockOther(s: Sys, t: Tid, m: Mid, stage: Stage, u: Tid)
    requires CanUnlock(s, t, m, stage) && s.mutexes[m].level == 1 && Distinct(s.mutexes[m].queue)
    requires s.mutexes[m].queue != [] ==> OwnTimer(s, s.mutexes[m].queue[0]) && u != s.mutexes[m].queue[0].t
    requires u in s.threads && u != t
    ensures Unaffected(s, UnlockSection(s, t, m, stage), u)
  {
    var s', q, s1 := UnlockSection(s, t, m, stage), s.mutexes[m].queue, Released(s, t, m);
    ReleasedOther(s, t, m, u);
    if q == [] {
      MovedOther(s1, t, stage, u);
      UnaffectedTrans(s, s1, s', u);
    } else {
      var s2 := DoWake(s1, WakeOf(q[0]));
      WakeOther(s1, q[0], u);
      MovedOther(s2, t, stage, u);
      UnaffectedTrans(s, s1, s2, u);
      UnaffectedTrans(s, s2, s', u);
    }
  }

  lemma UnlockerOk(s: Sys, t: Tid, m: Mid, stage: Stage)
    requires CanUnlock(s, t, m, stage) && MutexQueueOk(s, m) && Ok(ViewOf(s, t)) && s.mutexes[m].level == 1
    requires s.mutexes[m].queue != [] ==> OwnTimer(s, s.mutexes[m].queue[0])
    ensures Ok(ViewOf(UnlockSection(s, t, m, stage), t))
  {
    OkBound(s, t);
    UnlockerView(s, t, m, stage);
    OkUnlocker(ViewOf(s, t), stage);
  }

  lemma FrontOwnsTimer(s: Sys, m: Mid)
    requires ThreadsOk(s) && m in s.mutexes && s.mutexes[m].queue != [] && MutexQueueOk(s, m)
    ensures OwnTimer(s, s.mutexes[m].queue[0])
  {
    GrantedEntry(s, m);
    OkBound(s, s.mutexes[m].queue[0].t);
  }

  /** Only the views of the unlocker and of the thread handed the mutex change. */
  lemma UnlockThreads(s: Sys, t: Tid, m: Mid, stage: Stage, v: Tid)
    requires ThreadsOk(s) && CanUnlock(s, t, m, stage) && s.mutexes[m].level == 1 && MutexQueueOk(s, m)
    requires s.mutexes[m].queue != [] ==> OwnTimer(s, s.mutexes[m].queue[0])
    requires v == if s.mutexes[m].queue == [] then t else s.mutexes[m].queue[0].t
    ensures ThreadsOk(UnlockSection(s, t, m, stage))
  {
    var s' := UnlockSection(s, t, m, stage);
    assert s'.threads.Keys == s.threads.Keys;
    UnlockerOk(s, t, m, stage);
    if v != t { GrantedView(s, t, m, stage); }
    forall u | u in s.threads && u != t && u != v ensures Unaffected(s, s', u) {
      UnlockOther(s, t, m, stage, u);
    }
    OthersOk(s, s', t, v);
  }

  lemma MovedRest(s: Sys, s': Sys, t: Tid)
    requires Rest(s) && LocalStep(s, s', t)
    ensures Rest(s')
  {
    LocalQueues(s, s', t);
    LocalHeld(s, s', t);
    SchedFrame(s, s');
  }

  lemma ReleasedRest(s: Sys, t: Tid, m: Mid)
    requires Rest(s) && t in s.threads && m in s.mutexes && s.mutexes[m].owner == Some(t) && !LocksInside(s, t, m)
    ensures Rest(Released(s, t, m))
  {
    ReleasedQueues(s, t, m);
    assert MutexQueueOk(s, m);
    ReleasedHeld(s, t, m);
    SchedFrame(s, Released(s, t, m));
  }

  lemma UnlockRest(s: Sys, t: Tid, m: Mid, stage: Stage)
    requires Rest(s) && CanUnlock(s, t, m, stage) && s.mutexes[m].level == 1
    requires s.mutexes[m].queue != [] ==> OwnTimer(s, s.mutexes[m].queue[0])
    ensures Rest(UnlockSection(s, t, m, stage))
  {
    var s', q, s1 := UnlockSection(s, t, m, stage), s.mutexes[m].queue, Released(s, t, m);
    ReleasedRest(s, t, m);
    if q == [] {
      MovedRest(s1, s', t);
    } else {
      var s2 := DoWake(s1, WakeOf(q[0]));
      WakeQueues(s1, q[0]);
      WakeCounts(s1, q[0]);
      MovedRest(s2, s', t);
    }
  }

  lemma UnlockSectionInv(s: Sys, t: Tid, m: Mid, stage: Stage)
    requires Inv(s) && CanUnlock(s, t, m, stage) && s.mutexes[m].level == 1
    ensures Inv(UnlockSection(s, t, m, stage))
  {
    assert MutexQueueOk(s, m);
    if s.mutexes[m].queue != [] { FrontOwnsTimer(s, m); }
    UnlockThreads(s, t, m, stage, if s.mutexes[m].queue == [] then t else s.mutexes[m].queue[0].t);
    UnlockRest(s, t, m, stage);
  }
}
