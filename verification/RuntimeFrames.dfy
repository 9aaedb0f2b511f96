/** What a step may leave unlooked at: frame lemmas for the parts of the invariant. */
module RuntimeFrames {
  import opened Basics
  import opened MutexModel
  import opened Runtime
  import opened RuntimeInvariant

  // ----- One thread's view of the rest of the state -----

  ghost predicate MutexSame(s: Sys, s': Sys, u: Tid) {
    && s'.mutexes.Keys == s.mutexes.Keys
    && forall m :: m in s.mutexes ==>
         && s'.mutexes[m].recursive == s.mutexes[m].recursive
         && (s'.mutexes[m].owner == Some(u) <==> s.mutexes[m].owner == Some(u))
         && (Waits(s'.mutexes[m].queue, u) <==> Waits(s.mutexes[m].queue, u))
  }

  ghost predicate CondSame(s: Sys, s': Sys, u: Tid) {
    && s'.conds.Keys == s.conds.Keys
    && forall c :: c in s.conds ==> (Waits(s'.conds[c], u) <==> Waits(s.conds[c], u))
  }

  ghost predicate TimerSame(s: Sys, s': Sys, u: Tid) {
    forall x :: x in s.timers && s.timers[x].t == u ==> x in s'.timers && s'.timers[x] == s.timers[x]
  }

  predicate InJoinQueue(th: Thread, u: Tid) {
    u in th.joinQueue || u in th.draining
  }

  predicate LockedBy(th: Thread, u: Tid) {
    th.joinLock == Some(u) && !Drained(th)
  }

  ghost predicate JoinSame(s: Sys, s': Sys, u: Tid) {
    forall f :: f in s.threads ==>
      && f in s'.threads
      && InJoinQueue(s'.threads[f], u) == InJoinQueue(s.threads[f], u)
      && LockedBy(s'.threads[f], u) == LockedBy(s.threads[f], u)
      && s'.threads[f].stage.Stopped? == s.threads[f].stage.Stopped?
  }

  ghost predicate Unaffected(s: Sys, s': Sys, u: Tid) {
    && u in s.threads && u in s'.threads && s'.threads[u] == s.threads[u]
    && MutexSame(s, s', u) && CondSame(s, s', u) && TimerSame(s, s', u) && JoinSame(s, s', u)
  }

  /** The timer named by a thread's wait exists and is its own. */
  predicate TimerBound(s: Sys, u: Tid)
    requires u in s.threads
  {
    var x := TimerOf(s.threads[u].wait);
    x.Some? ==> x.value in s.timers && s.timers[x.value].t == u
  }

  lemma SameViewFor(s: Sys, s': Sys, u: Tid)
    requires Unaffected(s, s', u) && TimerBound(s, u) && Known(s, s.threads[u].wait)
    ensures ViewOf(s', u) == ViewOf(s, u)
  {
    var w := s.threads[u].wait;
    assert HasEntry(s', u, w) == HasEntry(s, u, w);
    assert InsideJoin(s', u, w) == InsideJoin(s, u, w) by {
      if w.OnJoin? { assert LockedBy(s'.threads[w.f], u) == LockedBy(s.threads[w.f], u); }
    }
  }

  lemma OkBound(s: Sys, u: Tid)
    requires u in s.threads && Ok(ViewOf(s, u))
    ensures TimerBound(s, u) && Known(s, s.threads[u].wait)
  {
    assert TimerFits(ViewOf(s, u));
  }

  lemma SameView(s: Sys, s': Sys, u: Tid)
    requires Unaffected(s, s', u) && Ok(ViewOf(s, u))
    ensures ViewOf(s', u) == ViewOf(s, u)
  {
    OkBound(s, u);
    SameViewFor(s, s', u);
  }

  lemma UnaffectedTrans(s: Sys, s1: Sys, s2: Sys, u: Tid)
    requires Unaffected(s, s1, u) && Unaffected(s1, s2, u)
    ensures Unaffected(s, s2, u)
  {
  }

  lemma SetMutexOther(s: Sys, m: Mid, ms: MutexState, u: Tid)
    requires m in s.mutexes && u in s.threads && ms.recursive == s.mutexes[m].recursive
    requires ms.owner == Some(u) <==> s.mutexes[m].owner == Some(u)
    requires Waits(ms.queue, u) <==> Waits(s.mutexes[m].queue, u)
    ensures Unaffected(s, SetMutex(s, m, ms), u)
  {
  }

  /** A section that rewrites one mutex and the history. */
  lemma SectionOther(s: Sys, s': Sys, m: Mid, ms: MutexState, u: Tid)
    requires m in s.mutexes && u in s.threads && ms.recursive == s.mutexes[m].recursive
    requires s' == s.(mutexes := s.mutexes[m := ms], held := s'.held)
    requires ms.owner == Some(u) <==> s.mutexes[m].owner == Some(u)
    requires Waits(ms.queue, u) <==> Waits(s.mutexes[m].queue, u)
    ensures Unaffected(s, s', u)
  {
  }

  lemma HistoryOther(s: Sys, held: map<(Tid, Mid), nat>, u: Tid)
    requires u in s.threads
    ensures Unaffected(s, s.(held := held), u)
  {
  }

  /** A step that changes the views of at most t and v keeps everybody's. */
  lemma OthersOk(s: Sys, s': Sys, t: Tid, v: Tid)
    requires ThreadsOk(s) && s'.threads.Keys == s.threads.Keys
    requires t in s.threads && Ok(ViewOf(s', t)) && v in s.threads && Ok(ViewOf(s', v))
    requires forall u :: u in s.threads && u != t && u != v ==> Unaffected(s, s', u)
    ensures ThreadsOk(s')
  {
    forall u | u in s'.threads ensures Ok(ViewOf(s', u)) {
      if u != t && u != v { SameView(s, s', u); }
    }
  }

  lemma FreshTimer(s: Sys)
    requires QueuesOk(s)
    ensures s.nextTimer !in s.timers
    ensures forall x :: x in s.timers ==> x < s.nextTimer
  {
    assert forall x :: x in s.timers ==> TimerOwned(s, x);
  }

  // ----- Queues -----

  predicate SameWait(a: Thread, b: Thread) {
    a.wait == b.wait && a.stage.Joining? == b.stage.Joining?
  }

  /** Every thread but t waits for what it waited for. */
  ghost predicate WaitsKept(s: Sys, s': Sys, t: Tid) {
    forall u :: u in s.threads && u != t ==> u in s'.threads && SameWait(s.threads[u], s'.threads[u])
  }

  lemma KeepMutex(s: Sys, s': Sys, t: Tid, m: Mid)
    requires m in s.mutexes && m in s'.mutexes && s'.mutexes[m] == s.mutexes[m] && MutexQueueOk(s, m)
    requires WaitsKept(s, s', t) && t in s.threads && t in s'.threads
    requires Waits(s.mutexes[m].queue, t) ==> s'.threads[t].wait == s.threads[t].wait
    ensures MutexQueueOk(s', m)
  {
    WaitsEntries(s.mutexes[m].queue);
  }

  lemma KeepCond(s: Sys, s': Sys, t: Tid, c: Cid)
    requires c in s.conds && c in s'.conds && s'.conds[c] == s.conds[c] && CondQueueOk(s, c)
    requires WaitsKept(s, s', t) && t in s.threads && t in s'.threads
    requires Waits(s.conds[c], t) ==> s'.threads[t].wait == s.threads[t].wait
    ensures CondQueueOk(s', c)
  {
    WaitsEntries(s.conds[c]);
  }

  lemma KeepJoin(s: Sys, s': Sys, t: Tid, f: Tid)
    requires f in s.threads && f in s'.threads && JoinQueueOk(s, f)
    requires WaitsKept(s, s', t) && t in s.threads && t in s'.threads
    requires s'.threads[f].joinQueue == s.threads[f].joinQueue && s'.threads[f].draining == s.threads[f].draining
    requires Drained(s'.threads[f]) ==> Drained(s.threads[f])
    requires s'.threads[f].phase != Draining ==> s.threads[f].phase != Draining
    requires InJoinQueue(s.threads[f], t) ==> SameWait(s.threads[t], s'.threads[t])
    ensures JoinQueueOk(s', f)
  {
  }

  ghost predicate Free(s: Sys, t: Tid) {
    && t in s.threads
    && (forall m :: m in s.mutexes ==> !Waits(s.mutexes[m].queue, t))
    && (forall c :: c in s.conds ==> !Waits(s.conds[c], t))
    && (forall f :: f in s.threads ==> !InJoinQueue(s.threads[f], t))
    && (forall x :: x in s.timers ==> s.timers[x].t != t)
  }

  /** A thread that waits for nothing is in no queue. */
  lemma NotQueued(s: Sys, t: Tid)
    requires QueuesOk(s) && t in s.threads && (s.threads[t].wait.NoWait? || s.threads[t].stage.Joining?)
    requires StageFits(s.threads[t].stage, s.threads[t].wait)
    ensures Free(s, t)
  {
    forall m | m in s.mutexes ensures !Waits(s.mutexes[m].queue, t) {
      assert MutexQueueOk(s, m);
      WaitsEntry(s.mutexes[m].queue, t);
    }
    forall c | c in s.conds ensures !Waits(s.conds[c], t) {
      assert CondQueueOk(s, c);
      WaitsEntry(s.conds[c], t);
    }
    forall f | f in s.threads ensures !InJoinQueue(s.threads[f], t) {
      assert JoinQueueOk(s, f);
    }
    forall x | x in s.timers ensures s.timers[x].t != t {
      assert TimerOwned(s, x);
    }
  }

  /** A step that leaves mutexes, conditions and timers alone. */
  lemma KeepQueues(s: Sys, s': Sys, t: Tid)
    requires QueuesOk(s) && s'.threads.Keys == s.threads.Keys && t in s.threads && WaitsKept(s, s', t)
    requires s'.mutexes == s.mutexes && s'.conds == s.conds && s'.timers == s.timers && s'.nextTimer == s.nextTimer
    requires SameWait(s.threads[t], s'.threads[t]) || Free(s, t)
    requires forall f :: f in s.threads ==> JoinQueueOk(s', f)
    ensures QueuesOk(s')
  {
    forall m | m in s'.mutexes ensures MutexQueueOk(s', m) { KeepMutex(s, s', t, m); }
    forall c | c in s'.conds ensures CondQueueOk(s', c) { KeepCond(s, s', t, c); }
    forall x | x in s'.timers ensures TimerOwned(s', x) { assert TimerOwned(s, x); }
  }

  // ----- Histories and counts -----

  lemma SchedFrame(s: Sys, s': Sys)
    requires SchedOk(s) && s'.threads.Keys == s.threads.Keys
    requires forall t :: t in s.threads ==> s'.threads[t].exit == s.threads[t].exit
    requires s'.threadCount == s.threadCount && s'.started == s.started && s'.stopped == s.stopped
    ensures SchedOk(s')
  {
    assert Live(s') == Live(s);
    assert s.threads == map[] <==> s.threads.Keys == {};
    assert s'.threads == map[] <==> s'.threads.Keys == {};
  }

  lemma HeldFrame(s: Sys, s': Sys)
    requires HeldOk(s) && s'.held == s.held && s'.mutexes.Keys == s.mutexes.Keys
    requires forall m :: m in s.mutexes ==>
      s'.mutexes[m].owner == s.mutexes[m].owner && s'.mutexes[m].level == s.mutexes[m].level
    requires forall t, m :: m in s.mutexes && s.mutexes[m].owner == Some(t) ==> LocksInside(s', t, m) == LocksInside(s, t, m)
    ensures HeldOk(s')
  {
    forall u: Tid, m: Mid ensures Held(s', u, m) == ExpectedHeld(s', u, m) {
      assert Held(s, u, m) == ExpectedHeld(s, u, m);
    }
  }

  /** As above when no thread changes what it waits for. */
  lemma HeldWaits(s: Sys, s': Sys)
    requires HeldOk(s) && s'.held == s.held && s'.mutexes.Keys == s.mutexes.Keys
    requires forall m :: m in s.mutexes ==>
      s'.mutexes[m].owner == s.mutexes[m].owner && s'.mutexes[m].level == s.mutexes[m].level
    requires s'.threads.Keys == s.threads.Keys
    requires forall t :: t in s.threads ==> s'.threads[t].wait == s.threads[t].wait
    ensures HeldOk(s')
  {
    HeldFrame(s, s');
  }

  /** Nothing that the histories and counters depend on changes. */
  ghost predicate SameCounts(s: Sys, s': Sys) {
    && s'.threads.Keys == s.threads.Keys
    && (forall u :: u in s.threads ==> s'.threads[u].wait == s.threads[u].wait && s'.threads[u].exit == s.threads[u].exit)
    && s'.mutexes.Keys == s.mutexes.Keys && s'.held == s.held
    && (forall m :: m in s.mutexes ==>
          s'.mutexes[m].owner == s.mutexes[m].owner && s'.mutexes[m].level == s.mutexes[m].level)
    && s'.threadCount == s.threadCount && s'.started == s.started && s'.stopped == s.stopped
  }

  lemma CountsKept(s: Sys, s': Sys)
    requires HeldOk(s) && SchedOk(s) && SameCounts(s, s')
    ensures HeldOk(s') && SchedOk(s')
  {
    HeldWaits(s, s');
    SchedFrame(s, s');
  }

  lemma ThreadOk(s: Sys, t: Tid)
    requires Inv(s) && t in s.threads
    ensures Ok(ViewOf(s, t))
  {
  }
}
