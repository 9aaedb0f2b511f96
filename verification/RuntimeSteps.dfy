/** Every step of the run-time keeps the invariant. */
module RuntimeSteps {
  import opened Basics
  import opened Runtime
  import opened RuntimeInvariant
  import opened RuntimeFrames

  /** What other parts of the invariant read of a thread. */
  predicate SameRole(a: Thread, b: Thread) {
    && a.wait == b.wait && a.stage.Stopped? == b.stage.Stopped? && Drained(a) == Drained(b)
    && a.joinLock == b.joinLock && a.joinQueue == b.joinQueue && a.draining == b.draining && a.exit == b.exit
    && (a.phase == Draining <==> b.phase == Draining)
    && (a.stage.Joining? <==> b.stage.Joining?)
  }

  /** A step that only moves one thread along: nobody else notices. */
  predicate LocalStep(s: Sys, s': Sys, t: Tid) {
    && t in s.threads && t in s'.threads
    && s' == s.(threads := s.threads[t := s'.threads[t]])
    && SameRole(s.threads[t], s'.threads[t])
  }

  lemma LocalView(s: Sys, s': Sys, t: Tid, u: Tid)
    requires LocalStep(s, s', t) && u in s.threads && u != t
    ensures ViewOf(s', u) == ViewOf(s, u)
  {
  }

  lemma LocalViews(s: Sys, s': Sys, t: Tid)
    requires ThreadsOk(s) && LocalStep(s, s', t) && Ok(ViewOf(s', t))
    ensures ThreadsOk(s')
  {
    forall u | u in s'.threads ensures Ok(ViewOf(s', u)) {
      if u != t { LocalView(s, s', t, u); }
    }
  }

  lemma LocalQueues(s: Sys, s': Sys, t: Tid)
    requires QueuesOk(s) && LocalStep(s, s', t)
    ensures QueuesOk(s')
  {
    forall f | f in s.threads ensures JoinQueueOk(s', f) { KeepJoin(s, s', t, f); }
    KeepQueues(s, s', t);
  }

  lemma LocalHeld(s: Sys, s': Sys, t: Tid)
    requires HeldOk(s) && LocalStep(s, s', t)
    ensures HeldOk(s')
  {
    forall u: Tid, m: Mid ensures Held(s', u, m) == ExpectedHeld(s', u, m) {
      assert Held(s, u, m) == ExpectedHeld(s, u, m);
    }
  }

  lemma LocalInv(s: Sys, s': Sys, t: Tid)
    requires Inv(s) && LocalStep(s, s', t) && Ok(ViewOf(s', t))
    ensures Inv(s')
  {
    LocalViews(s, s', t);
    LocalQueues(s, s', t);
    LocalHeld(s, s', t);
    LocalSched(s, s', t);
  }

  lemma LocalSched(s: Sys, s': Sys, t: Tid)
    requires SchedOk(s) && LocalStep(s, s', t)
    ensures SchedOk(s')
  {
    assert Live(s') == Live(s);
  }

  lemma PauseOk(s: Sys, t: Tid)
    requires At(s, t, Parking) && Ok(ViewOf(s, t))
    ensures Ok(ViewOf(DoPause(s, t), t)) && LocalStep(s, DoPause(s, t), t)
  {
  }

  lemma StepPause(s: Sys, t: Tid)
    requires Inv(s) && At(s, t, Parking)
    ensures Inv(DoPause(s, t))
  {
    ThreadOk(s, t);
    PauseOk(s, t);
    LocalInv(s, DoPause(s, t), t);
  }
}
