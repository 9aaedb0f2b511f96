/** Steps that take an entry out of a queue and wake its thread: hand-off, notification, timers. */
module RuntimeWake {
  import opened Basics
  import opened Runtime
  import opened RuntimeInvariant
  import opened RuntimeFrames

  // ----- Waking -----

  /** The timer of an entry is on the stack of the entry's thread. */
  predicate OwnTimer(s: Sys, e: Entry) {
    e.t in s.threads && (e.timer.Some? ==> e.timer.value in s.timers && s.timers[e.timer.value].t == e.t)
  }

  lemma PostOther(s: Sys, t: Tid, u: Tid)
    requires t in s.threads && u in s.threads && u != t
    ensures Unaffected(s, Post(s, t), u)
  {
  }

  lemma CancelOther(s: Sys, x: TimerId, u: Tid)
    requires x in s.timers && s.timers[x].t != u && u in s.threads
    ensures Unaffected(s, CancelTimer(s, x), u)
  {
  }

  lemma WakeOther(s: Sys, e: Entry, u: Tid)
    requires OwnTimer(s, e) && u in s.threads && u != e.t
    ensures Unaffected(s, DoWake(s, WakeOf(e)), u)
  {
    if e.timer.None? { PostOther(s, e.t, u); } else { CancelOther(s, e.timer.value, u); }
  }

  lemma PostQueues(s: Sys, t: Tid)
    requires QueuesOk(s) && t in s.threads
    ensures QueuesOk(Post(s, t))
  {
    var s' := Post(s, t);
    forall f | f in s.threads ensures JoinQueueOk(s', f) { KeepJoin(s, s', t, f); }
    KeepQueues(s, s', t);
  }

  lemma CancelQueues(s: Sys, x: TimerId)
    requires QueuesOk(s)
    ensures QueuesOk(CancelTimer(s, x))
  {
    var s' := CancelTimer(s, x);
    forall m | m in s'.mutexes ensures MutexQueueOk(s', m) { assert MutexQueueOk(s, m); }
    forall c | c in s'.conds ensures CondQueueOk(s', c) { assert CondQueueOk(s, c); }
    forall f | f in s'.threads ensures JoinQueueOk(s', f) { assert JoinQueueOk(s, f); }
    forall y | y in s'.timers ensures TimerOwned(s', y) { assert TimerOwned(s, y); }
  }

  lemma WakeQueues(s: Sys, e: Entry)
    requires QueuesOk(s) && OwnTimer(s, e)
    ensures QueuesOk(DoWake(s, WakeOf(e)))
  {
    if e.timer.None? { PostQueues(s, e.t); } else { CancelQueues(s, e.timer.value); }
  }

  lemma PostHeld(s: Sys, t: Tid)
    requires HeldOk(s)
    ensures HeldOk(Post(s, t))
  {
    HeldWaits(s, Post(s, t));
  }

  lemma PostSched(s: Sys, t: Tid)
    requires SchedOk(s)
    ensures SchedOk(Post(s, t))
  {
    SchedFrame(s, Post(s, t));
  }

  lemma CancelCounts(s: Sys, x: TimerId)
    requires HeldOk(s) && SchedOk(s)
    ensures HeldOk(CancelTimer(s, x)) && SchedOk(CancelTimer(s, x))
  {
    HeldWaits(s, CancelTimer(s, x));
    SchedFrame(s, CancelTimer(s, x));
  }

  lemma WakeCounts(s: Sys, e: Entry)
    requires HeldOk(s) && SchedOk(s)
    ensures HeldOk(DoWake(s, WakeOf(e))) && SchedOk(DoWake(s, WakeOf(e)))
  {
    if e.timer.None? { PostHeld(s, e.t); PostSched(s, e.t); } else { CancelCounts(s, e.timer.value); }
  }

  // ----- Notification -----

  function PopCond(s: Sys, c: Cid): Sys
    requires c in s.conds && s.conds[c] != []
  {
    s.(conds := s.conds[c := s.conds[c][1..]])
  }

  lemma PopOther(s: Sys, c: Cid, u: Tid)
    requires c in s.conds && s.conds[c] != [] && Distinct(s.conds[c]) && u in s.threads && u != s.conds[c][0].t
    ensures Unaffected(s, PopCond(s, c), u)
  {
  }

  lemma PopQueues(s: Sys, c: Cid)
    requires c in s.conds && s.conds[c] != [] && QueuesOk(s)
    ensures QueuesOk(PopCond(s, c))
  {
    var s' := PopCond(s, c);
    assert CondQueueOk(s, c);
    var t := s.conds[c][0].t;
    forall m | m in s'.mutexes ensures MutexQueueOk(s', m) { KeepMutex(s, s', t, m); }
    forall d | d in s'.conds && d != c ensures CondQueueOk(s', d) { KeepCond(s, s', t, d); }
    forall f | f in s'.threads ensures JoinQueueOk(s', f) { KeepJoin(s, s', t, f); }
    forall x | x in s'.timers ensures TimerOwned(s', x) { assert TimerOwned(s, x); }
  }

  lemma PoppedSelf(s: Sys, c: Cid)
    requires c in s.conds && s.conds[c] != [] && CondQueueOk(s, c) && Ok(ViewOf(s, s.conds[c][0].t))
    ensures OwnTimer(PopCond(s, c), s.conds[c][0])
    ensures Ok(ViewOf(PopWaiter(s, c), s.conds[c][0].t))
  {
    var e := s.conds[c][0];
    assert TimerFits(ViewOf(s, e.t));
  }

  lemma FrontWaiter(s: Sys, c: Cid)
    requires c in s.conds && s.conds[c] != [] && QueuesOk(s)
    ensures CondQueueOk(s, c) && Distinct(s.conds[c]) && s.conds[c][0].t in s.threads
  {
    assert CondQueueOk(s, c);
    assert s.conds[c][0] in s.conds[c];
  }

  lemma PopThreads(s: Sys, c: Cid)
    requires c in s.conds && s.conds[c] != [] && CondQueueOk(s, c) && s.conds[c][0].t in s.threads && ThreadsOk(s)
    ensures ThreadsOk(PopWaiter(s, c))
  {
    var e, s1, s' := s.conds[c][0], PopCond(s, c), PopWaiter(s, c);
    PoppedSelf(s, c);
    forall u | u in s.threads && u != e.t ensures Unaffected(s, s', u) {
      PopOther(s, c, u);
      WakeOther(s1, e, u);
      UnaffectedTrans(s, s1, s', u);
    }
    OthersOk(s, s', e.t, e.t);
  }

  lemma PopWaiterInv(s: Sys, c: Cid)
    requires c in s.conds && s.conds[c] != [] && Inv(s)
    ensures Inv(PopWaiter(s, c))
    ensures c in PopWaiter(s, c).conds && PopWaiter(s, c).conds[c] == s.conds[c][1..]
  {
    var e, s1 := s.conds[c][0], PopCond(s, c);
    FrontWaiter(s, c);
    ThreadOk(s, e.t);
    PoppedSelf(s, c);
    PopThreads(s, c);
    PopQueues(s, c);
    WakeQueues(s1, e);
    HeldWaits(s, s1);
    SchedFrame(s, s1);
    WakeCounts(s1, e);
  }

  lemma {:induction false} PopAllInv(s: Sys, c: Cid)
    requires c in s.conds && Inv(s)
    ensures Inv(PopAllWaiters(s, c))
    decreases |s.conds[c]|
  {
    if s.conds[c] != [] {
      PopWaiterInv(s, c);
      PopAllInv(PopWaiter(s, c), c);
    }
  }

  // ----- notify_all as the list of its wake-ups -----

  function DoWakes(s: Sys, ws: seq<Wake>): Sys
    decreases |ws|
  {
    if ws == [] then s else DoWakes(DoWake(s, ws[0]), ws[1..])
  }

  lemma WakeKeepsQueues(s: Sys, c: Cid, q: seq<Entry>, w: Wake)
    requires c in s.conds
    ensures DoWake(s, w).conds == s.conds
    ensures SetCond(DoWake(s, w), c, q) == DoWake(SetCond(s, c, q), w)
  {
  }

  function SetCond(s: Sys, c: Cid, q: seq<Entry>): Sys {
    s.(conds := s.conds[c := q])
  }

  lemma SetCondTwice(s: Sys, c: Cid, q: seq<Entry>, r: seq<Entry>)
    ensures SetCond(SetCond(s, c, q), c, r) == SetCond(s, c, r)
  {
    assert s.conds[c := q][c := r] == s.conds[c := r];
  }

  lemma WakesTail(q: seq<Entry>)
    requires q != []
    ensures WakesOf(q) != [] && WakesOf(q)[0] == WakeOf(q[0]) && WakesOf(q)[1..] == WakesOf(q[1..])
  {
  }

  /** The loop of notify_all() empties the queue and wakes exactly the threads that were in it, in order. */
  lemma {:induction false} NotifyAllWakes(s: Sys, c: Cid)
    requires c in s.conds
    ensures PopAllWaiters(s, c) == DoWakes(SetCond(s, c, []), WakesOf(s.conds[c]))
    decreases |s.conds[c]|
  {
    hide DoWake;
    var q := s.conds[c];
    if q == [] {
      assert s.conds[c := []] == s.conds;
    } else {
      var w, s1 := WakeOf(q[0]), SetCond(s, c, q[1..]);
      WakeKeepsQueues(s1, c, [], w);
      NotifyAllWakes(PopWaiter(s, c), c);
      SetCondTwice(s, c, q[1..], []);
      WakesTail(q);
    }
  }
}
