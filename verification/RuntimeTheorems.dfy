/** The promises of the run-time, for every reachable state. */
module RuntimeTheorems {
  import opened Basics
  import opened MutexModel
  import opened Runtime
  import opened RuntimeInvariant
  import opened RuntimeFrames
  import opened RuntimeReturn
  import opened RuntimeDispatch
  import opened RuntimeSafety

  // ----- Wake-up tokens -----

  /** A position in one of the wait queues of the whole system. */
  datatype Place = InMutex(m: Mid, i: nat) | InCond(c: Cid, i: nat) | InJoin(f: Tid, i: nat) | InDrain(f: Tid, i: nat)

  function MutexPlaces(s: Sys, t: Tid): set<Place> {
    set m, i | m in s.mutexes && 0 <= i < |s.mutexes[m].queue| && s.mutexes[m].queue[i] == Entry(t, None) :: InMutex(m, i)
  }

  function CondPlaces(s: Sys, t: Tid): set<Place> {
    set c, i | c in s.conds && 0 <= i < |s.conds[c]| && s.conds[c][i] == Entry(t, None) :: InCond(c, i)
  }

  function JoinPlaces(s: Sys, t: Tid): set<Place> {
    (set f, i | f in s.threads && 0 <= i < |s.threads[f].joinQueue| && s.threads[f].joinQueue[i] == t :: InJoin(f, i))
    + (set f, i | f in s.threads && 0 <= i < |s.threads[f].draining| && s.threads[f].draining[i] == t :: InDrain(f, i))
  }

  /** Every untimed entry of t, over all mutexes, conditions and join queues. */
  function UntimedEntries(s: Sys, t: Tid): set<Place> {
    MutexPlaces(s, t) + CondPlaces(s, t) + JoinPlaces(s, t)
  }

  function UnrunHandlers(s: Sys, t: Tid): set<TimerId> {
    set x | x in s.timers && s.timers[x].t == t && s.timers[x].phase != Done
  }

  lemma {:induction false} IndexOf(q: seq<Entry>, t: Tid)
    requires Distinct(q)
    ensures forall i, j :: 0 <= i < |q| && 0 <= j < |q| && q[i].t == t && q[j].t == t ==> i == j
  {
    if q != [] {
      IndexOf(q[1..], t);
      WaitsEntry(q[1..], t);
      forall i, j | 0 <= i < |q| && 0 <= j < |q| && q[i].t == t && q[j].t == t ensures i == j {
        if i > 0 { assert q[1..][i - 1] in q[1..]; }
        if j > 0 { assert q[1..][j - 1] in q[1..]; }
        if i > 0 && j > 0 { assert q[1..][i - 1].t == t && q[1..][j - 1].t == t; }
      }
    }
  }

  lemma MutexPlaceFits(s: Sys, t: Tid, m: Mid, i: nat)
    requires QueuesOk(s) && m in s.mutexes && i < |s.mutexes[m].queue| && s.mutexes[m].queue[i] == Entry(t, None)
    ensures t in s.threads && s.threads[t].wait == OnMutex(m, None) && HasEntry(s, t, OnMutex(m, None))
  {
    assert MutexQueueOk(s, m) && s.mutexes[m].queue[i] in s.mutexes[m].queue;
    WaitsEntries(s.mutexes[m].queue);
  }

  lemma CondPlaceFits(s: Sys, t: Tid, c: Cid, i: nat)
    requires QueuesOk(s) && c in s.conds && i < |s.conds[c]| && s.conds[c][i] == Entry(t, None)
    ensures t in s.threads && WaitsOnCond(s.threads[t].wait, c, None) && HasEntry(s, t, s.threads[t].wait)
  {
    assert CondQueueOk(s, c) && s.conds[c][i] in s.conds[c];
    WaitsEntries(s.conds[c]);
  }

  lemma JoinPlaceFits(s: Sys, t: Tid, f: Tid)
    requires Inv(s) && f in s.threads && InJoinQueue(s.threads[f], t)
    ensures t in s.threads && WaitsOnJoin(s.threads[t], f)
    ensures t in s.threads[f].joinQueue <==> t !in s.threads[f].draining
  {
    ThreadOk(s, f);
    assert PhaseOk(s.threads[f]) && JoinQueueOk(s, f);
  }

  lemma EntryPosition(q: seq<Entry>, t: Tid) returns (k: nat)
    requires Waits(q, t)
    ensures k < |q| && q[k].t == t
  {
    WaitsEntry(q, t);
    var e :| e in q && e.t == t;
    k :| 0 <= k < |q| && q[k] == e;
  }

  predicate UntimedOn(s: Sys, t: Tid)
    requires t in s.threads
  {
    TimerOf(s.threads[t].wait).None? && HasEntry(s, t, s.threads[t].wait)
  }

  lemma OnMutexPlaces(s: Sys, t: Tid, m: Mid)
    requires QueuesOk(s) && t in s.threads && s.threads[t].wait == OnMutex(m, None) && HasEntry(s, t, s.threads[t].wait)
    ensures |MutexPlaces(s, t)| == 1
  {
    var q := s.mutexes[m].queue;
    assert MutexQueueOk(s, m);
    var k := EntryPosition(q, t);
    IndexOf(q, t);
    assert q[k] in q;
    forall n, i: nat | InMutex(n, i) in MutexPlaces(s, t) ensures n == m && i == k { MutexPlaceFits(s, t, n, i); }
    assert InMutex(m, k) in MutexPlaces(s, t);
    assert MutexPlaces(s, t) == {InMutex(m, k)};
  }

  lemma OffMutexPlaces(s: Sys, t: Tid)
    requires QueuesOk(s) && t in s.threads && !(s.threads[t].wait.OnMutex? && UntimedOn(s, t))
    ensures MutexPlaces(s, t) == {}
  {
    forall n, i: nat | InMutex(n, i) in MutexPlaces(s, t) ensures false { MutexPlaceFits(s, t, n, i); }
  }

  lemma OnCondPlaces(s: Sys, t: Tid, c: Cid)
    requires QueuesOk(s) && t in s.threads && WaitsOnCond(s.threads[t].wait, c, None) && HasEntry(s, t, s.threads[t].wait)
    ensures |CondPlaces(s, t)| == 1
  {
    var q := s.conds[c];
    assert CondQueueOk(s, c);
    var k := EntryPosition(q, t);
    IndexOf(q, t);
    assert q[k] in q;
    forall n, i: nat | InCond(n, i) in CondPlaces(s, t) ensures n == c && i == k { CondPlaceFits(s, t, n, i); }
    assert InCond(c, k) in CondPlaces(s, t);
    assert CondPlaces(s, t) == {InCond(c, k)};
  }

  lemma OffCondPlaces(s: Sys, t: Tid)
    requires QueuesOk(s) && t in s.threads && !(s.threads[t].wait.OnCond? && UntimedOn(s, t))
    ensures CondPlaces(s, t) == {}
  {
    forall n, i: nat | InCond(n, i) in CondPlaces(s, t) ensures false { CondPlaceFits(s, t, n, i); }
  }

  lemma PositionOf(q: seq<Tid>, t: Tid) returns (k: nat)
    requires t in q && NoDup(q)
    ensures k < |q| && q[k] == t && forall i :: 0 <= i < |q| && q[i] == t ==> i == k
  {
    k :| 0 <= k < |q| && q[k] == t;
  }

  lemma OnJoinPlaces(s: Sys, t: Tid, f: Tid)
    requires Inv(s) && f in s.threads && InJoinQueue(s.threads[f], t)
    ensures |JoinPlaces(s, t)| == 1
  {
    assert JoinQueueOk(s, f);
    JoinPlaceFits(s, t, f);
    JoinPlacesAt(s, t, f);
  }

  lemma JoinPlacesAt(s: Sys, t: Tid, f: Tid)
    requires f in s.threads && NoDup(s.threads[f].joinQueue) && NoDup(s.threads[f].draining)
    requires t in s.threads[f].joinQueue <==> t !in s.threads[f].draining
    requires forall g :: g in s.threads && InJoinQueue(s.threads[g], t) ==> g == f
    ensures |JoinPlaces(s, t)| == 1
  {
    if t in s.threads[f].joinQueue { InQueuePlace(s, t, f); } else { InDrainPlace(s, t, f); }
  }

  lemma InQueuePlace(s: Sys, t: Tid, f: Tid)
    requires f in s.threads && NoDup(s.threads[f].joinQueue) && t in s.threads[f].joinQueue && t !in s.threads[f].draining
    requires forall g :: g in s.threads && InJoinQueue(s.threads[g], t) ==> g == f
    ensures |JoinPlaces(s, t)| == 1
  {
    var k := PositionOf(s.threads[f].joinQueue, t);
    assert JoinPlaces(s, t) == {InJoin(f, k)};
  }

  lemma InDrainPlace(s: Sys, t: Tid, f: Tid)
    requires f in s.threads && NoDup(s.threads[f].draining) && t in s.threads[f].draining && t !in s.threads[f].joinQueue
    requires forall g :: g in s.threads && InJoinQueue(s.threads[g], t) ==> g == f
    ensures |JoinPlaces(s, t)| == 1
  {
    var k := PositionOf(s.threads[f].draining, t);
    assert JoinPlaces(s, t) == {InDrain(f, k)};
  }

  lemma OneJoinQueue(s: Sys, t: Tid, f: Tid)
    requires Inv(s) && t in s.threads && s.threads[t].wait.OnJoin? && s.threads[t].wait.f == f
    ensures forall g :: g in s.threads && InJoinQueue(s.threads[g], t) ==> g == f
  {
    forall g | g in s.threads && InJoinQueue(s.threads[g], t) ensures g == f { JoinPlaceFits(s, t, g); }
  }

  lemma OffJoinPlaces(s: Sys, t: Tid)
    requires Inv(s) && t in s.threads && !(s.threads[t].wait.OnJoin? && UntimedOn(s, t))
    ensures JoinPlaces(s, t) == {}
  {
    forall g | g in s.threads ensures !InJoinQueue(s.threads[g], t) {
      if InJoinQueue(s.threads[g], t) { JoinPlaceFits(s, t, g); }
    }
  }

  lemma MutexCount(s: Sys, t: Tid)
    requires Inv(s) && t in s.threads
    ensures |MutexPlaces(s, t)| == if s.threads[t].wait.OnMutex? && UntimedOn(s, t) then 1 else 0
  {
    if s.threads[t].wait.OnMutex? && UntimedOn(s, t) { OnMutexPlaces(s, t, s.threads[t].wait.m); }
    else { OffMutexPlaces(s, t); }
  }

  lemma CondCount(s: Sys, t: Tid)
    requires Inv(s) && t in s.threads
    ensures |CondPlaces(s, t)| == if s.threads[t].wait.OnCond? && UntimedOn(s, t) then 1 else 0
  {
    if s.threads[t].wait.OnCond? && UntimedOn(s, t) { OnCondPlaces(s, t, s.threads[t].wait.c); }
    else { OffCondPlaces(s, t); }
  }

  lemma JoinCount(s: Sys, t: Tid)
    requires Inv(s) && t in s.threads
    ensures |JoinPlaces(s, t)| == if s.threads[t].wait.OnJoin? && UntimedOn(s, t) then 1 else 0
  {
    if s.threads[t].wait.OnJoin? && UntimedOn(s, t) {
      OneJoinQueue(s, t, s.threads[t].wait.f);
      OnJoinPlaces(s, t, s.threads[t].wait.f);
    } else {
      OffJoinPlaces(s, t);
    }
  }

  lemma DisjointCount(a: set<Place>, b: set<Place>, c: set<Place>)
    requires forall p :: p in a ==> p.InMutex?
    requires forall p :: p in b ==> p.InCond?
    requires forall p :: p in c ==> p.InJoin? || p.InDrain?
    ensures |a + b + c| == |a| + |b| + |c|
  {
    assert a * b == {} && (a + b) * c == {};
  }

  lemma EntriesCount(s: Sys, t: Tid)
    requires Inv(s) && t in s.threads
    ensures |UntimedEntries(s, t)| == if UntimedOn(s, t) then 1 else 0
  {
    MutexCount(s, t);
    CondCount(s, t);
    JoinCount(s, t);
    DisjointCount(MutexPlaces(s, t), CondPlaces(s, t), JoinPlaces(s, t));
  }

  lemma HandlersCount(s: Sys, t: Tid)
    requires QueuesOk(s) && t in s.threads && Ok(ViewOf(s, t))
    ensures |UnrunHandlers(s, t)| == if Unrun(ViewOf(s, t).timer) then 1 else 0
  {
    var x := TimerOf(s.threads[t].wait);
    OkBound(s, t);
    forall y | y in UnrunHandlers(s, t) ensures x == Some(y) { assert TimerOwned(s, y); }
    if Unrun(ViewOf(s, t).timer) {
      assert UnrunHandlers(s, t) == {x.value};
    } else {
      assert UnrunHandlers(s, t) == {};
    }
  }

  /** Conservation: for every thread the untimed entries in all wait queues, the timer handlers that
      have not run, the activations posted to its strand and the READY that one_step is about to post
      are exactly the suspensions it has committed to and not left. */
  lemma TokensConserved(s: Sys, t: Tid)
    requires Reachable(s) && t in s.threads
    ensures |UntimedEntries(s, t)| + |UnrunHandlers(s, t)| + s.threads[t].pending
          + (if s.threads[t].phase == Returned(READY) then 1 else 0)
         == Owed(s.threads[t].stage, s.threads[t].wait)
  {
    ReachableInv(s);
    ThreadOk(s, t);
    EntriesCount(s, t);
    HandlersCount(s, t);
  }

  /** No pause returns without its wake-up: when a paused thread can be activated, its entry and its
      timer handler are gone, what it waited for has happened, and this is its only activation. */
  lemma PauseReturnsOnlyWhenWoken(s: Sys, t: Tid)
    requires Reachable(s) && At(s, t, Paused) && Enabled(s, Activate(t))
    ensures |UntimedEntries(s, t)| == 0 && |UnrunHandlers(s, t)| == 0 && s.threads[t].pending == 1
    ensures !HasEntry(s, t, s.threads[t].wait)
    ensures s.threads[t].wait.OnMutex? && s.threads[t].wait.timer.None? ==> Owns(s, t, s.threads[t].wait)
    ensures s.threads[t].wait.OnJoin? ==> JoineeStopped(s, s.threads[t].wait)
  {
    TokensConserved(s, t);
    PausedFacts(s, t);
  }

  lemma PausedFacts(s: Sys, t: Tid)
    requires Reachable(s) && At(s, t, Paused) && s.threads[t].pending > 0
    ensures !HasEntry(s, t, s.threads[t].wait)
    ensures s.threads[t].wait.OnMutex? && s.threads[t].wait.timer.None? ==> Owns(s, t, s.threads[t].wait)
    ensures s.threads[t].wait.OnJoin? ==> JoineeStopped(s, s.threads[t].wait)
  {
    ReachableInv(s);
    ThreadOk(s, t);
    PausedView(ViewOf(s, t));
  }

  lemma PausedView(v: View)
    requires Ok(v) && v.th.stage.Paused? && v.th.pending > 0
    ensures !v.entry
    ensures v.th.wait.OnMutex? && v.th.wait.timer.None? ==> v.owns
    ensures v.th.wait.OnJoin? ==> v.joineeStopped
  {
  }

  /** No wake-up is lost: a thread that is switched out with nothing posted to its strand still has
      exactly one entry or timer handler that will wake it. */
  lemma NoLostWakeUp(s: Sys, t: Tid)
    requires Reachable(s) && t in s.threads && s.threads[t].phase == Idle && s.threads[t].pending == 0
    requires !s.threads[t].stage.Stopped?
    ensures |UntimedEntries(s, t)| + |UnrunHandlers(s, t)| >= 1
    ensures At(s, t, Paused) ==> |UntimedEntries(s, t)| + |UnrunHandlers(s, t)| == 1
  {
    TokensConserved(s, t);
    ReachableInv(s);
    ThreadOk(s, t);
    assert PhaseOk(s.threads[t]);
  }

  lemma NothingToActivate(s: Sys, t: Tid)
    requires t in s.threads ==> s.threads[t].pending == 0
    ensures !Enabled(s, Activate(t))
  {
  }

  lemma StoppedIsNeverActivated(s: Sys, t: Tid)
    requires Reachable(s) && At(s, t, Stopped)
    ensures s.threads[t].pending == 0 && |UntimedEntries(s, t)| == 0 && |UnrunHandlers(s, t)| == 0
    ensures !Enabled(s, Activate(t))
  {
    TokensConserved(s, t);
    StoppedOwesNothing(s, t);
    NothingToActivate(s, t);
  }

  lemma StoppedOwesNothing(s: Sys, t: Tid)
    requires Reachable(s) && At(s, t, Stopped)
    ensures Owed(s.threads[t].stage, s.threads[t].wait) == 0
  {
    ReachableInv(s);
    ThreadOk(s, t);
  }

  // ----- Mutexes -----

  /** Mutual exclusion in terms of calls that returned: if t has acquired m more often than it
      released it, t owns m, m's level is exactly that surplus, and nobody else has one. */
  lemma MutualExclusion(s: Sys, t: Tid, u: Tid, m: Mid)
    requires Reachable(s) && Held(s, t, m) > 0
    ensures m in s.mutexes && s.mutexes[m].owner == Some(t)
    ensures u != t ==> Held(s, u, m) == 0
    ensures s.mutexes[m].level == Held(s, t, m) + (if LocksInside(s, t, m) then 1 else 0)
  {
    ReachableInv(s);
    assert Held(s, t, m) == ExpectedHeld(s, t, m) && Held(s, u, m) == ExpectedHeld(s, u, m);
  }

  /** Every unlock by the owner counts one release. The mutex leaves its owner only with the last one,
      and then goes to the longest waiter, at level 1, or to nobody, at level 0. */
  lemma LastReleaseHandsOver(s: Sys, t: Tid, m: Mid)
    requires Reachable(s) && At(s, t, Running) && m in s.mutexes && s.mutexes[m].owner == Some(t)
    ensures Held(s, t, m) >= 1
    ensures var s', q := DoUnlock(s, t, m), s.mutexes[m].queue;
      && m in s'.mutexes && Held(s', t, m) == Held(s, t, m) - 1
      && (Held(s, t, m) > 1 ==> s'.mutexes[m].owner == Some(t) && s'.mutexes[m].queue == q)
      && (Held(s, t, m) == 1 && q == [] ==> s'.mutexes[m].owner.None? && s'.mutexes[m].level == 0)
      && (Held(s, t, m) == 1 && q != [] ==>
        s'.mutexes[m].owner == Some(q[0].t) && q[0].t != t && s'.mutexes[m].level == 1 && s'.mutexes[m].queue == q[1..])
  {
    hide Reachable, Inv;
    ReachableInv(s);
    RunningFacts(s, t);
    MutexFacts(s, m);
    HeldIsLevel(s, t, m);
    ReleaseFields(s, DoUnlock(s, t, m), t, m);
  }

  lemma HeldIsLevel(s: Sys, t: Tid, m: Mid)
    requires Inv(s) && m in s.mutexes && s.mutexes[m].owner == Some(t) && t in s.threads && s.threads[t].wait.NoWait?
    ensures Held(s, t, m) == s.mutexes[m].level
  {
    assert Held(s, t, m) == ExpectedHeld(s, t, m);
  }

  lemma ReleaseFields(s: Sys, s': Sys, t: Tid, m: Mid)
    requires t in s.threads && m in s.mutexes && s.mutexes[m].owner == Some(t) && Held(s, t, m) >= 1
    requires s' == DoUnlock(s, t, m)
    ensures s'.mutexes == s.mutexes[m := UnlockStep(s.mutexes[m], t).0] && Held(s', t, m) == Held(s, t, m) - 1
  {
    hide DoWake, UnlockStep;
    var (ms, r) := UnlockStep(s.mutexes[m], t);
    var s2 := SubHeld(SetMutex(s, m, ms), t, m);
    OwnerIsNotRefused(s.mutexes[m], t);
    if r.Handed? { WakeKeepsMutexes(s2, WakeOf(r.e)); }
  }

  lemma OwnerIsNotRefused(ms: MutexState, t: Tid)
    requires ms.owner == Some(t)
    ensures UnlockStep(ms, t).1 != NotOwner
  {
  }

  lemma WakeKeepsMutexes(s: Sys, w: Wake)
    ensures DoWake(s, w).mutexes == s.mutexes && DoWake(s, w).held == s.held
    ensures DoWake(s, w).threads.Keys == s.threads.Keys && DoWake(s, w).conds == s.conds
  {
  }

  /** lock() returns to an owner, and from then on the acquisition counts. */
  lemma LockReturnsOwning(s: Sys, t: Tid, m: Mid)
    requires Reachable(s) && At(s, t, Woken) && s.threads[t].wait == OnMutex(m, None) && Enabled(s, Return(t))
    ensures s.mutexes[m].owner == Some(t)
    ensures Held(Next(s, Return(t)), t, m) == Held(s, t, m) + 1 == s.mutexes[m].level
  {
    ReachableInv(s);
    ThreadOk(s, t);
    AwakeFacts(ViewOf(s, t));
    assert Held(s, t, m) == ExpectedHeld(s, t, m);
    ReturnKeepsHistory(s, DoReturn(s, t, s.threads[t].wait), t, m);
  }

  lemma ReturnKeepsHistory(s: Sys, s': Sys, t: Tid, m: Mid)
    requires At(s, t, Woken) && s.threads[t].wait == OnMutex(m, None) && m in s.mutexes
    requires s' == DoReturn(s, t, s.threads[t].wait)
    ensures Held(s', t, m) == Held(s, t, m) + 1
  {
  }

  /** try_lock_rel(): when it comes back its entry and its handler are gone, it reports ownership, and
      it owns the mutex exactly when an unlock chose it; otherwise its time had expired. */
  lemma TimedLockResult(s: Sys, t: Tid, m: Mid, x: TimerId)
    requires Reachable(s) && At(s, t, Woken) && s.threads[t].wait == OnMutex(m, Some(x))
    ensures x in s.timers && s.timers[x].t == t && s.timers[x].phase == Done && m in s.mutexes
    ensures s.mutexes[m].owner == Some(t) <==> s.timers[x].chosen
    ensures s.mutexes[m].owner != Some(t) ==> s.timers[x].expired
    ensures !Waits(s.mutexes[m].queue, t) && UnrunHandlers(s, t) == {}
  {
    ReachableInv(s);
    ThreadOk(s, t);
    AwakeFacts(ViewOf(s, t));
    HandlersCount(s, t);
    assert TimerFits(ViewOf(s, t)) && WaitFits(ViewOf(s, t));
  }

  /** Every timer pointer in a mutex queue is live: the waiter is still inside its call, and the timer
      has neither been cancelled nor had its handler run, so a waiter that timed out is not there to be
      granted. */
  lemma QueuedTimersAreLive(s: Sys, m: Mid, e: Entry)
    requires Reachable(s) && m in s.mutexes && e in s.mutexes[m].queue && e.timer.Some?
    ensures e.t in s.threads && s.threads[e.t].wait == OnMutex(m, e.timer)
    ensures s.threads[e.t].stage.Parking? || s.threads[e.t].stage.Paused?
    ensures e.timer.value in s.timers && s.timers[e.timer.value].t == e.t
    ensures s.timers[e.timer.value].phase in {Armed, Expired} && !s.timers[e.timer.value].chosen
  {
    ReachableInv(s);
    assert MutexQueueOk(s, m);
    WaitsEntries(s.mutexes[m].queue);
    ThreadOk(s, e.t);
    OkBound(s, e.t);
    QueuedView(ViewOf(s, e.t));
  }

  lemma QueuedView(v: View)
    requires Ok(v) && TimerOf(v.th.wait).Some? && v.entry
    ensures v.timer.Some? && v.timer.value.phase in {Armed, Expired} && !v.timer.value.chosen
    ensures v.th.wait.OnMutex? ==> v.th.stage.Parking? || v.th.stage.Paused?
  {
  }

  /** The handler of a timed lock settles it, whatever the order of hand-off, expiry and cancel: it
      leaves no entry, keeps the owner, and posts exactly one activation. */
  lemma TimedLockHandler(s: Sys, x: TimerId, m: Mid)
    requires Reachable(s) && Enabled(s, TimerHandler(x)) && s.timers[x].site == AtMutex(m)
    ensures var s', t := DoTimerHandler(s, x), s.timers[x].t;
      && t in s.threads && t in s'.threads && m in s'.mutexes && m in s.mutexes
      && !Waits(s'.mutexes[m].queue, t)
      && s'.mutexes[m].owner == s.mutexes[m].owner
      && (s.mutexes[m].owner == Some(t) <==> s.timers[x].chosen)
      && s'.threads[t].pending == s.threads[t].pending + 1 == 1
      && x in s'.timers && s'.timers[x].phase == Done
  {
    ReachableInv(s);
    assert TimerOwned(s, x);
    var t := s.timers[x].t;
    ThreadOk(s, t);
    assert TimerFits(ViewOf(s, t)) && WaitFits(ViewOf(s, t));
    assert MutexQueueOk(s, m);
    EraseWaits(s.mutexes[m].queue, t);
    TimedHandlerEffect(s, DoTimerHandler(s, x), x, m);
    HandlerTokens(ViewOf(s, t));
  }

  lemma HandlerTokens(v: View)
    requires Ok(v) && Unrun(v.timer) && v.th.wait.OnMutex? && v.th.phase == Idle
    ensures v.th.pending == 0
  {
  }

  lemma TimedHandlerEffect(s: Sys, s': Sys, x: TimerId, m: Mid)
    requires x in s.timers && s.timers[x].site == AtMutex(m) && m in s.mutexes && s.timers[x].t in s.threads
    requires s' == DoTimerHandler(s, x)
    ensures s'.mutexes == s.mutexes[m := TimeoutStep(s.mutexes[m], s.timers[x].t)]
    ensures s.timers[x].t in s'.threads && s'.threads[s.timers[x].t].pending == s.threads[s.timers[x].t].pending + 1
    ensures x in s'.timers && s'.timers[x].phase == Done
  {
  }

  /** wait_rel(): when the waiter is back no entry and no handler of the call remains; no_timeout means
      that a notification chose it, timeout that its time expired. */
  lemma WaitRelResult(s: Sys, t: Tid, c: Cid, m: Mid, x: TimerId)
    requires Reachable(s) && At(s, t, Woken) && s.threads[t].wait == OnCond(c, m, Some(x))
    ensures x in s.timers && s.timers[x].t == t && s.timers[x].phase == Done
    ensures s.timers[x].timedOut <==> s.timers[x].expired
    ensures !s.timers[x].timedOut ==> s.timers[x].chosen
    ensures c in s.conds && !Waits(s.conds[c], t) && UnrunHandlers(s, t) == {}
  {
    ReachableInv(s);
    ThreadOk(s, t);
    AwakeFacts(ViewOf(s, t));
    HandlersCount(s, t);
    assert TimerFits(ViewOf(s, t));
  }

  // ----- Joins -----

  lemma JoinReturnsAfterStop(s: Sys, t: Tid, f: Tid, rethrow: bool)
    requires Reachable(s) && At(s, t, Woken) && s.threads[t].wait == OnJoin(f, rethrow)
    ensures f in s.threads && s.threads[f].state == STOPPED
  {
    ReachableInv(s);
    ThreadOk(s, t);
    AwakeFacts(ViewOf(s, t));
    StoppedState(s, f);
  }

  /** Join loses nobody: once f has drained its queue, every joiner that is still waiting for it has
      been activated exactly once. */
  lemma JoinLosesNobody(s: Sys, t: Tid, f: Tid, rethrow: bool)
    requires Reachable(s) && f in s.threads && s.threads[f].exit != NotPosted
    requires t in s.threads && s.threads[t].wait == OnJoin(f, rethrow)
    requires s.threads[t].stage.Parking? || s.threads[t].stage.Paused?
    ensures s.threads[t].pending == 1
  {
    ReachableInv(s);
    ThreadOk(s, f);
    assert PhaseOk(s.threads[f]) && JoinQueueOk(s, f);
    ThreadOk(s, t);
    assert s.threads[f].joinQueue == [] && s.threads[f].draining == [];
    JoinTokens(ViewOf(s, t));
  }

  lemma JoinTokens(v: View)
    requires Ok(v) && v.th.wait.OnJoin? && !v.entry && (v.th.stage.Parking? || v.th.stage.Paused?)
    requires v.timer.None?
    ensures v.th.pending == 1
  {
  }

  /** No joiner slips in after the drain: a joiner about to enqueue holds the spinlock that the drain
      needs, and the drain is still to come. */
  lemma NoLateJoiner(s: Sys, t: Tid)
    requires Reachable(s) && At(s, t, Joining)
    ensures s.threads[t].wait.OnJoin? && s.threads[t].wait.f in s.threads
    ensures s.threads[s.threads[t].wait.f].joinLock == Some(t) && !Drained(s.threads[s.threads[t].wait.f])
  {
    ReachableInv(s);
    ThreadOk(s, t);
    assert WaitFits(ViewOf(s, t));
  }

  lemma ExceptionReachesAtMostOneJoiner(s: Sys, f: Tid)
    requires Reachable(s) && f in s.threads
    ensures s.threads[f].rethrown <= 1
    ensures s.threads[f].rethrown == 1 ==> s.threads[f].raised && !s.threads[f].exc
  {
    ReachableInv(s);
    ThreadOk(s, f);
    assert PhaseOk(s.threads[f]);
  }

  // ----- Shutdown -----

  lemma CountIsLive(s: Sys)
    requires Reachable(s)
    ensures s.threadCount == |Live(s)|
  {
    ReachableInv(s);
  }

  /** After the service was stopped every thread has stopped, its exit was processed, and nothing is
      pending for any of them. */
  lemma StopIsFinal(s: Sys, t: Tid)
    requires Reachable(s) && s.stopped && t in s.threads
    ensures s.threads[t].stage.Stopped? && s.threads[t].exit == Processed && s.threads[t].pending == 0
    ensures !Enabled(s, Activate(t))
  {
    ReachableInv(s);
    NobodyRuns(s, t);
    NothingToActivate(s, t);
  }

  lemma TimersBelongToLiveThreads(s: Sys, x: TimerId)
    requires Reachable(s) && x in s.timers
    ensures s.timers[x].t in s.threads && !s.threads[s.timers[x].t].stage.Stopped?
  {
    hide Reachable;
    ReachableInv(s);
    assert TimerOwned(s, x);
    ThreadOk(s, s.timers[x].t);
    OwnerWaits(ViewOf(s, s.timers[x].t));
  }

  lemma OwnerWaits(v: View)
    requires Ok(v) && TimerOf(v.th.wait).Some?
    ensures !v.th.stage.Stopped?
  {
  }

  /** No timer is left, and no thread can be created, once the service was stopped. */
  lemma NothingStartsAfterStop(s: Sys, parent: Option<Tid>, child: Tid)
    requires Reachable(s) && s.stopped
    ensures s.timers == map[] && !CanSpawn(s, parent, child)
  {
    forall x | x in s.timers ensures false {
      TimersBelongToLiveThreads(s, x);
      StopIsFinal(s, s.timers[x].t);
    }
    if parent.Some? && parent.value in s.threads { StopIsFinal(s, parent.value); }
    StartedAfterStop(s);
  }

  lemma StartedAfterStop(s: Sys)
    requires Reachable(s) && s.stopped
    ensures s.threads != map[]
  {
    ReachableInv(s);
  }
}
