/** The inductive invariant of the run-time. What concerns one thread is a predicate `Ok` on its
    `View`, so that a step only has to be checked for the threads whose view it changes. */
module RuntimeInvariant {
  import opened Basics
  import opened MutexModel
  import opened Runtime

  function StateOf(st: Stage): CoState {
    match st
    case Fresh => READY
    case Yielded => READY
    case Paused => BLOCKED
    case Stopped => STOPPED
    case _ => RUNNING
  }

  /** The suspensions a thread has committed to and not yet left: a thread that yields inside the
      unlock of a condition wait has committed to the pause as well. */
  function Owed(st: Stage, w: Wait): nat {
    (match st
     case Fresh => 1
     case Yielded => 1
     case Parking => 1
     case Paused => 1
     case CondUnlock => 1
     case _ => 0)
    + (if (st.Yielding? || st.Yielded?) && !w.NoWait? then 1 else 0)
  }

  predicate Drained(th: Thread) {
    th.stage.Stopped? && th.phase != Returned(STOPPED)
  }

  predicate HasEntry(s: Sys, t: Tid, w: Wait) {
    match w
    case OnMutex(m, _) => m in s.mutexes && Waits(s.mutexes[m].queue, t)
    case OnCond(c, _, _) => c in s.conds && Waits(s.conds[c], t)
    case OnJoin(f, _) => f in s.threads && (t in s.threads[f].joinQueue || t in s.threads[f].draining)
    case _ => false
  }

  function LookupTimer(s: Sys, timer: Option<TimerId>): Option<Timer> {
    if timer.Some? && timer.value in s.timers then Some(s.timers[timer.value]) else None
  }

  predicate Owns(s: Sys, t: Tid, w: Wait) {
    (w.OnMutex? || w.OnCond?) && w.m in s.mutexes && s.mutexes[w.m].owner == Some(t)
  }

  predicate JoineeStopped(s: Sys, w: Wait) {
    w.OnJoin? && w.f in s.threads && s.threads[w.f].stage.Stopped?
  }

  /** t is inside the spinlock section of a thread that has not drained its join queue. */
  predicate InsideJoin(s: Sys, t: Tid, w: Wait) {
    w.OnJoin? && w.f in s.threads && s.threads[w.f].joinLock == Some(t) && !Drained(s.threads[w.f])
  }

  predicate Known(s: Sys, w: Wait) {
    match w
    case OnMutex(m, _) => m in s.mutexes
    case OnCond(c, m, _) => c in s.conds && m in s.mutexes && !s.mutexes[m].recursive
    case OnJoin(f, _) => f in s.threads
    case _ => true
  }

  datatype View = View(t: Tid, th: Thread, known: bool, entry: bool, timer: Option<Timer>, owns: bool,
                       joineeStopped: bool, insideJoin: bool)

  function ViewOf(s: Sys, t: Tid): View
    requires t in s.threads
  {
    var th, w := s.threads[t], s.threads[t].wait;
    View(t, th, Known(s, w), HasEntry(s, t, w), LookupTimer(s, TimerOf(w)), Owns(s, t, w), JoineeStopped(s, w),
         InsideJoin(s, t, w))
  }

  predicate Unrun(timer: Option<Timer>) {
    timer.Some? && timer.value.phase != Done
  }

  /** Untimed queue entry + unrun timer handler + posted activations + a READY that one_step holds. */
  function Tokens(v: View): nat {
    (if v.entry && TimerOf(v.th.wait).None? then 1 else 0)
    + (if Unrun(v.timer) then 1 else 0)
    + v.th.pending
    + (if v.th.phase == Returned(READY) then 1 else 0)
  }

  predicate PhaseOk(th: Thread) {
    && th.state == StateOf(th.stage)
    && (match th.stage
        case Fresh => th.phase == Idle
        case Paused => th.phase == Returned(BLOCKED) || th.phase == Idle
        case Yielded => th.phase == Returned(READY) || th.phase == Idle
        case Stopped => th.phase == Returned(STOPPED) || th.phase == Draining || th.phase == Idle
        case _ => th.phase == OnCpu)
    && (th.exit != NotPosted <==> (th.stage.Stopped? && th.phase == Idle))
    && (!th.stage.Stopped? ==> !th.raised)
    && (if th.exc then 1 else 0) + th.rethrown == (if th.raised then 1 else 0)
  }

  predicate StageFits(st: Stage, w: Wait) {
    match st
    case Joining => w.OnJoin?
    case CondUnlock => w.OnCond?
    case Yielding => w.NoWait? || w.OnCond?
    case Yielded => w.NoWait? || w.OnCond?
    case Parking => !w.NoWait?
    case Paused => !w.NoWait?
    case Woken => !w.NoWait?
    case _ => w.NoWait?
  }

  /** The life of a timer: while its handler has not run the entry is queued unless somebody took
      it; a handler that has run leaves no entry, and it ran because the time expired or because
      somebody chose the waiter. */
  predicate TimerOk(tm: Timer, entry: bool) {
    && (tm.site.AtSleep? ==> !tm.chosen && !entry)
    && (tm.phase != Done ==> !tm.timedOut && (!tm.site.AtSleep? ==> (entry <==> !tm.chosen)))
    && (match tm.phase
        case Armed => !tm.expired && !tm.chosen
        case Expired => tm.expired
        case Cancelled => !tm.expired && tm.chosen
        case Done => !entry && (tm.expired || tm.chosen) && (tm.site.AtCond? ==> (tm.timedOut <==> tm.expired)))
  }

  function SiteOf(w: Wait): Site {
    match w
    case OnMutex(m, _) => AtMutex(m)
    case OnCond(c, _, _) => AtCond(c)
    case _ => AtSleep
  }

  predicate TimerFits(v: View) {
    TimerOf(v.th.wait).Some? ==>
      v.timer.Some? && v.timer.value.t == v.t && v.timer.value.site == SiteOf(v.th.wait) && TimerOk(v.timer.value, v.entry)
  }

  predicate WaitFits(v: View) {
    match v.th.wait
    case NoWait => true
    case OnMutex(_, timer) =>
      && (v.owns <==> if timer.None? then !v.entry else v.timer.Some? && v.timer.value.chosen)
      && (v.owns ==> !v.entry)
    case OnCond(_, _, _) => v.owns <==> v.th.stage.CondUnlock?
    case OnJoin(f, _) =>
      f != v.t && (if v.th.stage.Joining? then v.insideJoin && !v.entry else v.entry || v.joineeStopped)
    case OnSleep(_) => true
  }

  predicate Ok(v: View) {
    && PhaseOk(v.th)
    && StageFits(v.th.stage, v.th.wait)
    && v.known
    && Tokens(v) == Owed(v.th.stage, v.th.wait)
    && TimerFits(v)
    && WaitFits(v)
  }

  ghost predicate MutexQueueOk(s: Sys, m: Mid)
    requires m in s.mutexes
  {
    && MutexOk(s.mutexes[m])
    && (s.mutexes[m].owner.Some? ==> s.mutexes[m].owner.value in s.threads)
    && forall e :: e in s.mutexes[m].queue ==> e.t in s.threads && s.threads[e.t].wait == OnMutex(m, e.timer)
  }

  predicate WaitsOnCond(w: Wait, c: Cid, timer: Option<TimerId>) {
    w.OnCond? && w.c == c && w.timer == timer
  }

  ghost predicate CondQueueOk(s: Sys, c: Cid)
    requires c in s.conds
  {
    && Distinct(s.conds[c])
    && forall e :: e in s.conds[c] ==> e.t in s.threads && WaitsOnCond(s.threads[e.t].wait, c, e.timer)
  }

  predicate WaitsOnJoin(th: Thread, f: Tid) {
    th.wait.OnJoin? && th.wait.f == f && !th.stage.Joining?
  }

  ghost predicate JoinQueueOk(s: Sys, f: Tid)
    requires f in s.threads
  {
    var th := s.threads[f];
    && NoDup(th.joinQueue) && NoDup(th.draining)
    && (Drained(th) ==> th.joinQueue == [])
    && (th.phase != Draining ==> th.draining == [])
    && (forall u :: u in th.joinQueue || u in th.draining ==> u in s.threads && WaitsOnJoin(s.threads[u], f))
  }

  predicate TimerOwned(s: Sys, x: TimerId)
    requires x in s.timers
  {
    x < s.nextTimer && s.timers[x].t in s.threads && TimerOf(s.threads[s.timers[x].t].wait) == Some(x)
  }

  predicate LocksInside(s: Sys, t: Tid, m: Mid) {
    t in s.threads && s.threads[t].wait.OnMutex? && s.threads[t].wait.m == m
  }

  /** What the history of returned calls says a thread holds: the level of a mutex it owns, not
      counting an acquisition that its lock() has not returned from. */
  function ExpectedHeld(s: Sys, t: Tid, m: Mid): int {
    if m in s.mutexes && s.mutexes[m].owner == Some(t) then
      s.mutexes[m].level - (if LocksInside(s, t, m) then 1 else 0)
    else 0
  }

  ghost predicate HeldOk(s: Sys) {
    forall t: Tid, m: Mid :: Held(s, t, m) == ExpectedHeld(s, t, m)
  }

  /** The threads whose exit the scheduler has not processed. */
  function Live(s: Sys): set<Tid> {
    set t | t in s.threads && s.threads[t].exit != Processed
  }

  ghost predicate SchedOk(s: Sys) {
    && s.threadCount == |Live(s)|
    && (s.started <==> s.threads != map[])
    && (s.stopped ==> s.threadCount == 0 && s.started)
  }

  ghost predicate ThreadsOk(s: Sys) {
    forall t :: t in s.threads ==> Ok(ViewOf(s, t))
  }

  ghost predicate QueuesOk(s: Sys) {
    && (forall m :: m in s.mutexes ==> MutexQueueOk(s, m))
    && (forall c :: c in s.conds ==> CondQueueOk(s, c))
    && (forall f :: f in s.threads ==> JoinQueueOk(s, f))
    && (forall x :: x in s.timers ==> TimerOwned(s, x))
  }

  ghost predicate Rest(s: Sys) {
    QueuesOk(s) && HeldOk(s) && SchedOk(s)
  }

  ghost predicate Inv(s: Sys) {
    ThreadsOk(s) && Rest(s)
  }
}
