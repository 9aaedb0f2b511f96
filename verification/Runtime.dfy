/** The run-time as a state machine: green threads, their strands and timers, mutexes, condition
    variables, joins, creation and shutdown. One label is one atomic step: a spinlock section, a
    context switch, a strand handler or a timer event. Native workers interleave them freely. */
module Runtime {
  import opened Basics
  import opened MutexModel

  datatype CoState = READY | RUNNING | BLOCKED | STOPPED

  /** What a thread waits for, with the timer armed for it. */
  datatype Wait =
    | NoWait
    | OnMutex(m: Mid, timer: Option<TimerId>)
    | OnCond(c: Cid, m: Mid, timer: Option<TimerId>)
    | OnJoin(f: Tid, rethrow: bool)
    | OnSleep(x: TimerId)

  function TimerOf(w: Wait): Option<TimerId> {
    match w
    case OnMutex(_, timer) => timer
    case OnCond(_, _, timer) => timer
    case OnSleep(x) => Some(x)
    case _ => None
  }

  /** Where a thread is. In `Yielding` and `Yielded` the wait tells what comes after the yield: back to
      the user, or on to the pause of a condition wait. */
  datatype Stage =
    | Fresh        // created, its coroutine waits for the first activation
    | Running      // user code
    | Joining      // holds the spinlock of the thread to join, which it saw not stopped
    | Parking      // its wait is registered, pause() comes next
    | Paused       // switched out by pause()
    | Woken        // back from pause()
    | CondUnlock   // in the queue of a condition, about to unlock the mutex
    | Yielding     // about to decide whether to yield
    | MustYield    // about to yield without a hint
    | Yielded      // switched out by yield()
    | Stopped

  /** What the strand of a thread is doing with it. */
  datatype Phase =
    | Idle
    | OnCpu
    | Returned(s: CoState)                   // the coroutine switched out, one_step goes on
    | Draining                               // one_step runs the functions of the join queue

  datatype ExitPhase = NotPosted | Posted | Processed

  datatype Thread = Thread(
    state: CoState, stage: Stage, wait: Wait, phase: Phase,
    pending: nat,                            // activations posted to the strand and not yet run
    joinLock: Option<Tid>,                   // the joiner inside the thread's spinlock section
    joinQueue: seq<Tid>, draining: seq<Tid>,
    raised: bool,                            // the entry function threw (history)
    exc: bool,                               // uncaught_exception_ is set
    rethrown: nat,                           // joiners it was rethrown to (history)
    exit: ExitPhase)

  datatype Site = AtMutex(m: Mid) | AtCond(c: Cid) | AtSleep
  datatype TimerPhase = Armed | Expired | Cancelled | Done

  /** A timer on the stack of thread t. `expired` and `chosen` record the history of the wait:
      the time ran out; an unlock or a notification took the entry. `timedOut` is the local
      status that the handler writes. */
  datatype Timer = Timer(t: Tid, site: Site, phase: TimerPhase, expired: bool, chosen: bool, timedOut: bool)

  datatype Sys = Sys(
    threads: map<Tid, Thread>,
    mutexes: map<Mid, MutexState>,
    conds: map<Cid, seq<Entry>>,
    timers: map<TimerId, Timer>,
    nextTimer: TimerId,
    held: map<(Tid, Mid), nat>,              // acquisitions minus releases a thread has returned from (history)
    threadCount: nat, started: bool, stopped: bool)

  predicate Initial(s: Sys) {
    && s.threads == map[] && s.timers == map[] && s.held == map[]
    && (forall m :: m in s.mutexes ==> s.mutexes[m] == MutexState(s.mutexes[m].recursive, None, 0, []))
    && (forall c :: c in s.conds ==> s.conds[c] == [])
    && s.threadCount == 0 && !s.started && !s.stopped
  }

  // ----- Helpers -----

  function Held(s: Sys, t: Tid, m: Mid): nat {
    if (t, m) in s.held then s.held[(t, m)] else 0
  }

  function AddHeld(s: Sys, t: Tid, m: Mid): Sys {
    s.(held := s.held[(t, m) := Held(s, t, m) + 1])
  }

  function SubHeld(s: Sys, t: Tid, m: Mid): Sys {
    s.(held := s.held[(t, m) := if Held(s, t, m) > 0 then Held(s, t, m) - 1 else 0])
  }

  function SetMutex(s: Sys, m: Mid, ms: MutexState): Sys {
    s.(mutexes := s.mutexes[m := ms])
  }

  function Put(s: Sys, t: Tid, th: Thread): Sys {
    s.(threads := s.threads[t := th])
  }

  function Move(s: Sys, t: Tid, stage: Stage, wait: Wait): Sys
    requires t in s.threads
  {
    Put(s, t, s.threads[t].(stage := stage, wait := wait))
  }

  /** resume(): post an activation. */
  function Post(s: Sys, t: Tid): Sys {
    if t in s.threads then Put(s, t, s.threads[t].(pending := s.threads[t].pending + 1)) else s
  }

  /** cancel(): an armed timer is cancelled, an expired one stays expired. */
  function Chosen(tm: Timer): Timer {
    tm.(phase := if tm.phase == Armed then Cancelled else tm.phase, chosen := true)
  }

  function CancelTimer(s: Sys, x: TimerId): Sys {
    if x in s.timers then s.(timers := s.timers[x := Chosen(s.timers[x])]) else s
  }

  function DoWake(s: Sys, w: Wake): Sys {
    match w
    case Resume(t) => Post(s, t)
    case Cancel(x) => CancelTimer(s, x)
  }

  function Arm(s: Sys, t: Tid, site: Site): Sys {
    s.(timers := s.timers[s.nextTimer := Timer(t, site, Armed, false, false, false)], nextTimer := s.nextTimer + 1)
  }

  function Drop(s: Sys, timer: Option<TimerId>): Sys {
    if timer.Some? then s.(timers := s.timers - {timer.value}) else s
  }

  predicate At(s: Sys, t: Tid, stage: Stage) {
    t in s.threads && s.threads[t].stage == stage
  }

  // ----- Mutexes -----

  function DoLock(s: Sys, t: Tid, m: Mid, timed: bool): Sys
    requires t in s.threads && m in s.mutexes
  {
    var timer := if timed then Some(s.nextTimer) else None;
    var (ms, r) := LockStep(s.mutexes[m], t, timer);
    var s1 := SetMutex(s, m, ms);
    match r
    case Acquired => AddHeld(s1, t, m)
    case Enqueued => Move(if timed then Arm(s1, t, AtMutex(m)) else s1, t, Parking, OnMutex(m, timer))
    case _ => s1
  }

  function DoTryLock(s: Sys, t: Tid, m: Mid): Sys
    requires m in s.mutexes
  {
    var (ms, ok) := TryLockStep(s.mutexes[m], t);
    // The owner of a non-recursive mutex is told true without acquiring it again.
    if ms != s.mutexes[m] then AddHeld(SetMutex(s, m, ms), t, m) else s
  }

  function DoUnlock(s: Sys, t: Tid, m: Mid): Sys
    requires t in s.threads && m in s.mutexes
  {
    var (ms, r) := UnlockStep(s.mutexes[m], t);
    var s1 := SetMutex(s, m, ms);
    match r
    case Handed(e) => Move(DoWake(SubHeld(s1, t, m), WakeOf(e)), t, Yielding, NoWait)
    case NotOwner => s
    case _ => SubHeld(s1, t, m)
  }

  // ----- Condition variables -----

  function DoCondWait(s: Sys, t: Tid, c: Cid, m: Mid, timed: bool): Sys
    requires t in s.threads && c in s.conds && m in s.mutexes
  {
    if s.mutexes[m].owner != Some(t) then s
    else
      var timer := if timed then Some(s.nextTimer) else None;
      var s1 := s.(conds := s.conds[c := s.conds[c] + [Entry(t, timer)]]);
      Move(if timed then Arm(s1, t, AtCond(c)) else s1, t, CondUnlock, OnCond(c, m, timer))
  }

  /** The unlock inside a wait: its own section, with its own hand-off and yield. */
  function DoCondUnlock(s: Sys, t: Tid, w: Wait): Sys
    requires t in s.threads && w.OnCond? && w.m in s.mutexes
  {
    var (ms, r) := UnlockStep(s.mutexes[w.m], t);
    var s1 := SubHeld(SetMutex(s, w.m, ms), t, w.m);
    if r.Handed? then Move(DoWake(s1, WakeOf(r.e)), t, Yielding, w)
    else Move(s1, t, Parking, w)
  }

  function PopWaiter(s: Sys, c: Cid): Sys
    requires c in s.conds && s.conds[c] != []
  {
    DoWake(s.(conds := s.conds[c := s.conds[c][1..]]), WakeOf(s.conds[c][0]))
  }

  function PopAllWaiters(s: Sys, c: Cid): Sys
    requires c in s.conds
    decreases |s.conds[c]|
  {
    if s.conds[c] == [] then s else PopAllWaiters(PopWaiter(s, c), c)
  }

  /** `who` is None for a notifier that is not a green thread; only a green thread yields. */
  function Notified(s: Sys, who: Option<Tid>): Sys {
    if who.Some? && who.value in s.threads then Move(s, who.value, MustYield, NoWait) else s
  }

  function DoNotifyOne(s: Sys, who: Option<Tid>, c: Cid): Sys
    requires c in s.conds
  {
    if s.conds[c] == [] then s else Notified(PopWaiter(s, c), who)
  }

  function DoNotifyAll(s: Sys, who: Option<Tid>, c: Cid): Sys
    requires c in s.conds
  {
    Notified(PopAllWaiters(s, c), who)
  }

  /** A call is left after its pause: its timer goes with its stack frame. */
  function Leave(s: Sys, t: Tid): Sys
    requires t in s.threads
  {
    Move(Drop(s, TimerOf(s.threads[t].wait)), t, Running, NoWait)
  }

  /** After the pause of a wait: lock the mutex again. */
  function DoRelock(s: Sys, t: Tid, m: Mid): Sys
    requires t in s.threads && m in s.mutexes
  {
    DoLock(Leave(s, t), t, m, false)
  }

  // ----- Timers -----

  function DoExpire(s: Sys, x: TimerId): Sys
    requires x in s.timers
  {
    s.(timers := s.timers[x := s.timers[x].(phase := Expired, expired := true)])
  }

  /** The handler of a timer: the timeout_handler of a mutex or a condition, or the activation of a sleeper. */
  function DoTimerHandler(s: Sys, x: TimerId): Sys
    requires x in s.timers
  {
    var tm := s.timers[x];
    var s1 := s.(timers := s.timers[x := tm.(phase := Done, timedOut := tm.site.AtCond? && tm.phase == Expired)]);
    var s2 := match tm.site
      case AtMutex(m) => if m in s.mutexes then SetMutex(s1, m, TimeoutStep(s.mutexes[m], tm.t)) else s1
      case AtCond(c) =>
        if c in s.conds && tm.phase == Expired then s1.(conds := s.conds[c := Erase(s.conds[c], tm.t)]) else s1
      case AtSleep => s1;
    Post(s2, tm.t)
  }

  // ----- Context switches -----

  function DoPause(s: Sys, t: Tid): Sys
    requires t in s.threads
  {
    Put(s, t, s.threads[t].(stage := Paused, state := BLOCKED, phase := Returned(BLOCKED)))
  }

  function AfterYield(w: Wait): Stage {
    if w.NoWait? then Running else Parking
  }

  function DoYield(s: Sys, t: Tid, switch: bool): Sys
    requires t in s.threads
  {
    var th := s.threads[t];
    Put(s, t, if switch then th.(stage := Yielded, state := READY, phase := Returned(READY))
              else th.(stage := AfterYield(th.wait)))
  }

  /** The end of one_step for a coroutine that returned READY or BLOCKED. */
  function DoEndStep(s: Sys, t: Tid): Sys
    requires t in s.threads
  {
    var th := s.threads[t].(phase := Idle);
    if s.threads[t].phase == Returned(READY) then Post(Put(s, t, th), t) else Put(s, t, th)
  }

  function Resumed(th: Thread): Stage {
    match th.stage
    case Paused => Woken
    case Yielded => AfterYield(th.wait)
    case _ => Running
  }

  /** activate_thread: READY, then RUNNING, then into the coroutine, whatever it had come to. */
  function DoActivate(s: Sys, t: Tid): Sys
    requires t in s.threads && s.threads[t].pending > 0
  {
    var th := s.threads[t];
    Put(s, t, th.(pending := th.pending - 1, state := RUNNING, phase := OnCpu, stage := Resumed(th)))
  }

  /** lock(), try_lock_rel(), sleep_rel() and join() after their pause. */
  function DoReturn(s: Sys, t: Tid, w: Wait): Sys
    requires t in s.threads && (w.OnMutex? ==> w.m in s.mutexes) && (w.OnJoin? ==> w.f in s.threads)
  {
    var s1 := Leave(s, t);
    match w
    case OnMutex(m, timer) =>
      if timer.None? || s.mutexes[m].owner == Some(t) then AddHeld(s1, t, m) else s1
    case OnJoin(f, rethrow) => if rethrow then Propagate(s1, f) else s1
    case _ => s1
  }

  // ----- Joins, creation, exit, shutdown -----

  /** propagate_exception: take the exception out of f and rethrow it. */
  function Propagate(s: Sys, f: Tid): Sys {
    if f in s.threads && s.threads[f].exc then
      Put(s, f, s.threads[f].(exc := false, rethrown := s.threads[f].rethrown + 1))
    else s
  }

  function DoJoinTest(s: Sys, t: Tid, f: Tid, rethrow: bool): Sys
    requires t in s.threads && f in s.threads
  {
    if s.threads[f].state == STOPPED then if rethrow then Propagate(s, f) else s
    else Move(Put(s, f, s.threads[f].(joinLock := Some(t))), t, Joining, OnJoin(f, rethrow))
  }

  function DoJoinPush(s: Sys, t: Tid, f: Tid): Sys
    requires t in s.threads && f in s.threads
  {
    var s1 := Put(s, f, s.threads[f].(joinQueue := s.threads[f].joinQueue + [t], joinLock := None));
    Put(s1, t, s1.threads[t].(stage := Parking))
  }

  function DoStop(s: Sys, t: Tid, throws: bool): Sys
    requires t in s.threads
  {
    Put(s, t, s.threads[t].(stage := Stopped, state := STOPPED, phase := Returned(STOPPED), exc := throws, raised := throws))
  }

  function DoDrain(s: Sys, f: Tid): Sys
    requires f in s.threads
  {
    Put(s, f, s.threads[f].(phase := Draining, draining := s.threads[f].joinQueue, joinQueue := []))
  }

  function DoDrainOne(s: Sys, f: Tid): Sys
    requires f in s.threads && s.threads[f].draining != []
  {
    Post(Put(s, f, s.threads[f].(draining := s.threads[f].draining[1..])), s.threads[f].draining[0])
  }

  function DoDrainEnd(s: Sys, f: Tid): Sys
    requires f in s.threads
  {
    Put(s, f, s.threads[f].(phase := Idle, exit := Posted))
  }

  function NewThread(): Thread {
    Thread(READY, Fresh, NoWait, Idle, 1, None, [], [], false, false, 0, NotPosted)
  }

  function DoSpawn(s: Sys, child: Tid): Sys {
    Put(s, child, NewThread()).(threadCount := s.threadCount + 1, started := true)
  }

  function DoProcessExit(s: Sys, t: Tid): Sys
    requires t in s.threads && s.threadCount > 0
  {
    Put(s, t, s.threads[t].(exit := Processed)).(threadCount := s.threadCount - 1)
  }

  // ----- The transition system -----

  datatype Label =
    | Lock(t: Tid, m: Mid, timed: bool)
    | TryLock(t: Tid, m: Mid)
    | Unlock(t: Tid, m: Mid)
    | CondWait(t: Tid, c: Cid, m: Mid, timed: bool)
    | UnlockInWait(t: Tid)
    | Relock(t: Tid)
    | NotifyOne(who: Option<Tid>, c: Cid)
    | NotifyAll(who: Option<Tid>, c: Cid)
    | Expire(x: TimerId)
    | TimerHandler(x: TimerId)
    | Sleep(t: Tid)
    | Pause(t: Tid)
    | UserYield(t: Tid)
    | Yield(t: Tid, switch: bool)
    | EndStep(t: Tid)
    | Activate(t: Tid)
    | Return(t: Tid)
    | JoinTest(t: Tid, f: Tid, rethrow: bool)
    | JoinPush(t: Tid)
    | Stop(t: Tid, throws: bool)
    | Drain(f: Tid)
    | DrainOne(f: Tid)
    | DrainEnd(f: Tid)
    | Spawn(parent: Option<Tid>, child: Tid)
    | ProcessExit(t: Tid)
    | CheckTimer

  /** A strand runs a timer handler only while it runs nothing else of its thread; the handler of a
      sleep is not bound to the strand. */
  predicate CanHandle(s: Sys, x: TimerId) {
    && x in s.timers && s.timers[x].phase in {Expired, Cancelled} && !s.stopped
    && (s.timers[x].site.AtSleep? || (s.timers[x].t in s.threads && s.threads[s.timers[x].t].phase == Idle))
  }

  predicate CanReturn(s: Sys, t: Tid) {
    && At(s, t, Woken)
    && var w := s.threads[t].wait;
       && !w.OnCond?
       && (w.OnMutex? ==> w.m in s.mutexes)
       && (w.OnJoin? ==> w.f in s.threads && s.threads[w.f].joinLock.None?)
  }

  /** Only the first thread is created from outside. */
  predicate CanSpawn(s: Sys, parent: Option<Tid>, child: Tid) {
    child !in s.threads && (if parent.Some? then At(s, parent.value, Running) else s.threads == map[])
  }

  predicate Enabled(s: Sys, l: Label) {
    match l
    case Lock(t, m, _) => At(s, t, Running) && m in s.mutexes
    case TryLock(t, m) => At(s, t, Running) && m in s.mutexes
    case Unlock(t, m) => At(s, t, Running) && m in s.mutexes
    case CondWait(t, c, m, _) => At(s, t, Running) && c in s.conds && m in s.mutexes && !s.mutexes[m].recursive
    case UnlockInWait(t) =>
      At(s, t, CondUnlock) && s.threads[t].wait.OnCond? && s.threads[t].wait.m in s.mutexes
    case Relock(t) =>
      At(s, t, Woken) && s.threads[t].wait.OnCond? && s.threads[t].wait.m in s.mutexes
    case NotifyOne(who, c) => c in s.conds && (who.Some? ==> At(s, who.value, Running))
    case NotifyAll(who, c) => c in s.conds && (who.Some? ==> At(s, who.value, Running))
    case Expire(x) => x in s.timers && s.timers[x].phase == Armed
    case TimerHandler(x) => CanHandle(s, x)
    case Sleep(t) => At(s, t, Running)
    case Pause(t) => At(s, t, Parking)
    case UserYield(t) => At(s, t, Running)
    case Yield(t, switch) => At(s, t, Yielding) || (At(s, t, MustYield) && switch)
    case EndStep(t) => t in s.threads && s.threads[t].phase in {Returned(READY), Returned(BLOCKED)}
    case Activate(t) => t in s.threads && s.threads[t].pending > 0 && s.threads[t].phase == Idle && !s.stopped
    case Return(t) => CanReturn(s, t)
    case JoinTest(t, f, _) => At(s, t, Running) && f in s.threads && f != t && s.threads[f].joinLock.None?
    case JoinPush(t) => At(s, t, Joining) && s.threads[t].wait.OnJoin? && s.threads[t].wait.f in s.threads
    case Stop(t, _) => At(s, t, Running)
    case Drain(f) => f in s.threads && s.threads[f].phase == Returned(STOPPED) && s.threads[f].joinLock.None?
    case DrainOne(f) => f in s.threads && s.threads[f].phase == Draining && s.threads[f].draining != []
    case DrainEnd(f) => f in s.threads && s.threads[f].phase == Draining && s.threads[f].draining == []
    case Spawn(parent, child) => CanSpawn(s, parent, child)
    case ProcessExit(t) =>
      t in s.threads && s.threads[t].exit == Posted && s.threads[t].phase == Idle && s.threadCount > 0 && !s.stopped
    case CheckTimer => !s.stopped
  }

  function Next(s: Sys, l: Label): Sys
    requires Enabled(s, l)
  {
    match l
    case Lock(t, m, timed) => DoLock(s, t, m, timed)
    case TryLock(t, m) => DoTryLock(s, t, m)
    case Unlock(t, m) => DoUnlock(s, t, m)
    case CondWait(t, c, m, timed) => DoCondWait(s, t, c, m, timed)
    case UnlockInWait(t) => DoCondUnlock(s, t, s.threads[t].wait)
    case Relock(t) => DoRelock(s, t, s.threads[t].wait.m)
    case NotifyOne(who, c) => DoNotifyOne(s, who, c)
    case NotifyAll(who, c) => DoNotifyAll(s, who, c)
    case Expire(x) => DoExpire(s, x)
    case TimerHandler(x) => DoTimerHandler(s, x)
    case Sleep(t) => Move(Arm(s, t, AtSleep), t, Parking, OnSleep(s.nextTimer))
    case Pause(t) => DoPause(s, t)
    case UserYield(t) => Move(s, t, MustYield, NoWait)
    case Yield(t, switch) => DoYield(s, t, switch)
    case EndStep(t) => DoEndStep(s, t)
    case Activate(t) => DoActivate(s, t)
    case Return(t) => DoReturn(s, t, s.threads[t].wait)
    case JoinTest(t, f, rethrow) => DoJoinTest(s, t, f, rethrow)
    case JoinPush(t) => DoJoinPush(s, t, s.threads[t].wait.f)
    case Stop(t, throws) => DoStop(s, t, throws)
    case Drain(f) => DoDrain(s, f)
    case DrainOne(f) => DoDrainOne(s, f)
    case DrainEnd(f) => DoDrainEnd(s, f)
    case Spawn(_, child) => DoSpawn(s, child)
    case ProcessExit(t) => DoProcessExit(s, t)
    case CheckTimer => if s.threadCount > 0 || !s.started then s else s.(stopped := true)
  }

  /** The run of the labels from s; None when one of them is not enabled. */
  function Exec(s: Sys, ls: seq<Label>): Option<Sys>
    decreases |ls|
  {
    if ls == [] then Some(s)
    else if Enabled(s, ls[0]) then Exec(Next(s, ls[0]), ls[1..])
    else None
  }
}
