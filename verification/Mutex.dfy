/** The four mutexes of src/mutex.cpp. `MutexState` and the `...Step` functions give the meaning of
    one spinlock section; the classes are the sections themselves. */
module MutexModel {
  import opened Basics

  /** `level` is 0 for an unowned mutex and 1 for an owned non-recursive one. */
  datatype MutexState = MutexState(recursive: bool, owner: Option<Tid>, level: nat, queue: seq<Entry>)

  datatype LockResult = NotAThread | Acquired | Deadlock | Enqueued
  datatype UnlockResult = NoThread | NotOwner | StillHeld | Freed | Handed(e: Entry)

  function LockStep(ms: MutexState, t: Tid, timer: Option<TimerId>): (MutexState, LockResult) {
    if ms.owner == Some(t) then
      if ms.recursive then (ms.(level := ms.level + 1), Acquired) else (ms, Deadlock)
    else if ms.owner.None? then (ms.(owner := Some(t), level := 1), Acquired)
    else (ms.(queue := ms.queue + [Entry(t, timer)]), Enqueued)
  }

  function TryLockStep(ms: MutexState, t: Tid): (MutexState, bool) {
    if ms.owner == Some(t) then
      (if ms.recursive then ms.(level := ms.level + 1) else ms, true)
    else if ms.owner.None? then (ms.(owner := Some(t), level := 1), true)
    else (ms, false)
  }

  function UnlockStep(ms: MutexState, t: Tid): (MutexState, UnlockResult) {
    if ms.owner != Some(t) then (ms, NotOwner)
    else if ms.level > 1 then (ms.(level := ms.level - 1), StillHeld)
    else if ms.queue == [] then (ms.(owner := None, level := 0), Freed)
    else (ms.(owner := Some(ms.queue[0].t), level := 1, queue := ms.queue[1..]), Handed(ms.queue[0]))
  }

  /** The timer handler of a timed lock: drop the waiter unless it already became the owner. */
  function TimeoutStep(ms: MutexState, t: Tid): MutexState {
    if ms.owner == Some(t) then ms else ms.(queue := Erase(ms.queue, t))
  }

  predicate MutexOk(ms: MutexState) {
    && (ms.owner.Some? <==> ms.level >= 1)
    && (ms.queue != [] ==> ms.owner.Some?)
    && (ms.owner.Some? ==> !Waits(ms.queue, ms.owner.value))
    && (!ms.recursive ==> ms.level <= 1)
    && Distinct(ms.queue)
  }

  // ----- What a section answers -----

  /** lock() is refused exactly to the owner of a mutex that is not recursive, who keeps it as it is; it acquires,
      with one level more, when the mutex is free or the caller's own; otherwise the caller gets an entry. */
  lemma LockAnswers(ms: MutexState, t: Tid, timer: Option<TimerId>)
    requires MutexOk(ms) && !Waits(ms.queue, t)
    ensures var (ms', r) := LockStep(ms, t, timer);
      && (r == Deadlock <==> ms.owner == Some(t) && !ms.recursive) && (r == Deadlock ==> ms' == ms)
      && (r == Acquired <==> ms'.owner == Some(t) && ms'.level == ms.level + 1)
      && (r == Enqueued <==> Waits(ms'.queue, t)) && (r == Enqueued ==> ms'.owner == ms.owner && ms'.level == ms.level)
      && (r == Deadlock || r == Acquired || r == Enqueued)
  {
    AppendWaits(ms.queue, Entry(t, timer));
  }

  /** try_lock() returns true exactly to the owner after it; it takes a free mutex, and no other. */
  lemma TryLockAnswers(ms: MutexState, t: Tid)
    requires MutexOk(ms)
    ensures var (ms', ok) := TryLockStep(ms, t);
      && (ok <==> ms'.owner == Some(t)) && ms'.owner == (if ms.owner.None? then Some(t) else ms.owner)
      && ms'.level == ms.level + (if ms.owner.None? || (ok && ms.recursive) then 1 else 0)
      && ms'.queue == ms.queue && (!ok ==> ms' == ms)
  {
  }

  /** unlock() is refused exactly to somebody who does not own the mutex, and then changes nothing; the owner
      gives back one level, keeps the mutex, frees it, or hands it to the longest waiter, as it reports. */
  lemma UnlockAnswers(ms: MutexState, t: Tid)
    requires MutexOk(ms)
    ensures var (ms', r) := UnlockStep(ms, t);
      && (r == NotOwner <==> ms.owner != Some(t)) && (r == NotOwner ==> ms' == ms)
      && (r == StillHeld <==> ms.owner == Some(t) && ms'.owner == Some(t))
      && (r == StillHeld ==> ms'.level == ms.level - 1 >= 1)
      && (r == Freed <==> ms.owner == Some(t) && ms'.owner.None?) && (r == Freed ==> ms.queue == [] && ms'.level == 0)
      && (r.Handed? <==> ms.owner == Some(t) && ms.level == 1 && ms.queue != [])
      && (r.Handed? ==> ms.queue == [r.e] + ms'.queue && ms'.owner == Some(r.e.t) && ms'.owner != Some(t) && ms'.level == 1)
      && r != NoThread
  {
    if ms.queue != [] { assert Waits(ms.queue, ms.queue[0].t); }
  }

  // ----- The classes -----

  class Mutex {
    var owner: Option<Tid>
    var suspended: seq<Tid>

    ghost function Abs(): MutexState
      reads this
    {
      MutexState(false, owner, if owner.Some? then 1 else 0, Untimed(suspended))
    }

    constructor ()
      ensures Abs() == MutexState(false, None, 0, [])
    {
      owner := None;
      suspended := [];
    }

    method Lock(tf: Option<Tid>) returns (r: LockResult)
      modifies this
      ensures tf.None? ==> Abs() == old(Abs()) && r == NotAThread
      ensures tf.Some? ==> (Abs(), r) == LockStep(old(Abs()), tf.value, None)
    {
      if tf.None? {
        return NotAThread;
      }
      if owner == tf {
        return Deadlock;
      } else if owner.None? {
        owner := tf;
        return Acquired;
      }
      suspended := suspended + [tf.value];
      assert Untimed(suspended) == old(Untimed(suspended)) + [Entry(tf.value, None)];
      return Enqueued;
    }

    method Unlock(tf: Option<Tid>, rt: Wakeups) returns (r: UnlockResult)
      modifies this, rt
      ensures tf.None? ==> Abs() == old(Abs()) && r == NoThread
      ensures tf.Some? ==> (Abs(), r) == UnlockStep(old(Abs()), tf.value)
      ensures rt.log == old(rt.log) + if r.Handed? then [WakeOf(r.e)] else []
    {
      if tf.None? {
        return NoThread;
      }
      if owner != tf {
        return NotOwner;
      }
      if suspended == [] {
        owner := None;
        return Freed;
      }
      owner := Some(suspended[0]);
      suspended := suspended[1..];
      assert Untimed(suspended) == old(Untimed(suspended))[1..];
      rt.Resume(owner.value);
      return Handed(Entry(owner.value, None));
    }

    method TryLock(tf: Option<Tid>) returns (ok: bool)
      modifies this
      ensures tf.None? ==> Abs() == old(Abs()) && !ok
      ensures tf.Some? ==> (Abs(), ok) == TryLockStep(old(Abs()), tf.value)
      ensures tf.Some? ==> (ok <==> owner == tf) && owner == if old(owner).None? then tf else old(owner)
    {
      if tf.None? {
        return false;
      }
      if owner == tf {
      } else if owner.None? {
        owner := tf;
      }
      return owner == tf;
    }
  }

  class RecursiveMutex {
    var level: nat
    var owner: Option<Tid>
    var suspended: seq<Tid>

    ghost function Abs(): MutexState
      reads this
    {
      MutexState(true, owner, level, Untimed(suspended))
    }

    constructor ()
      ensures Abs() == MutexState(true, None, 0, [])
    {
      level := 0;
      owner := None;
      suspended := [];
    }

    /** The two assertions are the ones the code makes; the invariant of the run discharges them. */
    method Lock(tf: Option<Tid>) returns (r: LockResult)
      requires MutexOk(Abs())
      modifies this
      ensures tf.None? ==> Abs() == old(Abs()) && r == NotAThread
      ensures tf.Some? ==> (Abs(), r) == LockStep(old(Abs()), tf.value, None)
    {
      if tf.None? {
        return NotAThread;
      }
      if owner == tf {
        level := level + 1;
        return Acquired;
      } else if owner.None? {
        assert suspended == [] by { assert |Untimed(suspended)| == |suspended|; }
        assert level == 0;
        owner := tf;
        level := 1;
        return Acquired;
      }
      suspended := suspended + [tf.value];
      assert Untimed(suspended) == old(Untimed(suspended)) + [Entry(tf.value, None)];
      return Enqueued;
    }

    method Unlock(tf: Option<Tid>, rt: Wakeups) returns (r: UnlockResult)
      requires MutexOk(Abs())
      modifies this, rt
      ensures tf.None? ==> Abs() == old(Abs()) && r == NoThread
      ensures tf.Some? ==> (Abs(), r) == UnlockStep(old(Abs()), tf.value)
      ensures rt.log == old(rt.log) + if r.Handed? then [WakeOf(r.e)] else []
    {
      if tf.None? {
        return NoThread;
      }
      if owner != tf {
        return NotOwner;
      }
      level := level - 1;
      if level > 0 {
        return StillHeld;
      }
      if suspended == [] {
        owner := None;
        assert level == 0;
        return Freed;
      }
      owner := Some(suspended[0]);
      suspended := suspended[1..];
      assert Untimed(suspended) == old(Untimed(suspended))[1..];
      level := 1;
      rt.Resume(owner.value);
      return Handed(Entry(owner.value, None));
    }

    method TryLock(tf: Option<Tid>) returns (ok: bool)
      requires MutexOk(Abs())
      modifies this
      ensures tf.None? ==> Abs() == old(Abs()) && !ok
      ensures tf.Some? ==> (Abs(), ok) == TryLockStep(old(Abs()), tf.value)
      ensures tf.Some? ==> (ok <==> owner == tf) && owner == if old(owner).None? then tf else old(owner)
    {
      if tf.None? {
        return false;
      }
      if owner == tf {
        level := level + 1;
      } else if owner.None? {
        assert suspended == [] by { assert |Untimed(suspended)| == |suspended|; }
        assert level == 0;
        owner := tf;
        level := 1;
      }
      return owner == tf;
    }
  }

  class TimedMutex {
    var owner: Option<Tid>
    var suspended: seq<Entry>

    ghost function Abs(): MutexState
      reads this
    {
      MutexState(false, owner, if owner.Some? then 1 else 0, suspended)
    }

    constructor ()
      ensures Abs() == MutexState(false, None, 0, [])
    {
      owner := None;
      suspended := [];
    }

    method Lock(tf: Option<Tid>) returns (r: LockResult)
      modifies this
      ensures tf.None? ==> Abs() == old(Abs()) && r == NotAThread
      ensures tf.Some? ==> (Abs(), r) == LockStep(old(Abs()), tf.value, None)
    {
      if tf.None? {
        return NotAThread;
      }
      if owner == tf {
        return Deadlock;
      } else if owner.None? {
        owner := tf;
        return Acquired;
      }
      suspended := suspended + [Entry(tf.value, None)];
      return Enqueued;
    }

    method TryLock(tf: Option<Tid>) returns (ok: bool)
      modifies this
      ensures tf.None? ==> Abs() == old(Abs()) && !ok
      ensures tf.Some? ==> (Abs(), ok) == TryLockStep(old(Abs()), tf.value)
      ensures tf.Some? ==> (ok <==> owner == tf) && owner == if old(owner).None? then tf else old(owner)
    {
      if tf.None? {
        return false;
      }
      if owner == tf {
        return true;
      } else if owner.None? {
        owner := tf;
        return true;
      }
      return false;
    }

    method Unlock(tf: Option<Tid>, rt: Wakeups) returns (r: UnlockResult)
      modifies this, rt
      ensures tf.None? ==> Abs() == old(Abs()) && r == NoThread
      ensures tf.Some? ==> (Abs(), r) == UnlockStep(old(Abs()), tf.value)
      ensures rt.log == old(rt.log) + if r.Handed? then [WakeOf(r.e)] else []
    {
      if tf.None? {
        return NoThread;
      }
      if owner != tf {
        return NotOwner;
      }
      if suspended == [] {
        owner := None;
        return Freed;
      }
      owner := Some(suspended[0].t);
      var timer := suspended[0].timer;
      suspended := suspended[1..];
      if timer.Some? {
        rt.Cancel(timer.value);
      } else {
        rt.Resume(owner.value);
      }
      return Handed(Entry(owner.value, timer));
    }

    /** The part of try_lock_rel before its pause; `timer` is the freshly armed timer. */
    method TryLockRel(tf: Option<Tid>, timer: TimerId) returns (r: LockResult)
      modifies this
      ensures tf.None? ==> Abs() == old(Abs()) && r == NotAThread
      ensures tf.Some? ==> (Abs(), r) == LockStep(old(Abs()), tf.value, Some(timer))
    {
      if tf.None? {
        return NotAThread;
      }
      if owner == tf {
        return Deadlock;
      } else if owner.None? {
        owner := tf;
        return Acquired;
      }
      suspended := suspended + [Entry(tf.value, Some(timer))];
      return Enqueued;
    }

    method TimeoutHandler(t: Tid, rt: Wakeups)
      modifies this, rt
      ensures Abs() == TimeoutStep(old(Abs()), t)
      ensures rt.log == old(rt.log) + [Resume(t)]
    {
      if owner != Some(t) {
        suspended := FindAndErase(suspended, t);
      }
      rt.Resume(t);
    }
  }

  class RecursiveTimedMutex {
    /** Not initialised by the constructor: its value means nothing while there is no owner. */
    var level: nat
    var owner: Option<Tid>
    var suspended: seq<Entry>

    ghost function Abs(): MutexState
      reads this
    {
      MutexState(true, owner, if owner.Some? then level else 0, suspended)
    }

    constructor (garbage: nat)
      ensures Abs() == MutexState(true, None, 0, [])
    {
      level := garbage;
      owner := None;
      suspended := [];
    }

    /** lock() when `timer` is None, the part of try_lock_rel before its pause otherwise. */
    method LockOrEnqueue(tf: Option<Tid>, timer: Option<TimerId>) returns (r: LockResult)
      modifies this
      ensures tf.None? ==> Abs() == old(Abs()) && r == NotAThread
      ensures tf.Some? ==> (Abs(), r) == LockStep(old(Abs()), tf.value, timer)
    {
      if tf.None? {
        return NotAThread;
      }
      if owner == tf {
        level := level + 1;
        return Acquired;
      } else if owner.None? {
        owner := tf;
        level := 1;
        return Acquired;
      }
      suspended := suspended + [Entry(tf.value, timer)];
      return Enqueued;
    }

    method Unlock(tf: Option<Tid>, rt: Wakeups) returns (r: UnlockResult)
      requires MutexOk(Abs())
      modifies this, rt
      ensures tf.None? ==> Abs() == old(Abs()) && r == NoThread
      ensures tf.Some? ==> (Abs(), r) == UnlockStep(old(Abs()), tf.value)
      ensures rt.log == old(rt.log) + if r.Handed? then [WakeOf(r.e)] else []
    {
      if tf.None? {
        return NoThread;
      }
      if owner != tf {
        return NotOwner;
      }
      level := level - 1;
      if level > 0 {
        return StillHeld;
      }
      if suspended == [] {
        owner := None;
        level := 0;
        return Freed;
      }
      owner := Some(suspended[0].t);
      var timer := suspended[0].timer;
      suspended := suspended[1..];
      level := 1;
      if timer.Some? {
        rt.Cancel(timer.value);
      } else {
        rt.Resume(owner.value);
      }
      return Handed(Entry(owner.value, timer));
    }

    method TryLock(tf: Option<Tid>) returns (ok: bool)
      modifies this
      ensures tf.None? ==> Abs() == old(Abs()) && !ok
      ensures tf.Some? ==> (Abs(), ok) == TryLockStep(old(Abs()), tf.value)
      ensures tf.Some? ==> (ok <==> owner == tf) && owner == if old(owner).None? then tf else old(owner)
    {
      if tf.None? {
        return false;
      }
      if owner == tf {
        level := level + 1;
      } else if owner.None? {
        owner := tf;
        level := 1;
      }
      return owner == tf;
    }

    method TimeoutHandler(t: Tid, rt: Wakeups)
      modifies this, rt
      ensures Abs() == TimeoutStep(old(Abs()), t)
      ensures rt.log == old(rt.log) + [Resume(t)]
    {
      if owner != Some(t) {
        suspended := FindAndErase(suspended, t);
      }
      rt.Resume(t);
    }
  }

  // ----- Runs of one mutex: first in, first out, nobody barges -----

  datatype Event =
    | ELock(t: Tid, timer: Option<TimerId>)
    | ETry(t: Tid)
    | EUnlock(t: Tid)
    | ETimeout(t: Tid)

  function Apply(ms: MutexState, ev: Event): MutexState {
    match ev
    case ELock(t, timer) => LockStep(ms, t, timer).0
    case ETry(t) => TryLockStep(ms, t).0
    case EUnlock(t) => UnlockStep(ms, t).0
    case ETimeout(t) => TimeoutStep(ms, t)
  }

  /** A thread that waits in the queue is inside its call: it makes no other call on the mutex. */
  predicate Legal(ms: MutexState, ev: Event) {
    match ev
    case ELock(t, _) => !Waits(ms.queue, t)
    case ETry(t) => !Waits(ms.queue, t)
    case EUnlock(t) => true
    case ETimeout(t) => true
  }

  predicate LegalRun(ms: MutexState, evs: seq<Event>)
    decreases |evs|
  {
    evs == [] || (Legal(ms, evs[0]) && LegalRun(Apply(ms, evs[0]), evs[1..]))
  }

  function Run(ms: MutexState, evs: seq<Event>): MutexState
    decreases |evs|
  {
    if evs == [] then ms else Run(Apply(ms, evs[0]), evs[1..])
  }

  /** The thread an event hands the mutex to, as a sequence of length 0 or 1. */
  function Granted(ms: MutexState, ev: Event): seq<Tid> {
    if ev.EUnlock? && UnlockStep(ms, ev.t).1.Handed? then [UnlockStep(ms, ev.t).1.e.t] else []
  }

  /** The owners made by hand-off during a run, in order. */
  function Grants(ms: MutexState, evs: seq<Event>): seq<Tid>
    decreases |evs|
  {
    if evs == [] then [] else Granted(ms, evs[0]) + Grants(Apply(ms, evs[0]), evs[1..])
  }

  /** The thread an event puts at the end of the queue, as a sequence of length 0 or 1. */
  function Arrival(ms: MutexState, ev: Event): seq<Tid> {
    if ev.ELock? && LockStep(ms, ev.t, ev.timer).1 == Enqueued then [ev.t] else []
  }

  function Arrivals(ms: MutexState, evs: seq<Event>): seq<Tid>
    decreases |evs|
  {
    if evs == [] then [] else Arrival(ms, evs[0]) + Arrivals(Apply(ms, evs[0]), evs[1..])
  }

  predicate NoTimeouts(evs: seq<Event>) {
    forall i :: 0 <= i < |evs| ==> !evs[i].ETimeout?
  }

  lemma ApplyKeepsOk(ms: MutexState, ev: Event)
    requires MutexOk(ms) && Legal(ms, ev)
    ensures MutexOk(Apply(ms, ev))
  {
    match ev {
      case ELock(t, timer) => AppendWaits(ms.queue, Entry(t, timer));
      case ETimeout(t) => EraseWaits(ms.queue, t);
      case _ =>
    }
  }

  lemma ApplyQueue(ms: MutexState, ev: Event)
    requires !ev.ETimeout?
    ensures Tids(ms.queue) + Arrival(ms, ev) == Granted(ms, ev) + Tids(Apply(ms, ev).queue)
  {
    var ms' := Apply(ms, ev);
    if ev.ELock? {
      assert Tids(ms.queue + [Entry(ev.t, ev.timer)]) == Tids(ms.queue) + [ev.t];
    } else if ev.EUnlock? && ms.queue != [] {
      assert Tids(ms.queue) == [ms.queue[0].t] + Tids(ms.queue[1..]);
    }
  }

  /** FIFO: over any run without timeouts, the threads already queued followed by those that
      enqueue are exactly the threads handed the mutex followed by those still queued. So the
      thread at position k is the (k+1)-th to be handed the mutex, and nobody overtakes it. */
  lemma {:induction false} HandOffIsFifo(ms: MutexState, evs: seq<Event>)
    requires NoTimeouts(evs)
    ensures Tids(ms.queue) + Arrivals(ms, evs) == Grants(ms, evs) + Tids(Run(ms, evs).queue)
    decreases |evs|
  {
    if evs == [] {
      assert Tids(ms.queue) + [] == [] + Tids(ms.queue);
    } else {
      var ms' := Apply(ms, evs[0]);
      ApplyQueue(ms, evs[0]);
      HandOffIsFifo(ms', evs[1..]);
      var q, q', a, g := Tids(ms.queue), Tids(ms'.queue), Arrivals(ms', evs[1..]), Grants(ms', evs[1..]);
      var r := Tids(Run(ms', evs[1..]).queue);
      assert q + (Arrival(ms, evs[0]) + a) == (q + Arrival(ms, evs[0])) + a
          == (Granted(ms, evs[0]) + q') + a == Granted(ms, evs[0]) + (q' + a)
          == Granted(ms, evs[0]) + (g + r) == (Granted(ms, evs[0]) + g) + r;
    }
  }

  /** Each hand-off moves a waiter one position forward; the hand-off that follows k others makes
      the waiter at position k the owner. */
  lemma WaiterAtPositionK(ms: MutexState, evs: seq<Event>, k: nat)
    requires NoTimeouts(evs) && k < |ms.queue|
    ensures |Grants(ms, evs)| <= k ==>
      k - |Grants(ms, evs)| < |Run(ms, evs).queue|
      && Run(ms, evs).queue[k - |Grants(ms, evs)|].t == ms.queue[k].t
    ensures |Grants(ms, evs)| > k ==> Grants(ms, evs)[k] == ms.queue[k].t
  {
    HandOffIsFifo(ms, evs);
    var g, q := Grants(ms, evs), Run(ms, evs).queue;
    assert (Tids(ms.queue) + Arrivals(ms, evs))[k] == ms.queue[k].t;
    if |g| <= k {
      assert |g + Tids(q)| > k;
      assert (g + Tids(q))[k] == Tids(q)[k - |g|];
    } else {
      assert (g + Tids(q))[k] == g[k];
    }
  }

  predicate NeverTimesOut(evs: seq<Event>, t: Tid) {
    forall i :: 0 <= i < |evs| ==> evs[i] != ETimeout(t)
  }

  lemma {:induction false} ErasePosition(q: seq<Entry>, u: Tid, k: nat) returns (j: nat)
    requires k < |q| && q[k].t != u
    ensures j <= k && j < |Erase(q, u)| && Erase(q, u)[j] == q[k]
  {
    if q[0].t == u {
      j := k - 1;
    } else if k == 0 {
      j := 0;
    } else {
      var i := ErasePosition(q[1..], u, k - 1);
      j := i + 1;
    }
  }

  /** One event moves a waiter forward by the hand-off it makes, and possibly further. */
  lemma StepPosition(ms: MutexState, ev: Event, k: nat) returns (j: nat)
    requires k < |ms.queue| && ev != ETimeout(ms.queue[k].t) && (k == 0 ==> Granted(ms, ev) == [])
    ensures j < |Apply(ms, ev).queue| && Apply(ms, ev).queue[j] == ms.queue[k] && j + |Granted(ms, ev)| <= k
  {
    j := k;
    if ev.EUnlock? && Granted(ms, ev) != [] {
      j := k - 1;
    } else if ev.ETimeout? && ms.owner != Some(ev.t) {
      j := ErasePosition(ms.queue, ev.t, k);
    }
  }

  /** With timeouts of others allowed, a waiter at position k that does not time out itself either is
      the i-th thread handed the mutex for some i <= k, or is still queued, at a position i that leaves
      room for the hand-offs made: it is handed the mutex by the (k+1)-th hand-off at the latest. */
  lemma {:induction false} WaiterWithTimeouts(ms: MutexState, evs: seq<Event>, k: nat) returns (i: nat)
    requires k < |ms.queue| && NeverTimesOut(evs, ms.queue[k].t)
    ensures (i <= k && i < |Grants(ms, evs)| && Grants(ms, evs)[i] == ms.queue[k].t)
      || (i < |Run(ms, evs).queue| && Run(ms, evs).queue[i] == ms.queue[k] && i + |Grants(ms, evs)| <= k)
    decreases |evs|
  {
    if evs == [] {
      i := k;
    } else {
      var g0, ms' := Granted(ms, evs[0]), Apply(ms, evs[0]);
      if k == 0 && g0 != [] {
        i := 0;
      } else {
        assert evs[0] != ETimeout(ms.queue[k].t);
        var j := StepPosition(ms, evs[0], k);
        assert NeverTimesOut(evs[1..], ms.queue[k].t);
        var n := WaiterWithTimeouts(ms', evs[1..], j);
        var g := Grants(ms', evs[1..]);
        if n <= j && n < |g| && g[n] == ms.queue[k].t {
          i := n + |g0|;
          assert (g0 + g)[i] == g[n];
        } else {
          i := n;
        }
      }
    }
  }

  /** Over every legal run the invariant holds: in particular a non-empty queue implies an owner
      and the owner is never queued. */
  lemma {:induction false} RunKeepsOk(ms: MutexState, evs: seq<Event>)
    requires MutexOk(ms) && LegalRun(ms, evs)
    ensures MutexOk(Run(ms, evs))
    decreases |evs|
  {
    if evs != [] {
      ApplyKeepsOk(ms, evs[0]);
      RunKeepsOk(Apply(ms, evs[0]), evs[1..]);
    }
  }

  /** No barging: while somebody waits, no call of another thread acquires the mutex. */
  lemma NoBarging(ms: MutexState, t: Tid, timer: Option<TimerId>)
    requires MutexOk(ms) && ms.queue != [] && ms.owner != Some(t)
    ensures LockStep(ms, t, timer).1 == Enqueued
    ensures TryLockStep(ms, t) == (ms, false)
  {
  }
}
