/** The condition variable of src/condition.cpp, section by section: each method is a step of the run-time
    on the queue of the condition, and wakes whom that step wakes. */
module ConditionModel {
  import opened Basics
  import opened Runtime
  import opened RuntimeWake

  datatype CvStatus = NoTimeout | Timeout
  datatype WaitResult = NotPermitted | Suspended

  class ConditionVariable {
    /** The mutex pointer of a suspended item is never read by the code, so entries omit it. */
    var suspended: seq<Entry>

    ghost predicate Represents(s: Sys, c: Cid)
      reads this
    {
      c in s.conds && s.conds[c] == suspended
    }

    constructor ()
      ensures suspended == []
    {
      suspended := [];
    }

    /** wait() and wait_rel() up to the point where the mutex is released: `owner` is the owner of the
        caller's mutex m, `timer` the freshly armed timer of wait_rel(). The caller ends up in the queue,
        behind everybody else, exactly if it owns the mutex. */
    method Wait(tf: Tid, owner: Option<Tid>, timer: Option<TimerId>, ghost s: Sys, ghost c: Cid, ghost m: Mid)
      returns (r: WaitResult)
      requires Represents(s, c) && tf in s.threads && m in s.mutexes && s.mutexes[m].owner == owner
      requires timer.Some? ==> timer.value == s.nextTimer
      modifies this
      ensures Represents(DoCondWait(s, tf, c, m, timer.Some?), c)
      ensures r.NotPermitted? ==> owner != Some(tf) && DoCondWait(s, tf, c, m, timer.Some?) == s
      ensures r.Suspended? ==> At(DoCondWait(s, tf, c, m, timer.Some?), tf, CondUnlock)
    {
      if Some(tf) != owner {
        return NotPermitted;
      }
      suspended := suspended + [Entry(tf, timer)];
      return Suspended;
    }

    /** `cancelled` is the error code of the timer x, `ret` the waiter's local status. */
    method TimeoutHandler(t: Tid, cancelled: bool, ret: CvStatus, rt: Wakeups, ghost s: Sys, ghost c: Cid, ghost x: TimerId)
      returns (ret': CvStatus)
      requires Represents(s, c) && x in s.timers && s.timers[x].t == t && s.timers[x].site == AtCond(c)
      requires cancelled == (s.timers[x].phase != Expired)
      modifies this, rt
      ensures Represents(DoTimerHandler(s, x), c)
      ensures ret' == if DoTimerHandler(s, x).timers[x].timedOut then Timeout else ret
      ensures rt.log == old(rt.log) + [Wake.Resume(t)]
      ensures DoTimerHandler(s, x).threads == DoWakes(s, [Wake.Resume(t)]).threads
    {
      ret' := ret;
      if !cancelled {
        ret' := Timeout;
        suspended := FindAndErase(suspended, t);
      }
      rt.Resume(t);
    }

    /** The longest waiter, and only it, leaves the queue and is woken. */
    method NotifyOne(rt: Wakeups, ghost s: Sys, ghost c: Cid) returns (thenYields: bool)
      requires Represents(s, c)
      modifies this, rt
      ensures thenYields <==> old(suspended) != []
      ensures !thenYields ==> rt.log == old(rt.log) && DoNotifyOne(s, None, c) == s && Represents(s, c)
      ensures thenYields ==>
        && old(suspended) == [old(suspended)[0]] + suspended
        && rt.log == old(rt.log) + [WakeOf(old(suspended)[0])]
        && DoNotifyOne(s, None, c) == DoWake(SetCond(s, c, suspended), WakeOf(old(suspended)[0]))
        && Represents(DoNotifyOne(s, None, c), c)
    {
      if suspended == [] {
        return false;
      }
      var p := suspended[0];
      suspended := suspended[1..];
      if p.timer.Some? {
        rt.Cancel(p.timer.value);
      } else {
        rt.Resume(p.t);
      }
      return true;
    }

    /** Everybody enqueued before the call leaves, woken exactly once and in order. */
    method NotifyAll(rt: Wakeups, ghost s: Sys, ghost c: Cid)
      requires Represents(s, c)
      modifies this, rt
      ensures suspended == [] && rt.log == old(rt.log) + WakesOf(old(suspended))
      ensures DoNotifyAll(s, None, c) == DoWakes(SetCond(s, c, []), WakesOf(old(suspended)))
      ensures Represents(DoNotifyAll(s, None, c), c)
    {
      var n := 0;
      while suspended != []
        invariant 0 <= n <= |old(suspended)|
        invariant suspended == old(suspended)[n..]
        invariant rt.log == old(rt.log) + WakesOf(old(suspended))[..n]
        decreases |suspended|
      {
        var p := suspended[0];
        suspended := suspended[1..];
        if p.timer.Some? {
          rt.Cancel(p.timer.value);
        } else {
          rt.Resume(p.t);
        }
        n := n + 1;
      }
      NotifyAllWakes(s, c);
      NotifyAllEmpties(s, c);
    }
  }

  lemma {:induction false} NotifyAllEmpties(s: Sys, c: Cid)
    requires c in s.conds
    ensures c in PopAllWaiters(s, c).conds && PopAllWaiters(s, c).conds[c] == []
    decreases |s.conds[c]|
  {
    if s.conds[c] != [] { NotifyAllEmpties(PopWaiter(s, c), c); }
  }
}
