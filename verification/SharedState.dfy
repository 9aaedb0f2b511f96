/** The shared state of a promise and its futures: single assignment, and external waiters that run with
    the mutex released in the middle of the notification loop. Each method, made by one thread while
    the others rest, is a run of the machine of SharedStateRuns. */
module SharedStateModel {
  import opened Basics
  import opened SharedStateRuns

  // ----- The run of one call -----

  /** The loop of mark_ready_and_notify_() over k functions: release, run, take the mutex again. */
  function LoopLabels<V>(t: Tid, k: nat): seq<Label<V>> {
    if k == 0 then [Step(t)] else [Step(t), Step(t), Acquire(t)] + LoopLabels(t, k - 1)
  }

  function LoopEnd<V>(s: State<V>, t: Tid, i: nat): State<V>
    requires i <= |s.list|
  {
    s.(lock := None, pc := s.pc[t := Idle], ran := s.ran + multiset(s.list[i..]),
       next := s.next + |s.list| - i, notifier := None)
  }

  lemma OneStep<V>(s: State<V>, l: Label<V>, ls: seq<Label<V>>)
    requires Enabled(s, l)
    ensures Exec(s, [l] + ls) == Exec(Next(s, l), ls)
  {
    hide Enabled, Next;
    assert ([l] + ls)[1..] == ls;
  }

  /** The state after one round of the loop. */
  function Round<V>(s: State<V>, t: Tid, i: nat): State<V>
    requires i < |s.list|
  {
    s.(pc := s.pc[t := Looping(i + 1)], ran := s.ran + multiset{s.list[i]}, next := s.next + 1)
  }

  lemma RoundBegins<V>(s: State<V>, t: Tid, i: nat)
    requires t in s.pc && s.pc[t] == Looping(i) && i < |s.list|
    ensures Enabled(s, Step(t)) && Next(s, Step(t)) == Free(s, t, Running(i))
    ensures Enabled(Free(s, t, Running(i)), Step(t))
  {
  }

  lemma RoundEnds<V>(s: State<V>, t: Tid, i: nat)
    requires t in s.pc && s.pc[t] == Looping(i) && s.lock == Some(t) && i < |s.list|
    ensures Enabled(Free(s, t, Running(i)), Step(t))
    ensures var s2 := Next(Free(s, t, Running(i)), Step(t));
      Enabled(s2, Acquire(t)) && Next(s2, Acquire(t)) == Round(s, t, i)
  {
    var s1 := Free(s, t, Running(i));
    var s2 := Go(Run(s1, s.list[i]), t, Relocking(i + 1)).(next := s.next + 1);
    assert Next(s1, Step(t)) == s2;
    assert s2.pc[t := Looping(i + 1)] == Round(s, t, i).pc;
  }

  lemma OneRound<V>(s: State<V>, t: Tid, i: nat, ls: seq<Label<V>>)
    requires t in s.pc && s.pc[t] == Looping(i) && s.lock == Some(t) && i < |s.list|
    ensures Exec(s, [Step(t), Step(t), Acquire(t)] + ls) == Exec(Round(s, t, i), ls)
  {
    hide Enabled, Next, Exec, Free, Round;
    RoundBegins(s, t, i);
    RoundEnds(s, t, i);
    var s1 := Free(s, t, Running(i));
    OneStep(s, Step(t), [Step(t), Acquire(t)] + ls);
    OneStep(s1, Step(t), [Acquire(t)] + ls);
    OneStep(Next(s1, Step(t)), Acquire(t), ls);
    assert [Step(t), Step(t), Acquire(t)] + ls == [Step(t)] + ([Step(t), Acquire(t)] + ls);
    assert [Step(t), Acquire(t)] + ls == [Step(t)] + ([Acquire(t)] + ls);
  }

  lemma {:induction false} LoopRun<V>(s: State<V>, t: Tid, i: nat)
    requires t in s.pc && s.pc[t] == Looping(i) && s.lock == Some(t) && i <= |s.list|
    ensures Exec(s, LoopLabels(t, |s.list| - i)) == Some(LoopEnd(s, t, i))
    decreases |s.list| - i
  {
    if i == |s.list| {
      LoopStops(s, t);
    } else {
      hide Enabled, Next, Exec, LoopEnd;
      OneRound(s, t, i, LoopLabels(t, |s.list| - i - 1));
      LoopRun(Round(s, t, i), t, i + 1);
      RoundThenEnd(s, t, i);
    }
  }

  lemma RoundThenEnd<V>(s: State<V>, t: Tid, i: nat)
    requires i < |s.list|
    ensures LoopEnd(Round(s, t, i), t, i + 1) == LoopEnd(s, t, i)
  {
    assert s.list[i..] == [s.list[i]] + s.list[i + 1..];
    assert multiset(s.list[i..]) == multiset{s.list[i]} + multiset(s.list[i + 1..]);
    assert Round(s, t, i).pc[t := Idle] == s.pc[t := Idle];
  }

  lemma LoopStops<V>(s: State<V>, t: Tid)
    requires t in s.pc && s.pc[t] == Looping(|s.list|)
    ensures Exec(s, LoopLabels(t, 0)) == Some(LoopEnd(s, t, |s.list|))
  {
    OneStep(s, Step(t), []);
    assert LoopLabels<V>(t, 0) + [] == LoopLabels<V>(t, 0);
    assert LoopLabels<V>(t, 0) == [Step(t)];
    assert s.list[|s.list|..] == [];
    assert s.ran + multiset(s.list[|s.list|..]) == s.ran;
    assert Next(s, Step(t)) == LoopEnd(s, t, |s.list|);
  }

  /** What an operation leaves when its thread, which has taken the mutex for it, runs it to its end. */
  function OpEnd<V>(s: State<V>, t: Tid, op: Op<V>): State<V> {
    match op
    case OpSet(r) => if s.outcome.Some? then Free(s, t, Idle) else LoopEnd(MarkReady(s, t, r), t, 0)
    case OpDestroy =>
      if s.outcome.Some? then Free(s, t, Idle) else LoopEnd(MarkReady(s, t, Raised(BrokenPromise)), t, 0)
    case OpAdd(w) =>
      if s.outcome.Some? then Free(Run(s, w), t, Idle) else Free(s.(list := s.list + [w]), t, Idle)
    case OpGet => if s.outcome.Some? then Free(s, t, Idle) else Free(s.(cv := s.cv + [t]), t, Parked)
  }

  function OpLabels<V>(s: State<V>, t: Tid, op: Op<V>): seq<Label<V>> {
    match op
    case OpAdd(_) => if s.outcome.Some? then [Step(t)] + ([Step(t)] + ([Acquire(t)] + [Step(t)])) else [Step(t)]
    case OpGet => [Step(t)]
    case _ => if s.outcome.Some? then [Step(t)] else [Step(t)] + LoopLabels(t, |s.list|)
  }

  ghost predicate Starts<V>(s: State<V>, t: Tid, op: Op<V>) {
    t in s.pc && s.pc[t] == Inside(op) && s.lock == Some(t)
  }

  lemma OpIsRun<V>(s: State<V>, t: Tid, op: Op<V>)
    requires Starts(s, t, op)
    ensures Exec(s, OpLabels(s, t, op)) == Some(OpEnd(s, t, op))
  {
    var last: Label<V> := Step(t);
    var s1 := Section(s, t, op);
    if s1.pc[t].Looping? {
      OneStep(s, Step(t), LoopLabels(t, |s.list|));
      LoopRun(s1, t, 0);
    } else if s1.pc[t].Late? {
      LateRun(s, t, op.w);
    } else {
      assert [last] + [] == [last];
      OneStep(s, Step(t), []);
    }
  }

  lemma LateRun<V>(s: State<V>, t: Tid, w: Wid)
    requires Starts(s, t, OpAdd(w)) && s.outcome.Some?
    ensures Exec(s, [Step(t)] + ([Step(t)] + ([Acquire(t)] + [Step(t)]))) == Some(Free(Run(s, w), t, Idle))
  {
    var last: Label<V> := Step(t);
    var s1 := Free(s, t, Late(w));
    var s2 := Go(Run(s1, w), t, LateRelocking);
    var s3 := Go(s2, t, LateInside).(lock := Some(t));
    OneStep(s, Step(t), [Step(t)] + ([Acquire(t)] + [Step(t)]));
    OneStep(s1, Step(t), [Acquire(t)] + [Step(t)]);
    OneStep(s2, Acquire(t), [Step(t)]);
    OneStep(s3, Step(t), []);
    assert [last] + [] == [last];
    assert Free(s3, t, Idle).pc == Free(Run(s, w), t, Idle).pc;
  }

  // ----- The class -----

  /** The mutex of a shared state, as far as one thread sees it. */
  class Lock {
    var held: bool

    constructor ()
      ensures held
    {
      held := true;
    }

    method Release()
      requires held
      modifies this
      ensures !held
    {
      held := false;
    }

    method Acquire()
      requires !held
      modifies this
      ensures held
    {
      held := true;
    }
  }

  /** The functions registered from outside; running one demands that the caller released the mutex. */
  class Waiters {
    var ran: seq<Wid>

    constructor ()
      ensures ran == []
    {
      ran := [];
    }

    method Run(w: Wid, mtx: Lock)
      requires !mtx.held
      modifies this
      ensures ran == old(ran) + [w]
    {
      ran := ran + [w];
    }
  }

  class SharedState<V(0)> {
    var ready: bool
    var value: Option<V>
    var except: Option<Exception>
    var extWaiters: seq<Wid>
    var cv: seq<Tid>

    ghost predicate Valid()
      reads this
    {
      && (ready <==> value.Some? || except.Some?)
      && !(value.Some? && except.Some?)
      && (ready ==> cv == [])
    }

    ghost function Result(): Option<Outcome<V>>
      reads this
    {
      if value.Some? then Some(Outcome.Value(value.value))
      else if except.Some? then Some(Raised(except.value))
      else None
    }

    ghost predicate Represents(s: State<V>)
      reads this
    {
      Valid() && s.outcome == Result() && s.list == extWaiters && s.cv == cv
    }

    constructor ()
      ensures Valid() && Result() == None && extWaiters == [] && cv == []
    {
      ready, value, except, extWaiters, cv := false, None, None, [], [];
    }

    /** Every registered function runs once, in order, after `ready` was set and outside the mutex, which
        is held again at the end. */
    method MarkReadyAndNotify(mtx: Lock, ext: Waiters)
      requires mtx.held
      modifies this`ready, this`cv, mtx, ext
      ensures ready && cv == [] && mtx.held
      ensures ext.ran == old(ext.ran) + extWaiters
    {
      ready := true;
      cv := [];
      var i := 0;
      while i < |extWaiters|
        invariant 0 <= i <= |extWaiters| && ready && cv == [] && mtx.held
        invariant ext.ran == old(ext.ran) + extWaiters[..i]
      {
        mtx.Release();
        ext.Run(extWaiters[i], mtx);
        mtx.Acquire();
        i := i + 1;
      }
      assert extWaiters[..i] == extWaiters;
    }

    /** set_value() and set_exception() under the lock; false stands for promise_already_satisfied. The run
        of the machine is for any thread t that has taken its mutex to do the same. */
    method Set(r: Outcome<V>, mtx: Lock, ext: Waiters, ghost s: State<V>, ghost t: Tid) returns (ok: bool)
      requires Represents(s) && mtx.held && multiset(ext.ran) == s.ran
      modifies this, mtx, ext
      ensures Represents(OpEnd(s, t, OpSet(r))) && multiset(ext.ran) == OpEnd(s, t, OpSet(r)).ran && mtx.held
      ensures (ok <==> s.outcome.None?) && (ok ==> Result() == Some(r))
      ensures ext.ran == old(ext.ran) + if ok then extWaiters else []
    {
      if ready {
        return false;
      }
      match r {
        case Value(v) => value := Some(v);
        case Raised(e) => except := Some(e);
      }
      MarkReadyAndNotify(mtx, ext);
      assert s.list[0..] == s.list;
      return true;
    }

    method OwnerDestroyed(mtx: Lock, ext: Waiters, ghost s: State<V>, ghost t: Tid)
      requires Represents(s) && mtx.held && multiset(ext.ran) == s.ran
      modifies this, mtx, ext
      ensures Represents(OpEnd(s, t, OpDestroy)) && multiset(ext.ran) == OpEnd(s, t, OpDestroy).ran && mtx.held
      ensures Result() == if old(Result()).Some? then old(Result()) else Some(Raised(BrokenPromise))
      ensures ext.ran == old(ext.ran) + if old(Result()).Some? then [] else extWaiters
    {
      if !ready {
        var _ := Set(Raised(BrokenPromise), mtx, ext, s, t);
      }
    }

    /** Runs at once when the state is ready, is registered otherwise: never both, never neither. */
    method AddExternalWaiter(w: Wid, mtx: Lock, ext: Waiters, ghost s: State<V>, ghost t: Tid)
      requires Represents(s) && mtx.held && multiset(ext.ran) == s.ran
      modifies this`extWaiters, mtx, ext
      ensures Represents(OpEnd(s, t, OpAdd(w))) && multiset(ext.ran) == OpEnd(s, t, OpAdd(w)).ran && mtx.held
      ensures ext.ran == old(ext.ran) + if ready then [w] else []
    {
      if ready {
        mtx.Release();
        ext.Run(w, mtx);
        mtx.Acquire();
      } else {
        extWaiters := extWaiters + [w];
      }
    }

    /** One look of get_() and wait_() at the state: the outcome, or a place in the queue. */
    method Get(t: Tid, ghost s: State<V>) returns (r: Option<Outcome<V>>)
      requires Represents(s)
      modifies this`cv
      ensures Represents(OpEnd(s, t, OpGet)) && r == s.outcome
      ensures r.None? <==> OpEnd(s, t, OpGet).pc[t].Parked?
    {
      if !ready {
        cv := cv + [t];
        return None;
      }
      if except.Some? {
        return Some(Raised(except.value));
      }
      return Some(Outcome.Value(value.value));
    }
  }
}
