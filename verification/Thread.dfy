/** thread_object and scheduler_object, method by method, and how their methods are the steps of the
    run-time. */
module ThreadModel {
  import opened Basics
  import opened Runtime

  // ----- The end of one_step() is a run of the run-time -----

  function PostAll(s: Sys, q: seq<Tid>): Sys
    decreases |q|
  {
    if q == [] then s else PostAll(Post(s, q[0]), q[1..])
  }

  function Drains(f: Tid, n: nat): seq<Label> {
    if n == 0 then [] else [DrainOne(f)] + Drains(f, n - 1)
  }

  lemma PostOthers(s: Sys, t: Tid, f: Tid, th: Thread)
    requires f in s.threads && t != f
    ensures Put(Post(s, t), f, th) == Post(Put(s, f, th), t)
    ensures f in Post(s, t).threads && Post(s, t).threads[f] == s.threads[f]
  {
    if t in s.threads {
      var p := s.threads[t].(pending := s.threads[t].pending + 1);
      assert s.threads[t := p][f := th] == s.threads[f := th][t := p];
    }
  }

  lemma {:induction false} PostAllOthers(s: Sys, q: seq<Tid>, f: Tid, th: Thread)
    requires f in s.threads && f !in q
    ensures Put(PostAll(s, q), f, th) == PostAll(Put(s, f, th), q)
    decreases |q|
  {
    if q != [] {
      PostOthers(s, q[0], f, th);
      PostAllOthers(Post(s, q[0]), q[1..], f, th);
    }
  }

  function Activated(th: Thread, n: nat): Thread {
    th.(pending := th.pending + n)
  }

  lemma PostCount(s: Sys, u: Tid, t: Tid)
    requires t in s.threads
    ensures t in Post(s, u).threads && Post(s, u).threads[t] == Activated(s.threads[t], if u == t then 1 else 0)
  {
  }

  /** Each thread is activated as often as the list names it. */
  lemma {:induction false} PostAllCounts(s: Sys, q: seq<Tid>, t: Tid)
    requires t in s.threads
    ensures t in PostAll(s, q).threads && PostAll(s, q).threads[t] == Activated(s.threads[t], multiset(q)[t])
    decreases |q|
  {
    hide Post;
    if q != [] {
      PostCount(s, q[0], t);
      PostAllCounts(Post(s, q[0]), q[1..], t);
      assert q == [q[0]] + q[1..];
      assert multiset(q)[t] == multiset([q[0]])[t] + multiset(q[1..])[t];
    }
  }

  /** The functions of the drained queue, run one by one by one_step(), activate each joiner as often as
      it was queued, and change nothing else. */
  lemma {:induction false} DrainLoop(s: Sys, f: Tid, q: seq<Tid>)
    requires f in s.threads && s.threads[f].phase == Draining && s.threads[f].draining == q && f !in q
    ensures Exec(s, Drains(f, |q|)) == Some(Put(PostAll(s, q), f, s.threads[f].(draining := [])))
    decreases |q|
  {
    if q == [] {
      assert s.threads[f].(draining := []) == s.threads[f];
      assert s.threads[f := s.threads[f]] == s.threads;
    } else {
      var th1 := s.threads[f].(draining := q[1..]);
      var s1 := DoDrainOne(s, f);
      PostOthers(s, q[0], f, th1);
      DrainFirst(s, s1, f, q);
      DrainLoop(s1, f, q[1..]);
      PostAllOthers(Post(s, q[0]), q[1..], f, th1);
      PutTwice(PostAll(Post(s, q[0]), q[1..]), f, th1, s.threads[f].(draining := []));
      DrainCons(s, s1, f, |q| - 1);
    }
  }

  lemma DrainFirst(s: Sys, s1: Sys, f: Tid, q: seq<Tid>)
    requires f in s.threads && s.threads[f].phase == Draining && s.threads[f].draining == q && q != [] && f !in q
    requires s1 == DoDrainOne(s, f)
    ensures s1 == Post(Put(s, f, s.threads[f].(draining := q[1..])), q[0])
    ensures f in s1.threads && s1.threads[f] == s.threads[f].(draining := q[1..])
  {
    assert q[0] in q;
  }

  lemma PutTwice(s: Sys, f: Tid, a: Thread, b: Thread)
    ensures Put(Put(s, f, a), f, b) == Put(s, f, b)
  {
    assert s.threads[f := a][f := b] == s.threads[f := b];
  }

  lemma DrainCons(s: Sys, s1: Sys, f: Tid, n: nat)
    requires f in s.threads && s.threads[f].phase == Draining && s.threads[f].draining != [] && s1 == DoDrainOne(s, f)
    ensures Exec(s, Drains(f, n + 1)) == Exec(s1, Drains(f, n))
  {
    assert ([DrainOne(f)] + Drains(f, n))[1..] == Drains(f, n);
  }

  /** A stopped thread has activated everybody in its join queue and posted its exit message. */
  function Drained(s: Sys, f: Tid): Sys
    requires f in s.threads
  {
    var th := s.threads[f].(phase := Idle, joinQueue := [], draining := [], exit := Posted);
    Put(PostAll(s, s.threads[f].joinQueue), f, th)
  }

  /** What one_step() leaves when the coroutine has switched out: READY posts an activation, BLOCKED does
      nothing, STOPPED drains the join queue. */
  function StepEnd(s: Sys, t: Tid): Sys
    requires t in s.threads
  {
    if s.threads[t].state == STOPPED then Drained(s, t) else DoEndStep(s, t)
  }

  function StepEndLabels(s: Sys, t: Tid): seq<Label>
    requires t in s.threads
  {
    if s.threads[t].state == STOPPED then [Drain(t)] + (Drains(t, |s.threads[t].joinQueue|) + [DrainEnd(t)])
    else [EndStep(t)]
  }

  /** The coroutine of t has switched out with v, and one_step() has not gone on. */
  predicate SwitchedOut(s: Sys, t: Tid, v: CoState) {
    && t in s.threads && v != RUNNING && s.threads[t].state == v && s.threads[t].phase == Returned(v)
    && s.threads[t].joinLock.None? && t !in s.threads[t].joinQueue
  }

  lemma {:induction false} ExecSplit(s: Sys, a: seq<Label>, b: seq<Label>)
    requires Exec(s, a).Some?
    ensures Exec(s, a + b) == Exec(Exec(s, a).value, b)
    decreases |a|
  {
    hide Enabled, Next;
    if a == [] {
      assert a + b == b;
    } else {
      ExecSplit(Next(s, a[0]), a[1..], b);
      assert (a + b)[1..] == a[1..] + b;
    }
  }

  lemma ExecOne(s: Sys, l: Label)
    requires Enabled(s, l)
    ensures Exec(s, [l]) == Some(Next(s, l))
  {
    hide Enabled, Next;
    assert Exec(Next(s, l), []) == Some(Next(s, l));
  }

  /** The join queue is moved out, and its functions run. */
  lemma DrainBegins(s: Sys, t: Tid)
    requires SwitchedOut(s, t, STOPPED)
    ensures var (q, th) := (s.threads[t].joinQueue, s.threads[t].(phase := Draining, joinQueue := []));
      && Enabled(s, Drain(t)) && Next(s, Drain(t)) == Put(s, t, th.(draining := q))
      && Exec(Next(s, Drain(t)), Drains(t, |q|)) == Some(Put(PostAll(s, q), t, th.(draining := [])))
  {
    var q, th := s.threads[t].joinQueue, s.threads[t].(phase := Draining, joinQueue := []);
    var s1 := Put(s, t, th.(draining := q));
    DrainLoop(s1, t, q);
    PostAllOthers(s, q, t, th.(draining := q));
    PutTwice(PostAll(s, q), t, th.(draining := q), th.(draining := []));
  }

  /** The exit message is posted. */
  lemma DrainEnds(s: Sys, t: Tid, s2: Sys)
    requires SwitchedOut(s, t, STOPPED)
    requires s2 ==
      Put(PostAll(s, s.threads[t].joinQueue), t, s.threads[t].(phase := Draining, joinQueue := [], draining := []))
    ensures Enabled(s2, DrainEnd(t)) && Next(s2, DrainEnd(t)) == StepEnd(s, t)
  {
    PutTwice(PostAll(s, s.threads[t].joinQueue), t, s2.threads[t], s2.threads[t].(phase := Idle, exit := Posted));
  }

  /** The end of one_step(), with its loop over the join queue, is a run of the run-time. */
  lemma StepEndIsRun(s: Sys, t: Tid, v: CoState)
    requires SwitchedOut(s, t, v)
    ensures Exec(s, StepEndLabels(s, t)) == Some(StepEnd(s, t))
  {
    if v == STOPPED {
      DrainIsRun(s, t);
    } else {
      ExecOne(s, EndStep(t));
    }
  }

  lemma DrainIsRun(s: Sys, t: Tid)
    requires SwitchedOut(s, t, STOPPED)
    ensures Exec(s, [Drain(t)] + (Drains(t, |s.threads[t].joinQueue|) + [DrainEnd(t)])) == Some(StepEnd(s, t))
  {
    hide Enabled, Next, Drains, PostAll, StepEnd;
    DrainBegins(s, t);
    var n, s1 := |s.threads[t].joinQueue|, Next(s, Drain(t));
    ExecOne(s, Drain(t));
    var s2 := Exec(s1, Drains(t, n)).value;
    DrainEnds(s, t, s2);
    ExecOne(s2, DrainEnd(t));
    ExecSplit(s1, Drains(t, n), [DrainEnd(t)]);
    ExecSplit(s, [Drain(t)], Drains(t, n) + [DrainEnd(t)]);
  }

  function Resumes(q: seq<Tid>): seq<Wake> {
    seq(|q|, i requires 0 <= i < |q| => Wake.Resume(q[i]))
  }

  lemma {:induction false} ResumesCount(q: seq<Tid>, u: Tid)
    ensures multiset(Resumes(q))[Wake.Resume(u)] == multiset(q)[u]
    decreases |q|
  {
    if q != [] {
      ResumesCount(q[1..], u);
      assert Resumes(q) == [Wake.Resume(q[0])] + Resumes(q[1..]);
      assert q == [q[0]] + q[1..];
      assert multiset(q)[u] == multiset([q[0]])[u] + multiset(q[1..])[u];
    }
  }

  /** What a thread posts at the end of one_step(). */
  function Posts(s: Sys, t: Tid): seq<Wake>
    requires t in s.threads
  {
    match s.threads[t].state
    case READY => [Wake.Resume(t)]
    case STOPPED => Resumes(s.threads[t].joinQueue)
    case _ => []
  }

  /** Each post is one activation more in the run-time, and there are no others. */
  lemma StepEndPosts(s: Sys, t: Tid, v: CoState, u: Tid)
    requires SwitchedOut(s, t, v) && u in s.threads
    ensures u in StepEnd(s, t).threads
    ensures StepEnd(s, t).threads[u].pending == s.threads[u].pending + multiset(Posts(s, t))[Wake.Resume(u)]
  {
    if v == STOPPED {
      PostAllCounts(s, s.threads[t].joinQueue, u);
      ResumesCount(s.threads[t].joinQueue, u);
    }
  }

  // ----- thread_object -----

  datatype JoinResult = SelfJoin | AlreadyStopped | Queued

  /** The index of the first value that is not RUNNING. */
  function FirstSwitch(rets: seq<CoState>): (n: nat)
    requires rets != [] && rets[|rets| - 1] != RUNNING
    ensures n < |rets| && rets[n] != RUNNING && forall i :: 0 <= i < n ==> rets[i] == RUNNING
  {
    if rets[0] != RUNNING then 0 else 1 + FirstSwitch(rets[1..])
  }

  /** One section of join() and join_and_rethrow(): the test, and the entry in the queue if it has to wait. */
  function JoinStep(s: Sys, t: Tid, f: Tid, rethrow: bool): Sys
    requires t in s.threads && f in s.threads
  {
    var s1 := DoJoinTest(s, t, f, rethrow);
    if s.threads[f].state == STOPPED then s1 else DoJoinPush(s1, t, f)
  }

  lemma JoinStopped(s: Sys, t: Tid, f: Tid, rethrow: bool)
    requires t in s.threads && f in s.threads && s.threads[f].state == STOPPED
    ensures JoinStep(s, t, f, rethrow) == if rethrow then Propagate(s, f) else s
  {
  }

  lemma JoinQueues(s: Sys, t: Tid, f: Tid, rethrow: bool)
    requires t in s.threads && f in s.threads && t != f && s.threads[f].state != STOPPED
    ensures t in JoinStep(s, t, f, rethrow).threads && f in JoinStep(s, t, f, rethrow).threads
    ensures JoinStep(s, t, f, rethrow).threads[t] == s.threads[t].(stage := Parking, wait := OnJoin(f, rethrow))
    ensures JoinStep(s, t, f, rethrow).threads[f] ==
      s.threads[f].(joinQueue := s.threads[f].joinQueue + [t], joinLock := None)
  {
    var s1 := DoJoinTest(s, t, f, rethrow);
    assert s1.threads[f] == s.threads[f].(joinLock := Some(t));
  }

  class ThreadObject {
    const id: Tid
    var state: CoState
    /** The value that the coroutine has switched out with and one_step() has not stored yet. */
    var out: Option<CoState>
    /** caller_ is set: the thread has been inside its coroutine. */
    var inThread: bool
    var joinQueue: seq<Tid>
    var uncaught: Option<nat>
    var exitPosted: bool

    /** The fields but the state are those of the thread in the run-time. */
    ghost predicate Agrees(s: Sys)
      reads this
    {
      && id in s.threads && joinQueue == s.threads[id].joinQueue && uncaught.Some? == s.threads[id].exc
      && exitPosted == !s.threads[id].exit.NotPosted? && inThread == !s.threads[id].stage.Fresh?
    }

    /** In the run-time a switch is one step with the store of its value. */
    ghost predicate Represents(s: Sys)
      reads this
    {
      Agrees(s) && s.threads[id].state == if out.Some? then out.value else state
    }

    constructor (id: Tid)
      ensures this.id == id && state == READY && out.None? && !inThread
      ensures joinQueue == [] && uncaught == None && !exitPosted
    {
      this.id := id;
      state, out, inThread, joinQueue, uncaught, exitPosted := READY, None, false, [], None, false;
    }

    /** Inside the coroutine this is a switch, which carries the state to one_step(). */
    method SetState(v: CoState) returns (switched: bool)
      modifies this`state, this`out
      ensures switched == inThread
      ensures if inThread then out == Some(v) && state == old(state) else out == old(out) && state == v
    {
      if inThread {
        out := Some(v);
        return true;
      }
      state := v;
      return false;
    }

    method Resume(rt: Wakeups)
      modifies rt
      ensures rt.log == old(rt.log) + [Wake.Resume(id)]
    {
      rt.Resume(id);
    }

    method Pause(ghost s: Sys) returns (switched: bool)
      requires Represents(s) && inThread && out.None?
      modifies this`state, this`out
      ensures switched && Represents(DoPause(s, id))
    {
      switched := SetState(BLOCKED);
    }

    /** `workers` and `count` are the sizes the scheduler knows; `sameStrand` is None without a hint. The
        thread switches out at least whenever there is no hint. */
    method Yield(workers: nat, count: nat, sameStrand: Option<bool>, ghost s: Sys) returns (switched: bool)
      requires Represents(s) && inThread && out.None? && state == RUNNING
      modifies this`state, this`out
      ensures switched <==> workers == 1 || count > workers * 2 || sameStrand == None || sameStrand == Some(true)
      ensures Represents(DoYield(s, id, switched))
    {
      if workers == 1 || count > workers * 2 || sameStrand == Some(true) || sameStrand.None? {
        switched := SetState(READY);
      } else {
        switched := false;
      }
    }

    /** propagate_exception(this): whoever comes second gets nothing. */
    method PropagateException(ghost s: Sys) returns (e: Option<nat>)
      requires Represents(s)
      modifies this`uncaught
      ensures Represents(Propagate(s, id)) && e == old(uncaught)
      ensures Propagate(s, id).threads[id].rethrown == s.threads[id].rethrown + (if e.Some? then 1 else 0)
    {
      e := uncaught;
      uncaught := None;
    }

    /** join() and join_and_rethrow() up to the pause: one section under the spinlock of f. */
    method JoinSection(f: ThreadObject, rethrow: bool, ghost s: Sys) returns (r: JoinResult, e: Option<nat>)
      requires Represents(s) && f.Represents(s) && inThread && f.out.None? && (f == this <==> f.id == id)
      modifies f`joinQueue, f`uncaught
      ensures r.SelfJoin? <==> f == this
      ensures r.AlreadyStopped? <==> f != this && f.state == STOPPED
      ensures f == this ==> Represents(s)
      ensures f != this ==> Represents(JoinStep(s, id, f.id, rethrow)) && f.Represents(JoinStep(s, id, f.id, rethrow))
      ensures e.Some? <==> r.AlreadyStopped? && rethrow && s.threads[f.id].exc
    {
      hide JoinStep;
      e := None;
      if f == this {
        return SelfJoin, None;
      } else if f.state == STOPPED {
        JoinStopped(s, id, f.id, rethrow);
        if rethrow {
          e := f.PropagateException(s);
        }
        return AlreadyStopped, e;
      }
      JoinQueues(s, id, f.id, rethrow);
      f.joinQueue := f.joinQueue + [id];
      return Queued, None;
    }

    /** The end of runner_wrapper(): the exception is kept, and the last switch reports STOPPED. */
    method Finish(thrown: Option<nat>, ghost s: Sys) returns (switched: bool)
      requires Represents(s) && inThread && out.None? && uncaught.None?
      modifies this`state, this`out, this`uncaught
      ensures switched && uncaught == thrown && Represents(DoStop(s, id, thrown.Some?))
    {
      if thrown.Some? {
        uncaught := thrown;
      }
      switched := SetState(STOPPED);
    }

    /** one_step() up to the coroutine. */
    method Enter(ghost s: Sys)
      requires Agrees(s) && state == READY && s.threads[id].pending > 0 && out.None?
      modifies this`state, this`inThread
      ensures state == RUNNING && Represents(DoActivate(s, id))
    {
      if state == READY {
        state := RUNNING;
      }
      inThread := true;
    }

    /** one_step(): `rets` are the values with which the coroutine switches out, one for each time it is
        entered. It is entered until it reports something else than RUNNING. `s` is the run-time before,
        `s1` when the coroutine has switched out for good; the rest of one_step() is the run from there,
        and posts exactly the activations of that run. */
    method OneStep(rets: seq<CoState>, rt: Wakeups, ghost s: Sys, ghost s1: Sys) returns (entered: nat)
      requires rets != [] && rets[|rets| - 1] != RUNNING
      requires Agrees(s) && state == READY && out.None? && s.threads[id].pending > 0
      requires SwitchedOut(s1, id, rets[FirstSwitch(rets)]) && !s1.threads[id].stage.Fresh?
      requires joinQueue == s1.threads[id].joinQueue && uncaught.Some? == s1.threads[id].exc
      requires exitPosted == !s1.threads[id].exit.NotPosted?
      modifies this, rt
      ensures entered == FirstSwitch(rets) + 1 && state == rets[entered - 1] && out.None?
      ensures Represents(StepEnd(s1, id)) && rt.log == old(rt.log) + Posts(s1, id)
    {
      Enter(s);
      entered := 0;
      while state == RUNNING
        invariant 0 <= entered <= FirstSwitch(rets) + 1 && out.None? && inThread
        invariant state == if entered == 0 then RUNNING else rets[entered - 1]
        invariant joinQueue == old(joinQueue) && rt.log == old(rt.log)
        invariant exitPosted == old(exitPosted) && uncaught == old(uncaught)
        decreases FirstSwitch(rets) + 1 - entered
      {
        state := rets[entered];
        entered := entered + 1;
      }
      EndStep(rt, s1);
    }

    /** The rest of one_step(). */
    method EndStep(rt: Wakeups, ghost s: Sys)
      requires Represents(s) && out.None? && SwitchedOut(s, id, state)
      modifies this`joinQueue, this`exitPosted, rt
      ensures Represents(StepEnd(s, id)) && rt.log == old(rt.log) + Posts(s, id)
    {
      if state == READY {
        Resume(rt);
      } else if state == STOPPED {
        var temp := joinQueue;
        joinQueue := [];
        var i := 0;
        while i < |temp|
          invariant 0 <= i <= |temp| && rt.log == old(rt.log) + Resumes(temp[..i])
          invariant joinQueue == [] && exitPosted == old(exitPosted)
        {
          rt.Resume(temp[i]);
          assert Resumes(temp[..i + 1]) == Resumes(temp[..i]) + [Wake.Resume(temp[i])];
          i := i + 1;
        }
        assert temp[..i] == temp;
        exitPosted := true;
      }
    }
  }

  /** activate_thread(), the handler on the strand: READY whatever the state was, then one step. */
  method ActivateThread(t: ThreadObject, rets: seq<CoState>, rt: Wakeups, ghost s: Sys, ghost s1: Sys)
    returns (entered: nat)
    requires rets != [] && rets[|rets| - 1] != RUNNING
    requires t.Represents(s) && t.out.None? && s.threads[t.id].pending > 0
    requires SwitchedOut(s1, t.id, rets[FirstSwitch(rets)]) && !s1.threads[t.id].stage.Fresh?
    requires t.joinQueue == s1.threads[t.id].joinQueue && t.uncaught.Some? == s1.threads[t.id].exc
    requires t.exitPosted == !s1.threads[t.id].exit.NotPosted?
    modifies t, rt
    ensures entered == FirstSwitch(rets) + 1
    ensures t.Represents(StepEnd(s1, t.id)) && rt.log == old(rt.log) + Posts(s1, t.id)
  {
    t.state := READY;
    entered := t.OneStep(rets, rt, s, s1);
  }

  // ----- scheduler_object -----

  class Scheduler {
    var threadCount: nat
    var started: bool
    var stopped: bool
    /** How often the check timer was armed again. */
    var checks: nat

    /** The counters are those of a state of the run-time. */
    ghost predicate Represents(s: Sys)
      reads this
    {
      threadCount == s.threadCount && started == s.started && stopped == s.stopped
    }

    constructor ()
      ensures threadCount == 0 && !started && !stopped
    {
      threadCount, started, stopped, checks := 0, false, false, 0;
    }

    method MakeThread(child: Tid, rt: Wakeups, ghost s: Sys) returns (t: ThreadObject)
      requires Represents(s) && child !in s.threads
      modifies this, rt
      ensures Represents(DoSpawn(s, child))
      ensures fresh(t) && t.id == child && t.state == READY && t.Represents(DoSpawn(s, child))
      ensures rt.log == old(rt.log) + [Wake.Resume(child)] && DoSpawn(s, child).threads[child].pending == 1
    {
      threadCount := threadCount + 1;
      t := new ThreadObject(child);
      if !started {
        started := true;
      }
      t.Resume(rt);
    }

    method OnThreadExit(t: Tid, ghost s: Sys)
      requires Represents(s) && Enabled(s, ProcessExit(t))
      modifies this
      ensures Represents(Next(s, ProcessExit(t)))
    {
      threadCount := threadCount - 1;
    }

    method OnCheckTimer(ghost s: Sys)
      requires Represents(s) && Enabled(s, CheckTimer)
      modifies this
      ensures Represents(Next(s, CheckTimer))
      ensures checks == old(checks) + (if stopped then 0 else 1)
    {
      if threadCount > 0 || !started {
        checks := checks + 1;
      } else {
        stopped := true;
      }
    }
  }
}
