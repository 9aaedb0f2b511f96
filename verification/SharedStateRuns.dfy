/** Any number of threads on one shared state. The mutex is explicit, so that one sees when it is held. */
module SharedStateRuns {
  import opened Basics

  datatype Op<V> = OpSet(r: Outcome<V>) | OpDestroy | OpAdd(w: Wid) | OpGet

  datatype Pc<V> =
    | Idle
    | Locking(op: Op<V>)         // at the unique_lock of the call
    | Inside(op: Op<V>)          // holds the mutex, about to look at the state
    | Looping(i: nat)            // holds the mutex, at the head of the notification loop
    | Running(i: nat)            // runs the i-th registered function, mutex released
    | Relocking(i: nat)          // at the end of the relock_guard of the loop
    | Late(w: Wid)               // runs a function added when the state was ready
    | LateRelocking              // at the end of that relock_guard
    | LateInside                 // holds the mutex, about to leave
    | Parked                     // in the queue of waiters_

  /** `ran` counts how often each function ran, `next` how many of the registered ones did, `notifier` is
      the thread in the notification loop, `added` every function ever passed in (history). */
  datatype State<V> = State(
    outcome: Option<Outcome<V>>, list: seq<Wid>, cv: seq<Tid>, lock: Option<Tid>, pc: map<Tid, Pc<V>>,
    ran: multiset<Wid>, next: nat, notifier: Option<Tid>, added: set<Wid>)

  predicate Initial<V(==)>(s: State<V>) {
    && s.outcome.None? && s.list == [] && s.cv == [] && s.lock.None? && s.ran == multiset{} && s.next == 0
    && s.notifier.None? && s.added == {} && forall t :: t in s.pc ==> s.pc[t] == Idle
  }

  predicate Holds<V>(pc: Pc<V>) {
    pc.Inside? || pc.Looping? || pc.LateInside?
  }

  function Go<V>(s: State<V>, t: Tid, pc: Pc<V>): State<V> {
    s.(pc := s.pc[t := pc])
  }

  /** Release the mutex and go on. */
  function Free<V>(s: State<V>, t: Tid, pc: Pc<V>): State<V> {
    s.(lock := None, pc := s.pc[t := pc])
  }

  function Notified<V>(s: State<V>): map<Tid, Pc<V>> {
    map u | u in s.pc :: if s.pc[u].Parked? then Locking(OpGet) else s.pc[u]
  }

  /** mark_ready_and_notify_() up to its loop. */
  function MarkReady<V>(s: State<V>, t: Tid, r: Outcome<V>): State<V> {
    s.(outcome := Some(r), cv := [], pc := Notified(s)[t := Looping(0)], notifier := Some(t))
  }

  function Section<V>(s: State<V>, t: Tid, op: Op<V>): State<V> {
    match op
    case OpSet(r) => if s.outcome.Some? then Free(s, t, Idle) else MarkReady(s, t, r)
    case OpDestroy => if s.outcome.Some? then Free(s, t, Idle) else MarkReady(s, t, Raised(BrokenPromise))
    case OpAdd(w) => if s.outcome.Some? then Free(s, t, Late(w)) else Free(s.(list := s.list + [w]), t, Idle)
    case OpGet => if s.outcome.Some? then Free(s, t, Idle) else Free(s.(cv := s.cv + [t]), t, Parked)
  }

  function Run<V>(s: State<V>, w: Wid): State<V> {
    s.(ran := s.ran + multiset{w})
  }

  datatype Label<V> = Call(t: Tid, op: Op<V>) | Acquire(t: Tid) | Step(t: Tid)

  function Acquired<V>(pc: Pc<V>): Pc<V>
    requires pc.Locking? || pc.Relocking? || pc.LateRelocking?
  {
    match pc
    case Locking(op) => Inside(op)
    case Relocking(i) => Looping(i)
    case LateRelocking => LateInside
  }

  /** A function object is passed to add_external_waiter() once. */
  predicate Enabled<V>(s: State<V>, l: Label<V>) {
    match l
    case Call(t, op) => t in s.pc && s.pc[t].Idle? && (op.OpAdd? ==> op.w !in s.added)
    case Acquire(t) => t in s.pc && (s.pc[t].Locking? || s.pc[t].Relocking? || s.pc[t].LateRelocking?) && s.lock.None?
    case Step(t) => t in s.pc && (Holds(s.pc[t]) || (s.pc[t].Running? && s.pc[t].i < |s.list|) || s.pc[t].Late?)
  }

  function StepOf<V>(s: State<V>, t: Tid): State<V>
    requires Enabled(s, Step(t))
  {
    match s.pc[t]
    case Inside(op) => Section(s, t, op)
    case Looping(i) => if i < |s.list| then Free(s, t, Running(i)) else Free(s, t, Idle).(notifier := None)
    case Running(i) => Go(Run(s, s.list[i]), t, Relocking(i + 1)).(next := s.next + 1)
    case Late(w) => Go(Run(s, w), t, LateRelocking)
    case LateInside => Free(s, t, Idle)
  }

  function Next<V>(s: State<V>, l: Label<V>): State<V>
    requires Enabled(s, l)
  {
    match l
    case Call(t, op) => Go(s, t, Locking(op)).(added := if op.OpAdd? then s.added + {op.w} else s.added)
    case Acquire(t) => Go(s, t, Acquired(s.pc[t])).(lock := Some(t))
    case Step(t) => StepOf(s, t)
  }

  function Exec<V>(s: State<V>, ls: seq<Label<V>>): Option<State<V>>
    decreases |ls|
  {
    if ls == [] then Some(s) else if Enabled(s, ls[0]) then Exec(Next(s, ls[0]), ls[1..]) else None
  }

  ghost predicate Reachable<V(!new)>(s: State<V>) {
    exists s0: State<V>, ls: seq<Label<V>> :: Initial(s0) && Exec(s0, ls) == Some(s)
  }

  // ----- The invariant -----

  predicate InLoop<V>(pc: Pc<V>) {
    pc.Looping? || pc.Running? || pc.Relocking?
  }

  /** The function a thread has in hand: not registered and not run. */
  function Carried<V>(pc: Pc<V>): Option<Wid> {
    match pc
    case Locking(op) => if op.OpAdd? then Some(op.w) else None
    case Inside(op) => if op.OpAdd? then Some(op.w) else None
    case Late(w) => Some(w)
    case _ => None
  }

  ghost predicate LockOk<V>(s: State<V>) {
    && (s.lock.Some? ==> s.lock.value in s.pc && Holds(s.pc[s.lock.value]))
    && (forall t :: t in s.pc && Holds(s.pc[t]) ==> s.lock == Some(t))
  }

  /** One thread at most is in the loop, at the first function that did not run. */
  ghost predicate LoopOk<V>(s: State<V>) {
    && (s.notifier.Some? ==> s.notifier.value in s.pc && InLoop(s.pc[s.notifier.value]) && s.outcome.Some?)
    && (forall t :: t in s.pc && InLoop(s.pc[t]) ==>
      s.notifier == Some(t) && s.pc[t].i == s.next && (s.pc[t].Running? ==> s.next < |s.list|))
    && s.next <= |s.list|
    && (s.outcome.None? ==> s.next == 0)
    && (s.outcome.Some? && s.notifier.None? ==> s.next == |s.list|)
  }

  predicate InHand<V>(s: State<V>, t: Tid, w: Wid) {
    t in s.pc && Carried(s.pc[t]) == Some(w)
  }

  /** Where every function is: registered, and then run iff the loop passed it; in the hand of one
      thread, and then not run; or run once. */
  ghost predicate RanOk<V>(s: State<V>) {
    && NoDup(s.list)
    && (forall k :: 0 <= k < |s.list| ==> s.list[k] in s.added && s.ran[s.list[k]] == if k < s.next then 1 else 0)
    && (forall t, w :: InHand(s, t, w) ==> w in s.added && w !in s.list && s.ran[w] == 0)
    && (forall t, u, w :: InHand(s, t, w) && InHand(s, u, w) ==> t == u)
    && (forall w :: w in s.added && w !in s.list && s.ran[w] != 1 ==> exists t :: InHand(s, t, w))
    && (forall w :: w in s.ran ==> w in s.added && s.outcome.Some?)
    && (forall t :: t in s.pc && s.pc[t].Late? ==> s.outcome.Some?)
  }

  ghost predicate ParkedOk<V>(s: State<V>) {
    && (forall t :: t in s.pc && s.pc[t].Parked? ==> s.outcome.None? && t in s.cv)
    && (forall t :: t in s.cv ==> t in s.pc && s.pc[t].Parked?)
    && NoDup(s.cv)
  }

  ghost predicate Inv<V>(s: State<V>) {
    LockOk(s) && LoopOk(s) && RanOk(s) && ParkedOk(s)
  }

  lemma InitialInv<V>(s: State<V>)
    requires Initial(s)
    ensures Inv(s)
  {
  }

  lemma StepLock<V>(s: State<V>, l: Label<V>)
    requires LockOk(s) && Enabled(s, l)
    ensures LockOk(Next(s, l))
  {
  }

  lemma StepLoop<V>(s: State<V>, l: Label<V>)
    requires LockOk(s) && LoopOk(s) && Enabled(s, l)
    ensures LoopOk(Next(s, l))
  {
    hide LockOk, LoopOk;
    if l.Step? && s.pc[l.t].Inside? { SectionLoop(s, l.t, s.pc[l.t].op); }
    else if l.Step? { WorkLoop(s, l.t); }
    else { QuietLoop(s, l); }
  }

  lemma QuietLoop<V>(s: State<V>, l: Label<V>)
    requires LoopOk(s) && Enabled(s, l) && !l.Step?
    ensures LoopOk(Next(s, l))
  {
  }

  lemma SectionLoop<V>(s: State<V>, t: Tid, op: Op<V>)
    requires LoopOk(s) && t in s.pc && s.pc[t] == Inside(op)
    ensures LoopOk(Section(s, t, op))
  {
  }

  lemma WorkLoop<V>(s: State<V>, t: Tid)
    requires LoopOk(s) && Enabled(s, Step(t)) && !s.pc[t].Inside?
    ensures LoopOk(StepOf(s, t))
  {
  }

  lemma StepParked<V>(s: State<V>, l: Label<V>)
    requires LockOk(s) && ParkedOk(s) && Enabled(s, l)
    ensures ParkedOk(Next(s, l))
  {
    if l.Step? && s.pc[l.t].Inside? { SectionParked(s, l.t, s.pc[l.t].op); }
    else { QuietParked(s, l); }
  }

  lemma SectionParked<V>(s: State<V>, t: Tid, op: Op<V>)
    requires ParkedOk(s) && t in s.pc && s.pc[t] == Inside(op)
    ensures ParkedOk(Section(s, t, op))
  {
  }

  lemma QuietParked<V>(s: State<V>, l: Label<V>)
    requires ParkedOk(s) && Enabled(s, l) && !(l.Step? && s.pc[l.t].Inside?)
    ensures ParkedOk(Next(s, l))
  {
  }

  /** A step that moves no function. */
  lemma NothingMoves<V>(s: State<V>, s': State<V>)
    requires RanOk(s) && s'.list == s.list && s'.ran == s.ran && s'.next == s.next && s'.added == s.added
    requires s'.pc.Keys == s.pc.Keys && forall t :: t in s.pc ==> Carried(s'.pc[t]) == Carried(s.pc[t])
    requires s.outcome.Some? ==> s'.outcome.Some?
    requires forall t :: t in s'.pc && s'.pc[t].Late? ==> s'.outcome.Some?
    ensures RanOk(s')
  {
    forall t, w ensures InHand(s', t, w) <==> InHand(s, t, w) {}
  }

  lemma CallRan<V>(s: State<V>, t: Tid, op: Op<V>)
    requires RanOk(s) && Enabled(s, Call(t, op))
    ensures RanOk(Next(s, Call(t, op)))
  {
    var s' := Next(s, Call(t, op));
    if op.OpAdd? {
      assert s.ran[op.w] == 0;
      assert InHand(s', t, op.w);
      forall u, w ensures InHand(s', u, w) <==> InHand(s, u, w) || (u == t && w == op.w) {}
    } else {
      NothingMoves(s, s');
    }
  }

  /** The function in the hand of t is registered. */
  lemma RegisteredRan<V>(s: State<V>, s': State<V>, t: Tid, w: Wid)
    requires RanOk(s) && InHand(s, t, w) && s.outcome.None? && s.next == 0
    requires s' == Free(s.(list := s.list + [w]), t, Idle)
    ensures RanOk(s')
  {
    forall u, v ensures InHand(s', u, v) <==> InHand(s, u, v) && u != t {}
    assert forall v :: v in s'.list <==> v in s.list || v == w;
  }

  lemma SectionRan<V>(s: State<V>, t: Tid, op: Op<V>)
    requires RanOk(s) && LoopOk(s) && t in s.pc && s.pc[t] == Inside(op)
    ensures RanOk(Section(s, t, op))
  {
    if op.OpAdd? && s.outcome.None? {
      RegisteredRan(s, Section(s, t, op), t, op.w);
    } else {
      NothingMoves(s, Section(s, t, op));
    }
  }

  lemma LoopIndex<V>(s: State<V>, t: Tid, i: nat)
    requires LoopOk(s) && t in s.pc && s.pc[t] == Running(i)
    ensures i == s.next && s.outcome.Some?
  {
  }

  lemma LoopRan<V>(s: State<V>, s': State<V>, t: Tid, i: nat)
    requires RanOk(s) && LoopOk(s) && t in s.pc && s.pc[t] == Running(i) && i < |s.list|
    requires s' == Go(Run(s, s.list[i]), t, Relocking(i + 1)).(next := s.next + 1)
    ensures RanOk(s')
  {
    hide LoopOk;
    LoopIndex(s, t, i);
    forall u, w ensures InHand(s', u, w) <==> InHand(s, u, w) {}
    forall w ensures s'.ran[w] == s.ran[w] + (if w == s.list[i] then 1 else 0) {}
  }

  lemma LateRan<V>(s: State<V>, s': State<V>, t: Tid, w: Wid)
    requires RanOk(s) && t in s.pc && s.pc[t] == Late(w) && s' == Go(Run(s, w), t, LateRelocking)
    ensures RanOk(s')
  {
    assert InHand(s, t, w);
    forall u, v ensures InHand(s', u, v) <==> InHand(s, u, v) && u != t {}
    forall v ensures s'.ran[v] == s.ran[v] + (if v == w then 1 else 0) {}
  }

  lemma StepRan<V>(s: State<V>, l: Label<V>)
    requires Inv(s) && Enabled(s, l)
    ensures RanOk(Next(s, l))
  {
    hide RanOk, LockOk, ParkedOk, LoopOk, Section, Run;
    match l {
      case Call(t, op) => CallRan(s, t, op);
      case Acquire(t) => AcquireRan(s, t);
      case Step(t) =>
        match s.pc[t] {
          case Inside(op) => SectionRan(s, t, op);
          case Running(i) => LoopRan(s, StepOf(s, t), t, i);
          case Late(w) => LateRan(s, StepOf(s, t), t, w);
          case _ => LeaveRan(s, t);
        }
    }
  }

  lemma AcquireRan<V>(s: State<V>, t: Tid)
    requires RanOk(s) && Enabled(s, Acquire(t))
    ensures RanOk(Next(s, Acquire(t)))
  {
    hide RanOk;
    assert forall u :: u in s.pc && s.pc[u].Late? ==> s.outcome.Some? by { LateReady(s); }
    NothingMoves(s, Next(s, Acquire(t)));
  }

  lemma LateReady<V>(s: State<V>)
    requires RanOk(s)
    ensures forall t :: t in s.pc && s.pc[t].Late? ==> s.outcome.Some?
  {
  }

  lemma LeaveRan<V>(s: State<V>, t: Tid)
    requires RanOk(s) && Enabled(s, Step(t)) && (s.pc[t].Looping? || s.pc[t].LateInside?)
    ensures RanOk(StepOf(s, t))
  {
    hide RanOk, Section, Run;
    assert forall u :: u in s.pc && s.pc[u].Late? ==> s.outcome.Some? by { LateReady(s); }
    NothingMoves(s, StepOf(s, t));
  }

  lemma StepInv<V>(s: State<V>, l: Label<V>)
    requires Inv(s) && Enabled(s, l)
    ensures Inv(Next(s, l))
  {
    StepLock(s, l);
    StepLoop(s, l);
    StepParked(s, l);
    StepRan(s, l);
  }

  lemma {:induction false} ExecInv<V>(s: State<V>, ls: seq<Label<V>>)
    requires Inv(s) && Exec(s, ls).Some?
    ensures Inv(Exec(s, ls).value)
    decreases |ls|
  {
    if ls != [] {
      StepInv(s, ls[0]);
      ExecInv(Next(s, ls[0]), ls[1..]);
    }
  }

  lemma ReachableInv<V(!new)>(s: State<V>)
    requires Reachable(s)
    ensures Inv(s)
  {
    hide Inv, Enabled, Next;
    var s0: State<V>, ls: seq<Label<V>> :| Initial(s0) && Exec(s0, ls) == Some(s);
    InitialInv(s0);
    ExecInv(s0, ls);
  }

  // ----- What is promised -----

  /** Single assignment: the outcome, once there, and the list of registered functions never change. */
  lemma OutcomeIsFinalStep<V>(s: State<V>, l: Label<V>)
    requires s.outcome.Some? && Enabled(s, l)
    ensures Next(s, l).outcome == s.outcome && Next(s, l).list == s.list
  {
  }

  lemma {:induction false} OutcomeIsFinal<V>(s: State<V>, ls: seq<Label<V>>)
    requires s.outcome.Some? && Exec(s, ls).Some?
    ensures Exec(s, ls).value.outcome == s.outcome && Exec(s, ls).value.list == s.list
    decreases |ls|
  {
    if ls != [] {
      OutcomeIsFinalStep(s, ls[0]);
      OutcomeIsFinal(Next(s, ls[0]), ls[1..]);
    }
  }

  /** The functions a step runs. */
  function Runs<V>(s: State<V>, l: Label<V>): multiset<Wid>
    requires Enabled(s, l)
  {
    if !l.Step? then multiset{}
    else match s.pc[l.t]
      case Running(i) => multiset{s.list[i]}
      case Late(w) => multiset{w}
      case _ => multiset{}
  }

  /** A function runs after readiness, while its thread does not hold the mutex, and never again. */
  lemma RunsUnlocked<V(!new)>(s: State<V>, l: Label<V>, w: Wid)
    requires Reachable(s) && Enabled(s, l)
    ensures Next(s, l).ran == s.ran + Runs(s, l)
    ensures w in Runs(s, l) ==> s.outcome.Some? && s.lock != Some(l.t) && s.ran[w] == 0 && w in s.added
  {
    hide Reachable;
    ReachableInv(s);
    RunsCounted(s, l);
    if w in Runs(s, l) && s.pc[l.t].Late? { assert InHand(s, l.t, w); }
  }

  lemma RunsCounted<V>(s: State<V>, l: Label<V>)
    requires Enabled(s, l)
    ensures Next(s, l).ran == s.ran + Runs(s, l)
  {
  }

  predicate Settled<V>(s: State<V>) {
    forall t :: t in s.pc ==> s.pc[t].Idle? || s.pc[t].Parked?
  }

  /** Exactly once: never twice; and once nobody is inside a call, every function that was passed in has
      run, whether it came before or after readiness, or in the middle of the loop. */
  lemma ExactlyOnce<V(!new)>(s: State<V>, w: Wid)
    requires Reachable(s) && w in s.added
    ensures s.ran[w] <= 1
    ensures s.ran[w] == 1 ==> s.outcome.Some?
    ensures Settled(s) ==> s.ran[w] == (if s.outcome.Some? then 1 else 0)
  {
    hide Reachable;
    ReachableInv(s);
    if w in s.list {
      var k :| 0 <= k < |s.list| && s.list[k] == w;
    } else if s.ran[w] != 1 {
      var t :| InHand(s, t, w);
    }
  }

  /** While the loop is under way nobody else is in it, and what it has run is a prefix of the list. */
  lemma LoopRunsPrefix<V(!new)>(s: State<V>, t: Tid, u: Tid, k: nat)
    requires Reachable(s) && t in s.pc && u in s.pc && InLoop(s.pc[t]) && k < |s.list|
    ensures InLoop(s.pc[u]) ==> u == t
    ensures s.ran[s.list[k]] == if k < s.pc[t].i then 1 else 0
  {
    hide Reachable;
    ReachableInv(s);
  }

  /** What the section of a call makes the outcome, if there is none: an abandoned promise is broken. */
  function Decides<V>(pc: Pc<V>): Option<Outcome<V>> {
    if !pc.Inside? then None
    else match pc.op
      case OpSet(r) => Some(r)
      case OpDestroy => Some(Raised(BrokenPromise))
      case _ => None
  }

  /** An outcome stays; without one, only set_value(), set_exception() and the end of the promise make one. */
  lemma StepOutcome<V>(s: State<V>, l: Label<V>)
    requires Enabled(s, l)
    ensures Next(s, l).outcome ==
      if s.outcome.Some? then s.outcome else if l.Step? then Decides(s.pc[l.t]) else None
  {
  }

  /** The outcome is what the first of these calls to take the mutex decided. */
  lemma {:induction false} FirstDecides<V>(s: State<V>, ls: seq<Label<V>>) returns (k: nat)
    requires s.outcome.None? && Exec(s, ls).Some? && Exec(s, ls).value.outcome.Some?
    ensures k < |ls| && ls[k].Step? && Exec(s, ls[..k]).Some?
    ensures var at := Exec(s, ls[..k]).value;
      at.outcome.None? && ls[k].t in at.pc && Decides(at.pc[ls[k].t]) == Exec(s, ls).value.outcome
    decreases |ls|
  {
    hide Enabled, Next, Decides;
    var s1 := Next(s, ls[0]);
    StepOutcome(s, ls[0]);
    if s1.outcome.Some? {
      k := 0;
      OutcomeStays(s1, ls[1..]);
      StepHasThread(s, ls[0]);
    } else {
      var j := FirstDecides(s1, ls[1..]);
      k := j + 1;
      assert ls[..k][1..] == ls[1..][..j];
    }
  }

  lemma StepHasThread<V>(s: State<V>, l: Label<V>)
    requires Enabled(s, l)
    ensures l.t in s.pc
  {
  }

  lemma {:induction false} OutcomeStays<V>(s: State<V>, ls: seq<Label<V>>)
    requires s.outcome.Some? && Exec(s, ls).Some?
    ensures Exec(s, ls).value.outcome == s.outcome
    decreases |ls|
  {
    hide Enabled, Next;
    if ls != [] {
      StepOutcome(s, ls[0]);
      OutcomeStays(Next(s, ls[0]), ls[1..]);
    }
  }

  /** get() and wait() return only with the outcome, and nobody is parked on a ready state. */
  lemma GetWaitsForOutcome<V(!new)>(s: State<V>, t: Tid)
    requires Reachable(s) && t in s.pc
    ensures s.pc[t].Parked? ==> s.outcome.None?
    ensures s.pc[t] == Inside(OpGet) ==>
      (StepOf(s, t).pc[t].Idle? <==> s.outcome.Some?) && (StepOf(s, t).pc[t].Parked? <==> s.outcome.None?)
  {
    hide Reachable;
    ReachableInv(s);
  }

  lemma MutualExclusion<V(!new)>(s: State<V>, t: Tid, u: Tid)
    requires Reachable(s) && t in s.pc && u in s.pc && Holds(s.pc[t]) && Holds(s.pc[u])
    ensures t == u
  {
    hide Reachable;
    ReachableInv(s);
  }
}
