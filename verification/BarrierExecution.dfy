/** The converse for the barrier: threads that execute wait() on the Mesa monitor, one monitor step at a
    time and in any interleaving, make a run of the state machine of BarrierModel. So what is shown of
    that machine holds of every such execution. */
module BarrierExecution {
  import opened Basics
  import opened MesaMonitor
  import opened MonitorSections
  import opened BarrierModel

  /** A thread in no call; on its way in, or waiting on m_cond; holding m_mutex, before it looks at the
      fields; holding it afterwards, with `n` notifications to make before it waits or leaves. */
  datatype Pc = Idle | Coming | Holding | Acting(n: nat, waits: bool)

  /** The fields of the barrier (with their history), the monitor, and where every thread is. */
  datatype Fine = Fine(count: nat, generation: nat, gen: map<Tid, nat>, rounds: seq<Round>,
                       mo: Monitor, pc: map<Tid, Pc>)

  datatype Step = Call(t: Tid) | Lock(t: Tid) | Look(t: Tid, size: nat) | Notify(t: Tid) | Leave(t: Tid)

  function Begin(n: nat, threads: set<Tid>): Fine {
    Fine(n, 0, map[], [Round(n, 0, {}, 0, 0)],
         Monitor(map[LOCK := None], map[0 := []], map t | t in threads :: Out), map t | t in threads :: Idle)
  }

  /** The monitor step that a step is; looking at the fields is none. */
  function ActionOf(f: Fine, x: Step): Option<Action> {
    match x
    case Call(t) => Some(Request(t, LOCK, false))
    case Lock(t) => Some(Enter(t, LOCK))
    case Look(_, _) => None
    case Notify(_) => Some(Signal(0))
    case Leave(t) =>
      if t in f.pc && f.pc[t] == Acting(0, true) then Some(Wait(t, 0, LOCK, false)) else Some(Exit(t, LOCK))
  }

  predicate AtStep(f: Fine, x: Step) {
    x.t in f.pc && match x
      case Call(t) => f.pc[t].Idle?
      case Lock(t) => f.pc[t].Coming?
      case Look(t, size) =>
        && f.pc[t].Holding?
        && if t in f.gen then f.gen[t] < |f.rounds| else size > 0 && f.count > 0 && f.generation < |f.rounds|
      case Notify(t) => f.pc[t].Acting? && f.pc[t].n > 0
      case Leave(t) => f.pc[t].Acting? && f.pc[t].n == 0
  }

  /** A step is taken when the code has come to it and the monitor lets it. */
  predicate CanStep(f: Fine, x: Step) {
    AtStep(f, x) && (ActionOf(f, x).Some? ==> Can(f.mo, ActionOf(f, x).value))
  }

  /** m_cond as the fields of the barrier see it. */
  function Seen(f: Fine): State
    requires 0 in f.mo.conds
  {
    State(f.count, f.generation, f.mo.conds[0], f.gen, f.rounds)
  }

  /** The part of wait() between taking the mutex and the first notification, wait or return. */
  function Looked(f: Fine, t: Tid, size: nat): Fine
    requires CanStep(f, Look(t, size)) && 0 in f.mo.conds
  {
    var (s, r) := if t in f.gen then Again(Seen(f), t) else Arrive(Seen(f), t, size);
    var n := if r == Returns(true) then |f.mo.conds[0]| else 0;
    f.(count := s.count, generation := s.generation, gen := s.gen, rounds := s.rounds, pc := f.pc[t := Acting(n, r.Waits?)])
  }

  function PcAfter(pc: Pc, x: Step): Pc {
    match x
    case Call(_) => Coming
    case Lock(_) => Holding
    case Look(_, _) => pc
    case Notify(_) => if pc.Acting? && pc.n > 0 then Acting(pc.n - 1, pc.waits) else pc
    case Leave(_) => if pc == Acting(0, true) then Coming else Idle
  }

  function StepTo(f: Fine, x: Step): Fine
    requires CanStep(f, x) && 0 in f.mo.conds
  {
    if x.Look? then Looked(f, x.t, x.size)
    else f.(mo := Do(f.mo, ActionOf(f, x).value), pc := f.pc[x.t := PcAfter(f.pc[x.t], x)])
  }

  // ----- The state of the machine -----

  function Holder(f: Fine): Option<Tid> {
    if LOCK in f.mo.holder then f.mo.holder[LOCK] else None
  }

  predicate InMiddle(f: Fine) {
    Holder(f).Some? && Holder(f).value in f.pc && f.pc[Holder(f).value].Acting?
  }

  /** Who is parked once the thread that has looked at the fields has notified, and waits or leaves. */
  function ParkedThen(f: Fine): seq<Tid>
    requires 0 in f.mo.conds
  {
    if !InMiddle(f) then f.mo.conds[0]
    else
      var p := f.pc[Holder(f).value];
      var rest := if p.n <= |f.mo.conds[0]| then f.mo.conds[0][p.n..] else [];
      if p.waits then rest + [Holder(f).value] else rest
  }

  function MachineOf(f: Fine): State
    requires 0 in f.mo.conds
  {
    State(f.count, f.generation, ParkedThen(f), f.gen, f.rounds)
  }

  /** The label of the machine that a step is: looking at the fields is the section, the rest nothing. */
  function LabelsOf(f: Fine, x: Step): seq<Label> {
    if !x.Look? then [] else if x.t in f.gen then [LAgain(x.t)] else [LArrive(x.t, x.size)]
  }

  // ----- The invariant of an execution -----

  predicate PlaceOk(f: Fine, t: Tid)
    requires t in f.pc && t in f.mo.status
  {
    match f.pc[t]
    case Idle => f.mo.status[t] == Out && t !in f.gen
    case Coming =>
      || f.mo.status[t] == Entering(LOCK, false)
      || (f.mo.status[t] == Waiting(0, LOCK, false) && t in f.gen)
    case Holding => f.mo.status[t] == Out
    case Acting(n, waits) => f.mo.status[t] == Out && (waits <==> t in f.gen)
  }

  ghost predicate FineOk(f: Fine) {
    && 0 in f.mo.conds && LOCK in f.mo.holder && f.mo.status.Keys == f.pc.Keys && NoDup(f.mo.conds[0])
    && (forall t :: t in f.pc ==> PlaceOk(f, t))
    && (forall t :: t in f.pc ==> (f.mo.holder[LOCK] == Some(t) <==> f.pc[t].Holding? || f.pc[t].Acting?))
    && (forall t :: t in f.mo.conds[0] <==> t in f.pc && f.mo.status[t].Waiting?)
    && (Holder(f).Some? ==> Holder(f).value in f.pc)
    && (InMiddle(f) ==> f.pc[Holder(f).value].n <= |f.mo.conds[0]|)
    && (forall t :: t in f.gen ==> t in f.pc)
  }

  // ----- A step of an execution is a step of the machine, or none -----

  lemma LookIsSection(f: Fine, t: Tid, size: nat)
    requires FineOk(f) && Inv(MachineOf(f)) && CanStep(f, Look(t, size))
    ensures FineOk(Looked(f, t, size))
    ensures Exec(MachineOf(f), LabelsOf(f, Look(t, size))) == Some(MachineOf(Looked(f, t, size)))
  {
    var s, f' := MachineOf(f), Looked(f, t, size);
    var l := LabelsOf(f, Look(t, size))[0];
    assert PlaceOk(f, t) && !InMiddle(f) && s == Seen(f);
    assert Enabled(s, l);
    if l.LAgain? { AgainInv(s, t); }
    LookedMachine(f, t, size);
    assert Exec(Next(s, l), []) == Some(Next(s, l));
    forall u | u in f'.pc ensures PlaceOk(f', u) { assert PlaceOk(f, u); }
  }

  /** The fields, and who will be parked, are those after the section. */
  lemma LookedMachine(f: Fine, t: Tid, size: nat)
    requires FineOk(f) && CanStep(f, Look(t, size)) && f.mo.holder[LOCK] == Some(t)
    ensures MachineOf(Looked(f, t, size)) == if t in f.gen then Again(Seen(f), t).0 else Arrive(Seen(f), t, size).0
  {
    var q := f.mo.conds[0];
    assert q[0..] == q && q[|q|..] == [];
  }

  /** A step other than looking changes nothing for the machine. */
  lemma OtherStepIsNone(f: Fine, x: Step)
    requires FineOk(f) && CanStep(f, x) && !x.Look?
    ensures 0 in StepTo(f, x).mo.conds && MachineOf(StepTo(f, x)) == MachineOf(f)
  {
    assert PlaceOk(f, x.t);
    var q := f.mo.conds[0];
    if x.Notify? { assert q[1..][f.pc[x.t].n - 1..] == q[f.pc[x.t].n..]; }
    if x.Leave? { assert q[0..] == q; }
  }

  lemma CallOrLockOk(f: Fine, x: Step)
    requires FineOk(f) && CanStep(f, x) && (x.Call? || x.Lock?)
    ensures FineOk(StepTo(f, x))
  {
    var f' := StepTo(f, x);
    assert PlaceOk(f, x.t);
    forall u | u in f'.pc ensures PlaceOk(f', u) { assert PlaceOk(f, u); }
  }

  lemma NotifyOk(f: Fine, t: Tid)
    requires FineOk(f) && CanStep(f, Notify(t))
    ensures FineOk(StepTo(f, Notify(t)))
  {
    var f', q := StepTo(f, Notify(t)), f.mo.conds[0];
    assert PlaceOk(f, t);
    assert q[0] in q && q == [q[0]] + q[1..];
    assert PlaceOk(f, q[0]);
    forall u | u in f'.pc ensures PlaceOk(f', u) { assert PlaceOk(f, u); }
  }

  lemma LeaveOk(f: Fine, t: Tid)
    requires FineOk(f) && CanStep(f, Leave(t))
    ensures FineOk(StepTo(f, Leave(t)))
  {
    var f', q := StepTo(f, Leave(t)), f.mo.conds[0];
    assert PlaceOk(f, t);
    assert forall u :: u in q + [t] <==> u in q || u == t;
    forall u | u in f'.pc ensures PlaceOk(f', u) { assert PlaceOk(f, u); }
  }

  lemma StepIsRun(f: Fine, x: Step)
    requires FineOk(f) && Inv(MachineOf(f)) && CanStep(f, x)
    ensures FineOk(StepTo(f, x)) && Inv(MachineOf(StepTo(f, x)))
    ensures Exec(MachineOf(f), LabelsOf(f, x)) == Some(MachineOf(StepTo(f, x)))
  {
    hide FineOk, Inv, MachineOf;
    if x.Look? {
      LookIsSection(f, x.t, x.size);
      ExecInv(MachineOf(f), LabelsOf(f, x));
    } else {
      if x.Notify? { NotifyOk(f, x.t); } else if x.Leave? { LeaveOk(f, x.t); } else { CallOrLockOk(f, x); }
      OtherStepIsNone(f, x);
    }
  }

  // ----- Executions -----

  function Execute(f: Fine, xs: seq<Step>): Option<Fine>
    requires 0 in f.mo.conds
    decreases |xs|
  {
    if xs == [] then Some(f)
    else if CanStep(f, xs[0]) && 0 in StepTo(f, xs[0]).mo.conds then Execute(StepTo(f, xs[0]), xs[1..])
    else None
  }

  lemma {:induction false} ExecSplit(s: State, a: seq<Label>, b: seq<Label>)
    requires Exec(s, a).Some?
    ensures Exec(s, a + b) == Exec(Exec(s, a).value, b)
    decreases |a|
  {
    hide Enabled, Next;
    if a == [] {
      assert a + b == b;
    } else {
      ExecSplit(Next(s, a[0]), a[1..], b);
      assert (a + b)[1..] == a[1..] + b;
    }
  }

  lemma {:induction false} ExecutionIsRun(f: Fine, xs: seq<Step>) returns (ls: seq<Label>)
    requires FineOk(f) && Inv(MachineOf(f)) && Execute(f, xs).Some?
    ensures FineOk(Execute(f, xs).value) && Inv(MachineOf(Execute(f, xs).value))
    ensures Exec(MachineOf(f), ls) == Some(MachineOf(Execute(f, xs).value))
    decreases |xs|
  {
    hide Inv, MachineOf, CanStep, StepTo;
    if xs == [] {
      ls := [];
    } else {
      StepIsRun(f, xs[0]);
      var rest := ExecutionIsRun(StepTo(f, xs[0]), xs[1..]);
      ExecSplit(MachineOf(f), LabelsOf(f, xs[0]), rest);
      ls := LabelsOf(f, xs[0]) + rest;
    }
  }

  /** Every execution of wait() by any number of threads shows a reachable state of the machine, and when
      nobody is in the middle of a section, the queue of m_cond is what that state says. */
  lemma ExecutionsAreRuns(n: nat, threads: set<Tid>, xs: seq<Step>)
    requires n > 0 && Execute(Begin(n, threads), xs).Some?
    ensures var f := Execute(Begin(n, threads), xs).value;
      && 0 in f.mo.conds && Reachable(MachineOf(f))
      && (!InMiddle(f) ==> MachineOf(f).parked == f.mo.conds[0])
  {
    var f0 := Begin(n, threads);
    assert MachineOf(f0) == Fresh(n);
    assert Inv(Fresh(n));
    var ls := ExecutionIsRun(f0, xs);
    assert Exec(Fresh(n), ls) == Some(MachineOf(Execute(f0, xs).value));
  }
}
