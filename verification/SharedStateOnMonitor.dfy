/** The steps on a shared state, whose mutex is explicit, are runs of the Mesa monitor. */
module SharedStateOnMonitor {
  import opened Basics
  import opened MesaMonitor
  import opened MonitorSections
  import opened SharedStateRuns

  function StatusOf<V>(pc: Pc<V>): Status {
    match pc
    case Locking(_) => Entering(LOCK, false)
    case Relocking(_) => Entering(LOCK, false)
    case LateRelocking => Entering(LOCK, false)
    case Parked => Waiting(0, LOCK, false)
    case _ => Out
  }

  function Statuses<V>(pc: map<Tid, Pc<V>>): map<Tid, Status> {
    map t | t in pc :: StatusOf(pc[t])
  }

  function MonitorOf<V>(s: State<V>): Monitor {
    Monitor(map[LOCK := s.lock], map[0 := s.cv], Statuses(s.pc))
  }

  /** What a section does before its mutex is released, or instead of it. */
  function SectionScript<V>(s: State<V>, t: Tid, op: Op<V>): seq<Action> {
    match op
    case OpSet(_) => if s.outcome.Some? then [Exit(t, LOCK)] else Signals(0, |s.cv|)
    case OpDestroy => if s.outcome.Some? then [Exit(t, LOCK)] else Signals(0, |s.cv|)
    case OpAdd(_) => [Exit(t, LOCK)]
    case OpGet => if s.outcome.Some? then [Exit(t, LOCK)] else [Wait(t, 0, LOCK, false)]
  }

  function Script<V>(s: State<V>, l: Label<V>): seq<Action>
    requires Enabled(s, l)
  {
    match l
    case Call(t, _) => [Request(t, LOCK, false)]
    case Acquire(t) => [Enter(t, LOCK)]
    case Step(t) =>
      match s.pc[t]
      case Inside(op) => SectionScript(s, t, op)
      case Running(_) => [Request(t, LOCK, false)]
      case Late(_) => [Request(t, LOCK, false)]
      case _ => [Exit(t, LOCK)]
  }

  lemma SetStatus<V>(pc: map<Tid, Pc<V>>, t: Tid, p: Pc<V>)
    ensures Statuses(pc[t := p]) == Statuses(pc)[t := StatusOf(p)]
  {
  }

  lemma SameStatus<V>(pc: map<Tid, Pc<V>>, t: Tid)
    requires t in pc
    ensures t in Statuses(pc) && Statuses(pc)[t] == StatusOf(pc[t]) && Statuses(pc)[t := StatusOf(pc[t])] == Statuses(pc)
  {
  }

  /** A step of t that neither notifies nor waits. */
  lemma OneMove<V>(s: State<V>, s': State<V>, t: Tid, a: Action)
    requires t in s.pc && t in s'.pc && s'.pc == s.pc[t := s'.pc[t]] && s'.cv == s.cv
    requires Can(MonitorOf(s), a)
    requires (a == Request(t, LOCK, false) && s'.lock == s.lock && StatusOf(s'.pc[t]).Entering?)
      || (a == Enter(t, LOCK) && s'.lock == Some(t) && StatusOf(s'.pc[t]) == Out)
      || (a == Exit(t, LOCK) && s'.lock == None && StatusOf(s'.pc[t]) == Out && StatusOf(s.pc[t]) == Out)
    ensures Perform(MonitorOf(s), [a]) == Some(MonitorOf(s'))
  {
    SetStatus(s.pc, t, s'.pc[t]);
    SameStatus(s.pc, t);
    OneAction(MonitorOf(s), a);
    var h: map<Mid, Option<Tid>> := map[LOCK := s.lock];
    assert h[LOCK := s'.lock] == map[LOCK := s'.lock];
  }

  lemma CanRequest<V>(s: State<V>, t: Tid)
    requires LockOk(s) && t in s.pc && !Holds(s.pc[t]) && StatusOf(s.pc[t]) == Out
    ensures Can(MonitorOf(s), Request(t, LOCK, false))
  {
  }

  lemma CanExit<V>(s: State<V>, t: Tid)
    requires LockOk(s) && t in s.pc && Holds(s.pc[t])
    ensures Can(MonitorOf(s), Exit(t, LOCK)) && Can(MonitorOf(s), Wait(t, 0, LOCK, false)) && StatusOf(s.pc[t]) == Out
  {
  }

  /** notify_all when the state becomes ready. */
  lemma ReadyRuns<V>(s: State<V>, t: Tid, r: Outcome<V>)
    requires ParkedOk(s) && t in s.pc && s.pc[t].Inside?
    ensures Perform(MonitorOf(s), Signals(0, |s.cv|)) == Some(MonitorOf(MarkReady(s, t, r)))
  {
    hide ParkedOk, Statuses, Perform, AllWait;
    var mo := MonitorOf(s);
    ReadyStatuses(s, t, r);
    SignalsRun(mo, 0, |s.cv|);
    assert s.cv[|s.cv|..] == [] && s.cv[..|s.cv|] == s.cv;
    var c: map<Cid, seq<Tid>> := mo.conds;
    assert c[0 := []] == map[0 := []];
  }

  lemma ReadyStatuses<V>(s: State<V>, t: Tid, r: Outcome<V>)
    requires ParkedOk(s) && t in s.pc && s.pc[t].Inside?
    ensures AllWait(MonitorOf(s), 0)
    ensures Woken(Statuses(s.pc), s.cv) == Statuses(MarkReady(s, t, r).pc)
  {
  }

  lemma WaitRuns<V>(s: State<V>, t: Tid)
    requires LockOk(s) && t in s.pc && Holds(s.pc[t])
    ensures Perform(MonitorOf(s), [Wait(t, 0, LOCK, false)]) == Some(MonitorOf(Free(s.(cv := s.cv + [t]), t, Parked)))
  {
    var s' := Free(s.(cv := s.cv + [t]), t, Parked);
    CanExit(s, t);
    SetStatus(s.pc, t, Parked);
    OneAction(MonitorOf(s), Wait(t, 0, LOCK, false));
    var h: map<Mid, Option<Tid>> := map[LOCK := s.lock];
    assert h[LOCK := None] == map[LOCK := s'.lock];
    assert MonitorOf(s).conds[0 := s.cv + [t]] == map[0 := s'.cv];
  }

  lemma SectionRefines<V>(s: State<V>, t: Tid, op: Op<V>)
    requires LockOk(s) && ParkedOk(s) && t in s.pc && s.pc[t] == Inside(op)
    ensures Perform(MonitorOf(s), SectionScript(s, t, op)) == Some(MonitorOf(Section(s, t, op)))
  {
    hide LockOk, ParkedOk, Can, Perform;
    CanExit(s, t);
    if s.outcome.None? && op.OpSet? { ReadyRuns(s, t, op.r); }
    else if s.outcome.None? && op.OpDestroy? { ReadyRuns(s, t, Raised(BrokenPromise)); }
    else if s.outcome.None? && op.OpGet? { WaitRuns(s, t); }
    else { OneMove(s, Section(s, t, op), t, Exit(t, LOCK)); }
  }

  lemma WorkRefines<V>(s: State<V>, t: Tid)
    requires LockOk(s) && Enabled(s, Step(t)) && !s.pc[t].Inside?
    ensures Perform(MonitorOf(s), Script(s, Step(t))) == Some(MonitorOf(StepOf(s, t)))
  {
    hide LockOk, Can, Perform, MonitorOf;
    if Holds(s.pc[t]) {
      CanExit(s, t);
      OneMove(s, StepOf(s, t), t, Exit(t, LOCK));
    } else {
      CanRequest(s, t);
      OneMove(s, StepOf(s, t), t, Request(t, LOCK, false));
    }
  }

  lemma StepRefines<V>(s: State<V>, l: Label<V>)
    requires Inv(s) && Enabled(s, l)
    ensures Perform(MonitorOf(s), Script(s, l)) == Some(MonitorOf(Next(s, l)))
  {
    hide LockOk, ParkedOk, RanOk, LoopOk, Can, Perform, Section, SectionScript, MonitorOf, StepOf;
    match l {
      case Call(t, op) => CanRequest(s, t); OneMove(s, Next(s, l), t, Request(t, LOCK, false));
      case Acquire(t) => CanEnter(s, t); OneMove(s, Next(s, l), t, Enter(t, LOCK));
      case Step(t) =>
        if s.pc[t].Inside? { SectionRefines(s, t, s.pc[t].op); InsideStep(s, t); } else { WorkRefines(s, t); }
    }
  }

  lemma InsideStep<V>(s: State<V>, t: Tid)
    requires Enabled(s, Step(t)) && s.pc[t].Inside?
    ensures StepOf(s, t) == Section(s, t, s.pc[t].op)
  {
  }

  lemma CanEnter<V>(s: State<V>, t: Tid)
    requires Enabled(s, Acquire(t))
    ensures Can(MonitorOf(s), Enter(t, LOCK))
  {
  }

  function Scripts<V>(s: State<V>, ls: seq<Label<V>>): seq<Action>
    requires Exec(s, ls).Some?
    decreases |ls|
  {
    if ls == [] then [] else Script(s, ls[0]) + Scripts(Next(s, ls[0]), ls[1..])
  }

  /** A run of any number of threads on a shared state is a run of the monitor. */
  lemma {:induction false} RunRefines<V>(s: State<V>, ls: seq<Label<V>>)
    requires Inv(s) && Exec(s, ls).Some?
    ensures Perform(MonitorOf(s), Scripts(s, ls)) == Some(MonitorOf(Exec(s, ls).value))
    decreases |ls|
  {
    hide Inv, Enabled, Next, Script, MonitorOf;
    if ls != [] {
      SharedStateRuns.StepInv(s, ls[0]);
      StepRefines(s, ls[0]);
      RunRefines(Next(s, ls[0]), ls[1..]);
      PerformSplit(MonitorOf(s), Script(s, ls[0]), Scripts(Next(s, ls[0]), ls[1..]));
    }
  }
}
