/** The steps of shared_timed_mutex are runs of the Mesa monitor: what its state machine takes as one step
    is entering the mutex, changing the state, notifying, and leaving or waiting. */
module SharedMutexOnMonitor {
  import opened Basics
  import opened MesaMonitor
  import opened MonitorSections
  import opened SharedMutexModel
  import opened SharedMutexRuns

  function CondId(c: Cond): Cid {
    match c
    case SharedCond => 0
    case ExclusiveCond => 1
    case UpgradeCond => 2
  }

  function StatusOf(p: Phase): Status {
    match p
    case Parked(call) => Waiting(CondId(CondFor(call)), LOCK, Timed(call))
    case Woken(_, _) => Entering(LOCK, false)
    case _ => Out
  }

  function Conds(q: Queues): map<Cid, seq<Tid>> {
    map[0 := q.shared, 1 := q.exclusive, 2 := q.upgrade]
  }

  function Statuses(phase: map<Tid, Phase>): map<Tid, Status> {
    map t | t in phase :: StatusOf(phase[t])
  }

  /** Between two sections nobody holds the mutex. */
  function MonitorOf(s: Sys): Monitor {
    Monitor(map[LOCK := None], Conds(s.q), Statuses(s.phase))
  }

  // ----- The monitor steps of a label -----

  function EndingOf(call: Call, v: Verdict): Ending {
    match v
    case Waits(c) => WaitsOn(CondId(c), Timed(call))
    case Returns(_, _) => Leaves
  }

  /** unlock_upgrade() notifies all of shared_cond inside its section. */
  function NotifiedInside(s: Sys, v: Verdict): nat {
    if v.Returns? && v.wakes == AllShared then |s.q.shared| else 0
  }

  function RunScript(s: Sys, t: Tid, call: Call, e: Entrance): seq<Action>
    requires MayRun(call, e, s.d) && t in s.phase
  {
    var v := Section(call, e, s.d).1;
    SectionOf(MonitorOf(s), t, 0, NotifiedInside(s, v), EndingOf(call, v))
  }

  function NotifyScript(s: Sys, stage: Stage): seq<Action> {
    match stage
    case NotifyingUpgrade => Signals(2, |FrontOf(s.q.upgrade)|)
    case NotifyingExclusive => Signals(1, |FrontOf(s.q.exclusive)|)
    case NotifyingShared => Signals(0, |s.q.shared|)
  }

  function Script(s: Sys, l: Label): seq<Action>
    requires Enabled(s, l)
  {
    match l
    case Begin(t, call) => RunScript(s, t, call, First)
    case Resume(t) => RunScript(s, t, s.phase[t].call, Again(s.phase[t].timedOut))
    case TimeOut(t) => if s.phase[t].Parked? then [GiveUpWait(t)] else []
    case Notification(t) => NotifyScript(s, s.phase[t].stage)
  }

  // ----- The queues as the monitor sees them -----

  lemma QueuesWait(s: Sys)
    requires QueuesOk(s) && ThreadsOk(s)
    ensures AllWait(MonitorOf(s), 0) && AllWait(MonitorOf(s), 1) && AllWait(MonitorOf(s), 2)
  {
    forall u | Queued(s.q, u) ensures u in s.phase && ThreadOk(s, u) {}
  }

  lemma WokenStatuses(phase: map<Tid, Phase>, woken: seq<Tid>)
    requires forall u :: u in woken ==> u in phase && phase[u].Parked?
    ensures Statuses(SharedMutexRuns.Wake(phase, woken)) == MonitorSections.Woken(Statuses(phase), woken)
  {
  }

  lemma SetStatus(phase: map<Tid, Phase>, t: Tid, p: Phase)
    ensures Statuses(phase[t := p]) == Statuses(phase)[t := StatusOf(p)]
  {
  }

  // ----- Sections -----

  lemma RunConds(s: Sys, t: Tid, v: Verdict, call: Call)
    ensures Conds(Enqueued(s.q, v, t))
         == Ended(Notified(Inside(MonitorOf(s), t), 0, NotifiedInside(s, v)), t, EndingOf(call, v)).conds
  {
    var n := NotifiedInside(s, v);
    assert s.q.shared[n..] == if n == 0 then s.q.shared else [];
  }

  /** The phase after a section, without the wake-ups it makes. */
  lemma RunStatuses(s: Sys, t: Tid, v: Verdict, call: Call, woken: seq<Tid>)
    requires t in s.phase && t !in s.q.shared && (v.Waits? ==> v.c == CondFor(call))
    requires forall u :: u in s.q.shared ==> u in s.phase && s.phase[u].Parked?
    requires woken == s.q.shared[..NotifiedInside(s, v)]
    ensures Statuses(SharedMutexRuns.Wake(s.phase, woken)[t := PhaseThen(call, v)])
         == Ended(Notified(Inside(MonitorOf(s), t), 0, NotifiedInside(s, v)), t, EndingOf(call, v)).status
  {
    WokenStatuses(s.phase, woken);
    SetStatus(SharedMutexRuns.Wake(s.phase, woken), t, PhaseThen(call, v));
    OutsiderNotWoken(Statuses(s.phase), t, woken);
  }

  lemma OutsiderNotWoken(status: map<Tid, Status>, t: Tid, woken: seq<Tid>)
    requires t in status && t !in woken
    ensures MonitorSections.Woken(status[t := Out], woken) == MonitorSections.Woken(status, woken)[t := Out]
  {
  }

  lemma SharedParked(s: Sys)
    requires QueuesOk(s) && ThreadsOk(s)
    ensures forall u :: u in s.q.shared ==> u in s.phase && s.phase[u].Parked?
  {
    forall u | u in s.q.shared ensures u in s.phase && s.phase[u].Parked? {
      assert Queued(s.q, u) && ThreadOk(s, u);
    }
  }

  /** The section ends in the monitor of the next state. */
  lemma RunLands(s: Sys, t: Tid, call: Call, e: Entrance, v: Verdict)
    requires QueuesOk(s) && ThreadsOk(s) && Starts(s, t, call, e) && v == Section(call, e, s.d).1
    ensures AfterSection(MonitorOf(s), t, 0, NotifiedInside(s, v), EndingOf(call, v)) == MonitorOf(Run(s, t, call, e))
  {
    hide Section, MayRun, ThreadOk, Statuses, Conds, Enqueued, Starts, QueuesOk;
    StartsFacts(s, t, call, e);
    SharedParked(s);
    SectionFacts(s.d, call, e);
    StartStatus(s, t, call, e);
    RunConds(s, t, v, call);
    var woken := if v.Returns? && v.wakes == AllShared then s.q.shared else [];
    assert woken == s.q.shared[..NotifiedInside(s, v)];
    RunStatuses(s, t, v, call, woken);
    assert MonitorOf(s).holder[LOCK := Some(t)][LOCK := None] == MonitorOf(s).holder;
  }

  lemma RunSimulates(s: Sys, t: Tid, call: Call, e: Entrance)
    requires Inv(s) && Starts(s, t, call, e)
    ensures Perform(MonitorOf(s), RunScript(s, t, call, e)) == Some(MonitorOf(Run(s, t, call, e)))
  {
    hide Inv, Section, MayRun, ThreadOk, Statuses, AllWait, AfterSection, SectionOf, Run;
    var v := Section(call, e, s.d).1;
    InvQueues(s);
    QueuesWait(s);
    StartStatus(s, t, call, e);
    CondsShared(s);
    SectionRuns(MonitorOf(s), t, 0, NotifiedInside(s, v), EndingOf(call, v));
    RunLands(s, t, call, e, v);
  }

  lemma InvQueues(s: Sys)
    requires Inv(s)
    ensures QueuesOk(s) && ThreadsOk(s)
  {
  }

  lemma CondsShared(s: Sys)
    ensures 0 in MonitorOf(s).conds && 1 in MonitorOf(s).conds && 2 in MonitorOf(s).conds
    ensures MonitorOf(s).conds[0] == s.q.shared && Unlocked(MonitorOf(s))
  {
  }

  lemma StartStatus(s: Sys, t: Tid, call: Call, e: Entrance)
    requires Starts(s, t, call, e)
    ensures var mo := MonitorOf(s);
      t in mo.status && (mo.status[t] == Out || mo.status[t] == Entering(LOCK, false)) && t !in s.q.shared
  {
  }

  // ----- Notifications and timeouts -----

  lemma NotifySimulates(s: Sys, t: Tid, stage: Stage)
    requires Inv(s) && t in s.phase && s.phase[t] == Releasing(stage)
    ensures Perform(MonitorOf(s), NotifyScript(s, stage)) == Some(MonitorOf(Notify(s, t, stage)))
  {
    hide ThreadOk;
    var mo := MonitorOf(s);
    QueuesWait(s);
    NotifiedStatuses(s, t, stage);
    match stage {
      case NotifyingUpgrade =>
        SignalsRun(mo, 2, |FrontOf(s.q.upgrade)|);
        assert s.q.upgrade[|FrontOf(s.q.upgrade)|..] == Tail(s.q.upgrade);
        assert Conds(s.q)[2 := Tail(s.q.upgrade)] == Conds(Notify(s, t, stage).q);
      case NotifyingExclusive =>
        SignalsRun(mo, 1, |FrontOf(s.q.exclusive)|);
        assert s.q.exclusive[|FrontOf(s.q.exclusive)|..] == Tail(s.q.exclusive);
        assert Conds(s.q)[1 := Tail(s.q.exclusive)] == Conds(Notify(s, t, stage).q);
      case NotifyingShared =>
        SignalsRun(mo, 0, |s.q.shared|);
        assert s.q.shared[|s.q.shared|..] == [];
        assert Conds(s.q)[0 := []] == Conds(Notify(s, t, stage).q);
    }
  }

  /** The notifier itself stays out of every queue. */
  lemma NotifiedStatuses(s: Sys, t: Tid, stage: Stage)
    requires Inv(s) && t in s.phase && s.phase[t] == Releasing(stage)
    ensures Statuses(Notify(s, t, stage).phase) == MonitorSections.Woken(Statuses(s.phase), Taken(s, stage))
    ensures stage.NotifyingUpgrade? ==> Taken(s, stage) == s.q.upgrade[..|FrontOf(s.q.upgrade)|]
    ensures stage.NotifyingExclusive? ==> Taken(s, stage) == s.q.exclusive[..|FrontOf(s.q.exclusive)|]
    ensures stage.NotifyingShared? ==> Taken(s, stage) == s.q.shared[..|s.q.shared|]
  {
    forall u | u in Taken(s, stage) ensures u in s.phase && s.phase[u].Parked? { assert Queued(s.q, u) && ThreadOk(s, u); }
    WokenStatuses(s.phase, Taken(s, stage));
    SetStatus(SharedMutexRuns.Wake(s.phase, Taken(s, stage)), t, NextPhase(stage));
  }

  lemma {:induction false} WithoutIsRemoved(q: seq<Tid>, t: Tid)
    requires NoDup(q)
    ensures Without(q, t) == RemoveTid(q, t)
    ensures t !in q ==> RemoveTid(q, t) == q
  {
    if q != [] {
      assert q == [q[0]] + q[1..];
      ConsNoDup(q[0], q[1..]);
      WithoutIsRemoved(q[1..], t);
      WithoutMembers(q[1..], t);
    }
  }

  /** t leaves the queue of c, if that is the only one it is in. */
  lemma WithoutConds(q: Queues, t: Tid, c: Cid)
    requires NoDup(q.shared) && NoDup(q.exclusive) && NoDup(q.upgrade) && c <= 2
    requires (t in q.shared ==> c == 0) && (t in q.exclusive ==> c == 1) && (t in q.upgrade ==> c == 2)
    ensures Conds(WithoutAll(q, t)) == Conds(q)[c := RemoveTid(Conds(q)[c], t)]
  {
    WithoutIsRemoved(q.shared, t);
    WithoutIsRemoved(q.exclusive, t);
    WithoutIsRemoved(q.upgrade, t);
  }

  lemma TimeUpConds(s: Sys, t: Tid, call: Call)
    requires QueuesOk(s) && t in s.phase && ThreadOk(s, t)
    ensures s.phase[t] == Parked(call) ==>
      Conds(WithoutAll(s.q, t)) == Conds(s.q)[CondId(CondFor(call)) := RemoveTid(Conds(s.q)[CondId(CondFor(call))], t)]
    ensures s.phase[t].Woken? ==> Conds(WithoutAll(s.q, t)) == Conds(s.q)
  {
    hide Conds, WithoutAll, RoleOf, MayWait;
    if s.phase[t] == Parked(call) { WithoutConds(s.q, t, CondId(CondFor(call))); }
    if s.phase[t].Woken? { NotQueuedConds(s.q, t); }
  }

  lemma NotQueuedConds(q: Queues, t: Tid)
    requires NoDup(q.shared) && NoDup(q.exclusive) && NoDup(q.upgrade) && !Queued(q, t)
    ensures Conds(WithoutAll(q, t)) == Conds(q)
  {
    WithoutMembers(q.shared, t);
    WithoutMembers(q.exclusive, t);
    WithoutMembers(q.upgrade, t);
  }

  lemma ParkedInQueue(s: Sys, t: Tid, call: Call)
    requires t in s.phase && ThreadOk(s, t) && s.phase[t] == Parked(call) && Timed(call)
    ensures Can(MonitorOf(s), GiveUpWait(t))
  {
  }

  lemma TimeUpSimulates(s: Sys, t: Tid, call: Call)
    requires Inv(s) && CanTimeOut(s, t, call)
    ensures Perform(MonitorOf(s), if s.phase[t].Parked? then [GiveUpWait(t)] else []) == Some(MonitorOf(TimeUp(s, t, call)))
  {
    hide ThreadOk, Conds, Statuses, WithoutAll, Can;
    assert QueuesOk(s) && ThreadOk(s, t);
    TimeUpConds(s, t, call);
    SetStatus(s.phase, t, Phase.Woken(call, true));
    StatusesAt(s.phase, t);
    if s.phase[t].Parked? {
      ParkedInQueue(s, t, call);
      OneAction(MonitorOf(s), GiveUpWait(t));
    } else {
      assert Statuses(s.phase)[t := Entering(LOCK, false)] == Statuses(s.phase);
      assert MonitorOf(TimeUp(s, t, call)) == MonitorOf(s);
      assert Perform(MonitorOf(s), []) == Some(MonitorOf(s));
    }
  }

  lemma StatusesAt(phase: map<Tid, Phase>, t: Tid)
    requires t in phase
    ensures t in Statuses(phase) && Statuses(phase)[t] == StatusOf(phase[t])
  {
  }

  // ----- Steps and runs -----

  /** Every step of the class is the given monitor steps. */
  lemma StepRefines(s: Sys, l: Label)
    requires Inv(s) && Enabled(s, l)
    ensures Perform(MonitorOf(s), Script(s, l)) == Some(MonitorOf(Next(s, l)))
  {
    hide Inv, Run, RunScript, Notify, NotifyScript, TimeUp;
    InvQueues(s);
    match l {
      case Begin(t, call) => StartsFromLabel(s, l); RunSimulates(s, t, call, First);
      case Resume(t) => StartsFromLabel(s, l); RunSimulates(s, t, s.phase[t].call, Again(s.phase[t].timedOut));
      case TimeOut(t) => TimeUpSimulates(s, t, s.phase[t].call);
      case Notification(t) => NotifySimulates(s, t, s.phase[t].stage);
    }
  }

  function Scripts(s: Sys, ls: seq<Label>): seq<Action>
    requires Exec(s, ls).Some?
    decreases |ls|
  {
    if ls == [] then [] else Script(s, ls[0]) + Scripts(Next(s, ls[0]), ls[1..])
  }

  /** So a run of any number of threads on a shared_timed_mutex is a run of the monitor. */
  lemma {:induction false} RunRefines(s: Sys, ls: seq<Label>)
    requires Inv(s) && Exec(s, ls).Some?
    ensures Perform(MonitorOf(s), Scripts(s, ls)) == Some(MonitorOf(Exec(s, ls).value))
    decreases |ls|
  {
    hide Inv, Enabled, Next, Script, MonitorOf;
    if ls != [] {
      StepInv(s, ls[0]);
      StepRefines(s, ls[0]);
      RunRefines(Next(s, ls[0]), ls[1..]);
      PerformSplit(MonitorOf(s), Script(s, ls[0]), Scripts(Next(s, ls[0]), ls[1..]));
    }
  }

  // ----- Members that notify while they hold the mutex -----

  // The machine lets other threads in between a section and its notifications, as unlock_shared() does.
  // unlock(), for one, notifies before it releases the mutex.

  /** The section and its two notifications, with nothing in between. */
  function Released(s: Sys, t: Tid, call: Call, e: Entrance): Sys
    requires MayRun(call, e, s.d)
  {
    Notify(Notify(Run(s, t, call, e), t, NotifyingExclusive), t, NotifyingShared)
  }

  /** release_waiters() as the queues are after the section. */
  function ReleaseActions(q: Queues): seq<Action> {
    Signals(1, |FrontOf(q.exclusive)|) + Signals(0, |q.shared|)
  }

  /** Entering, release_waiters() and only then leaving ends where the machine ends that takes the section
      and the two notifications as three steps. */
  lemma NotifyingInside(s: Sys, t: Tid, call: Call, e: Entrance)
    requires Inv(s) && Starts(s, t, call, e)
    requires Section(call, e, s.d).1.Returns? && Section(call, e, s.d).1.wakes == Release
    ensures t in s.phase && Perform(MonitorOf(s), EnterFrom(MonitorOf(s), t) + (ReleaseActions(s.q) + [Exit(t, LOCK)]))
                         == Some(MonitorOf(Released(s, t, call, e)))
  {
    hide Inv, Section, MayRun, Statuses, AllWait, Run, Notify, SectionOf, Starts, ThreadOk, Signals;
    StartsFacts(s, t, call, e);
    var mo, s1 := MonitorOf(s), Run(s, t, call, e);
    var s2 := Notify(s1, t, NotifyingExclusive);
    var v := Section(call, e, s.d).1;
    ReleasingNext(s, s1, s2, t, call, e, v);
    StartStatus(s, t, call, e);
    EnterRuns(mo, t);
    LeavesAfterEntering(s, s1, t, call, e, v);
    var in1 := Inside(mo, t);
    LeaveThenNotify(in1, s1, s2, t);
    var rest := ReleaseActions(s.q) + [Exit(t, LOCK)];
    PerformSplit(mo, EnterFrom(mo, t), rest);
  }

  /** The section leaves its thread about to make the two notifications, and keeps the queues. */
  lemma ReleasingNext(s: Sys, s1: Sys, s2: Sys, t: Tid, call: Call, e: Entrance, v: Verdict)
    requires Inv(s) && Starts(s, t, call, e) && v == Section(call, e, s.d).1 && v.Returns? && v.wakes == Release
    requires s1 == Run(s, t, call, e) && s2 == Notify(s1, t, NotifyingExclusive)
    ensures Inv(s1) && Inv(s2) && s1.q == s.q && s2.q.shared == s.q.shared
    ensures t in s1.phase && s1.phase[t] == Releasing(NotifyingExclusive)
    ensures t in s2.phase && s2.phase[t] == Releasing(NotifyingShared)
  {
    hide Section, MayRun, Run, Notify, Disjoint, FlagsOk, ThreadsOk, GrantOk, WritersServed, ReadersServed;
    RunInv(s, t, call, e);
    RunParts(s, s1, t, call, e, Section(call, e, s.d).0, v);
    NotifyInv(s1, t, NotifyingExclusive);
    NotifyParts(s1, s2, t, NotifyingExclusive);
  }

  lemma LeavesAfterEntering(s: Sys, s1: Sys, t: Tid, call: Call, e: Entrance, v: Verdict)
    requires Inv(s) && Starts(s, t, call, e) && v == Section(call, e, s.d).1 && v.Returns? && v.wakes == Release
    requires s1 == Run(s, t, call, e)
    ensures Can(Inside(MonitorOf(s), t), Exit(t, LOCK)) && Do(Inside(MonitorOf(s), t), Exit(t, LOCK)) == MonitorOf(s1)
  {
    hide Inv, Section, MayRun, Run, Starts, MonitorOf, AfterSection, QueuesOk, ThreadsOk;
    InvQueues(s);
    StartStatus(s, t, call, e);
    RunLands(s, t, call, e, v);
    CondsShared(s);
    LeavingAtOnce(MonitorOf(s), t);
  }

  /** From inside the section: both notifications and then Exit, or Exit first as in the machine. */
  lemma LeaveThenNotify(mo: Monitor, s1: Sys, s2: Sys, t: Tid)
    requires Can(mo, Exit(t, LOCK)) && Do(mo, Exit(t, LOCK)) == MonitorOf(s1)
    requires Inv(s1) && t in s1.phase && s1.phase[t] == Releasing(NotifyingExclusive)
    requires Inv(s2) && t in s2.phase && s2.phase[t] == Releasing(NotifyingShared)
    requires s2 == Notify(s1, t, NotifyingExclusive) && s2.q.shared == s1.q.shared
    ensures Perform(mo, ReleaseActions(s1.q) + [Exit(t, LOCK)]) == Some(MonitorOf(Notify(s2, t, NotifyingShared)))
  {
    hide Inv, Notify, MonitorOf, Signals, Can, Do;
    var a, b := Signals(1, |FrontOf(s1.q.exclusive)|), Signals(0, |s1.q.shared|);
    NotifySimulates(s1, t, NotifyingExclusive);
    NotifySimulates(s2, t, NotifyingShared);
    LeaveLater(mo, t, 1, |FrontOf(s1.q.exclusive)|);
    var mo1 := Perform(mo, a).value;
    LeaveLater(mo1, t, 0, |s1.q.shared|);
    var mo2 := Perform(mo1, b).value;
    OneAction(mo2, Exit(t, LOCK));
    PerformSplit(mo1, b, [Exit(t, LOCK)]);
    PerformSplit(mo, a, b + [Exit(t, LOCK)]);
    assert ReleaseActions(s1.q) + [Exit(t, LOCK)] == a + (b + [Exit(t, LOCK)]);
  }
}
