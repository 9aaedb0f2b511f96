/** The steps of the barrier are runs of the Mesa monitor. */
module BarrierOnMonitor {
  import opened Basics
  import opened MesaMonitor
  import opened MonitorSections
  import opened BarrierModel

  function StatusIn(s: State, t: Tid): Status {
    if t in s.parked then Waiting(0, LOCK, false) else if t in s.gen then Entering(LOCK, false) else Out
  }

  /** `threads` are all threads there are. */
  function MonitorOf(s: State, threads: set<Tid>): Monitor {
    Monitor(map[LOCK := None], map[0 := s.parked], map t | t in threads :: StatusIn(s, t))
  }

  ghost predicate Among(s: State, threads: set<Tid>) {
    forall t :: t in s.gen ==> t in threads
  }

  /** The last arrival notifies everybody parked, and leaves; another one waits. A woken thread leaves, or
      waits again if its generation were not over. */
  function Script(s: State, l: Label, threads: set<Tid>): seq<Action>
    requires Enabled(s, l) && l.t in threads
  {
    match l
    case LArrive(t, _) =>
      if s.count == 1 then SectionOf(MonitorOf(s, threads), t, 0, |s.parked|, Leaves)
      else SectionOf(MonitorOf(s, threads), t, 0, 0, WaitsOn(0, false))
    case LAgain(t) =>
      SectionOf(MonitorOf(s, threads), t, 0, 0, if s.gen[t] == s.generation then WaitsOn(0, false) else Leaves)
  }

  lemma ParkedWait(s: State, threads: set<Tid>)
    requires Inv(s) && Among(s, threads)
    ensures AllWait(MonitorOf(s, threads), 0)
  {
  }

  lemma OwnPlace(s: State, t: Tid)
    requires Inv(s)
    ensures forall u :: u in s.parked ==> u in s.gen
  {
  }

  lemma LastLands(s: State, t: Tid, size: nat, threads: set<Tid>)
    requires Inv(s) && Among(s, threads) && t in threads && t !in s.gen && s.count == 1
    requires s.generation < |s.rounds|
    ensures AfterSection(MonitorOf(s, threads), t, 0, |s.parked|, Leaves) == MonitorOf(Arrive(s, t, size).0, threads)
  {
    hide Inv;
    OwnPlace(s, t);
    var mo, s' := MonitorOf(s, threads), Arrive(s, t, size).0;
    assert s.parked[|s.parked|..] == [] && s.parked[..|s.parked|] == s.parked;
    assert mo.holder[LOCK := Some(t)][LOCK := None] == mo.holder;
    assert Woken(mo.status[t := Out], s.parked) == MonitorOf(s', threads).status;
    assert mo.conds[0 := []] == MonitorOf(s', threads).conds;
  }

  lemma OtherLands(s: State, t: Tid, size: nat, threads: set<Tid>)
    requires Inv(s) && Among(s, threads) && t in threads && t !in s.gen && s.count > 1
    requires s.generation < |s.rounds|
    ensures AfterSection(MonitorOf(s, threads), t, 0, 0, WaitsOn(0, false)) == MonitorOf(Arrive(s, t, size).0, threads)
  {
    hide Inv;
    OwnPlace(s, t);
    var mo, s' := MonitorOf(s, threads), Arrive(s, t, size).0;
    assert s.parked[0..] == s.parked && s.parked[..0] == [];
    assert mo.holder[LOCK := Some(t)][LOCK := None] == mo.holder;
    assert Woken(mo.status[t := Out], [])[t := Waiting(0, LOCK, false)] == MonitorOf(s', threads).status;
    assert mo.conds[0 := s.parked][0 := s.parked + [t]] == MonitorOf(s', threads).conds;
  }

  lemma AgainLands(s: State, t: Tid, threads: set<Tid>)
    requires Inv(s) && Among(s, threads) && t in s.gen && t !in s.parked
    ensures AfterSection(MonitorOf(s, threads), t, 0, 0, Leaves) == MonitorOf(Again(s, t).0, threads)
    ensures s.gen[t] != s.generation
  {
    var mo := MonitorOf(s, threads);
    assert s.parked[0..] == s.parked && s.parked[..0] == [];
    assert mo.holder[LOCK := Some(t)][LOCK := None] == mo.holder;
  }

  lemma StepRefines(s: State, l: Label, threads: set<Tid>)
    requires Inv(s) && Among(s, threads) && Enabled(s, l) && l.t in threads
    ensures Perform(MonitorOf(s, threads), Script(s, l, threads)) == Some(MonitorOf(Next(s, l), threads))
    ensures Among(Next(s, l), threads)
  {
    ParkedWait(s, threads);
    var mo := MonitorOf(s, threads);
    match l {
      case LArrive(t, size) =>
        if s.count == 1 {
          LastLands(s, t, size, threads);
          SectionRuns(mo, t, 0, |s.parked|, Leaves);
        } else {
          OtherLands(s, t, size, threads);
          SectionRuns(mo, t, 0, 0, WaitsOn(0, false));
        }
      case LAgain(t) =>
        AgainLands(s, t, threads);
        SectionRuns(mo, t, 0, 0, Leaves);
    }
  }

  predicate Callers(ls: seq<Label>, threads: set<Tid>) {
    forall i :: 0 <= i < |ls| ==> ls[i].t in threads
  }

  function Scripts(s: State, ls: seq<Label>, threads: set<Tid>): seq<Action>
    requires Exec(s, ls).Some? && Callers(ls, threads)
    decreases |ls|
  {
    if ls == [] then []
    else
      assert ls[0].t in threads && forall i :: 0 <= i < |ls[1..]| ==> ls[1..][i] == ls[i + 1];
      Script(s, ls[0], threads) + Scripts(Next(s, ls[0]), ls[1..], threads)
  }

  /** A run of any number of threads on a barrier is a run of the monitor. */
  lemma {:induction false} RunRefines(s: State, ls: seq<Label>, threads: set<Tid>)
    requires Inv(s) && Among(s, threads) && Exec(s, ls).Some? && Callers(ls, threads)
    ensures Perform(MonitorOf(s, threads), Scripts(s, ls, threads)) == Some(MonitorOf(Exec(s, ls).value, threads))
    decreases |ls|
  {
    if ls != [] {
      assert ls[0].t in threads && forall i :: 0 <= i < |ls[1..]| ==> ls[1..][i] == ls[i + 1];
      var s1 := Next(s, ls[0]);
      StepInv(s, ls[0]);
      StepRefines(s, ls[0], threads);
      RunRefines(s1, ls[1..], threads);
      PerformSplit(MonitorOf(s, threads), Script(s, ls[0], threads), Scripts(s1, ls[1..], threads));
    }
  }
}
