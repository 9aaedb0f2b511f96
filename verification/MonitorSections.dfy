/** A critical section of a class with one mutex, as monitor steps: enter, notify, then leave or wait. */
module MonitorSections {
  import opened Basics
  import opened MesaMonitor

  /** The mutex of the class. */
  const LOCK: Mid := 0

  predicate Unlocked(mo: Monitor) {
    LOCK in mo.holder && mo.holder[LOCK].None?
  }

  function Inside(mo: Monitor, t: Tid): Monitor {
    mo.(holder := mo.holder[LOCK := Some(t)], status := mo.status[t := Out])
  }

  function EnterFrom(mo: Monitor, t: Tid): seq<Action>
    requires t in mo.status
  {
    if mo.status[t] == Out then [Request(t, LOCK, false), Enter(t, LOCK)] else [Enter(t, LOCK)]
  }

  lemma EnterRuns(mo: Monitor, t: Tid)
    requires Unlocked(mo) && t in mo.status && (mo.status[t] == Out || mo.status[t] == Entering(LOCK, false))
    ensures Perform(mo, EnterFrom(mo, t)) == Some(Inside(mo, t))
  {
    if mo.status[t] == Out {
      TwoActions(mo, Request(t, LOCK, false), Enter(t, LOCK));
      assert mo.status[t := Entering(LOCK, false)][t := Out] == mo.status[t := Out];
    } else {
      OneAction(mo, Enter(t, LOCK));
    }
  }

  /** How a section ends: with the mutex released, or with a wait. */
  datatype Ending = Leaves | WaitsOn(c: Cid, timed: bool)

  function EndOf(t: Tid, e: Ending): seq<Action> {
    match e
    case Leaves => [Exit(t, LOCK)]
    case WaitsOn(c, timed) => [Wait(t, c, LOCK, timed)]
  }

  function Ended(mo: Monitor, t: Tid, e: Ending): Monitor
    requires e.WaitsOn? ==> e.c in mo.conds
  {
    match e
    case Leaves => mo.(holder := mo.holder[LOCK := None])
    case WaitsOn(c, timed) =>
      mo.(holder := mo.holder[LOCK := None], conds := mo.conds[c := mo.conds[c] + [t]],
          status := mo.status[t := Waiting(c, LOCK, timed)])
  }

  lemma EndRuns(mo: Monitor, t: Tid, e: Ending)
    requires t in mo.status && mo.status[t] == Out && LOCK in mo.holder && mo.holder[LOCK] == Some(t)
    requires e.WaitsOn? ==> e.c in mo.conds
    ensures Perform(mo, EndOf(t, e)) == Some(Ended(mo, t, e))
  {
    OneAction(mo, EndOf(t, e)[0]);
  }

  // ----- Notifications -----

  /** Everybody in the queue of c waits there. */
  ghost predicate AllWait(mo: Monitor, c: Cid) {
    && c in mo.conds && NoDup(mo.conds[c])
    && forall u :: u in mo.conds[c] ==>
      u in mo.status && mo.status[u].Waiting? && mo.status[u].c == c && mo.status[u].m == LOCK
  }

  function Woken(status: map<Tid, Status>, q: seq<Tid>): map<Tid, Status> {
    map u | u in status :: if u in q then Entering(LOCK, false) else status[u]
  }

  function Notified(mo: Monitor, c: Cid, n: nat): Monitor
    requires c in mo.conds && n <= |mo.conds[c]|
  {
    mo.(conds := mo.conds[c := mo.conds[c][n..]], status := Woken(mo.status, mo.conds[c][..n]))
  }

  lemma OneNotified(mo: Monitor, c: Cid)
    requires AllWait(mo, c) && mo.conds[c] != []
    ensures Can(mo, Signal(c)) && Do(mo, Signal(c)) == Notified(mo, c, 1) && AllWait(Notified(mo, c, 1), c)
  {
    var q := mo.conds[c];
    assert q[0] in q && q[..1] == [q[0]] && q == [q[0]] + q[1..];
    assert mo.status[q[0] := Entering(LOCK, false)] == Woken(mo.status, q[..1]);
  }

  /** n notifications take the first n waiters out, in order, and nobody else. */
  lemma {:induction false} SignalsRun(mo: Monitor, c: Cid, n: nat)
    requires AllWait(mo, c) && n <= |mo.conds[c]|
    ensures Perform(mo, Signals(c, n)) == Some(Notified(mo, c, n))
    decreases n
  {
    var q := mo.conds[c];
    if n == 0 {
      assert Woken(mo.status, []) == mo.status;
      assert mo.conds[c := q] == mo.conds && q[0..] == q && q[..0] == [];
    } else {
      var mo1 := Notified(mo, c, 1);
      OneNotified(mo, c);
      SignalsRun(mo1, c, n - 1);
      PerformFirst(mo, mo1, Signal(c), Signals(c, n - 1));
      NotifiedTwice(mo, c, n);
    }
  }

  lemma NotifiedTwice(mo: Monitor, c: Cid, n: nat)
    requires c in mo.conds && 1 <= n <= |mo.conds[c]|
    ensures Notified(Notified(mo, c, 1), c, n - 1) == Notified(mo, c, n)
  {
    var q, mo1 := mo.conds[c], Notified(mo, c, 1);
    assert q[..n] == [q[0]] + q[1..][..n - 1] && q[1..][n - 1..] == q[n..];
    assert Woken(mo1.status, q[1..][..n - 1]) == Woken(mo.status, q[..n]);
    assert mo.conds[c := q[1..]][c := q[n..]] == mo.conds[c := q[n..]];
  }

  // ----- A whole section -----

  /** Enter; notify the first n waiters of c; leave or wait. */
  function SectionOf(mo: Monitor, t: Tid, c: Cid, n: nat, e: Ending): seq<Action>
    requires t in mo.status
  {
    EnterFrom(mo, t) + (Signals(c, n) + EndOf(t, e))
  }

  function AfterSection(mo: Monitor, t: Tid, c: Cid, n: nat, e: Ending): Monitor
    requires c in mo.conds && n <= |mo.conds[c]| && (e.WaitsOn? ==> e.c in mo.conds)
  {
    Ended(Notified(Inside(mo, t), c, n), t, e)
  }

  lemma SectionRuns(mo: Monitor, t: Tid, c: Cid, n: nat, e: Ending)
    requires Unlocked(mo) && t in mo.status && (mo.status[t] == Out || mo.status[t] == Entering(LOCK, false))
    requires AllWait(mo, c) && n <= |mo.conds[c]| && t !in mo.conds[c] && (e.WaitsOn? ==> e.c in mo.conds)
    ensures Perform(mo, SectionOf(mo, t, c, n, e)) == Some(AfterSection(mo, t, c, n, e))
  {
    var mo1 := Inside(mo, t);
    var mo2 := Notified(mo1, c, n);
    EnterRuns(mo, t);
    SignalsRun(mo1, c, n);
    EndRuns(mo2, t, e);
    PerformSplit(mo1, Signals(c, n), EndOf(t, e));
    PerformSplit(mo, EnterFrom(mo, t), Signals(c, n) + EndOf(t, e));
  }

  // ----- Notifying inside a section or after it -----

  lemma LeavingAtOnce(mo: Monitor, t: Tid)
    requires Unlocked(mo) && t in mo.status && 0 in mo.conds
    ensures Can(Inside(mo, t), Exit(t, LOCK)) && Do(Inside(mo, t), Exit(t, LOCK)) == AfterSection(mo, t, 0, 0, Leaves)
  {
    var mo1 := Inside(mo, t);
    assert mo.conds[0][..0] == [] && mo.conds[0][0..] == mo.conds[0];
    assert mo.conds[0 := mo.conds[0]] == mo.conds;
    assert Woken(mo1.status, []) == mo1.status;
  }

  /** The holder may make its notifications before it leaves or afterwards, if nothing comes between. */
  lemma {:induction false} LeaveLater(mo: Monitor, t: Tid, c: Cid, n: nat)
    requires Can(mo, Exit(t, LOCK)) && Perform(Do(mo, Exit(t, LOCK)), Signals(c, n)).Some?
    ensures Perform(mo, Signals(c, n)).Some? && Can(Perform(mo, Signals(c, n)).value, Exit(t, LOCK))
    ensures Do(Perform(mo, Signals(c, n)).value, Exit(t, LOCK)) == Perform(Do(mo, Exit(t, LOCK)), Signals(c, n)).value
    decreases n
  {
    if n != 0 {
      var mo1 := Do(mo, Signal(c));
      assert Signals(c, n)[0] == Signal(c) && Signals(c, n)[1..] == Signals(c, n - 1);
      assert Do(mo1, Exit(t, LOCK)) == Do(Do(mo, Exit(t, LOCK)), Signal(c));
      LeaveLater(mo1, t, c, n - 1);
    }
  }
}
