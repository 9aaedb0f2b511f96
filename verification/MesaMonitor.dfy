/** An atomic Mesa monitor: entering, leaving, waiting and signalling are single steps. */
module MesaMonitor {
  import opened Basics

  // ----- The monitor -----

  /** `timed` is set while the call may give up. */
  datatype Status = Out | Entering(m: Mid, timed: bool) | Waiting(c: Cid, m: Mid, timed: bool)

  /** A thread inside the monitor m is `Out` of every queue and the holder of m. */
  datatype Monitor = Monitor(holder: map<Mid, Option<Tid>>, conds: map<Cid, seq<Tid>>, status: map<Tid, Status>)

  datatype Action =
    | Request(t: Tid, m: Mid, timed: bool)
    | Enter(t: Tid, m: Mid)
    | Exit(t: Tid, m: Mid)
    | Wait(t: Tid, c: Cid, m: Mid, timed: bool)     // releases the monitor and queues in one step
    | Signal(c: Cid)                   // moves the longest waiter, and only it, to the entry
    | GiveUpWait(t: Tid)               // the time of a timed wait expired
    | GiveUpEntry(t: Tid)              // the time of a timed lock expired
    | Born(t: Tid)

  predicate Can(mo: Monitor, a: Action) {
    match a
    case Request(t, m, _) => t in mo.status && mo.status[t] == Out && m in mo.holder && mo.holder[m] != Some(t)
    case Enter(t, m) =>
      t in mo.status && mo.status[t].Entering? && mo.status[t].m == m && m in mo.holder && mo.holder[m].None?
    case Exit(t, m) => t in mo.status && mo.status[t] == Out && m in mo.holder && mo.holder[m] == Some(t)
    case Wait(t, c, m, _) =>
      t in mo.status && mo.status[t] == Out && m in mo.holder && mo.holder[m] == Some(t) && c in mo.conds
    case Signal(c) =>
      c in mo.conds && mo.conds[c] != [] && mo.conds[c][0] in mo.status
      && mo.status[mo.conds[c][0]].Waiting? && mo.status[mo.conds[c][0]].c == c
    case GiveUpWait(t) =>
      t in mo.status && mo.status[t].Waiting? && mo.status[t].timed
      && mo.status[t].c in mo.conds && t in mo.conds[mo.status[t].c]
    case GiveUpEntry(t) => t in mo.status && mo.status[t].Entering? && mo.status[t].timed
    case Born(t) => t !in mo.status
  }

  function RemoveTid(q: seq<Tid>, t: Tid): seq<Tid> {
    if q == [] then [] else if q[0] == t then q[1..] else [q[0]] + RemoveTid(q[1..], t)
  }

  function Do(mo: Monitor, a: Action): Monitor
    requires Can(mo, a)
  {
    match a
    case Request(t, m, timed) => mo.(status := mo.status[t := Entering(m, timed)])
    case Enter(t, m) => mo.(holder := mo.holder[m := Some(t)], status := mo.status[t := Out])
    case Exit(t, m) => mo.(holder := mo.holder[m := None])
    case Wait(t, c, m, timed) =>
      mo.(holder := mo.holder[m := None], conds := mo.conds[c := mo.conds[c] + [t]],
          status := mo.status[t := Waiting(c, m, timed)])
    case Signal(c) =>
      var t := mo.conds[c][0];
      mo.(conds := mo.conds[c := mo.conds[c][1..]], status := mo.status[t := Entering(mo.status[t].m, false)])
    case GiveUpWait(t) =>
      var w := mo.status[t];
      mo.(conds := mo.conds[w.c := RemoveTid(mo.conds[w.c], t)], status := mo.status[t := Entering(w.m, false)])
    case GiveUpEntry(t) => mo.(status := mo.status[t := Out])
    case Born(t) => mo.(status := mo.status[t := Out])
  }

  function Perform(mo: Monitor, acts: seq<Action>): Option<Monitor>
    decreases |acts|
  {
    if acts == [] then Some(mo)
    else if Can(mo, acts[0]) then Perform(Do(mo, acts[0]), acts[1..])
    else None
  }

  lemma {:induction false} PerformSplit(mo: Monitor, a: seq<Action>, b: seq<Action>)
    requires Perform(mo, a).Some?
    ensures Perform(mo, a + b) == Perform(Perform(mo, a).value, b)
    decreases |a|
  {
    if a == [] {
      assert a + b == b;
    } else {
      PerformSplit(Do(mo, a[0]), a[1..], b);
      assert (a + b)[0] == a[0] && (a + b)[1..] == a[1..] + b;
    }
  }

  function Signals(c: Cid, n: nat): seq<Action> {
    if n == 0 then [] else [Signal(c)] + Signals(c, n - 1)
  }

  lemma PerformFirst(mo: Monitor, mo': Monitor, a: Action, rest: seq<Action>)
    requires Can(mo, a) && mo' == Do(mo, a)
    ensures Perform(mo, [a] + rest) == Perform(mo', rest)
  {
    assert ([a] + rest)[1..] == rest;
  }

  lemma OneAction(mo: Monitor, a: Action)
    requires Can(mo, a)
    ensures Perform(mo, [a]) == Some(Do(mo, a))
  {
    PerformFirst(mo, Do(mo, a), a, []);
    assert [a] + [] == [a];
  }

  lemma TwoActions(mo: Monitor, a: Action, b: Action)
    requires Can(mo, a) && Can(Do(mo, a), b)
    ensures Perform(mo, [a, b]) == Some(Do(Do(mo, a), b))
  {
    PerformFirst(mo, Do(mo, a), a, [b]);
    OneAction(Do(mo, a), b);
    assert [a] + [b] == [a, b];
  }

  // ----- What the monitor promises a waiter -----

  /** A thread on its way in without a time limit is out of the entry only when it has entered. */
  lemma {:induction false} EntersBeforeOut(mo: Monitor, acts: seq<Action>, t: Tid, m: Mid) returns (j: nat)
    requires t in mo.status && mo.status[t] == Entering(m, false)
    requires Perform(mo, acts).Some? && t in Perform(mo, acts).value.status
    requires Perform(mo, acts).value.status[t] != Entering(m, false)
    ensures j < |acts| && acts[j] == Enter(t, m)
    decreases |acts|
  {
    if acts[0] == Enter(t, m) {
      j := 0;
    } else {
      var i := EntersBeforeOut(Do(mo, acts[0]), acts[1..], t, m);
      j := i + 1;
    }
  }

  /** wait() ends only after a signal that found its thread at the front, followed by its entry. */
  lemma {:induction false} WaitEndsBySignal(mo: Monitor, acts: seq<Action>, t: Tid, c: Cid, m: Mid) returns (i: nat, j: nat)
    requires t in mo.status && mo.status[t] == Waiting(c, m, false)
    requires Perform(mo, acts).Some? && t in Perform(mo, acts).value.status && Perform(mo, acts).value.status[t] == Out
    ensures i < j < |acts| && acts[i] == Signal(c) && acts[j] == Enter(t, m)
    ensures Perform(mo, acts[..i]).Some?
    ensures var at := Perform(mo, acts[..i]).value; c in at.conds && at.conds[c] != [] && at.conds[c][0] == t
    decreases |acts|
  {
    var mo1 := Do(mo, acts[0]);
    if acts[0] == Signal(c) && mo.conds[c][0] == t {
      var k := EntersBeforeOut(mo1, acts[1..], t, m);
      i, j := 0, k + 1;
    } else {
      var i1, j1 := WaitEndsBySignal(mo1, acts[1..], t, c, m);
      i, j := i1 + 1, j1 + 1;
      assert acts[..i] == [acts[0]] + acts[1..][..i1];
      PerformFirst(mo, mo1, acts[0], acts[1..][..i1]);
    }
  }

  // ----- Conditions are first in, first out -----

  /** Who begins to wait on c, in order. */
  function Waiters(acts: seq<Action>, c: Cid): seq<Tid>
    decreases |acts|
  {
    if acts == [] then []
    else (if acts[0].Wait? && acts[0].c == c then [acts[0].t] else []) + Waiters(acts[1..], c)
  }

  /** Whom the signals of c take out, in order. */
  function Signalled(mo: Monitor, acts: seq<Action>, c: Cid): seq<Tid>
    requires Perform(mo, acts).Some?
    decreases |acts|
  {
    if acts == [] then []
    else (if acts[0] == Signal(c) then [mo.conds[c][0]] else []) + Signalled(Do(mo, acts[0]), acts[1..], c)
  }

  predicate NobodyGivesUp(acts: seq<Action>) {
    forall i :: 0 <= i < |acts| ==> !acts[i].GiveUpWait?
  }

  lemma ConcatCons(q: seq<Tid>, t: Tid, rest: seq<Tid>)
    ensures (q + [t]) + rest == q + ([t] + rest)
    ensures [t] + (q + rest) == ([t] + q) + rest
  {
  }

  /** Notifications serve the waiters of a condition in the order in which they began to wait: those queued
      before and those that came, in that order, are those signalled and then those still queued. */
  lemma {:induction false} SignalsAreFifo(mo: Monitor, acts: seq<Action>, c: Cid)
    requires c in mo.conds && NobodyGivesUp(acts) && Perform(mo, acts).Some?
    ensures c in Perform(mo, acts).value.conds
    ensures mo.conds[c] + Waiters(acts, c) == Signalled(mo, acts, c) + Perform(mo, acts).value.conds[c]
    decreases |acts|
  {
    if acts == [] {
      assert mo.conds[c] + [] == [] + mo.conds[c];
    } else {
      var a, mo1, q := acts[0], Do(mo, acts[0]), mo.conds[c];
      assert NobodyGivesUp(acts[1..]);
      assert c in mo1.conds && mo1.conds[c] ==
        if a.Wait? && a.c == c then q + [a.t] else if a == Signal(c) then q[1..] else q;
      SignalsAreFifo(mo1, acts[1..], c);
      if a.Wait? && a.c == c {
        ConcatCons(q, a.t, Waiters(acts[1..], c));
        assert [] + Signalled(mo1, acts[1..], c) == Signalled(mo1, acts[1..], c);
      } else if a == Signal(c) {
        assert q == [q[0]] + q[1..];
        ConcatCons(q[1..], q[0], Waiters(acts[1..], c));
        ConcatCons(Signalled(mo1, acts[1..], c), q[0], Perform(mo, acts).value.conds[c]);
        assert [] + Waiters(acts[1..], c) == Waiters(acts[1..], c);
      } else {
        assert [] + Waiters(acts[1..], c) == Waiters(acts[1..], c);
        assert [] + Signalled(mo1, acts[1..], c) == Signalled(mo1, acts[1..], c);
      }
    }
  }
}
