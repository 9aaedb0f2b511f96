/** The operations of the concurrent queue are runs of the Mesa monitor. */
module ConcurrentQueueOnMonitor {
  import opened Basics
  import opened MesaMonitor
  import opened MonitorSections
  import opened ConcurrentQueueModel

  const EMPTY: Cid := 0
  const FULL: Cid := 1

  /** Where the threads are: the part of the state that the monitor sees. */
  datatype Places = Places(emptyQ: seq<Tid>, fullQ: seq<Tid>, emptyWoken: set<Tid>, fullWoken: set<Tid>)

  function PlacesOf<T>(s: State<T>): Places {
    Places(s.emptyQ, s.fullQ, s.emptyWoken, s.fullWoken)
  }

  function StatusIn(p: Places, t: Tid): Status {
    if t in p.emptyQ then Waiting(EMPTY, LOCK, false)
    else if t in p.fullQ then Waiting(FULL, LOCK, false)
    else if t in p.emptyWoken || t in p.fullWoken then Entering(LOCK, false)
    else Out
  }

  /** `threads` are all threads there are. */
  function MonitorOf(p: Places, threads: set<Tid>): Monitor {
    Monitor(map[LOCK := None], map[EMPTY := p.emptyQ, FULL := p.fullQ], map t | t in threads :: StatusIn(p, t))
  }

  ghost predicate Among(p: Places, threads: set<Tid>) {
    && (forall t :: t in p.emptyQ || t in p.fullQ ==> t in threads)
    && (forall t :: t in p.emptyWoken || t in p.fullWoken ==> t in threads)
  }

  ghost predicate Apart(p: Places) {
    && NoDup(p.emptyQ) && NoDup(p.fullQ)
    && (forall t :: t in p.emptyQ ==> t !in p.fullQ && t !in p.emptyWoken && t !in p.fullWoken)
    && (forall t :: t in p.fullQ ==> t !in p.emptyWoken && t !in p.fullWoken)
  }

  lemma PlacesWait(p: Places, threads: set<Tid>)
    requires Apart(p) && Among(p, threads)
    ensures AllWait(MonitorOf(p, threads), EMPTY) && AllWait(MonitorOf(p, threads), FULL)
  {
  }

  // ----- What a section does to the places -----

  /** t enters, n waiters of c are notified, t leaves or waits. */
  ghost predicate Moves(p: Places, p': Places, t: Tid, c: Cid, n: nat, e: Ending) {
    && (c == EMPTY || c == FULL) && n <= |if c == EMPTY then p.emptyQ else p.fullQ|
    && (e.WaitsOn? ==> (e.c == EMPTY || e.c == FULL) && !e.timed)
    && p'.emptyQ == (if c == EMPTY then p.emptyQ[n..] else p.emptyQ) + (if e == WaitsOn(EMPTY, false) then [t] else [])
    && p'.fullQ == (if c == FULL then p.fullQ[n..] else p.fullQ) + (if e == WaitsOn(FULL, false) then [t] else [])
    && (forall u :: u in p'.emptyWoken <==> (u in p.emptyWoken && u != t) || (c == EMPTY && u in p.emptyQ[..n]))
    && (forall u :: u in p'.fullWoken <==> (u in p.fullWoken && u != t) || (c == FULL && u in p.fullQ[..n]))
  }

  lemma Split(q: seq<Tid>, n: nat)
    requires NoDup(q) && n <= |q|
    ensures forall u :: u in q <==> u in q[..n] || u in q[n..]
    ensures forall u :: u in q[..n] ==> u !in q[n..]
  {
    assert q == q[..n] + q[n..];
  }

  lemma MovedStatus(p: Places, p': Places, t: Tid, c: Cid, n: nat, e: Ending, threads: set<Tid>, u: Tid)
    requires Apart(p) && t !in p.emptyQ && t !in p.fullQ && t in threads && u in threads && Moves(p, p', t, c, n, e)
    ensures var mo := AfterSection(MonitorOf(p, threads), t, c, n, e); u in mo.status && mo.status[u] == StatusIn(p', u)
  {
    Split(p.emptyQ, if c == EMPTY then n else 0);
    Split(p.fullQ, if c == FULL then n else 0);
  }

  lemma MovedConds(p: Places, p': Places, t: Tid, c: Cid, n: nat, e: Ending, threads: set<Tid>)
    requires Moves(p, p', t, c, n, e)
    ensures AfterSection(MonitorOf(p, threads), t, c, n, e).conds == MonitorOf(p', threads).conds
    ensures AfterSection(MonitorOf(p, threads), t, c, n, e).holder == MonitorOf(p', threads).holder
  {
    hide Moves;
    var h: map<Mid, Option<Tid>> := MonitorOf(p, threads).holder;
    assert h[LOCK := Some(t)][LOCK := None] == h;
    NotifiedConds(p, p', t, c, n, e, threads);
    EndedConds(Notified(Inside(MonitorOf(p, threads), t), c, n), p', t, e);
  }

  function Short(p: Places, c: Cid, n: nat): map<Cid, seq<Tid>>
    requires n <= |if c == EMPTY then p.emptyQ else p.fullQ|
  {
    map[EMPTY := if c == EMPTY then p.emptyQ[n..] else p.emptyQ, FULL := if c == EMPTY then p.fullQ else p.fullQ[n..]]
  }

  lemma NotifiedConds(p: Places, p': Places, t: Tid, c: Cid, n: nat, e: Ending, threads: set<Tid>)
    requires Moves(p, p', t, c, n, e)
    ensures (c == EMPTY || c == FULL) && n <= |if c == EMPTY then p.emptyQ else p.fullQ|
    ensures e.WaitsOn? ==> (e.c == EMPTY || e.c == FULL) && !e.timed
    ensures Notified(Inside(MonitorOf(p, threads), t), c, n).conds == Short(p, c, n)
    ensures p'.emptyQ == Short(p, c, n)[EMPTY] + (if e == WaitsOn(EMPTY, false) then [t] else [])
    ensures p'.fullQ == Short(p, c, n)[FULL] + (if e == WaitsOn(FULL, false) then [t] else [])
  {
  }

  lemma EndedConds(mo: Monitor, p': Places, t: Tid, e: Ending)
    requires mo.conds.Keys == {EMPTY, FULL} && (e.WaitsOn? ==> (e.c == EMPTY || e.c == FULL) && !e.timed)
    requires p'.emptyQ == mo.conds[EMPTY] + (if e == WaitsOn(EMPTY, false) then [t] else [])
    requires p'.fullQ == mo.conds[FULL] + (if e == WaitsOn(FULL, false) then [t] else [])
    ensures Ended(mo, t, e).conds == map[EMPTY := p'.emptyQ, FULL := p'.fullQ]
  {
    assert mo.conds[EMPTY] + [] == mo.conds[EMPTY] && mo.conds[FULL] + [] == mo.conds[FULL];
  }

  lemma StatusKeys(p: Places, t: Tid, c: Cid, n: nat, e: Ending, threads: set<Tid>)
    requires t in threads && (c == EMPTY || c == FULL) && n <= |if c == EMPTY then p.emptyQ else p.fullQ|
    requires e.WaitsOn? ==> e.c == EMPTY || e.c == FULL
    ensures AfterSection(MonitorOf(p, threads), t, c, n, e).status.Keys == threads
  {
  }

  lemma MovesLand(p: Places, p': Places, t: Tid, c: Cid, n: nat, e: Ending, threads: set<Tid>)
    requires Apart(p) && t !in p.emptyQ && t !in p.fullQ && t in threads && Moves(p, p', t, c, n, e)
    ensures AfterSection(MonitorOf(p, threads), t, c, n, e) == MonitorOf(p', threads)
  {
    MovedConds(p, p', t, c, n, e, threads);
    StatusKeys(p, t, c, n, e, threads);
    var mo, mo' := AfterSection(MonitorOf(p, threads), t, c, n, e), MonitorOf(p', threads);
    hide AfterSection, StatusIn, Moves, Apart;
    forall u | u in threads ensures u in mo.status && mo.status[u] == mo'.status[u] {
      MovedStatus(p, p', t, c, n, e, threads, u);
    }
    assert mo.status == mo'.status;
  }

  lemma MovesRun(p: Places, p': Places, t: Tid, c: Cid, n: nat, e: Ending, threads: set<Tid>)
    requires Apart(p) && Among(p, threads) && t !in p.emptyQ && t !in p.fullQ && t in threads && Moves(p, p', t, c, n, e)
    ensures Perform(MonitorOf(p, threads), SectionOf(MonitorOf(p, threads), t, c, n, e)) == Some(MonitorOf(p', threads))
  {
    PlacesWait(p, threads);
    MovesLand(p, p', t, c, n, e, threads);
    SectionRuns(MonitorOf(p, threads), t, c, n, e);
  }

  // ----- The operations -----

  function Least(a: nat, b: nat): nat { if a < b then a else b }

  /** Pushing items notifies one consumer for each, as long as there are any. */
  lemma {:induction false} PushEachPlaces<T>(s: State<T>, xs: seq<T>)
    ensures var s', n := PushEach(s, xs), Least(|xs|, |s.emptyQ|);
      && s'.emptyQ == s.emptyQ[n..] && s'.fullQ == s.fullQ && s'.fullWoken == s.fullWoken
      && (forall u :: u in s'.emptyWoken <==> u in s.emptyWoken || u in s.emptyQ[..n])
    decreases |xs|
  {
    if xs != [] {
      var s1 := PushOne(s, xs[0]);
      PushEachPlaces(s1, xs[1..]);
      if s.emptyQ != [] { TakeOneMore(s.emptyQ, Least(|xs|, |s.emptyQ|)); }
    }
  }

  lemma TakeOneMore(q: seq<Tid>, n: nat)
    requires 1 <= n <= |q|
    ensures q[1..][n - 1..] == q[n..]
    ensures forall u :: u in q[..n] <==> u == q[0] || u in q[1..][..n - 1]
  {
    assert q[..n] == [q[0]] + q[1..][..n - 1];
  }

  lemma OnePush<T>(s: State<T>, x: T)
    ensures PushEach(s, [x]) == PushOne(s, x)
  {
    assert [x][1..] == [];
    assert PushEach(PushOne(s, x), []) == PushOne(s, x);
  }

  /** The section of a label run by thread t: the condition it notifies, how often, and its end. */
  datatype Shape = Shape(c: Cid, n: nat, e: Ending)

  function PushShape<T>(s: State<T>, n: nat): Shape {
    Shape(EMPTY, Least(n, |s.emptyQ|), Leaves)
  }

  function PushLoopShape<T>(s: State<T>): Shape {
    if |s.items| >= s.capacity && s.isOpen then Shape(FULL, 0, WaitsOn(FULL, false))
    else PushShape(s, if s.isOpen then 1 else 0)
  }

  function PopLoopShape<T>(s: State<T>): Shape {
    if s.items == [] && s.isOpen then Shape(EMPTY, 0, WaitsOn(EMPTY, false))
    else Shape(FULL, if s.items == [] then 0 else Least(1, |s.fullQ|), Leaves)
  }

  /** close() notifies two conditions and is shown apart. */
  function ShapeOf<T>(s: State<T>, l: Label<T>): Shape
    requires Enabled(s, l) && !l.LClose?
  {
    match l
    case LPush(_, _) => if s.isOpen then PushLoopShape(s) else Shape(EMPTY, 0, Leaves)
    case LPushAgain(_) => PushLoopShape(s)
    case LPushSome(xs) => PushShape(s, Fitting(s, |xs|))
    case LPushAll(xs) => PushShape(s, if s.isOpen then |xs| else 0)
    case LTryPush(_) => PushShape(s, if s.isOpen && |s.items| < s.capacity then 1 else 0)
    case LPop(_) => PopLoopShape(s)
    case LPopAgain(_) => PopLoopShape(s)
    case LTryPop => if s.items == [] then Shape(FULL, 0, Leaves) else PopLoopShape(s)
    case LOpen => Shape(EMPTY, 0, Leaves)
  }

  /** t is the thread that runs the label. */
  predicate RunBy<T>(s: State<T>, l: Label<T>, t: Tid) {
    match l
    case LPush(u, _) => u == t
    case LPushAgain(u) => u == t
    case LPop(u) => u == t
    case LPopAgain(u) => u == t
    case _ => Outside(s, t)
  }

  lemma PushMoves<T>(s: State<T>, s0: State<T>, t: Tid, xs: seq<T>)
    requires t !in s.emptyWoken && s0.emptyQ == s.emptyQ && s0.fullQ == s.fullQ && s0.emptyWoken == s.emptyWoken
    requires s0.fullWoken == s.fullWoken - {t}
    ensures Moves(PlacesOf(s), PlacesOf(PushEach(s0, xs)), t, EMPTY, Least(|xs|, |s.emptyQ|), Leaves)
  {
    PushEachPlaces(s0, xs);
  }

  lemma PushLoopMoves<T>(s: State<T>, s0: State<T>, t: Tid, x: T)
    requires t !in s.emptyWoken && s0 == s.(fullWoken := s.fullWoken - {t}, pending := s0.pending)
    ensures var h := PushLoopShape(s); Moves(PlacesOf(s), PlacesOf(PushLoop(s0, t, x).0), t, h.c, h.n, h.e)
  {
    if |s.items| >= s.capacity && s.isOpen {
      assert s.fullQ[0..] == s.fullQ && s.fullQ[..0] == [];
    } else {
      OnePush(s0, x);
      PushMoves(s, s0, t, if s.isOpen then [x] else []);
    }
  }

  lemma PopLoopMoves<T>(s: State<T>, s0: State<T>, t: Tid)
    requires t !in s.fullWoken && s0 == s.(emptyWoken := s.emptyWoken - {t})
    ensures var h := PopLoopShape(s); Moves(PlacesOf(s), PlacesOf(PopLoop(s0, t).0), t, h.c, h.n, h.e)
  {
    assert s.fullQ[0..] == s.fullQ && s.fullQ[..0] == [] && s.emptyQ[0..] == s.emptyQ && s.emptyQ[..0] == [];
    if s.items != [] && s.fullQ != [] { assert s.fullQ[..1] == [s.fullQ[0]]; }
  }

  lemma StepMoves<T>(s: State<T>, l: Label<T>, t: Tid)
    requires PlacesOk(s) && Enabled(s, l) && !l.LClose? && RunBy(s, l, t)
    ensures var h := ShapeOf(s, l); Moves(PlacesOf(s), PlacesOf(Next(s, l)), t, h.c, h.n, h.e)
  {
    assert s.emptyWoken - {t} == s.emptyWoken || l.LPopAgain?;
    assert s.fullWoken - {t} == s.fullWoken || l.LPushAgain?;
    match l {
      case LPush(_, x) => if s.isOpen { PushLoopMoves(s, s, t, x); } else { PushMoves(s, s, t, []); }
      case LPushAgain(_) =>
        PushLoopMoves(s, s.(fullWoken := s.fullWoken - {t}, pending := s.pending - {t}), t, s.pending[t]);
      case LPushSome(xs) => PushMoves(s, s, t, xs[..Fitting(s, |xs|)]);
      case LPushAll(xs) => PushMoves(s, s, t, if s.isOpen then xs else []);
      case LTryPush(x) => OnePush(s, x); PushMoves(s, s, t, if s.isOpen && |s.items| < s.capacity then [x] else []);
      case LPop(_) => PopLoopMoves(s, s, t);
      case LPopAgain(_) => PopLoopMoves(s, s.(emptyWoken := s.emptyWoken - {t}), t);
      case LTryPop => if s.items != [] { PopLoopMoves(s, s, t); } else { NothingMoves(s, t); }
      case LOpen => PushMoves(s, s, t, []);
    }
  }

  lemma NothingMoves<T>(s: State<T>, t: Tid)
    requires t !in s.emptyWoken && t !in s.fullWoken
    ensures Moves(PlacesOf(s), PlacesOf(s), t, FULL, 0, Leaves)
  {
    assert s.fullQ[0..] == s.fullQ && s.fullQ[..0] == [];
  }

  lemma MovesAmong(p: Places, p': Places, t: Tid, c: Cid, n: nat, e: Ending, threads: set<Tid>)
    requires Among(p, threads) && t in threads && Moves(p, p', t, c, n, e)
    ensures Among(p', threads)
  {
  }

  // ----- close() -----

  /** close(): enter, notify all producers and all consumers, leave. */
  function CloseScript(p: Places, t: Tid, threads: set<Tid>): seq<Action>
    requires t in threads
  {
    EnterFrom(MonitorOf(p, threads), t)
    + (Signals(FULL, |p.fullQ|) + (Signals(EMPTY, |p.emptyQ|) + EndOf(t, Leaves)))
  }

  lemma ClosedStatus(p: Places, p': Places, t: Tid, threads: set<Tid>)
    requires Apart(p) && t in threads && t !in p.emptyQ && t !in p.fullQ && t !in p.emptyWoken && t !in p.fullWoken
    requires p' == Places([], [], p.emptyWoken + (set u | u in p.emptyQ), p.fullWoken + (set u | u in p.fullQ))
    ensures Woken(Woken(MonitorOf(p, threads).status[t := Out], p.fullQ), p.emptyQ) == MonitorOf(p', threads).status
  {
  }

  lemma CloseRuns(p: Places, p': Places, t: Tid, threads: set<Tid>)
    requires Apart(p) && Among(p, threads)
    requires t in threads && t !in p.emptyQ && t !in p.fullQ && t !in p.emptyWoken && t !in p.fullWoken
    requires p' == Places([], [], p.emptyWoken + (set u | u in p.emptyQ), p.fullWoken + (set u | u in p.fullQ))
    ensures Perform(MonitorOf(p, threads), CloseScript(p, t, threads)) == Some(MonitorOf(p', threads))
  {
    var mo := MonitorOf(p, threads);
    var mo1 := Inside(mo, t);
    var mo2 := Notified(mo1, FULL, |p.fullQ|);
    var mo3 := Notified(mo2, EMPTY, |p.emptyQ|);
    assert p.fullQ[..|p.fullQ|] == p.fullQ && p.emptyQ[..|p.emptyQ|] == p.emptyQ;
    assert p.fullQ[|p.fullQ|..] == [] && p.emptyQ[|p.emptyQ|..] == [];
    EnterRuns(mo, t);
    ClosingWait(p, mo1, mo2, t, threads);
    SignalsRun(mo1, FULL, |p.fullQ|);
    SignalsRun(mo2, EMPTY, |p.emptyQ|);
    EndRuns(mo3, t, Leaves);
    ClosedStatus(p, p', t, threads);
    var h: map<Mid, Option<Tid>> := mo.holder;
    assert h[LOCK := Some(t)][LOCK := None] == h;
    assert Ended(mo3, t, Leaves) == MonitorOf(p', threads);
    PerformSplit(mo2, Signals(EMPTY, |p.emptyQ|), EndOf(t, Leaves));
    PerformSplit(mo1, Signals(FULL, |p.fullQ|), Signals(EMPTY, |p.emptyQ|) + EndOf(t, Leaves));
    PerformSplit(mo, EnterFrom(mo, t), Signals(FULL, |p.fullQ|) + (Signals(EMPTY, |p.emptyQ|) + EndOf(t, Leaves)));
  }

  lemma ClosingWait(p: Places, mo1: Monitor, mo2: Monitor, t: Tid, threads: set<Tid>)
    requires Apart(p) && Among(p, threads) && t in threads && t !in p.emptyQ && t !in p.fullQ
    requires mo1 == Inside(MonitorOf(p, threads), t) && mo2 == Notified(mo1, FULL, |p.fullQ|)
    ensures AllWait(mo1, FULL) && AllWait(mo2, EMPTY) && mo2.conds[EMPTY] == p.emptyQ && mo1.conds[FULL] == p.fullQ
  {
    assert p.fullQ[..|p.fullQ|] == p.fullQ;
  }

  // ----- Steps and runs -----

  function Script<T>(s: State<T>, l: Label<T>, t: Tid, threads: set<Tid>): seq<Action>
    requires Enabled(s, l) && t in threads
  {
    if l.LClose? then CloseScript(PlacesOf(s), t, threads)
    else
      var h := ShapeOf(s, l);
      SectionOf(MonitorOf(PlacesOf(s), threads), t, h.c, h.n, h.e)
  }

  /** Every operation, run by thread t, is the given monitor steps. */
  lemma StepRefines<T>(s: State<T>, l: Label<T>, t: Tid, threads: set<Tid>)
    requires Inv(s) && Among(PlacesOf(s), threads) && Enabled(s, l) && RunBy(s, l, t) && t in threads
    ensures Perform(MonitorOf(PlacesOf(s), threads), Script(s, l, t, threads))
         == Some(MonitorOf(PlacesOf(Next(s, l)), threads))
    ensures Among(PlacesOf(Next(s, l)), threads)
  {
    hide Served, Conserved;
    var p, p' := PlacesOf(s), PlacesOf(Next(s, l));
    assert Apart(p) && t !in p.emptyQ && t !in p.fullQ;
    if l.LClose? {
      CloseRuns(p, p', t, threads);
    } else {
      var h := ShapeOf(s, l);
      StepMoves(s, l, t);
      MovesRun(p, p', t, h.c, h.n, h.e, threads);
      MovesAmong(p, p', t, h.c, h.n, h.e, threads);
    }
  }

  /** The labels of a run, each with the thread that runs it. */
  ghost predicate Runners<T>(s: State<T>, ls: seq<Label<T>>, ts: seq<Tid>, threads: set<Tid>)
    decreases |ls|
  {
    |ts| == |ls| && (ls != [] ==>
      && Enabled(s, ls[0]) && RunBy(s, ls[0], ts[0]) && ts[0] in threads
      && Runners(Next(s, ls[0]), ls[1..], ts[1..], threads))
  }

  ghost function Scripts<T>(s: State<T>, ls: seq<Label<T>>, ts: seq<Tid>, threads: set<Tid>): seq<Action>
    requires Runners(s, ls, ts, threads)
    decreases |ls|
  {
    if ls == [] then [] else Script(s, ls[0], ts[0], threads) + Scripts(Next(s, ls[0]), ls[1..], ts[1..], threads)
  }

  /** A run of any number of threads on a concurrent queue is a run of the monitor. */
  lemma {:induction false} RunRefines<T>(s: State<T>, ls: seq<Label<T>>, ts: seq<Tid>, threads: set<Tid>)
    requires Inv(s) && Among(PlacesOf(s), threads) && Runners(s, ls, ts, threads)
    ensures Exec(s, ls).Some?
    ensures Perform(MonitorOf(PlacesOf(s), threads), Scripts(s, ls, ts, threads))
         == Some(MonitorOf(PlacesOf(Exec(s, ls).value), threads))
    decreases |ls|
  {
    hide Inv, Enabled, Next, Script, Among, RunBy;
    if ls != [] {
      var s1 := Next(s, ls[0]);
      ConcurrentQueueModel.StepInv(s, ls[0]);
      StepRefines(s, ls[0], ts[0], threads);
      RunRefines(s1, ls[1..], ts[1..], threads);
      PerformSplit(MonitorOf(PlacesOf(s), threads), Script(s, ls[0], ts[0], threads),
                   Scripts(s1, ls[1..], ts[1..], threads));
    }
  }
}
