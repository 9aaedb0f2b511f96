/** The inputs of a combinator are shared states: what any run of n shared states does to the waiter that
    one combinator registers on each of them is a run of the inputs. */
module InputsOnStates {
  import opened Basics
  import opened SharedStateRuns
  import opened Combinators

  /** The function that the combinator passes to add_external_waiter() of every input. */
  const WAITER: Wid := 0

  /** The function is registered, or it has run. */
  predicate Known<V>(s: State<V>) { WAITER in s.list || s.ran[WAITER] > 0 }

  predicate HasRun<V>(s: State<V>) { s.ran[WAITER] > 0 }

  /** What a step on input i is to the combinator, if it is anything. */
  function EventOf<V>(s: State<V>, s': State<V>, i: nat): Option<Event> {
    if s.outcome.None? && s'.outcome.Some? then Some(Ready(i))
    else if !Known(s) && Known(s') then Some(Register)
    else if !HasRun(s) && HasRun(s') then Some(RunWaiter(i))
    else None
  }

  predicate Same<V>(s: State<V>, s': State<V>) {
    (s'.outcome.Some? <==> s.outcome.Some?) && (Known(s') <==> Known(s)) && (HasRun(s') <==> HasRun(s))
  }

  /** Nothing is taken back, and two things happen at once only when a function is added to a state that is
      ready: then it is run, and that is its registration. */
  predicate EventFacts<V>(s: State<V>, s': State<V>, i: nat) {
    match EventOf(s, s', i)
    case None => Same(s, s')
    case Some(Ready(_)) => (Known(s') <==> Known(s)) && (HasRun(s') <==> HasRun(s))
    case Some(Register) =>
      (s'.outcome.Some? <==> s.outcome.Some?) && !HasRun(s) && (HasRun(s') <==> s.outcome.Some?)
    case Some(RunWaiter(_)) => s.outcome.Some? && s'.outcome.Some? && Known(s) && Known(s')
  }

  lemma StepEvent<V>(s: State<V>, l: Label<V>, i: nat)
    requires Inv(s) && Enabled(s, l)
    ensures EventFacts(s, Next(s, l), i)
  {
    if l.Step? && s.pc[l.t].Inside? { SectionEvent(s, l.t, s.pc[l.t].op, i); }
    else if l.Step? { WorkEvent(s, l.t, i); }
  }

  lemma SectionEvent<V>(s: State<V>, t: Tid, op: Op<V>, i: nat)
    requires Inv(s) && t in s.pc && s.pc[t] == Inside(op)
    ensures EventFacts(s, Section(s, t, op), i)
  {
    if op.OpAdd? { assert InHand(s, t, op.w); }
  }

  lemma WorkEvent<V>(s: State<V>, t: Tid, i: nat)
    requires Inv(s) && Enabled(s, Step(t)) && !s.pc[t].Inside?
    ensures EventFacts(s, StepOf(s, t), i)
  {
    if s.pc[t].Running? { assert InLoop(s.pc[t]); }
    if s.pc[t].Late? { assert InHand(s, t, s.pc[t].w); }
  }

  // ----- n shared states -----

  /** Input i is the one that its thread acts on. */
  datatype Act<V> = Act(i: nat, l: Label<V>)

  /** The registration loop goes through the inputs in order: it comes to one when it is done with those
      before it. */
  predicate CanAct<V>(ss: seq<State<V>>, a: Act<V>) {
    && a.i < |ss| && Enabled(ss[a.i], a.l)
    && (a.l.Call? && a.l.op == OpAdd(WAITER) ==> forall j :: 0 <= j < a.i ==> Known(ss[j]))
  }

  function Acted<V>(ss: seq<State<V>>, a: Act<V>): seq<State<V>>
    requires CanAct(ss, a)
  {
    ss[a.i := Next(ss[a.i], a.l)]
  }

  ghost predicate AllOk<V>(ss: seq<State<V>>) {
    && (forall i :: 0 <= i < |ss| ==> Inv(ss[i]))
    && (forall i, j :: 0 <= j < i < |ss| && WAITER in ss[i].added ==> Known(ss[j]))
  }

  /** How many inputs are registered: those before the first one that is not. */
  function FirstUnknown<V>(ss: seq<State<V>>): (k: nat)
    ensures k <= |ss| && (forall j :: 0 <= j < k ==> Known(ss[j])) && (k < |ss| ==> !Known(ss[k]))
  {
    if ss == [] || !Known(ss[0]) then 0
    else
      var k := FirstUnknown(ss[1..]);
      assert forall j :: 1 <= j < k + 1 ==> Known(ss[j]) by {
        forall j | 1 <= j < k + 1 ensures Known(ss[j]) { assert ss[j] == ss[1..][j - 1]; }
      }
      k + 1
  }

  function InputsOf<V>(ss: seq<State<V>>): Inputs {
    Inputs(|ss|, FirstUnknown(ss), set i: nat | i < |ss| && ss[i].outcome.Some?, set i: nat | i < |ss| && HasRun(ss[i]))
  }

  lemma KnownAdded<V>(s: State<V>)
    requires Inv(s) && Known(s)
    ensures WAITER in s.added
  {
    if WAITER in s.list { var k :| 0 <= k < |s.list| && s.list[k] == WAITER; }
  }

  /** The registered inputs are the first ones. */
  lemma KnownPrefix<V>(ss: seq<State<V>>)
    requires AllOk(ss)
    ensures forall j :: 0 <= j < |ss| ==> (Known(ss[j]) <==> j < FirstUnknown(ss))
  {
    hide Inv;
    forall j | 0 <= j < |ss| && Known(ss[j]) ensures j < FirstUnknown(ss) { KnownAdded(ss[j]); }
  }

  lemma AddedGrows<V>(s: State<V>, l: Label<V>)
    requires Inv(s) && Enabled(s, l)
    ensures WAITER in Next(s, l).added && WAITER !in s.added ==> l.Call? && l.op == OpAdd(WAITER)
  {
  }

  lemma ActedOk<V>(ss: seq<State<V>>, a: Act<V>)
    requires AllOk(ss) && CanAct(ss, a)
    ensures AllOk(Acted(ss, a))
  {
    hide Inv, Enabled, Next;
    var s, s' := ss[a.i], Next(ss[a.i], a.l);
    StepInv(s, a.l);
    StepEvent(s, a.l, a.i);
    AddedGrows(s, a.l);
    var ss' := Acted(ss, a);
    forall i, j | 0 <= j < i < |ss'| && WAITER in ss'[i].added ensures Known(ss'[j]) {
      assert Known(ss[j]);
    }
  }

  /** A step on one of the shared states is the event that it is, or nothing, to the inputs. */
  lemma ActIsEvent<V>(ss: seq<State<V>>, a: Act<V>)
    requires AllOk(ss) && CanAct(ss, a)
    ensures var e := EventOf(ss[a.i], Next(ss[a.i], a.l), a.i);
      if e.None? then InputsOf(Acted(ss, a)) == InputsOf(ss)
      else Possible(InputsOf(ss), e.value) && InputsOf(Acted(ss, a)) == After(InputsOf(ss), e.value)
  {
    hide Inv, Enabled, Next, Known, HasRun, InputsOf;
    var s, s' := ss[a.i], Next(ss[a.i], a.l);
    StepEvent(s, a.l, a.i);
    SetsChange(ss, a.i, s');
    ActedOk(ss, a);
    CountChanges(ss, Acted(ss, a), a.i);
  }

  lemma SetsChange<V>(ss: seq<State<V>>, i: nat, s': State<V>)
    requires i < |ss|
    ensures var (x, x') := (InputsOf(ss), InputsOf(ss[i := s']));
      && x.n == x'.n == |ss| && x.registered == FirstUnknown(ss) && x'.registered == FirstUnknown(ss[i := s'])
      && x'.ready == (if s'.outcome.Some? then x.ready + {i} else x.ready - {i})
      && x'.ran == (if HasRun(s') then x.ran + {i} else x.ran - {i})
      && (i in x.ready <==> ss[i].outcome.Some?) && (i in x.ran <==> HasRun(ss[i]))
  {
    hide Known, HasRun, FirstUnknown;
  }

  lemma CountChanges<V>(ss: seq<State<V>>, ss': seq<State<V>>, i: nat)
    requires AllOk(ss) && AllOk(ss') && i < |ss| == |ss'| && ss' == ss[i := ss'[i]] && (Known(ss[i]) ==> Known(ss'[i]))
    ensures Known(ss[i]) ==> i < FirstUnknown(ss)
    ensures Known(ss'[i]) && !Known(ss[i]) ==> FirstUnknown(ss) == i && FirstUnknown(ss') == i + 1
    ensures (Known(ss'[i]) <==> Known(ss[i])) ==> FirstUnknown(ss') == FirstUnknown(ss)
  {
    hide AllOk, Known, FirstUnknown;
    KnownPrefix(ss);
    KnownPrefix(ss');
    if !Known(ss[i]) && Known(ss'[i]) { OneMore(ss, ss', i); } else { SameCount(ss, ss'); }
  }

  lemma SameCount<V>(ss: seq<State<V>>, ss': seq<State<V>>)
    requires |ss| == |ss'| && forall j :: 0 <= j < |ss| ==> (Known(ss'[j]) <==> Known(ss[j]))
    ensures FirstUnknown(ss') == FirstUnknown(ss)
  {
  }

  lemma OneMore<V>(ss: seq<State<V>>, ss': seq<State<V>>, i: nat)
    requires |ss| == |ss'| && i < |ss| && !Known(ss[i]) && Known(ss'[i])
    requires forall j :: 0 <= j < |ss| && j != i ==> (Known(ss'[j]) <==> Known(ss[j]))
    requires forall j :: 0 <= j < |ss| ==> (Known(ss[j]) <==> j < FirstUnknown(ss))
    requires forall j :: 0 <= j < |ss| ==> (Known(ss'[j]) <==> j < FirstUnknown(ss'))
    ensures FirstUnknown(ss) == i && FirstUnknown(ss') == i + 1
  {
  }

  function ActExec<V>(ss: seq<State<V>>, acts: seq<Act<V>>): Option<seq<State<V>>>
    decreases |acts|
  {
    if acts == [] then Some(ss)
    else if CanAct(ss, acts[0]) then ActExec(Acted(ss, acts[0]), acts[1..])
    else None
  }

  function InputsExec(s: Inputs, es: seq<Event>): Option<Inputs>
    decreases |es|
  {
    if es == [] then Some(s) else if Possible(s, es[0]) then InputsExec(After(s, es[0]), es[1..]) else None
  }

  function EventsOf<V>(ss: seq<State<V>>, acts: seq<Act<V>>): seq<Event>
    requires ActExec(ss, acts).Some?
    decreases |acts|
  {
    if acts == [] then []
    else
      var e := EventOf(ss[acts[0].i], Next(ss[acts[0].i], acts[0].l), acts[0].i);
      (if e.Some? then [e.value] else []) + EventsOf(Acted(ss, acts[0]), acts[1..])
  }

  lemma {:induction false} ActsAreEvents<V>(ss: seq<State<V>>, acts: seq<Act<V>>)
    requires AllOk(ss) && ActExec(ss, acts).Some?
    ensures InputsExec(InputsOf(ss), EventsOf(ss, acts)) == Some(InputsOf(ActExec(ss, acts).value))
    decreases |acts|
  {
    hide AllOk, EventOf, InputsOf, Possible, After, Enabled, Next;
    if acts != [] {
      ActIsEvent(ss, acts[0]);
      ActedOk(ss, acts[0]);
      ActsAreEvents(Acted(ss, acts[0]), acts[1..]);
      var e := EventOf(ss[acts[0].i], Next(ss[acts[0].i], acts[0].l), acts[0].i);
      var rest := EventsOf(Acted(ss, acts[0]), acts[1..]);
      if e.Some? { assert ([e.value] + rest)[1..] == rest; } else { assert [] + rest == rest; }
    }
  }

  /** From any n reachable shared states to which the combinator has added nothing, every run of them is a
      run of the inputs, from the call with those ready that are. */
  lemma RunProjects<V(!new)>(ss: seq<State<V>>, acts: seq<Act<V>>)
    requires forall i :: 0 <= i < |ss| ==> Reachable(ss[i]) && WAITER !in ss[i].added
    requires ActExec(ss, acts).Some?
    ensures InputsOf(ss) == Inputs(|ss|, 0, InputsOf(ss).ready, {})
    ensures InputsExec(InputsOf(ss), EventsOf(ss, acts)) == Some(InputsOf(ActExec(ss, acts).value))
  {
    hide Inv, Reachable;
    forall i | 0 <= i < |ss| ensures Inv(ss[i]) && !Known(ss[i]) {
      ReachableInv(ss[i]);
      if Known(ss[i]) { KnownAdded(ss[i]); }
    }
    ActsAreEvents(ss, acts);
  }
}
