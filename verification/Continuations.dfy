/** future::then: continuations on continuations, in any order with the values that start them. */
module Continuations {
  import opened Basics
  import opened SharedStateModel
  import Runs = SharedStateRuns

  // ----- A forest of futures -----

  /** Every future comes from a promise or from a then() on an earlier future. */
  datatype Node<!V> = Promise | Then(parent: nat, f: Outcome<V> -> V)

  /** One future: its outcome, the continuations registered on it, whether its own continuation is due
      and has not run, and how often it ran. */
  datatype Future<V> = Future(outcome: Option<Outcome<V>>, list: seq<nat>, due: bool, runs: nat)

  datatype State<!V> = State(nodes: seq<Node<V>>, futures: seq<Future<V>>, given: map<nat, Outcome<V>>)

  function Empty<V>(): State<V> {
    State([], [], map[])
  }

  /** What the functions along the path from its promise make of the value given to the promise. */
  function Meaning<V>(nodes: seq<Node<V>>, given: map<nat, Outcome<V>>, g: nat): Option<Outcome<V>> {
    if g >= |nodes| then None
    else match nodes[g]
      case Promise => if g in given then Some(given[g]) else None
      case Then(p, f) =>
        if p >= g then None
        else match Meaning(nodes, given, p)
          case Some(o) => Some(Outcome.Value(f(o)))
          case None => None
  }

  /** The continuations of the list become due: the notification loop will run each of them. */
  function MakeDue<V>(fs: seq<Future<V>>, list: seq<nat>): seq<Future<V>> {
    seq(|fs|, i requires 0 <= i < |fs| => if i in list then fs[i].(due := true) else fs[i])
  }

  /** set_value(): the outcome is there, and the list is frozen. */
  function Assign<V>(fs: seq<Future<V>>, g: nat, o: Outcome<V>): seq<Future<V>>
    requires g < |fs|
  {
    MakeDue(fs[g := fs[g].(outcome := Some(o))], fs[g].list)
  }

  datatype Label<!V> =
    | NewPromise
    | NewThen(p: nat, f: Outcome<V> -> V)
    | Give(g: nat, o: Outcome<V>)
    | RunDue(g: nat)

  predicate Enabled<V>(s: State<V>, l: Label<V>) {
    && |s.futures| == |s.nodes|
    && (match l
        case NewPromise => true
        case NewThen(p, _) => p < |s.nodes|
        case Give(g, _) => g < |s.nodes| && s.nodes[g].Promise? && s.futures[g].outcome.None?
        case RunDue(g) => CanRun(s, g))
  }

  predicate CanRun<V>(s: State<V>, g: nat)
    requires |s.futures| == |s.nodes|
  {
    && g < |s.nodes| && s.futures[g].due && s.nodes[g].Then? && s.nodes[g].parent < |s.nodes|
    && s.futures[s.nodes[g].parent].outcome.Some?
  }

  /** then() on a future that is ready: the continuation is due at once; otherwise it is registered. */
  function AddThen<V>(s: State<V>, p: nat, f: Outcome<V> -> V): State<V>
    requires p < |s.futures|
  {
    var ready, g := s.futures[p].outcome.Some?, |s.futures|;
    var fs := if ready then s.futures else s.futures[p := s.futures[p].(list := s.futures[p].list + [g])];
    s.(nodes := s.nodes + [Then(p, f)], futures := fs + [Future(None, [], ready, 0)])
  }

  function RunOne<V>(s: State<V>, g: nat): State<V>
    requires Enabled(s, RunDue(g))
  {
    var o := s.futures[s.nodes[g].parent].outcome.value;
    var fs := s.futures[g := s.futures[g].(due := false, runs := s.futures[g].runs + 1)];
    s.(futures := Assign(fs, g, Outcome.Value(s.nodes[g].f(o))))
  }

  function Next<V>(s: State<V>, l: Label<V>): State<V>
    requires Enabled(s, l)
  {
    match l
    case NewPromise => s.(nodes := s.nodes + [Promise], futures := s.futures + [Future(None, [], false, 0)])
    case NewThen(p, f) => AddThen(s, p, f)
    case Give(g, o) => s.(futures := Assign(s.futures, g, o), given := s.given[g := o])
    case RunDue(g) => RunOne(s, g)
  }

  function Exec<V>(s: State<V>, ls: seq<Label<V>>): Option<State<V>>
    decreases |ls|
  {
    if ls == [] then Some(s) else if Enabled(s, ls[0]) then Exec(Next(s, ls[0]), ls[1..]) else None
  }

  ghost predicate Reachable<V(!new)>(s: State<V>) {
    exists ls: seq<Label<V>> :: Exec(Empty(), ls) == Some(s)
  }

  // ----- The invariant -----

  ghost predicate ThenOk<V>(up: Future<V>, u: Future<V>, g: nat, f: Outcome<V> -> V) {
    if up.outcome.None? then g in up.list && !u.due && u.runs == 0 && u.outcome.None?
    else if u.due then u.runs == 0 && u.outcome.None?
    else u.runs == 1 && u.outcome == Some(Outcome.Value(f(up.outcome.value)))
  }

  /** A promise has what it was given; a continuation waits in the list of its parent, is due, or has run
      once and left what its function makes of the parent. */
  ghost predicate FutureOk<V>(s: State<V>, g: nat)
    requires |s.futures| == |s.nodes| && g < |s.nodes|
  {
    var u := s.futures[g];
    match s.nodes[g]
    case Promise =>
      && !u.due && u.runs == 0
      && u.outcome == (if g in s.given then Some(s.given[g]) else None)
    case Then(p, f) =>
      p < g && g !in s.given && ThenOk(s.futures[p], u, g, f)
  }

  /** Only continuations of a future are in its list. */
  ghost predicate ListOk<V>(s: State<V>, p: nat)
    requires |s.futures| == |s.nodes| && p < |s.nodes|
  {
    forall g :: g in s.futures[p].list ==> p < g < |s.nodes| && s.nodes[g].Then? && s.nodes[g].parent == p
  }

  ghost predicate Inv<V>(s: State<V>) {
    && |s.futures| == |s.nodes|
    && (forall g :: 0 <= g < |s.nodes| ==> FutureOk(s, g))
    && (forall p :: 0 <= p < |s.nodes| ==> ListOk(s, p))
    && (forall g :: g in s.given ==> g < |s.nodes|)
  }

  /** g is about to become ready as it should: with what was given, or by the one run of its function. */
  ghost predicate Assignable<V>(s: State<V>, given: map<nat, Outcome<V>>, g: nat, o: Outcome<V>)
    requires |s.futures| == |s.nodes| && g < |s.nodes|
  {
    match s.nodes[g]
    case Promise => s.futures[g].runs == 0 && g in given && given[g] == o
    case Then(p, f) =>
      p < g && g !in s.given && s.futures[g].runs == 1 && s.futures[p].outcome.Some?
      && o == Outcome.Value(f(s.futures[p].outcome.value))
  }

  lemma AssignInv<V>(s: State<V>, s': State<V>, g: nat, o: Outcome<V>)
    requires |s.futures| == |s.nodes| && g < |s.nodes| && s'.nodes == s.nodes
    requires s'.futures == Assign(s.futures, g, o) && s.futures[g].outcome.None? && !s.futures[g].due
    requires forall h :: 0 <= h < |s.nodes| && h != g ==> FutureOk(s, h)
    requires forall p :: 0 <= p < |s.nodes| ==> ListOk(s, p)
    requires forall h :: h in s'.given <==> h in s.given || (h == g && s.nodes[g].Promise?)
    requires forall h :: h in s.given && h != g ==> s'.given[h] == s.given[h]
    requires forall h :: h in s.given ==> h < |s.nodes|
    requires Assignable(s, s'.given, g, o)
    ensures Inv(s')
  {
    forall h | 0 <= h < |s'.nodes| ensures FutureOk(s', h) {
      if h != g { assert FutureOk(s, h); assert ListOk(s, g); }
      else { assert ListOk(s, g); }
    }
    forall p | 0 <= p < |s'.nodes| ensures ListOk(s', p) { assert ListOk(s, p); }
  }

  lemma NewThenInv<V>(s: State<V>, p: nat, f: Outcome<V> -> V)
    requires Inv(s) && p < |s.nodes|
    ensures Inv(AddThen(s, p, f))
  {
    var s' := AddThen(s, p, f);
    forall h | 0 <= h < |s'.nodes| ensures FutureOk(s', h) {
      if h < |s.nodes| { assert FutureOk(s, h); }
    }
    forall q | 0 <= q < |s'.nodes| ensures ListOk(s', q) {
      if q < |s.nodes| { assert ListOk(s, q); }
    }
  }

  lemma NewPromiseInv<V>(s: State<V>)
    requires Inv(s)
    ensures Inv(Next(s, NewPromise))
  {
    var s' := Next(s, NewPromise);
    forall h | 0 <= h < |s'.nodes| ensures FutureOk(s', h) {
      if h < |s.nodes| { assert FutureOk(s, h); }
    }
    forall q | 0 <= q < |s'.nodes| ensures ListOk(s', q) {
      if q < |s.nodes| { assert ListOk(s, q); }
    }
  }

  lemma RunDueInv<V>(s: State<V>, g: nat)
    requires Inv(s) && Enabled(s, RunDue(g))
    ensures Inv(RunOne(s, g))
  {
    var s1 := s.(futures := s.futures[g := s.futures[g].(due := false, runs := s.futures[g].runs + 1)]);
    assert FutureOk(s, g);
    forall h | 0 <= h < |s.nodes| && h != g ensures FutureOk(s1, h) { assert FutureOk(s, h); }
    forall p | 0 <= p < |s.nodes| ensures ListOk(s1, p) { assert ListOk(s, p); }
    AssignInv(s1, RunOne(s, g), g, Outcome.Value(s.nodes[g].f(s.futures[s.nodes[g].parent].outcome.value)));
  }

  lemma StepInv<V>(s: State<V>, l: Label<V>)
    requires Inv(s) && Enabled(s, l)
    ensures Inv(Next(s, l))
  {
    match l {
      case NewPromise => NewPromiseInv(s);
      case NewThen(p, f) => NewThenInv(s, p, f);
      case Give(g, o) => assert FutureOk(s, g); AssignInv(s, Next(s, l), g, o);
      case RunDue(g) => RunDueInv(s, g);
    }
  }

  lemma {:induction false} ExecInv<V>(s: State<V>, ls: seq<Label<V>>)
    requires Inv(s) && Exec(s, ls).Some?
    ensures Inv(Exec(s, ls).value)
    decreases |ls|
  {
    if ls != [] {
      StepInv(s, ls[0]);
      ExecInv(Next(s, ls[0]), ls[1..]);
    }
  }

  lemma ReachableInv<V(!new)>(s: State<V>)
    requires Reachable(s)
    ensures Inv(s)
  {
    var ls: seq<Label<V>> :| Exec(Empty(), ls) == Some(s);
    ExecInv(Empty<V>(), ls);
  }

  // ----- What is promised -----

  lemma {:induction false} MeaningWhenReady<V>(s: State<V>, g: nat)
    requires Inv(s) && g < |s.nodes| && s.futures[g].outcome.Some?
    ensures Meaning(s.nodes, s.given, g) == s.futures[g].outcome
  {
    assert FutureOk(s, g);
    if s.nodes[g].Then? { MeaningWhenReady(s, s.nodes[g].parent); }
  }

  /** Whatever the order in which continuations were added and values arrived, a future that is ready
      has the composition of the functions on its path, applied to what its promise was given; its
      continuation ran exactly once, and after its source was ready. */
  lemma ReadyMeans<V(!new)>(s: State<V>, g: nat)
    requires Reachable(s) && g < |s.nodes| && g < |s.futures| && s.futures[g].outcome.Some?
    ensures s.futures[g].outcome == Meaning(s.nodes, s.given, g)
    ensures s.nodes[g].Then? ==>
      s.futures[g].runs == 1 && s.nodes[g].parent < g && s.futures[s.nodes[g].parent].outcome.Some?
  {
    ReachableInv(s);
    assert FutureOk(s, g);
    MeaningWhenReady(s, g);
  }

  predicate Quiescent<V>(s: State<V>) {
    forall g :: 0 <= g < |s.futures| ==> !s.futures[g].due
  }

  lemma {:induction false} MeaningWhenQuiescent<V>(s: State<V>, g: nat)
    requires Inv(s) && Quiescent(s) && g < |s.nodes|
    ensures s.futures[g].outcome == Meaning(s.nodes, s.given, g)
    ensures s.nodes[g].Then? ==> s.futures[g].runs == if s.futures[g].outcome.Some? then 1 else 0
  {
    assert FutureOk(s, g);
    if s.nodes[g].Then? { MeaningWhenQuiescent(s, s.nodes[g].parent); }
  }

  /** When no continuation is due the outcomes are a function of the forest and of the values given:
      the order of then() and set_value() does not show. */
  lemma OrderDoesNotMatter<V(!new)>(s: State<V>, s': State<V>, g: nat)
    requires Reachable(s) && Reachable(s') && Quiescent(s) && Quiescent(s')
    requires s.nodes == s'.nodes && s.given == s'.given && g < |s.nodes|
    ensures |s.futures| == |s.nodes| == |s'.futures|
    ensures s.futures[g].outcome == s'.futures[g].outcome && s.futures[g].runs == s'.futures[g].runs
  {
    ReachableInv(s);
    ReachableInv(s');
    MeaningWhenQuiescent(s, g);
    MeaningWhenQuiescent(s', g);
    if s.nodes[g].Promise? { assert FutureOk(s, g) && FutureOk(s', g); }
  }

  /** A due continuation can always run, so quiescence can be reached. */
  lemma DueCanRun<V(!new)>(s: State<V>, g: nat)
    requires Reachable(s) && g < |s.futures| && s.futures[g].due
    ensures Enabled(s, RunDue(g))
  {
    ReachableInv(s);
    assert FutureOk(s, g);
  }

  // ----- Chains -----

  function Apply<V>(fs: seq<Outcome<V> -> V>, o: Outcome<V>): Outcome<V>
    decreases |fs|
  {
    if fs == [] then o else Outcome.Value(fs[|fs| - 1](Apply(fs[..|fs| - 1], o)))
  }

  function Applied<V>(fs: seq<Outcome<V> -> V>, o: Option<Outcome<V>>): Option<Outcome<V>> {
    if o.Some? then Some(Apply(fs, o.value)) else None
  }

  /** gs is a chain: each future is the then() of the one before it. */
  ghost predicate IsChain<V(!new)>(nodes: seq<Node<V>>, gs: seq<nat>, fs: seq<Outcome<V> -> V>) {
    && |gs| == |fs| + 1
    && (forall i :: 0 <= i < |gs| ==> gs[i] < |nodes|)
    && (forall i :: 0 <= i < |fs| ==> gs[i] < gs[i + 1] && nodes[gs[i + 1]] == Then(gs[i], fs[i]))
  }

  lemma {:induction false} ChainMeaning<V(!new)>(nodes: seq<Node<V>>, given: map<nat, Outcome<V>>,
                                                 gs: seq<nat>, fs: seq<Outcome<V> -> V>)
    requires IsChain(nodes, gs, fs)
    ensures Meaning(nodes, given, gs[|fs|])
         == Applied(fs, Meaning(nodes, given, gs[0]))
    decreases |fs|
  {
    if fs != [] {
      var n := |fs| - 1;
      assert IsChain(nodes, gs[..n + 1], fs[..n]);
      ChainMeaning(nodes, given, gs[..n + 1], fs[..n]);
    }
  }

  /** A chain of any length: when the promise was given o and nothing is due, the last future has the
      composition of all the functions applied to o. */
  lemma ChainIsComposition<V(!new)>(s: State<V>, gs: seq<nat>, fs: seq<Outcome<V> -> V>, o: Outcome<V>)
    requires Reachable(s) && Quiescent(s) && IsChain(s.nodes, gs, fs)
    requires s.nodes[gs[0]].Promise? && gs[0] in s.given && s.given[gs[0]] == o
    ensures |s.futures| == |s.nodes| && s.futures[gs[|fs|]].outcome == Some(Apply(fs, o))
  {
    ReachableInv(s);
    MeaningWhenQuiescent(s, gs[|fs|]);
    ChainMeaning(s.nodes, s.given, gs, fs);
  }

  // ----- The waiter of one then() -----

  /** The functions registered on shared states are named by the node of their result. */
  class Continuation<V(0)> {
    const src: SharedState<V>
    const p: SharedState<V>
    const f: Outcome<V> -> V

    /** The shared states of the source and of the promise are those of node g and of its parent. */
    ghost predicate Represents(s: State<V>, g: nat)
      reads src, p
    {
      && |s.futures| == |s.nodes| && g < |s.nodes| && s.nodes[g].Then? && s.nodes[g].f == f && s.nodes[g].parent < g
      && src.Valid() && src.Result() == s.futures[s.nodes[g].parent].outcome
      && src.extWaiters == s.futures[s.nodes[g].parent].list
      && p.Valid() && p.Result() == s.futures[g].outcome && p.extWaiters == s.futures[g].list
    }

    constructor (src: SharedState<V>, p: SharedState<V>, f: Outcome<V> -> V)
      ensures this.src == src && this.p == p && this.f == f
    {
      this.src, this.p, this.f := src, p, f;
    }

    /** invoke(): the step of the forest that runs the continuation of g. The promise is not refused, and
        every continuation registered on it is started. */
    method Invoke(mtx: Lock, ext: Waiters, ghost s: State<V>, ghost g: nat, ghost q: Runs.State<V>, ghost t: Tid)
      returns (ok: bool)
      requires Inv(s) && Represents(s, g) && Enabled(s, RunDue(g)) && src != p
      requires p.Represents(q) && mtx.held && multiset(ext.ran) == q.ran
      modifies p, mtx, ext
      ensures ok && mtx.held && Represents(RunOne(s, g), g)
      ensures ext.ran == old(ext.ran) + s.futures[g].list
      ensures forall h :: h in s.futures[g].list ==> h < |s.futures| && RunOne(s, g).futures[h].due
    {
      assert FutureOk(s, g) && ListOk(s, g);
      var o := if src.except.Some? then Raised(src.except.value) else Outcome.Value(src.value.value);
      ok := p.Set(Outcome.Value(f(o)), mtx, ext, q, t);
      AssignedParent(s, g);
    }
  }

  lemma AssignedParent<V>(s: State<V>, g: nat)
    requires Inv(s) && Enabled(s, RunDue(g))
    ensures var (up, fs) := (s.nodes[g].parent, RunOne(s, g).futures);
      && up < g < |fs| == |s.futures| && fs[up] == s.futures[up] && fs[g].list == s.futures[g].list
      && fs[g].outcome == Some(Outcome.Value(s.nodes[g].f(s.futures[up].outcome.value)))
  {
    assert FutureOk(s, g) && ListOk(s, g);
  }
}
