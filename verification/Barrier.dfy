/** The cyclic barrier: count, generation and the completion function that may change the size. */
module BarrierModel {
  import opened Basics

  /** The history of one generation: its size, how many threads arrived, who of them is still inside
      wait(), and how many returned true and false. */
  datatype Round = Round(size: nat, arrived: nat, inside: set<Tid>, trues: nat, falses: nat)

  /** `parked` is the queue of m_cond, `gen` the local variable of every thread inside wait(); `rounds`
      is the history, indexed by generation. */
  datatype State = State(count: nat, generation: nat, parked: seq<Tid>, gen: map<Tid, nat>, rounds: seq<Round>)

  datatype Outcome = Waits | Returns(last: bool)

  function Fresh(count: nat): State {
    State(count, 0, [], map[], [Round(count, 0, {}, 0, 0)])
  }

  /** t arrives at the current generation; the last one to arrive does not stay inside. */
  function Arrived(r: Round, t: Tid, last: bool): Round {
    if last then r.(arrived := r.arrived + 1, trues := r.trues + 1)
    else r.(arrived := r.arrived + 1, inside := r.inside + {t})
  }

  /** wait() up to its return or its first wait; `size` is what the completion function returns. */
  function Arrive(s: State, t: Tid, size: nat): (State, Outcome)
    requires s.count > 0 && s.generation < |s.rounds|
  {
    var rounds := s.rounds[s.generation := Arrived(s.rounds[s.generation], t, s.count == 1)];
    if s.count == 1 then
      (State(size, s.generation + 1, [], s.gen, rounds + [Round(size, 0, {}, 0, 0)]), Returns(true))
    else
      (State(s.count - 1, s.generation, s.parked + [t], s.gen[t := s.generation], rounds), Waits)
  }

  /** A notified thread looks at the generation again. */
  function Again(s: State, t: Tid): (State, Outcome)
    requires t in s.gen && s.gen[t] < |s.rounds|
  {
    var g, r := s.gen[t], s.rounds[s.gen[t]];
    if g == s.generation then (s.(parked := s.parked + [t]), Waits)
    else
      var r' := r.(inside := r.inside - {t}, falses := r.falses + 1);
      (s.(gen := s.gen - {t}, rounds := s.rounds[g := r']), Returns(false))
  }

  class Barrier {
    var count: nat
    var generation: nat
    var cond: seq<Tid>
    ghost var gen: map<Tid, nat>
    ghost var rounds: seq<Round>

    ghost function Abs(): State
      reads this
    {
      State(count, generation, cond, gen, rounds)
    }

    /** The constructor throws for a count of 0. */
    static method Create(count: nat) returns (b: Option<Barrier>)
      ensures b.None? <==> count == 0
      ensures b.Some? ==> fresh(b.value) && b.value.Abs() == Fresh(count)
      ensures b.Some? ==> b.value.count == count && b.value.generation == 0 && b.value.cond == [] && b.value.gen == map[]
      ensures b.Some? ==> b.value.rounds == [Round(count, 0, {}, 0, 0)]
    {
      if count == 0 {
        return None;
      }
      var made := new Barrier(count);
      b := Some(made);
    }

    constructor (count: nat)
      requires count != 0
      ensures Abs() == Fresh(count)
      ensures this.count == count && generation == 0 && cond == [] && gen == map[] && rounds == [Round(count, 0, {}, 0, 0)]
    {
      this.count := count;
      generation := 0;
      cond := [];
      gen := map[];
      rounds := [Round(count, 0, {}, 0, 0)];
    }

    /** `woken` are the threads that the notification wakes. */
    method DoArrive(t: Tid, size: nat) returns (r: Outcome, woken: seq<Tid>)
      requires count > 0 && generation < |rounds| && size != 0
      modifies this
      ensures (Abs(), r) == Arrive(old(Abs()), t, size)
      ensures woken + cond == if r.Waits? then old(cond) + [t] else old(cond)
    {
      rounds := rounds[generation := Arrived(rounds[generation], t, count == 1)];
      count := count - 1;
      if count == 0 {
        generation := generation + 1;
        count := size;
        assert count != 0;
        rounds := rounds + [Round(size, 0, {}, 0, 0)];
        woken := cond;
        cond := [];
        return Returns(true), woken;
      }
      gen := gen[t := generation];
      cond := cond + [t];
      return Waits, [];
    }

    method DoAgain(t: Tid, g: nat) returns (r: Outcome)
      requires t in gen && gen[t] == g && g < |rounds|
      modifies this
      ensures (Abs(), r) == Again(old(Abs()), t)
    {
      if g == generation {
        cond := cond + [t];
        return Waits;
      }
      gen := gen - {t};
      rounds := rounds[g := rounds[g].(inside := rounds[g].inside - {t}, falses := rounds[g].falses + 1)];
      return Returns(false);
    }
  }

  // ----- Runs -----

  /** The completion function must not return 0. */
  datatype Label = LArrive(t: Tid, size: nat) | LAgain(t: Tid)

  predicate Enabled(s: State, l: Label) {
    match l
    case LArrive(t, size) => t !in s.gen && size > 0 && s.count > 0 && s.generation < |s.rounds|
    case LAgain(t) => t in s.gen && t !in s.parked && s.gen[t] < |s.rounds|
  }

  function Next(s: State, l: Label): State
    requires Enabled(s, l)
  {
    match l
    case LArrive(t, size) => Arrive(s, t, size).0
    case LAgain(t) => Again(s, t).0
  }

  function Exec(s: State, ls: seq<Label>): Option<State>
    decreases |ls|
  {
    if ls == [] then Some(s) else if Enabled(s, ls[0]) then Exec(Next(s, ls[0]), ls[1..]) else None
  }

  ghost predicate Reachable(s: State) {
    exists n: nat, ls: seq<Label> :: n > 0 && Exec(Fresh(n), ls) == Some(s)
  }

  /** A generation before the current one: everybody arrived, the last one returned true, and the
      others returned false or are inside and awake. */
  predicate Completed(r: Round) {
    r.arrived == r.size && r.trues == 1 && r.falses + |r.inside| == r.size - 1
  }

  predicate Open(r: Round) {
    r.arrived < r.size && r.trues == 0 && r.falses == 0 && r.arrived == |r.inside|
  }

  ghost predicate Inv(s: State) {
    && |s.rounds| == s.generation + 1
    && Open(s.rounds[s.generation])
    && s.count + s.rounds[s.generation].arrived == s.rounds[s.generation].size
    && (forall g :: 0 <= g < s.generation ==> Completed(s.rounds[g]))
    && NoDup(s.parked)
    && (forall t :: t in s.parked <==> t in s.rounds[s.generation].inside)
    && (forall t :: t in s.gen ==> s.gen[t] < |s.rounds| && t in s.rounds[s.gen[t]].inside)
    && (forall g, t :: 0 <= g < |s.rounds| && t in s.rounds[g].inside ==> t in s.gen && s.gen[t] == g)
  }

  lemma LastArriveInv(s: State, t: Tid, size: nat)
    requires Inv(s) && t !in s.gen && size > 0 && s.count == 1
    ensures Inv(Arrive(s, t, size).0)
  {
    var s' := Arrive(s, t, size).0;
    forall g | 0 <= g < s'.generation ensures Completed(s'.rounds[g]) {
      if g < s.generation { assert Completed(s.rounds[g]); }
    }
  }

  lemma ArriveInv(s: State, t: Tid, size: nat)
    requires Inv(s) && t !in s.gen && size > 0 && s.count > 0
    ensures Inv(Arrive(s, t, size).0)
  {
    hide Completed;
    if s.count == 1 {
      LastArriveInv(s, t, size);
    } else {
      assert t !in s.rounds[s.generation].inside;
      assert forall u :: u in s.parked + [t] <==> u in s.parked || u == t;
    }
  }

  lemma AgainInv(s: State, t: Tid)
    requires Inv(s) && t in s.gen && t !in s.parked
    ensures Inv(Again(s, t).0) && Again(s, t).1 == Returns(false)
  {
    var s', g := Again(s, t).0, s.gen[t];
    assert t in s.rounds[g].inside && g != s.generation && Completed(s.rounds[g]);
    forall h | 0 <= h < s'.generation ensures Completed(s'.rounds[h]) { assert Completed(s.rounds[h]); }
  }

  lemma StepInv(s: State, l: Label)
    requires Inv(s) && Enabled(s, l)
    ensures Inv(Next(s, l))
  {
    match l {
      case LArrive(t, size) => ArriveInv(s, t, size);
      case LAgain(t) => AgainInv(s, t);
    }
  }

  lemma {:induction false} ExecInv(s: State, ls: seq<Label>)
    requires Inv(s) && Exec(s, ls).Some?
    ensures Inv(Exec(s, ls).value)
    decreases |ls|
  {
    if ls != [] {
      StepInv(s, ls[0]);
      ExecInv(Next(s, ls[0]), ls[1..]);
    }
  }

  lemma ReachableInv(s: State)
    requires Reachable(s)
    ensures Inv(s)
  {
    var n: nat, ls: seq<Label> :| n > 0 && Exec(Fresh(n), ls) == Some(s);
    ExecInv(Fresh(n), ls);
  }

  // ----- What is promised -----

  /** m_count counts down the arrivals of the current generation, none of which has returned, and the
      threads parked are exactly those. */
  lemma CurrentGeneration(s: State)
    requires Reachable(s)
    ensures |s.rounds| == s.generation + 1
    ensures var r := s.rounds[s.generation];
      && 0 < s.count && s.count + r.arrived == r.size
      && r.trues == 0 && r.falses == 0
      && (forall t :: t in s.parked <==> t in s.gen && s.gen[t] == s.generation)
  {
    ReachableInv(s);
  }

  /** In a completed generation of size n the n-th arrival returned true; when nobody of it is inside
      any more, exactly one wait() returned true and n - 1 returned false. */
  lemma OneTruePerGeneration(s: State, g: nat)
    requires Reachable(s) && g < s.generation
    ensures g < |s.rounds|
    ensures s.rounds[g].arrived == s.rounds[g].size && s.rounds[g].trues == 1
    ensures s.rounds[g].falses + |s.rounds[g].inside| == s.rounds[g].size - 1
    ensures (forall t :: t in s.gen ==> s.gen[t] != g) ==> s.rounds[g].falses == s.rounds[g].size - 1
  {
    ReachableInv(s);
    assert Completed(s.rounds[g]);
    if s.rounds[g].inside != {} {
      var t :| t in s.rounds[g].inside;
      assert t in s.gen && s.gen[t] == g;
    }
  }

  /** Nobody is left behind: a thread of a completed generation is awake, and its next look at the
      generation makes it return false. */
  lemma NobodyLeftBehind(s: State, t: Tid)
    requires Reachable(s) && t in s.gen && s.gen[t] < s.generation
    ensures t !in s.parked && Enabled(s, LAgain(t)) && Again(s, t).1 == Returns(false)
  {
    ReachableInv(s);
  }

  /** Nobody returns early: an arrival returns only if it is the last one of its generation, and nobody
      of the current generation is awake. */
  lemma NobodyReturnsEarly(s: State, t: Tid, size: nat)
    requires Reachable(s) && Enabled(s, LArrive(t, size))
    ensures var r := s.rounds[s.generation];
      Arrive(s, t, size).1 == if r.arrived + 1 == r.size then Returns(true) else Waits
    ensures forall u :: u in s.gen && s.gen[u] == s.generation ==> !Enabled(s, LAgain(u))
  {
    ReachableInv(s);
  }

  /** The size of the next generation is what the completion function returned, whatever it was before. */
  lemma NextSize(s: State, t: Tid, size: nat)
    requires Reachable(s) && Enabled(s, LArrive(t, size)) && Arrive(s, t, size).1 == Returns(true)
    ensures var s' := Next(s, LArrive(t, size));
      && s'.generation == s.generation + 1 && s'.count == size && s'.parked == []
      && |s'.rounds| == |s.rounds| + 1 && s'.rounds[s'.generation].size == size
      && s'.rounds[s.generation].size == s.rounds[s.generation].size
  {
    ReachableInv(s);
  }
}
