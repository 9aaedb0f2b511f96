/** async_wait_for_any(): a waiter tests `is_set_`, sets it, and sets the promise, in three steps. The
    promise gets one value, of an input that is ready, but a second waiter can be refused. */
module AsyncWaitForAny {
  import opened Basics
  import opened Combinators

  /** Waiters that are about to test, to set the flag, and to set the promise; `own` is the input whose
      waiter the last registration ran itself, if it did; `refused` counts promise_already_satisfied. */
  datatype AsyncAny = AsyncAny(inputs: Inputs, own: Option<nat>, isSet: bool,
                               started: set<nat>, passed: set<nat>, setting: set<nat>,
                               result: Option<nat>, refused: nat)

  datatype Label = Happens(e: Event) | Check(i: nat) | SetFlag(i: nat) | Fulfil(i: nat)

  /** The call, when the inputs in `ready` are ready. */
  function Call(n: nat, ready: set<nat>): AsyncAny {
    AsyncAny(Inputs(n, 0, ready, {}), None, false, {}, {}, {}, None, 0)
  }

  function InFlight(s: AsyncAny): set<nat> { s.started + s.passed + s.setting }

  /** The calling thread is still inside a waiter that its last registration runs. */
  predicate Busy(s: AsyncAny) { s.own.Some? && s.own.value in InFlight(s) }

  predicate Enabled(s: AsyncAny, l: Label) {
    match l
    case Happens(e) => Possible(s.inputs, e) && (e.Register? ==> !Busy(s))
    case Check(i) => i in s.started
    case SetFlag(i) => i in s.passed
    case Fulfil(i) => i in s.setting
  }

  function Next(s: AsyncAny, l: Label): AsyncAny
    requires Enabled(s, l)
  {
    match l
    case Happens(e) =>
      s.(inputs := After(s.inputs, e),
         started := if Runs(s.inputs, e) then s.started + {Runner(s.inputs, e)} else s.started,
         own := if !e.Register? then s.own else if Runs(s.inputs, e) then Some(s.inputs.registered) else None)
    case Check(i) => s.(started := s.started - {i}, passed := if s.isSet then s.passed else s.passed + {i})
    case SetFlag(i) => s.(passed := s.passed - {i}, setting := s.setting + {i}, isSet := true)
    case Fulfil(i) =>
      if s.result.Some? then s.(setting := s.setting - {i}, refused := s.refused + 1)
      else s.(setting := s.setting - {i}, result := Some(i))
  }

  function Exec(s: AsyncAny, ls: seq<Label>): Option<AsyncAny>
    decreases |ls|
  {
    if ls == [] then Some(s) else if Enabled(s, ls[0]) then Exec(Next(s, ls[0]), ls[1..]) else None
  }

  /** set_value(), run without interruption by a waiter that has just started. */
  function SetValueOf(s: AsyncAny, i: nat): AsyncAny
    requires i in s.started
  {
    var s1 := Next(s, Check(i));
    if s.isSet then s1 else Next(Next(s1, SetFlag(i)), Fulfil(i))
  }

  class AsyncAnyState {
    var isSet: bool
    /** The value of the promise, and how often it refused another. */
    var result: Option<nat>
    var refused: nat

    ghost predicate Represents(s: AsyncAny)
      reads this
    {
      s.isSet == isSet && s.result == result && s.refused == refused
    }

    constructor ()
      ensures forall n, ready :: Represents(Call(n, ready))
    {
      isSet, result, refused := false, None, 0;
    }

    method SetValue(v: nat, ghost s: AsyncAny)
      requires Represents(s) && v in s.started
      modifies this
      ensures Represents(SetValueOf(s, v))
    {
      if isSet {
        return;
      }
      isSet := true;
      if result.Some? {
        refused := refused + 1;
      } else {
        result := Some(v);
      }
    }
  }

  // ----- What holds in every run -----

  ghost predicate Inv(s: AsyncAny) {
    && InputsOk(s.inputs) && s.started !! s.passed !! s.setting && InFlight(s) <= s.inputs.ran
    && (s.result.Some? ==> s.isSet && s.result.value in s.inputs.ran && s.result.value !in InFlight(s))
    && (s.inputs.ran != {} && InFlight(s) == {} ==> s.result.Some?)
    && (s.setting != {} ==> s.isSet) && (s.isSet && s.result.None? ==> s.setting != {})
  }

  lemma StepInv(s: AsyncAny, l: Label)
    requires Inv(s) && Enabled(s, l)
    ensures Inv(Next(s, l)) && Next(s, l).inputs.n == s.inputs.n
    ensures s.result.Some? ==> Next(s, l).result == s.result
  {
    match l {
      case Happens(e) => InputsStep(s.inputs, e); assert Runs(s.inputs, e) ==> Runner(s.inputs, e) in Next(s, l).started;
      case Check(i) => assert !s.isSet ==> i in Next(s, l).passed;
      case SetFlag(i) => assert i in Next(s, l).setting;
      case Fulfil(i) =>
    }
  }

  lemma {:induction false} ExecInv(s: AsyncAny, ls: seq<Label>)
    requires Inv(s) && Exec(s, ls).Some?
    ensures Inv(Exec(s, ls).value) && Exec(s, ls).value.inputs.n == s.inputs.n
    ensures s.result.Some? ==> Exec(s, ls).value.result == s.result
    decreases |ls|
  {
    if ls != [] {
      StepInv(s, ls[0]);
      ExecInv(Next(s, ls[0]), ls[1..]);
    }
  }

  /** The promise gets the index of an input that is ready and keeps it; and it has got one once some
      waiter has run and none is in flight. */
  lemma AsyncWaitForAnyResult(n: nat, ready: set<nat>, ls: seq<Label>, more: seq<Label>)
    requires ready <= Below(n) && Exec(Call(n, ready), ls).Some?
    ensures var s := Exec(Call(n, ready), ls).value;
      && (s.result.Some? ==> s.result.value < n && s.result.value in s.inputs.ready)
      && (s.inputs.ran != {} && InFlight(s) == {} ==> s.result.Some?)
      && (s.result.Some? && Exec(s, more).Some? ==> Exec(s, more).value.result == s.result)
  {
    ExecInv(Call(n, ready), ls);
    var s := Exec(Call(n, ready), ls).value;
    if Exec(s, more).Some? { ExecInv(s, more); }
  }

  // ----- When a waiter can be refused -----

  /** Until the promise is set only the waiter of the first input runs. */
  ghost predicate FirstAlone(s: AsyncAny) {
    && Inv(s) && s.refused == 0 && (s.inputs.n >= 2 ==> 0 in s.inputs.ready)
    && (s.result.None? ==> s.inputs.registered <= 1 && s.inputs.ran <= {0})
    && (s.result.None? && s.inputs.registered == 1 && s.inputs.n >= 2 ==> s.own == Some(0) && 0 in InFlight(s))
    && (s.result.Some? ==> s.passed == {} && s.setting == {})
  }

  lemma StaysAlone(s: AsyncAny, l: Label)
    requires FirstAlone(s) && Enabled(s, l)
    ensures FirstAlone(Next(s, l))
  {
    StepInv(s, l);
    if s.result.None? && InFlight(s) != {} {
      var j :| j in InFlight(s);
      assert j == 0;
    }
  }

  lemma {:induction false} RunsAlone(s: AsyncAny, ls: seq<Label>)
    requires FirstAlone(s) && Exec(s, ls).Some?
    ensures FirstAlone(Exec(s, ls).value)
    decreases |ls|
  {
    if ls != [] {
      StaysAlone(s, ls[0]);
      RunsAlone(Next(s, ls[0]), ls[1..]);
    }
  }

  ghost predicate MayRefuse(s: AsyncAny) {
    exists ls: seq<Label> :: Exec(s, ls).Some? && Exec(s, ls).value.refused > 0
  }

  lemma {:induction false} ExecSplit(s: AsyncAny, a: seq<Label>, b: seq<Label>)
    requires Exec(s, a).Some?
    ensures Exec(s, a + b) == Exec(Exec(s, a).value, b)
    decreases |a|
  {
    if a == [] {
      assert a + b == b;
    } else {
      ExecSplit(Next(s, a[0]), a[1..], b);
      assert (a + b)[1..] == a[1..] + b;
    }
  }

  lemma TwoSteps(s: AsyncAny, a: Label, b: Label)
    requires Enabled(s, a) && Enabled(Next(s, a), b)
    ensures Exec(s, [a, b]) == Some(Next(Next(s, a), b))
  {
    assert [a, b][1..] == [b] && [b][1..] == [];
    assert Exec(Next(Next(s, a), b), []) == Some(Next(Next(s, a), b));
  }

  /** The waiters of the first two inputs are both about to test. */
  lemma BothStart(n: nat, ready: set<nat>) returns (ls: seq<Label>, s: AsyncAny)
    requires n >= 2 && 0 !in ready
    ensures Exec(Call(n, ready), ls) == Some(s)
    ensures s.started == {0, 1} && s.passed == {} && s.setting == {} && !s.isSet && s.result.None?
  {
    var s0 := Call(n, ready);
    var s1 := Next(Next(s0, Happens(Register)), Happens(Ready(0)));
    TwoSteps(s0, Happens(Register), Happens(Ready(0)));
    assert s1 == s0.(inputs := Inputs(n, 1, ready + {0}, {}));
    var s2 := Next(Next(s1, Happens(RunWaiter(0))), Happens(Ready(1)));
    TwoSteps(s1, Happens(RunWaiter(0)), Happens(Ready(1)));
    assert s2 == s0.(inputs := Inputs(n, 1, ready + {0} + {1}, {0}), started := {0});
    s := Next(s2, Happens(Register));
    ls := [Happens(Register), Happens(Ready(0))] + ([Happens(RunWaiter(0)), Happens(Ready(1))] + [Happens(Register)]);
    assert [Happens(Register)][1..] == [] && Exec(s, []) == Some(s);
    assert Exec(s2, [Happens(Register)]) == Some(s);
    ExecSplit(s1, [Happens(RunWaiter(0)), Happens(Ready(1))], [Happens(Register)]);
    ExecSplit(s0, [Happens(Register), Happens(Ready(0))], [Happens(RunWaiter(0)), Happens(Ready(1))] + [Happens(Register)]);
  }

  /** Both pass the test, and the second to set the promise is refused. */
  lemma BothSet(s: AsyncAny) returns (ls: seq<Label>)
    requires s.started == {0, 1} && s.passed == {} && s.setting == {} && !s.isSet && s.result.None?
    ensures Exec(s, ls).Some? && Exec(s, ls).value.refused > 0
  {
    var s1 := Next(Next(s, Check(0)), Check(1));
    TwoSteps(s, Check(0), Check(1));
    assert s1 == s.(started := {}, passed := {0, 1});
    var s2 := Next(Next(s1, SetFlag(0)), SetFlag(1));
    TwoSteps(s1, SetFlag(0), SetFlag(1));
    assert s2 == s1.(passed := {}, setting := {0, 1}, isSet := true);
    TwoSteps(s2, Fulfil(0), Fulfil(1));
    ExecSplit(s1, [SetFlag(0), SetFlag(1)], [Fulfil(0), Fulfil(1)]);
    ls := [Check(0), Check(1)] + ([SetFlag(0), SetFlag(1)] + [Fulfil(0), Fulfil(1)]);
    ExecSplit(s, [Check(0), Check(1)], [SetFlag(0), SetFlag(1)] + [Fulfil(0), Fulfil(1)]);
  }

  /** A waiter can find the promise satisfied exactly when there are at least two inputs and the first one
      is not ready at the call. */
  lemma MayRefuseIff(n: nat, ready: set<nat>)
    requires ready <= Below(n)
    ensures MayRefuse(Call(n, ready)) <==> n >= 2 && 0 !in ready
  {
    if n >= 2 && 0 !in ready {
      var a, s := BothStart(n, ready);
      var b := BothSet(s);
      ExecSplit(Call(n, ready), a, b);
    } else {
      forall ls: seq<Label> | Exec(Call(n, ready), ls).Some? ensures Exec(Call(n, ready), ls).value.refused == 0 {
        RunsAlone(Call(n, ready), ls);
      }
    }
  }
}
