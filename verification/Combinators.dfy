/** async_wait_for_all() and wait_for_any(). The inputs become ready when they like; the waiter of an
    input runs once: at its registration if the input is ready by then, otherwise after it got ready. */
module Combinators {
  import opened Basics

  // ----- The inputs -----

  /** `n` inputs; the registration loop has registered the first `registered` of them; `ready` inputs have
      their outcome, `ran` inputs have had their waiter run. */
  datatype Inputs = Inputs(n: nat, registered: nat, ready: set<nat>, ran: set<nat>)

  predicate InputsOk(s: Inputs) {
    && s.registered <= s.n
    && (forall i :: i in s.ready ==> i < s.n)
    && (forall i :: i in s.ran ==> i in s.ready && i < s.registered)
  }

  datatype Event = Register | Ready(i: nat) | RunWaiter(i: nat)

  predicate Possible(s: Inputs, e: Event) {
    match e
    case Register => s.registered < s.n
    case Ready(i) => i < s.n
    case RunWaiter(i) => i < s.registered && i in s.ready && i !in s.ran
  }

  /** A waiter runs in this event: of an input that is ready, run by the setter or by the registration. */
  predicate Runs(s: Inputs, e: Event) {
    e.RunWaiter? || (e.Register? && s.registered in s.ready)
  }

  /** The input whose waiter runs. */
  function Runner(s: Inputs, e: Event): nat {
    if e.RunWaiter? then e.i else s.registered
  }

  function After(s: Inputs, e: Event): Inputs {
    var ran := if Runs(s, e) then s.ran + {Runner(s, e)} else s.ran;
    match e
    case Register => s.(registered := s.registered + 1, ran := ran)
    case Ready(i) => s.(ready := s.ready + {i})
    case RunWaiter(i) => s.(ran := ran)
  }

  lemma InputsStep(s: Inputs, e: Event)
    requires InputsOk(s) && Possible(s, e)
    ensures InputsOk(After(s, e)) && After(s, e).n == s.n
    ensures Runs(s, e) ==> |After(s, e).ran| == |s.ran| + 1
    ensures !Runs(s, e) ==> After(s, e).ran == s.ran
  {
  }

  function Below(n: nat): (s: set<nat>)
    ensures |s| == n && forall i :: i in s <==> 0 <= i < n
  {
    if n == 0 then {} else Below(n - 1) + {n - 1}
  }

  lemma SubsetSize(a: set<nat>, b: set<nat>)
    requires a <= b
    ensures |a| <= |b|
    ensures |a| == |b| ==> a == b
  {
    assert b == a + (b - a);
  }

  /** n waiters have run only when all n inputs are ready. */
  lemma AllRan(s: Inputs)
    requires InputsOk(s)
    ensures |s.ran| <= s.n
    ensures |s.ran| == s.n <==> (forall i :: 0 <= i < s.n ==> i in s.ran)
    ensures |s.ran| == s.n ==> forall i :: 0 <= i < s.n ==> i in s.ready
  {
    SubsetSize(s.ran, Below(s.n));
    if forall i :: 0 <= i < s.n ==> i in s.ran { assert s.ran == Below(s.n); }
  }

  // ----- async_wait_for_all: increment and set are two steps -----

  /** `setting` threads have seen the count reached and are about to set the promise; `failed` counts
      promise_already_satisfied. */
  datatype All = All(inputs: Inputs, acquired: nat, setting: nat, satisfied: nat, failed: nat)

  datatype AllLabel = Input(e: Event) | SetPromise

  function FreshAll(n: nat): All {
    All(Inputs(n, 0, {}, {}), 0, 0, 0, 0)
  }

  predicate AllEnabled(s: All, l: AllLabel) {
    match l
    case Input(e) => Possible(s.inputs, e)
    case SetPromise => s.setting > 0
  }

  function AllNext(s: All, l: AllLabel): All
    requires AllEnabled(s, l)
  {
    match l
    case Input(e) =>
      var s1 := s.(inputs := After(s.inputs, e));
      if Runs(s.inputs, e) then
        s1.(acquired := s.acquired + 1, setting := if s.acquired + 1 >= s.inputs.n then s.setting + 1 else s.setting)
      else s1
    case SetPromise =>
      if s.satisfied > 0 then s.(setting := s.setting - 1, failed := s.failed + 1)
      else s.(setting := s.setting - 1, satisfied := 1)
  }

  function AllExec(s: All, ls: seq<AllLabel>): Option<All>
    decreases |ls|
  {
    if ls == [] then Some(s) else if AllEnabled(s, ls[0]) then AllExec(AllNext(s, ls[0]), ls[1..]) else None
  }

  predicate AllInv(s: All) {
    && InputsOk(s.inputs) && s.acquired == |s.inputs.ran| && s.failed == 0
    && s.setting + s.satisfied == if s.acquired >= s.inputs.n && s.inputs.n > 0 then 1 else 0
  }

  lemma AllStep(s: All, l: AllLabel)
    requires AllInv(s) && AllEnabled(s, l)
    ensures AllInv(AllNext(s, l)) && AllNext(s, l).inputs.n == s.inputs.n
  {
    if l.Input? {
      InputsStep(s.inputs, l.e);
      AllRan(s.inputs);
      AllRan(After(s.inputs, l.e));
    }
  }

  lemma {:induction false} AllRuns(s: All, ls: seq<AllLabel>)
    requires AllInv(s) && AllExec(s, ls).Some?
    ensures AllInv(AllExec(s, ls).value) && AllExec(s, ls).value.inputs.n == s.inputs.n
    decreases |ls|
  {
    if ls != [] {
      AllStep(s, ls[0]);
      AllRuns(AllNext(s, ls[0]), ls[1..]);
    }
  }

  /** For n >= 1 the promise is set at most once, never fails, only after every input is ready and has
      run its waiter, and has been set once all of them did and nobody is between count and set. */
  lemma AsyncAllExactlyOnce(n: nat, ls: seq<AllLabel>)
    requires n >= 1 && AllExec(FreshAll(n), ls).Some?
    ensures var s := AllExec(FreshAll(n), ls).value;
      && s.satisfied <= 1 && s.failed == 0
      && (s.satisfied == 1 ==> forall i :: 0 <= i < n ==> i in s.inputs.ready && i in s.inputs.ran)
      && ((forall i :: 0 <= i < n ==> i in s.inputs.ran) && s.setting == 0 ==> s.satisfied == 1)
  {
    AllRuns(FreshAll(n), ls);
    AllRan(AllExec(FreshAll(n), ls).value.inputs);
  }

  /** For n = 0 it is never set. */
  lemma AsyncAllOfNothing(ls: seq<AllLabel>)
    requires AllExec(FreshAll(0), ls).Some?
    ensures AllExec(FreshAll(0), ls).value.satisfied == 0
  {
    AllRuns(FreshAll(0), ls);
  }

  /** count(), run without interruption. */
  function Counted(s: All, e: Event): All
    requires Possible(s.inputs, e)
  {
    var s1 := AllNext(s, Input(e));
    if s1.setting > s.setting then AllNext(s1, SetPromise) else s1
  }

  class AsyncAllState {
    var acquired: nat
    const count: nat
    /** How often the promise was set, and how often it refused. */
    var satisfied: nat
    var failed: nat

    ghost predicate Represents(s: All)
      reads this
    {
      s.acquired == acquired && s.inputs.n == count && s.satisfied == satisfied && s.failed == failed
    }

    constructor (count: nat)
      ensures this.count == count && Represents(FreshAll(count))
    {
      this.count := count;
      acquired, satisfied, failed := 0, 0, 0;
    }

    method SetValue(ghost s: All)
      requires Represents(s) && s.setting > 0
      modifies this
      ensures Represents(AllNext(s, SetPromise))
    {
      if satisfied > 0 {
        failed := failed + 1;
      } else {
        satisfied := 1;
      }
    }

    /** count(): one step of the machine, and a second one in the call that reaches the count. */
    method Count(ghost s: All, ghost e: Event)
      requires Represents(s) && Possible(s.inputs, e) && Runs(s.inputs, e)
      modifies this
      ensures Represents(Counted(s, e))
    {
      acquired := acquired + 1;
      if acquired >= count {
        SetValue(AllNext(s, Input(e)));
      }
    }
  }

  /** The registration loop has come to input i, and nothing else has happened since it began. */
  ghost predicate Registered(s: All, n: nat, ready: set<nat>, i: nat) {
    && AllInv(s) && s.setting == 0 && s.inputs.n == n && s.inputs.registered == i && s.inputs.ready == ready
    && forall j :: j in s.inputs.ran <==> j in ready && j < i
  }

  lemma RegisterNext(s: All, n: nat, ready: set<nat>, i: nat)
    requires Registered(s, n, ready, i) && i < n
    ensures Possible(s.inputs, Register) && (Runs(s.inputs, Register) <==> i in ready)
    ensures Registered(Counted(s, Register), n, ready, i + 1)
    ensures i !in ready ==> Counted(s, Register) == AllNext(s, Input(Register))
  {
    AllStep(s, Input(Register));
    var s1 := AllNext(s, Input(Register));
    if s1.setting > 0 { AllStep(s1, SetPromise); }
  }

  /** The registration loop of async_wait_for_all(), while no further input becomes ready: it runs the
      waiters of the inputs in `ready`, and sets the promise exactly if these are all, and some. */
  method RegisterAll(state: AsyncAllState, ready: set<nat>)
    requires state.Represents(FreshAll(state.count)) && ready <= Below(state.count)
    modifies state
    ensures state.acquired == |ready| && state.failed == 0
    ensures state.satisfied == if state.count > 0 && ready == Below(state.count) then 1 else 0
  {
    ghost var s := FreshAll(state.count).(inputs := Inputs(state.count, 0, ready, {}));
    var i := 0;
    while i < state.count
      invariant 0 <= i <= state.count && state.Represents(s) && Registered(s, state.count, ready, i)
    {
      RegisterNext(s, state.count, ready, i);
      if i in ready {
        state.Count(s, Register);
      }
      s := Counted(s, Register);
      i := i + 1;
    }
    RegisteredAll(s, state.count, ready);
  }

  lemma RegisteredAll(s: All, n: nat, ready: set<nat>)
    requires Registered(s, n, ready, n) && ready <= Below(n)
    ensures s.acquired == |ready| && s.failed == 0 && s.satisfied == if n > 0 && ready == Below(n) then 1 else 0
  {
    assert s.inputs.ran == ready;
    SubsetSize(ready, Below(n));
  }

  // ----- Blocking wait_for_any -----

  /** A thread in a blocking wait: still registering, about to test, about to queue (only where that is not
      one step with the test), queued, or back. */
  datatype Stage = Registering | Testing | Queueing | Queued | Returned

  datatype Any = Any(inputs: Inputs, running: set<nat>, flag: bool, ret: nat, stage: Stage, result: Option<nat>)

  datatype AnyLabel = AInput(e: Event) | SetValue(i: nat) | ABeginTest | ATest

  function FreshAny(n: nat): Any {
    Any(Inputs(n, 0, {}, {}), {}, false, 0, Registering, None)
  }

  predicate AnyEnabled(s: Any, l: AnyLabel) {
    match l
    case AInput(e) => Possible(s.inputs, e) && (e.Register? ==> s.stage.Registering?)
    case SetValue(i) => i in s.running
    case ABeginTest => s.stage.Registering? && s.inputs.registered == s.inputs.n
    case ATest => s.stage.Testing?
  }

  /** set_value(), under the mutex of any_state. */
  function SetAny(s: Any, i: nat): Any {
    s.(flag := true, ret := i, stage := if s.stage.Queued? then Testing else s.stage)
  }

  /** The mutex of any_state makes the test and the wait one step, and setting and notifying another.
      The registration of an input that is ready sets the value before it goes on. */
  function AnyNext(s: Any, l: AnyLabel): Any
    requires AnyEnabled(s, l)
  {
    match l
    case AInput(e) =>
      var s1 := s.(inputs := After(s.inputs, e));
      if e.RunWaiter? then s1.(running := s.running + {e.i})
      else if Runs(s.inputs, e) then SetAny(s1, s.inputs.registered)
      else s1
    case SetValue(i) => SetAny(s.(running := s.running - {i}), i)
    case ABeginTest => s.(stage := Testing)
    case ATest => if s.flag then s.(stage := Returned, result := Some(s.ret)) else s.(stage := Queued)
  }

  function AnyExec(s: Any, ls: seq<AnyLabel>): Option<Any>
    decreases |ls|
  {
    if ls == [] then Some(s) else if AnyEnabled(s, ls[0]) then AnyExec(AnyNext(s, ls[0]), ls[1..]) else None
  }

  predicate AnyInv(s: Any) {
    && InputsOk(s.inputs)
    && (forall i :: i in s.running ==> i in s.inputs.ran)
    && (s.flag ==> s.ret in s.inputs.ran)
    && (s.result.Some? ==> s.result.value in s.inputs.ran)
    && (s.stage.Returned? <==> s.result.Some?)
    && (s.stage.Queued? ==> !s.flag)
    && (!s.flag ==> s.running == s.inputs.ran)
  }

  lemma AnyStep(s: Any, l: AnyLabel)
    requires AnyInv(s) && AnyEnabled(s, l)
    ensures AnyInv(AnyNext(s, l)) && AnyNext(s, l).inputs.n == s.inputs.n
  {
  }

  lemma {:induction false} AnyRuns(s: Any, ls: seq<AnyLabel>)
    requires AnyInv(s) && AnyExec(s, ls).Some?
    ensures AnyInv(AnyExec(s, ls).value) && AnyExec(s, ls).value.inputs.n == s.inputs.n
    decreases |ls|
  {
    if ls != [] {
      AnyStep(s, ls[0]);
      AnyRuns(AnyNext(s, ls[0]), ls[1..]);
    }
  }

  /** wait_for_any() returns some input that is ready; and while it waits no waiter has finished. */
  lemma WaitForAnyReturns(n: nat, ls: seq<AnyLabel>)
    requires AnyExec(FreshAny(n), ls).Some?
    ensures var s := AnyExec(FreshAny(n), ls).value;
      && (s.stage.Returned? ==> s.result.Some? && s.result.value < n && s.result.value in s.inputs.ready)
      && (s.stage.Queued? && s.inputs.ran != {} ==> s.running != {})
  {
    AnyRuns(FreshAny(n), ls);
  }

  /** any_state: `parked` says that the waiting thread is queued on its condition. */
  class AnyState {
    var flag: bool
    var ret: nat
    var parked: bool

    ghost predicate Represents(s: Any)
      reads this
    {
      s.flag == flag && s.ret == ret && s.stage.Queued? == parked
    }

    constructor ()
      ensures forall n :: Represents(FreshAny(n))
    {
      flag, ret, parked := false, 0, false;
    }

    /** set_value() is the step of the machine that sets the value. */
    method SetValue(v: nat, ghost s: Any)
      requires Represents(s) && v in s.running
      modifies this
      ensures Represents(AnyNext(s, AnyLabel.SetValue(v)))
    {
      flag := true;
      ret := v;
      parked := false;
    }

    /** wait(): one look at the flag is the test of the machine, and gives its result. */
    method Wait(ghost s: Any) returns (r: Option<nat>)
      requires Represents(s) && AnyInv(s) && s.stage.Testing?
      modifies this`parked
      ensures Represents(AnyNext(s, ATest)) && r == AnyNext(s, ATest).result
      ensures r.Some? ==> r.value in s.inputs.ready
    {
      if flag {
        return Some(ret);
      }
      parked := true;
      return None;
    }
  }
}
