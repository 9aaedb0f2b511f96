/** Blocking wait_for_all(): it returns only when it may, but it can miss its notification, and a waiter
    can outlive the call. When exactly is decided by the inputs that are ready at the call. */
module WaitForAll {
  import opened Basics
  import opened Combinators

  /** `notifying` waiters have incremented the count and are about to notify; they do not take the mutex of
      the waiting thread. */
  datatype Wait = Wait(inputs: Inputs, acquired: nat, notifying: nat, stage: Stage)

  datatype WaitLabel = WInput(e: Event) | BeginTest | Test | Enqueue | NotifyAll

  /** The call, when the inputs in `ready` are ready. */
  function Call(n: nat, ready: set<nat>): Wait {
    Wait(Inputs(n, 0, ready, {}), 0, 0, Registering)
  }

  predicate WaitEnabled(s: Wait, l: WaitLabel) {
    match l
    case WInput(e) => Possible(s.inputs, e) && (e.Register? ==> s.stage.Registering?)
    case BeginTest => s.stage.Registering? && s.inputs.registered == s.inputs.n
    case Test => s.stage.Testing?
    case Enqueue => s.stage.Queueing?
    case NotifyAll => s.notifying > 0
  }

  /** Every waiter notifies when it sees the full count, and `eager` ones (of the iterator form) always.
      A waiter run by the registration itself notifies before the thread goes on, so that nobody waits. */
  function WaitNext(s: Wait, l: WaitLabel, eager: bool): Wait
    requires WaitEnabled(s, l)
  {
    match l
    case WInput(e) =>
      var s1 := s.(inputs := After(s.inputs, e), acquired := if Runs(s.inputs, e) then s.acquired + 1 else s.acquired);
      if e.RunWaiter? && (eager || s1.acquired == s.inputs.n) then s1.(notifying := s.notifying + 1) else s1
    case BeginTest => s.(stage := Testing)
    case Test => s.(stage := if s.acquired == s.inputs.n then Returned else Queueing)
    case Enqueue => s.(stage := Queued)
    case NotifyAll => s.(notifying := s.notifying - 1, stage := if s.stage.Queued? then Testing else s.stage)
  }

  function WaitExec(s: Wait, ls: seq<WaitLabel>, eager: bool): Option<Wait>
    decreases |ls|
  {
    if ls == [] then Some(s)
    else if WaitEnabled(s, ls[0]) then WaitExec(WaitNext(s, ls[0], eager), ls[1..], eager)
    else None
  }

  predicate WaitInv(s: Wait) {
    && InputsOk(s.inputs) && s.acquired == |s.inputs.ran|
    && (s.stage.Returned? ==> s.acquired == s.inputs.n)
    && (!s.stage.Registering? ==> s.inputs.registered == s.inputs.n)
  }

  lemma WaitStep(s: Wait, l: WaitLabel, eager: bool)
    requires WaitInv(s) && WaitEnabled(s, l)
    ensures WaitInv(WaitNext(s, l, eager)) && WaitNext(s, l, eager).inputs.n == s.inputs.n
  {
    if l.WInput? {
      InputsStep(s.inputs, l.e);
      AllRan(s.inputs);
      AllRan(After(s.inputs, l.e));
    }
  }

  lemma {:induction false} WaitRuns(s: Wait, ls: seq<WaitLabel>, eager: bool)
    requires WaitInv(s) && WaitExec(s, ls, eager).Some?
    ensures WaitInv(WaitExec(s, ls, eager).value) && WaitExec(s, ls, eager).value.inputs.n == s.inputs.n
    decreases |ls|
  {
    if ls != [] {
      WaitStep(s, ls[0], eager);
      WaitRuns(WaitNext(s, ls[0], eager), ls[1..], eager);
    }
  }

  /** wait_for_all() returns only after every input is ready, in both forms, for every n and whatever is
      ready at the call. */
  lemma WaitForAllReturns(n: nat, ready: set<nat>, ls: seq<WaitLabel>, eager: bool)
    requires ready <= Below(n) && WaitExec(Call(n, ready), ls, eager).Some?
    requires WaitExec(Call(n, ready), ls, eager).value.stage.Returned?
    ensures forall i :: 0 <= i < n ==> i in WaitExec(Call(n, ready), ls, eager).value.inputs.ready
  {
    WaitRuns(Call(n, ready), ls, eager);
    AllRan(WaitExec(Call(n, ready), ls, eager).value.inputs);
  }

  // ----- What can go wrong -----

  // The notifier does not take the mutex of the waiting thread, so that its notification can fall between
  // the test and the wait, or come after the test that finds the full count.

  /** Every input is ready and has run its waiter, no notification is on its way, and the thread waits. */
  predicate Stuck(s: Wait) {
    s.stage.Queued? && s.notifying == 0 && |s.inputs.ran| == s.inputs.n
  }

  /** The call has returned, and a waiter is about to notify the condition variable, a local of the call. */
  predicate Dangling(s: Wait) {
    s.stage.Returned? && s.notifying > 0
  }

  lemma {:induction false} WaitExecSplit(s: Wait, a: seq<WaitLabel>, b: seq<WaitLabel>, eager: bool)
    requires WaitExec(s, a, eager).Some?
    ensures WaitExec(s, a + b, eager) == WaitExec(WaitExec(s, a, eager).value, b, eager)
    decreases |a|
  {
    if a == [] {
      assert a + b == b;
    } else {
      WaitExecSplit(WaitNext(s, a[0], eager), a[1..], b, eager);
      assert (a + b)[1..] == a[1..] + b;
    }
  }

  lemma OneStep(s: Wait, l: WaitLabel, eager: bool)
    requires WaitEnabled(s, l)
    ensures WaitExec(s, [l], eager) == Some(WaitNext(s, l, eager))
  {
    assert WaitExec(WaitNext(s, l, eager), [], eager) == Some(WaitNext(s, l, eager));
  }

  /** The registration loop: the waiters that it runs are those of the inputs ready at the call. */
  lemma {:induction false} RegistrationEnds(s: Wait, eager: bool) returns (ls: seq<WaitLabel>)
    requires WaitInv(s) && s.stage.Registering?
    requires forall i :: i in s.inputs.ran <==> i in s.inputs.ready && i < s.inputs.registered
    ensures WaitExec(s, ls, eager).Some?
    ensures var s' := WaitExec(s, ls, eager).value;
      WaitInv(s') && s'.stage.Testing? && s'.inputs.n == s.inputs.n && s'.inputs.ran == s.inputs.ready
    decreases s.inputs.n - s.inputs.registered
  {
    if s.inputs.registered == s.inputs.n {
      assert s.inputs.ran == s.inputs.ready;
      OneStep(s, BeginTest, eager);
      ls := [BeginTest];
    } else {
      var l := WInput(Register);
      WaitStep(s, l, eager);
      OneStep(s, l, eager);
      var rest := RegistrationEnds(WaitNext(s, l, eager), eager);
      WaitExecSplit(s, [l], rest, eager);
      ls := [l] + rest;
    }
  }

  /** While the thread stays where it is, all other inputs can become ready and run their waiters; the
      last of these is then about to notify. */
  lemma {:induction false} InputsFinish(s: Wait, eager: bool) returns (ls: seq<WaitLabel>)
    requires WaitInv(s) && s.inputs.registered == s.inputs.n && !s.stage.Returned?
    ensures WaitExec(s, ls, eager).Some?
    ensures var s' := WaitExec(s, ls, eager).value;
      && WaitInv(s') && s'.stage == s.stage && |s'.inputs.ran| == s'.inputs.n && s'.notifying >= s.notifying
      && (|s.inputs.ran| < s.inputs.n ==> s'.notifying > 0)
    decreases s.inputs.n - |s.inputs.ran|
  {
    AllRan(s.inputs);
    if |s.inputs.ran| == s.inputs.n {
      ls := [];
    } else {
      var i :| 0 <= i < s.inputs.n && i !in s.inputs.ran;
      var a, b := WInput(Ready(i)), WInput(RunWaiter(i));
      var s1 := WaitNext(s, a, eager);
      var s2 := WaitNext(s1, b, eager);
      WaitStep(s, a, eager);
      WaitStep(s1, b, eager);
      AllRan(s2.inputs);
      var rest := InputsFinish(s2, eager);
      OneStep(s, a, eager);
      OneStep(s1, b, eager);
      WaitExecSplit(s1, [b], rest, eager);
      WaitExecSplit(s, [a], [b] + rest, eager);
      ls := [a] + ([b] + rest);
    }
  }

  /** The notifications find nobody in the queue. */
  lemma {:induction false} NotificationsPass(s: Wait, eager: bool) returns (ls: seq<WaitLabel>)
    requires s.stage.Queueing?
    ensures WaitExec(s, ls, eager) == Some(s.(notifying := 0))
    decreases s.notifying
  {
    if s.notifying == 0 {
      ls := [];
    } else {
      var rest := NotificationsPass(WaitNext(s, NotifyAll, eager), eager);
      OneStep(s, NotifyAll, eager);
      WaitExecSplit(s, [NotifyAll], rest, eager);
      ls := [NotifyAll] + rest;
    }
  }

  lemma MayGetStuck(s: Wait, eager: bool) returns (ls: seq<WaitLabel>)
    requires WaitInv(s) && s.stage.Testing? && s.acquired < s.inputs.n
    ensures WaitExec(s, ls, eager).Some? && Stuck(WaitExec(s, ls, eager).value)
  {
    var s1 := WaitNext(s, Test, eager);
    OneStep(s, Test, eager);
    var a := InputsFinish(s1, eager);
    var s2 := WaitExec(s1, a, eager).value;
    var b := NotificationsPass(s2, eager);
    var s3 := s2.(notifying := 0);
    OneStep(s3, Enqueue, eager);
    WaitExecSplit(s2, b, [Enqueue], eager);
    WaitExecSplit(s1, a, b + [Enqueue], eager);
    WaitExecSplit(s, [Test], a + (b + [Enqueue]), eager);
    ls := [Test] + (a + (b + [Enqueue]));
  }

  lemma MayDangle(s: Wait, eager: bool) returns (ls: seq<WaitLabel>)
    requires WaitInv(s) && s.stage.Testing? && s.acquired < s.inputs.n
    ensures WaitExec(s, ls, eager).Some? && Dangling(WaitExec(s, ls, eager).value)
  {
    var a := InputsFinish(s, eager);
    var s1 := WaitExec(s, a, eager).value;
    OneStep(s1, Test, eager);
    WaitExecSplit(s, a, [Test], eager);
    ls := a + [Test];
  }

  // ----- When everything is ready at the call -----

  /** Every registration runs its waiter, nobody else does, and the first test succeeds. */
  ghost predicate Smooth(s: Wait) {
    && WaitInv(s) && s.notifying == 0 && !s.stage.Queueing? && !s.stage.Queued?
    && (forall i :: 0 <= i < s.inputs.n ==> i in s.inputs.ready)
    && (forall i :: i in s.inputs.ran <==> 0 <= i < s.inputs.registered)
  }

  lemma SmoothStep(s: Wait, l: WaitLabel, eager: bool)
    requires Smooth(s) && WaitEnabled(s, l)
    ensures Smooth(WaitNext(s, l, eager))
  {
    AllRan(s.inputs);
    WaitStep(s, l, eager);
  }

  lemma {:induction false} StaysSmooth(s: Wait, ls: seq<WaitLabel>, eager: bool)
    requires Smooth(s) && WaitExec(s, ls, eager).Some?
    ensures Smooth(WaitExec(s, ls, eager).value)
    decreases |ls|
  {
    hide Smooth, WaitEnabled, WaitNext;
    if ls != [] {
      SmoothStep(s, ls[0], eager);
      StaysSmooth(WaitNext(s, ls[0], eager), ls[1..], eager);
    }
  }

  // ----- The exact conditions -----

  ghost predicate MayHang(s: Wait, eager: bool) {
    exists ls: seq<WaitLabel> :: WaitExec(s, ls, eager).Some? && Stuck(WaitExec(s, ls, eager).value)
  }

  ghost predicate MayOutlive(s: Wait, eager: bool) {
    exists ls: seq<WaitLabel> :: WaitExec(s, ls, eager).Some? && Dangling(WaitExec(s, ls, eager).value)
  }

  /** From the call to the test, when some input is not ready at the call. */
  lemma ReachesTest(n: nat, ready: set<nat>, eager: bool) returns (ls: seq<WaitLabel>, s: Wait)
    requires ready <= Below(n) && ready != Below(n)
    ensures WaitExec(Call(n, ready), ls, eager) == Some(s)
    ensures WaitInv(s) && s.stage.Testing? && s.acquired < s.inputs.n
  {
    ls := RegistrationEnds(Call(n, ready), eager);
    s := WaitExec(Call(n, ready), ls, eager).value;
    SubsetSize(ready, Below(n));
  }

  /** A call of wait_for_all() can hang for ever, although every input becomes ready and runs its waiter,
      exactly when some input is not ready at the call. */
  lemma WaitForAllMayHangIff(n: nat, ready: set<nat>, eager: bool)
    requires ready <= Below(n)
    ensures MayHang(Call(n, ready), eager) <==> exists i :: 0 <= i < n && i !in ready
  {
    if ready == Below(n) {
      NeitherWhenReady(n, ready, eager);
    } else {
      var a, s := ReachesTest(n, ready, eager);
      var b := MayGetStuck(s, eager);
      WaitExecSplit(Call(n, ready), a, b, eager);
      assert exists i :: i in Below(n) && i !in ready;
    }
  }

  /** The same calls, and no others, can return while a waiter is still about to notify. */
  lemma WaiterMayOutliveCallIff(n: nat, ready: set<nat>, eager: bool)
    requires ready <= Below(n)
    ensures MayOutlive(Call(n, ready), eager) <==> exists i :: 0 <= i < n && i !in ready
  {
    if ready == Below(n) {
      NeitherWhenReady(n, ready, eager);
    } else {
      var a, s := ReachesTest(n, ready, eager);
      var b := MayDangle(s, eager);
      WaitExecSplit(Call(n, ready), a, b, eager);
      assert exists i :: i in Below(n) && i !in ready;
    }
  }

  lemma NeitherWhenReady(n: nat, ready: set<nat>, eager: bool)
    requires ready == Below(n)
    ensures !MayHang(Call(n, ready), eager) && !MayOutlive(Call(n, ready), eager)
  {
    forall ls: seq<WaitLabel> | WaitExec(Call(n, ready), ls, eager).Some?
      ensures var s := WaitExec(Call(n, ready), ls, eager).value; !Stuck(s) && !Dangling(s)
    {
      StaysSmooth(Call(n, ready), ls, eager);
    }
  }
}
