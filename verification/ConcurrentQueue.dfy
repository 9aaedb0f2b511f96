/** basic_concurrent_queue: a bounded FIFO with close and reopen. `State` is what the mutex protects,
    together with who waits and who was notified; each operation is one section, a wait loop is a
    section that is run again after each notification. */
module ConcurrentQueueModel {
  import opened Basics

  /** `fullQ` and `emptyQ` are the queues of full_cv_ and empty_cv_. The woken sets hold the threads that
      were notified and are not back yet, `pending` the argument of each push() that waits or was
      notified, `accepted` and `popped` the items that ever went in and out (history). */
  datatype State<T> = State(
    capacity: nat, isOpen: bool, items: seq<T>,
    emptyQ: seq<Tid>, fullQ: seq<Tid>, emptyWoken: set<Tid>, fullWoken: set<Tid>, pending: map<Tid, T>,
    accepted: seq<T>, popped: seq<T>)

  datatype Outcome<T> = Waits | Returns(ok: bool, item: Option<T>)

  function Fresh<T>(capacity: nat, isOpen: bool): State<T> {
    State(capacity, isOpen, [], [], [], {}, {}, map[], [], [])
  }

  // ----- Sections -----

  function NotifyEmpty<T>(s: State<T>): State<T> {
    if s.emptyQ == [] then s else s.(emptyQ := s.emptyQ[1..], emptyWoken := s.emptyWoken + {s.emptyQ[0]})
  }

  function NotifyFull<T>(s: State<T>): State<T> {
    if s.fullQ == [] then s else s.(fullQ := s.fullQ[1..], fullWoken := s.fullWoken + {s.fullQ[0]})
  }

  function PushOne<T>(s: State<T>, x: T): State<T> {
    NotifyEmpty(s.(items := s.items + [x], accepted := s.accepted + [x]))
  }

  function PushEach<T>(s: State<T>, xs: seq<T>): State<T>
    decreases |xs|
  {
    if xs == [] then s else PushEach(PushOne(s, xs[0]), xs[1..])
  }

  function PopOne<T>(s: State<T>): State<T>
    requires s.items != []
  {
    NotifyFull(s.(items := s.items[1..], popped := s.popped + [s.items[0]]))
  }

  /** The loop of push() and what follows it; t is the calling thread, in no queue. */
  function PushLoop<T>(s: State<T>, t: Tid, x: T): (State<T>, Outcome<T>) {
    if |s.items| >= s.capacity && s.isOpen then (s.(fullQ := s.fullQ + [t], pending := s.pending[t := x]), Waits)
    else if !s.isOpen then (s, Returns(false, None))
    else (PushOne(s, x), Returns(true, None))
  }

  function Push<T>(s: State<T>, t: Tid, x: T): (State<T>, Outcome<T>) {
    if !s.isOpen then (s, Returns(false, None)) else PushLoop(s, t, x)
  }

  /** A notified producer comes back. */
  function PushAgain<T>(s: State<T>, t: Tid): (State<T>, Outcome<T>)
    requires t in s.pending
  {
    PushLoop(s.(fullWoken := s.fullWoken - {t}, pending := s.pending - {t}), t, s.pending[t])
  }

  function TryPush<T>(s: State<T>, x: T): (State<T>, Outcome<T>) {
    if !s.isOpen || |s.items| >= s.capacity then (s, Returns(false, None)) else (PushOne(s, x), Returns(true, None))
  }

  /** How many of n items fit. */
  function Fitting<T>(s: State<T>, n: nat): nat {
    if !s.isOpen || |s.items| >= s.capacity then 0 else if n < s.capacity - |s.items| then n else s.capacity - |s.items|
  }

  function PushSome<T>(s: State<T>, xs: seq<T>): State<T> {
    PushEach(s, xs[..Fitting(s, |xs|)])
  }

  function PushAll<T>(s: State<T>, xs: seq<T>): (State<T>, Outcome<T>) {
    if s.isOpen then (PushEach(s, xs), Returns(true, None)) else (s, Returns(false, None))
  }

  function PopLoop<T>(s: State<T>, t: Tid): (State<T>, Outcome<T>) {
    if s.items == [] && s.isOpen then (s.(emptyQ := s.emptyQ + [t]), Waits)
    else if s.items == [] then (s, Returns(false, None))
    else (PopOne(s), Returns(true, Some(s.items[0])))
  }

  function PopAgain<T>(s: State<T>, t: Tid): (State<T>, Outcome<T>) {
    PopLoop(s.(emptyWoken := s.emptyWoken - {t}), t)
  }

  function TryPop<T>(s: State<T>): (State<T>, Outcome<T>) {
    if s.items == [] then (s, Returns(false, None)) else (PopOne(s), Returns(true, Some(s.items[0])))
  }

  function Close<T>(s: State<T>): State<T> {
    s.(isOpen := false, fullQ := [], fullWoken := s.fullWoken + (set t | t in s.fullQ),
       emptyQ := [], emptyWoken := s.emptyWoken + (set t | t in s.emptyQ))
  }

  // ----- The class -----

  class ConcurrentQueue<T> {
    var isOpen: bool
    const capacity: nat
    var items: seq<T>
    var fullCv: seq<Tid>
    var emptyCv: seq<Tid>
    ghost var emptyWoken: set<Tid>
    ghost var fullWoken: set<Tid>
    ghost var pending: map<Tid, T>
    ghost var accepted: seq<T>
    ghost var popped: seq<T>

    ghost function Abs(): State<T>
      reads this
    {
      State(capacity, isOpen, items, emptyCv, fullCv, emptyWoken, fullWoken, pending, accepted, popped)
    }

    constructor (capacity: nat, autoOpen: bool)
      ensures Abs() == Fresh(capacity, autoOpen)
      ensures this.capacity == capacity && isOpen == autoOpen && items == [] && fullCv == [] && emptyCv == []
    {
      this.capacity := capacity;
      isOpen := autoOpen;
      items, fullCv, emptyCv := [], [], [];
      emptyWoken, fullWoken, pending, accepted, popped := {}, {}, map[], [], [];
    }

    method DoOpen() returns (r: bool)
      modifies this
      ensures Abs() == old(Abs()).(isOpen := true) && r
    {
      isOpen := true;
      return isOpen;
    }

    method DoClose()
      modifies this
      ensures Abs() == Close(old(Abs()))
    {
      isOpen := false;
      fullWoken := fullWoken + (set t | t in fullCv);
      fullCv := [];
      emptyWoken := emptyWoken + (set t | t in emptyCv);
      emptyCv := [];
    }

    method NotifyOneEmpty()
      modifies this`emptyCv, this`emptyWoken
      ensures Abs() == NotifyEmpty(old(Abs()))
    {
      if emptyCv != [] {
        emptyWoken := emptyWoken + {emptyCv[0]};
        emptyCv := emptyCv[1..];
      }
    }

    method NotifyOneFull()
      modifies this`fullCv, this`fullWoken
      ensures Abs() == NotifyFull(old(Abs()))
    {
      if fullCv != [] {
        fullWoken := fullWoken + {fullCv[0]};
        fullCv := fullCv[1..];
      }
    }

    /** the_queue_.push(x) and the notification that follows it everywhere. */
    method Append(x: T)
      modifies this
      ensures Abs() == PushOne(old(Abs()), x)
    {
      items := items + [x];
      accepted := accepted + [x];
      NotifyOneEmpty();
    }

    method TakeFront() returns (x: T)
      requires items != []
      modifies this
      ensures x == old(items)[0] && Abs() == PopOne(old(Abs()))
    {
      x := items[0];
      items := items[1..];
      popped := popped + [x];
      NotifyOneFull();
    }

    method DoPushLoop(t: Tid, x: T) returns (r: Outcome<T>)
      modifies this
      ensures (Abs(), r) == PushLoop(old(Abs()), t, x)
    {
      if |items| >= capacity && isOpen {
        fullCv := fullCv + [t];
        pending := pending[t := x];
        return Waits;
      }
      if !isOpen {
        return Returns(false, None);
      }
      Append(x);
      return Returns(true, None);
    }

    method DoPush(t: Tid, x: T) returns (r: Outcome<T>)
      modifies this
      ensures (Abs(), r) == Push(old(Abs()), t, x)
    {
      if !isOpen {
        return Returns(false, None);
      }
      r := DoPushLoop(t, x);
    }

    /** The thread that waits in push() keeps its argument on its stack. */
    method DoPushAgain(t: Tid, x: T) returns (r: Outcome<T>)
      requires t in pending && pending[t] == x
      modifies this
      ensures (Abs(), r) == PushAgain(old(Abs()), t)
    {
      fullWoken := fullWoken - {t};
      pending := pending - {t};
      r := DoPushLoop(t, x);
    }

    method DoTryPush(x: T) returns (r: Outcome<T>)
      modifies this
      ensures (Abs(), r) == TryPush(old(Abs()), x)
    {
      if !isOpen {
        return Returns(false, None);
      }
      if |items| >= capacity {
        return Returns(false, None);
      }
      Append(x);
      return Returns(true, None);
    }

    /** `first` is how many items were taken from the range. */
    method DoPushSome(xs: seq<T>) returns (first: nat)
      modifies this
      ensures first == Fitting(old(Abs()), |xs|) && Abs() == PushSome(old(Abs()), xs)
    {
      first := 0;
      if !isOpen {
        return;
      }
      while first < |xs| && |items| < capacity
        invariant 0 <= first <= |xs| && |items| == |old(items)| + first && isOpen
        invariant first == 0 || |items| <= capacity
        invariant Abs() == PushEach(old(Abs()), xs[..first])
      {
        PushEachLast(old(Abs()), xs[..first], xs[first]);
        assert xs[..first + 1] == xs[..first] + [xs[first]];
        Append(xs[first]);
        first := first + 1;
      }
    }

    method DoPushAll(xs: seq<T>) returns (ok: bool)
      modifies this
      ensures (Abs(), Returns(ok, None)) == PushAll(old(Abs()), xs)
    {
      if !isOpen {
        return false;
      }
      var first := 0;
      while first < |xs|
        invariant 0 <= first <= |xs|
        invariant Abs() == PushEach(old(Abs()), xs[..first])
      {
        PushEachLast(old(Abs()), xs[..first], xs[first]);
        assert xs[..first + 1] == xs[..first] + [xs[first]];
        Append(xs[first]);
        first := first + 1;
      }
      assert xs[..first] == xs;
      return true;
    }

    method DoPopLoop(t: Tid) returns (r: Outcome<T>)
      modifies this
      ensures (Abs(), r) == PopLoop(old(Abs()), t)
    {
      if items == [] && isOpen {
        emptyCv := emptyCv + [t];
        return Waits;
      }
      if items == [] {
        return Returns(false, None);
      }
      var x := TakeFront();
      return Returns(true, Some(x));
    }

    method DoPopAgain(t: Tid) returns (r: Outcome<T>)
      modifies this
      ensures (Abs(), r) == PopAgain(old(Abs()), t)
    {
      emptyWoken := emptyWoken - {t};
      r := DoPopLoop(t);
    }

    method DoTryPop() returns (r: Outcome<T>)
      modifies this
      ensures (Abs(), r) == TryPop(old(Abs()))
    {
      if items == [] {
        return Returns(false, None);
      }
      var x := TakeFront();
      return Returns(true, Some(x));
    }
  }

  lemma {:induction false} PushEachLast<T>(s: State<T>, xs: seq<T>, x: T)
    ensures PushEach(s, xs + [x]) == PushOne(PushEach(s, xs), x)
    decreases |xs|
  {
    if xs == [] {
      assert [x][1..] == [];
      assert xs + [x] == [x];
    } else {
      PushEachLast(PushOne(s, xs[0]), xs[1..], x);
      assert (xs + [x])[1..] == xs[1..] + [x];
    }
  }

  // ----- Runs -----

  datatype Label<T> =
    | LPush(t: Tid, x: T) | LPushAgain(t: Tid) | LPushSome(xs: seq<T>) | LPushAll(xs: seq<T>) | LTryPush(x: T)
    | LPop(t: Tid) | LPopAgain(t: Tid) | LTryPop | LOpen | LClose

  /** t is inside no call. */
  predicate Outside<T>(s: State<T>, t: Tid) {
    t !in s.emptyQ && t !in s.fullQ && t !in s.emptyWoken && t !in s.fullWoken
  }

  predicate Enabled<T>(s: State<T>, l: Label<T>) {
    match l
    case LPush(t, _) => Outside(s, t)
    case LPop(t) => Outside(s, t)
    case LPushAgain(t) => t in s.fullWoken && t in s.pending
    case LPopAgain(t) => t in s.emptyWoken
    case _ => true
  }

  function Next<T>(s: State<T>, l: Label<T>): State<T>
    requires Enabled(s, l)
  {
    match l
    case LPush(t, x) => Push(s, t, x).0
    case LPushAgain(t) => PushAgain(s, t).0
    case LPushSome(xs) => PushSome(s, xs)
    case LPushAll(xs) => PushAll(s, xs).0
    case LTryPush(x) => TryPush(s, x).0
    case LPop(t) => PopLoop(s, t).0
    case LPopAgain(t) => PopAgain(s, t).0
    case LTryPop => TryPop(s).0
    case LOpen => s.(isOpen := true)
    case LClose => Close(s)
  }

  function Exec<T>(s: State<T>, ls: seq<Label<T>>): Option<State<T>>
    decreases |ls|
  {
    if ls == [] then Some(s) else if Enabled(s, ls[0]) then Exec(Next(s, ls[0]), ls[1..]) else None
  }

  ghost predicate Reachable<T(!new)>(s: State<T>) {
    exists ls: seq<Label<T>>, open: bool :: Exec(Fresh(s.capacity, open), ls) == Some(s)
  }

  // ----- The invariant -----

  /** Every thread is in at most one place, and the producers inside push() have their argument. */
  ghost predicate PlacesOk<T>(s: State<T>) {
    && NoDup(s.emptyQ) && NoDup(s.fullQ)
    && (forall t :: t in s.emptyQ ==> t !in s.fullQ && t !in s.emptyWoken && t !in s.fullWoken)
    && (forall t :: t in s.fullQ ==> t !in s.emptyWoken && t !in s.fullWoken)
    && s.emptyWoken !! s.fullWoken
    && (forall t :: t in s.pending <==> t in s.fullQ || t in s.fullWoken)
  }

  /** Nobody is stranded: while a consumer is parked every item has a notified consumer, while a producer
      is parked every free slot has a notified producer, and nobody is parked on a closed queue. */
  predicate Served<T>(s: State<T>) {
    && (s.emptyQ != [] ==> |s.items| <= |s.emptyWoken|)
    && (s.fullQ != [] ==> s.capacity <= |s.items| + |s.fullWoken|)
    && (!s.isOpen ==> s.emptyQ == [] && s.fullQ == [])
  }

  predicate Conserved<T(==)>(s: State<T>) {
    s.accepted == s.popped + s.items
  }

  ghost predicate Inv<T>(s: State<T>) {
    PlacesOk(s) && Served(s) && Conserved(s)
  }

  lemma TailOf(q: seq<Tid>)
    requires q != [] && NoDup(q)
    ensures NoDup(q[1..]) && q[0] in q && forall t :: t in q[1..] <==> t in q && t != q[0]
  {
    assert q == [q[0]] + q[1..];
  }

  lemma AppendOf(q: seq<Tid>, t: Tid)
    requires NoDup(q) && t !in q
    ensures NoDup(q + [t]) && forall u :: u in q + [t] <==> u in q || u == t
  {
  }

  lemma PushOneInv<T>(s: State<T>, x: T)
    requires Inv(s) && s.isOpen
    ensures Inv(PushOne(s, x)) && PushOne(s, x).isOpen
  {
    if s.emptyQ != [] { TailOf(s.emptyQ); }
    assert s.accepted + [x] == s.popped + (s.items + [x]);
  }

  lemma {:induction false} PushEachInv<T>(s: State<T>, xs: seq<T>)
    requires Inv(s) && s.isOpen
    ensures Inv(PushEach(s, xs))
    decreases |xs|
  {
    if xs != [] {
      PushOneInv(s, xs[0]);
      PushEachInv(PushOne(s, xs[0]), xs[1..]);
    }
  }

  /** Also when the thread that pops was just taken out of the notified ones. */
  lemma PopOneInv<T>(s: State<T>)
    requires PlacesOk(s) && Conserved(s) && s.items != []
    requires s.emptyQ != [] ==> |s.items| <= |s.emptyWoken| + 1
    requires s.fullQ != [] ==> s.capacity <= |s.items| + |s.fullWoken|
    requires !s.isOpen ==> s.emptyQ == [] && s.fullQ == []
    ensures Inv(PopOne(s))
  {
    if s.fullQ != [] { TailOf(s.fullQ); }
    assert s.popped + s.items == (s.popped + [s.items[0]]) + s.items[1..];
  }

  lemma PushLoopInv<T>(s: State<T>, t: Tid, x: T)
    requires PlacesOk(s) && Conserved(s) && Outside(s, t)
    requires s.emptyQ != [] ==> |s.items| <= |s.emptyWoken|
    requires s.fullQ != [] ==> s.capacity <= |s.items| + |s.fullWoken| + 1
    requires !s.isOpen ==> s.emptyQ == [] && s.fullQ == []
    ensures Inv(PushLoop(s, t, x).0)
  {
    if s.emptyQ != [] { TailOf(s.emptyQ); }
    AppendOf(s.fullQ, t);
    assert s.accepted + [x] == s.popped + (s.items + [x]);
  }

  lemma PopLoopInv<T>(s: State<T>, t: Tid)
    requires PlacesOk(s) && Conserved(s) && Outside(s, t)
    requires s.emptyQ != [] ==> |s.items| <= |s.emptyWoken| + 1
    requires s.fullQ != [] ==> s.capacity <= |s.items| + |s.fullWoken|
    requires !s.isOpen ==> s.emptyQ == [] && s.fullQ == []
    ensures Inv(PopLoop(s, t).0)
  {
    if s.items != [] { PopOneInv(s); } else { AppendOf(s.emptyQ, t); }
  }

  lemma CloseInv<T>(s: State<T>)
    requires Inv(s)
    ensures Inv(Close(s))
  {
  }

  lemma StepInv<T>(s: State<T>, l: Label<T>)
    requires Inv(s) && Enabled(s, l)
    ensures Inv(Next(s, l))
  {
    match l {
      case LPush(t, x) => if s.isOpen { PushLoopInv(s, t, x); }
      case LPushAgain(t) => PushLoopInv(s.(fullWoken := s.fullWoken - {t}, pending := s.pending - {t}), t, s.pending[t]);
      case LPushSome(xs) => if s.isOpen { PushEachInv(s, xs[..Fitting(s, |xs|)]); }
      case LPushAll(xs) => if s.isOpen { PushEachInv(s, xs); }
      case LTryPush(x) => if s.isOpen { PushOneInv(s, x); }
      case LPop(t) => PopLoopInv(s, t);
      case LPopAgain(t) => PopLoopInv(s.(emptyWoken := s.emptyWoken - {t}), t);
      case LTryPop => if s.items != [] { PopOneInv(s); }
      case LOpen =>
      case LClose => CloseInv(s);
    }
  }

  lemma {:induction false} ExecInv<T>(s: State<T>, ls: seq<Label<T>>)
    requires Inv(s) && Exec(s, ls).Some?
    ensures Inv(Exec(s, ls).value) && Exec(s, ls).value.capacity == s.capacity
    decreases |ls|
  {
    if ls != [] {
      StepInv(s, ls[0]);
      CapacityFixed(s, ls[0]);
      ExecInv(Next(s, ls[0]), ls[1..]);
    }
  }

  lemma {:induction false} PushEachFields<T>(s: State<T>, xs: seq<T>)
    ensures PushEach(s, xs).capacity == s.capacity && PushEach(s, xs).isOpen == s.isOpen
    ensures PushEach(s, xs).items == s.items + xs && PushEach(s, xs).accepted == s.accepted + xs
    decreases |xs|
  {
    if xs != [] {
      PushEachFields(PushOne(s, xs[0]), xs[1..]);
      assert xs == [xs[0]] + xs[1..];
      assert (s.items + [xs[0]]) + xs[1..] == s.items + xs && (s.accepted + [xs[0]]) + xs[1..] == s.accepted + xs;
    }
  }

  lemma CapacityFixed<T>(s: State<T>, l: Label<T>)
    requires Enabled(s, l)
    ensures Next(s, l).capacity == s.capacity
  {
    if l.LPushSome? { PushEachFields(s, l.xs[..Fitting(s, |l.xs|)]); }
    if l.LPushAll? { PushEachFields(s, l.xs); }
  }

  lemma ReachableInv<T(!new)>(s: State<T>)
    requires Reachable(s)
    ensures Inv(s)
  {
    var ls: seq<Label<T>>, open: bool :| Exec(Fresh(s.capacity, open), ls) == Some(s);
    ExecInv(Fresh<T>(s.capacity, open), ls);
  }

  // ----- What is promised -----

  /** A consumer that is parked although there is an item has a notified consumer on its way. */
  lemma ParkedConsumerIsServed<T(!new)>(s: State<T>, t: Tid)
    requires Reachable(s) && t in s.emptyQ
    ensures s.isOpen && |s.items| <= |s.emptyWoken|
    ensures s.items != [] ==> exists u :: u in s.emptyWoken
  {
    ReachableInv(s);
    if s.items != [] {
      assert s.emptyWoken != {};
      var u :| u in s.emptyWoken;
    }
  }

  lemma ParkedProducerIsServed<T(!new)>(s: State<T>, t: Tid)
    requires Reachable(s) && t in s.fullQ
    ensures s.isOpen && (if s.capacity > |s.items| then s.capacity - |s.items| else 0) <= |s.fullWoken|
    ensures |s.items| < s.capacity ==> exists u :: u in s.fullWoken
  {
    ReachableInv(s);
    if |s.items| < s.capacity {
      assert s.fullWoken != {};
      var u :| u in s.fullWoken;
    }
  }

  /** Once every notified thread is back, parked consumers mean an empty queue and parked producers a
      full one, so never both unless the capacity is 0; a closed queue has nobody parked. */
  lemma NobodyStranded<T(!new)>(s: State<T>)
    requires Reachable(s) && s.emptyWoken == {} && s.fullWoken == {}
    ensures s.emptyQ != [] ==> s.isOpen && s.items == []
    ensures s.fullQ != [] ==> s.isOpen && |s.items| >= s.capacity
    ensures s.emptyQ != [] && s.fullQ != [] ==> s.capacity == 0
  {
    ReachableInv(s);
  }

  /** First in, first out: what was popped is the beginning of what was accepted, and the rest is in
      the queue, in order. */
  lemma Fifo<T(!new)>(s: State<T>)
    requires Reachable(s)
    ensures |s.popped| <= |s.accepted|
    ensures s.popped == s.accepted[..|s.popped|] && s.items == s.accepted[|s.popped|..]
  {
    ReachableInv(s);
  }

  /** What one step accepts: the whole argument, the part that fits, or nothing. */
  function Accepts<T>(s: State<T>, l: Label<T>): seq<T>
    requires Enabled(s, l)
  {
    match l
    case LPush(_, x) => if s.isOpen && |s.items| < s.capacity then [x] else []
    case LPushAgain(t) => if s.isOpen && |s.items| < s.capacity then [s.pending[t]] else []
    case LPushSome(xs) => xs[..Fitting(s, |xs|)]
    case LPushAll(xs) => if s.isOpen then xs else []
    case LTryPush(x) => if s.isOpen && |s.items| < s.capacity then [x] else []
    case _ => []
  }

  lemma StepAccepts<T>(s: State<T>, l: Label<T>)
    requires Enabled(s, l)
    ensures Next(s, l).accepted == s.accepted + Accepts(s, l)
  {
    if l.LPushSome? { PushEachFields(s, l.xs[..Fitting(s, |l.xs|)]); }
    if l.LPushAll? { PushEachFields(s, l.xs); }
  }

  lemma {:induction false} AcceptedGrows<T>(s: State<T>, ls: seq<Label<T>>)
    requires Exec(s, ls).Some?
    ensures s.accepted <= Exec(s, ls).value.accepted
    decreases |ls|
  {
    if ls != [] {
      StepAccepts(s, ls[0]);
      AcceptedGrows(Next(s, ls[0]), ls[1..]);
    }
  }

  /** A batch stays contiguous: whatever happens later, the items that one push_all() (or any other
      call) accepted are next to each other in the order in which items leave. */
  lemma BatchStaysContiguous<T>(s: State<T>, l: Label<T>, ls: seq<Label<T>>)
    requires Inv(s) && Enabled(s, l) && Exec(Next(s, l), ls).Some?
    ensures var (s', k, xs) := (Exec(Next(s, l), ls).value, |s.accepted|, Accepts(s, l));
      k + |xs| <= |s'.popped + s'.items| && (s'.popped + s'.items)[k..k + |xs|] == xs
  {
    var s1 := Next(s, l);
    StepInv(s, l);
    StepAccepts(s, l);
    ExecInv(s1, ls);
    AcceptedGrows(s1, ls);
    var s', k, xs := Exec(s1, ls).value, |s.accepted|, Accepts(s, l);
    assert s1.accepted[k..k + |xs|] == xs;
    assert s'.accepted[k..k + |xs|] == s'.accepted[..|s1.accepted|][k..k + |xs|];
  }

  predicate NoPushAll<T>(ls: seq<Label<T>>) {
    forall i :: 0 <= i < |ls| ==> !ls[i].LPushAll?
  }

  lemma StepWithinCapacity<T>(s: State<T>, l: Label<T>)
    requires Enabled(s, l) && !l.LPushAll? && |s.items| <= s.capacity
    ensures |Next(s, l).items| <= s.capacity
  {
    if l.LPushSome? { PushEachFields(s, l.xs[..Fitting(s, |l.xs|)]); }
  }

  /** Without push_all() the capacity is never exceeded. */
  lemma {:induction false} WithinCapacity<T>(s: State<T>, ls: seq<Label<T>>)
    requires |s.items| <= s.capacity && NoPushAll(ls) && Exec(s, ls).Some?
    ensures |Exec(s, ls).value.items| <= s.capacity
    decreases |ls|
  {
    if ls != [] {
      StepWithinCapacity(s, ls[0]);
      CapacityFixed(s, ls[0]);
      assert NoPushAll(ls[1..]);
      WithinCapacity(Next(s, ls[0]), ls[1..]);
    }
  }

  /** The section of pop(), at the call or after a notification, and that of try_pop(). */
  function PopOf<T>(s: State<T>, l: Label<T>): (State<T>, Outcome<T>)
    requires l.LPop? || l.LPopAgain? || l.LTryPop?
  {
    match l
    case LPop(t) => PopLoop(s, t)
    case LPopAgain(t) => PopAgain(s, t)
    case _ => TryPop(s)
  }

  /** pop() waits exactly when it finds the queue open and empty, at the call and after every notification, and
      try_pop() never; they report failure when it is empty otherwise, and else return the oldest accepted
      item that was not popped yet, which is then the last one popped. */
  lemma PopResult<T(!new)>(s: State<T>, l: Label<T>)
    requires Reachable(s) && Enabled(s, l) && (l.LPop? || l.LPopAgain? || l.LTryPop?)
    ensures var (s', r) := PopOf(s, l);
      && s' == Next(s, l) && s'.accepted == s.accepted
      && (r.Waits? <==> s.isOpen && |s.popped| == |s.accepted| && !l.LTryPop?)
      && (r == Returns(false, None) <==> (l.LTryPop? || !s.isOpen) && |s.popped| == |s.accepted|)
      && (if |s.popped| < |s.accepted| then
            r == Returns(true, Some(s.accepted[|s.popped|])) && s'.popped == s.popped + [s.accepted[|s.popped|]]
          else s'.popped == s.popped)
  {
    hide Reachable;
    ReachableInv(s);
  }

  /** The section of push(), at the call or after a notification, and that of try_push(), with the item. */
  function PushOf<T>(s: State<T>, l: Label<T>): (State<T>, Outcome<T>)
    requires Enabled(s, l) && (l.LPush? || l.LPushAgain? || l.LTryPush?)
  {
    match l
    case LPush(t, x) => Push(s, t, x)
    case LPushAgain(t) => PushAgain(s, t)
    case _ => TryPush(s, l.x)
  }

  function Pushed<T>(s: State<T>, l: Label<T>): T
    requires Enabled(s, l) && (l.LPush? || l.LPushAgain? || l.LTryPush?)
  {
    if l.LPushAgain? then s.pending[l.t] else l.x
  }

  /** push() waits exactly when it finds the queue open and full, and try_push() never; they return true exactly
      if the item was accepted, which happens when the queue is open and not full. */
  lemma PushResult<T>(s: State<T>, l: Label<T>)
    requires Enabled(s, l) && (l.LPush? || l.LPushAgain? || l.LTryPush?)
    ensures var (s', r) := PushOf(s, l);
      && s' == Next(s, l) && s'.popped == s.popped && r.Waits? == (s.isOpen && |s.items| >= s.capacity && !l.LTryPush?)
      && (r.Returns? && r.ok <==> s.isOpen && |s.items| < s.capacity)
      && s'.accepted == s.accepted + (if r.Returns? && r.ok then [Pushed(s, l)] else [])
      && (r.Waits? && !l.LTryPush? ==> l.t in s'.pending && s'.pending[l.t] == Pushed(s, l))
  {
  }

  /** push_all() accepts everything or, on a closed queue, nothing, and says which. push_some() accepts a
      beginning of its range, and stops before the end only if the queue is closed or full then. */
  lemma BatchResult<T>(s: State<T>, xs: seq<T>)
    ensures var (s', r) := PushAll(s, xs);
      && r == Returns(s.isOpen, None) && s'.accepted == s.accepted + (if s.isOpen then xs else [])
    ensures var (s', k) := (PushSome(s, xs), Fitting(s, |xs|));
      && k <= |xs| && s'.accepted == s.accepted + xs[..k] && s'.isOpen == s.isOpen
      && (k < |xs| ==> !s.isOpen || |s'.items| >= s.capacity)
      && (k > 0 ==> s.isOpen && |s'.items| <= s.capacity)
  {
    PushEachFields(s, xs);
    PushEachFields(s, xs[..Fitting(s, |xs|)]);
  }

  predicate NeverOpens<T>(ls: seq<Label<T>>) {
    forall i :: 0 <= i < |ls| ==> !ls[i].LOpen?
  }

  lemma StaysClosed<T>(s: State<T>, l: Label<T>)
    requires Enabled(s, l) && !s.isOpen && !l.LOpen?
    ensures !Next(s, l).isOpen && Next(s, l).accepted == s.accepted
  {
    StepAccepts(s, l);
  }

  lemma {:induction false} ClosedRun<T>(s: State<T>, ls: seq<Label<T>>)
    requires !s.isOpen && NeverOpens(ls) && Exec(s, ls).Some?
    ensures !Exec(s, ls).value.isOpen && Exec(s, ls).value.accepted == s.accepted
    decreases |ls|
  {
    hide Enabled, Next;
    if ls != [] {
      StaysClosed(s, ls[0]);
      assert NeverOpens(ls[1..]);
      ClosedRun(Next(s, ls[0]), ls[1..]);
    }
  }

  /** After close() nothing is accepted, by anybody who was waiting or comes later, until open(); and open()
      makes the queue accept again. */
  lemma CloseAndOpen<T>(s: State<T>, ls: seq<Label<T>>)
    requires NeverOpens(ls) && Exec(Next(s, LClose), ls).Some?
    ensures var s' := Exec(Next(s, LClose), ls).value;
      !s'.isOpen && s'.accepted == s.accepted && Next(s', LOpen) == s'.(isOpen := true)
  {
    ClosedRun(Next(s, LClose), ls);
  }
}
