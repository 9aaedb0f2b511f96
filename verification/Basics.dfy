/** Names shared by every layer of the model: green threads, wait-queue entries and wake-ups. */
module Basics {

  datatype Option<+T> = None | Some(value: T)

  type Tid = nat
  type Mid = nat
  type Cid = nat
  type TimerId = nat

  /** A function registered on a shared state. */
  type Wid = nat

  datatype Exception = Thrown(code: nat) | BrokenPromise

  /** What a shared state becomes ready with. */
  datatype Outcome<V> = Value(v: V) | Raised(e: Exception)

  /** One element of a wait queue: the waiting thread and the timer attached to it, if any. */
  datatype Entry = Entry(t: Tid, timer: Option<TimerId>)

  /** What a section that removes an entry does to its thread: post an activation to the
      thread's strand, or cancel the attached timer, whose handler will post it. */
  datatype Wake = Resume(t: Tid) | Cancel(x: TimerId)

  function WakeOf(e: Entry): Wake {
    if e.timer.Some? then Cancel(e.timer.value) else Resume(e.t)
  }

  function WakesOf(q: seq<Entry>): seq<Wake> {
    seq(|q|, i requires 0 <= i < |q| => WakeOf(q[i]))
  }

  /** The threads of a wait queue, in order. */
  function Tids(q: seq<Entry>): seq<Tid> {
    seq(|q|, i requires 0 <= i < |q| => q[i].t)
  }

  function Untimed(q: seq<Tid>): seq<Entry> {
    seq(|q|, i requires 0 <= i < |q| => Entry(q[i], None))
  }

  predicate NoDup<T(==)>(q: seq<T>) {
    forall i, j :: 0 <= i < j < |q| ==> q[i] != q[j]
  }

  /** Thread t has an entry in the queue. */
  predicate Waits(q: seq<Entry>, t: Tid) {
    q != [] && (q[0].t == t || Waits(q[1..], t))
  }

  /** No thread has two entries. */
  predicate Distinct(q: seq<Entry>) {
    q == [] || (!Waits(q[1..], q[0].t) && Distinct(q[1..]))
  }

  lemma {:induction false} WaitsEntry(q: seq<Entry>, t: Tid)
    ensures Waits(q, t) <==> exists e :: e in q && e.t == t
  {
    if q != [] {
      WaitsEntry(q[1..], t);
      assert q == [q[0]] + q[1..];
      if q[0].t == t { assert q[0] in q; }
    }
  }

  /** Every thread with an entry in the queue is among its waiters. */
  lemma WaitsEntries(q: seq<Entry>)
    ensures forall e :: e in q ==> Waits(q, e.t)
  {
    forall e | e in q ensures Waits(q, e.t) { WaitsEntry(q, e.t); }
  }

  lemma {:induction false} AppendWaits(q: seq<Entry>, e: Entry)
    ensures forall u :: Waits(q + [e], u) <==> Waits(q, u) || u == e.t
    ensures Distinct(q + [e]) <==> Distinct(q) && !Waits(q, e.t)
  {
    if q != [] {
      AppendWaits(q[1..], e);
      assert (q + [e])[1..] == q[1..] + [e];
    } else {
      assert (q + [e])[1..] == [];
    }
  }

  /** What std::find followed by erase leaves: the queue without its first entry of thread t. */
  function Erase(q: seq<Entry>, t: Tid): seq<Entry> {
    if q == [] then []
    else if q[0].t == t then q[1..]
    else [q[0]] + Erase(q[1..], t)
  }

  lemma {:induction false} EraseWaits(q: seq<Entry>, t: Tid)
    requires Distinct(q)
    ensures Distinct(Erase(q, t))
    ensures forall u :: Waits(Erase(q, t), u) <==> Waits(q, u) && u != t
  {
    if q != [] && q[0].t != t {
      EraseWaits(q[1..], t);
      assert ([q[0]] + Erase(q[1..], t))[1..] == Erase(q[1..], t);
    }
  }

  /** Erasing t from a queue without duplicates removes the entry of t and keeps every other one. */
  lemma {:induction false} EraseRemoves(q: seq<Entry>, t: Tid)
    requires Distinct(q)
    ensures forall e :: e in Erase(q, t) <==> e in q && e.t != t
  {
    if q != [] {
      EraseRemoves(q[1..], t);
      WaitsEntries(q[1..]);
      assert q == [q[0]] + q[1..];
    }
  }

  /** std::find over the deque, then erase when it found something. */
  method FindAndErase(q: seq<Entry>, t: Tid) returns (r: seq<Entry>)
    ensures r == Erase(q, t)
  {
    var i := 0;
    while i < |q| && q[i].t != t
      invariant 0 <= i <= |q|
      invariant Erase(q, t) == q[..i] + Erase(q[i..], t)
    {
      assert q[..i] + ([q[i]] + Erase(q[i..][1..], t)) == q[..i + 1] + Erase(q[i + 1..], t);
      i := i + 1;
    }
    if i < |q| {
      r := q[..i] + q[i + 1..];
    } else {
      r := q;
    }
  }

  /** The run-time services a section calls: strands accept activations, timers can be cancelled. */
  class Wakeups {
    var log: seq<Wake>

    constructor ()
      ensures log == []
    {
      log := [];
    }

    method Resume(t: Tid)
      modifies this
      ensures log == old(log) + [Wake.Resume(t)]
    {
      log := log + [Wake.Resume(t)];
    }

    method Cancel(x: TimerId)
      modifies this
      ensures log == old(log) + [Wake.Cancel(x)]
    {
      log := log + [Wake.Cancel(x)];
    }
  }
}
