/** The monitor that the queues and tokens of the run-time stand for, and what each primitive step does
    to it. */
module Mesa {
  import opened Basics
  import opened MesaMonitor
  import opened MutexModel
  import opened Runtime
  import opened RuntimeInvariant
  import opened RuntimeFrames
  import opened RuntimeRegister
  import opened RuntimeWake
  import opened RuntimeUnlock
  import opened RuntimeReturn
  import opened RuntimeDispatch

  // ----- The abstraction -----

  function StatusOf(v: View): Status {
    match v.th.wait
    case OnMutex(m, timer) => if v.owns then Out else Entering(m, timer.Some?)
    case OnCond(c, m, timer) => if v.entry then Waiting(c, m, timer.Some?) else Entering(m, false)
    case _ => Out
  }

  /** The wait happens when the entry is queued: from then on the mutex counts as released, although
      its owner field still names the waiter until the unlock inside the wait. */
  function HolderOf(s: Sys, m: Mid): Option<Tid>
    requires m in s.mutexes
  {
    var o := s.mutexes[m].owner;
    if o.Some? && At(s, o.value, CondUnlock) && s.threads[o.value].wait.OnCond? && s.threads[o.value].wait.m == m then None
    else o
  }

  function Holders(s: Sys): map<Mid, Option<Tid>> {
    map m | m in s.mutexes :: HolderOf(s, m)
  }

  function CondQueues(s: Sys): map<Cid, seq<Tid>> {
    map c | c in s.conds :: Tids(s.conds[c])
  }

  function Statuses(s: Sys): map<Tid, Status> {
    map t | t in s.threads :: StatusOf(ViewOf(s, t))
  }

  function Abs(s: Sys): Monitor {
    Monitor(Holders(s), CondQueues(s), Statuses(s))
  }

  // ----- Effects of the primitive steps on the abstraction -----

  lemma StatusAt(s: Sys, u: Tid)
    requires u in s.threads
    ensures u in Statuses(s) && Statuses(s)[u] == StatusOf(ViewOf(s, u))
  {
  }

  lemma StatusOther(s: Sys, s': Sys, u: Tid)
    requires Unaffected(s, s', u) && Ok(ViewOf(s, u))
    ensures u in Statuses(s) && u in Statuses(s') && Statuses(s')[u] == Statuses(s)[u]
  {
    SameView(s, s', u);
    StatusAt(s, u);
    StatusAt(s', u);
  }

  /** a and b have the same keys and agree except at t and v. */
  ghost predicate SameBut(a: map<Tid, Status>, b: map<Tid, Status>, t: Tid, v: Tid) {
    && a.Keys == b.Keys && t in a && v in a
    && forall u :: u in a && u != t && u != v ==> b[u] == a[u]
  }

  lemma UpdateBut(a: map<Tid, Status>, b: map<Tid, Status>, t: Tid, v: Tid)
    requires SameBut(a, b, t, v)
    ensures b == a[t := b[t]][v := b[v]]
  {
  }

  lemma StatusKeys(s: Sys)
    ensures Statuses(s).Keys == s.threads.Keys
  {
  }

  /** Statuses after a step that leaves everybody but t and v unaffected. */
  lemma StatusFrame(s: Sys, s': Sys, t: Tid, v: Tid)
    requires ThreadsOk(s) && s'.threads.Keys == s.threads.Keys && t in s.threads && v in s.threads
    requires forall u :: u in s.threads && u != t && u != v ==> Unaffected(s, s', u)
    ensures SameBut(Statuses(s), Statuses(s'), t, v)
  {
    StatusKeys(s);
    StatusKeys(s');
    forall u | u in s.threads && u != t && u != v ensures Statuses(s')[u] == Statuses(s)[u] { StatusOther(s, s', u); }
  }

  lemma SameStatuses(s: Sys, s': Sys)
    requires s'.threads.Keys == s.threads.Keys
    requires forall u :: u in s.threads ==> u in Statuses(s) && u in Statuses(s') && Statuses(s')[u] == Statuses(s)[u]
    ensures Statuses(s') == Statuses(s)
  {
    StatusKeys(s);
    StatusKeys(s');
  }

  /** Nobody but t has its holder status changed by a step that leaves owners and other threads alone. */
  lemma HoldersKept(s: Sys, s': Sys)
    requires s'.mutexes.Keys == s.mutexes.Keys && s'.threads.Keys == s.threads.Keys
    requires forall m :: m in s.mutexes ==> s'.mutexes[m].owner == s.mutexes[m].owner
    requires forall u :: u in s.threads ==>
      (s'.threads[u].stage.CondUnlock? <==> s.threads[u].stage.CondUnlock?)
      && (s.threads[u].stage.CondUnlock? ==> s'.threads[u].wait == s.threads[u].wait)
    ensures Holders(s') == Holders(s)
  {
    forall m | m in s.mutexes ensures HolderOf(s', m) == HolderOf(s, m) {}
  }

  lemma CondsKept(s: Sys, s': Sys)
    requires s'.conds == s.conds
    ensures CondQueues(s') == CondQueues(s)
  {
  }

  lemma OutWhenIdle(s: Sys, t: Tid)
    requires t in s.threads && (s.threads[t].wait.NoWait? || s.threads[t].wait.OnJoin? || s.threads[t].wait.OnSleep?)
    ensures t in Statuses(s) && Statuses(s)[t] == Out
  {
    StatusAt(s, t);
  }

  // Beginning a wait.

  lemma RegisterStatus(s: Sys, s': Sys, t: Tid, w: Runtime.Wait, stage: Stage)
    requires ThreadsOk(s) && QueuesOk(s) && CanRegister(s, t, w, stage) && s' == Register(s, t, w, stage)
    ensures SameBut(Statuses(s), Statuses(s'), t, t)
  {
    FreshTimer(s);
    forall u | u in s.threads && u != t ensures Unaffected(s, s', u) { RegisterOther(s, t, w, stage, u); }
    StatusFrame(s, s', t, t);
  }

  /** The status of t once it has registered. */
  function StatusFor(w: Runtime.Wait): Status {
    match w
    case OnMutex(m, timer) => Entering(m, timer.Some?)
    case OnCond(c, m, timer) => Waiting(c, m, timer.Some?)
    case _ => Out
  }

  lemma RegisteredStatus(s: Sys, s': Sys, t: Tid, w: Runtime.Wait, stage: Stage)
    requires CanRegister(s, t, w, stage) && s' == Register(s, t, w, stage)
    ensures t in s'.threads
    ensures StatusOf(ViewOf(s', t)) == StatusFor(w)
  {
    if w.OnCond? { AppendWaits(s.conds[w.c], Entry(t, w.timer)); }
  }

  lemma RegisterHolders(s: Sys, s': Sys, t: Tid, w: Runtime.Wait, stage: Stage)
    requires CanRegister(s, t, w, stage) && s' == Register(s, t, w, stage)
    ensures Holders(s') == if w.OnCond? then Holders(s)[w.m := None] else Holders(s)
  {
    forall n | n in s.mutexes ensures HolderOf(s', n) == if w.OnCond? && n == w.m then None else HolderOf(s, n) {}
  }

  lemma TidsAppend(q: seq<Entry>, e: Entry)
    ensures Tids(q + [e]) == Tids(q) + [e.t]
  {
  }

  lemma RegisterConds'(s: Sys, s': Sys, t: Tid, w: Runtime.Wait, stage: Stage)
    requires CanRegister(s, t, w, stage) && s' == Register(s, t, w, stage)
    ensures CondQueues(s') == if w.OnCond? then CondQueues(s)[w.c := CondQueues(s)[w.c] + [t]] else CondQueues(s)
  {
    if w.OnCond? { TidsAppend(s.conds[w.c], Entry(t, w.timer)); } else { CondsKept(s, s'); }
  }

  lemma RegisterStatuses(s: Sys, s': Sys, t: Tid, w: Runtime.Wait, stage: Stage)
    requires CanRegister(s, t, w, stage) && s' == Register(s, t, w, stage)
    requires SameBut(Statuses(s), Statuses(s'), t, t)
    ensures Statuses(s') == Statuses(s)[t := StatusFor(w)]
  {
    UpdateBut(Statuses(s), Statuses(s'), t, t);
    RegisteredStatus(s, s', t, w, stage);
    StatusAt(s', t);
  }

  lemma AbsRegister(s: Sys, s': Sys, t: Tid, w: Runtime.Wait, stage: Stage)
    requires ThreadsOk(s) && QueuesOk(s) && CanRegister(s, t, w, stage) && s' == Register(s, t, w, stage)
    ensures w.OnMutex? ==> Abs(s') == Abs(s).(status := Statuses(s)[t := Entering(w.m, w.timer.Some?)])
    ensures w.OnCond? ==> Abs(s') == Monitor(Holders(s)[w.m := None],
      CondQueues(s)[w.c := CondQueues(s)[w.c] + [t]], Statuses(s)[t := Waiting(w.c, w.m, w.timer.Some?)])
    ensures w.OnSleep? ==> Abs(s') == Abs(s).(status := Statuses(s)[t := Out])
  {
    RegisterStatus(s, s', t, w, stage);
    RegisterStatuses(s, s', t, w, stage);
    RegisterHolders(s, s', t, w, stage);
    RegisterConds'(s, s', t, w, stage);
  }

  // Acquiring and releasing.

  lemma AcquireStatus(s: Sys, s': Sys, t: Tid, m: Mid)
    requires ThreadsOk(s) && CanAcquire(s, t, m) && s' == Acquire(s, t, m)
    ensures SameBut(Statuses(s), Statuses(s'), t, t)
  {
    var ms := s.mutexes[m].(owner := Some(t), level := s.mutexes[m].level + 1);
    forall u | u in s.threads && u != t ensures Unaffected(s, s', u) { SectionOther(s, s', m, ms, u); }
    StatusFrame(s, s', t, t);
  }

  lemma AcquireHolders(s: Sys, s': Sys, t: Tid, m: Mid)
    requires CanAcquire(s, t, m) && s' == Acquire(s, t, m)
    ensures Holders(s') == Holders(s)[m := Some(t)]
  {
    forall n | n in s.mutexes ensures HolderOf(s', n) == if n == m then Some(t) else HolderOf(s, n) {}
  }

  lemma AbsAcquire(s: Sys, s': Sys, t: Tid, m: Mid)
    requires Inv(s) && CanAcquire(s, t, m) && s' == Acquire(s, t, m)
    ensures Abs(s') == Abs(s).(holder := Holders(s)[m := Some(t)])
    ensures t in Statuses(s) && Statuses(s)[t] == Out
  {
    hide Statuses, Holders, CondQueues, MutexQueueOk;
    AcquireStatus(s, s', t, m);
    UpdateBut(Statuses(s), Statuses(s'), t, t);
    OutWhenIdle(s, t);
    OutWhenIdle(s', t);
    AcquireHolders(s, s', t, m);
    CondsKept(s, s');
  }

  lemma LowerStatus(s: Sys, s': Sys, t: Tid, m: Mid, u: Tid)
    requires CanLower(s, t, m) && s' == Lower(s, t, m) && u in s.threads && Ok(ViewOf(s, u))
    ensures u in Statuses(s) && u in Statuses(s') && Statuses(s')[u] == Statuses(s)[u]
  {
    SectionOther(s, s', m, s.mutexes[m].(level := s.mutexes[m].level - 1), u);
    StatusOther(s, s', u);
  }

  lemma LowerAbs(s: Sys, s': Sys, t: Tid, m: Mid)
    requires ThreadsOk(s) && CanLower(s, t, m) && s' == Lower(s, t, m)
    ensures Abs(s') == Abs(s)
  {
    forall u | u in s.threads ensures u in Statuses(s) && u in Statuses(s') && Statuses(s')[u] == Statuses(s)[u] {
      LowerStatus(s, s', t, m, u);
    }
    SameStatuses(s, s');
    HoldersKept(s, s');
    CondsKept(s, s');
  }

  // The unlock section.

  lemma UnlockStatus(s: Sys, s': Sys, t: Tid, m: Mid, stage: Stage, v: Tid)
    requires ThreadsOk(s) && CanUnlock(s, t, m, stage) && s.mutexes[m].level == 1 && MutexQueueOk(s, m)
    requires v == if s.mutexes[m].queue == [] then t else s.mutexes[m].queue[0].t
    requires s' == UnlockSection(s, t, m, stage)
    requires s.mutexes[m].queue != [] ==> OwnTimer(s, s.mutexes[m].queue[0])
    ensures SameBut(Statuses(s), Statuses(s'), t, v)
  {
    hide Unaffected, OwnTimer, ThreadsOk, SameBut;
    UnlockFields(s, s', t, m, stage);
    GrantedThread(s, m, t, v);
    forall u | u in s.threads && u != t && u != v ensures Unaffected(s, s', u) { UnlockOther(s, t, m, stage, u); }
    StatusFrame(s, s', t, v);
  }

  lemma GrantedThread(s: Sys, m: Mid, t: Tid, v: Tid)
    requires m in s.mutexes && MutexQueueOk(s, m) && t in s.threads
    requires v == if s.mutexes[m].queue == [] then t else s.mutexes[m].queue[0].t
    ensures v in s.threads && Distinct(s.mutexes[m].queue)
  {
    if s.mutexes[m].queue != [] { GrantedEntry(s, m); }
  }

  lemma UnlockerStatus(s: Sys, s': Sys, t: Tid, m: Mid, stage: Stage)
    requires CanUnlock(s, t, m, stage) && MutexQueueOk(s, m) && TimerBound(s, t) && Known(s, s.threads[t].wait)
    requires s.mutexes[m].level == 1 && s' == UnlockSection(s, t, m, stage)
    requires s.mutexes[m].queue != [] ==> OwnTimer(s, s.mutexes[m].queue[0])
    ensures t in Statuses(s) && t in Statuses(s') && Statuses(s')[t] == Statuses(s)[t]
  {
    UnlockerView(s, t, m, stage);
    StatusAt(s, t);
    StatusAt(s', t);
  }

  lemma GrantedStatus(s: Sys, s': Sys, t: Tid, m: Mid, stage: Stage, v: Tid)
    requires CanUnlock(s, t, m, stage) && MutexQueueOk(s, m) && s.mutexes[m].level == 1 && s.mutexes[m].queue != []
    requires OwnTimer(s, s.mutexes[m].queue[0]) && v == s.mutexes[m].queue[0].t && s' == UnlockSection(s, t, m, stage)
    requires Ok(ViewOf(s, v)) && v != t
    ensures v in Statuses(s) && Statuses(s)[v].Entering? && Statuses(s)[v].m == m
    ensures v in Statuses(s') && Statuses(s')[v] == Out
  {
    GrantedEntry(s, m);
    StatusAt(s, v);
    StatusAt(s', v);
    assert WaitFits(ViewOf(s, v));
  }

  lemma UnlockFields(s: Sys, s': Sys, t: Tid, m: Mid, stage: Stage)
    requires CanUnlock(s, t, m, stage) && s' == UnlockSection(s, t, m, stage)
    requires s.mutexes[m].queue != [] ==> OwnTimer(s, s.mutexes[m].queue[0])
    ensures s'.conds == s.conds && s'.threads.Keys == s.threads.Keys
    ensures s'.mutexes == s.mutexes[m := UnlockStep(s.mutexes[m], t).0]
    ensures s'.threads[t].stage == stage
    ensures forall u :: u in s.threads && u != t ==>
      s'.threads[u].stage == s.threads[u].stage && s'.threads[u].wait == s.threads[u].wait
  {
    hide UnlockStep, DoWake, Released;
    var ms, s1 := s.mutexes[m], Released(s, t, m);
    UnlockResultOf(ms, t);
    ReleasedFields(s, s1, t, m);
    if UnlockStep(ms, t).1.Handed? { WakeFields(s1, DoWake(s1, WakeOf(ms.queue[0])), ms.queue[0]); }
  }

  lemma UnlockResultOf(ms: MutexState, t: Tid)
    ensures UnlockStep(ms, t).1.Handed? ==> ms.queue != [] && UnlockStep(ms, t).1.e == ms.queue[0]
  {
  }

  lemma ReleasedFields(s: Sys, s': Sys, t: Tid, m: Mid)
    requires m in s.mutexes && s' == Released(s, t, m)
    ensures s'.threads == s.threads && s'.conds == s.conds && s'.mutexes == s.mutexes[m := UnlockStep(s.mutexes[m], t).0]
  {
    hide UnlockStep;
  }

  lemma UnlockHolders(s: Sys, s': Sys, t: Tid, m: Mid, stage: Stage)
    requires CanUnlock(s, t, m, stage) && s' == UnlockSection(s, t, m, stage) && s.mutexes[m].level == 1
    requires MutexQueueOk(s, m)
    requires s.mutexes[m].queue != [] ==>
      OwnTimer(s, s.mutexes[m].queue[0]) && !s.threads[s.mutexes[m].queue[0].t].stage.CondUnlock?
    ensures Holders(s') == Holders(s)[m := if s.mutexes[m].queue == [] then None else Some(s.mutexes[m].queue[0].t)]
  {
    UnlockFields(s, s', t, m, stage);
    forall n | n in s.mutexes && n != m ensures HolderOf(s', n) == HolderOf(s, n) {
      UnlockHoldersOther(s, s', t, m, stage, n);
    }
  }

  lemma UnlockHoldersOther(s: Sys, s': Sys, t: Tid, m: Mid, stage: Stage, n: Mid)
    requires CanUnlock(s, t, m, stage) && n in s.mutexes && n != m && n in s'.mutexes
    requires s'.mutexes[n] == s.mutexes[n] && s'.threads.Keys == s.threads.Keys && s'.threads[t].stage == stage
    requires forall u :: u in s.threads && u != t ==>
      s'.threads[u].stage == s.threads[u].stage && s'.threads[u].wait == s.threads[u].wait
    ensures HolderOf(s', n) == HolderOf(s, n)
  {
  }

  lemma UnlockStatuses(s: Sys, s': Sys, t: Tid, m: Mid, stage: Stage, v: Tid)
    requires ThreadsOk(s) && CanUnlock(s, t, m, stage) && s.mutexes[m].level == 1 && s' == UnlockSection(s, t, m, stage)
    requires v == if s.mutexes[m].queue == [] then t else s.mutexes[m].queue[0].t
    requires MutexQueueOk(s, m) && TimerBound(s, t) && Known(s, s.threads[t].wait)
    requires s.mutexes[m].queue != [] ==> OwnTimer(s, s.mutexes[m].queue[0]) && Ok(ViewOf(s, v)) && v != t
    ensures v == t ==> Statuses(s') == Statuses(s)
    ensures v != t ==>
      v in Statuses(s) && Statuses(s)[v].Entering? && Statuses(s)[v].m == m && Statuses(s') == Statuses(s)[v := Out]
  {
    UnlockStatus(s, s', t, m, stage, v);
    UnlockerStatus(s, s', t, m, stage);
    if v != t { GrantedStatus(s, s', t, m, stage, v); }
    UpdateTwo(Statuses(s), Statuses(s'), t, v);
  }

  lemma UpdateTwo(a: map<Tid, Status>, b: map<Tid, Status>, t: Tid, v: Tid)
    requires SameBut(a, b, t, v) && b[t] == a[t]
    ensures v == t ==> b == a
    ensures v != t ==> b == a[v := b[v]]
  {
  }

  /** The release: nobody holds the monitor, or the longest waiter of the entry queue does. */
  lemma AbsUnlock(s: Sys, s': Sys, t: Tid, m: Mid, stage: Stage, v: Tid)
    requires Inv(s) && CanUnlock(s, t, m, stage) && s.mutexes[m].level == 1 && s' == UnlockSection(s, t, m, stage)
    requires v == if s.mutexes[m].queue == [] then t else s.mutexes[m].queue[0].t
    ensures s.mutexes[m].queue == [] ==> Abs(s') == Abs(s).(holder := Holders(s)[m := None])
    ensures s.mutexes[m].queue != [] ==>
      && v in Statuses(s) && Statuses(s)[v].Entering? && Statuses(s)[v].m == m
      && Abs(s') == Abs(s).(holder := Holders(s)[m := Some(v)], status := Statuses(s)[v := Out])
  {
    UnlockFacts(s, t, m, stage, v);
    UnlockStatuses(s, s', t, m, stage, v);
    UnlockHolders(s, s', t, m, stage);
    UnlockFields(s, s', t, m, stage);
    CondsKept(s, s');
  }

  lemma UnlockFacts(s: Sys, t: Tid, m: Mid, stage: Stage, v: Tid)
    requires Inv(s) && CanUnlock(s, t, m, stage)
    requires v == if s.mutexes[m].queue == [] then t else s.mutexes[m].queue[0].t
    ensures MutexQueueOk(s, m) && TimerBound(s, t) && Known(s, s.threads[t].wait)
    ensures s.mutexes[m].queue != [] ==> OwnTimer(s, s.mutexes[m].queue[0]) && Ok(ViewOf(s, v)) && v != t
    ensures s.mutexes[m].queue != [] ==> !s.threads[v].stage.CondUnlock?
  {
    ThreadOk(s, t);
    OkBound(s, t);
    MutexFacts(s, m);
    if s.mutexes[m].queue != [] {
      GrantedEntry(s, m);
      FrontOwnsTimer(s, m);
      ThreadOk(s, v);
    }
  }

  // Notification.

  lemma PopStatus(s: Sys, s': Sys, c: Cid, t: Tid)
    requires ThreadsOk(s) && c in s.conds && s.conds[c] != [] && CondQueueOk(s, c) && s' == PopWaiter(s, c)
    requires t == s.conds[c][0].t && t in s.threads
    ensures SameBut(Statuses(s), Statuses(s'), t, t)
  {
    var e, s1 := s.conds[c][0], PopCond(s, c);
    PoppedSelf(s, c);
    forall u | u in s.threads && u != t ensures Unaffected(s, s', u) {
      PopOther(s, c, u);
      WakeOther(s1, e, u);
      UnaffectedTrans(s, s1, s', u);
    }
    StatusFrame(s, s', t, t);
  }

  lemma PostFields(s: Sys, s': Sys, t: Tid)
    requires t in s.threads && s' == Post(s, t)
    ensures s' == s.(threads := s'.threads) && s'.threads.Keys == s.threads.Keys
    ensures forall u :: u in s.threads ==>
      s'.threads[u].stage == s.threads[u].stage && s'.threads[u].wait == s.threads[u].wait
  {
  }

  lemma CancelFields(s: Sys, s': Sys, x: TimerId)
    requires s' == CancelTimer(s, x)
    ensures s' == s.(timers := s'.timers)
  {
  }

  /** Waking changes no queue, owner, stage or wait. */
  lemma WakeFields(s: Sys, s': Sys, e: Entry)
    requires e.t in s.threads && s' == DoWake(s, WakeOf(e))
    ensures s'.mutexes == s.mutexes && s'.conds == s.conds && s'.threads.Keys == s.threads.Keys
    ensures forall u :: u in s.threads ==>
      s'.threads[u].stage == s.threads[u].stage && s'.threads[u].wait == s.threads[u].wait
  {
    if e.timer.None? { PostFields(s, s', e.t); } else { CancelFields(s, s', e.timer.value); }
  }

  lemma PopFields(s: Sys, s': Sys, c: Cid)
    requires c in s.conds && s.conds[c] != [] && s.conds[c][0].t in s.threads && s' == PopWaiter(s, c)
    ensures s'.mutexes == s.mutexes && s'.threads.Keys == s.threads.Keys && s'.conds == s.conds[c := s.conds[c][1..]]
    ensures forall u :: u in s.threads ==>
      s'.threads[u].stage == s.threads[u].stage && s'.threads[u].wait == s.threads[u].wait
  {
    WakeFields(PopCond(s, c), s', s.conds[c][0]);
  }

  lemma CondStatus(s: Sys, t: Tid, c: Cid, m: Mid)
    requires t in s.threads && c in s.conds
    requires s.threads[t].wait.OnCond? && s.threads[t].wait.c == c && s.threads[t].wait.m == m
    ensures t in Statuses(s)
    ensures Statuses(s)[t] ==
      if Waits(s.conds[c], t) then Waiting(c, m, s.threads[t].wait.timer.Some?) else Entering(m, false)
  {
    StatusAt(s, t);
  }

  lemma PoppedStatus(s: Sys, s': Sys, c: Cid, t: Tid, m: Mid)
    requires c in s.conds && s.conds[c] != [] && Distinct(s.conds[c]) && s' == PopWaiter(s, c)
    requires t == s.conds[c][0].t && t in s.threads && WaitsOnCond(s.threads[t].wait, c, s.conds[c][0].timer)
    requires m == s.threads[t].wait.m
    ensures t in Statuses(s) && Statuses(s)[t].Waiting? && Statuses(s)[t].c == c && Statuses(s)[t].m == m
    ensures t in Statuses(s') && Statuses(s')[t] == Entering(m, false)
  {
    PopFields(s, s', c);
    CondStatus(s, t, c, m);
    CondStatus(s', t, c, m);
  }

  lemma TidsTail(q: seq<Entry>)
    requires q != []
    ensures Tids(q)[0] == q[0].t && Tids(q[1..]) == Tids(q)[1..] && Tids(q) != []
  {
  }

  lemma PopConds(s: Sys, s': Sys, c: Cid)
    requires c in s.conds && s.conds[c] != [] && s'.conds == s.conds[c := s.conds[c][1..]]
    ensures CondQueues(s') == CondQueues(s)[c := CondQueues(s)[c][1..]]
    ensures CondQueues(s)[c] != [] && CondQueues(s)[c][0] == s.conds[c][0].t
  {
    TidsTail(s.conds[c]);
  }

  lemma PopStatuses(s: Sys, s': Sys, c: Cid, t: Tid, m: Mid)
    requires ThreadsOk(s) && c in s.conds && s.conds[c] != [] && CondQueueOk(s, c) && s' == PopWaiter(s, c)
    requires t == s.conds[c][0].t && t in s.threads && s.threads[t].wait.OnCond? && m == s.threads[t].wait.m
    ensures t in Statuses(s) && Statuses(s)[t].Waiting? && Statuses(s)[t].c == c && Statuses(s)[t].m == m
    ensures Statuses(s') == Statuses(s)[t := Entering(m, false)]
  {
    assert s.conds[c][0] in s.conds[c];
    PopStatus(s, s', c, t);
    UpdateBut(Statuses(s), Statuses(s'), t, t);
    PoppedStatus(s, s', c, t, m);
  }

  lemma FrontWaitsOnCond(s: Sys, c: Cid)
    requires Inv(s) && c in s.conds && s.conds[c] != []
    ensures CondQueueOk(s, c) && s.conds[c][0].t in s.threads && s.threads[s.conds[c][0].t].wait.OnCond?
  {
    FrontWaiter(s, c);
    assert s.conds[c][0] in s.conds[c];
  }

  /** A notification moves the longest waiter, and nobody else. */
  lemma AbsPop(s: Sys, s': Sys, c: Cid)
    requires Inv(s) && c in s.conds && s.conds[c] != [] && s' == PopWaiter(s, c)
    ensures Can(Abs(s), Signal(c)) && Abs(s') == Do(Abs(s), Signal(c))
  {
    FrontWaitsOnCond(s, c);
    var t := s.conds[c][0].t;
    PopStatuses(s, s', c, t, s.threads[t].wait.m);
    PopFields(s, s', c);
    HoldersKept(s, s');
    PopConds(s, s', c);
  }

  lemma PopShrinks(s: Sys, c: Cid)
    requires Inv(s) && c in s.conds && s.conds[c] != []
    ensures Inv(PopWaiter(s, c)) && c in PopWaiter(s, c).conds && |PopWaiter(s, c).conds[c]| == |s.conds[c]| - 1
  {
    PopWaiterInv(s, c);
  }

  /** notify_all moves exactly the threads that were queued, one by one from the front. */
  lemma {:induction false} AbsPopAll(s: Sys, c: Cid)
    requires Inv(s) && c in s.conds
    ensures Perform(Abs(s), Signals(c, |s.conds[c]|)) == Some(Abs(PopAllWaiters(s, c)))
    ensures c in PopAllWaiters(s, c).conds && PopAllWaiters(s, c).conds[c] == []
    decreases |s.conds[c]|
  {
    if s.conds[c] != [] {
      var s1 := PopWaiter(s, c);
      PopShrinks(s, c);
      AbsPop(s, s1, c);
      AbsPopAll(s1, c);
      PerformFirst(Abs(s), Abs(s1), Signal(c), Signals(c, |s1.conds[c]|));
    }
  }

  // Leaving a call.

  lemma LeaveStatus(s: Sys, s': Sys, t: Tid)
    requires ThreadsOk(s) && At(s, t, Woken) && s' == Leave(s, t)
    ensures SameBut(Statuses(s), Statuses(s'), t, t)
  {
    OkBound(s, t);
    forall u | u in s.threads && u != t ensures Unaffected(s, s', u) { LeaveOther(s, t, u); }
    StatusFrame(s, s', t, t);
  }

  lemma LeaveFields(s: Sys, s': Sys, t: Tid)
    requires At(s, t, Woken) && s' == Leave(s, t)
    ensures s'.mutexes == s.mutexes && s'.conds == s.conds && s'.threads.Keys == s.threads.Keys
    ensures s'.threads[t].stage.Running? && s'.threads[t].wait.NoWait?
    ensures forall u :: u in s.threads && u != t ==> s'.threads[u] == s.threads[u]
  {
  }

  lemma LeaveStatuses(s: Sys, s': Sys, t: Tid)
    requires ThreadsOk(s) && At(s, t, Woken) && s' == Leave(s, t)
    ensures Statuses(s') == Statuses(s)[t := Out]
  {
    LeaveStatus(s, s', t);
    UpdateBut(Statuses(s), Statuses(s'), t, t);
    LeaveFields(s, s', t);
    OutWhenIdle(s', t);
  }

  lemma AbsLeave(s: Sys, s': Sys, t: Tid)
    requires ThreadsOk(s) && At(s, t, Woken) && s' == Leave(s, t)
    ensures Abs(s') == Abs(s).(status := Statuses(s)[t := Out])
  {
    LeaveStatuses(s, s', t);
    LeaveFields(s, s', t);
    HoldersKept(s, s');
    CondsKept(s, s');
  }

  lemma HistoryAbs(s: Sys, s': Sys)
    requires s' == s.(held := s'.held)
    ensures Abs(s') == Abs(s)
  {
    forall u | u in s.threads ensures ViewOf(s', u) == ViewOf(s, u) {}
    assert Statuses(s') == Statuses(s);
    HoldersKept(s, s');
    CondsKept(s, s');
  }
}
