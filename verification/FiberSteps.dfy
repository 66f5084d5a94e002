/** Each step of the blocking primitives keeps the invariant. */
module FiberSteps {

  import opened Basics
  import opened FiberModel
  import opened FiberInvariant

  // ---- what an update leaves alone

  ghost predicate SameT(s: State, s': State, t: Tid) {
    forall u :: u != t ==> T(s', u) == T(s, u)
  }

  ghost predicate SameQ(s: State, s': State, q: Queue) {
    forall p :: p != q ==> Q(s', p) == Q(s, p)
  }

  ghost predicate AllT(s: State, s': State) {
    forall u :: T(s', u) == T(s, u)
  }

  ghost predicate AllQ(s: State, s': State) {
    forall p :: Q(s', p) == Q(s, p)
  }

  ghost predicate AllM(s: State, s': State) {
    forall m :: M(s', m) == M(s, m)
  }

  ghost predicate AllL(s: State, s': State) {
    forall l :: L(s', l) == L(s, l)
  }

  lemma {:induction false} EnqueueGets(s: State, t: Tid, q: Queue, m: nat)
    ensures var s' := Enqueue(s, t, q, m);
            && SameT(s, s', t) && T(s', t) == Thread(InWait(q, m), false, true, 0)
            && SameQ(s, s', q) && Q(s', q) == Q(s, q) + [t] && AllM(s, s') && AllL(s, s')
  {
  }

  lemma {:induction false} ResumeGets(s: State, t: Tid)
    requires T(s, t).pc.InWait?
    ensures var w, s' := T(s, t), DoResume(s, t);
            && SameT(s, s', t) && T(s', t) == w.(pc := After(w.pc.q, w.pc.m, w.onlist), onlist := false)
            && SameQ(s, s', w.pc.q) && AllM(s, s') && AllL(s, s')
            && Q(s', w.pc.q) == if w.onlist then Without(Q(s, w.pc.q), t) else Q(s, w.pc.q)
  {
  }

  lemma {:induction false} WakeupGets(s: State, q: Queue)
    requires Q(s, q) != []
    ensures var t, s' := Q(s, q)[0], WakeupOne(s, q);
            && SameT(s, s', t) && T(s', t) == Wakened(T(s, t))
            && SameQ(s, s', q) && Q(s', q) == Q(s, q)[1..] && AllM(s, s') && AllL(s, s')
  {
  }

  lemma {:induction false} GotoGets(s: State, t: Tid, pc: Pc)
    ensures var s' := Goto(s, t, pc);
            && SameT(s, s', t) && T(s', t) == T(s, t).(pc := pc)
            && AllQ(s, s') && AllM(s, s') && AllL(s, s')
  {
  }

  // ---- the waiters

  lemma {:induction false} EnqueueQueued(s: State, t: Tid, q: Queue, m: nat)
    requires Queued(s) && Waits(s) && !T(s, t).pc.InWait?
    ensures Queued(Enqueue(s, t, q, m)) && Waits(Enqueue(s, t, q, m))
  {
    EnqueueGets(s, t, q, m);
  }

  lemma {:induction false} ResumeQueued(s: State, t: Tid)
    requires Queued(s) && Waits(s) && T(s, t).pc.InWait? && T(s, t).runnable
    ensures Queued(DoResume(s, t)) && Waits(DoResume(s, t))
  {
    ResumeGets(s, t);
    WithoutFacts(Q(s, T(s, t).pc.q), t);
  }

  lemma {:induction false} WakeupQueued(s: State, q: Queue)
    requires Queued(s) && Waits(s)
    ensures Queued(WakeupOne(s, q)) && Waits(WakeupOne(s, q))
  {
    if Q(s, q) != [] {
      WakeupGets(s, q);
      var l := Q(s, q);
      assert l == [l[0]] + l[1..] && l[0] !in l[1..];
    }
  }

  lemma {:induction false} WakeupAllQueued(s: State, q: Queue)
    requires Queued(s) && Waits(s)
    ensures Queued(WakeupAll(s, q)) && Waits(WakeupAll(s, q))
    decreases |Q(s, q)|
  {
    WakeupQueued(s, q);
    if Q(s, q) == [] {
    } else {
      WakeupAllQueued(WakeupOne(s, q), q);
    }
  }

  lemma {:induction false} GotoQueued(s: State, t: Tid, pc: Pc)
    requires Queued(s) && Waits(s) && !T(s, t).pc.InWait? && !pc.InWait?
    ensures Queued(Goto(s, t, pc)) && Waits(Goto(s, t, pc))
  {
    assert WaitOk(T(s, t));
    GotoGets(s, t, pc);
  }

  lemma {:induction false} WakeGets(s: State, t: Tid)
    ensures var s' := DoWake(s, t);
            && SameT(s, s', t) && T(s', t) == T(s, t).(runnable := true)
            && AllQ(s, s') && AllM(s, s') && AllL(s, s')
  {
  }

  lemma {:induction false} SetMutexGets(s: State, m: nat, x: Mutex)
    ensures var s' := SetMutex(s, m, x);
            && AllT(s, s') && AllQ(s, s') && AllL(s, s')
            && M(s', m) == x && forall y :: y != m ==> M(s', y) == M(s, y)
  {
  }

  lemma {:induction false} SetRwGets(s: State, l: nat, x: Rw)
    ensures var s' := SetRw(s, l, x);
            && AllT(s, s') && AllQ(s, s') && AllM(s, s')
            && L(s', l) == x && forall y :: y != l ==> L(s', y) == L(s, y)
  {
  }

  /** A change of threads and queues only. */
  ghost predicate LocksSame(s: State, s': State) {
    AllM(s, s') && AllL(s, s')
  }

  // ---- who is about to try again

  lemma {:induction false} PendingStays(s: State, s': State, t: Tid, q: Queue)
    requires SameT(s, s', t) && (Pending(T(s, t), q) ==> Pending(T(s', t), q))
    ensures SomePending(s, q) ==> SomePending(s', q)
  {
    if SomePending(s, q) {
      var u :| Pending(T(s, u), q);
      assert Pending(T(s', u), q);
    }
  }

  lemma {:induction false} WakeupPends(s: State, p: Queue)
    requires Queued(s)
    ensures forall q :: SomePending(s, q) ==> SomePending(WakeupOne(s, p), q)
    ensures Q(s, p) != [] ==> SomePending(WakeupOne(s, p), p)
    ensures forall q :: Q(WakeupOne(s, p), q) != [] ==> Q(s, q) != []
    ensures forall q :: q != p ==> Q(WakeupOne(s, p), q) == Q(s, q)
  {
    if Q(s, p) != [] {
      var t, s' := Q(s, p)[0], WakeupOne(s, p);
      WakeupGets(s, p);
      assert Linked(T(s, t), p) && Pending(T(s', t), p);
      forall q
        ensures SomePending(s, q) ==> SomePending(s', q)
      {
        PendingStays(s, s', t, q);
      }
    }
  }

  ghost predicate Live(s: State) {
    MutexesLive(s) && RwsLive(s)
  }

  lemma {:induction false} WakeupLocks(s: State, p: Queue)
    ensures LocksSame(s, WakeupOne(s, p))
  {
    if Q(s, p) != [] {
      WakeupGets(s, p);
    }
  }

  lemma {:induction false} WakeupLive(s: State, p: Queue)
    requires Queued(s) && Live(s)
    ensures Live(WakeupOne(s, p))
  {
    var s' := WakeupOne(s, p);
    WakeupPends(s, p);
    WakeupLocks(s, p);
    forall m
      ensures MutexLive(s', m)
    {
      assert MutexLive(s, m);
    }
    forall l
      ensures RwLive(s', l)
    {
      assert RwLive(s, l);
    }
  }

  /** Nobody needs to be about to try again. */
  ghost predicate Settled(s: State, q: Queue) {
    match q
    case MutexQ(m) => M(s, m).v != 0
    case WriteQ(l) => L(s, l).o.Some?
    case _ => true
  }

  /** A change of one thread that leaves queues and locks alone; if it was about to try again
      and no longer is, that is settled. */
  lemma {:induction false} QuietLive(s: State, s': State, t: Tid)
    requires Live(s) && SameT(s, s', t) && AllQ(s, s') && LocksSame(s, s')
    requires forall q :: Pending(T(s, t), q) && !Pending(T(s', t), q) ==> Settled(s, q)
    ensures Live(s')
  {
    forall m
      ensures MutexLive(s', m)
    {
      assert MutexLive(s, m);
      if !Settled(s, MutexQ(m)) {
        PendingStays(s, s', t, MutexQ(m));
      }
    }
    forall l
      ensures RwLive(s', l)
    {
      assert RwLive(s, l);
      if !Settled(s, WriteQ(l)) {
        PendingStays(s, s', t, WriteQ(l));
      }
    }
  }

  /** Taking a mutex: whoever takes it, it is not free. */
  lemma {:induction false} TakeMutexLive(s: State, t: Tid, m: nat)
    requires Live(s)
    ensures Live(TakeMutex(s, t, m))
  {
    var s' := TakeMutex(s, t, m);
    SetMutexGets(s, m, Entered(M(s, m), t));
    QueuesPend(s, s');
    forall x
      ensures MutexLive(s', x)
    {
      assert MutexLive(s, x);
    }
    forall l
      ensures RwLive(s', l)
    {
      assert RwLive(s, l);
    }
  }

  lemma {:induction false} QueuesPend(s: State, s': State)
    requires AllT(s, s')
    ensures forall q :: SomePending(s, q) ==> SomePending(s', q)
  {
    forall q | SomePending(s, q)
      ensures SomePending(s', q)
    {
      var u :| Pending(T(s, u), q);
      assert Pending(T(s', u), q);
    }
  }

  /** Entering a lock nobody is in the way of. */
  lemma {:induction false} TakeRwLive(s: State, t: Tid, l: nat, writer: bool)
    requires Live(s)
    ensures Live(TakeRw(s, t, l, writer))
  {
    var s' := TakeRw(s, t, l, writer);
    SetRwGets(s, l, RwEntered(L(s, l), t, writer));
    QueuesPend(s, s');
    forall m
      ensures MutexLive(s', m)
    {
      assert MutexLive(s, m);
    }
    forall x
      ensures RwLive(s', x)
    {
      assert RwLive(s, x);
    }
  }

  /** Leaving a mutex: the last one out wakes a waiter. */
  lemma {:induction false} DropMutexLive(s: State, t: Tid, m: nat)
    requires Queued(s) && Live(s) && M(s, m).v > 0
    ensures Live(DropMutex(s, t, m))
  {
    var s1, s' := SetMutex(s, m, Left(M(s, m), t)), DropMutex(s, t, m);
    SetMutexGets(s, m, Left(M(s, m), t));
    QueuesPend(s, s1);
    WakeupPends(s1, MutexQ(m));
    WakeupLocks(s1, MutexQ(m));
    forall x
      ensures MutexLive(s', x)
    {
      assert MutexLive(s, x);
    }
    forall l
      ensures RwLive(s', l)
    {
      assert RwLive(s, l);
    }
  }

  lemma {:induction false} WakeupAllEmpties(s: State, p: Queue)
    requires Queued(s) && Waits(s)
    ensures Q(WakeupAll(s, p), p) == [] && LocksSame(s, WakeupAll(s, p))
    ensures forall q :: SomePending(s, q) ==> SomePending(WakeupAll(s, p), q)
    ensures forall q :: q != p ==> Q(WakeupAll(s, p), q) == Q(s, q)
    decreases |Q(s, p)|
  {
    if Q(s, p) == [] {
    } else {
      WakeupQueued(s, p);
      WakeupPends(s, p);
      WakeupLocks(s, p);
      WakeupAllEmpties(WakeupOne(s, p), p);
    }
  }

  lemma {:induction false} DropToWriter(s: State, t: Tid, l: nat)
    requires Queued(s) && Live(s) && Q(s, WriteQ(l)) != []
    ensures Live(DropRw(s, t, l))
  {
    var s1, s' := SetRw(s, l, RwLeft(L(s, l), t)), DropRw(s, t, l);
    SetRwGets(s, l, RwLeft(L(s, l), t));
    QueuesPend(s, s1);
    WakeupPends(s1, WriteQ(l));
    WakeupLocks(s1, WriteQ(l));
    forall m
      ensures MutexLive(s', m)
    {
      assert MutexLive(s, m);
    }
    forall x
      ensures RwLive(s', x)
    {
      assert RwLive(s, x);
    }
  }

  lemma {:induction false} DropToReaders(s: State, t: Tid, l: nat)
    requires Queued(s) && Waits(s) && Live(s) && Q(s, WriteQ(l)) == []
    ensures Live(DropRw(s, t, l))
  {
    var s1, s' := SetRw(s, l, RwLeft(L(s, l), t)), DropRw(s, t, l);
    SetRwGets(s, l, RwLeft(L(s, l), t));
    QueuesPend(s, s1);
    SameQueued(s, s1);
    WakeupAllEmpties(s1, ReadQ(l));
    forall m
      ensures MutexLive(s', m)
    {
      assert MutexLive(s, m);
    }
    forall x
      ensures RwLive(s', x)
    {
      assert RwLive(s, x);
    }
  }

  /** Leaving a lock: a writer is woken if one waits, else all readers. */
  lemma {:induction false} DropRwLive(s: State, t: Tid, l: nat)
    requires Queued(s) && Waits(s) && Live(s)
    ensures Live(DropRw(s, t, l))
  {
    if Q(s, WriteQ(l)) != [] {
      DropToWriter(s, t, l);
    } else {
      DropToReaders(s, t, l);
    }
  }

  /** Somebody is in the way of those who wait here. */
  ghost predicate Barred(s: State, q: Queue) {
    match q
    case MutexQ(m) => M(s, m).v != 0
    case ReadQ(l) => RwBusy(s, l, false)
    case WriteQ(l) => RwBusy(s, l, true)
    case CondQ(_) => true
  }

  lemma {:induction false} EnqueueLive(s: State, t: Tid, q: Queue, m: nat)
    requires Live(s) && Barred(s, q) && forall p :: Pending(T(s, t), p) ==> p == q
    ensures Live(Enqueue(s, t, q, m))
  {
    var s' := Enqueue(s, t, q, m);
    EnqueueGets(s, t, q, m);
    forall x
      ensures MutexLive(s', x)
    {
      assert MutexLive(s, x);
      if MutexQ(x) != q {
        PendingStays(s, s', t, MutexQ(x));
      }
    }
    forall l
      ensures RwLive(s', l)
    {
      assert RwLive(s, l);
      if WriteQ(l) != q {
        PendingStays(s, s', t, WriteQ(l));
      }
    }
  }

  /** Back from the queue, a thread is about to try again. */
  lemma {:induction false} ResumeLive(s: State, t: Tid)
    requires Queued(s) && Live(s) && T(s, t).pc.InWait?
    ensures Live(DoResume(s, t))
  {
    var s', q := DoResume(s, t), T(s, t).pc.q;
    ResumeGets(s, t);
    WithoutFacts(Q(s, q), t);
    forall m
      ensures MutexLive(s', m)
    {
      assert MutexLive(s, m);
      PendingStays(s, s', t, MutexQ(m));
    }
    forall l
      ensures RwLive(s', l)
    {
      assert RwLive(s, l);
      PendingStays(s, s', t, WriteQ(l));
      if q == WriteQ(l) {
        assert Pending(T(s', t), WriteQ(l));
      }
    }
  }

  // ---- owners and holders

  ghost predicate Owners(s: State) {
    Mutexes(s) && Rws(s)
  }

  lemma {:induction false} SameOwners(s: State, s': State)
    requires Owners(s) && LocksSame(s, s')
    ensures Owners(s')
  {
  }

  lemma {:induction false} EnterOk(x: Mutex, t: Tid)
    requires MutexOk(x) && !MutexBusy(x, t)
    ensures MutexOk(Entered(x, t))
  {
  }

  lemma {:induction false} LeaveOk(x: Mutex, t: Tid)
    requires MutexOk(x) && t in x.held
    ensures x.v > 0 && x.o == Some(t) && MutexOk(Left(x, t))
  {
  }

  lemma {:induction false} TakeMutexOwners(s: State, t: Tid, m: nat)
    requires Owners(s) && !MutexBusy(M(s, m), t)
    ensures Owners(TakeMutex(s, t, m))
  {
    SetMutexGets(s, m, Entered(M(s, m), t));
    EnterOk(M(s, m), t);
  }

  lemma {:induction false} DropMutexOwners(s: State, t: Tid, m: nat)
    requires Owners(s) && t in M(s, m).held
    ensures M(s, m).v > 0 && Owners(DropMutex(s, t, m))
  {
    LeaveOk(M(s, m), t);
    SetMutexGets(s, m, Left(M(s, m), t));
    WakeupLocks(SetMutex(s, m, Left(M(s, m), t)), MutexQ(m));
  }

  lemma {:induction false} TakeRwOwners(s: State, t: Tid, l: nat, writer: bool)
    requires Owners(s) && !RwBusy(s, l, writer)
    ensures Owners(TakeRw(s, t, l, writer))
  {
    SetRwGets(s, l, RwEntered(L(s, l), t, writer));
    assert RwOk(L(s, l));
  }

  lemma {:induction false} DropRwOwners(s: State, t: Tid, l: nat)
    requires Owners(s) && Queued(s) && Waits(s) && t in L(s, l).held
    ensures Owners(DropRw(s, t, l))
  {
    var s1 := SetRw(s, l, RwLeft(L(s, l), t));
    SetRwGets(s, l, RwLeft(L(s, l), t));
    assert RwOk(L(s, l));
    WakeupLocks(s1, WriteQ(l));
    WakeupAllEmpties(s1, ReadQ(l));
  }

  // ---- counting the threads in a condition variable

  lemma {:induction false} InsideIs(s: State, c: nat, t: Tid)
    ensures t in Inside(s, c) <==> InCv(T(s, t), c)
  {
  }

  /** A change of one thread that neither enters nor leaves a condition variable. */
  lemma {:induction false} InsideSame(s: State, s': State, t: Tid, c: nat)
    requires SameT(s, s', t) && (InCv(T(s, t), c) <==> InCv(T(s', t), c))
    ensures Inside(s', c) == Inside(s, c)
  {
    forall u
      ensures u in Inside(s', c) <==> u in Inside(s, c)
    {
      InsideIs(s, c, u);
      InsideIs(s', c, u);
    }
  }

  lemma {:induction false} CountsSame(s: State, s': State, t: Tid)
    requires Counts(s) && SameT(s, s', t) && (forall c :: N(s', c) == N(s, c))
    requires forall c :: InCv(T(s, t), c) <==> InCv(T(s', t), c)
    ensures Counts(s')
  {
    forall c
      ensures N(s', c) == |Inside(s', c)|
    {
      InsideSame(s, s', t, c);
    }
  }

  lemma {:induction false} AddWaitersGets(s: State, c: nat, n: int)
    ensures var s' := AddWaiters(s, c, n);
            && AllT(s, s') && AllQ(s, s') && LocksSame(s, s')
            && N(s', c) == N(s, c) + n && forall d :: d != c ==> N(s', d) == N(s, d)
  {
  }

  lemma {:induction false} InsideChanges(s: State, s': State, t: Tid, c: nat)
    requires SameT(s, s', t) && InCv(T(s, t), c) != InCv(T(s', t), c)
    ensures |Inside(s', c)| == |Inside(s, c)| + if InCv(T(s', t), c) then 1 else -1
  {
    forall u
      ensures u in Inside(s', c) <==> (if u == t then InCv(T(s', t), c) else u in Inside(s, c))
    {
      InsideIs(s, c, u);
      InsideIs(s', c, u);
    }
    InsideIs(s, c, t);
    if InCv(T(s', t), c) {
      assert Inside(s', c) == Inside(s, c) + {t};
    } else {
      assert Inside(s', c) == Inside(s, c) - {t};
    }
  }

  /** Entering or leaving the wait for `c` together with the count. */
  lemma {:induction false} CountsChange(s: State, t: Tid, c: nat, n: int, pc: Pc)
    requires Counts(s)
    requires var w := T(s, t);
             && (forall d :: d != c ==> (InCv(w, d) <==> InCv(w.(pc := pc), d)))
             && (if n == 1 then !InCv(w, c) && InCv(w.(pc := pc), c)
                 else n == -1 && InCv(w, c) && !InCv(w.(pc := pc), c))
    ensures Counts(Goto(AddWaiters(s, c, n), t, pc))
  {
    var s1, s' := AddWaiters(s, c, n), Goto(AddWaiters(s, c, n), t, pc);
    AddWaitersGets(s, c, n);
    GotoGets(s1, t, pc);
    assert forall d :: N(s', d) == N(s1, d);
    assert SameT(s, s', t) && T(s', t) == T(s, t).(pc := pc);
    forall d
      ensures N(s', d) == |Inside(s', d)|
    {
      if d == c {
        InsideChanges(s, s', t, c);
      } else {
        InsideSame(s, s', t, d);
      }
    }
  }

  // ---- the way into a condition variable

  ghost predicate Rest(s: State) {
    Counts(s) && Holding(s)
  }

  /** A change of one thread that neither enters nor leaves a condition variable and leaves
      the locks alone. */
  lemma {:induction false} ThreadRest(s: State, s': State, t: Tid)
    requires Rest(s) && SameT(s, s', t) && s'.nwaiters == s.nwaiters && AllM(s, s')
    requires forall c :: InCv(T(s, t), c) <==> InCv(T(s', t), c)
    requires AtEnd(T(s', t).pc) ==> T(s', t).pc == T(s, t).pc || t in M(s, T(s', t).pc.m).held
    ensures Rest(s')
  {
    CountsSame(s, s', t);
    forall u | AtEnd(T(s', u).pc)
      ensures u in M(s', T(s', u).pc.m).held
    {
      assert u != t ==> T(s, u) == T(s', u);
    }
  }

  lemma {:induction false} WakeupRest(s: State, q: Queue)
    requires Queued(s) && Rest(s)
    ensures Rest(WakeupOne(s, q))
  {
    if Q(s, q) != [] {
      WakeupGets(s, q);
      assert Linked(T(s, Q(s, q)[0]), q);
      ThreadRest(s, WakeupOne(s, q), Q(s, q)[0]);
    }
  }

  lemma {:induction false} WakeupAllRest(s: State, q: Queue)
    requires Queued(s) && Waits(s) && Rest(s)
    ensures Rest(WakeupAll(s, q))
    decreases |Q(s, q)|
  {
    if Q(s, q) == [] {
    } else {
      WakeupQueued(s, q);
      WakeupRest(s, q);
      WakeupAllRest(WakeupOne(s, q), q);
    }
  }

  /** A change of one mutex that keeps it with those who are about to leave it. */
  lemma {:induction false} MutexRest(s: State, m: nat, x: Mutex)
    requires Rest(s)
    requires forall t :: AtEnd(T(s, t).pc) && T(s, t).pc.m == m ==> t in x.held
    ensures Rest(SetMutex(s, m, x))
  {
    var s' := SetMutex(s, m, x);
    SetMutexGets(s, m, x);
    forall c
      ensures N(s', c) == |Inside(s', c)|
    {
      assert N(s', c) == N(s, c) && Inside(s', c) == Inside(s, c);
    }
    forall u | AtEnd(T(s', u).pc)
      ensures u in M(s', T(s', u).pc.m).held
    {
      assert T(s, u).pc == T(s', u).pc;
    }
  }

  lemma {:induction false} RwRest(s: State, l: nat, x: Rw)
    requires Rest(s)
    ensures Rest(SetRw(s, l, x))
  {
    SetRwGets(s, l, x);
    ThreadRest(s, SetRw(s, l, x), 0);
  }

  lemma {:induction false} TakeMutexRest(s: State, t: Tid, m: nat)
    requires Rest(s)
    ensures Rest(TakeMutex(s, t, m))
  {
    forall u | AtEnd(T(s, u).pc) && T(s, u).pc.m == m
      ensures u in Entered(M(s, m), t).held
    {
      assert u in M(s, T(s, u).pc.m).held;
    }
    MutexRest(s, m, Entered(M(s, m), t));
  }

  /** By a thread that is not on its way into a condition variable with this mutex. */
  lemma {:induction false} DropMutexRest(s: State, t: Tid, m: nat)
    requires Queued(s) && Rest(s) && M(s, m).v > 0 && !AtEnd(T(s, t).pc)
    ensures Rest(DropMutex(s, t, m))
  {
    forall u | AtEnd(T(s, u).pc) && T(s, u).pc.m == m
      ensures u in Left(M(s, m), t).held
    {
      assert u in M(s, T(s, u).pc.m).held && u != t;
    }
    MutexRest(s, m, Left(M(s, m), t));
    SetMutexGets(s, m, Left(M(s, m), t));
    SameQueued(s, SetMutex(s, m, Left(M(s, m), t)));
    WakeupRest(SetMutex(s, m, Left(M(s, m), t)), MutexQ(m));
  }

  lemma {:induction false} SameQueued(s: State, s': State)
    requires AllT(s, s') && AllQ(s, s')
    ensures Queued(s) ==> Queued(s')
    ensures Waits(s) ==> Waits(s')
  {
  }

  lemma {:induction false} WakeupPc(s: State, q: Queue)
    ensures forall u :: T(WakeupOne(s, q), u).pc == T(s, u).pc
    ensures WakeupOne(s, q).nwaiters == s.nwaiters
  {
    if Q(s, q) != [] {
      WakeupGets(s, q);
    }
  }

  lemma {:induction false} DropMutexPc(s: State, t: Tid, m: nat)
    requires M(s, m).v > 0
    ensures var s' := DropMutex(s, t, m);
            && (forall u :: T(s', u).pc == T(s, u).pc) && s'.nwaiters == s.nwaiters
            && M(s', m) == Left(M(s, m), t) && (forall x :: x != m ==> M(s', x) == M(s, x))
            && AllL(s, s') && (forall q :: q != MutexQ(m) ==> Q(s', q) == Q(s, q))
  {
    var s1 := SetMutex(s, m, Left(M(s, m), t));
    SetMutexGets(s, m, Left(M(s, m), t));
    WakeupPc(s1, MutexQ(m));
    WakeupLocks(s1, MutexQ(m));
    if Q(s1, MutexQ(m)) != [] {
      WakeupGets(s1, MutexQ(m));
    }
  }

  lemma {:induction false} CountsPc(s: State, s': State)
    requires Counts(s) && s'.nwaiters == s.nwaiters
    requires forall u, c :: InCv(T(s', u), c) <==> InCv(T(s, u), c)
    ensures Counts(s')
  {
    forall c
      ensures N(s', c) == |Inside(s', c)|
    {
      forall u
        ensures u in Inside(s', c) <==> u in Inside(s, c)
      {
        InsideIs(s, c, u);
        InsideIs(s', c, u);
      }
      assert Inside(s', c) == Inside(s, c);
      assert N(s', c) == N(s, c);
    }
  }

  /** Leaving the mutex and queueing up at the condition variable. */
  lemma {:induction false} LeaveRest(s: State, t: Tid, c: nat, m: nat)
    requires Queued(s) && Rest(s) && M(s, m).v > 0 && T(s, t).pc == CvLeave(c, m)
    ensures Rest(DoLeave(s, t, c, m))
  {
    var s1, s' := DropMutex(s, t, m), DoLeave(s, t, c, m);
    DropMutexPc(s, t, m);
    EnqueueGets(s1, t, CondQ(c), m);
    forall u, d
      ensures InCv(T(s', u), d) <==> InCv(T(s, u), d)
    {
      if u != t {
        assert T(s', u) == T(s1, u);
      }
    }
    CountsPc(s, s');
    forall u | AtEnd(T(s', u).pc)
      ensures u in M(s', T(s', u).pc.m).held
    {
      assert u != t && T(s', u).pc == T(s1, u).pc == T(s, u).pc;
      assert u in M(s, T(s, u).pc.m).held;
    }
  }
}
