/** Whole runs of the blocking primitives. */
module FiberRuns {

  import opened Basics
  import opened FiberModel
  import opened FiberInvariant
  import opened FiberSteps

  ghost predicate Waiters(s: State) {
    Queued(s) && Waits(s)
  }

  lemma {:induction false} Assembled(s: State)
    requires Waiters(s) && Owners(s) && Live(s) && Rest(s)
    ensures Inv(s)
  {
  }

  /** Moving a thread that is not in wait() and does not enter or leave a condition variable. */
  lemma {:induction false} GotoKeeps(s: State, t: Tid, pc: Pc)
    requires Inv(s) && !T(s, t).pc.InWait? && !pc.InWait? && (AtEnd(pc) ==> t in M(s, pc.m).held)
    requires forall c :: InCv(T(s, t), c) <==> InCv(T(s, t).(pc := pc), c)
    requires forall q :: Pending(T(s, t), q) && !Pending(T(s, t).(pc := pc), q) ==> Settled(s, q)
    ensures Inv(Goto(s, t, pc))
  {
    GotoGets(s, t, pc);
    GotoQueued(s, t, pc);
    SameOwners(s, Goto(s, t, pc));
    QuietLive(s, Goto(s, t, pc), t);
    ThreadRest(s, Goto(s, t, pc), t);
    Assembled(Goto(s, t, pc));
  }

  lemma {:induction false} TakeMutexKeeps(s: State, t: Tid, m: nat)
    requires Inv(s) && !MutexBusy(M(s, m), t)
    ensures Inv(TakeMutex(s, t, m))
  {
    SetMutexGets(s, m, Entered(M(s, m), t));
    SameQueued(s, TakeMutex(s, t, m));
    TakeMutexOwners(s, t, m);
    TakeMutexLive(s, t, m);
    TakeMutexRest(s, t, m);
    Assembled(TakeMutex(s, t, m));
  }

  lemma {:induction false} DropMutexWaiters(s: State, t: Tid, m: nat)
    requires Waiters(s) && M(s, m).v > 0
    ensures Waiters(DropMutex(s, t, m))
  {
    SetMutexGets(s, m, Left(M(s, m), t));
    SameQueued(s, SetMutex(s, m, Left(M(s, m), t)));
    WakeupQueued(SetMutex(s, m, Left(M(s, m), t)), MutexQ(m));
  }

  lemma {:induction false} DropMutexKeeps(s: State, t: Tid, m: nat)
    requires Inv(s) && t in M(s, m).held && !AtEnd(T(s, t).pc)
    ensures M(s, m).v > 0 && Inv(DropMutex(s, t, m))
  {
    DropMutexOwners(s, t, m);
    DropMutexWaiters(s, t, m);
    DropMutexLive(s, t, m);
    DropMutexRest(s, t, m);
    Assembled(DropMutex(s, t, m));
  }

  lemma {:induction false} TakeRwKeeps(s: State, t: Tid, l: nat, writer: bool)
    requires Inv(s) && !RwBusy(s, l, writer)
    ensures Inv(TakeRw(s, t, l, writer))
  {
    SetRwGets(s, l, RwEntered(L(s, l), t, writer));
    SameQueued(s, TakeRw(s, t, l, writer));
    TakeRwOwners(s, t, l, writer);
    TakeRwLive(s, t, l, writer);
    RwRest(s, l, RwEntered(L(s, l), t, writer));
    Assembled(TakeRw(s, t, l, writer));
  }

  lemma {:induction false} DropRwKeeps(s: State, t: Tid, l: nat)
    requires Inv(s) && t in L(s, l).held
    ensures Inv(DropRw(s, t, l))
  {
    var s1 := SetRw(s, l, RwLeft(L(s, l), t));
    SetRwGets(s, l, RwLeft(L(s, l), t));
    SameQueued(s, s1);
    RwRest(s, l, RwLeft(L(s, l), t));
    WakeupQueued(s1, WriteQ(l));
    WakeupAllQueued(s1, ReadQ(l));
    WakeupRest(s1, WriteQ(l));
    WakeupAllRest(s1, ReadQ(l));
    DropRwOwners(s, t, l);
    DropRwLive(s, t, l);
    Assembled(DropRw(s, t, l));
  }

  lemma {:induction false} EnqueueKeeps(s: State, t: Tid, q: Queue)
    requires Inv(s) && Barred(s, q) && (forall p :: Pending(T(s, t), p) ==> p == q)
    requires T(s, t).pc.MutexRetry? || T(s, t).pc.RwRetry?
    requires !q.CondQ?
    ensures Inv(Enqueue(s, t, q, 0))
  {
    EnqueueGets(s, t, q, 0);
    EnqueueQueued(s, t, q, 0);
    SameOwners(s, Enqueue(s, t, q, 0));
    EnqueueLive(s, t, q, 0);
    ThreadRest(s, Enqueue(s, t, q, 0), t);
    Assembled(Enqueue(s, t, q, 0));
  }

  lemma {:induction false} ResumeKeeps(s: State, t: Tid)
    requires Inv(s) && T(s, t).pc.InWait? && T(s, t).runnable
    ensures Inv(DoResume(s, t))
  {
    ResumeGets(s, t);
    ResumeQueued(s, t);
    SameOwners(s, DoResume(s, t));
    ResumeLive(s, t);
    ThreadRest(s, DoResume(s, t), t);
    Assembled(DoResume(s, t));
  }

  lemma {:induction false} WakeupKeeps(s: State, q: Queue)
    requires Inv(s)
    ensures Inv(WakeupOne(s, q))
  {
    WakeupQueued(s, q);
    WakeupLocks(s, q);
    SameOwners(s, WakeupOne(s, q));
    WakeupLive(s, q);
    WakeupRest(s, q);
    Assembled(WakeupOne(s, q));
  }

  lemma {:induction false} WakeupAllKeeps(s: State, q: Queue)
    requires Inv(s)
    ensures Inv(WakeupAll(s, q))
    decreases |Q(s, q)|
  {
    if Q(s, q) == [] {
    } else {
      WakeupKeeps(s, q);
      WakeupAllKeeps(WakeupOne(s, q), q);
    }
  }

  lemma {:induction false} WakeKeeps(s: State, t: Tid)
    requires Inv(s)
    ensures Inv(DoWake(s, t))
  {
    WakeGets(s, t);
    WakeQueued(s, t);
    SameOwners(s, DoWake(s, t));
    QuietLive(s, DoWake(s, t), t);
    ThreadRest(s, DoWake(s, t), t);
    Assembled(DoWake(s, t));
  }

  lemma {:induction false} WakeQueued(s: State, t: Tid)
    requires Waiters(s)
    ensures Waiters(DoWake(s, t))
  {
    assert WaitOk(T(s, t));
    WakeGets(s, t);
  }

  // ---- the steps

  lemma {:induction false} EnterKeeps(s: State, t: Tid, m: nat)
    requires Inv(s) && T(s, t).pc.Ready?
    ensures Inv(DoMutexEnter(s, t, m)) && Inv(DoMutexTry(s, t, m))
  {
    if MutexBusy(M(s, m), t) {
      GotoKeeps(s, t, MutexRetry(m));
    } else {
      TakeMutexKeeps(s, t, m);
    }
  }

  lemma {:induction false} MutexRetryKeeps(s: State, t: Tid, m: nat)
    requires Inv(s) && T(s, t).pc == MutexRetry(m)
    ensures Inv(DoMutexRetry(s, t, m))
  {
    if MutexBusy(M(s, m), t) {
      EnqueueKeeps(s, t, MutexQ(m));
    } else {
      TakeMutexKeeps(s, t, m);
      SetMutexGets(s, m, Entered(M(s, m), t));
      GotoKeeps(TakeMutex(s, t, m), t, Ready);
    }
  }

  lemma {:induction false} RwEnterKeeps(s: State, t: Tid, l: nat, writer: bool)
    requires Inv(s) && T(s, t).pc.Ready?
    ensures Inv(DoRwEnter(s, t, l, writer)) && Inv(DoRwTry(s, t, l, writer))
  {
    if RwBusy(s, l, writer) {
      GotoKeeps(s, t, RwRetry(l, writer));
    } else {
      TakeRwKeeps(s, t, l, writer);
    }
  }

  lemma {:induction false} RwRetryKeeps(s: State, t: Tid, l: nat, writer: bool)
    requires Inv(s) && T(s, t).pc == RwRetry(l, writer)
    ensures Inv(DoRwRetry(s, t, l, writer))
  {
    if RwBusy(s, l, writer) {
      EnqueueKeeps(s, t, RwQueue(l, writer));
    } else {
      TakeRwKeeps(s, t, l, writer);
      SetRwGets(s, l, RwEntered(L(s, l), t, writer));
      GotoKeeps(TakeRw(s, t, l, writer), t, Ready);
    }
  }

  lemma {:induction false} CvMoves(s: State, t: Tid, c: nat, n: int, pc: Pc)
    requires Inv(s) && !T(s, t).pc.InWait? && !pc.InWait? && (forall q :: !Pending(T(s, t), q))
    ensures var s' := Goto(AddWaiters(s, c, n), t, pc);
            Waiters(s') && Owners(s') && Live(s') && SameT(s, s', t) && AllM(s, s') && T(s', t) == T(s, t).(pc := pc)
  {
    var s1, s' := AddWaiters(s, c, n), Goto(AddWaiters(s, c, n), t, pc);
    AddWaitersGets(s, c, n);
    GotoGets(s1, t, pc);
    SameQueued(s, s1);
    GotoQueued(s1, t, pc);
    SameOwners(s, s1);
    SameOwners(s1, s');
    assert SameT(s, s', t) && AllQ(s, s') && LocksSame(s, s');
    QuietLive(s, s', t);
  }

  lemma {:induction false} CvWaitKeeps(s: State, t: Tid, c: nat, m: nat)
    requires Inv(s) && T(s, t).pc.Ready? && t in M(s, m).held
    ensures Inv(DoCvWait(s, t, c, m))
  {
    var s' := DoCvWait(s, t, c, m);
    CvMoves(s, t, c, 1, CvLeave(c, m));
    CountsChange(s, t, c, 1, CvLeave(c, m));
    forall u | AtEnd(T(s', u).pc)
      ensures u in M(s', T(s', u).pc.m).held
    {
      assert u != t ==> T(s', u) == T(s, u);
    }
    Assembled(s');
  }

  lemma {:induction false} FinishKeeps(s: State, t: Tid, c: nat)
    requires Inv(s) && T(s, t).pc.CvFinish? && T(s, t).pc.c == c
    ensures Inv(DoFinish(s, t, c))
  {
    var s' := DoFinish(s, t, c);
    CvMoves(s, t, c, -1, Ready);
    CountsChange(s, t, c, -1, Ready);
    forall u | AtEnd(T(s', u).pc)
      ensures u in M(s', T(s', u).pc.m).held
    {
      assert u != t && T(s', u) == T(s, u);
    }
    Assembled(s');
  }

  lemma {:induction false} LeaveKeeps(s: State, t: Tid, c: nat, m: nat)
    requires Inv(s) && T(s, t).pc == CvLeave(c, m)
    ensures M(s, m).v > 0 && Inv(DoLeave(s, t, c, m))
  {
    assert t in M(s, T(s, t).pc.m).held;
    DropMutexOwners(s, t, m);
    var s1, s' := DropMutex(s, t, m), DoLeave(s, t, c, m);
    DropMutexWaiters(s, t, m);
    DropMutexLive(s, t, m);
    DropMutexPc(s, t, m);
    EnqueueGets(s1, t, CondQ(c), m);
    EnqueueQueued(s1, t, CondQ(c), m);
    SameOwners(s1, s');
    EnqueueLive(s1, t, CondQ(c), m);
    LeaveRest(s, t, c, m);
    Assembled(s');
  }

  lemma {:induction false} PanicKeeps(s: State)
    requires Inv(s)
    ensures Inv(s.(panicked := true))
  {
    var s' := s.(panicked := true);
    assert AllT(s, s') && AllQ(s, s') && AllM(s, s') && AllL(s, s');
    SameQueued(s, s');
    SameOwners(s, s');
    QuietLive(s, s', 0);
    ThreadRest(s, s', 0);
    Assembled(s');
  }

  lemma {:induction false} ReenterKeeps(s: State, t: Tid, c: nat, m: nat, timedout: bool)
    requires Inv(s) && T(s, t).pc.CvReturn? && T(s, t).pc.c == c
    ensures Inv(DoReenter(s, t, c, m, timedout))
  {
    if MutexBusy(M(s, m), t) {
      PanicKeeps(s);
    } else {
      TakeMutexKeeps(s, t, m);
      SetMutexGets(s, m, Entered(M(s, m), t));
      GotoKeeps(TakeMutex(s, t, m), t, CvFinish(c, m, timedout));
    }
  }

  /** Every step keeps the invariant. */
  lemma {:induction false} StepKeeps(s: State, step: Step)
    requires Inv(s) && Enabled(s, step)
    ensures Inv(Next(s, step))
  {
    match step
    case MutexEnter(t, m) => EnterKeeps(s, t, m);
    case MutexTry(t, m) => EnterKeeps(s, t, m);
    case MutexExit(t, m) => DropMutexKeeps(s, t, m);
    case RwEnter(t, l, writer) => RwEnterKeeps(s, t, l, writer);
    case RwTry(t, l, writer) => RwEnterKeeps(s, t, l, writer);
    case RwExit(t, l) => DropRwKeeps(s, t, l);
    case Retry(t) =>
      match T(s, t).pc {
        case MutexRetry(m) => MutexRetryKeeps(s, t, m);
        case RwRetry(l, writer) => RwRetryKeeps(s, t, l, writer);
      }
    case Resume(t) => ResumeKeeps(s, t);
    case CvWait(t, c, m) => CvWaitKeeps(s, t, c, m);
    case Leave(t) => LeaveKeeps(s, t, T(s, t).pc.c, T(s, t).pc.m);
    case Reenter(t) => ReenterKeeps(s, t, T(s, t).pc.c, T(s, t).pc.m, T(s, t).pc.timedout);
    case Finish(t) => FinishKeeps(s, t, T(s, t).pc.c);
    case Signal(c) => WakeupKeeps(s, CondQ(c));
    case Broadcast(c) => WakeupAllKeeps(s, CondQ(c));
    case Wake(t) => WakeKeeps(s, t);
  }

  // ---- runs

  ghost predicate IsRun(s: State, steps: seq<Step>)
    decreases |steps|
  {
    steps == [] || (Enabled(s, steps[0]) && IsRun(Next(s, steps[0]), steps[1..]))
  }

  ghost function End(s: State, steps: seq<Step>): State
    requires IsRun(s, steps)
    decreases |steps|
  {
    if steps == [] then s else End(Next(s, steps[0]), steps[1..])
  }

  function Start(): State {
    State(map[], map[], map[], map[], map[], false)
  }

  lemma {:induction false} StartInv()
    ensures Inv(Start())
  {
    var s := Start();
    forall c
      ensures N(s, c) == |Inside(s, c)|
    {
      assert Inside(s, c) == {};
    }
  }

  /** Over every run, from any state that meets it, the invariant holds. */
  lemma {:induction false} RunKeeps(s: State, steps: seq<Step>)
    requires Inv(s) && IsRun(s, steps)
    ensures Inv(End(s, steps))
    decreases |steps|
  {
    if steps == [] {
    } else {
      StepKeeps(s, steps[0]);
      RunKeeps(Next(s, steps[0]), steps[1..]);
    }
  }
}
