/** Outstanding enters of the locks, counted from the steps of a run alone. */
module FiberCounts {

  import opened Basics
  import opened FiberModel
  import opened FiberInvariant
  import opened FiberSteps
  import opened FiberRuns

  lemma {:induction false} WakeupAllLocks(s: State, q: Queue)
    ensures LocksSame(s, WakeupAll(s, q))
    decreases |Q(s, q)|
  {
    if Q(s, q) == [] {
    } else {
      WakeupLocks(s, q);
      WakeupAllLocks(WakeupOne(s, q), q);
    }
  }

  ghost function One(b: bool): int {
    if b then 1 else 0
  }

  // ---- mutexes

  /** The step lets `t` into mutex `m`: nobody has it, or `t` itself. */
  ghost predicate Enters(s: State, step: Step, t: Tid, m: nat) {
    (M(s, m).v == 0 || M(s, m).o == Some(t)) &&
    match step
    case MutexEnter(u, x) => u == t && x == m
    case MutexTry(u, x) => u == t && x == m
    case Retry(u) => u == t && T(s, t).pc == MutexRetry(m)
    case Reenter(u) => u == t && T(s, t).pc.CvReturn? && T(s, t).pc.m == m
    case _ => false
  }

  /** `t` leaves mutex `m` by an exit or at the start of a wait. */
  ghost predicate Exits(s: State, step: Step, t: Tid, m: nat) {
    match step
    case MutexExit(u, x) => u == t && x == m
    case Leave(u) => u == t && T(s, t).pc.CvLeave? && T(s, t).pc.m == m
    case _ => false
  }

  ghost function Outstanding(s: State, steps: seq<Step>, t: Tid, m: nat): int
    requires IsRun(s, steps)
    decreases |steps|
  {
    if steps == [] then 0
    else One(Enters(s, steps[0], t, m)) - One(Exits(s, steps[0], t, m))
         + Outstanding(Next(s, steps[0]), steps[1..], t, m)
  }

  /** What an attempt to enter makes of a mutex. */
  lemma {:induction false} TryMutex(s: State, t: Tid, k: nat, timedout: bool, m: nat)
    ensures var x' := if k == m && !MutexBusy(M(s, m), t) then Entered(M(s, m), t) else M(s, m);
            && M(DoMutexEnter(s, t, k), m) == x' && M(DoMutexTry(s, t, k), m) == x'
            && M(DoMutexRetry(s, t, k), m) == x' && forall c :: M(DoReenter(s, t, c, k, timedout), m) == x'
  {
  }

  lemma {:induction false} DropRwMutex(s: State, t: Tid, l: nat, m: nat)
    ensures M(DropRw(s, t, l), m) == M(s, m)
  {
    var s1 := SetRw(s, l, RwLeft(L(s, l), t));
    SetRwGets(s, l, RwLeft(L(s, l), t));
    WakeupLocks(s1, WriteQ(l));
    WakeupAllLocks(s1, ReadQ(l));
  }

  lemma {:induction false} OtherMutex(s: State, step: Step, m: nat)
    requires Enabled(s, step)
    requires match step
             case RwEnter(_, _, _) => true
             case RwTry(_, _, _) => true
             case RwExit(_, _) => true
             case Retry(t) => T(s, t).pc.RwRetry?
             case Resume(_) => true
             case CvWait(_, _, _) => true
             case Finish(_) => true
             case Signal(_) => true
             case Broadcast(_) => true
             case Wake(_) => true
             case _ => false
    ensures M(Next(s, step), m) == M(s, m)
  {
    match step
    case RwExit(t, l) => DropRwMutex(s, t, l, m);
    case Signal(c) => WakeupLocks(s, CondQ(c));
    case Broadcast(c) => WakeupAllLocks(s, CondQ(c));
    case _ =>
  }

  lemma {:induction false} EnterCounts(s: State, u: Tid, k: nat, m: nat, t: Tid, x': Mutex)
    requires x' == if k == m && !MutexBusy(M(s, m), u) then Entered(M(s, m), u) else M(s, m)
    ensures x'.held[t] == M(s, m).held[t] + One(u == t && k == m && (M(s, m).v == 0 || M(s, m).o == Some(t)))
  {
  }

  lemma {:induction false} EnterStep(s: State, step: Step, t: Tid, m: nat)
    requires Enabled(s, step) && (step.MutexEnter? || step.MutexTry?)
    ensures M(Next(s, step), m).held[t] == M(s, m).held[t] + One(Enters(s, step, t, m))
  {
    TryMutex(s, step.t, step.m, false, m);
    EnterCounts(s, step.t, step.m, m, t, M(Next(s, step), m));
  }

  lemma {:induction false} RetryStep(s: State, step: Step, t: Tid, m: nat)
    requires Enabled(s, step) && step.Retry?
    ensures M(Next(s, step), m).held[t] == M(s, m).held[t] + One(Enters(s, step, t, m))
  {
    var pc := T(s, step.t).pc;
    if pc.MutexRetry? {
      TryMutex(s, step.t, pc.m, false, m);
      EnterCounts(s, step.t, pc.m, m, t, M(Next(s, step), m));
    } else {
      OtherMutex(s, step, m);
    }
  }

  lemma {:induction false} ReenterStep(s: State, step: Step, t: Tid, m: nat)
    requires Enabled(s, step) && step.Reenter?
    ensures M(Next(s, step), m).held[t] == M(s, m).held[t] + One(Enters(s, step, t, m))
  {
    var pc := T(s, step.t).pc;
    TryMutex(s, step.t, pc.m, pc.timedout, m);
    EnterCounts(s, step.t, pc.m, m, t, M(Next(s, step), m));
  }

  lemma {:induction false} ExitStep(s: State, step: Step, t: Tid, m: nat)
    requires Enabled(s, step) && Holding(s) && (step.MutexExit? || step.Leave?)
    ensures M(Next(s, step), m).held[t] == M(s, m).held[t] - One(Exits(s, step, t, m))
  {
    var u := step.t;
    var k := if step.MutexExit? then step.m else T(s, u).pc.m;
    DropMutexPc(s, u, k);
    assert step.Leave? ==> AtEnd(T(s, u).pc);
    assert u in M(s, k).held;
    ExitCounts(s, u, k, m, t, M(Next(s, step), m));
  }

  lemma {:induction false} ExitCounts(s: State, u: Tid, k: nat, m: nat, t: Tid, x': Mutex)
    requires M(s, k).v > 0 && u in M(s, k).held
    requires x' == if k == m then Left(M(s, m), u) else M(s, m)
    ensures x'.held[t] == M(s, m).held[t] - One(u == t && k == m)
  {
  }

  lemma {:induction false} MutexStep(s: State, step: Step, t: Tid, m: nat)
    requires Enabled(s, step) && Holding(s)
    ensures M(Next(s, step), m).held[t] ==
            M(s, m).held[t] + One(Enters(s, step, t, m)) - One(Exits(s, step, t, m))
  {
    if step.MutexEnter? || step.MutexTry? {
      EnterStep(s, step, t, m);
    } else if step.MutexExit? || step.Leave? {
      ExitStep(s, step, t, m);
    } else if step.Retry? {
      RetryStep(s, step, t, m);
    } else if step.Reenter? {
      ReenterStep(s, step, t, m);
    } else {
      OtherMutex(s, step, m);
    }
  }

  lemma {:induction false} HeldCounted(s: State, steps: seq<Step>, t: Tid, m: nat)
    requires Inv(s) && IsRun(s, steps)
    ensures M(End(s, steps), m).held[t] == M(s, m).held[t] + Outstanding(s, steps, t, m)
    decreases |steps|
  {
    if steps == [] {
    } else {
      StepKeeps(s, steps[0]);
      MutexStep(s, steps[0], t, m);
      HeldCounted(Next(s, steps[0]), steps[1..], t, m);
    }
  }

  // ---- reader/writer locks

  lemma {:induction false} DropRwLock(s: State, t: Tid, k: nat, l: nat)
    ensures L(DropRw(s, t, k), l) == if k == l then RwLeft(L(s, l), t) else L(s, l)
  {
    var s1 := SetRw(s, k, RwLeft(L(s, k), t));
    SetRwGets(s, k, RwLeft(L(s, k), t));
    WakeupLocks(s1, WriteQ(k));
    WakeupAllLocks(s1, ReadQ(k));
  }

  lemma {:induction false} EnterLock(s: State, t: Tid, k: nat, writer: bool, l: nat)
    ensures var x' := if k == l && !RwBusy(s, l, writer) then RwEntered(L(s, l), t, writer) else L(s, l);
            && L(DoRwEnter(s, t, k, writer), l) == x' && L(DoRwTry(s, t, k, writer), l) == x'
            && L(DoRwRetry(s, t, k, writer), l) == x'
  {
  }

  /** What a step makes of a lock when it is not about that lock, or not about locks. */
  lemma {:induction false} OtherLock(s: State, step: Step, l: nat)
    requires Enabled(s, step) && !step.RwEnter? && !step.RwTry? && !step.RwExit? && !step.Retry?
    ensures L(Next(s, step), l) == L(s, l)
  {
    match step
    case MutexExit(t, m) => DropMutexPc(s, t, m);
    case Leave(t) => DropMutexPc(s, t, T(s, t).pc.m);
    case Signal(c) => WakeupLocks(s, CondQ(c));
    case Broadcast(c) => WakeupAllLocks(s, CondQ(c));
    case _ =>
  }

  /** The step lets `t` into lock `l`: no writer is inside and, for a reader, none waits. */
  ghost predicate RwEnters(s: State, step: Step, t: Tid, l: nat) {
    match step
    case RwEnter(u, k, writer) => u == t && k == l && RwFree(s, l, writer)
    case RwTry(u, k, writer) => u == t && k == l && RwFree(s, l, writer)
    case Retry(u) => u == t && T(s, t).pc.RwRetry? && T(s, t).pc.l == l && RwFree(s, l, T(s, t).pc.writer)
    case _ => false
  }

  ghost predicate RwFree(s: State, l: nat, writer: bool) {
    L(s, l).o.None? && (writer || Q(s, WriteQ(l)) == [])
  }

  ghost function RwOutstanding(s: State, steps: seq<Step>, t: Tid, l: nat): int
    requires IsRun(s, steps)
    decreases |steps|
  {
    if steps == [] then 0
    else One(RwEnters(s, steps[0], t, l)) - One(steps[0] == RwExit(t, l))
         + RwOutstanding(Next(s, steps[0]), steps[1..], t, l)
  }

  lemma {:induction false} RwEnterCounts(s: State, u: Tid, k: nat, writer: bool, l: nat, t: Tid, x': Rw)
    requires x' == if k == l && !RwBusy(s, l, writer) then RwEntered(L(s, l), u, writer) else L(s, l)
    ensures x'.held[t] == L(s, l).held[t] + One(u == t && k == l && RwFree(s, l, writer))
  {
  }

  lemma {:induction false} RwEnterStep(s: State, step: Step, t: Tid, l: nat)
    requires Enabled(s, step) && (step.RwEnter? || step.RwTry?)
    ensures L(Next(s, step), l).held[t] == L(s, l).held[t] + One(RwEnters(s, step, t, l))
  {
    EnterLock(s, step.t, step.l, step.writer, l);
    RwEnterCounts(s, step.t, step.l, step.writer, l, t, L(Next(s, step), l));
  }

  lemma {:induction false} RwRetryStep(s: State, step: Step, t: Tid, l: nat)
    requires Enabled(s, step) && step.Retry?
    ensures L(Next(s, step), l).held[t] == L(s, l).held[t] + One(RwEnters(s, step, t, l))
  {
    var pc := T(s, step.t).pc;
    if pc.RwRetry? {
      EnterLock(s, step.t, pc.l, pc.writer, l);
      RwEnterCounts(s, step.t, pc.l, pc.writer, l, t, L(Next(s, step), l));
    }
  }

  lemma {:induction false} RwExitStep(s: State, u: Tid, k: nat, t: Tid, l: nat)
    requires u in L(s, k).held
    ensures L(DropRw(s, u, k), l).held[t] == L(s, l).held[t] - One(u == t && k == l)
  {
    DropRwLock(s, u, k, l);
  }

  lemma {:induction false} RwStep(s: State, step: Step, t: Tid, l: nat)
    requires Enabled(s, step)
    ensures L(Next(s, step), l).held[t] ==
            L(s, l).held[t] + One(RwEnters(s, step, t, l)) - One(step == RwExit(t, l))
  {
    if step.RwEnter? || step.RwTry? {
      RwEnterStep(s, step, t, l);
    } else if step.RwExit? {
      RwExitStep(s, step.t, step.l, t, l);
    } else if step.Retry? {
      RwRetryStep(s, step, t, l);
    } else {
      OtherLock(s, step, l);
    }
  }

  lemma {:induction false} RwHeldCounted(s: State, steps: seq<Step>, t: Tid, l: nat)
    requires IsRun(s, steps)
    ensures L(End(s, steps), l).held[t] == L(s, l).held[t] + RwOutstanding(s, steps, t, l)
    decreases |steps|
  {
    if steps == [] {
    } else {
      RwStep(s, steps[0], t, l);
      RwHeldCounted(Next(s, steps[0]), steps[1..], t, l);
    }
  }
}
