/** What the blocking primitives promise their callers, in every run. */
module FiberResults {

  import opened Basics
  import opened FiberModel
  import opened FiberInvariant
  import opened FiberSteps
  import opened FiberRuns
  import opened FiberCounts
  import opened FiberQueues

  // ---- mutexes

  /** A mutex has one holder at a time, and v is the number of its enters less that of its exits. */
  lemma {:induction false} MutexExcludes(steps: seq<Step>, m: nat, t: Tid, u: Tid)
    requires IsRun(Start(), steps)
    ensures var x := M(End(Start(), steps), m);
            && (x.v == 0 <==> x.o.None?)
            && (forall w :: x.held[w] == if x.o == Some(w) then x.v else 0)
            && x.held[t] == Outstanding(Start(), steps, t, m)
            && (t in x.held && u in x.held ==> t == u)
  {
    StartInv();
    RunKeeps(Start(), steps);
    HeldCounted(Start(), steps, t, m);
    assert MutexOk(M(End(Start(), steps), m));
  }

  /** While a mutex is free and threads wait for it, one that has left the list can run and
      is about to try. */
  lemma {:induction false} MutexNotStuck(steps: seq<Step>, m: nat) returns (t: Tid)
    requires IsRun(Start(), steps)
    requires M(End(Start(), steps), m).v == 0 && Q(End(Start(), steps), MutexQ(m)) != []
    ensures var s := End(Start(), steps);
            && t !in Q(s, MutexQ(m)) && T(s, t).runnable
            && (T(s, t).pc == MutexRetry(m) || (T(s, t).pc.InWait? && T(s, t).pc.q == MutexQ(m)))
  {
    StartInv();
    RunKeeps(Start(), steps);
    var s := End(Start(), steps);
    assert MutexLive(s, m);
    t :| Pending(T(s, t), MutexQ(m));
    assert WaitOk(T(s, t));
  }

  // ---- reader/writer locks

  /** v and the writer together count the holders, who are those with more enters than exits;
      nobody waits for nothing. */
  lemma {:induction false} RwHandsOff(steps: seq<Step>, l: nat, t: Tid)
    requires IsRun(Start(), steps)
    ensures var s := End(Start(), steps);
            && L(s, l).held[t] == RwOutstanding(Start(), steps, t, l)
            && |L(s, l).held| == L(s, l).v + (if L(s, l).o.Some? then 1 else 0)
            && (Q(s, WriteQ(l)) != [] ==> L(s, l).o.Some? || SomePending(s, WriteQ(l)))
            && (Q(s, ReadQ(l)) != [] ==>
                  L(s, l).o.Some? || Q(s, WriteQ(l)) != [] || SomePending(s, WriteQ(l)))
  {
    StartInv();
    RunKeeps(Start(), steps);
    RwHeldCounted(Start(), steps, t, l);
    var s := End(Start(), steps);
    assert RwOk(L(s, l)) && RwLive(s, l);
  }

  /** A writer gets in whenever there is no other writer, and is alone at that moment exactly
      when no reader is inside. */
  lemma {:induction false} WriterEnters(s: State, t: Tid, l: nat)
    requires Inv(s) && L(s, l).o.None?
    ensures L(DoRwTry(s, t, l, true), l).o == Some(t)
    ensures L(DoRwTry(s, t, l, true), l).held == multiset{t} <==> L(s, l).v == 0
  {
    assert RwOk(L(s, l));
    SetRwGets(s, l, RwEntered(L(s, l), t, true));
    assert L(s, l).v == 0 ==> L(s, l).held == multiset{};
    assert |multiset{t}| == 1;
  }

  /** The writer inside, if there is one, is the only one inside. */
  ghost predicate Alone(x: Rw) {
    x.o.Some? ==> x.held == multiset{x.o.value}
  }

  ghost predicate AloneThroughout(s: State, steps: seq<Step>, l: nat)
    requires IsRun(s, steps)
    decreases |steps|
  {
    Alone(L(s, l)) && (steps != [] ==> AloneThroughout(Next(s, steps[0]), steps[1..], l))
  }

  /** The step lets a writer into lock `l`. */
  ghost predicate LetsWriterIn(s: State, step: Step, l: nat) {
    L(s, l).o.None? &&
    match step
    case RwEnter(_, k, writer) => k == l && writer
    case RwTry(_, k, writer) => k == l && writer
    case Retry(t) => T(s, t).pc == RwRetry(l, true)
    case _ => false
  }

  /** Whenever a writer gets in, v says that no reader is inside. */
  ghost predicate EntriesUnread(s: State, steps: seq<Step>, l: nat)
    requires IsRun(s, steps)
    decreases |steps|
  {
    steps != [] ==>
      && (LetsWriterIn(s, steps[0], l) ==> L(s, l).v == 0)
      && EntriesUnread(Next(s, steps[0]), steps[1..], l)
  }

  /** The lock was entered by somebody as a writer. */
  ghost predicate WriterCame(x: Rw, x': Rw) {
    exists t :: x' == RwEntered(x, t, true)
  }

  /** A step leaves a lock as it is, leaves it without a writer, or lets one in. */
  lemma {:induction false} LockStep(s: State, step: Step, l: nat)
    requires Enabled(s, step)
    ensures var x, x' := L(s, l), L(Next(s, step), l);
            if LetsWriterIn(s, step, l) then WriterCame(x, x') else x' == x || x'.o.None?
  {
    match step
    case RwEnter(t, k, writer) => EnterLock(s, t, k, writer, l);
    case RwTry(t, k, writer) => EnterLock(s, t, k, writer, l);
    case RwExit(t, k) => DropRwLock(s, t, k, l);
    case Retry(t) =>
      if T(s, t).pc.RwRetry? {
        EnterLock(s, t, T(s, t).pc.l, T(s, t).pc.writer, l);
      }
    case _ => OtherLock(s, step, l);
  }

  lemma {:induction false} AloneOnEntry(x: Rw, x': Rw)
    requires RwOk(x) && x.o.None? && WriterCame(x, x')
    ensures Alone(x') <==> x.v == 0
  {
    var t :| x' == RwEntered(x, t, true);
    assert |x'.held| == |x.held| + 1 && |multiset{t}| == 1;
    assert x.v == 0 ==> x.held == multiset{};
  }

  lemma {:induction false} AloneStep(s: State, step: Step, l: nat)
    requires Inv(s) && Enabled(s, step) && Alone(L(s, l))
    ensures Alone(L(Next(s, step), l)) <==> (LetsWriterIn(s, step, l) ==> L(s, l).v == 0)
  {
    LockStep(s, step, l);
    assert RwOk(L(s, l));
    if LetsWriterIn(s, step, l) {
      AloneOnEntry(L(s, l), L(Next(s, step), l));
    }
  }

  /** A writer that is alone stays the owner until it exits. */
  lemma {:induction false} WriterStays(s: State, step: Step, l: nat, t: Tid)
    requires Enabled(s, step) && Alone(L(s, l)) && L(s, l).o == Some(t) && step != RwExit(t, l)
    ensures L(Next(s, step), l) == L(s, l)
  {
    match step
    case RwEnter(u, k, writer) => EnterLock(s, u, k, writer, l);
    case RwTry(u, k, writer) => EnterLock(s, u, k, writer, l);
    case RwExit(u, k) => DropRwLock(s, u, k, l);
    case Retry(u) =>
      if T(s, u).pc.RwRetry? {
        EnterLock(s, u, T(s, u).pc.l, T(s, u).pc.writer, l);
      }
    case _ => OtherLock(s, step, l);
  }

  /** In every run a writer is the only one inside for as long as it is inside, if and only if
      every writer that got in did so while no reader was inside. */
  lemma {:induction false} WriterAlone(s: State, steps: seq<Step>, l: nat)
    requires Inv(s) && IsRun(s, steps) && Alone(L(s, l))
    ensures AloneThroughout(s, steps, l) <==> EntriesUnread(s, steps, l)
    decreases |steps|
  {
    if steps == [] {
    } else {
      var s1 := Next(s, steps[0]);
      StepKeeps(s, steps[0]);
      AloneStep(s, steps[0], l);
      if Alone(L(s1, l)) {
        WriterAlone(s1, steps[1..], l);
      }
    }
  }

  /** A reader and a writer inside at once. */
  lemma {:induction false} ReaderBesideWriter()
    ensures var steps := [RwEnter(1, 0, false), RwEnter(2, 0, true)];
            && IsRun(Start(), steps)
            && L(End(Start(), steps), 0) == Rw(1, Some(2), multiset{1, 2})
  {
    var s0 := Start();
    var s1 := Next(s0, RwEnter(1, 0, false));
    var s2 := Next(s1, RwEnter(2, 0, true));
    var steps := [RwEnter(1, 0, false), RwEnter(2, 0, true)];
    assert steps[1..] == [RwEnter(2, 0, true)] && steps[1..][1..] == [];
    assert L(s2, 0).held == multiset{} + multiset{1} + multiset{2};
    assert IsRun(s1, steps[1..]) && End(s1, steps[1..]) == End(s2, []);
  }

  // ---- waiters

  /** A waiter is linked exactly while its thread is in wait() with the flag set; once wait()
      has returned it is on no list. */
  lemma {:induction false} WaiterConserved(steps: seq<Step>, q: Queue, t: Tid)
    requires IsRun(Start(), steps)
    ensures var s := End(Start(), steps);
            && Distinct(Q(s, q))
            && (t in Q(s, q) <==> T(s, t).pc.InWait? && T(s, t).pc.q == q && T(s, t).onlist)
            && (!T(s, t).pc.InWait? ==> t !in Q(s, q))
  {
    StartInv();
    RunKeeps(Start(), steps);
  }

  /** wait() returns 0 exactly when one wake-up took the waiter off its list, and ETIMEDOUT
      exactly when none did. */
  lemma {:induction false} WaitReturns(s: State, t: Tid, q: Queue)
    requires Inv(s) && Enabled(s, Resume(t))
    ensures var w, s' := T(s, t), DoResume(s, t);
            && T(s', t).pc == After(w.pc.q, w.pc.m, w.woken == 0) && w.woken <= 1
            && (w.woken == 0 <==> t in Q(s, w.pc.q)) && t !in Q(s', q)
  {
    ResumeKeeps(s, t);
    ResumeGets(s, t);
    assert WaitOk(T(s, t));
    assert t in Q(s, T(s, t).pc.q) <==> Linked(T(s, t), T(s, t).pc.q);
    assert t in Q(DoResume(s, t), q) <==> Linked(T(DoResume(s, t), t), q);
  }

  // ---- condition variables

  /** nwaiters is the number of threads between entry and exit of a wait. */
  lemma {:induction false} WaitersCounted(steps: seq<Step>, c: nat)
    requires IsRun(Start(), steps)
    ensures var s := End(Start(), steps);
            && N(s, c) == |Inside(s, c)|
            && forall t :: t in Inside(s, c) <==> InCv(T(s, t), c)
  {
    StartInv();
    RunKeeps(Start(), steps);
    forall t
      ensures t in Inside(End(Start(), steps), c) <==> InCv(T(End(Start(), steps), t), c)
    {
      InsideIs(End(Start(), steps), c, t);
    }
  }

  /** Re-entering the mutex after a wait panics exactly when somebody else holds it. */
  lemma {:induction false} ReenterPanics(s: State, t: Tid)
    requires Inv(s) && Enabled(s, Reenter(t))
    ensures Next(s, Reenter(t)).panicked <==> exists u :: u != t && u in M(s, T(s, t).pc.m).held
  {
    var x := M(s, T(s, t).pc.m);
    assert MutexOk(x);
    if MutexBusy(x, t) {
      assert x.o.value in x.held;
    }
  }

  // ---- no signal is missed

  /** From the entry of cv_wait until wait() returns. */
  ghost predicate InCvWait(s: State, t: Tid, c: nat, m: nat) {
    T(s, t).pc == CvLeave(c, m) || T(s, t).pc == InWait(CondQ(c), m)
  }

  lemma {:induction false} StaysInCv(s: State, step: Step, t: Tid, c: nat, m: nat)
    requires Enabled(s, step) && InCvWait(s, t, c, m) && step != Resume(t)
    ensures InCvWait(Next(s, step), t, c, m)
  {
    if Subject(step) != Some(t) {
      PcOfOthers(s, step, t);
    }
  }

  lemma {:induction false} RunInCv(s: State, steps: seq<Step>, t: Tid, c: nat, m: nat)
    requires IsRun(s, steps) && InCvWait(s, t, c, m) && Resume(t) !in steps
    ensures InCvWait(End(s, steps), t, c, m)
    decreases |steps|
  {
    if steps == [] {
    } else {
      StaysInCv(s, steps[0], t, c, m);
      RunInCv(Next(s, steps[0]), steps[1..], t, c, m);
    }
  }

  /** A thread that takes the mutex after another one has begun to wait with it finds that one
      on the list of the condition variable, or already woken: no signal it sends can miss. */
  lemma {:induction false} NoSignalMissed(s: State, steps: seq<Step>, t: Tid, u: Tid, c: nat, m: nat)
    requires Inv(s) && IsRun(s, steps) && InCvWait(s, t, c, m) && Resume(t) !in steps
    requires u != t && u in M(End(s, steps), m).held
    ensures t in Q(End(s, steps), CondQ(c)) || (T(End(s, steps), t).woken == 1 && T(End(s, steps), t).runnable)
  {
    var s' := End(s, steps);
    RunKeeps(s, steps);
    RunInCv(s, steps, t, c, m);
    assert MutexOk(M(s', m)) && WaitOk(T(s', t));
    assert t !in M(s', m).held && T(s', t).pc != CvLeave(c, m);
    assert t in Q(s', CondQ(c)) <==> Linked(T(s', t), CondQ(c));
  }

  // ---- signals reach the waiters in order

  function Signals(steps: seq<Step>, c: nat): nat {
    if steps == [] then 0 else (if steps[0] == Signal(c) then 1 else 0) + Signals(steps[1..], c)
  }

  /** A signal wakes the first waiter of its condition variable and nobody of another. */
  lemma {:induction false} SignalsWake(s: State, steps: seq<Step>, c: nat)
    requires IsRun(s, steps)
    ensures Wakeups(s, steps, CondQ(c)) == Signals(steps, c)
    decreases |steps|
  {
    if steps == [] {
    } else {
      SignalsWake(Next(s, steps[0]), steps[1..], c);
    }
  }

  /** While it is on the list, every signal brings a waiter one place forward. */
  lemma {:induction false} SignalMeasure(s: State, steps: seq<Step>, t: Tid, c: nat, m: nat)
    requires Inv(s) && IsRun(s, steps) && Resume(t) !in steps
    requires T(s, t).pc == InWait(CondQ(c), m) && t in Q(End(s, steps), CondQ(c))
    ensures t in Q(s, CondQ(c))
    ensures IndexOf(Q(End(s, steps), CondQ(c)), t) + Signals(steps, c) <= IndexOf(Q(s, CondQ(c)), t)
  {
    QueueMeasure(s, steps, t, CondQ(c), m);
    SignalsWake(s, steps, c);
  }

  /** The waiter at position k has been woken after k + 1 signals. */
  lemma {:induction false} SignalReaches(s: State, steps: seq<Step>, t: Tid, c: nat, m: nat)
    requires Inv(s) && IsRun(s, steps) && Resume(t) !in steps && T(s, t).pc == InWait(CondQ(c), m)
    requires t in Q(s, CondQ(c)) && IndexOf(Q(s, CondQ(c)), t) < Signals(steps, c)
    ensures T(End(s, steps), t).woken == 1 && T(End(s, steps), t).runnable
  {
    SignalsWake(s, steps, c);
    QueueReaches(s, steps, t, CondQ(c), m);
  }

  /** Another thread takes the mutex before the waiter is back: the panic happens. */
  lemma {:induction false} PanicHappens()
    ensures exists steps :: IsRun(Start(), steps) && End(Start(), steps).panicked
  {
    var s1 := DoMutexEnter(Start(), 1, 0);
    var s2 := DoCvWait(s1, 1, 0, 0);
    PanicSetup();
    var steps := PanicFrom(s2);
    RunPrefix(s1, CvWait(1, 0, 0), steps);
    RunPrefix(Start(), MutexEnter(1, 0), [CvWait(1, 0, 0)] + steps);
  }

  lemma {:induction false} PanicFrom(s: State) returns (steps: seq<Step>)
    requires AboutToLeave(s)
    ensures IsRun(s, steps) && End(s, steps).panicked
  {
    var rest := [MutexEnter(2, 0), Signal(0), Resume(1), Reenter(1)];
    PanicLeaves(s);
    PanicFollows(DoLeave(s, 1, 0, 0));
    RunPrefix(s, Leave(1), rest);
    steps := [Leave(1)] + rest;
  }

  /** Thread 1 holds mutex 0 and is about to wait; nobody else has done anything. */
  ghost predicate AboutToLeave(s: State) {
    && !s.panicked && M(s, 0).v == 1 && T(s, 1).pc == CvLeave(0, 0) && T(s, 2).pc == Ready
    && Q(s, CondQ(0)) == [] && Q(s, MutexQ(0)) == []
  }

  lemma {:induction false} PanicSetup()
    ensures var s1 := DoMutexEnter(Start(), 1, 0);
            && Enabled(Start(), MutexEnter(1, 0)) && Enabled(s1, CvWait(1, 0, 0))
            && AboutToLeave(DoCvWait(s1, 1, 0, 0))
  {
    assert M(DoMutexEnter(Start(), 1, 0), 0) == Mutex(1, Some(1), multiset{} + multiset{1});
  }

  lemma {:induction false} PanicLeaves(s: State)
    requires AboutToLeave(s)
    ensures var s' := DoLeave(s, 1, 0, 0);
            && !s'.panicked && M(s', 0).v == 0 && T(s', 1).pc == InWait(CondQ(0), 0)
            && Q(s', CondQ(0)) == [1] && T(s', 2).pc == Ready
  {
    DropMutexPc(s, 1, 0);
    EnqueueGets(DropMutex(s, 1, 0), 1, CondQ(0), 0);
  }

  lemma {:induction false} RunPrefix(s: State, step: Step, steps: seq<Step>)
    requires Enabled(s, step) && IsRun(Next(s, step), steps)
    ensures IsRun(s, [step] + steps) && End(s, [step] + steps) == End(Next(s, step), steps)
  {
    assert ([step] + steps)[1..] == steps;
  }

  lemma {:induction false} PanicFollows(s: State)
    requires !s.panicked && M(s, 0).v == 0 && T(s, 1).pc == InWait(CondQ(0), 0) && Q(s, CondQ(0)) == [1]
    requires T(s, 2).pc == Ready
    ensures var steps := [MutexEnter(2, 0), Signal(0), Resume(1), Reenter(1)];
            IsRun(s, steps) && End(s, steps).panicked
  {
    var s1 := DoMutexEnter(s, 2, 0);
    SetMutexGets(s, 0, Entered(M(s, 0), 2));
    PanicSignalled(s1);
    RunPrefix(s, MutexEnter(2, 0), [Signal(0), Resume(1), Reenter(1)]);
  }

  lemma {:induction false} PanicSignalled(s: State)
    requires !s.panicked && MutexBusy(M(s, 0), 1) && T(s, 1).pc == InWait(CondQ(0), 0) && Q(s, CondQ(0)) == [1]
    ensures var steps := [Signal(0), Resume(1), Reenter(1)];
            IsRun(s, steps) && End(s, steps).panicked
  {
    var s1 := WakeupOne(s, CondQ(0));
    var s2 := DoResume(s1, 1);
    WakeupGets(s, CondQ(0));
    ResumeGets(s1, 1);
    assert MutexBusy(M(s2, 0), 1) && T(s2, 1).pc == CvReturn(0, 0, false);
    RunPrefix(s2, Reenter(1), []);
    RunPrefix(s1, Resume(1), [Reenter(1)]);
    RunPrefix(s, Signal(0), [Resume(1), Reenter(1)]);
  }
}
