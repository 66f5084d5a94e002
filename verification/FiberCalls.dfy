/** What a blocking call has done when it returns. */
module FiberCalls {

  import opened Basics
  import opened FiberModel
  import opened FiberInvariant
  import opened FiberSteps
  import opened FiberRuns
  import opened FiberCounts
  import opened FiberQueues

  // ---- mutex_enter and rw_enter

  ghost predicate InMutexEnter(w: Thread, m: nat) {
    w.pc == MutexRetry(m) || (w.pc.InWait? && w.pc.q == MutexQ(m))
  }

  lemma {:induction false} MutexEnterMoves(s: State, step: Step, t: Tid, m: nat)
    requires Enabled(s, step) && Subject(step) == Some(t)
    requires InMutexEnter(T(s, t), m) || step == MutexEnter(t, m)
    ensures var w' := T(Next(s, step), t);
            if Enters(s, step, t, m) then w'.pc == Ready else InMutexEnter(w', m)
  {
  }

  /** mutex_enter returns only by taking the mutex, and takes it exactly when it tries while
      nobody else has it. */
  lemma {:induction false} MutexEnterReturns(s: State, step: Step, t: Tid, m: nat)
    requires Inv(s) && Enabled(s, step) && (InMutexEnter(T(s, t), m) || step == MutexEnter(t, m))
    ensures var s' := Next(s, step);
            if Enters(s, step, t, m) then T(s', t).pc == Ready && M(s', m).o == Some(t)
            else InMutexEnter(T(s', t), m)
  {
    var s' := Next(s, step);
    if Subject(step) == Some(t) {
      MutexEnterMoves(s, step, t, m);
    } else {
      PcOfOthers(s, step, t);
    }
    MutexStep(s, step, t, m);
    StepKeeps(s, step);
    assert MutexOk(M(s', m));
  }

  ghost predicate InRwEnter(w: Thread, l: nat, writer: bool) {
    w.pc == RwRetry(l, writer) || (w.pc.InWait? && w.pc.q == RwQueue(l, writer))
  }

  lemma {:induction false} RwEnterMoves(s: State, step: Step, t: Tid, l: nat, writer: bool)
    requires Enabled(s, step) && Subject(step) == Some(t)
    requires InRwEnter(T(s, t), l, writer) || step == RwEnter(t, l, writer)
    ensures var w' := T(Next(s, step), t);
            if RwEnters(s, step, t, l) then w'.pc == Ready else InRwEnter(w', l, writer)
  {
  }

  /** rw_enter returns only by entering, and enters exactly when it tries while no writer is
      inside and, for a reader, none waits. */
  lemma {:induction false} RwEnterReturns(s: State, step: Step, t: Tid, l: nat, writer: bool)
    requires Enabled(s, step) && (InRwEnter(T(s, t), l, writer) || step == RwEnter(t, l, writer))
    ensures var s' := Next(s, step);
            if RwEnters(s, step, t, l)
            then T(s', t).pc == Ready && t in L(s', l).held && (writer ==> L(s', l).o == Some(t))
            else InRwEnter(T(s', t), l, writer)
  {
    var s' := Next(s, step);
    if Subject(step) == Some(t) {
      RwEnterMoves(s, step, t, l, writer);
      EnterLock(s, t, l, writer, l);
    } else {
      PcOfOthers(s, step, t);
    }
    RwStep(s, step, t, l);
  }

  // ---- cv_wait

  /** Between entry and return of a wait for `c` with mutex `m`. */
  ghost predicate InCvCall(w: Thread, c: nat, m: nat) {
    match w.pc
    case CvLeave(d, x) => d == c && x == m
    case InWait(q, x) => q == CondQ(c) && x == m
    case CvReturn(d, x, _) => d == c && x == m
    case CvFinish(d, x, _) => d == c && x == m
    case _ => false
  }

  lemma {:induction false} CvCallStays(s: State, step: Step, t: Tid, c: nat, m: nat)
    requires Enabled(s, step) && InCvCall(T(s, t), c, m) && step != Finish(t)
    ensures InCvCall(T(Next(s, step), t), c, m)
  {
    if Subject(step) != Some(t) {
      PcOfOthers(s, step, t);
    }
  }

  lemma {:induction false} CvCallRuns(s: State, steps: seq<Step>, t: Tid, c: nat, m: nat)
    requires IsRun(s, steps) && InCvCall(T(s, t), c, m) && Finish(t) !in steps
    ensures InCvCall(T(End(s, steps), t), c, m)
    decreases |steps|
  {
    if steps == [] {
    } else {
      CvCallStays(s, steps[0], t, c, m);
      CvCallRuns(Next(s, steps[0]), steps[1..], t, c, m);
    }
  }

  /** Re-entering after a wait takes the mutex once more, unless it panics, and keeps the result
      of wait(). */
  lemma {:induction false} ReenterTakes(s: State, t: Tid)
    requires Inv(s) && Enabled(s, Reenter(t)) && !Next(s, Reenter(t)).panicked
    ensures var s', pc := Next(s, Reenter(t)), T(s, t).pc;
            && M(s', pc.m).o == Some(t) && M(s', pc.m).held[t] == M(s, pc.m).held[t] + 1
            && T(s', t).pc == CvFinish(pc.c, pc.m, pc.timedout)
  {
    var m := T(s, t).pc.m;
    TryMutex(s, t, m, T(s, t).pc.timedout, m);
  }

  /** In every run, a thread at either end of a wait owns the mutex that it waits with. */
  lemma {:induction false} CvOwns(steps: seq<Step>, t: Tid)
    requires IsRun(Start(), steps) && AtEnd(T(End(Start(), steps), t).pc)
    ensures var s := End(Start(), steps);
            var x := M(s, T(s, t).pc.m);
            t in x.held && x.o == Some(t) && x.v > 0
  {
    StartInv();
    RunKeeps(Start(), steps);
    var s := End(Start(), steps);
    assert Holding(s) && MutexOk(M(s, T(s, t).pc.m));
  }

  /** A thread that returns from a wait has the mutex that it began to wait with. */
  lemma {:induction false} CvWaitReturns(s: State, steps: seq<Step>, t: Tid, c: nat, m: nat)
    requires Inv(s) && IsRun(s, steps) && InCvCall(T(s, t), c, m) && Finish(t) !in steps
    requires Enabled(End(s, steps), Finish(t))
    ensures var s' := Next(End(s, steps), Finish(t));
            && T(s', t).pc == Ready && t in M(s', m).held && M(s', m).o == Some(t)
  {
    var s1 := End(s, steps);
    RunKeeps(s, steps);
    CvCallRuns(s, steps, t, c, m);
    assert AtEnd(T(s1, t).pc) && Holding(s1);
    OtherMutex(s1, Finish(t), m);
    assert MutexOk(M(s1, m));
  }

  // ---- wait

  /** A wake-up that does not come from the list lets a waiter go on, and wait() then says whether
      it was still on the list. */
  lemma {:induction false} TimeoutReturns(s: State, t: Tid)
    requires Inv(s) && !s.panicked && T(s, t).pc.InWait?
    ensures Enabled(s, Wake(t)) && Enabled(DoWake(s, t), Resume(t))
    ensures var s', pc := DoResume(DoWake(s, t), t), T(s, t).pc;
            && T(s', t).pc == After(pc.q, pc.m, t in Q(s, pc.q)) && t !in Q(s', pc.q)
  {
    var pc := T(s, t).pc;
    WakeGets(s, t);
    ResumeGets(DoWake(s, t), t);
    assert t in Q(s, pc.q) <==> Linked(T(s, t), pc.q);
    WithoutFacts(Q(s, pc.q), t);
  }
}
