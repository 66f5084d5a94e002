/** The wait lists step by step: first come, first served. */
module FiberQueues {

  import opened Basics
  import opened FiberModel
  import opened FiberInvariant
  import opened FiberSteps
  import opened FiberRuns

  // ---- where a thread is

  function Subject(step: Step): Option<Tid> {
    match step
    case MutexEnter(t, _) => Some(t)
    case MutexTry(t, _) => Some(t)
    case MutexExit(t, _) => Some(t)
    case RwEnter(t, _, _) => Some(t)
    case RwTry(t, _, _) => Some(t)
    case RwExit(t, _) => Some(t)
    case Retry(t) => Some(t)
    case Resume(t) => Some(t)
    case CvWait(t, _, _) => Some(t)
    case Leave(t) => Some(t)
    case Reenter(t) => Some(t)
    case Finish(t) => Some(t)
    case Signal(_) => None
    case Broadcast(_) => None
    case Wake(t) => Some(t)
  }

  lemma {:induction false} WakeupAllPc(s: State, q: Queue, t: Tid)
    ensures T(WakeupAll(s, q), t).pc == T(s, t).pc
    decreases |Q(s, q)|
  {
    if Q(s, q) == [] {
    } else {
      WakeupPc(s, q);
      WakeupAllPc(WakeupOne(s, q), q, t);
    }
  }

  /** Where a thread is changes only by steps of its own. */
  lemma {:induction false} PcOfOthers(s: State, step: Step, t: Tid)
    requires Enabled(s, step) && Subject(step) != Some(t)
    ensures T(Next(s, step), t).pc == T(s, t).pc
  {
    match step
    case MutexExit(u, m) => DropMutexPc(s, u, m);
    case RwExit(u, l) =>
      var s1 := SetRw(s, l, RwLeft(L(s, l), u));
      WakeupPc(s1, WriteQ(l));
      WakeupAllPc(s1, ReadQ(l), t);
    case Leave(u) => DropMutexPc(s, u, T(s, u).pc.m);
    case Signal(c) => WakeupPc(s, CondQ(c));
    case Broadcast(c) => WakeupAllPc(s, CondQ(c), t);
    case _ =>
  }

  // ---- what a step makes of a list

  /** The step wakes the first waiter of the list: a signal, the last exit of the mutex, any exit
      of the lock for a writer. */
  ghost predicate WakesFirst(s: State, step: Step, q: Queue) {
    match step
    case Signal(c) => q == CondQ(c)
    case MutexExit(_, m) => q == MutexQ(m) && M(s, m).v == 1
    case Leave(t) => T(s, t).pc.CvLeave? && q == MutexQ(T(s, t).pc.m) && M(s, T(s, t).pc.m).v == 1
    case RwExit(_, l) => q == WriteQ(l)
    case _ => false
  }

  /** The step wakes everybody on the list: a broadcast, an exit of a lock that no writer waits for. */
  ghost predicate WakesAll(s: State, step: Step, q: Queue) {
    match step
    case Broadcast(c) => q == CondQ(c)
    case RwExit(_, l) => q == ReadQ(l) && Q(s, WriteQ(l)) == []
    case _ => false
  }

  /** The step puts its thread at the end of the list. */
  ghost predicate Queues(s: State, step: Step, q: Queue) {
    match step
    case Leave(t) => T(s, t).pc.CvLeave? && q == CondQ(T(s, t).pc.c)
    case Retry(t) =>
      (match T(s, t).pc
       case MutexRetry(m) => q == MutexQ(m) && MutexBusy(M(s, m), t)
       case RwRetry(l, writer) => q == RwQueue(l, writer) && RwBusy(s, l, writer)
       case _ => false)
    case _ => false
  }

  ghost predicate QueueNext(s: State, step: Step, q: Queue, l: seq<Tid>, l': seq<Tid>) {
    if WakesFirst(s, step, q) then l' == if l == [] then [] else l[1..]
    else if WakesAll(s, step, q) then l' == []
    else if Queues(s, step, q) then Subject(step).Some? && l' == l + [Subject(step).value]
    else if step.Resume? && step.t in l then l' == Without(l, step.t)
    else l' == l
  }

  lemma {:induction false} WakeupQueue(s: State, p: Queue, q: Queue)
    ensures var l := Q(s, q);
            Q(WakeupOne(s, p), q) == if p == q && l != [] then l[1..] else l
  {
    if Q(s, p) != [] {
      WakeupGets(s, p);
    }
  }

  lemma {:induction false} WakeupAllQueue(s: State, p: Queue, q: Queue)
    ensures Q(WakeupAll(s, p), q) == if p == q then [] else Q(s, q)
    decreases |Q(s, p)|
  {
    if Q(s, p) == [] {
    } else {
      WakeupQueue(s, p, q);
      WakeupAllQueue(WakeupOne(s, p), p, q);
    }
  }

  lemma {:induction false} DropMutexQueue(s: State, t: Tid, m: nat, q: Queue)
    requires M(s, m).v > 0
    ensures var l := Q(s, q);
            Q(DropMutex(s, t, m), q) == if q == MutexQ(m) && M(s, m).v == 1 && l != [] then l[1..] else l
  {
    SetMutexGets(s, m, Left(M(s, m), t));
    WakeupQueue(SetMutex(s, m, Left(M(s, m), t)), MutexQ(m), q);
  }

  lemma {:induction false} DropRwQueue(s: State, t: Tid, k: nat, q: Queue)
    ensures var l := Q(s, q);
            Q(DropRw(s, t, k), q) ==
            if q == WriteQ(k) && l != [] then l[1..]
            else if q == ReadQ(k) && Q(s, WriteQ(k)) == [] then [] else l
  {
    var s1 := SetRw(s, k, RwLeft(L(s, k), t));
    SetRwGets(s, k, RwLeft(L(s, k), t));
    WakeupQueue(s1, WriteQ(k), q);
    WakeupAllQueue(s1, ReadQ(k), q);
  }

  lemma {:induction false} LeaveQueue(s: State, t: Tid, q: Queue)
    requires Enabled(s, Leave(t))
    ensures QueueNext(s, Leave(t), q, Q(s, q), Q(Next(s, Leave(t)), q))
  {
    var pc := T(s, t).pc;
    DropMutexQueue(s, t, pc.m, q);
    EnqueueGets(DropMutex(s, t, pc.m), t, CondQ(pc.c), pc.m);
  }

  lemma {:induction false} ResumeQueue(s: State, t: Tid, q: Queue)
    requires Inv(s) && Enabled(s, Resume(t))
    ensures Q(DoResume(s, t), q) == if t in Q(s, q) then Without(Q(s, q), t) else Q(s, q)
  {
    ResumeGets(s, t);
    assert t in Q(s, q) <==> Linked(T(s, t), q);
  }

  lemma {:induction false} RetryQueue(s: State, t: Tid, q: Queue)
    requires Enabled(s, Retry(t))
    ensures QueueNext(s, Retry(t), q, Q(s, q), Q(Next(s, Retry(t)), q))
  {
  }

  lemma {:induction false} QuietQueue(s: State, step: Step, q: Queue)
    requires Enabled(s, step) && !step.MutexExit? && !step.RwExit? && !step.Leave? && !step.Resume?
    requires !step.Signal? && !step.Broadcast? && !step.Retry?
    ensures Q(Next(s, step), q) == Q(s, q)
  {
  }

  /** Exactly what a step makes of a wait list. */
  lemma {:induction false} QueueStep(s: State, step: Step, q: Queue)
    requires Inv(s) && Enabled(s, step)
    ensures QueueNext(s, step, q, Q(s, q), Q(Next(s, step), q))
  {
    match step
    case MutexExit(u, m) => DropMutexQueue(s, u, m, q);
    case RwExit(u, l) => DropRwQueue(s, u, l, q);
    case Leave(u) => LeaveQueue(s, u, q);
    case Resume(u) => ResumeQueue(s, u, q);
    case Signal(c) => WakeupQueue(s, CondQ(c), q);
    case Broadcast(c) => WakeupAllQueue(s, CondQ(c), q);
    case Retry(u) => RetryQueue(s, u, q);
    case _ => QuietQueue(s, step, q);
  }

  // ---- first come, first served

  lemma {:induction false} IndexAppend(l: seq<Tid>, t: Tid, u: Tid)
    requires t in l
    ensures IndexOf(l + [u], t) == IndexOf(l, t)
  {
    if l[0] == t {
    } else {
      IndexAppend(l[1..], t, u);
      assert (l + [u])[1..] == l[1..] + [u];
    }
  }

  lemma {:induction false} IndexWithout(l: seq<Tid>, t: Tid, u: Tid)
    requires Distinct(l) && t in l && t != u
    ensures t in Without(l, u) && IndexOf(Without(l, u), t) <= IndexOf(l, t)
  {
    WithoutFacts(l, u);
    if u in l {
      var i, j := IndexOf(l, u), IndexOf(l, t);
      IndexUnique(RemoveAt(l, i), t, if j < i then j else j - 1);
    }
  }

  ghost function Wakeups(s: State, steps: seq<Step>, q: Queue): nat
    requires IsRun(s, steps)
    decreases |steps|
  {
    if steps == [] then 0
    else (if WakesFirst(s, steps[0], q) then 1 else 0) + Wakeups(Next(s, steps[0]), steps[1..], q)
  }

  lemma {:induction false} ListAdvances(s: State, step: Step, t: Tid, q: Queue, l: seq<Tid>, l': seq<Tid>)
    requires QueueNext(s, step, q, l, l') && Distinct(l) && step != Resume(t) && t in l && t in l'
    ensures IndexOf(l', t) + (if WakesFirst(s, step, q) then 1 else 0) <= IndexOf(l, t)
  {
    if WakesFirst(s, step, q) {
    } else if Queues(s, step, q) {
      IndexAppend(l, t, Subject(step).value);
    } else if step.Resume? && step.t in l {
      IndexWithout(l, t, step.t);
    }
  }

  /** A waiter that has been taken off its list is not put back during the same wait. */
  lemma {:induction false} StaysQueued(s: State, step: Step, t: Tid, q: Queue, m: nat)
    requires Inv(s) && Enabled(s, step) && step != Resume(t) && T(s, t).pc == InWait(q, m)
    ensures T(Next(s, step), t).pc == InWait(q, m)
    ensures t in Q(Next(s, step), q) ==> t in Q(s, q)
  {
    if Subject(step) != Some(t) {
      PcOfOthers(s, step, t);
    }
    QueueStep(s, step, q);
    if step.Resume? {
      WithoutFacts(Q(s, q), step.t);
    }
  }

  /** While it is on a list, every wake-up of that list brings a waiter one place forward. */
  lemma {:induction false} QueueMeasure(s: State, steps: seq<Step>, t: Tid, q: Queue, m: nat)
    requires Inv(s) && IsRun(s, steps) && Resume(t) !in steps
    requires T(s, t).pc == InWait(q, m) && t in Q(End(s, steps), q)
    ensures t in Q(s, q)
    ensures IndexOf(Q(End(s, steps), q), t) + Wakeups(s, steps, q) <= IndexOf(Q(s, q), t)
    decreases |steps|
  {
    if steps == [] {
    } else {
      var s1 := Next(s, steps[0]);
      StepKeeps(s, steps[0]);
      StaysQueued(s, steps[0], t, q, m);
      QueueMeasure(s1, steps[1..], t, q, m);
      QueueStep(s, steps[0], q);
      assert Distinct(Q(s, q));
      ListAdvances(s, steps[0], t, q, Q(s, q), Q(s1, q));
    }
  }

  lemma {:induction false} RunInWait(s: State, steps: seq<Step>, t: Tid, q: Queue, m: nat)
    requires Inv(s) && IsRun(s, steps) && Resume(t) !in steps && T(s, t).pc == InWait(q, m)
    ensures T(End(s, steps), t).pc == InWait(q, m)
    decreases |steps|
  {
    if steps == [] {
    } else {
      StepKeeps(s, steps[0]);
      StaysQueued(s, steps[0], t, q, m);
      RunInWait(Next(s, steps[0]), steps[1..], t, q, m);
    }
  }

  /** The waiter at position k of any list has been woken after k + 1 wake-ups of that list. */
  lemma {:induction false} QueueReaches(s: State, steps: seq<Step>, t: Tid, q: Queue, m: nat)
    requires Inv(s) && IsRun(s, steps) && Resume(t) !in steps && T(s, t).pc == InWait(q, m)
    requires t in Q(s, q) && IndexOf(Q(s, q), t) < Wakeups(s, steps, q)
    ensures T(End(s, steps), t).woken == 1 && T(End(s, steps), t).runnable
  {
    var s' := End(s, steps);
    RunKeeps(s, steps);
    RunInWait(s, steps, t, q, m);
    if t in Q(s', q) {
      QueueMeasure(s, steps, t, q, m);
    }
    assert WaitOk(T(s', t)) && (t in Q(s', q) <==> Linked(T(s', t), q));
  }
}
