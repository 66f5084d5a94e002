/** The blocking primitives of rumpfiber.c as a transition system: mutexes, reader/writer locks
    and condition variables over one kind of wait queue.

    A step is what a thread does between two points where another thread may come in: a call
    of bmk_sched, or a call into the rump kernel's own scheduling around a slow path.  A wake-up
    that does not come from a queue (a timeout, an interrupt) may happen at any time. */
module FiberModel {

  import opened Basics

  /** Threads, each with an lwp of its own. */
  type Tid = nat

  /** The wait lists: of a mutex, of a lock's readers and writers, of a condition variable. */
  datatype Queue = MutexQ(m: nat) | ReadQ(l: nat) | WriteQ(l: nat) | CondQ(c: nat)

  datatype Pc =
    | Ready                                   // in code of its own
    | MutexRetry(m: nat)                      // at the test of the loop in mutex_enter
    | RwRetry(l: nat, writer: bool)           // at the test of the loop in rw_enter
    | InWait(q: Queue, m: nat)                // in wait(), for a condition variable with mutex m
    | CvLeave(c: nat, m: nat)                 // in cv_wait, the mutex still held
    | CvReturn(c: nat, m: nat, timedout: bool) // in cv_wait, back from wait()
    | CvFinish(c: nat, m: nat, timedout: bool) // in cv_wait, the mutex held again

  /** `onlist` is the flag in the waiter on the thread's stack; `woken` counts the wake-ups that
      took the waiter off its list during the current wait. */
  datatype Thread = Thread(pc: Pc, runnable: bool, onlist: bool, woken: nat)

  /** `held` records outstanding enters, one for each. */
  datatype Mutex = Mutex(v: nat, o: Option<Tid>, held: multiset<Tid>)
  datatype Rw = Rw(v: int, o: Option<Tid>, held: multiset<Tid>)

  datatype State = State(queues: map<Queue, seq<Tid>>, th: map<Tid, Thread>, mtx: map<nat, Mutex>,
                         rw: map<nat, Rw>, nwaiters: map<nat, int>, panicked: bool)

  // ---- what has not been touched yet is as initialised

  function Q(s: State, q: Queue): seq<Tid> {
    if q in s.queues then s.queues[q] else []
  }

  function T(s: State, t: Tid): Thread {
    if t in s.th then s.th[t] else Thread(Ready, true, false, 0)
  }

  function M(s: State, m: nat): Mutex {
    if m in s.mtx then s.mtx[m] else Mutex(0, None, multiset{})
  }

  function L(s: State, l: nat): Rw {
    if l in s.rw then s.rw[l] else Rw(0, None, multiset{})
  }

  function N(s: State, c: nat): int {
    if c in s.nwaiters then s.nwaiters[c] else 0
  }

  function Goto(s: State, t: Tid, pc: Pc): State {
    s.(th := s.th[t := T(s, t).(pc := pc)])
  }

  // ---- wait, wakeup_one, wakeup_all

  /** wait() up to the call of bmk_sched. */
  function Enqueue(s: State, t: Tid, q: Queue, m: nat): State {
    s.(queues := s.queues[q := Q(s, q) + [t]], th := s.th[t := Thread(InWait(q, m), false, true, 0)])
  }

  /** Where a thread goes on when wait() returns; the result is ETIMEDOUT if the waiter was still
      on the list. */
  function After(q: Queue, m: nat, timedout: bool): Pc {
    match q
    case MutexQ(x) => MutexRetry(x)
    case ReadQ(l) => RwRetry(l, false)
    case WriteQ(l) => RwRetry(l, true)
    case CondQ(c) => CvReturn(c, m, timedout)
  }

  /** wait() from the return of bmk_sched on. */
  function DoResume(s: State, t: Tid): State
    requires T(s, t).pc.InWait?
  {
    var w := T(s, t);
    var queues := if w.onlist then s.queues[w.pc.q := Without(Q(s, w.pc.q), t)] else s.queues;
    s.(queues := queues, th := s.th[t := w.(pc := After(w.pc.q, w.pc.m, w.onlist), onlist := false)])
  }

  function Wakened(w: Thread): Thread {
    w.(onlist := false, runnable := true, woken := w.woken + 1)
  }

  function WakeupOne(s: State, q: Queue): State {
    if Q(s, q) == [] then s
    else
      var t := Q(s, q)[0];
      s.(queues := s.queues[q := Q(s, q)[1..]], th := s.th[t := Wakened(T(s, t))])
  }

  function WakeupAll(s: State, q: Queue): State
    decreases |Q(s, q)|
  {
    if Q(s, q) == [] then s else WakeupAll(WakeupOne(s, q), q)
  }

  // ---- mutexes

  predicate MutexBusy(x: Mutex, t: Tid) {
    x.v != 0 && x.o != Some(t)
  }

  function Entered(x: Mutex, t: Tid): Mutex {
    Mutex(x.v + 1, Some(t), x.held + multiset{t})
  }

  function SetMutex(s: State, m: nat, x: Mutex): State {
    s.(mtx := s.mtx[m := x])
  }

  function TakeMutex(s: State, t: Tid, m: nat): State {
    SetMutex(s, m, Entered(M(s, m), t))
  }

  /** One enter less; the last one leaves the mutex without an owner. */
  function Left(x: Mutex, t: Tid): Mutex
    requires x.v > 0
  {
    Mutex(x.v - 1, if x.v == 1 then None else x.o, x.held - multiset{t})
  }

  /** rumpuser_mutex_exit */
  function DropMutex(s: State, t: Tid, m: nat): State
    requires M(s, m).v > 0
  {
    var s' := SetMutex(s, m, Left(M(s, m), t));
    if M(s, m).v == 1 then WakeupOne(s', MutexQ(m)) else s'
  }

  // ---- reader/writer locks

  function RwQueue(l: nat, writer: bool): Queue {
    if writer then WriteQ(l) else ReadQ(l)
  }

  predicate RwBusy(s: State, l: nat, writer: bool) {
    L(s, l).o.Some? || (!writer && Q(s, WriteQ(l)) != [])
  }

  function SetRw(s: State, l: nat, x: Rw): State {
    s.(rw := s.rw[l := x])
  }

  function RwEntered(x: Rw, t: Tid, writer: bool): Rw {
    if writer then Rw(x.v, Some(t), x.held + multiset{t}) else Rw(x.v + 1, x.o, x.held + multiset{t})
  }

  function TakeRw(s: State, t: Tid, l: nat, writer: bool): State {
    SetRw(s, l, RwEntered(L(s, l), t, writer))
  }

  /** Who holds it as a writer is not looked at. */
  function RwLeft(x: Rw, t: Tid): Rw {
    Rw(if x.o.Some? then x.v else x.v - 1, None, x.held - multiset{t})
  }

  /** rumpuser_rw_exit */
  function DropRw(s: State, t: Tid, l: nat): State {
    var s' := SetRw(s, l, RwLeft(L(s, l), t));
    if Q(s, WriteQ(l)) != [] then WakeupOne(s', WriteQ(l)) else WakeupAll(s', ReadQ(l))
  }

  // ---- steps

  datatype Step =
    | MutexEnter(t: Tid, m: nat)
    | MutexTry(t: Tid, m: nat)
    | MutexExit(t: Tid, m: nat)
    | RwEnter(t: Tid, l: nat, writer: bool)
    | RwTry(t: Tid, l: nat, writer: bool)
    | RwExit(t: Tid, l: nat)
    | Retry(t: Tid)
    | Resume(t: Tid)
    | CvWait(t: Tid, c: nat, m: nat)
    | Leave(t: Tid)
    | Reenter(t: Tid)
    | Finish(t: Tid)
    | Signal(c: nat)
    | Broadcast(c: nat)
    | Wake(t: Tid)

  /** Threads exit and wait only with what they hold; a thread in wait() goes on only when it
      is runnable; nothing happens after a panic. */
  ghost predicate Enabled(s: State, step: Step) {
    !s.panicked &&
    match step
    case MutexEnter(t, _) => T(s, t).pc.Ready?
    case MutexTry(t, _) => T(s, t).pc.Ready?
    case MutexExit(t, m) => T(s, t).pc.Ready? && t in M(s, m).held && M(s, m).v > 0
    case RwEnter(t, _, _) => T(s, t).pc.Ready?
    case RwTry(t, _, _) => T(s, t).pc.Ready?
    case RwExit(t, l) => T(s, t).pc.Ready? && t in L(s, l).held
    case Retry(t) => T(s, t).pc.MutexRetry? || T(s, t).pc.RwRetry?
    case Resume(t) => T(s, t).pc.InWait? && T(s, t).runnable
    case CvWait(t, _, m) => T(s, t).pc.Ready? && t in M(s, m).held
    case Leave(t) => T(s, t).pc.CvLeave? && M(s, T(s, t).pc.m).v > 0
    case Reenter(t) => T(s, t).pc.CvReturn?
    case Finish(t) => T(s, t).pc.CvFinish?
    case Signal(_) => true
    case Broadcast(_) => true
    case Wake(t) => T(s, t).pc.InWait?
  }

  function DoMutexTry(s: State, t: Tid, m: nat): State {
    if MutexBusy(M(s, m), t) then s else TakeMutex(s, t, m)
  }

  function DoMutexEnter(s: State, t: Tid, m: nat): State {
    if MutexBusy(M(s, m), t) then Goto(s, t, MutexRetry(m)) else TakeMutex(s, t, m)
  }

  function DoMutexRetry(s: State, t: Tid, m: nat): State {
    if MutexBusy(M(s, m), t) then Enqueue(s, t, MutexQ(m), 0) else Goto(TakeMutex(s, t, m), t, Ready)
  }

  function DoRwTry(s: State, t: Tid, l: nat, writer: bool): State {
    if RwBusy(s, l, writer) then s else TakeRw(s, t, l, writer)
  }

  function DoRwEnter(s: State, t: Tid, l: nat, writer: bool): State {
    if RwBusy(s, l, writer) then Goto(s, t, RwRetry(l, writer)) else TakeRw(s, t, l, writer)
  }

  function DoRwRetry(s: State, t: Tid, l: nat, writer: bool): State {
    if RwBusy(s, l, writer) then Enqueue(s, t, RwQueue(l, writer), 0)
    else Goto(TakeRw(s, t, l, writer), t, Ready)
  }

  function AddWaiters(s: State, c: nat, n: int): State {
    s.(nwaiters := s.nwaiters[c := N(s, c) + n])
  }

  function DoCvWait(s: State, t: Tid, c: nat, m: nat): State {
    Goto(AddWaiters(s, c, 1), t, CvLeave(c, m))
  }

  /** Releasing the mutex and queueing up are one step: bmk_sched is not called in between. */
  function DoLeave(s: State, t: Tid, c: nat, m: nat): State
    requires M(s, m).v > 0
  {
    Enqueue(DropMutex(s, t, m), t, CondQ(c), m)
  }

  /** enter_nowrap does not wait: a busy mutex is a panic. */
  function DoReenter(s: State, t: Tid, c: nat, m: nat, timedout: bool): State {
    if MutexBusy(M(s, m), t) then s.(panicked := true) else Goto(TakeMutex(s, t, m), t, CvFinish(c, m, timedout))
  }

  function DoFinish(s: State, t: Tid, c: nat): State {
    Goto(AddWaiters(s, c, -1), t, Ready)
  }

  function DoWake(s: State, t: Tid): State {
    s.(th := s.th[t := T(s, t).(runnable := true)])
  }

  ghost function Next(s: State, step: Step): State
    requires Enabled(s, step)
  {
    match step
    case MutexEnter(t, m) => DoMutexEnter(s, t, m)
    case MutexTry(t, m) => DoMutexTry(s, t, m)
    case MutexExit(t, m) => DropMutex(s, t, m)
    case RwEnter(t, l, writer) => DoRwEnter(s, t, l, writer)
    case RwTry(t, l, writer) => DoRwTry(s, t, l, writer)
    case RwExit(t, l) => DropRw(s, t, l)
    case Retry(t) =>
      (match T(s, t).pc
       case MutexRetry(m) => DoMutexRetry(s, t, m)
       case RwRetry(l, writer) => DoRwRetry(s, t, l, writer)
       case _ => s)
    case Resume(t) => DoResume(s, t)
    case CvWait(t, c, m) => DoCvWait(s, t, c, m)
    case Leave(t) => DoLeave(s, t, T(s, t).pc.c, T(s, t).pc.m)
    case Reenter(t) => DoReenter(s, t, T(s, t).pc.c, T(s, t).pc.m, T(s, t).pc.timedout)
    case Finish(t) => DoFinish(s, t, T(s, t).pc.c)
    case Signal(c) => WakeupOne(s, CondQ(c))
    case Broadcast(c) => WakeupAll(s, CondQ(c))
    case Wake(t) => DoWake(s, t)
  }
}
