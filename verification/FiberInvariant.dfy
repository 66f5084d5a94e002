/** What every step of the blocking primitives keeps. */
module FiberInvariant {

  import opened Basics
  import opened FiberModel

  ghost predicate Linked(w: Thread, q: Queue) {
    w.pc.InWait? && w.pc.q == q && w.onlist
  }

  /** A waiter is linked exactly while its thread is in wait() with the flag set, on that one
      list and once. */
  ghost predicate Queued(s: State) {
    && (forall q :: Distinct(Q(s, q)))
    && (forall q, t :: t in Q(s, q) <==> Linked(T(s, t), q))
  }

  /** A thread in wait() has been taken off its list by one wake-up or by none, and after one it
      can run; a thread that is not in wait() can run. */
  ghost predicate WaitOk(w: Thread) {
    if w.pc.InWait? then w.woken == (if w.onlist then 0 else 1) && (!w.onlist ==> w.runnable)
    else w.runnable
  }

  ghost predicate Waits(s: State) {
    forall t :: WaitOk(T(s, t))
  }

  /** The owner has entered v times and nobody else at all; nobody owns a mutex that is free. */
  ghost predicate MutexOk(x: Mutex) {
    && (x.v == 0 <==> x.o.None?)
    && (forall t :: x.held[t] == if x.o == Some(t) then x.v else 0)
  }

  ghost predicate Mutexes(s: State) {
    forall m :: MutexOk(M(s, m))
  }

  /** On its way from a list to another attempt. */
  ghost predicate Pending(w: Thread, q: Queue) {
    || (w.pc.InWait? && w.pc.q == q && !w.onlist)
    || (match q
        case MutexQ(m) => w.pc == MutexRetry(m)
        case ReadQ(l) => w.pc == RwRetry(l, false)
        case WriteQ(l) => w.pc == RwRetry(l, true)
        case CondQ(_) => false)
  }

  ghost predicate SomePending(s: State, q: Queue) {
    exists t :: Pending(T(s, t), q)
  }

  /** A free mutex with waiters has somebody about to try it again. */
  ghost predicate MutexLive(s: State, m: nat) {
    M(s, m).v == 0 && Q(s, MutexQ(m)) != [] ==> SomePending(s, MutexQ(m))
  }

  ghost predicate MutexesLive(s: State) {
    forall m :: MutexLive(s, m)
  }

  /** v counts readers: with the writer it makes the number of holders. */
  ghost predicate RwOk(x: Rw) {
    |x.held| == x.v + if x.o.Some? then 1 else 0
  }

  ghost predicate Rws(s: State) {
    forall l :: RwOk(L(s, l))
  }

  /** Waiting writers imply a writer inside or on its way; waiting readers imply the same or
      a waiting writer. */
  ghost predicate RwLive(s: State, l: nat) {
    && (Q(s, WriteQ(l)) != [] ==> L(s, l).o.Some? || SomePending(s, WriteQ(l)))
    && (Q(s, ReadQ(l)) != [] ==>
          L(s, l).o.Some? || Q(s, WriteQ(l)) != [] || SomePending(s, WriteQ(l)))
  }

  ghost predicate RwsLive(s: State) {
    forall l :: RwLive(s, l)
  }

  /** In a wait for condition variable `c`. */
  ghost predicate InCv(w: Thread, c: nat) {
    match w.pc
    case InWait(CondQ(d), _) => d == c
    case CvLeave(d, _) => d == c
    case CvReturn(d, _, _) => d == c
    case CvFinish(d, _, _) => d == c
    case _ => false
  }

  ghost function Inside(s: State, c: nat): set<Tid> {
    set t | t in s.th && InCv(T(s, t), c)
  }

  ghost predicate Counts(s: State) {
    forall c :: N(s, c) == |Inside(s, c)|
  }

  /** At either end of cv_wait: not yet queued, or back with the mutex. */
  predicate AtEnd(pc: Pc) {
    pc.CvLeave? || pc.CvFinish?
  }

  /** There a thread holds the mutex that it waits with. */
  ghost predicate Holding(s: State) {
    forall t :: AtEnd(T(s, t).pc) ==> t in M(s, T(s, t).pc.m).held
  }

  ghost predicate Inv(s: State) {
    && Queued(s) && Waits(s) && Mutexes(s) && MutexesLive(s) && Rws(s) && RwsLive(s)
    && Counts(s) && Holding(s)
  }
}
