/** What every step of the scheduler keeps. */
module SchedInvariant {

  import opened Basics
  import opened SchedModel

  /** Every thread is on exactly one list, once; what has been freed is gone, and was freed once. */
  ghost predicate Lists(s: State) {
    && Distinct(s.threads) && Distinct(s.zombies) && Distinct(s.freed)
    && (forall t :: t in s.threads ==> t !in s.zombies)
    && (forall t :: t in s.th <==> t in s.threads || t in s.zombies)
    && (forall t :: t in s.freed ==> t !in s.th)
  }

  /** The running thread is the last of the list, except in the exit window. */
  ghost predicate Running(s: State) {
    && s.current in s.th && s.th[s.current].tcb.Active?
    && (if s.at == Scheduling(Dead) then s.current in s.zombies
        else 0 < |s.threads| && s.threads[|s.threads| - 1] == s.current)
  }

  /** A thread that is not running was left in bmk_sched with prev equal to itself, or never
      started; exactly the zombies were left in the exit window. */
  ghost predicate ContextOk(s: State, t: Tid)
    requires t in s.th
  {
    match s.th[t].tcb
    case Active => t == s.current
    case Fresh => t != s.current && t in s.threads
    case Saved(prev, cont) => t != s.current && prev == t && (cont == Dead <==> t in s.zombies)
  }

  ghost predicate Contexts(s: State) {
    forall t :: t in s.th ==> ContextOk(s, t)
  }

  /** In bmk_sched, called from a given place. */
  ghost predicate StuckAt(s: State, t: Tid, c: Cont) {
    && t in s.th
    && (if t == s.current then s.at == Scheduling(c) else s.th[t].tcb.Saved? && s.th[t].tcb.cont == c)
  }

  /** An exiting thread waits for its joiner only while it must be joined, and no thread that
      must be joined has exited. */
  ghost predicate Gates(s: State) {
    && (forall t :: t in s.zombies && t in s.th ==> !s.th[t].mustjoin)
    && (forall t :: StuckAt(s, t, ExitGate) && !s.th[t].mustjoin ==> s.th[t].runnable)
  }

  /** The record of a joiner: linked from before it blocks until after it is back. */
  ghost predicate InJoin(s: State, w: Waiter) {
    StuckAt(s, w.thread, JoinWait(w.wanted)) || (w.thread == s.current && s.at == Joining(w.wanted, true))
  }

  ghost predicate Records(s: State) {
    && Distinct(s.joinwq)
    && (forall w :: w in s.joinwq <==> InJoin(s, w))
    && (forall w, v :: w in s.joinwq && v in s.joinwq && w.wanted == v.wanted ==> w == v)
    && (s.at.Joining? && !s.at.linked ==> forall w :: w in s.joinwq ==> w.wanted != s.at.t)
  }

  /** A thread that is being joined must still be joined, hence has not exited. */
  ghost predicate Targets(s: State) {
    && (forall w :: w in s.joinwq ==> w.wanted in s.th && s.th[w.wanted].mustjoin)
    && (s.at.Joining? ==> s.at.t in s.th && s.th[s.at.t].mustjoin)
  }

  /** A joiner that is still blocked has not missed its target. */
  ghost predicate Handshake(s: State) {
    forall w :: w in s.joinwq && w.thread in s.th && w.wanted in s.th && s.th[w.wanted].joined ==>
      s.th[w.thread].runnable
  }

  /** Lists and contexts, and the protocol of exit and join. */
  ghost predicate Shape(s: State) {
    Lists(s) && Running(s) && Contexts(s)
  }

  ghost predicate Protocol(s: State) {
    Gates(s) && Records(s) && Targets(s) && Handshake(s)
  }

  /** A thread that waits at its exit has said so; one that has, and must be joined, is at its
      exit. */
  ghost predicate Arrivals(s: State) {
    && (forall t :: StuckAt(s, t, ExitGate) ==> s.th[t].joined)
    && (forall t :: t in s.th && s.th[t].joined && s.th[t].mustjoin ==>
          StuckAt(s, t, ExitGate) || (t == s.current && s.at.Exiting?))
  }

  /** Only a thread that called bmk_sched from outside, and cannot run, has a deadline; a thread
      that runs can run. */
  ghost predicate Deadlines(s: State) {
    && (forall t :: t in s.th && s.th[t].wakeup != -1 ==> StuckAt(s, t, Caller) && !s.th[t].runnable)
    && (s.current in s.th && !s.at.Scheduling? ==> s.th[s.current].runnable)
  }

  ghost predicate Marks(s: State) {
    Arrivals(s) && Deadlines(s)
  }

  ghost predicate Inv(s: State) {
    Shape(s) && Protocol(s) && Marks(s)
  }
}
