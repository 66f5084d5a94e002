/** The blocking primitives as the C code has them: lock fields, wait lists and flags updated in
    place.  What the model keeps beside them (where a thread is, who has entered what, how often
    a waiter was woken) is ghost here: no decision of the code depends on it. */
module Fiber {

  import opened Basics
  import Model = FiberModel

  type Tid = Model.Tid

  const EBUSY := 2
  const ETIMEDOUT := 4

  /** The scheduler's flag of a thread, and the flag in the waiter on its stack. */
  datatype Flags = Flags(runnable: bool, onlist: bool)

  /** The fields of a mutex; those of a reader/writer lock are alike. */
  datatype Lock = Lock(v: int, o: Option<Tid>)

  /** The model's threads and locks, put together from what the code has and the ghost rest. */
  ghost function Threads(flags: map<Tid, Flags>, pcs: map<Tid, Model.Pc>, woken: map<Tid, nat>)
    : map<Tid, Model.Thread>
    requires flags.Keys == pcs.Keys == woken.Keys
  {
    map t | t in flags :: Model.Thread(pcs[t], flags[t].runnable, flags[t].onlist, woken[t])
  }

  ghost predicate Counting(mtx: map<nat, Lock>) {
    forall m :: m in mtx ==> 0 <= mtx[m].v
  }

  ghost function Mutexes(mtx: map<nat, Lock>, held: map<nat, multiset<Tid>>): map<nat, Model.Mutex>
    requires mtx.Keys == held.Keys && Counting(mtx)
  {
    map m | m in mtx :: Model.Mutex(mtx[m].v, mtx[m].o, held[m])
  }

  ghost function Rws(rw: map<nat, Lock>, held: map<nat, multiset<Tid>>): map<nat, Model.Rw>
    requires rw.Keys == held.Keys
  {
    map l | l in rw :: Model.Rw(rw[l].v, rw[l].o, held[l])
  }

  lemma {:induction false} ThreadsUpdate(flags: map<Tid, Flags>, pcs: map<Tid, Model.Pc>, woken: map<Tid, nat>,
                                         t: Tid, f: Flags, pc: Model.Pc, n: nat)
    requires flags.Keys == pcs.Keys == woken.Keys
    ensures flags[t := f].Keys == pcs[t := pc].Keys == woken[t := n].Keys
    ensures Threads(flags[t := f], pcs[t := pc], woken[t := n]) ==
            Threads(flags, pcs, woken)[t := Model.Thread(pc, f.runnable, f.onlist, n)]
  {
  }

  lemma {:induction false} MutexesUpdate(mtx: map<nat, Lock>, held: map<nat, multiset<Tid>>,
                                         m: nat, x: Lock, h: multiset<Tid>)
    requires mtx.Keys == held.Keys && Counting(mtx) && 0 <= x.v
    ensures mtx[m := x].Keys == held[m := h].Keys && Counting(mtx[m := x])
    ensures Mutexes(mtx[m := x], held[m := h]) == Mutexes(mtx, held)[m := Model.Mutex(x.v, x.o, h)]
  {
  }

  lemma {:induction false} RwsUpdate(rw: map<nat, Lock>, held: map<nat, multiset<Tid>>,
                                     l: nat, x: Lock, h: multiset<Tid>)
    requires rw.Keys == held.Keys
    ensures rw[l := x].Keys == held[l := h].Keys
    ensures Rws(rw[l := x], held[l := h]) == Rws(rw, held)[l := Model.Rw(x.v, x.o, h)]
  {
  }

  class Fibers {
    var queues: map<Model.Queue, seq<Tid>>
    var flags: map<Tid, Flags>
    var mtx: map<nat, Lock>
    var rw: map<nat, Lock>
    var nwaiters: map<nat, int>
    var panicked: bool

    ghost var pcs: map<Tid, Model.Pc>
    ghost var woken: map<Tid, nat>
    ghost var mtxHeld: map<nat, multiset<Tid>>
    ghost var rwHeld: map<nat, multiset<Tid>>

    ghost predicate Valid()
      reads this
    {
      && flags.Keys == pcs.Keys == woken.Keys
      && mtx.Keys == mtxHeld.Keys && rw.Keys == rwHeld.Keys && Counting(mtx)
    }

    ghost function State(): Model.State
      requires Valid()
      reads this
    {
      Model.State(queues, Threads(flags, pcs, woken), Mutexes(mtx, mtxHeld), Rws(rw, rwHeld), nwaiters, panicked)
    }

    constructor ()
      ensures Valid() && State() == Model.State(map[], map[], map[], map[], map[], false)
    {
      queues, flags, mtx, rw, nwaiters, panicked := map[], map[], map[], map[], map[], false;
      pcs, woken, mtxHeld, rwHeld := map[], map[], map[], map[];
    }

    // ---- reading and writing one entry

    function Waiters(q: Model.Queue): seq<Tid>
      reads this
    {
      if q in queues then queues[q] else []
    }

    function FlagsOf(t: Tid): Flags
      reads this
    {
      if t in flags then flags[t] else Flags(true, false)
    }

    function MutexOf(m: nat): Lock
      reads this
    {
      if m in mtx then mtx[m] else Lock(0, None)
    }

    function RwOf(l: nat): Lock
      reads this
    {
      if l in rw then rw[l] else Lock(0, None)
    }

    method SetQueue(q: Model.Queue, l: seq<Tid>)
      requires Valid()
      modifies this`queues
      ensures Valid() && State() == old(State()).(queues := old(queues)[q := l])
    {
      queues := queues[q := l];
    }

    method SetThread(t: Tid, f: Flags, ghost pc: Model.Pc, ghost n: nat)
      requires Valid()
      modifies this`flags, this`pcs, this`woken
      ensures Valid()
      ensures var s := old(State());
              State() == s.(th := s.th[t := Model.Thread(pc, f.runnable, f.onlist, n)])
    {
      ThreadsUpdate(flags, pcs, woken, t, f, pc, n);
      flags, pcs, woken := flags[t := f], pcs[t := pc], woken[t := n];
    }

    method SetMutex(m: nat, x: Lock, ghost held: multiset<Tid>)
      requires Valid() && 0 <= x.v
      modifies this`mtx, this`mtxHeld
      ensures Valid() && State() == Model.SetMutex(old(State()), m, Model.Mutex(x.v, x.o, held))
    {
      MutexesUpdate(mtx, mtxHeld, m, x, held);
      mtx, mtxHeld := mtx[m := x], mtxHeld[m := held];
    }

    method SetRw(l: nat, x: Lock, ghost held: multiset<Tid>)
      requires Valid()
      modifies this`rw, this`rwHeld
      ensures Valid() && State() == Model.SetRw(old(State()), l, Model.Rw(x.v, x.o, held))
    {
      RwsUpdate(rw, rwHeld, l, x, held);
      rw, rwHeld := rw[l := x], rwHeld[l := held];
    }

    // ---- wait, wakeup_one, wakeup_all

    /** wait() up to the call of bmk_sched; `m` is the mutex of a condition variable wait. */
    method BeginWait(t: Tid, q: Model.Queue, ghost m: nat)
      requires Valid()
      modifies this
      ensures Valid() && State() == Model.Enqueue(old(State()), t, q, m)
    {
      SetQueue(q, Waiters(q) + [t]);
      SetThread(t, Flags(false, true), Model.InWait(q, m), 0);
    }

    /** wait() on list `q` from the return of bmk_sched on. */
    method EndWait(t: Tid, q: Model.Queue) returns (rv: int)
      requires Valid() && Model.T(State(), t).pc.InWait? && Model.T(State(), t).pc.q == q
      modifies this
      ensures Valid() && State() == Model.DoResume(old(State()), t)
      ensures rv == if Model.T(old(State()), t).onlist then ETIMEDOUT else 0
    {
      var f := FlagsOf(t);
      ghost var w := Model.T(State(), t);
      if f.onlist {
        SetQueue(q, Without(Waiters(q), t));
      }
      rv := if f.onlist then ETIMEDOUT else 0;
      SetThread(t, f.(onlist := false), Model.After(q, w.pc.m, f.onlist), w.woken);
    }

    method WakeupOne(q: Model.Queue)
      requires Valid()
      modifies this`queues, this`flags, this`pcs, this`woken
      ensures Valid() && State() == Model.WakeupOne(old(State()), q)
    {
      var l := Waiters(q);
      if l != [] {
        ghost var w := Model.T(State(), l[0]);
        assert Model.Q(State(), q) == l && Model.Wakened(w) == Model.Thread(w.pc, true, false, w.woken + 1);
        SetQueue(q, l[1..]);
        SetThread(l[0], Flags(true, false), w.pc, w.woken + 1);
      }
    }

    method WakeupAll(q: Model.Queue)
      requires Valid()
      modifies this`queues, this`flags, this`pcs, this`woken
      ensures Valid() && State() == Model.WakeupAll(old(State()), q)
    {
      while Waiters(q) != []
        invariant Valid() && Model.WakeupAll(State(), q) == Model.WakeupAll(old(State()), q)
        decreases |Waiters(q)|
      {
        WakeupOne(q);
      }
    }

    // ---- mutexes

    method MutexTryEnter(t: Tid, m: nat) returns (rv: int)
      requires Valid()
      modifies this`mtx, this`mtxHeld
      ensures Valid() && State() == Model.DoMutexTry(old(State()), t, m)
      ensures rv == if Model.MutexBusy(Model.M(old(State()), m), t) then EBUSY else 0
    {
      var x := MutexOf(m);
      if x.v != 0 && x.o != Some(t) {
        return EBUSY;
      }
      SetMutex(m, Lock(x.v + 1, Some(t)), Model.M(State(), m).held + multiset{t});
      rv := 0;
    }

    method MutexExit(t: Tid, m: nat)
      requires Valid() && Model.M(State(), m).v > 0
      modifies this
      ensures Valid() && State() == Model.DropMutex(old(State()), t, m)
    {
      var x := MutexOf(m);
      ghost var held := Model.M(State(), m).held - multiset{t};
      x := x.(v := x.v - 1);
      if x.v == 0 {
        SetMutex(m, x.(o := None), held);
        WakeupOne(Model.MutexQ(m));
      } else {
        SetMutex(m, x, held);
      }
    }

    // ---- reader/writer locks

    method RwTryEnter(t: Tid, l: nat, writer: bool) returns (rv: int)
      requires Valid()
      modifies this`rw, this`rwHeld
      ensures Valid() && State() == Model.DoRwTry(old(State()), t, l, writer)
      ensures rv == if Model.RwBusy(old(State()), l, writer) then EBUSY else 0
    {
      var x := RwOf(l);
      ghost var held := Model.L(State(), l).held + multiset{t};
      rv := EBUSY;
      if writer {
        if x.o.None? {
          SetRw(l, x.(o := Some(t)), held);
          rv := 0;
        }
      } else if x.o.None? && Waiters(Model.WriteQ(l)) == [] {
        SetRw(l, x.(v := x.v + 1), held);
        rv := 0;
      }
    }

    method RwExit(t: Tid, l: nat)
      requires Valid()
      modifies this
      ensures Valid() && State() == Model.DropRw(old(State()), t, l)
    {
      var x := RwOf(l);
      ghost var held := Model.L(State(), l).held - multiset{t};
      if x.o.Some? {
        x := x.(o := None);
      } else {
        x := x.(v := x.v - 1);
      }
      SetRw(l, x, held);
      if Waiters(Model.WriteQ(l)) != [] {
        if x.o.None? {
          WakeupOne(Model.WriteQ(l));
        }
      } else if Waiters(Model.ReadQ(l)) != [] && x.o.None? {
        WakeupAll(Model.ReadQ(l));
      }
    }

    // ---- condition variables

    /** From the release of the mutex in cv_wait to the call of bmk_sched */
    method CvLeave(t: Tid, c: nat, m: nat)
      requires Valid() && Model.M(State(), m).v > 0
      modifies this
      ensures Valid() && State() == Model.DoLeave(old(State()), t, c, m)
    {
      MutexExit(t, m);
      BeginWait(t, Model.CondQ(c), m);
    }

    /** enter_nowrap in cv_resched */
    method CvReenter(t: Tid, c: nat, m: nat, ghost timedout: bool)
      requires Valid()
      modifies this
      ensures Valid() && State() == Model.DoReenter(old(State()), t, c, m, timedout)
    {
      var rv := MutexTryEnter(t, m);
      if rv != 0 {
        panicked := true;
      } else {
        SetThread(t, FlagsOf(t), Model.CvFinish(c, m, timedout), Model.T(State(), t).woken);
      }
    }
  }
}
