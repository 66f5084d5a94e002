/** The scheduler as the C code has it: queues, flags and the current thread updated in place.
    Every method computes the corresponding function of SchedModel. */
module Scheduler {

  import opened Basics
  import Model = SchedModel

  type Tid = Model.Tid

  lemma {:induction false} IndexBehind(front: seq<Tid>, rest: seq<Tid>, t: Tid)
    requires t !in front && rest != [] && rest[0] == t
    ensures t in front + rest && IndexOf(front + rest, t) == |front|
  {
    var l := front + rest;
    assert l[|front|] == t;
    if front == [] {
    } else {
      assert l[0] == front[0] && l[1..] == front[1..] + rest;
      IndexBehind(front[1..], rest, t);
    }
  }

  lemma {:induction false} WithoutBehind(front: seq<Tid>, rest: seq<Tid>, t: Tid)
    requires t !in front && rest != [] && rest[0] == t
    ensures Without(front + rest, t) == front + rest[1..]
  {
    IndexBehind(front, rest, t);
  }

  /** A number stored in a signed 64-bit field. */
  function Int64(x: int): (r: int)
    ensures -0x8000_0000_0000_0000 <= r < 0x8000_0000_0000_0000
    ensures (r - x) % 0x1_0000_0000_0000_0000 == 0
  {
    var low := x % 0x1_0000_0000_0000_0000;
    if low < 0x8000_0000_0000_0000 then low else low - 0x1_0000_0000_0000_0000
  }

  /** What is left of the zombies, the threads and the log when the reaper has visited `rest`. */
  ghost function Reaped(kept: seq<Tid>, rest: seq<Tid>, th: map<Tid, Model.Thread>, freed: seq<Tid>, prev: Tid)
    : (seq<Tid>, map<Tid, Model.Thread>, seq<Tid>)
    decreases rest
  {
    if rest == [] then (kept, th, freed)
    else if rest[0] == prev then Reaped(kept + [prev], rest[1..], th, freed, prev)
    else Reaped(kept, rest[1..], th - {rest[0]}, freed + [rest[0]], prev)
  }

  lemma {:induction false} ReapedAll(kept: seq<Tid>, rest: seq<Tid>, th: map<Tid, Model.Thread>,
                                     freed: seq<Tid>, prev: Tid)
    ensures Reaped(kept, rest, th, freed, prev) ==
            (kept + Model.Only(rest, prev), th - (set z | z in rest && z != prev), freed + Model.Except(rest, prev))
    decreases rest
  {
    var gone := set z | z in rest && z != prev;
    if rest == [] {
      assert th - gone == th && kept + [] == kept && freed + [] == freed;
    } else {
      var gone' := set z | z in rest[1..] && z != prev;
      if rest[0] == prev {
        assert gone == gone';
        assert kept + [prev] + Model.Only(rest[1..], prev) == kept + ([prev] + Model.Only(rest[1..], prev));
        assert [] + Model.Except(rest[1..], prev) == Model.Except(rest[1..], prev);
        ReapedAll(kept + [prev], rest[1..], th, freed, prev);
      } else {
        assert gone == {rest[0]} + gone';
        assert [] + Model.Only(rest[1..], prev) == Model.Only(rest[1..], prev);
        assert freed + [rest[0]] + Model.Except(rest[1..], prev) == freed + ([rest[0]] + Model.Except(rest[1..], prev));
        ReapedAll(kept, rest[1..], th - {rest[0]}, freed + [rest[0]], prev);
        assert th - gone == th - {rest[0]} - gone';
      }
    }
  }

  class Scheduler {
    var threads: seq<Tid>
    var zombies: seq<Tid>
    var joinwq: seq<Model.Waiter>
    var th: map<Tid, Model.Thread>
    var freed: seq<Tid>
    var current: Tid
    var at: Model.Place
    var clock: int

    ghost function State(): Model.State
      reads this
    {
      Model.State(threads, zombies, joinwq, th, freed, current, at, clock)
    }

    /** bmk_sched_init */
    constructor ()
      ensures var init := Model.Thread(true, false, false, false, false, -1, Model.Active);
              State() == Model.State([0], [], [], map[0 := init], [], 0, Model.Outside, 0)
    {
      threads, zombies, joinwq, freed := [0], [], [], [];
      th := map[0 := Model.Thread(true, false, false, false, false, -1, Model.Active)];
      current, at, clock := 0, Model.Outside, 0;
    }

    method Create(t: Tid, ext: bool)
      modifies this
      ensures State() == Model.DoCreate(old(State()), t, ext)
    {
      var thread := Model.Thread(false, false, false, false, ext, -1, Model.Fresh);
      th := th[t := thread.(runnable := true)];
      threads := [t] + threads;
    }

    method Wake(t: Tid)
      requires t in th
      modifies this`th
      ensures th == Model.WakeThread(old(th), t)
    {
      th := th[t := th[t].(wakeup := -1)];
      th := th[t := th[t].(runnable := true)];
    }

    method Block(t: Tid)
      requires t in th
      modifies this`th
      ensures th == old(th)[t := old(th)[t].(wakeup := -1, runnable := false)]
    {
      th := th[t := th[t].(wakeup := -1)];
      th := th[t := th[t].(runnable := false)];
    }

    /** bmk_sched_nanosleep up to the call of bmk_sched */
    method NanoSleep(now: nat, nsec: int)
      requires current in th
      modifies this
      ensures State() == Model.DoBlock(old(State()), Int64(now + nsec))
    {
      th := th[current := th[current].(wakeup := Int64(now + nsec))];
      th := th[current := th[current].(runnable := false)];
      at := Model.Scheduling(Model.Caller);
    }

    /** The scan of the thread list: the first thread that is runnable, or made so because its
        time has come, goes to the end of the list. */
    method Scan(now: int) returns (next: Option<Tid>)
      requires forall t :: t in threads ==> t in th
      modifies this`threads, this`th
      ensures var i := Model.FirstEligible(old(threads), old(th), now, 0);
              if i == |old(threads)| then next.None? && threads == old(threads) && th == old(th)
              else
                var t := old(threads)[i];
                && next == Some(t) && threads == Model.ToTail(old(threads), i)
                && th == old(th)[t := Model.Picked(old(th)[t])]
    {
      next := None;
      var i := 0;
      while i < |threads|
        invariant 0 <= i <= |threads| && threads == old(threads) && th == old(th) && next.None?
        invariant Model.FirstEligible(threads, th, now, i) == Model.FirstEligible(threads, th, now, 0)
      {
        var t := threads[i];
        if !th[t].runnable && th[t].wakeup >= 0 && th[t].wakeup <= now {
          th := th[t := th[t].(timedout := true)];
          Wake(t);
        }
        if th[t].runnable {
          next := Some(t);
          threads := RemoveAt(threads, i);
          threads := threads + [t];
          return;
        }
        i := i + 1;
      }
    }

    /** Unlinks and frees a zombie with `kept` before it. */
    method FreeZombie(thread: Tid, ghost kept: seq<Tid>, ghost rest: seq<Tid>)
      requires zombies == kept + rest && rest != [] && rest[0] == thread && thread !in kept
      modifies this`zombies, this`th, this`freed
      ensures zombies == kept + rest[1..] && th == old(th) - {thread} && freed == old(freed) + [thread]
    {
      WithoutBehind(kept, rest, thread);
      zombies := Without(zombies, thread);
      th := th - {thread};
      freed := freed + [thread];
    }

    /** The reaper: visits every zombie, unlinking as it goes. */
    method Reaper(prev: Tid)
      modifies this`zombies, this`th, this`freed
      ensures State() == Model.Reap(old(State()), prev)
    {
      var rest := zombies;
      ghost var kept := [];
      while rest != []
        invariant zombies == kept + rest && forall z :: z in kept ==> z == prev
        invariant Reaped(kept, rest, th, freed, prev) == Reaped([], old(zombies), old(th), old(freed), prev)
        decreases |rest|
      {
        var thread := rest[0];
        if thread != prev {
          FreeZombie(thread, kept, rest);
        } else {
          assert kept + rest == (kept + [thread]) + rest[1..];
          kept := kept + [thread];
        }
        rest := rest[1..];
      }
      ReapedAll([], old(zombies), old(th), old(freed), prev);
    }

    /** From the choice of a thread to the end of bmk_sched, now in the chosen thread. */
    method Switch(next: Tid)
      requires at.Scheduling? && current in th && next in th
      modifies this
      ensures var s := old(State());
              State() == match Model.ReaperPrev(s, next)
                         case Some(prev) => Model.Reap(Model.SwitchTo(s, next), prev)
                         case None => Model.SwitchTo(s, next)
    {
      var prev, cont, tcb := current, at.cont, th[next].tcb;
      th := th[prev := th[prev].(tcb := Model.Saved(prev, cont))];
      current := next;
      th := th[current := th[current].(tcb := Model.Active)];
      if prev != next {
        if !tcb.Saved? {
          at := Model.Outside;
          return;
        }
        prev, cont := tcb.prev, tcb.cont;
      }
      at := Model.Return(cont);
      Reaper(prev);
    }

    /** One pass of the loop in bmk_sched, with the switch and the reaper behind it. */
    method Pass(now: int)
      requires at.Scheduling? && current in th && forall t :: t in threads ==> t in th
      modifies this
      ensures State() == Model.DoPass(old(State()), now)
    {
      clock := now;
      var next := Scan(now);
      if next.Some? {
        Switch(next.value);
      }
    }

    /** One round of the loop in bmk_sched_exit, or what follows it. */
    method Gate()
      requires at.Exiting? && current in th && current in threads
      requires forall w :: w in joinwq ==> w.thread in th
      modifies this
      ensures State() == Model.DoGate(old(State()))
    {
      var thread := current;
      if th[thread].mustjoin {
        th := th[thread := th[thread].(joined := true)];
        ghost var th1 := th;
        var i := 0;
        while i < |joinwq|
          invariant 0 <= i <= |joinwq| && th == th1
          invariant Model.FirstWaiter(joinwq, thread, i) == Model.FirstWaiter(joinwq, thread, 0)
          modifies {}
        {
          if joinwq[i].wanted == thread {
            break;
          }
          i := i + 1;
        }
        if i < |joinwq| {
          Wake(joinwq[i].thread);
        }
        Block(thread);
        at := Model.Scheduling(Model.ExitGate);
      } else {
        threads := Without(threads, thread);
        th := th[thread := th[thread].(runnable := false)];
        zombies := [thread] + zombies;
        at := Model.Scheduling(Model.Dead);
      }
    }

    /** From one return of bmk_sched in bmk_sched_join to the next call, or to the end. */
    method JoinRound()
      requires at.Joining? && current in th && at.t in th
      requires at.linked ==> Model.Waiter(current, at.t) in joinwq
      modifies this
      ensures State() == Model.Look(Model.Unlink(old(State())))
    {
      var jw := Model.Waiter(current, at.t);
      if at.linked {
        joinwq := Without(joinwq, jw);
      }
      if !th[jw.wanted].joined {
        joinwq := joinwq + [jw];
        Block(jw.thread);
        at := Model.Scheduling(Model.JoinWait(jw.wanted));
      } else {
        th := th[jw.wanted := th[jw.wanted].(mustjoin := false)];
        Wake(jw.wanted);
        at := Model.Outside;
      }
    }
  }
}
