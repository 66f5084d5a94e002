/** Safety and bounded waiting over whole runs of the scheduler. */
module SchedRuns {

  import opened Basics
  import opened SchedModel
  import opened SchedInvariant
  import opened SchedSteps

  ghost predicate IsRun(s: State, steps: seq<Step>)
    decreases |steps|
  {
    steps == [] || (Enabled(s, steps[0]) && IsRun(Next(s, steps[0]), steps[1..]))
  }

  ghost function End(s: State, steps: seq<Step>): State
    requires IsRun(s, steps)
    decreases |steps|
  {
    if steps == [] then s else End(Next(s, steps[0]), steps[1..])
  }

  // ---- start

  /** After bmk_sched_init: the initial thread runs.  Others may have been created before it
      looks, and some of them marked as having to be joined. */
  function Start(others: seq<Tid>, must: set<Tid>): State
    requires 0 !in others
  {
    var made := map t | t in others :: Thread(true, false, t in must, false, false, -1, Fresh);
    State(others + [0], [], [], made[0 := Thread(true, false, false, false, false, -1, Active)], [], 0, Outside, 0)
  }

  lemma {:induction false} StartInv(others: seq<Tid>, must: set<Tid>)
    requires Distinct(others) && 0 !in others
    ensures Inv(Start(others, must))
  {
    var s := Start(others, must);
    assert forall t :: t in s.threads <==> t in others || t == 0;
  }

  /** Over every run, from any state that meets it, the invariant holds; time goes forward and
      nothing that was freed is forgotten. */
  lemma {:induction false} RunKeeps(s: State, steps: seq<Step>)
    requires Inv(s) && IsRun(s, steps)
    ensures Inv(End(s, steps)) && s.clock <= End(s, steps).clock && s.freed <= End(s, steps).freed
    decreases |steps|
  {
    if steps == [] {
    } else {
      StepKeeps(s, steps[0]);
      StepLogs(s, steps[0]);
      RunKeeps(Next(s, steps[0]), steps[1..]);
    }
  }

  lemma {:induction false} StepLogs(s: State, step: Step)
    requires Inv(s) && Enabled(s, step)
    ensures s.clock <= Next(s, step).clock && s.freed <= Next(s, step).freed
  {
    if step.Pass? {
      PassCases(s, step.now);
    }
  }

  // ---- the running thread

  /** Outside bmk_sched and the exit window the running thread is the last of the list, so a
      pass keeps it running only if no other thread on the list could run. */
  lemma {:induction false} NoSwitch(s: State, now: int)
    requires Inv(s) && s.at.Scheduling? && s.at != Scheduling(Dead)
    requires FirstEligible(s.threads, s.th, now, 0) < |s.threads|
    ensures DoPass(s, now).current == s.current <==>
            forall t :: t in s.threads && t != s.current ==> !Eligible(s.th[t], now)
  {
    var i, last := FirstEligible(s.threads, s.th, now, 0), |s.threads| - 1;
    PassCases(s, now);
    if i == last {
      forall t | t in s.threads && t != s.current
        ensures !Eligible(s.th[t], now)
      {
        var j :| 0 <= j < |s.threads| && s.threads[j] == t;
      }
    } else {
      assert s.threads[i] in s.threads && s.threads[i] != s.threads[last];
    }
  }

  // ---- exited threads

  ghost predicate Gone(s: State, t: Tid) {
    t in s.zombies || t in s.freed
  }

  lemma {:induction false} PassGone(s: State, now: int, t: Tid)
    requires Inv(s) && s.at.Scheduling? && Gone(s, t)
    ensures Gone(DoPass(s, now), t) && (DoPass(s, now).current == t ==> s.current == t)
  {
    PassCases(s, now);
    var i, s1 := FirstEligible(s.threads, s.th, now, 0), s.(clock := now);
    if i < |s.threads| {
      assert s.threads[i] in s.threads;
      DispatchShape(s1, i);
      ReapAll(Dispatch(s1, i));
    }
  }

  /** A thread that has exited stays so and is not run again. */
  lemma {:induction false} GoneStays(s: State, step: Step, t: Tid)
    requires Inv(s) && Enabled(s, step) && Gone(s, t)
    ensures Gone(Next(s, step), t) && (Next(s, step).current == t ==> s.current == t)
  {
    if step.Pass? {
      PassGone(s, step.now, t);
    }
  }

  /** In no run does an exited thread come to run, nor is it freed a second time. */
  lemma {:induction false} GoneForever(s: State, steps: seq<Step>, t: Tid)
    requires Inv(s) && IsRun(s, steps) && Gone(s, t) && s.current != t
    ensures Gone(End(s, steps), t) && End(s, steps).current != t && Distinct(End(s, steps).freed)
    decreases |steps|
  {
    if steps == [] {
    } else {
      StepKeeps(s, steps[0]);
      GoneStays(s, steps[0], t);
      GoneForever(Next(s, steps[0]), steps[1..], t);
    }
  }

  lemma {:induction false} DispatchFrees(s: State, i: nat)
    requires Shape(s) && s.at.Scheduling? && i < |s.threads|
    ensures Dispatch(s, i).freed == s.freed && Dispatch(s, i).zombies == s.zombies
    ensures var s' := Reap(Dispatch(s, i), Dispatch(s, i).current);
            s'.freed == s.freed + s.zombies && s'.zombies == []
  {
    DispatchShape(s, i);
    ReapAll(Dispatch(s, i));
  }

  /** A pass at time `now` returns to a thread that has run before. */
  ghost predicate ReturnsTo(s: State, now: int)
    requires forall t :: t in s.threads ==> t in s.th
  {
    var i := FirstEligible(s.threads, s.th, now, 0);
    i < |s.threads| && !s.th[s.threads[i]].tcb.Fresh?
  }

  /** A pass that returns to a thread frees exactly the zombies, any other nothing; the thread
      that runs is never freed. */
  lemma {:induction false} ReaperSafe(s: State, now: int)
    requires Inv(s) && s.at.Scheduling?
    ensures var s' := DoPass(s, now);
            && (if ReturnsTo(s, now) then s'.freed == s.freed + s.zombies && s'.zombies == []
                else s'.freed == s.freed && s'.zombies == s.zombies)
            && s'.current !in s'.freed && s'.current in s'.th
  {
    PassFrees(s, now);
    PassKeeps(s, now);
    assert Lists(DoPass(s, now)) && Running(DoPass(s, now));
  }

  lemma {:induction false} PassFrees(s: State, now: int)
    requires Shape(s) && s.at.Scheduling?
    ensures var s' := DoPass(s, now);
            if ReturnsTo(s, now) then s'.freed == s.freed + s.zombies && s'.zombies == []
            else s'.freed == s.freed && s'.zombies == s.zombies
  {
    PassCases(s, now);
    var i := FirstEligible(s.threads, s.th, now, 0);
    if i < |s.threads| {
      assert ContextOk(s, s.threads[i]);
      TimeShape(s, now);
      DispatchFrees(s.(clock := now), i);
    }
  }

  lemma {:induction false} TimeShape(s: State, now: int)
    requires Shape(s)
    ensures Shape(s.(clock := now))
  {
  }

  // ---- bounded waiting

  /** Not running, and able to run since the last look at the clock. */
  ghost predicate Waiting(s: State, t: Tid) {
    && t in s.threads && t in s.th && (t != s.current || s.at.Scheduling?)
    && Eligible(s.th[t], s.clock)
  }

  ghost predicate Picks(s: State, step: Step, t: Tid) {
    && step.Pass? && Enabled(s, step)
    && var i := FirstEligible(s.threads, s.th, step.now, 0); i < |s.threads| && s.threads[i] == t
  }

  /** Somewhere in a run a pass picks `t`. */
  ghost predicate Dispatched(s: State, steps: seq<Step>, t: Tid)
    requires IsRun(s, steps)
    decreases |steps|
  {
    steps != [] && (Picks(s, steps[0], t) || Dispatched(Next(s, steps[0]), steps[1..], t))
  }

  function Passes(steps: seq<Step>): nat {
    if steps == [] then 0 else (if steps[0].Pass? then 1 else 0) + Passes(steps[1..])
  }

  function Creates(steps: seq<Step>): nat {
    if steps == [] then 0 else (if steps[0].Create? then 1 else 0) + Creates(steps[1..])
  }

  lemma {:induction false} DispatchAdvances(s: State, i: nat, t: Tid, k: nat)
    requires Shape(s) && s.at.Scheduling? && Waiting(s, t) && i < k < |s.threads| && s.threads[k] == t
    ensures Waiting(Dispatch(s, i), t) && IndexOf(Dispatch(s, i).threads, t) == k - 1
  {
    TailFacts(s.threads, i);
    TailIndex(s.threads, i, k);
    IndexUnique(ToTail(s.threads, i), t, k - 1);
    DispatchLeaves(s, i, t);
  }

  lemma {:induction false} DispatchLeaves(s: State, i: nat, t: Tid)
    requires s.at.Scheduling? && s.current in s.th && t in s.th
    requires i < |s.threads| && s.threads[i] in s.th && s.threads[i] != t
    ensures var s' := Dispatch(s, i);
            && t in s'.th && s'.th[t].runnable == s.th[t].runnable && s'.th[t].wakeup == s.th[t].wakeup
            && s'.current != t && s'.clock == s.clock && s'.threads == ToTail(s.threads, i)
  {
  }

  lemma {:induction false} TailIndex(l: seq<Tid>, i: nat, k: nat)
    requires i < k < |l|
    ensures |ToTail(l, i)| == |l| && ToTail(l, i)[k - 1] == l[k]
  {
  }

  lemma {:induction false} ReapStands(s: State, t: Tid)
    requires Shape(s) && s.at != Scheduling(Dead) && Waiting(s, t)
    ensures Waiting(Reap(s, s.current), t) && Reap(s, s.current).threads == s.threads
  {
    ReapAll(s);
  }

  lemma {:induction false} PassFinds(s: State, now: int, t: Tid)
    requires Shape(s) && s.clock <= now && Waiting(s, t)
    ensures FirstEligible(s.threads, s.th, now, 0) <= IndexOf(s.threads, t)
    ensures Shape(s.(clock := now)) && Waiting(s.(clock := now), t)
  {
    assert Eligible(s.th[t], now);
  }

  lemma {:induction false} DispatchStands(s: State, i: nat, t: Tid, k: nat)
    requires Shape(s) && s.at.Scheduling? && Waiting(s, t) && i < k < |s.threads| && s.threads[k] == t
    ensures var s' := Reap(Dispatch(s, i), Dispatch(s, i).current);
            Waiting(s', t) && IndexOf(s'.threads, t) == k - 1
  {
    DispatchShape(s, i);
    DispatchAdvances(s, i, t, k);
    ReapStands(Dispatch(s, i), t);
  }

  /** A pass that picks somebody else moves `t` one place forward. */
  lemma {:induction false} PassAdvances(s: State, now: int, t: Tid)
    requires Shape(s) && Enabled(s, Pass(now)) && Waiting(s, t) && !Picks(s, Pass(now), t)
    ensures var s' := DoPass(s, now);
            Waiting(s', t) && IndexOf(s'.threads, t) + 1 == IndexOf(s.threads, t)
  {
    var k, i, s1 := IndexOf(s.threads, t), FirstEligible(s.threads, s.th, now, 0), s.(clock := now);
    PassFinds(s, now, t);
    PassCases(s, now);
    if ReaperPrev(s1, s.threads[i]).None? {
      DispatchAdvances(s1, i, t, k);
    } else {
      DispatchStands(s1, i, t, k);
    }
  }

  lemma {:induction false} CreateDelays(s: State, t: Tid, n: Tid, ext: bool)
    requires Inv(s) && Enabled(s, Create(n, ext)) && Waiting(s, t)
    ensures var s' := DoCreate(s, n, ext);
            Waiting(s', t) && IndexOf(s'.threads, t) == IndexOf(s.threads, t) + 1
  {
    CreateShape(s, n, ext);
    IndexUnique([n] + s.threads, t, IndexOf(s.threads, t) + 1);
  }

  lemma {:induction false} DepartureBehind(s: State, t: Tid)
    requires Inv(s) && s.at.Exiting? && Waiting(s, t) && s.current in s.threads
    ensures var s' := Depart(s);
            Waiting(s', t) && IndexOf(s'.threads, t) == IndexOf(s.threads, t)
  {
    var k, last := IndexOf(s.threads, t), |s.threads| - 1;
    DepartShape(s);
    IndexUnique(s.threads, s.current, last);
    assert k < last;
    assert Depart(s).threads[k] == t;
    IndexUnique(Depart(s).threads, t, k);
  }

  /** Other steps leave it where it is and able to run. */
  lemma {:induction false} OthersStand(s: State, step: Step, t: Tid)
    requires Inv(s) && Enabled(s, step) && Waiting(s, t)
    requires !step.Pass? && !step.Create?
    ensures Waiting(Next(s, step), t) && IndexOf(Next(s, step).threads, t) == IndexOf(s.threads, t)
  {
    if step.Gate? && !s.th[s.current].mustjoin {
      DepartureBehind(s, t);
    }
  }

  /** Until it is picked, a thread that can run moves forward with every pass and back with
      every thread created. */
  lemma {:induction false} WaitMeasure(s: State, steps: seq<Step>, t: Tid)
    requires Inv(s) && IsRun(s, steps) && Waiting(s, t) && !Dispatched(s, steps, t)
    ensures Waiting(End(s, steps), t)
    ensures IndexOf(End(s, steps).threads, t) + Passes(steps) == IndexOf(s.threads, t) + Creates(steps)
    decreases |steps|
  {
    if steps == [] {
    } else {
      var step := steps[0];
      StepKeeps(s, step);
      if step.Pass? {
        PassAdvances(s, step.now, t);
      } else if step.Create? {
        CreateDelays(s, t, step.t, step.ext);
      } else {
        OthersStand(s, step, t);
      }
      WaitMeasure(Next(s, step), steps[1..], t);
    }
  }

  /** A thread at index k that can run is picked within k + 1 passes, plus one for every
      thread created meanwhile. */
  lemma {:induction false} BoundedWaiting(s: State, steps: seq<Step>, t: Tid)
    requires Inv(s) && IsRun(s, steps) && Waiting(s, t)
    requires IndexOf(s.threads, t) + Creates(steps) < Passes(steps)
    ensures Dispatched(s, steps, t)
  {
    if !Dispatched(s, steps, t) {
      WaitMeasure(s, steps, t);
    }
  }

  // ---- exit and join

  /** While somebody joins it, a thread has not exited. */
  lemma {:induction false} JoinedStays(s: State, t: Tid)
    requires Inv(s) && Awaited(s, t)
    ensures t in s.threads && t !in s.zombies && t !in s.freed
  {
  }

  /** A joiner whose target has reached its exit can run, and so is picked in time. */
  lemma {:induction false} JoinerRuns(s: State, steps: seq<Step>, j: Tid, t: Tid)
    requires Inv(s) && StuckAt(s, j, JoinWait(t)) && StuckAt(s, t, ExitGate) && IsRun(s, steps)
    ensures j in s.threads
    ensures IndexOf(s.threads, j) + Creates(steps) < Passes(steps) ==> Dispatched(s, steps, j)
  {
    assert InJoin(s, Waiter(j, t)) && ContextOk(s, j);
    if IndexOf(s.threads, j) + Creates(steps) < Passes(steps) {
      BoundedWaiting(s, steps, j);
    }
  }

  /** An exiting thread whose joiner has let it go can run, and so is picked in time. */
  lemma {:induction false} ExiterRuns(s: State, steps: seq<Step>, t: Tid)
    requires Inv(s) && StuckAt(s, t, ExitGate) && !s.th[t].mustjoin && IsRun(s, steps)
    ensures t in s.threads
    ensures IndexOf(s.threads, t) + Creates(steps) < Passes(steps) ==> Dispatched(s, steps, t)
  {
    assert ContextOk(s, t);
    if IndexOf(s.threads, t) + Creates(steps) < Passes(steps) {
      BoundedWaiting(s, steps, t);
    }
  }

  /** When a join is over, nothing of the joiner's is left on the list of joiners, and the
      target is free to go. */
  lemma {:induction false} JoinLeavesNothing(s: State)
    requires Inv(s) && s.at.Joining? && Enabled(s, JoinRound) && Next(s, JoinRound).at.Outside?
    ensures var s' := Next(s, JoinRound);
            && (forall w :: w in s'.joinwq ==> w.thread != s.current)
            && s'.th[s.at.t].joined && !s'.th[s.at.t].mustjoin && s'.th[s.at.t].runnable
  {
    StepKeeps(s, JoinRound);
  }
}
