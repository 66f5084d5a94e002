/** What threads may rely on when they sleep, yield, exit, join or are created. */
module SchedResults {

  import opened Basics
  import opened SchedModel
  import opened SchedInvariant
  import opened SchedSteps
  import opened SchedRuns

  // ---- what a step leaves alone

  /** The step is about `t`: `t` takes it, is named by it, is picked by it, or is at the other end
      of a join. */
  ghost predicate Touches(s: State, step: Step, t: Tid)
    requires Enabled(s, step)
  {
    || t == s.current || step == Wake(t) || Picks(s, step, t)
    || (step.Gate? && s.th[s.current].mustjoin && Waiter(t, s.current) in s.joinwq)
    || (step.JoinRound? && s.at.t == t && s.th[t].joined)
  }

  ghost predicate Reaped(s: State, s': State, t: Tid) {
    t in s.zombies && t in s'.freed
  }

  lemma {:induction false} DispatchFrames(s: State, i: nat, t: Tid)
    requires Shape(s) && s.at.Scheduling? && i < |s.threads| && t in s.th && s.threads[i] != t
    ensures var s', u := Dispatch(s, i), s.th[t];
            && t in s'.th
            && s'.th[t] == if t == s.current then u.(tcb := Saved(t, s.at.cont)) else u
  {
  }

  lemma {:induction false} PassFrames(s: State, now: int, t: Tid)
    requires Inv(s) && Enabled(s, Pass(now)) && t in s.th && !Picks(s, Pass(now), t)
    ensures var s', u := DoPass(s, now), s.th[t];
            || Reaped(s, s', t)
            || (t in s'.th && s'.th[t].(tcb := u.tcb) == u && (t != s.current ==> s'.th[t] == u))
  {
    var i, s1 := FirstEligible(s.threads, s.th, now, 0), s.(clock := now);
    PassCases(s, now);
    if i < |s.threads| {
      TimeShape(s, now);
      DispatchShape(s1, i);
      DispatchFrames(s1, i, t);
      ReapAll(Dispatch(s1, i));
    }
  }

  /** A step changes nothing about a thread that it is not about, except that a pass may free it
      after its exit. */
  lemma {:induction false} StepFrames(s: State, step: Step, t: Tid)
    requires Inv(s) && Enabled(s, step) && t in s.th && !Touches(s, step, t)
    ensures Reaped(s, Next(s, step), t) || (t in Next(s, step).th && Next(s, step).th[t] == s.th[t])
  {
    match step
    case Gate => GateFrames(s, t);
    case Pass(now) => PassFrames(s, now, t);
    case _ =>
  }

  lemma {:induction false} GateFrames(s: State, t: Tid)
    requires Inv(s) && Enabled(s, Gate) && t in s.th && !Touches(s, Gate, t)
    ensures t in DoGate(s).th && DoGate(s).th[t] == s.th[t]
  {
    var i := FirstWaiter(s.joinwq, s.current, 0);
    if i < |s.joinwq| {
      assert s.joinwq[i] == Waiter(s.joinwq[i].thread, s.current) && s.joinwq[i] in s.joinwq;
    }
  }

  /** Only creating, exiting and passes of the scheduling loop change the lists of threads, only
      passes change who runs and the clock, and only joiners change the list of joiners. */
  lemma {:induction false} ListFrames(s: State, step: Step)
    requires Enabled(s, step)
    ensures var s' := Next(s, step);
            && (!step.Create? && !step.Gate? && !step.Pass? ==> s'.threads == s.threads)
            && (!step.Gate? && !step.Pass? ==> s'.zombies == s.zombies)
            && (!step.Pass? ==> s'.freed == s.freed && s'.current == s.current && s'.clock == s.clock)
            && (!step.JoinRound? ==> s'.joinwq == s.joinwq)
  {
  }

  // ---- being picked

  /** Where a thread goes on when it is picked. */
  ghost predicate GoesOn(s: State, t: Tid, at: Place) {
    && (StuckAt(s, t, Caller) || (t in s.th && s.th[t].tcb.Fresh?) ==> at == Outside)
    && (StuckAt(s, t, ExitGate) ==> at == Exiting)
    && (forall u :: StuckAt(s, t, JoinWait(u)) ==> at == Joining(u, true))
  }

  lemma {:induction false} DispatchReturns(s: State, i: nat)
    requires Shape(s) && s.at.Scheduling? && i < |s.threads|
    ensures var s', t := Dispatch(s, i), s.threads[i];
            && s'.current == t && t in s'.th && GoesOn(s, t, s'.at) && !s'.at.Scheduling?
            && s'.th[t] == s.th[t].(runnable := true, tcb := Active,
                                    wakeup := if s.th[t].runnable then s.th[t].wakeup else -1,
                                    timedout := s.th[t].timedout || !s.th[t].runnable)
  {
    assert ContextOk(s, s.threads[i]);
  }

  /** The thread that a pass picks runs, where it was left, without a deadline; its flag for a
      timeout is set if it was not runnable. */
  lemma {:induction false} PickReturns(s: State, now: int, t: Tid)
    requires Inv(s) && Enabled(s, Pass(now)) && Picks(s, Pass(now), t)
    ensures var s' := DoPass(s, now);
            && s'.current == t && t in s'.th && GoesOn(s, t, s'.at) && !s'.at.Scheduling?
            && s'.th[t] == s.th[t].(runnable := true, tcb := Active, wakeup := -1,
                                    timedout := s.th[t].timedout || !s.th[t].runnable)
  {
    var i, s1 := FirstEligible(s.threads, s.th, now, 0), s.(clock := now);
    PassCases(s, now);
    TimeShape(s, now);
    DispatchReturns(s1, i);
    DispatchShape(s1, i);
    ReapAll(Dispatch(s1, i));
    assert Deadlines(s);
    assert forall c :: StuckAt(s1, t, c) <==> StuckAt(s, t, c);
  }

  /** A pass is idle, and then changes nothing but the clock, exactly when nobody can run. */
  lemma {:induction false} IdlePass(s: State, now: int)
    requires Inv(s) && Enabled(s, Pass(now))
    ensures DoPass(s, now) == s.(clock := now) <==> forall t :: t in s.threads ==> !Eligible(s.th[t], now)
  {
    var i := FirstEligible(s.threads, s.th, now, 0);
    if i < |s.threads| {
      PickReturns(s, now, s.threads[i]);
      assert s.threads[i] in s.threads;
    }
  }

  // ---- timeouts

  /** Somewhere in a run a pass picks `t` although it is not runnable. */
  ghost predicate TimesOut(s: State, steps: seq<Step>, t: Tid)
    requires IsRun(s, steps)
    decreases |steps|
  {
    steps != [] &&
    ((Picks(s, steps[0], t) && t in s.th && !s.th[t].runnable) || TimesOut(Next(s, steps[0]), steps[1..], t))
  }

  /** A name is not used again. */
  lemma {:induction false} NameStays(s: State, step: Step, t: Tid)
    requires Inv(s) && Enabled(s, step) && (t in s.th || t in s.freed)
    ensures t in Next(s, step).th || t in Next(s, step).freed
  {
    if t in s.freed {
      StepLogs(s, step);
    } else if !Touches(s, step, t) {
      StepFrames(s, step, t);
    } else if step.Pass? {
      PassNames(s, step.now, t);
    }
  }

  lemma {:induction false} PassNames(s: State, now: int, t: Tid)
    requires Inv(s) && Enabled(s, Pass(now)) && t in s.th
    ensures t in DoPass(s, now).th || t in DoPass(s, now).freed
  {
    if Picks(s, Pass(now), t) {
      PickReturns(s, now, t);
    } else {
      PassFrames(s, now, t);
    }
  }

  lemma {:induction false} FreedStays(s: State, steps: seq<Step>, t: Tid)
    requires Inv(s) && IsRun(s, steps) && t in s.freed
    ensures t !in End(s, steps).th
  {
    RunKeeps(s, steps);
  }

  lemma {:induction false} TimedoutPass(s: State, now: int, t: Tid)
    requires Inv(s) && Enabled(s, Pass(now)) && t in s.th && t in DoPass(s, now).th
    ensures DoPass(s, now).th[t].timedout <==>
            s.th[t].timedout || (Picks(s, Pass(now), t) && !s.th[t].runnable)
  {
    PassKeeps(s, now);
    if Picks(s, Pass(now), t) {
      PickReturns(s, now, t);
    } else {
      PassFrames(s, now, t);
    }
  }

  lemma {:induction false} TimedoutStep(s: State, step: Step, t: Tid)
    requires Inv(s) && Enabled(s, step) && t in s.th && t in Next(s, step).th
    ensures Next(s, step).th[t].timedout <==>
            s.th[t].timedout || (Picks(s, step, t) && !s.th[t].runnable)
  {
    match step
    case Pass(now) => TimedoutPass(s, now, t);
    case _ =>
  }

  /** In every run the flag for a timeout is set exactly if it was, or if the thread has been
      picked because its deadline had passed. */
  lemma {:induction false} TimedoutExact(s: State, steps: seq<Step>, t: Tid)
    requires Inv(s) && IsRun(s, steps) && t in s.th && t in End(s, steps).th
    ensures End(s, steps).th[t].timedout <==> s.th[t].timedout || TimesOut(s, steps, t)
    decreases |steps|
  {
    if steps == [] {
    } else {
      var s1 := Next(s, steps[0]);
      StepKeeps(s, steps[0]);
      NameStays(s, steps[0], t);
      if t in s1.freed {
        FreedStays(s1, steps[1..], t);
      }
      TimedoutStep(s, steps[0], t);
      TimedoutExact(s1, steps[1..], t);
    }
  }

  // ---- sleeping

  /** In bmk_sched, not runnable, with a deadline. */
  ghost predicate Asleep(s: State, t: Tid, deadline: int) {
    && t in s.threads && StuckAt(s, t, Caller)
    && !s.th[t].runnable && s.th[t].wakeup == deadline
  }

  lemma {:induction false} SleepStarts(s: State, deadline: int)
    requires Inv(s) && s.at.Outside?
    ensures Asleep(DoBlock(s, deadline), s.current, deadline)
  {
  }

  lemma {:induction false} SleepUntouched(s: State, step: Step, t: Tid, deadline: int)
    requires Inv(s) && Enabled(s, step) && Asleep(s, t, deadline) && t != s.current
    requires step != Wake(t) && !Picks(s, step, t)
    ensures !Touches(s, step, t)
  {
    assert Waiter(t, s.current) in s.joinwq <==> InJoin(s, Waiter(t, s.current));
  }

  lemma {:induction false} ListStays(s: State, step: Step, t: Tid)
    requires Inv(s) && Enabled(s, step) && t in s.threads && (t != s.current || s.at.Scheduling?)
    ensures t in Next(s, step).threads && Next(s, step).clock == if step.Pass? then step.now else s.clock
  {
    match step
    case Gate => WithoutFacts(s.threads, s.current);
    case Pass(now) =>
      var i := FirstEligible(s.threads, s.th, now, 0);
      PassCases(s, now);
      if i < |s.threads| {
        TailFacts(s.threads, i);
      }
    case _ =>
  }

  lemma {:induction false} DispatchStuck(s: State, i: nat, t: Tid, c: Cont)
    requires Shape(s) && s.at.Scheduling? && i < |s.threads| && s.threads[i] != t && StuckAt(s, t, c)
    ensures StuckAt(Dispatch(s, i), t, c)
  {
    DispatchFrames(s, i, t);
  }

  /** A thread that is not picked stays where it is in bmk_sched. */
  lemma {:induction false} PassStuck(s: State, now: int, t: Tid, c: Cont)
    requires Inv(s) && Enabled(s, Pass(now)) && t in s.threads && !Picks(s, Pass(now), t) && StuckAt(s, t, c)
    ensures StuckAt(DoPass(s, now), t, c)
  {
    var i, s1 := FirstEligible(s.threads, s.th, now, 0), s.(clock := now);
    PassCases(s, now);
    if i < |s.threads| {
      TimeShape(s, now);
      DispatchShape(s1, i);
      DispatchStuck(s1, i, t, c);
      ReapAll(Dispatch(s1, i));
    }
  }

  lemma {:induction false} SleepPasses(s: State, now: int, t: Tid, deadline: int)
    requires Inv(s) && Enabled(s, Pass(now)) && Asleep(s, t, deadline) && !Picks(s, Pass(now), t)
    ensures Asleep(DoPass(s, now), t, deadline)
  {
    ListStays(s, Pass(now), t);
    PassStuck(s, now, t, Caller);
    PassFrames(s, now, t);
  }

  lemma {:induction false} SleepStays(s: State, step: Step, t: Tid, deadline: int)
    requires Inv(s) && Enabled(s, step) && Asleep(s, t, deadline) && step != Wake(t) && !Picks(s, step, t)
    ensures Asleep(Next(s, step), t, deadline)
  {
    if step.Pass? {
      SleepPasses(s, step.now, t, deadline);
    } else {
      ListStays(s, step, t);
      if t != s.current {
        SleepUntouched(s, step, t, deadline);
        StepFrames(s, step, t);
      }
    }
  }

  /** Until it is woken or picked a sleeper sleeps, and it becomes eligible exactly when the
      clock reaches its deadline. */
  lemma {:induction false} SleepExact(s: State, steps: seq<Step>, t: Tid, deadline: int)
    requires Inv(s) && Asleep(s, t, deadline) && IsRun(s, steps)
    requires Wake(t) !in steps && !Dispatched(s, steps, t)
    ensures Inv(End(s, steps)) && Asleep(End(s, steps), t, deadline)
    ensures Eligible(End(s, steps).th[t], End(s, steps).clock) <==> 0 <= deadline <= End(s, steps).clock
    decreases |steps|
  {
    if steps == [] {
    } else {
      StepKeeps(s, steps[0]);
      SleepStays(s, steps[0], t, deadline);
      SleepExact(Next(s, steps[0]), steps[1..], t, deadline);
    }
  }

  /** If a sleeper that nobody wakes is picked, then because of its deadline. */
  lemma {:induction false} SleepTimesOut(s: State, steps: seq<Step>, t: Tid, deadline: int)
    requires Inv(s) && Asleep(s, t, deadline) && IsRun(s, steps) && Wake(t) !in steps
    ensures Dispatched(s, steps, t) ==> TimesOut(s, steps, t)
    decreases |steps|
  {
    if steps == [] {
    } else if !Picks(s, steps[0], t) {
      StepKeeps(s, steps[0]);
      SleepStays(s, steps[0], t, deadline);
      SleepTimesOut(Next(s, steps[0]), steps[1..], t, deadline);
    }
  }

  /** A thread that has gone to sleep and is not woken, in a run up to now and in one from now on:
      it can run exactly if its deadline has passed, and then it is picked in time, its flag for
      a timeout set. */
  lemma {:induction false} SleepEnds(s: State, deadline: int, past: seq<Step>, steps: seq<Step>)
    requires Inv(s) && s.at.Outside? && IsRun(DoBlock(s, deadline), past)
    requires Wake(s.current) !in past && !Dispatched(DoBlock(s, deadline), past, s.current)
    requires IsRun(End(DoBlock(s, deadline), past), steps) && Wake(s.current) !in steps
    ensures var s1, t := End(DoBlock(s, deadline), past), s.current;
            && t in s1.threads && t in s1.th
            && (Eligible(s1.th[t], s1.clock) <==> 0 <= deadline <= s1.clock)
            && (0 <= deadline <= s1.clock && IndexOf(s1.threads, t) + Creates(steps) < Passes(steps) ==>
                  TimesOut(s1, steps, t))
  {
    var s1, t := End(DoBlock(s, deadline), past), s.current;
    StepKeeps(s, Block(deadline));
    SleepStarts(s, deadline);
    SleepExact(DoBlock(s, deadline), past, t, deadline);
    SleepTimesOut(s1, steps, t, deadline);
    if 0 <= deadline <= s1.clock && IndexOf(s1.threads, t) + Creates(steps) < Passes(steps) {
      BoundedWaiting(s1, steps, t);
    }
  }

  // ---- yielding and being created

  /** A thread that yields can run, and so is picked in time. */
  lemma {:induction false} YielderRuns(s: State, steps: seq<Step>)
    requires Inv(s) && s.at.Outside? && IsRun(Next(s, Yield), steps)
    requires |s.threads| + Creates(steps) <= Passes(steps)
    ensures Dispatched(Next(s, Yield), steps, s.current)
  {
    StepKeeps(s, Yield);
    BoundedWaiting(Next(s, Yield), steps, s.current);
  }

  /** A new thread is as `bmk_sched_create` leaves it, in front of the others and able to run, and
      so is picked in time. */
  lemma {:induction false} CreatedRuns(s: State, t: Tid, ext: bool, steps: seq<Step>)
    requires Inv(s) && Enabled(s, Create(t, ext)) && IsRun(DoCreate(s, t, ext), steps)
    ensures var s' := DoCreate(s, t, ext);
            && s'.threads == [t] + s.threads && Waiting(s', t)
            && s'.th[t] == Thread(true, false, false, false, ext, -1, Fresh)
    ensures Creates(steps) < Passes(steps) ==> Dispatched(DoCreate(s, t, ext), steps, t)
  {
    StepKeeps(s, Create(t, ext));
    if Creates(steps) < Passes(steps) {
      BoundedWaiting(DoCreate(s, t, ext), steps, t);
    }
  }

  /** A thread that is woken in bmk_sched can run, without a deadline, and so is picked in time. */
  lemma {:induction false} WokenRuns(s: State, t: Tid, steps: seq<Step>)
    requires Inv(s) && Enabled(s, Wake(t)) && t in s.threads && (t != s.current || s.at.Scheduling?)
    requires IsRun(Next(s, Wake(t)), steps)
    ensures var s' := Next(s, Wake(t));
            && Waiting(s', t) && s'.th[t] == s.th[t].(runnable := true, wakeup := -1)
            && (IndexOf(s.threads, t) + Creates(steps) < Passes(steps) ==> Dispatched(s', steps, t))
  {
    StepKeeps(s, Wake(t));
    if IndexOf(s.threads, t) + Creates(steps) < Passes(steps) {
      BoundedWaiting(Next(s, Wake(t)), steps, t);
    }
  }

  // ---- exiting and joining

  /** The exit loop waits exactly while the thread must be joined; past it the thread has exited:
      it was the last of the list and is now the first of the zombies. */
  lemma {:induction false} GateExact(s: State)
    requires Inv(s) && Enabled(s, Gate)
    ensures var s', t := DoGate(s), s.current;
            && t in s'.th && !s'.th[t].runnable
            && (if s.th[t].mustjoin then StuckAt(s', t, ExitGate) && s'.th[t].joined && s'.threads == s.threads
                else StuckAt(s', t, Dead) && s'.zombies == [t] + s.zombies && s.threads == s'.threads + [t])
  {
    StepKeeps(s, Gate);
    if !s.th[s.current].mustjoin {
      IndexUnique(s.threads, s.current, |s.threads| - 1);
    }
  }

  /** bmk_sched_exit from its start. */
  lemma {:induction false} ExitExact(s: State)
    requires Inv(s) && Enabled(s, Exit)
    ensures var s1, t := Next(s, Exit), s.current;
            && Enabled(s1, Gate) && s1 == s.(at := Exiting)
            && (if s.th[t].mustjoin then StuckAt(DoGate(s1), t, ExitGate) else Gone(DoGate(s1), t))
  {
    StepKeeps(s, Exit);
    GateExact(Next(s, Exit));
  }

  /** A round of the join loop ends the join exactly if the target waits at its exit, and then the
      target need not be joined any more; otherwise the joiner waits for it, its record last. */
  lemma {:induction false} JoinExact(s: State)
    requires Inv(s) && Enabled(s, JoinRound)
    ensures var s', t, w := Next(s, JoinRound), s.at.t, Waiter(s.current, s.at.t);
            if StuckAt(s, t, ExitGate) then s'.at == Outside && t in s'.th && !s'.th[t].mustjoin && s'.th[t].runnable
            else StuckAt(s', w.thread, JoinWait(t)) && !s'.th[w.thread].runnable
                 && s'.joinwq != [] && s'.joinwq[|s'.joinwq| - 1] == w
  {
    StepKeeps(s, JoinRound);
    assert Arrivals(s) && Targets(s);
  }

  /** bmk_sched_join from its start: it ends at once exactly if the target is already at its exit. */
  lemma {:induction false} JoinStarts(s: State, t: Tid)
    requires Inv(s) && Enabled(s, Join(t))
    ensures var s1 := Next(s, Join(t));
            && Enabled(s1, JoinRound) && s1 == s.(at := Joining(t, false))
            && (Next(s1, JoinRound).at == Outside <==> StuckAt(s, t, ExitGate))
  {
    StepKeeps(s, Join(t));
    JoinExact(Next(s, Join(t)));
  }

  lemma {:induction false} JoinedStep(s: State, step: Step, t: Tid)
    requires Inv(s) && Enabled(s, step) && t in s.th && s.th[t].joined && t in Next(s, step).th
    ensures Next(s, step).th[t].joined
  {
    match step
    case Pass(now) =>
      PassKeeps(s, now);
      if Picks(s, step, t) {
        PickReturns(s, now, t);
      } else {
        PassFrames(s, now, t);
      }
    case _ =>
  }

  /** That a thread has reached its exit is not forgotten. */
  lemma {:induction false} JoinedRemains(s: State, steps: seq<Step>, t: Tid)
    requires Inv(s) && IsRun(s, steps) && t in s.th && s.th[t].joined && t in End(s, steps).th
    ensures End(s, steps).th[t].joined
    decreases |steps|
  {
    if steps == [] {
    } else {
      var s1 := Next(s, steps[0]);
      StepKeeps(s, steps[0]);
      NameStays(s, steps[0], t);
      if t in s1.freed {
        FreedStays(s1, steps[1..], t);
      }
      JoinedStep(s, steps[0], t);
      JoinedRemains(s1, steps[1..], t);
    }
  }

  /** Once the target has reached its exit, the next time the joiner is back from bmk_sched its
      join ends. */
  lemma {:induction false} JoinEnds(s: State, steps: seq<Step>, t: Tid)
    requires Inv(s) && IsRun(s, steps) && StuckAt(s, t, ExitGate)
    requires End(s, steps).at.Joining? && End(s, steps).at.t == t
    ensures Enabled(End(s, steps), JoinRound) && Next(End(s, steps), JoinRound).at == Outside
  {
    var s' := End(s, steps);
    RunKeeps(s, steps);
    JoinedRemains(s, steps, t);
    UnlinkKeeps(s');
    assert Arrivals(s') && Targets(s');
    JoinExact(s');
  }
}
