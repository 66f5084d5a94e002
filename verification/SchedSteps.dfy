/** Each step of the scheduler keeps the invariant. */
module SchedSteps {

  import opened Basics
  import opened SchedModel
  import opened SchedInvariant

  lemma {:induction false} CreateShape(s: State, t: Tid, ext: bool)
    requires Shape(s) && Enabled(s, Create(t, ext))
    ensures Shape(DoCreate(s, t, ext))
  {
  }

  lemma {:induction false} CreateProtocol(s: State, t: Tid, ext: bool)
    requires Shape(s) && Protocol(s) && Enabled(s, Create(t, ext))
    ensures Protocol(DoCreate(s, t, ext))
  {
  }

  lemma {:induction false} CreateMarks(s: State, t: Tid, ext: bool)
    requires Shape(s) && Marks(s) && Enabled(s, Create(t, ext))
    ensures Marks(DoCreate(s, t, ext))
  {
  }

  lemma {:induction false} WakeProtocol(s: State, t: Tid)
    requires Shape(s) && Protocol(s)
    ensures Shape(s.(th := WakeThread(s.th, t))) && Protocol(s.(th := WakeThread(s.th, t)))
  {
  }

  lemma {:induction false} WakeMarks(s: State, t: Tid)
    requires Shape(s) && Marks(s)
    ensures Marks(s.(th := WakeThread(s.th, t)))
  {
  }

  lemma {:induction false} YieldKeeps(s: State)
    requires Inv(s) && s.at.Outside?
    ensures Inv(s.(at := Scheduling(Caller)))
  {
  }

  lemma {:induction false} BlockShape(s: State, deadline: int)
    requires Shape(s) && s.at.Outside?
    ensures Shape(DoBlock(s, deadline))
  {
  }

  lemma {:induction false} BlockProtocol(s: State, deadline: int)
    requires Shape(s) && Protocol(s) && s.at.Outside?
    ensures Protocol(DoBlock(s, deadline))
  {
  }

  lemma {:induction false} BlockMarks(s: State, deadline: int)
    requires Shape(s) && Marks(s) && s.at.Outside?
    ensures Marks(DoBlock(s, deadline))
  {
  }

  lemma {:induction false} ExitKeeps(s: State)
    requires Inv(s) && s.at.Outside?
    ensures Inv(s.(at := Exiting))
  {
  }

  lemma {:induction false} JoinKeeps(s: State, t: Tid)
    requires Inv(s) && Enabled(s, Join(t))
    ensures Inv(s.(at := Joining(t, false)))
  {
  }

  // ---- exit and join

  lemma {:induction false} AwaitShape(s: State)
    requires Shape(s) && s.at.Exiting?
    ensures Shape(AwaitJoiner(s))
  {
  }

  /** The joiner, if there is one, is woken. */
  lemma {:induction false} AwaitHandshake(s: State)
    requires Shape(s) && Protocol(s) && s.at.Exiting?
    ensures Handshake(AwaitJoiner(s))
  {
  }

  lemma {:induction false} AwaitRecords(s: State)
    requires Shape(s) && Protocol(s) && s.at.Exiting?
    ensures Records(AwaitJoiner(s))
  {
    assert forall w :: InJoin(AwaitJoiner(s), w) <==> InJoin(s, w);
  }

  lemma {:induction false} AwaitProtocol(s: State)
    requires Shape(s) && Protocol(s) && s.at.Exiting? && s.th[s.current].mustjoin
    ensures Gates(AwaitJoiner(s)) && Targets(AwaitJoiner(s))
  {
  }

  lemma {:induction false} AwaitMarks(s: State)
    requires Shape(s) && Marks(s) && s.at.Exiting?
    ensures Marks(AwaitJoiner(s))
  {
  }

  lemma {:induction false} DepartShape(s: State)
    requires Shape(s) && s.at.Exiting?
    ensures s.current in s.threads && Shape(Depart(s))
  {
    WithoutFacts(s.threads, s.current);
  }

  lemma {:induction false} DepartProtocol(s: State)
    requires Shape(s) && Protocol(s) && s.at.Exiting? && !s.th[s.current].mustjoin
    ensures s.current in s.threads && Protocol(Depart(s))
  {
  }

  lemma {:induction false} DepartMarks(s: State)
    requires Shape(s) && Marks(s) && s.at.Exiting? && !s.th[s.current].mustjoin
    ensures s.current in s.threads && Marks(Depart(s))
  {
  }

  lemma {:induction false} UnlinkKeeps(s: State)
    requires Inv(s) && s.at.Joining?
    ensures Enabled(s, JoinRound) && Inv(Unlink(s))
  {
    if s.at.linked {
      assert InJoin(s, Waiter(s.current, s.at.t));
      WithoutFacts(s.joinwq, Waiter(s.current, s.at.t));
    }
  }

  lemma {:induction false} LookShape(s: State)
    requires Shape(s) && Protocol(s) && s.at.Joining? && !s.at.linked
    ensures Shape(Look(s))
  {
  }

  lemma {:induction false} LookArrived(s: State)
    requires Shape(s) && Protocol(s) && s.at.Joining? && !s.at.linked && s.th[s.at.t].joined
    ensures Protocol(Look(s))
  {
  }

  lemma {:induction false} LookWaits(s: State)
    requires Shape(s) && Protocol(s) && s.at.Joining? && !s.at.linked && !s.th[s.at.t].joined
    ensures Protocol(Look(s))
  {
  }

  lemma {:induction false} LookMarks(s: State)
    requires Shape(s) && Marks(s) && Targets(s) && s.at.Joining? && !s.at.linked
    ensures Marks(Look(s))
  {
  }

  // ---- dispatch and reaping

  lemma {:induction false} SplitZombies(l: seq<Tid>, x: Tid)
    requires x !in l
    ensures Only(l, x) == [] && Except(l, x) == l
  {
    if l == [] {
    } else {
      SplitZombies(l[1..], x);
    }
  }

  lemma {:induction false} ReapEmpties(s: State, prev: Tid)
    requires prev !in s.zombies
    ensures Reap(s, prev) == s.(zombies := [], th := s.th - (set z | z in s.zombies), freed := s.freed + s.zombies)
  {
    SplitZombies(s.zombies, prev);
    assert (set z | z in s.zombies && z != prev) == (set z | z in s.zombies);
  }

  lemma {:induction false} CurrentNotZombie(s: State)
    requires Lists(s) && Running(s) && s.at != Scheduling(Dead)
    ensures s.current !in s.zombies
  {
    assert s.current in s.threads;
  }

  /** The reaper, run with prev equal to the running thread, frees all zombies and nothing else. */
  lemma {:induction false} ReapAll(s: State)
    requires Shape(s) && s.at != Scheduling(Dead)
    ensures s.current !in s.zombies
    ensures Reap(s, s.current) == s.(zombies := [], th := s.th - (set z | z in s.zombies), freed := s.freed + s.zombies)
  {
    CurrentNotZombie(s);
    ReapEmpties(s, s.current);
  }

  lemma {:induction false} DistinctJoin(l: seq<Tid>, m: seq<Tid>)
    requires Distinct(l) && Distinct(m) && forall t :: t in m ==> t !in l
    ensures Distinct(l + m)
  {
    forall i, j | 0 <= i < j < |l + m|
      ensures (l + m)[i] != (l + m)[j]
    {
      if i < |l| <= j {
        assert (l + m)[i] in l && (l + m)[j] in m;
      }
    }
  }

  lemma {:induction false} ReapShape(s: State)
    requires Shape(s) && s.at != Scheduling(Dead)
    ensures Shape(Reap(s, s.current))
  {
    ReapAll(s);
    assert forall t :: t in s.zombies ==> t !in s.freed;
    DistinctJoin(s.freed, s.zombies);
  }

  lemma {:induction false} ReapProtocol(s: State)
    requires Shape(s) && Protocol(s) && s.at != Scheduling(Dead)
    ensures Protocol(Reap(s, s.current))
  {
    ReapAll(s);
  }

  lemma {:induction false} ReapMarks(s: State)
    requires Shape(s) && Marks(s) && s.at != Scheduling(Dead)
    ensures Marks(Reap(s, s.current))
  {
    ReapAll(s);
  }

  lemma {:induction false} TailFacts(l: seq<Tid>, i: nat)
    requires Distinct(l) && i < |l|
    ensures var m := ToTail(l, i);
            Distinct(m) && |m| == |l| && m[|l| - 1] == l[i] && forall t :: t in m <==> t in l
  {
    var m := ToTail(l, i);
    forall t | t in l
      ensures t in m
    {
      var j :| 0 <= j < |l| && l[j] == t;
      assert j < i ==> m[j] == t;
      assert j > i ==> m[j - 1] == t;
    }
  }

  lemma {:induction false} DispatchShape(s: State, i: nat)
    requires Shape(s) && s.at.Scheduling? && i < |s.threads|
    ensures Shape(Dispatch(s, i)) && Dispatch(s, i).at != Scheduling(Dead)
  {
    TailFacts(s.threads, i);
  }

  /** Nobody enters or leaves a join by being dispatched. */
  lemma {:induction false} DispatchRecords(s: State, i: nat, w: Waiter)
    requires Shape(s) && s.at.Scheduling? && i < |s.threads|
    ensures InJoin(Dispatch(s, i), w) <==> InJoin(s, w)
  {
    assert ContextOk(s, s.threads[i]);
  }

  lemma {:induction false} DispatchGates(s: State, i: nat)
    requires Shape(s) && Protocol(s) && s.at.Scheduling? && i < |s.threads|
    ensures Gates(Dispatch(s, i))
  {
    var s' := Dispatch(s, i);
    assert ContextOk(s, s.threads[i]);
    forall t | StuckAt(s', t, ExitGate)
      ensures StuckAt(s, t, ExitGate) && s'.th[t].runnable == s.th[t].runnable
    {
    }
  }

  lemma {:induction false} DispatchProtocol(s: State, i: nat)
    requires Shape(s) && Protocol(s) && s.at.Scheduling? && i < |s.threads|
    ensures Protocol(Dispatch(s, i))
  {
    DispatchGates(s, i);
    forall w
      ensures InJoin(Dispatch(s, i), w) <==> InJoin(s, w)
    {
      DispatchRecords(s, i, w);
    }
    var s' := Dispatch(s, i);
    if s'.at.Joining? {
      assert InJoin(s', Waiter(s'.current, s'.at.t));
    }
    assert Records(s');
    assert Targets(s');
  }

  lemma {:induction false} DispatchMarks(s: State, i: nat)
    requires Shape(s) && Marks(s) && s.at.Scheduling? && i < |s.threads|
    ensures Marks(Dispatch(s, i))
  {
    assert ContextOk(s, s.threads[i]);
  }

  /** The reaper always runs with prev equal to the thread that now runs. */
  lemma {:induction false} ReaperIsCurrent(s: State, i: nat)
    requires Shape(s) && s.at.Scheduling? && i < |s.threads| && ReaperPrev(s, s.threads[i]).Some?
    ensures ReaperPrev(s, s.threads[i]).value == s.threads[i] == Dispatch(s, i).current
  {
    assert ContextOk(s, s.threads[i]);
  }

  lemma {:induction false} DispatchKeeps(s: State, i: nat)
    requires Inv(s) && s.at.Scheduling? && i < |s.threads|
    ensures Inv(Dispatch(s, i)) && Dispatch(s, i).at != Scheduling(Dead)
    ensures Inv(Reap(Dispatch(s, i), Dispatch(s, i).current))
  {
    DispatchShape(s, i);
    DispatchProtocol(s, i);
    DispatchMarks(s, i);
    ReapShape(Dispatch(s, i));
    ReapProtocol(Dispatch(s, i));
    ReapMarks(Dispatch(s, i));
  }

  lemma {:induction false} TimePasses(s: State, now: int)
    requires Inv(s)
    ensures Inv(s.(clock := now))
  {
  }

  /** A pass is idle, starts a new thread, or returns to one, which then reaps. */
  lemma {:induction false} PassCases(s: State, now: int)
    requires Shape(s) && s.at.Scheduling?
    ensures var i, s' := FirstEligible(s.threads, s.th, now, 0), s.(clock := now);
            DoPass(s, now) ==
            if i == |s.threads| then s'
            else if ReaperPrev(s', s.threads[i]).None? then Dispatch(s', i)
            else Reap(Dispatch(s', i), Dispatch(s', i).current)
  {
    var i, s' := FirstEligible(s.threads, s.th, now, 0), s.(clock := now);
    if i < |s.threads| && ReaperPrev(s', s.threads[i]).Some? {
      ReaperIsCurrent(s', i);
    }
  }

  lemma {:induction false} PassKeeps(s: State, now: int)
    requires Inv(s) && s.at.Scheduling?
    ensures Inv(DoPass(s, now))
  {
    var i := FirstEligible(s.threads, s.th, now, 0);
    PassCases(s, now);
    TimePasses(s, now);
    if i < |s.threads| {
      DispatchKeeps(s.(clock := now), i);
    }
    var kept := Inv(DoPass(s, now));
    assert kept;
  }

  lemma {:induction false} GateKeeps(s: State)
    requires Inv(s) && s.at.Exiting?
    ensures s.current in s.threads && Inv(DoGate(s))
  {
    if s.th[s.current].mustjoin {
      AwaitShape(s);
      AwaitHandshake(s);
      AwaitRecords(s);
      AwaitProtocol(s);
      AwaitMarks(s);
    } else {
      DepartShape(s);
      DepartProtocol(s);
      DepartMarks(s);
    }
  }

  lemma {:induction false} LookKeeps(s: State)
    requires Inv(s) && s.at.Joining? && !s.at.linked
    ensures Inv(Look(s))
  {
    LookShape(s);
    LookMarks(s);
    if s.th[s.at.t].joined {
      LookArrived(s);
    } else {
      LookWaits(s);
    }
  }

  /** Every step keeps the invariant. */
  lemma {:induction false} StepKeeps(s: State, step: Step)
    requires Inv(s) && Enabled(s, step)
    ensures Inv(Next(s, step))
  {
    match step
    case Create(t, ext) =>
      CreateShape(s, t, ext);
      CreateProtocol(s, t, ext);
      CreateMarks(s, t, ext);
    case Wake(t) =>
      WakeProtocol(s, t);
      WakeMarks(s, t);
    case Yield => YieldKeeps(s);
    case Block(deadline) =>
      BlockShape(s, deadline);
      BlockProtocol(s, deadline);
      BlockMarks(s, deadline);
    case Exit => ExitKeeps(s);
    case Gate => GateKeeps(s);
    case Join(t) => JoinKeeps(s, t);
    case JoinRound =>
      UnlinkKeeps(s);
      LookKeeps(Unlink(s));
    case Pass(now) => PassKeeps(s, now);
  }
}
