/** The cooperative scheduler of sched.c as a transition system.

    A step is what happens between two points where control can pass to somebody else: a
    thread runs until it calls bmk_sched, one pass of the scheduling loop looks for a thread
    to run, and a wake-up can come from the running thread or from an interrupt at any time. */
module SchedModel {

  import opened Basics

  /** Threads are named, not addressed: a name is used once even if memory is used again. */
  type Tid = nat

  /** Where in the kernel's own code a thread goes on when bmk_sched returns. */
  datatype Cont =
    | Caller           // whoever called bmk_sched
    | ExitGate         // the loop at the start of bmk_sched_exit
    | JoinWait(t: Tid) // the loop of bmk_sched_join
    | Dead             // the loop at the end of bmk_sched_exit

  /** How a thread that is not running was left: never started, or inside bmk_sched with the
      local variable prev and the place to return to. */
  datatype Context = Active | Fresh | Saved(prev: Tid, cont: Cont)

  datatype Thread = Thread(runnable: bool, timedout: bool, mustjoin: bool, joined: bool,
                           extstack: bool, wakeup: int, tcb: Context)

  datatype Waiter = Waiter(thread: Tid, wanted: Tid)

  /** Where the running thread is. */
  datatype Place =
    | Outside                       // in code of its own
    | Exiting                       // at the test of the exit loop
    | Joining(t: Tid, linked: bool) // at the test of the join loop, its record still linked or not
    | Scheduling(cont: Cont)        // in the loop of bmk_sched

  datatype State = State(threads: seq<Tid>, zombies: seq<Tid>, joinwq: seq<Waiter>,
                         th: map<Tid, Thread>, freed: seq<Tid>, current: Tid, at: Place, clock: int)

  // ---- lists

  /** TAILQ_REMOVE followed by TAILQ_INSERT_TAIL. */
  function ToTail<T>(l: seq<T>, i: nat): seq<T>
    requires i < |l|
  {
    RemoveAt(l, i) + [l[i]]
  }

  // ---- one pass of the scheduling loop

  /** Runnable, or its deadline has passed. */
  predicate Eligible(t: Thread, now: int) {
    t.runnable || 0 <= t.wakeup <= now
  }

  /** The first eligible thread from index `i` on; the length of the list if there is none. */
  function FirstEligible(threads: seq<Tid>, th: map<Tid, Thread>, now: int, i: nat): (r: nat)
    requires i <= |threads| && forall t :: t in threads ==> t in th
    ensures i <= r <= |threads|
    ensures r < |threads| ==> Eligible(th[threads[r]], now)
    ensures forall j :: i <= j < r ==> !Eligible(th[threads[j]], now)
    decreases |threads| - i
  {
    if i == |threads| then i
    else if Eligible(th[threads[i]], now) then i
    else FirstEligible(threads, th, now, i + 1)
  }

  /** What the scan does to the thread it picks. */
  function Picked(t: Thread): Thread {
    if t.runnable then t else t.(timedout := true, wakeup := -1, runnable := true)
  }

  function Woken(t: Thread): Thread {
    t.(wakeup := -1, runnable := true)
  }

  /** The reaper frees every zombie but one. */
  function Reap(s: State, prev: Tid): State {
    s.(zombies := Only(s.zombies, prev), th := s.th - (set z | z in s.zombies && z != prev),
       freed := s.freed + Except(s.zombies, prev))
  }

  function Only(l: seq<Tid>, x: Tid): seq<Tid> {
    if l == [] then [] else (if l[0] == x then [x] else []) + Only(l[1..], x)
  }

  function Except(l: seq<Tid>, x: Tid): seq<Tid> {
    if l == [] then [] else (if l[0] == x then [] else [l[0]]) + Except(l[1..], x)
  }

  /** Where a thread is when bmk_sched has returned to it. */
  function Return(cont: Cont): Place {
    match cont
    case Caller => Outside
    case ExitGate => Exiting
    case JoinWait(t) => Joining(t, true)
    case Dead => Scheduling(Dead)
  }

  /** The prev that the chosen thread finds in bmk_sched after the switch.  A thread that
      starts for the first time does not come out of bmk_sched, so it does not reap. */
  function ReaperPrev(s: State, next: Tid): Option<Tid>
    requires next in s.th
  {
    if next == s.current then Some(s.current)
    else match s.th[next].tcb
      case Saved(prev, _) => Some(prev)
      case _ => None
  }

  /** The thread at index `i` goes to the end of the list. */
  function Pick(s: State, i: nat): State
    requires i < |s.threads| && s.threads[i] in s.th
  {
    s.(threads := ToTail(s.threads, i), th := s.th[s.threads[i] := Picked(s.th[s.threads[i]])])
  }

  /** The running thread is left where it is in bmk_sched and another runs, unless it is the
      same. */
  function SwitchTo(s: State, next: Tid): State
    requires s.at.Scheduling? && s.current in s.th && next in s.th
  {
    var was := s.th[next].tcb;
    var cont := if next == s.current then s.at.cont else if was.Saved? then was.cont else Caller;
    var th := s.th[s.current := s.th[s.current].(tcb := Saved(s.current, s.at.cont))];
    s.(th := th[next := th[next].(tcb := Active)], current := next, at := Return(cont))
  }

  function Dispatch(s: State, i: nat): State
    requires s.at.Scheduling? && s.current in s.th && i < |s.threads| && s.threads[i] in s.th
  {
    SwitchTo(Pick(s, i), s.threads[i])
  }

  /** One pass at time `now`: pick the first eligible thread, or leave everything as it is and
      wait for an interrupt. */
  function DoPass(s: State, now: int): State
    requires s.at.Scheduling? && s.current in s.th && forall t :: t in s.threads ==> t in s.th
  {
    var i := FirstEligible(s.threads, s.th, now, 0);
    var s := s.(clock := now);
    if i == |s.threads| then s
    else
      match ReaperPrev(s, s.threads[i])
      case Some(prev) => Reap(Dispatch(s, i), prev)
      case None => Dispatch(s, i)
  }

  // ---- the other steps

  datatype Step =
    | Create(t: Tid, ext: bool)
    | Wake(t: Tid)
    | Yield
    | Block(deadline: int)
    | Exit
    | Gate
    | Join(t: Tid)
    | JoinRound
    | Pass(now: int)

  function DoCreate(s: State, t: Tid, ext: bool): State {
    s.(threads := [t] + s.threads, th := s.th[t := Thread(true, false, false, false, ext, -1, Fresh)])
  }

  /** Give up the processor until woken or until the deadline; a negative one never comes. */
  function DoBlock(s: State, deadline: int): State
    requires s.current in s.th
  {
    s.(th := s.th[s.current := s.th[s.current].(wakeup := deadline, runnable := false)], at := Scheduling(Caller))
  }

  /** The first record of a joiner that waits for `t`; the length of the list if there is none. */
  function FirstWaiter(joinwq: seq<Waiter>, t: Tid, i: nat): (r: nat)
    requires i <= |joinwq|
    ensures i <= r <= |joinwq|
    ensures r < |joinwq| ==> joinwq[r].wanted == t
    ensures forall j :: i <= j < r ==> joinwq[j].wanted != t
    decreases |joinwq| - i
  {
    if i == |joinwq| then i
    else if joinwq[i].wanted == t then i
    else FirstWaiter(joinwq, t, i + 1)
  }

  function WakeThread(th: map<Tid, Thread>, t: Tid): map<Tid, Thread> {
    if t in th then th[t := Woken(th[t])] else th
  }

  /** One round of the exit loop: wake the joiner if there is one, and wait. */
  function AwaitJoiner(s: State): State
    requires s.current in s.th
  {
    var me := s.current;
    var th := s.th[me := s.th[me].(joined := true)];
    var i := FirstWaiter(s.joinwq, me, 0);
    var th := if i < |s.joinwq| then WakeThread(th, s.joinwq[i].thread) else th;
    s.(th := th[me := th[me].(wakeup := -1, runnable := false)], at := Scheduling(ExitGate))
  }

  /** The exit itself. */
  function Depart(s: State): State
    requires s.current in s.th && s.current in s.threads
  {
    var me := s.current;
    s.(threads := Without(s.threads, me), zombies := [me] + s.zombies,
       th := s.th[me := s.th[me].(runnable := false)], at := Scheduling(Dead))
  }

  function DoGate(s: State): State
    requires s.current in s.th && s.current in s.threads
  {
    if s.th[s.current].mustjoin then AwaitJoiner(s) else Depart(s)
  }

  /** Back from bmk_sched the record comes off the list. */
  function Unlink(s: State): State
    requires s.at.Joining? && (s.at.linked ==> Waiter(s.current, s.at.t) in s.joinwq)
  {
    if s.at.linked then
      s.(joinwq := Without(s.joinwq, Waiter(s.current, s.at.t)),
         at := Joining(s.at.t, false))
    else s
  }

  /** One look at the target: let it go if it has arrived, else link a record and wait. */
  function Look(s: State): State
    requires s.at.Joining? && s.current in s.th && s.at.t in s.th
  {
    var me, t := s.current, s.at.t;
    if s.th[t].joined then
      s.(th := s.th[t := Woken(s.th[t].(mustjoin := false))], at := Outside)
    else
      s.(joinwq := s.joinwq + [Waiter(me, t)],
         th := s.th[me := s.th[me].(wakeup := -1, runnable := false)], at := Scheduling(JoinWait(t)))
  }

  /** Somebody is in the join loop for `t`. */
  ghost predicate Awaited(s: State, t: Tid) {
    || (exists w :: w in s.joinwq && w.wanted == t)
    || (s.at.Joining? && s.at.t == t)
  }

  /** When a step can happen.  Names of new threads are new; threads that are woken still
      exist; a thread is joined by one other at a time and only if it must be joined; time
      does not run backwards. */
  ghost predicate Enabled(s: State, step: Step) {
    match step
    case Create(t, _) => s.at.Outside? && t !in s.th && t !in s.freed
    case Wake(t) => t in s.th
    case Yield => s.at.Outside?
    case Block(_) => s.at.Outside? && s.current in s.th
    case Exit => s.at.Outside?
    case Gate => s.at.Exiting? && s.current in s.th && s.current in s.threads
    case Join(t) => s.at.Outside? && t in s.th && s.th[t].mustjoin && !Awaited(s, t)
    case JoinRound =>
      && s.at.Joining? && s.current in s.th && s.at.t in s.th
      && (s.at.linked ==> Waiter(s.current, s.at.t) in s.joinwq)
    case Pass(now) =>
      && s.at.Scheduling? && s.clock <= now && s.current in s.th
      && forall t :: t in s.threads ==> t in s.th
  }

  ghost function Next(s: State, step: Step): State
    requires Enabled(s, step)
  {
    match step
    case Create(t, ext) => DoCreate(s, t, ext)
    case Wake(t) => s.(th := WakeThread(s.th, t))
    case Yield => s.(at := Scheduling(Caller))
    case Block(deadline) => DoBlock(s, deadline)
    case Exit => s.(at := Exiting)
    case Gate => DoGate(s)
    case Join(t) => s.(at := Joining(t, false))
    case JoinRound => Look(Unlink(s))
    case Pass(now) => DoPass(s, now)
  }
}
