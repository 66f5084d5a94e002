/** The hand-off from interrupts to the thread that serves them: intr.c, with the interrupt
    depth of md.h.

    The service loop is cut into single actions, because an interrupt can come between any two
    of them that run with interrupts enabled. */
module InterruptModel {

  const NLINES: nat := 32

  /** Where the service thread is. */
  datatype Pc =
    | Begin                                // not yet in the loop
    | Top                                  // before splhigh
    | High                                 // before the test of isr_todo
    | Copied(lines: set<nat>)              // isr_todo copied, not yet cleared
    | Cleared(lines: set<nat>)             // cleared, before spl0
    | Serving(lines: set<nat>, i: nat)     // in the loop over the lines
    | Empty                                // nothing to do, before bmk_sched_block
    | Blocked                              // before spl0
    | Idle                                 // before bmk_sched
    | Parked                               // in bmk_sched

  datatype Event = Raised(i: nat) | Snapshot(lines: set<nat>) | Served(i: nat)

  /** `intr` is the processor's interrupt flag; `away` says that the service thread was
      switched out by a handler that waits for something. */
  datatype State = State(depth: int, intr: bool, booted: bool, todo: set<nat>, runnable: bool,
                         away: bool, pc: Pc, log: seq<Event>, panicked: bool)

  /** bmk_cpu_init has not been called, the service thread not started. */
  function Start(): State {
    State(1, false, false, {}, true, false, Begin, [], false)
  }

  function SplHigh(s: State): State {
    s.(intr := false, depth := s.depth + 1)
  }

  function Spl0(s: State): State {
    if s.depth == 0 then s.(panicked := true)
    else s.(depth := s.depth - 1, intr := s.intr || s.depth == 1)
  }

  /** bmk_isr, with interrupts disabled by the stub around it. */
  function Isr(s: State, i: nat): State {
    s.(todo := s.todo + {i}, runnable := true, log := s.log + [Raised(i)])
  }

  datatype Step =
    | Boot              // the end of bmk_cpu_init
    | Interrupt(i: nat)
    | Run               // the service thread's next action
    | Wait              // a handler blocks the service thread in wait()
    | Wake              // somebody wakes the service thread in that wait()
    | Resume            // the service thread is dispatched

  ghost predicate Enabled(s: State, step: Step) {
    !s.panicked &&
    match step
    case Boot => !s.booted
    case Interrupt(i) => s.intr && i < NLINES
    case Run => s.booted && !s.away && !s.pc.Parked?
    case Wait => s.pc.Serving? && !s.away
    case Wake => s.away
    case Resume => s.runnable && (s.away || s.pc.Parked?)
  }

  /** One action of the service loop. */
  function Action(s: State): State {
    match s.pc
    case Begin => s.(pc := Top)
    case Top => SplHigh(s).(pc := High)
    case High =>
      if s.todo != {} then s.(pc := Copied(s.todo), log := s.log + [Snapshot(s.todo)]) else s.(pc := Empty)
    case Copied(lines) => s.(todo := {}, pc := Cleared(lines))
    case Cleared(lines) => Spl0(s).(pc := Serving(lines, 0))
    case Serving(lines, i) =>
      if i < NLINES
      then s.(pc := Serving(lines, i + 1), log := s.log + if i in lines then [Served(i)] else [])
      else s.(pc := Top)
    case Empty => s.(runnable := false, pc := Blocked)
    case Blocked => Spl0(s).(pc := Idle)
    case Idle => s.(pc := Parked)
    case Parked => s
  }

  ghost function Next(s: State, step: Step): State
    requires Enabled(s, step)
  {
    match step
    case Boot => Spl0(s).(booted := true)
    case Interrupt(i) => Isr(s, i)
    case Run => Action(s)
    case Wait => s.(away := true, runnable := false)
    case Wake => s.(runnable := true)
    case Resume => if s.away then s.(away := false) else s.(pc := Top)
  }

  ghost predicate IsRun(s: State, steps: seq<Step>)
    decreases |steps|
  {
    steps == [] || (Enabled(s, steps[0]) && IsRun(Next(s, steps[0]), steps[1..]))
  }

  ghost function End(s: State, steps: seq<Step>): State
    requires IsRun(s, steps)
    decreases |steps|
  {
    if steps == [] then s else End(Next(s, steps[0]), steps[1..])
  }

  // ---- what every step keeps

  /** Between splhigh and spl0. */
  predicate Masked(pc: Pc) {
    pc.High? || pc.Copied? || pc.Cleared? || pc.Empty? || pc.Blocked?
  }

  /** Depth is 1 exactly between splhigh and spl0, and the flag agrees; spl0 never panics. */
  ghost predicate Depth(s: State) {
    && !s.panicked
    && (if s.booted then s.depth == (if Masked(s.pc) then 1 else 0) else s.depth == 1 && s.pc.Begin?)
    && (s.intr <==> s.depth == 0)
    && (s.away ==> s.pc.Serving?)
  }

  /** Nothing is lost between looking at isr_todo, clearing it and going to sleep. */
  ghost predicate Handoff(s: State) {
    && (s.pc.Copied? ==> s.pc.lines == s.todo)
    && (s.pc.Cleared? ==> s.todo == {})
    && (s.pc.Empty? || s.pc.Blocked? ==> s.todo == {})
    && (s.pc.Blocked? ==> !s.runnable)
    && (s.pc.Idle? || s.pc.Parked? ==> (s.runnable <==> s.todo != {}))
    && (forall i :: i in s.todo ==> i < NLINES)
    && (s.pc.Copied? || s.pc.Cleared? || s.pc.Serving? ==> forall i :: i in s.pc.lines ==> i < NLINES)
  }

  /** In a later snapshot. */
  ghost predicate Seen(log: seq<Event>, k: nat, i: nat) {
    exists j :: k < j < |log| && log[j].Snapshot? && i in log[j].lines
  }

  ghost predicate Handled(log: seq<Event>, k: nat, i: nat) {
    exists j :: k < j < |log| && log[j] == Served(i)
  }

  /** In the snapshot that is being served, its turn still to come. */
  ghost predicate InHand(pc: Pc, i: nat) {
    || ((pc.Copied? || pc.Cleared?) && i in pc.lines)
    || (pc.Serving? && i in pc.lines && pc.i <= i)
  }

  ghost predicate Accounted(s: State) {
    forall k, i :: 0 <= k < |s.log| && s.log[k] == Raised(i) ==>
      && ((i in s.todo && !s.pc.Copied?) || Seen(s.log, k, i))
      && (i in s.todo || InHand(s.pc, i) || Handled(s.log, k, i))
  }

  ghost predicate Inv(s: State) {
    Depth(s) && Handoff(s) && Accounted(s)
  }

  lemma {:induction false} StartInv()
    ensures Inv(Start())
  {
  }

  lemma {:induction false} StepDepth(s: State, step: Step)
    requires Depth(s) && Enabled(s, step)
    ensures Depth(Next(s, step))
  {
  }

  lemma {:induction false} StepHandoff(s: State, step: Step)
    requires Depth(s) && Handoff(s) && Enabled(s, step)
    ensures Handoff(Next(s, step))
  {
  }

  /** What has been seen or served stays so as the log grows. */
  lemma {:induction false} LogGrows(log: seq<Event>, more: seq<Event>, k: nat, i: nat)
    ensures Seen(log, k, i) ==> Seen(log + more, k, i)
    ensures Handled(log, k, i) ==> Handled(log + more, k, i)
  {
    if Seen(log, k, i) {
      var j :| k < j < |log| && log[j].Snapshot? && i in log[j].lines;
      assert (log + more)[j] == log[j];
    }
    if Handled(log, k, i) {
      var j :| k < j < |log| && log[j] == Served(i);
      assert (log + more)[j] == log[j];
    }
  }

  lemma {:induction false} StepAccounted(s: State, step: Step)
    requires Inv(s) && Enabled(s, step)
    ensures Accounted(Next(s, step))
  {
    var s' := Next(s, step);
    forall k, i | 0 <= k < |s'.log| && s'.log[k] == Raised(i)
      ensures (i in s'.todo && !s'.pc.Copied?) || Seen(s'.log, k, i)
      ensures i in s'.todo || InHand(s'.pc, i) || Handled(s'.log, k, i)
    {
      var more := s'.log[|s.log|..];
      assert s'.log == s.log + more;
      LogGrows(s.log, more, k, i);
      if k < |s.log| {
        assert s.log[k] == Raised(i);
        if more != [] {
          assert s'.log[|s.log|] == more[0];
        }
      }
    }
  }

  /** Every step keeps the invariant. */
  lemma {:induction false} StepKeeps(s: State, step: Step)
    requires Inv(s) && Enabled(s, step)
    ensures Inv(Next(s, step))
  {
    StepDepth(s, step);
    StepHandoff(s, step);
    StepAccounted(s, step);
  }

  lemma {:induction false} RunKeeps(s: State, steps: seq<Step>)
    requires Inv(s) && IsRun(s, steps)
    ensures Inv(End(s, steps))
    decreases |steps|
  {
    if steps == [] {
    } else {
      StepKeeps(s, steps[0]);
      RunKeeps(Next(s, steps[0]), steps[1..]);
    }
  }

  // ---- in every run

  /** Parked, the service thread can run exactly if there is work to do; and the scheduler is
      entered only with interrupts enabled. */
  lemma {:induction false} NoLostWakeup(steps: seq<Step>)
    requires IsRun(Start(), steps)
    ensures var s := End(Start(), steps);
            && (s.pc.Parked? ==> (s.runnable <==> s.todo != {}))
            && (s.pc.Idle? || s.pc.Parked? || s.away ==> s.depth == 0 && s.intr)
            && (s.booted ==> s.depth == 0 || s.depth == 1) && !s.panicked
  {
    StartInv();
    RunKeeps(Start(), steps);
  }

  /** Every interrupt ever raised is in a later snapshot or still pending; and it has been
      served since, or is still pending, or its turn in the current snapshot is to come. */
  lemma {:induction false} NoLostInterrupt(steps: seq<Step>, k: nat)
    requires IsRun(Start(), steps)
    requires k < |End(Start(), steps).log| && End(Start(), steps).log[k].Raised?
    ensures var s := End(Start(), steps);
            var i := s.log[k].i;
            && (i in s.todo || Seen(s.log, k, i))
            && (i in s.todo || InHand(s.pc, i) || Handled(s.log, k, i))
  {
    StartInv();
    RunKeeps(Start(), steps);
  }
}
