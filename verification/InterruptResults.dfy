/** What is served was raised, once for each snapshot, and what is raised is served in time. */
module InterruptResults {

  import opened InterruptModel

  // ---- nothing is served for nothing

  ghost predicate NoSnapshot(log: seq<Event>, a: nat, b: nat)
    requires b <= |log|
  {
    forall j :: a < j < b ==> !log[j].Snapshot?
  }

  /** Before `b`, and since the last snapshot before `b`, line `i` was raised. */
  ghost predicate RaisedBefore(log: seq<Event>, i: nat, b: nat)
    requires b <= |log|
  {
    exists k :: 0 <= k < b && log[k] == Raised(i) && NoSnapshot(log, k, b)
  }

  /** Every line of a snapshot was raised since the snapshot before. */
  ghost predicate Grounded(log: seq<Event>) {
    forall n, i :: 0 <= n < |log| && log[n].Snapshot? && i in log[n].lines ==> RaisedBefore(log, i, n)
  }

  /** The last snapshot before `b` is at `n`. */
  ghost predicate LastSnapshot(log: seq<Event>, b: nat, n: nat)
    requires b <= |log|
  {
    n < b && log[n].Snapshot? && NoSnapshot(log, n, b)
  }

  ghost predicate NotServed(log: seq<Event>, i: nat, a: nat, b: nat)
    requires b <= |log|
  {
    forall k :: a < k < b ==> log[k] != Served(i)
  }

  /** Line `i` is in the last snapshot before `j`, and not served since. */
  ghost predicate Called(log: seq<Event>, i: nat, j: nat)
    requires j <= |log|
  {
    exists n: nat :: LastSnapshot(log, j, n) && i in log[n].lines && NotServed(log, i, n, j)
  }

  ghost predicate OnceEach(log: seq<Event>) {
    forall j :: 0 <= j < |log| && log[j].Served? ==> Called(log, log[j].i, j)
  }

  /** What is pending was raised since the last snapshot. */
  ghost predicate PendingRaised(s: State) {
    !s.pc.Copied? ==> forall i :: i in s.todo ==> RaisedBefore(s.log, i, |s.log|)
  }

  predicate HasSnapshot(pc: Pc) {
    pc.Copied? || pc.Cleared? || pc.Serving?
  }

  /** Of the snapshot in hand only lines whose turn has come have been served. */
  ghost predicate UpTo(log: seq<Event>, n: nat, pc: Pc) {
    forall k :: n < k < |log| && log[k].Served? ==> pc.Serving? && log[k].i < pc.i
  }

  ghost predicate InHandLast(s: State) {
    HasSnapshot(s.pc) ==>
      exists n: nat :: LastSnapshot(s.log, |s.log|, n) && s.log[n].lines == s.pc.lines && UpTo(s.log, n, s.pc)
  }

  ghost predicate Justified(s: State) {
    Grounded(s.log) && OnceEach(s.log) && PendingRaised(s) && InHandLast(s)
  }

  lemma {:induction false} Longer(log: seq<Event>, e: Event, i: nat, b: nat)
    requires b <= |log|
    ensures RaisedBefore(log + [e], i, b) <==> RaisedBefore(log, i, b)
    ensures Called(log + [e], i, b) <==> Called(log, i, b)
  {
    var log' := log + [e];
    assert forall j :: 0 <= j < b ==> log'[j] == log[j];
    forall a: nat
      ensures NoSnapshot(log', a, b) <==> NoSnapshot(log, a, b)
      ensures NotServed(log', i, a, b) <==> NotServed(log, i, a, b)
    {
    }
    if Called(log, i, b) {
      var n: nat :| LastSnapshot(log, b, n) && i in log[n].lines && NotServed(log, i, n, b);
      assert LastSnapshot(log', b, n) && i in log'[n].lines;
    }
    if Called(log', i, b) {
      var n: nat :| LastSnapshot(log', b, n) && i in log'[n].lines && NotServed(log', i, n, b);
      assert LastSnapshot(log, b, n) && i in log[n].lines;
    }
  }

  /** One event more, itself justified. */
  lemma {:induction false} LogsJustified(log: seq<Event>, e: Event)
    requires Grounded(log) && OnceEach(log)
    requires e.Snapshot? ==> forall i :: i in e.lines ==> RaisedBefore(log, i, |log|)
    requires e.Served? ==> Called(log, e.i, |log|)
    ensures Grounded(log + [e]) && OnceEach(log + [e])
  {
    var log' := log + [e];
    forall n, i | 0 <= n < |log'| && log'[n].Snapshot? && i in log'[n].lines
      ensures RaisedBefore(log', i, n)
    {
      Longer(log, e, i, n);
      assert n < |log| ==> log'[n] == log[n];
    }
    forall j | 0 <= j < |log'| && log'[j].Served?
      ensures Called(log', log'[j].i, j)
    {
      Longer(log, e, log'[j].i, j);
      assert j < |log| ==> log'[j] == log[j];
    }
  }

  lemma {:induction false} StillRaised(log: seq<Event>, e: Event, i: nat)
    requires RaisedBefore(log, i, |log|) && !e.Snapshot?
    ensures RaisedBefore(log + [e], i, |log| + 1)
  {
    var k :| 0 <= k < |log| && log[k] == Raised(i) && NoSnapshot(log, k, |log|);
    assert (log + [e])[k] == Raised(i) && NoSnapshot(log + [e], k, |log| + 1);
  }

  lemma {:induction false} StillLast(log: seq<Event>, e: Event, n: nat)
    requires LastSnapshot(log, |log|, n) && !e.Snapshot?
    ensures LastSnapshot(log + [e], |log| + 1, n) && (log + [e])[n] == log[n]
  {
  }

  lemma {:induction false} RaiseJustified(s: State, i: nat)
    requires Justified(s) && Depth(s) && s.intr
    ensures Justified(Isr(s, i))
  {
    var s', e := Isr(s, i), Raised(i);
    LogsJustified(s.log, e);
    forall k | k in s'.todo
      ensures RaisedBefore(s'.log, k, |s'.log|)
    {
      if k == i {
        assert s'.log[|s.log|] == Raised(i) && NoSnapshot(s'.log, |s.log|, |s'.log|);
      } else {
        StillRaised(s.log, e, k);
      }
    }
    if HasSnapshot(s.pc) {
      var n: nat :| LastSnapshot(s.log, |s.log|, n) && s.log[n].lines == s.pc.lines && UpTo(s.log, n, s.pc);
      StillLast(s.log, e, n);
      assert UpTo(s'.log, n, s'.pc);
    }
  }

  lemma {:induction false} SnapshotJustified(s: State)
    requires Justified(s) && s.pc.High? && s.todo != {}
    ensures Justified(Action(s))
  {
    var s', e := Action(s), Snapshot(s.todo);
    LogsJustified(s.log, e);
    assert LastSnapshot(s'.log, |s'.log|, |s.log|) && UpTo(s'.log, |s.log|, s'.pc);
  }

  lemma {:induction false} ServeJustified(s: State)
    requires Justified(s) && s.pc.Serving? && s.pc.i < NLINES && s.pc.i in s.pc.lines
    ensures Justified(Action(s))
  {
    var s', e := Action(s), Served(s.pc.i);
    var n: nat :| LastSnapshot(s.log, |s.log|, n) && s.log[n].lines == s.pc.lines && UpTo(s.log, n, s.pc);
    assert NotServed(s.log, s.pc.i, n, |s.log|);
    LogsJustified(s.log, e);
    StillLast(s.log, e, n);
    assert UpTo(s'.log, n, s'.pc);
    forall k | k in s'.todo
      ensures RaisedBefore(s'.log, k, |s'.log|)
    {
      StillRaised(s.log, e, k);
    }
  }

  /** The snapshot in hand, if there is one, is the same and no turn is taken back. */
  ghost predicate Follows(pc: Pc, pc': Pc) {
    HasSnapshot(pc') ==> HasSnapshot(pc) && pc'.lines == pc.lines && (pc.Serving? ==> pc'.Serving? && pc.i <= pc'.i)
  }

  /** Nothing is logged. */
  lemma {:induction false} QuietJustified(s: State, s': State)
    requires Justified(s) && s'.log == s.log && Follows(s.pc, s'.pc)
    requires s'.todo == {} || (s'.todo == s.todo && !s.pc.Copied?)
    ensures Justified(s')
  {
    if HasSnapshot(s'.pc) {
      var n: nat :| LastSnapshot(s.log, |s.log|, n) && s.log[n].lines == s.pc.lines && UpTo(s.log, n, s.pc);
      assert UpTo(s'.log, n, s'.pc);
    }
  }

  lemma {:induction false} StepJustified(s: State, step: Step)
    requires Inv(s) && Justified(s) && Enabled(s, step)
    ensures Justified(Next(s, step))
  {
    match step
    case Interrupt(i) => RaiseJustified(s, i);
    case Run =>
      if s.pc.High? && s.todo != {} {
        SnapshotJustified(s);
      } else if s.pc.Serving? && s.pc.i < NLINES && s.pc.i in s.pc.lines {
        ServeJustified(s);
      } else {
        assert s.pc.Serving? ==> s.log + [] == s.log;
        QuietJustified(s, Next(s, step));
      }
    case _ =>
      if !s.pc.Copied? {
        QuietJustified(s, Next(s, step));
      }
  }

  lemma {:induction false} RunJustified(s: State, steps: seq<Step>)
    requires Inv(s) && Justified(s) && IsRun(s, steps)
    ensures Justified(End(s, steps))
    decreases |steps|
  {
    if steps == [] {
    } else {
      StepKeeps(s, steps[0]);
      StepJustified(s, steps[0]);
      RunJustified(Next(s, steps[0]), steps[1..]);
    }
  }

  /** In every run, every line that is served is in the last snapshot and is served once for it,
      and every line of a snapshot was raised since the snapshot before. */
  lemma {:induction false} NoneForNothing(steps: seq<Step>)
    requires IsRun(Start(), steps)
    ensures Grounded(End(Start(), steps).log) && OnceEach(End(Start(), steps).log)
  {
    StartInv();
    RunJustified(Start(), steps);
  }

  // ---- what is raised is served in time

  /** Pending, or in the snapshot in hand with its turn to come. */
  ghost predicate Due(s: State, i: nat) {
    i in s.todo || InHand(s.pc, i)
  }

  /** An action of the service thread, or its dispatch at the idle point. */
  ghost predicate Own(s: State, step: Step) {
    step.Run? || (step.Resume? && !s.away)
  }

  ghost function Owns(s: State, steps: seq<Step>): nat
    requires IsRun(s, steps)
    decreases |steps|
  {
    if steps == [] then 0 else (if Own(s, steps[0]) then 1 else 0) + Owns(Next(s, steps[0]), steps[1..])
  }

  /** How many of those it takes until line `i` is served. */
  ghost function Distance(pc: Pc, i: nat): nat {
    match pc
    case Copied(_) => i + 3
    case Cleared(_) => i + 2
    case Serving(lines, k) =>
      if i in lines && k <= i then i - k + 1 else (if k < NLINES then NLINES - k else 0) + i + 6
    case High => i + 4
    case Top => i + 5
    case Begin => i + 6
    case Parked => i + 6
    case _ => i + 7
  }

  ghost predicate ServedSince(log: seq<Event>, a: nat, i: nat) {
    exists j :: a <= j < |log| && log[j] == Served(i)
  }

  lemma {:induction false} StepCloser(s: State, step: Step, i: nat)
    requires Inv(s) && Enabled(s, step) && Due(s, i) && i < NLINES
    ensures var s' := Next(s, step);
            || ServedSince(s'.log, |s.log|, i)
            || (Due(s', i) && Distance(s'.pc, i) + (if Own(s, step) then 1 else 0) == Distance(s.pc, i))
  {
    if step.Run? && s.pc.Serving? && s.pc.i == i && i in s.pc.lines {
      assert Next(s, step).log[|s.log|] == Served(i);
    }
  }

  lemma {:induction false} LogPrefix(s: State, steps: seq<Step>)
    requires IsRun(s, steps)
    ensures s.log <= End(s, steps).log
    decreases |steps|
  {
    if steps == [] {
    } else {
      LogPrefix(Next(s, steps[0]), steps[1..]);
    }
  }

  lemma {:induction false} ServedAfter(s: State, steps: seq<Step>, i: nat)
    requires Inv(s) && IsRun(s, steps) && Due(s, i) && i < NLINES && Distance(s.pc, i) <= Owns(s, steps)
    ensures ServedSince(End(s, steps).log, |s.log|, i)
    decreases |steps|
  {
    var s1 := Next(s, steps[0]);
    StepKeeps(s, steps[0]);
    StepCloser(s, steps[0], i);
    LogPrefix(s1, steps[1..]);
    if ServedSince(s1.log, |s.log|, i) {
      var j :| |s.log| <= j < |s1.log| && s1.log[j] == Served(i);
      assert End(s, steps).log[j] == Served(i);
    } else {
      ServedAfter(s1, steps[1..], i);
      var j :| |s1.log| <= j < |End(s1, steps[1..]).log| && End(s1, steps[1..]).log[j] == Served(i);
      assert |s.log| <= j && End(s, steps).log[j] == Served(i);
    }
  }

  /** A line that is due is served within 69 actions of the service thread, and while it is due the
      thread is in a handler that waits or can go on. */
  lemma {:induction false} ServedInTime(s: State, steps: seq<Step>, i: nat)
    requires Inv(s) && IsRun(s, steps) && Due(s, i) && s.booted
    ensures s.away || Enabled(s, Run) || Enabled(s, Resume)
    ensures 69 <= Owns(s, steps) ==> ServedSince(End(s, steps).log, |s.log|, i)
  {
    assert Depth(s) && Handoff(s) && i < NLINES;
    assert Distance(s.pc, i) <= 69;
    if 69 <= Owns(s, steps) {
      ServedAfter(s, steps, i);
    }
  }

  /** A handler that waits stops the service thread until somebody wakes it, and then goes on where
      it was. */
  lemma {:induction false} HandlerWaits(s: State)
    requires Inv(s) && Enabled(s, Wait)
    ensures var s1 := Next(s, Wait);
            && !Enabled(s1, Run) && !Enabled(s1, Resume) && Enabled(s1, Wake)
            && var s2 := Next(s1, Wake);
               Enabled(s2, Resume) && Next(s2, Resume) == s.(runnable := true)
  {
  }
}
