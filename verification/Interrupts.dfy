/** Interrupt hand-off as the C code has it: a word of pending lines, the interrupt depth, and
    the loop over the lines of a snapshot. */
module Interrupts {

  import opened Bits
  import Model = InterruptModel

  predicate Bit(w: nat, i: nat) {
    Shr(w, i) % 2 == 1
  }

  /** The lines whose bits are set. */
  function Lines(w: nat): set<nat> {
    set i | 0 <= i < Model.NLINES && Bit(w, i)
  }

  lemma {:induction false} ShrZero(i: nat)
    ensures Shr(0, i) == 0
  {
    if i == 0 {
    } else {
      ShrZero(i - 1);
    }
  }

  lemma {:induction false} OrBit(x: nat, y: nat, i: nat)
    ensures Bit(Or(x, y), i) <==> Bit(x, i) || Bit(y, i)
    decreases i
  {
    if x == 0 && y == 0 {
      ShrZero(i);
    } else {
      assert Or(x, y) / 2 == Or(x / 2, y / 2);
      if i != 0 {
        OrBit(x / 2, y / 2, i - 1);
      }
    }
  }

  lemma {:induction false} PowerBit(k: nat, i: nat)
    ensures Bit(Pow2(k), i) <==> i == k
  {
    if i == 0 {
    } else if k == 0 {
      assert Shr(1, i) == Shr(0, i - 1);
      ShrZero(i - 1);
    } else {
      assert Pow2(k) / 2 == Pow2(k - 1);
      PowerBit(k - 1, i - 1);
    }
  }

  /** The test in the service loop picks out one line. */
  lemma {:induction false} AndPower(w: nat, i: nat)
    ensures And(w, Pow2(i)) != 0 <==> Bit(w, i)
  {
    if w == 0 {
      ShrZero(i);
    } else if i == 0 {
      assert And(w / 2, 0) == 0;
    } else {
      assert Pow2(i) / 2 == Pow2(i - 1);
      AndPower(w / 2, i - 1);
    }
  }

  class Controller {
    var depth: int
    var intr: bool
    var todo: nat
    var runnable: bool
    var panicked: bool

    /** What the model sees of these fields, beside the rest of its state. */
    ghost function View(rest: Model.State): Model.State
      reads this
    {
      rest.(depth := depth, intr := intr, todo := Lines(todo), runnable := runnable, panicked := panicked)
    }

    method SplHigh(ghost rest: Model.State)
      modifies this`intr, this`depth
      ensures View(rest) == Model.SplHigh(old(View(rest)))
    {
      intr := false;
      depth := depth + 1;
    }

    method Spl0(ghost rest: Model.State)
      modifies this`intr, this`depth, this`panicked
      ensures View(rest) == Model.Spl0(old(View(rest)))
    {
      if depth == 0 {
        panicked := true;
        return;
      }
      depth := depth - 1;
      if depth == 0 {
        intr := true;
      }
    }

    /** bmk_isr: no line but this one is added, and none is forgotten. */
    method Isr(which: nat, ghost rest: Model.State)
      requires which < Model.NLINES
      modifies this`todo, this`runnable
      ensures View(rest.(log := rest.log + [Model.Raised(which)])) == Model.Isr(old(View(rest)), which)
    {
      OrLine(todo, which);
      todo := Or(todo, Pow2(which));
      runnable := true;
    }

    /** The snapshot and the clearing, with interrupts disabled around both. */
    method TakeSnapshot() returns (isrcopy: nat)
      modifies this`todo
      ensures Lines(isrcopy) == old(Lines(todo)) && Lines(todo) == {}
    {
      isrcopy := todo;
      todo := 0;
      NoLines();
    }
  }

  lemma {:induction false} OrLine(w: nat, which: nat)
    requires which < Model.NLINES
    ensures Lines(Or(w, Pow2(which))) == Lines(w) + {which}
  {
    forall i | 0 <= i < Model.NLINES
      ensures Bit(Or(w, Pow2(which)), i) <==> Bit(w, i) || i == which
    {
      OrBit(w, Pow2(which), i);
      PowerBit(which, i);
    }
  }

  lemma {:induction false} NoLines()
    ensures Lines(0) == {}
  {
    forall i | 0 <= i < Model.NLINES
      ensures !Bit(0, i)
    {
      ShrZero(i);
    }
  }

  /** The loop over a snapshot: exactly its lines are served, each once, in order. */
  method ServeAll(isrcopy: nat) returns (served: seq<nat>)
    ensures forall i :: i in served <==> i in Lines(isrcopy)
    ensures forall j, k :: 0 <= j < k < |served| ==> served[j] < served[k]
  {
    served := [];
    var i := 0;
    while i < Model.NLINES
      invariant 0 <= i <= Model.NLINES
      invariant forall j :: j in served <==> j < i && j in Lines(isrcopy)
      invariant forall j, k :: 0 <= j < k < |served| ==> served[j] < served[k]
    {
      AndPower(isrcopy, i);
      if And(isrcopy, Pow2(i)) != 0 {
        assert forall j :: 0 <= j < |served| ==> served[j] in served;
        served := served + [i];
      }
      i := i + 1;
    }
  }
}
