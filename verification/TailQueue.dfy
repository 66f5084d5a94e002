/** Tail queues (the TAILQ macros of queue.h) as pointer operations.

    A cell is a place that holds a pointer to an element: the `tqh_first` of a head or the
    `tqe_next` of an entry.  As in the macros, `tqh_last` and `tqe_prev` hold the address of
    such a cell, so removal and insertion write through them without a case split. */
module TailQueue {

  import opened Basics

  class Cell {
    var ptr: Elem?

    constructor ()
      ensures ptr == null
    {
      ptr := null;
    }
  }

  class Elem {
    const next: Cell
    var prev: Cell?

    constructor ()
      ensures fresh(next)
    {
      next := new Cell();
      prev := null;
    }
  }

  /** The elements that stay when a loop over the queue removes those that `drop` selects. */
  function Kept(es: seq<Elem>, drop: Elem -> bool): seq<Elem> {
    if es == [] then []
    else Kept(es[..|es| - 1], drop) + if drop(es[|es| - 1]) then [] else [es[|es| - 1]]
  }

  /** `ls[i]` is the place that holds the pointer to `es[i]`; one more cell ends the list. */
  ghost predicate Chain(es: seq<Elem>, ls: seq<Cell>) {
    && |ls| == |es| + 1
    && (forall i, j :: 0 <= i < j < |ls| ==> ls[i] != ls[j])
    && (forall i, j :: 0 <= i < j < |es| ==> es[i] != es[j])
    && (forall i :: 0 <= i < |es| ==> es[i].next == ls[i + 1])
  }

  ghost predicate Within(es: seq<Elem>, ls: seq<Cell>, repr: set<object>) {
    (forall i :: 0 <= i < |es| ==> es[i] in repr) && (forall i :: 0 <= i < |ls| ==> ls[i] in repr)
  }

  /** Forward pointers and backward addresses agree. */
  ghost predicate Linked(es: seq<Elem>, ls: seq<Cell>, repr: set<object>)
    reads repr
  {
    && Chain(es, ls) && Within(es, ls, repr)
    && (forall i :: 0 <= i < |es| ==> es[i].prev == ls[i])
    && (forall i :: 0 <= i < |es| ==> ls[i].ptr == es[i])
    && ls[|es|].ptr == null
  }

  lemma {:induction false} CutChain(es: seq<Elem>, ls: seq<Cell>, i: nat)
    requires Chain(es, ls) && i < |es|
    ensures Chain(RemoveAt(es, i), RemoveAt(ls, i + 1))
    ensures es[i] !in RemoveAt(es, i) && ls[i + 1] !in RemoveAt(ls, i + 1)
  {
  }

  /** The pointers around `es[i]` bypass it. */
  ghost predicate Bypassing(es: seq<Elem>, ls: seq<Cell>, repr: set<object>, i: nat)
    requires i < |es|
    reads repr
  {
    && Chain(es, ls) && Within(es, ls, repr)
    && (forall k :: 0 <= k < |es| && k != i + 1 ==> es[k].prev == ls[k])
    && (i + 1 < |es| ==> es[i + 1].prev == ls[i])
    && (forall k :: 0 <= k < |es| && k != i ==> ls[k].ptr == es[k])
    && ls[i].ptr == (if i + 1 < |es| then es[i + 1] else null)
    && (i + 1 < |es| ==> ls[|es|].ptr == null)
  }

  lemma {:induction false} BypassedAt(es: seq<Elem>, ls: seq<Cell>, repr: set<object>, i: nat, k: nat)
    requires i < |es| && Bypassing(es, ls, repr, i) && k + 1 < |es|
    ensures RemoveAt(es, i)[k].prev == RemoveAt(ls, i + 1)[k] && RemoveAt(ls, i + 1)[k].ptr == RemoveAt(es, i)[k]
  {
    if k < i {
      assert RemoveAt(es, i)[k] == es[k] && RemoveAt(ls, i + 1)[k] == ls[k];
    } else if k == i {
      assert RemoveAt(es, i)[k] == es[i + 1] && RemoveAt(ls, i + 1)[k] == ls[i];
    } else {
      assert RemoveAt(es, i)[k] == es[k + 1] && RemoveAt(ls, i + 1)[k] == ls[k + 1];
    }
  }

  lemma {:induction false} CutWithin(es: seq<Elem>, ls: seq<Cell>, repr: set<object>, i: nat)
    requires i < |es| && |ls| == |es| + 1 && Within(es, ls, repr)
    ensures Within(RemoveAt(es, i), RemoveAt(ls, i + 1), repr)
  {
  }

  /** A chain that bypasses an element is a chain without it. */
  lemma {:induction false} Bypassed(es: seq<Elem>, ls: seq<Cell>, repr: set<object>, i: nat)
    requires i < |es| && Bypassing(es, ls, repr, i)
    ensures Linked(RemoveAt(es, i), RemoveAt(ls, i + 1), repr)
  {
    var es', ls' := RemoveAt(es, i), RemoveAt(ls, i + 1);
    CutChain(es, ls, i);
    CutWithin(es, ls, repr, i);
    forall k | 0 <= k < |es'|
      ensures es'[k].prev == ls'[k] && ls'[k].ptr == es'[k]
    {
      BypassedAt(es, ls, repr, i, k);
    }
    assert ls'[|es'|] == if i + 1 == |es| then ls[i] else ls[|es|];
  }

  /** The sequences that a new first element makes, index by index. */
  lemma {:induction false} Grown(es: seq<Elem>, ls: seq<Cell>, e: Elem, repr: set<object>)
    requires Chain(es, ls) && e !in es && e.next !in ls && Within(es, ls, repr) && e in repr && e.next in repr
    ensures var es', ls' := [e] + es, [ls[0], e.next] + ls[1..];
            && Chain(es', ls') && Within(es', ls', repr)
            && (forall k :: 1 < k < |ls'| ==> ls'[k] == ls[k - 1])
            && (forall k :: 0 < k < |es'| ==> es'[k] == es[k - 1])
  {
  }

  /** A new element is linked in front of a chain whose head cell is `ls[0]`. */
  lemma {:induction false} Prepended(es: seq<Elem>, ls: seq<Cell>, repr: set<object>, e: Elem)
    requires Chain(es, ls) && e !in es && e.next !in ls && Within(es, ls, repr) && e in repr && e.next in repr
    requires e.prev == ls[0] && ls[0].ptr == e
    requires forall k :: 0 < k < |es| ==> es[k].prev == ls[k] && ls[k].ptr == es[k]
    requires if es == [] then e.next.ptr == null
             else es[0].prev == e.next && e.next.ptr == es[0] && ls[|es|].ptr == null
    ensures Linked([e] + es, [ls[0], e.next] + ls[1..], repr)
  {
    var es', ls' := [e] + es, [ls[0], e.next] + ls[1..];
    Grown(es, ls, e, repr);
    forall k | 0 <= k < |es'|
      ensures es'[k].prev == ls'[k] && ls'[k].ptr == es'[k]
    {
      if 1 < k {
        assert es'[k] == es[k - 1] && ls'[k] == ls[k - 1];
      }
    }
    assert ls'[|es'|].ptr == null;
  }

  /** A new element is linked behind the last one. */
  lemma {:induction false} Appended(es: seq<Elem>, ls: seq<Cell>, repr: set<object>, e: Elem)
    requires Chain(es, ls) && e !in es && e.next !in ls && Within(es, ls, repr) && e in repr && e.next in repr
    requires forall k :: 0 <= k < |es| ==> es[k].prev == ls[k] && ls[k].ptr == es[k]
    requires e.prev == ls[|es|] && ls[|es|].ptr == e && e.next.ptr == null
    ensures Linked(es + [e], ls + [e.next], repr)
  {
  }

  /** A queue head.  The ghost arguments of its operations are the elements in order, the
      cells that point at them, and the objects the queue is made of. */
  class Queue {
    const first: Cell
    var last: Cell

    ghost predicate Valid(es: seq<Elem>, ls: seq<Cell>, repr: set<object>)
      reads this, repr
    {
      Linked(es, ls, repr) && ls[0] == first && last == ls[|es|]
    }

    /** TAILQ_INIT */
    constructor ()
      ensures fresh(first) && Valid([], [first], {first})
    {
      first := new Cell();
      last := first;
    }

    /** TAILQ_INSERT_HEAD */
    method InsertHead(e: Elem, ghost es: seq<Elem>, ghost ls: seq<Cell>, ghost repr: set<object>)
      requires Valid(es, ls, repr) && e !in es && e.next !in ls && e in repr && e.next in repr
      modifies this`last, es, ls, e, e.next
      ensures Valid([e] + es, [first, e.next] + ls[1..], repr)
    {
      e.next.ptr := first.ptr;
      if e.next.ptr != null {
        first.ptr.prev := e.next;
      } else {
        last := e.next;
      }
      first.ptr := e;
      e.prev := first;
      Prepended(es, ls, repr, e);
    }

    /** TAILQ_INSERT_TAIL */
    method InsertTail(e: Elem, ghost es: seq<Elem>, ghost ls: seq<Cell>, ghost repr: set<object>)
      requires Valid(es, ls, repr) && e !in es && e.next !in ls && e in repr && e.next in repr
      modifies this`last, es, ls, e, e.next
      ensures Valid(es + [e], ls + [e.next], repr)
    {
      e.next.ptr := null;
      e.prev := last;
      last.ptr := e;
      last := e.next;
      Appended(es, ls, repr, e);
    }

    /** The pointer writes of TAILQ_REMOVE. */
    method Unlink(e: Elem, ghost es: seq<Elem>, ghost ls: seq<Cell>, ghost repr: set<object>, ghost i: nat)
      requires Valid(es, ls, repr) && i < |es| && es[i] == e
      modifies this`last, es, ls
      ensures Bypassing(es, ls, repr, i)
      ensures last == if i + 1 == |es| then ls[i] else ls[|es|]
    {
      assert e.next == ls[i + 1] && e.prev == ls[i];
      if e.next.ptr != null {
        assert i + 1 < |es| && e.next.ptr == es[i + 1];
        e.next.ptr.prev := e.prev;
      } else {
        assert i + 1 == |es|;
        last := e.prev;
      }
      e.prev.ptr := e.next.ptr;
    }

    /** TAILQ_REMOVE */
    method Remove(e: Elem, ghost es: seq<Elem>, ghost ls: seq<Cell>, ghost repr: set<object>, ghost i: nat)
      requires Valid(es, ls, repr) && i < |es| && es[i] == e
      modifies this`last, es, ls
      ensures Valid(RemoveAt(es, i), RemoveAt(ls, i + 1), repr)
    {
      Unlink(e, es, ls, repr, i);
      Bypassed(es, ls, repr, i);
    }

    /** The way the scheduler rotates its run queue: TAILQ_REMOVE, then TAILQ_INSERT_TAIL. */
    method MoveToTail(e: Elem, ghost es: seq<Elem>, ghost ls: seq<Cell>, ghost repr: set<object>, ghost i: nat)
      requires Valid(es, ls, repr) && i < |es| && es[i] == e
      modifies this`last, repr
      ensures Valid(RemoveAt(es, i) + [e], RemoveAt(ls, i + 1) + [e.next], repr)
    {
      assert e.next == ls[i + 1];
      CutChain(es, ls, i);
      Remove(e, es, ls, repr, i);
      InsertTail(e, RemoveAt(es, i), RemoveAt(ls, i + 1), repr);
    }

    /** One turn of TAILQ_FOREACH_SAFE: read the next pointer, then let the body remove. */
    method Visit(e: Elem, remove: bool,
                 ghost es: seq<Elem>, ghost ls: seq<Cell>, ghost repr: set<object>, ghost i: nat)
      returns (next: Elem?, ghost left: seq<Cell>)
      requires Valid(es, ls, repr) && i < |es| && es[i] == e
      modifies this`last, repr
      ensures next == if i + 1 < |es| then es[i + 1] else null
      ensures Valid(if remove then RemoveAt(es, i) else es, left, repr)
    {
      assert e.next == ls[i + 1];
      next := e.next.ptr;
      left := ls;
      if remove {
        Remove(e, es, ls, repr, i);
        left := RemoveAt(ls, i + 1);
      }
    }

    /** The same turn, seen from the loop. */
    method Turn(e: Elem, drop: Elem -> bool, ghost es: seq<Elem>, ghost visited: seq<Elem>,
                ghost now: seq<Elem>, ghost ls: seq<Cell>, ghost repr: set<object>)
      returns (next: Elem?, ghost after: seq<Elem>, ghost left: seq<Cell>)
      requires Valid(now, ls, repr) && Midway(es, visited, drop, now, e)
      modifies this`last, repr
      ensures Valid(after, left, repr) && Midway(es, visited + [e], drop, after, next)
    {
      MidwayStep(es, visited, drop, now, e);
      next, left := Visit(e, drop(e), now, ls, repr, |Kept(visited, drop)|);
      after := if drop(e) then RemoveAt(now, |Kept(visited, drop)|) else now;
    }

    /** TAILQ_FOREACH_SAFE with a body that may remove the current element: every element is
        visited once, in order, and exactly the selected ones are gone. */
    method ForeachSafe(drop: Elem -> bool, ghost es: seq<Elem>, ghost ls: seq<Cell>, ghost repr: set<object>)
      returns (visited: seq<Elem>, ghost left: seq<Cell>)
      requires Valid(es, ls, repr)
      modifies this`last, repr
      ensures visited == es && Valid(Kept(es, drop), left, repr)
    {
      ghost var now := es;
      left := ls;
      visited := [];
      MidwayStart(es, drop);
      var e := first.ptr;
      while e != null
        invariant Midway(es, visited, drop, now, e)
        invariant Valid(now, left, repr)
        decreases |es| - |visited|
      {
        var elem: Elem := e;
        e, now, left := Turn(elem, drop, es, visited, now, left, repr);
        visited := visited + [elem];
      }
      MidwayEnd(es, visited, drop, now);
    }
  }

  /** The loop has visited some elements; those of them that stay come first in the queue, the
      rest of it is untouched, and `e` is where the loop goes on. */
  ghost predicate Midway(es: seq<Elem>, visited: seq<Elem>, drop: Elem -> bool, now: seq<Elem>, e: Elem?) {
    var n := |visited|;
    && n <= |es| && visited == es[..n] && now == Kept(visited, drop) + es[n..]
    && e == if n < |es| then es[n] else null
  }

  lemma {:induction false} MidwayStart(es: seq<Elem>, drop: Elem -> bool)
    ensures Midway(es, [], drop, es, if es == [] then null else es[0])
  {
    assert [] + es[0..] == es;
  }

  lemma {:induction false} CutMiddle(kept: seq<Elem>, e: Elem, rest: seq<Elem>)
    ensures RemoveAt(kept + ([e] + rest), |kept|) == kept + rest
    ensures (kept + [e]) + rest == kept + ([e] + rest)
  {
  }

  lemma {:induction false} MidwayNext(es: seq<Elem>, visited: seq<Elem>, drop: Elem -> bool, now: seq<Elem>, e: Elem)
    requires Midway(es, visited, drop, now, e)
    ensures var i, n := |Kept(visited, drop)|, |visited| + 1;
            && n <= |es| && i < |now| && now[i] == e && es[..n] == visited + [e]
            && (if i + 1 < |now| then now[i + 1] else null) == (if n < |es| then es[n] else null)
  {
  }

  lemma {:induction false} MidwayStep(es: seq<Elem>, visited: seq<Elem>, drop: Elem -> bool, now: seq<Elem>, e: Elem)
    requires Midway(es, visited, drop, now, e)
    ensures var i := |Kept(visited, drop)|;
            && i < |now| && now[i] == e
            && Midway(es, visited + [e], drop, if drop(e) then RemoveAt(now, i) else now,
                      if i + 1 < |now| then now[i + 1] else null)
  {
    var rest := es[|visited| + 1..];
    MidwayNext(es, visited, drop, now, e);
    KeptStep(visited, e, drop);
    assert es[|visited|..] == [e] + rest;
    CutMiddle(Kept(visited, drop), e, rest);
  }

  lemma {:induction false} MidwayEnd(es: seq<Elem>, visited: seq<Elem>, drop: Elem -> bool, now: seq<Elem>)
    requires Midway(es, visited, drop, now, null)
    ensures visited == es && now == Kept(es, drop)
  {
  }

  lemma {:induction false} KeptStep(es: seq<Elem>, e: Elem, drop: Elem -> bool)
    ensures Kept(es + [e], drop) == Kept(es, drop) + if drop(e) then [] else [e]
  {
    assert (es + [e])[..|es|] == es;
  }

  /** What stays is exactly what was not selected. */
  lemma {:induction false} KeptMembers(es: seq<Elem>, drop: Elem -> bool, e: Elem)
    ensures e in Kept(es, drop) <==> e in es && !drop(e)
  {
    if es == [] {
    } else {
      KeptMembers(es[..|es| - 1], drop, e);
      assert es == es[..|es| - 1] + [es[|es| - 1]];
    }
  }
}
