/** What several models need: an optional value, and sequences as lists. */
module Basics {

  datatype Option<T> = None | Some(value: T)

  ghost predicate Distinct<T>(l: seq<T>) {
    forall i, j :: 0 <= i < j < |l| ==> l[i] != l[j]
  }

  /** Where an element is first found. */
  function IndexOf<T(==)>(l: seq<T>, x: T): (i: nat)
    requires x in l
    ensures i < |l| && l[i] == x
  {
    if l[0] == x then 0 else 1 + IndexOf(l[1..], x)
  }

  function RemoveAt<T>(l: seq<T>, i: nat): (r: seq<T>)
    requires i < |l|
    ensures |r| == |l| - 1
    ensures forall k :: 0 <= k < |r| ==> r[k] == if k < i then l[k] else l[k + 1]
  {
    l[..i] + l[i + 1..]
  }

  /** The list without an element, wherever it is. */
  function Without<T(==)>(l: seq<T>, x: T): seq<T> {
    if x in l then RemoveAt(l, IndexOf(l, x)) else l
  }

  lemma {:induction false} WithoutFacts<T(!new)>(l: seq<T>, x: T)
    requires Distinct(l)
    ensures Distinct(Without(l, x)) && forall y :: y in Without(l, x) <==> y in l && y != x
  {
    if x in l {
      var i := IndexOf(l, x);
      var m := RemoveAt(l, i);
      forall y | y in l && y != x
        ensures y in m
      {
        var j :| 0 <= j < |l| && l[j] == y;
        assert j < i ==> m[j] == y;
        assert j > i ==> m[j - 1] == y;
      }
    }
  }

  lemma {:induction false} IndexUnique<T>(l: seq<T>, x: T, i: nat)
    requires Distinct(l) && i < |l| && l[i] == x
    ensures IndexOf(l, x) == i
  {
  }
}
