/** Runs from boot in which bmk_memrealloc falls short of what its callers expect. */
module KingsleyWitness {

  import opened Basics
  import opened Bits
  import opened KingsleyModel
  import opened KingsleyInvariant
  import opened KingsleySteps
  import opened KingsleyCore
  import opened KingsleyAlloc
  import opened KingsleyRealloc
  import opened KingsleyRuns

  lemma {:induction false} RunCons(mc: Machine, s: State, op: Op, ops: seq<Op>)
    requires Shaped(s.h) && Legal(s, op) && LegalRun(mc, Exec(mc, s, op), ops)
    ensures LegalRun(mc, s, [op] + ops) && Run(mc, s, [op] + ops) == Run(mc, Exec(mc, s, op), ops)
  {
    assert ([op] + ops)[1..] == ops;
  }

  /** The sizes that the runs below use. */
  lemma {:induction false} Sample()
    ensures !BadAlign(8) && !BadAlign(32) && EffectiveAlign(8) == 8 && EffectiveAlign(32) == 32
    ensures RoundUp(OVERHEAD, 8) == 8 && RoundUp(OVERHEAD, 32) == 32
    ensures Bucket(32) == Some(0) && Bucket(108) == Some(2)
  {
    KnownPowers();
    HeaderRoom(3);
    HeaderRoom(5);
    Sizes();
    BucketLeast(32);
    BucketLeast(108);
    SampleBuckets(Bucket(32).value, Bucket(108).value);
    assert And(8, 7) == 0 && And(32, 31) == 0;
  }

  lemma {:induction false} SampleBuckets(j: nat, k: nat)
    requires 32 <= Size(j) && (0 < j ==> Size(j - 1) < 32)
    requires 108 <= Size(k) && (0 < k ==> Size(k - 1) < 108)
    ensures j == 0 && k == 2
  {
    if 0 < j {
      SizeAtLeast(j - 1);
    }
    assert Size(0) == 32 && Size(1) == 64 && Size(2) == 128;
    if 3 <= k {
      PowMonotone(7, k - 1 + MINSHIFT);
    }
  }

  /** The first allocation after boot, from the smallest bucket. */
  lemma {:induction false} FirstMalloc(mc: Machine, m: Memory, req: Request) returns (p: nat)
    requires Boot(mc) && PAGE_SIZE <= mc.memsize && req.nbytes < TWO32 && req.align < TWO32 && !BadAlign(req.align)
    requires 0 < EffectiveAlign(req.align) < TWO32
    requires req.nbytes + RoundUp(OVERHEAD, EffectiveAlign(req.align)) == 32
    ensures Legal(Start(m), Malloc(req.nbytes, req.align))
    ensures var s := Exec(mc, Start(m), Malloc(req.nbytes, req.align));
            && Sound(mc, s) && s.live == map[p := req] && p != 0 && s.h.current == 1
            && Placed(s.h.mem, p, req) && Least(Index(s.h.mem, p), 32)
  {
    var s0 := Start(m);
    Sample();
    StartSound(mc, m);
    p := MemAlloc(mc, s0.h, req.nbytes, req.align).1;
    AllocKeeps(mc, s0, req.nbytes, req.align);
    AllocPlaces(mc, s0, req.nbytes, req.align);
    AllocCounter(mc, s0, req.nbytes, req.align, 0);
  }

  /** With one page taken and another left, 100 bytes more can be had. */
  lemma {:induction false} SecondServes(mc: Machine, s: State)
    requires Sound(mc, s) && s.h.current == 1 && 2 * PAGE_SIZE <= mc.memsize
    ensures AllocLegal(s.h, 100, 8) && MemAlloc(mc, s.h, 100, 8).1 != 0
  {
    Sample();
    AllocKeeps(mc, s, 100, 8);
  }

  lemma {:induction false} MoveStarts(mc: Machine, s: State, p: nat) returns (np: nat)
    requires Sound(mc, s) && s.h.current == 1 && 2 * PAGE_SIZE <= mc.memsize
    requires p in s.live && s.live[p] == Request(24, 8) && Least(Index(s.h.mem, p), 32)
    ensures Usable(s.h.mem, p) == 16 && AboutToMove(mc, s, p, 100, np)
  {
    LivePlaced(mc, s, p);
    ShortMove(s.h.mem, p);
    SecondServes(mc, s);
    MoveUnfold(mc, s.h, p, 100);
    np := MemRealloc(mc, s.h, p, 100).1;
  }

  /** After the move the client holds the new pointer and nothing else. */
  lemma {:induction false} MoveEnds(mc: Machine, s: State, p: nat, np: nat)
    requires AboutToMove(mc, s, p, 100, np) && s.live.Keys == {p}
    ensures AfterRealloc(mc, s, p, 100).live == map[np := Request(100, 8)]
  {
    MoveNew(mc, s, p, 100, np);
    assert (s.live - {p})[np := Request(100, 8)] == map[np := Request(100, 8)];
  }

  /** Writing through `p` and then asking for 100 bytes is legal, and loses byte 16. */
  ghost predicate Loses(mc: Machine, s: State, p: nat, m': Memory, np: nat) {
    var ops := [Write(p, m'), Realloc(p, 100)];
    && LegalRun(mc, s, ops) && Run(mc, s, ops).live == map[np := Request(100, 8)]
    && At(Run(mc, s, ops).h.mem, np + 16) != At(m', p + 16)
  }

  lemma {:induction false} MoveRun(mc: Machine, s: State, p: nat, np: nat)
    requires AboutToMove(mc, s, p, 100, np)
    ensures LegalRun(mc, s, [Realloc(p, 100)]) && Run(mc, s, [Realloc(p, 100)]) == AfterRealloc(mc, s, p, 100)
  {
    RunCons(mc, s, Realloc(p, 100), []);
  }

  lemma {:induction false} WriteRun(mc: Machine, s: State, p: nat, m': Memory, op: Op, end: State)
    requires Shaped(s.h) && p in s.live && SameOutside(s.h.mem, m', Range(p, p + s.live[p].nbytes))
    requires LegalRun(mc, Written(s, m'), [op]) && Run(mc, Written(s, m'), [op]) == end
    ensures LegalRun(mc, s, [Write(p, m'), op]) && Run(mc, s, [Write(p, m'), op]) == end
  {
    RunCons(mc, s, Write(p, m'), [op]);
  }

  lemma {:induction false} WriteAndMove(mc: Machine, s: State, p: nat, np: nat, m': Memory, end: State)
    requires AboutToMove(mc, s, p, 100, np) && s.live == map[p := Request(24, 8)]
    requires SameOutside(s.h.mem, m', Range(p, p + 24)) && end == AfterRealloc(mc, Written(s, m'), p, 100)
    requires At(end.h.mem, np + 16) != At(m', p + 16)
    ensures Loses(mc, s, p, m', np)
  {
    var s2 := Written(s, m');
    MoveAnyway(mc, s, p, 100, np, m');
    MoveEnds(mc, s2, p, np);
    MoveRun(mc, s2, p, np);
    WriteRun(mc, s, p, m', Realloc(p, 100), end);
  }

  lemma {:induction false} MoveLosesAt(mc: Machine, s: State, p: nat, np: nat) returns (m': Memory, end: State)
    requires AboutToMove(mc, s, p, 100, np) && s.live[p].nbytes == 24 && Usable(s.h.mem, p) == 16
    ensures SameOutside(s.h.mem, m', Range(p, p + 24)) && end == AfterRealloc(mc, Written(s, m'), p, 100)
    ensures At(end.h.mem, np + 16) != At(m', p + 16)
  {
    m' := MoveLosesByte(mc, s, p, 100, np, 16);
    end := AfterRealloc(mc, Written(s, m'), p, 100);
  }

  lemma {:induction false} MoveLosesHere(mc: Machine, s: State, p: nat, np: nat) returns (m': Memory)
    requires AboutToMove(mc, s, p, 100, np) && s.live == map[p := Request(24, 8)] && Usable(s.h.mem, p) == 16
    ensures Loses(mc, s, p, m', np)
  {
    var end;
    m', end := MoveLosesAt(mc, s, p, np);
    WriteAndMove(mc, s, p, np, m', end);
    var loses := Loses(mc, s, p, m', np);
    assert loses;
  }

  lemma {:induction false} MoveLosesFrom(mc: Machine, s: State, p: nat) returns (m': Memory, np: nat)
    requires Sound(mc, s) && s.h.current == 1 && 2 * PAGE_SIZE <= mc.memsize
    requires s.live == map[p := Request(24, 8)] && Least(Index(s.h.mem, p), 32)
    ensures Loses(mc, s, p, m', np)
  {
    np := MoveStarts(mc, s, p);
    m' := MoveLosesHere(mc, s, p, np);
  }

  /** On every machine with two pages, whatever memory holds at boot: a client allocates 24 bytes,
      writes to them, and asks for 100.  It is moved, and its byte at offset 16 is gone. */
  lemma {:induction false} MoveLosesInRun(mc: Machine, m: Memory) returns (p: nat, m': Memory, np: nat)
    requires Boot(mc) && 2 * PAGE_SIZE <= mc.memsize
    ensures LegalRun(mc, Start(m), [Malloc(24, 8)])
    ensures Run(mc, Start(m), [Malloc(24, 8)]).live == map[p := Request(24, 8)]
    ensures var ops := [Malloc(24, 8), Write(p, m'), Realloc(p, 100)];
            && LegalRun(mc, Start(m), ops)
            && Run(mc, Start(m), ops).live == map[np := Request(100, 8)]
            && At(Run(mc, Start(m), ops).h.mem, np + 16) != At(m', p + 16)
  {
    Sample();
    p := FirstMalloc(mc, m, Request(24, 8));
    m', np := MoveLosesFrom(mc, Exec(mc, Start(m), Malloc(24, 8)), p);
    RunCons(mc, Start(m), Malloc(24, 8), []);
    RunCons(mc, Start(m), Malloc(24, 8), [Write(p, m'), Realloc(p, 100)]);
    assert [Malloc(24, 8)] + [Write(p, m'), Realloc(p, 100)] == [Malloc(24, 8), Write(p, m'), Realloc(p, 100)];
  }

  /** On every machine with a page: a client allocates nothing on a 32-byte boundary and asks for
      any size up to 2^32 - 8.  The same pointer comes back, the block behind it has no room at
      all, and what the client now believes to hold has no layout. */
  lemma {:induction false} GrowthUnsafeInRun(mc: Machine, m: Memory, nbytes: nat) returns (p: nat)
    requires Boot(mc) && PAGE_SIZE <= mc.memsize && 0 < nbytes <= TWO32 - 8
    ensures LegalRun(mc, Start(m), [Malloc(0, 32)])
    ensures var s := Run(mc, Start(m), [Malloc(0, 32)]);
            && s.live == map[p := Request(0, 32)] && 0 < p < TWO32 && Room(s.h.mem, p) == 0
            && MemRealloc(mc, s.h, p, nbytes) == (s.h, p)
            && AfterRealloc(mc, s, p, nbytes).live == map[p := Request(nbytes, 32)]
            && !Sound(mc, AfterRealloc(mc, s, p, nbytes))
  {
    Sample();
    p := FirstMalloc(mc, m, Request(0, 32));
    var s := Exec(mc, Start(m), Malloc(0, 32));
    RunCons(mc, Start(m), Malloc(0, 32), []);
    GrowthUnsafe(mc, s, p, nbytes);
  }

  lemma {:induction false} GrowthUnsafe(mc: Machine, s: State, p: nat, nbytes: nat)
    requires Sound(mc, s) && s.live == map[p := Request(0, 32)] && Least(Index(s.h.mem, p), 32)
    requires 0 < nbytes <= TWO32 - 8
    ensures 0 < p < TWO32 && Room(s.h.mem, p) == 0 && MemRealloc(mc, s.h, p, nbytes) == (s.h, p)
    ensures AfterRealloc(mc, s, p, nbytes).live == map[p := Request(nbytes, 32)]
    ensures !Sound(mc, AfterRealloc(mc, s, p, nbytes))
  {
    LivePlaced(mc, s, p);
    NoRoom(s.h.mem, p);
    InPlace(mc, s, p, nbytes);
    InPlaceExact(mc, s, p, nbytes);
  }
}
