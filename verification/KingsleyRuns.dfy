/** Whole runs of the allocator by well-behaved clients. */
module KingsleyRuns {

  import opened Bits
  import opened KingsleyModel
  import opened KingsleyInvariant
  import opened KingsleySteps
  import opened KingsleyCore
  import opened KingsleyAlloc
  import opened KingsleyRealloc

  /** What clients do: the calls of the allocator, pages taken directly from bmk_allocpg, and
      writing through a pointer, after which memory is `m`. */
  datatype Op =
    | Malloc(nbytes: nat, align: nat)
    | Free(p: nat)
    | Realloc(p: nat, nbytes: nat)
    | Pages(n: nat)
    | Write(p: nat, m: Memory)

  /** Clients free, resize and write only what they hold; sums and the page counter do not
      wrap; and a block with less than a header behind its pointer is not made to grow. */
  ghost predicate Legal(s: State, op: Op) {
    match op
    case Malloc(nbytes, align) => AllocLegal(s.h, nbytes, align)
    case Free(p) => p == 0 || (p in s.live && p < TWO32)
    case Realloc(p, nbytes) =>
      if p == 0 then AllocLegal(s.h, nbytes, 8)
      else if nbytes == 0 then p in s.live && p < TWO32
      else ReallocLegal(s, p, nbytes) && ResizeSafe(s.h.mem, p, nbytes)
    case Pages(n) => s.h.current + n < 0x10_0000
    case Write(p, m) => p in s.live && SameOutside(s.h.mem, m, Range(p, p + s.live[p].nbytes))
  }

  ghost function Exec(mc: Machine, s: State, op: Op): State
    requires Shaped(s.h) && Legal(s, op)
  {
    match op
    case Malloc(nbytes, align) => AfterAlloc(mc, s, nbytes, align)
    case Free(p) => AfterFree(s, p)
    case Realloc(p, nbytes) => AfterRealloc(mc, s, p, nbytes)
    case Pages(n) => AfterPages(mc, s, n)
    case Write(_, m) => Written(s, m)
  }

  /** Every pointer outside `except` is live as before. */
  ghost predicate StillLive(live: map<nat, Request>, live': map<nat, Request>, except: set<nat>) {
    forall p :: p in live && p !in except ==> p in live' && live'[p] == live[p]
  }

  /** The invariant holds, and all but `except` keep their pointers and their data. */
  ghost predicate Undisturbed(mc: Machine, s: State, s': State, except: set<nat>) {
    && Sound(mc, s') && StillLive(s.live, s'.live, except)
    && DataKept(s.live - except, s.h.mem, s'.h.mem)
  }

  lemma {:induction false} AllocStep(mc: Machine, s: State, s1: State, rv: nat, req: Request, except: set<nat>)
    requires Allocated(mc, s, s1, rv, req)
    ensures Undisturbed(mc, s, s1, except)
  {
    DataKeptSub(s.live, s.live - except, s.h.mem, s1.h.mem);
  }

  lemma {:induction false} FreeStep(mc: Machine, s: State, p: nat)
    requires Sound(mc, s) && p in s.live && p < TWO32
    ensures Undisturbed(mc, s, AfterFree(s, p), {p})
  {
    FreeKeeps(mc, s, p);
  }

  lemma {:induction false} HalfwayLive(mc: Machine, s: State, s1: State, p: nat, np: nat, nbytes: nat, u: nat)
    requires Shaped(s1.h) && p < TWO32 && Halfway(mc, s, s1, p, np, nbytes, u)
    ensures StillLive(s.live, (if np == 0 then s1 else MovedOver(s1, p, np, u)).live, {p})
  {
  }

  lemma {:induction false} ReallocLive(mc: Machine, s: State, p: nat, nbytes: nat)
    requires Sound(mc, s) && ReallocLegal(s, p, nbytes) && ResizeSafe(s.h.mem, p, nbytes)
    ensures StillLive(s.live, AfterRealloc(mc, s, p, nbytes).live, {p})
  {
    if nbytes <= Usable(s.h.mem, p) {
      InPlace(mc, s, p, nbytes);
    } else {
      var s1, np, u := MoveSteps(mc, s, p, nbytes);
      HalfwayLive(mc, s, s1, p, np, nbytes, u);
    }
  }

  lemma {:induction false} ReallocStep(mc: Machine, s: State, p: nat, nbytes: nat)
    requires Sound(mc, s) && ReallocLegal(s, p, nbytes) && ResizeSafe(s.h.mem, p, nbytes)
    ensures Undisturbed(mc, s, AfterRealloc(mc, s, p, nbytes), {p})
  {
    ReallocKeeps(mc, s, p, nbytes);
    ReallocLive(mc, s, p, nbytes);
  }

  lemma {:induction false} WriteStep(mc: Machine, s: State, p: nat, m': Memory)
    requires Sound(mc, s) && p in s.live && SameOutside(s.h.mem, m', Range(p, p + s.live[p].nbytes))
    ensures Undisturbed(mc, s, Written(s, m'), {p})
  {
    WriteKeeps(mc, s, p, m');
    WriteData(mc, s, p, m');
  }

  lemma {:induction false} PagesStep(mc: Machine, s: State, n: nat)
    requires Sound(mc, s) && s.h.current + n < 0x10_0000
    ensures Undisturbed(mc, s, AfterPages(mc, s, n), {})
  {
    PagesKeep(mc, s, n);
    PagesQuiet(mc, s, n);
    SelfKept(s.live, s.h.mem);
  }

  lemma {:induction false} PagesQuiet(mc: Machine, s: State, n: nat)
    ensures AfterPages(mc, s, n).live == s.live && AfterPages(mc, s, n).h.mem == s.h.mem
  {
  }

  lemma {:induction false} SelfKept(live: map<nat, Request>, m: Memory)
    ensures DataKept(live - {}, m, m)
  {
  }

  /** The pointers that an operation names. */
  function Names(op: Op): set<nat> {
    match op
    case Malloc(_, _) => {}
    case Free(p) => {p}
    case Realloc(p, _) => {p}
    case Pages(_) => {}
    case Write(p, _) => {p}
  }

  lemma {:induction false} MallocStep(mc: Machine, s: State, nbytes: nat, align: nat, except: set<nat>)
    requires Sound(mc, s) && AllocLegal(s.h, nbytes, align)
    ensures Undisturbed(mc, s, AfterAlloc(mc, s, nbytes, align), except)
  {
    AllocSafe(mc, s, nbytes, align);
    AllocStep(mc, s, AfterAlloc(mc, s, nbytes, align), MemAlloc(mc, s.h, nbytes, align).1,
              Request(nbytes, align), except);
  }

  lemma {:induction false} ReallocAny(mc: Machine, s: State, p: nat, nbytes: nat)
    requires Sound(mc, s) && Legal(s, Realloc(p, nbytes))
    ensures Undisturbed(mc, s, AfterRealloc(mc, s, p, nbytes), {p})
  {
    if p == 0 {
      NullUnfold(mc, s, nbytes);
      MallocStep(mc, s, nbytes, 8, {0});
    } else if nbytes == 0 {
      ZeroUnfold(mc, s, p);
      FreeStep(mc, s, p);
    } else {
      ReallocStep(mc, s, p, nbytes);
    }
  }

  lemma {:induction false} FreeAny(mc: Machine, s: State, p: nat)
    requires Sound(mc, s) && Legal(s, Free(p))
    ensures Undisturbed(mc, s, AfterFree(s, p), {p})
  {
    if p == 0 {
      NullFree(mc, s);
    } else {
      FreeStep(mc, s, p);
    }
  }

  lemma {:induction false} NullFree(mc: Machine, s: State)
    requires Sound(mc, s)
    ensures 0 !in s.live && AfterFree(s, 0) == s
  {
    if 0 in s.live {
      LivePlaced(mc, s, 0);
    }
    NullFreeNothing(s);
  }

  lemma {:induction false} NullFreeNothing(s: State)
    requires Shaped(s.h) && 0 !in s.live
    ensures AfterFree(s, 0) == s
  {
    assert s.live - {0} == s.live;
  }

  lemma {:induction false} StepMalloc(mc: Machine, s: State, op: Op)
    requires Sound(mc, s) && op.Malloc? && Legal(s, op)
    ensures Undisturbed(mc, s, Exec(mc, s, op), Names(op))
  {
    MallocStep(mc, s, op.nbytes, op.align, {});
  }

  lemma {:induction false} StepFree(mc: Machine, s: State, op: Op)
    requires Sound(mc, s) && op.Free? && Legal(s, op)
    ensures Undisturbed(mc, s, Exec(mc, s, op), Names(op))
  {
    FreeAny(mc, s, op.p);
  }

  lemma {:induction false} StepRealloc(mc: Machine, s: State, op: Op)
    requires Sound(mc, s) && op.Realloc? && Legal(s, op)
    ensures Undisturbed(mc, s, Exec(mc, s, op), Names(op))
  {
    ReallocAny(mc, s, op.p, op.nbytes);
  }

  /** Every legal operation keeps the invariant, and disturbs only the pointer it names. */
  lemma {:induction false} StepKeeps(mc: Machine, s: State, op: Op)
    requires Sound(mc, s) && Legal(s, op)
    ensures Undisturbed(mc, s, Exec(mc, s, op), Names(op))
  {
    match op
    case Malloc(_, _) => StepMalloc(mc, s, op);
    case Free(_) => StepFree(mc, s, op);
    case Realloc(_, _) => StepRealloc(mc, s, op);
    case Pages(n) => PagesStep(mc, s, n);
    case Write(p, m) => WriteStep(mc, s, p, m);
  }

  // ---- runs

  /** Before the first call: no free blocks, no pages handed out, page size not yet known. */
  function Start(m: Memory): State {
    State(Heap(m, seq(NBUCKETS, _ => 0), 0, 0, 0), map[], [], [])
  }

  lemma {:induction false} StartSound(mc: Machine, m: Memory)
    requires Boot(mc)
    ensures Sound(mc, Start(m))
  {
    var g := Layout(seq(NBUCKETS, _ => []), map[], map[]);
    StartChains(m, Start(m).h.nextf, g.lists);
    assert forall c :: Holds(mc, Start(m), g, c);
    assert Inv(mc, Start(m), g);
  }

  lemma {:induction false} StartChains(m: Memory, nextf: seq<nat>, lists: seq<seq<nat>>)
    requires nextf == seq(NBUCKETS, _ => 0) && lists == seq(NBUCKETS, _ => [])
    ensures Chains(m, nextf, lists) && Listed(lists, map[])
  {
  }

  /** A run in which every operation is legal when its turn comes. */
  ghost predicate LegalRun(mc: Machine, s: State, ops: seq<Op>)
    decreases |ops|
  {
    ops == [] || (Shaped(s.h) && Legal(s, ops[0]) && LegalRun(mc, Exec(mc, s, ops[0]), ops[1..]))
  }

  ghost function Run(mc: Machine, s: State, ops: seq<Op>): State
    requires LegalRun(mc, s, ops)
    decreases |ops|
  {
    if ops == [] then s else Run(mc, Exec(mc, s, ops[0]), ops[1..])
  }

  ghost function NamesAll(ops: seq<Op>): set<nat> {
    if ops == [] then {} else Names(ops[0]) + NamesAll(ops[1..])
  }

  lemma {:induction false} UndisturbedTrans(mc: Machine, s: State, s1: State, s2: State, a: set<nat>, b: set<nat>)
    requires Undisturbed(mc, s, s1, a) && Undisturbed(mc, s1, s2, b)
    ensures Undisturbed(mc, s, s2, a + b)
  {
    DataKeptSub(s.live - a, s.live - (a + b), s.h.mem, s1.h.mem);
    DataKeptSub(s1.live - b, s.live - (a + b), s1.h.mem, s2.h.mem);
    DataKeptTrans(s.live - (a + b), s.h.mem, s1.h.mem, s2.h.mem);
  }

  /** Over every legal run the invariant holds, and a pointer that no operation names keeps its
      place and its bytes. */
  lemma {:induction false} RunKeeps(mc: Machine, s: State, ops: seq<Op>)
    requires Sound(mc, s) && LegalRun(mc, s, ops)
    ensures Undisturbed(mc, s, Run(mc, s, ops), NamesAll(ops))
    decreases |ops|
  {
    if ops == [] {
      SelfUndisturbed(mc, s);
    } else {
      var s1 := Exec(mc, s, ops[0]);
      StepKeeps(mc, s, ops[0]);
      RunKeeps(mc, s1, ops[1..]);
      UndisturbedTrans(mc, s, s1, Run(mc, s1, ops[1..]), Names(ops[0]), NamesAll(ops[1..]));
    }
  }

  lemma {:induction false} SelfUndisturbed(mc: Machine, s: State)
    requires Sound(mc, s)
    ensures Undisturbed(mc, s, s, {})
  {
  }

  /** From boot, every legal run ends in a heap whose blocks tile the pages taken for them, each
      free or live, no two overlapping. */
  lemma {:induction false} RunSound(mc: Machine, m: Memory, ops: seq<Op>)
    requires Boot(mc) && LegalRun(mc, Start(m), ops)
    ensures Sound(mc, Run(mc, Start(m), ops))
  {
    StartSound(mc, m);
    RunKeeps(mc, Start(m), ops);
  }

  /** A block is free or live, never both, and free on one list only. */
  lemma {:induction false} BlockFate(g: Layout, b: nat, j: nat, k: nat)
    requires Listed(g.lists, g.blocks) && Owned(g) && Conserved(g) && b in g.blocks
    ensures IsFree(g, b) <==> !IsLive(g, b)
    ensures j < NBUCKETS && k < NBUCKETS && b in g.lists[j] && b in g.lists[k] ==> j == k
  {
    if IsLive(g, b) {
      var p :| p in g.base && g.base[p] == b;
      assert forall i :: 0 <= i < |g.lists| ==> g.base[p] !in g.lists[i];
    }
  }

  /** No address belongs to two blocks. */
  lemma {:induction false} AddressOnce(blocks: map<nat, Block>, a: nat, b: nat, c: nat)
    requires Disjoint(blocks) && b in blocks && c in blocks && b <= a < blocks[b].hi && c <= a < blocks[c].hi
    ensures b == c
  {
    if b != c {
      BlockApart(blocks, b, c);
    }
  }

  /** In every run two live pointers lie in different blocks, placed as their headers say, so
      neither headers nor data overlap. */
  lemma {:induction false} RunSeparates(mc: Machine, m: Memory, ops: seq<Op>, p: nat, q: nat)
    requires Boot(mc) && LegalRun(mc, Start(m), ops)
    requires p in Run(mc, Start(m), ops).live && q in Run(mc, Start(m), ops).live && p != q
    ensures var s := Run(mc, Start(m), ops);
            && Placed(s.h.mem, p, s.live[p]) && Placed(s.h.mem, q, s.live[q])
            && Apart(Extent(p, s.live[p]), Extent(q, s.live[q]))
  {
    var s := Run(mc, Start(m), ops);
    RunSound(mc, m, ops);
    LivePlaced(mc, s, p);
    LivePlaced(mc, s, q);
    LiveApart(mc, s, p, q);
  }
}
