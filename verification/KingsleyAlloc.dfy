/** What bmk_memalloc promises: the invariant, everybody's data, and where the pointer lies. */
module KingsleyAlloc {

  import opened Basics
  import opened Bits
  import opened KingsleyModel
  import opened KingsleyInvariant
  import opened KingsleySteps
  import opened KingsleyCore

  // ---- bmk_memalloc

  /** The sum of request and header does not wrap, and the page counter stays below the point
      where its product with the page size would. */
  ghost predicate AllocLegal(h: Heap, nbytes: nat, align: nat) {
    && nbytes < TWO32 && align < TWO32
    && (!BadAlign(align) ==>
          && nbytes + RoundUp(OVERHEAD, EffectiveAlign(align)) < TWO32
          && CounterRoom(h, nbytes + RoundUp(OVERHEAD, EffectiveAlign(align))))
  }

  ghost predicate CounterRoom(h: Heap, need: nat) {
    Bucket(need).Some? && |h.nextf| == NBUCKETS && h.nextf[Bucket(need).value] == 0 ==>
      h.current + CorePages(Bucket(need).value) < 0x10_0000
  }

  function AfterAlloc(mc: Machine, s: State, nbytes: nat, align: nat): State
    requires Shaped(s.h) && nbytes < TWO32 && align < TWO32
  {
    var (h, rv) := MemAlloc(mc, s.h, nbytes, align);
    Client(s, s.core + AllocCore(mc, s.h, nbytes, align), h, rv, Request(nbytes, align))
  }

  /** The page range, if any, that an allocation makes morecore take. */
  function AllocCore(mc: Machine, h: Heap, nbytes: nat, align: nat): seq<Range>
    requires Shaped(h) && nbytes < TWO32 && align < TWO32
  {
    if BadAlign(align) then []
    else match Bucket(Need(nbytes, EffectiveAlign(align)))
      case None => []
      case Some(k) => BucketCore(mc, h, k)
  }

  function BucketCore(mc: Machine, h: Heap, k: nat): seq<Range>
    requires Shaped(h) && k < NBUCKETS
  {
    if h.nextf[k] == 0 then CoreRange(mc, h, k) else []
  }

  /** An allocation kept the invariant and everybody's data; a pointer it returned is new. */
  ghost predicate Allocated(mc: Machine, s: State, s1: State, rv: nat, req: Request) {
    && Sound(mc, s1) && DataKept(s.live, s.h.mem, s1.h.mem)
    && (if rv == 0 then s1.live == s.live else rv !in s.live && s1.live == s.live[rv := req])
  }

  lemma {:induction false} InitKeeps(mc: Machine, s: State)
    requires Sound(mc, s)
    ensures Sound(mc, Inited(s))
  {
    var g :| Inv(mc, s, g);
    forall c
      ensures Holds(mc, Inited(s), g, c)
    {
      assert Holds(mc, s, g, c);
    }
    assert Inv(mc, Inited(s), g);
  }

  lemma {:induction false} DataKeptTrans(live: map<nat, Request>, m: Memory, m': Memory, m'': Memory)
    requires DataKept(live, m, m') && DataKept(live, m', m'')
    ensures DataKept(live, m, m'')
  {
    forall p | p in live
      ensures SameWithin(m, m'', Extent(p, live[p]))
    {
      assert SameWithin(m, m', Extent(p, live[p])) && SameWithin(m', m'', Extent(p, live[p]));
    }
  }

  /** An empty list is refilled first. */
  function Refilled(mc: Machine, s: State, k: nat): State
    requires Shaped(s.h) && k < NBUCKETS
  {
    if s.h.nextf[k] == 0 then AfterCore(mc, s, k) else s
  }

  lemma {:induction false} RefillKeeps(mc: Machine, s: State, k: nat)
    requires Sound(mc, s) && k <= 26 && (s.h.nextf[k] == 0 ==> s.h.current + CorePages(k) < 0x10_0000)
    ensures Sound(mc, Refilled(mc, s, k)) && DataKept(s.live, s.h.mem, Refilled(mc, s, k).h.mem)
  {
    if s.h.nextf[k] == 0 {
      MoreCoreKeeps(mc, s, k);
    }
  }

  /** From the state with a block on the list: take it. */
  lemma {:induction false} TakeAllocated(mc: Machine, s: State, s': State, k: nat, req: Request)
    requires Sound(mc, s') && s'.live == s.live && DataKept(s.live, s.h.mem, s'.h.mem)
    requires k <= 26 && s'.h.nextf[k] != 0
    requires req.align < TWO32 && !BadAlign(req.align) && 0 < EffectiveAlign(req.align) < TWO32
    requires req.nbytes + RoundUp(OVERHEAD, EffectiveAlign(req.align)) <= Size(k)
    ensures var rv := Take(s'.h, k, EffectiveAlign(req.align)).1;
            rv != 0 && Allocated(mc, s, AfterTake(s', k, req), rv, req)
  {
    TakeKeeps(mc, s', k, req);
    DataKeptTrans(s.live, s.h.mem, s'.h.mem, AfterTake(s', k, req).h.mem);
  }

  /** What the chosen bucket makes of an allocation. */
  function FromBucket(mc: Machine, h: Heap, k: nat, al: nat): (Heap, nat)
    requires Shaped(h) && k <= 26 && 0 < al < TWO32
  {
    var h' := if h.nextf[k] == 0 then MoreCore(mc, h, k) else h;
    if h'.nextf[k] == 0 then (h', 0) else Take(h', k, al)
  }

  lemma {:induction false} AllocByBucket(mc: Machine, h: Heap, nbytes: nat, align: nat)
    requires Shaped(h) && nbytes < TWO32 && align < TWO32
    ensures 0 < EffectiveAlign(align) < TWO32
    ensures MemAlloc(mc, h, nbytes, align) ==
            if BadAlign(align) then (PageInit(h), 0)
            else match Bucket(Need(nbytes, EffectiveAlign(align)))
              case None => (PageInit(h), 0)
              case Some(k) => FromBucket(mc, PageInit(h), k, EffectiveAlign(align))
  {
  }

  lemma {:induction false} AllocUnfold(mc: Machine, h: Heap, nbytes: nat, align: nat)
    requires Shaped(h) && nbytes < TWO32 && align < TWO32
    ensures BadAlign(align) ==> MemAlloc(mc, h, nbytes, align) == (PageInit(h), 0)
    ensures !BadAlign(align) && nbytes + RoundUp(OVERHEAD, EffectiveAlign(align)) < TWO32 ==>
              MemAlloc(mc, h, nbytes, align) ==
              match Bucket(nbytes + RoundUp(OVERHEAD, EffectiveAlign(align)))
              case None => (PageInit(h), 0)
              case Some(k) => FromBucket(mc, PageInit(h), k, EffectiveAlign(align))
  {
    AllocByBucket(mc, h, nbytes, align);
  }

  /** The same, with what the client holds. */
  lemma {:induction false} BucketState(mc: Machine, s: State, k: nat, req: Request, h: Heap, rv: nat)
    requires Shaped(s.h) && k <= 26 && 0 < EffectiveAlign(req.align) < TWO32
    requires (h, rv) == FromBucket(mc, s.h, k, EffectiveAlign(req.align))
    ensures var s' := Refilled(mc, s, k);
            var s1 := Client(s, s.core + BucketCore(mc, s.h, k), h, rv, req);
            if s'.h.nextf[k] == 0 then rv == 0 && s1 == s'
            else rv == Take(s'.h, k, EffectiveAlign(req.align)).1 && (rv != 0 ==> s1 == AfterTake(s', k, req))
  {
    assert s.core + [] == s.core;
  }

  lemma {:induction false} BucketKeeps(mc: Machine, s: State, k: nat, req: Request, s': State, s1: State, rv: nat)
    requires Sound(mc, s) && k <= 26 && req.align < TWO32 && !BadAlign(req.align)
    requires 0 < EffectiveAlign(req.align) < TWO32
    requires req.nbytes + RoundUp(OVERHEAD, EffectiveAlign(req.align)) <= Size(k)
    requires Sound(mc, s') && s'.live == s.live && DataKept(s.live, s.h.mem, s'.h.mem)
    requires if s'.h.nextf[k] == 0 then rv == 0 && s1 == s'
             else rv == Take(s'.h, k, EffectiveAlign(req.align)).1 && (rv != 0 ==> s1 == AfterTake(s', k, req))
    ensures Allocated(mc, s, s1, rv, req)
  {
    if s'.h.nextf[k] != 0 {
      TakeAllocated(mc, s, s', k, req);
    }
  }

  lemma {:induction false} RefusalKeeps(mc: Machine, s: State, req: Request)
    requires Sound(mc, s)
    ensures Allocated(mc, s, Inited(s), 0, req)
  {
    InitKeeps(mc, s);
  }

  lemma {:induction false} InitAllocated(mc: Machine, s: State, s1: State, rv: nat, req: Request)
    requires Allocated(mc, Inited(s), s1, rv, req)
    ensures Allocated(mc, s, s1, rv, req)
  {
  }

  /** As the client sees it. */
  function Client(s: State, core: seq<Range>, h: Heap, rv: nat, req: Request): State {
    State(h, if rv == 0 then s.live else s.live[rv := req], s.pages, core)
  }

  lemma {:induction false} ServedKeeps(mc: Machine, s: State, req: Request, k: nat, h: Heap, rv: nat, s1: State)
    requires Sound(mc, s) && req.align < TWO32 && !BadAlign(req.align) && 0 < EffectiveAlign(req.align) < TWO32
    requires k <= 26 && req.nbytes + RoundUp(OVERHEAD, EffectiveAlign(req.align)) <= Size(k)
    requires s.h.nextf[k] == 0 ==> s.h.current + CorePages(k) < 0x10_0000
    requires (h, rv) == FromBucket(mc, s.h, k, EffectiveAlign(req.align))
    requires s1 == Client(s, s.core + BucketCore(mc, s.h, k), h, rv, req)
    ensures Allocated(mc, s, s1, rv, req)
  {
    var s' := Refilled(mc, s, k);
    RefillKeeps(mc, s, k);
    BucketState(mc, s, k, req, h, rv);
    BucketKeeps(mc, s, k, req, s', s1, rv);
  }

  /** The state once the page size is known. */
  function Inited(s: State): State {
    s.(h := PageInit(s.h))
  }

  lemma {:induction false} InitCore(mc: Machine, h: Heap, k: nat)
    requires Shaped(h) && k < NBUCKETS
    ensures BucketCore(mc, PageInit(h), k) == BucketCore(mc, h, k)
  {
  }

  /** What an allocation that is not refused outright comes to. */
  lemma {:induction false} AllocState(mc: Machine, s: State, nbytes: nat, align: nat, k: nat, h: Heap, rv: nat)
    requires Shaped(s.h) && nbytes < TWO32 && align < TWO32 && !BadAlign(align)
    requires nbytes + RoundUp(OVERHEAD, EffectiveAlign(align)) < TWO32
    requires Bucket(nbytes + RoundUp(OVERHEAD, EffectiveAlign(align))) == Some(k)
    requires (h, rv) == MemAlloc(mc, s.h, nbytes, align)
    ensures (h, rv) == FromBucket(mc, Inited(s).h, k, EffectiveAlign(align))
    ensures var s0 := Inited(s);
            AfterAlloc(mc, s, nbytes, align) ==
            Client(s0, s0.core + BucketCore(mc, s0.h, k), h, rv, Request(nbytes, align))
  {
    AllocUnfold(mc, s.h, nbytes, align);
    InitCore(mc, s.h, k);
    assert Need(nbytes, EffectiveAlign(align)) == nbytes + RoundUp(OVERHEAD, EffectiveAlign(align));
    assert AllocCore(mc, s.h, nbytes, align) == BucketCore(mc, s.h, k);
  }

  lemma {:induction false} RefusedState(mc: Machine, s: State, nbytes: nat, align: nat)
    requires Shaped(s.h) && nbytes < TWO32 && align < TWO32
    requires !BadAlign(align) ==> nbytes + RoundUp(OVERHEAD, EffectiveAlign(align)) < TWO32
    requires BadAlign(align) || Bucket(nbytes + RoundUp(OVERHEAD, EffectiveAlign(align))).None?
    ensures MemAlloc(mc, s.h, nbytes, align).1 == 0 && AfterAlloc(mc, s, nbytes, align) == Inited(s)
  {
    AllocUnfold(mc, s.h, nbytes, align);
    assert s.core + [] == s.core;
  }

  lemma {:induction false} LegalRoom(s: State, nbytes: nat, align: nat, k: nat)
    requires Shaped(s.h) && AllocLegal(s.h, nbytes, align) && !BadAlign(align)
    requires Bucket(nbytes + RoundUp(OVERHEAD, EffectiveAlign(align))) == Some(k)
    ensures k <= 26 && nbytes + RoundUp(OVERHEAD, EffectiveAlign(align)) <= Size(k)
    ensures Inited(s).h.nextf[k] == 0 ==> Inited(s).h.current + CorePages(k) < 0x10_0000
  {
    BucketLeast(nbytes + RoundUp(OVERHEAD, EffectiveAlign(align)));
  }

  /** An allocation keeps the invariant and everybody's data; a new pointer is new. */
  lemma {:induction false} AllocSafe(mc: Machine, s: State, nbytes: nat, align: nat)
    requires Sound(mc, s) && AllocLegal(s.h, nbytes, align)
    ensures Allocated(mc, s, AfterAlloc(mc, s, nbytes, align), MemAlloc(mc, s.h, nbytes, align).1,
                      Request(nbytes, align))
  {
    var req, s1 := Request(nbytes, align), AfterAlloc(mc, s, nbytes, align);
    var (h, rv) := MemAlloc(mc, s.h, nbytes, align);
    if BadAlign(align) || Bucket(nbytes + RoundUp(OVERHEAD, EffectiveAlign(align))).None? {
      RefusedState(mc, s, nbytes, align);
      RefusalKeeps(mc, s, req);
    } else {
      var k := Bucket(nbytes + RoundUp(OVERHEAD, EffectiveAlign(align))).value;
      AllocState(mc, s, nbytes, align, k, h, rv);
      LegalRoom(s, nbytes, align, k);
      InitKeeps(mc, s);
      ServedKeeps(mc, Inited(s), req, k, h, rv, s1);
      InitAllocated(mc, s, s1, rv, req);
    }
  }

  // ---- when an allocation succeeds

  /** The alignment is 0 or a power of two, a bucket is big enough, and it has a block or there are
      pages left for one. */
  ghost predicate Serves(mc: Machine, h: Heap, nbytes: nat, align: nat)
    requires |h.nextf| == NBUCKETS && align < TWO32
  {
    && !BadAlign(align)
    && var bucket := Bucket(nbytes + RoundUp(OVERHEAD, EffectiveAlign(align)));
       && bucket.Some?
       && var k := bucket.value;
          h.nextf[k] != 0 || (h.current + CorePages(k)) * PAGE_SIZE <= mc.memsize
  }

  lemma {:induction false} RefillServes(mc: Machine, s: State, k: nat)
    requires Boot(mc) && Shaped(s.h) && k <= 26
    requires s.h.nextf[k] == 0 ==> s.h.current + CorePages(k) < 0x10_0000
    ensures Refilled(mc, s, k).h.nextf[k] != 0 <==>
            s.h.nextf[k] != 0 || (s.h.current + CorePages(k)) * PAGE_SIZE <= mc.memsize
    ensures Refilled(mc, s, k).h.current == s.h.current + if s.h.nextf[k] == 0 then CorePages(k) else 0
  {
    if s.h.nextf[k] == 0 {
      MoreCoreExact(mc, s.h, k);
    }
  }

  lemma {:induction false} BucketServes(mc: Machine, s: State, req: Request, k: nat, h: Heap, rv: nat)
    requires Sound(mc, s) && req.align < TWO32 && !BadAlign(req.align) && 0 < EffectiveAlign(req.align) < TWO32
    requires k <= 26 && req.nbytes + RoundUp(OVERHEAD, EffectiveAlign(req.align)) <= Size(k)
    requires s.h.nextf[k] == 0 ==> s.h.current + CorePages(k) < 0x10_0000
    requires (h, rv) == FromBucket(mc, s.h, k, EffectiveAlign(req.align))
    ensures rv != 0 <==> s.h.nextf[k] != 0 || (s.h.current + CorePages(k)) * PAGE_SIZE <= mc.memsize
  {
    var s' := Refilled(mc, s, k);
    RefillKeeps(mc, s, k);
    RefillServes(mc, s, k);
    BucketState(mc, s, k, req, h, rv);
    if s'.h.nextf[k] != 0 {
      TakeAllocated(mc, s, s', k, req);
    }
  }

  /** `bmk_memalloc` returns a pointer exactly then. */
  lemma {:induction false} AllocExact(mc: Machine, s: State, nbytes: nat, align: nat)
    requires Sound(mc, s) && AllocLegal(s.h, nbytes, align)
    ensures MemAlloc(mc, s.h, nbytes, align).1 != 0 <==> Serves(mc, s.h, nbytes, align)
  {
    var (h, rv) := MemAlloc(mc, s.h, nbytes, align);
    if BadAlign(align) || Bucket(nbytes + RoundUp(OVERHEAD, EffectiveAlign(align))).None? {
      RefusedState(mc, s, nbytes, align);
    } else {
      var k := Bucket(nbytes + RoundUp(OVERHEAD, EffectiveAlign(align))).value;
      AllocState(mc, s, nbytes, align, k, h, rv);
      LegalRoom(s, nbytes, align, k);
      InitKeeps(mc, s);
      BucketServes(mc, Inited(s), Request(nbytes, align), k, h, rv);
    }
  }

  /** An allocation succeeds exactly when there is a bucket and memory for it; either way it keeps
      the invariant and everybody's data, and a new pointer is new. */
  lemma {:induction false} AllocKeeps(mc: Machine, s: State, nbytes: nat, align: nat)
    requires Sound(mc, s) && AllocLegal(s.h, nbytes, align)
    ensures Allocated(mc, s, AfterAlloc(mc, s, nbytes, align), MemAlloc(mc, s.h, nbytes, align).1,
                      Request(nbytes, align))
    ensures MemAlloc(mc, s.h, nbytes, align).1 != 0 <==> Serves(mc, s.h, nbytes, align)
  {
    AllocSafe(mc, s, nbytes, align);
    AllocExact(mc, s, nbytes, align);
  }

  /** An allocation that is refused for its alignment or its size takes no pages. */
  lemma {:induction false} RefusalCounter(mc: Machine, s: State, nbytes: nat, align: nat)
    requires Shaped(s.h) && AllocLegal(s.h, nbytes, align)
    requires BadAlign(align) || Bucket(nbytes + RoundUp(OVERHEAD, EffectiveAlign(align))).None?
    ensures var (h, rv) := MemAlloc(mc, s.h, nbytes, align);
            rv == 0 && h.current == s.h.current && h.nextf == s.h.nextf && h.mem == s.h.mem
  {
    RefusedState(mc, s, nbytes, align);
  }

  /** Any other takes as many as its bucket needs, and only for an empty list. */
  lemma {:induction false} AllocCounter(mc: Machine, s: State, nbytes: nat, align: nat, k: nat)
    requires Boot(mc) && Shaped(s.h) && AllocLegal(s.h, nbytes, align) && !BadAlign(align)
    requires Bucket(nbytes + RoundUp(OVERHEAD, EffectiveAlign(align))) == Some(k)
    ensures k <= 26
    ensures MemAlloc(mc, s.h, nbytes, align).0.current ==
            s.h.current + if s.h.nextf[k] == 0 then CorePages(k) else 0
  {
    var (h, rv) := MemAlloc(mc, s.h, nbytes, align);
    AllocState(mc, s, nbytes, align, k, h, rv);
    LegalRoom(s, nbytes, align, k);
    RefillServes(mc, Inited(s), k);
    BucketState(mc, Inited(s), k, Request(nbytes, align), h, rv);
  }

  // ---- what a live pointer is worth

  /** What the header says about a live pointer is true: it is aligned as asked, header and data
      lie inside one block of the recorded bucket, and that block is aligned to its size or to
      a page. */
  ghost predicate Placed(m: Memory, p: nat, req: Request) {
    var k := Index(m, p);
    var b := p - Alignpad(m, p);
    && k <= 26 && Magic(m, p) == MAGIC
    && 0 < b && b + OVERHEAD <= p && p + req.nbytes <= b + Size(k) < TWO32
    && And(p, EffectiveAlign(req.align) - 1) == 0 && Low(p, 2) == 0 && Low(b, AlignBits(k)) == 0
  }

  /** The bit tests say that the pointer is a multiple of its alignment and the block a
      multiple of its own. */
  lemma {:induction false} PlacedMultiples(m: Memory, p: nat, req: Request)
    requires Placed(m, p, req) && req.align < TWO32 && !BadAlign(req.align)
    ensures p % EffectiveAlign(req.align) == 0
    ensures (p - Alignpad(m, p)) % Pow2(AlignBits(Index(m, p))) == 0
  {
    var j := AlignPower(req.align);
    AndMask(p, j);
    SplitDivMod(p, j);
    SplitDivMod(p - Alignpad(m, p), AlignBits(Index(m, p)));
  }

  lemma {:induction false} PlacedFrom(m: Memory, p: nat, b: nat, blk: Block, req: Request)
    requires FitOk(p, b, blk.hi, req) && TagOk(m, p, b, blk.bucket) && BlockOk(b, blk) && 0 < b && blk.hi < TWO32
    ensures Placed(m, p, req)
  {
  }

  lemma {:induction false} LivePlaced(mc: Machine, s: State, p: nat)
    requires Sound(mc, s) && p in s.live
    ensures Placed(s.h.mem, p, s.live[p])
  {
    var g :| Inv(mc, s, g);
    assert Holds(mc, s, g, Geometry) && Holds(mc, s, g, Pointers) && Holds(mc, s, g, Headers);
    BlockPlace(mc, s, g, g.base[p]);
    PlacedFrom(s.h.mem, p, g.base[p], g.blocks[g.base[p]], s.live[p]);
  }

  /** Two live pointers: blocks, hence headers and data, do not overlap. */
  lemma {:induction false} LiveApart(mc: Machine, s: State, p: nat, q: nat)
    requires Sound(mc, s) && p in s.live && q in s.live && p != q
    ensures Apart(Range(Back(p, Alignpad(s.h.mem, p)), p + s.live[p].nbytes),
                  Range(Back(q, Alignpad(s.h.mem, q)), q + s.live[q].nbytes))
  {
    var g :| Inv(mc, s, g);
    assert Holds(mc, s, g, Geometry) && Holds(mc, s, g, Owners) && Holds(mc, s, g, Pointers);
    assert Holds(mc, s, g, Headers);
    assert TagOk(s.h.mem, p, g.base[p], g.blocks[g.base[p]].bucket);
    assert TagOk(s.h.mem, q, g.base[q], g.blocks[g.base[q]].bucket);
    BlockApart(g.blocks, g.base[p], g.base[q]);
  }

  /** The header that `bmk_memalloc` writes names the bucket it took from. */
  lemma {:induction false} BucketIndex(mc: Machine, h: Heap, k: nat, al: nat)
    requires Shaped(h) && k <= 26 && 0 < al < TWO32
    ensures var (h', rv) := FromBucket(mc, h, k, al);
            OVERHEAD <= rv ==> Index(h'.mem, rv) == k
  {
  }

  /** A bucket that is the least to hold so many bytes. */
  ghost predicate Least(k: nat, need: nat) {
    need <= Size(k) && (0 < k ==> Size(k - 1) < need)
  }

  lemma {:induction false} AllocIndex(mc: Machine, h: Heap, nbytes: nat, align: nat)
    requires Shaped(h) && AllocLegal(h, nbytes, align)
    ensures var (h', rv) := MemAlloc(mc, h, nbytes, align);
            OVERHEAD <= rv ==>
              && !BadAlign(align)
              && Least(Index(h'.mem, rv), nbytes + RoundUp(OVERHEAD, EffectiveAlign(align)))
  {
    AllocUnfold(mc, h, nbytes, align);
    if !BadAlign(align) {
      var need := nbytes + RoundUp(OVERHEAD, EffectiveAlign(align));
      BucketLeast(need);
      if Bucket(need).Some? {
        BucketIndex(mc, PageInit(h), Bucket(need).value, EffectiveAlign(align));
      }
    }
  }

  /** Every pointer that `bmk_memalloc` returns: its block comes from the least bucket that
      holds the request and its header, and it is placed as asked. */
  lemma {:induction false} AllocPlaces(mc: Machine, s: State, nbytes: nat, align: nat)
    requires Sound(mc, s) && AllocLegal(s.h, nbytes, align)
    ensures var (h, rv) := MemAlloc(mc, s.h, nbytes, align);
            rv != 0 ==>
              && !BadAlign(align) && Placed(h.mem, rv, Request(nbytes, align))
              && Least(Index(h.mem, rv), nbytes + RoundUp(OVERHEAD, EffectiveAlign(align)))
  {
    AllocSafe(mc, s, nbytes, align);
    AllocIndex(mc, s.h, nbytes, align);
    if MemAlloc(mc, s.h, nbytes, align).1 != 0 {
      LivePlaced(mc, AfterAlloc(mc, s, nbytes, align), MemAlloc(mc, s.h, nbytes, align).1);
    }
  }

  // ---- what an allocation leaves alone

  /** Of the first block of a chunk, threading touches only the link. */
  lemma {:induction false} ThreadFirst(m: Memory, p: nat, sz: nat, n: nat)
    requires 32 <= sz && 0 < n && CarveEnd(p, sz, n) < TWO32
    ensures SameWithin(m, Thread(m, p, sz, n), Range(p + 4, p + sz))
  {
    CarveEndAfter(p, sz, n);
    if n == 1 {
      LoadStore(m, p, 0);
    } else {
      ThreadNext(m, p, sz, n);
      LoadStore(m, p, p + sz);
      ThreadSame(Store(m, p, p + sz), p + sz, sz, n - 1);
    }
  }

  lemma {:induction false} CoreBytes(mc: Machine, h: Heap, k: nat)
    requires Boot(mc) && Shaped(h) && k <= 26 && h.nextf[k] == 0 && h.current + CorePages(k) < 0x10_0000
    ensures var h' := MoreCore(mc, h, k);
            h'.nextf[k] != 0 ==> SameWithin(h.mem, h'.mem, Range(h'.nextf[k] + 4, h'.nextf[k] + Size(k)))
  {
    var p := mc.membase + PAGE_SIZE * h.current;
    MoreCoreExact(mc, h, k);
    if (h.current + CorePages(k)) * PAGE_SIZE <= mc.memsize {
      SizeAtLeast(k);
      CoreFillsPages(p, k);
      ThreadFirst(h.mem, p, Size(k), CoreBlocks(k));
    }
  }

  lemma {:induction false} TakePlace(mc: Machine, s: State, k: nat, req: Request) returns (rv: nat)
    requires Sound(mc, s) && k <= 26 && s.h.nextf[k] != 0
    requires req.align < TWO32 && !BadAlign(req.align) && 0 < EffectiveAlign(req.align) < TWO32
    requires req.nbytes + RoundUp(OVERHEAD, EffectiveAlign(req.align)) <= Size(k)
    ensures rv == RoundUp(s.h.nextf[k] + OVERHEAD, EffectiveAlign(req.align))
    ensures s.h.nextf[k] + OVERHEAD <= rv < TWO32 && rv + req.nbytes <= s.h.nextf[k] + Size(k) < TWO32
  {
    var g :| Inv(mc, s, g);
    rv := RoundUp(s.h.nextf[k] + OVERHEAD, EffectiveAlign(req.align));
    assert Holds(mc, s, g, Lists);
    TakeSetup(mc, s, g, k, req);
    BlockPlace(mc, s, g, s.h.nextf[k]);
  }

  lemma {:induction false} TakeWrites(h: Heap, k: nat, al: nat, rv: nat)
    requires Shaped(h) && k <= 26 && 0 < al < TWO32
    requires rv == RoundUp(h.nextf[k] + OVERHEAD, al) && h.nextf[k] + OVERHEAD <= rv < TWO32
    ensures Take(h, k, al).1 == rv
    ensures var h' := Take(h, k, al).0;
            && SameOutside(h.mem, h'.mem, Range(h.nextf[k], rv)) && TagOk(h'.mem, rv, h.nextf[k], k)
            && h'.nextf == h.nextf[k := Load(h.mem, h.nextf[k])]
  {
    HeaderStored(h.mem, h.nextf[k], rv, rv, k);
  }

  /** The header goes between the start of the block and the pointer, the data fits behind. */
  lemma {:induction false} TakeBytes(h: Heap, k: nat, al: nat, rv: nat, n: nat, m: Memory)
    requires Shaped(h) && k <= 26 && 0 < al < TWO32
    requires rv == RoundUp(h.nextf[k] + OVERHEAD, al)
    requires h.nextf[k] + OVERHEAD <= rv < TWO32 && rv + n <= h.nextf[k] + Size(k) < TWO32
    requires SameWithin(m, h.mem, Range(h.nextf[k] + 4, h.nextf[k] + Size(k)))
    ensures Take(h, k, al).1 == rv && SameWithin(m, Take(h, k, al).0.mem, Range(rv, rv + n))
  {
    TakeWrites(h, k, al, rv);
    BytesAcross(m, h.mem, Take(h, k, al).0.mem, h.nextf[k], h.nextf[k] + Size(k), rv, n);
  }

  lemma {:induction false} BytesAcross(m: Memory, m': Memory, m'': Memory, op: nat, hi: nat, rv: nat, n: nat)
    requires op + OVERHEAD <= rv && rv + n <= hi
    requires SameWithin(m, m', Range(op + 4, hi)) && SameOutside(m', m'', Range(op, rv))
    ensures SameWithin(m, m'', Range(rv, rv + n))
  {
  }

  lemma {:induction false} RefillBytes(mc: Machine, s: State, k: nat)
    requires Boot(mc) && Shaped(s.h) && k <= 26
    requires s.h.nextf[k] == 0 ==> s.h.current + CorePages(k) < 0x10_0000
    ensures var h := Refilled(mc, s, k).h;
            h.nextf[k] != 0 ==> SameWithin(s.h.mem, h.mem, Range(h.nextf[k] + 4, h.nextf[k] + Size(k)))
  {
    if s.h.nextf[k] == 0 {
      CoreBytes(mc, s.h, k);
    }
  }

  lemma {:induction false} BucketBytes(mc: Machine, s: State, k: nat, req: Request, s': State, h: Heap, rv: nat)
    requires Sound(mc, s') && k <= 26 && req.align < TWO32 && !BadAlign(req.align) && s'.h.nextf[k] != 0
    requires 0 < EffectiveAlign(req.align) < TWO32
    requires req.nbytes + RoundUp(OVERHEAD, EffectiveAlign(req.align)) <= Size(k)
    requires SameWithin(s.h.mem, s'.h.mem, Range(s'.h.nextf[k] + 4, s'.h.nextf[k] + Size(k)))
    requires (h, rv) == Take(s'.h, k, EffectiveAlign(req.align))
    ensures SameWithin(s.h.mem, h.mem, Range(rv, rv + req.nbytes))
  {
    var at := TakePlace(mc, s', k, req);
    TakeBytes(s'.h, k, EffectiveAlign(req.align), at, req.nbytes, s.h.mem);
  }

  lemma {:induction false} ServedBytes(mc: Machine, s: State, req: Request, k: nat, h: Heap, rv: nat)
    requires Sound(mc, s) && req.align < TWO32 && !BadAlign(req.align) && 0 < EffectiveAlign(req.align) < TWO32
    requires k <= 26 && req.nbytes + RoundUp(OVERHEAD, EffectiveAlign(req.align)) <= Size(k)
    requires s.h.nextf[k] == 0 ==> s.h.current + CorePages(k) < 0x10_0000
    requires (h, rv) == FromBucket(mc, s.h, k, EffectiveAlign(req.align)) && rv != 0
    ensures SameWithin(s.h.mem, h.mem, Range(rv, rv + req.nbytes))
  {
    RefillKeeps(mc, s, k);
    RefillBytes(mc, s, k);
    BucketState(mc, s, k, req, h, rv);
    BucketBytes(mc, s, k, req, Refilled(mc, s, k), h, rv);
  }

  /** The bytes handed out are what memory held there before. */
  lemma {:induction false} AllocBytes(mc: Machine, s: State, nbytes: nat, align: nat)
    requires Sound(mc, s) && AllocLegal(s.h, nbytes, align)
    ensures var (h, rv) := MemAlloc(mc, s.h, nbytes, align);
            rv != 0 ==> SameWithin(s.h.mem, h.mem, Range(rv, rv + nbytes))
  {
    var (h, rv) := MemAlloc(mc, s.h, nbytes, align);
    if BadAlign(align) || Bucket(nbytes + RoundUp(OVERHEAD, EffectiveAlign(align))).None? {
      RefusedState(mc, s, nbytes, align);
    } else if rv != 0 {
      var k := Bucket(nbytes + RoundUp(OVERHEAD, EffectiveAlign(align))).value;
      AllocState(mc, s, nbytes, align, k, h, rv);
      LegalRoom(s, nbytes, align, k);
      InitKeeps(mc, s);
      ServedBytes(mc, Inited(s), Request(nbytes, align), k, h, rv);
    }
  }

  lemma {:induction false} BucketAddress(mc: Machine, h: Heap, k: nat, al: nat)
    requires Shaped(h) && k <= 26 && 0 < al < TWO32
    ensures var op := if h.nextf[k] == 0 then MoreCore(mc, h, k).nextf[k] else h.nextf[k];
            FromBucket(mc, h, k, al).1 == if op == 0 then 0 else RoundUp(op + OVERHEAD, al)
  {
  }

  lemma {:induction false} BucketBlind(mc: Machine, h: Heap, m: Memory, k: nat, al: nat)
    requires Shaped(h) && k <= 26 && 0 < al < TWO32
    ensures FromBucket(mc, h.(mem := m), k, al).1 == FromBucket(mc, h, k, al).1
  {
    BucketAddress(mc, h, k, al);
    BucketAddress(mc, h.(mem := m), k, al);
    CoreBlind(mc, h, m, k);
  }

  lemma {:induction false} CoreBlind(mc: Machine, h: Heap, m: Memory, k: nat)
    requires Shaped(h) && k < NBUCKETS
    ensures MoreCore(mc, h.(mem := m), k).nextf == MoreCore(mc, h, k).nextf
  {
  }

  /** Which pointer comes back does not depend on what memory holds. */
  lemma {:induction false} AllocBlind(mc: Machine, h: Heap, m: Memory, nbytes: nat, align: nat)
    requires Shaped(h) && nbytes < TWO32 && align < TWO32
    ensures MemAlloc(mc, h.(mem := m), nbytes, align).1 == MemAlloc(mc, h, nbytes, align).1
  {
    AllocByBucket(mc, h, nbytes, align);
    AllocByBucket(mc, h.(mem := m), nbytes, align);
    var al := EffectiveAlign(align);
    if !BadAlign(align) && Bucket(Need(nbytes, al)).Some? {
      BucketBlind(mc, PageInit(h), m, Bucket(Need(nbytes, al)).value, al);
    }
  }

  // ---- allocating and freeing at once

  /** A block taken off a list and freed at once is back in front of that list: the heads are
      as they were, and so is the link in the block. */
  ghost predicate BackInFront(h: Heap, k: nat, al: nat)
    requires Shaped(h) && k <= 26 && 0 < al < TWO32
  {
    var (h', rv) := Take(h, k, al);
    MemFree(h', rv).nextf == h.nextf && Load(MemFree(h', rv).mem, h.nextf[k]) == Load(h.mem, h.nextf[k])
  }

  lemma {:induction false} TakenBack(h: Heap, k: nat, al: nat, rv: nat)
    requires Shaped(h) && k <= 26 && 0 < al < TWO32 && h.nextf[k] != 0
    requires rv == RoundUp(h.nextf[k] + OVERHEAD, al) && h.nextf[k] + OVERHEAD <= rv < TWO32
    ensures BackInFront(h, k, al)
  {
    var h' := Take(h, k, al).0;
    TakeWrites(h, k, al, rv);
    FreeRecovers(h', rv, h.nextf[k], k);
    LoadStore(h'.mem, h.nextf[k], h'.nextf[k]);
  }

  lemma {:induction false} TakeFree(mc: Machine, s: State, k: nat, req: Request)
    requires Sound(mc, s) && k <= 26 && s.h.nextf[k] != 0
    requires req.align < TWO32 && !BadAlign(req.align) && 0 < EffectiveAlign(req.align) < TWO32
    requires req.nbytes + RoundUp(OVERHEAD, EffectiveAlign(req.align)) <= Size(k)
    ensures BackInFront(s.h, k, EffectiveAlign(req.align))
  {
    var rv := TakePlace(mc, s, k, req);
    TakenBack(s.h, k, EffectiveAlign(req.align), rv);
    var back := BackInFront(s.h, k, EffectiveAlign(req.align));
    assert back;
  }
}
