/** Each elementary step of the allocator keeps the invariant. */
module KingsleySteps {

  import opened Basics
  import opened Bits
  import opened KingsleyModel
  import opened KingsleyInvariant

  // ---- choosing a bucket

  lemma {:induction false} GrowLeast(need: nat, amt: nat, bucket: nat)
    requires bucket <= 26 && amt == Size(bucket) && (0 < bucket ==> Size(bucket - 1) < need)
    ensures var r := Grow(need, amt, bucket);
            match r
            case Some(k) => bucket <= k && need <= Size(k) && (0 < k ==> Size(k - 1) < need)
            case None => Size(26) < need
    decreases 26 - bucket
  {
    if need <= amt || bucket == 26 {
    } else {
      GrowLeast(need, 2 * amt, bucket + 1);
    }
  }

  /** The bucket chosen is the smallest that holds the request; none only past 2 GB. */
  lemma {:induction false} BucketLeast(need: nat)
    ensures match Bucket(need)
            case Some(k) => k <= 26 && need <= Size(k) && (0 < k ==> Size(k - 1) < need)
            case None => 0x8000_0000 < need
  {
    Sizes();
    if need <= PAGE_SIZE {
      GrowLeast(need, 32, 0);
    } else {
      assert Size(6) < Size(7);
      GrowLeast(need, PAGE_SIZE, 7);
    }
  }

  /** An accepted alignment is a power of two of at least the size of a pointer. */
  lemma {:induction false} AlignPower(align: nat) returns (j: nat)
    requires align < TWO32 && !BadAlign(align)
    ensures 2 <= j < 32 && EffectiveAlign(align) == Pow2(j)
  {
    if align < PTR_SIZE {
      KnownPowers();
      j := 2;
    } else {
      j := PowerOf(align);
      PowerRange(j);
    }
  }

  /** An alignment is accepted exactly when it is 0 or a power of two. */
  lemma {:induction false} AlignExact(align: nat)
    requires align < TWO32
    ensures !BadAlign(align) <==> align == 0 || exists j: nat :: align == Pow2(j)
  {
    if align != 0 {
      assert (align - 1) % TWO32 == align - 1;
      PowerOfTwoTest(align);
      if And(align, align - 1) == 0 {
        assert align == Pow2(Ctz(align));
      }
      if j: nat :| align == Pow2(j) {
        PowerAccepted(j);
      }
    }
  }

  lemma {:induction false} PowerAccepted(j: nat)
    ensures 0 < Pow2(j) && And(Pow2(j), Pow2(j) - 1) == 0
  {
    AndMask(Pow2(j), j);
    LowAddPow(0, j);
    LowSmall(0, j);
  }

  lemma {:induction false} PowerOf(align: nat) returns (j: nat)
    requires PTR_SIZE <= align < TWO32 && !BadAlign(align)
    ensures align == Pow2(j)
  {
    assert (align - 1) % TWO32 == align - 1;
    PowerOfTwoTest(align);
    j := Ctz(align);
  }

  lemma {:induction false} PowerRange(j: nat)
    requires 4 <= Pow2(j) < TWO32
    ensures 2 <= j < 32
  {
    Pow32();
    PowInjective(j, 32);
    assert Pow2(1) == 2;
    PowInjective(1, j);
  }

  // ---- taking a block off a free list

  /** The layout after the first block of list `k` went to pointer `p`. */
  function Taken(g: Layout, k: nat, p: nat): Layout
    requires k < |g.lists| && g.lists[k] != []
  {
    g.(lists := g.lists[k := g.lists[k][1..]], base := g.base[p := g.lists[k][0]])
  }

  lemma {:induction false} TakenListed(g: Layout, k: nat, p: nat)
    requires Listed(g.lists, g.blocks) && k < NBUCKETS && g.lists[k] != []
    ensures Listed(Taken(g, k, p).lists, g.blocks)
    ensures forall j :: 0 <= j < NBUCKETS ==> g.lists[k][0] !in Taken(g, k, p).lists[j]
  {
    var l := g.lists[k];
    assert forall b :: b in l[1..] ==> b in l;
    assert l[0] in l;
    forall j | 0 <= j < NBUCKETS
      ensures l[0] !in Taken(g, k, p).lists[j]
    {
      assert g.blocks[l[0]].bucket == k;
    }
  }

  lemma {:induction false} TakenOwned(g: Layout, k: nat, p: nat)
    requires Listed(g.lists, g.blocks) && Owned(g) && k < NBUCKETS && g.lists[k] != [] && p !in g.base
    ensures Owned(Taken(g, k, p))
  {
    var l, g' := g.lists[k], Taken(g, k, p);
    TakenListed(g, k, p);
    assert l[0] in l;
    assert forall b :: b in l[1..] ==> b in l;
  }

  lemma {:induction false} TakenConserved(g: Layout, k: nat, p: nat)
    requires Listed(g.lists, g.blocks) && Conserved(g) && k < NBUCKETS && g.lists[k] != [] && p !in g.base
    ensures Conserved(Taken(g, k, p))
  {
    var l, g' := g.lists[k], Taken(g, k, p);
    forall b | b in g'.blocks
      ensures IsFree(g', b) || IsLive(g', b)
    {
      if b == l[0] {
        assert g'.base[p] == b;
      } else if IsFree(g, b) {
        var j :| 0 <= j < |g.lists| && b in g.lists[j];
        assert l == [l[0]] + l[1..];
        assert b in g'.lists[j];
      } else {
        var q :| q in g.base && g.base[q] == b;
        assert g'.base[q] == b;
      }
    }
  }

  /** A block big enough for the request and its header has room for an aligned pointer. */
  lemma {:induction false} TakeFits(op: nat, k: nat, req: Request)
    requires req.align < TWO32 && !BadAlign(req.align)
    requires Low(op, 5) == 0 && Size(k) < TWO32 && op + Size(k) < TWO32
    requires 0 < EffectiveAlign(req.align) < TWO32
    requires req.nbytes + RoundUp(OVERHEAD, EffectiveAlign(req.align)) <= Size(k)
    ensures FitOk(RoundUp(op + OVERHEAD, EffectiveAlign(req.align)), op, op + Size(k), req)
  {
    var j := AlignPower(req.align);
    HeaderRoom(j);
    SplitTwice(op, 3, 2);
    EndOfBlock(op, k);
    KnownPowers();
    SizeAtLeast(k);
    PointerPlace(op, j);
    PointerAligned(op, j);
  }

  /** A block that ends below 4 GB ends at least 32 bytes below. */
  lemma {:induction false} EndOfBlock(op: nat, k: nat)
    requires Low(op, 5) == 0 && op + Size(k) < TWO32
    ensures op + Size(k) + 32 <= TWO32
  {
    LowFive(op);
    MultipleOf32(k);
    assert 32 * (Shr(op, 5) + Pow2(k)) < 32 * 0x800_0000;
  }

  lemma {:induction false} LowFive(op: nat)
    requires Low(op, 5) == 0
    ensures op == 32 * Shr(op, 5)
  {
    KnownPowers();
    Split(op, 5);
  }

  lemma {:induction false} MultipleOf32(k: nat)
    ensures Size(k) == 32 * Pow2(k)
  {
    if k == 0 {
      KnownPowers();
    } else {
      MultipleOf32(k - 1);
    }
  }

  lemma {:induction false} HeaderStored(m: Memory, op: nat, hi: nat, rv: nat, k: nat)
    requires op + OVERHEAD <= rv <= hi && rv < TWO32 && k < 256
    ensures rv - op < TWO32
    ensures SameOutside(m, StoreHeader(m, rv, rv - op, k), Range(op, hi))
    ensures TagOk(StoreHeader(m, rv, rv - op, k), rv, op, k)
  {
    LoadStore(m[rv - 4 := MAGIC][rv - 3 := k], rv - OVERHEAD, rv - op);
  }

  lemma {:induction false} ListTail(m: Memory, head: nat, l: seq<nat>)
    requires ListAt(m, head, l) && l != []
    ensures ListAt(m, Load(m, l[0]), l[1..])
  {
    var t := l[1..];
    assert Load(m, l[0]) == Next(l, 0);
    forall i | 0 <= i < |t|
      ensures t[i] != 0 && Load(m, t[i]) == Next(t, i)
    {
      assert t[i] == l[i + 1] && Next(l, i + 1) == Next(t, i);
    }
  }

  /** Unlinking the first block leaves the other lists, and the rest of this one. */
  lemma {:induction false} ChainsTail(m: Memory, nextf: seq<nat>, g: Layout, k: nat, p: nat)
    requires Chains(m, nextf, g.lists) && k < NBUCKETS && g.lists[k] != []
    ensures Chains(m, nextf[k := Load(m, g.lists[k][0])], Taken(g, k, p).lists)
  {
    ListTail(m, nextf[k], g.lists[k]);
  }

  /** A block that is not live is apart from every header. */
  lemma {:induction false} FreeBlockTags(live: map<nat, Request>, g: Layout, b: nat)
    requires Disjoint(g.blocks) && Fitted(live, g) && b in g.blocks && !IsLive(g, b)
    ensures TagsApart(g, Range(b, g.blocks[b].hi))
  {
    forall q | q in g.base
      ensures OVERHEAD <= q < TWO32 && (q <= b || g.blocks[b].hi + OVERHEAD <= q)
    {
      BlockApart(g.blocks, b, g.base[q]);
    }
  }

  /** Where the header and the data of a pointer are. */
  function Extent(p: nat, req: Request): Range {
    Range(if p < OVERHEAD then 0 else p - OVERHEAD, p + req.nbytes)
  }

  ghost predicate SameWithin(m: Memory, m': Memory, r: Range) {
    forall a: nat :: r.lo <= a < r.hi ==> At(m', a) == At(m, a)
  }

  /** The header and the data of every live pointer are the same in two memories. */
  ghost predicate DataKept(live: map<nat, Request>, m: Memory, m': Memory) {
    forall p :: p in live ==> SameWithin(m, m', Extent(p, live[p]))
  }

  /** A change inside a block that is not live leaves all client data alone. */
  lemma {:induction false} FreeBlockData(live: map<nat, Request>, g: Layout, b: nat, m: Memory, m': Memory)
    requires Disjoint(g.blocks) && Fitted(live, g) && b in g.blocks && !IsLive(g, b)
    requires SameOutside(m, m', Range(b, g.blocks[b].hi))
    ensures DataKept(live, m, m')
  {
    forall p | p in live
      ensures SameWithin(m, m', Extent(p, live[p]))
    {
      BlockApart(g.blocks, b, g.base[p]);
    }
  }

  lemma {:induction false} FirstIsFree(g: Layout, k: nat)
    requires Listed(g.lists, g.blocks) && Owned(g) && k < NBUCKETS && g.lists[k] != []
    ensures var b := g.lists[k][0];
            b in g.blocks && g.blocks[b].bucket == k && !IsLive(g, b)
  {
    assert g.lists[k][0] in g.lists[k];
  }

  /** A pointer into a free block differs from every live pointer. */
  lemma {:induction false} NewPointer(live: map<nat, Request>, g: Layout, b: nat, p: nat)
    requires Disjoint(g.blocks) && Fitted(live, g) && b in g.blocks && !IsLive(g, b)
    requires b + OVERHEAD <= p <= g.blocks[b].hi
    ensures p !in live && p !in g.base
  {
    if p in live {
      BlockApart(g.blocks, b, g.base[p]);
    }
  }

  /** The state after `bmk_memalloc` handed out the first block of list `k`. */
  function AfterTake(s: State, k: nat, req: Request): State
    requires Shaped(s.h) && k < NBUCKETS && 0 < EffectiveAlign(req.align) < TWO32
  {
    var (h, rv) := Take(s.h, k, EffectiveAlign(req.align));
    s.(h := h, live := s.live[rv := req])
  }

  /** The request fits the blocks of list `k`, which has one. */
  ghost predicate Takes(s: State, g: Layout, k: nat, req: Request, rv: nat) {
    && k <= 26 && |s.h.nextf| == NBUCKETS && |g.lists| == NBUCKETS && g.lists[k] != []
    && var op := g.lists[k][0];
       && s.h.nextf[k] == op && op in g.blocks && g.blocks[op].bucket == k && !IsLive(g, op)
       && FitOk(rv, op, g.blocks[op].hi, req) && rv !in s.live && rv !in g.base
  }

  lemma {:induction false} TakeSetup(mc: Machine, s: State, g: Layout, k: nat, req: Request)
    requires Inv(mc, s, g) && k <= 26 && s.h.nextf[k] != 0
    requires req.align < TWO32 && !BadAlign(req.align) && 0 < EffectiveAlign(req.align) < TWO32
    requires req.nbytes + RoundUp(OVERHEAD, EffectiveAlign(req.align)) <= Size(k)
    ensures Takes(s, g, k, req, RoundUp(s.h.nextf[k] + OVERHEAD, EffectiveAlign(req.align)))
  {
    var op := s.h.nextf[k];
    assert Holds(mc, s, g, Geometry) && Holds(mc, s, g, Lists) && Holds(mc, s, g, Owners);
    assert Holds(mc, s, g, Links) && Holds(mc, s, g, Pointers);
    assert ListAt(s.h.mem, op, g.lists[k]);
    FirstIsFree(g, k);
    BlockPlace(mc, s, g, op);
    TakeFits(op, k, req);
    NewPointer(s.live, g, op, RoundUp(op + OVERHEAD, EffectiveAlign(req.align)));
  }

  lemma {:induction false} BlockPlace(mc: Machine, s: State, g: Layout, b: nat)
    requires Inv(mc, s, g) && b in g.blocks
    ensures g.blocks[b].bucket <= 26
    ensures g.blocks[b].hi == b + Size(g.blocks[b].bucket) < TWO32
    ensures Low(b, 5) == 0 && 0 < b
  {
    var k := g.blocks[b].bucket;
    assert Holds(mc, s, g, Geometry) && Holds(mc, s, g, Region);
    assert BlockOk(b, g.blocks[b]) && Within(mc, s.h.current, Range(b, g.blocks[b].hi));
    SplitTwice(b, 5, AlignBits(k) - 5);
    assert 5 + (AlignBits(k) - 5) == AlignBits(k);
    LowSmall(0, 5);
  }

  /** The memory after the header of the new pointer was written. */
  function TakeMem(s: State, k: nat, rv: nat): Memory
    requires Shaped(s.h) && k < NBUCKETS
  {
    StoreHeader(s.h.mem, rv, Back(rv, s.h.nextf[k]), k)
  }

  lemma {:induction false} TakeMemory(s: State, g: Layout, k: nat, req: Request, rv: nat)
    requires Shaped(s.h) && Takes(s, g, k, req, rv)
    ensures var op := g.lists[k][0];
            && SameOutside(s.h.mem, TakeMem(s, k, rv), Range(op, g.blocks[op].hi))
            && TagOk(TakeMem(s, k, rv), rv, op, k)
  {
    HeaderStored(s.h.mem, g.lists[k][0], g.blocks[g.lists[k][0]].hi, rv, k);
  }

  lemma {:induction false} TakeChains(mc: Machine, s: State, g: Layout, k: nat, req: Request, rv: nat)
    requires Inv(mc, s, g) && Takes(s, g, k, req, rv)
    ensures Chains(TakeMem(s, k, rv), s.h.nextf[k := Load(s.h.mem, s.h.nextf[k])], Taken(g, k, rv).lists)
  {
    var op, g' := g.lists[k][0], Taken(g, k, rv);
    var r, nextf := Range(op, g.blocks[op].hi), s.h.nextf[k := Load(s.h.mem, op)];
    assert Holds(mc, s, g, Geometry) && Holds(mc, s, g, Lists) && Holds(mc, s, g, Links);
    TakeMemory(s, g, k, req, rv);
    ChainsTail(s.h.mem, s.h.nextf, g, k, rv);
    TakenListed(g, k, rv);
    FreeApartFrom(g', op, r);
    ChainsFrame(s.h.mem, TakeMem(s, k, rv), r, nextf, g');
  }

  lemma {:induction false} TakeTags(mc: Machine, s: State, g: Layout, k: nat, req: Request, rv: nat)
    requires Inv(mc, s, g) && Takes(s, g, k, req, rv)
    ensures Tagged(TakeMem(s, k, rv), Taken(g, k, rv))
  {
    var op, m' := g.lists[k][0], TakeMem(s, k, rv);
    assert Holds(mc, s, g, Geometry) && Holds(mc, s, g, Pointers) && Holds(mc, s, g, Headers);
    TakeMemory(s, g, k, req, rv);
    FreeBlockTags(s.live, g, op);
    TagsFrame(s.h.mem, m', Range(op, g.blocks[op].hi), g);
    TaggedMore(m', g, k, rv);
  }

  lemma {:induction false} TaggedMore(m: Memory, g: Layout, k: nat, rv: nat)
    requires Tagged(m, g) && k < |g.lists| && g.lists[k] != [] && rv !in g.base
    requires g.lists[k][0] in g.blocks && TagOk(m, rv, g.lists[k][0], g.blocks[g.lists[k][0]].bucket)
    ensures Tagged(m, Taken(g, k, rv))
  {
  }

  lemma {:induction false} TakeData(mc: Machine, s: State, g: Layout, k: nat, req: Request, rv: nat)
    requires Inv(mc, s, g) && Takes(s, g, k, req, rv)
    ensures DataKept(s.live, s.h.mem, TakeMem(s, k, rv))
  {
    assert Holds(mc, s, g, Geometry) && Holds(mc, s, g, Pointers);
    TakeMemory(s, g, k, req, rv);
    FreeBlockData(s.live, g, g.lists[k][0], s.h.mem, TakeMem(s, k, rv));
  }

  lemma {:induction false} TakeFitted(s: State, g: Layout, k: nat, req: Request, rv: nat)
    requires Fitted(s.live, g) && Takes(s, g, k, req, rv)
    ensures Fitted(s.live[rv := req], Taken(g, k, rv))
  {
  }

  /** Handing out the first block of a list keeps the invariant and everybody's data, and the
      new pointer is new. */
  lemma {:induction false} TakeKeeps(mc: Machine, s: State, k: nat, req: Request)
    requires Sound(mc, s) && k <= 26 && s.h.nextf[k] != 0
    requires req.align < TWO32 && !BadAlign(req.align) && 0 < EffectiveAlign(req.align) < TWO32
    requires req.nbytes + RoundUp(OVERHEAD, EffectiveAlign(req.align)) <= Size(k)
    ensures Sound(mc, AfterTake(s, k, req))
    ensures DataKept(s.live, s.h.mem, AfterTake(s, k, req).h.mem)
    ensures var rv := Take(s.h, k, EffectiveAlign(req.align)).1; 0 < rv && rv !in s.live
  {
    var g :| Inv(mc, s, g);
    var rv := RoundUp(s.h.nextf[k] + OVERHEAD, EffectiveAlign(req.align));
    TakeSetup(mc, s, g, k, req);
    TakeData(mc, s, g, k, req, rv);
    TakeInv(mc, s, g, k, req, rv, AfterTake(s, k, req));
  }

  lemma {:induction false} TakeInv(mc: Machine, s: State, g: Layout, k: nat, req: Request, rv: nat, s': State)
    requires Inv(mc, s, g) && Takes(s, g, k, req, rv)
    requires s' == s.(h := s.h.(mem := TakeMem(s, k, rv), nextf := s.h.nextf[k := Load(s.h.mem, s.h.nextf[k])]),
                      live := s.live[rv := req])
    ensures Sound(mc, s')
  {
    var g' := Taken(g, k, rv);
    forall c
      ensures Holds(mc, s', g', c)
    {
      assert Holds(mc, s, g, c) && Holds(mc, s, g, Lists);
      match c
      case Lists => TakenListed(g, k, rv);
      case Owners => TakenOwned(g, k, rv);
      case Conservation => TakenConserved(g, k, rv);
      case Links => TakeChains(mc, s, g, k, req, rv);
      case Pointers => TakeFitted(s, g, k, req, rv);
      case Headers => TakeTags(mc, s, g, k, req, rv);
      case _ =>
    }
    assert Inv(mc, s', g');
  }

  // ---- putting a block back

  /** The layout after the block behind `p` went back to the list of its bucket. */
  function Returned(g: Layout, p: nat): Layout
    requires p in g.base && g.base[p] in g.blocks && g.blocks[g.base[p]].bucket < |g.lists|
  {
    var b := g.base[p];
    var k := g.blocks[b].bucket;
    g.(lists := g.lists[k := [b] + g.lists[k]], base := g.base - {p})
  }

  function AfterFree(s: State, p: nat): State
    requires Shaped(s.h) && p < TWO32
  {
    s.(h := MemFree(s.h, p), live := s.live - {p})
  }

  ghost predicate Frees(s: State, g: Layout, p: nat, b: nat, k: nat) {
    && p in s.live && p in g.base && g.base[p] == b && b in g.blocks && g.blocks[b].bucket == k
    && k <= 26 && |g.lists| == NBUCKETS && |s.h.nextf| == NBUCKETS
    && b < TWO32 && s.h.nextf[k] < TWO32 && 0 < b && b + 4 <= g.blocks[b].hi
  }

  lemma {:induction false} FreeSetup(mc: Machine, s: State, g: Layout, p: nat)
    requires Inv(mc, s, g) && p in s.live
    ensures p in g.base && g.base[p] in g.blocks
    ensures Frees(s, g, p, g.base[p], g.blocks[g.base[p]].bucket)
  {
    assert Holds(mc, s, g, Geometry) && Holds(mc, s, g, Lists) && Holds(mc, s, g, Pointers);
    BlockPlace(mc, s, g, g.base[p]);
    BlockSize(g.blocks, g.base[p]);
  }

  /** The header leads back to exactly the block and the bucket it came from. */
  lemma {:induction false} FreeRecovers(h: Heap, p: nat, b: nat, k: nat)
    requires Shaped(h) && TagOk(h.mem, p, b, k) && 0 < b && p < TWO32 && k <= 26
    ensures MemFree(h, p) == h.(mem := Store(h.mem, b, h.nextf[k]), nextf := h.nextf[k := b])
  {
  }

  lemma {:induction false} FreeMemory(s: State, g: Layout, p: nat, b: nat, k: nat)
    requires Frees(s, g, p, b, k)
    ensures SameOutside(s.h.mem, Store(s.h.mem, b, s.h.nextf[k]), Range(b, g.blocks[b].hi))
    ensures Load(Store(s.h.mem, b, s.h.nextf[k]), b) == s.h.nextf[k]
  {
    LoadStore(s.h.mem, b, s.h.nextf[k]);
    SameWiden(s.h.mem, Store(s.h.mem, b, s.h.nextf[k]), Range(b, b + 4), Range(b, g.blocks[b].hi));
  }

  lemma {:induction false} ReturnedListed(s: State, g: Layout, p: nat, b: nat, k: nat)
    requires Listed(g.lists, g.blocks) && Owned(g) && Frees(s, g, p, b, k)
    ensures Listed(Returned(g, p).lists, g.blocks)
  {
    var l := [b] + g.lists[k];
    assert forall i :: 0 < i < |l| ==> l[i] == g.lists[k][i - 1] && l[i] in g.lists[k];
  }

  lemma {:induction false} ReturnedOwned(s: State, g: Layout, p: nat, b: nat, k: nat)
    requires Owned(g) && Frees(s, g, p, b, k)
    ensures Owned(Returned(g, p)) && !IsLive(Returned(g, p), b)
  {
    var g' := Returned(g, p);
    assert forall q :: q in g'.base ==> q in g.base && q != p && g'.base[q] == g.base[q];
    assert forall c :: c in [b] + g.lists[k] ==> c == b || c in g.lists[k];
  }

  lemma {:induction false} ReturnedConserved(s: State, g: Layout, p: nat, b: nat, k: nat)
    requires Conserved(g) && Frees(s, g, p, b, k)
    ensures Conserved(Returned(g, p))
  {
    var g' := Returned(g, p);
    forall c | c in g'.blocks
      ensures IsFree(g', c) || IsLive(g', c)
    {
      if c == b {
        assert b in g'.lists[k];
      } else if IsFree(g, c) {
        var j :| 0 <= j < |g.lists| && c in g.lists[j];
        assert c in g'.lists[j];
      } else {
        var q :| q in g.base && g.base[q] == c;
        assert g'.base[q] == c;
      }
    }
  }

  lemma {:induction false} ReturnedFitted(s: State, g: Layout, p: nat, b: nat, k: nat)
    requires Fitted(s.live, g) && Frees(s, g, p, b, k)
    ensures Fitted(s.live - {p}, Returned(g, p))
  {
    var live', g' := s.live - {p}, Returned(g, p);
    assert forall q :: q in live' <==> q in s.live && q != p;
    assert forall q :: q in g'.base <==> q in g.base && q != p;
  }

  lemma {:induction false} ListCons(m: Memory, head: nat, l: seq<nat>, b: nat)
    requires ListAt(m, head, l) && b != 0 && Load(m, b) == head
    ensures ListAt(m, b, [b] + l)
  {
    var t := [b] + l;
    forall i | 0 <= i < |t|
      ensures t[i] != 0 && Load(m, t[i]) == Next(t, i)
    {
      if i > 0 {
        assert t[i] == l[i - 1] && Next(t, i) == Next(l, i - 1);
      }
    }
  }

  lemma {:induction false} FreeOthers(mc: Machine, s: State, g: Layout, p: nat, b: nat, k: nat)
    requires Inv(mc, s, g) && Frees(s, g, p, b, k)
    ensures Chains(Store(s.h.mem, b, s.h.nextf[k]), s.h.nextf, g.lists)
  {
    assert Holds(mc, s, g, Geometry) && Holds(mc, s, g, Lists) && Holds(mc, s, g, Owners) && Holds(mc, s, g, Links);
    FreeMemory(s, g, p, b, k);
    FreeApartFrom(g, b, Range(b, g.blocks[b].hi));
    ChainsFrame(s.h.mem, Store(s.h.mem, b, s.h.nextf[k]), Range(b, g.blocks[b].hi), s.h.nextf, g);
  }

  lemma {:induction false} FreeChains(mc: Machine, s: State, g: Layout, p: nat, b: nat, k: nat)
    requires Inv(mc, s, g) && Frees(s, g, p, b, k)
    ensures Chains(Store(s.h.mem, b, s.h.nextf[k]), s.h.nextf[k := b], Returned(g, p).lists)
  {
    FreeOthers(mc, s, g, p, b, k);
    FreeMemory(s, g, p, b, k);
    ChainsCons(Store(s.h.mem, b, s.h.nextf[k]), s.h.nextf, g.lists, k, b);
  }

  lemma {:induction false} ChainsCons(m: Memory, nextf: seq<nat>, lists: seq<seq<nat>>, k: nat, b: nat)
    requires Chains(m, nextf, lists) && k < NBUCKETS && b != 0 && Load(m, b) == nextf[k]
    ensures Chains(m, nextf[k := b], lists[k := [b] + lists[k]])
  {
    ListCons(m, nextf[k], lists[k], b);
  }

  lemma {:induction false} FreeTags(mc: Machine, s: State, g: Layout, p: nat, b: nat, k: nat)
    requires Inv(mc, s, g) && Frees(s, g, p, b, k)
    ensures Tagged(Store(s.h.mem, b, s.h.nextf[k]), Returned(g, p))
  {
    var g', m' := Returned(g, p), Store(s.h.mem, b, s.h.nextf[k]);
    assert Holds(mc, s, g, Geometry) && Holds(mc, s, g, Pointers) && Holds(mc, s, g, Owners);
    assert Holds(mc, s, g, Headers);
    FreeMemory(s, g, p, b, k);
    ReturnedFitted(s, g, p, b, k);
    ReturnedOwned(s, g, p, b, k);
    FreeBlockTags(s.live - {p}, g', b);
    ReturnedTagged(s.h.mem, g, p);
    TagsFrame(s.h.mem, m', Range(b, g.blocks[b].hi), g');
  }

  lemma {:induction false} FreeData(mc: Machine, s: State, g: Layout, p: nat, b: nat, k: nat)
    requires Inv(mc, s, g) && Frees(s, g, p, b, k)
    ensures DataKept(s.live - {p}, s.h.mem, Store(s.h.mem, b, s.h.nextf[k]))
  {
    assert Holds(mc, s, g, Geometry) && Holds(mc, s, g, Pointers) && Holds(mc, s, g, Owners);
    FreeMemory(s, g, p, b, k);
    ReturnedFitted(s, g, p, b, k);
    ReturnedOwned(s, g, p, b, k);
    FreeBlockData(s.live - {p}, Returned(g, p), b, s.h.mem, Store(s.h.mem, b, s.h.nextf[k]));
  }

  lemma {:induction false} ReturnedTagged(m: Memory, g: Layout, p: nat)
    requires Tagged(m, g) && p in g.base && g.base[p] in g.blocks && g.blocks[g.base[p]].bucket < |g.lists|
    ensures Tagged(m, Returned(g, p))
  {
  }

  /** Freeing a live pointer keeps the invariant and everybody else's data. */
  lemma {:induction false} FreeKeeps(mc: Machine, s: State, p: nat)
    requires Sound(mc, s) && p in s.live && p < TWO32
    ensures Sound(mc, AfterFree(s, p))
    ensures DataKept(s.live - {p}, s.h.mem, AfterFree(s, p).h.mem)
  {
    var g :| Inv(mc, s, g);
    FreeSetup(mc, s, g, p);
    var b := g.base[p];
    var k := g.blocks[b].bucket;
    assert Holds(mc, s, g, Headers);
    FreeRecovers(s.h, p, b, k);
    FreeData(mc, s, g, p, b, k);
    FreeInv(mc, s, g, p, b, k, AfterFree(s, p));
  }

  lemma {:induction false} FreeInv(mc: Machine, s: State, g: Layout, p: nat, b: nat, k: nat, s': State)
    requires Inv(mc, s, g) && Frees(s, g, p, b, k)
    requires s' == s.(h := s.h.(mem := Store(s.h.mem, b, s.h.nextf[k]), nextf := s.h.nextf[k := b]),
                      live := s.live - {p})
    ensures Sound(mc, s')
  {
    var g' := Returned(g, p);
    forall c
      ensures Holds(mc, s', g', c)
    {
      assert Holds(mc, s, g, c) && Holds(mc, s, g, Owners);
      match c
      case Lists => ReturnedListed(s, g, p, b, k);
      case Owners => ReturnedOwned(s, g, p, b, k);
      case Conservation => ReturnedConserved(s, g, p, b, k);
      case Links => FreeChains(mc, s, g, p, b, k);
      case Pointers => ReturnedFitted(s, g, p, b, k);
      case Headers => FreeTags(mc, s, g, p, b, k);
      case _ =>
    }
    assert Inv(mc, s', g');
  }
}
