/** More memory for the allocator: morecore carves pages from bmk_allocpg into blocks, and
    others may take pages in between. */
module KingsleyCore {

  import opened Bits
  import opened KingsleyModel
  import opened KingsleyInvariant
  import opened KingsleySteps

  // ---- the blocks of one chunk

  /** Addresses of `n` consecutive blocks of `sz` bytes. */
  function CarveList(p: nat, sz: nat, n: nat): seq<nat>
    decreases n
  {
    if n == 0 then [] else [p] + CarveList(p + sz, sz, n - 1)
  }

  function CarveMap(p: nat, sz: nat, n: nat, k: nat): map<nat, Block>
    decreases n
  {
    if n == 0 then map[] else CarveMap(p + sz, sz, n - 1, k)[p := Block(k, p + sz)]
  }

  /** Where they end. */
  function CarveEnd(p: nat, sz: nat, n: nat): nat
    decreases n
  {
    if n == 0 then p else CarveEnd(p + sz, sz, n - 1)
  }

  lemma {:induction false} CarveEndAfter(p: nat, sz: nat, n: nat)
    ensures p <= CarveEnd(p, sz, n)
    ensures 0 < n ==> p + sz <= CarveEnd(p, sz, n)
    decreases n
  {
    if n == 0 {
    } else {
      CarveEndAfter(p + sz, sz, n - 1);
    }
  }

  /** Every block lies between the ends. */
  lemma {:induction false} CarveBounds(p: nat, sz: nat, n: nat, k: nat)
    ensures forall b :: b in CarveMap(p, sz, n, k) ==>
              p <= b && b + sz <= CarveEnd(p, sz, n) && CarveMap(p, sz, n, k)[b] == Block(k, b + sz)
    decreases n
  {
    CarveEndAfter(p, sz, n);
    if n == 0 {
    } else {
      CarveBounds(p + sz, sz, n - 1, k);
    }
  }

  lemma {:induction false} CarveDisjoint(p: nat, sz: nat, n: nat, k: nat)
    ensures Disjoint(CarveMap(p, sz, n, k))
    decreases n
  {
    if n == 0 {
    } else {
      CarveDisjoint(p + sz, sz, n - 1, k);
      CarveBounds(p + sz, sz, n - 1, k);
    }
  }

  /** The blocks cover exactly what lies between the ends. */
  lemma {:induction false} CarveCovers(p: nat, sz: nat, n: nat, k: nat, a: nat)
    ensures InBlock(CarveMap(p, sz, n, k), a) <==> p <= a < CarveEnd(p, sz, n)
    decreases n
  {
    var blocks := CarveMap(p, sz, n, k);
    CarveBounds(p, sz, n, k);
    if n == 0 {
    } else {
      var rest := CarveMap(p + sz, sz, n - 1, k);
      CarveCovers(p + sz, sz, n - 1, k, a);
      CarveBounds(p + sz, sz, n - 1, k);
      CarveEndAfter(p, sz, n);
      if p <= a < p + sz {
        assert p in blocks;
      } else if InBlock(rest, a) {
        var b :| b in rest && b <= a < rest[b].hi;
        assert blocks[b] == rest[b] || b == p;
      }
    }
  }

  lemma {:induction false} CarveSame(p: nat, sz: nat, n: nat, k: nat, b: nat)
    ensures b in CarveList(p, sz, n) <==> b in CarveMap(p, sz, n, k)
    decreases n
  {
    if n == 0 {
    } else {
      CarveSame(p + sz, sz, n - 1, k, b);
    }
  }

  lemma {:induction false} CarveAscending(p: nat, sz: nat, n: nat)
    requires 0 < sz
    ensures |CarveList(p, sz, n)| == n
    ensures forall i :: 0 <= i < n ==> p <= CarveList(p, sz, n)[i]
    ensures forall i, j :: 0 <= i < j < n ==> CarveList(p, sz, n)[i] < CarveList(p, sz, n)[j]
    decreases n
  {
    if n == 0 {
    } else {
      CarveAscending(p + sz, sz, n - 1);
    }
  }

  lemma {:induction false} CarveAligned(p: nat, k: nat, n: nat, b: nat)
    requires Low(p, k + MINSHIFT) == 0 && b in CarveMap(p, Size(k), n, k)
    ensures Low(b, k + MINSHIFT) == 0
    decreases n
  {
    if b == p {
    } else {
      LowAddPow(p, k + MINSHIFT);
      CarveAligned(p + Size(k), k, n - 1, b);
    }
  }

  lemma {:induction false} ThreadNext(m: Memory, p: nat, sz: nat, n: nat)
    requires 1 < n && p + sz < TWO32
    ensures Thread(m, p, sz, n) == Thread(Store(m, p, p + sz), p + sz, sz, n - 1)
  {
  }

  /** Threading writes only inside the blocks. */
  lemma {:induction false} ThreadSame(m: Memory, p: nat, sz: nat, n: nat)
    requires 32 <= sz && 0 < n && CarveEnd(p, sz, n) < TWO32
    ensures SameOutside(m, Thread(m, p, sz, n), Range(p, CarveEnd(p, sz, n)))
    decreases n
  {
    var r := Range(p, CarveEnd(p, sz, n));
    CarveEndAfter(p, sz, n);
    if n == 1 {
      LoadStore(m, p, 0);
      SameWiden(m, Store(m, p, 0), Range(p, p + 4), r);
    } else {
      var m1 := Store(m, p, p + sz);
      var m2 := Thread(m1, p + sz, sz, n - 1);
      ThreadNext(m, p, sz, n);
      LoadStore(m, p, p + sz);
      SameWiden(m, m1, Range(p, p + 4), r);
      ThreadSame(m1, p + sz, sz, n - 1);
      SameWiden(m1, m2, Range(p + sz, r.hi), r);
      SameTrans(m, m1, m2, r);
    }
  }

  /** Threading makes a list of exactly these blocks. */
  lemma {:induction false} ThreadLists(m: Memory, p: nat, sz: nat, n: nat)
    requires 0 < p && 32 <= sz && 0 < n && CarveEnd(p, sz, n) < TWO32
    ensures ListAt(Thread(m, p, sz, n), p, CarveList(p, sz, n))
    decreases n
  {
    CarveEndAfter(p, sz, n);
    if n == 1 {
      LoadStore(m, p, 0);
      assert CarveList(p, sz, 1) == [p];
    } else {
      CarveEndAfter(p + sz, sz, n - 1);
      ThreadNext(m, p, sz, n);
      ThreadLists(Store(m, p, p + sz), p + sz, sz, n - 1);
      ThreadLink(m, p, sz, n);
      ListCons(Thread(m, p, sz, n), p + sz, CarveList(p + sz, sz, n - 1), p);
    }
  }

  lemma {:induction false} FirstLink(m: Memory, m': Memory, p: nat, sz: nat, hi: nat)
    requires SameOutside(m, m', Range(p + sz, hi)) && 4 <= sz
    ensures Load(m', p) == Load(m, p)
  {
    LoadSame(m, m', Range(p + sz, hi), p);
  }

  lemma {:induction false} ThreadLink(m: Memory, p: nat, sz: nat, n: nat)
    requires 32 <= sz && 1 < n && CarveEnd(p, sz, n) < TWO32
    ensures Load(Thread(m, p, sz, n), p) == p + sz
  {
    CarveEndAfter(p, sz, n);
    CarveEndAfter(p + sz, sz, n - 1);
    ThreadNext(m, p, sz, n);
    LoadStore(m, p, p + sz);
    ThreadSame(Store(m, p, p + sz), p + sz, sz, n - 1);
    FirstLink(Store(m, p, p + sz), Thread(m, p, sz, n), p, sz, CarveEnd(p, sz, n));
  }

  // ---- how many pages

  lemma {:induction false} CarveEndTimes(p: nat, sz: nat, n: nat)
    ensures CarveEnd(p, sz, n) == p + Times(n, sz)
    decreases n
  {
    if n == 0 {
    } else {
      CarveEndTimes(p + sz, sz, n - 1);
    }
  }

  lemma {:induction false} BlocksFillPage(k: nat)
    requires k <= 7
    ensures Times(Pow2(7 - k), Size(k)) == PAGE_SIZE
    decreases 7 - k
  {
    Sizes();
    if k == 7 {
      assert Times(1, Size(7)) == Size(7);
    } else {
      BlocksFillPage(k + 1);
      TimesDouble(Pow2(6 - k), Size(k));
      TimesScale(Pow2(6 - k), Size(k));
    }
  }

  lemma {:induction false} TimesScale(n: nat, x: nat)
    ensures Times(n, 2 * x) == 2 * Times(n, x)
  {
    if n == 0 {
    } else {
      TimesScale(n - 1, x);
    }
  }

  lemma {:induction false} SizeInPages(k: nat)
    requires 7 <= k
    ensures Size(k) == PAGE_SIZE * Pow2(k - 7)
  {
    Sizes();
    if k == 7 {
    } else {
      SizeInPages(k - 1);
    }
  }

  /** One morecore takes exactly the pages that its blocks fill. */
  lemma {:induction false} CoreFillsPages(p: nat, k: nat)
    ensures 0 < CoreBlocks(k)
    ensures CarveEnd(p, Size(k), CoreBlocks(k)) == p + PAGE_SIZE * CorePages(k)
  {
    if k < 7 {
      CarveEndTimes(p, Size(k), Pow2(7 - k));
      BlocksFillPage(k);
    } else {
      SizeInPages(k);
      assert CarveEnd(p, Size(k), 1) == CarveEnd(p + Size(k), Size(k), 0);
    }
  }

  // ---- pages handed out

  lemma {:induction false} PageAligned(mc: Machine, current: nat)
    requires Boot(mc)
    ensures Low(mc.membase + PAGE_SIZE * current, 12) == 0
  {
    KnownPowers();
    SplitDivMod(mc.membase + PAGE_SIZE * current, 12);
  }

  /** Below the point where the page counter times the page size wraps, the page source hands
      out fresh memory or says no. */
  lemma {:induction false} AllocPgExact(mc: Machine, current: nat, n: nat)
    requires Boot(mc) && current + n < 0x10_0000
    ensures AllocPg(mc, current, n).1 == current + n
    ensures var p := mc.membase + PAGE_SIZE * current;
            if (current + n) * PAGE_SIZE <= mc.memsize
            then AllocPg(mc, current, n).0 == p && 0 < p && p + PAGE_SIZE * n < TWO32
            else AllocPg(mc, current, n).0 == 0
  {
  }

  /** Everything handed out so far lies below an address. */
  ghost predicate Below(blocks: map<nat, Block>, pages: seq<Range>, p: nat) {
    && (forall b :: b in blocks ==> b < p && blocks[b].hi <= p)
    && (forall i :: 0 <= i < |pages| ==> pages[i].hi <= p)
  }

  lemma {:induction false} BelowCounter(mc: Machine, s: State, g: Layout)
    requires Inv(mc, s, g)
    ensures Below(g.blocks, s.pages, mc.membase + PAGE_SIZE * s.h.current)
  {
    assert Holds(mc, s, g, Geometry) && Holds(mc, s, g, Region);
    forall b | b in g.blocks
      ensures b < g.blocks[b].hi <= mc.membase + PAGE_SIZE * s.h.current
    {
      BlockSize(g.blocks, b);
    }
  }

  lemma {:induction false} CounterBounded(mc: Machine, current: nat, current': nat,
                                          blocks: map<nat, Block>, pages: seq<Range>)
    requires Bounded(mc, current, blocks, pages) && current <= current'
    ensures Bounded(mc, current', blocks, pages)
  {
  }

  /** Moving the page counter without taking pages, as a failed request does. */
  lemma {:induction false} CounterKeeps(mc: Machine, s: State, current': nat)
    requires Sound(mc, s) && s.h.current <= current' < 0x10_0000
    ensures Sound(mc, s.(h := s.h.(current := current')))
  {
    var g :| Inv(mc, s, g);
    var s' := s.(h := s.h.(current := current'));
    forall c
      ensures Holds(mc, s', g, c)
    {
      assert Holds(mc, s, g, c);
      match c
      case Region => CounterBounded(mc, s.h.current, current', g.blocks, s.pages);
      case _ =>
    }
    assert Inv(mc, s', g);
  }

  // ---- pages for others

  lemma {:induction false} PagesForeign(blocks: map<nat, Block>, pages: seq<Range>, r: Range)
    requires Foreign(blocks, pages) && Below(blocks, pages, r.lo)
    ensures Foreign(blocks, pages + [r])
  {
  }

  lemma {:induction false} PagesBounded(mc: Machine, current: nat, n: nat, blocks: map<nat, Block>, pages: seq<Range>)
    requires Bounded(mc, current, blocks, pages) && (current + n) * PAGE_SIZE <= mc.memsize
    ensures var p := mc.membase + PAGE_SIZE * current;
            Bounded(mc, current + n, blocks, pages + [Range(p, p + PAGE_SIZE * n)])
  {
    CounterBounded(mc, current, current + n, blocks, pages);
  }

  /** What a direct request for pages does. */
  function AfterPages(mc: Machine, s: State, n: nat): State {
    var (p, current) := AllocPg(mc, s.h.current, n);
    var s' := s.(h := s.h.(current := current));
    if p == 0 then s' else s'.(pages := s.pages + [Range(p, p + PAGE_SIZE * n)])
  }

  lemma {:induction false} PagesTaken(mc: Machine, s: State, g: Layout, n: nat)
    requires Inv(mc, s, g) && (s.h.current + n) * PAGE_SIZE <= mc.memsize && s.h.current + n < 0x10_0000
    ensures var p := mc.membase + PAGE_SIZE * s.h.current;
            Sound(mc, s.(h := s.h.(current := s.h.current + n), pages := s.pages + [Range(p, p + PAGE_SIZE * n)]))
  {
    var p := mc.membase + PAGE_SIZE * s.h.current;
    var r := Range(p, p + PAGE_SIZE * n);
    var s' := s.(h := s.h.(current := s.h.current + n), pages := s.pages + [r]);
    forall c
      ensures Holds(mc, s', g, c)
    {
      assert Holds(mc, s, g, c);
      match c
      case Region =>
        BelowCounter(mc, s, g);
        PagesForeign(g.blocks, s.pages, r);
        PagesBounded(mc, s.h.current, n, g.blocks, s.pages);
      case _ =>
    }
    assert Inv(mc, s', g);
  }

  /** Pages taken by others are fresh: apart from all blocks and all other pages. */
  lemma {:induction false} PagesKeep(mc: Machine, s: State, n: nat)
    requires Sound(mc, s) && s.h.current + n < 0x10_0000
    ensures Sound(mc, AfterPages(mc, s, n))
  {
    var g :| Inv(mc, s, g);
    AllocPgExact(mc, s.h.current, n);
    if (s.h.current + n) * PAGE_SIZE <= mc.memsize {
      PagesTaken(mc, s, g, n);
    } else {
      CounterKeeps(mc, s, s.h.current + n);
    }
  }

  // ---- pages for the allocator

  /** The layout after a chunk at `p` was carved into blocks for the empty list `k`. */
  function Cored(g: Layout, p: nat, k: nat): Layout
    requires k < |g.lists|
  {
    var sz, n := Size(k), CoreBlocks(k);
    g.(lists := g.lists[k := CarveList(p, sz, n)],
       blocks := g.blocks + CarveMap(p, sz, n, k))
  }

  ghost predicate Cores(g: Layout, pages: seq<Range>, p: nat, k: nat) {
    && k <= 26 && |g.lists| == NBUCKETS && g.lists[k] == []
    && Below(g.blocks, pages, p) && 0 < p && Low(p, 12) == 0 && 0 < CoreBlocks(k)
    && CarveEnd(p, Size(k), CoreBlocks(k)) < TWO32
  }

  lemma {:induction false} CoredOld(g: Layout, pages: seq<Range>, p: nat, k: nat, b: nat)
    requires Cores(g, pages, p, k) && b in g.blocks
    ensures b in Cored(g, p, k).blocks && Cored(g, p, k).blocks[b] == g.blocks[b]
  {
    CarveBounds(p, Size(k), CoreBlocks(k), k);
  }

  lemma {:induction false} CoredSized(g: Layout, pages: seq<Range>, p: nat, k: nat)
    requires Sized(g.blocks) && Cores(g, pages, p, k)
    ensures Sized(Cored(g, p, k).blocks)
  {
    var carved, blocks := CarveMap(p, Size(k), CoreBlocks(k), k), Cored(g, p, k).blocks;
    CarveBounds(p, Size(k), CoreBlocks(k), k);
    forall b | b in blocks
      ensures BlockOk(b, blocks[b])
    {
      if b in carved {
        NewAligned(g, pages, p, k, b);
      }
    }
  }

  lemma {:induction false} NewAligned(g: Layout, pages: seq<Range>, p: nat, k: nat, b: nat)
    requires Cores(g, pages, p, k) && b in CarveMap(p, Size(k), CoreBlocks(k), k)
    ensures Low(b, AlignBits(k)) == 0
  {
    if k < 7 {
      SplitTwice(p, k + MINSHIFT, 7 - k);
      assert (k + MINSHIFT) + (7 - k) == 12;
      LowSmall(0, k + MINSHIFT);
      CarveAligned(p, k, CoreBlocks(k), b);
    } else {
      assert CarveMap(p + Size(k), Size(k), 0, k) == map[];
      assert b == p;
    }
  }

  lemma {:induction false} CoredDisjoint(g: Layout, pages: seq<Range>, p: nat, k: nat)
    requires Disjoint(g.blocks) && Cores(g, pages, p, k)
    ensures Disjoint(Cored(g, p, k).blocks)
  {
    CarveBounds(p, Size(k), CoreBlocks(k), k);
    CarveDisjoint(p, Size(k), CoreBlocks(k), k);
  }

  lemma {:induction false} CoredForeign(g: Layout, pages: seq<Range>, p: nat, k: nat)
    requires Foreign(g.blocks, pages) && Cores(g, pages, p, k)
    ensures Foreign(Cored(g, p, k).blocks, pages)
  {
    CarveBounds(p, Size(k), CoreBlocks(k), k);
  }

  lemma {:induction false} CoredBounded(mc: Machine, current: nat, g: Layout, pages: seq<Range>, p: nat, k: nat)
    requires Bounded(mc, current, g.blocks, pages) && Cores(g, pages, p, k)
    requires p == mc.membase + PAGE_SIZE * current && (current + CorePages(k)) * PAGE_SIZE <= mc.memsize
    ensures Bounded(mc, current + CorePages(k), Cored(g, p, k).blocks, pages)
  {
    CounterBounded(mc, current, current + CorePages(k), g.blocks, pages);
    CarveBounds(p, Size(k), CoreBlocks(k), k);
    CoreFillsPages(p, k);
  }

  lemma {:induction false} CoredTiled(g: Layout, core: seq<Range>, pages: seq<Range>, p: nat, k: nat)
    requires Tiled(g.blocks, core) && Cores(g, pages, p, k)
    ensures Tiled(Cored(g, p, k).blocks, core + [Range(p, p + PAGE_SIZE * CorePages(k))])
  {
    var carved, g' := CarveMap(p, Size(k), CoreBlocks(k), k), Cored(g, p, k);
    var r := Range(p, p + PAGE_SIZE * CorePages(k));
    CoreFillsPages(p, k);
    CarveBounds(p, Size(k), CoreBlocks(k), k);
    forall a: nat
      ensures InBlock(g'.blocks, a) <==> InCore(core + [r], a)
    {
      CarveCovers(p, Size(k), CoreBlocks(k), k, a);
      BlockUnion(g.blocks, carved, p, a);
      CoreAppend(core, r, a);
    }
  }

  lemma {:induction false} BlockUnion(old': map<nat, Block>, new': map<nat, Block>, p: nat, a: nat)
    requires (forall b :: b in old' ==> b < p) && (forall b :: b in new' ==> p <= b)
    ensures InBlock(old' + new', a) <==> InBlock(old', a) || InBlock(new', a)
  {
    var both := old' + new';
    if InBlock(old', a) {
      var b :| b in old' && b <= a < old'[b].hi;
      assert both[b] == old'[b];
    }
    if InBlock(new', a) {
      var b :| b in new' && b <= a < new'[b].hi;
      assert both[b] == new'[b];
    }
  }

  lemma {:induction false} CoreAppend(core: seq<Range>, r: Range, a: nat)
    ensures InCore(core + [r], a) <==> InCore(core, a) || r.lo <= a < r.hi
  {
    var all := core + [r];
    if InCore(core, a) {
      var i :| 0 <= i < |core| && core[i].lo <= a < core[i].hi;
      assert all[i] == core[i];
    }
    if r.lo <= a < r.hi {
      assert all[|core|] == r;
    }
  }

  lemma {:induction false} CoredListed(g: Layout, pages: seq<Range>, p: nat, k: nat)
    requires Listed(g.lists, g.blocks) && Cores(g, pages, p, k)
    ensures Listed(Cored(g, p, k).lists, Cored(g, p, k).blocks)
  {
    var l, g' := CarveList(p, Size(k), CoreBlocks(k)), Cored(g, p, k);
    SizeAtLeast(k);
    CarveAscending(p, Size(k), CoreBlocks(k));
    CarveBounds(p, Size(k), CoreBlocks(k), k);
    forall j, b | 0 <= j < NBUCKETS && b in g'.lists[j]
      ensures b in g'.blocks && g'.blocks[b].bucket == j
    {
      if j == k {
        CarveSame(p, Size(k), CoreBlocks(k), k, b);
      } else {
        CoredOld(g, pages, p, k, b);
      }
    }
  }

  lemma {:induction false} CoredOwned(g: Layout, pages: seq<Range>, p: nat, k: nat)
    requires Owned(g) && Cores(g, pages, p, k)
    ensures Owned(Cored(g, p, k))
  {
    var g' := Cored(g, p, k);
    forall q | q in g.base
      ensures g.base[q] !in CarveList(p, Size(k), CoreBlocks(k))
    {
      CarveSame(p, Size(k), CoreBlocks(k), k, g.base[q]);
      CarveBounds(p, Size(k), CoreBlocks(k), k);
    }
  }

  lemma {:induction false} CoredConserved(g: Layout, pages: seq<Range>, p: nat, k: nat)
    requires Conserved(g) && Cores(g, pages, p, k)
    ensures Conserved(Cored(g, p, k))
  {
    var g' := Cored(g, p, k);
    forall b | b in g'.blocks
      ensures IsFree(g', b) || IsLive(g', b)
    {
      CarveSame(p, Size(k), CoreBlocks(k), k, b);
      if b in CarveMap(p, Size(k), CoreBlocks(k), k) {
        assert b in g'.lists[k];
      } else if IsFree(g, b) {
        var j :| 0 <= j < |g.lists| && b in g.lists[j];
        assert b in g'.lists[j];
      } else {
        var q :| q in g.base && g.base[q] == b;
        assert g'.base[q] == b;
      }
    }
  }

  lemma {:induction false} CoredFitted(live: map<nat, Request>, m: Memory, g: Layout, pages: seq<Range>, p: nat, k: nat)
    requires Fitted(live, g) && Tagged(m, g) && Cores(g, pages, p, k)
    ensures Fitted(live, Cored(g, p, k)) && Tagged(m, Cored(g, p, k))
  {
    forall q | q in g.base
      ensures g.base[q] in Cored(g, p, k).blocks && Cored(g, p, k).blocks[g.base[q]] == g.blocks[g.base[q]]
    {
      CoredOld(g, pages, p, k, g.base[q]);
    }
  }

  /** Fresh pages are apart from all lists and headers. */
  lemma {:induction false} FreshApart(live: map<nat, Request>, g: Layout, pages: seq<Range>, p: nat, hi: nat)
    requires Sized(g.blocks) && Listed(g.lists, g.blocks) && Fitted(live, g) && Below(g.blocks, pages, p)
    ensures FreeApart(g, Range(p, hi)) && TagsApart(g, Range(p, hi))
  {
    forall k, b | 0 <= k < |g.lists| && b in g.lists[k]
      ensures b + 4 <= p
    {
      BlockSize(g.blocks, b);
    }
  }

  /** The layout and the memory after carving. */
  ghost predicate Carved(s: State, g: Layout, p: nat, k: nat, g': Layout, m': Memory) {
    && Cores(g, s.pages, p, k) && g' == Cored(g, p, k)
    && m' == Thread(s.h.mem, p, Size(k), CoreBlocks(k))
  }

  lemma {:induction false} CoreChains(mc: Machine, s: State, g: Layout, p: nat, k: nat, g': Layout, m': Memory)
    requires Inv(mc, s, g) && Carved(s, g, p, k, g', m')
    ensures Chains(m', s.h.nextf[k := p], g'.lists)
  {
    var r := Range(p, CarveEnd(p, Size(k), CoreBlocks(k)));
    assert Holds(mc, s, g, Geometry) && Holds(mc, s, g, Lists) && Holds(mc, s, g, Links) && Holds(mc, s, g, Pointers);
    SizeAtLeast(k);
    FreshApart(s.live, g, s.pages, p, r.hi);
    ThreadSame(s.h.mem, p, Size(k), CoreBlocks(k));
    ThreadLists(s.h.mem, p, Size(k), CoreBlocks(k));
    ChainsFrame(s.h.mem, m', r, s.h.nextf, g);
  }

  lemma {:induction false} CoreTags(mc: Machine, s: State, g: Layout, p: nat, k: nat, g': Layout, m': Memory)
    requires Inv(mc, s, g) && Carved(s, g, p, k, g', m')
    ensures Fitted(s.live, g') && Tagged(m', g')
  {
    var r := Range(p, CarveEnd(p, Size(k), CoreBlocks(k)));
    assert Holds(mc, s, g, Geometry) && Holds(mc, s, g, Lists) && Holds(mc, s, g, Pointers) && Holds(mc, s, g, Headers);
    SizeAtLeast(k);
    FreshApart(s.live, g, s.pages, p, r.hi);
    ThreadSame(s.h.mem, p, Size(k), CoreBlocks(k));
    TagsFrame(s.h.mem, m', r, g);
    CoredFitted(s.live, m', g, s.pages, p, k);
  }

  lemma {:induction false} CoreData(mc: Machine, s: State, g: Layout, p: nat, k: nat, g': Layout, m': Memory)
    requires Inv(mc, s, g) && Carved(s, g, p, k, g', m')
    ensures DataKept(s.live, s.h.mem, m')
  {
    assert Holds(mc, s, g, Pointers);
    SizeAtLeast(k);
    ThreadSame(s.h.mem, p, Size(k), CoreBlocks(k));
    FreshData(s.live, g, s.pages, p, CarveEnd(p, Size(k), CoreBlocks(k)), s.h.mem, m');
  }

  /** Fresh pages are apart from all data. */
  lemma {:induction false} FreshData(live: map<nat, Request>, g: Layout, pages: seq<Range>, p: nat, hi: nat,
                                     m: Memory, m': Memory)
    requires Fitted(live, g) && Below(g.blocks, pages, p) && SameOutside(m, m', Range(p, hi))
    ensures DataKept(live, m, m')
  {
  }

  lemma {:induction false} CoreGeometry(mc: Machine, s: State, g: Layout, p: nat, k: nat, g': Layout, m': Memory)
    requires Inv(mc, s, g) && Carved(s, g, p, k, g', m')
    requires p == mc.membase + PAGE_SIZE * s.h.current
    requires (s.h.current + CorePages(k)) * PAGE_SIZE <= mc.memsize
    ensures Sized(g'.blocks) && Disjoint(g'.blocks) && Foreign(g'.blocks, s.pages)
    ensures Bounded(mc, s.h.current + CorePages(k), g'.blocks, s.pages)
  {
    assert Holds(mc, s, g, Geometry) && Holds(mc, s, g, Region);
    CoredSized(g, s.pages, p, k);
    CoredDisjoint(g, s.pages, p, k);
    CoredForeign(g, s.pages, p, k);
    CoredBounded(mc, s.h.current, g, s.pages, p, k);
  }

  lemma {:induction false} CoreSetup(mc: Machine, s: State, g: Layout, k: nat)
    requires Inv(mc, s, g) && k <= 26 && s.h.nextf[k] == 0
    requires (s.h.current + CorePages(k)) * PAGE_SIZE <= mc.memsize
    ensures Cores(g, s.pages, mc.membase + PAGE_SIZE * s.h.current, k)
  {
    var p := mc.membase + PAGE_SIZE * s.h.current;
    assert Holds(mc, s, g, Links);
    assert ListAt(s.h.mem, s.h.nextf[k], g.lists[k]) && Next(g.lists[k], 0) < TWO32;
    BelowCounter(mc, s, g);
    PageAligned(mc, s.h.current);
    CoreFillsPages(p, k);
  }

  /** The page range, if any, that one morecore takes. */
  function CoreRange(mc: Machine, h: Heap, k: nat): seq<Range> {
    var op := AllocPg(mc, h.current, CorePages(k)).0;
    if op == 0 then [] else [Range(op, op + PAGE_SIZE * CorePages(k))]
  }

  function AfterCore(mc: Machine, s: State, k: nat): State
    requires Shaped(s.h) && k < NBUCKETS
  {
    s.(h := MoreCore(mc, s.h, k), core := s.core + CoreRange(mc, s.h, k))
  }

  /** The next pages are carved into blocks for list `k`. */
  function CoreTaken(mc: Machine, h: Heap, k: nat): Heap
    requires Shaped(h) && k <= 26
  {
    var p := mc.membase + PAGE_SIZE * h.current;
    Heap(Thread(h.mem, p, Size(k), CoreBlocks(k)), h.nextf[k := p], h.current + CorePages(k), h.pagesz, h.pagebucket)
  }

  lemma {:induction false} MoreCoreTakes(mc: Machine, s: State, g: Layout, k: nat, p: nat, g': Layout, s': State)
    requires Inv(mc, s, g) && k <= 26 && s.h.nextf[k] == 0 && s.h.current + CorePages(k) < 0x10_0000
    requires (s.h.current + CorePages(k)) * PAGE_SIZE <= mc.memsize
    requires p == mc.membase + PAGE_SIZE * s.h.current && Carved(s, g, p, k, g', s'.h.mem)
    requires s' == s.(h := CoreTaken(mc, s.h, k), core := s.core + [Range(p, p + PAGE_SIZE * CorePages(k))])
    ensures Sound(mc, s')
  {
    CarveEndAfter(p, Size(k), CoreBlocks(k));
    forall c
      ensures Holds(mc, s', g', c)
    {
      assert Holds(mc, s, g, c);
      match c
      case Geometry => CoreGeometry(mc, s, g, p, k, g', s'.h.mem);
      case Region => CoreGeometry(mc, s, g, p, k, g', s'.h.mem);
      case Tiling => CoredTiled(g, s.core, s.pages, p, k);
      case Lists => CoredListed(g, s.pages, p, k);
      case Owners => CoredOwned(g, s.pages, p, k);
      case Conservation => CoredConserved(g, s.pages, p, k);
      case Links => CoreChains(mc, s, g, p, k, g', s'.h.mem);
      case Pointers => CoreTags(mc, s, g, p, k, g', s'.h.mem);
      case Headers => CoreTags(mc, s, g, p, k, g', s'.h.mem);
    }
    assert Inv(mc, s', g');
  }

  lemma {:induction false} CoreTakenKeeps(mc: Machine, s: State, k: nat, p: nat, s': State)
    requires Sound(mc, s) && k <= 26 && s.h.nextf[k] == 0 && s.h.current + CorePages(k) < 0x10_0000
    requires (s.h.current + CorePages(k)) * PAGE_SIZE <= mc.memsize
    requires p == mc.membase + PAGE_SIZE * s.h.current
    requires s' == s.(h := CoreTaken(mc, s.h, k), core := s.core + [Range(p, p + PAGE_SIZE * CorePages(k))])
    ensures Sound(mc, s') && DataKept(s.live, s.h.mem, s'.h.mem)
  {
    var g :| Inv(mc, s, g);
    CoreSetup(mc, s, g, k);
    var g' := Cored(g, p, k);
    MoreCoreTakes(mc, s, g, k, p, g', s');
    CoreData(mc, s, g, p, k, g', s'.h.mem);
  }

  /** What morecore makes of a heap while the page counter is below its limit. */
  lemma {:induction false} MoreCoreExact(mc: Machine, h: Heap, k: nat)
    requires Boot(mc) && Shaped(h) && k <= 26 && h.current + CorePages(k) < 0x10_0000
    ensures var p := mc.membase + PAGE_SIZE * h.current;
            if (h.current + CorePages(k)) * PAGE_SIZE <= mc.memsize
            then && MoreCore(mc, h, k) == CoreTaken(mc, h, k)
                 && CoreRange(mc, h, k) == [Range(p, p + PAGE_SIZE * CorePages(k))]
            else MoreCore(mc, h, k) == h.(current := h.current + CorePages(k)) && CoreRange(mc, h, k) == []
  {
    AllocPgExact(mc, h.current, CorePages(k));
  }

  lemma {:induction false} OutcomeKeeps(mc: Machine, s: State, k: nat, p: nat, s': State)
    requires Sound(mc, s) && k <= 26 && s.h.nextf[k] == 0 && s.h.current + CorePages(k) < 0x10_0000
    requires p == mc.membase + PAGE_SIZE * s.h.current
    requires s' == if (s.h.current + CorePages(k)) * PAGE_SIZE <= mc.memsize
                   then s.(h := CoreTaken(mc, s.h, k), core := s.core + [Range(p, p + PAGE_SIZE * CorePages(k))])
                   else s.(h := s.h.(current := s.h.current + CorePages(k)))
    ensures Sound(mc, s') && DataKept(s.live, s.h.mem, s'.h.mem)
  {
    if (s.h.current + CorePages(k)) * PAGE_SIZE <= mc.memsize {
      CoreTakenKeeps(mc, s, k, p, s');
    } else {
      CounterKeeps(mc, s, s.h.current + CorePages(k));
    }
  }

  lemma {:induction false} AfterCoreExact(mc: Machine, s: State, k: nat, p: nat)
    requires Boot(mc) && Shaped(s.h) && k <= 26 && s.h.current + CorePages(k) < 0x10_0000
    requires p == mc.membase + PAGE_SIZE * s.h.current
    ensures AfterCore(mc, s, k) ==
            if (s.h.current + CorePages(k)) * PAGE_SIZE <= mc.memsize
            then s.(h := CoreTaken(mc, s.h, k), core := s.core + [Range(p, p + PAGE_SIZE * CorePages(k))])
            else s.(h := s.h.(current := s.h.current + CorePages(k)))
  {
    MoreCoreExact(mc, s.h, k);
    assert s.core + [] == s.core;
  }

  /** Carving fresh pages for an empty list keeps the invariant and everybody's data. */
  lemma {:induction false} MoreCoreKeeps(mc: Machine, s: State, k: nat)
    requires Sound(mc, s) && k <= 26 && s.h.nextf[k] == 0 && s.h.current + CorePages(k) < 0x10_0000
    ensures Sound(mc, AfterCore(mc, s, k)) && DataKept(s.live, s.h.mem, AfterCore(mc, s, k).h.mem)
  {
    var p := mc.membase + PAGE_SIZE * s.h.current;
    AfterCoreExact(mc, s, k, p);
    OutcomeKeeps(mc, s, k, p, AfterCore(mc, s, k));
  }
}
