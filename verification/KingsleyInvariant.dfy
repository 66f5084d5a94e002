/** What every run of the allocator keeps: the blocks tile the pages taken for them, each is
    live or on the free list of its size, and no operation touches another block. */
module KingsleyInvariant {

  import opened Bits
  import opened KingsleyModel

  /** An address range, `hi` excluded. */
  datatype Range = Range(lo: nat, hi: nat)

  predicate Apart(r: Range, s: Range) {
    r.hi <= s.lo || s.hi <= r.lo
  }

  /** What a client asked for. */
  datatype Request = Request(nbytes: nat, align: nat)

  /** The allocator together with what its clients hold, pointers from `bmk_memalloc` and
      page ranges that others took directly from `bmk_allocpg`, and with the page ranges that
      morecore has taken so far. */
  datatype State = State(h: Heap, live: map<nat, Request>, pages: seq<Range>, core: seq<Range>)

  /** A block ends at `hi`; its address is the key under which it is kept. */
  datatype Block = Block(bucket: nat, hi: nat)

  /** The witness of a well-formed heap: the free lists as sequences of block addresses, every
      block ever carved, and the block behind each live pointer. */
  datatype Layout = Layout(lists: seq<seq<nat>>, blocks: map<nat, Block>, base: map<nat, nat>)

  /** Blocks up to a page are aligned to their size, larger ones to a page. */
  function AlignBits(k: nat): nat {
    if k < 7 then k + MINSHIFT else 12
  }

  ghost predicate Within(mc: Machine, current: nat, r: Range) {
    && mc.membase <= r.lo <= r.hi <= mc.membase + mc.memsize
    && r.hi <= mc.membase + PAGE_SIZE * current
  }

  ghost predicate BlockOk(b: nat, blk: Block) {
    blk.bucket <= 26 && blk.hi == b + Size(blk.bucket) && Low(b, AlignBits(blk.bucket)) == 0
  }

  /** Every block has the size and alignment of its bucket. */
  ghost predicate Sized(blocks: map<nat, Block>) {
    forall b :: b in blocks ==> BlockOk(b, blocks[b])
  }

  /** No two blocks overlap. */
  ghost predicate Disjoint(blocks: map<nat, Block>) {
    forall b, c :: b in blocks && c in blocks && b < c ==> blocks[b].hi <= c
  }

  /** Blocks and pages lie in the memory handed out so far. */
  ghost predicate Bounded(mc: Machine, current: nat, blocks: map<nat, Block>, pages: seq<Range>) {
    && (forall b :: b in blocks ==> Within(mc, current, Range(b, blocks[b].hi)))
    && (forall i :: 0 <= i < |pages| ==> Within(mc, current, pages[i]))
  }

  /** Pages taken by others overlap neither blocks nor each other. */
  ghost predicate Foreign(blocks: map<nat, Block>, pages: seq<Range>) {
    && (forall i, b :: 0 <= i < |pages| && b in blocks ==> Apart(pages[i], Range(b, blocks[b].hi)))
    && (forall i, j :: 0 <= i < j < |pages| ==> Apart(pages[i], pages[j]))
  }

  ghost predicate InBlock(blocks: map<nat, Block>, a: nat) {
    exists b :: b in blocks && b <= a < blocks[b].hi
  }

  ghost predicate InCore(core: seq<Range>, a: nat) {
    exists i :: 0 <= i < |core| && core[i].lo <= a < core[i].hi
  }

  /** An address belongs to a block exactly when it lies in a page range taken by morecore. */
  ghost predicate Tiled(blocks: map<nat, Block>, core: seq<Range>) {
    forall a: nat :: InBlock(blocks, a) <==> InCore(core, a)
  }

  /** Free lists hold blocks of their own size, without repetition. */
  ghost predicate Listed(lists: seq<seq<nat>>, blocks: map<nat, Block>) {
    && |lists| == NBUCKETS
    && (forall k, b :: 0 <= k < NBUCKETS && b in lists[k] ==> b in blocks && blocks[b].bucket == k)
    && (forall k, i, j :: 0 <= k < NBUCKETS && 0 <= i < j < |lists[k]| ==> lists[k][i] != lists[k][j])
  }

  /** Live pointers have a block each, and none of these is on a free list. */
  ghost predicate Owned(g: Layout) {
    && (forall p :: p in g.base ==> g.base[p] in g.blocks)
    && (forall p, k :: p in g.base && 0 <= k < |g.lists| ==> g.base[p] !in g.lists[k])
    && (forall p, q :: p in g.base && q in g.base && p != q ==> g.base[p] != g.base[q])
  }

  ghost predicate IsFree(g: Layout, b: nat) {
    exists k :: 0 <= k < |g.lists| && b in g.lists[k]
  }

  ghost predicate IsLive(g: Layout, b: nat) {
    exists p :: p in g.base && g.base[p] == b
  }

  /** No block is lost: each is on a free list or behind a live pointer. */
  ghost predicate Conserved(g: Layout) {
    forall b :: b in g.blocks ==> IsFree(g, b) || IsLive(g, b)
  }

  /** What follows index `i` of a list: the next address, or NULL. */
  function Next(l: seq<nat>, i: nat): nat {
    if i + 1 < |l| then l[i + 1] else 0
  }

  /** A list threaded through memory: its head, the links, and NULL at the end. */
  ghost predicate ListAt(m: Memory, head: nat, l: seq<nat>) {
    && head == (if l == [] then 0 else l[0])
    && forall i {:trigger Next(l, i)} :: 0 <= i < |l| ==> l[i] != 0 && Load(m, l[i]) == Next(l, i)
  }

  ghost predicate Chains(m: Memory, nextf: seq<nat>, lists: seq<seq<nat>>) {
    |nextf| == NBUCKETS && |lists| == NBUCKETS &&
    forall k :: 0 <= k < NBUCKETS ==> ListAt(m, nextf[k], lists[k])
  }

  /** A live pointer is aligned as asked and at least like a pointer, and its header and data lie
      inside its block. */
  ghost predicate FitOk(p: nat, b: nat, hi: nat, req: Request) {
    && b + OVERHEAD <= p && p + req.nbytes <= hi && p < TWO32
    && And(p, EffectiveAlign(req.align) - 1) == 0 && Low(p, 2) == 0
  }

  ghost predicate Fitted(live: map<nat, Request>, g: Layout) {
    && (forall p :: p in live <==> p in g.base)
    && (forall p :: p in live ==>
          g.base[p] in g.blocks && FitOk(p, g.base[p], g.blocks[g.base[p]].hi, live[p]))
  }

  /** Its header says so. */
  ghost predicate TagOk(m: Memory, p: nat, b: nat, k: nat) {
    b <= p && Alignpad(m, p) == p - b && Magic(m, p) == MAGIC && Index(m, p) == k
  }

  ghost predicate Tagged(m: Memory, g: Layout) {
    forall p :: p in g.base ==>
      g.base[p] in g.blocks && TagOk(m, p, g.base[p], g.blocks[g.base[p]].bucket)
  }

  /** The clauses of the invariant; a proof names the ones it needs. */
  datatype Clause = Geometry | Region | Tiling | Lists | Owners | Conservation | Links | Pointers | Headers

  ghost predicate Holds(mc: Machine, s: State, g: Layout, c: Clause) {
    match c
    case Geometry => Sized(g.blocks) && Disjoint(g.blocks)
    case Region => Bounded(mc, s.h.current, g.blocks, s.pages) && Foreign(g.blocks, s.pages)
    case Tiling => Tiled(g.blocks, s.core)
    case Lists => Listed(g.lists, g.blocks)
    case Owners => Owned(g)
    case Conservation => Conserved(g)
    case Links => Chains(s.h.mem, s.h.nextf, g.lists)
    case Pointers => Fitted(s.live, g)
    case Headers => Tagged(s.h.mem, g)
  }

  ghost predicate Inv(mc: Machine, s: State, g: Layout) {
    && Boot(mc) && Shaped(s.h) && s.h.current < 0x10_0000
    && forall c :: Holds(mc, s, g, c)
  }

  ghost predicate Sound(mc: Machine, s: State) {
    exists g :: Inv(mc, s, g)
  }

  // ---- memory frames

  ghost predicate SameOutside(m: Memory, m': Memory, r: Range) {
    forall a: nat :: a < r.lo || r.hi <= a ==> At(m', a) == At(m, a)
  }

  /** A word is the sum of its bytes. */
  lemma {:induction false} WordBytes(v: nat)
    requires v < TWO32
    ensures v == v % 0x100 + 0x100 * (v / 0x100 % 0x100) + 0x1_0000 * (v / 0x1_0000 % 0x100)
                 + 0x100_0000 * (v / 0x100_0000)
  {
    var b := v / 0x100;
    var c := v / 0x1_0000;
    assert c == b / 0x100 && v / 0x100_0000 == c / 0x100;
    assert v == v % 0x100 + 0x100 * b;
    assert b == b % 0x100 + 0x100 * c;
    assert c == c % 0x100 + 0x100 * (c / 0x100);
  }

  lemma {:induction false} StoreBytes(m: Memory, a: nat, v: nat)
    requires v < TWO32
    ensures var m' := Store(m, a, v);
            && At(m', a) == v % 0x100 && At(m', a + 1) == v / 0x100 % 0x100
            && At(m', a + 2) == v / 0x1_0000 % 0x100 && At(m', a + 3) == v / 0x100_0000
            && SameOutside(m, m', Range(a, a + 4))
  {
  }

  lemma {:induction false} LoadStore(m: Memory, a: nat, v: nat)
    requires v < TWO32
    ensures Load(Store(m, a, v), a) == v
    ensures SameOutside(m, Store(m, a, v), Range(a, a + 4))
  {
    StoreBytes(m, a, v);
    WordBytes(v);
  }

  lemma {:induction false} LoadSame(m: Memory, m': Memory, r: Range, a: nat)
    requires SameOutside(m, m', r) && Apart(Range(a, a + 4), r)
    ensures Load(m', a) == Load(m, a)
  {
    assert forall i :: a <= i < a + 4 ==> At(m', i) == At(m, i);
  }

  lemma {:induction false} SameTrans(m: Memory, m': Memory, m'': Memory, r: Range)
    requires SameOutside(m, m', r) && SameOutside(m', m'', r)
    ensures SameOutside(m, m'', r)
  {
  }

  lemma {:induction false} SameWiden(m: Memory, m': Memory, r: Range, s: Range)
    requires SameOutside(m, m', r) && s.lo <= r.lo && r.hi <= s.hi
    ensures SameOutside(m, m', s)
  {
  }

  lemma {:induction false} SizeAtLeast(k: nat)
    ensures Size(k) >= 32
  {
    Sizes();
    PowMonotone(5, k + 5);
  }

  lemma {:induction false} ListFrame(m: Memory, m': Memory, r: Range, head: nat, l: seq<nat>)
    requires ListAt(m, head, l) && SameOutside(m, m', r)
    requires forall b :: b in l ==> Apart(Range(b, b + 4), r)
    ensures ListAt(m', head, l)
  {
    forall i | 0 <= i < |l|
      ensures Load(m', l[i]) == Next(l, i)
    {
      assert l[i] in l;
      LoadSame(m, m', r, l[i]);
    }
  }

  lemma {:induction false} TagFrame(m: Memory, m': Memory, r: Range, p: nat, b: nat, k: nat)
    requires TagOk(m, p, b, k) && SameOutside(m, m', r)
    requires OVERHEAD <= p < TWO32 && Apart(Range(p - OVERHEAD, p), r)
    ensures TagOk(m', p, b, k)
  {
    LoadSame(m, m', r, p - OVERHEAD);
  }

  /** Free blocks keep clear of a range. */
  ghost predicate FreeApart(g: Layout, r: Range) {
    forall k, b :: 0 <= k < |g.lists| && b in g.lists[k] ==> Apart(Range(b, b + 4), r)
  }

  /** Headers keep clear of a range. */
  ghost predicate TagsApart(g: Layout, r: Range) {
    forall p :: p in g.base ==> OVERHEAD <= p < TWO32 && (p <= r.lo || r.hi + OVERHEAD <= p)
  }

  /** A change inside one range leaves alone the lists and headers that keep clear of it. */
  lemma {:induction false} ChainsFrame(m: Memory, m': Memory, r: Range, nextf: seq<nat>, g: Layout)
    requires Chains(m, nextf, g.lists) && SameOutside(m, m', r) && FreeApart(g, r)
    ensures Chains(m', nextf, g.lists)
  {
    forall k | 0 <= k < NBUCKETS
      ensures ListAt(m', nextf[k], g.lists[k])
    {
      ListFrame(m, m', r, nextf[k], g.lists[k]);
    }
  }

  lemma {:induction false} TagsFrame(m: Memory, m': Memory, r: Range, g: Layout)
    requires Tagged(m, g) && SameOutside(m, m', r) && TagsApart(g, r)
    ensures Tagged(m', g)
  {
    forall p | p in g.base
      ensures TagOk(m', p, g.base[p], g.blocks[g.base[p]].bucket)
    {
      TagFrame(m, m', r, p, g.base[p], g.blocks[g.base[p]].bucket);
    }
  }

  /** Everything in another block is apart from this one. */
  lemma {:induction false} BlockApart(blocks: map<nat, Block>, b: nat, c: nat)
    requires Disjoint(blocks) && b in blocks && c in blocks && b != c
    ensures Apart(Range(b, blocks[b].hi), Range(c, blocks[c].hi))
  {
  }

  lemma {:induction false} BlockSize(blocks: map<nat, Block>, b: nat)
    requires Sized(blocks) && b in blocks
    ensures b + 32 <= blocks[b].hi
  {
    SizeAtLeast(blocks[b].bucket);
  }

  /** A range inside a block is apart from the free blocks, except possibly itself. */
  lemma {:induction false} FreeApartFrom(g: Layout, b: nat, r: Range)
    requires Sized(g.blocks) && Disjoint(g.blocks) && Listed(g.lists, g.blocks)
    requires b in g.blocks && b <= r.lo && r.hi <= g.blocks[b].hi
    requires forall k :: 0 <= k < NBUCKETS ==> b !in g.lists[k]
    ensures FreeApart(g, r)
  {
    forall k, c | 0 <= k < |g.lists| && c in g.lists[k]
      ensures Apart(Range(c, c + 4), r)
    {
      BlockSize(g.blocks, c);
      BlockApart(g.blocks, b, c);
    }
  }

  /** The data of a live pointer is apart from every header, its own included. */
  lemma {:induction false} DataApart(live: map<nat, Request>, g: Layout, p: nat)
    requires Disjoint(g.blocks) && Owned(g) && Fitted(live, g) && p in live
    ensures TagsApart(g, Range(p, p + live[p].nbytes))
  {
    var r := Range(p, p + live[p].nbytes);
    forall q | q in g.base
      ensures OVERHEAD <= q < TWO32 && (q <= r.lo || r.hi + OVERHEAD <= q)
    {
      if q != p {
        BlockApart(g.blocks, g.base[p], g.base[q]);
      }
    }
  }

  lemma {:induction false} WriteChains(mc: Machine, s: State, g: Layout, p: nat, m': Memory)
    requires Inv(mc, s, g) && p in s.live
    requires SameOutside(s.h.mem, m', Range(p, p + s.live[p].nbytes))
    ensures Chains(m', s.h.nextf, g.lists)
  {
    var r := Range(p, p + s.live[p].nbytes);
    assert Holds(mc, s, g, Geometry) && Holds(mc, s, g, Lists) && Holds(mc, s, g, Owners);
    assert Holds(mc, s, g, Links) && Holds(mc, s, g, Pointers);
    FreeApartFrom(g, g.base[p], r);
    ChainsFrame(s.h.mem, m', r, s.h.nextf, g);
  }

  lemma {:induction false} WriteTags(mc: Machine, s: State, g: Layout, p: nat, m': Memory)
    requires Inv(mc, s, g) && p in s.live
    requires SameOutside(s.h.mem, m', Range(p, p + s.live[p].nbytes))
    ensures Tagged(m', g)
  {
    assert Holds(mc, s, g, Geometry) && Holds(mc, s, g, Owners) && Holds(mc, s, g, Pointers);
    assert Holds(mc, s, g, Headers);
    DataApart(s.live, g, p);
    TagsFrame(s.h.mem, m', Range(p, p + s.live[p].nbytes), g);
  }

  /** A client that writes inside its own memory disturbs nothing. */
  lemma {:induction false} WriteKeeps(mc: Machine, s: State, p: nat, m': Memory)
    requires Sound(mc, s) && p in s.live
    requires SameOutside(s.h.mem, m', Range(p, p + s.live[p].nbytes))
    ensures Sound(mc, s.(h := s.h.(mem := m')))
  {
    var g :| Inv(mc, s, g);
    var s' := s.(h := s.h.(mem := m'));
    forall c
      ensures Holds(mc, s', g, c)
    {
      assert Holds(mc, s, g, c);
      match c
      case Links => WriteChains(mc, s, g, p, m');
      case Headers => WriteTags(mc, s, g, p, m');
      case _ =>
    }
    assert Inv(mc, s', g);
  }

  // ---- rounding up to an alignment

  lemma {:induction false} LowClear(y: nat, j: nat)
    ensures Low(y, j) <= y && Low(y - Low(y, j), j) == 0
  {
    if j == 0 {
    } else {
      LowClear(y / 2, j - 1);
      assert (y - Low(y, j)) / 2 == y / 2 - Low(y / 2, j - 1);
    }
  }

  lemma {:induction false} LowAddPow(x: nat, j: nat)
    ensures Low(x + Pow2(j), j) == Low(x, j)
  {
    if j == 0 {
    } else {
      LowAddPow(x / 2, j - 1);
      assert (x + Pow2(j)) / 2 == x / 2 + Pow2(j - 1);
    }
  }

  lemma {:induction false} RoundDown(y: nat, j: nat)
    requires y < TWO32 && j < 32
    ensures 0 < Pow2(j) < TWO32
    ensures And(y, TWO32 - Pow2(j)) == y - Low(y, j)
    ensures Low(y, j) < Pow2(j) && Low(y, j) <= y
  {
    Pow32();
    KnownPowers();
    PowMonotone(j, 31);
    AndAlign(32, y, j);
    LowBound(y, j);
  }

  lemma {:induction false} RoundUpValue(x: nat, j: nat)
    requires j < 32 && x + Pow2(j) <= TWO32
    ensures 0 < Pow2(j) < TWO32
    ensures var y := x + Pow2(j) - 1;
            RoundUp(x, Pow2(j)) == y - Low(y, j) && x <= y - Low(y, j)
  {
    RoundDown(x + Pow2(j) - 1, j);
  }

  lemma {:induction false} HeaderLow(j: nat)
    requires 2 <= j
    ensures Low(7 + Pow2(j), j) == if j == 2 then 3 else 7
  {
    LowAddPow(7, j);
    if j == 2 {
      assert Low(7, 2) == 3;
    } else {
      KnownPowers();
      PowMonotone(3, j);
      LowSmall(7, j);
    }
  }

  /** The header takes 8 bytes, or a whole unit of alignment when that is more. */
  lemma {:induction false} HeaderRoom(j: nat)
    requires 2 <= j < 32
    ensures 0 < Pow2(j) < TWO32
    ensures RoundUp(OVERHEAD, Pow2(j)) == if j == 2 then 8 else Pow2(j)
  {
    KnownPowers();
    PowMonotone(j, 31);
    HeaderLow(j);
    RoundUpValue(OVERHEAD, j);
  }

  lemma {:induction false} PointerLow(op: nat, j: nat)
    requires 2 <= j && Low(op, 3) == 0
    ensures var l := Low(op + 7 + Pow2(j), j);
            if j == 2 then l == 3 else 7 <= l
  {
    LowAddPow(op + 7, j);
    LowSeven(op);
    if j == 2 {
      SplitTwice(op + 7, 2, 1);
      assert Low(7, 2) == 3;
    } else {
      SplitTwice(op + 7, 3, j - 3);
      assert 3 + (j - 3) == j;
      LowBound(Low(op + 7, j), 3);
    }
  }

  lemma {:induction false} ClearedAligned(y: nat, j: nat)
    ensures Low(y, j) <= y && Low(y - Low(y, j), j) == 0 && And(y - Low(y, j), Pow2(j) - 1) == 0
  {
    LowClear(y, j);
    AndMask(y - Low(y, j), j);
  }

  /** From a block address that is a multiple of 8 the aligned pointer is never further than
      the header room that the size computation set aside. */
  lemma {:induction false} PointerPlace(op: nat, j: nat)
    requires 2 <= j < 32 && Low(op, 3) == 0 && op + OVERHEAD + Pow2(j) <= TWO32
    ensures 0 < Pow2(j) < TWO32
    ensures op + OVERHEAD <= RoundUp(op + OVERHEAD, Pow2(j)) <= op + RoundUp(OVERHEAD, Pow2(j))
  {
    HeaderRoom(j);
    RoundUpValue(op + OVERHEAD, j);
    PointerLow(op, j);
    KnownPowers();
  }

  lemma {:induction false} PointerAligned(op: nat, j: nat)
    requires j < 32 && op + OVERHEAD + Pow2(j) <= TWO32
    ensures 0 < Pow2(j) < TWO32
    ensures And(RoundUp(op + OVERHEAD, Pow2(j)), Pow2(j) - 1) == 0
    ensures 2 <= j ==> Low(RoundUp(op + OVERHEAD, Pow2(j)), 2) == 0
  {
    RoundUpValue(op + OVERHEAD, j);
    ClearedAligned(op + 7 + Pow2(j), j);
    if 2 <= j {
      LowFewer(op + 7 + Pow2(j) - Low(op + 7 + Pow2(j), j), 2, j);
    }
  }

  lemma {:induction false} LowFewer(x: nat, i: nat, j: nat)
    requires i <= j && Low(x, j) == 0
    ensures Low(x, i) == 0
  {
    SplitTwice(x, i, j - i);
    assert i + (j - i) == j;
    LowSmall(0, i);
  }

  lemma {:induction false} LowSeven(op: nat)
    requires Low(op, 3) == 0
    ensures Low(op + 7, 3) == 7
  {
    KnownPowers();
    SplitDivMod(op, 3);
    SplitDivMod(op + 7, 3);
  }
}
