/** The kernel's storage allocator as functions on values: memalloc.c over bmk_allocpg.

    The state is what the C code has: the bytes of memory, the heads of the free lists, the
    page counter, and the page size that the first allocation fills in.  Addresses and sizes
    are 32-bit words; every sum that the C code lets wrap around wraps here too. */
module KingsleyModel {

  import opened Basics
  import opened Bits

  const PAGE_SIZE: nat := 4096
  const MINSHIFT: nat := 5
  const NBUCKETS: nat := 30
  const MAGIC: Byte := 0xef
  /** sizeof(union overhead) and sizeof(void *) on i386 */
  const OVERHEAD: nat := 8
  const PTR_SIZE: nat := 4

  // ---- memory

  type Memory = map<nat, Byte>

  function At(m: Memory, a: nat): Byte {
    if a in m then m[a] else 0
  }

  /** A 32-bit little-endian load and store. */
  function Load(m: Memory, a: nat): nat {
    At(m, a) + 0x100 * At(m, a + 1) + 0x1_0000 * At(m, a + 2) + 0x100_0000 * At(m, a + 3)
  }

  function Store(m: Memory, a: nat, v: nat): Memory
    requires v < TWO32
  {
    m[a := v % 0x100][a + 1 := v / 0x100 % 0x100]
     [a + 2 := v / 0x1_0000 % 0x100][a + 3 := v / 0x100_0000]
  }

  /** bmk_memcpy: byte by byte, upwards. */
  function Copy(m: Memory, dst: nat, src: nat, n: nat): Memory
    decreases n
  {
    if n == 0 then m else Copy(m[dst := At(m, src)], dst + 1, src + 1, n - 1)
  }

  // ---- bmk_allocpg

  /** Where physical memory begins and how much of it there is. */
  datatype Machine = Machine(membase: nat, memsize: nat)

  /** The pages start at a page boundary above address 0 and end below 4 GB. */
  ghost predicate Boot(mc: Machine) {
    0 < mc.membase && mc.membase % PAGE_SIZE == 0 && mc.membase + mc.memsize < TWO32
  }

  /** The address handed out (0 for NULL) and the new page counter, which moves even on failure. */
  function AllocPg(mc: Machine, current: nat, howmany: nat): (nat, nat) {
    var rv := Wrap(mc.membase + PAGE_SIZE * current);
    var next := Wrap(current + howmany);
    (if Wrap(next * PAGE_SIZE) > mc.memsize then 0 else rv, next)
  }

  // ---- bmk_memalloc, morecore, bmk_memfree, bmk_memrealloc

  datatype Heap = Heap(mem: Memory, nextf: seq<nat>, current: nat, pagesz: nat, pagebucket: nat)

  predicate Shaped(h: Heap) {
    && |h.nextf| == NBUCKETS
    && (forall k :: 0 <= k < NBUCKETS ==> h.nextf[k] < TWO32)
    && (h.pagesz == 0 || (h.pagesz == PAGE_SIZE && h.pagebucket == 7))
  }

  function Size(k: nat): nat {
    Pow2(k + MINSHIFT)
  }

  function PageInit(h: Heap): Heap {
    if h.pagesz == 0 then h.(pagesz := PAGE_SIZE, pagebucket := 7) else h
  }

  /** The smallest bucket from `bucket` on that holds `need` bytes, unless its size overflows. */
  function Grow(need: nat, amt: nat, bucket: nat): (r: Option<nat>)
    requires bucket <= 26 && amt == Size(bucket)
    ensures r.Some? ==> bucket <= r.value <= 26
    decreases 26 - bucket
  {
    if need <= amt then Some(bucket)
    else if bucket == 26 then None
    else Grow(need, 2 * amt, bucket + 1)
  }

  lemma {:induction false} Sizes()
    ensures Size(0) == 32 && Size(7) == PAGE_SIZE && Size(26) == 0x8000_0000 && 2 * Size(26) == TWO32
  {
    KnownPowers();
  }

  function Bucket(need: nat): (r: Option<nat>)
    ensures r.Some? ==> r.value <= 26
  {
    Sizes();
    if need <= PAGE_SIZE then Grow(need, 32, 0) else Grow(need, PAGE_SIZE, 7)
  }

  function EffectiveAlign(align: nat): nat {
    if align < PTR_SIZE then PTR_SIZE else align
  }

  predicate BadAlign(align: nat) {
    And(align, (align - 1) % TWO32) != 0
  }

  /** Rounding up to a multiple of a power of two, in 32-bit arithmetic. */
  function RoundUp(x: nat, align: nat): nat
    requires 0 < align < TWO32
  {
    And(Wrap(x + align - 1), TWO32 - align)
  }

  function Need(nbytes: nat, align: nat): nat
    requires 0 < align < TWO32
  {
    Wrap(nbytes + RoundUp(OVERHEAD, align))
  }

  /** Pages, blocks and block size of one morecore. */
  function CorePages(k: nat): nat {
    if k < 7 then 1 else Pow2(k - 7)
  }

  function CoreBlocks(k: nat): nat {
    if k < 7 then Pow2(7 - k) else 1
  }

  /** Threads `n` blocks of `sz` bytes, the first at `op`, into a list. */
  function Thread(m: Memory, op: nat, sz: nat, n: nat): Memory
    decreases n
  {
    if n <= 1 then Store(m, op, 0)
    else
      WrapMod(op + sz);
      Thread(Store(m, op, Wrap(op + sz)), Wrap(op + sz), sz, n - 1)
  }

  function MoreCore(mc: Machine, h: Heap, k: nat): (h': Heap)
    requires Shaped(h) && k < NBUCKETS
    ensures Shaped(h')
  {
    var (op, next) := AllocPg(mc, h.current, CorePages(k));
    WrapMod(mc.membase + PAGE_SIZE * h.current);
    if op == 0 then h.(current := next)
    else h.(current := next, nextf := h.nextf[k := op], mem := Thread(h.mem, op, Size(k), CoreBlocks(k)))
  }

  /** Address arithmetic backwards from a pointer. */
  function Back(p: nat, n: nat): (a: nat)
    ensures n <= p < TWO32 ==> a == p - n
  {
    (p - n) % TWO32
  }

  /** The header in front of a user pointer: padding, magic number, bucket. */
  function StoreHeader(m: Memory, rv: nat, alignpad: nat, k: nat): Memory
    requires alignpad < TWO32 && k < 256
  {
    Store(m[Back(rv, 4) := MAGIC][Back(rv, 3) := k], Back(rv, OVERHEAD), alignpad)
  }

  function Alignpad(m: Memory, cp: nat): (r: nat)
    ensures r < TWO32
  {
    Load(m, Back(cp, OVERHEAD))
  }

  function Magic(m: Memory, cp: nat): Byte {
    At(m, Back(cp, 4))
  }

  function Index(m: Memory, cp: nat): Byte {
    At(m, Back(cp, 3))
  }

  /** Takes the first block off list `k` and writes the header. */
  function Take(h: Heap, k: nat, align: nat): (r: (Heap, nat))
    requires Shaped(h) && k < NBUCKETS && 0 < align < TWO32
    ensures Shaped(r.0) && r.1 < TWO32
  {
    var op := h.nextf[k];
    var rv := RoundUp(op + OVERHEAD, align);
    (h.(nextf := h.nextf[k := Load(h.mem, op)],
        mem := StoreHeader(h.mem, rv, Back(rv, op), k)),
     rv)
  }

  function MemAlloc(mc: Machine, h: Heap, nbytes: nat, align: nat): (r: (Heap, nat))
    requires Shaped(h) && nbytes < TWO32 && align < TWO32
    ensures Shaped(r.0) && r.1 < TWO32
  {
    var h := PageInit(h);
    if BadAlign(align) then (h, 0)
    else
      var al := EffectiveAlign(align);
      match Bucket(Need(nbytes, al))
      case None => (h, 0)
      case Some(k) =>
        var h' := if h.nextf[k] == 0 then MoreCore(mc, h, k) else h;
        if h'.nextf[k] == 0 then (h', 0) else Take(h', k, al)
  }

  /** A header without the magic number is ignored; one with a bucket out of range stops the
      kernel in an assertion, after which nothing changes any more. */
  function MemFree(h: Heap, cp: nat): (h': Heap)
    requires Shaped(h) && cp < TWO32
    ensures Shaped(h')
  {
    if cp == 0 || Magic(h.mem, cp) != MAGIC then h
    else
      var k := Index(h.mem, cp);
      if k >= NBUCKETS then h
      else
        var origp := Back(cp, Alignpad(h.mem, cp));
        h.(mem := Store(h.mem, origp, h.nextf[k]), nextf := h.nextf[k := origp])
  }

  /** What a reallocation takes to be usable of an old block, and copies out of it. */
  function Usable(m: Memory, cp: nat): nat {
    Back(Size(Index(m, cp)), Alignpad(m, cp) + OVERHEAD)
  }

  function MemRealloc(mc: Machine, h: Heap, cp: nat, nbytes: nat): (r: (Heap, nat))
    requires Shaped(h) && cp < TWO32 && nbytes < TWO32
    ensures Shaped(r.0) && r.1 < TWO32
  {
    if cp == 0 then MemAlloc(mc, h, nbytes, 8)
    else if nbytes == 0 then (MemFree(h, cp), 0)
    else if Usable(h.mem, cp) >= nbytes then (h, cp)
    else
      var (h', np) := MemAlloc(mc, h, nbytes, 8);
      if np == 0 then (h', 0)
      else (MemFree(h'.(mem := Copy(h'.mem, np, cp, Usable(h.mem, cp))), cp), np)
  }
}
