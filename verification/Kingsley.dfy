/** The allocator as the C code has it: static variables updated in place, loops over sizes and
    blocks.  Every method computes the function of the same name in KingsleyModel. */
module Kingsley {

  import opened Basics
  import opened Bits
  import Model = KingsleyModel
  import opened KingsleyInvariant

  const PAGE_SIZE := Model.PAGE_SIZE
  const MINSHIFT := Model.MINSHIFT
  const NBUCKETS := Model.NBUCKETS
  const OVERHEAD := Model.OVERHEAD

  /** Blocks in a page, and their size back from that. */
  lemma {:induction false} PageBlocks(k: nat)
    requires k < 7
    ensures PAGE_SIZE / Model.Size(k) == Model.CoreBlocks(k)
    ensures PAGE_SIZE / Model.CoreBlocks(k) == Model.Size(k)
  {
    assert Pow2(1) == 2 && Pow2(2) == 4 && Pow2(3) == 8 && Pow2(4) == 16 && Pow2(5) == 32 && Pow2(6) == 64;
    assert Pow2(7) == 128 && Pow2(8) == 256 && Pow2(9) == 512 && Pow2(10) == 1024 && Pow2(11) == 2048;
    assert k == 0 || k == 1 || k == 2 || k == 3 || k == 4 || k == 5 || k == 6;
  }

  class Allocator {
    const mc: Model.Machine
    var mem: Model.Memory
    const nextf: array<nat>
    var current: nat
    var pagesz: nat
    var pagebucket: nat

    ghost function Value(): Model.Heap
      reads this, nextf
    {
      Model.Heap(mem, nextf[..], current, pagesz, pagebucket)
    }

    ghost predicate Valid()
      reads this, nextf
    {
      Model.Shaped(Value())
    }

    constructor (mc: Model.Machine, mem: Model.Memory)
      ensures Valid() && fresh(nextf) && this.mc == mc
      ensures Value() == Model.Heap(mem, seq(NBUCKETS, _ => 0), 0, 0, 0)
    {
      this.mc := mc;
      this.mem := mem;
      nextf := new nat[NBUCKETS](_ => 0);
      current := 0;
      pagesz := 0;
      pagebucket := 0;
      new;
      assert nextf[..] == seq(NBUCKETS, _ => 0);
    }

    method AllocPg(howmany: nat) returns (rv: nat)
      modifies this`current
      ensures (rv, current) == Model.AllocPg(mc, old(current), howmany) && rv < TWO32
    {
      WrapMod(mc.membase + PAGE_SIZE * current);
      WrapMod(current + howmany);
      rv := (mc.membase + PAGE_SIZE * current) % TWO32;
      current := (current + howmany) % TWO32;
      WrapMod(current * PAGE_SIZE);
      if current * PAGE_SIZE % TWO32 > mc.memsize {
        rv := 0;
      }
    }

    method CoreAlloc(shift: nat) returns (rv: nat)
      modifies this`current
      ensures (rv, current) == Model.AllocPg(mc, old(current), Pow2(shift)) && rv < TWO32
    {
      rv := AllocPg(Pow2(shift));
    }

    /** Threads blocks into a list, as the end of morecore does. */
    method ThreadBlocks(first: nat, sz: nat, blocks: nat)
      requires 0 < blocks
      modifies this`mem
      ensures mem == Model.Thread(old(mem), first, sz, blocks)
    {
      var op: nat, nblks: nat := first, blocks - 1;
      while nblks > 0
        invariant Model.Thread(mem, op, sz, nblks + 1) == Model.Thread(old(mem), first, sz, blocks)
      {
        WrapMod(op + sz);
        LoadStore(mem, op, (op + sz) % TWO32);
        mem := Model.Store(mem, op, (op + sz) % TWO32);
        op := Model.Load(mem, op);
        nblks := nblks - 1;
      }
      mem := Model.Store(mem, op, 0);
    }

    method MoreCore(bucket: nat)
      requires Valid() && pagesz == PAGE_SIZE && bucket < NBUCKETS
      modifies this`current, this`mem, nextf
      ensures Valid() && Value() == Model.MoreCore(mc, old(Value()), bucket)
    {
      var amt, nblks, sz := 0, 1, 0;
      if bucket < pagebucket {
        PageBlocks(bucket);
        nblks := pagesz / Pow2(bucket + MINSHIFT);
        sz := pagesz / nblks;
      } else {
        amt := bucket - pagebucket;
      }
      var op := CoreAlloc(amt);
      if op == 0 {
        return;
      }
      nextf[bucket] := op;
      ThreadBlocks(op, sz, nblks);
    }

    /** The first call learns the page size and which bucket holds a page. */
    method InitPages()
      requires Valid()
      modifies this`pagesz, this`pagebucket
      ensures Valid() && Value() == Model.PageInit(old(Value())) && pagesz == PAGE_SIZE
    {
      if pagesz == 0 {
        pagesz := PAGE_SIZE;
        var bucket, amt := 0, 32;
        Model.Sizes();
        while pagesz > amt
          invariant bucket <= 7 && amt == Model.Size(bucket)
          decreases 7 - bucket
        {
          amt := 2 * amt;
          bucket := bucket + 1;
        }
        PowMonotone(bucket + MINSHIFT, 12);
        assert bucket == 7 by {
          if bucket < 7 {
            PowMonotone(bucket + MINSHIFT, 11);
          }
        }
        pagebucket := bucket;
      }
    }

    /** The smallest bucket that holds a number of bytes, unless its size wraps to 0. */
    method FindBucket(allocbytes: nat) returns (r: Option<nat>)
      requires Valid() && pagesz == PAGE_SIZE
      ensures r == Model.Bucket(allocbytes)
    {
      Model.Sizes();
      var amt, bucket := 32, 0;
      if allocbytes > pagesz {
        amt, bucket := pagesz, pagebucket;
      }
      while allocbytes > amt
        invariant bucket <= 26 && amt == Model.Size(bucket) && amt < TWO32
        invariant Model.Grow(allocbytes, amt, bucket) == Model.Bucket(allocbytes)
        decreases 26 - bucket
      {
        if bucket < 26 {
          PowMonotone(bucket + 1 + MINSHIFT, 31);
        }
        amt := 2 * amt % TWO32;
        if amt == 0 {
          return None;
        }
        bucket := bucket + 1;
      }
      r := Some(bucket);
    }

    /** Unlinks the first block of a list, aligns the pointer and writes the header. */
    method Take(bucket: nat, align: nat) returns (rv: nat)
      requires Valid() && bucket < NBUCKETS && 0 < align < TWO32
      modifies this`mem, nextf
      ensures Valid() && (Value(), rv) == Model.Take(old(Value()), bucket, align)
    {
      var op := nextf[bucket];
      nextf[bucket] := Model.Load(mem, op);
      WrapMod(op + OVERHEAD + align - 1);
      rv := And((op + OVERHEAD + align - 1) % TWO32, TWO32 - align);
      var alignpad := Model.Back(rv, op);
      mem := mem[Model.Back(rv, 4) := Model.MAGIC];
      mem := mem[Model.Back(rv, 3) := bucket];
      mem := Model.Store(mem, Model.Back(rv, OVERHEAD), alignpad);
    }

    method MemAlloc(nbytes: nat, align: nat) returns (rv: nat)
      requires Valid() && nbytes < TWO32 && align < TWO32
      modifies this, nextf
      ensures Valid() && (Value(), rv) == Model.MemAlloc(mc, old(Value()), nbytes, align)
    {
      InitPages();
      if And(align, (align - 1) % TWO32) != 0 {
        return 0;
      }
      var al := if align < Model.PTR_SIZE then Model.PTR_SIZE else align;
      var bucket := FindBucket(Model.Need(nbytes, al));
      if bucket.None? {
        return 0;
      }
      if nextf[bucket.value] == 0 {
        MoreCore(bucket.value);
        if nextf[bucket.value] == 0 {
          return 0;
        }
      }
      rv := Take(bucket.value, al);
    }

    method MemFree(cp: nat)
      requires Valid() && cp < TWO32
      modifies this`mem, nextf
      ensures Valid() && Value() == Model.MemFree(old(Value()), cp)
    {
      if cp == 0 || Model.Magic(mem, cp) != Model.MAGIC {
        return;
      }
      var size, alignpad := Model.Index(mem, cp), Model.Alignpad(mem, cp);
      if size >= NBUCKETS {
        return;
      }
      var origp := Model.Back(cp, alignpad);
      mem := Model.Store(mem, origp, nextf[size]);
      nextf[size] := origp;
    }

    /** bmk_memcpy */
    method MemCpy(dst: nat, src: nat, n: nat)
      modifies this`mem
      ensures mem == Model.Copy(old(mem), dst, src, n)
    {
      var d: nat, s: nat, left := dst, src, n;
      while left > 0
        invariant Model.Copy(mem, d, s, left) == Model.Copy(old(mem), dst, src, n)
      {
        mem := mem[d := Model.At(mem, s)];
        d, s, left := d + 1, s + 1, left - 1;
      }
    }

    method MemRealloc(cp: nat, nbytes: nat) returns (np: nat)
      requires Valid() && cp < TWO32 && nbytes < TWO32
      modifies this, nextf
      ensures Valid() && (Value(), np) == Model.MemRealloc(mc, old(Value()), cp, nbytes)
    {
      if cp == 0 {
        np := MemAlloc(nbytes, 8);
        return;
      }
      if nbytes == 0 {
        MemFree(cp);
        return 0;
      }
      var size, alignpad := Model.Index(mem, cp), Model.Alignpad(mem, cp);
      var usable := Model.Back(Model.Size(size), alignpad + OVERHEAD);
      if usable >= nbytes {
        return cp;
      }
      np := MemAlloc(nbytes, 8);
      if np == 0 {
        return;
      }
      MemCpy(np, cp, usable);
      MemFree(cp);
    }
  }
}
