/** What bmk_memrealloc promises, and exactly when a block survives being moved. */
module KingsleyRealloc {

  import opened Basics
  import opened Bits
  import opened KingsleyModel
  import opened KingsleyInvariant
  import opened KingsleySteps
  import opened KingsleyCore
  import opened KingsleyAlloc

  // ---- bmk_memcpy

  lemma {:induction false} CopySame(m: Memory, dst: nat, src: nat, n: nat)
    ensures SameOutside(m, Copy(m, dst, src, n), Range(dst, dst + n))
    decreases n
  {
    if n == 0 {
    } else {
      var m1 := m[dst := At(m, src)];
      CopySame(m1, dst + 1, src + 1, n - 1);
      SameWiden(m1, Copy(m, dst, src, n), Range(dst + 1, dst + n), Range(dst, dst + n));
      SameTrans(m, m1, Copy(m, dst, src, n), Range(dst, dst + n));
    }
  }

  lemma {:induction false} CopyBytes(m: Memory, dst: nat, src: nat, n: nat, i: nat)
    requires Apart(Range(dst, dst + n), Range(src, src + n)) && i < n
    ensures At(Copy(m, dst, src, n), dst + i) == At(m, src + i)
    decreases n
  {
    var m1 := m[dst := At(m, src)];
    if i == 0 {
      CopySame(m1, dst + 1, src + 1, n - 1);
    } else {
      CopyBytes(m1, dst + 1, src + 1, n - 1, i - 1);
    }
  }

  // ---- bmk_memrealloc

  /** The client's side of a reallocation. */
  function AfterRealloc(mc: Machine, s: State, p: nat, nbytes: nat): State
    requires Shaped(s.h) && p < TWO32 && nbytes < TWO32
  {
    var (h, np) := MemRealloc(mc, s.h, p, nbytes);
    if p == 0 then Client(s, s.core + AllocCore(mc, s.h, nbytes, 8), h, np, Request(nbytes, 8))
    else if nbytes == 0 then s.(h := h, live := s.live - {p})
    else
      var core := if nbytes <= Usable(s.h.mem, p) then s.core else s.core + AllocCore(mc, s.h, nbytes, 8);
      if p !in s.live || np == 0 then s.(h := h, core := core)
      else if np == p then s.(h := h, live := s.live[p := Request(nbytes, s.live[p].align)], core := core)
      else s.(h := h, live := (s.live - {p})[np := Request(nbytes, 8)], core := core)
  }

  /** Bytes from a live pointer to the end of its block. */
  function Room(m: Memory, p: nat): int {
    Size(Index(m, p)) - Alignpad(m, p)
  }

  /** In place: the header's own size does not exceed what is left behind the pointer, or the
      new size fits anyway. */
  ghost predicate ResizeSafe(m: Memory, p: nat, nbytes: nat) {
    OVERHEAD <= Room(m, p) || nbytes <= Room(m, p)
  }

  lemma {:induction false} ResizeFitted(live: map<nat, Request>, g: Layout, p: nat, nbytes: nat)
    requires Fitted(live, g) && p in live && p in g.base && g.base[p] in g.blocks
    requires p + nbytes <= g.blocks[g.base[p]].hi
    ensures Fitted(live[p := Request(nbytes, live[p].align)], g)
  {
  }

  /** A live pointer may grow or shrink up to the end of its block. */
  lemma {:induction false} ResizeKeeps(mc: Machine, s: State, p: nat, nbytes: nat)
    requires Sound(mc, s) && p in s.live && nbytes <= Room(s.h.mem, p)
    ensures Sound(mc, s.(live := s.live[p := Request(nbytes, s.live[p].align)]))
  {
    var g :| Inv(mc, s, g);
    var s' := s.(live := s.live[p := Request(nbytes, s.live[p].align)]);
    forall c
      ensures Holds(mc, s', g, c)
    {
      assert Holds(mc, s, g, c);
      match c
      case Pointers => ResizePointers(mc, s, g, p, nbytes);
      case _ =>
    }
    assert Inv(mc, s', g);
  }

  lemma {:induction false} ResizePointers(mc: Machine, s: State, g: Layout, p: nat, nbytes: nat)
    requires Inv(mc, s, g) && p in s.live && nbytes <= Room(s.h.mem, p)
    ensures Fitted(s.live[p := Request(nbytes, s.live[p].align)], g)
  {
    assert Holds(mc, s, g, Geometry) && Holds(mc, s, g, Pointers) && Holds(mc, s, g, Headers);
    var b := g.base[p];
    assert TagOk(s.h.mem, p, b, g.blocks[b].bucket) && BlockOk(b, g.blocks[b]);
    ResizeFitted(s.live, g, p, nbytes);
  }

  lemma {:induction false} BackWraps(x: nat, n: nat)
    requires x < TWO32 && n <= x + OVERHEAD
    ensures Back(x, n) == if n <= x then x - n else TWO32 + x - n
  {
  }

  /** What a reallocation takes to be usable falls short of the room by the size of a header,
      and wraps around when less than a header is left. */
  lemma {:induction false} UsableRoom(m: Memory, p: nat, req: Request)
    requires Placed(m, p, req)
    ensures p < TWO32 && req.nbytes <= Room(m, p) < TWO32
    ensures Usable(m, p) == if OVERHEAD <= Room(m, p) then Room(m, p) - OVERHEAD
                            else TWO32 + Room(m, p) - OVERHEAD
  {
    BackWraps(Size(Index(m, p)), Alignpad(m, p) + OVERHEAD);
  }

  /** The room behind a live pointer goes to the end of its block. */
  lemma {:induction false} RoomEnd(mc: Machine, s: State, g: Layout, p: nat)
    requires Inv(mc, s, g) && p in s.live
    ensures p in g.base && g.base[p] in g.blocks && g.base[p] <= p
    ensures 0 <= Room(s.h.mem, p) && p + Room(s.h.mem, p) == g.blocks[g.base[p]].hi
  {
    assert Holds(mc, s, g, Geometry) && Holds(mc, s, g, Pointers) && Holds(mc, s, g, Headers);
    assert TagOk(s.h.mem, p, g.base[p], g.blocks[g.base[p]].bucket) && BlockOk(g.base[p], g.blocks[g.base[p]]);
  }

  /** The whole blocks behind two live pointers are apart. */
  lemma {:induction false} RoomsApart(mc: Machine, s: State, p: nat, q: nat)
    requires Sound(mc, s) && p in s.live && q in s.live && p != q
    ensures 0 <= Room(s.h.mem, p) && 0 <= Room(s.h.mem, q)
    ensures Apart(Range(p, p + Room(s.h.mem, p)), Range(q, q + Room(s.h.mem, q)))
  {
    var g :| Inv(mc, s, g);
    RoomEnd(mc, s, g, p);
    RoomEnd(mc, s, g, q);
    assert Holds(mc, s, g, Geometry) && Holds(mc, s, g, Owners);
    BlockApart(g.blocks, g.base[p], g.base[q]);
  }

  /** A write inside one pointer's data leaves the data of the others alone. */
  lemma {:induction false} WriteData(mc: Machine, s: State, p: nat, m': Memory)
    requires Sound(mc, s) && p in s.live
    requires SameOutside(s.h.mem, m', Range(p, p + s.live[p].nbytes))
    ensures DataKept(s.live - {p}, s.h.mem, m')
  {
    forall q | q in s.live - {p}
      ensures SameWithin(s.h.mem, m', Extent(q, s.live[q]))
    {
      LiveApart(mc, s, p, q);
      LivePlaced(mc, s, p);
      LivePlaced(mc, s, q);
    }
  }

  lemma {:induction false} DataKeptSub(live: map<nat, Request>, sub: map<nat, Request>, m: Memory, m': Memory)
    requires DataKept(live, m, m')
    requires forall p :: p in sub ==> p in live && live[p] == sub[p]
    ensures DataKept(sub, m, m')
  {
  }

  lemma {:induction false} RoomKept(live: map<nat, Request>, m: Memory, m': Memory, p: nat)
    requires DataKept(live, m, m') && p in live && OVERHEAD <= p < TWO32
    ensures Room(m', p) == Room(m, p)
  {
    assert SameWithin(m, m', Extent(p, live[p]));
    assert forall a: nat :: p - OVERHEAD <= a < p ==> At(m', a) == At(m, a);
  }

  lemma {:induction false} CopyKeeps(mc: Machine, s: State, np: nat, src: nat, u: nat)
    requires Sound(mc, s) && np in s.live && u <= s.live[np].nbytes
    ensures var m' := Copy(s.h.mem, np, src, u);
            Sound(mc, s.(h := s.h.(mem := m'))) && DataKept(s.live - {np}, s.h.mem, m')
  {
    var m' := Copy(s.h.mem, np, src, u);
    CopySame(s.h.mem, np, src, u);
    SameWiden(s.h.mem, m', Range(np, np + u), Range(np, np + s.live[np].nbytes));
    WriteKeeps(mc, s, np, m');
    WriteData(mc, s, np, m');
  }

  /** From a state in which both the old pointer and the new one are live: copy, then free the
      old one. */
  function MovedOver(s: State, p: nat, np: nat, u: nat): State
    requires Shaped(s.h) && p < TWO32
  {
    AfterFree(s.(h := s.h.(mem := Copy(s.h.mem, np, p, u))), p)
  }

  lemma {:induction false} MoveKeeps(mc: Machine, s: State, p: nat, np: nat, u: nat)
    requires Sound(mc, s) && p in s.live && p < TWO32 && np in s.live && p != np && u <= s.live[np].nbytes
    ensures Sound(mc, MovedOver(s, p, np, u))
    ensures DataKept(s.live - {p, np}, s.h.mem, MovedOver(s, p, np, u).h.mem)
    ensures DataKept(s.live - {p}, Copy(s.h.mem, np, p, u), MovedOver(s, p, np, u).h.mem)
  {
    var m', s3 := Copy(s.h.mem, np, p, u), MovedOver(s, p, np, u);
    CopyKeeps(mc, s, np, p, u);
    FreeKeeps(mc, s.(h := s.h.(mem := m')), p);
    DataKeptSub(s.live - {np}, s.live - {p, np}, s.h.mem, m');
    DataKeptSub(s.live - {p}, s.live - {p, np}, m', s3.h.mem);
    DataKeptTrans(s.live - {p, np}, s.h.mem, m', s3.h.mem);
  }

  lemma {:induction false} ByteKept(live: map<nat, Request>, m: Memory, m': Memory, p: nat, i: nat)
    requires DataKept(live, m, m') && p in live && i < live[p].nbytes
    ensures At(m', p + i) == At(m, p + i)
  {
    assert SameWithin(m, m', Extent(p, live[p]));
  }

  lemma {:induction false} CopyArrives(mc: Machine, s: State, p: nat, np: nat, u: nat, i: nat)
    requires Sound(mc, s) && p in s.live && np in s.live && p != np && u <= s.live[np].nbytes
    requires u <= Room(s.h.mem, p) && i < u
    ensures At(Copy(s.h.mem, np, p, u), np + i) == At(s.h.mem, p + i)
  {
    RoomsApart(mc, s, p, np);
    LivePlaced(mc, s, np);
    CopyBytes(s.h.mem, np, p, u, i);
  }

  /** The bytes that are copied arrive, and the free that follows leaves them alone. */
  lemma {:induction false} MoveCopies(mc: Machine, s: State, p: nat, np: nat, u: nat, i: nat)
    requires Sound(mc, s) && p in s.live && p < TWO32 && np in s.live && p != np && u <= s.live[np].nbytes
    requires u <= Room(s.h.mem, p) && i < u
    ensures At(MovedOver(s, p, np, u).h.mem, np + i) == At(s.h.mem, p + i)
  {
    MoveKeeps(mc, s, p, np, u);
    CopyArrives(mc, s, p, np, u, i);
    ByteKept(s.live - {p}, Copy(s.h.mem, np, p, u), MovedOver(s, p, np, u).h.mem, np, i);
  }

  // ---- without an old pointer, and without a new size

  lemma {:induction false} NullUnfold(mc: Machine, s: State, nbytes: nat)
    requires Shaped(s.h) && nbytes < TWO32
    ensures MemRealloc(mc, s.h, 0, nbytes) == MemAlloc(mc, s.h, nbytes, 8)
    ensures AfterRealloc(mc, s, 0, nbytes) == AfterAlloc(mc, s, nbytes, 8)
  {
  }

  /** Without an old pointer: a new one for that many bytes, exactly when there is memory for it. */
  lemma {:induction false} ReallocNull(mc: Machine, s: State, nbytes: nat)
    requires Sound(mc, s) && AllocLegal(s.h, nbytes, 8)
    ensures var (h, np) := MemRealloc(mc, s.h, 0, nbytes);
            && Allocated(mc, s, AfterRealloc(mc, s, 0, nbytes), np, Request(nbytes, 8))
            && (np != 0 <==> Serves(mc, s.h, nbytes, 8))
            && (np != 0 ==> Placed(h.mem, np, Request(nbytes, 8)))
  {
    NullUnfold(mc, s, nbytes);
    AllocKeeps(mc, s, nbytes, 8);
    AllocPlaces(mc, s, nbytes, 8);
  }

  lemma {:induction false} ZeroUnfold(mc: Machine, s: State, p: nat)
    requires Shaped(s.h) && 0 < p < TWO32
    ensures MemRealloc(mc, s.h, p, 0) == (MemFree(s.h, p), 0)
    ensures AfterRealloc(mc, s, p, 0) == AfterFree(s, p)
  {
  }

  /** Without a new size: NULL, and the block is in front of the free list of its bucket. */
  lemma {:induction false} ReallocZero(mc: Machine, s: State, p: nat)
    requires Sound(mc, s) && p in s.live
    ensures 0 < p < TWO32 && Index(s.h.mem, p) < NBUCKETS
    ensures var (h, np) := MemRealloc(mc, s.h, p, 0);
            && np == 0 && h.nextf[Index(s.h.mem, p)] == p - Alignpad(s.h.mem, p)
            && Sound(mc, s.(h := h, live := s.live - {p})) && DataKept(s.live - {p}, s.h.mem, h.mem)
  {
    LivePlaced(mc, s, p);
    ZeroUnfold(mc, s, p);
    FreeRecovers(s.h, p, p - Alignpad(s.h.mem, p), Index(s.h.mem, p));
    FreeKeeps(mc, s, p);
  }

  // ---- the three outcomes

  /** A reallocation of a live pointer that the client may ask for. */
  ghost predicate ReallocLegal(s: State, p: nat, nbytes: nat) {
    && p in s.live && 0 < p < TWO32 && 0 < nbytes < TWO32
    && (Usable(s.h.mem, p) < nbytes ==> AllocLegal(s.h, nbytes, 8))
  }

  lemma {:induction false} InPlaceUnfold(mc: Machine, h: Heap, p: nat, nbytes: nat)
    requires Shaped(h) && 0 < p < TWO32 && 0 < nbytes < TWO32 && nbytes <= Usable(h.mem, p)
    ensures MemRealloc(mc, h, p, nbytes) == (h, p)
  {
  }

  lemma {:induction false} MoveUnfold(mc: Machine, h: Heap, p: nat, nbytes: nat)
    requires Shaped(h) && 0 < p < TWO32 && 0 < nbytes < TWO32 && Usable(h.mem, p) < nbytes
    ensures var (h1, np) := MemAlloc(mc, h, nbytes, 8);
            MemRealloc(mc, h, p, nbytes) ==
            if np == 0 then (h1, 0)
            else (MemFree(h1.(mem := Copy(h1.mem, np, p, Usable(h.mem, p))), p), np)
  {
  }

  /** As seen by the client: allocate, and if that worked copy and free. */
  lemma {:induction false} MoveState(mc: Machine, s: State, p: nat, nbytes: nat)
    requires Shaped(s.h) && 0 < p < TWO32 && 0 < nbytes < TWO32 && Usable(s.h.mem, p) < nbytes && p in s.live
    ensures var s1, np := AfterAlloc(mc, s, nbytes, 8), MemAlloc(mc, s.h, nbytes, 8).1;
            && MemRealloc(mc, s.h, p, nbytes).1 == np
            && (np == 0 ==> AfterRealloc(mc, s, p, nbytes) == s1)
            && (np != 0 && np !in s.live ==>
                  AfterRealloc(mc, s, p, nbytes) == MovedOver(s1, p, np, Usable(s.h.mem, p)))
  {
    MoveUnfold(mc, s.h, p, nbytes);
    var np := MemAlloc(mc, s.h, nbytes, 8).1;
    if np != p {
      assert s.live[np := Request(nbytes, 8)] - {p} == (s.live - {p})[np := Request(nbytes, 8)];
    }
  }

  /** A new pointer beside the old ones, none of whose data has changed; `u` bytes of the old
      block are taken to be usable. */
  ghost predicate Joined(s: State, s1: State, p: nat, np: nat, nbytes: nat, u: nat) {
    && p in s.live && np !in s.live && s1.live == s.live[np := Request(nbytes, 8)]
    && DataKept(s.live, s.h.mem, s1.h.mem)
    && p < TWO32 && Room(s.h.mem, p) == u + OVERHEAD && u < nbytes
  }

  lemma {:induction false} MovedData(s: State, s1: State, p: nat, np: nat, nbytes: nat, u: nat, m': Memory)
    requires Joined(s, s1, p, np, nbytes, u)
    requires DataKept(s1.live - {p, np}, s1.h.mem, m')
    ensures DataKept(s.live - {p}, s.h.mem, m')
  {
    DataKeptSub(s.live, s.live - {p}, s.h.mem, s1.h.mem);
    DataKeptSub(s1.live - {p, np}, s.live - {p}, s1.h.mem, m');
    DataKeptTrans(s.live - {p}, s.h.mem, s1.h.mem, m');
  }

  lemma {:induction false} MovedSound(mc: Machine, s: State, s1: State, p: nat, np: nat, nbytes: nat, u: nat)
    requires Sound(mc, s1) && Joined(s, s1, p, np, nbytes, u)
    ensures Sound(mc, MovedOver(s1, p, np, u))
    ensures DataKept(s.live - {p}, s.h.mem, MovedOver(s1, p, np, u).h.mem)
  {
    MoveKeeps(mc, s1, p, np, u);
    MovedData(s, s1, p, np, nbytes, u, MovedOver(s1, p, np, u).h.mem);
  }

  lemma {:induction false} JoinedRoom(mc: Machine, s: State, s1: State, p: nat, np: nat, nbytes: nat, u: nat)
    requires Sound(mc, s1) && Joined(s, s1, p, np, nbytes, u)
    ensures Room(s1.h.mem, p) == u + OVERHEAD
  {
    LivePlaced(mc, s1, p);
    RoomKept(s.live, s.h.mem, s1.h.mem, p);
  }

  lemma {:induction false} MovedByte(mc: Machine, s: State, s1: State, p: nat, np: nat, nbytes: nat, u: nat, i: nat)
    requires Sound(mc, s1) && Joined(s, s1, p, np, nbytes, u) && i < s.live[p].nbytes && i < u
    ensures At(MovedOver(s1, p, np, u).h.mem, np + i) == At(s.h.mem, p + i)
  {
    JoinedRoom(mc, s, s1, p, np, nbytes, u);
    MoveCopies(mc, s1, p, np, u, i);
    ByteKept(s.live, s.h.mem, s1.h.mem, p, i);
  }

  /** The state between allocation and copy, if the allocation worked. */
  ghost predicate Halfway(mc: Machine, s: State, s1: State, p: nat, np: nat, nbytes: nat, u: nat) {
    && Sound(mc, s1)
    && (if np == 0 then s1.live == s.live && DataKept(s.live, s.h.mem, s1.h.mem)
        else Joined(s, s1, p, np, nbytes, u))
  }

  lemma {:induction false} AllocHalfway(mc: Machine, s: State, s1: State, p: nat, np: nat, nbytes: nat, u: nat)
    requires p in s.live && p < TWO32 && Room(s.h.mem, p) == u + OVERHEAD && u < nbytes
    requires Allocated(mc, s, s1, np, Request(nbytes, 8))
    ensures Halfway(mc, s, s1, p, np, nbytes, u)
  {
  }

  lemma {:induction false} MoveSteps(mc: Machine, s: State, p: nat, nbytes: nat) returns (s1: State, np: nat, u: nat)
    requires Sound(mc, s) && ReallocLegal(s, p, nbytes) && ResizeSafe(s.h.mem, p, nbytes)
    requires Usable(s.h.mem, p) < nbytes
    ensures Halfway(mc, s, s1, p, np, nbytes, u) && u == Usable(s.h.mem, p)
    ensures np != 0 ==> SameWithin(s.h.mem, s1.h.mem, Range(np, np + nbytes))
    ensures MemRealloc(mc, s.h, p, nbytes).1 == np
    ensures AfterRealloc(mc, s, p, nbytes) == if np == 0 then s1 else MovedOver(s1, p, np, u)
  {
    LivePlaced(mc, s, p);
    UsableRoom(s.h.mem, p, s.live[p]);
    u := Usable(s.h.mem, p);
    s1, np := AfterAlloc(mc, s, nbytes, 8), MemAlloc(mc, s.h, nbytes, 8).1;
    AllocSafe(mc, s, nbytes, 8);
    AllocBytes(mc, s, nbytes, 8);
    AllocHalfway(mc, s, s1, p, np, nbytes, u);
    MoveState(mc, s, p, nbytes);
  }

  lemma {:induction false} InPlace(mc: Machine, s: State, p: nat, nbytes: nat)
    requires Sound(mc, s) && ReallocLegal(s, p, nbytes) && nbytes <= Usable(s.h.mem, p)
    ensures MemRealloc(mc, s.h, p, nbytes) == (s.h, p)
    ensures AfterRealloc(mc, s, p, nbytes) == s.(live := s.live[p := Request(nbytes, s.live[p].align)])
    ensures ResizeSafe(s.h.mem, p, nbytes) <==> nbytes <= Room(s.h.mem, p)
  {
    LivePlaced(mc, s, p);
    UsableRoom(s.h.mem, p, s.live[p]);
    InPlaceUnfold(mc, s.h, p, nbytes);
  }

  /** Reallocating a live pointer keeps the invariant and everybody else's data. */
  lemma {:induction false} ReallocKeeps(mc: Machine, s: State, p: nat, nbytes: nat)
    requires Sound(mc, s) && ReallocLegal(s, p, nbytes) && ResizeSafe(s.h.mem, p, nbytes)
    ensures Sound(mc, AfterRealloc(mc, s, p, nbytes))
    ensures DataKept(s.live - {p}, s.h.mem, AfterRealloc(mc, s, p, nbytes).h.mem)
  {
    if nbytes <= Usable(s.h.mem, p) {
      InPlace(mc, s, p, nbytes);
      ResizeKeeps(mc, s, p, nbytes);
    } else {
      var s1, np, u := MoveSteps(mc, s, p, nbytes);
      HalfwayKeeps(mc, s, s1, p, np, nbytes, u);
    }
  }

  lemma {:induction false} HalfwayKeeps(mc: Machine, s: State, s1: State, p: nat, np: nat, nbytes: nat, u: nat)
    requires Shaped(s1.h) && p < TWO32 && Halfway(mc, s, s1, p, np, nbytes, u)
    ensures var s' := if np == 0 then s1 else MovedOver(s1, p, np, u);
            Sound(mc, s') && DataKept(s.live - {p}, s.h.mem, s'.h.mem)
  {
    if np == 0 {
      DataKeptSub(s.live, s.live - {p}, s.h.mem, s1.h.mem);
    } else {
      MovedSound(mc, s, s1, p, np, nbytes, u);
    }
  }

  /** A refused reallocation leaves the old pointer live and its data as it was. */
  lemma {:induction false} RefusalIntact(mc: Machine, s: State, p: nat, nbytes: nat)
    requires Sound(mc, s) && ReallocLegal(s, p, nbytes) && ResizeSafe(s.h.mem, p, nbytes)
    requires MemRealloc(mc, s.h, p, nbytes).1 == 0
    ensures AfterRealloc(mc, s, p, nbytes).live == s.live
    ensures DataKept(s.live, s.h.mem, AfterRealloc(mc, s, p, nbytes).h.mem)
  {
    if nbytes <= Usable(s.h.mem, p) {
      InPlace(mc, s, p, nbytes);
    } else {
      var s1, np, u := MoveSteps(mc, s, p, nbytes);
    }
  }

  /** A live pointer is resized exactly when the new size is taken to fit, or there is memory
      for another block. */
  lemma {:induction false} ReallocExact(mc: Machine, s: State, p: nat, nbytes: nat)
    requires Sound(mc, s) && ReallocLegal(s, p, nbytes)
    ensures MemRealloc(mc, s.h, p, nbytes).1 != 0 <==>
            nbytes <= Usable(s.h.mem, p) || Serves(mc, s.h, nbytes, 8)
  {
    if nbytes <= Usable(s.h.mem, p) {
      InPlaceUnfold(mc, s.h, p, nbytes);
    } else {
      MoveUnfold(mc, s.h, p, nbytes);
      AllocExact(mc, s, nbytes, 8);
    }
  }

  /** A moved pointer is new, and what the old block was taken to hold went with it. */
  lemma {:induction false} MoveCarries(mc: Machine, s: State, p: nat, nbytes: nat, np: nat, i: nat)
    requires Sound(mc, s) && ReallocLegal(s, p, nbytes) && ResizeSafe(s.h.mem, p, nbytes)
    requires Usable(s.h.mem, p) < nbytes && np == MemRealloc(mc, s.h, p, nbytes).1 != 0
    requires i < s.live[p].nbytes && i < Usable(s.h.mem, p)
    ensures np !in s.live && At(AfterRealloc(mc, s, p, nbytes).h.mem, np + i) == At(s.h.mem, p + i)
  {
    var s1, np', u := MoveSteps(mc, s, p, nbytes);
    MovedByte(mc, s, s1, p, np, nbytes, u, i);
  }

  /** In place, the block has room for the new size exactly when it has room for one more
      header behind the pointer, or the new size fits without; otherwise the same pointer
      comes back for more bytes than the block holds. */
  lemma {:induction false} InPlaceExact(mc: Machine, s: State, p: nat, nbytes: nat)
    requires Sound(mc, s) && ReallocLegal(s, p, nbytes) && nbytes <= Usable(s.h.mem, p)
    ensures MemRealloc(mc, s.h, p, nbytes) == (s.h, p)
    ensures Sound(mc, AfterRealloc(mc, s, p, nbytes)) <==> ResizeSafe(s.h.mem, p, nbytes)
  {
    InPlace(mc, s, p, nbytes);
    if ResizeSafe(s.h.mem, p, nbytes) {
      ResizeKeeps(mc, s, p, nbytes);
    } else if Sound(mc, AfterRealloc(mc, s, p, nbytes)) {
      LivePlaced(mc, AfterRealloc(mc, s, p, nbytes), p);
    }
  }

  // ---- exactly when a move keeps everything

  lemma {:induction false} CopyTail(m: Memory, dst: nat, src: nat, n: nat, i: nat)
    requires n <= i
    ensures At(Copy(m, dst, src, n), dst + i) == At(m, dst + i)
  {
    CopySame(m, dst, src, n);
  }

  lemma {:induction false} WithinAt(m: Memory, m': Memory, p: nat, n: nat, i: nat)
    requires SameWithin(m, m', Range(p, p + n)) && i < n
    ensures At(m', p + i) == At(m, p + i)
  {
  }

  /** Past the copied bytes, the new block holds what memory held there before. */
  lemma {:induction false} MovedTail(mc: Machine, s: State, s1: State, p: nat, np: nat, nbytes: nat, u: nat, i: nat)
    requires Sound(mc, s1) && Joined(s, s1, p, np, nbytes, u) && u <= i < nbytes
    requires SameWithin(s.h.mem, s1.h.mem, Range(np, np + nbytes))
    ensures At(MovedOver(s1, p, np, u).h.mem, np + i) == At(s.h.mem, np + i)
  {
    MoveKeeps(mc, s1, p, np, u);
    CopyTail(s1.h.mem, np, p, u, i);
    ByteKept(s1.live - {p}, Copy(s1.h.mem, np, p, u), MovedOver(s1, p, np, u).h.mem, np, i);
    WithinAt(s.h.mem, s1.h.mem, np, nbytes, i);
  }

  lemma {:induction false} MoveTail(mc: Machine, s: State, p: nat, nbytes: nat, np: nat, i: nat)
    requires Sound(mc, s) && ReallocLegal(s, p, nbytes) && ResizeSafe(s.h.mem, p, nbytes)
    requires Usable(s.h.mem, p) <= i < nbytes && np == MemRealloc(mc, s.h, p, nbytes).1 != 0
    ensures np !in s.live && At(AfterRealloc(mc, s, p, nbytes).h.mem, np + i) == At(s.h.mem, np + i)
  {
    var s1, np', u := MoveSteps(mc, s, p, nbytes);
    MovedTail(mc, s, s1, p, np, nbytes, u, i);
  }

  /** The same client state over another memory. */
  function Written(s: State, m: Memory): State {
    s.(h := s.h.(mem := m))
  }

  lemma {:induction false} HeaderAway(m: Memory, m': Memory, p: nat, hi: nat)
    requires SameOutside(m, m', Range(p, hi)) && OVERHEAD <= p < TWO32
    ensures Room(m', p) == Room(m, p) && Usable(m', p) == Usable(m, p)
  {
    LoadSame(m, m', Range(p, hi), p - OVERHEAD);
  }

  lemma {:induction false} ReallocBlind(mc: Machine, h: Heap, m': Memory, p: nat, nbytes: nat)
    requires Shaped(h) && 0 < p < TWO32 && 0 < nbytes < TWO32 && Usable(h.mem, p) < nbytes
    requires Usable(m', p) == Usable(h.mem, p)
    ensures MemRealloc(mc, h.(mem := m'), p, nbytes).1 == MemRealloc(mc, h, p, nbytes).1
  {
    MoveUnfold(mc, h, p, nbytes);
    MoveUnfold(mc, h.(mem := m'), p, nbytes);
    AllocBlind(mc, h, m', nbytes, 8);
  }

  /** A reallocation about to move, in any contents of the old block. */
  ghost predicate AboutToMove(mc: Machine, s: State, p: nat, nbytes: nat, np: nat) {
    && Sound(mc, s) && ReallocLegal(s, p, nbytes) && ResizeSafe(s.h.mem, p, nbytes)
    && Usable(s.h.mem, p) < nbytes && MemRealloc(mc, s.h, p, nbytes).1 == np != 0
  }

  lemma {:induction false} MoveAnyway(mc: Machine, s: State, p: nat, nbytes: nat, np: nat, m': Memory)
    requires AboutToMove(mc, s, p, nbytes, np) && SameOutside(s.h.mem, m', Range(p, p + s.live[p].nbytes))
    ensures AboutToMove(mc, Written(s, m'), p, nbytes, np)
  {
    LivePlaced(mc, s, p);
    HeaderAway(s.h.mem, m', p, p + s.live[p].nbytes);
    WriteKeeps(mc, s, p, m');
    ReallocBlind(mc, s.h, m', p, nbytes);
  }

  predicate Arrived(m': Memory, np: nat, m: Memory, p: nat, i: nat) {
    At(m', np + i) == At(m, p + i)
  }

  /** Every byte of the old request is found at the new pointer. */
  ghost predicate AllCarried(m: Memory, p: nat, n: nat, m': Memory, np: nat) {
    forall i :: 0 <= i < n ==> Arrived(m', np, m, p, i)
  }

  lemma {:induction false} NotCarried(m: Memory, p: nat, n: nat, m': Memory, np: nat, i: nat)
    requires i < n && At(m', np + i) != At(m, p + i)
    ensures !AllCarried(m, p, n, m', np)
  {
    assert !Arrived(m', np, m, p, i);
  }

  /** Memory after the reallocation. */
  function Result(mc: Machine, s: State, p: nat, nbytes: nat): Memory
    requires Shaped(s.h) && p < TWO32 && nbytes < TWO32
  {
    AfterRealloc(mc, s, p, nbytes).h.mem
  }

  lemma {:induction false} MoveCarriesAll(mc: Machine, s: State, p: nat, nbytes: nat, np: nat)
    requires AboutToMove(mc, s, p, nbytes, np) && s.live[p].nbytes <= Usable(s.h.mem, p)
    ensures AllCarried(s.h.mem, p, s.live[p].nbytes, Result(mc, s, p, nbytes), np)
  {
    var m' := Result(mc, s, p, nbytes);
    forall i | 0 <= i < s.live[p].nbytes
      ensures Arrived(m', np, s.h.mem, p, i)
    {
      MoveCarries(mc, s, p, nbytes, np, i);
    }
  }

  lemma {:induction false} ByteLost(mc: Machine, s: State, p: nat, nbytes: nat, np: nat, u: nat)
    requires AboutToMove(mc, s, p, nbytes, np) && u == Usable(s.h.mem, p)
    requires At(s.h.mem, np + u) != At(s.h.mem, p + u)
    ensures At(Result(mc, s, p, nbytes), np + u) != At(s.h.mem, p + u)
  {
    MoveTail(mc, s, p, nbytes, np, u);
  }

  lemma {:induction false} MoveNew(mc: Machine, s: State, p: nat, nbytes: nat, np: nat)
    requires AboutToMove(mc, s, p, nbytes, np)
    ensures np !in s.live
  {
    MoveTail(mc, s, p, nbytes, np, Usable(s.h.mem, p));
  }

  /** The old contents with one byte changed. */
  function Differing(m: Memory, a: nat, b: nat): Memory {
    m[a := if At(m, b) == 0 then 1 else 0]
  }

  lemma {:induction false} Differs(m: Memory, p: nat, n: nat, np: nat, u: nat)
    requires np != p && u < n
    ensures var m' := Differing(m, p + u, np + u);
            SameOutside(m, m', Range(p, p + n)) && At(m', np + u) != At(m', p + u)
  {
  }

  lemma {:induction false} DifferingByte(mc: Machine, s: State, p: nat, nbytes: nat, np: nat, u: nat)
    requires AboutToMove(mc, s, p, nbytes, np) && u == Usable(s.h.mem, p) < s.live[p].nbytes
    ensures var m' := Differing(s.h.mem, p + u, np + u);
            && SameOutside(s.h.mem, m', Range(p, p + s.live[p].nbytes))
            && At(m', np + u) != At(m', p + u) && Usable(m', p) == u
  {
    MoveNew(mc, s, p, nbytes, np);
    Differs(s.h.mem, p, s.live[p].nbytes, np, u);
    LivePlaced(mc, s, p);
    HeaderAway(s.h.mem, Differing(s.h.mem, p + u, np + u), p, p + s.live[p].nbytes);
  }

  /** Contents of the old block that a move would lose: any that differ, just behind what is
      copied, from what memory happens to hold in the new block. */
  lemma {:induction false} MoveLosesByte(mc: Machine, s: State, p: nat, nbytes: nat, np: nat, u: nat)
    returns (m': Memory)
    requires AboutToMove(mc, s, p, nbytes, np) && u == Usable(s.h.mem, p) < s.live[p].nbytes
    ensures SameOutside(s.h.mem, m', Range(p, p + s.live[p].nbytes))
    ensures At(Result(mc, Written(s, m'), p, nbytes), np + u) != At(m', p + u)
  {
    m' := Differing(s.h.mem, p + u, np + u);
    DifferingByte(mc, s, p, nbytes, np, u);
    MoveAnyway(mc, s, p, nbytes, np, m');
    ByteLost(mc, Written(s, m'), p, nbytes, np, u);
  }

  lemma {:induction false} MoveLoses(mc: Machine, s: State, p: nat, nbytes: nat, np: nat) returns (m': Memory)
    requires AboutToMove(mc, s, p, nbytes, np) && Usable(s.h.mem, p) < s.live[p].nbytes
    ensures SameOutside(s.h.mem, m', Range(p, p + s.live[p].nbytes))
    ensures !AllCarried(m', p, s.live[p].nbytes, Result(mc, Written(s, m'), p, nbytes), np)
  {
    var u := Usable(s.h.mem, p);
    m' := MoveLosesByte(mc, s, p, nbytes, np, u);
    NotCarried(m', p, s.live[p].nbytes, Result(mc, Written(s, m'), p, nbytes), np, u);
  }

  lemma {:induction false} MoveKeepsAny(mc: Machine, s: State, p: nat, nbytes: nat, np: nat, m': Memory)
    requires AboutToMove(mc, s, p, nbytes, np) && s.live[p].nbytes <= Usable(s.h.mem, p)
    requires SameOutside(s.h.mem, m', Range(p, p + s.live[p].nbytes))
    ensures AllCarried(m', p, s.live[p].nbytes, Result(mc, Written(s, m'), p, nbytes), np)
  {
    MoveAnyway(mc, s, p, nbytes, np, m');
    LivePlaced(mc, s, p);
    HeaderAway(s.h.mem, m', p, p + s.live[p].nbytes);
    MoveCarriesAll(mc, Written(s, m'), p, nbytes, np);
  }

  /** The old request is sure to survive a move, whatever the block held, exactly when it was
      no larger than what the reallocation takes to be usable. */
  lemma {:induction false} MoveExact(mc: Machine, s: State, p: nat, nbytes: nat, np: nat)
    requires AboutToMove(mc, s, p, nbytes, np)
    ensures s.live[p].nbytes <= Usable(s.h.mem, p) <==>
            forall m' :: SameOutside(s.h.mem, m', Range(p, p + s.live[p].nbytes)) ==>
              AllCarried(m', p, s.live[p].nbytes, Result(mc, Written(s, m'), p, nbytes), np)
  {
    if s.live[p].nbytes <= Usable(s.h.mem, p) {
      forall m' | SameOutside(s.h.mem, m', Range(p, p + s.live[p].nbytes))
        ensures AllCarried(m', p, s.live[p].nbytes, Result(mc, Written(s, m'), p, nbytes), np)
      {
        MoveKeepsAny(mc, s, p, nbytes, np, m');
      }
    } else {
      var m' := MoveLoses(mc, s, p, nbytes, np);
    }
  }

  // ---- where the code falls short of its callers' expectations, and exactly when

  /** The bucket chosen holds request and header exactly when their sum does not wrap. */
  lemma {:induction false} WrapExact(nbytes: nat, align: nat)
    requires nbytes < TWO32 && align < TWO32 && !BadAlign(align)
    ensures 0 < EffectiveAlign(align) < TWO32
    ensures var room := RoundUp(OVERHEAD, EffectiveAlign(align));
            match Bucket(Need(nbytes, EffectiveAlign(align)))
            case Some(k) => nbytes + room <= Size(k) <==> nbytes + room < TWO32
            case None => nbytes + room < TWO32
  {
    var j := AlignPower(align);
    HeaderRoom(j);
    var room := RoundUp(OVERHEAD, EffectiveAlign(align));
    var need := Need(nbytes, EffectiveAlign(align));
    Sizes();
    PowMonotone(j, 31);
    KnownPowers();
    assert room <= 0x8000_0000;
    if TWO32 <= nbytes + room {
      assert Wrap(nbytes + room) == Wrap(nbytes + room - TWO32);
    }
    BucketLeast(need);
    if Bucket(need).Some? {
      PowMonotone(Bucket(need).value + MINSHIFT, 31);
    }
  }

  /** All but 8 bytes of the address space: the smallest block is chosen. */
  lemma {:induction false} WrapWitness()
    ensures Bucket(Need(TWO32 - 8, 8)) == Some(0)
  {
    KnownPowers();
    HeaderRoom(3);
    Sizes();
  }

  lemma {:induction false} LeastZero(k: nat, need: nat)
    requires k <= 26 && Least(k, need) && need <= 32
    ensures k == 0
  {
    if k != 0 {
      SizeAtLeast(k - 1);
    }
  }

  /** A 24-byte allocation fills its block, yet only 16 bytes are taken to be usable. */
  lemma {:induction false} ShortMove(m: Memory, p: nat)
    requires Placed(m, p, Request(24, 8)) && Least(Index(m, p), 24 + 8)
    ensures Room(m, p) == 24 && Usable(m, p) == 16
  {
    LeastZero(Index(m, p), 32);
    Sizes();
    UsableRoom(m, p, Request(24, 8));
  }

  /** An empty allocation on a 32-byte boundary leaves no room behind the pointer at all. */
  lemma {:induction false} NoRoom(m: Memory, p: nat)
    requires Placed(m, p, Request(0, 32)) && Least(Index(m, p), 32)
    ensures Room(m, p) == 0 && Usable(m, p) == TWO32 - 8
  {
    LeastZero(Index(m, p), 32);
    Sizes();
    KnownPowers();
    AndMask(p, 5);
    AlignedGap(p - Alignpad(m, p), p);
    UsableRoom(m, p, Request(0, 32));
  }

  lemma {:induction false} AlignedGap(b: nat, p: nat)
    requires Low(b, 5) == 0 && Low(p, 5) == 0 && b + 8 <= p <= b + 32
    ensures p == b + 32
  {
    KnownPowers();
    SplitDivMod(b, 5);
    SplitDivMod(p, 5);
  }

  /** Freeing does not overwrite the magic number, so a second free goes ahead. */
  lemma {:induction false} MagicStays(mc: Machine, s: State, p: nat)
    requires Sound(mc, s) && p in s.live && p < TWO32
    ensures Magic(MemFree(s.h, p).mem, p) == MAGIC
  {
    LivePlaced(mc, s, p);
    FreeRecovers(s.h, p, p - Alignpad(s.h.mem, p), Index(s.h.mem, p));
    LoadStore(s.h.mem, p - Alignpad(s.h.mem, p), s.h.nextf[Index(s.h.mem, p)]);
  }

  /** A pointer whose header lacks the magic number, or names a bucket beyond the table, is ignored;
      any other has the block in front of it put on the list of its bucket. */
  lemma {:induction false} FreeGuarded(h: Heap, p: nat)
    requires Shaped(h) && 0 < p < TWO32
    ensures Magic(h.mem, p) != MAGIC || NBUCKETS <= Index(h.mem, p) ==> MemFree(h, p) == h
    ensures Magic(h.mem, p) == MAGIC && Index(h.mem, p) < NBUCKETS ==>
              var k, h' := Index(h.mem, p), MemFree(h, p);
              && h'.nextf == h.nextf[k := Back(p, Alignpad(h.mem, p))]
              && Load(h'.mem, h'.nextf[k]) == h.nextf[k]
              && SameOutside(h.mem, h'.mem, Range(h'.nextf[k], h'.nextf[k] + 4))
  {
    if Magic(h.mem, p) == MAGIC && Index(h.mem, p) < NBUCKETS {
      LoadStore(h.mem, Back(p, Alignpad(h.mem, p)), h.nextf[Index(h.mem, p)]);
    }
  }

  /** The head of a list that is not empty is aligned like a block and does not link to itself. */
  lemma {:induction false} HeadPlaced(mc: Machine, s: State, k: nat)
    requires Sound(mc, s) && k < NBUCKETS
    ensures Low(s.h.nextf[k], 5) == 0
    ensures s.h.nextf[k] != 0 ==> Load(s.h.mem, s.h.nextf[k]) != s.h.nextf[k]
  {
    var g :| Inv(mc, s, g);
    assert Holds(mc, s, g, Links) && Holds(mc, s, g, Lists);
    var l := g.lists[k];
    assert ListAt(s.h.mem, s.h.nextf[k], l);
    if l == [] {
      LowSmall(0, 5);
    } else {
      assert l[0] in l && Load(s.h.mem, l[0]) == Next(l, 0);
      BlockPlace(mc, s, g, l[0]);
    }
  }

  lemma {:induction false} BackAcross(b: nat, n: nat)
    requires Low(b, 5) == 0 && Low(n, 5) == 0 && b + OVERHEAD < TWO32 && n < TWO32
    ensures Back(b + OVERHEAD, n) != 0 && Low(Back(b + OVERHEAD, n), 5) != 0
  {
    KnownPowers();
    SplitDivMod(b, 5);
    SplitDivMod(n, 5);
    SplitDivMod(Back(b + OVERHEAD, n), 5);
    BackRemainder(b, n);
  }

  lemma {:induction false} BackRemainder(b: nat, n: nat)
    requires b % 32 == 0 && n % 32 == 0 && b + OVERHEAD < TWO32 && n < TWO32
    ensures Back(b + OVERHEAD, n) % 32 == OVERHEAD
  {
    assert Back(b + OVERHEAD, n) == if n <= b + OVERHEAD then b + OVERHEAD - n else b + OVERHEAD - n + TWO32;
  }

  /** Padding of just a header: the link of the first free is read as the padding. */
  lemma {:induction false} FreedTwiceShort(h: Heap, b: nat, k: nat)
    requires Shaped(h) && TagOk(h.mem, b + OVERHEAD, b, k) && 0 < b && b + OVERHEAD < TWO32 && k <= 26
    requires Low(b, 5) == 0 && Low(h.nextf[k], 5) == 0
    ensures var h2 := MemFree(MemFree(h, b + OVERHEAD), b + OVERHEAD); Low(h2.nextf[k], 5) != 0
  {
    var p, h1 := b + OVERHEAD, MemFree(h, b + OVERHEAD);
    FreeRecovers(h, p, b, k);
    LoadStore(h.mem, b, h.nextf[k]);
    assert Magic(h1.mem, p) == MAGIC && Index(h1.mem, p) == k && Alignpad(h1.mem, p) == h.nextf[k];
    BackAcross(b, h.nextf[k]);
  }

  /** More padding than that: the block is put in front of itself. */
  lemma {:induction false} FreedTwiceLong(h: Heap, p: nat, b: nat, k: nat)
    requires Shaped(h) && TagOk(h.mem, p, b, k) && 0 < b && b + OVERHEAD + 4 <= p < TWO32 && k <= 26
    ensures var h2 := MemFree(MemFree(h, p), p); h2.nextf[k] == b && Load(h2.mem, b) == b
  {
    var h1 := MemFree(h, p);
    FreeRecovers(h, p, b, k);
    LoadStore(h.mem, b, h.nextf[k]);
    TagFrame(h.mem, h1.mem, Range(b, b + 4), p, b, k);
    FreeRecovers(h1, p, b, k);
    LoadStore(h1.mem, b, b);
  }

  lemma {:induction false} PadSteps(p: nat, b: nat)
    requires b + OVERHEAD <= p && Low(p, 2) == 0 && Low(b, 5) == 0
    ensures p == b + OVERHEAD || b + OVERHEAD + 4 <= p
  {
    KnownPowers();
    SplitDivMod(p, 2);
    SplitDivMod(b, 5);
    PadMultiple(p, b);
  }

  lemma {:induction false} PadMultiple(p: nat, b: nat)
    requires b + OVERHEAD <= p && p % 4 == 0 && b % 32 == 0
    ensures p == b + OVERHEAD || b + OVERHEAD + 4 <= p
  {
    assert b == 4 * (8 * (b / 32)) && p == 4 * (p / 4);
  }

  lemma {:induction false} FreedTwice(h: Heap, p: nat, b: nat, k: nat)
    requires Shaped(h) && TagOk(h.mem, p, b, k) && 0 < b && b + OVERHEAD <= p < TWO32 && k <= 26
    requires Low(p, 2) == 0 && Low(b, 5) == 0 && Low(h.nextf[k], 5) == 0
    ensures var h2 := MemFree(MemFree(h, p), p);
            Low(h2.nextf[k], 5) != 0 || (h2.nextf[k] != 0 && Load(h2.mem, h2.nextf[k]) == h2.nextf[k])
  {
    PadSteps(p, b);
    if p == b + OVERHEAD {
      FreedTwiceShort(h, b, k);
    } else {
      FreedTwiceLong(h, p, b, k);
    }
  }

  lemma {:induction false} PlacedTag(m: Memory, p: nat, req: Request) returns (b: nat, k: nat)
    requires Placed(m, p, req)
    ensures b == p - Alignpad(m, p) && k == Index(m, p) && k <= 26
    ensures TagOk(m, p, b, k) && 0 < b && b + OVERHEAD <= p < TWO32 && Low(p, 2) == 0 && Low(b, 5) == 0
  {
    b, k := p - Alignpad(m, p), Index(m, p);
    LowFewer(b, 5, AlignBits(k));
  }

  /** Freeing a live pointer twice leaves a heap without a layout, whatever is taken to be live. */
  lemma {:induction false} DoubleFree(mc: Machine, s: State, p: nat, live: map<nat, Request>)
    requires Sound(mc, s) && p in s.live && p < TWO32
    ensures !Sound(mc, s.(h := MemFree(MemFree(s.h, p), p), live := live))
  {
    var s2 := s.(h := MemFree(MemFree(s.h, p), p), live := live);
    LivePlaced(mc, s, p);
    var b, k := PlacedTag(s.h.mem, p, s.live[p]);
    HeadPlaced(mc, s, k);
    FreedTwice(s.h, p, b, k);
    if Sound(mc, s2) {
      HeadPlaced(mc, s2, k);
    }
  }
}
