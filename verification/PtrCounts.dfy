/** The number of blocks an owning pointer says it has, which `copy_to` goes by: when it is the length of the
    pointer's extent, and which operations keep it so. */
module PtrCounts {
  import opened CacheManager
  import opened Pointers = CachePtr
  import opened Wrappers

  /** The number of blocks in the extent at `p`. */
  function Length(c: Cache, p: int): nat
    requires c.blockSize > 0 && Extent(c, p)
  {
    Live(c.table)[p / c.blockSize]
  }

  /** The pointer's count is the length of its extent, and 0 without a block. */
  predicate CountRight(c: Cache, p: CPtr)
    requires c.blockSize > 0
  {
    if p.block.None? then p.num == 0 else Extent(c, p.block.value) && p.num == Length(c, p.block.value)
  }

  ghost predicate Counted(w: World)
    requires w.cache.blockSize > 0
  {
    forall id: nat :: id in w.ptrs ==> CountRight(w.cache, w.ptrs[id])
  }

  /** What an operation asks for beyond `Safe`: `free` keeps the count of the block it gives back; `reset`
      believes its caller; and a swap that releases before it reads the count forgets it. */
  predicate CountSafe(w: World, op: Pointers.Op)
    requires CacheFine(w.cache) && Can(w, op)
  {
    match op
    case Free(id) => w.ptrs[id].block.None?
    case Reset(_, to, num) => CountRight(w.cache, CPtr(true, to, num))
    case Swap(id, from, releaseFirst) => !releaseFirst || id == from || w.ptrs[id].block.None?
    case _ => true
  }

  // ---------------------------------------------------------------------------------------------
  // Lengths
  // ---------------------------------------------------------------------------------------------

  lemma LengthIsPositive(c: Cache, p: int)
    requires CacheFine(c) && Extent(c, p)
    ensures Length(c, p) > 0
  {
    assert SlotOk(c.table, p / c.blockSize);
  }

  /** Giving back one extent leaves the lengths of the others. */
  lemma ReturnedLengths(c: Cache, p: int, q: int)
    requires CacheFine(c) && Extent(c, p) && Extent(c, q) && q != p
    ensures Extent(Returned(c, p), q) && Returned(c, p).blockSize == c.blockSize
    ensures Length(Returned(c, p), q) == Length(c, q)
  {
    ReturnedEnds(c, p);
    ExtentInBounds(c, p);
    ReturnedTable(c, p);
    var i: nat, k: nat := p / c.blockSize, q / c.blockSize;
    if k == i { SamePointer(p, q, c.blockSize); }
    assert k in Live(c.table) - {i};
  }

  lemma TakenLengths(c: Cache, d: Cache, s: nat, num: nat)
    requires CacheFine(c) && num > 0 && FirstFit(c.table, s, num)
    requires d == c.(table := Taken(c.table, s, num), total := c.total + num)
    ensures forall q: int :: Extent(c, q) ==> Extent(d, q) && Length(d, q) == Length(c, q)
    ensures Extent(d, s * c.blockSize) && Length(d, s * c.blockSize) == num
  {
    TakenExtents(c, d, s, num);
    TakenLive(c.table, s, num);
    SlotPointer(s, c.blockSize);
    forall q: int | Extent(c, q) ensures Extent(d, q) && Length(d, q) == Length(c, q) {
      var k: nat := q / c.blockSize;
      if k == s { SamePointer(q, s * c.blockSize, c.blockSize); }
    }
  }

  /** A pointer's count stays right when blocks go back that are not its own. */
  lemma RightAfterReturn(c: Cache, p: int, x: CPtr)
    requires CacheFine(c) && Extent(c, p) && x.block != Some(p)
    ensures Returned(c, p).blockSize == c.blockSize
    ensures CountRight(Returned(c, p), x) <==> CountRight(c, x)
  {
    ReturnedEnds(c, p);
    if x.block.Some? && Extent(c, x.block.value) { ReturnedLengths(c, p, x.block.value); }
  }

  /** The same for a pointer that frees its own block. */
  lemma RightAfterFreeing(w: World, id: nat, x: CPtr)
    requires Good(w) && id in w.ptrs && (x.block.Some? ==> x.block != w.ptrs[id].block)
    ensures var c := Freeing(w, w.ptrs[id]).cache;
      c.blockSize == w.cache.blockSize && (CountRight(c, x) <==> CountRight(w.cache, x))
  {
    var b := w.ptrs[id].block;
    if b.Some? { RightAfterReturn(w.cache, b.value, x); }
  }

  // ---------------------------------------------------------------------------------------------
  // Which operations keep the counts right
  // ---------------------------------------------------------------------------------------------

  lemma MakeCounts(w: World, id: nat, num: nat)
    requires Good(w) && Counted(w) && id !in w.ptrs
    ensures Counted(Step(w, Make(id, num)))
  {
    var fit := Fit(w.cache.table, num, 0);
    if num > 0 && fit.Some? {
      TakenLengths(w.cache, Step(w, Make(id, num)).cache, fit.value, num);
    }
  }

  lemma SwapCounts(w: World, id: nat, from: nat, releaseFirst: bool)
    requires Good(w) && Counted(w) && id in w.ptrs && from in w.ptrs
    ensures var op := Swap(id, from, releaseFirst); Counted(Step(w, op)) <==> CountSafe(w, op)
  {
    var v, a := Step(w, Swap(id, from, releaseFirst)), w.ptrs[id];
    if a.block.Some? { LengthIsPositive(w.cache, a.block.value); }
    assert id != from ==> v.ptrs[from].num == if releaseFirst then 0 else a.num;
    assert from in v.ptrs && v.ptrs[from].block == a.block;
  }

  lemma ResetCounts(w: World, id: nat, to: Option<int>, num: nat)
    requires Good(w) && Counted(w) && id in w.ptrs && Safe(w, Reset(id, to, num))
    ensures var op := Reset(id, to, num);
      && Step(w, op).cache.blockSize == w.cache.blockSize
      && (Counted(Step(w, op)) <==> CountSafe(w, op))
  {
    var v := Step(w, Reset(id, to, num));
    RightAfterFreeing(w, id, CPtr(true, to, num));
    forall k: nat | k in w.ptrs && k != id ensures CountRight(v.cache, v.ptrs[k]) {
      RightAfterFreeing(w, id, w.ptrs[k]);
    }
    assert id in v.ptrs && v.ptrs[id].block == to && v.ptrs[id].num == num;
  }

  lemma FreeCounts(w: World, id: nat)
    requires Good(w) && Counted(w) && id in w.ptrs
    ensures var v, u := Step(w, Pointers.Op.Free(id)), Step(w, Destroy(id));
      && v.cache.blockSize == w.cache.blockSize == u.cache.blockSize
      && (Counted(v) <==> CountSafe(w, Pointers.Op.Free(id))) && Counted(u)
  {
    var v, u, b := Step(w, Pointers.Op.Free(id)), Step(w, Destroy(id)), w.ptrs[id].block;
    RightAfterFreeing(w, id, CPtr(true, None, 0));
    forall k: nat | k in w.ptrs && k != id ensures CountRight(v.cache, v.ptrs[k]) && CountRight(u.cache, u.ptrs[k]) {
      RightAfterFreeing(w, id, w.ptrs[k]);
    }
    if b.Some? { LengthIsPositive(w.cache, b.value); }
    assert id in v.ptrs && v.ptrs[id].block == None && v.ptrs[id].num == w.ptrs[id].num;
  }

  lemma FreeRawCounts(w: World, p: int)
    requires Good(w) && Counted(w) && Safe(w, FreeRaw(p))
    ensures Step(w, FreeRaw(p)).cache.blockSize == w.cache.blockSize && Counted(Step(w, FreeRaw(p)))
  {
    if p in w.raw {
      forall k: nat | k in w.ptrs ensures CountRight(Step(w, FreeRaw(p)).cache, w.ptrs[k]) {
        RightAfterReturn(w.cache, p, w.ptrs[k]);
      }
    }
  }

  /** An operation that keeps the one-owner rule keeps the counts right exactly when this guard holds too. */
  lemma CountsKeptExactlyWhen(w: World, op: Pointers.Op)
    requires Good(w) && Counted(w) && Can(w, op) && Safe(w, op)
    ensures Step(w, op).cache.blockSize == w.cache.blockSize
    ensures Counted(Step(w, op)) <==> CountSafe(w, op)
  {
    match op
    case Make(id, num) => MakeCounts(w, id, num);
    case Swap(id, from, releaseFirst) => SwapCounts(w, id, from, releaseFirst);
    case Reset(id, to, num) => ResetCounts(w, id, to, num);
    case Free(id) => FreeCounts(w, id);
    case Destroy(id) => FreeCounts(w, id);
    case FreeRaw(p) => FreeRawCounts(w, p);
    case _ =>
  }

  // ---------------------------------------------------------------------------------------------
  // Programs, and what the counts are for
  // ---------------------------------------------------------------------------------------------

  /** Every operation of the program meets its guard for the counts where it is run. */
  ghost predicate CountSafely(n: nat, blockSize: nat, ops: seq<Pointers.Op>)
    requires n > 0 && blockSize > 0
    decreases |ops|
  {
    ops == [] || (
      && CountSafely(n, blockSize, ops[..|ops| - 1])
      && var before := Pointers.After(n, blockSize, ops[..|ops| - 1]);
         before.Some? && CacheFine(before.value.cache) && Can(before.value, ops[|ops| - 1]) &&
           CountSafe(before.value, ops[|ops| - 1]))
  }

  /** In a program that meets both guards throughout, every pointer counts its blocks rightly. */
  lemma {:induction false} CountedThroughout(n: nat, blockSize: nat, ops: seq<Pointers.Op>)
    requires n > 0 && blockSize > 0 && Pointers.After(n, blockSize, ops).Some? && CountSafely(n, blockSize, ops)
    ensures var w := Pointers.After(n, blockSize, ops).value; w.cache.blockSize == blockSize && Counted(w)
    decreases |ops|
  {
    if ops == [] {
    } else {
      var before, op := ops[..|ops| - 1], ops[|ops| - 1];
      CountedThroughout(n, blockSize, before);
      OneOwnerThroughout(n, blockSize, before);
      CountsKeptExactlyWhen(Pointers.After(n, blockSize, before).value, op);
    }
  }

  /** Sample `x` lies in what `copy_to` copies for a pointer that holds `block` and counts `num` blocks. */
  predicate Copied(c: Cache, block: int, num: nat, x: int) { block <= x < block + num * c.blockSize }

  /** Sample `x` lies in the extent at `p`, whose slots are in use. */
  predicate InExtent(c: Cache, p: int, x: int)
    requires c.blockSize > 0 && Extent(c, p)
  {
    && x >= 0 && x / c.blockSize < |c.table|
    && p / c.blockSize <= x / c.blockSize < p / c.blockSize + c.table[p / c.blockSize].blocks
    && c.table[x / c.blockSize].inUse
  }

  lemma AtOrBehind(x: int, s: int, size: int)
    requires size > 0
    ensures s * size <= x <==> s <= x / size
  {
    var q := x / size;
    if s <= q { Scaled(s, q, size); } else { Scaled(q + 1, s, size); }
  }

  lemma SamplesAreSlots(x: int, s: nat, k: nat, size: nat)
    requires size > 0
    ensures s * size <= x < s * size + k * size <==> s <= x / size < s + k
  {
    AtOrBehind(x, s, size);
    AtOrBehind(x, s + k, size);
    assert (s + k) * size == s * size + k * size;
  }

  /** With the counts right, `copy_to` copies exactly the samples of the pointer's own extent, and those of no
      other pointer. */
  lemma CopiesOwnExtent(w: World, id: nat, x: int)
    requires Good(w) && Counted(w) && id in w.ptrs && w.ptrs[id].block.Some?
    ensures var c, p := w.cache, w.ptrs[id];
      && Extent(c, p.block.value)
      && (Copied(c, p.block.value, p.num, x) <==> InExtent(c, p.block.value, x))
    ensures Copied(w.cache, w.ptrs[id].block.value, w.ptrs[id].num, x) ==>
      forall k: nat :: k in w.ptrs && k != id && w.ptrs[k].block.Some? ==>
        !Copied(w.cache, w.ptrs[k].block.value, w.ptrs[k].num, x)
  {
    OwnExtent(w, id, x);
    forall k: nat | k in w.ptrs && k != id && w.ptrs[k].block.Some? &&
      Copied(w.cache, w.ptrs[id].block.value, w.ptrs[id].num, x)
      ensures !Copied(w.cache, w.ptrs[k].block.value, w.ptrs[k].num, x)
    {
      OwnExtent(w, k, x);
      ApartExtents(w.cache, w.ptrs[id].block.value, w.ptrs[k].block.value, x);
    }
  }

  lemma OwnExtent(w: World, id: nat, x: int)
    requires Good(w) && Counted(w) && id in w.ptrs && w.ptrs[id].block.Some?
    ensures var c, p := w.cache, w.ptrs[id];
      && Extent(c, p.block.value)
      && (Copied(c, p.block.value, p.num, x) <==> InExtent(c, p.block.value, x))
  {
    var c, p := w.cache, w.ptrs[id].block.value;
    var s: nat, n := p / c.blockSize, c.table[p / c.blockSize].blocks;
    assert CountRight(c, w.ptrs[id]);
    assert p == s * c.blockSize;
    SamplesAreSlots(x, s, n, c.blockSize);
    UsedCountIsRest(c.table, s);
  }

  lemma ApartExtents(c: Cache, p: int, q: int, x: int)
    requires CacheFine(c) && Extent(c, p) && Extent(c, q) && p != q && InExtent(c, p, x)
    ensures !InExtent(c, q, x)
  {
    var i: nat, j: nat := p / c.blockSize, q / c.blockSize;
    if i == j { SamePointer(p, q, c.blockSize); }
    if i < j { ExtentsDisjoint(c.table, i, j); }
    if j < i { ExtentsDisjoint(c.table, j, i); }
  }
}
