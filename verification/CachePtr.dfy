/** Owning pointers into one block cache, and who owns which extent over whole runs of a program that
    uses them. A pointer value is an offset into the cache. */
module CachePtr {
  import opened Wrappers
  import opened CacheManager

  /** A cache as its handles, its total and its block size. */
  datatype Cache = Cache(table: seq<Handle>, total: int, blockSize: nat)

  /** A `cache_ptr`: whether it knows a cache, its block and its number of blocks. */
  datatype CPtr = CPtr(hasCache: bool, block: Option<int>, num: nat)

  // ---------------------------------------------------------------------------------------------
  // What one operation does to a cache or to a pointer
  // ---------------------------------------------------------------------------------------------

  predicate CacheFine(c: Cache) { c.blockSize > 0 && c.table != [] && CacheOk(c.table, c.total) }

  predicate InCache(c: Cache, p: int) { InBounds(p, c.blockSize, |c.table|) }

  /** `free_raw` on the cache. */
  function Returned(c: Cache, p: int): Cache
    requires CacheFine(c)
  {
    if !InCache(c, p) then c
    else
      SlotInRange(p, c.blockSize, |c.table|);
      var i: nat := p / c.blockSize;
      CountsFit(c.table, i);
      c.(table := Freed(c.table, i), total := c.total - c.table[i].blocks)
  }

  function Emptied(p: CPtr): CPtr { p.(block := None, num := 0) }

  // ---------------------------------------------------------------------------------------------
  // Programs
  // ---------------------------------------------------------------------------------------------

  /** What has happened at the cache, oldest first. */
  datatype Event = Took(at: int) | Gave(at: int)

  /** The cache, the living pointers by name, the raw pointers that `release` handed out, and the log. */
  datatype World = World(cache: Cache, ptrs: map<nat, CPtr>, raw: set<int>, log: seq<Event>)

  datatype Op =
    | Make(id: nat, num: nat)
    | Default(id: nat)
    | Move(id: nat, from: nat)
    | Assign(id: nat, from: nat)
    | Swap(id: nat, from: nat, releaseFirst: bool)
    | Release(id: nat)
    | Reset(id: nat, to: Option<int>, num: nat)
    | Free(id: nat)
    | Destroy(id: nat)
    | FreeRaw(p: int)

  /** The named pointers exist, and a new pointer gets a new name. */
  predicate Can(w: World, op: Op) {
    match op
    case Make(id, _) => id !in w.ptrs
    case Default(id) => id !in w.ptrs
    case Move(id, from) => id !in w.ptrs && from in w.ptrs
    case Assign(id, from) => id in w.ptrs && from in w.ptrs
    case Swap(id, from, _) => id in w.ptrs && from in w.ptrs
    case FreeRaw(_) => true
    case _ => op.id in w.ptrs
  }

  function Giving(w: World, p: int): World
    requires CacheFine(w.cache)
  {
    w.(cache := Returned(w.cache, p), log := if InCache(w.cache, p) then w.log + [Gave(p)] else w.log)
  }

  /** What a pointer does with its block before it takes another or ends; without a cache, nothing. */
  function Freeing(w: World, p: CPtr): World
    requires CacheFine(w.cache)
  {
    if p.hasCache && p.block.Some? then Giving(w, p.block.value) else w
  }

  function Step(w: World, op: Op): World
    requires CacheFine(w.cache) && Can(w, op)
  {
    match op
    case Make(id, num) =>
      // a drained cache throws, and no pointer comes about
      var fit := Fit(w.cache.table, num, 0);
      if num == 0 || fit.None? then w
      else
        var at := fit.value * w.cache.blockSize;
        w.(cache := w.cache.(table := Taken(w.cache.table, fit.value, num), total := w.cache.total + num),
           ptrs := w.ptrs[id := CPtr(true, Some(at), num)], log := w.log + [Took(at)])
    case Default(id) => w.(ptrs := w.ptrs[id := CPtr(false, None, 0)])
    case Move(id, from) => w.(ptrs := w.ptrs[id := w.ptrs[from]][from := Emptied(w.ptrs[from])])
    case Assign(id, from) => w.(ptrs := w.ptrs[id := w.ptrs[from]][from := Emptied(w.ptrs[from])])
    case Swap(id, from, releaseFirst) =>
      var a, b := w.ptrs[id], w.ptrs[from];
      w.(ptrs := w.ptrs[from := b.(block := a.block, num := if releaseFirst || id == from then 0 else a.num)]
                       [id := a.(block := b.block, num := b.num)])
    case Release(id) =>
      var p := w.ptrs[id];
      w.(ptrs := w.ptrs[id := Emptied(p)], raw := if p.block.Some? then w.raw + {p.block.value} else w.raw)
    case Reset(id, to, num) =>
      var p := w.ptrs[id];
      Freeing(w, p).(ptrs := w.ptrs[id := p.(block := to, num := num)],
                     raw := if to.Some? then w.raw - {to.value} else w.raw)
    case Free(id) =>
      var p := w.ptrs[id];
      Freeing(w, p).(ptrs := w.ptrs[id := if p.hasCache then p.(block := None) else p])
    case Destroy(id) => Freeing(w, w.ptrs[id]).(ptrs := w.ptrs - {id})
    case FreeRaw(p) => Giving(w, p).(raw := w.raw - {p})
  }

  // ---------------------------------------------------------------------------------------------
  // Ownership
  // ---------------------------------------------------------------------------------------------

  /** `p` points to the first sample of a live extent. */
  predicate Extent(c: Cache, p: int)
    requires c.blockSize > 0
  {
    p >= 0 && p % c.blockSize == 0 && Starts(c.table, p / c.blockSize)
  }

  ghost predicate HeldByPtr(ptrs: map<nat, CPtr>, p: int) {
    exists id: nat :: id in ptrs && ptrs[id].block == Some(p)
  }

  /** Every live extent has exactly one owner, a pointer that knows the cache or a released raw pointer,
      and nothing else is held. */
  ghost predicate Owned(w: World)
    requires w.cache.blockSize > 0
  {
    && (forall id: nat :: id in w.ptrs && w.ptrs[id].block.Some? ==>
          w.ptrs[id].hasCache && Extent(w.cache, w.ptrs[id].block.value) && w.ptrs[id].block.value !in w.raw)
    && (forall i: nat, j: nat ::
          i in w.ptrs && j in w.ptrs && w.ptrs[i].block.Some? && w.ptrs[i].block == w.ptrs[j].block ==> i == j)
    && (forall p: int :: p in w.raw ==> Extent(w.cache, p))
    && (forall p: int :: Extent(w.cache, p) ==> p in w.raw || HeldByPtr(w.ptrs, p))
  }

  ghost predicate Good(w: World) { CacheFine(w.cache) && Owned(w) }

  /** What each operation asks of its caller: the target of a move assignment holds nothing, a block never
      goes to a pointer without a cache, and only released raw pointers are adopted or freed. */
  predicate Safe(w: World, op: Op)
    requires CacheFine(w.cache) && Can(w, op)
  {
    match op
    case Assign(id, _) => w.ptrs[id].block.None?
    case Swap(id, from, _) =>
      (w.ptrs[id].block.Some? ==> w.ptrs[from].hasCache) && (w.ptrs[from].block.Some? ==> w.ptrs[id].hasCache)
    case Reset(id, to, _) => to.None? || (to.value in w.raw && w.ptrs[id].hasCache)
    case FreeRaw(p) => p in w.raw || !InCache(w.cache, p)
    case _ => true
  }

  // ---------------------------------------------------------------------------------------------
  // Extents as pointers
  // ---------------------------------------------------------------------------------------------

  lemma SamePointer(p: int, q: int, size: nat)
    requires size > 0 && p % size == 0 && q % size == 0 && p / size == q / size
    ensures p == q
  {
  }

  lemma MultipleIsFar(k: int, size: int)
    requires size > 0 && k != 0
    ensures k * size <= -size || size <= k * size
  {
    if k >= 1 {
      assert (k - 1) * size >= 0;
    } else {
      assert (-k - 1) * size >= 0;
    }
  }

  lemma SlotPointer(s: nat, size: nat)
    requires size > 0
    ensures s * size >= 0 && (s * size) % size == 0 && (s * size) / size == s
  {
    var p := s * size;
    var q, r := p / size, p % size;
    assert p == q * size + r;
    assert (s - q) * size == r;
    if s != q { MultipleIsFar(s - q, size); }
  }

  lemma {:induction false} SlotBound(s: nat, size: nat, n: nat)
    requires s < n
    ensures s * size <= (n - 1) * size
    decreases n - 1 - s
  {
    if s == n - 1 {
    } else {
      SlotBound(s + 1, size, n);
      assert (s + 1) * size == s * size + size;
    }
  }

  lemma ExtentInBounds(c: Cache, p: int)
    requires c.blockSize > 0 && Extent(c, p)
    ensures InCache(c, p)
  {
    SlotBound(p / c.blockSize, c.blockSize, |c.table|);
  }

  /** The extents of a cache whose live slots are those of another without slot `i`. */
  lemma ExtentsWithout(c: Cache, d: Cache, p: int, q: int)
    requires c.blockSize > 0 && d.blockSize == c.blockSize && Extent(c, p) &&
      Live(d.table) == Live(c.table) - {p / c.blockSize as nat}
    ensures Extent(d, q) <==> Extent(c, q) && q != p
  {
    if q >= 0 && q % c.blockSize == 0 {
      var i: nat, k: nat := p / c.blockSize, q / c.blockSize;
      assert k in Live(d.table) <==> k in Live(c.table) && k != i;
      if k == i { SamePointer(p, q, c.blockSize); }
    }
  }

  /** Giving back a live extent keeps the cache in order and ends just that extent. */
  lemma ReturnedEnds(c: Cache, p: int)
    requires CacheFine(c) && Extent(c, p)
    ensures CacheFine(Returned(c, p)) && Returned(c, p).blockSize == c.blockSize
    ensures forall q: int :: Extent(Returned(c, p), q) <==> Extent(c, q) && q != p
  {
    ExtentInBounds(c, p);
    var d := Returned(c, p);
    ReturnedTable(c, p);
    forall q: int ensures Extent(d, q) <==> Extent(c, q) && q != p {
      ExtentsWithout(c, d, p, q);
    }
  }

  lemma ReturnedTable(c: Cache, p: int)
    requires CacheFine(c) && InCache(c, p)
    requires Starts(c.table, p / c.blockSize)
    ensures CacheFine(Returned(c, p)) && Returned(c, p).blockSize == c.blockSize
    ensures Live(Returned(c, p).table) == Live(c.table) - {p / c.blockSize as nat}
  {
    var i: nat := p / c.blockSize;
    FreedOk(c.table, i);
    FreedLive(c.table, i);
    FreedCounts(c.table, i);
  }

  lemma ExtentAtSlot(c: Cache, i: nat)
    requires c.blockSize > 0
    ensures Extent(c, i * c.blockSize) <==> Starts(c.table, i)
  {
    SlotPointer(i, c.blockSize);
  }

  /** A pointer into the cache that leaves it in order points into the first block of a live extent, and
      that extent has ended. */
  lemma ReturnedNeedsExtent(c: Cache, p: int)
    requires CacheFine(c) && InCache(c, p) && CacheFine(Returned(c, p))
    ensures var q := (p / c.blockSize) * c.blockSize; Extent(c, q) && !Extent(Returned(c, p), q)
  {
    var i: nat := p / c.blockSize;
    ReturnedFineOnlyAtStart(c, p);
    ReturnedTable(c, p);
    ExtentAtSlot(c, i);
    ExtentAtSlot(Returned(c, p), i);
    assert i !in Live(Returned(c, p).table);
  }

  lemma ReturnedFineOnlyAtStart(c: Cache, p: int)
    requires CacheFine(c) && InCache(c, p) && CacheFine(Returned(c, p))
    ensures Starts(c.table, p / c.blockSize)
  {
    SlotInRange(p, c.blockSize, |c.table|);
    FreeNeedsStart(c.table, c.total, p / c.blockSize);
  }

  // ---------------------------------------------------------------------------------------------
  // Every operation keeps exactly one owner for each extent exactly when its guard holds
  // ---------------------------------------------------------------------------------------------

  /** What a pointer's `free` does to a well-owned world. */
  lemma FreeingEnds(w: World, id: nat)
    requires Good(w) && id in w.ptrs
    ensures var f := Freeing(w, w.ptrs[id]);
      && CacheFine(f.cache) && f.cache.blockSize == w.cache.blockSize
      && forall q: int :: Extent(f.cache, q) <==> Extent(w.cache, q) && w.ptrs[id].block != Some(q)
  {
    var p := w.ptrs[id];
    if p.block.Some? {
      ReturnedEnds(w.cache, p.block.value);
    }
  }

  lemma MakeKeeps(w: World, id: nat, num: nat)
    requires Good(w) && id !in w.ptrs
    ensures Good(Step(w, Make(id, num)))
  {
    var c := w.cache;
    var fit := Fit(c.table, num, 0);
    if num > 0 && fit.Some? {
      var v := Step(w, Make(id, num));
      TakenExtents(c, v.cache, fit.value, num);
      assert v.ptrs[id].block == Some(fit.value * c.blockSize);
      forall p: int | Extent(v.cache, p) ensures p in v.raw || HeldByPtr(v.ptrs, p) {
        if p != fit.value * c.blockSize && p !in w.raw {
          var i: nat :| i in w.ptrs && w.ptrs[i].block == Some(p);
          assert v.ptrs[i].block == Some(p);
        }
      }
    }
  }

  /** Taking blocks where first fit finds them keeps the cache in order and starts one more extent. */
  lemma TakenExtents(c: Cache, d: Cache, s: nat, num: nat)
    requires CacheFine(c) && num > 0 && FirstFit(c.table, s, num)
    requires d == c.(table := Taken(c.table, s, num), total := c.total + num)
    ensures CacheFine(d) && !Extent(c, s * c.blockSize)
    ensures forall q: int :: Extent(d, q) <==> Extent(c, q) || q == s * c.blockSize
  {
    TakenOk(c.table, s, num);
    TakenCounts(c.table, s, num);
    TakenLive(c.table, s, num);
    ExtentAtSlot(c, s);
    ExtentAtSlot(d, s);
    forall q: int ensures Extent(d, q) <==> Extent(c, q) || q == s * c.blockSize {
      ExtentsWith(c, d, s, num, q);
    }
  }

  lemma ExtentsWith(c: Cache, d: Cache, s: nat, num: nat, q: int)
    requires c.blockSize > 0 && d.blockSize == c.blockSize && Live(d.table) == Live(c.table)[s := num]
    ensures Extent(d, q) <==> Extent(c, q) || q == s * c.blockSize
  {
    SlotPointer(s, c.blockSize);
    if q >= 0 && q % c.blockSize == 0 {
      var k: nat := q / c.blockSize;
      assert k in Live(d.table) <==> k in Live(c.table) || k == s;
      if k == s { SamePointer(q, s * c.blockSize, c.blockSize); }
    }
  }

  /** Every extent of `w` that is not `gone` is still held in `v`, when each pointer's block is either
      gone, released, or in some pointer's hands. */
  lemma StillHeld(w: World, v: World, gone: Option<int>)
    requires w.cache.blockSize > 0 && v.cache.blockSize == w.cache.blockSize && Owned(w)
    requires forall p: int :: Extent(v.cache, p) ==> Extent(w.cache, p) && gone != Some(p)
    requires forall p: int :: p in w.raw && gone != Some(p) ==> p in v.raw || HeldByPtr(v.ptrs, p)
    requires forall id: nat :: id in w.ptrs && w.ptrs[id].block.Some? && gone != w.ptrs[id].block ==>
      w.ptrs[id].block.value in v.raw || HeldByPtr(v.ptrs, w.ptrs[id].block.value)
    ensures forall p: int :: Extent(v.cache, p) ==> p in v.raw || HeldByPtr(v.ptrs, p)
  {
    forall p: int | Extent(v.cache, p) ensures p in v.raw || HeldByPtr(v.ptrs, p) {
      if p !in w.raw {
        var id: nat :| id in w.ptrs && w.ptrs[id].block == Some(p);
        assert w.ptrs[id].block.value == p;
      }
    }
  }

  lemma MoveKeeps(w: World, id: nat, from: nat)
    requires Good(w) && from in w.ptrs && (id in w.ptrs ==> w.ptrs[id].block.None?)
    ensures Good(w.(ptrs := w.ptrs[id := w.ptrs[from]][from := Emptied(w.ptrs[from])]))
  {
    var v := w.(ptrs := w.ptrs[id := w.ptrs[from]][from := Emptied(w.ptrs[from])]);
    forall k: nat | k in w.ptrs && w.ptrs[k].block.Some? ensures HeldByPtr(v.ptrs, w.ptrs[k].block.value) {
      assert v.ptrs[if k == from then id else k].block == w.ptrs[k].block;
    }
    StillHeld(w, v, None);
  }

  lemma SwapKeeps(w: World, id: nat, from: nat, releaseFirst: bool)
    requires Good(w) && id in w.ptrs && from in w.ptrs && Safe(w, Swap(id, from, releaseFirst))
    ensures Good(Step(w, Swap(id, from, releaseFirst)))
  {
    var v := Step(w, Swap(id, from, releaseFirst));
    forall k: nat | k in w.ptrs && w.ptrs[k].block.Some? ensures HeldByPtr(v.ptrs, w.ptrs[k].block.value) {
      assert v.ptrs[if k == from then id else if k == id then from else k].block == w.ptrs[k].block;
    }
    StillHeld(w, v, None);
  }

  lemma ReleaseKeeps(w: World, id: nat)
    requires Good(w) && id in w.ptrs
    ensures Good(Step(w, Release(id)))
  {
    var v := Step(w, Release(id));
    forall k: nat | k in w.ptrs && w.ptrs[k].block.Some?
      ensures w.ptrs[k].block.value in v.raw || HeldByPtr(v.ptrs, w.ptrs[k].block.value)
    {
      if k != id { assert v.ptrs[k].block == w.ptrs[k].block; }
    }
    StillHeld(w, v, None);
  }

  lemma ResetKeeps(w: World, id: nat, to: Option<int>, num: nat)
    requires Good(w) && id in w.ptrs && Safe(w, Reset(id, to, num))
    ensures Good(Step(w, Reset(id, to, num)))
  {
    FreeingEnds(w, id);
    var v := Step(w, Reset(id, to, num));
    forall k: nat | k in w.ptrs && w.ptrs[k].block.Some? && w.ptrs[id].block != w.ptrs[k].block
      ensures HeldByPtr(v.ptrs, w.ptrs[k].block.value)
    {
      assert v.ptrs[k].block == w.ptrs[k].block;
    }
    if to.Some? { assert v.ptrs[id].block == to; }
    StillHeld(w, v, w.ptrs[id].block);
  }

  lemma FreeKeeps(w: World, id: nat)
    requires Good(w) && id in w.ptrs
    ensures Good(Step(w, Op.Free(id))) && Good(Step(w, Destroy(id)))
  {
    FreeingEnds(w, id);
    var v, u := Step(w, Op.Free(id)), Step(w, Destroy(id));
    forall k: nat | k in w.ptrs && w.ptrs[k].block.Some? && w.ptrs[id].block != w.ptrs[k].block
      ensures HeldByPtr(v.ptrs, w.ptrs[k].block.value) && HeldByPtr(u.ptrs, w.ptrs[k].block.value)
    {
      assert v.ptrs[k].block == w.ptrs[k].block && u.ptrs[k].block == w.ptrs[k].block;
    }
    StillHeld(w, v, w.ptrs[id].block);
    StillHeld(w, u, w.ptrs[id].block);
  }

  lemma FreeRawKeeps(w: World, p: int)
    requires Good(w) && Safe(w, FreeRaw(p))
    ensures Good(Step(w, FreeRaw(p)))
  {
    var v := Step(w, FreeRaw(p));
    if p in w.raw {
      ReturnedEnds(w.cache, p);
      StillHeldRaw(w, v, p);
    }
  }

  lemma StillHeldRaw(w: World, v: World, p: int)
    requires Good(w) && v.ptrs == w.ptrs && v.raw == w.raw - {p} && v.cache.blockSize == w.cache.blockSize
    requires forall q: int :: Extent(v.cache, q) <==> Extent(w.cache, q) && q != p
    ensures forall q: int :: Extent(v.cache, q) ==> q in v.raw || HeldByPtr(v.ptrs, q)
  {
    forall k: nat | k in w.ptrs && w.ptrs[k].block.Some? ensures HeldByPtr(v.ptrs, w.ptrs[k].block.value) {
      assert v.ptrs[k].block == w.ptrs[k].block;
    }
    StillHeld(w, v, Some(p));
  }

  /** An operation keeps the one-owner rule exactly when its guard holds. */
  lemma KeptExactlyWhenSafe(w: World, op: Op)
    requires Good(w) && Can(w, op)
    ensures Good(Step(w, op)) <==> Safe(w, op)
  {
    match op
    case Make(id, num) => MakeKeeps(w, id, num);
    case Default(id) => DefaultKeeps(w, id);
    case Move(id, from) => MoveKeeps(w, id, from);
    case Assign(id, from) =>
      if Safe(w, op) { MoveKeeps(w, id, from); } else { AssignLeaks(w, id, from); }
    case Swap(id, from, releaseFirst) =>
      if Safe(w, op) { SwapKeeps(w, id, from, releaseFirst); } else { SwapStrands(w, id, from, releaseFirst); }
    case Release(id) => ReleaseKeeps(w, id);
    case Reset(id, to, num) =>
      if Safe(w, op) { ResetKeeps(w, id, to, num); } else { ResetBreaks(w, id, to, num); }
    case Free(id) => FreeKeeps(w, id);
    case Destroy(id) => FreeKeeps(w, id);
    case FreeRaw(p) =>
      if Safe(w, op) { FreeRawKeeps(w, p); } else { FreeRawBreaks(w, p); }
  }

  lemma DefaultKeeps(w: World, id: nat)
    requires Good(w) && id !in w.ptrs
    ensures Good(Step(w, Default(id)))
  {
    var v := Step(w, Default(id));
    forall k: nat | k in w.ptrs && w.ptrs[k].block.Some? ensures HeldByPtr(v.ptrs, w.ptrs[k].block.value) {
      assert v.ptrs[k].block == w.ptrs[k].block;
    }
    StillHeld(w, v, None);
  }

  /** A move assignment, also to itself, leaves the extent that its target held without an owner. */
  lemma AssignLeaks(w: World, id: nat, from: nat)
    requires Good(w) && id in w.ptrs && from in w.ptrs && w.ptrs[id].block.Some?
    ensures var v, p := Step(w, Assign(id, from)), w.ptrs[id].block.value;
      Extent(v.cache, p) && p !in v.raw && !HeldByPtr(v.ptrs, p)
  {
    var v, p := Step(w, Assign(id, from)), w.ptrs[id].block.value;
    forall k: nat | k in v.ptrs ensures v.ptrs[k].block != Some(p) {
      assert k in w.ptrs;
    }
  }

  lemma SwapStrands(w: World, id: nat, from: nat, releaseFirst: bool)
    requires Good(w) && id in w.ptrs && from in w.ptrs && !Safe(w, Swap(id, from, releaseFirst))
    ensures !Good(Step(w, Swap(id, from, releaseFirst)))
  {
    var v := Step(w, Swap(id, from, releaseFirst));
    var k := if w.ptrs[id].block.Some? && !w.ptrs[from].hasCache then from else id;
    assert k in v.ptrs && v.ptrs[k].block.Some? && !v.ptrs[k].hasCache;
  }

  lemma ResetBreaks(w: World, id: nat, to: Option<int>, num: nat)
    requires Good(w) && id in w.ptrs && !Safe(w, Reset(id, to, num))
    ensures !Good(Step(w, Reset(id, to, num)))
  {
    FreeingEnds(w, id);
    var v := Step(w, Reset(id, to, num));
    assert id in v.ptrs && v.ptrs[id].block == to && v.ptrs[id].hasCache == w.ptrs[id].hasCache;
    if to.value !in w.raw && HeldByPtr(w.ptrs, to.value) && w.ptrs[id].block != to {
      var k: nat :| k in w.ptrs && w.ptrs[k].block == to;
      assert k != id && v.ptrs[k].block == to;
    }
  }

  lemma FreeRawBreaks(w: World, p: int)
    requires Good(w) && InCache(w.cache, p) && p !in w.raw
    ensures !Good(Step(w, FreeRaw(p)))
  {
    var v := Step(w, FreeRaw(p));
    if CacheFine(v.cache) {
      ReturnedNeedsExtent(w.cache, p);
      var q := (p / w.cache.blockSize) * w.cache.blockSize;
      assert q in w.raw ==> q in v.raw;
      if q !in w.raw {
        var k: nat :| k in w.ptrs && w.ptrs[k].block == Some(q);
        assert k in v.ptrs && v.ptrs[k].block.value == q;
      }
    }
  }

  // ---------------------------------------------------------------------------------------------
  // Runs
  // ---------------------------------------------------------------------------------------------

  function Takes(log: seq<Event>, p: int): nat {
    if log == [] then 0 else Takes(log[..|log| - 1], p) + if log[|log| - 1] == Took(p) then 1 else 0
  }

  function Gives(log: seq<Event>, p: int): nat {
    if log == [] then 0 else Gives(log[..|log| - 1], p) + if log[|log| - 1] == Gave(p) then 1 else 0
  }

  /** Each extent has been given back as often as it was taken, but for the one that may be live. */
  ghost predicate Balanced(w: World)
    requires w.cache.blockSize > 0
  {
    forall p: int :: Takes(w.log, p) == Gives(w.log, p) + if Extent(w.cache, p) then 1 else 0
  }

  lemma GaveBalances(w: World, v: World, p: int)
    requires w.cache.blockSize > 0 && v.cache.blockSize == w.cache.blockSize && Balanced(w)
    requires Extent(w.cache, p) && v.log == w.log + [Gave(p)]
    requires forall q: int :: Extent(v.cache, q) <==> Extent(w.cache, q) && q != p
    ensures Balanced(v)
  {
    assert v.log[..|v.log| - 1] == w.log;
  }

  lemma TookBalances(w: World, v: World, p: int)
    requires w.cache.blockSize > 0 && v.cache.blockSize == w.cache.blockSize && Balanced(w)
    requires !Extent(w.cache, p) && v.log == w.log + [Took(p)]
    requires forall q: int :: Extent(v.cache, q) <==> Extent(w.cache, q) || q == p
    ensures Balanced(v)
  {
    assert v.log[..|v.log| - 1] == w.log;
  }

  lemma FreeingBalances(w: World, v: World, id: nat)
    requires Good(w) && Balanced(w) && id in w.ptrs
    requires v.cache == Freeing(w, w.ptrs[id]).cache && v.log == Freeing(w, w.ptrs[id]).log
    ensures v.cache.blockSize == w.cache.blockSize && Balanced(v)
  {
    FreeingEnds(w, id);
    var b := w.ptrs[id].block;
    if b.Some? {
      ExtentInBounds(w.cache, b.value);
      GaveBalances(w, v, b.value);
    }
  }

  lemma StepBalances(w: World, op: Op)
    requires Good(w) && Balanced(w) && Can(w, op) && Safe(w, op)
    ensures Step(w, op).cache.blockSize == w.cache.blockSize && Balanced(Step(w, op))
  {
    var v := Step(w, op);
    match op
    case Make(id, num) =>
      var fit := Fit(w.cache.table, num, 0);
      if num > 0 && fit.Some? {
        TakenExtents(w.cache, v.cache, fit.value, num);
        TookBalances(w, v, fit.value * w.cache.blockSize);
      }
    case Reset(id, _, _) => FreeingBalances(w, v, id);
    case Free(id) => FreeingBalances(w, v, id);
    case Destroy(id) => FreeingBalances(w, v, id);
    case FreeRaw(p) =>
      if p in w.raw {
        ReturnedEnds(w.cache, p);
        ExtentInBounds(w.cache, p);
        GaveBalances(w, v, p);
      }
    case _ =>
  }

  function Start(n: nat, blockSize: nat): World { World(Cache(Built(n), 0, blockSize), map[], {}, []) }

  /** The world after a program on a built cache; None once the program does what it cannot or should not. */
  function After(n: nat, blockSize: nat, ops: seq<Op>): Option<World>
    requires n > 0 && blockSize > 0
  {
    if ops == [] then Some(Start(n, blockSize))
    else
      match After(n, blockSize, ops[..|ops| - 1])
      case None => None
      case Some(w) =>
        var op := ops[|ops| - 1];
        if CacheFine(w.cache) && Can(w, op) && Safe(w, op) then Some(Step(w, op)) else None
  }

  /** Throughout a guarded program every live extent has exactly one owner and has been taken once more
      than it was given back; whatever is not live has been given back as often as it was taken. */
  lemma {:induction false} OneOwnerThroughout(n: nat, blockSize: nat, ops: seq<Op>)
    requires n > 0 && blockSize > 0 && After(n, blockSize, ops).Some?
    ensures var w := After(n, blockSize, ops).value;
      Good(w) && Balanced(w) && w.cache.blockSize == blockSize && |w.cache.table| == n
    decreases |ops|
  {
    if ops == [] {
      BuiltOk(n);
      NoExtents(Start(n, blockSize).cache);
    } else {
      OneOwnerThroughout(n, blockSize, ops[..|ops| - 1]);
      var w := After(n, blockSize, ops[..|ops| - 1]).value;
      KeptExactlyWhenSafe(w, ops[|ops| - 1]);
      StepBalances(w, ops[|ops| - 1]);
    }
  }

  lemma NoExtents(c: Cache)
    requires c.blockSize > 0 && Live(c.table) == map[]
    ensures forall p: int :: !Extent(c, p)
  {
    forall p: int ensures !Extent(c, p) {
      if p >= 0 { assert (p / c.blockSize) as nat !in Live(c.table); }
    }
  }

  /** A guarded program that ends all its pointers and frees what they released leaves the cache as it
      was built, and has given back all it took. */
  lemma NothingLost(n: nat, blockSize: nat, ops: seq<Op>)
    requires n > 0 && blockSize > 0 && After(n, blockSize, ops).Some?
    requires After(n, blockSize, ops).value.ptrs == map[] && After(n, blockSize, ops).value.raw == {}
    ensures After(n, blockSize, ops).value.cache == Cache(Built(n), 0, blockSize)
    ensures var log := After(n, blockSize, ops).value.log;
      forall p: int :: Takes(log, p) == Gives(log, p)
  {
    OneOwnerThroughout(n, blockSize, ops);
    var w := After(n, blockSize, ops).value;
    forall s: nat ensures s !in Live(w.cache.table) {
      ExtentAtSlot(w.cache, s);
    }
    NothingLive(w.cache.table);
    BuiltOk(n);
  }

  // ---------------------------------------------------------------------------------------------
  // Programs that break the rule
  // ---------------------------------------------------------------------------------------------

  lemma AfterOneMore(n: nat, blockSize: nat, ops: seq<Op>, op: Op, w: World)
    requires n > 0 && blockSize > 0 && After(n, blockSize, ops) == Some(w) && CacheFine(w.cache)
    requires Can(w, op) && Safe(w, op)
    ensures After(n, blockSize, ops + [op]) == Some(Step(w, op))
  {
    assert (ops + [op])[..|ops + [op]| - 1] == ops;
  }

  /** On a cache of at least two blocks: pointers 0 and 2 own one block each, pointer 1 knows no cache. */
  lemma ThreePointers(n: nat, blockSize: nat) returns (ops: seq<Op>, w: World)
    requires n >= 2 && blockSize > 0
    ensures After(n, blockSize, ops) == Some(w) && Good(w) && w.raw == {} && w.cache.blockSize == blockSize
    ensures w.ptrs == map[0 := CPtr(true, Some(0), 1), 1 := CPtr(false, None, 0), 2 := CPtr(true, Some(blockSize), 1)]
    ensures |w.cache.table| == n
  {
    BuiltOk(n);
    w := Start(n, blockSize);
    ops := [];
    FitIsUnique(w.cache.table, 1, 0);
    AfterOneMore(n, blockSize, ops, Make(0, 1), w);
    w, ops := Step(w, Make(0, 1)), ops + [Make(0, 1)];
    OneOwnerThroughout(n, blockSize, ops);
    AfterOneMore(n, blockSize, ops, Default(1), w);
    w, ops := Step(w, Default(1)), ops + [Default(1)];
    OneOwnerThroughout(n, blockSize, ops);
    var h := w.cache.table;
    assert h[0].inUse && forall k: nat :: 0 < k < n ==> !h[k].inUse;
    assert FreeRun(h, 1, 1) && !FreeRun(h, 0, 1);
    FitIsUnique(h, 1, 1);
    AfterOneMore(n, blockSize, ops, Make(2, 1), w);
    w, ops := Step(w, Make(2, 1)), ops + [Make(2, 1)];
    OneOwnerThroughout(n, blockSize, ops);
  }

  /** Assigning 2 to 0 leaks the block of 0, swapping 0 and 1 strands it, resetting 0 to its own block and
      freeing that block as a raw pointer leave 0 with a block it does not own. */
  lemma RuleIsBroken(n: nat, blockSize: nat) returns (ops: seq<Op>, w: World)
    requires n >= 2 && blockSize > 0
    ensures After(n, blockSize, ops) == Some(w) && CacheFine(w.cache)
    ensures forall op :: op in BadOps() ==> Can(w, op) && !Good(Step(w, op))
  {
    ops, w := ThreePointers(n, blockSize);
    SlotBound(0, blockSize, n);
    forall op | op in BadOps() ensures Can(w, op) && !Good(Step(w, op)) {
      KeptExactlyWhenSafe(w, op);
    }
  }

  function BadOps(): seq<Op> {
    [Assign(0, 2), Assign(0, 0), Swap(0, 1, false), Swap(0, 1, true), Reset(0, Some(0), 1), Op.FreeRaw(0)]
  }

  // ---------------------------------------------------------------------------------------------
  // The pointer itself
  // ---------------------------------------------------------------------------------------------

  ghost function State(m: Manager): Cache
    reads m, m.handles
  {
    Cache(m.handles[..], m.total, m.blockSize)
  }

  /** The cache may be asked to free a block. */
  ghost predicate Ready(m: Manager)
    reads m, m.handles
  {
    m.Valid() && m.built && m.blockSize > 0
  }

  class CachePtr {
    var cache: Manager?
    var block: Option<int>
    var num: nat

    ghost function View(): CPtr
      reads this
    {
      CPtr(cache != null, block, num)
    }

    /** What freeing the block may change. */
    ghost function CacheFrame(): set<object>
      reads this, cache
    {
      if cache == null || block.None? then {} else var m: Manager := cache; {m, m.handles}
    }

    ghost predicate CanFree()
      reads this, cache, CacheFrame()
    {
      cache != null && block.Some? ==> Ready(cache)
    }

    constructor Empty()
      ensures View() == CPtr(false, None, 0)
    {
      cache, block, num := null, None, 0;
    }

    constructor (block: Option<int>, num: nat, cache: Manager?)
      ensures this.cache == cache && View() == CPtr(cache != null, block, num)
    {
      this.cache, this.block, this.num := cache, block, num;
    }

    constructor MoveFrom(that: CachePtr)
      modifies that
      ensures cache == old(that.cache) && that.cache == old(that.cache)
      ensures View() == old(that.View()) && that.View() == Emptied(old(that.View()))
    {
      cache, block, num := that.cache, that.block, that.num;
      new;
      that.block := None;
      that.num := 0;
    }

    method Release() returns (p: Option<int>)
      modifies this
      ensures p == old(block) && cache == old(cache) && View() == Emptied(old(View()))
    {
      p := block;
      num := 0;
      block := None;
    }

    /** The number of blocks is kept. */
    method Free()
      requires CanFree()
      modifies this, CacheFrame()
      ensures cache == old(cache) && num == old(num)
      ensures if cache == null then block == old(block) else block == None
      ensures cache != null && old(block).Some? ==> State(cache) == Returned(old(State(cache)), old(block).value)
    {
      if block.None? || cache == null {
        return;
      }
      cache.FreeRaw(block);
      block := None;
    }

    method Reset(to: Option<int>, blocks: nat)
      requires CanFree()
      modifies this, CacheFrame()
      ensures cache == old(cache) && View() == CPtr(cache != null, to, blocks)
      ensures cache != null && old(block).Some? ==> State(cache) == Returned(old(State(cache)), old(block).value)
    {
      if block.Some? {
        Free();
      }
      num := blocks;
      block := to;
    }

    /** The order in which the two arguments of the inner `reset` are evaluated is unspecified. */
    method Swap(that: CachePtr) returns (releaseFirst: bool)
      modifies this, that
      ensures cache == old(cache) && that.cache == old(that.cache)
      ensures View() == old(View()).(block := old(that.block), num := old(that.num))
      ensures this != that ==>
        that.View() == old(that.View()).(block := old(block), num := if releaseFirst then 0 else old(num))
    {
      var nblocks := that.num;
      var ptr := that.Release();
      var count := num;
      var mine := Release();
      releaseFirst := *;
      if releaseFirst {
        count := num;
      }
      that.Reset(mine, count);
      Reset(ptr, nblocks);
    }

    /** `operator =` for an rvalue; what this pointer held is forgotten. */
    method Assign(that: CachePtr)
      modifies this, that
      ensures cache == old(that.cache) && that.cache == old(that.cache)
      ensures this != that ==> View() == old(that.View())
      ensures that.View() == Emptied(old(that.View()))
    {
      cache := that.cache;
      block := that.block;
      num := that.num;
      that.block := None;
      that.num := 0;
    }

    /** The destructor. */
    method Destroy()
      requires CanFree()
      modifies CacheFrame()
      ensures cache != null && block.Some? ==> State(cache) == Returned(old(State(cache)), block.value)
    {
      if block.None? || cache == null {
        return;
      }
      cache.FreeRaw(block);
    }
  }

  ghost function AllocFrame(m: Manager?): set<object>
    reads m
  {
    if m == null then {} else var n: Manager := m; {n, n.handles}
  }

  /** `cache_alloc`: null when the cache throws cache_drain. */
  method CacheAlloc(m: Manager?, num: nat) returns (p: CachePtr?)
    requires m != null ==> Ready(m) && m.numBlocks > 0
    modifies AllocFrame(m)
    ensures p != null ==> fresh(p) && p.cache == m
    ensures m == null ==> p != null && p.View() == CPtr(false, None, 0)
    ensures m != null ==> m.Valid() && (p == null <==> num == 0 || Fit(old(State(m)).table, num, 0).None?)
    ensures m != null ==>
      if p == null then State(m) == old(State(m))
      else
        var c, at := old(State(m)), Fit(old(State(m)).table, num, 0).value;
        && p.View() == CPtr(true, Some(at * c.blockSize), num)
        && State(m) == c.(table := Taken(c.table, at, num), total := c.total + num)
  {
    if m == null {
      p := new CachePtr(None, 0, null);
      return;
    }
    assert m.numBlocks * m.blockSize > 0;
    var r := m.AllocRaw(num);
    if r.Drained? {
      return null;
    }
    p := new CachePtr(Some(r.offset), num, m);
  }
}
