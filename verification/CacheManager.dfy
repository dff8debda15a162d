/** The block cache: a fixed number of equal blocks handed out in contiguous extents, first fit. The
    handle of a slot holds whether it is in use and how many blocks of its extent, or of its free run,
    start there. Pointers into the cache are offsets in samples. */
module CacheManager {
  import opened Wrappers

  datatype Handle = Handle(inUse: bool, blocks: nat)

  // ---------------------------------------------------------------------------------------------
  // The handle table
  // ---------------------------------------------------------------------------------------------

  /** What one slot says about the next: a used slot continues into the next one unless it is the last
      of its extent, and a free slot counts itself and the free run behind it. */
  predicate SlotOk(h: seq<Handle>, i: nat)
    requires i < |h|
  {
    if h[i].inUse then
      1 <= h[i].blocks && (h[i].blocks > 1 ==> i + 1 < |h| && h[i + 1] == Handle(true, h[i].blocks - 1))
    else
      h[i].blocks == 1 + (if i + 1 < |h| && !h[i + 1].inUse then h[i + 1].blocks else 0)
  }

  predicate TableOk(h: seq<Handle>) { forall i: nat :: i < |h| ==> SlotOk(h, i) }

  /** Slot `i` is the first of a live extent. */
  predicate Starts(h: seq<Handle>, i: nat) {
    i < |h| && h[i].inUse && (i > 0 && h[i - 1].inUse ==> h[i - 1].blocks == 1)
  }

  /** The live extents: their first slots and lengths. */
  function Live(h: seq<Handle>): map<nat, nat> {
    map i: nat | i < |h| && Starts(h, i) :: h[i].blocks
  }

  /** Slots i to i + n - 1 exist and are free. */
  predicate FreeRun(h: seq<Handle>, i: nat, n: nat) {
    i + n <= |h| && forall k: nat :: i <= k < i + n ==> !h[k].inUse
  }

  function Used(h: seq<Handle>): nat {
    if h == [] then 0 else Used(h[..|h| - 1]) + (if h[|h| - 1].inUse then 1 else 0)
  }

  /** The table `build_cache` makes. */
  function Built(n: nat): (h: seq<Handle>)
    ensures |h| == n && forall i: nat :: i < n ==> h[i] == Handle(false, n - i)
  {
    seq(n, i requires 0 <= i < n => Handle(false, n - i))
  }

  /** The table after slots p to p + n - 1 have been taken. */
  function Taken(h: seq<Handle>, p: nat, n: nat): (r: seq<Handle>)
    requires p + n <= |h|
    ensures |r| == |h| && forall i: nat :: i < |h| ==>
      r[i] == if p <= i < p + n then Handle(true, n - (i - p)) else h[i]
  {
    seq(|h|, i requires 0 <= i < |h| => if p <= i < p + n then Handle(true, n - (i - p)) else h[i])
  }

  /** The first slot of the free slots that end right before `i`. */
  function FreeBefore(h: seq<Handle>, i: nat): (lo: nat)
    requires i <= |h|
    ensures lo <= i && FreeRun(h, lo, i - lo) && (lo > 0 ==> h[lo - 1].inUse)
  {
    if i > 0 && !h[i - 1].inUse then FreeBefore(h, i - 1) else i
  }

  /** Where the free run ends that slot `i` will belong to once it is freed. */
  function FreedEnd(h: seq<Handle>, i: nat): nat
    requires i < |h|
  {
    var next := i + h[i].blocks;
    next + if next < |h| && !h[next].inUse then h[next].blocks else 0
  }

  /** The table after `free_raw` for slot `i`, whatever slot it is. */
  function Freed(h: seq<Handle>, i: nat): (r: seq<Handle>)
    requires i < |h| && i + h[i].blocks <= |h|
    ensures |r| == |h|
    ensures forall k: nat :: k < |h| ==>
      r[k] == if FreeBefore(h, i) <= k < i + h[i].blocks then Handle(false, FreedEnd(h, i) - k) else h[k]
  {
    seq(|h|, k requires 0 <= k < |h| =>
      if FreeBefore(h, i) <= k < i + h[i].blocks then Handle(false, FreedEnd(h, i) - k) else h[k])
  }

  // ---------------------------------------------------------------------------------------------
  // What the counts in a table mean
  // ---------------------------------------------------------------------------------------------

  /** A free slot's count is the exact length of the free run that starts there. */
  lemma {:induction false} FreeCountIsExact(h: seq<Handle>, i: nat)
    requires TableOk(h) && i < |h| && !h[i].inUse
    ensures FreeRun(h, i, h[i].blocks) && (i + h[i].blocks < |h| ==> h[i + h[i].blocks].inUse)
    ensures forall k: nat :: i <= k < i + h[i].blocks ==> h[k].blocks == h[i].blocks - (k - i)
    decreases |h| - i
  {
    assert SlotOk(h, i);
    if i + 1 == |h| || h[i + 1].inUse {
    } else {
      FreeCountIsExact(h, i + 1);
    }
  }

  /** A used slot's count is what is left of its extent. */
  lemma {:induction false} UsedCountIsRest(h: seq<Handle>, i: nat)
    requires TableOk(h) && i < |h| && h[i].inUse
    ensures 1 <= h[i].blocks && i + h[i].blocks <= |h|
    ensures forall k: nat :: i <= k < i + h[i].blocks ==> h[k] == Handle(true, h[i].blocks - (k - i))
    decreases h[i].blocks
  {
    assert SlotOk(h, i);
    if h[i].blocks == 1 {
    } else {
      UsedCountIsRest(h, i + 1);
    }
  }

  /** Every used slot lies in exactly one live extent. */
  lemma {:induction false} ExtentOf(h: seq<Handle>, i: nat) returns (start: nat)
    requires TableOk(h) && i < |h| && h[i].inUse
    ensures Starts(h, start) && start <= i < start + h[start].blocks && h[i].blocks == h[start].blocks - (i - start)
    decreases i
  {
    if Starts(h, i) {
      start := i;
      assert SlotOk(h, i);
    } else {
      assert SlotOk(h, i - 1);
      start := ExtentOf(h, i - 1);
    }
  }

  lemma InsideIsNoStart(h: seq<Handle>, i: nat, k: nat)
    requires TableOk(h) && i < |h| && h[i].inUse && i < k < i + h[i].blocks
    ensures !Starts(h, k)
  {
    UsedCountIsRest(h, i);
    assert h[k - 1] == Handle(true, h[i].blocks - (k - 1 - i));
  }

  /** Live extents lie inside the table and do not overlap. */
  lemma ExtentsDisjoint(h: seq<Handle>, i: nat, j: nat)
    requires TableOk(h) && Starts(h, i) && Starts(h, j) && i < j
    ensures i + h[i].blocks <= j && j + h[j].blocks <= |h|
  {
    if j < i + h[i].blocks {
      InsideIsNoStart(h, i, j);
    } else {
      UsedCountIsRest(h, j);
    }
  }

  /** The table is a function of the live extents. */
  lemma TableFromExtents(h1: seq<Handle>, h2: seq<Handle>)
    requires TableOk(h1) && TableOk(h2) && |h1| == |h2| && Live(h1) == Live(h2)
    ensures h1 == h2
  {
    forall i: nat | i < |h1| ensures h1[i].inUse == h2[i].inUse && (h1[i].inUse ==> h1[i] == h2[i]) {
      if h1[i].inUse { SameUsedSlot(h1, h2, i); }
      if h2[i].inUse { SameUsedSlot(h2, h1, i); }
    }
    SameFreeSlots(h1, h2, 0);
  }

  lemma SameUsedSlot(h1: seq<Handle>, h2: seq<Handle>, i: nat)
    requires TableOk(h1) && TableOk(h2) && |h1| == |h2| && Live(h1) == Live(h2) && i < |h1| && h1[i].inUse
    ensures h2[i] == h1[i]
  {
    var start := ExtentOf(h1, i);
    assert start in Live(h1);
    SameExtent(h1, h2, start);
    UsedCountIsRest(h1, start);
    UsedCountIsRest(h2, start);
  }

  lemma SameExtent(h1: seq<Handle>, h2: seq<Handle>, start: nat)
    requires Live(h1) == Live(h2) && start in Live(h1)
    ensures Starts(h1, start) && Starts(h2, start) && h1[start].blocks == h2[start].blocks
  {
    assert start in Live(h2) && Live(h1)[start] == Live(h2)[start];
  }

  lemma {:induction false} SameFreeSlots(h1: seq<Handle>, h2: seq<Handle>, i: nat)
    requires TableOk(h1) && TableOk(h2) && |h1| == |h2| && i <= |h1|
    requires forall k: nat :: k < |h1| ==> h1[k].inUse == h2[k].inUse && (h1[k].inUse ==> h1[k] == h2[k])
    ensures forall k: nat :: i <= k < |h1| ==> h1[k] == h2[k]
    decreases |h1| - i
  {
    if i == |h1| {
    } else {
      SameFreeSlots(h1, h2, i + 1);
      assert SlotOk(h1, i) && SlotOk(h2, i);
    }
  }

  // ---------------------------------------------------------------------------------------------
  // Taking and freeing
  // ---------------------------------------------------------------------------------------------

  /** Where first fit finds n blocks: the lowest slot at which n free blocks start, and no slot before it. */
  predicate FirstFit(h: seq<Handle>, p: nat, n: nat) {
    FreeRun(h, p, n) && forall q: nat :: q < p ==> !FreeRun(h, q, n)
  }

  lemma FirstFitStartsRun(h: seq<Handle>, p: nat, n: nat)
    requires TableOk(h) && n >= 1 && FirstFit(h, p, n)
    ensures p > 0 ==> h[p - 1].inUse
  {
    if p > 0 && !h[p - 1].inUse {
      assert FreeRun(h, p - 1, n);
    }
  }

  lemma TakenOk(h: seq<Handle>, p: nat, n: nat)
    requires TableOk(h) && n >= 1 && FirstFit(h, p, n)
    ensures TableOk(Taken(h, p, n))
  {
    FirstFitStartsRun(h, p, n);
    var r := Taken(h, p, n);
    forall i: nat | i < |r| ensures SlotOk(r, i) {
      assert SlotOk(h, i);
    }
  }

  /** Taking adds one extent and leaves the others alone. */
  lemma TakenLive(h: seq<Handle>, p: nat, n: nat)
    requires TableOk(h) && n >= 1 && FirstFit(h, p, n)
    ensures Live(Taken(h, p, n)) == Live(h)[p := n]
  {
    FirstFitStartsRun(h, p, n);
    var r := Taken(h, p, n);
    forall i: nat | i < |h| ensures Starts(r, i) <==> Starts(h, i) || i == p {
      assert SlotOk(h, i);
      if i > 0 { assert SlotOk(h, i - 1); }
    }
  }

  /** What `Freed` reads around a live extent. */
  predicate Surroundings(h: seq<Handle>, i: nat)
    requires i < |h|
  {
    var lo, next, end := FreeBefore(h, i), i + h[i].blocks, FreedEnd(h, i);
    && i < next <= end <= |h|
    && (forall k: nat :: lo <= k < i ==> !h[k].inUse)
    && (forall k: nat :: i <= k < next ==> h[k] == Handle(true, next - k))
    && (forall k: nat :: next <= k < end ==> h[k] == Handle(false, end - k))
    && (end < |h| ==> h[end].inUse) && (lo > 0 ==> h[lo - 1].inUse)
  }

  lemma StartSurroundings(h: seq<Handle>, i: nat)
    requires TableOk(h) && Starts(h, i)
    ensures Surroundings(h, i)
  {
    UsedCountIsRest(h, i);
    var next := i + h[i].blocks;
    if next < |h| && !h[next].inUse {
      FreeCountIsExact(h, next);
    }
  }

  /** Freeing a live extent leaves a proper table: the freed blocks are joined with the free blocks on
      both sides. */
  lemma FreedOk(h: seq<Handle>, i: nat)
    requires TableOk(h) && Starts(h, i)
    ensures i + h[i].blocks <= |h| && TableOk(Freed(h, i))
  {
    StartSurroundings(h, i);
    forall k: nat | k < |h| ensures SlotOk(Freed(h, i), k) {
      FreedSlotOk(h, i, k);
    }
  }

  lemma FreedSlotOk(h: seq<Handle>, i: nat, k: nat)
    requires Starts(h, i) && Surroundings(h, i) && k < |h| && SlotOk(h, k)
    ensures SlotOk(Freed(h, i), k)
  {
    var r, lo, next := Freed(h, i), FreeBefore(h, i), i + h[i].blocks;
    if k + 1 < |h| && (k + 1 < lo || next <= k) {
      assert r[k] == h[k] && r[k + 1] == h[k + 1];
    }
  }

  /** Freeing removes that extent and leaves the others alone. */
  lemma FreedLive(h: seq<Handle>, i: nat)
    requires TableOk(h) && Starts(h, i)
    ensures i + h[i].blocks <= |h| && Live(Freed(h, i)) == Live(h) - {i}
  {
    StartSurroundings(h, i);
    forall k: nat | k < |h| ensures Starts(Freed(h, i), k) <==> Starts(h, k) && k != i {
      FreedStarts(h, i, k);
    }
  }

  lemma FreedStarts(h: seq<Handle>, i: nat, k: nat)
    requires Starts(h, i) && Surroundings(h, i) && k < |h|
    ensures Starts(Freed(h, i), k) <==> Starts(h, k) && k != i
  {
    var r, lo, next := Freed(h, i), FreeBefore(h, i), i + h[i].blocks;
    if i < k < next {
      assert h[k - 1] == Handle(true, next - (k - 1));
    } else if k == next {
      assert h[k - 1] == Handle(true, 1) && !r[k - 1].inUse;
    } else if 0 < k < lo || next < k {
      assert r[k] == h[k] && r[k - 1] == h[k - 1];
    }
  }

  /** Where first fit would find n blocks, looking from slot `i` on. */
  function Fit(h: seq<Handle>, n: nat, i: nat): (r: Option<nat>)
    requires i <= |h|
    ensures r.Some? ==> i <= r.value && FreeRun(h, r.value, n)
    ensures r.Some? ==> forall q: nat :: i <= q < r.value ==> !FreeRun(h, q, n)
    ensures r.None? && n >= 1 ==> forall q: nat :: i <= q ==> !FreeRun(h, q, n)
    decreases |h| - i
  {
    if i == |h| then None else if FreeRun(h, i, n) then Some(i) else Fit(h, n, i + 1)
  }

  lemma FitIsUnique(h: seq<Handle>, n: nat, p: nat)
    requires n >= 1 && FirstFit(h, p, n)
    ensures Fit(h, n, 0) == Some(p)
  {
    var r := Fit(h, n, 0);
    assert r.Some? ==> !(r.value < p) && !(p < r.value);
  }

  lemma FreeBeforeIs(h: seq<Handle>, i: nat, lo: nat)
    requires lo <= i <= |h| && FreeRun(h, lo, i - lo) && (lo > 0 ==> h[lo - 1].inUse)
    ensures FreeBefore(h, i) == lo
  {
    if i == lo {
    } else {
      assert !h[i - 1].inUse;
      FreeBeforeIs(h, i - 1, lo);
    }
  }

  // ---------------------------------------------------------------------------------------------
  // The number of used slots
  // ---------------------------------------------------------------------------------------------

  /** Two tables that differ only in slots a to b - 1, which are used in one and free in the other. */
  lemma {:induction false} UsedDiffers(h1: seq<Handle>, h2: seq<Handle>, a: nat, b: nat)
    requires |h1| == |h2| && a <= b <= |h1|
    requires forall k: nat :: k < |h1| ==>
      if a <= k < b then h1[k].inUse && !h2[k].inUse else h1[k].inUse == h2[k].inUse
    ensures Used(h1) == Used(h2) + (b - a)
    decreases |h1|
  {
    var n := |h1|;
    if n == 0 {
    } else {
      UsedDiffers(h1[..n - 1], h2[..n - 1], if a < n then a else n - 1, if b < n then b else n - 1);
    }
  }

  lemma {:induction false} NoneUsed(h: seq<Handle>)
    requires forall k: nat :: k < |h| ==> !h[k].inUse
    ensures Used(h) == 0
    decreases |h|
  {
    if h == [] {
    } else {
      NoneUsed(h[..|h| - 1]);
    }
  }

  /** The lengths of the live extents that start before slot `i`, added up. */
  function LiveBlocks(h: seq<Handle>, i: nat): nat
    requires i <= |h|
  {
    if i == 0 then 0 else LiveBlocks(h, i - 1) + if Starts(h, i - 1) then h[i - 1].blocks else 0
  }

  /** The used slots are the blocks of the live extents, each counted once. */
  lemma UsedIsLive(h: seq<Handle>)
    requires TableOk(h)
    ensures Used(h) == LiveBlocks(h, |h|)
  {
    UsedUpTo(h, |h|);
    assert h[..|h|] == h;
    if h != [] { assert SlotOk(h, |h| - 1); }
  }

  lemma {:induction false} UsedUpTo(h: seq<Handle>, i: nat)
    requires TableOk(h) && i <= |h|
    ensures LiveBlocks(h, i) == Used(h[..i]) + if i > 0 && h[i - 1].inUse then h[i - 1].blocks - 1 else 0
  {
    if i == 0 {
    } else {
      UsedUpTo(h, i - 1);
      assert h[..i][..i - 1] == h[..i - 1];
      assert SlotOk(h, i - 1);
      if i > 1 { assert SlotOk(h, i - 2); }
    }
  }

  /** A table together with its total of used slots, as `m_total` should have it. */
  predicate CacheOk(h: seq<Handle>, total: int) { TableOk(h) && total == Used(h) }

  lemma TakenCounts(h: seq<Handle>, p: nat, n: nat)
    requires FreeRun(h, p, n)
    ensures Used(Taken(h, p, n)) == Used(h) + n
  {
    UsedDiffers(Taken(h, p, n), h, p, p + n);
  }

  lemma FreedCounts(h: seq<Handle>, i: nat)
    requires TableOk(h) && Starts(h, i)
    ensures i + h[i].blocks <= |h| && Used(Freed(h, i)) == Used(h) - h[i].blocks
  {
    StartSurroundings(h, i);
    UsedDiffers(h, Freed(h, i), i, i + h[i].blocks);
  }

  lemma CountsFit(h: seq<Handle>, i: nat)
    requires TableOk(h) && i < |h|
    ensures 1 <= h[i].blocks && i + h[i].blocks <= |h|
  {
    if h[i].inUse { UsedCountIsRest(h, i); } else { FreeCountIsExact(h, i); assert SlotOk(h, i); }
  }

  /** `free_raw` keeps the cache in order exactly when it is given the first slot of a live extent: for a
      slot inside an extent the table is damaged, for a free slot the total is. */
  lemma FreeNeedsStart(h: seq<Handle>, total: int, i: nat)
    requires CacheOk(h, total) && i < |h|
    ensures i + h[i].blocks <= |h|
    ensures CacheOk(Freed(h, i), total - h[i].blocks) <==> Starts(h, i)
  {
    CountsFit(h, i);
    if Starts(h, i) {
      FreedOk(h, i);
      FreedCounts(h, i);
    } else if h[i].inUse {
      FreeBeforeIs(h, i, i);
      var r := Freed(h, i);
      assert r[i - 1] == h[i - 1] && !r[i].inUse && SlotOk(h, i - 1);
      assert !SlotOk(r, i - 1);
    } else {
      FreeCountIsExact(h, i);
      UsedDiffers(Freed(h, i), h, 0, 0);
    }
  }

  // ---------------------------------------------------------------------------------------------
  // Histories
  // ---------------------------------------------------------------------------------------------

  /** The table after two extents have been freed one after the other. */
  lemma FreedTwice(h: seq<Handle>, i: nat, j: nat)
    requires TableOk(h) && Starts(h, i) && Starts(h, j) && i != j
    ensures i + h[i].blocks <= |h| && Starts(Freed(h, i), j) && j + Freed(h, i)[j].blocks <= |h|
    ensures TableOk(Freed(Freed(h, i), j)) && Live(Freed(Freed(h, i), j)) == Live(h) - {i, j}
  {
    FreedOk(h, i);
    FreedLive(h, i);
    var f := Freed(h, i);
    assert j in Live(h) && j in Live(f);
    FreedOk(f, j);
    FreedLive(f, j);
    assert Live(h) - {i} - {j} == Live(h) - {i, j};
  }

  /** Freeing two extents in either order gives the same table. */
  lemma FreesCommute(h: seq<Handle>, i: nat, j: nat)
    requires TableOk(h) && Starts(h, i) && Starts(h, j) && i != j
    ensures i + h[i].blocks <= |h| && j + h[j].blocks <= |h|
    ensures Starts(Freed(h, i), j) && Starts(Freed(h, j), i)
    ensures j + Freed(h, i)[j].blocks <= |h| && i + Freed(h, j)[i].blocks <= |h|
    ensures Freed(Freed(h, i), j) == Freed(Freed(h, j), i)
  {
    FreedTwice(h, i, j);
    FreedTwice(h, j, i);
    SameExtents(Freed(Freed(h, i), j), Freed(Freed(h, j), i), Live(h) - {i, j});
  }

  lemma SameExtents(h1: seq<Handle>, h2: seq<Handle>, live: map<nat, nat>)
    requires TableOk(h1) && TableOk(h2) && |h1| == |h2| && Live(h1) == live && Live(h2) == live
    ensures h1 == h2
  {
    TableFromExtents(h1, h2);
  }

  /** Freeing what has just been allocated restores the table. */
  lemma FreeUndoesAlloc(h: seq<Handle>, p: nat, n: nat)
    requires TableOk(h) && n >= 1 && FirstFit(h, p, n)
    ensures Starts(Taken(h, p, n), p) && Freed(Taken(h, p, n), p) == h
  {
    var t := Taken(h, p, n);
    TakenOk(h, p, n);
    TakenLive(h, p, n);
    assert p in Live(t);
    FreedOk(t, p);
    FreedLive(t, p);
    assert p !in Live(h);
    assert Live(Freed(t, p)) == Live(h);
    TableFromExtents(Freed(t, p), h);
  }

  lemma BuiltOk(n: nat)
    ensures CacheOk(Built(n), 0) && Live(Built(n)) == map[]
  {
    NoneUsed(Built(n));
  }

  /** A table without live extents is the one `build_cache` made. */
  lemma NothingLive(h: seq<Handle>)
    requires TableOk(h) && Live(h) == map[]
    ensures h == Built(|h|)
  {
    BuiltOk(|h|);
    TableFromExtents(h, Built(|h|));
  }

  /** An allocation of `num` blocks, or the freeing of the extent that starts in slot `slot`. */
  datatype Op = Alloc(num: nat) | Free(slot: nat)

  /** The table and total after a history on a built cache of n blocks; None once something other than
      a live extent is freed. */
  function After(n: nat, ops: seq<Op>): Option<(seq<Handle>, int)> {
    if ops == [] then Some((Built(n), 0))
    else
      match After(n, ops[..|ops| - 1])
      case None => None
      case Some(c) =>
        match ops[|ops| - 1]
        case Alloc(num) =>
          var fit := Fit(c.0, num, 0);
          Some(if num >= 1 && fit.Some? then (Taken(c.0, fit.value, num), c.1 + num) else c)
        case Free(slot) =>
          if Starts(c.0, slot) && slot + c.0[slot].blocks <= |c.0| then
            Some((Freed(c.0, slot), c.1 - c.0[slot].blocks))
          else None
  }

  lemma {:induction false} ReachableOk(n: nat, ops: seq<Op>)
    requires After(n, ops).Some?
    ensures var (h, total) := After(n, ops).value; |h| == n && CacheOk(h, total)
    decreases |ops|
  {
    if ops == [] {
      BuiltOk(n);
    } else {
      ReachableOk(n, ops[..|ops| - 1]);
      var (h, total) := After(n, ops[..|ops| - 1]).value;
      match ops[|ops| - 1] {
        case Alloc(num) =>
          var fit := Fit(h, num, 0);
          if num >= 1 && fit.Some? {
            TakenOk(h, fit.value, num);
            TakenCounts(h, fit.value, num);
          }
        case Free(slot) =>
          FreedOk(h, slot);
          FreedCounts(h, slot);
      }
    }
  }

  /** Two histories that leave the same extents live leave the same table and the same total. */
  lemma HistoryDoesNotMatter(n: nat, ops1: seq<Op>, ops2: seq<Op>)
    requires After(n, ops1).Some? && After(n, ops2).Some?
    requires Live(After(n, ops1).value.0) == Live(After(n, ops2).value.0)
    ensures After(n, ops1) == After(n, ops2)
  {
    ReachableOk(n, ops1);
    ReachableOk(n, ops2);
    TableFromExtents(After(n, ops1).value.0, After(n, ops2).value.0);
  }

  /** Once everything is freed the cache is as it was built. */
  lemma AllFreedIsBuilt(n: nat, ops: seq<Op>)
    requires After(n, ops).Some? && Live(After(n, ops).value.0) == map[]
    ensures After(n, ops) == Some((Built(n), 0))
  {
    assert After(n, []) == Some((Built(n), 0));
    BuiltOk(n);
    HistoryDoesNotMatter(n, ops, []);
  }

  // ---------------------------------------------------------------------------------------------
  // The cache itself
  // ---------------------------------------------------------------------------------------------

  /** `alloc_raw` returns nullptr before the cache is built, throws cache_drain, or returns a block. */
  datatype AllocResult = Null | Drained | Block(offset: nat)

  /** `ptr` lies between the first samples of the first and of the last of n blocks. */
  predicate InBounds(ptr: int, size: nat, n: nat) { 0 <= ptr <= (n - 1) * size }

  /** The index of the block a pointer lies in. */
  function SlotOf(ptr: int, size: nat, n: nat): (i: nat)
    requires size > 0 && n > 0 && InBounds(ptr, size, n)
    ensures i < n
  {
    SlotInRange(ptr, size, n);
    ptr / size
  }

  lemma SlotInRange(ptr: int, size: nat, n: nat)
    requires size > 0 && n > 0 && 0 <= ptr <= (n - 1) * size
    ensures 0 <= ptr / size < n
  {
    QuotientBelow(ptr, size, n);
  }

  lemma QuotientBelow(ptr: int, size: nat, n: nat)
    requires size > 0 && 0 <= ptr < n * size
    ensures 0 <= ptr / size < n
  {
    var q := ptr / size;
    assert q * size <= ptr;
    assert (n - q) * size > 0;
  }

  lemma Scaled(a: int, b: int, size: int)
    requires size > 0 && a <= b
    ensures a * size <= b * size
  {
    assert (b - a) * size >= 0;
  }

  /** `free_raw` looks at every pointer into a block but the last, of which it only knows the first sample. */
  lemma InBoundsExactly(ptr: int, size: nat, n: nat)
    requires size > 0 && n > 0
    ensures InBounds(ptr, size, n) <==> ptr == (n - 1) * size || (ptr >= 0 && ptr / size < n - 1)
  {
    var q := ptr / size;
    LastBlock(ptr, q, ptr % size, size, n - 1);
    Scaled(0, n - 1, size);
  }

  lemma LastBlock(ptr: int, q: int, r: nat, size: nat, m: int)
    requires size > 0 && r < size && ptr == q * size + r
    ensures ptr <= m * size <==> ptr == m * size || q < m
  {
    if q < m { Scaled(q + 1, m, size); }
    if q > m { Scaled(m + 1, q, size); }
  }

  class Manager {
    const numBlocks: nat
    var handles: array<Handle>
    var built: bool            // m_raw_cache is not null
    var blockSize: nat
    var cacheSize: nat
    var total: int

    ghost predicate Valid()
      reads this, handles
    {
      if built then
        && numBlocks > 0 && handles.Length == numBlocks && CacheOk(handles[..], total)
        && cacheSize == blockSize * numBlocks
      else handles.Length == 0 && blockSize == 0 && cacheSize == 0 && total == 0
    }

    constructor (n: nat)
      ensures Valid() && !built && numBlocks == n && fresh(handles)
    {
      numBlocks := n;
      handles := new Handle[0];
      built, blockSize, cacheSize, total := false, 0, 0, 0;
    }

    /** A cache without blocks has no last handle to take the bound from. */
    method BuildCache(size: nat)
      requires Valid() && numBlocks > 0
      modifies this
      ensures Valid() && built
      ensures old(built) ==> handles == old(handles) && blockSize == old(blockSize) && total == old(total)
      ensures !old(built) ==> fresh(handles) && handles[..] == Built(numBlocks) && blockSize == size && total == 0
    {
      if built {
        return;
      }
      blockSize := size;
      built := true;
      cacheSize := size * numBlocks;
      var fresh_ := new Handle[numBlocks];
      var nblocks := numBlocks;
      for i := 0 to numBlocks
        modifies fresh_
        invariant nblocks == numBlocks - i
        invariant forall k: nat :: k < i ==> fresh_[k] == Handle(false, numBlocks - k)
      {
        fresh_[i] := Handle(false, nblocks);
        nblocks := nblocks - 1;
      }
      handles := fresh_;
      assert handles[..] == Built(numBlocks);
      BuiltOk(numBlocks);
    }

    method AllocRaw(num: nat) returns (r: AllocResult)
      requires Valid()
      modifies this, handles
      ensures Valid() && handles == old(handles) && built == old(built) && blockSize == old(blockSize)
      ensures r == if cacheSize == 0 then Null
                   else if num == 0 || Fit(old(handles[..]), num, 0).None? then Drained
                   else Block(Fit(old(handles[..]), num, 0).value * blockSize)
      ensures if r.Block? then
                var p := Fit(old(handles[..]), num, 0).value;
                handles[..] == Taken(old(handles[..]), p, num) && total == old(total) + num
              else handles[..] == old(handles[..]) && total == old(total)
    {
      if cacheSize == 0 {
        return Null;
      }
      r := Allocate(num);
    }

    method Allocate(num: nat) returns (r: AllocResult)
      requires Valid() && built
      modifies `total, handles
      ensures Valid() && !r.Null?
      ensures r.Block? <==> num >= 1 && Fit(old(handles[..]), num, 0).Some?
      ensures if r.Block? then
                var p := Fit(old(handles[..]), num, 0).value;
                r.offset == p * blockSize && handles[..] == Taken(old(handles[..]), p, num) && total == old(total) + num
              else handles[..] == old(handles[..]) && total == old(total)
    {
      ghost var h := handles[..];
      var found, at := MarkFirstFit(num);
      if !found {
        return Drained;
      }
      FitIsUnique(h, num, at);
      TakenOk(h, at, num);
      TakenCounts(h, at, num);
      total := total + num;
      r := Block(at * blockSize);
    }

    /** The loop of `allocate`: `toggle` stays at num until a fit is found and then counts the blocks
        still to be marked. */
    method MarkFirstFit(num: nat) returns (found: bool, at: nat)
      requires TableOk(handles[..])
      modifies handles
      ensures if found then num >= 1 && FirstFit(old(handles[..]), at, num) &&
        handles[..] == Taken(old(handles[..]), at, num)
              else handles[..] == old(handles[..]) && (num >= 1 ==> forall q: nat :: !FreeRun(old(handles[..]), q, num))
    {
      ghost var h := handles[..];
      var toggle: nat := num;
      found, at := false, 0;
      var i := 0;
      while i < handles.Length
        invariant i <= handles.Length == |h|
        invariant toggle <= num && found == (toggle < num)
        invariant !found ==> handles[..] == h && forall q: nat :: q < i ==> !FreeRun(h, q, num)
        invariant found ==> at < i && FirstFit(h, at, num) && (toggle > 0 ==> i == at + (num - toggle))
        invariant found ==> forall k: nat :: k < |h| ==>
          handles[k] == if at <= k < at + (num - toggle) then Handle(true, num - (k - at)) else h[k]
      {
        if toggle == 0 {
          break;
        }
        if toggle < num {
          handles[i] := Handle(true, toggle);
          toggle := toggle - 1;
        } else {
          RunAt(h, i, num);
          if !handles[i].inUse && handles[i].blocks >= num {
            found, at := true, i;
            handles[i] := Handle(true, num);
            toggle := toggle - 1;
          }
        }
        i := i + 1;
      }
    }

    /** The count in a slot decides whether num blocks fit there. */
    lemma RunAt(h: seq<Handle>, i: nat, num: nat)
      requires TableOk(h) && i < |h| && num >= 1
      ensures FreeRun(h, i, num) <==> !h[i].inUse && h[i].blocks >= num
    {
      if !h[i].inUse {
        FreeCountIsExact(h, i);
      }
    }

    /** A pointer outside the cache, or null, is ignored. For any other the handle table changes as
        `Freed` says, and the cache stays in order exactly when the pointer lies in the first block of a
        live extent. */
    method FreeRaw(ptr: Option<int>)
      requires Valid() && built && blockSize > 0
      modifies `total, handles
      ensures ptr.None? || !InBounds(ptr.value, blockSize, numBlocks) ==>
        Valid() && handles[..] == old(handles[..]) && total == old(total)
      ensures ptr.Some? && InBounds(ptr.value, blockSize, numBlocks) ==>
        var i := SlotOf(ptr.value, blockSize, numBlocks);
        && i + old(handles[i].blocks) <= numBlocks
        && handles[..] == Freed(old(handles[..]), i) && total == old(total) - old(handles[i].blocks)
        && (Valid() <==> Starts(old(handles[..]), i))
    {
      if ptr.Some? && InBounds(ptr.value, blockSize, numBlocks) {
        FreeSlot(SlotOf(ptr.value, blockSize, numBlocks));
      }
    }

    /** `free_raw` from the handle's index on. */
    method FreeSlot(index: nat)
      requires Valid() && built && index < numBlocks
      modifies `total, handles
      ensures index + old(handles[index].blocks) <= numBlocks
      ensures handles[..] == Freed(old(handles[..]), index) && total == old(total) - old(handles[index].blocks)
      ensures Valid() <==> Starts(old(handles[..]), index)
    {
      ghost var h := handles[..];
      CountsFit(h, index);
      var blocks := handles[index].blocks;
      var link := blocks;
      // the handle behind the last one, which the source reads here, does not exist
      if index + blocks < handles.Length && !handles[index + blocks].inUse {
        link := link + handles[index + blocks].blocks;
      }
      LinkDown(index, blocks, link);
      LinkUp(h, index, blocks, link);
      assert handles[..] == Freed(h, index);
      total := total - blocks;
      FreeNeedsStart(h, old(total), index);
    }

    /** The first loop of `free_raw`: the blocks of the extent become free slots of a run of `link`. */
    method LinkDown(index: nat, blocks: nat, link: nat)
      requires index + blocks <= handles.Length && blocks <= link
      modifies handles
      ensures forall k: nat :: k < handles.Length ==>
        handles[k] == if index <= k < index + blocks then Handle(false, index + link - k) else old(handles[k])
    {
      for i := 0 to blocks
        invariant forall k: nat :: k < handles.Length ==>
          handles[k] == if index <= k < index + i then Handle(false, index + link - k) else old(handles[k])
      {
        handles[index + i] := Handle(false, link - i);
      }
    }

    /** The second loop of `free_raw`: from the freed slot upwards, until a used slot, each free slot
        counts one more than the one behind it. */
    method LinkUp(ghost h: seq<Handle>, index: nat, blocks: nat, link: nat)
      requires |h| == handles.Length && blocks >= 1 && index + blocks <= |h| && blocks <= link
      requires forall k: nat :: k < |h| ==>
        handles[k] == if index <= k < index + blocks then Handle(false, index + link - k) else h[k]
      modifies handles
      ensures forall k: nat :: k < |h| ==>
        handles[k] == if FreeBefore(h, index) <= k < index + blocks then Handle(false, index + link - k) else h[k]
    {
      var count := link;
      var i: int := index;
      while i >= 0
        invariant -1 <= i <= index && count == index + link - i
        invariant forall k: nat :: k < |h| ==>
          handles[k] == if (i < k || index <= k) && k < index + blocks then Handle(false, index + link - k) else h[k]
        invariant forall k: nat :: i < k < index ==> !h[k].inUse
      {
        if handles[i].inUse {
          break;
        }
        handles[i] := Handle(handles[i].inUse, count);
        count := count + 1;
        i := i - 1;
      }
      FreeBeforeIs(h, index, i + 1);
    }
  }
}
