/** The circular buffer. */
module Circular {
  import opened Ring

  /** The number of values of a 64-bit `size_t`. */
  const SIZES: nat := 0x1_0000_0000_0000_0000

  /** The number of values of the 32-bit cursors. */
  const CURSORS: nat := 0x1_0000_0000

  class Circular<T(0)> {
    const capacity: nat
    const buffer: array<T>
    var start: nat
    var end: nat
    var size: nat

    /** The cursors lie inside the ring. */
    ghost predicate InRing()
      reads this
    {
      0 < capacity <= CURSORS && buffer.Length == capacity && start < capacity && end < capacity && size < SIZES
    }

    ghost predicate Valid()
      reads this
    {
      InRing() && size <= capacity && end == Lap(start + size, capacity)
    }

    /** The items, oldest first. */
    ghost function Contents(): seq<T>
      requires InRing() && size <= capacity
      reads this, buffer
    {
      Window(buffer[..], start, size)
    }

    constructor (n: nat)
      requires 0 < n <= CURSORS
      ensures Valid() && capacity == n && Contents() == [] && fresh(buffer)
    {
      capacity := n;
      buffer := new T[n];
      start, end, size := 0, 0, 0;
    }

    method Increment() returns (n: nat)
      requires InRing()
      modifies `end, `size
      ensures InRing() && n == old(end) && end == Lap(old(end) + 1, capacity)
      ensures old(size) <= capacity ==> size == if old(size) < capacity then old(size) + 1 else capacity
    {
      n := end;
      end := end + 1;
      LapIsMod(end, capacity);
      end := end % capacity;
      size := (size + 1) % SIZES;
      if size > capacity {
        size := capacity;
      }
    }

    /** The size is unsigned and wraps round below zero. */
    method Decrement() returns (n: nat)
      requires InRing()
      modifies `start, `size
      ensures InRing() && n == old(start) && start == Lap(old(start) + 1, capacity)
      ensures size == if old(size) > 0 then old(size) - 1 else SIZES - 1
    {
      n := start;
      start := start + 1;
      LapIsMod(start, capacity);
      start := start % capacity;
      size := (size + (SIZES - 1)) % SIZES;
    }

    method Put(item: T)
      requires InRing() && size <= capacity
      modifies `end, `size, buffer
      ensures InRing() && buffer[..] == old(buffer[..])[old(end) := item] && end == Lap(old(end) + 1, capacity)
      ensures size == Least(old(size) + 1, capacity)
    {
      var n := Increment();
      buffer[n] := item;
    }

    /** The item goes to the end. In a full buffer it takes the place of the oldest item, at the front:
        the start does not move on. */
    method PushBack(item: T)
      requires InRing() && size <= capacity
      modifies `end, `size, buffer
      ensures InRing() && buffer[..] == old(buffer[..])[old(end) := item] && end == Lap(old(end) + 1, capacity)
      ensures size == if old(size) < capacity then old(size) + 1 else capacity
      ensures old(Valid()) && old(size) < capacity ==> Valid() && Contents() == old(Contents()) + [item]
      ensures old(Valid()) && old(size) == capacity ==> Contents() == [item] + old(Contents())[1..]
    {
      ghost var ring, valid := buffer[..], Valid();
      Put(item);
      if valid { Pushed(ring, start, old(size), old(end), item); }
    }

    /** Any number of items; more than fit go round and overwrite. */
    method PushMany(items: array<T>, count: nat)
      requires InRing() && size <= capacity && count <= items.Length && items != buffer
      modifies `end, `size, buffer
      ensures InRing() && buffer[..] == Written(old(buffer[..]), old(end), items[..count])
      ensures end == Lap(old(end) + count, capacity) && size == Least(old(size) + count, capacity)
      ensures old(Valid()) && old(size) + count <= capacity ==>
        Valid() && Contents() == old(Contents()) + items[..count]
    {
      ghost var valid, ring, was := Valid(), buffer[..], size;
      WriteMany(items, count);
      if valid && was + count <= capacity {
        WrittenAppends(ring, start, was, items[..count]);
        LapPlus(start + was, count, capacity);
      }
    }

    /** The loop of `push_many`. */
    method WriteMany(items: array<T>, count: nat)
      requires InRing() && size <= capacity && count <= items.Length && items != buffer
      modifies `end, `size, buffer
      ensures InRing() && buffer[..] == Written(old(buffer[..]), old(end), items[..count])
      ensures end == Lap(old(end) + count, capacity) && size == Least(old(size) + count, capacity)
    {
      ghost var ring, e, was, all := buffer[..], end, size, items[..count];
      for i := 0 to count
        invariant InRing() && items[..count] == all && SoFar(ring, e, was, all[..i], buffer[..], end, size)
      {
        assert items[i] == all[i] && all[..i + 1] == all[..i] + [all[i]];
        ghost var before, at, n := buffer[..], end, size;
        Put(items[i]);
        OneMore(ring, e, was, all[..i], before, at, n, all[i], buffer[..], end, size);
      }
      assert all[..count] == all;
    }

    /** An empty buffer stays empty. */
    method PopFront()
      requires InRing()
      modifies `start, `size
      ensures InRing()
      ensures if old(size) == 0 then start == old(start) && size == 0
              else start == Lap(old(start) + 1, capacity) && size == old(size) - 1
      ensures old(Valid()) ==> Valid() && Contents() == if old(size) == 0 then [] else old(Contents())[1..]
    {
      if size == 0 {
        return;
      }
      if Valid() {
        Advance(buffer[..], start, size);
        Popped(capacity, start, size, 1);
      }
      var _ := Decrement();
    }

    /** From an empty buffer nothing is popped, whatever the count. Beyond the size, what comes out is
        whatever the ring holds there, and the size wraps round. */
    method PopMany(dest: array<T>, count: nat)
      requires InRing() && dest != buffer && (size > 0 ==> count <= dest.Length)
      modifies `start, `size, dest
      ensures InRing()
      ensures if old(size) == 0 then start == old(start) && size == 0 && dest[..] == old(dest[..])
              else
                && dest[..count] == Read(buffer[..], old(start), count) && dest[count..] == old(dest[count..])
                && start == Lap(old(start) + count, capacity) && size == (old(size) - count) % SIZES
      ensures old(Valid()) && 0 < old(size) && count <= old(size) ==>
        Valid() && old(Contents()) == dest[..count] + Contents()
      ensures old(Valid()) && old(size) == 0 ==> Valid() && Contents() == []
    {
      if size == 0 {
        return;
      }
      ghost var valid, first, was := Valid(), start, size;
      ReadMany(dest, count);
      LoweredIsMod(was, count);
      if valid && count <= was {
        PopsFront(buffer[..], first, was, end, count);
      }
    }

    method Get() returns (item: T)
      requires InRing()
      modifies `start, `size
      ensures InRing() && item == buffer[..][old(start)] && start == Lap(old(start) + 1, capacity)
      ensures size == if old(size) > 0 then old(size) - 1 else SIZES - 1
    {
      var n := Decrement();
      item := buffer[n];
    }

    /** The loop of `pop_many`. */
    method ReadMany(dest: array<T>, count: nat)
      requires InRing() && dest != buffer && count <= dest.Length
      modifies `start, `size, dest
      ensures InRing() && start == Lap(old(start) + count, capacity) && size == Lowered(old(size), count)
      ensures dest[..count] == Read(buffer[..], old(start), count) && dest[count..] == old(dest[count..])
    {
      ghost var ring, first, rest := buffer[..], start, dest[count..];
      for i := 0 to count
        invariant InRing() && buffer[..] == ring && start == Lap(first + i, capacity) && size == Lowered(old(size), i)
        invariant dest[count..] == rest && forall k: nat :: k < i ==> dest[k] == ring[Lap(first + k, capacity)]
      {
        LapNext(first + i, capacity);
        var item := Get();
        dest[i] := item;
      }
      ReadIs(ring, first, dest[..count]);
    }
  }

  /** A size taken down a number of times, going round below zero. */
  function Lowered(size: nat, n: nat): nat {
    if n == 0 then size
    else if Lowered(size, n - 1) > 0 then Lowered(size, n - 1) - 1
    else SIZES - 1
  }

  lemma {:induction false} LoweredIsMod(size: nat, n: nat)
    requires size < SIZES
    ensures Lowered(size, n) == (size - n) % SIZES
  {
    if n == 0 {
    } else {
      LoweredIsMod(size, n - 1);
    }
  }

  /** As long as they do not run out, reading items takes them off the front. */
  lemma PopsFront<T>(ring: seq<T>, start: nat, size: nat, end: nat, count: nat)
    requires start < |ring| && count <= size <= |ring| && size < SIZES && end == Lap(start + size, |ring|)
    ensures (size - count) % SIZES == size - count
    ensures end == Lap(Lap(start + count, |ring|) + (size - count), |ring|)
    ensures Window(ring, start, size) ==
      Read(ring, start, count) + Window(ring, Lap(start + count, |ring|), size - count)
  {
    ReadSplits(ring, start, size, count);
    Popped(|ring|, start, size, count);
  }

  /** What pushing `items` one by one has made of the ring, the end and the size. */
  ghost predicate SoFar<T>(ring: seq<T>, e: nat, was: nat, items: seq<T>, now: seq<T>, end: nat, size: nat) {
    && ring != [] && now == Written(ring, e, items)
    && end == Lap(e + |items|, |ring|) && size == Least(was + |items|, |ring|)
  }

  lemma OneMore<T>(ring: seq<T>, e: nat, was: nat, items: seq<T>, now: seq<T>, end: nat, size: nat, item: T,
                   now': seq<T>, end': nat, size': nat)
    requires SoFar(ring, e, was, items, now, end, size)
    requires now' == now[end := item] && end' == Lap(end + 1, |ring|) && size' == Least(size + 1, |ring|)
    ensures SoFar(ring, e, was, items + [item], now', end', size')
  {
    LapNext(e + |items|, |ring|);
    WrittenNext(ring, e, items, item);
  }

  function Least(a: nat, b: nat): nat { if a < b then a else b }

  /** Where the end stays when items are taken off the front. */
  lemma Popped(capacity: nat, start: nat, size: nat, n: nat)
    requires start < capacity && n <= size <= capacity
    ensures Lap(Wrap(start + n, capacity) + (size - n), capacity) == Lap(start + size, capacity)
  {
  }

  /** What a push does to a window that ends where it writes. */
  lemma Pushed<T>(ring: seq<T>, start: nat, size: nat, end: nat, item: T)
    requires start < |ring| && size <= |ring| && end == Lap(start + size, |ring|)
    ensures size < |ring| ==>
      && Window(ring[end := item], start, size + 1) == Window(ring, start, size) + [item]
      && Lap(end + 1, |ring|) == Lap(start + (size + 1), |ring|)
    ensures size == |ring| ==> Window(ring[end := item], start, size) == [item] + Window(ring, start, size)[1..]
  {
    if size < |ring| {
      Append(ring, start, size, item);
      LapNext(start + size, |ring|);
    } else {
      Replace(ring, start, item);
    }
  }
}
