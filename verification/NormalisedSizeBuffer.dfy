/** Variable-sized periods in, periods of a fixed size out, over a ring. */
module NormalisedSizeBuffer {
  import opened Ring

  datatype BufferState = PARTIAL | DISPATCH | OVERFLOW

  /** Where the write cursor and the load stand to each other: `write` is `load` elements on from `read`. */
  predicate Cursors(size: nat, read: nat, write: nat, load: nat) {
    read < size && write < size && load <= size && write == Wrap(read + load, size)
  }

  /** The test that `supply` makes before it copies. */
  predicate Refuses(read: nat, write: nat, n: nat) { write < read && write + n > read }

  /** The test finds that there is no room exactly when the write cursor is behind the read cursor. */
  lemma RefusedExactlyWhenBehind(size: nat, read: nat, write: nat, load: nat, n: nat)
    requires Cursors(size, read, write, load)
    ensures Refuses(read, write, n) <==> write < read && load + n > size
  {
  }

  /** A ring after `supply` has copied `p` in: up to the end of the ring from index `at` on, and the rest,
      which may be longer than what is in front of `at`, from the beginning. */
  function Put<T>(ring: seq<T>, at: nat, p: seq<T>): (r: seq<T>)
    requires at <= |ring| && at + |p| <= 2 * |ring|
    ensures |r| == |ring| && forall k: nat :: k < |ring| ==> r[k] == PutAt(ring, at, p, k)
  {
    seq(|ring|, k requires 0 <= k < |ring| => PutAt(ring, at, p, k))
  }

  function PutAt<T>(ring: seq<T>, at: nat, p: seq<T>, k: nat): T
    requires at <= |ring| && at + |p| <= 2 * |ring| && k < |ring|
  {
    if k + |ring| < at + |p| then p[|ring| - at + k] else if at <= k < at + |p| then p[k - at] else ring[k]
  }

  /** Where the write cursor is then. */
  function Moved(at: nat, n: nat, size: nat): nat
    requires at <= size
  {
    if at + n >= size then at + n - size else at + n
  }

  /** What is put behind a window appends to it when there is room. */
  lemma Supplied<T>(ring: seq<T>, read: nat, write: nat, load: nat, p: seq<T>)
    requires Cursors(|ring|, read, write, load) && load + |p| <= |ring|
    ensures Window(Put(ring, write, p), read, load + |p|) == Window(ring, read, load) + p
    ensures Cursors(|ring|, read, Moved(write, |p|, |ring|), load + |p|)
  {
    var n, w := |ring|, Window(Put(ring, write, p), read, load + |p|);
    forall i: nat | i < load + |p| ensures w[i] == if i < load then Window(ring, read, load)[i] else p[i - load] {
    }
  }

  /** Without room, and when the test does not refuse, the oldest samples are replaced, exactly as many as
      there is no room for. */
  lemma OldestAreReplaced<T>(ring: seq<T>, read: nat, write: nat, load: nat, p: seq<T>)
    requires Cursors(|ring|, read, write, load) && |p| <= |ring| < load + |p| && !Refuses(read, write, |p|)
    ensures var lost := load + |p| - |ring|;
      lost <= load && Window(Put(ring, write, p), read, load) == p[|ring| - load..] + Window(ring, read, load)[lost..]
  {
    var n, lost := |ring|, load + |p| - |ring|;
    var w, v := Window(Put(ring, write, p), read, load), Window(ring, read, load);
    forall i: nat | i < load ensures w[i] == if i < lost then p[n - load + i] else v[i] {
    }
  }

  class Normaliser<T(0)> {
    const period: nat          // nSize
    const ring: array<T>       // remainder
    var write: nat
    var read: nat
    var load: nat
    var state: BufferState

    /** The cursors lie inside the ring; the write cursor may stand at its end. */
    ghost predicate InRing()
      reads this
    {
      0 < period <= ring.Length && read < ring.Length && write <= ring.Length
    }

    ghost predicate Valid()
      reads this
    {
      InRing() && Cursors(ring.Length, read, write, load) && state == if load >= period then DISPATCH else PARTIAL
    }

    ghost function Contents(): seq<T>
      requires Valid()
      reads this, ring
    {
      Window(ring[..], read, load)
    }

    constructor (normal: nat, overflow: nat)
      requires normal > 0
      ensures Valid() && period == normal && ring.Length == normal + overflow && Contents() == [] && fresh(ring)
      ensures read == 0 && write == 0 && load == 0
    {
      period := normal;
      ring := new T[normal + overflow];
      write, read, load := 0, 0, 0;
      state := PARTIAL;
    }

    /** `std::copy` into the ring. */
    method CopyIn(source: array<T>, from: nat, at: nat, n: nat)
      requires from + n <= source.Length && at + n <= ring.Length && source != ring
      modifies ring
      ensures forall k: nat :: k < ring.Length ==>
        ring[k] == if at <= k < at + n then source[from + (k - at)] else old(ring[k])
    {
      for i := 0 to n
        invariant forall k: nat :: k < ring.Length ==>
          ring[k] == if at <= k < at + i then source[from + (k - at)] else old(ring[k])
      {
        ring[at + i] := source[from + i];
      }
    }

    /** `std::copy` out of the ring. */
    method CopyOut(from: nat, dest: array<T>, at: nat, n: nat)
      requires from + n <= ring.Length && at + n <= dest.Length && dest != ring
      modifies dest
      ensures forall k: nat :: k < dest.Length ==>
        dest[k] == if at <= k < at + n then ring[from + (k - at)] else old(dest[k])
    {
      for i := 0 to n
        invariant forall k: nat :: k < dest.Length ==>
          dest[k] == if at <= k < at + i then ring[from + (k - at)] else old(dest[k])
      {
        dest[at + i] := ring[from + i];
      }
    }

    /** The two copies of `supply`, and the write cursor behind them. */
    method PutIn(source: array<T>, n: nat)
      requires n <= source.Length && source != ring && write <= ring.Length && write + n <= 2 * ring.Length
      modifies `write, ring
      ensures ring[..] == Put(old(ring[..]), old(write), source[..n]) && write == Moved(old(write), n, ring.Length)
    {
      var delta := n;
      var from := 0;
      if write + n >= ring.Length {
        delta := ring.Length - write;
        CopyIn(source, 0, write, delta);
        write := 0;
        from := delta;
        delta := n - delta;
      }
      CopyIn(source, from, write, delta);
      write := write + delta;
    }

    /** The period is refused, and nothing changes, exactly when the test finds no room. If there is room
        it is never refused and goes behind what is waiting. The caller answers for the second copy not
        leaving the ring. */
    method Supply(source: array<T>, n: nat) returns (r: BufferState)
      requires InRing() && n <= source.Length && source != ring
      requires Refuses(read, write, n) || write + n <= 2 * ring.Length
      modifies `write, `load, `state, ring
      ensures InRing() && (r.OVERFLOW? <==> Refuses(read, old(write), n))
      ensures if r.OVERFLOW? then
                ring[..] == old(ring[..]) && write == old(write) && load == old(load) && state == old(state)
              else
                && r == state && state == (if load >= period then DISPATCH else PARTIAL) && load == old(load) + n
                && ring[..] == Put(old(ring[..]), old(write), source[..n]) && write == Moved(old(write), n, ring.Length)
      ensures old(Valid()) && old(load) + n <= ring.Length ==>
        !r.OVERFLOW? && Valid() && Contents() == old(Contents()) + source[..n]
    {
      if write < read && write + n > read {
        return OVERFLOW;
      }
      ghost var before, w := ring[..], write;
      PutIn(source, n);
      if Cursors(ring.Length, read, w, load) && load + n <= ring.Length {
        Supplied(before, read, w, load, source[..n]);
      }
      load := load + n;
      state := if load >= period then DISPATCH else PARTIAL;
      r := state;
    }

    /** The two copies of `flush`, and the read cursor behind them. */
    method TakeOut(dest: array<T>)
      requires period <= ring.Length && period <= dest.Length && dest != ring && read < ring.Length
      modifies `read, dest
      ensures dest[..period] == Window(ring[..], old(read), period) && dest[period..] == old(dest[period..])
      ensures read == Wrap(old(read) + period, ring.Length)
    {
      var delta := period;
      var at := 0;
      if read + period >= ring.Length {
        delta := ring.Length - read;
        CopyOut(read, dest, 0, delta);
        read := 0;
        at := delta;
        delta := period - delta;
      }
      CopyOut(read, dest, at, delta);
      read := read + delta;
    }

    /** A whole period is taken out when one is waiting; otherwise nothing happens. */
    method Flush(dest: array<T>)
      requires InRing() && period <= dest.Length && dest != ring
      modifies `read, `load, `state, dest
      ensures InRing()
      ensures if old(state) == PARTIAL || old(load) < period then
                dest[..] == old(dest[..]) && read == old(read) && load == old(load) && state == old(state)
              else
                && dest[..period] == Window(ring[..], old(read), period) && dest[period..] == old(dest[period..])
                && read == Wrap(old(read) + period, ring.Length) && load == old(load) - period
                && state == if load >= period then DISPATCH else PARTIAL
      ensures old(Valid()) ==>
        Valid() && old(Contents()) == (if old(load) >= period then dest[..period] else []) + Contents()
    {
      if state == PARTIAL || load < period {
        assert Valid() ==> [] + Contents() == Contents();
        return;
      }
      if load <= ring.Length { Split(ring[..], read, load, period); }
      TakeOut(dest);
      load := load - period;
      state := if load >= period then DISPATCH else PARTIAL;
    }
  }

  /** What is in a ring of four after three samples and two more. */
  lemma FiveInFour(ring: seq<int>)
    requires |ring| == 4
    ensures Put(Put(ring, 0, [1, 2, 3]), 3, [4, 5]) == [5, 2, 3, 4]
  {
    var r := Put(ring, 0, [1, 2, 3]);
    assert r[0] == 1 && r[1] == 2 && r[2] == 3;
    var t := Put(r, 3, [4, 5]);
    assert t[0] == 5 && t[1] == 2 && t[2] == 3 && t[3] == 4;
  }

  /** A ring of four, three samples waiting, and two more, which are not refused: the first period that is
      flushed holds the newest sample instead of the oldest. */
  method LosesTheOldest() returns (refused: bool, first: seq<int>)
    ensures !refused && first == [5, 2]
  {
    var b := new Normaliser<int>(2, 2);
    var three, two, out := new int[][1, 2, 3], new int[][4, 5], new int[2];
    FiveInFour(b.ring[..]);
    assert three[..3] == [1, 2, 3] && two[..2] == [4, 5];
    var r := b.Supply(three, 3);
    r := b.Supply(two, 2);
    assert b.ring[..] == [5, 2, 3, 4];
    refused := r == OVERFLOW;
    b.Flush(out);
    first := out[..];
    assert first == out[..2] == Window([5, 2, 3, 4], 0, 2);
  }
}
