/** Windows into a ring: `count` elements from `start` on, going round at the end. */
module Ring {
  import opened Seqs

  function Wrap(i: nat, n: nat): (r: nat)
    requires i < 2 * n
    ensures r < n
  {
    if i < n then i else i - n
  }

  /** The index in a ring of n that is reached after i steps from index 0. */
  function Lap(i: nat, n: nat): (r: nat)
    requires n > 0
    ensures r < n && (i < 2 * n ==> r == Wrap(i, n))
  {
    if i < n then i else Lap(i - n, n)
  }

  lemma FarMultiple(n: int, d: int)
    requires n > 0 && d != 0
    ensures n * d <= -n || n <= n * d
  {
    if d > 0 {
      assert n * (d - 1) >= 0;
    } else {
      assert n * (-d - 1) >= 0;
    }
  }

  lemma ModIs(x: nat, n: nat, q: int, r: nat)
    requires n > 0 && r < n && x == n * q + r
    ensures x % n == r
  {
    var d := x / n - q;
    assert n * d == r - x % n;
    if d != 0 { FarMultiple(n, d); }
  }

  /** Laps are what the source computes with `%`. */
  lemma {:induction false} LapIsMod(i: nat, n: nat)
    requires n > 0
    ensures Lap(i, n) == i % n
    decreases i
  {
    if i < n {
      ModIs(i, n, 0, i);
    } else {
      LapIsMod(i - n, n);
      assert i == n * ((i - n) / n + 1) + (i - n) % n;
      ModIs(i, n, (i - n) / n + 1, (i - n) % n);
    }
  }

  /** One step on. */
  lemma {:induction false} LapNext(i: nat, n: nat)
    requires n > 0
    ensures Lap(Lap(i, n) + 1, n) == Lap(i + 1, n)
    decreases i
  {
    if i < n {
    } else {
      LapNext(i - n, n);
    }
  }

  function Window<T>(ring: seq<T>, start: nat, count: nat): (w: seq<T>)
    requires start < |ring| && count <= |ring|
    ensures |w| == count && forall i: nat :: i < count ==> w[i] == ring[Wrap(start + i, |ring|)]
  {
    seq(count, i requires 0 <= i < count => ring[Wrap(start + i, |ring|)])
  }

  /** Writing behind a window that does not fill the ring appends to it. */
  lemma Append<T>(ring: seq<T>, start: nat, count: nat, x: T)
    requires start < |ring| && count < |ring|
    ensures Window(ring[Wrap(start + count, |ring|) := x], start, count + 1) == Window(ring, start, count) + [x]
  {
    var r := ring[Wrap(start + count, |ring|) := x];
    forall i: nat | i < count ensures Window(r, start, count + 1)[i] == Window(ring, start, count)[i] {
    }
  }

  /** Reading the first element moves the start on. */
  lemma Advance<T>(ring: seq<T>, start: nat, count: nat)
    requires start < |ring| && 0 < count <= |ring|
    ensures Window(ring, start, count) == [ring[start]] + Window(ring, Wrap(start + 1, |ring|), count - 1)
  {
    var w, v := Window(ring, start, count), Window(ring, Wrap(start + 1, |ring|), count - 1);
    forall i: nat | 0 < i < count ensures w[i] == v[i - 1] {
      assert Wrap(Wrap(start + 1, |ring|) + (i - 1), |ring|) == Wrap(start + i, |ring|);
    }
  }

  /** Writing where a full window starts replaces its first element. */
  lemma Replace<T>(ring: seq<T>, start: nat, x: T)
    requires start < |ring|
    ensures Window(ring[start := x], start, |ring|) == [x] + Window(ring, start, |ring|)[1..]
  {
    var w, v := Window(ring, start, |ring|), Window(ring[start := x], start, |ring|);
    forall i: nat | 0 < i < |ring| ensures w[i] == v[i] {
      assert Wrap(start + i, |ring|) != start;
    }
  }

  /** A window splits where a number of elements are taken off its front. */
  lemma Split<T>(ring: seq<T>, start: nat, count: nat, n: nat)
    requires start < |ring| && n <= count <= |ring|
    ensures Window(ring, start, count) == Window(ring, start, n) + Window(ring, Wrap(start + n, |ring|), count - n)
  {
    var v := Window(ring, Wrap(start + n, |ring|), count - n);
    forall i: nat | n <= i < count ensures Window(ring, start, count)[i] == v[i - n] {
      assert Wrap(Wrap(start + n, |ring|) + (i - n), |ring|) == Wrap(start + i, |ring|);
    }
  }

  /** `count` elements from `start` on, going round as often as it takes. */
  function Read<T>(ring: seq<T>, start: nat, count: nat): (r: seq<T>)
    requires ring != []
    ensures |r| == count
  {
    if count == 0 then [] else Read(ring, start, count - 1) + [ring[Lap(start + (count - 1), |ring|)]]
  }

  lemma LapIsWrap(i: nat, n: nat)
    requires i < 2 * n
    ensures Lap(i, n) == Wrap(i, n)
  {
  }

  lemma WindowNext<T>(ring: seq<T>, start: nat, count: nat)
    requires start < |ring| && count < |ring|
    ensures Window(ring, start, count + 1) == Window(ring, start, count) + [ring[Wrap(start + count, |ring|)]]
  {
  }

  /** As long as it does not go round, that is a window. */
  lemma {:induction false} ReadIsWindow<T>(ring: seq<T>, start: nat, count: nat)
    requires start < |ring| && count <= |ring|
    ensures Read(ring, start, count) == Window(ring, start, count)
    decreases count
  {
    if count == 0 {
    } else {
      var n := count - 1;
      ReadIsWindow(ring, start, n);
      ReadNext(ring, start, n);
      WindowNext(ring, start, n);
      LapIsWrap(start + n, |ring|);
    }
  }

  lemma ReadNext<T>(ring: seq<T>, start: nat, count: nat)
    requires ring != []
    ensures Read(ring, start, count + 1) == Read(ring, start, count) + [ring[Lap(start + count, |ring|)]]
  {
  }

  /** Reading gives the elements that are reached one after the other. */
  lemma {:induction false} ReadIs<T>(ring: seq<T>, start: nat, s: seq<T>)
    requires ring != [] && forall k: nat :: k < |s| ==> s[k] == ring[Lap(start + k, |ring|)]
    ensures s == Read(ring, start, |s|)
    decreases |s|
  {
    if s == [] {
    } else {
      var n := |s| - 1;
      ReadIs(ring, start, s[..n]);
      ReadNext(ring, start, n);
      assert s == s[..n] + [s[n]];
    }
  }

  /** What is read off the front of a window and what stays make up the window. */
  lemma ReadSplits<T>(ring: seq<T>, start: nat, count: nat, n: nat)
    requires start < |ring| && n <= count <= |ring|
    ensures Window(ring, start, count) == Read(ring, start, n) + Window(ring, Lap(start + n, |ring|), count - n)
  {
    LapIsWrap(start + n, |ring|);
    ReadIsWindow(ring, start, n);
    Split(ring, start, count, n);
  }

  /** A ring after items have been written from index `end` on, going round as often as it takes. */
  function Written<T>(ring: seq<T>, end: nat, items: seq<T>): (r: seq<T>)
    requires ring != []
    ensures |r| == |ring|
    decreases |items|
  {
    if items == [] then ring
    else Written(ring, end, items[..|items| - 1])[Lap(end + (|items| - 1), |ring|) := items[|items| - 1]]
  }

  /** One item more. */
  lemma WrittenNext<T>(ring: seq<T>, end: nat, items: seq<T>, x: T)
    requires ring != []
    ensures Written(ring, end, items + [x]) == Written(ring, end, items)[Lap(end + |items|, |ring|) := x]
  {
    assert (items + [x])[..|items|] == items;
  }

  lemma AppendsAt<T>(ring: seq<T>, start: nat, count: nat, end: nat, x: T)
    requires start < |ring| && count < |ring| && end == Lap(start + count, |ring|)
    ensures Window(ring[end := x], start, count + 1) == Window(ring, start, count) + [x]
  {
    Append(ring, start, count, x);
  }

  /** As long as there is room, what is written behind a window appends to it. */
  lemma {:induction false} WrittenAppends<T>(ring: seq<T>, start: nat, count: nat, items: seq<T>)
    requires start < |ring| && count + |items| <= |ring|
    ensures Window(Written(ring, Lap(start + count, |ring|), items), start, count + |items|) ==
      Window(ring, start, count) + items
    decreases |items|
  {
    if items == [] {
      assert Window(ring, start, count) + items == Window(ring, start, count);
    } else {
      var n, end := |items| - 1, Lap(start + count, |ring|);
      var before := Written(ring, end, items[..n]);
      WrittenAppends(ring, start, count, items[..n]);
      LapPlus(start + count, n, |ring|);
      WrittenNext(ring, end, items[..n], items[n]);
      AppendsAt(before, start, count + n, Lap(end + n, |ring|), items[n]);
      Assoc(Window(ring, start, count), items[..n], [items[n]]);
      assert items == items[..n] + [items[n]];
    }
  }

  lemma {:induction false} LapPlus(i: nat, k: nat, n: nat)
    requires n > 0
    ensures Lap(Lap(i, n) + k, n) == Lap(i + k, n)
    decreases i
  {
    if i < n {
    } else {
      LapPlus(i - n, k, n);
    }
  }
}
