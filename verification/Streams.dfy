/** Whole streams: two channels through the circular buffer, and periods through the normaliser. */
module Streams {
  import opened Circular
  import opened NormalisedSizeBuffer
  import opened Seqs
  import opened Sound

  // ---------------------------------------------------------------------------------------------
  // Two channels through the circular buffer
  // ---------------------------------------------------------------------------------------------

  /** A block of frames goes in, or a number of frames comes out. */
  datatype Transfer<T> = In(left: seq<T>, right: seq<T>) | Out(frames: nat)

  /** Every block has as many left as right samples, no block overfills the buffer, and no more frames are
      taken than wait; `level` is the number of frames that wait. */
  predicate Fits<T>(ts: seq<Transfer<T>>, capacity: nat, level: nat) {
    ts == [] ||
    match ts[0]
    case In(l, r) => |l| == |r| && 2 * (level + |l|) <= capacity && Fits(ts[1..], capacity, level + |l|)
    case Out(n) => n <= level && Fits(ts[1..], capacity, level - n)
  }

  /** All the left samples that go in, in order, and all the right ones. */
  function Lefts<T>(ts: seq<Transfer<T>>): seq<T> {
    if ts == [] then [] else (if ts[0].In? then ts[0].left else []) + Lefts(ts[1..])
  }

  function Rights<T>(ts: seq<Transfer<T>>): seq<T> {
    if ts == [] then [] else (if ts[0].In? then ts[0].right else []) + Rights(ts[1..])
  }

  lemma Moved<T>(a: seq<T>, b: seq<T>, x: seq<T>, rest: seq<T>)
    ensures a + b + (x + rest) == a + (b + x) + rest
  {
  }

  lemma Taken<T>(a: seq<T>, b: seq<T>, n: nat)
    requires n <= |b|
    ensures a + b == (a + b[..n]) + b[n..]
  {
  }

  /** Popping frames from the front of interleaved channels pops the channels. */
  lemma PoppedFrames<T>(left: seq<T>, right: seq<T>, l: seq<T>, r: seq<T>, rest: seq<T>)
    requires |left| == |right| && |l| == |r| && |l| <= |left| && Interleaved(left, right) == Interleaved(l, r) + rest
    ensures l == left[..|l|] && r == right[..|l|] && rest == Interleaved(left[|l|..], right[|l|..])
  {
    var n := |l|;
    assert left == left[..n] + left[n..] && right == right[..n] + right[n..];
    InterleavedAppend(left[..n], right[..n], left[n..], right[n..]);
    var a := Interleaved(left[..n], right[..n]);
    assert a == Interleaved(left, right)[..2 * n] == Interleaved(l, r);
    assert rest == Interleaved(left, right)[2 * n..];
    ChannelsOfInterleaved(l, r);
    ChannelsOfInterleaved(left[..n], right[..n]);
  }

  /** Pushes a block of frames behind the frames l, r that wait. */
  method PushBlock<T(0)>(buffer: Circular<T>, left: seq<T>, right: seq<T>, ghost l: seq<T>, ghost r: seq<T>)
    requires buffer.Valid() && |left| == |right| && buffer.size + 2 * |left| <= buffer.capacity
    requires |l| == |r| && buffer.Contents() == Interleaved(l, r)
    modifies buffer, buffer.buffer
    ensures buffer.Valid() && buffer.Contents() == Interleaved(l + left, r + right)
  {
    var n := |left|;
    var block := new T[2 * n](i requires 0 <= i < 2 * |left| && |left| == |right| =>
      if i < |left| then left[i] else right[i - |left|]);
    assert block[..n] == left && block[n..2 * n] == right;
    var frames := new T[2 * n];
    var ok := Interleave2(block, frames, n);
    buffer.PushMany(frames, 2 * n);
    InterleavedAppend(l, r, left, right);
  }

  /** Pops n items into a fresh array. */
  method PopItems<T(0)>(buffer: Circular<T>, n: nat) returns (dest: array<T>)
    requires buffer.Valid() && n <= buffer.size
    modifies buffer
    ensures fresh(dest) && dest.Length == n && buffer.Valid() && old(buffer.Contents()) == dest[..] + buffer.Contents()
  {
    dest := new T[n];
    if buffer.size > 0 {
      buffer.PopMany(dest, n);
      assert dest[..n] == dest[..];
    } else {
      assert dest[..] + buffer.Contents() == buffer.Contents();
    }
  }

  /** Pops the first n of the frames l, r that wait. */
  method PopBlock<T(0)>(buffer: Circular<T>, n: nat, ghost l: seq<T>, ghost r: seq<T>)
    returns (left: seq<T>, right: seq<T>)
    requires buffer.Valid() && n <= |l| == |r| && buffer.Contents() == Interleaved(l, r)
    modifies buffer
    ensures left == l[..n] && right == r[..n]
    ensures buffer.Valid() && buffer.Contents() == Interleaved(l[n..], r[n..])
  {
    var frames := PopItems(buffer, 2 * n);
    left, right := Unpack(frames, n);
    PoppedFrames(l, r, left, right, buffer.Contents());
  }

  method Unpack<T(0)>(frames: array<T>, n: nat) returns (left: seq<T>, right: seq<T>)
    requires frames.Length == 2 * n
    ensures |left| == n && |right| == n && Interleaved(left, right) == frames[..]
  {
    var block := new T[2 * n];
    Deinterleave2(frames, block, n);
    left, right := block[..n], block[n..];
    InterleavedChannels(frames[..2 * n]);
    assert frames[..2 * n] == frames[..] && block[n..] == block[n..2 * n];
  }

  /** Whatever the sizes of the blocks, what comes out of each channel is what went in, in order, and the
      rest, l and r, is still in the buffer. */
  method Transmit<T(0)>(buffer: Circular<T>, ts: seq<Transfer<T>>)
    returns (left: seq<T>, right: seq<T>, ghost l: seq<T>, ghost r: seq<T>)
    requires buffer.Valid() && buffer.size == 0 && Fits(ts, buffer.capacity, 0)
    modifies buffer, buffer.buffer
    ensures left + l == Lefts(ts) && right + r == Rights(ts) && |left| == |right| && |l| == |r|
    ensures buffer.Valid() && buffer.Contents() == Interleaved(l, r)
  {
    left, right, l, r := [], [], [], [];
    for i := 0 to |ts|
      invariant buffer.Valid() && |l| == |r| && |left| == |right| && buffer.Contents() == Interleaved(l, r)
      invariant Fits(ts[i..], buffer.capacity, |l|)
      invariant Accounts(ts, i, left, right, l, r)
    {
      Unfold(ts, i, buffer.capacity, |l|);
      if ts[i].In? {
        var x, y := ts[i].left, ts[i].right;
        PushBlock(buffer, x, y, l, r);
        MovedIn(ts, i, left, right, l, r);
        l, r := l + x, r + y;
      } else {
        var n := ts[i].frames;
        var x, y := PopBlock(buffer, n, l, r);
        TakenOut(ts, i, left, right, l, r);
        left, right, l, r := left + x, right + y, l[n..], r[n..];
      }
    }
    NothingBehind(left + l);
    NothingBehind(right + r);
  }

  /** What has come out, what waits and what is still to go in make up all that goes in. */
  predicate Accounts<T(==)>(ts: seq<Transfer<T>>, i: nat, left: seq<T>, right: seq<T>, l: seq<T>, r: seq<T>)
    requires i <= |ts|
  {
    left + l + Lefts(ts[i..]) == Lefts(ts) && right + r + Rights(ts[i..]) == Rights(ts)
  }

  lemma MovedIn<T>(ts: seq<Transfer<T>>, i: nat, left: seq<T>, right: seq<T>, l: seq<T>, r: seq<T>)
    requires i < |ts| && ts[i].In? && Accounts(ts, i, left, right, l, r)
    ensures Accounts(ts, i + 1, left, right, l + ts[i].left, r + ts[i].right)
  {
    assert ts[i..][0] == ts[i] && ts[i..][1..] == ts[i + 1..];
    Moved(left, l, ts[i].left, Lefts(ts[i + 1..]));
    Moved(right, r, ts[i].right, Rights(ts[i + 1..]));
  }

  lemma TakenOut<T>(ts: seq<Transfer<T>>, i: nat, left: seq<T>, right: seq<T>, l: seq<T>, r: seq<T>)
    requires i < |ts| && ts[i].Out? && Accounts(ts, i, left, right, l, r) && ts[i].frames <= |l| && ts[i].frames <= |r|
    ensures var n := ts[i].frames; Accounts(ts, i + 1, left + l[..n], right + r[..n], l[n..], r[n..])
  {
    assert ts[i..][0] == ts[i] && ts[i..][1..] == ts[i + 1..];
    NothingInFront(Lefts(ts[i + 1..]));
    NothingInFront(Rights(ts[i + 1..]));
    Taken(left, l, ts[i].frames);
    Taken(right, r, ts[i].frames);
  }

  /** The i-th transfer, apart from those behind it. */
  lemma Unfold<T>(ts: seq<Transfer<T>>, i: nat, capacity: nat, level: nat)
    requires i < |ts| && Fits(ts[i..], capacity, level)
    ensures var rest := ts[i + 1..];
      match ts[i] {
        case In(l, r) => |l| == |r| && 2 * (level + |l|) <= capacity && Fits(rest, capacity, level + |l|)
        case Out(n) => n <= level && Fits(rest, capacity, level - n)
      }
  {
    assert ts[i..][0] == ts[i] && ts[i..][1..] == ts[i + 1..];
  }

  // ---------------------------------------------------------------------------------------------
  // Periods through the normaliser
  // ---------------------------------------------------------------------------------------------

  datatype Turn<T> = Supply(period: seq<T>) | Flush

  /** No period that is supplied meets a load that leaves it no room. */
  predicate Room<T>(turns: seq<Turn<T>>, period: nat, size: nat, load: nat) {
    turns == [] ||
    match turns[0]
    case Supply(p) => load + |p| <= size && Room(turns[1..], period, size, load + |p|)
    case Flush => Room(turns[1..], period, size, if load >= period then load - period else load)
  }

  function Supplies<T>(turns: seq<Turn<T>>): seq<T> {
    if turns == [] then [] else (if turns[0].Supply? then turns[0].period else []) + Supplies(turns[1..])
  }

  method SupplyPeriod<T(0)>(b: Normaliser<T>, p: seq<T>) returns (refused: bool)
    requires b.Valid() && b.load + |p| <= b.ring.Length
    modifies b, b.ring
    ensures b.Valid() && !refused && b.load == old(b.load) + |p| && b.Contents() == old(b.Contents()) + p
  {
    var source := new T[|p|](k requires 0 <= k < |p| => p[k]);
    assert source[..|p|] == p;
    var state := b.Supply(source, |p|);
    refused := state == OVERFLOW;
  }

  /** One period when one is waiting, otherwise none. */
  method FlushPeriod<T(0)>(b: Normaliser<T>) returns (p: seq<T>)
    requires b.Valid()
    modifies b
    ensures b.Valid() && old(b.Contents()) == p + b.Contents()
    ensures |p| == if old(b.load) >= b.period then b.period else 0
    ensures b.load == old(b.load) - |p|
  {
    var dest := new T[b.period];
    var due := b.state == DISPATCH;
    ghost var before := b.Contents();
    b.Flush(dest);
    p := if due then dest[..] else [];
    assert dest[..] == dest[..b.period] && |before| == |p| + |b.Contents()|;
  }

  /** What was flushed and what is still in the ring is what was waiting and what was supplied, in order;
      no supply is refused. */
  method Normalise<T(0)>(b: Normaliser<T>, turns: seq<Turn<T>>) returns (out: seq<T>, refused: bool)
    requires b.Valid() && Room(turns, b.period, b.ring.Length, b.load)
    modifies b, b.ring
    ensures b.Valid() && !refused && out + b.Contents() == old(b.Contents()) + Supplies(turns)
  {
    out, refused := [], false;
    ghost var all := b.Contents() + Supplies(turns);
    assert turns[0..] == turns && [] + b.Contents() == b.Contents();
    for i := 0 to |turns|
      invariant b.Valid() && !refused && Room(turns[i..], b.period, b.ring.Length, b.load)
      invariant out + b.Contents() + Supplies(turns[i..]) == all
    {
      assert turns[i..][0] == turns[i] && turns[i..][1..] == turns[i + 1..];
      ghost var waiting := b.Contents();
      if turns[i].Supply? {
        Moved(out, waiting, turns[i].period, Supplies(turns[i + 1..]));
        refused := SupplyPeriod(b, turns[i].period);
      } else {
        NothingInFront(Supplies(turns[i + 1..]));
        var p := FlushPeriod(b);
        Assoc(out, p, b.Contents());
        out := out + p;
      }
    }
    NothingBehind(out + b.Contents());
  }
}
