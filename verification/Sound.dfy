/** Interleaving and deinterleaving two channels. */
module Sound {
  /** Frame by frame: left, right, left, right. */
  function Interleaved<T>(left: seq<T>, right: seq<T>): (s: seq<T>)
    requires |left| == |right|
    ensures |s| == 2 * |left|
  {
    if left == [] then []
    else Interleaved(left[..|left| - 1], right[..|left| - 1]) + [left[|left| - 1], right[|left| - 1]]
  }

  /** Where each sample of a frame is. */
  lemma {:induction false} FrameAt<T>(left: seq<T>, right: seq<T>, i: nat)
    requires |left| == |right| && i < |left|
    ensures Interleaved(left, right)[2 * i] == left[i] && Interleaved(left, right)[2 * i + 1] == right[i]
    decreases |left|
  {
    if i == |left| - 1 {
    } else {
      FrameAt(left[..|left| - 1], right[..|left| - 1], i);
    }
  }

  /** Every second sample from the `c`-th on. */
  function Channel<T>(s: seq<T>, c: nat): (r: seq<T>)
    requires |s| % 2 == 0 && c < 2
    ensures |r| == |s| / 2 && forall i: nat :: i < |r| ==> r[i] == s[2 * i + c]
  {
    seq(|s| / 2, i requires 0 <= i < |s| / 2 => s[2 * i + c])
  }

  /** Deinterleaving undoes interleaving. */
  lemma ChannelsOfInterleaved<T>(left: seq<T>, right: seq<T>)
    requires |left| == |right|
    ensures Channel(Interleaved(left, right), 0) == left && Channel(Interleaved(left, right), 1) == right
  {
    forall i: nat | i < |left|
      ensures Interleaved(left, right)[2 * i] == left[i] && Interleaved(left, right)[2 * i + 1] == right[i]
    {
      FrameAt(left, right, i);
    }
  }

  /** Interleaving undoes deinterleaving. */
  lemma InterleavedChannels<T>(s: seq<T>)
    requires |s| % 2 == 0
    ensures Interleaved(Channel(s, 0), Channel(s, 1)) == s
  {
    var r := Interleaved(Channel(s, 0), Channel(s, 1));
    forall k: nat | k < |s| ensures r[k] == s[k] {
      FrameAt(Channel(s, 0), Channel(s, 1), k / 2);
    }
  }

  /** The frame that is written next. */
  lemma NextFrame<T>(left: seq<T>, right: seq<T>, n: nat, done: seq<T>, now: seq<T>)
    requires n < |left| == |right| && done == Interleaved(left[..n], right[..n]) && now == done + [left[n], right[n]]
    ensures now == Interleaved(left[..n + 1], right[..n + 1])
  {
    OneFrameMore(left[..n], right[..n], left[n], right[n]);
    assert left[..n + 1] == left[..n] + [left[n]] && right[..n + 1] == right[..n] + [right[n]];
  }

  lemma OneFrameMore<T>(left: seq<T>, right: seq<T>, x: T, y: T)
    requires |left| == |right|
    ensures Interleaved(left + [x], right + [y]) == Interleaved(left, right) + [x, y]
  {
    assert (left + [x])[..|left|] == left && (right + [y])[..|left|] == right;
  }

  /** Blocks of frames interleave one behind the other. */
  lemma {:induction false} InterleavedAppend<T>(l1: seq<T>, r1: seq<T>, l2: seq<T>, r2: seq<T>)
    requires |l1| == |r1| && |l2| == |r2|
    ensures Interleaved(l1 + l2, r1 + r2) == Interleaved(l1, r1) + Interleaved(l2, r2)
    decreases |l2|
  {
    if l2 == [] {
      assert l1 + l2 == l1 && r1 + r2 == r1;
    } else {
      var n := |l2| - 1;
      InterleavedAppend(l1, r1, l2[..n], r2[..n]);
      OneFrameMore(l1 + l2[..n], r1 + r2[..n], l2[n], r2[n]);
      assert l1 + l2 == l1 + l2[..n] + [l2[n]] && r1 + r2 == r1 + r2[..n] + [r2[n]];
    }
  }

  /** `input` holds the left channel and behind it the right one. The pointers may be null, which throws. */
  method Interleave2<T>(input: array?<T>, out: array?<T>, frames: nat) returns (ok: bool)
    requires input != null ==> 2 * frames <= input.Length && input != out
    requires out != null ==> 2 * frames <= out.Length
    modifies out
    ensures ok <==> input != null && out != null
    ensures ok ==> out[..2 * frames] == Interleaved(input[..frames], input[frames..2 * frames])
    ensures ok ==> out[2 * frames..] == old(out[2 * frames..])
  {
    if input == null || out == null {
      return false;
    }
    ghost var left, right := input[..frames], input[frames..2 * frames];
    var blockIndex := 0;
    for sample := 0 to frames
      invariant blockIndex == 2 * sample && input[..] == old(input[..])
      invariant out[..blockIndex] == Interleaved(left[..sample], right[..sample])
      invariant out[2 * frames..] == old(out[2 * frames..])
    {
      ghost var done := out[..blockIndex];
      out[blockIndex] := input[sample];
      blockIndex := blockIndex + 1;
      out[blockIndex] := input[frames + sample];
      blockIndex := blockIndex + 1;
      assert out[..blockIndex] == done + [left[sample], right[sample]];
      NextFrame(left, right, sample, done, out[..blockIndex]);
    }
    assert left[..frames] == left && right[..frames] == right;
    ok := true;
  }

  /** One frame of it: the inner loop over the two channels. */
  method DeinterleaveFrame<T>(input: array<T>, out: array<T>, frames: nat, sample: nat, index: nat)
    returns (blockIndex: nat)
    requires 2 * frames <= input.Length && 2 * frames <= out.Length && input != out
    requires sample < frames && index == 2 * sample
    modifies out
    ensures blockIndex == index + 2
    ensures out[sample] == input[2 * sample] && out[frames + sample] == input[2 * sample + 1]
    ensures forall k: nat :: k < out.Length && k != sample && k != frames + sample ==> out[k] == old(out[k])
  {
    blockIndex := index;
    for channel := 0 to 2
      invariant blockIndex == 2 * sample + channel
      invariant channel > 0 ==> out[sample] == input[2 * sample]
      invariant channel > 1 ==> out[frames + sample] == input[2 * sample + 1]
      invariant forall k: nat :: k < out.Length && k != sample && k != frames + sample ==> out[k] == old(out[k])
    {
      out[frames * channel + sample] := input[blockIndex];
      blockIndex := blockIndex + 1;
    }
  }

  /** The left channel goes to the front of `out`, the right one behind it. */
  method Deinterleave2<T>(input: array<T>, out: array<T>, frames: nat)
    requires 2 * frames <= input.Length && 2 * frames <= out.Length && input != out
    modifies out
    ensures out[..frames] == Channel(input[..2 * frames], 0) &&
      out[frames..2 * frames] == Channel(input[..2 * frames], 1)
    ensures out[2 * frames..] == old(out[2 * frames..])
  {
    var blockIndex := 0;
    for sample := 0 to frames
      invariant blockIndex == 2 * sample
      invariant forall k: nat :: k < sample ==> out[k] == input[2 * k] && out[frames + k] == input[2 * k + 1]
      invariant forall k: nat :: 2 * frames <= k < out.Length ==> out[k] == old(out[k])
    {
      blockIndex := DeinterleaveFrame(input, out, frames, sample, blockIndex);
    }
  }
}
