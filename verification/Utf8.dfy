/** Code points from `\u` escapes and their UTF-8 encoding, as in section 3 of RFC 3629. */
module Utf8 {
  import opened Wrappers

  /** A Unicode scalar value: a code point that is no surrogate. */
  predicate IsScalar(u: nat) { u < 0x110000 && !(0xd800 <= u < 0xe000) }

  function FromPair(first: nat, second: nat): nat
    requires 0xd800 <= first < 0xdc00 && 0xdc00 <= second < 0xe000
  {
    (first - 0xd800) * 0x400 + (second - 0xdc00) + 0x10000
  }

  /** The bytes that are written for a code point. */
  function Encoded(u: nat): string
    requires IsScalar(u)
  {
    if u < 0x80 then [u as char]
    else if u < 0x800 then [(0xc0 + u / 0x40) as char, Tail(u)]
    else if u < 0x10000 then [(0xe0 + u / 0x1000) as char, Tail(u / 0x40), Tail(u)]
    else [(0xf0 + u / 0x40000) as char, Tail(u / 0x1000), Tail(u / 0x40), Tail(u)]
  }

  function Tail(u: nat): char { (0x80 + u % 0x40) as char }

  /** The 32-bit operations of the source agree with the sums and quotients used here. */
  lemma BitsAreSums(u: bv32, a: bv32, b: bv32)
    requires u < 0x110000 && 0xd800 <= a < 0xdc00 && 0xdc00 <= b < 0xe000
    ensures u < 0x800 ==> 0xc0 | (u >> 6) == 0xc0 + u / 0x40
    ensures u < 0x10000 ==> 0xe0 | (u >> 12) == 0xe0 + u / 0x1000
    ensures 0xf0 | (u >> 18) == 0xf0 + u / 0x40000
    ensures 0x80 | (u & 0x3f) == 0x80 + u % 0x40
    ensures 0x80 | ((u >> 6) & 0x3f) == 0x80 + (u / 0x40) % 0x40
    ensures 0x80 | ((u >> 12) & 0x3f) == 0x80 + (u / 0x1000) % 0x40
    ensures (((a - 0xd800) << 10) | ((b - 0xdc00) & 0x3ff)) + 0x10000 == (a - 0xd800) * 0x400 + (b - 0xdc00) + 0x10000
  {
  }

  // ---------------------------------------------------------------------------------------------
  // Decoding
  // ---------------------------------------------------------------------------------------------

  predicate IsTail(c: char) { 0x80 as char <= c <= 0xbf as char }

  function Payload(c: char): nat
    requires IsTail(c)
  {
    c as int - 0x80
  }

  /** The first code point of a well-formed UTF-8 text and its number of bytes: shortest forms only, no
      surrogates, nothing above 0x10FFFF. */
  function Decoded(s: string): Option<(nat, nat)> {
    if s == "" then None
    else if s[0] < 0x80 as char then Some((s[0] as int, 1))
    else if 0xc2 as char <= s[0] <= 0xdf as char && |s| >= 2 && IsTail(s[1]) then
      Some(((s[0] as int - 0xc0) * 0x40 + Payload(s[1]), 2))
    else if 0xe0 as char <= s[0] <= 0xef as char && |s| >= 3 && IsTail(s[1]) && IsTail(s[2]) then
      var u := (s[0] as int - 0xe0) * 0x1000 + Payload(s[1]) * 0x40 + Payload(s[2]);
      if u >= 0x800 && IsScalar(u) then Some((u, 3)) else None
    else if 0xf0 as char <= s[0] <= 0xf4 as char && |s| >= 4 && IsTail(s[1]) && IsTail(s[2]) && IsTail(s[3]) then
      var u := (s[0] as int - 0xf0) * 0x40000 + Payload(s[1]) * 0x1000 + Payload(s[2]) * 0x40 + Payload(s[3]);
      if u >= 0x10000 && IsScalar(u) then Some((u, 4)) else None
    else None
  }

  /** The six-bit groups of a number. */
  lemma Groups(a: nat, b: nat, c: nat, d: nat)
    requires b < 0x40 && c < 0x40 && d < 0x40
    ensures var u := ((a * 0x40 + b) * 0x40 + c) * 0x40 + d;
      u / 0x40 == (a * 0x40 + b) * 0x40 + c && u / 0x1000 == a * 0x40 + b && u / 0x40000 == a && u % 0x40 == d
    ensures ((a * 0x40 + b) * 0x40 + c) % 0x40 == c && (a * 0x40 + b) % 0x40 == b
  {
  }

  lemma EncodedTwo(c: nat, d: nat)
    requires 2 <= c < 0x20 && d < 0x40
    ensures IsScalar(c * 0x40 + d) && Encoded(c * 0x40 + d) == [(0xc0 + c) as char, (0x80 + d) as char]
  {
    Groups(0, 0, c, d);
  }

  lemma EncodedThree(b: nat, c: nat, d: nat)
    requires b < 0x10 && c < 0x40 && d < 0x40 && b * 0x1000 + c * 0x40 + d >= 0x800 &&
      IsScalar(b * 0x1000 + c * 0x40 + d)
    ensures Encoded(b * 0x1000 + c * 0x40 + d) == [(0xe0 + b) as char, (0x80 + c) as char, (0x80 + d) as char]
  {
    Groups(0, b, c, d);
  }

  lemma EncodedFour(a: nat, b: nat, c: nat, d: nat)
    requires a < 5 && b < 0x40 && c < 0x40 && d < 0x40
    requires 0x10000 <= a * 0x40000 + b * 0x1000 + c * 0x40 + d < 0x110000
    ensures Encoded(a * 0x40000 + b * 0x1000 + c * 0x40 + d)
      == [(0xf0 + a) as char, (0x80 + b) as char, (0x80 + c) as char, (0x80 + d) as char]
  {
    Groups(a, b, c, d);
  }

  /** The bytes written for a scalar value decode to it, whatever follows. */
  lemma EncodingDecodes(u: nat, rest: string)
    requires IsScalar(u)
    ensures Decoded(Encoded(u) + rest) == Some((u, |Encoded(u)|))
  {
    var a, b, c, d := u / 0x40000, (u / 0x1000) % 0x40, (u / 0x40) % 0x40, u % 0x40;
    GroupsOf(u);
    if u < 0x80 {
    } else if u < 0x800 {
      EncodedTwo(c, d);
      DecodedTwo(Encoded(u) + rest, c, d);
    } else if u < 0x10000 {
      EncodedThree(b, c, d);
      DecodedThree(Encoded(u) + rest, b, c, d);
    } else {
      EncodedFour(a, b, c, d);
      DecodedFour(Encoded(u) + rest, a, b, c, d);
    }
  }

  lemma GroupsOf(u: nat)
    ensures u == (u / 0x40000) * 0x40000 + ((u / 0x1000) % 0x40) * 0x1000 + ((u / 0x40) % 0x40) * 0x40 + u % 0x40
    ensures u < 0x10000 ==> u / 0x40000 == 0 && (u / 0x1000) % 0x40 < 0x10
    ensures u < 0x800 ==> (u / 0x1000) % 0x40 == 0 && (u / 0x40) % 0x40 < 0x20
  {
    assert (u / 0x40) / 0x40 == u / 0x1000 && (u / 0x1000) / 0x40 == u / 0x40000;
  }

  lemma DecodedTwo(s: string, c: nat, d: nat)
    requires 2 <= c < 0x20 && d < 0x40 && |s| >= 2 && s[0] == (0xc0 + c) as char && s[1] == (0x80 + d) as char
    ensures Decoded(s) == Some((c * 0x40 + d, 2))
  {
    assert Payload(s[1]) == d;
  }

  lemma DecodedThree(s: string, b: nat, c: nat, d: nat)
    requires b < 0x10 && c < 0x40 && d < 0x40 && b * 0x1000 + c * 0x40 + d >= 0x800 &&
      IsScalar(b * 0x1000 + c * 0x40 + d)
    requires |s| >= 3 && s[0] == (0xe0 + b) as char && s[1] == (0x80 + c) as char && s[2] == (0x80 + d) as char
    ensures Decoded(s) == Some((b * 0x1000 + c * 0x40 + d, 3))
  {
    assert Payload(s[1]) == c && Payload(s[2]) == d;
  }

  lemma DecodedFour(s: string, a: nat, b: nat, c: nat, d: nat)
    requires a < 5 && b < 0x40 && c < 0x40 && d < 0x40
    requires 0x10000 <= a * 0x40000 + b * 0x1000 + c * 0x40 + d < 0x110000
    requires |s| >= 4 && s[0] == (0xf0 + a) as char && s[1] == (0x80 + b) as char && s[2] == (0x80 + c) as char &&
      s[3] == (0x80 + d) as char
    ensures Decoded(s) == Some((a * 0x40000 + b * 0x1000 + c * 0x40 + d, 4))
  {
    assert Payload(s[1]) == b && Payload(s[2]) == c && Payload(s[3]) == d;
  }

  /** Distinct scalar values give distinct bytes, neither a prefix of the other. */
  lemma EncodingsDiffer(u: nat, v: nat)
    requires IsScalar(u) && IsScalar(v) && Encoded(u) <= Encoded(v)
    ensures u == v
  {
    EncodingDecodes(u, Encoded(v)[|Encoded(u)|..]);
    assert Encoded(u) + Encoded(v)[|Encoded(u)|..] == Encoded(v) + "";
    EncodingDecodes(v, "");
  }

  /** Every well-formed sequence is the encoding of what it decodes to. */
  lemma DecodingEncodes(s: string)
    requires Decoded(s).Some?
    ensures var (u, n) := Decoded(s).value; IsScalar(u) && n <= |s| && Encoded(u) == s[..n]
  {
    var (u, n) := Decoded(s).value;
    if n == 2 {
      EncodedTwo(s[0] as int - 0xc0, Payload(s[1]));
    } else if n == 3 {
      EncodedThree(s[0] as int - 0xe0, Payload(s[1]), Payload(s[2]));
    } else if n == 4 {
      EncodedFour(s[0] as int - 0xf0, Payload(s[1]), Payload(s[2]), Payload(s[3]));
    }
  }

  /** Surrogate pairs denote just the code points from 0x10000 to 0x10FFFF, and each of those has exactly
      one pair. */
  lemma PairOf(u: nat) returns (first: nat, second: nat)
    requires 0x10000 <= u < 0x110000
    ensures 0xd800 <= first < 0xdc00 && 0xdc00 <= second < 0xe000 && FromPair(first, second) == u
    ensures forall a: nat, b: nat :: 0xd800 <= a < 0xdc00 && 0xdc00 <= b < 0xe000 ==>
      0x10000 <= FromPair(a, b) < 0x110000
    ensures forall a: nat, b: nat :: 0xd800 <= a < 0xdc00 && 0xdc00 <= b < 0xe000 && FromPair(a, b) == u ==>
      a == first && b == second
  {
    first, second := 0xd800 + (u - 0x10000) / 0x400, 0xdc00 + (u - 0x10000) % 0x400;
  }
}
