/** The texts of JSON values, written out as trees with every blank and escape in them, and the proof that
    the parser reads exactly these. */
module JsonTexts {
  import opened Wrappers
  import opened JsonValue
  import opened JsonGrammar
  import opened JsonRoundTrip
  import opened Utf8
  import opened Seqs

  // ---------------------------------------------------------------------------------------------
  // Characters
  // ---------------------------------------------------------------------------------------------

  const BLANKS: string := " \t\n\r"
  const DIGITS: string := "0123456789"
  const NUMBER_CHARS: string := "0123456789+-eE."
  const LOWER: string := "0123456789abcdef"
  const UPPER: string := "0123456789ABCDEF"

  /** The characters behind the backslash of a short escape, and what they stand for. */
  const SHORT: string := "\"\\/bfnrt"
  const MEANT: string := ['"', '\\', '/', 8 as char, 12 as char, '\n', '\r', '\t']

  predicate Blank(w: string) { forall c <- w :: c in BLANKS }

  predicate Decimals(w: string) { forall c <- w :: c in DIGITS }

  /** Blanks, tabs and both line ends are skipped wherever the parser looks for something, and nothing else is. */
  lemma BlanksAreSkipped(c: char, s: string, d: char)
    ensures c in BLANKS ==> SkipWs([c] + s) == SkipWs(s) && Expect([c] + s, d) == Expect(s, d)
    ensures c in BLANKS ==> ParseValue([c] + s) == ParseValue(s)
    ensures c !in BLANKS ==> SkipWs([c] + s) == [c] + s
  {
    var t := [c] + s;
    assert t[0] == c && t[1..] == s;
  }

  lemma CharsAre(c: char)
    ensures (IsWs(c) <==> c in BLANKS) && (IsDigit(c) <==> c in DIGITS)
    ensures IsNumberChar(c) <==> c in NUMBER_CHARS
  {
  }

  lemma BlankIsWs(w: string)
    ensures Blank(w) <==> AllWs(w)
  {
    forall c: char ensures IsWs(c) <==> c in BLANKS { CharsAre(c); }
    if !Blank(w) {
      var c :| c in w && c !in BLANKS;
      var i: nat :| i < |w| && w[i] == c;
      assert !IsWs(w[i]);
    }
  }

  lemma DecimalsAreDigits(w: string)
    ensures Decimals(w) <==> AllDigits(w)
  {
    forall c: char ensures IsDigit(c) <==> c in DIGITS { CharsAre(c); }
    if !Decimals(w) {
      var c :| c in w && c !in DIGITS;
      var i: nat :| i < |w| && w[i] == c;
      assert !IsDigit(w[i]);
    }
  }

  // ---------------------------------------------------------------------------------------------
  // Trees
  // ---------------------------------------------------------------------------------------------

  /** A piece of a string: a character as it is, a short escape, or a code point in hexadecimal digits: four of
      them, or two times four for a surrogate pair. */
  datatype Piece =
    | Plain(c: char)
    | Short(i: nat)
    | Code(u: nat, digits: string)
    | Pair(u: nat, high: string, low: string)

  datatype Exponent = Exponent(mark: char, sign: string, digits: string)

  datatype Tree =
    | Word(v: Value)
    | Number(minus: bool, whole: string, fraction: Option<string>, exponent: Option<Exponent>)
    | Quoted(pieces: seq<Piece>)
    | Empty(brace: bool, inside: string)
    | Array(items: Items)
    | Object(members: Members)

  /** One or more items with the blanks around them. */
  datatype Items = Last(before: string, item: Tree, after: string)
                 | More(before: string, item: Tree, after: string, next: Items)

  /** A key with the blanks in front of it, in front of the colon and in front of the value. */
  datatype Key = Key(before: string, pieces: seq<Piece>, colon: string, behind: string)

  datatype Members = LastOne(key: Key, value: Tree, after: string)
                   | MoreOf(key: Key, value: Tree, after: string, next: Members)

  predicate HexAt(c: char, d: nat) { d < 16 && (c == LOWER[d] || c == UPPER[d]) }

  predicate FourHex(digits: string, a: nat, b: nat, c: nat, d: nat) {
    |digits| == 4 && HexAt(digits[0], a) && HexAt(digits[1], b) && HexAt(digits[2], c) && HexAt(digits[3], d)
  }

  predicate Spells(digits: string, n: nat) {
    n < 0x10000 && FourHex(digits, n / 0x1000, n / 0x100 % 0x10, n / 0x10 % 0x10, n % 0x10)
  }

  predicate ProperPiece(p: Piece) {
    match p
    case Plain(c) => c >= ' ' && c != '"' && c != '\\'
    case Short(i) => i < |SHORT|
    case Code(u, digits) => IsScalar(u) && Spells(digits, u)
    case Pair(u, high, low) =>
      && IsScalar(u) && u >= 0x10000
      && Spells(high, 0xd800 + (u - 0x10000) / 0x400) && Spells(low, 0xdc00 + (u - 0x10000) % 0x400)
  }

  predicate ProperPieces(ps: seq<Piece>) { forall p <- ps :: ProperPiece(p) }

  predicate ProperExponent(e: Exponent) {
    e.mark in "eE" && e.sign in ["", "+", "-"] && Decimals(e.digits) && e.digits != ""
  }

  /** A minus sign, digits, a fraction and an exponent, with a digit in front of or behind the point. */
  predicate ProperNumber(t: Tree)
    requires t.Number?
  {
    && Decimals(t.whole) && (t.fraction.Some? ==> Decimals(t.fraction.value))
    && (t.whole != "" || (t.minus && t.fraction.Some? && t.fraction.value != ""))
    && (t.exponent.Some? ==> ProperExponent(t.exponent.value))
  }

  predicate Proper(t: Tree) {
    match t
    case Word(v) => v == Null || v.Bool?
    case Number(_, _, _, _) => ProperNumber(t)
    case Quoted(ps) => ProperPieces(ps)
    case Empty(_, inside) => Blank(inside)
    case Array(x) => ProperItems(x)
    case Object(x) => ProperMembers(x)
  }

  predicate ProperItems(x: Items) {
    Blank(x.before) && Blank(x.after) && Proper(x.item) && (x.More? ==> ProperItems(x.next))
  }

  predicate ProperKey(k: Key) { Blank(k.before) && ProperPieces(k.pieces) && Blank(k.colon) && Blank(k.behind) }

  predicate ProperMembers(x: Members) {
    ProperKey(x.key) && Proper(x.value) && Blank(x.after) && (x.MoreOf? ==> ProperMembers(x.next))
  }

  // ---------------------------------------------------------------------------------------------
  // Characters and meaning of a tree
  // ---------------------------------------------------------------------------------------------

  function PieceText(p: Piece): string
    requires ProperPiece(p)
  {
    match p
    case Plain(c) => [c]
    case Short(i) => ['\\', SHORT[i]]
    case Code(_, digits) => ['\\', 'u'] + digits
    case Pair(_, high, low) => ['\\', 'u'] + (high + (['\\', 'u'] + low))
  }

  /** What a piece adds to the string: code points in UTF-8. */
  function PieceMeaning(p: Piece): string
    requires ProperPiece(p)
  {
    match p
    case Plain(c) => [c]
    case Short(i) => [MEANT[i]]
    case Code(u, _) => Encoded(u)
    case Pair(u, _, _) => Encoded(u)
  }

  /** The characters of some pieces, in front of `rest`. */
  function PiecesText(ps: seq<Piece>, rest: string): string
    requires ProperPieces(ps)
  {
    if ps == [] then rest else PieceText(ps[0]) + PiecesText(ps[1..], rest)
  }

  function PiecesMeaning(ps: seq<Piece>): string
    requires ProperPieces(ps)
  {
    if ps == [] then "" else PieceMeaning(ps[0]) + PiecesMeaning(ps[1..])
  }

  function FractionText(f: Option<string>): string { if f.None? then "" else ['.'] + f.value }

  function ExponentText(e: Option<Exponent>): string {
    if e.None? then "" else [e.value.mark] + (e.value.sign + e.value.digits)
  }

  function SignText(minus: bool): string { if minus then "-" else "" }

  function NumberSpelled(t: Tree): string
    requires t.Number?
  {
    SignText(t.minus) + (t.whole + (FractionText(t.fraction) + ExponentText(t.exponent)))
  }

  function DigitOf(c: char): nat
    requires c in DIGITS
  {
    c as int - '0' as int
  }

  /** The number `n` with the digits of `w` behind it. */
  function Numeral(w: string, n: nat): nat
    requires Decimals(w)
  {
    if w == "" then n else assert w[0] in w; Numeral(w[1..], n * 10 + DigitOf(w[0]))
  }

  /** Integers of magnitude below 2^53 by their value, other numbers by their text. */
  function NumberMeaning(t: Tree): Value
    requires t.Number? && ProperNumber(t)
  {
    var n: int := Numeral(t.whole, 0);
    if t.fraction.None? && t.exponent.None? && n < EXACT then Num(if t.minus then -n else n) else Flt(NumberSpelled(t))
  }

  function WordText(v: Value): string {
    if v == Null then "null" else if v == Bool(true) then "true" else "false"
  }

  /** The characters of a tree, in front of `rest`. */
  function Written(t: Tree, rest: string): string
    requires Proper(t)
  {
    match t
    case Word(v) => WordText(v) + rest
    case Number(_, _, _, _) => NumberSpelled(t) + rest
    case Quoted(ps) => ['"'] + PiecesText(ps, ['"'] + rest)
    case Empty(brace, inside) => (if brace then ['{'] else ['[']) + (inside + ((if brace then ['}'] else [']']) + rest))
    case Array(x) => ['['] + ItemsWritten(x, [']'] + rest)
    case Object(x) => ['{'] + MembersWritten(x, ['}'] + rest)
  }

  function ItemsWritten(x: Items, rest: string): string
    requires ProperItems(x)
  {
    x.before + Written(x.item, x.after + (if x.More? then [','] + ItemsWritten(x.next, rest) else rest))
  }

  function KeyWritten(k: Key, rest: string): string
    requires ProperKey(k)
  {
    k.before + (['"'] + PiecesText(k.pieces, ['"'] + (k.colon + ([':'] + (k.behind + rest)))))
  }

  function MembersWritten(x: Members, rest: string): string
    requires ProperMembers(x)
  {
    var behind := x.after + (if x.MoreOf? then [','] + MembersWritten(x.next, rest) else rest);
    KeyWritten(x.key, Written(x.value, behind))
  }

  function Meaning(t: Tree): Value
    requires Proper(t)
  {
    match t
    case Word(v) => v
    case Number(_, _, _, _) => NumberMeaning(t)
    case Quoted(ps) => Str(PiecesMeaning(ps))
    case Empty(brace, _) => if brace then Obj([]) else Arr([])
    case Array(x) => Arr(ItemsMeaning(x))
    case Object(x) => Obj(MembersMeaning(x, []))
  }

  function ItemsMeaning(x: Items): seq<Value>
    requires ProperItems(x)
  {
    [Meaning(x.item)] + if x.More? then ItemsMeaning(x.next) else []
  }

  /** The members put one after the other into a map that holds `before`. */
  function MembersMeaning(x: Members, before: seq<Member>): seq<Member>
    requires ProperMembers(x)
    decreases x
  {
    var after := Insert(before, PiecesMeaning(x.key.pieces), Meaning(x.value));
    if x.MoreOf? then MembersMeaning(x.next, after) else after
  }

  /** A number reaches as far as it can: no character a number may have comes behind it. */
  predicate Follows(t: Tree, rest: string) { t.Number? && rest != "" ==> rest[0] !in NUMBER_CHARS }

  // ---------------------------------------------------------------------------------------------
  // Hexadecimal digits
  // ---------------------------------------------------------------------------------------------

  lemma HexAtReads(c: char, d: nat)
    ensures HexAt(c, d) <==> HexValue(c) == Some(d)
  {
    if d < 16 {
      assert LOWER[d] == Hex(d);
      assert UPPER[d] == if d < 10 then Hex(d) else ('A' as int + (d - 10)) as char;
    }
    HexBothCases(c, d);
    if HexValue(c) == Some(d) { assert d < 16; }
  }

  lemma FourAtReads(digits: string, a: nat, b: nat, c: nat, d: nat)
    requires |digits| == 4
    ensures FourHex(digits, a, b, c, d) <==>
      && HexValue(digits[0]) == Some(a) && HexValue(digits[1]) == Some(b)
      && HexValue(digits[2]) == Some(c) && HexValue(digits[3]) == Some(d)
  {
    HexAtReads(digits[0], a);
    HexAtReads(digits[1], b);
    HexAtReads(digits[2], c);
    HexAtReads(digits[3], d);
  }

  lemma OneDigit(s: string, k: nat, n: nat) returns (d: nat, t: string)
    requires k > 0 && Quad(s, k, n).Some?
    ensures s != "" && s == [s[0]] + t && d < 16 && HexValue(s[0]) == Some(d)
    ensures Quad(s, k, n) == Quad(t, k - 1, n * 16 + d)
  {
    QuadNext(s, k, n);
    d, t := HexValue(s[0]).value, s[1..];
  }

  lemma DigitReads(c: char, t: string, k: nat, n: nat, d: nat)
    requires k > 0 && HexValue(c) == Some(d)
    ensures Quad([c] + t, k, n) == Quad(t, k - 1, n * 16 + d)
  {
    QuadNext([c] + t, k, n);
    assert ([c] + t)[1..] == t;
  }

  function FromHex(a: nat, b: nat, c: nat, d: nat): nat { ((a * 16 + b) * 16 + c) * 16 + d }

  lemma FourCharsRead(x: char, y: char, z: char, w: char, a: nat, b: nat, c: nat, d: nat, rest: string)
    requires HexValue(x) == Some(a) && HexValue(y) == Some(b) && HexValue(z) == Some(c) && HexValue(w) == Some(d)
    ensures Quad([x] + ([y] + ([z] + ([w] + rest))), 4, 0) == Some((FromHex(a, b, c, d), rest))
  {
    DigitReads(x, [y] + ([z] + ([w] + rest)), 4, 0, a);
    DigitReads(y, [z] + ([w] + rest), 3, a, b);
    DigitReads(z, [w] + rest, 2, a * 16 + b, c);
    DigitReads(w, rest, 1, (a * 16 + b) * 16 + c, d);
  }

  lemma FourReads(digits: string, a: nat, b: nat, c: nat, d: nat, rest: string)
    requires FourHex(digits, a, b, c, d)
    ensures Quad(digits + rest, 4, 0) == Some((FromHex(a, b, c, d), rest))
  {
    FourAtReads(digits, a, b, c, d);
    FourCharsRead(digits[0], digits[1], digits[2], digits[3], a, b, c, d, rest);
    FourInRow(digits, rest);
  }

  lemma FourInRow(digits: string, rest: string)
    requires |digits| == 4
    ensures digits + rest == [digits[0]] + ([digits[1]] + ([digits[2]] + ([digits[3]] + rest)))
  {
    var tail := [digits[3]] + rest;
    assert digits == [digits[0], digits[1], digits[2], digits[3]];
  }

  lemma ReadFour(s: string) returns (digits: string, a: nat, b: nat, c: nat, d: nat)
    requires Quad(s, 4, 0).Some?
    ensures a < 16 && b < 16 && c < 16 && d < 16 && FourHex(digits, a, b, c, d)
    ensures Quad(s, 4, 0).value.0 == FromHex(a, b, c, d) && s == digits + Quad(s, 4, 0).value.1
  {
    var s1, s2, s3, rest;
    a, s1 := OneDigit(s, 4, 0);
    b, s2 := OneDigit(s1, 3, a);
    c, s3 := OneDigit(s2, 2, a * 16 + b);
    d, rest := OneDigit(s3, 1, (a * 16 + b) * 16 + c);
    digits := [s[0], s1[0], s2[0], s3[0]];
    FourThen(s, s1, s2, s3, rest);
    FourAtReads(digits, a, b, c, d);
  }

  lemma FourThen(s: string, s1: string, s2: string, s3: string, rest: string)
    requires s != "" && s1 != "" && s2 != "" && s3 != ""
    requires s == [s[0]] + s1 && s1 == [s1[0]] + s2 && s2 == [s2[0]] + s3 && s3 == [s3[0]] + rest
    ensures s == [s[0], s1[0], s2[0], s3[0]] + rest
  {
  }

  lemma ToDigits(n: nat)
    requires n < 0x10000
    ensures FromHex(n / 0x1000, n / 0x100 % 0x10, n / 0x10 % 0x10, n % 0x10) == n
  {
    assert (n / 0x100) / 0x10 == n / 0x1000 && (n / 0x10) / 0x10 == n / 0x100;
  }

  lemma FromDigits(a: nat, b: nat, c: nat, d: nat)
    requires a < 16 && b < 16 && c < 16 && d < 16
    ensures var n := FromHex(a, b, c, d);
      n < 0x10000 && n / 0x1000 == a && n / 0x100 % 0x10 == b && n / 0x10 % 0x10 == c && n % 0x10 == d
  {
    var n := FromHex(a, b, c, d);
    assert n / 0x10 == (a * 16 + b) * 16 + c && n / 0x100 == a * 16 + b;
  }

  lemma SpelledReads(digits: string, n: nat, rest: string)
    requires Spells(digits, n)
    ensures Quad(digits + rest, 4, 0) == Some((n, rest))
  {
    ToDigits(n);
    FourReads(digits, n / 0x1000, n / 0x100 % 0x10, n / 0x10 % 0x10, n % 0x10, rest);
  }

  lemma DigitsSpelled(s: string) returns (digits: string)
    requires Quad(s, 4, 0).Some?
    ensures Spells(digits, Quad(s, 4, 0).value.0) && s == digits + Quad(s, 4, 0).value.1
  {
    var a, b, c, d;
    digits, a, b, c, d := ReadFour(s);
    FromDigits(a, b, c, d);
  }

  // ---------------------------------------------------------------------------------------------
  // Strings
  // ---------------------------------------------------------------------------------------------

  lemma ShortAre(c: char)
    ensures Unescaped(c).Some? <==> exists i: nat :: i < |SHORT| && SHORT[i] == c
    ensures forall i: nat :: i < |SHORT| && SHORT[i] == c ==> Unescaped(c) == Some(MEANT[i])
  {
    assert SHORT == ['"', '\\', '/', 'b', 'f', 'n', 'r', 't'];
    if Unescaped(c).Some? {
      var i: nat := if c == '"' then 0 else if c == '\\' then 1 else if c == '/' then 2 else if c == 'b' then 3
        else if c == 'f' then 4 else if c == 'n' then 5 else if c == 'r' then 6 else 7;
      assert SHORT[i] == c;
    }
  }

  /** One piece in front of anything adds its meaning to what has been read. */
  lemma PieceReads(p: Piece, t: string, out: string)
    requires ProperPiece(p)
    ensures StringRest(PieceText(p) + t, out) == StringRest(t, out + PieceMeaning(p))
  {
    match p
    case Plain(c) => assert ([c] + t)[1..] == t;
    case Short(i) => ShortPieceReads(i, t, out);
    case Code(u, digits) =>
      SpelledReads(digits, u, t);
      CodeReads(digits, u, t, out);
      Assoc(['\\', 'u'], digits, t);
    case Pair(u, high, low) =>
      PairPieceReads(u, high, low, t);
      CodeReads(high + (['\\', 'u'] + low), u, t, out);
      Assoc(['\\', 'u'], high + (['\\', 'u'] + low), t);
  }

  lemma ShortPieceReads(i: nat, t: string, out: string)
    requires i < |SHORT|
    ensures StringRest(['\\', SHORT[i]] + t, out) == StringRest(t, out + [MEANT[i]])
  {
    var c := SHORT[i];
    ShortAre(c);
    assert (['\\', c] + t)[1..] == [c] + t && ([c] + t)[1..] == t;
  }

  lemma CodeReads(digits: string, u: nat, t: string, out: string)
    requires IsScalar(u) && Codepoint(digits + t) == Some((u, t))
    ensures StringRest(['\\', 'u'] + (digits + t), out) == StringRest(t, out + Encoded(u))
  {
    var s := ['\\', 'u'] + (digits + t);
    assert s[1..] == ['u'] + (digits + t) && s[1..][1..] == digits + t;
    assert Unescaped('u').None?;
  }

  lemma PairPieceReads(u: nat, high: string, low: string, t: string)
    requires ProperPiece(Pair(u, high, low))
    ensures Codepoint(high + (['\\', 'u'] + low) + t) == Some((u, t))
  {
    var first, second := 0xd800 + (u - 0x10000) / 0x400, 0xdc00 + (u - 0x10000) % 0x400;
    SpelledReads(high, first, ['\\', 'u'] + (low + t));
    SpelledReads(low, second, t);
    HalvesRead(high, low, t, first, second);
    assert FromPair(first, second) == u;
  }

  lemma HalvesRead(high: string, low: string, t: string, first: nat, second: nat)
    requires 0xd800 <= first < 0xdc00 && 0xdc00 <= second < 0xe000
    requires Quad(high + (['\\', 'u'] + (low + t)), 4, 0) == Some((first, ['\\', 'u'] + (low + t)))
    requires Quad(low + t, 4, 0) == Some((second, t))
    ensures Codepoint(high + (['\\', 'u'] + low) + t) == Some((FromPair(first, second), t))
  {
    var x := ['\\', 'u'] + (low + t);
    assert x[2..] == low + t;
    assert high + (['\\', 'u'] + low) + t == high + x;
  }

  lemma {:induction false} PiecesRead(ps: seq<Piece>, rest: string, out: string)
    requires ProperPieces(ps)
    ensures StringRest(PiecesText(ps, ['"'] + rest), out) == Some((out + PiecesMeaning(ps), rest))
    decreases |ps|
  {
    if ps == [] {
      assert (['"'] + rest)[1..] == rest;
      NothingBehind(out);
    } else {
      PieceReads(ps[0], PiecesText(ps[1..], ['"'] + rest), out);
      PiecesRead(ps[1..], rest, out + PieceMeaning(ps[0]));
      Assoc(out, PieceMeaning(ps[0]), PiecesMeaning(ps[1..]));
    }
  }

  /** The first piece of a string that is read and does not end here. */
  lemma PieceOf(s: string, out: string) returns (p: Piece, t: string)
    requires StringRest(s, out).Some? && s[0] != '"'
    ensures ProperPiece(p) && s == PieceText(p) + t && StringRest(s, out) == StringRest(t, out + PieceMeaning(p))
  {
    if s[0] != '\\' {
      p, t := Plain(s[0]), s[1..];
    } else if Unescaped(s[1]).Some? {
      ShortAre(s[1]);
      var i: nat :| i < |SHORT| && SHORT[i] == s[1];
      p, t := Short(i), s[1..][1..];
      ShortPieceReads(i, t, out);
      assert s == ['\\', s[1]] + t;
    } else {
      p, t := CodeOf(s[2..]);
      var digits := if p.Code? then p.digits else p.high + (['\\', 'u'] + p.low);
      assert s[1..][1..] == s[2..];
      CodeReads(digits, p.u, t, out);
      Assoc(['\\', 'u'], digits, t);
      assert s == ['\\', 'u'] + s[2..];
    }
  }

  lemma CodeOf(s: string) returns (p: Piece, t: string)
    requires Codepoint(s).Some?
    ensures ProperPiece(p) && (p.Code? || p.Pair?) && Codepoint(s) == Some((p.u, t))
    ensures s == (if p.Code? then p.digits else p.high + (['\\', 'u'] + p.low)) + t
  {
    CodepointIsScalar(s);
    var (u, x) := Quad(s, 4, 0).value;
    var digits := DigitsSpelled(s);
    if !(0xd800 <= u <= 0xdfff) {
      p, t := Code(u, digits), x;
    } else {
      var second := Quad(x[2..], 4, 0).value.0;
      t := Quad(x[2..], 4, 0).value.1;
      var low := DigitsSpelled(x[2..]);
      p := Pair(FromPair(u, second), digits, low);
      PairSplits(u, second);
      assert x == ['\\', 'u'] + (low + t);
      assert s == digits + (['\\', 'u'] + low) + t;
    }
  }

  lemma PairSplits(first: nat, second: nat)
    requires 0xd800 <= first < 0xdc00 && 0xdc00 <= second < 0xe000
    ensures var u := FromPair(first, second);
      IsScalar(u) && 0xd800 + (u - 0x10000) / 0x400 == first && 0xdc00 + (u - 0x10000) % 0x400 == second
  {
  }

  /** A string that is read consists of pieces and a quote. */
  lemma {:induction false} PiecesOf(s: string, out: string) returns (ps: seq<Piece>)
    requires StringRest(s, out).Some?
    ensures ProperPieces(ps)
    ensures var (x, rest) := StringRest(s, out).value;
      s == PiecesText(ps, ['"'] + rest) && x == out + PiecesMeaning(ps)
    decreases |s|
  {
    if s[0] == '"' {
      ps := [];
      NothingBehind(out);
    } else {
      var p, t := PieceOf(s, out);
      var qs := PiecesOf(t, out + PieceMeaning(p));
      ps := [p] + qs;
      assert ps[1..] == qs;
      Assoc(out, PieceMeaning(p), PiecesMeaning(qs));
    }
  }

  // ---------------------------------------------------------------------------------------------
  // Numbers
  // ---------------------------------------------------------------------------------------------

  lemma {:induction false} NumeralIs(p: string, w: string)
    requires Decimals(w) && AllDigits(p) && AllDigits(p + w)
    ensures Numeral(w, NatValue(p)) == NatValue(p + w)
    decreases |w|
  {
    if w == "" {
      NothingBehind(p);
    } else {
      assert w[0] in w;
      var q := p + [w[0]];
      assert q + w[1..] == p + w && q[..|q| - 1] == p;
      assert forall i: nat :: i < |q| ==> q[i] == (p + w)[i];
      NumeralIs(q, w[1..]);
    }
  }

  lemma PartsAreDecimal(t: Tree)
    requires t.Number? && ProperNumber(t)
    ensures IsDecimal(SignText(t.minus), t.whole, FractionText(t.fraction), ExponentText(t.exponent))
  {
    DecimalsAreDigits(t.whole);
    if t.fraction.Some? {
      DecimalsAreDigits(t.fraction.value);
      assert FractionText(t.fraction)[1..] == t.fraction.value;
    }
    if t.exponent.Some? { ExponentReads(t.exponent.value); }
  }

  lemma ExponentReads(e: Exponent)
    requires ProperExponent(e)
    ensures IsExponent([e.mark] + (e.sign + e.digits))
  {
    var x := [e.mark] + (e.sign + e.digits);
    DecimalsAreDigits(e.digits);
    if e.sign == "" {
      assert x[1..] == e.digits && IsDigit(x[1]);
    } else {
      assert x[2..] == e.digits && x[1] == e.sign[0];
    }
  }

  lemma ExponentOf(x: string) returns (e: Exponent)
    requires IsExponent(x)
    ensures ProperExponent(e) && x == [e.mark] + (e.sign + e.digits)
  {
    var signed := x[1] == '+' || x[1] == '-';
    e := Exponent(x[0], if signed then [x[1]] else "", if signed then x[2..] else x[1..]);
    DecimalsAreDigits(e.digits);
    assert x == [x[0]] + x[1..] && (signed ==> x[1..] == [x[1]] + x[2..]);
  }

  lemma NumberCharsOnly(t: Tree)
    requires t.Number? && ProperNumber(t)
    ensures forall i: nat :: i < |NumberSpelled(t)| ==> IsNumberChar(NumberSpelled(t)[i])
  {
    forall c: char ensures IsNumberChar(c) <==> c in NUMBER_CHARS { CharsAre(c); }
    forall c: char ensures IsDigit(c) <==> c in DIGITS { CharsAre(c); }
    assert forall c <- FractionText(t.fraction) :: IsNumberChar(c);
    assert forall c <- ExponentText(t.exponent) :: IsNumberChar(c);
    assert forall c <- NumberSpelled(t) :: IsNumberChar(c);
  }

  lemma PlainIsInteger(t: Tree)
    requires t.Number? && ProperNumber(t) && t.fraction.None? && t.exponent.None?
    ensures IsInteger(NumberSpelled(t))
    ensures var n: int := Numeral(t.whole, 0); IntValue(NumberSpelled(t)) == if t.minus then -n else n
  {
    var text := NumberSpelled(t);
    DecimalsAreDigits(t.whole);
    NumeralIs("", t.whole);
    NothingInFront(t.whole);
    assert t.whole + ("" + "") == t.whole;
    if t.minus {
      assert text[1..] == t.whole;
    } else {
      assert text == t.whole && IsDigit(text[0]);
    }
  }

  lemma TailIsNoInteger(minus: bool, whole: string, tail: string)
    requires AllDigits(whole) && tail != "" && !IsDigit(tail[0]) && (minus || whole != "")
    ensures !IsInteger(SignText(minus) + (whole + tail))
  {
    var x, text := whole + tail, SignText(minus) + (whole + tail);
    assert x[|whole|] == tail[0];
    if minus {
      assert text[1..] == x;
    } else {
      assert text == x && IsDigit(text[0]);
    }
  }

  /** The text of a number is a plain integer exactly when it has neither fraction nor exponent. */
  lemma IntegerExactly(t: Tree)
    requires t.Number? && ProperNumber(t)
    ensures IsInteger(NumberSpelled(t)) <==> t.fraction.None? && t.exponent.None?
    ensures t.fraction.None? && t.exponent.None? ==>
      var n: int := Numeral(t.whole, 0); IntValue(NumberSpelled(t)) == if t.minus then -n else n
  {
    if t.fraction.None? && t.exponent.None? {
      PlainIsInteger(t);
    } else {
      var tail := FractionText(t.fraction) + ExponentText(t.exponent);
      DecimalsAreDigits(t.whole);
      assert tail != "" && !IsDigit(tail[0]);
      TailIsNoInteger(t.minus, t.whole, tail);
    }
  }

  lemma NumberValueIs(t: Tree)
    requires t.Number? && ProperNumber(t)
    ensures NumberValue(NumberSpelled(t)) == Some(NumberMeaning(t))
  {
    PartsAreDecimal(t);
    StrtodReadsDecimals(SignText(t.minus), t.whole, FractionText(t.fraction), ExponentText(t.exponent));
    IntegerExactly(t);
  }

  lemma NumberTreeReads(t: Tree, rest: string)
    requires t.Number? && ProperNumber(t) && Follows(t, rest)
    ensures ParseValue(NumberSpelled(t) + rest) == Some((NumberMeaning(t), rest))
  {
    var text := NumberSpelled(t);
    NumberCharsOnly(t);
    if rest != "" { CharsAre(rest[0]); }
    NumberTextStops(text, rest, "");
    NothingInFront(text);
    NumberValueIs(t);
    NumberStarts(t);
    NumberReads(text, rest, NumberMeaning(t));
  }

  lemma NumberStarts(t: Tree)
    requires t.Number? && ProperNumber(t)
    ensures NumberSpelled(t) != "" && (NumberSpelled(t)[0] == '-' || IsDigit(NumberSpelled(t)[0]))
  {
    DecimalsAreDigits(t.whole);
  }

  lemma FractionOf(fraction: string, digits: bool) returns (f: Option<string>)
    requires IsFraction(fraction, digits)
    ensures FractionText(f) == fraction && (f.Some? ==> Decimals(f.value))
    ensures !digits ==> f.Some? && f.value != ""
  {
    if fraction == "" {
      f := None;
    } else {
      DecimalsAreDigits(fraction[1..]);
      f := Some(fraction[1..]);
      assert fraction == ['.'] + fraction[1..];
    }
  }

  lemma ExponentPart(exponent: string) returns (x: Option<Exponent>)
    requires ExponentReadsAll(exponent)
    ensures ExponentText(x) == exponent && (x.Some? ==> ProperExponent(x.value))
  {
    if exponent == "" {
      x := None;
    } else {
      var e := ExponentOf(exponent);
      x := Some(e);
    }
  }

  /** A text that starts like a number has no plus sign, and without a minus sign it has digits in front. */
  lemma StartsSo(text: string, sign: string, whole: string, rest: string)
    requires text == sign + (whole + rest) && text != "" && (text[0] == '-' || IsDigit(text[0]))
    requires (sign == "" || sign == "+" || sign == "-") && (rest == "" || rest[0] in ".eE")
    ensures sign == SignText(sign == "-") && (sign == "" ==> whole != "")
  {
    NothingInFront(rest);
    NothingInFront(whole + rest);
    if sign != "" { assert text[0] == sign[0]; }
  }

  lemma TailStarts(f: Option<string>, x: Option<Exponent>)
    requires x.Some? ==> ProperExponent(x.value)
    ensures var rest := FractionText(f) + ExponentText(x); rest == "" || rest[0] in ".eE"
  {
    if f.None? && x.Some? { assert FractionText(f) + ExponentText(x) == ExponentText(x); }
  }

  /** What is read to the end as a number, and starts like one, is spelled by a tree. */
  lemma NumberOf(text: string) returns (t: Tree)
    requires StrtodReadsAll(text) && text != "" && (text[0] == '-' || IsDigit(text[0]))
    ensures t.Number? && ProperNumber(t) && NumberSpelled(t) == text
  {
    var sign, whole, fraction, exponent := StrtodSplits(text);
    DecimalsAreDigits(whole);
    var f := FractionOf(fraction, whole != "");
    var x := ExponentPart(exponent);
    TailStarts(f, x);
    StartsSo(text, sign, whole, FractionText(f) + ExponentText(x));
    t := Number(sign == "-", whole, f, x);
  }

  lemma IntegerIsRead(text: string)
    requires IsInteger(text)
    ensures StrtodReadsAll(text)
  {
    var minus := text[0] == '-';
    var whole := if minus then text[1..] else text;
    StrtodReadsDecimals(SignText(minus), whole, "", "");
    assert whole + ("" + "") == whole;
    assert SignText(minus) + whole == text;
  }

  lemma {:induction false} NumberTextIs(s: string, out: string)
    ensures var (text, rest) := NumberText(s, out); text + rest == out + s && out <= text
    ensures s != "" && IsNumberChar(s[0]) ==> out + [s[0]] <= NumberText(s, out).0
    decreases |s|
  {
    if s == "" || !IsNumberChar(s[0]) {
    } else {
      NumberTextIs(s[1..], out + [s[0]]);
      assert out + [s[0]] + s[1..] == out + s;
    }
  }

  lemma NumberTreeOf(s: string) returns (t: Tree)
    requires ParseNumber(s).Some? && s != "" && (s[0] == '-' || IsDigit(s[0]))
    ensures var (v, rest) := ParseNumber(s).value;
      && t.Number? && ProperNumber(t) && Follows(t, rest)
      && NumberSpelled(t) + rest == s && NumberMeaning(t) == v
  {
    var (text, rest) := NumberText(s, "");
    NumberTextIs(s, "");
    NothingInFront(s);
    assert text[0] == s[0];
    if IsInteger(text) { IntegerIsRead(text); }
    t := NumberOf(text);
    NumberValueIs(t);
    NumberTakes(s, "");
    if rest != "" { CharsAre(rest[0]); }
  }

  // ---------------------------------------------------------------------------------------------
  // Every tree is read
  // ---------------------------------------------------------------------------------------------

  lemma BlankThenSolid(w: string, x: string)
    requires Blank(w) && x != "" && x[0] !in BLANKS
    ensures SkipWs(w + x) == x && ParseValue(w + x) == ParseValue(x)
  {
    BlankIsWs(w);
    CharsAre(x[0]);
    SkipRun(w, x);
    ParseSkips(w, x);
  }

  lemma BlankThen(w: string, c: char, rest: string, d: char)
    requires Blank(w) && c !in BLANKS
    ensures Expect(w + ([c] + rest), d) == if c == d then Some(rest) else None
  {
    BlankIsWs(w);
    CharsAre(c);
    ExpectReads(w, c, rest, d);
  }

  /** How a tree starts. */
  lemma WrittenStarts(t: Tree, rest: string)
    requires Proper(t)
    ensures var x := Written(t, rest); x != "" && x[0] !in BLANKS && x[0] !in ",]}"
  {
    if t.Number? {
      NumberStarts(t);
      CharsAre(NumberSpelled(t)[0]);
      assert Written(t, rest)[0] == NumberSpelled(t)[0];
    }
  }

  /** Whatever comes behind an item cannot go on with a number. */
  lemma BehindFollows(t: Tree, after: string, c: char, rest: string)
    requires Blank(after) && c in ",]}"
    ensures Follows(t, after + ([c] + rest))
  {
    var x := after + ([c] + rest);
    if after != "" {
      assert x[0] == after[0] && after[0] in after;
      assert after[0] in BLANKS;
    }
  }

  /** Every tree is read, whatever comes behind it as long as that does not go on with a number. */
  lemma {:induction false} TreeReads(t: Tree, rest: string)
    requires Proper(t) && Follows(t, rest)
    ensures ParseValue(Written(t, rest)) == Some((Meaning(t), rest))
    decreases t, 0
  {
    match t
    case Word(v) => LiteralReads(WordText(v), v, rest);
    case Number(_, _, _, _) => NumberTreeReads(t, rest);
    case Quoted(ps) =>
      PiecesRead(ps, rest, "");
      NothingInFront(PiecesMeaning(ps));
      QuoteReads(PiecesText(ps, ['"'] + rest), PiecesMeaning(ps), rest);
    case Empty(brace, inside) => EmptyReads(brace, inside, rest);
    case Array(x) =>
      var body := ItemsWritten(x, [']'] + rest);
      OpenReads('[', body, ['['] + body);
      ItemsNotClosed(x, [']'] + rest);
      ItemsRead(x, rest, []);
      NothingInFront(ItemsMeaning(x));
    case Object(x) =>
      var body := MembersWritten(x, ['}'] + rest);
      OpenReads('{', body, ['{'] + body);
      MembersNotClosed(x, ['}'] + rest);
      MembersRead(x, rest, []);
  }

  lemma EmptyReads(brace: bool, inside: string, rest: string)
    requires Blank(inside)
    ensures ParseValue(Written(Empty(brace, inside), rest)) == Some((if brace then Obj([]) else Arr([]), rest))
  {
    var close := if brace then '}' else ']';
    var body := inside + ([close] + rest);
    BlankThen(inside, close, rest, close);
    OpenReads(if brace then '{' else '[', body, Written(Empty(brace, inside), rest));
  }

  lemma ItemsNotClosed(x: Items, rest: string)
    requires ProperItems(x)
    ensures Expect(ItemsWritten(x, rest), ']') == None
  {
    var y := Written(x.item, x.after + (if x.More? then [','] + ItemsWritten(x.next, rest) else rest));
    WrittenStarts(x.item, x.after + (if x.More? then [','] + ItemsWritten(x.next, rest) else rest));
    assert [y[0]] + y[1..] == y;
    BlankThen(x.before, y[0], y[1..], ']');
  }

  lemma MembersNotClosed(x: Members, rest: string)
    requires ProperMembers(x)
    ensures Expect(MembersWritten(x, rest), '}') == None
  {
    var y := MembersWritten(x, rest)[|x.key.before|..];
    assert MembersWritten(x, rest) == x.key.before + (['"'] + y[1..]);
    BlankThen(x.key.before, '"', y[1..], '}');
  }

  lemma {:induction false} ItemsRead(x: Items, rest: string, before: seq<Value>)
    requires ProperItems(x)
    ensures ParseItems(ItemsWritten(x, [']'] + rest), before) == Some((Arr(before + ItemsMeaning(x)), rest))
    decreases x, 1
  {
    var c, next := if x.More? then ',' else ']', if x.More? then ItemsWritten(x.next, [']'] + rest) else rest;
    var y, s, v := x.after + ([c] + next), ItemsWritten(x, [']'] + rest), Meaning(x.item);
    assert s == x.before + Written(x.item, y);
    BehindFollows(x.item, x.after, c, next);
    TreeReads(x.item, y);
    WrittenStarts(x.item, y);
    BlankThenSolid(x.before, Written(x.item, y));
    BlankThen(x.after, c, next, ',');
    BlankThen(x.after, c, next, ']');
    ItemsStep(s, before, v, y);
    if x.More? {
      ItemsRead(x.next, rest, before + [v]);
      Assoc(before, [v], ItemsMeaning(x.next));
    } else {
      NothingBehind([v]);
    }
  }

  lemma KeyReadsBack(k: Key, rest: string)
    requires ProperKey(k)
    ensures ParseKey(KeyWritten(k, rest)) == Some((PiecesMeaning(k.pieces), k.behind + rest))
  {
    var z := k.behind + rest;
    var y := k.colon + ([':'] + z);
    BlankThen(k.before, '"', PiecesText(k.pieces, ['"'] + y), '"');
    PiecesRead(k.pieces, y, "");
    NothingInFront(PiecesMeaning(k.pieces));
    BlankThen(k.colon, ':', z, ':');
  }

  lemma {:induction false} MembersRead(x: Members, rest: string, before: seq<Member>)
    requires ProperMembers(x)
    ensures ParseMembers(MembersWritten(x, ['}'] + rest), before) == Some((Obj(MembersMeaning(x, before)), rest))
    decreases x, 1
  {
    var c, next := if x.MoreOf? then ',' else '}', if x.MoreOf? then MembersWritten(x.next, ['}'] + rest) else rest;
    var y, s := x.after + ([c] + next), MembersWritten(x, ['}'] + rest);
    var m := Member(PiecesMeaning(x.key.pieces), Meaning(x.value));
    assert s == KeyWritten(x.key, Written(x.value, y));
    KeyReadsBack(x.key, Written(x.value, y));
    BehindFollows(x.value, x.after, c, next);
    TreeReads(x.value, y);
    WrittenStarts(x.value, y);
    BlankThenSolid(x.key.behind, Written(x.value, y));
    KeyThenValue(s, m, x.key.behind + Written(x.value, y), y);
    BlankThen(x.after, c, next, ',');
    BlankThen(x.after, c, next, '}');
    var after := Insert(before, m.key, m.value);
    if x.MoreOf? {
      MembersRead(x.next, rest, after);
      MembersGoOn(s, before, m, y, next, after);
    } else {
      MembersEnd(s, before, m, y, rest, after);
    }
  }

  // ---------------------------------------------------------------------------------------------
  // Nothing else is read
  // ---------------------------------------------------------------------------------------------

  lemma {:induction false} BlanksOf(s: string) returns (w: string)
    ensures Blank(w) && s == w + SkipWs(s)
    decreases |s|
  {
    if s != "" && IsWs(s[0]) {
      var v := BlanksOf(s[1..]);
      w := [s[0]] + v;
      CharsAre(s[0]);
      Assoc([s[0]], v, SkipWs(s));
    } else {
      w := "";
      NothingInFront(s);
    }
  }

  lemma ExpectedOf(s: string, c: char) returns (w: string)
    requires Expect(s, c).Some?
    ensures Blank(w) && s == w + ([c] + Expect(s, c).value)
  {
    w := BlanksOf(s);
    var t := SkipWs(s);
    assert t == [c] + t[1..];
  }

  lemma LiteralOf(c: char, s: string) returns (t: Tree)
    requires c == 'n' || c == 'f' || c == 't'
    requires ParseBehind(c, s).Some?
    ensures var (v, rest) := ParseBehind(c, s).value;
      Proper(t) && !t.Number? && Meaning(t) == v && Written(t, rest) == [c] + s
  {
    var (v, rest) := ParseBehind(c, s).value;
    var pattern := if c == 'n' then "ull" else if c == 'f' then "alse" else "rue";
    t := Word(v);
    assert s == pattern + rest;
    assert WordText(v) == [c] + pattern;
    Assoc([c], pattern, rest);
  }

  lemma ValueReads(s: string, x: string)
    requires x == SkipWs(s) && x != ""
    ensures ParseValue(s) == if IsDigit(x[0]) || x[0] == '-' then ParseNumber(x) else ParseBehind(x[0], x[1..])
  {
  }

  /** The blanks in front of a value that is read, and its tree. */
  lemma {:induction false} TreeOf(s: string) returns (w: string, t: Tree)
    requires ParseValue(s).Some?
    ensures Blank(w) && Proper(t)
    ensures var (v, rest) := ParseValue(s).value; Follows(t, rest) && s == w + Written(t, rest) && Meaning(t) == v
    decreases |s|, 0
  {
    w := BlanksOf(s);
    var x := SkipWs(s);
    ValueReads(s, x);
    if IsDigit(x[0]) || x[0] == '-' {
      t := NumberTreeOf(x);
    } else {
      t := TreeBehind(x[0], x[1..]);
      assert x == [x[0]] + x[1..];
    }
  }

  lemma {:induction false} TreeBehind(c: char, s: string) returns (t: Tree)
    requires ParseBehind(c, s).Some?
    ensures var (v, rest) := ParseBehind(c, s).value;
      Proper(t) && !t.Number? && Meaning(t) == v && Written(t, rest) == [c] + s
    decreases |s|, 4
  {
    var (v, rest) := ParseBehind(c, s).value;
    if c == '"' {
      var ps := PiecesOf(s, "");
      NothingInFront(PiecesMeaning(ps));
      t := Quoted(ps);
    } else if c == '[' {
      t := ArrayOf(s);
    } else if c == '{' {
      t := ObjectOf(s);
    } else {
      t := LiteralOf(c, s);
    }
  }

  lemma {:induction false} ArrayOf(s: string) returns (t: Tree)
    requires ParseArray(s).Some?
    ensures var (v, rest) := ParseArray(s).value;
      Proper(t) && !t.Number? && Meaning(t) == v && Written(t, rest) == ['['] + s
    decreases |s|, 2
  {
    if Expect(s, ']').Some? {
      var inside := ExpectedOf(s, ']');
      t := Empty(false, inside);
    } else {
      var x := ItemsOf(s, []);
      NothingInFront(ItemsMeaning(x));
      t := Array(x);
    }
  }

  lemma {:induction false} ObjectOf(s: string) returns (t: Tree)
    requires ParseObject(s).Some?
    ensures var (v, rest) := ParseObject(s).value;
      Proper(t) && !t.Number? && Meaning(t) == v && Written(t, rest) == ['{'] + s
    decreases |s|, 3
  {
    if Expect(s, '}').Some? {
      var inside := ExpectedOf(s, '}');
      t := Empty(true, inside);
    } else {
      var x := MembersOf(s, []);
      t := Object(x);
    }
  }

  lemma {:induction false} ItemsOf(s: string, before: seq<Value>) returns (x: Items)
    requires ParseItems(s, before).Some?
    ensures ProperItems(x)
    ensures var (v, rest) := ParseItems(s, before).value;
      s == ItemsWritten(x, [']'] + rest) && v == Arr(before + ItemsMeaning(x))
    decreases |s|, 1
  {
    var w, t := TreeOf(s);
    var (v, y) := ParseValue(s).value;
    ItemsStep(s, before, v, y);
    if Expect(y, ',').Some? {
      var after := ExpectedOf(y, ',');
      var next := ItemsOf(Expect(y, ',').value, before + [v]);
      x := More(w, t, after, next);
      Assoc(before, [v], ItemsMeaning(next));
    } else {
      var after := ExpectedOf(y, ']');
      x := Last(w, t, after);
      NothingBehind([v]);
    }
  }

  /** The key of a member that is read, up to its value. */
  lemma KeyOf(s: string, behind: string, x: string) returns (k: Key)
    requires ParseKey(s).Some? && ParseKey(s).value.1 == behind + x && Blank(behind)
    ensures ProperKey(k) && s == KeyWritten(k, x) && PiecesMeaning(k.pieces) == ParseKey(s).value.0
  {
    var before := ExpectedOf(s, '"');
    var t := Expect(s, '"').value;
    var ps := PiecesOf(t, "");
    NothingInFront(PiecesMeaning(ps));
    var colon := ExpectedOf(StringRest(t, "").value.1, ':');
    k := Key(before, ps, colon, behind);
  }

  lemma {:induction false} MembersOf(s: string, before: seq<Member>) returns (x: Members)
    requires ParseMembers(s, before).Some?
    ensures ProperMembers(x)
    ensures var (v, rest) := ParseMembers(s, before).value;
      s == MembersWritten(x, ['}'] + rest) && v == Obj(MembersMeaning(x, before))
    decreases |s|, 1
  {
    var (m, y) := ParseMember(s).value;
    var (key, z) := ParseKey(s).value;
    var w, t := TreeOf(z);
    var k := KeyOf(s, w, Written(t, y));
    var after := Insert(before, m.key, m.value);
    if Expect(y, ',').Some? {
      var blanks := ExpectedOf(y, ',');
      var next := MembersOf(Expect(y, ',').value, after);
      MembersGoOn(s, before, m, y, Expect(y, ',').value, after);
      x := MoreOf(k, t, blanks, next);
    } else {
      var blanks := ExpectedOf(y, '}');
      MembersEnd(s, before, m, y, Expect(y, '}').value, after);
      x := LastOne(k, t, blanks);
    }
  }

  /** Some blanks and a tree that means `v`, in front of `rest`. */
  ghost predicate Reads(s: string, v: Value, rest: string) {
    exists w: string, t: Tree ::
      Blank(w) && Proper(t) && Follows(t, rest) && s == w + Written(t, rest) && Meaning(t) == v
  }

  /** The parser finds a value exactly where there is the text of one, and finds what that text means. */
  lemma ParsesExactly(s: string, v: Value, rest: string)
    ensures ParseValue(s) == Some((v, rest)) <==> Reads(s, v, rest)
  {
    if ParseValue(s) == Some((v, rest)) {
      var w, t := TreeOf(s);
      assert Reads(s, v, rest);
    }
    if Reads(s, v, rest) {
      var w, t :| Blank(w) && Proper(t) && Follows(t, rest) && s == w + Written(t, rest) && Meaning(t) == v;
      TreeReads(t, rest);
      WrittenStarts(t, rest);
      BlankThenSolid(w, Written(t, rest));
    }
  }

  /** No text means two things. */
  lemma OneMeaning(s: string, v: Value, rest: string, v': Value, rest': string)
    requires Reads(s, v, rest) && Reads(s, v', rest')
    ensures v == v' && rest == rest'
  {
    ParsesExactly(s, v, rest);
    ParsesExactly(s, v', rest');
  }

  // ---------------------------------------------------------------------------------------------
  // The characters of a tree do not depend on what comes behind it
  // ---------------------------------------------------------------------------------------------

  lemma {:induction false} PiecesInFront(ps: seq<Piece>, a: string, b: string)
    requires ProperPieces(ps)
    ensures PiecesText(ps, a + b) == PiecesText(ps, a) + b
    decreases |ps|
  {
    if ps == [] {
    } else {
      PiecesInFront(ps[1..], a, b);
      Assoc(PieceText(ps[0]), PiecesText(ps[1..], a), b);
    }
  }

  lemma {:induction false} WrittenInFront(t: Tree, a: string, b: string)
    requires Proper(t)
    ensures Written(t, a + b) == Written(t, a) + b
    decreases t
  {
    match t
    case Word(v) => Assoc(WordText(v), a, b);
    case Number(_, _, _, _) => Assoc(NumberSpelled(t), a, b);
    case Quoted(ps) =>
      PiecesInFront(ps, ['"'] + a, b);
      Assoc(['"'], a, b);
      Assoc(['"'], PiecesText(ps, ['"'] + a), b);
    case Empty(brace, inside) =>
      var open, close: string := if brace then ['{'] else ['['], if brace then ['}'] else [']'];
      Assoc(close, a, b);
      Assoc(inside, close + a, b);
      Assoc(open, inside + (close + a), b);
    case Array(x) =>
      Assoc([']'], a, b);
      ItemsInFront(x, [']'] + a, b);
      Assoc(['['], ItemsWritten(x, [']'] + a), b);
    case Object(x) =>
      Assoc(['}'], a, b);
      MembersInFront(x, ['}'] + a, b);
      Assoc(['{'], MembersWritten(x, ['}'] + a), b);
  }

  lemma {:induction false} ItemsInFront(x: Items, a: string, b: string)
    requires ProperItems(x)
    ensures ItemsWritten(x, a + b) == ItemsWritten(x, a) + b
    decreases x
  {
    var y := if x.More? then [','] + ItemsWritten(x.next, a) else a;
    if x.More? {
      ItemsInFront(x.next, a, b);
      Assoc([','], ItemsWritten(x.next, a), b);
    }
    Assoc(x.after, y, b);
    WrittenInFront(x.item, x.after + y, b);
    Assoc(x.before, Written(x.item, x.after + y), b);
  }

  lemma KeyInFront(k: Key, a: string, b: string)
    requires ProperKey(k)
    ensures KeyWritten(k, a + b) == KeyWritten(k, a) + b
  {
    var z := k.colon + ([':'] + (k.behind + a));
    assert k.colon + ([':'] + (k.behind + (a + b))) == z + b;
    assert ['"'] + (z + b) == (['"'] + z) + b;
    PiecesInFront(k.pieces, ['"'] + z, b);
    var y := PiecesText(k.pieces, ['"'] + z);
    assert k.before + (['"'] + (y + b)) == (k.before + (['"'] + y)) + b;
  }

  lemma {:induction false} MembersInFront(x: Members, a: string, b: string)
    requires ProperMembers(x)
    ensures MembersWritten(x, a + b) == MembersWritten(x, a) + b
    decreases x
  {
    var y := if x.MoreOf? then [','] + MembersWritten(x.next, a) else a;
    if x.MoreOf? {
      MembersInFront(x.next, a, b);
      Assoc([','], MembersWritten(x.next, a), b);
    }
    Assoc(x.after, y, b);
    WrittenInFront(x.value, x.after + y, b);
    KeyInFront(x.key, Written(x.value, x.after + y), b);
  }
}
