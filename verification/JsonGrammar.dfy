/** What the JSON parser accepts, as functions on the characters that are still to be read. */
module JsonGrammar {
  import opened Wrappers
  import opened JsonValue
  import opened Utf8

  // ---------------------------------------------------------------------------------------------
  // Single characters
  // ---------------------------------------------------------------------------------------------

  predicate IsWs(c: char) { c == ' ' || c == '\t' || c == '\n' || c == '\r' }

  predicate IsDigit(c: char) { '0' <= c <= '9' }

  predicate IsNumberChar(c: char) { IsDigit(c) || c == '+' || c == '-' || c == 'e' || c == 'E' || c == '.' }

  function SkipWs(s: string): (r: string)
    ensures |r| <= |s| && (r != "" ==> !IsWs(r[0]))
  {
    if s != "" && IsWs(s[0]) then SkipWs(s[1..]) else s
  }

  /** Reads blanks and then `c`. */
  function Expect(s: string, c: char): (r: Option<string>)
    ensures r.Some? ==> |r.value| < |s|
  {
    var t := SkipWs(s);
    if t != "" && t[0] == c then Some(t[1..]) else None
  }

  // ---------------------------------------------------------------------------------------------
  // Strings
  // ---------------------------------------------------------------------------------------------

  function HexValue(c: char): Option<nat> {
    if '0' <= c <= '9' then Some(c as int - '0' as int)
    else if 'A' <= c <= 'F' then Some(c as int - 'A' as int + 10)
    else if 'a' <= c <= 'f' then Some(c as int - 'a' as int + 10)
    else None
  }

  /** The value of `k` more hexadecimal digits behind digits of value `n`. */
  function Quad(s: string, k: nat, n: nat): (r: Option<(nat, string)>)
    ensures r.Some? ==> |s| == k + |r.value.1|
    decreases |s|
  {
    if k == 0 then Some((n, s))
    else if s == "" then None
    else
      match HexValue(s[0])
      case None => None
      case Some(d) => Quad(s[1..], k - 1, n * 16 + d)
  }

  lemma QuadNext(s: string, k: nat, n: nat)
    requires k > 0
    ensures s == "" || HexValue(s[0]).None? ==> Quad(s, k, n) == None
    ensures s != "" && HexValue(s[0]).Some? ==> Quad(s, k, n) == Quad(s[1..], k - 1, n * 16 + HexValue(s[0]).value)
  {
  }

  /** The second half of a surrogate pair. */
  function Second(t: string, first: nat): (r: Option<(nat, string)>)
    requires 0xd800 <= first < 0xdc00
    ensures r.Some? ==> |r.value.1| < |t| && 0x10000 <= r.value.0 < 0x110000
  {
    if |t| < 2 || t[0] != '\\' || t[1] != 'u' then None
    else
      match Quad(t[2..], 4, 0)
      case None => None
      case Some((second, rest)) =>
        if 0xdc00 <= second <= 0xdfff then Some((FromPair(first, second), rest)) else None
  }

  /** What follows `\u`: four digits, or a surrogate pair. */
  function Codepoint(s: string): (r: Option<(nat, string)>)
    ensures r.Some? ==> |r.value.1| < |s|
  {
    match Quad(s, 4, 0)
    case None => None
    case Some((u, t)) =>
      if !(0xd800 <= u <= 0xdfff) then Some((u, t))
      else if 0xdc00 <= u then None
      else Second(t, u)
  }

  /** What a one-character escape stands for. */
  function Unescaped(c: char): Option<char> {
    if c == '"' || c == '\\' || c == '/' then Some(c)
    else if c == 'b' then Some(8 as char)
    else if c == 'f' then Some(12 as char)
    else if c == 'n' then Some('\n')
    else if c == 'r' then Some('\r')
    else if c == 't' then Some('\t')
    else None
  }

  /** An accepted `\u` escape or surrogate pair denotes a Unicode scalar value. */
  lemma CodepointIsScalar(s: string)
    requires Codepoint(s).Some?
    ensures IsScalar(Codepoint(s).value.0)
  {
    var (u, t) := Quad(s, 4, 0).value;
    QuadBound(s, 4, 0, 1);
  }

  lemma {:induction false} QuadBound(s: string, k: nat, n: nat, bound: nat)
    requires Quad(s, k, n).Some? && n < bound && k <= 4
    ensures Quad(s, k, n).value.0 < bound * Power16(k)
    decreases k
  {
    if k == 0 {
    } else {
      var d := HexValue(s[0]).value;
      QuadBound(s[1..], k - 1, n * 16 + d, bound * 16);
      assert bound * 16 * Power16(k - 1) == bound * Power16(k);
    }
  }

  function Power16(k: nat): nat
    requires k <= 4
  {
    if k == 0 then 1 else if k == 1 then 16 else if k == 2 then 256 else if k == 3 then 4096 else 65536
  }

  /** What an escape stands for, behind its backslash. */
  function EscapeRest(s: string): (r: Option<(string, string)>)
    ensures r.Some? ==> |r.value.1| < |s|
  {
    if s == "" then None
    else if Unescaped(s[0]).Some? then Some(([Unescaped(s[0]).value], s[1..]))
    else if s[0] != 'u' then None
    else
      match Codepoint(s[1..])
      case None => None
      case Some((u, t)) => CodepointIsScalar(s[1..]); Some((Encoded(u), t))
  }

  /** The rest of a string behind its opening quote, after characters `out` have been read. */
  function StringRest(s: string, out: string): (r: Option<(string, string)>)
    ensures r.Some? ==> |r.value.1| < |s|
    decreases |s|
  {
    if s == "" || s[0] < ' ' then None
    else if s[0] == '"' then Some((out, s[1..]))
    else if s[0] != '\\' then StringRest(s[1..], out + [s[0]])
    else
      match EscapeRest(s[1..])
      case None => None
      case Some((bytes, t)) => StringRest(t, out + bytes)
  }

  // ---------------------------------------------------------------------------------------------
  // Numbers
  // ---------------------------------------------------------------------------------------------

  /** The characters a number may consist of, from the front of the text, behind those in `out`. */
  function NumberText(s: string, out: string): (string, string) {
    if s != "" && IsNumberChar(s[0]) then NumberText(s[1..], out + [s[0]]) else (out, s)
  }

  /** How many digits a text starts with. */
  function Digits(s: string): (n: nat)
    ensures n <= |s|
  {
    if s != "" && IsDigit(s[0]) then 1 + Digits(s[1..]) else 0
  }

  predicate AllDigits(s: string) { forall i: nat :: i < |s| ==> IsDigit(s[i]) }

  predicate IsExponent(s: string) {
    && |s| >= 2 && (s[0] == 'e' || s[0] == 'E')
    && var d := if s[1] == '+' || s[1] == '-' then s[2..] else s[1..]; d != "" && AllDigits(d)
  }

  /** Whether `strtod` reads all of a text made of number characters. */
  predicate StrtodReadsAll(text: string) {
    UnsignedReadsAll(if text != "" && IsSign(text[0]) then text[1..] else text)
  }

  predicate UnsignedReadsAll(t: string) { FractionReadsAll(t[Digits(t)..], Digits(t) > 0) }

  predicate IsSign(c: char) { c == '+' || c == '-' }

  /** What may follow the digits in front, given whether there are any. */
  predicate FractionReadsAll(u: string, digits: bool) {
    if u != "" && u[0] == '.' then
      var v := u[1..];
      (digits || Digits(v) > 0) && ExponentReadsAll(v[Digits(v)..])
    else digits && ExponentReadsAll(u)
  }

  predicate ExponentReadsAll(e: string) { e == "" || IsExponent(e) }

  lemma {:induction false} DigitsBefore(w: string, rest: string)
    requires AllDigits(w) && (rest == "" || !IsDigit(rest[0]))
    ensures Digits(w + rest) == |w|
    decreases |w|
  {
    if w == "" {
      assert w + rest == rest;
    } else {
      assert (w + rest)[1..] == w[1..] + rest;
      DigitsBefore(w[1..], rest);
    }
  }

  lemma {:induction false} DigitsAreDigits(s: string)
    ensures AllDigits(s[..Digits(s)]) && (Digits(s) < |s| ==> !IsDigit(s[Digits(s)]))
    decreases |s|
  {
    if s == "" || !IsDigit(s[0]) {
    } else {
      DigitsAreDigits(s[1..]);
      assert s[..Digits(s)] == [s[0]] + s[1..][..Digits(s[1..])];
    }
  }

  /** A sign, digits, a fraction and an exponent. */
  predicate IsDecimal(sign: string, whole: string, fraction: string, exponent: string) {
    (sign == "" || sign == "+" || sign == "-") && AllDigits(whole) && IsFraction(fraction, whole != "") &&
      ExponentReadsAll(exponent)
  }

  predicate IsFraction(fraction: string, digits: bool) {
    if fraction == "" then digits else fraction[0] == '.' && AllDigits(fraction[1..]) && (digits || |fraction| > 1)
  }

  lemma FractionSplits(u: string, digits: bool) returns (fraction: string, exponent: string)
    requires FractionReadsAll(u, digits)
    ensures u == fraction + exponent && IsFraction(fraction, digits) && ExponentReadsAll(exponent)
  {
    if u != "" && u[0] == '.' {
      var v := u[1..];
      DigitsAreDigits(v);
      fraction, exponent := ['.'] + v[..Digits(v)], v[Digits(v)..];
      assert fraction[1..] == v[..Digits(v)];
    } else {
      fraction, exponent := "", u;
    }
  }

  lemma FractionReads(fraction: string, digits: bool, exponent: string)
    requires IsFraction(fraction, digits) && ExponentReadsAll(exponent)
    ensures FractionReadsAll(fraction + exponent, digits) &&
      (fraction + exponent == "" || !IsDigit((fraction + exponent)[0]))
  {
    var u := fraction + exponent;
    if fraction == "" {
      assert u == exponent;
    } else {
      var f := fraction[1..];
      assert u[0] == '.' && u[1..] == f + exponent;
      DigitsBefore(f, exponent);
      assert (f + exponent)[|f|..] == exponent;
    }
  }

  lemma UnsignedSplits(t: string) returns (whole: string, fraction: string, exponent: string)
    requires UnsignedReadsAll(t)
    ensures IsDecimal("", whole, fraction, exponent) && t == whole + (fraction + exponent)
  {
    var n, rest := Digits(t), t[Digits(t)..];
    DigitsAreDigits(t);
    whole := t[..n];
    assert t == whole + rest;
    fraction, exponent := FractionSplits(rest, n > 0);
  }

  /** What `strtod` reads to the end can be split into such parts, */
  lemma StrtodSplits(text: string) returns (sign: string, whole: string, fraction: string, exponent: string)
    requires StrtodReadsAll(text)
    ensures IsDecimal(sign, whole, fraction, exponent) && text == sign + (whole + (fraction + exponent))
  {
    sign := if text != "" && IsSign(text[0]) then [text[0]] else "";
    whole, fraction, exponent := UnsignedSplits(if sign != "" then text[1..] else text);
    SignBack(text, sign);
  }

  lemma SignBack(text: string, sign: string)
    requires sign == if text != "" && IsSign(text[0]) then [text[0]] else ""
    ensures text == sign + if sign != "" then text[1..] else text
  {
  }

  /** and whatever is made of such parts is read to the end. */
  lemma StrtodReadsDecimals(sign: string, whole: string, fraction: string, exponent: string)
    requires IsDecimal(sign, whole, fraction, exponent)
    ensures StrtodReadsAll(sign + (whole + (fraction + exponent)))
  {
    var u := fraction + exponent;
    FractionReads(fraction, whole != "", exponent);
    DigitsBefore(whole, u);
    assert (whole + u)[|whole|..] == u;
    SignGoes(sign, whole, u);
  }

  lemma SignGoes(sign: string, whole: string, u: string)
    requires (sign == "" || sign == "+" || sign == "-") && AllDigits(whole) && (u == "" || !IsSign(u[0]) || whole != "")
    ensures var text := sign + (whole + u); (if text != "" && IsSign(text[0]) then text[1..] else text) == whole + u
  {
    var t := whole + u;
    assert whole != "" ==> t[0] == whole[0] && IsDigit(whole[0]);
    assert sign + t == if sign == "" then t else [sign[0]] + t;
  }

  function NatValue(s: string): nat
    requires AllDigits(s)
  {
    if s == "" then 0 else NatValue(s[..|s| - 1]) * 10 + (s[|s| - 1] as int - '0' as int)
  }

  predicate IsInteger(text: string) {
    text != "" && if text[0] == '-' then text != "-" && AllDigits(text[1..]) else AllDigits(text)
  }

  function IntValue(text: string): int
    requires IsInteger(text)
  {
    if text[0] == '-' then 0 - NatValue(text[1..]) else NatValue(text)
  }

  function NumberValue(text: string): Option<Value> {
    if IsInteger(text) && -EXACT < IntValue(text) < EXACT then Some(Num(IntValue(text)))
    else if StrtodReadsAll(text) then Some(Flt(text))
    else None
  }

  // ---------------------------------------------------------------------------------------------
  // Values
  // ---------------------------------------------------------------------------------------------

  function Literal(s: string, pattern: string, v: Value): (r: Option<(Value, string)>)
    ensures r.Some? ==> |r.value.1| <= |s|
  {
    if pattern <= s then Some((v, s[|pattern|..])) else None
  }

  lemma {:induction false} NumberTakes(s: string, out: string)
    ensures var (_, rest) := NumberText(s, out); |rest| <= |s| && (s != "" && IsNumberChar(s[0]) ==> |rest| < |s|)
    ensures var (_, rest) := NumberText(s, out); rest != "" ==> !IsNumberChar(rest[0])
    decreases |s|
  {
    if s == "" || !IsNumberChar(s[0]) {
    } else {
      NumberTakes(s[1..], out + [s[0]]);
    }
  }

  function ParseNumber(s: string): (r: Option<(Value, string)>)
    ensures r.Some? && s != "" && IsNumberChar(s[0]) ==> |r.value.1| < |s|
  {
    var (text, rest) := NumberText(s, "");
    NumberTakes(s, "");
    match NumberValue(text)
    case None => None
    case Some(v) => Some((v, rest))
  }

  function ParseStr(s: string): (r: Option<(Value, string)>)
    ensures r.Some? ==> |r.value.1| < |s|
  {
    match StringRest(s, "")
    case None => None
    case Some((x, rest)) => Some((Str(x), rest))
  }

  /** A value and the characters behind it; a value takes at least one character. */
  function ParseValue(s: string): (r: Option<(Value, string)>)
    ensures r.Some? ==> |r.value.1| < |s|
    decreases |s|, 0
  {
    var t := SkipWs(s);
    if t == "" then None
    else if IsDigit(t[0]) || t[0] == '-' then ParseNumber(t)
    else ParseBehind(t[0], t[1..])
  }

  /** A value that is no number, behind its first character. */
  function ParseBehind(c: char, s: string): (r: Option<(Value, string)>)
    ensures r.Some? ==> |r.value.1| <= |s|
    decreases |s|, 4
  {
    if c == 'n' then Literal(s, "ull", Null)
    else if c == 'f' then Literal(s, "alse", Bool(false))
    else if c == 't' then Literal(s, "rue", Bool(true))
    else if c == '"' then ParseStr(s)
    else if c == '[' then ParseArray(s)
    else if c == '{' then ParseObject(s)
    else None
  }

  function ParseArray(s: string): (r: Option<(Value, string)>)
    ensures r.Some? ==> |r.value.1| < |s|
    decreases |s|, 2
  {
    match Expect(s, ']')
    case Some(rest) => Some((Arr([]), rest))
    case None => ParseItems(s, [])
  }

  /** One or more items and the bracket behind them, after `items` have been read. */
  function ParseItems(s: string, items: seq<Value>): (r: Option<(Value, string)>)
    ensures r.Some? ==> |r.value.1| < |s|
    decreases |s|, 1
  {
    match ParseValue(s)
    case None => None
    case Some((v, t)) =>
      match Expect(t, ',')
      case Some(rest) => ParseItems(rest, items + [v])
      case None =>
        match Expect(t, ']')
        case None => None
        case Some(rest) => Some((Arr(items + [v]), rest))
  }

  function ParseObject(s: string): (r: Option<(Value, string)>)
    ensures r.Some? ==> |r.value.1| < |s|
    decreases |s|, 3
  {
    match Expect(s, '}')
    case Some(rest) => Some((Obj([]), rest))
    case None => ParseMembers(s, [])
  }

  /** A key and the colon behind it. */
  function ParseKey(s: string): (r: Option<(string, string)>)
    ensures r.Some? ==> |r.value.1| < |s|
  {
    match Expect(s, '"')
    case None => None
    case Some(t) =>
      match StringRest(t, "")
      case None => None
      case Some((key, u)) =>
        match Expect(u, ':')
        case None => None
        case Some(rest) => Some((key, rest))
  }

  function ParseMember(s: string): (r: Option<(Member, string)>)
    ensures r.Some? ==> |r.value.1| < |s|
    decreases |s|, 1
  {
    match ParseKey(s)
    case None => None
    case Some((key, t)) =>
      match ParseValue(t)
      case None => None
      case Some((v, u)) => Some((Member(key, v), u))
  }

  /** One or more members and the brace behind them, after `members` have been read. */
  function ParseMembers(s: string, members: seq<Member>): (r: Option<(Value, string)>)
    ensures r.Some? ==> |r.value.1| < |s|
    decreases |s|, 2
  {
    match ParseMember(s)
    case None => None
    case Some((m, t)) =>
      match Expect(t, ',')
      case Some(rest) => ParseMembers(rest, Insert(members, m.key, m.value))
      case None =>
        match Expect(t, '}')
        case None => None
        case Some(rest) => Some((Obj(Insert(members, m.key, m.value)), rest))
  }
}
