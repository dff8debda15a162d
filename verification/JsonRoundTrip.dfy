/** Parsing what the printer wrote gives the value back, and every scalar value can be escaped. */
module JsonRoundTrip {
  import opened Wrappers
  import opened JsonValue
  import opened JsonGrammar
  import opened Seqs
  import opened Utf8

  // ---------------------------------------------------------------------------------------------
  // Strings
  // ---------------------------------------------------------------------------------------------

  /** Four hexadecimal digits. */
  function QuadText(n: nat): string
    requires n < 0x10000
  {
    [Hex(n / 0x1000), Hex(n / 0x100 % 0x10), Hex(n / 0x10 % 0x10), Hex(n % 0x10)]
  }

  lemma HexReads(d: nat)
    requires d < 16
    ensures HexValue(Hex(d)) == Some(d)
  {
  }

  /** Digits are read in both cases, and nothing else is. */
  lemma HexBothCases(c: char, d: nat)
    ensures HexValue(c) == Some(d) <==> d < 16 && (c == Hex(d) || (d >= 10 && c == ('A' as int + (d - 10)) as char))
  {
  }

  lemma QuadReads(a: nat, b: nat, c: nat, d: nat, rest: string)
    requires a < 16 && b < 16 && c < 16 && d < 16
    ensures Quad([Hex(a), Hex(b), Hex(c), Hex(d)] + rest, 4, 0) == Some((((a * 16 + b) * 16 + c) * 16 + d, rest))
  {
    var s := [Hex(a), Hex(b), Hex(c), Hex(d)] + rest;
    HexReads(a);
    HexReads(b);
    HexReads(c);
    HexReads(d);
    QuadNext(s, 4, 0);
    QuadNext(s[1..], 3, a);
    QuadNext(s[1..][1..], 2, a * 16 + b);
    QuadNext(s[1..][1..][1..], 1, (a * 16 + b) * 16 + c);
    assert s[1..][1..][1..][1..] == rest;
  }

  lemma QuadTextReads(n: nat, rest: string)
    requires n < 0x10000
    ensures Quad(QuadText(n) + rest, 4, 0) == Some((n, rest))
  {
    var a, b, c, d := n / 0x1000, n / 0x100 % 0x10, n / 0x10 % 0x10, n % 0x10;
    assert (n / 0x100) / 0x10 == a && (n / 0x10) / 0x10 == n / 0x100;
    QuadReads(a, b, c, d, rest);
  }

  /** The escape of a scalar value: four digits, or a surrogate pair. */
  function EscapeOf(u: nat): string
    requires IsScalar(u)
  {
    if u < 0x10000 then QuadText(u)
    else QuadText(0xd800 + (u - 0x10000) / 0x400) + ['\\', 'u'] + QuadText(0xdc00 + (u - 0x10000) % 0x400)
  }

  lemma PairReads(first: nat, second: nat, rest: string)
    requires 0xd800 <= first < 0xdc00 && 0xdc00 <= second < 0xe000
    ensures Codepoint(QuadText(first) + (['\\', 'u'] + (QuadText(second) + rest))) ==
      Some((FromPair(first, second), rest))
  {
    var t := ['\\', 'u'] + (QuadText(second) + rest);
    QuadTextReads(first, t);
    assert t[2..] == QuadText(second) + rest;
    QuadTextReads(second, rest);
  }

  lemma PairEscape(first: nat, second: nat)
    requires 0xd800 <= first < 0xdc00 && 0xdc00 <= second < 0xe000
    ensures IsScalar(FromPair(first, second)) &&
      EscapeOf(FromPair(first, second)) == QuadText(first) + ['\\', 'u'] + QuadText(second)
  {
  }

  lemma PairRegroups(x: string, y: string, rest: string)
    ensures x + ['\\', 'u'] + y + rest == x + (['\\', 'u'] + (y + rest))
  {
  }

  /** Every scalar value has an escape that is accepted and denotes it. */
  lemma EveryScalarHasEscape(u: nat, rest: string)
    requires IsScalar(u)
    ensures Codepoint(EscapeOf(u) + rest) == Some((u, rest))
  {
    if u < 0x10000 {
      QuadTextReads(u, rest);
    } else {
      var first, second := PairOf(u);
      PairReads(first, second, rest);
      PairEscape(first, second);
      PairRegroups(QuadText(first), QuadText(second), rest);
    }
  }

  /** One printed character reads back. */
  lemma EscapeReads(c: char, t: string, out: string)
    ensures StringRest(Escape(c) + t, out) == StringRest(t, out + [c])
  {
    var s := Escape(c) + t;
    if |Escape(c)| == 1 {
      assert s[0] == c && s[1..] == t;
    } else {
      assert s[0] == '\\' && s[1..] == Escape(c)[1..] + t;
      if |Escape(c)| == 2 { ShortReads(c, t); } else { ControlReads(c, t); }
    }
  }

  lemma ShortReads(c: char, t: string)
    requires |Escape(c)| == 2
    ensures EscapeRest(Escape(c)[1..] + t) == Some(([c], t))
  {
    var s := Escape(c)[1..] + t;
    assert s[0] == Escape(c)[1] && s[1..] == t;
    assert Unescaped(s[0]) == Some(c);
  }

  lemma ControlReads(c: char, t: string)
    requires |Escape(c)| > 2
    ensures EscapeRest(Escape(c)[1..] + t) == Some(([c], t))
  {
    var s, a, b := Escape(c)[1..] + t, c as int / 16, c as int % 16;
    assert s[1..] == [Hex(0), Hex(0), Hex(a), Hex(b)] + t && s[0] == 'u';
    QuadReads(0, 0, a, b, t);
    assert Codepoint(s[1..]) == Some((c as int, t));
    assert Encoded(c as int) == [c];
  }

  lemma EscapedFirst(s: string, t: string)
    requires s != ""
    ensures Escaped(s) + t == Escape(s[0]) + (Escaped(s[1..]) + t)
  {
    Assoc(Escape(s[0]), Escaped(s[1..]), t);
  }

  lemma Assoc5(a: string, b: string, c: string, d: string, e: string)
    ensures a + b + c + d + e == a + (b + (c + (d + e)))
  {
    Assoc(a + b + c, d, e);
    Assoc(a + b, c, d + e);
    Assoc(a, b, c + (d + e));
  }

  lemma FirstAppended(out: string, s: string)
    requires s != ""
    ensures out + [s[0]] + s[1..] == out + s
  {
  }

  lemma CloseReads(rest: string, out: string)
    ensures StringRest(Escaped("") + (['"'] + rest), out) == Some((out + "", rest))
  {
    var t := ['"'] + rest;
    assert Escaped("") + t == t && t[1..] == rest && out + "" == out;
  }

  /** A printed string reads back. */
  lemma {:induction false} StringReads(s: string, rest: string, out: string)
    ensures StringRest(Escaped(s) + (['"'] + rest), out) == Some((out + s, rest))
    decreases |s|
  {
    if s == "" {
      CloseReads(rest, out);
    } else {
      var t := ['"'] + rest;
      StringReads(s[1..], rest, out + [s[0]]);
      EscapedFirst(s, t);
      EscapeReads(s[0], Escaped(s[1..]) + t, out);
      FirstAppended(out, s);
    }
  }

  // ---------------------------------------------------------------------------------------------
  // Numbers
  // ---------------------------------------------------------------------------------------------

  lemma DigitAppended(t: string, d: nat)
    requires AllDigits(t) && d < 10
    ensures var s := t + [('0' as int + d) as char]; AllDigits(s) && NatValue(s) == NatValue(t) * 10 + d
  {
    var s := t + [('0' as int + d) as char];
    assert s[..|s| - 1] == t;
  }

  lemma {:induction false} NatTextReads(n: nat)
    ensures NatText(n) != "" && AllDigits(NatText(n)) && NatValue(NatText(n)) == n
    decreases n
  {
    if n >= 10 {
      NatTextReads(n / 10);
      DigitAppended(NatText(n / 10), n % 10);
    } else {
      DigitAppended("", n % 10);
    }
  }

  lemma IntTextIs(n: int)
    ensures IsInteger(IntText(n)) && IntValue(IntText(n)) == n
  {
    if n < 0 {
      NatTextReads(-n);
      assert IntText(n)[1..] == NatText(-n);
    } else {
      NatTextReads(n);
      assert IsDigit(NatText(n)[0]);
    }
  }

  lemma IntTextReads(n: int)
    requires -EXACT < n < EXACT
    ensures IntText(n) != "" && NumberValue(IntText(n)) == Some(Num(n))
  {
    IntTextIs(n);
  }

  lemma IntTextChars(n: int)
    ensures IntText(n) != "" && (IntText(n)[0] == '-' || IsDigit(IntText(n)[0]))
    ensures forall i: nat :: i < |IntText(n)| ==> IsNumberChar(IntText(n)[i])
  {
    NatTextReads(if n < 0 then -n else n);
    DigitsAreNumberChars(NatText(if n < 0 then -n else n));
  }

  lemma DigitsAreNumberChars(t: string)
    requires AllDigits(t)
    ensures forall i: nat :: i < |t| ==> IsNumberChar(t[i])
    ensures forall i: nat :: i < |['-'] + t| ==> IsNumberChar((['-'] + t)[i])
  {
    forall i: nat | i < |['-'] + t| ensures IsNumberChar((['-'] + t)[i]) {
      if i > 0 { assert (['-'] + t)[i] == t[i - 1]; }
    }
  }

  /** What may follow a number. */
  predicate Ends(rest: string) { rest == "" || !IsNumberChar(rest[0]) }

  lemma {:induction false} NumberTextStops(text: string, rest: string, out: string)
    requires (forall i: nat :: i < |text| ==> IsNumberChar(text[i])) && Ends(rest)
    ensures NumberText(text + rest, out) == (out + text, rest)
    decreases |text|
  {
    if text == "" {
      assert text + rest == rest && out + text == out;
    } else {
      assert (text + rest)[1..] == text[1..] + rest;
      NumberTextStops(text[1..], rest, out + [text[0]]);
      assert out + [text[0]] + text[1..] == out + text;
    }
  }

  // ---------------------------------------------------------------------------------------------
  // Blanks
  // ---------------------------------------------------------------------------------------------

  predicate AllWs(w: string) { forall i: nat :: i < |w| ==> IsWs(w[i]) }

  predicate Solid(t: string) { t != "" && !IsWs(t[0]) }

  lemma {:induction false} SkipRun(w: string, t: string)
    requires AllWs(w) && (t == "" || Solid(t))
    ensures SkipWs(w + t) == t
    decreases |w|
  {
    if w == "" {
      assert w + t == t;
    } else {
      assert (w + t)[1..] == w[1..] + t;
      SkipRun(w[1..], t);
    }
  }

  lemma BreakIsWs(indent: int)
    requires indent >= -1
    ensures AllWs(Break(indent))
  {
  }

  lemma ParseSkips(w: string, t: string)
    requires AllWs(w) && Solid(t)
    ensures ParseValue(w + t) == ParseValue(t)
  {
    SkipRun(w, t);
    SkipRun("", t);
    assert "" + t == t;
  }

  lemma ExpectReads(w: string, c: char, rest: string, d: char)
    requires AllWs(w) && !IsWs(c)
    ensures Expect(w + ([c] + rest), d) == if c == d then Some(rest) else None
  {
    SkipRun(w, [c] + rest);
  }

  /** How the text of a value starts. */
  lemma TextStarts(v: Value, indent: int)
    requires Printable(v) && indent >= -1
    ensures var t := Text(v, indent); Solid(t) && t[0] != ',' && t[0] != ']' && t[0] != '}'
  {
    if v.Num? { IntTextChars(v.n); }
  }

  // ---------------------------------------------------------------------------------------------
  // Values
  // ---------------------------------------------------------------------------------------------

  /** The text of a value, in front of anything that does not go on with a number, reads back. */
  lemma {:induction false} TextReads(v: Value, indent: int, rest: string)
    requires Printable(v) && indent >= -1 && Ends(rest)
    ensures ParseValue(Text(v, indent) + rest) == Some((v, rest))
    decreases v
  {
    match v
    case Arr(_) => ArrayReads(v, indent, rest);
    case Obj(_) => ObjectReads(v, indent, rest);
    case _ => AtomReads(v, indent, rest);
  }

  lemma LiteralReads(text: string, v: Value, rest: string)
    requires (text == "null" && v == Null) || (text == "true" && v == Bool(true)) || (text == "false" &&
      v == Bool(false))
    ensures ParseValue(text + rest) == Some((v, rest))
  {
    var s := text + rest;
    assert s[0] == text[0] && SkipWs(s) == s;
    assert s[1..] == text[1..] + rest && (text[1..] + rest)[|text| - 1..] == rest;
    assert text[1..] == if text == "null" then "ull" else if text == "true" then "rue" else "alse";
  }

  lemma AtomReads(v: Value, indent: int, rest: string)
    requires Printable(v) && indent >= -1 && Ends(rest) && !v.Arr? && !v.Obj?
    ensures ParseValue(Text(v, indent) + rest) == Some((v, rest))
  {
    match v
    case Null => LiteralReads("null", v, rest);
    case Bool(b) => LiteralReads(if b then "true" else "false", v, rest);
    case Num(n) => NumReads(n, rest);
    case Str(x) => StrReads(x, rest);
  }

  lemma NumReads(n: int, rest: string)
    requires -EXACT < n < EXACT && Ends(rest)
    ensures ParseValue(IntText(n) + rest) == Some((Num(n), rest))
  {
    var text := IntText(n);
    IntTextReads(n);
    IntTextChars(n);
    NumberTextStops(text, rest, "");
    NothingInFront(text);
    NumberReads(text, rest, Num(n));
  }

  lemma NumberReads(text: string, rest: string, v: Value)
    requires text != "" && (text[0] == '-' || IsDigit(text[0]))
    requires NumberText(text + rest, "") == (text, rest) && NumberValue(text) == Some(v)
    ensures ParseValue(text + rest) == Some((v, rest))
  {
    var s := text + rest;
    assert s[0] == text[0] && SkipWs(s) == s;
  }

  lemma QuoteReads(body: string, x: string, rest: string)
    requires StringRest(body, "") == Some((x, rest))
    ensures ParseValue(['"'] + body) == Some((Str(x), rest))
  {
    var s := ['"'] + body;
    assert s[1..] == body && SkipWs(s) == s;
  }

  lemma StrReads(x: string, rest: string)
    ensures ParseValue(StringText(x) + rest) == Some((Str(x), rest))
  {
    var close: string := ['"'];
    StringReads(x, rest, "");
    NothingInFront(x);
    QuoteReads(Escaped(x) + (close + rest), x, rest);
    Assoc(close + Escaped(x), close, rest);
    Assoc(close, Escaped(x), close + rest);
  }

  /** What the parser does behind an opening bracket or brace. */
  lemma OpenReads(c: char, body: string, s: string)
    requires s == [c] + body && (c == '[' || c == '{')
    ensures ParseValue(s) == if c == '[' then ParseArray(body) else ParseObject(body)
  {
    assert s[0] == c && s[1..] == body && SkipWs(s) == s;
  }

  /** What follows an item or a member: the ones behind it, and the closing bracket. */
  function Behind(v: Value, i: nat, indent: int, rest: string): string
    requires Printable(v) && indent >= -1 && (v.Arr? || v.Obj?) && i <= if v.Arr? then |v.items| else |v.members|
  {
    if v.Arr? then ItemsText(v, i, Deeper(indent)) + (Break(indent) + ([']'] + rest))
    else MembersText(v, i, Deeper(indent)) + (Break(indent) + (['}'] + rest))
  }

  /** The i-th item without the comma in front, and what follows it. */
  function FromItem(v: Value, i: nat, indent: int, rest: string): string
    requires Printable(v) && indent >= -1 && v.Arr? && i < |v.items|
  {
    Break(Deeper(indent)) + (Text(v.items[i], Deeper(indent)) + Behind(v, i + 1, indent, rest))
  }

  lemma ItemBehind(v: Value, i: nat, indent: int, rest: string)
    requires Printable(v) && indent >= -1 && v.Arr? && i < |v.items|
    ensures Behind(v, i, indent, rest) == Comma(i) + FromItem(v, i, indent, rest)
  {
    var inner, tail := Deeper(indent), Break(indent) + ([']'] + rest);
    var y := ItemsText(v, i + 1, inner);
    assert ItemsText(v, i, inner) == ItemText(v, i, inner) + y;
    Assoc5(Comma(i), Break(inner), Text(v.items[i], inner), y, tail);
  }

  /** The comma or the bracket behind an item. */
  lemma BehindItem(v: Value, i: nat, indent: int, rest: string)
    requires Printable(v) && indent >= -1 && v.Arr? && i <= |v.items|
    ensures var x := Behind(v, i, indent, rest);
      if i == |v.items| then Expect(x, ',') == None && Expect(x, ']') == Some(rest)
      else i > 0 ==> Expect(x, ',') == Some(FromItem(v, i, indent, rest))
    ensures i > 0 ==> Ends(Behind(v, i, indent, rest))
  {
    BreakIsWs(indent);
    if i == |v.items| {
      assert Behind(v, i, indent, rest) == Break(indent) + ([']'] + rest);
      ExpectReads(Break(indent), ']', rest, ']');
      ExpectReads(Break(indent), ']', rest, ',');
    } else if i > 0 {
      ItemBehind(v, i, indent, rest);
      var y := FromItem(v, i, indent, rest);
      assert Behind(v, i, indent, rest) == "" + ([','] + y);
      ExpectReads("", ',', y, ',');
    }
  }

  lemma ArrayReads(v: Value, indent: int, rest: string)
    requires Printable(v) && v.Arr? && indent >= -1
    ensures ParseValue(Text(v, indent) + rest) == Some((v, rest))
    decreases v, |v.items| + 1
  {
    ArrayTextIs(v, indent, rest);
    OpenReads('[', if v.items == [] then [']'] + rest else FromItem(v, 0, indent, rest), Text(v, indent) + rest);
    if v.items == [] {
      ExpectReads("", ']', rest, ']');
      assert "" + ([']'] + rest) == [']'] + rest;
    } else {
      NoCloseYet(v, indent, rest);
      ItemsRead(v, 0, indent, rest);
      assert v.items[..0] == [];
    }
  }

  lemma ArrayTextIs(v: Value, indent: int, rest: string)
    requires Printable(v) && v.Arr? && indent >= -1
    ensures Text(v, indent) + rest == ['['] + if v.items == [] then [']'] + rest else FromItem(v, 0, indent, rest)
  {
    var inner := Deeper(indent);
    var text := ItemsText(v, 0, inner);
    var end := if v.items == [] then "" else Break(indent);
    assert Text(v, indent) == ['['] + text + end + [']'];
    Assoc5(['['], text, end, [']'], rest);
    if v.items != [] {
      ItemBehind(v, 0, indent, rest);
      NothingInFront(FromItem(v, 0, indent, rest));
    } else {
      NothingInFront([']'] + rest);
    }
  }

  lemma NoCloseYet(v: Value, indent: int, rest: string)
    requires Printable(v) && v.Arr? && v.items != [] && indent >= -1
    ensures Expect(FromItem(v, 0, indent, rest), ']') == None
  {
    var x := Text(v.items[0], Deeper(indent)) + Behind(v, 1, indent, rest);
    TextStarts(v.items[0], Deeper(indent));
    BreakIsWs(Deeper(indent));
    ExpectReads(Break(Deeper(indent)), x[0], x[1..], ']');
    assert [x[0]] + x[1..] == x;
  }

  lemma {:induction false} ItemsRead(v: Value, i: nat, indent: int, rest: string)
    requires Printable(v) && v.Arr? && i < |v.items| && indent >= -1
    ensures ParseItems(FromItem(v, i, indent, rest), v.items[..i]) == Some((v, rest))
    decreases v, |v.items| - i
  {
    BehindItem(v, i + 1, indent, rest);
    if i + 1 == |v.items| {
    } else {
      ItemsRead(v, i + 1, indent, rest);
    }
    ItemReads(v, i, indent, rest);
    ItemsStep(FromItem(v, i, indent, rest), v.items[..i], v.items[i], Behind(v, i + 1, indent, rest));
    NextItem(v.items, i);
    assert v.items[..|v.items|] == v.items;
  }

  lemma NextItem(items: seq<Value>, i: nat)
    requires i < |items|
    ensures items[..i] + [items[i]] == items[..i + 1]
  {
  }

  /** One round of the loop over the items. */
  lemma ItemsStep(s: string, before: seq<Value>, v: Value, x: string)
    requires ParseValue(s) == Some((v, x))
    ensures Expect(x, ',').Some? ==> ParseItems(s, before) == ParseItems(Expect(x, ',').value, before + [v])
    ensures Expect(x, ',').None? && Expect(x, ']').Some? ==>
      ParseItems(s, before) == Some((Arr(before + [v]), Expect(x, ']').value))
  {
  }

  lemma ItemReads(v: Value, i: nat, indent: int, rest: string)
    requires Printable(v) && v.Arr? && i < |v.items| && indent >= -1 && Ends(Behind(v, i + 1, indent, rest))
    ensures ParseValue(FromItem(v, i, indent, rest)) == Some((v.items[i], Behind(v, i + 1, indent, rest)))
    decreases v, 0
  {
    var inner, x := Deeper(indent), Behind(v, i + 1, indent, rest);
    TextReads(v.items[i], inner, x);
    TextStarts(v.items[i], inner);
    BreakIsWs(inner);
    ParseSkips(Break(inner), Text(v.items[i], inner) + x);
  }

  function Blank(indent: int): string { if indent == -1 then "" else [' '] }

  /** A printed key reads back. */
  lemma KeyReads(key: string, indent: int, w: string, t: string)
    requires AllWs(w)
    ensures ParseKey(w + (KeyText(key, indent) + t)) == Some((key, Blank(indent) + t))
  {
    var u := Blank(indent) + t;
    var x := Escaped(key) + (['"'] + ([':'] + u));
    assert KeyText(key, indent) + t == ['"'] + x;
    ExpectReads(w, '"', x, '"');
    StringReads(key, [':'] + u, "");
    assert "" + key == key;
    ExpectReads("", ':', u, ':');
    assert "" + ([':'] + u) == [':'] + u;
  }

  /** The i-th member without the comma in front, and what follows it. */
  function FromMember(v: Value, i: nat, indent: int, rest: string): string
    requires Printable(v) && indent >= -1 && v.Obj? && i < |v.members|
  {
    Break(Deeper(indent)) + (KeyText(v.members[i].key, Deeper(indent)) + FromMemberValue(v, i, indent, rest))
  }

  function FromMemberValue(v: Value, i: nat, indent: int, rest: string): string
    requires Printable(v) && indent >= -1 && v.Obj? && i < |v.members|
  {
    Text(v.members[i].value, Deeper(indent)) + Behind(v, i + 1, indent, rest)
  }

  lemma MemberBehind(v: Value, i: nat, indent: int, rest: string)
    requires Printable(v) && indent >= -1 && v.Obj? && i < |v.members|
    ensures Behind(v, i, indent, rest) == Comma(i) + FromMember(v, i, indent, rest)
  {
    var inner, tail := Deeper(indent), Break(indent) + (['}'] + rest);
    var k, x, y := KeyText(v.members[i].key, inner), Text(v.members[i].value, inner), MembersText(v, i + 1, inner);
    assert MembersText(v, i, inner) == MemberText(v, i, inner) + y;
    Assoc5(Comma(i) + Break(inner), k, x, y, tail);
    Assoc(Comma(i), Break(inner), k + (x + (y + tail)));
  }

  /** The comma or the brace behind a member. */
  lemma BehindMember(v: Value, i: nat, indent: int, rest: string)
    requires Printable(v) && indent >= -1 && v.Obj? && i <= |v.members|
    ensures var x := Behind(v, i, indent, rest);
      if i == |v.members| then Expect(x, ',') == None && Expect(x, '}') == Some(rest)
      else i > 0 ==> Expect(x, ',') == Some(FromMember(v, i, indent, rest))
    ensures i > 0 ==> Ends(Behind(v, i, indent, rest))
  {
    BreakIsWs(indent);
    if i == |v.members| {
      assert Behind(v, i, indent, rest) == Break(indent) + (['}'] + rest);
      ExpectReads(Break(indent), '}', rest, '}');
      ExpectReads(Break(indent), '}', rest, ',');
    } else if i > 0 {
      MemberBehind(v, i, indent, rest);
      var y := FromMember(v, i, indent, rest);
      assert Behind(v, i, indent, rest) == "" + ([','] + y);
      ExpectReads("", ',', y, ',');
    }
  }

  lemma ObjectReads(v: Value, indent: int, rest: string)
    requires Printable(v) && v.Obj? && indent >= -1
    ensures ParseValue(Text(v, indent) + rest) == Some((v, rest))
    decreases v, |v.members| + 1
  {
    ObjectTextIs(v, indent, rest);
    OpenReads('{', if v.members == [] then ['}'] + rest else FromMember(v, 0, indent, rest), Text(v, indent) + rest);
    if v.members == [] {
      ExpectReads("", '}', rest, '}');
      assert "" + (['}'] + rest) == ['}'] + rest;
    } else {
      NoBraceYet(v, indent, rest);
      MembersRead(v, 0, indent, rest);
      assert v.members[..0] == [];
    }
  }

  lemma ObjectTextIs(v: Value, indent: int, rest: string)
    requires Printable(v) && v.Obj? && indent >= -1
    ensures Text(v, indent) + rest == ['{'] + if v.members == [] then ['}'] + rest else FromMember(v, 0, indent, rest)
  {
    var inner := Deeper(indent);
    var text := MembersText(v, 0, inner);
    var end := if v.members == [] then "" else Break(indent);
    assert Text(v, indent) == ['{'] + text + end + ['}'];
    Assoc5(['{'], text, end, ['}'], rest);
    if v.members != [] {
      MemberBehind(v, 0, indent, rest);
      NothingInFront(FromMember(v, 0, indent, rest));
    } else {
      NothingInFront(['}'] + rest);
    }
  }

  lemma NoBraceYet(v: Value, indent: int, rest: string)
    requires Printable(v) && v.Obj? && v.members != [] && indent >= -1
    ensures Expect(FromMember(v, 0, indent, rest), '}') == None
  {
    var x := KeyText(v.members[0].key, Deeper(indent)) + FromMemberValue(v, 0, indent, rest);
    BreakIsWs(Deeper(indent));
    ExpectReads(Break(Deeper(indent)), x[0], x[1..], '}');
    assert [x[0]] + x[1..] == x;
  }

  lemma {:induction false} MembersRead(v: Value, i: nat, indent: int, rest: string)
    requires Printable(v) && v.Obj? && i < |v.members| && indent >= -1
    ensures ParseMembers(FromMember(v, i, indent, rest), v.members[..i]) == Some((v, rest))
    decreases v, |v.members| - i
  {
    BehindMember(v, i + 1, indent, rest);
    MemberReads(v, i, indent, rest);
    NextInserted(v.members, i);
    var s, m, x := FromMember(v, i, indent, rest), v.members[i], Behind(v, i + 1, indent, rest);
    if i + 1 < |v.members| {
      MembersRead(v, i + 1, indent, rest);
      MembersGoOn(s, v.members[..i], m, x, FromMember(v, i + 1, indent, rest), v.members[..i + 1]);
    } else {
      assert v.members[..i + 1] == v.members;
      MembersEnd(s, v.members[..i], m, x, rest, v.members);
    }
  }

  lemma NextInserted(m: seq<Member>, i: nat)
    requires Sorted(m) && i < |m|
    ensures Insert(m[..i], m[i].key, m[i].value) == m[..i + 1]
  {
    InsertLast(m[..i], m[i].key, m[i].value);
    assert m[..i] + [Member(m[i].key, m[i].value)] == m[..i + 1];
  }

  /** One round of the loop over the members, which goes on or ends. */
  lemma MembersGoOn(s: string, before: seq<Member>, m: Member, x: string, next: string, after: seq<Member>)
    requires ParseMember(s) == Some((m, x)) && Expect(x, ',') == Some(next) && Insert(before, m.key, m.value) == after
    ensures ParseMembers(s, before) == ParseMembers(next, after)
  {
  }

  lemma MembersEnd(s: string, before: seq<Member>, m: Member, x: string, rest: string, after: seq<Member>)
    requires ParseMember(s) == Some((m, x)) && Expect(x, ',') == None && Expect(x, '}') == Some(rest)
    requires Insert(before, m.key, m.value) == after
    ensures ParseMembers(s, before) == Some((Obj(after), rest))
  {
  }

  lemma MemberReads(v: Value, i: nat, indent: int, rest: string)
    requires Printable(v) && v.Obj? && i < |v.members| && indent >= -1 && Ends(Behind(v, i + 1, indent, rest))
    ensures ParseMember(FromMember(v, i, indent, rest)) == Some((v.members[i], Behind(v, i + 1, indent, rest)))
    decreases v, 0
  {
    var inner, m := Deeper(indent), v.members[i];
    var x := Blank(inner) + FromMemberValue(v, i, indent, rest);
    BreakIsWs(inner);
    KeyReads(m.key, inner, Break(inner), FromMemberValue(v, i, indent, rest));
    TextReads(m.value, inner, Behind(v, i + 1, indent, rest));
    TextStarts(m.value, inner);
    ParseSkips(Blank(inner), FromMemberValue(v, i, indent, rest));
    KeyThenValue(FromMember(v, i, indent, rest), m, x, Behind(v, i + 1, indent, rest));
  }

  lemma KeyThenValue(s: string, m: Member, t: string, rest: string)
    requires ParseKey(s) == Some((m.key, t)) && ParseValue(t) == Some((m.value, rest))
    ensures ParseMember(s) == Some((m, rest))
  {
  }

  /** Parsing the serialised text of a value gives the value back, compact or pretty-printed. In front of
      other text it does so too, unless that goes on with a number. */
  lemma RoundTrip(v: Value, pretty: bool, rest: string)
    requires Printable(v) && (pretty || Ends(rest))
    ensures ParseValue(Serialized(v, pretty) + rest) == Some((v, if pretty then ['\n'] + rest else rest))
  {
    if pretty {
      assert Serialized(v, true) + rest == Text(v, 0) + (['\n'] + rest);
      TextReads(v, 0, ['\n'] + rest);
    } else {
      TextReads(v, -1, rest);
    }
  }

  /** Different values never print the same text, whatever the modes. */
  lemma TextsDiffer(v: Value, w: Value, prettyV: bool, prettyW: bool)
    requires Printable(v) && Printable(w) && Serialized(v, prettyV) == Serialized(w, prettyW)
    ensures v == w
  {
    RoundTrip(v, prettyV, "");
    RoundTrip(w, prettyW, "");
  }

  // ---------------------------------------------------------------------------------------------
  // What the parser builds
  // ---------------------------------------------------------------------------------------------

  predicate NoOtherNumbers(v: Value)
    decreases v
  {
    match v
    case Flt(_) => false
    case Arr(items) => forall i: nat :: i < |items| ==> NoOtherNumbers(items[i])
    case Obj(ms) => forall i: nat :: i < |ms| ==> NoOtherNumbers(ms[i].value)
    case _ => true
  }

  /** At any depth, objects are in map order and the integers are exact. */
  predicate Sound(v: Value)
    decreases v
  {
    match v
    case Num(n) => -EXACT < n < EXACT
    case Arr(items) => forall i: nat :: i < |items| ==> Sound(items[i])
    case Obj(ms) => Sorted(ms) && forall i: nat :: i < |ms| ==> Sound(ms[i].value)
    case _ => true
  }

  /** Such a value can be printed unless it holds a number that is kept by its text. */
  lemma {:induction false} SoundIsPrintable(v: Value)
    requires Sound(v)
    ensures Printable(v) <==> NoOtherNumbers(v)
    decreases v
  {
    match v
    case Arr(items) =>
      forall i: nat | i < |items| ensures Printable(items[i]) <==> NoOtherNumbers(items[i]) {
        SoundIsPrintable(items[i]);
      }
    case Obj(ms) =>
      forall i: nat | i < |ms| ensures Printable(ms[i].value) <==> NoOtherNumbers(ms[i].value) {
        SoundIsPrintable(ms[i].value);
      }
    case _ =>
  }

  predicate SoundItems(items: seq<Value>) { forall i: nat :: i < |items| ==> Sound(items[i]) }

  predicate SoundMembers(ms: seq<Member>) { Sorted(ms) && forall i: nat :: i < |ms| ==> Sound(ms[i].value) }

  /** Objects come out in map order, however their members were written and even if keys repeat. */
  lemma {:induction false} ParsedIsSound(s: string)
    requires ParseValue(s).Some?
    ensures Sound(ParseValue(s).value.0)
    decreases |s|, 0
  {
    var t := SkipWs(s);
    if IsDigit(t[0]) || t[0] == '-' {
      NumberIsSound(NumberText(t, "").0);
    } else if t[0] == '[' {
      assert ParseBehind('[', t[1..]) == ParseArray(t[1..]);
      if Expect(t[1..], ']').None? { ItemsAreSound(t[1..], []); }
    } else if t[0] == '{' {
      assert ParseBehind('{', t[1..]) == ParseObject(t[1..]);
      if Expect(t[1..], '}').None? { MembersAreSound(t[1..], []); }
    }
  }

  lemma NumberIsSound(text: string)
    requires NumberValue(text).Some?
    ensures Sound(NumberValue(text).value)
  {
  }

  lemma {:induction false} ItemsAreSound(s: string, items: seq<Value>)
    requires ParseItems(s, items).Some? && SoundItems(items)
    ensures Sound(ParseItems(s, items).value.0)
    decreases |s|, 1
  {
    ParsedIsSound(s);
    var (v, t) := ParseValue(s).value;
    assert SoundItems(items + [v]);
    if Expect(t, ',').None? {
    } else {
      ItemsAreSound(Expect(t, ',').value, items + [v]);
    }
  }

  lemma {:induction false} MembersAreSound(s: string, ms: seq<Member>)
    requires ParseMembers(s, ms).Some? && SoundMembers(ms)
    ensures Sound(ParseMembers(s, ms).value.0)
    decreases |s|, 1
  {
    var (m, t) := ParseMember(s).value;
    ParsedIsSound(ParseKey(s).value.1);
    InsertedIsSound(ms, m.key, m.value);
    if Expect(t, ',').None? {
    } else {
      MembersAreSound(Expect(t, ',').value, Insert(ms, m.key, m.value));
    }
  }

  lemma InsertedIsSound(ms: seq<Member>, key: string, v: Value)
    requires SoundMembers(ms) && Sound(v)
    ensures SoundMembers(Insert(ms, key, v))
  {
    InsertSorted(ms, key, v);
    InsertValues(ms, key, v);
  }

  lemma {:induction false} InsertValues(ms: seq<Member>, key: string, v: Value)
    requires Sound(v) && forall i: nat :: i < |ms| ==> Sound(ms[i].value)
    ensures forall i: nat :: i < |Insert(ms, key, v)| ==> Sound(Insert(ms, key, v)[i].value)
    decreases |ms|
  {
    if ms == [] || Less(key, ms[0].key) || ms[0].key == key {
    } else {
      forall i: nat | i < |ms[1..]| ensures Sound(ms[1..][i].value) { assert ms[1..][i] == ms[i + 1]; }
      InsertValues(ms[1..], key, v);
    }
  }

  /** What has been parsed from any text can be printed and parsed again without change. */
  lemma ReprintedIsSame(s: string, pretty: bool)
    requires ParseValue(s).Some? && NoOtherNumbers(ParseValue(s).value.0)
    ensures var v := ParseValue(s).value.0;
      Printable(v) && ParseValue(Serialized(v, pretty)) == Some((v, if pretty then ['\n'] else ""))
  {
    ParsedIsSound(s);
    var v := ParseValue(s).value.0;
    SoundIsPrintable(v);
    RoundTrip(v, pretty, "");
    NothingBehind(Serialized(v, pretty));
    NothingBehind(['\n']);
  }
}
