/** The parser over its cursor with one character of pushback. */
module JsonReader {
  import opened Wrappers
  import opened JsonValue
  import G = JsonGrammar
  import Utf8

  /** The newlines among the first n characters. */
  function Newlines(text: string, n: nat): nat
    requires n <= |text|
  {
    if n == 0 then 0 else Newlines(text, n - 1) + if text[n - 1] == '\n' then 1 else 0
  }

  predicate IsNumber(v: Value) { v.Num? || v.Flt? }

  class Input {
    const text: string
    var cur: nat
    var lastCh: Option<char>    // None stands for -1
    var ungot: bool
    var line: nat
    ghost var rest: string      // what is still to be read, a character pushed back first

    /** The line is 1 plus the newlines strictly before the last character fetched. */
    ghost predicate LineOk()
      reads this
    {
      cur <= |text| && line == 1 + Newlines(text, if cur == 0 then 0 else cur - 1)
    }

    /** The index of the next character to be read. */
    ghost function At(): int
      reads this
    {
      if ungot then cur - 1 else cur
    }

    ghost predicate Valid()
      reads this
    {
      && LineOk()
      && At() >= 0 && rest == text[At()..]
      && (if lastCh.Some? then cur > 0 && lastCh.value == text[cur - 1] else !ungot && (cur == 0 || cur == |text|))
    }

    constructor (text: string)
      ensures Valid() && this.text == text && rest == text && !ungot
    {
      this.text := text;
      cur, lastCh, ungot, line, rest := 0, None, false, 1, text;
    }

    method GetC() returns (ch: Option<char>)
      requires Valid()
      modifies this
      ensures Valid() && !ungot && ch == lastCh && (ch.None? ==> cur == |text|)
      ensures if old(rest) == "" then ch.None? && rest == ""
              else ch == Some(old(rest)[0]) && rest == old(rest)[1..]
      ensures cur >= old(cur)
    {
      if ungot {
        ungot := false;
        rest := rest[1..];
        return lastCh;
      }
      if cur == |text| {
        lastCh := None;
        return None;
      }
      if lastCh == Some('\n') {
        line := line + 1;
      }
      lastCh := Some(text[cur]);
      cur := cur + 1;
      rest := rest[1..];
      ch := lastCh;
    }

    /** Pushes the last character back; the source asserts that none is pushed back already. */
    method UngetC()
      requires Valid() && !ungot
      modifies this
      ensures Valid() && lastCh == old(lastCh) && cur == old(cur) && line == old(line)
      ensures if lastCh.Some? then ungot && rest == [lastCh.value] + old(rest) else !ungot && rest == old(rest)
    {
      if lastCh.Some? {
        ungot := true;
        rest := [lastCh.value] + rest;
      }
    }

    method SkipWs()
      requires Valid()
      modifies this
      ensures Valid() && rest == G.SkipWs(old(rest))
    {
      while true
        invariant Valid() && G.SkipWs(rest) == G.SkipWs(old(rest))
        decreases |rest|
      {
        var ch := GetC();
        if ch.None? || !G.IsWs(ch.value) {
          UngetC();
          break;
        }
      }
    }

    method Expect(c: char) returns (ok: bool)
      requires Valid()
      modifies this
      ensures Valid() && ok == G.Expect(old(rest), c).Some?
      ensures if ok then rest == G.Expect(old(rest), c).value && !ungot else rest == G.SkipWs(old(rest))
    {
      SkipWs();
      var ch := GetC();
      if ch != Some(c) {
        UngetC();
        return false;
      }
      ok := true;
    }

    method Match(pattern: string) returns (ok: bool)
      requires Valid() && !ungot
      modifies this
      ensures Valid() && ok == (pattern <= old(rest))
      ensures ok ==> rest == old(rest)[|pattern|..] && !ungot
    {
      ghost var s := rest;
      for i := 0 to |pattern|
        invariant Valid() && !ungot && Matched(s, pattern, i, rest)
      {
        ghost var before := rest;
        var ch := GetC();
        if ch != Some(pattern[i]) {
          NoMatch(s, pattern, i, before);
          UngetC();
          return false;
        }
        NextMatches(s, pattern, i, before);
      }
      AllMatch(s, pattern, rest);
      ok := true;
    }
  }

  /** The first i characters of the pattern have been found, and `t` is behind them. */
  predicate Matched(s: string, pattern: string, i: nat, t: string) { i <= |pattern| && s == pattern[..i] + t }

  lemma AllMatch(s: string, pattern: string, t: string)
    requires Matched(s, pattern, |pattern|, t)
    ensures pattern <= s && s[|pattern|..] == t
  {
  }

  lemma NextMatches(s: string, pattern: string, i: nat, t: string)
    requires i < |pattern| && Matched(s, pattern, i, t) && t != "" && t[0] == pattern[i]
    ensures Matched(s, pattern, i + 1, t[1..])
  {
  }

  lemma NoMatch(s: string, pattern: string, i: nat, t: string)
    requires i < |pattern| && Matched(s, pattern, i, t) && (t == "" || t[0] != pattern[i])
    ensures !(pattern <= s)
  {
    assert t != "" ==> s[i] == t[0];
  }

  /** One hexadecimal digit; another character is pushed back. */
  method ParseHex(inp: Input) returns (d: Option<nat>)
    requires inp.Valid()
    modifies inp
    ensures inp.Valid()
    ensures d == if old(inp.rest) == "" then None else G.HexValue(old(inp.rest)[0])
    ensures d.Some? ==> inp.rest == old(inp.rest)[1..] && !inp.ungot
  {
    var hex := inp.GetC();
    if hex.None? {
      return None;
    }
    d := G.HexValue(hex.value);
    if d.None? {
      inp.UngetC();
    }
  }

  /** None stands for -1. */
  method ParseQuadhex(inp: Input) returns (r: Option<nat>)
    requires inp.Valid()
    modifies inp
    ensures inp.Valid() && r.Some? == G.Quad(old(inp.rest), 4, 0).Some?
    ensures r.Some? ==> G.Quad(old(inp.rest), 4, 0).value == (r.value, inp.rest) && !inp.ungot
  {
    ghost var quad := G.Quad(inp.rest, 4, 0);
    var uniCh: nat := 0;
    for i := 0 to 4
      invariant inp.Valid() && G.Quad(inp.rest, 4 - i, uniCh) == quad
      invariant i > 0 ==> !inp.ungot
    {
      G.QuadNext(inp.rest, 4 - i, uniCh);
      var d := ParseHex(inp);
      if d.None? {
        return None;
      }
      uniCh := uniCh * 16 + d.value;
    }
    r := Some(uniCh);
  }

  /** The end of `_parse_codepoint`: one to four bytes. */
  method PushUtf8(out: string, uniCh: nat) returns (bytes: string)
    requires Utf8.IsScalar(uniCh)
    ensures bytes == out + Utf8.Encoded(uniCh)
  {
    bytes := out;
    if uniCh < 0x80 {
      bytes := bytes + [uniCh as char];
    } else {
      if uniCh < 0x800 {
        bytes := bytes + [(0xc0 + uniCh / 0x40) as char];
      } else {
        if uniCh < 0x10000 {
          bytes := bytes + [(0xe0 + uniCh / 0x1000) as char];
        } else {
          bytes := bytes + [(0xf0 + uniCh / 0x40000) as char];
          bytes := bytes + [Utf8.Tail(uniCh / 0x1000)];
        }
        bytes := bytes + [Utf8.Tail(uniCh / 0x40)];
      }
      bytes := bytes + [Utf8.Tail(uniCh)];
    }
  }

  /** The second half of a surrogate pair; the result is the code point of the pair. */
  method ParseSecond(first: nat, inp: Input) returns (r: Option<nat>)
    requires inp.Valid() && 0xd800 <= first < 0xdc00
    modifies inp
    ensures inp.Valid() && r.Some? == G.Second(old(inp.rest), first).Some?
    ensures r.Some? ==> G.Second(old(inp.rest), first).value == (r.value, inp.rest) && !inp.ungot
  {
    ghost var t := inp.rest;
    var ch := inp.GetC();
    if ch == Some('\\') {
      ch := inp.GetC();
    } else {
      inp.UngetC();
      return None;
    }
    if ch != Some('u') {
      inp.UngetC();
      return None;
    }
    assert t[1..][1..] == t[2..];
    var second := ParseQuadhex(inp);
    if second.None? || !(0xdc00 <= second.value <= 0xdfff) {
      return None;
    }
    r := Some(Utf8.FromPair(first, second.value));
  }

  method ParseCodepoint(out: string, inp: Input) returns (r: Option<string>)
    requires inp.Valid()
    modifies inp
    ensures inp.Valid() && r.Some? == G.Codepoint(old(inp.rest)).Some?
    ensures r.Some? ==>
      var (u, rest) := G.Codepoint(old(inp.rest)).value;
      Utf8.IsScalar(u) && r.value == out + Utf8.Encoded(u) && inp.rest == rest && !inp.ungot
  {
    ghost var s := inp.rest;
    var first := ParseQuadhex(inp);
    if first.None? {
      return None;
    }
    var uniCh := first.value;
    if 0xd800 <= uniCh <= 0xdfff {
      if 0xdc00 <= uniCh {
        return None;
      }
      var pair := ParseSecond(uniCh, inp);
      if pair.None? {
        return None;
      }
      uniCh := pair.value;
    }
    G.CodepointIsScalar(s);
    var bytes := PushUtf8(out, uniCh);
    r := Some(bytes);
  }

  /** An escape behind its backslash; the result is `out` with what it stands for. */
  method ParseEscape(out: string, inp: Input) returns (r: Option<string>)
    requires inp.Valid() && !inp.ungot
    modifies inp
    ensures inp.Valid() && r.Some? == G.EscapeRest(old(inp.rest)).Some?
    ensures r.Some? ==> var (bytes, rest) := G.EscapeRest(old(inp.rest)).value;
      r.value == out + bytes && inp.rest == rest && !inp.ungot
  {
    var ch := inp.GetC();
    if ch.None? {
      return None;
    }
    var plain := G.Unescaped(ch.value);
    if plain.Some? {
      r := Some(out + [plain.value]);
    } else if ch.value == 'u' {
      r := ParseCodepoint(out, inp);
    } else {
      r := None;
    }
  }

  /** The rest of a string behind its opening quote. */
  method ParseString(inp: Input) returns (r: Option<string>)
    requires inp.Valid()
    modifies inp
    ensures inp.Valid() && r.Some? == G.StringRest(old(inp.rest), "").Some?
    ensures r.Some? ==> G.StringRest(old(inp.rest), "").value == (r.value, inp.rest) && !inp.ungot
  {
    var out := "";
    while true
      invariant inp.Valid() && G.StringRest(inp.rest, out) == G.StringRest(old(inp.rest), "")
      decreases |inp.rest|
    {
      var ch := inp.GetC();
      if ch.None? || ch.value < ' ' {
        inp.UngetC();
        return None;
      } else if ch.value == '"' {
        return Some(out);
      } else if ch.value == '\\' {
        var more := ParseEscape(out, inp);
        if more.None? {
          return None;
        }
        out := more.value;
      } else {
        out := out + [ch.value];
      }
    }
  }

  method ParseNumber(inp: Input) returns (numStr: string)
    requires inp.Valid()
    modifies inp
    ensures inp.Valid() && (numStr, inp.rest) == G.NumberText(old(inp.rest), "")
    ensures inp.ungot <==> inp.rest != ""
  {
    numStr := "";
    while true
      invariant inp.Valid() && G.NumberText(inp.rest, numStr) == G.NumberText(old(inp.rest), "")
      decreases |inp.rest|
    {
      var ch := inp.GetC();
      if ch.Some? && G.IsNumberChar(ch.value) {
        numStr := numStr + [ch.value];
      } else {
        inp.UngetC();
        break;
      }
    }
  }

  /** Blanks that have been skipped make no difference to what is read next. */
  lemma SkipTwice(s: string, c: char)
    ensures G.SkipWs(G.SkipWs(s)) == G.SkipWs(s)
    ensures G.Expect(G.SkipWs(s), c) == G.Expect(s, c)
  {
  }

  lemma SkipItemSame(s: string)
    ensures G.ParseItems(G.SkipWs(s), []) == G.ParseItems(s, [])
  {
    SkipTwice(s, ']');
    assert G.ParseValue(G.SkipWs(s)) == G.ParseValue(s);
  }

  lemma SkipKeySame(s: string)
    ensures G.ParseMembers(G.SkipWs(s), []) == G.ParseMembers(s, [])
  {
    SkipTwice(s, '"');
    assert G.ParseMember(G.SkipWs(s)) == G.ParseMember(s);
  }

  /** What a parsing method promises: it succeeds when the grammar has a result, with that result, having
      read just what the grammar says; a character is pushed back only behind a number. */
  ghost predicate Agrees(r: Option<Value>, inp: Input, spec: Option<(Value, string)>)
    reads inp
  {
    && inp.Valid() && r.Some? == spec.Some?
    && (r.Some? ==> spec.value == (r.value, inp.rest) && (inp.ungot <==> IsNumber(r.value) && inp.rest != ""))
  }

  method ParseArray(inp: Input) returns (r: Option<Value>)
    requires inp.Valid()
    modifies inp
    ensures Agrees(r, inp, G.ParseArray(old(inp.rest)))
    decreases |inp.rest|, 3
  {
    SkipItemSame(inp.rest);
    var closed := inp.Expect(']');
    if closed {
      return Some(Arr([]));
    }
    r := ParseItems(inp);
  }

  /** The loop of `_parse_array`. */
  method ParseItems(inp: Input) returns (r: Option<Value>)
    requires inp.Valid()
    modifies inp
    ensures Agrees(r, inp, G.ParseItems(old(inp.rest), []))
    decreases |inp.rest|, 2
  {
    ghost var s := inp.rest;
    var items := [];
    while true
      invariant inp.Valid() && |inp.rest| <= |s| && G.ParseItems(inp.rest, items) == G.ParseItems(s, [])
      decreases |inp.rest|
    {
      var v := Parse(inp);
      if v.None? {
        return None;
      }
      items := items + [v.value];
      SkipTwice(inp.rest, ']');
      var more := inp.Expect(',');
      if !more {
        var closed := inp.Expect(']');
        return if closed then Some(Arr(items)) else None;
      }
    }
  }

  /** A key and the colon behind it. */
  method ParseKey(inp: Input) returns (r: Option<string>)
    requires inp.Valid()
    modifies inp
    ensures inp.Valid() && r.Some? == G.ParseKey(old(inp.rest)).Some?
    ensures r.Some? ==> G.ParseKey(old(inp.rest)).value == (r.value, inp.rest)
  {
    var ok := inp.Expect('"');
    if !ok {
      return None;
    }
    r := ParseString(inp);
    if r.Some? {
      ok := inp.Expect(':');
      if !ok {
        return None;
      }
    }
  }

  method ParseMember(inp: Input) returns (r: Option<Member>)
    requires inp.Valid()
    modifies inp
    ensures inp.Valid() && r.Some? == G.ParseMember(old(inp.rest)).Some?
    ensures r.Some? ==> G.ParseMember(old(inp.rest)).value == (r.value, inp.rest)
    decreases |inp.rest|, 1
  {
    var key := ParseKey(inp);
    if key.None? {
      return None;
    }
    var v := Parse(inp);
    r := if v.Some? then Some(Member(key.value, v.value)) else None;
  }

  method ParseObject(inp: Input) returns (r: Option<Value>)
    requires inp.Valid()
    modifies inp
    ensures Agrees(r, inp, G.ParseObject(old(inp.rest)))
    decreases |inp.rest|, 3
  {
    SkipKeySame(inp.rest);
    var closed := inp.Expect('}');
    if closed {
      return Some(Obj([]));
    }
    r := ParseMembers(inp);
  }

  /** The loop of `_parse_object`. */
  method ParseMembers(inp: Input) returns (r: Option<Value>)
    requires inp.Valid()
    modifies inp
    ensures Agrees(r, inp, G.ParseMembers(old(inp.rest), []))
    decreases |inp.rest|, 2
  {
    ghost var s := inp.rest;
    var members := [];
    while true
      invariant inp.Valid() && |inp.rest| <= |s| && G.ParseMembers(inp.rest, members) == G.ParseMembers(s, [])
      decreases |inp.rest|
    {
      var m := ParseMember(inp);
      if m.None? {
        return None;
      }
      members := Insert(members, m.value.key, m.value.value);
      SkipTwice(inp.rest, '}');
      var more := inp.Expect(',');
      if !more {
        var closed := inp.Expect('}');
        return if closed then Some(Obj(members)) else None;
      }
    }
  }

  /** One of the three literals, behind its first character. */
  method ParseLiteral(inp: Input, pattern: string, v: Value) returns (r: Option<Value>)
    requires inp.Valid() && !inp.ungot && !IsNumber(v)
    modifies inp
    ensures Agrees(r, inp, G.Literal(old(inp.rest), pattern, v))
  {
    var ok := inp.Match(pattern);
    r := if ok then Some(v) else None;
  }

  /** `strtod` on the characters of a number. */
  method ParseNumberValue(inp: Input) returns (r: Option<Value>)
    requires inp.Valid()
    modifies inp
    ensures Agrees(r, inp, G.ParseNumber(old(inp.rest)))
  {
    var numStr := ParseNumber(inp);
    r := G.NumberValue(numStr);
  }

  /** The cases of `_parse` that are no numbers, behind the first character. */
  method ParseBehind(c: char, inp: Input) returns (r: Option<Value>)
    requires inp.Valid() && !inp.ungot
    modifies inp
    ensures Agrees(r, inp, G.ParseBehind(c, old(inp.rest)))
    decreases |inp.rest|, 4
  {
    match c
    case 'n' => r := ParseLiteral(inp, "ull", Null);
    case 'f' => r := ParseLiteral(inp, "alse", Bool(false));
    case 't' => r := ParseLiteral(inp, "rue", Bool(true));
    case '"' =>
      var x := ParseString(inp);
      r := if x.Some? then Some(Str(x.value)) else None;
    case '[' => r := ParseArray(inp);
    case '{' => r := ParseObject(inp);
    case _ =>
      inp.UngetC();
      r := None;
  }

  /** What the grammar says of a value behind the blanks. */
  ghost function Token(t: string): Option<(Value, string)> {
    if t == "" then None
    else if G.IsDigit(t[0]) || t[0] == '-' then G.ParseNumber(t)
    else G.ParseBehind(t[0], t[1..])
  }

  lemma ValueIsToken(s: string)
    ensures G.ParseValue(s) == Token(G.SkipWs(s))
  {
  }

  /** `_parse` behind its `skip_ws`. */
  method ParseToken(inp: Input) returns (r: Option<Value>)
    requires inp.Valid()
    modifies inp
    ensures Agrees(r, inp, Token(old(inp.rest)))
    decreases |inp.rest|, 0
  {
    ghost var t := inp.rest;
    var ch := inp.GetC();
    if ch.None? {
      inp.UngetC();
      r := None;
    } else if G.IsDigit(ch.value) || ch.value == '-' {
      inp.UngetC();
      assert inp.rest == t;
      r := ParseNumberValue(inp);
    } else {
      r := ParseBehind(ch.value, inp);
    }
  }

  method Parse(inp: Input) returns (r: Option<Value>)
    requires inp.Valid()
    modifies inp
    ensures Agrees(r, inp, G.ParseValue(old(inp.rest)))
    decreases |inp.rest|, 1
  {
    ValueIsToken(inp.rest);
    inp.SkipWs();
    r := ParseToken(inp);
  }

  /** Reads to the end of the line, as the error message does. */
  method SkipLine(inp: Input)
    requires inp.Valid()
    modifies inp
    ensures inp.Valid() && inp.cur >= old(inp.cur)
    ensures inp.cur == |inp.text| || (inp.cur > 0 && inp.text[inp.cur - 1] == '\n')
  {
    while true
      invariant inp.Valid() && inp.cur >= old(inp.cur)
      decreases |inp.rest|
    {
      var ch := inp.GetC();
      if ch.None? || ch.value == '\n' {
        break;
      }
    }
  }

  /** `parse` on a whole text. The position returned is the cursor's, so behind a number that does not end
      the text it is one past the character after the number. On an error the rest of the line is read;
      `line` is the line that the message names, and `fetched` how far the text had been read by then. */
  method ParseText(text: string) returns (v: Option<Value>, at: nat, line: nat, ghost fetched: nat)
    ensures v.Some? <==> G.ParseValue(text).Some?
    ensures v.Some? ==> v.value == G.ParseValue(text).value.0
    ensures fetched <= |text| && line == 1 + Newlines(text, if fetched == 0 then 0 else fetched - 1)
    ensures v.Some? ==> var rest := G.ParseValue(text).value.1;
      at == fetched == |text| - |rest| + if IsNumber(v.value) && rest != "" then 1 else 0
    ensures v.None? ==> fetched <= at <= |text| && (at == |text| || (at > 0 && text[at - 1] == '\n'))
  {
    var inp := new Input(text);
    v := Parse(inp);
    line := inp.line;
    fetched := inp.cur;
    if v.None? {
      SkipLine(inp);
    }
    at := inp.cur;
  }
}
