/** What the printer writes: its characters, and how it lays a value out. */
module JsonPrinted {
  import opened JsonGrammar
  import opened JsonRoundTrip
  import opened JsonTexts
  import opened JsonValue
  import opened Seqs
  import opened Wrappers

  // ---------------------------------------------------------------------------------------------
  // Characters
  // ---------------------------------------------------------------------------------------------

  /** No control characters but line breaks, and those only if they are allowed; every slash escaped. */
  predicate Clean(s: string, breaks: bool) { forall i: nat :: i < |s| ==> CleanAt(s, i, breaks) }

  predicate CleanAt(s: string, i: nat, breaks: bool)
    requires i < |s|
  {
    && (s[i] < ' ' ==> breaks && s[i] == '\n') && s[i] != 0x7f as char
    && (s[i] == '/' ==> i > 0 && s[i - 1] == '\\')
  }

  /** What is printed for a character of a string: its short escape if there is one, four hexadecimal digits in
      lower case for other control characters, and otherwise itself. */
  lemma EscapesAre(c: char)
    ensures forall i: nat :: i < |MEANT| && MEANT[i] == c ==> Escape(c) == ['\\', SHORT[i]]
    ensures c !in MEANT && (c < ' ' || c == 0x7f as char) ==>
      Escape(c) == ['\\', 'u', '0', '0', LOWER[c as int / 16], LOWER[c as int % 16]]
    ensures c !in MEANT && c >= ' ' && c != 0x7f as char ==> Escape(c) == [c]
  {
    if c !in MEANT && (c < ' ' || c == 0x7f as char) {
      LowerIsHex(c as int / 16);
      LowerIsHex(c as int % 16);
    }
    assert SHORT == ['"', '\\', '/', 'b', 'f', 'n', 'r', 't'];
    assert MEANT[0] == '"' && MEANT[1] == '\\' && MEANT[2] == '/' && MEANT[3] == 8 as char && MEANT[4] == 12 as char;
    assert MEANT[5] == '\n' && MEANT[6] == '\r' && MEANT[7] == '\t';
  }

  lemma LowerIsHex(d: nat)
    requires d < 16
    ensures LOWER[d] == Hex(d)
  {
  }

  lemma CleanConcat(a: string, b: string, breaks: bool)
    requires Clean(a, breaks) && Clean(b, breaks)
    ensures Clean(a + b, breaks)
  {
    var s := a + b;
    forall i: nat | i < |s|
      ensures CleanAt(s, i, breaks)
    {
      if i >= |a| {
        assert CleanAt(b, i - |a|, breaks);
      } else {
        assert CleanAt(a, i, breaks);
      }
    }
  }

  lemma {:induction false} EscapedIsClean(s: string, breaks: bool)
    ensures Clean(Escaped(s), breaks)
    decreases |s|
  {
    if s == "" {
    } else {
      EscapedIsClean(s[1..], breaks);
      CleanConcat(Escape(s[0]), Escaped(s[1..]), breaks);
    }
  }

  lemma StringTextIsClean(s: string, breaks: bool)
    ensures Clean(StringText(s), breaks)
  {
    EscapedIsClean(s, breaks);
    CleanConcat(['"'], Escaped(s), breaks);
    CleanConcat(['"'] + Escaped(s), ['"'], breaks);
  }

  /** A printed value holds no raw control character and no slash that is not escaped; in compact mode it holds no
      line break either. */
  lemma {:induction false} PrintedIsClean(v: Value, indent: int)
    requires Printable(v) && indent >= -1
    ensures Clean(Text(v, indent), indent != -1)
    decreases v
  {
    var breaks := indent != -1;
    match v
    case Num(n) => IntTextChars(n); IntTextIsClean(n, breaks);
    case Str(s) => StringTextIsClean(s, breaks);
    case Arr(items) =>
      ItemsAreClean(v, 0, Deeper(indent));
      Bracketed('[', ItemsText(v, 0, Deeper(indent)), if items == [] then "" else Break(indent), ']', breaks);
    case Obj(ms) =>
      MembersAreClean(v, 0, Deeper(indent));
      Bracketed('{', MembersText(v, 0, Deeper(indent)), if ms == [] then "" else Break(indent), '}', breaks);
    case _ =>
  }

  lemma IntTextIsClean(n: int, breaks: bool)
    requires forall i: nat :: i < |IntText(n)| ==> IsNumberChar(IntText(n)[i])
    ensures Clean(IntText(n), breaks)
  {
  }

  lemma Bracketed(open: char, text: string, end: string, close: char, breaks: bool)
    requires Clean(text, breaks) && Clean(end, breaks) && open in "[{" && close in "]}"
    ensures Clean([open] + text + end + [close], breaks)
  {
    CleanConcat([open], text, breaks);
    CleanConcat([open] + text, end, breaks);
    CleanConcat([open] + text + end, [close], breaks);
  }

  lemma {:induction false} ItemsAreClean(v: Value, i: nat, indent: int)
    requires Printable(v) && v.Arr? && i <= |v.items| && indent >= -1
    ensures Clean(ItemsText(v, i, indent), indent != -1)
    decreases v, |v.items| - i
  {
    if i == |v.items| {
    } else {
      PrintedIsClean(v.items[i], indent);
      ItemsAreClean(v, i + 1, indent);
      CleanConcat(Comma(i), Break(indent), indent != -1);
      CleanConcat(Comma(i) + Break(indent), Text(v.items[i], indent), indent != -1);
      CleanConcat(ItemText(v, i, indent), ItemsText(v, i + 1, indent), indent != -1);
    }
  }

  lemma KeyIsClean(key: string, indent: int, breaks: bool)
    ensures Clean(KeyText(key, indent), breaks)
  {
    StringTextIsClean(key, breaks);
    CleanConcat(StringText(key), [':'], breaks);
    CleanConcat(StringText(key) + [':'], if indent == -1 then "" else [' '], breaks);
  }

  lemma {:induction false} MembersAreClean(v: Value, i: nat, indent: int)
    requires Printable(v) && v.Obj? && i <= |v.members| && indent >= -1
    ensures Clean(MembersText(v, i, indent), indent != -1)
    decreases v, |v.members| - i
  {
    if i == |v.members| {
    } else {
      var front := Comma(i) + Break(indent);
      PrintedIsClean(v.members[i].value, indent);
      MembersAreClean(v, i + 1, indent);
      KeyIsClean(v.members[i].key, indent, indent != -1);
      CleanConcat(Comma(i), Break(indent), indent != -1);
      CleanConcat(front, KeyText(v.members[i].key, indent), indent != -1);
      CleanConcat(front + KeyText(v.members[i].key, indent), Text(v.members[i].value, indent), indent != -1);
      CleanConcat(MemberText(v, i, indent), MembersText(v, i + 1, indent), indent != -1);
    }
  }

  // ---------------------------------------------------------------------------------------------
  // Layout
  // ---------------------------------------------------------------------------------------------

  /** A line break and two blanks a level; nothing in compact mode, which is level -1. */
  predicate IsBreak(w: string, level: int) {
    if level == -1 then w == ""
    else |w| == 1 + 2 * level && w[0] == '\n' && forall i :: 1 <= i < |w| ==> w[i] == ' '
  }

  function Inner(level: int): int { if level == -1 then -1 else level + 1 }

  /** Every item and member starts a line, one level further in; the closing bracket starts one at the level of the
      value; one blank follows a colon; and there are no other blanks. In compact mode there are none at all. */
  predicate Laid(t: Tree, level: int)
    requires level >= -1
  {
    match t
    case Empty(_, inside) => inside == ""
    case Array(x) => ItemsLaid(x, level)
    case Object(x) => MembersLaid(x, level)
    case _ => true
  }

  predicate ItemsLaid(x: Items, level: int)
    requires level >= -1
  {
    && IsBreak(x.before, Inner(level)) && Laid(x.item, Inner(level))
    && if x.More? then x.after == "" && ItemsLaid(x.next, level) else IsBreak(x.after, level)
  }

  predicate MembersLaid(x: Members, level: int)
    requires level >= -1
  {
    && IsBreak(x.key.before, Inner(level)) && Laid(x.value, Inner(level))
    && x.key.colon == "" && x.key.behind == KeyBlank(level)
    && if x.MoreOf? then x.after == "" && MembersLaid(x.next, level) else IsBreak(x.after, level)
  }

  lemma BreakIs(level: int)
    requires level >= -1
    ensures IsBreak(Break(level), level) && JsonTexts.Blank(Break(level))
  {
    BreakIsWs(level);
    BlankIsWs(Break(level));
  }

  lemma FirstOf(w: string, x: string)
    requires w != ""
    ensures (w + x)[0] in w
  {
  }

  lemma NoBlanksInFront(w: string, x: string)
    requires JsonTexts.Blank(w) && w + x != "" && (w + x)[0] !in BLANKS
    ensures w == "" && w + x == x
  {
    if w != "" { FirstOf(w, x); }
  }

  /** A value that is neither array nor object. */
  lemma AtomLaid(v: Value, level: int) returns (t: Tree)
    requires Printable(v) && level >= -1 && !v.Arr? && !v.Obj?
    ensures Proper(t) && Laid(t, level) && Written(t, "") == Text(v, level)
  {
    var text := Text(v, level);
    TextReads(v, level, "");
    NothingBehind(text);
    var w;
    w, t := TreeOf(text);
    TextStarts(v, level);
    CharsAre(text[0]);
    NoBlanksInFront(w, Written(t, ""));
  }

  lemma InFrontOf(t: Tree, rest: string)
    requires Proper(t)
    ensures Written(t, rest) == Written(t, "") + rest
  {
    WrittenInFront(t, "", rest);
    NothingInFront(rest);
  }

  lemma EmptyLaid(v: Value, level: int) returns (t: Tree)
    requires Printable(v) && level >= -1 && (v == Arr([]) || v == Obj([]))
    ensures Proper(t) && Laid(t, level) && Written(t, "") == Text(v, level)
  {
    t := Empty(v.Obj?, "");
    assert ItemsText(Arr([]), 0, Deeper(level)) == "" && MembersText(Obj([]), 0, Deeper(level)) == "";
  }

  lemma ArrayTextIs(v: Value, level: int)
    requires Printable(v) && v.Arr? && v.items != [] && level >= -1
    ensures Text(v, level) == ['['] + (ItemsText(v, 0, Deeper(level)) + (Break(level) + ([']'] + "")))
  {
    Bracket('[', ItemsText(v, 0, Deeper(level)), Break(level), ']');
  }

  lemma ObjectTextIs(v: Value, level: int)
    requires Printable(v) && v.Obj? && v.members != [] && level >= -1
    ensures Text(v, level) == ['{'] + (MembersText(v, 0, Deeper(level)) + (Break(level) + (['}'] + "")))
  {
    Bracket('{', MembersText(v, 0, Deeper(level)), Break(level), '}');
  }

  lemma Bracket(open: char, text: string, end: string, close: char)
    ensures [open] + text + end + [close] == [open] + (text + (end + ([close] + "")))
  {
  }

  lemma ItemsInBrackets(x: Items, text: string)
    requires ProperItems(x) && text == "" + ItemsWritten(x, [']'] + "")
    ensures Written(Array(x), "") == ['['] + text
  {
  }

  lemma MembersInBraces(x: Members, text: string)
    requires ProperMembers(x) && text == "" + MembersWritten(x, ['}'] + "")
    ensures Written(Object(x), "") == ['{'] + text
  {
  }

  lemma {:induction false} ValueLaid(v: Value, level: int) returns (t: Tree)
    requires Printable(v) && level >= -1
    ensures Proper(t) && Laid(t, level) && Written(t, "") == Text(v, level)
    decreases v, 1, 0
  {
    if v == Arr([]) || v == Obj([]) {
      t := EmptyLaid(v, level);
    } else if v.Arr? {
      var x := ItemsOfLaid(v, 0, level);
      ArrayTextIs(v, level);
      ItemsInBrackets(x, ItemsText(v, 0, Deeper(level)) + (Break(level) + ([']'] + "")));
      t := Array(x);
    } else if v.Obj? {
      var x := MembersOfLaid(v, 0, level);
      ObjectTextIs(v, level);
      MembersInBraces(x, MembersText(v, 0, Deeper(level)) + (Break(level) + (['}'] + "")));
      t := Object(x);
    } else {
      t := AtomLaid(v, level);
    }
  }

  lemma LastRegroups(comma: string, front: string, text: string, end: string)
    ensures comma + front + text + "" + end == comma + (front + (text + end))
  {
  }

  lemma MoreRegroups(comma: string, front: string, text: string, others: string, end: string, next: string)
    requires others + end == [','] + next
    ensures comma + front + text + others + end == comma + (front + (text + ("" + ([','] + next))))
  {
    Assoc5(comma, front, text, others, end);
    NothingInFront([','] + next);
  }

  lemma ItemsTextNext(v: Value, i: nat, inner: int)
    requires Printable(v) && v.Arr? && i < |v.items| && inner >= -1
    ensures ItemsText(v, i, inner) == Comma(i) + Break(inner) + Text(v.items[i], inner) + ItemsText(v, i + 1, inner)
    ensures i + 1 == |v.items| ==> ItemsText(v, i + 1, inner) == ""
  {
  }

  lemma {:induction false} ItemsOfLaid(v: Value, i: nat, level: int) returns (x: Items)
    requires Printable(v) && v.Arr? && i < |v.items| && level >= -1
    ensures ProperItems(x) && ItemsLaid(x, level)
    ensures ItemsText(v, i, Deeper(level)) + (Break(level) + ([']'] + "")) == Comma(i) + ItemsWritten(x, [']'] + "")
    decreases v, 0, |v.items| - i
  {
    var t := ValueLaid(v.items[i], Deeper(level));
    BreakIs(Deeper(level));
    ItemsTextNext(v, i, Deeper(level));
    if i + 1 < |v.items| {
      var next := ItemsOfLaid(v, i + 1, level);
      x := MoreLaid(v, i, level, t, next);
    } else {
      x := LastLaid(v, i, level, t);
    }
  }

  lemma LastLaid(v: Value, i: nat, level: int, t: Tree) returns (x: Items)
    requires Printable(v) && v.Arr? && i + 1 == |v.items| && level >= -1
    requires Proper(t) && Laid(t, Inner(level)) && Written(t, "") == Text(v.items[i], Deeper(level))
    ensures ProperItems(x) && ItemsLaid(x, level)
    ensures ItemsText(v, i, Deeper(level)) + (Break(level) + ([']'] + "")) == Comma(i) + ItemsWritten(x, [']'] + "")
  {
    var end := Break(level) + ([']'] + "");
    BreakIs(Deeper(level));
    BreakIs(level);
    ItemsTextNext(v, i, Deeper(level));
    InFrontOf(t, end);
    LastRegroups(Comma(i), Break(Deeper(level)), Written(t, ""), end);
    x := Last(Break(Deeper(level)), t, Break(level));
  }

  lemma MoreLaid(v: Value, i: nat, level: int, t: Tree, next: Items) returns (x: Items)
    requires Printable(v) && v.Arr? && i + 1 < |v.items| && level >= -1
    requires Proper(t) && Laid(t, Inner(level)) && Written(t, "") == Text(v.items[i], Deeper(level))
    requires ProperItems(next) && ItemsLaid(next, level)
    requires ItemsText(v, i + 1, Deeper(level)) + (Break(level) + ([']'] + "")) ==
      [','] + ItemsWritten(next, [']'] + "")
    ensures ProperItems(x) && ItemsLaid(x, level)
    ensures ItemsText(v, i, Deeper(level)) + (Break(level) + ([']'] + "")) == Comma(i) + ItemsWritten(x, [']'] + "")
  {
    var others, end := ItemsText(v, i + 1, Deeper(level)), Break(level) + ([']'] + "");
    var y := ItemsWritten(next, [']'] + "");
    BreakIs(Deeper(level));
    ItemsTextNext(v, i, Deeper(level));
    InFrontOf(t, "" + ([','] + y));
    MoreRegroups(Comma(i), Break(Deeper(level)), Written(t, ""), others, end, y);
    x := More(Break(Deeper(level)), t, "", next);
  }

  function KeyBlank(level: int): string { if level == -1 then "" else " " }

  lemma KeyRegroups(front: string, escaped: string, blank: string, rest: string)
    ensures ['"'] + escaped + ['"'] + [':'] + blank + rest ==
      ['"'] + (escaped + (['"'] + ("" + ([':'] + (blank + rest)))))
  {
    Assoc5(['"'] + escaped, ['"'], [':'], blank, rest);
    NothingInFront([':'] + (blank + rest));
    Assoc(['"'], escaped, ['"'] + ([':'] + (blank + rest)));
  }

  lemma EscapedPieces(key: string) returns (ps: seq<Piece>)
    ensures ProperPieces(ps) && forall z: string :: PiecesText(ps, ['"'] + z) == Escaped(key) + (['"'] + z)
  {
    StringReads(key, "", "");
    ps := PiecesOf(Escaped(key) + (['"'] + ""), "");
    var close: string := ['"'];
    NothingBehind(close);
    forall z: string ensures PiecesText(ps, close + z) == Escaped(key) + (close + z) {
      PiecesInFront(ps, close, z);
      Assoc(Escaped(key), close, z);
    }
  }

  /** The key as it is printed. */
  lemma KeyLaid(key: string, level: int, rest: string) returns (k: Key)
    requires level >= -1
    ensures ProperKey(k) && k.before == Break(Deeper(level)) && k.colon == "" && k.behind == KeyBlank(level)
    ensures KeyWritten(k, rest) == Break(Deeper(level)) + (KeyText(key, Deeper(level)) + rest)
  {
    BreakIs(Deeper(level));
    var ps := EscapedPieces(key);
    k := Key(Break(Deeper(level)), ps, "", KeyBlank(level));
    KeyRegroups(k.before, Escaped(key), k.behind, rest);
    assert KeyText(key, Deeper(level)) == ['"'] + Escaped(key) + ['"'] + [':'] + k.behind;
  }

  lemma MembersTextNext(v: Value, i: nat, inner: int)
    requires Printable(v) && v.Obj? && i < |v.members| && inner >= -1
    ensures MembersText(v, i, inner) == Comma(i) + Break(inner) + KeyText(v.members[i].key, inner) +
      Text(v.members[i].value, inner) + MembersText(v, i + 1, inner)
    ensures i + 1 == |v.members| ==> MembersText(v, i + 1, inner) == ""
  {
  }

  lemma {:induction false} MembersOfLaid(v: Value, i: nat, level: int) returns (x: Members)
    requires Printable(v) && v.Obj? && i < |v.members| && level >= -1
    ensures ProperMembers(x) && MembersLaid(x, level)
    ensures MembersText(v, i, Deeper(level)) + (Break(level) + (['}'] + "")) ==
      Comma(i) + MembersWritten(x, ['}'] + "")
    decreases v, 0, |v.members| - i
  {
    var t := ValueLaid(v.members[i].value, Deeper(level));
    if i + 1 < |v.members| {
      var next := MembersOfLaid(v, i + 1, level);
      x := MoreMembersLaid(v, i, level, t, next);
    } else {
      x := LastMemberLaid(v, i, level, t);
    }
  }

  lemma LastMemberLaid(v: Value, i: nat, level: int, t: Tree) returns (x: Members)
    requires Printable(v) && v.Obj? && i + 1 == |v.members| && level >= -1
    requires Proper(t) && Laid(t, Inner(level)) && Written(t, "") == Text(v.members[i].value, Deeper(level))
    ensures ProperMembers(x) && MembersLaid(x, level)
    ensures MembersText(v, i, Deeper(level)) + (Break(level) + (['}'] + "")) ==
      Comma(i) + MembersWritten(x, ['}'] + "")
  {
    var end, key := Break(level) + (['}'] + ""), KeyText(v.members[i].key, Deeper(level));
    BreakIs(Deeper(level));
    BreakIs(level);
    MembersTextNext(v, i, Deeper(level));
    InFrontOf(t, end);
    var k := KeyLaid(v.members[i].key, level, Written(t, end));
    LastRegroups(Comma(i) + Break(Deeper(level)), key, Written(t, ""), end);
    Assoc(Comma(i), Break(Deeper(level)), key + (Written(t, "") + end));
    x := LastOne(k, t, Break(level));
  }

  lemma MoreMembersLaid(v: Value, i: nat, level: int, t: Tree, next: Members) returns (x: Members)
    requires Printable(v) && v.Obj? && i + 1 < |v.members| && level >= -1
    requires Proper(t) && Laid(t, Inner(level)) && Written(t, "") == Text(v.members[i].value, Deeper(level))
    requires ProperMembers(next) && MembersLaid(next, level)
    requires MembersText(v, i + 1, Deeper(level)) + (Break(level) + (['}'] + "")) ==
      [','] + MembersWritten(next, ['}'] + "")
    ensures ProperMembers(x) && MembersLaid(x, level)
    ensures MembersText(v, i, Deeper(level)) + (Break(level) + (['}'] + "")) ==
      Comma(i) + MembersWritten(x, ['}'] + "")
  {
    var others, end := MembersText(v, i + 1, Deeper(level)), Break(level) + (['}'] + "");
    var key, y := KeyText(v.members[i].key, Deeper(level)), MembersWritten(next, ['}'] + "");
    BreakIs(Deeper(level));
    MembersTextNext(v, i, Deeper(level));
    InFrontOf(t, "" + ([','] + y));
    var k := KeyLaid(v.members[i].key, level, Written(t, "" + ([','] + y)));
    MoreRegroups(Comma(i) + Break(Deeper(level)), key, Written(t, ""), others, end, y);
    Assoc(Comma(i), Break(Deeper(level)), key + (Written(t, "") + ("" + ([','] + y))));
    x := MoreOf(k, t, "", next);
  }

  /** Printed text is that of a tree which means the value and is laid out in lines, two blanks a level, or without
      any blanks. */
  lemma PrintedIsLaidOut(v: Value, pretty: bool) returns (t: Tree)
    requires Printable(v)
    ensures var level := if pretty then 0 else -1;
      && Proper(t) && Meaning(t) == v && Laid(t, level)
      && Serialized(v, pretty) == Written(t, if pretty then ['\n'] else "")
  {
    var level := if pretty then 0 else -1;
    t := ValueLaid(v, level);
    TreeReads(t, "");
    TextReads(v, level, "");
    NothingBehind(Text(v, level));
    InFrontOf(t, ['\n']);
  }
}
