/** JSON values as the reader builds them and the printer shows them, the text the printer writes, and
    the order of object keys. Characters with codes 0 to 255 stand for bytes. */
module JsonValue {
  import opened Wrappers

  /** `Num` is a number written as a plain integer of magnitude below 2^53; any other number is kept by
      its text. The members of an object are in the order of a `std::map`. */
  datatype Value =
    | Null
    | Bool(b: bool)
    | Num(n: int)
    | Flt(text: string)
    | Str(s: string)
    | Arr(items: seq<Value>)
    | Obj(members: seq<Member>)

  datatype Member = Member(key: string, value: Value)

  const EXACT: int := 0x20_0000_0000_0000

  // ---------------------------------------------------------------------------------------------
  // Objects
  // ---------------------------------------------------------------------------------------------

  /** The order of `std::string`. */
  predicate Less(a: string, b: string) {
    b != "" && (a == "" || a[0] < b[0] || (a[0] == b[0] && Less(a[1..], b[1..])))
  }

  predicate Sorted(m: seq<Member>) { forall i: nat, j: nat :: i < j < |m| ==> Less(m[i].key, m[j].key) }

  /** `o[key] = value` for a map. */
  function Insert(m: seq<Member>, key: string, value: Value): seq<Member> {
    if m == [] || Less(key, m[0].key) then [Member(key, value)] + m
    else if m[0].key == key then [Member(key, value)] + m[1..]
    else [m[0]] + Insert(m[1..], key, value)
  }

  function Find(m: seq<Member>, key: string): Option<Value> {
    if m == [] then None else if m[0].key == key then Some(m[0].value) else Find(m[1..], key)
  }

  lemma {:induction false} LessIsStrict(a: string, b: string)
    requires Less(a, b)
    ensures a != b && !Less(b, a)
    decreases |a|
  {
    if a == "" || a[0] != b[0] {
    } else {
      LessIsStrict(a[1..], b[1..]);
    }
  }

  lemma {:induction false} LessTrans(a: string, b: string, c: string)
    requires Less(a, b) && Less(b, c)
    ensures Less(a, c)
    decreases |a|
  {
    if a == "" || a[0] != b[0] || b[0] != c[0] {
    } else {
      LessTrans(a[1..], b[1..], c[1..]);
    }
  }

  lemma {:induction false} LessTotal(a: string, b: string)
    requires a != b
    ensures Less(a, b) || Less(b, a)
    decreases |a|
  {
    if a == "" || b == "" || a[0] != b[0] {
    } else {
      assert a == [a[0]] + a[1..] && b == [b[0]] + b[1..];
      LessTotal(a[1..], b[1..]);
    }
  }

  /** `a` and `b` agree in the first `i` bytes, and then `a` ends or goes on with the smaller byte. */
  predicate LessAt(a: string, b: string, i: nat) {
    i <= |a| && i < |b| && a[..i] == b[..i] && (i == |a| || a[i] < b[i])
  }

  lemma {:induction false} FirstDifference(a: string, b: string) returns (i: nat)
    requires Less(a, b)
    ensures LessAt(a, b, i)
    decreases |a|
  {
    if a == "" || a[0] < b[0] {
      i := 0;
    } else {
      var k := FirstDifference(a[1..], b[1..]);
      i := k + 1;
      assert a[..i] == [a[0]] + a[1..][..k] && b[..i] == [b[0]] + b[1..][..k];
    }
  }

  lemma {:induction false} LessFrom(a: string, b: string, i: nat)
    requires LessAt(a, b, i)
    ensures Less(a, b)
    decreases i
  {
    if i == 0 {
    } else {
      assert a[0] == a[..i][0] == b[..i][0] == b[0];
      assert a[1..][..i - 1] == a[..i][1..] && b[1..][..i - 1] == b[..i][1..];
      LessFrom(a[1..], b[1..], i - 1);
    }
  }

  /** Keys are ordered by the first byte in which they differ, and a proper prefix comes first. */
  lemma LessIsLexicographic(a: string, b: string)
    ensures Less(a, b) <==> exists i: nat :: LessAt(a, b, i)
  {
    if Less(a, b) {
      var i := FirstDifference(a, b);
      assert LessAt(a, b, i);
    }
    if i: nat :| LessAt(a, b, i) {
      LessFrom(a, b, i);
    }
  }

  lemma {:induction false} InsertSorted(m: seq<Member>, key: string, value: Value)
    requires Sorted(m)
    ensures Sorted(Insert(m, key, value))
    ensures forall x :: x in Insert(m, key, value) ==> x in m || x.key == key
    decreases |m|
  {
    if m == [] {
    } else if Less(key, m[0].key) {
      forall j: nat | j < |m| ensures Less(key, m[j].key) {
        if j > 0 { LessTrans(key, m[0].key, m[j].key); }
      }
    } else if m[0].key != key {
      InsertSorted(m[1..], key, value);
      LessTotal(key, m[0].key);
      var r := Insert(m[1..], key, value);
      forall j: nat | j < |r| ensures Less(m[0].key, r[j].key) {
        if r[j].key != key {
          var k: nat :| k < |m[1..]| && m[1..][k] == r[j];
          assert m[k + 1] == r[j];
        }
      }
    }
  }

  /** An inserted member replaces the one with its key and no other. */
  lemma {:induction false} FindInserted(m: seq<Member>, key: string, value: Value, k: string)
    requires Sorted(m)
    ensures Find(Insert(m, key, value), k) == if k == key then Some(value) else Find(m, k)
    decreases |m|
  {
    var r := Insert(m, key, value);
    if m == [] || Less(key, m[0].key) {
      assert r[1..] == m;
    } else if m[0].key == key {
      assert r[1..] == m[1..];
    } else {
      assert r[1..] == Insert(m[1..], key, value);
      FindInserted(m[1..], key, value, k);
    }
  }

  /** A key above all others goes to the end. */
  lemma {:induction false} InsertLast(m: seq<Member>, key: string, value: Value)
    requires forall i: nat :: i < |m| ==> Less(m[i].key, key)
    ensures Insert(m, key, value) == m + [Member(key, value)]
    decreases |m|
  {
    if m == [] {
    } else {
      LessIsStrict(m[0].key, key);
      forall i: nat | i < |m[1..]| ensures Less(m[1..][i].key, key) {
        assert m[1..][i] == m[i + 1];
      }
      InsertLast(m[1..], key, value);
      assert m == [m[0]] + m[1..];
    }
  }

  // ---------------------------------------------------------------------------------------------
  // Equality
  // ---------------------------------------------------------------------------------------------

  /** `operator ==`, which compares the types, then the contents. */
  predicate Equal(x: Value, y: Value)
    decreases x
  {
    match x
    case Null => y.Null?
    case Bool(b) => y.Bool? && b == y.b
    case Num(n) => y.Num? && n == y.n
    case Flt(t) => y.Flt? && t == y.text
    case Str(s) => y.Str? && s == y.s
    case Arr(items) => y.Arr? && |items| == |y.items| && forall i: nat :: i < |items| ==> Equal(items[i], y.items[i])
    case Obj(ms) =>
      y.Obj? && |ms| == |y.members| && forall i: nat :: i < |ms| ==>
        ms[i].key == y.members[i].key && Equal(ms[i].value, y.members[i].value)
  }

  lemma {:induction false} EqualIsEquality(x: Value, y: Value)
    ensures Equal(x, y) <==> x == y
    decreases x
  {
    match x
    case Arr(items) =>
      if y.Arr? && |items| == |y.items| {
        forall i: nat | i < |items| ensures Equal(items[i], y.items[i]) <==> items[i] == y.items[i] {
          EqualIsEquality(items[i], y.items[i]);
        }
      }
    case Obj(ms) =>
      if y.Obj? && |ms| == |y.members| {
        forall i: nat | i < |ms| ensures Equal(ms[i].value, y.members[i].value) <==> ms[i].value == y.members[i].value {
          EqualIsEquality(ms[i].value, y.members[i].value);
        }
        assert Equal(x, y) ==> ms == y.members;
      }
    case _ =>
  }

  // ---------------------------------------------------------------------------------------------
  // The printed text
  // ---------------------------------------------------------------------------------------------

  /** Values the printer is modelled for: exact integers, and objects in map order, at any depth. */
  predicate Printable(v: Value)
    decreases v
  {
    match v
    case Num(n) => -EXACT < n < EXACT
    case Flt(_) => false
    case Arr(items) => forall i: nat :: i < |items| ==> Printable(items[i])
    case Obj(ms) => Sorted(ms) && forall i: nat :: i < |ms| ==> Printable(ms[i].value)
    case _ => true
  }

  /** A hexadecimal digit, lower case. */
  function Hex(d: nat): char
    requires d < 16
  {
    if d < 10 then ('0' as int + d) as char else ('a' as int + (d - 10)) as char
  }

  function Escape(c: char): string {
    if c == '"' then ['\\', '"']
    else if c == '\\' then ['\\', '\\']
    else if c == '/' then ['\\', '/']
    else if c == 8 as char then ['\\', 'b']
    else if c == 12 as char then ['\\', 'f']
    else if c == '\n' then ['\\', 'n']
    else if c == '\r' then ['\\', 'r']
    else if c == '\t' then ['\\', 't']
    else if c < ' ' || c == 0x7f as char then ['\\', 'u', '0', '0', Hex(c as int / 16), Hex(c as int % 16)]
    else [c]
  }

  /** A string's characters between the quotes. */
  function Escaped(s: string): string {
    if s == "" then "" else Escape(s[0]) + Escaped(s[1..])
  }

  function StringText(s: string): string { ['"'] + Escaped(s) + ['"'] }

  /** A number in decimal. */
  function NatText(n: nat): string {
    (if n < 10 then "" else NatText(n / 10)) + [('0' as int + n % 10) as char]
  }

  function IntText(n: int): string { if n < 0 then ['-'] + NatText(-n) else NatText(n) }

  function Spaces(n: nat): string { seq(n, _ => ' ') }

  /** A new line indented by two blanks a level; nothing in compact mode, which is indent -1. */
  function Break(indent: int): string
    requires indent >= -1
  {
    if indent == -1 then "" else ['\n'] + Spaces(indent * 2)
  }

  function Deeper(indent: int): (r: int)
    requires indent >= -1
    ensures r >= -1 && r != 0
  {
    if indent == -1 then -1 else indent + 1
  }

  /** The text of a value, without the newline that ends a pretty-printed document. */
  function Text(v: Value, indent: int): string
    requires Printable(v) && indent >= -1
    decreases v
  {
    match v
    case Null => "null"
    case Bool(b) => if b then "true" else "false"
    case Num(n) => IntText(n)
    case Str(s) => StringText(s)
    case Arr(items) => ['['] + ItemsText(v, 0, Deeper(indent)) + (if items == [] then "" else Break(indent)) + [']']
    case Obj(ms) => ['{'] + MembersText(v, 0, Deeper(indent)) + (if ms == [] then "" else Break(indent)) + ['}']
  }

  function Comma(i: nat): string { if i == 0 then "" else [','] }

  /** An item with what stands in front of it. */
  function ItemText(v: Value, i: nat, indent: int): string
    requires Printable(v) && v.Arr? && i < |v.items| && indent >= -1
    decreases v, 0
  {
    Comma(i) + Break(indent) + Text(v.items[i], indent)
  }

  /** The items of an array from the i-th on. */
  function ItemsText(v: Value, i: nat, indent: int): string
    requires Printable(v) && v.Arr? && i <= |v.items| && indent >= -1
    decreases v, |v.items| - i + 1
  {
    if i == |v.items| then "" else ItemText(v, i, indent) + ItemsText(v, i + 1, indent)
  }

  /** A key and the colon behind it. */
  function KeyText(key: string, indent: int): string {
    StringText(key) + [':'] + (if indent == -1 then "" else [' '])
  }

  /** A member with what stands in front of it. */
  function MemberText(v: Value, i: nat, indent: int): string
    requires Printable(v) && v.Obj? && i < |v.members| && indent >= -1
    decreases v, 0
  {
    Comma(i) + Break(indent) + KeyText(v.members[i].key, indent) + Text(v.members[i].value, indent)
  }

  /** The members of an object from the i-th on. */
  function MembersText(v: Value, i: nat, indent: int): string
    requires Printable(v) && v.Obj? && i <= |v.members| && indent >= -1
    decreases v, |v.members| - i + 1
  {
    if i == |v.members| then "" else MemberText(v, i, indent) + MembersText(v, i + 1, indent)
  }

  /** `serialize`, compact or pretty-printed. */
  function Serialized(v: Value, pretty: bool): string
    requires Printable(v)
  {
    if pretty then Text(v, 0) + ['\n'] else Text(v, -1)
  }
}
