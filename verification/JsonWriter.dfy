/** The printer, which appends to an output iterator. */
module JsonWriter {
  import JsonReader
  import JsonRoundTrip
  import opened JsonValue
  import opened Seqs
  import opened Wrappers

  class Output {
    var text: string

    constructor ()
      ensures text == ""
    {
      text := "";
    }

    method Put(s: string)
      modifies this
      ensures text == old(text) + s
    {
      text := text + s;
    }
  }

  method SerializeStr(s: string, oi: Output)
    modifies oi
    ensures oi.text == old(oi.text) + StringText(s)
  {
    ghost var start, done := oi.text, "";
    oi.Put(['"']);
    for i := 0 to |s|
      invariant oi.text == start + (['"'] + done) && done + Escaped(s[i..]) == Escaped(s)
    {
      EscapedNext(s, i);
      oi.Put(Escape(s[i]));
      Assoc(done, Escape(s[i]), Escaped(s[i + 1..]));
      Regroup4(start, ['"'], done, Escape(s[i]));
      done := done + Escape(s[i]);
    }
    assert Escaped(s[|s|..]) == "" && done + "" == done;
    oi.Put(['"']);
    Regroup4(start, ['"'], done, ['"']);
    Assoc(['"'], done, ['"']);
  }

  lemma EscapedNext(s: string, i: nat)
    requires i < |s|
    ensures Escaped(s[i..]) == Escape(s[i]) + Escaped(s[i + 1..])
  {
    assert s[i..][1..] == s[i + 1..];
  }

  lemma Regroup4(a: string, b: string, c: string, d: string)
    ensures (a + (b + c)) + d == a + (b + (c + d))
  {
  }

  method Indent(oi: Output, indent: int)
    requires indent >= 0
    modifies oi
    ensures oi.text == old(oi.text) + Break(indent)
  {
    oi.Put(['\n']);
    for i := 0 to indent * 2
      invariant oi.text == old(oi.text) + (['\n'] + Spaces(i))
    {
      oi.Put([' ']);
      assert Spaces(i) + [' '] == Spaces(i + 1);
    }
  }

  /** The outermost value of a pretty-printed document is the one with indent 0. */
  method Serialize(v: Value, indent: int, oi: Output)
    requires Printable(v) && indent >= -1
    modifies oi
    ensures oi.text == old(oi.text) + (Text(v, indent) + if indent == 0 then ['\n'] else "")
    decreases v, 2
  {
    ghost var start := oi.text;
    if v.Str? {
      SerializeStr(v.s, oi);
    } else if v.Arr? {
      SerializeArray(v, indent, oi);
    } else if v.Obj? {
      SerializeObject(v, indent, oi);
    } else {
      oi.Put(Text(v, indent));
    }
    assert oi.text == start + Text(v, indent);
    if indent == 0 {
      oi.Put(['\n']);
      Assoc(start, Text(v, indent), ['\n']);
    } else {
      assert Text(v, indent) + "" == Text(v, indent);
    }
  }

  lemma Closed(start: string, open: string, body: string, end: string, close: string)
    ensures start + open + body + end + close == start + (open + body + end + close)
    ensures start + open + body + "" == start + open + body
  {
  }

  method SerializeArray(v: Value, indent: int, oi: Output)
    requires Printable(v) && v.Arr? && indent >= -1
    modifies oi
    ensures oi.text == old(oi.text) + Text(v, indent)
    decreases v, 1
  {
    oi.Put(['[']);
    var inner := if indent != -1 then indent + 1 else indent;
    ghost var all := oi.text + ItemsText(v, 0, inner);
    for i := 0 to |v.items|
      invariant oi.text + ItemsText(v, i, inner) == all
    {
      Assoc(oi.text, ItemText(v, i, inner), ItemsText(v, i + 1, inner));
      SerializeItem(v, i, inner, oi);
    }
    assert oi.text + "" == oi.text;
    if indent != -1 && v.items != [] {
      Indent(oi, indent);
    }
    oi.Put([']']);
    Closed(old(oi.text), ['['], ItemsText(v, 0, inner), if v.items == [] then "" else Break(indent), [']']);
  }

  method SerializeItem(v: Value, i: nat, indent: int, oi: Output)
    requires Printable(v) && v.Arr? && i < |v.items| && indent >= -1 && indent != 0
    modifies oi
    ensures oi.text == old(oi.text) + ItemText(v, i, indent)
    decreases v, 0
  {
    ghost var start := oi.text;
    Separate(i, indent, oi);
    Serialize(v.items[i], indent, oi);
    assert Text(v.items[i], indent) + "" == Text(v.items[i], indent);
    Assoc(start, Comma(i) + Break(indent), Text(v.items[i], indent));
  }

  /** The comma and the line break in front of an item or a member. */
  method Separate(i: nat, indent: int, oi: Output)
    requires indent >= -1
    modifies oi
    ensures oi.text == old(oi.text) + (Comma(i) + Break(indent))
  {
    if i != 0 {
      oi.Put([',']);
    }
    if indent != -1 {
      Indent(oi, indent);
    }
  }

  method SerializeObject(v: Value, indent: int, oi: Output)
    requires Printable(v) && v.Obj? && indent >= -1
    modifies oi
    ensures oi.text == old(oi.text) + Text(v, indent)
    decreases v, 1
  {
    oi.Put(['{']);
    var inner := if indent != -1 then indent + 1 else indent;
    ghost var all := oi.text + MembersText(v, 0, inner);
    for i := 0 to |v.members|
      invariant oi.text + MembersText(v, i, inner) == all
    {
      Assoc(oi.text, MemberText(v, i, inner), MembersText(v, i + 1, inner));
      SerializeMember(v, i, inner, oi);
    }
    assert oi.text + "" == oi.text;
    if indent != -1 && v.members != [] {
      Indent(oi, indent);
    }
    oi.Put(['}']);
    Closed(old(oi.text), ['{'], MembersText(v, 0, inner), if v.members == [] then "" else Break(indent), ['}']);
  }

  method SerializeMember(v: Value, i: nat, indent: int, oi: Output)
    requires Printable(v) && v.Obj? && i < |v.members| && indent >= -1 && indent != 0
    modifies oi
    ensures oi.text == old(oi.text) + MemberText(v, i, indent)
    decreases v, 0
  {
    ghost var start, m := oi.text, v.members[i];
    Separate(i, indent, oi);
    SerializeKey(v.members[i].key, indent, oi);
    Assoc(start, Comma(i) + Break(indent), KeyText(m.key, indent));
    Serialize(v.members[i].value, indent, oi);
    assert Text(m.value, indent) + "" == Text(m.value, indent);
    Assoc(start, Comma(i) + Break(indent) + KeyText(m.key, indent), Text(m.value, indent));
  }

  method SerializeKey(key: string, indent: int, oi: Output)
    requires indent >= -1
    modifies oi
    ensures oi.text == old(oi.text) + KeyText(key, indent)
  {
    SerializeStr(key, oi);
    oi.Put([':']);
    if indent != -1 {
      oi.Put([' ']);
    }
  }

  method SerializeText(v: Value, pretty: bool) returns (text: string)
    requires Printable(v)
    ensures text == Serialized(v, pretty)
  {
    var oi := new Output();
    Serialize(v, if pretty then 0 else -1, oi);
    text := oi.text;
  }

  /** Printing and reading back: the value comes back, and the reader stops behind it. The newline behind a
      pretty-printed value is not read, except behind a number, where it has been fetched and pushed back. */
  method ReadBack(v: Value, pretty: bool) returns (text: string, back: Option<Value>, at: nat)
    requires Printable(v)
    ensures text == Serialized(v, pretty) && back == Some(v)
    ensures at == if pretty && !JsonReader.IsNumber(v) then |text| - 1 else |text|
  {
    text := SerializeText(v, pretty);
    JsonRoundTrip.RoundTrip(v, pretty, "");
    assert Serialized(v, pretty) + "" == Serialized(v, pretty);
    var line;
    ghost var fetched;
    back, at, line, fetched := JsonReader.ParseText(text);
  }
}
