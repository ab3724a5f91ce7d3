/**
 * What the two writers' texts look like: a value's text put together from those of its parts, the
 * escapes of a string, and the order of keys.
 */
module JsonLayout {
  import opened Basics
  import opened Numbers
  import opened JsonText
  import opened JsonWrite

  // ---------------------------------------------------------------- a text from its parts

  function Join(texts: seq<string>, between: string): string {
    if texts == [] then "" else if |texts| == 1 then texts[0] else texts[0] + between + Join(texts[1..], between)
  }

  /** A new line, two spaces a level; nothing in compact text. */
  function Line(style: Style, level: nat): string {
    if style == Compact then "" else "\n" + seq(2 * level, _ => ' ')
  }

  function Escapes(style: Style, s: string): (r: seq<string>)
    ensures |r| == |s| && forall i :: 0 <= i < |r| ==> r[i] == Escape(style, s[i])
  {
    seq(|s|, i requires 0 <= i < |s| => Escape(style, s[i]))
  }

  function Quoted(style: Style, s: string): string {
    "\"" + Join(Escapes(style, s), "") + "\""
  }

  /** A value's text: what is empty closed at once, what is not with each part on a line of its own. */
  function Text(style: Style, j: Json, level: nat): string
    decreases j
  {
    match j
    case Null => "null"
    case Bool(b) => if b then "true" else "false"
    case Num(text) => text
    case Str(s) => Quoted(style, s)
    case Arr(items) =>
      if items == [] then "[]"
      else
        "[" + Line(style, level + 1) + Join(ItemTexts(style, items, level + 1), "," + Line(style, level + 1)) + Line(style, level) + "]"
    case Obj(ms) =>
      if ms == [] then "{}"
      else
        "{" + Line(style, level + 1) + Join(MemberTexts(style, ms, level + 1), "," + Line(style, level + 1)) + Line(style, level) + "}"
  }

  function ItemTexts(style: Style, items: seq<Json>, level: nat): (r: seq<string>)
    ensures |r| == |items| && forall i :: 0 <= i < |r| ==> r[i] == Text(style, items[i], level)
    decreases items
  {
    seq(|items|, i requires 0 <= i < |items| => Text(style, items[i], level))
  }

  function MemberTexts(style: Style, ms: seq<Member>, level: nat): (r: seq<string>)
    ensures |r| == |ms|
    ensures forall i :: 0 <= i < |r| ==>
      r[i] == Quoted(style, ms[i].key) + (if style == Compact then ":" else ": ") + Text(style, ms[i].value, level)
    decreases ms
  {
    seq(|ms|, i requires 0 <= i < |ms| =>
      Quoted(style, ms[i].key) + (if style == Compact then ":" else ": ") + Text(style, ms[i].value, level))
  }

  lemma Assoc(a: string, b: string, c: string)
    ensures a + (b + c) == a + b + c
  {
  }

  lemma {:induction false} IndentIsSpaces(level: nat, rest: string)
    ensures Indent(level, rest) == seq(2 * level, _ => ' ') + rest
  {
    if level > 0 {
      IndentIsSpaces(level - 1, rest);
      assert seq(2 * level, _ => ' ') == [' ', ' '] + seq(2 * (level - 1), _ => ' ');
    } else {
      assert seq(0, _ => ' ') + rest == rest;
    }
  }

  lemma BreakIsLine(style: Style, level: nat, rest: string)
    ensures Break(style, level, rest) == Line(style, level) + rest
  {
    if style == Indented {
      IndentIsSpaces(level, rest);
      Assoc("\n", seq(2 * level, _ => ' '), rest);
    } else {
      assert "" + rest == rest;
    }
  }

  lemma StringIsQuoted(style: Style, s: string, rest: string)
    ensures ['"'] + EmitString(style, s, rest) == Quoted(style, s) + rest
  {
    EscapesAreJoined(style, s, rest);
    var escapes := Join(Escapes(style, s), "");
    Assoc("\"", escapes, "\"" + rest);
    Assoc("\"" + escapes, "\"", rest);
  }

  lemma {:induction false} EscapesAreJoined(style: Style, s: string, rest: string)
    ensures EmitString(style, s, rest) == Join(Escapes(style, s), "") + ("\"" + rest)
  {
    if s == "" {
      assert "" + ("\"" + rest) == ['"'] + rest;
    } else {
      EscapesAreJoined(style, s[1..], rest);
      EscapesGoOn(style, s);
      Assoc(Escape(style, s[0]), Join(Escapes(style, s[1..]), ""), "\"" + rest);
    }
  }

  lemma EscapesGoOn(style: Style, s: string)
    requires s != ""
    ensures Join(Escapes(style, s), "") == Escape(style, s[0]) + Join(Escapes(style, s[1..]), "")
  {
    var escapes := Escapes(style, s);
    assert escapes[1..] == Escapes(style, s[1..]);
    JoinGoesOn(escapes, "");
    assert escapes[0] + "" == escapes[0];
  }

  lemma JoinGoesOn(texts: seq<string>, between: string)
    requires texts != []
    ensures Join(texts, between) == texts[0] + (if |texts| == 1 then "" else between) + Join(texts[1..], between)
  {
  }

  // ---------------------------------------------------------------- the writers' texts are those

  /** A part, and what follows it: the next one, or the end. */
  lemma PartIsJoined(texts: seq<string>, between: string, i: nat, end: string)
    requires i < |texts|
    ensures Join(texts[i..], between) + end
      == texts[i] + if i + 1 < |texts| then between + (Join(texts[i + 1..], between) + end) else end
  {
    JoinGoesOn(texts[i..], between);
    assert texts[i..][1..] == texts[i + 1..];
    if i + 1 < |texts| {
      Assoc(texts[i], between, Join(texts[i + 1..], between));
      Assoc(texts[i], between + Join(texts[i + 1..], between), end);
      Assoc(between, Join(texts[i + 1..], between), end);
    } else {
      assert texts[i..] == [texts[i]];
    }
  }

  lemma ClosedIsJoined(open: string, line: string, inner: string, last: string, close: string, rest: string)
    ensures open + (line + (inner + (last + (close + rest)))) == open + line + inner + last + close + rest
  {
    Assoc(last, close, rest);
    Assoc(inner, last + close, rest);
    Assoc(inner, last, close);
    Assoc(line, inner + last + close, rest);
    Assoc(open, line + (inner + last + close), rest);
    assert open + (line + (inner + last + close)) == open + line + inner + last + close;
  }

  lemma {:induction false} ValueIsText(style: Style, j: Json, level: nat, rest: string)
    ensures Emit(style, j, level, rest) == Text(style, j, level) + rest
    decreases j, 0
  {
    match j
    case Str(s) => StringIsQuoted(style, s, rest);
    case Arr(items) =>
      if items != [] {
        ItemsAreJoined(style, items, 0, level, rest);
        var texts := ItemTexts(style, items, level + 1);
        assert texts[0..] == texts;
        BreakIsLine(style, level + 1, EmitItems(style, items, 0, level, rest));
        ClosedIsJoined("[", Line(style, level + 1), Join(texts, "," + Line(style, level + 1)), Line(style, level), "]", rest);
      }
    case Obj(ms) =>
      if ms != [] {
        MembersAreJoined(style, ms, 0, level, rest);
        var texts := MemberTexts(style, ms, level + 1);
        assert texts[0..] == texts;
        BreakIsLine(style, level + 1, EmitMembers(style, ms, 0, level, rest));
        ClosedIsJoined("{", Line(style, level + 1), Join(texts, "," + Line(style, level + 1)), Line(style, level), "}", rest);
      }
    case _ =>
  }

  lemma {:induction false} ItemsAreJoined(style: Style, items: seq<Json>, i: nat, level: nat, rest: string)
    requires i < |items|
    ensures EmitItems(style, items, i, level, rest)
      == Join(ItemTexts(style, items, level + 1)[i..], "," + Line(style, level + 1)) + (Line(style, level) + ("]" + rest))
    decreases items, |items| - i
  {
    var texts, between := ItemTexts(style, items, level + 1), "," + Line(style, level + 1);
    var tail := ItemsTail(style, items, i + 1, level, rest);
    ValueIsText(style, items[i], level + 1, tail);
    PartIsJoined(texts, between, i, Line(style, level) + ("]" + rest));
    if i + 1 < |items| {
      ItemsAreJoined(style, items, i + 1, level, rest);
      BreakIsLine(style, level + 1, EmitItems(style, items, i + 1, level, rest));
      Assoc(",", Line(style, level + 1), EmitItems(style, items, i + 1, level, rest));
    } else {
      BreakIsLine(style, level, "]" + rest);
    }
  }

  lemma {:induction false} MembersAreJoined(style: Style, ms: seq<Member>, i: nat, level: nat, rest: string)
    requires i < |ms|
    ensures EmitMembers(style, ms, i, level, rest)
      == Join(MemberTexts(style, ms, level + 1)[i..], "," + Line(style, level + 1)) + (Line(style, level) + ("}" + rest))
    decreases ms, |ms| - i
  {
    var texts, between := MemberTexts(style, ms, level + 1), "," + Line(style, level + 1);
    MemberIsText(style, ms, i, level, rest);
    PartIsJoined(texts, between, i, Line(style, level) + ("}" + rest));
    if i + 1 < |ms| {
      MembersAreJoined(style, ms, i + 1, level, rest);
      BreakIsLine(style, level + 1, EmitMembers(style, ms, i + 1, level, rest));
      Assoc(",", Line(style, level + 1), EmitMembers(style, ms, i + 1, level, rest));
    } else {
      BreakIsLine(style, level, "}" + rest);
    }
  }

  lemma {:induction false} MemberIsText(style: Style, ms: seq<Member>, i: nat, level: nat, rest: string)
    requires i < |ms|
    ensures EmitMembers(style, ms, i, level, rest)
      == MemberTexts(style, ms, level + 1)[i] + MembersTail(style, ms, i + 1, level, rest)
    decreases ms, 0
  {
    var tail := MembersTail(style, ms, i + 1, level, rest);
    ValueIsText(style, ms[i].value, level + 1, tail);
    var value, colon := Text(style, ms[i].value, level + 1), if style == Compact then ":" else ": ";
    StringIsQuoted(style, ms[i].key, Colon(style, value + tail));
    Assoc(colon, value, tail);
    Assoc(Quoted(style, ms[i].key), colon, value + tail);
    Assoc(Quoted(style, ms[i].key) + colon, value, tail);
  }

  // ---------------------------------------------------------------- escapes and keys

  /** What is escaped and how: a quote, a backslash and what is under a space, and nothing else;
      the hexadecimal digits in lower case. */
  lemma EscapeSays(style: Style, c: char)
    ensures var e := Escape(style, c);
      && (e == [c] <==> c as int >= 0x20 && c != '"' && c != '\\')
      && (c == '"' ==> e == "\\\"") && (c == '\\' ==> e == "\\\\")
      && (c == '\n' ==> e == "\\n") && (c == '\r' ==> e == "\\r") && (c == '\t' ==> e == "\\t")
      && (style == Compact && c as int == 8 ==> e == "\\b") && (style == Compact && c as int == 12 ==> e == "\\f")
      && (c as int < 0x20 && c != '\n' && c != '\r' && c != '\t' && (style == Indented || (c as int != 8 && c as int != 12)) ==>
            && |e| == 6 && e[..4] == "\\u00"
            && e[4] in "0123456789abcdef" && e[5] in "0123456789abcdef"
            && HexDigit(e[4]) == Some(c as int / 16) && HexDigit(e[5]) == Some(c as int % 16))
  {
    if c as int < 0x20 {
      HexCharSays(c as int / 16);
      HexCharSays(c as int % 16);
    }
  }

  lemma HexCharSays(n: nat)
    requires n < 16
    ensures HexChar(n) in "0123456789abcdef" && HexDigit(HexChar(n)) == Some(n)
  {
    assert "0123456789abcdef"[n] == HexChar(n);
  }

  /** Two texts agree up to `i`, where the first ends or has the lower code point. */
  ghost predicate DiffersBelow(a: string, b: string, i: nat) {
    && i <= |a| && i < |b|
    && (forall k :: 0 <= k < i ==> a[k] == b[k])
    && (i == |a| || a[i] < b[i])
  }

  /** The order of keys is by the first code point that differs, a text before what it begins. */
  lemma {:induction false} BelowIsFirstDifference(a: string, b: string)
    ensures Below(a, b) <==> exists i: nat :: DiffersBelow(a, b, i)
  {
    if a != "" && b != "" && a[0] == b[0] {
      BelowIsFirstDifference(a[1..], b[1..]);
      if i: nat :| DiffersBelow(a[1..], b[1..], i) {
        assert forall k :: 0 < k < i + 1 ==> a[k] == a[1..][k - 1] && b[k] == b[1..][k - 1];
        assert DiffersBelow(a, b, i + 1);
      }
      if i: nat :| DiffersBelow(a, b, i) {
        assert DiffersBelow(a[1..], b[1..], i - 1);
      }
    } else if Below(a, b) {
      assert DiffersBelow(a, b, 0);
    }
  }

  /**
   * The two canonical texts: of the value with its keys in order, each part on a line of its own
   * and a line break after it, or with no white space at all.
   */
  lemma CanonicalIsText(j: Json)
    ensures Canonical(j) == Text(Indented, Tidy(j, AsAeson), 0) + "\n"
    ensures CanonicalJson(j) == Text(Compact, Tidy(j, Same), 0)
  {
    ValueIsText(Indented, Tidy(j, AsAeson), 0, "\n");
    ValueIsText(Compact, Tidy(j, Same), 0, "");
    assert Text(Compact, Tidy(j, Same), 0) + "" == Text(Compact, Tidy(j, Same), 0);
  }
}
