/**
 * What both writers write, an RFC 8259 reader reads back: a tidy value, member for member.
 */
module JsonRoundTrip {
  import opened Basics
  import opened Numbers
  import opened JsonText
  import opened JsonWrite

  /** Nothing that could still belong to a number follows. */
  predicate Ends(rest: string) {
    rest == "" || !(IsDigit(rest[0]) || rest[0] in {'-', '+', '.', 'e', 'E'})
  }

  // ---------------------------------------------------------------- white space

  lemma SkipNothing(s: string)
    requires s != "" && !IsSpace(s[0])
    ensures Skip(s) == s
  {
  }

  lemma {:induction false} SkipIndent(level: nat, rest: string)
    ensures Skip(Indent(level, rest)) == Skip(rest)
  {
    if level > 0 {
      var s := Indent(level, rest);
      var t := Indent(level - 1, rest);
      assert s[1..] == [' '] + t && s[1..][1..] == t;
      SkipIndent(level - 1, rest);
    }
  }

  lemma SkipBreak(style: Style, level: nat, rest: string)
    ensures Skip(Break(style, level, rest)) == Skip(rest)
    ensures style == Compact || Ends(Break(style, level, rest))
  {
    if style == Indented {
      assert Break(style, level, rest)[1..] == Indent(level, rest);
      SkipIndent(level, rest);
    }
  }

  /** A value's text starts with neither white space nor a closing bracket. */
  lemma EmitStarts(style: Style, j: Json, level: nat, rest: string)
    requires Proper(j)
    ensures var t := Emit(style, j, level, rest);
      t != "" && !IsSpace(t[0]) && t[0] != ']' && t[0] != '}'
  {
  }

  lemma NumberStarts(text: string)
    requires IsNumber(text)
    ensures text != "" && (text[0] == '-' || IsDigit(text[0]))
  {
  }

  // ---------------------------------------------------------------- strings

  lemma HexCharRead(n: nat)
    requires n < 16
    ensures HexDigit(HexChar(n)) == Some(n)
  {
  }

  /** The digits of \u00xy, one by one. */
  lemma UnitIsRead(c: char, s: string, rest: string)
    requires (c as int) < 0x20
    requires s == ['u', '0', '0', HexChar(c as int / 16), HexChar(c as int % 16)] + rest
    ensures StringRead(s, Escaped) == Prepend(c, StringRead(rest, Plainly))
  {
    var x, y := HexChar(c as int / 16), HexChar(c as int % 16);
    var s1, s2, s3 := ['0', '0', x, y] + rest, ['0', x, y] + rest, [x, y] + rest;
    assert s[1..] == s1 && s1[1..] == s2 && s2[1..] == s3;
    LastHexIsRead(c, s3, rest);
    assert StringRead(s2, Unit(1, 0, None)) == StringRead(s3, Unit(2, 0, None));
    assert StringRead(s1, Unit(0, 0, None)) == StringRead(s2, Unit(1, 0, None));
  }

  lemma LastHexIsRead(c: char, s: string, rest: string)
    requires (c as int) < 0x20 && s == [HexChar(c as int / 16), HexChar(c as int % 16)] + rest
    ensures StringRead(s, Unit(2, 0, None)) == Prepend(c, StringRead(rest, Plainly))
  {
    var y := HexChar(c as int % 16);
    HexCharRead(c as int / 16);
    HexCharRead(c as int % 16);
    var s1 := [y] + rest;
    assert s[1..] == s1 && s1[1..] == rest;
    assert StringRead(s1, Unit(3, c as int / 16, None)) == Prepend(c, StringRead(rest, Plainly));
  }

  /** Every escape is read back as the character it escapes. */
  lemma EscapeIsRead(style: Style, c: char, rest: string)
    ensures StringRead(Escape(style, c) + rest, Plainly) == Prepend(c, StringRead(rest, Plainly))
  {
    var e := Escape(style, c);
    var s := e + rest;
    var t := e[1..] + rest;
    assert s[1..] == t;
    if |e| == 6 {
      UnitIsRead(c, t, rest);
    } else if |e| == 2 {
      assert t[1..] == rest;
    } else {
      assert t == rest;
    }
  }

  lemma {:induction false} StringIsRead(style: Style, s: string, rest: string)
    ensures StringRead(EmitString(style, s, rest), Plainly) == Done(s, rest)
  {
    var text := EmitString(style, s, rest);
    if s == "" {
      assert text[1..] == rest;
    } else {
      EscapeIsRead(style, s[0], EmitString(style, s[1..], rest));
      StringIsRead(style, s[1..], rest);
      assert [s[0]] + s[1..] == s;
    }
  }

  // ---------------------------------------------------------------- numbers

  lemma {:induction false} DigitsAreRead(place: Place, d: string, tail: string, v: string, rest: string)
    requires AllDigits(d) && place in {Whole, Frac, Exp} && NumberRead(tail, place) == Done(v, rest)
    ensures NumberRead(d + tail, place) == Done(d + v, rest)
  {
    if d == "" {
      assert d + tail == tail && d + v == v;
    } else {
      DigitsAreRead(place, d[1..], tail, v, rest);
      StepIsRead(place, place, d[0], d[1..] + tail, d[1..] + v, rest);
      assert [d[0]] + (d[1..] + tail) == d + tail && [d[0]] + (d[1..] + v) == d + v;
    }
  }

  lemma StepIsRead(place: Place, next: Place, c: char, tail: string, v: string, rest: string)
    requires Next(place, c) == Some(next) && NumberRead(tail, next) == Done(v, rest)
    ensures NumberRead([c] + tail, place) == Done([c] + v, rest)
  {
  }

  /** Digits of which the first leads on. */
  lemma FirstIsRead(place: Place, next: Place, d: string, tail: string, v: string, rest: string)
    requires d != "" && AllDigits(d) && Next(place, d[0]) == Some(next)
    requires (next in {Whole, Frac, Exp} || |d| == 1) && NumberRead(tail, next) == Done(v, rest)
    ensures NumberRead(d + tail, place) == Done(d + v, rest)
  {
    if |d| > 1 {
      DigitsAreRead(next, d[1..], tail, v, rest);
    } else {
      assert d[1..] + tail == tail && d[1..] + v == v;
    }
    StepIsRead(place, next, d[0], d[1..] + tail, d[1..] + v, rest);
    assert [d[0]] + (d[1..] + tail) == d + tail && [d[0]] + (d[1..] + v) == d + v;
  }

  /** The digits of an exponent, which end the number. */
  lemma LastDigitsAreRead(place: Place, d: string, rest: string)
    requires d != "" && AllDigits(d) && Ends(rest) && place in {Mark, Sign}
    ensures NumberRead(d + rest, place) == Done(d, rest)
  {
    FirstIsRead(place, Exp, d, rest, [], rest);
    assert d + [] == d;
  }

  lemma SignedIsRead(t: string, rest: string)
    requires SignedDigits(t) && Ends(rest)
    ensures NumberRead(t + rest, Mark) == Done(t, rest)
  {
    if t[0] == '-' || t[0] == '+' {
      var d := t[1..];
      LastDigitsAreRead(Sign, d, rest);
      StepIsRead(Mark, Sign, t[0], d + rest, d, rest);
      Rejoined(t, rest);
    } else {
      LastDigitsAreRead(Mark, t, rest);
    }
  }

  lemma Rejoined(t: string, rest: string)
    requires t != ""
    ensures [t[0]] + (t[1..] + rest) == t + rest && [t[0]] + t[1..] == t
  {
  }

  function ExpText(p: Parts): string {
    if p.exp.Some? then [p.exp.value.mark] + p.exp.value.text else ""
  }

  lemma ExpIsRead(p: Parts, rest: string, place: Place)
    requires WellFormed(p) && Ends(rest) && place in {Zero, Whole, Frac}
    ensures NumberRead(ExpText(p) + rest, place) == Done(ExpText(p), rest)
  {
    if p.exp.Some? {
      MarkIsRead(p.exp.value.mark, p.exp.value.text, rest, place);
    } else {
      assert ExpText(p) + rest == rest;
    }
  }

  lemma MarkIsRead(mark: char, t: string, rest: string, place: Place)
    requires SignedDigits(t) && mark in {'e', 'E'} && Ends(rest) && place in {Zero, Whole, Frac}
    ensures NumberRead([mark] + t + rest, place) == Done([mark] + t, rest)
  {
    SignedIsRead(t, rest);
    LeadIsRead(place, Mark, mark, t, rest, t, rest);
  }

  /** A character that leads on, and what is read after it. */
  lemma LeadIsRead(place: Place, next: Place, c: char, t: string, tail: string, v: string, rest: string)
    requires Next(place, c) == Some(next) && NumberRead(t + tail, next) == Done(v, rest)
    ensures NumberRead([c] + t + tail, place) == Done([c] + v, rest)
  {
    Regrouped([c], t, tail);
    StepIsRead(place, next, c, t + tail, v, rest);
  }

  /** What follows the whole part. */
  function AfterText(p: Parts): string {
    if p.frac.Some? then ['.'] + p.frac.value + ExpText(p) else ExpText(p)
  }

  lemma AfterIsRead(p: Parts, rest: string, place: Place)
    requires WellFormed(p) && Ends(rest) && place in {Zero, Whole}
    ensures NumberRead(AfterText(p) + rest, place) == Done(AfterText(p), rest)
  {
    if p.frac.Some? {
      ExpIsRead(p, rest, Frac);
      PointIsRead(p.frac.value, ExpText(p), rest, place);
    } else {
      ExpIsRead(p, rest, place);
    }
  }

  lemma Regrouped(a: string, b: string, c: string)
    ensures a + (b + c) == a + b + c
  {
  }

  lemma PointIsRead(d: string, e: string, rest: string, place: Place)
    requires d != "" && AllDigits(d) && place in {Zero, Whole} && NumberRead(e + rest, Frac) == Done(e, rest)
    ensures NumberRead(['.'] + d + e + rest, place) == Done(['.'] + d + e, rest)
  {
    FirstIsRead(Point, Frac, d, e + rest, e, rest);
    StepIsRead(place, Point, '.', d + (e + rest), d + e, rest);
    Regrouped(d, e, rest);
    Regrouped(['.'], d + e, rest);
    Regrouped(['.'], d, e);
  }

  lemma BodyIsNumber(p: Parts, rest: string, place: Place)
    requires WellFormed(p) && Ends(rest) && place in {Start, Minus}
    ensures NumberRead(p.whole + AfterText(p) + rest, place) == Done(p.whole + AfterText(p), rest)
  {
    var after := if p.whole[0] == '0' then Zero else Whole;
    AfterIsRead(p, rest, after);
    WholeIsNumber(p.whole, AfterText(p), rest, place, after);
  }

  lemma WholeIsNumber(w: string, a: string, rest: string, place: Place, after: Place)
    requires w != "" && AllDigits(w) && Next(place, w[0]) == Some(after)
    requires (after == Whole || |w| == 1) && NumberRead(a + rest, after) == Done(a, rest)
    ensures NumberRead(w + a + rest, place) == Done(w + a, rest)
  {
    FirstIsRead(place, after, w, a + rest, a, rest);
    Regrouped(w, a, rest);
  }

  lemma NumberIsRead(text: string, rest: string)
    requires IsNumber(text) && Ends(rest)
    ensures NumberRead(text + rest, Start) == Done(text, rest)
  {
    RenderIsBody(Split(text));
    RenderIsRead(Split(text), rest);
  }

  lemma RenderIsRead(p: Parts, rest: string)
    requires WellFormed(p) && Ends(rest)
    ensures var body := p.whole + AfterText(p); var text := if p.negative then ['-'] + body else body;
      NumberRead(text + rest, Start) == Done(text, rest)
  {
    var body := p.whole + AfterText(p);
    if p.negative {
      BodyIsNumber(p, rest, Minus);
      StepIsRead(Start, Minus, '-', body + rest, body, rest);
      assert ['-'] + (body + rest) == ['-'] + body + rest;
    } else {
      BodyIsNumber(p, rest, Start);
    }
  }

  lemma RenderIsBody(p: Parts)
    ensures Render(p) == if p.negative then ['-'] + (p.whole + AfterText(p)) else p.whole + AfterText(p)
  {
  }

  lemma {:induction false} WordIsRead(word: string, rest: string)
    ensures WordRead(word + rest, word) == Done((), rest)
  {
    if word == "" {
      assert word + rest == rest;
    } else {
      assert (word + rest)[1..] == word[1..] + rest;
      WordIsRead(word[1..], rest);
    }
  }

  // ---------------------------------------------------------------- values

  lemma ScalarIsRead(style: Style, j: Json, level: nat, rest: string)
    requires Proper(j) && !j.Arr? && !j.Obj? && Ends(rest)
    ensures var t := Emit(style, j, level, rest); t != "" && t[0] != '[' && t[0] != '{' && ScalarRead(t) == Done(j, rest)
  {
    match j
    case Null => WordIsRead("null", rest);
    case Bool(b) => WordIsRead(if b then "true" else "false", rest);
    case Num(text) => NumberScalarIsRead(text, rest);
    case Str(str) => StringScalarIsRead(style, str, rest);
  }

  lemma NumberScalarIsRead(text: string, rest: string)
    requires IsNumber(text) && Ends(rest)
    ensures var t := text + rest; t != "" && t[0] != '[' && t[0] != '{' && ScalarRead(t) == Done(Num(text), rest)
  {
    NumberStarts(text);
    NumberIsRead(text, rest);
  }

  lemma StringScalarIsRead(style: Style, str: string, rest: string)
    ensures ScalarRead(['"'] + EmitString(style, str, rest)) == Done(Str(str), rest)
  {
    StringIsRead(style, str, rest);
    assert (['"'] + EmitString(style, str, rest))[1..] == EmitString(style, str, rest);
  }

  /** What a value's text, any white space before it, is read as. */
  lemma {:induction false} ValueIsRead(style: Style, j: Json, level: nat, rest: string, s: string)
    requires Proper(j) && Ends(rest) && Skip(s) == Emit(style, j, level, rest)
    ensures ValueRead(s) == Done(j, rest)
    decreases j, 0
  {
    if j.Arr? {
      ArrayIsRead(style, j.items, level, rest, Skip(s));
    } else if j.Obj? {
      ObjectIsRead(style, j.members, level, rest, Skip(s));
    } else {
      ScalarIsRead(style, j, level, rest);
    }
  }

  lemma {:induction false} ArrayIsRead(style: Style, items: seq<Json>, level: nat, rest: string, t: string)
    requires Proper(Arr(items)) && Ends(rest) && t == Emit(style, Arr(items), level, rest)
    ensures t[0] == '[' && ArrayRead(Skip(t[1..])) == Done(Arr(items), rest)
    decreases items, |items| + 1
  {
    var u := Skip(t[1..]);
    if items == [] {
      assert t[1..] == [']'] + rest;
      SkipNothing(t[1..]);
      assert u[1..] == rest;
    } else {
      var first := EmitItems(style, items, 0, level, rest);
      assert t[1..] == Break(style, level + 1, first);
      SkipBreak(style, level + 1, first);
      ItemsStart(style, items, 0, level, rest);
      ItemsAreRead(style, items, 0, level, rest, u);
      assert items[0..] == items;
    }
  }

  lemma ItemsStart(style: Style, items: seq<Json>, i: nat, level: nat, rest: string)
    requires Proper(Arr(items)) && i < |items|
    ensures var t := EmitItems(style, items, i, level, rest);
      Skip(t) == t && t != "" && t[0] != ']'
  {
  }

  lemma ItemsTailIsRead(style: Style, items: seq<Json>, i: nat, level: nat, rest: string)
    requires Proper(Arr(items)) && i <= |items|
    ensures var tail := ItemsTail(style, items, i, level, rest); var t := Skip(tail);
      Ends(tail) && t != "" &&
      if i < |items| then t[0] == ',' && Skip(t[1..]) == EmitItems(style, items, i, level, rest)
      else t[0] == ']' && t[1..] == rest
  {
    var tail := ItemsTail(style, items, i, level, rest);
    if i < |items| {
      var next := EmitItems(style, items, i, level, rest);
      SkipNothing(tail);
      assert tail[1..] == Break(style, level + 1, next);
      SkipBreak(style, level + 1, next);
      ItemsStart(style, items, i, level, rest);
    } else {
      var close := [']'] + rest;
      SkipBreak(style, level, close);
      SkipNothing(close);
      assert close[1..] == rest;
    }
  }

  lemma {:induction false} ItemsAreRead(style: Style, items: seq<Json>, i: nat, level: nat, rest: string, s: string)
    requires Proper(Arr(items)) && i < |items| && Ends(rest)
    requires Skip(s) == EmitItems(style, items, i, level, rest)
    ensures ItemsRead(s) == Done(items[i..], rest)
    decreases items, |items| - i, 2
  {
    ItemsTailGoesOn(style, items, i, level, rest);
    ItemIsRead(style, items[i], level + 1, ItemsTail(style, items, i + 1, level, rest), s);
  }

  lemma {:induction false} ItemsTailGoesOn(style: Style, items: seq<Json>, i: nat, level: nat, rest: string)
    requires Proper(Arr(items)) && i < |items| && Ends(rest)
    ensures var tail := ItemsTail(style, items, i + 1, level, rest);
      Ends(tail) && ItemsGoOn(items[i], Skip(tail)) == Done(items[i..], rest)
    decreases items, |items| - i, 1
  {
    ItemsTailIsRead(style, items, i + 1, level, rest);
    ItemsAfter(style, items, i, level, rest, Skip(ItemsTail(style, items, i + 1, level, rest)));
  }

  lemma {:induction false} ItemIsRead(style: Style, item: Json, level: nat, tail: string, s: string)
    requires Proper(item) && Ends(tail) && Skip(s) == Emit(style, item, level, tail)
    ensures ItemsRead(s) == ItemsGoOn(item, Skip(tail))
    decreases item, 1
  {
    ValueIsRead(style, item, level, tail, s);
    ItemsGoOnFrom(s, item, tail);
  }

  lemma {:induction false} ItemsAfter(style: Style, items: seq<Json>, i: nat, level: nat, rest: string, t: string)
    requires Proper(Arr(items)) && i < |items| && Ends(rest) && t != ""
    requires if i + 1 < |items| then t[0] == ',' && Skip(t[1..]) == EmitItems(style, items, i + 1, level, rest)
      else t[0] == ']' && t[1..] == rest
    ensures ItemsGoOn(items[i], t) == Done(items[i..], rest)
    decreases items, |items| - i, 0
  {
    if i + 1 < |items| {
      ItemsAreRead(style, items, i + 1, level, rest, t[1..]);
    }
    ItemsStep(items, i, t, rest);
  }

  lemma ItemsGoOnFrom(s: string, item: Json, tail: string)
    requires ValueRead(s) == Done(item, tail)
    ensures ItemsRead(s) == ItemsGoOn(item, Skip(tail))
  {
  }

  lemma ItemsStep(items: seq<Json>, i: nat, t: string, rest: string)
    requires i < |items| && t != ""
    requires if i + 1 < |items| then t[0] == ',' && ItemsRead(t[1..]) == Done(items[i + 1..], rest)
      else t[0] == ']' && t[1..] == rest
    ensures ItemsGoOn(items[i], t) == Done(items[i..], rest)
  {
    FromHere(items, i, rest);
  }

  lemma FromHere<T>(xs: seq<T>, i: nat, rest: string)
    requires i < |xs|
    ensures Before(xs[i], Done(xs[i + 1..], rest)) == Done(xs[i..], rest)
    ensures i + 1 == |xs| ==> xs[i..] == [xs[i]]
  {
    assert xs[i..] == [xs[i]] + xs[i + 1..];
  }

  lemma {:induction false} ObjectIsRead(style: Style, ms: seq<Member>, level: nat, rest: string, t: string)
    requires Proper(Obj(ms)) && Ends(rest) && t == Emit(style, Obj(ms), level, rest)
    ensures t[0] == '{' && ObjectRead(Skip(t[1..])) == Done(Obj(ms), rest)
    decreases ms, |ms| + 1
  {
    var u := Skip(t[1..]);
    if ms == [] {
      assert t[1..] == ['}'] + rest;
      SkipNothing(t[1..]);
      assert u[1..] == rest;
    } else {
      var first := EmitMembers(style, ms, 0, level, rest);
      assert t[1..] == Break(style, level + 1, first);
      SkipBreak(style, level + 1, first);
      SkipNothing(first);
      MembersAreRead(style, ms, 0, level, rest, u);
      assert ms[0..] == ms;
    }
  }

  lemma KeyIsRead(style: Style, key: string, value: string, s: string)
    requires Skip(s) == ['"'] + EmitString(style, key, Colon(style, value))
    requires value != "" && !IsSpace(value[0])
    ensures KeyRead(s).Done? && KeyRead(s).value == key && Skip(KeyRead(s).rest) == value
  {
    var t := Skip(s);
    var after := Colon(style, value);
    StringIsRead(style, key, after);
    assert t[1..] == EmitString(style, key, after);
    SkipNothing(after);
    SkipNothing(value);
    if style == Indented {
      assert after[1..] == [' '] + value && after[1..][1..] == value;
    } else {
      assert after[1..] == value;
    }
  }

  lemma MembersTailIsRead(style: Style, ms: seq<Member>, i: nat, level: nat, rest: string)
    requires i <= |ms|
    ensures var tail := MembersTail(style, ms, i, level, rest); var t := Skip(tail);
      Ends(tail) && t != "" &&
      if i < |ms| then t[0] == ',' && Skip(t[1..]) == EmitMembers(style, ms, i, level, rest)
      else t[0] == '}' && t[1..] == rest
  {
    var tail := MembersTail(style, ms, i, level, rest);
    if i < |ms| {
      var next := EmitMembers(style, ms, i, level, rest);
      SkipNothing(tail);
      assert tail[1..] == Break(style, level + 1, next);
      SkipBreak(style, level + 1, next);
      SkipNothing(next);
    } else {
      var close := ['}'] + rest;
      SkipBreak(style, level, close);
      SkipNothing(close);
      assert close[1..] == rest;
    }
  }

  lemma {:induction false} MembersAreRead(style: Style, ms: seq<Member>, i: nat, level: nat, rest: string, s: string)
    requires Proper(Obj(ms)) && i < |ms| && Ends(rest)
    requires Skip(s) == EmitMembers(style, ms, i, level, rest)
    ensures MembersRead(s) == Done(ms[i..], rest)
    decreases ms, |ms| - i, 1
  {
    var value := Emit(style, ms[i].value, level + 1, MembersTail(style, ms, i + 1, level, rest));
    EmitStarts(style, ms[i].value, level + 1, MembersTail(style, ms, i + 1, level, rest));
    KeyIsRead(style, ms[i].key, value, s);
    MemberIsRead(style, ms, i, level, rest, KeyRead(s).rest);
  }

  lemma {:induction false} MemberIsRead(style: Style, ms: seq<Member>, i: nat, level: nat, rest: string, s: string)
    requires Proper(Obj(ms)) && i < |ms| && Ends(rest)
    requires Skip(s) == Emit(style, ms[i].value, level + 1, MembersTail(style, ms, i + 1, level, rest))
    ensures MemberRead(ms[i].key, s) == Done(ms[i..], rest)
    decreases ms, |ms| - i, 0, 2
  {
    MembersTailGoesOn(style, ms, i, level, rest);
    MemberValueIsRead(style, ms[i], level + 1, MembersTail(style, ms, i + 1, level, rest), s);
  }

  lemma {:induction false} MembersTailGoesOn(style: Style, ms: seq<Member>, i: nat, level: nat, rest: string)
    requires Proper(Obj(ms)) && i < |ms| && Ends(rest)
    ensures var tail := MembersTail(style, ms, i + 1, level, rest);
      Ends(tail) && MembersGoOn(ms[i], Skip(tail)) == Done(ms[i..], rest)
    decreases ms, |ms| - i, 0, 1
  {
    MembersTailIsRead(style, ms, i + 1, level, rest);
    MembersAfter(style, ms, i, level, rest, Skip(MembersTail(style, ms, i + 1, level, rest)));
  }

  lemma {:induction false} MemberValueIsRead(style: Style, m: Member, level: nat, tail: string, s: string)
    requires Proper(m.value) && Ends(tail) && Skip(s) == Emit(style, m.value, level, tail)
    ensures MemberRead(m.key, s) == MembersGoOn(m, Skip(tail))
    decreases m.value, 1
  {
    ValueIsRead(style, m.value, level, tail, s);
    MembersGoOnFrom(s, m, tail);
  }

  lemma {:induction false} MembersAfter(style: Style, ms: seq<Member>, i: nat, level: nat, rest: string, t: string)
    requires Proper(Obj(ms)) && i < |ms| && Ends(rest) && t != ""
    requires if i + 1 < |ms| then t[0] == ',' && Skip(t[1..]) == EmitMembers(style, ms, i + 1, level, rest)
      else t[0] == '}' && t[1..] == rest
    ensures MembersGoOn(ms[i], t) == Done(ms[i..], rest)
    decreases ms, |ms| - i, 0, 0
  {
    if i + 1 < |ms| {
      MembersAreRead(style, ms, i + 1, level, rest, t[1..]);
    }
    MembersStep(ms, i, t, rest);
  }

  lemma MembersGoOnFrom(s: string, m: Member, tail: string)
    requires ValueRead(s) == Done(m.value, tail)
    ensures MemberRead(m.key, s) == MembersGoOn(m, Skip(tail))
  {
  }

  lemma MembersStep(ms: seq<Member>, i: nat, t: string, rest: string)
    requires i < |ms| && t != ""
    requires if i + 1 < |ms| then t[0] == ',' && MembersRead(t[1..]) == Done(ms[i + 1..], rest)
      else t[0] == '}' && t[1..] == rest
    ensures MembersGoOn(ms[i], t) == Done(ms[i..], rest)
  {
    FromHere(ms, i, rest);
  }
}
