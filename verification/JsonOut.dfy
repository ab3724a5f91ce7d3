/**
 * The writers as they run, pushing onto one string: `write`, `string` and `indent` of ir/json.rs
 * and `write_canonical` of content_hash.rs, each adding exactly the text of what it is given.
 */
module JsonOut {
  import opened Basics
  import opened Numbers
  import opened JsonText
  import opened JsonWrite
  import opened JsonMeaning

  // ---------------------------------------------------------------- a text and what follows it

  lemma {:induction false} StringAppends(style: Style, s: string, rest: string)
    ensures EmitString(style, s, rest) == EmitString(style, s, "") + rest
  {
    if s != "" {
      StringAppends(style, s[1..], rest);
    }
  }

  lemma {:induction false} IndentAppends(level: nat, rest: string)
    ensures Indent(level, rest) == Indent(level, "") + rest
  {
    if level > 0 {
      IndentAppends(level - 1, rest);
    }
  }

  lemma BreakAppends(style: Style, level: nat, a: string, rest: string)
    ensures Break(style, level, a + rest) == Break(style, level, a) + rest
  {
    if style == Indented {
      IndentAppends(level, a + rest);
      IndentAppends(level, a);
    }
  }

  lemma CloseAppends(style: Style, level: nat, bracket: char, rest: string)
    ensures Break(style, level, [bracket] + rest) == Break(style, level, [bracket] + "") + rest
  {
    BreakAppends(style, level, [bracket], rest);
    assert [bracket] + "" == [bracket];
  }

  lemma EntryAppends(style: Style, level: nat, entry: string, rest: string)
    ensures [','] + Break(style, level, entry + rest) == [','] + Break(style, level, entry) + rest
  {
    BreakAppends(style, level, entry, rest);
  }

  lemma {:induction false} EmitAppends(style: Style, j: Json, level: nat, rest: string)
    ensures Emit(style, j, level, rest) == Emit(style, j, level, "") + rest
    decreases j, 0
  {
    match j
    case Arr(items) =>
      if items != [] {
        ItemsAppend(style, items, 0, level, rest);
        BreakAppends(style, level + 1, EmitItems(style, items, 0, level, ""), rest);
      }
    case Obj(ms) =>
      if ms != [] {
        MembersAppend(style, ms, 0, level, rest);
        BreakAppends(style, level + 1, EmitMembers(style, ms, 0, level, ""), rest);
      }
    case _ => ScalarAppends(style, j, level, rest);
  }

  lemma ScalarAppends(style: Style, j: Json, level: nat, rest: string)
    requires !j.Arr? && !j.Obj?
    ensures Emit(style, j, level, rest) == Emit(style, j, level, "") + rest
  {
    if j.Str? {
      StringAppends(style, j.s, rest);
    }
  }

  lemma {:induction false} ItemsAppend(style: Style, items: seq<Json>, i: nat, level: nat, rest: string)
    requires i < |items|
    ensures EmitItems(style, items, i, level, rest) == EmitItems(style, items, i, level, "") + rest
    decreases items, |items| - i, 1
  {
    ItemsTailAppends(style, items, i + 1, level, rest);
    ValueAppends(style, items[i], level + 1, ItemsTail(style, items, i + 1, level, ""), rest);
  }

  lemma {:induction false} ItemsTailAppends(style: Style, items: seq<Json>, i: nat, level: nat, rest: string)
    requires i <= |items|
    ensures ItemsTail(style, items, i, level, rest) == ItemsTail(style, items, i, level, "") + rest
    decreases items, |items| - i, 2
  {
    if i < |items| {
      ItemsAppend(style, items, i, level, rest);
      EntryAppends(style, level + 1, EmitItems(style, items, i, level, ""), rest);
    } else {
      CloseAppends(style, level, ']', rest);
    }
  }

  lemma {:induction false} MembersAppend(style: Style, ms: seq<Member>, i: nat, level: nat, rest: string)
    requires i < |ms|
    ensures EmitMembers(style, ms, i, level, rest) == EmitMembers(style, ms, i, level, "") + rest
    decreases ms, |ms| - i, 1
  {
    var tail := MembersTail(style, ms, i + 1, level, "");
    MembersTailAppends(style, ms, i + 1, level, rest);
    ValueAppends(style, ms[i].value, level + 1, tail, rest);
    KeyAppends(style, ms[i].key, Emit(style, ms[i].value, level + 1, tail), rest);
  }

  lemma {:induction false} ValueAppends(style: Style, j: Json, level: nat, tail: string, rest: string)
    ensures Emit(style, j, level, tail + rest) == Emit(style, j, level, tail) + rest
    decreases j, 1
  {
    EmitAppends(style, j, level, tail + rest);
    EmitAppends(style, j, level, tail);
    Regroup(Emit(style, j, level, ""), tail, rest);
  }

  lemma Regroup(a: string, b: string, c: string)
    ensures a + (b + c) == a + b + c
  {
  }

  lemma KeyAppends(style: Style, key: string, value: string, rest: string)
    ensures ['"'] + EmitString(style, key, Colon(style, value + rest))
      == ['"'] + EmitString(style, key, Colon(style, value)) + rest
  {
    assert Colon(style, value + rest) == Colon(style, value) + rest;
    StringAppends(style, key, Colon(style, value) + rest);
    StringAppends(style, key, Colon(style, value));
    var a, b := EmitString(style, key, ""), Colon(style, value);
    assert a + (b + rest) == a + b + rest;
  }

  lemma {:induction false} MembersTailAppends(style: Style, ms: seq<Member>, i: nat, level: nat, rest: string)
    requires i <= |ms|
    ensures MembersTail(style, ms, i, level, rest) == MembersTail(style, ms, i, level, "") + rest
    decreases ms, |ms| - i, 2
  {
    if i < |ms| {
      MembersAppend(style, ms, i, level, rest);
      EntryAppends(style, level + 1, EmitMembers(style, ms, i, level, ""), rest);
    } else {
      CloseAppends(style, level, '}', rest);
    }
  }

  /** Sorting the entries and then tidying each is tidying them and then sorting. */
  lemma SortThenTidy(ms: seq<Member>, f: string -> string)
    requires Distinct(ms)
    ensures TidyMembers(Sort(ms), |ms|, f) == Sort(TidyMembers(ms, |ms|, f))
  {
    TidiedEntriesAscend(ms, f);
    TidiedAscends(ms, f);
    forall x
      ensures x in Sort(ms) <==> x in ms
    {
      SortHolds(ms, x);
    }
    forall m
      ensures m in TidyMembers(Sort(ms), |ms|, f) <==> m in Sort(TidyMembers(ms, |ms|, f))
    {
      TidiedMember(ms, f, m);
      TidiedEntry(ms, Sort(ms), f, m);
    }
    AscendingIsUnique(TidyMembers(Sort(ms), |ms|, f), Sort(TidyMembers(ms, |ms|, f)));
  }

  lemma TidiedEntriesAscend(ms: seq<Member>, f: string -> string)
    requires Distinct(ms)
    ensures Ascending(TidyMembers(Sort(ms), |ms|, f))
  {
    SortAscends(ms);
  }

  lemma TidiedEntry(ms: seq<Member>, entries: seq<Member>, f: string -> string, m: Member)
    requires |entries| == |ms| && forall x :: x in entries <==> x in ms
    ensures m in TidyMembers(entries, |ms|, f) <==> IsTidied(ms, f, m)
  {
    var p := TidyMembers(entries, |ms|, f);
    if m in p {
      var i :| 0 <= i < |p| && p[i] == m;
      assert entries[i] in ms;
      var k :| 0 <= k < |ms| && ms[k] == entries[i];
      assert m == Member(ms[k].key, Tidy(ms[k].value, f));
    }
    if k :| 0 <= k < |ms| && m == Member(ms[k].key, Tidy(ms[k].value, f)) {
      assert ms[k] in entries;
      var i :| 0 <= i < |ms| && entries[i] == ms[k];
      assert p[i] == m;
    }
  }

  lemma StringStep(style: Style, s: string, i: nat, before: string)
    requires i < |s|
    ensures before + EmitString(style, s[i..], "")
      == before + Escape(style, s[i]) + EmitString(style, s[i + 1..], "")
  {
  }

  /** The sorted references: each of them a member of the object. */
  predicate Entries(ms: seq<Member>, entries: seq<Member>) {
    |entries| == |ms| && forall i :: 0 <= i < |entries| ==> entries[i] in ms
  }

  lemma SortIsEntries(ms: seq<Member>)
    ensures Entries(ms, Sort(ms))
  {
    forall i | 0 <= i < |Sort(ms)|
      ensures Sort(ms)[i] in ms
    {
      SortHolds(ms, Sort(ms)[i]);
    }
  }

  lemma EntryIsMember(ms: seq<Member>, entries: seq<Member>, i: nat)
    requires Proper(Obj(ms)) && Entries(ms, entries) && i < |ms|
    ensures exists k :: 0 <= k < |ms| && ms[k] == entries[i] && Proper(ms[k].value)
  {
    var k :| 0 <= k < |ms| && ms[k] == entries[i];
    assert Proper(ms[k].value);
  }

  // ---------------------------------------------------------------- what is left to write

  /** All of an array's text that is left once its opening and i items are written. */
  function ItemsLeft(style: Style, items: seq<Json>, i: nat, level: nat): string
    requires i <= |items| && items != []
  {
    if i > 0 then ItemsTail(style, items, i, level, "") else Margin(style, level, EmitItems(style, items, 0, level, ""))
  }

  /** All of an object's text that is left once its opening and i members are written. */
  function MembersLeft(style: Style, ms: seq<Member>, i: nat, level: nat): string
    requires i <= |ms| && ms != []
  {
    if i > 0 then MembersTail(style, ms, i, level, "") else Margin(style, level, EmitMembers(style, ms, 0, level, ""))
  }

  /** The indent of an entry, where there is one. */
  function Margin(style: Style, level: nat, rest: string): string {
    if style == Indented then Indent(level + 1, rest) else rest
  }

  /** An opening bracket, with a new line where there are any. */
  function Open(style: Style, bracket: char): string {
    if style == Indented then [bracket, '\n'] else [bracket]
  }

  lemma ItemsEnds(style: Style, items: seq<Json>, level: nat)
    requires items != []
    ensures Emit(style, Arr(items), level, "") == Open(style, '[') + ItemsLeft(style, items, 0, level)
    ensures ItemsLeft(style, items, |items|, level) == Break(style, level, [']'])
  {
    assert [']'] + "" == [']'];
  }

  lemma MembersEnds(style: Style, ms: seq<Member>, level: nat)
    requires ms != []
    ensures Emit(style, Obj(ms), level, "") == Open(style, '{') + MembersLeft(style, ms, 0, level)
    ensures MembersLeft(style, ms, |ms|, level) == Break(style, level, ['}'])
  {
    assert ['}'] + "" == ['}'];
  }

  /** Writing a piece of what is left leaves the rest of it. */
  lemma Peel(text: string, piece: string, left: string, rest: string, whole: string)
    requires text + left == whole && left == piece + rest
    ensures text + piece + rest == whole
  {
  }

  // ---------------------------------------------------------------- the string that is written

  class Out {
    var text: string

    constructor ()
      ensures text == ""
    {
      text := "";
    }

    method Push(s: string)
      modifies this
      ensures text == old(text) + s
    {
      text := text + s;
    }

    method PushIndent(level: nat)
      modifies this
      ensures text == old(text) + Indent(level, "")
    {
      var i := 0;
      while i < level
        invariant 0 <= i <= level
        invariant text + Indent(level - i, "") == old(text) + Indent(level, "")
      {
        assert Indent(level - i, "") == [' ', ' '] + Indent(level - i - 1, "");
        text := text + [' ', ' '];
        i := i + 1;
      }
    }

    /** `string`, and what serde_json writes of a string. */
    method PushString(style: Style, s: string)
      modifies this
      ensures text == old(text) + (['"'] + EmitString(style, s, ""))
    {
      text := text + ['"'];
      assert s[0..] == s;
      var i := 0;
      while i < |s|
        invariant 0 <= i <= |s|
        invariant text + EmitString(style, s[i..], "") == old(text) + (['"'] + EmitString(style, s, ""))
      {
        StringStep(style, s, i, text);
        text := text + Escape(style, s[i]);
        i := i + 1;
      }
      text := text + ['"'];
    }

    /** `write`: the indented text of a value at a level. */
    method Write(j: Json, level: nat)
      requires Proper(j)
      modifies this
      ensures text == old(text) + Emit(Indented, Tidy(j, AsAeson), level, "")
      decreases j
    {
      match j
      case Null => Push("null");
      case Bool(b) => Push(if b then "true" else "false");
      case Num(n) =>
        var formatted := Format(n);
        Push(formatted);
      case Str(s) => PushString(Indented, s);
      case Arr(items) => WriteItems(items, level);
      case Obj(ms) => WriteMembers(ms, level);
    }

    method WriteItems(items: seq<Json>, level: nat)
      requires Proper(Arr(items))
      modifies this
      ensures text == old(text) + Emit(Indented, Tidy(Arr(items), AsAeson), level, "")
      decreases items, 1
    {
      if items == [] {
        Push("[]");
      } else {
        ghost var tidy := TidyItems(items, |items|, AsAeson);
        ghost var whole := text + Emit(Indented, Arr(tidy), level, "");
        ItemsEnds(Indented, tidy, level);
        Peel(text, "[\n", Emit(Indented, Arr(tidy), level, ""), ItemsLeft(Indented, tidy, 0, level), whole);
        Push("[\n");
        WriteAllItems(items, level, whole);
      }
    }

    method WriteAllItems(items: seq<Json>, level: nat, ghost whole: string)
      requires Proper(Arr(items)) && items != []
      requires text + ItemsLeft(Indented, TidyItems(items, |items|, AsAeson), 0, level) == whole
      modifies this
      ensures text == whole
      decreases items, 0, 1
    {
      ghost var tidy := TidyItems(items, |items|, AsAeson);
      ItemsEnds(Indented, tidy, level);
      var i := 0;
      while i < |items|
        invariant 0 <= i <= |items|
        invariant text + ItemsLeft(Indented, tidy, i, level) == whole
      {
        WriteItem(items, i, level, whole);
        i := i + 1;
      }
      CloseIndented(']', level, whole);
    }

    method CloseIndented(bracket: char, level: nat, ghost whole: string)
      requires text + Break(Indented, level, [bracket]) == whole
      modifies this
      ensures text == whole
    {
      Push("\n");
      IndentAppends(level, [bracket]);
      PushIndent(level);
      Push([bracket]);
    }

    /** The pass of the loop that writes the i-th item: it leaves the items after it. */
    method WriteItem(items: seq<Json>, i: nat, level: nat, ghost whole: string)
      requires Proper(Arr(items)) && i < |items|
      requires text + ItemsLeft(Indented, TidyItems(items, |items|, AsAeson), i, level) == whole
      modifies this
      ensures text + ItemsLeft(Indented, TidyItems(items, |items|, AsAeson), i + 1, level) == whole
      decreases items, 0, 0
    {
      ghost var tidy := TidyItems(items, |items|, AsAeson);
      ghost var next := EmitItems(Indented, tidy, i, level, "");
      ghost var after := ItemsTail(Indented, tidy, i + 1, level, "");
      Separate(i, next, level, whole);
      EmitAppends(Indented, tidy[i], level + 1, after);
      Peel(text, Emit(Indented, tidy[i], level + 1, ""), next, after, whole);
      Write(items[i], level + 1);
    }

    /** `,` and a new line between two entries, and the indent. */
    method Separate(i: nat, ghost next: string, level: nat, ghost whole: string)
      requires i == 0 ==> text + Indent(level + 1, next) == whole
      requires i > 0 ==> text + ([','] + Break(Indented, level + 1, next)) == whole
      modifies this
      ensures text + next == whole
    {
      if i > 0 {
        Peel(text, ",\n", [','] + Break(Indented, level + 1, next), Indent(level + 1, next), whole);
        Push(",\n");
      }
      IndentAppends(level + 1, next);
      Peel(text, Indent(level + 1, ""), Indent(level + 1, next), next, whole);
      PushIndent(level + 1);
    }

    method WriteMembers(ms: seq<Member>, level: nat)
      requires Proper(Obj(ms))
      modifies this
      ensures text == old(text) + Emit(Indented, Tidy(Obj(ms), AsAeson), level, "")
      decreases ms, 1
    {
      if ms == [] {
        Push("{}");
      } else {
        var entries := Sort(ms);
        ghost var tidy := TidyMembers(entries, |entries|, AsAeson);
        SortThenTidy(ms, AsAeson);
        SortIsEntries(ms);
        ghost var whole := text + Emit(Indented, Obj(tidy), level, "");
        MembersEnds(Indented, tidy, level);
        Peel(text, "{\n", Emit(Indented, Obj(tidy), level, ""), MembersLeft(Indented, tidy, 0, level), whole);
        Push("{\n");
        WriteAllMembers(ms, entries, level, whole);
      }
    }

    method WriteAllMembers(ms: seq<Member>, entries: seq<Member>, level: nat, ghost whole: string)
      requires Proper(Obj(ms)) && ms != [] && Entries(ms, entries)
      requires text + MembersLeft(Indented, TidyMembers(entries, |entries|, AsAeson), 0, level) == whole
      modifies this
      ensures text == whole
      decreases ms, 0, 1
    {
      ghost var tidy := TidyMembers(entries, |entries|, AsAeson);
      MembersEnds(Indented, tidy, level);
      var i := 0;
      while i < |entries|
        invariant 0 <= i <= |entries|
        invariant text + MembersLeft(Indented, tidy, i, level) == whole
      {
        WriteMember(ms, entries, i, level, whole);
        i := i + 1;
      }
      CloseIndented('}', level, whole);
    }

    method WriteMember(ms: seq<Member>, entries: seq<Member>, i: nat, level: nat, ghost whole: string)
      requires Proper(Obj(ms)) && i < |entries| && Entries(ms, entries)
      requires text + MembersLeft(Indented, TidyMembers(entries, |entries|, AsAeson), i, level) == whole
      modifies this
      ensures text + MembersLeft(Indented, TidyMembers(entries, |entries|, AsAeson), i + 1, level) == whole
      decreases ms, 0, 0
    {
      ghost var tidy := TidyMembers(entries, |entries|, AsAeson);
      ghost var after := MembersTail(Indented, tidy, i + 1, level, "");
      ghost var value := Emit(Indented, tidy[i].value, level + 1, after);
      Separate(i, EmitMembers(Indented, tidy, i, level, ""), level, whole);
      PushKey(Indented, entries[i].key, value, whole);
      EmitAppends(Indented, tidy[i].value, level + 1, after);
      Peel(text, Emit(Indented, tidy[i].value, level + 1, ""), value, after, whole);
      EntryIsMember(ms, entries, i);
      Write(entries[i].value, level + 1);
    }

    /** A key and what stands between it and its value. */
    method PushKey(style: Style, key: string, ghost value: string, ghost whole: string)
      requires text + (['"'] + EmitString(style, key, Colon(style, value))) == whole
      modifies this
      ensures text + value == whole
    {
      ghost var quoted := ['"'] + EmitString(style, key, "");
      StringAppends(style, key, Colon(style, value));
      Peel(text, quoted, ['"'] + EmitString(style, key, Colon(style, value)), Colon(style, value), whole);
      PushString(style, key);
      if style == Indented {
        Peel(text, ": ", Colon(style, value), value, whole);
        Push(": ");
      } else {
        Peel(text, ":", Colon(style, value), value, whole);
        Push(":");
      }
    }

    // -------------------------------------------------------------- `write_canonical`

    method WriteCanonical(j: Json)
      requires Proper(j)
      modifies this
      ensures text == old(text) + Emit(Compact, Tidy(j, Same), 0, "")
      decreases j
    {
      match j
      case Null => Push("null");
      case Bool(b) => Push(if b then "true" else "false");
      case Num(n) => Push(n);
      case Str(s) => PushString(Compact, s);
      case Arr(items) => CanonicalArray(items);
      case Obj(ms) => CanonicalObject(ms);
    }

    method CanonicalArray(items: seq<Json>)
      requires Proper(Arr(items))
      modifies this
      ensures text == old(text) + Emit(Compact, Tidy(Arr(items), Same), 0, "")
      decreases items, 2
    {
      ghost var tidy := TidyItems(items, |items|, Same);
      CompactEnds(tidy);
      ghost var whole := text + Emit(Compact, Arr(tidy), 0, "");
      Peel(text, "[", Emit(Compact, Arr(tidy), 0, ""), CompactItems(tidy, 0), whole);
      Push("[");
      CanonicalItems(items, whole);
    }

    method CanonicalObject(ms: seq<Member>)
      requires Proper(Obj(ms))
      modifies this
      ensures text == old(text) + Emit(Compact, Tidy(Obj(ms), Same), 0, "")
      decreases ms, 2
    {
      var entries := Sort(ms);
      ghost var tidy := TidyMembers(entries, |entries|, Same);
      SortIsEntries(ms);
      SortThenTidy(ms, Same);
      CompactEndsMembers(tidy);
      ghost var whole := text + Emit(Compact, Obj(tidy), 0, "");
      Peel(text, "{", Emit(Compact, Obj(tidy), 0, ""), CompactMembers(tidy, 0), whole);
      Push("{");
      CanonicalMembers(ms, entries, whole);
    }

    method CanonicalItems(items: seq<Json>, ghost whole: string)
      requires Proper(Arr(items))
      requires text + CompactItems(TidyItems(items, |items|, Same), 0) == whole
      modifies this
      ensures text == whole
      decreases items, 1
    {
      var i := 0;
      while i < |items|
        invariant 0 <= i <= |items|
        invariant text + CompactItems(TidyItems(items, |items|, Same), i) == whole
      {
        CanonicalItem(items, i, whole);
        i := i + 1;
      }
      Push("]");
    }

    method CanonicalItem(items: seq<Json>, i: nat, ghost whole: string)
      requires Proper(Arr(items)) && i < |items|
      requires text + CompactItems(TidyItems(items, |items|, Same), i) == whole
      modifies this
      ensures text + CompactItems(TidyItems(items, |items|, Same), i + 1) == whole
      decreases items, 0
    {
      ghost var tidy := TidyItems(items, |items|, Same);
      ghost var next := EmitItems(Compact, tidy, i, 0, "");
      ghost var after := CompactItems(tidy, i + 1);
      if i > 0 {
        Peel(text, ",", CompactItems(tidy, i), next, whole);
        Push(",");
      }
      EmitAtAnyLevel(tidy[i], 1, after);
      EmitAppends(Compact, tidy[i], 0, after);
      Peel(text, Emit(Compact, tidy[i], 0, ""), next, after, whole);
      WriteCanonical(items[i]);
    }

    method CanonicalMembers(ms: seq<Member>, entries: seq<Member>, ghost whole: string)
      requires Proper(Obj(ms)) && Entries(ms, entries)
      requires text + CompactMembers(TidyMembers(entries, |entries|, Same), 0) == whole
      modifies this
      ensures text == whole
      decreases ms, 1
    {
      var i := 0;
      while i < |entries|
        invariant 0 <= i <= |entries|
        invariant text + CompactMembers(TidyMembers(entries, |entries|, Same), i) == whole
      {
        CanonicalMember(ms, entries, i, whole);
        i := i + 1;
      }
      Push("}");
    }

    method CanonicalMember(ms: seq<Member>, entries: seq<Member>, i: nat, ghost whole: string)
      requires Proper(Obj(ms)) && Entries(ms, entries) && i < |entries|
      requires text + CompactMembers(TidyMembers(entries, |entries|, Same), i) == whole
      modifies this
      ensures text + CompactMembers(TidyMembers(entries, |entries|, Same), i + 1) == whole
      decreases ms, 0
    {
      ghost var tidy := TidyMembers(entries, |entries|, Same);
      ghost var next := EmitMembers(Compact, tidy, i, 0, "");
      ghost var after := CompactMembers(tidy, i + 1);
      ghost var value := Emit(Compact, tidy[i].value, 1, after);
      if i > 0 {
        Peel(text, ",", CompactMembers(tidy, i), next, whole);
        Push(",");
      }
      PushKey(Compact, entries[i].key, value, whole);
      EmitAtAnyLevel(tidy[i].value, 1, after);
      EmitAppends(Compact, tidy[i].value, 0, after);
      Peel(text, Emit(Compact, tidy[i].value, 0, ""), value, after, whole);
      EntryIsMember(ms, entries, i);
      WriteCanonical(entries[i].value);
    }
  }

  /** What is left of a compact array, after its `[` and i items. */
  function CompactItems(items: seq<Json>, i: nat): string
    requires i <= |items|
  {
    if i == 0 < |items| then EmitItems(Compact, items, 0, 0, "") else ItemsTail(Compact, items, i, 0, "")
  }

  function CompactMembers(ms: seq<Member>, i: nat): string
    requires i <= |ms|
  {
    if i == 0 < |ms| then EmitMembers(Compact, ms, 0, 0, "") else MembersTail(Compact, ms, i, 0, "")
  }

  lemma CompactEnds(items: seq<Json>)
    ensures Emit(Compact, Arr(items), 0, "") == "[" + CompactItems(items, 0)
  {
  }

  lemma CompactEndsMembers(ms: seq<Member>)
    ensures Emit(Compact, Obj(ms), 0, "") == "{" + CompactMembers(ms, 0)
  {
  }

  /** Compact text has no levels. */
  lemma {:induction false} EmitAtAnyLevel(j: Json, level: nat, rest: string)
    ensures Emit(Compact, j, level, rest) == Emit(Compact, j, 0, rest)
    decreases j, 0
  {
    match j
    case Arr(items) => if items != [] { ItemsAtAnyLevel(items, 0, level, rest); }
    case Obj(ms) => if ms != [] { MembersAtAnyLevel(ms, 0, level, rest); }
    case _ =>
  }

  lemma {:induction false} ItemsAtAnyLevel(items: seq<Json>, i: nat, level: nat, rest: string)
    requires i < |items|
    ensures EmitItems(Compact, items, i, level, rest) == EmitItems(Compact, items, i, 0, rest)
    decreases items, |items| - i
  {
    if i + 1 < |items| {
      ItemsAtAnyLevel(items, i + 1, level, rest);
    }
    EmitAtAnyLevel(items[i], level + 1, ItemsTail(Compact, items, i + 1, level, rest));
    EmitAtAnyLevel(items[i], 1, ItemsTail(Compact, items, i + 1, level, rest));
  }

  lemma {:induction false} MembersAtAnyLevel(ms: seq<Member>, i: nat, level: nat, rest: string)
    requires i < |ms|
    ensures EmitMembers(Compact, ms, i, level, rest) == EmitMembers(Compact, ms, i, 0, rest)
    decreases ms, |ms| - i
  {
    if i + 1 < |ms| {
      MembersAtAnyLevel(ms, i + 1, level, rest);
    }
    EmitAtAnyLevel(ms[i].value, level + 1, MembersTail(Compact, ms, i + 1, level, rest));
    EmitAtAnyLevel(ms[i].value, 1, MembersTail(Compact, ms, i + 1, level, rest));
  }

  // ---------------------------------------------------------------- the two functions

  /** `canonical`. */
  method CanonicalText(j: Json) returns (text: string)
    requires Proper(j)
    ensures text == Canonical(j) && Parse(text).Some?
    ensures AllHeld(j) ==> (Meaning(Parse(text).value, Exactly) == Meaning(j, Exactly) <==> AllKept(j))
  {
    CanonicalIsRead(j);
    if AllHeld(j) {
      CanonicalCanBeInverted(j);
    }
    var out := new Out();
    out.Write(j, 0);
    EmitAppends(Indented, Tidy(j, AsAeson), 0, "\n");
    out.Push("\n");
    text := out.text;
  }

  /** `canonical_json`. */
  method CanonicalJsonText(j: Json) returns (text: string)
    requires Proper(j)
    ensures text == CanonicalJson(j) && Parse(text) == Some(Tidy(j, Same))
  {
    CanonicalJsonIsRead(j);
    var out := new Out();
    out.WriteCanonical(j);
    text := out.text;
  }
}
