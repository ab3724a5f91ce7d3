/**
 * The two writers: `canonical` of ir/json.rs (indented) and `canonical_json` of
 * content_hash.rs (no white space). Both sort an object's keys by code point.
 */
module JsonWrite {
  import opened Basics
  import opened Numbers
  import opened JsonText

  datatype Style = Indented | Compact

  // ---------------------------------------------------------------- the order of keys

  /** Lexicographic by code point, which is what `str::cmp` on UTF-8 bytes is. */
  predicate Below(a: string, b: string) {
    b != "" && (a == "" || a[0] < b[0] || (a[0] == b[0] && Below(a[1..], b[1..])))
  }

  predicate Ascending(ms: seq<Member>) {
    forall i, k :: 0 <= i < k < |ms| ==> Below(ms[i].key, ms[k].key)
  }

  function Insert(m: Member, ms: seq<Member>): (r: seq<Member>)
    ensures |r| == |ms| + 1
    ensures multiset(r) == multiset(ms) + multiset{m}
  {
    if ms == [] || !Below(ms[0].key, m.key) then [m] + ms
    else
      assert ms == [ms[0]] + ms[1..];
      [ms[0]] + Insert(m, ms[1..])
  }

  /** `entries.sort_by(|a, b| a.0.cmp(b.0))`. */
  function Sort(ms: seq<Member>): (r: seq<Member>)
    ensures |r| == |ms|
    ensures multiset(r) == multiset(ms)
  {
    if ms == [] then []
    else
      assert ms == [ms[0]] + ms[1..];
      Insert(ms[0], Sort(ms[1..]))
  }

  // ---------------------------------------------------------------- a value in its written form

  /** Objects sorted all the way down, and each number's text as `num` writes it. */
  function Tidy(j: Json, num: string -> string): Json
    decreases j, 0
  {
    match j
    case Num(text) => Num(num(text))
    case Arr(items) => Arr(TidyItems(items, |items|, num))
    case Obj(ms) => Obj(Sort(TidyMembers(ms, |ms|, num)))
    case _ => j
  }

  function TidyItems(items: seq<Json>, n: nat, num: string -> string): (r: seq<Json>)
    requires n <= |items|
    ensures |r| == n && forall i :: 0 <= i < n ==> r[i] == Tidy(items[i], num)
    decreases items, n
  {
    if n == 0 then [] else TidyItems(items, n - 1, num) + [Tidy(items[n - 1], num)]
  }

  function TidyMembers(ms: seq<Member>, n: nat, num: string -> string): (r: seq<Member>)
    requires n <= |ms|
    ensures |r| == n && forall i :: 0 <= i < n ==> r[i] == Member(ms[i].key, Tidy(ms[i].value, num))
    decreases ms, n
  {
    if n == 0 then []
    else TidyMembers(ms, n - 1, num) + [Member(ms[n - 1].key, Tidy(ms[n - 1].value, num))]
  }

  // ---------------------------------------------------------------- the texts

  function HexChar(n: nat): char
    requires n < 16
  {
    if n < 10 then (n + '0' as int) as char else (n - 10 + 'a' as int) as char
  }

  /** aeson's escapes; serde_json writes \b and \f short as well. */
  function Escape(style: Style, c: char): (e: string)
    ensures e != ""
  {
    if c == '\\' then ['\\', '\\']
    else if c == '"' then ['\\', '"']
    else if c == '\n' then ['\\', 'n']
    else if c == '\r' then ['\\', 'r']
    else if c == '\t' then ['\\', 't']
    else if style == Compact && c as int == 8 then ['\\', 'b']
    else if style == Compact && c as int == 12 then ['\\', 'f']
    else if (c as int) < 0x20 then ['\\', 'u', '0', '0', HexChar(c as int / 16), HexChar(c as int % 16)]
    else [c]
  }

  /** The rest of a string and its closing quote, then `rest`. */
  function EmitString(style: Style, s: string, rest: string): string {
    if s == "" then ['"'] + rest else Escape(style, s[0]) + EmitString(style, s[1..], rest)
  }

  function Indent(level: nat, rest: string): string {
    if level == 0 then rest else [' ', ' '] + Indent(level - 1, rest)
  }

  /** A line break and the indent, where there is one. */
  function Break(style: Style, level: nat, rest: string): string {
    if style == Indented then ['\n'] + Indent(level, rest) else rest
  }

  function Colon(style: Style, rest: string): string {
    if style == Indented then [':', ' '] + rest else [':'] + rest
  }

  /** The text of a tidy value at a level of indent, then `rest`. */
  function Emit(style: Style, j: Json, level: nat, rest: string): string
    decreases j, 0
  {
    match j
    case Null => "null" + rest
    case Bool(b) => (if b then "true" else "false") + rest
    case Num(text) => text + rest
    case Str(s) => ['"'] + EmitString(style, s, rest)
    case Arr(items) =>
      if items == [] then ['[', ']'] + rest
      else ['['] + Break(style, level + 1, EmitItems(style, items, 0, level, rest))
    case Obj(ms) =>
      if ms == [] then ['{', '}'] + rest
      else ['{'] + Break(style, level + 1, EmitMembers(style, ms, 0, level, rest))
  }

  function EmitItems(style: Style, items: seq<Json>, i: nat, level: nat, rest: string): string
    requires i < |items|
    decreases items, |items| - i, 1
  {
    Emit(style, items[i], level + 1, ItemsTail(style, items, i + 1, level, rest))
  }

  /** What follows an item: the next one, or the end of the array. */
  function ItemsTail(style: Style, items: seq<Json>, i: nat, level: nat, rest: string): string
    requires i <= |items|
    decreases items, |items| - i, 2
  {
    if i < |items| then [','] + Break(style, level + 1, EmitItems(style, items, i, level, rest))
    else Break(style, level, [']'] + rest)
  }

  function EmitMembers(style: Style, ms: seq<Member>, i: nat, level: nat, rest: string): string
    requires i < |ms|
    decreases ms, |ms| - i, 1
  {
    ['"'] + EmitString(style, ms[i].key, Colon(style,
      Emit(style, ms[i].value, level + 1, MembersTail(style, ms, i + 1, level, rest))))
  }

  /** What follows a member: the next one, or the end of the object. */
  function MembersTail(style: Style, ms: seq<Member>, i: nat, level: nat, rest: string): string
    requires i <= |ms|
    decreases ms, |ms| - i, 2
  {
    if i < |ms| then [','] + Break(style, level + 1, EmitMembers(style, ms, i, level, rest))
    else Break(style, level, ['}'] + rest)
  }

  /** `canonical`: numbers rewritten, indented, one trailing newline. */
  function Canonical(j: Json): string {
    Emit(Indented, Tidy(j, AsAeson), 0, "\n")
  }

  /** `number`; what is not a number's text is no serde_json number, and is left. */
  function AsAeson(text: string): string {
    if IsNumber(text) then Number(text) else text
  }

  /** A text as it is. */
  function Same(text: string): string {
    text
  }

  /** `canonical_json`: numbers as serde_json writes them. */
  function CanonicalJson(j: Json): string {
    Emit(Compact, Tidy(j, Same), 0, "")
  }
}
