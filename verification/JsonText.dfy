/**
 * JSON values as serde_json holds them, what a value means, and a reader of the grammar of
 * RFC 8259: white space (section 2), values (3), objects (4), arrays (5), numbers (6), strings (7).
 */
module JsonText {
  import opened Basics
  import opened Numbers

  /** A number is its text; an object is its members in the order they were inserted. */
  datatype Json =
    | Null
    | Bool(b: bool)
    | Num(text: string)
    | Str(s: string)
    | Arr(items: seq<Json>)
    | Obj(members: seq<Member>)

  datatype Member = Member(key: string, value: Json)

  ghost predicate Distinct(ms: seq<Member>) {
    forall i, k :: 0 <= i < k < |ms| ==> ms[i].key != ms[k].key
  }

  /** What every serde_json value is: its numbers have a number's text, its objects distinct keys. */
  ghost predicate Proper(j: Json) {
    match j
    case Num(text) => IsNumber(text)
    case Arr(items) => forall i :: 0 <= i < |items| ==> Proper(items[i])
    case Obj(ms) => Distinct(ms) && forall i :: 0 <= i < |ms| ==> Proper(ms[i].value)
    case _ => true
  }

  // ---------------------------------------------------------------- meaning

  /** A value with its objects as maps, and its numbers as N. */
  datatype Plain<N> =
    | PNull
    | PBool(b: bool)
    | PNum(n: N)
    | PStr(s: string)
    | PArr(items: seq<Plain<N>>)
    | PObj(members: map<string, Plain<N>>)

  ghost function Meaning<N>(j: Json, num: string -> N): Plain<N>
    decreases j, 0
  {
    match j
    case Null => PNull
    case Bool(b) => PBool(b)
    case Num(text) => PNum(num(text))
    case Str(s) => PStr(s)
    case Arr(items) => PArr(ItemsMeaning(items, |items|, num))
    case Obj(ms) => PObj(MembersMeaning(ms, |ms|, num))
  }

  ghost function ItemsMeaning<N>(items: seq<Json>, n: nat, num: string -> N): (r: seq<Plain<N>>)
    requires n <= |items|
    ensures |r| == n
    decreases items, n
  {
    if n == 0 then [] else ItemsMeaning(items, n - 1, num) + [Meaning(items[n - 1], num)]
  }

  /** The map of the first n members. */
  ghost function MembersMeaning<N>(ms: seq<Member>, n: nat, num: string -> N): map<string, Plain<N>>
    requires n <= |ms|
    decreases ms, n
  {
    if n == 0 then map[] else MembersMeaning(ms, n - 1, num)[ms[n - 1].key := Meaning(ms[n - 1].value, num)]
  }

  // ---------------------------------------------------------------- the reader

  datatype Read<T> = Fail | Done(value: T, rest: string)

  predicate IsSpace(c: char) {
    c == ' ' || c == '\n' || c == '\r' || c == '\t'
  }

  function Skip(s: string): (r: string)
    ensures |r| <= |s|
    ensures r == "" || !IsSpace(r[0])
  {
    if s != "" && IsSpace(s[0]) then Skip(s[1..]) else s
  }

  function HexDigit(c: char): Option<nat> {
    if '0' <= c <= '9' then Some(c as int - '0' as int)
    else if 'a' <= c <= 'f' then Some(10 + c as int - 'a' as int)
    else if 'A' <= c <= 'F' then Some(10 + c as int - 'A' as int)
    else None
  }

  function Scalar(code: int): Option<char> {
    if 0 <= code < 0xD800 || 0xE000 <= code < 0x11_0000 then Some(code as char) else None
  }

  /** The character of an escape of two. */
  function ShortEscape(c: char): Option<char> {
    if c == '"' || c == '\\' || c == '/' then Some(c)
    else if c == 'b' then Some(8 as char)
    else if c == 'f' then Some(12 as char)
    else if c == 'n' then Some('\n')
    else if c == 'r' then Some('\r')
    else if c == 't' then Some('\t')
    else None
  }

  /**
   * Where in a string the reader is: between characters, past a backslash, past `digits` of the
   * four of a code unit, or past a high surrogate, whose low one must be escaped too.
   */
  datatype Mode = Plainly | Escaped | Unit(digits: nat, code: nat, high: Option<nat>) | High(first: nat, slash: bool)

  function Prepend(c: char, r: Read<string>): Read<string> {
    if r.Fail? then Fail else Done([c] + r.value, r.rest)
  }

  /** The characters of a string, after its opening quote, up to and past its closing one. */
  function StringRead(s: string, mode: Mode): (r: Read<string>)
    ensures r.Done? ==> |r.rest| < |s|
    decreases |s|
  {
    if s == "" then Fail
    else
      var c, t := s[0], s[1..];
      match mode
      case Plainly =>
        if c == '"' then Done("", t)
        else if c == '\\' then StringRead(t, Escaped)
        else if (c as int) < 0x20 then Fail
        else Prepend(c, StringRead(t, Plainly))
      case Escaped =>
        if c == 'u' then StringRead(t, Unit(0, 0, None))
        else if ShortEscape(c).None? then Fail
        else Prepend(ShortEscape(c).value, StringRead(t, Plainly))
      case High(high, slash) =>
        if !slash && c == '\\' then StringRead(t, High(high, true))
        else if slash && c == 'u' then StringRead(t, Unit(0, 0, Some(high)))
        else Fail
      case Unit(digits, before, high) =>
        if HexDigit(c).None? then Fail
        else
          var code := before * 16 + HexDigit(c).value;
          if digits < 3 then StringRead(t, Unit(digits + 1, code, high))
          else if high.Some? then
            var full := 0x10000 + (high.value - 0xD800) * 0x400 + (code - 0xDC00);
            if 0xDC00 <= code < 0xE000 && Scalar(full).Some? then Prepend(Scalar(full).value, StringRead(t, Plainly))
            else Fail
          else if 0xD800 <= code < 0xDC00 then StringRead(t, High(code, false))
          else if Scalar(code).None? then Fail
          else Prepend(Scalar(code).value, StringRead(t, Plainly))
  }

  /** Where in a number the reader is (section 6). */
  datatype Place = Start | Minus | Zero | Whole | Point | Frac | Mark | Sign | Exp

  /** Where a character takes it, when the grammar has one there. */
  function Next(place: Place, c: char): Option<Place> {
    match place
    case Start => if c == '-' then Some(Minus) else if c == '0' then Some(Zero) else if IsDigit(c) then Some(Whole) else None
    case Minus => if c == '0' then Some(Zero) else if IsDigit(c) then Some(Whole) else None
    case Zero => AfterWhole(c)
    case Whole => if IsDigit(c) then Some(Whole) else AfterWhole(c)
    case Point => if IsDigit(c) then Some(Frac) else None
    case Frac => if IsDigit(c) then Some(Frac) else if c == 'e' || c == 'E' then Some(Mark) else None
    case Mark => if IsDigit(c) then Some(Exp) else if c == '-' || c == '+' then Some(Sign) else None
    case Sign => if IsDigit(c) then Some(Exp) else None
    case Exp => if IsDigit(c) then Some(Exp) else None
  }

  function AfterWhole(c: char): Option<Place> {
    if c == '.' then Some(Point) else if c == 'e' || c == 'E' then Some(Mark) else None
  }

  predicate MayEnd(place: Place) {
    place in {Zero, Whole, Frac, Exp}
  }

  /** The characters of a number, as many as the grammar takes. */
  function NumberRead(s: string, place: Place): (r: Read<string>)
    ensures r.Done? ==> |r.rest| <= |s| && (place.Start? ==> |r.rest| < |s|)
    decreases |s|
  {
    if s != "" && Next(place, s[0]).Some? then Prepend(s[0], NumberRead(s[1..], Next(place, s[0]).value))
    else if MayEnd(place) then Done("", s)
    else Fail
  }

  function WordRead(s: string, word: string): (r: Read<()>)
    ensures r.Done? ==> |r.rest| <= |s| && (word != "" ==> |r.rest| < |s|)
    decreases |word|
  {
    if word == "" then Done((), s)
    else if s != "" && s[0] == word[0] then WordRead(s[1..], word[1..])
    else Fail
  }

  function Valued<T>(r: Read<T>, j: T -> Json): Read<Json> {
    if r.Fail? then Fail else Done(j(r.value), r.rest)
  }

  /** One more at the front of what was read. */
  function Before<T>(first: T, more: Read<seq<T>>): Read<seq<T>> {
    if more.Fail? then Fail else Done([first] + more.value, more.rest)
  }

  /** A value that holds no other. */
  function ScalarRead(t: string): (r: Read<Json>)
    requires t != ""
    ensures r.Done? ==> |r.rest| < |t|
  {
    if t[0] == '"' then Valued(StringRead(t[1..], Plainly), s => Str(s))
    else if t[0] == 'n' then Valued(WordRead(t, "null"), _ => Null)
    else if t[0] == 't' then Valued(WordRead(t, "true"), _ => Bool(true))
    else if t[0] == 'f' then Valued(WordRead(t, "false"), _ => Bool(false))
    else Valued(NumberRead(t, Start), text => Num(text))
  }

  /** One value, after any white space. */
  function ValueRead(s: string): (r: Read<Json>)
    ensures r.Done? ==> |r.rest| < |s|
    decreases |s|, 1
  {
    var t := Skip(s);
    if t == "" then Fail
    else if t[0] == '[' then ArrayRead(Skip(t[1..]))
    else if t[0] == '{' then ObjectRead(Skip(t[1..]))
    else ScalarRead(t)
  }

  /** An array, after its `[`. */
  function ArrayRead(s: string): (r: Read<Json>)
    ensures r.Done? ==> |r.rest| < |s|
    decreases |s|, 3
  {
    if s != "" && s[0] == ']' then Done(Arr([]), s[1..])
    else
      var r := ItemsRead(s);
      if r.Fail? then Fail else Done(Arr(r.value), r.rest)
  }

  /** The items of an array up to and past its `]`: at least one. */
  function ItemsRead(s: string): (r: Read<seq<Json>>)
    ensures r.Done? ==> |r.rest| < |s|
    decreases |s|, 2
  {
    var item := ValueRead(s);
    if item.Fail? then Fail else ItemsGoOn(item.value, Skip(item.rest))
  }

  function ItemsGoOn(item: Json, t: string): (r: Read<seq<Json>>)
    ensures r.Done? ==> |r.rest| < |t|
    decreases |t|, 0
  {
    if t == "" then Fail
    else if t[0] == ']' then Done([item], t[1..])
    else if t[0] != ',' then Fail
    else Before(item, ItemsRead(t[1..]))
  }

  /** An object, after its `{`. */
  function ObjectRead(s: string): (r: Read<Json>)
    ensures r.Done? ==> |r.rest| < |s|
    decreases |s|, 3
  {
    if s != "" && s[0] == '}' then Done(Obj([]), s[1..])
    else
      var r := MembersRead(s);
      if r.Fail? then Fail else Done(Obj(r.value), r.rest)
  }

  /** A key and its colon. */
  function KeyRead(s: string): (r: Read<string>)
    ensures r.Done? ==> |r.rest| < |s|
  {
    var t := Skip(s);
    if t == "" || t[0] != '"' then Fail
    else
      var key := StringRead(t[1..], Plainly);
      if key.Fail? then Fail
      else
        var u := Skip(key.rest);
        if u == "" || u[0] != ':' then Fail else Done(key.value, u[1..])
  }

  /** The members of an object up to and past its `}`: at least one. */
  function MembersRead(s: string): (r: Read<seq<Member>>)
    ensures r.Done? ==> |r.rest| < |s|
    decreases |s|, 2
  {
    var key := KeyRead(s);
    if key.Fail? then Fail else MemberRead(key.value, key.rest)
  }

  /** The value of a member, and the members after it. */
  function MemberRead(key: string, s: string): (r: Read<seq<Member>>)
    ensures r.Done? ==> |r.rest| < |s|
    decreases |s|, 2
  {
    var item := ValueRead(s);
    if item.Fail? then Fail else MembersGoOn(Member(key, item.value), Skip(item.rest))
  }

  function MembersGoOn(m: Member, t: string): (r: Read<seq<Member>>)
    ensures r.Done? ==> |r.rest| < |t|
    decreases |t|, 0
  {
    if t == "" then Fail
    else if t[0] == '}' then Done([m], t[1..])
    else if t[0] != ',' then Fail
    else Before(m, MembersRead(t[1..]))
  }

  /** A JSON text (section 2): one value, white space around it, and nothing else. */
  function Parse(text: string): Option<Json> {
    var r := ValueRead(text);
    if r.Done? && Skip(r.rest) == "" then Some(r.value) else None
  }
}
