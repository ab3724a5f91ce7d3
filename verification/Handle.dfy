/**
 * The text of a Handle, `{plugin_id}@{version}::{method}:meta...`: `Display` and `FromStr` of
 * src/types.rs. A plugin id is any type with a text and a reader of it.
 */
module Handles {
  import opened Basics

  datatype Handle<U> = Handle(plugin: U, version: string, name: string, meta: seq<string>)

  /** How ids are written and read; a written id has no `@` and is read back. */
  datatype Ids<!U> = Ids(show: U -> string, read: string -> Option<U>)

  ghost predicate GoodIds<U(!new)>(ids: Ids<U>) {
    forall u :: '@' !in ids.show(u) && ids.read(ids.show(u)) == Some(u)
  }

  // ---------------------------------------------------------------- splitting

  /** Where a character first is, or the length (`find`). */
  function Find(s: string, c: char): (i: nat)
    ensures i <= |s| && (forall k :: 0 <= k < i ==> s[k] != c) && (i < |s| ==> s[i] == c)
  {
    if s == "" || s[0] == c then 0 else 1 + Find(s[1..], c)
  }

  /** Where `::` first is, or the length. */
  function FindDouble(s: string): (i: nat)
    ensures i <= |s|
  {
    if |s| < 2 then |s| else if s[0] == ':' && s[1] == ':' then 0 else 1 + FindDouble(s[1..])
  }

  /** `split(':')`: one part more than there are colons. */
  function SplitColons(s: string): (r: seq<string>)
    ensures r != []
    decreases |s|
  {
    var i := Find(s, ':');
    if i == |s| then [s] else [s[..i]] + SplitColons(s[i + 1..])
  }

  /** The parts, a colon before each but the first. */
  function JoinColons(parts: seq<string>): string
    requires parts != []
  {
    if |parts| == 1 then parts[0] else parts[0] + ([':'] + JoinColons(parts[1..]))
  }

  // ---------------------------------------------------------------- the code

  /** What follows the `@`. */
  function AfterAt<U>(h: Handle<U>): string {
    h.version + ("::" + JoinColons([h.name] + h.meta))
  }

  /** `Display`. */
  function Show<U>(ids: Ids<U>, h: Handle<U>): string {
    ids.show(h.plugin) + ("@" + AfterAt(h))
  }

  lemma {:induction false} JoinAppends(parts: seq<string>, last: string)
    requires parts != []
    ensures JoinColons(parts + [last]) == JoinColons(parts) + ([':'] + last)
  {
    if |parts| > 1 {
      JoinAppends(parts[1..], last);
      assert (parts + [last])[1..] == parts[1..] + [last];
    } else {
      assert (parts + [last])[1..] == [last];
    }
  }

  /** `Display::fmt`: the meta parts written one by one. */
  method Write<U>(ids: Ids<U>, h: Handle<U>) returns (out: string)
    ensures out == Show(ids, h)
  {
    out := ids.show(h.plugin) + ("@" + (h.version + ("::" + h.name)));
    var i := 0;
    while i < |h.meta|
      invariant 0 <= i <= |h.meta|
      invariant out == ids.show(h.plugin) + ("@" + (h.version + ("::" + JoinColons([h.name] + h.meta[..i]))))
    {
      JoinAppends([h.name] + h.meta[..i], h.meta[i]);
      assert [h.name] + h.meta[..i + 1] == [h.name] + h.meta[..i] + [h.meta[i]];
      out := out + ([':'] + h.meta[i]);
      i := i + 1;
    }
    assert h.meta[..i] == h.meta;
  }

  function ReadRest<U>(plugin: U, rest: string): Option<Handle<U>> {
    var i := FindDouble(rest);
    if i + 2 > |rest| then None
    else
      var parts := SplitColons(rest[i + 2..]);
      Some(Handle(plugin, rest[..i], parts[0], parts[1..]))
  }

  /** `FromStr`. */
  function Parse<U>(ids: Ids<U>, s: string): Option<Handle<U>> {
    var at := Find(s, '@');
    if at == |s| then None
    else
      var plugin := ids.read(s[..at]);
      if plugin.None? then None else ReadRest(plugin.value, s[at + 1..])
  }

  // ---------------------------------------------------------------- which handles come back

  predicate NoDouble(s: string) {
    forall i :: 0 <= i < |s| - 1 ==> s[i] != ':' || s[i + 1] != ':'
  }

  /** The version has no `::` and does not end in `:`; the method and the meta parts have no `:`. */
  predicate Clean<U>(h: Handle<U>) {
    && NoDouble(h.version) && (h.version != "" ==> h.version[|h.version| - 1] != ':')
    && ':' !in h.name
    && forall i :: 0 <= i < |h.meta| ==> ':' !in h.meta[i]
  }

  lemma FindFirst(a: string, c: char, b: string)
    requires c !in a
    ensures Find(a + ([c] + b), c) == |a|
  {
    var s := a + ([c] + b);
    assert s[|a|] == c;
    assert forall k :: 0 <= k < |a| ==> s[k] == a[k];
  }

  lemma {:induction false} SplitOfJoin(parts: seq<string>)
    requires parts != [] && forall i :: 0 <= i < |parts| ==> ':' !in parts[i]
    ensures SplitColons(JoinColons(parts)) == parts
  {
    var s := JoinColons(parts);
    if |parts| == 1 {
      assert Find(s, ':') == |s|;
    } else {
      FindFirst(parts[0], ':', JoinColons(parts[1..]));
      assert s[|parts[0]| + 1..] == JoinColons(parts[1..]);
      SplitOfJoin(parts[1..]);
      assert parts == [parts[0]] + parts[1..];
    }
  }

  lemma {:induction false} JoinOfSplit(s: string)
    ensures JoinColons(SplitColons(s)) == s
    ensures forall i :: 0 <= i < |SplitColons(s)| ==> ':' !in SplitColons(s)[i]
    decreases |s|
  {
    var i := Find(s, ':');
    if i == |s| {
      assert s[..i] == s;
    } else {
      JoinOfSplit(s[i + 1..]);
      assert SplitColons(s)[1..] == SplitColons(s[i + 1..]);
      assert s == s[..i] + ([':'] + s[i + 1..]);
    }
  }

  /** The first `::` is the separator exactly when the version holds none and leans on none. */
  lemma {:induction false} DoubleFirst(v: string, rest: string)
    requires NoDouble(v) && (v != "" ==> v[|v| - 1] != ':')
    ensures FindDouble(v + ("::" + rest)) == |v|
  {
    var s := v + ("::" + rest);
    if v == "" {
      assert s[0] == ':' && s[1] == ':';
    } else {
      assert s[1..] == v[1..] + ("::" + rest);
      assert |v| > 1 ==> s[1] == v[1];
      DoubleFirst(v[1..], rest);
    }
  }

  lemma {:induction false} BeforeDouble(s: string)
    ensures var i := FindDouble(s);
      NoDouble(s[..i]) && (i + 2 <= |s| ==> s[i] == ':' && s[i + 1] == ':' && (i > 0 ==> s[i - 1] != ':'))
  {
    if |s| >= 2 && !(s[0] == ':' && s[1] == ':') {
      BeforeDouble(s[1..]);
      var i := FindDouble(s);
      assert s[..i] == [s[0]] + s[1..][..i - 1];
    }
  }

  /** The text: the id, the version, the method, and each meta part after a colon. */
  lemma ShowSays<U>(ids: Ids<U>, h: Handle<U>, last: string)
    ensures h.meta == [] ==> Show(ids, h) == ids.show(h.plugin) + "@" + h.version + "::" + h.name
    ensures Show(ids, h.(meta := h.meta + [last])) == Show(ids, h) + ":" + last
  {
    var front, parts := ids.show(h.plugin) + "@" + h.version + "::", [h.name] + h.meta;
    assert Show(ids, h) == front + JoinColons(parts);
    assert [h.name] + (h.meta + [last]) == parts + [last];
    JoinAppends(parts, last);
    assert Show(ids, h.(meta := h.meta + [last])) == front + (JoinColons(parts) + ([':'] + last));
  }

  lemma {:induction false} DoubleOrEnd(s: string)
    ensures FindDouble(s) + 2 <= |s| || FindDouble(s) == |s|
  {
    if |s| >= 2 && !(s[0] == ':' && s[1] == ':') {
      DoubleOrEnd(s[1..]);
    }
  }

  /** A text is a handle's exactly when what stands before its first `@` is read as an id and a
      `::` follows. */
  lemma ParsesWhen<U>(ids: Ids<U>, s: string)
    ensures Parse(ids, s).Some? <==>
      exists at :: 0 <= at < |s| && s[at] == '@' && '@' !in s[..at] && ids.read(s[..at]).Some? && !NoDouble(s[at + 1..])
  {
    var at := Find(s, '@');
    if at < |s| {
      var rest := s[at + 1..];
      BeforeDouble(rest);
      DoubleOrEnd(rest);
      assert FindDouble(rest) == |rest| ==> rest[..FindDouble(rest)] == rest;
      assert '@' !in s[..at];
    }
    forall k | 0 <= k < |s| && s[k] == '@' && '@' !in s[..k]
      ensures k == at
    {
    }
  }

  /** A clean handle comes back from its text. */
  lemma CleanComesBack<U(!new)>(ids: Ids<U>, h: Handle<U>)
    requires GoodIds(ids) && Clean(h)
    ensures Parse(ids, Show(ids, h)) == Some(h)
  {
    FindFirst(ids.show(h.plugin), '@', AfterAt(h));
    CutAtMark(ids.show(h.plugin), AfterAt(h));
    RestComesBack(h);
  }

  lemma CutAtMark(a: string, b: string)
    ensures var s := a + ("@" + b); |a| < |s| && s[..|a|] == a && s[|a| + 1..] == b
  {
  }

  lemma RestComesBack<U>(h: Handle<U>)
    requires Clean(h)
    ensures ReadRest(h.plugin, AfterAt(h)) == Some(h)
  {
    var parts := [h.name] + h.meta;
    DoubleFirst(h.version, JoinColons(parts));
    CutAtDouble(h.version, JoinColons(parts));
    SplitOfJoin(parts);
    RestIsRead(h.plugin, AfterAt(h), h);
  }

  lemma CutAtDouble(a: string, b: string)
    ensures var s := a + ("::" + b); |a| + 2 <= |s| && s[..|a|] == a && s[|a| + 2..] == b
  {
  }

  lemma RestIsRead<U>(plugin: U, rest: string, h: Handle<U>)
    requires plugin == h.plugin && FindDouble(rest) == |h.version| && |h.version| + 2 <= |rest|
    requires rest[..|h.version|] == h.version && SplitColons(rest[|h.version| + 2..]) == [h.name] + h.meta
    ensures ReadRest(plugin, rest) == Some(h)
  {
    assert ([h.name] + h.meta)[1..] == h.meta;
  }

  /** What a text is parsed to is clean, and displays all after the `@` as it was. */
  lemma ParsedIsClean<U(!new)>(ids: Ids<U>, s: string)
    requires Parse(ids, s).Some?
    ensures Clean(Parse(ids, s).value)
    ensures Find(s, '@') < |s| && AfterAt(Parse(ids, s).value) == s[Find(s, '@') + 1..]
  {
    ParsedFrom(ids, s);
    RestIsClean(ids.read(s[..Find(s, '@')]).value, s[Find(s, '@') + 1..]);
  }

  lemma ParsedFrom<U(!new)>(ids: Ids<U>, s: string)
    requires Parse(ids, s).Some?
    ensures var at := Find(s, '@');
      at < |s| && ids.read(s[..at]).Some? && Parse(ids, s) == ReadRest(ids.read(s[..at]).value, s[at + 1..])
  {
  }

  lemma RestIsClean<U>(plugin: U, rest: string)
    requires ReadRest(plugin, rest).Some?
    ensures Clean(ReadRest(plugin, rest).value) && AfterAt(ReadRest(plugin, rest).value) == rest
  {
    var i := FindDouble(rest);
    var tail := rest[i + 2..];
    BeforeDouble(rest);
    JoinOfSplit(tail);
    var parts := SplitColons(tail);
    assert [parts[0]] + parts[1..] == parts;
    CutAt(rest, i);
  }

  lemma CutAt(rest: string, i: nat)
    requires i + 2 <= |rest| && rest[i] == ':' && rest[i + 1] == ':'
    ensures rest == rest[..i] + ("::" + rest[i + 2..])
  {
  }

  /** parse(display(h)) == h exactly for the clean handles. */
  lemma RoundTripsIffClean<U(!new)>(ids: Ids<U>, h: Handle<U>)
    requires GoodIds(ids)
    ensures Parse(ids, Show(ids, h)) == Some(h) <==> Clean(h)
  {
    if Clean(h) {
      CleanComesBack(ids, h);
    } else if Parse(ids, Show(ids, h)) == Some(h) {
      ParsedIsClean(ids, Show(ids, h));
    }
  }
}
