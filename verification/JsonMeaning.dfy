/**
 * What the two canonical texts say: an RFC 8259 reader gets a value of the same meaning back,
 * values of one meaning print identically, and canonical JSON is uniquely decodable.
 */
module JsonMeaning {
  import opened Basics
  import opened Numbers
  import opened JsonText
  import opened JsonWrite
  import opened JsonRoundTrip

  // ---------------------------------------------------------------- the order of keys

  lemma {:induction false} BelowIsTotal(a: string, b: string)
    requires a != b
    ensures Below(a, b) || Below(b, a)
  {
    if a != "" && b != "" && a[0] == b[0] {
      assert a == [a[0]] + a[1..] && b == [b[0]] + b[1..];
      BelowIsTotal(a[1..], b[1..]);
    }
  }

  lemma {:induction false} BelowIsOneWay(a: string, b: string)
    requires Below(a, b)
    ensures !Below(b, a) && a != b
  {
    if a != "" && a[0] == b[0] {
      BelowIsOneWay(a[1..], b[1..]);
    }
  }

  lemma {:induction false} BelowIsTransitive(a: string, b: string, c: string)
    requires Below(a, b) && Below(b, c)
    ensures Below(a, c)
  {
    if a != "" && a[0] == b[0] == c[0] {
      BelowIsTransitive(a[1..], b[1..], c[1..]);
    }
  }

  lemma InMultiset(m: Member, ms: seq<Member>)
    ensures m in multiset(ms) <==> m in ms
  {
  }

  lemma {:induction false} InsertAscends(m: Member, ms: seq<Member>)
    requires Ascending(ms) && forall i :: 0 <= i < |ms| ==> ms[i].key != m.key
    ensures Ascending(Insert(m, ms))
  {
    if ms != [] {
      var rest := ms[1..];
      if Below(ms[0].key, m.key) {
        InsertAscends(m, rest);
        var r := Insert(m, rest);
        forall k | 0 <= k < |r|
          ensures Below(ms[0].key, r[k].key)
        {
          assert r[k] in multiset(r);
          InMultiset(r[k], rest);
        }
      } else {
        BelowIsTotal(ms[0].key, m.key);
        forall k | 0 <= k < |ms|
          ensures Below(m.key, ms[k].key)
        {
          if k > 0 {
            BelowIsTransitive(m.key, ms[0].key, ms[k].key);
          }
        }
      }
    }
  }

  lemma SortHolds(ms: seq<Member>, m: Member)
    ensures m in Sort(ms) <==> m in ms
  {
    InMultiset(m, Sort(ms));
    InMultiset(m, ms);
  }

  lemma {:induction false} SortAscends(ms: seq<Member>)
    requires Distinct(ms)
    ensures Ascending(Sort(ms))
  {
    if ms != [] {
      var rest := ms[1..];
      SortAscends(rest);
      forall i | 0 <= i < |rest|
        ensures Sort(rest)[i].key != ms[0].key
      {
        SortHolds(rest, Sort(rest)[i]);
        var k :| 0 <= k < |rest| && rest[k] == Sort(rest)[i];
        assert rest[k] == ms[k + 1];
      }
      InsertAscends(ms[0], Sort(rest));
    }
  }

  lemma AscendingIsDistinct(ms: seq<Member>)
    requires Ascending(ms)
    ensures Distinct(ms)
  {
    forall i, k | 0 <= i < k < |ms|
      ensures ms[i].key != ms[k].key
    {
      BelowIsOneWay(ms[i].key, ms[k].key);
    }
  }

  /** There is one ascending sequence of any members. */
  lemma {:induction false} AscendingIsUnique(p: seq<Member>, q: seq<Member>)
    requires Ascending(p) && Ascending(q) && forall m :: m in p <==> m in q
    ensures p == q
  {
    assert q != [] ==> q[0] in q;
    if p != [] {
      assert p[0] in q;
      FirstIsFirst(p, q);
      forall m
        ensures m in p[1..] <==> m in q[1..]
      {
        RestHolds(p, m);
        RestHolds(q, m);
      }
      AscendingIsUnique(p[1..], q[1..]);
      assert p == [p[0]] + p[1..] && q == [q[0]] + q[1..];
    }
  }

  lemma FirstIsFirst(p: seq<Member>, q: seq<Member>)
    requires Ascending(p) && Ascending(q) && p != [] && q != [] && p[0] in q && q[0] in p
    ensures p[0] == q[0]
  {
    var i :| 0 <= i < |q| && q[i] == p[0];
    var k :| 0 <= k < |p| && p[k] == q[0];
    if i > 0 && k > 0 {
      BelowIsOneWay(q[0].key, q[i].key);
    }
  }

  lemma RestHolds(p: seq<Member>, m: Member)
    requires Ascending(p) && p != []
    ensures m in p[1..] <==> m in p && m != p[0]
  {
    if m in p[1..] {
      var i :| 0 <= i < |p[1..]| && p[1..][i] == m;
      BelowIsOneWay(p[0].key, p[i + 1].key);
    }
    if m in p && m != p[0] {
      var i :| 0 <= i < |p| && p[i] == m;
      assert p[1..][i - 1] == m;
    }
  }

  // ---------------------------------------------------------------- the map of an object

  /** A member of the name, its value meaning p. */
  ghost predicate Holds<N>(ms: seq<Member>, n: nat, key: string, p: Plain<N>, num: string -> N)
    requires n <= |ms|
  {
    exists i :: 0 <= i < n && ms[i].key == key && Meaning(ms[i].value, num) == p
  }

  lemma {:induction false} MapHolds<N>(ms: seq<Member>, n: nat, num: string -> N, key: string, p: Plain<N>)
    requires Distinct(ms) && n <= |ms|
    ensures (key in MembersMeaning(ms, n, num) && MembersMeaning(ms, n, num)[key] == p) <==> Holds(ms, n, key, p, num)
  {
    if n > 0 {
      MapHolds(ms, n - 1, num, key, p);
      if ms[n - 1].key == key && Meaning(ms[n - 1].value, num) == p {
        assert Holds(ms, n, key, p, num);
      }
      if Holds(ms, n - 1, key, p, num) {
        var i :| 0 <= i < n - 1 && ms[i].key == key && Meaning(ms[i].value, num) == p;
        assert Holds(ms, n, key, p, num);
      }
    }
  }

  lemma {:induction false} ItemsHold<N>(items: seq<Json>, n: nat, num: string -> N)
    requires n <= |items|
    ensures forall i :: 0 <= i < n ==> ItemsMeaning(items, n, num)[i] == Meaning(items[i], num)
  {
    if n > 0 {
      ItemsHold(items, n - 1, num);
    }
  }

  /** Members that pair up make the same map. */
  lemma MapsAgree<N>(ms: seq<Member>, ns: seq<Member>, f: string -> N, g: string -> N)
    requires Distinct(ms) && Distinct(ns)
    requires forall key, p :: Holds(ms, |ms|, key, p, f) <==> Holds(ns, |ns|, key, p, g)
    ensures MembersMeaning(ms, |ms|, f) == MembersMeaning(ns, |ns|, g)
  {
    MapWithin(ms, ns, f, g);
    MapWithin(ns, ms, g, f);
    SameMap(MembersMeaning(ms, |ms|, f), MembersMeaning(ns, |ns|, g));
  }

  lemma MapWithin<N>(ms: seq<Member>, ns: seq<Member>, f: string -> N, g: string -> N)
    requires Distinct(ms) && Distinct(ns)
    requires forall key, p :: Holds(ms, |ms|, key, p, f) ==> Holds(ns, |ns|, key, p, g)
    ensures Within(MembersMeaning(ms, |ms|, f), MembersMeaning(ns, |ns|, g))
  {
    var a := MembersMeaning(ms, |ms|, f);
    forall key | key in a
      ensures key in MembersMeaning(ns, |ns|, g) && MembersMeaning(ns, |ns|, g)[key] == a[key]
    {
      MapHolds(ms, |ms|, f, key, a[key]);
      MapHolds(ns, |ns|, g, key, a[key]);
    }
  }

  ghost predicate Within<N>(a: map<string, Plain<N>>, b: map<string, Plain<N>>) {
    forall key :: key in a ==> key in b && b[key] == a[key]
  }

  lemma SameMap<N>(a: map<string, Plain<N>>, b: map<string, Plain<N>>)
    requires Within(a, b) && Within(b, a)
    ensures a == b
  {
  }

  // ---------------------------------------------------------------- tidying keeps the meaning

  function After<N>(f: string -> string, num: string -> N): string -> N {
    text => num(f(text))
  }

  /** One of the members, its value tidied. */
  ghost predicate IsTidied(ms: seq<Member>, f: string -> string, m: Member) {
    exists i :: 0 <= i < |ms| && m == Member(ms[i].key, Tidy(ms[i].value, f))
  }

  lemma TidiedMember(ms: seq<Member>, f: string -> string, m: Member)
    ensures m in Sort(TidyMembers(ms, |ms|, f)) <==> IsTidied(ms, f, m)
  {
    var t := TidyMembers(ms, |ms|, f);
    SortHolds(t, m);
    if m in t {
      var i :| 0 <= i < |t| && t[i] == m;
    }
    if i :| 0 <= i < |ms| && m == Member(ms[i].key, Tidy(ms[i].value, f)) {
      assert t[i] == m;
    }
  }

  lemma TidiedAscends(ms: seq<Member>, f: string -> string)
    requires Distinct(ms)
    ensures Ascending(Sort(TidyMembers(ms, |ms|, f))) && Distinct(Sort(TidyMembers(ms, |ms|, f)))
  {
    SortAscends(TidyMembers(ms, |ms|, f));
    AscendingIsDistinct(Sort(TidyMembers(ms, |ms|, f)));
  }

  lemma {:induction false} TidyIsProper(j: Json, f: string -> string)
    requires Proper(j) && forall t :: IsNumber(t) ==> IsNumber(f(t))
    ensures Proper(Tidy(j, f))
  {
    match j
    case Arr(items) =>
      forall i | 0 <= i < |items|
        ensures Proper(Tidy(items[i], f))
      {
        TidyIsProper(items[i], f);
      }
    case Obj(ms) =>
      var sorted := Sort(TidyMembers(ms, |ms|, f));
      TidiedAscends(ms, f);
      forall k | 0 <= k < |sorted|
        ensures Proper(sorted[k].value)
      {
        TidiedMember(ms, f, sorted[k]);
        var i :| 0 <= i < |ms| && sorted[k] == Member(ms[i].key, Tidy(ms[i].value, f));
        TidyIsProper(ms[i].value, f);
      }
    case _ =>
  }

  /** Sorting changes nothing of a value's meaning; rewriting its numbers changes only those. */
  lemma {:induction false} TidyMeans<N>(j: Json, f: string -> string, num: string -> N)
    requires Proper(j)
    ensures Meaning(Tidy(j, f), num) == Meaning(j, After(f, num))
  {
    match j
    case Arr(items) =>
      var tidy := TidyItems(items, |items|, f);
      ItemsHold(items, |items|, After(f, num));
      ItemsHold(tidy, |tidy|, num);
      forall i | 0 <= i < |items|
        ensures Meaning(tidy[i], num) == Meaning(items[i], After(f, num))
      {
        TidyMeans(items[i], f, num);
      }
      assert ItemsMeaning(tidy, |tidy|, num) == ItemsMeaning(items, |items|, After(f, num));
    case Obj(ms) =>
      MembersTidyMeans(ms, f, num);
    case _ =>
  }

  lemma {:induction false} MembersTidyMeans<N>(ms: seq<Member>, f: string -> string, num: string -> N)
    requires Proper(Obj(ms))
    ensures var sorted := Sort(TidyMembers(ms, |ms|, f));
      MembersMeaning(sorted, |sorted|, num) == MembersMeaning(ms, |ms|, After(f, num))
  {
    var sorted := Sort(TidyMembers(ms, |ms|, f));
    TidiedAscends(ms, f);
    forall key, p
      ensures Holds(sorted, |sorted|, key, p, num) <==> Holds(ms, |ms|, key, p, After(f, num))
    {
      if k :| 0 <= k < |sorted| && sorted[k].key == key && Meaning(sorted[k].value, num) == p {
        TidiedMember(ms, f, sorted[k]);
        var i :| 0 <= i < |ms| && sorted[k] == Member(ms[i].key, Tidy(ms[i].value, f));
        TidyMeans(ms[i].value, f, num);
      }
      if i :| 0 <= i < |ms| && ms[i].key == key && Meaning(ms[i].value, After(f, num)) == p {
        var m := Member(ms[i].key, Tidy(ms[i].value, f));
        TidiedMember(ms, f, m);
        TidyMeans(ms[i].value, f, num);
        var k :| 0 <= k < |sorted| && sorted[k] == m;
      }
    }
    MapsAgree(sorted, ms, num, After(f, num));
  }

  // ---------------------------------------------------------------- one meaning, one tidy form

  lemma {:induction false} OneTidyForm(a: Json, b: Json, f: string -> string)
    requires Proper(a) && Proper(b) && Meaning(a, Same) == Meaning(b, Same)
    ensures Tidy(a, f) == Tidy(b, f)
  {
    match a
    case Arr(items) =>
      var n := |items|;
      ItemsHold(items, n, Same);
      ItemsHold(b.items, |b.items|, Same);
      forall i | 0 <= i < n
        ensures Tidy(items[i], f) == Tidy(b.items[i], f)
      {
        assert ItemsMeaning(items, n, Same)[i] == ItemsMeaning(b.items, n, Same)[i];
        OneTidyForm(items[i], b.items[i], f);
      }
      assert TidyItems(items, n, f) == TidyItems(b.items, n, f);
    case Obj(ms) =>
      var ns := b.members;
      TidiedAscends(ms, f);
      TidiedAscends(ns, f);
      forall m
        ensures m in Sort(TidyMembers(ms, |ms|, f)) <==> m in Sort(TidyMembers(ns, |ns|, f))
      {
        SameMembers(ms, ns, f, m);
        SameMembersBack(ms, ns, f, m);
      }
      AscendingIsUnique(Sort(TidyMembers(ms, |ms|, f)), Sort(TidyMembers(ns, |ns|, f)));
    case _ =>
  }

  lemma Paired(ms: seq<Member>, ns: seq<Member>, i: nat) returns (k: nat)
    requires Proper(Obj(ms)) && Proper(Obj(ns)) && i < |ms|
    requires MembersMeaning(ms, |ms|, Same) == MembersMeaning(ns, |ns|, Same)
    ensures k < |ns| && ns[k].key == ms[i].key && Meaning(ns[k].value, Same) == Meaning(ms[i].value, Same)
  {
    var p := Meaning(ms[i].value, Same);
    MapHolds(ms, |ms|, Same, ms[i].key, p);
    MapHolds(ns, |ns|, Same, ms[i].key, p);
    assert Holds(ms, |ms|, ms[i].key, p, Same);
    k :| 0 <= k < |ns| && ns[k].key == ms[i].key && Meaning(ns[k].value, Same) == p;
  }

  lemma {:induction false} SameMembers(ms: seq<Member>, ns: seq<Member>, f: string -> string, m: Member)
    requires Proper(Obj(ms)) && Proper(Obj(ns))
    requires MembersMeaning(ms, |ms|, Same) == MembersMeaning(ns, |ns|, Same)
    ensures m in Sort(TidyMembers(ms, |ms|, f)) ==> m in Sort(TidyMembers(ns, |ns|, f))
    decreases ms, 0
  {
    TidiedMember(ms, f, m);
    TidiedMember(ns, f, m);
    if i :| 0 <= i < |ms| && m == Member(ms[i].key, Tidy(ms[i].value, f)) {
      var k := Paired(ms, ns, i);
      OneTidyForm(ms[i].value, ns[k].value, f);
      assert m == Member(ns[k].key, Tidy(ns[k].value, f));
    }
  }

  lemma {:induction false} SameMembersBack(ms: seq<Member>, ns: seq<Member>, f: string -> string, m: Member)
    requires Proper(Obj(ms)) && Proper(Obj(ns))
    requires MembersMeaning(ms, |ms|, Same) == MembersMeaning(ns, |ns|, Same)
    ensures m in Sort(TidyMembers(ns, |ns|, f)) ==> m in Sort(TidyMembers(ms, |ms|, f))
    decreases ms, 0
  {
    TidiedMember(ms, f, m);
    TidiedMember(ns, f, m);
    if k :| 0 <= k < |ns| && m == Member(ns[k].key, Tidy(ns[k].value, f)) {
      var i := Paired(ns, ms, k);
      OneTidyForm(ms[i].value, ns[k].value, f);
      assert m == Member(ms[i].key, Tidy(ms[i].value, f));
    }
  }

  // ---------------------------------------------------------------- the results

  /** A text of either style, with only white space after it, is read back whole. */
  lemma WholeIsRead(style: Style, j: Json, rest: string)
    requires Proper(j) && Ends(rest) && Skip(rest) == ""
    ensures Parse(Emit(style, j, 0, rest)) == Some(j)
  {
    EmitStarts(style, j, 0, rest);
    SkipNothing(Emit(style, j, 0, rest));
    ValueIsRead(style, j, 0, rest, Emit(style, j, 0, rest));
  }

  lemma SameMeaning(j: Json)
    requires Proper(j)
    ensures Meaning(Tidy(j, Same), Same) == Meaning(j, Same)
  {
    TidyMeans(j, Same, Same);
    AgreeWithItself(j, After(Same, Same), Same);
    OneReading(j, After(Same, Same), Same);
  }

  /** A meaning is that of the numbers' readings: readings that agree on them make one meaning. */
  lemma {:induction false} OneReading<N>(j: Json, f: string -> N, g: string -> N)
    requires Proper(j) && Agree(j, f, g)
    ensures Meaning(j, f) == Meaning(j, g)
  {
    match j
    case Arr(items) =>
      ItemsHold(items, |items|, f);
      ItemsHold(items, |items|, g);
      forall i | 0 <= i < |items|
        ensures Meaning(items[i], f) == Meaning(items[i], g)
      {
        OneReading(items[i], f, g);
      }
      assert ItemsMeaning(items, |items|, f) == ItemsMeaning(items, |items|, g);
    case Obj(ms) =>
      forall i | 0 <= i < |ms|
        ensures Meaning(ms[i].value, f) == Meaning(ms[i].value, g)
      {
        OneReading(ms[i].value, f, g);
      }
      forall key, p
        ensures Holds(ms, |ms|, key, p, f) <==> Holds(ms, |ms|, key, p, g)
      {
      }
      MapsAgree(ms, ms, f, g);
    case _ =>
  }

  /** Two readings agree on every number of a value. */
  ghost predicate Agree<N>(j: Json, f: string -> N, g: string -> N) {
    match j
    case Num(text) => f(text) == g(text)
    case Arr(items) => forall i :: 0 <= i < |items| ==> Agree(items[i], f, g)
    case Obj(ms) => forall i :: 0 <= i < |ms| ==> Agree(ms[i].value, f, g)
    case _ => true
  }

  /** And only those: where the meanings are one, the readings agree. */
  lemma {:induction false} OneMeaning<N>(j: Json, f: string -> N, g: string -> N)
    requires Proper(j) && Meaning(j, f) == Meaning(j, g)
    ensures Agree(j, f, g)
  {
    match j
    case Arr(items) =>
      forall i | 0 <= i < |items|
        ensures Agree(items[i], f, g)
      {
        ItemMeansOne(items, i, f, g);
        OneMeaning(items[i], f, g);
      }
    case Obj(ms) =>
      forall i | 0 <= i < |ms|
        ensures Agree(ms[i].value, f, g)
      {
        MemberMeansOne(ms, i, f, g);
        OneMeaning(ms[i].value, f, g);
      }
    case _ =>
  }

  lemma ItemMeansOne<N>(items: seq<Json>, i: nat, f: string -> N, g: string -> N)
    requires i < |items| && Meaning(Arr(items), f) == Meaning(Arr(items), g)
    ensures Meaning(items[i], f) == Meaning(items[i], g)
  {
    ItemsHold(items, |items|, f);
    ItemsHold(items, |items|, g);
    assert ItemsMeaning(items, |items|, f)[i] == ItemsMeaning(items, |items|, g)[i];
  }

  lemma MemberMeansOne<N>(ms: seq<Member>, i: nat, f: string -> N, g: string -> N)
    requires Distinct(ms) && i < |ms| && Meaning(Obj(ms), f) == Meaning(Obj(ms), g)
    ensures Meaning(ms[i].value, f) == Meaning(ms[i].value, g)
  {
    var p := Meaning(ms[i].value, f);
    assert Holds(ms, |ms|, ms[i].key, p, f);
    MapHolds(ms, |ms|, f, ms[i].key, p);
    MapHolds(ms, |ms|, g, ms[i].key, p);
    var k :| 0 <= k < |ms| && ms[k].key == ms[i].key && Meaning(ms[k].value, g) == p;
  }

  lemma {:induction false} AgreeWithItself<N>(j: Json, f: string -> N, g: string -> N)
    requires forall t :: f(t) == g(t)
    ensures Agree(j, f, g)
  {
    match j
    case Arr(items) =>
      forall i | 0 <= i < |items|
        ensures Agree(items[i], f, g)
      {
        AgreeWithItself(items[i], f, g);
      }
    case Obj(ms) =>
      forall i | 0 <= i < |ms|
        ensures Agree(ms[i].value, f, g)
      {
        AgreeWithItself(ms[i].value, f, g);
      }
    case _ =>
  }

  /** `canonical_json` is uniquely decodable: what it writes is read back as the sorted value. */
  lemma CanonicalJsonIsRead(j: Json)
    requires Proper(j)
    ensures Parse(CanonicalJson(j)) == Some(Tidy(j, Same))
  {
    TidyIsProper(j, Same);
    WholeIsRead(Compact, Tidy(j, Same), "");
  }

  /** Equal canonical JSON exactly for one value, objects as maps and arrays as sequences. */
  lemma CanonicalJsonIsInjective(a: Json, b: Json)
    requires Proper(a) && Proper(b)
    ensures CanonicalJson(a) == CanonicalJson(b) <==> Meaning(a, Same) == Meaning(b, Same)
  {
    if Meaning(a, Same) == Meaning(b, Same) {
      OneTidyForm(a, b, Same);
    }
    if CanonicalJson(a) == CanonicalJson(b) {
      CanonicalJsonIsRead(a);
      CanonicalJsonIsRead(b);
      SameMeaning(a);
      SameMeaning(b);
    }
  }

  /** What `canonical` writes is read back as the sorted value, its numbers rewritten. */
  lemma CanonicalIsRead(j: Json)
    requires Proper(j)
    ensures Parse(Canonical(j)) == Some(Tidy(j, AsAeson))
  {
    forall t | IsNumber(t)
      ensures IsNumber(AsAeson(t))
    {
      NumberIsWellFormed(t);
    }
    TidyIsProper(j, AsAeson);
    assert "\n"[1..] == "";
    WholeIsRead(Indented, Tidy(j, AsAeson), "\n");
  }

  /** The exact decimal value of a number's text. */
  ghost function Exactly(text: string): real {
    if IsNumber(text) then ValueOf(text) else 0.0
  }

  /** Every number of a value is one `number` keeps. */
  ghost predicate AllKept(j: Json) {
    match j
    case Num(text) => IsNumber(text) ==> IsKept(text)
    case Arr(items) => forall i :: 0 <= i < |items| ==> AllKept(items[i])
    case Obj(ms) => forall i :: 0 <= i < |ms| ==> AllKept(ms[i].value)
    case _ => true
  }

  /** Every number's digits and the copies made of them are held in memory. */
  ghost predicate AllHeld(j: Json) {
    match j
    case Num(text) => Held(text)
    case Arr(items) => forall i :: 0 <= i < |items| ==> AllHeld(items[i])
    case Obj(ms) => forall i :: 0 <= i < |ms| ==> AllHeld(ms[i].value)
    case _ => true
  }

  lemma KeptIsExact(text: string)
    requires IsNumber(text) && Held(text)
    ensures IsKept(text) <==> Exactly(AsAeson(text)) == Exactly(text)
  {
    NumberKeepsValue(text);
  }

  lemma {:induction false} KeptIsAgreement(j: Json)
    requires Proper(j) && AllHeld(j)
    ensures AllKept(j) <==> Agree(j, After(AsAeson, Exactly), Exactly)
  {
    match j
    case Num(text) => KeptIsExact(text);
    case Arr(items) =>
      forall i | 0 <= i < |items|
        ensures AllKept(items[i]) <==> Agree(items[i], After(AsAeson, Exactly), Exactly)
      {
        KeptIsAgreement(items[i]);
      }
    case Obj(ms) =>
      forall i | 0 <= i < |ms|
        ensures AllKept(ms[i].value) <==> Agree(ms[i].value, After(AsAeson, Exactly), Exactly)
      {
        KeptIsAgreement(ms[i].value);
      }
    case _ =>
  }

  /**
   * `canonical` can be inverted: read by RFC 8259 its text means what the value means, objects as
   * maps, strings character for character, numbers by exact decimal value; this fails for the
   * numbers whose exponent or order of magnitude no i64 holds, and only for those.
   */
  lemma CanonicalCanBeInverted(j: Json)
    requires Proper(j) && AllHeld(j)
    ensures Parse(Canonical(j)).Some?
    ensures Meaning(Parse(Canonical(j)).value, Exactly) == Meaning(j, Exactly) <==> AllKept(j)
  {
    CanonicalIsRead(j);
    TidyMeans(j, AsAeson, Exactly);
    KeptIsAgreement(j);
    if AllKept(j) {
      OneReading(j, After(AsAeson, Exactly), Exactly);
    }
    if Meaning(j, After(AsAeson, Exactly)) == Meaning(j, Exactly) {
      OneMeaning(j, After(AsAeson, Exactly), Exactly);
    }
  }

  /** Values equal up to the order of their objects' members print identically. */
  lemma CanonicalIgnoresOrder(a: Json, b: Json)
    requires Proper(a) && Proper(b) && Meaning(a, Same) == Meaning(b, Same)
    ensures Canonical(a) == Canonical(b)
  {
    OneTidyForm(a, b, AsAeson);
  }
}
