/**
 * The hash roll-up of schema.rs over content_hash.rs: a plugin's hash determines its methods'
 * and its children's hashes in order, and a sealed method's hash every field but itself. The
 * digest itself (SHA-256, shortened) is any function `h`; where a claim could fail only by a
 * collision of it, the two colliding texts are named.
 */
module Rollup {
  import opened Basics
  import opened JsonText
  import opened JsonWrite
  import opened JsonMeaning

  type Digest = string -> string

  predicate OneLine(s: string) {
    '\n' !in s
  }

  /** Two texts of one digest. */
  ghost predicate Collision(h: Digest, x: string, y: string) {
    x != y && h(x) == h(y)
  }

  // ---------------------------------------------------------------- one hash per line

  function Lines(hashes: seq<string>): string {
    if hashes == [] then "" else hashes[0] + (['\n'] + Lines(hashes[1..]))
  }

  lemma {:induction false} LinesAppend(hashes: seq<string>, last: string)
    ensures Lines(hashes + [last]) == Lines(hashes) + (last + ['\n'])
  {
    if hashes == [] {
      assert hashes + [last] == [last] && Lines([last]) == last + (['\n'] + "");
      assert ['\n'] + "" == ['\n'];
    } else {
      var all, rest := hashes + [last], hashes[1..];
      assert all[0] == hashes[0] && all[1..] == rest + [last];
      LinesAppend(rest, last);
      Regroup(hashes[0], ['\n'], Lines(rest), last + ['\n']);
    }
  }

  lemma Regroup(a: string, b: string, c: string, d: string)
    ensures a + (b + (c + d)) == a + (b + c) + d
  {
  }

  /** `hash16_lines`. */
  method HashLines(h: Digest, hashes: seq<string>) returns (r: string)
    ensures r == h(Lines(hashes))
  {
    var text := "";
    var i := 0;
    while i < |hashes|
      invariant 0 <= i <= |hashes|
      invariant text == Lines(hashes[..i])
    {
      LinesAppend(hashes[..i], hashes[i]);
      assert hashes[..i + 1] == hashes[..i] + [hashes[i]];
      text := text + hashes[i];
      text := text + ['\n'];
      i := i + 1;
    }
    assert hashes[..i] == hashes;
    r := h(text);
  }

  lemma LineEnds(a: string, x: string)
    requires OneLine(a)
    ensures var p := a + (['\n'] + x);
      p[|a|] == '\n' && (forall i :: 0 <= i < |a| ==> p[i] != '\n') && p[..|a|] == a && p[|a| + 1..] == x
  {
  }

  lemma FirstLine(a: string, b: string, x: string, y: string)
    requires OneLine(a) && OneLine(b) && a + (['\n'] + x) == b + (['\n'] + y)
    ensures a == b && x == y
  {
    LineEnds(a, x);
    LineEnds(b, y);
  }

  lemma LinesOfNone(hashes: seq<string>)
    ensures Lines(hashes) == "" <==> hashes == []
  {
  }

  /** The encoding is unambiguous: the lines are the hashes, however many there are. */
  lemma {:induction false} LinesAreUnambiguous(a: seq<string>, b: seq<string>)
    requires (forall s :: s in a ==> OneLine(s)) && (forall s :: s in b ==> OneLine(s))
    requires Lines(a) == Lines(b)
    ensures a == b
  {
    LinesOfNone(a);
    LinesOfNone(b);
    if a != [] {
      FirstLine(a[0], b[0], Lines(a[1..]), Lines(b[1..]));
      LinesAreUnambiguous(a[1..], b[1..]);
      assert a == [a[0]] + a[1..] && b == [b[0]] + b[1..];
    }
  }

  // ---------------------------------------------------------------- the plugin's hashes

  /** What the roll-up reads of a plugin: its methods' hashes, and its children's when it is a hub. */
  datatype Plugin = Plugin(methods: seq<string>, children: Option<seq<string>>)

  datatype Hashes = Hashes(self: string, children: Option<string>, hash: string)

  /** The lines the whole hash is of. */
  function Halves(h: Digest, p: Plugin): seq<string> {
    [h(Lines(p.methods))] + if p.children.Some? then [h(Lines(p.children.value))] else []
  }

  function Rolled(h: Digest, p: Plugin): Hashes {
    Hashes(h(Lines(p.methods)), if p.children.Some? then Some(h(Lines(p.children.value))) else None,
           h(Lines(Halves(h, p))))
  }

  lemma FewLines(a: string, b: string)
    ensures Lines([a]) == a + "\n" + "" && Lines([a] + [b]) == a + "\n" + (b + "\n")
  {
    LinesAppend([], a);
    assert [] + [a] == [a];
    LinesAppend([a], b);
  }

  /** `compute_hashes`. */
  method ComputeHashes(h: Digest, p: Plugin) returns (r: Hashes)
    ensures r == Rolled(h, p)
    ensures r.self == h(Lines(p.methods)) && r.children == if p.children.Some? then Some(h(Lines(p.children.value))) else None
    ensures r.hash == h(r.self + "\n" + if r.children.Some? then r.children.value + "\n" else "")
  {
    FewLines(h(Lines(p.methods)), if p.children.Some? then h(Lines(p.children.value)) else "");
    var self := HashLines(h, p.methods);
    if p.children.Some? {
      var children := HashLines(h, p.children.value);
      var hash := HashLines(h, [self] + [children]);
      r := Hashes(self, Some(children), hash);
    } else {
      assert [self] + [] == [self];
      var hash := HashLines(h, [self]);
      r := Hashes(self, None, hash);
    }
  }

  ghost predicate OneLiners(h: Digest, p: Plugin) {
    && (forall t :: OneLine(h(t)))
    && (forall s :: s in p.methods ==> OneLine(s))
    && (p.children.Some? ==> forall s :: s in p.children.value ==> OneLine(s))
  }

  /**
   * One hash, one plugin: the same methods' hashes in the same order and the same children's, a
   * leaf never a hub; or else two texts the roll-up hashed collide.
   */
  lemma RollUpIsSound(h: Digest, p: Plugin, q: Plugin)
    requires OneLiners(h, p) && OneLiners(h, q)
    ensures Rolled(h, p).hash == Rolled(h, q).hash ==>
      p == q
      || Collision(h, Lines(Halves(h, p)), Lines(Halves(h, q)))
      || Collision(h, Lines(p.methods), Lines(q.methods))
      || (p.children.Some? && q.children.Some? && Collision(h, Lines(p.children.value), Lines(q.children.value)))
  {
    if Rolled(h, p).hash == Rolled(h, q).hash && Lines(Halves(h, p)) == Lines(Halves(h, q)) {
      LinesAreUnambiguous(Halves(h, p), Halves(h, q));
      SameHalves(h, p, q);
    }
  }

  lemma SameHalves(h: Digest, p: Plugin, q: Plugin)
    requires OneLiners(h, p) && OneLiners(h, q) && Halves(h, p) == Halves(h, q)
    ensures p == q || Collision(h, Lines(p.methods), Lines(q.methods))
      || (p.children.Some? && q.children.Some? && Collision(h, Lines(p.children.value), Lines(q.children.value)))
  {
    assert Halves(h, p)[0] == Halves(h, q)[0];
    assert |Halves(h, p)| == |Halves(h, q)|;
    if Lines(p.methods) == Lines(q.methods) {
      LinesAreUnambiguous(p.methods, q.methods);
      if p.children.Some? {
        assert Halves(h, p)[1] == Halves(h, q)[1];
        if Lines(p.children.value) == Lines(q.children.value) {
          LinesAreUnambiguous(p.children.value, q.children.value);
        }
      }
    }
  }

  // ---------------------------------------------------------------- a method's own hash

  /** `fields.remove("hash")`. */
  function Without(ms: seq<Member>, key: string): (r: seq<Member>)
    ensures forall m :: m in r <==> m in ms && m.key != key
  {
    if ms == [] then []
    else
      assert ms == [ms[0]] + ms[1..];
      (if ms[0].key == key then [] else [ms[0]]) + Without(ms[1..], key)
  }

  /** `content_hash` of a method that serializes to an object of these members. */
  function ContentHash(h: Digest, ms: seq<Member>): string {
    h(CanonicalJson(Obj(Without(ms, "hash"))))
  }

  /** `with_content_hash`. */
  function WithHash(ms: seq<Member>, hash: string): (r: seq<Member>)
    ensures |r| == |ms|
    ensures forall i :: 0 <= i < |ms| ==> r[i] == if ms[i].key == "hash" then Member("hash", Str(hash)) else ms[i]
  {
    seq(|ms|, i requires 0 <= i < |ms| => if ms[i].key == "hash" then Member("hash", Str(hash)) else ms[i])
  }

  function Sealed(h: Digest, ms: seq<Member>): seq<Member> {
    WithHash(ms, ContentHash(h, ms))
  }

  lemma {:induction false} WithoutStaysDistinct(ms: seq<Member>, key: string)
    requires Distinct(ms)
    ensures Distinct(Without(ms, key))
  {
    if ms != [] {
      var rest := ms[1..];
      WithoutStaysDistinct(rest, key);
      var more := Without(rest, key);
      forall k | 0 <= k < |more|
        ensures more[k].key != ms[0].key
      {
        assert more[k] in rest;
        var j :| 0 <= j < |rest| && rest[j] == more[k];
        assert rest[j] == ms[j + 1];
      }
    }
  }

  lemma WithoutStaysProper(ms: seq<Member>, key: string)
    requires Proper(Obj(ms))
    ensures Proper(Obj(Without(ms, key)))
  {
    WithoutStaysDistinct(ms, key);
    var r := Without(ms, key);
    forall k | 0 <= k < |r|
      ensures Proper(r[k].value)
    {
      assert r[k] in ms;
      var j :| 0 <= j < |ms| && ms[j] == r[k];
      assert Proper(ms[j].value);
    }
  }

  lemma {:induction false} WithoutForgets(ms: seq<Member>, hash: string)
    ensures Without(WithHash(ms, hash), "hash") == Without(ms, "hash")
  {
    if ms != [] {
      assert WithHash(ms, hash)[1..] == WithHash(ms[1..], hash);
      WithoutForgets(ms[1..], hash);
    }
  }

  /** Sealing moves nothing a hash covers: a sealed method hashes as before, and is sealed already. */
  lemma SealingIsStable(h: Digest, ms: seq<Member>)
    ensures ContentHash(h, Sealed(h, ms)) == ContentHash(h, ms)
    ensures Sealed(h, Sealed(h, ms)) == Sealed(h, ms)
  {
    WithoutForgets(ms, ContentHash(h, ms));
  }

  /** The two agree on every field but `hash`. */
  ghost predicate AgreeButHash(a: seq<Member>, b: seq<Member>) {
    var p, q := MembersMeaning(a, |a|, Same), MembersMeaning(b, |b|, Same);
    forall key :: key != "hash" ==> (key in p <==> key in q) && (key in p && key in q ==> p[key] == q[key])
  }

  lemma WithoutHolds(ms: seq<Member>, key: string, p: Plain<string>)
    requires key != "hash"
    ensures Holds(Without(ms, "hash"), |Without(ms, "hash")|, key, p, Same) <==> Holds(ms, |ms|, key, p, Same)
  {
  }

  lemma AgreementIsMeaning(a: seq<Member>, b: seq<Member>)
    requires Proper(Obj(a)) && Proper(Obj(b))
    ensures AgreeButHash(a, b)
      <==> Meaning(Obj(Without(a, "hash")), Same) == Meaning(Obj(Without(b, "hash")), Same)
  {
    var a', b' := Without(a, "hash"), Without(b, "hash");
    WithoutStaysProper(a, "hash");
    WithoutStaysProper(b, "hash");
    if AgreeButHash(a, b) {
      forall key, p
        ensures Holds(a', |a'|, key, p, Same) <==> Holds(b', |b'|, key, p, Same)
      {
        if key != "hash" {
          WithoutHolds(a, key, p);
          WithoutHolds(b, key, p);
          MapHolds(a, |a|, Same, key, p);
          MapHolds(b, |b|, Same, key, p);
        } else {
          assert forall m :: m in a' ==> m.key != key;
          assert forall m :: m in b' ==> m.key != key;
        }
      }
      MapsAgree(a', b', Same, Same);
    }
    if Meaning(Obj(a'), Same) == Meaning(Obj(b'), Same) {
      MeaningGivesAgreement(a, b);
    }
  }

  lemma MeaningGivesAgreement(a: seq<Member>, b: seq<Member>)
    requires Proper(Obj(a)) && Proper(Obj(b))
    requires Meaning(Obj(Without(a, "hash")), Same) == Meaning(Obj(Without(b, "hash")), Same)
    ensures AgreeButHash(a, b)
  {
    var p, q := MembersMeaning(a, |a|, Same), MembersMeaning(b, |b|, Same);
    forall key | key != "hash"
      ensures (key in p <==> key in q) && (key in p && key in q ==> p[key] == q[key])
    {
      if key in p {
        OnlyOther(a, b, key, p[key]);
      }
      if key in q {
        OnlyOther(b, a, key, q[key]);
      }
    }
  }

  lemma OnlyOther(a: seq<Member>, b: seq<Member>, key: string, v: Plain<string>)
    requires Proper(Obj(a)) && Proper(Obj(b)) && key != "hash"
    requires Meaning(Obj(Without(a, "hash")), Same) == Meaning(Obj(Without(b, "hash")), Same)
    requires key in MembersMeaning(a, |a|, Same) && MembersMeaning(a, |a|, Same)[key] == v
    ensures key in MembersMeaning(b, |b|, Same) && MembersMeaning(b, |b|, Same)[key] == v
  {
    var a', b' := Without(a, "hash"), Without(b, "hash");
    WithoutStaysProper(a, "hash");
    WithoutStaysProper(b, "hash");
    MapHolds(a, |a|, Same, key, v);
    WithoutHolds(a, key, v);
    MapHolds(a', |a'|, Same, key, v);
    MapHolds(b', |b'|, Same, key, v);
    WithoutHolds(b, key, v);
    MapHolds(b, |b|, Same, key, v);
  }

  /**
   * One hash means one schema: methods agree on every field but `hash` exactly when their content
   * hashes are equal, unless their canonical texts collide.
   */
  lemma ContentHashIsSound(h: Digest, a: seq<Member>, b: seq<Member>)
    requires Proper(Obj(a)) && Proper(Obj(b))
    ensures AgreeButHash(a, b) ==> ContentHash(h, a) == ContentHash(h, b)
    ensures ContentHash(h, a) == ContentHash(h, b) ==>
      AgreeButHash(a, b)
      || Collision(h, CanonicalJson(Obj(Without(a, "hash"))), CanonicalJson(Obj(Without(b, "hash"))))
  {
    WithoutStaysProper(a, "hash");
    WithoutStaysProper(b, "hash");
    CanonicalJsonIsInjective(Obj(Without(a, "hash")), Obj(Without(b, "hash")));
    AgreementIsMeaning(a, b);
  }

  /** Both say a hash, and the same one. */
  ghost predicate SameHash(a: seq<Member>, b: seq<Member>) {
    exists i, k :: 0 <= i < |a| && 0 <= k < |b| && a[i].key == b[k].key == "hash" && a[i].value == b[k].value
  }

  /** So do sealed methods of one `hash`. */
  lemma SealedMethodsAgree(h: Digest, a: seq<Member>, b: seq<Member>)
    requires Proper(Obj(a)) && Proper(Obj(b))
    ensures SameHash(Sealed(h, a), Sealed(h, b)) ==>
      AgreeButHash(Sealed(h, a), Sealed(h, b))
      || Collision(h, CanonicalJson(Obj(Without(a, "hash"))), CanonicalJson(Obj(Without(b, "hash"))))
  {
    if SameHash(Sealed(h, a), Sealed(h, b)) {
      assert ContentHash(h, a) == ContentHash(h, b);
      ContentHashIsSound(h, a, b);
      SealedStaysProper(h, a);
      SealedStaysProper(h, b);
      WithoutForgets(a, ContentHash(h, a));
      WithoutForgets(b, ContentHash(h, b));
      AgreementIsMeaning(a, b);
      AgreementIsMeaning(Sealed(h, a), Sealed(h, b));
    }
  }

  lemma SealedStaysProper(h: Digest, ms: seq<Member>)
    requires Proper(Obj(ms))
    ensures Proper(Obj(Sealed(h, ms)))
  {
  }
}
