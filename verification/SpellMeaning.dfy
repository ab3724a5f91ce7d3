/**
 * What the rewrite of Spell keeps and what it reaches: the same instances are accepted, through
 * any depth of references; every any-JSON position walked is spelled; and it is done once.
 */
module SpellMeaning {
  import opened Basics
  import opened JsonText
  import opened Spell

  // ---------------------------------------------------------------- the same keys in the same places

  /** The members of r are those of ms, their values walked. */
  ghost predicate Walked(ms: seq<Member>, r: seq<Member>, any: bool) {
    && |r| == |ms|
    && forall i :: 0 <= i < |ms| ==> r[i] == Member(ms[i].key, SpelledAt(ms[i].key, ms[i].value, any))
  }

  lemma SameIndex(ms: seq<Member>, r: seq<Member>, key: string)
    requires |r| == |ms| && forall i :: 0 <= i < |ms| ==> r[i].key == ms[i].key
    ensures Index(r, key) == Index(ms, key)
  {
  }

  lemma WalkedAt(ms: seq<Member>, r: seq<Member>, any: bool, key: string)
    requires Walked(ms, r, any)
    ensures Index(r, key) == Index(ms, key)
    ensures Has(ms, key) ==> At(r, key) == SpelledAt(key, At(ms, key), any)
  {
  }

  lemma {:induction false} SameRest(ms: seq<Member>, r: seq<Member>)
    requires |r| == |ms|
    requires forall i :: 0 <= i < |ms| ==> r[i].key == ms[i].key
    requires forall i :: 0 <= i < |ms| && ms[i].key !in HANDLED && ms[i].key !in ANNOTATIONS ==> r[i] == ms[i]
    ensures Rest(r) == Rest(ms)
  {
    if ms != [] {
      SameRest(ms[1..], r[1..]);
    }
  }

  lemma WalkedRest(ms: seq<Member>, r: seq<Member>, any: bool)
    requires Walked(ms, r, any)
    ensures Rest(r) == Rest(ms)
  {
    forall i | 0 <= i < |ms| && ms[i].key !in HANDLED && ms[i].key !in ANNOTATIONS
      ensures r[i] == ms[i]
    {
      Unwalked(ms[i].key, ms[i].value, any);
    }
    SameRest(ms, r);
  }

  lemma Unwalked(key: string, v: Json, any: bool)
    requires key !in HANDLED && key !in ANNOTATIONS
    ensures SpelledAt(key, v, any) == v
  {
  }

  // ---------------------------------------------------------------- any JSON value

  lemma {:induction false} NoRest(ms: seq<Member>)
    requires forall i :: 0 <= i < |ms| ==> ms[i].key == "type" || ms[i].key in ANNOTATIONS
    ensures Rest(ms) == []
  {
    if ms != [] {
      assert HANDLED[0] == "type";
      NoRest(ms[1..]);
    }
  }

  /** A schema recognised as any JSON value accepts every value. */
  lemma AnyAcceptsAll(k: Validator, ms: seq<Member>, x: Json, refs: Refs)
    requires AcceptsNothingMore(k) && IsJsonType(ms)
    ensures Accepts(k, Obj(ms), x, refs)
  {
    NoRest(ms);
    if Has(ms, "type") {
      AnyTypeHolds(k, At(ms, "type"), x);
    }
    OnlyAnnotations(ms);
    NothingWalked(ms);
  }

  lemma OnlyAnnotations(ms: seq<Member>)
    requires IsJsonType(ms)
    ensures forall key :: key in HANDLED && key != "type" ==> !Has(ms, key)
  {
  }

  lemma NothingWalked(ms: seq<Member>)
    requires forall key :: key in HANDLED && key != "type" ==> !Has(ms, key)
    ensures !Has(ms, "$ref") && !Has(ms, "required") && !Has(ms, "properties") && !Has(ms, "items")
    ensures !Has(ms, "additionalProperties") && !Has(ms, "prefixItems")
    ensures !Has(ms, "oneOf") && !Has(ms, "anyOf") && !Has(ms, "allOf")
  {
  }

  /** The name of a value's type, of the six. */
  function TypeOf(x: Json): nat {
    match x
    case Null => 0
    case Bool(_) => 1
    case Num(_) => 2
    case Str(_) => 3
    case Arr(_) => 4
    case Obj(_) => 5
  }

  lemma AnyTypeHolds(k: Validator, t: Json, x: Json)
    requires SaysAnyType(t)
    ensures TypeHolds(k, t, x)
  {
    var name := JSON_TYPES[TypeOf(x)];
    assert Str(name) in t.items;
    var i :| 0 <= i < |t.items| && t.items[i] == Str(name);
    assert IsOfType(k, x, name);
  }

  lemma SixSaysAnyType()
    ensures SaysAnyType(Six())
  {
  }

  lemma WithTypeAt(ms: seq<Member>, key: string)
    ensures key == "type" ==> Has(WithType(ms), key) && At(WithType(ms), key) == Six()
    ensures key != "type" ==>
      Has(WithType(ms), key) == Has(ms, key) && (Has(ms, key) ==> At(WithType(ms), key) == At(ms, key))
  {
  }

  /** Inserting the six makes it any JSON value still. */
  lemma WithTypeIsAny(ms: seq<Member>)
    requires !Has(ms, "x-plexus-source")
    requires forall i :: 0 <= i < |ms| ==> ms[i].key == "type" || ms[i].key in ANNOTATIONS
    ensures IsJsonType(WithType(ms))
  {
    SixSaysAnyType();
    WithTypeAt(ms, "type");
    WithTypeAt(ms, "x-plexus-source");
    assert "x-plexus-source"[0] != "type"[0];
    var r := WithType(ms);
    forall i | 0 <= i < |r|
      ensures r[i].key == "type" || r[i].key in ANNOTATIONS
    {
      if i < |ms| && i != Index(ms, "type") {
        assert r[i] == ms[i];
      }
    }
  }

  lemma WalkedAny(ms: seq<Member>)
    requires IsJsonType(ms)
    ensures IsJsonType(SpelledObject(ms)) && Has(SpelledObject(ms), "type")
    ensures At(SpelledObject(ms), "type") == Six()
    ensures forall key :: key != "type" ==>
      Has(SpelledObject(ms), key) == Has(ms, key)
      && (Has(ms, key) ==> At(SpelledObject(ms), key) == SpelledAt(key, At(ms, key), true))
  {
    var walked := SpelledMembers(ms, |ms|, true);
    WalkedAt(ms, walked, true, "x-plexus-source");
    WithTypeIsAny(walked);
    WithTypeAt(walked, "type");
    forall key | key != "type"
      ensures Has(SpelledObject(ms), key) == Has(ms, key)
      ensures Has(ms, key) ==> At(SpelledObject(ms), key) == SpelledAt(key, At(ms, key), true)
    {
      WalkedAt(ms, walked, true, key);
      WithTypeAt(walked, key);
    }
  }

  // ---------------------------------------------------------------- the same instances

  /** The rewrite of a schema accepts exactly what the schema accepts. */
  lemma {:induction false} SpelledAccepts(k: Validator, v: Json, x: Json, refs: Refs)
    requires AcceptsNothingMore(k)
    ensures Accepts(k, Spelled(v), x, refs) <==> Accepts(k, v, x, refs)
    decreases v, 1
  {
    match v
    case Bool(b) =>
      if b {
        WithTypeIsAny([]);
        AnyAcceptsAll(k, WithType([]), x, refs);
      }
    case Obj(ms) =>
      if IsJsonType(ms) {
        WalkedAny(ms);
        AnyAcceptsAll(k, SpelledObject(ms), x, refs);
        AnyAcceptsAll(k, ms, x, refs);
      } else {
        WalkAccepts(k, ms, SpelledMembers(ms, |ms|, false), x, refs);
      }
    case _ =>
  }

  lemma {:induction false} WalkAccepts(k: Validator, ms: seq<Member>, r: seq<Member>, x: Json, refs: Refs)
    requires AcceptsNothingMore(k) && Walked(ms, r, false)
    ensures Accepts(k, Obj(r), x, refs) <==> Accepts(k, Obj(ms), x, refs)
    decreases ms, 3
  {
    WalkedPlainly(k, ms, r, x, refs);
    WalkedEqually(k, ms, r, x, refs);
  }

  lemma {:induction false} WalkedEqually(k: Validator, ms: seq<Member>, r: seq<Member>, x: Json, refs: Refs)
    requires AcceptsNothingMore(k) && Walked(ms, r, false)
    ensures WalkedAccepts(k, r, x, refs) <==> WalkedAccepts(k, ms, x, refs)
    decreases ms, 2
  {
    WalkedProperties(k, ms, r, x, refs);
    WalkedAdditional(k, ms, r, x, refs);
    WalkedArrays(k, ms, r, x, refs);
    WalkedAllOf(k, ms, r, x, refs);
    WalkedAnyOf(k, ms, r, x, refs);
    WalkedOneOf(k, ms, r, x, refs);
  }

  lemma WalkedPlainly(k: Validator, ms: seq<Member>, r: seq<Member>, x: Json, refs: Refs)
    requires Walked(ms, r, false)
    ensures PlainlyAccepts(k, r, x, refs) <==> PlainlyAccepts(k, ms, x, refs)
  {
    SameAt(ms, r, "type");
    SameAt(ms, r, "$ref");
    SameAt(ms, r, "required");
    WalkedRest(ms, r, false);
  }

  lemma SameAt(ms: seq<Member>, r: seq<Member>, key: string)
    requires Walked(ms, r, false) && key in ["type", "$ref", "required"]
    ensures Has(r, key) == Has(ms, key) && (Has(ms, key) ==> At(r, key) == At(ms, key))
  {
  }

  lemma {:induction false} WalkedProperties(k: Validator, ms: seq<Member>, r: seq<Member>, x: Json, refs: Refs)
    requires AcceptsNothingMore(k) && Walked(ms, r, false)
    ensures PropertiesAccept(k, r, x, refs) <==> PropertiesAccept(k, ms, x, refs)
    decreases ms, 1
  {
    WalkedAt(ms, r, false, "properties");
    var i := Index(ms, "properties");
    if i < |ms| && ms[i].value.Obj? && x.Obj? {
      var ps := ms[i].value.members;
      forall j | 0 <= j < |ps| && Has(x.members, ps[j].key)
        ensures Accepts(k, Spelled(ps[j].value), At(x.members, ps[j].key), refs)
          <==> Accepts(k, ps[j].value, At(x.members, ps[j].key), refs)
      {
        SpelledAccepts(k, ps[j].value, At(x.members, ps[j].key), refs);
      }
    }
  }

  lemma SameAdditional(k: Validator, ms: seq<Member>, r: seq<Member>, name: string)
    requires Walked(ms, r, false)
    ensures Additional(k, r, name) == Additional(k, ms, name)
  {
    WalkedAt(ms, r, false, "properties");
    WalkedRest(ms, r, false);
    if Has(ms, "properties") && At(ms, "properties").Obj? {
      SameIndex(At(ms, "properties").members, At(r, "properties").members, name);
    }
  }

  lemma {:induction false} WalkedAdditional(k: Validator, ms: seq<Member>, r: seq<Member>, x: Json, refs: Refs)
    requires AcceptsNothingMore(k) && Walked(ms, r, false)
    ensures AdditionalAccept(k, r, x, refs) <==> AdditionalAccept(k, ms, x, refs)
    decreases ms, 1
  {
    WalkedAt(ms, r, false, "additionalProperties");
    var i := Index(ms, "additionalProperties");
    if i < |ms| && x.Obj? {
      forall j | 0 <= j < |x.members|
        ensures Additional(k, r, x.members[j].key) == Additional(k, ms, x.members[j].key)
        ensures Accepts(k, r[i].value, x.members[j].value, refs) <==> Accepts(k, ms[i].value, x.members[j].value, refs)
      {
        SameAdditional(k, ms, r, x.members[j].key);
        SpelledAccepts(k, ms[i].value, x.members[j].value, refs);
      }
    }
  }

  lemma {:induction false} WalkedArrays(k: Validator, ms: seq<Member>, r: seq<Member>, x: Json, refs: Refs)
    requires AcceptsNothingMore(k) && Walked(ms, r, false)
    ensures PrefixAccepts(k, r, x, refs) <==> PrefixAccepts(k, ms, x, refs)
    ensures ItemsAccept(k, r, x, refs) <==> ItemsAccept(k, ms, x, refs)
    decreases ms, 1
  {
    WalkedAt(ms, r, false, "prefixItems");
    WalkedAt(ms, r, false, "items");
    var p, i := Index(ms, "prefixItems"), Index(ms, "items");
    if x.Arr? {
      forall j | 0 <= j < |x.items|
        ensures i < |ms| ==> (Accepts(k, r[i].value, x.items[j], refs) <==> Accepts(k, ms[i].value, x.items[j], refs))
        ensures p < |ms| && ms[p].value.Arr? && j < |ms[p].value.items| ==>
          (Accepts(k, Spelled(ms[p].value.items[j]), x.items[j], refs) <==> Accepts(k, ms[p].value.items[j], x.items[j], refs))
      {
        if i < |ms| {
          SpelledAccepts(k, ms[i].value, x.items[j], refs);
        }
        if p < |ms| && ms[p].value.Arr? && j < |ms[p].value.items| {
          SpelledAccepts(k, ms[p].value.items[j], x.items[j], refs);
        }
      }
    }
  }

  lemma {:induction false} WalkedBranches(k: Validator, ms: seq<Member>, r: seq<Member>, key: string, x: Json, refs: Refs)
    requires AcceptsNothingMore(k) && Walked(ms, r, false) && key in {"allOf", "anyOf", "oneOf"}
    ensures Has(r, key) == Has(ms, key) && (Has(ms, key) ==> At(r, key).Arr? == At(ms, key).Arr?)
    ensures Branches(r, key) == Branches(ms, key)
    ensures forall j :: 0 <= j < Branches(ms, key) ==>
      (BranchAccepts(k, r, key, j, x, refs) <==> BranchAccepts(k, ms, key, j, x, refs))
    decreases ms, 0
  {
    WalkedAt(ms, r, false, key);
    var i := Index(ms, key);
    forall j | 0 <= j < Branches(ms, key)
      ensures BranchAccepts(k, r, key, j, x, refs) <==> BranchAccepts(k, ms, key, j, x, refs)
    {
      SpelledAccepts(k, ms[i].value.items[j], x, refs);
    }
  }

  lemma {:induction false} WalkedAllOf(k: Validator, ms: seq<Member>, r: seq<Member>, x: Json, refs: Refs)
    requires AcceptsNothingMore(k) && Walked(ms, r, false)
    ensures AllOfAccepts(k, r, x, refs) <==> AllOfAccepts(k, ms, x, refs)
    decreases ms, 1
  {
    WalkedBranches(k, ms, r, "allOf", x, refs);
  }

  lemma {:induction false} WalkedAnyOf(k: Validator, ms: seq<Member>, r: seq<Member>, x: Json, refs: Refs)
    requires AcceptsNothingMore(k) && Walked(ms, r, false)
    ensures AnyOfAccepts(k, r, x, refs) <==> AnyOfAccepts(k, ms, x, refs)
    decreases ms, 1
  {
    WalkedBranches(k, ms, r, "anyOf", x, refs);
  }

  lemma {:induction false} WalkedOneOf(k: Validator, ms: seq<Member>, r: seq<Member>, x: Json, refs: Refs)
    requires AcceptsNothingMore(k) && Walked(ms, r, false)
    ensures OneOfAccepts(k, r, x, refs) <==> OneOfAccepts(k, ms, x, refs)
    decreases ms, 1
  {
    WalkedBranches(k, ms, r, "oneOf", x, refs);
    forall j | 0 <= j < Branches(ms, "oneOf")
      ensures OnlyOneAccepts(k, r, j, x, refs) <==> OnlyOneAccepts(k, ms, j, x, refs)
    {
    }
  }

  // ---------------------------------------------------------------- through references

  /** The schema a reference names: the root, or one of its definitions. */
  function Resolve(root: Json, ref: string): Option<Json> {
    if ref == "#" then Some(root)
    else if "#/$defs/" <= ref then Definition(root, "$defs", ref[8..])
    else if "#/definitions/" <= ref then Definition(root, "definitions", ref[14..])
    else None
  }

  function Definition(root: Json, key: string, name: string): Option<Json> {
    if root.Obj? && Has(root.members, key) && At(root.members, key).Obj? && Has(At(root.members, key).members, name)
    then Some(At(At(root.members, key).members, name))
    else None
  }

  /** What the references of a root accept, followed n deep; past that, whatever `bottom` says. */
  ghost function RefsOf(k: Validator, root: Json, n: nat, bottom: Refs): Refs {
    if n == 0 then bottom
    else
      iset ref: string, x: Json |
        Resolve(root, ref).Some? && Accepts(k, Resolve(root, ref).value, x, RefsOf(k, root, n - 1, bottom)) :: (ref, x)
  }

  lemma DefinitionsAreWalked(ms: seq<Member>, key: string)
    requires key == "$defs" || key == "definitions"
    ensures Has(SpelledObject(ms), key) == Has(ms, key)
    ensures Has(ms, key) ==> At(SpelledObject(ms), key) == SpelledMap(At(ms, key))
  {
    assert key[0] != 't';
    if IsJsonType(ms) {
      WalkedAny(ms);
    } else {
      WalkedAt(ms, SpelledObject(ms), false, key);
    }
  }

  lemma DefinitionIsSpelled(ms: seq<Member>, r: seq<Member>, key: string, name: string)
    requires Has(r, key) == Has(ms, key) && (Has(ms, key) ==> At(r, key) == SpelledMap(At(ms, key)))
    ensures Definition(Obj(r), key, name)
      == match Definition(Obj(ms), key, name) case Some(d) => Some(Spelled(d)) case None => None
  {
  }

  /** A reference into the rewritten root names the rewrite of what it named. */
  lemma ResolvesToSpelled(root: Json, ref: string)
    ensures Resolve(Spelled(root), ref)
      == match Resolve(root, ref) case Some(d) => Some(Spelled(d)) case None => None
  {
    match root
    case Obj(ms) =>
      if "#/$defs/" <= ref {
        DefinitionsAreWalked(ms, "$defs");
        DefinitionIsSpelled(ms, SpelledObject(ms), "$defs", ref[8..]);
      } else if "#/definitions/" <= ref {
        DefinitionsAreWalked(ms, "definitions");
        DefinitionIsSpelled(ms, SpelledObject(ms), "definitions", ref[14..]);
      }
    case Bool(b) =>
      WithTypeAt([], "$defs");
      WithTypeAt([], "definitions");
    case _ =>
  }

  /** A reference accepts the same in both roots, when those below it do. */
  lemma SameRef(k: Validator, root: Json, ref: string, x: Json, below: Refs)
    requires AcceptsNothingMore(k)
    ensures Resolve(Spelled(root), ref).Some? == Resolve(root, ref).Some?
    ensures Resolve(root, ref).Some? ==>
      (Accepts(k, Resolve(Spelled(root), ref).value, x, below) <==> Accepts(k, Resolve(root, ref).value, x, below))
  {
    ResolvesToSpelled(root, ref);
    if Resolve(root, ref).Some? {
      SpelledAccepts(k, Resolve(root, ref).value, x, below);
    }
  }

  lemma {:induction false} SameRefs(k: Validator, root: Json, n: nat, bottom: Refs)
    requires AcceptsNothingMore(k)
    ensures RefsOf(k, Spelled(root), n, bottom) == RefsOf(k, root, n, bottom)
  {
    if n > 0 {
      SameRefs(k, root, n - 1, bottom);
      forall ref: string, x: Json
        ensures (ref, x) in RefsOf(k, Spelled(root), n, bottom) <==> (ref, x) in RefsOf(k, root, n, bottom)
      {
        SameRef(k, root, ref, x, RefsOf(k, root, n - 1, bottom));
      }
    }
  }

  /**
   * `spell_json_values` preserves meaning: the rewritten schema, its references resolved in it,
   * accepts exactly the instances the schema accepted with its references resolved in itself,
   * however deep they are followed and whatever the other keywords mean.
   */
  lemma SpellKeepsMeaning(k: Validator, schema: Json, x: Json, n: nat, bottom: Refs)
    requires AcceptsNothingMore(k)
    ensures Accepts(k, SpellJsonValues(schema), x, RefsOf(k, SpellJsonValues(schema), n, bottom))
      <==> Accepts(k, schema, x, RefsOf(k, schema, n, bottom))
  {
    SameRefs(k, schema, n, bottom);
    SpelledAccepts(k, schema, x, RefsOf(k, schema, n, bottom));
  }

  // ---------------------------------------------------------------- every position, once

  /** A position of a schema, and every position walked below it, spells any JSON value. */
  ghost predicate SaysIt(v: Json)
    decreases v, 1
  {
    match v
    case Bool(b) => !b
    case Obj(ms) =>
      && (IsJsonType(ms) ==> Has(ms, "type") && At(ms, "type") == Six())
      && forall i :: 0 <= i < |ms| ==> SaysItAt(ms[i].key, ms[i].value, IsJsonType(ms))
    case _ => true
  }

  /** The same of what stands at a key of it. */
  ghost predicate SaysItAt(key: string, v: Json, any: bool)
    decreases v, 3
  {
    if key == "$defs" || key == "definitions" then MapSaysIt(v)
    else if any then true
    else if key == "properties" then MapSaysIt(v)
    else if key == "items" || key == "additionalProperties" then v == Bool(false) || SaysIt(v)
    else if key == "prefixItems" || key == "oneOf" || key == "anyOf" || key == "allOf" then ListSaysIt(v)
    else true
  }

  ghost predicate MapSaysIt(v: Json)
    decreases v, 2
  {
    v.Obj? ==> forall i :: 0 <= i < |v.members| ==> SaysIt(v.members[i].value)
  }

  ghost predicate ListSaysIt(v: Json)
    decreases v, 2
  {
    v.Arr? ==> forall i :: 0 <= i < |v.items| ==> SaysIt(v.items[i])
  }

  lemma WalkIsNoType(ms: seq<Member>)
    ensures IsJsonType(SpelledObject(ms)) == IsJsonType(ms)
  {
    if IsJsonType(ms) {
      WalkedAny(ms);
    } else {
      var r := SpelledObject(ms);
      SameAt(ms, r, "type");
      WalkedAt(ms, r, false, "x-plexus-source");
      assert forall i :: 0 <= i < |ms| ==> r[i].key == ms[i].key;
    }
  }

  /** Every any-JSON position the walk reaches is spelled afterwards. */
  lemma {:induction false} SpelledSaysIt(v: Json)
    ensures SaysIt(Spelled(v))
    decreases v, 1
  {
    match v
    case Bool(b) =>
      if b {
        WithTypeAt([], "type");
      }
    case Obj(ms) =>
      var r := SpelledObject(ms);
      var any := IsJsonType(ms);
      WalkIsNoType(ms);
      if any {
        WalkedAny(ms);
      }
      forall i | 0 <= i < |r|
        ensures SaysItAt(r[i].key, r[i].value, any)
      {
        if i < |ms| && !(any && i == Index(ms, "type")) {
          SpelledIs(ms, i);
          SpelledSaysItAt(ms[i].key, ms[i].value, any);
        } else {
          TypeMember(ms, i);
        }
      }
    case _ =>
  }

  lemma SpelledIs(ms: seq<Member>, i: nat)
    requires i < |ms| && !(IsJsonType(ms) && i == Index(ms, "type"))
    ensures i < |SpelledObject(ms)|
    ensures SpelledObject(ms)[i] == Member(ms[i].key, SpelledAt(ms[i].key, ms[i].value, IsJsonType(ms)))
  {
  }

  lemma TypeMember(ms: seq<Member>, i: nat)
    requires IsJsonType(ms) && i < |SpelledObject(ms)| && (i >= |ms| || i == Index(ms, "type"))
    ensures SpelledObject(ms)[i] == Member("type", Six()) && i == Index(ms, "type")
  {
  }

  lemma {:induction false} SpelledSaysItAt(key: string, v: Json, any: bool)
    ensures SaysItAt(key, SpelledAt(key, v, any), any)
    decreases v, 3
  {
    if v.Obj? {
      forall i | 0 <= i < |v.members|
        ensures SaysIt(Spelled(v.members[i].value))
      {
        SpelledSaysIt(v.members[i].value);
      }
    }
    if v.Arr? {
      forall i | 0 <= i < |v.items|
        ensures SaysIt(Spelled(v.items[i]))
      {
        SpelledSaysIt(v.items[i]);
      }
    }
    SpelledSaysIt(v);
  }

  /** Where every position is spelled there is nothing left to do. */
  lemma {:induction false} SpelledAlready(v: Json)
    requires SaysIt(v)
    ensures Spelled(v) == v
    decreases v, 1
  {
    match v
    case Obj(ms) =>
      var r := SpelledObject(ms);
      var any := IsJsonType(ms);
      forall i | 0 <= i < |ms|
        ensures i < |r| && r[i] == ms[i]
      {
        if any && i == Index(ms, "type") {
          TypeMember(ms, i);
        } else {
          SpelledIs(ms, i);
          SpelledAlreadyAt(ms[i].key, ms[i].value, any);
        }
      }
      assert |r| == |ms| by {
        SameIndex(ms, SpelledMembers(ms, |ms|, any), "type");
      }
    case _ =>
  }

  lemma {:induction false} SpelledAlreadyAt(key: string, v: Json, any: bool)
    requires SaysItAt(key, v, any)
    ensures SpelledAt(key, v, any) == v
    decreases v, 3
  {
    if MapSaysIt(v) && v.Obj? {
      forall i | 0 <= i < |v.members|
        ensures Spelled(v.members[i].value) == v.members[i].value
      {
        SpelledAlready(v.members[i].value);
      }
      assert SpelledValues(v.members, |v.members|) == v.members;
    }
    if ListSaysIt(v) && v.Arr? {
      forall i | 0 <= i < |v.items|
        ensures Spelled(v.items[i]) == v.items[i]
      {
        SpelledAlready(v.items[i]);
      }
      assert SpelledItems(v.items, |v.items|) == v.items;
    }
    if SaysIt(v) {
      SpelledAlready(v);
    }
  }

  /** Afterwards every any-JSON position walked is `{"type": [the six, in order]}`. */
  lemma SpellSaysIt(schema: Json)
    ensures SaysIt(SpellJsonValues(schema))
    ensures schema == Bool(true) || (schema.Obj? && IsJsonType(schema.members)) ==>
      var r := SpellJsonValues(schema);
      && r.Obj? && Has(r.members, "type")
      && At(r.members, "type") == Arr([Str("null"), Str("boolean"), Str("number"), Str("string"), Str("array"), Str("object")])
  {
    SpelledSaysIt(schema);
    if schema.Obj? && IsJsonType(schema.members) {
      WalkedAny(schema.members);
    }
  }

  /** A second run changes nothing. */
  lemma SpellIsIdempotent(schema: Json)
    ensures SpellJsonValues(SpellJsonValues(schema)) == SpellJsonValues(schema)
  {
    SpelledSaysIt(schema);
    SpelledAlready(Spelled(schema));
  }

  // ---------------------------------------------------------------- the node and the walk, named key by key

  lemma IsAnnotation(key: string)
    ensures key in ANNOTATIONS <==>
      || key == "description" || key == "title" || key == "default" || key == "examples" || key == "deprecated"
      || key == "$schema" || key == "$comment" || key == "readOnly" || key == "writeOnly" || key == "x-plexus-values"
      || key == "$defs" || key == "definitions"
  {
  }

  lemma SixAreNamed(t: Json)
    ensures SaysAnyType(t) <==>
      && t.Arr? && |t.items| == 6
      && Str("null") in t.items && Str("boolean") in t.items && Str("number") in t.items
      && Str("string") in t.items && Str("array") in t.items && Str("object") in t.items
  {
    assert |JSON_TYPES| == 6 && JSON_TYPES[0] == "null" && JSON_TYPES[1] == "boolean" && JSON_TYPES[2] == "number";
    assert JSON_TYPES[3] == "string" && JSON_TYPES[4] == "array" && JSON_TYPES[5] == "object";
  }

  /** A node of twelve annotations and a `type` at most, which is the six in some order when it is
      there: exactly these are recognised. */
  lemma AnyIsRecognised(ms: seq<Member>)
    ensures IsJsonType(ms) <==>
      && (Has(ms, "type") ==>
            var t := At(ms, "type");
            && t.Arr? && |t.items| == 6
            && Str("null") in t.items && Str("boolean") in t.items && Str("number") in t.items
            && Str("string") in t.items && Str("array") in t.items && Str("object") in t.items)
      && forall i :: 0 <= i < |ms| ==> IsNamed(ms[i].key)
  {
    if Has(ms, "type") {
      SixAreNamed(At(ms, "type"));
    }
    forall i | 0 <= i < |ms|
      ensures IsNamed(ms[i].key) <==> ms[i].key == "type" || ms[i].key in ANNOTATIONS
      ensures IsNamed(ms[i].key) ==> ms[i].key != "x-plexus-source"
    {
      IsAnnotation(ms[i].key);
    }
  }

  predicate IsNamed(key: string) {
    || key == "type"
    || key == "description" || key == "title" || key == "default" || key == "examples" || key == "deprecated"
    || key == "$schema" || key == "$comment" || key == "readOnly" || key == "writeOnly" || key == "x-plexus-values"
    || key == "$defs" || key == "definitions"
  }

  /** Every schema of the object at a key is rewritten, each under its name. */
  ghost predicate EachMember(was: Json, now: Json) {
    if was.Obj? then
      && now.Obj? && |now.members| == |was.members|
      && forall i :: 0 <= i < |was.members| ==> now.members[i] == Member(was.members[i].key, Spelled(was.members[i].value))
    else now == was
  }

  /** Every schema of the list at a key is rewritten, each in its place. */
  ghost predicate EachItem(was: Json, now: Json) {
    if was.Arr? then
      now.Arr? && |now.items| == |was.items| && forall i :: 0 <= i < |was.items| ==> now.items[i] == Spelled(was.items[i])
    else now == was
  }

  /**
   * What becomes of each member: definitions always; of a node that is not any JSON value the
   * properties, the items, the additional properties and the unions' branches; nothing else.
   */
  lemma WalkSays(ms: seq<Member>, i: nat)
    requires i < |ms| && ms[i].key != "type"
    ensures var key, was := ms[i].key, ms[i].value;
      && i < |SpelledObject(ms)| && SpelledObject(ms)[i].key == key
      && var now := SpelledObject(ms)[i].value;
      && (key == "$defs" || key == "definitions" ==> EachMember(was, now))
      && (key != "$defs" && key != "definitions" && IsJsonType(ms) ==> now == was)
      && (!IsJsonType(ms) && key == "properties" ==> EachMember(was, now))
      && (!IsJsonType(ms) && (key == "items" || key == "additionalProperties") ==>
            now == if was == Bool(false) then was else Spelled(was))
      && (!IsJsonType(ms) && (key == "prefixItems" || key == "oneOf" || key == "anyOf" || key == "allOf") ==> EachItem(was, now))
      && (key !in {"$defs", "definitions", "properties", "items", "additionalProperties", "prefixItems", "oneOf", "anyOf", "allOf"} ==>
            now == was)
  {
    SpelledIs(ms, i);
  }
}
