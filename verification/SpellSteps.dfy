/**
 * `spell` and `spell_object` as they run: the object is rewritten key by key, the definitions
 * first, and the rest only where the object was not any JSON value to begin with.
 */
module SpellSteps {
  import opened Basics
  import opened JsonText
  import opened Spell

  /** The members at the keys done are rewritten, the others as they were. */
  ghost predicate Partly(ms: seq<Member>, o: seq<Member>, done: set<string>, any: bool) {
    && |o| == |ms|
    && forall i :: 0 <= i < |ms| ==>
         o[i] == Member(ms[i].key, if ms[i].key in done then SpelledAt(ms[i].key, ms[i].value, any) else ms[i].value)
  }

  method SpellValue(v: Json) returns (r: Json)
    requires Proper(v)
    ensures r == Spelled(v)
    decreases v, 1
  {
    r := v;
    if r == Bool(true) {
      r := Obj(WithType([]));
    } else if r.Obj? {
      var o := SpellObject(r.members);
      r := Obj(o);
    }
  }

  lemma AllSpelled(ms: seq<Member>, m: seq<Member>)
    requires |m| == |ms| && forall h :: 0 <= h < |m| ==> m[h] == Member(ms[h].key, Spelled(ms[h].value))
    ensures m == SpelledValues(ms, |ms|)
  {
  }

  /** `m.values_mut().for_each(spell)`, where there is an object. */
  method SpellMap(v: Json) returns (r: Json)
    requires Proper(v)
    ensures r == SpelledMap(v)
    decreases v, 2
  {
    r := v;
    if v.Obj? {
      var m := v.members;
      var i := 0;
      while i < |m|
        invariant 0 <= i <= |m| == |v.members|
        invariant forall h :: 0 <= h < i ==> m[h] == Member(v.members[h].key, Spelled(v.members[h].value))
        invariant forall h :: i <= h < |m| ==> m[h] == v.members[h]
      {
        var x := SpellValue(v.members[i].value);
        m := m[i := Member(m[i].key, x)];
        i := i + 1;
      }
      AllSpelled(v.members, m);
      r := Obj(m);
    }
  }

  /** `xs.iter_mut().for_each(spell)`, where there is an array. */
  method SpellList(v: Json) returns (r: Json)
    requires Proper(v)
    ensures r == SpelledList(v)
    decreases v, 2
  {
    r := v;
    if v.Arr? {
      var xs := v.items;
      var i := 0;
      while i < |xs|
        invariant 0 <= i <= |xs| == |v.items|
        invariant forall h :: 0 <= h < i ==> xs[h] == Spelled(v.items[h])
        invariant forall h :: i <= h < |xs| ==> xs[h] == v.items[h]
      {
        var x := SpellValue(v.items[i]);
        xs := xs[i := x];
        i := i + 1;
      }
      assert xs == SpelledItems(v.items, |v.items|);
      r := Arr(xs);
    }
  }

  /** `get_mut` of one key, and the rewrite of what is there. */
  method SpellKey(ms: seq<Member>, o: seq<Member>, key: string, any: bool, ghost done: set<string>)
    returns (r: seq<Member>)
    requires Proper(Obj(ms)) && Partly(ms, o, done, any) && key !in done
    requires key in WALKED && (any ==> key == "$defs" || key == "definitions")
    ensures Partly(ms, r, done + {key}, any)
    decreases ms, 1, 0
  {
    r := o;
    var i := Index(o, key);
    if i < |o| {
      var v := o[i].value;
      assert v == ms[i].value;
      if key == "$defs" || key == "definitions" || key == "properties" {
        v := SpellMap(v);
      } else if key == "items" || key == "additionalProperties" {
        if v != Bool(false) {
          v := SpellValue(v);
        }
      } else {
        v := SpellList(v);
      }
      assert v == SpelledAt(key, ms[i].value, any) by { WalkedKey(key); }
      r := o[i := Member(key, v)];
    }
  }

  const WALKED: set<string> := {
    "$defs", "definitions", "properties", "items", "additionalProperties", "prefixItems", "oneOf", "anyOf", "allOf"}

  lemma WalkedKey(key: string)
    requires key in WALKED
    ensures key == "$defs" || key == "definitions" || key == "properties" || key == "items"
      || key == "additionalProperties" || key == "prefixItems" || key == "oneOf" || key == "anyOf" || key == "allOf"
  {
  }

  method SpellObject(ms: seq<Member>) returns (o: seq<Member>)
    requires Proper(Obj(ms))
    ensures o == SpelledObject(ms)
    decreases ms, 3
  {
    var any := IsJsonType(ms);
    o := SpellKey(ms, ms, "$defs", any, {});
    o := SpellKey(ms, o, "definitions", any, {"$defs"});
    if any {
      AllWalked(ms, o, {"$defs"} + {"definitions"}, true);
      o := WithType(o);
      return;
    }
    o := SpellOthers(ms, o);
    AllWalked(ms, o, WALKED, false);
  }

  /** Once every key that is walked is done, the object is the walk of it. */
  lemma AllWalked(ms: seq<Member>, o: seq<Member>, done: set<string>, any: bool)
    requires Partly(ms, o, done, any)
    requires done == if any then {"$defs", "definitions"} else WALKED
    ensures o == SpelledMembers(ms, |ms|, any)
  {
  }

  /** The two loops over the keys of one schema and of several, their few turns one after another. */
  method SpellOthers(ms: seq<Member>, defs: seq<Member>) returns (o: seq<Member>)
    requires Proper(Obj(ms)) && !IsJsonType(ms) && Partly(ms, defs, {"$defs", "definitions"}, false)
    ensures Partly(ms, o, WALKED, false)
    decreases ms, 2
  {
    o := SpellKey(ms, defs, "properties", false, {"$defs", "definitions"});
    o := SpellKey(ms, o, "items", false, {"$defs", "definitions", "properties"});
    o := SpellKey(ms, o, "additionalProperties", false, {"$defs", "definitions", "properties", "items"});
    ghost var done := {"$defs", "definitions", "properties", "items", "additionalProperties"};
    o := SpellUnions(ms, o, done);
    assert done + {"prefixItems", "oneOf", "anyOf", "allOf"} == WALKED;
  }

  method SpellUnions(ms: seq<Member>, before: seq<Member>, ghost done: set<string>) returns (o: seq<Member>)
    requires Proper(Obj(ms)) && !IsJsonType(ms) && Partly(ms, before, done, false)
    requires forall key :: key in {"prefixItems", "oneOf", "anyOf", "allOf"} ==> key !in done
    ensures Partly(ms, o, done + {"prefixItems", "oneOf", "anyOf", "allOf"}, false)
    decreases ms, 1, 1
  {
    o := SpellKey(ms, before, "prefixItems", false, done);
    o := SpellKey(ms, o, "oneOf", false, done + {"prefixItems"});
    o := SpellKey(ms, o, "anyOf", false, done + {"prefixItems"} + {"oneOf"});
    o := SpellKey(ms, o, "allOf", false, done + {"prefixItems"} + {"oneOf"} + {"anyOf"});
    assert done + {"prefixItems"} + {"oneOf"} + {"anyOf"} + {"allOf"} == done + {"prefixItems", "oneOf", "anyOf", "allOf"};
  }

  /** `spell_json_values`. */
  method Run(schema: Json) returns (r: Json)
    requires Proper(schema) && (schema.Bool? || schema.Obj?)
    ensures r == SpellJsonValues(schema)
  {
    if schema == Bool(false) {
      return schema;
    }
    r := SpellValue(schema);
  }
}
