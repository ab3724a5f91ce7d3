/**
 * `spell_json_values` of schema.rs: every position of a JSON Schema that accepts any value is
 * rewritten to `{"type": [the six types]}`. What a schema accepts is given by a validator for the
 * keywords the rewrite walks; every other keyword means whatever the validator's `others` says.
 */
module Spell {
  import opened Basics
  import opened JsonText

  const JSON_TYPES: seq<string> := ["null", "boolean", "number", "string", "array", "object"]

  const ANNOTATIONS: seq<string> := [
    "description", "title", "default", "examples", "deprecated", "$schema", "$comment", "readOnly",
    "writeOnly", "x-plexus-values", "$defs", "definitions"]

  /** The six, as a `type` has them. */
  function Six(): Json {
    Arr([Str("null"), Str("boolean"), Str("number"), Str("string"), Str("array"), Str("object")])
  }

  // ---------------------------------------------------------------- the code

  /** Where a key is, or the length when it is not there. */
  function Index(ms: seq<Member>, key: string): (i: nat)
    ensures i <= |ms|
    ensures i < |ms| ==> ms[i].key == key
    ensures forall k :: 0 <= k < i ==> ms[k].key != key
  {
    if ms == [] || ms[0].key == key then 0 else 1 + Index(ms[1..], key)
  }

  predicate Has(ms: seq<Member>, key: string) {
    Index(ms, key) < |ms|
  }

  function At(ms: seq<Member>, key: string): Json
    requires Has(ms, key)
  {
    ms[Index(ms, key)].value
  }

  /** All six, and six in number. */
  predicate SaysAnyType(t: Json) {
    t.Arr? && |t.items| == |JSON_TYPES| && forall k :: 0 <= k < |JSON_TYPES| ==> Str(JSON_TYPES[k]) in t.items
  }

  /** `is_json_type_object`. */
  predicate IsJsonType(ms: seq<Member>) {
    && !Has(ms, "x-plexus-source")
    && (Has(ms, "type") ==> SaysAnyType(At(ms, "type")))
    && forall i :: 0 <= i < |ms| ==> ms[i].key == "type" || ms[i].key in ANNOTATIONS
  }

  /** `o.insert("type", JSON_TYPES)`. */
  function WithType(ms: seq<Member>): seq<Member> {
    var i := Index(ms, "type");
    if i < |ms| then ms[i := Member("type", Six())] else ms + [Member("type", Six())]
  }

  /** `spell`. */
  function Spelled(v: Json): Json
    decreases v, 1
  {
    match v
    case Bool(b) => if b then Obj(WithType([])) else v
    case Obj(ms) => Obj(SpelledObject(ms))
    case _ => v
  }

  /** `spell_object`. */
  function SpelledObject(ms: seq<Member>): seq<Member>
    decreases ms, |ms| + 1
  {
    var walked := SpelledMembers(ms, |ms|, IsJsonType(ms));
    if IsJsonType(ms) then WithType(walked) else walked
  }

  function SpelledMembers(ms: seq<Member>, n: nat, any: bool): (r: seq<Member>)
    requires n <= |ms|
    ensures |r| == n
    ensures forall i :: 0 <= i < n ==> r[i] == Member(ms[i].key, SpelledAt(ms[i].key, ms[i].value, any))
    decreases ms, n
  {
    if n == 0 then []
    else
      SpelledMembers(ms, n - 1, any) + [Member(ms[n - 1].key, SpelledAt(ms[n - 1].key, ms[n - 1].value, any))]
  }

  /** What the walk does at each key: nothing but the definitions where any value is accepted. */
  function SpelledAt(key: string, v: Json, any: bool): Json
    decreases v, 3
  {
    if key == "$defs" || key == "definitions" then SpelledMap(v)
    else if any then v
    else if key == "properties" then SpelledMap(v)
    else if key == "items" || key == "additionalProperties" then (if v == Bool(false) then v else Spelled(v))
    else if key == "prefixItems" || key == "oneOf" || key == "anyOf" || key == "allOf" then SpelledList(v)
    else v
  }

  function SpelledMap(v: Json): Json
    decreases v, 2
  {
    if v.Obj? then Obj(SpelledValues(v.members, |v.members|)) else v
  }

  function SpelledList(v: Json): Json
    decreases v, 2
  {
    if v.Arr? then Arr(SpelledItems(v.items, |v.items|)) else v
  }

  function SpelledValues(ms: seq<Member>, n: nat): (r: seq<Member>)
    requires n <= |ms|
    ensures |r| == n && forall i :: 0 <= i < n ==> r[i] == Member(ms[i].key, Spelled(ms[i].value))
    decreases ms, n
  {
    if n == 0 then [] else SpelledValues(ms, n - 1) + [Member(ms[n - 1].key, Spelled(ms[n - 1].value))]
  }

  function SpelledItems(items: seq<Json>, n: nat): (r: seq<Json>)
    requires n <= |items|
    ensures |r| == n && forall i :: 0 <= i < n ==> r[i] == Spelled(items[i])
    decreases items, n
  {
    if n == 0 then [] else SpelledItems(items, n - 1) + [Spelled(items[n - 1])]
  }

  /** `spell_json_values` of a schema: what accepts nothing is left. */
  function SpellJsonValues(schema: Json): Json {
    if schema == Bool(false) then schema else Spelled(schema)
  }

  // ---------------------------------------------------------------- what a schema accepts

  /** Which instances the schema of each reference accepts. */
  type Refs = iset<(string, Json)>

  /**
   * The keywords the rewrite neither walks nor reads, all at once: what they accept, which of an
   * object's keys they match (`patternProperties`), and which numbers are integers.
   */
  datatype Validator = Validator(
    others: (seq<Member>, Json, Refs) -> bool,
    matched: (seq<Member>, string) -> bool,
    integer: string -> bool)

  ghost predicate AcceptsNothingMore(k: Validator) {
    forall x, refs :: k.others([], x, refs)
  }

  predicate IsOfType(k: Validator, x: Json, t: string) {
    match x
    case Null => t == "null"
    case Bool(_) => t == "boolean"
    case Num(text) => t == "number" || (t == "integer" && k.integer(text))
    case Str(_) => t == "string"
    case Arr(_) => t == "array"
    case Obj(_) => t == "object"
  }

  predicate TypeHolds(k: Validator, t: Json, x: Json) {
    match t
    case Str(name) => IsOfType(k, x, name)
    case Arr(names) => exists i :: 0 <= i < |names| && names[i].Str? && IsOfType(k, x, names[i].s)
    case _ => true
  }

  const HANDLED: seq<string> := [
    "type", "$ref", "required", "properties", "items", "additionalProperties", "prefixItems", "oneOf", "anyOf", "allOf"]

  /** The keywords left to the validator's `others`. */
  function Rest(ms: seq<Member>): seq<Member> {
    if ms == [] then []
    else (if ms[0].key in HANDLED || ms[0].key in ANNOTATIONS then [] else [ms[0]]) + Rest(ms[1..])
  }

  /** What a schema accepts. */
  ghost predicate Accepts(k: Validator, schema: Json, x: Json, refs: Refs)
    decreases schema, 1
  {
    match schema
    case Bool(b) => b
    case Obj(ms) => PlainlyAccepts(k, ms, x, refs) && WalkedAccepts(k, ms, x, refs)
    case _ => true
  }

  /** The keywords without a schema in them that is walked. */
  ghost predicate PlainlyAccepts(k: Validator, ms: seq<Member>, x: Json, refs: Refs) {
    && (Has(ms, "type") ==> TypeHolds(k, At(ms, "type"), x))
    && (Has(ms, "$ref") && At(ms, "$ref").Str? ==> (At(ms, "$ref").s, x) in refs)
    && (Has(ms, "required") && At(ms, "required").Arr? && x.Obj? ==>
          forall r :: r in At(ms, "required").items && r.Str? ==> Has(x.members, r.s))
    && k.others(Rest(ms), x, refs)
  }

  ghost predicate WalkedAccepts(k: Validator, ms: seq<Member>, x: Json, refs: Refs)
    decreases ms, 2
  {
    && PropertiesAccept(k, ms, x, refs)
    && AdditionalAccept(k, ms, x, refs)
    && PrefixAccepts(k, ms, x, refs)
    && ItemsAccept(k, ms, x, refs)
    && AllOfAccepts(k, ms, x, refs)
    && AnyOfAccepts(k, ms, x, refs)
    && OneOfAccepts(k, ms, x, refs)
  }

  ghost predicate PropertiesAccept(k: Validator, ms: seq<Member>, x: Json, refs: Refs)
    decreases ms, 0
  {
    var i := Index(ms, "properties");
    i < |ms| && ms[i].value.Obj? && x.Obj? ==>
      forall j :: 0 <= j < |ms[i].value.members| ==>
        Has(x.members, ms[i].value.members[j].key) ==>
          Accepts(k, ms[i].value.members[j].value, At(x.members, ms[i].value.members[j].key), refs)
  }

  predicate Additional(k: Validator, ms: seq<Member>, name: string) {
    && !(Has(ms, "properties") && At(ms, "properties").Obj? && Has(At(ms, "properties").members, name))
    && !k.matched(Rest(ms), name)
  }

  ghost predicate AdditionalAccept(k: Validator, ms: seq<Member>, x: Json, refs: Refs)
    decreases ms, 0
  {
    var i := Index(ms, "additionalProperties");
    i < |ms| && x.Obj? ==>
      forall j :: 0 <= j < |x.members| && Additional(k, ms, x.members[j].key) ==>
        Accepts(k, ms[i].value, x.members[j].value, refs)
  }

  /** How many leading items `prefixItems` names. */
  function Prefix(ms: seq<Member>): nat {
    if Has(ms, "prefixItems") && At(ms, "prefixItems").Arr? then |At(ms, "prefixItems").items| else 0
  }

  ghost predicate PrefixAccepts(k: Validator, ms: seq<Member>, x: Json, refs: Refs)
    decreases ms, 0
  {
    var i := Index(ms, "prefixItems");
    i < |ms| && ms[i].value.Arr? && x.Arr? ==>
      forall j :: 0 <= j < |ms[i].value.items| && j < |x.items| ==> Accepts(k, ms[i].value.items[j], x.items[j], refs)
  }

  ghost predicate ItemsAccept(k: Validator, ms: seq<Member>, x: Json, refs: Refs)
    decreases ms, 0
  {
    var i := Index(ms, "items");
    i < |ms| && x.Arr? ==>
      forall j :: Prefix(ms) <= j < |x.items| ==> Accepts(k, ms[i].value, x.items[j], refs)
  }

  ghost predicate AllOfAccepts(k: Validator, ms: seq<Member>, x: Json, refs: Refs)
    decreases ms, 1
  {
    forall j :: 0 <= j < Branches(ms, "allOf") ==> BranchAccepts(k, ms, "allOf", j, x, refs)
  }

  ghost predicate AnyOfAccepts(k: Validator, ms: seq<Member>, x: Json, refs: Refs)
    decreases ms, 1
  {
    Has(ms, "anyOf") && At(ms, "anyOf").Arr? ==>
      exists j :: 0 <= j < Branches(ms, "anyOf") && BranchAccepts(k, ms, "anyOf", j, x, refs)
  }

  ghost predicate OneOfAccepts(k: Validator, ms: seq<Member>, x: Json, refs: Refs)
    decreases ms, 1
  {
    Has(ms, "oneOf") && At(ms, "oneOf").Arr? ==>
      exists j :: 0 <= j < Branches(ms, "oneOf") && OnlyOneAccepts(k, ms, j, x, refs)
  }

  ghost predicate OnlyOneAccepts(k: Validator, ms: seq<Member>, j: nat, x: Json, refs: Refs)
    requires j < Branches(ms, "oneOf")
    decreases ms, 0, 1
  {
    forall h :: 0 <= h < Branches(ms, "oneOf") ==> (BranchAccepts(k, ms, "oneOf", h, x, refs) <==> h == j)
  }

  function Branches(ms: seq<Member>, key: string): nat {
    if Has(ms, key) && At(ms, key).Arr? then |At(ms, key).items| else 0
  }

  ghost predicate BranchAccepts(k: Validator, ms: seq<Member>, key: string, j: nat, x: Json, refs: Refs)
    requires j < Branches(ms, key)
    decreases ms, 0, 0
  {
    Accepts(k, ms[Index(ms, key)].value.items[j], x, refs)
  }
}
