/**
 * The caller's view of view.rs: what `shape` decides over a service's description, kept as
 * indices and hashes, and the whole view rebuilt from it. The gate is what it says of a grant.
 */
module Views {
  import opened Basics

  // ---------------------------------------------------------------- schemas

  datatype Role = Rpc | StaticChild | DynamicChild

  /**
   * A method's schema as a view reads it; `marked` is the fixed hash of an auto `schema` entry,
   * `shaped` that its params, returns and cardinality are an auto entry's; `rest` is all else.
   */
  datatype Method = Method(
    name: string,
    grant: Option<string>,
    public: bool,
    role: Role,
    target: Option<string>,
    heldOn: Option<seq<string>>,
    marked: bool,
    shaped: bool,
    rest: string)

  /** `is_auto_schema`. */
  predicate IsAuto(m: Method) {
    m.name == "schema" && m.role.Rpc? && (m.marked || m.shaped)
  }

  /** `grant_or`. */
  function GrantOr(m: Method, ns: string): string {
    if m.grant.Some? then m.grant.value else ns + "." + m.name
  }

  datatype Summary = Summary(namespace: string, hash: string, rest: string)

  datatype Kind = Anonymous | Caller

  datatype Plugin = Plugin(
    namespace: string,
    methods: seq<Method>,
    children: Option<seq<Summary>>,
    roles: map<string, seq<string>>,
    view: Option<Kind>,
    selfHash: string,
    childrenHash: Option<string>,
    hash: string,
    rest: string)

  /** What `rehash` digests, in its three calls. */
  datatype Digested =
    | OfMethods(namespace: string, methods: seq<Method>, view: Option<Kind>)
    | OfChildren(children: seq<Summary>)
    | OfAll(self: string, childrenHash: Option<string>, schema: Plugin)

  type Digest = Digested -> string

  /** `rehash`. */
  function Rehashed(digest: Digest, s: Plugin, prefix: string): Plugin {
    var bare := s.(selfHash := "", childrenHash := None, hash := "");
    var self := digest(OfMethods(s.namespace, s.methods, s.view));
    var kids := if s.children.Some? then Some(digest(OfChildren(s.children.value))) else None;
    bare.(selfHash := self, childrenHash := kids, hash := prefix + digest(OfAll(self, kids, bare)))
  }

  // ---------------------------------------------------------------- a service

  /** A static child: its whole path, and each method's grant, public or not. */
  datatype Below = Below(namespace: string, grants: seq<(string, bool)>)

  datatype Described = Described(service: Plugin, activations: seq<Plugin>, below: seq<Below>)

  /** `Described::new`'s hollow: an activation without its methods. */
  function Hollow(s: Plugin): Plugin {
    s.(methods := [])
  }

  // ---------------------------------------------------------------- who asks

  /** Where a fingerprint holds a grant; the caller, if any; what every signed-in caller reaches. */
  datatype Asker = Asker(heldOn: (string, string) -> seq<string>, who: Option<string>, signedIn: set<string>)

  /** `Asker::keep`: whether the view keeps a method, and its `held_on` there. */
  function Keep(a: Asker, grant: string, public: bool): Option<Option<seq<string>>> {
    match a.who
    case None => if public then Some(None) else None
    case Some(who) =>
      var held := a.heldOn(who, grant);
      if held != [] then Some(Some(held))
      else if public || grant in a.signedIn then Some(None)
      else None
  }

  predicate IsAtOrBelow(namespace: string, path: string) {
    namespace == path || path + "." <= namespace
  }

  predicate Known(below: seq<Below>, path: string) {
    exists b :: 0 <= b < |below| && IsAtOrBelow(below[b].namespace, path)
  }

  predicate AnyKept(a: Asker, grants: seq<(string, bool)>) {
    exists g :: 0 <= g < |grants| && Keep(a, grants[g].0, grants[g].1).Some?
  }

  /** `reaches_below`, where a child at the path describes itself. */
  predicate ReachesBelow(a: Asker, path: string, below: seq<Below>) {
    exists b :: 0 <= b < |below| && IsAtOrBelow(below[b].namespace, path) && AnyKept(a, below[b].grants)
  }

  /** Whether a method is kept, and its `held_on`; an auto entry is not decided here. */
  function Decided(a: Asker, ns: string, below: seq<Below>, m: Method): Option<Option<seq<string>>> {
    var path := ns + "." + m.name;
    if m.role.StaticChild? && Known(below, path) then
      (if ReachesBelow(a, path, below) then Some(None) else None)
    else Keep(a, GrantOr(m, ns), m.public)
  }

  // ---------------------------------------------------------------- the compressed view

  /** One activation as a view keeps it: which methods, each with its `held_on`, and the hashes. */
  datatype Kept = Kept(
    at: nat,
    methods: seq<(nat, Option<seq<string>>)>,
    children: Option<seq<Summary>>,
    selfHash: string,
    childrenHash: Option<string>,
    hash: string)

  datatype Shaped = Shaped(kind: Kind, hash: string, service: Plugin, kept: map<string, Kept>)

  datatype View = View(kind: Kind, schema: Plugin, hash: string, activations: map<string, Plugin>)

  function ShownAs(m: Method, held: Option<seq<string>>): Method {
    m.(heldOn := held)
  }

  /** Every index a view keeps is one of the description it was decided over. */
  ghost predicate InBounds(base: Described, k: Kept) {
    && k.at < |base.activations|
    && forall i :: 0 <= i < |k.methods| ==> k.methods[i].0 < |base.activations[k.at].methods|
  }

  function KeptMethodsShown(source: Plugin, methods: seq<(nat, Option<seq<string>>)>): (r: seq<Method>)
    requires forall i :: 0 <= i < |methods| ==> methods[i].0 < |source.methods|
    ensures |r| == |methods|
    ensures forall i :: 0 <= i < |methods| ==> r[i] == ShownAs(source.methods[methods[i].0], methods[i].1)
  {
    seq(|methods|, i requires 0 <= i < |methods| => ShownAs(source.methods[methods[i].0], methods[i].1))
  }

  /** `Kept::schema`: the activation's schema as the view shows it. */
  function KeptSchema(base: Described, k: Kept, kind: Kind): Plugin
    requires InBounds(base, k)
  {
    Hollow(base.activations[k.at]).(
      methods := KeptMethodsShown(base.activations[k.at], k.methods),
      children := k.children,
      roles := map[],
      view := Some(kind),
      selfHash := k.selfHash,
      childrenHash := k.childrenHash,
      hash := k.hash)
  }

  /** The methods of the first n that the view keeps, auto entries apart. */
  function Visible(a: Asker, schema: Plugin, below: seq<Below>, n: nat): (r: seq<(nat, Option<seq<string>>)>)
    requires n <= |schema.methods|
    ensures forall i :: 0 <= i < |r| ==> r[i].0 < n
  {
    if n == 0 then []
    else
      var m := schema.methods[n - 1];
      var before := Visible(a, schema, below, n - 1);
      if IsAuto(m) || Decided(a, schema.namespace, below, m).None? then before
      else before + [(n - 1, Decided(a, schema.namespace, below, m).value)]
  }

  /** The last auto `schema` entry of the first n. */
  function Entry(schema: Plugin, n: nat): (r: seq<(nat, Option<seq<string>>)>)
    requires n <= |schema.methods|
    ensures |r| <= 1 && forall i :: 0 <= i < |r| ==> r[i].0 < n
  {
    if n == 0 then []
    else if IsAuto(schema.methods[n - 1]) then [(n - 1, schema.methods[n - 1].heldOn)]
    else Entry(schema, n - 1)
  }

  predicate Names(source: Plugin, methods: seq<(nat, Option<seq<string>>)>, name: string) {
    exists i :: 0 <= i < |methods| && methods[i].0 < |source.methods| && source.methods[methods[i].0].name == name
  }

  function KeptSummaries(source: Plugin, methods: seq<(nat, Option<seq<string>>)>, kids: seq<Summary>): seq<Summary> {
    if kids == [] then []
    else
      (if Names(source, methods, kids[0].namespace) then [kids[0]] else []) + KeptSummaries(source, methods, kids[1..])
  }

  /** `activation_view`. */
  function ActivationView(a: Asker, digest: Digest, kind: Kind, base: Described, at: nat): (r: Option<Kept>)
    requires at < |base.activations|
    ensures r.Some? ==> r.value.at == at && InBounds(base, r.value)
  {
    var schema := base.activations[at];
    var visible := Visible(a, schema, base.below, |schema.methods|);
    if visible == [] then None
    else
      var methods := visible + Entry(schema, |schema.methods|);
      var children := if schema.children.Some? then Some(KeptSummaries(schema, methods, schema.children.value)) else None;
      var k := Kept(at, methods, children, "", None, "");
      var shown := Rehashed(digest, KeptSchema(base, k, kind), "");
      Some(k.(selfHash := shown.selfHash, childrenHash := shown.childrenHash, hash := shown.hash))
  }

  /** Each activation as the view keeps it. */
  function KeptViews(a: Asker, digest: Digest, kind: Kind, base: Described): (r: seq<Option<Kept>>)
    ensures |r| == |base.activations| && AllAt(base, r)
    ensures forall at :: 0 <= at < |r| ==> r[at] == ActivationView(a, digest, kind, base, at)
  {
    seq(|base.activations|, at requires 0 <= at < |base.activations| => ActivationView(a, digest, kind, base, at))
  }

  ghost predicate AllAt(base: Described, views: seq<Option<Kept>>) {
    forall at :: 0 <= at < |views| && views[at].Some? ==> views[at].value.at == at && InBounds(base, views[at].value)
  }

  /** What there is of the first n, by namespace; a later one of the same takes its place. */
  function Collected<T>(base: Described, found: seq<Option<T>>, n: nat): map<string, T>
    requires n <= |found| == |base.activations|
  {
    if n == 0 then map[]
    else
      var before := Collected(base, found, n - 1);
      if found[n - 1].None? then before else before[base.activations[n - 1].namespace := found[n - 1].value]
  }

  /** The service's child summaries: those kept, each with its view hash. */
  function KeptChildren(hashes: map<string, string>, kids: seq<Summary>): seq<Summary> {
    if kids == [] then []
    else
      (if kids[0].namespace in hashes then [kids[0].(hash := hashes[kids[0].namespace])] else [])
      + KeptChildren(hashes, kids[1..])
  }

  function Unheld(methods: seq<Method>): seq<Method> {
    seq(|methods|, i requires 0 <= i < |methods| => ShownAs(methods[i], None))
  }

  function ServiceShown(digest: Digest, kind: Kind, service: Plugin, hashes: map<string, string>): Plugin {
    var children := KeptChildren(hashes, if service.children.Some? then service.children.value else []);
    Rehashed(digest, service.(children := Some(children), methods := Unheld(service.methods), roles := map[], view := Some(kind)),
             if kind.Caller? then "v-" else "v-anon-")
  }

  /** `shape`. */
  function Shape(a: Asker, digest: Digest, base: Described): Shaped {
    var kind := if a.who.Some? then Caller else Anonymous;
    var kept := Collected(base, KeptViews(a, digest, kind, base), |base.activations|);
    var service := ServiceShown(digest, kind, base.service, map ns | ns in kept :: kept[ns].hash);
    Shaped(kind, service.hash, service, kept)
  }

  ghost predicate Fits(base: Described, s: Shaped) {
    forall ns :: ns in s.kept ==> InBounds(base, s.kept[ns]) && base.activations[s.kept[ns].at].namespace == ns
  }

  ghost predicate AllFit(base: Described, kept: map<string, Kept>) {
    forall ns :: ns in kept ==> InBounds(base, kept[ns])
  }

  function RebuiltAll(base: Described, kept: map<string, Kept>, kind: Kind): map<string, Plugin>
    requires AllFit(base, kept)
  {
    map ns | ns in kept :: KeptSchema(base, kept[ns], kind)
  }

  /** `Shaped::view`. */
  function Rebuilt(base: Described, s: Shaped): View
    requires Fits(base, s)
  {
    View(s.kind, s.service, s.hash, RebuiltAll(base, s.kept, s.kind))
  }

  /** The first method of a name (`iter().find`). */
  function Find(methods: seq<Method>, name: string): (r: Option<Method>)
    ensures r.None? ==> forall i :: 0 <= i < |methods| ==> methods[i].name != name
    ensures r.Some? ==> exists i :: 0 <= i < |methods| && methods[i] == r.value && r.value.name == name
                                    && forall j :: 0 <= j < i ==> methods[j].name != name
  {
    if methods == [] then None else if methods[0].name == name then Some(methods[0]) else Find(methods[1..], name)
  }

  /** `Kept::method`. */
  function KeptMethod(source: Plugin, methods: seq<(nat, Option<seq<string>>)>, name: string): Option<Method>
    requires forall i :: 0 <= i < |methods| ==> methods[i].0 < |source.methods|
  {
    if methods == [] then None
    else if source.methods[methods[0].0].name == name then Some(ShownAs(source.methods[methods[0].0], methods[0].1))
    else KeptMethod(source, methods[1..], name)
  }

  /** `Shaped::schema_of`. */
  function SchemaOf(base: Described, s: Shaped, ns: string): Option<Plugin>
    requires Fits(base, s)
  {
    if ns == s.service.namespace then Some(s.service)
    else if ns in s.kept then Some(KeptSchema(base, s.kept[ns], s.kind))
    else None
  }

  /** `Shaped::method_of`. */
  function MethodOf(base: Described, s: Shaped, ns: string, name: string): Option<Method>
    requires Fits(base, s)
  {
    if ns == s.service.namespace then Find(s.service.methods, name)
    else if ns in s.kept then KeptMethod(base.activations[s.kept[ns].at], s.kept[ns].methods, name)
    else None
  }

  /** The grants of one activation's public methods, as `Shaped::public_methods` takes them. */
  function KeptPublic(source: Plugin, methods: seq<(nat, Option<seq<string>>)>): seq<string>
    requires forall i :: 0 <= i < |methods| ==> methods[i].0 < |source.methods|
  {
    if methods == [] then []
    else
      var m := source.methods[methods[0].0];
      (if m.public then [GrantOr(m, source.namespace)] else []) + KeptPublic(source, methods[1..])
  }

  /** `Shaped::public_methods`, activation by activation in the order of `names`. */
  function PublicMethods(base: Described, s: Shaped, names: seq<string>): seq<string>
    requires Fits(base, s) && forall i :: 0 <= i < |names| ==> names[i] in s.kept
  {
    if names == [] then []
    else
      KeptPublic(base.activations[s.kept[names[0]].at], s.kept[names[0]].methods) + PublicMethods(base, s, names[1..])
  }
}
