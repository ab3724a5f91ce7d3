/**
 * The kept view is the plain filtered view: rebuilt it is what filtering whole schemas gives, and
 * what is read of it piece by piece is what reading the whole of it gives.
 */
module ViewProofs {
  import opened Basics
  import opened Views

  // ---------------------------------------------------------------- the plain view, schemas copied

  /** The methods a caller can use of the first n, each with its `held_on`. */
  function PlainMethods(a: Asker, schema: Plugin, below: seq<Below>, n: nat): seq<Method>
    requires n <= |schema.methods|
  {
    if n == 0 then []
    else
      var m := schema.methods[n - 1];
      var held := Decided(a, schema.namespace, below, m);
      PlainMethods(a, schema, below, n - 1) + if IsAuto(m) || held.None? then [] else [ShownAs(m, held.value)]
  }

  /** The auto `schema` entry, as declared. */
  function PlainEntry(schema: Plugin, n: nat): seq<Method>
    requires n <= |schema.methods|
  {
    if n == 0 then [] else if IsAuto(schema.methods[n - 1]) then [schema.methods[n - 1]] else PlainEntry(schema, n - 1)
  }

  /** The child summaries whose router a method shown reaches, in order. */
  function SummariesNamed(methods: seq<Method>, kids: seq<Summary>): (r: seq<Summary>)
    ensures forall c :: c in r <==> c in kids && exists i :: 0 <= i < |methods| && methods[i].name == c.namespace
  {
    if kids == [] then []
    else
      (if exists i :: 0 <= i < |methods| && methods[i].name == kids[0].namespace then [kids[0]] else [])
      + SummariesNamed(methods, kids[1..])
  }

  /** An activation filtered for a caller, or None when nothing of it is left. */
  function PlainActivation(a: Asker, digest: Digest, kind: Kind, base: Described, at: nat): Option<Plugin>
    requires at < |base.activations|
  {
    var s := base.activations[at];
    var usable := PlainMethods(a, s, base.below, |s.methods|);
    if usable == [] then None
    else
      var methods := usable + PlainEntry(s, |s.methods|);
      var children := if s.children.Some? then Some(SummariesNamed(methods, s.children.value)) else None;
      Some(Rehashed(digest, s.(methods := methods, children := children, roles := map[], view := Some(kind)), ""))
  }

  function PlainActivations(a: Asker, digest: Digest, kind: Kind, base: Described): (r: seq<Option<Plugin>>)
    ensures |r| == |base.activations|
    ensures forall at :: 0 <= at < |r| ==> r[at] == PlainActivation(a, digest, kind, base, at)
  {
    seq(|base.activations|, at requires 0 <= at < |base.activations| => PlainActivation(a, digest, kind, base, at))
  }

  function PlainView(a: Asker, digest: Digest, base: Described): View {
    var kind := if a.who.Some? then Caller else Anonymous;
    var activations := Collected(base, PlainActivations(a, digest, kind, base), |base.activations|);
    var service := ServiceShown(digest, kind, base.service, map ns | ns in activations :: activations[ns].hash);
    View(kind, service, service.hash, activations)
  }

  // ---------------------------------------------------------------- reading a whole view

  /** `View::schema_of`. */
  function ViewSchemaOf(v: View, ns: string): Option<Plugin> {
    if ns == v.schema.namespace then Some(v.schema)
    else if ns in v.activations then Some(v.activations[ns])
    else None
  }

  predicate IsPublicly(m: Method, ns: string, grant: string) {
    m.public && grant == if m.grant.Some? then m.grant.value else ns + "." + m.name
  }

  /** The grants of the public methods, in order: the one a method names, or else its path. */
  function PublicGrants(methods: seq<Method>, ns: string): (r: seq<string>)
    ensures forall g :: g in r <==> exists i :: 0 <= i < |methods| && IsPublicly(methods[i], ns, g)
  {
    if methods == [] then []
    else (if methods[0].public then [GrantOr(methods[0], ns)] else []) + PublicGrants(methods[1..], ns)
  }

  /** `View::public_methods`, activation by activation in the order of `names`. */
  function ViewPublicMethods(v: View, names: seq<string>): seq<string>
    requires forall i :: 0 <= i < |names| ==> names[i] in v.activations
  {
    if names == [] then []
    else
      var s := v.activations[names[0]];
      PublicGrants(s.methods, s.namespace) + ViewPublicMethods(v, names[1..])
  }

  // ---------------------------------------------------------------- the kept methods are the usable ones

  lemma {:induction false} VisibleIsPlain(a: Asker, schema: Plugin, below: seq<Below>, n: nat)
    requires n <= |schema.methods|
    ensures KeptMethodsShown(schema, Visible(a, schema, below, n)) == PlainMethods(a, schema, below, n)
  {
    if n > 0 {
      VisibleIsPlain(a, schema, below, n - 1);
    }
  }

  lemma {:induction false} EntryIsPlain(schema: Plugin, n: nat)
    requires n <= |schema.methods|
    ensures KeptMethodsShown(schema, Entry(schema, n)) == PlainEntry(schema, n)
  {
    if n > 0 && !IsAuto(schema.methods[n - 1]) {
      EntryIsPlain(schema, n - 1);
    }
  }

  lemma ShownTogether(source: Plugin, p: seq<(nat, Option<seq<string>>)>, q: seq<(nat, Option<seq<string>>)>)
    requires forall i :: 0 <= i < |p| ==> p[i].0 < |source.methods|
    requires forall i :: 0 <= i < |q| ==> q[i].0 < |source.methods|
    ensures forall i :: 0 <= i < |p + q| ==> (p + q)[i].0 < |source.methods|
    ensures KeptMethodsShown(source, p + q) == KeptMethodsShown(source, p) + KeptMethodsShown(source, q)
  {
  }

  lemma {:induction false} SummariesAreNamed(source: Plugin, methods: seq<(nat, Option<seq<string>>)>, kids: seq<Summary>)
    requires forall i :: 0 <= i < |methods| ==> methods[i].0 < |source.methods|
    ensures KeptSummaries(source, methods, kids) == SummariesNamed(KeptMethodsShown(source, methods), kids)
  {
    if kids != [] {
      var shown := KeptMethodsShown(source, methods);
      assert Names(source, methods, kids[0].namespace)
        <==> exists i :: 0 <= i < |shown| && shown[i].name == kids[0].namespace by {
        if i :| 0 <= i < |shown| && shown[i].name == kids[0].namespace {
          assert source.methods[methods[i].0].name == kids[0].namespace;
        }
        if Names(source, methods, kids[0].namespace) {
          var i :| 0 <= i < |methods| && methods[i].0 < |source.methods|
            && source.methods[methods[i].0].name == kids[0].namespace;
          assert shown[i].name == kids[0].namespace;
        }
      }
      SummariesAreNamed(source, methods, kids[1..]);
    }
  }

  /** One activation: what is kept of it, rebuilt, is it filtered. */
  lemma ActivationIsPlain(a: Asker, digest: Digest, kind: Kind, base: Described, at: nat)
    requires at < |base.activations|
    ensures var k := ActivationView(a, digest, kind, base, at);
      PlainActivation(a, digest, kind, base, at) == if k.None? then None else Some(KeptSchema(base, k.value, kind))
  {
    var s := base.activations[at];
    var n := |s.methods|;
    var visible, entry := Visible(a, s, base.below, n), Entry(s, n);
    VisibleIsPlain(a, s, base.below, n);
    EntryIsPlain(s, n);
    ShownTogether(s, visible, entry);
    if s.children.Some? {
      SummariesAreNamed(s, visible + entry, s.children.value);
    }
    assert |PlainMethods(a, s, base.below, n)| == |visible|;
  }

  ghost predicate KeptFits(base: Described, kept: map<string, Kept>) {
    forall ns :: ns in kept ==> FitsAt(base, ns, kept[ns])
  }

  ghost predicate FitsAt(base: Described, ns: string, k: Kept) {
    InBounds(base, k) && base.activations[k.at].namespace == ns
  }

  lemma {:induction false} CollectedFits(base: Described, views: seq<Option<Kept>>, n: nat)
    requires n <= |views| == |base.activations| && AllAt(base, views)
    ensures KeptFits(base, Collected(base, views, n))
  {
    if n > 0 {
      CollectedFits(base, views, n - 1);
      if views[n - 1].Some? {
        var ns := base.activations[n - 1].namespace;
        assert FitsAt(base, ns, views[n - 1].value);
        PutFits(base, Collected(base, views, n - 1), ns, views[n - 1].value);
      }
    }
  }

  lemma PutFits(base: Described, kept: map<string, Kept>, ns: string, k: Kept)
    requires KeptFits(base, kept) && FitsAt(base, ns, k)
    ensures KeptFits(base, kept[ns := k])
  {
  }

  /** Collecting what is kept and rebuilding it all is collecting what is rebuilt. */
  lemma {:induction false} CollectedIsRebuilt(base: Described, views: seq<Option<Kept>>, plain: seq<Option<Plugin>>,
                                              kind: Kind, n: nat)
    requires n <= |views| == |plain| == |base.activations| && AllAt(base, views)
    requires forall at :: 0 <= at < |views| ==>
      plain[at] == if views[at].None? then None else Some(KeptSchema(base, views[at].value, kind))
    ensures AllFit(base, Collected(base, views, n))
    ensures Collected(base, plain, n) == RebuiltAll(base, Collected(base, views, n), kind)
  {
    if n > 0 {
      CollectedIsRebuilt(base, views, plain, kind, n - 1);
    }
  }

  /**
   * The compressed view refines the plain one: what `shape` keeps fits the description it was
   * decided over, every index in bounds, and rebuilt it is exactly the filtered view.
   */
  lemma ShapeIsThePlainView(a: Asker, digest: Digest, base: Described)
    ensures Fits(base, Shape(a, digest, base))
    ensures Rebuilt(base, Shape(a, digest, base)) == PlainView(a, digest, base)
  {
    var kind := if a.who.Some? then Caller else Anonymous;
    var views, all := KeptViews(a, digest, kind, base), PlainActivations(a, digest, kind, base);
    var n := |base.activations|;
    CollectedFits(base, views, n);
    assert forall ns :: ns in Collected(base, views, n) ==> FitsAt(base, ns, Collected(base, views, n)[ns]);
    forall at | 0 <= at < n
      ensures all[at] == if views[at].None? then None else Some(KeptSchema(base, views[at].value, kind))
    {
      ActivationIsPlain(a, digest, kind, base, at);
    }
    CollectedIsRebuilt(base, views, all, kind, n);
    SameHashes(base, Collected(base, views, n), kind);
  }

  lemma SameHashes(base: Described, kept: map<string, Kept>, kind: Kind)
    requires AllFit(base, kept)
    ensures var plain := RebuiltAll(base, kept, kind);
      (map ns | ns in plain :: plain[ns].hash) == (map ns | ns in kept :: kept[ns].hash)
  {
  }

  // ---------------------------------------------------------------- reading it piece by piece

  lemma SchemaOfIsRebuilt(base: Described, s: Shaped, ns: string)
    requires Fits(base, s)
    ensures SchemaOf(base, s, ns) == ViewSchemaOf(Rebuilt(base, s), ns)
  {
  }

  lemma {:induction false} KeptMethodIsFound(source: Plugin, methods: seq<(nat, Option<seq<string>>)>, name: string)
    requires forall i :: 0 <= i < |methods| ==> methods[i].0 < |source.methods|
    ensures KeptMethod(source, methods, name) == Find(KeptMethodsShown(source, methods), name)
  {
    if methods != [] {
      KeptMethodIsFound(source, methods[1..], name);
      assert KeptMethodsShown(source, methods)[1..] == KeptMethodsShown(source, methods[1..]);
    }
  }

  /** `method_of` is the method of that name in the whole view's schema. */
  lemma MethodOfIsFound(base: Described, s: Shaped, ns: string, name: string)
    requires Fits(base, s)
    ensures var schema := ViewSchemaOf(Rebuilt(base, s), ns);
      MethodOf(base, s, ns, name) == if schema.None? then None else Find(schema.value.methods, name)
  {
    if ns != s.service.namespace && ns in s.kept {
      var k := s.kept[ns];
      KeptMethodIsFound(base.activations[k.at], k.methods, name);
    }
  }

  lemma {:induction false} KeptPublicIsGrants(source: Plugin, methods: seq<(nat, Option<seq<string>>)>)
    requires forall i :: 0 <= i < |methods| ==> methods[i].0 < |source.methods|
    ensures KeptPublic(source, methods) == PublicGrants(KeptMethodsShown(source, methods), source.namespace)
  {
    if methods != [] {
      KeptPublicIsGrants(source, methods[1..]);
      assert KeptMethodsShown(source, methods)[1..] == KeptMethodsShown(source, methods[1..]);
    }
  }

  /** `public_methods` is what the whole view's own would be. */
  lemma {:induction false} PublicMethodsAreRebuilt(base: Described, s: Shaped, names: seq<string>)
    requires Fits(base, s) && forall i :: 0 <= i < |names| ==> names[i] in s.kept
    ensures PublicMethods(base, s, names) == ViewPublicMethods(Rebuilt(base, s), names)
  {
    if names != [] {
      var k := s.kept[names[0]];
      KeptPublicIsGrants(base.activations[k.at], k.methods);
      PublicMethodsAreRebuilt(base, s, names[1..]);
    }
  }

  // ---------------------------------------------------------------- what is shown

  ghost predicate Holds(methods: seq<(nat, Option<seq<string>>)>, i: nat) {
    exists j :: 0 <= j < |methods| && methods[j].0 == i
  }

  /** The i-th method of an activation is in the caller's view. */
  ghost predicate IsShown(a: Asker, digest: Digest, base: Described, at: nat, i: nat)
    requires at < |base.activations|
  {
    var kind := if a.who.Some? then Caller else Anonymous;
    var k := ActivationView(a, digest, kind, base, at);
    k.Some? && Holds(k.value.methods, i)
  }

  /** No two activations have one namespace, as the map they come from makes them. */
  ghost predicate OneEach(base: Described) {
    forall i, j :: 0 <= i < j < |base.activations| ==> base.activations[i].namespace != base.activations[j].namespace
  }

  /** What is collected under a namespace is what was found at its one place. */
  lemma {:induction false} CollectedAt<T>(base: Described, found: seq<Option<T>>, n: nat, at: nat)
    requires n <= |found| == |base.activations| && OneEach(base) && at < |found|
    ensures var ns := base.activations[at].namespace; var all := Collected(base, found, n);
      if at < n && found[at].Some? then ns in all && all[ns] == found[at].value else ns !in all
  {
    if n > 0 {
      CollectedAt(base, found, n - 1, at);
    }
  }

  /** The view a caller is given, every activation collected, shows the i-th method of one. */
  ghost predicate InView(a: Asker, digest: Digest, base: Described, at: nat, i: nat)
    requires at < |base.activations|
  {
    var kept, ns := Shape(a, digest, base).kept, base.activations[at].namespace;
    ns in kept && Holds(kept[ns].methods, i)
  }

  /** A method is shown of its activation exactly when the whole view shows it. */
  lemma ShownIsInView(a: Asker, digest: Digest, base: Described, at: nat, i: nat)
    requires at < |base.activations| && OneEach(base)
    ensures IsShown(a, digest, base, at, i) <==> InView(a, digest, base, at, i)
  {
    var kind := if a.who.Some? then Caller else Anonymous;
    CollectedAt(base, KeptViews(a, digest, kind, base), |base.activations|, at);
  }

  lemma {:induction false} VisibleHolds(a: Asker, schema: Plugin, below: seq<Below>, n: nat, i: nat)
    requires n <= |schema.methods|
    ensures Holds(Visible(a, schema, below, n), i)
      <==> i < n && !IsAuto(schema.methods[i]) && Decided(a, schema.namespace, below, schema.methods[i]).Some?
  {
    if n > 0 {
      VisibleHolds(a, schema, below, n - 1, i);
      var before, r := Visible(a, schema, below, n - 1), Visible(a, schema, below, n);
      if |r| > |before| {
        ShownAmong(before, [r[|before|]], i);
        assert [r[|before|]][0].0 == n - 1;
      }
    }
  }

  lemma {:induction false} EntryIsAuto(schema: Plugin, n: nat)
    requires n <= |schema.methods|
    ensures forall i: nat :: Holds(Entry(schema, n), i) ==> i < n && IsAuto(schema.methods[i])
  {
    if n > 0 {
      EntryIsAuto(schema, n - 1);
    }
  }

  lemma KeptMethods(a: Asker, digest: Digest, kind: Kind, base: Described, at: nat)
    requires at < |base.activations|
    ensures var s := base.activations[at]; var k := ActivationView(a, digest, kind, base, at);
      var visible := Visible(a, s, base.below, |s.methods|);
      if visible == [] then k.None? else k.Some? && k.value.methods == visible + Entry(s, |s.methods|)
  {
  }

  /** A method of its own is shown exactly when the asker keeps it. */
  lemma ShownIffDecided(a: Asker, digest: Digest, base: Described, at: nat, i: nat)
    requires at < |base.activations| && i < |base.activations[at].methods|
    requires !IsAuto(base.activations[at].methods[i])
    ensures var s := base.activations[at];
      IsShown(a, digest, base, at, i) <==> Decided(a, s.namespace, base.below, s.methods[i]).Some?
  {
    var s := base.activations[at];
    var visible, entry := Visible(a, s, base.below, |s.methods|), Entry(s, |s.methods|);
    VisibleHolds(a, s, base.below, |s.methods|, i);
    EntryIsAuto(s, |s.methods|);
    ShownAmong(visible, entry, i);
    KeptMethods(a, digest, if a.who.Some? then Caller else Anonymous, base, at);
  }

  // ---------------------------------------------------------------- what a caller can use

  /** A caller can use what is public, what it holds the grant of somewhere, and, signed in, what
      every signed-in caller reaches. */
  predicate CanUse(a: Asker, grant: string, public: bool) {
    public || (a.who.Some? && (a.heldOn(a.who.value, grant) != [] || grant in a.signedIn))
  }

  /** A static child that describes itself at the path, or below it. */
  predicate Describes(below: Below, path: string) {
    below.namespace == path || path + "." <= below.namespace
  }

  /** Some method at the path or below it can be used. */
  ghost predicate CanUseBelow(a: Asker, below: seq<Below>, path: string) {
    exists b, g :: 0 <= b < |below| && Describes(below[b], path) && 0 <= g < |below[b].grants|
      && CanUse(a, below[b].grants[g].0, below[b].grants[g].1)
  }

  lemma ReachesIsUse(a: Asker, below: seq<Below>, path: string)
    ensures Known(below, path) <==> exists b :: 0 <= b < |below| && Describes(below[b], path)
    ensures ReachesBelow(a, path, below) <==> CanUseBelow(a, below, path)
  {
    forall b | 0 <= b < |below|
      ensures IsAtOrBelow(below[b].namespace, path) <==> Describes(below[b], path)
      ensures AnyKept(a, below[b].grants)
        <==> exists g :: 0 <= g < |below[b].grants| && CanUse(a, below[b].grants[g].0, below[b].grants[g].1)
    {
      assert forall g :: 0 <= g < |below[b].grants| ==>
        (Keep(a, below[b].grants[g].0, below[b].grants[g].1).Some? <==> CanUse(a, below[b].grants[g].0, below[b].grants[g].1));
    }
  }

  /** What is decided of a method: whether the caller can use it, or something below a static child,
      and where it holds the grant. */
  lemma DecidedSays(a: Asker, ns: string, below: seq<Below>, m: Method)
    ensures var path, held := ns + "." + m.name, Decided(a, ns, below, m);
      var grant := if m.grant.Some? then m.grant.value else path;
      if m.role.StaticChild? && exists b :: 0 <= b < |below| && Describes(below[b], path)
      then held == if CanUseBelow(a, below, path) then Some(None) else None
      else
        && (held.Some? <==> CanUse(a, grant, m.public))
        && (held.Some? ==>
              held.value == if a.who.Some? && a.heldOn(a.who.value, grant) != [] then Some(a.heldOn(a.who.value, grant)) else None)
  {
    ReachesIsUse(a, below, ns + "." + m.name);
  }

  /** What is kept is in the order declared, each as decided. */
  ghost predicate AsDecided(a: Asker, schema: Plugin, below: seq<Below>, r: seq<(nat, Option<seq<string>>)>, n: nat)
    requires n <= |schema.methods|
  {
    && (forall j :: 0 <= j < |r| ==> DecidesAs(a, schema, below, r[j], n))
    && (forall j, k :: 0 <= j < k < |r| ==> r[j].0 < r[k].0)
  }

  ghost predicate DecidesAs(a: Asker, schema: Plugin, below: seq<Below>, kept: (nat, Option<seq<string>>), n: nat)
    requires n <= |schema.methods|
  {
    kept.0 < n && Decided(a, schema.namespace, below, schema.methods[kept.0]) == Some(kept.1)
  }

  function WithNext(a: Asker, schema: Plugin, below: seq<Below>, r: seq<(nat, Option<seq<string>>)>, n: nat): seq<(nat, Option<seq<string>>)>
    requires n < |schema.methods|
  {
    var held := Decided(a, schema.namespace, below, schema.methods[n]);
    if IsAuto(schema.methods[n]) || held.None? then r else r + [(n, held.value)]
  }

  lemma VisibleGoesOn(a: Asker, schema: Plugin, below: seq<Below>, n: nat)
    requires 0 < n <= |schema.methods|
    ensures Visible(a, schema, below, n) == WithNext(a, schema, below, Visible(a, schema, below, n - 1), n - 1)
  {
  }

  lemma OneMoreDecided(a: Asker, schema: Plugin, below: seq<Below>, r: seq<(nat, Option<seq<string>>)>, n: nat)
    requires 0 < n <= |schema.methods| && AsDecided(a, schema, below, r, n - 1)
    ensures AsDecided(a, schema, below, WithNext(a, schema, below, r, n - 1), n)
  {
  }

  lemma NextSays(a: Asker, schema: Plugin, below: seq<Below>, n: nat)
    requires 0 < n <= |schema.methods| && AsDecided(a, schema, below, Visible(a, schema, below, n - 1), n - 1)
    ensures AsDecided(a, schema, below, Visible(a, schema, below, n), n)
  {
    VisibleGoesOn(a, schema, below, n);
    OneMoreDecided(a, schema, below, Visible(a, schema, below, n - 1), n);
  }

  lemma NoneSays(a: Asker, schema: Plugin, below: seq<Below>)
    ensures AsDecided(a, schema, below, Visible(a, schema, below, 0), 0)
  {
  }

  lemma {:induction false} VisibleSays(a: Asker, schema: Plugin, below: seq<Below>, n: nat)
    requires n <= |schema.methods|
    ensures AsDecided(a, schema, below, Visible(a, schema, below, n), n)
  {
    if n == 0 {
      NoneSays(a, schema, below);
    } else {
      VisibleSays(a, schema, below, n - 1);
      NextSays(a, schema, below, n);
    }
  }

  /** The i-th method of an activation as the caller's view of it shows it. */
  ghost predicate IsShownHeld(a: Asker, digest: Digest, base: Described, at: nat, i: nat, held: Option<seq<string>>)
    requires at < |base.activations|
  {
    var k := ActivationView(a, digest, if a.who.Some? then Caller else Anonymous, base, at);
    k.Some? && HoldsAs(k.value.methods, i, held)
  }

  ghost predicate HoldsAs(methods: seq<(nat, Option<seq<string>>)>, i: nat, held: Option<seq<string>>) {
    exists j :: 0 <= j < |methods| && methods[j].0 == i && methods[j].1 == held
  }

  /**
   * A method of its own is shown exactly when the caller can use it, with where its grant is held;
   * a static child that describes itself exactly when something at or below it can be used.
   */
  lemma ShownIsUsable(a: Asker, digest: Digest, base: Described, at: nat, i: nat, held: Option<seq<string>>)
    requires at < |base.activations| && i < |base.activations[at].methods|
    requires var m := base.activations[at].methods[i]; !(m.name == "schema" && m.role.Rpc? && (m.marked || m.shaped))
    ensures var s := base.activations[at]; var m := s.methods[i]; var path := s.namespace + "." + m.name;
      var grant := if m.grant.Some? then m.grant.value else path;
      IsShownHeld(a, digest, base, at, i, held)
      <==> if m.role.StaticChild? && exists b :: 0 <= b < |base.below| && Describes(base.below[b], path)
           then CanUseBelow(a, base.below, path) && held == None
           else CanUse(a, grant, m.public)
                && held == if a.who.Some? && a.heldOn(a.who.value, grant) != [] then Some(a.heldOn(a.who.value, grant)) else None
  {
    var s := base.activations[at];
    DecidedSays(a, s.namespace, base.below, s.methods[i]);
    ShownIsDecided(a, digest, base, at, i, held);
  }

  lemma {:induction false} LastEntry(schema: Plugin, n: nat, i: nat)
    requires i < n <= |schema.methods| && IsAuto(schema.methods[i]) && forall j :: i < j < n ==> !IsAuto(schema.methods[j])
    ensures Entry(schema, n) == [(i, schema.methods[i].heldOn)]
  {
    if i < n - 1 {
      LastEntry(schema, n - 1, i);
    }
  }

  lemma VisibleWhen(a: Asker, schema: Plugin, below: seq<Below>)
    ensures Visible(a, schema, below, |schema.methods|) != []
      <==> exists j :: 0 <= j < |schema.methods| && !IsAuto(schema.methods[j])
             && Decided(a, schema.namespace, below, schema.methods[j]).Some?
  {
    var visible := Visible(a, schema, below, |schema.methods|);
    if visible != [] {
      assert Holds(visible, visible[0].0);
      VisibleHolds(a, schema, below, |schema.methods|, visible[0].0);
    } else if j :| 0 <= j < |schema.methods| && !IsAuto(schema.methods[j])
                   && Decided(a, schema.namespace, below, schema.methods[j]).Some? {
      VisibleHolds(a, schema, below, |schema.methods|, j);
    }
  }

  /** The auto `schema` entry, the last there is, is shown as declared, after all else, exactly
      when something else of the activation is. */
  lemma EntryIsShown(a: Asker, digest: Digest, base: Described, at: nat, i: nat)
    requires at < |base.activations| && i < |base.activations[at].methods|
    requires IsAuto(base.activations[at].methods[i])
    requires forall j :: i < j < |base.activations[at].methods| ==> !IsAuto(base.activations[at].methods[j])
    ensures var s := base.activations[at];
      var k := ActivationView(a, digest, if a.who.Some? then Caller else Anonymous, base, at);
      && (k.Some? <==> exists j :: 0 <= j < |s.methods| && !IsAuto(s.methods[j])
                          && Decided(a, s.namespace, base.below, s.methods[j]).Some?)
      && (k.Some? ==> k.value.methods != [] && k.value.methods[|k.value.methods| - 1] == (i, s.methods[i].heldOn))
  {
    var s := base.activations[at];
    KeptMethods(a, digest, if a.who.Some? then Caller else Anonymous, base, at);
    LastEntry(s, |s.methods|, i);
    VisibleWhen(a, s, base.below);
  }

  lemma ShownIsDecided(a: Asker, digest: Digest, base: Described, at: nat, i: nat, held: Option<seq<string>>)
    requires at < |base.activations| && i < |base.activations[at].methods|
    requires !IsAuto(base.activations[at].methods[i])
    ensures var s := base.activations[at];
      IsShownHeld(a, digest, base, at, i, held) <==> Decided(a, s.namespace, base.below, s.methods[i]) == Some(held)
  {
    var s := base.activations[at];
    var visible, entry := Visible(a, s, base.below, |s.methods|), Entry(s, |s.methods|);
    VisibleSays(a, s, base.below, |s.methods|);
    VisibleHolds(a, s, base.below, |s.methods|, i);
    EntryIsAuto(s, |s.methods|);
    KeptMethods(a, digest, if a.who.Some? then Caller else Anonymous, base, at);
    HeldAmong(visible, entry, i, held);
    HeldIsDecided(a, s, base.below, visible, i, held);
  }

  lemma HeldIsDecided(a: Asker, schema: Plugin, below: seq<Below>, visible: seq<(nat, Option<seq<string>>)>, i: nat, held: Option<seq<string>>)
    requires i < |schema.methods| && AsDecided(a, schema, below, visible, |schema.methods|)
    requires Holds(visible, i) <==> Decided(a, schema.namespace, below, schema.methods[i]).Some?
    ensures HoldsAs(visible, i, held) <==> Decided(a, schema.namespace, below, schema.methods[i]) == Some(held)
  {
    if Holds(visible, i) {
      var j :| 0 <= j < |visible| && visible[j].0 == i;
      assert DecidesAs(a, schema, below, visible[j], |schema.methods|);
    }
  }

  lemma HeldAmong(visible: seq<(nat, Option<seq<string>>)>, entry: seq<(nat, Option<seq<string>>)>, i: nat, held: Option<seq<string>>)
    requires !Holds(entry, i)
    ensures HoldsAs(visible + entry, i, held) <==> HoldsAs(visible, i, held)
  {
    var all := visible + entry;
    if j :| 0 <= j < |visible| && visible[j].0 == i && visible[j].1 == held {
      assert all[j].0 == i && all[j].1 == held;
    }
    if j :| 0 <= j < |all| && all[j].0 == i && all[j].1 == held {
      assert if j < |visible| then visible[j].0 == i && visible[j].1 == held else entry[j - |visible|].0 == i;
    }
  }

  lemma ShownAmong(visible: seq<(nat, Option<seq<string>>)>, entry: seq<(nat, Option<seq<string>>)>, i: nat)
    ensures Holds(visible + entry, i) <==> Holds(visible, i) || Holds(entry, i)
  {
    var all := visible + entry;
    if j :| 0 <= j < |visible| && visible[j].0 == i {
      assert all[j].0 == i;
    }
    if j :| 0 <= j < |entry| && entry[j].0 == i {
      assert all[|visible| + j].0 == i;
    }
    if j :| 0 <= j < |all| && all[j].0 == i {
      assert if j < |visible| then visible[j].0 == i else entry[j - |visible|].0 == i;
    }
  }

  // ---------------------------------------------------------------- one hash, one view

  /** What a shown schema's hash is the digest of. */
  function Composite(s: Plugin): Digested {
    OfAll(s.selfHash, s.childrenHash, s.(selfHash := "", childrenHash := None, hash := ""))
  }

  lemma RehashedSays(digest: Digest, s: Plugin, prefix: string)
    ensures var r := Rehashed(digest, s, prefix);
      && r == s.(selfHash := r.selfHash, childrenHash := r.childrenHash, hash := r.hash)
      && r.selfHash == digest(OfMethods(s.namespace, s.methods, s.view))
      && r.childrenHash == (if s.children.Some? then Some(digest(OfChildren(s.children.value))) else None)
      && r.hash == prefix + digest(Composite(r))
  {
  }

  /** The digest tells the two apart, or they are the same. */
  ghost predicate Tells(digest: Digest, x: Digested, y: Digested) {
    digest(x) == digest(y) ==> x == y
  }

  lemma SameHashSameSchema(digest: Digest, s: Plugin, t: Plugin, prefix: string)
    requires s.hash == prefix + digest(Composite(s)) && t.hash == prefix + digest(Composite(t))
    requires s.hash == t.hash && Tells(digest, Composite(s), Composite(t))
    ensures s == t
  {
    assert digest(Composite(s)) == s.hash[|prefix|..] == t.hash[|prefix|..] == digest(Composite(t));
  }

  lemma {:induction false} ChildrenAreKept(hashes: map<string, string>, kids: seq<Summary>, c: Summary)
    ensures c in KeptChildren(hashes, kids)
      <==> c.namespace in hashes && exists k :: k in kids && c == k.(hash := hashes[c.namespace])
  {
    if kids != [] {
      ChildrenAreKept(hashes, kids[1..], c);
      assert forall k :: k in kids <==> k == kids[0] || k in kids[1..];
    }
  }

  /**
   * The service's own schema in a view: every method of its own, held nowhere; of its child
   * summaries those of the activations the view keeps, each with that activation's hash there.
   */
  lemma ServiceSays(digest: Digest, kind: Kind, service: Plugin, hashes: map<string, string>)
    ensures var r := ServiceShown(digest, kind, service, hashes);
      && r.hash == (if kind.Caller? then "v-" else "v-anon-") + digest(Composite(r))
      && r.view == Some(kind) && r.roles == map[] && r.namespace == service.namespace && r.rest == service.rest
      && |r.methods| == |service.methods|
      && (forall i :: 0 <= i < |r.methods| ==> r.methods[i] == service.methods[i].(heldOn := None))
      && r.children.Some?
  {
  }

  lemma ServiceListsKept(digest: Digest, kind: Kind, service: Plugin, hashes: map<string, string>, c: Summary)
    requires service.children.Some?
    ensures c in ServiceShown(digest, kind, service, hashes).children.value
      <==> c.namespace in hashes && exists k :: k in service.children.value && c == k.(hash := hashes[c.namespace])
  {
    ChildrenAreKept(hashes, service.children.value, c);
  }

  ghost predicate IsHashed(digest: Digest, s: Plugin) {
    s.hash == "" + digest(Composite(s))
  }

  lemma {:induction false} CollectedAreHashed(digest: Digest, base: Described, found: seq<Option<Plugin>>, n: nat, ns: string)
    requires n <= |found| == |base.activations|
    requires forall at :: 0 <= at < n && found[at].Some? ==> IsHashed(digest, found[at].value)
    ensures ns in Collected(base, found, n) ==> IsHashed(digest, Collected(base, found, n)[ns])
  {
    if n > 0 {
      CollectedAreHashed(digest, base, found, n - 1, ns);
    }
  }

  lemma ActivationIsHashed(a: Asker, digest: Digest, kind: Kind, base: Described, at: nat)
    requires at < |base.activations|
    ensures PlainActivation(a, digest, kind, base, at).Some? ==> IsHashed(digest, PlainActivation(a, digest, kind, base, at).value)
  {
    var s := base.activations[at];
    var methods := PlainMethods(a, s, base.below, |s.methods|) + PlainEntry(s, |s.methods|);
    var children := if s.children.Some? then Some(SummariesNamed(methods, s.children.value)) else None;
    RehashedSays(digest, s.(methods := methods, children := children, roles := map[], view := Some(kind)), "");
  }

  lemma ViewIsHashed(a: Asker, digest: Digest, base: Described, ns: string)
    ensures var v := PlainView(a, digest, base); ns in v.activations ==> IsHashed(digest, v.activations[ns])
  {
    var kind := if a.who.Some? then Caller else Anonymous;
    forall at | 0 <= at < |base.activations| && PlainActivation(a, digest, kind, base, at).Some?
      ensures IsHashed(digest, PlainActivation(a, digest, kind, base, at).value)
    {
      ActivationIsHashed(a, digest, kind, base, at);
    }
    CollectedAreHashed(digest, base, PlainActivations(a, digest, kind, base), |base.activations|, ns);
  }

  /** The service lists the namespace among its children. */
  ghost predicate Lists(service: Plugin, ns: string) {
    service.children.Some? && exists k :: k in service.children.value && k.namespace == ns
  }

  /** What a view's service schema says of one of its activations. */
  lemma ListedHash(a: Asker, digest: Digest, base: Described, ns: string)
    ensures var v := PlainView(a, digest, base);
      && (ns in v.activations && Lists(base.service, ns) ==> Lists(v.schema, ns))
      && (forall c :: c in v.schema.children.value && c.namespace == ns ==> ns in v.activations && c.hash == v.activations[ns].hash)
  {
    var v := PlainView(a, digest, base);
    var hashes := map n | n in v.activations :: v.activations[n].hash;
    var kids := if base.service.children.Some? then base.service.children.value else [];
    forall c | c in v.schema.children.value && c.namespace == ns
      ensures ns in v.activations && c.hash == v.activations[ns].hash
    {
      ChildrenAreKept(hashes, kids, c);
    }
    if ns in v.activations && Lists(base.service, ns) {
      var k :| k in kids && k.namespace == ns;
      ChildrenAreKept(hashes, kids, k.(hash := hashes[ns]));
      assert k.(hash := hashes[ns]) in v.schema.children.value;
    }
  }

  /**
   * Two views of one kind and one hash are one view, whoever asks and whatever is described: the
   * same service schema, and of every activation listed in it the same schema, method for method
   * and `held_on` for `held_on`, unless the digest fails to tell two of those schemas apart.
   */
  lemma ViewHashIsSound(a: Asker, b: Asker, digest: Digest, base: Described, other: Described, ns: string)
    requires a.who.Some? == b.who.Some?
    requires PlainView(a, digest, base).hash == PlainView(b, digest, other).hash
    requires var v, w := PlainView(a, digest, base), PlainView(b, digest, other);
      && Tells(digest, Composite(v.schema), Composite(w.schema))
      && (ns in v.activations && ns in w.activations ==> Tells(digest, Composite(v.activations[ns]), Composite(w.activations[ns])))
    ensures var v, w := PlainView(a, digest, base), PlainView(b, digest, other);
      && v.schema == w.schema
      && (ns in v.activations && Lists(base.service, ns) ==> ns in w.activations && w.activations[ns] == v.activations[ns])
  {
    var v, w := PlainView(a, digest, base), PlainView(b, digest, other);
    ServiceSays(digest, v.kind, base.service, map n | n in v.activations :: v.activations[n].hash);
    ServiceSays(digest, w.kind, other.service, map n | n in w.activations :: w.activations[n].hash);
    SameHashSameSchema(digest, v.schema, w.schema, if v.kind.Caller? then "v-" else "v-anon-");
    ListedHash(a, digest, base, ns);
    ListedHash(b, digest, other, ns);
    if ns in v.activations && Lists(base.service, ns) {
      ViewIsHashed(a, digest, base, ns);
      ViewIsHashed(b, digest, other, ns);
      SameHashSameSchema(digest, v.activations[ns], w.activations[ns], "");
    }
  }
}
