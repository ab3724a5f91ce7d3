/**
 * `activation_view` and `shape` of view.rs as they run: what a view keeps is pushed method by
 * method and put in a map activation by activation.
 */
module ViewSteps {
  import opened Basics
  import opened Views

  /** The entries there are of at most one. */
  function Listed<T>(x: Option<T>): seq<T> {
    if x.Some? then [x.value] else []
  }

  method DecideActivation(a: Asker, digest: Digest, kind: Kind, base: Described, at: nat) returns (r: Option<Kept>)
    requires at < |base.activations|
    ensures r == ActivationView(a, digest, kind, base, at)
  {
    var schema := base.activations[at];
    var kept: seq<(nat, Option<seq<string>>)> := [];
    var entry: Option<(nat, Option<seq<string>>)> := None;
    for i := 0 to |schema.methods|
      invariant kept == Visible(a, schema, base.below, i)
      invariant Listed(entry) == Entry(schema, i)
    {
      var m := schema.methods[i];
      if IsAuto(m) {
        entry := Some((i, m.heldOn));
        continue;
      }
      if m.role.StaticChild? {
        var path := schema.namespace + "." + m.name;
        if Known(base.below, path) {
          if ReachesBelow(a, path, base.below) {
            kept := kept + [(i, None)];
          }
          continue;
        }
      }
      var held := Keep(a, GrantOr(m, schema.namespace), m.public);
      if held.Some? {
        kept := kept + [(i, held.value)];
      }
    }
    if kept == [] {
      return None;
    }
    kept := kept + Listed(entry);
    var children := if schema.children.Some? then Some(KeptSummaries(schema, kept, schema.children.value)) else None;
    var k := Kept(at, kept, children, "", None, "");
    var shown := Rehashed(digest, KeptSchema(base, k, kind), "");
    r := Some(k.(selfHash := shown.selfHash, childrenHash := shown.childrenHash, hash := shown.hash));
  }

  /** What is decided of one activation. */
  ghost predicate DecidesAt(a: Asker, digest: Digest, kind: Kind, base: Described, views: seq<Option<Kept>>, at: nat) {
    at < |base.activations| == |views| && views[at] == ActivationView(a, digest, kind, base, at)
  }

  /** One turn of the collecting: what there is of the activation, under its namespace. */
  method PutActivation(a: Asker, digest: Digest, kind: Kind, base: Described, at: nat, kept: map<string, Kept>,
                       ghost views: seq<Option<Kept>>) returns (r: map<string, Kept>)
    requires DecidesAt(a, digest, kind, base, views, at)
    requires kept == Collected(base, views, at)
    ensures r == Collected(base, views, at + 1)
  {
    var k := DecideActivation(a, digest, kind, base, at);
    r := if k.Some? then kept[base.activations[at].namespace := k.value] else kept;
  }

  method DecideActivations(a: Asker, digest: Digest, kind: Kind, base: Described, ghost views: seq<Option<Kept>>)
    returns (kept: map<string, Kept>)
    requires |views| == |base.activations|
    requires forall at :: 0 <= at < |views| ==> DecidesAt(a, digest, kind, base, views, at)
    ensures kept == Collected(base, views, |views|)
  {
    kept := map[];
    var at := 0;
    while at < |base.activations|
      invariant 0 <= at <= |base.activations|
      invariant kept == Collected(base, views, at)
    {
      kept := PutActivation(a, digest, kind, base, at, kept, views);
      at := at + 1;
    }
  }

  method DecideView(a: Asker, digest: Digest, base: Described) returns (s: Shaped)
    ensures s == Shape(a, digest, base)
  {
    var kind := if a.who.Some? then Caller else Anonymous;
    var kept := DecideActivations(a, digest, kind, base, KeptViews(a, digest, kind, base));
    var service := ServiceShown(digest, kind, base.service, map ns | ns in kept :: kept[ns].hash);
    s := Shaped(kind, service.hash, service, kept);
  }
}
