/**
 * The walk of `service_ir` in plexus.rs: from the roots asked, through child links, to every
 * schema the caller is answered. The answers are one snapshot, so a function of the path.
 */
module Worklist {
  import opened Basics

  type Path = seq<string>

  /** What the walk reads of a schema: its children's namespaces, where they are text; and the rest. */
  datatype Schema = Schema(children: seq<Option<string>>, rest: string)

  type Answers = Path -> Option<Schema>

  function Join(p: Path): string {
    if p == [] then "" else if |p| == 1 then p[0] else Join(p[..|p| - 1]) + "." + p[|p| - 1]
  }

  /** Permitted, and answered. */
  predicate IsOpen(answer: Answers, permitted: Option<set<string>>, p: Path) {
    (permitted.Some? ==> Join(p) in permitted.value) && answer(p).Some?
  }

  predicate Links(answer: Answers, p: Path, child: string) {
    answer(p).Some? && Some(child) in answer(p).value.children
  }

  /** From root r to p every path before p is open and links to the next. */
  ghost predicate LeadsTo(answer: Answers, permitted: Option<set<string>>, r: Path, p: Path) {
    r <= p && forall k :: |r| <= k < |p| ==> IsOpen(answer, permitted, p[..k]) && Links(answer, p[..k], p[k])
  }

  /** Some root leads to p. */
  ghost predicate Offered(answer: Answers, permitted: Option<set<string>>, roots: seq<Path>, p: Path) {
    exists i :: 0 <= i < |roots| && LeadsTo(answer, permitted, roots[i], p)
  }

  /** Reached: offered, and open itself. */
  ghost predicate Reached(answer: Answers, permitted: Option<set<string>>, roots: seq<Path>, p: Path) {
    Offered(answer, permitted, roots, p) && IsOpen(answer, permitted, p)
  }

  /** The schemas there are form a finite tree: every path answered is in it. */
  ghost predicate Within(answer: Answers, tree: set<Path>) {
    forall p: Path :: answer(p).Some? ==> p in tree
  }

  /** What is on the stack or in the map, or need not be. */
  ghost predicate Handled(answer: Answers, permitted: Option<set<string>>, schemas: map<Path, Schema>, todo: seq<Path>, p: Path) {
    p in schemas || p in todo || !IsOpen(answer, permitted, p)
  }

  ghost predicate KidsHandled(answer: Answers, permitted: Option<set<string>>, schemas: map<Path, Schema>, todo: seq<Path>, p: Path) {
    forall child :: Links(answer, p, child) ==> Handled(answer, permitted, schemas, todo, p + [child])
  }

  /** Everything in the map is answered and reached; everything on the stack is offered. */
  ghost predicate Sound(answer: Answers, permitted: Option<set<string>>, roots: seq<Path>, schemas: map<Path, Schema>, todo: seq<Path>) {
    && (forall p :: p in schemas ==> Reached(answer, permitted, roots, p) && answer(p) == Some(schemas[p]))
    && (forall i :: 0 <= i < |todo| ==> Offered(answer, permitted, roots, todo[i]))
  }

  /** No root, and no child of what is in the map, is forgotten. */
  ghost predicate Complete(answer: Answers, permitted: Option<set<string>>, roots: seq<Path>, schemas: map<Path, Schema>, todo: seq<Path>) {
    && (forall i :: 0 <= i < |roots| ==> Handled(answer, permitted, schemas, todo, roots[i]))
    && (forall p :: p in schemas ==> KidsHandled(answer, permitted, schemas, todo, p))
  }

  lemma ChildIsOffered(answer: Answers, permitted: Option<set<string>>, roots: seq<Path>, p: Path, child: string)
    requires Reached(answer, permitted, roots, p) && Links(answer, p, child)
    ensures Offered(answer, permitted, roots, p + [child])
  {
    var i :| 0 <= i < |roots| && LeadsTo(answer, permitted, roots[i], p);
    var q := p + [child];
    forall k | |roots[i]| <= k < |q|
      ensures IsOpen(answer, permitted, q[..k]) && Links(answer, q[..k], q[k])
    {
      if k < |p| {
        assert q[..k] == p[..k];
      } else {
        assert q[..k] == p;
      }
    }
    assert LeadsTo(answer, permitted, roots[i], q);
  }

  /** With nothing left on the stack, every path reached is in the map: it is closed from the roots. */
  lemma {:induction false} ClosedIsComplete(answer: Answers, permitted: Option<set<string>>, roots: seq<Path>,
                                            schemas: map<Path, Schema>, i: nat, p: Path)
    requires Complete(answer, permitted, roots, schemas, [])
    requires i < |roots| && LeadsTo(answer, permitted, roots[i], p) && IsOpen(answer, permitted, p)
    ensures p in schemas
    decreases |p|
  {
    if |p| == |roots[i]| {
      assert p == roots[i];
    } else {
      var parent := p[..|p| - 1];
      assert IsOpen(answer, permitted, parent) && Links(answer, parent, p[|p| - 1]);
      forall k | |roots[i]| <= k < |parent|
        ensures IsOpen(answer, permitted, parent[..k]) && Links(answer, parent[..k], parent[k])
      {
        assert parent[..k] == p[..k];
      }
      ClosedIsComplete(answer, permitted, roots, schemas, i, parent);
      assert p == parent + [p[|p| - 1]];
      assert KidsHandled(answer, permitted, schemas, [], parent);
    }
  }

  lemma PoppedStaysHandled(answer: Answers, permitted: Option<set<string>>, roots: seq<Path>,
                           schemas: map<Path, Schema>, todo: seq<Path>)
    requires todo != [] && Complete(answer, permitted, roots, schemas, todo)
    requires todo[|todo| - 1] in schemas || !IsOpen(answer, permitted, todo[|todo| - 1])
    ensures Complete(answer, permitted, roots, schemas, todo[..|todo| - 1])
  {
  }

  lemma VisitedStaysHandled(answer: Answers, permitted: Option<set<string>>, roots: seq<Path>,
                            schemas: map<Path, Schema>, todo: seq<Path>, path: Path, grown: seq<Path>)
    requires Complete(answer, permitted, roots, schemas, todo + [path])
    requires answer(path).Some? && todo <= grown
    requires forall child :: Links(answer, path, child) ==> path + [child] in grown
    ensures Complete(answer, permitted, roots, schemas[path := answer(path).value], grown)
  {
  }

  /** The loop over one schema's children: each that is text is put on the stack. */
  method PushChildren(answer: Answers, permitted: Option<set<string>>, roots: seq<Path>, path: Path, schema: Schema, todo: seq<Path>)
    returns (grown: seq<Path>)
    requires answer(path) == Some(schema) && Reached(answer, permitted, roots, path)
    requires forall i :: 0 <= i < |todo| ==> Offered(answer, permitted, roots, todo[i])
    ensures todo <= grown
    ensures forall child :: Links(answer, path, child) ==> path + [child] in grown
    ensures forall i :: 0 <= i < |grown| ==> Offered(answer, permitted, roots, grown[i])
  {
    grown := todo;
    var c := 0;
    while c < |schema.children|
      invariant 0 <= c <= |schema.children|
      invariant todo <= grown
      invariant forall h :: 0 <= h < c && schema.children[h].Some? ==> path + [schema.children[h].value] in grown
      invariant forall i :: 0 <= i < |grown| ==> Offered(answer, permitted, roots, grown[i])
    {
      if schema.children[c].Some? {
        var next := path + [schema.children[c].value];
        ChildIsOffered(answer, permitted, roots, path, schema.children[c].value);
        assert (grown + [next])[|grown|] == next;
        assert forall q :: q in grown ==> q in grown + [next];
        grown := grown + [next];
      }
      c := c + 1;
    }
    forall child | Links(answer, path, child)
      ensures path + [child] in grown
    {
      var h :| 0 <= h < |schema.children| && schema.children[h] == Some(child);
    }
  }

  lemma RootsAreOffered(answer: Answers, permitted: Option<set<string>>, roots: seq<Path>)
    ensures Sound(answer, permitted, roots, map[], roots) && Complete(answer, permitted, roots, map[], roots)
  {
  }

  lemma EmptyIsExact(answer: Answers, permitted: Option<set<string>>, roots: seq<Path>, schemas: map<Path, Schema>)
    requires Sound(answer, permitted, roots, schemas, []) && Complete(answer, permitted, roots, schemas, [])
    ensures forall p :: p in schemas <==> Reached(answer, permitted, roots, p)
  {
    forall p | Reached(answer, permitted, roots, p)
      ensures p in schemas
    {
      var i :| 0 <= i < |roots| && LeadsTo(answer, permitted, roots[i], p);
      ClosedIsComplete(answer, permitted, roots, schemas, i, p);
    }
  }

  /** One turn of the loop: a path already known, not permitted or not answered is passed over. */
  method Visit(answer: Answers, permitted: Option<set<string>>, roots: seq<Path>, schemas: map<Path, Schema>, todo: seq<Path>)
    returns (after: map<Path, Schema>, left: seq<Path>)
    requires todo != []
    requires Sound(answer, permitted, roots, schemas, todo) && Complete(answer, permitted, roots, schemas, todo)
    ensures Sound(answer, permitted, roots, after, left) && Complete(answer, permitted, roots, after, left)
    ensures (after == schemas && |left| < |todo|)
      || (exists p :: p !in schemas && answer(p).Some? && after == schemas[p := answer(p).value])
  {
    var path := todo[|todo| - 1];
    var rest := todo[..|todo| - 1];
    assert todo == rest + [path];
    assert Offered(answer, permitted, roots, path);
    if path in schemas || (permitted.Some? && Join(path) !in permitted.value) || answer(path).None? {
      PoppedStaysHandled(answer, permitted, roots, schemas, todo);
      return schemas, rest;
    }
    left := PushChildren(answer, permitted, roots, path, answer(path).value, rest);
    VisitedStaysHandled(answer, permitted, roots, schemas, rest, path, left);
    after := schemas[path := answer(path).value];
  }

  /**
   * The walk ends on any finite tree, and its map holds exactly the paths reached from the roots
   * through child links along which every path is permitted and answered.
   */
  method Walk(answer: Answers, permitted: Option<set<string>>, roots: seq<Path>, ghost tree: set<Path>)
    returns (schemas: map<Path, Schema>)
    requires Within(answer, tree)
    ensures forall p :: p in schemas <==> Reached(answer, permitted, roots, p)
    ensures forall p :: p in schemas ==> answer(p) == Some(schemas[p])
  {
    schemas := map[];
    var todo := roots;
    RootsAreOffered(answer, permitted, roots);
    while todo != []
      invariant Sound(answer, permitted, roots, schemas, todo)
      invariant Complete(answer, permitted, roots, schemas, todo)
      invariant schemas.Keys <= tree
      decreases tree - schemas.Keys, |todo|
    {
      ghost var before := schemas;
      schemas, todo := Visit(answer, permitted, roots, schemas, todo);
      if schemas != before {
        ghost var p :| p !in before && answer(p).Some? && schemas == before[p := answer(p).value];
        assert p in tree - before.Keys && p !in tree - schemas.Keys;
      }
    }
    EmptyIsExact(answer, permitted, roots, schemas);
  }
}
