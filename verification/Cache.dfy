/**
 * The self-description cache of view.rs and the asks of plexus.rs that use it: two generations,
 * cells filled once, and any interleaving of writers and askers. A write changes what is described
 * (or granted) and only then moves its generation.
 */
module Caches {
  import opened Basics

  /** Whose view: the fingerprint of what a caller holds; None is anonymous. */
  type Who = Option<string>

  const VIEWS: nat := 1024

  // ---------------------------------------------------------------- what is kept

  /** A service's state: the generations kept for, the cell of what it describes, a cell for each view. */
  datatype Kept = Kept(schemaAt: nat, grantsAt: nat, base: nat, views: map<Who, nat>)

  /** What a reader takes under the lock: the state after, and its cells (none for a stale reader). */
  datatype Taken<T> = Taken(kept: Kept, cells: Option<T>)

  /** `Cache::base`; `newBase` is the cell made when the state starts over. */
  function TakeBase(k: Kept, newBase: nat, schemaAt: nat): Taken<nat> {
    if schemaAt < k.schemaAt then Taken(k, None)
    else
      var k1 := if schemaAt > k.schemaAt then Kept(schemaAt, k.grantsAt, newBase, map[]) else k;
      Taken(k1, Some(k1.base))
  }

  /** The state of a reader that is not stale, brought to its generations. */
  function Brought(k: Kept, newBase: nat, schemaAt: nat, grantsAt: nat): Kept {
    if schemaAt > k.schemaAt then Kept(schemaAt, grantsAt, newBase, map[])
    else if grantsAt > k.grantsAt then k.(grantsAt := grantsAt, views := map[])
    else k
  }

  /** `Cache::view`; `newView` is the cell made when none is kept for `who`. */
  function TakeView(k: Kept, newBase: nat, newView: nat, schemaAt: nat, grantsAt: nat, who: Who): Taken<(nat, nat)> {
    if schemaAt < k.schemaAt || grantsAt < k.grantsAt then Taken(k, None)
    else
      var k1 := Brought(k, newBase, schemaAt, grantsAt);
      if who in k1.views then Taken(k1, Some((k1.base, k1.views[who])))
      else
        var room := if |k1.views| >= VIEWS then map[] else k1.views;
        Taken(k1.(views := room[who := newView]), Some((k1.base, newView)))
  }

  /** The cache as it is kept: cells are numbered as they are made. */
  class Cache {
    var schemaGeneration: nat
    var schemaAt: nat
    var grantsAt: nat
    var base: nat
    var views: map<Who, nat>
    var cells: nat

    ghost function State(): Kept
      reads this
    {
      Kept(schemaAt, grantsAt, base, views)
    }

    ghost predicate Valid()
      reads this
    {
      && |views| <= VIEWS
      && base < cells
      && forall who :: who in views ==> views[who] < cells && views[who] != base
    }

    constructor ()
      ensures Valid() && schemaGeneration == 0 && State() == Kept(0, 0, 0, map[])
    {
      schemaGeneration, schemaAt, grantsAt, base, views, cells := 0, 0, 0, 0, map[], 1;
    }

    method SchemaMoved()
      requires Valid()
      modifies this`schemaGeneration
      ensures Valid() && schemaGeneration == old(schemaGeneration) + 1 && State() == old(State())
    {
      schemaGeneration := schemaGeneration + 1;
    }

    method Reset()
      requires Valid()
      modifies this
      ensures Valid() && schemaGeneration == old(schemaGeneration) + 1
      ensures State() == Kept(schemaGeneration, 0, old(cells), map[])
    {
      schemaGeneration := schemaGeneration + 1;
      schemaAt, grantsAt, base, views := schemaGeneration, 0, cells, map[];
      cells := cells + 1;
    }

    method Base(at: nat) returns (cell: Option<nat>)
      requires Valid()
      modifies this
      ensures Valid() && schemaGeneration == old(schemaGeneration)
      ensures Taken(State(), cell) == TakeBase(old(State()), old(cells), at)
      ensures at < old(schemaAt) ==> cell == None && State() == old(State())
      ensures at == old(schemaAt) ==> cell == Some(old(base)) && State() == old(State())
      ensures at > old(schemaAt) ==> cell == Some(old(cells)) && State() == Kept(at, old(grantsAt), old(cells), map[])
    {
      if at < schemaAt {
        return None;
      }
      if at > schemaAt {
        schemaAt, base, views := at, cells, map[];
        cells := cells + 1;
      }
      cell := Some(base);
    }

    /** A reader's newer generations drop what was kept for the ones before. */
    method Bring(at: nat, grants: nat)
      requires Valid() && at >= schemaAt && grants >= grantsAt
      modifies this
      ensures Valid() && schemaGeneration == old(schemaGeneration)
      ensures cells == old(cells) + if at > old(schemaAt) then 1 else 0
      ensures State() == Brought(old(State()), old(cells), at, grants)
    {
      if at > schemaAt {
        schemaAt, grantsAt, base, views := at, grants, cells, map[];
        cells := cells + 1;
      } else if grants > grantsAt {
        grantsAt := grants;
        views := map[];
      }
    }

    method View(at: nat, grants: nat, who: Who) returns (found: Option<(nat, nat)>)
      requires Valid()
      modifies this
      ensures Valid() && schemaGeneration == old(schemaGeneration)
      ensures Taken(State(), found)
        == TakeView(old(State()), old(cells), old(cells) + (if at > old(schemaAt) then 1 else 0), at, grants, who)
      ensures at < old(schemaAt) || grants < old(grantsAt) ==> found == None && State() == old(State())
      ensures at == old(schemaAt) && grants == old(grantsAt) && who in old(views) ==>
        found == Some((old(base), old(views)[who])) && State() == old(State())
      ensures found.Some? && !(at == old(schemaAt) && grants == old(grantsAt) && who in old(views)) ==>
        var moved, cell := at > old(schemaAt), old(cells) + if at > old(schemaAt) then 1 else 0;
        var kept := if moved || grants > old(grantsAt) || |old(views)| >= 1024 then map[] else old(views);
        && found == Some((if moved then old(cells) else old(base), cell))
        && State() == Kept(at, grants, found.value.0, kept[who := cell])
      ensures found.None? ==> at < old(schemaAt) || grants < old(grantsAt)
    {
      if at < schemaAt || grants < grantsAt {
        return None;
      }
      Bring(at, grants);
      if who !in views {
        if |views| >= VIEWS {
          views := map[];
        }
        views := views[who := cells];
        cells := cells + 1;
      }
      found := Some((base, views[who]));
    }
  }

  // ---------------------------------------------------------------- the world

  /**
   * One source of change: how many writes were made, which of them have yet to move the
   * generation, and for each move so far the write it announced.
   */
  datatype Source = Source(writes: nat, pending: set<nat>, moved: seq<nat>)

  function Generation(s: Source): nat {
    |s.moved|
  }

  function Write(s: Source): Source {
    s.(writes := s.writes + 1, pending := s.pending + {s.writes})
  }

  function Move(s: Source, w: nat): Source {
    s.(pending := s.pending - {w}, moved := s.moved + [w])
  }

  /** A description: which build made it, and how many schema writes came before the build began. */
  datatype Described = Described(build: nat, seen: nat)

  /** A view: over which description, for whom, and how many grant writes came before it was decided. */
  datatype Shaped = Shaped(base: Described, who: Who, seen: nat)

  /** A `OnceLock`: empty, being filled by an asker that began when `seen` writes were made, or full. */
  datatype Lock<T> = Empty | Busy(filler: nat, seen: nat) | Full(value: T)

  /** A cell, and the generation it is kept for; a view's, with the description's cell beside it. */
  datatype BaseCell = BaseCell(lock: Lock<Described>, at: nat)
  datatype ViewCell = ViewCell(lock: Lock<Shaped>, base: nat, who: Who, at: nat)

  datatype Pc =
    | Resting        // not asking
    | Begun
    | SchemaRead     // `schema_generation` read
    | GrantsRead     // and the gate's generation
    | Keyed          // and the caller's fingerprint
    | Holding        // its cells, or none when it was stale
    | Describing     // building what the service describes
    | Based          // what it describes in hand
    | Shaping        // deciding the view
    | Answered

  /** One ask; fromSchema and fromGrants are the moves that were complete when it began. */
  datatype Asker = Asker(
    pc: Pc,
    gated: bool,
    fromSchema: nat,
    fromGrants: nat,
    schemaAt: nat,
    grantsAt: nat,
    who: Who,
    whoSeen: nat,
    baseCell: Option<nat>,
    viewCell: Option<nat>,
    seen: nat,
    base: Described,
    view: Shaped)

  datatype World = World(
    schema: Source,
    grants: Source,
    kept: Kept,
    bases: seq<BaseCell>,
    views: seq<ViewCell>,
    builds: nat,
    askers: seq<Asker>)

  const RESTING: Asker :=
    Asker(Resting, false, 0, 0, 0, 0, None, 0, None, None, 0, Described(0, 0), Shaped(Described(0, 0), None, 0))

  function Start(askers: nat): World {
    World(Source(0, {}, []), Source(0, {}, []), Kept(0, 0, 0, map[]), [BaseCell(Empty, 0)], [], 0, seq(askers, _ => RESTING))
  }

  datatype Action =
    | WriteSchema
    | MoveSchema(w: nat)
    | WriteGrants
    | MoveGrants(w: nat)
    | Reset
    | Ask(a: nat, gated: bool)
    | ReadSchema(a: nat)
    | ReadGrants(a: nat)
    | ReadCaller(a: nat, who: Who)
    | Take(a: nat)
    | Work(a: nat)
    | Rest(a: nat)

  function Set(s: World, a: nat, x: Asker): World
    requires a < |s.askers|
  {
    s.(askers := s.askers[a := x])
  }

  /** The lock step: `base` for a service without a gate, `view` for one with. */
  function TakeStep(s: World, a: nat): World
    requires a < |s.askers|
  {
    var x := s.askers[a];
    if x.gated then
      var t := TakeView(s.kept, |s.bases|, |s.views|, x.schemaAt, x.grantsAt, x.who);
      if t.cells.None? then Set(s, a, x.(pc := Holding, baseCell := None, viewCell := None))
      else
        var grown := s.(kept := t.kept,
          bases := if t.kept.base == |s.bases| then s.bases + [BaseCell(Empty, x.schemaAt)] else s.bases,
          views := if t.cells.value.1 == |s.views| then s.views + [ViewCell(Empty, t.cells.value.0, x.who, x.grantsAt)]
                   else s.views);
        Set(grown, a, x.(pc := Holding, baseCell := Some(t.cells.value.0), viewCell := Some(t.cells.value.1)))
    else
      var t := TakeBase(s.kept, |s.bases|, x.schemaAt);
      var grown := s.(kept := t.kept,
        bases := if t.kept.base == |s.bases| then s.bases + [BaseCell(Empty, x.schemaAt)] else s.bases);
      Set(grown, a, x.(pc := Holding, baseCell := t.cells, viewCell := None))
  }

  /** Begin to fill the description's cell, or find it full; without a cell, build for oneself. */
  function BuildStep(s: World, a: nat): World
    requires a < |s.askers|
  {
    var x := s.askers[a];
    if x.baseCell.None? then Set(s, a, x.(pc := Describing, seen := s.schema.writes))
    else if x.baseCell.value >= |s.bases| then s
    else
      match s.bases[x.baseCell.value].lock
      case Empty =>
        var cell := s.bases[x.baseCell.value].(lock := Busy(a, s.schema.writes));
        Set(s.(bases := s.bases[x.baseCell.value := cell]), a, x.(pc := Describing))
      case Busy(_, _) => s
      case Full(d) => Set(s, a, x.(pc := Based, base := d))
  }

  /** The same of the view's cell, over the description in hand. */
  function ShapeStep(s: World, a: nat): World
    requires a < |s.askers|
  {
    var x := s.askers[a];
    if !x.gated then Set(s, a, x.(pc := Answered))
    else if x.viewCell.None? then Set(s, a, x.(pc := Shaping, seen := s.grants.writes))
    else if x.viewCell.value >= |s.views| then s
    else
      match s.views[x.viewCell.value].lock
      case Empty =>
        var cell := s.views[x.viewCell.value].(lock := Busy(a, s.grants.writes));
        Set(s.(views := s.views[x.viewCell.value := cell]), a, x.(pc := Shaping))
      case Busy(_, _) => s
      case Full(v) => Set(s, a, x.(pc := Answered, view := v))
  }

  /** The description is built. */
  function BuiltStep(s: World, a: nat): World
    requires a < |s.askers|
  {
    var x := s.askers[a];
    if x.baseCell.None? then
      Set(s.(builds := s.builds + 1), a, x.(pc := Based, base := Described(s.builds, x.seen)))
    else if x.baseCell.value >= |s.bases| || !s.bases[x.baseCell.value].lock.Busy? then s
    else
      var d := Described(s.builds, s.bases[x.baseCell.value].lock.seen);
      var cell := s.bases[x.baseCell.value].(lock := Full(d));
      Set(s.(builds := s.builds + 1, bases := s.bases[x.baseCell.value := cell]), a, x.(pc := Based, base := d))
  }

  /** The view is decided. */
  function ShapedStep(s: World, a: nat): World
    requires a < |s.askers|
  {
    var x := s.askers[a];
    if x.viewCell.None? then Set(s, a, x.(pc := Answered, view := Shaped(x.base, x.who, x.seen)))
    else if x.viewCell.value >= |s.views| || !s.views[x.viewCell.value].lock.Busy? then s
    else
      var v := Shaped(x.base, x.who, s.views[x.viewCell.value].lock.seen);
      var cell := s.views[x.viewCell.value].(lock := Full(v));
      Set(s.(views := s.views[x.viewCell.value := cell]), a, x.(pc := Answered, view := v))
  }

  /** One step towards the answer: begin what is next, or end what was begun. */
  function WorkStep(s: World, a: nat): World
    requires a < |s.askers|
  {
    match s.askers[a].pc
    case Holding => BuildStep(s, a)
    case Describing => BuiltStep(s, a)
    case Based => ShapeStep(s, a)
    case Shaping => ShapedStep(s, a)
    case _ => s
  }

  /** The reads of an ask, each by itself, in their order. */
  function ReadStep(s: World, act: Action): World
    requires act.ReadSchema? || act.ReadGrants? || act.ReadCaller?
  {
    if act.a >= |s.askers| then s
    else
      var x := s.askers[act.a];
      match act
      case ReadSchema(a) =>
        if x.pc.Begun? then Set(s, a, x.(pc := SchemaRead, schemaAt := Generation(s.schema))) else s
      case ReadGrants(a) =>
        if x.pc.SchemaRead? && x.gated then Set(s, a, x.(pc := GrantsRead, grantsAt := Generation(s.grants))) else s
      case ReadCaller(a, who) =>
        if x.pc.GrantsRead? then Set(s, a, x.(pc := Keyed, who := who, whoSeen := s.grants.writes)) else s
  }

  /** The service is changed while it is built: nobody is asking, and nothing kept stands. */
  function ResetStep(s: World): World {
    if forall a :: 0 <= a < |s.askers| ==> s.askers[a].pc.Resting? then
      var schema := Move(Write(s.schema), s.schema.writes);
      s.(schema := schema, kept := Kept(Generation(schema), 0, |s.bases|, map[]), bases := s.bases + [BaseCell(Empty, Generation(schema))])
    else s
  }

  function Next(s: World, act: Action): World {
    match act
    case WriteSchema => s.(schema := Write(s.schema))
    case MoveSchema(w) => if w in s.schema.pending then s.(schema := Move(s.schema, w)) else s
    case WriteGrants => s.(grants := Write(s.grants))
    case MoveGrants(w) => if w in s.grants.pending then s.(grants := Move(s.grants, w)) else s
    case Reset => ResetStep(s)
    case Ask(a, gated) =>
      if a < |s.askers| && s.askers[a].pc.Resting? then
        Set(s, a, RESTING.(pc := Begun, gated := gated, fromSchema := Generation(s.schema),
                           fromGrants := Generation(s.grants)))
      else s
    case ReadSchema(_) => ReadStep(s, act)
    case ReadGrants(_) => ReadStep(s, act)
    case ReadCaller(_, _) => ReadStep(s, act)
    case Take(a) =>
      if a < |s.askers| && (s.askers[a].pc.Keyed? || (s.askers[a].pc.SchemaRead? && !s.askers[a].gated))
      then TakeStep(s, a) else s
    case Work(a) => if a < |s.askers| then WorkStep(s, a) else s
    case Rest(a) => if a < |s.askers| && s.askers[a].pc.Answered? then Set(s, a, RESTING) else s
  }

  function Run(askers: nat, acts: seq<Action>): World {
    if acts == [] then Start(askers) else Next(Run(askers, acts[..|acts| - 1]), acts[|acts| - 1])
  }
}
