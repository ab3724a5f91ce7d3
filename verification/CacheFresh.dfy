/**
 * What the cache of Caches keeps in every interleaving: an answer reflects every write whose
 * move was complete when its ask began, is decided for its own caller over the very description
 * it comes with, and a reader with an older generation touches nothing that is kept.
 */
module CacheFresh {
  import opened Basics
  import opened Caches

  // ---------------------------------------------------------------- the invariant

  /** Whatever began when `seen` writes were made reflects every write announced up to `gen`. */
  ghost predicate Reflects(src: Source, gen: nat, seen: nat) {
    gen <= |src.moved| && forall i :: 0 <= i < gen ==> src.moved[i] < seen
  }

  ghost predicate SourceOk(src: Source) {
    && (forall w :: w in src.pending ==> w < src.writes)
    && (forall i :: 0 <= i < |src.moved| ==> src.moved[i] < src.writes)
  }

  ghost predicate BaseOk(schema: Source, c: BaseCell) {
    && c.at <= |schema.moved|
    && (c.lock.Busy? ==> Reflects(schema, c.at, c.lock.seen))
    && (c.lock.Full? ==> Reflects(schema, c.at, c.lock.value.seen))
  }

  ghost predicate ViewOk(grants: Source, bases: seq<BaseCell>, v: ViewCell) {
    && v.base < |bases| && v.at <= |grants.moved|
    && (v.lock.Busy? ==> Reflects(grants, v.at, v.lock.seen))
    && (v.lock.Full? ==>
          Reflects(grants, v.at, v.lock.value.seen) && v.lock.value.who == v.who
          && bases[v.base].lock == Full(v.lock.value.base))
  }

  ghost predicate KeptOk(k: Kept, schema: Source, grants: Source, bases: seq<BaseCell>, views: seq<ViewCell>) {
    && k.schemaAt <= |schema.moved| && k.grantsAt <= |grants.moved|
    && k.base < |bases| && bases[k.base].at == k.schemaAt
    && |k.views| <= VIEWS
    && forall who :: who in k.views ==>
         k.views[who] < |views|
         && views[k.views[who]].who == who && views[k.views[who]].base == k.base && views[k.views[who]].at == k.grantsAt
  }

  /** What an ask has read. */
  ghost predicate ReadsOk(schema: Source, grants: Source, x: Asker) {
    && (!x.pc.Resting? ==> x.fromSchema <= |schema.moved| && x.fromGrants <= |grants.moved|)
    && (!x.pc.Resting? && !x.pc.Begun? ==> x.fromSchema <= x.schemaAt <= |schema.moved|)
    && (x.gated && !x.pc.Resting? && !x.pc.Begun? && !x.pc.SchemaRead? ==>
          x.fromGrants <= x.grantsAt <= |grants.moved|)
    && (x.pc.GrantsRead? || x.pc.Keyed? ==> x.gated)
    && (x.gated && PastKey(x.pc) ==> Reflects(grants, x.grantsAt, x.whoSeen))
  }

  predicate PastKey(pc: Pc) {
    pc.Keyed? || PastTake(pc)
  }

  predicate PastTake(pc: Pc) {
    pc.Holding? || pc.Describing? || PastBase(pc)
  }

  predicate PastBase(pc: Pc) {
    pc.Based? || pc.Shaping? || pc.Answered?
  }

  /** The cells an ask holds are of the generations it read, and for its caller. */
  ghost predicate CellsOk(bases: seq<BaseCell>, views: seq<ViewCell>, x: Asker) {
    PastTake(x.pc) ==>
      && (x.baseCell.Some? ==> x.baseCell.value < |bases| && bases[x.baseCell.value].at == x.schemaAt)
      && (x.viewCell.Some? ==>
            x.viewCell.value < |views| && views[x.viewCell.value].who == x.who
            && views[x.viewCell.value].at == x.grantsAt && x.baseCell == Some(views[x.viewCell.value].base)
            && (x.pc.Answered? && x.gated ==> views[x.viewCell.value].lock == Full(x.view)))
  }

  /** What an ask has in hand. */
  ghost predicate HandOk(schema: Source, grants: Source, bases: seq<BaseCell>, x: Asker) {
    && (x.pc.Describing? && x.baseCell.None? ==> Reflects(schema, x.schemaAt, x.seen))
    && (PastBase(x.pc) ==>
          Reflects(schema, x.schemaAt, x.base.seen)
          && (x.baseCell.Some? ==> x.baseCell.value < |bases| && bases[x.baseCell.value].lock == Full(x.base)))
    && (x.pc.Shaping? && x.viewCell.None? ==> Reflects(grants, x.grantsAt, x.seen))
    && (x.pc.Shaping? ==> x.gated)
    && (x.pc.Answered? && x.gated ==>
          x.view.base == x.base && x.view.who == x.who && Reflects(grants, x.grantsAt, x.view.seen))
  }

  ghost predicate AskerOk(s: World, x: Asker) {
    && ReadsOk(s.schema, s.grants, x)
    && CellsOk(s.bases, s.views, x)
    && HandOk(s.schema, s.grants, s.bases, x)
  }

  ghost predicate CellsAreOk(s: World) {
    && SourceOk(s.schema) && SourceOk(s.grants)
    && (forall b :: 0 <= b < |s.bases| ==> BaseOk(s.schema, s.bases[b]))
    && (forall v :: 0 <= v < |s.views| ==> ViewOk(s.grants, s.bases, s.views[v]))
    && KeptOk(s.kept, s.schema, s.grants, s.bases, s.views)
  }

  ghost predicate Inv(s: World) {
    CellsAreOk(s) && forall a :: 0 <= a < |s.askers| ==> AskerOk(s, s.askers[a])
  }

  // ---------------------------------------------------------------- what only grows

  ghost predicate SourceGrows(a: Source, b: Source) {
    a.moved <= b.moved && a.writes <= b.writes
  }

  /** Cells stay what they are for, and a full one stays as it was filled. */
  ghost predicate Grows(s: World, t: World) {
    && SourceGrows(s.schema, t.schema) && SourceGrows(s.grants, t.grants)
    && |s.bases| <= |t.bases| && |s.views| <= |t.views|
    && (forall b :: 0 <= b < |s.bases| ==>
          t.bases[b].at == s.bases[b].at && (s.bases[b].lock.Full? ==> t.bases[b].lock == s.bases[b].lock))
    && (forall v :: 0 <= v < |s.views| ==>
          t.views[v].base == s.views[v].base && t.views[v].who == s.views[v].who && t.views[v].at == s.views[v].at
          && (s.views[v].lock.Full? ==> t.views[v].lock == s.views[v].lock))
  }

  /** What holds of one ask holds whatever the others do. */
  lemma AskerStaysOk(s: World, t: World, x: Asker)
    requires Grows(s, t) && AskerOk(s, x)
    ensures AskerOk(t, x)
  {
  }

  lemma BaseStaysOk(a: Source, b: Source, c: BaseCell)
    requires SourceGrows(a, b) && BaseOk(a, c)
    ensures BaseOk(b, c)
  {
  }

  lemma ViewStaysOk(s: World, t: World, v: ViewCell)
    requires Grows(s, t) && ViewOk(s.grants, s.bases, v)
    ensures ViewOk(t.grants, t.bases, v)
  {
  }

  /** A build that begins now reflects every move made. */
  lemma NowReflects(src: Source, gen: nat)
    requires SourceOk(src) && gen <= |src.moved|
    ensures Reflects(src, gen, src.writes)
  {
  }

  // ---------------------------------------------------------------- a step changes one ask at most

  ghost predicate OnlyAsker(s: World, t: World, a: nat) {
    && |t.askers| == |s.askers|
    && forall h :: 0 <= h < |s.askers| && h != a ==> t.askers[h] == s.askers[h]
  }

  lemma AskersStayOk(s: World, t: World, a: nat)
    requires Inv(s) && Grows(s, t) && OnlyAsker(s, t, a) && CellsAreOk(t)
    requires a < |t.askers| ==> AskerOk(t, t.askers[a])
    ensures Inv(t)
  {
    forall h | 0 <= h < |t.askers|
      ensures AskerOk(t, t.askers[h])
    {
      if h != a {
        AskerStaysOk(s, t, s.askers[h]);
      }
    }
  }

  // ---------------------------------------------------------------- the writers

  lemma WriteKeeps(s: World, t: World)
    requires Inv(s)
    requires (t == s.(schema := t.schema) && (t.schema == Write(s.schema) || exists w :: w in s.schema.pending && t.schema == Move(s.schema, w)))
      || (t == s.(grants := t.grants) && (t.grants == Write(s.grants) || exists w :: w in s.grants.pending && t.grants == Move(s.grants, w)))
    ensures Inv(t)
  {
    forall b | 0 <= b < |t.bases|
      ensures BaseOk(t.schema, t.bases[b])
    {
      BaseStaysOk(s.schema, t.schema, s.bases[b]);
    }
    forall v | 0 <= v < |t.views|
      ensures ViewOk(t.grants, t.bases, t.views[v])
    {
      ViewStaysOk(s, t, s.views[v]);
    }
    AskersStayOk(s, t, |s.askers|);
  }

  lemma ResetKeeps(s: World)
    requires Inv(s)
    ensures Inv(ResetStep(s))
  {
    var t := ResetStep(s);
    if t != s {
      forall b | 0 <= b < |t.bases|
        ensures BaseOk(t.schema, t.bases[b])
      {
        if b < |s.bases| {
          BaseStaysOk(s.schema, t.schema, s.bases[b]);
        }
      }
      forall v | 0 <= v < |t.views|
        ensures ViewOk(t.grants, t.bases, t.views[v])
      {
        ViewStaysOk(s, t, s.views[v]);
      }
      AskersStayOk(s, t, |s.askers|);
    }
  }

  // ---------------------------------------------------------------- the asks

  lemma ReadIsOk(s: World, act: Action)
    requires Inv(s) && (act.ReadSchema? || act.ReadGrants? || act.ReadCaller?) && act.a < |s.askers|
    ensures AskerOk(s, ReadStep(s, act).askers[act.a])
  {
    var x := s.askers[act.a];
    assert AskerOk(s, x);
    if act.ReadCaller? && x.pc.GrantsRead? && x.gated {
      NowReflects(s.grants, x.grantsAt);
    }
  }

  /** A step that changes one ask and nothing else. */
  lemma SetKeeps(s: World, a: nat, x: Asker)
    requires Inv(s) && a < |s.askers| && AskerOk(s, x)
    ensures Inv(Set(s, a, x))
  {
    var t := Set(s, a, x);
    forall h | 0 <= h < |t.askers|
      ensures AskerOk(t, t.askers[h])
    {
      assert AskerOk(s, if h == a then x else s.askers[h]);
    }
  }

  lemma ReadKeeps(s: World, act: Action)
    requires Inv(s) && (act.ReadSchema? || act.ReadGrants? || act.ReadCaller?)
    ensures Inv(ReadStep(s, act))
  {
    if act.a < |s.askers| {
      ReadIsOk(s, act);
      ReadSets(s, act);
      SetKeeps(s, act.a, ReadStep(s, act).askers[act.a]);
    }
  }

  lemma ReadSets(s: World, act: Action)
    requires (act.ReadSchema? || act.ReadGrants? || act.ReadCaller?) && act.a < |s.askers|
    ensures |ReadStep(s, act).askers| == |s.askers| && ReadStep(s, act) == Set(s, act.a, ReadStep(s, act).askers[act.a])
  {
    assert s.askers == s.askers[act.a := s.askers[act.a]];
  }

  lemma TakeBaseKeeps(s: World, a: nat)
    requires Inv(s) && a < |s.askers| && !s.askers[a].gated && s.askers[a].pc.SchemaRead?
    ensures Inv(TakeStep(s, a))
  {
  }

  lemma TakenViewIsOk(s: World, x: Asker)
    requires CellsAreOk(s) && x.schemaAt <= |s.schema.moved| && x.grantsAt <= |s.grants.moved|
    requires TakeView(s.kept, |s.bases|, |s.views|, x.schemaAt, x.grantsAt, x.who).cells.Some?
    ensures var t := TakeView(s.kept, |s.bases|, |s.views|, x.schemaAt, x.grantsAt, x.who);
      var bases := if t.kept.base == |s.bases| then s.bases + [BaseCell(Empty, x.schemaAt)] else s.bases;
      var views := if t.cells.value.1 == |s.views| then s.views + [ViewCell(Empty, t.cells.value.0, x.who, x.grantsAt)]
        else s.views;
      && KeptOk(t.kept, s.schema, s.grants, bases, views)
      && t.cells.value.0 == t.kept.base < |bases| && bases[t.cells.value.0].at == x.schemaAt
      && t.cells.value.1 < |views| && views[t.cells.value.1].who == x.who
      && views[t.cells.value.1].at == x.grantsAt && views[t.cells.value.1].base == t.cells.value.0
  {
  }

  lemma TakeViewGrows(s: World, a: nat)
    requires Inv(s) && a < |s.askers| && s.askers[a].gated && s.askers[a].pc.Keyed?
    ensures Grows(s, TakeStep(s, a)) && OnlyAsker(s, TakeStep(s, a), a)
  {
  }

  lemma TakeViewCells(s: World, a: nat)
    requires Inv(s) && a < |s.askers| && s.askers[a].gated && s.askers[a].pc.Keyed?
    ensures CellsAreOk(TakeStep(s, a))
  {
    var t := TakeStep(s, a);
    var x := s.askers[a];
    assert AskerOk(s, x);
    TakeViewGrows(s, a);
    if TakeView(s.kept, |s.bases|, |s.views|, x.schemaAt, x.grantsAt, x.who).cells.Some? {
      TakenViewIsOk(s, x);
      forall v | 0 <= v < |t.views|
        ensures ViewOk(t.grants, t.bases, t.views[v])
      {
        if v < |s.views| {
          ViewStaysOk(s, t, s.views[v]);
        }
      }
    }
  }

  lemma TakeViewAsker(s: World, a: nat)
    requires Inv(s) && a < |s.askers| && s.askers[a].gated && s.askers[a].pc.Keyed?
    ensures var t := TakeStep(s, a); a < |t.askers| && AskerOk(t, t.askers[a])
  {
    var x := s.askers[a];
    assert AskerOk(s, x);
    if TakeView(s.kept, |s.bases|, |s.views|, x.schemaAt, x.grantsAt, x.who).cells.Some? {
      TakenViewIsOk(s, x);
    }
  }

  lemma TakeViewKeeps(s: World, a: nat)
    requires Inv(s) && a < |s.askers| && s.askers[a].gated && s.askers[a].pc.Keyed?
    ensures Inv(TakeStep(s, a))
  {
    TakeViewGrows(s, a);
    TakeViewCells(s, a);
    TakeViewAsker(s, a);
    AskersStayOk(s, TakeStep(s, a), a);
  }

  lemma BuildKeeps(s: World, a: nat)
    requires Inv(s) && a < |s.askers| && s.askers[a].pc.Holding?
    ensures Inv(BuildStep(s, a))
  {
    var x := s.askers[a];
    assert AskerOk(s, x);
    if x.baseCell.Some? && s.bases[x.baseCell.value].lock.Empty? {
      BuildBegins(s, a);
    } else {
      NowReflects(s.schema, x.schemaAt);
      AskersStayOk(s, BuildStep(s, a), a);
    }
  }

  lemma BuildBegins(s: World, a: nat)
    requires Inv(s) && a < |s.askers| && s.askers[a].pc.Holding? && s.askers[a].baseCell.Some?
    requires s.askers[a].baseCell.value < |s.bases| && s.bases[s.askers[a].baseCell.value].lock.Empty?
    ensures Inv(BuildStep(s, a))
  {
    var t := BuildStep(s, a);
    var x := s.askers[a];
    assert AskerOk(s, x);
    NowReflects(s.schema, s.bases[x.baseCell.value].at);
    ViewsStay(s, t);
    AskersStayOk(s, t, a);
  }

  lemma BuiltKeeps(s: World, a: nat)
    requires Inv(s) && a < |s.askers| && s.askers[a].pc.Describing?
    ensures Inv(BuiltStep(s, a))
  {
    var t := BuiltStep(s, a);
    var x := s.askers[a];
    assert AskerOk(s, x);
    if x.baseCell.Some? {
      assert BaseOk(s.schema, s.bases[x.baseCell.value]);
    }
    ViewsStay(s, t);
    AskersStayOk(s, t, a);
  }

  lemma ViewsStay(s: World, t: World)
    requires CellsAreOk(s) && Grows(s, t) && t.views == s.views
    ensures forall v :: 0 <= v < |t.views| ==> ViewOk(t.grants, t.bases, t.views[v])
  {
  }

  lemma ShapeKeeps(s: World, a: nat)
    requires Inv(s) && a < |s.askers| && s.askers[a].pc.Based?
    ensures Inv(ShapeStep(s, a))
  {
    var x := s.askers[a];
    assert AskerOk(s, x);
    if x.gated && x.viewCell.Some? {
      ShapeWithCell(s, a);
    } else {
      if x.gated {
        NowReflects(s.grants, x.grantsAt);
      }
      AskersStayOk(s, ShapeStep(s, a), a);
    }
  }

  lemma ShapeWithCell(s: World, a: nat)
    requires Inv(s) && a < |s.askers| && s.askers[a].pc.Based? && s.askers[a].gated && s.askers[a].viewCell.Some?
    ensures Inv(ShapeStep(s, a))
  {
    var x := s.askers[a];
    assert AskerOk(s, x);
    var cell := s.views[x.viewCell.value];
    assert ViewOk(s.grants, s.bases, cell);
    if cell.lock.Empty? {
      ShapeInCell(s, a);
    } else if cell.lock.Full? {
      SetKeeps(s, a, x.(pc := Answered, view := cell.lock.value));
    }
  }

  lemma ShapeInCell(s: World, a: nat)
    requires Inv(s) && a < |s.askers| && s.askers[a].pc.Based? && s.askers[a].gated && s.askers[a].viewCell.Some?
    requires s.askers[a].viewCell.value < |s.views| && s.views[s.askers[a].viewCell.value].lock.Empty?
    ensures Inv(ShapeStep(s, a))
  {
    var x := s.askers[a];
    assert AskerOk(s, x);
    NowReflects(s.grants, x.grantsAt);
    ShapeBegins(s, x.viewCell.value, a);
    AskersStayOk(s, ShapeStep(s, a), a);
  }

  lemma ShapeBegins(s: World, v: nat, a: nat)
    requires CellsAreOk(s) && v < |s.views| && s.views[v].lock.Empty? && Reflects(s.grants, s.views[v].at, s.grants.writes)
    requires s.bases[s.views[v].base].lock.Full?
    ensures CellsAreOk(s.(views := s.views[v := s.views[v].(lock := Busy(a, s.grants.writes))]))
  {
  }

  lemma ShapedKeeps(s: World, a: nat)
    requires Inv(s) && a < |s.askers| && s.askers[a].pc.Shaping?
    ensures Inv(ShapedStep(s, a))
  {
    var t := ShapedStep(s, a);
    var x := s.askers[a];
    assert AskerOk(s, x);
    if x.viewCell.Some? {
      assert ViewOk(s.grants, s.bases, s.views[x.viewCell.value]);
    }
    AskersStayOk(s, t, a);
  }

  lemma WorkKeeps(s: World, a: nat)
    requires Inv(s) && a < |s.askers|
    ensures Inv(WorkStep(s, a))
  {
    match s.askers[a].pc
    case Holding => BuildKeeps(s, a);
    case Describing => BuiltKeeps(s, a);
    case Based => ShapeKeeps(s, a);
    case Shaping => ShapedKeeps(s, a);
    case _ =>
  }

  lemma SourceKeeps(s: World, act: Action)
    requires Inv(s) && (act.WriteSchema? || act.MoveSchema? || act.WriteGrants? || act.MoveGrants?)
    ensures Inv(Next(s, act))
  {
    if (act.MoveSchema? ==> act.w in s.schema.pending) && (act.MoveGrants? ==> act.w in s.grants.pending) {
      WriteKeeps(s, Next(s, act));
    }
  }

  lemma TakeKeeps(s: World, a: nat)
    requires Inv(s) && a < |s.askers| && (s.askers[a].pc.Keyed? || (s.askers[a].pc.SchemaRead? && !s.askers[a].gated))
    ensures Inv(TakeStep(s, a))
  {
    if s.askers[a].pc.Keyed? {
      KeyedIsGated(s, a);
      TakeViewKeeps(s, a);
    } else {
      TakeBaseKeeps(s, a);
    }
  }

  lemma AskKeeps(s: World, a: nat, gated: bool)
    requires Inv(s)
    ensures Inv(Next(s, Ask(a, gated)))
  {
    if a < |s.askers| && s.askers[a].pc.Resting? {
      SetKeeps(s, a, RESTING.(pc := Begun, gated := gated, fromSchema := Generation(s.schema), fromGrants := Generation(s.grants)));
    }
  }

  lemma StepKeeps(s: World, act: Action)
    requires Inv(s)
    ensures Inv(Next(s, act))
  {
    match act
    case WriteSchema => SourceKeeps(s, act);
    case MoveSchema(_) => SourceKeeps(s, act);
    case WriteGrants => SourceKeeps(s, act);
    case MoveGrants(_) => SourceKeeps(s, act);
    case Reset => ResetKeeps(s);
    case Ask(a, gated) => AskKeeps(s, a, gated);
    case ReadSchema(_) => ReadKeeps(s, act);
    case ReadGrants(_) => ReadKeeps(s, act);
    case ReadCaller(_, _) => ReadKeeps(s, act);
    case Take(a) =>
      if a < |s.askers| && (s.askers[a].pc.Keyed? || (s.askers[a].pc.SchemaRead? && !s.askers[a].gated)) {
        TakeKeeps(s, a);
      }
    case Work(a) => if a < |s.askers| { WorkKeeps(s, a); }
    case Rest(a) => if a < |s.askers| && s.askers[a].pc.Answered? { SetKeeps(s, a, RESTING); }
  }

  lemma KeyedIsGated(s: World, a: nat)
    requires Inv(s) && a < |s.askers| && s.askers[a].pc.Keyed?
    ensures s.askers[a].gated
  {
  }

  /** The invariant holds in every reachable state. */
  lemma {:induction false} RunKeeps(askers: nat, acts: seq<Action>)
    ensures Inv(Run(askers, acts))
  {
    if acts != [] {
      RunKeeps(askers, acts[..|acts| - 1]);
      StepKeeps(Run(askers, acts[..|acts| - 1]), acts[|acts| - 1]);
    }
  }

  // ---------------------------------------------------------------- the results

  /**
   * Freshness: an answer reflects every write, of what is described and of what is granted, whose
   * move was complete when the ask began; it is decided for the asker's own fingerprint, which
   * reflects those grants too; and the view was shaped over the very description it comes with.
   */
  lemma AnswersAreFresh(askers: nat, acts: seq<Action>, a: nat)
    requires a < |Run(askers, acts).askers| && Run(askers, acts).askers[a].pc.Answered?
    ensures var s := Run(askers, acts); var x := s.askers[a];
      && x.fromSchema <= |s.schema.moved| && x.fromGrants <= |s.grants.moved|
      && (forall i :: 0 <= i < x.fromSchema ==> s.schema.moved[i] < x.base.seen)
      && (x.gated ==>
            x.view.base == x.base && x.view.who == x.who
            && forall i :: 0 <= i < x.fromGrants ==> s.grants.moved[i] < x.view.seen && s.grants.moved[i] < x.whoSeen)
  {
    RunKeeps(askers, acts);
    assert AskerOk(Run(askers, acts), Run(askers, acts).askers[a]);
  }

  /** Each entry is built once: two asks that took one cell have one answer. */
  lemma OneCellOneAnswer(askers: nat, acts: seq<Action>, a: nat, b: nat)
    requires a < |Run(askers, acts).askers| && b < |Run(askers, acts).askers|
    requires var x, y := Run(askers, acts).askers[a], Run(askers, acts).askers[b];
      && x.pc.Answered? && y.pc.Answered? && x.gated && y.gated
      && x.viewCell.Some? && x.viewCell == y.viewCell
    ensures var s := Run(askers, acts);
      s.askers[a].view == s.askers[b].view && s.askers[a].base == s.askers[b].base && s.askers[a].who == s.askers[b].who
  {
    RunKeeps(askers, acts);
    assert AskerOk(Run(askers, acts), Run(askers, acts).askers[a]);
    assert AskerOk(Run(askers, acts), Run(askers, acts).askers[b]);
  }

  /** And asks of one key at one time take one cell: who takes what was just taken finds it kept. */
  lemma TakenAgain(k: Kept, newBase: nat, newView: nat, laterBase: nat, laterView: nat, schemaAt: nat, grantsAt: nat, who: Who)
    ensures var t := TakeView(k, newBase, newView, schemaAt, grantsAt, who);
      t.cells.Some? ==> TakeView(t.kept, laterBase, laterView, schemaAt, grantsAt, who) == t
    ensures var t := TakeBase(k, newBase, schemaAt);
      t.cells.Some? ==> TakeBase(t.kept, laterBase, schemaAt) == t
  {
  }

  /** A reader holding an older generation neither lowers the kept ones nor replaces what is kept. */
  lemma StaleReadersTouchNothing(askers: nat, acts: seq<Action>, a: nat)
    requires a < |Run(askers, acts).askers|
    requires var s := Run(askers, acts); var x := s.askers[a];
      x.schemaAt < s.kept.schemaAt || (x.gated && x.grantsAt < s.kept.grantsAt)
    ensures var s := Run(askers, acts); var t := TakeStep(s, a);
      t.kept == s.kept && t.bases == s.bases && t.views == s.views && t.askers[a].baseCell == None
  {
    RunKeeps(askers, acts);
  }

  /** The kept generations only rise, but for a service changed while it is built. */
  lemma KeptGenerationsRise(s: World, act: Action)
    requires Inv(s) && !act.Reset?
    ensures Next(s, act).kept.schemaAt >= s.kept.schemaAt && Next(s, act).kept.grantsAt >= s.kept.grantsAt
  {
    if act.Take? && act.a < |s.askers| {
      TakeRises(s, act.a);
    }
  }

  lemma TakeRises(s: World, a: nat)
    requires Inv(s) && a < |s.askers|
    ensures TakeStep(s, a).kept.schemaAt >= s.kept.schemaAt && TakeStep(s, a).kept.grantsAt >= s.kept.grantsAt
  {
    assert AskerOk(s, s.askers[a]);
  }

  /** What is kept for a key is that key's, over the description kept beside it; at most VIEWS of them. */
  lemma KeptViewsAreTheirOwn(askers: nat, acts: seq<Action>, who: Who)
    ensures var s := Run(askers, acts); var k := s.kept;
      |k.views| <= VIEWS && k.base < |s.bases| && (who in k.views ==> k.views[who] < |s.views|)
    ensures var s := Run(askers, acts); var k := s.kept;
      who in k.views ==>
        var v := s.views[k.views[who]];
        v.who == who && v.base == k.base && v.at == k.grantsAt
        && (v.lock.Full? ==> v.lock.value.who == who && s.bases[k.base].lock == Full(v.lock.value.base))
  {
    RunKeeps(askers, acts);
    var s := Run(askers, acts);
    if who in s.kept.views {
      assert ViewOk(s.grants, s.bases, s.views[s.kept.views[who]]);
    }
  }
}
