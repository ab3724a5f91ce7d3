/** A connection's open input halves, by subscription: `InputTable` of src/plexus/input.rs. */
module Table {
  import opened Basics
  import opened Ledgers
  import opened Duplex

  /** What became of a frame: it reached the call; a resend or a late one, dropped; refused, the
      call to end with it; or naming no call of this connection. */
  datatype Delivered = Taken | Dropped | RefusedHere | NotThisCall

  /** What arrives of a frame at an attached slot: the mark, the batch, or nothing. */
  function Delivery(open: bool, nextSeq: nat, held: int, window: nat, b: Batch): Option<Arrival> {
    if !open || b.seqno < nextSeq then None
    else if b.seqno > nextSeq then Some(Bad(b.seqno, Sequence(nextSeq)))
    else if b.items == [] then Some(Bad(b.seqno, Empty))
    else if held + |b.items| > window then Some(Bad(b.seqno, PastWindow))
    else Some(Good(b))
  }

  function Outcome(a: Option<Arrival>): Delivered {
    if a.None? then Dropped else if a.value.Good? then Taken else RefusedHere
  }

  class TableSlot {
    const ns: string
    const ledger: Ledger
    var nextSeq: nat
    var open: bool
    var arrivals: seq<Arrival>

    constructor (ns: string, ledger: Ledger)
      ensures this.ns == ns && this.ledger == ledger && nextSeq == 0 && open && arrivals == []
    {
      this.ns, this.ledger, nextSeq, open, arrivals := ns, ledger, 0, true, [];
    }
  }

  const CLOSED_KEPT := 256

  class InputTable {
    const conn: nat
    var slots: map<nat, TableSlot>
    /** The last calls that had a slot here. */
    var gone: seq<nat>

    constructor (conn: nat)
      ensures this.conn == conn && slots == map[] && gone == []
    {
      this.conn, slots, gone := conn, map[], [];
    }

    /** The slot a frame finds: its subscription's, of its namespace when it says one. */
    predicate Finds(sub: nat, ns: Option<string>)
      reads this, set k | k in slots :: slots[k]
    {
      sub in slots && (ns.None? || slots[sub].ns == ns.value)
    }

    function Stray(sub: nat): Delivered
      reads this
    {
      if sub in gone then Dropped else NotThisCall
    }

    /** A frame for `sub`: its seq, that it holds an item and that the window holds it checked, in
        that order; queued, or its mark queued as the last thing the half takes. Only the slot it
        finds, and that slot's ledger, may change. */
    method Arrive(sub: nat, ns: Option<string>, b: Batch) returns (d: Delivered)
      modifies if sub in slots then {slots[sub], slots[sub].ledger} else {}
      ensures !old(Finds(sub, ns)) ==> d == Stray(sub) && (sub in slots ==> unchanged(slots[sub]) && unchanged(slots[sub].ledger))
      ensures sub !in slots || (ns.Some? && slots[sub].ns != ns.value) ==> d == (if sub in gone then Dropped else NotThisCall)
      ensures sub in slots && (ns.None? || slots[sub].ns == ns.value) ==>
                var next, held := old(slots[sub].nextSeq), old(slots[sub].ledger.heldItems);
                var open, was, now := old(slots[sub].open), old(slots[sub].arrivals), slots[sub].arrivals;
                && (!open || b.seqno < next ==> d == Dropped && now == was)
                && (open && b.seqno > next ==> d == RefusedHere && now == was + [Bad(b.seqno, Sequence(next))])
                && (open && b.seqno == next && b.items == [] ==> d == RefusedHere && now == was + [Bad(b.seqno, Empty)])
                && (open && b.seqno == next && b.items != [] && held + |b.items| > slots[sub].ledger.window ==>
                      d == RefusedHere && now == was + [Bad(b.seqno, PastWindow)])
                && (open && b.seqno == next && b.items != [] && held + |b.items| <= slots[sub].ledger.window ==>
                      d == Taken && now == was + [Good(b)]
                      && slots[sub].ledger.heldItems == held + |b.items|
                      && slots[sub].ledger.heldBytes == old(slots[sub].ledger.heldBytes) + b.bytes)
                && (slots[sub].open <==> open && d != RefusedHere)
      ensures old(Finds(sub, ns)) ==>
                var slot := slots[sub];
                var a := old(Delivery(slots[sub].open, slots[sub].nextSeq, slots[sub].ledger.heldItems, slots[sub].ledger.window, b));
                && d == Outcome(a)
                && slot.arrivals == old(slots[sub].arrivals) + (if a.Some? then [a.value] else [])
                && slot.nextSeq == old(slots[sub].nextSeq) + (if old(slots[sub].open) && b.seqno == old(slots[sub].nextSeq) then 1 else 0)
                && slot.open == (old(slots[sub].open) && !d.RefusedHere?)
                && slot.ledger.Value() == (if d.Taken? then AddHeld(old(slots[sub].ledger.Value()), |b.items|, b.bytes) else old(slots[sub].ledger.Value()))
    {
      if sub !in slots || (ns.Some? && slots[sub].ns != ns.value) {
        return Stray(sub);
      }
      var slot := slots[sub];
      if !slot.open || b.seqno < slot.nextSeq {
        return Dropped;
      }
      if b.seqno > slot.nextSeq {
        slot.arrivals := slot.arrivals + [Bad(b.seqno, Sequence(slot.nextSeq))];
        slot.open := false;
        return RefusedHere;
      }
      slot.nextSeq := slot.nextSeq + 1;
      if b.items == [] {
        slot.arrivals := slot.arrivals + [Bad(b.seqno, Empty)];
        slot.open := false;
        return RefusedHere;
      }
      if slot.ledger.heldItems + |b.items| > slot.ledger.window {
        slot.arrivals := slot.arrivals + [Bad(b.seqno, PastWindow)];
        slot.open := false;
        return RefusedHere;
      }
      slot.ledger.Hold(|b.items|, b.bytes);
      slot.arrivals := slot.arrivals + [Good(b)];
      return Taken;
    }

    /** `end`: the half takes no more; one that names another count of frames is a mark. */
    method End(sub: nat, ns: string, n: nat) returns (d: Delivered)
      modifies if sub in slots then {slots[sub], slots[sub].ledger} else {}
      ensures sub !in slots || slots[sub].ns != ns ==> d == (if sub in gone then Dropped else NotThisCall)
      ensures !old(Finds(sub, Some(ns))) ==> d == Stray(sub) && (sub in slots ==> unchanged(slots[sub]) && unchanged(slots[sub].ledger))
      ensures old(Finds(sub, Some(ns))) ==>
                var slot := slots[sub];
                && d == (if !old(slots[sub].open) then Dropped else if n == old(slots[sub].nextSeq) then Taken else RefusedHere)
                && !slot.open && slot.nextSeq == old(slots[sub].nextSeq)
                && slot.arrivals == old(slots[sub].arrivals) + (if d.RefusedHere? then [Bad(n, Sequence(slot.nextSeq))] else [])
                && slot.ledger.Value() == old(slots[sub].ledger.Value()).(ended := old(slots[sub].ledger.ended) || d.Taken?)
    {
      if sub !in slots || slots[sub].ns != ns {
        return Stray(sub);
      }
      var slot := slots[sub];
      if !slot.open {
        return Dropped;
      }
      slot.open := false;
      if n == slot.nextSeq {
        slot.ledger.ended := true;
        return Taken;
      }
      slot.arrivals := slot.arrivals + [Bad(n, Sequence(slot.nextSeq))];
      return RefusedHere;
    }

    method Attach(sub: nat, slot: TableSlot)
      modifies this`slots
      ensures slots == old(slots)[sub := slot]
    {
      slots := slots[sub := slot];
    }

    /** `SlotGuard::drop`: the call is one of the last ones here from now on. */
    method Remove(sub: nat)
      requires |gone| <= CLOSED_KEPT
      modifies this`slots, this`gone
      ensures slots == old(slots) - {sub}
      ensures gone == (if |old(gone)| == CLOSED_KEPT then old(gone)[1..] else old(gone)) + [sub]
      ensures |gone| <= 256 && sub in gone && !Finds(sub, None) && Stray(sub) == Dropped
    {
      slots := slots - {sub};
      if |gone| == CLOSED_KEPT {
        gone := gone[1..];
      }
      gone := gone + [sub];
    }
  }

  // ----- The protocol's reader, uninterrupted, is `Arrive` -----

  /** The reader's steps from a frame taken to the reader idle again. */
  function Uninterrupted(cfg: Config, s: State): State
    decreases match s.slot.reader case Idle => 0 case Checking(_) => 4 case AddingItems(_) => 3 case AddingBytes(_) => 2 case Pushing(_) => 1
  {
    if s.slot.reader.Idle? then s
    else
      var next := TakingStep(cfg, s);
      if next.None? then s else Uninterrupted(cfg, next.value)
  }

  lemma ReaderIsArrive(cfg: Config, s: State, b: Batch)
    requires s.slot.reader.Idle? && s.slot.attached && s.client.up != [] && s.client.up[0] == Data(b)
    ensures PickStep(s).Some?
    ensures var s' := Uninterrupted(cfg, PickStep(s).value);
            var a := Delivery(s.slot.open, s.slot.nextSeq, s.book.heldItems, cfg.window, b);
            && s'.slot.reader.Idle?
            && s'.slot.arrivals == s.slot.arrivals + (if a.Some? then [a.value] else [])
            && s'.slot.accepted == s.slot.accepted + (if Outcome(a).Taken? then [b] else [])
            && s'.slot.nextSeq == s.slot.nextSeq + (if s.slot.open && b.seqno == s.slot.nextSeq then 1 else 0)
            && s'.slot.open == (s.slot.open && !Outcome(a).RefusedHere?)
            && s'.book == (if Outcome(a).Taken? then AddHeld(s.book, |b.items|, b.bytes) else s.book)
  {
    var s1 := PickStep(s).value;
    if s1.slot.reader.Checking? {
      var s2 := TakingStep(cfg, s1).value;
      assert Uninterrupted(cfg, s1) == Uninterrupted(cfg, s2);
      if s2.slot.reader.AddingItems? {
        var s3 := TakingStep(cfg, s2).value;
        var s4 := TakingStep(cfg, s3).value;
        var s5 := TakingStep(cfg, s4).value;
        assert Uninterrupted(cfg, s2) == Uninterrupted(cfg, s3) == Uninterrupted(cfg, s4) == Uninterrupted(cfg, s5);
      }
    }
  }
}
