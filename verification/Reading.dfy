/** What the handler reads: `WireInput` of src/plexus/input.rs, a poll at a time. */
module Reading {
  import opened Basics
  import opened Ledgers
  import opened Duplex

  datatype Poll = Pending | Ready(item: Item) | EndOfInput

  /** The items of the batches, one after the other. */
  function Items(bs: seq<Batch>): seq<Item> {
    if bs == [] then [] else bs[0].items + Items(bs[1..])
  }

  /** The ledger after the frames `bs`, each consumed whole. */
  function Consumed(b: Book, window: nat, bs: seq<Batch>): Book
    decreases |bs|
  {
    if bs == [] then b
    else Consumed(AfterFrame(b, window, bs[0].seqno, |bs[0].items|, bs[0].bytes), window, bs[1..])
  }

  /** The ledger once a poll has answered: an end is said, and the frame `bad` refused. */
  function AtPoll(b: Book, p: Poll, bad: Option<nat>): Book {
    if p.EndOfInput? then b.(finished := true, wake := true)
    else if bad.Some? then RefuseItem(b, bad.value)
    else b
  }

  /** An input as it is polled: what is admitted to it, the batch in hand and how far it is read,
      and the ledger. */
  datatype Hand = Hand(inbox: seq<Batch>, cur: Option<Batch>, pos: nat, over: bool, refused: bool, book: Book)

  /** The items not read yet. */
  function Left(h: Hand): seq<Item>
    requires h.cur.Some? ==> h.pos <= |h.cur.value.items|
  {
    (if h.cur.Some? then h.cur.value.items[h.pos..] else []) + Items(h.inbox)
  }

  /** The frames not consumed yet. */
  function Frames(h: Hand): seq<Batch> {
    (if h.cur.Some? then [h.cur.value] else []) + h.inbox
  }

  /** One poll, the batch in hand read on. */
  function Polled(window: nat, unreadable: set<Item>, open: bool, h: Hand): (Hand, Poll)
    decreases |h.inbox|, h.cur.Some?
  {
    if h.refused then (h, Pending)
    else if h.over then (h, EndOfInput)
    else if h.cur.Some? then
      var b := h.cur.value;
      if h.pos >= |b.items| then
        Polled(window, unreadable, open, h.(cur := None, pos := 0, book := AfterFrame(h.book, window, b.seqno, |b.items|, b.bytes)))
      else if b.items[h.pos] in unreadable then
        (h.(over := true, refused := true, book := RefuseItem(h.book, b.seqno)), Pending)
      else (h.(pos := h.pos + 1), Ready(b.items[h.pos]))
    else if h.inbox != [] then Polled(window, unreadable, open, h.(cur := Some(h.inbox[0]), pos := 0, inbox := h.inbox[1..]))
    else if open then (h, Pending)
    else (h.(over := true, book := h.book.(finished := true, wake := true)), EndOfInput)
  }

  /** A poll answers the next item of what is left, its frame still in hand; or the end, nothing
      being left and the inbox closed; or nothing, for now or because that item does not decode. */
  lemma {:induction false} PolledReads(window: nat, unreadable: set<Item>, open: bool, h: Hand)
    requires !h.over && !h.refused && (h.cur.Some? ==> h.pos <= |h.cur.value.items|)
    ensures var (h', p) := Polled(window, unreadable, open, h);
            && (h'.cur.Some? ==> h'.pos <= |h'.cur.value.items|)
            && (h'.refused ==> h'.over && h'.cur.Some?)
            && (p.Ready? ==> Left(h) == [p.item] + Left(h') && p.item !in unreadable && !h'.over)
            && (p.EndOfInput? ==> Left(h) == [] && !open && h'.over && !h'.refused)
            && (p.Pending? && !h'.refused ==> Left(h) == [] && Left(h') == [] && open && !h'.over)
            && (p.Pending? && h'.refused ==> Left(h) != [] && Left(h)[0] in unreadable)
            && (p.Ready? ==> h'.cur.Some? && 0 < h'.pos && h'.cur.value.items[h'.pos - 1] == p.item)
            && (p.EndOfInput? || (p.Pending? && !h'.refused) ==> Frames(h') == [])
    decreases |h.inbox|, h.cur.Some?
  {
    if h.cur.Some? {
      var b := h.cur.value;
      if h.pos >= |b.items| {
        PolledReads(window, unreadable, open, h.(cur := None, pos := 0, book := AfterFrame(h.book, window, b.seqno, |b.items|, b.bytes)));
      } else {
        assert b.items[h.pos..] == [b.items[h.pos]] + b.items[h.pos + 1..];
      }
    } else if h.inbox != [] {
      PolledReads(window, unreadable, open, h.(cur := Some(h.inbox[0]), pos := 0, inbox := h.inbox[1..]));
    }
  }

  /** Before it, every frame read through is consumed, once and in order; and the end, or the frame
      refused, is said to the ledger. */
  lemma {:induction false} PolledConsumes(window: nat, unreadable: set<Item>, open: bool, h: Hand) returns (past: seq<Batch>)
    requires !h.over && !h.refused
    ensures var (h', p) := Polled(window, unreadable, open, h);
            && (h'.refused ==> h'.over && h'.cur.Some?)
            && Frames(h) == past + Frames(h')
            && h'.book == AtPoll(Consumed(h.book, window, past), p, if h'.refused then Some(h'.cur.value.seqno) else None)
    decreases |h.inbox|, h.cur.Some?
  {
    past := [];
    if h.cur.Some? {
      var b := h.cur.value;
      if h.pos >= |b.items| {
        var h1 := h.(cur := None, pos := 0, book := AfterFrame(h.book, window, b.seqno, |b.items|, b.bytes));
        var rest := PolledConsumes(window, unreadable, open, h1);
        past := [b] + rest;
        assert Frames(h1) == h.inbox && past + Frames(Polled(window, unreadable, open, h1).0) == [b] + h.inbox;
      }
    } else if h.inbox != [] {
      assert [h.inbox[0]] + h.inbox[1..] == h.inbox;
      past := PolledConsumes(window, unreadable, open, h.(cur := Some(h.inbox[0]), pos := 0, inbox := h.inbox[1..]));
    }
  }

  class WireInput {
    const ledger: Ledger
    const unreadable: set<Item>
    /** What the pipe admitted, and whether it may admit more. */
    var inbox: seq<Batch>
    var inboxOpen: bool
    var cur: Option<Batch>
    var pos: nat
    var over: bool
    var refused: bool

    ghost predicate Valid()
      reads this
    {
      (cur.Some? ==> pos <= |cur.value.items|) && (refused ==> over && cur.Some?)
    }

    function Value(): (h: Hand)
      requires Valid()
      reads this, ledger
      ensures h.cur.Some? ==> h.pos <= |h.cur.value.items|
    {
      Hand(inbox, cur, if cur.Some? then pos else 0, over, refused, ledger.Value())
    }

    constructor (ledger: Ledger, unreadable: set<Item>)
      ensures Valid() && this.ledger == ledger && this.unreadable == unreadable
      ensures Value() == Hand([], None, 0, false, false, ledger.Value()) && inboxOpen
    {
      this.ledger, this.unreadable, inbox, inboxOpen := ledger, unreadable, [], true;
      cur, pos, over, refused := None, 0, false, false;
    }

    /** `Items::next` of the batch in hand, decoded: nothing once it is read through. */
    method NextItem() returns (p: Option<Poll>)
      requires Valid() && cur.Some? && !over
      modifies this`pos, this`over, this`refused, ledger
      ensures Valid() && (p.None? ==> !over && pos == |cur.value.items|)
      ensures p.None? ==> Value() == old(Value())
      ensures p.Some? ==> (Value(), p.value) == old(Polled(ledger.window, unreadable, inboxOpen, Value()))
    {
      if pos >= |cur.value.items| {
        return None;
      }
      if cur.value.items[pos] in unreadable {
        over, refused := true, true;
        ledger.Refuse(cur.value.seqno);
        return Some(Pending);
      }
      pos := pos + 1;
      return Some(Ready(cur.value.items[pos - 1]));
    }

    /** One poll. It answers the next item of what is left, in order, and before it the ledger has
        every frame polled past. It ends only over a closed inbox with nothing left, and after an
        item that does not decode it neither ends nor yields again. */
    method PollItem() returns (p: Poll, ghost past: seq<Batch>)
      requires Valid()
      modifies this, ledger
      ensures Valid() && inboxOpen == old(inboxOpen)
      ensures (Value(), p) == old(Polled(ledger.window, unreadable, inboxOpen, Value()))
      ensures old(refused) ==> p == Pending && Value() == old(Value())
      ensures !old(refused) && old(over) ==> p == EndOfInput && Value() == old(Value())
      ensures old(Frames(Value())) == past + Frames(Value())
      ensures !old(over) ==>
                ledger.Value() == AtPoll(Consumed(old(ledger.Value()), ledger.window, past), p, if refused then Some(cur.value.seqno) else None)
      ensures !old(over) && p.Ready? ==> old(Left(Value())) == [p.item] + Left(Value()) && p.item !in unreadable && !over
      ensures !old(over) && p.EndOfInput? ==> old(Left(Value())) == [] && !inboxOpen && over && !refused
      ensures !old(over) && p.Pending? && !refused ==> old(Left(Value())) == [] && Left(Value()) == [] && inboxOpen && !over
      ensures !old(over) && p.Pending? && refused ==> old(Left(Value())) != [] && old(Left(Value()))[0] in unreadable
      ensures !old(over) && p.Ready? ==> cur.Some? && 0 < pos && cur.value.items[pos - 1] == p.item
      ensures !old(over) && (p.EndOfInput? || (p.Pending? && !refused)) ==> cur.None? && inbox == []
    {
      past := [];
      if refused {
        return Pending, [];
      }
      if over {
        return EndOfInput, [];
      }
      PolledReads(ledger.window, unreadable, inboxOpen, Value());
      past := PolledConsumes(ledger.window, unreadable, inboxOpen, Value());
      p := ReadOn();
    }

    /** The loop of a poll: frames polled past are done, until there is an item, an end, or nothing. */
    method ReadOn() returns (p: Poll)
      requires Valid() && !over
      modifies this, ledger
      ensures Valid() && inboxOpen == old(inboxOpen)
      ensures (Value(), p) == old(Polled(ledger.window, unreadable, inboxOpen, Value()))
    {
      while true
        invariant Valid() && !over && inboxOpen == old(inboxOpen)
        invariant Polled(ledger.window, unreadable, inboxOpen, Value()) == old(Polled(ledger.window, unreadable, inboxOpen, Value()))
        decreases |inbox|, cur.Some?
      {
        if cur.Some? {
          var next := NextItem();
          if next.Some? {
            return next.value;
          }
          ledger.FrameDone(cur.value.seqno, |cur.value.items|, cur.value.bytes);
          cur := None;
        }
        if inbox != [] {
          cur, pos, inbox := Some(inbox[0]), 0, inbox[1..];
        } else if !inboxOpen {
          over := true;
          ledger.InputFinished();
          return EndOfInput;
        } else {
          return Pending;
        }
      }
    }

    /** The handler lets go of its input: abandoned, unless it is over. */
    method Drop()
      modifies ledger
      ensures ledger.Value() == (if over then old(ledger.Value()) else old(ledger.Value()).(abandoned := true, wake := true))
    {
      if !over {
        ledger.Abandon();
      }
    }
  }

  /** A poll's `frame_done`, nothing in between, is the protocol's steps of it one after another. */
  lemma FrameDoneIsItsSteps(cfg: Config, s: State, b: Batch)
    requires s.handler.pc == SubbingItems(b)
    ensures var s1 := DrainStep(s);
            && s1.Some? && DrainStep(s1.value).Some?
            && var s2 := DrainStep(s1.value).value;
            && CountStep(cfg, s2).Some? && CountStep(cfg, CountStep(cfg, s2).value).Some?
            && var s4 := CountStep(cfg, CountStep(cfg, s2).value).value;
            && CountStep(cfg, s4) == Some(AtFrameEnd(cfg, s, b))
  {
  }

  /** The protocol's handler once it has consumed frame `b`. */
  function AtFrameEnd(cfg: Config, s: State, b: Batch): State {
    var h := s.handler;
    s.(handler := h.(pc := Polling, released := h.released + 1, releasedBytes := h.releasedBytes + 1, counted := h.counted + 1),
       book := AfterFrame(s.book, cfg.window, b.seqno, |b.items|, b.bytes))
  }

  /** Steps to the end of a `frame_done`. */
  function FrameSteps(pc: HandlerPc): nat {
    match pc
    case Reading(_, _) => 6
    case SubbingItems(_) => 5
    case SubbingBytes(_) => 4
    case StoringDone(_) => 3
    case AddingConsumed(_) => 2
    case CheckingWake(_, _) => 1
    case _ => 0
  }

  lemma StepsOn(cfg: Config, s: State)
    requires PollStep(cfg, s).Some?
    ensures var s' := PollStep(cfg, s).value;
            if s.handler.pc.Polling? then s'.handler.pc.AtEnd? || (s'.handler.pc.Reading? && |s'.pipe.inbox| < |s.pipe.inbox|)
            else
              && s'.pipe == s.pipe
              && if s.handler.pc.Reading? && s'.handler.pc.Reading? then s.handler.pc.pos < |s.handler.pc.b.items|
                 else FrameSteps(s'.handler.pc) < FrameSteps(s.handler.pc)
  {
  }

  /** The protocol's steps of one poll, nothing in between, and what they answer. */
  function PollRun(cfg: Config, s: State): (State, Poll)
    decreases |s.pipe.inbox|, FrameSteps(s.handler.pc)
  {
    var h := s.handler.pc;
    if h.AtEnd? then (s, EndOfInput)
    else
      var r := PollStep(cfg, s);
      if r.None? then (s, Pending)
      else
        StepsOn(cfg, s);
        var s' := r.value;
        if s'.handler.pc.AtEnd? then (s', EndOfInput)
        else if h.Reading? && s'.handler.pc.Reading? then (s', Ready(h.b.items[h.pos]))
        else PollRun(cfg, s')
  }

  function HandOf(s: State): Hand {
    var h := s.handler.pc;
    Hand(s.pipe.inbox, if h.Reading? || h.Spoiled? then Some(h.b) else None, if h.Reading? || h.Spoiled? then h.pos else 0, h.AtEnd? || h.Spoiled?, h.Spoiled?, s.book)
  }

  lemma RunsFrame(cfg: Config, s: State, b: Batch)
    requires s.handler.pc == SubbingItems(b)
    ensures PollRun(cfg, s) == PollRun(cfg, AtFrameEnd(cfg, s, b))
  {
    FrameDoneIsItsSteps(cfg, s, b);
    var s1 := DrainStep(s).value;
    var s2 := DrainStep(s1).value;
    var s3 := CountStep(cfg, s2).value;
    var s4 := CountStep(cfg, s3).value;
    assert PollRun(cfg, s) == PollRun(cfg, s1) == PollRun(cfg, s2);
    assert PollRun(cfg, s2) == PollRun(cfg, s3) == PollRun(cfg, s4);
  }

  /** A poll of the protocol's handler, its steps run with nothing between, leaves the input and
      the ledger as `WireInput::poll_item` does and answers the same; what it answers is read. */
  lemma {:induction false} PollIsItsSteps(cfg: Config, s: State)
    requires !Stops(cfg, s.handler)
    requires s.handler.pc.Polling? || s.handler.pc.Reading? || s.handler.pc.AtEnd? || s.handler.pc.Spoiled?
    ensures var (s', p) := PollRun(cfg, s);
            && (HandOf(s'), p) == Polled(cfg.window, cfg.unreadable, s.pipe.inboxOpen, HandOf(s))
            && s'.handler.read == s.handler.read + (if p.Ready? then [p.item] else [])
            && (p.EndOfInput? ==> s'.handler.sawEnd || s.handler.pc.AtEnd?)
    decreases |s.pipe.inbox|, s.handler.pc.Reading?
  {
    var h := s.handler.pc;
    if h.Polling? && s.pipe.inbox != [] {
      PollIsItsSteps(cfg, TakeStep(s).value);
    } else if h.Reading? && h.pos >= |h.b.items| {
      var s1 := ItemStep(cfg, s).value;
      RunsFrame(cfg, s1, h.b);
      PollIsItsSteps(cfg, AtFrameEnd(cfg, s1, h.b));
    }
  }

  function At(s: State, pc: Pc): State {
    s.(pipe := s.pipe.(pc := pc))
  }

  /** `owed` is a few looks and one write: done uninterrupted they answer what `OwedNow` does. */
  lemma OwedIsItsSteps(cfg: Config, s: State, t: Turn)
    requires s.pipe.pc == Finished(t) && s.book.returned <= s.book.consumed
    ensures var owed := OwedNow(s.book, cfg.window, cfg.maxBuffered, s.pipe.acked);
            var fin, end, done := s.book.finished, s.book.ended, s.book.done;
            var held := HeldBack(s.book, cfg.maxBuffered, fin, end);
            var soon := TooSoon(cfg.window, s.pipe.acked, fin, done, s.book.consumed - s.book.returned);
            && (owed.None? <==> held || soon)
            && (owed.Some? ==>
                  SettleStep(At(s, Storing(t, fin, end, done, s.book.consumed)))
                  == Some(At(s.(book := s.book.(returned := s.book.consumed)), SayAck(t, owed.value))))
  {
  }
}
