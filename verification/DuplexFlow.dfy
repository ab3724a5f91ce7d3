/** Credit: what the ledger counts is conserved, and a client that keeps to the credit it was told
    is never refused for it. */
module DuplexFlow {
  import opened Basics
  import opened Ledgers
  import opened Duplex
  import opened DuplexOrder

  // ----- The invariants -----

  /** Items, and bytes, of the frame being taken that the ledger counts already. */
  function ItemsTaking(r: Reader): nat {
    if r.AddingBytes? || r.Pushing? then |r.b.items| else 0
  }

  function BytesTaking(r: Reader): nat {
    if r.Pushing? then r.b.bytes else 0
  }

  /** The ledger's counters are what was taken less what was let go, and within the window. */
  ghost predicate BookInv(window: nat, acc: seq<Batch>, r: Reader, h: Handler, items: int, bytes: int, consumed: int) {
    && h.counted <= h.releasedBytes <= h.released <= |acc|
    && items == Count(acc, |acc|) + ItemsTaking(r) - Count(acc, h.released)
    && bytes == Size(acc, |acc|) + BytesTaking(r) - Size(acc, h.releasedBytes)
    && consumed == Count(acc, h.counted)
    && (h.pc.CheckingWake? ==> h.pc.consumed == consumed)
    && items <= window
    && (r.AddingItems? ==> items + |r.b.items| <= window)
  }

  function Credits(down: seq<Notice>): nat {
    if down == [] then 0 else (if down[0].Credit? then down[0].n else 0) + Credits(down[1..])
  }

  /** All the client has been told it may send, told or on its way. */
  function Told(window: nat, c: Client, pc: Pc): nat {
    c.told + Credits(c.down) + (if pc.SayCredit? then pc.due.credit else 0) + (if pc.Start? then window else 0)
  }

  function Pending(pc: Pc): nat {
    if pc.SayAck? || pc.Grant? then pc.due.credit else 0
  }

  /** What the pipe read of the ledger's flags. */
  predicate FlagsRead(pc: Pc, b: Book) {
    match pc
    case Ended(_, fin) => fin ==> b.finished
    case Holding(_, fin, end) => (fin ==> b.finished) && (end ==> b.ended)
    case Doing(_, fin, end) => (fin ==> b.finished) && (end ==> b.ended)
    case Counting(_, fin, end, _) => (fin ==> b.finished) && (end ==> b.ended)
    case Storing(_, fin, end, _, consumed) => (fin ==> b.finished) && (end ==> b.ended) && b.returned <= consumed <= b.consumed
    case _ => true
  }

  /** Credit granted is the window and what was returned, all of it while the input runs, and it
      is granted before it is told. */
  ghost predicate CreditInv(cfg: Config, c: Client, b: Book, credit: nat, pc: Pc) {
    && b.returned <= b.consumed
    && FlagsRead(pc, b)
    && credit == Min(Told(cfg.window, c, pc), U64_MAX)
    && Told(cfg.window, c, pc) + Pending(pc) <= cfg.window + b.returned
    && (!b.finished && !b.ended ==> Told(cfg.window, c, pc) + Pending(pc) == cfg.window + b.returned)
  }

  /** What is admitted is counted, within the credit granted and both ceilings. */
  ghost predicate CallInv(cfg: Config, acc: seq<Batch>, forwarded: nat, call: Call) {
    && forwarded <= |acc|
    && call.items == Min(Count(acc, forwarded), U64_MAX)
    && call.bytes == Min(Size(acc, forwarded), U64_MAX)
    && call.items <= call.credit && call.items <= cfg.maxItems && call.bytes <= cfg.maxBytes
  }

  /** An obedient client's frames are its log, accepted, in hand and on the way. */
  ghost predicate PlanInv(obedient: bool, told: nat, said: bool, log: seq<Batch>, up: seq<Message>, slot: Slot) {
    obedient ==>
      && Count(log, |log|) <= told
      && (forall i :: 0 <= i < |log| ==> log[i].seqno == i && log[i].items != [])
      && |slot.accepted| + |InHand(slot.reader)| <= |log|
      && (forall i :: 0 <= i < |slot.accepted| ==> log[i] == slot.accepted[i])
      && (!slot.reader.Idle? ==> log[|slot.accepted|] == InHand(slot.reader)[0])
      && (slot.open ==>
          && |log| == slot.nextSeq + |up| - (if said then 1 else 0)
          && (said ==> up != [] && up[|up| - 1] == End(|log|))
          && forall j :: 0 <= j < |log| - slot.nextSeq ==> up[j] == Data(log[slot.nextSeq + j]))
  }

  /** The refusals an obedient client may meet: its grant, its sign-in, a ceiling of the method's. */
  predicate NotItsCredit(why: Refusal) {
    why.Gate? || why.Expired? || why.TooMuchInput?
  }

  ghost predicate MarkInv(obedient: bool, arrivals: seq<Arrival>, f: Option<Arrival>, closed: Option<Refusal>) {
    obedient ==>
      && (forall i :: 0 <= i < |arrivals| ==> arrivals[i].Good?)
      && (f.Some? ==> f.value.Good?)
      && (closed.Some? ==> NotItsCredit(closed.value))
  }

  ghost predicate BookOk(cfg: Config, s: State) {
    BookInv(cfg.window, s.slot.accepted, s.slot.reader, s.handler, s.book.heldItems, s.book.heldBytes, s.book.consumed)
  }

  ghost predicate CreditOk(cfg: Config, s: State) {
    CreditInv(cfg, s.client, s.book, s.call.credit, s.pipe.pc)
  }

  ghost predicate CallOk(cfg: Config, s: State) {
    CallInv(cfg, s.slot.accepted, s.pipe.forwarded, s.call)
  }

  ghost predicate PlanOk(s: State) {
    PlanInv(s.client.obedient, s.client.told, s.client.said, s.client.log, s.client.up, s.slot)
  }

  ghost predicate MarkOk(s: State) {
    MarkInv(s.client.obedient, s.slot.arrivals, AtGate(s.pipe.pc), s.call.closed)
  }

  ghost predicate FlowInv(cfg: Config, s: State) {
    && BookOk(cfg, s)
    && CreditOk(cfg, s)
    && CallOk(cfg, s)
    && PlanOk(s)
    && MarkOk(s)
  }

  // ----- Sums -----

  lemma {:induction false} CreditsPush(down: seq<Notice>, n: Notice)
    ensures Credits(down + [n]) == Credits(down) + if n.Credit? then n.n else 0
  {
    if down == [] {
      assert [n][1..] == [];
    } else {
      CreditsPush(down[1..], n);
      assert (down + [n])[1..] == down[1..] + [n];
    }
  }

  // ----- The room there is for an obedient frame -----

  /** A frame of an obedient client fits the window when the reader looks, whatever half of
      `frame_done` the handler is in and whatever the pipe is about to grant. */
  lemma FitsTheWindow(cfg: Config, s: State, b: Batch)
    requires BookOk(cfg, s)
    requires CreditOk(cfg, s)
    requires PlanOk(s) && s.client.obedient
    requires s.slot.reader == Checking(b)
    ensures s.book.heldItems + |b.items| <= cfg.window
  {
    var acc, log := s.slot.accepted, s.client.log;
    SameSums(acc, log, |acc|);
    SumsGrow(log, |acc| + 1, |log|);
    SumsGrow(acc, s.handler.counted, s.handler.released);
  }

  /** And the credit when the gate weighs it. */
  lemma WithinCredit(cfg: Config, s: State, b: Batch)
    requires CreditOk(cfg, s)
    requires CallOk(cfg, s)
    requires PlanOk(s) && s.client.obedient
    requires s.pipe.forwarded < |s.slot.accepted| && b == s.slot.accepted[s.pipe.forwarded]
    ensures SatAdd(s.call.items, |b.items|) <= s.call.credit
  {
    var acc, log := s.slot.accepted, s.client.log;
    SumsGrow(acc, s.pipe.forwarded + 1, |acc|);
    SameSums(acc, log, |acc|);
    SumsGrow(log, |acc|, |log|);
  }

  /** The batch in hand, counted already, is queued. */
  lemma PushKeepsBook(window: nat, acc: seq<Batch>, r: Reader, h: Handler, items: int, bytes: int, consumed: int)
    requires r.Pushing? && BookInv(window, acc, r, h, items, bytes, consumed)
    ensures BookInv(window, acc + [r.b], Idle, h, items, bytes, consumed)
  {
    SameSums(acc, acc + [r.b], |acc|);
    SameSums(acc, acc + [r.b], h.released);
    SameSums(acc, acc + [r.b], h.releasedBytes);
    SameSums(acc, acc + [r.b], h.counted);
  }

  // ----- Every step keeps them -----

  lemma ClientKeepsCredit(cfg: Config, s: State, s': State, a: Action)
    requires a.Send? || a.SendEnd? || a.Hear?
    requires ClientStep(s, a) == Some(s')
    requires CreditOk(cfg, s)
    ensures CreditOk(cfg, s')
  {
  }

  lemma ClientKeepsPlan(cfg: Config, s: State, s': State, a: Action)
    requires a.Send? || a.SendEnd? || a.Hear?
    requires ClientStep(s, a) == Some(s')
    requires PlanOk(s)
    ensures PlanOk(s')
  {
    if a.Send? {
      SendKeepsPlan(s, s', a);
    }
  }

  lemma SendKeepsPlan(s: State, s': State, a: Action)
    requires a.Send? && ClientStep(s, a) == Some(s') && PlanOk(s)
    ensures PlanOk(s')
  {
    SameSums(s.client.log, s.client.log + [a.b], |s.client.log|);
  }

  lemma PickDataKeepsPlan(s: State, s': State)
    requires s.client.up != [] && s.client.up[0].Data? && PickStep(s) == Some(s') && SlotOk(s) && PlanOk(s)
    ensures PlanOk(s')
  {
  }

  lemma PickEndKeepsPlan(s: State, s': State)
    requires s.client.up != [] && s.client.up[0].End? && PickStep(s) == Some(s') && SlotOk(s) && PlanOk(s)
    ensures PlanOk(s')
  {
  }

  lemma PickKeepsPlan(s: State, s': State)
    requires PickStep(s) == Some(s') && SlotOk(s) && PlanOk(s)
    ensures PlanOk(s')
  {
    if s.client.up[0].Data? {
      PickDataKeepsPlan(s, s');
    } else {
      PickEndKeepsPlan(s, s');
    }
  }

  lemma PickKeepsBook(cfg: Config, s: State, s': State)
    requires PickStep(s) == Some(s') && BookOk(cfg, s) && SlotOk(s) && PlanOk(s) && MarkOk(s)
    ensures BookOk(cfg, s') && MarkOk(s')
  {
  }

  lemma TakingKeepsCall(cfg: Config, s: State, s': State)
    requires TakingStep(cfg, s) == Some(s')
    requires CallOk(cfg, s)
    ensures CallOk(cfg, s')
  {
    if s.slot.reader.Pushing? {
      SameSums(s.slot.accepted, s.slot.accepted + [s.slot.reader.b], s.pipe.forwarded);
    }
  }

  lemma TakingKeepsPlan(cfg: Config, s: State, s': State)
    requires TakingStep(cfg, s) == Some(s')
    requires PlanOk(s)
    ensures PlanOk(s')
  {
  }

  lemma TakingKeepsMark(cfg: Config, s: State, s': State)
    requires TakingStep(cfg, s) == Some(s')
    requires BookOk(cfg, s) && CreditOk(cfg, s) && PlanOk(s) && MarkOk(s)
    ensures MarkOk(s')
  {
    if s.slot.reader.Checking? && s.client.obedient {
      FitsTheWindow(cfg, s, s.slot.reader.b);
    }
  }

  lemma SubItemsKeepsBook(cfg: Config, s: State, s': State)
    requires s.handler.pc.SubbingItems? && DrainStep(s) == Some(s')
    requires HandlerOk(s) && BookOk(cfg, s)
    ensures BookOk(cfg, s')
  {
  }

  lemma SubBytesKeepsBook(cfg: Config, s: State, s': State)
    requires s.handler.pc.SubbingBytes? && DrainStep(s) == Some(s')
    requires HandlerOk(s) && BookOk(cfg, s)
    ensures BookOk(cfg, s')
  {
  }

  lemma TakingKeepsCredit(cfg: Config, s: State, s': State)
    requires TakingStep(cfg, s) == Some(s') && CreditOk(cfg, s)
    ensures CreditOk(cfg, s')
  {
  }

  lemma DrainKeepsBook(cfg: Config, s: State, s': State)
    requires DrainStep(s) == Some(s')
    requires HandlerOk(s) && BookOk(cfg, s)
    ensures BookOk(cfg, s')
  {
    if s.handler.pc.SubbingItems? {
      SubItemsKeepsBook(cfg, s, s');
    } else {
      SubBytesKeepsBook(cfg, s, s');
    }
  }

  lemma ConsumedKeepsBook(cfg: Config, s: State, s': State)
    requires s.handler.pc.AddingConsumed? && CountStep(cfg, s) == Some(s')
    requires HandlerOk(s) && BookOk(cfg, s)
    ensures BookOk(cfg, s')
  {
  }

  lemma CountKeepsBook(cfg: Config, s: State, s': State)
    requires CountStep(cfg, s) == Some(s')
    requires HandlerOk(s) && BookOk(cfg, s)
    ensures BookOk(cfg, s')
  {
    if s.handler.pc.AddingConsumed? {
      ConsumedKeepsBook(cfg, s, s');
    }
  }

  lemma CountKeepsCredit(cfg: Config, s: State, s': State)
    requires CountStep(cfg, s) == Some(s')
    requires CreditOk(cfg, s)
    ensures CreditOk(cfg, s')
  {
  }

  lemma SelectKeepsCredit(cfg: Config, s: State, s': State, a: Action)
    requires AtSelect(a)
    requires SelectStep(s, a) == Some(s') && CreditOk(cfg, s) && MarkOk(s)
    ensures CreditOk(cfg, s') && MarkOk(s')
  {
  }

  lemma SelectKeepsPlan(cfg: Config, s: State, s': State, a: Action)
    requires AtSelect(a)
    requires SelectStep(s, a) == Some(s') && BookOk(cfg, s) && CallOk(cfg, s) && PlanOk(s)
    ensures BookOk(cfg, s') && CallOk(cfg, s') && PlanOk(s')
  {
  }

  lemma GateKeepsCredit(cfg: Config, s: State, s': State, pass: bool)
    requires GateStep(cfg, s, pass) == Some(s')
    requires CreditOk(cfg, s)
    ensures CreditOk(cfg, s')
  {
  }

  lemma AdmitKeepsCall(cfg: Config, s: State, s': State, pass: bool)
    requires s.pipe.pc.Admit? && GateStep(cfg, s, pass) == Some(s')
    requires HeldOk(s) && CallOk(cfg, s)
    ensures CallOk(cfg, s')
  {
  }

  lemma GateKeepsCall(cfg: Config, s: State, s': State, pass: bool)
    requires GateStep(cfg, s, pass) == Some(s')
    requires HeldOk(s) && CallOk(cfg, s)
    ensures CallOk(cfg, s')
  {
    if s.pipe.pc.Admit? {
      AdmitKeepsCall(cfg, s, s', pass);
    }
  }

  lemma GateKeepsMark(cfg: Config, s: State, s': State, pass: bool)
    requires GateStep(cfg, s, pass) == Some(s')
    requires SlotOk(s) && HeldOk(s) && CreditOk(cfg, s) && CallOk(cfg, s) && PlanOk(s) && MarkOk(s)
    ensures MarkOk(s')
  {
    if s.pipe.pc.Admit? && s.client.obedient {
      WithinCredit(cfg, s, s.pipe.pc.a.batch);
    }
  }

  lemma LookKeepsCredit(cfg: Config, s: State, s': State)
    requires LookStep(cfg, s) == Some(s')
    requires CreditOk(cfg, s)
    ensures CreditOk(cfg, s')
  {
  }

  lemma SettleKeepsCall(cfg: Config, s: State, s': State)
    requires SettleStep(s) == Some(s')
    requires CallOk(cfg, s)
    ensures CallOk(cfg, s')
  {
  }

  lemma SettleKeepsPlan(cfg: Config, s: State, s': State)
    requires SettleStep(s) == Some(s') && BookOk(cfg, s) && PlanOk(s) && MarkOk(s)
    ensures BookOk(cfg, s') && PlanOk(s') && MarkOk(s')
  {
  }

  lemma BeginKeepsCredit(cfg: Config, s: State, s': State)
    requires BeginStep(cfg, s) == Some(s') && CreditOk(cfg, s) && PlanOk(s)
    ensures CreditOk(cfg, s') && PlanOk(s')
  {
    CreditsPush(s.client.down, Credit(cfg.window));
  }

  lemma AfterKeepsCredit(cfg: Config, s: State, s': State)
    requires AfterStep(s) == Some(s') && PlanOk(s) && CreditOk(cfg, s)
    ensures PlanOk(s') && CreditOk(cfg, s')
  {
  }

  lemma DropKeepsPlan(cfg: Config, s: State, s': State)
    requires DropStep(cfg, s) == Some(s') && PlanOk(s)
    ensures PlanOk(s')
  {
  }

  lemma DropKeepsCredit(cfg: Config, s: State, s': State)
    requires DropStep(cfg, s) == Some(s') && CreditOk(cfg, s)
    ensures CreditOk(cfg, s')
  {
  }

  lemma StoreKeepsCredit(cfg: Config, s: State, s': State)
    requires s.pipe.pc.Storing? || s.pipe.pc.Grant?
    requires SettleStep(s) == Some(s') && CreditOk(cfg, s)
    ensures CreditOk(cfg, s')
  {
  }

  lemma SayAckKeepsCredit(cfg: Config, s: State, s': State)
    requires s.pipe.pc.SayAck?
    requires SettleStep(s) == Some(s') && CreditOk(cfg, s)
    ensures CreditOk(cfg, s')
  {
    if s.pipe.pc.due.ack.Some? {
      CreditsPush(s.client.down, Ack(s.pipe.pc.due.ack.value));
    }
  }

  lemma SayCreditKeepsCredit(cfg: Config, s: State, s': State)
    requires s.pipe.pc.SayCredit?
    requires SettleStep(s) == Some(s') && CreditOk(cfg, s)
    ensures CreditOk(cfg, s')
  {
    CreditsPush(s.client.down, Credit(s.pipe.pc.due.credit));
  }

  lemma SettleKeepsCredit(cfg: Config, s: State, s': State)
    requires SettleStep(s) == Some(s') && CreditOk(cfg, s)
    ensures CreditOk(cfg, s')
  {
    if s.pipe.pc.Storing? || s.pipe.pc.Grant? {
      StoreKeepsCredit(cfg, s, s');
    } else if s.pipe.pc.SayAck? {
      SayAckKeepsCredit(cfg, s, s');
    } else {
      SayCreditKeepsCredit(cfg, s, s');
    }
  }

  lemma AddKeepsBook(cfg: Config, s: State, s': State)
    requires !s.slot.reader.Pushing?
    requires TakingStep(cfg, s) == Some(s') && BookOk(cfg, s)
    ensures BookOk(cfg, s')
  {
  }

  lemma TakingKeepsBook(cfg: Config, s: State, s': State)
    requires TakingStep(cfg, s) == Some(s') && BookOk(cfg, s)
    ensures BookOk(cfg, s')
  {
    if s.slot.reader.Pushing? {
      PushKeepsBook(cfg.window, s.slot.accepted, s.slot.reader, s.handler, s.book.heldItems, s.book.heldBytes, s.book.consumed);
    } else {
      AddKeepsBook(cfg, s, s');
    }
  }

  lemma ClientKeepsFlow(cfg: Config, s: State, s': State, a: Action)
    requires a.Send? || a.SendEnd? || a.Hear?
    requires ClientStep(s, a) == Some(s') && FlowInv(cfg, s)
    ensures FlowInv(cfg, s')
  {
    ClientKeepsCredit(cfg, s, s', a);
    ClientKeepsPlan(cfg, s, s', a);
  }

  lemma PickKeepsFlow(cfg: Config, s: State, s': State)
    requires PickStep(s) == Some(s') && SlotOk(s) && FlowInv(cfg, s)
    ensures FlowInv(cfg, s')
  {
    PickKeepsPlan(s, s');
    PickKeepsBook(cfg, s, s');
  }

  lemma TakingKeepsFlow(cfg: Config, s: State, s': State)
    requires TakingStep(cfg, s) == Some(s') && FlowInv(cfg, s)
    ensures FlowInv(cfg, s')
  {
    TakingKeepsCall(cfg, s, s');
    TakingKeepsPlan(cfg, s, s');
    TakingKeepsMark(cfg, s, s');
    TakingKeepsBook(cfg, s, s');
    TakingKeepsCredit(cfg, s, s');
  }

  lemma TakeKeepsFlow(cfg: Config, s: State, s': State)
    requires TakeStep(s) == Some(s') && FlowInv(cfg, s)
    ensures FlowInv(cfg, s')
  {
  }

  lemma ItemKeepsFlow(cfg: Config, s: State, s': State)
    requires ItemStep(cfg, s) == Some(s') && FlowInv(cfg, s)
    ensures FlowInv(cfg, s')
  {
  }

  lemma DrainKeepsFlow(cfg: Config, s: State, s': State)
    requires DrainStep(s) == Some(s') && HandlerOk(s) && FlowInv(cfg, s)
    ensures FlowInv(cfg, s')
  {
    DrainKeepsBook(cfg, s, s');
  }

  lemma CountKeepsFlow(cfg: Config, s: State, s': State)
    requires CountStep(cfg, s) == Some(s') && HandlerOk(s) && FlowInv(cfg, s)
    ensures FlowInv(cfg, s')
  {
    CountKeepsBook(cfg, s, s');
    CountKeepsCredit(cfg, s, s');
  }

  lemma LetGoKeepsFlow(cfg: Config, s: State, s': State)
    requires LetGoStep(s) == Some(s') && FlowInv(cfg, s)
    ensures FlowInv(cfg, s')
  {
  }

  lemma SelectKeepsFlow(cfg: Config, s: State, s': State, a: Action)
    requires AtSelect(a)
    requires SelectStep(s, a) == Some(s') && FlowInv(cfg, s)
    ensures FlowInv(cfg, s')
  {
    SelectKeepsCredit(cfg, s, s', a);
    SelectKeepsPlan(cfg, s, s', a);
  }

  lemma GateKeepsFlow(cfg: Config, s: State, s': State, pass: bool)
    requires GateStep(cfg, s, pass) == Some(s') && SlotOk(s) && HeldOk(s) && FlowInv(cfg, s)
    ensures FlowInv(cfg, s')
  {
    GateKeepsCredit(cfg, s, s', pass);
    GateKeepsCall(cfg, s, s', pass);
    GateKeepsMark(cfg, s, s', pass);
  }

  lemma LookKeepsFlow(cfg: Config, s: State, s': State)
    requires LookStep(cfg, s) == Some(s') && FlowInv(cfg, s)
    ensures FlowInv(cfg, s')
  {
    LookKeepsCredit(cfg, s, s');
  }

  lemma SettleKeepsFlow(cfg: Config, s: State, s': State)
    requires SettleStep(s) == Some(s') && FlowInv(cfg, s)
    ensures FlowInv(cfg, s')
  {
    SettleKeepsCall(cfg, s, s');
    SettleKeepsCredit(cfg, s, s');
    SettleKeepsPlan(cfg, s, s');
  }

  lemma BeginKeepsFlow(cfg: Config, s: State, s': State)
    requires BeginStep(cfg, s) == Some(s') && FlowInv(cfg, s)
    ensures FlowInv(cfg, s')
  {
    BeginKeepsCredit(cfg, s, s');
  }

  lemma AfterKeepsFlow(cfg: Config, s: State, s': State)
    requires AfterStep(s) == Some(s') && FlowInv(cfg, s)
    ensures FlowInv(cfg, s')
  {
    AfterKeepsCredit(cfg, s, s');
  }

  lemma DropKeepsFlow(cfg: Config, s: State, s': State)
    requires DropStep(cfg, s) == Some(s') && FlowInv(cfg, s)
    ensures FlowInv(cfg, s')
  {
    DropKeepsPlan(cfg, s, s');
    DropKeepsCredit(cfg, s, s');
  }

  lemma MoveKeepsFlow(cfg: Config, s: State, s': State)
    requires s' == s.(gen := s'.gen) && FlowInv(cfg, s)
    ensures FlowInv(cfg, s')
  {
  }

  lemma PollKeepsFlow(cfg: Config, s: State, s': State)
    requires PollStep(cfg, s) == Some(s') && HandlerOk(s) && FlowInv(cfg, s)
    ensures FlowInv(cfg, s')
  {
    if s.handler.pc.Polling? {
      TakeKeepsFlow(cfg, s, s');
    } else if s.handler.pc.Reading? {
      ItemKeepsFlow(cfg, s, s');
    } else if Draining(s.handler.pc) {
      DrainKeepsFlow(cfg, s, s');
    } else {
      CountKeepsFlow(cfg, s, s');
    }
  }

  lemma PipeKeepsFlow(cfg: Config, s: State, s': State, pass: bool)
    requires PipeStep(cfg, s, pass) == Some(s') && SlotOk(s) && HeldOk(s) && FlowInv(cfg, s)
    ensures FlowInv(cfg, s')
  {
    var pc := s.pipe.pc;
    if pc.Now? || pc.Ask? || pc.Admit? {
      GateKeepsFlow(cfg, s, s', pass);
    } else if pc.Start? || pc.Turned? {
      BeginKeepsFlow(cfg, s, s');
    } else if pc.After? {
      AfterKeepsFlow(cfg, s, s');
    } else if pc.Dropping? || pc.DroppingInbox? {
      DropKeepsFlow(cfg, s, s');
    } else if Looking(pc) {
      LookKeepsFlow(cfg, s, s');
    } else {
      SettleKeepsFlow(cfg, s, s');
    }
  }

  lemma StepKeepsFlow(cfg: Config, s: State, s': State, a: Action)
    requires Next(cfg, s, a) == Some(s') && SlotOk(s) && HeldOk(s) && HandlerOk(s) && FlowInv(cfg, s)
    ensures FlowInv(cfg, s')
  {
    match a
    case Send(_) => ClientKeepsFlow(cfg, s, s', a);
    case SendEnd(_) => ClientKeepsFlow(cfg, s, s', a);
    case Hear => ClientKeepsFlow(cfg, s, s', a);
    case Read => if s.slot.reader.Idle? { PickKeepsFlow(cfg, s, s'); } else { TakingKeepsFlow(cfg, s, s'); }
    case Poll => PollKeepsFlow(cfg, s, s');
    case LetGo => LetGoKeepsFlow(cfg, s, s');
    case Step(pass) => PipeKeepsFlow(cfg, s, s', pass);
    case Move => MoveKeepsFlow(cfg, s, s');
    case _ => SelectKeepsFlow(cfg, s, s', a);
  }

  lemma {:induction false} RunKeepsFlow(cfg: Config, run: seq<Action>, s: State)
    requires Sound(cfg) && Run(cfg, run) == Some(s)
    ensures FlowInv(cfg, s)
  {
    if run != [] {
      var before := Run(cfg, run[..|run| - 1]).value;
      RunKeepsOrder(cfg, run[..|run| - 1], before);
      RunKeepsFlow(cfg, run[..|run| - 1], before);
      StepKeepsFlow(cfg, before, s, run[|run| - 1]);
    }
  }

  // ----- What it says of every run -----

  /** A client whose frames follow one another, each of something, and whose items never exceed
      the credit it has been told, is never refused for it: not on arrival, not at the gate,
      whatever steps of the reader, the handler, the pipe and the writers fall in between. */
  lemma ObedientIsNeverRefused(cfg: Config, run: seq<Action>, s: State)
    requires Sound(cfg) && Run(cfg, run) == Some(s) && s.client.obedient
    ensures forall i :: 0 <= i < |s.slot.arrivals| ==> s.slot.arrivals[i].Good?
    ensures AtGate(s.pipe.pc).Some? ==> AtGate(s.pipe.pc).value.Good?
    ensures s.call.closed.Some? ==> NotItsCredit(s.call.closed.value)
  {
    RunKeepsFlow(cfg, run, s);
  }

  /** What a refusal rests on: a check that failed, or the frame after those admitted, which takes
      the call past the ceiling it names. */
  ghost predicate CauseInv(cfg: Config, acc: seq<Batch>, forwarded: nat, closed: Option<Refusal>, verdicts: seq<Verdict>) {
    match closed
    case Some(Gate) => verdicts != [] && !verdicts[|verdicts| - 1].pass
    case Some(TooMuchInput(bytes, max)) =>
      && forwarded < |acc|
      && max == (if bytes then cfg.maxBytes else cfg.maxItems)
      && (if bytes then Size(acc, forwarded + 1) else Count(acc, forwarded + 1)) > max
    case _ => true
  }

  ghost predicate CauseOk(cfg: Config, s: State) {
    CauseInv(cfg, s.slot.accepted, s.pipe.forwarded, s.call.closed, s.call.verdicts)
  }

  lemma AdmitKeepsCause(cfg: Config, s: State, s': State, pass: bool)
    requires s.pipe.pc.Admit? && GateStep(cfg, s, pass) == Some(s')
    requires HeldOk(s) && CallOk(cfg, s) && CauseOk(cfg, s)
    ensures CauseOk(cfg, s')
  {
  }

  lemma PipeKeepsCause(cfg: Config, s: State, s': State, pass: bool)
    requires PipeStep(cfg, s, pass) == Some(s')
    requires HeldOk(s) && CallOk(cfg, s) && CauseOk(cfg, s)
    ensures CauseOk(cfg, s')
  {
    if s.pipe.pc.Admit? {
      AdmitKeepsCause(cfg, s, s', pass);
    } else if s.call.closed.Some? {
      ClosedPipeAdmitsNothing(cfg, s, pass, s');
    }
  }

  lemma ReadKeepsCause(cfg: Config, s: State, s': State)
    requires ReadStep(cfg, s) == Some(s')
    requires CallOk(cfg, s) && CauseOk(cfg, s)
    ensures CauseOk(cfg, s')
  {
    if s.slot.reader.Pushing? {
      var acc := s.slot.accepted;
      SameSums(acc, acc + [s.slot.reader.b], if s.pipe.forwarded < |acc| then s.pipe.forwarded + 1 else 0);
    }
  }

  lemma StepKeepsCause(cfg: Config, s: State, s': State, a: Action)
    requires Next(cfg, s, a) == Some(s')
    requires HeldOk(s) && CallOk(cfg, s) && CauseOk(cfg, s)
    ensures CauseOk(cfg, s')
  {
    match a
    case Read => ReadKeepsCause(cfg, s, s');
    case Step(pass) => PipeKeepsCause(cfg, s, s', pass);
    case _ =>
  }

  /** A call is ended for too much input only by the frame that takes it past a ceiling of its
      method's, and for its grant only by a check that failed. */
  lemma {:induction false} RefusalHasCause(cfg: Config, run: seq<Action>, s: State)
    requires Sound(cfg) && Run(cfg, run) == Some(s)
    ensures s.call.closed == Some(Gate) ==> s.call.verdicts != [] && !s.call.verdicts[|s.call.verdicts| - 1].pass
    ensures s.call.closed.Some? && s.call.closed.value.TooMuchInput? ==>
              && s.pipe.forwarded < |s.slot.accepted|
              && s.call.closed.value.max == (if s.call.closed.value.bytes then cfg.maxBytes else cfg.maxItems)
              && (s.call.closed.value.bytes ==> Size(s.slot.accepted, s.pipe.forwarded + 1) > cfg.maxBytes)
              && (!s.call.closed.value.bytes ==> Count(s.slot.accepted, s.pipe.forwarded + 1) > cfg.maxItems)
  {
    if run != [] {
      var before := Run(cfg, run[..|run| - 1]).value;
      RunKeepsOrder(cfg, run[..|run| - 1], before);
      RunKeepsFlow(cfg, run[..|run| - 1], before);
      RefusalHasCause(cfg, run[..|run| - 1], before);
      StepKeepsCause(cfg, before, s, run[|run| - 1]);
    }
  }

  lemma AcceptedIsSent(cfg: Config, run: seq<Action>, s: State, k: nat)
    requires Sound(cfg) && Run(cfg, run) == Some(s) && s.client.obedient && k <= |s.slot.accepted|
    ensures Count(s.slot.accepted, k) <= Count(s.client.log, |s.client.log|)
    ensures Size(s.slot.accepted, k) <= Size(s.client.log, |s.client.log|)
  {
    RunKeepsFlow(cfg, run, s);
    SameSums(s.slot.accepted, s.client.log, k);
    SumsGrow(s.client.log, k, |s.client.log|);
  }

  /** So an obedient client that sends no more than the method takes is refused only for its grant
      or its sign-in. */
  lemma WithinCeilings(cfg: Config, run: seq<Action>, s: State)
    requires Sound(cfg) && Run(cfg, run) == Some(s) && s.client.obedient
    requires Count(s.client.log, |s.client.log|) <= cfg.maxItems && Size(s.client.log, |s.client.log|) <= cfg.maxBytes
    ensures s.call.closed.Some? ==> s.call.closed.value.Gate? || s.call.closed.value.Expired?
  {
    ObedientIsNeverRefused(cfg, run, s);
    RefusalHasCause(cfg, run, s);
    if s.pipe.forwarded < |s.slot.accepted| {
      AcceptedIsSent(cfg, run, s, s.pipe.forwarded + 1);
    }
  }

  /** What such a client's handler reads is a prefix of exactly what the client sent. */
  lemma ObedientIsReadAsSent(cfg: Config, run: seq<Action>, s: State)
    requires Sound(cfg) && Run(cfg, run) == Some(s) && s.client.obedient
    ensures s.handler.read <= Join(s.client.log, |s.client.log|)
  {
    RunKeepsFlow(cfg, run, s);
    ReadsInOrder(cfg, run, s);
    var acc, log := s.slot.accepted, s.client.log;
    SameSums(acc, log, |acc|);
    SumsGrow(log, |acc|, |log|);
  }

  /** Conservation, for any client: what is held is what was taken less what was let go, never
      past the window; nothing is granted that was not consumed, nor consumed that was not
      received, nor admitted that was not granted or past a ceiling. */
  lemma LedgerConserves(cfg: Config, run: seq<Action>, s: State)
    requires Sound(cfg) && Run(cfg, run) == Some(s)
    ensures s.handler.released <= s.handler.received <= |s.slot.accepted|
    ensures s.book.heldItems + Count(s.slot.accepted, s.handler.released) == Count(s.slot.accepted, |s.slot.accepted|) + ItemsTaking(s.slot.reader)
    ensures 0 <= s.book.heldItems <= cfg.window
    ensures s.book.returned <= s.book.consumed <= Count(s.slot.accepted, s.handler.received)
    ensures s.call.credit <= cfg.window + s.book.returned
    ensures s.call.items <= s.call.credit && s.call.items <= cfg.maxItems && s.call.bytes <= cfg.maxBytes
  {
    RunKeepsOrder(cfg, run, s);
    RunKeepsFlow(cfg, run, s);
    SumsGrow(s.slot.accepted, s.handler.released, |s.slot.accepted|);
    SumsGrow(s.slot.accepted, s.handler.counted, s.handler.received);
  }

  lemma FrameIsHeld(cfg: Config, s: State)
    requires HandlerOk(s) && BookOk(cfg, s)
    ensures s.handler.pc.SubbingItems? ==> |s.handler.pc.b.items| <= s.book.heldItems
    ensures s.handler.pc.SubbingBytes? ==> s.handler.pc.b.bytes <= s.book.heldBytes
  {
    if InFrame(s.handler.pc) {
      SumsGrow(s.slot.accepted, s.handler.counted + 1, |s.slot.accepted|);
    }
  }

  lemma ReturnedIsConsumed(cfg: Config, s: State)
    requires BookOk(cfg, s) && CreditOk(cfg, s)
    ensures s.handler.pc.CheckingWake? ==> s.book.returned <= s.handler.pc.consumed
    ensures s.pipe.pc.Counting? ==> s.book.returned <= s.book.consumed
    ensures s.pipe.pc.Storing? ==> s.book.returned <= s.pipe.pc.consumed
  {
  }

  /** No counter is taken below zero, in any part of `frame_done` or `owed`. */
  lemma NothingUnderflows(cfg: Config, run: seq<Action>, s: State)
    requires Sound(cfg) && Run(cfg, run) == Some(s)
    ensures s.handler.pc.SubbingItems? ==> |s.handler.pc.b.items| <= s.book.heldItems
    ensures s.handler.pc.SubbingBytes? ==> s.handler.pc.b.bytes <= s.book.heldBytes
    ensures s.handler.pc.CheckingWake? ==> s.book.returned <= s.handler.pc.consumed
    ensures s.pipe.pc.Counting? ==> s.book.returned <= s.book.consumed
    ensures s.pipe.pc.Storing? ==> s.book.returned <= s.pipe.pc.consumed
  {
    RunKeepsOrder(cfg, run, s);
    RunKeepsFlow(cfg, run, s);
    FrameIsHeld(cfg, s);
    ReturnedIsConsumed(cfg, s);
  }

  /** Once a call is closed no frame of it is admitted, whatever is stepped. */
  lemma ClosedAdmitsNothing(cfg: Config, run: seq<Action>, s: State, a: Action, s': State)
    requires Run(cfg, run) == Some(s) && s.call.closed.Some? && Next(cfg, s, a) == Some(s')
    ensures s'.pipe.forwarded == s.pipe.forwarded && s'.call.admissions == s.call.admissions && s'.call.closed.Some?
  {
    RunKeepsOrder(cfg, run, s);
    if a.Step? {
      ClosedPipeAdmitsNothing(cfg, s, a.pass, s');
    }
  }

  lemma ClosedPipeAdmitsNothing(cfg: Config, s: State, pass: bool, s': State)
    requires s.call.closed.Some? && Ending(s.pipe.pc) && PipeStep(cfg, s, pass) == Some(s')
    ensures s'.pipe.forwarded == s.pipe.forwarded && s'.call.admissions == s.call.admissions && s'.call.closed.Some?
  {
  }
}
