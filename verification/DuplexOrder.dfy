/** Exactly once, in order: what the handler reads, what is acknowledged, and when it sees an end. */
module DuplexOrder {
  import opened Basics
  import opened Ledgers
  import opened Duplex

  // ----- Sums over the first batches -----

  lemma {:induction false} SameSums(a: seq<Batch>, b: seq<Batch>, k: nat)
    requires k <= |a| && k <= |b| && forall i :: 0 <= i < k ==> a[i] == b[i]
    ensures Count(a, k) == Count(b, k) && Size(a, k) == Size(b, k) && Join(a, k) == Join(b, k)
  {
    if k > 0 {
      SameSums(a, b, k - 1);
    }
  }

  lemma {:induction false} SumsGrow(bs: seq<Batch>, i: nat, j: nat)
    requires i <= j <= |bs|
    ensures Count(bs, i) <= Count(bs, j) && Size(bs, i) <= Size(bs, j) && Join(bs, i) <= Join(bs, j)
  {
    if i < j {
      SumsGrow(bs, i, j - 1);
    }
  }

  // ----- The invariant -----

  function InHand(r: Reader): seq<Batch> {
    match r
    case Idle => []
    case Checking(b) => [b]
    case AddingItems(b) => [b]
    case AddingBytes(b) => [b]
    case Pushing(b) => [b]
  }

  /** The reader's side: what is queued is numbered from 0, and a closed half queues no more. */
  ghost predicate SlotInv(slot: Slot, ended: bool) {
    && (forall i :: 0 <= i < |slot.accepted| ==> slot.accepted[i].seqno == i && slot.accepted[i].items != [])
    && (slot.open ==> slot.attached && slot.nextSeq == |slot.accepted| + |InHand(slot.reader)|)
    && (!slot.reader.Idle? ==> slot.open && InHand(slot.reader)[0].seqno == |slot.accepted| && InHand(slot.reader)[0].items != [])
    && (slot.endedAt.Some? ==> slot.endedAt.value == |slot.accepted| && !slot.open)
    && (ended <==> slot.endedAt.Some?)
  }

  /** The frame the gate holds. */
  function AtGate(pc: Pc): Option<Arrival> {
    match pc
    case Now(f, _) => f
    case Ask(f, _, _, _) => f
    case Admit(a, _) => Some(a)
    case _ => None
  }

  /** The pipe is on its way to end the call. */
  predicate Ending(pc: Pc) {
    (TurnOf(pc).Some? && TurnOf(pc).value.Refused?) || pc.Dropping? || pc.DroppingInbox? || pc.Over?
  }

  /** The queues are slices of what was accepted, a refused frame's mark at most after them. */
  ghost predicate QueueInv(acc: seq<Batch>, open: bool, q: seq<Arrival>, inbox: seq<Batch>, taken: nat, forwarded: nat, received: nat) {
    && received <= forwarded <= taken <= |acc|
    && |acc| - taken <= |q| <= |acc| - taken + 1
    && (forall i :: 0 <= i < |acc| - taken ==> q[i] == Good(acc[taken + i]))
    && (|q| > |acc| - taken ==> q[|q| - 1].Bad? && !open)
    && |inbox| == forwarded - received
    && (forall i :: 0 <= i < |inbox| ==> inbox[i] == acc[received + i])
  }

  /** The frame at the gate is the next one, or a mark with nothing behind it. */
  ghost predicate HeldInv(acc: seq<Batch>, open: bool, q: seq<Arrival>, taken: nat, forwarded: nat, f: Option<Arrival>, ending: bool, closed: bool) {
    && (closed ==> ending)
    && (f.Some? && f.value.Good? ==> forwarded < |acc| && taken == forwarded + 1 && f.value.batch == acc[forwarded])
    && (f.Some? && f.value.Bad? ==> |q| == |acc| - taken && !open)
    && (!closed && !(f.Some? && f.value.Good?) ==> taken == forwarded)
  }

  /** Where the handler is in what it received: how far each of its counters lags behind. */
  ghost predicate HandlerInv(acc: seq<Batch>, h: Handler, done: nat) {
    var pc := h.pc;
    && h.counted <= h.received <= |acc|
    && Join(acc, h.counted) <= h.read <= Join(acc, h.received)
    && (pc.Spoiled? || pc.Gone? ==> done == h.counted == h.released == h.releasedBytes)
    && (!pc.Spoiled? && !pc.Gone? ==>
        && h.released == h.received - (if pc.Reading? || pc.SubbingItems? then 1 else 0)
        && h.releasedBytes == h.received - (if pc.Reading? || pc.SubbingItems? || pc.SubbingBytes? then 1 else 0)
        && done == h.received - (if InFrame(pc) && !pc.AddingConsumed? then 1 else 0)
        && h.counted == h.received - (if InFrame(pc) then 1 else 0)
        && (InFrame(pc) ==> pc.b == acc[h.counted] && pc.b.seqno == h.counted)
        && (pc.Reading? ==> pc.pos <= |pc.b.items| && h.read == Join(acc, h.counted) + pc.b.items[..pc.pos])
        && (!pc.Reading? ==> h.read == Join(acc, h.received)))
  }

  /** A frame is in the handler's hands, not counted yet. */
  predicate InFrame(pc: HandlerPc) {
    pc.Reading? || pc.SubbingItems? || pc.SubbingBytes? || pc.StoringDone? || pc.AddingConsumed?
  }

  /** The mark of a refused frame is queued, at the gate, or has closed the call. */
  predicate MarkPending(s: State) {
    || (s.slot.arrivals != [] && s.slot.arrivals[|s.slot.arrivals| - 1].Bad?)
    || (AtGate(s.pipe.pc).Some? && AtGate(s.pipe.pc).value.Bad?)
    || s.call.closed.Some?
  }

  /** A closed half says why: it ended, a mark is on its way, or its slot is gone. */
  predicate HalfInv(s: State) {
    && (!s.slot.attached ==> !s.slot.open)
    && (!s.slot.open && s.slot.attached ==> s.book.ended || MarkPending(s))
  }

  /** The handler's input lives and is polled no longer than its stream, up to the stream's
      `done` or error. */
  predicate Owns(cfg: Config) {
    !cfg.detached && !cfg.readsOn
  }

  /** An end is seen once the inbox is closed and drained; and the inbox of a handler still polled
      is closed once the client's `end` is reached, and then only. */
  ghost predicate EndInv(cfg: Config, s: State) {
    var p, h := s.pipe, s.handler;
    && (h.sawEnd ==> h.pc.AtEnd? || h.pc.Gone?)
    && (h.pc.AtEnd? ==> !p.inboxOpen && h.received == p.forwarded)
    && (p.pc.DroppingInbox? || p.pc.Over? ==> cfg.detached || h.pc.Gone?)
    && (!p.inboxOpen && !cfg.detached && !h.said && !h.pc.Gone? ==> p.forwarded == |s.slot.accepted| && s.book.ended)
    && (h.sawEnd && Owns(cfg) ==> s.book.ended && h.received == |s.slot.accepted| && h.read == Join(s.slot.accepted, |s.slot.accepted|))
    && (AtGate(p.pc).Some? || p.pc.Now? || p.pc.Ask? || p.pc.Start? ==> p.inboxOpen)
    && (!s.slot.attached && !cfg.detached ==> !p.inboxOpen || Ending(p.pc))
    && (s.book.abandoned && !cfg.detached ==> h.pc.Gone?)
    && (TurnOf(p.pc) == Some(SaidDone) ==> h.said)
  }

  /** What is acknowledged, and what the pipe is about to acknowledge. */
  ghost predicate AckInv(p: Pipe, done: nat) {
    && p.acked <= done
    && (forall i :: 0 <= i < |p.acks| ==> p.acks[i] < p.acked)
    && (forall i, j :: 0 <= i < j < |p.acks| ==> p.acks[i] < p.acks[j])
    && match p.pc
       case Counting(_, _, _, seen) => p.acked <= seen <= done
       case Storing(_, _, _, seen, _) => p.acked <= seen <= done
       case SayAck(_, due) =>
         && p.acked <= due.done <= done
         && (due.ack.Some? ==> due.done > p.acked && due.ack.value == due.done - 1)
       case _ => true
  }

  ghost predicate SlotOk(s: State) {
    SlotInv(s.slot, s.book.ended)
  }

  ghost predicate QueueOk(s: State) {
    QueueInv(s.slot.accepted, s.slot.open, s.slot.arrivals, s.pipe.inbox, s.pipe.taken, s.pipe.forwarded, s.handler.received)
  }

  ghost predicate HeldOk(s: State) {
    HeldInv(s.slot.accepted, s.slot.open, s.slot.arrivals, s.pipe.taken, s.pipe.forwarded, AtGate(s.pipe.pc), Ending(s.pipe.pc), s.call.closed.Some?)
  }

  ghost predicate HandlerOk(s: State) {
    HandlerInv(s.slot.accepted, s.handler, s.book.done)
  }

  ghost predicate AckOk(s: State) {
    AckInv(s.pipe, s.book.done)
  }

  ghost predicate OrderInv(cfg: Config, s: State) {
    && SlotOk(s)
    && QueueOk(s)
    && HeldOk(s)
    && HandlerOk(s)
    && HalfInv(s)
    && EndInv(cfg, s)
    && AckOk(s)
  }

  // ----- Every step keeps it -----

  /** What the handler does to itself and to its counters is outside the queues. */
  lemma HandlerKeepsQueues(s: State, s': State)
    requires s'.slot == s.slot && s'.pipe == s.pipe && s'.call == s.call
    requires s'.handler.received == s.handler.received && s'.book.ended == s.book.ended
    requires SlotOk(s) && QueueOk(s) && HeldOk(s) && HalfInv(s)
    ensures SlotOk(s') && QueueOk(s') && HeldOk(s') && HalfInv(s')
  {
  }

  lemma PickKeepsSlot(cfg: Config, s: State, s': State)
    requires PickStep(s) == Some(s') && SlotOk(s)
    ensures SlotOk(s')
  {
  }

  lemma PickKeepsQueue(cfg: Config, s: State, s': State)
    requires PickStep(s) == Some(s') && SlotOk(s) && QueueOk(s)
    ensures QueueOk(s')
  {
  }

  lemma PickKeepsHalf(cfg: Config, s: State, s': State)
    requires PickStep(s) == Some(s') && SlotOk(s) && HeldOk(s) && HalfInv(s) && EndInv(cfg, s)
    ensures HeldOk(s') && HalfInv(s') && EndInv(cfg, s')
  {
  }

  lemma TakingKeepsQueues(cfg: Config, s: State, s': State)
    requires TakingStep(cfg, s) == Some(s') && SlotOk(s) && QueueOk(s)
    ensures SlotOk(s') && QueueOk(s')
  {
  }

  lemma TakingKeepsHeld(cfg: Config, s: State, s': State)
    requires TakingStep(cfg, s) == Some(s') && SlotOk(s) && HeldOk(s)
    ensures HeldOk(s')
  {
  }

  lemma TakingKeepsHandler(cfg: Config, s: State, s': State)
    requires TakingStep(cfg, s) == Some(s') && HandlerOk(s)
    ensures HandlerOk(s')
  {
    if s.slot.reader.Pushing? {
      var acc, b := s.slot.accepted, s.slot.reader.b;
      SameSums(acc, acc + [b], s.handler.received);
      SameSums(acc, acc + [b], s.handler.counted);
    }
  }

  lemma TakingKeepsEnd(cfg: Config, s: State, s': State)
    requires TakingStep(cfg, s) == Some(s') && SlotOk(s) && HalfInv(s) && EndInv(cfg, s)
    ensures HalfInv(s') && EndInv(cfg, s')
  {
  }

  lemma StoreKeepsHandler(cfg: Config, s: State, s': State)
    requires s.handler.pc.StoringDone? && CountStep(cfg, s) == Some(s') && HandlerOk(s)
    ensures HandlerOk(s')
  {
  }

  lemma AddKeepsHandler(cfg: Config, s: State, s': State)
    requires s.handler.pc.AddingConsumed? && CountStep(cfg, s) == Some(s') && HandlerOk(s)
    ensures HandlerOk(s')
  {
  }

  lemma CheckKeepsHandler(cfg: Config, s: State, s': State)
    requires s.handler.pc.CheckingWake? && CountStep(cfg, s) == Some(s') && HandlerOk(s)
    ensures HandlerOk(s')
  {
  }

  lemma CountKeepsHandler(cfg: Config, s: State, s': State)
    requires CountStep(cfg, s) == Some(s') && HandlerOk(s)
    ensures HandlerOk(s')
  {
    if s.handler.pc.StoringDone? {
      StoreKeepsHandler(cfg, s, s');
    } else if s.handler.pc.AddingConsumed? {
      AddKeepsHandler(cfg, s, s');
    } else {
      CheckKeepsHandler(cfg, s, s');
    }
  }

  lemma CountKeepsAck(cfg: Config, s: State, s': State)
    requires CountStep(cfg, s) == Some(s') && HandlerOk(s) && AckOk(s)
    ensures AckOk(s')
  {
  }

  lemma CountKeepsEnd(cfg: Config, s: State, s': State)
    requires CountStep(cfg, s) == Some(s') && EndInv(cfg, s)
    ensures EndInv(cfg, s')
  {
  }

  lemma SelectKeepsQueue(cfg: Config, s: State, s': State, a: Action)
    requires AtSelect(a)
    requires SelectStep(s, a) == Some(s') && QueueOk(s)
    ensures QueueOk(s')
  {
  }

  lemma SelectKeepsHeld(cfg: Config, s: State, s': State, a: Action)
    requires AtSelect(a)
    requires SelectStep(s, a) == Some(s') && QueueOk(s) && HeldOk(s)
    ensures HeldOk(s')
  {
  }

  lemma SelectKeepsHalf(cfg: Config, s: State, s': State, a: Action)
    requires AtSelect(a)
    requires SelectStep(s, a) == Some(s') && QueueOk(s) && HeldOk(s) && HalfInv(s) && AckOk(s)
    ensures HalfInv(s') && AckOk(s')
  {
  }

  lemma SelectKeepsEnd(cfg: Config, s: State, s': State, a: Action)
    requires AtSelect(a)
    requires SelectStep(s, a) == Some(s') && QueueOk(s) && HeldOk(s) && HalfInv(s) && EndInv(cfg, s)
    ensures EndInv(cfg, s')
  {
  }

  lemma GateKeepsQueue(cfg: Config, s: State, s': State, pass: bool)
    requires GateStep(cfg, s, pass) == Some(s') && QueueOk(s) && HeldOk(s) && EndInv(cfg, s)
    ensures QueueOk(s')
  {
  }

  lemma GateKeepsHeld(cfg: Config, s: State, s': State, pass: bool)
    requires GateStep(cfg, s, pass) == Some(s') && QueueOk(s) && HeldOk(s) && EndInv(cfg, s)
    ensures HeldOk(s')
  {
  }

  lemma GateKeepsEnd(cfg: Config, s: State, s': State, pass: bool)
    requires GateStep(cfg, s, pass) == Some(s') && HeldOk(s) && HalfInv(s) && QueueOk(s) && EndInv(cfg, s)
    ensures HalfInv(s') && EndInv(cfg, s')
  {
  }

  lemma GateKeepsAck(cfg: Config, s: State, s': State, pass: bool)
    requires GateStep(cfg, s, pass) == Some(s') && AckOk(s)
    ensures AckOk(s')
  {
  }

  lemma SettleKeepsAck(cfg: Config, s: State, s': State)
    requires SettleStep(s) == Some(s') && AckOk(s)
    ensures AckOk(s')
  {
  }

  lemma PickKeepsOrder(cfg: Config, s: State, s': State)
    requires PickStep(s) == Some(s') && OrderInv(cfg, s)
    ensures OrderInv(cfg, s')
  {
    PickKeepsSlot(cfg, s, s');
    PickKeepsQueue(cfg, s, s');
    PickKeepsHalf(cfg, s, s');
  }

  lemma TakingKeepsOrder(cfg: Config, s: State, s': State)
    requires TakingStep(cfg, s) == Some(s') && OrderInv(cfg, s)
    ensures OrderInv(cfg, s')
  {
    TakingKeepsQueues(cfg, s, s');
    TakingKeepsHeld(cfg, s, s');
    TakingKeepsHandler(cfg, s, s');
    TakingKeepsEnd(cfg, s, s');
  }

  lemma TakeKeepsQueues(cfg: Config, s: State, s': State)
    requires TakeStep(s) == Some(s') && !Stops(cfg, s.handler) && OrderInv(cfg, s)
    ensures SlotOk(s') && QueueOk(s') && HeldOk(s') && HalfInv(s')
  {
  }

  lemma TakeKeepsHandler(cfg: Config, s: State, s': State)
    requires TakeStep(s) == Some(s') && SlotOk(s) && QueueOk(s) && HandlerOk(s) && AckOk(s)
    ensures HandlerOk(s') && AckOk(s')
  {
  }

  lemma TakeKeepsEnd(cfg: Config, s: State, s': State)
    requires TakeStep(s) == Some(s') && !Stops(cfg, s.handler) && QueueOk(s) && HandlerOk(s) && EndInv(cfg, s)
    ensures EndInv(cfg, s')
  {
  }

  lemma TakeKeepsOrder(cfg: Config, s: State, s': State)
    requires TakeStep(s) == Some(s') && !Stops(cfg, s.handler) && OrderInv(cfg, s)
    ensures OrderInv(cfg, s')
  {
    TakeKeepsQueues(cfg, s, s');
    TakeKeepsHandler(cfg, s, s');
    TakeKeepsEnd(cfg, s, s');
  }

  lemma PartIsWithin(acc: seq<Batch>, k: nat, b: Batch, pos: nat, read: seq<Item>)
    requires k < |acc| && b == acc[k] && pos <= |b.items| && read == Join(acc, k) + b.items[..pos]
    ensures read <= Join(acc, k + 1)
  {
    assert Join(acc, k + 1) == Join(acc, k) + b.items;
  }

  lemma ItemKeepsReading(cfg: Config, s: State, s': State)
    requires ItemStep(cfg, s) == Some(s') && HandlerOk(s) && EndInv(cfg, s)
    ensures HandlerOk(s') && EndInv(cfg, s')
  {
    var h := s.handler;
    if h.pc.pos < |h.pc.b.items| {
      PartIsWithin(s.slot.accepted, h.counted, h.pc.b, h.pc.pos + 1, h.read + [h.pc.b.items[h.pc.pos]]);
    }
  }

  lemma ItemKeepsOrder(cfg: Config, s: State, s': State)
    requires ItemStep(cfg, s) == Some(s') && OrderInv(cfg, s)
    ensures OrderInv(cfg, s')
  {
    HandlerKeepsQueues(s, s');
    ItemKeepsReading(cfg, s, s');
  }

  lemma DrainKeepsReading(cfg: Config, s: State, s': State)
    requires DrainStep(s) == Some(s') && HandlerOk(s) && EndInv(cfg, s)
    ensures HandlerOk(s') && EndInv(cfg, s')
  {
  }

  lemma DrainKeepsOrder(cfg: Config, s: State, s': State)
    requires DrainStep(s) == Some(s') && OrderInv(cfg, s)
    ensures OrderInv(cfg, s')
  {
    HandlerKeepsQueues(s, s');
    DrainKeepsReading(cfg, s, s');
  }

  lemma CountKeepsOrder(cfg: Config, s: State, s': State)
    requires CountStep(cfg, s) == Some(s') && OrderInv(cfg, s)
    ensures OrderInv(cfg, s')
  {
    HandlerKeepsQueues(s, s');
    CountKeepsHandler(cfg, s, s');
    CountKeepsAck(cfg, s, s');
    CountKeepsEnd(cfg, s, s');
  }

  lemma LetGoKeepsReading(cfg: Config, s: State, s': State)
    requires LetGoStep(s) == Some(s') && HandlerOk(s) && EndInv(cfg, s)
    ensures HandlerOk(s') && EndInv(cfg, s')
  {
  }

  lemma LetGoKeepsOrder(cfg: Config, s: State, s': State)
    requires LetGoStep(s) == Some(s') && OrderInv(cfg, s)
    ensures OrderInv(cfg, s')
  {
    HandlerKeepsQueues(s, s');
    LetGoKeepsReading(cfg, s, s');
  }

  lemma SelectKeepsOrder(cfg: Config, s: State, s': State, a: Action)
    requires AtSelect(a)
    requires SelectStep(s, a) == Some(s') && OrderInv(cfg, s)
    ensures OrderInv(cfg, s')
  {
    SelectKeepsQueue(cfg, s, s', a);
    SelectKeepsHeld(cfg, s, s', a);
    SelectKeepsHalf(cfg, s, s', a);
    SelectKeepsEnd(cfg, s, s', a);
  }

  lemma GateKeepsOrder(cfg: Config, s: State, s': State, pass: bool)
    requires GateStep(cfg, s, pass) == Some(s') && OrderInv(cfg, s)
    ensures OrderInv(cfg, s')
  {
    GateKeepsQueue(cfg, s, s', pass);
    GateKeepsHeld(cfg, s, s', pass);
    GateKeepsAck(cfg, s, s', pass);
    GateKeepsEnd(cfg, s, s', pass);
  }

  lemma LookKeepsReading(cfg: Config, s: State, s': State)
    requires LookStep(cfg, s) == Some(s') && EndInv(cfg, s) && AckOk(s)
    ensures EndInv(cfg, s') && AckOk(s')
  {
  }

  lemma LookKeepsQueues(cfg: Config, s: State, s': State)
    requires LookStep(cfg, s) == Some(s') && SlotOk(s) && QueueOk(s) && HeldOk(s) && HalfInv(s)
    ensures SlotOk(s') && QueueOk(s') && HeldOk(s') && HalfInv(s')
  {
  }

  lemma LookKeepsOrder(cfg: Config, s: State, s': State)
    requires LookStep(cfg, s) == Some(s') && OrderInv(cfg, s)
    ensures OrderInv(cfg, s')
  {
    LookKeepsQueues(cfg, s, s');
    LookKeepsReading(cfg, s, s');
  }

  lemma SettleKeepsQueues(cfg: Config, s: State, s': State)
    requires SettleStep(s) == Some(s') && SlotOk(s) && QueueOk(s) && HeldOk(s) && HalfInv(s)
    ensures SlotOk(s') && QueueOk(s') && HeldOk(s') && HalfInv(s')
  {
  }

  lemma SettleKeepsEnd(cfg: Config, s: State, s': State)
    requires SettleStep(s) == Some(s') && EndInv(cfg, s)
    ensures EndInv(cfg, s')
  {
  }

  lemma SettleKeepsOrder(cfg: Config, s: State, s': State)
    requires SettleStep(s) == Some(s') && OrderInv(cfg, s)
    ensures OrderInv(cfg, s')
  {
    SettleKeepsQueues(cfg, s, s');
    SettleKeepsEnd(cfg, s, s');
    SettleKeepsAck(cfg, s, s');
  }

  lemma BeginKeepsQueues(cfg: Config, s: State, s': State)
    requires BeginStep(cfg, s) == Some(s') && SlotOk(s) && QueueOk(s) && HeldOk(s) && HalfInv(s)
    ensures SlotOk(s') && QueueOk(s') && HeldOk(s') && HalfInv(s')
  {
  }

  lemma BeginKeepsEnd(cfg: Config, s: State, s': State)
    requires BeginStep(cfg, s) == Some(s') && SlotOk(s) && EndInv(cfg, s)
    ensures EndInv(cfg, s')
  {
  }

  lemma BeginKeepsReading(cfg: Config, s: State, s': State)
    requires BeginStep(cfg, s) == Some(s') && HandlerOk(s) && AckOk(s)
    ensures HandlerOk(s') && AckOk(s')
  {
  }

  lemma BeginKeepsOrder(cfg: Config, s: State, s': State)
    requires BeginStep(cfg, s) == Some(s') && OrderInv(cfg, s)
    ensures OrderInv(cfg, s')
  {
    BeginKeepsQueues(cfg, s, s');
    BeginKeepsReading(cfg, s, s');
    BeginKeepsEnd(cfg, s, s');
  }

  lemma AfterKeepsQueues(cfg: Config, s: State, s': State)
    requires AfterStep(s) == Some(s') && SlotOk(s) && QueueOk(s) && HeldOk(s) && HalfInv(s)
    ensures SlotOk(s') && QueueOk(s') && HeldOk(s') && HalfInv(s')
  {
  }

  lemma AfterKeepsReading(cfg: Config, s: State, s': State)
    requires AfterStep(s) == Some(s') && SlotOk(s) && HandlerOk(s) && EndInv(cfg, s) && AckOk(s)
    ensures HandlerOk(s') && EndInv(cfg, s') && AckOk(s')
  {
  }

  lemma AfterKeepsOrder(cfg: Config, s: State, s': State)
    requires AfterStep(s) == Some(s') && OrderInv(cfg, s)
    ensures OrderInv(cfg, s')
  {
    AfterKeepsQueues(cfg, s, s');
    AfterKeepsReading(cfg, s, s');
  }

  lemma DropKeepsQueues(cfg: Config, s: State, s': State)
    requires DropStep(cfg, s) == Some(s') && QueueOk(s) && HeldOk(s)
    ensures QueueOk(s') && HeldOk(s')
  {
  }

  lemma DropKeepsSlot(cfg: Config, s: State, s': State)
    requires DropStep(cfg, s) == Some(s') && SlotOk(s) && HalfInv(s)
    ensures SlotOk(s') && HalfInv(s')
  {
  }

  lemma DropKeepsHandler(cfg: Config, s: State, s': State)
    requires DropStep(cfg, s) == Some(s') && HandlerOk(s)
    ensures HandlerOk(s')
  {
  }

  lemma DropKeepsEnd(cfg: Config, s: State, s': State)
    requires DropStep(cfg, s) == Some(s') && SlotOk(s) && EndInv(cfg, s)
    ensures EndInv(cfg, s')
  {
  }

  lemma DropKeepsOrder(cfg: Config, s: State, s': State)
    requires DropStep(cfg, s) == Some(s') && OrderInv(cfg, s)
    ensures OrderInv(cfg, s')
  {
    DropKeepsQueues(cfg, s, s');
    DropKeepsSlot(cfg, s, s');
    DropKeepsHandler(cfg, s, s');
    DropKeepsEnd(cfg, s, s');
  }

  lemma PollKeepsOrder(cfg: Config, s: State, s': State)
    requires PollStep(cfg, s) == Some(s') && OrderInv(cfg, s)
    ensures OrderInv(cfg, s')
  {
    if s.handler.pc.Polling? {
      TakeKeepsOrder(cfg, s, s');
    } else if s.handler.pc.Reading? {
      ItemKeepsOrder(cfg, s, s');
    } else if Draining(s.handler.pc) {
      DrainKeepsOrder(cfg, s, s');
    } else {
      CountKeepsOrder(cfg, s, s');
    }
  }

  lemma PipeKeepsOrder(cfg: Config, s: State, s': State, pass: bool)
    requires PipeStep(cfg, s, pass) == Some(s') && OrderInv(cfg, s)
    ensures OrderInv(cfg, s')
  {
    var pc := s.pipe.pc;
    if pc.Now? || pc.Ask? || pc.Admit? {
      GateKeepsOrder(cfg, s, s', pass);
    } else if pc.Start? || pc.Turned? {
      BeginKeepsOrder(cfg, s, s');
    } else if pc.After? {
      AfterKeepsOrder(cfg, s, s');
    } else if pc.Dropping? || pc.DroppingInbox? {
      DropKeepsOrder(cfg, s, s');
    } else if Looking(pc) {
      LookKeepsOrder(cfg, s, s');
    } else {
      SettleKeepsOrder(cfg, s, s');
    }
  }

  /** What the client and the writers do by themselves is outside it all. */
  lemma OutsideKeepsOrder(cfg: Config, s: State, s': State)
    requires s' == s.(client := s'.client, gen := s'.gen) && OrderInv(cfg, s)
    ensures OrderInv(cfg, s')
  {
  }

  lemma ClientKeepsOrder(cfg: Config, s: State, s': State, a: Action)
    requires a.Send? || a.SendEnd? || a.Hear?
    requires ClientStep(s, a) == Some(s') && OrderInv(cfg, s)
    ensures OrderInv(cfg, s')
  {
    OutsideKeepsOrder(cfg, s, s');
  }

  lemma ReadKeepsOrder(cfg: Config, s: State, s': State)
    requires ReadStep(cfg, s) == Some(s') && OrderInv(cfg, s)
    ensures OrderInv(cfg, s')
  {
    if s.slot.reader.Idle? {
      PickKeepsOrder(cfg, s, s');
    } else {
      TakingKeepsOrder(cfg, s, s');
    }
  }

  lemma StepKeepsOrder(cfg: Config, s: State, s': State, a: Action)
    requires Next(cfg, s, a) == Some(s') && OrderInv(cfg, s)
    ensures OrderInv(cfg, s')
  {
    match a
    case Send(_) => ClientKeepsOrder(cfg, s, s', a);
    case SendEnd(_) => ClientKeepsOrder(cfg, s, s', a);
    case Hear => ClientKeepsOrder(cfg, s, s', a);
    case Read => ReadKeepsOrder(cfg, s, s');
    case Poll => PollKeepsOrder(cfg, s, s');
    case LetGo => LetGoKeepsOrder(cfg, s, s');
    case Step(pass) => PipeKeepsOrder(cfg, s, s', pass);
    case Move => OutsideKeepsOrder(cfg, s, s');
    case _ => SelectKeepsOrder(cfg, s, s', a);
  }

  lemma {:induction false} RunKeepsOrder(cfg: Config, run: seq<Action>, s: State)
    requires Run(cfg, run) == Some(s)
    ensures OrderInv(cfg, s)
  {
    if run != [] {
      var before := Run(cfg, run[..|run| - 1]).value;
      RunKeepsOrder(cfg, run[..|run| - 1], before);
      StepKeepsOrder(cfg, before, s, run[|run| - 1]);
    }
  }

  // ----- Whose batches they are -----

  /** `a` is `b` with batches left out. */
  ghost predicate Among(a: seq<Batch>, b: seq<Batch>)
    decreases |b|
  {
    if a == [] then true
    else if b == [] then false
    else
      var a1, b1 := a[..|a| - 1], b[..|b| - 1];
      Among(a, b1) || (a[|a| - 1] == b[|b| - 1] && Among(a1, b1))
  }

  lemma AmongPush(a: seq<Batch>, b: seq<Batch>, x: Batch)
    requires Among(a, b)
    ensures Among(a, b + [x]) && Among(a + [x], b + [x])
  {
    assert (b + [x])[..|b|] == b && (a + [x])[..|a|] == a;
  }

  lemma {:induction false} AmongPop(a: seq<Batch>, b: seq<Batch>)
    requires a != [] && Among(a, b)
    ensures Among(a[..|a| - 1], b)
    decreases |b|
  {
    var b1 := b[..|b| - 1];
    if Among(a, b1) {
      AmongPop(a, b1);
    }
    AmongPush(a[..|a| - 1], b1, b[|b| - 1]);
    assert b1 + [b[|b| - 1]] == b;
  }

  lemma {:induction false} AmongMore(a: seq<Batch>, b: seq<Batch>, n: nat)
    requires n <= |b| && Among(a, b[..n])
    ensures Among(a, b)
    decreases |b| - n
  {
    if n < |b| {
      AmongPush(a, b[..n], b[n]);
      assert b[..n] + [b[n]] == b[..n + 1];
      AmongMore(a, b, n + 1);
    } else {
      assert b[..n] == b;
    }
  }

  /** The batches on their way up. */
  function DataOf(up: seq<Message>): seq<Batch> {
    if up == [] then [] else (if up[0].Data? then [up[0].batch] else []) + DataOf(up[1..])
  }

  lemma {:induction false} DataPush(up: seq<Message>, m: Message)
    ensures DataOf(up + [m]) == DataOf(up) + if m.Data? then [m.batch] else []
  {
    if up == [] {
      assert [m][1..] == [];
    } else {
      DataPush(up[1..], m);
      assert (up + [m])[1..] == up[1..] + [m];
    }
  }

  /** What is accepted, and the frame in hand, are frames the client sent, in the order it sent
      them; what is on its way up is the rest of what it sent. */
  ghost predicate SentInv(log: seq<Batch>, up: seq<Message>, acc: seq<Batch>, r: Reader) {
    var n := |log| - |DataOf(up)|;
    n >= 0 && log[n..] == DataOf(up) && Among(acc + InHand(r), log[..n])
  }

  ghost predicate SentOk(s: State) {
    SentInv(s.client.log, s.client.up, s.slot.accepted, s.slot.reader)
  }

  lemma OneMoreSent(log: seq<Batch>, up: seq<Message>, acc: seq<Batch>, r: Reader, b: Batch)
    requires SentInv(log, up, acc, r)
    ensures SentInv(log + [b], up + [Data(b)], acc, r)
  {
    var n := |log| - |DataOf(up)|;
    DataPush(up, Data(b));
    assert (log + [b])[..n] == log[..n] && (log + [b])[n..] == log[n..] + [b];
  }

  lemma EndSaid(log: seq<Batch>, up: seq<Message>, acc: seq<Batch>, r: Reader, k: nat)
    requires SentInv(log, up, acc, r)
    ensures SentInv(log, up + [End(k)], acc, r)
  {
    DataPush(up, End(k));
    assert DataOf(up) + [] == DataOf(up);
  }

  lemma ClientKeepsSent(s: State, s': State, a: Action)
    requires a.Send? || a.SendEnd? || a.Hear?
    requires ClientStep(s, a) == Some(s') && SentOk(s)
    ensures SentOk(s')
  {
    match a
    case Send(b) => OneMoreSent(s.client.log, s.client.up, s.slot.accepted, s.slot.reader, b);
    case SendEnd(k) => EndSaid(s.client.log, s.client.up, s.slot.accepted, s.slot.reader, k);
    case Hear =>
  }

  /** The next batch on its way up is the next of what the client sent. */
  lemma NextIsSent(log: seq<Batch>, up: seq<Message>, n: nat)
    requires n <= |log| && up != [] && up[0].Data? && log[n..] == DataOf(up)
    ensures n < |log| && log[n] == up[0].batch && log[n + 1..] == DataOf(up[1..])
  {
    assert log[n..][0] == DataOf(up)[0] == up[0].batch;
    assert log[n + 1..] == log[n..][1..] == DataOf(up)[1..];
  }

  lemma AmongNext(acc: seq<Batch>, log: seq<Batch>, n: nat)
    requires n < |log| && Among(acc, log[..n])
    ensures Among(acc, log[..n + 1]) && Among(acc + [log[n]], log[..n + 1])
  {
    assert log[..n] + [log[n]] == log[..n + 1];
    AmongPush(acc, log[..n], log[n]);
  }

  /** A message is picked off: its batch, when it holds one, is left or taken in hand as `r`. */
  lemma PickedWasSent(log: seq<Batch>, up: seq<Message>, acc: seq<Batch>, r: Reader)
    requires up != [] && SentInv(log, up, acc, Idle)
    requires r.Idle? || (up[0].Data? && InHand(r) == [up[0].batch])
    ensures SentInv(log, up[1..], acc, r)
  {
    var n := |log| - |DataOf(up)|;
    assert acc + [] == acc;
    if up[0].Data? {
      NextIsSent(log, up, n);
      AmongNext(acc, log, n);
    }
  }

  /** The frame in hand is queued, refused, or still in hand. */
  lemma TakenWasSent(log: seq<Batch>, up: seq<Message>, acc: seq<Batch>, r: Reader, acc': seq<Batch>, r': Reader)
    requires !r.Idle? && SentInv(log, up, acc, r)
    requires acc' == acc + InHand(r) || acc' == acc
    requires r'.Idle? || (acc' == acc && InHand(r') == InHand(r))
    ensures SentInv(log, up, acc', r')
  {
    var a := acc + InHand(r);
    assert a[..|acc|] == acc && acc' + [] == acc';
    AmongPop(a, log[..|log| - |DataOf(up)|]);
  }

  lemma PipeLeavesReader(cfg: Config, s: State, s': State, pass: bool)
    requires PipeStep(cfg, s, pass) == Some(s')
    ensures s'.client.log == s.client.log && s'.client.up == s.client.up
    ensures s'.slot.accepted == s.slot.accepted && s'.slot.reader == s.slot.reader
  {
  }

  lemma PollLeavesReader(cfg: Config, s: State, s': State)
    requires PollStep(cfg, s) == Some(s')
    ensures s'.client == s.client && s'.slot == s.slot
  {
  }

  lemma StepKeepsSent(cfg: Config, s: State, s': State, a: Action)
    requires Next(cfg, s, a) == Some(s') && SentOk(s)
    ensures SentOk(s')
  {
    match a
    case Send(_) => ClientKeepsSent(s, s', a);
    case SendEnd(_) => ClientKeepsSent(s, s', a);
    case Hear => ClientKeepsSent(s, s', a);
    case Read => if s.slot.reader.Idle? { PickedWasSent(s.client.log, s.client.up, s.slot.accepted, s'.slot.reader); } else { TakenWasSent(s.client.log, s.client.up, s.slot.accepted, s.slot.reader, s'.slot.accepted, s'.slot.reader); }
    case Poll => PollLeavesReader(cfg, s, s');
    case Step(pass) => PipeLeavesReader(cfg, s, s', pass);
    case _ =>
  }

  lemma NothingSent(cfg: Config)
    ensures SentOk(Init(cfg))
  {
    var none: seq<Batch> := [];
    assert none + InHand(Idle) == none;
  }

  lemma {:induction false} RunKeepsSent(cfg: Config, run: seq<Action>, s: State)
    requires Run(cfg, run) == Some(s)
    ensures SentOk(s)
  {
    if run == [] {
      NothingSent(cfg);
    } else {
      var before := Run(cfg, run[..|run| - 1]).value;
      RunKeepsSent(cfg, run[..|run| - 1], before);
      StepKeepsSent(cfg, before, s, run[|run| - 1]);
    }
  }

  // ----- What it says of every run -----

  lemma AcceptedWasSent(cfg: Config, run: seq<Action>, s: State)
    requires Run(cfg, run) == Some(s)
    ensures Among(s.slot.accepted, s.client.log)
  {
    RunKeepsSent(cfg, run, s);
    var log, up, acc := s.client.log, s.client.up, s.slot.accepted;
    if !s.slot.reader.Idle? {
      TakenWasSent(log, up, acc, s.slot.reader, acc, Idle);
    }
    assert acc + [] == acc;
    AmongMore(acc, log, |log| - |DataOf(up)|);
  }

  lemma ReadIsAccepted(acc: seq<Batch>, h: Handler, done: nat)
    requires HandlerInv(acc, h, done)
    ensures h.read <= Join(acc, |acc|)
  {
    SumsGrow(acc, h.received, |acc|);
  }

  /** Whatever is resent, skipped or refused, and however the parties interleave: what the handler
      has read is a prefix of the items of frames 0, 1, 2, … as they were accepted, each a frame
      the client sent, in the order it sent them. */
  lemma ReadsInOrder(cfg: Config, run: seq<Action>, s: State)
    requires Run(cfg, run) == Some(s)
    ensures forall i :: 0 <= i < |s.slot.accepted| ==> s.slot.accepted[i].seqno == i
    ensures Among(s.slot.accepted, s.client.log)
    ensures s.handler.read <= Join(s.slot.accepted, |s.slot.accepted|)
  {
    AcceptedWasSent(cfg, run, s);
    RunKeepsOrder(cfg, run, s);
    ReadIsAccepted(s.slot.accepted, s.handler, s.book.done);
  }

  lemma DoneIsRead(acc: seq<Batch>, h: Handler, done: nat)
    requires HandlerInv(acc, h, done)
    ensures done <= |acc| && Join(acc, done) <= h.read
  {
  }

  lemma AckedIsRead(s: State, i: nat)
    requires AckOk(s) && HandlerOk(s) && i < |s.pipe.acks|
    ensures i > 0 ==> s.pipe.acks[i - 1] < s.pipe.acks[i]
    ensures s.pipe.acks[i] < |s.slot.accepted|
    ensures Join(s.slot.accepted, s.pipe.acks[i] + 1) <= s.handler.read
  {
    DoneIsRead(s.slot.accepted, s.handler, s.book.done);
    SumsGrow(s.slot.accepted, s.pipe.acks[i] + 1, s.book.done);
  }

  /** Acks go up, and each names a frame every item of which, and of those before it, was read. */
  lemma AcksNameWhatWasConsumed(cfg: Config, run: seq<Action>, s: State, i: nat)
    requires Run(cfg, run) == Some(s)
    requires i < |s.pipe.acks|
    ensures i > 0 ==> s.pipe.acks[i - 1] < s.pipe.acks[i]
    ensures s.pipe.acks[i] < |s.slot.accepted|
    ensures Join(s.slot.accepted, s.pipe.acks[i] + 1) <= s.handler.read
  {
    RunKeepsOrder(cfg, run, s);
    AckedIsRead(s, i);
  }

  /** An end of input is the client's `end`, naming as many frames as were accepted, with every
      item of them read: a refusal, a cancel or a lost socket is never one. */
  lemma EndIsClean(cfg: Config, run: seq<Action>, s: State)
    requires Owns(cfg)
    requires Run(cfg, run) == Some(s) && s.handler.sawEnd
    ensures s.slot.endedAt == Some(|s.slot.accepted|)
    ensures s.handler.read == Join(s.slot.accepted, |s.slot.accepted|)
  {
    RunKeepsOrder(cfg, run, s);
  }

  lemma RunPush(cfg: Config, run: seq<Action>, s: State, a: Action)
    requires Run(cfg, run) == Some(s)
    ensures Run(cfg, run + [a]) == Next(cfg, s, a)
  {
  }

  /** Nothing was taken and no `end` came. */
  predicate Unused(s: State) {
    s.slot.reader.Idle? && s.slot.endedAt.None? && s.handler.pc.Polling? && s.pipe.inbox == []
  }

  /** A turn of a call that has taken nothing, from what it learned to its end: nothing is owed. */
  predicate Turning(s: State, t: Turn) {
    && Unused(s) && s.book == EMPTY && s.pipe.acked == 0
    && TurnOf(s.pipe.pc) == Some(t) && TurnSteps(s.pipe.pc) > 0
    && match s.pipe.pc
       case Ended(_, fin) => !fin
       case Holding(_, fin, _) => !fin
       case Doing(_, fin, _) => !fin
       case Counting(_, fin, _, done) => !fin && done == 0
       case _ => true
  }

  /** Steps to the end of a turn in which nothing is owed, that end included. */
  function TurnSteps(pc: Pc): nat {
    match pc
    case Turned(_) => 7
    case Finished(_) => 6
    case Ended(_, _) => 5
    case Holding(_, _, _) => 4
    case Doing(_, _, _) => 3
    case Counting(_, _, _, _) => 2
    case After(_) => 1
    case _ => 0
  }

  lemma Turns(cfg: Config, s: State, t: Turn)
    requires Turning(s, t) && !t.Failed? && !s.pipe.pc.After?
    ensures var r := PipeStep(cfg, s, true);
            && r.Some? && Turning(r.value, t) && TurnSteps(r.value.pipe.pc) < TurnSteps(s.pipe.pc)
            && r.value.pipe.inboxOpen == s.pipe.inboxOpen
  {
    if Looking(s.pipe.pc) {
      TurnLooks(cfg, s, t);
    }
  }

  lemma TurnLooks(cfg: Config, s: State, t: Turn)
    requires Turning(s, t) && Looking(s.pipe.pc)
    ensures var r := LookStep(cfg, s);
            && r.Some? && Turning(r.value, t) && TurnSteps(r.value.pipe.pc) < TurnSteps(s.pipe.pc)
            && r.value.pipe.inboxOpen == s.pipe.inboxOpen
  {
  }

  lemma TurnRun(cfg: Config, before: seq<Action>, s0: State, t: Turn) returns (run: seq<Action>, s: State)
    requires Run(cfg, before) == Some(s0) && Turning(s0, t) && !t.Failed?
    ensures Run(cfg, run) == Some(s) && Turning(s, t) && s.pipe.pc == After(t) && s.pipe.inboxOpen == s0.pipe.inboxOpen
  {
    run, s := before, s0;
    while !s.pipe.pc.After?
      invariant Run(cfg, run) == Some(s) && Turning(s, t) && s.pipe.inboxOpen == s0.pipe.inboxOpen
      decreases TurnSteps(s.pipe.pc)
    {
      Turns(cfg, s, t);
      RunPush(cfg, run, s, Step(true));
      run, s := run + [Step(true)], Next(cfg, s, Step(true)).value;
    }
  }

  /** The run of a call just opened whose first turn is what `a` brings. */
  lemma FirstTurn(cfg: Config, a: Action) returns (run: seq<Action>, s: State)
    requires a == Expire || a == Output(SaidDone)
    ensures var t := if a.Expire? then Refused(Expired) else SaidDone;
            Run(cfg, run) == Some(s) && Turning(s, t) && s.pipe.pc == After(t)
  {
    run, s := [], Init(cfg);
    RunPush(cfg, run, s, Step(true));
    run, s := run + [Step(true)], Next(cfg, s, Step(true)).value;
    RunPush(cfg, run, s, a);
    run, s := run + [a], Next(cfg, s, a).value;
    run, s := TurnRun(cfg, run, s, if a.Expire? then Refused(Expired) else SaidDone);
  }

  /** The end of a refused call whose handler outlives its stream. */
  lemma Leaves(cfg: Config, s: State)
    requires cfg.detached && Unused(s)
    requires s.pipe.pc == After(Refused(Expired)) || s.pipe.pc.Dropping? || s.pipe.pc.DroppingInbox?
    ensures var r := PipeStep(cfg, s, true);
            && r.Some? && Unused(r.value)
            && r.value.pipe.pc == (if s.pipe.pc.After? then Dropping else if s.pipe.pc.Dropping? then DroppingInbox else Over)
            && (s.pipe.pc.DroppingInbox? ==> !r.value.pipe.inboxOpen)
  {
  }

  lemma SeesEnd(cfg: Config, before: seq<Action>, s0: State) returns (run: seq<Action>, s: State)
    requires cfg.detached || cfg.readsOn
    requires Run(cfg, before) == Some(s0) && Unused(s0) && !s0.pipe.inboxOpen
    ensures Run(cfg, run) == Some(s) && s.handler.sawEnd && s.slot.endedAt.None?
  {
    RunPush(cfg, before, s0, Poll);
    run, s := before + [Poll], Next(cfg, s0, Poll).value;
  }

  /** A sign-in expires at once; a handler that reads in a task of its own sees an end. */
  lemma ExpiredRun(cfg: Config) returns (run: seq<Action>, s: State)
    requires cfg.detached
    ensures Run(cfg, run) == Some(s) && s.handler.sawEnd && s.slot.endedAt.None?
  {
    run, s := FirstTurn(cfg, Expire);
    while !s.pipe.pc.Over?
      invariant Run(cfg, run) == Some(s) && Unused(s)
      invariant s.pipe.pc == After(Refused(Expired)) || s.pipe.pc.Dropping? || s.pipe.pc.DroppingInbox? || (s.pipe.pc.Over? && !s.pipe.inboxOpen)
      decreases if s.pipe.pc.After? then 3 else if s.pipe.pc.Dropping? then 2 else if s.pipe.pc.DroppingInbox? then 1 else 0
    {
      Leaves(cfg, s);
      RunPush(cfg, run, s, Step(true));
      run, s := run + [Step(true)], Next(cfg, s, Step(true)).value;
    }
    run, s := SeesEnd(cfg, run, s);
  }

  /** A handler's stream says an error at once and reads on: it sees an end. */
  lemma SaidRun(cfg: Config) returns (run: seq<Action>, s: State)
    requires cfg.readsOn
    ensures Run(cfg, run) == Some(s) && s.handler.sawEnd && s.slot.endedAt.None?
  {
    run, s := FirstTurn(cfg, Output(SaidDone));
    RunPush(cfg, run, s, Step(true));
    run, s := run + [Step(true)], Next(cfg, s, Step(true)).value;
    run, s := SeesEnd(cfg, run, s);
  }

  /** The promise of `EndIsClean` holds of a handler exactly when dropping its stream drops its
      input and its stream polls that input no more once it has said `done` or an error. */
  lemma EndIsCleanExactlyWhenOwned(cfg: Config)
    ensures Owns(cfg) <==> (forall run, s :: Run(cfg, run) == Some(s) && s.handler.sawEnd ==> s.slot.endedAt.Some?)
  {
    if cfg.detached {
      var run, s := ExpiredRun(cfg);
    } else if cfg.readsOn {
      var run, s := SaidRun(cfg);
    } else {
      forall run, s | Run(cfg, run) == Some(s) && s.handler.sawEnd
        ensures s.slot.endedAt.Some?
      {
        EndIsClean(cfg, run, s);
      }
    }
  }
}
