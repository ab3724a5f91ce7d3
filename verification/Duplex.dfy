/** The input half of a duplex call as a step system: src/plexus/input.rs, duplex_gate.rs and the
    pipe of src/plexus/wire.rs. Five parties run interleaved, one atomic operation a step: the
    client, the socket's reader (under the table's lock), the pipe (which polls the gate's stream,
    so the gate's steps are the pipe's), the handler, and the writers who move the grants
    generation. */
module Duplex {
  import opened Basics
  import opened Ledgers

  type Item = int

  /** A call's terms. `seen0` is the generation read before the decision the call opens on,
      `rest0` the generation that decision was made at, `gen0` the one when the call is open. */
  datatype Config = Config(
    window: nat,
    maxBuffered: nat,
    maxItems: nat,
    maxBytes: nat,
    recheck: bool,
    targets: nat,
    seen0: nat,
    rest0: nat,
    gen0: nat,
    /** Items that do not decode as the method's type. */
    unreadable: set<Item>,
    /** The handler reads its input in a task of its own, which dropping its stream does not drop. */
    detached: bool,
    /** Having said `done` or an error, the handler's stream polls its input again. A stream the
        library wraps never does; one written by hand may. */
    readsOn: bool)

  predicate Sound(cfg: Config) {
    cfg.window <= U64_MAX && cfg.seen0 <= cfg.rest0 <= cfg.gen0
  }

  /** The gate checks of one re-verification: each target, or the grant alone. */
  function Asks(cfg: Config): nat {
    if cfg.recheck then Max(1, cfg.targets) else 0
  }

  datatype Batch = Batch(seqno: nat, items: seq<Item>, bytes: nat)

  datatype Overrun = PastWindow | Sequence(expected: nat) | Empty

  /** What the table queues for the gate: a batch, or the mark of the first frame it refused. */
  datatype Arrival = Good(batch: Batch) | Bad(seqno: nat, why: Overrun)

  datatype Refusal =
    | Gate
    | Expired
    | PastCredit(seqno: nat, credit: nat)
    | TooMuchInput(bytes: bool, max: nat)
    | OutOfSequence(seqno: nat, expected: nat)
    | InvalidInput(seqno: nat)

  // ----- The client -----

  datatype Message = Data(batch: Batch) | End(seqno: nat)

  datatype Notice = Ack(seqno: nat) | Credit(n: nat)

  datatype Client = Client(
    /** Every item it has been told it may send. */
    told: nat,
    said: bool,
    /** It has kept to what it was told so far. */
    obedient: bool,
    log: seq<Batch>,
    up: seq<Message>,
    down: seq<Notice>)

  /** The items of the first `k` batches, how many they are, and their bytes. */
  function Join(bs: seq<Batch>, k: nat): seq<Item>
    requires k <= |bs|
  {
    if k == 0 then [] else Join(bs, k - 1) + bs[k - 1].items
  }

  function Count(bs: seq<Batch>, k: nat): nat
    requires k <= |bs|
  {
    if k == 0 then 0 else Count(bs, k - 1) + |bs[k - 1].items|
  }

  function Size(bs: seq<Batch>, k: nat): nat
    requires k <= |bs|
  {
    if k == 0 then 0 else Size(bs, k - 1) + bs[k - 1].bytes
  }

  /** An obedient frame: the next one, of something, within the credit told, before the end. */
  predicate Obeys(c: Client, b: Batch) {
    !c.said && b.seqno == |c.log| && b.items != [] && Count(c.log, |c.log|) + |b.items| <= c.told
  }

  // ----- The table's slot -----

  datatype Reader = Idle | Checking(b: Batch) | AddingItems(b: Batch) | AddingBytes(b: Batch) | Pushing(b: Batch)

  datatype Slot = Slot(
    attached: bool,
    /** The half takes frames: `tx` is there. */
    open: bool,
    nextSeq: nat,
    reader: Reader,
    arrivals: seq<Arrival>,
    /** Every batch queued, in order. */
    accepted: seq<Batch>,
    endedAt: Option<nat>)

  // ----- The pipe and the gate it polls -----

  /** What a turn of the pipe brings. `SaidDone` is an item `done` or an error. */
  datatype Turn = Moved | Said | SaidDone | SaidNothing | Failed | Refused(why: Refusal)

  datatype Pc =
    | Start
    | Select
    | Now(f: Option<Arrival>, at: nat)
    | Ask(f: Option<Arrival>, at: nat, now: nat, k: nat)
    | Admit(a: Arrival, at: nat)
    | Turned(t: Turn)
    | Finished(t: Turn)
    | Ended(t: Turn, fin: bool)
    | Holding(t: Turn, fin: bool, end: bool)
    | Doing(t: Turn, fin: bool, end: bool)
    | Counting(t: Turn, fin: bool, end: bool, done: nat)
    | Storing(t: Turn, fin: bool, end: bool, done: nat, consumed: nat)
    | SayAck(t: Turn, due: Due)
    | Grant(t: Turn, due: Due)
    | SayCredit(t: Turn, due: Due)
    | After(t: Turn)
    | Dropping
    | DroppingInbox
    | Over

  /** The turn the pipe is working through. */
  function TurnOf(pc: Pc): Option<Turn> {
    match pc
    case Turned(t) => Some(t)
    case Finished(t) => Some(t)
    case Ended(t, _) => Some(t)
    case Holding(t, _, _) => Some(t)
    case Doing(t, _, _) => Some(t)
    case Counting(t, _, _, _) => Some(t)
    case Storing(t, _, _, _, _) => Some(t)
    case SayAck(t, _) => Some(t)
    case Grant(t, _) => Some(t)
    case SayCredit(t, _) => Some(t)
    case After(t) => Some(t)
    case _ => None
  }

  datatype Pipe = Pipe(
    pc: Pc,
    acked: nat,
    acks: seq<nat>,
    inboxOpen: bool,
    inbox: seq<Batch>,
    /** Accepted batches taken off the arrivals, and those of them forwarded to the inbox. */
    taken: nat,
    forwarded: nat)

  /** A gate check: which of the call's, the generation it was made at, what it answered. */
  datatype Verdict = Verdict(target: nat, gen: nat, pass: bool)

  /** An admission: the generation it read, and how many checks had been made. */
  datatype Admission = Admission(at: nat, checks: nat)

  /** What the `DuplexCall` holds, and its shared credit. */
  datatype Call = Call(
    seen: nat,
    credit: nat,
    items: nat,
    bytes: nat,
    closed: Option<Refusal>,
    verdicts: seq<Verdict>,
    admissions: seq<Admission>)

  // ----- The handler -----

  datatype HandlerPc =
    | Polling
    | Reading(b: Batch, pos: nat)
    | SubbingItems(b: Batch)
    | SubbingBytes(b: Batch)
    | StoringDone(b: Batch)
    | AddingConsumed(b: Batch)
    | CheckingWake(b: Batch, consumed: nat)
    | AtEnd
    /** An item of the batch did not decode. */
    | Spoiled(b: Batch, pos: nat)
    | Gone

  datatype Handler = Handler(
    pc: HandlerPc,
    read: seq<Item>,
    sawEnd: bool,
    received: nat,
    /** Frames whose items, and whose bytes, it no longer holds; frames counted as consumed. */
    released: nat,
    releasedBytes: nat,
    counted: nat,
    /** Its stream has said `done` or an error. */
    said: bool)

  /** Inside `frame_done`. */
  predicate MidFrame(h: HandlerPc) {
    h.SubbingItems? || h.SubbingBytes? || h.StoringDone? || h.AddingConsumed? || h.CheckingWake?
  }

  datatype State = State(client: Client, slot: Slot, book: Book, pipe: Pipe, call: Call, handler: Handler, gen: nat)

  function Init(cfg: Config): State {
    State(
      Client(0, false, true, [], [], []),
      Slot(true, true, 0, Idle, [], [], None),
      EMPTY,
      Pipe(Start, 0, [], true, [], 0, 0),
      Call(cfg.seen0, cfg.window, 0, 0, None, [], []),
      Handler(Polling, [], false, 0, 0, 0, 0, false),
      cfg.gen0)
  }

  // ----- Steps -----

  datatype Action =
    | Send(b: Batch)
    | SendEnd(seqno: nat)
    | Hear
    | Read
    | Poll
    | LetGo
    | Frame
    | GateMoved
    | Expire
    | InputEnd
    | Wake
    | Output(t: Turn)
    | Cancel
    | Step(pass: bool)
    | Move

  function ClientStep(s: State, a: Action): Option<State>
    requires a.Send? || a.SendEnd? || a.Hear?
  {
    var c := s.client;
    match a
    case Send(b) =>
      Some(s.(client := c.(up := c.up + [Data(b)], log := c.log + [b], obedient := c.obedient && Obeys(c, b))))
    case SendEnd(n) =>
      Some(s.(client := c.(up := c.up + [End(n)], said := true, obedient := c.obedient && !c.said && n == |c.log|)))
    case Hear =>
      if c.down == [] then None
      else Some(s.(client := c.(down := c.down[1..], told := c.told + if c.down[0].Credit? then c.down[0].n else 0)))
  }

  /** The mark of a refused frame is the last thing queued. */
  function Refuse(slot: Slot, seqno: nat, why: Overrun): Slot {
    slot.(arrivals := slot.arrivals + [Bad(seqno, why)], open := false, reader := Idle)
  }

  /** `InputTable::arrive` as far as its first read of the ledger. */
  function Arrive(slot: Slot, b: Batch): Slot {
    if !slot.attached || !slot.open || b.seqno < slot.nextSeq then slot
    else if b.seqno > slot.nextSeq then Refuse(slot, b.seqno, Sequence(slot.nextSeq))
    else if b.items == [] then Refuse(slot.(nextSeq := slot.nextSeq + 1), b.seqno, Empty)
    else slot.(nextSeq := slot.nextSeq + 1, reader := Checking(b))
  }

  /** `InputTable::end`. */
  function EndSlot(slot: Slot, n: nat): Slot {
    if !slot.attached || !slot.open then slot
    else if n == slot.nextSeq then slot.(open := false, endedAt := Some(n))
    else Refuse(slot, n, Sequence(slot.nextSeq))
  }

  /** The reader takes the next message. */
  function PickStep(s: State): (r: Option<State>)
    ensures r.Some? ==> r.value == s.(client := s.client.(up := r.value.client.up), slot := r.value.slot, book := s.book.(ended := r.value.book.ended))
    ensures r.Some? ==> r.value.slot.accepted == s.slot.accepted
  {
    if !s.slot.reader.Idle? || s.client.up == [] then None
    else
      var slot := s.slot;
      var s1 := s.(client := s.client.(up := s.client.up[1..]));
      match s.client.up[0]
      case Data(b) => Some(s1.(slot := Arrive(slot, b)))
      case End(n) =>
        var slot1 := EndSlot(slot, n);
        Some(s1.(slot := slot1, book := s.book.(ended := s.book.ended || slot1.endedAt != slot.endedAt)))
  }

  /** The rest of `InputTable::arrive`: the window, the two counters, the queue. */
  function TakingStep(cfg: Config, s: State): (r: Option<State>)
    ensures r.Some? ==> r.value == s.(slot := r.value.slot, book := r.value.book)
  {
    var slot := s.slot;
    match slot.reader
    case Idle => None
    case Checking(b) =>
      if s.book.heldItems + |b.items| > cfg.window then Some(s.(slot := Refuse(slot, b.seqno, PastWindow)))
      else Some(s.(slot := slot.(reader := AddingItems(b))))
    case AddingItems(b) =>
      Some(s.(slot := slot.(reader := AddingBytes(b)), book := s.book.(heldItems := s.book.heldItems + |b.items|)))
    case AddingBytes(b) =>
      Some(s.(slot := slot.(reader := Pushing(b)), book := s.book.(heldBytes := s.book.heldBytes + b.bytes)))
    case Pushing(b) =>
      Some(s.(slot := slot.(reader := Idle, arrivals := slot.arrivals + [Good(b)], accepted := slot.accepted + [b])))
  }

  function ReadStep(cfg: Config, s: State): Option<State> {
    if s.slot.reader.Idle? then PickStep(s) else TakingStep(cfg, s)
  }

  /** The handler takes a batch off its inbox, or finds it closed and drained. */
  function TakeStep(s: State): (r: Option<State>)
    ensures r.Some? ==> r.value == s.(pipe := s.pipe.(inbox := r.value.pipe.inbox), handler := r.value.handler, book := r.value.book)
  {
    var h := s.handler;
    if !h.pc.Polling? then None
    else if s.pipe.inbox != [] then
      Some(s.(pipe := s.pipe.(inbox := s.pipe.inbox[1..]), handler := h.(pc := Reading(s.pipe.inbox[0], 0), received := h.received + 1)))
    else if !s.pipe.inboxOpen then
      Some(s.(handler := h.(pc := AtEnd, sawEnd := true), book := s.book.(finished := true, wake := true)))
    else None
  }

  /** The next item of the batch in hand, decoded; past the last, the batch is done. */
  function ItemStep(cfg: Config, s: State): (r: Option<State>)
    ensures r.Some? ==> r.value == s.(handler := r.value.handler, book := r.value.book)
  {
    var h := s.handler;
    match h.pc
    case Reading(b, pos) =>
      if pos >= |b.items| then Some(s.(handler := h.(pc := SubbingItems(b))))
      else if b.items[pos] in cfg.unreadable then
        Some(s.(handler := h.(pc := Spoiled(b, pos)), book := RefuseItem(s.book, b.seqno)))
      else Some(s.(handler := h.(pc := Reading(b, pos + 1), read := h.read + [b.items[pos]])))
    case _ => None
  }

  /** `Ledger::frame_done`, an atomic operation at a time: what is held is let go, */
  function DrainStep(s: State): (r: Option<State>)
    ensures r.Some? ==> r.value == s.(handler := r.value.handler, book := s.book.(heldItems := r.value.book.heldItems, heldBytes := r.value.book.heldBytes))
  {
    var h := s.handler;
    match h.pc
    case SubbingItems(b) =>
      Some(s.(book := SubItems(s.book, |b.items|), handler := h.(pc := SubbingBytes(b), released := h.released + 1)))
    case SubbingBytes(b) =>
      Some(s.(book := SubBytes(s.book, b.bytes), handler := h.(pc := StoringDone(b), releasedBytes := h.releasedBytes + 1)))
    case _ => None
  }

  /** then what is consumed counted, and the pipe woken when half a window is. */
  function CountStep(cfg: Config, s: State): (r: Option<State>)
    ensures r.Some? ==> r.value == s.(handler := r.value.handler, book := s.book.(done := r.value.book.done, consumed := r.value.book.consumed, wake := r.value.book.wake))
  {
    var h := s.handler;
    match h.pc
    case StoringDone(b) =>
      Some(s.(book := StoreDone(s.book, b.seqno), handler := h.(pc := AddingConsumed(b))))
    case AddingConsumed(b) =>
      var book := AddConsumed(s.book, |b.items|);
      Some(s.(book := book, handler := h.(pc := CheckingWake(b, book.consumed), counted := h.counted + 1)))
    case CheckingWake(b, consumed) =>
      Some(s.(book := CheckWake(s.book, cfg.window, consumed), handler := h.(pc := Polling)))
    case _ => None
  }

  predicate Draining(h: HandlerPc) {
    h.SubbingItems? || h.SubbingBytes?
  }

  /** The handler's stream has said its last and asks its input for nothing more; a `frame_done`
      it is in it still ends. */
  predicate Stops(cfg: Config, h: Handler) {
    h.said && !cfg.detached && !cfg.readsOn && (h.pc.Polling? || h.pc.Reading?)
  }

  /** `WireInput::poll_item`. */
  function PollStep(cfg: Config, s: State): Option<State> {
    if Stops(cfg, s.handler) then None
    else if s.handler.pc.Polling? then TakeStep(s)
    else if s.handler.pc.Reading? then ItemStep(cfg, s)
    else if Draining(s.handler.pc) then DrainStep(s)
    else CountStep(cfg, s)
  }

  /** The handler drops its input between two polls. */
  function LetGoStep(s: State): (r: Option<State>)
    ensures r.Some? ==> r.value == s.(handler := r.value.handler, book := r.value.book)
  {
    var h := s.handler;
    if h.pc.Polling? || h.pc.Reading? then
      Some(s.(handler := h.(pc := Gone), book := s.book.(abandoned := true, wake := true)))
    else if h.pc.AtEnd? || h.pc.Spoiled? then Some(s.(handler := h.(pc := Gone)))
    else None
  }

  /** Admission past verification: `DuplexCall::admit` from the mark on. */
  function Weigh(maxItems: nat, maxBytes: nat, items: nat, bytes: nat, credit: nat, a: Arrival): Option<Refusal> {
    match a
    case Bad(n, PastWindow) => Some(PastCredit(n, credit))
    case Bad(n, Sequence(expected)) => Some(OutOfSequence(n, expected))
    case Bad(n, Empty) => Some(InvalidInput(n))
    case Good(b) =>
      if b.items == [] then Some(InvalidInput(b.seqno))
      else if SatAdd(items, |b.items|) > credit then Some(PastCredit(b.seqno, credit))
      else if SatAdd(items, |b.items|) > maxItems then Some(TooMuchInput(false, maxItems))
      else if SatAdd(bytes, b.bytes) > maxBytes then Some(TooMuchInput(true, maxBytes))
      else None
  }

  /** The slot leaves the table, once no frame is being taken. */
  function Detach(slot: Slot): Slot {
    slot.(attached := false, open := false)
  }

  predicate AtSelect(a: Action) {
    a.Frame? || a.GateMoved? || a.Expire? || a.InputEnd? || a.Wake? || a.Output? || a.Cancel?
  }

  /** What the pipe finds at its select. */
  function SelectStep(s: State, a: Action): (r: Option<State>)
    requires AtSelect(a)
    ensures r.Some? ==> r.value == s.(slot := s.slot.(arrivals := r.value.slot.arrivals), book := r.value.book, call := r.value.call,
                                      pipe := r.value.pipe, handler := s.handler.(said := r.value.handler.said))
  {
    var p := s.pipe;
    if !p.pc.Select? then None
    else match a
    case Frame =>
      if !p.inboxOpen || s.slot.arrivals == [] then None
      else
        var f := s.slot.arrivals[0];
        var pc := if s.gen != s.call.seen then Now(Some(f), s.gen) else Admit(f, s.gen);
        Some(s.(slot := s.slot.(arrivals := s.slot.arrivals[1..]), pipe := p.(pc := pc, taken := p.taken + if f.Good? then 1 else 0)))
    case GateMoved =>
      if !p.inboxOpen || s.gen == s.call.seen then None
      else Some(s.(pipe := p.(pc := Now(None, s.gen))))
    case Expire =>
      if !p.inboxOpen then None
      else Some(s.(call := s.call.(closed := Some(Expired)), pipe := p.(pc := Turned(Refused(Expired)))))
    case InputEnd =>
      if !p.inboxOpen || s.slot.arrivals != [] || s.slot.open then None
      else Some(s.(pipe := p.(pc := Turned(Moved), inboxOpen := false)))
    case Wake =>
      if !s.book.wake then None
      else Some(s.(book := s.book.(wake := false), pipe := p.(pc := Turned(Moved))))
    case Output(t) =>
      if t.Moved? || t.Refused? then None
      else Some(s.(pipe := p.(pc := Turned(t)), handler := s.handler.(said := s.handler.said || t.SaidDone?)))
    case Cancel => Some(s.(pipe := p.(pc := Dropping)))
  }

  /** Verification and admission, inside one poll of the gate's stream. */
  function GateStep(cfg: Config, s: State, pass: bool): (r: Option<State>)
    ensures r.Some? ==> r.value == s.(call := r.value.call, pipe := r.value.pipe)
  {
    var p := s.pipe;
    var call := s.call;
    match p.pc
    case Now(f, at) => Some(s.(pipe := p.(pc := Ask(f, at, s.gen, 0))))
    case Ask(f, at, now, k) =>
      if k < Asks(cfg) then
        var call1 := call.(verdicts := call.verdicts + [Verdict(k, s.gen, pass)]);
        if pass then
          Some(s.(call := call1, pipe := p.(pc := Ask(f, at, now, k + 1))))
        else
          Some(s.(call := call1.(closed := Some(Gate)), pipe := p.(pc := Turned(Refused(Gate)))))
      else
        Some(s.(call := call.(seen := now), pipe := p.(pc := if f.Some? then Admit(f.value, at) else Select)))
    case Admit(a, at) =>
      (match Weigh(cfg.maxItems, cfg.maxBytes, call.items, call.bytes, call.credit, a)
       case Some(why) => Some(s.(call := call.(closed := Some(why)), pipe := p.(pc := Turned(Refused(why)))))
       case None =>
         Some(s.(call := call.(items := SatAdd(call.items, |a.batch.items|), bytes := SatAdd(call.bytes, a.batch.bytes),
                               admissions := call.admissions + [Admission(at, |call.verdicts|)]),
                 pipe := p.(pc := Turned(Moved), inbox := p.inbox + [a.batch], forwarded := p.forwarded + 1))))
    case _ => None
  }

  /** `Ledger::owed`, an atomic operation at a time: its reads, */
  function LookStep(cfg: Config, s: State): (r: Option<State>)
    ensures r.Some? ==> r.value == s.(pipe := s.pipe.(pc := r.value.pipe.pc))
  {
    var p := s.pipe;
    match p.pc
    case Finished(t) => Some(s.(pipe := p.(pc := Ended(t, s.book.finished))))
    case Ended(t, fin) => Some(s.(pipe := p.(pc := Holding(t, fin, s.book.ended))))
    case Holding(t, fin, end) =>
      Some(s.(pipe := p.(pc := if HeldBack(s.book, cfg.maxBuffered, fin, end) then After(t) else Doing(t, fin, end))))
    case Doing(t, fin, end) => Some(s.(pipe := p.(pc := Counting(t, fin, end, s.book.done))))
    case Counting(t, fin, end, done) =>
      var due := s.book.consumed - s.book.returned;
      Some(s.(pipe := p.(pc := if TooSoon(cfg.window, p.acked, fin, done, due) then After(t) else Storing(t, fin, end, done, s.book.consumed))))
    case _ => None
  }

  /** its write, and what is said of what it answered. */
  function SettleStep(s: State): (r: Option<State>)
    ensures r.Some? ==> r.value == s.(client := s.client.(down := r.value.client.down), book := r.value.book,
                                      call := s.call.(credit := r.value.call.credit), pipe := r.value.pipe)
  {
    var p := s.pipe;
    match p.pc
    case Storing(t, fin, end, done, consumed) =>
      if consumed < s.book.returned then None
      else
        var due := OwedFor(p.acked, fin, end, done, consumed - s.book.returned);
        Some(s.(book := s.book.(returned := consumed), pipe := p.(pc := SayAck(t, due))))
    case SayAck(t, due) =>
      var pc := if due.credit > 0 then Grant(t, due) else After(t);
      if due.ack.Some? then
        Some(s.(client := s.client.(down := s.client.down + [Ack(due.ack.value)]),
                pipe := p.(pc := pc, acked := due.done, acks := p.acks + [due.ack.value])))
      else Some(s.(pipe := p.(pc := pc, acked := due.done)))
    case Grant(t, due) => Some(s.(call := s.call.(credit := SatAdd(s.call.credit, due.credit)), pipe := p.(pc := SayCredit(t, due))))
    case SayCredit(t, due) =>
      Some(s.(client := s.client.(down := s.client.down + [Credit(due.credit)]), pipe := p.(pc := After(t))))
    case _ => None
  }

  predicate Looking(pc: Pc) {
    pc.Finished? || pc.Ended? || pc.Holding? || pc.Doing? || pc.Counting?
  }

  /** The first credit; and what the turn learned, a refusal of the handler's side taken up. */
  function BeginStep(cfg: Config, s: State): (r: Option<State>)
    ensures r.Some? ==> r.value == s.(client := s.client.(down := r.value.client.down), slot := s.slot.(attached := r.value.slot.attached, open := r.value.slot.open),
                                      book := r.value.book, pipe := r.value.pipe)
  {
    var p := s.pipe;
    match p.pc
    case Start => Some(s.(client := s.client.(down := s.client.down + [Credit(cfg.window)]), pipe := p.(pc := Select)))
    case Turned(t) =>
      if t.Failed? then
        if s.slot.reader.Idle? then Some(s.(slot := Detach(s.slot), pipe := p.(pc := Dropping))) else None
      else if !t.Refused? && s.book.refused && s.book.refusal.Some? then
        Some(s.(book := s.book.(refusal := None), pipe := p.(pc := Finished(Refused(InvalidInput(s.book.refusal.value))))))
      else Some(s.(pipe := p.(pc := Finished(t))))
    case _ => None
  }

  /** The input was let go with the half open: the slot and the inbox go. */
  predicate LetGoNow(s: State) {
    s.book.abandoned && s.slot.attached && !s.book.ended
  }

  /** The end of a turn, everything owed said. */
  function AfterStep(s: State): (r: Option<State>)
    ensures r.Some? ==> r.value == s.(slot := s.slot.(attached := r.value.slot.attached, open := r.value.slot.open), pipe := r.value.pipe)
  {
    var p := s.pipe;
    if !p.pc.After? || !s.slot.reader.Idle? then None
    else
      var t := p.pc.t;
      if t.Refused? then Some(s.(slot := Detach(s.slot), pipe := p.(pc := Dropping)))
      else
        var closes := LetGoNow(s) || t.SaidDone?;
        Some(s.(slot := if closes then Detach(s.slot) else s.slot,
                pipe := p.(inboxOpen := p.inboxOpen && !closes, pc := if t.SaidNothing? then Dropping else Select)))
  }

  /** The call's end: the handler's stream dropped, then the inbox and the slot. */
  function DropStep(cfg: Config, s: State): (r: Option<State>)
    ensures r.Some? ==> r.value == s.(slot := s.slot.(attached := r.value.slot.attached, open := r.value.slot.open),
                                      book := r.value.book,
                                      pipe := r.value.pipe, handler := s.handler.(pc := r.value.handler.pc))
  {
    var p := s.pipe;
    if p.pc.Dropping? then
      if cfg.detached then Some(s.(pipe := p.(pc := DroppingInbox)))
      else if MidFrame(s.handler.pc) then None
      else
        var abandon := s.handler.pc.Polling? || s.handler.pc.Reading?;
        Some(s.(pipe := p.(pc := DroppingInbox), handler := s.handler.(pc := Gone),
                book := if abandon then s.book.(abandoned := true, wake := true) else s.book))
    else if p.pc.DroppingInbox? && s.slot.reader.Idle? then
      Some(s.(slot := Detach(s.slot), pipe := p.(pc := Over, inboxOpen := false)))
    else None
  }

  /** The pipe's next atomic operation away from its select. */
  function PipeStep(cfg: Config, s: State, pass: bool): Option<State> {
    var pc := s.pipe.pc;
    if pc.Now? || pc.Ask? || pc.Admit? then GateStep(cfg, s, pass)
    else if pc.Start? || pc.Turned? then BeginStep(cfg, s)
    else if pc.After? then AfterStep(s)
    else if pc.Dropping? || pc.DroppingInbox? then DropStep(cfg, s)
    else if Looking(pc) then LookStep(cfg, s)
    else SettleStep(s)
  }

  function Next(cfg: Config, s: State, a: Action): Option<State> {
    match a
    case Send(_) => ClientStep(s, a)
    case SendEnd(_) => ClientStep(s, a)
    case Hear => ClientStep(s, a)
    case Read => ReadStep(cfg, s)
    case Poll => PollStep(cfg, s)
    case LetGo => LetGoStep(s)
    case Step(pass) => PipeStep(cfg, s, pass)
    case Move => Some(s.(gen := s.gen + 1))
    case _ => SelectStep(s, a)
  }

  /** The state after `run`; `None` when a step of it could not be taken. */
  function Run(cfg: Config, run: seq<Action>): Option<State> {
    if run == [] then Some(Init(cfg))
    else
      var before := Run(cfg, run[..|run| - 1]);
      if before.None? then None else Next(cfg, before.value, run[|run| - 1])
  }
}
