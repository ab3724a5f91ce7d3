/** Credit never stalls: what is owed has a wake on its way, and a quiet call leaves its client
    something to send. */
module DuplexWake {
  import opened Basics
  import opened Ledgers
  import opened Duplex
  import opened DuplexOrder
  import opened DuplexFlow

  /** Half a window is consumed and not granted, and nothing holds it back. */
  predicate Owing(cfg: Config, b: Book) {
    !b.finished && !b.ended && b.heldBytes < cfg.maxBuffered && b.consumed - b.returned >= Half(cfg.window)
  }

  /** Someone will say so: a wake is pending, or the handler is in a `frame_done`, which ends by
      looking. */
  predicate Awake(b: Book, h: HandlerPc) {
    b.wake || MidFrame(h)
  }

  /** The pipe will still read the ledger in this turn, or the call is over. */
  predicate WillLook(pc: Pc) {
    pc.Turned? || Looking(pc) || pc.Dropping? || pc.DroppingInbox? || pc.Over?
  }

  /** What the pipe decided on stands, or someone is awake to have it look again. */
  ghost predicate WakeInv(cfg: Config, b: Book, h: HandlerPc, pc: Pc) {
    && (h.CheckingWake? ==> h.consumed == b.consumed)
    && b.returned <= b.consumed
    && FlagsRead(pc, b)
    && (pc.Storing? && !b.finished ==> pc.consumed - b.returned >= Half(cfg.window) && (pc.consumed == b.consumed || Awake(b, h)))
    && (!WillLook(pc) && !pc.Storing? && Owing(cfg, b) ==> Awake(b, h))
  }

  ghost predicate WakeOk(cfg: Config, s: State) {
    WakeInv(cfg, s.book, s.handler.pc, s.pipe.pc)
  }

  lemma ReadKeepsWake(cfg: Config, s: State, s': State)
    requires ReadStep(cfg, s) == Some(s') && WakeOk(cfg, s)
    ensures WakeOk(cfg, s')
  {
  }

  lemma CountKeepsWake(cfg: Config, s: State, s': State)
    requires CountStep(cfg, s) == Some(s') && WakeOk(cfg, s)
    ensures WakeOk(cfg, s')
  {
  }

  lemma LetGoKeepsWake(cfg: Config, s: State, s': State)
    requires LetGoStep(s) == Some(s') && WakeOk(cfg, s)
    ensures WakeOk(cfg, s')
  {
  }

  lemma SelectKeepsWake(cfg: Config, s: State, s': State, a: Action)
    requires AtSelect(a)
    requires SelectStep(s, a) == Some(s') && WakeOk(cfg, s)
    ensures WakeOk(cfg, s')
  {
  }

  lemma LookKeepsWake(cfg: Config, s: State, s': State)
    requires LookStep(cfg, s) == Some(s') && WakeOk(cfg, s)
    ensures WakeOk(cfg, s')
  {
  }

  lemma SettleKeepsWake(cfg: Config, s: State, s': State)
    requires SettleStep(s) == Some(s') && WakeOk(cfg, s)
    ensures WakeOk(cfg, s')
  {
  }

  lemma PollKeepsWake(cfg: Config, s: State, s': State)
    requires PollStep(cfg, s) == Some(s') && WakeOk(cfg, s)
    ensures WakeOk(cfg, s')
  {
    if !s.handler.pc.Polling? && !s.handler.pc.Reading? && !Draining(s.handler.pc) {
      CountKeepsWake(cfg, s, s');
    }
  }

  lemma GateKeepsWake(cfg: Config, s: State, s': State, pass: bool)
    requires GateStep(cfg, s, pass) == Some(s') && WakeOk(cfg, s)
    ensures WakeOk(cfg, s')
  {
  }

  lemma TurnKeepsWake(cfg: Config, s: State, s': State)
    requires BeginStep(cfg, s) == Some(s') || AfterStep(s) == Some(s') || DropStep(cfg, s) == Some(s')
    requires WakeOk(cfg, s)
    ensures WakeOk(cfg, s')
  {
  }

  lemma PipeKeepsWake(cfg: Config, s: State, s': State, pass: bool)
    requires PipeStep(cfg, s, pass) == Some(s') && WakeOk(cfg, s)
    ensures WakeOk(cfg, s')
  {
    var pc := s.pipe.pc;
    if pc.Now? || pc.Ask? || pc.Admit? {
      GateKeepsWake(cfg, s, s', pass);
    } else if pc.Start? || pc.Turned? || pc.After? || pc.Dropping? || pc.DroppingInbox? {
      TurnKeepsWake(cfg, s, s');
    } else if Looking(pc) {
      LookKeepsWake(cfg, s, s');
    } else {
      SettleKeepsWake(cfg, s, s');
    }
  }

  lemma StepKeepsWake(cfg: Config, s: State, s': State, a: Action)
    requires Next(cfg, s, a) == Some(s') && WakeOk(cfg, s)
    ensures WakeOk(cfg, s')
  {
    match a
    case Send(_) =>
    case SendEnd(_) =>
    case Hear =>
    case Read => ReadKeepsWake(cfg, s, s');
    case Poll => PollKeepsWake(cfg, s, s');
    case LetGo => LetGoKeepsWake(cfg, s, s');
    case Step(pass) => PipeKeepsWake(cfg, s, s', pass);
    case Move =>
    case _ => SelectKeepsWake(cfg, s, s', a);
  }

  lemma {:induction false} RunKeepsWake(cfg: Config, run: seq<Action>, s: State)
    requires Run(cfg, run) == Some(s)
    ensures WakeOk(cfg, s)
  {
    if run != [] {
      var before := Run(cfg, run[..|run| - 1]).value;
      RunKeepsWake(cfg, run[..|run| - 1], before);
      StepKeepsWake(cfg, before, s, run[|run| - 1]);
    }
  }

  /** While the input runs, whenever the pipe waits at its select with half a window to grant and
      nothing held back, a wake is pending or the handler is about to give one. */
  lemma CreditIsNeverForgotten(cfg: Config, run: seq<Action>, s: State)
    requires Run(cfg, run) == Some(s) && s.pipe.pc.Select?
    requires !s.book.ended && !s.book.finished
    requires s.book.heldBytes < cfg.maxBuffered && s.book.consumed - s.book.returned >= Half(cfg.window)
    ensures s.book.wake || MidFrame(s.handler.pc)
  {
    RunKeepsWake(cfg, run, s);
  }

  // ----- Credit is held back -----

  /** The pipe found room to grant credit and has not gone back to its select since. */
  predicate Granting(pc: Pc) {
    match pc
    case Doing(_, fin, end) => !fin && !end
    case Counting(_, fin, end, _) => !fin && !end
    case Storing(_, fin, end, _, _) => !fin && !end
    case SayAck(_, due) => due.credit > 0
    case _ => pc.Grant? || pc.SayCredit?
  }

  ghost predicate GrantingAt(cfg: Config, run: seq<Action>, j: nat) {
    j <= |run| && Run(cfg, run[..j]).Some? && Granting(Run(cfg, run[..j]).value.pipe.pc)
  }

  /** Step `k` of a run is the pipe's read of what is held, which is under `maxBuffered` bytes. */
  ghost predicate ReadsRoom(cfg: Config, run: seq<Action>, k: nat) {
    && k < |run| && run[k].Step?
    && Run(cfg, run[..k]).Some?
    && Run(cfg, run[..k]).value.pipe.pc.Holding?
    && Run(cfg, run[..k]).value.book.heldBytes < cfg.maxBuffered
  }

  lemma LookGrants(cfg: Config, s: State, s': State)
    requires LookStep(cfg, s) == Some(s') && Granting(s'.pipe.pc)
    ensures Granting(s.pipe.pc) || (s.pipe.pc.Holding? && s.book.heldBytes < cfg.maxBuffered)
  {
  }

  lemma SettleGrants(s: State, s': State)
    requires SettleStep(s) == Some(s') && Granting(s'.pipe.pc)
    ensures Granting(s.pipe.pc)
  {
  }

  lemma PipeGrants(cfg: Config, s: State, pass: bool, s': State)
    requires PipeStep(cfg, s, pass) == Some(s') && Granting(s'.pipe.pc)
    ensures Granting(s.pipe.pc) || (s.pipe.pc.Holding? && s.book.heldBytes < cfg.maxBuffered)
  {
    var pc := s.pipe.pc;
    if pc.Now? || pc.Ask? || pc.Admit? || pc.Start? || pc.Turned? || pc.After? || pc.Dropping? || pc.DroppingInbox? {
    } else if Looking(pc) {
      LookGrants(cfg, s, s');
    } else {
      SettleGrants(s, s');
    }
  }

  lemma StepGrants(cfg: Config, s: State, a: Action, s': State)
    requires Next(cfg, s, a) == Some(s') && Granting(s'.pipe.pc)
    ensures Granting(s.pipe.pc) || (a.Step? && s.pipe.pc.Holding? && s.book.heldBytes < cfg.maxBuffered)
  {
    match a
    case Send(_) =>
    case SendEnd(_) =>
    case Hear =>
    case Read =>
    case Poll =>
    case LetGo =>
    case Step(pass) => PipeGrants(cfg, s, pass, s');
    case Move =>
    case _ =>
  }

  lemma GrantedBefore(cfg: Config, run: seq<Action>, n: nat)
    requires GrantingAt(cfg, run, n)
    ensures n > 0 && (GrantingAt(cfg, run, n - 1) || ReadsRoom(cfg, run, n - 1))
  {
    if n > 0 {
      var before := run[..n][..n - 1];
      assert before == run[..n - 1];
      StepGrants(cfg, Run(cfg, before).value, run[n - 1], Run(cfg, run[..n]).value);
    }
  }

  /** Credit is granted only in a turn in which the pipe read that fewer than `maxBuffered` bytes
      are held: a handler that does not keep up is sent no more. */
  lemma {:induction false} GrantFollowsRoom(cfg: Config, run: seq<Action>, n: nat) returns (k: nat)
    requires GrantingAt(cfg, run, n)
    ensures k < n && ReadsRoom(cfg, run, k)
    ensures forall j :: k < j <= n ==> GrantingAt(cfg, run, j)
  {
    GrantedBefore(cfg, run, n);
    if GrantingAt(cfg, run, n - 1) {
      k := GrantFollowsRoom(cfg, run, n - 1);
    } else {
      k := n - 1;
    }
  }

  // ----- The last word -----

  /** The pipe will say what is done by the end of this turn, or has said it. */
  predicate Says(done: nat, acked: nat, pc: Pc) {
    match pc
    case Ended(_, fin) => fin
    case Holding(_, fin, _) => fin
    case Doing(_, fin, _) => fin
    case Counting(_, fin, _, seen) => fin && seen == done
    case Storing(_, _, _, seen, _) => seen == done
    case SayAck(_, due) => due.done == done
    case _ => pc.Turned? || pc.Finished? || Ending(pc) || done <= acked
  }

  /** Past the end of the input nothing more is done, and what is has a wake to be said by. What
      is acknowledged is the last ack. */
  ghost predicate LastInv(b: Book, h: HandlerPc, p: Pipe) {
    && (b.finished ==> (h.AtEnd? || h.Gone?) && (b.wake || Says(b.done, p.acked, p.pc)))
    && (p.pc.SayAck? ==> p.pc.due.ack == if p.pc.due.done > p.acked then Some(p.pc.due.done - 1) else None)
    && (p.acked > 0 ==> p.acks != [] && p.acks[|p.acks| - 1] == p.acked - 1)
  }

  /** A refused item waits for the pipe with a wake, or has ended the call. */
  ghost predicate RefusedInv(b: Book, h: HandlerPc, pc: Pc) {
    && (h.Spoiled? ==> b.refused)
    && (b.refusal.Some? ==> b.refused && (b.wake || pc.Turned? || Ending(pc)))
    && (b.refused && b.refusal.None? ==> Ending(pc))
  }

  /** An input let go with the half open has a wake, or the turn under way ends by closing it. */
  predicate LetGoInv(b: Book, attached: bool, pc: Pc) {
    b.abandoned && !b.ended && attached ==> b.wake || TurnOf(pc).Some? || Ending(pc)
  }

  ghost predicate LastOk(s: State) {
    && LastInv(s.book, s.handler.pc, s.pipe)
    && RefusedInv(s.book, s.handler.pc, s.pipe.pc)
    && LetGoInv(s.book, s.slot.attached, s.pipe.pc)
  }

  lemma ReadKeepsLast(cfg: Config, s: State, s': State)
    requires ReadStep(cfg, s) == Some(s') && LastOk(s)
    ensures LastOk(s')
  {
  }

  lemma TakeKeepsLast(s: State, s': State)
    requires TakeStep(s) == Some(s') && LastOk(s)
    ensures LastOk(s')
  {
  }

  lemma ItemKeepsLast(cfg: Config, s: State, s': State)
    requires ItemStep(cfg, s) == Some(s') && LastOk(s)
    ensures LastOk(s')
  {
  }

  /** Inside `frame_done` the input has not ended. */
  lemma DoneKeepsLast(cfg: Config, s: State, s': State)
    requires DrainStep(s) == Some(s') || CountStep(cfg, s) == Some(s')
    requires LastOk(s)
    ensures LastOk(s')
  {
    assert !s.book.finished;
  }

  lemma LetGoKeepsLast(s: State, s': State)
    requires LetGoStep(s) == Some(s') && LastOk(s)
    ensures LastOk(s')
  {
  }

  lemma PollKeepsLast(cfg: Config, s: State, s': State)
    requires PollStep(cfg, s) == Some(s') && LastOk(s)
    ensures LastOk(s')
  {
    if s.handler.pc.Polling? {
      TakeKeepsLast(s, s');
    } else if s.handler.pc.Reading? {
      ItemKeepsLast(cfg, s, s');
    } else {
      DoneKeepsLast(cfg, s, s');
    }
  }

  lemma SelectKeepsLast(s: State, s': State, a: Action)
    requires AtSelect(a)
    requires SelectStep(s, a) == Some(s') && LastOk(s)
    ensures LastOk(s')
  {
  }

  lemma GateKeepsLast(cfg: Config, s: State, s': State, pass: bool)
    requires GateStep(cfg, s, pass) == Some(s') && LastOk(s)
    ensures LastOk(s')
  {
  }

  lemma LookKeepsLast(cfg: Config, s: State, s': State)
    requires LookStep(cfg, s) == Some(s') && LastOk(s)
    ensures LastOk(s')
  {
  }

  lemma SayAckKeepsLast(s: State, s': State)
    requires s.pipe.pc.SayAck? && SettleStep(s) == Some(s') && AckOk(s) && LastOk(s)
    ensures LastOk(s')
  {
  }

  lemma StoreKeepsLast(s: State, s': State)
    requires !s.pipe.pc.SayAck? && SettleStep(s) == Some(s') && AckOk(s) && LastOk(s)
    ensures LastOk(s')
  {
  }

  lemma SettleKeepsLast(s: State, s': State)
    requires SettleStep(s) == Some(s') && AckOk(s) && LastOk(s)
    ensures LastOk(s')
  {
    if s.pipe.pc.SayAck? {
      SayAckKeepsLast(s, s');
    } else {
      StoreKeepsLast(s, s');
    }
  }

  lemma TurnKeepsLast(cfg: Config, s: State, s': State)
    requires AfterStep(s) == Some(s') || DropStep(cfg, s) == Some(s')
    requires LastOk(s)
    ensures LastOk(s')
  {
  }

  lemma BeginKeepsLast(cfg: Config, s: State, s': State)
    requires BeginStep(cfg, s) == Some(s') && LastOk(s)
    ensures LastOk(s')
  {
  }

  lemma PipeKeepsLast(cfg: Config, s: State, s': State, pass: bool)
    requires PipeStep(cfg, s, pass) == Some(s') && AckOk(s) && LastOk(s)
    ensures LastOk(s')
  {
    var pc := s.pipe.pc;
    if pc.Now? || pc.Ask? || pc.Admit? {
      GateKeepsLast(cfg, s, s', pass);
    } else if pc.Start? || pc.Turned? {
      BeginKeepsLast(cfg, s, s');
    } else if pc.After? || pc.Dropping? || pc.DroppingInbox? {
      TurnKeepsLast(cfg, s, s');
    } else if Looking(pc) {
      LookKeepsLast(cfg, s, s');
    } else {
      SettleKeepsLast(s, s');
    }
  }

  lemma StepKeepsLast(cfg: Config, s: State, s': State, a: Action)
    requires Next(cfg, s, a) == Some(s') && AckOk(s) && LastOk(s)
    ensures LastOk(s')
  {
    match a
    case Send(_) =>
    case SendEnd(_) =>
    case Hear =>
    case Read => ReadKeepsLast(cfg, s, s');
    case Poll => PollKeepsLast(cfg, s, s');
    case LetGo => LetGoKeepsLast(s, s');
    case Step(pass) => PipeKeepsLast(cfg, s, s', pass);
    case Move =>
    case _ => SelectKeepsLast(s, s', a);
  }

  lemma {:induction false} RunKeepsLast(cfg: Config, run: seq<Action>, s: State)
    requires Sound(cfg) && Run(cfg, run) == Some(s)
    ensures LastOk(s)
  {
    if run != [] {
      var before := Run(cfg, run[..|run| - 1]).value;
      RunKeepsOrder(cfg, run[..|run| - 1], before);
      RunKeepsLast(cfg, run[..|run| - 1], before);
      StepKeepsLast(cfg, before, s, run[|run| - 1]);
    }
  }

  /** A handler that has seen its end is acknowledged in full, however little it was past the last
      ack: when the pipe waits at its select with no wake pending, the last ack it said names the
      last frame done. */
  lemma LastAckIsSaid(cfg: Config, run: seq<Action>, s: State)
    requires Sound(cfg) && Run(cfg, run) == Some(s)
    requires s.pipe.pc.Select? && !s.book.wake && s.book.finished
    ensures s.pipe.acked == s.book.done
    ensures s.book.done > 0 ==> s.pipe.acks != [] && s.pipe.acks[|s.pipe.acks| - 1] == s.book.done - 1
  {
    RunKeepsLast(cfg, run, s);
    RunKeepsOrder(cfg, run, s);
  }

  /** An input its handler let go closes the half: the pipe waits at its select with one let go
      and the slot still there only while a wake is pending, or where the client had ended it. */
  lemma LettingGoIsNeverForgotten(cfg: Config, run: seq<Action>, s: State)
    requires Sound(cfg) && Run(cfg, run) == Some(s)
    requires s.pipe.pc.Select? && s.book.abandoned && !s.book.wake && !s.book.ended
    ensures !s.slot.attached
  {
    RunKeepsLast(cfg, run, s);
  }

  /** And a refused item ends its call: the pipe waits at its select with one refused only while
      the wake that tells of it is pending. */
  lemma RefusalIsNeverForgotten(cfg: Config, run: seq<Action>, s: State)
    requires Sound(cfg) && Run(cfg, run) == Some(s)
    ensures s.handler.pc.Spoiled? && s.pipe.pc.Select? ==> s.book.refusal.Some? && s.book.wake
    ensures s.book.refused && s.book.refusal.None? ==> Ending(s.pipe.pc)
  {
    RunKeepsLast(cfg, run, s);
  }

  /** The whole call is quiet: nothing in flight, nothing held, nobody about to do anything. */
  predicate Quiet(s: State) {
    && s.pipe.pc.Select? && !s.book.wake && !MidFrame(s.handler.pc) && s.slot.reader.Idle?
    && s.client.up == [] && s.client.down == [] && s.book.heldItems == 0
  }

  lemma LevelBetweenPolls(acc: seq<Batch>, h: Handler, done: nat)
    requires HandlerInv(acc, h, done) && !MidFrame(h.pc)
    ensures h.counted == h.released == h.releasedBytes
  {
  }

  /** A ledger that holds no item holds no byte: every frame is of something. */
  lemma NothingHeld(acc: seq<Batch>, h: Handler, items: int, bytes: int, consumed: int, window: nat)
    requires BookInv(window, acc, Idle, h, items, bytes, consumed)
    requires forall i :: 0 <= i < |acc| ==> acc[i].items != []
    requires h.counted == h.released == h.releasedBytes && items == 0
    ensures bytes == 0 && consumed == Count(acc, |acc|)
  {
    if h.released < |acc| {
      SumsGrow(acc, h.released + 1, |acc|);
    }
  }

  lemma SpareWhenQuiet(cfg: Config, s: State)
    requires SlotOk(s) && HandlerOk(s)
    requires BookOk(cfg, s)
    requires CreditOk(cfg, s)
    requires PlanOk(s)
    requires Owing(cfg, s.book) ==> Awake(s.book, s.handler.pc)
    requires cfg.maxBuffered >= 1 && s.client.obedient && s.slot.open
    requires !s.book.ended && !s.book.finished && Quiet(s)
    ensures s.client.told - Count(s.client.log, |s.client.log|) > cfg.window - Half(cfg.window)
  {
    var acc, log := s.slot.accepted, s.client.log;
    LevelBetweenPolls(acc, s.handler, s.book.done);
    NothingHeld(acc, s.handler, s.book.heldItems, s.book.heldBytes, s.book.consumed, cfg.window);
    assert |log| == |acc|;
    SameSums(acc, log, |acc|);
  }

  /** Then the client of a running input has at least half a window it may send. */
  lemma QuietLeavesCredit(cfg: Config, run: seq<Action>, s: State)
    requires Sound(cfg) && cfg.window >= 1 && cfg.maxBuffered >= 1
    requires Run(cfg, run) == Some(s)
    ensures s.client.obedient && s.slot.open && !s.book.ended && !s.book.finished && Quiet(s) ==>
              s.client.told - Count(s.client.log, |s.client.log|) > cfg.window - Half(cfg.window) >= 0
  {
    if s.client.obedient && s.slot.open && !s.book.ended && !s.book.finished && Quiet(s) {
      RunKeepsOrder(cfg, run, s);
      RunKeepsFlow(cfg, run, s);
      RunKeepsWake(cfg, run, s);
      SpareWhenQuiet(cfg, s);
    }
  }
}
