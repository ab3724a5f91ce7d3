/** One open duplex call, as its fields are updated: `DuplexGate` and `DuplexCall` of
    src/plexus/duplex_gate.rs, a method of theirs at a time. */
module Calls {
  import opened Basics
  import opened Duplex

  /** The gate as one call finds it: its generation, and the targets (`None`: the grant alone)
      it passes the caller on. */
  class DuplexGate {
    var generation: nat
    var passes: set<Option<string>>
    var checks: nat

    constructor (generation: nat, passes: set<Option<string>>)
      ensures this.generation == generation && this.passes == passes && checks == 0
    {
      this.generation, this.passes, checks := generation, passes, 0;
    }

    method Check(target: Option<string>) returns (pass: bool)
      modifies this`checks
      ensures pass == (target in passes) && checks == old(checks) + 1
    {
      checks := checks + 1;
      pass := target in passes;
    }
  }

  /** What re-verification asks: every target, or the grant alone. */
  function Asked(recheck: bool, targets: seq<string>): seq<Option<string>> {
    if !recheck then [] else if targets == [] then [None] else seq(|targets|, i requires 0 <= i < |targets| => Some(targets[i]))
  }

  /** How many checks are made before the first that fails, that one included. */
  function Made(asked: seq<Option<string>>, passes: set<Option<string>>): (n: nat)
    ensures n <= |asked|
    ensures n == |asked| || (0 < n && asked[n - 1] !in passes)
    ensures forall i :: 0 <= i < n - 1 ==> asked[i] in passes
  {
    if asked == [] then 0 else if asked[0] !in passes then 1 else 1 + Made(asked[1..], passes)
  }

  predicate AllPass(asked: seq<Option<string>>, passes: set<Option<string>>) {
    forall i :: 0 <= i < |asked| ==> asked[i] in passes
  }

  /** What is asked of a call that is rechecked: each of its targets, or the grant alone where it
      has none, in order up to the first that fails. */
  lemma AskedSays(recheck: bool, targets: seq<string>, passes: set<Option<string>>)
    ensures AllPass(Asked(recheck, targets), passes) <==>
              || !recheck
              || (targets == [] && None in passes)
              || (targets != [] && forall t :: t in targets ==> Some(t) in passes)
    ensures var made := Made(Asked(recheck, targets), passes);
            && (!recheck ==> made == 0)
            && (recheck && targets == [] ==> made == 1)
            && (recheck && targets != [] && (forall t :: t in targets ==> Some(t) in passes) ==> made == |targets|)
            && (recheck && targets != [] && (exists t :: t in targets && Some(t) !in passes) ==>
                  && 1 <= made <= |targets| && Some(targets[made - 1]) !in passes
                  && forall i :: 0 <= i < made - 1 ==> Some(targets[i]) in passes)
  {
    var asked := Asked(recheck, targets);
    if recheck && targets == [] {
      assert asked[0] == None;
    } else if recheck {
      var made := Made(asked, passes);
      assert forall i :: 0 <= i < |targets| ==> asked[i] == Some(targets[i]);
      if t :| t in targets && Some(t) !in passes {
        var i :| 0 <= i < |targets| && targets[i] == t;
        assert asked[i] !in passes;
        assert Some(targets[made - 1]) == asked[made - 1];
      } else {
        assert forall i :: 0 <= i < |targets| ==> targets[i] in targets;
      }
    }
  }

  datatype Answer = Admitted | NotThisCall | InputClosed | Ends(why: Refusal)

  /** Whether a refusal ends the input half. */
  predicate EndsInput(a: Answer) {
    a.InputClosed? || a.Ends?
  }

  class DuplexCall {
    const gate: DuplexGate
    const conn: nat
    const recheck: bool
    const targets: seq<string>
    const maxItems: nat
    const maxBytes: nat
    var seen: nat
    var credit: nat
    var items: nat
    var bytes: nat
    var closed: Option<Refusal>

    /** `DuplexGate::admitted`: a call the dispatch has decided, `seen` read before it did. */
    constructor (gate: DuplexGate, conn: nat, recheck: bool, targets: seq<string>, seen: nat, credit: nat, maxItems: nat, maxBytes: nat)
      ensures this.gate == gate && this.conn == conn && this.recheck == recheck && this.targets == targets
      ensures this.maxItems == maxItems && this.maxBytes == maxBytes
      ensures this.seen == seen && this.credit == credit && items == 0 && bytes == 0 && closed == None
    {
      this.gate, this.conn, this.recheck, this.targets := gate, conn, recheck, targets;
      this.maxItems, this.maxBytes := maxItems, maxBytes;
      this.seen, this.credit, items, bytes, closed := seen, credit, 0, 0, None;
    }

    /** `CreditLine::grant`: saturating. */
    method GrantCredit(n: nat)
      modifies this`credit
      ensures credit == SatAdd(old(credit), n)
    {
      credit := SatAdd(credit, n);
    }

    /** The caller verified again: the checks in order, to the first that fails. What passes is the
        grant on every target, or the grant alone where there is none. */
    method Reverify() returns (r: Option<Refusal>)
      modifies this`seen, this`closed, gate`checks
      ensures r.None? <==>
                || !recheck
                || (targets == [] && None in gate.passes)
                || (targets != [] && forall t :: t in targets ==> Some(t) in gate.passes)
      ensures var made := gate.checks - old(gate.checks);
                && (!recheck ==> made == 0)
                && (recheck && targets == [] ==> made == 1)
                && (recheck && targets != [] && r.None? ==> made == |targets|)
                && (recheck && targets != [] && r.Some? ==>
                      && 1 <= made <= |targets| && Some(targets[made - 1]) !in gate.passes
                      && forall i :: 0 <= i < made - 1 ==> Some(targets[i]) in gate.passes)
      ensures r.None? <==> AllPass(Asked(recheck, targets), gate.passes)
      ensures r.None? ==> seen == gate.generation && closed == old(closed)
      ensures r.Some? ==> r.value == Gate && closed == r && seen == old(seen)
      ensures gate.checks == old(gate.checks) + Made(Asked(recheck, targets), gate.passes)
    {
      var now := gate.generation;
      ghost var asked := Asked(recheck, targets);
      AskedSays(recheck, targets, gate.passes);
      var pass := true;
      if recheck {
        if targets == [] {
          pass := gate.Check(None);
          assert asked[0] == None;
        } else {
          var i := 0;
          while pass && i < |targets|
            invariant 0 <= i <= |targets|
            invariant gate.checks == old(gate.checks) + i && seen == old(seen) && closed == old(closed)
            invariant pass ==> forall j :: 0 <= j < i ==> asked[j] in gate.passes
            invariant !pass ==> i > 0 && asked[i - 1] !in gate.passes && forall j :: 0 <= j < i - 1 ==> asked[j] in gate.passes
          {
            pass := gate.Check(Some(targets[i]));
            i := i + 1;
          }
          if !pass {
            assert asked[i - 1] !in gate.passes;
          }
        }
      }
      if pass {
        seen := now;
        return None;
      }
      closed := Some(Gate);
      return closed;
    }

    /** The sign-in's expiry: no check is asked. */
    method Expire()
      modifies this`closed
      ensures closed == Some(Expired)
    {
      closed := Some(Expired);
    }

    /** One frame: refused with nothing changed when the half is closed or the frame another
        connection's. Else the caller's grants decide it where the generation moved; then it is
        admitted exactly when it is a batch of something, within the credit and both ceilings, and
        each refusal says its cause. What is refused to the call closes it and counts nothing. */
    method Admit(from: nat, a: Arrival) returns (r: Answer)
      modifies this`seen, this`closed, this`items, this`bytes, gate`checks
      ensures old(closed).None? && from == conn ==>
                var stands := gate.generation == old(seen) || !recheck
                              || (targets == [] && None in gate.passes)
                              || (targets != [] && forall t :: t in targets ==> Some(t) in gate.passes);
                && (r.Admitted? <==>
                      && stands && a.Good? && a.batch.items != []
                      && SatAdd(old(items), |a.batch.items|) <= credit
                      && SatAdd(old(items), |a.batch.items|) <= maxItems
                      && SatAdd(old(bytes), a.batch.bytes) <= maxBytes)
                && (!stands ==> r == Ends(Gate))
                && (stands && a.Bad? && a.why.PastWindow? ==> r == Ends(PastCredit(a.seqno, credit)))
                && (stands && a.Bad? && a.why.Sequence? ==> r == Ends(OutOfSequence(a.seqno, a.why.expected)))
                && (stands && a.Bad? && a.why.Empty? ==> r == Ends(InvalidInput(a.seqno)))
                && (stands && a.Good? && a.batch.items == [] ==> r == Ends(InvalidInput(a.batch.seqno)))
                && (stands && a.Good? && a.batch.items != [] ==>
                      var sent, sized := SatAdd(old(items), |a.batch.items|), SatAdd(old(bytes), a.batch.bytes);
                      && (sent > credit ==> r == Ends(PastCredit(a.batch.seqno, credit)))
                      && (sent <= credit && sent > maxItems ==> r == Ends(TooMuchInput(false, maxItems)))
                      && (sent <= credit && sent <= maxItems && sized > maxBytes ==> r == Ends(TooMuchInput(true, maxBytes))))
                && closed == (if r.Admitted? then None else Some(r.why))
      ensures old(closed).Some? ==> r == InputClosed
      ensures old(closed).None? && from != conn ==> r == NotThisCall
      ensures !EndsInput(r) && !r.Admitted? ==> closed == old(closed)
      ensures r.InputClosed? || r.NotThisCall? ==>
                seen == old(seen) && closed == old(closed) && items == old(items) && bytes == old(bytes) && gate.checks == old(gate.checks)
      ensures old(closed).None? && from == conn ==>
                var asks := gate.generation != old(seen);
                var passes := AllPass(Asked(recheck, targets), gate.passes);
                var why := if asks && !passes then Some(Gate) else Weigh(maxItems, maxBytes, old(items), old(bytes), credit, a);
                && r == (if why.Some? then Ends(why.value) else Admitted)
                && closed == why
                && gate.checks == old(gate.checks) + (if asks then Made(Asked(recheck, targets), gate.passes) else 0)
                && seen == (if asks && passes then gate.generation else old(seen))
      ensures r.Admitted? ==> a.Good? && items == SatAdd(old(items), |a.batch.items|) && bytes == SatAdd(old(bytes), a.batch.bytes)
      ensures !r.Admitted? ==> items == old(items) && bytes == old(bytes)
      ensures r.Admitted? ==> seen == gate.generation && items <= credit && items <= maxItems && bytes <= maxBytes
    {
      if closed.Some? {
        return InputClosed;
      }
      if from != conn {
        return NotThisCall;
      }
      if gate.generation != seen {
        var again := Reverify();
        if again.Some? {
          return Ends(again.value);
        }
      }
      var why := Weigh(maxItems, maxBytes, items, bytes, credit, a);
      if why.Some? {
        closed := why;
        return Ends(why.value);
      }
      items := SatAdd(items, |a.batch.items|);
      bytes := SatAdd(bytes, a.batch.bytes);
      return Admitted;
    }
  }

  // ----- The protocol's gate, uninterrupted, is `Reverify` and `Admit` -----

  /** The steps of the gate from where it is to the end of its turn, nothing in between, each check
      answered by `passes`. */
  function GateRun(cfg: Config, s: State, asked: seq<Option<string>>, passes: set<Option<string>>): State
    decreases
      if s.pipe.pc.Now? then 3 else if s.pipe.pc.Ask? then 2 else if s.pipe.pc.Admit? then 1 else 0,
      if s.pipe.pc.Ask? then Asks(cfg) - s.pipe.pc.k else 0
  {
    var pc := s.pipe.pc;
    var r := GateStep(cfg, s, pc.Ask? && pc.k < |asked| && asked[pc.k] in passes);
    if r.None? then s else GateRun(cfg, r.value, asked, passes)
  }

  /** The call after a re-verification at generation `now`, and where the gate goes on. */
  ghost predicate Reverified(s: State, s': State, f: Option<Arrival>, at: nat, now: nat, pass: bool, made: int) {
    && |s'.call.verdicts| == |s.call.verdicts| + made
    && s'.call.(verdicts := s.call.verdicts) == s.call.(seen := if pass then now else s.call.seen, closed := if pass then s.call.closed else Some(Gate))
    && s' == s.(call := s'.call, pipe := s.pipe.(pc := if !pass then Turned(Refused(Gate)) else if f.Some? then Admit(f.value, at) else Select))
  }

  lemma {:induction false} AsksOn(cfg: Config, s: State, asked: seq<Option<string>>, passes: set<Option<string>>) returns (s': State)
    requires s.pipe.pc.Ask? && |asked| == Asks(cfg) && s.pipe.pc.k <= |asked|
    requires forall i :: 0 <= i < s.pipe.pc.k ==> asked[i] in passes
    ensures Reverified(s, s', s.pipe.pc.f, s.pipe.pc.at, s.pipe.pc.now, AllPass(asked, passes), Made(asked, passes) - s.pipe.pc.k)
    ensures GateRun(cfg, s, asked, passes) == GateRun(cfg, s', asked, passes)
    decreases |asked| - s.pipe.pc.k
  {
    var k := s.pipe.pc.k;
    s' := GateStep(cfg, s, k < |asked| && asked[k] in passes).value;
    if k < |asked| && asked[k] in passes {
      s' := AsksOn(cfg, s', asked, passes);
    }
  }

  /** A re-verification of the protocol, its checks made with nothing between, does to the call
      what `Reverify` does, check for check. */
  lemma ReverifyIsItsSteps(cfg: Config, s: State, targets: seq<string>, passes: set<Option<string>>) returns (s': State)
    requires s.pipe.pc.Now? && |targets| == cfg.targets
    ensures var asked := Asked(cfg.recheck, targets);
            && Reverified(s, s', s.pipe.pc.f, s.pipe.pc.at, s.gen, AllPass(asked, passes), Made(asked, passes))
            && GateRun(cfg, s, asked, passes) == GateRun(cfg, s', asked, passes)
  {
    s' := AsksOn(cfg, GateStep(cfg, s, false).value, Asked(cfg.recheck, targets), passes);
  }

  /** A frame taken up and stepped through the gate with nothing between leaves the call as `Admit`
      does, whose weighing is the protocol's. */
  lemma AdmitIsItsSteps(cfg: Config, s: State, targets: seq<string>, passes: set<Option<string>>)
    requires |targets| == cfg.targets && s.call.closed.None? && SelectStep(s, Frame).Some?
    ensures var asked, a, call := Asked(cfg.recheck, targets), s.slot.arrivals[0], s.call;
            var s' := GateRun(cfg, SelectStep(s, Frame).value, asked, passes);
            var asks := s.gen != call.seen;
            var pass := AllPass(asked, passes);
            var why := if asks && !pass then Some(Gate) else Weigh(cfg.maxItems, cfg.maxBytes, call.items, call.bytes, call.credit, a);
            && s'.pipe.pc == Turned(if why.Some? then Refused(why.value) else Moved)
            && s'.call.closed == why
            && |s'.call.verdicts| == |call.verdicts| + (if asks then Made(asked, passes) else 0)
            && s'.call.seen == (if asks && pass then s.gen else call.seen)
            && s'.call.items == (if why.None? then SatAdd(call.items, |a.batch.items|) else call.items)
            && s'.call.bytes == (if why.None? then SatAdd(call.bytes, a.batch.bytes) else call.bytes)
            && s'.pipe.inbox == s.pipe.inbox + (if why.None? then [a.batch] else [])
  {
    var s1 := SelectStep(s, Frame).value;
    if s.gen != s.call.seen {
      var s2 := ReverifyIsItsSteps(cfg, s1, targets, passes);
    }
  }
}
