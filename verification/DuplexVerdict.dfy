/** No frame is admitted on a stale verdict, and a move of the generation costs one check a
    target. */
module DuplexVerdict {
  import opened Basics
  import opened Duplex
  import opened DuplexOrder

  /** The last `n` checks are of targets 0, 1, …, passed, and none was made before generation
      `since`. */
  ghost predicate Passed(verdicts: seq<Verdict>, n: nat, since: nat) {
    && n <= |verdicts|
    && forall j :: |verdicts| - n <= j < |verdicts| ==>
         verdicts[j].target == j - (|verdicts| - n) && verdicts[j].pass && since <= verdicts[j].gen
  }

  /** What a verdict rests on: the checks of the last re-verification, or the decision the call
      opened on, each made at or after generation `since`. */
  ghost predicate Rests(cfg: Config, verdicts: seq<Verdict>, since: nat) {
    if verdicts == [] then since <= cfg.rest0 || Asks(cfg) == 0 else Passed(verdicts, Asks(cfg), since)
  }

  /** Every admission so far rests on verdicts no older than the generation it read. */
  ghost predicate Admitted(cfg: Config, verdicts: seq<Verdict>, admissions: seq<Admission>) {
    forall i :: 0 <= i < |admissions| ==>
      admissions[i].checks <= |verdicts| && Rests(cfg, verdicts[..admissions[i].checks], admissions[i].at)
  }

  /** Checks made: a full round for each generation seen, and the round under way. */
  predicate Rounds(cfg: Config, seen: nat, gate: bool, checks: nat, pc: Pc, gen: nat)
    requires cfg.seen0 <= seen <= gen
  {
    checks <= if gate then Asks(cfg) * (gen - cfg.seen0) else Asks(cfg) * (seen - cfg.seen0) + (if pc.Ask? then pc.k else 0)
  }

  ghost predicate VerdictInv(cfg: Config, seen: nat, closed: Option<Refusal>, verdicts: seq<Verdict>, admissions: seq<Admission>, pc: Pc, gen: nat) {
    && cfg.seen0 <= seen <= gen
    && (closed.Some? ==> Ending(pc))
    && (closed.None? && !pc.Ask? ==> Rests(cfg, verdicts, seen))
    && Admitted(cfg, verdicts, admissions)
    && (pc.Now? ==> seen < pc.at <= gen)
    && (pc.Ask? ==> seen < pc.at <= pc.now <= gen && pc.k <= Asks(cfg) && Passed(verdicts, pc.k, pc.now))
    && (pc.Admit? ==> pc.at <= seen)
    && Rounds(cfg, seen, closed == Some(Gate), |verdicts|, pc, gen)
  }

  ghost predicate VerdictOk(cfg: Config, s: State) {
    VerdictInv(cfg, s.call.seen, s.call.closed, s.call.verdicts, s.call.admissions, s.pipe.pc, s.gen)
  }

  lemma PassedPush(verdicts: seq<Verdict>, n: nat, since: nat, v: Verdict)
    requires Passed(verdicts, n, since) && v == Verdict(n, v.gen, true) && since <= v.gen
    ensures Passed(verdicts + [v], n + 1, since)
  {
  }

  /** A check leaves the admissions before it resting on what they rested on. */
  lemma AdmissionsStand(cfg: Config, verdicts: seq<Verdict>, admissions: seq<Admission>, v: Verdict)
    requires Admitted(cfg, verdicts, admissions)
    ensures Admitted(cfg, verdicts + [v], admissions)
  {
  }

  lemma {:induction false} Spread(a: nat, x: nat, y: nat)
    requires x < y
    ensures a * x + a <= a * y
  {
    if x + 1 < y {
      Spread(a, x, y - 1);
    }
    assert a * y == a * (y - 1) + a;
  }

  lemma AskKeepsVerdict(cfg: Config, s: State, s': State, pass: bool)
    requires s.pipe.pc.Ask? && GateStep(cfg, s, pass) == Some(s')
    requires VerdictOk(cfg, s)
    ensures VerdictOk(cfg, s')
  {
    var pc := s.pipe.pc;
    var v := Verdict(pc.k, s.gen, pass);
    Spread(Asks(cfg), s.call.seen - cfg.seen0, pc.now - cfg.seen0);
    Spread(Asks(cfg), s.call.seen - cfg.seen0, s.gen - cfg.seen0);
    if pc.k < Asks(cfg) {
      AdmissionsStand(cfg, s.call.verdicts, s.call.admissions, v);
      if pass {
        PassedPush(s.call.verdicts, pc.k, pc.now, v);
      }
    }
  }

  lemma AdmitKeepsVerdict(cfg: Config, s: State, s': State, pass: bool)
    requires s.pipe.pc.Admit? && GateStep(cfg, s, pass) == Some(s')
    requires VerdictOk(cfg, s)
    ensures VerdictOk(cfg, s')
  {
  }

  lemma NowKeepsVerdict(cfg: Config, s: State, s': State, pass: bool)
    requires s.pipe.pc.Now? && GateStep(cfg, s, pass) == Some(s')
    requires VerdictOk(cfg, s)
    ensures VerdictOk(cfg, s')
  {
  }

  /** Away from the gate the pipe leaves the call's verdicts as they are. */
  lemma TurnKeepsVerdict(cfg: Config, s: State, s': State)
    requires BeginStep(cfg, s) == Some(s') || AfterStep(s) == Some(s') || DropStep(cfg, s) == Some(s')
    requires VerdictOk(cfg, s)
    ensures VerdictOk(cfg, s')
  {
  }

  lemma TalkKeepsVerdict(cfg: Config, s: State, s': State)
    requires LookStep(cfg, s) == Some(s') || SettleStep(s) == Some(s')
    requires VerdictOk(cfg, s)
    ensures VerdictOk(cfg, s')
  {
  }

  lemma SelectKeepsVerdict(cfg: Config, s: State, s': State, a: Action)
    requires AtSelect(a)
    requires SelectStep(s, a) == Some(s')
    requires VerdictOk(cfg, s)
    ensures VerdictOk(cfg, s')
  {
  }

  lemma StepKeepsVerdict(cfg: Config, s: State, s': State, a: Action)
    requires Next(cfg, s, a) == Some(s')
    requires VerdictOk(cfg, s)
    ensures VerdictOk(cfg, s')
  {
    match a
    case Send(_) =>
    case SendEnd(_) =>
    case Hear =>
    case Read =>
    case Poll =>
    case LetGo =>
    case Step(pass) =>
      var pc := s.pipe.pc;
      if pc.Now? {
        NowKeepsVerdict(cfg, s, s', pass);
      } else if pc.Ask? {
        AskKeepsVerdict(cfg, s, s', pass);
      } else if pc.Admit? {
        AdmitKeepsVerdict(cfg, s, s', pass);
      } else if pc.Start? || pc.Turned? || pc.After? || pc.Dropping? || pc.DroppingInbox? {
        TurnKeepsVerdict(cfg, s, s');
      } else {
        TalkKeepsVerdict(cfg, s, s');
      }
    case Move => Spread(Asks(cfg), s.gen - cfg.seen0, s'.gen - cfg.seen0);
    case _ => SelectKeepsVerdict(cfg, s, s', a);
  }

  lemma {:induction false} RunKeepsVerdict(cfg: Config, run: seq<Action>, s: State)
    requires Sound(cfg) && Run(cfg, run) == Some(s)
    ensures VerdictOk(cfg, s)
  {
    if run != [] {
      var before := Run(cfg, run[..|run| - 1]).value;
      RunKeepsVerdict(cfg, run[..|run| - 1], before);
      StepKeepsVerdict(cfg, before, s, run[|run| - 1]);
    }
  }

  /** Each frame of a rechecked call is admitted on the call's every check passed, each made no
      earlier than the generation the admission read: after the last move before that read. With
      no check made since, it rests on the decision the call opened on, and the same holds. */
  lemma NoStaleAdmission(cfg: Config, run: seq<Action>, s: State, i: nat)
    requires Sound(cfg) && cfg.recheck
    requires Run(cfg, run) == Some(s) && i < |s.call.admissions|
    ensures var a := s.call.admissions[i];
            && a.checks <= |s.call.verdicts|
            && if a.checks == 0 then a.at <= cfg.rest0
               else Max(1, cfg.targets) <= a.checks && forall k :: a.checks - Max(1, cfg.targets) <= k < a.checks ==>
                      s.call.verdicts[k].pass && a.at <= s.call.verdicts[k].gen
                      && s.call.verdicts[k].target == k - (a.checks - Max(1, cfg.targets))
  {
    RunKeepsVerdict(cfg, run, s);
    assert Rests(cfg, s.call.verdicts[..s.call.admissions[i].checks], s.call.admissions[i].at);
  }

  /** Re-verification asks the gate at most once a target for each move since the call's decision
      was begun, and never for a call the gate admits whoever calls. */
  lemma ChecksAreBounded(cfg: Config, run: seq<Action>, s: State)
    requires Sound(cfg) && Run(cfg, run) == Some(s)
    ensures cfg.seen0 <= s.gen && |s.call.verdicts| <= Asks(cfg) * (s.gen - cfg.seen0)
  {
    RunKeepsVerdict(cfg, run, s);
    var pc := s.pipe.pc;
    if s.call.seen < s.gen {
      Spread(Asks(cfg), s.call.seen - cfg.seen0, s.gen - cfg.seen0);
    }
  }
}
