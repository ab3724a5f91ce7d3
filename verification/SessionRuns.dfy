/**
 * Any run of the backend of Sessions: sessions of the code flow come one for one from completed
 * browser sign-ins, those from browser starts; and a sign-out ends exactly the session it names.
 */
module SessionRuns {
  import opened Basics
  import opened Sessions

  datatype Done = Done(state: string, code: string, principal: string, name: Option<string>, at: int)
  datatype Trade = Trade(code: string, state: string, at: int, token: string, session: Rec)

  /** The backend, the fresh texts given out so far, and what happened. */
  datatype Run = Run(
    store: Store,
    used: set<string>,
    starts: seq<string>,
    done: seq<Done>,
    taken: nat,
    trades: seq<Trade>)

  datatype Action =
    | Browser(redirect: string, made: string)
    | Complete(state: string, principal: string, name: Option<string>, made: string, now: int)
    | TradeIn(code: string, state: string, given: Given)
    | Password(username: string, password: string, given: Given)
    | Derive(caller: Option<Context>, ttl: Option<nat>, ceiling: Option<seq<string>>, given: Given)
    | Web(principal: string, name: Option<string>, agent: Option<string>, ttl: Option<nat>, layers: seq<seq<string>>, given: Given)
    | Leave(who: Context)

  function Begin(users: map<string, User>): Run {
    Run(Store(users, map[], map[], map[]), {}, [], [], 0, [])
  }

  /** The texts a call makes fresh. */
  function Fresh(a: Action): set<string> {
    match a
    case Browser(_, made) => {made}
    case Complete(_, _, _, made, _) => {made}
    case TradeIn(_, _, g) => {g.token, g.id}
    case Password(_, _, g) => {g.token, g.id}
    case Derive(_, _, _, g) => {g.token, g.id}
    case Web(_, _, _, _, _, g) => {g.token, g.id}
    case Leave(_) => {}
  }

  predicate IsFresh(r: Run, a: Action) {
    Fresh(a) !! r.used && (a.TradeIn? || a.Password? || a.Derive? || a.Web? ==> a.given.token != a.given.id)
  }

  function BrowserStep(r: Run, redirect: string, state: string): Run {
    var (s, answer) := LoginBrowser(r.store, redirect, state);
    r.(store := s, starts := if answer.LoginUrl? then r.starts + [state] else r.starts)
  }

  function CompleteStep(c: Config, r: Run, state: string, principal: string, name: Option<string>, code: string, now: int): Run {
    var (s, failure) := CompleteBrowser(c, r.store, state, principal, name, code, now);
    r.(store := s, done := if failure.None? then r.done + [Done(state, code, principal, name, now)] else r.done)
  }

  function TradeStep(c: Config, r: Run, code: string, state: string, g: Given): Run {
    var (s, answer) := LoginCode(c, r.store, code, state, g);
    r.(store := s,
       taken := if code in r.store.codes then r.taken + 1 else r.taken,
       trades := if answer.Signed? then r.trades + [Trade(code, state, g.first, answer.token, answer.session)] else r.trades)
  }

  function Step(c: Config, r: Run, a: Action): Run {
    if !IsFresh(r, a) then r
    else
      var t := r.(used := r.used + Fresh(a));
      match a
      case Browser(redirect, state) => BrowserStep(t, redirect, state)
      case Complete(state, principal, name, code, now) => CompleteStep(c, t, state, principal, name, code, now)
      case TradeIn(code, state, g) => TradeStep(c, t, code, state, g)
      case Password(username, password, g) => t.(store := LoginPassword(c, t.store, username, password, g).0)
      case Derive(caller, ttl, ceiling, g) => t.(store := LoginSession(c, t.store, caller, ttl, ceiling, g).0)
      case Web(principal, name, agent, ttl, layers, g) =>
        t.(store := Keep(t.store, g.token, Minted(c, principal, name, agent, ttl, layers, g.second, g.id)))
      case Leave(who) => t.(store := Logout(t.store, who))
  }

  function After(c: Config, users: map<string, User>, acts: seq<Action>): Run {
    if acts == [] then Begin(users) else Step(c, After(c, users, acts[..|acts| - 1]), acts[|acts| - 1])
  }

  // ---------------------------------------------------------------- the code flow

  /** Every start waits or is done; every code done waits or was taken. */
  ghost predicate Counted(r: Run) {
    && |r.store.pending| + |r.done| == |r.starts|
    && |r.store.codes| + r.taken == |r.done|
    && |r.trades| <= r.taken
  }

  /** What waits was given out. */
  ghost predicate Known(used: set<string>, pending: map<string, string>, codes: map<string, Code>, starts: seq<string>, done: seq<Done>) {
    && (forall state :: state in pending ==> state in starts)
    && (forall code :: code in codes ==> code in used)
    && (forall state :: state in starts ==> state in used)
    && (forall i :: 0 <= i < |done| ==> done[i].code in used && done[i].state in starts)
  }

  ghost predicate Holds(done: seq<Done>, code: string, c: Code) {
    exists i :: 0 <= i < |done| && done[i] == Done(c.state, code, c.principal, c.name, c.issued)
  }

  /** The sign-in a session of the code flow came from: same code, state, person; in time. */
  predicate IsSourceOf(d: Done, t: Trade) {
    && d.code == t.code && d.state == t.state && d.principal == t.session.principal && d.name == t.session.name
    && t.at - d.at <= CODE_TTL_SECS
  }

  ghost predicate CameFrom(done: seq<Done>, t: Trade) {
    exists i :: 0 <= i < |done| && IsSourceOf(done[i], t)
  }

  /** A code that waits is the one its sign-in was given. */
  ghost predicate Waits(done: seq<Done>, codes: map<string, Code>) {
    forall code :: code in codes ==> Holds(done, code, codes[code])
  }

  /** Every session of the flow has its sign-in, whose code waits no longer. */
  ghost predicate Sourced(done: seq<Done>, trades: seq<Trade>, codes: map<string, Code>) {
    forall i :: 0 <= i < |trades| ==> CameFrom(done, trades[i]) && trades[i].code !in codes
  }

  /** No code is taken twice. */
  ghost predicate TakenOnce(trades: seq<Trade>) {
    forall i, k :: 0 <= i < k < |trades| ==> trades[i].code != trades[k].code
  }

  /** No state is completed twice. */
  ghost predicate DoneOnce(done: seq<Done>, pending: map<string, string>) {
    && (forall i, k :: 0 <= i < k < |done| ==> done[i].state != done[k].state)
    && (forall i :: 0 <= i < |done| ==> done[i].state !in pending)
  }

  ghost predicate Inv(r: Run) {
    && Counted(r)
    && Known(r.used, r.store.pending, r.store.codes, r.starts, r.done)
    && Waits(r.done, r.store.codes)
    && Sourced(r.done, r.trades, r.store.codes)
    && TakenOnce(r.trades)
    && DoneOnce(r.done, r.store.pending)
  }

  lemma MapGrows<V>(m: map<string, V>, k: string, v: V)
    requires k !in m
    ensures |m[k := v]| == |m| + 1
  {
  }

  lemma MapShrinks<V>(m: map<string, V>, k: string)
    requires k in m
    ensures |m - {k}| == |m| - 1
  {
  }

  lemma KnownGrows(used: set<string>, more: set<string>, pending: map<string, string>, codes: map<string, Code>, starts: seq<string>, done: seq<Done>)
    requires Known(used, pending, codes, starts, done) && used <= more
    ensures Known(more, pending, codes, starts, done)
  {
  }

  lemma BrowserKeeps(r: Run, redirect: string, state: string)
    requires Inv(r) && state !in r.used
    ensures Inv(BrowserStep(r.(used := r.used + {state}), redirect, state))
  {
    var t := r.(used := r.used + {state});
    KnownGrows(r.used, t.used, r.store.pending, r.store.codes, r.starts, r.done);
    if IsLoopback(redirect) {
      MapGrows(r.store.pending, state, redirect);
    }
  }

  lemma CompleteKeeps(c: Config, r: Run, state: string, principal: string, name: Option<string>, code: string, now: int)
    requires Inv(r) && code !in r.used
    ensures Inv(CompleteStep(c, r.(used := r.used + {code}), state, principal, name, code, now))
  {
    KnownGrows(r.used, r.used + {code}, r.store.pending, r.store.codes, r.starts, r.done);
    CompleteFrame(c, r.(used := r.used + {code}), state, principal, name, code, now);
    if c.isPrincipal(principal) && state in r.store.pending {
      var d := Done(state, code, principal, name, now);
      MapShrinks(r.store.pending, state);
      MapGrows(r.store.codes, code, Code(state, principal, name, now));
      CompleteWaits(r.done, r.store.codes, d);
      CompleteSources(r.done, r.trades, r.store.codes, d, r.used);
      CompleteOnce(r.done, r.store.pending, d);
      CompleteKnown(r.used + {code}, r.store.pending, r.store.codes, r.starts, r.done, d);
    }
  }

  lemma CompleteFrame(c: Config, r: Run, state: string, principal: string, name: Option<string>, code: string, now: int)
    ensures var t := CompleteStep(c, r, state, principal, name, code, now);
      && t.used == r.used && t.starts == r.starts && t.taken == r.taken && t.trades == r.trades
      && if c.isPrincipal(principal) && state in r.store.pending then
           && t.done == r.done + [Done(state, code, principal, name, now)]
           && t.store.pending == r.store.pending - {state}
           && t.store.codes == r.store.codes[code := Code(state, principal, name, now)]
         else t.done == r.done && t.store == r.store
  {
  }

  lemma CompleteOnce(done: seq<Done>, pending: map<string, string>, d: Done)
    requires DoneOnce(done, pending) && d.state in pending
    ensures DoneOnce(done + [d], pending - {d.state})
  {
  }

  lemma CompleteKnown(used: set<string>, pending: map<string, string>, codes: map<string, Code>, starts: seq<string>, done: seq<Done>, d: Done)
    requires Known(used, pending, codes, starts, done) && d.state in pending && d.code in used
    ensures Known(used, pending - {d.state}, codes[d.code := Code(d.state, d.principal, d.name, d.at)], starts, done + [d])
  {
  }

  lemma CompleteWaits(done: seq<Done>, codes: map<string, Code>, d: Done)
    requires Waits(done, codes)
    ensures Waits(done + [d], codes[d.code := Code(d.state, d.principal, d.name, d.at)])
  {
    var all := done + [d];
    assert all[|done|] == d;
    assert Holds(all, d.code, Code(d.state, d.principal, d.name, d.at));
    forall k | k in codes
      ensures Holds(all, k, codes[k])
    {
      var i :| 0 <= i < |done| && done[i] == Done(codes[k].state, k, codes[k].principal, codes[k].name, codes[k].issued);
      assert all[i] == done[i];
    }
  }

  lemma CompleteSources(done: seq<Done>, trades: seq<Trade>, codes: map<string, Code>, d: Done, used: set<string>)
    requires Sourced(done, trades, codes) && d.code !in used
    requires forall i :: 0 <= i < |done| ==> done[i].code in used
    ensures Sourced(done + [d], trades, codes[d.code := Code(d.state, d.principal, d.name, d.at)])
  {
    forall k | 0 <= k < |trades|
      ensures CameFrom(done + [d], trades[k]) && trades[k].code != d.code
    {
      var i :| 0 <= i < |done| && IsSourceOf(done[i], trades[k]);
      assert (done + [d])[i] == done[i];
    }
  }

  lemma TradeKeeps(c: Config, r: Run, code: string, state: string, g: Given)
    requires Inv(r)
    ensures Inv(TradeStep(c, r, code, state, g))
  {
    if code in r.store.codes {
      var t := TradeStep(c, r, code, state, g);
      var x := TradeOf(c, r.store.codes[code], code, state, g);
      TradeFrame(c, r, code, state, g);
      MapShrinks(r.store.codes, code);
      NotTaken(r.trades, r.store.codes, r.done, code);
      if t.trades != r.trades {
        TradeIsSourced(r.done, r.store.codes, x);
        TradeGrows(r.done, r.trades, r.store.codes, x);
      }
      TakenKeepsRest(r, t, code);
    }
  }

  /** The session a code is traded for. */
  function TradeOf(c: Config, found: Code, code: string, state: string, g: Given): Trade {
    Trade(code, state, g.first, g.token, Minted(c, found.principal, found.name, None, None, [], g.second, g.id))
  }

  lemma TradeFrame(c: Config, r: Run, code: string, state: string, g: Given)
    requires code in r.store.codes
    ensures var t := TradeStep(c, r, code, state, g); var found := r.store.codes[code];
      && t.used == r.used && t.starts == r.starts && t.done == r.done && t.taken == r.taken + 1
      && t.store.pending == r.store.pending && t.store.codes == r.store.codes - {code}
      && t.trades == r.trades +
           if found.state == state && g.first - found.issued <= CODE_TTL_SECS then [TradeOf(c, found, code, state, g)] else []
  {
  }

  lemma TakenKeepsRest(r: Run, t: Run, code: string)
    requires Inv(r) && code in r.store.codes
    requires t.used == r.used && t.starts == r.starts && t.done == r.done && t.taken == r.taken + 1
    requires t.store.pending == r.store.pending && t.store.codes == r.store.codes - {code}
    requires |t.store.codes| == |r.store.codes| - 1 && |t.trades| <= |r.trades| + 1
    ensures Counted(t) && Known(t.used, t.store.pending, t.store.codes, t.starts, t.done)
    ensures Waits(t.done, t.store.codes) && DoneOnce(t.done, t.store.pending)
  {
  }

  lemma NotTaken(trades: seq<Trade>, codes: map<string, Code>, done: seq<Done>, code: string)
    requires Sourced(done, trades, codes) && code in codes
    ensures forall i :: 0 <= i < |trades| ==> trades[i].code != code
    ensures Sourced(done, trades, codes - {code})
  {
  }

  lemma TradeIsSourced(done: seq<Done>, codes: map<string, Code>, t: Trade)
    requires Waits(done, codes) && t.code in codes
    requires var c := codes[t.code];
      c.state == t.state && c.principal == t.session.principal && c.name == t.session.name && t.at - c.issued <= CODE_TTL_SECS
    ensures CameFrom(done, t)
  {
  }

  lemma TradeGrows(done: seq<Done>, trades: seq<Trade>, codes: map<string, Code>, t: Trade)
    requires Sourced(done, trades, codes) && TakenOnce(trades) && CameFrom(done, t)
    requires t.code in codes && forall i :: 0 <= i < |trades| ==> trades[i].code != t.code
    ensures Sourced(done, trades + [t], codes - {t.code}) && TakenOnce(trades + [t])
  {
  }

  lemma StepKeeps(c: Config, r: Run, a: Action)
    requires Inv(r)
    ensures Inv(Step(c, r, a))
  {
    if IsFresh(r, a) {
      match a
      case Browser(redirect, state) => BrowserKeeps(r, redirect, state);
      case Complete(state, principal, name, code, now) => CompleteKeeps(c, r, state, principal, name, code, now);
      case TradeIn(code, state, g) =>
        UsedGrows(r, Fresh(a));
        TradeKeeps(c, r.(used := r.used + Fresh(a)), code, state, g);
      case _ =>
        UsedGrows(r, Fresh(a));
        OthersLeaveFlow(c, r, a);
        OthersKeep(r.(used := r.used + Fresh(a)), Step(c, r, a));
    }
  }

  lemma OthersLeaveFlow(c: Config, r: Run, a: Action)
    requires IsFresh(r, a) && !a.Browser? && !a.Complete? && !a.TradeIn?
    ensures var t := Step(c, r, a);
      t == r.(used := r.used + Fresh(a), store := t.store) && t.store.pending == r.store.pending && t.store.codes == r.store.codes
  {
  }

  lemma UsedGrows(r: Run, more: set<string>)
    requires Inv(r)
    ensures Inv(r.(used := r.used + more))
  {
  }

  /** Where nothing of the flow changes, all of it stands. */
  lemma OthersKeep(r: Run, t: Run)
    requires Inv(r) && t == r.(store := t.store)
    requires t.store.pending == r.store.pending && t.store.codes == r.store.codes
    ensures Inv(t)
  {
  }

  lemma {:induction false} AfterKeeps(c: Config, users: map<string, User>, acts: seq<Action>)
    ensures Inv(After(c, users, acts))
  {
    if acts != [] {
      AfterKeeps(c, users, acts[..|acts| - 1]);
      StepKeeps(c, After(c, users, acts[..|acts| - 1]), acts[|acts| - 1]);
    }
  }

  /**
   * Over any run, sessions of the code flow never outnumber completed sign-ins, nor those browser
   * starts; each came from a sign-in of its own, whose code, state and person it has, within a
   * minute; and no code or state serves twice.
   */
  lemma CodeSessionsAreSignIns(c: Config, users: map<string, User>, acts: seq<Action>)
    ensures var r := After(c, users, acts);
      && |r.trades| <= |r.done| <= |r.starts|
      && (forall i :: 0 <= i < |r.trades| ==> CameFrom(r.done, r.trades[i]))
      && (forall i, k :: 0 <= i < k < |r.trades| ==> r.trades[i].code != r.trades[k].code)
      && (forall i, k :: 0 <= i < k < |r.done| ==> r.done[i].state != r.done[k].state)
      && (forall i :: 0 <= i < |r.done| ==> r.done[i].state in r.starts)
  {
    AfterKeeps(c, users, acts);
  }

  // ---------------------------------------------------------------- sign-outs

  /** A session has an id of its own, given out. */
  ghost predicate OwnIds(r: Run) {
    OwnIdsOf(r.store.sessions, r.used)
  }

  ghost predicate OwnIdsOf(sessions: map<string, Rec>, used: set<string>) {
    && (forall t :: t in sessions ==> t in used && sessions[t].id in used)
    && (forall t, u :: t in sessions && u in sessions && sessions[t].id == sessions[u].id ==> t == u)
  }

  /** A session minted with a fresh id keeps each its own. */
  lemma MintKeepsIds(sessions: map<string, Rec>, used: set<string>, token: string, rec: Rec)
    requires OwnIdsOf(sessions, used) && {token, rec.id} !! used
    ensures OwnIdsOf(sessions[token := rec], used + {token, rec.id})
  {
  }

  lemma StepKeepsIds(c: Config, r: Run, a: Action)
    requires OwnIds(r)
    ensures OwnIds(Step(c, r, a))
  {
    if IsFresh(r, a) {
      var before, after := r.store.sessions, Step(c, r, a).store.sessions;
      if a.TradeIn? || a.Password? || a.Derive? || a.Web? {
        MintsOne(c, r, a);
        if after != before {
          MintKeepsIds(before, r.used, a.given.token, after[a.given.token]);
        }
      }
    }
  }

  lemma MintsOne(c: Config, r: Run, a: Action)
    requires IsFresh(r, a) && (a.TradeIn? || a.Password? || a.Derive? || a.Web?)
    ensures var before, after := r.store.sessions, Step(c, r, a).store.sessions;
      after == before || exists rec: Rec :: rec.id == a.given.id && after == before[a.given.token := rec]
  {
  }

  lemma {:induction false} AfterKeepsIds(c: Config, users: map<string, User>, acts: seq<Action>)
    ensures OwnIds(After(c, users, acts))
  {
    if acts != [] {
      AfterKeepsIds(c, users, acts[..|acts| - 1]);
      StepKeepsIds(c, After(c, users, acts[..|acts| - 1]), acts[|acts| - 1]);
    }
  }

  /** Signing out on a session's proof ends that session, whoever asks with it later, and no other. */
  lemma SignOutEndsOne(c: Config, users: map<string, User>, acts: seq<Action>, token: string, other: string, now: int)
    requires token in After(c, users, acts).store.sessions
    ensures var s := After(c, users, acts).store; var ctx := Proof(s.sessions[token]); var t := Logout(s, ctx);
      && ContextOf(t, token, now) == None && ("sess_" <= ctx.session ==> !Alive(t, ctx, now))
      && (other != token ==> ContextOf(t, other, now) == ContextOf(s, other, now))
      && t.sessions.Keys == s.sessions.Keys - {token}
  {
    AfterKeepsIds(c, users, acts);
  }

  /** A connection's sign-in stands exactly while its token would still be taken. */
  lemma StandsWhileItWouldBeTaken(c: Config, users: map<string, User>, acts: seq<Action>, token: string, now: int)
    requires token in After(c, users, acts).store.sessions
    requires "sess_" <= After(c, users, acts).store.sessions[token].id
    ensures var s := After(c, users, acts).store;
      Alive(s, Proof(s.sessions[token]), now) <==> ContextOf(s, token, now).Some?
  {
    AfterKeepsIds(c, users, acts);
  }
}
