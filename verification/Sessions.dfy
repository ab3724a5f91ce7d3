/**
 * The in-memory auth backend of auth_memory.rs: browser sign-ins and their one-time codes,
 * passwords, and sessions minted from sessions. Tokens, ids and the clock are parameters: every
 * `fresh` is a text not used before, every `now` the value that read gave.
 */
module Sessions {
  import opened Basics

  const CODE_TTL_SECS: int := 60

  // ---------------------------------------------------------------- what is kept

  datatype User = User(password: string, principal: string, name: Option<string>)

  /** A session; `layers` are its ceiling's, outermost first. */
  datatype Rec = Rec(
    id: string,
    principal: string,
    name: Option<string>,
    agent: Option<string>,
    expiresAt: int,
    layers: seq<seq<string>>)

  datatype Code = Code(state: string, principal: string, name: Option<string>, issued: int)

  datatype Store = Store(
    users: map<string, User>,
    sessions: map<string, Rec>,
    pending: map<string, string>,
    codes: map<string, Code>)

  /** A connection's identity: no principal for one that is nobody, no expiry for a key's proof. */
  datatype Context = Context(
    principal: Option<string>,
    session: string,
    name: Option<string>,
    agent: Option<string>,
    layers: seq<seq<string>>,
    expiresAt: Option<int>)

  /** A backend's settings: the default lifetime, what parses as a principal, and a ceiling's text. */
  datatype Config = Config(defaultTtl: nat, isPrincipal: string -> bool, ceiling: seq<string> -> Option<seq<string>>)

  datatype Failure =
    | NotLoopback | CodeNotGood | WrongState | CodeExpired | WrongPassword | NeedsSomeone | BadCeiling | BadPrincipal | NoSignIn

  datatype Answer = LoginUrl(state: string) | Signed(token: string, session: Rec) | Failed(why: Failure)

  /** The texts and readings one call is given: two of the clock, in their order. */
  datatype Given = Given(first: int, token: string, second: int, id: string)

  // ---------------------------------------------------------------- the operations, on values

  /** `as i64` of a u64. */
  function AsI64(n: nat): (r: int)
    ensures n < 0x8000_0000_0000_0000 ==> r == n
    ensures -0x8000_0000_0000_0000 <= r < 0x8000_0000_0000_0000
  {
    if n % 0x1_0000_0000_0000_0000 < 0x8000_0000_0000_0000 then n % 0x1_0000_0000_0000_0000
    else n % 0x1_0000_0000_0000_0000 - 0x1_0000_0000_0000_0000
  }

  function Minted(c: Config, principal: string, name: Option<string>, agent: Option<string>, ttl: Option<nat>,
                  layers: seq<seq<string>>, now: int, id: string): Rec
  {
    Rec(id, principal, name, agent, now + AsI64(if ttl.Some? then ttl.value else c.defaultTtl), layers)
  }

  function Keep(s: Store, token: string, r: Rec): Store {
    s.(sessions := s.sessions[token := r])
  }

  /** `context_of`. */
  function ContextOf(s: Store, token: string, now: int): Option<Context> {
    if token !in s.sessions || s.sessions[token].expiresAt <= now then None else Some(Proof(s.sessions[token]))
  }

  /** The identity a session's token proves. */
  function Proof(r: Rec): Context {
    Context(Some(r.principal), r.id, r.name, r.agent, r.layers, Some(r.expiresAt))
  }

  const LOOPBACK: seq<string> := ["http://127.0.0.1:", "http://localhost:", "http://[::1]:"]

  predicate IsLoopback(redirect: string) {
    exists i :: 0 <= i < |LOOPBACK| && LOOPBACK[i] <= redirect
  }

  lemma LoopbackSays(redirect: string)
    ensures IsLoopback(redirect) <==>
      "http://127.0.0.1:" <= redirect || "http://localhost:" <= redirect || "http://[::1]:" <= redirect
  {
    assert LOOPBACK[0] == "http://127.0.0.1:" && LOOPBACK[1] == "http://localhost:" && LOOPBACK[2] == "http://[::1]:";
    assert |LOOPBACK| == 3;
  }

  function LoginBrowser(s: Store, redirect: string, state: string): (Store, Answer) {
    if !IsLoopback(redirect) then (s, Failed(NotLoopback))
    else (s.(pending := s.pending[state := redirect]), LoginUrl(state))
  }

  /** `complete_browser`: a code for a state that waits, which waits no longer. */
  function CompleteBrowser(c: Config, s: Store, state: string, principal: string, name: Option<string>, code: string, now: int): (Store, Option<Failure>)
  {
    if !c.isPrincipal(principal) then (s, Some(BadPrincipal))
    else if state !in s.pending then (s, Some(NoSignIn))
    else (s.(pending := s.pending - {state}, codes := s.codes[code := Code(state, principal, name, now)]), None)
  }

  /** A code is taken out before anything is asked of it. */
  function LoginCode(c: Config, s: Store, code: string, state: string, g: Given): (Store, Answer) {
    if code !in s.codes then (s, Failed(CodeNotGood))
    else
      var found := s.codes[code];
      var taken := s.(codes := s.codes - {code});
      if found.state != state then (taken, Failed(WrongState))
      else if g.first - found.issued > CODE_TTL_SECS then (taken, Failed(CodeExpired))
      else
        var r := Minted(c, found.principal, found.name, None, None, [], g.second, g.id);
        (Keep(taken, g.token, r), Signed(g.token, r))
  }

  function LoginPassword(c: Config, s: Store, username: string, password: string, g: Given): (Store, Answer) {
    if username !in s.users || s.users[username].password != password then (s, Failed(WrongPassword))
    else
      var u := s.users[username];
      var r := Minted(c, u.principal, u.name, None, None, [], g.second, g.id);
      (Keep(s, g.token, r), Signed(g.token, r))
  }

  predicate LayersParse(c: Config, layers: seq<seq<string>>) {
    forall i :: 0 <= i < |layers| ==> c.ceiling(layers[i]).Some?
  }

  /** `layers_of`: each layer parsed and written again. */
  function LayersOf(c: Config, layers: seq<seq<string>>): (r: seq<seq<string>>)
    requires LayersParse(c, layers)
    ensures |r| == |layers| && forall i :: 0 <= i < |r| ==> Some(r[i]) == c.ceiling(layers[i])
  {
    seq(|layers|, i requires 0 <= i < |layers| => c.ceiling(layers[i]).value)
  }

  /** Never outlive the session it was asked on: what is left of it, read from the clock first. */
  function TtlOf(c: Config, ctx: Context, ttl: Option<nat>, now: int): Option<nat> {
    if ctx.expiresAt.None? then ttl
    else
      var left: nat := if ctx.expiresAt.value - now < 0 then 0 else ctx.expiresAt.value - now;
      Some(Min(if ttl.Some? then ttl.value else c.defaultTtl, left))
  }

  function LoginSession(c: Config, s: Store, caller: Option<Context>, ttl: Option<nat>, ceiling: Option<seq<string>>,
                        g: Given): (Store, Answer)
  {
    if caller.None? || caller.value.principal.None? then (s, Failed(NeedsSomeone))
    else if !LayersParse(c, caller.value.layers) then (s, Failed(BadCeiling))
    else
      var narrowed := ceiling.Some? && ceiling.value != [];
      if narrowed && c.ceiling(ceiling.value).None? then (s, Failed(BadCeiling))
      else
        var ctx := caller.value;
        var layers := LayersOf(c, ctx.layers) + if narrowed then [c.ceiling(ceiling.value).value] else [];
        var r := Minted(c, ctx.principal.value, ctx.name, ctx.agent, TtlOf(c, ctx, ttl, g.first), layers, g.second, g.id);
        (Keep(s, g.token, r), Signed(g.token, r))
  }

  /** `logout`: every session of the caller's id is dropped. */
  function Logout(s: Store, ctx: Context): Store {
    s.(sessions := map t | t in s.sessions && s.sessions[t].id != ctx.session :: s.sessions[t])
  }

  /** `session_alive`: a session of this backend stands while it does; any other identity always. */
  predicate Alive(s: Store, ctx: Context, now: int) {
    "sess_" <= ctx.session ==> exists t :: t in s.sessions && s.sessions[t].id == ctx.session && s.sessions[t].expiresAt > now
  }

  // ---------------------------------------------------------------- the backend itself

  class MemoryAuthBackend {
    const config: Config
    var users: map<string, User>
    var sessions: map<string, Rec>
    var pending: map<string, string>
    var codes: map<string, Code>

    ghost function State(): Store
      reads this
    {
      Store(users, sessions, pending, codes)
    }

    constructor (config: Config)
      ensures this.config == config && State() == Store(map[], map[], map[], map[])
    {
      this.config := config;
      users, sessions, pending, codes := map[], map[], map[], map[];
    }

    /** `mint`. */
    method Mint(principal: string, name: Option<string>, agent: Option<string>, ttl: Option<nat>,
                layers: seq<seq<string>>, token: string, now: int, id: string) returns (answer: Answer)
      modifies this
      ensures var r := Minted(config, principal, name, agent, ttl, layers, now, id);
        State() == Keep(old(State()), token, r) && answer == Signed(token, r)
      ensures answer.Signed? && answer.token == token && sessions == old(sessions)[token := answer.session]
      ensures answer.session == Rec(id, principal, name, agent, answer.session.expiresAt, layers)
      ensures var asked := if ttl.Some? then ttl.value else config.defaultTtl;
        asked < 0x8000_0000_0000_0000 ==> answer.session.expiresAt == now + asked
      ensures users == old(users) && pending == old(pending) && codes == old(codes)
    {
      var expiresAt := now + AsI64(if ttl.Some? then ttl.value else config.defaultTtl);
      var rec := Rec(id, principal, name, agent, expiresAt, layers);
      sessions := sessions[token := rec];
      answer := Signed(token, rec);
    }

    method StartBrowser(redirect: string, state: string) returns (answer: Answer)
      modifies this
      ensures (State(), answer) == LoginBrowser(old(State()), redirect, state)
      ensures answer.LoginUrl? <==>
        "http://127.0.0.1:" <= redirect || "http://localhost:" <= redirect || "http://[::1]:" <= redirect
      ensures answer.LoginUrl? ==> answer.state == state && pending == old(pending)[state := redirect]
      ensures !answer.LoginUrl? ==> answer == Failed(NotLoopback) && pending == old(pending)
    {
      LoopbackSays(redirect);
      if !IsLoopback(redirect) {
        return Failed(NotLoopback);
      }
      pending := pending[state := redirect];
      answer := LoginUrl(state);
    }

    method Complete(state: string, principal: string, name: Option<string>, code: string, now: int)
      returns (failure: Option<Failure>)
      modifies this
      ensures (State(), failure) == CompleteBrowser(config, old(State()), state, principal, name, code, now)
      ensures failure ==
        if !config.isPrincipal(principal) then Some(BadPrincipal) else if state !in old(pending) then Some(NoSignIn) else None
      ensures failure.None? ==>
        pending == old(pending) - {state} && codes == old(codes)[code := Code(state, principal, name, now)]
      ensures failure.Some? ==> pending == old(pending) && codes == old(codes)
    {
      if !config.isPrincipal(principal) {
        return Some(BadPrincipal);
      }
      if state !in pending {
        return Some(NoSignIn);
      }
      pending := pending - {state};
      codes := codes[code := Code(state, principal, name, now)];
      failure := None;
    }

    method TradeCode(code: string, state: string, g: Given) returns (answer: Answer)
      modifies this
      ensures (State(), answer) == LoginCode(config, old(State()), code, state, g)
      ensures codes == old(codes) - {code}
      ensures answer.Signed? <==>
        code in old(codes) && old(codes)[code].state == state && g.first - old(codes)[code].issued <= 60
      ensures answer.Signed? ==>
        && answer.token == g.token && sessions == old(sessions)[g.token := answer.session]
        && answer.session == Rec(g.id, old(codes)[code].principal, old(codes)[code].name, None, answer.session.expiresAt, [])
        && (config.defaultTtl < 0x8000_0000_0000_0000 ==> answer.session.expiresAt == g.second + config.defaultTtl)
      ensures !answer.Signed? ==>
        && sessions == old(sessions)
        && answer == Failed(if code !in old(codes) then CodeNotGood else if old(codes)[code].state != state then WrongState else CodeExpired)
    {
      if code !in codes {
        return Failed(CodeNotGood);
      }
      var c := codes[code];
      codes := codes - {code};
      if c.state != state {
        return Failed(WrongState);
      }
      if g.first - c.issued > CODE_TTL_SECS {
        return Failed(CodeExpired);
      }
      answer := Mint(c.principal, c.name, None, None, [], g.token, g.second, g.id);
    }

    method CheckPassword(username: string, password: string, g: Given) returns (answer: Answer)
      modifies this
      ensures (State(), answer) == LoginPassword(config, old(State()), username, password, g)
      ensures answer.Signed? <==> username in users && users[username].password == password
      ensures answer.Signed? ==>
        && answer.token == g.token && sessions == old(sessions)[g.token := answer.session]
        && answer.session == Rec(g.id, users[username].principal, users[username].name, None, answer.session.expiresAt, [])
        && (config.defaultTtl < 0x8000_0000_0000_0000 ==> answer.session.expiresAt == g.second + config.defaultTtl)
      ensures !answer.Signed? ==> answer == Failed(WrongPassword) && State() == old(State())
    {
      if username in users && users[username].password == password {
        var u := users[username];
        answer := Mint(u.principal, u.name, None, None, [], g.token, g.second, g.id);
      } else {
        answer := Failed(WrongPassword);
      }
    }

    method Derive(caller: Option<Context>, ttl: Option<nat>, ceiling: Option<seq<string>>, g: Given)
      returns (answer: Answer)
      modifies this
      ensures (State(), answer) == LoginSession(config, old(State()), caller, ttl, ceiling, g)
      ensures answer.Signed? <==>
        && caller.Some? && caller.value.principal.Some?
        && (forall i :: 0 <= i < |caller.value.layers| ==> config.ceiling(caller.value.layers[i]).Some?)
        && (ceiling.Some? && ceiling.value != [] ==> config.ceiling(ceiling.value).Some?)
      ensures !answer.Signed? ==>
        && State() == old(State())
        && answer == Failed(if caller.Some? && caller.value.principal.Some? then BadCeiling else NeedsSomeone)
      ensures answer.Signed? ==>
        var r, ctx, n := answer.session, caller.value, |caller.value.layers|;
        && answer.token == g.token && sessions == old(sessions)[g.token := r]
        && r.id == g.id && Some(r.principal) == ctx.principal && r.name == ctx.name && r.agent == ctx.agent
        && n <= |r.layers| && (forall i :: 0 <= i < n ==> Some(r.layers[i]) == config.ceiling(ctx.layers[i]))
        && (if ceiling.Some? && ceiling.value != []
            then |r.layers| == n + 1 && Some(r.layers[n]) == config.ceiling(ceiling.value)
            else |r.layers| == n)
        && var asked := if ttl.Some? then ttl.value else config.defaultTtl;
           var left := if ctx.expiresAt.None? then asked else ctx.expiresAt.value - g.first;
           asked < 0x8000_0000_0000_0000 ==> r.expiresAt - g.second == if left < 0 then 0 else if left < asked then left else asked
    {
      if caller.None? || caller.value.principal.None? {
        return Failed(NeedsSomeone);
      }
      var ctx := caller.value;
      if !LayersParse(config, ctx.layers) {
        return Failed(BadCeiling);
      }
      var layers := LayersOf(config, ctx.layers);
      if ceiling.Some? && ceiling.value != [] {
        var parsed := config.ceiling(ceiling.value);
        if parsed.None? {
          return Failed(BadCeiling);
        }
        layers := layers + [parsed.value];
      } else {
        assert layers + [] == layers;
      }
      var lasting := ttl;
      if ctx.expiresAt.Some? {
        var left: nat := if ctx.expiresAt.value - g.first < 0 then 0 else ctx.expiresAt.value - g.first;
        lasting := Some(Min(if ttl.Some? then ttl.value else config.defaultTtl, left));
      }
      answer := Mint(ctx.principal.value, ctx.name, ctx.agent, lasting, layers, g.token, g.second, g.id);
    }

    /** `context_of`. */
    method Identify(token: string, now: int) returns (ctx: Option<Context>)
      ensures ctx == ContextOf(State(), token, now)
      ensures ctx.Some? <==> token in sessions && now < sessions[token].expiresAt
      ensures ctx.Some? ==> var rec := sessions[token];
        ctx.value == Context(Some(rec.principal), rec.id, rec.name, rec.agent, rec.layers, Some(rec.expiresAt))
    {
      if token !in sessions {
        return None;
      }
      var rec := sessions[token];
      if rec.expiresAt <= now {
        return None;
      }
      ctx := Some(Context(Some(rec.principal), rec.id, rec.name, rec.agent, rec.layers, Some(rec.expiresAt)));
    }

    method SignOut(ctx: Context)
      modifies this`sessions
      ensures State() == Logout(old(State()), ctx)
      ensures forall t :: t in sessions <==> t in old(sessions) && old(sessions)[t].id != ctx.session
      ensures forall t :: t in sessions ==> sessions[t] == old(sessions)[t]
    {
      sessions := map t | t in sessions && sessions[t].id != ctx.session :: sessions[t];
    }
  }

  // ---------------------------------------------------------------- one session from another

  /** What a ceiling's text says, it says again. */
  ghost predicate CeilingsAreText(c: Config) {
    forall x :: c.ceiling(x).Some? ==> c.ceiling(c.ceiling(x).value) == c.ceiling(x)
  }

  /** A session minted from another's proof. */
  ghost predicate DerivedFrom(c: Config, parent: Rec, child: Rec, ttl: Option<nat>, ceiling: Option<seq<string>>, g: Given) {
    exists s: Store :: LoginSession(c, s, Some(Proof(parent)), ttl, ceiling, g).1 == Signed(g.token, child)
  }

  /**
   * A session minted from another is the same principal's and agent's, its ceiling is that
   * session's and at most one layer below it.
   */
  lemma DerivedIsNarrower(c: Config, parent: Rec, child: Rec, ttl: Option<nat>, ceiling: Option<seq<string>>, g: Given)
    requires DerivedFrom(c, parent, child, ttl, ceiling, g)
    ensures child.principal == parent.principal && child.agent == parent.agent && child.name == parent.name
    ensures LayersParse(c, parent.layers) && LayersOf(c, parent.layers) <= child.layers
    ensures |child.layers| <= |parent.layers| + 1
    ensures |child.layers| > |parent.layers| <==> ceiling.Some? && ceiling.value != []
    ensures ceiling.Some? && ceiling.value != [] ==>
      Some(child.layers[|parent.layers|]) == c.ceiling(ceiling.value)
  {
  }

  predicate IsI64(n: int) {
    -0x8000_0000_0000_0000 <= n < 0x8000_0000_0000_0000
  }

  /**
   * A session lasts what was asked, or the default where nothing was, but no longer than was left
   * at the first reading of the one it was minted from.
   */
  lemma DerivedLasts(c: Config, parent: Rec, child: Rec, ttl: Option<nat>, ceiling: Option<seq<string>>, g: Given)
    requires DerivedFrom(c, parent, child, ttl, ceiling, g)
    ensures var asked := if ttl.Some? then ttl.value else c.defaultTtl;
      var left := if parent.expiresAt < g.first then 0 else parent.expiresAt - g.first;
      asked < 0x8000_0000_0000_0000 || left < 0x8000_0000_0000_0000 ==>
        child.expiresAt - g.second == if asked <= left then asked else left
  {
  }

  /**
   * One minted by a caller whose proof has no expiry lasts what was asked, or the default, if and
   * only if that is under 2^63 seconds.
   */
  lemma KeptLasts(c: Config, s: Store, ctx: Context, child: Rec, ttl: Option<nat>, ceiling: Option<seq<string>>, g: Given)
    requires ctx.expiresAt.None? && LoginSession(c, s, Some(ctx), ttl, ceiling, g).1 == Signed(g.token, child)
    ensures var asked := if ttl.Some? then ttl.value else c.defaultTtl;
      child.expiresAt == g.second + asked <==> asked < 0x8000_0000_0000_0000
  {
  }

  /**
   * A session expires no later than the one it was minted from plus the clock's advance between
   * the two readings, exactly when that one had not expired at the first; when it had, the new one
   * expires at the second and is nobody's at any reading from then on.
   */
  lemma DerivedNeverOutlives(c: Config, parent: Rec, child: Rec, ttl: Option<nat>, ceiling: Option<seq<string>>, g: Given)
    requires DerivedFrom(c, parent, child, ttl, ceiling, g)
    requires IsI64(parent.expiresAt - g.first)
    ensures child.expiresAt <= parent.expiresAt + (g.second - g.first) <==> g.first <= parent.expiresAt
    ensures child.expiresAt <= g.second + if ttl.Some? then ttl.value else c.defaultTtl
    ensures g.first > parent.expiresAt ==>
      child.expiresAt == g.second
      && forall s: Store, now: int :: g.token in s.sessions && s.sessions[g.token] == child && now >= g.second
           ==> ContextOf(s, g.token, now) == None
  {
  }

  // ---------------------------------------------------------------- chains of sessions

  datatype Link = Link(parent: Rec, child: Rec, ttl: Option<nat>, ceiling: Option<seq<string>>, given: Given)

  /** Each session minted from the one before. */
  ghost predicate IsChain(c: Config, links: seq<Link>) {
    && (forall i :: 0 <= i < |links| ==>
          DerivedFrom(c, links[i].parent, links[i].child, links[i].ttl, links[i].ceiling, links[i].given)
          && IsI64(links[i].parent.expiresAt - links[i].given.first))
    && (forall i :: 0 <= i < |links| - 1 ==> links[i + 1].parent == links[i].child)
  }

  function Advance(links: seq<Link>): int {
    if links == [] then 0
    else Advance(links[..|links| - 1]) + (links[|links| - 1].given.second - links[|links| - 1].given.first)
  }

  lemma {:induction false} LayersAreText(c: Config, parent: Rec, child: Rec, ttl: Option<nat>, ceiling: Option<seq<string>>, g: Given)
    requires CeilingsAreText(c) && DerivedFrom(c, parent, child, ttl, ceiling, g)
    ensures LayersParse(c, child.layers) && LayersOf(c, child.layers) == child.layers
  {
    forall i | 0 <= i < |child.layers|
      ensures c.ceiling(child.layers[i]) == Some(child.layers[i])
    {
      if i < |parent.layers| {
        assert Some(child.layers[i]) == c.ceiling(parent.layers[i]);
      }
    }
  }

  /** Along any chain: one principal, one agent, and the first session's ceiling a prefix of the last's. */
  lemma {:induction false} ChainsNarrow(c: Config, links: seq<Link>)
    requires CeilingsAreText(c) && IsChain(c, links) && links != []
    ensures var first, last := links[0].parent, links[|links| - 1].child;
      last.principal == first.principal && last.agent == first.agent
      && LayersParse(c, first.layers) && LayersOf(c, first.layers) <= last.layers
  {
    var k := links[|links| - 1];
    DerivedIsNarrower(c, k.parent, k.child, k.ttl, k.ceiling, k.given);
    if |links| > 1 {
      var front := links[..|links| - 1];
      ChainsNarrow(c, front);
      var h := front[|front| - 1];
      assert links[|links| - 2] == h && k.parent == h.child;
      LayersAreText(c, h.parent, h.child, h.ttl, h.ceiling, h.given);
    }
  }

  /** And while no link was made of an expired session, the last outlives the first by the clock's advances at most. */
  lemma {:induction false} ChainsNeverOutlive(c: Config, links: seq<Link>)
    requires IsChain(c, links) && links != []
    requires forall i :: 0 <= i < |links| ==> links[i].given.first <= links[i].parent.expiresAt
    ensures links[|links| - 1].child.expiresAt <= links[0].parent.expiresAt + Advance(links)
  {
    var k := links[|links| - 1];
    DerivedNeverOutlives(c, k.parent, k.child, k.ttl, k.ceiling, k.given);
    var front := links[..|links| - 1];
    if |links| > 1 {
      ChainsNeverOutlive(c, front);
      assert links[|links| - 2].child == k.parent;
    } else {
      assert Advance(front) == 0;
    }
  }
}
