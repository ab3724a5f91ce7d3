/**
 * The grant gate of grant_gate.rs and the index plexus.rs keeps for it, beside the view: what a
 * caller can discover of a service is what it can use. The gate's own answers are given by two
 * functions: where a grant is held, and whether a check of it passes.
 */
module GrantGate {
  import opened Basics
  import opened JsonText
  import V = Views
  import P = ViewProofs

  datatype Gate = Gate(heldOn: (string, string) -> seq<string>, check: (Option<string>, string, Option<string>) -> bool)

  /**
   * What the gate promises: without a target a check passes exactly where the grant is held
   * anywhere, with one only if it is, and for nobody it never does.
   */
  ghost predicate Promises(g: Gate) {
    && (forall who, grant :: g.check(Some(who), grant, None) <==> g.heldOn(who, grant) != [])
    && (forall who, grant, target :: g.check(Some(who), grant, Some(target)) ==> g.heldOn(who, grant) != [])
    && (forall grant, target :: !g.check(None, grant, target))
  }

  // ---------------------------------------------------------------- the index

  /** What the gate reads of a method: public, its grant, the param that names its target. */
  datatype Info = Info(public: bool, grant: Option<string>, target: Option<string>)

  function InfoOf(m: V.Method, grant: string): Info {
    Info(m.public, Some(grant), m.target)
  }

  function Path(ns: string, m: V.Method): string {
    ns + "." + m.name
  }

  /** An activation's or a static child's entries, in order. */
  function EntriesOf(s: V.Plugin, n: nat): (r: seq<(string, Info)>)
    requires n <= |s.methods|
    ensures |r| == n
    ensures forall i :: 0 <= i < n ==>
      r[i] == (Path(s.namespace, s.methods[i]), InfoOf(s.methods[i], V.GrantOr(s.methods[i], s.namespace)))
  {
    if n == 0 then []
    else
      var m := s.methods[n - 1];
      EntriesOf(s, n - 1) + [(Path(s.namespace, m), InfoOf(m, V.GrantOr(m, s.namespace)))]
  }

  /** The hub's own, under its runtime namespace. */
  function HubEntries(hub: string, methods: seq<V.Method>, n: nat): seq<(string, Info)>
    requires n <= |methods|
  {
    if n == 0 then []
    else
      HubEntries(hub, methods, n - 1) + [(Path(hub, methods[n - 1]), InfoOf(methods[n - 1], Path(hub, methods[n - 1])))]
  }

  function Entries(hub: string, own: seq<V.Method>, schemas: seq<V.Plugin>, n: nat): seq<(string, Info)>
    requires n <= |schemas|
  {
    if n == 0 then HubEntries(hub, own, |own|)
    else Entries(hub, own, schemas, n - 1) + EntriesOf(schemas[n - 1], |schemas[n - 1].methods|)
  }

  /** The index of entries inserted in order: of one path, the last. */
  function IndexOf(entries: seq<(string, Info)>): map<string, Info> {
    if entries == [] then map[]
    else
      var last := entries[|entries| - 1];
      IndexOf(entries[..|entries| - 1])[last.0 := last.1]
  }

  lemma IndexGrows(entries: seq<(string, Info)>, path: string, info: Info)
    ensures IndexOf(entries + [(path, info)]) == IndexOf(entries)[path := info]
  {
  }

  lemma EntriesStart(hub: string, own: seq<V.Method>, schemas: seq<V.Plugin>)
    ensures Entries(hub, own, schemas, 0) == HubEntries(hub, own, |own|)
  {
  }

  lemma EntriesGoOn(hub: string, own: seq<V.Method>, schemas: seq<V.Plugin>, k: nat)
    requires k < |schemas|
    ensures Entries(hub, own, schemas, k + 1) == Entries(hub, own, schemas, k) + EntriesOf(schemas[k], |schemas[k].methods|)
  {
  }

  /** `gate_index`. */
  method GateIndex(hub: string, own: seq<V.Method>, schemas: seq<V.Plugin>) returns (index: map<string, Info>)
    ensures index == IndexOf(Entries(hub, own, schemas, |schemas|))
  {
    index := IndexHub(hub, own);
    EntriesStart(hub, own, schemas);
    var k := 0;
    while k < |schemas|
      invariant 0 <= k <= |schemas|
      invariant index == IndexOf(Entries(hub, own, schemas, k))
    {
      index := IndexSchema(schemas[k], index, Entries(hub, own, schemas, k));
      EntriesGoOn(hub, own, schemas, k);
      k := k + 1;
    }
  }

  /** The hub's own methods. */
  method IndexHub(hub: string, own: seq<V.Method>) returns (index: map<string, Info>)
    ensures index == IndexOf(HubEntries(hub, own, |own|))
  {
    index := map[];
    var i := 0;
    while i < |own|
      invariant 0 <= i <= |own|
      invariant index == IndexOf(HubEntries(hub, own, i))
    {
      IndexGrows(HubEntries(hub, own, i), Path(hub, own[i]), InfoOf(own[i], Path(hub, own[i])));
      index := index[Path(hub, own[i]) := InfoOf(own[i], Path(hub, own[i]))];
      i := i + 1;
    }
  }

  /** One schema's methods, each under its namespace. */
  method IndexSchema(s: V.Plugin, index: map<string, Info>, ghost before: seq<(string, Info)>)
    returns (r: map<string, Info>)
    requires index == IndexOf(before)
    ensures r == IndexOf(before + EntriesOf(s, |s.methods|))
  {
    r := index;
    assert before + [] == before;
    var j := 0;
    while j < |s.methods|
      invariant 0 <= j <= |s.methods|
      invariant r == IndexOf(before + EntriesOf(s, j))
    {
      var m := s.methods[j];
      var info := InfoOf(m, V.GrantOr(m, s.namespace));
      EntryFollows(before, s, j);
      IndexGrows(before + EntriesOf(s, j), Path(s.namespace, m), info);
      r := r[Path(s.namespace, m) := info];
      j := j + 1;
    }
  }

  lemma EntryFollows(before: seq<(string, Info)>, s: V.Plugin, j: nat)
    requires j < |s.methods|
    ensures var m := s.methods[j];
      before + EntriesOf(s, j + 1)
        == before + EntriesOf(s, j) + [(Path(s.namespace, m), InfoOf(m, V.GrantOr(m, s.namespace)))]
  {
  }

  /** No other method claims the path: every entry of it says the same. */
  ghost predicate OnlyClaim(entries: seq<(string, Info)>, path: string, info: Info) {
    && (exists i :: 0 <= i < |entries| && entries[i] == (path, info))
    && (forall i :: 0 <= i < |entries| && entries[i].0 == path ==> entries[i].1 == info)
  }

  lemma {:induction false} OnlyClaimIsIndexed(entries: seq<(string, Info)>, path: string, info: Info)
    requires OnlyClaim(entries, path, info)
    ensures path in IndexOf(entries) && IndexOf(entries)[path] == info
  {
    var front, last := entries[..|entries| - 1], entries[|entries| - 1];
    if last.0 != path {
      var i :| 0 <= i < |entries| && entries[i] == (path, info);
      assert front[i] == (path, info);
      OnlyClaimIsIndexed(front, path, info);
    }
  }

  lemma {:induction false} LaterPathsLeaveIt(entries: seq<(string, Info)>, more: seq<(string, Info)>, path: string)
    requires forall j :: 0 <= j < |more| ==> more[j].0 != path
    ensures path in IndexOf(entries + more) <==> path in IndexOf(entries)
    ensures path in IndexOf(entries) ==> IndexOf(entries + more)[path] == IndexOf(entries)[path]
  {
    if more == [] {
      assert entries + more == entries;
    } else {
      var front, last := more[..|more| - 1], more[|more| - 1];
      LaterPathsLeaveIt(entries, front, path);
      assert entries + more == entries + front + [last];
      IndexGrows(entries + front, last.0, last.1);
    }
  }

  /** The entry of a method: its own facts, its grant the one it names or else its path. */
  predicate IndexedAs(index: map<string, Info>, ns: string, m: V.Method) {
    var path := ns + "." + m.name;
    path in index && index[path] == Info(m.public, Some(if m.grant.Some? then m.grant.value else path), m.target)
  }

  lemma LastOfSchema(entries: seq<(string, Info)>, s: V.Plugin, i: nat)
    requires i < |s.methods|
    requires forall j :: i < j < |s.methods| ==> s.methods[j].name != s.methods[i].name
    ensures IndexedAs(IndexOf(entries + EntriesOf(s, |s.methods|)), s.namespace, s.methods[i])
  {
    var all, m := EntriesOf(s, |s.methods|), s.methods[i];
    var upto, more := entries + all[..i], all[i + 1..];
    assert entries + all == upto + [all[i]] + more;
    IndexGrows(upto, all[i].0, all[i].1);
    forall j | 0 <= j < |more|
      ensures more[j].0 != Path(s.namespace, m)
    {
      PathsDiffer(s.namespace, s.methods[i + 1 + j].name, m.name);
    }
    LaterPathsLeaveIt(upto + [all[i]], more, Path(s.namespace, m));
  }

  lemma PathsDiffer(ns: string, a: string, b: string)
    requires a != b
    ensures ns + "." + a != ns + "." + b
  {
    assert (ns + "." + a)[|ns| + 1..] == a && (ns + "." + b)[|ns| + 1..] == b;
  }

  /** A method of the schema's is addressed by the path. */
  ghost predicate Claims(s: V.Plugin, path: string) {
    exists j :: 0 <= j < |s.methods| && Path(s.namespace, s.methods[j]) == path
  }

  /** The entries of the schemas from the k-th on. */
  function EntriesFrom(schemas: seq<V.Plugin>, k: nat): seq<(string, Info)>
    requires k <= |schemas|
    decreases |schemas| - k
  {
    if k == |schemas| then [] else EntriesOf(schemas[k], |schemas[k].methods|) + EntriesFrom(schemas, k + 1)
  }

  lemma {:induction false} EntriesAreCut(hub: string, own: seq<V.Method>, schemas: seq<V.Plugin>, k: nat)
    requires k <= |schemas|
    ensures Entries(hub, own, schemas, |schemas|) == Entries(hub, own, schemas, k) + EntriesFrom(schemas, k)
    decreases |schemas| - k
  {
    if k < |schemas| {
      EntriesAreCut(hub, own, schemas, k + 1);
      EntriesGoOn(hub, own, schemas, k);
      Regrouped(Entries(hub, own, schemas, k), EntriesOf(schemas[k], |schemas[k].methods|), EntriesFrom(schemas, k + 1));
    }
  }

  lemma Regrouped(a: seq<(string, Info)>, b: seq<(string, Info)>, c: seq<(string, Info)>)
    ensures a + b + c == a + (b + c)
  {
  }

  ghost predicate LeavesOut(entries: seq<(string, Info)>, path: string) {
    forall j :: 0 <= j < |entries| ==> entries[j].0 != path
  }

  lemma UnclaimedIsLeftOut(s: V.Plugin, path: string)
    requires !Claims(s, path)
    ensures LeavesOut(EntriesOf(s, |s.methods|), path)
  {
  }

  lemma {:induction false} LaterLeaveOut(schemas: seq<V.Plugin>, k: nat, path: string)
    requires k <= |schemas| && forall q :: k <= q < |schemas| ==> !Claims(schemas[q], path)
    ensures LeavesOut(EntriesFrom(schemas, k), path)
    decreases |schemas| - k
  {
    if k < |schemas| {
      LaterLeaveOut(schemas, k + 1, path);
      UnclaimedIsLeftOut(schemas[k], path);
    }
  }

  lemma LastOfSchemas(hub: string, own: seq<V.Method>, schemas: seq<V.Plugin>, k: nat, i: nat)
    requires k < |schemas| && i < |schemas[k].methods|
    requires forall j :: i < j < |schemas[k].methods| ==> schemas[k].methods[j].name != schemas[k].methods[i].name
    ensures IndexedAs(IndexOf(Entries(hub, own, schemas, k + 1)), schemas[k].namespace, schemas[k].methods[i])
  {
    EntriesGoOn(hub, own, schemas, k);
    LastOfSchema(Entries(hub, own, schemas, k), schemas[k], i);
  }

  /**
   * What the gate reads of an activation's or a static child's method: its own facts, its grant
   * the one it names or else its path, where no later method claims that path.
   */
  lemma LastMethodIsIndexed(hub: string, own: seq<V.Method>, schemas: seq<V.Plugin>, k: nat, i: nat)
    requires k < |schemas| && i < |schemas[k].methods|
    requires forall j :: i < j < |schemas[k].methods| ==> schemas[k].methods[j].name != schemas[k].methods[i].name
    requires forall q :: k < q < |schemas| ==> !Claims(schemas[q], Path(schemas[k].namespace, schemas[k].methods[i]))
    ensures IndexedAs(IndexOf(Entries(hub, own, schemas, |schemas|)), schemas[k].namespace, schemas[k].methods[i])
  {
    var path := Path(schemas[k].namespace, schemas[k].methods[i]);
    LastOfSchemas(hub, own, schemas, k, i);
    LaterLeaveOut(schemas, k + 1, path);
    EntriesAreCut(hub, own, schemas, k + 1);
    LaterPathsLeaveIt(Entries(hub, own, schemas, k + 1), EntriesFrom(schemas, k + 1), path);
  }

  /** The entry of a method of the hub's own: its grant is its path. */
  predicate IndexedAsOwn(index: map<string, Info>, hub: string, m: V.Method) {
    var path := hub + "." + m.name;
    path in index && index[path] == Info(m.public, Some(path), m.target)
  }

  lemma {:induction false} LastOfHub(hub: string, own: seq<V.Method>, n: nat, i: nat)
    requires i < n <= |own| && forall j :: i < j < n ==> own[j].name != own[i].name
    ensures IndexedAsOwn(IndexOf(HubEntries(hub, own, n)), hub, own[i])
  {
    var last := own[n - 1];
    IndexGrows(HubEntries(hub, own, n - 1), Path(hub, last), InfoOf(last, Path(hub, last)));
    if i < n - 1 {
      LastOfHub(hub, own, n - 1, i);
      PathsDiffer(hub, last.name, own[i].name);
    }
  }

  /** The hub's own methods are granted under its runtime namespace, whatever grant they name. */
  lemma HubMethodIsIndexed(hub: string, own: seq<V.Method>, schemas: seq<V.Plugin>, i: nat)
    requires i < |own| && forall j :: i < j < |own| ==> own[j].name != own[i].name
    requires forall q :: 0 <= q < |schemas| ==> !Claims(schemas[q], Path(hub, own[i]))
    ensures IndexedAsOwn(IndexOf(Entries(hub, own, schemas, |schemas|)), hub, own[i])
  {
    EntriesStart(hub, own, schemas);
    LastOfHub(hub, own, |own|, i);
    LaterLeaveOut(schemas, 0, Path(hub, own[i]));
    EntriesAreCut(hub, own, schemas, 0);
    LaterPathsLeaveIt(HubEntries(hub, own, |own|), EntriesFrom(schemas, 0), Path(hub, own[i]));
  }

  // ---------------------------------------------------------------- one call

  datatype Verdict =
    | Open              // introspection: answered from the caller's view
    | Reached           // run, under the caller's reach
    | InvalidParams
    | Unauthenticated
    | NotAllowed        // what the gate's check refused

  predicate Admitted(v: Verdict) {
    v.Open? || v.Reached?
  }

  /** `params_shape`. */
  predicate ShapeOk(params: Json) {
    params.Obj? || params.Null?
  }

  function FirstDot(path: string): (i: nat)
    ensures i <= |path|
    ensures (forall k :: 0 <= k < i ==> path[k] != '.') && (i < |path| ==> path[i] == '.')
  {
    if path == "" || path[0] == '.' then 0 else 1 + FirstDot(path[1..])
  }

  predicate EndsWith(s: string, end: string) {
    |end| <= |s| && s[|s| - |end|..] == end
  }

  /** What answers whoever asks, by its name alone. */
  predicate Introspection(serviceNs: string, path: string) {
    var i := FirstDot(path);
    var ns := path[..i];
    var name := if i < |path| then path[i + 1..] else "";
    || name == "schema"
    || EndsWith(name, ".schema")
    || (ns == serviceNs && (name == "hash" || name == "hashes" || name == "ir"))
  }

  /** A value as a scope, when the gate can read it as one. */
  function One(v: Json): Option<string> {
    match v
    case Str(s) => Some(s)
    case Num(text) => Some(text)
    case Bool(b) => Some(if b then "true" else "false")
    case _ => None
  }

  predicate AllRead(items: seq<Json>) {
    forall i :: 0 <= i < |items| ==> One(items[i]).Some?
  }

  function Ones(items: seq<Json>): (r: seq<string>)
    requires AllRead(items)
    ensures |r| == |items| && forall i :: 0 <= i < |r| ==> Some(r[i]) == One(items[i])
  {
    seq(|items|, i requires 0 <= i < |items| => One(items[i]).value)
  }

  /** A member's value, as `Value::get` of an object gives it. */
  function Member0(ms: seq<Member>, key: string): (r: Option<Json>)
    ensures r.None? <==> forall i :: 0 <= i < |ms| ==> ms[i].key != key
    ensures r.Some? ==> exists i :: 0 <= i < |ms| && ms[i] == Member(key, r.value)
  {
    if ms == [] then None else if ms[0].key == key then Some(ms[0].value) else Member0(ms[1..], key)
  }

  datatype Targets = Unreadable | NoTarget | These(values: seq<string>)

  /** `target_values`. */
  function TargetValues(params: Json, param: string): Targets {
    var v := if params.Obj? then Member0(params.members, param) else None;
    match v
    case None => NoTarget
    case Some(Null) => NoTarget
    case Some(Arr(items)) => if AllRead(items) then These(Ones(items)) else Unreadable
    case Some(other) => if One(other).Some? then These([One(other).value]) else Unreadable
  }

  function TargetsOf(info: Option<Info>, params: Json): Targets {
    if info.Some? && info.value.target.Some? then TargetValues(params, info.value.target.value) else NoTarget
  }

  function GrantOf(info: Option<Info>, path: string): string {
    if info.Some? && info.value.grant.Some? then info.value.grant.value else path
  }

  /** Every target is allowed; without one, the grant is held anywhere. */
  predicate ChecksPass(g: Gate, who: Option<string>, grant: string, targets: Targets)
    requires !targets.Unreadable?
  {
    if targets.NoTarget? || targets.values == [] then g.check(who, grant, None)
    else forall i :: 0 <= i < |targets.values| ==> g.check(who, grant, Some(targets.values[i]))
  }

  /** What `decide` answers. */
  function Decision(g: Gate, serviceNs: string, path: string, info: Option<Info>, params: Json, who: Option<string>,
                    signedIn: set<string>): Verdict
  {
    if !ShapeOk(params) then InvalidParams
    else if Introspection(serviceNs, path) then Open
    else if info.Some? && info.value.public then Reached
    else
      var grant := GrantOf(info, path);
      if grant in signedIn then (if who.None? then Unauthenticated else Reached)
      else
        var targets := TargetsOf(info, params);
        if targets.Unreadable? then InvalidParams
        else if ChecksPass(g, who, grant, targets) then Reached
        else NotAllowed
  }

  /** `decide`: the targets one by one, the first refusal returned. */
  method Decide(g: Gate, serviceNs: string, path: string, info: Option<Info>, params: Json, who: Option<string>,
                signedIn: set<string>) returns (r: Verdict)
    ensures r == Decision(g, serviceNs, path, info, params, who, signedIn)
  {
    if !ShapeOk(params) {
      return InvalidParams;
    }
    if Introspection(serviceNs, path) {
      return Open;
    }
    var grant := GrantOf(info, path);
    if info.Some? && info.value.public {
      return Reached;
    }
    if grant in signedIn {
      if who.None? {
        return Unauthenticated;
      }
      return Reached;
    }
    var targets := TargetsOf(info, params);
    match targets
    case Unreadable => return InvalidParams;
    case NoTarget =>
      if g.check(who, grant, None) { return Reached; }
      return NotAllowed;
    case These(values) =>
      if values == [] {
        if g.check(who, grant, None) { return Reached; }
        return NotAllowed;
      }
      var i := 0;
      while i < |values|
        invariant 0 <= i <= |values|
        invariant forall k :: 0 <= k < i ==> g.check(who, grant, Some(values[k]))
      {
        if !g.check(who, grant, Some(values[i])) {
          return NotAllowed;
        }
        i := i + 1;
      }
      r := Reached;
  }

  lemma FirstDotAt(path: string, i: nat)
    requires i < |path| && path[i] == '.' && forall k :: 0 <= k < i ==> path[k] != '.'
    ensures FirstDot(path) == i
  {
  }

  /** A path and its two parts. */
  lemma DottedIsCut(ns: string, name: string)
    requires '.' !in ns
    ensures var path := ns + "." + name; FirstDot(path) == |ns| && path[..|ns|] == ns && path[|ns| + 1..] == name
  {
    var path := ns + "." + name;
    assert forall k :: 0 <= k < |ns| ==> path[k] == ns[k] && ns[k] in ns;
    assert path[|ns|] == '.';
    FirstDotAt(path, |ns|);
  }

  lemma CutAt(path: string, i: nat) returns (ns: string, name: string)
    requires i < |path| && path[i] == '.'
    ensures ns == path[..i] && name == path[i + 1..] && path == ns + "." + name
  {
    ns, name := path[..i], path[i + 1..];
    assert path[i..] == "." + name;
    assert path == ns + path[i..];
  }

  /** A name that is, or ends after a dot in, `end` gives its path that ending, and no other does. */
  lemma EndsAfterDot(ns: string, name: string, end: string)
    requires '.' !in ns && '.' !in end
    ensures name == end || EndsWith(name, "." + end) <==> EndsWith(ns + "." + name, "." + end)
  {
    var path, at := ns + "." + name, |name| - |end|;
    assert path == ns + ("." + name);
    if at >= 0 {
      assert path[|ns| + at..] == ("." + name)[at..];
      assert at > 0 ==> ("." + name)[at..] == name[at - 1..];
      assert name == ("." + name)[1..] && end == ("." + end)[1..];
    } else if |ns| + at >= 0 {
      assert path[|ns| + at..][0] == ns[|ns| + at];
    }
  }

  lemma EndsInSchema(ns: string, name: string)
    requires '.' !in ns
    ensures name == "schema" || EndsWith(name, ".schema") <==> EndsWith(ns + "." + name, ".schema")
  {
    EndsAfterDot(ns, name, "schema");
    assert "." + "schema" == ".schema";
  }

  lemma HasDot(ns: string, name: string)
    ensures FirstDot(ns + "." + name) < |ns + "." + name|
  {
    assert (ns + "." + name)[|ns|] == '.';
  }

  lemma EndingHasDot(path: string, end: string)
    requires end != "" && end[0] == '.' && EndsWith(path, end)
    ensures FirstDot(path) < |path|
  {
    assert path[|path| - |end|] == path[|path| - |end|..][0];
  }

  lemma DotlessIsClosed(serviceNs: string, path: string)
    requires FirstDot(path) == |path|
    ensures !EndsWith(path, ".schema")
    ensures path != serviceNs + "." + "hash" && path != serviceNs + "." + "hashes" && path != serviceNs + "." + "ir"
  {
    HasDot(serviceNs, "hash");
    HasDot(serviceNs, "hashes");
    HasDot(serviceNs, "ir");
    if EndsWith(path, ".schema") {
      EndingHasDot(path, ".schema");
    }
  }

  lemma IsOwn(ns: string, name: string, serviceNs: string, own: string)
    requires '.' !in ns
    ensures ns == serviceNs && name == own <==> '.' !in serviceNs && ns + "." + name == serviceNs + "." + own
  {
    DottedIsCut(ns, name);
    if '.' !in serviceNs {
      DottedIsCut(serviceNs, own);
    }
  }

  lemma IntroducesBy(serviceNs: string, ns: string, name: string)
    requires '.' !in ns
    ensures Introspection(serviceNs, ns + "." + name) <==>
      || name == "schema" || EndsWith(name, ".schema")
      || (ns == serviceNs && (name == "hash" || name == "hashes" || name == "ir"))
  {
    DottedIsCut(ns, name);
  }

  /** The service's own `hash`, `hashes` and `ir`. */
  predicate OwnName(serviceNs: string, path: string) {
    '.' !in serviceNs && (path == serviceNs + "." + "hash" || path == serviceNs + "." + "hashes" || path == serviceNs + "." + "ir")
  }

  lemma OwnNames(serviceNs: string, ns: string, name: string)
    requires '.' !in ns
    ensures ns == serviceNs && (name == "hash" || name == "hashes" || name == "ir") <==> OwnName(serviceNs, ns + "." + name)
  {
    IsOwn(ns, name, serviceNs, "hash");
    IsOwn(ns, name, serviceNs, "hashes");
    IsOwn(ns, name, serviceNs, "ir");
  }

  lemma DottedOpens(serviceNs: string, ns: string, name: string)
    requires '.' !in ns
    ensures Introspection(serviceNs, ns + "." + name) <==> EndsWith(ns + "." + name, ".schema") || OwnName(serviceNs, ns + "." + name)
  {
    IntroducesBy(serviceNs, ns, name);
    EndsInSchema(ns, name);
    OwnNames(serviceNs, ns, name);
  }

  lemma Opens(serviceNs: string, path: string)
    ensures Introspection(serviceNs, path) <==> EndsWith(path, ".schema") || OwnName(serviceNs, path)
  {
    if FirstDot(path) < |path| {
      var ns, name := CutAt(path, FirstDot(path));
      DottedOpens(serviceNs, ns, name);
    } else {
      DotlessIsClosed(serviceNs, path);
    }
  }

  /**
   * The names that answer whoever asks, read off the whole path: whatever ends in `.schema`, and
   * the service's own `hash`, `hashes` and `ir`.
   */
  lemma OpensByName(serviceNs: string, path: string)
    ensures Introspection(serviceNs, path) <==>
      || (|path| >= 7 && path[|path| - 7..] == ".schema")
      || ('.' !in serviceNs && (path == serviceNs + "." + "hash" || path == serviceNs + "." + "hashes" || path == serviceNs + "." + "ir"))
  {
    Opens(serviceNs, path);
  }

  /** Of an activation's method: the names it answers to whoever asks, params of the right shape. */
  lemma OpensTo(g: Gate, serviceNs: string, ns: string, name: string, info: Option<Info>, params: Json,
                who: Option<string>, signedIn: set<string>)
    requires '.' !in ns
    ensures Decision(g, serviceNs, ns + "." + name, info, params, who, signedIn) == Open <==>
      && (params.Obj? || params.Null?)
      && (|| name == "schema" || (|name| >= 7 && name[|name| - 7..] == ".schema")
          || (ns == serviceNs && (name == "hash" || name == "hashes" || name == "ir")))
  {
    IntroducesBy(serviceNs, ns, name);
  }

  /** What a param names: nothing when it is absent or null; one target for each scalar of a list,
      or for the scalar it is; and what cannot be read is said to be so. */
  lemma TargetsSay(params: Json, param: string)
    ensures var t := TargetValues(params, param);
      var v := if params.Obj? then Member0(params.members, param) else None;
      && (v.None? || v.value.Null? ==> t == NoTarget)
      && (v.Some? && v.value.Str? ==> t == These([v.value.s]))
      && (v.Some? && v.value.Num? ==> t == These([v.value.text]))
      && (v.Some? && v.value.Bool? ==> t == These([if v.value.b then "true" else "false"]))
      && (v.Some? && v.value.Obj? ==> t == Unreadable)
      && (v.Some? && v.value.Arr? ==>
            && (t.Unreadable? <==> exists i :: 0 <= i < |v.value.items| && (v.value.items[i].Null? || v.value.items[i].Arr? || v.value.items[i].Obj?))
            && (!t.Unreadable? ==>
                  && t.These? && |t.values| == |v.value.items|
                  && forall i :: 0 <= i < |t.values| ==> TargetValues(Obj([Member(param, v.value.items[i])]), param) == These([t.values[i]])))
  {
    var v := if params.Obj? then Member0(params.members, param) else None;
    if v.Some? && v.value.Arr? && AllRead(v.value.items) {
      forall i | 0 <= i < |v.value.items|
        ensures TargetValues(Obj([Member(param, v.value.items[i])]), param) == These([One(v.value.items[i]).value])
      {
        assert One(v.value.items[i]).Some?;
      }
    }
  }

  /** The gate's order: the params' shape, the names that answer whoever asks, what is public, what
      every signed-in caller reaches, and then the grant, on every target or held anywhere. */
  lemma DecisionSays(g: Gate, serviceNs: string, path: string, info: Option<Info>, params: Json, who: Option<string>,
                     signedIn: set<string>)
    ensures var d := Decision(g, serviceNs, path, info, params, who, signedIn);
      var grant := if info.Some? && info.value.grant.Some? then info.value.grant.value else path;
      var targets := if info.Some? && info.value.target.Some? then TargetValues(params, info.value.target.value) else NoTarget;
      && (!(params.Obj? || params.Null?) ==> d == InvalidParams)
      && ((params.Obj? || params.Null?) && !Introspection(serviceNs, path) ==>
            if info.Some? && info.value.public then d == Reached
            else if grant in signedIn then d == if who.Some? then Reached else Unauthenticated
            else
              && (targets.Unreadable? ==> d == InvalidParams)
              && (targets == NoTarget || targets == These([]) ==> d == if g.check(who, grant, None) then Reached else NotAllowed)
              && (targets.These? && targets.values != [] && (forall t :: t in targets.values ==> g.check(who, grant, Some(t))) ==> d == Reached)
              && (targets.These? && (exists t :: t in targets.values && !g.check(who, grant, Some(t))) ==> d == NotAllowed))
  {
  }

  // ---------------------------------------------------------------- discoverable is usable

  /** The call names no target: the param is absent, null, or an empty list. */
  predicate NamesNoTarget(params: Json, m: V.Method) {
    ShapeOk(params) && (m.target.None? || TargetValues(params, m.target.value) in {NoTarget, These([])})
  }

  function Asking(g: Gate, who: Option<string>, signedIn: set<string>): V.Asker {
    V.Asker(g.heldOn, who, signedIn)
  }

  /** The method at the path is this one, and nobody else's. */
  ghost predicate Registered(base: V.Described, at: nat, i: nat, entries: seq<(string, Info)>) {
    && at < |base.activations| && i < |base.activations[at].methods|
    && var s := base.activations[at]; var m := s.methods[i];
       !m.role.StaticChild? && !V.IsAuto(m)
       && OnlyClaim(entries, Path(s.namespace, m), InfoOf(m, V.GrantOr(m, s.namespace)))
  }

  function PathOf(base: V.Described, at: nat, i: nat): string
    requires at < |base.activations| && i < |base.activations[at].methods|
  {
    Path(base.activations[at].namespace, base.activations[at].methods[i])
  }

  lemma KeptIsAdmitted(g: Gate, m: V.Method, ns: string, params: Json, who: Option<string>, signedIn: set<string>)
    requires Promises(g) && NamesNoTarget(params, m)
    ensures var info := InfoOf(m, V.GrantOr(m, ns)); var grant := V.GrantOr(m, ns);
      V.Keep(Asking(g, who, signedIn), grant, m.public).Some?
      <==> m.public || (if grant in signedIn then who.Some? else ChecksPass(g, who, grant, TargetsOf(Some(info), params)))
  {
  }

  lemma ShownOrIntroduces(g: Gate, digest: V.Digest, base: V.Described, at: nat, i: nat,
                          entries: seq<(string, Info)>, serviceNs: string, params: Json,
                          who: Option<string>, signedIn: set<string>)
    requires Promises(g) && Registered(base, at, i, entries)
    requires NamesNoTarget(params, base.activations[at].methods[i])
    ensures PathOf(base, at, i) in IndexOf(entries)
    ensures var path := PathOf(base, at, i);
      Admitted(Decision(g, serviceNs, path, Some(IndexOf(entries)[path]), params, who, signedIn))
      <==> P.IsShown(Asking(g, who, signedIn), digest, base, at, i) || Introspection(serviceNs, path)
  {
    var s := base.activations[at];
    var m := s.methods[i];
    OnlyClaimIsIndexed(entries, Path(s.namespace, m), InfoOf(m, V.GrantOr(m, s.namespace)));
    P.ShownIffDecided(Asking(g, who, signedIn), digest, base, at, i);
    KeptIsAdmitted(g, m, s.namespace, params, who, signedIn);
  }

  lemma AdmittedOrIntroduces(g: Gate, digest: V.Digest, base: V.Described, at: nat, i: nat,
                             entries: seq<(string, Info)>, serviceNs: string, params: Json,
                             who: Option<string>, signedIn: set<string>)
    requires Promises(g) && Registered(base, at, i, entries)
    ensures PathOf(base, at, i) in IndexOf(entries)
    ensures var path := PathOf(base, at, i);
      Admitted(Decision(g, serviceNs, path, Some(IndexOf(entries)[path]), params, who, signedIn))
      ==> P.IsShown(Asking(g, who, signedIn), digest, base, at, i) || Introspection(serviceNs, path)
  {
    var s := base.activations[at];
    var m := s.methods[i];
    OnlyClaimIsIndexed(entries, Path(s.namespace, m), InfoOf(m, V.GrantOr(m, s.namespace)));
    P.ShownIffDecided(Asking(g, who, signedIn), digest, base, at, i);
    PassingIsHeld(g, who, V.GrantOr(m, s.namespace), TargetsOf(Some(InfoOf(m, V.GrantOr(m, s.namespace))), params));
  }

  lemma PassingIsHeld(g: Gate, who: Option<string>, grant: string, targets: Targets)
    requires Promises(g)
    ensures !targets.Unreadable? && ChecksPass(g, who, grant, targets) ==>
      who.Some? && g.heldOn(who.value, grant) != []
  {
    if targets.These? && |targets.values| > 0 && ChecksPass(g, who, grant, targets) {
      assert g.check(who, grant, Some(targets.values[0]));
    }
  }

  /**
   * Discoverable is usable: a registered method of its own is in the caller's view exactly when a
   * call of it that names no target is admitted, but for the names that answer whoever asks, which
   * end in `.schema` or are the service's own `hash`, `hashes` and `ir`.
   */
  lemma DiscoverableIsUsable(g: Gate, digest: V.Digest, base: V.Described, at: nat, i: nat,
                             entries: seq<(string, Info)>, serviceNs: string, params: Json,
                             who: Option<string>, signedIn: set<string>)
    requires Promises(g) && Registered(base, at, i, entries)
    requires NamesNoTarget(params, base.activations[at].methods[i])
    ensures PathOf(base, at, i) in IndexOf(entries)
    ensures var path := PathOf(base, at, i);
      Admitted(Decision(g, serviceNs, path, Some(IndexOf(entries)[path]), params, who, signedIn))
      <==>
      || P.IsShown(Asking(g, who, signedIn), digest, base, at, i)
      || (|path| >= 7 && path[|path| - 7..] == ".schema")
      || ('.' !in serviceNs && (path == serviceNs + "." + "hash" || path == serviceNs + "." + "hashes" || path == serviceNs + "." + "ir"))
  {
    ShownOrIntroduces(g, digest, base, at, i, entries, serviceNs, params, who, signedIn);
    OpensByName(serviceNs, PathOf(base, at, i));
  }

  /**
   * Whatever a call names, the gate admits it only for a method the caller's view shows, but for
   * those names.
   */
  lemma AdmittedIsShown(g: Gate, digest: V.Digest, base: V.Described, at: nat, i: nat,
                        entries: seq<(string, Info)>, serviceNs: string, params: Json,
                        who: Option<string>, signedIn: set<string>)
    requires Promises(g) && Registered(base, at, i, entries)
    ensures PathOf(base, at, i) in IndexOf(entries)
    ensures var path := PathOf(base, at, i);
      Admitted(Decision(g, serviceNs, path, Some(IndexOf(entries)[path]), params, who, signedIn))
      ==>
      || P.IsShown(Asking(g, who, signedIn), digest, base, at, i)
      || (|path| >= 7 && path[|path| - 7..] == ".schema")
      || ('.' !in serviceNs && (path == serviceNs + "." + "hash" || path == serviceNs + "." + "hashes" || path == serviceNs + "." + "ir"))
  {
    AdmittedOrIntroduces(g, digest, base, at, i, entries, serviceNs, params, who, signedIn);
    OpensByName(serviceNs, PathOf(base, at, i));
  }

  /** A hidden method whose name alone admits every call of it: the exception is real. */
  lemma HiddenYetOpen(g: Gate, digest: V.Digest)
    requires Promises(g)
    ensures var m := V.Method("x.schema", None, false, V.Rpc, None, None, false, false, "");
      var s := V.Plugin("a", [m], None, map[], None, "", None, "", ""); var base := V.Described(s, [s], []);
      !P.IsShown(Asking(g, None, {}), digest, base, 0, 0)
      && Admitted(Decision(g, "hub", "a.x.schema", Some(InfoOf(m, "a.x.schema")), Null, None, {}))
  {
    var m := V.Method("x.schema", None, false, V.Rpc, None, None, false, false, "");
    var s := V.Plugin("a", [m], None, map[], None, "", None, "", "");
    P.ShownIffDecided(Asking(g, None, {}), digest, V.Described(s, [s], []), 0, 0);
    var path := "a.x.schema";
    assert path[0] != '.' && path[1..][0] == '.';
    assert FirstDot(path[1..]) == 0 && FirstDot(path) == 1;
    assert path[2..] == "x.schema" && "x.schema"[1..] == ".schema";
  }

  // ---------------------------------------------------------------- views grow with holdings

  /** Whoever asks second holds at least what the first does; the first may be nobody. */
  ghost predicate HoldsAtLeast(a: V.Asker, b: V.Asker) {
    && b.who.Some? && b.signedIn == a.signedIn
    && (a.who.Some? ==> forall grant :: a.heldOn(a.who.value, grant) != [] ==> b.heldOn(b.who.value, grant) != [])
  }

  lemma DecidedGrows(a: V.Asker, b: V.Asker, ns: string, below: seq<V.Below>, m: V.Method)
    requires HoldsAtLeast(a, b) && V.Decided(a, ns, below, m).Some?
    ensures V.Decided(b, ns, below, m).Some?
  {
  }

  lemma {:induction false} VisibleGrows(a: V.Asker, b: V.Asker, s: V.Plugin, below: seq<V.Below>, n: nat)
    requires HoldsAtLeast(a, b) && n <= |s.methods|
    ensures V.Visible(a, s, below, n) != [] ==> V.Visible(b, s, below, n) != []
  {
    if n > 0 {
      VisibleGrows(a, b, s, below, n - 1);
      if V.Decided(a, s.namespace, below, s.methods[n - 1]).Some? {
        DecidedGrows(a, b, s.namespace, below, s.methods[n - 1]);
      }
    }
  }

  /**
   * Views are monotone in holdings: what is shown to a caller, an auto `schema` entry and a
   * static child's included, is shown to one that holds as much; what nobody sees everyone sees.
   */
  lemma ViewsAreMonotone(a: V.Asker, b: V.Asker, digest: V.Digest, base: V.Described, at: nat, i: nat)
    requires HoldsAtLeast(a, b) && at < |base.activations| && i < |base.activations[at].methods|
    requires P.IsShown(a, digest, base, at, i)
    ensures P.IsShown(b, digest, base, at, i)
    ensures P.OneEach(base) ==> P.InView(a, digest, base, at, i) && P.InView(b, digest, base, at, i)
  {
    if P.OneEach(base) {
      P.ShownIsInView(a, digest, base, at, i);
      P.ShownIsInView(b, digest, base, at, i);
    }
    var s := base.activations[at];
    if V.IsAuto(s.methods[i]) {
      var n := |s.methods|;
      P.KeptMethods(a, digest, if a.who.Some? then V.Caller else V.Anonymous, base, at);
      P.KeptMethods(b, digest, V.Caller, base, at);
      VisibleGrows(a, b, s, base.below, n);
      P.ShownAmong(V.Visible(a, s, base.below, n), V.Entry(s, n), i);
      P.ShownAmong(V.Visible(b, s, base.below, n), V.Entry(s, n), i);
      P.VisibleHolds(a, s, base.below, n, i);
    } else {
      P.ShownIffDecided(a, digest, base, at, i);
      P.ShownIffDecided(b, digest, base, at, i);
      DecidedGrows(a, b, s.namespace, base.below, s.methods[i]);
    }
  }
}
