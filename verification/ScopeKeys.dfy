/** Scope keys, the only isolation boundary: how a request is mapped to a store, and how
    response ids chain requests into the scope that produced them. */
module ScopeKeys {
  import opened Configs
  import opened Wrappers

  datatype ScopeIds = ScopeIds(session: string, agent: string, apiKey: string, prevResponseId: string)

  predicate IsHex(c: char) { '0' <= c <= '9' || 'a' <= c <= 'f' }

  ghost predicate IsHash(h: string) {
    |h| == 16 && forall i :: 0 <= i < |h| ==> IsHex(h[i])
  }

  /** `hash` is a fingerprint of 16 hexadecimal digits. */
  ghost predicate HashOk(hash: string -> string) {
    forall s :: IsHash(hash(s))
  }

  /** The API-key hash of the presenter; empty for an unkeyed request. */
  function Owner(hash: string -> string, ids: ScopeIds): string {
    if ids.apiKey == "" then "" else hash(ids.apiKey)
  }

  function Tag(owner: string): string { if owner == "" then "anon" else owner }

  function FreshSessionKey(hash: string -> string, ids: ScopeIds): string {
    var owner := Owner(hash, ids);
    if ids.session != "" then "s-" + Tag(owner) + "-" + hash(ids.session)
    else if ids.agent != "" then "s-" + Tag(owner) + "-agent-" + hash(ids.agent)
    else if owner != "" then "s-" + owner
    else ""
  }

  function AgentKey(hash: string -> string, ids: ScopeIds): string {
    var owner := Owner(hash, ids);
    if ids.agent != "" then "a-" + Tag(owner) + "-" + hash(ids.agent)
    else if owner != "" then "a-" + owner
    else ""
  }

  // Chains of response ids

  datatype Entry = Entry(scope: string, owner: string)

  datatype Chains = Chains(scopes: map<string, Entry>, order: seq<string>)

  const MAX_CHAINS := 4096

  const NO_CHAINS := Chains(map[], [])

  function TrimLeft(s: string): string {
    if s != "" && (s[0] == ' ' || s[0] == '\t') then TrimLeft(s[1..]) else s
  }

  function TrimRight(s: string): string {
    if s != "" && (s[|s| - 1] == ' ' || s[|s| - 1] == '\t') then TrimRight(s[..|s| - 1]) else s
  }

  function Trim(s: string): string { TrimRight(TrimLeft(s)) }

  function DropOldest(c: Chains): Chains
    decreases |c.order|
  {
    if |c.order| > MAX_CHAINS then DropOldest(Chains(c.scopes - {c.order[0]}, c.order[1..])) else c
  }

  /** The chains with one more recorded, before the oldest are dropped. */
  function Recorded(c: Chains, id: string, e: Entry): Chains {
    Chains(c.scopes[id := e], if id in c.scopes then c.order else c.order + [id])
  }

  function Remember(c: Chains, respId: string, scope: string, owner: string): Chains {
    var id := Trim(respId);
    if id == "" || scope == "" then c
    else DropOldest(Recorded(c, id, Entry(scope, owner)))
  }

  function Resolve(c: Chains, respId: string, owner: string): Option<string> {
    if respId in c.scopes && c.scopes[respId].owner == owner then Some(c.scopes[respId].scope) else None
  }

  const GLOBAL := "global"

  function ScopeKey(mode: MemoryScope, hash: string -> string, c: Chains, ids: ScopeIds): string {
    match mode
    case Global => GLOBAL
    case Agent => AgentKey(hash, ids)
    case Session =>
      if ids.session == "" && ids.prevResponseId != "" && Resolve(c, ids.prevResponseId, Owner(hash, ids)).Some?
      then Resolve(c, ids.prevResponseId, Owner(hash, ids)).value
      else FreshSessionKey(hash, ids)
  }

  // Reading a key back

  /** What a key says: who owns the scope and what it is bucketed by. */
  datatype Scope =
    | BySession(owner: string, id: string)
    | ByAgent(owner: string, id: string)
    | ByKey(owner: string)

  ghost predicate ScopeOk(x: Scope) {
    && (x.owner == "" || IsHash(x.owner))
    && (x.ByKey? ==> x.owner != "")
    && (!x.ByKey? ==> IsHash(x.id))
  }

  function Render(x: Scope): string {
    match x
    case BySession(owner, id) => "s-" + Tag(owner) + "-" + id
    case ByAgent(owner, id) => "s-" + Tag(owner) + "-agent-" + id
    case ByKey(owner) => "s-" + owner
  }

  function ParseRest(owner: string, rest: string): Option<Scope> {
    if rest == "" then Some(ByKey(owner))
    else if StartsWith(rest, "-agent-") then Some(ByAgent(owner, rest[7..]))
    else if StartsWith(rest, "-") then Some(BySession(owner, rest[1..]))
    else None
  }

  function Parse(key: string): Option<Scope> {
    if !StartsWith(key, "s-") then None
    else if StartsWith(key[2..], "anon") then ParseRest("", key[6..])
    else if |key| >= 18 then ParseRest(key[2..18], key[18..])
    else None
  }

  lemma RenderedParts(x: Scope)
    requires ScopeOk(x)
    ensures var key := Render(x); var n := 2 + |Tag(x.owner)|;
      && StartsWith(key, "s-") && |key| >= n && key[2..n] == Tag(x.owner)
      && key[n..] == Suffix(x)
  {
    assert Render(x) == "s-" + Tag(x.owner) + Suffix(x);
    Cut("s-", Tag(x.owner), Suffix(x));
  }

  function Suffix(x: Scope): string {
    match x
    case BySession(_, id) => "-" + id
    case ByAgent(_, id) => "-agent-" + id
    case ByKey(_) => ""
  }

  lemma Cut(a: string, b: string, c: string)
    ensures (a + b + c)[..|a|] == a && (a + b + c)[|a|..|a| + |b|] == b && (a + b + c)[|a| + |b|..] == c
  {
  }

  lemma SuffixReadsBack(x: Scope)
    requires ScopeOk(x)
    ensures ParseRest(x.owner, Suffix(x)) == Some(x)
  {
    match x
    case BySession(_, id) =>
      var rest := "-" + id;
      assert rest[1..] == id;
      assert IsHex(id[1]) && rest[..7][2] == id[1] && "-agent-"[2] == 'g';
    case ByAgent(_, id) => assert ("-agent-" + id)[7..] == id && ("-agent-" + id)[..7] == "-agent-";
    case ByKey(_) =>
  }

  lemma HashIsNotAnon(owner: string, key: string)
    requires IsHash(owner) && |key| >= 18 && key[2..18] == owner
    ensures !StartsWith(key[2..], "anon")
  {
    assert key[2..][..4] == owner[..4];
    assert IsHex(owner[1]) && owner[1] == owner[..4][1];
    assert "anon"[1] == 'n';
  }

  /** Keys read back uniquely. */
  lemma ParseRender(x: Scope)
    requires ScopeOk(x)
    ensures Parse(Render(x)) == Some(x)
  {
    var key := Render(x);
    RenderedParts(x);
    SuffixReadsBack(x);
    if x.owner == "" {
      assert key[2..][..4] == key[2..6];
    } else {
      HashIsNotAnon(x.owner, key);
    }
  }

  /** The key a request is given without a chain reads back as its own owner and what it is
      bucketed by: its session, or else its agent, or else its API key alone. */
  lemma FreshKeyReadsBack(hash: string -> string, ids: ScopeIds)
    requires HashOk(hash)
    ensures FreshSessionKey(hash, ids) == "" <==> ids.session == "" && ids.agent == "" && ids.apiKey == ""
    ensures var owner := if ids.apiKey == "" then "" else hash(ids.apiKey);
      FreshSessionKey(hash, ids) != "" ==>
        Parse(FreshSessionKey(hash, ids)) == Some(
          if ids.session != "" then BySession(owner, hash(ids.session))
          else if ids.agent != "" then ByAgent(owner, hash(ids.agent))
          else ByKey(owner))
  {
    var owner := Owner(hash, ids);
    assert IsHash(hash(ids.apiKey)) && IsHash(hash(ids.session)) && IsHash(hash(ids.agent));
    if ids.session != "" {
      ParseRender(BySession(owner, hash(ids.session)));
    } else if ids.agent != "" {
      ParseRender(ByAgent(owner, hash(ids.agent)));
    } else if owner != "" {
      ParseRender(ByKey(owner));
    }
  }

  // Keys of agent scope

  /** Agent keys have no sessions in them. */
  function RenderAgent(x: Scope): string
    requires !x.BySession?
  {
    match x
    case ByAgent(owner, id) => "a-" + Tag(owner) + "-" + id
    case ByKey(owner) => "a-" + owner
  }

  /** An agent key is spelled like a session key, but for its first letter. */
  function ParseAgent(key: string): Option<Scope> {
    if !StartsWith(key, "a-") then None
    else
      match Parse("s-" + key[2..])
      case Some(BySession(owner, id)) => Some(ByAgent(owner, id))
      case Some(ByKey(owner)) => Some(ByKey(owner))
      case _ => None
  }

  /** Agent keys read back uniquely, and are no session keys. */
  lemma ParseRenderAgent(x: Scope)
    requires ScopeOk(x) && !x.BySession?
    ensures ParseAgent(RenderAgent(x)) == Some(x) && Parse(RenderAgent(x)) == None
  {
    var y := match x case ByAgent(owner, id) => BySession(owner, id) case ByKey(_) => x;
    var rest := Tag(x.owner) + Suffix(y);
    assert RenderAgent(x) == "a-" + rest && Render(y) == "s-" + rest;
    ParseRender(y);
    FirstLetter("a-", rest);
  }

  lemma FirstLetter(prefix: string, rest: string)
    requires |prefix| == 2 && prefix[0] != 's'
    ensures (prefix + rest)[2..] == rest && StartsWith(prefix + rest, prefix) && !StartsWith(prefix + rest, "s-")
  {
    assert (prefix + rest)[..2] == prefix;
  }

  /** The key a request is given in agent scope reads back as its own owner and agent. */
  lemma AgentKeyReadsBack(hash: string -> string, ids: ScopeIds)
    requires HashOk(hash)
    ensures AgentKey(hash, ids) == "" <==> ids.agent == "" && ids.apiKey == ""
    ensures var owner := if ids.apiKey == "" then "" else hash(ids.apiKey);
      AgentKey(hash, ids) != "" ==>
        ParseAgent(AgentKey(hash, ids)) ==
          Some(if ids.agent != "" then ByAgent(owner, hash(ids.agent)) else ByKey(owner))
    ensures Parse(AgentKey(hash, ids)) == None
  {
    var owner := Owner(hash, ids);
    assert IsHash(hash(ids.apiKey)) && IsHash(hash(ids.agent));
    if ids.agent != "" {
      ParseRenderAgent(ByAgent(owner, hash(ids.agent)));
    } else if owner != "" {
      ParseRenderAgent(ByKey(owner));
    }
  }

  /** No request is given in agent scope what another is given afresh in session scope. */
  lemma ModesNeverMeet(hash: string -> string, ids1: ScopeIds, ids2: ScopeIds)
    requires HashOk(hash) && AgentKey(hash, ids1) != ""
    ensures AgentKey(hash, ids1) != FreshSessionKey(hash, ids2)
  {
    AgentKeyReadsBack(hash, ids1);
    FreshKeyReadsBack(hash, ids2);
  }

  /** Requests with sessions of their own share a scope exactly if session and API key agree, as
      far as their fingerprints tell, whatever response ids are remembered and presented. */
  lemma SessionsApart(hash: string -> string, c1: Chains, ids1: ScopeIds, c2: Chains, ids2: ScopeIds)
    requires HashOk(hash) && ids1.session != "" && ids2.session != ""
    ensures ScopeKey(Session, hash, c1, ids1) == ScopeKey(Session, hash, c2, ids2) <==>
      hash(ids1.session) == hash(ids2.session) &&
      (ids1.apiKey == "" <==> ids2.apiKey == "") && (ids1.apiKey != "" ==> hash(ids1.apiKey) == hash(ids2.apiKey))
  {
    FreshKeyReadsBack(hash, ids1);
    FreshKeyReadsBack(hash, ids2);
    assert IsHash(hash(ids1.apiKey)) && IsHash(hash(ids2.apiKey));
  }

  /** A request without a session that presents a remembered response id continues in the scope
      of that response if it has the API key that produced it, and otherwise goes where it would
      go without; a request with a session is not moved. */
  lemma ChainsMove(hash: string -> string, c: Chains, ids: ScopeIds, respId: string, scope: string, owner: string)
    requires HashOk(hash) && Lists(c) && |c.order| <= 4096
    requires ids.prevResponseId == respId == Trim(respId) != "" && scope != ""
    ensures var own := if ids.apiKey == "" then "" else hash(ids.apiKey);
      ScopeKey(Session, hash, Remember(c, respId, scope, owner), ids) ==
        if ids.session == "" && own == owner then scope
        else ScopeKey(Session, hash, NO_CHAINS, ids)
  {
    ResolveOnlyForOwner(c, respId, scope, owner, Owner(hash, ids));
  }

  lemma {:induction false} TrimLeftCuts(s: string) returns (left: string)
    ensures s == left + TrimLeft(s) && AllBlank(left) && (TrimLeft(s) != "" ==> TrimLeft(s)[0] !in " \t")
  {
    left := "";
    if s != "" && (s[0] == ' ' || s[0] == '\t') {
      var l := TrimLeftCuts(s[1..]);
      left := [s[0]] + l;
    }
  }

  lemma {:induction false} TrimRightCuts(s: string) returns (right: string)
    ensures s == TrimRight(s) + right && AllBlank(right)
    ensures TrimRight(s) != "" ==> TrimRight(s)[|TrimRight(s)| - 1] !in " \t"
    ensures TrimRight(s) <= s
  {
    right := "";
    if s != "" && (s[|s| - 1] == ' ' || s[|s| - 1] == '\t') {
      var r := TrimRightCuts(s[..|s| - 1]);
      right := r + [s[|s| - 1]];
    }
  }

  ghost predicate AllBlank(s: string) { forall c :: c in s ==> c in " \t" }

  /** A response id is remembered without the blanks and tabs around it, and nothing else is cut. */
  lemma TrimCuts(s: string) returns (left: string, right: string)
    ensures s == left + Trim(s) + right && AllBlank(left) && AllBlank(right)
    ensures Trim(s) != "" ==> Trim(s)[0] !in " \t" && Trim(s)[|Trim(s)| - 1] !in " \t"
  {
    left := TrimLeftCuts(s);
    right := TrimRightCuts(TrimLeft(s));
    if Trim(s) != "" { assert Trim(s)[0] == TrimLeft(s)[0]; }
  }

  // Owners

  /** A key of either scope, read back. */
  function ReadKey(key: string): Option<Scope> {
    if Parse(key).Some? then Parse(key) else ParseAgent(key)
  }

  ghost predicate OwnedBy(key: string, owner: string) {
    ReadKey(key).Some? && ReadKey(key).value.owner == owner
  }

  /** The scope may go to the owner: it carries the owner's key hash, or is the one that is
      shared on purpose, if that was ever asked for. */
  ghost predicate Rightful(key: string, owner: string, global: bool) {
    OwnedBy(key, owner) || (global && key == GLOBAL)
  }

  // The store over whole runs, in any scope mode

  ghost predicate AllRightful(c: Chains, global: bool) {
    forall id :: id in c.scopes ==> Rightful(c.scopes[id].scope, c.scopes[id].owner, global)
  }

  /** `order` lists the keys of `scopes`, each once, oldest first, and is bounded; each
      scope carries the key hash of the request that produced it. */
  ghost predicate ChainsOk(c: Chains, global: bool) {
    |c.order| <= MAX_CHAINS && Lists(c) && AllRightful(c, global)
  }

  ghost predicate Lists(c: Chains) {
    && (forall i, j :: 0 <= i < j < |c.order| ==> c.order[i] != c.order[j])
    && (forall id :: id in c.order <==> id in c.scopes)
  }

  lemma {:induction false} DropOldestKeeps(c: Chains)
    requires Lists(c)
    ensures Lists(DropOldest(c)) && |DropOldest(c).order| <= 4096
    ensures forall id :: id in DropOldest(c).scopes ==> id in c.scopes && DropOldest(c).scopes[id] == c.scopes[id]
    ensures DropOldest(c).order == c.order[if |c.order| > 4096 then |c.order| - 4096 else 0..]
    decreases |c.order|
  {
    if |c.order| > MAX_CHAINS {
      var rest := Chains(c.scopes - {c.order[0]}, c.order[1..]);
      assert c.order == [c.order[0]] + rest.order;
      DropOldestKeeps(rest);
    }
  }

  lemma RecordLists(c: Chains, id: string, e: Entry)
    requires Lists(c) && |c.order| <= MAX_CHAINS
    ensures var c1 := Recorded(c, id, e);
      Lists(c1) && |c1.order| <= MAX_CHAINS + 1 && (|c1.order| > MAX_CHAINS ==> c1.order[|c1.order| - 1] == id)
  {
    if id !in c.scopes { assert forall x :: x in c.order + [id] <==> x in c.order || x == id; }
  }

  lemma FewerStillRightful(c: Chains, c': Chains, global: bool)
    requires AllRightful(c, global) && forall id :: id in c'.scopes ==> id in c.scopes && c'.scopes[id] == c.scopes[id]
    ensures AllRightful(c', global)
  {
  }

  lemma RecordedRightful(c: Chains, id: string, e: Entry, global: bool)
    requires AllRightful(c, global) && Rightful(e.scope, e.owner, global)
    ensures AllRightful(Recorded(c, id, e), global)
  {
  }

  lemma RememberKeeps(c: Chains, respId: string, scope: string, owner: string, global: bool)
    requires ChainsOk(c, global) && (scope != "" ==> Rightful(scope, owner, global))
    ensures ChainsOk(Remember(c, respId, scope, owner), global)
  {
    var id := Trim(respId);
    if id != "" && scope != "" {
      var c1 := Recorded(c, id, Entry(scope, owner));
      RecordLists(c, id, Entry(scope, owner));
      RecordedRightful(c, id, Entry(scope, owner), global);
      KeepsLast(c1, id);
      FewerStillRightful(c1, DropOldest(c1), global);
    }
  }

  lemma KeepsLast(c1: Chains, id: string)
    requires Lists(c1) && |c1.order| <= MAX_CHAINS + 1 && id in c1.scopes
    requires |c1.order| > MAX_CHAINS ==> c1.order[|c1.order| - 1] == id
    ensures Lists(DropOldest(c1)) && |DropOldest(c1).order| <= MAX_CHAINS && id in DropOldest(c1).scopes
    ensures forall x :: x in DropOldest(c1).scopes ==> x in c1.scopes && DropOldest(c1).scopes[x] == c1.scopes[x]
  {
    DropOldestKeeps(c1);
    if |c1.order| > MAX_CHAINS {
      var o := DropOldest(c1).order;
      assert o[|o| - 1] == id;
    }
  }

  /** Requests resolve their scope in one step, in the mode then set, and may remember a
      response id under it in a later one, with any other steps in between; a drain forgets
      all chains. */
  datatype Step =
    | Request(mode: MemoryScope, ids: ScopeIds)
    | Respond(respId: string, scope: string, owner: string)
    | Forget

  /** `given` is history: every scope handed to a request, with the owner it presented. */
  datatype State = State(chains: Chains, given: set<(string, string)>)

  predicate Possible(s: State, e: Step) {
    e.Respond? ==> (e.scope, e.owner) in s.given
  }

  function Take(hash: string -> string, s: State, e: Step): State {
    match e
    case Request(mode, ids) =>
      var key := ScopeKey(mode, hash, s.chains, ids);
      if key == "" then s else s.(given := s.given + {(key, Owner(hash, ids))})
    case Respond(id, scope, owner) => s.(chains := Remember(s.chains, id, scope, owner))
    case Forget => s.(chains := NO_CHAINS)
  }

  function Run(hash: string -> string, steps: seq<Step>): State {
    if steps == [] then State(NO_CHAINS, {})
    else
      var s, e := Run(hash, steps[..|steps| - 1]), steps[|steps| - 1];
      if Possible(s, e) then Take(hash, s, e) else s
  }

  /** The shared scope was asked for. */
  predicate AsksGlobal(steps: seq<Step>) {
    exists i :: 0 <= i < |steps| && steps[i].Request? && steps[i].mode.Global?
  }

  lemma AskedStays(steps: seq<Step>)
    requires steps != []
    ensures AsksGlobal(steps[..|steps| - 1]) ==> AsksGlobal(steps)
    ensures steps[|steps| - 1].Request? && steps[|steps| - 1].mode.Global? ==> AsksGlobal(steps)
  {
    var init := steps[..|steps| - 1];
    if AsksGlobal(init) {
      var i :| 0 <= i < |init| && init[i].Request? && init[i].mode.Global?;
      assert steps[i] == init[i];
    }
  }

  /** What a request is given, from chains that are in order. */
  lemma RequestIsRightful(hash: string -> string, c: Chains, mode: MemoryScope, ids: ScopeIds, global: bool)
    requires HashOk(hash) && AllRightful(c, global) && (mode.Global? ==> global)
    ensures var key := ScopeKey(mode, hash, c, ids); key != "" ==> Rightful(key, Owner(hash, ids), global)
  {
    FreshKeyReadsBack(hash, ids);
    AgentKeyReadsBack(hash, ids);
  }

  /** In every run, with any changes of the scope mode and through any chain of response ids,
      a scope that a request is given carries the request's own key hash, or the anonymous tag
      for an unkeyed one; the shared scope is given only if some request asked for it. */
  lemma {:induction false} ScopesStayWithOwner(hash: string -> string, steps: seq<Step>)
    requires HashOk(hash)
    ensures ChainsOk(Run(hash, steps).chains, AsksGlobal(steps))
    ensures forall g :: g in Run(hash, steps).given ==> Rightful(g.0, g.1, AsksGlobal(steps))
    decreases |steps|
  {
    if steps != [] {
      var init := steps[..|steps| - 1];
      var s, e := Run(hash, init), steps[|steps| - 1];
      ScopesStayWithOwner(hash, init);
      AskedStays(steps);
      StepIsRightful(hash, s, e, AsksGlobal(init), AsksGlobal(steps));
    }
  }

  lemma StepIsRightful(hash: string -> string, s: State, e: Step, before: bool, global: bool)
    requires HashOk(hash) && ChainsOk(s.chains, before) && (before ==> global)
    requires forall g :: g in s.given ==> Rightful(g.0, g.1, before)
    requires e.Request? && e.mode.Global? ==> global
    ensures var s' := if Possible(s, e) then Take(hash, s, e) else s;
      ChainsOk(s'.chains, global) && forall g :: g in s'.given ==> Rightful(g.0, g.1, global)
  {
    match e
    case Request(mode, ids) => RequestIsRightful(hash, s.chains, mode, ids, global);
    case Respond(id, scope, owner) =>
      if Possible(s, e) {
        assert Rightful((scope, owner).0, (scope, owner).1, before);
        RememberKeeps(s.chains, id, scope, owner, global);
      }
    case Forget =>
  }

  /** Two requests that present different API keys are never given the same scope, but for the
      one that is shared on purpose. */
  lemma OwnersNeverShare(hash: string -> string, steps: seq<Step>, scope: string, owner1: string, owner2: string)
    requires HashOk(hash)
    requires (scope, owner1) in Run(hash, steps).given && (scope, owner2) in Run(hash, steps).given
    ensures owner1 == owner2 || (scope == GLOBAL && AsksGlobal(steps))
  {
    ScopesStayWithOwner(hash, steps);
    assert Rightful((scope, owner1).0, (scope, owner1).1, AsksGlobal(steps));
    assert Rightful((scope, owner2).0, (scope, owner2).1, AsksGlobal(steps));
  }

  /** Remembering an id makes it the newest, unless it is known already; then it keeps its place
      and only its entry changes.  The other ids keep theirs, but for the oldest beyond 4096. */
  lemma RememberMoves(c: Chains, respId: string, scope: string, owner: string)
    requires Lists(c) && |c.order| <= 4096
    ensures var id, c' := Trim(respId), Remember(c, respId, scope, owner);
      if id == "" || scope == "" then c' == c
      else
        var all := if id in c.order then c.order else c.order + [id];
        && c'.order == all[if |all| > 4096 then 1 else 0..]
        && (forall x :: x in c'.scopes <==> x in c'.order)
        && (forall x :: x in c'.scopes ==> if x == id then c'.scopes[x] == Entry(scope, owner)
              else x in c.scopes && c'.scopes[x] == c.scopes[x])
  {
    var id := Trim(respId);
    if id != "" && scope != "" {
      RecordLists(c, id, Entry(scope, owner));
      DropOldestKeeps(Recorded(c, id, Entry(scope, owner)));
    }
  }

  /** An id is resolved only for the identity that produced it. */
  lemma ResolveOnlyForOwner(c: Chains, respId: string, scope: string, owner: string, presenter: string)
    requires Lists(c) && |c.order| <= MAX_CHAINS && Trim(respId) == respId != "" && scope != ""
    ensures Resolve(Remember(c, respId, scope, owner), respId, presenter)
      == if presenter == owner then Some(scope) else None
  {
    RecordLists(c, respId, Entry(scope, owner));
    KeepsLast(Recorded(c, respId, Entry(scope, owner)), respId);
  }
}
