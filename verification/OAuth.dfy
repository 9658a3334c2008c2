// ui/worker/lib/oauth.ts: the handlers of the token endpoints as interleaved steps over the
// rows they change. Each SQL statement or batch is one step; ids stand for hashes.
module OAuth {
  import opened Text

  type Id = nat

  datatype Grant = Grant(client: Id, revokedAt: Option<nat>)
  datatype Code = Code(grant: Id, client: Id, redirect: string, challenge: string, expires: nat, usedAt: Option<nat>)
  datatype Kind = Access | Refresh
  datatype Token = Token(grant: Id, kind: Kind, expires: nat, revokedAt: Option<nat>)

  datatype Tables = Tables(grants: map<Id, Grant>, codes: map<Id, Code>, tokens: map<Id, Token>)

  const EMPTY := Tables(map[], map[], map[])
  const CODE_TTL_MS := 5 * 60 * 1000
  const ACCESS_TTL_MS := 60 * 60 * 1000
  const REFRESH_TTL_MS := 30 * 24 * 60 * 60 * 1000

  // ------------------------------------------------- SQL statements

  /** The batch of an approval: a grant and its code. */
  function InsertGrant(t: Tables, grant: Id, code: Id, row: Code): Tables {
    t.(grants := t.grants[grant := Grant(row.client, None)], codes := t.codes[code := row])
  }

  function MarkUsed(t: Tables, code: Id, now: nat): Tables
    requires code in t.codes
  {
    t.(codes := t.codes[code := t.codes[code].(usedAt := Some(now))])
  }

  function RevokeToken(t: Tables, token: Id, now: nat): Tables
    requires token in t.tokens
  {
    t.(tokens := t.tokens[token := t.tokens[token].(revokedAt := Some(now))])
  }

  /** The batch of issueTokens. */
  function InsertTokens(t: Tables, grant: Id, access: Id, refresh: Id, now: nat): Tables {
    t.(tokens := t.tokens[access := Token(grant, Access, now + ACCESS_TTL_MS, None)]
                         [refresh := Token(grant, Refresh, now + REFRESH_TTL_MS, None)])
  }

  function RevokeGrant(t: Tables, grant: Id, now: nat): Tables {
    if MayIssue(t, grant) then
      t.(grants := t.grants[grant := t.grants[grant].(revokedAt := Some(now))])
    else t
  }

  function RevokeTokensOf(t: Tables, grant: Id, now: nat): Tables {
    t.(tokens := map id | id in t.tokens ::
         if t.tokens[id].grant == grant && t.tokens[id].revokedAt.None? then t.tokens[id].(revokedAt := Some(now))
         else t.tokens[id])
  }

  /** The grant exists and is not revoked. */
  predicate MayIssue(t: Tables, grant: Id) { grant in t.grants && t.grants[grant].revokedAt.None? }

  predicate Revoked(t: Tables, grant: Id) { grant in t.grants && t.grants[grant].revokedAt.Some? }

  // ------------------------------------------------ checks of handlers

  datatype CodeForm = CodeForm(code: Id, client: Id, redirect: string, challenge: string)

  predicate CodeAccepted(t: Tables, f: CodeForm, now: nat) {
    && f.code in t.codes
    && var row := t.codes[f.code];
       row.usedAt.None? && row.expires > now && row.client == f.client && row.redirect == f.redirect && row.challenge == f.challenge
  }

  /** The joined row of lookupToken has the token itself, its grant and no revocation. */
  predicate TokenLive(t: Tables, token: Id, kind: Kind, now: nat) {
    && token in t.tokens && t.tokens[token].grant in t.grants
    && t.tokens[token].kind == kind && t.tokens[token].expires > now && t.tokens[token].revokedAt.None?
    && t.grants[t.tokens[token].grant].revokedAt.None?
  }

  predicate RefreshAccepted(t: Tables, token: Id, client: Id, now: nat) {
    TokenLive(t, token, Refresh, now) && t.grants[t.tokens[token].grant].client == client
  }

  /** authenticateOAuthBearer. */
  predicate Authenticates(t: Tables, token: Id, now: nat) { TokenLive(t, token, Access, now) }

  // ----------------------------------------------------- step system

  /** Where a handler stands between two of its statements. */
  datatype Proc =
    | UsingCode(code: Id, grant: Id, now: nat)
    | UsingRefresh(token: Id, grant: Id, now: nat)
    | Checking(grant: Id, now: nat)
    | Inserting(grant: Id, now: nat)
    | RevokingAll(grant: Id, now: nat)
    | RevokingTokens(grant: Id, now: nat)

  datatype State = State(t: Tables, procs: map<Id, Proc>)

  const INITIAL := State(EMPTY, map[])

  /** A Read step starts a handler p; the others are its later statements. */
  datatype Event =
    | Approve(grant: Id, code: Id, client: Id, redirect: string, challenge: string, now: nat)
    | ReadCode(p: Id, form: CodeForm, now: nat)
    | ReadRefresh(p: Id, token: Id, client: Id, now: nat)
    | Use(p: Id)
    | CheckGrant(p: Id)
    | Insert(p: Id, access: Id, refresh: Id)
    | ReadRevoke(p: Id, token: Id, now: nat)
    | RevokeAll(p: Id)
    | AgentRevoke(p: Id, grant: Id, now: nat)
    | AgentRevokeTokens(p: Id)

  predicate Enabled(s: State, e: Event) {
    match e
    case Approve(grant, code, _, _, _, _) => grant !in s.t.grants && code !in s.t.codes
    case ReadCode(p, _, _) => p !in s.procs
    case ReadRefresh(p, _, _, _) => p !in s.procs
    case Use(p) => p in s.procs && (s.procs[p].UsingCode? || s.procs[p].UsingRefresh?)
    case CheckGrant(p) => p in s.procs && s.procs[p].Checking?
    case Insert(p, access, refresh) =>
      p in s.procs && s.procs[p].Inserting? && access != refresh && access !in s.t.tokens && refresh !in s.t.tokens
    case ReadRevoke(p, _, _) => p !in s.procs
    case RevokeAll(p) => p in s.procs && s.procs[p].RevokingAll?
    case AgentRevoke(p, _, _) => p !in s.procs
    case AgentRevokeTokens(p) => p in s.procs && s.procs[p].RevokingTokens?
  }

  /** The conditional update of UsingCode or UsingRefresh changes a row. */
  predicate Consumes(t: Tables, p: Proc) {
    match p
    case UsingCode(code, _, _) => code in t.codes && t.codes[code].usedAt.None?
    case UsingRefresh(token, _, _) => token in t.tokens && t.tokens[token].revokedAt.None?
    case _ => false
  }

  function Consumed(t: Tables, p: Proc): Tables
    requires Consumes(t, p)
  {
    if p.UsingCode? then MarkUsed(t, p.code, p.now) else RevokeToken(t, p.token, p.now)
  }

  function Done(s: State, p: Id): State { s.(procs := s.procs - {p}) }

  function Next(s: State, e: Event): State
    requires Enabled(s, e)
  {
    var t := s.t;
    match e
    case Approve(grant, code, client, redirect, challenge, now) =>
      s.(t := InsertGrant(t, grant, code, Code(grant, client, redirect, challenge, now + CODE_TTL_MS, None)))
    case ReadCode(p, form, now) =>
      if CodeAccepted(t, form, now) then s.(procs := s.procs[p := UsingCode(form.code, t.codes[form.code].grant, now)]) else s
    case ReadRefresh(p, token, client, now) =>
      if RefreshAccepted(t, token, client, now) then s.(procs := s.procs[p := UsingRefresh(token, t.tokens[token].grant, now)]) else s
    case Use(p) =>
      if Consumes(t, s.procs[p]) then State(Consumed(t, s.procs[p]), s.procs[p := Checking(s.procs[p].grant, s.procs[p].now)])
      else Done(s, p)
    case CheckGrant(p) =>
      var g := s.procs[p].grant;
      if MayIssue(t, g) then s.(procs := s.procs[p := Inserting(g, s.procs[p].now)]) else Done(s, p)
    case Insert(p, access, refresh) => Done(s.(t := InsertTokens(t, s.procs[p].grant, access, refresh, s.procs[p].now)), p)
    case ReadRevoke(p, token, now) =>
      if token in t.tokens && t.tokens[token].grant in t.grants then s.(procs := s.procs[p := RevokingAll(t.tokens[token].grant, now)]) else s
    case RevokeAll(p) =>
      var g, now := s.procs[p].grant, s.procs[p].now;
      Done(s.(t := RevokeTokensOf(RevokeGrant(t, g, now), g, now)), p)
    case AgentRevoke(p, grant, now) =>
      if MayIssue(t, grant) then
        State(RevokeGrant(t, grant, now), s.procs[p := RevokingTokens(grant, now)])
      else s
    case AgentRevokeTokens(p) => Done(s.(t := RevokeTokensOf(t, s.procs[p].grant, s.procs[p].now)), p)
  }

  ghost predicate IsRun(s: State, events: seq<Event>, t: State)
    decreases |events|
  {
    if events == [] then t == s
    else Enabled(s, events[0]) && IsRun(Next(s, events[0]), events[1..], t)
  }

  // ------------------------------------- one right to tokens per grant

  /** What can still turn into tokens: an unused code, an issuance under way, or a refresh
      token not revoked. */
  datatype Right = ByCode(code: Id) | ByProc(p: Id) | ByRefresh(token: Id)

  predicate Issuing(q: Proc, grant: Id) { (q.Checking? || q.Inserting?) && q.grant == grant }

  predicate Holds(s: State, grant: Id, r: Right) {
    match r
    case ByCode(c) => c in s.t.codes && s.t.codes[c].grant == grant && s.t.codes[c].usedAt.None?
    case ByProc(p) => p in s.procs && Issuing(s.procs[p], grant)
    case ByRefresh(k) => k in s.t.tokens && s.t.tokens[k].grant == grant && s.t.tokens[k].kind.Refresh? && s.t.tokens[k].revokedAt.None?
  }

  ghost predicate AtMostOne(s: State, grant: Id) {
    forall a, b :: Holds(s, grant, a) && Holds(s, grant, b) ==> a == b
  }

  /** What a handler remembers of the row it is about to consume is still what the row says. */
  predicate ProcSound(t: Tables, q: Proc) {
    && q.grant in t.grants
    && (q.UsingCode? ==> q.code in t.codes && t.codes[q.code].grant == q.grant)
    && (q.UsingRefresh? ==> q.token in t.tokens && t.tokens[q.token].grant == q.grant && t.tokens[q.token].kind.Refresh?)
  }

  ghost predicate Linked(s: State) {
    && (forall c :: c in s.t.codes ==> s.t.codes[c].grant in s.t.grants)
    && (forall k :: k in s.t.tokens ==> s.t.tokens[k].grant in s.t.grants)
    && (forall p :: p in s.procs ==> ProcSound(s.t, s.procs[p]))
  }

  ghost predicate Inv(s: State) { Linked(s) && forall grant :: AtMostOne(s, grant) }

  /** Rows are never deleted, and never move to another grant or kind. */
  ghost predicate RowsStay(t: Tables, u: Tables) {
    && t.grants.Keys <= u.grants.Keys
    && (forall c :: c in t.codes ==> c in u.codes && u.codes[c].grant == t.codes[c].grant)
    && (forall k :: k in t.tokens ==> k in u.tokens && u.tokens[k].grant == t.tokens[k].grant && u.tokens[k].kind == t.tokens[k].kind)
  }

  lemma NextKeepsRows(s: State, e: Event)
    requires Enabled(s, e)
    ensures RowsStay(s.t, Next(s, e).t)
  {
  }

  lemma RowsLinked(s: State, e: Event)
    requires Linked(s) && Enabled(s, e)
    ensures var t := Next(s, e).t; forall c :: c in t.codes ==> t.codes[c].grant in t.grants
    ensures var t := Next(s, e).t; forall k :: k in t.tokens ==> t.tokens[k].grant in t.grants
  {
    if e.Insert? { assert ProcSound(s.t, s.procs[e.p]); }
  }

  /** The handler that took the step still remembers what its row says. */
  lemma MoverSound(s: State, e: Event, p: Id)
    requires Linked(s) && Enabled(s, e) && p in Next(s, e).procs && (p !in s.procs || Next(s, e).procs[p] != s.procs[p])
    ensures Next(s, e).procs[p].grant in s.t.grants && ProcSound(s.t, Next(s, e).procs[p])
  {
    if p in s.procs { assert ProcSound(s.t, s.procs[p]); }
  }

  lemma SoundStays(t: Tables, u: Tables, q: Proc)
    requires RowsStay(t, u) && ProcSound(t, q)
    ensures ProcSound(u, q)
  {
  }

  lemma NextKeepsLinked(s: State, e: Event)
    requires Linked(s) && Enabled(s, e)
    ensures Linked(Next(s, e))
  {
    var n := Next(s, e);
    NextKeepsRows(s, e);
    RowsLinked(s, e);
    forall p | p in n.procs ensures ProcSound(n.t, n.procs[p]) {
      if p in s.procs && n.procs[p] == s.procs[p] {
        assert ProcSound(s.t, n.procs[p]);
      } else {
        MoverSound(s, e, p);
      }
      SoundStays(s.t, n.t, n.procs[p]);
    }
  }

  /** Rights after a step are rights from before, but for the one that replaces the right
      the step consumed. */
  lemma RightsMove(s: State, e: Event, grant: Id, r: Right)
    requires Linked(s) && Enabled(s, e) && Holds(Next(s, e), grant, r)
    ensures Holds(s, grant, r)
      || (e.Approve? && e.grant == grant && r == ByCode(e.code))
      || (e.Use? && r == ByProc(e.p) && Consumes(s.t, s.procs[e.p]) && s.procs[e.p].grant == grant)
      || (e.Insert? && r == ByRefresh(e.refresh) && s.procs[e.p].grant == grant)
  {
  }

  lemma NextKeepsAtMostOne(s: State, e: Event, grant: Id)
    requires Inv(s) && Enabled(s, e)
    ensures AtMostOne(Next(s, e), grant)
  {
    var t := Next(s, e);
    forall a, b | Holds(t, grant, a) && Holds(t, grant, b) ensures a == b {
      RightsMove(s, e, grant, a);
      RightsMove(s, e, grant, b);
      assert AtMostOne(s, grant);
      if e.Use? && Consumes(s.t, s.procs[e.p]) && s.procs[e.p].grant == grant {
        var q := s.procs[e.p];
        var spent := if q.UsingCode? then ByCode(q.code) else ByRefresh(q.token);
        assert Holds(s, grant, spent) && !Holds(t, grant, spent);
      } else if e.Insert? && s.procs[e.p].grant == grant {
        assert Holds(s, grant, ByProc(e.p)) && !Holds(t, grant, ByProc(e.p));
      }
    }
  }

  lemma NextKeepsInv(s: State, e: Event)
    requires Inv(s) && Enabled(s, e)
    ensures Inv(Next(s, e))
  {
    NextKeepsLinked(s, e);
    forall grant ensures AtMostOne(Next(s, e), grant) { NextKeepsAtMostOne(s, e, grant); }
  }

  lemma {:induction false} RunKeepsInv(s: State, events: seq<Event>, t: State)
    requires Inv(s) && IsRun(s, events, t)
    ensures Inv(t)
    decreases |events|
  {
    if events != [] {
      NextKeepsInv(s, events[0]);
      RunKeepsInv(Next(s, events[0]), events[1..], t);
    }
  }

  function UnusedCodes(s: State, grant: Id): set<Id> {
    set c | c in s.t.codes && s.t.codes[c].grant == grant && s.t.codes[c].usedAt.None?
  }

  function Issuances(s: State, grant: Id): set<Id> { set p | p in s.procs && Issuing(s.procs[p], grant) }

  function LiveRefreshTokens(s: State, grant: Id): set<Id> {
    set k | k in s.t.tokens && s.t.tokens[k].grant == grant && s.t.tokens[k].kind.Refresh? && s.t.tokens[k].revokedAt.None?
  }

  lemma Singleton(ids: set<Id>)
    requires forall a, b :: a in ids && b in ids ==> a == b
    ensures |ids| <= 1
  {
    if a :| a in ids { assert ids == {a}; }
  }

  /** Whatever the interleaving of handlers, an unused code, an issuance in flight and an
      unrevoked refresh token never exist side by side for one grant, nor any of them twice. */
  lemma OneRightPerGrant(events: seq<Event>, t: State, grant: Id)
    requires IsRun(INITIAL, events, t)
    ensures |UnusedCodes(t, grant)| + |Issuances(t, grant)| + |LiveRefreshTokens(t, grant)| <= 1
  {
    RunKeepsInv(INITIAL, events, t);
    assert AtMostOne(t, grant);
    var codes, procs, tokens := UnusedCodes(t, grant), Issuances(t, grant), LiveRefreshTokens(t, grant);
    forall a, b | a in codes && b in codes ensures a == b { assert Holds(t, grant, ByCode(a)) && Holds(t, grant, ByCode(b)); }
    forall a, b | a in procs && b in procs ensures a == b { assert Holds(t, grant, ByProc(a)) && Holds(t, grant, ByProc(b)); }
    forall a, b | a in tokens && b in tokens ensures a == b {
      assert Holds(t, grant, ByRefresh(a)) && Holds(t, grant, ByRefresh(b));
    }
    Singleton(codes);
    Singleton(procs);
    Singleton(tokens);
    if c :| c in codes { assert Holds(t, grant, ByCode(c)); }
    if p :| p in procs { assert Holds(t, grant, ByProc(p)); }
    if k :| k in tokens { assert Holds(t, grant, ByRefresh(k)); }
  }

  // ------------------------------------------------------- revocation

  lemma {:induction false} RevokedForever(s: State, events: seq<Event>, t: State, grant: Id)
    requires IsRun(s, events, t) && Revoked(s.t, grant)
    ensures Revoked(t.t, grant)
    decreases |events|
  {
    if events != [] {
      StaysRevoked(s, events[0], grant);
      RevokedForever(Next(s, events[0]), events[1..], t, grant);
    }
  }

  lemma StaysRevoked(s: State, e: Event, grant: Id)
    requires Enabled(s, e) && Revoked(s.t, grant)
    ensures Revoked(Next(s, e).t, grant)
  {
  }

  /** Once a grant is revoked, no later request gets anywhere with any of its tokens, those
      inserted after the revocation included, and no new issuance is started for it. */
  lemma RevokedGrantIsDead(s: State, events: seq<Event>, t: State, grant: Id, token: Id, client: Id, now: nat)
    requires IsRun(s, events, t) && Revoked(s.t, grant) && token in t.t.tokens && t.t.tokens[token].grant == grant
    ensures !Authenticates(t.t, token, now) && !RefreshAccepted(t.t, token, client, now)
    ensures forall p :: Enabled(t, CheckGrant(p)) && t.procs[p].grant == grant ==> p !in Next(t, CheckGrant(p)).procs
  {
    RevokedForever(s, events, t, grant);
  }

  /** Both ways to revoke end with the grant revoked: the token endpoint's in one batch, the
      agents page with its first statement. */
  lemma RevocationTakesEffect(s: State, e: Event, grant: Id)
    requires Linked(s) && Enabled(s, e)
    requires (e.RevokeAll? && s.procs[e.p].grant == grant) || (e.AgentRevoke? && e.grant == grant && grant in s.t.grants)
    ensures Revoked(Next(s, e).t, grant)
  {
  }

  /** A handler has passed its check of the grant and has not inserted its tokens yet. */
  ghost predicate InsertPending(s: State, grant: Id) {
    exists p :: p in s.procs && s.procs[p].Inserting? && s.procs[p].grant == grant
  }

  function TokensOf(t: Tables, grant: Id): set<Id> { set k | k in t.tokens && t.tokens[k].grant == grant }

  predicate InsertsFor(s: State, e: Event, grant: Id)
    requires Enabled(s, e)
  {
    e.Insert? && s.procs[e.p].grant == grant
  }

  /** After a revocation only the handlers then about to insert add tokens. */
  lemma LateStep(s: State, e: Event, grant: Id)
    requires Enabled(s, e) && Revoked(s.t, grant)
    ensures InsertPending(Next(s, e), grant) ==> InsertPending(s, grant)
    ensures InsertsFor(s, e, grant) ==> InsertPending(s, grant)
    ensures TokensOf(Next(s, e).t, grant)
              == TokensOf(s.t, grant) + if InsertsFor(s, e, grant) then {e.access, e.refresh} else {}
  {
    NextKeepsRows(s, e);
    var n := Next(s, e);
    if p :| p in n.procs && n.procs[p].Inserting? && n.procs[p].grant == grant {
      assert p in s.procs && s.procs[p] == n.procs[p];
    }
  }

  lemma {:induction false} NoLateTokens(s: State, events: seq<Event>, t: State, grant: Id)
    requires IsRun(s, events, t) && Revoked(s.t, grant) && !InsertPending(s, grant)
    ensures TokensOf(t.t, grant) == TokensOf(s.t, grant)
    decreases |events|
  {
    if events != [] {
      StaysRevoked(s, events[0], grant);
      LateStep(s, events[0], grant);
      NoLateTokens(Next(s, events[0]), events[1..], t, grant);
    }
  }

  lemma {:induction false} UnusedId(ids: set<Id>) returns (n: Id)
    ensures forall k :: k in ids ==> k < n
  {
    if ids == {} {
      n := 0;
    } else {
      var k :| k in ids;
      var m := UnusedId(ids - {k});
      n := if k < m then m else k + 1;
      assert forall j :: j in ids ==> j == k || j in ids - {k};
    }
  }

  /** Some continuation adds tokens of the grant. */
  ghost predicate CanGainTokens(s: State, grant: Id) {
    exists events, t :: IsRun(s, events, t) && TokensOf(t.t, grant) != TokensOf(s.t, grant)
  }

  /** Tokens can still appear for a revoked grant exactly when a handler was about to insert. */
  lemma LateTokensIff(s: State, grant: Id)
    requires Revoked(s.t, grant)
    ensures CanGainTokens(s, grant) <==> InsertPending(s, grant)
  {
    if p :| p in s.procs && s.procs[p].Inserting? && s.procs[p].grant == grant {
      var k := UnusedId(s.t.tokens.Keys);
      var e := Insert(p, k, k + 1);
      assert k !in s.t.tokens.Keys && k + 1 !in s.t.tokens.Keys;
      var t := Next(s, e);
      assert IsRun(t, [], t);
      var events := RunOnto(s, e, [], t);
      assert k in TokensOf(t.t, grant) && k !in TokensOf(s.t, grant);
    } else if CanGainTokens(s, grant) {
      var events, t :| IsRun(s, events, t) && TokensOf(t.t, grant) != TokensOf(s.t, grant);
      NoLateTokens(s, events, t, grant);
    }
  }

  /** An insertion uses up the only one pending. */
  lemma InsertWasTheLast(s: State, e: Event, grant: Id)
    requires AtMostOne(s, grant) && Enabled(s, e) && InsertsFor(s, e, grant)
    ensures !InsertPending(Next(s, e), grant)
  {
    var n := Next(s, e);
    if p :| p in n.procs && n.procs[p].Inserting? && n.procs[p].grant == grant {
      assert Holds(s, grant, ByProc(p)) && Holds(s, grant, ByProc(e.p));
    }
  }

  function TokensOfKind(t: Tables, grant: Id, kind: Kind): set<Id> {
    set k | k in t.tokens && t.tokens[k].grant == grant && t.tokens[k].kind == kind
  }

  /** A step adds one token of each kind or none. */
  lemma KindStep(s: State, e: Event, grant: Id, kind: Kind)
    requires Enabled(s, e) && Revoked(s.t, grant)
    ensures TokensOfKind(Next(s, e).t, grant, kind)
              == TokensOfKind(s.t, grant, kind)
                 + if InsertsFor(s, e, grant) then (if kind.Access? then {e.access} else {e.refresh}) else {}
  {
    NextKeepsRows(s, e);
  }

  lemma KindsAreAll(t: Tables, u: Tables, grant: Id, kind: Kind)
    requires RowsStay(t, u) && TokensOf(u, grant) == TokensOf(t, grant)
    ensures TokensOfKind(u, grant, kind) == TokensOfKind(t, grant, kind)
  {
    forall k | k in TokensOfKind(u, grant, kind) ensures k in t.tokens && t.tokens[k].grant == grant {
      assert k in TokensOf(u, grant);
    }
  }

  lemma {:induction false} RunKeepsRows(s: State, events: seq<Event>, t: State)
    requires IsRun(s, events, t)
    ensures RowsStay(s.t, t.t)
    decreases |events|
  {
    if events != [] {
      NextKeepsRows(s, events[0]);
      RunKeepsRows(Next(s, events[0]), events[1..], t);
    }
  }

  /** At most one access token and at most one refresh token are added after the revocation. */
  lemma {:induction false} OneLatePair(s: State, events: seq<Event>, t: State, grant: Id, kind: Kind)
    requires Inv(s) && IsRun(s, events, t) && Revoked(s.t, grant)
    ensures TokensOfKind(s.t, grant, kind) <= TokensOfKind(t.t, grant, kind)
    ensures |TokensOfKind(t.t, grant, kind)| <= |TokensOfKind(s.t, grant, kind)| + 1
    decreases |events|
  {
    if events != [] {
      var e, n := events[0], Next(s, events[0]);
      StaysRevoked(s, e, grant);
      LateStep(s, e, grant);
      KindStep(s, e, grant, kind);
      if InsertsFor(s, e, grant) {
        InsertWasTheLast(s, e, grant);
        NoLateTokens(n, events[1..], t, grant);
        RunKeepsRows(n, events[1..], t);
        KindsAreAll(n.t, t.t, grant, kind);
      } else {
        NextKeepsInv(s, e);
        OneLatePair(n, events[1..], t, grant, kind);
      }
    }
  }

  /** A run in which an issuance that passed its check inserts its tokens after the
      revocation: a refresh token of a revoked grant is left unrevoked, though of no use. */
  lemma TokensAfterRevocation() returns (events: seq<Event>, t: State)
    ensures IsRun(INITIAL, events, t) && Revoked(t.t, 1) && LiveRefreshTokens(t, 1) == {8}
  {
    var inserting := InsertingState();
    var revoked := Next(inserting, AgentRevoke(5, 1, 0));
    t := Next(revoked, Insert(4, 7, 8));
    assert IsRun(t, [], t);
    events := RunOnto(revoked, Insert(4, 7, 8), [], t);
    events := RunOnto(inserting, AgentRevoke(5, 1, 0), events, t);
    events := ReachesInserting(events, t);
    assert 8 in LiveRefreshTokens(t, 1) && t.t.tokens.Keys == {7, 8};
  }

  /** Handler 4 is about to insert the tokens of grant 1. */
  function InsertingState(): State {
    State(Tables(map[1 := Grant(3, None)], map[2 := Code(1, 3, "", "", CODE_TTL_MS, Some(0))], map[]), map[4 := Inserting(1, 0)])
  }

  lemma ReachesInserting(rest: seq<Event>, t: State) returns (events: seq<Event>)
    requires IsRun(InsertingState(), rest, t)
    ensures IsRun(INITIAL, events, t)
  {
    var row := Code(1, 3, "", "", CODE_TTL_MS, None);
    var granted := State(Tables(map[1 := Grant(3, None)], map[2 := row], map[]), map[]);
    var using := State(granted.t, map[4 := UsingCode(2, 1, 0)]);
    var checking := State(InsertingState().t, map[4 := Checking(1, 0)]);
    assert Next(INITIAL, Approve(1, 2, 3, "", "", 0)) == granted;
    assert Next(granted, ReadCode(4, CodeForm(2, 3, "", ""), 0)) == using;
    assert Next(using, Use(4)) == checking;
    assert Next(checking, CheckGrant(4)) == InsertingState();
    events := RunOnto(checking, CheckGrant(4), rest, t);
    events := RunOnto(using, Use(4), events, t);
    events := RunOnto(granted, ReadCode(4, CodeForm(2, 3, "", ""), 0), events, t);
    events := RunOnto(INITIAL, Approve(1, 2, 3, "", "", 0), events, t);
  }

  lemma RunOnto(s: State, e: Event, rest: seq<Event>, t: State) returns (events: seq<Event>)
    requires Enabled(s, e) && IsRun(Next(s, e), rest, t)
    ensures IsRun(s, events, t) && events == [e] + rest
  {
    events := [e] + rest;
    assert events[1..] == rest;
  }

  // ------------------------------------------------- each is used once

  /** The code or refresh token that a step exchanges. */
  function SpentBy(s: State, e: Event): seq<Right>
    requires Enabled(s, e)
  {
    if e.Use? && Consumes(s.t, s.procs[e.p]) then
      [if s.procs[e.p].UsingCode? then ByCode(s.procs[e.p].code) else ByRefresh(s.procs[e.p].token)]
    else []
  }

  ghost function AllSpent(s: State, events: seq<Event>): seq<Right>
    decreases |events|
  {
    if events == [] || !Enabled(s, events[0]) then [] else SpentBy(s, events[0]) + AllSpent(Next(s, events[0]), events[1..])
  }

  predicate IsSpent(t: Tables, r: Right) {
    match r
    case ByCode(c) => c in t.codes && t.codes[c].usedAt.Some?
    case ByRefresh(k) => k in t.tokens && t.tokens[k].revokedAt.Some?
    case ByProc(_) => false
  }

  lemma SpendingStep(s: State, e: Event, r: Right)
    requires Enabled(s, e)
    ensures IsSpent(s.t, r) ==> IsSpent(Next(s, e).t, r) && r !in SpentBy(s, e)
    ensures r in SpentBy(s, e) ==> IsSpent(Next(s, e).t, r)
  {
  }

  lemma {:induction false} SpentStaysSpent(s: State, events: seq<Event>, t: State, r: Right)
    requires IsRun(s, events, t) && IsSpent(s.t, r)
    ensures r !in AllSpent(s, events)
    decreases |events|
  {
    if events != [] {
      SpendingStep(s, events[0], r);
      SpentStaysSpent(Next(s, events[0]), events[1..], t, r);
    }
  }

  /** In every run each code and each refresh token is exchanged at most once, however many
      handlers try at the same time. */
  lemma {:induction false} ExchangedAtMostOnce(s: State, events: seq<Event>, t: State)
    requires IsRun(s, events, t)
    ensures Distinct(AllSpent(s, events))
    decreases |events|
  {
    if events != [] {
      ExchangedAtMostOnce(Next(s, events[0]), events[1..], t);
      var first, rest := SpentBy(s, events[0]), AllSpent(Next(s, events[0]), events[1..]);
      if first != [] {
        SpendingStep(s, events[0], first[0]);
        SpentStaysSpent(Next(s, events[0]), events[1..], t, first[0]);
      }
    }
  }

  // -------------------------------------------- handlers left alone

  datatype Reply = Issued(access: Id, refresh: Id) | InvalidGrant | Fine | NotFound

  lemma {:induction false} RunThen(s: State, events: seq<Event>, t: State, e: Event)
    requires IsRun(s, events, t) && Enabled(t, e)
    ensures IsRun(s, events + [e], Next(t, e))
    decreases |events|
  {
    if events == [] {
      assert IsRun(Next(s, e), [], Next(s, e)) && ([] + [e])[1..] == [];
    } else {
      RunThen(Next(s, events[0]), events[1..], t, e);
      assert (events + [e])[1..] == events[1..] + [e];
    }
  }

  /** The rows, and the handlers of the token endpoints. Each handler is a run of its own
      steps when no other handler's statements come in between; procs: the others. */
  class Database {
    var t: Tables

    constructor ()
      ensures t == EMPTY
    {
      t := EMPTY;
    }

    method ExchangeAuthorizationCode(form: CodeForm, now: nat, access: Id, refresh: Id, ghost p: Id, ghost procs: map<Id, Proc>)
      returns (r: Reply, ghost events: seq<Event>)
      requires p !in procs && access != refresh && access !in t.tokens && refresh !in t.tokens
      modifies this
      ensures IsRun(State(old(t), procs), events, State(t, procs))
      ensures r == if CodeAccepted(old(t), form, now) && MayIssue(old(t), old(t).codes[form.code].grant)
                   then Issued(access, refresh) else InvalidGrant
      ensures r.Issued? ==> !CodeAccepted(t, form, now) && Authenticates(t, access, now) && TokenLive(t, refresh, Refresh, now)
    {
      ghost var start := State(t, procs);
      events := [ReadCode(p, form, now)];
      if !CodeAccepted(t, form, now) {
        assert IsRun(start, events, start) by { assert events[1..] == []; }
        return InvalidGrant, events;
      }
      var grant := t.codes[form.code].grant;
      ghost var s := Next(start, ReadCode(p, form, now));
      assert IsRun(start, events, s) by { assert events[1..] == []; }
      t := MarkUsed(t, form.code, now);
      RunThen(start, events, s, Use(p));
      r, events := IssueTokens(grant, now, access, refresh, p, procs, start, events + [Use(p)], Next(s, Use(p)));
    }

    method ExchangeRefreshToken(token: Id, client: Id, now: nat, access: Id, refresh: Id, ghost p: Id, ghost procs: map<Id, Proc>)
      returns (r: Reply, ghost events: seq<Event>)
      requires p !in procs && access != refresh && access !in t.tokens && refresh !in t.tokens
      modifies this
      ensures IsRun(State(old(t), procs), events, State(t, procs))
      ensures r == if RefreshAccepted(old(t), token, client, now) then Issued(access, refresh) else InvalidGrant
      ensures r.Issued? ==> !TokenLive(t, token, Refresh, now) && Authenticates(t, access, now) && TokenLive(t, refresh, Refresh, now)
    {
      ghost var start := State(t, procs);
      events := [ReadRefresh(p, token, client, now)];
      if !RefreshAccepted(t, token, client, now) {
        assert IsRun(start, events, start) by { assert events[1..] == []; }
        return InvalidGrant, events;
      }
      var grant := t.tokens[token].grant;
      ghost var s := Next(start, ReadRefresh(p, token, client, now));
      assert IsRun(start, events, s) by { assert events[1..] == []; }
      t := RevokeToken(t, token, now);
      RunThen(start, events, s, Use(p));
      r, events := IssueTokens(grant, now, access, refresh, p, procs, start, events + [Use(p)], Next(s, Use(p)));
    }

    method IssueTokens(grant: Id, now: nat, access: Id, refresh: Id, ghost p: Id, ghost procs: map<Id, Proc>,
                       ghost start: State, ghost before: seq<Event>, ghost s: State)
      returns (r: Reply, ghost events: seq<Event>)
      requires p !in procs && access != refresh && access !in t.tokens && refresh !in t.tokens
      requires s == State(t, procs[p := Checking(grant, now)]) && IsRun(start, before, s)
      modifies this
      ensures IsRun(start, events, State(t, procs))
      ensures r == if MayIssue(old(t), grant) then Issued(access, refresh) else InvalidGrant
      ensures t == if r.Issued? then InsertTokens(old(t), grant, access, refresh, now) else old(t)
    {
      RunThen(start, before, s, CheckGrant(p));
      events := before + [CheckGrant(p)];
      if !MayIssue(t, grant) {
        assert procs[p := Checking(grant, now)] - {p} == procs;
        return InvalidGrant, events;
      }
      ghost var checked := Next(s, CheckGrant(p));
      t := InsertTokens(t, grant, access, refresh, now);
      RunThen(start, events, checked, Insert(p, access, refresh));
      assert checked.procs - {p} == procs;
      r, events := Issued(access, refresh), events + [Insert(p, access, refresh)];
    }

    /** revokeToken, for a token that was sent. */
    method RevokeByToken(token: Id, now: nat, ghost p: Id, ghost procs: map<Id, Proc>) returns (ghost events: seq<Event>)
      requires p !in procs
      modifies this
      ensures IsRun(State(old(t), procs), events, State(t, procs))
      ensures token in old(t).tokens && old(t).tokens[token].grant in old(t).grants ==> Revoked(t, old(t).tokens[token].grant)
      ensures forall kind, later :: !TokenLive(t, token, kind, later)
    {
      ghost var start := State(t, procs);
      events := [ReadRevoke(p, token, now)];
      ghost var s := Next(start, ReadRevoke(p, token, now));
      assert IsRun(start, events, s) by { assert events[1..] == []; }
      if token in t.tokens && t.tokens[token].grant in t.grants {
        var grant := t.tokens[token].grant;
        t := RevokeTokensOf(RevokeGrant(t, grant, now), grant, now);
        RunThen(start, events, s, RevokeAll(p));
        assert s.procs - {p} == procs;
        events := events + [RevokeAll(p)];
      }
    }

    /** handleAgentsApi, revoking a grant. */
    method RevokeByAgentsPage(grant: Id, now: nat, ghost p: Id, ghost procs: map<Id, Proc>) returns (r: Reply, ghost events: seq<Event>)
      requires p !in procs
      modifies this
      ensures IsRun(State(old(t), procs), events, State(t, procs))
      ensures r == if MayIssue(old(t), grant) then Fine else NotFound
      ensures r.Fine? ==> Revoked(t, grant) && forall k :: k in t.tokens && t.tokens[k].grant == grant ==> t.tokens[k].revokedAt.Some?
    {
      ghost var start := State(t, procs);
      events := [AgentRevoke(p, grant, now)];
      ghost var s := Next(start, AgentRevoke(p, grant, now));
      assert IsRun(start, events, s) by { assert events[1..] == []; }
      if !MayIssue(t, grant) {
        return NotFound, events;
      }
      t := RevokeGrant(t, grant, now);
      t := RevokeTokensOf(t, grant, now);
      RunThen(start, events, s, AgentRevokeTokens(p));
      assert s.procs - {p} == procs;
      r, events := Fine, events + [AgentRevokeTokens(p)];
    }
  }
}
