// ui/worker/lib/oauth.ts: which approval each exchange of a code goes back to, and which
// exchange each token, read off the steps taken since the tables were empty.
module OAuthHistory {
  import opened Text
  import opened OAuth

  // ------------------------------------------------ the steps taken

  /** p starts an exchange, or is refused one. */
  predicate Reads(e: Event, p: Id) { (e.ReadCode? || e.ReadRefresh?) && e.p == p }

  /** The last exchange p asked for. */
  function LastRead(past: seq<Event>, p: Id): Option<Event> {
    if past == [] then None
    else if Reads(past[|past| - 1], p) then Some(past[|past| - 1])
    else LastRead(past[..|past| - 1], p)
  }

  /** The steps before it. */
  function BeforeRead(past: seq<Event>, p: Id): seq<Event> {
    if past == [] then []
    else if Reads(past[|past| - 1], p) then past[..|past| - 1]
    else BeforeRead(past[..|past| - 1], p)
  }

  lemma LastReadOfMore(past: seq<Event>, e: Event, p: Id)
    ensures LastRead(past + [e], p) == if Reads(e, p) then Some(e) else LastRead(past, p)
    ensures BeforeRead(past + [e], p) == if Reads(e, p) then past else BeforeRead(past, p)
  {
    assert (past + [e])[..|past|] == past;
  }

  /** The code was approved with these very fields, less than five minutes before. */
  ghost predicate ApprovedFor(past: seq<Event>, form: CodeForm, grant: Id, now: nat) {
    exists i :: 0 <= i < |past| && past[i].Approve? && past[i].grant == grant && past[i].code == form.code
                && past[i].client == form.client && past[i].redirect == form.redirect && past[i].challenge == form.challenge
                && now < past[i].now + 5 * 60 * 1000
  }

  /** The i-th step inserts the token. */
  predicate Issues(past: seq<Event>, i: nat, token: Id, kind: Kind) {
    i < |past| && past[i].Insert? && token == if kind.Access? then past[i].access else past[i].refresh
  }

  /** When the exchange was asked for that ends with the i-th step. */
  function AskedAt(past: seq<Event>, i: nat): nat
    requires i < |past| && past[i].Insert?
  {
    var read := LastRead(past[..i], past[i].p);
    if read.Some? && (read.value.ReadCode? || read.value.ReadRefresh?) then read.value.now else 0
  }

  function Lifetime(kind: Kind): nat { if kind.Access? then 60 * 60 * 1000 else 30 * 24 * 60 * 60 * 1000 }

  /** The refresh token was inserted for the client now named, in an exchange asked for less
      than thirty days before. */
  ghost predicate IssuedFor(past: seq<Event>, t: Tables, token: Id, client: Id, now: nat) {
    && token in t.tokens && t.tokens[token].grant in t.grants && t.grants[t.tokens[token].grant].client == client
    && exists i :: Issues(past, i, token, Refresh) && now < AskedAt(past, i) + Lifetime(Refresh)
  }

  // ---------------------------------------------- what the rows record

  /** The row of a code is what its approval said. */
  predicate RowOf(t: Tables, e: Event)
    requires e.Approve?
  {
    && e.grant in t.grants && t.grants[e.grant].client == e.client && e.code in t.codes
    && var row := t.codes[e.code];
       row.grant == e.grant && row.client == e.client && row.redirect == e.redirect && row.challenge == e.challenge
       && row.expires == e.now + 5 * 60 * 1000
  }

  ghost predicate ApprovalsKept(past: seq<Event>, t: Tables) {
    forall i {:trigger past[i]} :: 0 <= i < |past| && past[i].Approve? ==> RowOf(t, past[i])
  }

  ghost predicate Approved(past: seq<Event>, code: Id) { exists i :: 0 <= i < |past| && past[i].Approve? && past[i].code == code }

  ghost predicate CodesApproved(past: seq<Event>, t: Tables) {
    forall c {:trigger Approved(past, c)} :: c in t.codes ==> Approved(past, c)
  }

  ghost predicate TokenKept(past: seq<Event>, t: Tables, i: nat, token: Id, kind: Kind)
    requires Issues(past, i, token, kind)
  {
    token in t.tokens && t.tokens[token].kind == kind && t.tokens[token].expires == AskedAt(past, i) + Lifetime(kind)
  }

  ghost predicate InsertsKept(past: seq<Event>, t: Tables) {
    forall i: nat, token, kind {:trigger Issues(past, i, token, kind)} :: Issues(past, i, token, kind) ==> TokenKept(past, t, i, token, kind)
  }

  ghost predicate Inserted(past: seq<Event>, token: Id, kind: Kind) { exists i: nat :: Issues(past, i, token, kind) }

  ghost predicate TokensInserted(past: seq<Event>, t: Tables) {
    forall k {:trigger k in t.tokens} :: k in t.tokens ==> Inserted(past, k, t.tokens[k].kind)
  }

  /** What a handler remembers is what it read. */
  ghost predicate Recalls(past: seq<Event>, t: Tables, p: Id, q: Proc) {
    q.UsingCode? || q.UsingRefresh? || q.Checking? || q.Inserting? ==>
      var read := LastRead(past, p);
      && read.Some?
      && match read.value
         case ReadCode(_, form, now) =>
           && now == q.now && !q.UsingRefresh? && (q.UsingCode? ==> q.code == form.code)
           && ApprovedFor(BeforeRead(past, p), form, q.grant, now)
         case ReadRefresh(_, token, client, now) =>
           && now == q.now && !q.UsingCode? && (q.UsingRefresh? ==> q.token == token)
           && IssuedFor(BeforeRead(past, p), t, token, client, now) && t.tokens[token].grant == q.grant
         case _ => false
  }

  ghost predicate AllRecall(past: seq<Event>, s: State) {
    forall p {:trigger s.procs[p]} :: p in s.procs ==> Recalls(past, s.t, p, s.procs[p])
  }

  ghost predicate Recorded(past: seq<Event>, s: State) {
    && ApprovalsKept(past, s.t) && CodesApproved(past, s.t) && InsertsKept(past, s.t) && TokensInserted(past, s.t)
    && AllRecall(past, s)
  }

  // ------------------------------------------------- and keep recording

  lemma AskedAtOfMore(past: seq<Event>, e: Event, i: nat)
    requires i < |past| && past[i].Insert?
    ensures AskedAt(past + [e], i) == AskedAt(past, i)
  {
    assert (past + [e])[..i] == past[..i];
  }

  /** Rows keep what they were inserted with, but for revocation and use. */
  ghost predicate FieldsStay(t: Tables, u: Tables) {
    && (forall g :: g in t.grants ==> g in u.grants && u.grants[g].client == t.grants[g].client)
    && (forall c :: c in t.codes ==> c in u.codes && u.codes[c].(usedAt := None) == t.codes[c].(usedAt := None))
    && (forall k :: k in t.tokens ==> k in u.tokens && u.tokens[k].(revokedAt := None) == t.tokens[k].(revokedAt := None))
  }

  lemma NextKeepsFields(s: State, e: Event)
    requires Enabled(s, e)
    ensures FieldsStay(s.t, Next(s, e).t)
  {
  }

  lemma ApprovalsStayKept(past: seq<Event>, s: State, e: Event)
    requires Enabled(s, e) && ApprovalsKept(past, s.t)
    ensures ApprovalsKept(past + [e], Next(s, e).t)
  {
    NextKeepsFields(s, e);
    var u := Next(s, e).t;
    forall i | 0 <= i < |past + [e]| && (past + [e])[i].Approve? ensures RowOf(u, (past + [e])[i]) {
      if i < |past| {
        assert past[i].Approve? && RowOf(s.t, past[i]);
        RowStays(s.t, u, past[i]);
      }
    }
  }

  lemma RowStays(t: Tables, u: Tables, e: Event)
    requires e.Approve? && RowOf(t, e) && FieldsStay(t, u)
    ensures RowOf(u, e)
  {
    assert u.codes[e.code].(usedAt := None) == t.codes[e.code].(usedAt := None);
  }

  lemma CodesStayApproved(past: seq<Event>, s: State, e: Event)
    requires Enabled(s, e) && CodesApproved(past, s.t)
    ensures CodesApproved(past + [e], Next(s, e).t)
  {
    var more := past + [e];
    forall c | c in Next(s, e).t.codes ensures Approved(more, c) {
      if c in s.t.codes {
        assert Approved(past, c);
        var i :| 0 <= i < |past| && past[i].Approve? && past[i].code == c;
        assert more[i] == past[i];
      } else {
        assert more[|past|] == e && e.Approve? && e.code == c;
      }
    }
  }

  lemma InsertsStayKept(past: seq<Event>, s: State, e: Event)
    requires Enabled(s, e) && InsertsKept(past, s.t) && AllRecall(past, s)
    ensures InsertsKept(past + [e], Next(s, e).t)
  {
    NextKeepsFields(s, e);
    var more, u := past + [e], Next(s, e).t;
    forall i: nat, token, kind | Issues(more, i, token, kind) ensures TokenKept(more, u, i, token, kind) {
      if i < |past| {
        assert Issues(past, i, token, kind) && TokenKept(past, s.t, i, token, kind);
        AskedAtOfMore(past, e, i);
        assert u.tokens[token].(revokedAt := None) == s.t.tokens[token].(revokedAt := None);
      } else {
        assert more[..i] == past && Recalls(past, s.t, e.p, s.procs[e.p]);
      }
    }
  }

  lemma TokensStayInserted(past: seq<Event>, s: State, e: Event)
    requires Enabled(s, e) && TokensInserted(past, s.t)
    ensures TokensInserted(past + [e], Next(s, e).t)
  {
    NextKeepsFields(s, e);
    var more, u := past + [e], Next(s, e).t;
    forall k | k in u.tokens ensures Inserted(more, k, u.tokens[k].kind) {
      if k in s.t.tokens {
        assert u.tokens[k].(revokedAt := None) == s.t.tokens[k].(revokedAt := None);
        var i: nat :| Issues(past, i, k, s.t.tokens[k].kind);
        assert Issues(more, i, k, u.tokens[k].kind);
      } else {
        assert Issues(more, |past|, k, u.tokens[k].kind);
      }
    }
  }

  lemma IssuedStays(past: seq<Event>, t: Tables, u: Tables, token: Id, client: Id, now: nat)
    requires IssuedFor(past, t, token, client, now) && FieldsStay(t, u)
    ensures IssuedFor(past, u, token, client, now) && u.tokens[token].grant == t.tokens[token].grant
  {
    assert u.tokens[token].(revokedAt := None) == t.tokens[token].(revokedAt := None);
  }

  lemma RecallStays(past: seq<Event>, e: Event, t: Tables, u: Tables, p: Id, q: Proc)
    requires Recalls(past, t, p, q) && FieldsStay(t, u) && !Reads(e, p)
    ensures Recalls(past + [e], u, p, q)
  {
    LastReadOfMore(past, e, p);
    var read := LastRead(past, p);
    if (q.UsingCode? || q.UsingRefresh? || q.Checking? || q.Inserting?) && read.value.ReadRefresh? {
      IssuedStays(BeforeRead(past, p), t, u, read.value.token, read.value.client, q.now);
    }
  }

  /** An exchange starts only with what was approved or issued. */
  lemma StartIsRecorded(past: seq<Event>, s: State, e: Event)
    requires Recorded(past, s) && Enabled(s, e) && (e.ReadCode? || e.ReadRefresh?) && e.p in Next(s, e).procs
    ensures Recalls(past + [e], Next(s, e).t, e.p, Next(s, e).procs[e.p])
  {
    LastReadOfMore(past, e, e.p);
    if e.ReadCode? {
      assert Approved(past, e.form.code);
      var i :| 0 <= i < |past| && past[i].Approve? && past[i].code == e.form.code;
      assert RowOf(s.t, past[i]);
      assert ApprovedFor(past, e.form, past[i].grant, e.now);
    } else {
      var i: nat :| Issues(past, i, e.token, s.t.tokens[e.token].kind);
      assert TokenKept(past, s.t, i, e.token, Refresh);
      assert IssuedFor(past, s.t, e.token, e.client, e.now);
      NextKeepsFields(s, e);
      IssuedStays(past, s.t, Next(s, e).t, e.token, e.client, e.now);
    }
  }

  lemma RecallOfOne(past: seq<Event>, s: State, e: Event, p: Id)
    requires Recorded(past, s) && Enabled(s, e) && p in Next(s, e).procs
    ensures Recalls(past + [e], Next(s, e).t, p, Next(s, e).procs[p])
  {
    var n := Next(s, e);
    NextKeepsFields(s, e);
    if Reads(e, p) {
      StartIsRecorded(past, s, e);
    } else if p in s.procs {
      assert Recalls(past, s.t, p, s.procs[p]);
      RecallStays(past, e, s.t, n.t, p, s.procs[p]);
    }
  }

  lemma StepIsRecorded(past: seq<Event>, s: State, e: Event)
    requires Recorded(past, s) && Enabled(s, e)
    ensures Recorded(past + [e], Next(s, e))
  {
    ApprovalsStayKept(past, s, e);
    CodesStayApproved(past, s, e);
    InsertsStayKept(past, s, e);
    TokensStayInserted(past, s, e);
    forall p | p in Next(s, e).procs ensures Recalls(past + [e], Next(s, e).t, p, Next(s, e).procs[p]) {
      RecallOfOne(past, s, e, p);
    }
  }

  lemma {:induction false} RunIsRecorded(past: seq<Event>, s: State, events: seq<Event>, t: State)
    requires Recorded(past, s) && IsRun(s, events, t)
    ensures Recorded(past + events, t)
    decreases |events|
  {
    if events == [] {
      assert past + [] == past;
    } else {
      StepIsRecorded(past, s, events[0]);
      RunIsRecorded(past + [events[0]], Next(s, events[0]), events[1..], t);
      assert past + [events[0]] + events[1..] == past + events;
    }
  }

  lemma HistoryIsRecorded(events: seq<Event>, t: State)
    requires IsRun(INITIAL, events, t)
    ensures Recorded(events, t)
  {
    RunIsRecorded([], INITIAL, events, t);
    assert [] + events == events;
  }

  // ------------------------------------------------------ exchanges

  /** A code is exchanged only by a handler that asked with the client, redirect and challenge
      it was approved for, less than five minutes after its approval; and only once it gets
      that far can tokens be inserted. */
  lemma CodeExchangedOnlyIf(events: seq<Event>, s: State, p: Id, code: Id)
    requires IsRun(INITIAL, events, s) && Enabled(s, Use(p)) && ByCode(code) in SpentBy(s, Use(p))
    ensures var read := LastRead(events, p);
            && read.Some? && read.value.ReadCode? && read.value.form.code == code
            && ApprovedFor(BeforeRead(events, p), read.value.form, s.procs[p].grant, read.value.now)
  {
    HistoryIsRecorded(events, s);
    assert Recalls(events, s.t, p, s.procs[p]);
  }

  /** A refresh token is exchanged only for its client, less than thirty days after the
      exchange that brought it. */
  lemma RefreshExchangedOnlyIf(events: seq<Event>, s: State, p: Id, token: Id)
    requires IsRun(INITIAL, events, s) && Enabled(s, Use(p)) && ByRefresh(token) in SpentBy(s, Use(p))
    ensures var read := LastRead(events, p);
            && read.Some? && read.value.ReadRefresh? && read.value.token == token
            && IssuedFor(BeforeRead(events, p), s.t, token, read.value.client, read.value.now)
  {
    HistoryIsRecorded(events, s);
    assert Recalls(events, s.t, p, s.procs[p]);
  }

  /** Tokens are inserted only for the grant whose code or refresh token was exchanged. */
  lemma InsertedOnlyIf(events: seq<Event>, s: State, p: Id, access: Id, refresh: Id)
    requires IsRun(INITIAL, events, s) && Enabled(s, Insert(p, access, refresh))
    ensures var read := LastRead(events, p);
            && read.Some? && (read.value.ReadCode? || read.value.ReadRefresh?)
            && (read.value.ReadCode? ==> ApprovedFor(BeforeRead(events, p), read.value.form, s.procs[p].grant, read.value.now))
            && (read.value.ReadRefresh? ==> IssuedFor(BeforeRead(events, p), s.t, read.value.token, read.value.client, read.value.now)
                                            && s.t.tokens[read.value.token].grant == s.procs[p].grant)
            && var t := Next(s, Insert(p, access, refresh)).t;
               t.tokens[access] == Token(s.procs[p].grant, Access, read.value.now + Lifetime(Access), None)
               && t.tokens[refresh] == Token(s.procs[p].grant, Refresh, read.value.now + Lifetime(Refresh), None)
  {
    HistoryIsRecorded(events, s);
    assert Recalls(events, s.t, p, s.procs[p]);
  }

  /** A code not spent is not used. */
  lemma {:induction false} UnspentIsUnused(s: State, events: seq<Event>, t: State, code: Id)
    requires IsRun(s, events, t) && ByCode(code) !in AllSpent(s, events)
    requires code in s.t.codes ==> s.t.codes[code].usedAt.None?
    ensures code in t.t.codes ==> t.t.codes[code].usedAt.None?
    decreases |events|
  {
    if events != [] {
      var n := Next(s, events[0]);
      assert AllSpent(s, events) == SpentBy(s, events[0]) + AllSpent(n, events[1..]);
      assert ByCode(code) !in SpentBy(s, events[0]);
      UnspentIsUnused(n, events[1..], t, code);
    }
  }

  /** p can take the four steps of an exchange and ends with tokens of the grant that live
      for an hour and for thirty days. */
  ghost predicate Exchanges(s: State, read: Event, p: Id, grant: Id, now: nat, access: Id, refresh: Id) {
    && Enabled(s, read)
    && var a := Next(s, read);
       && Enabled(a, Use(p))
       && var b := Next(a, Use(p));
          && Enabled(b, CheckGrant(p))
          && var c := Next(b, CheckGrant(p));
             && Enabled(c, Insert(p, access, refresh))
             && var t := Next(c, Insert(p, access, refresh)).t;
                && t.tokens[access] == Token(grant, Access, now + 3600000, None)
                && t.tokens[refresh] == Token(grant, Refresh, now + 2592000000, None)
  }

  /** An approved code that was not spent, of a grant not revoked, is exchanged by whoever asks
      in time with the fields it was approved for. */
  lemma ApprovedCodeIsExchanged(events: seq<Event>, s: State, i: nat, p: Id, now: nat, access: Id, refresh: Id)
    requires IsRun(INITIAL, events, s) && i < |events| && events[i].Approve? && p !in s.procs
    requires ByCode(events[i].code) !in AllSpent(INITIAL, events) && !Revoked(s.t, events[i].grant)
    requires now < events[i].now + 5 * 60 * 1000
    requires access != refresh && access !in s.t.tokens && refresh !in s.t.tokens
    ensures var e := events[i];
            Exchanges(s, ReadCode(p, CodeForm(e.code, e.client, e.redirect, e.challenge), now), p, e.grant, now, access, refresh)
  {
    HistoryIsRecorded(events, s);
    UnspentIsUnused(INITIAL, events, s, events[i].code);
    assert RowOf(s.t, events[i]);
    var e := events[i];
    CodeExchange(s, CodeForm(e.code, e.client, e.redirect, e.challenge), e.grant, p, now, access, refresh);
  }

  lemma CodeExchange(s: State, f: CodeForm, grant: Id, p: Id, now: nat, access: Id, refresh: Id)
    requires p !in s.procs && access != refresh && access !in s.t.tokens && refresh !in s.t.tokens
    requires f.code in s.t.codes && s.t.codes[f.code] == Code(grant, f.client, f.redirect, f.challenge, s.t.codes[f.code].expires, None)
    requires now < s.t.codes[f.code].expires && MayIssue(s.t, grant)
    ensures Exchanges(s, ReadCode(p, f, now), p, grant, now, access, refresh)
  {
    var a := Next(s, ReadCode(p, f, now));
    assert a.procs[p] == UsingCode(f.code, grant, now) && a.t == s.t;
    IssuesFrom(Next(a, Use(p)), p, grant, now, access, refresh);
  }

  lemma IssuesFrom(b: State, p: Id, grant: Id, now: nat, access: Id, refresh: Id)
    requires p in b.procs && b.procs[p] == Checking(grant, now) && MayIssue(b.t, grant)
    requires access != refresh && access !in b.t.tokens && refresh !in b.t.tokens
    ensures Enabled(b, CheckGrant(p)) && Enabled(Next(b, CheckGrant(p)), Insert(p, access, refresh))
    ensures var t := Next(Next(b, CheckGrant(p)), Insert(p, access, refresh)).t;
            && t.tokens[access] == Token(grant, Access, now + 3600000, None)
            && t.tokens[refresh] == Token(grant, Refresh, now + 2592000000, None)
  {
  }

  /** So is a refresh token not revoked, of a grant not revoked, asked for in time by its
      client. */
  lemma IssuedTokenIsExchanged(events: seq<Event>, s: State, i: nat, p: Id, client: Id, now: nat, access: Id, refresh: Id)
    requires IsRun(INITIAL, events, s) && i < |events| && events[i].Insert? && p !in s.procs
    requires var token := events[i].refresh;
             token in s.t.tokens && s.t.tokens[token].revokedAt.None? && MayIssue(s.t, s.t.tokens[token].grant)
             && s.t.grants[s.t.tokens[token].grant].client == client
    requires now < AskedAt(events, i) + 30 * 24 * 60 * 60 * 1000
    requires access != refresh && access !in s.t.tokens && refresh !in s.t.tokens
    ensures var token := events[i].refresh;
            Exchanges(s, ReadRefresh(p, token, client, now), p, s.t.tokens[token].grant, now, access, refresh)
  {
    HistoryIsRecorded(events, s);
    var token := events[i].refresh;
    assert Issues(events, i, token, Refresh) && TokenKept(events, s.t, i, token, Refresh);
    var a := Next(s, ReadRefresh(p, token, client, now));
    assert a.procs[p] == UsingRefresh(token, s.t.tokens[token].grant, now) && a.t == s.t;
    IssuesFrom(Next(a, Use(p)), p, s.t.tokens[token].grant, now, access, refresh);
  }

  /** A bearer is let in exactly with an access token, for an hour from the request that
      brought it, while neither the token nor its grant is revoked. */
  lemma AuthenticatesIff(events: seq<Event>, s: State, token: Id, now: nat)
    requires IsRun(INITIAL, events, s)
    ensures Authenticates(s.t, token, now) <==>
              && token in s.t.tokens && s.t.tokens[token].revokedAt.None? && MayIssue(s.t, s.t.tokens[token].grant)
              && exists i: nat :: Issues(events, i, token, Access) && now < AskedAt(events, i) + 60 * 60 * 1000
  {
    HistoryIsRecorded(events, s);
    if token in s.t.tokens {
      var i: nat :| Issues(events, i, token, s.t.tokens[token].kind);
      assert TokenKept(events, s.t, i, token, s.t.tokens[token].kind);
    }
    forall i: nat | Issues(events, i, token, Access) ensures TokenKept(events, s.t, i, token, Access) {}
  }

  /** The grant whose tokens a step revokes, and when. */
  predicate RevokesTokens(s: State, e: Event, grant: Id, now: nat)
    requires Enabled(s, e)
  {
    (e.RevokeAll? || e.AgentRevokeTokens?) && s.procs[e.p].grant == grant && s.procs[e.p].now == now
  }

  /** A revocation takes the tokens of its grant that are still good, and nothing else. */
  lemma RevocationTakesOnly(s: State, e: Event, grant: Id, now: nat, token: Id)
    requires Enabled(s, e) && RevokesTokens(s, e, grant, now) && token in s.t.tokens
    ensures var t, row := Next(s, e).t, s.t.tokens[token];
            && t.tokens.Keys == s.t.tokens.Keys && t.codes == s.t.codes
            && t.tokens[token] == if row.grant == grant && row.revokedAt.None? then row.(revokedAt := Some(now)) else row
  {
  }

  /** The grant is revoked, and so is each of its tokens. */
  ghost predicate AllRevoked(t: Tables, grant: Id) {
    Revoked(t, grant) && forall k :: k in t.tokens && t.tokens[k].grant == grant ==> t.tokens[k].revokedAt.Some?
  }

  /** Whoever presents any token of a grant can have all of it revoked, in two steps. */
  lemma TokenHolderRevokes(events: seq<Event>, s: State, p: Id, token: Id, now: nat)
    requires IsRun(INITIAL, events, s) && p !in s.procs && token in s.t.tokens
    ensures Enabled(s, ReadRevoke(p, token, now))
    ensures var a := Next(s, ReadRevoke(p, token, now));
            Enabled(a, RevokeAll(p)) && AllRevoked(Next(a, RevokeAll(p)).t, s.t.tokens[token].grant)
  {
    RunKeepsInv(INITIAL, events, s);
  }

  /** So can the agents page, whose first step already ends every use of the grant. */
  lemma AgentsPageRevokes(s: State, p: Id, grant: Id, now: nat)
    requires p !in s.procs && MayIssue(s.t, grant)
    ensures Enabled(s, AgentRevoke(p, grant, now))
    ensures var a := Next(s, AgentRevoke(p, grant, now));
            Revoked(a.t, grant) && Enabled(a, AgentRevokeTokens(p)) && AllRevoked(Next(a, AgentRevokeTokens(p)).t, grant)
  {
  }
}
