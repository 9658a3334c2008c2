// core/sip/supervisor.go clientConfigFromDefinition and core/sip/server.go
// normalizeClientConfig: from a validated definition to the listeners it asks for.
module ClientConfigs {
  import opened Text
  import opened SipConfig
  import opened Ports

  /** The settings that cannot change while a listener runs, its socket aside. */
  datatype Identity = Identity(
    externalIP: string, inboundOnly: bool, registration: string, server: string,
    extension: string, domain: string)

  datatype ClientConfig = ClientConfig(
    connectionId: string, name: string, kind: string, entrypoint: string, routes: seq<Route>,
    allowedCidrs: seq<Cidr>, username: string, password: string, expirySeconds: int,
    recordPath: string, socket: Socket, identity: Identity)

  /** A configuration together with the definition it was taken from. */
  datatype Listener = Listener(config: ClientConfig, definition: Definition)

  /** listenerRequiresRecreate. */
  predicate Recreate(a: ClientConfig, b: ClientConfig) { a.socket != b.socket || a.identity != b.identity }

  /** A listener whose every resolvable call names a function it can run. */
  predicate Servable(l: Listener) {
    TargetsOk(l.definition.functions, l.config.kind, l.config.entrypoint, l.config.routes)
  }

  /** Where a listener sends a called number. */
  function RouteOf(l: Listener, called: string): Resolution {
    Resolve(l.config.kind, l.config.entrypoint, l.config.routes, called)
  }

  /** On a servable listener every entrypoint found names a function. */
  lemma ServableAnswers(l: Listener, called: string)
    ensures Servable(l) && RouteOf(l, called).found ==> RouteOf(l, called).entrypoint in l.definition.functions
  {
    if Servable(l) && RouteOf(l, called).found {
      ResolvedEntrypointExists(l.definition.functions, l.config.kind, l.config.entrypoint, l.config.routes, called);
    }
  }

  function LastColon(s: string): int
    ensures -1 <= LastColon(s) < |s|
  {
    if s == [] then -1
    else if s[|s| - 1] == ':' then |s| - 1
    else LastColon(s[..|s| - 1])
  }

  function IndexOf(s: string, c: char): int
    ensures -1 <= IndexOf(s, c) < |s|
  {
    if s == [] then -1
    else if s[0] == c then 0
    else var r := IndexOf(s[1..], c); if r < 0 then -1 else r + 1
  }

  /** The host part of net.SplitHostPort. */
  function HostOf(server: string): Option<string> {
    var colon := LastColon(server);
    if colon < 0 then None
    else if server[0] == '[' then
      var end := IndexOf(server, ']');
      if end < 1 || end + 1 != colon || '[' in server[1..] || ']' in server[end + 1..] then None
      else Some(server[1..end])
    else if ':' in server[..colon] || '[' in server || ']' in server then None
    else Some(server[..colon])
  }

  lemma {:induction false} LastColonIs(a: string, b: string)
    requires ':' !in b
    ensures LastColon(a + ":" + b) == |a|
    decreases |b|
  {
    var s := a + ":" + b;
    if b != [] {
      assert s[..|s| - 1] == a + ":" + b[..|b| - 1];
      assert s[|s| - 1] == b[|b| - 1] && b[|b| - 1] in b;
      LastColonIs(a, b[..|b| - 1]);
    }
  }

  lemma {:induction false} LastColonSplits(s: string)
    ensures var k := LastColon(s); if k < 0 then ':' !in s else s[k] == ':' && ':' !in s[k + 1..] && s == s[..k] + ":" + s[k + 1..]
  {
    if s != [] && s[|s| - 1] != ':' {
      var n := |s| - 1;
      var k := LastColon(s[..n]);
      LastColonSplits(s[..n]);
      assert s == s[..n] + [s[n]];
      if k >= 0 { assert s[k + 1..] == s[..n][k + 1..] + [s[n]]; }
    }
  }

  lemma {:induction false} IndexIs(a: string, c: char, b: string)
    requires c !in a
    ensures IndexOf(a + [c] + b, c) == |a|
  {
    if a != [] {
      assert (a + [c] + b)[1..] == a[1..] + [c] + b;
      IndexIs(a[1..], c, b);
    }
  }

  lemma {:induction false} IndexSplits(s: string, c: char)
    ensures var k := IndexOf(s, c); if k < 0 then c !in s else s[k] == c && c !in s[..k]
  {
    if s != [] && s[0] != c {
      IndexSplits(s[1..], c);
      var k := IndexOf(s[1..], c);
      assert s == [s[0]] + s[1..];
      if k >= 0 { assert s[..k + 1] == [s[0]] + s[1..][..k]; }
    }
  }

  predicate Unbracketed(s: string) { '[' !in s && ']' !in s }

  /** host:port with one colon, or [host]:port. */
  predicate JoinsHostPort(server: string, host: string, port: string) {
    && ':' !in port && Unbracketed(port) && Unbracketed(host)
    && ((':' !in host && server == host + ":" + port) || server == "[" + host + "]:" + port)
  }

  /** A host is found exactly in a server of one of these two forms. */
  lemma HostIff(server: string, host: string)
    ensures HostOf(server) == Some(host) <==> exists port :: JoinsHostPort(server, host, port)
  {
    if HostOf(server) == Some(host) {
      var port := server[LastColon(server) + 1..];
      HostFound(server, host, port);
    }
    if port :| JoinsHostPort(server, host, port) {
      HostJoined(server, host, port);
    }
  }

  lemma HostFound(server: string, host: string, port: string)
    requires HostOf(server) == Some(host) && port == server[LastColon(server) + 1..]
    ensures JoinsHostPort(server, host, port)
  {
    LastColonSplits(server);
    IndexSplits(server, ']');
    if server[0] == '[' {
      var end := IndexOf(server, ']');
      assert server[..end + 1] == "[" + host + "]";
      assert port == server[1..][end + 1..] == server[end + 1..][1..];
      assert host == server[1..][..end - 1] && host == server[..end][1..];
    }
  }

  lemma HostJoined(server: string, host: string, port: string)
    requires JoinsHostPort(server, host, port)
    ensures HostOf(server) == Some(host)
  {
    if server == "[" + host + "]:" + port {
      BracketsAt(host, port, server);
    } else {
      LastColonIs(host, port);
      assert server[..|host|] == host;
      if host != [] { assert server[0] == host[0] && host[0] in host; }
    }
  }

  lemma BracketsAt(host: string, port: string, server: string)
    requires ':' !in port && Unbracketed(port) && Unbracketed(host) && server == "[" + host + "]:" + port
    ensures HostOf(server) == Some(host)
  {
    var open, inner := "[" + host, host + "]";
    assert server == ("[" + inner) + ":" + port && server == open + [']'] + (":" + port);
    LastColonIs("[" + inner, port);
    IndexIs(open, ']', ":" + port);
    var rest := server[1..];
    assert rest == inner + ":" + port && rest[..|host|] == host;
    assert server[|host| + 2..] == ":" + port && server[1..|host| + 1] == host;
  }

  /** normalizeClientConfig. */
  function Normalize(c: ClientConfig): ClientConfig {
    var extension := if c.identity.extension == "" then c.connectionId else c.identity.extension;
    var domain := if c.identity.domain != "" then c.identity.domain
                  else if c.identity.inboundOnly then "local"
                  else match HostOf(c.identity.server)
                       case Some(host) => host
                       case None => c.identity.server;
    c.(socket := Socket(NormTransport(c.socket.transport), c.socket.port),
       expirySeconds := if c.expirySeconds == 0 then 300 else c.expirySeconds,
       username := if c.username == "" then extension else c.username,
       identity := c.identity.(extension := extension, domain := domain))
  }

  /** clientConfigFromDefinition. */
  function ConfigFor(d: Definition, c: Connection, password: string): ClientConfig {
    Normalize(ClientConfig(
      c.id, c.name, c.kind, c.entrypoint, c.routes, c.allowedCidrs, c.username, password,
      if c.expirySeconds <= 0 then 300 else c.expirySeconds,
      if d.recordPath == "" then "files/recording" else d.recordPath,
      Socket(DefaultTransport(c.transport), c.localPort),
      Identity(c.externalIP, c.registration == INBOUND, c.registration, c.server, c.extension, c.domain)))
  }

  lemma {:induction false} LowerKeepsSpaces(t: string)
    ensures |ToLower(t)| == |t|
    ensures forall i :: 0 <= i < |t| ==> IsSpace(ToLower(t)[i]) == IsSpace(t[i])
  {
    if t != [] {
      LowerKeepsSpaces(t[1..]);
    }
  }

  lemma NormTransportIdempotent(t: string)
    ensures NormTransport(NormTransport(t)) == NormTransport(t)
  {
    var trimmed := TrimSpace(t);
    TrimmedEnds(t);
    LowerKeepsSpaces(trimmed);
    TrimNothing(ToLower(trimmed));
    LowerIdempotent(trimmed);
    assert ToLower("udp") == "udp";
    TrimNothing("udp");
  }

  /** NewClient normalises once more; a computed configuration is not changed by that,
      so a listener runs exactly the configuration that was desired. */
  lemma NormalizeIdempotent(c: ClientConfig)
    ensures Normalize(Normalize(c)) == Normalize(c)
  {
    NormTransportIdempotent(c.socket.transport);
  }

  predicate Normal(c: ClientConfig) { Normalize(c) == c }

  lemma ConfigForNormal(d: Definition, c: Connection, password: string)
    ensures Normal(ConfigFor(d, c, password))
  {
    NormalizeIdempotent(ClientConfig(
      c.id, c.name, c.kind, c.entrypoint, c.routes, c.allowedCidrs, c.username, password,
      if c.expirySeconds <= 0 then 300 else c.expirySeconds,
      if d.recordPath == "" then "files/recording" else d.recordPath,
      Socket(DefaultTransport(c.transport), c.localPort),
      Identity(c.externalIP, c.registration == INBOUND, c.registration, c.server, c.extension, c.domain)));
  }

  /** The socket of a configuration is the one the port allocation reserved. */
  lemma ConfigSocket(d: Definition, c: Connection, password: string)
    ensures ConfigFor(d, c, password).socket == SocketOf(c)
  {
    if c.transport == "" {
      assert ToLower("udp") == "udp" && TrimSpace("udp") == "udp" && TrimSpace("") == "";
    }
  }

  function PasswordOf(passwords: map<string, string>, id: string): string {
    if id in passwords then passwords[id] else ""
  }

  function ListenersFor(d: Definition, conns: seq<Connection>, passwords: map<string, string>): seq<Listener> {
    seq(|conns|, i requires 0 <= i < |conns| =>
      Listener(ConfigFor(d, conns[i], PasswordOf(passwords, conns[i].id)), d))
  }

  /** nextDesired: by connection id, the listeners that have a password. */
  function WithPassword(ls: seq<Listener>): map<string, Listener> {
    if ls == [] then map[]
    else
      var l := ls[|ls| - 1];
      var rest := WithPassword(ls[..|ls| - 1]);
      if l.config.password == "" then rest else rest[l.config.connectionId := l]
  }

  ghost predicate DistinctListeners(ls: seq<Listener>) {
    forall i, j :: 0 <= i < j < |ls| ==>
      ls[i].config.connectionId != ls[j].config.connectionId && ls[i].config.socket != ls[j].config.socket
  }

  lemma {:induction false} WithPasswordMembers(ls: seq<Listener>)
    requires DistinctListeners(ls)
    ensures forall l :: l in ls && l.config.password != "" ==>
              l.config.connectionId in WithPassword(ls) && WithPassword(ls)[l.config.connectionId] == l
    ensures forall id :: id in WithPassword(ls) ==>
              WithPassword(ls)[id] in ls && WithPassword(ls)[id].config.connectionId == id
  {
    if ls != [] {
      var n := |ls| - 1;
      var last, front := ls[n], ls[..n];
      WithPasswordMembers(front);
      assert forall l :: l in ls <==> l in front || l == last;
      forall l | l in front ensures l.config.connectionId != last.config.connectionId {
        var i :| 0 <= i < n && ls[i] == l;
      }
    }
  }

  function Ids(conns: seq<Connection>): set<string> { set i | 0 <= i < |conns| :: conns[i].id }

  /** What one Apply works towards: the ids it mentions and the listeners it wants. */
  datatype Plan = Plan(ids: set<string>, want: map<string, Listener>)

  function PlanFor(d: Definition, conns: seq<Connection>, passwords: map<string, string>): Plan {
    Plan(Ids(conns), WithPassword(ListenersFor(d, conns, passwords)))
  }

  /** Every listener is one whose resolvable calls it can run. */
  ghost predicate AllServable(ls: map<string, Listener>) {
    forall a {:trigger Servable(ls[a])} :: a in ls ==> Servable(ls[a])
  }

  ghost predicate PlanSound(p: Plan) {
    && p.want.Keys <= p.ids && AllServable(p.want)
    && (forall a :: a in p.want ==> p.want[a].config.connectionId == a)
    && (forall a, b :: a in p.want && b in p.want && a != b ==>
          p.want[a].config.socket != p.want[b].config.socket)
  }

  lemma ListenerFacts(d: Definition, c: Connection, ported: Connection, password: string)
    requires ConnectionOk(d.functions, c) && ported == c.(localPort := ported.localPort)
    ensures var l := Listener(ConfigFor(d, ported, password), d);
            l.config.connectionId == c.id && l.config.socket == SocketOf(ported) && Servable(l)
  {
    ConfigSocket(d, ported, password);
  }

  lemma ListenersDistinct(d: Definition, stored: map<string, int>, conns: seq<Connection>, passwords: map<string, string>)
    requires ConnectionsOk(d.functions, d.connections) && Allocates(d.connections, stored, conns)
    ensures var ls := ListenersFor(d, conns, passwords);
            && DistinctListeners(ls)
            && forall i :: 0 <= i < |ls| ==> ls[i].config.connectionId in Ids(conns) && Servable(ls[i])
  {
    ValidIsAllocatable(d.functions, d.connections);
    AllocatedSocketsDistinct(d.connections, stored, conns);
    var ls := ListenersFor(d, conns, passwords);
    forall i | 0 <= i < |ls|
      ensures ls[i].config.connectionId == conns[i].id == d.connections[i].id
      ensures ls[i].config.socket == SocketOf(conns[i]) && Servable(ls[i])
    {
      ListenerFacts(d, d.connections[i], conns[i], PasswordOf(passwords, conns[i].id));
    }
    forall i, j | 0 <= i < j < |ls|
      ensures ls[i].config.connectionId != ls[j].config.connectionId && ls[i].config.socket != ls[j].config.socket
    {
      assert SocketOf(conns[i]) != SocketOf(conns[j]);
      assert d.connections[i].id != d.connections[j].id;
    }
  }

  lemma WithPasswordDistinct(ls: seq<Listener>, a: string, b: string)
    requires DistinctListeners(ls) && a in WithPassword(ls) && b in WithPassword(ls) && a != b
    ensures WithPassword(ls)[a].config.socket != WithPassword(ls)[b].config.socket
  {
    WithPasswordMembers(ls);
    var i :| 0 <= i < |ls| && ls[i] == WithPassword(ls)[a];
    var j :| 0 <= j < |ls| && ls[j] == WithPassword(ls)[b];
    if i < j {
      assert ls[i].config.socket != ls[j].config.socket;
    } else {
      assert ls[j].config.socket != ls[i].config.socket;
    }
  }

  /** A validated definition with allocated ports gives every wanted listener a socket of
      its own and a route table that only names functions of that definition. */
  lemma PlanForSound(d: Definition, stored: map<string, int>, conns: seq<Connection>, passwords: map<string, string>)
    requires ConnectionsOk(d.functions, d.connections) && Allocates(d.connections, stored, conns)
    ensures PlanSound(PlanFor(d, conns, passwords))
  {
    ListenersDistinct(d, stored, conns, passwords);
    PlanSoundFrom(ListenersFor(d, conns, passwords), Ids(conns));
  }

  /** Every planned configuration is one that creating a client leaves as it is. */
  lemma PlanForNormal(d: Definition, conns: seq<Connection>, passwords: map<string, string>)
    requires DistinctListeners(ListenersFor(d, conns, passwords))
    ensures forall id :: id in PlanFor(d, conns, passwords).want ==> Normal(PlanFor(d, conns, passwords).want[id].config)
  {
    var ls := ListenersFor(d, conns, passwords);
    WithPasswordMembers(ls);
    forall i | 0 <= i < |ls| ensures Normal(ls[i].config) {
      ConfigForNormal(d, conns[i], PasswordOf(passwords, conns[i].id));
    }
  }

  /** A connection is either wanted or without credentials. */
  lemma PlanForCovers(d: Definition, conns: seq<Connection>, passwords: map<string, string>)
    requires UniqueIds(conns) && DistinctListeners(ListenersFor(d, conns, passwords))
    ensures PlanFor(d, conns, passwords).ids == PlanFor(d, conns, passwords).want.Keys + MissingIds(conns, passwords)
  {
    var ls := ListenersFor(d, conns, passwords);
    WithPasswordMembers(ls);
    forall i | 0 <= i < |conns|
      ensures conns[i].id in PlanFor(d, conns, passwords).want <==> PasswordOf(passwords, conns[i].id) != ""
    {
      ConfigCarries(d, conns[i], PasswordOf(passwords, conns[i].id));
      assert ls[i] in ls;
      if conns[i].id in WithPassword(ls) {
        var l := WithPassword(ls)[conns[i].id];
        var j :| 0 <= j < |ls| && ls[j] == l;
        ConfigCarries(d, conns[j], PasswordOf(passwords, conns[j].id));
        WithPasswordHasPassword(ls, conns[i].id);
      }
    }
    forall id | id in PlanFor(d, conns, passwords).want ensures id in Ids(conns) {
      var j :| 0 <= j < |ls| && ls[j] == WithPassword(ls)[id];
      ConfigCarries(d, conns[j], PasswordOf(passwords, conns[j].id));
    }
  }

  lemma {:induction false} WithPasswordHasPassword(ls: seq<Listener>, id: string)
    requires id in WithPassword(ls)
    ensures WithPassword(ls)[id].config.password != ""
  {
    if id in WithPassword(ls[..|ls| - 1]) {
      WithPasswordHasPassword(ls[..|ls| - 1], id);
    }
  }

  lemma ConfigCarries(d: Definition, c: Connection, password: string)
    ensures ConfigFor(d, c, password).connectionId == c.id && ConfigFor(d, c, password).password == password
  {
  }

  lemma PlanSoundFrom(ls: seq<Listener>, ids: set<string>)
    requires DistinctListeners(ls)
    requires forall i :: 0 <= i < |ls| ==> ls[i].config.connectionId in ids && Servable(ls[i])
    ensures PlanSound(Plan(ids, WithPassword(ls)))
  {
    WithPasswordMembers(ls);
    forall a, b | a in WithPassword(ls) && b in WithPassword(ls) && a != b
      ensures WithPassword(ls)[a].config.socket != WithPassword(ls)[b].config.socket
    {
      WithPasswordDistinct(ls, a, b);
    }
    forall a | a in WithPassword(ls) ensures Servable(WithPassword(ls)[a]) {
      var i :| 0 <= i < |ls| && ls[i] == WithPassword(ls)[a];
    }
  }

  // ------------------------------------------------ the first loop of Apply

  /** s.generation[id]++ for every id given. */
  function Bumped(generation: map<string, nat>, ids: set<string>): map<string, nat> {
    map id | id in generation.Keys + ids
      :: (if id in generation then generation[id] else 0) + (if id in ids then 1 else 0)
  }

  lemma BumpStep(generation: map<string, nat>, conns: seq<Connection>, i: nat)
    requires UniqueIds(conns) && i < |conns|
    ensures var before := Bumped(generation, Ids(conns[..i]));
            Bumped(generation, Ids(conns[..i + 1]))
              == before[conns[i].id := (if conns[i].id in before then before[conns[i].id] else 0) + 1]
  {
    var a, b := Ids(conns[..i]), Ids(conns[..i + 1]);
    assert b == a + {conns[i].id} by {
      forall id | id in b ensures id in a + {conns[i].id} {
        var k :| 0 <= k < i + 1 && conns[..i + 1][k].id == id;
        if k < i { assert conns[..i][k].id == id; }
      }
      forall id | id in a ensures id in b {
        var k :| 0 <= k < i && conns[..i][k].id == id;
        assert conns[..i + 1][k].id == id;
      }
      assert conns[..i + 1][i].id == conns[i].id;
    }
    assert conns[i].id !in a;
  }

  /** missingCredentials. */
  function MissingIds(conns: seq<Connection>, passwords: map<string, string>): set<string> {
    set i | 0 <= i < |conns| && PasswordOf(passwords, conns[i].id) == "" :: conns[i].id
  }

  lemma MissingStep(conns: seq<Connection>, passwords: map<string, string>, i: nat)
    requires i < |conns|
    ensures MissingIds(conns[..i + 1], passwords)
              == MissingIds(conns[..i], passwords) + if PasswordOf(passwords, conns[i].id) == "" then {conns[i].id} else {}
  {
    var a, b := conns[..i], conns[..i + 1];
    assert forall k :: 0 <= k < i ==> a[k] == b[k];
    assert b[i] == conns[i];
  }

  /** The variables of the loop after n connections. */
  ghost predicate Collected(d: Definition, conns: seq<Connection>, passwords: map<string, string>, generation: map<string, nat>,
                            n: nat, want: map<string, Listener>, bumped: map<string, nat>, missing: set<string>)
    requires n <= |conns|
  {
    && want == WithPassword(ListenersFor(d, conns, passwords)[..n])
    && bumped == Bumped(generation, Ids(conns[..n]))
    && missing == MissingIds(conns[..n], passwords)
  }

  lemma WithOneMore(ls: seq<Listener>, i: nat)
    requires i < |ls|
    ensures WithPassword(ls[..i + 1])
              == if ls[i].config.password == "" then WithPassword(ls[..i]) else WithPassword(ls[..i])[ls[i].config.connectionId := ls[i]]
  {
    assert ls[..i + 1][..i] == ls[..i] && ls[..i + 1][i] == ls[i];
  }

  lemma WantStep(d: Definition, conns: seq<Connection>, passwords: map<string, string>, i: nat, l: Listener)
    requires i < |conns| && l == Listener(ConfigFor(d, conns[i], PasswordOf(passwords, conns[i].id)), d)
    ensures var ls := ListenersFor(d, conns, passwords);
            WithPassword(ls[..i + 1])
              == if l.config.password == "" then WithPassword(ls[..i]) else WithPassword(ls[..i])[conns[i].id := l]
    ensures l.config.password == PasswordOf(passwords, conns[i].id)
  {
    WithOneMore(ListenersFor(d, conns, passwords), i);
    ConfigCarries(d, conns[i], PasswordOf(passwords, conns[i].id));
  }

  lemma CollectStep(d: Definition, conns: seq<Connection>, passwords: map<string, string>, generation: map<string, nat>,
                    i: nat, want: map<string, Listener>, bumped: map<string, nat>, missing: set<string>, l: Listener)
    requires UniqueIds(conns) && i < |conns| && Collected(d, conns, passwords, generation, i, want, bumped, missing)
    requires l == Listener(ConfigFor(d, conns[i], PasswordOf(passwords, conns[i].id)), d)
    ensures Collected(d, conns, passwords, generation, i + 1,
                      if l.config.password == "" then want else want[conns[i].id := l],
                      bumped[conns[i].id := (if conns[i].id in bumped then bumped[conns[i].id] else 0) + 1],
                      if l.config.password == "" then missing + {conns[i].id} else missing)
  {
    WantStep(d, conns, passwords, i, l);
    BumpStep(generation, conns, i);
    MissingStep(conns, passwords, i);
  }

  lemma CollectStart(d: Definition, conns: seq<Connection>, passwords: map<string, string>, generation: map<string, nat>)
    ensures Collected(d, conns, passwords, generation, 0, map[], generation, {})
  {
    assert Bumped(generation, Ids(conns[..0])) == generation;
  }

  /** What is wanted now, under a new generation per connection. */
  method CollectDesired(d: Definition, conns: seq<Connection>, passwords: map<string, string>, generation: map<string, nat>)
    returns (want: map<string, Listener>, bumped: map<string, nat>, missing: set<string>)
    requires UniqueIds(conns)
    ensures want == PlanFor(d, conns, passwords).want
    ensures bumped == Bumped(generation, Ids(conns))
    ensures missing == MissingIds(conns, passwords)
  {
    want, bumped, missing := map[], generation, {};
    CollectStart(d, conns, passwords, generation);
    for i := 0 to |conns|
      invariant Collected(d, conns, passwords, generation, i, want, bumped, missing)
    {
      var c := conns[i];
      var l := Listener(ConfigFor(d, c, PasswordOf(passwords, c.id)), d);
      CollectStep(d, conns, passwords, generation, i, want, bumped, missing, l);
      bumped := bumped[c.id := (if c.id in bumped then bumped[c.id] else 0) + 1];
      if l.config.password == "" {
        missing := missing + {c.id};
      } else {
        want := want[c.id := l];
      }
    }
    assert ListenersFor(d, conns, passwords)[..|conns|] == ListenersFor(d, conns, passwords) && conns[..|conns|] == conns;
  }
}
