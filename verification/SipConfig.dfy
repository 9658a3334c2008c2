// core/functions/sip_config.go, definiton.go, fn.go and action.go: the checked
// configuration, trunk routing and reused actions.
module SipConfig {
  import opened Text

  datatype Route = Route(id: string, number: string, entrypoint: string, catchAll: bool)

  /** parses: whether net.ParseCIDR accepts the trimmed text. */
  datatype Cidr = Cidr(text: string, parses: bool)

  datatype Connection = Connection(
    id: string, name: string, kind: string, registration: string, server: string,
    extension: string, username: string, domain: string, transport: string, localPort: int,
    expirySeconds: int, externalIP: string, allowedCidrs: seq<Cidr>, entrypoint: string,
    routes: seq<Route>)

  datatype ActionReference = ActionReference(fn: string, key: int)

  /** plain: the first non-reuse kind the action configures, if any. */
  datatype Action = Action(num: int, reuse: ActionReference, plain: Option<string>)

  datatype Fn = Fn(name: string, actions: seq<Action>)

  datatype Queue = Queue(name: string, end: Action)

  datatype Definition = Definition(
    maxConcurrentCalls: int, recordPath: string, connections: seq<Connection>,
    unsorted: seq<Fn>, functions: map<string, Fn>, queues: seq<Queue>)

  datatype Verdict = Accepted | Rejected(reason: string)

  datatype Socket = Socket(transport: string, port: int)

  const ENDPOINT := "endpoint"
  const TRUNK := "trunk"
  const REGISTERED := "registered"
  const INBOUND := "inbound"
  const MAX_REUSE_HOPS := 32

  // ------------------------------------------------------------- routing

  function NormalizeCalledNumber(number: string): string {
    var n := TrimSpace(number);
    if n != [] && n[0] == '+' then n[1..] else n
  }

  predicate Matches(r: Route, called: string) {
    !r.catchAll && NormalizeCalledNumber(r.number) == NormalizeCalledNumber(called)
  }

  datatype Resolution = Resolution(entrypoint: string, found: bool)

  /** The scan of ResolveEntrypoint over the routes of a trunk. */
  function Scan(routes: seq<Route>, called: string, catchAll: string): Resolution {
    if routes == [] then Resolution(catchAll, catchAll != "")
    else if routes[0].catchAll then Scan(routes[1..], called, routes[0].entrypoint)
    else if Matches(routes[0], called) then Resolution(routes[0].entrypoint, true)
    else Scan(routes[1..], called, catchAll)
  }

  function Resolve(kind: string, entrypoint: string, routes: seq<Route>, called: string): Resolution {
    if kind == ENDPOINT then Resolution(entrypoint, entrypoint != "") else Scan(routes, called, "")
  }

  method ResolveEntrypoint(kind: string, entrypoint: string, routes: seq<Route>, called: string)
    returns (r: Resolution)
    ensures r == Resolve(kind, entrypoint, routes, called)
  {
    if kind == ENDPOINT {
      return Resolution(entrypoint, entrypoint != "");
    }
    var want := NormalizeCalledNumber(called);
    var catchAll := "";
    for i := 0 to |routes|
      invariant Scan(routes[i..], called, catchAll) == Scan(routes, called, "")
    {
      var route := routes[i];
      assert routes[i..][1..] == routes[i + 1..];
      if route.catchAll {
        catchAll := route.entrypoint;
        continue;
      }
      if NormalizeCalledNumber(route.number) == want {
        return Resolution(route.entrypoint, true);
      }
    }
    return Resolution(catchAll, catchAll != "");
  }

  // ---------------------------------------------------------- validation

  predicate IdChar(c: char) {
    'A' <= c <= 'Z' || 'a' <= c <= 'z' || '0' <= c <= '9' || c == '_' || c == '-'
  }

  predicate IdOk(s: string) {
    1 <= |s| <= 128 && forall i :: 0 <= i < |s| ==> IdChar(s[i])
  }

  function DefaultTransport(t: string): string { if t == "" then "udp" else t }

  /** The socket Validate uses to detect two explicit claims on one port. */
  function ClaimedSocket(c: Connection): Socket {
    Socket(ToLower(DefaultTransport(c.transport)), c.localPort)
  }

  predicate RoutesClash(a: Route, b: Route) {
    || a.id == b.id
    || (a.catchAll && b.catchAll)
    || (!a.catchAll && !b.catchAll && NormalizeCalledNumber(a.number) == NormalizeCalledNumber(b.number))
  }

  predicate RouteOk(functions: map<string, Fn>, r: Route) {
    && IdOk(r.id) && r.entrypoint in functions
    && (if r.catchAll then TrimSpace(r.number) == "" else NormalizeCalledNumber(r.number) != "")
  }

  predicate RoutesOk(functions: map<string, Fn>, routes: seq<Route>) {
    && (forall j :: 0 <= j < |routes| ==> RouteOk(functions, routes[j]))
    && (forall j, k :: 0 <= j < k < |routes| ==> !RoutesClash(routes[j], routes[k]))
  }

  predicate TargetsOk(functions: map<string, Fn>, kind: string, entrypoint: string, routes: seq<Route>) {
    if kind == ENDPOINT then entrypoint in functions && routes == []
    else kind == TRUNK && entrypoint == "" && routes != [] && RoutesOk(functions, routes)
  }

  predicate ListenerOk(c: Connection) {
    && c.registration in {REGISTERED, INBOUND}
    && ToLower(DefaultTransport(c.transport)) in {"udp", "tcp", "ws"}
    && 0 <= c.localPort <= 65535
    && (if c.registration == REGISTERED then TrimSpace(c.server) != "" && TrimSpace(c.extension) != ""
        else c.localPort != 0 && c.allowedCidrs != [] && TrimSpace(c.username) != "")
    && forall i :: 0 <= i < |c.allowedCidrs| ==> c.allowedCidrs[i].parses
  }

  predicate ConnectionOk(functions: map<string, Fn>, c: Connection) {
    IdOk(c.id) && ListenerOk(c) && TargetsOk(functions, c.kind, c.entrypoint, c.routes)
  }

  predicate UniqueIds(cs: seq<Connection>) {
    forall i, j :: 0 <= i < j < |cs| ==> cs[i].id != cs[j].id
  }

  predicate ClaimsClash(a: Connection, b: Connection) {
    a.localPort != 0 && b.localPort != 0 && ClaimedSocket(a) == ClaimedSocket(b)
  }

  predicate UniqueClaims(cs: seq<Connection>) {
    forall i, j :: 0 <= i < j < |cs| ==> !ClaimsClash(cs[i], cs[j])
  }

  ghost predicate ValidDefinition(d: Definition) {
    d.connections != [] && ConnectionsOk(d.functions, d.connections) && ReferencesOk(d)
  }

  /** Route j is sound and clashes with no earlier route. */
  ghost predicate RouteFits(functions: map<string, Fn>, routes: seq<Route>, j: int)
    requires 0 <= j < |routes|
  {
    RouteOk(functions, routes[j]) && forall k :: 0 <= k < j ==> !RoutesClash(routes[k], routes[j])
  }

  lemma RoutesOkIsPointwise(functions: map<string, Fn>, routes: seq<Route>)
    ensures RoutesOk(functions, routes) <==> forall j :: 0 <= j < |routes| ==> RouteFits(functions, routes, j)
  {
    if forall j :: 0 <= j < |routes| ==> RouteFits(functions, routes, j) {
      forall j, k | 0 <= j < k < |routes| ensures !RoutesClash(routes[j], routes[k]) {
        assert RouteFits(functions, routes, k);
      }
      forall j | 0 <= j < |routes| ensures RouteOk(functions, routes[j]) {
        assert RouteFits(functions, routes, j);
      }
    }
  }

  method ValidateRoutes(functions: map<string, Fn>, routes: seq<Route>) returns (v: Verdict)
    ensures v.Accepted? <==> RoutesOk(functions, routes)
  {
    RoutesOkIsPointwise(functions, routes);
    var routeIds: set<string>, numbers: set<string>, catchAll := {}, {}, false;
    for j := 0 to |routes|
      invariant forall k :: 0 <= k < j ==> RouteFits(functions, routes, k)
      invariant routeIds == set k | 0 <= k < j :: routes[k].id
      invariant numbers == set k | 0 <= k < j && !routes[k].catchAll :: NormalizeCalledNumber(routes[k].number)
      invariant catchAll <==> exists k :: 0 <= k < j && routes[k].catchAll
    {
      var route := routes[j];
      if !IdOk(route.id) || route.id in routeIds {
        assert !RouteFits(functions, routes, j);
        return Rejected("id must be present and unique");
      }
      routeIds := routeIds + {route.id};
      if route.entrypoint !in functions {
        assert !RouteFits(functions, routes, j);
        return Rejected("entrypoint does not name a function");
      }
      if route.catchAll {
        if catchAll || TrimSpace(route.number) != "" {
          assert !RouteFits(functions, routes, j);
          return Rejected(if catchAll then "more than one catch-all" else "catch-all cannot also define number");
        }
        catchAll := true;
        continue;
      }
      var number := NormalizeCalledNumber(route.number);
      if number == "" || number in numbers {
        assert !RouteFits(functions, routes, j);
        return Rejected("number must be present and unique after normalization");
      }
      numbers := numbers + {number};
    }
    return Accepted;
  }

  method ValidateListener(c: Connection) returns (v: Verdict)
    ensures v.Accepted? <==> ListenerOk(c)
  {
    if c.registration != REGISTERED && c.registration != INBOUND { return Rejected("registration"); }
    var transport := ToLower(DefaultTransport(c.transport));
    if transport != "udp" && transport != "tcp" && transport != "ws" { return Rejected("transport"); }
    if c.localPort < 0 || c.localPort > 65535 { return Rejected("local_port range"); }
    if c.registration == REGISTERED {
      if TrimSpace(c.server) == "" || TrimSpace(c.extension) == "" {
        return Rejected("registered connections require server and extension");
      }
    } else if c.localPort == 0 {
      return Rejected("inbound connections require an explicit local_port");
    } else if |c.allowedCidrs| == 0 {
      return Rejected("inbound connections require allowed_cidrs");
    } else if TrimSpace(c.username) == "" {
      return Rejected("inbound connections require a username");
    }
    for i := 0 to |c.allowedCidrs|
      invariant forall k :: 0 <= k < i ==> c.allowedCidrs[k].parses
    {
      if !c.allowedCidrs[i].parses { return Rejected("invalid CIDR"); }
    }
    return Accepted;
  }

  method ValidateTargets(functions: map<string, Fn>, c: Connection) returns (v: Verdict)
    requires c.kind == ENDPOINT || c.kind == TRUNK
    ensures v.Accepted? <==> TargetsOk(functions, c.kind, c.entrypoint, c.routes)
  {
    if c.kind == ENDPOINT {
      if c.entrypoint !in functions { return Rejected("entrypoint does not name a function"); }
      if |c.routes| != 0 { return Rejected("endpoint connections cannot define routes"); }
      return Accepted;
    }
    if c.entrypoint != "" { return Rejected("trunk connections use routes, not entrypoint"); }
    if |c.routes| == 0 { return Rejected("trunk connections require at least one route"); }
    v := ValidateRoutes(functions, c.routes);
  }

  method ValidateConnection(functions: map<string, Fn>, c: Connection) returns (v: Verdict)
    ensures v.Accepted? <==> ConnectionOk(functions, c)
  {
    if !IdOk(c.id) { return Rejected("id pattern"); }
    if c.kind != ENDPOINT && c.kind != TRUNK { return Rejected("kind must be endpoint or trunk"); }
    v := ValidateListener(c);
    if v.Accepted? {
      v := ValidateTargets(functions, c);
    }
  }

  /** Connection i is sound and takes neither the id nor the socket of an earlier one. */
  ghost predicate ConnectionFits(functions: map<string, Fn>, cs: seq<Connection>, i: int)
    requires 0 <= i < |cs|
  {
    ConnectionOk(functions, cs[i])
    && forall k :: 0 <= k < i ==> cs[k].id != cs[i].id && !ClaimsClash(cs[k], cs[i])
  }

  ghost predicate ConnectionsOk(functions: map<string, Fn>, cs: seq<Connection>) {
    (forall i :: 0 <= i < |cs| ==> ConnectionOk(functions, cs[i])) && UniqueIds(cs) && UniqueClaims(cs)
  }

  lemma ConnectionsOkIsPointwise(functions: map<string, Fn>, cs: seq<Connection>)
    ensures ConnectionsOk(functions, cs) <==> forall i :: 0 <= i < |cs| ==> ConnectionFits(functions, cs, i)
  {
    if forall i :: 0 <= i < |cs| ==> ConnectionFits(functions, cs, i) {
      forall j, k | 0 <= j < k < |cs| ensures cs[j].id != cs[k].id && !ClaimsClash(cs[j], cs[k]) {
        assert ConnectionFits(functions, cs, k);
      }
      forall j | 0 <= j < |cs| ensures ConnectionOk(functions, cs[j]) {
        assert ConnectionFits(functions, cs, j);
      }
    }
  }

  function EarlierIds(cs: seq<Connection>, i: nat): set<string>
    requires i <= |cs|
  {
    set k | 0 <= k < i :: cs[k].id
  }

  function EarlierSockets(cs: seq<Connection>, i: nat): set<Socket>
    requires i <= |cs|
  {
    set k | 0 <= k < i && cs[k].localPort != 0 :: ClaimedSocket(cs[k])
  }

  lemma EarlierStep(cs: seq<Connection>, i: nat)
    requires i < |cs|
    ensures EarlierIds(cs, i + 1) == EarlierIds(cs, i) + {cs[i].id}
    ensures EarlierSockets(cs, i + 1) == EarlierSockets(cs, i) + if cs[i].localPort != 0 then {ClaimedSocket(cs[i])} else {}
  {
  }

  /** The cross-connection half of Validate. */
  method ValidateConnections(functions: map<string, Fn>, cs: seq<Connection>) returns (v: Verdict)
    ensures v.Accepted? <==> ConnectionsOk(functions, cs)
  {
    ConnectionsOkIsPointwise(functions, cs);
    var ids: set<string>, ports: set<Socket> := {}, {};
    for i := 0 to |cs|
      invariant forall k :: 0 <= k < i ==> ConnectionFits(functions, cs, k)
      invariant ids == EarlierIds(cs, i) && ports == EarlierSockets(cs, i)
    {
      EarlierStep(cs, i);
      v := ValidateNext(functions, cs, i, ids, ports);
      if v.Rejected? {
        return v;
      }
      ids := ids + {cs[i].id};
      if cs[i].localPort != 0 {
        ports := ports + {ClaimedSocket(cs[i])};
      }
    }
    return Accepted;
  }

  /** One turn of Validate's loop, against the ids and sockets met so far. */
  method ValidateNext(functions: map<string, Fn>, cs: seq<Connection>, i: nat, ids: set<string>, ports: set<Socket>)
    returns (v: Verdict)
    requires i < |cs| && ids == EarlierIds(cs, i) && ports == EarlierSockets(cs, i)
    ensures v.Accepted? <==> ConnectionFits(functions, cs, i)
  {
    var c := cs[i];
    v := ValidateConnection(functions, c);
    if v.Accepted? && c.id in ids {
      v := Rejected("id is duplicated");
    }
    if v.Accepted? && c.localPort != 0 && ClaimedSocket(c) in ports {
      v := Rejected("socket already owned");
    }
  }

  /** Definition.Validate accepts exactly the valid definitions. */
  method Validate(d: Definition) returns (v: Verdict)
    ensures v.Accepted? <==> ValidDefinition(d)
  {
    if |d.connections| == 0 { return Rejected("at least one connection is required"); }
    v := ValidateConnections(d.functions, d.connections);
    if v.Accepted? {
      v := ValidateActionReferences(d);
    }
  }

  // ------------------------------------------------------ routing lemmas

  ghost predicate SameRoutes(a: seq<Route>, b: seq<Route>) { multiset(a) == multiset(b) }

  lemma SameMembers<T>(a: seq<T>, b: seq<T>)
    requires multiset(a) == multiset(b)
    ensures forall x :: x in a <==> x in b
  {
    forall x ensures x in a <==> x in b {
      assert x in a <==> x in multiset(a);
      assert x in b <==> x in multiset(b);
    }
  }

  /** What a validated trunk answers, read off the route set alone: the entrypoint of
      the matching number, otherwise the catch-all's, otherwise nothing. */
  lemma {:induction false} ScanMeaning(functions: map<string, Fn>, routes: seq<Route>, called: string, catchAll: string)
    requires RoutesOk(functions, routes)
    ensures forall r :: r in routes && Matches(r, called) ==>
              Scan(routes, called, catchAll) == Resolution(r.entrypoint, true)
    ensures (forall r :: r in routes ==> !Matches(r, called)) ==>
              && (forall c :: c in routes && c.catchAll ==>
                    Scan(routes, called, catchAll) == Resolution(c.entrypoint, c.entrypoint != ""))
              && ((forall c :: c in routes ==> !c.catchAll) ==>
                    Scan(routes, called, catchAll) == Resolution(catchAll, catchAll != ""))
  {
    if routes != [] {
      var h, t := routes[0], routes[1..];
      assert RoutesOk(functions, t);
      assert forall r :: r in routes <==> r == h || r in t;
      var rest := if h.catchAll then h.entrypoint else catchAll;
      ScanMeaning(functions, t, called, rest);
      forall r | r in t ensures !RoutesClash(h, r) {
        var k :| 0 <= k < |t| && t[k] == r;
        assert routes[k + 1] == r;
      }
    }
  }

  lemma RoutesOkAnyOrder(functions: map<string, Fn>, a: seq<Route>, b: seq<Route>)
    requires RoutesOk(functions, a) && SameRoutes(a, b)
    ensures RoutesOk(functions, b)
  {
    SameMembers(a, b);
    assert Distinct(a);
    DistinctMultiset(a);
    DistinctMultiset(b);
    forall j | 0 <= j < |b| ensures RouteOk(functions, b[j]) { assert b[j] in a; }
    forall j, k | 0 <= j < k < |b| ensures !RoutesClash(b[j], b[k]) {
      assert b[j] in a && b[k] in a && b[j] != b[k];
      var x :| 0 <= x < |a| && a[x] == b[j];
      var y :| 0 <= y < |a| && a[y] == b[k];
      if x < y { assert !RoutesClash(a[x], a[y]); } else { assert !RoutesClash(a[y], a[x]); }
    }
  }

  /** The answer of a validated trunk does not depend on the order of its routes. */
  lemma RouteOrderIrrelevant(functions: map<string, Fn>, a: seq<Route>, b: seq<Route>, called: string)
    requires RoutesOk(functions, a) && SameRoutes(a, b)
    ensures RoutesOk(functions, b) && Scan(a, called, "") == Scan(b, called, "")
  {
    RoutesOkAnyOrder(functions, a, b);
    ScanMeaning(functions, a, called, "");
    ScanMeaning(functions, b, called, "");
    SameMembers(a, b);
    if r :| r in a && Matches(r, called) {
    } else if c :| c in a && c.catchAll {
    } else {
    }
  }

  /** An exact match wins over a catch-all wherever the two stand. */
  lemma ExactBeatsCatchAll(functions: map<string, Fn>, c: Connection, called: string, exact: Route, catchAll: Route)
    requires ConnectionOk(functions, c) && c.kind == TRUNK
    requires exact in c.routes && catchAll in c.routes && catchAll.catchAll && Matches(exact, called)
    ensures Resolve(c.kind, c.entrypoint, c.routes, called) == Resolution(exact.entrypoint, true)
  {
    ScanMeaning(functions, c.routes, called, "");
  }

  /** Every entrypoint a validated connection resolves to names a function. */
  lemma ResolvedEntrypointExists(functions: map<string, Fn>, kind: string, entrypoint: string,
                                 routes: seq<Route>, called: string)
    requires TargetsOk(functions, kind, entrypoint, routes)
    requires Resolve(kind, entrypoint, routes, called).found
    ensures Resolve(kind, entrypoint, routes, called).entrypoint in functions
  {
    if kind != ENDPOINT {
      ScanMeaning(functions, routes, called, "");
      if r :| r in routes && Matches(r, called) {
      } else if k :| k in routes && k.catchAll {
      } else {
      }
    }
  }

  lemma CatchAllUnique(functions: map<string, Fn>, routes: seq<Route>, a: Route, b: Route)
    requires RoutesOk(functions, routes) && a in routes && b in routes && a.catchAll && b.catchAll
    ensures a == b
  {
    var i :| 0 <= i < |routes| && routes[i] == a;
    var j :| 0 <= j < |routes| && routes[j] == b;
    if i < j { assert RoutesClash(routes[i], routes[j]); }
    if j < i { assert RoutesClash(routes[j], routes[i]); }
  }

  /** Exactly when a validated trunk answers a called number: it has an exact route, or a
      catch-all whose function is not the unnamed one. */
  lemma TrunkAnswersExactlyWhen(functions: map<string, Fn>, routes: seq<Route>, called: string)
    requires RoutesOk(functions, routes)
    ensures Scan(routes, called, "").found <==>
              exists r :: r in routes && (Matches(r, called) || (r.catchAll && r.entrypoint != ""))
  {
    ScanMeaning(functions, routes, called, "");
    if r :| r in routes && Matches(r, called) {
    } else if k :| k in routes && k.catchAll {
      forall r | r in routes && r.catchAll ensures r == k { CatchAllUnique(functions, routes, r, k); }
    } else {
    }
  }

  /** e is what calls to the connection are configured to reach. */
  predicate Configures(c: Connection, e: string) {
    if c.kind == ENDPOINT then e == c.entrypoint else exists r :: r in c.routes && r.entrypoint == e
  }

  predicate ExactRouteTo(c: Connection, e: string) { exists r :: r in c.routes && !r.catchAll && r.entrypoint == e }

  predicate ReachedBy(c: Connection, e: string, called: string) {
    Resolve(c.kind, c.entrypoint, c.routes, called) == Resolution(e, true)
  }

  function Zeros(n: nat): string { seq(n, _ => '0') }

  lemma ZerosAreNormal(n: nat)
    ensures NormalizeCalledNumber(Zeros(n)) == Zeros(n)
  {
    TrimNothing(Zeros(n));
  }

  /** A number longer than every number the routes name. */
  lemma {:induction false} LongerNumber(routes: seq<Route>) returns (n: nat)
    ensures n > 0 && forall r :: r in routes ==> |NormalizeCalledNumber(r.number)| < n
  {
    if routes == [] {
      n := 1;
    } else {
      var m := LongerNumber(routes[1..]);
      var k := |NormalizeCalledNumber(routes[0].number)|;
      n := if k < m then m else k + 1;
      assert forall r :: r in routes <==> r == routes[0] || r in routes[1..];
    }
  }

  lemma NumberOfNoRoute(routes: seq<Route>) returns (called: string)
    ensures called != "" && forall r :: r in routes ==> !Matches(r, called)
  {
    var n := LongerNumber(routes);
    ZerosAreNormal(n);
    called := Zeros(n);
  }

  lemma CatchAllReached(functions: map<string, Fn>, c: Connection, r: Route) returns (called: string)
    requires ConnectionOk(functions, c) && c.kind == TRUNK && r in c.routes && r.catchAll && r.entrypoint != ""
    ensures called != "" && ReachedBy(c, r.entrypoint, called)
  {
    called := NumberOfNoRoute(c.routes);
    ScanMeaning(functions, c.routes, called, "");
  }

  lemma ExactRouteReached(functions: map<string, Fn>, c: Connection, r: Route)
    requires ConnectionOk(functions, c) && r in c.routes && !r.catchAll
    ensures r.number != "" && ReachedBy(c, r.entrypoint, r.number)
  {
    var j :| 0 <= j < |c.routes| && c.routes[j] == r;
    assert RouteOk(functions, c.routes[j]);
    ScanMeaning(functions, c.routes, r.number, "");
  }

  lemma UnnamedNeedsExactRoute(functions: map<string, Fn>, c: Connection, called: string)
    requires ConnectionOk(functions, c) && ReachedBy(c, "", called)
    ensures ExactRouteTo(c, "")
  {
    ScanMeaning(functions, c.routes, called, "");
    if r :| r in c.routes && Matches(r, called) {
    } else if k :| k in c.routes && k.catchAll {
    } else {
    }
  }

  /** A configured entrypoint of a validated connection is reached by some called number if
      and only if it is a name, or an exact route leads to it. */
  lemma EntrypointReachedIff(functions: map<string, Fn>, c: Connection, e: string)
    requires ConnectionOk(functions, c) && Configures(c, e)
    ensures (exists called :: called != "" && ReachedBy(c, e, called)) <==> e != "" || ExactRouteTo(c, e)
  {
    if r :| r in c.routes && !r.catchAll && r.entrypoint == e {
      ExactRouteReached(functions, c, r);
    } else if e == "" {
      forall called | called != "" ensures !ReachedBy(c, e, called) {
        if ReachedBy(c, e, called) { UnnamedNeedsExactRoute(functions, c, called); }
      }
    } else if c.kind == ENDPOINT {
      assert ReachedBy(c, e, "0");
    } else {
      var r :| r in c.routes && r.entrypoint == e;
      var called := CatchAllReached(functions, c, r);
    }
  }

  /** A registered connection that sends every call to one function. */
  function Endpoint(id: string, transport: string, port: int, entrypoint: string): Connection {
    Connection(id, "", ENDPOINT, REGISTERED, "pbx", "1", "", "", transport, port, 0, "", [], entrypoint, [])
  }

  lemma EndpointOk(functions: map<string, Fn>, id: string, transport: string, port: int, entrypoint: string)
    requires IdOk(id) && transport in {"udp", "tcp"} && 0 <= port <= 65535 && entrypoint in functions
    ensures ConnectionOk(functions, Endpoint(id, transport, port, entrypoint))
  {
    assert ToLower("udp") == "udp" && ToLower("tcp") == "tcp";
    TrimNothing("pbx");
    TrimNothing("1");
  }

  /** A definition of one connection, whose functions have no actions. */
  function OneConnection(c: Connection, f: Fn): Definition { Definition(0, "", [c], [f], map[f.name := f], []) }

  lemma OneConnectionValid(c: Connection, f: Fn)
    requires f.actions == [] && ConnectionOk(map[f.name := f], c)
    ensures ValidDefinition(OneConnection(c, f)) && Prepared([f], map[f.name := f])
  {
    assert [f][0] == f;
  }

  /** An accepted definition whose endpoint leads to the unnamed function: no call reaches it. */
  lemma UnnamedEntrypointUnreachable(called: string)
    ensures var c := Endpoint("a", "udp", 5060, "");
            ValidDefinition(OneConnection(c, Fn("", []))) && !Resolve(c.kind, c.entrypoint, c.routes, called).found
  {
    EndpointOk(map["" := Fn("", [])], "a", "udp", 5060, "");
    OneConnectionValid(Endpoint("a", "udp", 5060, ""), Fn("", []));
  }

  /** An accepted definition whose trunk leads to the unnamed function, by an exact route:
      calls reach it. */
  lemma UnnamedEntrypointReached()
    ensures var c := Endpoint("a", "udp", 5060, "").(kind := TRUNK, routes := [Route("r", "1", "", false)]);
            ValidDefinition(OneConnection(c, Fn("", []))) && ReachedBy(c, "", "1")
  {
    var c := Endpoint("a", "udp", 5060, "").(kind := TRUNK, routes := [Route("r", "1", "", false)]);
    var functions := map["" := Fn("", [])];
    EndpointOk(functions, "a", "udp", 5060, "");
    TrimNothing("1");
    assert c.routes[0] in c.routes;
    OneConnectionValid(c, Fn("", []));
    ExactRouteReached(functions, c, c.routes[0]);
  }

  // ------------------------------------------------------ reused actions

  /** Fn.ResolveAction: the last action carrying the number. */
  function LastMatch(actions: seq<Action>, num: int): Option<Action> {
    if actions == [] then None
    else if actions[|actions| - 1].num == num then Some(actions[|actions| - 1])
    else LastMatch(actions[..|actions| - 1], num)
  }

  method ResolveAction(fn: Fn, num: int) returns (r: Option<Action>)
    ensures r == LastMatch(fn.actions, num)
  {
    r := None;
    for i := 0 to |fn.actions|
      invariant r == LastMatch(fn.actions[..i], num)
    {
      assert fn.actions[..i + 1][..i] == fn.actions[..i];
      if fn.actions[i].num == num {
        r := Some(fn.actions[i]);
      }
    }
    assert fn.actions[..|fn.actions|] == fn.actions;
  }

  lemma {:induction false} LastMatchMember(actions: seq<Action>, num: int)
    ensures LastMatch(actions, num).Some? ==> LastMatch(actions, num).value in actions
    ensures LastMatch(actions, num).Some? ==> LastMatch(actions, num).value.num == num
    ensures LastMatch(actions, num).None? <==> forall a :: a in actions ==> a.num != num
  {
    if actions != [] {
      var n := |actions| - 1;
      LastMatchMember(actions[..n], num);
      assert actions == actions[..n] + [actions[n]];
    }
  }

  /** Definition.ResolveActionReference. */
  function Target(d: Definition, ref: ActionReference): Option<Action> {
    if ref.fn in d.functions then LastMatch(d.functions[ref.fn].actions, ref.key) else None
  }

  function Selector(ref: ActionReference): string { ref.fn + "/" + Itoa(ref.key) }

  /** Two references print the same selector only when they are the same reference. */
  lemma SelectorInjective(p: ActionReference, q: ActionReference)
    requires Selector(p) == Selector(q)
    ensures p == q
  {
    ItoaFacts(p.key, q.key);
    ItoaFacts(q.key, p.key);
    var s, dp, dq := Selector(p), Itoa(p.key), Itoa(q.key);
    assert s[|p.fn|] == '/' && s[|q.fn|] == '/';
    assert forall i :: |p.fn| < i < |s| ==> s[i] == dp[i - |p.fn| - 1] != '/';
    assert forall i :: |q.fn| < i < |s| ==> s[i] == dq[i - |q.fn| - 1] != '/';
    assert p.fn == s[..|p.fn|] == q.fn;
    assert dp == s[|p.fn| + 1..] == dq;
  }

  /** Following reuse from a meets a non-reuse action after exactly n hops. */
  ghost predicate Reaches(d: Definition, a: Action, n: nat)
    decreases n
  {
    if a.reuse.fn == "" then n == 0
    else n > 0 && Target(d, a.reuse).Some? && Reaches(d, Target(d, a.reuse).value, n - 1)
  }

  /** None of the first n hops from a goes through the given selector. */
  ghost predicate Avoids(d: Definition, a: Action, n: nat, selector: string)
    decreases n
  {
    n > 0 && a.reuse.fn != "" ==>
      && Selector(a.reuse) != selector
      && (Target(d, a.reuse).Some? ==> Avoids(d, Target(d, a.reuse).value, n - 1, selector))
  }

  ghost predicate ReferenceOk(d: Definition, selector: string, a: Action) {
    exists n: nat :: n <= MAX_REUSE_HOPS && Reaches(d, a, n) && Avoids(d, a, n, selector)
  }

  ghost predicate ReferencesOk(d: Definition) {
    && (forall i, j :: 0 <= i < |d.unsorted| && 0 <= j < |d.unsorted[i].actions| ==>
          ReferenceOk(d, FnOrigin(d.unsorted[i], d.unsorted[i].actions[j]), d.unsorted[i].actions[j]))
    && (forall i :: 0 <= i < |d.queues| ==> ReferenceOk(d, QueueOrigin(d.queues[i]), d.queues[i].end))
  }

  function FnOrigin(f: Fn, a: Action): string { f.name + "/" + Itoa(a.num) }

  function QueueOrigin(q: Queue): string { "queue/" + q.name }

  /** trail: the actions met while following reuse, each one the target of the last. */
  ghost predicate Trail(d: Definition, trail: seq<Action>) {
    && trail != []
    && forall i :: 0 <= i < |trail| - 1 ==>
         trail[i].reuse.fn != "" && Target(d, trail[i].reuse) == Some(trail[i + 1])
  }

  lemma {:induction false} TrailReaches(d: Definition, trail: seq<Action>, from: nat, n: nat)
    requires Trail(d, trail) && from < |trail|
    requires Reaches(d, trail[from], n)
    ensures n >= |trail| - 1 - from && Reaches(d, trail[|trail| - 1], n - (|trail| - 1 - from))
    decreases |trail| - from
  {
    if from < |trail| - 1 {
      TrailReaches(d, trail, from + 1, n - 1);
    }
  }

  lemma {:induction false} TrailExtends(d: Definition, trail: seq<Action>, from: nat, n: nat, selector: string)
    requires Trail(d, trail) && from < |trail|
    requires forall i :: 0 <= i < |trail| - 1 ==> Selector(trail[i].reuse) != selector
    requires Reaches(d, trail[|trail| - 1], n) && Avoids(d, trail[|trail| - 1], n, selector)
    ensures Reaches(d, trail[from], n + |trail| - 1 - from)
    ensures Avoids(d, trail[from], n + |trail| - 1 - from, selector)
    decreases |trail| - from
  {
    if from < |trail| - 1 {
      TrailExtends(d, trail, from + 1, n, selector);
    }
  }

  lemma {:induction false} TrailHitsOrigin(d: Definition, trail: seq<Action>, from: nat, n: nat)
    requires Trail(d, trail) && from < |trail|
    requires Reaches(d, trail[from], n) && trail[|trail| - 1].reuse.fn != ""
    ensures !Avoids(d, trail[from], n, Selector(trail[|trail| - 1].reuse))
    decreases |trail| - from
  {
    TrailReaches(d, trail, from, n);
    if from < |trail| - 1 {
      TrailHitsOrigin(d, trail, from + 1, n - 1);
    }
  }

  /** A repeated reference means the chain never ends. */
  lemma {:induction false} LoopNeverReaches(d: Definition, trail: seq<Action>, i: nat, n: nat)
    requires Trail(d, trail) && i < |trail| - 1
    requires trail[i].reuse == trail[|trail| - 1].reuse
    ensures !Reaches(d, trail[i], n)
    decreases n
  {
    if Reaches(d, trail[i], n) {
      TrailReaches(d, trail, i, n);
      LoopNeverReaches(d, trail, i, n - (|trail| - 1 - i));
    }
  }

  /** A chain that got this far without ending can no longer end within n hops. */
  lemma StillRunning(d: Definition, trail: seq<Action>, n: nat)
    requires Trail(d, trail) && trail[|trail| - 1].reuse.fn != ""
    requires n < |trail| || Target(d, trail[|trail| - 1].reuse).None?
    ensures !Reaches(d, trail[0], n)
  {
    if Reaches(d, trail[0], n) {
      TrailReaches(d, trail, 0, n);
    }
  }

  lemma LoopThroughTrail(d: Definition, trail: seq<Action>, i: nat, n: nat)
    requires Trail(d, trail) && i < |trail| - 1
    requires Selector(trail[i].reuse) == Selector(trail[|trail| - 1].reuse)
    ensures !Reaches(d, trail[0], n)
  {
    if Reaches(d, trail[0], n) {
      SelectorInjective(trail[i].reuse, trail[|trail| - 1].reuse);
      TrailReaches(d, trail[..i + 1], 0, n);
      LoopNeverReaches(d, trail, i, n - i);
    }
  }

  function SelectorsOf(trail: seq<Action>): seq<string> {
    seq(|trail|, i requires 0 <= i < |trail| => Selector(trail[i].reuse))
  }

  function Firsts(xs: seq<string>, n: nat): set<string>
    requires n <= |xs|
  {
    if n == 0 then {} else Firsts(xs, n - 1) + {xs[n - 1]}
  }

  lemma {:induction false} FirstsAppend(xs: seq<string>, y: string, n: nat)
    requires n <= |xs|
    ensures Firsts(xs + [y], n) == Firsts(xs, n)
  {
    if n > 0 { FirstsAppend(xs, y, n - 1); }
  }

  lemma {:induction false} AmongFirsts(xs: seq<string>, n: nat, x: string) returns (i: nat)
    requires n <= |xs| && x in Firsts(xs, n)
    ensures i < n && xs[i] == x
  {
    if xs[n - 1] == x { i := n - 1; } else { i := AmongFirsts(xs, n - 1, x); }
  }

  lemma SeenGrows(xs: seq<string>, y: string, origin: string, seen: set<string>)
    requires xs != [] && seen == {origin} + Firsts(xs, |xs| - 1)
    ensures {origin} + Firsts(xs + [y], |xs|) == seen + {xs[|xs| - 1]}
  {
    FirstsAppend(xs, y, |xs| - 1);
  }

  lemma SelectorsAppend(trail: seq<Action>, target: Action)
    ensures SelectorsOf(trail + [target]) == SelectorsOf(trail) + [Selector(target.reuse)]
  {
  }

  /** Meeting a selector again means a loop, or a chain through the origin. */
  lemma SelectorRepeated(d: Definition, trail: seq<Action>, origin: string, seen: set<string>, n: nat)
    requires Trail(d, trail) && trail[|trail| - 1].reuse.fn != ""
    requires seen == {origin} + Firsts(SelectorsOf(trail), |trail| - 1)
    requires Selector(trail[|trail| - 1].reuse) in seen
    ensures !(Reaches(d, trail[0], n) && Avoids(d, trail[0], n, origin))
  {
    if Selector(trail[|trail| - 1].reuse) == origin {
      if Reaches(d, trail[0], n) { TrailHitsOrigin(d, trail, 0, n); }
    } else {
      var i := AmongFirsts(SelectorsOf(trail), |trail| - 1, Selector(trail[|trail| - 1].reuse));
      LoopThroughTrail(d, trail, i, n);
    }
  }

  /** trail is the chain from action, none of whose hops went through the origin. */
  ghost predicate Followed(d: Definition, action: Action, origin: string, trail: seq<Action>, seen: set<string>) {
    && Trail(d, trail) && trail[0] == action && trail[|trail| - 1].reuse.fn != ""
    && seen == {origin} + Firsts(SelectorsOf(trail), |trail| - 1)
    && forall i :: 0 <= i < |trail| - 1 ==> Selector(trail[i].reuse) != origin
  }

  lemma FollowedEnds(d: Definition, action: Action, origin: string, trail: seq<Action>, seen: set<string>, target: Action)
    requires Followed(d, action, origin, trail, seen)
    requires Selector(trail[|trail| - 1].reuse) !in seen
    requires Target(d, trail[|trail| - 1].reuse) == Some(target) && target.reuse.fn == ""
    ensures Reaches(d, action, |trail|) && Avoids(d, action, |trail|, origin)
  {
    var longer := trail + [target];
    TrailMore(d, trail, target);
    forall i | 0 <= i < |trail| ensures longer[i] == trail[i] && Selector(longer[i].reuse) != origin {}
    assert Reaches(d, target, 0) && Avoids(d, target, 0, origin);
    TrailExtends(d, longer, 0, 0, origin);
  }

  lemma FollowedExtends(d: Definition, action: Action, origin: string, trail: seq<Action>, seen: set<string>, target: Action)
    requires Followed(d, action, origin, trail, seen)
    requires Selector(trail[|trail| - 1].reuse) !in seen
    requires Target(d, trail[|trail| - 1].reuse) == Some(target) && target.reuse.fn != ""
    ensures Followed(d, action, origin, trail + [target], seen + {Selector(trail[|trail| - 1].reuse)})
  {
    SelectorsAppend(trail, target);
    SeenGrows(SelectorsOf(trail), Selector(target.reuse), origin, seen);
    TrailMore(d, trail, target);
    OriginNotMet(origin, trail, target, seen);
  }

  lemma OriginNotMet(origin: string, trail: seq<Action>, target: Action, seen: set<string>)
    requires trail != [] && origin in seen && Selector(trail[|trail| - 1].reuse) !in seen
    requires forall i :: 0 <= i < |trail| - 1 ==> Selector(trail[i].reuse) != origin
    ensures var longer := trail + [target]; forall i :: 0 <= i < |longer| - 1 ==> Selector(longer[i].reuse) != origin
  {
    var longer := trail + [target];
    forall i | 0 <= i < |trail| ensures Selector(longer[i].reuse) != origin {
      assert longer[i] == trail[i];
    }
  }

  lemma TrailMore(d: Definition, trail: seq<Action>, target: Action)
    requires Trail(d, trail) && trail[|trail| - 1].reuse.fn != "" && Target(d, trail[|trail| - 1].reuse) == Some(target)
    ensures Trail(d, trail + [target])
  {
  }

  lemma FollowedRejects(d: Definition, action: Action, origin: string, trail: seq<Action>, seen: set<string>)
    requires Followed(d, action, origin, trail, seen)
    requires || |trail| > MAX_REUSE_HOPS
             || Selector(trail[|trail| - 1].reuse) in seen
             || Target(d, trail[|trail| - 1].reuse).None?
    ensures !ReferenceOk(d, origin, action)
  {
    forall n: nat | n <= MAX_REUSE_HOPS
      ensures !(Reaches(d, action, n) && Avoids(d, action, n, origin))
    {
      if Selector(trail[|trail| - 1].reuse) in seen {
        SelectorRepeated(d, trail, origin, seen, n);
      } else {
        StillRunning(d, trail, n);
      }
    }
  }

  /** The checking loop accepts exactly the references that end within 32 hops without
      passing through the selector the check started from. */
  method ValidateActionReference(d: Definition, originSelector: string, action: Action) returns (v: Verdict)
    ensures v.Accepted? <==> ReferenceOk(d, originSelector, action)
  {
    if action.reuse.fn == "" {
      assert Reaches(d, action, 0) && Avoids(d, action, 0, originSelector);
      return Accepted;
    }
    var seen, ref, depth := {originSelector}, action.reuse, 0;
    ghost var trail := [action];
    while true
      invariant 0 <= depth <= MAX_REUSE_HOPS && |trail| == depth + 1
      invariant Followed(d, action, originSelector, trail, seen) && ref == trail[depth].reuse
      decreases MAX_REUSE_HOPS - depth
    {
      if depth >= MAX_REUSE_HOPS {
        FollowedRejects(d, action, originSelector, trail, seen);
        return Rejected("excessively deep reuse chain");
      }
      var selector := Selector(ref);
      if selector in seen {
        FollowedRejects(d, action, originSelector, trail, seen);
        return Rejected("cyclic reuse reference");
      }
      var target := Target(d, ref);
      if target.None? {
        FollowedRejects(d, action, originSelector, trail, seen);
        return Rejected("reused action does not exist");
      }
      if target.value.reuse.fn == "" {
        FollowedEnds(d, action, originSelector, trail, seen, target.value);
        return Accepted;
      }
      FollowedExtends(d, action, originSelector, trail, seen, target.value);
      seen := seen + {selector};
      trail := trail + [target.value];
      ref := target.value.reuse;
      depth := depth + 1;
    }
    assert false;
  }

  method ValidateActionReferences(d: Definition) returns (v: Verdict)
    ensures v.Accepted? <==> ReferencesOk(d)
  {
    for i := 0 to |d.unsorted|
      invariant forall k, j :: 0 <= k < i && 0 <= j < |d.unsorted[k].actions| ==>
                  ReferenceOk(d, FnOrigin(d.unsorted[k], d.unsorted[k].actions[j]), d.unsorted[k].actions[j])
    {
      var fn := d.unsorted[i];
      for j := 0 to |fn.actions|
        invariant forall k :: 0 <= k < j ==> ReferenceOk(d, FnOrigin(fn, fn.actions[k]), fn.actions[k])
      {
        v := ValidateActionReference(d, FnOrigin(fn, fn.actions[j]), fn.actions[j]);
        if v.Rejected? { return v; }
      }
    }
    for i := 0 to |d.queues|
      invariant forall k :: 0 <= k < i ==> ReferenceOk(d, QueueOrigin(d.queues[k]), d.queues[k].end)
    {
      v := ValidateActionReference(d, QueueOrigin(d.queues[i]), d.queues[i].end);
      if v.Rejected? { return v; }
    }
    return Accepted;
  }

  /** One connection, a menu whose key 7 hangs up, and a queue that ends with that key. */
  function QueueNamedSeven(): Definition {
    var menu := Fn("queue", [Action(7, ActionReference("", 0), Some("hangup"))]);
    Definition(10, "", [Endpoint("a", "udp", 5060, "queue")], [menu], map["queue" := menu],
               [Queue("7", Action(0, ActionReference("queue", 7), None))])
  }

  lemma QueueEndReaches()
    ensures var d := QueueNamedSeven(); Reaches(d, d.queues[0].end, 1)
    ensures var d := QueueNamedSeven(); !ReferenceOk(d, QueueOrigin(d.queues[0]), d.queues[0].end)
  {
    var d := QueueNamedSeven();
    var key, end := d.unsorted[0].actions[0], d.queues[0].end;
    assert LastMatch([key], 7) == Some(key);
    assert Target(d, end.reuse) == Some(key);
    assert Digits(7) == "7";
    assert Selector(end.reuse) == "queue/7" == QueueOrigin(d.queues[0]);
    assert Reaches(d, key, 0);
  }

  /** The check of a queue end starts from the text queue/<name>, which can also be the
      selector of a menu action. A definition that is sound but for that is refused, although
      the chain of its queue end ends after one hop. */
  lemma QueueNamedLikeAKeyIsRejected()
    ensures var d := QueueNamedSeven();
            && d.connections != [] && ConnectionsOk(d.functions, d.connections) && Prepared(d.unsorted, d.functions)
            && Reaches(d, d.queues[0].end, 1) && !ValidDefinition(d)
    ensures ValidDefinition(QueueNamedSeven().(queues := []))
  {
    var d := QueueNamedSeven();
    EndpointOk(d.functions, "a", "udp", 5060, "queue");
    QueueEndReaches();
    assert d.unsorted[0] == d.functions["queue"];
    var e := d.(queues := []);
    forall i, j | 0 <= i < |e.unsorted| && 0 <= j < |e.unsorted[i].actions|
      ensures ReferenceOk(e, FnOrigin(e.unsorted[i], e.unsorted[i].actions[j]), e.unsorted[i].actions[j])
    {
      assert Reaches(e, e.unsorted[i].actions[j], 0) && Avoids(e, e.unsorted[i].actions[j], 0, FnOrigin(e.unsorted[i], e.unsorted[i].actions[j]));
    }
  }

  // -------------------------------------------------------- preparation

  /** Every unnumbered action has got its position. */
  predicate Numbered(actions: seq<Action>, r: seq<Action>) {
    && |r| == |actions|
    && forall i :: 0 <= i < |r| ==> r[i] == (if actions[i].num == 0 then actions[i].(num := i + 1) else actions[i])
  }

  method IndexActions(actions: seq<Action>) returns (r: seq<Action>)
    ensures Numbered(actions, r)
  {
    r := actions;
    for i := 0 to |actions|
      invariant |r| == |actions| && r[i..] == actions[i..]
      invariant forall k :: 0 <= k < i ==>
                  r[k] == (if actions[k].num == 0 then actions[k].(num := k + 1) else actions[k])
    {
      assert r[i] == r[i..][0] == actions[i];
      if actions[i].num == 0 {
        r := r[i := actions[i].(num := i + 1)];
      }
      assert r[i + 1..] == actions[i + 1..];
    }
  }

  /** The state Prepare leaves behind: numbered actions, and each name mapped to the last
      function carrying it. */
  ghost predicate Prepared(unsorted: seq<Fn>, functions: map<string, Fn>) {
    && (forall i, a :: 0 <= i < |unsorted| && a in unsorted[i].actions ==> a.num != 0)
    && (forall i :: 0 <= i < |unsorted| ==> unsorted[i].name in functions)
    && (forall name :: name in functions ==>
          exists i :: 0 <= i < |unsorted| && unsorted[i] == functions[name] && unsorted[i].name == name
                      && forall k :: i < k < |unsorted| ==> unsorted[k].name != name)
  }

  method Prepare(fns: seq<Fn>) returns (unsorted: seq<Fn>, functions: map<string, Fn>)
    ensures |unsorted| == |fns|
    ensures forall i :: 0 <= i < |fns| ==> unsorted[i].name == fns[i].name && Numbered(fns[i].actions, unsorted[i].actions)
    ensures Prepared(unsorted, functions)
  {
    unsorted := [];
    for i := 0 to |fns|
      invariant |unsorted| == i
      invariant forall k :: 0 <= k < i ==> unsorted[k].name == fns[k].name && Numbered(fns[k].actions, unsorted[k].actions)
      invariant forall k, a :: 0 <= k < i && a in unsorted[k].actions ==> a.num != 0
    {
      var actions := IndexActions(fns[i].actions);
      unsorted := unsorted + [Fn(fns[i].name, actions)];
    }
    functions := map[];
    for i := 0 to |unsorted|
      invariant forall k :: 0 <= k < i ==> unsorted[k].name in functions
      invariant forall name :: name in functions ==>
                  exists k :: 0 <= k < i && unsorted[k] == functions[name] && unsorted[k].name == name
                              && forall m :: k < m < i ==> unsorted[m].name != name
    {
      functions := functions[unsorted[i].name := unsorted[i]];
    }
  }

  // ------------------------------------------------------------- runtime

  /** core/controller/session.go handleActionDepth: what following an action ends in. */
  datatype Outcome = Performed(kind: string) | UntypedAction | TooDeep | MissingTarget

  function HandleActionDepth(d: Definition, a: Action, depth: nat): Outcome
    decreases if depth < MAX_REUSE_HOPS then MAX_REUSE_HOPS - depth else 0
  {
    if a.reuse.fn != "" then
      if depth >= MAX_REUSE_HOPS then TooDeep
      else match Target(d, a.reuse)
        case None => MissingTarget
        case Some(target) => HandleActionDepth(d, target, depth + 1)
    else match a.plain
      case None => UntypedAction
      case Some(kind) => Performed(kind)
  }

  ghost predicate EndsWithin(d: Definition, a: Action, hops: int) {
    exists n: nat :: n <= hops && Reaches(d, a, n)
  }

  predicate Ran(o: Outcome) { o.Performed? || o.UntypedAction? }

  /** Running an action fails on depth or lookup exactly when its chain does not end in time. */
  lemma {:induction false} RuntimeFollowsChain(d: Definition, a: Action, depth: nat)
    requires depth <= MAX_REUSE_HOPS
    ensures EndsWithin(d, a, MAX_REUSE_HOPS - depth) <==> Ran(HandleActionDepth(d, a, depth))
    decreases MAX_REUSE_HOPS - depth
  {
    if a.reuse.fn == "" {
      assert Reaches(d, a, 0);
    } else if depth < MAX_REUSE_HOPS && Target(d, a.reuse).Some? {
      var t := Target(d, a.reuse).value;
      RuntimeFollowsChain(d, t, depth + 1);
      assert HandleActionDepth(d, a, depth) == HandleActionDepth(d, t, depth + 1);
      if EndsWithin(d, t, MAX_REUSE_HOPS - (depth + 1)) {
        var n: nat :| n <= MAX_REUSE_HOPS - (depth + 1) && Reaches(d, t, n);
        assert Reaches(d, a, n + 1);
      }
      if EndsWithin(d, a, MAX_REUSE_HOPS - depth) {
        var n: nat :| n <= MAX_REUSE_HOPS - depth && Reaches(d, a, n);
        assert Reaches(d, t, n - 1);
      }
    }
  }

  lemma CheckedActionRuns(d: Definition, origin: string, a: Action)
    requires ReferenceOk(d, origin, a)
    ensures Ran(HandleActionDepth(d, a, 0))
  {
    assert EndsWithin(d, a, MAX_REUSE_HOPS - 0);
    RuntimeFollowsChain(d, a, 0);
  }

  lemma ReferencedActionRuns(d: Definition, name: string, key: int)
    requires ReferencesOk(d) && Prepared(d.unsorted, d.functions)
    requires name in d.functions && LastMatch(d.functions[name].actions, key).Some?
    ensures Ran(HandleActionDepth(d, LastMatch(d.functions[name].actions, key).value, 0))
  {
    var a := LastMatch(d.functions[name].actions, key).value;
    LastMatchMember(d.functions[name].actions, key);
    var i :| 0 <= i < |d.unsorted| && d.unsorted[i] == d.functions[name];
    var j :| 0 <= j < |d.unsorted[i].actions| && d.unsorted[i].actions[j] == a;
    CheckedActionRuns(d, FnOrigin(d.unsorted[i], d.unsorted[i].actions[j]), d.unsorted[i].actions[j]);
  }

  /** Validate justifies what the session assumes: any key pressed in any menu, and any
      queue end, runs without a depth or lookup error. */
  lemma ValidatedActionsRun(d: Definition)
    requires ValidDefinition(d) && Prepared(d.unsorted, d.functions)
    ensures forall name, key: int :: name in d.functions && LastMatch(d.functions[name].actions, key).Some? ==>
              Ran(HandleActionDepth(d, LastMatch(d.functions[name].actions, key).value, 0))
    ensures forall i :: 0 <= i < |d.queues| ==> Ran(HandleActionDepth(d, d.queues[i].end, 0))
  {
    forall name, key: int | name in d.functions && LastMatch(d.functions[name].actions, key).Some?
      ensures Ran(HandleActionDepth(d, LastMatch(d.functions[name].actions, key).value, 0))
    {
      ReferencedActionRuns(d, name, key);
    }
    forall i | 0 <= i < |d.queues| ensures Ran(HandleActionDepth(d, d.queues[i].end, 0)) {
      CheckedActionRuns(d, QueueOrigin(d.queues[i]), d.queues[i].end);
    }
  }
}
