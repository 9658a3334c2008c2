// core/functions/sip_config.go: what Validate accepts and what routing answers, in terms of
// the characters of a definition and of paths along its reuse references.
module SipMeaning {
  import opened Text
  import opened SipConfig

  // ------------------------------------------------ texts and numbers

  /** The letters of s are those of t, large or small. */
  predicate SameLetters(s: string, t: string) {
    |s| == |t| && forall i :: 0 <= i < |s| ==> s[i] == t[i] || (65 <= s[i] as int <= 90 && s[i] as int + 32 == t[i] as int)
  }

  predicate Small(t: string) { forall i :: 0 <= i < |t| ==> 97 <= t[i] as int <= 122 }

  lemma LowerIs(s: string, t: string)
    requires Small(t)
    ensures ToLower(s) == t <==> SameLetters(s, t)
  {
    LowerLength(s);
    forall i | 0 <= i < |s| && i < |t| ensures ToLower(s)[i] == t[i] <==> s[i] == t[i] || (65 <= s[i] as int <= 90 && s[i] as int + 32 == t[i] as int) {
      LowerAt(s, i);
      assert 97 <= t[i] as int <= 122;
    }
  }

  /** Spaces around a number and one plus sign before it do not count. */
  lemma NumberMeaning(u: string, number: string, v: string)
    requires AllSpace(u) && AllSpace(v) && (number != [] ==> !IsSpace(number[|number| - 1]))
    ensures NormalizeCalledNumber(u + "+" + number + v) == number
    ensures (number != [] ==> !IsSpace(number[0]) && number[0] != '+') ==> NormalizeCalledNumber(u + number + v) == number
  {
    var plus := "+" + number;
    assert u + "+" + number + v == u + plus + v;
    TrimMeaning(u, plus, v);
    assert plus[1..] == number;
    if number != [] ==> !IsSpace(number[0]) && number[0] != '+' { TrimMeaning(u, number, v); }
  }

  // ---------------------------------------------------- connections

  /** The pattern of ids: 1 to 128 letters, digits, underscores and hyphens. */
  predicate IsId(s: string) {
    1 <= |s| <= 128 && forall i :: 0 <= i < |s| ==>
      var c := s[i] as int; 48 <= c <= 57 || 65 <= c <= 90 || 97 <= c <= 122 || c == 95 || c == 45
  }

  /** The transport a connection names, or udp. */
  predicate Carries(c: Connection, t: string) { (c.transport == "" && t == "udp") || SameLetters(c.transport, t) }

  predicate CanRegister(c: Connection) {
    c.registration == "registered" && !AllSpace(c.server) && !AllSpace(c.extension)
  }

  predicate CanBeCalled(c: Connection) {
    c.registration == "inbound" && c.localPort > 0 && c.allowedCidrs != [] && !AllSpace(c.username)
  }

  predicate GoodRoute(functions: map<string, Fn>, r: Route) {
    IsId(r.id) && r.entrypoint in functions
    && if r.catchAll then AllSpace(r.number) else NormalizeCalledNumber(r.number) != ""
  }

  ghost predicate GoodTarget(functions: map<string, Fn>, c: Connection) {
    if c.kind == "endpoint" then c.entrypoint in functions && c.routes == []
    else
      && c.kind == "trunk" && c.entrypoint == "" && c.routes != []
      && (forall j :: 0 <= j < |c.routes| ==> GoodRoute(functions, c.routes[j]))
      && (forall j, k :: 0 <= j < k < |c.routes| ==> c.routes[j].id != c.routes[k].id)
      && (forall j, k :: 0 <= j < k < |c.routes| && c.routes[j].catchAll ==> !c.routes[k].catchAll)
      && forall j, k :: 0 <= j < k < |c.routes| && !c.routes[j].catchAll && !c.routes[k].catchAll ==>
           NormalizeCalledNumber(c.routes[j].number) != NormalizeCalledNumber(c.routes[k].number)
  }

  ghost predicate GoodConnection(functions: map<string, Fn>, c: Connection) {
    && IsId(c.id) && (CanRegister(c) || CanBeCalled(c)) && 0 <= c.localPort < 65536
    && (Carries(c, "udp") || Carries(c, "tcp") || Carries(c, "ws"))
    && (forall i :: 0 <= i < |c.allowedCidrs| ==> c.allowedCidrs[i].parses)
    && GoodTarget(functions, c)
  }

  lemma TransportIs(c: Connection, t: string)
    requires t in {"udp", "tcp", "ws"}
    ensures Small(t)
    ensures ToLower(DefaultTransport(c.transport)) == t <==> Carries(c, t)
  {
    LowerIs("udp", t);
    LowerIs(c.transport, t);
    if c.transport == "" { assert ToLower("udp") == "udp"; }
  }

  lemma ListenerIff(c: Connection)
    ensures ListenerOk(c) <==>
              && (CanRegister(c) || CanBeCalled(c)) && 0 <= c.localPort < 65536
              && (Carries(c, "udp") || Carries(c, "tcp") || Carries(c, "ws"))
              && forall i :: 0 <= i < |c.allowedCidrs| ==> c.allowedCidrs[i].parses
  {
    TransportIs(c, "udp");
    TransportIs(c, "tcp");
    TransportIs(c, "ws");
    BlankTrims(c.server);
    BlankTrims(c.extension);
    BlankTrims(c.username);
  }

  lemma RouteIff(functions: map<string, Fn>, r: Route)
    ensures RouteOk(functions, r) <==> GoodRoute(functions, r)
  {
    BlankTrims(r.number);
  }

  lemma TargetIff(functions: map<string, Fn>, c: Connection)
    ensures TargetsOk(functions, c.kind, c.entrypoint, c.routes) <==> GoodTarget(functions, c)
  {
    forall r ensures RouteOk(functions, r) <==> GoodRoute(functions, r) { RouteIff(functions, r); }
    if GoodTarget(functions, c) && c.kind != "endpoint" {
      forall j, k | 0 <= j < k < |c.routes| ensures !RoutesClash(c.routes[j], c.routes[k]) {}
    }
    if TargetsOk(functions, c.kind, c.entrypoint, c.routes) && c.kind != "endpoint" {
      forall j, k | 0 <= j < k < |c.routes|
        ensures c.routes[j].id != c.routes[k].id && (c.routes[j].catchAll ==> !c.routes[k].catchAll)
        ensures !c.routes[j].catchAll && !c.routes[k].catchAll ==>
                  NormalizeCalledNumber(c.routes[j].number) != NormalizeCalledNumber(c.routes[k].number)
      {
        assert !RoutesClash(c.routes[j], c.routes[k]);
      }
    }
  }

  lemma ConnectionIff(functions: map<string, Fn>, c: Connection)
    ensures ConnectionOk(functions, c) <==> GoodConnection(functions, c)
  {
    ListenerIff(c);
    TargetIff(functions, c);
  }

  /** Two connections ask for one socket by name. */
  predicate AskForOneSocket(a: Connection, b: Connection) {
    && a.localPort == b.localPort != 0
    && ((Carries(a, "udp") && Carries(b, "udp")) || (Carries(a, "tcp") && Carries(b, "tcp")) || (Carries(a, "ws") && Carries(b, "ws")))
  }

  lemma ClashIff(functions: map<string, Fn>, a: Connection, b: Connection)
    requires ConnectionOk(functions, a) && ConnectionOk(functions, b)
    ensures ClaimsClash(a, b) <==> AskForOneSocket(a, b)
  {
    TransportIs(a, "udp");
    TransportIs(a, "tcp");
    TransportIs(a, "ws");
    TransportIs(b, "udp");
    TransportIs(b, "tcp");
    TransportIs(b, "ws");
  }

  ghost predicate GoodConnections(d: Definition) {
    && d.connections != []
    && (forall i :: 0 <= i < |d.connections| ==> GoodConnection(d.functions, d.connections[i]))
    && (forall i, j :: 0 <= i < j < |d.connections| ==> d.connections[i].id != d.connections[j].id)
    && forall i, j :: 0 <= i < j < |d.connections| ==> !AskForOneSocket(d.connections[i], d.connections[j])
  }

  lemma ConnectionsIff(d: Definition)
    ensures d.connections != [] && ConnectionsOk(d.functions, d.connections) <==> GoodConnections(d)
  {
    forall c ensures ConnectionOk(d.functions, c) <==> GoodConnection(d.functions, c) { ConnectionIff(d.functions, c); }
    if forall i :: 0 <= i < |d.connections| ==> ConnectionOk(d.functions, d.connections[i]) {
      forall i, j | 0 <= i < j < |d.connections|
        ensures ClaimsClash(d.connections[i], d.connections[j]) <==> AskForOneSocket(d.connections[i], d.connections[j])
      {
        ClashIff(d.functions, d.connections[i], d.connections[j]);
      }
    }
  }

  // ---------------------------------------------------------- reuse

  /** b is the last action of the menu with the number. */
  ghost predicate KeyLeadsTo(d: Definition, ref: ActionReference, b: Action) {
    && ref.fn in d.functions
    && var actions := d.functions[ref.fn].actions;
       exists k :: 0 <= k < |actions| && actions[k] == b && b.num == ref.key
                   && forall m :: k < m < |actions| ==> actions[m].num != ref.key
  }

  lemma {:induction false} LastMatchAt(actions: seq<Action>, num: int, b: Action)
    ensures LastMatch(actions, num) == Some(b) <==>
              exists k :: 0 <= k < |actions| && actions[k] == b && b.num == num && forall m :: k < m < |actions| ==> actions[m].num != num
  {
    if actions != [] {
      var n := |actions| - 1;
      var front := actions[..n];
      if actions[n].num == num {
        if actions[n] == b { assert actions[n] == b && b.num == num; }
      } else {
        LastMatchAt(front, num, b);
        if k :| 0 <= k < n && front[k] == b && b.num == num && forall m :: k < m < n ==> front[m].num != num {
          assert actions[k] == b;
          forall m | k < m < |actions| ensures actions[m].num != num { if m < n { assert actions[m] == front[m]; } }
        }
        if k :| 0 <= k < |actions| && actions[k] == b && b.num == num && forall m :: k < m < |actions| ==> actions[m].num != num {
          assert front[k] == b && forall m :: k < m < n ==> front[m] == actions[m];
        }
      }
    }
  }

  lemma TargetIs(d: Definition, ref: ActionReference, b: Action)
    ensures Target(d, ref) == Some(b) <==> KeyLeadsTo(d, ref, b)
  {
    if ref.fn in d.functions { LastMatchAt(d.functions[ref.fn].actions, ref.key, b); }
  }

  /** The actions met from the first on, each led to by the reuse of the one before, up to one
      that reuses nothing. */
  ghost predicate Chain(d: Definition, path: seq<Action>) {
    && path != [] && path[|path| - 1].reuse.fn == ""
    && forall i :: 0 <= i < |path| - 1 ==> path[i].reuse.fn != "" && KeyLeadsTo(d, path[i].reuse, path[i + 1])
  }

  /** No hop of the path is the text that the check starts from. */
  ghost predicate NeverNames(path: seq<Action>, origin: string) {
    forall i :: 0 <= i < |path| - 1 ==> path[i].reuse.fn + "/" + Itoa(path[i].reuse.key) != origin
  }

  ghost predicate EndsInTime(d: Definition, a: Action, origin: string) {
    exists path :: Chain(d, path) && path[0] == a && |path| <= 33 && NeverNames(path, origin)
  }

  lemma {:induction false} ChainReaches(d: Definition, path: seq<Action>, origin: string)
    requires Chain(d, path)
    ensures Reaches(d, path[0], |path| - 1)
    ensures NeverNames(path, origin) ==> Avoids(d, path[0], |path| - 1, origin)
  {
    if |path| > 1 {
      var rest := path[1..];
      TargetIs(d, path[0].reuse, path[1]);
      forall i | 0 <= i < |rest| ensures rest[i] == path[i + 1] {}
      ChainReaches(d, rest, origin);
      if NeverNames(path, origin) {
        assert NeverNames(rest, origin);
        assert path[0].reuse.fn + "/" + Itoa(path[0].reuse.key) != origin;
      }
    }
  }

  lemma {:induction false} ReachedByChain(d: Definition, a: Action, n: nat) returns (path: seq<Action>)
    requires Reaches(d, a, n)
    ensures Chain(d, path) && path[0] == a && |path| == n + 1
    ensures forall origin :: Avoids(d, a, n, origin) ==> NeverNames(path, origin)
    decreases n
  {
    if n == 0 {
      path := [a];
    } else {
      var b := Target(d, a.reuse).value;
      TargetIs(d, a.reuse, b);
      var rest := ReachedByChain(d, b, n - 1);
      path := [a] + rest;
      forall origin | Avoids(d, a, n, origin) ensures NeverNames(path, origin) {
        assert Avoids(d, b, n - 1, origin) && NeverNames(rest, origin);
        forall i | 0 <= i < |path| - 1 ensures path[i].reuse.fn + "/" + Itoa(path[i].reuse.key) != origin {
          if i > 0 { assert path[i] == rest[i - 1]; }
        }
      }
      forall i | 0 <= i < |path| - 1 ensures path[i].reuse.fn != "" && KeyLeadsTo(d, path[i].reuse, path[i + 1]) {
        if i > 0 { assert path[i] == rest[i - 1]; }
      }
    }
  }

  lemma ReferenceIff(d: Definition, origin: string, a: Action)
    ensures ReferenceOk(d, origin, a) <==> EndsInTime(d, a, origin)
  {
    if ReferenceOk(d, origin, a) {
      var n: nat :| n <= MAX_REUSE_HOPS && Reaches(d, a, n) && Avoids(d, a, n, origin);
      var path := ReachedByChain(d, a, n);
      assert NeverNames(path, origin);
    }
    if EndsInTime(d, a, origin) {
      var path :| Chain(d, path) && path[0] == a && |path| <= 33 && NeverNames(path, origin);
      ChainReaches(d, path, origin);
    }
  }

  ghost predicate GoodReferences(d: Definition) {
    && (forall i, j :: 0 <= i < |d.unsorted| && 0 <= j < |d.unsorted[i].actions| ==>
          EndsInTime(d, d.unsorted[i].actions[j], d.unsorted[i].name + "/" + Itoa(d.unsorted[i].actions[j].num)))
    && forall i :: 0 <= i < |d.queues| ==> EndsInTime(d, d.queues[i].end, "queue/" + d.queues[i].name)
  }

  /** In a menu without numbers the k-th action answers key k, and no other key does anything. */
  lemma UnnumberedMenu(actions: seq<Action>, prepared: seq<Action>, key: int)
    requires Numbered(actions, prepared) && forall i :: 0 <= i < |actions| ==> actions[i].num == 0
    ensures LastMatch(prepared, key) == if 1 <= key <= |actions| then Some(actions[key - 1].(num := key)) else None
  {
    forall i | 0 <= i < |prepared| ensures prepared[i] == actions[i].(num := i + 1) {}
    if 1 <= key <= |actions| {
      LastMatchAt(prepared, key, prepared[key - 1]);
    } else {
      LastMatchMember(prepared, key);
    }
  }

  /** What Validate accepts: connections that can work, no id and no socket twice, and reuse
      chains of at most 32 hops that do not name the place they start from. */
  lemma AcceptedIff(d: Definition)
    ensures ValidDefinition(d) <==> GoodConnections(d) && GoodReferences(d)
  {
    ConnectionsIff(d);
    forall a, origin ensures ReferenceOk(d, origin, a) <==> EndsInTime(d, a, origin) { ReferenceIff(d, origin, a); }
  }

  /** At run time an action ends in what it configures exactly if such a chain leads there. */
  lemma RunsIff(d: Definition, a: Action, kind: string)
    ensures HandleActionDepth(d, a, 0) == Performed(kind) <==>
              exists path: seq<Action> :: Chain(d, path) && path[0] == a && |path| <= 33 && path[|path| - 1].plain == Some(kind)
  {
    if HandleActionDepth(d, a, 0) == Performed(kind) {
      var path := RunPath(d, a, 0, kind);
    }
    if path: seq<Action> :| Chain(d, path) && path[0] == a && |path| <= 33 && path[|path| - 1].plain == Some(kind) {
      PathRuns(d, path, 0, kind);
    }
  }

  lemma {:induction false} RunPath(d: Definition, a: Action, depth: nat, kind: string) returns (path: seq<Action>)
    requires depth <= 32 && HandleActionDepth(d, a, depth) == Performed(kind)
    ensures Chain(d, path) && path[0] == a && |path| <= 33 - depth && path[|path| - 1].plain == Some(kind)
    decreases 32 - depth
  {
    if a.reuse.fn == "" {
      path := [a];
    } else {
      var b := Target(d, a.reuse).value;
      TargetIs(d, a.reuse, b);
      var rest := RunPath(d, b, depth + 1, kind);
      path := [a] + rest;
      forall i | 0 <= i < |path| - 1 ensures path[i].reuse.fn != "" && KeyLeadsTo(d, path[i].reuse, path[i + 1]) {
        if i > 0 { assert path[i] == rest[i - 1]; }
      }
    }
  }

  lemma {:induction false} PathRuns(d: Definition, path: seq<Action>, depth: nat, kind: string)
    requires Chain(d, path) && |path| + depth <= 33 && path[|path| - 1].plain == Some(kind)
    ensures HandleActionDepth(d, path[0], depth) == Performed(kind)
    decreases |path|
  {
    if |path| > 1 {
      var rest := path[1..];
      TargetIs(d, path[0].reuse, path[1]);
      forall i | 0 <= i < |rest| ensures rest[i] == path[i + 1] {}
      PathRuns(d, rest, depth + 1, kind);
    }
  }

  // --------------------------------------------------------- routing

  /** A called number that differs from a route's only in spaces around it and a plus sign
      before it reaches that route, wherever it stands. */
  lemma CalledWithOrWithoutPlus(functions: map<string, Fn>, c: Connection, r: Route, number: string, u: string, v: string)
    requires GoodConnection(functions, c) && c.kind == "trunk" && r in c.routes && !r.catchAll
    requires NormalizeCalledNumber(r.number) == number && AllSpace(u) && AllSpace(v)
    requires !IsSpace(number[0]) && !IsSpace(number[|number| - 1]) && number[0] != '+'
    ensures Resolve(c.kind, c.entrypoint, c.routes, u + number + v) == Resolution(r.entrypoint, true)
    ensures Resolve(c.kind, c.entrypoint, c.routes, u + "+" + number + v) == Resolution(r.entrypoint, true)
  {
    NumberMeaning(u, number, v);
    ConnectionIff(functions, c);
    ScanMeaning(functions, c.routes, u + number + v, "");
    ScanMeaning(functions, c.routes, u + "+" + number + v, "");
    assert Matches(r, u + number + v) && Matches(r, u + "+" + number + v);
  }

  /** Any other number goes to the catch-all, or nowhere without one. */
  lemma OtherNumbers(functions: map<string, Fn>, c: Connection, called: string)
    requires GoodConnection(functions, c) && c.kind == "trunk"
    requires forall r :: r in c.routes && !r.catchAll ==> NormalizeCalledNumber(r.number) != NormalizeCalledNumber(called)
    ensures forall r :: r in c.routes && r.catchAll ==> Resolve(c.kind, c.entrypoint, c.routes, called) == Resolution(r.entrypoint, r.entrypoint != "")
    ensures (forall r :: r in c.routes ==> !r.catchAll) ==> Resolve(c.kind, c.entrypoint, c.routes, called) == Resolution("", false)
  {
    ConnectionIff(functions, c);
    ScanMeaning(functions, c.routes, called, "");
  }

  /** An endpoint answers every number alike. */
  lemma EndpointAnswers(c: Connection, called: string)
    requires c.kind == "endpoint"
    ensures Resolve(c.kind, c.entrypoint, c.routes, called) == Resolution(c.entrypoint, c.entrypoint != "")
  {
  }
}
