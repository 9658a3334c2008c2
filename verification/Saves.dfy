// core/sip/supervisor.go Apply seen from the calls that come after it: which definition their
// sessions run, and a pair of saves of which the second never takes effect.
module Saves {
  import opened Text
  import opened SipConfig
  import opened SipMeaning
  import opened Ports
  import opened ClientConfigs
  import opened SupervisorModel
  import opened ApplyLoops
  import opened Calls

  lemma {:induction false} WithPasswordRuns(ls: seq<Listener>, d: Definition)
    requires forall i :: 0 <= i < |ls| ==> ls[i].definition == d
    ensures AllRun(WithPassword(ls), d)
  {
    if ls != [] {
      WithPasswordRuns(ls[..|ls| - 1], d);
    }
  }

  lemma PlanForRuns(d: Definition, conns: seq<Connection>, passwords: map<string, string>)
    ensures AllRun(PlanFor(d, conns, passwords).want, d)
  {
    WithPasswordRuns(ListenersFor(d, conns, passwords), d);
  }

  /** All listeners a save asks for run the definition saved. */
  lemma PlannedRuns(d: Definition, passwords: map<string, string>, stored: map<string, int>, next: map<string, int>, plan: Plan)
    requires PlannedBy(d, passwords, stored, next, plan)
    ensures AllRun(plan.want, d)
  {
    var conns :| Allocates(d.connections, stored, conns) && Remembers(d.connections, conns, next)
                 && plan == PlanFor(d, conns, passwords);
    PlanForRuns(d, conns, passwords);
  }

  /** Every session begun after a save runs the definition saved if and only if the calls then
      in setup were accepted under that definition, and so were the listeners started whose
      staged replacement failed. */
  lemma SessionsSeeSaveIff(s: State, d: Definition, passwords: map<string, string>, stored: map<string, int>, next: map<string, int>,
                           plan: Plan, failing: set<string>, run: nat -> State, steps: nat -> Step, inSetup: set<Listener>)
    requires PlannedBy(d, passwords, stored, next, plan)
    requires Next(s, Apply(plan, failing), run(0)) && QuietRun(run, steps)
    ensures (forall l :: MayBring(run, inSetup, l) ==> l.definition == d) <==>
              (forall l :: l in inSetup ==> l.definition == d) && LeftBehindRun(s, plan.want, failing, d)
  {
    PlannedRuns(d, passwords, stored, next, plan);
    SessionsSeeSavedIff(s, plan, failing, run, steps, d, inSetup);
  }

  // ----------------------------------------------- a change on one socket

  /** What a connection registers as and where, its own fields or their defaults. */
  function ExtensionUsed(c: Connection): string { if c.extension == "" then c.id else c.extension }

  function DomainUsed(c: Connection): string {
    if c.domain != "" then c.domain
    else if c.registration == INBOUND then "local"
    else if HostOf(c.server).Some? then HostOf(c.server).value
    else c.server
  }

  predicate SameBinding(a: Connection, b: Connection) {
    && a.externalIP == b.externalIP && a.registration == b.registration && a.server == b.server
    && ExtensionUsed(a) == ExtensionUsed(b) && DomainUsed(a) == DomainUsed(b)
  }

  /** i is what a listener of the connection is bound and registered with. */
  predicate Describes(c: Connection, i: Identity) {
    && i.externalIP == c.externalIP && i.inboundOnly == (c.registration == INBOUND) && i.registration == c.registration
    && i.server == c.server && i.extension == ExtensionUsed(c) && i.domain == DomainUsed(c)
  }

  lemma IdentityIs(d: Definition, c: Connection, password: string)
    ensures Describes(c, ConfigFor(d, c, password).identity)
  {
  }

  /** The rest of what a listener of the connection runs with. */
  predicate Settings(d: Definition, c: Connection, password: string, f: ClientConfig) {
    && f.connectionId == c.id && f.name == c.name && f.kind == c.kind && f.entrypoint == c.entrypoint && f.routes == c.routes
    && f.allowedCidrs == c.allowedCidrs && f.password == password
    && f.username == (if c.username == "" then ExtensionUsed(c) else c.username)
    && f.expirySeconds == (if c.expirySeconds > 0 then c.expirySeconds else 300)
    && f.recordPath == (if d.recordPath != "" then d.recordPath else "files/recording")
    && f.socket.port == c.localPort
  }

  /** A listener runs with the fields of its connection, and the defaults for empty ones. */
  lemma ConfigFields(d: Definition, c: Connection, password: string)
    ensures Settings(d, c, password, ConfigFor(d, c, password)) && Describes(c, ConfigFor(d, c, password).identity)
    ensures AllSpace(c.transport) ==> ConfigFor(d, c, password).socket.transport == "udp"
    ensures SameLetters(c.transport, "udp") ==> ConfigFor(d, c, password).socket.transport == "udp"
    ensures SameLetters(c.transport, "tcp") ==> ConfigFor(d, c, password).socket.transport == "tcp"
    ensures SameLetters(c.transport, "ws") ==> ConfigFor(d, c, password).socket.transport == "ws"
  {
    IdentityIs(d, c, password);
    TransportUsed(c.transport);
  }

  lemma TransportUsed(t: string)
    ensures AllSpace(t) ==> NormTransport(DefaultTransport(t)) == "udp"
    ensures SameLetters(t, "udp") ==> NormTransport(DefaultTransport(t)) == "udp"
    ensures SameLetters(t, "tcp") ==> NormTransport(DefaultTransport(t)) == "tcp"
    ensures SameLetters(t, "ws") ==> NormTransport(DefaultTransport(t)) == "ws"
  {
    if AllSpace(t) { BlankUsed(t); }
    if SameLetters(t, "udp") { LettersUsed(t, "udp"); }
    if SameLetters(t, "tcp") { LettersUsed(t, "tcp"); }
    if SameLetters(t, "ws") { LettersUsed(t, "ws"); }
  }

  lemma BlankUsed(t: string)
    requires AllSpace(t)
    ensures NormTransport(DefaultTransport(t)) == "udp"
  {
    BlankTrims(t);
    if t == "" { LettersUsed("udp", "udp"); }
  }

  lemma LettersUsed(t: string, small: string)
    requires small != "" && Small(small) && SameLetters(t, small)
    ensures NormTransport(DefaultTransport(t)) == small
  {
    TrimNothing(t);
    LowerIs(t, small);
  }

  lemma WantAt(ls: seq<Listener>, j: nat)
    requires DistinctListeners(ls) && j < |ls| && ls[j].config.password != ""
    ensures ls[j].config.connectionId in WithPassword(ls) && WithPassword(ls)[ls[j].config.connectionId] == ls[j]
  {
    WithPasswordMembers(ls);
    assert ls[j] in ls;
  }

  lemma PlannedAt(d: Definition, conns: seq<Connection>, passwords: map<string, string>, j: nat, id: string, password: string)
    requires DistinctListeners(ListenersFor(d, conns, passwords)) && j < |conns| && conns[j].id == id
    requires password == PasswordOf(passwords, id) && password != ""
    ensures var want := PlanFor(d, conns, passwords).want;
            id in want && want[id] == Listener(ConfigFor(d, conns[j], password), d)
  {
    ConfigCarries(d, conns[j], password);
    WantAt(ListenersFor(d, conns, passwords), j);
  }

  lemma PlannedFor(d: Definition, conns: seq<Connection>, passwords: map<string, string>, j: nat, c: Connection)
    requires DistinctListeners(ListenersFor(d, conns, passwords)) && j < |conns| && PasswordOf(passwords, c.id) != ""
    requires conns[j] == c.(localPort := conns[j].localPort)
    ensures var want := PlanFor(d, conns, passwords).want;
            c.id in want && Describes(c, want[c.id].config.identity) && want[c.id].definition == d
  {
    PlannedAt(d, conns, passwords, j, c.id, PasswordOf(passwords, c.id));
    IdentityIs(d, conns[j], PasswordOf(passwords, c.id));
    assert Describes(conns[j], ConfigFor(d, conns[j], PasswordOf(passwords, c.id)).identity);
  }

  /** The listener that a save asks for a connection with a password. */
  lemma PlannedListener(d: Definition, passwords: map<string, string>, stored: map<string, int>, next: map<string, int>,
                        plan: Plan, j: nat)
    requires ConnectionsOk(d.functions, d.connections) && PlannedBy(d, passwords, stored, next, plan)
    requires j < |d.connections| && PasswordOf(passwords, d.connections[j].id) != ""
    ensures var id := d.connections[j].id;
            PlanSound(plan) && id in plan.want && Describes(d.connections[j], plan.want[id].config.identity) && plan.want[id].definition == d
  {
    var conns :| Allocates(d.connections, stored, conns) && Remembers(d.connections, conns, next)
                 && plan == PlanFor(d, conns, passwords);
    PlanForSound(d, stored, conns, passwords);
    ListenersDistinct(d, stored, conns, passwords);
    PlannedFor(d, conns, passwords, j, d.connections[j]);
  }

  lemma SavedOutcome(s: State, plan: Plan, failing: set<string>, id: string, a: Connection, b: Connection)
    requires Inv(s) && PlanSound(plan) && !s.stopped && id in s.live && id in plan.want
    requires Sock(s.live[id]) == Sock(plan.want[id])
    requires Describes(a, s.live[id].config.identity) && Describes(b, plan.want[id].config.identity)
    ensures var t := ApplyTo(s, plan, failing);
            && (id in t.live <==> SameBinding(a, b)) && (id in t.live ==> t.live[id] == plan.want[id])
            && (id !in t.live ==> Sock(s.live[id]) in t.draining && Pending(t, id) == 1)
  {
    SameSocketOutcome(s, plan, failing, id);
  }

  /** A connection that runs is saved again on the same socket: it goes on under the new save
      exactly when it is bound and registered as before. Otherwise it drains, and has one retry
      of its new generation. */
  lemma SavedOverIff(s: State, d0: Definition, c0: Connection, password: string,
                     d: Definition, j: nat, passwords: map<string, string>, stored: map<string, int>, next: map<string, int>,
                     plan: Plan, failing: set<string>)
    requires Inv(s) && !s.stopped && ConnectionsOk(d.functions, d.connections) && PlannedBy(d, passwords, stored, next, plan)
    requires j < |d.connections| && PasswordOf(passwords, d.connections[j].id) != "" && c0.id == d.connections[j].id
    requires c0.id in s.live && s.live[c0.id] == Listener(ConfigFor(d0, c0, password), d0)
    ensures c0.id in plan.want && plan.want[c0.id].definition == d
    ensures Sock(s.live[c0.id]) == Sock(plan.want[c0.id]) ==>
              var t := ApplyTo(s, plan, failing);
              && (c0.id in t.live <==> SameBinding(c0, d.connections[j])) && (c0.id in t.live ==> t.live[c0.id] == plan.want[c0.id])
              && (c0.id !in t.live ==> Sock(s.live[c0.id]) in t.draining && Pending(t, c0.id) == 1)
  {
    PlannedListener(d, passwords, stored, next, plan, j);
    IdentityIs(d0, c0, password);
    if Sock(s.live[c0.id]) == Sock(plan.want[c0.id]) {
      SavedOutcome(s, plan, failing, c0.id, c0, d.connections[j]);
    }
  }

  /** The endpoint of OnPort(5060) with another server. */
  function MovedServer(): Connection { Endpoint("a", "udp", 5060, "main").(server := "new") }

  function NewServer(): Definition { OneConnection(MovedServer(), Fn("main", [])) }

  function NewServerPlan(): Plan { PlanFor(NewServer(), NewServer().connections, PASSWORDS) }

  lemma NewServerValid()
    ensures ValidDefinition(NewServer())
  {
    EndpointOk(map["main" := Fn("main", [])], "a", "udp", 5060, "main");
    TrimNothing("new");
    OneConnectionValid(MovedServer(), Fn("main", []));
  }

  lemma NewServerPlanned()
    ensures ValidDefinition(NewServer()) && PlannedBy(NewServer(), PASSWORDS, map[], map[], NewServerPlan())
    ensures PlanSound(NewServerPlan()) && "a" in NewServerPlan().want
    ensures Describes(MovedServer(), NewServerPlan().want["a"].config.identity)
  {
    var conns := NewServer().connections;
    NewServerValid();
    StaysOnPort(NewServer(), conns);
    assert conns[0].id == "a" && PasswordOf(PASSWORDS, "a") == "secret";
    PlannedListener(NewServer(), PASSWORDS, map[], map[], NewServerPlan(), 0);
  }

  /** One explicit connection is planned on the port it names. */
  lemma StaysOnPort(d: Definition, conns: seq<Connection>)
    requires conns == d.connections && |conns| == 1 && conns[0].localPort > 0
    ensures PlannedBy(d, PASSWORDS, map[], map[], PlanFor(d, conns, PASSWORDS))
  {
    assert Allocates(conns, map[], conns) && Remembers(conns, conns, map[]);
  }

  lemma NewServerSocket()
    requires "a" in NewServerPlan().want
    ensures Sock(NewServerPlan().want["a"]) == Sock(ListenerOn(5060)) == Socket("udp", 5060)
  {
  }

  /** The state after the first save of a definition on port 5060. */
  lemma OnPortRuns(s: State)
    requires s == SavedOnce("a", ListenerOn(5060))
    ensures Inv(s) && !s.stopped && s.live == map["a" := ListenerOn(5060)] && s.draining == {}
  {
    OnPortsDiffer(5060, 5062);
    FirstSave("a", ListenerOn(5060));
    TwoSavesRun("a", ListenerOn(5060), ListenerOn(5062));
    RunsKeepInv([INITIAL, s, SavedAgain("a", ListenerOn(5060), ListenerOn(5062))],
                [Apply(Saving("a", ListenerOn(5060)), {}), Apply(Saving("a", ListenerOn(5062)), {"a"})], 1);
  }

  /** An accepted change of server on the same port: the listener drains and is retried. */
  lemma ServerChangeDrains(s: State, failing: set<string>)
    requires s == SavedOnce("a", ListenerOn(5060))
    ensures ValidDefinition(OnPort(5060)) && ValidDefinition(NewServer())
    ensures PlannedBy(OnPort(5060), PASSWORDS, map[], map[], Saving("a", ListenerOn(5060)))
    ensures PlannedBy(NewServer(), PASSWORDS, map[], map[], NewServerPlan())
    ensures "a" in s.live
    ensures var t := ApplyTo(s, NewServerPlan(), failing);
            "a" !in t.live && Socket("udp", 5060) in t.draining && Pending(t, "a") == 1
  {
    OnPortValid(5060);
    OnPortPlanned(5060);
    NewServerPlanned();
    NewServerSocket();
    OnPortRuns(s);
    IdentityIs(OnPort(5060), Endpoint("a", "udp", 5060, "main"), "secret");
    ServersDiffer();
    SavedOutcome(s, NewServerPlan(), failing, "a", Endpoint("a", "udp", 5060, "main"), MovedServer());
  }

  lemma ServersDiffer()
    ensures !SameBinding(Endpoint("a", "udp", 5060, "main"), MovedServer())
  {
    assert "pbx"[0] != "new"[0];
  }

  // ------------------------------------------------------ a change of port

  const PASSWORDS: map<string, string> := map["a" := "secret"]

  /** One registered endpoint on an explicit port, which sends every call to main. */
  function OnPort(port: int): Definition { OneConnection(Endpoint("a", "udp", port, "main"), Fn("main", [])) }

  function ListenerOn(port: int): Listener {
    Listener(ConfigFor(OnPort(port), Endpoint("a", "udp", port, "main"), "secret"), OnPort(port))
  }

  lemma OnPortValid(port: int)
    requires 0 < port <= 65535
    ensures ValidDefinition(OnPort(port)) && Prepared(OnPort(port).unsorted, OnPort(port).functions)
  {
    EndpointOk(map["main" := Fn("main", [])], "a", "udp", port, "main");
    OneConnectionValid(Endpoint("a", "udp", port, "main"), Fn("main", []));
  }

  lemma OnPortPlan(port: int)
    requires 0 < port <= 65535
    ensures PlanFor(OnPort(port), OnPort(port).connections, PASSWORDS) == Saving("a", ListenerOn(port))
  {
    var d, l := OnPort(port), ListenerOn(port);
    var ls := ListenersFor(d, d.connections, PASSWORDS);
    assert d.connections[0].id == "a" && ls == [l];
    ConfigCarries(d, d.connections[0], "secret");
    assert WithPassword(ls[..0]) == map[];
    assert Ids(d.connections) == {"a"} by { assert d.connections[0].id in Ids(d.connections); }
  }

  /** What Apply makes of it, when nothing is remembered. */
  lemma OnPortPlanned(port: int)
    requires 0 < port <= 65535
    ensures PlannedBy(OnPort(port), PASSWORDS, map[], map[], Saving("a", ListenerOn(port)))
  {
    OnPortPlan(port);
    StaysOnPort(OnPort(port), OnPort(port).connections);
  }

  lemma OnPortsDiffer(p: int, q: int)
    requires 0 < p <= 65535 && 0 < q <= 65535 && p != q
    ensures Alternatives("a", ListenerOn(p), ListenerOn(q)) && OnPort(p) != OnPort(q)
  {
    OnPortValid(p);
    OnPortValid(q);
    ListenerFacts(OnPort(p), OnPort(p).connections[0], OnPort(p).connections[0], "secret");
    ListenerFacts(OnPort(q), OnPort(q).connections[0], OnPort(q).connections[0], "secret");
    assert OnPort(p).connections[0] != OnPort(q).connections[0];
  }

  /** The failed port change: two valid definitions are saved, the second on a free port where
      the listener does not start. From then on every session begun runs the first. */
  lemma PortChangeNeverSeen(run: nat -> State, steps: nat -> Step, n: nat, m: Sessions, id: string, called: string)
    requires QuietRun(run, steps) && run(0) == SavedAgain("a", ListenerOn(5060), ListenerOn(5062))
    requires |m.running| < m.limit && id !in m.running
    ensures ValidDefinition(OnPort(5060)) && ValidDefinition(OnPort(5062)) && OnPort(5060) != OnPort(5062)
    ensures PlannedBy(OnPort(5060), PASSWORDS, map[], map[], Saving("a", ListenerOn(5060)))
    ensures PlannedBy(OnPort(5062), PASSWORDS, map[], map[], Saving("a", ListenerOn(5062)))
    ensures IsRun([INITIAL, SavedOnce("a", ListenerOn(5060)), run(0)],
                  [Apply(Saving("a", ListenerOn(5060)), {}), Apply(Saving("a", ListenerOn(5062)), {"a"})])
    ensures StageFails(SavedOnce("a", ListenerOn(5060)), map["a" := ListenerOn(5062)], {"a"}, "a")
    ensures run(n).live == map["a" := ListenerOn(5060)]
    ensures var l := run(n).live["a"];
            SessionsAfter(m, Create(id, RouteOf(l, called).entrypoint, l.definition)).running
              == m.running[id := Session("main", OnPort(5060))]
  {
    OnPortValid(5060);
    OnPortValid(5062);
    OnPortPlanned(5060);
    OnPortPlanned(5062);
    OnPortsDiffer(5060, 5062);
    FailedStageNeverCatchesUp("a", ListenerOn(5060), ListenerOn(5062), run, steps, n);
    SessionOn(5060, m, id, called);
  }

  lemma SessionOn(port: int, m: Sessions, id: string, called: string)
    requires |m.running| < m.limit && id !in m.running
    ensures var l := ListenerOn(port);
            SessionsAfter(m, Create(id, RouteOf(l, called).entrypoint, l.definition)).running
              == m.running[id := Session("main", OnPort(port))]
  {
  }
}
