// The main loop of core/sip/supervisor.go Apply as a function of the values it updates: after
// any number of turns, in any order of ids, it is where the order-free outcome says. Also how
// the loops of Apply add up to that outcome.
module ApplyLoops {
  import opened Text
  import opened SipConfig
  import opened Ports
  import opened ClientConfigs
  import opened SupervisorModel
  import opened DrainLoops

  // ------------------------------------------- Apply, half way through

  function SocketsOf(m: map<string, Listener>): set<Socket> { set id | id in m :: m[id].config.socket }

  /** Apply has put the wanted listener in place for this connection. */
  predicate Placed(s: State, want: map<string, Listener>, failing: set<string>, done: set<string>, id: string) {
    id in done && id in want && !Retried(s, want, failing, id) && !StageFails(s, want, failing, id)
  }

  /** The listeners running when Apply has dealt with the ids in done. */
  function Midway(s: State, want: map<string, Listener>, failing: set<string>, done: set<string>): map<string, Listener> {
    map id | id in s.live.Keys + want.Keys && (id in s.live || Placed(s, want, failing, done, id))
      :: if Placed(s, want, failing, done, id) then want[id] else s.live[id]
  }

  function StagedSockets(s: State, want: map<string, Listener>, failing: set<string>, done: set<string>): set<Socket> {
    set id | id in s.live && id in done && id in want && FateOf(s, id, want[id]).Stage? && id !in failing
      :: Sock(s.live[id])
  }

  function DeferredIds(s: State, want: map<string, Listener>, done: set<string>): set<string> {
    set id | id in done && id in want && FateOf(s, id, want[id]).Defer?
  }

  function FailedStarts(s: State, want: map<string, Listener>, failing: set<string>, done: set<string>): set<string> {
    set id | id in done && id in want && FateOf(s, id, want[id]).Start? && id in failing
  }

  function RetriesOf(s: State, ids: set<string>): set<Retry> { set id | id in ids :: Retry(id, Gen(s, id) + 1) }

  ghost predicate DistinctWants(want: map<string, Listener>) {
    forall a, b :: a in want && b in want && a != b ==> Sock(want[a]) != Sock(want[b])
  }

  /** Midway, a wanted socket is held exactly when it was held at the start: the
      connections visited before only moved to sockets that nobody else wants. */
  lemma HeldMidway(s: State, want: map<string, Listener>, failing: set<string>, done: set<string>, id: string)
    requires DistinctWants(want) && id in want && id !in done
    ensures Sock(want[id]) in Held(s) <==>
              Sock(want[id]) in SocketsOf(Midway(s, want, failing, done)) + (s.draining + StagedSockets(s, want, failing, done))
    ensures id in s.live ==> id in Midway(s, want, failing, done) && Midway(s, want, failing, done)[id] == s.live[id]
    ensures id !in s.live ==> id !in Midway(s, want, failing, done)
  {
    var mid, k := Midway(s, want, failing, done), Sock(want[id]);
    if k in LiveSockets(s) {
      var a :| a in s.live && Sock(s.live[a]) == k;
      if Sock(mid[a]) != k {
        assert FateOf(s, a, want[a]).Stage?;
        assert k in StagedSockets(s, want, failing, done);
      } else {
        assert k in SocketsOf(mid);
      }
    }
    if k in SocketsOf(mid) {
      var a :| a in mid && Sock(mid[a]) == k;
      assert mid[a] == s.live[a];
      assert k in LiveSockets(s);
    }
    if k in StagedSockets(s, want, failing, done) {
      assert k in LiveSockets(s);
    }
  }

  lemma MidwayStep(s: State, want: map<string, Listener>, failing: set<string>, done: set<string>, id: string)
    requires id !in done
    ensures Midway(s, want, failing, done + {id}) ==
              if Placed(s, want, failing, {id}, id) then Midway(s, want, failing, done)[id := want[id]]
              else Midway(s, want, failing, done)
  {
  }

  lemma QueuesStep(s: State, want: map<string, Listener>, failing: set<string>, done: set<string>, id: string)
    ensures DeferredIds(s, want, done + {id}) == DeferredIds(s, want, done)
              + (if id in want && FateOf(s, id, want[id]).Defer? then {id} else {})
    ensures FailedStarts(s, want, failing, done + {id}) == FailedStarts(s, want, failing, done)
              + (if id in want && FateOf(s, id, want[id]).Start? && id in failing then {id} else {})
  {
  }

  lemma StagedStep(s: State, want: map<string, Listener>, failing: set<string>, done: set<string>, id: string)
    ensures StagedSockets(s, want, failing, done + {id}) == StagedSockets(s, want, failing, done)
              + (if id in s.live && id in want && FateOf(s, id, want[id]).Stage? && id !in failing then {Sock(s.live[id])} else {})
  {
    var more := StagedSockets(s, want, failing, done + {id});
    forall k | k in StagedSockets(s, want, failing, done) ensures k in more {
      var a :| a in s.live && a in done && a in want && FateOf(s, a, want[a]).Stage? && a !in failing && Sock(s.live[a]) == k;
      assert a in done + {id};
    }
    if id in s.live && id in want && FateOf(s, id, want[id]).Stage? && id !in failing {
      assert id in done + {id};
      assert Sock(s.live[id]) in more;
    }
  }

  lemma MidwayLive(s: State, want: map<string, Listener>, failing: set<string>, done: set<string>)
    requires want.Keys <= done
    ensures LiveLeft(Midway(s, want, failing, done), want, DeferredIds(s, want, done), {}) == LiveAfter(s, want, failing)
  {
  }

  lemma MidwayLeaver(s: State, want: map<string, Listener>, failing: set<string>, done: set<string>, id: string)
    requires want.Keys <= done && id in Midway(s, want, failing, done) && !Stays(want, DeferredIds(s, want, done), id)
    ensures id in s.live && Displaced(s, want, failing, id) && Midway(s, want, failing, done)[id] == s.live[id]
  {
  }

  lemma MidwayDraining(s: State, want: map<string, Listener>, failing: set<string>, done: set<string>)
    requires want.Keys <= done
    ensures StagedSockets(s, want, failing, done)
              + GoneSockets(Midway(s, want, failing, done), want, DeferredIds(s, want, done), {})
              == DisplacedSockets(s, want, failing)
  {
    var mid, deferred := Midway(s, want, failing, done), DeferredIds(s, want, done);
    var displaced, staged, gone := DisplacedSockets(s, want, failing), StagedSockets(s, want, failing, done), GoneSockets(mid, want, deferred, {});
    forall k | k in displaced ensures k in staged + gone {
      var id :| id in s.live && Displaced(s, want, failing, id) && Sock(s.live[id]) == k;
      if !Stays(want, deferred, id) {
        assert id in mid && mid[id] == s.live[id];
        assert k in gone;
      } else {
        assert k in staged;
      }
    }
    forall k | k in gone ensures k in displaced {
      var id :| id in mid && !Stays(want, deferred, id) && Sock(mid[id]) == k;
      MidwayLeaver(s, want, failing, done, id);
    }
  }

  /** The listeners running midway share no socket, among themselves or with draining ones. */
  lemma MidwayExclusive(s: State, want: map<string, Listener>, failing: set<string>, done: set<string>)
    requires SocketsExclusive(s) && DistinctWants(want)
    ensures var mid := Midway(s, want, failing, done);
            && (forall a, b :: a in mid && b in mid && a != b ==> Sock(mid[a]) != Sock(mid[b]))
            && (forall a :: a in mid ==> Sock(mid[a]) !in s.draining + StagedSockets(s, want, failing, done))
  {
    var mid := Midway(s, want, failing, done);
    forall a | a in mid
      ensures (Sock(mid[a]) !in Held(s) && a in want && Sock(mid[a]) == Sock(want[a]))
              || (a in s.live && Sock(mid[a]) == Sock(s.live[a])
                  && !(a in done && a in want && FateOf(s, a, want[a]).Stage? && a !in failing))
    {
    }
    forall a, b | a in mid && b in mid && a != b ensures Sock(mid[a]) != Sock(mid[b]) {
      if a in s.live { assert Sock(s.live[a]) in LiveSockets(s); }
      if b in s.live { assert Sock(s.live[b]) in LiveSockets(s); }
    }
    forall a | a in mid ensures Sock(mid[a]) !in s.draining + StagedSockets(s, want, failing, done) {
      forall b | b in s.live ensures Sock(s.live[b]) in LiveSockets(s) {}
    }
  }

  lemma OneMoreRetry(s: State, ids: set<string>, id: string)
    requires id !in ids
    ensures multiset(RetriesOf(s, ids + {id})) == multiset(RetriesOf(s, ids)) + multiset{Retry(id, Gen(s, id) + 1)}
  {
    var a, r := RetriesOf(s, ids), Retry(id, Gen(s, id) + 1);
    assert r !in a;
    assert RetriesOf(s, ids + {id}) == a + {r};
  }

  lemma OwnedAfter(live: map<string, Listener>, id: string, want: Listener)
    requires id in live ==> forall a :: a in live && a != id ==> Sock(live[a]) != Sock(live[id])
    ensures SocketsOf(live[id := want])
              == (if id in live then SocketsOf(live) - {Sock(live[id])} else SocketsOf(live)) + {Sock(want)}
  {
    var more := live[id := want];
    forall k | k in SocketsOf(live) && (id in live ==> k != Sock(live[id])) ensures k in SocketsOf(more) {
      var a :| a in live && Sock(live[a]) == k;
      assert Sock(live[a]) == k;
      assert live[a].config.socket == k;
      assert a != id && more[a] == live[a];
    }
    assert more[id] == want;
  }

  datatype MainLoop = MainLoop(
    live: map<string, Listener>, draining: set<Socket>, owned: set<Socket>, deferred: set<string>,
    retries: multiset<Retry>)

  /** The main loop has dealt with exactly the ids in done. */
  ghost predicate At(s: State, want: map<string, Listener>, failing: set<string>, done: set<string>, m: MainLoop) {
    && m.live == Midway(s, want, failing, done)
    && m.draining == s.draining + StagedSockets(s, want, failing, done)
    && m.owned == SocketsOf(m.live)
    && m.deferred == DeferredIds(s, want, done)
    && m.retries == s.retries + multiset(RetriesOf(s, FailedStarts(s, want, failing, done)))
  }

  /** The fate of a connection as the loop variables show it. */
  function SeenFate(m: MainLoop, id: string, want: Listener): Fate {
    if id !in m.live then (if Sock(want) in m.owned + m.draining then Defer else Start)
    else if !Recreate(m.live[id].config, want.config) then Refresh
    else if Sock(m.live[id]) != Sock(want) && Sock(want) !in m.owned + m.draining then Stage
    else Defer
  }

  /** What the main loop does with one wanted connection under generation g. */
  function LoopStep(m: MainLoop, id: string, want: Listener, fails: bool, g: nat): MainLoop {
    match SeenFate(m, id, want)
    case Defer => m.(deferred := m.deferred + {id})
    case Start =>
      if fails then m.(retries := m.retries + multiset{Retry(id, g)})
      else m.(live := m.live[id := want], owned := m.owned + {Sock(want)})
    case Refresh => m.(live := m.live[id := want])
    case Stage =>
      if fails then m
      else MainLoop(m.live[id := want], m.draining + {Sock(m.live[id])},
                    m.owned - {Sock(m.live[id])} + {Sock(want)}, m.deferred, m.retries)
  }

  lemma MoveFields(m: MainLoop, id: string, want: Listener, fails: bool, g: nat, canStage: bool)
    requires id in m.live && Recreate(m.live[id].config, want.config)
    requires canStage <==> Sock(m.live[id]) != Sock(want) && Sock(want) !in m.owned && Sock(want) !in m.draining
    ensures LoopStep(m, id, want, fails, g) ==
              if !canStage then MainLoop(m.live, m.draining, m.owned, m.deferred + {id}, m.retries)
              else if fails then m
              else MainLoop(m.live[id := want], m.draining + {Sock(m.live[id])},
                            m.owned - {Sock(m.live[id])} + {Sock(want)}, m.deferred, m.retries)
  {
  }

  /** What the loop sees of the next connection is what Apply started from. */
  lemma FateIsVisible(s: State, want: map<string, Listener>, failing: set<string>, done: set<string>, id: string, m: MainLoop)
    requires DistinctWants(want) && At(s, want, failing, done, m) && id in want && id !in done
    ensures SeenFate(m, id, want[id]) == FateOf(s, id, want[id])
    ensures id in m.live <==> id in s.live
    ensures id in m.live ==> m.live[id] == s.live[id]
  {
    HeldMidway(s, want, failing, done, id);
  }

  lemma LoopStepKeepsLive(s: State, want: map<string, Listener>, failing: set<string>, done: set<string>, id: string, m: MainLoop, t: MainLoop)
    requires id in want && id !in done && SeenFate(m, id, want[id]) == FateOf(s, id, want[id])
    requires id in m.live ==> id in s.live && m.live[id] == s.live[id]
    requires m.live == Midway(s, want, failing, done) && m.draining == s.draining + StagedSockets(s, want, failing, done)
    requires t == LoopStep(m, id, want[id], id in failing, Gen(s, id) + 1)
    ensures t.live == Midway(s, want, failing, done + {id})
    ensures t.draining == s.draining + StagedSockets(s, want, failing, done + {id})
  {
    MidwayStep(s, want, failing, done, id);
    StagedStep(s, want, failing, done, id);
  }

  /** The sockets owned follow the listeners, whichever way one step goes. */
  lemma OwnedStep(m: MainLoop, id: string, want: Listener, fails: bool, g: nat, t: MainLoop)
    requires ExclusiveWith(m.live, m.draining) && m.owned == SocketsOf(m.live) && t == LoopStep(m, id, want, fails, g)
    ensures t.owned == SocketsOf(t.live)
  {
    OwnedAfter(m.live, id, want);
    if SeenFate(m, id, want).Refresh? {
      assert m.live[id].config.socket in SocketsOf(m.live);
    }
  }

  lemma LoopStepKeepsOwned(s: State, want: map<string, Listener>, failing: set<string>, done: set<string>, id: string, m: MainLoop,
                           fails: bool, g: nat)
    requires SocketsExclusive(s) && DistinctWants(want) && id in want
    requires m.live == Midway(s, want, failing, done) && m.owned == SocketsOf(m.live)
    requires m.draining == s.draining + StagedSockets(s, want, failing, done)
    ensures LoopStep(m, id, want[id], fails, g).owned == SocketsOf(LoopStep(m, id, want[id], fails, g).live)
  {
    MidwayExclusive(s, want, failing, done);
    OwnedStep(m, id, want[id], fails, g, LoopStep(m, id, want[id], fails, g));
  }

  lemma LoopStepKeepsDeferred(s: State, want: map<string, Listener>, failing: set<string>, done: set<string>, id: string, m: MainLoop)
    requires id in want && id !in done && SeenFate(m, id, want[id]) == FateOf(s, id, want[id])
    requires m.deferred == DeferredIds(s, want, done)
    ensures LoopStep(m, id, want[id], id in failing, Gen(s, id) + 1).deferred == DeferredIds(s, want, done + {id})
  {
    QueuesStep(s, want, failing, done, id);
  }

  lemma LoopStepKeepsRetries(s: State, want: map<string, Listener>, failing: set<string>, done: set<string>, id: string, m: MainLoop)
    requires id in want && id !in done && SeenFate(m, id, want[id]) == FateOf(s, id, want[id])
    requires m.retries == s.retries + multiset(RetriesOf(s, FailedStarts(s, want, failing, done)))
    ensures LoopStep(m, id, want[id], id in failing, Gen(s, id) + 1).retries
              == s.retries + multiset(RetriesOf(s, FailedStarts(s, want, failing, done + {id})))
  {
    QueuesStep(s, want, failing, done, id);
    if FateOf(s, id, want[id]).Start? && id in failing {
      OneMoreRetry(s, FailedStarts(s, want, failing, done), id);
    }
  }

  lemma LoopStepKeepsAt(s: State, want: map<string, Listener>, failing: set<string>, done: set<string>, id: string, m: MainLoop)
    requires SocketsExclusive(s) && DistinctWants(want) && At(s, want, failing, done, m) && id in want && id !in done
    ensures At(s, want, failing, done + {id}, LoopStep(m, id, want[id], id in failing, Gen(s, id) + 1))
  {
    var t := LoopStep(m, id, want[id], id in failing, Gen(s, id) + 1);
    FateIsVisible(s, want, failing, done, id, m);
    LoopStepKeepsLive(s, want, failing, done, id, m, t);
    LoopStepKeepsOwned(s, want, failing, done, id, m, id in failing, Gen(s, id) + 1);
    LoopStepKeepsDeferred(s, want, failing, done, id, m);
    LoopStepKeepsRetries(s, want, failing, done, id, m);
  }

  lemma UnwantedKeepsAt(s: State, want: map<string, Listener>, failing: set<string>, done: set<string>, id: string, m: MainLoop)
    requires At(s, want, failing, done, m) && id !in want && id !in done
    ensures At(s, want, failing, done + {id}, m)
  {
    MidwayStep(s, want, failing, done, id);
    StagedStep(s, want, failing, done, id);
    QueuesStep(s, want, failing, done, id);
  }

  lemma RetriesSplit(s: State, want: map<string, Listener>, failing: set<string>, done: set<string>)
    requires want.Keys <= done
    ensures multiset(RetriesOf(s, FailedStarts(s, want, failing, done))) + multiset(RetriesOf(s, DeferredIds(s, want, done)))
              == multiset(NewRetries(s, want, failing))
  {
    var a, b := RetriesOf(s, FailedStarts(s, want, failing, done)), RetriesOf(s, DeferredIds(s, want, done));
    assert a !! b;
    assert a + b == NewRetries(s, want, failing);
  }

  ghost predicate NormalWants(want: map<string, Listener>) {
    forall id :: id in want ==> Normal(want[id].config)
  }

  /** What port allocation and the first loop of Apply hand to the loops that act. */
  datatype Work = Work(conns: seq<Connection>, autoPorts: map<string, int>, want: map<string, Listener>,
                       generation: map<string, nat>, missing: set<string>)

  ghost predicate WorkFor(work: Work, generation: map<string, nat>, plan: Plan) {
    && UniqueIds(work.conns) && plan.ids == Ids(work.conns) && plan.ids == plan.want.Keys + work.missing
    && work.want == plan.want && work.generation == Bumped(generation, plan.ids)
    && PlanSound(plan) && NormalWants(plan.want)
  }

  method MakePlan(d: Definition, passwords: map<string, string>, stored: map<string, int>, generation: map<string, nat>)
    returns (work: Work, ghost plan: Plan)
    requires ConnectionsOk(d.functions, d.connections)
    ensures PlannedBy(d, passwords, stored, work.autoPorts, plan) && WorkFor(work, generation, plan)
  {
    ValidIsAllocatable(d.functions, d.connections);
    var conns, next := Allocate(d.connections, stored);
    plan := PlanFor(d, conns, passwords);
    PlanFacts(d, stored, conns, passwords);
    var want, bumped, missing := CollectDesired(d, conns, passwords, generation);
    work := Work(conns, next, want, bumped, missing);
  }

  /** plan is what a validated definition asks for once its ports are allocated. */
  ghost predicate PlannedBy(d: Definition, passwords: map<string, string>, stored: map<string, int>, next: map<string, int>, plan: Plan) {
    exists conns :: Allocates(d.connections, stored, conns) && Remembers(d.connections, conns, next)
                    && plan == PlanFor(d, conns, passwords)
  }

  lemma PlanFacts(d: Definition, stored: map<string, int>, conns: seq<Connection>, passwords: map<string, string>)
    requires ConnectionsOk(d.functions, d.connections) && Allocates(d.connections, stored, conns)
    ensures UniqueIds(conns)
    ensures var plan := PlanFor(d, conns, passwords);
            PlanSound(plan) && NormalWants(plan.want) && plan.ids == plan.want.Keys + MissingIds(conns, passwords)
  {
    forall i, j | 0 <= i < j < |conns| ensures conns[i].id != conns[j].id {
      assert d.connections[i].id != d.connections[j].id;
    }
    PlanForSound(d, stored, conns, passwords);
    ListenersDistinct(d, stored, conns, passwords);
    PlanForNormal(d, conns, passwords);
    PlanForCovers(d, conns, passwords);
  }

  function IdOf(id: string): string { id }

  function SortedIds(conns: seq<Connection>): (ids: seq<string>)
    requires UniqueIds(conns)
    ensures Distinct(ids) && Members(ids, |ids|) == Ids(conns)
  {
    var raw := seq(|conns|, i requires 0 <= i < |conns| => conns[i].id);
    var sorted := SortBy(raw, IdOf);
    SortDistinct(raw, IdOf);
    SameMembers(raw, sorted);
    SameMemberSets(conns, raw, sorted);
    sorted
  }

  lemma SameMemberSets(conns: seq<Connection>, raw: seq<string>, sorted: seq<string>)
    requires |raw| == |conns| && forall i :: 0 <= i < |conns| ==> raw[i] == conns[i].id
    requires forall x :: x in raw <==> x in sorted
    ensures Members(sorted, |sorted|) == Ids(conns)
  {
    forall id | id in Members(sorted, |sorted|) ensures id in Ids(conns) {
      assert id in sorted && id in raw;
    }
    forall id | id in Ids(conns) ensures id in Members(sorted, |sorted|) {
      assert id in raw && id in sorted;
    }
  }

  lemma PlanReady(s: State, plan: Plan)
    requires PlanSound(plan) && NormalWants(plan.want)
    ensures DistinctWants(plan.want) && WantsReady(plan.want, Bumped(s.generation, plan.ids))
    ensures GenerationsReady(s, plan.want, Bumped(s.generation, plan.ids))
  {
  }

  /** Draining the displaced listeners leaves the generation of a deferred id alone. */
  lemma DeferredReady(s: State, plan: Plan, m: MainLoop, missing: set<string>)
    requires plan.ids == plan.want.Keys + missing && m.deferred <= plan.want.Keys
    ensures var g := SweepLeft(Sweep(m.live, m.draining, Bumped(s.generation, plan.ids)), plan.want, m.deferred, missing, {}).generation;
            forall id :: id in m.deferred ==> id in g && g[id] == Gen(s, id) + 1
  {
  }

  lemma MainLoopExclusive(s: State, want: map<string, Listener>, failing: set<string>, done: set<string>, m: MainLoop)
    requires SocketsExclusive(s) && DistinctWants(want) && At(s, want, failing, done, m)
    ensures ExclusiveWith(m.live, m.draining)
  {
    MidwayExclusive(s, want, failing, done);
  }

  lemma GoneAreUnplanned(s: State, plan: Plan, failing: set<string>, missing: set<string>, mid: map<string, Listener>)
    requires plan.ids == plan.want.Keys + missing && mid == Midway(s, plan.want, failing, plan.ids)
    ensures GoneIds(mid, plan.want, missing, {}) == s.live.Keys - plan.ids
  {
  }

  lemma BumpedTwice(s: State, ids: set<string>)
    ensures Bumped(Bumped(s.generation, ids), s.live.Keys - ids) == GenerationAfter(s, ids)
  {
  }

  lemma AssembleGeneration(s: State, plan: Plan, failing: set<string>, missing: set<string>, mid: map<string, Listener>)
    requires plan.ids == plan.want.Keys + missing && mid == Midway(s, plan.want, failing, plan.ids)
    ensures Bumped(Bumped(s.generation, plan.ids), GoneIds(mid, plan.want, missing, {})) == GenerationAfter(s, plan.ids)
  {
    GoneAreUnplanned(s, plan, failing, missing, mid);
    BumpedTwice(s, plan.ids);
  }

  lemma AssembleSweep(s: State, plan: Plan, failing: set<string>, missing: set<string>, m: MainLoop, swept: Sweep)
    requires plan.ids == plan.want.Keys + missing && At(s, plan.want, failing, plan.ids, m)
    requires swept == SweepLeft(Sweep(m.live, m.draining, Bumped(s.generation, plan.ids)), plan.want, m.deferred, missing, {})
    ensures swept.live == LiveAfter(s, plan.want, failing)
    ensures swept.draining == s.draining + DisplacedSockets(s, plan.want, failing)
    ensures swept.generation == GenerationAfter(s, plan.ids)
  {
    MidwayLive(s, plan.want, failing, plan.ids);
    MidwayDraining(s, plan.want, failing, plan.ids);
    AssembleGeneration(s, plan, failing, missing, m.live);
  }

  /** The pieces the loops leave behind make up the outcome of Apply. */
  lemma Assemble(s: State, plan: Plan, failing: set<string>, missing: set<string>, m: MainLoop, swept: Sweep, t: State)
    requires plan.ids == plan.want.Keys + missing && At(s, plan.want, failing, plan.ids, m)
    requires swept == SweepLeft(Sweep(m.live, m.draining, Bumped(s.generation, plan.ids)), plan.want, m.deferred, missing, {})
    requires t == State(swept.live, swept.draining, plan.want, swept.generation,
                        m.retries + multiset(RetriesOf(s, m.deferred)), s.stopped)
    ensures t == ApplyTo(s, plan, failing)
  {
    AssembleSweep(s, plan, failing, missing, m, swept);
    AssembleRetries(s, plan, failing, m);
  }

  lemma AssembleRetries(s: State, plan: Plan, failing: set<string>, m: MainLoop)
    requires plan.want.Keys <= plan.ids && At(s, plan.want, failing, plan.ids, m)
    ensures m.retries + multiset(RetriesOf(s, m.deferred)) == s.retries + multiset(NewRetries(s, plan.want, failing))
  {
    RetriesSplit(s, plan.want, failing, plan.ids);
  }

  predicate NotHeldTwice(m: MainLoop, id: string) { id in m.live ==> Sock(m.live[id]) !in m.draining }

  function LoopStepFor(m: MainLoop, id: string, want: map<string, Listener>, failing: set<string>, generation: map<string, nat>): MainLoop {
    if id !in want then m
    else LoopStep(m, id, want[id], id in failing, if id in generation then generation[id] else 0)
  }

  function RunLoop(m: MainLoop, ids: seq<string>, n: nat, want: map<string, Listener>, failing: set<string>, generation: map<string, nat>): MainLoop
    requires n <= |ids|
  {
    if n == 0 then m
    else LoopStepFor(RunLoop(m, ids, n - 1, want, failing, generation), ids[n - 1], want, failing, generation)
  }

  ghost predicate WantsReady(want: map<string, Listener>, generation: map<string, nat>) {
    forall id :: id in want ==> Normal(want[id].config) && want[id].config.connectionId == id && id in generation
  }

  ghost predicate GenerationsReady(s: State, want: map<string, Listener>, generation: map<string, nat>) {
    forall id :: id in want ==> id in generation && generation[id] == Gen(s, id) + 1
  }

  lemma AtStart(s: State, want: map<string, Listener>, failing: set<string>, m: MainLoop)
    requires m == MainLoop(s.live, s.draining, SocketsOf(s.live), {}, s.retries)
    ensures At(s, want, failing, {}, m)
  {
    assert RetriesOf(s, FailedStarts(s, want, failing, {})) == {};
  }

  lemma LoopStepForKeepsAt(s: State, want: map<string, Listener>, failing: set<string>, generation: map<string, nat>,
                           done: set<string>, id: string, m: MainLoop)
    requires SocketsExclusive(s) && DistinctWants(want) && GenerationsReady(s, want, generation)
    requires At(s, want, failing, done, m) && id !in done
    ensures At(s, want, failing, done + {id}, LoopStepFor(m, id, want, failing, generation))
  {
    if id in want {
      LoopStepKeepsAt(s, want, failing, done, id, m);
    } else {
      UnwantedKeepsAt(s, want, failing, done, id, m);
    }
  }

  /** The sequential loop computes the order-free outcome, whatever order the ids come in. */
  lemma {:induction false} RunLoopIsOrderFree(s: State, ids: seq<string>, n: nat, want: map<string, Listener>,
                                              failing: set<string>, generation: map<string, nat>, m: MainLoop)
    requires SocketsExclusive(s) && DistinctWants(want) && GenerationsReady(s, want, generation)
    requires Distinct(ids) && n <= |ids|
    requires m == MainLoop(s.live, s.draining, SocketsOf(s.live), {}, s.retries)
    ensures At(s, want, failing, Members(ids, n), RunLoop(m, ids, n, want, failing, generation))
  {
    if n == 0 {
      AtStart(s, want, failing, m);
      assert Members(ids, 0) == {};
    } else {
      RunLoopIsOrderFree(s, ids, n - 1, want, failing, generation, m);
      LastIsNew(ids, n);
      LoopStepForKeepsAt(s, want, failing, generation, Members(ids, n - 1), ids[n - 1],
                         RunLoop(m, ids, n - 1, want, failing, generation));
    }
  }

  lemma RunLoopNotHeldTwice(s: State, ids: seq<string>, want: map<string, Listener>, failing: set<string>,
                            generation: map<string, nat>, m: MainLoop, i: nat)
    requires SocketsExclusive(s) && DistinctWants(want) && GenerationsReady(s, want, generation) && Distinct(ids)
    requires m == MainLoop(s.live, s.draining, SocketsOf(s.live), {}, s.retries) && i < |ids|
    ensures NotHeldTwice(RunLoop(m, ids, i, want, failing, generation), ids[i])
  {
    RunLoopIsOrderFree(s, ids, i, want, failing, generation, m);
    MidwayExclusive(s, want, failing, Members(ids, i));
  }
}
