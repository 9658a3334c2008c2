// core/sip/supervisor.go Supervisor: the reconciler that keeps its maps of listeners up to
// date in place. Every method is tied to the step system of SupervisorModel.
module Supervisors {
  import opened Text
  import opened SipConfig
  import opened ClientConfigs
  import opened SupervisorModel
  import opened DrainLoops
  import opened ApplyLoops
  import opened Calls

  class Supervisor {
    var clients: map<string, Client>
    var draining: set<Client>
    var desired: map<string, Listener>
    var generation: map<string, nat>
    var autoPorts: map<string, int>
    var retries: multiset<Retry>
    var stopped: bool
    const manager: SessionManager
    ghost var live: map<string, Listener>   // what the clients run
    ghost var holders: map<Socket, Client>  // which draining client holds which socket

    ghost function Abs(): State
      reads `live, `holders, `desired, `generation, `retries, `stopped
    {
      State(live, holders.Keys, desired, generation, retries, stopped)
    }

    /** The ghost fields describe the objects. Live listeners take calls under their own id,
        draining ones refuse them, both count their calls right, and each held socket belongs to
        one draining listener. */
    ghost predicate Tied()
      reads `clients, `draining, `live, `holders, clients.Values, draining
    {
      && clients.Keys == live.Keys
      && (forall a {:trigger clients[a]} :: a in clients ==>
            live[a] == Listener(clients[a].config, clients[a].definition)
            && clients[a].config.connectionId == a && clients[a].accepting && clients[a].Sound())
      && (forall c: Client {:trigger c in draining} :: c in draining ==>
            !c.accepting && c.Sound() && c.config.socket in holders && holders[c.config.socket] == c)
      && (forall k {:trigger holders[k]} :: k in holders ==> holders[k] in draining && holders[k].config.socket == k)
    }

    ghost predicate Valid()
      reads this, clients.Values, draining
    {
      Tied() && Inv(Abs()) && NormalWants(desired)
    }

    constructor (def: Definition)
      ensures Valid() && Abs() == INITIAL && autoPorts == map[] && fresh(manager)
      ensures manager.Held() == Sessions(LimitFor(def.maxConcurrentCalls), map[]) && manager.definition == def
    {
      manager := new SessionManager(def, if def.maxConcurrentCalls <= 0 then 10 else def.maxConcurrentCalls);
      clients, draining, desired, generation := map[], {}, map[], map[];
      autoPorts, retries, stopped, live, holders := map[], multiset{}, false, map[], map[];
    }

    // ------------------------------------------------- queries

    /** The first half of socketBusyLocked, and the owners lookup of Apply. */
    method LiveOwnsSocket(k: Socket) returns (busy: bool)
      requires Tied()
      ensures busy <==> k in SocketsOf(live)
    {
      var ids := clients.Keys;
      while ids != {}
        invariant ids <= clients.Keys
        invariant forall id :: id in clients && id !in ids ==> live[id].config.socket != k
        decreases ids
      {
        var id :| id in ids;
        if clients[id].config.socket == k {
          assert live[id].config.socket == k;
          return true;
        }
        ids := ids - {id};
      }
      busy := false;
    }

    /** drainingOwnsSocketLocked. */
    method DrainingOwnsSocket(k: Socket) returns (busy: bool)
      requires Tied()
      ensures busy <==> k in holders
    {
      var rest := draining;
      while rest != {}
        invariant rest <= draining
        invariant forall c: Client :: c in draining && c !in rest ==> c.config.socket != k
        decreases rest
      {
        var c :| c in rest;
        if c.config.socket == k {
          return true;
        }
        rest := rest - {c};
      }
      busy := false;
    }

    /** socketBusyLocked. */
    method SocketBusy(k: Socket) returns (busy: bool)
      requires Tied()
      ensures busy <==> k in Held(Abs())
    {
      busy := LiveOwnsSocket(k);
      if !busy {
        busy := DrainingOwnsSocket(k);
      }
      assert SocketsOf(live) == LiveSockets(Abs());
    }

    // ------------------------------------------- pieces of a step

    /** A successful newStartedClient, entered into the map of clients. */
    method Launch(id: string, want: Listener)
      requires Tied() && Normal(want.config) && want.config.connectionId == id
      modifies this`clients, this`live
      ensures Tied() && live == old(live)[id := want] && fresh(clients[id])
      ensures clients == old(clients)[id := clients[id]]
    {
      var c := new Client(want.config, want.definition);
      clients := clients[id := c];
      live := live[id := want];
    }

    /** beginDrainLocked, for a client no longer in the map. */
    method BeginDrain(c: Client)
      requires Tied() && c.Sound() && c !in clients.Values && c.config.socket !in holders
      modifies this`draining, this`holders, c`accepting
      ensures Tied() && holders.Keys == old(holders.Keys) + {c.config.socket} && draining == old(draining) + {c}
    {
      draining := draining + {c};
      holders := holders[c.config.socket := c];
      c.DrainCalls();
    }

    /** Removes a client from the map and begins to drain it. */
    method Retire(id: string, c: Client)
      requires Tied() && id in clients && clients[id] == c && c.config.socket !in holders
      modifies this`clients, this`draining, this`live, this`holders, c`accepting
      ensures Tied() && live == old(live) - {id} && holders.Keys == old(holders.Keys) + {Sock(old(live)[id])}
      ensures clients == old(clients) - {id}
    {
      clients := clients - {id};
      live := live - {id};
      BeginDrain(c);
    }

    method Release(c: Client)
      requires Tied() && c in draining
      modifies this`draining, this`holders
      ensures Tied() && draining == old(draining) - {c} && holders.Keys == old(holders).Keys - {c.config.socket}
    {
      draining := draining - {c};
      holders := holders - {c.config.socket};
    }

    // --------------------------------------------------- steps

    /** One turn of the loop in scheduleDesiredLocked; ok: a start attempted now succeeds. */
    method RetryTick(r: Retry, ok: bool)
      requires Valid() && r in retries
      modifies this`clients, this`live, this`retries
      ensures Valid() && Next(old(Abs()), Tick(r, ok), Abs())
    {
      TickKeepsInv(Abs(), r, ok);
      Poll(r, ok);
    }

    method Poll(r: Retry, ok: bool)
      requires Tied() && DesiredSound(Abs()) && NormalWants(desired) && r in retries
      modifies this`clients, this`live, this`retries
      ensures Tied() && Abs() == TickTo(old(Abs()), r, ok)
    {
      var current := if r.id in generation then generation[r.id] else 0;
      if stopped || current != r.generation || r.id in clients || r.id !in desired {
        EndScheduler(r);
      } else {
        var busy := SocketBusy(desired[r.id].config.socket);
        if !busy && ok {
          StartDesired(r, desired[r.id]);
        }
      }
    }

    /** startDesiredLocked where the listener comes up. */
    method StartDesired(r: Retry, want: Listener)
      requires Tied() && Normal(want.config) && want.config.connectionId == r.id
      modifies this`clients, this`live, this`retries
      ensures Tied() && Abs() == old(Abs()).(live := old(live)[r.id := want], retries := old(retries) - multiset{r})
    {
      Launch(r.id, want);
      retries := retries - multiset{r};
    }

    /** The goroutine of scheduleDesiredLocked returns. */
    method EndScheduler(r: Retry)
      requires Tied()
      modifies this`retries
      ensures Tied() && Abs() == old(Abs()).(retries := old(retries) - multiset{r})
    {
      retries := retries - multiset{r};
    }

    /** The goroutine of beginDrainLocked, once its listener reports no calls: the listener is
        stopped, and no accepted call, in setup or registered, with it. */
    method DrainFinished(c: Client)
      requires Valid() && c in draining && InFlight(c.State()) == 0
      modifies this`draining, this`holders, c`activeCalls, c`stopped
      ensures Valid() && draining == old(draining) - {c} && c.stopped
      ensures old(c.setup) == {} && old(c.activeCalls) == {} && c.State() == old(c.State())
      ensures Next(old(Abs()), Drained(c.config.socket), Abs())
    {
      StepKeepsInv(Abs(), Drained(c.config.socket), Abs().(draining := Abs().draining - {c.config.socket}));
      StopIdle(c);
      Release(c);
    }

    method StopIdle(c: Client)
      requires Tied() && c in draining && InFlight(c.State()) == 0
      modifies c`activeCalls, c`stopped
      ensures Tied() && c.stopped && old(c.setup) == {} && c.State() == old(c.State()) && c.activeCalls == {}
    {
      assert c.Sound();
      c.Stop();
    }

    method Halt()
      requires Tied() && (stopped ==> live == map[])
      modifies this`clients, this`live, this`stopped
      ensures Tied() && Abs() == old(Abs()).(live := map[], stopped := true)
    {
      if stopped {
        return;
      }
      stopped := true;
      clients, live := map[], map[];
    }

    /** Stop: nothing is live any more, and every listener there was is stopped. */
    method Stop()
      requires Valid()
      modifies this`clients, this`live, this`stopped
      modifies clients.Values`activeCalls, clients.Values`stopped, draining`activeCalls, draining`stopped
      ensures Valid() && Next(old(Abs()), SupervisorModel.Step.Stop, Abs())
      ensures !old(stopped) ==> forall c: Client :: c in old(clients.Values) || c in draining ==> c.stopped
    {
      StepKeepsInv(Abs(), SupervisorModel.Step.Stop, Abs().(live := map[], stopped := true));
      var all := if stopped then {} else clients.Values + draining;
      Halt();
      StopAll(all);
    }

    method StopAll(all: set<Client>)
      requires Tied() && clients == map[]
      modifies all`activeCalls, all`stopped
      ensures Tied() && Abs() == old(Abs())
      ensures forall c: Client :: c in all ==> c.stopped
    {
      var rest := all;
      while rest != {}
        invariant rest <= all && Tied() && forall c: Client :: c in all && c !in rest ==> c.stopped
        decreases rest
      {
        var c :| c in rest;
        c.Stop();
        rest := rest - {c};
      }
    }

    // --------------------------------------------------- calls

    /** A call arriving at a running listener, whatever was saved or failed to start before, is
        accepted. It brings along what that listener runs, where every route leads to a function. */
    method TakeCall(connection: string, c: Client, id: string) returns (l: Listener)
      requires Valid() && connection in clients && clients[connection] == c && Possible(c.State(), Arrive(id))
      modifies c`pendingCalls, c`setup
      ensures Valid() && Abs() == old(Abs()) && c.State() == After(old(c.State()), Arrive(id))
      ensures l == live[connection] && Servable(l) && c.pendingCalls == old(c.pendingCalls) + 1
    {
      assert Servable(live[connection]);
      l := Accept(connection, c, id);
    }

    method Accept(connection: string, c: Client, id: string) returns (l: Listener)
      requires Tied() && connection in clients && clients[connection] == c && Possible(c.State(), Arrive(id))
      modifies c`pendingCalls, c`setup
      ensures Tied() && Abs() == old(Abs()) && c.State() == After(old(c.State()), Arrive(id)) && l == live[connection]
    {
      StepKeepsCounted(c.State(), Arrive(id));
      var accepted, cfg, def := c.BeginIncomingCall(id);
      l := Listener(cfg, def);
    }

    /** Whatever the handlers of calls do to a running or draining listener keeps the
        supervisor valid. */
    method HandleCall(c: Client, step: CallStep)
      requires Valid() && c in clients.Values + draining && Possible(c.State(), step) && !step.Drain? && !step.TearDown?
      modifies c`pendingCalls, c`setup, c`activeCalls
      ensures Valid() && Abs() == old(Abs()) && c.State() == After(old(c.State()), step)
    {
      RunHandler(c, step);
    }

    method RunHandler(c: Client, step: CallStep)
      requires Tied() && c in clients.Values + draining && Possible(c.State(), step) && !step.Drain? && !step.TearDown?
      modifies c`pendingCalls, c`setup, c`activeCalls
      ensures Tied() && Abs() == old(Abs()) && c.State() == After(old(c.State()), step)
    {
      Handle(c, step);
    }

    // --------------------------------------------------- Apply

    /** The variables of the main loop of Apply. */
    ghost function Loop(owned: set<Socket>, deferred: set<string>): MainLoop
      reads `live, `holders, `retries
    {
      MainLoop(live, holders.Keys, owned, deferred, retries)
    }

    /** An id without a listener: it starts if its socket is free, else it is deferred. */
    method ReconcileNew(id: string, want: Listener, fails: bool, owned: set<Socket>, deferred: set<string>, g: nat)
      returns (owned': set<Socket>, deferred': set<string>)
      requires Tied() && id !in clients && Normal(want.config) && want.config.connectionId == id
      modifies this`clients, this`live, this`retries
      ensures Tied() && Loop(owned', deferred') == LoopStep(old(Loop(owned, deferred)), id, want, fails, g)
      ensures forall a :: a in clients ==> (a in old(clients) && clients[a] == old(clients)[a]) || fresh(clients[a])
    {
      owned', deferred' := owned, deferred;
      var busy := want.config.socket in owned;
      if !busy {
        busy := DrainingOwnsSocket(want.config.socket);
      }
      if busy {
        deferred' := deferred + {id};
      } else if fails {
        retries := retries + multiset{Retry(id, g)};
      } else {
        Launch(id, want);
        owned' := owned + {want.config.socket};
      }
    }

    /** Update: routing and registration change while the listener stays up. */
    method RefreshListener(id: string, c: Client, want: Listener)
      requires Tied() && id in clients && clients[id] == c && want.config.connectionId == id
      requires want.config.socket == c.config.socket
      modifies this`live, c`config, c`definition
      ensures Tied() && live == old(live)[id := want]
    {
      c.Update(want.config, want.definition);
      live := live[id := want];
    }

    /** A started replacement takes over; the old listener drains. */
    method Replace(id: string, c: Client, want: Listener)
      requires Tied() && id in clients && clients[id] == c && c.config.socket !in holders
      requires Normal(want.config) && want.config.connectionId == id
      modifies this`clients, this`draining, this`live, this`holders, c`accepting
      ensures Tied() && live == old(live)[id := want] && holders.Keys == old(holders.Keys) + {Sock(old(live)[id])}
      ensures clients == old(clients)[id := clients[id]] && fresh(clients[id])
    {
      Launch(id, want);
      BeginDrain(c);
    }

    /** A listener that cannot be updated in place: replaced on a free socket, or deferred. */
    method Move(id: string, c: Client, want: Listener, fails: bool, owned: set<Socket>, deferred: set<string>, ghost g: nat)
      returns (owned': set<Socket>, deferred': set<string>)
      requires Tied() && id in clients && clients[id] == c && Normal(want.config) && want.config.connectionId == id
      requires c.config.socket !in holders && Recreate(c.config, want.config)
      modifies this`clients, this`draining, this`live, this`holders, c`accepting
      ensures Tied() && Loop(owned', deferred') == LoopStep(old(Loop(owned, deferred)), id, want, fails, g)
      ensures forall a :: a in clients ==> (a in old(clients) && clients[a] == old(clients)[a]) || fresh(clients[a])
    {
      owned', deferred' := owned, deferred;
      var canStage := c.config.socket != want.config.socket && want.config.socket !in owned;
      if canStage {
        var busy := DrainingOwnsSocket(want.config.socket);
        canStage := !busy;
      }
      MoveFields(Loop(owned, deferred), id, want, fails, g, canStage);
      if !canStage {
        deferred' := deferred + {id};
      } else if !fails {
        Replace(id, c, want);
        owned' := owned - {c.config.socket} + {want.config.socket};
      }
    }

    /** An id with a listener: updated in place where that is possible. */
    method ReconcileOld(id: string, c: Client, want: Listener, fails: bool, owned: set<Socket>, deferred: set<string>, ghost g: nat)
      returns (owned': set<Socket>, deferred': set<string>)
      requires Tied() && id in clients && clients[id] == c && Normal(want.config) && want.config.connectionId == id
      requires c.config.socket !in holders
      modifies this`clients, this`draining, this`live, this`holders, c`config, c`definition, c`accepting
      ensures Tied() && Loop(owned', deferred') == LoopStep(old(Loop(owned, deferred)), id, want, fails, g)
      ensures forall a :: a in clients ==> (a in old(clients) && clients[a] == old(clients)[a]) || fresh(clients[a])
    {
      if Recreate(c.config, want.config) {
        owned', deferred' := Move(id, c, want, fails, owned, deferred, g);
      } else {
        owned', deferred' := owned, deferred;
        RefreshListener(id, c, want);
      }
    }

    /** The main loop of Apply, over the sorted ids. */
    method Reconcile(ids: seq<string>, failing: set<string>) returns (deferred: set<string>, owned: set<Socket>)
      requires Tied() && WantsReady(desired, generation)
      requires forall i :: 0 <= i < |ids| ==>
                 NotHeldTwice(RunLoop(Loop(SocketsOf(live), {}), ids, i, desired, failing, generation), ids[i])
      modifies this`clients, this`draining, this`live, this`holders, this`retries
      modifies clients.Values`config, clients.Values`definition, clients.Values`accepting
      ensures Tied()
      ensures Loop(owned, deferred) == RunLoop(old(Loop(SocketsOf(live), {})), ids, |ids|, desired, failing, generation)
      ensures forall a :: a in clients ==> clients[a] in old(clients.Values) || fresh(clients[a])
    {
      deferred := {};
      owned := set id | id in clients :: clients[id].config.socket;
      assert owned == SocketsOf(live);
      ghost var start := Loop(owned, deferred);
      for i := 0 to |ids|
        invariant Tied() && Loop(owned, deferred) == RunLoop(start, ids, i, desired, failing, generation)
        invariant forall a :: a in clients ==> clients[a] in old(clients.Values) || fresh(clients[a])
      {
        owned, deferred := ReconcileOne(ids[i], failing, owned, deferred);
      }
    }

    method ReconcileOne(id: string, failing: set<string>, owned: set<Socket>, deferred: set<string>)
      returns (owned': set<Socket>, deferred': set<string>)
      requires Tied() && WantsReady(desired, generation) && NotHeldTwice(Loop(owned, deferred), id)
      modifies this`clients, this`draining, this`live, this`holders, this`retries
      modifies clients.Values`config, clients.Values`definition, clients.Values`accepting
      ensures Tied()
      ensures Loop(owned', deferred') == LoopStepFor(old(Loop(owned, deferred)), id, desired, failing, generation)
      ensures forall a :: a in clients ==> (a in old(clients) && clients[a] == old(clients)[a]) || fresh(clients[a])
    {
      owned', deferred' := owned, deferred;
      if id in desired {
        if id in clients {
          owned', deferred' := ReconcileOld(id, clients[id], desired[id], id in failing, owned, deferred, generation[id]);
        } else {
          owned', deferred' := ReconcileNew(id, desired[id], id in failing, owned, deferred, generation[id]);
        }
      }
    }

    ghost function Swept(): Sweep
      reads `live, `holders, `generation
    {
      Sweep(live, holders.Keys, generation)
    }

    /** The second loop of Apply, in the order the map happens to be visited: removed,
        credential-less and deferred listeners drain. */
    method DrainDisplaced(order: seq<string>, deferred: set<string>, missing: set<string>,
                          ghost want: map<string, Listener>, ghost start: Sweep)
      requires Tied() && desired == want && Swept() == start && SweepReady(start, order)
      modifies this`clients, this`draining, this`live, this`holders, this`generation
      modifies clients.Values`config, clients.Values`definition, clients.Values`accepting
      ensures Tied() && Swept() == SweepLeft(start, want, deferred, missing, {})
    {
      SweepEnds(start, order, want, deferred, missing);
      for i := 0 to |order|
        invariant Tied() && desired == want && Swept() == SweepUpTo(start, order, i, want, deferred, missing)
        invariant forall a :: a in clients ==> clients[a] in old(clients.Values)
      {
        SweepVisit(start, order, i, want, deferred, missing);
        DrainIfDisplaced(order[i], clients[order[i]], deferred, missing, want, Swept(),
                         SweepUpTo(start, order, i + 1, want, deferred, missing));
      }
    }

    method DrainIfDisplaced(id: string, c: Client, deferred: set<string>, missing: set<string>,
                            ghost want: map<string, Listener>, ghost before: Sweep, ghost after: Sweep)
      requires Tied() && desired == want && Swept() == before && CanLeave(before, id) && clients[id] == c
      requires after == SweepStep(before, want, deferred, missing, id)
      modifies this`clients, this`draining, this`live, this`holders, this`generation, c`accepting
      ensures Tied() && Swept() == after
      ensures desired == want && (clients == old(clients) || clients == old(clients) - {id})
    {
      RaiseIfGone(id, missing);
      if id !in desired || id in deferred {
        Retire(id, c);
      }
    }

    /** The generation of a listener that was removed, not just without credentials, goes up. */
    method RaiseIfGone(id: string, missing: set<string>)
      requires Tied()
      modifies this`generation
      ensures Tied()
      ensures generation == if id !in desired && id !in missing then Raised(old(generation), id) else old(generation)
    {
      if id !in desired && id !in missing {
        generation := generation[id := (if id in generation then generation[id] else 0) + 1];
      }
    }

    /** The last loop of Apply: every deferred connection gets its scheduler. */
    method ScheduleDeferred(deferred: set<string>, ghost s: State)
      requires forall id :: id in deferred ==> id in generation && generation[id] == Gen(s, id) + 1
      requires Tied()
      modifies this`retries
      ensures Tied() && Abs() == old(Abs()).(retries := old(retries) + multiset(RetriesOf(s, deferred)))
    {
      var rest := deferred;
      assert RetriesOf(s, deferred - rest) == {};
      while rest != {}
        invariant rest <= deferred
        invariant retries == old(retries) + multiset(RetriesOf(s, deferred - rest))
        decreases rest
      {
        var id :| id in rest;
        OneMoreRetry(s, deferred - rest, id);
        assert deferred - (rest - {id}) == (deferred - rest) + {id};
        rest := rest - {id};
        retries := retries + multiset{Retry(id, generation[id])};
      }
      assert deferred - rest == deferred;
    }

    /** Apply on a plan: from here on nothing fails but the starts named in failing. */
    method ApplyPlan(conns: seq<Connection>, missing: set<string>, failing: set<string>, ghost s: State, ghost plan: Plan)
      requires Tied() && SocketsExclusive(s) && UniqueIds(conns) && PlanSound(plan)
      requires plan.ids == Ids(conns) && plan.ids == plan.want.Keys + missing && NormalWants(plan.want)
      requires Abs() == s.(desired := plan.want, generation := Bumped(s.generation, plan.ids))
      modifies this`clients, this`draining, this`live, this`holders, this`generation, this`retries
      modifies clients.Values`config, clients.Values`definition, clients.Values`accepting
      ensures Tied() && Abs() == ApplyTo(s, plan, failing)
    {
      PlanReady(s, plan);
      var ids := SortedIds(conns);
      var deferred, owned := Visit(ids, failing, s);
      MainLoopExclusive(s, plan.want, failing, plan.ids, Loop(owned, deferred));
      Settle(deferred, missing, failing, s, plan, Loop(owned, deferred));
    }

    /** The loops after the main loop. */
    method Settle(deferred: set<string>, missing: set<string>, failing: set<string>,
                  ghost s: State, ghost plan: Plan, ghost m: MainLoop)
      requires Tied() && plan.ids == plan.want.Keys + missing && At(s, plan.want, failing, plan.ids, m)
      requires Abs() == State(m.live, m.draining, plan.want, Bumped(s.generation, plan.ids), m.retries, s.stopped)
      requires m.deferred == deferred && ExclusiveWith(m.live, m.draining)
      modifies this`clients, this`draining, this`live, this`holders, this`generation, this`retries
      modifies clients.Values`config, clients.Values`definition, clients.Values`accepting
      ensures Tied() && Abs() == ApplyTo(s, plan, failing)
    {
      DeferredReady(s, plan, m, missing);
      DrainAndSchedule(deferred, missing, s, plan.want, Sweep(m.live, m.draining, Bumped(s.generation, plan.ids)));
      Assemble(s, plan, failing, missing, m,
               SweepLeft(Sweep(m.live, m.draining, Bumped(s.generation, plan.ids)), plan.want, m.deferred, missing, {}), Abs());
    }

    method DrainAndSchedule(deferred: set<string>, missing: set<string>, ghost s: State,
                            ghost want: map<string, Listener>, ghost start: Sweep)
      requires Tied() && desired == want && Swept() == start && ExclusiveWith(start.live, start.draining)
      requires var g := SweepLeft(start, want, deferred, missing, {}).generation;
               forall id :: id in deferred ==> id in g && g[id] == Gen(s, id) + 1
      modifies this`clients, this`draining, this`live, this`holders, this`generation, this`retries
      modifies clients.Values`config, clients.Values`definition, clients.Values`accepting
      ensures Tied()
      ensures var end := SweepLeft(start, want, deferred, missing, {});
              Abs() == State(end.live, end.draining, want, end.generation,
                             old(retries) + multiset(RetriesOf(s, deferred)), old(stopped))
    {
      var order := IdsInSomeOrder();
      DrainDisplaced(order, deferred, missing, want, start);
      ScheduleDeferred(deferred, s);
    }

    /** The order in which ranging over the clients happens to visit them. */
    method IdsInSomeOrder() returns (order: seq<string>)
      requires Tied()
      ensures Tied() && Abs() == old(Abs()) && Distinct(order) && Members(order, |order|) == live.Keys
    {
      order := AnyOrder(clients.Keys);
    }

    /** The main loop, with what it leaves read off the state it started from. */
    method Visit(ids: seq<string>, failing: set<string>, ghost s: State) returns (deferred: set<string>, owned: set<Socket>)
      requires Tied() && SocketsExclusive(s) && Distinct(ids)
      requires live == s.live && holders.Keys == s.draining && retries == s.retries
      requires DistinctWants(desired) && WantsReady(desired, generation) && GenerationsReady(s, desired, generation)
      modifies this`clients, this`draining, this`live, this`holders, this`retries
      modifies clients.Values`config, clients.Values`definition, clients.Values`accepting
      ensures Tied() && desired == old(desired) && generation == old(generation)
      ensures At(s, desired, failing, Members(ids, |ids|), Loop(owned, deferred))
      ensures forall a :: a in clients ==> clients[a] in old(clients.Values) || fresh(clients[a])
    {
      ghost var m := Loop(SocketsOf(live), {});
      forall i | 0 <= i < |ids| ensures NotHeldTwice(RunLoop(m, ids, i, desired, failing, generation), ids[i]) {
        RunLoopNotHeldTwice(s, ids, desired, failing, generation, m, i);
      }
      RunLoopIsOrderFree(s, ids, |ids|, desired, failing, generation, m);
      deferred, owned := Reconcile(ids, failing);
    }

    /** Apply: reconciles the listeners with a saved definition. A definition that does not
        validate, or a stopped supervisor, changes nothing. */
    method Apply(d: Definition, passwords: map<string, string>, failing: set<string>) returns (v: Verdict, ghost plan: Plan)
      requires Valid()
      modifies this
      modifies clients.Values`config, clients.Values`definition, clients.Values`accepting
      modifies manager`definition, manager`maxConcurrentCalls
      ensures Valid()
      ensures v.Accepted? <==> !old(stopped) && ValidDefinition(d)
      ensures v.Rejected? ==> Abs() == old(Abs()) && autoPorts == old(autoPorts)
      ensures v.Rejected? ==> manager.Held() == old(manager.Held()) && manager.definition == old(manager.definition)
      ensures v.Accepted? ==> PlannedBy(d, passwords, old(autoPorts), autoPorts, plan)
      ensures v.Accepted? ==> Next(old(Abs()), SupervisorModel.Step.Apply(plan, failing), Abs())
      ensures v.Accepted? ==> manager.Held() == SessionsAfter(old(manager.Held()), Limit(d.maxConcurrentCalls))
      ensures v.Accepted? ==> manager.definition == d
    {
      plan := Plan({}, map[]);
      v := Validate(d);
      if v.Accepted? && stopped {
        v := Rejected("SIP supervisor is stopped");
      }
      if v.Accepted? {
        plan := ApplyAccepted(d, passwords, failing);
      }
    }

    method ApplyAccepted(d: Definition, passwords: map<string, string>, failing: set<string>) returns (ghost plan: Plan)
      requires Valid() && !stopped && ConnectionsOk(d.functions, d.connections)
      modifies this
      modifies clients.Values`config, clients.Values`definition, clients.Values`accepting
      modifies manager`definition, manager`maxConcurrentCalls
      ensures Valid() && PlannedBy(d, passwords, old(autoPorts), autoPorts, plan)
      ensures Next(old(Abs()), SupervisorModel.Step.Apply(plan, failing), Abs())
      ensures manager.Held() == SessionsAfter(old(manager.Held()), Limit(d.maxConcurrentCalls)) && manager.definition == d
    {
      TellManager(d);
      plan := ApplyValid(d, passwords, failing);
    }

    method TellManager(d: Definition)
      requires Tied()
      modifies manager`definition, manager`maxConcurrentCalls
      ensures Tied() && Abs() == old(Abs())
      ensures manager.Held() == SessionsAfter(old(manager.Held()), Limit(d.maxConcurrentCalls)) && manager.definition == d
    {
      manager.UpdateDefinition(d);
      manager.UpdateMaxConcurrentCalls(d.maxConcurrentCalls);
    }

    /** Apply, once the definition has passed validation. */
    method ApplyValid(d: Definition, passwords: map<string, string>, failing: set<string>) returns (ghost plan: Plan)
      requires Valid() && !stopped && ConnectionsOk(d.functions, d.connections)
      modifies this
      modifies clients.Values`config, clients.Values`definition, clients.Values`accepting
      ensures Valid() && PlannedBy(d, passwords, old(autoPorts), autoPorts, plan)
      ensures Next(old(Abs()), SupervisorModel.Step.Apply(plan, failing), Abs())
    {
      var work;
      work, plan := Prepare(d, passwords);
      ApplyWork(work, failing, plan);
    }

    /** The part of Apply that only computes. */
    method Prepare(d: Definition, passwords: map<string, string>) returns (work: Work, ghost plan: Plan)
      requires Tied() && ConnectionsOk(d.functions, d.connections)
      ensures Tied() && Abs() == old(Abs())
      ensures PlannedBy(d, passwords, autoPorts, work.autoPorts, plan) && WorkFor(work, generation, plan)
    {
      work, plan := MakePlan(d, passwords, autoPorts, generation);
    }

    /** Apply, once the plan is made. */
    method ApplyWork(work: Work, failing: set<string>, ghost plan: Plan)
      requires Valid() && !stopped && WorkFor(work, generation, plan)
      modifies this
      modifies clients.Values`config, clients.Values`definition, clients.Values`accepting
      ensures Valid() && autoPorts == work.autoPorts
      ensures Next(old(Abs()), SupervisorModel.Step.Apply(plan, failing), Abs())
    {
      ghost var s := Abs();
      InstallWork(work, failing, plan);
      StepKeepsInv(s, SupervisorModel.Step.Apply(plan, failing), Abs());
    }

    method InstallWork(work: Work, failing: set<string>, ghost plan: Plan)
      requires Tied() && SocketsExclusive(Abs()) && WorkFor(work, generation, plan)
      modifies this
      modifies clients.Values`config, clients.Values`definition, clients.Values`accepting
      ensures Tied() && desired == plan.want && autoPorts == work.autoPorts
      ensures Abs() == ApplyTo(old(Abs()), plan, failing)
    {
      ghost var s := Abs();
      Install(work, plan);
      ApplyPlan(work.conns, work.missing, failing, s, plan);
    }

    /** The fields that Apply sets before its loops run. */
    method Install(work: Work, ghost plan: Plan)
      requires Tied() && WorkFor(work, generation, plan)
      modifies this`autoPorts, this`desired, this`generation
      ensures Tied() && autoPorts == work.autoPorts
      ensures Abs() == old(Abs()).(desired := plan.want, generation := Bumped(old(Abs()).generation, plan.ids))
    {
      autoPorts, desired, generation := work.autoPorts, work.want, work.generation;
    }
  }
}
