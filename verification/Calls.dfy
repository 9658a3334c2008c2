// The call bookkeeping of core/sip/server.go: a listener counts the calls it is setting up
// and the calls it has registered, so that draining never cuts one off. Also the admission
// check of core/controller/manager.go.
module Calls {
  import opened SipConfig
  import opened ClientConfigs

  /** setup: accepted calls whose handler has neither released nor registered them yet. */
  datatype CallState = CallState(accepting: bool, pending: int, setup: set<string>, active: set<string>)

  datatype CallStep = Arrive(id: string) | Reject(id: string) | Promote(id: string) | Cleanup(id: string) | Drain | TearDown

  /** Which steps a handler can take; an arriving call carries a fresh id. */
  predicate Possible(s: CallState, step: CallStep) {
    match step
    case Arrive(id) => id !in s.setup && id !in s.active
    case Reject(id) => id in s.setup
    case Promote(id) => id in s.setup
    case _ => true
  }

  function After(s: CallState, step: CallStep): CallState {
    match step
    case Arrive(id) => if s.accepting then s.(pending := s.pending + 1, setup := s.setup + {id}) else s
    case Reject(id) => s.(pending := s.pending - 1, setup := s.setup - {id})
    case Promote(id) => s.(pending := s.pending - 1, setup := s.setup - {id}, active := s.active + {id})
    case Cleanup(id) => s.(active := s.active - {id})
    case Drain => s.(accepting := false)
    case TearDown => s.(active := {})
  }

  /** What ActiveCalls reports. */
  function InFlight(s: CallState): int { |s.active| + s.pending }

  ghost predicate Counted(s: CallState) { s.pending == |s.setup| && s.setup !! s.active }

  lemma OneFewer(ids: set<string>, id: string)
    ensures |ids - {id}| == |ids| - if id in ids then 1 else 0
  {
    if id !in ids { assert ids - {id} == ids; }
  }

  lemma OneMore(ids: set<string>, id: string)
    requires id !in ids
    ensures |ids + {id}| == |ids| + 1
  {
  }

  lemma Apart(setup: set<string>, active: set<string>, id: string)
    requires setup !! active
    ensures setup - {id} !! active && setup - {id} !! active + {id} && setup !! active - {id}
    ensures id !in active ==> setup + {id} !! active
  {
  }

  lemma PromoteCounted(s: CallState, id: string)
    requires Counted(s) && id in s.setup
    ensures Counted(After(s, Promote(id))) && InFlight(After(s, Promote(id))) == InFlight(s)
  {
    OneFewer(s.setup, id);
    OneMore(s.active, id);
    Apart(s.setup, s.active, id);
  }

  lemma StepKeepsCounted(s: CallState, step: CallStep)
    requires Counted(s) && Possible(s, step)
    ensures Counted(After(s, step))
    ensures !s.accepting ==> !After(s, step).accepting && InFlight(After(s, step)) <= InFlight(s)
  {
    match step {
      case Arrive(id) => OneMore(s.setup, id); Apart(s.setup, s.active, id);
      case Reject(id) => OneFewer(s.setup, id); Apart(s.setup, s.active, id);
      case Promote(id) => PromoteCounted(s, id);
      case Cleanup(id) => OneFewer(s.active, id); Apart(s.setup, s.active, id);
      case Drain =>
      case TearDown =>
    }
  }

  ghost predicate IsCallRun(run: seq<CallState>, steps: seq<CallStep>) {
    && |run| == |steps| + 1 && Counted(run[0])
    && forall i {:trigger steps[i]} :: 0 <= i < |steps| ==> Possible(run[i], steps[i]) && run[i + 1] == After(run[i], steps[i])
  }

  /** pendingCalls always equals the number of calls in setup, so it is never negative. */
  lemma {:induction false} PendingCounts(run: seq<CallState>, steps: seq<CallStep>, n: nat)
    requires IsCallRun(run, steps) && n < |run|
    ensures Counted(run[n]) && run[n].pending >= 0
  {
    if n > 0 {
      PendingCounts(run, steps, n - 1);
      StepKeepsCounted(run[n - 1], steps[n - 1]);
    }
  }

  /** Once draining, the number of calls in flight never grows. */
  lemma {:induction false} DrainingOnlyShrinks(run: seq<CallState>, steps: seq<CallStep>, m: nat, n: nat)
    requires IsCallRun(run, steps) && m <= n < |run| && !run[m].accepting
    ensures !run[n].accepting && InFlight(run[n]) <= InFlight(run[m])
    decreases n - m
  {
    if m < n {
      DrainingOnlyShrinks(run, steps, m, n - 1);
      PendingCounts(run, steps, n - 1);
      assert Possible(run[n - 1], steps[n - 1]);
      StepKeepsCounted(run[n - 1], steps[n - 1]);
    }
  }

  /** When the drain loop reads zero, no accepted call is in setup or registered, and none
      will be: stopping the listener then cuts nothing off. */
  lemma ZeroMeansIdleForGood(run: seq<CallState>, steps: seq<CallStep>, m: nat, n: nat)
    requires IsCallRun(run, steps) && m <= n < |run| && !run[m].accepting && InFlight(run[m]) == 0
    ensures run[n].setup == {} && run[n].active == {}
  {
    DrainingOnlyShrinks(run, steps, m, n);
    PendingCounts(run, steps, n);
  }

  /** While calls are still accepted a zero reading promises nothing about the next step. */
  lemma ZeroBeforeDrainIsNotFinal(s: CallState, id: string)
    requires Counted(s) && s.accepting && InFlight(s) == 0
    ensures Possible(s, Arrive(id)) && InFlight(After(s, Arrive(id))) == 1
  {
    assert s.setup == {} && s.active == {};
  }

  /** A call accepted before step n has been neither given up nor registered since. */
  ghost predicate StillInSetup(run: seq<CallState>, steps: seq<CallStep>, n: nat, id: string)
    requires n < |run| == |steps| + 1
  {
    exists k :: 0 <= k < n && steps[k] == Arrive(id) && run[k].accepting
                && forall j :: k < j < n ==> steps[j] != Reject(id) && steps[j] != Promote(id)
  }

  /** A call registered before step n has not been removed since. */
  ghost predicate StillRegistered(steps: seq<CallStep>, n: nat, id: string)
    requires n <= |steps|
  {
    exists k :: 0 <= k < n && steps[k] == Promote(id) && forall j :: k < j < n ==> steps[j] != Cleanup(id) && !steps[j].TearDown?
  }

  lemma SetupStep(run: seq<CallState>, steps: seq<CallStep>, n: nat, id: string)
    requires n < |steps| && |run| == |steps| + 1
    ensures StillInSetup(run, steps, n + 1, id) <==>
              (steps[n] == Arrive(id) && run[n].accepting)
              || (StillInSetup(run, steps, n, id) && steps[n] != Reject(id) && steps[n] != Promote(id))
  {
    if k :| 0 <= k < n && steps[k] == Arrive(id) && run[k].accepting
            && forall j :: k < j < n ==> steps[j] != Reject(id) && steps[j] != Promote(id)
    {
      if steps[n] != Reject(id) && steps[n] != Promote(id) {
        assert forall j :: k < j < n + 1 ==> steps[j] != Reject(id) && steps[j] != Promote(id);
      }
    }
  }

  lemma RegisteredStep(steps: seq<CallStep>, n: nat, id: string)
    requires n < |steps|
    ensures StillRegistered(steps, n + 1, id) <==>
              steps[n] == Promote(id) || (StillRegistered(steps, n, id) && steps[n] != Cleanup(id) && !steps[n].TearDown?)
  {
    if k :| 0 <= k < n && steps[k] == Promote(id) && forall j :: k < j < n ==> steps[j] != Cleanup(id) && !steps[j].TearDown? {
      if steps[n] != Cleanup(id) && !steps[n].TearDown? {
        assert forall j :: k < j < n + 1 ==> steps[j] != Cleanup(id) && !steps[j].TearDown?;
      }
    }
  }

  lemma CallsStep(s: CallState, step: CallStep, id: string)
    ensures var t := After(s, step);
            && (id in t.setup <==> (step == Arrive(id) && s.accepting) || (id in s.setup && step != Reject(id) && step != Promote(id)))
            && (id in t.active <==> step == Promote(id) || (id in s.active && step != Cleanup(id) && !step.TearDown?))
            && (t.accepting <==> s.accepting && !step.Drain?)
  {
  }

  lemma {:induction false} InSetup(run: seq<CallState>, steps: seq<CallStep>, n: nat, id: string)
    requires IsCallRun(run, steps) && n < |run| && run[0].setup == {}
    ensures id in run[n].setup <==> StillInSetup(run, steps, n, id)
  {
    if n > 0 {
      InSetup(run, steps, n - 1, id);
      assert run[n] == After(run[n - 1], steps[n - 1]);
      CallsStep(run[n - 1], steps[n - 1], id);
      SetupStep(run, steps, n - 1, id);
    }
  }

  lemma {:induction false} IsRegistered(run: seq<CallState>, steps: seq<CallStep>, n: nat, id: string)
    requires IsCallRun(run, steps) && n < |run| && run[0].active == {}
    ensures id in run[n].active <==> StillRegistered(steps, n, id)
  {
    if n > 0 {
      IsRegistered(run, steps, n - 1, id);
      assert run[n] == After(run[n - 1], steps[n - 1]);
      CallsStep(run[n - 1], steps[n - 1], id);
      RegisteredStep(steps, n - 1, id);
    }
  }

  lemma {:induction false} AcceptsUntilDrain(run: seq<CallState>, steps: seq<CallStep>, n: nat)
    requires IsCallRun(run, steps) && n < |run|
    ensures run[n].accepting <==> run[0].accepting && forall k :: 0 <= k < n ==> !steps[k].Drain?
  {
    if n > 0 {
      AcceptsUntilDrain(run, steps, n - 1);
      assert run[n] == After(run[n - 1], steps[n - 1]);
      CallsStep(run[n - 1], steps[n - 1], "");
    }
  }

  /** In every run from an idle listener, which calls are in setup and which are registered. */
  lemma WhereCallsAre(run: seq<CallState>, steps: seq<CallStep>, n: nat, id: string)
    requires IsCallRun(run, steps) && n < |run| && run[0].setup == {} && run[0].active == {}
    ensures id in run[n].setup <==> StillInSetup(run, steps, n, id)
    ensures id in run[n].active <==> StillRegistered(steps, n, id)
    ensures run[n].accepting <==> run[0].accepting && forall k :: 0 <= k < n ==> !steps[k].Drain?
  {
    InSetup(run, steps, n, id);
    IsRegistered(run, steps, n, id);
    AcceptsUntilDrain(run, steps, n);
  }

  /** core/sip/server.go Client, as far as its configuration and its calls go. */
  class Client {
    var config: ClientConfig
    var definition: Definition
    var accepting: bool
    var pendingCalls: int
    var activeCalls: set<string>
    var stopped: bool
    ghost var setup: set<string>

    ghost function State(): CallState reads this { CallState(accepting, pendingCalls, setup, activeCalls) }

    /** The pending counter is the number of calls in setup. */
    ghost predicate Sound() reads this { Counted(State()) }

    constructor (cfg: ClientConfig, def: Definition)
      ensures config == Normalize(cfg) && definition == def
      ensures State() == CallState(true, 0, {}, {}) && Sound() && !stopped
    {
      config, definition, stopped := Normalize(cfg), def, false;
      accepting, pendingCalls, activeCalls, setup := true, 0, {}, {};
    }

    /** beginIncomingCall: reserves a call and captures one coherent snapshot. */
    method BeginIncomingCall(id: string) returns (accepted: bool, cfg: ClientConfig, def: Definition)
      requires Possible(State(), Arrive(id))
      modifies this`pendingCalls, this`setup
      ensures State() == After(old(State()), Arrive(id))
      ensures accepted == accepting && (accepted ==> cfg == config && def == definition)
    {
      accepted, cfg, def := accepting, config, definition;
      if !accepting {
        return;
      }
      pendingCalls := pendingCalls + 1;
      setup := setup + {id};
    }

    /** The deferred release of a handler that gave up before registering its call. */
    method ReleasePendingCall(ghost id: string)
      requires Possible(State(), Reject(id))
      modifies this`pendingCalls, this`setup
      ensures State() == After(old(State()), Reject(id))
    {
      pendingCalls := pendingCalls - 1;
      setup := setup - {id};
    }

    /** The end of handleIncomingCall: the call is registered and its reservation dropped. */
    method RegisterCall(id: string)
      requires Possible(State(), Promote(id))
      modifies this`pendingCalls, this`setup, this`activeCalls
      ensures State() == After(old(State()), Promote(id))
    {
      activeCalls := activeCalls + {id};
      pendingCalls := pendingCalls - 1;
      setup := setup - {id};
    }

    /** cleanupCall: idempotent through the delete. */
    method CleanupCall(id: string) returns (existed: bool)
      modifies this`activeCalls
      ensures State() == After(old(State()), Cleanup(id)) && existed == (id in old(activeCalls))
    {
      existed := id in activeCalls;
      if existed {
        activeCalls := activeCalls - {id};
      }
    }

    method DrainCalls()
      modifies this`accepting
      ensures State() == After(old(State()), Drain)
    {
      accepting := false;
    }

    /** Stop ends the registered calls, once. */
    method Stop()
      modifies this`activeCalls, this`stopped
      ensures stopped && State() == if old(stopped) then old(State()) else After(old(State()), TearDown)
    {
      if !stopped {
        activeCalls, stopped := {}, true;
      }
    }

    method Update(cfg: ClientConfig, def: Definition)
      modifies this`config, this`definition
      ensures config == cfg && definition == def
    {
      config, definition := cfg, def;
    }

    method ActiveCalls() returns (n: int)
      ensures n == InFlight(State())
      ensures Sound() ==> (n == 0 <==> setup == {} && activeCalls == {})
    {
      n := |activeCalls| + pendingCalls;
    }
  }

  /** One step of a handler of calls. */
  method Handle(c: Client, step: CallStep)
    requires c.Sound() && Possible(c.State(), step) && !step.Drain? && !step.TearDown?
    modifies c`pendingCalls, c`setup, c`activeCalls
    ensures c.Sound() && c.State() == After(old(c.State()), step)
  {
    StepKeepsCounted(c.State(), step);
    match step
    case Arrive(id) => var _, _, _ := c.BeginIncomingCall(id);
    case Reject(id) => c.ReleasePendingCall(id);
    case Promote(id) => c.RegisterCall(id);
    case Cleanup(id) => var _ := c.CleanupCall(id);
  }

  // ------------------------------------------------- the call limit

  datatype Admission = Admitted | LimitReached | SessionExists | NoSuchEntrypoint

  /** A session runs the definition its call brought along. */
  datatype Session = Session(entrypoint: string, definition: Definition)

  /** What the session manager holds: its limit and the sessions by id. */
  datatype Sessions = Sessions(limit: int, running: map<string, Session>)

  datatype SessionStep = Create(id: string, entrypoint: string, def: Definition) | Remove(id: string) | Limit(max: int)

  function LimitFor(max: int): int { if max <= 0 then 10 else max }

  function Admit(s: Sessions, id: string, entrypoint: string, def: Definition): Admission {
    if |s.running| >= s.limit then LimitReached
    else if id in s.running then SessionExists
    else if entrypoint !in def.functions then NoSuchEntrypoint
    else Admitted
  }

  function SessionsAfter(s: Sessions, step: SessionStep): Sessions {
    match step
    case Create(id, entrypoint, def) =>
      if Admit(s, id, entrypoint, def).Admitted? then s.(running := s.running[id := Session(entrypoint, def)]) else s
    case Remove(id) => s.(running := s.running - {id})
    case Limit(max) => s.(limit := LimitFor(max))
  }

  predicate Begins(s: Sessions, step: SessionStep) { step.Create? && Admit(s, step.id, step.entrypoint, step.def).Admitted? }

  predicate Ends(s: Sessions, step: SessionStep) { step.Remove? && step.id in s.running }

  ghost predicate IsSessionRun(run: seq<Sessions>, steps: seq<SessionStep>) {
    |run| == |steps| + 1 && forall i {:trigger steps[i]} :: 0 <= i < |steps| ==> run[i + 1] == SessionsAfter(run[i], steps[i])
  }

  /** How many steps from m up to n end a session. */
  function Ended(run: seq<Sessions>, steps: seq<SessionStep>, m: nat, n: nat): nat
    requires |run| == |steps| + 1 && m <= n < |run|
    decreases n
  {
    if m == n then 0 else Ended(run, steps, m, n - 1) + if Ends(run[n - 1], steps[n - 1]) then 1 else 0
  }

  /** The limit is not set from step m up to step n. */
  predicate SameLimit(steps: seq<SessionStep>, m: nat, n: nat)
    requires n <= |steps|
  {
    forall i :: m <= i < n ==> !steps[i].Limit?
  }

  lemma SessionCount(s: Sessions, step: SessionStep)
    ensures |SessionsAfter(s, step).running|
              == |s.running| + (if Begins(s, step) then 1 else 0) - (if Ends(s, step) then 1 else 0)
  {
    if step.Create? {
      if Begins(s, step) { assert s.running[step.id := Session(step.entrypoint, step.def)].Keys == s.running.Keys + {step.id}; }
    } else if step.Remove? {
      assert (s.running - {step.id}).Keys == s.running.Keys - {step.id};
    }
  }

  /** Sessions go only by being ended, and none begins at the limit or above it. */
  lemma {:induction false} SessionsBetween(run: seq<Sessions>, steps: seq<SessionStep>, m: nat, n: nat)
    requires IsSessionRun(run, steps) && m <= n < |run| && SameLimit(steps, m, n)
    ensures run[n].limit == run[m].limit
    ensures |run[m].running| - Ended(run, steps, m, n) <= |run[n].running|
    ensures |run[n].running| <= |run[m].running| || |run[n].running| <= run[m].limit
    decreases n
  {
    if m < n {
      SessionsBetween(run, steps, m, n - 1);
      SessionCount(run[n - 1], steps[n - 1]);
    }
  }

  /** The first reason that holds refuses a session: the limit, its id, its entrypoint. */
  lemma AdmittedIff(s: Sessions, id: string, entrypoint: string, def: Definition)
    ensures var a := Admit(s, id, entrypoint, def);
            && (a == LimitReached <==> |s.running| >= s.limit)
            && (a == SessionExists <==> |s.running| < s.limit && id in s.running)
            && (a == NoSuchEntrypoint <==> |s.running| < s.limit && id !in s.running && entrypoint !in def.functions)
  {
  }

  /** A session begun before step n has not been ended since, and runs what it was begun with. */
  ghost predicate BegunWith(run: seq<Sessions>, steps: seq<SessionStep>, n: nat, id: string, x: Session)
    requires n < |run| == |steps| + 1
  {
    exists k :: 0 <= k < n && steps[k] == Create(id, x.entrypoint, x.definition) && x.entrypoint in x.definition.functions
                && id !in run[k].running && |run[k].running| < run[k].limit
                && forall j :: k < j < n ==> steps[j] != Remove(id)
  }

  predicate RunsAs(s: Sessions, id: string, x: Session) { id in s.running && s.running[id] == x }

  lemma RunsStep(s: Sessions, step: SessionStep, id: string, x: Session)
    ensures RunsAs(SessionsAfter(s, step), id, x) <==>
              || (step == Create(id, x.entrypoint, x.definition) && x.entrypoint in x.definition.functions
                  && id !in s.running && |s.running| < s.limit)
              || (RunsAs(s, id, x) && step != Remove(id))
  {
  }

  /** In every run the sessions are those begun below the limit in force, under a new id and at
      a function of the definition they brought, and not ended since; each runs what it was
      begun with. */
  lemma {:induction false} RunningSince(run: seq<Sessions>, steps: seq<SessionStep>, n: nat, id: string, x: Session)
    requires IsSessionRun(run, steps) && n < |run| && run[0].running == map[]
    ensures RunsAs(run[n], id, x) <==> BegunWith(run, steps, n, id, x)
  {
    if n > 0 {
      RunningSince(run, steps, n - 1, id, x);
      assert run[n] == SessionsAfter(run[n - 1], steps[n - 1]);
      RunsStep(run[n - 1], steps[n - 1], id, x);
      BegunStep(run, steps, n - 1, id, x);
    }
  }

  lemma BegunStep(run: seq<Sessions>, steps: seq<SessionStep>, n: nat, id: string, x: Session)
    requires n < |steps| && |run| == |steps| + 1
    ensures BegunWith(run, steps, n + 1, id, x) <==>
              || (steps[n] == Create(id, x.entrypoint, x.definition) && x.entrypoint in x.definition.functions
                  && id !in run[n].running && |run[n].running| < run[n].limit)
              || (BegunWith(run, steps, n, id, x) && steps[n] != Remove(id))
  {
    if k :| 0 <= k < n && steps[k] == Create(id, x.entrypoint, x.definition) && x.entrypoint in x.definition.functions
            && id !in run[k].running && |run[k].running| < run[k].limit && forall j :: k < j < n ==> steps[j] != Remove(id)
    {
      if steps[n] != Remove(id) { assert forall j :: k < j < n + 1 ==> steps[j] != Remove(id); }
    }
  }

  /** The limit in force is the last one set; 10 stands for one that is not positive. */
  lemma {:induction false} LimitInForce(run: seq<Sessions>, steps: seq<SessionStep>, m: nat, n: nat)
    requires IsSessionRun(run, steps) && m < n < |run| && steps[m].Limit? && SameLimit(steps, m + 1, n)
    ensures run[n].limit == if steps[m].max > 0 then steps[m].max else 10
  {
    assert run[m + 1] == SessionsAfter(run[m], steps[m]);
    SessionsBetween(run, steps, m + 1, n);
  }

  /** A new limit ends no session. When it is below their number, every call is turned away
      until so many have ended that their number is below it. */
  lemma LoweredLimit(run: seq<Sessions>, steps: seq<SessionStep>, m: nat, n: nat, id: string, entrypoint: string, def: Definition)
    requires IsSessionRun(run, steps) && m < n < |run| && steps[m].Limit? && SameLimit(steps, m + 1, n)
    ensures run[m + 1].running == run[m].running
    ensures Ended(run, steps, m + 1, n) <= |run[m].running| - LimitFor(steps[m].max) ==>
              Admit(run[n], id, entrypoint, def) == LimitReached
  {
    assert run[m + 1] == SessionsAfter(run[m], steps[m]);
    SessionsBetween(run, steps, m + 1, n);
  }

  /** Once the sessions are within the limit they stay within it until it is changed. */
  lemma WithinLimit(run: seq<Sessions>, steps: seq<SessionStep>, m: nat, n: nat)
    requires IsSessionRun(run, steps) && m <= n < |run| && SameLimit(steps, m, n)
    requires |run[m].running| <= run[m].limit
    ensures |run[n].running| <= run[n].limit
  {
    SessionsBetween(run, steps, m, n);
  }

  /** core/controller/manager.go SessionManager: one call limit shared by all listeners. */
  class SessionManager {
    var maxConcurrentCalls: int
    var sessions: map<string, Session>
    var definition: Definition

    ghost function Held(): Sessions reads this { Sessions(maxConcurrentCalls, sessions) }

    constructor (def: Definition, maxCalls: int)
      ensures Held() == Sessions(LimitFor(maxCalls), map[]) && definition == def
    {
      maxConcurrentCalls, sessions, definition := if maxCalls <= 0 then 10 else maxCalls, map[], def;
    }

    /** Keeps the latest definition. Sessions get the one their listener captured, not this one. */
    method UpdateDefinition(def: Definition)
      modifies this`definition
      ensures definition == def
    {
      definition := def;
    }

    method CreateSession(id: string, entrypoint: string, def: Definition) returns (r: Admission)
      modifies this`sessions
      ensures r == Admit(old(Held()), id, entrypoint, def)
      ensures Held() == SessionsAfter(old(Held()), Create(id, entrypoint, def))
      ensures |old(sessions)| <= maxConcurrentCalls ==> |sessions| <= maxConcurrentCalls
    {
      if |sessions| >= maxConcurrentCalls { return LimitReached; }
      if id in sessions { return SessionExists; }
      if entrypoint !in def.functions { return NoSuchEntrypoint; }
      sessions := sessions[id := Session(entrypoint, def)];
      r := Admitted;
    }

    method RemoveSession(id: string)
      modifies this`sessions
      ensures Held() == SessionsAfter(old(Held()), Remove(id))
    {
      if id in sessions {
        sessions := sessions - {id};
      }
    }

    method UpdateMaxConcurrentCalls(max: int)
      modifies this`maxConcurrentCalls
      ensures Held() == SessionsAfter(old(Held()), Limit(max))
    {
      maxConcurrentCalls := if max <= 0 then 10 else max;
    }
  }

  datatype Answer = NotFound | Routed(entrypoint: string, admission: Admission)

  /** handleIncomingCall after the call was accepted: l is the configuration and definition
      captured then, and the manager may have changed since. It picks a function and asks for a
      session, which on a servable listener never fails for the entrypoint. */
  method AnswerCall(l: Listener, m: SessionManager, id: string, called: string) returns (r: Answer)
    modifies m`sessions
    ensures var route := RouteOf(l, called);
            r == if route.found then Routed(route.entrypoint, Admit(old(m.Held()), id, route.entrypoint, l.definition)) else NotFound
    ensures m.Held() == if r.Routed? then SessionsAfter(old(m.Held()), Create(id, r.entrypoint, l.definition)) else old(m.Held())
    ensures r.Routed? && r.admission.Admitted? ==> id in m.sessions && m.sessions[id] == Session(r.entrypoint, l.definition)
    ensures r.Routed? && Servable(l) ==> !r.admission.NoSuchEntrypoint?
  {
    var route := ResolveEntrypoint(l.config.kind, l.config.entrypoint, l.config.routes, called);
    if !route.found {
      return NotFound;
    }
    ServableAnswers(l, called);
    var admission := m.CreateSession(id, route.entrypoint, l.definition);
    r := Routed(route.entrypoint, admission);
  }

  /** Whatever is saved, begun or ended between accepting a call and asking for its session,
      the entrypoint check cannot fail. */
  lemma CapturedPairAdmitted(l: Listener, later: Sessions, id: string, called: string)
    requires Servable(l)
    ensures RouteOf(l, called).found ==> !Admit(later, id, RouteOf(l, called).entrypoint, l.definition).NoSuchEntrypoint?
  {
    ServableAnswers(l, called);
  }

  /** cleanupCall, as far as the counters and the session go. */
  method EndCall(c: Client, m: SessionManager, id: string)
    modifies c`activeCalls, m`sessions
    ensures c.State() == After(old(c.State()), Cleanup(id))
    ensures m.Held() == if id in old(c.activeCalls) then SessionsAfter(old(m.Held()), Remove(id)) else old(m.Held())
    ensures id !in c.activeCalls && (id in old(c.activeCalls) ==> id !in m.sessions)
  {
    var existed := c.CleanupCall(id);
    if existed {
      m.RemoveSession(id);
    }
  }
}
