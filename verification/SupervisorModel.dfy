// core/sip/supervisor.go as a step system over values: what every run of Apply, retry
// ticks, finished drains and Stop keeps, and where the quiet runs end.
module SupervisorModel {
  import opened SipConfig
  import opened ClientConfigs

  datatype Retry = Retry(id: string, generation: nat)

  /** draining: the sockets still held by listeners that finish their calls. */
  datatype State = State(
    live: map<string, Listener>, draining: set<Socket>, desired: map<string, Listener>,
    generation: map<string, nat>, retries: multiset<Retry>, stopped: bool)

  function Sock(l: Listener): Socket { l.config.socket }

  function Gen(s: State, id: string): nat { if id in s.generation then s.generation[id] else 0 }

  function LiveSockets(s: State): set<Socket> { set id | id in s.live :: Sock(s.live[id]) }

  function Held(s: State): set<Socket> { LiveSockets(s) + s.draining }

  /** What Apply does with one desired connection, read off the state it started from. */
  datatype Fate = Start | Refresh | Stage | Defer

  function FateOf(s: State, id: string, want: Listener): Fate {
    if id !in s.live then (if Sock(want) in Held(s) then Defer else Start)
    else if !Recreate(s.live[id].config, want.config) then Refresh
    else if Sock(s.live[id]) != Sock(want) && Sock(want) !in Held(s) then Stage
    else Defer
  }

  /** The desired connection is retried later. */
  predicate Retried(s: State, want: map<string, Listener>, failing: set<string>, id: string)
    requires id in want
  {
    FateOf(s, id, want[id]).Defer? || (FateOf(s, id, want[id]).Start? && id in failing)
  }

  predicate StageFails(s: State, want: map<string, Listener>, failing: set<string>, id: string)
    requires id in want
  {
    FateOf(s, id, want[id]).Stage? && id in failing
  }

  /** The live listener gives way: it is removed, waits for a socket, or was replaced. */
  predicate Displaced(s: State, want: map<string, Listener>, failing: set<string>, id: string)
    requires id in s.live
  {
    id !in want || FateOf(s, id, want[id]).Defer? || (FateOf(s, id, want[id]).Stage? && id !in failing)
  }

  function LiveAfter(s: State, want: map<string, Listener>, failing: set<string>): map<string, Listener> {
    map id | id in want && !Retried(s, want, failing, id)
      :: if StageFails(s, want, failing, id) then s.live[id] else want[id]
  }

  function DisplacedSockets(s: State, want: map<string, Listener>, failing: set<string>): set<Socket> {
    set id | id in s.live && Displaced(s, want, failing, id) :: Sock(s.live[id])
  }

  function GenerationAfter(s: State, ids: set<string>): map<string, nat> {
    map id | id in s.generation.Keys + ids + s.live.Keys
      :: Gen(s, id) + if id in ids || id in s.live then 1 else 0
  }

  function NewRetries(s: State, want: map<string, Listener>, failing: set<string>): set<Retry> {
    set id | id in want && Retried(s, want, failing, id) :: Retry(id, Gen(s, id) + 1)
  }

  /** The outcome of Apply: no connection's fate depends on the order they are visited in.
      failing names the connections whose listener cannot be started this time. */
  function ApplyTo(s: State, plan: Plan, failing: set<string>): State {
    State(LiveAfter(s, plan.want, failing),
          s.draining + DisplacedSockets(s, plan.want, failing),
          plan.want,
          GenerationAfter(s, plan.ids),
          s.retries + multiset(NewRetries(s, plan.want, failing)),
          s.stopped)
  }

  // ----------------------------------------------------------- other steps

  predicate Stale(s: State, r: Retry) {
    s.stopped || Gen(s, r.id) != r.generation || r.id in s.live || r.id !in s.desired
  }

  /** One turn of a scheduler loop; ok says whether a start attempted now succeeds. */
  function TickTo(s: State, r: Retry, ok: bool): State {
    if Stale(s, r) then s.(retries := s.retries - multiset{r})
    else if Sock(s.desired[r.id]) in Held(s) || !ok then s
    else s.(live := s.live[r.id := s.desired[r.id]], retries := s.retries - multiset{r})
  }

  /** Idle: nothing happens, so that a run can go on after the last drain and retry. */
  datatype Step =
    | Apply(plan: Plan, failing: set<string>)
    | Tick(retry: Retry, ok: bool)
    | Drained(socket: Socket)
    | Idle
    | Stop

  ghost predicate Next(s: State, step: Step, t: State) {
    match step
    case Apply(plan, failing) => !s.stopped && PlanSound(plan) && t == ApplyTo(s, plan, failing)
    case Tick(r, ok) => r in s.retries && t == TickTo(s, r, ok)
    case Drained(k) => k in s.draining && t == s.(draining := s.draining - {k})
    case Idle => t == s
    case Stop => t == s.(live := map[], stopped := true)
  }

  const INITIAL := State(map[], {}, map[], map[], multiset{}, false)

  // ------------------------------------------------------------- invariant

  ghost predicate SocketsExclusive(s: State) {
    && (forall a, b :: a in s.live && b in s.live && a != b ==> Sock(s.live[a]) != Sock(s.live[b]))
    && (forall a :: a in s.live ==> Sock(s.live[a]) !in s.draining)
  }

  ghost predicate DesiredSound(s: State) {
    && (forall a, b :: a in s.desired && b in s.desired && a != b ==> Sock(s.desired[a]) != Sock(s.desired[b]))
    && (forall a :: a in s.desired ==> s.desired[a].config.connectionId == a)
  }

  ghost predicate LiveSound(s: State) {
    && (!s.stopped ==> s.live.Keys <= s.desired.Keys) && (s.stopped ==> s.live == map[])
    && (forall a :: a in s.live ==> s.live[a].config.connectionId == a)
  }

  function Pending(s: State, id: string): nat { s.retries[Retry(id, Gen(s, id))] }

  ghost predicate RetriesSound(s: State) {
    && (forall r :: r in s.retries ==> r.generation <= Gen(s, r.id))
    && (forall id {:trigger Pending(s, id)} :: Pending(s, id) <= 1)
    && (forall id :: id in s.live ==> Pending(s, id) == 0)
    && (!s.stopped ==> forall id :: id in s.desired && id !in s.live ==> Pending(s, id) == 1)
  }

  ghost predicate Inv(s: State) {
    && SocketsExclusive(s) && DesiredSound(s) && LiveSound(s) && RetriesSound(s)
    && AllServable(s.desired) && AllServable(s.live)
  }

  // ----------------------------------------------------- Apply keeps it

  /** A surviving listener stands on a socket nobody held, or on the one it held before. */
  lemma SurvivorSocket(s: State, want: map<string, Listener>, failing: set<string>, id: string)
    requires id in LiveAfter(s, want, failing)
    ensures var k := Sock(LiveAfter(s, want, failing)[id]);
            || (k == Sock(want[id]) && k !in Held(s))
            || (id in s.live && k == Sock(s.live[id]) && !Displaced(s, want, failing, id))
  {
  }

  lemma ApplyKeepsSocketsExclusive(s: State, want: map<string, Listener>, failing: set<string>)
    requires SocketsExclusive(s)
    requires forall a, b :: a in want && b in want && a != b ==> Sock(want[a]) != Sock(want[b])
    ensures var live := LiveAfter(s, want, failing);
            && (forall a, b :: a in live && b in live && a != b ==> Sock(live[a]) != Sock(live[b]))
            && (forall a :: a in live ==> Sock(live[a]) !in s.draining + DisplacedSockets(s, want, failing))
  {
    var live := LiveAfter(s, want, failing);
    forall a, b | a in live && b in live && a != b ensures Sock(live[a]) != Sock(live[b]) {
      SurvivorSocket(s, want, failing, a);
      SurvivorSocket(s, want, failing, b);
    }
    forall a | a in live ensures Sock(live[a]) !in s.draining + DisplacedSockets(s, want, failing) {
      SurvivorSocket(s, want, failing, a);
    }
  }

  /** Apply raises the generations it schedules retries for, so older retries are not current. */
  lemma ApplyGenerations(s: State, plan: Plan, failing: set<string>, id: string)
    requires plan.want.Keys <= plan.ids
    ensures var t := ApplyTo(s, plan, failing);
            Gen(t, id) == Gen(s, id) + if id in plan.ids || id in s.live then 1 else 0
  {
  }

  lemma NewRetryIf(s: State, want: map<string, Listener>, failing: set<string>, id: string, g: nat)
    ensures Retry(id, g) in NewRetries(s, want, failing) <==> id in want && Retried(s, want, failing, id) && g == Gen(s, id) + 1
  {
  }

  /** After Apply a wanted connection has one retry of its new generation if it waits, else none. */
  lemma ApplyPending(s: State, plan: Plan, failing: set<string>, id: string)
    requires RetriesSound(s) && plan.want.Keys <= plan.ids
    ensures var t := ApplyTo(s, plan, failing);
            && Gen(s, id) <= Gen(t, id) && Pending(t, id) <= 1
            && (id in plan.want ==> Pending(t, id) == if Retried(s, plan.want, failing, id) then 1 else 0)
  {
    var t, added := ApplyTo(s, plan, failing), NewRetries(s, plan.want, failing);
    var r := Retry(id, Gen(t, id));
    ApplyGenerations(s, plan, failing, id);
    NewRetryIf(s, plan.want, failing, id, Gen(t, id));
    assert Pending(t, id) == s.retries[r] + if r in added then 1 else 0;
    if Gen(t, id) == Gen(s, id) {
      assert s.retries[r] == Pending(s, id);
    } else {
      assert r !in s.retries;
    }
  }

  lemma ApplyKeepsRetriesSound(s: State, plan: Plan, failing: set<string>)
    requires RetriesSound(s) && plan.want.Keys <= plan.ids && !s.stopped
    ensures RetriesSound(ApplyTo(s, plan, failing))
  {
    var t := ApplyTo(s, plan, failing);
    forall id
      ensures Pending(t, id) <= 1 && Gen(s, id) <= Gen(t, id)
      ensures id in t.live ==> Pending(t, id) == 0
      ensures id in t.desired && id !in t.live ==> Pending(t, id) == 1
    {
      ApplyPending(s, plan, failing, id);
    }
    forall r | r in t.retries ensures r.generation <= Gen(t, r.id) {
      ApplyPending(s, plan, failing, r.id);
      if r !in s.retries {
        assert r in NewRetries(s, plan.want, failing);
      }
    }
  }

  lemma ApplyKeepsLiveSound(s: State, plan: Plan, failing: set<string>)
    requires LiveSound(s) && !s.stopped && PlanSound(plan)
    ensures LiveSound(ApplyTo(s, plan, failing)) && DesiredSound(ApplyTo(s, plan, failing))
  {
  }

  lemma ApplyKeepsServable(s: State, want: map<string, Listener>, failing: set<string>)
    requires AllServable(s.live) && AllServable(want)
    ensures AllServable(LiveAfter(s, want, failing))
  {
    var live := LiveAfter(s, want, failing);
    forall a | a in live ensures Servable(live[a]) {
      assert live[a] == want[a] || (a in s.live && live[a] == s.live[a]);
    }
  }

  lemma ApplyKeepsInv(s: State, plan: Plan, failing: set<string>)
    requires Inv(s) && !s.stopped && PlanSound(plan)
    ensures Inv(ApplyTo(s, plan, failing))
  {
    ApplyKeepsLiveSound(s, plan, failing);
    ApplyKeepsSocketsExclusive(s, plan.want, failing);
    ApplyKeepsRetriesSound(s, plan, failing);
    ApplyKeepsServable(s, plan.want, failing);
  }

  // ------------------------------------------ what Apply does, case by case

  /** A listener that runs and is wanted on the socket it has: it goes on, with what is wanted
      now, exactly when nothing it was bound or registered with has changed. Otherwise it
      drains, and its connection has one retry of the new generation. */
  lemma SameSocketOutcome(s: State, plan: Plan, failing: set<string>, id: string)
    requires Inv(s) && PlanSound(plan) && !s.stopped
    requires id in s.live && id in plan.want && Sock(s.live[id]) == Sock(plan.want[id])
    ensures var t, a, b := ApplyTo(s, plan, failing), s.live[id].config.identity, plan.want[id].config.identity;
            && (id in t.live <==> a.externalIP == b.externalIP && a.inboundOnly == b.inboundOnly && a.registration == b.registration
                                  && a.server == b.server && a.extension == b.extension && a.domain == b.domain)
            && (id in t.live ==> t.live[id] == plan.want[id] && Sock(s.live[id]) !in t.draining && Pending(t, id) == 0)
            && (id !in t.live ==> Sock(s.live[id]) in t.draining && Pending(t, id) == 1)
            && Gen(t, id) == Gen(s, id) + 1
  {
    ApplyKeepsInv(s, plan, failing);
    ApplyPending(s, plan, failing, id);
    ApplyGenerations(s, plan, failing, id);
    var a, b := s.live[id].config.identity, plan.want[id].config.identity;
    assert a == b <==> a.externalIP == b.externalIP && a.inboundOnly == b.inboundOnly && a.registration == b.registration
                       && a.server == b.server && a.extension == b.extension && a.domain == b.domain;
  }

  /** A listener that is wanted on another socket: a free one is taken at once, unless the start
      fails, which leaves the old listener; for one in use the listener drains and is retried. */
  lemma OtherSocketOutcome(s: State, plan: Plan, failing: set<string>, id: string)
    requires Inv(s) && PlanSound(plan) && !s.stopped
    requires id in s.live && id in plan.want && Sock(s.live[id]) != Sock(plan.want[id])
    ensures var t, inUse := ApplyTo(s, plan, failing), exists a :: a in s.live && Sock(s.live[a]) == Sock(plan.want[id]);
            if inUse || Sock(plan.want[id]) in s.draining then
              id !in t.live && Sock(s.live[id]) in t.draining && Pending(t, id) == 1
            else if id in failing then
              id in t.live && t.live[id] == s.live[id] && Sock(s.live[id]) !in t.draining && Pending(t, id) == 0
            else
              id in t.live && t.live[id] == plan.want[id] && Sock(s.live[id]) in t.draining && Pending(t, id) == 0
  {
    ApplyKeepsInv(s, plan, failing);
    ApplyPending(s, plan, failing, id);
    HeldIff(s, Sock(plan.want[id]));
    if FateOf(s, id, plan.want[id]).Stage? && id in failing {
      SurvivorNotDraining(s, plan, failing, id);
    }
  }

  lemma HeldIff(s: State, k: Socket)
    ensures k in Held(s) <==> (exists a :: a in s.live && Sock(s.live[a]) == k) || k in s.draining
  {
  }

  lemma SurvivorNotDraining(s: State, plan: Plan, failing: set<string>, id: string)
    requires Inv(ApplyTo(s, plan, failing)) && id in ApplyTo(s, plan, failing).live
    ensures Sock(ApplyTo(s, plan, failing).live[id]) !in ApplyTo(s, plan, failing).draining
  {
  }

  /** A connection without a listener starts on a socket that is free, and is retried when the
      socket is in use or the start fails. */
  lemma NewListenerOutcome(s: State, plan: Plan, failing: set<string>, id: string)
    requires Inv(s) && PlanSound(plan) && !s.stopped && id !in s.live && id in plan.want
    ensures var t, inUse := ApplyTo(s, plan, failing), exists a :: a in s.live && Sock(s.live[a]) == Sock(plan.want[id]);
            if inUse || Sock(plan.want[id]) in s.draining || id in failing then id !in t.live && Pending(t, id) == 1
            else id in t.live && t.live[id] == plan.want[id] && Pending(t, id) == 0
  {
    ApplyPending(s, plan, failing, id);
    HeldIff(s, Sock(plan.want[id]));
  }

  /** A listener that is no longer wanted drains and is not retried. */
  lemma UnwantedOutcome(s: State, plan: Plan, failing: set<string>, id: string)
    requires Inv(s) && PlanSound(plan) && !s.stopped && id in s.live && id !in plan.want
    ensures var t := ApplyTo(s, plan, failing);
            id !in t.live && Sock(s.live[id]) in t.draining && Gen(t, id) == Gen(s, id) + 1 && Pending(t, id) == 0
  {
    var t := ApplyTo(s, plan, failing);
    ApplyGenerations(s, plan, failing, id);
    NewRetryIf(s, plan.want, failing, id, Gen(t, id));
    assert Retry(id, Gen(t, id)) !in s.retries;
  }

  /** The listener of id is gone or has moved to another socket. */
  predicate HasLeft(s: State, t: State, id: string)
    requires id in s.live
  {
    id in t.live ==> Sock(t.live[id]) != Sock(s.live[id])
  }

  lemma DisplacedHasLeft(s: State, plan: Plan, failing: set<string>, id: string)
    requires id in s.live
    ensures Displaced(s, plan.want, failing, id) <==> HasLeft(s, ApplyTo(s, plan, failing), id)
  {
  }

  /** Exactly the sockets drain that drained before or that a listener has left. */
  lemma DrainingIff(s: State, plan: Plan, failing: set<string>, k: Socket)
    ensures var t := ApplyTo(s, plan, failing);
            k in t.draining <==> (k in s.draining || exists id :: id in s.live && Sock(s.live[id]) == k && HasLeft(s, t, id))
  {
    forall id | id in s.live
      ensures Displaced(s, plan.want, failing, id) <==> HasLeft(s, ApplyTo(s, plan, failing), id)
    {
      DisplacedHasLeft(s, plan, failing, id);
    }
  }

  /** Nothing runs that is not wanted, and retries scheduled before stay with their schedulers. */
  lemma RestOfApply(s: State, plan: Plan, failing: set<string>)
    ensures var t := ApplyTo(s, plan, failing);
            t.live.Keys <= plan.want.Keys && t.desired == plan.want && s.retries <= t.retries && t.stopped == s.stopped
  {
  }

  /** One turn of a scheduler, seen from outside: it starts the listener exactly when it has not
      been overtaken, the socket is free and the start succeeds, and it is over exactly when it
      started the listener or was overtaken. */
  lemma TickOutcome(s: State, r: Retry, ok: bool)
    requires r in s.retries
    ensures var t := TickTo(s, r, ok);
            var overtaken := s.stopped || Gen(s, r.id) != r.generation || r.id in s.live || r.id !in s.desired;
            var starts := !overtaken && ok && Sock(s.desired[r.id]) !in s.draining
                          && forall a :: a in s.live ==> Sock(s.live[a]) != Sock(s.desired[r.id]);
            && t.live == (if starts then s.live[r.id := s.desired[r.id]] else s.live)
            && t.retries[r] == s.retries[r] - (if starts || overtaken then 1 else 0)
            && t.draining == s.draining && t.desired == s.desired && t.generation == s.generation && t.stopped == s.stopped
  {
    RemoveOne(s.retries, r);
    if r.id in s.desired { HeldIff(s, Sock(s.desired[r.id])); }
  }

  lemma RemoveOne(m: multiset<Retry>, r: Retry)
    requires r in m
    ensures m - multiset{r} <= m && |m - multiset{r}| == |m| - 1 && m - multiset{r} != m
    ensures forall x :: x in m - multiset{r} ==> x in m
    ensures (m - multiset{r})[r] == m[r] - 1
  {
  }

  lemma PendingAfterTick(s: State, r: Retry, t: State, id: string)
    requires r in s.retries && t.retries == s.retries - multiset{r} && t.generation == s.generation
    ensures Pending(t, id) == Pending(s, id) - if r == Retry(id, Gen(s, id)) then 1 else 0
  {
  }

  lemma TickKeepsRetriesSound(s: State, r: Retry, t: State)
    requires RetriesSound(s) && r in s.retries && t.retries == s.retries - multiset{r}
    requires t.generation == s.generation && t.desired == s.desired && t.stopped == s.stopped
    requires (t.live == s.live && Stale(s, r))
             || (!Stale(s, r) && t.live == s.live[r.id := s.desired[r.id]])
    ensures RetriesSound(t)
  {
    RemoveOne(s.retries, r);
    assert Pending(s, r.id) == s.retries[Retry(r.id, Gen(s, r.id))];
    forall id
      ensures Pending(t, id) <= 1 && (id in t.live ==> Pending(t, id) == 0)
      ensures !t.stopped && id in t.desired && id !in t.live ==> Pending(t, id) == 1
    {
      PendingAfterTick(s, r, t, id);
    }
  }

  lemma StartedRetryKeepsSockets(s: State, r: Retry, t: State)
    requires SocketsExclusive(s) && r.id in s.desired && Sock(s.desired[r.id]) !in Held(s)
    requires t == s.(live := s.live[r.id := s.desired[r.id]], retries := t.retries)
    ensures SocketsExclusive(t)
  {
    forall a | a in s.live ensures Sock(s.live[a]) != Sock(s.desired[r.id]) {
      assert Sock(s.live[a]) in LiveSockets(s);
    }
  }

  lemma SamePendingKeepsRetriesSound(s: State, t: State)
    requires RetriesSound(s) && t.retries == s.retries && t.generation == s.generation
    requires t.desired == s.desired && (t.live == s.live || t.live == map[])
    requires t.stopped || (t.live == s.live && !s.stopped)
    ensures RetriesSound(t)
  {
    forall id ensures Pending(t, id) == Pending(s, id) {}
  }

  lemma StartedRetryKeepsLive(s: State, id: string, t: State)
    requires LiveSound(s) && DesiredSound(s) && !s.stopped && id in s.desired
    requires t.desired == s.desired && t.stopped == s.stopped && t.live == s.live[id := s.desired[id]]
    ensures LiveSound(t) && DesiredSound(t)
  {
  }

  lemma StartedRetryKeepsServable(live: map<string, Listener>, desired: map<string, Listener>, id: string)
    requires AllServable(live) && AllServable(desired) && id in desired
    ensures AllServable(live[id := desired[id]])
  {
    var more := live[id := desired[id]];
    forall a | a in more ensures Servable(more[a]) {
      assert more[a] == if a == id then desired[id] else live[a];
    }
  }

  lemma StartedRetryKeepsInv(s: State, r: Retry, t: State)
    requires Inv(s) && r in s.retries && !Stale(s, r) && Sock(s.desired[r.id]) !in Held(s)
    requires t == s.(live := s.live[r.id := s.desired[r.id]], retries := s.retries - multiset{r})
    ensures Inv(t)
  {
    TickKeepsRetriesSound(s, r, t);
    StartedRetryKeepsSockets(s, r, t);
    StartedRetryKeepsLive(s, r.id, t);
    StartedRetryKeepsServable(s.live, s.desired, r.id);
  }

  lemma TickKeepsInv(s: State, r: Retry, ok: bool)
    requires Inv(s) && r in s.retries
    ensures Inv(TickTo(s, r, ok))
  {
    if Stale(s, r) {
      TickKeepsRetriesSound(s, r, TickTo(s, r, ok));
    } else if TickTo(s, r, ok) != s {
      StartedRetryKeepsInv(s, r, TickTo(s, r, ok));
    }
  }

  /** Every step keeps the invariant. */
  lemma StepKeepsInv(s: State, step: Step, t: State)
    requires Inv(s) && Next(s, step, t)
    ensures Inv(t)
  {
    match step {
      case Apply(plan, failing) => ApplyKeepsInv(s, plan, failing);
      case Tick(r, ok) => TickKeepsInv(s, r, ok);
      case Drained(k) => SamePendingKeepsRetriesSound(s, t);
      case Idle =>
      case Stop => SamePendingKeepsRetriesSound(s, t);
    }
  }

  ghost predicate IsRun(run: seq<State>, steps: seq<Step>) {
    && |run| == |steps| + 1 && run[0] == INITIAL
    && forall i :: 0 <= i < |steps| ==> Next(run[i], steps[i], run[i + 1])
  }

  /** The invariant holds in every state of every run, whatever the interleaving. */
  lemma {:induction false} RunsKeepInv(run: seq<State>, steps: seq<Step>, n: nat)
    requires IsRun(run, steps) && n < |run|
    ensures Inv(run[n])
  {
    if n > 0 {
      RunsKeepInv(run, steps, n - 1);
      StepKeepsInv(run[n - 1], steps[n - 1], run[n]);
    }
  }

  // ------------------------------------------------------ safety results

  /** No socket is ever held twice, by live or draining listeners alike. */
  lemma NoSocketHeldTwice(run: seq<State>, steps: seq<Step>, n: nat)
    requires IsRun(run, steps) && n < |run|
    ensures SocketsExclusive(run[n])
  {
    RunsKeepInv(run, steps, n);
  }

  /** Until Stop, a desired connection is served or has exactly one current retry. */
  lemma LiveOrRetried(run: seq<State>, steps: seq<Step>, n: nat, id: string)
    requires IsRun(run, steps) && n < |run| && !run[n].stopped && id in run[n].desired
    ensures Pending(run[n], id) == if id in run[n].live then 0 else 1
  {
    RunsKeepInv(run, steps, n);
  }

  lemma SurvivesAsWanted(s: State, want: map<string, Listener>, failing: set<string>, id: string)
    requires id in LiveAfter(s, want, failing)
    requires id !in s.live || s.live[id] != LiveAfter(s, want, failing)[id]
    ensures id in want && LiveAfter(s, want, failing)[id] == want[id]
  {
  }

  /** Whatever starts or changes, starts with the configuration of the latest Apply. */
  lemma StartedFromLatestApply(s: State, step: Step, t: State, id: string)
    requires Next(s, step, t)
    requires id in t.live && (id !in s.live || s.live[id] != t.live[id])
    ensures id in t.desired && t.live[id] == t.desired[id]
  {
    if step.Apply? {
      SurvivesAsWanted(s, step.plan.want, step.failing, id);
    }
  }

  /** Every listener that runs is, configuration and definition together, what some
      earlier Apply asked for: a failed replacement never mixes two saves. */
  lemma {:induction false} LiveFromOneApply(run: seq<State>, steps: seq<Step>, n: nat, id: string) returns (k: nat)
    requires IsRun(run, steps) && n < |run| && id in run[n].live
    ensures k < n && steps[k].Apply? && id in steps[k].plan.want && run[n].live[id] == steps[k].plan.want[id]
  {
    RunsKeepInv(run, steps, n - 1);
    var s, t := run[n - 1], run[n];
    assert Next(s, steps[n - 1], t);
    if id in s.live && s.live[id] == t.live[id] {
      k := LiveFromOneApply(run, steps, n - 1, id);
    } else {
      StartedFromLatestApply(s, steps[n - 1], t, id);
      k := DesiredFromOneApply(run, steps, n, id);
    }
  }

  lemma {:induction false} DesiredFromOneApply(run: seq<State>, steps: seq<Step>, n: nat, id: string) returns (k: nat)
    requires IsRun(run, steps) && n < |run| && id in run[n].desired
    ensures k < n && steps[k].Apply? && id in steps[k].plan.want && run[n].desired[id] == steps[k].plan.want[id]
  {
    assert Next(run[n - 1], steps[n - 1], run[n]);
    if steps[n - 1].Apply? {
      k := n - 1;
    } else {
      k := DesiredFromOneApply(run, steps, n - 1, id);
    }
  }

  /** In every run, every entrypoint a running listener resolves names a function of the
      definition that runs it, failed replacements included. */
  lemma EntrypointsExist(run: seq<State>, steps: seq<Step>, n: nat, id: string, called: string)
    requires IsRun(run, steps) && n < |run| && id in run[n].live
    ensures var l := run[n].live[id];
            RouteOf(l, called).found ==> RouteOf(l, called).entrypoint in l.definition.functions
  {
    RunsKeepInv(run, steps, n);
    assert Servable(run[n].live[id]);
    ServableAnswers(run[n].live[id], called);
  }

  /** After Stop nothing is served again. */
  lemma {:induction false} StoppedForever(run: seq<State>, steps: seq<Step>, m: nat, n: nat)
    requires IsRun(run, steps) && m <= n < |run| && run[m].stopped
    ensures run[n].stopped && run[n].live == map[]
    decreases n - m
  {
    if m == n {
      RunsKeepInv(run, steps, n);
    } else {
      StoppedForever(run, steps, m, n - 1);
      assert Next(run[n - 1], steps[n - 1], run[n]);
    }
  }

  // -------------------------------------------------------- convergence

  predicate Quiet(step: Step) { step.Tick? || step.Drained? || step.Idle? }

  /** Every listener that runs, runs what is desired. */
  predicate Synced(s: State) {
    forall id :: id in s.live ==> id in s.desired && s.live[id] == s.desired[id]
  }

  /** Apply leaves a listener behind exactly when a staged replacement failed. */
  lemma SyncedUnlessStageFailed(s: State, plan: Plan, failing: set<string>)
    ensures Synced(ApplyTo(s, plan, failing)) <==>
              forall id :: id in plan.want ==> !StageFails(s, plan.want, failing, id)
  {
    var t := ApplyTo(s, plan, failing);
    forall id | id in plan.want && StageFails(s, plan.want, failing, id)
      ensures id in t.live && t.live[id] != t.desired[id]
    {
      assert Recreate(s.live[id].config, plan.want[id].config);
    }
  }

  function Work(s: State): nat { |s.draining| + |s.retries| }

  /** t comes after s in a quiet run: nothing desired changed and no listener was disturbed. */
  ghost predicate Follows(s: State, t: State) {
    && t.desired == s.desired && t.stopped == s.stopped && t.generation == s.generation
    && t.draining <= s.draining && t.retries <= s.retries
    && (forall id :: id in s.live ==> id in t.live && t.live[id] == s.live[id])
    && (Synced(s) ==> Synced(t))
  }

  lemma FollowsTransitive(s: State, t: State, u: State)
    requires Follows(s, t) && Follows(t, u)
    ensures Follows(s, u)
  {
  }

  lemma TickFollows(s: State, r: Retry, t: State)
    requires r in s.retries && t.retries == s.retries - multiset{r}
    requires t.(live := s.live, retries := s.retries) == s
    requires t.live == s.live || (r.id !in s.live && r.id in s.desired && t.live == s.live[r.id := s.desired[r.id]])
    ensures Follows(s, t) && t != s && Work(t) == Work(s) - 1
  {
    RemoveOne(s.retries, r);
  }

  /** A quiet step that changes anything uses up a drain or a retry, and it neither changes
      what is desired nor disturbs a listener that runs. */
  lemma QuietStepWorks(s: State, step: Step, t: State)
    requires Next(s, step, t) && Quiet(step)
    ensures Follows(s, t) && (t == s || Work(t) == Work(s) - 1)
  {
    if step.Tick? && t != s {
      TickFollows(s, step.retry, t);
    }
  }

  /** With the drains over, any retry left can finish its next turn. */
  lemma RetryFinishes(s: State, r: Retry)
    requires Inv(s) && Synced(s) && s.draining == {} && r in s.retries
    ensures !Stale(s, r) ==> Sock(s.desired[r.id]) !in Held(s)
    ensures TickTo(s, r, true).retries == s.retries - multiset{r}
  {
    forall id | id in s.live && !Stale(s, r) ensures Sock(s.live[id]) != Sock(s.desired[r.id]) {
      assert id != r.id;
    }
  }

  ghost predicate Converged(s: State) { s.live == s.desired && s.draining == {} && s.retries == multiset{} }

  /** No quiet step can change the state any more. */
  ghost predicate Exhausted(s: State) {
    forall step, t :: Quiet(step) && Next(s, step, t) ==> t == s
  }

  lemma SomethingLeftToDo(s: State) returns (step: Step, t: State)
    requires Inv(s) && Synced(s) && (s.draining != {} || s.retries != multiset{})
    ensures Quiet(step) && Next(s, step, t) && t != s
  {
    if k :| k in s.draining {
      step, t := Drained(k), s.(draining := s.draining - {k});
    } else {
      var r :| r in s.retries;
      RetryFinishes(s, r);
      step, t := Tick(r, true), TickTo(s, r, true);
      assert t.retries[r] < s.retries[r];
    }
  }

  lemma NothingLeftMeansConverged(s: State)
    requires Inv(s) && Synced(s) && !s.stopped && s.draining == {} && s.retries == multiset{}
    ensures Converged(s)
  {
    forall id | id in s.desired ensures id in s.live {
      assert Pending(s, id) == s.retries[Retry(id, Gen(s, id))];
    }
  }

  /** A quiet run can only come to rest where the live listeners are the desired ones. */
  lemma RestsOnlyConverged(s: State)
    requires Inv(s) && Synced(s) && !s.stopped
    ensures Exhausted(s) <==> Converged(s)
  {
    if s.draining == {} && s.retries == multiset{} {
      NothingLeftMeansConverged(s);
    } else {
      var step, t := SomethingLeftToDo(s);
    }
  }

  /** An endless run of quiet steps. */
  ghost predicate QuietRun(run: nat -> State, steps: nat -> Step) {
    forall n: nat :: Quiet(steps(n)) && Next(run(n), steps(n), run(n + 1))
  }

  /** The turn of every drain comes, and so does for every retry a turn in which a start would
      succeed, unless it is found polling a held socket. */
  ghost predicate Fair(run: nat -> State, steps: nat -> Step) {
    && (forall n: nat, k :: k in run(n).draining ==> DrainTurn(steps, n, k))
    && (forall n: nat, r :: r in run(n).retries ==> RetryTurn(run, steps, n, r))
  }

  ghost predicate DrainTurn(steps: nat -> Step, n: nat, k: Socket) { exists m: nat :: m >= n && steps(m) == Drained(k) }

  ghost predicate RetryTurn(run: nat -> State, steps: nat -> Step, n: nat, r: Retry) {
    exists m: nat :: m >= n && (steps(m) == Tick(r, true) || Polls(run(m), r))
  }

  predicate Polls(s: State, r: Retry) { !Stale(s, r) && Sock(s.desired[r.id]) in Held(s) }

  lemma QuietStepFollows(start: State, s: State, step: Step, t: State)
    requires Inv(s) && Follows(start, s) && Quiet(step) && Next(s, step, t)
    ensures Inv(t) && Follows(start, t)
  {
    StepKeepsInv(s, step, t);
    QuietStepWorks(s, step, t);
    FollowsTransitive(start, s, t);
  }

  lemma {:induction false} QuietRunFacts(run: nat -> State, steps: nat -> Step, m: nat, n: nat)
    requires QuietRun(run, steps) && Inv(run(m)) && m <= n
    ensures Inv(run(n)) && Follows(run(m), run(n))
    decreases n - m
  {
    if m < n {
      QuietRunFacts(run, steps, m, n - 1);
      assert Quiet(steps(n - 1)) && Next(run(n - 1), steps(n - 1), run(n - 1 + 1));
      QuietStepFollows(run(m), run(n - 1), steps(n - 1), run(n));
    }
  }

  lemma LessWork(s: State, t: State)
    requires Follows(s, t) && (t.draining != s.draining || t.retries != s.retries)
    ensures Work(t) < Work(s)
  {
    MultisetSizes(t.retries, s.retries);
    assert s.draining == t.draining + (s.draining - t.draining);
  }

  /** A drained socket is given up, and a retry whose start would succeed ends unless it polls. */
  lemma TurnWorks(s: State, step: Step, t: State)
    requires Next(s, step, t)
    ensures step.Drained? ==> step.socket !in t.draining
    ensures step.Tick? && step.ok && !Polls(s, step.retry) ==> t.retries[step.retry] < s.retries[step.retry]
  {
    if step.Tick? && step.ok && !Polls(s, step.retry) { RemoveOne(s.retries, step.retry); }
  }

  lemma DrainEnds(run: nat -> State, steps: nat -> Step, n: nat, k: Socket) returns (m: nat)
    requires QuietRun(run, steps) && Fair(run, steps) && k in run(n).draining
    ensures m > n && k !in run(m).draining
  {
    assert DrainTurn(steps, n, k);
    var j: nat :| j >= n && steps(j) == Drained(k);
    m := j + 1;
    assert Quiet(steps(j)) && Next(run(j), steps(j), run(j + 1));
  }

  lemma RetryEnds(run: nat -> State, steps: nat -> Step, n: nat, r: Retry) returns (m: nat)
    requires QuietRun(run, steps) && Fair(run, steps) && Inv(run(n)) && r in run(n).retries
    ensures m >= n && (run(m).retries[r] < run(n).retries[r] || Polls(run(m), r))
  {
    assert RetryTurn(run, steps, n, r);
    var j: nat :| j >= n && (steps(j) == Tick(r, true) || Polls(run(j), r));
    if Polls(run(j), r) {
      m := j;
    } else {
      m := j + 1;
      assert Quiet(steps(j)) && Next(run(j), steps(j), run(j + 1));
      TurnWorks(run(j), steps(j), run(m));
      QuietRunFacts(run, steps, n, j);
    }
  }

  /** From some point on there is less to do, as long as there is anything to do. */
  lemma WorkDrops(run: nat -> State, steps: nat -> Step, n: nat) returns (m: nat)
    requires QuietRun(run, steps) && Fair(run, steps) && Inv(run(n)) && Synced(run(n))
    requires run(n).draining != {} || run(n).retries != multiset{}
    ensures m >= n && Work(run(m)) < Work(run(n))
  {
    if k :| k in run(n).draining {
      m := DrainEnds(run, steps, n, k);
      QuietRunFacts(run, steps, n, m);
    } else {
      var r :| r in run(n).retries;
      m := RetryEnds(run, steps, n, r);
      QuietRunFacts(run, steps, n, m);
      if run(m).retries[r] >= run(n).retries[r] {
        RetryFinishes(run(m), r);
      }
    }
    LessWork(run(n), run(m));
  }

  lemma MultisetSizes(a: multiset<Retry>, b: multiset<Retry>)
    requires a <= b
    ensures |a| <= |b| && (a != b ==> |a| < |b|)
  {
    assert b == a + (b - a);
    if a != b {
      assert b - a != multiset{};
    }
  }

  lemma {:induction false} EventuallyConverged(run: nat -> State, steps: nat -> Step, n: nat) returns (m: nat)
    requires QuietRun(run, steps) && Fair(run, steps)
    requires Inv(run(n)) && Synced(run(n)) && !run(n).stopped
    ensures m >= n && Converged(run(m))
    decreases Work(run(n))
  {
    if run(n).draining == {} && run(n).retries == multiset{} {
      m := n;
      NothingLeftMeansConverged(run(n));
    } else {
      var k := WorkDrops(run, steps, n);
      QuietRunFacts(run, steps, n, k);
      m := EventuallyConverged(run, steps, k);
    }
  }

  ghost predicate SettledFrom(run: nat -> State, want: map<string, Listener>, n: nat) {
    forall m: nat :: m >= n ==> run(m).live == want
  }

  lemma ConvergedStays(s: State, t: State)
    requires Converged(s) && Follows(s, t) && LiveSound(t) && !t.stopped
    ensures t.live == s.desired
  {
  }

  lemma SyncedRunSettles(run: nat -> State, steps: nat -> Step)
    requires QuietRun(run, steps) && Fair(run, steps)
    requires Inv(run(0)) && Synced(run(0)) && !run(0).stopped
    ensures exists n: nat :: SettledFrom(run, run(0).desired, n)
  {
    var n := EventuallyConverged(run, steps, 0);
    QuietRunFacts(run, steps, 0, n);
    forall m: nat | m >= n ensures run(m).live == run(0).desired {
      QuietRunFacts(run, steps, n, m);
      ConvergedStays(run(n), run(m));
    }
    assert SettledFrom(run, run(0).desired, n);
  }

  /** A listener left behind by Apply is never replaced by quiet steps. */
  lemma UnsyncedRunNeverSettles(run: nat -> State, steps: nat -> Step, n: nat)
    requires QuietRun(run, steps) && Inv(run(0)) && !Synced(run(0)) && !run(0).stopped
    ensures !SettledFrom(run, run(0).desired, n)
  {
    var id :| id in run(0).live && !(id in run(0).desired && run(0).live[id] == run(0).desired[id]);
    QuietRunFacts(run, steps, 0, n);
  }

  /** Convergence. After an Apply, with no further Apply or Stop, a fair run settles for
      good on the desired listeners if and only if no staged replacement failed. */
  lemma ConvergesUnlessStageFailed(s: State, plan: Plan, failing: set<string>, run: nat -> State, steps: nat -> Step)
    requires Inv(s) && Next(s, Apply(plan, failing), run(0))
    requires QuietRun(run, steps) && Fair(run, steps)
    ensures (exists n: nat :: SettledFrom(run, plan.want, n)) <==>
              forall id :: id in plan.want ==> !StageFails(s, plan.want, failing, id)
  {
    StepKeepsInv(s, Apply(plan, failing), run(0));
    SyncedUnlessStageFailed(s, plan, failing);
    if Synced(run(0)) {
      SyncedRunSettles(run, steps);
    } else {
      forall n: nat ensures !SettledFrom(run, plan.want, n) { UnsyncedRunNeverSettles(run, steps, n); }
    }
  }

  // ------------------------------------------- a save that never takes effect

  function Saving(id: string, l: Listener): Plan { Plan({id}, map[id := l]) }

  /** Two listeners for one connection, on different sockets. */
  ghost predicate Alternatives(id: string, before: Listener, after: Listener) {
    && before.config.connectionId == id && after.config.connectionId == id
    && Servable(before) && Servable(after) && Sock(before) != Sock(after)
  }

  function SavedOnce(id: string, before: Listener): State { ApplyTo(INITIAL, Saving(id, before), {}) }

  /** The second save changes the port, and its listener does not start. */
  function SavedAgain(id: string, before: Listener, after: Listener): State {
    ApplyTo(SavedOnce(id, before), Saving(id, after), {id})
  }

  lemma FirstSave(id: string, before: Listener)
    ensures SavedOnce(id, before).live == map[id := before] && SavedOnce(id, before).draining == {}
    ensures !SavedOnce(id, before).stopped && Held(SavedOnce(id, before)) == {Sock(before)}
  {
    var s, live := SavedOnce(id, before), map[id := before];
    assert Held(INITIAL) == {};
    assert s.live == live;
    assert LiveSockets(s) == {Sock(before)} by { assert live[id] == before; }
  }

  lemma SecondSave(id: string, before: Listener, after: Listener)
    requires Sock(before) != Sock(after)
    ensures var t := SavedAgain(id, before, after);
            && StageFails(SavedOnce(id, before), map[id := after], {id}, id)
            && t.live == map[id := before] && t.desired == map[id := after] && !t.stopped
  {
    FirstSave(id, before);
    var s := SavedOnce(id, before);
    assert s.live[id] == before && FateOf(s, id, after).Stage?;
  }

  lemma SavingSound(id: string, l: Listener)
    requires l.config.connectionId == id && Servable(l)
    ensures PlanSound(Saving(id, l))
  {
  }

  /** The run of two saves: the replacement is staged on a free port and fails. From there
      the second save never takes effect, however long retries and drains go on. */
  lemma FailedStageNeverCatchesUp(id: string, before: Listener, after: Listener, run: nat -> State, steps: nat -> Step, n: nat)
    requires Alternatives(id, before, after)
    requires QuietRun(run, steps) && run(0) == SavedAgain(id, before, after)
    ensures IsRun([INITIAL, SavedOnce(id, before), run(0)], [Apply(Saving(id, before), {}), Apply(Saving(id, after), {id})])
    ensures StageFails(SavedOnce(id, before), map[id := after], {id}, id)
    ensures run(n).live == map[id := before] && run(n).desired == map[id := after] && !SettledFrom(run, map[id := after], n)
  {
    TwoSavesRun(id, before, after);
    SecondSave(id, before, after);
    SavesKeepInv(id, before, after);
    AllLiveStays(run, steps, n);
    assert map[id := before][id] != map[id := after][id];
  }

  lemma SavesKeepInv(id: string, before: Listener, after: Listener)
    requires Alternatives(id, before, after)
    ensures Inv(SavedAgain(id, before, after))
  {
    TwoSavesRun(id, before, after);
    RunsKeepInv([INITIAL, SavedOnce(id, before), SavedAgain(id, before, after)],
                [Apply(Saving(id, before), {}), Apply(Saving(id, after), {id})], 2);
  }

  /** Where every desired connection is live, no quiet step starts or changes a listener. */
  lemma AllLiveStays(run: nat -> State, steps: nat -> Step, n: nat)
    requires QuietRun(run, steps) && Inv(run(0)) && !run(0).stopped && run(0).live.Keys == run(0).desired.Keys
    ensures run(n).live == run(0).live && run(n).desired == run(0).desired
  {
    QuietRunFacts(run, steps, 0, n);
    FollowedWithSameIds(run(0), run(n));
  }

  lemma FollowedWithSameIds(s: State, t: State)
    requires Follows(s, t) && LiveSound(t) && !t.stopped && s.live.Keys == s.desired.Keys
    ensures t.live == s.live
  {
    assert t.live.Keys == s.live.Keys;
  }

  lemma TwoSavesRun(id: string, before: Listener, after: Listener)
    requires Alternatives(id, before, after)
    ensures IsRun([INITIAL, SavedOnce(id, before), SavedAgain(id, before, after)],
                  [Apply(Saving(id, before), {}), Apply(Saving(id, after), {id})])
  {
    FirstSave(id, before);
    SavingSound(id, before);
    SavingSound(id, after);
    var run := [INITIAL, SavedOnce(id, before), SavedAgain(id, before, after)];
    var steps := [Apply(Saving(id, before), {}), Apply(Saving(id, after), {id})];
    assert Next(run[0], steps[0], run[1]) && Next(run[1], steps[1], run[2]);
  }

  // --------------------------------------------------- fair runs exist

  /** Drains first, then the retries that can end, then nothing. */
  ghost function Chosen(s: State): (step: Step)
    ensures step.Drained? ==> step.socket in s.draining
    ensures step.Tick? ==> step.ok && step.retry in s.retries && !Polls(s, step.retry)
    ensures step.Drained? || step.Tick? || (step.Idle? && AtRest(s))
  {
    if s.draining != {} then
      var k :| k in s.draining; Drained(k)
    else if !AtRest(s) then
      var r :| r in s.retries && !Polls(s, r); Tick(r, true)
    else Idle
  }

  /** Nothing drains, and whoever retries waits for a socket that is held. */
  ghost predicate AtRest(s: State) { s.draining == {} && forall r :: r in s.retries ==> Polls(s, r) }

  ghost function Moved(s: State): State {
    match Chosen(s)
    case Drained(k) => s.(draining := s.draining - {k})
    case Tick(r, ok) => TickTo(s, r, ok)
    case _ => s
  }

  ghost function Scheduled(s: State, n: nat): State { if n == 0 then s else Moved(Scheduled(s, n - 1)) }

  lemma TickEnds(s: State, r: Retry)
    requires r in s.retries && !Polls(s, r)
    ensures TickTo(s, r, true).retries == s.retries - multiset{r} && TickTo(s, r, true) != s
  {
    RemoveOne(s.retries, r);
  }

  lemma MovedIsQuiet(s: State)
    ensures Quiet(Chosen(s)) && Next(s, Chosen(s), Moved(s)) && (AtRest(s) <==> Moved(s) == s)
  {
    match Chosen(s)
    case Drained(k) => assert k in s.draining && k !in Moved(s).draining;
    case Tick(r, ok) => TickEnds(s, r);
    case _ =>
  }

  lemma MovedWorks(s: State)
    ensures AtRest(s) || Work(Moved(s)) == Work(s) - 1
  {
    MovedIsQuiet(s);
    QuietStepWorks(s, Chosen(s), Moved(s));
  }

  /** t is at rest, or n turns have used up n of the work there was. */
  ghost predicate Progress(t: State, n: nat, work: nat) { AtRest(t) || Work(t) + n <= work }

  lemma MovedProgress(t: State, n: nat, work: nat)
    requires Progress(t, n, work)
    ensures Progress(Moved(t), n + 1, work)
  {
    MovedIsQuiet(t);
    MovedWorks(t);
  }

  lemma {:induction false} ScheduledProgress(s: State, n: nat)
    ensures Progress(Scheduled(s, n), n, Work(s))
  {
    if n > 0 {
      ScheduledProgress(s, n - 1);
      MovedProgress(Scheduled(s, n - 1), n - 1, Work(s));
    }
  }

  lemma RestsInTime(s: State, n: nat)
    requires n > Work(s)
    ensures AtRest(Scheduled(s, n))
  {
    ScheduledProgress(s, n);
  }

  lemma ScheduledIsQuiet(s: State, run: nat -> State, steps: nat -> Step)
    requires forall n: nat :: run(n) == Scheduled(s, n) && steps(n) == Chosen(Scheduled(s, n))
    ensures run(0) == s && QuietRun(run, steps)
  {
    forall n: nat ensures Quiet(steps(n)) && Next(run(n), steps(n), run(n + 1)) {
      MovedIsQuiet(Scheduled(s, n));
    }
  }

  lemma DrainedByStep(s: State, step: Step, t: State, k: Socket)
    requires Next(s, step, t) && Quiet(step) && k in s.draining && k !in t.draining
    ensures step == Drained(k)
  {
  }

  lemma EndedByStep(s: State, step: Step, t: State, r: Retry)
    requires Next(s, step, t) && Quiet(step) && r in s.retries && r !in t.retries
    ensures step.Tick? && step.retry == r
  {
  }

  /** A drain that is over had its step, and so had a retry that is gone. */
  lemma {:induction false} DrainHadStep(run: nat -> State, steps: nat -> Step, n: nat, m: nat, k: Socket) returns (j: nat)
    requires QuietRun(run, steps) && n <= m && k in run(n).draining && k !in run(m).draining
    ensures n <= j < m && steps(j) == Drained(k)
    decreases m - n
  {
    j := m - 1;
    if k in run(j).draining {
      assert Quiet(steps(j)) && Next(run(j), steps(j), run(j + 1));
      DrainedByStep(run(j), steps(j), run(m), k);
    } else {
      j := DrainHadStep(run, steps, n, j, k);
    }
  }

  lemma {:induction false} RetryHadStep(run: nat -> State, steps: nat -> Step, n: nat, m: nat, r: Retry) returns (j: nat)
    requires QuietRun(run, steps) && n <= m && r in run(n).retries && r !in run(m).retries
    ensures n <= j < m && steps(j).Tick? && steps(j).retry == r
    decreases m - n
  {
    j := m - 1;
    if r in run(j).retries {
      assert Quiet(steps(j)) && Next(run(j), steps(j), run(j + 1));
      EndedByStep(run(j), steps(j), run(m), r);
    } else {
      j := RetryHadStep(run, steps, n, j, r);
    }
  }

  /** A quiet run in which starts succeed and which comes to rest is fair. */
  lemma RestingRunIsFair(run: nat -> State, steps: nat -> Step, rest: nat)
    requires QuietRun(run, steps) && forall n: nat :: steps(n).Tick? ==> steps(n).ok
    requires forall m: nat :: m >= rest ==> AtRest(run(m))
    ensures Fair(run, steps)
  {
    forall n: nat, k | k in run(n).draining ensures DrainTurn(steps, n, k) {
      assert AtRest(run(n + rest));
      var j := DrainHadStep(run, steps, n, n + rest, k);
      assert steps(j) == Drained(k);
    }
    forall n: nat, r | r in run(n).retries ensures RetryTurn(run, steps, n, r) {
      assert AtRest(run(n + rest));
      if r in run(n + rest).retries {
        assert Polls(run(n + rest), r);
      } else {
        var j := RetryHadStep(run, steps, n, n + rest, r);
        assert steps(j) == Tick(r, true);
      }
    }
  }

  lemma ScheduledIsFair(s: State, run: nat -> State, steps: nat -> Step)
    requires QuietRun(run, steps)
    requires forall n: nat :: run(n) == Scheduled(s, n) && steps(n) == Chosen(Scheduled(s, n))
    ensures Fair(run, steps)
  {
    var rest := Work(s) + 1;
    forall m: nat | m >= rest ensures AtRest(run(m)) { RestsInTime(s, m); }
    RestingRunIsFair(run, steps, rest);
  }

  /** From every state some fair quiet run goes on, so convergence is never vacuous. */
  lemma FairRunExists(s: State) returns (run: nat -> State, steps: nat -> Step)
    ensures run(0) == s && QuietRun(run, steps) && Fair(run, steps)
  {
    run, steps := (n: nat) => Scheduled(s, n), (n: nat) => Chosen(Scheduled(s, n));
    ScheduledIsQuiet(s, run, steps);
    ScheduledIsFair(s, run, steps);
  }

  /** A save none of whose staged starts fails does take effect, in some fair run. */
  lemma SaveCanTakeEffect(s: State, plan: Plan, failing: set<string>) returns (run: nat -> State, steps: nat -> Step, n: nat)
    requires Inv(s) && !s.stopped && PlanSound(plan)
    requires forall id :: id in plan.want ==> !StageFails(s, plan.want, failing, id)
    ensures run(0) == ApplyTo(s, plan, failing) && QuietRun(run, steps) && Fair(run, steps)
    ensures SettledFrom(run, plan.want, n)
  {
    run, steps := FairRunExists(ApplyTo(s, plan, failing));
    ConvergesUnlessStageFailed(s, plan, failing, run, steps);
    n :| SettledFrom(run, plan.want, n);
  }

  // ------------------------------------ which definition calls get after a save

  ghost predicate AllRun(ls: map<string, Listener>, d: Definition) {
    forall id {:trigger ls[id]} :: id in ls ==> ls[id].definition == d
  }

  /** The listeners that stay behind because their replacement failed run d anyway. */
  ghost predicate LeftBehindRun(s: State, want: map<string, Listener>, failing: set<string>, d: Definition) {
    forall id :: id in want && StageFails(s, want, failing, id) ==> s.live[id].definition == d
  }

  lemma ApplyRuns(s: State, want: map<string, Listener>, failing: set<string>, d: Definition)
    requires AllRun(want, d)
    ensures AllRun(LiveAfter(s, want, failing), d) <==> LeftBehindRun(s, want, failing, d)
  {
    var live := LiveAfter(s, want, failing);
    if AllRun(live, d) {
      forall id | id in want && StageFails(s, want, failing, id) ensures s.live[id].definition == d {
        assert live[id] == s.live[id];
      }
    }
  }

  lemma StepRuns(s: State, step: Step, t: State, d: Definition)
    requires Next(s, step, t) && Quiet(step) && AllRun(s.live, d) && AllRun(s.desired, d)
    ensures AllRun(t.live, d) && t.desired == s.desired
  {
    forall id | id in t.live ensures t.live[id].definition == d {
      if id !in s.live || s.live[id] != t.live[id] {
        StartedFromLatestApply(s, step, t, id);
      }
    }
  }

  lemma {:induction false} RunRuns(run: nat -> State, steps: nat -> Step, n: nat, d: Definition)
    requires QuietRun(run, steps) && AllRun(run(0).live, d) && AllRun(run(0).desired, d)
    ensures AllRun(run(n).live, d) && run(n).desired == run(0).desired
  {
    if n > 0 {
      RunRuns(run, steps, n - 1, d);
      assert Quiet(steps(n - 1)) && Next(run(n - 1), steps(n - 1), run(n - 1 + 1));
      StepRuns(run(n - 1), steps(n - 1), run(n), d);
    }
  }

  /** After a save of d, every listener that runs, then or later, runs d if and only if those
      whose staged replacement failed were running d already. */
  lemma SavedDefinitionRunsIff(s: State, plan: Plan, failing: set<string>, run: nat -> State, steps: nat -> Step, d: Definition)
    requires Next(s, Apply(plan, failing), run(0)) && QuietRun(run, steps) && AllRun(plan.want, d)
    ensures (forall n: nat :: AllRun(run(n).live, d)) <==> LeftBehindRun(s, plan.want, failing, d)
  {
    ApplyRuns(s, plan.want, failing, d);
    if AllRun(run(0).live, d) {
      forall n: nat ensures AllRun(run(n).live, d) { RunRuns(run, steps, n, d); }
    }
  }

  /** l may be what a session begun after run(0) brings along: the listener of a call in setup
      at that moment, or one that accepts a call later. */
  ghost predicate MayBring(run: nat -> State, inSetup: set<Listener>, l: Listener) {
    l in inSetup || exists n: nat, id :: id in run(n).live && run(n).live[id] == l
  }

  /** After a save of d, every session begun runs d if and only if the calls in setup were
      accepted by listeners of d, and those whose staged replacement failed run d. */
  lemma SessionsSeeSavedIff(s: State, plan: Plan, failing: set<string>, run: nat -> State, steps: nat -> Step, d: Definition,
                            inSetup: set<Listener>)
    requires Next(s, Apply(plan, failing), run(0)) && QuietRun(run, steps) && AllRun(plan.want, d)
    ensures (forall l :: MayBring(run, inSetup, l) ==> l.definition == d) <==>
              (forall l :: l in inSetup ==> l.definition == d) && LeftBehindRun(s, plan.want, failing, d)
  {
    SavedDefinitionRunsIff(s, plan, failing, run, steps, d);
    if forall l :: MayBring(run, inSetup, l) ==> l.definition == d {
      forall n: nat, id | id in run(n).live ensures run(n).live[id].definition == d {
        assert MayBring(run, inSetup, run(n).live[id]);
      }
      forall l | l in inSetup ensures l.definition == d { assert MayBring(run, inSetup, l); }
    }
  }
}
