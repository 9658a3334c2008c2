// The second loop of core/sip/supervisor.go Apply, which drains the displaced listeners, as a
// function of the values it updates: the order of the visits does not matter.
module DrainLoops {
  import opened Text
  import opened SipConfig
  import opened ClientConfigs
  import opened SupervisorModel

  /** Listeners that stay when the displaced ones are drained. */
  predicate Stays(want: map<string, Listener>, deferred: set<string>, id: string) { id in want && id !in deferred }

  /** Some order of the elements of a set, as ranging over a map visits its keys. */
  method AnyOrder(keys: set<string>) returns (order: seq<string>)
    ensures Distinct(order) && Members(order, |order|) == keys
  {
    order := [];
    var rest := keys;
    while rest != {}
      invariant rest <= keys && Distinct(order) && Members(order, |order|) == keys - rest
      decreases rest
    {
      var id :| id in rest;
      AddMember(order, id);
      order, rest := order + [id], rest - {id};
    }
  }

  lemma AddMember(order: seq<string>, id: string)
    requires Distinct(order) && id !in Members(order, |order|)
    ensures Distinct(order + [id]) && Members(order + [id], |order| + 1) == Members(order, |order|) + {id}
  {
    var longer := order + [id];
    assert forall i :: 0 <= i < |order| ==> longer[i] == order[i] && longer[i] in Members(order, |order|);
    forall x | x in Members(order, |order|) + {id} ensures x in Members(longer, |longer|) {
      if x == id {
        assert longer[|order|] == x;
      } else {
        var i :| 0 <= i < |order| && order[i] == x;
        assert longer[i] == x;
      }
    }
  }

  ghost predicate ExclusiveWith(live: map<string, Listener>, draining: set<Socket>) {
    && (forall a, b :: a in live && b in live && a != b ==> Sock(live[a]) != Sock(live[b]))
    && (forall a :: a in live ==> Sock(live[a]) !in draining)
  }

  /** The listeners left when the drain loop has yet to visit the ids in rest. */
  function LiveLeft(mid: map<string, Listener>, want: map<string, Listener>, deferred: set<string>, rest: set<string>): map<string, Listener> {
    map id | id in mid && (id in rest || Stays(want, deferred, id)) :: mid[id]
  }

  function GoneSockets(mid: map<string, Listener>, want: map<string, Listener>, deferred: set<string>, rest: set<string>): set<Socket> {
    set id | id in mid && id !in rest && !Stays(want, deferred, id) :: Sock(mid[id])
  }

  function GoneIds(mid: map<string, Listener>, want: map<string, Listener>, missing: set<string>, rest: set<string>): set<string> {
    set id | id in mid && id !in rest && id !in want && id !in missing
  }

  datatype Sweep = Sweep(live: map<string, Listener>, draining: set<Socket>, generation: map<string, nat>)

  function SweepLeft(start: Sweep, want: map<string, Listener>, deferred: set<string>, missing: set<string>, rest: set<string>): Sweep {
    Sweep(LiveLeft(start.live, want, deferred, rest),
          start.draining + GoneSockets(start.live, want, deferred, rest),
          Bumped(start.generation, GoneIds(start.live, want, missing, rest)))
  }

  predicate CanLeave(s: Sweep, id: string) { id in s.live && Sock(s.live[id]) !in s.draining }

  /** s.generation[id]++. */
  function Raised(generation: map<string, nat>, id: string): map<string, nat> {
    generation[id := (if id in generation then generation[id] else 0) + 1]
  }

  function SweepStep(s: Sweep, want: map<string, Listener>, deferred: set<string>, missing: set<string>, id: string): Sweep {
    if id !in s.live then s
    else Sweep(if Stays(want, deferred, id) then s.live else s.live - {id},
          if Stays(want, deferred, id) then s.draining else s.draining + {Sock(s.live[id])},
          if id !in want && id !in missing then Raised(s.generation, id) else s.generation)
  }

  lemma LeftAtStart(start: Sweep, want: map<string, Listener>, deferred: set<string>, missing: set<string>)
    ensures SweepLeft(start, want, deferred, missing, start.live.Keys) == start
  {
    assert LiveLeft(start.live, want, deferred, start.live.Keys) == start.live;
    assert GoneSockets(start.live, want, deferred, start.live.Keys) == {};
    assert GoneIds(start.live, want, missing, start.live.Keys) == {};
    assert Bumped(start.generation, {}) == start.generation;
  }

  lemma LeftStep(start: Sweep, want: map<string, Listener>, deferred: set<string>, missing: set<string>, rest: set<string>, id: string)
    requires id in rest && rest <= start.live.Keys
    ensures SweepLeft(start, want, deferred, missing, rest - {id})
              == SweepStep(SweepLeft(start, want, deferred, missing, rest), want, deferred, missing, id)
  {
    LiveLeftStep(start.live, want, deferred, rest, id);
    GoneSocketsStep(start.live, want, deferred, rest, id);
    GoneIdsStep(start, want, missing, rest, id);
  }

  /** order lists the ids of the running listeners, which hold different sockets. */
  ghost predicate SweepReady(s: Sweep, order: seq<string>) {
    ExclusiveWith(s.live, s.draining) && Distinct(order) && Members(order, |order|) == s.live.Keys
  }

  /** After the first n visits; the order of the visits does not matter for what is left. */
  function SweepUpTo(s: Sweep, order: seq<string>, n: nat, want: map<string, Listener>, deferred: set<string>, missing: set<string>): Sweep
    requires n <= |order|
  {
    SweepLeft(s, want, deferred, missing, s.live.Keys - Members(order, n))
  }

  lemma SweepEnds(s: Sweep, order: seq<string>, want: map<string, Listener>, deferred: set<string>, missing: set<string>)
    requires SweepReady(s, order)
    ensures SweepUpTo(s, order, 0, want, deferred, missing) == s
    ensures SweepUpTo(s, order, |order|, want, deferred, missing) == SweepLeft(s, want, deferred, missing, {})
  {
    assert s.live.Keys - Members(order, 0) == s.live.Keys;
    assert s.live.Keys - Members(order, |order|) == {};
    LeftAtStart(s, want, deferred, missing);
  }

  lemma SweepVisit(s: Sweep, order: seq<string>, i: nat, want: map<string, Listener>, deferred: set<string>, missing: set<string>)
    requires SweepReady(s, order) && i < |order|
    ensures CanLeave(SweepUpTo(s, order, i, want, deferred, missing), order[i])
    ensures SweepUpTo(s, order, i + 1, want, deferred, missing)
              == SweepStep(SweepUpTo(s, order, i, want, deferred, missing), want, deferred, missing, order[i])
  {
    LastIsNew(order, i + 1);
    assert order[i] in Members(order, |order|);
    assert s.live.Keys - Members(order, i + 1) == (s.live.Keys - Members(order, i)) - {order[i]};
    NotYetGone(s, want, deferred, s.live.Keys - Members(order, i), order[i]);
    LeftStep(s, want, deferred, missing, s.live.Keys - Members(order, i), order[i]);
  }

  lemma NotYetGone(start: Sweep, want: map<string, Listener>, deferred: set<string>, rest: set<string>, id: string)
    requires ExclusiveWith(start.live, start.draining) && id in rest && id in start.live
    ensures Sock(start.live[id]) !in start.draining + GoneSockets(start.live, want, deferred, rest)
  {
  }

  lemma LiveLeftStep(mid: map<string, Listener>, want: map<string, Listener>, deferred: set<string>, rest: set<string>, id: string)
    requires id in rest && id in mid
    ensures LiveLeft(mid, want, deferred, rest - {id})
              == if Stays(want, deferred, id) then LiveLeft(mid, want, deferred, rest) else LiveLeft(mid, want, deferred, rest) - {id}
  {
  }

  lemma GoneIdsStep(start: Sweep, want: map<string, Listener>, missing: set<string>, rest: set<string>, id: string)
    requires id in rest && id in start.live
    ensures var g := Bumped(start.generation, GoneIds(start.live, want, missing, rest));
            Bumped(start.generation, GoneIds(start.live, want, missing, rest - {id}))
              == if id !in want && id !in missing then Raised(g, id) else g
  {
    assert GoneIds(start.live, want, missing, rest - {id})
        == GoneIds(start.live, want, missing, rest) + if id !in want && id !in missing then {id} else {};
  }

  lemma GoneSocketsStep(mid: map<string, Listener>, want: map<string, Listener>, deferred: set<string>, rest: set<string>, id: string)
    requires id in rest && rest <= mid.Keys
    ensures GoneSockets(mid, want, deferred, rest - {id})
              == GoneSockets(mid, want, deferred, rest) + if Stays(want, deferred, id) then {} else {Sock(mid[id])}
  {
    var before, after := GoneSockets(mid, want, deferred, rest), GoneSockets(mid, want, deferred, rest - {id});
    forall k | k in before ensures k in after {
      var a :| a in mid && a !in rest && !Stays(want, deferred, a) && Sock(mid[a]) == k;
      assert a !in rest - {id};
    }
    if !Stays(want, deferred, id) {
      assert id !in rest - {id};
      assert Sock(mid[id]) in after;
    }
  }

  function Members(ids: seq<string>, n: nat): set<string>
    requires n <= |ids|
  {
    set i | 0 <= i < n :: ids[i]
  }

  lemma LastIsNew(ids: seq<string>, n: nat)
    requires Distinct(ids) && 0 < n <= |ids|
    ensures ids[n - 1] !in Members(ids, n - 1) && Members(ids, n) == Members(ids, n - 1) + {ids[n - 1]}
  {
  }
}
