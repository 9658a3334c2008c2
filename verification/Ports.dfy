// The port allocation of core/sip/supervisor.go (allocatePortsLocked), stated without the
// order in which its loops visit the connections.
module Ports {
  import opened Text
  import opened SipConfig

  const FIRST_PORT := 5060

  /** The transport half of connectionSocketKey. */
  function NormTransport(t: string): string {
    var l := ToLower(TrimSpace(t));
    if l == "" then "udp" else l
  }

  function SocketAt(c: Connection, port: int): Socket { Socket(NormTransport(c.transport), port) }

  function SocketOf(c: Connection): Socket { SocketAt(c, c.localPort) }

  lemma LowerTransportIsTrimmed(t: string)
    requires ToLower(t) in {"udp", "tcp", "ws"}
    ensures TrimSpace(t) == t
  {
    LowerEnds(t);
    TrimNothing(t);
  }

  lemma {:induction false} LowerEnds(t: string)
    ensures |ToLower(t)| == |t|
    ensures t != [] ==> ToLower(t)[0] == LowerChar(t[0]) && ToLower(t)[|t| - 1] == LowerChar(t[|t| - 1])
  {
    if t != [] {
      LowerEnds(t[1..]);
    }
  }

  /** On a validated connection the socket Validate checks is the socket that is bound. */
  lemma ClaimedIsBound(functions: map<string, Fn>, c: Connection)
    requires ConnectionOk(functions, c)
    ensures ClaimedSocket(c) == SocketOf(c)
  {
    var t := c.transport;
    if t == "" {
      assert ToLower("udp") == "udp" && NormTransport("") == "udp";
    } else {
      LowerTransportIsTrimmed(t);
      assert TrimSpace(t) == t && ToLower(t) != "";
    }
  }

  /** A connection whose port is allocated, and whose earlier port is remembered. */
  predicate Claims(conns: seq<Connection>, stored: map<string, int>, i: int)
    requires 0 <= i < |conns|
  {
    conns[i].localPort == 0 && conns[i].id in stored && stored[conns[i].id] > 0
  }

  function StoredSocket(conns: seq<Connection>, stored: map<string, int>, i: int): Socket
    requires 0 <= i < |conns| && Claims(conns, stored, i)
  {
    SocketAt(conns[i], stored[conns[i].id])
  }

  function ExplicitSockets(conns: seq<Connection>): set<Socket> {
    set i | 0 <= i < |conns| && conns[i].localPort > 0 :: SocketOf(conns[i])
  }

  /** The remembered port is taken again: nobody names it and no earlier connection
      in the list remembers it too. */
  predicate Keeps(conns: seq<Connection>, stored: map<string, int>, i: int)
    requires 0 <= i < |conns|
  {
    && Claims(conns, stored, i)
    && StoredSocket(conns, stored, i) !in ExplicitSockets(conns)
    && forall j :: 0 <= j < i && Claims(conns, stored, j) ==>
         StoredSocket(conns, stored, j) != StoredSocket(conns, stored, i)
  }

  predicate Fresh(conns: seq<Connection>, stored: map<string, int>, i: int)
    requires 0 <= i < |conns|
  {
    conns[i].localPort == 0 && !Keeps(conns, stored, i)
  }

  ghost predicate SameButPorts(conns: seq<Connection>, out: seq<Connection>) {
    |out| == |conns| && forall i :: 0 <= i < |conns| ==> out[i] == conns[i].(localPort := out[i].localPort)
  }

  /** The sockets fresh connection i has to stay clear of. */
  function Taken(conns: seq<Connection>, stored: map<string, int>, out: seq<Connection>, i: int): set<Socket>
    requires |out| == |conns| && 0 <= i < |conns|
  {
    set j | 0 <= j < |out| && (!Fresh(conns, stored, j) || Less(conns[j].id, conns[i].id)) :: SocketOf(out[j])
  }

  ghost predicate LeastFree(transport: string, used: set<Socket>, port: int) {
    && port >= FIRST_PORT && Socket(transport, port) !in used
    && forall q :: FIRST_PORT <= q < port ==> Socket(transport, q) in used
  }

  /** out is what the allocator answers: explicit ports stand, remembered ports are kept,
      and the rest receive, in id order, the least free port of their transport. */
  ghost predicate Allocates(conns: seq<Connection>, stored: map<string, int>, out: seq<Connection>) {
    && SameButPorts(conns, out)
    && (forall i :: 0 <= i < |conns| && conns[i].localPort != 0 ==> out[i].localPort == conns[i].localPort)
    && (forall i :: 0 <= i < |conns| && Keeps(conns, stored, i) ==> out[i].localPort == stored[conns[i].id])
    && (forall i :: 0 <= i < |conns| && Fresh(conns, stored, i) ==>
          LeastFree(NormTransport(conns[i].transport), Taken(conns, stored, out, i), out[i].localPort))
  }

  /** The ports remembered for the next round: those of the automatic connections. */
  ghost predicate Remembers(conns: seq<Connection>, out: seq<Connection>, stored: map<string, int>)
    requires |out| == |conns|
  {
    && (forall i :: 0 <= i < |conns| && conns[i].localPort == 0 ==>
          conns[i].id in stored && stored[conns[i].id] == out[i].localPort)
    && (forall id :: id in stored ==> exists i :: 0 <= i < |conns| && conns[i].localPort == 0 && conns[i].id == id)
  }

  ghost predicate DistinctSockets(cs: seq<Connection>) {
    forall i, j :: 0 <= i < j < |cs| ==> SocketOf(cs[i]) != SocketOf(cs[j])
  }

  /** What Validate guarantees about the list before ports are filled in. */
  ghost predicate Allocatable(conns: seq<Connection>) {
    && UniqueIds(conns)
    && (forall i :: 0 <= i < |conns| ==> conns[i].localPort >= 0)
    && (forall i, j :: 0 <= i < j < |conns| && conns[i].localPort > 0 && conns[j].localPort > 0 ==>
          SocketOf(conns[i]) != SocketOf(conns[j]))
  }

  lemma ValidIsAllocatable(functions: map<string, Fn>, conns: seq<Connection>)
    requires ConnectionsOk(functions, conns)
    ensures Allocatable(conns)
  {
    forall i, j | 0 <= i < j < |conns| && conns[i].localPort > 0 && conns[j].localPort > 0
      ensures SocketOf(conns[i]) != SocketOf(conns[j])
    {
      assert !ClaimsClash(conns[i], conns[j]);
      ClaimedIsBound(functions, conns[i]);
      ClaimedIsBound(functions, conns[j]);
    }
    forall i | 0 <= i < |conns| ensures conns[i].localPort >= 0 {
      assert ConnectionOk(functions, conns[i]);
    }
  }

  /** No two connections leave the allocator with the same socket. */
  lemma AllocatedSocketsDistinct(conns: seq<Connection>, stored: map<string, int>, out: seq<Connection>)
    requires Allocatable(conns) && Allocates(conns, stored, out)
    ensures DistinctSockets(out)
  {
    forall i, j | 0 <= i < j < |conns| ensures SocketOf(out[i]) != SocketOf(out[j]) {
      LessTotal(conns[i].id, conns[j].id);
      if Fresh(conns, stored, i) && (!Fresh(conns, stored, j) || Less(conns[j].id, conns[i].id)) {
        assert SocketOf(out[j]) in Taken(conns, stored, out, i);
      } else if Fresh(conns, stored, j) {
        assert SocketOf(out[i]) in Taken(conns, stored, out, j);
      } else if conns[i].localPort > 0 {
        assert SocketOf(conns[i]) in ExplicitSockets(conns);
      } else if conns[j].localPort > 0 {
        assert SocketOf(conns[j]) in ExplicitSockets(conns);
      }
    }
  }

  lemma SocketsApart(cs: seq<Connection>, i: nat, j: nat)
    requires DistinctSockets(cs) && i < |cs| && j < |cs| && i != j
    ensures SocketOf(cs[i]) != SocketOf(cs[j])
  {
    if i < j {
      assert SocketOf(cs[i]) != SocketOf(cs[j]);
    } else {
      assert SocketOf(cs[j]) != SocketOf(cs[i]);
    }
  }

  lemma {:induction false} PortsInUse(transport: string, lo: int, hi: int, used: set<Socket>)
    requires lo <= hi && forall q :: lo <= q < hi ==> Socket(transport, q) in used
    ensures hi - lo <= |used|
    decreases hi - lo
  {
    if lo < hi {
      PortsInUse(transport, lo + 1, hi, used - {Socket(transport, lo)});
    }
  }

  lemma {:induction false} MembersBound(xs: seq<Socket>)
    ensures |set x | x in xs| <= |xs|
  {
    if xs == [] {
      assert (set x | x in xs) == {};
    } else {
      MembersBound(xs[1..]);
      assert (set x | x in xs) == (set x | x in xs[1..]) + {xs[0]};
    }
  }

  lemma SubsetBound(a: set<Socket>, b: set<Socket>)
    requires a <= b
    ensures |a| <= |b|
  {
    assert b == a + (b - a);
  }

  lemma TakenIsSmall(conns: seq<Connection>, stored: map<string, int>, out: seq<Connection>, i: nat)
    requires |out| == |conns| && i < |conns| && SocketOf(out[i]) !in Taken(conns, stored, out, i)
    ensures |Taken(conns, stored, out, i)| < |conns|
  {
    var all := seq(|out|, k requires 0 <= k < |out| => SocketOf(out[k]));
    forall s | s in Taken(conns, stored, out, i) + {SocketOf(out[i])} ensures s in all {
      var j :| 0 <= j < |out| && SocketOf(out[j]) == s;
      assert all[j] == s;
    }
    MembersBound(all);
    SubsetBound(Taken(conns, stored, out, i) + {SocketOf(out[i])}, set x | x in all);
  }

  /** A fresh port lies within the first n ports from 5060, n the number of connections. */
  lemma FreshPortBound(conns: seq<Connection>, stored: map<string, int>, out: seq<Connection>, i: nat)
    requires Allocates(conns, stored, out) && i < |conns| && Fresh(conns, stored, i)
    ensures FIRST_PORT <= out[i].localPort <= FIRST_PORT + |conns| - 1
  {
    TakenIsSmall(conns, stored, out, i);
    PortsInUse(NormTransport(conns[i].transport), FIRST_PORT, out[i].localPort, Taken(conns, stored, out, i));
  }

  /** Both connections remember the same socket under the transports now configured. */
  predicate Collide(conns: seq<Connection>, stored: map<string, int>, i: int, j: int)
    requires 0 <= i < |conns| && 0 <= j < |conns|
  {
    Claims(conns, stored, i) && Claims(conns, stored, j) && StoredSocket(conns, stored, i) == StoredSocket(conns, stored, j)
  }

  /** A socket that two connections remember is always one an explicit connection names. */
  ghost predicate CollisionsNamed(conns: seq<Connection>, stored: map<string, int>) {
    forall i, j :: 0 <= i < j < |conns| && Collide(conns, stored, i, j) ==>
      StoredSocket(conns, stored, i) in ExplicitSockets(conns)
  }

  lemma KeepsUnlessNamed(conns: seq<Connection>, stored: map<string, int>, i: nat)
    requires CollisionsNamed(conns, stored) && i < |conns| && Claims(conns, stored, i)
    ensures Keeps(conns, stored, i) <==> StoredSocket(conns, stored, i) !in ExplicitSockets(conns)
  {
    forall j | 0 <= j < i && StoredSocket(conns, stored, i) !in ExplicitSockets(conns) && Claims(conns, stored, j)
      ensures StoredSocket(conns, stored, j) != StoredSocket(conns, stored, i)
    {
      assert Collide(conns, stored, j, i) ==> StoredSocket(conns, stored, j) in ExplicitSockets(conns);
    }
  }

  lemma SocketClaimed(conns: seq<Connection>, stored: map<string, int>, out: seq<Connection>, i: nat) returns (j: nat)
    requires Allocates(conns, stored, out) && i < |conns| && Claims(conns, stored, i) && !Keeps(conns, stored, i)
    ensures j < |conns| && j != i && SocketOf(out[j]) == StoredSocket(conns, stored, i)
  {
    if StoredSocket(conns, stored, i) in ExplicitSockets(conns) {
      j :| 0 <= j < |conns| && conns[j].localPort > 0 && SocketOf(conns[j]) == StoredSocket(conns, stored, i);
    } else {
      j := FirstClaimant(conns, stored, i);
    }
  }

  lemma {:induction false} FirstClaimant(conns: seq<Connection>, stored: map<string, int>, j: nat) returns (i: nat)
    requires j < |conns| && Claims(conns, stored, j) && StoredSocket(conns, stored, j) !in ExplicitSockets(conns)
    ensures i <= j && Keeps(conns, stored, i) && StoredSocket(conns, stored, i) == StoredSocket(conns, stored, j)
  {
    if k: nat :| k < j && Collide(conns, stored, k, j) {
      i := FirstClaimant(conns, stored, k);
    } else {
      i := j;
      forall k | 0 <= k < j && Claims(conns, stored, k) ensures StoredSocket(conns, stored, k) != StoredSocket(conns, stored, j) {
        assert !Collide(conns, stored, k, j);
      }
    }
  }

  /** When a connection keeps its remembered port, for every valid list and every memory:
      nobody names the socket, and no earlier connection remembers it too. */
  lemma PortKeptIff(conns: seq<Connection>, stored: map<string, int>, out: seq<Connection>, i: nat)
    requires Allocatable(conns) && Allocates(conns, stored, out) && i < |conns| && Claims(conns, stored, i)
    ensures out[i].localPort == stored[conns[i].id] <==> Keeps(conns, stored, i)
  {
    if !Keeps(conns, stored, i) {
      AllocatedSocketsDistinct(conns, stored, out);
      var j := SocketClaimed(conns, stored, out, i);
      SocketsApart(out, i, j);
    }
  }

  predicate SameTransport(a: Connection, b: Connection) { NormTransport(a.transport) == NormTransport(b.transport) }

  /** Nobody names the port remembered for connection i, and nobody listed earlier remembers
      it too. */
  ghost predicate PortFree(conns: seq<Connection>, stored: map<string, int>, i: nat)
    requires i < |conns| && conns[i].id in stored
  {
    && (forall j :: 0 <= j < |conns| && conns[j].localPort > 0 && SameTransport(conns[j], conns[i]) ==>
          conns[j].localPort != stored[conns[i].id])
    && forall k :: 0 <= k < i && conns[k].localPort == 0 && conns[k].id in stored && SameTransport(conns[k], conns[i]) ==>
         stored[conns[k].id] != stored[conns[i].id]
  }

  predicate Remembered(conns: seq<Connection>, stored: map<string, int>, i: nat)
    requires i < |conns|
  {
    conns[i].localPort == 0 && conns[i].id in stored && stored[conns[i].id] > 0
  }

  /** Connection j has port q of i's transport, and comes before i: its port was given or kept,
      or its id is smaller. */
  predicate Ahead(conns: seq<Connection>, stored: map<string, int>, out: seq<Connection>, j: nat, i: nat, q: int)
    requires |out| == |conns| && j < |conns| && i < |conns|
  {
    && out[j].localPort == q && SameTransport(conns[j], conns[i])
    && (conns[j].localPort != 0 || (Remembered(conns, stored, j) && q == stored[conns[j].id]) || Less(conns[j].id, conns[i].id))
  }

  ghost predicate PassedOver(conns: seq<Connection>, stored: map<string, int>, out: seq<Connection>, i: nat, q: int)
    requires |out| == |conns| && i < |conns|
  {
    exists j :: 0 <= j < |conns| && j != i && Ahead(conns, stored, out, j, i, q)
  }

  /** What each connection gets, in any valid list and for any memory: the port it names; the
      one remembered if nobody names it and nobody listed earlier remembers it too; otherwise,
      in the order of ids, the first from 5060 on that is left. */
  lemma AllocationMeaning(conns: seq<Connection>, stored: map<string, int>, out: seq<Connection>, i: nat)
    requires Allocatable(conns) && Allocates(conns, stored, out) && i < |conns|
    ensures |out| == |conns| && out[i] == conns[i].(localPort := out[i].localPort)
    ensures conns[i].localPort != 0 ==> out[i].localPort == conns[i].localPort
    ensures Remembered(conns, stored, i) ==> (out[i].localPort == stored[conns[i].id] <==> PortFree(conns, stored, i))
    ensures conns[i].localPort == 0 && !(Remembered(conns, stored, i) && PortFree(conns, stored, i)) ==>
              && out[i].localPort >= 5060
              && forall q :: 5060 <= q < out[i].localPort ==> PassedOver(conns, stored, out, i, q)
  {
    if conns[i].localPort == 0 {
      if Remembered(conns, stored, i) {
        PortKeptIff(conns, stored, out, i);
        KeepsMeansFree(conns, stored, i);
      }
      if Fresh(conns, stored, i) { FreshMeansFirst(conns, stored, out, i); }
    }
  }

  lemma KeepsMeansFree(conns: seq<Connection>, stored: map<string, int>, i: nat)
    requires i < |conns| && Remembered(conns, stored, i)
    ensures Keeps(conns, stored, i) <==> PortFree(conns, stored, i)
  {
    var s := StoredSocket(conns, stored, i);
    if s in ExplicitSockets(conns) {
      var j :| 0 <= j < |conns| && conns[j].localPort > 0 && SocketOf(conns[j]) == s;
      assert SameTransport(conns[j], conns[i]);
    }
    if Keeps(conns, stored, i) {
      forall j | 0 <= j < |conns| && conns[j].localPort > 0 && SameTransport(conns[j], conns[i])
        ensures conns[j].localPort != stored[conns[i].id]
      {
        assert SocketOf(conns[j]) in ExplicitSockets(conns);
      }
      forall k | 0 <= k < i && conns[k].localPort == 0 && conns[k].id in stored && SameTransport(conns[k], conns[i])
        ensures stored[conns[k].id] != stored[conns[i].id]
      {
        if stored[conns[k].id] > 0 { assert Claims(conns, stored, k); }
      }
    }
  }

  lemma FreshMeansFirst(conns: seq<Connection>, stored: map<string, int>, out: seq<Connection>, i: nat)
    requires Allocates(conns, stored, out) && i < |conns| && Fresh(conns, stored, i)
    ensures out[i].localPort >= 5060
    ensures forall q :: 5060 <= q < out[i].localPort ==> PassedOver(conns, stored, out, i, q)
  {
    forall q | 5060 <= q < out[i].localPort ensures PassedOver(conns, stored, out, i, q) {
      var s := Socket(NormTransport(conns[i].transport), q);
      assert s in Taken(conns, stored, out, i);
      var j :| 0 <= j < |out| && (!Fresh(conns, stored, j) || Less(conns[j].id, conns[i].id)) && SocketOf(out[j]) == s;
      assert Ahead(conns, stored, out, j, i, q);
    }
  }

  /** An automatic connection keeps its port unless an explicit one names it. */
  lemma UnclaimedPortKept(conns: seq<Connection>, stored: map<string, int>, out: seq<Connection>, i: nat)
    requires Allocatable(conns) && Allocates(conns, stored, out) && CollisionsNamed(conns, stored)
    requires i < |conns| && Claims(conns, stored, i)
    ensures out[i].localPort == stored[conns[i].id] <==>
              StoredSocket(conns, stored, i) !in ExplicitSockets(conns)
  {
    KeepsUnlessNamed(conns, stored, i);
    PortKeptIff(conns, stored, out, i);
  }

  /** How many fresh connections are served before connection i. */
  function Rank(conns: seq<Connection>, stored: map<string, int>, i: int): nat
    requires 0 <= i < |conns|
  {
    if Fresh(conns, stored, i) then 1 + |Before(conns, stored, i)| else 0
  }

  function Before(conns: seq<Connection>, stored: map<string, int>, i: int): set<int>
    requires 0 <= i < |conns|
  {
    set k | 0 <= k < |conns| && Fresh(conns, stored, k) && Less(conns[k].id, conns[i].id)
  }

  lemma RankDrops(conns: seq<Connection>, stored: map<string, int>, k: int, i: int)
    requires 0 <= i < |conns| && 0 <= k < |conns| && Fresh(conns, stored, i)
    requires !Fresh(conns, stored, k) || Less(conns[k].id, conns[i].id)
    ensures Rank(conns, stored, k) < Rank(conns, stored, i)
  {
    if Fresh(conns, stored, k) {
      var small, big := Before(conns, stored, k), Before(conns, stored, i);
      forall m | m in small ensures m in big { LessTransitive(conns[m].id, conns[k].id, conns[i].id); }
      assert k in big;
      if Less(conns[k].id, conns[k].id) { LessAsymmetric(conns[k].id, conns[k].id); }
      assert k !in small;
      assert big == small + (big - small) && k in big - small;
    }
  }

  lemma SameExplicit(a: seq<Connection>, b: seq<Connection>)
    requires multiset(a) == multiset(b)
    ensures ExplicitSockets(a) == ExplicitSockets(b)
  {
    SameMembers(a, b);
    forall s ensures s in ExplicitSockets(a) <==> s in ExplicitSockets(b) {
      if s in ExplicitSockets(a) {
        var i :| 0 <= i < |a| && a[i].localPort > 0 && SocketOf(a[i]) == s;
        assert a[i] in b;
        var j :| 0 <= j < |b| && b[j] == a[i];
      }
      if s in ExplicitSockets(b) {
        var i :| 0 <= i < |b| && b[i].localPort > 0 && SocketOf(b[i]) == s;
        assert b[i] in a;
        var j :| 0 <= j < |a| && a[j] == b[i];
      }
    }
  }

  lemma SameKeeps(a: seq<Connection>, b: seq<Connection>, stored: map<string, int>, i: nat, j: nat)
    requires multiset(a) == multiset(b) && CollisionsNamed(a, stored) && CollisionsNamed(b, stored)
    requires i < |a| && j < |b| && a[i] == b[j]
    ensures Keeps(a, stored, i) == Keeps(b, stored, j) && Fresh(a, stored, i) == Fresh(b, stored, j)
  {
    SameExplicit(a, b);
    if Claims(a, stored, i) {
      KeepsUnlessNamed(a, stored, i);
      KeepsUnlessNamed(b, stored, j);
    }
  }

  lemma TakenAgrees(a: seq<Connection>, b: seq<Connection>, stored: map<string, int>,
                    outA: seq<Connection>, outB: seq<Connection>, i: nat, j: nat)
    requires multiset(a) == multiset(b) && CollisionsNamed(a, stored) && CollisionsNamed(b, stored)
    requires |outA| == |a| && |outB| == |b| && i < |a| && j < |b| && a[i] == b[j]
    requires forall k, m :: 0 <= k < |a| && 0 <= m < |b| && a[k] == b[m] ==>
                              (!Fresh(a, stored, k) || Less(a[k].id, a[i].id)) ==> outA[k] == outB[m]
    ensures Taken(a, stored, outA, i) <= Taken(b, stored, outB, j)
  {
    SameMembers(a, b);
    forall s | s in Taken(a, stored, outA, i) ensures s in Taken(b, stored, outB, j) {
      var k :| 0 <= k < |outA| && (!Fresh(a, stored, k) || Less(a[k].id, a[i].id)) && SocketOf(outA[k]) == s;
      assert a[k] in b;
      var m :| 0 <= m < |b| && b[m] == a[k];
      SameKeeps(a, b, stored, k, m);
      assert SocketOf(outB[m]) == s;
    }
  }

  lemma {:induction false} PortsAgree(a: seq<Connection>, b: seq<Connection>, stored: map<string, int>,
                                      outA: seq<Connection>, outB: seq<Connection>, i: nat, j: nat)
    requires multiset(a) == multiset(b) && CollisionsNamed(a, stored) && CollisionsNamed(b, stored)
    requires Allocates(a, stored, outA) && Allocates(b, stored, outB)
    requires i < |a| && j < |b| && a[i] == b[j]
    ensures outA[i] == outB[j]
    decreases Rank(a, stored, i)
  {
    SameKeeps(a, b, stored, i, j);
    if Fresh(a, stored, i) {
      forall k, m | 0 <= k < |a| && 0 <= m < |b| && a[k] == b[m]
                    && (!Fresh(a, stored, k) || Less(a[k].id, a[i].id))
        ensures outA[k] == outB[m] && Fresh(a, stored, k) == Fresh(b, stored, m)
      {
        SameKeeps(a, b, stored, k, m);
        RankDrops(a, stored, k, i);
        PortsAgree(a, b, stored, outA, outB, k, m);
      }
      forall k, m | 0 <= k < |a| && 0 <= m < |b| && a[k] == b[m]
                    && (!Fresh(b, stored, m) || Less(b[m].id, b[j].id))
        ensures outB[m] == outA[k]
      {
        SameKeeps(a, b, stored, k, m);
      }
      TakenAgrees(a, b, stored, outA, outB, i, j);
      TakenAgrees(b, a, stored, outB, outA, j, i);
    }
  }

  lemma UniqueAnyOrder(a: seq<Connection>, b: seq<Connection>)
    requires multiset(a) == multiset(b) && UniqueIds(a)
    ensures UniqueIds(b)
  {
    SameMembers(a, b);
    DistinctMultiset(a);
    DistinctMultiset(b);
    forall i, j | 0 <= i < j < |b| ensures b[i].id != b[j].id {
      assert b[i] in a && b[j] in a && b[i] != b[j];
      var k :| 0 <= k < |a| && a[k] == b[i];
      var m :| 0 <= m < |a| && a[m] == b[j];
      assert k < m ==> a[k].id != a[m].id;
      assert m < k ==> a[m].id != a[k].id;
    }
  }

  lemma AllocatableAnyOrder(a: seq<Connection>, b: seq<Connection>)
    requires multiset(a) == multiset(b) && Allocatable(a)
    ensures Allocatable(b)
  {
    SameMembers(a, b);
    UniqueAnyOrder(a, b);
    forall i | 0 <= i < |b| ensures b[i].localPort >= 0 { assert b[i] in a; }
    forall i, j | 0 <= i < j < |b| && b[i].localPort > 0 && b[j].localPort > 0 ensures SocketOf(b[i]) != SocketOf(b[j]) {
      assert b[i] in a && b[j] in a && b[i].id != b[j].id;
      var k :| 0 <= k < |a| && a[k] == b[i];
      var m :| 0 <= m < |a| && a[m] == b[j];
      assert k < m ==> SocketOf(a[k]) != SocketOf(a[m]);
      assert m < k ==> SocketOf(a[m]) != SocketOf(a[k]);
    }
  }

  lemma CollisionsNamedAnyOrder(a: seq<Connection>, b: seq<Connection>, stored: map<string, int>)
    requires multiset(a) == multiset(b) && UniqueIds(b) && CollisionsNamed(a, stored)
    ensures CollisionsNamed(b, stored)
  {
    SameMembers(a, b);
    SameExplicit(a, b);
    forall i, j | 0 <= i < j < |b| && Collide(b, stored, i, j)
      ensures StoredSocket(b, stored, i) in ExplicitSockets(b)
    {
      assert b[i] in a && b[j] in a && b[i].id != b[j].id;
      var k :| 0 <= k < |a| && a[k] == b[i];
      var m :| 0 <= m < |a| && a[m] == b[j];
      assert Collide(a, stored, k, m) && Collide(a, stored, m, k);
    }
  }

  /** Each connection receives the same port in both lists. */
  ghost predicate SamePorts(a: seq<Connection>, b: seq<Connection>, outA: seq<Connection>, outB: seq<Connection>)
    requires |outA| == |a| && |outB| == |b|
  {
    forall i, j :: 0 <= i < |a| && 0 <= j < |b| && a[i] == b[j] ==> outA[i] == outB[j]
  }

  /** The port each connection receives does not depend on the order of the list. */
  lemma AllocationOrderIrrelevant(a: seq<Connection>, b: seq<Connection>, stored: map<string, int>,
                                  outA: seq<Connection>, outB: seq<Connection>)
    requires Allocatable(a) && multiset(a) == multiset(b) && CollisionsNamed(a, stored)
    requires Allocates(a, stored, outA) && Allocates(b, stored, outB)
    ensures SamePorts(a, b, outA, outB)
  {
    AllocatableAnyOrder(a, b);
    CollisionsNamedAnyOrder(a, b, stored);
    forall i, j | 0 <= i < |a| && 0 <= j < |b| && a[i] == b[j] ensures outA[i] == outB[j] {
      PortsAgree(a, b, stored, outA, outB, i, j);
    }
  }

  lemma SwapIsPermutation(a: seq<Connection>, i: nat, j: nat)
    requires i < j < |a|
    ensures multiset(a[i := a[j]][j := a[i]]) == multiset(a)
  {
  }

  /** The converse: the first of two connections that remember a socket nobody names loses
      its port when the two change places. */
  lemma SwapMovesPort(a: seq<Connection>, stored: map<string, int>, i: nat, j: nat, b: seq<Connection>,
                      outA: seq<Connection>, outB: seq<Connection>)
    requires Allocatable(a) && i < j < |a| && Keeps(a, stored, i) && Collide(a, stored, i, j)
    requires b == a[i := a[j]][j := a[i]]
    requires Allocates(a, stored, outA) && Allocates(b, stored, outB)
    ensures outA[i].localPort != outB[j].localPort
  {
    SwapIsPermutation(a, i, j);
    SameExplicit(a, b);
    AllocatableAnyOrder(a, b);
    var socket := StoredSocket(a, stored, i);
    forall k | 0 <= k < i && Claims(b, stored, k) ensures StoredSocket(b, stored, k) != socket {
      assert b[k] == a[k] && Claims(a, stored, k);
    }
    assert b[i] == a[j] && Keeps(b, stored, i);
    AllocatedSocketsDistinct(b, stored, outB);
    SocketsApart(outB, i, j);
    assert SocketOf(outB[i]) == socket && SocketOf(outA[i]) == socket;
    assert SocketOf(outB[j]) != socket && SocketOf(outB[j]) == SocketAt(a[i], outB[j].localPort);
    assert outA[i].localPort == stored[a[i].id] && socket == SocketAt(a[i], stored[a[i].id]);
    assert stored[a[i].id] != outB[j].localPort;
  }

  /** Whatever the order of the list, every connection receives the same port. */
  ghost predicate OrderIrrelevant(a: seq<Connection>, stored: map<string, int>) {
    forall b, outA, outB :: multiset(a) == multiset(b) && Allocates(a, stored, outA) && Allocates(b, stored, outB) ==>
      SamePorts(a, b, outA, outB)
  }

  lemma UnnamedCollisionMatters(a: seq<Connection>, stored: map<string, int>, i: nat, j: nat)
    requires Allocatable(a) && i < j < |a| && Keeps(a, stored, i) && Collide(a, stored, i, j)
    ensures !OrderIrrelevant(a, stored)
  {
    var b := a[i := a[j]][j := a[i]];
    SwapIsPermutation(a, i, j);
    AllocatableAnyOrder(a, b);
    var outA := AllocationExists(a, stored);
    var outB := AllocationExists(b, stored);
    SwapMovesPort(a, stored, i, j, b, outA, outB);
    assert a[i] == b[j] && !SamePorts(a, b, outA, outB);
  }

  /** The order of the list does not matter exactly when every socket remembered twice is named. */
  lemma OrderIrrelevantIff(a: seq<Connection>, stored: map<string, int>)
    requires Allocatable(a)
    ensures OrderIrrelevant(a, stored) <==> CollisionsNamed(a, stored)
  {
    if CollisionsNamed(a, stored) {
      forall b, outA, outB | multiset(a) == multiset(b) && Allocates(a, stored, outA) && Allocates(b, stored, outB)
        ensures SamePorts(a, b, outA, outB)
      {
        AllocationOrderIrrelevant(a, b, stored, outA, outB);
      }
    } else {
      var k, j :| 0 <= k < j < |a| && Collide(a, stored, k, j) && StoredSocket(a, stored, k) !in ExplicitSockets(a);
      var i := FirstClaimant(a, stored, k);
      UnnamedCollisionMatters(a, stored, i, j);
    }
  }

  function At5060(c: Connection): Connection { c.(localPort := 5060) }

  /** With nothing remembered, two connections over different transports both receive 5060. */
  lemma BothReceive5060(x: Connection, y: Connection)
    requires x.localPort == 0 && y.localPort == 0 && Less(x.id, y.id)
    requires NormTransport(x.transport) != NormTransport(y.transport)
    ensures Allocates([x, y], map[], [At5060(x), At5060(y)])
  {
    var conns, out := [x, y], [At5060(x), At5060(y)];
    LessAsymmetric(x.id, y.id);
    assert !Less(x.id, x.id) by { if Less(x.id, x.id) { LessAsymmetric(x.id, x.id); } }
    assert !Less(y.id, y.id) by { if Less(y.id, y.id) { LessAsymmetric(y.id, y.id); } }
    assert Fresh(conns, map[], 0) && Fresh(conns, map[], 1);
    assert Taken(conns, map[], out, 0) == {};
    forall s | s in Taken(conns, map[], out, 1) ensures s == Socket(NormTransport(x.transport), 5060) {
      var j :| 0 <= j < |out| && Less(conns[j].id, y.id) && SocketOf(out[j]) == s;
    }
  }

  lemma BothRemembered(x: Connection, y: Connection)
    requires x.localPort == 0 && y.localPort == 0 && x.id != y.id
    ensures Remembers([x, y], [At5060(x), At5060(y)], map[x.id := 5060, y.id := 5060])
  {
    var conns := [x, y];
    assert conns[0].id == x.id && conns[1].id == y.id;
  }

  /** Both remember 5060 and now share a transport: whoever is listed first has it. */
  lemma FirstListedKeeps(x: Connection, y: Connection, stored: map<string, int>, out: seq<Connection>)
    requires x.localPort == 0 && y.localPort == 0 && x.transport == y.transport
    requires x.id in stored && y.id in stored && stored[x.id] == 5060 && stored[y.id] == 5060
    requires Allocates([x, y], stored, out)
    ensures out[0].localPort == 5060 && out[1].localPort == 5061
  {
    var conns := [x, y];
    assert ExplicitSockets(conns) == {};
    assert Keeps(conns, stored, 0);
    assert Claims(conns, stored, 0) && StoredSocket(conns, stored, 0) == StoredSocket(conns, stored, 1);
    assert Fresh(conns, stored, 1);
    var taken, t := Taken(conns, stored, out, 1), NormTransport(y.transport);
    if Less(y.id, y.id) { LessAsymmetric(y.id, y.id); }
    assert SocketOf(out[0]) == Socket(t, 5060) && SocketOf(out[0]) in taken;
    forall s | s in taken ensures s == Socket(t, 5060) {
      var j :| 0 <= j < |out| && (!Fresh(conns, stored, j) || Less(conns[j].id, y.id)) && SocketOf(out[j]) == s;
    }
    assert LeastFree(t, taken, out[1].localPort);
    assert Socket(t, 5061) !in taken;
  }

  /** Two automatic connections of one entrypoint. */
  function Pair(x: string, t: string, y: string, u: string): seq<Connection> {
    [Endpoint(x, t, 0, "main"), Endpoint(y, u, 0, "main")]
  }

  lemma PairOk(functions: map<string, Fn>, x: string, t: string, y: string, u: string)
    requires IdOk(x) && IdOk(y) && x != y && t in {"udp", "tcp"} && u in {"udp", "tcp"} && "main" in functions
    ensures ConnectionsOk(functions, Pair(x, t, y, u))
  {
    EndpointOk(functions, x, t, 0, "main");
    EndpointOk(functions, y, u, 0, "main");
    TwoAutomaticOk(functions, Endpoint(x, t, 0, "main"), Endpoint(y, u, 0, "main"));
  }

  lemma TwoAutomaticOk(functions: map<string, Fn>, a: Connection, b: Connection)
    requires ConnectionOk(functions, a) && ConnectionOk(functions, b) && a.id != b.id && a.localPort == 0
    ensures ConnectionsOk(functions, [a, b])
  {
  }

  /** A memory an earlier round leaves behind, 5060 over udp and 5060 over tcp. When both
      connections are then udp, the first in the list has 5060 and the other 5061. */
  lemma CollidingMemoryDependsOnOrder(functions: map<string, Fn>, outA: seq<Connection>, outB: seq<Connection>)
    requires "main" in functions
    requires Allocates(Pair("a", "udp", "b", "udp"), map["a" := 5060, "b" := 5060], outA)
    requires Allocates(Pair("b", "udp", "a", "udp"), map["a" := 5060, "b" := 5060], outB)
    ensures ConnectionsOk(functions, Pair("a", "udp", "b", "tcp"))
    ensures ConnectionsOk(functions, Pair("a", "udp", "b", "udp")) && ConnectionsOk(functions, Pair("b", "udp", "a", "udp"))
    ensures var before := Pair("a", "udp", "b", "tcp"); var out := [At5060(before[0]), At5060(before[1])];
            Allocates(before, map[], out) && Remembers(before, out, map["a" := 5060, "b" := 5060])
    ensures outA[0].localPort == 5060 && outA[1].localPort == 5061
    ensures outB[0].localPort == 5060 && outB[1].localPort == 5061
  {
    PairOk(functions, "a", "udp", "b", "tcp");
    PairOk(functions, "a", "udp", "b", "udp");
    PairOk(functions, "b", "udp", "a", "udp");
    UdpThenTcp();
    var x, y := Endpoint("a", "udp", 0, "main"), Endpoint("b", "udp", 0, "main");
    FirstListedKeeps(x, y, map["a" := 5060, "b" := 5060], outA);
    FirstListedKeeps(y, x, map["a" := 5060, "b" := 5060], outB);
  }

  lemma UdpThenTcp()
    ensures var before := Pair("a", "udp", "b", "tcp"); var out := [At5060(before[0]), At5060(before[1])];
            Allocates(before, map[], out) && Remembers(before, out, map["a" := 5060, "b" := 5060])
  {
    var x, z := Endpoint("a", "udp", 0, "main"), Endpoint("b", "tcp", 0, "main");
    UdpIsNotTcp();
    assert Less("a", "b");
    BothReceive5060(x, z);
    BothRemembered(x, z);
  }

  lemma UdpIsNotTcp()
    ensures NormTransport("udp") != NormTransport("tcp")
  {
    assert TrimSpace("udp") == "udp" && TrimSpace("tcp") == "tcp";
    assert ToLower("udp")[0] == 'u' && ToLower("tcp")[0] == 't';
  }

  /** Every connection that stays automatic keeps its transport between two lists. */
  ghost predicate SameTransports(before: seq<Connection>, after: seq<Connection>) {
    forall i, j :: 0 <= i < |before| && 0 <= j < |after| && before[i].id == after[j].id
                   && before[i].localPort == 0 && after[j].localPort == 0
                   ==> NormTransport(before[i].transport) == NormTransport(after[j].transport)
  }

  lemma RememberedSocket(before: seq<Connection>, out: seq<Connection>, after: seq<Connection>,
                         remembered: map<string, int>, j: nat) returns (i: nat)
    requires UniqueIds(before) && SameButPorts(before, out) && Remembers(before, out, remembered)
    requires SameTransports(before, after)
    requires j < |after| && Claims(after, remembered, j)
    ensures i < |before| && before[i].localPort == 0 && before[i].id == after[j].id
    ensures StoredSocket(after, remembered, j) == SocketOf(out[i])
  {
    i :| 0 <= i < |before| && before[i].localPort == 0 && before[i].id == after[j].id;
  }

  lemma RememberedPortsDistinct(before: seq<Connection>, out: seq<Connection>,
                                after: seq<Connection>, remembered: map<string, int>)
    requires UniqueIds(before) && SameButPorts(before, out) && Remembers(before, out, remembered)
    requires DistinctSockets(out) && UniqueIds(after) && SameTransports(before, after)
    ensures CollisionsNamed(after, remembered)
  {
    forall j: nat, k: nat | j < k < |after| && Claims(after, remembered, j) && Claims(after, remembered, k)
      ensures !Collide(after, remembered, j, k)
    {
      var p := RememberedSocket(before, out, after, remembered, j);
      var q := RememberedSocket(before, out, after, remembered, k);
      SocketsApart(out, p, q);
    }
  }

  /** The port of a connection automatic in two successive lists stays the same, whatever else
      changes, exactly when nobody names it and no connection listed earlier remembers it too. */
  lemma PortStaysIff(before: seq<Connection>, stored: map<string, int>, out: seq<Connection>,
                     after: seq<Connection>, remembered: map<string, int>, again: seq<Connection>, i: nat, j: nat)
    requires Allocatable(before) && Allocates(before, stored, out) && Remembers(before, out, remembered)
    requires Allocatable(after) && Allocates(after, remembered, again)
    requires i < |before| && j < |after| && before[i].id == after[j].id
    requires before[i].localPort == 0 && after[j].localPort == 0
    ensures again[j].localPort == out[i].localPort <==> Keeps(after, remembered, j)
  {
    if !Keeps(before, stored, i) {
      FreshPortBound(before, stored, out, i);
    }
    assert Claims(after, remembered, j);
    PortKeptIff(after, remembered, again, j);
  }

  /** Reload stability: a connection that was automatic before, under the same transport,
      keeps its port in any later list that does not name it explicitly. */
  lemma ReloadKeepsPorts(before: seq<Connection>, stored: map<string, int>, out: seq<Connection>,
                         after: seq<Connection>, remembered: map<string, int>, again: seq<Connection>,
                         i: nat, j: nat)
    requires Allocatable(before) && Allocates(before, stored, out) && Remembers(before, out, remembered)
    requires Allocatable(after) && Allocates(after, remembered, again) && SameTransports(before, after)
    requires i < |before| && j < |after| && before[i].id == after[j].id
    requires before[i].localPort == 0 && after[j].localPort == 0
    ensures again[j].localPort == out[i].localPort <==> SocketOf(out[i]) !in ExplicitSockets(after)
  {
    AllocatedSocketsDistinct(before, stored, out);
    RememberedPortsDistinct(before, out, after, remembered);
    PortStaysIff(before, stored, out, after, remembered, again, i, j);
    if !Keeps(before, stored, i) {
      FreshPortBound(before, stored, out, i);
    }
    assert Claims(after, remembered, j);
    KeepsUnlessNamed(after, remembered, j);
  }

  // ------------------------------------------------- the allocation loops

  function ExplicitIds(conns: seq<Connection>): set<string> {
    set i | 0 <= i < |conns| && conns[i].localPort > 0 :: conns[i].id
  }

  lemma ExplicitStep(conns: seq<Connection>, i: nat)
    requires i < |conns|
    ensures ExplicitSockets(conns[..i + 1])
              == ExplicitSockets(conns[..i]) + if conns[i].localPort > 0 then {SocketOf(conns[i])} else {}
    ensures ExplicitIds(conns[..i + 1])
              == ExplicitIds(conns[..i]) + if conns[i].localPort > 0 then {conns[i].id} else {}
  {
    var a, b := conns[..i], conns[..i + 1];
    assert forall k :: 0 <= k < i ==> a[k] == b[k];
    assert b[i] == conns[i];
  }

  lemma AutomaticNotExplicit(conns: seq<Connection>, i: nat)
    requires UniqueIds(conns) && i < |conns| && conns[i].localPort == 0
    ensures conns[i].id !in ExplicitIds(conns)
  {
  }

  /** The first n ports after the second loop has seen n connections. */
  ghost predicate Copied(conns: seq<Connection>, stored: map<string, int>, out: seq<Connection>, n: int)
    requires 0 <= n <= |conns|
  {
    && SameButPorts(conns, out)
    && (forall k :: n <= k < |conns| ==> out[k] == conns[k])
    && (forall k :: 0 <= k < n && conns[k].localPort != 0 ==> out[k] == conns[k])
    && (forall k :: 0 <= k < n && Keeps(conns, stored, k) ==> out[k].localPort == stored[conns[k].id])
  }

  ghost predicate Owned(conns: seq<Connection>, stored: map<string, int>, n: int, s: Socket)
    requires 0 <= n <= |conns|
  {
    s in ExplicitSockets(conns) || exists k :: 0 <= k < n && Keeps(conns, stored, k) && StoredSocket(conns, stored, k) == s
  }

  /** The sockets in use after the second loop has seen n connections. */
  ghost predicate Reserved(conns: seq<Connection>, stored: map<string, int>, used: set<Socket>, n: int)
    requires 0 <= n <= |conns|
  {
    && ExplicitSockets(conns) <= used
    && (forall k :: 0 <= k < n && Claims(conns, stored, k) ==> StoredSocket(conns, stored, k) in used)
    && (forall s :: s in used ==> Owned(conns, stored, n, s))
  }

  ghost predicate Queued(conns: seq<Connection>, stored: map<string, int>, automatic: seq<nat>, n: int)
    requires 0 <= n <= |conns|
  {
    && Distinct(automatic)
    && (forall k :: k in automatic <==> 0 <= k < n && Fresh(conns, stored, k))
  }

  /** The allocation after the second loop has seen the first n connections. */
  ghost predicate Kept(conns: seq<Connection>, stored: map<string, int>, out: seq<Connection>,
                       used: set<Socket>, automatic: seq<nat>, n: int)
  {
    && 0 <= n <= |conns| && Copied(conns, stored, out, n)
    && Reserved(conns, stored, used, n) && Queued(conns, stored, automatic, n)
  }

  lemma KeepsIfFree(conns: seq<Connection>, stored: map<string, int>, used: set<Socket>, i: nat)
    requires i < |conns| && Reserved(conns, stored, used, i)
    ensures Keeps(conns, stored, i) <==> Claims(conns, stored, i) && StoredSocket(conns, stored, i) !in used
  {
    if Claims(conns, stored, i) && StoredSocket(conns, stored, i) in used {
      assert Owned(conns, stored, i, StoredSocket(conns, stored, i));
    }
  }

  lemma OwnedGrows(conns: seq<Connection>, stored: map<string, int>, n: nat, s: Socket)
    requires n < |conns| && Owned(conns, stored, n, s)
    ensures Owned(conns, stored, n + 1, s)
  {
    if s !in ExplicitSockets(conns) {
      var k :| 0 <= k < n && Keeps(conns, stored, k) && StoredSocket(conns, stored, k) == s;
      assert 0 <= k < n + 1;
    }
  }

  lemma ReservedStep(conns: seq<Connection>, stored: map<string, int>, used: set<Socket>, i: nat)
    requires i < |conns| && Reserved(conns, stored, used, i)
    ensures Reserved(conns, stored, if Keeps(conns, stored, i) then used + {StoredSocket(conns, stored, i)} else used, i + 1)
  {
    KeepsIfFree(conns, stored, used, i);
    forall s | s in used ensures Owned(conns, stored, i + 1, s) {
      OwnedGrows(conns, stored, i, s);
    }
    if Keeps(conns, stored, i) {
      assert Owned(conns, stored, i + 1, StoredSocket(conns, stored, i));
    }
  }

  lemma CopiedStep(conns: seq<Connection>, stored: map<string, int>, out: seq<Connection>, i: nat)
    requires i < |conns| && Copied(conns, stored, out, i)
    ensures Copied(conns, stored,
                   if Keeps(conns, stored, i) then out[i := conns[i].(localPort := stored[conns[i].id])] else out, i + 1)
  {
  }

  lemma QueuedOne(conns: seq<Connection>, stored: map<string, int>, automatic: seq<nat>, i: nat)
    requires i < |conns| && Queued(conns, stored, automatic, i)
    ensures Queued(conns, stored, if Fresh(conns, stored, i) then automatic + [i] else automatic, i + 1)
  {
    if Fresh(conns, stored, i) {
      var longer := automatic + [i];
      forall a, b | 0 <= a < b < |longer| ensures longer[a] != longer[b] {
        assert automatic[a] in automatic;
        if b < |automatic| { assert automatic[b] in automatic; }
      }
      assert forall k :: k in longer <==> k in automatic || k == i;
    }
  }

  /** One connection of the second loop: it keeps its remembered port, is queued, or is explicit. */
  lemma KeptStep(conns: seq<Connection>, stored: map<string, int>, out: seq<Connection>,
                 used: set<Socket>, automatic: seq<nat>, i: nat)
    requires Kept(conns, stored, out, used, automatic, i) && i < |conns|
    ensures Keeps(conns, stored, i) <==> Claims(conns, stored, i) && StoredSocket(conns, stored, i) !in used
    ensures Kept(conns, stored,
                 if Keeps(conns, stored, i) then out[i := conns[i].(localPort := stored[conns[i].id])] else out,
                 if Keeps(conns, stored, i) then used + {StoredSocket(conns, stored, i)} else used,
                 if Fresh(conns, stored, i) then automatic + [i] else automatic, i + 1)
  {
    KeepsIfFree(conns, stored, used, i);
    CopiedStep(conns, stored, out, i);
    ReservedStep(conns, stored, used, i);
    QueuedOne(conns, stored, automatic, i);
  }

  /** First loop of allocatePortsLocked: explicit ports are claimed and no longer remembered. */
  method ClaimExplicit(conns: seq<Connection>, stored: map<string, int>)
    returns (used: set<Socket>, memory: map<string, int>)
    ensures used == ExplicitSockets(conns) && memory == stored - ExplicitIds(conns)
  {
    used, memory := {}, stored;
    for i := 0 to |conns|
      invariant used == ExplicitSockets(conns[..i]) && memory == stored - ExplicitIds(conns[..i])
    {
      ExplicitStep(conns, i);
      if conns[i].localPort > 0 {
        used := used + {SocketOf(conns[i])};
        memory := memory - {conns[i].id};
      }
    }
    assert conns[..|conns|] == conns;
  }

  lemma MemoryLookup(conns: seq<Connection>, stored: map<string, int>, memory: map<string, int>, i: nat, port: int)
    requires UniqueIds(conns) && memory == stored - ExplicitIds(conns) && i < |conns| && conns[i].localPort == 0
    requires port == if conns[i].id in memory then memory[conns[i].id] else 0
    ensures port > 0 <==> Claims(conns, stored, i)
    ensures port > 0 ==> port == stored[conns[i].id] && SocketAt(conns[i], port) == StoredSocket(conns, stored, i)
  {
    AutomaticNotExplicit(conns, i);
  }

  /** Second loop: automatic connections take their remembered port again if it is free;
      the others are queued. */
  method KeepStored(conns: seq<Connection>, ghost stored: map<string, int>, memory: map<string, int>, claimed: set<Socket>)
    returns (out: seq<Connection>, used: set<Socket>, automatic: seq<nat>)
    requires Allocatable(conns) && claimed == ExplicitSockets(conns) && memory == stored - ExplicitIds(conns)
    ensures Kept(conns, stored, out, used, automatic, |conns|)
  {
    out, used, automatic := conns, claimed, [];
    for i := 0 to |conns|
      invariant Kept(conns, stored, out, used, automatic, i)
    {
      assert out[i] == conns[i];
      KeptStep(conns, stored, out, used, automatic, i);
      if out[i].localPort != 0 {
        continue;
      }
      var port := if out[i].id in memory then memory[out[i].id] else 0;
      MemoryLookup(conns, stored, memory, i, port);
      if port > 0 && SocketAt(out[i], port) !in used {
        out := out[i := conns[i].(localPort := port)];
        used := used + {SocketAt(conns[i], port)};
      } else {
        automatic := automatic + [i];
      }
    }
  }

  /** The next port at or above 5060 that is not in use. */
  method FirstFree(transport: string, used: set<Socket>) returns (port: int)
    ensures LeastFree(transport, used, port)
  {
    port := FIRST_PORT;
    ghost var above := used;
    while Socket(transport, port) in used
      invariant port >= FIRST_PORT && forall q :: FIRST_PORT <= q < port ==> Socket(transport, q) in used
      invariant above <= used && forall q :: q >= port && Socket(transport, q) in used ==> Socket(transport, q) in above
      decreases |above|
    {
      above := above - {Socket(transport, port)};
      port := port + 1;
    }
  }

  /** The allocation after the queue has been served up to position n. */
  ghost predicate Served(conns: seq<Connection>, stored: map<string, int>, out: seq<Connection>,
                         used: set<Socket>, queue: seq<nat>, n: int)
  {
    && 0 <= n <= |queue| && SameButPorts(conns, out) && InIdOrder(conns, stored, queue)
    && (forall k :: 0 <= k < |conns| && conns[k].localPort != 0 ==> out[k] == conns[k])
    && (forall k :: 0 <= k < |conns| && Keeps(conns, stored, k) ==> out[k].localPort == stored[conns[k].id])
    && used == SettledSockets(conns, stored, out, queue, n)
    && (forall m :: 0 <= m < n ==>
          LeastFree(NormTransport(conns[queue[m]].transport), Taken(conns, stored, out, queue[m]), out[queue[m]].localPort))
  }

  /** queue lists the fresh connections by increasing id. */
  ghost predicate InIdOrder(conns: seq<Connection>, stored: map<string, int>, queue: seq<nat>) {
    && (forall m :: 0 <= m < |queue| ==> queue[m] < |conns| && Fresh(conns, stored, queue[m]))
    && (forall k :: 0 <= k < |conns| && Fresh(conns, stored, k) ==> exists m :: 0 <= m < |queue| && queue[m] == k)
    && (forall m, p :: 0 <= m < p < |queue| ==> Less(conns[queue[m]].id, conns[queue[p]].id))
  }

  ghost predicate Settled(conns: seq<Connection>, stored: map<string, int>, queue: seq<nat>, n: int, k: int)
    requires 0 <= k < |conns| && 0 <= n <= |queue|
  {
    !Fresh(conns, stored, k) || exists m :: 0 <= m < n && queue[m] == k
  }

  ghost function SettledSockets(conns: seq<Connection>, stored: map<string, int>, out: seq<Connection>,
                                queue: seq<nat>, n: int): set<Socket>
    requires |out| == |conns| && 0 <= n <= |queue|
  {
    set k | 0 <= k < |out| && Settled(conns, stored, queue, n, k) :: SocketOf(out[k])
  }

  lemma QueueInIdOrder(conns: seq<Connection>, stored: map<string, int>, automatic: seq<nat>, queue: seq<nat>, key: nat -> string)
    requires UniqueIds(conns) && Distinct(automatic)
    requires forall k :: k in automatic <==> 0 <= k < |conns| && Fresh(conns, stored, k)
    requires forall k :: 0 <= k < |conns| ==> key(k) == conns[k].id
    requires queue == SortBy(automatic, key)
    ensures InIdOrder(conns, stored, queue)
  {
    SortSorted(automatic, key);
    SortDistinct(automatic, key);
    SameMembers(automatic, queue);
    forall m | 0 <= m < |queue| ensures queue[m] < |conns| && Fresh(conns, stored, queue[m]) {
      assert queue[m] in queue;
    }
    forall m, p | 0 <= m < p < |queue| ensures Less(conns[queue[m]].id, conns[queue[p]].id) {
      LessTotal(conns[queue[m]].id, conns[queue[p]].id);
      assert !Less(key(queue[p]), key(queue[m]));
      assert queue[m] != queue[p];
    }
  }

  /** What is settled before position n is exactly what connection queue[n] must avoid. */
  lemma SettledIsTaken(conns: seq<Connection>, stored: map<string, int>, out: seq<Connection>, queue: seq<nat>, n: nat)
    requires |out| == |conns| && InIdOrder(conns, stored, queue) && n < |queue|
    ensures SettledSockets(conns, stored, out, queue, n) == Taken(conns, stored, out, queue[n])
  {
    forall k | 0 <= k < |conns|
      ensures Settled(conns, stored, queue, n, k) <==> !Fresh(conns, stored, k) || Less(conns[k].id, conns[queue[n]].id)
    {
      if Fresh(conns, stored, k) {
        var m :| 0 <= m < |queue| && queue[m] == k;
        if m < n {
        } else if n < m {
          LessAsymmetric(conns[queue[n]].id, conns[k].id);
        } else if Less(conns[k].id, conns[k].id) {
          LessAsymmetric(conns[k].id, conns[k].id);
        }
      }
    }
  }

  /** Filling in one more port leaves alone what the connections served before avoided. */
  lemma TakenUnaffected(conns: seq<Connection>, stored: map<string, int>, out: seq<Connection>, queue: seq<nat>,
                        m: nat, n: nat, port: int)
    requires SameButPorts(conns, out) && InIdOrder(conns, stored, queue) && m < n < |queue|
    ensures var more := out[queue[n] := conns[queue[n]].(localPort := port)];
            Taken(conns, stored, more, queue[m]) == Taken(conns, stored, out, queue[m]) && more[queue[m]] == out[queue[m]]
  {
    LessAsymmetric(conns[queue[m]].id, conns[queue[n]].id);
  }

  lemma KeptSockets(conns: seq<Connection>, stored: map<string, int>, out: seq<Connection>,
                    used: set<Socket>, automatic: seq<nat>, k: nat)
    requires Allocatable(conns) && Kept(conns, stored, out, used, automatic, |conns|)
    requires k < |conns| && !Fresh(conns, stored, k)
    ensures SocketOf(out[k]) in used
    ensures conns[k].localPort > 0 ==> SocketOf(out[k]) == SocketOf(conns[k])
    ensures Keeps(conns, stored, k) ==> SocketOf(out[k]) == StoredSocket(conns, stored, k)
  {
    if conns[k].localPort > 0 {
      assert SocketOf(conns[k]) in ExplicitSockets(conns);
    }
  }

  lemma KeptMeansServed(conns: seq<Connection>, stored: map<string, int>, out: seq<Connection>,
                        used: set<Socket>, automatic: seq<nat>, queue: seq<nat>)
    requires Allocatable(conns) && Kept(conns, stored, out, used, automatic, |conns|) && InIdOrder(conns, stored, queue)
    ensures Served(conns, stored, out, used, queue, 0)
  {
    var settled := SettledSockets(conns, stored, out, queue, 0);
    forall s | s in used ensures s in settled {
      var k: nat;
      if s in ExplicitSockets(conns) {
        k :| 0 <= k < |conns| && conns[k].localPort > 0 && SocketOf(conns[k]) == s;
      } else {
        assert Owned(conns, stored, |conns|, s);
        k :| 0 <= k < |conns| && Keeps(conns, stored, k) && StoredSocket(conns, stored, k) == s;
      }
      KeptSockets(conns, stored, out, used, automatic, k);
      assert Settled(conns, stored, queue, 0, k);
    }
    forall k: nat | k < |conns| && Settled(conns, stored, queue, 0, k) ensures SocketOf(out[k]) in used {
      KeptSockets(conns, stored, out, used, automatic, k);
    }
  }

  lemma SettledOneMore(conns: seq<Connection>, stored: map<string, int>, queue: seq<nat>, n: nat)
    requires InIdOrder(conns, stored, queue) && n < |queue|
    ensures forall k :: 0 <= k < |conns| ==>
              (Settled(conns, stored, queue, n + 1, k) <==> Settled(conns, stored, queue, n, k) || k == queue[n])
    ensures !Settled(conns, stored, queue, n, queue[n])
  {
    forall m | 0 <= m < n ensures queue[m] != queue[n] {
      LessAsymmetric(conns[queue[m]].id, conns[queue[n]].id);
    }
    assert Settled(conns, stored, queue, n + 1, queue[n]);
  }

  lemma SettledGrows(conns: seq<Connection>, stored: map<string, int>, out: seq<Connection>, queue: seq<nat>, n: nat, port: int)
    requires SameButPorts(conns, out) && InIdOrder(conns, stored, queue) && n < |queue|
    ensures var more := out[queue[n] := conns[queue[n]].(localPort := port)];
            SettledSockets(conns, stored, more, queue, n + 1)
              == SettledSockets(conns, stored, out, queue, n) + {SocketAt(conns[queue[n]], port)}
  {
    var i := queue[n];
    var more := out[i := conns[i].(localPort := port)];
    SettledOneMore(conns, stored, queue, n);
    var before, after := SettledSockets(conns, stored, out, queue, n), SettledSockets(conns, stored, more, queue, n + 1);
    forall s | s in before ensures s in after {
      var k :| 0 <= k < |out| && Settled(conns, stored, queue, n, k) && SocketOf(out[k]) == s;
      assert Settled(conns, stored, queue, n + 1, k) && SocketOf(more[k]) == s;
    }
    assert SocketOf(more[i]) == SocketAt(conns[i], port) && Settled(conns, stored, queue, n + 1, i);
    forall s | s in after ensures s in before + {SocketAt(conns[i], port)} {
      var k :| 0 <= k < |more| && Settled(conns, stored, queue, n + 1, k) && SocketOf(more[k]) == s;
      if k != i {
        assert Settled(conns, stored, queue, n, k) && SocketOf(out[k]) == s;
      }
    }
  }

  lemma ServedStep(conns: seq<Connection>, stored: map<string, int>, out: seq<Connection>,
                   used: set<Socket>, queue: seq<nat>, n: nat, port: int)
    requires Served(conns, stored, out, used, queue, n) && n < |queue|
    requires LeastFree(NormTransport(conns[queue[n]].transport), used, port)
    ensures var i := queue[n];
            Served(conns, stored, out[i := conns[i].(localPort := port)], used + {SocketAt(conns[i], port)}, queue, n + 1)
  {
    var i := queue[n];
    var more := out[i := conns[i].(localPort := port)];
    SettledGrows(conns, stored, out, queue, n, port);
    SettledIsTaken(conns, stored, out, queue, n);
    SettledIsTaken(conns, stored, more, queue, n);
    SettledWithout(conns, stored, out, queue, n, port);
    forall m | 0 <= m < n + 1
      ensures LeastFree(NormTransport(conns[queue[m]].transport), Taken(conns, stored, more, queue[m]), more[queue[m]].localPort)
    {
      if m < n {
        TakenUnaffected(conns, stored, out, queue, m, n, port);
      }
    }
  }

  lemma SettledWithout(conns: seq<Connection>, stored: map<string, int>, out: seq<Connection>, queue: seq<nat>, n: nat, port: int)
    requires SameButPorts(conns, out) && InIdOrder(conns, stored, queue) && n < |queue|
    ensures var more := out[queue[n] := conns[queue[n]].(localPort := port)];
            Taken(conns, stored, more, queue[n]) == Taken(conns, stored, out, queue[n])
  {
    var i := queue[n];
    if Less(conns[i].id, conns[i].id) { LessAsymmetric(conns[i].id, conns[i].id); }
  }

  /** ports holds the new port of each connection served so far, and memory otherwise. */
  ghost predicate Recorded(conns: seq<Connection>, out: seq<Connection>, queue: seq<nat>, n: int,
                           memory: map<string, int>, ports: map<string, int>)
    requires |out| == |conns| && 0 <= n <= |queue| && forall m :: 0 <= m < |queue| ==> queue[m] < |conns|
  {
    && (forall m :: 0 <= m < n ==> conns[queue[m]].id in ports && ports[conns[queue[m]].id] == out[queue[m]].localPort)
    && (forall id :: id in ports || id in memory ==>
          || (exists m :: 0 <= m < n && conns[queue[m]].id == id)
          || (id in ports && id in memory && ports[id] == memory[id]))
  }

  lemma RecordedStep(conns: seq<Connection>, out: seq<Connection>, queue: seq<nat>, n: int,
                     memory: map<string, int>, ports: map<string, int>, port: int)
    requires |out| == |conns| && 0 <= n < |queue| && forall m :: 0 <= m < |queue| ==> queue[m] < |conns|
    requires forall m :: 0 <= m < n ==> conns[queue[m]].id != conns[queue[n]].id
    requires Recorded(conns, out, queue, n, memory, ports)
    ensures var i := queue[n];
            Recorded(conns, out[i := conns[i].(localPort := port)], queue, n + 1, memory, ports[conns[i].id := port])
  {
    var i := queue[n];
    var more, grown := out[i := conns[i].(localPort := port)], ports[conns[i].id := port];
    forall m | 0 <= m < n + 1 ensures conns[queue[m]].id in grown && grown[conns[queue[m]].id] == more[queue[m]].localPort {
      if m < n { assert queue[m] != i; }
    }
    forall id | id in grown || id in memory
      ensures (exists m :: 0 <= m < n + 1 && conns[queue[m]].id == id) || (id in grown && id in memory && grown[id] == memory[id])
    {
      if id == conns[i].id { assert conns[queue[n]].id == id; }
    }
  }

  lemma QueueIdsDiffer(conns: seq<Connection>, stored: map<string, int>, queue: seq<nat>, n: nat)
    requires InIdOrder(conns, stored, queue) && n < |queue|
    ensures forall m :: 0 <= m < n ==> conns[queue[m]].id != conns[queue[n]].id
  {
    forall m | 0 <= m < n ensures conns[queue[m]].id != conns[queue[n]].id {
      LessAsymmetric(conns[queue[m]].id, conns[queue[n]].id);
    }
  }

  /** Third loop: the queued connections receive the first free port, in id order. */
  method AssignFresh(conns: seq<Connection>, ghost stored: map<string, int>, kept: seq<Connection>,
                     claimed: set<Socket>, queue: seq<nat>, memory: map<string, int>)
    returns (out: seq<Connection>, ports: map<string, int>, used: set<Socket>)
    requires Served(conns, stored, kept, claimed, queue, 0)
    ensures Served(conns, stored, out, used, queue, |queue|) && Recorded(conns, out, queue, |queue|, memory, ports)
  {
    used := claimed;
    out, ports := kept, memory;
    for n := 0 to |queue|
      invariant Served(conns, stored, out, used, queue, n)
      invariant Recorded(conns, out, queue, n, memory, ports)
    {
      var i := queue[n];
      var port := FirstFree(NormTransport(conns[i].transport), used);
      ServedStep(conns, stored, out, used, queue, n, port);
      QueueIdsDiffer(conns, stored, queue, n);
      RecordedStep(conns, out, queue, n, memory, ports, port);
      out := out[i := conns[i].(localPort := port)];
      ports := ports[conns[i].id := port];
      used := used + {SocketAt(conns[i], port)};
    }
  }

  lemma ServedAllocates(conns: seq<Connection>, stored: map<string, int>, out: seq<Connection>, used: set<Socket>, queue: seq<nat>)
    requires Served(conns, stored, out, used, queue, |queue|)
    ensures Allocates(conns, stored, out)
  {
  }

  lemma {:induction false} KeepAll(conns: seq<Connection>, stored: map<string, int>, n: nat)
    returns (out: seq<Connection>, used: set<Socket>, automatic: seq<nat>)
    requires n <= |conns|
    ensures Kept(conns, stored, out, used, automatic, n)
  {
    if n == 0 {
      out, used, automatic := conns, ExplicitSockets(conns), [];
    } else {
      var i := n - 1;
      out, used, automatic := KeepAll(conns, stored, i);
      KeptStep(conns, stored, out, used, automatic, i);
      if Keeps(conns, stored, i) {
        out, used := out[i := conns[i].(localPort := stored[conns[i].id])], used + {StoredSocket(conns, stored, i)};
      }
      automatic := if Fresh(conns, stored, i) then automatic + [i] else automatic;
    }
  }

  lemma {:induction false} FreePortExists(transport: string, used: set<Socket>, above: set<Socket>, from: int) returns (port: int)
    requires from >= FIRST_PORT && forall q :: FIRST_PORT <= q < from ==> Socket(transport, q) in used
    requires forall q :: q >= from && Socket(transport, q) in used ==> Socket(transport, q) in above
    ensures LeastFree(transport, used, port)
    decreases above
  {
    port := from;
    if Socket(transport, from) in used {
      port := FreePortExists(transport, used, above - {Socket(transport, from)}, from + 1);
    }
  }

  lemma ServeNext(conns: seq<Connection>, stored: map<string, int>, out: seq<Connection>,
                  used: set<Socket>, queue: seq<nat>, n: nat)
    returns (more: seq<Connection>, claimed: set<Socket>)
    requires Served(conns, stored, out, used, queue, n) && n < |queue|
    ensures Served(conns, stored, more, claimed, queue, n + 1)
  {
    var i := queue[n];
    var port := FreePortExists(NormTransport(conns[i].transport), used, used, FIRST_PORT);
    ServedStep(conns, stored, out, used, queue, n, port);
    more, claimed := out[i := conns[i].(localPort := port)], used + {SocketAt(conns[i], port)};
  }

  lemma {:induction false} ServeAll(conns: seq<Connection>, stored: map<string, int>, kept: seq<Connection>,
                                    claimed: set<Socket>, queue: seq<nat>, n: nat)
    returns (out: seq<Connection>, used: set<Socket>)
    requires n <= |queue| && Served(conns, stored, kept, claimed, queue, 0)
    ensures Served(conns, stored, out, used, queue, n)
  {
    out, used := kept, claimed;
    if n > 0 {
      out, used := ServeAll(conns, stored, kept, claimed, queue, n - 1);
      out, used := ServeNext(conns, stored, out, used, queue, n - 1);
    }
  }

  /** Every list that passes validation can be allocated, whatever is remembered. */
  lemma AllocationExists(conns: seq<Connection>, stored: map<string, int>) returns (out: seq<Connection>)
    requires Allocatable(conns)
    ensures Allocates(conns, stored, out)
  {
    var kept, used, automatic := KeepAll(conns, stored, |conns|);
    var key := (i: nat) => if i < |conns| then conns[i].id else "";
    var queue := SortBy(automatic, key);
    QueueInIdOrder(conns, stored, automatic, queue, key);
    KeptMeansServed(conns, stored, kept, used, automatic, queue);
    out, used := ServeAll(conns, stored, kept, used, queue, |queue|);
    ServedAllocates(conns, stored, out, used, queue);
  }

  lemma RecordedAt(conns: seq<Connection>, stored: map<string, int>, out: seq<Connection>,
                   queue: seq<nat>, ports: map<string, int>, i: nat)
    requires Allocatable(conns) && Allocates(conns, stored, out) && InIdOrder(conns, stored, queue)
    requires Recorded(conns, out, queue, |queue|, stored - ExplicitIds(conns), ports)
    requires i < |conns| && conns[i].localPort == 0
    ensures conns[i].id in ports && ports[conns[i].id] == out[i].localPort
  {
    if Fresh(conns, stored, i) {
      var m :| 0 <= m < |queue| && queue[m] == i;
    } else {
      AutomaticNotExplicit(conns, i);
      forall m | 0 <= m < |queue| ensures conns[queue[m]].id != conns[i].id {
        assert Fresh(conns, stored, queue[m]);
        assert i < queue[m] || queue[m] < i;
      }
    }
  }

  /** Last loop: ports of connections that are gone or explicit are no longer remembered. */
  lemma RestrictedRemembers(conns: seq<Connection>, stored: map<string, int>, out: seq<Connection>,
                            queue: seq<nat>, ports: map<string, int>, present: set<string>)
    requires Allocatable(conns) && Allocates(conns, stored, out) && InIdOrder(conns, stored, queue)
    requires present == set k | 0 <= k < |conns| && conns[k].localPort == 0 :: conns[k].id
    requires Recorded(conns, out, queue, |queue|, stored - ExplicitIds(conns), ports)
    ensures Remembers(conns, out, map id | id in ports && id in present :: ports[id])
  {
    forall i | 0 <= i < |conns| && conns[i].localPort == 0
      ensures conns[i].id in ports && ports[conns[i].id] == out[i].localPort
    {
      RecordedAt(conns, stored, out, queue, ports, i);
    }
  }

  /** allocatePortsLocked, and allocatePorts when nothing is remembered yet. */
  method Allocate(conns: seq<Connection>, stored: map<string, int>) returns (out: seq<Connection>, next: map<string, int>)
    requires Allocatable(conns)
    ensures Allocates(conns, stored, out) && Remembers(conns, out, next)
  {
    var claimed, memory := ClaimExplicit(conns, stored);
    var kept, used, automatic := KeepStored(conns, stored, memory, claimed);
    var key := (i: nat) => if i < |conns| then conns[i].id else "";
    var queue := SortBy(automatic, key);
    QueueInIdOrder(conns, stored, automatic, queue, key);
    KeptMeansServed(conns, stored, kept, used, automatic, queue);
    var ports;
    out, ports, used := AssignFresh(conns, stored, kept, used, queue, memory);
    ServedAllocates(conns, stored, out, used, queue);
    var present := set k | 0 <= k < |conns| && conns[k].localPort == 0 :: conns[k].id;
    RestrictedRemembers(conns, stored, out, queue, ports, present);
    next := map id | id in ports && id in present :: ports[id];
  }
}
