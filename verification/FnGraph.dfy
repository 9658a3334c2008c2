// ui/src/lib/fn-graph.ts: the left-to-right tree layout of call flows. It walks an arbitrary
// graph, cycles and shared children included, with a running cursor.
module FnGraph {
  import opened Text

  datatype NodeKind = FnNode | ActionNode(num: int) | QueueNode | SIPInputNode
  datatype GraphNode = GraphNode(id: string, kind: NodeKind)
  datatype GraphEdge = GraphEdge(source: string, target: string)
  datatype Box = Box(x: real, y: real, width: real, height: real)

  const COL_W := 320.0
  const ROW_GAP := 28.0
  const MAX_SAFE_INTEGER := 9007199254740991

  function NodeWidth(k: NodeKind): real { if k.ActionNode? then 240.0 else 220.0 }

  function NodeHeight(k: NodeKind): real {
    match k
    case FnNode => 60.0
    case ActionNode(_) => 88.0
    case QueueNode => 80.0
    case SIPInputNode => 64.0
  }

  /** Interiors of the two rectangles do not meet. */
  predicate Apart(a: Box, b: Box) {
    a.x + a.width <= b.x || b.x + b.width <= a.x || a.y + a.height <= b.y || b.y + b.height <= a.y
  }

  // ------------------------------------------------- the graph

  /** byId: a later node with the same id replaces an earlier one. */
  function ById(nodes: seq<GraphNode>): (m: map<string, GraphNode>)
    ensures forall id :: id in m ==> m[id].id == id
  {
    if nodes == [] then map[]
    else ById(nodes[..|nodes| - 1])[nodes[|nodes| - 1].id := nodes[|nodes| - 1]]
  }

  predicate LastWithId(nodes: seq<GraphNode>, i: nat)
    requires i < |nodes|
  {
    forall j :: i < j < |nodes| ==> nodes[j].id != nodes[i].id
  }

  lemma {:induction false} ByIdIsLast(nodes: seq<GraphNode>, i: nat)
    requires i < |nodes|
    ensures nodes[i].id in ById(nodes)
    ensures LastWithId(nodes, i) ==> ById(nodes)[nodes[i].id] == nodes[i]
  {
    var n := |nodes| - 1;
    if i < n {
      ByIdIsLast(nodes[..n], i);
      if LastWithId(nodes, i) {
        assert nodes[n].id != nodes[i].id;
        assert LastWithId(nodes[..n], i);
      }
    }
  }

  lemma {:induction false} KnownIdsAreNodes(nodes: seq<GraphNode>, id: string) returns (i: nat)
    requires id in ById(nodes)
    ensures i < |nodes| && nodes[i].id == id && LastWithId(nodes, i)
  {
    var n := |nodes| - 1;
    if nodes[n].id == id {
      i := n;
    } else {
      i := KnownIdsAreNodes(nodes[..n], id);
      assert forall j :: i < j < n ==> nodes[..n][j] == nodes[j];
    }
  }

  datatype Graph = Graph(byId: map<string, GraphNode>, edges: seq<GraphEdge>, roots: seq<string>)

  /** Edges between known nodes that leave id, in the order given. */
  function OutEdges(g: Graph, n: nat, id: string): (out: seq<GraphEdge>)
    requires n <= |g.edges|
    ensures forall e :: e in out ==> e.source == id && id in g.byId && e.target in g.byId
  {
    if n == 0 then []
    else
      var e := g.edges[n - 1];
      OutEdges(g, n - 1, id) + if e.source == id && id in g.byId && e.target in g.byId then [e] else []
  }

  /** Phone-keypad order: 1 to 9, 0, #, *. */
  function KeypadRank(num: int): int {
    if 1 <= num <= 9 then num else if num == 0 then 10 else if num == 11 then 11 else if num == 10 then 12 else 99
  }

  function Rank(k: NodeKind): int { if k.ActionNode? then KeypadRank(k.num) else MAX_SAFE_INTEGER }

  datatype Child = Child(id: string, rank: int, i: nat)

  predicate Precedes(a: Child, b: Child) { a.rank < b.rank || (a.rank == b.rank && a.i < b.i) }

  function Insert(c: Child, cs: seq<Child>): seq<Child> {
    if cs == [] || Precedes(c, cs[0]) then [c] + cs else [cs[0]] + Insert(c, cs[1..])
  }

  function Sorted(cs: seq<Child>): seq<Child> {
    if cs == [] then [] else Insert(cs[|cs| - 1], Sorted(cs[..|cs| - 1]))
  }

  ghost predicate InOrder(cs: seq<Child>) { forall i, j :: 0 <= i < j < |cs| ==> Precedes(cs[i], cs[j]) }

  lemma {:induction false} InsertInOrder(c: Child, cs: seq<Child>)
    requires InOrder(cs) && forall d :: d in cs ==> d.i != c.i
    ensures InOrder(Insert(c, cs))
    ensures forall d :: d in Insert(c, cs) <==> d == c || d in cs
  {
    if cs == [] || Precedes(c, cs[0]) {
    } else {
      assert cs == [cs[0]] + cs[1..];
      InsertInOrder(c, cs[1..]);
      var rest := Insert(c, cs[1..]);
      forall j | 0 <= j < |rest| ensures Precedes(cs[0], rest[j]) {
        assert rest[j] in rest;
        if rest[j] != c { assert rest[j] in cs[1..]; }
      }
    }
  }

  /** Sorting keeps the children and puts them in order of rank, then of edges. */
  lemma {:induction false} SortedInOrder(cs: seq<Child>)
    requires forall i, j :: 0 <= i < j < |cs| ==> cs[i].i < cs[j].i
    ensures InOrder(Sorted(cs)) && forall c :: c in Sorted(cs) <==> c in cs
  {
    if cs != [] {
      var front, last := cs[..|cs| - 1], cs[|cs| - 1];
      SortedInOrder(front);
      assert cs == front + [last];
      InsertInOrder(last, Sorted(front));
    }
  }

  function Children(g: Graph, out: seq<GraphEdge>): seq<Child>
    requires forall e :: e in out ==> e.target in g.byId
  {
    seq(|out|, i requires 0 <= i < |out| => Child(out[i].target, Rank(g.byId[out[i].target].kind), i))
  }

  function Ids(cs: seq<Child>): seq<string> { seq(|cs|, i requires 0 <= i < |cs| => cs[i].id) }

  /** childrenOf. */
  function ChildrenOf(g: Graph, id: string): seq<string> { Ids(Sorted(Children(g, OutEdges(g, |g.edges|, id)))) }

  function ListOf(m: map<string, seq<GraphEdge>>, id: string): seq<GraphEdge> { if id in m then m[id] else [] }

  function Collect(g: Graph, out: map<string, seq<GraphEdge>>, e: GraphEdge): map<string, seq<GraphEdge>> {
    if e.source in g.byId && e.target in g.byId then out[e.source := ListOf(out, e.source) + [e]] else out
  }

  lemma CollectStep(g: Graph, n: nat, out: map<string, seq<GraphEdge>>, id: string)
    requires n < |g.edges| && ListOf(out, id) == OutEdges(g, n, id)
    ensures ListOf(Collect(g, out, g.edges[n]), id) == OutEdges(g, n + 1, id)
  {
    assert OutEdges(g, n, id) + [] == OutEdges(g, n, id);
  }

  ghost predicate CollectedUpTo(g: Graph, n: nat, out: map<string, seq<GraphEdge>>)
    requires n <= |g.edges|
  {
    forall id {:trigger ListOf(out, id)} :: ListOf(out, id) == OutEdges(g, n, id)
  }

  lemma CollectAll(g: Graph, n: nat, out: map<string, seq<GraphEdge>>)
    requires n < |g.edges| && CollectedUpTo(g, n, out)
    ensures CollectedUpTo(g, n + 1, Collect(g, out, g.edges[n]))
  {
    forall id ensures ListOf(Collect(g, out, g.edges[n]), id) == OutEdges(g, n + 1, id) {
      assert ListOf(out, id) == OutEdges(g, n, id);
      CollectStep(g, n, out, id);
    }
  }

  /** The loop that fills outEdges. */
  method CollectOutEdges(g: Graph) returns (out: map<string, seq<GraphEdge>>)
    ensures CollectedUpTo(g, |g.edges|, out)
  {
    out := map[];
    for n := 0 to |g.edges|
      invariant CollectedUpTo(g, n, out)
    {
      CollectAll(g, n, out);
      out := Collect(g, out, g.edges[n]);
    }
  }

  /** a comes before every b in the list. */
  predicate Before(xs: seq<string>, a: string, b: string) {
    xs != [] && xs[0] != b && (xs[0] == a || Before(xs[1..], a, b))
  }

  lemma {:induction false} BeforeAt(xs: seq<string>, i: nat, b: string)
    requires i < |xs| && b !in xs[..i + 1]
    ensures Before(xs, xs[i], b)
  {
    assert xs[0] in xs[..i + 1];
    if i > 0 {
      assert forall j :: 0 <= j < i ==> xs[1..][..i][j] == xs[..i + 1][j + 1];
      BeforeAt(xs[1..], i - 1, b);
    }
  }

  lemma ChildFacts(g: Graph, id: string, a: string)
    requires a in ChildrenOf(g, id)
    ensures a in g.byId && id in g.byId && GraphEdge(id, a) in OutEdges(g, |g.edges|, id)
  {
    var out := OutEdges(g, |g.edges|, id);
    var cs := Children(g, out);
    SortedInOrder(cs);
    var i :| 0 <= i < |Sorted(cs)| && Sorted(cs)[i].id == a;
    assert Sorted(cs)[i] in cs;
    var j :| 0 <= j < |cs| && cs[j].id == a;
    assert out[j] in out && out[j] == GraphEdge(id, a);
  }

  lemma ChildAt(g: Graph, id: string, sorted: seq<Child>, i: nat)
    requires sorted == Sorted(Children(g, OutEdges(g, |g.edges|, id))) && i < |sorted|
    ensures sorted[i].id == ChildrenOf(g, id)[i] && sorted[i].id in g.byId && sorted[i].rank == Rank(g.byId[sorted[i].id].kind)
  {
    var cs := Children(g, OutEdges(g, |g.edges|, id));
    SortedInOrder(cs);
    assert sorted[i] in sorted && sorted[i] in cs;
  }

  /** Children with a smaller rank, in particular an earlier key of the keypad, come first. */
  lemma KeypadOrder(g: Graph, id: string, a: string, b: string)
    requires a in ChildrenOf(g, id) && b in ChildrenOf(g, id)
    requires a in g.byId && b in g.byId && Rank(g.byId[a].kind) < Rank(g.byId[b].kind)
    ensures Before(ChildrenOf(g, id), a, b)
  {
    var cs := Children(g, OutEdges(g, |g.edges|, id));
    var sorted, xs := Sorted(cs), ChildrenOf(g, id);
    var i :| 0 <= i < |xs| && xs[i] == a;
    SortedInOrder(cs);
    ChildAt(g, id, sorted, i);
    forall j | 0 <= j < i + 1 ensures xs[j] != b {
      ChildAt(g, id, sorted, j);
      assert j < i ==> Precedes(sorted[j], sorted[i]);
    }
    BeforeAt(xs, i, b);
  }

  // ------------------------------------------- a layout and its laws

  /** A first visit: parent is the index of the visit that caused it, kids the children
      that were still unvisited. */
  datatype Visit = Visit(id: string, depth: nat, parent: Option<nat>, kids: seq<string>)

  /** centre: the vertical centres of the nodes placed so far. */
  datatype Layout = Layout(order: seq<Visit>, centre: map<string, real>, cursor: real)

  function Visited(order: seq<Visit>, n: nat): set<string>
    requires n <= |order|
  {
    set i | 0 <= i < n :: order[i].id
  }

  function Unvisited(xs: seq<string>, visited: set<string>): (kids: seq<string>)
    ensures forall x :: x in kids <==> x in xs && x !in visited
  {
    if xs == [] then [] else (if xs[0] in visited then [] else [xs[0]]) + Unvisited(xs[1..], visited)
  }

  lemma {:induction false} UnvisitedBefore(xs: seq<string>, visited: set<string>, a: string, b: string)
    requires Before(Unvisited(xs, visited), a, b) && b !in visited
    ensures Before(xs, a, b)
  {
    if xs[0] in visited {
      assert Unvisited(xs, visited) == Unvisited(xs[1..], visited);
      UnvisitedBefore(xs[1..], visited, a, b);
    } else if xs[0] != a {
      assert Unvisited(xs, visited)[1..] == Unvisited(xs[1..], visited);
      UnvisitedBefore(xs[1..], visited, a, b);
    }
  }

  function ChildList(g: Graph, order: seq<Visit>, parent: Option<nat>): seq<string> {
    if parent.None? then g.roots else if parent.value < |order| then ChildrenOf(g, order[parent.value].id) else []
  }

  ghost predicate Known(g: Graph, order: seq<Visit>) { forall i :: 0 <= i < |order| ==> order[i].id in g.byId }

  /** Height taken by the leaves among the first n visits, gaps included. */
  ghost function Stacked(g: Graph, order: seq<Visit>, n: nat): real
    requires n <= |order| && Known(g, order)
  {
    if n == 0 then 0.0
    else Stacked(g, order, n - 1) + if order[n - 1].kids == [] then NodeHeight(g.byId[order[n - 1].id].kind) + ROW_GAP else 0.0
  }

  /** The visits between the i-th and the j-th are deeper than the i-th. */
  ghost predicate AllBelow(order: seq<Visit>, i: nat, j: nat)
    requires i < j <= |order|
  {
    forall k :: i < k < j ==> order[k].depth > order[i].depth
  }

  /** The i-th visit follows the graph: a root, or a child of an earlier visit, below its
      siblings that come before it in keypad order. */
  ghost predicate VisitSound(g: Graph, order: seq<Visit>, i: nat)
    requires i < |order|
  {
    var v := order[i];
    && v.id !in Visited(order, i)
    && v.kids == Unvisited(ChildrenOf(g, v.id), Visited(order, i + 1))
    && v.id in ChildList(g, order, v.parent)
    && v.depth == (if v.parent.None? then 0 else if v.parent.value < i then order[v.parent.value].depth + 1 else 0)
    && (v.parent.Some? ==> v.parent.value < i && AllBelow(order, v.parent.value, i))
    && forall j :: 0 <= j < i && order[j].parent == v.parent ==> Before(ChildList(g, order, v.parent), order[j].id, v.id)
  }

  ghost predicate VisitsSound(g: Graph, order: seq<Visit>) {
    Known(g, order) && forall i {:trigger VisitSound(g, order, i)} :: 0 <= i < |order| ==> VisitSound(g, order, i)
  }

  /** A leaf sits below all earlier leaves; any other node is placed after its children, half
      way between the first and the last. */
  ghost predicate Centred(g: Graph, l: Layout, i: nat)
    requires i < |l.order| && l.order[i].id in l.centre && Known(g, l.order)
  {
    var v := l.order[i];
    if v.kids == [] then l.centre[v.id] == Stacked(g, l.order, i) + NodeHeight(g.byId[v.id].kind) / 2.0
    else
      && (forall k :: 0 <= k < |v.kids| ==> v.kids[k] in l.centre)
      && l.centre[v.id] == (l.centre[v.kids[0]] + l.centre[v.kids[|v.kids| - 1]]) / 2.0
  }

  /** Nodes in the same column: the one visited first is above, with room for both. */
  ghost predicate Spaced(l: Layout) { forall i, j :: 0 <= i < j < |l.order| ==> RoomBetween(l, i, j) }

  ghost predicate RoomBetween(l: Layout, i: nat, j: nat)
    requires i < |l.order| && j < |l.order|
  {
    l.order[i].depth == l.order[j].depth && l.order[i].id in l.centre && l.order[j].id in l.centre ==>
      l.centre[l.order[i].id] + 88.0 <= l.centre[l.order[j].id]
  }

  /** Everything placed is above the cursor, with room for a node below it. */
  ghost predicate Banded(l: Layout) {
    && 0.0 <= l.cursor && l.centre.Keys <= Visited(l.order, |l.order|)
    && forall k :: k in l.centre ==> 30.0 <= l.centre[k] <= l.cursor - 58.0
  }

  ghost predicate Sound(g: Graph, l: Layout) {
    && VisitsSound(g, l.order)
    && Banded(l) && Spaced(l)
    && l.cursor == Stacked(g, l.order, |l.order|)
    && (forall i {:trigger Centred(g, l, i)} :: 0 <= i < |l.order| && l.order[i].id in l.centre ==> Centred(g, l, i))
  }

  // ------------------------------------- what one visit may add

  /** More visits and more centres, nothing else changed; the centres added lie between the
      two cursors. */
  ghost predicate Grows(l: Layout, m: Layout) {
    && l.order <= m.order && l.cursor <= m.cursor
    && (forall k :: k in l.centre ==> k in m.centre && m.centre[k] == l.centre[k])
    && (forall k :: k in m.centre && k !in l.centre ==>
          l.cursor + 30.0 <= m.centre[k] <= m.cursor - 58.0 && k !in Visited(l.order, |l.order|))
  }

  /** All visits from the n-th on are placed. */
  ghost predicate PlacedFrom(l: Layout, n: nat) { forall i :: n <= i < |l.order| ==> l.order[i].id in l.centre }

  /** The visits from the n-th on hang below visits no earlier than the n-th. */
  ghost predicate HangBelow(order: seq<Visit>, n: nat, depth: nat) {
    forall i :: n <= i < |order| ==>
      order[i].depth > depth && order[i].parent.Some? && order[i].parent.value >= n - 1
  }

  /** Place has put id and everything first reached through it. */
  ghost predicate Adds(l: Layout, m: Layout, id: string, depth: nat, parent: Option<nat>) {
    && Grows(l, m) && PlacedFrom(m, |l.order|)
    && |m.order| > |l.order| && m.order[|l.order|].id == id && m.order[|l.order|].depth == depth
    && m.order[|l.order|].parent == parent && HangBelow(m.order, |l.order| + 1, depth)
  }

  ghost predicate CanVisit(g: Graph, order: seq<Visit>, v: Visit) {
    v.id in g.byId && v.id !in Visited(order, |order|) && VisitsSound(g, order + [v])
  }

  lemma {:induction false} StackedPrefix(g: Graph, order: seq<Visit>, more: seq<Visit>, n: nat)
    requires n <= |order| <= |more| && order == more[..|order|] && Known(g, more) && Known(g, order)
    ensures Stacked(g, more, n) == Stacked(g, order, n)
  {
    if n > 0 { StackedPrefix(g, order, more, n - 1); }
  }

  lemma VisitedPrefix(order: seq<Visit>, more: seq<Visit>, n: nat)
    requires order <= more && n <= |order|
    ensures Visited(more, n) == Visited(order, n)
  {
  }

  lemma ChildListPrefix(g: Graph, order: seq<Visit>, more: seq<Visit>, parent: Option<nat>)
    requires order <= more && (parent.Some? ==> parent.value < |order|)
    ensures ChildList(g, more, parent) == ChildList(g, order, parent)
  {
    if parent.Some? { assert more[parent.value] == order[parent.value]; }
  }

  lemma VisitSoundPrefix(g: Graph, order: seq<Visit>, more: seq<Visit>, i: nat)
    requires order <= more && i < |order| && VisitSound(g, order, i)
    ensures VisitSound(g, more, i)
  {
    var v := order[i];
    VisitedPrefix(order, more, i);
    VisitedPrefix(order, more, i + 1);
    ChildListPrefix(g, order, more, v.parent);
    assert more[i] == v;
    if v.parent.Some? { assert more[v.parent.value] == order[v.parent.value]; }
    forall j | 0 <= j < i && more[j].parent == v.parent ensures Before(ChildList(g, more, v.parent), more[j].id, v.id) {
      assert more[j] == order[j];
    }
  }

  lemma VisitKeepsSound(g: Graph, order: seq<Visit>, v: Visit)
    requires VisitsSound(g, order) && v.id in g.byId && VisitSound(g, order + [v], |order|)
    ensures CanVisit(g, order, v)
  {
    VisitedPrefix(order, order + [v], |order|);
    forall i | 0 <= i < |order| ensures VisitSound(g, order + [v], i) {
      VisitSoundPrefix(g, order, order + [v], i);
    }
  }

  lemma CentredKept(g: Graph, l: Layout, m: Layout, i: nat)
    requires l.order <= m.order && Known(g, l.order) && Known(g, m.order)
    requires forall k :: k in l.centre ==> k in m.centre && m.centre[k] == l.centre[k]
    requires i < |l.order| && l.order[i].id in l.centre && Centred(g, l, i)
    ensures m.order[i].id in m.centre && Centred(g, m, i)
  {
    assert l.order == m.order[..|l.order|];
    StackedPrefix(g, l.order, m.order, i);
  }

  /** All old centres stay right; at most the n-th visit is newly placed. */
  lemma AllCentred(g: Graph, l: Layout, m: Layout, n: nat)
    requires Sound(g, l) && VisitsSound(g, m.order) && l.order <= m.order && n < |m.order|
    requires forall k :: k in l.centre ==> k in m.centre && m.centre[k] == l.centre[k]
    requires m.centre.Keys <= l.centre.Keys + {m.order[n].id}
    requires m.order[n].id in m.centre ==> Centred(g, m, n)
    ensures forall i {:trigger Centred(g, m, i)} :: 0 <= i < |m.order| && m.order[i].id in m.centre ==> Centred(g, m, i)
  {
    forall i | 0 <= i < |m.order| && m.order[i].id in m.centre ensures Centred(g, m, i) {
      if i != n {
        VisitedOnce(g, m.order, i, n);
        VisitedAt(g, l.order, m.order, i);
        CentredKept(g, l, m, i);
      }
    }
  }

  lemma VisitedOnce(g: Graph, order: seq<Visit>, i: nat, j: nat)
    requires VisitsSound(g, order) && i < |order| && j < |order| && i != j
    ensures order[i].id != order[j].id
  {
    assert VisitSound(g, order, if i < j then j else i);
  }

  /** An id visited before stays at its place. */
  lemma VisitedAt(g: Graph, order: seq<Visit>, more: seq<Visit>, i: nat)
    requires VisitsSound(g, more) && order <= more && i < |more| && more[i].id in Visited(order, |order|)
    ensures i < |order|
  {
    var j :| 0 <= j < |order| && order[j].id == more[i].id;
    if i != j { VisitedOnce(g, more, i, j); }
  }

  /** A leaf goes below everything placed so far. */
  function AfterLeaf(l: Layout, v: Visit, h: real): Layout {
    Layout(l.order + [v], l.centre[v.id := l.cursor + h / 2.0], l.cursor + h + ROW_GAP)
  }

  lemma LeafKeepsSound(g: Graph, l: Layout, v: Visit, h: real, m: Layout)
    requires Sound(g, l) && CanVisit(g, l.order, v) && v.kids == [] && h == NodeHeight(g.byId[v.id].kind)
    requires m == AfterLeaf(l, v, h)
    ensures Sound(g, m)
  {
    LeafStacked(g, l.order, v, h);
    LeafBanded(l, v, h);
    LeafSpaced(l, v, l.cursor + h / 2.0, m.cursor);
    assert Centred(g, m, |l.order|);
    AllCentred(g, l, m, |l.order|);
  }

  lemma LeafStacked(g: Graph, order: seq<Visit>, v: Visit, h: real)
    requires Known(g, order + [v]) && Known(g, order) && v.kids == [] && v.id in g.byId && h == NodeHeight(g.byId[v.id].kind)
    ensures Stacked(g, order + [v], |order|) == Stacked(g, order, |order|)
    ensures Stacked(g, order + [v], |order| + 1) == Stacked(g, order, |order|) + h + ROW_GAP
  {
    StackedPrefix(g, order, order + [v], |order|);
  }

  lemma LeafBanded(l: Layout, v: Visit, h: real)
    requires Banded(l) && h >= 60.0
    ensures Banded(AfterLeaf(l, v, h))
  {
    VisitedPrefix(l.order, l.order + [v], |l.order|);
    assert v == (l.order + [v])[|l.order|];
  }

  lemma LeafSpaced(l: Layout, v: Visit, c: real, cursor: real)
    requires Spaced(l) && v.id !in Visited(l.order, |l.order|) && l.centre.Keys <= Visited(l.order, |l.order|)
    requires forall k :: k in l.centre ==> l.centre[k] + 88.0 <= c
    ensures Spaced(Layout(l.order + [v], l.centre[v.id := c], cursor))
  {
    var m := Layout(l.order + [v], l.centre[v.id := c], cursor);
    forall i | 0 <= i < |l.order| ensures m.order[i].id in Visited(l.order, |l.order|) {}
    SpacedWith(l, m, |l.order|);
  }

  lemma EnterKeepsSound(g: Graph, l: Layout, v: Visit)
    requires Sound(g, l) && CanVisit(g, l.order, v) && v.kids != []
    ensures Sound(g, l.(order := l.order + [v]))
  {
    var m := l.(order := l.order + [v]);
    VisitedPrefix(l.order, m.order, |l.order|);
    assert l.order == m.order[..|l.order|];
    StackedPrefix(g, l.order, m.order, |l.order|);
    AllCentred(g, l, m, |l.order|);
    SpacedMore(l, m);
  }

  lemma SpacedMore(l: Layout, m: Layout)
    requires Spaced(l) && l.order <= m.order && m.centre == l.centre
    requires forall i :: |l.order| <= i < |m.order| ==> m.order[i].id !in m.centre
    ensures Spaced(m)
  {
    forall i, j | 0 <= i < j < |m.order| ensures RoomBetween(m, i, j) {
      if i < |l.order| && j < |l.order| { assert RoomBetween(l, i, j); }
    }
  }

  /** Placing the n-th visit keeps the columns spaced if it is below the earlier nodes of its
      column and nothing later is in its column. */
  lemma SpacedWith(l: Layout, m: Layout, n: nat)
    requires Spaced(l) && n < |m.order| && l.order <= m.order
    requires m.centre.Keys == l.centre.Keys + {m.order[n].id} && m.order[n].id !in l.centre
    requires forall k :: k in l.centre ==> m.centre[k] == l.centre[k]
    requires forall i :: 0 <= i < |m.order| && i != n && m.order[i].id in m.centre ==> i < |l.order| && m.order[i].id in l.centre
    requires forall i :: n < i < |m.order| ==> m.order[i].depth > m.order[n].depth
    requires forall i :: 0 <= i < n && m.order[i].id in l.centre && m.order[i].depth == m.order[n].depth ==>
               l.centre[m.order[i].id] + 88.0 <= m.centre[m.order[n].id]
    ensures Spaced(m)
  {
    forall i, j | 0 <= i < j < |m.order| ensures RoomBetween(m, i, j) {
      if i != n && j != n && m.order[i].id in m.centre && m.order[j].id in m.centre {
        assert m.order[i] == l.order[i] && m.order[j] == l.order[j] && RoomBetween(l, i, j);
      }
    }
  }

  /** A node with children is placed when they are. */
  lemma CloseKeepsSound(g: Graph, l: Layout, n: nat, c: real, m: Layout)
    requires Sound(g, l) && n < |l.order| && l.order[n].id !in l.centre
    requires forall i :: n < i < |l.order| ==> l.order[i].depth > l.order[n].depth
    requires forall i :: 0 <= i < n && l.order[i].id in l.centre && l.order[i].depth == l.order[n].depth ==>
               l.centre[l.order[i].id] + 88.0 <= c
    requires 30.0 <= c <= l.cursor - 58.0
    requires var kids := l.order[n].kids;
             kids != [] && (forall k :: 0 <= k < |kids| ==> kids[k] in l.centre)
             && c == (l.centre[kids[0]] + l.centre[kids[|kids| - 1]]) / 2.0
    requires m == l.(centre := l.centre[l.order[n].id := c])
    ensures Sound(g, m)
  {
    AllCentred(g, l, m, n);
    forall i | 0 <= i < |m.order| && i != n ensures m.order[i].id != m.order[n].id { VisitedOnce(g, m.order, i, n); }
    SpacedWith(l, m, n);
  }

  // ------------------------------------------------ the algorithm

  function BoxOf(k: NodeKind, depth: nat, centre: real): Box {
    Box(depth as real * COL_W, centre - NodeHeight(k) / 2.0, NodeWidth(k), NodeHeight(k))
  }

  /** The boxes drawn are those of the layout. */
  ghost predicate Drawn(g: Graph, l: Layout, boxes: map<string, Box>) {
    boxes.Keys == l.centre.Keys && forall i :: 0 <= i < |l.order| ==> DrawnAs(g, l, boxes, l.order[i])
  }

  ghost predicate DrawnAs(g: Graph, l: Layout, boxes: map<string, Box>, v: Visit) {
    v.id in g.byId && v.id in boxes && v.id in l.centre ==>
      boxes[v.id] == BoxOf(g.byId[v.id].kind, v.depth, l.centre[v.id])
  }

  /** runTreeLayout's byId and outEdges, its visited set and cursor, and the boxes it gives
      to nodes. */
  class TreeLayout {
    const g: Graph
    const outEdges: map<string, seq<GraphEdge>>
    var visited: set<string>
    var cursor: real
    var boxes: map<string, Box>
    ghost var l: Layout

    ghost predicate Valid()
      reads this
    {
      && Sound(g, l) && Drawn(g, l, boxes) && visited == Visited(l.order, |l.order|) && cursor == l.cursor
    }

    ghost predicate Collected() { CollectedUpTo(g, |g.edges|, outEdges) }

    constructor (g: Graph)
      ensures this.g == g && Collected() && Valid() && l == Layout([], map[], 0.0)
    {
      var out := CollectOutEdges(g);
      this.g, outEdges := g, out;
      visited, cursor, boxes, l := {}, 0.0, map[], Layout([], map[], 0.0);
    }

    /** place: lays out id and everything first reached through it; the result is the centre
        of id. A node visited before stays where it is. */
    method Place(id: string, depth: nat, ghost parent: Option<nat>) returns (center: real)
      requires Collected() && Valid() && MayPlace(g, l, id, depth, parent)
      modifies this
      ensures Valid() && id in l.centre && center == l.centre[id]
      ensures (id in old(visited) && l == old(l)) || Adds(old(l), l, id, depth, parent)
      decreases g.byId.Keys - visited, 0
    {
      var kind := g.byId[id].kind;
      if id in visited {
        DrawnAt(g, l, boxes, id);
        return boxes[id].y + NodeHeight(kind) / 2.0;
      }
      ghost var v := Entry(g, l.order, id, depth, parent);
      visited := visited + {id};
      var kids := Unvisited(Ids(Sorted(Children(g, ListOf(outEdges, id)))), visited);
      if kids == [] {
        center := PlaceLeaf(id, depth, v);
      } else {
        ghost var l0, entered := l, l.(order := l.order + [v]);
        EnterStep(g, l0, boxes, v, entered);
        l := entered;
        center := PlaceParent(id, depth, kids, v, l0, entered);
      }
    }

    /** v has been entered in visited, and not yet in the layout. */
    ghost predicate Entering(v: Visit)
      reads this
    {
      && Sound(g, l) && Drawn(g, l, boxes) && cursor == l.cursor && CanVisit(g, l.order, v)
      && visited == Visited(l.order, |l.order|) + {v.id}
    }

    /** The branch of place for a node without unvisited children. */
    method PlaceLeaf(id: string, depth: nat, ghost v: Visit) returns (center: real)
      requires Entering(v) && v.id == id && v.depth == depth && v.kids == []
      modifies this
      ensures Valid() && id in l.centre && center == l.centre[id] && visited == old(visited)
      ensures Adds(old(l), l, id, depth, v.parent)
    {
      var h := NodeHeight(g.byId[id].kind);
      ghost var m := AfterLeaf(l, v, h);
      LeafStep(g, l, boxes, v, h, m);
      center := cursor + h / 2.0;
      cursor := cursor + h + ROW_GAP;
      Draw(id, depth, center, m);
    }

    /** The other branch: a node is centred on its first and last child. */
    method PlaceParent(id: string, depth: nat, kids: seq<string>, ghost v: Visit, ghost l0: Layout, ghost entered: Layout)
      returns (center: real)
      requires Collected() && Valid() && l == entered && entered == l0.(order := l0.order + [v])
      requires KidsPlaced(entered, entered, |l0.order|, kids, depth, 0)
      requires Banded(l0) && v.id !in Visited(l0.order, |l0.order|)
      requires v.id == id && v.depth == depth && v.kids == kids && kids != []
      modifies this
      ensures Valid() && id in l.centre && center == l.centre[id]
      ensures Adds(l0, l, id, depth, v.parent)
      decreases g.byId.Keys - visited, 2
    {
      var centers := PlaceAll(kids, depth, |l0.order|, entered);
      center := CentreOn(id, depth, kids, centers, v, l0, entered);
    }

    method CentreOn(id: string, depth: nat, kids: seq<string>, centers: seq<real>, ghost v: Visit, ghost l0: Layout, ghost entered: Layout)
      returns (center: real)
      requires Valid() && kids != [] && |centers| == |kids| && CentresOf(l, kids, centers) && Banded(l0)
      requires v.id == id && v.depth == depth && v.kids == kids && v.id !in Visited(l0.order, |l0.order|)
      requires entered == l0.(order := l0.order + [v]) && KidsPlaced(entered, l, |l0.order|, kids, depth, |kids|)
      modifies this
      ensures Valid() && id in l.centre && center == l.centre[id]
      ensures Adds(l0, l, id, depth, v.parent)
    {
      center := (centers[0] + centers[|centers| - 1]) / 2.0;
      ghost var m := l.(centre := l.centre[id := center]);
      CloseStep(g, l0, v, entered, l, kids, depth, boxes, center, m);
      Draw(id, depth, center, m);
    }

    /** The position given to a node at the end of place. */
    method Draw(id: string, depth: nat, center: real, ghost m: Layout)
      requires id in g.byId && Sound(g, m) && Drawn(g, m, boxes[id := BoxOf(g.byId[id].kind, depth, center)])
      requires visited == Visited(m.order, |m.order|) && cursor == m.cursor
      modifies this`boxes, this`l
      ensures Valid() && l == m
    {
      boxes := boxes[id := BoxOf(g.byId[id].kind, depth, center)];
      l := m;
    }

    /** The loop over rootOrder: what no earlier root reaches starts a tree of its own. */
    method PlaceRoots()
      requires Collected() && Valid() && l == Layout([], map[], 0.0)
      modifies this
      ensures Valid() && RootsPlaced(g, l, |g.roots|)
    {
      for i := 0 to |g.roots|
        invariant Valid() && RootsPlaced(g, l, i)
      {
        ghost var before := l;
        if g.roots[i] in g.byId && g.roots[i] !in visited {
          RootReady(g, l, i);
          var _ := Place(g.roots[i], 0, None);
        }
        RootStep(g, before, l, i);
      }
    }

    /** The children of the n-th visit, placed one after the other. */
    method PlaceAll(kids: seq<string>, depth: nat, ghost n: nat, ghost start: Layout) returns (centers: seq<real>)
      requires Collected() && Valid() && l == start && |start.order| == n + 1 && start.order[n].kids == kids && start.order[n].depth == depth
      modifies this
      ensures Valid() && old(visited) <= visited && KidsPlaced(start, l, n, kids, depth, |kids|)
      ensures |centers| == |kids| && CentresOf(l, kids, centers)
      decreases g.byId.Keys - visited, 1, 1
    {
      centers := [];
      for i := 0 to |kids|
        invariant Valid() && KidsPlaced(start, l, n, kids, depth, i) && old(visited) <= visited
        invariant |centers| == i && CentresOf(l, kids, centers)
      {
        centers := PlaceKid(kids, depth, i, centers, n, start);
      }
    }

    /** One turn of the loop over the children. */
    method PlaceKid(kids: seq<string>, depth: nat, i: nat, centers: seq<real>, ghost n: nat, ghost start: Layout)
      returns (more: seq<real>)
      requires Collected() && Valid() && i < |kids| && KidsPlaced(start, l, n, kids, depth, i)
      requires start.order[n].kids == kids && start.order[n].depth == depth && |centers| == i && CentresOf(l, kids, centers)
      modifies this
      ensures Valid() && old(visited) <= visited && KidsPlaced(start, l, n, kids, depth, i + 1)
      ensures |more| == i + 1 && CentresOf(l, kids, more)
      decreases g.byId.Keys - visited, 1, 0
    {
      ghost var before := l;
      KidReady(g, start, l, n, kids, depth, i);
      var c := Place(kids[i], depth + 1, Some(n));
      VisitedGrows(before, l);
      KidStep(start, before, l, n, kids, depth, i);
      CentreMore(before, l, kids, centers, c);
      more := centers + [c];
    }
  }

  lemma VisitedGrows(l: Layout, m: Layout)
    requires m == l || Grows(l, m)
    ensures Visited(l.order, |l.order|) <= Visited(m.order, |m.order|)
  {
    VisitedPrefix(l.order, m.order, |l.order|);
  }

  /** centers are the centres of the first kids. */
  ghost predicate CentresOf(l: Layout, kids: seq<string>, centers: seq<real>) {
    |centers| <= |kids| && forall j :: 0 <= j < |centers| ==> kids[j] in l.centre && centers[j] == l.centre[kids[j]]
  }

  lemma CentreMore(l: Layout, m: Layout, kids: seq<string>, centers: seq<real>, c: real)
    requires CentresOf(l, kids, centers) && |centers| < |kids| && (m == l || Grows(l, m))
    requires kids[|centers|] in m.centre && c == m.centre[kids[|centers|]]
    ensures CentresOf(m, kids, centers + [c])
  {
  }

  /** id is known, and placed if it was visited; if not, its visit fits what came before. */
  ghost predicate MayPlace(g: Graph, l: Layout, id: string, depth: nat, parent: Option<nat>) {
    && id in g.byId && (id in Visited(l.order, |l.order|) ==> id in l.centre)
    && (id !in Visited(l.order, |l.order|) ==> CanVisit(g, l.order, Entry(g, l.order, id, depth, parent)))
  }

  /** The visit that entering id makes. */
  function Entry(g: Graph, order: seq<Visit>, id: string, depth: nat, parent: Option<nat>): Visit {
    Visit(id, depth, parent, Unvisited(ChildrenOf(g, id), Visited(order, |order|) + {id}))
  }

  /** The first i children of the n-th visit are placed, below everything placed at start. */
  ghost predicate KidsPlaced(start: Layout, l: Layout, n: nat, kids: seq<string>, depth: nat, i: nat)
    requires i <= |kids|
  {
    && |start.order| == n + 1 && Grows(start, l) && PlacedFrom(l, n + 1) && HangBelow(l.order, n + 1, depth)
    && (forall j :: 0 <= j < i ==> kids[j] in l.centre)
    && (forall j :: n < j < |l.order| && l.order[j].parent == Some(n) ==> l.order[j].id in kids[..i])
  }

  /** The first i roots are placed, and no other node starts a tree. */
  ghost predicate RootsPlaced(g: Graph, l: Layout, i: nat)
    requires i <= |g.roots|
  {
    && PlacedFrom(l, 0)
    && (forall j :: 0 <= j < i && g.roots[j] in g.byId ==> g.roots[j] in Visited(l.order, |l.order|))
    && (forall j :: 0 <= j < |l.order| && l.order[j].parent == None ==> l.order[j].id in g.roots[..i])
    && TreesInTurn(g, l.order)
  }

  /** The j-th visit starts a tree in its turn: the known roots before it were visited, and
      so was everything the earlier visits lead to. */
  ghost predicate InTurn(g: Graph, order: seq<Visit>, j: nat)
    requires j < |order|
  {
    && RootsBefore(g, Visited(order, j), order[j].id)
    && Closed(g, Visited(order, j))
  }

  ghost predicate RootsBefore(g: Graph, visited: set<string>, id: string) {
    exists i {:trigger g.roots[i]} :: 0 <= i < |g.roots| && g.roots[i] == id && forall k :: 0 <= k < i && g.roots[k] in g.byId ==> g.roots[k] in visited
  }

  /** No edge between known nodes leads out of the set. */
  ghost predicate Closed(g: Graph, visited: set<string>) {
    forall e :: e in g.edges && e.source in visited && e.source in g.byId && e.target in g.byId ==> e.target in visited
  }

  ghost predicate TreesInTurn(g: Graph, order: seq<Visit>) {
    forall j {:trigger InTurn(g, order, j)} :: 0 <= j < |order| && order[j].parent == None ==> InTurn(g, order, j)
  }

  lemma RootReady(g: Graph, l: Layout, i: nat)
    requires VisitsSound(g, l.order) && i < |g.roots| && RootsPlaced(g, l, i)
    requires g.roots[i] in g.byId && g.roots[i] !in Visited(l.order, |l.order|)
    ensures MayPlace(g, l, g.roots[i], 0, None)
  {
    var v := Entry(g, l.order, g.roots[i], 0, None);
    var more := l.order + [v];
    VisitedMore(l.order, v);
    VisitedPrefix(l.order, more, |l.order|);
    forall j | 0 <= j < |l.order| && more[j].parent == None ensures Before(g.roots, more[j].id, v.id) {
      var k :| 0 <= k < i && g.roots[k] == l.order[j].id;
      BeforeAt(g.roots, k, v.id);
    }
    VisitKeepsSound(g, l.order, v);
  }

  lemma RootStep(g: Graph, l: Layout, m: Layout, i: nat)
    requires Sound(g, l) && i < |g.roots| && RootsPlaced(g, l, i)
    requires m == l || Adds(l, m, g.roots[i], 0, None)
    requires g.roots[i] in g.byId ==> g.roots[i] in Visited(m.order, |m.order|)
    ensures RootsPlaced(g, m, i + 1)
  {
    forall j | 0 <= j < i && g.roots[j] in g.byId ensures g.roots[j] in Visited(m.order, |m.order|) {
      VisitedPrefix(l.order, m.order, |l.order|);
    }
    if m != l {
      PlacedIsClosed(g, l);
      TreesStayInTurn(g, l.order, m.order, i);
    }
  }

  lemma TreesStayInTurn(g: Graph, order: seq<Visit>, more: seq<Visit>, i: nat)
    requires i < |g.roots| && order < more && more[|order|].id == g.roots[i]
    requires TreesInTurn(g, order) && Closed(g, Visited(order, |order|))
    requires forall j :: 0 <= j < i && g.roots[j] in g.byId ==> g.roots[j] in Visited(order, |order|)
    requires forall j :: |order| < j < |more| ==> more[j].parent.Some?
    ensures TreesInTurn(g, more)
  {
    forall j | 0 <= j < |more| && more[j].parent == None ensures InTurn(g, more, j) {
      VisitedPrefix(order, more, j);
      if j < |order| { assert more[j] == order[j] && InTurn(g, order, j); }
    }
  }

  /** Once all visits are placed, their edges lead nowhere else. */
  lemma PlacedIsClosed(g: Graph, l: Layout)
    requires Sound(g, l) && PlacedFrom(l, 0)
    ensures Closed(g, Visited(l.order, |l.order|))
  {
    var visited := Visited(l.order, |l.order|);
    forall e | e in g.edges && e.source in visited && e.source in g.byId && e.target in g.byId
      ensures e.target in visited
    {
      var h :| 0 <= h < |l.order| && l.order[h].id == e.source;
      EdgeIsChild(g, e);
      assert VisitSound(g, l.order, h);
      if e.target !in Visited(l.order, h + 1) {
        assert Centred(g, l, h) && e.target in l.order[h].kids;
        assert e.target in l.centre;
      }
    }
  }

  lemma EdgeIsChild(g: Graph, e: GraphEdge)
    requires e in g.edges && e.source in g.byId && e.target in g.byId
    ensures e.target in ChildrenOf(g, e.source)
  {
    var id := e.source;
    var out := OutEdges(g, |g.edges|, id);
    EdgeGoesOut(g, |g.edges|, e);
    var cs := Children(g, out);
    SortedInOrder(cs);
    var k :| 0 <= k < |out| && out[k] == e;
    assert cs[k] in cs && cs[k] in Sorted(cs);
    var m :| 0 <= m < |Sorted(cs)| && Sorted(cs)[m] == cs[k];
    assert ChildrenOf(g, id)[m] == e.target;
  }

  lemma {:induction false} EdgeGoesOut(g: Graph, n: nat, e: GraphEdge)
    requires n <= |g.edges| && e in g.edges[..n] && e.source in g.byId && e.target in g.byId
    ensures e in OutEdges(g, n, e.source)
  {
    if g.edges[n - 1] != e {
      assert g.edges[..n] == g.edges[..n - 1] + [g.edges[n - 1]];
      EdgeGoesOut(g, n - 1, e);
    }
  }

  lemma DrawnAt(g: Graph, l: Layout, boxes: map<string, Box>, id: string)
    requires VisitsSound(g, l.order) && l.centre.Keys <= Visited(l.order, |l.order|) && Drawn(g, l, boxes) && id in boxes
    ensures id in g.byId && boxes[id].y + NodeHeight(g.byId[id].kind) / 2.0 == l.centre[id]
  {
    var i :| 0 <= i < |l.order| && l.order[i].id == id;
    assert DrawnAs(g, l, boxes, l.order[i]);
  }

  lemma DrawnWith(g: Graph, l: Layout, m: Layout, boxes: map<string, Box>, n: nat, c: real)
    requires Drawn(g, l, boxes) && VisitsSound(g, m.order) && l.order <= m.order && n < |m.order|
    requires l.centre.Keys <= Visited(l.order, |l.order|)
    requires m.centre == l.centre[m.order[n].id := c]
    ensures Drawn(g, m, boxes[m.order[n].id := BoxOf(g.byId[m.order[n].id].kind, m.order[n].depth, c)])
  {
    forall i | 0 <= i < |m.order| && i != n && m.order[i].id in m.centre
      ensures m.order[i].id != m.order[n].id && i < |l.order| && m.order[i].id in l.centre
    {
      VisitedOnce(g, m.order, i, n);
      VisitedAt(g, l.order, m.order, i);
    }
  }

  lemma LeafStep(g: Graph, l: Layout, boxes: map<string, Box>, v: Visit, h: real, m: Layout)
    requires Sound(g, l) && Drawn(g, l, boxes) && CanVisit(g, l.order, v) && v.kids == []
    requires h == NodeHeight(g.byId[v.id].kind) && m == AfterLeaf(l, v, h)
    ensures Sound(g, m) && Drawn(g, m, boxes[v.id := BoxOf(g.byId[v.id].kind, v.depth, l.cursor + h / 2.0)])
    ensures Adds(l, m, v.id, v.depth, v.parent) && Visited(m.order, |m.order|) == Visited(l.order, |l.order|) + {v.id}
  {
    LeafKeepsSound(g, l, v, h, m);
    VisitedMore(l.order, v);
    DrawnWith(g, l, m, boxes, |l.order|, l.cursor + h / 2.0);
    LeafAdds(l, v, h);
  }

  lemma LeafAdds(l: Layout, v: Visit, h: real)
    requires h >= 60.0 && v.id !in Visited(l.order, |l.order|) && l.centre.Keys <= Visited(l.order, |l.order|)
    ensures Adds(l, AfterLeaf(l, v, h), v.id, v.depth, v.parent)
  {
  }

  lemma VisitedMore(order: seq<Visit>, v: Visit)
    ensures Visited(order + [v], |order| + 1) == Visited(order, |order|) + {v.id}
  {
    VisitedPrefix(order, order + [v], |order|);
    assert (order + [v])[|order|] == v;
  }

  lemma EnterStep(g: Graph, l: Layout, boxes: map<string, Box>, v: Visit, m: Layout)
    requires Sound(g, l) && Drawn(g, l, boxes) && CanVisit(g, l.order, v) && v.kids != []
    requires m == l.(order := l.order + [v])
    ensures Sound(g, m) && Drawn(g, m, boxes) && KidsPlaced(m, m, |l.order|, v.kids, v.depth, 0)
    ensures Visited(m.order, |m.order|) == Visited(l.order, |l.order|) + {v.id}
  {
    EnterKeepsSound(g, l, v);
    VisitedMore(l.order, v);
  }

  lemma KidKnown(g: Graph, order: seq<Visit>, n: nat, a: string)
    requires VisitsSound(g, order) && n < |order| && a in order[n].kids
    ensures a in g.byId && a in ChildrenOf(g, order[n].id) && a !in Visited(order, n + 1)
    ensures order[n].kids == Unvisited(ChildrenOf(g, order[n].id), Visited(order, n + 1))
  {
    assert VisitSound(g, order, n);
    ChildFacts(g, order[n].id, a);
  }

  /** A child still unvisited at its turn comes after all children visited as such. */
  lemma KidReady(g: Graph, start: Layout, l: Layout, n: nat, kids: seq<string>, depth: nat, i: nat)
    requires VisitsSound(g, l.order) && l.centre.Keys <= Visited(l.order, |l.order|)
    requires |start.order| == n + 1 && start.order[n].kids == kids && start.order[n].depth == depth
    requires i < |kids| && KidsPlaced(start, l, n, kids, depth, i)
    ensures MayPlace(g, l, kids[i], depth + 1, Some(n))
  {
    assert l.order[n] == start.order[n];
    KidKnown(g, l.order, n, kids[i]);
    if kids[i] in Visited(l.order, |l.order|) {
      var j :| 0 <= j < |l.order| && l.order[j].id == kids[i];
      assert j > n;
    } else {
      KidCanVisit(g, l, n, kids, i, Entry(g, l.order, kids[i], depth + 1, Some(n)));
    }
  }

  lemma KidCanVisit(g: Graph, l: Layout, n: nat, kids: seq<string>, i: nat, v: Visit)
    requires VisitsSound(g, l.order) && l.centre.Keys <= Visited(l.order, |l.order|)
    requires n < |l.order| && l.order[n].kids == kids && i < |kids| && kids[i] !in Visited(l.order, |l.order|)
    requires forall j :: 0 <= j < i ==> kids[j] in l.centre
    requires forall j :: n < j < |l.order| && l.order[j].parent == Some(n) ==> l.order[j].id in kids[..i]
    requires v == Entry(g, l.order, kids[i], l.order[n].depth + 1, Some(n)) && AllBelow(l.order, n, |l.order|)
    ensures CanVisit(g, l.order, v)
  {
    KidKnown(g, l.order, n, kids[i]);
    forall j: nat | j < |l.order| && l.order[j].parent == Some(n)
      ensures Before(ChildrenOf(g, l.order[n].id), l.order[j].id, v.id)
    {
      KidsInTurn(g, l, n, kids, i, j);
    }
    ChildVisitSound(g, l.order, n, v);
    VisitKeepsSound(g, l.order, v);
  }

  lemma ChildVisitSound(g: Graph, order: seq<Visit>, n: nat, v: Visit)
    requires n < |order| && v == Entry(g, order, v.id, order[n].depth + 1, Some(n)) && AllBelow(order, n, |order|)
    requires v.id in ChildrenOf(g, order[n].id) && v.id !in Visited(order, |order|)
    requires forall j: nat :: j < |order| && order[j].parent == Some(n) ==> Before(ChildrenOf(g, order[n].id), order[j].id, v.id)
    ensures VisitSound(g, order + [v], |order|)
  {
    var more := order + [v];
    VisitedMore(order, v);
    VisitedPrefix(order, more, |order|);
    ChildListPrefix(g, order, more, v.parent);
    assert more[|order|] == v && more[n] == order[n];
    forall j: nat | j < |order| && more[j].parent == v.parent ensures Before(ChildList(g, more, v.parent), more[j].id, v.id) {
      assert more[j] == order[j];
    }
  }

  /** A child visited as such has an earlier place in the list than the one whose turn it is. */
  lemma KidsInTurn(g: Graph, l: Layout, n: nat, kids: seq<string>, i: nat, j: nat)
    requires VisitsSound(g, l.order) && l.centre.Keys <= Visited(l.order, |l.order|)
    requires n < |l.order| && l.order[n].kids == kids && i < |kids| && kids[i] !in Visited(l.order, |l.order|)
    requires forall k :: 0 <= k < i ==> kids[k] in l.centre
    requires j < |l.order| && l.order[j].parent == Some(n) && (j > n ==> l.order[j].id in kids[..i])
    ensures Before(ChildrenOf(g, l.order[n].id), l.order[j].id, kids[i])
  {
    assert VisitSound(g, l.order, j);
    var k :| 0 <= k < i && kids[k] == l.order[j].id;
    KidKnown(g, l.order, n, kids[i]);
    forall h | 0 <= h < k + 1 ensures kids[h] != kids[i] { assert kids[h] in l.centre; }
    KidBefore(ChildrenOf(g, l.order[n].id), Visited(l.order, n + 1), kids, k, kids[i]);
  }

  lemma KidBefore(xs: seq<string>, visited: set<string>, kids: seq<string>, k: nat, b: string)
    requires kids == Unvisited(xs, visited) && k < |kids| && b !in kids[..k + 1] && b !in visited
    ensures Before(xs, kids[k], b)
  {
    BeforeAt(kids, k, b);
    UnvisitedBefore(xs, visited, kids[k], b);
  }

  lemma KidStep(start: Layout, l: Layout, m: Layout, n: nat, kids: seq<string>, depth: nat, i: nat)
    requires i < |kids| && KidsPlaced(start, l, n, kids, depth, i) && kids[i] in m.centre
    requires m == l || Adds(l, m, kids[i], depth + 1, Some(n))
    ensures KidsPlaced(start, m, n, kids, depth, i + 1)
  {
  }

  lemma CloseStep(g: Graph, l0: Layout, v: Visit, entered: Layout, l: Layout, kids: seq<string>, depth: nat,
                  boxes: map<string, Box>, c: real, m: Layout)
    requires Sound(g, l) && Drawn(g, l, boxes) && kids != [] && Banded(l0) && v.kids == kids && v.depth == depth
    requires entered == l0.(order := l0.order + [v]) && KidsPlaced(entered, l, |l0.order|, kids, depth, |kids|)
    requires v.id !in Visited(l0.order, |l0.order|)
    requires c == (l.centre[kids[0]] + l.centre[kids[|kids| - 1]]) / 2.0
    requires m == l.(centre := l.centre[v.id := c])
    ensures v.id in g.byId && Sound(g, m) && Drawn(g, m, boxes[v.id := BoxOf(g.byId[v.id].kind, depth, c)])
    ensures Adds(l0, m, v.id, depth, v.parent)
  {
    CloseSound(g, l0, v, l, c, m);
    assert l.order[|l0.order|] == v;
    DrawnWith(g, l, m, boxes, |l0.order|, c);
    CloseAdds(l0, v, l, c);
  }

  lemma CloseSound(g: Graph, l0: Layout, v: Visit, l: Layout, c: real, m: Layout)
    requires Sound(g, l) && v.kids != [] && Banded(l0) && v.id !in Visited(l0.order, |l0.order|)
    requires KidsPlaced(l0.(order := l0.order + [v]), l, |l0.order|, v.kids, v.depth, |v.kids|)
    requires c == (l.centre[v.kids[0]] + l.centre[v.kids[|v.kids| - 1]]) / 2.0
    requires m == l.(centre := l.centre[v.id := c])
    ensures Sound(g, m) && v.id !in l.centre && l0.cursor + 30.0 <= c <= l.cursor - 58.0
  {
    var n := |l0.order|;
    assert l.order[n] == v;
    KidBelow(g, l0, v, l, 0);
    KidBelow(g, l0, v, l, |v.kids| - 1);
    CloseBelow(l0, v, l, c);
    assert forall i :: n < i < |l.order| ==> l.order[i].depth > l.order[n].depth;
    CloseKeepsSound(g, l, n, c, m);
  }

  lemma KidBelow(g: Graph, l0: Layout, v: Visit, l: Layout, j: nat)
    requires VisitsSound(g, l.order) && l0.order + [v] <= l.order && j < |v.kids| && v.kids[j] in l.centre
    requires Grows(l0.(order := l0.order + [v]), l) && l0.centre.Keys <= Visited(l0.order, |l0.order|)
    ensures l0.cursor + 30.0 <= l.centre[v.kids[j]] <= l.cursor - 58.0
  {
    assert l.order[|l0.order|] == v;
    KidKnown(g, l.order, |l0.order|, v.kids[j]);
    VisitedPrefix(l0.order, l.order, |l0.order|);
    assert Visited(l0.order, |l0.order|) <= Visited(l.order, |l0.order| + 1);
  }

  /** Everything in an earlier place of the column stays above a node placed below l0. */
  lemma CloseBelow(l0: Layout, v: Visit, l: Layout, c: real)
    requires Banded(l0) && Grows(l0.(order := l0.order + [v]), l) && l0.cursor + 30.0 <= c && v.id !in l0.centre
    ensures v.id !in l.centre
    ensures forall i :: 0 <= i < |l0.order| && l.order[i].id in l.centre ==> l.centre[l.order[i].id] + 88.0 <= c
  {
    var entered := l0.order + [v];
    assert entered[|l0.order|] == v && v.id in Visited(entered, |entered|);
    forall i | 0 <= i < |l0.order| && l.order[i].id in l.centre ensures l.order[i].id in l0.centre {
      assert l.order[i] == entered[i] && entered[i].id in Visited(entered, |entered|);
    }
  }

  lemma CloseAdds(l0: Layout, v: Visit, l: Layout, c: real)
    requires KidsPlaced(l0.(order := l0.order + [v]), l, |l0.order|, v.kids, v.depth, |v.kids|) && v.id !in l.centre
    requires l0.cursor + 30.0 <= c <= l.cursor - 58.0 && v.id !in Visited(l0.order, |l0.order|)
    ensures Adds(l0, l.(centre := l.centre[v.id := c]), v.id, v.depth, v.parent)
  {
    VisitedPrefix(l0.order, l0.order + [v], |l0.order|);
    assert l.order[|l0.order|] == v;
    VisitedMore(l0.order, v);
  }

  // ---------------------------------------------------- the result

  /** nodes.filter(want), mapped to ids. */
  function IdsWhere(nodes: seq<GraphNode>, want: NodeKind -> bool): seq<string> {
    if nodes == [] then []
    else IdsWhere(nodes[..|nodes| - 1], want) + if want(nodes[|nodes| - 1].kind) then [nodes[|nodes| - 1].id] else []
  }

  const Entrypoints := (k: NodeKind) => k.SIPInputNode?
  const FnsAndQueues := (k: NodeKind) => k.FnNode? || k.QueueNode?

  function AllIds(nodes: seq<GraphNode>): seq<string> { seq(|nodes|, i requires 0 <= i < |nodes| => nodes[i].id) }

  /** rootOrder: entrypoints first, then functions and queues, then anything left. */
  function RootOrder(nodes: seq<GraphNode>): seq<string> {
    IdsWhere(nodes, Entrypoints) + IdsWhere(nodes, FnsAndQueues) + AllIds(nodes)
  }

  function GraphOf(nodes: seq<GraphNode>, edges: seq<GraphEdge>): Graph { Graph(ById(nodes), edges, RootOrder(nodes)) }

  /** Every known node was visited and placed. */
  ghost predicate Complete(g: Graph, l: Layout) {
    Sound(g, l) && PlacedFrom(l, 0) && Visited(l.order, |l.order|) == g.byId.Keys
  }

  /** box is where the layout puts the n-th node visited. */
  ghost predicate Shows(g: Graph, l: Layout, n: nat, box: Box)
    requires Complete(g, l)
  {
    n < |l.order| && box == BoxOf(g.byId[l.order[n].id].kind, l.order[n].depth, l.centre[l.order[n].id])
  }

  /** What the i-th node shows: nothing if a later node has its id, else the box of its visit. */
  ghost predicate NodeShows(nodes: seq<GraphNode>, g: Graph, l: Layout, i: nat, box: Option<Box>, n: nat)
    requires Complete(g, l) && i < |nodes|
  {
    && (box.Some? <==> LastWithId(nodes, i))
    && (box.Some? ==> Shows(g, l, n, box.value) && l.order[n].id == nodes[i].id)
  }

  // -------------------------------------------- where trees start

  ghost predicate Named(nodes: seq<GraphNode>, id: string) { exists k :: 0 <= k < |nodes| && nodes[k].id == id }

  /** A walk along edges between known nodes. */
  ghost predicate IsPath(nodes: seq<GraphNode>, edges: seq<GraphEdge>, p: seq<string>) {
    && p != [] && (forall k :: 0 <= k < |p| ==> Named(nodes, p[k]))
    && forall k :: 0 <= k < |p| - 1 ==> GraphEdge(p[k], p[k + 1]) in edges
  }

  ghost predicate Leads(nodes: seq<GraphNode>, edges: seq<GraphEdge>, a: string, b: string) {
    exists p :: IsPath(nodes, edges, p) && p[0] == a && p[|p| - 1] == b
  }

  predicate IsFnOrQueue(k: NodeKind) { k.FnNode? || k.QueueNode? }

  /** Node i has an earlier claim to start a tree than node j: entrypoints before functions
      and queues, these before actions, and otherwise in the order given. */
  predicate Sooner(nodes: seq<GraphNode>, i: nat, j: nat)
    requires i < |nodes| && j < |nodes|
  {
    var a, b := nodes[i].kind, nodes[j].kind;
    || (a.SIPInputNode? && !b.SIPInputNode?)
    || (IsFnOrQueue(a) && b.ActionNode?)
    || (i < j && (a.SIPInputNode? <==> b.SIPInputNode?) && (a.ActionNode? <==> b.ActionNode?))
  }

  /** Nothing that leads to node j has an earlier claim. */
  ghost predicate Unled(nodes: seq<GraphNode>, edges: seq<GraphEdge>, j: nat)
    requires j < |nodes|
  {
    forall k {:trigger Sooner(nodes, k, j)} :: 0 <= k < |nodes| && Sooner(nodes, k, j) ==> !Leads(nodes, edges, nodes[k].id, nodes[j].id)
  }

  /** The n-th visit starts a tree exactly when its node has a claim earlier than anything
      that leads to it. */
  ghost predicate StartsIff(nodes: seq<GraphNode>, edges: seq<GraphEdge>, order: seq<Visit>, n: nat)
    requires n < |order|
  {
    order[n].parent == None <==> exists j :: 0 <= j < |nodes| && nodes[j].id == order[n].id && Unled(nodes, edges, j)
  }

  /** Node a has a claim earlier than every claim of b. */
  ghost predicate ClaimsFirst(nodes: seq<GraphNode>, a: string, b: string) {
    exists j {:trigger nodes[j]} :: 0 <= j < |nodes| && nodes[j].id == a && forall k :: 0 <= k < |nodes| && nodes[k].id == b ==> Sooner(nodes, j, k)
  }

  /** Where trees start, and in which order. */
  ghost predicate TreesStart(nodes: seq<GraphNode>, edges: seq<GraphEdge>, order: seq<Visit>) {
    && (forall n {:trigger StartsIff(nodes, edges, order, n)} :: 0 <= n < |order| ==> StartsIff(nodes, edges, order, n))
    && forall n, m :: 0 <= n < m < |order| && order[n].parent == None && order[m].parent == None ==>
         ClaimsFirst(nodes, order[n].id, order[m].id)
  }

  /** The place of node j's own claim in rootOrder. */
  function Turn(nodes: seq<GraphNode>, j: nat): nat
    requires j < |nodes|
  {
    if nodes[j].kind.SIPInputNode? then |IdsWhere(nodes[..j], Entrypoints)|
    else if IsFnOrQueue(nodes[j].kind) then |IdsWhere(nodes, Entrypoints)| + |IdsWhere(nodes[..j], FnsAndQueues)|
    else |IdsWhere(nodes, Entrypoints)| + |IdsWhere(nodes, FnsAndQueues)| + j
  }

  lemma {:induction false} PlaceOf(nodes: seq<GraphNode>, want: NodeKind -> bool, j: nat)
    requires j < |nodes| && want(nodes[j].kind)
    ensures |IdsWhere(nodes[..j], want)| < |IdsWhere(nodes, want)|
    ensures IdsWhere(nodes, want)[|IdsWhere(nodes[..j], want)|] == nodes[j].id
  {
    var n := |nodes| - 1;
    if j < n {
      assert nodes[..n][..j] == nodes[..j];
      PlaceOf(nodes[..n], want, j);
    }
  }

  lemma {:induction false} PlacedBy(nodes: seq<GraphNode>, want: NodeKind -> bool, r: nat) returns (j: nat)
    requires r < |IdsWhere(nodes, want)|
    ensures j < |nodes| && want(nodes[j].kind) && r == |IdsWhere(nodes[..j], want)| && nodes[j].id == IdsWhere(nodes, want)[r]
  {
    var n := |nodes| - 1;
    if r < |IdsWhere(nodes[..n], want)| {
      j := PlacedBy(nodes[..n], want, r);
      assert nodes[..n][..j] == nodes[..j];
    } else {
      j := n;
    }
  }

  lemma TurnOfNode(nodes: seq<GraphNode>, j: nat)
    requires j < |nodes|
    ensures Turn(nodes, j) < |RootOrder(nodes)| && RootOrder(nodes)[Turn(nodes, j)] == nodes[j].id
  {
    if nodes[j].kind.SIPInputNode? { PlaceOf(nodes, Entrypoints, j); }
    else if IsFnOrQueue(nodes[j].kind) { PlaceOf(nodes, FnsAndQueues, j); }
  }

  /** The claims come in the order of their places. */
  lemma SoonerIff(nodes: seq<GraphNode>, i: nat, j: nat)
    requires i < |nodes| && j < |nodes|
    ensures Sooner(nodes, i, j) <==> Turn(nodes, i) < Turn(nodes, j)
  {
    TurnsInOrder(nodes, i, j);
    TurnsInOrder(nodes, j, i);
  }

  lemma TurnsInOrder(nodes: seq<GraphNode>, i: nat, j: nat)
    requires i < |nodes| && j < |nodes|
    ensures Sooner(nodes, i, j) ==> Turn(nodes, i) < Turn(nodes, j)
  {
    if nodes[i].kind.SIPInputNode? { PlaceOf(nodes, Entrypoints, i); }
    if IsFnOrQueue(nodes[i].kind) { PlaceOf(nodes, FnsAndQueues, i); }
    if i < j {
      assert nodes[..j][..i] == nodes[..i];
      if nodes[i].kind.SIPInputNode? { PlaceOf(nodes[..j], Entrypoints, i); }
      if IsFnOrQueue(nodes[i].kind) { PlaceOf(nodes[..j], FnsAndQueues, i); }
    }
  }

  /** Each place of rootOrder holds the id of a node with a claim at least as early. */
  lemma ClaimAt(nodes: seq<GraphNode>, r: nat) returns (j: nat)
    requires r < |RootOrder(nodes)|
    ensures j < |nodes| && nodes[j].id == RootOrder(nodes)[r] && Turn(nodes, j) <= r
  {
    var s, f := |IdsWhere(nodes, Entrypoints)|, |IdsWhere(nodes, FnsAndQueues)|;
    if r < s {
      j := PlacedBy(nodes, Entrypoints, r);
    } else if r < s + f {
      j := PlacedBy(nodes, FnsAndQueues, r - s);
    } else {
      j := r - s - f;
      if nodes[j].kind.SIPInputNode? { PlaceOf(nodes, Entrypoints, j); }
      if IsFnOrQueue(nodes[j].kind) { PlaceOf(nodes, FnsAndQueues, j); }
    }
  }

  lemma KnownIffNamed(nodes: seq<GraphNode>, id: string)
    ensures id in ById(nodes) <==> Named(nodes, id)
  {
    if id in ById(nodes) { var _ := KnownIdsAreNodes(nodes, id); }
    if Named(nodes, id) {
      var k :| 0 <= k < |nodes| && nodes[k].id == id;
      ByIdIsLast(nodes, k);
    }
  }

  /** The claim with which a tree starts: everything with an earlier one was visited before. */
  lemma ClaimOfTree(nodes: seq<GraphNode>, edges: seq<GraphEdge>, order: seq<Visit>, n: nat) returns (j: nat)
    requires n < |order| && InTurn(GraphOf(nodes, edges), order, n)
    ensures j < |nodes| && nodes[j].id == order[n].id
    ensures forall k :: 0 <= k < |nodes| && Turn(nodes, k) < Turn(nodes, j) ==> nodes[k].id in Visited(order, n)
  {
    var g := GraphOf(nodes, edges);
    var i :| 0 <= i < |g.roots| && g.roots[i] == order[n].id
             && forall k :: 0 <= k < i && g.roots[k] in g.byId ==> g.roots[k] in Visited(order, n);
    j := ClaimAt(nodes, i);
    forall k | 0 <= k < |nodes| && Turn(nodes, k) < Turn(nodes, j) ensures nodes[k].id in Visited(order, n) {
      TurnOfNode(nodes, k);
      ByIdIsLast(nodes, k);
    }
  }

  /** A path does not leave a closed set. */
  lemma {:induction false} PathStays(nodes: seq<GraphNode>, edges: seq<GraphEdge>, p: seq<string>, visited: set<string>)
    requires IsPath(nodes, edges, p) && Closed(GraphOf(nodes, edges), visited) && p[0] in visited
    ensures p[|p| - 1] in visited
  {
    if |p| > 1 {
      var q := p[1..];
      KnownIffNamed(nodes, p[0]);
      KnownIffNamed(nodes, p[1]);
      assert GraphEdge(p[0], p[1]) in edges;
      assert forall k :: 0 <= k < |q| ==> q[k] == p[k + 1];
      PathStays(nodes, edges, q, visited);
    }
  }

  lemma LeadsInside(nodes: seq<GraphNode>, edges: seq<GraphEdge>, visited: set<string>, a: string, b: string)
    requires Closed(GraphOf(nodes, edges), visited) && a in visited
    ensures Leads(nodes, edges, a, b) ==> b in visited
  {
    if Leads(nodes, edges, a, b) {
      var p :| IsPath(nodes, edges, p) && p[0] == a && p[|p| - 1] == b;
      PathStays(nodes, edges, p, visited);
    }
  }

  /** Every visit hangs below the start of a tree that leads to it. */
  lemma {:induction false} TreeOf(nodes: seq<GraphNode>, edges: seq<GraphEdge>, order: seq<Visit>, n: nat) returns (m: nat)
    requires n < |order| && VisitsSound(GraphOf(nodes, edges), order)
    ensures m <= n && order[m].parent == None && Leads(nodes, edges, order[m].id, order[n].id)
  {
    var g := GraphOf(nodes, edges);
    assert VisitSound(g, order, n);
    KnownIffNamed(nodes, order[n].id);
    if order[n].parent == None {
      m := n;
      assert IsPath(nodes, edges, [order[n].id]);
    } else {
      var h := order[n].parent.value;
      m := TreeOf(nodes, edges, order, h);
      ChildFacts(g, order[h].id, order[n].id);
      OutEdgesAreEdges(g, |edges|, order[h].id);
      LeadsOn(nodes, edges, order[m].id, order[h].id, order[n].id);
    }
  }

  lemma LeadsOn(nodes: seq<GraphNode>, edges: seq<GraphEdge>, a: string, b: string, c: string)
    requires Leads(nodes, edges, a, b) && GraphEdge(b, c) in edges && Named(nodes, c)
    ensures Leads(nodes, edges, a, c)
  {
    var p :| IsPath(nodes, edges, p) && p[0] == a && p[|p| - 1] == b;
    assert IsPath(nodes, edges, p + [c]);
  }

  lemma {:induction false} OutEdgesAreEdges(g: Graph, n: nat, id: string)
    requires n <= |g.edges|
    ensures forall e :: e in OutEdges(g, n, id) ==> e in g.edges
  {
    if n > 0 { OutEdgesAreEdges(g, n - 1, id); }
  }

  lemma TreeIsUnled(nodes: seq<GraphNode>, edges: seq<GraphEdge>, order: seq<Visit>, n: nat) returns (j: nat)
    requires VisitsSound(GraphOf(nodes, edges), order) && n < |order| && InTurn(GraphOf(nodes, edges), order, n)
    ensures j < |nodes| && nodes[j].id == order[n].id && Unled(nodes, edges, j)
  {
    j := ClaimOfTree(nodes, edges, order, n);
    VisitedLater(GraphOf(nodes, edges), order, n, n);
    forall k | 0 <= k < |nodes| && Sooner(nodes, k, j) ensures !Leads(nodes, edges, nodes[k].id, nodes[j].id) {
      SoonerIff(nodes, k, j);
      LeadsInside(nodes, edges, Visited(order, n), nodes[k].id, nodes[j].id);
    }
  }

  lemma UnledIsTree(nodes: seq<GraphNode>, edges: seq<GraphEdge>, order: seq<Visit>, n: nat, j: nat)
    requires VisitsSound(GraphOf(nodes, edges), order) && TreesInTurn(GraphOf(nodes, edges), order)
    requires n < |order| && j < |nodes| && nodes[j].id == order[n].id && Unled(nodes, edges, j)
    ensures order[n].parent == None
  {
    var g := GraphOf(nodes, edges);
    var m := TreeOf(nodes, edges, order, n);
    assert InTurn(g, order, m);
    var i := ClaimOfTree(nodes, edges, order, m);
    SoonerIff(nodes, i, j);
    assert !Sooner(nodes, i, j);
    TurnOfNode(nodes, i);
    TurnOfNode(nodes, j);
    if m < n {
      VisitedOnce(g, order, m, n);
      VisitedLater(g, order, m, n);
    }
  }

  lemma VisitedLater(g: Graph, order: seq<Visit>, m: nat, n: nat)
    requires VisitsSound(g, order) && m <= n < |order|
    ensures order[n].id !in Visited(order, m)
  {
    assert VisitSound(g, order, n);
    assert Visited(order, m) <= Visited(order, n);
  }

  lemma TreesStartInOrder(nodes: seq<GraphNode>, edges: seq<GraphEdge>, order: seq<Visit>, n: nat, m: nat)
    requires VisitsSound(GraphOf(nodes, edges), order) && n < m < |order| && InTurn(GraphOf(nodes, edges), order, n)
    ensures ClaimsFirst(nodes, order[n].id, order[m].id)
  {
    var g := GraphOf(nodes, edges);
    var j := ClaimOfTree(nodes, edges, order, n);
    forall k | 0 <= k < |nodes| && nodes[k].id == order[m].id ensures Sooner(nodes, j, k) {
      SoonerIff(nodes, j, k);
      TurnOfNode(nodes, j);
      TurnOfNode(nodes, k);
      VisitedLater(g, order, n, m);
      VisitedOnce(g, order, n, m);
    }
  }

  lemma TreesStartLaw(nodes: seq<GraphNode>, edges: seq<GraphEdge>, order: seq<Visit>)
    requires VisitsSound(GraphOf(nodes, edges), order) && TreesInTurn(GraphOf(nodes, edges), order)
    ensures TreesStart(nodes, edges, order)
  {
    var g := GraphOf(nodes, edges);
    forall n | 0 <= n < |order| ensures StartsIff(nodes, edges, order, n) {
      if order[n].parent == None {
        assert InTurn(g, order, n);
        var _ := TreeIsUnled(nodes, edges, order, n);
      } else if exists j :: 0 <= j < |nodes| && nodes[j].id == order[n].id && Unled(nodes, edges, j) {
        var j :| 0 <= j < |nodes| && nodes[j].id == order[n].id && Unled(nodes, edges, j);
        UnledIsTree(nodes, edges, order, n, j);
      }
    }
    forall n, m | 0 <= n < m < |order| && order[n].parent == None && order[m].parent == None
      ensures ClaimsFirst(nodes, order[n].id, order[m].id)
    {
      assert InTurn(g, order, n);
      TreesStartInOrder(nodes, edges, order, n, m);
    }
  }

  // ---------------------------------------------- runTreeLayout

  /** runTreeLayout: the box given to each node, or None for a node whose id is taken by a
      later one; at[i] is when the i-th node was visited. */
  method RunTreeLayout(nodes: seq<GraphNode>, edges: seq<GraphEdge>)
    returns (boxes: seq<Option<Box>>, ghost l: Layout, ghost at: seq<nat>)
    ensures Complete(GraphOf(nodes, edges), l) && TreesStart(nodes, edges, l.order) && |boxes| == |at| == |nodes|
    ensures forall i :: 0 <= i < |nodes| ==> NodeShows(nodes, GraphOf(nodes, edges), l, i, boxes[i], at[i])
    ensures forall i, j :: 0 <= i < j < |nodes| && boxes[i].Some? && boxes[j].Some? ==> Apart(boxes[i].value, boxes[j].value)
  {
    var layout := new TreeLayout(GraphOf(nodes, edges));
    layout.PlaceRoots();
    l := layout.l;
    AllRootsPlaced(nodes, edges, l);
    TreesStartLaw(nodes, edges, l.order);
    boxes, at := ReadBoxes(nodes, GraphOf(nodes, edges), layout.boxes, l);
    forall i, j | 0 <= i < j < |nodes| && boxes[i].Some? && boxes[j].Some?
      ensures Apart(boxes[i].value, boxes[j].value)
    {
      assert nodes[i].id != nodes[j].id;
      BoxesApart(GraphOf(nodes, edges), l, at[i], at[j], boxes[i].value, boxes[j].value);
    }
  }

  /** The positions as they can be read off the nodes afterwards. */
  method ReadBoxes(nodes: seq<GraphNode>, g: Graph, placed: map<string, Box>, ghost l: Layout)
    returns (boxes: seq<Option<Box>>, ghost at: seq<nat>)
    requires Complete(g, l) && Drawn(g, l, placed) && g.byId == ById(nodes)
    ensures |boxes| == |at| == |nodes|
    ensures forall i :: 0 <= i < |nodes| ==> NodeShows(nodes, g, l, i, boxes[i], at[i])
  {
    boxes, at := [], [];
    for i := 0 to |nodes|
      invariant |boxes| == |at| == i
      invariant forall k :: 0 <= k < i ==> NodeShows(nodes, g, l, k, boxes[k], at[k])
    {
      var box, n := ReadBox(nodes, i, g, placed, l);
      boxes, at := boxes + [box], at + [n];
    }
  }

  method ReadBox(nodes: seq<GraphNode>, i: nat, g: Graph, placed: map<string, Box>, ghost l: Layout)
    returns (box: Option<Box>, ghost n: nat)
    requires Complete(g, l) && Drawn(g, l, placed) && g.byId == ById(nodes) && i < |nodes|
    ensures NodeShows(nodes, g, l, i, box, n)
  {
    ByIdIsLast(nodes, i);
    n := ShownAt(g, l, placed, nodes[i].id);
    box := if LastWithId(nodes, i) then Some(placed[nodes[i].id]) else None;
  }

  lemma ShownAt(g: Graph, l: Layout, boxes: map<string, Box>, id: string) returns (n: nat)
    requires Complete(g, l) && Drawn(g, l, boxes) && id in g.byId
    ensures id in boxes && Shows(g, l, n, boxes[id]) && l.order[n].id == id
  {
    assert id in Visited(l.order, |l.order|);
    n :| 0 <= n < |l.order| && l.order[n].id == id;
    assert DrawnAs(g, l, boxes, l.order[n]);
  }

  lemma AllRootsPlaced(nodes: seq<GraphNode>, edges: seq<GraphEdge>, l: Layout)
    requires var g := GraphOf(nodes, edges); Sound(g, l) && RootsPlaced(g, l, |g.roots|)
    ensures Complete(GraphOf(nodes, edges), l)
  {
    var g := GraphOf(nodes, edges);
    forall id | id in g.byId ensures id in Visited(l.order, |l.order|) {
      var i := KnownIdsAreNodes(nodes, id);
      var k := |g.roots| - |nodes| + i;
      assert g.roots[k] == id;
    }
  }

  /** The first entrypoint is visited first and stands in column 0. */
  lemma EntrypointFirst(nodes: seq<GraphNode>, edges: seq<GraphEdge>, l: Layout, s: nat)
    requires Complete(GraphOf(nodes, edges), l) && TreesStart(nodes, edges, l.order)
    requires s < |nodes| && nodes[s].kind.SIPInputNode? && forall i :: 0 <= i < s ==> !nodes[i].kind.SIPInputNode?
    ensures |l.order| > 0 && l.order[0].id == nodes[s].id && l.order[0].parent == None && l.order[0].depth == 0
  {
    var g := GraphOf(nodes, edges);
    ByIdIsLast(nodes, s);
    var m := VisitOf(l.order, nodes[s].id);
    FirstStartsATree(nodes, edges, l.order, s, m);
    FirstIsTree(g, l.order);
    if m > 0 {
      assert ClaimsFirst(nodes, l.order[0].id, l.order[m].id);
      NothingSooner(nodes, l.order[0].id, s);
    }
  }

  lemma VisitOf(order: seq<Visit>, id: string) returns (m: nat)
    requires id in Visited(order, |order|)
    ensures m < |order| && order[m].id == id
  {
    m :| 0 <= m < |order| && order[m].id == id;
  }

  lemma FirstStartsATree(nodes: seq<GraphNode>, edges: seq<GraphEdge>, order: seq<Visit>, s: nat, m: nat)
    requires TreesStart(nodes, edges, order) && s < |nodes| && m < |order| && order[m].id == nodes[s].id
    requires nodes[s].kind.SIPInputNode? && forall i :: 0 <= i < s ==> !nodes[i].kind.SIPInputNode?
    ensures order[m].parent == None
  {
    assert StartsIff(nodes, edges, order, m);
    assert Unled(nodes, edges, s);
  }

  lemma FirstIsTree(g: Graph, order: seq<Visit>)
    requires VisitsSound(g, order) && order != []
    ensures order[0].parent == None && order[0].depth == 0
  {
    assert VisitSound(g, order, 0);
  }

  lemma NothingSooner(nodes: seq<GraphNode>, a: string, s: nat)
    requires s < |nodes| && nodes[s].kind.SIPInputNode? && forall i :: 0 <= i < s ==> !nodes[i].kind.SIPInputNode?
    ensures !ClaimsFirst(nodes, a, nodes[s].id)
  {
    assert forall j :: 0 <= j < |nodes| ==> !Sooner(nodes, j, s);
  }

  /** What an entrypoint leads to never starts a tree, unless it is an entrypoint itself: it
      stands to the right of the first column. */
  lemma LedFromEntrypoint(nodes: seq<GraphNode>, edges: seq<GraphEdge>, l: Layout, n: nat, s: nat, box: Box)
    requires Complete(GraphOf(nodes, edges), l) && TreesStart(nodes, edges, l.order)
    requires n < |l.order| && s < |nodes| && nodes[s].kind.SIPInputNode? && Leads(nodes, edges, nodes[s].id, l.order[n].id)
    requires forall j :: 0 <= j < |nodes| && nodes[j].id == l.order[n].id ==> !nodes[j].kind.SIPInputNode?
    requires Shows(GraphOf(nodes, edges), l, n, box)
    ensures l.order[n].parent.Some? && l.order[n].depth > 0 && box.x >= 320.0
  {
    assert StartsIff(nodes, edges, l.order, n);
    assert VisitSound(GraphOf(nodes, edges), l.order, n);
    forall j | 0 <= j < |nodes| && nodes[j].id == l.order[n].id ensures !Unled(nodes, edges, j) {
      assert Sooner(nodes, s, j);
    }
    assert l.order[n].depth as real >= 1.0;
  }

  /** Of two trees the one whose node has the earlier claim is on top: entrypoints, then the
      functions and queues nothing else reaches, then the rest, each in the order given. */
  lemma TreesTopToBottom(nodes: seq<GraphNode>, edges: seq<GraphEdge>, l: Layout, n: nat, m: nat)
    requires Complete(GraphOf(nodes, edges), l) && TreesStart(nodes, edges, l.order)
    requires n < |l.order| && m < |l.order| && l.order[n].parent == None && l.order[m].parent == None && n != m
    ensures n < m <==> ClaimsFirst(nodes, l.order[n].id, l.order[m].id)
    ensures n < m <==> l.centre[l.order[n].id] + 88.0 <= l.centre[l.order[m].id]
  {
    var lo, hi := if n < m then n else m, if n < m then m else n;
    assert RoomBetween(l, lo, hi);
    assert VisitSound(GraphOf(nodes, edges), l.order, n) && VisitSound(GraphOf(nodes, edges), l.order, m);
    assert ClaimsFirst(nodes, l.order[lo].id, l.order[hi].id);
    FirstClaimAlone(nodes, l.order[lo].id, l.order[hi].id);
  }

  lemma FirstClaimAlone(nodes: seq<GraphNode>, a: string, b: string)
    requires ClaimsFirst(nodes, a, b)
    ensures !ClaimsFirst(nodes, b, a)
  {
    var j :| 0 <= j < |nodes| && nodes[j].id == a && forall k :: 0 <= k < |nodes| && nodes[k].id == b ==> Sooner(nodes, j, k);
    assert forall k :: 0 <= k < |nodes| && nodes[k].id == b ==> !Sooner(nodes, k, j);
  }

  /** No two nodes overlap, whatever the graph: columns are wider than any node, and centres
      in a column are at least as far apart as the tallest nodes need. */
  lemma BoxesApart(g: Graph, l: Layout, i: nat, j: nat, a: Box, b: Box)
    requires Complete(g, l) && Shows(g, l, i, a) && Shows(g, l, j, b) && i != j
    ensures Apart(a, b)
  {
    assert RoomBetween(l, if i < j then i else j, if i < j then j else i);
  }

  /** The size of a node's box, its column, and the middle of its side. */
  lemma BoxMeaning(g: Graph, l: Layout, n: nat, box: Box)
    requires Complete(g, l) && Shows(g, l, n, box)
    ensures box.x == l.order[n].depth as real * 320.0 && box.y + box.height / 2.0 == l.centre[l.order[n].id]
    ensures match g.byId[l.order[n].id].kind
            case FnNode => box.width == 220.0 && box.height == 60.0
            case ActionNode(_) => box.width == 240.0 && box.height == 88.0
            case QueueNode => box.width == 220.0 && box.height == 80.0
            case SIPInputNode => box.width == 220.0 && box.height == 64.0
  {
  }

  /** The n-th visit found all its children visited. */
  predicate IsLeaf(l: Layout, n: nat) { n < |l.order| && l.order[n].kids == [] }

  ghost predicate NoLeaves(l: Layout, i: nat, j: nat) { forall k: nat :: i <= k < j ==> !IsLeaf(l, k) }

  lemma {:induction false} NoLeafBetween(g: Graph, l: Layout, i: nat, j: nat)
    requires i <= j <= |l.order| && Known(g, l.order) && NoLeaves(l, i, j)
    ensures Stacked(g, l.order, j) == Stacked(g, l.order, i)
    decreases j
  {
    if i < j {
      assert !IsLeaf(l, j - 1);
      NoLeafBetween(g, l, i, j - 1);
    }
  }

  lemma LeafTop(g: Graph, l: Layout, i: nat, a: Box)
    requires Complete(g, l) && IsLeaf(l, i) && Shows(g, l, i, a)
    ensures a.y == Stacked(g, l.order, i) && a.y + a.height + 28.0 == Stacked(g, l.order, i + 1)
  {
    assert Centred(g, l, i);
  }

  /** Each leaf starts 28 below the end of the last one, the first at the top. */
  lemma LeavesStacked(g: Graph, l: Layout, i: nat, a: Box, j: nat, b: Box)
    requires Complete(g, l) && i < j && IsLeaf(l, i) && Shows(g, l, i, a) && IsLeaf(l, j) && Shows(g, l, j, b)
    ensures NoLeaves(l, 0, i) ==> a.y == 0.0
    ensures NoLeaves(l, i + 1, j) ==> b.y == a.y + a.height + 28.0
  {
    LeafTop(g, l, i, a);
    LeafTop(g, l, j, b);
    if NoLeaves(l, 0, i) { NoLeafBetween(g, l, 0, i); }
    if NoLeaves(l, i + 1, j) { NoLeafBetween(g, l, i + 1, j); }
  }

  /** Nodes with the same parent, and likewise the roots, stand from top to bottom in the
      order of the parent's children (of rootOrder). */
  lemma SiblingsTopToBottom(g: Graph, l: Layout, i: nat, j: nat)
    requires Complete(g, l) && i < |l.order| && j < |l.order| && i != j && l.order[i].parent == l.order[j].parent
    ensures var a, b := l.order[i].id, l.order[j].id;
            (l.centre[a] + 88.0 <= l.centre[b] <==> Before(ChildList(g, l.order, l.order[i].parent), a, b))
            && (l.centre[a] < l.centre[b] || l.centre[b] < l.centre[a])
  {
    var lo, hi := if i < j then i else j, if i < j then j else i;
    assert VisitSound(g, l.order, lo) && VisitSound(g, l.order, hi);
    assert RoomBetween(l, lo, hi);
    VisitedOnce(g, l.order, i, j);
    BeforeAsymmetric(ChildList(g, l.order, l.order[i].parent), l.order[lo].id, l.order[hi].id);
  }

  lemma {:induction false} BeforeAsymmetric(xs: seq<string>, a: string, b: string)
    requires Before(xs, a, b) && a != b
    ensures !Before(xs, b, a)
  {
    if xs[0] != a { BeforeAsymmetric(xs[1..], a, b); }
  }

  /** The keys of a phone from top left to bottom right; 10 stands for * and 11 for #. */
  const KEYPAD := [1, 2, 3, 4, 5, 6, 7, 8, 9, 0, 11, 10]

  /** Actions come before everything else; of two actions the one with the earlier key does,
      and one with a key is before one with none. */
  ghost predicate PressedBefore(a: NodeKind, b: NodeKind) {
    a.ActionNode? && (b.ActionNode? ==> exists x :: 0 <= x < 12 && a.num == KEYPAD[x] && forall y :: 0 <= y <= x ==> b.num != KEYPAD[y])
  }

  /** The first edge from p to a comes before any from p to b. */
  ghost predicate LinkedBefore(edges: seq<GraphEdge>, p: string, a: string, b: string) {
    exists e :: 0 <= e < |edges| && edges[e] == GraphEdge(p, a) && forall f :: 0 <= f < e ==> edges[f] != GraphEdge(p, b)
  }

  lemma RankIsKeypadOrder(a: NodeKind, b: NodeKind)
    ensures PressedBefore(a, b) <==> Rank(a) < Rank(b)
  {
    if a.ActionNode? && b.ActionNode? {
      assert KEYPAD[0] == 1 && KEYPAD[1] == 2 && KEYPAD[2] == 3 && KEYPAD[3] == 4 && KEYPAD[4] == 5 && KEYPAD[5] == 6;
      assert KEYPAD[6] == 7 && KEYPAD[7] == 8 && KEYPAD[8] == 9 && KEYPAD[9] == 0 && KEYPAD[10] == 11 && KEYPAD[11] == 10;
    }
  }

  /** The children with one parent read top to bottom by key, and by edge where keys do not
      decide: exactly then a stands above b. */
  lemma MenuReadsByKey(nodes: seq<GraphNode>, edges: seq<GraphEdge>, l: Layout, i: nat, j: nat)
    requires Complete(GraphOf(nodes, edges), l) && i < |l.order| && j < |l.order| && i != j
    requires l.order[i].parent == l.order[j].parent && l.order[i].parent.Some?
    ensures var a, b := l.order[i].id, l.order[j].id;
            && l.order[i].parent.value < |l.order| && a in ById(nodes) && b in ById(nodes)
            && (l.centre[a] + 88.0 <= l.centre[b] <==>
                  var ka, kb := ById(nodes)[a].kind, ById(nodes)[b].kind;
                  PressedBefore(ka, kb) || (!PressedBefore(kb, ka) && LinkedBefore(edges, l.order[l.order[i].parent.value].id, a, b)))
  {
    var g := GraphOf(nodes, edges);
    assert VisitSound(g, l.order, i) && VisitSound(g, l.order, j);
    VisitedOnce(g, l.order, i, j);
    ChildrenRead(g, l.order[l.order[i].parent.value].id, l.order[i].id, l.order[j].id);
    SiblingsTopToBottom(g, l, i, j);
  }

  lemma ChildrenRead(g: Graph, p: string, a: string, b: string)
    requires a in ChildrenOf(g, p) && b in ChildrenOf(g, p) && a != b
    ensures a in g.byId && b in g.byId
    ensures var ka, kb := g.byId[a].kind, g.byId[b].kind;
            Before(ChildrenOf(g, p), a, b) <==> PressedBefore(ka, kb) || (!PressedBefore(kb, ka) && LinkedBefore(g.edges, p, a, b))
  {
    ChildFacts(g, p, a);
    ChildFacts(g, p, b);
    RankIsKeypadOrder(g.byId[a].kind, g.byId[b].kind);
    RankIsKeypadOrder(g.byId[b].kind, g.byId[a].kind);
    if Rank(g.byId[a].kind) < Rank(g.byId[b].kind) {
      KeypadOrder(g, p, a, b);
    } else if Rank(g.byId[b].kind) < Rank(g.byId[a].kind) {
      KeypadOrder(g, p, b, a);
      BeforeAsymmetric(ChildrenOf(g, p), b, a);
    } else {
      EdgeOrder(g, p, a, b);
    }
  }

  /** With equal ranks the earlier edge decides. */
  lemma EdgeOrder(g: Graph, p: string, a: string, b: string)
    requires a in ChildrenOf(g, p) && b in ChildrenOf(g, p) && a != b
    requires a in g.byId && b in g.byId && Rank(g.byId[a].kind) == Rank(g.byId[b].kind)
    ensures Before(ChildrenOf(g, p), a, b) <==> LinkedBefore(g.edges, p, a, b)
  {
    ChildFacts(g, p, a);
    ChildFacts(g, p, b);
    OutEdgesAreEdges(g, |g.edges|, p);
    OneLinkedFirst(g.edges, p, a, b);
    if LinkedBefore(g.edges, p, a, b) {
      EdgeFirst(g, p, a, b);
    } else {
      EdgeFirst(g, p, b, a);
      BeforeAsymmetric(ChildrenOf(g, p), b, a);
    }
  }

  lemma {:induction false} OneLinkedFirst(edges: seq<GraphEdge>, p: string, a: string, b: string)
    requires GraphEdge(p, a) in edges && a != b
    ensures LinkedBefore(edges, p, a, b) || LinkedBefore(edges, p, b, a)
  {
    var n := |edges| - 1;
    var front := edges[..n];
    assert edges == front + [edges[n]];
    if GraphEdge(p, a) in front {
      OneLinkedFirst(front, p, a, b);
      if LinkedBefore(front, p, a, b) {
        var e :| 0 <= e < n && front[e] == GraphEdge(p, a) && forall f :: 0 <= f < e ==> front[f] != GraphEdge(p, b);
        assert edges[e] == GraphEdge(p, a) && forall f :: 0 <= f < e ==> edges[f] == front[f];
      } else {
        var e :| 0 <= e < n && front[e] == GraphEdge(p, b) && forall f :: 0 <= f < e ==> front[f] != GraphEdge(p, a);
        assert edges[e] == GraphEdge(p, b) && forall f :: 0 <= f < e ==> edges[f] == front[f];
      }
    } else if GraphEdge(p, b) in front {
      var e :| 0 <= e < n && front[e] == GraphEdge(p, b);
      assert edges[e] == GraphEdge(p, b) && forall f :: 0 <= f < e ==> edges[f] == front[f];
    } else {
      assert forall f :: 0 <= f < n ==> edges[f] == front[f];
      assert edges[n] == GraphEdge(p, a);
    }
  }

  lemma EdgeFirst(g: Graph, p: string, a: string, b: string)
    requires LinkedBefore(g.edges, p, a, b) && p in g.byId && a in g.byId && b in g.byId && a != b
    requires Rank(g.byId[a].kind) == Rank(g.byId[b].kind)
    ensures Before(ChildrenOf(g, p), a, b)
  {
    var e :| 0 <= e < |g.edges| && g.edges[e] == GraphEdge(p, a) && forall f :: 0 <= f < e ==> g.edges[f] != GraphEdge(p, b);
    var out := OutEdges(g, |g.edges|, p);
    var k := PlaceInOut(g, |g.edges|, e, b);
    var cs := Children(g, out);
    SortedInOrder(cs);
    assert cs[k] in cs && cs[k] in Sorted(cs);
    var m :| 0 <= m < |Sorted(cs)| && Sorted(cs)[m] == cs[k];
    NoneEarlier(g, p, k, m, b);
    BeforeAt(ChildrenOf(g, p), m, b);
  }

  lemma NoneEarlier(g: Graph, p: string, k: nat, m: nat, b: string)
    requires var out := OutEdges(g, |g.edges|, p);
             var cs := Children(g, out);
             && k < |out| && out[k].target != b && (forall f :: 0 <= f < k ==> out[f].target != b)
             && m < |Sorted(cs)| && Sorted(cs)[m] == cs[k] && b in g.byId && cs[k].rank == Rank(g.byId[b].kind)
    ensures m < |ChildrenOf(g, p)| && b !in ChildrenOf(g, p)[..m + 1]
  {
    var cs := Children(g, OutEdges(g, |g.edges|, p));
    var sorted := Sorted(cs);
    SortedInOrder(cs);
    forall q | 0 <= q <= m ensures sorted[q].id != b {
      assert sorted[q] in sorted && sorted[q] in cs;
      if q < m { assert Precedes(sorted[q], sorted[m]); }
    }
  }

  /** The e-th edge among those that leave its source; edges before it come before it. */
  lemma {:induction false} PlaceInOut(g: Graph, n: nat, e: nat, b: string) returns (k: nat)
    requires e < n <= |g.edges| && g.edges[e].source in g.byId && g.edges[e].target in g.byId
    requires forall f :: 0 <= f < e ==> g.edges[f] != GraphEdge(g.edges[e].source, b)
    ensures var out := OutEdges(g, n, g.edges[e].source);
            k < |out| && out[k] == g.edges[e] && forall h :: 0 <= h < k ==> out[h].target != b
  {
    var p := g.edges[e].source;
    if e == n - 1 {
      k := |OutEdges(g, e, p)|;
      forall h | 0 <= h < k ensures OutEdges(g, e, p)[h].target != b {
        OutEdgeFrom(g, e, p, h);
      }
    } else {
      k := PlaceInOut(g, n - 1, e, b);
    }
  }

  lemma {:induction false} OutEdgeFrom(g: Graph, n: nat, p: string, h: nat)
    requires n <= |g.edges| && h < |OutEdges(g, n, p)|
    ensures OutEdges(g, n, p)[h] in g.edges[..n] && OutEdges(g, n, p)[h].source == p
  {
    assert g.edges[..n] == g.edges[..n - 1] + [g.edges[n - 1]];
    if h < |OutEdges(g, n - 1, p)| { OutEdgeFrom(g, n - 1, p, h); }
  }
}
