// ui/src/lib/template-render.ts buildBlocks: the flat list of texts and actions of a template
// grouped into nested if and range blocks. The bodies of actions are lists of tokens.
module Templates {
  import opened Pipelines

  datatype BlockKind = If | Range
  datatype Flat = TextPart(text: string) | ActionPart(body: seq<Tok>) | Open(kind: BlockKind, body: seq<Tok>) | Else | End
  datatype Node =
    | Text(text: string)
    | Action(pipe: Pipeline)
    | Block(kind: BlockKind, pipe: Pipeline, body: seq<Node>, elseBody: seq<Node>)

  /** Which terminators may end the scope; Top is ended by the end of the list only. */
  datatype Stop = Top | AtEnd | AtElseOrEnd

  datatype BuildError = UnexpectedEnd | UnexpectedElse | Unterminated | BadPipeline(error: ParseError)
  datatype Outcome<+T> = Built(value: T) | Failed(error: BuildError)

  /** The nodes of a scope, the list after its terminator, and whether that was an else. */
  datatype Scope = Scope(nodes: seq<Node>, rest: seq<Flat>, byElse: bool)

  function Pipe(body: seq<Tok>): Outcome<Pipeline> {
    var p := ParsePipeline(body);
    if p.Err? then Failed(BadPipeline(p.error)) else Built(p.value)
  }

  function Prepend(nodes: seq<Node>, r: Outcome<Scope>): Outcome<Scope> {
    if r.Failed? then r else Built(r.value.(nodes := nodes + r.value.nodes))
  }

  /** buildBlocks. */
  function Build(flat: seq<Flat>, stop: Stop): (r: Outcome<Scope>)
    ensures r.Built? ==> |r.value.rest| <= |flat| && (!stop.Top? ==> |r.value.rest| < |flat|)
    decreases |flat|, 0
  {
    if flat == [] then if stop.Top? then Built(Scope([], [], false)) else Failed(Unterminated)
    else
      match flat[0]
      case End => if stop.Top? then Failed(UnexpectedEnd) else Built(Scope([], flat[1..], false))
      case Else => if !stop.AtElseOrEnd? then Failed(UnexpectedElse) else Built(Scope([], flat[1..], true))
      case TextPart(t) => Prepend([Text(t)], Build(flat[1..], stop))
      case ActionPart(body) =>
        var p := Pipe(body);
        if p.Failed? then Failed(p.error) else Prepend([Action(p.value)], Build(flat[1..], stop))
      case Open(kind, body) =>
        var p := Pipe(body);
        if p.Failed? then Failed(p.error)
        else
          var bodies := BuildBodies(flat[1..]);
          if bodies.Failed? then Failed(bodies.error)
          else
            Prepend([Block(kind, p.value, bodies.value.body, bodies.value.elseBody)], Build(bodies.value.rest, stop))
  }

  datatype Bodies = Bodies(body: seq<Node>, elseBody: seq<Node>, rest: seq<Flat>)

  /** The two bodies of a block, up to its end. */
  function BuildBodies(flat: seq<Flat>): (r: Outcome<Bodies>)
    ensures r.Built? ==> |r.value.rest| < |flat|
    decreases |flat|, 1
  {
    var first := Build(flat, AtElseOrEnd);
    if first.Failed? then Failed(first.error)
    else if !first.value.byElse then Built(Bodies(first.value.nodes, [], first.value.rest))
    else
      var second := Build(first.value.rest, AtEnd);
      if second.Failed? then Failed(second.error)
      else Built(Bodies(first.value.nodes, second.value.nodes, second.value.rest))
  }

  /** parseTemplate, from the flat list on. */
  function ParseTemplate(flat: seq<Flat>): Outcome<seq<Node>> {
    var r := Build(flat, Top);
    if r.Failed? then Failed(r.error) else Built(r.value.nodes)
  }

  // ------------------------------------------------------- flattening

  function FlattenBodies(body: seq<Node>, elseBody: seq<Node>): seq<Flat> {
    Flatten(body) + (if elseBody == [] then [End] else [Else] + (Flatten(elseBody) + [End]))
  }

  function FlattenNode(node: Node): seq<Flat> {
    match node
    case Text(t) => [TextPart(t)]
    case Action(p) => [ActionPart(Print(p))]
    case Block(kind, p, body, elseBody) =>
      [Open(kind, Print(p))] + (Flatten(body) + (if elseBody == [] then [End] else [Else] + (Flatten(elseBody) + [End])))
  }

  function Flatten(nodes: seq<Node>): seq<Flat> {
    if nodes == [] then [] else FlattenNode(nodes[0]) + Flatten(nodes[1..])
  }

  predicate SoundNode(node: Node) {
    match node
    case Text(_) => true
    case Action(p) => WellFormed(p)
    case Block(_, p, body, elseBody) => WellFormed(p) && SoundNodes(body) && SoundNodes(elseBody)
  }

  predicate SoundNodes(nodes: seq<Node>) { forall i :: 0 <= i < |nodes| ==> SoundNode(nodes[i]) }

  // ------------------------------------- what was flattened is read back

  lemma PrependTwice(a: seq<Node>, b: seq<Node>, r: Outcome<Scope>)
    ensures Prepend(a, Prepend(b, r)) == Prepend(a + b, r) && Prepend([], r) == r
  {
    assert r.Built? ==> a + (b + r.value.nodes) == a + b + r.value.nodes && [] + r.value.nodes == r.value.nodes;
  }

  lemma PipeOfPrint(p: Pipeline)
    requires WellFormed(p)
    ensures Pipe(Print(p)) == Built(p)
  {
    ParseIffPrints(Print(p), p);
  }

  lemma BuildText(t: string, rest: seq<Flat>, stop: Stop)
    ensures Build([TextPart(t)] + rest, stop) == Prepend([Text(t)], Build(rest, stop))
  {
    assert ([TextPart(t)] + rest)[1..] == rest;
  }

  lemma BuildAction(body: seq<Tok>, p: Pipeline, rest: seq<Flat>, stop: Stop)
    requires Pipe(body) == Built(p)
    ensures Build([ActionPart(body)] + rest, stop) == Prepend([Action(p)], Build(rest, stop))
  {
    assert ([ActionPart(body)] + rest)[1..] == rest;
  }

  lemma BuildOpen(kind: BlockKind, body: seq<Tok>, p: Pipeline, flat: seq<Flat>, bodies: Bodies, stop: Stop)
    requires Pipe(body) == Built(p) && BuildBodies(flat) == Built(bodies)
    ensures Build([Open(kind, body)] + flat, stop) == Prepend([Block(kind, p, bodies.body, bodies.elseBody)], Build(bodies.rest, stop))
  {
    assert ([Open(kind, body)] + flat)[1..] == flat;
  }

  lemma BuildTerminator(rest: seq<Flat>, stop: Stop)
    requires !stop.Top?
    ensures Build([End] + rest, stop) == Built(Scope([], rest, false))
    ensures stop.AtElseOrEnd? ==> Build([Else] + rest, stop) == Built(Scope([], rest, true))
  {
    assert ([End] + rest)[1..] == rest && ([Else] + rest)[1..] == rest;
  }

  /** The rest is read exactly as it would be on its own. */
  lemma {:induction false} BuildNode(node: Node, rest: seq<Flat>, stop: Stop)
    requires SoundNode(node)
    ensures Build(FlattenNode(node) + rest, stop) == Prepend([node], Build(rest, stop))
    decreases node, 1
  {
    match node {
      case Text(t) => BuildText(t, rest, stop);
      case Action(p) =>
        PipeOfPrint(p);
        BuildAction(Print(p), p, rest, stop);
      case Block(kind, p, body, elseBody) =>
        PipeOfPrint(p);
        BuildBlock(node, rest);
        BuildOpen(kind, Print(p), p, FlattenBodies(body, elseBody) + rest, Bodies(body, elseBody, rest), stop);
        assert FlattenNode(node) + rest == [Open(kind, Print(p))] + (FlattenBodies(body, elseBody) + rest);
    }
  }

  lemma {:induction false} BuildBlock(node: Node, rest: seq<Flat>)
    requires node.Block? && SoundNode(node)
    ensures BuildBodies(FlattenBodies(node.body, node.elseBody) + rest) == Built(Bodies(node.body, node.elseBody, rest))
    decreases node, 0
  {
    var first, second := Flatten(node.body), Flatten(node.elseBody);
    if node.elseBody == [] {
      BuildNodes(node.body, [End] + rest, AtElseOrEnd);
      BuildTerminator(rest, AtElseOrEnd);
      assert first + [End] + rest == first + ([End] + rest);
      assert node.body + [] == node.body;
    } else {
      var tail := second + ([End] + rest);
      BuildNodes(node.body, [Else] + tail, AtElseOrEnd);
      BuildTerminator(tail, AtElseOrEnd);
      BuildNodes(node.elseBody, [End] + rest, AtEnd);
      BuildTerminator(rest, AtEnd);
      RegroupElse(first, second, rest);
      assert node.body + [] == node.body && node.elseBody + [] == node.elseBody;
    }
  }

  lemma RegroupElse(first: seq<Flat>, second: seq<Flat>, rest: seq<Flat>)
    ensures first + ([Else] + (second + [End])) + rest == first + ([Else] + (second + ([End] + rest)))
  {
  }

  lemma {:induction false} BuildNodes(nodes: seq<Node>, rest: seq<Flat>, stop: Stop)
    requires SoundNodes(nodes)
    ensures Build(Flatten(nodes) + rest, stop) == Prepend(nodes, Build(rest, stop))
    decreases nodes
  {
    if nodes == [] {
      assert Flatten(nodes) + rest == rest;
      PrependTwice([], [], Build(rest, stop));
    } else {
      var others := Flatten(nodes[1..]);
      BuildNodes(nodes[1..], rest, stop);
      BuildNode(nodes[0], others + rest, stop);
      assert Flatten(nodes) + rest == FlattenNode(nodes[0]) + (others + rest);
      PrependTwice([nodes[0]], nodes[1..], Build(rest, stop));
      assert [nodes[0]] + nodes[1..] == nodes;
    }
  }

  /** Every tree is read back from its flat list. */
  lemma ParseFlattened(nodes: seq<Node>)
    requires SoundNodes(nodes)
    ensures ParseTemplate(Flatten(nodes)) == Built(nodes)
  {
    BuildNodes(nodes, [], Top);
    assert Flatten(nodes) + [] == Flatten(nodes) && nodes + [] == nodes;
  }

  // -------------------------------- what is read flattens to what was read

  /** An else right before its end says nothing. */
  function Normal(flat: seq<Flat>): seq<Flat> {
    if flat == [] then []
    else if |flat| > 1 && flat[0].Else? && flat[1].End? then Normal(flat[1..])
    else [flat[0]] + Normal(flat[1..])
  }

  /** What a scope stands for in the list it was read from. */
  function Rebuilt(s: Scope, stop: Stop): seq<Flat> {
    Flatten(s.nodes) + if stop.Top? then [] else if s.byElse then Normal([Else] + s.rest) else [End] + Normal(s.rest)
  }

  ghost predicate Faithful(flat: seq<Flat>, stop: Stop, s: Scope) {
    SoundNodes(s.nodes) && Normal(flat) == Rebuilt(s, stop) && (s.byElse ==> stop.AtElseOrEnd?)
  }

  lemma FaithfulNext(item: Flat, node: Node, flat: seq<Flat>, stop: Stop, s: Scope)
    requires Faithful(flat, stop, s) && !item.Else? && SoundNode(node) && FlattenNode(node) == [item]
    ensures Faithful([item] + flat, stop, s.(nodes := [node] + s.nodes))
  {
    var tail := if stop.Top? then [] else if s.byElse then Normal([Else] + s.rest) else [End] + Normal(s.rest);
    assert ([item] + flat)[1..] == flat;
    ConsNode(node, s.nodes);
    assert [item] + (Flatten(s.nodes) + tail) == ([item] + Flatten(s.nodes)) + tail;
  }

  lemma FaithfulBlock(kind: BlockKind, p: Pipeline, flat: seq<Flat>, b: Bodies, stop: Stop, s: Scope)
    requires WellFormed(p) && SoundNodes(b.body) && SoundNodes(b.elseBody)
    requires Normal(flat) == FlattenBodies(b.body, b.elseBody) + Normal(b.rest) && Faithful(b.rest, stop, s)
    ensures Faithful([Open(kind, Print(p))] + flat, stop, s.(nodes := [Block(kind, p, b.body, b.elseBody)] + s.nodes))
  {
    var node, item := Block(kind, p, b.body, b.elseBody), Open(kind, Print(p));
    var tail := if stop.Top? then [] else if s.byElse then Normal([Else] + s.rest) else [End] + Normal(s.rest);
    assert ([item] + flat)[1..] == flat;
    ConsNode(node, s.nodes);
    assert FlattenNode(node) == [item] + FlattenBodies(b.body, b.elseBody);
    Regroup([item], FlattenBodies(b.body, b.elseBody), Flatten(s.nodes), tail);
  }

  lemma ConsNode(node: Node, nodes: seq<Node>)
    ensures Flatten([node] + nodes) == FlattenNode(node) + Flatten(nodes)
    ensures SoundNodes([node] + nodes) <==> SoundNode(node) && SoundNodes(nodes)
  {
    var all := [node] + nodes;
    assert all[1..] == nodes;
    if SoundNodes(all) {
      assert SoundNode(all[0]);
      forall i | 0 <= i < |nodes| ensures SoundNode(nodes[i]) { assert SoundNode(all[i + 1]); }
    }
  }

  lemma Regroup(a: seq<Flat>, b: seq<Flat>, c: seq<Flat>, d: seq<Flat>)
    ensures a + (b + (c + d)) == a + b + c + d
  {
  }

  lemma FaithfulEnd(flat: seq<Flat>, stop: Stop)
    requires flat == [] ==> stop.Top?
    requires flat != [] ==> !stop.Top? && (flat[0].End? || (flat[0].Else? && stop.AtElseOrEnd?))
    ensures flat == [] ==> Faithful(flat, stop, Scope([], [], false))
    ensures flat != [] ==> Faithful(flat, stop, Scope([], flat[1..], flat[0].Else?))
  {
    if flat != [] {
      assert [flat[0]] + flat[1..] == flat;
      var s := Scope([], flat[1..], flat[0].Else?);
      assert Flatten([]) + Normal(flat) == Normal(flat);
      assert Flatten([]) + ([End] + Normal(flat[1..])) == [End] + Normal(flat[1..]);
    }
  }

  lemma PipeFacts(body: seq<Tok>)
    requires Pipe(body).Built?
    ensures WellFormed(Pipe(body).value) && Print(Pipe(body).value) == body
  {
    PrintParsed(body);
  }

  lemma {:induction false} BuiltIsFaithful(flat: seq<Flat>, stop: Stop)
    requires Build(flat, stop).Built?
    ensures Faithful(flat, stop, Build(flat, stop).value)
    decreases |flat|, 0
  {
    if flat == [] || flat[0].End? || flat[0].Else? {
      FaithfulEnd(flat, stop);
    } else {
      var item, rest := flat[0], flat[1..];
      assert flat == [item] + rest;
      if item.TextPart? {
        BuiltIsFaithful(rest, stop);
        FaithfulNext(item, Text(item.text), rest, stop, Build(rest, stop).value);
      } else if item.ActionPart? {
        PipeFacts(item.body);
        BuiltIsFaithful(rest, stop);
        FaithfulNext(item, Action(Pipe(item.body).value), rest, stop, Build(rest, stop).value);
      } else {
        PipeFacts(item.body);
        BodiesAreFaithful(rest);
        var b := BuildBodies(rest).value;
        BuiltIsFaithful(b.rest, stop);
        FaithfulBlock(item.kind, Pipe(item.body).value, rest, b, stop, Build(b.rest, stop).value);
      }
    }
  }

  lemma {:induction false} BodiesAreFaithful(flat: seq<Flat>)
    requires BuildBodies(flat).Built?
    ensures var b := BuildBodies(flat).value;
            SoundNodes(b.body) && SoundNodes(b.elseBody) && Normal(flat) == FlattenBodies(b.body, b.elseBody) + Normal(b.rest)
    decreases |flat|, 1
  {
    var first := Build(flat, AtElseOrEnd).value;
    BuiltIsFaithful(flat, AtElseOrEnd);
    if first.byElse {
      BuiltIsFaithful(first.rest, AtEnd);
      JoinBodies(flat, first, Build(first.rest, AtEnd).value);
    } else {
      assert Flatten(first.nodes) + ([End] + Normal(first.rest)) == Flatten(first.nodes) + [End] + Normal(first.rest);
    }
  }

  lemma JoinBodies(flat: seq<Flat>, first: Scope, second: Scope)
    requires Faithful(flat, AtElseOrEnd, first) && first.byElse && Faithful(first.rest, AtEnd, second)
    requires Build(first.rest, AtEnd) == Built(second)
    ensures Normal(flat) == FlattenBodies(first.nodes, second.nodes) + Normal(second.rest)
  {
    if second.nodes == [] {
      ElseSaysNothing(first.rest);
      WithoutElse(Flatten(first.nodes), Normal(second.rest));
    } else {
      ElseStays(first.rest);
      WithElse(Flatten(first.nodes), Flatten(second.nodes), Normal(second.rest));
    }
  }

  lemma WithoutElse(first: seq<Flat>, rest: seq<Flat>)
    ensures first + (Flatten([]) + ([End] + rest)) == first + [End] + rest
  {
    assert Flatten([]) + ([End] + rest) == [End] + rest;
  }

  lemma WithElse(first: seq<Flat>, second: seq<Flat>, rest: seq<Flat>)
    ensures first + ([Else] + (second + ([End] + rest))) == first + ([Else] + (second + [End])) + rest
  {
  }

  lemma ElseStays(rest: seq<Flat>)
    requires Build(rest, AtEnd).Built? && Build(rest, AtEnd).value.nodes != []
    ensures Normal([Else] + rest) == [Else] + Normal(rest)
  {
    assert ([Else] + rest)[1..] == rest;
    assert !rest[0].End?;
  }

  /** An empty else body is read only right before the end. */
  lemma ElseSaysNothing(rest: seq<Flat>)
    requires Build(rest, AtEnd).Built? && Build(rest, AtEnd).value.nodes == []
    ensures Normal([Else] + rest) == Normal(rest)
  {
    assert ([Else] + rest)[1..] == rest;
    assert rest[0].End?;
  }

  /** Every accepted template flattens back to itself, up to empty else branches. */
  lemma FlattenParsed(flat: seq<Flat>)
    requires ParseTemplate(flat).Built?
    ensures SoundNodes(ParseTemplate(flat).value) && Flatten(ParseTemplate(flat).value) == Normal(flat)
  {
    BuiltIsFaithful(flat, Top);
    var nodes := ParseTemplate(flat).value;
    assert Flatten(nodes) + [] == Flatten(nodes);
  }

  // ------------------------------------------------ what is accepted

  /** The list is properly nested under the open blocks of the stack, innermost last; an
      entry says whether its block may still have an else. All bodies must be pipelines. */
  predicate Nested(flat: seq<Flat>, stack: seq<bool>) {
    if flat == [] then stack == []
    else
      match flat[0]
      case TextPart(_) => Nested(flat[1..], stack)
      case ActionPart(body) => Pipe(body).Built? && Nested(flat[1..], stack)
      case Open(_, body) => Pipe(body).Built? && Nested(flat[1..], stack + [true])
      case Else => stack != [] && stack[|stack| - 1] && Nested(flat[1..], stack[..|stack| - 1] + [false])
      case End => stack != [] && Nested(flat[1..], stack[..|stack| - 1])
  }

  function StackFor(outer: seq<bool>, stop: Stop): seq<bool> {
    if stop.Top? then [] else outer + [stop.AtElseOrEnd?]
  }

  function StackAfter(outer: seq<bool>, s: Scope): seq<bool> { if s.byElse then outer + [false] else outer }

  /** Reading one scope is following the stack until its block is closed or turns to else. */
  ghost predicate FollowsStack(flat: seq<Flat>, outer: seq<bool>, stop: Stop, r: Outcome<Scope>) {
    Nested(flat, StackFor(outer, stop)) <==> r.Built? && (stop.Top? || Nested(r.value.rest, StackAfter(outer, r.value)))
  }

  lemma {:induction false} BuildFollowsStack(flat: seq<Flat>, outer: seq<bool>, stop: Stop)
    ensures FollowsStack(flat, outer, stop, Build(flat, stop))
    decreases |flat|, 0
  {
    if flat != [] {
      match flat[0] {
        case TextPart(_) => BuildFollowsStack(flat[1..], outer, stop);
        case ActionPart(_) => BuildFollowsStack(flat[1..], outer, stop);
        case Open(_, _) =>
          BodiesFollowStack(flat[1..], StackFor(outer, stop));
          var b := BuildBodies(flat[1..]);
          if b.Built? { BuildFollowsStack(b.value.rest, outer, stop); }
        case Else =>
          assert !stop.Top? ==> StackFor(outer, stop)[..|outer|] == outer;
        case End =>
          assert !stop.Top? ==> StackFor(outer, stop)[..|outer|] == outer;
      }
    }
  }

  lemma {:induction false} BodiesFollowStack(flat: seq<Flat>, stack: seq<bool>)
    ensures Nested(flat, stack + [true]) <==> BuildBodies(flat).Built? && Nested(BuildBodies(flat).value.rest, stack)
    decreases |flat|, 1
  {
    BuildFollowsStack(flat, stack, AtElseOrEnd);
    var first := Build(flat, AtElseOrEnd);
    if first.Built? && first.value.byElse {
      BuildFollowsStack(first.value.rest, stack, AtEnd);
      SecondEnds(first.value.rest);
    }
  }

  lemma SecondEnds(flat: seq<Flat>)
    ensures Build(flat, AtEnd).Built? ==> !Build(flat, AtEnd).value.byElse
  {
    if Build(flat, AtEnd).Built? { BuiltIsFaithful(flat, AtEnd); }
  }

  /** A template is accepted exactly when its blocks nest and its bodies are pipelines. */
  lemma AcceptedIffNested(flat: seq<Flat>)
    ensures ParseTemplate(flat).Built? <==> Nested(flat, [])
  {
    BuildFollowsStack(flat, [], Top);
  }

  // -------------------------------------------------------- the loop

  /** The nodes of a scope and the index after its terminator, as the source returns them. */
  datatype Taken = Taken(nodes: seq<Node>, next: nat)

  ghost predicate Agrees(flat: seq<Flat>, start: nat, stop: Stop, r: Outcome<Taken>)
    requires start <= |flat|
  {
    match r
    case Failed(e) => Build(flat[start..], stop) == Failed(e)
    case Built(t) =>
      && start <= t.next <= |flat| && (!stop.Top? ==> start < t.next)
      && Build(flat[start..], stop) == Built(Scope(t.nodes, flat[t.next..], !stop.Top? && flat[t.next - 1].Else?))
  }

  method BuildBlocks(flat: seq<Flat>, start: nat, stop: Stop) returns (r: Outcome<Taken>)
    requires start <= |flat|
    ensures Agrees(flat, start, stop, r)
    decreases |flat| - start, 0
  {
    var out, i := [], start;
    PrependTwice([], [], Build(flat[start..], stop));
    while i < |flat|
      invariant start <= i <= |flat| && Prepend(out, Build(flat[i..], stop)) == Build(flat[start..], stop)
    {
      assert flat[i..] == [flat[i]] + flat[i + 1..] && out + [] == out;
      if flat[i].End? {
        return if stop.Top? then Failed(UnexpectedEnd) else Built(Taken(out, i + 1));
      }
      if flat[i].Else? {
        return if !stop.AtElseOrEnd? then Failed(UnexpectedElse) else Built(Taken(out, i + 1));
      }
      var node, next := BuildOne(flat, i, stop);
      if node.Failed? {
        return Failed(node.error);
      }
      PrependTwice(out, [node.value], Build(flat[next..], stop));
      out, i := out + [node.value], next;
    }
    assert flat[i..] == [] && out + [] == out;
    r := if stop.Top? then Built(Taken(out, i)) else Failed(Unterminated);
  }

  /** The branches of the loop that add a node. */
  method BuildOne(flat: seq<Flat>, i: nat, ghost stop: Stop) returns (node: Outcome<Node>, next: nat)
    requires i < |flat| && !flat[i].End? && !flat[i].Else?
    ensures node.Failed? ==> Build(flat[i..], stop) == Failed(node.error)
    ensures node.Built? ==> i < next <= |flat| && Build(flat[i..], stop) == Prepend([node.value], Build(flat[next..], stop))
    decreases |flat| - i, 0, 0
  {
    next := i + 1;
    assert flat[i..] == [flat[i]] + flat[i + 1..];
    match flat[i] {
      case TextPart(t) =>
        BuildText(t, flat[i + 1..], stop);
        node := Built(Text(t));
      case ActionPart(body) =>
        var p := ParsePipelineFromToks(body);
        if p.Err? {
          return Failed(BadPipeline(p.error)), i;
        }
        BuildAction(body, p.value, flat[i + 1..], stop);
        node := Built(Action(p.value));
      case Open(kind, body) =>
        var p := ParsePipelineFromToks(body);
        if p.Err? {
          return Failed(BadPipeline(p.error)), i;
        }
        var bodies, after := BuildBoth(flat, i + 1);
        if bodies.Failed? {
          return Failed(bodies.error), i;
        }
        BuildOpen(kind, body, p.value, flat[i + 1..], bodies.value, stop);
        node, next := Built(Block(kind, p.value, bodies.value.body, bodies.value.elseBody)), after;
    }
  }

  /** The two bodies of a block that starts at start, as both branches of buildBlocks read them. */
  method BuildBoth(flat: seq<Flat>, start: nat) returns (r: Outcome<Bodies>, after: nat)
    requires start <= |flat|
    ensures r == BuildBodies(flat[start..])
    ensures r.Built? ==> start < after <= |flat| && r.value.rest == flat[after..]
    decreases |flat| - start, 1
  {
    after := start;
    var first := BuildBlocks(flat, start, AtElseOrEnd);
    if first.Failed? {
      return Failed(first.error), start;
    }
    var next := first.value.next;
    if flat[next - 1].Else? {
      var second := BuildBlocks(flat, next, AtEnd);
      if second.Failed? {
        return Failed(second.error), start;
      }
      after := second.value.next;
      r := Built(Bodies(first.value.nodes, second.value.nodes, flat[after..]));
    } else {
      after := next;
      r := Built(Bodies(first.value.nodes, [], flat[after..]));
    }
  }
}
