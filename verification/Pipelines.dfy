// ui/src/lib/template-render.ts parsePipeline, parseCmd, parsePipelineFromToks: the inside of
// a template action, from tokens to trees.
module Pipelines {

  datatype Atom = Ident(name: string) | Field(path: seq<string>) | Str(value: string) | Num(n: int) | Bool(b: bool)
  datatype Tok = Word(atom: Atom) | LParen | RParen | Bar

  datatype Operand = Leaf(atom: Atom) | Sub(pipe: Pipeline)
  datatype Cmd = Cmd(ops: seq<Operand>)
  datatype Pipeline = Pipeline(cmds: seq<Cmd>)

  datatype ParseError = UnmatchedOpen | UnexpectedClose | UnexpectedBar | EmptyCommand
  datatype Result<+T> = Ok(value: T) | Err(error: ParseError)

  // -------------------------------------------------------- printing

  function PrintOp(op: Operand): seq<Tok> {
    match op
    case Leaf(a) => [Word(a)]
    case Sub(p) => [LParen] + PrintCmds(p.cmds) + [RParen]
  }

  function PrintOps(ops: seq<Operand>): seq<Tok> {
    if ops == [] then [] else PrintOp(ops[0]) + PrintOps(ops[1..])
  }

  function PrintCmds(cmds: seq<Cmd>): seq<Tok> {
    if cmds == [] then []
    else if |cmds| == 1 then PrintOps(cmds[0].ops)
    else PrintOps(cmds[0].ops) + [Bar] + PrintCmds(cmds[1..])
  }

  function Print(p: Pipeline): seq<Tok> { PrintCmds(p.cmds) }

  predicate WellFormedOp(op: Operand) { op.Sub? ==> WellFormedCmds(op.pipe.cmds) }

  predicate WellFormedOps(ops: seq<Operand>) { forall i :: 0 <= i < |ops| ==> WellFormedOp(ops[i]) }

  predicate WellFormedCmds(cmds: seq<Cmd>) {
    cmds != [] && forall i :: 0 <= i < |cmds| ==> cmds[i].ops != [] && WellFormedOps(cmds[i].ops)
  }

  /** Every pipeline has a command and every command an operand, at every level. */
  predicate WellFormed(p: Pipeline) { WellFormedCmds(p.cmds) }

  // --------------------------------------------------------- parsing

  /** Where the parenthesis opened depth levels up is closed. */
  function Close(toks: seq<Tok>, depth: nat): (j: int)
    requires depth > 0
    ensures j < |toks| && (j >= 0 ==> toks[j] == RParen)
  {
    if toks == [] then -1
    else if toks[0].RParen? && depth == 1 then 0
    else
      var d := if toks[0].LParen? then depth + 1 else if toks[0].RParen? then depth - 1 else depth;
      var j := Close(toks[1..], d);
      if j < 0 then -1 else j + 1
  }

  function ParseOps(toks: seq<Tok>): Result<seq<Operand>>
    decreases |toks|, 1
  {
    if toks == [] then Ok([])
    else
      match toks[0]
      case RParen => Err(UnexpectedClose)
      case Bar => Err(UnexpectedBar)
      case Word(a) =>
        var rest := ParseOps(toks[1..]);
        if rest.Err? then rest else Ok([Leaf(a)] + rest.value)
      case LParen =>
        var j := Close(toks[1..], 1);
        if j < 0 then Err(UnmatchedOpen)
        else
          var inner := ParsePipeline(toks[1..][..j]);
          if inner.Err? then Err(inner.error)
          else
            var rest := ParseOps(toks[j + 2..]);
            if rest.Err? then rest else Ok([Sub(inner.value)] + rest.value)
  }

  function ParseCmd(toks: seq<Tok>): Result<Cmd>
    decreases |toks|, 2
  {
    var ops := ParseOps(toks);
    if ops.Err? then Err(ops.error) else if ops.value == [] then Err(EmptyCommand) else Ok(Cmd(ops.value))
  }

  /** The commands of curr + toks, where curr is what the current command has so far. */
  function ParseCmds(toks: seq<Tok>, depth: int, curr: seq<Tok>): Result<seq<Cmd>>
    decreases |curr| + |toks|, 3, |toks|
  {
    if toks == [] then
      var c := ParseCmd(curr);
      if c.Err? then Err(c.error) else Ok([c.value])
    else
      var d := if toks[0].LParen? then depth + 1 else if toks[0].RParen? then depth - 1 else depth;
      if toks[0].Bar? && d == 0 then
        var c := ParseCmd(curr);
        if c.Err? then Err(c.error)
        else
          var rest := ParseCmds(toks[1..], d, []);
          if rest.Err? then rest else Ok([c.value] + rest.value)
      else ParseCmds(toks[1..], d, curr + [toks[0]])
  }

  function ParsePipeline(toks: seq<Tok>): Result<Pipeline>
    decreases |toks|, 4
  {
    var cmds := ParseCmds(toks, 0, []);
    if cmds.Err? then Err(cmds.error) else Ok(Pipeline(cmds.value))
  }

  // ------------------------------------------ what is parsed prints back

  lemma PrintWith(op: Operand, rest: seq<Operand>)
    ensures PrintOps([op] + rest) == PrintOp(op) + PrintOps(rest)
    ensures WellFormedOp(op) && WellFormedOps(rest) ==> WellFormedOps([op] + rest)
  {
    assert ([op] + rest)[1..] == rest;
  }

  /** The tokens of a parenthesis: what is inside and what follows. */
  lemma ParenTokens(toks: seq<Tok>, j: nat)
    requires toks != [] && toks[0].LParen? && j == Close(toks[1..], 1)
    ensures j + 2 <= |toks| && [LParen] + toks[1..][..j] + [RParen] + toks[j + 2..] == toks
  {
    assert toks[1..][j] == toks[j + 1];
  }

  lemma {:induction false} PrintParsedOps(toks: seq<Tok>)
    requires ParseOps(toks).Ok?
    ensures PrintOps(ParseOps(toks).value) == toks && WellFormedOps(ParseOps(toks).value)
    decreases |toks|, 1
  {
    if toks != [] {
      if toks[0].Word? {
        PrintParsedOps(toks[1..]);
        PrintWith(Leaf(toks[0].atom), ParseOps(toks[1..]).value);
      } else {
        var j := Close(toks[1..], 1);
        ParenTokens(toks, j);
        var inner := toks[1..][..j];
        PrintParsed(inner);
        PrintParsedOps(toks[j + 2..]);
        PrintWith(Sub(ParsePipeline(inner).value), ParseOps(toks[j + 2..]).value);
      }
    }
  }

  lemma PrintWithCmd(c: Cmd, rest: seq<Cmd>, curr: seq<Tok>, more: seq<Tok>)
    requires rest != [] && PrintOps(c.ops) == curr && PrintCmds(rest) == more
    ensures PrintCmds([c] + rest) == curr + ([Bar] + more)
    ensures c.ops != [] && WellFormedOps(c.ops) && WellFormedCmds(rest) ==> WellFormedCmds([c] + rest)
  {
    assert ([c] + rest)[1..] == rest && curr + [Bar] + more == curr + ([Bar] + more);
  }

  lemma {:induction false} PrintParsedCmds(toks: seq<Tok>, depth: int, curr: seq<Tok>)
    requires ParseCmds(toks, depth, curr).Ok?
    ensures var cmds := ParseCmds(toks, depth, curr).value; PrintCmds(cmds) == curr + toks && WellFormedCmds(cmds)
    decreases |curr| + |toks|, 3, |toks|
  {
    if toks == [] {
      PrintParsedOps(curr);
      assert curr + toks == curr;
    } else {
      var d := if toks[0].LParen? then depth + 1 else if toks[0].RParen? then depth - 1 else depth;
      assert toks == [toks[0]] + toks[1..];
      if toks[0].Bar? && d == 0 {
        PrintParsedOps(curr);
        PrintParsedCmds(toks[1..], d, []);
        assert [] + toks[1..] == toks[1..];
        PrintWithCmd(ParseCmd(curr).value, ParseCmds(toks[1..], d, []).value, curr, toks[1..]);
      } else {
        PrintParsedCmds(toks[1..], d, curr + [toks[0]]);
        assert curr + [toks[0]] + toks[1..] == curr + ([toks[0]] + toks[1..]);
      }
    }
  }

  /** Whatever is accepted is well formed and prints to exactly the tokens read. */
  lemma {:induction false} PrintParsed(toks: seq<Tok>)
    requires ParsePipeline(toks).Ok?
    ensures Print(ParsePipeline(toks).value) == toks && WellFormed(ParsePipeline(toks).value)
    decreases |toks|, 4
  {
    PrintParsedCmds(toks, 0, []);
    assert [] + toks == toks;
  }

  // -------------------------------------- what is printed parses back

  /** t comes right after n tokens that leave every group open as it was. */
  predicate ClosesAfter(toks: seq<Tok>, n: nat, rest: seq<Tok>, depth: nat)
    requires depth > 0
  {
    Close(toks, depth) == if Close(rest, depth) < 0 then -1 else n + Close(rest, depth)
  }

  lemma {:induction false} CloseAfterOp(op: Operand, rest: seq<Tok>, depth: nat)
    requires depth > 0
    ensures ClosesAfter(PrintOp(op) + rest, |PrintOp(op)|, rest, depth)
    decreases op
  {
    var toks := PrintOp(op) + rest;
    if op.Leaf? {
      assert toks[1..] == rest;
    } else {
      var inner, after := PrintCmds(op.pipe.cmds), [RParen] + rest;
      CloseAfterCmds(op.pipe.cmds, after, depth + 1);
      assert toks[1..] == inner + after;
      assert after[1..] == rest;
    }
  }

  lemma {:induction false} CloseAfterOps(ops: seq<Operand>, rest: seq<Tok>, depth: nat)
    requires depth > 0
    ensures ClosesAfter(PrintOps(ops) + rest, |PrintOps(ops)|, rest, depth)
    decreases ops
  {
    if ops == [] {
      assert PrintOps(ops) + rest == rest;
    } else {
      CloseAfterOps(ops[1..], rest, depth);
      CloseAfterOp(ops[0], PrintOps(ops[1..]) + rest, depth);
      assert PrintOps(ops) + rest == PrintOp(ops[0]) + (PrintOps(ops[1..]) + rest);
    }
  }

  lemma {:induction false} CloseAfterCmds(cmds: seq<Cmd>, rest: seq<Tok>, depth: nat)
    requires depth > 0
    ensures ClosesAfter(PrintCmds(cmds) + rest, |PrintCmds(cmds)|, rest, depth)
    decreases cmds
  {
    if cmds == [] {
      assert PrintCmds(cmds) + rest == rest;
    } else if |cmds| == 1 {
      CloseAfterOps(cmds[0].ops, rest, depth);
    } else {
      var first, others := PrintOps(cmds[0].ops), PrintCmds(cmds[1..]);
      CloseAfterCmds(cmds[1..], rest, depth);
      CloseAfterOps(cmds[0].ops, [Bar] + (others + rest), depth);
      BarChangesNothing(others + rest, depth);
      CloseAfterThree(first, others, rest, depth);
    }
  }

  lemma CloseAfterThree(first: seq<Tok>, others: seq<Tok>, rest: seq<Tok>, depth: nat)
    requires depth > 0 && ClosesAfter(others + rest, |others|, rest, depth)
    requires ClosesAfter([Bar] + (others + rest), 1, others + rest, depth)
    requires ClosesAfter(first + ([Bar] + (others + rest)), |first|, [Bar] + (others + rest), depth)
    ensures ClosesAfter(first + [Bar] + others + rest, |first + [Bar] + others|, rest, depth)
  {
    assert first + [Bar] + others + rest == first + ([Bar] + (others + rest));
  }

  lemma BarChangesNothing(more: seq<Tok>, depth: nat)
    requires depth > 0
    ensures ClosesAfter([Bar] + more, 1, more, depth)
  {
    assert ([Bar] + more)[1..] == more;
  }

  /** Operands go to the current command whole; below a parenthesis so does everything. */
  lemma {:induction false} OpStaysTogether(op: Operand, rest: seq<Tok>, depth: int, curr: seq<Tok>)
    requires depth >= 0
    ensures ParseCmds(PrintOp(op) + rest, depth, curr) == ParseCmds(rest, depth, curr + PrintOp(op))
    decreases op
  {
    var toks := PrintOp(op) + rest;
    if op.Leaf? {
      assert toks[1..] == rest;
    } else {
      var inner, after := PrintCmds(op.pipe.cmds), [RParen] + rest;
      assert toks[0] == LParen && toks[1..] == inner + after && after[1..] == rest;
      CmdsStayTogether(op.pipe.cmds, after, depth + 1, curr + [LParen]);
      assert curr + [LParen] + inner + [RParen] == curr + PrintOp(op);
    }
  }

  lemma {:induction false} OpsStayTogether(ops: seq<Operand>, rest: seq<Tok>, depth: int, curr: seq<Tok>)
    requires depth >= 0
    ensures ParseCmds(PrintOps(ops) + rest, depth, curr) == ParseCmds(rest, depth, curr + PrintOps(ops))
    decreases ops
  {
    if ops == [] {
      assert PrintOps(ops) + rest == rest && curr + PrintOps(ops) == curr;
    } else {
      var more := PrintOps(ops[1..]) + rest;
      assert PrintOps(ops) + rest == PrintOp(ops[0]) + more;
      OpStaysTogether(ops[0], more, depth, curr);
      OpsStayTogether(ops[1..], rest, depth, curr + PrintOp(ops[0]));
      assert curr + PrintOp(ops[0]) + PrintOps(ops[1..]) == curr + PrintOps(ops);
    }
  }

  lemma {:induction false} CmdsStayTogether(cmds: seq<Cmd>, rest: seq<Tok>, depth: int, curr: seq<Tok>)
    requires depth > 0
    ensures ParseCmds(PrintCmds(cmds) + rest, depth, curr) == ParseCmds(rest, depth, curr + PrintCmds(cmds))
    decreases cmds
  {
    if cmds == [] {
      assert PrintCmds(cmds) + rest == rest && curr + PrintCmds(cmds) == curr;
    } else if |cmds| == 1 {
      OpsStayTogether(cmds[0].ops, rest, depth, curr);
    } else {
      var first, others := PrintOps(cmds[0].ops), PrintCmds(cmds[1..]);
      OpsStayTogether(cmds[0].ops, [Bar] + (others + rest), depth, curr);
      BarStays(others + rest, depth, curr + first);
      CmdsStayTogether(cmds[1..], rest, depth, curr + first + [Bar]);
      Regrouped(curr, first, others, rest);
    }
  }

  lemma Regrouped(curr: seq<Tok>, first: seq<Tok>, others: seq<Tok>, rest: seq<Tok>)
    ensures first + [Bar] + others + rest == first + ([Bar] + (others + rest))
    ensures curr + first + [Bar] + others == curr + (first + [Bar] + others)
  {
  }

  lemma BarStays(more: seq<Tok>, depth: int, curr: seq<Tok>)
    requires depth > 0
    ensures ParseCmds([Bar] + more, depth, curr) == ParseCmds(more, depth, curr + [Bar])
  {
    assert ([Bar] + more)[1..] == more;
  }

  lemma {:induction false} ParsePrintedOp(op: Operand, rest: seq<Tok>)
    requires WellFormedOp(op)
    ensures var after := ParseOps(rest);
            ParseOps(PrintOp(op) + rest) == if after.Err? then after else Ok([op] + after.value)
    decreases op
  {
    var toks := PrintOp(op) + rest;
    if op.Leaf? {
      assert toks[1..] == rest;
    } else {
      var inner := PrintCmds(op.pipe.cmds);
      ParsePrintedCmds(op.pipe.cmds);
      GroupIsFound(inner, rest);
      assert Close([RParen] + rest, 1) == 0;
      CloseAfterCmds(op.pipe.cmds, [RParen] + rest, 1);
      assert Close(toks[1..], 1) == |inner|;
    }
  }

  lemma {:induction false} ParsePrintedOps(ops: seq<Operand>)
    requires WellFormedOps(ops)
    ensures ParseOps(PrintOps(ops)) == Ok(ops)
    decreases ops
  {
    if ops != [] {
      ParsePrintedOps(ops[1..]);
      ParsePrintedOp(ops[0], PrintOps(ops[1..]));
      assert ops == [ops[0]] + ops[1..];
    }
  }

  lemma GroupIsFound(inner: seq<Tok>, more: seq<Tok>)
    ensures var toks := [LParen] + inner + [RParen] + more;
            toks[1..] == inner + ([RParen] + more) && toks[1..][..|inner|] == inner && toks[|inner| + 2..] == more
  {
  }

  lemma {:induction false} ParsePrintedCmds(cmds: seq<Cmd>)
    requires WellFormedCmds(cmds)
    ensures ParsePipeline(PrintCmds(cmds)) == Ok(Pipeline(cmds))
    decreases cmds
  {
    var first := PrintOps(cmds[0].ops);
    assert WellFormedOps(cmds[0].ops);
    ParsePrintedOps(cmds[0].ops);
    assert ParseCmd(first) == Ok(cmds[0]);
    if |cmds| == 1 {
      FirstCmd(cmds[0].ops, []);
      assert cmds == [cmds[0]];
    } else {
      FirstCmd(cmds[0].ops, [Bar] + PrintCmds(cmds[1..]));
      assert forall i :: 0 <= i < |cmds[1..]| ==> cmds[1..][i] == cmds[i + 1];
      ParsePrintedCmds(cmds[1..]);
      CmdThenBar(first, PrintCmds(cmds[1..]));
      assert PrintCmds(cmds) == first + ([Bar] + PrintCmds(cmds[1..]));
      assert cmds == [cmds[0]] + cmds[1..];
    }
  }

  lemma CmdThenBar(first: seq<Tok>, others: seq<Tok>)
    ensures ParseCmds([Bar] + others, 0, first) ==
              var c := ParseCmd(first);
              if c.Err? then Err(c.error)
              else var rest := ParseCmds(others, 0, []); if rest.Err? then rest else Ok([c.value] + rest.value)
  {
    assert ([Bar] + others)[1..] == others;
  }

  lemma FirstCmd(ops: seq<Operand>, rest: seq<Tok>)
    ensures ParseCmds(PrintOps(ops) + rest, 0, []) == ParseCmds(rest, 0, PrintOps(ops))
    ensures PrintOps(ops) + [] == PrintOps(ops)
  {
    OpsStayTogether(ops, rest, 0, []);
    assert [] + PrintOps(ops) == PrintOps(ops);
  }

  /** Token lists and pipelines correspond one to one: parsing is exactly the inverse of
      printing, so anything refused is not the print of any well-formed pipeline. */
  lemma ParseIffPrints(toks: seq<Tok>, p: Pipeline)
    ensures ParsePipeline(toks) == Ok(p) <==> WellFormed(p) && Print(p) == toks
  {
    if ParsePipeline(toks) == Ok(p) { PrintParsed(toks); }
    if WellFormed(p) && Print(p) == toks { ParsePrintedCmds(p.cmds); }
  }

  // ------------------------------------------------------- the loops

  function After<T>(done: seq<T>, r: Result<seq<T>>): (all: Result<seq<T>>)
    ensures done == [] ==> all == r
    ensures r == Ok([]) ==> all == Ok(done)
  {
    if r.Err? then r
    else
      assert done == [] ==> done + r.value == r.value;
      assert r.value == [] ==> done + r.value == done;
      Ok(done + r.value)
  }

  /** The loop of parseCmd that looks for the matching parenthesis. */
  method FindClose(toks: seq<Tok>, start: nat) returns (j: nat, found: bool)
    requires start <= |toks|
    ensures found <==> Close(toks[start..], 1) >= 0
    ensures found ==> start <= j < |toks| && j - start == Close(toks[start..], 1)
  {
    var depth := 1;
    j := start;
    while j < |toks|
      invariant start <= j <= |toks| && depth > 0
      invariant Close(toks[start..], 1) == if Close(toks[j..], depth) < 0 then -1 else j - start + Close(toks[j..], depth)
    {
      assert toks[j..][1..] == toks[j + 1..];
      if toks[j].LParen? {
        depth := depth + 1;
      } else if toks[j].RParen? {
        depth := depth - 1;
      }
      if depth == 0 {
        return j, true;
      }
      j := j + 1;
    }
    found := false;
  }

  /** parseCmd. */
  method ParseCommand(toks: seq<Tok>) returns (r: Result<Cmd>)
    ensures r == ParseCmd(toks)
    decreases |toks|, 2
  {
    var ops, i := [], 0;
    while i < |toks|
      invariant i <= |toks| && After(ops, ParseOps(toks[i..])) == ParseOps(toks)
    {
      var op, next := ParseOperand(toks, i);
      if op.Err? {
        return Err(op.error);
      }
      NextOp(ops, op.value, toks[i..], toks[next..]);
      ops, i := ops + [op.value], next;
    }
    r := if ops == [] then Err(EmptyCommand) else Ok(Cmd(ops));
  }

  lemma NextOp(ops: seq<Operand>, op: Operand, toks: seq<Tok>, rest: seq<Tok>)
    requires ParseOps(toks) == After([op], ParseOps(rest))
    ensures After(ops + [op], ParseOps(rest)) == After(ops, ParseOps(toks))
  {
    var r := ParseOps(rest);
    assert r.Ok? ==> ops + [op] + r.value == ops + ([op] + r.value);
  }

  lemma OpsFromParen(t: seq<Tok>)
    requires t != [] && t[0].LParen?
    ensures var c := Close(t[1..], 1);
            ParseOps(t) == if c < 0 then Err(UnmatchedOpen) else SubThen(ParsePipeline(t[1..][..c]), t[c + 2..])
  {
  }

  function SubThen(inner: Result<Pipeline>, rest: seq<Tok>): Result<seq<Operand>> {
    if inner.Err? then Err(inner.error) else After([Sub(inner.value)], ParseOps(rest))
  }

  lemma Slices(toks: seq<Tok>, i: nat, j: nat)
    requires i < j < |toks|
    ensures toks[i..][1..] == toks[i + 1..] && toks[i + 1..][..j - i - 1] == toks[i + 1..j] && toks[i..][j - i + 1..] == toks[j + 1..]
  {
  }

  /** One turn of the loop of parseCmd: the operand at i, and where the next one starts. */
  method ParseOperand(toks: seq<Tok>, i: nat) returns (op: Result<Operand>, next: nat)
    requires i < |toks|
    ensures op.Err? ==> ParseOps(toks[i..]) == Err(op.error)
    ensures op.Ok? ==> i < next <= |toks| && ParseOps(toks[i..]) == After([op.value], ParseOps(toks[next..]))
    decreases |toks|, 1
  {
    next := i + 1;
    assert toks[i..][1..] == toks[i + 1..];
    match toks[i] {
      case RParen => op := Err(UnexpectedClose);
      case Bar => op := Err(UnexpectedBar);
      case Word(a) => op := Ok(Leaf(a));
      case LParen => op, next := ParseParen(toks, i);
    }
  }

  /** The operand that a parenthesis at i opens. */
  method ParseParen(toks: seq<Tok>, i: nat) returns (op: Result<Operand>, next: nat)
    requires i < |toks| && toks[i].LParen?
    ensures op.Err? ==> ParseOps(toks[i..]) == Err(op.error)
    ensures op.Ok? ==> i < next <= |toks| && ParseOps(toks[i..]) == After([op.value], ParseOps(toks[next..]))
    decreases |toks|, 0
  {
    OpsFromParen(toks[i..]);
    assert toks[i..][1..] == toks[i + 1..];
    var j, found := FindClose(toks, i + 1);
    if !found {
      return Err(UnmatchedOpen), i;
    }
    Slices(toks, i, j);
    var inner := ParsePipelineFromToks(toks[i + 1..j]);
    op := if inner.Err? then Err(inner.error) else Ok(Sub(inner.value));
    next := j + 1;
  }

  /** parsePipelineFromToks, and parsePipeline once its source is tokenised. */
  method ParsePipelineFromToks(toks: seq<Tok>) returns (r: Result<Pipeline>)
    ensures r == ParsePipeline(toks)
    decreases |toks|, 3
  {
    var cmds, depth, curr := [], 0, [];
    assert toks[0..] == toks;
    for i := 0 to |toks|
      invariant |curr| <= i
      invariant ParseCmds(toks, 0, []) == After(cmds, ParseCmds(toks[i..], depth, curr))
    {
      var t := toks[i];
      assert toks[i..][0] == t && toks[i..][1..] == toks[i + 1..];
      if t.LParen? {
        depth := depth + 1;
      }
      if t.RParen? {
        depth := depth - 1;
      }
      if t.Bar? && depth == 0 {
        var c := ParseCommand(curr);
        if c.Err? {
          return Err(c.error);
        }
        NextCmd(cmds, c.value, ParseCmds(toks[i + 1..], 0, []));
        cmds, curr := cmds + [c.value], [];
      } else {
        curr := curr + [t];
      }
    }
    var c := ParseCommand(curr);
    if c.Err? {
      return Err(c.error);
    }
    r := Ok(Pipeline(cmds + [c.value]));
  }

  lemma NextCmd(cmds: seq<Cmd>, c: Cmd, r: Result<seq<Cmd>>)
    ensures After(cmds + [c], r) == After(cmds, After([c], r))
  {
    assert r.Ok? ==> cmds + [c] + r.value == cmds + ([c] + r.value);
  }
}
