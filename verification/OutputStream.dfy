// core/sip/output_stream.go: the loop that plays submitted sources one after the other, and
// its queue of control operations.
module OutputStreams {
  import opened Text

  type Job = nat
  type Frame = seq<bv8>

  datatype Op = Submit(job: Job) | Clear | Pause | Resume | Shutdown
  datatype Outcome = Played | Interrupted | WriteFailed | SourceFailed
  datatype Result = Result(job: Job, outcome: Outcome)

  /** What NextFrame reports beside its data. */
  datatype SourceError = NoError | EOF | Broken

  /** The variables of run. taken: the jobs received, in that order; results and frames:
      what went out so far. */
  datatype Player = Player(
    taken: seq<Job>, cur: Option<Job>, pending: seq<Job>, paused: bool, playing: bool, exited: bool,
    results: seq<Result>, frames: seq<(Job, Frame)>)

  /** sent: every job handed to Submit; refused: those told that the stream is closed. */
  datatype State = State(sent: seq<Job>, refused: seq<Job>, ctrl: seq<Op>, p: Player)

  const INITIAL := State([], [], [], Player([], None, [], false, false, false, [], []))
  const CTRL_CAPACITY := 64

  /** Send and Refuse are callers' steps, the others turns of the loop; writes: whether the
      write to the wire succeeds. */
  datatype Event =
    | Send(op: Op)
    | Refuse(job: Job)
    | Take
    | Play(data: Frame, err: SourceError, writes: bool)
    | Idle(writes: bool)

  // ------------------------------------------------------ the pieces

  function Current(p: Player): seq<Job> { if p.cur.Some? then [p.cur.value] else [] }

  function AllWith(jobs: seq<Job>, o: Outcome): seq<Result> {
    seq(|jobs|, i requires 0 <= i < |jobs| => Result(jobs[i], o))
  }

  /** finishCurrent. */
  function Finish(p: Player, o: Outcome): Player {
    p.(cur := None, playing := false, results := p.results + AllWith(Current(p), o))
  }

  function DropPending(p: Player, o: Outcome): Player { p.(pending := [], results := p.results + AllWith(p.pending, o)) }

  function Promote(p: Player): Player {
    if p.pending == [] then p else p.(cur := Some(p.pending[0]), pending := p.pending[1..], playing := true)
  }

  function Handle(p: Player, op: Op): Player {
    match op
    case Shutdown => DropPending(Finish(p, Interrupted), Interrupted).(exited := true)
    case Clear => DropPending(Finish(p, Interrupted), Interrupted)
    case Pause => p.(paused := true)
    case Resume => p.(paused := false)
    case Submit(job) =>
      if p.cur.None? then p.(taken := p.taken + [job], cur := Some(job), playing := true)
      else p.(taken := p.taken + [job], pending := p.pending + [job])
  }

  /** One turn with an active source. A source that fails, or whose frame cannot be
      written, is finished, and the next one is not started. */
  function PlayTurn(p: Player, data: Frame, err: SourceError, writes: bool): Player
    requires p.cur.Some?
  {
    if (data != [] || err.NoError?) && !writes then Finish(p, WriteFailed)
    else
      var q := if data != [] then p.(frames := p.frames + [(p.cur.value, data)]) else p;
      match err
      case NoError => q
      case EOF => Promote(Finish(q, Played))
      case Broken => Finish(q, SourceFailed)
  }

  function IdleTurn(p: Player, writes: bool): Player {
    if writes then p else DropPending(Finish(p, WriteFailed), WriteFailed).(exited := true)
  }

  /** Every job sent is a new one; Clear, Pause and Resume are lost on a full channel. */
  predicate Enabled(s: State, e: Event) {
    match e
    case Send(op) => (op.Submit? ==> op.job !in s.sent) && (op.Submit? || op.Shutdown? ==> |s.ctrl| < CTRL_CAPACITY)
    case Refuse(job) => job !in s.sent && s.p.exited
    case Take => !s.p.exited && s.ctrl != []
    case Play(_, _, _) => !s.p.exited && s.p.cur.Some? && !s.p.paused
    case Idle(_) => !s.p.exited && (s.p.cur.None? || s.p.paused)
  }

  function JobOf(op: Op): seq<Job> { if op.Submit? then [op.job] else [] }

  function Next(s: State, e: Event): State
    requires Enabled(s, e)
  {
    match e
    case Send(op) =>
      if |s.ctrl| >= CTRL_CAPACITY then s else State(s.sent + JobOf(op), s.refused, s.ctrl + [op], s.p)
    case Refuse(job) => State(s.sent + [job], s.refused + [job], s.ctrl, s.p)
    case Take => State(s.sent, s.refused, s.ctrl[1..], Handle(s.p, s.ctrl[0]))
    case Play(data, err, writes) => State(s.sent, s.refused, s.ctrl, PlayTurn(s.p, data, err, writes))
    case Idle(writes) => State(s.sent, s.refused, s.ctrl, IdleTurn(s.p, writes))
  }

  ghost predicate IsRun(s: State, events: seq<Event>, t: State)
    decreases |events|
  {
    if events == [] then t == s
    else Enabled(s, events[0]) && IsRun(Next(s, events[0]), events[1..], t)
  }

  // ------------------------------------------------- where jobs are

  function Jobs(results: seq<Result>): seq<Job> { seq(|results|, i requires 0 <= i < |results| => results[i].job) }

  function Submitted(ops: seq<Op>): seq<Job> { if ops == [] then [] else JobOf(ops[0]) + Submitted(ops[1..]) }

  /** The jobs received, in the order they are finished or will be tried. */
  function Line(p: Player): seq<Job> { Jobs(p.results) + Current(p) + p.pending }

  lemma {:induction false} SubmittedAppend(ops: seq<Op>, op: Op)
    ensures Submitted(ops + [op]) == Submitted(ops) + JobOf(op)
  {
    if ops != [] {
      SubmittedAppend(ops[1..], op);
      assert (ops + [op])[1..] == ops[1..] + [op];
    }
  }

  lemma JobsAppend(results: seq<Result>, jobs: seq<Job>, o: Outcome)
    ensures Jobs(results + AllWith(jobs, o)) == Jobs(results) + jobs
  {
  }

  /** Finishing, dropping and promoting move jobs along the line and never reorder it. */
  lemma LineOfFinish(p: Player, o: Outcome)
    ensures Jobs(Finish(p, o).results) == Jobs(p.results) + Current(p) && Line(Finish(p, o)) == Line(p)
  {
    JobsAppend(p.results, Current(p), o);
  }

  lemma LineOfDrop(p: Player, o: Outcome)
    requires p.cur.None?
    ensures Jobs(DropPending(p, o).results) == Jobs(p.results) + p.pending && Line(DropPending(p, o)) == Line(p)
  {
    JobsAppend(p.results, p.pending, o);
  }

  lemma LineOfPromote(p: Player)
    requires p.cur.None?
    ensures Line(Promote(p)) == Line(p)
  {
    if p.pending != [] { assert p.pending == [p.pending[0]] + p.pending[1..]; }
  }

  lemma LineOfEnd(p: Player, o: Outcome)
    ensures Line(DropPending(Finish(p, o), o)) == Line(p)
    ensures Jobs(DropPending(Finish(p, o), o).results) == Line(p)
  {
    LineOfFinish(p, o);
    LineOfDrop(Finish(p, o), o);
  }

  /** A source stopped with an error while others wait: nothing plays, and the next
      submission goes ahead of them. */
  predicate Stalled(p: Player) { p.cur.None? && p.pending != [] }

  lemma LineOfStalled(p: Player)
    ensures Stalled(p) ==> Line(p) == Jobs(p.results) + p.pending
  {
  }

  lemma LineOfHandle(p: Player, op: Op)
    ensures Handle(p, op).taken == p.taken + JobOf(op)
    ensures Line(Handle(p, op)) ==
              if Stalled(p) then Jobs(p.results) + JobOf(op) + p.pending else Line(p) + JobOf(op)
  {
    if op.Clear? || op.Shutdown? { LineOfEnd(p, Interrupted); }
  }

  lemma LineOfPlay(p: Player, data: Frame, err: SourceError, writes: bool)
    requires p.cur.Some?
    ensures Line(PlayTurn(p, data, err, writes)) == Line(p) && PlayTurn(p, data, err, writes).taken == p.taken
  {
    var q := if data != [] then p.(frames := p.frames + [(p.cur.value, data)]) else p;
    assert Line(q) == Line(p);
    LineOfFinish(p, WriteFailed);
    LineOfFinish(q, SourceFailed);
    LineOfFinish(q, Played);
    LineOfPromote(Finish(q, Played));
  }

  /** The job a step takes off ctrl. */
  function TakenBy(s: State, e: Event): seq<Job>
    requires Enabled(s, e)
  {
    if e.Take? then JobOf(s.ctrl[0]) else []
  }

  lemma LineOfNext(s: State, e: Event)
    requires Enabled(s, e)
    ensures Next(s, e).p.taken == s.p.taken + TakenBy(s, e)
    ensures Line(Next(s, e).p) ==
              if Stalled(s.p) then Jobs(s.p.results) + TakenBy(s, e) + s.p.pending else Line(s.p) + TakenBy(s, e)
  {
    match e {
      case Send(_) =>
      case Refuse(_) =>
      case Take => LineOfHandle(s.p, s.ctrl[0]);
      case Play(data, err, writes) => LineOfPlay(s.p, data, err, writes);
      case Idle(writes) => LineOfEnd(s.p, WriteFailed);
    }
  }

  // ----------------------------------------------------- conservation

  ghost predicate AddsUp(sent: seq<Job>, waiting: seq<Job>, refused: seq<Job>, taken: seq<Job>) {
    Distinct(sent) && multiset(sent) == multiset(waiting) + multiset(refused) + multiset(taken)
  }

  ghost predicate Accounted(s: State) { AddsUp(s.sent, Submitted(s.ctrl), s.refused, s.p.taken) }

  predicate FlagsSound(p: Player) { (p.playing <==> p.cur.Some?) && (p.exited ==> p.cur.None? && p.pending == []) }

  ghost predicate PlayerInv(p: Player) { FlagsSound(p) && multiset(p.taken) == multiset(Line(p)) }

  ghost predicate Inv(s: State) { Accounted(s) && PlayerInv(s.p) }

  lemma NewJob(sent: seq<Job>, waiting: seq<Job>, refused: seq<Job>, taken: seq<Job>, job: Job)
    requires AddsUp(sent, waiting, refused, taken) && job !in sent
    ensures AddsUp(sent + [job], waiting + [job], refused, taken) && AddsUp(sent + [job], waiting, refused + [job], taken)
  {
    assert multiset(sent + [job]) == multiset(sent) + multiset{job};
    assert multiset(waiting + [job]) == multiset(waiting) + multiset{job};
    assert multiset(refused + [job]) == multiset(refused) + multiset{job};
  }

  lemma TakenFromWaiting(sent: seq<Job>, job: seq<Job>, rest: seq<Job>, refused: seq<Job>, taken: seq<Job>)
    requires AddsUp(sent, job + rest, refused, taken)
    ensures AddsUp(sent, rest, refused, taken + job)
  {
    assert multiset(job + rest) == multiset(job) + multiset(rest) && multiset(taken + job) == multiset(taken) + multiset(job);
  }

  lemma SendKeepsAccounts(s: State, op: Op)
    requires Accounted(s) && Enabled(s, Send(op))
    ensures Accounted(Next(s, Send(op)))
  {
    SubmittedAppend(s.ctrl, op);
    if op.Submit? {
      NewJob(s.sent, Submitted(s.ctrl), s.refused, s.p.taken, op.job);
    } else {
      assert s.sent + [] == s.sent && Submitted(s.ctrl) + [] == Submitted(s.ctrl);
    }
  }

  lemma NextKeepsAccounts(s: State, e: Event)
    requires Accounted(s) && Enabled(s, e)
    ensures Accounted(Next(s, e))
  {
    LineOfNext(s, e);
    match e {
      case Send(op) => SendKeepsAccounts(s, op);
      case Refuse(job) => NewJob(s.sent, Submitted(s.ctrl), s.refused, s.p.taken, job);
      case Take => TakenFromWaiting(s.sent, JobOf(s.ctrl[0]), Submitted(s.ctrl[1..]), s.refused, s.p.taken);
      case Play(_, _, _) =>
      case Idle(_) =>
    }
  }

  lemma TakenStaysInLine(results: seq<Job>, waiting: seq<Job>, line: seq<Job>, taken: seq<Job>, more: seq<Job>, stalled: bool, after: seq<Job>)
    requires multiset(taken) == multiset(line) && (stalled ==> line == results + waiting)
    requires after == if stalled then results + more + waiting else line + more
    ensures multiset(taken + more) == multiset(after)
  {
  }

  lemma NextKeepsFlags(s: State, e: Event)
    requires Enabled(s, e) && FlagsSound(s.p)
    ensures FlagsSound(Next(s, e).p)
  {
  }

  lemma NextKeepsTaken(s: State, e: Event, p: Player)
    requires Enabled(s, e) && p == Next(s, e).p && multiset(s.p.taken) == multiset(Line(s.p))
    ensures multiset(p.taken) == multiset(Line(p))
  {
    LineOfNext(s, e);
    LineOfStalled(s.p);
    TakenStaysInLine(Jobs(s.p.results), s.p.pending, Line(s.p), s.p.taken, TakenBy(s, e), Stalled(s.p), Line(p));
  }

  lemma NextKeepsPlayer(s: State, e: Event)
    requires Enabled(s, e) && PlayerInv(s.p)
    ensures PlayerInv(Next(s, e).p)
  {
    NextKeepsFlags(s, e);
    NextKeepsTaken(s, e, Next(s, e).p);
  }

  lemma {:induction false} RunKeepsInv(s: State, events: seq<Event>, t: State)
    requires Inv(s) && IsRun(s, events, t)
    ensures Inv(t)
    decreases |events|
  {
    if events != [] {
      NextKeepsAccounts(s, events[0]);
      NextKeepsPlayer(s, events[0]);
      RunKeepsInv(Next(s, events[0]), events[1..], t);
    }
  }

  lemma InitialInv()
    ensures Inv(INITIAL)
  {
  }

  /** How often a job occurs in the places a job can be. */
  function Places(s: State, job: Job): nat {
    multiset(Submitted(s.ctrl))[job] + multiset(s.refused)[job]
    + multiset(Current(s.p))[job] + multiset(s.p.pending)[job] + multiset(Jobs(s.p.results))[job]
  }

  /** Every job sent is in exactly one place: waiting in ctrl, refused, playing, pending, or
      finished with its one result. */
  lemma OnePlaceEach(events: seq<Event>, t: State, job: Job)
    requires IsRun(INITIAL, events, t)
    ensures Places(t, job) == if job in t.sent then 1 else 0
  {
    InitialInv();
    RunKeepsInv(INITIAL, events, t);
    DistinctMultiset(t.sent);
    LineCounts(t.p, job);
    SentCounts(t, job);
  }

  lemma SentCounts(s: State, job: Job)
    requires Accounted(s)
    ensures multiset(s.sent)[job]
              == multiset(Submitted(s.ctrl))[job] + multiset(s.refused)[job] + multiset(s.p.taken)[job]
    ensures (job in s.sent) == (multiset(s.sent)[job] > 0)
  {
    var sent, all := multiset(s.sent), multiset(Submitted(s.ctrl)) + multiset(s.refused) + multiset(s.p.taken);
    assert sent[job] == all[job];
  }

  lemma LineCounts(p: Player, job: Job)
    ensures multiset(Line(p))[job]
              == multiset(Jobs(p.results))[job] + multiset(Current(p))[job] + multiset(p.pending)[job]
  {
    assert multiset(Line(p)) == multiset(Jobs(p.results)) + multiset(Current(p)) + multiset(p.pending);
  }

  /** When the loop has ended, the jobs without a result are those still in ctrl, which
      nobody reads any more, and those refused. */
  lemma LeftWithoutResult(events: seq<Event>, t: State, job: Job)
    requires IsRun(INITIAL, events, t) && t.p.exited && job in t.sent
    ensures job !in Jobs(t.p.results) <==> job in Submitted(t.ctrl) || job in t.refused
  {
    OnePlaceEach(events, t, job);
    InitialInv();
    RunKeepsInv(INITIAL, events, t);
  }

  /** A clear gives every unfinished job taken before it one ErrInterrupted, in line order,
      and nothing else; it does not end a pause. */
  lemma ClearFinishesTheRest(s: State)
    requires Inv(s) && Enabled(s, Take) && s.ctrl[0].Clear?
    ensures var p, q := s.p, Next(s, Take).p;
            && q.cur.None? && q.pending == [] && q.paused == p.paused && q.frames == p.frames
            && Jobs(q.results) == Line(p) && multiset(Jobs(q.results)) == multiset(p.taken)
            && p.results <= q.results
            && forall i :: |p.results| <= i < |q.results| ==> q.results[i].outcome == Interrupted
  {
    LineOfEnd(s.p, Interrupted);
  }

  // ------------------------------------------------------------ order

  /** Some job is taken off ctrl while the loop is stalled. */
  ghost predicate Overtakes(s: State, events: seq<Event>)
    decreases |events|
  {
    && events != [] && Enabled(s, events[0])
    && ((Stalled(s.p) && TakenBy(s, events[0]) != []) || Overtakes(Next(s, events[0]), events[1..]))
  }

  lemma OrderOfOneStep(s: State, e: Event)
    requires Inv(s) && Enabled(s, e)
    ensures (Line(Next(s, e).p) == Next(s, e).p.taken) <==>
            (Line(s.p) == s.p.taken && !(Stalled(s.p) && TakenBy(s, e) != []))
  {
    LineOfNext(s, e);
    var results, waiting, more, taken := Jobs(s.p.results), s.p.pending, TakenBy(s, e), s.p.taken;
    if more == [] {
      assert taken + more == taken && Line(s.p) + more == Line(s.p) && results + more == results;
      LineOfStalled(s.p);
    } else if Stalled(s.p) {
      TakenIsNew(s, more[0]);
      LineOfStalled(s.p);
      assert more == [more[0]];
      OvertakenForGood(results, waiting, more[0], taken);
    } else {
      SameEnds(Line(s.p), taken, more);
    }
  }

  lemma SameEnds(a: seq<Job>, b: seq<Job>, more: seq<Job>)
    ensures a + more == b + more <==> a == b
  {
    if a + more == b + more {
      assert |a| == |b|;
      assert a == (a + more)[..|a|] && b == (b + more)[..|b|];
    }
  }

  lemma TakenIsNew(s: State, job: Job)
    requires Inv(s) && s.ctrl != [] && JobOf(s.ctrl[0]) == [job]
    ensures job !in Line(s.p)
  {
    DistinctMultiset(s.sent);
    assert multiset(Submitted(s.ctrl))[job] > 0 by { assert Submitted(s.ctrl)[0] == job; }
    assert multiset(s.sent)[job] <= 1;
  }

  lemma OvertakenForGood(results: seq<Job>, waiting: seq<Job>, job: Job, taken: seq<Job>)
    requires waiting != [] && job !in results + waiting
    ensures results + [job] + waiting != taken + [job]
  {
    var a, b := results + [job] + waiting, taken + [job];
    assert a[|a| - 1] == waiting[|waiting| - 1] && b[|b| - 1] == job;
    assert (results + waiting)[|results| + |waiting| - 1] == waiting[|waiting| - 1];
  }

  /** The line is the order of submission exactly until a job is taken by a stalled loop. */
  lemma {:induction false} OrderKeptIff(s: State, events: seq<Event>, t: State)
    requires Inv(s) && IsRun(s, events, t)
    ensures Line(t.p) == t.p.taken <==> Line(s.p) == s.p.taken && !Overtakes(s, events)
    decreases |events|
  {
    if events != [] {
      OrderOfOneStep(s, events[0]);
      NextKeepsAccounts(s, events[0]);
      NextKeepsPlayer(s, events[0]);
      OrderKeptIff(Next(s, events[0]), events[1..], t);
    }
  }

  /** No source breaks and every write succeeds. */
  predicate ErrorFree(events: seq<Event>) {
    forall i :: 0 <= i < |events| ==> (events[i].Play? ==> events[i].writes && !events[i].err.Broken?)
  }

  lemma {:induction false} ErrorFreeNeverStalls(s: State, events: seq<Event>, t: State)
    requires IsRun(s, events, t) && ErrorFree(events) && !Stalled(s.p)
    ensures !Overtakes(s, events) && !Stalled(t.p)
    decreases |events|
  {
    if events != [] {
      assert events[0].Play? ==> events[0].writes && !events[0].err.Broken?;
      StaysUnstalled(s, events[0]);
      forall i | 0 <= i < |events[1..]| ensures events[1..][i] == events[i + 1] {}
      ErrorFreeNeverStalls(Next(s, events[0]), events[1..], t);
    }
  }

  lemma StaysUnstalled(s: State, e: Event)
    requires Enabled(s, e) && !Stalled(s.p) && (e.Play? ==> e.writes && !e.err.Broken?)
    ensures !Stalled(Next(s, e).p)
  {
  }

  // ----------------------------------------------------------- frames

  /** The jobs whose frames can have been heard. */
  function Begun(p: Player): seq<Job> { Jobs(p.results) + Current(p) }

  function First(xs: seq<Job>, x: Job): nat { if xs == [] || xs[0] == x then 0 else 1 + First(xs[1..], x) }

  lemma {:induction false} FirstOfMore(xs: seq<Job>, more: seq<Job>, x: Job)
    ensures x in xs ==> First(xs + more, x) == First(xs, x) < |xs|
    ensures x !in xs ==> First(xs + [x] + more, x) == |xs|
  {
    if xs != [] && xs[0] != x {
      FirstOfMore(xs[1..], more, x);
      assert (xs + more)[1..] == xs[1..] + more && (xs + [x] + more)[1..] == xs[1..] + [x] + more;
    } else if xs == [] {
      assert (xs + [x] + more)[0] == x;
    }
  }

  /** The frames of each job are together, and the jobs come in the order of line. */
  ghost predicate InOrderOf(frames: seq<(Job, Frame)>, line: seq<Job>) {
    && (forall i :: 0 <= i < |frames| ==> frames[i].0 in line)
    && forall i, j :: 0 <= i < j < |frames| ==> First(line, frames[i].0) <= First(line, frames[j].0)
  }

  lemma InOrderOfMore(frames: seq<(Job, Frame)>, line: seq<Job>, more: seq<Job>)
    requires InOrderOf(frames, line)
    ensures InOrderOf(frames, line + more)
  {
    forall i | 0 <= i < |frames| ensures First(line + more, frames[i].0) == First(line, frames[i].0) {
      FirstOfMore(line, more, frames[i].0);
    }
  }

  lemma NextFrameInOrder(frames: seq<(Job, Frame)>, done: seq<Job>, job: Job, data: Frame)
    requires InOrderOf(frames, done + [job]) && job !in done
    ensures InOrderOf(frames + [(job, data)], done + [job])
  {
    var all, line := frames + [(job, data)], done + [job];
    FirstOfMore(done, [], job);
    assert done + [job] + [] == line;
    forall i | 0 <= i < |frames| ensures First(line, all[i].0) <= |done| {
      if frames[i].0 in done { FirstOfMore(done, [job], frames[i].0); }
    }
  }

  lemma BegunOfHandle(p: Player, op: Op)
    ensures Begun(p) <= Begun(Handle(p, op))
  {
    if op.Clear? || op.Shutdown? { LineOfEnd(p, Interrupted); }
  }

  lemma BegunOfPlay(p: Player, data: Frame, err: SourceError, writes: bool)
    requires p.cur.Some?
    ensures Begun(p) <= Begun(PlayTurn(p, data, err, writes))
  {
    var q := if data != [] then p.(frames := p.frames + [(p.cur.value, data)]) else p;
    LineOfFinish(p, WriteFailed);
    LineOfFinish(q, SourceFailed);
    LineOfFinish(q, Played);
  }

  /** What has begun only grows at its end. */
  lemma BegunGrows(s: State, e: Event) returns (more: seq<Job>)
    requires Enabled(s, e)
    ensures Begun(Next(s, e).p) == Begun(s.p) + more
  {
    match e {
      case Take => BegunOfHandle(s.p, s.ctrl[0]);
      case Play(data, err, writes) => BegunOfPlay(s.p, data, err, writes);
      case Idle(_) => LineOfEnd(s.p, WriteFailed);
      case _ =>
    }
    more := Begun(Next(s, e).p)[|Begun(s.p)|..];
  }

  ghost predicate FramesSound(p: Player) { InOrderOf(p.frames, Begun(p)) && Distinct(Line(p)) }

  lemma NextKeepsFrames(s: State, e: Event)
    requires Enabled(s, e) && FramesSound(s.p)
    ensures InOrderOf(Next(s, e).p.frames, Begun(Next(s, e).p))
  {
    var more := BegunGrows(s, e);
    InOrderOfMore(s.p.frames, Begun(s.p), more);
    if e.Play? && Next(s, e).p.frames != s.p.frames {
      var done, cur := Jobs(s.p.results), s.p.cur.value;
      CurrentIsNew(s.p);
      NextFrameInOrder(s.p.frames, done, cur, e.data);
      InOrderOfMore(s.p.frames + [(cur, e.data)], Begun(s.p), more);
    }
  }

  lemma CurrentIsNew(p: Player)
    requires Distinct(Line(p)) && p.cur.Some?
    ensures p.cur.value !in Jobs(p.results)
  {
    assert Line(p)[|p.results|] == p.cur.value;
    assert forall i :: 0 <= i < |p.results| ==> Line(p)[i] == Jobs(p.results)[i];
  }

  lemma LineDistinct(s: State)
    requires Inv(s)
    ensures Distinct(Line(s.p))
  {
    DistinctMultiset(s.sent);
    forall job ensures multiset(Line(s.p))[job] <= 1 { SentCounts(s, job); }
    DistinctMultiset(Line(s.p));
  }

  lemma {:induction false} RunKeepsFrames(s: State, events: seq<Event>, t: State)
    requires Inv(s) && IsRun(s, events, t) && InOrderOf(s.p.frames, Begun(s.p))
    ensures InOrderOf(t.p.frames, Begun(t.p))
    decreases |events|
  {
    if events != [] {
      LineDistinct(s);
      NextKeepsFrames(s, events[0]);
      NextKeepsAccounts(s, events[0]);
      NextKeepsPlayer(s, events[0]);
      RunKeepsFrames(Next(s, events[0]), events[1..], t);
    }
  }

  /** In every run the frames come out job by job; unless a submission overtakes a stalled
      line, in the order of submission. */
  lemma FramesInSubmissionOrder(events: seq<Event>, t: State)
    requires IsRun(INITIAL, events, t)
    ensures InOrderOf(t.p.frames, Line(t.p))
    ensures !Overtakes(INITIAL, events) ==> InOrderOf(t.p.frames, t.p.taken)
    ensures ErrorFree(events) ==> InOrderOf(t.p.frames, t.p.taken) && Line(t.p) == t.p.taken
  {
    InitialInv();
    RunKeepsFrames(INITIAL, events, t);
    InOrderOfMore(t.p.frames, Begun(t.p), t.p.pending);
    OrderKeptIff(INITIAL, events, t);
    if ErrorFree(events) { ErrorFreeNeverStalls(INITIAL, events, t); }
  }

  /** Where two submissions lead whose first source breaks: stalled, the second waiting. */
  const STALLED := State([1, 2], [], [], Player([1, 2], None, [2], false, false, false, [Result(1, SourceFailed)], []))

  /** The first of them playing. */
  const ONE_PLAYS := State([1], [], [], Player([1], Some(1), [], false, true, false, [], []))

  lemma ReachesOnePlays(rest: seq<Event>, t: State) returns (events: seq<Event>)
    requires IsRun(ONE_PLAYS, rest, t)
    ensures IsRun(INITIAL, events, t)
  {
    var sent := State([1], [], [Submit(1)], INITIAL.p);
    assert Next(INITIAL, Send(Submit(1))) == sent && Next(sent, Take) == ONE_PLAYS;
    events := RunOnto(sent, Take, rest, t);
    events := RunOnto(INITIAL, Send(Submit(1)), events, t);
  }

  lemma ReachesStalled(rest: seq<Event>, t: State) returns (events: seq<Event>)
    requires IsRun(STALLED, rest, t)
    ensures IsRun(ONE_PLAYS, events, t)
  {
    var sent := State([1, 2], [], [Submit(2)], ONE_PLAYS.p);
    var two := State([1, 2], [], [], Player([1, 2], Some(1), [2], false, true, false, [], []));
    assert Next(ONE_PLAYS, Send(Submit(2))) == sent && Next(sent, Take) == two;
    assert Next(two, Play([], Broken, true)) == STALLED;
    events := RunOnto(two, Play([], Broken, true), rest, t);
    events := RunOnto(sent, Take, events, t);
    events := RunOnto(ONE_PLAYS, Send(Submit(2)), events, t);
  }

  /** Two jobs wait, the first breaks, a third is submitted: it is heard before the second. */
  lemma LaterSubmissionOvertakes() returns (events: seq<Event>, t: State)
    ensures IsRun(INITIAL, events, t) && t.sent == t.p.taken == [1, 2, 3] && Line(t.p) == [1, 3, 2]
    ensures t.p.frames == [(3, [0])]
  {
    var sent := Next(STALLED, Send(Submit(3)));
    var taken := Next(sent, Take);
    t := Next(taken, Play([0], NoError, true));
    events := [];
    assert IsRun(t, [], t);
    events := RunOnto(taken, Play([0], NoError, true), events, t);
    events := RunOnto(sent, Take, events, t);
    events := RunOnto(STALLED, Send(Submit(3)), events, t);
    events := ReachesStalled(events, t);
    events := ReachesOnePlays(events, t);
  }

  lemma RunOnto(s: State, e: Event, rest: seq<Event>, t: State) returns (events: seq<Event>)
    requires Enabled(s, e) && IsRun(Next(s, e), rest, t)
    ensures IsRun(s, events, t) && events == [e] + rest
  {
    events := [e] + rest;
    assert events[1..] == rest;
  }

  // --------------------------------------------- what the steps do

  /** The operation a step takes off ctrl. */
  function OpOf(s: State, e: Event): seq<Op> { if e.Take? && s.ctrl != [] then [s.ctrl[0]] else [] }

  /** The operations taken in the course of a run. */
  ghost function TakenOps(s: State, events: seq<Event>): seq<Op>
    decreases |events|
  {
    if events == [] || !Enabled(s, events[0]) then [] else OpOf(s, events[0]) + TakenOps(Next(s, events[0]), events[1..])
  }

  /** The operation a step puts on ctrl, if there is room. */
  function PutOn(s: State, e: Event): seq<Op> { if e.Send? && |s.ctrl| < 64 then [e.op] else [] }

  /** The operations that found room in ctrl. */
  ghost function Accepted(s: State, events: seq<Event>): seq<Op>
    decreases |events|
  {
    if events == [] || !Enabled(s, events[0]) then []
    else PutOn(s, events[0]) + Accepted(Next(s, events[0]), events[1..])
  }

  /** ctrl is a queue: what was accepted is taken in that order, or still waits. */
  lemma {:induction false} CtrlIsAQueue(s: State, events: seq<Event>, t: State)
    requires IsRun(s, events, t) && |s.ctrl| <= 64
    ensures s.ctrl + Accepted(s, events) == TakenOps(s, events) + t.ctrl && |t.ctrl| <= 64
    decreases |events|
  {
    if events != [] {
      var u := Next(s, events[0]);
      CtrlIsAQueue(u, events[1..], t);
      CtrlStep(s, events[0]);
      Requeue(s.ctrl, PutOn(s, events[0]), OpOf(s, events[0]), u.ctrl, Accepted(u, events[1..]), TakenOps(u, events[1..]), t.ctrl);
    }
  }

  lemma CtrlStep(s: State, e: Event)
    requires Enabled(s, e) && |s.ctrl| <= 64
    ensures s.ctrl + PutOn(s, e) == OpOf(s, e) + Next(s, e).ctrl && |Next(s, e).ctrl| <= 64
  {
  }

  lemma Requeue(a: seq<Op>, x: seq<Op>, y: seq<Op>, b: seq<Op>, more: seq<Op>, taken: seq<Op>, c: seq<Op>)
    requires a + x == y + b && b + more == taken + c
    ensures a + (x + more) == (y + taken) + c
  {
    assert a + (x + more) == (a + x) + more == y + (b + more);
  }

  /** A Submit and a Shutdown wait for room; any other operation is lost without it. */
  lemma OnlyOthersAreLost(s: State, op: Op)
    requires Enabled(s, Send(op))
    ensures Next(s, Send(op)).ctrl == (if op.Submit? || op.Shutdown? || |s.ctrl| < 64 then s.ctrl + [op] else s.ctrl)
    ensures (op.Submit? || op.Shutdown?) ==> |s.ctrl| < 64
  {
  }

  /** A Pause that no Resume follows. */
  ghost predicate LastIsPause(ops: seq<Op>, i: nat)
    requires i < |ops|
  {
    ops[i].Pause? && forall j :: i < j < |ops| ==> !ops[j].Resume?
  }

  /** The last Pause or Resume is a Pause. */
  ghost predicate LeavesPaused(ops: seq<Op>) { exists i :: 0 <= i < |ops| && LastIsPause(ops, i) }

  lemma {:induction false} PausedFrom(s: State, events: seq<Event>, t: State)
    requires IsRun(s, events, t)
    ensures t.p.paused <==> LeavesPaused(TakenOps(s, events)) || (s.p.paused && Resume !in TakenOps(s, events))
    decreases |events|
  {
    if events != [] {
      var u := Next(s, events[0]);
      PausedFrom(u, events[1..], t);
      PauseStep(s, events[0]);
      var first, rest := OpOf(s, events[0]), TakenOps(u, events[1..]);
      assert TakenOps(s, events) == first + rest;
      if first == [] {
        assert first + rest == rest;
      } else {
        LeavesPausedCons(first[0], rest);
        assert first + rest == [first[0]] + rest;
      }
    }
  }

  lemma PauseStep(s: State, e: Event)
    requires Enabled(s, e)
    ensures var ops := OpOf(s, e); Next(s, e).p.paused <==> ops == [Pause] || (s.p.paused && ops != [Resume])
  {
  }

  lemma LeavesPausedCons(op: Op, rest: seq<Op>)
    ensures LeavesPaused([op] + rest) <==> LeavesPaused(rest) || (op.Pause? && Resume !in rest)
  {
    if LeavesPaused(rest) { PausedLater(op, rest); }
    if op.Pause? && Resume !in rest { assert LastIsPause([op] + rest, 0); }
    if LeavesPaused([op] + rest) { PausedNowOrLater(op, rest); }
  }

  lemma PausedLater(op: Op, rest: seq<Op>)
    requires LeavesPaused(rest)
    ensures LeavesPaused([op] + rest)
  {
    var i :| 0 <= i < |rest| && LastIsPause(rest, i);
    assert LastIsPause([op] + rest, i + 1);
  }

  lemma PausedNowOrLater(op: Op, rest: seq<Op>)
    requires LeavesPaused([op] + rest)
    ensures LeavesPaused(rest) || (op.Pause? && Resume !in rest)
  {
    var ops := [op] + rest;
    var i :| 0 <= i < |ops| && LastIsPause(ops, i);
    if i > 0 {
      forall j | i - 1 < j < |rest| ensures !rest[j].Resume? { assert rest[j] == ops[j + 1]; }
      assert LastIsPause(rest, i - 1);
    } else {
      assert forall j :: 0 <= j < |rest| ==> rest[j] == ops[j + 1];
    }
  }

  /** The loop is paused exactly when the last Pause or Resume taken is a Pause; exactly then
      it does not read from a source it has. */
  lemma PausedIff(events: seq<Event>, t: State, data: Frame, err: SourceError, writes: bool)
    requires IsRun(INITIAL, events, t)
    ensures t.p.paused <==> LeavesPaused(TakenOps(INITIAL, events))
    ensures Enabled(t, Play(data, err, writes)) <==> !t.p.exited && t.p.cur.Some? && !LeavesPaused(TakenOps(INITIAL, events))
    ensures Enabled(t, Idle(writes)) <==> !t.p.exited && (t.p.cur.None? || LeavesPaused(TakenOps(INITIAL, events)))
  {
    PausedFrom(INITIAL, events, t);
  }

  /** Results are only added, and those added have one of the two outcomes. */
  ghost predicate AddsOnly(before: seq<Result>, after: seq<Result>, a: Outcome, b: Outcome) {
    before <= after && forall i :: |before| <= i < |after| ==> after[i].outcome == a || after[i].outcome == b
  }

  /** From a pause until a Resume is taken nothing is heard of any source, and none ends of
      itself. */
  lemma {:induction false} PausedIsSilent(s: State, events: seq<Event>, t: State)
    requires IsRun(s, events, t) && s.p.paused && Resume !in TakenOps(s, events)
    ensures t.p.paused && t.p.frames == s.p.frames && AddsOnly(s.p.results, t.p.results, Interrupted, WriteFailed)
    decreases |events|
  {
    if events != [] {
      var u := Next(s, events[0]);
      assert TakenOps(s, events) == OpOf(s, events[0]) + TakenOps(u, events[1..]);
      PausedStep(s, events[0]);
      PausedIsSilent(u, events[1..], t);
    }
  }

  lemma PausedStep(s: State, e: Event)
    requires Enabled(s, e) && s.p.paused && OpOf(s, e) != [Resume]
    ensures var p := Next(s, e).p;
            p.paused && p.frames == s.p.frames && AddsOnly(s.p.results, p.results, Interrupted, WriteFailed)
  {
  }

  /** Pause and Resume change nothing else: the current source is kept and can be read again
      after a Resume. */
  lemma PauseKeepsTheSource(s: State, data: Frame, err: SourceError, writes: bool)
    requires Enabled(s, Take) && (s.ctrl[0].Pause? || s.ctrl[0].Resume?)
    ensures var t := Next(s, Take);
            && t.p == s.p.(paused := s.ctrl[0].Pause?)
            && (Enabled(t, Play(data, err, writes)) <==> s.p.cur.Some? && s.ctrl[0].Resume?)
  {
  }

  /** The frames read and written, each with the job then current. */
  ghost function Heard(s: State, events: seq<Event>): seq<(Job, Frame)>
    decreases |events|
  {
    if events == [] || !Enabled(s, events[0]) then []
    else
      var e := events[0];
      (if e.Play? && e.data != [] && e.writes then [(s.p.cur.value, e.data)] else []) + Heard(Next(s, e), events[1..])
  }

  /** What goes out is what the current source gave in each turn, if it could be written. */
  lemma {:induction false} FramesAreThoseRead(s: State, events: seq<Event>, t: State)
    requires IsRun(s, events, t)
    ensures t.p.frames == s.p.frames + Heard(s, events)
    decreases |events|
  {
    if events != [] {
      var e := events[0];
      var u := Next(s, e);
      FramesAreThoseRead(u, events[1..], t);
      assert u.p.frames == s.p.frames + if e.Play? && e.data != [] && e.writes then [(s.p.cur.value, e.data)] else [];
    }
  }

  /** Unfinished jobs in the hands of the loop. */
  predicate Holds(s: State, job: Job) { s.p.cur == Some(job) || job in s.p.pending }

  /** The step that gives a job its result. */
  predicate Earns(s: State, e: Event, job: Job, o: Outcome)
    requires Enabled(s, e)
  {
    match o
    case Played => e.Play? && s.p.cur == Some(job) && e.err.EOF? && (e.data == [] || e.writes)
    case SourceFailed => e.Play? && s.p.cur == Some(job) && e.err.Broken? && (e.data == [] || e.writes)
    case Interrupted => e.Take? && Holds(s, job) && (s.ctrl[0].Clear? || s.ctrl[0].Shutdown?)
    case WriteFailed =>
      (e.Play? && s.p.cur == Some(job) && (e.data != [] || e.err.NoError?) && !e.writes) || (e.Idle? && Holds(s, job) && !e.writes)
  }

  ghost predicate Earned(s: State, events: seq<Event>, job: Job, o: Outcome)
    decreases |events|
  {
    && events != [] && Enabled(s, events[0])
    && (Earns(s, events[0], job, o) || Earned(Next(s, events[0]), events[1..], job, o))
  }

  lemma InAllWith(jobs: seq<Job>, with: Outcome, job: Job, o: Outcome)
    ensures Result(job, o) in AllWith(jobs, with) <==> job in jobs && o == with
  {
    if job in jobs && o == with {
      var i :| 0 <= i < |jobs| && jobs[i] == job;
      assert AllWith(jobs, with)[i] == Result(job, o);
    }
  }

  lemma EarnedInStep(s: State, e: Event, job: Job, o: Outcome)
    requires Enabled(s, e)
    ensures Result(job, o) in Next(s, e).p.results <==> Result(job, o) in s.p.results || Earns(s, e, job, o)
  {
    match e {
      case Take => EndedWith(s.p, Interrupted, job, o);
      case Play(data, err, writes) => EarnedByPlay(s.p, data, err, writes, job, o);
      case Idle(_) => EndedWith(s.p, WriteFailed, job, o);
      case _ =>
    }
  }

  lemma EarnedByPlay(p: Player, data: Frame, err: SourceError, writes: bool, job: Job, o: Outcome)
    requires p.cur.Some?
    ensures Result(job, o) in PlayTurn(p, data, err, writes).results <==>
              || Result(job, o) in p.results
              || (p.cur == Some(job) && if (data != [] || err.NoError?) && !writes then o == WriteFailed
                                        else (err.EOF? && o == Played) || (err.Broken? && o == SourceFailed))
  {
    InAllWith(Current(p), Played, job, o);
    InAllWith(Current(p), SourceFailed, job, o);
    InAllWith(Current(p), WriteFailed, job, o);
  }

  lemma EndedWith(p: Player, with: Outcome, job: Job, o: Outcome)
    ensures Result(job, o) in Finish(p, with).results <==> Result(job, o) in p.results || (p.cur == Some(job) && o == with)
    ensures Result(job, o) in DropPending(Finish(p, with), with).results <==>
              Result(job, o) in p.results || ((p.cur == Some(job) || job in p.pending) && o == with)
  {
    InAllWith(Current(p), with, job, o);
    InAllWith(p.pending, with, job, o);
  }

  /** Which result a job has: nil from the end of its source, the source's error, a failed
      write, or ErrInterrupted from a Clear or Shutdown that found it unfinished. */
  lemma {:induction false} ResultIff(s: State, events: seq<Event>, t: State, job: Job, o: Outcome)
    requires IsRun(s, events, t)
    ensures Result(job, o) in t.p.results <==> Result(job, o) in s.p.results || Earned(s, events, job, o)
    decreases |events|
  {
    if events != [] {
      EarnedInStep(s, events[0], job, o);
      ResultIff(Next(s, events[0]), events[1..], t, job, o);
    }
  }

  // --------------------------------------------------------- the loop

  /** What a turn does once the waiting operations are taken. */
  function FrameOf(s: State, data: Frame, err: SourceError, writes: bool): Event {
    if s.p.cur.Some? && !s.p.paused then Play(data, err, writes) else Idle(writes)
  }

  /** The operations waiting are taken, up to a shutdown; unless there was one, a frame goes
      out. */
  ghost predicate IsTurn(s: State, takes: seq<Event>, m: State, frame: Event, t: State) {
    && IsRun(s, takes, m) && (forall e :: e in takes ==> e.Take?) && (m.p.exited || m.ctrl == [])
    && if m.p.exited then t == m else Enabled(m, frame) && t == Next(m, frame)
  }

  /** The local variables of run, with the channel it reads. */
  class OutputStream {
    var ctrl: seq<Op>
    var cur: Option<Job>
    var pending: seq<Job>
    var paused: bool
    var playing: bool
    var exited: bool
    ghost var sent: seq<Job>
    ghost var refused: seq<Job>
    ghost var taken: seq<Job>
    var results: seq<Result>
    var frames: seq<(Job, Frame)>

    ghost function P(): Player
      reads this
    {
      Player(taken, cur, pending, paused, playing, exited, results, frames)
    }

    ghost function S(): State
      reads this
    {
      State(sent, refused, ctrl, P())
    }

    constructor ()
      ensures S() == INITIAL
    {
      ctrl, cur, pending, paused, playing, exited := [], None, [], false, false, false;
      sent, refused, taken, results, frames := [], [], [], [], [];
    }

    method FinishCurrent(o: Outcome)
      modifies this
      ensures S() == old(S()).(p := Finish(old(P()), o))
    {
      if cur.Some? {
        results := results + [Result(cur.value, o)];
        cur := None;
      }
      playing := false;
    }

    method DropAllPending(o: Outcome)
      modifies this
      ensures S() == old(S()).(p := DropPending(old(P()), o))
    {
      ghost var before := results;
      for i := 0 to |pending|
        invariant pending == old(pending) && S() == old(S()).(p := old(P()).(results := results))
        invariant results == before + AllWith(pending[..i], o)
      {
        results := results + [Result(pending[i], o)];
      }
      assert pending[..|pending|] == pending;
      pending := [];
    }

    method PromoteNext()
      modifies this
      ensures S() == old(S()).(p := Promote(old(P())))
    {
      if pending != [] {
        cur, pending, playing := Some(pending[0]), pending[1..], true;
      }
    }

    method HandleOp(op: Op)
      modifies this
      ensures S() == old(S()).(p := Handle(old(P()), op))
    {
      match op {
        case Shutdown =>
          FinishCurrent(Interrupted);
          DropAllPending(Interrupted);
          exited := true;
        case Clear =>
          FinishCurrent(Interrupted);
          DropAllPending(Interrupted);
        case Pause => paused := true;
        case Resume => paused := false;
        case Submit(job) =>
          taken := taken + [job];
          if cur.None? {
            cur, playing := Some(job), true;
          } else {
            pending := pending + [job];
          }
      }
    }

    /** drainOps: the operations waiting, up to a shutdown, one Take each. */
    method DrainOps() returns (ghost takes: seq<Event>)
      requires !exited
      modifies this
      ensures IsRun(old(S()), takes, S()) && (exited || ctrl == [])
      ensures forall e :: e in takes ==> e.Take?
    {
      takes := [];
      while ctrl != [] && !exited
        invariant IsRun(old(S()), takes, S()) && forall e :: e in takes ==> e.Take?
        decreases |ctrl|
      {
        ghost var s := S();
        var op := ctrl[0];
        ctrl := ctrl[1..];
        HandleOp(op);
        RunThen(old(S()), takes, s, Take);
        takes := takes + [Take];
      }
    }

    /** One turn of run: the waiting operations, then a frame of the current source or of
        silence. data, err: what NextFrame returns if it is called. */
    method Turn(data: Frame, err: SourceError, writes: bool) returns (ghost takes: seq<Event>, ghost m: State)
      requires !exited
      modifies this
      ensures IsTurn(old(S()), takes, m, FrameOf(m, data, err, writes), S())
    {
      takes := DrainOps();
      m := S();
      if exited {
        return;
      }
      if cur.Some? && !paused {
        PlayFrame(cur.value, data, err, writes);
      } else if !writes {
        FinishCurrent(WriteFailed);
        DropAllPending(WriteFailed);
        exited := true;
      }
    }

    /** The active path of run. */
    method PlayFrame(job: Job, data: Frame, err: SourceError, writes: bool)
      requires cur == Some(job)
      modifies this
      ensures S() == old(S()).(p := PlayTurn(old(P()), data, err, writes))
    {
      if data != [] {
        if !writes {
          FinishCurrent(WriteFailed);
          return;
        }
        frames := frames + [(job, data)];
      } else if err.NoError? && !writes {
        FinishCurrent(WriteFailed);
        return;
      }
      match err {
        case EOF =>
          FinishCurrent(Played);
          PromoteNext();
        case Broken => FinishCurrent(SourceFailed);
        case NoError =>
      }
    }
  }

  /** A turn is a run of the steps above. */
  lemma TurnIsARun(s: State, takes: seq<Event>, m: State, frame: Event, t: State)
    requires IsTurn(s, takes, m, frame, t)
    ensures IsRun(s, if m.p.exited then takes else takes + [frame], t)
  {
    if !m.p.exited { RunThen(s, takes, m, frame); }
  }

  lemma {:induction false} RunThen(s: State, events: seq<Event>, t: State, e: Event)
    requires IsRun(s, events, t) && Enabled(t, e)
    ensures IsRun(s, events + [e], Next(t, e))
    decreases |events|
  {
    if events == [] {
      assert IsRun(Next(s, e), [], Next(s, e));
      assert (events + [e])[1..] == [];
    } else {
      RunThen(Next(s, events[0]), events[1..], t, e);
      assert (events + [e])[1..] == events[1..] + [e];
    }
  }
}
