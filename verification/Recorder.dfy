// core/sip/recorder.go recorder and stereoWavWriter: a stereo file with the caller on the
// left and the outbound frames, which set the pace, on the right.
module Recorders {
  import opened Rings

  const FRAME_BYTES := 320
  const RING_BYTES := 4 * FRAME_BYTES
  const TWO_TO_32 := 0x1_0000_0000

  // ------------------------------------------------ stereo as values

  /** The first n bytes of q, with zeros for those it does not have. */
  function Padded(q: seq<Byte>, n: nat): (left: seq<Byte>)
    ensures |left| == n
  {
    q[..Min(n, |q|)] + seq(n - Min(n, |q|), _ => 0)
  }

  /** Whole samples of two channels, two bytes of each in turn. */
  function Stereo(left: seq<Byte>, right: seq<Byte>): (s: seq<Byte>)
    requires |left| == |right|
    ensures |s| == |right| / 2 * 4
  {
    seq(|right| / 2 * 4, j requires 0 <= j < |right| / 2 * 4 =>
      if j % 4 < 2 then left[j / 4 * 2 + j % 4] else right[j / 4 * 2 + j % 4 - 2])
  }

  /** Two bytes of every four, from offset k. */
  function Channel(s: seq<Byte>, k: nat): seq<Byte>
    requires k <= 2
  {
    seq(|s| / 4 * 2, i requires 0 <= i < |s| / 4 * 2 => s[i / 2 * 4 + i % 2 + k])
  }

  function LeftChannel(s: seq<Byte>): seq<Byte> { Channel(s, 0) }

  function RightChannel(s: seq<Byte>): seq<Byte> { Channel(s, 2) }

  lemma ChannelsOfStereo(left: seq<Byte>, right: seq<Byte>)
    requires |left| == |right| && |right| % 2 == 0
    ensures LeftChannel(Stereo(left, right)) == left && RightChannel(Stereo(left, right)) == right
  {
    var s := Stereo(left, right);
    forall i | 0 <= i < |right| ensures LeftChannel(s)[i] == left[i] && RightChannel(s)[i] == right[i] {
      var j := i / 2 * 4 + i % 2;
      assert j / 4 == i / 2 && j % 4 == i % 2 && (j + 2) / 4 == i / 2 && (j + 2) % 4 == i % 2 + 2;
    }
  }

  lemma ChannelsAppend(a: seq<Byte>, b: seq<Byte>)
    requires |a| % 4 == 0
    ensures LeftChannel(a + b) == LeftChannel(a) + LeftChannel(b)
    ensures RightChannel(a + b) == RightChannel(a) + RightChannel(b)
  {
    ChannelAppend(a, b, 0);
    ChannelAppend(a, b, 2);
  }

  lemma ChannelAppend(a: seq<Byte>, b: seq<Byte>, k: nat)
    requires |a| % 4 == 0 && k <= 2
    ensures Channel(a + b, k) == Channel(a, k) + Channel(b, k)
  {
    var n, whole, parts := |a| / 4, Channel(a + b, k), Channel(a, k) + Channel(b, k);
    assert |whole| == |parts|;
    forall i | 0 <= i < |whole| ensures whole[i] == parts[i] {
      Places(n, i, k);
      if i < 2 * n {
        assert (a + b)[i / 2 * 4 + i % 2 + k] == a[i / 2 * 4 + i % 2 + k];
      } else {
        assert parts[i] == b[(i - 2 * n) / 2 * 4 + (i - 2 * n) % 2 + k];
      }
    }
  }

  lemma Places(n: nat, i: nat, k: nat)
    requires k <= 2
    ensures i < 2 * n ==> i / 2 * 4 + i % 2 + k < 4 * n
    ensures i >= 2 * n ==> i / 2 * 4 + i % 2 == 4 * n + ((i - 2 * n) / 2 * 4 + (i - 2 * n) % 2)
  {
  }

  // --------------------------------------------------- runs of frames

  /** Inbound audio, decoded, and outbound frames. */
  datatype Feed = In(bytes: seq<Byte>) | Out(frame: seq<Byte>)

  datatype Tape = Tape(queue: seq<Byte>, data: seq<Byte>)

  /** One feed while recording, for frames of whole samples. */
  function Fed(t: Tape, f: Feed): Tape {
    match f
    case In(bytes) => t.(queue := DropOldest(t.queue + bytes, RING_BYTES))
    case Out(frame) =>
      if |frame| > FRAME_BYTES then t
      else Tape(t.queue[Min(|frame|, |t.queue|)..], t.data + Stereo(Padded(t.queue, |frame|), frame))
  }

  function FedAll(t: Tape, feeds: seq<Feed>): Tape
    decreases |feeds|
  {
    if feeds == [] then t else FedAll(Fed(t, feeds[0]), feeds[1..])
  }

  predicate WholeFrames(feeds: seq<Feed>) {
    forall i :: 0 <= i < |feeds| ==> feeds[i].Out? ==> |feeds[i].frame| % 2 == 0
  }

  /** The frames recorded: those of at most 320 bytes. */
  function Outbound(feeds: seq<Feed>): seq<Byte> {
    if feeds == [] then [] else (if feeds[0].Out? && |feeds[0].frame| <= 320 then feeds[0].frame else []) + Outbound(feeds[1..])
  }

  function Inbound(feeds: seq<Feed>): seq<Byte> {
    if feeds == [] then [] else (if feeds[0].In? then feeds[0].bytes else []) + Inbound(feeds[1..])
  }

  /** What the frames recorded find in the queue of the newest 1280 inbound bytes, with
      silence for what is missing. */
  function Heard(queue: seq<Byte>, feeds: seq<Feed>): seq<Byte>
    decreases |feeds|
  {
    if feeds == [] then []
    else
      match feeds[0]
      case In(bytes) =>
        var all := queue + bytes;
        Heard(if |all| > 1280 then all[|all| - 1280..] else all, feeds[1..])
      case Out(frame) =>
        if |frame| > 320 then Heard(queue, feeds[1..])
        else if |frame| <= |queue| then queue[..|frame|] + Heard(queue[|frame|..], feeds[1..])
        else queue + seq(|frame| - |queue|, _ => 0) + Heard([], feeds[1..])
  }

  lemma FedOneFrame(t: Tape, frame: seq<Byte>)
    requires |frame| % 2 == 0 && |frame| <= FRAME_BYTES && |t.data| % 4 == 0
    ensures Adds(t, Fed(t, Out(frame)), Padded(t.queue, |frame|), frame)
  {
    ChannelsOfStereo(Padded(t.queue, |frame|), frame);
    ChannelsAppend(t.data, Stereo(Padded(t.queue, |frame|), frame));
  }

  /** The data of u is that of t with two channels appended. */
  ghost predicate Adds(t: Tape, u: Tape, left: seq<Byte>, right: seq<Byte>) {
    && RightChannel(u.data) == RightChannel(t.data) + right && LeftChannel(u.data) == LeftChannel(t.data) + left
    && |u.data| == |t.data| + 2 * |right|
  }

  lemma AddsTwice(t: Tape, u: Tape, v: Tape, l1: seq<Byte>, r1: seq<Byte>, l2: seq<Byte>, r2: seq<Byte>)
    requires Adds(t, u, l1, r1) && Adds(u, v, l2, r2)
    ensures Adds(t, v, l1 + l2, r1 + r2)
  {
  }

  /** What one feed adds to the two channels. */
  function LeftOf(queue: seq<Byte>, f: Feed): seq<Byte> {
    if f.Out? && |f.frame| <= FRAME_BYTES then Padded(queue, |f.frame|) else []
  }

  function RightOf(f: Feed): seq<Byte> { if f.Out? && |f.frame| <= FRAME_BYTES then f.frame else [] }

  lemma FedOne(t: Tape, f: Feed)
    requires (f.Out? ==> |f.frame| % 2 == 0) && |t.data| % 4 == 0
    ensures Adds(t, Fed(t, f), LeftOf(t.queue, f), RightOf(f))
  {
    if f.Out? && |f.frame| <= FRAME_BYTES {
      FedOneFrame(t, f.frame);
    } else {
      assert RightChannel(t.data) + [] == RightChannel(t.data) && LeftChannel(t.data) + [] == LeftChannel(t.data);
    }
  }

  lemma HeardIn(queue: seq<Byte>, bytes: seq<Byte>, feeds: seq<Feed>)
    requires feeds != [] && feeds[0] == In(bytes)
    ensures Heard(queue, feeds) == Heard(DropOldest(queue + bytes, RING_BYTES), feeds[1..])
  {
  }

  lemma HeardOut(queue: seq<Byte>, frame: seq<Byte>, feeds: seq<Feed>)
    requires feeds != [] && feeds[0] == Out(frame)
    ensures Heard(queue, feeds) ==
              if |frame| > FRAME_BYTES then Heard(queue, feeds[1..])
              else Padded(queue, |frame|) + Heard(queue[Min(|frame|, |queue|)..], feeds[1..])
  {
    if |frame| <= |queue| {
      assert Padded(queue, |frame|) == queue[..|frame|];
    } else {
      assert Padded(queue, |frame|) == queue + seq(|frame| - |queue|, _ => 0);
      assert queue[|queue|..] == [];
    }
  }

  lemma HeardOne(t: Tape, feeds: seq<Feed>)
    requires feeds != []
    ensures Heard(t.queue, feeds) == LeftOf(t.queue, feeds[0]) + Heard(Fed(t, feeds[0]).queue, feeds[1..])
    ensures Outbound(feeds) == RightOf(feeds[0]) + Outbound(feeds[1..])
  {
    match feeds[0] {
      case In(bytes) => HeardIn(t.queue, bytes, feeds);
      case Out(frame) => HeardOut(t.queue, frame, feeds);
    }
    NothingFirst(Heard(t.queue, feeds));
  }

  lemma NothingFirst(s: seq<Byte>)
    ensures [] + s == s
  {
  }

  /** Over any run, the right channel is the outbound frames end to end and the left what
      they found inbound; the channels stay equally long. */
  lemma {:induction false} ChannelsOfRun(t: Tape, feeds: seq<Feed>)
    requires WholeFrames(feeds) && |t.data| % 4 == 0
    ensures Adds(t, FedAll(t, feeds), Heard(t.queue, feeds), Outbound(feeds))
    decreases |feeds|
  {
    if feeds == [] {
      assert RightChannel(t.data) + [] == RightChannel(t.data) && LeftChannel(t.data) + [] == LeftChannel(t.data);
    } else {
      forall i | 0 <= i < |feeds[1..]| ensures feeds[1..][i] == feeds[i + 1] {}
      var u := Fed(t, feeds[0]);
      assert feeds[0].Out? ==> |feeds[0].frame| % 2 == 0;
      FedOne(t, feeds[0]);
      ChannelsOfRun(u, feeds[1..]);
      HeardOne(t, feeds);
      AddsTwice(t, u, FedAll(t, feeds), LeftOf(t.queue, feeds[0]), RightOf(feeds[0]), Heard(u.queue, feeds[1..]), Outbound(feeds[1..]));
    }
  }

  /** No feed overruns the ring and no frame finds it short. */
  predicate Smooth(queue: seq<Byte>, feeds: seq<Feed>)
    decreases |feeds|
  {
    feeds == [] ||
      match feeds[0]
      case In(bytes) => |queue| + |bytes| <= 1280 && Smooth(queue + bytes, feeds[1..])
      case Out(frame) => |frame| <= |queue| && |frame| <= 320 && Smooth(queue[|frame|..], feeds[1..])
  }

  lemma SmoothIn(queue: seq<Byte>, bytes: seq<Byte>, inbound: seq<Byte>)
    ensures (queue + bytes) + inbound == queue + (bytes + inbound)
  {
  }

  lemma SmoothOut(queue: seq<Byte>, n: nat, heard: seq<Byte>, left: seq<Byte>, inbound: seq<Byte>)
    requires n <= |queue| && heard + left == queue[n..] + inbound
    ensures (queue[..n] + heard) + left == queue + inbound
  {
    assert (queue[..n] + heard) + left == queue[..n] + (heard + left);
    assert queue[..n] + (queue[n..] + inbound) == queue + inbound;
  }

  /** Then the left channel is the inbound audio itself, up to what is still queued. */
  lemma {:induction false} NothingLostWhenSmooth(t: Tape, feeds: seq<Feed>)
    requires Smooth(t.queue, feeds)
    ensures Heard(t.queue, feeds) + FedAll(t, feeds).queue == t.queue + Inbound(feeds)
    decreases |feeds|
  {
    if feeds == [] {
      assert [] + t.queue == t.queue + Inbound([]);
    } else {
      var rest, u := feeds[1..], Fed(t, feeds[0]);
      NothingLostWhenSmooth(u, rest);
      match feeds[0] {
        case In(bytes) => SmoothIn(t.queue, bytes, Inbound(rest));
        case Out(frame) =>
          SmoothOut(t.queue, |frame|, Heard(u.queue, rest), FedAll(u, rest).queue, Inbound(rest));
          assert [] + Inbound(rest) == Inbound(rest);
      }
    }
  }

  // ------------------------------------------------------- the recorder

  datatype RecordError = AlreadyRecording | NotRecording | CreateFailed

  datatype Outcome = Fine | Failed(error: RecordError)

  /** data: the bytes written behind the header of the open file. */
  class Recorder {
    const inbound: ByteRing
    const leftBuf: array<Byte>
    const stereoBuf: array<Byte>
    var active: bool
    var data: seq<Byte>
    var dataBytes: nat

    ghost predicate Valid()
      reads this, inbound, inbound.buf
    {
      && inbound.Valid() && inbound.buf.Length == RING_BYTES
      && leftBuf.Length == FRAME_BYTES && stereoBuf.Length == 2 * FRAME_BYTES
      && inbound.buf != leftBuf && leftBuf != stereoBuf && inbound.buf != stereoBuf
      && dataBytes == |data| % TWO_TO_32
    }

    ghost function T(): Tape
      requires inbound.Valid()
      reads this, inbound, inbound.buf
    {
      Tape(inbound.Contents(), data)
    }

    constructor ()
      ensures Valid() && !active && T() == Tape([], [])
      ensures fresh(inbound) && fresh(inbound.buf) && fresh(leftBuf) && fresh(stereoBuf)
    {
      inbound := new ByteRing(RING_BYTES);
      leftBuf := new Byte[FRAME_BYTES];
      stereoBuf := new Byte[2 * FRAME_BYTES];
      active, data, dataBytes := false, [], 0;
    }

    /** opens: whether the file and its decoder could be set up. */
    method Start(opens: bool) returns (r: Outcome)
      requires Valid()
      modifies this, inbound
      ensures Valid() && inbound.buf[..] == old(inbound.buf[..])
      ensures r == if old(active) then Failed(AlreadyRecording) else if opens then Fine else Failed(CreateFailed)
      ensures active <==> old(active) || opens
      ensures r.Fine? ==> T() == Tape([], [])
      ensures old(active) ==> T() == old(T())
    {
      if active {
        return Failed(AlreadyRecording);
      }
      inbound.Reset();
      if !opens {
        return Failed(CreateFailed);
      }
      active, data, dataBytes := true, [], 0;
      r := Fine;
    }

    /** Stop: the sizes patched into the RIFF and data chunks, modulo 2^32. */
    method Stop() returns (r: Outcome, riff: nat, size: nat)
      requires Valid()
      modifies this, inbound
      ensures Valid() && !active && data == old(data)
      ensures r == if old(active) then Fine else Failed(NotRecording)
      ensures r.Fine? ==> riff == (36 + |data|) % 0x1_0000_0000 && size == |data| % 0x1_0000_0000
      ensures T() == if old(active) then Tape([], old(data)) else old(T())
    {
      riff, size := 0, 0;
      if !active {
        return Failed(NotRecording), 0, 0;
      }
      active := false;
      riff, size := (36 + dataBytes) % TWO_TO_32, dataBytes;
      inbound.Reset();
      r := Fine;
    }

    method FeedInbound(decoded: seq<Byte>)
      requires Valid()
      modifies inbound, inbound.buf
      ensures Valid() && T() == if active then Fed(old(T()), In(decoded)) else old(T())
    {
      if !active {
        return;
      }
      var _ := inbound.Write(decoded);
    }

    /** FeedOutbound. The last two bytes for a frame of an odd number of bytes are left over
        from an earlier frame. */
    method FeedOutbound(frame: seq<Byte>)
      requires Valid()
      modifies this`data, this`dataBytes, inbound, leftBuf, stereoBuf
      ensures Valid()
      ensures !active || |frame| > FRAME_BYTES ==> T() == old(T())
      ensures active && |frame| <= FRAME_BYTES && |frame| % 2 == 0 ==> T() == Fed(old(T()), Out(frame))
      ensures active && |frame| <= FRAME_BYTES && |frame| % 2 == 1 ==>
                T() == Fed(old(T()), Out(frame)).(data := old(data) + Stereo(Padded(old(T()).queue, |frame|), frame)
                                                          + old(stereoBuf[2 * |frame| - 2..2 * |frame|]))
    {
      if !active || |frame| > leftBuf.Length {
        return;
      }
      ghost var t := T();
      PutBlock(frame, |frame|);
      assert |frame| % 2 == 0 ==> data == t.data + Stereo(Padded(t.queue, |frame|), frame);
    }

    /** The rest of it: one block of the file. */
    method PutBlock(frame: seq<Byte>, n: nat)
      requires Valid() && n == |frame| <= FRAME_BYTES
      modifies this`data, this`dataBytes, inbound, leftBuf, stereoBuf
      ensures Valid() && inbound.Contents() == old(inbound.Contents())[Min(n, |old(inbound.Contents())|)..]
      ensures data == old(data) + Block(Padded(old(inbound.Contents()), n), frame, old(stereoBuf[..]))
    {
      FillBlock(frame, n);
      Append(stereoBuf[..2 * n]);
    }

    method FillBlock(frame: seq<Byte>, n: nat)
      requires Valid() && n == |frame| <= FRAME_BYTES
      modifies inbound, leftBuf, stereoBuf
      ensures Valid() && inbound.Contents() == old(inbound.Contents())[Min(n, |old(inbound.Contents())|)..]
      ensures stereoBuf[..2 * n] == Block(Padded(old(inbound.Contents()), n), frame, old(stereoBuf[..]))
    {
      ghost var was := stereoBuf[..];
      FillLeft(n);
      ghost var left := leftBuf[..n];
      Interleave(frame, leftBuf[..n]);
      LeftOver(was, n, left, frame);
    }

    method Append(bytes: seq<Byte>)
      requires Valid()
      modifies `data, `dataBytes
      ensures Valid() && data == old(data) + bytes
    {
      WrapAround(|data|, |bytes|);
      data := data + bytes;
      dataBytes := (dataBytes + |bytes|) % TWO_TO_32;
    }

    /** The left half of a block: what the ring has, then silence. */
    method FillLeft(n: nat)
      requires Valid() && n <= FRAME_BYTES
      modifies inbound, leftBuf
      ensures Valid() && leftBuf[..n] == Padded(old(inbound.Contents()), n)
      ensures inbound.Contents() == old(inbound.Contents())[Min(n, |old(inbound.Contents())|)..]
    {
      ghost var queue := inbound.Contents();
      var got := inbound.Read(leftBuf, n);
      assert leftBuf[..got] == Padded(queue, got);
      Silence(got, n, queue);
    }

    method Silence(from: nat, n: nat, ghost queue: seq<Byte>)
      requires from <= n <= leftBuf.Length && leftBuf[..from] == Padded(queue, from) && (from < n ==> |queue| <= from)
      modifies leftBuf
      ensures leftBuf[..n] == Padded(queue, n)
    {
      for i := from to n
        invariant leftBuf[..i] == Padded(queue, i)
      {
        PaddedMore(queue, i);
        leftBuf[i] := 0;
        assert leftBuf[..i + 1] == leftBuf[..i] + [0];
      }
    }

    method Interleave(frame: seq<Byte>, left: seq<Byte>)
      requires |frame| == |left| <= FRAME_BYTES && stereoBuf.Length == 2 * FRAME_BYTES
      modifies stereoBuf
      ensures |Stereo(left, frame)| <= stereoBuf.Length && stereoBuf[..] == WrittenOver(Stereo(left, frame), old(stereoBuf[..]))
    {
      ghost var was := stereoBuf[..];
      StereoWoven(left, frame);
      Weave(frame, left, |frame| / 2, Stereo(left, frame));
      assert stereoBuf[..] == stereoBuf[..4 * (|frame| / 2)] + stereoBuf[4 * (|frame| / 2)..];
      assert was[4 * (|frame| / 2)..] == was[|Stereo(left, frame)|..];
    }

    /** The body of the loop: one sample of each channel. */
    method PutSample(at: nat, a: Byte, b: Byte, c: Byte, d: Byte)
      requires at + 3 < stereoBuf.Length
      modifies stereoBuf
      ensures stereoBuf[..at + 4] == old(stereoBuf[..at]) + [a, b, c, d]
      ensures stereoBuf[at + 4..] == old(stereoBuf[at + 4..])
    {
      stereoBuf[at] := a;
      stereoBuf[at + 1] := b;
      stereoBuf[at + 2] := c;
      stereoBuf[at + 3] := d;
    }

    /** The loop, with what it writes named; h counts its turns. */
    method Weave(frame: seq<Byte>, left: seq<Byte>, ghost n: nat, ghost stereo: seq<Byte>)
      requires |frame| == |left| && 2 * n <= |frame| < 2 * n + 2 && |stereo| == 4 * n <= stereoBuf.Length
      requires Woven(left, frame, n, stereo)
      modifies stereoBuf
      ensures stereoBuf[..4 * n] == stereo && stereoBuf[4 * n..] == old(stereoBuf[4 * n..])
    {
      ghost var before := stereoBuf[..];
      var i := 0;
      ghost var h: nat := 0;
      while i + 1 < |frame|
        invariant i == 2 * h && h <= n
        invariant stereoBuf[..4 * h] == stereo[..4 * h]
        invariant stereoBuf[4 * h..] == before[4 * h..]
      {
        assert WovenAt(left, frame, stereo, h);
        assert stereo[..4 * h + 4] == stereo[..4 * h] + [left[i], left[i + 1], frame[i], frame[i + 1]];
        PutSample(i * 2, left[i], left[i + 1], frame[i], frame[i + 1]);
        assert before[4 * h..][4..] == before[4 * h + 4..];
        i := i + 2;
        h := h + 1;
      }
    }
  }

  lemma PaddedMore(q: seq<Byte>, i: nat)
    requires |q| <= i
    ensures Padded(q, i + 1) == Padded(q, i) + [0]
  {
  }

  predicate WovenAt(left: seq<Byte>, right: seq<Byte>, s: seq<Byte>, h: nat)
    requires |left| == |right| && 2 * h + 1 < |right| && 4 * h + 3 < |s|
  {
    && s[4 * h] == left[2 * h] && s[4 * h + 1] == left[2 * h + 1]
    && s[4 * h + 2] == right[2 * h] && s[4 * h + 3] == right[2 * h + 1]
  }

  /** The first n samples of left and right in turn. */
  predicate Woven(left: seq<Byte>, right: seq<Byte>, n: nat, s: seq<Byte>)
    requires |left| == |right| && 2 * n <= |right| && |s| == 4 * n
  {
    forall h {:trigger WovenAt(left, right, s, h)} :: 0 <= h < n ==> WovenAt(left, right, s, h)
  }

  lemma StereoWoven(left: seq<Byte>, right: seq<Byte>)
    requires |left| == |right|
    ensures Woven(left, right, |right| / 2, Stereo(left, right))
  {
    forall h: nat | h < |right| / 2 ensures WovenAt(left, right, Stereo(left, right), h) { StereoAt(left, right, h); }
  }

  lemma StereoAt(left: seq<Byte>, right: seq<Byte>, h: nat)
    requires |left| == |right| && h < |right| / 2
    ensures 2 * h + 1 < |right| && 4 * h + 3 < |Stereo(left, right)| && WovenAt(left, right, Stereo(left, right), h)
  {
    FourTimes(h, 0);
    FourTimes(h, 1);
    FourTimes(h, 2);
    FourTimes(h, 3);
  }

  lemma FourTimes(h: nat, k: nat)
    requires k < 4
    ensures (4 * h + k) / 4 == h && (4 * h + k) % 4 == k
  {
  }

  function WrittenOver(block: seq<Byte>, was: seq<Byte>): seq<Byte>
    requires |block| <= |was|
  {
    block + was[|block|..]
  }

  /** Two bytes are left over behind the samples of a frame of an odd number of bytes. */
  function Block(left: seq<Byte>, frame: seq<Byte>, was: seq<Byte>): seq<Byte>
    requires |left| == |frame| && 2 * |frame| <= |was|
  {
    Stereo(left, frame) + if |frame| % 2 == 1 then was[2 * |frame| - 2..2 * |frame|] else []
  }

  lemma LeftOver(was: seq<Byte>, n: nat, left: seq<Byte>, frame: seq<Byte>)
    requires 2 * n <= |was| && |left| == |frame| == n
    ensures WrittenOver(Stereo(left, frame), was)[..2 * n] == Block(left, frame, was)
  {
    var stereo := Stereo(left, frame);
    if n % 2 == 1 {
      assert |stereo| == 2 * n - 2;
      assert was[|stereo|..][..2] == was[2 * n - 2..2 * n];
    } else {
      assert |stereo| == 2 * n && stereo + [] == stereo;
    }
  }

  lemma WrapAround(a: nat, b: nat)
    ensures (a % TWO_TO_32 + b) % TWO_TO_32 == (a + b) % TWO_TO_32
  {
  }
}
