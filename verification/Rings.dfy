// core/sip/recorder.go ringBuffer and the ring of core/audio/capture.go: one copies blocks in
// up to two pieces, the other moves element by element; both are a queue that drops its oldest.
module Rings {

  type Byte = bv8

  /** The newest cap elements of q. */
  function DropOldest<T>(q: seq<T>, cap: nat): (r: seq<T>)
    ensures |r| == if |q| > cap then cap else |q|
  {
    if |q| > cap then q[|q| - cap..] else q
  }

  function Min(a: nat, b: nat): nat { if a < b then a else b }

  /** Pushing the elements of p one at a time. */
  function Pushes<T>(q: seq<T>, p: seq<T>, cap: nat): seq<T>
    decreases |p|
  {
    if p == [] then DropOldest(q, cap) else Pushes(DropOldest(q + [p[0]], cap), p[1..], cap)
  }

  lemma PushesOne<T>(q: seq<T>, p: seq<T>, cap: nat)
    requires p != []
    ensures Pushes(q, p, cap) == Pushes(DropOldest(q + [p[0]], cap), p[1..], cap)
  {
  }

  lemma DropTwice<T>(q: seq<T>, p: seq<T>, cap: nat)
    ensures DropOldest(DropOldest(q, cap) + p, cap) == DropOldest(q + p, cap)
  {
  }

  /** A block written at once leaves what the same elements leave one at a time. */
  lemma {:induction false} BlockIsPushes<T>(q: seq<T>, p: seq<T>, cap: nat)
    ensures Pushes(q, p, cap) == DropOldest(q + p, cap)
    decreases |p|
  {
    if p == [] {
      assert q + p == q;
    } else {
      BlockIsPushes(DropOldest(q + [p[0]], cap), p[1..], cap);
      DropTwice(q + [p[0]], p[1..], cap);
      assert q + [p[0]] + p[1..] == q + p;
    }
  }

  // ------------------------------------------------- places in a ring

  /** x modulo cap, for the sums that occur. */
  function Wrap(x: nat, cap: nat): nat { if x < cap then x else x - cap }

  lemma WrapIsMod(x: nat, cap: nat)
    requires cap > 0 && x < 2 * cap
    ensures x % cap == Wrap(x, cap)
  {
    var q := x / cap;
    assert x == q * cap + x % cap;
    if q >= 1 { AtLeast(q, 1, cap); }
    if q >= 2 { AtLeast(q, 2, cap); }
  }

  lemma AtLeast(q: nat, k: nat, cap: nat)
    requires q >= k
    ensures q * cap >= k * cap
  {
    assert q * cap == (q - k) * cap + k * cap;
  }

  /** The n elements from place r on. */
  function Window<T>(buf: seq<T>, r: nat, n: nat): (q: seq<T>)
    requires n <= |buf| && r < |buf|
    ensures |q| == n
  {
    seq(n, i requires 0 <= i < n => buf[Wrap(r + i, |buf|)])
  }

  /** j is one of the n places from w on. */
  predicate Within(j: nat, w: nat, n: nat, cap: nat) { (w <= j && j - w < n) || (j < w && j + cap - w < n) }

  /** after differs from before by p, written from place w on. */
  ghost predicate Written<T>(before: seq<T>, after: seq<T>, w: nat, p: seq<T>)
    requires |after| == |before| && w < |before| && |p| <= |before|
  {
    && (forall t :: 0 <= t < |p| ==> after[Wrap(w + t, |before|)] == p[t])
    && forall j :: 0 <= j < |before| && !Within(j, w, |p|, |before|) ==> after[j] == before[j]
  }

  /** Writing p after the n elements from r, and dropping what was overrun. */
  lemma WriteIsEnqueue<T>(before: seq<T>, after: seq<T>, r: nat, n: nat, p: seq<T>, r': nat, n': nat)
    requires |after| == |before| && r < |before| && n <= |before| && |p| <= |before|
    requires Written(before, after, Wrap(r + n, |before|), p)
    requires n' == Min(n + |p|, |before|) && r' == Wrap(r + (n + |p| - n'), |before|)
    ensures Window(after, r', n') == DropOldest(Window(before, r, n) + p, |before|)
  {
    var cap, over, all := |before|, n + |p| - n', Window(before, r, n) + p;
    forall i | 0 <= i < n' ensures Window(after, r', n')[i] == all[i + over] {
      var k := i + over;
      if k < n {
        assert !Within(Wrap(r + k, cap), Wrap(r + n, cap), |p|, cap);
        assert Wrap(r' + i, cap) == Wrap(r + k, cap);
      } else {
        assert after[Wrap(Wrap(r + n, cap) + (k - n), cap)] == p[k - n];
        assert Wrap(r' + i, cap) == Wrap(Wrap(r + n, cap) + (k - n), cap);
      }
    }
    assert all[over..] == Window(after, r', n');
  }

  lemma WindowSplits<T>(buf: seq<T>, r: nat, n: nat, k: nat)
    requires r < |buf| && k <= n <= |buf|
    ensures Wrap(r + k, |buf|) < |buf| && Window(buf, Wrap(r + k, |buf|), n - k) == Window(buf, r, n)[k..]
    ensures Window(buf, r, k) == Window(buf, r, n)[..k]
  {
    var rest := Window(buf, Wrap(r + k, |buf|), n - k);
    forall i | 0 <= i < n - k ensures rest[i] == Window(buf, r, n)[k..][i] {
      assert Window(buf, r, n)[k..][i] == Window(buf, r, n)[k + i];
      assert Wrap(Wrap(r + k, |buf|) + i, |buf|) == Wrap(r + (k + i), |buf|);
    }
  }

  /** buf with p copied to place at. */
  function Copied<T>(buf: seq<T>, at: nat, p: seq<T>): (after: seq<T>)
    requires at + |p| <= |buf|
    ensures |after| == |buf|
  {
    seq(|buf|, i requires 0 <= i < |buf| => if at <= i < at + |p| then p[i - at] else buf[i])
  }

  /** The two copies of a block write. */
  lemma TwoCopies<T>(before: seq<T>, w: nat, p: seq<T>, end: nat)
    requires w < |before| && |p| <= |before| && end == Min(|before| - w, |p|)
    ensures Written(before, Copied(Copied(before, w, p[..end]), 0, p[end..]), w, p)
    ensures end == |p| ==> Copied(Copied(before, w, p[..end]), 0, p[end..]) == Copied(before, w, p[..end])
  {
    var after := Copied(Copied(before, w, p[..end]), 0, p[end..]);
    forall t | 0 <= t < |p| ensures after[Wrap(w + t, |before|)] == p[t] {
      if t < end {
        assert p[..end][t] == p[t];
      } else {
        assert p[end..][t - end] == p[t];
      }
    }
  }

  lemma CopiedAll<T>(buf: seq<T>, p: seq<T>)
    requires |p| == |buf| && buf != []
    ensures Copied(buf, 0, p) == p && Window(p, 0, |p|) == p
  {
    forall i | 0 <= i < |p| ensures Window(p, 0, |p|)[i] == p[i] {
      assert Wrap(0 + i, |p|) == i;
    }
  }

  /** The two copies of a block read. */
  lemma TwoPieces<T>(dst: seq<T>, buf: seq<T>, r: nat, n: nat, end: nat)
    requires r < |buf| && n <= |buf| && n <= |dst| && end == Min(|buf| - r, n)
    ensures Copied(Copied(dst, 0, buf[r..r + end]), end, buf[..n - end]) == Window(buf, r, n) + dst[n..]
    ensures end == n ==> Copied(dst, 0, buf[r..r + end]) == Window(buf, r, n) + dst[n..]
  {
    var out, all := Copied(Copied(dst, 0, buf[r..r + end]), end, buf[..n - end]), Window(buf, r, n) + dst[n..];
    forall i | 0 <= i < |dst| ensures out[i] == all[i] {
      if i < end {
        assert all[i] == Window(buf, r, n)[i] == buf[Wrap(r + i, |buf|)];
        assert buf[r..r + end][i] == buf[r + i];
      } else if i < n {
        assert all[i] == Window(buf, r, n)[i] == buf[Wrap(r + i, |buf|)];
        assert buf[..n - end][i - end] == buf[i - end];
      } else {
        assert all[i] == dst[n..][i - n] == dst[i];
      }
    }
  }

  // ------------------------------------------------------ the block ring

  class ByteRing {
    const buf: array<Byte>
    var r: nat
    var w: nat
    var n: nat

    ghost predicate Valid()
      reads this, buf
    {
      r < buf.Length && w < buf.Length && n <= buf.Length && w == Wrap(r + n, buf.Length)
    }

    ghost function Contents(): (q: seq<Byte>)
      requires Valid()
      reads this, buf
      ensures |q| == n
    {
      Window(buf[..], r, n)
    }

    constructor (cap: nat)
      requires cap > 0
      ensures Valid() && fresh(buf) && buf.Length == cap && Contents() == []
    {
      buf := new Byte[cap];
      r, w, n := 0, 0, 0;
    }

    /** copy: p into the ring from place at on. */
    method Copy(at: nat, p: seq<Byte>)
      requires at + |p| <= buf.Length
      modifies buf
      ensures buf[..] == Copied(old(buf[..]), at, p)
    {
      forall i | 0 <= i < |p| {
        buf[at + i] := p[i];
      }
    }

    /** Write: the count returned is the capacity when p is longer than the ring. */
    method Write(p: seq<Byte>) returns (count: nat)
      requires Valid()
      modifies this, buf
      ensures Valid() && Contents() == DropOldest(old(Contents()) + p, buf.Length)
      ensures count == Min(|p|, buf.Length)
    {
      var pn, cap := |p|, buf.Length;
      if pn > cap {
        var newest := p[pn - cap..];
        CopiedAll(buf[..], newest);
        Copy(0, newest);
        r, w, n := 0, 0, cap;
        assert (old(Contents()) + p)[old(n) + pn - cap..] == newest;
        return cap;
      }
      WriteBlock(p);
      count := pn;
    }

    /** Write, for a block no longer than the ring. */
    method WriteBlock(p: seq<Byte>)
      requires Valid() && |p| <= buf.Length
      modifies this, buf
      ensures Valid() && Contents() == DropOldest(old(Contents()) + p, buf.Length)
    {
      var cap := buf.Length;
      CopyWrapped(p);
      n := n + |p|;
      if n > cap {
        WrapIsMod(r + (n - cap), cap);
        r := (r + (n - cap)) % cap;
        n := cap;
      }
      WriteIsEnqueue(old(buf[..]), buf[..], old(r), old(n), p, r, n);
    }

    /** The copies of Write: to the end of the buffer, and on from its start. */
    method CopyWrapped(p: seq<Byte>)
      requires w < buf.Length && |p| <= buf.Length
      modifies `w, buf
      ensures Written(old(buf[..]), buf[..], old(w), p) && w == Wrap(old(w) + |p|, buf.Length)
    {
      var pn, cap := |p|, buf.Length;
      var end := Min(cap - w, pn);
      TwoCopies(buf[..], w, p, end);
      Copy(w, p[..end]);
      WrapIsMod(w + end, cap);
      w := (w + end) % cap;
      if pn - end > 0 {
        Copy(0, p[end..]);
        w := pn - end;
      }
    }

    /** Read: pops up to len bytes into the front of dst. */
    method Read(dst: array<Byte>, len: nat) returns (want: nat)
      requires Valid() && len <= dst.Length && dst != buf
      modifies this, dst
      ensures Valid() && buf[..] == old(buf[..]) && want == Min(len, old(n))
      ensures dst[..] == old(Contents())[..want] + old(dst[..])[want..]
      ensures Contents() == old(Contents())[want..]
    {
      want := Min(len, n);
      if want == 0 {
        assert Contents()[0..] == Contents() && dst[..][0..] == dst[..];
        return;
      }
      WindowSplits(buf[..], r, n, want);
      CopyOutWrapped(dst, want);
      n := n - want;
    }

    /** The copies of Read: to the end of the buffer, and on from its start. */
    method CopyOutWrapped(dst: array<Byte>, want: nat)
      requires r < buf.Length && want <= buf.Length && want <= dst.Length && dst != buf
      modifies `r, dst
      ensures dst[..] == Window(buf[..], old(r), want) + old(dst[..])[want..] && r == Wrap(old(r) + want, buf.Length)
    {
      var cap := buf.Length;
      var end := Min(cap - r, want);
      TwoPieces(dst[..], buf[..], r, want, end);
      CopyOut(dst, 0, r, end);
      WrapIsMod(r + end, cap);
      r := (r + end) % cap;
      if want - end > 0 {
        CopyOut(dst, end, 0, want - end);
        r := want - end;
      }
    }

    /** copy: len bytes of the ring from place at on, to dst from to on. */
    method CopyOut(dst: array<Byte>, to: nat, at: nat, len: nat)
      requires at + len <= buf.Length && to + len <= dst.Length && dst != buf
      modifies dst
      ensures dst[..] == Copied(old(dst[..]), to, buf[at..at + len])
    {
      forall i | 0 <= i < len {
        dst[to + i] := buf[at + i];
      }
    }

    method Reset()
      requires Valid()
      modifies this
      ensures Valid() && Contents() == []
    {
      r, w, n := 0, 0, 0;
    }
  }

  // ------------------------------------------------ the element ring

  /** onAudio's view of its input: the samples of one channel, as far as whole frames go. */
  function Sample(lo: Byte, hi: Byte): int {
    var u := lo as int + 256 * hi as int;
    if u >= 32768 then u - 65536 else u
  }

  function Offset(channels: nat, channel: nat, f: nat): nat { (f * channels + channel) * 2 }

  function Samples(input: seq<Byte>, channels: nat, channel: nat, f: nat, count: nat): (s: seq<int>)
    decreases count
  {
    var idx := Offset(channels, channel, f);
    if count == 0 || idx + 2 > |input| then [] else [Sample(input[idx], input[idx + 1])] + Samples(input, channels, channel, f + 1, count - 1)
  }

  lemma {:induction false} SamplesAt(input: seq<Byte>, channels: nat, channel: nat, f: nat, count: nat, k: nat)
    requires k <= |Samples(input, channels, channel, f, count)| && k < count
    ensures var idx := Offset(channels, channel, f + k);
            var s := Samples(input, channels, channel, f, count);
            |s| <= count && (k < |s| <==> idx + 2 <= |input|) && (k < |s| ==> s[k] == Sample(input[idx], input[idx + 1]))
    decreases k
  {
    SamplesFit(input, channels, channel, f, count);
    if k > 0 { SamplesAt(input, channels, channel, f + 1, count - 1, k - 1); }
  }

  lemma {:induction false} SamplesFit(input: seq<Byte>, channels: nat, channel: nat, f: nat, count: nat)
    ensures |Samples(input, channels, channel, f, count)| <= count
    decreases count
  {
    if count > 0 { SamplesFit(input, channels, channel, f + 1, count - 1); }
  }

  /** v is the two bytes from place at on, read as a little-endian number of 16 bits in two's
      complement. */
  predicate Int16At(input: seq<Byte>, at: nat, v: int)
    requires at + 1 < |input|
  {
    -0x8000 <= v < 0x8000 && (v < 0 <==> input[at + 1] >= 128)
    && (v == input[at] as int + 256 * input[at + 1] as int || v + 0x1_0000 == input[at] as int + 256 * input[at + 1] as int)
  }

  lemma SampleIsInt16(input: seq<Byte>, at: nat)
    requires at + 1 < |input|
    ensures Int16At(input, at, Sample(input[at], input[at + 1]))
  {
  }

  /** onAudio takes one sample of every frame that is there in full as far as its channel, and
      no more than framecount. */
  lemma SamplesOfChannel(input: seq<Byte>, channels: nat, channel: nat, framecount: nat, k: nat)
    ensures var s, at := Samples(input, channels, channel, 0, framecount), (k * channels + channel) * 2;
            && (k < |s| <==> k < framecount && at + 2 <= |input|)
            && (k < |s| ==> Int16At(input, at, s[k]))
  {
    var n := |Samples(input, channels, channel, 0, framecount)|;
    SamplesFit(input, channels, channel, 0, framecount);
    if k < n {
      SamplesAt(input, channels, channel, 0, framecount, k);
      SampleIsInt16(input, Offset(channels, channel, k));
    } else if k < framecount {
      SamplesAt(input, channels, channel, 0, framecount, n);
      LaterFrame(channels, channel, n, k);
    }
  }

  lemma LaterFrame(channels: nat, channel: nat, j: nat, k: nat)
    requires j <= k
    ensures Offset(channels, channel, j) <= Offset(channels, channel, k)
  {
    assert k * channels == j * channels + (k - j) * channels;
  }

  /** The sample of frame f, if the input goes that far. */
  method SampleAt(input: seq<Byte>, channels: nat, channel: nat, f: nat, ghost count: nat, ghost all: seq<int>)
    returns (more: bool, s: int)
    requires all == Samples(input, channels, channel, 0, count) && f <= |all| && f < count
    ensures (more <==> f < |all|) && (more ==> s == all[f])
  {
    SamplesAt(input, channels, channel, 0, count, f);
    var idx := Offset(channels, channel, f);
    more, s := idx + 2 <= |input|, 0;
    if more {
      s := Sample(input[idx], input[idx + 1]);
    }
  }

  class CaptureRing {
    const ring: array<int>
    const channels: nat
    const channel: nat
    var rIdx: nat
    var wIdx: nat
    var count: nat
    var closed: bool

    ghost predicate Valid()
      reads this, ring
    {
      rIdx < ring.Length && wIdx < ring.Length && count <= ring.Length && wIdx == Wrap(rIdx + count, ring.Length)
    }

    ghost function Contents(): (q: seq<int>)
      requires Valid()
      reads this, ring
      ensures |q| == count
    {
      Window(ring[..], rIdx, count)
    }

    constructor (cap: nat, channels: nat, channel: nat)
      requires cap > 0
      ensures Valid() && fresh(ring) && ring.Length == cap && Contents() == [] && !closed
      ensures this.channels == channels && this.channel == channel
    {
      ring := new int[cap];
      rIdx, wIdx, count, closed := 0, 0, 0, false;
      this.channels, this.channel := channels, channel;
    }

    /** The body of onAudio's loop. */
    method Push(s: int)
      requires Valid()
      modifies `rIdx, `wIdx, `count, ring
      ensures Valid() && Contents() == DropOldest(old(Contents()) + [s], ring.Length)
    {
      ghost var before := ring[..];
      ring[wIdx] := s;
      wIdx := wIdx + 1;
      if wIdx == ring.Length {
        wIdx := 0;
      }
      if count < ring.Length {
        count := count + 1;
      } else {
        rIdx := rIdx + 1;
        if rIdx == ring.Length {
          rIdx := 0;
        }
      }
      WriteIsEnqueue(before, ring[..], old(rIdx), old(count), [s], rIdx, count);
    }

    method OnAudio(input: seq<Byte>, framecount: nat)
      requires Valid()
      modifies `rIdx, `wIdx, `count, ring
      ensures Valid()
      ensures Contents() == if closed then old(Contents()) else DropOldest(old(Contents()) + Samples(input, channels, channel, 0, framecount), ring.Length)
    {
      if closed {
        return;
      }
      ghost var all := Samples(input, channels, channel, 0, framecount);
      PushSamples(input, framecount, all);
    }

    /** The loop of onAudio. */
    method PushSamples(input: seq<Byte>, framecount: nat, ghost all: seq<int>)
      requires Valid() && all == Samples(input, channels, channel, 0, framecount)
      modifies `rIdx, `wIdx, `count, ring
      ensures Valid() && Contents() == DropOldest(old(Contents()) + all, ring.Length)
    {
      ghost var end := Pushes(Contents(), all, ring.Length);
      BlockIsPushes(Contents(), all, ring.Length);
      SamplesFit(input, channels, channel, 0, framecount);
      assert all[0..] == all;
      var f := 0;
      while f < framecount
        invariant f <= |all| && Valid() && Pushes(Contents(), all[f..], ring.Length) == end
      {
        var more, s := SampleAt(input, channels, channel, f, framecount, all);
        if !more {
          break;
        }
        PushesOne(Contents(), all[f..], ring.Length);
        assert all[f..][1..] == all[f + 1..];
        Push(s);
        f := f + 1;
      }
      assert all[f..] == [];
    }

    /** readSamples: pops up to len samples into the front of dst. */
    method ReadSamples(dst: array<int>, len: nat) returns (want: nat)
      requires Valid() && len <= dst.Length && dst != ring
      modifies `rIdx, `count, dst
      ensures Valid() && want == Min(len, old(count))
      ensures dst[..] == old(Contents())[..want] + old(dst[..])[want..]
      ensures Contents() == old(Contents())[want..]
    {
      want := Min(len, count);
      ghost var start := rIdx;
      for i := 0 to want
        invariant rIdx == Wrap(start + i, ring.Length) && count == old(count)
        invariant forall k :: 0 <= k < i ==> dst[k] == ring[Wrap(start + k, ring.Length)]
        invariant forall k :: i <= k < dst.Length ==> dst[k] == old(dst[k])
      {
        dst[i] := ring[rIdx];
        rIdx := rIdx + 1;
        if rIdx == ring.Length {
          rIdx := 0;
        }
      }
      WindowSplits(ring[..], start, count, want);
      count := count - want;
    }
  }
}
