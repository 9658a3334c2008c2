// core/sip/dtmf_reader.go and the loop of core/sip/phone.go that polls it: telephone events
// (RFC 4733) reduced to digits.
module Dtmf {

  /** A decoded telephone-event packet. */
  datatype Packet = Packet(timestamp: bv32, event: nat, end: bool, duration: nat)

  /** A read: audio, a telephone-event payload that does not decode, or a packet. */
  datatype Item = Audio | Malformed | Tone(packet: Packet)

  const MINIMUM_MS := 40

  /** The event table of RFC 4733, section 3.2. */
  function ToRune(event: nat): char
    requires event <= 15
  {
    "0123456789*#ABCD"[event]
  }

  /** A final packet of a supported event, long enough to be recognised. */
  predicate Qualifies(p: Packet, rate: nat) { p.end && p.event <= 15 && p.duration * 1000 >= MINIMUM_MS * rate }

  /** The source divides and compares whole milliseconds; that is the same test. */
  lemma WholeMilliseconds(duration: nat, rate: nat)
    requires rate > 0
    ensures duration * 1000 / rate >= MINIMUM_MS <==> duration * 1000 >= MINIMUM_MS * rate
  {
    var ms := duration * 1000 / rate;
    assert duration * 1000 == ms * rate + duration * 1000 % rate;
    if ms >= MINIMUM_MS { MulGrows(MINIMUM_MS, ms, rate); } else { MulGrows(ms + 1, MINIMUM_MS, rate); }
  }

  lemma MulGrows(a: nat, b: nat, c: nat)
    requires a <= b
    ensures a * c <= b * c
  {
    assert b * c == a * c + (b - a) * c;
  }

  predicate SameKey(p: Packet, q: Packet) { p.timestamp == q.timestamp && p.event == q.event }

  // ----------------------------------------------- what is meant by it

  /** How many packets at the start belong to one event. */
  function RunLength(packets: seq<Packet>): (k: nat)
    ensures k <= |packets| && (packets != [] ==> k > 0)
  {
    if packets == [] then 0
    else if |packets| > 1 && SameKey(packets[0], packets[1]) then 1 + RunLength(packets[1..])
    else 1
  }

  predicate AnyQualifies(packets: seq<Packet>, rate: nat) {
    exists i :: 0 <= i < |packets| && Qualifies(packets[i], rate)
  }

  /** One digit for every maximal run of packets of one event with a qualifying packet. */
  function RunDigits(packets: seq<Packet>, rate: nat): string
    decreases |packets|
  {
    if packets == [] then []
    else
      var k := RunLength(packets);
      (if AnyQualifies(packets[..k], rate) && packets[0].event <= 15 then [ToRune(packets[0].event)] else [])
      + RunDigits(packets[k..], rate)
  }

  // -------------------------------------------------- how it is computed

  /** The last event seen, and whether its digit is out. */
  datatype Last = NoEvent | Event(first: Packet, emitted: bool)

  function Seen(last: Last, p: Packet): bool { last.Event? && SameKey(last.first, p) && last.emitted }

  function Emits(last: Last, p: Packet, rate: nat): string {
    if Qualifies(p, rate) && !Seen(last, p) then [ToRune(p.event)] else []
  }

  function After(last: Last, p: Packet, rate: nat): Last {
    Event(if last.Event? && SameKey(last.first, p) then last.first else p, Seen(last, p) || Qualifies(p, rate))
  }

  /** The digits of a stream polled after each packet. */
  function Polled(last: Last, packets: seq<Packet>, rate: nat): string
    decreases |packets|
  {
    if packets == [] then [] else Emits(last, packets[0], rate) + Polled(After(last, packets[0], rate), packets[1..], rate)
  }

  function AfterAll(last: Last, packets: seq<Packet>, rate: nat): Last
    decreases |packets|
  {
    if packets == [] then last else AfterAll(After(last, packets[0], rate), packets[1..], rate)
  }

  lemma Regroup(a: string, b: string, c: string)
    ensures a + (b + c) == (a + b) + c
  {
  }

  lemma {:induction false} PolledAppend(last: Last, a: seq<Packet>, b: seq<Packet>, rate: nat)
    ensures Polled(last, a + b, rate) == Polled(last, a, rate) + Polled(AfterAll(last, a, rate), b, rate)
    decreases |a|
  {
    if a == [] {
      assert a + b == b;
    } else {
      assert (a + b)[1..] == a[1..] + b;
      var l := After(last, a[0], rate);
      PolledAppend(l, a[1..], b, rate);
      Regroup(Emits(last, a[0], rate), Polled(l, a[1..], rate), Polled(AfterAll(l, a[1..], rate), b, rate));
    }
  }

  ghost predicate OneKey(packets: seq<Packet>, p: Packet) { forall i :: 0 <= i < |packets| ==> SameKey(packets[i], p) }

  /** A run of one event emits its digit once, at its first qualifying packet. */
  lemma {:induction false} PolledRun(last: Last, run: seq<Packet>, p: Packet, rate: nat)
    requires run != [] && OneKey(run, p)
    ensures Polled(last, run, rate) ==
              if AnyQualifies(run, rate) && !Seen(last, p) && p.event <= 15 then [ToRune(p.event)] else []
    ensures var l := AfterAll(last, run, rate);
            l.Event? && SameKey(l.first, p) && l.emitted == (Seen(last, p) || AnyQualifies(run, rate))
    decreases |run|
  {
    var first, rest := run[0], run[1..];
    assert SameKey(run[0], p);
    assert run == [first] + rest;
    AnySplits(first, rest, rate);
    if rest != [] {
      forall i | 0 <= i < |rest| ensures SameKey(rest[i], p) { assert rest[i] == run[i + 1]; }
      PolledRun(After(last, first, rate), rest, p, rate);
    }
  }

  lemma AnySplits(first: Packet, rest: seq<Packet>, rate: nat)
    ensures AnyQualifies([first] + rest, rate) <==> Qualifies(first, rate) || AnyQualifies(rest, rate)
  {
    var all := [first] + rest;
    if Qualifies(first, rate) { assert Qualifies(all[0], rate); }
    if i :| 0 <= i < |rest| && Qualifies(rest[i], rate) { assert Qualifies(all[i + 1], rate); }
    if j :| 0 <= j < |all| && Qualifies(all[j], rate) {
      if j > 0 { assert Qualifies(rest[j - 1], rate); }
    }
  }

  lemma {:induction false} RunIsOneKey(packets: seq<Packet>)
    requires packets != []
    ensures OneKey(packets[..RunLength(packets)], packets[0])
    ensures RunLength(packets) < |packets| ==> !SameKey(packets[RunLength(packets)], packets[0])
  {
    var k := RunLength(packets);
    if k > 1 {
      RunIsOneKey(packets[1..]);
      forall i | 0 <= i < k ensures SameKey(packets[..k][i], packets[0]) {
        if i > 0 { assert packets[..k][i] == packets[1..][..k - 1][i - 1]; }
      }
    }
  }

  lemma SameKeyTransitive(p: Packet, q: Packet, r: Packet)
    requires SameKey(p, q) && SameKey(p, r)
    ensures SameKey(r, q)
  {
  }

  /** A run followed by packets of another event. */
  lemma RunThenOthers(last: Last, packets: seq<Packet>, run: seq<Packet>, rest: seq<Packet>, rate: nat)
    requires run != [] && packets == run + rest && OneKey(run, packets[0])
    requires last.Event? ==> !SameKey(last.first, packets[0])
    ensures Polled(last, packets, rate) ==
              (if AnyQualifies(run, rate) && packets[0].event <= 15 then [ToRune(packets[0].event)] else [])
              + Polled(AfterAll(last, run, rate), rest, rate)
    ensures AfterAll(last, run, rate).Event? && SameKey(AfterAll(last, run, rate).first, packets[0])
  {
    PolledAppend(last, run, rest, rate);
    PolledRun(last, run, packets[0], rate);
  }

  lemma {:induction false} PolledIsRunDigits(last: Last, packets: seq<Packet>, rate: nat)
    requires packets != [] && last.Event? ==> !SameKey(last.first, packets[0])
    ensures Polled(last, packets, rate) == RunDigits(packets, rate)
    decreases |packets|
  {
    if packets != [] {
      var k := RunLength(packets);
      var run, rest := packets[..k], packets[k..];
      RunIsOneKey(packets);
      RunThenOthers(last, packets, run, rest, rate);
      var after := AfterAll(last, run, rate);
      if rest != [] && SameKey(after.first, rest[0]) {
        SameKeyTransitive(after.first, packets[0], rest[0]);
      }
      PolledIsRunDigits(after, rest, rate);
    }
  }

  /** Polled after each packet, the reader gives exactly one digit per maximal run of equal
      timestamp and event that contains a qualifying end packet. */
  lemma OneDigitPerEvent(packets: seq<Packet>, rate: nat)
    ensures Polled(NoEvent, packets, rate) == RunDigits(packets, rate)
  {
    PolledIsRunDigits(NoEvent, packets, rate);
  }

  /** Repeating, losing or reordering packets within a run changes nothing, as long as the
      run keeps a packet, and a qualifying one exactly if it had one. */
  lemma CopiesDoNotMatter(before: seq<Packet>, run: seq<Packet>, other: seq<Packet>, rest: seq<Packet>, p: Packet, rate: nat)
    requires run != [] && other != [] && OneKey(run, p) && OneKey(other, p)
    requires AnyQualifies(run, rate) <==> AnyQualifies(other, rate)
    ensures RunDigits(before + run + rest, rate) == RunDigits(before + other + rest, rate)
  {
    var last := AfterAll(NoEvent, before, rate);
    RunThenRest(before, run, rest, rate);
    RunThenRest(before, other, rest, rate);
    PolledRun(last, run, p, rate);
    PolledRun(last, other, p, rate);
    SameKeySameDigits(AfterAll(last, run, rate), AfterAll(last, other, rate), rest, rate);
  }

  lemma RunThenRest(before: seq<Packet>, run: seq<Packet>, rest: seq<Packet>, rate: nat)
    ensures var last := AfterAll(NoEvent, before, rate);
            RunDigits(before + run + rest, rate)
              == Polled(NoEvent, before, rate) + (Polled(last, run, rate) + Polled(AfterAll(last, run, rate), rest, rate))
  {
    OneDigitPerEvent(before + run + rest, rate);
    assert before + run + rest == before + (run + rest);
    PolledAppend(NoEvent, before, run + rest, rate);
    PolledAppend(AfterAll(NoEvent, before, rate), run, rest, rate);
  }

  lemma {:induction false} SameKeySameDigits(a: Last, b: Last, packets: seq<Packet>, rate: nat)
    requires a.Event? && b.Event? && SameKey(a.first, b.first) && a.emitted == b.emitted
    ensures Polled(a, packets, rate) == Polled(b, packets, rate)
    decreases |packets|
  {
    if packets != [] {
      SameKeySameDigits(After(a, packets[0], rate), After(b, packets[0], rate), packets[1..], rate);
    }
  }

  /** The key of an event, section 3.2 of RFC 4733: the digits, *, # and A to D. */
  predicate IsKey(event: nat, c: char) {
    if event < 10 then c as int == '0' as int + event
    else if event == 10 then c == '*'
    else if event == 11 then c == '#'
    else event < 16 && c as int == 'A' as int + event - 12
  }

  lemma EventKeys(event: nat)
    requires event <= 15
    ensures IsKey(event, ToRune(event))
  {
    var table := "0123456789*#ABCD";
    assert table[0] == '0' && table[1] == '1' && table[2] == '2' && table[3] == '3' && table[4] == '4' && table[5] == '5';
    assert table[6] == '6' && table[7] == '7' && table[8] == '8' && table[9] == '9' && table[10] == '*' && table[11] == '#';
    assert table[12] == 'A' && table[13] == 'B' && table[14] == 'C' && table[15] == 'D';
  }

  /** The end of an event of the table, held for 40 whole milliseconds or more. */
  predicate EndsKey(p: Packet, rate: nat)
    requires rate > 0
  {
    p.end && p.event < 16 && p.duration * 1000 / rate >= 40
  }

  /** What a call hears of its caller's keys: a run of packets with one timestamp and event
      is one key press if an end packet in it is long enough, and nothing otherwise. */
  lemma OneKeyPerRun(run: seq<Packet>, rest: seq<Packet>, rate: nat) returns (first: string)
    requires rate > 0 && run != []
    requires forall i :: 0 <= i < |run| ==> run[i].timestamp == run[0].timestamp && run[i].event == run[0].event
    requires rest != [] ==> rest[0].timestamp != run[0].timestamp || rest[0].event != run[0].event
    ensures RunDigits(run + rest, rate) == first + RunDigits(rest, rate)
    ensures if exists i :: 0 <= i < |run| && EndsKey(run[i], rate) then |first| == 1 && IsKey(run[0].event, first[0]) else first == []
  {
    var all := run + rest;
    WholeRun(run, rest);
    assert all[..|run|] == run && all[|run|..] == rest;
    first := if AnyQualifies(run, rate) && run[0].event <= 15 then [ToRune(run[0].event)] else [];
    if run[0].event <= 15 { EventKeys(run[0].event); }
    forall i | 0 <= i < |run| ensures Qualifies(run[i], rate) <==> EndsKey(run[i], rate) { WholeMilliseconds(run[i].duration, rate); }
  }

  lemma {:induction false} WholeRun(run: seq<Packet>, rest: seq<Packet>)
    requires run != [] && OneKey(run, run[0]) && (rest != [] ==> !SameKey(rest[0], run[0]))
    ensures RunLength(run + rest) == |run|
  {
    if |run| > 1 {
      assert SameKey(run[1], run[0]);
      assert (run + rest)[1..] == run[1..] + rest;
      forall i | 0 <= i < |run| - 1 ensures SameKey(run[1..][i], run[1..][0]) { assert SameKey(run[i + 1], run[0]); }
      WholeRun(run[1..], rest);
    }
  }

  // --------------------------------------------------------- the reader

  function Tones(items: seq<Item>): seq<Packet> {
    if items == [] then [] else (if items[0].Tone? then [items[0].packet] else []) + Tones(items[1..])
  }

  class Reader {
    const rate: nat
    var digit: char
    var digitSet: bool
    var lastTimestamp: bv32
    var lastEvent: nat
    var lastEventSet: bool
    var lastEventEmitted: bool
    var lastReadWasDTMF: bool

    /** l describes the fields about the last event. */
    ghost predicate Tracks(l: Last)
      reads this
    {
      && (l.Event? <==> lastEventSet)
      && (l.Event? ==> lastTimestamp == l.first.timestamp && lastEvent == l.first.event && lastEventEmitted == l.emitted)
    }

    constructor (rate: nat)
      requires rate > 0
      ensures this.rate == rate && Tracks(NoEvent) && !digitSet
    {
      this.rate := rate;
      digit, digitSet, lastTimestamp, lastEvent := '0', false, 0, 0;
      lastEventSet, lastEventEmitted, lastReadWasDTMF := false, false, false;
    }

    method ProcessEvent(p: Packet, ghost l: Last)
      requires rate > 0 && Tracks(l)
      modifies this
      ensures Tracks(After(l, p, rate)) && lastReadWasDTMF == old(lastReadWasDTMF)
      ensures if Emits(l, p, rate) != [] then digitSet && Emits(l, p, rate) == [digit]
              else digitSet == old(digitSet) && digit == old(digit)
    {
      if !lastEventSet || p.timestamp != lastTimestamp || p.event != lastEvent {
        lastTimestamp, lastEvent, lastEventSet, lastEventEmitted := p.timestamp, p.event, true, false;
      }
      if !p.end || lastEventEmitted {
        return;
      }
      WholeMilliseconds(p.duration, rate);
      var durationMS := p.duration * 1000 / rate;
      if durationMS < MINIMUM_MS {
        return;
      }
      if p.event > 15 {
        return;
      }
      digit, digitSet, lastEventEmitted := ToRune(p.event), true, true;
    }

    method Read(item: Item, ghost l: Last)
      requires rate > 0 && Tracks(l)
      modifies this
      ensures Tracks(if item.Tone? then After(l, item.packet, rate) else l) && lastReadWasDTMF == !item.Audio?
      ensures if item.Tone? && Emits(l, item.packet, rate) != [] then digitSet && Emits(l, item.packet, rate) == [digit]
              else digitSet == old(digitSet) && digit == old(digit)
    {
      lastReadWasDTMF := !item.Audio?;
      if item.Tone? {
        ProcessEvent(item.packet, l);
      }
    }

    method ReadDTMF() returns (d: char, ok: bool)
      modifies `digitSet
      ensures d == digit && ok == old(digitSet) && !digitSet
    {
      d, ok := digit, digitSet;
      digitSet := false;
    }
  }

  /** The loop of readDTMFLoop: every read is followed by a poll. */
  method ReadLoop(items: seq<Item>, rate: nat) returns (digits: string)
    requires rate > 0
    ensures digits == RunDigits(Tones(items), rate)
  {
    OneDigitPerEvent(Tones(items), rate);
    var reader := new Reader(rate);
    ghost var l := NoEvent;
    digits := [];
    for i := 0 to |items|
      invariant reader.rate == rate && reader.Tracks(l) && !reader.digitSet && fresh(reader)
      invariant digits + Polled(l, Tones(items[i..]), rate) == Polled(NoEvent, Tones(items), rate)
    {
      assert items[i..][1..] == items[i + 1..];
      reader.Read(items[i], l);
      var d, ok := reader.ReadDTMF();
      PollStep(l, items[i], Tones(items[i + 1..]), digits, if ok then [d] else [], rate);
      digits := digits + if ok then [d] else [];
      l := if items[i].Tone? then After(l, items[i].packet, rate) else l;
    }
  }

  lemma PollStep(l: Last, item: Item, rest: seq<Packet>, digits: string, more: string, rate: nat)
    requires more == if item.Tone? then Emits(l, item.packet, rate) else []
    ensures digits + Polled(l, (if item.Tone? then [item.packet] else []) + rest, rate)
              == digits + more + Polled(if item.Tone? then After(l, item.packet, rate) else l, rest, rate)
  {
    if item.Tone? {
      assert ([item.packet] + rest)[1..] == rest;
    } else {
      assert [] + rest == rest;
    }
  }
}
