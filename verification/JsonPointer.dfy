// ui/worker/lib/config-changes.ts pointerSegments: JSON pointers (RFC 6901) as lists of
// unescaped segments.
module JsonPointer {
  import opened Text

  /** The pieces of a string between slashes; one piece more than there are slashes. */
  function Split(s: string): (parts: seq<string>)
    ensures parts != []
  {
    if s == [] then [[]]
    else
      var rest := Split(s[1..]);
      if s[0] == '/' then [[]] + rest else [[s[0]] + rest[0]] + rest[1..]
  }

  /** Every ~ is followed by 0 or 1. */
  predicate WellEscaped(s: string) {
    forall i :: 0 <= i < |s| && s[i] == '~' ==> i + 1 < |s| && (s[i + 1] == '0' || s[i + 1] == '1')
  }

  /** String.replace with a global pattern of ~ and one digit: one left-to-right pass. */
  function ReplaceAll(s: string, digit: char, replacement: char): string {
    if |s| < 2 then s
    else if s[0] == '~' && s[1] == digit then [replacement] + ReplaceAll(s[2..], digit, replacement)
    else [s[0]] + ReplaceAll(s[1..], digit, replacement)
  }

  /** The two passes of pointerSegments: first ~1, then ~0. */
  function UnescapeTwice(s: string): string { ReplaceAll(ReplaceAll(s, '1', '/'), '0', '~') }

  /** Section 4 of RFC 6901, read once from left to right. */
  function Unescape(s: string): string {
    if |s| < 2 then s
    else if s[0] == '~' && s[1] == '1' then ['/'] + Unescape(s[2..])
    else if s[0] == '~' && s[1] == '0' then ['~'] + Unescape(s[2..])
    else [s[0]] + Unescape(s[1..])
  }

  function Escape(s: string): string {
    if s == [] then []
    else (if s[0] == '~' then "~0" else if s[0] == '/' then "~1" else [s[0]]) + Escape(s[1..])
  }

  function PointerSegments(path: string): Option<seq<string>> {
    if path == "" then Some([])
    else if path[0] != '/' then None
    else
      var parts := Split(path[1..]);
      if exists i :: 0 <= i < |parts| && !WellEscaped(parts[i]) then None
      else Some(seq(|parts|, i requires 0 <= i < |parts| => UnescapeTwice(parts[i])))
  }

  /** The pointer that names a list of segments. */
  function Pointer(segments: seq<string>): string {
    if segments == [] then "" else "/" + Escape(segments[0]) + Pointer(segments[1..])
  }

  lemma WellEscapedTail(s: string)
    requires WellEscaped(s) && |s| >= 2
    ensures s[0] == '~' ==> WellEscaped(s[2..])
    ensures s[0] != '~' ==> WellEscaped(s[1..])
  {
    assert forall i :: 0 <= i < |s| - 1 ==> s[1..][i] == s[i + 1];
    assert forall i :: 0 <= i < |s| - 2 ==> s[2..][i] == s[i + 2];
  }

  /** On an accepted segment the two passes do what one pass does. */
  lemma {:induction false} TwoPassesAreOne(s: string)
    requires WellEscaped(s)
    ensures UnescapeTwice(s) == Unescape(s)
    decreases |s|
  {
    if |s| >= 2 {
      WellEscapedTail(s);
      if s[0] == '~' {
        assert s[1] == '0' || s[1] == '1';
        TwoPassesAreOne(s[2..]);
        if s[1] == '0' {
          NotADigit(s);
        } else {
          PassOver('/', ReplaceAll(s[2..], '1', '/'));
        }
      } else {
        TwoPassesAreOne(s[1..]);
        PassOver(s[0], ReplaceAll(s[1..], '1', '/'));
      }
    }
  }

  lemma PassOver(c: char, rest: string)
    requires c != '~'
    ensures ReplaceAll([c] + rest, '0', '~') == [c] + ReplaceAll(rest, '0', '~')
  {
    assert ([c] + rest)[1..] == rest;
  }

  /** The first pass leaves ~0 in place, and the second takes it. */
  lemma NotADigit(s: string)
    requires |s| >= 2 && s[0] == '~' && s[1] == '0'
    ensures UnescapeTwice(s) == ['~'] + UnescapeTwice(s[2..])
  {
    var once := ReplaceAll(s[2..], '1', '/');
    assert ReplaceAll(s[1..], '1', '/') == ['0'] + once by {
      assert s[1..][1..] == s[2..];
    }
    var first := ReplaceAll(s, '1', '/');
    assert first == "~0" + once;
    assert first[2..] == once;
  }

  /** Taken in the other order the passes would read ~01 as a slash. */
  lemma OrderOfPassesMatters()
    ensures UnescapeTwice("~01") == "~1" && ReplaceAll(ReplaceAll("~01", '0', '~'), '1', '/') == "/"
  {
    assert "~01"[2..] == "1" && "~01"[1..] == "01" && "01"[1..] == "1";
    NotADigit("~01");
    assert ReplaceAll("1", '1', '/') == "1";
    assert ReplaceAll("~01", '0', '~') == "~" + "1";
  }

  lemma {:induction false} UnescapeEscape(s: string)
    ensures Unescape(Escape(s)) == s && WellEscaped(Escape(s))
    ensures forall i :: 0 <= i < |Escape(s)| ==> Escape(s)[i] != '/'
  {
    if s != [] {
      UnescapeEscape(s[1..]);
      var rest := Escape(s[1..]);
      var head := if s[0] == '~' then "~0" else if s[0] == '/' then "~1" else [s[0]];
      assert Escape(s) == head + rest;
      assert (head + rest)[|head|..] == rest;
      assert s == [s[0]] + s[1..];
    }
  }

  function EscapeChar(c: char): string { if c == '~' then "~0" else if c == '/' then "~1" else [c] }

  lemma EscapeCons(c: char, rest: string)
    ensures Escape([c] + rest) == EscapeChar(c) + Escape(rest)
  {
    assert ([c] + rest)[1..] == rest;
  }

  /** The character at the start of an accepted segment and what is left of it. */
  lemma UnescapeFirst(s: string, c: char, k: nat)
    requires |s| >= 2 && (s[0] == '~' ==> s[1] == '0' || s[1] == '1') && s[0] != '/'
    requires c == (if s[0] != '~' then s[0] else if s[1] == '1' then '/' else '~') && k == if s[0] == '~' then 2 else 1
    ensures Unescape(s) == [c] + Unescape(s[k..]) && s[..k] == EscapeChar(c)
  {
    if k == 2 { assert s[..2] == [s[0], s[1]]; }
  }

  lemma {:induction false} EscapeUnescape(s: string)
    requires WellEscaped(s) && forall i :: 0 <= i < |s| ==> s[i] != '/'
    ensures Escape(Unescape(s)) == s
    decreases |s|
  {
    if |s| >= 2 {
      var c := if s[0] != '~' then s[0] else if s[1] == '1' then '/' else '~';
      var k := if s[0] == '~' then 2 else 1;
      WellEscapedTail(s);
      UnescapeFirst(s, c, k);
      EscapeUnescape(s[k..]);
      EscapeCons(c, Unescape(s[k..]));
      assert s == s[..k] + s[k..];
    }
  }

  // ---------------------------------------------- splitting and joining

  function Join(parts: seq<string>): string
    requires parts != []
  {
    if |parts| == 1 then parts[0] else parts[0] + "/" + Join(parts[1..])
  }

  lemma {:induction false} JoinSplit(s: string)
    ensures Join(Split(s)) == s
    ensures forall i, k :: 0 <= i < |Split(s)| && 0 <= k < |Split(s)[i]| ==> Split(s)[i][k] != '/'
  {
    if s != [] {
      JoinSplit(s[1..]);
      var rest := Split(s[1..]);
      assert s == [s[0]] + s[1..];
      if s[0] == '/' {
        assert Split(s)[1..] == rest;
      } else {
        var first := [s[0]] + rest[0];
        assert Split(s) == [first] + rest[1..];
        if |rest| > 1 { assert Split(s)[1..] == rest[1..]; }
      }
    }
  }

  lemma {:induction false} SplitPiece(part: string, rest: string)
    requires forall k :: 0 <= k < |part| ==> part[k] != '/'
    ensures Split(part) == [part] && Split(part + "/" + rest) == [part] + Split(rest)
  {
    var s := part + "/" + rest;
    if part == [] {
      assert s[1..] == rest;
    } else {
      SplitPiece(part[1..], rest);
      assert s[1..] == part[1..] + "/" + rest;
      assert part == [part[0]] + part[1..];
    }
  }

  lemma {:induction false} SplitJoin(parts: seq<string>)
    requires parts != []
    requires forall i, k :: 0 <= i < |parts| && 0 <= k < |parts[i]| ==> parts[i][k] != '/'
    ensures Split(Join(parts)) == parts
  {
    if |parts| == 1 {
      SplitPiece(parts[0], "");
    } else {
      SplitJoin(parts[1..]);
      SplitPiece(parts[0], Join(parts[1..]));
    }
  }

  function EscapeAll(segments: seq<string>): seq<string> {
    seq(|segments|, i requires 0 <= i < |segments| => Escape(segments[i]))
  }

  lemma {:induction false} PointerJoins(segments: seq<string>)
    requires segments != []
    ensures Pointer(segments) == "/" + Join(EscapeAll(segments))
  {
    if |segments| > 1 {
      PointerJoins(segments[1..]);
      assert EscapeAll(segments)[1..] == EscapeAll(segments[1..]);
    }
  }

  /** Pointers and lists of segments correspond one to one: every list has a pointer, and
      it reads back as that list. */
  lemma SegmentsOfPointer(segments: seq<string>)
    ensures PointerSegments(Pointer(segments)) == Some(segments)
  {
    if segments != [] {
      PointerJoins(segments);
      var parts := EscapeAll(segments);
      forall i | 0 <= i < |segments|
        ensures UnescapeTwice(parts[i]) == segments[i] && WellEscaped(parts[i])
                && forall k :: 0 <= k < |parts[i]| ==> parts[i][k] != '/'
      {
        UnescapeEscape(segments[i]);
        TwoPassesAreOne(parts[i]);
      }
      SplitJoin(parts);
      assert Pointer(segments)[1..] == Join(parts);
      assert seq(|parts|, i requires 0 <= i < |parts| => UnescapeTwice(parts[i])) == segments;
    }
  }

  /** ... and every accepted pointer is the pointer of its segments. */
  lemma PointerOfSegments(path: string)
    requires PointerSegments(path).Some?
    ensures Pointer(PointerSegments(path).value) == path
  {
    if path != "" {
      var parts, segments := Split(path[1..]), PointerSegments(path).value;
      JoinSplit(path[1..]);
      forall i | 0 <= i < |parts| ensures EscapeAll(segments)[i] == parts[i] {
        TwoPassesAreOne(parts[i]);
        EscapeUnescape(parts[i]);
      }
      assert EscapeAll(segments) == parts;
      PointerJoins(segments);
    }
  }
}
