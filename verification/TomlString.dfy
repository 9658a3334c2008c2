// ui/src/lib/toml-render.ts formatString, against the String section of TOML v1.0.0.
module TomlString {
  import opened Text

  const TAB: char := '\t'
  const LF: char := '\n'
  const CR: char := '\r'
  const QUOTE: char := '"'
  const BACKSLASH: char := '\\'
  const CLOSE: string := "\"\"\""

  // ----------------------------------------------------- the printer

  function HexDigit(n: nat): char
    requires n < 16
  {
    if n < 10 then ('0' as int + n) as char else ('a' as int + n - 10) as char
  }

  /** JSON.stringify of one character. */
  function JsonChar(c: char): string {
    var n := c as int;
    if c == QUOTE then "\\\"" else if c == BACKSLASH then "\\\\"
    else if n == 8 then "\\b" else if n == 9 then "\\t" else if n == 10 then "\\n"
    else if n == 12 then "\\f" else if n == 13 then "\\r"
    else if n < 32 then "\\u00" + [HexDigit(n / 16), HexDigit(n % 16)]
    else [c]
  }

  function JsonBody(s: string): string { if s == [] then [] else JsonChar(s[0]) + JsonBody(s[1..]) }

  /** The first replace: backslashes doubled. */
  function Doubled(s: string): string {
    if s == [] then [] else (if s[0] == BACKSLASH then "\\\\" else [s[0]]) + Doubled(s[1..])
  }

  /** The second replace: three quotes in a row, from the left. */
  function TriplesBroken(s: string): string {
    if s == [] then []
    else if |s| >= 3 && s[..3] == CLOSE then "\"\\\"\\\"" + TriplesBroken(s[3..])
    else [s[0]] + TriplesBroken(s[1..])
  }

  predicate Multiline(s: string) { LF in s || CR in s }

  function FormatString(s: string): string {
    if !Multiline(s) then [QUOTE] + JsonBody(s) + [QUOTE] else CLOSE + TriplesBroken(Doubled(s)) + CLOSE
  }

  // ----------------------------------------------------- the decoder

  /** Not a control character other than tab; DEL is one. */
  predicate Literal(c: char) { c == TAB || (c as int >= 32 && c as int != 127) }

  function HexValue(c: char): int {
    if '0' <= c <= '9' then c as int - '0' as int
    else if 'a' <= c <= 'f' then c as int - 'a' as int + 10
    else if 'A' <= c <= 'F' then c as int - 'A' as int + 10
    else -1
  }

  /** The number n hexadecimal digits at the start of t stand for, or -1. */
  function HexNumber(t: string, n: nat): int
    requires n <= |t|
    ensures HexNumber(t, n) >= -1
  {
    if n == 0 then 0
    else
      var high, low := HexNumber(t, n - 1), HexValue(t[n - 1]);
      if high < 0 || low < 0 then -1 else high * 16 + low
  }

  /** A Unicode escape of n digits, after its letter. */
  function UnicodeEscape(t: string, n: nat): Option<(char, nat)> {
    if |t| < n then None
    else
      var v := HexNumber(t, n);
      if 0 <= v < 0xD800 || 0xE000 <= v < 0x11_0000 then Some((v as char, n + 1)) else None
  }

  /** The character an escape stands for and its length, after the backslash. */
  function Escape(t: string): (r: Option<(char, nat)>)
    ensures r.Some? ==> 0 < r.value.1 <= |t|
  {
    if t == [] then None
    else
      match t[0]
      case 'b' => Some(((8 as char), 1))
      case 't' => Some((TAB, 1))
      case 'n' => Some((LF, 1))
      case 'f' => Some(((12 as char), 1))
      case 'r' => Some((CR, 1))
      case '\"' => Some((QUOTE, 1))
      case '\\' => Some((BACKSLASH, 1))
      case 'u' => UnicodeEscape(t[1..], 4)
      case 'U' => UnicodeEscape(t[1..], 8)
      case _ => None
  }

  function Cons(prefix: string, r: Option<string>): Option<string> { if r.None? then None else Some(prefix + r.value) }

  /** A basic string, after its opening quote; nothing may follow its closing quote. */
  function DecodeBasic(t: string): Option<string>
    decreases |t|
  {
    if t == [] then None
    else if t[0] == QUOTE then if |t| == 1 then Some([]) else None
    else if t[0] == BACKSLASH then
      var e := Escape(t[1..]);
      if e.None? then None else Cons([e.value.0], DecodeBasic(t[1 + e.value.1..]))
    else if Literal(t[0]) then Cons([t[0]], DecodeBasic(t[1..]))
    else None
  }

  function Quotes(t: string): (k: nat)
    ensures k <= |t| && forall i :: 0 <= i < k ==> t[i] == QUOTE
    ensures k < |t| ==> t[k] != QUOTE
  {
    if t != [] && t[0] == QUOTE then 1 + Quotes(t[1..]) else 0
  }

  predicate Blank(c: char) { c == ' ' || c == TAB || c == LF || c == CR }

  /** Blanks and newlines, skipped after a backslash that ends its line. */
  function SkipBlanks(t: string): (n: nat)
    ensures n <= |t|
  {
    if t != [] && Blank(t[0]) then 1 + SkipBlanks(t[1..]) else 0
  }

  /** Only blanks up to the end of the line. */
  predicate EndsLine(t: string) {
    t != [] && (t[0] == LF || (t[0] == CR && |t| > 1 && t[1] == LF) || ((t[0] == ' ' || t[0] == TAB) && EndsLine(t[1..])))
  }

  /** A multi-line basic string, after its opening quotes and the newline that may follow
      them. One or two quotes are content; three close it, with up to two before them. */
  function DecodeMultiline(t: string): Option<string>
    decreases |t|
  {
    if t == [] then None
    else if t[0] == QUOTE then
      var k := Quotes(t);
      if k >= 3 then if k <= 5 && k == |t| then Some(t[..k - 3]) else None
      else Cons(t[..k], DecodeMultiline(t[k..]))
    else if t[0] == BACKSLASH then
      if EndsLine(t[1..]) then DecodeMultiline(t[1 + SkipBlanks(t[1..])..])
      else
        var e := Escape(t[1..]);
        if e.None? then None else Cons([e.value.0], DecodeMultiline(t[1 + e.value.1..]))
    else if Literal(t[0]) || t[0] == LF then Cons([t[0]], DecodeMultiline(t[1..]))
    else if t[0] == CR && |t| > 1 && t[1] == LF then Cons(t[..2], DecodeMultiline(t[2..]))
    else None
  }

  function Trimmed(t: string): string {
    if t != [] && t[0] == LF then t[1..] else if |t| > 1 && t[0] == CR && t[1] == LF then t[2..] else t
  }

  /** A TOML string that is the whole text. */
  function Decode(t: string): Option<string> {
    if |t| >= 3 && t[..3] == CLOSE then DecodeMultiline(Trimmed(t[3..]))
    else if t != [] && t[0] == QUOTE then DecodeBasic(t[1..])
    else None
  }

  // ------------------------------------------------------ one line

  lemma HexOfDigit(n: nat)
    requires n < 16
    ensures HexValue(HexDigit(n)) == n
  {
  }

  lemma HexOfFour(a: char, b: char, c: char, d: char, rest: string)
    requires HexValue(a) >= 0 && HexValue(b) >= 0 && HexValue(c) >= 0 && HexValue(d) >= 0
    ensures HexNumber([a, b, c, d] + rest, 4) == ((HexValue(a) * 16 + HexValue(b)) * 16 + HexValue(c)) * 16 + HexValue(d)
  {
    var t := [a, b, c, d] + rest;
    assert HexNumber(t, 1) == HexValue(a);
    assert HexNumber(t, 2) == HexValue(a) * 16 + HexValue(b);
    assert HexNumber(t, 3) == (HexValue(a) * 16 + HexValue(b)) * 16 + HexValue(c);
  }

  predicate ShortEscape(c: char) {
    var n := c as int;
    c == QUOTE || c == BACKSLASH || n == 8 || n == 9 || n == 10 || n == 12 || n == 13
  }

  lemma ControlEscape(c: char, rest: string)
    requires c as int < 32 && !ShortEscape(c)
    ensures var n := c as int;
            JsonChar(c) == ['\\', 'u', '0', '0', HexDigit(n / 16), HexDigit(n % 16)]
            && UnicodeEscape(['0', '0', HexDigit(n / 16), HexDigit(n % 16)] + rest, 4) == Some((c, 5))
  {
    var n := c as int;
    HexOfDigit(n / 16);
    HexOfDigit(n % 16);
    HexOfFour('0', '0', HexDigit(n / 16), HexDigit(n % 16), rest);
  }

  lemma EscapeOfJson(c: char, rest: string)
    requires |JsonChar(c)| > 1
    ensures JsonChar(c)[0] == BACKSLASH
    ensures Escape(JsonChar(c)[1..] + rest) == Some((c, |JsonChar(c)| - 1))
  {
    if ShortEscape(c) {
      assert (JsonChar(c)[1..] + rest)[0] == JsonChar(c)[1];
    } else {
      ControlEscape(c, rest);
      var n := c as int;
      var digits := ['0', '0', HexDigit(n / 16), HexDigit(n % 16)];
      assert JsonChar(c)[1..] + rest == ['u'] + (digits + rest);
      assert (['u'] + (digits + rest))[1..] == digits + rest;
    }
  }

  /** No control character that a quoted string cannot hold as it is. */
  predicate NoDel(s: string) { forall i :: 0 <= i < |s| ==> s[i] as int != 127 }

  lemma {:induction false} DecodeJsonBody(s: string)
    ensures DecodeBasic(JsonBody(s) + [QUOTE]) == if NoDel(s) then Some(s) else None
  {
    if s == [] {
      assert JsonBody(s) + [QUOTE] == [QUOTE];
    } else {
      DecodeJsonBody(s[1..]);
      var rest := JsonBody(s[1..]) + [QUOTE];
      assert JsonBody(s) + [QUOTE] == JsonChar(s[0]) + rest;
      NoDelTail(s);
      assert [s[0]] + s[1..] == s;
      if |JsonChar(s[0])| > 1 {
        EscapedThen(s[0], rest);
      } else {
        assert (JsonChar(s[0]) + rest)[1..] == rest;
      }
    }
  }

  lemma EscapedThen(c: char, rest: string)
    requires |JsonChar(c)| > 1
    ensures DecodeBasic(JsonChar(c) + rest) == Cons([c], DecodeBasic(rest))
  {
    EscapeOfJson(c, rest);
    var t := JsonChar(c) + rest;
    assert t[1..] == JsonChar(c)[1..] + rest && t[|JsonChar(c)|..] == rest;
  }

  lemma NoDelTail(s: string)
    requires s != []
    ensures NoDel(s) <==> s[0] as int != 127 && NoDel(s[1..])
  {
    if s[0] as int != 127 && NoDel(s[1..]) {
      forall i | 0 <= i < |s| ensures s[i] as int != 127 { if i > 0 { assert s[1..][i - 1] == s[i]; } }
    }
    if NoDel(s) { assert forall i :: 0 <= i < |s[1..]| ==> s[1..][i] == s[i + 1]; }
  }

  // --------------------------------------------------- several lines

  /** Both replaces at once. */
  function Escaped(s: string): string {
    if s == [] then []
    else if |s| >= 3 && s[..3] == CLOSE then "\"\\\"\\\"" + Escaped(s[3..])
    else (if s[0] == BACKSLASH then "\\\\" else [s[0]]) + Escaped(s[1..])
  }

  lemma {:induction false} TwoReplaces(s: string)
    ensures TriplesBroken(Doubled(s)) == Escaped(s)
    decreases |s|
  {
    if s != [] {
      TwoReplaces(s[1..]);
      if s[0] == BACKSLASH {
        TwoBackslashes(Doubled(s[1..]));
      } else {
        SameTriples(s);
        if |s| >= 3 && s[..3] == CLOSE {
          TwoReplaces(s[3..]);
          DoubledTriple(s);
        } else {
          assert Doubled(s)[1..] == Doubled(s[1..]);
        }
      }
    }
  }

  lemma TwoBackslashes(rest: string)
    ensures TriplesBroken("\\\\" + rest) == "\\\\" + TriplesBroken(rest)
  {
    var t := "\\\\" + rest;
    assert t[1..] == "\\" + rest && ("\\" + rest)[1..] == rest;
    assert t[0] == BACKSLASH && t[1] == BACKSLASH;
    assert |t| >= 3 ==> t[..3][0] != QUOTE;
    assert |t[1..]| >= 3 ==> t[1..][..3][0] != QUOTE;
  }

  lemma DoubledTriple(s: string)
    requires |s| >= 3 && s[..3] == CLOSE
    ensures |Doubled(s)| >= 3 && Doubled(s)[..3] == CLOSE && Doubled(s)[3..] == Doubled(s[3..])
  {
    assert s[0] == s[..3][0] && s[1] == s[..3][1] && s[2] == s[..3][2];
    assert s[1..][1..] == s[2..] && s[2..][1..] == s[3..];
    assert Doubled(s[2..]) == [QUOTE] + Doubled(s[3..]);
    assert Doubled(s[1..]) == [QUOTE] + Doubled(s[2..]);
    assert Doubled(s) == [QUOTE] + Doubled(s[1..]);
  }

  lemma SameTriples(s: string)
    requires s != [] && s[0] != BACKSLASH
    ensures |s| >= 3 && s[..3] == CLOSE <==> |Doubled(s)| >= 3 && Doubled(s)[..3] == CLOSE
  {
    if |s| >= 3 && s[..3] == CLOSE { DoubledTriple(s); }
    if |Doubled(s)| >= 3 && Doubled(s)[..3] == CLOSE {
      var d := Doubled(s);
      assert d[0] == d[..3][0] && d[1] == d[..3][1] && d[2] == d[..3][2];
      assert d[1..] == Doubled(s[1..]) && d[1] == Doubled(s[1..])[0];
      assert s[1] == QUOTE;
      assert Doubled(s[1..])[1..] == Doubled(s[1..][1..]) && s[1..][1..] == s[2..];
      assert d[2] == Doubled(s[2..])[0];
      assert s[2] == QUOTE;
      assert s[..3] == [QUOTE, QUOTE, QUOTE];
    }
  }

  predicate PlainAt(s: string, i: int)
    requires 0 <= i < |s|
  {
    Literal(s[i]) || s[i] == LF || (s[i] == CR && i + 1 < |s| && s[i + 1] == LF)
  }

  /** What a multi-line string holds as it is; a carriage return only before a line feed. */
  predicate Plain(s: string) { forall i :: 0 <= i < |s| ==> PlainAt(s, i) }

  lemma PlainSplits(s: string, k: nat)
    requires k <= |s| && (k > 0 ==> s[k - 1] != CR)
    ensures Plain(s) <==> Plain(s[..k]) && Plain(s[k..])
  {
    forall i | 0 <= i < k ensures PlainAt(s, i) <==> PlainAt(s[..k], i) {
      if i + 1 < k { assert s[..k][i + 1] == s[i + 1]; }
    }
    forall i | k <= i < |s| ensures PlainAt(s, i) <==> PlainAt(s[k..], i - k) {
      if i + 1 < |s| { assert s[k..][i + 1 - k] == s[i + 1]; }
    }
    if Plain(s) {
      forall i | 0 <= i < |s| - k ensures PlainAt(s[k..], i) { assert PlainAt(s, i + k); }
    }
  }

  lemma Regroup(a: string, b: string, c: string)
    ensures (a + b) + c == a + (b + c)
  {
  }

  lemma PutBefore(c: char, rest: string)
    ensures ([c] + rest)[1..] == rest
  {
  }

  lemma PlainHead(s: string)
    requires s != [] && s[0] != CR
    ensures Plain(s) <==> (Literal(s[0]) || s[0] == LF) && Plain(s[1..])
  {
    PlainSplits(s, 1);
    assert PlainAt(s[..1], 0) <==> Literal(s[0]) || s[0] == LF;
  }

  lemma PlainReturn(s: string)
    requires s != [] && s[0] == CR
    ensures Plain(s) <==> |s| > 1 && s[1] == LF && Plain(s[2..])
  {
    if |s| > 1 && s[1] == LF {
      PlainSplits(s, 2);
      assert PlainAt(s[..2], 0) && PlainAt(s[..2], 1);
    } else {
      assert !PlainAt(s, 0);
    }
  }

  /** rest, decoded after some text that stands for prefix. */
  lemma ConsTwice(a: string, b: string, r: Option<string>)
    ensures Cons(a, Cons(b, r)) == Cons(a + b, r)
  {
    assert r.Some? ==> a + (b + r.value) == a + b + r.value;
  }

  lemma EscapedQuote(rest: string)
    ensures DecodeMultiline("\\\"" + rest) == Cons([QUOTE], DecodeMultiline(rest))
  {
    var t := "\\\"" + rest;
    assert t[1..] == [QUOTE] + rest && t[2..] == rest;
  }

  lemma EscapedBackslash(rest: string)
    ensures DecodeMultiline("\\\\" + rest) == Cons([BACKSLASH], DecodeMultiline(rest))
  {
    var t := "\\\\" + rest;
    assert t[1..] == [BACKSLASH] + rest && t[2..] == rest;
  }

  /** One quote, not followed by another, is content; so are two. */
  lemma FewQuotes(k: nat, rest: string)
    requires 1 <= k <= 2 && rest != [] && rest[0] != QUOTE
    ensures var q := [QUOTE, QUOTE][..k]; DecodeMultiline(q + rest) == Cons(q, DecodeMultiline(rest))
  {
    var q := [QUOTE, QUOTE][..k];
    var t := q + rest;
    assert t[k..] == rest && t[..k] == q;
    if k == 2 { assert t[1..] == [QUOTE] + rest && t[1..][1..] == rest; }
    assert Quotes(t) == k;
  }

  lemma QuotesAtEnd(k: nat)
    requires k <= 2
    ensures DecodeMultiline([QUOTE, QUOTE][..k] + CLOSE) == Some([QUOTE, QUOTE][..k])
  {
    var t := [QUOTE, QUOTE][..k] + CLOSE;
    AllQuotes(t);
    assert t[..k] == [QUOTE, QUOTE][..k];
  }

  lemma {:induction false} AllQuotes(t: string)
    requires forall i :: 0 <= i < |t| ==> t[i] == QUOTE
    ensures Quotes(t) == |t|
  {
    if t != [] { AllQuotes(t[1..]); }
  }

  lemma BrokenTriple(rest: string)
    ensures DecodeMultiline("\"\\\"\\\"" + rest) == Cons(CLOSE, DecodeMultiline(rest))
  {
    var two, one := "\\\"" + ("\\\"" + rest), "\\\"" + rest;
    assert "\"\\\"\\\"" + rest == [QUOTE, QUOTE][..1] + two;
    FewQuotes(1, two);
    EscapedQuote(one);
    EscapedQuote(rest);
    ConsTwice([QUOTE], [QUOTE], DecodeMultiline(rest));
    ConsTwice([QUOTE], [QUOTE] + [QUOTE], DecodeMultiline(rest));
    assert [QUOTE] + ([QUOTE] + [QUOTE]) == CLOSE && [QUOTE, QUOTE][..1] == [QUOTE];
  }

  /** How many quotes s starts with, if not three. */
  function FewLeading(s: string): nat
    requires s != [] && s[0] == QUOTE
  {
    if |s| > 1 && s[1] == QUOTE then 2 else 1
  }

  predicate Triple(s: string) { |s| >= 3 && s[..3] == CLOSE }

  lemma TripleStart(s: string)
    ensures Triple(s) <==> |s| >= 3 && s[0] == QUOTE && s[1] == QUOTE && s[2] == QUOTE
  {
    if |s| >= 3 { assert s[..3] == [s[0], s[1], s[2]]; }
  }

  lemma EscapedStep(s: string)
    requires s != [] && !Triple(s)
    ensures Escaped(s) == (if s[0] == BACKSLASH then "\\\\" else [s[0]]) + Escaped(s[1..])
  {
  }

  lemma LeadingQuotes(s: string, k: nat)
    requires s != [] && s[0] == QUOTE && !Triple(s) && k == FewLeading(s)
    ensures 1 <= k <= 2 && k <= |s| && s[..k] == [QUOTE, QUOTE][..k] && (k < |s| ==> s[k] != QUOTE)
  {
    TripleStart(s);
    assert k == 2 ==> s[..2] == [QUOTE, QUOTE][..2];
    assert s[..1] == [QUOTE, QUOTE][..1];
  }

  lemma EscapedQuotes(s: string, k: nat)
    requires s != [] && s[0] == QUOTE && !Triple(s) && k == FewLeading(s)
    ensures Escaped(s) == [QUOTE, QUOTE][..k] + Escaped(s[k..])
  {
    if k == 2 { TwoQuotes(s); } else { OneQuote(s); }
  }

  lemma OneQuote(s: string)
    requires s != [] && s[0] == QUOTE && !Triple(s)
    ensures Escaped(s) == [QUOTE, QUOTE][..1] + Escaped(s[1..])
  {
    EscapedStep(s);
  }

  lemma TwoQuotes(s: string)
    requires |s| >= 2 && s[0] == QUOTE && s[1] == QUOTE && !Triple(s)
    ensures Escaped(s) == [QUOTE, QUOTE][..2] + Escaped(s[2..])
  {
    TripleStart(s);
    TripleStart(s[1..]);
    EscapedPair(s);
    assert [QUOTE, QUOTE][..2] == [s[0], s[1]];
  }

  lemma Joined(c: char, d: char, rest: string)
    ensures [c] + ([d] + rest) == [c, d] + rest
  {
  }

  /** Two characters of which neither is a backslash nor starts three quotes. */
  lemma EscapedPair(s: string)
    requires |s| >= 2 && s[0] != BACKSLASH && s[1] != BACKSLASH && !Triple(s) && !Triple(s[1..])
    ensures Escaped(s) == [s[0], s[1]] + Escaped(s[2..])
  {
    EscapedStep(s);
    EscapedStep(s[1..]);
    assert s[1..][1..] == s[2..];
    Joined(s[0], s[1], Escaped(s[2..]));
  }

  lemma FirstOfEscaped(s: string)
    requires s != []
    ensures (Escaped(s) + CLOSE)[0] == s[0]
  {
    if |s| >= 3 && s[..3] == CLOSE { assert s[0] == s[..3][0]; }
  }

  /** What the text written for s is decoded to. */
  ghost predicate DecodesRight(s: string) {
    DecodeMultiline(Escaped(s) + CLOSE) == if Plain(s) then Some(s) else None
  }

  lemma DecodeTriple(s: string)
    requires Triple(s) && DecodesRight(s[3..])
    ensures DecodesRight(s)
  {
    var rest := Escaped(s[3..]) + CLOSE;
    BrokenTriple(rest);
    assert Escaped(s) + CLOSE == "\"\\\"\\\"" + rest;
    PlainSplits(s, 3);
    assert s == CLOSE + s[3..];
  }

  lemma DecodeQuotes(s: string, k: nat)
    requires s != [] && s[0] == QUOTE && !Triple(s) && k == FewLeading(s) && k <= |s|
    requires k < |s| ==> DecodesRight(s[k..])
    ensures DecodesRight(s)
  {
    LeadingQuotes(s, k);
    EscapedQuotes(s, k);
    PlainQuotes(s, k);
    Regroup([QUOTE, QUOTE][..k], Escaped(s[k..]), CLOSE);
    if k == |s| {
      QuotesAtEnd(k);
      assert s[k..] == [] && s == s[..k] && Escaped([]) + CLOSE == CLOSE;
    } else {
      FirstOfEscaped(s[k..]);
      FewQuotes(k, Escaped(s[k..]) + CLOSE);
      assert s == s[..k] + s[k..];
    }
  }

  lemma PlainQuotes(s: string, k: nat)
    requires k <= |s| && k <= 2 && s[..k] == [QUOTE, QUOTE][..k]
    ensures Plain(s) <==> Plain(s[k..])
  {
    forall i | 0 <= i < k ensures s[i] == QUOTE { assert s[i] == s[..k][i]; }
    PlainSplits(s, k);
    forall i | 0 <= i < k ensures PlainAt(s[..k], i) { assert s[..k][i] == s[i]; }
  }

  lemma DecodeOther(s: string)
    requires s != [] && s[0] != QUOTE && s[0] != CR && DecodesRight(s[1..])
    ensures DecodesRight(s)
  {
    var rest := Escaped(s[1..]) + CLOSE;
    TripleStart(s);
    EscapedStep(s);
    PlainHead(s);
    PutBefore(s[0], s[1..]);
    if s[0] == BACKSLASH {
      EscapedBackslash(rest);
      Regroup("\\\\", Escaped(s[1..]), CLOSE);
    } else {
      OneMore(s[0], rest);
      Regroup([s[0]], Escaped(s[1..]), CLOSE);
    }
    assert s == [s[0]] + s[1..];
  }

  lemma OneMore(c: char, rest: string)
    requires c != QUOTE && c != BACKSLASH && c != CR
    ensures DecodeMultiline([c] + rest) == if Literal(c) || c == LF then Cons([c], DecodeMultiline(rest)) else None
  {
    assert ([c] + rest)[1..] == rest;
  }

  lemma ReturnAndFeed(rest: string)
    ensures DecodeMultiline([CR, LF] + rest) == Cons([CR, LF], DecodeMultiline(rest))
  {
    var t := [CR, LF] + rest;
    assert t[..2] == [CR, LF] && t[2..] == rest;
  }

  lemma BareReturn(rest: string)
    requires rest == [] || rest[0] != LF
    ensures DecodeMultiline([CR] + rest) == None
  {
  }

  /** The text written for a string that starts with a carriage return. */
  lemma EscapedReturn(s: string, body: string)
    requires s != [] && s[0] == CR && body == Escaped(s) + CLOSE
    ensures |s| > 1 && s[1] == LF ==> body == [CR, LF] + (Escaped(s[2..]) + CLOSE)
    ensures !(|s| > 1 && s[1] == LF) ==> |body| > 1 && body[1] != LF && body == [CR] + body[1..]
  {
    TripleStart(s);
    if |s| > 1 && s[1] == LF {
      TripleStart(s[1..]);
      EscapedPair(s);
      Regroup([CR, LF], Escaped(s[2..]), CLOSE);
    } else {
      EscapedStep(s);
      SecondOfEscaped(s[1..]);
      Regroup([CR], Escaped(s[1..]), CLOSE);
      PutBefore(CR, Escaped(s[1..]) + CLOSE);
    }
  }

  lemma SecondOfEscaped(rest: string)
    requires rest == [] || rest[0] != LF
    ensures (Escaped(rest) + CLOSE)[0] != LF
  {
    if rest != [] { FirstOfEscaped(rest); }
  }

  lemma DecodeReturn(s: string)
    requires s != [] && s[0] == CR && (|s| > 1 && s[1] == LF ==> DecodesRight(s[2..]))
    ensures DecodesRight(s)
  {
    var body := Escaped(s) + CLOSE;
    EscapedReturn(s, body);
    PlainReturn(s);
    if |s| > 1 && s[1] == LF {
      ReturnAndFeed(Escaped(s[2..]) + CLOSE);
      assert s == [CR, LF] + s[2..];
    } else {
      BareReturn(body[1..]);
    }
  }

  lemma DecodeNothing()
    ensures DecodesRight([])
  {
    QuotesAtEnd(0);
    assert Escaped([]) + CLOSE == [QUOTE, QUOTE][..0] + CLOSE && [QUOTE, QUOTE][..0] == [];
  }

  /** The text written for s, whatever its characters, is decoded to s or refused. */
  lemma {:induction false} DecodeEscaped(s: string)
    ensures DecodesRight(s)
    decreases |s|
  {
    if s == [] {
      DecodeNothing();
    } else if Triple(s) {
      DecodeEscaped(s[3..]);
      DecodeTriple(s);
    } else if s[0] == QUOTE {
      var k := FewLeading(s);
      if k < |s| { DecodeEscaped(s[k..]); }
      DecodeQuotes(s, k);
    } else if s[0] == CR {
      if |s| > 1 && s[1] == LF { DecodeEscaped(s[2..]); }
      DecodeReturn(s);
    } else {
      DecodeEscaped(s[1..]);
      DecodeOther(s);
    }
  }

  // ------------------------------------------------------ round trip

  /** What formatString writes is read back, exactly for one-line strings without DEL, and
      for others that do not start with a line break, have no carriage return but in CR LF,
      and no other control characters but tabs. A caller can see from the string which it is. */
  predicate ReadsBack(s: string) {
    if LF !in s && CR !in s then NoDel(s) else s[0] != LF && s[0] != CR && Plain(s)
  }

  lemma RoundTrip(s: string)
    ensures Decode(FormatString(s)) == Some(s) <==> ReadsBack(s)
  {
    if !Multiline(s) {
      DecodeJsonBody(s);
      OneLineShape(s);
    } else {
      TwoReplaces(s);
      DecodeEscaped(s);
      FirstOfEscaped(s);
      var body := Escaped(s) + CLOSE;
      assert FormatString(s) == CLOSE + body && (CLOSE + body)[3..] == body && (CLOSE + body)[..3] == CLOSE;
      if s[0] == LF {
        LineFeedLost(s);
      } else if s[0] == CR {
        LeadingReturnLost(s);
      }
    }
  }

  /** A leading line feed is taken for the newline after the opening quotes. */
  lemma LineFeedLost(s: string)
    requires s != [] && s[0] == LF
    ensures DecodeMultiline(Trimmed(Escaped(s) + CLOSE)) != Some(s)
  {
    TripleStart(s);
    EscapedStep(s);
    var body, rest := Escaped(s) + CLOSE, Escaped(s[1..]) + CLOSE;
    assert body == [LF] + rest && body[1..] == rest;
    DecodeEscaped(s[1..]);
  }

  /** A leading CR LF is lost in the same way, and any other leading CR is refused. */
  lemma LeadingReturnLost(s: string)
    requires s != [] && s[0] == CR
    ensures DecodeMultiline(Trimmed(Escaped(s) + CLOSE)) != Some(s)
  {
    var body := Escaped(s) + CLOSE;
    EscapedReturn(s, body);
    if |s| > 1 && s[1] == LF {
      var rest := Escaped(s[2..]) + CLOSE;
      assert body[2..] == rest;
      DecodeEscaped(s[2..]);
    } else {
      DecodeEscaped(s);
      PlainReturn(s);
    }
  }

  lemma OneLineShape(s: string)
    ensures var t := [QUOTE] + JsonBody(s) + [QUOTE];
            !(|t| >= 3 && t[..3] == CLOSE) && t[1..] == JsonBody(s) + [QUOTE]
  {
    var t := [QUOTE] + JsonBody(s) + [QUOTE];
    if s != [] {
      assert t[1] == JsonChar(s[0])[0] != QUOTE;
    }
    if |t| >= 3 { assert t[..3][1] == t[1]; }
  }
}
