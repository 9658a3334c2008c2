// String helpers shared by the SIP modules: the parts of Go's strings and sort
// packages that the configuration code relies on.
module Text {

  datatype Option<+T> = None | Some(value: T)

  /** Code points Go's unicode.IsSpace accepts. */
  predicate IsSpace(c: char) {
    var n := c as int;
    9 <= n <= 13 || n == 32 || n == 0x85 || n == 0xA0 || n == 0x1680 || 0x2000 <= n <= 0x200A
    || n == 0x2028 || n == 0x2029 || n == 0x202F || n == 0x205F || n == 0x3000
  }

  function TrimLeft(s: string): string {
    if s != [] && IsSpace(s[0]) then TrimLeft(s[1..]) else s
  }

  function TrimRight(s: string): string {
    if s != [] && IsSpace(s[|s| - 1]) then TrimRight(s[..|s| - 1]) else s
  }

  function TrimSpace(s: string): string { TrimRight(TrimLeft(s)) }

  function LowerChar(c: char): char {
    if 'A' <= c <= 'Z' then (c as int + 32) as char else c
  }

  /** Lower-cases the ASCII letters; every other character is left alone. */
  function ToLower(s: string): string {
    if s == [] then [] else [LowerChar(s[0])] + ToLower(s[1..])
  }

  lemma {:induction false} LowerIdempotent(s: string)
    ensures ToLower(ToLower(s)) == ToLower(s)
  {
    if s != [] {
      LowerIdempotent(s[1..]);
      assert ToLower(s)[1..] == ToLower(s[1..]);
    }
  }

  /** The ends of a trimmed string are not spaces, so a second trim does nothing. */
  lemma {:induction false} TrimRightShape(s: string)
    ensures TrimRight(s) <= s
    ensures TrimRight(s) != [] ==> !IsSpace(TrimRight(s)[|TrimRight(s)| - 1])
    decreases |s|
  {
    if s != [] && IsSpace(s[|s| - 1]) {
      TrimRightShape(s[..|s| - 1]);
    }
  }

  lemma {:induction false} TrimLeftShape(s: string)
    ensures TrimLeft(s) != [] ==> !IsSpace(TrimLeft(s)[0])
  {
    if s != [] && IsSpace(s[0]) {
      TrimLeftShape(s[1..]);
    }
  }

  lemma TrimmedEnds(s: string)
    ensures var t := TrimSpace(s); t != [] ==> !IsSpace(t[0]) && !IsSpace(t[|t| - 1])
    ensures TrimSpace(TrimSpace(s)) == TrimSpace(s)
  {
    TrimLeftShape(s);
    TrimRightShape(TrimLeft(s));
  }

  lemma TrimNothing(s: string)
    requires s != [] ==> !IsSpace(s[0]) && !IsSpace(s[|s| - 1])
    ensures TrimSpace(s) == s
  {
  }

  /** Blank, or empty. */
  predicate AllSpace(s: string) { forall i :: 0 <= i < |s| ==> IsSpace(s[i]) }

  lemma {:induction false} TrimLeftDrops(u: string, s: string)
    requires AllSpace(u) && (s != [] ==> !IsSpace(s[0]))
    ensures TrimLeft(u + s) == s
  {
    if u == [] {
      assert u + s == s;
    } else {
      assert (u + s)[1..] == u[1..] + s;
      TrimLeftDrops(u[1..], s);
    }
  }

  lemma {:induction false} TrimRightDrops(s: string, v: string)
    requires AllSpace(v) && (s != [] ==> !IsSpace(s[|s| - 1]))
    ensures TrimRight(s + v) == s
    decreases |v|
  {
    if v == [] {
      assert s + v == s;
    } else {
      assert (s + v)[..|s + v| - 1] == s + v[..|v| - 1];
      TrimRightDrops(s, v[..|v| - 1]);
    }
  }

  /** Trimming takes off the spaces on both sides and nothing else. */
  lemma TrimMeaning(u: string, s: string, v: string)
    requires AllSpace(u) && AllSpace(v) && (s != [] ==> !IsSpace(s[0]) && !IsSpace(s[|s| - 1]))
    ensures TrimSpace(u + s + v) == s
  {
    assert u + s + v == u + (s + v);
    if s == [] {
      assert AllSpace(u + v) && u + (s + v) == (u + v) + [];
      TrimLeftDrops(u + v, []);
    } else {
      TrimLeftDrops(u, s + v);
      TrimRightDrops(s, v);
    }
  }

  lemma {:induction false} BlankTrims(s: string)
    ensures TrimSpace(s) == "" <==> AllSpace(s)
  {
    var u, v := AroundTrimmed(s);
    assert s == u + TrimSpace(s) + v;
    if TrimSpace(s) == "" {
      assert s == u + v;
    } else {
      TrimmedEnds(s);
      assert s[|u|] == TrimSpace(s)[0];
    }
  }

  lemma AroundTrimmed(s: string) returns (u: string, v: string)
    ensures AllSpace(u) && AllSpace(v) && s == u + TrimSpace(s) + v
  {
    u := BeforeTrimmed(s);
    v := AfterTrimmed(TrimLeft(s));
    assert s == u + (TrimSpace(s) + v);
  }

  lemma {:induction false} BeforeTrimmed(s: string) returns (u: string)
    ensures AllSpace(u) && s == u + TrimLeft(s)
  {
    u := [];
    if s != [] && IsSpace(s[0]) {
      var rest := BeforeTrimmed(s[1..]);
      u := [s[0]] + rest;
    }
  }

  lemma {:induction false} AfterTrimmed(s: string) returns (v: string)
    ensures AllSpace(v) && s == TrimRight(s) + v
    decreases |s|
  {
    v := [];
    if s != [] && IsSpace(s[|s| - 1]) {
      var rest := AfterTrimmed(s[..|s| - 1]);
      v := rest + [s[|s| - 1]];
    }
  }

  /** Lower-casing changes the letters A to Z, each to its small form. */
  lemma {:induction false} LowerAt(s: string, i: nat)
    requires i < |s|
    ensures |ToLower(s)| == |s|
    ensures ToLower(s)[i] as int == if 65 <= s[i] as int <= 90 then s[i] as int + 32 else s[i] as int
  {
    LowerLength(s);
    if i > 0 { LowerAt(s[1..], i - 1); }
  }

  lemma {:induction false} LowerLength(s: string)
    ensures |ToLower(s)| == |s|
  {
    if s != [] { LowerLength(s[1..]); }
  }

  /** Go's string order: byte-wise lexicographic, a proper prefix first. */
  predicate Less(a: string, b: string) {
    b != [] && (a == [] || a[0] < b[0] || (a[0] == b[0] && Less(a[1..], b[1..])))
  }

  /** The first place where two strings differ decides, or the end of the first. */
  lemma {:induction false} LessMeaning(a: string, b: string)
    ensures Less(a, b) <==> exists k :: 0 <= k <= |a| && k < |b| && a[..k] == b[..k] && (k == |a| || (a[k] as int) < (b[k] as int))
  {
    if a != [] && b != [] && a[0] == b[0] {
      var x, y := a[1..], b[1..];
      LessMeaning(x, y);
      assert a == [a[0]] + x && b == [b[0]] + y;
      if k :| 0 <= k <= |x| && k < |y| && x[..k] == y[..k] && (k == |x| || (x[k] as int) < (y[k] as int)) {
        assert a[..k + 1] == [a[0]] + x[..k] && b[..k + 1] == [b[0]] + y[..k];
        assert k + 1 == |a| || (a[k + 1] as int) < (b[k + 1] as int);
      }
      if k :| 0 <= k <= |a| && k < |b| && a[..k] == b[..k] && (k == |a| || (a[k] as int) < (b[k] as int)) {
        assert a[1..k] == x[..k - 1] && b[1..k] == y[..k - 1] && a[..k][1..] == b[..k][1..];
        assert k - 1 == |x| || (x[k - 1] as int) < (y[k - 1] as int);
      }
    } else if b != [] {
      assert a[..0] == b[..0];
      if k :| 0 <= k <= |a| && k < |b| && a[..k] == b[..k] && (k == |a| || (a[k] as int) < (b[k] as int)) {
        if k > 0 { assert a[..k][0] == b[..k][0]; }
      }
    }
  }

  lemma {:induction false} LessTotal(a: string, b: string)
    ensures Less(a, b) || a == b || Less(b, a)
  {
    if a != [] && b != [] && a[0] == b[0] {
      LessTotal(a[1..], b[1..]);
      if a[1..] == b[1..] {
        assert a == [a[0]] + a[1..] && b == [b[0]] + b[1..];
      }
    }
  }

  lemma {:induction false} LessAsymmetric(a: string, b: string)
    requires Less(a, b)
    ensures !Less(b, a) && a != b
  {
    if a != [] && a[0] == b[0] {
      LessAsymmetric(a[1..], b[1..]);
    }
  }

  lemma {:induction false} LessTransitive(a: string, b: string, c: string)
    requires Less(a, b) && Less(b, c)
    ensures Less(a, c)
  {
    if a != [] && a[0] == b[0] == c[0] {
      LessTransitive(a[1..], b[1..], c[1..]);
    }
  }

  ghost predicate SortedBy<T>(xs: seq<T>, key: T -> string) {
    forall i, j :: 0 <= i < j < |xs| ==> !Less(key(xs[j]), key(xs[i]))
  }

  function InsertBy<T>(x: T, xs: seq<T>, key: T -> string): (r: seq<T>)
    ensures multiset(r) == multiset(xs) + multiset{x}
  {
    if xs == [] then [x]
    else if Less(key(xs[0]), key(x)) then
      var r := [xs[0]] + InsertBy(x, xs[1..], key);
      assert xs == [xs[0]] + xs[1..];
      r
    else
      [x] + xs
  }

  /** sort.Strings / sort.Slice with a string key. */
  function SortBy<T>(xs: seq<T>, key: T -> string): (r: seq<T>)
    ensures multiset(r) == multiset(xs)
    ensures |r| == |xs|
  {
    if xs == [] then []
    else
      var r := InsertBy(xs[0], SortBy(xs[1..], key), key);
      assert xs == [xs[0]] + xs[1..];
      assert |multiset(r)| == |multiset(xs)|;
      r
  }

  lemma {:induction false} InsertSorted<T>(x: T, xs: seq<T>, key: T -> string)
    requires SortedBy(xs, key)
    ensures SortedBy(InsertBy(x, xs, key), key)
  {
    if xs == [] {
    } else if Less(key(xs[0]), key(x)) {
      InsertSorted(x, xs[1..], key);
      var rest := InsertBy(x, xs[1..], key);
      forall j | 0 <= j < |rest| ensures !Less(key(rest[j]), key(xs[0])) {
        assert rest[j] in multiset(rest);
        if rest[j] != x {
          assert rest[j] in xs[1..];
        } else {
          LessAsymmetric(key(xs[0]), key(x));
        }
      }
    } else {
      forall j | 0 <= j < |xs| ensures !Less(key(xs[j]), key(x)) {
        if Less(key(xs[j]), key(x)) {
          LessTotal(key(xs[0]), key(x));
          if key(xs[0]) != key(x) && j > 0 {
            LessTransitive(key(xs[j]), key(x), key(xs[0]));
          }
        }
      }
    }
  }

  lemma {:induction false} SortSorted<T>(xs: seq<T>, key: T -> string)
    ensures SortedBy(SortBy(xs, key), key)
  {
    if xs != [] {
      SortSorted(xs[1..], key);
      InsertSorted(xs[0], SortBy(xs[1..], key), key);
    }
  }

  predicate Distinct<T(==)>(xs: seq<T>) {
    forall i, j :: 0 <= i < j < |xs| ==> xs[i] != xs[j]
  }

  lemma {:induction false} DistinctMultiset<T>(xs: seq<T>)
    ensures Distinct(xs) <==> forall x :: multiset(xs)[x] <= 1
  {
    if xs != [] {
      var h, t := xs[0], xs[1..];
      assert xs == [h] + t;
      assert multiset(xs) == multiset{h} + multiset(t);
      DistinctMultiset(t);
      if Distinct(xs) {
        assert forall i :: 0 <= i < |t| ==> t[i] == xs[i + 1];
        assert Distinct(t);
        assert h !in t;
        assert multiset(t)[h] == 0;
      } else {
        var i, j :| 0 <= i < j < |xs| && xs[i] == xs[j];
        if i == 0 {
          assert h == t[j - 1];
          assert h in t;
          assert multiset(xs)[h] >= 2;
        } else {
          assert t[i - 1] == t[j - 1];
          assert !Distinct(t);
          var x :| multiset(t)[x] > 1;
          assert multiset(xs)[x] > 1;
        }
      }
    }
  }

  lemma SortDistinct<T>(xs: seq<T>, key: T -> string)
    requires Distinct(xs)
    ensures Distinct(SortBy(xs, key))
  {
    DistinctMultiset(xs);
    DistinctMultiset(SortBy(xs, key));
  }

  // ----------------------------------------------------- decimal numerals

  function DigitChar(n: nat): char
    requires n < 10
  { ('0' as int + n) as char }

  function Digits(n: nat): string {
    if n < 10 then [DigitChar(n)] else Digits(n / 10) + [DigitChar(n % 10)]
  }

  /** strconv.Itoa and the %d verb. */
  function Itoa(k: int): string { if k < 0 then "-" + Digits(-k) else Digits(k) }

  lemma DigitsLonger(n: nat)
    ensures |Digits(n)| > 0 && (n >= 10 <==> |Digits(n)| > 1)
  {
    if n >= 10 {
      DigitsLonger(n / 10);
    }
  }

  lemma {:induction false} DigitsInjective(a: nat, b: nat)
    ensures Digits(a) == Digits(b) ==> a == b
    decreases a
  {
    if Digits(a) == Digits(b) {
      DigitsLonger(a);
      DigitsLonger(b);
      if a >= 10 && b >= 10 {
        var x, y := Digits(a), Digits(b);
        assert x[..|x| - 1] == Digits(a / 10) && y[..|y| - 1] == Digits(b / 10);
        assert x[|x| - 1] == y[|y| - 1];
        DigitsInjective(a / 10, b / 10);
      }
    }
  }

  lemma {:induction false} DigitsPlain(n: nat)
    ensures Digits(n) != []
    ensures forall i :: 0 <= i < |Digits(n)| ==> Digits(n)[i] != '/' && Digits(n)[i] != '-'
  {
    if n >= 10 {
      DigitsPlain(n / 10);
    }
  }

  lemma ItoaFacts(a: int, b: int)
    ensures Itoa(a) == Itoa(b) ==> a == b
    ensures forall i :: 0 <= i < |Itoa(a)| ==> Itoa(a)[i] != '/'
  {
    var x, y := if a < 0 then -a else a, if b < 0 then -b else b;
    DigitsPlain(x);
    DigitsPlain(y);
    if Itoa(a) == Itoa(b) {
      assert (a < 0) == (Itoa(a)[0] == '-');
      assert (b < 0) == (Itoa(b)[0] == '-');
      if a < 0 {
        assert Itoa(a)[1..] == Digits(x) && Itoa(b)[1..] == Digits(y);
      }
      DigitsInjective(x, y);
    }
  }
}
