/** The three JavaScript string primitives the mower pipeline relies on:
    `String.prototype.trim`, `String.prototype.split` with a one-character
    separator, and `parseInt(s, 10)`. Strings are sequences of characters. */
module Strings {
  import opened Wrappers

  /** The characters `trim` and `parseInt` skip: ECMAScript's WhiteSpace
      (tab, vertical tab, form feed, no-break space, byte order mark and the
      Unicode space separators) and LineTerminator characters. */
  predicate IsWhitespace(c: char) {
    c == '\t' || c == '\n' || c == '\U{000B}' || c == '\U{000C}' || c == '\r'
    || c == ' ' || c == '\U{00A0}' || c == '\U{1680}'
    || ('\U{2000}' <= c <= '\U{200A}')
    || c == '\U{2028}' || c == '\U{2029}' || c == '\U{202F}' || c == '\U{205F}'
    || c == '\U{3000}' || c == '\U{FEFF}'
  }

  predicate AllWhitespace(s: string) {
    forall i :: 0 <= i < |s| ==> IsWhitespace(s[i])
  }

  /** Number of white-space characters at the front of `s`. */
  function LeadingSpace(s: string): (k: nat)
    ensures k <= |s|
  {
    if s == [] || !IsWhitespace(s[0]) then 0 else 1 + LeadingSpace(s[1..])
  }

  lemma {:induction false} LeadingSpaceSpec(s: string)
    ensures forall j :: 0 <= j < LeadingSpace(s) ==> IsWhitespace(s[j])
    ensures LeadingSpace(s) == |s| || !IsWhitespace(s[LeadingSpace(s)])
  {
    if s != [] && IsWhitespace(s[0]) {
      LeadingSpaceSpec(s[1..]);
    }
  }

  /** Number of white-space characters at the end of `s`. */
  function TrailingSpace(s: string): (k: nat)
    ensures k <= |s|
  {
    if s == [] || !IsWhitespace(s[|s| - 1]) then 0 else 1 + TrailingSpace(s[..|s| - 1])
  }

  lemma {:induction false} TrailingSpaceSpec(s: string)
    ensures forall j :: |s| - TrailingSpace(s) <= j < |s| ==> IsWhitespace(s[j])
    ensures TrailingSpace(s) == |s| || !IsWhitespace(s[|s| - 1 - TrailingSpace(s)])
  {
    if s != [] && IsWhitespace(s[|s| - 1]) {
      TrailingSpaceSpec(s[..|s| - 1]);
    }
  }

  function TrimStart(s: string): (r: string) {
    s[LeadingSpace(s)..]
  }

  /** `s.trim()`: `s` without its leading and trailing white space. */
  function Trim(s: string): (r: string) {
    var t := TrimStart(s);
    t[..|t| - TrailingSpace(t)]
  }

  /** What `trim` promises: the result is a contiguous part of `s` that
      neither starts nor ends with white space, and everything cut off
      around it is white space. */
  lemma TrimSpec(s: string)
    ensures var r := Trim(s);
      var i := LeadingSpace(s);
      && i + |r| <= |s| && r == s[i..i + |r|]
      && (forall j :: 0 <= j < i ==> IsWhitespace(s[j]))
      && (forall j :: i + |r| <= j < |s| ==> IsWhitespace(s[j]))
      && (r == [] || (!IsWhitespace(r[0]) && !IsWhitespace(r[|r| - 1])))
  {
    var i := LeadingSpace(s);
    var t := s[i..];
    var k := TrailingSpace(t);
    var r := t[..|t| - k];
    assert Trim(s) == r;
    assert r == s[i..i + |r|];
    LeadingSpaceSpec(s);
    TrimTail(s[i..]);
    if r != [] {
      assert r[0] == s[i];
    }
  }

  /** What the trailing cut leaves and removes, on a string whose leading
      white space is already gone. */
  lemma TrimTail(t: string)
    ensures var k := TrailingSpace(t);
      && (forall j :: |t| - k <= j < |t| ==> IsWhitespace(t[j]))
      && (k < |t| ==> !IsWhitespace(t[..|t| - k][|t| - k - 1]))
  {
    TrailingSpaceSpec(t);
  }

  /** `trim` gives the empty string exactly for white-space-only input. */
  lemma TrimEmpty(s: string)
    ensures Trim(s) == [] <==> AllWhitespace(s)
  {
    TrimSpec(s);
    LeadingSpaceSpec(s);
    var i := LeadingSpace(s);
    if Trim(s) == [] {
      assert i == |s|;
      assert s[..i] == s;
    } else {
      assert !IsWhitespace(s[i]);
    }
  }

  /** A string with no white space at either end is its own trim. */
  lemma TrimNoop(s: string)
    requires s == [] || (!IsWhitespace(s[0]) && !IsWhitespace(s[|s| - 1]))
    ensures Trim(s) == s
  {
    assert LeadingSpace(s) == 0;
    assert TrimStart(s) == s;
    assert TrailingSpace(s) == 0;
  }

  /** One white-space character on either side is trimmed away. */
  lemma TrimPadded(s: string, before: char, after: char)
    requires IsWhitespace(before) && IsWhitespace(after)
    requires s == [] || (!IsWhitespace(s[0]) && !IsWhitespace(s[|s| - 1]))
    ensures Trim([before] + s + [after]) == s
  {
    var p := [before] + s + [after];
    if s == [] {
      assert p == [before, after];
      assert LeadingSpace(p) == 2;
    } else {
      assert p[1..] == s + [after];
      assert LeadingSpace(p) == 1;
      var t := s + [after];
      assert TrimStart(p) == t;
      assert t[..|t| - 1] == s;
      assert TrailingSpace(t) == 1;
    }
  }

  /** `trim` is idempotent. */
  lemma TrimIdempotent(s: string)
    ensures Trim(Trim(s)) == Trim(s)
  {
    TrimSpec(s);
    TrimNoop(Trim(s));
  }

  /** Position of the first `c` in `s`, or `|s|` when there is none. */
  function Find(s: string, c: char): (k: nat)
    ensures k <= |s|
    ensures c !in s[..k]
    ensures k < |s| ==> s[k] == c
  {
    if s == [] then 0
    else if s[0] == c then 0
    else
      var k := 1 + Find(s[1..], c);
      assert s[..k] == [s[0]] + s[1..][..k - 1];
      k
  }

  /** Joining pieces with a separator: the inverse of `Split`. */
  function Join(parts: seq<string>, sep: char): string
    requires |parts| >= 1
  {
    if |parts| == 1 then parts[0] else parts[0] + [sep] + Join(parts[1..], sep)
  }

  /** `s.split(sep)` for a one-character separator: at least one piece,
      no piece holds the separator, and joining the pieces back gives `s`. */
  function Split(s: string, sep: char): (parts: seq<string>)
    ensures |parts| >= 1
    ensures forall i :: 0 <= i < |parts| ==> sep !in parts[i]
    ensures Join(parts, sep) == s
    decreases |s|
  {
    var k := Find(s, sep);
    if k == |s| then
      assert s[..k] == s;
      [s]
    else
      var rest := Split(s[k + 1..], sep);
      assert s == s[..k] + [sep] + s[k + 1..];
      [s[..k]] + rest
  }

  /** The other half of the round trip: splitting a join of separator-free
      pieces gives the pieces back. */
  lemma {:induction false} SplitJoin(parts: seq<string>, sep: char)
    requires |parts| >= 1
    requires forall i :: 0 <= i < |parts| ==> sep !in parts[i]
    ensures Split(Join(parts, sep), sep) == parts
    decreases |parts|
  {
    var s := Join(parts, sep);
    if |parts| == 1 {
      FindAbsent(s, sep);
    } else {
      var rest := Join(parts[1..], sep);
      assert s == parts[0] + [sep] + rest;
      FindFirst(parts[0], sep, rest);
      assert s[..|parts[0]|] == parts[0];
      assert s[|parts[0]| + 1..] == rest;
      SplitJoin(parts[1..], sep);
    }
  }

  lemma FindAbsent(s: string, c: char)
    requires c !in s
    ensures Find(s, c) == |s|
  {
  }

  lemma FindFirst(a: string, c: char, b: string)
    requires c !in a
    ensures Find(a + [c] + b, c) == |a|
  {
    var s := a + [c] + b;
    assert s[|a|] == c;
    assert s[..|a|] == a;
  }

  predicate IsDigit(c: char) {
    '0' <= c <= '9'
  }

  predicate AllDigits(s: string) {
    forall i :: 0 <= i < |s| ==> IsDigit(s[i])
  }

  function DigitValue(c: char): (d: nat)
    requires IsDigit(c)
    ensures d <= 9
  {
    c as int - '0' as int
  }

  function DigitChar(d: nat): (c: char)
    requires d <= 9
    ensures IsDigit(c) && DigitValue(c) == d
  {
    ('0' as int + d) as char
  }

  /** Length of the longest run of decimal digits at the front of `s`. */
  function DigitRun(s: string): (k: nat)
    ensures k <= |s|
    ensures AllDigits(s[..k])
    ensures k == |s| || !IsDigit(s[k])
  {
    if s == [] || !IsDigit(s[0]) then 0
    else
      var k := 1 + DigitRun(s[1..]);
      assert s[..k] == [s[0]] + s[1..][..k - 1];
      k
  }

  /** The number a string of decimal digits denotes. */
  function DigitsValue(ds: string): nat
    requires AllDigits(ds)
  {
    if ds == [] then 0
    else 10 * DigitsValue(ds[..|ds| - 1]) + DigitValue(ds[|ds| - 1])
  }

  /** `parseInt(s, 10)`: skip leading white space, take an optional sign,
      then the longest run of decimal digits; with no digit the result is
      `NaN`, here `None`. */
  function ParseInt(s: string): Option<int> {
    var t := TrimStart(s);
    var negative := |t| > 0 && t[0] == '-';
    var body := if |t| > 0 && (t[0] == '-' || t[0] == '+') then t[1..] else t;
    var k := DigitRun(body);
    if k == 0 then None
    else
      var magnitude: int := DigitsValue(body[..k]);
      Some(if negative then -magnitude else magnitude)
  }

  /** Decimal notation of a natural number, without leading zeros. */
  function Natural(n: nat): (s: string)
    ensures |s| >= 1 && AllDigits(s)
  {
    if n < 10 then [DigitChar(n)] else Natural(n / 10) + [DigitChar(n % 10)]
  }

  /** Decimal notation of an integer, with a `-` sign when negative. */
  function Decimal(n: int): (s: string)
    ensures |s| >= 1
  {
    if n < 0 then "-" + Natural(-n) else Natural(n)
  }

  lemma {:induction false} NaturalValue(n: nat)
    ensures DigitsValue(Natural(n)) == n
  {
    if n >= 10 {
      var s := Natural(n);
      assert s[..|s| - 1] == Natural(n / 10);
      NaturalValue(n / 10);
    }
  }

  /** On one character, `parseInt` succeeds exactly on a decimal digit and
      then gives that digit's value. */
  lemma ParseIntChar(c: char)
    ensures ParseInt([c]) == if IsDigit(c) then Some(DigitValue(c)) else None
  {
    var s := [c];
    if IsWhitespace(c) {
      assert LeadingSpace(s) == 1;
      assert TrimStart(s) == [];
    } else {
      assert LeadingSpace(s) == 0;
      assert TrimStart(s) == s;
      if IsDigit(c) {
        assert DigitRun(s) == 1;
        assert s[..1] == s;
        assert DigitsValue(s) == DigitValue(c) by {
          assert s[..0] == [];
        }
      } else {
        assert DigitRun(s) == 0;
      }
    }
  }

  /** `parseInt` reads back what `Decimal` writes, whatever follows the
      digits as long as it does not start with a digit: this is the prefix
      behaviour that makes `parseInt("5a")` equal 5. */
  lemma DecimalRoundTrip(n: int, rest: string)
    requires rest == [] || !IsDigit(rest[0])
    ensures ParseInt(Decimal(n) + rest) == Some(n)
  {
    var d := Decimal(n);
    var s := d + rest;
    LeadingSpaceSpec(s);
    var m: nat := if n < 0 then -n else n;
    var digits := Natural(m);
    var body := digits + rest;
    assert !IsWhitespace(s[0]) by {
      if n < 0 { assert s[0] == '-'; } else { assert s[0] == digits[0]; }
    }
    assert LeadingSpace(s) == 0;
    assert TrimStart(s) == s;
    if n < 0 {
      assert s[1..] == body;
    } else {
      assert s == body;
    }
    DigitRunOf(digits, rest);
    assert body[..|digits|] == digits;
    NaturalValue(m);
  }

  lemma DigitRunOf(digits: string, rest: string)
    requires AllDigits(digits)
    requires rest == [] || !IsDigit(rest[0])
    ensures DigitRun(digits + rest) == |digits|
  {
    var s := digits + rest;
    assert s[..|digits|] == digits;
  }

  /** `parseInt` of the empty string is `NaN`. */
  lemma ParseIntEmpty()
    ensures ParseInt("") == None
  {
    assert LeadingSpace("") == 0;
  }
}
