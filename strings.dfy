/** The JavaScript string operations the core relies on, over strings of Unicode scalar values. */
module Strings {
  import opened Common

  /** `s.startsWith(p)`. */
  predicate StartsWith(s: string, p: string) {
    p <= s
  }

  /** True when `p` occurs in `s` at position `j`. */
  predicate OccursAt(s: string, p: string, j: int) {
    0 <= j && j + |p| <= |s| && s[j..j + |p|] == p
  }

  /** `s.indexOf(p)`: the first position at which `p` occurs in `s`, if any. */
  function IndexOf(s: string, p: string): (r: Option<nat>)
    ensures r.Some? ==> OccursAt(s, p, r.value)
    ensures r.Some? ==> forall j :: 0 <= j < r.value ==> !OccursAt(s, p, j)
    ensures r.None? ==> forall j :: !OccursAt(s, p, j)
    decreases |s|
  {
    if p <= s then Some(0)
    else if s == [] then None
    else
      var rest := IndexOf(s[1..], p);
      assert forall j :: 1 <= j ==> (OccursAt(s, p, j) <==> OccursAt(s[1..], p, j - 1));
      match rest
      case Some(i) => Some(i + 1)
      case None => None
  }

  /** `s.includes(p)`. */
  predicate Contains(s: string, p: string) {
    IndexOf(s, p).Some?
  }

  /** Every character of a contained string is a character of the containing one. */
  lemma ContainsChars(s: string, p: string, x: char)
    requires Contains(s, p) && x in p
    ensures x in s
  {
    var j := IndexOf(s, p).value;
    var k :| 0 <= k < |p| && p[k] == x;
    assert s[j..j + |p|][k] == s[j + k];
  }

  /** A string lacking a character contains no string that holds it. */
  lemma NotContainsChar(s: string, p: string, x: char)
    requires x in p && x !in s
    ensures !Contains(s, p)
  {
    if Contains(s, p) {
      ContainsChars(s, p, x);
    }
  }

  /** `s.replace(p, r)` with a string pattern: only the first occurrence is replaced. */
  function ReplaceFirst(s: string, p: string, r: string): (t: string)
    ensures !Contains(s, p) ==> t == s
    ensures Contains(s, p) ==> var i := IndexOf(s, p).value; t == s[..i] + r + s[i + |p|..]
  {
    match IndexOf(s, p)
    case None => s
    case Some(i) => s[..i] + r + s[i + |p|..]
  }

  /** The lower-case form of one character, as `toLowerCase` maps it for the characters whose
      lower-case form contains an ASCII letter; every other character is kept. */
  function LowerChar(c: char): string {
    if 'A' <= c <= 'Z' then [(c as int + 32) as char]
    else if c == '\U{212A}' then "k"            // KELVIN SIGN
    else if c == '\U{0130}' then "i\U{0307}"   // LATIN CAPITAL LETTER I WITH DOT ABOVE
    else [c]
  }

  /** `s.toLowerCase()`, restricted as LowerChar says. */
  function ToLower(s: string): string {
    if s == [] then [] else LowerChar(s[0]) + ToLower(s[1..])
  }

  predicate IsDigit(c: char) {
    '0' <= c <= '9'
  }

  /** Every character is an ASCII digit (JavaScript's `\d`). */
  predicate AllDigits(s: string) {
    forall i :: 0 <= i < |s| ==> IsDigit(s[i])
  }

  /** `s.substring(0, n)` for a non-negative `n`. */
  function Take(s: string, n: nat): (t: string)
    ensures |t| == Min(n, |s|) && t <= s
  {
    if n <= |s| then s[..n] else s
  }

  /** `parts.join(sep)`. */
  function Join(parts: seq<string>, sep: string): string {
    if |parts| == 0 then ""
    else if |parts| == 1 then parts[0]
    else parts[0] + sep + Join(parts[1..], sep)
  }

  /** `s.split(c)` for a one-character separator. */
  function Split(s: string, c: char): (parts: seq<string>)
    ensures |parts| >= 1
    ensures forall k :: 0 <= k < |parts| ==> c !in parts[k]
    decreases |s|
  {
    match IndexOf(s, [c])
    case None =>
      assert forall j :: 0 <= j < |s| ==> !OccursAt(s, [c], j);
      assert forall j :: 0 <= j < |s| ==> s[j] != c by {
        forall j | 0 <= j < |s| ensures s[j] != c { assert !OccursAt(s, [c], j); assert s[j..j + 1] == [s[j]]; }
      }
      [s]
    case Some(i) =>
      assert s[i..i + 1] == [c];
      assert forall j :: 0 <= j < i ==> s[j] != c by {
        forall j | 0 <= j < i ensures s[j] != c { assert !OccursAt(s, [c], j); assert s[j..j + 1] == [s[j]]; }
      }
      [s[..i]] + Split(s[i + 1..], c)
  }

  /** Splitting and joining again with the same separator gives back the string. */
  lemma {:induction false} JoinSplit(s: string, c: char)
    ensures Join(Split(s, c), [c]) == s
    decreases |s|
  {
    match IndexOf(s, [c])
    case None =>
    case Some(i) =>
      var rest := s[i + 1..];
      var parts := [s[..i]] + Split(rest, c);
      assert Split(s, c) == parts;
      assert parts[1..] == Split(rest, c);
      assert Join(parts, [c]) == s[..i] + [c] + Join(Split(rest, c), [c]);
      JoinSplit(rest, c);
      assert s[i..i + 1] == [c];
      assert s == s[..i] + [c] + rest;
  }

  /** Every character of the joined string comes from a part or from the separator. */
  lemma {:induction false} JoinChars(parts: seq<string>, sep: string, x: char)
    requires x in Join(parts, sep)
    ensures x in sep || exists k :: 0 <= k < |parts| && x in parts[k]
    decreases |parts|
  {
    if |parts| > 1 {
      var rest := Join(parts[1..], sep);
      assert Join(parts, sep) == parts[0] + sep + rest;
      if x !in parts[0] && x !in sep {
        assert x in rest;
        JoinChars(parts[1..], sep, x);
        var k :| 0 <= k < |parts[1..]| && x in parts[1..][k];
        assert x in parts[k + 1];
      }
    }
  }

  /** JavaScript's `WhiteSpace` and `LineTerminator` characters, which `trim` removes. */
  predicate IsJsWhitespace(c: char) {
    || c == '\t' || c == '\n' || c == '\U{000B}' || c == '\U{000C}' || c == '\r'
    || c == ' ' || c == '\U{00A0}' || c == '\U{1680}' || ('\U{2000}' <= c <= '\U{200A}')
    || c == '\U{2028}' || c == '\U{2029}' || c == '\U{202F}' || c == '\U{205F}'
    || c == '\U{3000}' || c == '\U{FEFF}'
  }

  /** `s.trimStart()`. */
  function TrimStart(s: string): (t: string)
    ensures |t| <= |s| && t == s[|s| - |t|..]
    ensures t == [] || !IsJsWhitespace(t[0])
    ensures forall i :: 0 <= i < |s| - |t| ==> IsJsWhitespace(s[i])
  {
    if s != [] && IsJsWhitespace(s[0]) then TrimStart(s[1..]) else s
  }

  /** `s.trimEnd()`. */
  function TrimEnd(s: string): (t: string)
    ensures |t| <= |s| && t == s[..|t|]
    ensures t == [] || !IsJsWhitespace(t[|t| - 1])
    ensures forall i :: |t| <= i < |s| ==> IsJsWhitespace(s[i])
  {
    if s != [] && IsJsWhitespace(s[|s| - 1]) then TrimEnd(s[..|s| - 1]) else s
  }

  /** `s.trim()`: the longest slice without leading or trailing whitespace. It is a slice of `s`
      with only whitespace cut off at either end. */
  function Trim(s: string): (t: string)
    ensures t == [] || (!IsJsWhitespace(t[0]) && !IsJsWhitespace(t[|t| - 1]))
    ensures |t| <= |s|
    ensures exists i :: 0 <= i <= |s| && t <= s[i..]
                        && (forall k :: 0 <= k < i ==> IsJsWhitespace(s[k]))
                        && (forall k :: i + |t| <= k < |s| ==> IsJsWhitespace(s[k]))
  {
    var u := TrimStart(s);
    var t := TrimEnd(u);
    var i := |s| - |u|;
    assert t <= s[i..];
    assert forall k :: i + |t| <= k < |s| ==> IsJsWhitespace(s[k]) by {
      forall k | i + |t| <= k < |s| ensures IsJsWhitespace(s[k]) {
        assert s[k] == u[k - i];
      }
    }
    t
  }

  /** The characters of `Trim(s)` are characters of `s`. */
  lemma {:induction false} TrimChars(s: string, x: char)
    requires x in Trim(s)
    ensures x in s
  {
    TrimEndChars(TrimStart(s), x);
    TrimStartChars(s, x);
  }

  lemma TrimStartChars(s: string, x: char)
    requires x in TrimStart(s)
    ensures x in s
  {
    var u := TrimStart(s);
    SliceChars(s, u, |s| - |u|, x);
  }

  lemma TrimEndChars(s: string, x: char)
    requires x in TrimEnd(s)
    ensures x in s
  {
    SliceChars(s, TrimEnd(s), 0, x);
  }

  /** A character of a slice is a character of the whole. */
  lemma SliceChars(s: string, t: string, k: nat, x: char)
    requires k + |t| <= |s| && t == s[k..k + |t|] && x in t
    ensures x in s
  {
    var i :| 0 <= i < |t| && t[i] == x;
    assert s[k + i] == x;
  }

  lemma {:induction false} TrimIdempotent(s: string)
    ensures Trim(Trim(s)) == Trim(s)
  {
    var t := Trim(s);
    if t != [] {
      assert TrimStart(t) == t;
      assert TrimEnd(t) == t;
    }
  }

  /** The number of UTF-16 code units of a string: JavaScript's `length`. */
  function Utf16Length(s: string): (n: nat)
    ensures |s| <= n <= 2 * |s|
  {
    if s == [] then 0
    else Utf16Length(s[..|s| - 1]) + (if s[|s| - 1] as int >= 0x1_0000 then 2 else 1)
  }

  /** The decimal digit of a value below ten. */
  function DigitChar(d: nat): (c: char)
    requires d < 10
    ensures IsDigit(c) && c as int - '0' as int == d
  {
    ('0' as int + d) as char
  }

  /** The decimal numeral of a natural number, as JavaScript prints an integer below 10^21. */
  function NatToString(n: nat): (s: string)
    ensures 1 <= |s| && AllDigits(s)
    decreases n
  {
    if n < 10 then [DigitChar(n)] else NatToString(n / 10) + [DigitChar(n % 10)]
  }

  /** `${i}` for an integer `i`. */
  function IntToString(i: int): (s: string)
    ensures 1 <= |s|
  {
    if i < 0 then "-" + NatToString(-i) else NatToString(i)
  }

  /** The value that a string of decimal digits denotes. */
  function DecimalValue(s: string): nat
    requires AllDigits(s)
  {
    if s == [] then 0 else 10 * DecimalValue(s[..|s| - 1]) + (s[|s| - 1] as int - '0' as int)
  }

  /** Reading a printed numeral gives back the number. */
  lemma {:induction false} DecimalRoundTrip(n: nat)
    ensures DecimalValue(NatToString(n)) == n
    decreases n
  {
    if n >= 10 {
      DecimalRoundTrip(n / 10);
      var s := NatToString(n);
      assert s[..|s| - 1] == NatToString(n / 10);
    }
  }

  /** Distinct integers are printed differently. */
  lemma IntToStringInjective(a: int, b: int)
    requires IntToString(a) == IntToString(b)
    ensures a == b
  {
    var sa, sb := IntToString(a), IntToString(b);
    assert (sa[0] == '-') == (a < 0);
    assert (sb[0] == '-') == (b < 0);
    if a < 0 {
      assert NatToString(-a) == sa[1..] == NatToString(-b);
      DecimalRoundTrip(-a); DecimalRoundTrip(-b);
    } else {
      DecimalRoundTrip(a); DecimalRoundTrip(b);
    }
  }

  /** A sign or a digit: the characters of a printed integer. */
  predicate IsNumeralChar(c: char) {
    IsDigit(c) || c == '-'
  }

  /** Every character of a printed integer is a sign or a digit. */
  lemma IntToStringChars(i: int)
    ensures forall k :: 0 <= k < |IntToString(i)| ==> IsNumeralChar(IntToString(i)[k])
  {
    var n := if i < 0 then -i else i;
    assert AllDigits(NatToString(n));
  }

  /** Equal strings with equal prefixes have equal rests. */
  lemma CancelPrefix(p: string, a: string, b: string)
    requires p + a == p + b
    ensures a == b
  {
    assert a == (p + a)[|p|..];
    assert b == (p + b)[|p|..];
  }

  /** The length of the longest prefix of signs and digits. */
  function NumeralRun(w: string): (n: nat)
    ensures n <= |w|
  {
    if w == [] || !IsNumeralChar(w[0]) then 0 else 1 + NumeralRun(w[1..])
  }

  /** Signs and digits followed by another character: the run ends exactly there. */
  lemma {:induction false} NumeralRunOf(x: string, s: string)
    requires forall k :: 0 <= k < |x| ==> IsNumeralChar(x[k])
    requires s != [] && !IsNumeralChar(s[0])
    ensures NumeralRun(x + s) == |x|
    decreases |x|
  {
    if x == [] {
      assert x + s == s;
    } else {
      assert (x + s)[1..] == x[1..] + s;
      NumeralRunOf(x[1..], s);
    }
  }

  /** A printed integer between two fixed texts can be read back. */
  lemma NumeralBetween(lead: string, a: int, b: int, rest: string)
    requires rest != [] && !IsNumeralChar(rest[0])
    requires lead + IntToString(a) + rest == lead + IntToString(b) + rest
    ensures a == b
  {
    CancelLead(lead, IntToString(a), IntToString(b), rest);
    NumeralBeforeText(a, b, rest, rest);
  }

  lemma CancelLead(p: string, a: string, b: string, r: string)
    requires p + a + r == p + b + r
    ensures a + r == b + r
  {
    assert a + r == (p + a + r)[|p|..];
    assert b + r == (p + b + r)[|p|..];
  }

  /** Two printed integers, each followed by text that starts with a character no numeral
      holds, can only make the same string when they are the same integer. */
  lemma NumeralBeforeText(a: int, b: int, s: string, t: string)
    requires s != [] && t != [] && !IsNumeralChar(s[0]) && !IsNumeralChar(t[0])
    requires IntToString(a) + s == IntToString(b) + t
    ensures a == b && s == t
  {
    var x, y := IntToString(a), IntToString(b);
    IntToStringChars(a);
    IntToStringChars(b);
    NumeralRunOf(x, s);
    NumeralRunOf(y, t);
    assert x == (x + s)[..|x|] && y == (y + t)[..|y|];
    IntToStringInjective(a, b);
    CancelPrefix(x, s, t);
  }

  /** Code units add up over concatenation. */
  lemma {:induction false} Utf16LengthAppend(a: string, b: string)
    ensures Utf16Length(a + b) == Utf16Length(a) + Utf16Length(b)
    decreases |b|
  {
    if b == [] {
      assert a + b == a;
    } else {
      var init := b[..|b| - 1];
      Utf16LengthAppend(a, init);
      assert (a + b)[..|a + b| - 1] == a + init;
    }
  }

  /** A slice is no longer in code units than the whole string. */
  lemma Utf16LengthSlice(s: string, i: nat, j: nat)
    requires i <= j <= |s|
    ensures Utf16Length(s[i..j]) <= Utf16Length(s)
  {
    assert s == s[..i] + s[i..j] + s[j..];
    Utf16LengthAppend(s[..i] + s[i..j], s[j..]);
    Utf16LengthAppend(s[..i], s[i..j]);
  }

  /** Trimming never makes a string longer in code units. */
  lemma Utf16LengthTrim(s: string)
    ensures Utf16Length(Trim(s)) <= Utf16Length(s)
  {
    var u := TrimStart(s);
    var t := TrimEnd(u);
    assert u == s[|s| - |u|..|s|];
    assert t == u[0..|t|];
    Utf16LengthSlice(s, |s| - |u|, |s|);
    Utf16LengthSlice(u, 0, |t|);
  }
}
