/**
 * The few String and Array.prototype operations the library leans on:
 * split/join on a one-character separator, indexOf, trim, the decimal
 * spelling of integers and ASCII case handling.
 */
module Strings {
  import opened Wrappers

  /** Position of the first `c` in `s`, or `|s|` when there is none. */
  function IndexOf(s: string, c: char): (r: nat)
    ensures r <= |s|
    ensures r < |s| ==> s[r] == c
    ensures forall i :: 0 <= i < r ==> s[i] != c
  {
    if s == [] then 0 else if s[0] == c then 0 else 1 + IndexOf(s[1..], c)
  }

  /** `s.split(c)`: the maximal `c`-free pieces, in order (always at least one). */
  function Split(s: string, c: char): (parts: seq<string>)
    ensures |parts| >= 1
    ensures forall i :: 0 <= i < |parts| ==> c !in parts[i]
    decreases |s|
  {
    var k := IndexOf(s, c);
    if k == |s| then [s] else [s[..k]] + Split(s[k + 1..], c)
  }

  /** `parts.join(c)`. */
  function Join(parts: seq<string>, c: char): string
  {
    if parts == [] then ""
    else if |parts| == 1 then parts[0]
    else parts[0] + [c] + Join(parts[1..], c)
  }

  /** Joining the pieces of a split gives the string back. */
  lemma {:induction false} JoinSplit(s: string, c: char)
    ensures Join(Split(s, c), c) == s
    decreases |s|
  {
    var k := IndexOf(s, c);
    if k < |s| {
      var parts := Split(s, c);
      var rest := Split(s[k + 1..], c);
      assert parts == [s[..k]] + rest;
      assert parts[1..] == rest;
      JoinSplit(s[k + 1..], c);
      assert Join(parts, c) == s[..k] + [c] + s[k + 1..];
      assert s == s[..k] + [c] + s[k + 1..];
    }
  }

  /** Splitting a join of separator-free pieces gives the pieces back. */
  lemma {:induction false} SplitJoin(parts: seq<string>, c: char)
    requires |parts| >= 1
    requires forall i :: 0 <= i < |parts| ==> c !in parts[i]
    ensures Split(Join(parts, c), c) == parts
  {
    if |parts| > 1 {
      var s := Join(parts, c);
      assert s == parts[0] + [c] + Join(parts[1..], c);
      IndexOfPrefix(parts[0], c, Join(parts[1..], c));
      assert s[..|parts[0]|] == parts[0];
      assert s[|parts[0]| + 1..] == Join(parts[1..], c);
      SplitJoin(parts[1..], c);
    } else {
      assert IndexOf(parts[0], c) == |parts[0]|;
    }
  }

  lemma {:induction false} IndexOfPrefix(p: string, c: char, rest: string)
    requires c !in p
    ensures IndexOf(p + [c] + rest, c) == |p|
  {
    if p != [] {
      assert (p + [c] + rest)[1..] == p[1..] + [c] + rest;
      IndexOfPrefix(p[1..], c, rest);
    }
  }

  /** Everything after the first `c`, or "" when `s` has no `c`: `s.split(c).slice(1).join(c)`. */
  function AfterFirst(s: string, c: char): string
  {
    Join(Split(s, c)[1..], c)
  }

  lemma {:induction false} AfterFirstIsSuffix(s: string, c: char)
    ensures IndexOf(s, c) < |s| ==> AfterFirst(s, c) == s[IndexOf(s, c) + 1..]
    ensures IndexOf(s, c) == |s| ==> AfterFirst(s, c) == ""
  {
    var k := IndexOf(s, c);
    if k < |s| {
      assert Split(s, c)[1..] == Split(s[k + 1..], c);
      JoinSplit(s[k + 1..], c);
    } else {
      assert Split(s, c) == [s];
    }
  }

  function Digit(d: nat): char
    requires d < 10
  {
    "0123456789"[d]
  }

  /** The decimal spelling of a natural number, without leading zeros. */
  function NatToString(n: nat): (r: string)
    ensures |r| >= 1
    ensures forall i :: 0 <= i < |r| ==> '0' <= r[i] <= '9'
    ensures |r| > 1 ==> r[0] != '0'
  {
    if n < 10 then [Digit(n)] else NatToString(n / 10) + [Digit(n % 10)]
  }

  /** `String(n)` for an integer. */
  function IntToString(n: int): string
  {
    if n < 0 then "-" + NatToString(-n) else NatToString(n)
  }

  lemma IntToStringNonEmpty(n: int)
    ensures IntToString(n) != ""
  {
    if n >= 0 {
      assert |NatToString(n)| >= 1;
    }
  }

  function DigitValue(c: char): nat
    requires '0' <= c <= '9'
  {
    c as nat - '0' as nat
  }

  function ParseDigits(s: string): nat
    requires forall i :: 0 <= i < |s| ==> '0' <= s[i] <= '9'
  {
    if s == [] then 0 else ParseDigits(s[..|s| - 1]) * 10 + DigitValue(s[|s| - 1])
  }

  /** The array index a property key denotes: a canonical decimal spelling ("0", "17", not "017"). */
  function ParseIndex(key: string): Option<nat>
  {
    if key != [] && (forall i :: 0 <= i < |key| ==> '0' <= key[i] <= '9') && (|key| == 1 || key[0] != '0')
    then Some(ParseDigits(key))
    else None
  }

  lemma {:induction false} ParseDigitsOfNat(n: nat)
    ensures ParseDigits(NatToString(n)) == n
  {
    if n >= 10 {
      var s := NatToString(n);
      var q, d := n / 10, n % 10;
      assert s == NatToString(q) + [Digit(d)];
      assert s[..|s| - 1] == NatToString(q);
      ParseDigitsOfNat(q);
      DigitRoundTrip(d);
      assert ParseDigits(s) == q * 10 + d;
    } else {
      DigitRoundTrip(n);
    }
  }

  lemma DigitRoundTrip(d: nat)
    requires d < 10
    ensures DigitValue(Digit(d)) == d
  {
  }

  /** Index keys round-trip: the key spelled for index `n` denotes `n`. */
  lemma ParseIndexOfNat(n: nat)
    ensures ParseIndex(NatToString(n)) == Some(n)
  {
    ParseDigitsOfNat(n);
  }

  /** The white space and line terminators `String.prototype.trim` removes. */
  predicate IsJsSpace(c: char)
  {
    c == '\t' || c == '\n' || c == '\U{000B}' || c == '\U{000C}' || c == '\r' || c == ' '
    || c == '\U{00A0}' || c == '\U{1680}' || ('\U{2000}' <= c <= '\U{200A}')
    || c == '\U{2028}' || c == '\U{2029}' || c == '\U{202F}' || c == '\U{205F}'
    || c == '\U{3000}' || c == '\U{FEFF}'
  }

  function TrimStart(s: string): (r: string)
    ensures |r| <= |s| && r == s[|s| - |r|..]
    ensures r != [] ==> !IsJsSpace(r[0])
  {
    if s != [] && IsJsSpace(s[0]) then TrimStart(s[1..]) else s
  }

  function TrimEnd(s: string): (r: string)
    ensures |r| <= |s| && r == s[..|r|]
    ensures r != [] ==> !IsJsSpace(r[|r| - 1])
  {
    if s != [] && IsJsSpace(s[|s| - 1]) then TrimEnd(s[..|s| - 1]) else s
  }

  /** `s.trim()`. */
  function Trim(s: string): string
  {
    TrimEnd(TrimStart(s))
  }

  predicate AllDigits(s: string)
  {
    forall i :: 0 <= i < |s| ==> '0' <= s[i] <= '9'
  }

  /**
   * ToNumber of a string, for the decimal integer syntax: white space around
   * the number is ignored, the empty string is 0, a sign may lead the digits,
   * and any other text is NaN (None).
   */
  function StringToNumber(s: string): Option<int>
  {
    NumberText(Trim(s))
  }

  /** The decimal integer a trimmed text spells, if any. */
  function NumberText(t: string): Option<int>
  {
    if t == "" then Some(0)
    else if (t[0] == '-' || t[0] == '+') && |t| > 1 && AllDigits(t[1..]) then
      var n: int := ParseDigits(t[1..]);
      Some(if t[0] == '-' then -n else n)
    else if AllDigits(t) then Some(ParseDigits(t))
    else None
  }

  /** A text free of white space at both ends is its own trim. */
  lemma TrimUnspaced(s: string)
    requires s != [] && !IsJsSpace(s[0]) && !IsJsSpace(s[|s| - 1])
    ensures Trim(s) == s
  {
    assert TrimStart(s) == s;
  }

  /** A digit string converts to the number it spells. */
  lemma DigitsToNumber(d: string)
    requires d != [] && AllDigits(d)
    ensures StringToNumber(d) == Some(ParseDigits(d) as int)
  {
    assert '0' <= d[0] <= '9' && '0' <= d[|d| - 1] <= '9';
    TrimUnspaced(d);
    assert d[0] != '-' && d[0] != '+';
    assert NumberText(d) == Some(ParseDigits(d) as int);
  }

  /** A minus sign before a digit string negates the number. */
  lemma NegatedDigitsToNumber(d: string)
    requires d != [] && AllDigits(d)
    ensures StringToNumber("-" + d) == Some(-(ParseDigits(d) as int))
  {
    var t := "-" + d;
    assert t[1..] == d && t[|t| - 1] == d[|d| - 1];
    assert '0' <= d[|d| - 1] <= '9';
    TrimUnspaced(t);
  }

  /** `Number(String(n)) === n` for every integer. */
  lemma StringToNumberOfInt(n: int)
    ensures StringToNumber(IntToString(n)) == Some(n)
  {
    var m: nat := if n < 0 then -n else n;
    ParseDigitsOfNat(m);
    if n < 0 {
      NegatedDigitsToNumber(NatToString(m));
    } else {
      DigitsToNumber(NatToString(m));
    }
  }

  function ToUpperAscii(c: char): char
  {
    if 'a' <= c <= 'z' then (c as int - 32) as char else c
  }

  function ToLowerAscii(c: char): char
  {
    if 'A' <= c <= 'Z' then (c as int + 32) as char else c
  }

  /** Equality of two strings when ASCII letters are compared without regard to case. */
  predicate EqualsIgnoreAsciiCase(a: string, b: string)
  {
    |a| == |b| && forall i :: 0 <= i < |a| ==> ToLowerAscii(a[i]) == ToLowerAscii(b[i])
  }

  /** Lexicographic order on strings by character code, as JavaScript's `<` compares two strings. */
  predicate StrLess(a: string, b: string)
    decreases |a|
  {
    if a == [] then b != []
    else if b == [] then false
    else if a[0] != b[0] then a[0] < b[0]
    else StrLess(a[1..], b[1..])
  }

  lemma {:induction false} StrLessIrreflexive(a: string)
    ensures !StrLess(a, a)
  {
    if a != [] {
      StrLessIrreflexive(a[1..]);
    }
  }

  /** `StrLess` is a strict total order: asymmetric, transitive and total on distinct strings. */
  lemma {:induction false} StrLessAsymmetric(a: string, b: string)
    ensures !(StrLess(a, b) && StrLess(b, a))
  {
    if a != [] && b != [] && a[0] == b[0] {
      StrLessAsymmetric(a[1..], b[1..]);
    }
  }

  lemma {:induction false} StrLessTransitive(a: string, b: string, c: string)
    requires StrLess(a, b) && StrLess(b, c)
    ensures StrLess(a, c)
  {
    if a != [] && a[0] == b[0] && b[0] == c[0] {
      StrLessTransitive(a[1..], b[1..], c[1..]);
    }
  }

  lemma {:induction false} StrLessTotal(a: string, b: string)
    requires a != b
    ensures StrLess(a, b) || StrLess(b, a)
  {
    if a != [] && b != [] && a[0] == b[0] {
      assert a == [a[0]] + a[1..] && b == [b[0]] + b[1..];
      StrLessTotal(a[1..], b[1..]);
    }
  }
}
