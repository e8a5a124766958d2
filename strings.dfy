/**
 * String operations the worker relies on: searching, global literal
 * replacement (`String.prototype.replace` with a `/.../g` pattern that has no
 * special characters), decimal formatting of numbers in template literals,
 * and splitting on a separator.
 */
module Strings {
  import opened Wrappers

  /** `p` occurs in `s` starting at index `i`. */
  predicate OccursAt(s: string, p: string, i: nat) {
    i + |p| <= |s| && s[i..i + |p|] == p
  }

  predicate Contains(s: string, p: string) {
    exists i: nat | i <= |s| :: OccursAt(s, p, i)
  }

  predicate IsDigit(c: char) {
    '0' <= c <= '9'
  }

  predicate AllDigits(s: string) {
    forall i :: 0 <= i < |s| ==> IsDigit(s[i])
  }

  /** The first index at or after `from` where `p` occurs in `s`, if any. */
  function FindFrom(s: string, p: string, from: nat): (r: Option<nat>)
    decreases |s| - from
    ensures r.Some? ==> from <= r.value && OccursAt(s, p, r.value)
    ensures r.Some? ==> forall k :: from <= k < r.value ==> !OccursAt(s, p, k)
    ensures r.None? ==> forall k: nat :: from <= k ==> !OccursAt(s, p, k)
  {
    if from + |p| > |s| then None
    else if s[from..from + |p|] == p then Some(from)
    else FindFrom(s, p, from + 1)
  }

  /** The first index of `c` in `s`, if any. */
  function FindFirst(s: string, c: char): (r: Option<nat>)
    ensures r.Some? ==> r.value < |s| && s[r.value] == c && c !in s[..r.value]
    ensures r.None? <==> c !in s
  {
    if s == [] then None
    else if s[0] == c then Some(0)
    else match FindFirst(s[1..], c)
      case None => None
      case Some(i) => Some(i + 1)
  }

  /** The last index of `c` in `s`, if any. */
  function FindLast(s: string, c: char): (r: Option<nat>)
    ensures r.Some? ==> r.value < |s| && s[r.value] == c
    ensures r.Some? ==> forall k :: r.value < k < |s| ==> s[k] != c
    ensures r.None? <==> c !in s
  {
    if s == [] then None
    else if s[|s| - 1] == c then Some(|s| - 1)
    else FindLast(s[..|s| - 1], c)
  }

  /**
   * Every occurrence of `p`, scanned left to right without overlap, replaced
   * by `rep`; the replacement text is inserted literally.
   */
  function ReplaceAll(s: string, p: string, rep: string): string
    requires |p| > 0
    decreases |s|
  {
    if |s| < |p| then s
    else if s[..|p|] == p then rep + ReplaceAll(s[|p|..], p, rep)
    else [s[0]] + ReplaceAll(s[1..], p, rep)
  }

  /** A match found at the front is replaced and the scan resumes after it. */
  lemma ReplaceAtFront(p: string, rep: string, b: string)
    requires |p| > 0
    ensures ReplaceAll(p + b, p, rep) == rep + ReplaceAll(b, p, rep)
  {
    assert (p + b)[..|p|] == p;
    assert (p + b)[|p|..] == b;
  }

  /** A prefix without the pattern's first character passes through unchanged. */
  lemma {:induction false} ReplaceSkips(x: string, b: string, p: string, rep: string)
    requires |p| > 0 && p[0] !in x
    ensures ReplaceAll(x + b, p, rep) == x + ReplaceAll(b, p, rep)
  {
    if x != [] {
      var s := x + b;
      if |s| < |p| {
        // too short to hold a match: nothing is replaced in `s` or in `b`
        assert ReplaceAll(b, p, rep) == b;
      } else {
        assert s[..|p|][0] == x[0] != p[0];
        assert ReplaceAll(s, p, rep) == [x[0]] + ReplaceAll(s[1..], p, rep);
        assert s[1..] == x[1..] + b;
        ReplaceSkips(x[1..], b, p, rep);
        var tail := ReplaceAll(b, p, rep);
        assert [x[0]] + (x[1..] + tail) == ([x[0]] + x[1..]) + tail;
        assert [x[0]] + x[1..] == x;
      }
    } else {
      assert x + b == b;
    }
  }

  /**
   * A prefix that differs from `p` at some index, and holds `p`'s first
   * character only at its own front, also passes through unchanged: no match
   * can start inside it.
   */
  lemma ReplaceSkipsMismatch(x: string, b: string, p: string, rep: string, k: nat)
    requires |p| > 0 && |x| > 0 && p[0] !in x[1..]
    requires k < |x| && k < |p| && x[k] != p[k]
    ensures ReplaceAll(x + b, p, rep) == x + ReplaceAll(b, p, rep)
  {
    var s := x + b;
    if |s| < |p| {
      assert ReplaceAll(b, p, rep) == b;
    } else {
      assert s[..|p|][k] == x[k];
      assert ReplaceAll(s, p, rep) == [x[0]] + ReplaceAll(s[1..], p, rep);
      assert s[1..] == x[1..] + b;
      ReplaceSkips(x[1..], b, p, rep);
      var tail := ReplaceAll(b, p, rep);
      assert [x[0]] + (x[1..] + tail) == ([x[0]] + x[1..]) + tail;
      assert [x[0]] + x[1..] == x;
    }
  }

  /** Decimal digit `d` as a character. */
  function Digit(d: nat): (c: char)
    requires d < 10
    ensures IsDigit(c)
  {
    (48 + d) as char
  }

  /** The number as a template literal prints it: decimal, no leading zeros. */
  function NatToString(n: nat): (r: string)
    ensures |r| >= 1 && AllDigits(r)
    ensures |r| > 1 ==> r[0] != '0'
  {
    if n < 10 then [Digit(n)] else NatToString(n / 10) + [Digit(n % 10)]
  }

  /** The value of a string of decimal digits (the reading back of `NatToString`). */
  function DigitsValue(s: string): nat
    requires AllDigits(s)
  {
    if s == [] then 0
    else DigitsValue(s[..|s| - 1]) * 10 + (s[|s| - 1] as int - 48)
  }

  lemma {:induction false} NatToStringRoundTrip(n: nat)
    ensures DigitsValue(NatToString(n)) == n
  {
    if n >= 10 {
      var r := NatToString(n);
      assert r[..|r| - 1] == NatToString(n / 10);
      NatToStringRoundTrip(n / 10);
    }
  }

  /** `s.split(sep)`: the pieces between separators, always at least one. */
  function Split(s: string, sep: char): (r: seq<string>)
    ensures |r| >= 1
  {
    if s == [] then [""]
    else
      var rest := Split(s[1..], sep);
      if s[0] == sep then [""] + rest else [[s[0]] + rest[0]] + rest[1..]
  }

  lemma {:induction false} SplitNoSeparator(s: string, sep: char)
    requires sep !in s
    ensures Split(s, sep) == [s]
  {
    if s != [] {
      SplitNoSeparator(s[1..], sep);
      assert [s[0]] + s[1..] == s;
    }
  }

  lemma {:induction false} SplitAtSeparator(a: string, sep: char, b: string)
    requires sep !in a
    ensures Split(a + [sep] + b, sep) == [a] + Split(b, sep)
  {
    var s := a + [sep] + b;
    if a == [] {
      assert s[0] == sep && s[1..] == b;
    } else {
      assert s[0] == a[0] && s[1..] == a[1..] + [sep] + b;
      SplitAtSeparator(a[1..], sep, b);
      assert [a[0]] + a[1..] == a;
    }
  }
}
