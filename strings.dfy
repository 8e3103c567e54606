/** String helpers for the template literals of the core: decimal rendering of
    counters, `String.prototype.slice(0, end)`, and substring occurrence. */
module Strings {

  predicate IsDigit(c: char) {
    '0' <= c <= '9'
  }

  function DigitChar(d: nat): (c: char)
    requires d < 10
    ensures IsDigit(c) && c as int - '0' as int == d
  {
    (d + '0' as int) as char
  }

  function DigitValue(c: char): (d: nat)
    requires IsDigit(c)
    ensures d < 10
  {
    c as int - '0' as int
  }

  /** `${n}` for a non-negative integer: its decimal digits, no leading zero. */
  function NatToString(n: nat): (s: string)
    ensures |s| >= 1
    ensures forall i :: 0 <= i < |s| ==> IsDigit(s[i])
    decreases n
  {
    if n < 10 then [DigitChar(n)]
    else NatToString(n / 10) + [DigitChar(n % 10)]
  }

  /** Reads a string of decimal digits back as a number. */
  function ParseNat(s: string): nat
    requires forall i :: 0 <= i < |s| ==> IsDigit(s[i])
  {
    if |s| == 0 then 0
    else 10 * ParseNat(s[..|s| - 1]) + DigitValue(s[|s| - 1])
  }

  /** Reading the rendering gives the number back. */
  lemma {:induction false} ParseNatToString(n: nat)
    ensures ParseNat(NatToString(n)) == n
    decreases n
  {
    if n >= 10 {
      var s := NatToString(n);
      assert s[..|s| - 1] == NatToString(n / 10);
      ParseNatToString(n / 10);
    }
  }

  /** Different counters render differently. */
  lemma NatToStringInjective(a: nat, b: nat)
    requires a != b
    ensures NatToString(a) != NatToString(b)
  {
    ParseNatToString(a);
    ParseNatToString(b);
  }

  /** `s.slice(0, end)`: a negative end counts back from the end of `s`; an end
      past the length stops at the length. */
  function SlicePrefix(s: string, end: int): (r: string)
    ensures r <= s
    ensures end < 0 ==> |r| == (if |s| + end > 0 then |s| + end else 0)
    ensures 0 <= end ==> |r| == (if end < |s| then end else |s|)
  {
    var e := if end < 0 then (if |s| + end > 0 then |s| + end else 0)
             else if end < |s| then end else |s|;
    s[..e]
  }

  /** `t` occurs in `s` starting at position `i`. */
  predicate OccursAt(s: string, t: string, i: int) {
    0 <= i && i + |t| <= |s| && s[i..i + |t|] == t
  }

  /** `s.includes(t)`. */
  predicate Contains(s: string, t: string) {
    exists i :: 0 <= i <= |s| - |t| && OccursAt(s, t, i)
  }

  /** `s.endsWith(t)`. */
  predicate EndsWith(s: string, t: string) {
    |t| <= |s| && s[|s| - |t|..] == t
  }

  /** The texts `f(s[0]) + f(s[1]) + …`, as a loop appending to an
      accumulator produces them. */
  function ConcatMap<T>(s: seq<T>, f: T -> string): string {
    if |s| == 0 then ""
    else ConcatMap(s[..|s| - 1], f) + f(s[|s| - 1])
  }

  /** Appending in two runs gives the text of one run over both. */
  lemma {:induction false} ConcatMapAppend<T>(a: seq<T>, b: seq<T>, f: T -> string)
    ensures ConcatMap(a + b, f) == ConcatMap(a, f) + ConcatMap(b, f)
    decreases |b|
  {
    if |b| == 0 {
      assert a + b == a;
    } else {
      var b', last := b[..|b| - 1], b[|b| - 1];
      assert (a + b)[..|a + b| - 1] == a + b';
      assert (a + b)[|a + b| - 1] == last;
      calc {
        ConcatMap(a + b, f);
        ConcatMap(a + b', f) + f(last);
        { ConcatMapAppend(a, b', f); }
        ConcatMap(a, f) + ConcatMap(b', f) + f(last);
        ConcatMap(a, f) + (ConcatMap(b', f) + f(last));
      }
    }
  }

  lemma PrefixOfConcat(s: string, t: string)
    ensures s <= s + t
  {
    assert (s + t)[..|s|] == s;
  }

  lemma EndsWithConcat(s: string, t: string)
    ensures EndsWith(s + t, t)
  {
    assert (s + t)[|s|..] == t;
  }
}
