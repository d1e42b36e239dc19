/** The parts of JavaScript's String API that the front end relies on:
    `trim`, `toLowerCase`, `includes`, `startsWith`, `substring(0, n)` /
    `slice(0, n)`, `replace` with a one-character pattern, and number
    formatting in template literals. */
module Text {

  /** ECMAScript WhiteSpace and LineTerminator code points: what `trim` strips. */
  predicate IsWhitespace(c: char) {
    || c == '\t' || c == '\n' || c == '\U{000B}' || c == '\U{000C}' || c == '\r' || c == ' '
    || c == '\U{00A0}' || c == '\U{1680}' || ('\U{2000}' <= c <= '\U{200A}')
    || c == '\U{2028}' || c == '\U{2029}' || c == '\U{202F}' || c == '\U{205F}'
    || c == '\U{3000}' || c == '\U{FEFF}'
  }

  predicate AllWhitespace(s: string) {
    forall i :: 0 <= i < |s| ==> IsWhitespace(s[i])
  }

  /** Scanning forward from `i`: the index of the first non-whitespace
      character, or `|s|` when there is none. */
  function SkipLeading(s: string, i: nat): (n: nat)
    requires i <= |s|
    decreases |s| - i
    ensures i <= n <= |s|
    ensures forall k | i <= k < n :: IsWhitespace(s[k])
    ensures n < |s| ==> !IsWhitespace(s[n])
  {
    if i < |s| && IsWhitespace(s[i]) then SkipLeading(s, i + 1) else i
  }

  /** Scanning back from `j`, no further than `lo`: the index just after the
      last non-whitespace character, or `lo` when there is none. */
  function SkipTrailing(s: string, lo: nat, j: nat): (m: nat)
    requires lo <= j <= |s|
    decreases j
    ensures lo <= m <= j
    ensures forall k | m <= k < j :: IsWhitespace(s[k])
    ensures m > lo ==> !IsWhitespace(s[m - 1])
  {
    if j > lo && IsWhitespace(s[j - 1]) then SkipTrailing(s, lo, j - 1) else j
  }

  /** `String.prototype.trim`: the piece of `s` between its leading and its
      trailing whitespace; empty exactly when `s` is all whitespace. */
  function Trim(s: string): (r: string)
    ensures r == [] <==> AllWhitespace(s)
    ensures r != [] ==> !IsWhitespace(r[0]) && !IsWhitespace(r[|r| - 1])
    ensures var a := SkipLeading(s, 0);
            && OccursAt(s, r, a)
            && (forall k | a + |r| <= k < |s| :: IsWhitespace(s[k]))
  {
    var a := SkipLeading(s, 0);
    var b := SkipTrailing(s, a, |s|);
    if a == b then [] else s[a..b]
  }

  /** Leading whitespace is all that the forward scan steps over. */
  lemma {:induction false} SkipLeadingOver(w: string, t: string, i: nat)
    requires i <= |w| && AllWhitespace(w)
    requires t != [] && !IsWhitespace(t[0])
    decreases |w| - i
    ensures SkipLeading(w + t, i) == |w|
  {
    if i < |w| {
      assert (w + t)[i] == w[i];
      SkipLeadingOver(w, t, i + 1);
    } else {
      assert (w + t)[i] == t[0];
    }
  }

  /** Trimming skips any whitespace that precedes the first visible character. */
  lemma TrimSkipsLeadingWhitespace(w: string, t: string)
    requires AllWhitespace(w)
    requires t != [] && !IsWhitespace(t[0])
    ensures Trim(w + t) != [] && Trim(w + t)[0] == t[0]
  {
    SkipLeadingOver(w, t, 0);
    assert (w + t)[|w|] == t[0];
  }

  /** ASCII case mapping: the upper-case letters A-Z become a-z. */
  function LowerChar(c: char): char {
    if 'A' <= c <= 'Z' then (c as int + 32) as char else c
  }

  /** `String.prototype.toLowerCase`, on ASCII letters. */
  function Lower(s: string): (r: string)
    ensures |r| == |s|
    ensures forall i :: 0 <= i < |s| ==> r[i] == LowerChar(s[i])
  {
    seq(|s|, i requires 0 <= i < |s| => LowerChar(s[i]))
  }

  /** Lower-casing twice is lower-casing once. */
  lemma LowerIdempotent(s: string)
    ensures Lower(Lower(s)) == Lower(s)
  {
    assert forall i :: 0 <= i < |s| ==> Lower(Lower(s))[i] == Lower(s)[i];
  }

  /** A string without upper-case ASCII letters is its own lower-case form. */
  lemma LowerOfLowerCase(s: string)
    requires forall i :: 0 <= i < |s| ==> !('A' <= s[i] <= 'Z')
    ensures Lower(s) == s
  {
    assert forall i :: 0 <= i < |s| ==> Lower(s)[i] == s[i];
  }

  /** `p` occurs in `s` starting at index `i`. */
  predicate OccursAt(s: string, p: string, i: int) {
    0 <= i <= |s| - |p| && s[i..i + |p|] == p
  }

  /** `s.includes(p)`: `p` occurs in `s` at some position. */
  predicate Contains(s: string, p: string)
    ensures Contains(s, p) ==> |p| <= |s|
    ensures p == [] ==> Contains(s, p)
  {
    assert p == [] ==> OccursAt(s, p, 0);
    exists i | 0 <= i <= |s| - |p| :: OccursAt(s, p, i)
  }

  /** Character-by-character comparison of `p[j..]` with `s` at `i + j`. */
  function MatchFrom(s: string, p: string, i: nat, j: nat): bool
    requires i + |p| <= |s| && j <= |p|
    decreases |p| - j
  {
    j == |p| || (s[i + j] == p[j] && MatchFrom(s, p, i, j + 1))
  }

  lemma {:induction false} MatchFromCorrect(s: string, p: string, i: nat, j: nat)
    requires i + |p| <= |s| && j <= |p|
    decreases |p| - j
    ensures MatchFrom(s, p, i, j) <==> s[i + j..i + |p|] == p[j..]
  {
    if j < |p| {
      MatchFromCorrect(s, p, i, j + 1);
      assert s[i + j..i + |p|] == [s[i + j]] + s[i + j + 1..i + |p|];
      assert p[j..] == [p[j]] + p[j + 1..];
    }
  }

  /** A left-to-right scan for `p` from position `i`, as `includes`
      performs it. */
  function SearchFrom(s: string, p: string, i: nat): bool
    decreases |s| - i
  {
    if i + |p| > |s| then false
    else MatchFrom(s, p, i, 0) || SearchFrom(s, p, i + 1)
  }

  lemma {:induction false} SearchFromCorrect(s: string, p: string, i: nat)
    decreases |s| - i
    ensures SearchFrom(s, p, i) <==> exists j | i <= j <= |s| - |p| :: OccursAt(s, p, j)
  {
    if i + |p| <= |s| {
      MatchFromCorrect(s, p, i, 0);
      assert p[0..] == p;
      SearchFromCorrect(s, p, i + 1);
      if MatchFrom(s, p, i, 0) {
        assert OccursAt(s, p, i);
      }
      if exists j | i <= j <= |s| - |p| :: OccursAt(s, p, j) {
        var j :| i <= j <= |s| - |p| && OccursAt(s, p, j);
        assert j == i || i + 1 <= j <= |s| - |p|;
      }
    }
  }

  /** The scan decides `Contains`. */
  lemma SearchDecidesContains(s: string, p: string)
    ensures SearchFrom(s, p, 0) <==> Contains(s, p)
  {
    SearchFromCorrect(s, p, 0);
  }

  /** `s.startsWith(p)`. */
  predicate StartsWith(s: string, p: string)
    ensures StartsWith(s, p) <==> |p| <= |s| && forall i :: 0 <= i < |p| ==> s[i] == p[i]
  {
    |p| <= |s| && s[..|p|] == p
  }

  /** `s.substring(0, n)` and `s.slice(0, n)` for `n >= 0`: the first `n`
      characters, or all of `s` when it is shorter. */
  function Take(s: string, n: nat): (r: string)
    ensures |r| == if |s| <= n then |s| else n
    ensures r == s[..|r|]
  {
    if |s| <= n then s else s[..n]
  }

  /** `s.indexOf(c)`, with |s| standing for "not found" (-1 in JavaScript). */
  function IndexOf(s: string, c: char): (k: nat)
    ensures k <= |s| && c !in s[..k]
    ensures k < |s| <==> c in s
    ensures k < |s| ==> s[k] == c
  {
    if s == [] then 0
    else if s[0] == c then 0
    else
      var k := IndexOf(s[1..], c);
      assert s[..k + 1] == [s[0]] + s[1..][..k];
      assert c in s[1..] ==> c in s;
      assert s == [s[0]] + s[1..];
      1 + k
  }

  /** `s.replace(a, b)` with one-character string arguments: only the FIRST
      occurrence of `a` is replaced; every other character is kept. */
  function ReplaceFirst(s: string, a: char, b: char): (r: string)
    ensures |r| == |s|
    ensures a !in s ==> r == s
    ensures a in s ==> r[IndexOf(s, a)] == b
    ensures forall i :: 0 <= i < |s| && i != IndexOf(s, a) ==> r[i] == s[i]
  {
    var k := IndexOf(s, a);
    if k == |s| then s else s[..k] + [b] + s[k + 1..]
  }

  /** Only the first occurrence is replaced: what precedes it has none. */
  lemma ReplaceFirstAt(x: string, a: char, y: string, b: char)
    requires a !in x
    ensures ReplaceFirst(x + [a] + y, a, b) == x + [b] + y
  {
    var s := x + [a] + y;
    var k := IndexOf(s, a);
    assert s[|x|] == a;
    assert s[..k] == x && s[k + 1..] == y;
  }

  function DigitChar(d: nat): (c: char)
    requires d < 10
    ensures '0' <= c <= '9' && c as int - '0' as int == d
  {
    ('0' as int + d) as char
  }

  /** The number a string of decimal digits denotes. */
  function DecimalValue(s: string): nat
    requires forall i :: 0 <= i < |s| ==> '0' <= s[i] <= '9'
  {
    if s == [] then 0 else 10 * DecimalValue(s[..|s| - 1]) + (s[|s| - 1] as int - '0' as int)
  }

  /** Decimal rendering of a natural number, as in a template literal: the
      digits denote `n`, with no leading zero. */
  function NatToString(n: nat): (r: string)
    ensures r != []
    ensures forall i :: 0 <= i < |r| ==> '0' <= r[i] <= '9'
    ensures DecimalValue(r) == n
    ensures r[0] == '0' ==> n == 0
  {
    if n < 10 then [DigitChar(n)]
    else
      var prefix := NatToString(n / 10);
      var r := prefix + [DigitChar(n % 10)];
      assert r[..|r| - 1] == prefix;
      r
  }

  /** Decimal rendering of an integer: a '-' exactly when it is negative,
      then the digits of its magnitude. */
  function IntToString(i: int): (r: string)
    ensures r != [] && (r[0] == '-' <==> i < 0)
    ensures i < 0 ==> |r| > 1 && (forall k :: 1 <= k < |r| ==> '0' <= r[k] <= '9') && DecimalValue(r[1..]) == -i
    ensures i >= 0 ==> (forall k :: 0 <= k < |r| ==> '0' <= r[k] <= '9') && DecimalValue(r) == i
  {
    if i < 0 then
      var digits := NatToString(-i);
      assert ("-" + digits)[1..] == digits;
      "-" + digits
    else NatToString(i)
  }

  /** Different integers have different decimal forms. */
  lemma IntToStringInjective(i: int, j: int)
    requires IntToString(i) == IntToString(j)
    ensures i == j
  {
    var r := IntToString(i);
    if i < 0 {
      assert DecimalValue(r[1..]) == -i == -j;
    } else {
      assert DecimalValue(r) == i == j;
    }
  }
}
