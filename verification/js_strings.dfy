/** The parts of JavaScript's String semantics the application relies on:
    `trim`, `toLowerCase` (ASCII letters only), `indexOf` and `includes`. */
module JsStrings {

  /** The ECMAScript WhiteSpace and LineTerminator code points, which `String.prototype.trim` strips. */
  predicate IsWhiteSpace(c: char) {
    c == '\t' || c == '\n' || c == '\U{B}' || c == '\U{C}' || c == '\r' || c == ' '
    || c == '\U{A0}' || c == '\U{1680}' || ('\U{2000}' <= c <= '\U{200A}')
    || c == '\U{2028}' || c == '\U{2029}' || c == '\U{202F}' || c == '\U{205F}'
    || c == '\U{3000}' || c == '\U{FEFF}'
  }

  /** Every character is white space (the empty string included). */
  predicate IsBlank(s: string) {
    forall i :: 0 <= i < |s| ==> IsWhiteSpace(s[i])
  }

  /** The number of white-space characters that open `s`. */
  function LeadingWhiteSpace(s: string): (n: nat)
    ensures n <= |s|
    ensures IsBlank(s[..n])
    ensures n < |s| ==> !IsWhiteSpace(s[n])
  {
    if s == [] || !IsWhiteSpace(s[0]) then 0
    else
      var k := LeadingWhiteSpace(s[1..]);
      assert s[..k + 1] == [s[0]] + s[1..][..k];
      k + 1
  }

  /** The number of white-space characters that close `s`. */
  function TrailingWhiteSpace(s: string): (n: nat)
    ensures n <= |s|
    ensures IsBlank(s[|s| - n..])
    ensures n < |s| ==> !IsWhiteSpace(s[|s| - n - 1])
  {
    if s == [] || !IsWhiteSpace(s[|s| - 1]) then 0
    else
      var p := s[..|s| - 1];
      var k := TrailingWhiteSpace(p);
      assert s[|s| - (k + 1)..] == p[|p| - k..] + [s[|s| - 1]];
      k + 1
  }

  /** `r` is `s` with the white space at both of its ends removed. */
  ghost predicate IsTrimOf(s: string, r: string) {
    exists i, j :: 0 <= i <= j <= |s| && r == s[i..j] && IsBlank(s[..i]) && IsBlank(s[j..])
                   && (r != [] ==> !IsWhiteSpace(r[0]) && !IsWhiteSpace(r[|r| - 1]))
  }

  /** `s.trim()`. */
  function Trim(s: string): (r: string)
    ensures IsTrimOf(s, r)
    ensures r == [] <==> IsBlank(s)
  {
    var i := LeadingWhiteSpace(s);
    var t := s[i..];
    var k := TrailingWhiteSpace(t);
    assert t[|t| - k..] == s[|s| - k..];
    assert k < |t| ==> t[|t| - k - 1] == s[|s| - k - 1];
    TrimBounds(s, i, |s| - k);
    s[i..|s| - k]
  }

  /** Cutting `s` after its leading white space and before its trailing white space trims it. */
  lemma TrimBounds(s: string, i: nat, j: nat)
    requires i <= j <= |s|
    requires IsBlank(s[..i]) && (i < |s| ==> !IsWhiteSpace(s[i]))
    requires IsBlank(s[j..]) && (i < j ==> !IsWhiteSpace(s[j - 1]))
    ensures IsTrimOf(s, s[i..j])
    ensures s[i..j] == [] <==> IsBlank(s)
  {
    TrimWitness(s, i, j);
    if i == j {
      BlankAround(s, i, j);
    }
  }

  lemma TrimWitness(s: string, i: nat, j: nat)
    requires i <= j <= |s|
    requires IsBlank(s[..i]) && IsBlank(s[j..])
    requires i < j ==> !IsWhiteSpace(s[i]) && !IsWhiteSpace(s[j - 1])
    ensures IsTrimOf(s, s[i..j])
  {
    var r := s[i..j];
    if r != [] {
      assert r[0] == s[i];
      assert r[|r| - 1] == s[j - 1];
    }
  }

  lemma BlankAround(s: string, i: nat, j: nat)
    requires i == j <= |s|
    requires IsBlank(s[..i]) && IsBlank(s[j..])
    ensures IsBlank(s)
  {
    forall m | 0 <= m < |s| ensures IsWhiteSpace(s[m]) {
      if m < i {
        assert s[m] == s[..i][m];
      } else {
        assert s[m] == s[j..][m - j];
      }
    }
  }

  /** Trimming is idempotent: a trimmed string has nothing left to trim. */
  lemma TrimIdempotent(s: string)
    ensures Trim(Trim(s)) == Trim(s)
  {
    var r := Trim(s);
    if r != [] {
      assert LeadingWhiteSpace(r) == 0;
      assert TrailingWhiteSpace(r) == 0;
    }
  }

  /** `toLowerCase` on one character; only ASCII letters are mapped. */
  function LowerChar(c: char): char {
    if 'A' <= c <= 'Z' then (c as int + 32) as char else c
  }

  /** `s.toLowerCase()` for ASCII text; it keeps the length of `s`. */
  function ToLower(s: string): (r: string)
    ensures |r| == |s|
    ensures forall i :: 0 <= i < |s| ==> r[i] == LowerChar(s[i])
  {
    seq(|s|, i requires 0 <= i < |s| => LowerChar(s[i]))
  }

  /** Lower-casing commutes with taking a slice. */
  lemma ToLowerSlice(s: string, i: nat, j: nat)
    requires i <= j <= |s|
    ensures ToLower(s[i..j]) == ToLower(s)[i..j]
  {
  }

  /** Lower-casing twice is lower-casing once. */
  lemma ToLowerIdempotent(s: string)
    ensures ToLower(ToLower(s)) == ToLower(s)
  {
  }

  /** `t` occurs in `s` starting at index `k`. */
  predicate OccursAt(s: string, t: string, k: nat) {
    k + |t| <= |s| && s[k..k + |t|] == t
  }

  /** `s.indexOf(t, from)`: the first index at or after `from` where `t` occurs, or -1. */
  function IndexOfFrom(s: string, t: string, from: nat): (r: int)
    decreases |s| - from
    ensures r == -1 || (from <= r && OccursAt(s, t, r))
    ensures r == -1 ==> forall k: nat :: from <= k ==> !OccursAt(s, t, k)
    ensures r != -1 ==> forall k: nat :: from <= k < r ==> !OccursAt(s, t, k)
  {
    if from + |t| > |s| then -1
    else if s[from..from + |t|] == t then from
    else IndexOfFrom(s, t, from + 1)
  }

  /** `s.indexOf(t)`: the first index where `t` occurs in `s`, or -1 when it does not occur. */
  function IndexOf(s: string, t: string): (r: int)
    ensures r == -1 <==> forall k: nat :: !OccursAt(s, t, k)
    ensures r != -1 ==> 0 <= r && OccursAt(s, t, r) && forall k: nat :: k < r ==> !OccursAt(s, t, k)
  {
    IndexOfFrom(s, t, 0)
  }

  /** `s.includes(t)`. */
  function Includes(s: string, t: string): (b: bool)
    ensures b <==> exists k: nat :: OccursAt(s, t, k)
  {
    IndexOf(s, t) != -1
  }

  /** A string includes every string it is built around. */
  lemma IncludesMiddle(a: string, t: string, b: string)
    ensures Includes(a + t + b, t)
  {
    SliceOfMiddle(a, t, b);
  }

  /** The middle of a three-part string is found back at the end of the first part. */
  lemma SliceOfMiddle(a: string, t: string, b: string)
    ensures OccursAt(a + t + b, t, |a|)
    ensures (a + t + b)[|a|..|a| + |t|] == t
  {
    assert (a + t + b)[|a|..|a| + |t|] == t;
  }
}
