/**
 String trimming as performed by ECMAScript's `String.prototype.trim`:
 strip every leading and trailing WhiteSpace or LineTerminator character.
 It is modelled here as two index searches, one from each end.
 */
module Text {

  /** The WhiteSpace and LineTerminator code points of ECMAScript
      (tab, line feed, vertical tab, form feed, carriage return, the Unicode
      space separators, line and paragraph separators, and the byte-order mark). */
  const Whitespace: set<char> := {
    '\t', '\n', '\U{B}', '\U{C}', '\r', ' ', '\U{A0}', '\U{1680}',
    '\U{2000}', '\U{2001}', '\U{2002}', '\U{2003}', '\U{2004}', '\U{2005}',
    '\U{2006}', '\U{2007}', '\U{2008}', '\U{2009}', '\U{200A}',
    '\U{2028}', '\U{2029}', '\U{202F}', '\U{205F}', '\U{3000}', '\U{FEFF}'
  }

  predicate IsWhitespace(c: char) {
    c in Whitespace
  }

  predicate AllWhitespace(s: string) {
    forall i :: 0 <= i < |s| ==> IsWhitespace(s[i])
  }

  /** The index of the first visible character of `s` at or after `k`
      (`|s|` when there is none). */
  function FirstVisible(s: string, k: nat): (n: nat)
    requires k <= |s|
    ensures k <= n <= |s|
    ensures forall i :: k <= i < n ==> IsWhitespace(s[i])
    ensures n < |s| ==> !IsWhitespace(s[n])
    decreases |s| - k
  {
    if k < |s| && IsWhitespace(s[k]) then FirstVisible(s, k + 1) else k
  }

  /** The end of the last visible character of `s` in `[lo, hi)`
      (`lo` when there is none). */
  function VisibleEnd(s: string, lo: nat, hi: nat): (e: nat)
    requires lo <= hi <= |s|
    ensures lo <= e <= hi
    ensures forall i :: e <= i < hi ==> IsWhitespace(s[i])
    ensures e > lo ==> !IsWhitespace(s[e - 1])
    decreases hi
  {
    if hi > lo && IsWhitespace(s[hi - 1]) then VisibleEnd(s, lo, hi - 1) else hi
  }

  /** The search from `k` stops at `j` when everything in `[k, j)` is
      whitespace and `s[j]` is not. */
  lemma FirstVisibleAt(s: string, k: nat, j: nat)
    requires k <= j <= |s|
    requires forall i :: k <= i < j ==> IsWhitespace(s[i])
    requires j < |s| ==> !IsWhitespace(s[j])
    ensures FirstVisible(s, k) == j
  {
  }

  /** The backward search in `[lo, hi)` stops at `j` when everything in
      `[j, hi)` is whitespace and `s[j - 1]` is not. */
  lemma VisibleEndAt(s: string, lo: nat, hi: nat, j: nat)
    requires lo <= j <= hi <= |s|
    requires forall i :: j <= i < hi ==> IsWhitespace(s[i])
    requires j > lo ==> !IsWhitespace(s[j - 1])
    ensures VisibleEnd(s, lo, hi) == j
  {
  }

  /** `s.trim()`: the result is empty exactly when `s` is all whitespace,
      and otherwise begins and ends with a visible character. */
  function Trim(s: string): (r: string)
    ensures |r| <= |s|
    ensures r == [] <==> AllWhitespace(s)
    ensures r == [] || (!IsWhitespace(r[0]) && !IsWhitespace(r[|r| - 1]))
  {
    var n := FirstVisible(s, 0);
    var e := VisibleEnd(s, n, |s|);
    assert e == n ==> AllWhitespace(s);
    s[n..e]
  }

  /** Trimming a visible core padded by whitespace on both sides gives back
      exactly the core: what `Trim` removes is the padding and nothing else. */
  lemma TrimPadded(left: string, core: string, right: string)
    requires AllWhitespace(left) && AllWhitespace(right)
    requires core != [] && !IsWhitespace(core[0]) && !IsWhitespace(core[|core| - 1])
    ensures Trim(left + core + right) == core
  {
    var x := left + core + right;
    var a, b := |left|, |left| + |core|;
    assert forall i :: 0 <= i < a ==> x[i] == left[i];
    assert forall i :: a <= i < b ==> x[i] == core[i - a];
    assert forall i :: b <= i < |x| ==> x[i] == right[i - b];
    FirstVisibleAt(x, 0, a);
    VisibleEndAt(x, a, |x|, b);
    assert x[a..b] == core;
  }

  /** A string that neither starts nor ends with whitespace trims to itself. */
  lemma TrimUnpadded(t: string)
    requires t != [] && !IsWhitespace(t[0]) && !IsWhitespace(t[|t| - 1])
    ensures Trim(t) == t
  {
  }

  /** Trimming is idempotent. */
  lemma TrimIdempotent(s: string)
    ensures Trim(Trim(s)) == Trim(s)
  {
  }
}
