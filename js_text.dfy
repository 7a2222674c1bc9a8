/**
 * The two JavaScript built-ins the core relies on: `String.prototype.trim`
 * (ECMAScript section 22.1.3.32, TrimString) and `Array.prototype.slice`
 * (ECMAScript section 23.1.3.28), stated over Dafny sequences.
 */
module JsText {

  /** ECMAScript WhiteSpace and LineTerminator code points: what `trim` removes. */
  predicate IsWhitespace(c: char) {
    || c == '\t' || c == '\n' || c == '\r' || c == ' '
    || c == '\U{000B}' || c == '\U{000C}' || c == '\U{00A0}' || c == '\U{1680}'
    || ('\U{2000}' <= c <= '\U{200A}')
    || c == '\U{2028}' || c == '\U{2029}' || c == '\U{202F}' || c == '\U{205F}'
    || c == '\U{3000}' || c == '\U{FEFF}'
  }

  predicate AllWhitespace(s: string) {
    forall i :: 0 <= i < |s| ==> IsWhitespace(s[i])
  }

  /** A string with no whitespace at either end. */
  predicate IsTrimmed(s: string) {
    s == [] || (!IsWhitespace(s[0]) && !IsWhitespace(s[|s| - 1]))
  }

  /** How many whitespace characters `s` starts with. */
  function LeadingWhitespace(s: string): (n: nat)
    ensures n <= |s|
    ensures forall i :: 0 <= i < n ==> IsWhitespace(s[i])
    ensures n < |s| ==> !IsWhitespace(s[n])
  {
    if |s| > 0 && IsWhitespace(s[0]) then
      var n := 1 + LeadingWhitespace(s[1..]);
      assert forall i :: 1 <= i < n ==> s[i] == s[1..][i - 1];
      n
    else 0
  }

  /** How many whitespace characters `s` ends with. */
  function TrailingWhitespace(s: string): (n: nat)
    ensures n <= |s|
    ensures forall i :: |s| - n <= i < |s| ==> IsWhitespace(s[i])
    ensures n < |s| ==> !IsWhitespace(s[|s| - n - 1])
  {
    if |s| > 0 && IsWhitespace(s[|s| - 1]) then
      var p := s[..|s| - 1];
      var n := 1 + TrailingWhitespace(p);
      assert forall i :: |s| - n <= i < |s| - 1 ==> s[i] == p[i];
      n
    else 0
  }

  /** `s.trimStart()`. */
  function TrimStart(s: string): string {
    s[LeadingWhitespace(s)..]
  }

  /** `s.trimEnd()`. */
  function TrimEnd(s: string): string {
    s[..|s| - TrailingWhitespace(s)]
  }

  /**
   * `s.trim()`: the result has no whitespace at either end, and it is empty
   * exactly when `s` is all whitespace (so JavaScript's `!s.trim()` means
   * `AllWhitespace(s)`).
   */
  function Trim(s: string): (r: string)
    ensures IsTrimmed(r)
    ensures r == [] <==> AllWhitespace(s)
  {
    var t := TrimStart(s);
    var r := TrimEnd(t);
    assert r != [] ==> r[0] == t[0] == s[LeadingWhitespace(s)];
    assert r == [] ==> t == [];
    r
  }

  /** Every string is some whitespace, then its trimmed form, then some whitespace. */
  lemma TrimSplit(s: string) returns (a: string, b: string)
    ensures AllWhitespace(a) && AllWhitespace(b)
    ensures s == a + Trim(s) + b
  {
    var t := TrimStart(s);
    var r := TrimEnd(t);
    a, b := s[..LeadingWhitespace(s)], t[|r|..];
    assert t == r + b;
    assert s == a + t;
  }

  lemma {:induction false} LeadingSkips(a: string, t: string)
    requires AllWhitespace(a)
    requires t == [] || !IsWhitespace(t[0])
    ensures LeadingWhitespace(a + t) == |a|
  {
    if a == [] {
      assert a + t == t;
    } else {
      assert (a + t)[0] == a[0];
      assert (a + t)[1..] == a[1..] + t;
      assert AllWhitespace(a[1..]) by {
        forall i | 0 <= i < |a[1..]| ensures IsWhitespace(a[1..][i]) { assert a[1..][i] == a[i + 1]; }
      }
      LeadingSkips(a[1..], t);
    }
  }

  lemma {:induction false} TrailingSkips(t: string, b: string)
    requires AllWhitespace(b)
    requires t == [] || !IsWhitespace(t[|t| - 1])
    ensures TrailingWhitespace(t + b) == |b|
  {
    if b == [] {
      assert t + b == t;
    } else {
      var u := t + b;
      var c := b[..|b| - 1];
      assert u[|u| - 1] == b[|b| - 1];
      assert u[..|u| - 1] == t + c;
      assert AllWhitespace(c) by {
        forall i | 0 <= i < |c| ensures IsWhitespace(c[i]) { assert c[i] == b[i]; }
      }
      TrailingSkips(t, c);
    }
  }

  /**
   * Padding a trimmed string with whitespace on both sides and trimming it
   * again gives the string back: `trim` is the inverse of padding.
   */
  lemma PaddedTrim(a: string, m: string, b: string)
    requires AllWhitespace(a) && AllWhitespace(b) && IsTrimmed(m)
    ensures Trim(a + m + b) == m
  {
    var s := a + m + b;
    if m == [] {
      assert AllWhitespace(s) by {
        forall i | 0 <= i < |s| ensures IsWhitespace(s[i]) {
          if i < |a| { assert s[i] == a[i]; } else { assert s[i] == b[i - |a|]; }
        }
      }
    } else {
      assert s == a + (m + b);
      assert (m + b)[0] == m[0];
      LeadingSkips(a, m + b);
      assert TrimStart(s) == m + b;
      TrailingSkips(m, b);
      assert (m + b)[..|m|] == m;
    }
  }

  /** Trimming twice is trimming once. */
  lemma TrimIdempotent(s: string)
    ensures Trim(Trim(s)) == Trim(s)
  {
  }

  /** Trimming leaves exactly the strings that are already trimmed unchanged. */
  lemma TrimFixedPoints(s: string)
    ensures Trim(s) == s <==> IsTrimmed(s)
  {
  }

  /** JavaScript's relative-index rule of `slice`: negative counts from the end, clamped to `[0, len]`. */
  function RelativeIndex(i: int, len: nat): (k: nat)
    ensures k <= len
    ensures 0 <= i <= len ==> k == i
    ensures i < 0 && len + i >= 0 ==> k == len + i
  {
    if i < 0 then (if len + i < 0 then 0 else len + i)
    else if i > len then len
    else i
  }

  /**
   * `s.slice(start, end)`: the window from the relative start index up to
   * the relative end index, empty when the end does not lie after the start.
   */
  function Slice<T>(s: seq<T>, start: int, end: int): (r: seq<T>)
    ensures |r| <= |s|
    ensures |r| == (var from, to := RelativeIndex(start, |s|), RelativeIndex(end, |s|); if from < to then to - from else 0)
    ensures forall k :: 0 <= k < |r| ==> RelativeIndex(start, |s|) + k < |s| && r[k] == s[RelativeIndex(start, |s|) + k]
  {
    var from, to := RelativeIndex(start, |s|), RelativeIndex(end, |s|);
    if from < to then s[from..to] else []
  }

  /** `s.slice(0, -1)` drops the last element, and of an empty array leaves it empty. */
  lemma SliceDropLast<T>(s: seq<T>)
    ensures |s| > 0 ==> Slice(s, 0, -1) == s[..|s| - 1]
    ensures |s| == 0 ==> Slice(s, 0, -1) == []
  {
  }
}
