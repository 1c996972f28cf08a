/**
  The two string built-ins `normalizeName` and `isEmpty` rely on:
  `String.prototype.replace` with a global one-character pattern, and
  `String.prototype.trim`.
 */
module Text {

  /**
    The characters `trim` removes: ECMAScript's WhiteSpace (tab, vertical tab,
    form feed, space, no-break space, zero-width no-break space and the Unicode
    space separators) and LineTerminator (line feed, carriage return, line and
    paragraph separators).
   */
  predicate IsWhitespace(c: char) {
    || c == '\t' || c == '\n' || c == '\U{B}' || c == '\U{C}' || c == '\r'
    || c == ' ' || c == '\U{A0}' || c == '\U{1680}'
    || ('\U{2000}' <= c <= '\U{200A}')
    || c == '\U{2028}' || c == '\U{2029}' || c == '\U{202F}' || c == '\U{205F}'
    || c == '\U{3000}' || c == '\U{FEFF}'
  }

  /** Every character of `s` from index `lo` up to, not including, `hi` is whitespace. */
  predicate WhitespaceIn(s: string, lo: int, hi: int)
    requires 0 <= lo <= hi <= |s|
  {
    forall i :: lo <= i < hi ==> IsWhitespace(s[i])
  }

  predicate AllWhitespace(s: string) {
    WhitespaceIn(s, 0, |s|)
  }

  /** No whitespace at either end. */
  predicate Trimmed(s: string) {
    s == [] || (!IsWhitespace(s[0]) && !IsWhitespace(s[|s| - 1]))
  }

  /** `s.replace(/from/g, to)` for one-character `from` and `to`. */
  function ReplaceAll(s: string, from: char, to: char): (r: string)
    ensures |r| == |s|
    ensures forall i :: 0 <= i < |s| ==> r[i] == if s[i] == from then to else s[i]
  {
    seq(|s|, i requires 0 <= i < |s| => if s[i] == from then to else s[i])
  }

  /** The first index at or after `i` that holds no whitespace, or `|s|`. */
  function SkipForward(s: string, i: nat): (k: nat)
    requires i <= |s|
    ensures i <= k <= |s| && WhitespaceIn(s, i, k)
    ensures k == |s| || !IsWhitespace(s[k])
    decreases |s| - i
  {
    if i < |s| && IsWhitespace(s[i]) then SkipForward(s, i + 1) else i
  }

  /** The end of `s[lo..j]` once its trailing whitespace is dropped. */
  function SkipBackward(s: string, lo: nat, j: nat): (k: nat)
    requires lo <= j <= |s|
    ensures lo <= k <= j && WhitespaceIn(s, k, j)
    ensures k == lo || !IsWhitespace(s[k - 1])
    decreases j - lo
  {
    if lo < j && IsWhitespace(s[j - 1]) then SkipBackward(s, lo, j - 1) else j
  }

  /** Where the trimmed string starts in `s`: the whitespace `trim` cuts off the front. */
  function TrimOffset(s: string): nat {
    SkipForward(s, 0)
  }

  /**
    `s.trim()`: the infix of `s` that starts at `TrimOffset(s)`, obtained by
    cutting only whitespace off both ends, with no whitespace left at either end.
   */
  function Trim(s: string): (r: string)
    ensures Trimmed(r)
    ensures TrimOffset(s) + |r| <= |s| && r == s[TrimOffset(s)..TrimOffset(s) + |r|]
    ensures WhitespaceIn(s, 0, TrimOffset(s)) && WhitespaceIn(s, TrimOffset(s) + |r|, |s|)
  {
    var a := SkipForward(s, 0);
    var b := SkipBackward(s, a, |s|);
    s[a..b]
  }

  /** Only whitespace trims to nothing. */
  lemma TrimEmptyIffWhitespace(s: string)
    ensures Trim(s) == [] <==> AllWhitespace(s)
  {
    var r := Trim(s);
    if r != [] {
      assert s[TrimOffset(s)] == r[0];
    }
  }

  /** Trimming changes nothing once there is no whitespace at the ends; so `trim` is idempotent. */
  lemma {:induction false} TrimOfTrimmed(s: string)
    requires Trimmed(s)
    ensures Trim(s) == s
  {
    if s != [] {
      assert SkipForward(s, 0) == 0;
      assert SkipBackward(s, 0, |s|) == |s|;
    }
  }

  lemma TrimIdempotent(s: string)
    ensures Trim(Trim(s)) == Trim(s)
  {
    TrimOfTrimmed(Trim(s));
  }

  /** Skipping whitespace forward stops at or before the first character that is not whitespace. */
  lemma {:induction false} SkipForwardStops(s: string, i: nat, j: nat)
    requires i <= j < |s| && !IsWhitespace(s[j])
    ensures SkipForward(s, i) <= j
    decreases j - i
  {
    if IsWhitespace(s[i]) {
      SkipForwardStops(s, i + 1, j);
    }
  }

  /**
    Trimming keeps a suffix `q` that neither starts nor ends with whitespace:
    the string `p + q` trims to something that still ends in `q`.
   */
  lemma TrimKeepsSuffix(p: string, q: string)
    requires q != [] && !IsWhitespace(q[0]) && !IsWhitespace(q[|q| - 1])
    ensures |Trim(p + q)| >= |q| && Trim(p + q)[|Trim(p + q)| - |q|..] == q
  {
    var s := p + q;
    assert s[|p|] == q[0];
    SkipForwardStops(s, 0, |p|);
    var k := SkipForward(s, 0);
    assert s[|s| - 1] == q[|q| - 1];
    assert SkipBackward(s, k, |s|) == |s|;
    var r := s[k..];
    assert Trim(s) == r;
    assert r[|r| - |q|..] == s[|p|..] == q;
  }
}
