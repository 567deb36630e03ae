/** The JavaScript built-ins the announcement engine leans on, stated over Dafny
    values: values that may be `null`/`undefined`, truthiness of strings,
    `String.prototype.trim`, `String.prototype.substring` and the idiom
    `Math.floor(Math.random() * n)` used to pick an element at random. */
module Js {

  /** A value that may be absent (`null` or `undefined` in the source). */
  datatype Option<+T> = None | Some(value: T) {
    /** `x || fallback` for a present-or-absent value. */
    function GetOr(default: T): T {
      if Some? then value else default
    }
  }

  /** A call that either yields a value or throws an error with a message. */
  datatype Result<+T> = Ok(value: T) | Err(message: string)

  /** A string held in an environment variable is truthy exactly when it is set and not empty. */
  predicate Truthy(s: Option<string>) {
    s.Some? && s.value != ""
  }

  function Min(a: int, b: int): int { if a <= b then a else b }

  /** The characters `String.prototype.trim` removes: the ECMAScript WhiteSpace
      production (tab, vertical tab, form feed, space, no-break space, the byte
      order mark and every space separator of category Zs) and the LineTerminator
      production (line feed, carriage return, line and paragraph separators). */
  predicate IsWhitespace(c: char) {
    c == '\t' || c == '\n' || c == '\U{000B}' || c == '\U{000C}' || c == '\r' ||
    c == ' ' || c == '\U{00A0}' || c == '\U{1680}' ||
    ('\U{2000}' <= c <= '\U{200A}') ||
    c == '\U{2028}' || c == '\U{2029}' || c == '\U{202F}' || c == '\U{205F}' ||
    c == '\U{3000}' || c == '\U{FEFF}'
  }

  predicate AllWhitespace(s: string) {
    forall i :: 0 <= i < |s| ==> IsWhitespace(s[i])
  }

  /** `r` is `s` with the whitespace at both ends removed and nothing else:
      a contiguous part of `s` with only whitespace around it, and neither of
      its own ends whitespace. */
  predicate IsTrimOf(r: string, s: string) {
    (r == [] || (!IsWhitespace(r[0]) && !IsWhitespace(r[|r| - 1]))) &&
    exists lo, hi :: 0 <= lo <= hi <= |s| && s[lo..hi] == r && AllWhitespace(s[..lo]) && AllWhitespace(s[hi..])
  }

  /** The first index at or after `i` that does not hold whitespace (or `|s|`). */
  function SkipLeading(s: string, i: nat): (j: nat)
    requires i <= |s|
    ensures i <= j <= |s|
    ensures forall k :: i <= k < j ==> IsWhitespace(s[k])
    ensures j == |s| || !IsWhitespace(s[j])
    decreases |s| - i
  {
    if i < |s| && IsWhitespace(s[i]) then SkipLeading(s, i + 1) else i
  }

  /** The end, at most `j` and at least `lo`, of `s[lo..j]` without its trailing whitespace. */
  function SkipTrailing(s: string, lo: nat, j: nat): (e: nat)
    requires lo <= j <= |s|
    ensures lo <= e <= j
    ensures forall k :: e <= k < j ==> IsWhitespace(s[k])
    ensures e == lo || !IsWhitespace(s[e - 1])
  {
    if lo < j && IsWhitespace(s[j - 1]) then SkipTrailing(s, lo, j - 1) else j
  }

  /** `s.trim()`. */
  function Trim(s: string): (r: string)
    ensures IsTrimOf(r, s)
  {
    var lo := SkipLeading(s, 0);
    var hi := SkipTrailing(s, lo, |s|);
    assert AllWhitespace(s[..lo]) && AllWhitespace(s[hi..]);
    assert hi == lo || (!IsWhitespace(s[lo]) && !IsWhitespace(s[hi - 1]));
    s[lo..hi]
  }

  lemma WhitespaceAround(s: string, lo: nat, hi: nat)
    requires lo <= hi <= |s|
    requires AllWhitespace(s[..lo]) && AllWhitespace(s[hi..])
    ensures forall i :: 0 <= i < lo ==> IsWhitespace(s[i])
    ensures forall i :: hi <= i < |s| ==> IsWhitespace(s[i])
  {
    forall i | 0 <= i < lo ensures IsWhitespace(s[i]) {
      assert s[..lo][i] == s[i];
    }
    forall i | hi <= i < |s| ensures IsWhitespace(s[i]) {
      assert s[hi..][i - hi] == s[i];
    }
  }

  /** Skipping from the start stops at the first character that is not whitespace. */
  lemma LeadingStopsAt(s: string, lo: nat)
    requires lo <= |s|
    requires forall i :: 0 <= i < lo ==> IsWhitespace(s[i])
    requires lo == |s| || !IsWhitespace(s[lo])
    ensures SkipLeading(s, 0) == lo
  {
    var j := SkipLeading(s, 0);
    if j < lo {
      assert IsWhitespace(s[j]);
    }
  }

  /** Skipping back from the end stops after the last character that is not whitespace. */
  lemma TrailingStopsAt(s: string, lo: nat, hi: nat)
    requires lo < hi <= |s|
    requires forall i :: hi <= i < |s| ==> IsWhitespace(s[i])
    requires !IsWhitespace(s[hi - 1])
    ensures SkipTrailing(s, lo, |s|) == hi
  {
  }

  /** The description `IsTrimOf` fixes the result: any string that is `s`
      with only surrounding whitespace removed is `s.trim()`. */
  lemma TrimUnique(s: string, r: string)
    requires IsTrimOf(r, s)
    ensures r == Trim(s)
  {
    var lo, hi :| 0 <= lo <= hi <= |s| && s[lo..hi] == r && AllWhitespace(s[..lo]) && AllWhitespace(s[hi..]);
    WhitespaceAround(s, lo, hi);
    if r == [] {
      LeadingStopsAt(s, |s|);
    } else {
      assert s[lo] == r[0] && s[hi - 1] == r[|r| - 1];
      LeadingStopsAt(s, lo);
      TrailingStopsAt(s, lo, hi);
    }
  }

  /** A string with nothing to trim at either end is its own trim. */
  lemma TrimKeepsTrimmed(s: string)
    requires s == [] || (!IsWhitespace(s[0]) && !IsWhitespace(s[|s| - 1]))
    ensures Trim(s) == s
  {
    assert SkipLeading(s, 0) == 0;
  }

  /** Trimming twice is trimming once. */
  lemma TrimIdempotent(s: string)
    ensures Trim(Trim(s)) == Trim(s)
  {
    TrimKeepsTrimmed(Trim(s));
  }

  /** `s.substring(start, end)` for non-negative arguments: both ends are clamped
      to the length of `s` and swapped when `start` is the larger. */
  function Substring(s: string, start: nat, end: nat): (r: string)
    ensures start <= end <= |s| ==> r == s[start..end]
    ensures |s| <= start && |s| <= end ==> r == []
    ensures start <= |s| <= end ==> r == s[start..]
    ensures end <= |s| <= start ==> r == s[end..]
    ensures end < start ==> r == Substring(s, end, start)
  {
    var lo := Min(Min(start, end), |s|);
    var hi := Min(if start <= end then end else start, |s|);
    s[lo..hi]
  }

  /** `Math.floor(Math.random() * n)`, with the draw of `Math.random()` given as
      `random` in [0, 1): the index it yields always lies in [0, n). */
  function RandomIndex(random: real, n: nat): (i: nat)
    requires 0.0 <= random < 1.0
    requires n > 0
    ensures i < n
  {
    assert 0.0 <= random * n as real < n as real;
    (random * n as real).Floor
  }
}
