/** The parts of Python's built-in `str` and sequence slicing that the
    leaderboard relies on: `str.strip()` without arguments and `s[:n]`. */
module PyStr {

  /** The code points for which Python's `str.isspace()` holds: exactly
      the characters that `str.strip()` removes when called without
      arguments (tab to carriage return, the four information separators,
      space, next line, no-break space, and the Unicode space separators,
      line separator and paragraph separator). */
  const Whitespace: set<char> :=
    { '\t', '\n', '\U{B}', '\U{C}', '\r', '\U{1C}', '\U{1D}', '\U{1E}', '\U{1F}', ' ',
      '\U{85}', '\U{A0}', '\U{1680}', '\U{2000}', '\U{2001}', '\U{2002}', '\U{2003}',
      '\U{2004}', '\U{2005}', '\U{2006}', '\U{2007}', '\U{2008}', '\U{2009}', '\U{200A}',
      '\U{2028}', '\U{2029}', '\U{202F}', '\U{205F}', '\U{3000}' }

  predicate IsSpace(c: char) {
    c in Whitespace
  }

  predicate AllSpace(s: string) {
    forall j | 0 <= j < |s| :: IsSpace(s[j])
  }

  /** The end of the run of whitespace that starts at `i`. */
  function SkipSpace(s: string, i: nat): (lo: nat)
    requires i <= |s|
    ensures i <= lo <= |s|
    ensures forall j | i <= j < lo :: IsSpace(s[j])
    ensures lo < |s| ==> !IsSpace(s[lo])
    decreases |s| - i
  {
    if i < |s| && IsSpace(s[i]) then SkipSpace(s, i + 1) else i
  }

  /** The start of the run of whitespace that ends at `hi`, not going below `lo`. */
  function SkipSpaceBack(s: string, lo: nat, hi: nat): (h: nat)
    requires lo <= hi <= |s|
    ensures lo <= h <= hi
    ensures forall j | h <= j < hi :: IsSpace(s[j])
    ensures h > lo ==> !IsSpace(s[h - 1])
  {
    if hi > lo && IsSpace(s[hi - 1]) then SkipSpaceBack(s, lo, hi - 1) else hi
  }

  /** `r` is what `s.strip()` gives: `s` is some whitespace, then `r`, then
      some whitespace, and `r` neither starts nor ends with whitespace. */
  ghost predicate IsStripOf(s: string, r: string) {
    exists lo, hi | 0 <= lo <= hi <= |s| ::
      && r == s[lo..hi]
      && (forall j | 0 <= j < lo :: IsSpace(s[j]))
      && (forall j | hi <= j < |s| :: IsSpace(s[j]))
      && (lo < hi ==> !IsSpace(s[lo]) && !IsSpace(s[hi - 1]))
  }

  /** `s.strip()`; the result is empty exactly when `s` is all whitespace. */
  function Strip(s: string): (r: string)
    ensures IsStripOf(s, r)
    ensures r == [] <==> AllSpace(s)
    ensures r != [] ==> !IsSpace(r[0]) && !IsSpace(r[|r| - 1])
  {
    var lo := SkipSpace(s, 0);
    var hi := SkipSpaceBack(s, lo, |s|);
    s[lo..hi]
  }

  /** `IsStripOf` has one solution, so it specifies `Strip` completely. */
  lemma StripOfUnique(s: string, r1: string, r2: string)
    requires IsStripOf(s, r1) && IsStripOf(s, r2)
    ensures r1 == r2
  {
  }

  /** Python's `s[:n]` for any integer `n`: the first `n` elements when
      `n` is not negative, otherwise all but the last `-n` elements. */
  function SliceTo<T>(s: seq<T>, n: int): (r: seq<T>)
    ensures r <= s
    ensures n >= 0 ==> |r| == if n <= |s| then n else |s|
    ensures n < 0 ==> |r| == if |s| + n >= 0 then |s| + n else 0
  {
    if n >= 0 then
      if n <= |s| then s[..n] else s
    else
      if |s| + n >= 0 then s[..|s| + n] else []
  }
}
