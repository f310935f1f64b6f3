/**
 * The few string operations of Python's `str` that the core uses:
 * `strip()`, `lower()` and `split(c)[0]`.
 */
module Text {

  /** The characters for which Python's `str.isspace()` holds; `strip()` with no argument removes these. */
  predicate IsSpace(c: char) {
    || ('\U{9}' <= c <= '\U{D}')
    || ('\U{1C}' <= c <= '\U{20}')
    || c == '\U{85}' || c == '\U{A0}' || c == '\U{1680}'
    || ('\U{2000}' <= c <= '\U{200A}')
    || c == '\U{2028}' || c == '\U{2029}' || c == '\U{202F}' || c == '\U{205F}' || c == '\U{3000}'
  }

  /** `s.lstrip()`: drop leading whitespace. */
  function TrimStart(s: string): (r: string)
    ensures |r| <= |s| && r == s[|s| - |r|..]
    ensures r != [] ==> !IsSpace(r[0])
    ensures forall k :: 0 <= k < |s| - |r| ==> IsSpace(s[k])
  {
    if s != [] && IsSpace(s[0]) then TrimStart(s[1..]) else s
  }

  /** `s.rstrip()`: drop trailing whitespace. */
  function TrimEnd(s: string): (r: string)
    ensures |r| <= |s| && r == s[..|r|]
    ensures r != [] ==> !IsSpace(r[|r| - 1])
    ensures forall k :: |r| <= k < |s| ==> IsSpace(s[k])
  {
    if s != [] && IsSpace(s[|s| - 1]) then TrimEnd(s[..|s| - 1]) else s
  }

  /** The number of whitespace characters `s` starts with. */
  function LeadingSpaces(s: string): (n: nat)
    ensures n <= |s|
    ensures forall k :: 0 <= k < n ==> IsSpace(s[k])
    ensures n < |s| ==> !IsSpace(s[n])
  {
    if s != [] && IsSpace(s[0]) then 1 + LeadingSpaces(s[1..]) else 0
  }

  /**
   * `s.strip()`: the slice of `s` that starts after its leading whitespace;
   * everything cut off at either end is whitespace and the slice neither
   * starts nor ends with it.
   */
  function Strip(s: string): (r: string)
    ensures LeadingSpaces(s) + |r| <= |s|
    ensures r == s[LeadingSpaces(s)..LeadingSpaces(s) + |r|]
    ensures forall k :: LeadingSpaces(s) + |r| <= k < |s| ==> IsSpace(s[k])
    ensures r != [] ==> !IsSpace(r[0]) && !IsSpace(r[|r| - 1])
  {
    var t := TrimStart(s);
    assert |t| == |s| - LeadingSpaces(s) by { TrimStartDropsLeadingSpaces(s); }
    TrimEnd(t)
  }

  lemma {:induction false} TrimStartDropsLeadingSpaces(s: string)
    ensures |TrimStart(s)| == |s| - LeadingSpaces(s)
  {
    if s != [] && IsSpace(s[0]) {
      TrimStartDropsLeadingSpaces(s[1..]);
    }
  }

  /** Python's `lower()` on one character, for the ASCII capitals. */
  function LowerChar(c: char): (r: char)
    ensures 'A' <= c <= 'Z' ==> 'a' <= r <= 'z'
    ensures !('A' <= c <= 'Z') ==> r == c
  {
    if 'A' <= c <= 'Z' then (c as int - 'A' as int + 'a' as int) as char else c
  }

  /** `s.lower()`, character by character. */
  function Lower(s: string): (r: string)
    ensures |r| == |s|
    ensures forall k :: 0 <= k < |s| ==> r[k] == LowerChar(s[k])
  {
    seq(|s|, k requires 0 <= k < |s| => LowerChar(s[k]))
  }

  /** A string that neither starts nor ends with whitespace is its own `strip()`. */
  lemma StripOfStripped(s: string)
    requires s != [] ==> !IsSpace(s[0]) && !IsSpace(s[|s| - 1])
    ensures Strip(s) == s
  {
    if s != [] {
      assert LeadingSpaces(s) == 0;
    }
  }

  /** No ASCII capital letter occurs in `s`. */
  predicate NoCapitals(s: string) {
    forall k :: 0 <= k < |s| ==> !('A' <= s[k] <= 'Z')
  }

  /** `s.lower()` has no ASCII capital left. */
  lemma LowerHasNoCapitals(s: string)
    ensures NoCapitals(Lower(s))
  {
    var u := Lower(s);
    forall k | 0 <= k < |u|
      ensures !('A' <= u[k] <= 'Z')
    {
      assert u[k] == LowerChar(s[k]);
    }
  }

  /** A slice of a string without capitals has none either. */
  lemma SliceHasNoCapitals(s: string, lo: nat, hi: nat)
    requires lo <= hi <= |s| && NoCapitals(s)
    ensures NoCapitals(s[lo..hi])
  {
    var t := s[lo..hi];
    forall k | 0 <= k < |t|
      ensures !('A' <= t[k] <= 'Z')
    {
      assert t[k] == s[lo + k];
    }
  }

  /** `s.lower().strip()` has no ASCII capital left. */
  lemma StripOfLowerIsLower(s: string)
    ensures NoCapitals(Strip(Lower(s)))
  {
    var u := Lower(s);
    var n := LeadingSpaces(u);
    var t := Strip(u);
    LowerHasNoCapitals(s);
    SliceHasNoCapitals(u, n, n + |t|);
  }

  /** A string with no ASCII capitals is its own `lower()`. */
  lemma LowerOfLowered(s: string)
    requires NoCapitals(s)
    ensures Lower(s) == s
  {
  }

  /** `s.split(sep)[0]`: the text before the first `sep`, or all of `s` when there is none. */
  function BeforeFirst(s: string, sep: char): (r: string)
    ensures |r| <= |s| && r == s[..|r|]
    ensures sep !in r
    ensures |r| < |s| ==> s[|r|] == sep
  {
    if s == [] || s[0] == sep then [] else [s[0]] + BeforeFirst(s[1..], sep)
  }
}
