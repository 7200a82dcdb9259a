/** Python string operations the bots rely on: `str.strip()`, `str.lower()`,
    `needle in s` and `s.startswith(p)`, over Dafny strings. */
module Strings {

  /** The characters Python's argument-less `str.strip()` removes
      (its notion of Unicode whitespace). */
  predicate IsSpace(c: char) {
    var n := c as int;
    (0x09 <= n <= 0x0D) || (0x1C <= n <= 0x20) || n == 0x85 || n == 0xA0 ||
    n == 0x1680 || (0x2000 <= n <= 0x200A) || n == 0x2028 || n == 0x2029 ||
    n == 0x202F || n == 0x205F || n == 0x3000
  }

  /** `s` with its leading whitespace removed. */
  function TrimStart(s: string): (r: string)
    ensures |r| <= |s| && r == s[|s| - |r|..]
    ensures forall i | 0 <= i < |s| - |r| :: IsSpace(s[i])
    ensures r != [] ==> !IsSpace(r[0])
  {
    if s != [] && IsSpace(s[0]) then TrimStart(s[1..]) else s
  }

  /** `s` with its trailing whitespace removed. */
  function TrimEnd(s: string): (r: string)
    ensures |r| <= |s| && r == s[..|r|]
    ensures forall i | |r| <= i < |s| :: IsSpace(s[i])
    ensures r != [] ==> !IsSpace(r[|r| - 1])
  {
    if s != [] && IsSpace(s[|s| - 1]) then TrimEnd(s[..|s| - 1]) else s
  }

  /** Where `Strip(s)` begins inside `s`. */
  function StripOffset(s: string): nat
  {
    |s| - |TrimStart(s)|
  }

  /** Python's `s.strip()`: the longest middle slice of `s` that neither
      begins nor ends with whitespace; only whitespace is cut away. */
  function Strip(s: string): (r: string)
    ensures StripOffset(s) + |r| <= |s|
    ensures r == s[StripOffset(s)..StripOffset(s) + |r|]
    ensures forall i | 0 <= i < StripOffset(s) :: IsSpace(s[i])
    ensures forall i | StripOffset(s) + |r| <= i < |s| :: IsSpace(s[i])
    ensures r != [] ==> !IsSpace(r[0]) && !IsSpace(r[|r| - 1])
  {
    TrimEnd(TrimStart(s))
  }

  /** A stripped string is empty exactly when the original is all whitespace:
      this is the test `if not text.strip()` performs. */
  lemma {:induction false} StripEmptyIffBlank(s: string)
    ensures Strip(s) == [] <==> forall i | 0 <= i < |s| :: IsSpace(s[i])
  {
    var r := Strip(s);
    var lo := StripOffset(s);
    if r == [] {
      forall i | 0 <= i < |s| ensures IsSpace(s[i]) {
        if i >= lo {
          assert lo + |r| <= i;
        }
      }
    } else {
      assert s[lo] == r[0];
      assert !IsSpace(s[lo]);
    }
  }

  /** ASCII lower-casing of one character. */
  function LowerChar(c: char): (d: char)
    ensures IsUpperAscii(c) ==> d as int == c as int + 32
    ensures !IsUpperAscii(c) ==> d == c
  {
    if IsUpperAscii(c) then (c as int + 32) as char else c
  }

  predicate IsUpperAscii(c: char) {
    'A' <= c <= 'Z'
  }

  /** `s.lower()`, lowering the ASCII letters. */
  function Lower(s: string): (r: string)
    ensures |r| == |s|
    ensures forall i | 0 <= i < |s| :: r[i] == LowerChar(s[i])
  {
    seq(|s|, i requires 0 <= i < |s| => LowerChar(s[i]))
  }

  /** `needle` occurs in `s` starting at position `i`. */
  predicate OccursAt(s: string, needle: string, i: int) {
    0 <= i && i + |needle| <= |s| && s[i..i + |needle|] == needle
  }

  /** Python's `needle in s` on strings. */
  predicate Contains(s: string, needle: string) {
    exists i | 0 <= i <= |s| - |needle| :: OccursAt(s, needle, i)
  }

  /** Python's `s.startswith(prefix)`. */
  predicate StartsWith(s: string, prefix: string) {
    |prefix| <= |s| && s[..|prefix|] == prefix
  }

  /** An occurrence inside the window `s[lo..hi]` is an occurrence in `s`,
      shifted by `lo`, and conversely. */
  lemma OccursInWindow(s: string, lo: nat, hi: nat, needle: string, j: int)
    requires lo <= hi <= |s|
    requires lo <= j && j + |needle| <= hi
    ensures OccursAt(s, needle, j) <==> OccursAt(s[lo..hi], needle, j - lo)
  {
    var a, b := s[lo..hi][j - lo..j - lo + |needle|], s[j..j + |needle|];
    assert forall k | 0 <= k < |needle| :: a[k] == b[k];
    assert a == b;
  }

  /** A substring of a slice is a substring of the whole. */
  lemma ContainsInSlice(s: string, lo: nat, hi: nat, needle: string)
    requires lo <= hi <= |s|
    requires Contains(s[lo..hi], needle)
    ensures Contains(s, needle)
  {
    var t := s[lo..hi];
    var i :| 0 <= i <= |t| - |needle| && OccursAt(t, needle, i);
    OccursInWindow(s, lo, hi, needle, lo + i);
  }

  /** Lower-casing commutes with slicing. */
  lemma LowerSlice(s: string, lo: nat, hi: nat)
    requires lo <= hi <= |s|
    ensures Lower(s[lo..hi]) == Lower(s)[lo..hi]
  {
  }

  /** Lower-casing leaves whitespace alone and never makes whitespace. */
  lemma LowerKeepsSpaces(c: char)
    ensures IsSpace(LowerChar(c)) <==> IsSpace(c)
  {
  }

  /** `needle in s.lower()` survives stripping `s` first, for a needle that
      neither begins nor ends with whitespace. */
  lemma ContainsLowerSurvivesStrip(s: string, needle: string)
    requires needle != [] && !IsSpace(needle[0]) && !IsSpace(needle[|needle| - 1])
    requires Contains(Lower(s), needle)
    ensures Contains(Lower(Strip(s)), needle)
  {
    var ls := Lower(s);
    var i :| 0 <= i <= |ls| - |needle| && OccursAt(ls, needle, i);
    var lo, hi := StripOffset(s), StripOffset(s) + |Strip(s)|;
    OccurrenceInsideStrip(s, needle, i);
    OccursInWindow(ls, lo, hi, needle, i);
    LowerSlice(s, lo, hi);
    assert Lower(Strip(s)) == ls[lo..hi];
    assert OccursAt(Lower(Strip(s)), needle, i - lo);
  }

  /** An occurrence in `s.lower()` of a needle with non-space ends lies
      within the part `strip()` keeps. */
  lemma OccurrenceInsideStrip(s: string, needle: string, i: int)
    requires needle != [] && !IsSpace(needle[0]) && !IsSpace(needle[|needle| - 1])
    requires OccursAt(Lower(s), needle, i)
    ensures StripOffset(s) <= i && i + |needle| <= StripOffset(s) + |Strip(s)|
  {
    var ls := Lower(s);
    var last := i + |needle| - 1;
    assert ls[i] == needle[0] by {
      assert ls[i..i + |needle|][0] == ls[i];
    }
    assert ls[last] == needle[|needle| - 1] by {
      assert ls[i..i + |needle|][|needle| - 1] == ls[last];
    }
    LowerKeepsSpaces(s[i]);
    LowerKeepsSpaces(s[last]);
    NonSpaceInsideStrip(s, i);
    NonSpaceInsideStrip(s, last);
  }

  /** A non-space character lies inside the part `strip()` keeps. */
  lemma NonSpaceInsideStrip(s: string, i: nat)
    requires i < |s| && !IsSpace(s[i])
    ensures StripOffset(s) <= i < StripOffset(s) + |Strip(s)|
  {
  }

  /** The converse direction: an occurrence in the lowered strip is one in
      the lowered whole. */
  lemma ContainsLowerOfStrip(s: string, needle: string)
    requires Contains(Lower(Strip(s)), needle)
    ensures Contains(Lower(s), needle)
  {
    var r := Strip(s);
    var lo, hi := StripOffset(s), StripOffset(s) + |Strip(s)|;
    assert r == s[lo..hi];
    LowerSlice(s, lo, hi);
    assert Lower(r) == Lower(s)[lo..hi];
    ContainsInSlice(Lower(s), lo, hi, needle);
  }
}
