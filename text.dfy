/** The parts of Python's `str` that the modelled code relies on: case
    mapping, searching, replacing, stripping and splitting. Strings are
    sequences of Unicode scalar values; letter case is mapped for ASCII
    letters only. */
module Text {
  import opened Collections

  /** The characters Python's `str.isspace()` accepts; `str.split()`,
      `str.strip()` with no argument and the `\s` class of `re` on `str`
      patterns all use this set: tab to carriage return, the four
      information separators U+001C to U+001F, space, U+0085, U+00A0,
      U+1680, U+2000 to U+200A, U+2028, U+2029, U+202F, U+205F and U+3000. */
  predicate IsSpace(c: char) {
    || '\t' <= c <= '\r'
    || '\U{1C}' <= c <= ' '
    || c == '\U{85}' || c == '\U{A0}' || c == '\U{1680}'
    || '\U{2000}' <= c <= '\U{200A}'
    || c == '\U{2028}' || c == '\U{2029}' || c == '\U{202F}' || c == '\U{205F}' || c == '\U{3000}'
  }

  predicate IsDigit(c: char) { '0' <= c <= '9' }

  predicate IsUpper(c: char) { 'A' <= c <= 'Z' }

  predicate IsLower(c: char) { 'a' <= c <= 'z' }

  function LowerChar(c: char): (r: char)
    ensures !IsUpper(r)
    ensures IsUpper(c) ==> IsLower(r) && r as int == c as int + 32
    ensures !IsUpper(c) ==> r == c
  {
    if IsUpper(c) then (c as int + 32) as char else c
  }

  function UpperChar(c: char): (r: char)
    ensures !IsLower(r)
    ensures IsLower(c) ==> IsUpper(r) && LowerChar(r) == c
    ensures !IsLower(c) ==> r == c
  {
    if IsLower(c) then (c as int - 32) as char else c
  }

  /** `str.lower()` on ASCII letters. */
  function Lower(s: string): (r: string)
    ensures |r| == |s|
    ensures forall k :: 0 <= k < |s| ==> r[k] == LowerChar(s[k])
  {
    seq(|s|, k requires 0 <= k < |s| => LowerChar(s[k]))
  }

  lemma LowerConcat(a: string, b: string)
    ensures Lower(a + b) == Lower(a) + Lower(b)
  {
    assert Lower(a + b) == Lower(a) + Lower(b) by {
      assert forall k :: 0 <= k < |a| + |b| ==> Lower(a + b)[k] == (Lower(a) + Lower(b))[k];
    }
  }

  /** `str.capitalize()`: the first character upper-cased, the rest lower-cased. */
  function Capitalize(s: string): (r: string)
    ensures |r| == |s|
    ensures |r| > 0 ==> !IsLower(r[0])
    ensures forall k :: 0 < k < |r| ==> !IsUpper(r[k])
    ensures Lower(r) == Lower(s)
    ensures forall k :: 0 <= k < |r| ==> r[k] == s[k] || IsUpper(r[k]) || IsLower(r[k])
  {
    if s == [] then []
    else
      var r := [UpperChar(s[0])] + Lower(s[1..]);
      assert LowerChar(UpperChar(s[0])) == LowerChar(s[0]);
      assert forall k :: 0 < k < |s| ==> LowerChar(LowerChar(s[k])) == LowerChar(s[k]);
      r
  }

  /** Lower-casing a string with no upper-case letter changes nothing. */
  lemma LowerFixed(s: string)
    requires forall k :: 0 <= k < |s| ==> !IsUpper(s[k])
    ensures Lower(s) == s
  {
  }

  /** `pat` occurs in `s` starting at index `k`. */
  predicate OccursAt(s: string, pat: string, k: int) {
    0 <= k && k + |pat| <= |s| && s[k..k + |pat|] == pat
  }

  /** `s.find(pat, from)`: the first occurrence at or after `from`, or -1. */
  function Find(s: string, pat: string, from: nat): (r: int)
    requires from <= |s|
    ensures r == -1 || (from <= r && OccursAt(s, pat, r))
    ensures forall k :: from <= k && (r == -1 || k < r) ==> !OccursAt(s, pat, k)
    decreases |s| - from
  {
    if from + |pat| > |s| then -1
    else if s[from..from + |pat|] == pat then from
    else if from == |s| then -1
    else Find(s, pat, from + 1)
  }

  /** Python's `pat in s`. */
  predicate Contains(s: string, pat: string) {
    Find(s, pat, 0) >= 0
  }

  lemma ContainsAt(s: string, pat: string, k: int)
    requires OccursAt(s, pat, k)
    ensures Contains(s, pat)
  {
  }

  predicate StartsWith(s: string, prefix: string) {
    |prefix| <= |s| && s[..|prefix|] == prefix
  }

  predicate EndsWith(s: string, suffix: string) {
    |suffix| <= |s| && s[|s| - |suffix|..] == suffix
  }

  /** `s.replace(pat, rep)`: every non-overlapping occurrence of `pat`,
      scanning from the left, replaced by `rep`. */
  function ReplaceAll(s: string, pat: string, rep: string): (r: string)
    requires |pat| > 0
    decreases |s|
  {
    if |s| < |pat| then s
    else if s[..|pat|] == pat then rep + ReplaceAll(s[|pat|..], pat, rep)
    else [s[0]] + ReplaceAll(s[1..], pat, rep)
  }

  /** Replacing a pattern that does not occur changes nothing. */
  lemma {:induction false} ReplaceAllAbsent(s: string, pat: string, rep: string)
    requires |pat| > 0 && !Contains(s, pat)
    ensures ReplaceAll(s, pat, rep) == s
    decreases |s|
  {
    if |s| >= |pat| {
      assert !OccursAt(s, pat, 0);
      assert !Contains(s[1..], pat) by {
        forall k | OccursAt(s[1..], pat, k) ensures false {
          assert s[1..][k..k + |pat|] == s[k + 1..k + 1 + |pat|];
          assert OccursAt(s, pat, k + 1);
        }
      }
      ReplaceAllAbsent(s[1..], pat, rep);
    }
  }

  /** Deleting every occurrence of a pattern never lengthens a string, and
      shortens it by at least the pattern's length when the pattern occurs. */
  lemma {:induction false} ReplaceAllDeleteShorter(s: string, pat: string)
    requires |pat| > 0
    ensures |ReplaceAll(s, pat, "")| <= |s|
    ensures Contains(s, pat) ==> |ReplaceAll(s, pat, "")| + |pat| <= |s|
    decreases |s|
  {
    if |s| >= |pat| {
      if s[..|pat|] == pat {
        ReplaceAllDeleteShorter(s[|pat|..], pat);
      } else {
        ReplaceAllDeleteShorter(s[1..], pat);
        if Contains(s, pat) {
          ContainsTail(s, pat);
        }
      }
    }
  }

  /** An occurrence that is not at the start is an occurrence in the tail. */
  lemma ContainsTail(s: string, pat: string)
    requires Contains(s, pat) && !OccursAt(s, pat, 0)
    ensures Contains(s[1..], pat)
  {
    var k := Find(s, pat, 0);
    assert s[1..][k - 1..k - 1 + |pat|] == s[k..k + |pat|];
    ContainsAt(s[1..], pat, k - 1);
  }

  /** Replacing one character by another maps the string character by character. */
  lemma {:induction false} ReplaceAllChar(s: string, a: char, b: char)
    ensures |ReplaceAll(s, [a], [b])| == |s|
    ensures forall k :: 0 <= k < |s| ==> ReplaceAll(s, [a], [b])[k] == if s[k] == a then b else s[k]
    decreases |s|
  {
    if s != [] {
      ReplaceAllChar(s[1..], a, b);
    }
  }

  /** The number of leading characters of `s` that satisfy `p`. */
  function LeadingCount(s: string, p: char -> bool): (n: nat)
    ensures n <= |s|
    ensures forall k :: 0 <= k < n ==> p(s[k])
    ensures n < |s| ==> !p(s[n])
  {
    if s == [] || !p(s[0]) then 0 else 1 + LeadingCount(s[1..], p)
  }

  /** The number of trailing characters of `s` that satisfy `p`. */
  function TrailingCount(s: string, p: char -> bool): (n: nat)
    ensures n <= |s|
    ensures forall k :: |s| - n <= k < |s| ==> p(s[k])
    ensures n < |s| ==> !p(s[|s| - 1 - n])
  {
    if s == [] || !p(s[|s| - 1]) then 0 else 1 + TrailingCount(s[..|s| - 1], p)
  }

  /** `s.strip(chars)`, with the character set given as a predicate. */
  function StripBy(s: string, p: char -> bool): (r: string)
    ensures |r| > 0 ==> !p(r[0]) && !p(r[|r| - 1])
    ensures LeadingCount(s, p) + |r| <= |s|
    ensures r == s[LeadingCount(s, p)..LeadingCount(s, p) + |r|]
    ensures forall k :: 0 <= k < |s| && !(LeadingCount(s, p) <= k < LeadingCount(s, p) + |r|) ==> p(s[k])
  {
    var i := LeadingCount(s, p);
    var t := s[i..];
    var n := TrailingCount(t, p);
    assert forall k :: i + |t| - n <= k < |s| ==> s[k] == t[k - i];
    t[..|t| - n]
  }

  /** Stripping a string whose ends are kept changes nothing. */
  lemma StripByFixed(s: string, p: char -> bool)
    requires |s| > 0 ==> !p(s[0]) && !p(s[|s| - 1])
    ensures StripBy(s, p) == s
  {
    assert s[0..] == s;
    assert s[0..][..|s|] == s;
  }

  /** Membership in `chars`, as a predicate on characters. */
  function InSet(chars: set<char>): (p: char -> bool)
    ensures forall c :: p(c) <==> c in chars
  {
    c => c in chars
  }

  /** `s.strip(chars)`: the slice of `s` left once the leading and trailing
      characters in `chars` are removed. */
  function StripChars(s: string, chars: set<char>): (r: string)
    ensures |r| > 0 ==> r[0] !in chars && r[|r| - 1] !in chars
    ensures LeadingCount(s, InSet(chars)) + |r| <= |s|
    ensures r == s[LeadingCount(s, InSet(chars))..][..|r|]
  {
    StripBy(s, InSet(chars))
  }

  /** Stripping a string whose ends are not in `chars` changes nothing. */
  lemma StripCharsFixed(s: string, chars: set<char>)
    requires |s| > 0 ==> s[0] !in chars && s[|s| - 1] !in chars
    ensures StripChars(s, chars) == s
  {
    StripByFixed(s, InSet(chars));
  }

  /** `s.lstrip(chars)`. */
  function LStripChars(s: string, chars: set<char>): (r: string)
    ensures |r| <= |s| && r == s[|s| - |r|..]
    ensures forall k :: 0 <= k < |s| - |r| ==> s[k] in chars
    ensures |r| > 0 ==> r[0] !in chars
  {
    s[LeadingCount(s, InSet(chars))..]
  }

  /** Left-stripping a string that does not begin with a character of
      `chars` changes nothing. */
  lemma LStripCharsFixed(s: string, chars: set<char>)
    requires |s| > 0 ==> s[0] !in chars
    ensures LStripChars(s, chars) == s
  {
    var r := LStripChars(s, chars);
    assert |r| == |s|;
    assert s[|s| - |r|..] == s[0..] == s;
  }

  /** `s.strip()`. */
  function Strip(s: string): string {
    StripBy(s, IsSpace)
  }

  /** `s.split()[-1]`: the last maximal run of non-whitespace characters, or
      None when `s.split()` is empty (Python raises IndexError then). */
  function LastWord(s: string): (r: Option<string>)
    ensures r.None? <==> forall k :: 0 <= k < |s| ==> IsSpace(s[k])
    ensures r.Some? ==> |r.value| > 0 && forall k :: 0 <= k < |r.value| ==> !IsSpace(r.value[k])
    ensures r.Some? ==> exists i :: LastWordAt(s, i, r.value)
  {
    var t := s[..|s| - TrailingCount(s, IsSpace)];
    if t == [] then None
    else
      var n := TrailingCount(t, c => !IsSpace(c));
      var i := |t| - n;
      assert LastWordAt(s, i, t[i..]);
      Some(t[i..])
  }

  /** `w` starts at index `i` of `s`, is preceded by whitespace or the start
      of `s`, and only whitespace follows it. */
  predicate LastWordAt(s: string, i: int, w: string) {
    0 <= i && i + |w| <= |s| && s[i..i + |w|] == w
    && (i == 0 || IsSpace(s[i - 1]))
    && forall k :: i + |w| <= k < |s| ==> IsSpace(s[k])
  }

  /** `s.rfind([c])`: the last index holding `c`, or -1. */
  function LastIndexOf(s: string, c: char): (r: int)
    ensures -1 <= r < |s|
    ensures r >= 0 ==> s[r] == c
    ensures forall k :: r < k < |s| ==> s[k] != c
  {
    if s == [] then -1
    else if s[|s| - 1] == c then |s| - 1
    else LastIndexOf(s[..|s| - 1], c)
  }
}
