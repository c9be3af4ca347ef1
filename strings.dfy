/** String helpers standing in for the Python `str` methods the script calls:
    `lower()`, `in` (substring), `startswith`, `endswith`, `strip()` and the
    `\d` regex class. */
module Strings {

  predicate IsDigit(c: char) {
    '0' <= c <= '9'
  }

  /** Python's `str.isspace()`: the characters `str.strip()` removes. */
  predicate IsSpace(c: char) {
    || '\t' <= c <= '\r'
    || '\U{1C}' <= c <= '\U{1F}'
    || c == ' '
    || c == '\U{85}'
    || c == '\U{A0}'
    || c == '\U{1680}'
    || '\U{2000}' <= c <= '\U{200A}'
    || c == '\U{2028}'
    || c == '\U{2029}'
    || c == '\U{202F}'
    || c == '\U{205F}'
    || c == '\U{3000}'
  }

  predicate AllSpace(s: string) {
    forall i :: 0 <= i < |s| ==> IsSpace(s[i])
  }

  function LowerChar(c: char): char {
    if 'A' <= c <= 'Z' then (c as int + 32) as char else c
  }

  /** `str.lower()` on the ASCII letters. */
  function Lower(s: string): (r: string)
    ensures |r| == |s|
    ensures forall i :: 0 <= i < |s| ==> r[i] == LowerChar(s[i])
  {
    if s == [] then [] else [LowerChar(s[0])] + Lower(s[1..])
  }

  predicate StartsWith(s: string, p: string) {
    |p| <= |s| && s[..|p|] == p
  }

  predicate EndsWith(s: string, p: string) {
    |p| <= |s| && s[|s| - |p|..] == p
  }

  /** A suffix of a suffix is a suffix. */
  lemma EndsWithTrans(s: string, m: string, p: string)
    requires EndsWith(s, m) && EndsWith(m, p)
    ensures EndsWith(s, p)
  {
    assert s[|s| - |p|..] == s[|s| - |m|..][|m| - |p|..];
  }

  predicate OccursAt(s: string, p: string, i: int) {
    0 <= i <= |s| - |p| && s[i..i + |p|] == p
  }

  /** Python's `p in s` for two strings. */
  function Contains(s: string, p: string): (b: bool)
    ensures b <==> exists i :: OccursAt(s, p, i)
    decreases |s|
  {
    if |s| < |p| then
      assert forall i :: !OccursAt(s, p, i);
      false
    else if s[..|p|] == p then
      assert OccursAt(s, p, 0);
      true
    else
      var rest := Contains(s[1..], p);
      forall i ensures OccursAt(s[1..], p, i) <==> OccursAt(s, p, i + 1) {
        if 0 <= i <= |s| - 1 - |p| {
          assert s[1..][i..i + |p|] == s[i + 1..i + 1 + |p|];
        }
      }
      assert forall i :: OccursAt(s, p, i) ==> i >= 1 && OccursAt(s[1..], p, i - 1);
      rest
  }

  /** Number of leading characters `str.lstrip()` removes. */
  function LeadingSpace(s: string): (k: nat)
    ensures k <= |s| && AllSpace(s[..k])
    ensures k == |s| || !IsSpace(s[k])
  {
    if s == [] || !IsSpace(s[0]) then 0
    else
      var k := 1 + LeadingSpace(s[1..]);
      assert s[..k] == [s[0]] + s[1..][..k - 1];
      k
  }

  /** Number of trailing characters `str.rstrip()` removes. */
  function TrailingSpace(s: string): (k: nat)
    ensures k <= |s| && AllSpace(s[|s| - k..])
    ensures k == |s| || !IsSpace(s[|s| - k - 1])
  {
    if s == [] || !IsSpace(s[|s| - 1]) then 0
    else
      var init := s[..|s| - 1];
      var k := 1 + TrailingSpace(init);
      assert s[|s| - k..] == init[|init| - (k - 1)..] + [s[|s| - 1]];
      k
  }

  /** `r` is `s` with white space removed at both ends, and neither starts
      nor ends with white space: what `str.strip()` promises. */
  predicate IsStripped(r: string, s: string) {
    && (exists i, j :: 0 <= i <= j <= |s| && r == s[i..j] && AllSpace(s[..i]) && AllSpace(s[j..]))
    && (r == [] || (!IsSpace(r[0]) && !IsSpace(r[|r| - 1])))
  }

  /** `str.strip()`. */
  function Strip(s: string): string {
    var i := LeadingSpace(s);
    s[i..|s| - TrailingSpace(s[i..])]
  }

  /** What `str.strip()` promises: its result is the input less white space
      at both ends, and it neither starts nor ends with white space. */
  lemma StripSpec(s: string)
    ensures IsStripped(Strip(s), s)
  {
    var i := LeadingSpace(s);
    var t := s[i..];
    var k := TrailingSpace(t);
    var j := |s| - k;
    assert t == [] || t[0] == s[i];
    StripCut(s, i, j);
    StripEnds(t, k);
    var r := Strip(s);
    assert r == s[i..j] && r == t[..|t| - k];
    assert 0 <= i <= j <= |s| && r == s[i..j] && AllSpace(s[..i]) && AllSpace(s[j..]);
    assert r == [] || (!IsSpace(r[0]) && !IsSpace(r[|r| - 1]));
  }

  lemma StripCut(s: string, i: nat, j: int)
    requires i == LeadingSpace(s) && j == |s| - TrailingSpace(s[i..])
    ensures 0 <= i <= j <= |s| && AllSpace(s[..i]) && AllSpace(s[j..])
  {
    var k := TrailingSpace(s[i..]);
    SliceOfSlice(s, i, k);
  }

  lemma ConcatAssoc<T>(x: seq<T>, y: seq<T>, z: seq<T>)
    ensures x + (y + z) == (x + y) + z
  {
  }

  lemma EmptyConcat<T>(x: seq<T>)
    ensures [] + x == x
  {
  }

  lemma SliceOfSlice<T>(s: seq<T>, i: nat, k: nat)
    requires i <= |s| && k <= |s| - i
    ensures s[i..][|s| - i - k..] == s[|s| - k..]
  {
  }

  lemma StripEnds(t: string, k: nat)
    requires k == TrailingSpace(t) && (t == [] || !IsSpace(t[0]))
    ensures var r := t[..|t| - k]; r == [] || (!IsSpace(r[0]) && !IsSpace(r[|r| - 1]))
  {
    var r := t[..|t| - k];
    assert r != [] ==> r[0] == t[0] && r[|r| - 1] == t[|t| - k - 1];
  }

  /** `r` can be obtained from `s` by deleting characters. */
  predicate IsSubsequence(r: string, s: string)
    decreases |s|
  {
    || r == []
    || (s != [] && ((r[0] == s[0] && IsSubsequence(r[1..], s[1..])) || IsSubsequence(r, s[1..])))
  }

  lemma {:induction false} SubsequenceSkip(r: string, p: string, t: string)
    requires IsSubsequence(r, t)
    ensures IsSubsequence(r, p + t)
    decreases |p|
  {
    if p == [] {
      assert p + t == t;
    } else {
      SubsequenceSkip(r, p[1..], t);
      assert (p + t)[1..] == p[1..] + t;
      assert r == [] || IsSubsequence(r, (p + t)[1..]);
    }
  }

  lemma SubsequenceKeep(c: char, r: string, t: string)
    requires IsSubsequence(r, t)
    ensures IsSubsequence([c] + r, [c] + t)
  {
    assert ([c] + r)[1..] == r;
    assert ([c] + t)[1..] == t;
  }
}
