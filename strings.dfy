/** The two library routines of Go's `strings` package that the command
    handlers apply to their argument tokens: `strings.Join` and
    `strings.TrimSpace` (with `unicode.IsSpace` deciding what a space is).
    Go strings are UTF-8 byte strings; here a string is the sequence of its
    code points, which is what `TrimSpace` decodes valid UTF-8 into. */
module Strings {

  /** The code points `unicode.IsSpace` accepts: the Latin-1 spaces '\t',
      '\n', '\v', '\f', '\r', ' ', U+0085 and U+00A0, and beyond Latin-1
      the rest of Unicode's White_Space property. */
  const Spaces: set<char> := {
    '\t', '\n', '\U{0B}', '\U{0C}', '\r', ' ', '\U{85}', '\U{A0}',
    '\U{1680}', '\U{2000}', '\U{2001}', '\U{2002}', '\U{2003}', '\U{2004}', '\U{2005}',
    '\U{2006}', '\U{2007}', '\U{2008}', '\U{2009}', '\U{200A}', '\U{2028}', '\U{2029}',
    '\U{202F}', '\U{205F}', '\U{3000}'
  }

  /** `unicode.IsSpace`: in Latin-1 a fixed list of eight characters,
      beyond it the ranges of Unicode's White_Space table. */
  predicate IsSpace(ch: char): (b: bool)
    ensures ch <= '\U{FF}' ==>
      (b <==> ch == '\t' || ch == '\n' || ch == '\U{0B}' || ch == '\U{0C}' || ch == '\r'
              || ch == ' ' || ch == '\U{85}' || ch == '\U{A0}')
    ensures '\U{FF}' < ch ==>
      (b <==> ch == '\U{1680}' || '\U{2000}' <= ch <= '\U{200A}' || ch == '\U{2028}' || ch == '\U{2029}'
              || ch == '\U{202F}' || ch == '\U{205F}' || ch == '\U{3000}')
  {
    ch in Spaces
  }

  predicate AllSpace(s: string) {
    forall i | 0 <= i < |s| :: IsSpace(s[i])
  }

  lemma AllSpaceConcat(a: string, b: string)
    ensures AllSpace(a + b) <==> AllSpace(a) && AllSpace(b)
  {
    if AllSpace(a + b) {
      forall i | 0 <= i < |a| ensures IsSpace(a[i]) {
        assert a[i] == (a + b)[i];
      }
      forall i | 0 <= i < |b| ensures IsSpace(b[i]) {
        assert b[i] == (a + b)[|a| + i];
      }
    }
    if AllSpace(a) && AllSpace(b) {
      forall i | 0 <= i < |a + b| ensures IsSpace((a + b)[i]) {
        if i >= |a| { assert (a + b)[i] == b[i - |a|]; }
      }
    }
  }

  /** `strings.Join(elems, sep)`: the elements in order with `sep` between
      each neighbouring pair; no elements give the empty string. */
  function Join(parts: seq<string>, sep: string): (r: string)
    ensures |parts| == 0 ==> r == ""
    ensures |parts| > 0 ==> |r| == TotalLength(parts) + (|parts| - 1) * |sep|
    ensures |parts| > 0 ==> parts[0] <= r
  {
    if |parts| == 0 then ""
    else if |parts| == 1 then parts[0]
    else parts[0] + sep + Join(parts[1..], sep)
  }

  /** The sum of the lengths of `parts`. */
  function TotalLength(parts: seq<string>): nat {
    if |parts| == 0 then 0 else |parts[0]| + TotalLength(parts[1..])
  }

  /** `a` occurs in `s` as a contiguous run of characters starting at `k`. */
  predicate OccursAt(a: string, s: string, k: int) {
    0 <= k <= |s| - |a| && s[k..k + |a|] == a
  }

  /** Every element of a joined list stands verbatim in the joined text. */
  lemma {:induction false} JoinContains(parts: seq<string>, sep: string, i: nat)
    requires i < |parts|
    ensures exists k :: OccursAt(parts[i], Join(parts, sep), k)
  {
    var s := Join(parts, sep);
    if |parts| == 1 {
      assert OccursAt(parts[0], s, 0);
    } else if i == 0 {
      assert s == parts[0] + (sep + Join(parts[1..], sep));
      assert OccursAt(parts[0], s, 0);
    } else {
      var rest := Join(parts[1..], sep);
      JoinContains(parts[1..], sep, i - 1);
      var k :| OccursAt(parts[1..][i - 1], rest, k);
      var pre := parts[0] + sep;
      assert s == pre + rest;
      assert s[|pre| + k..|pre| + k + |parts[i]|] == rest[k..k + |parts[i]|];
      assert OccursAt(parts[i], s, |pre| + k);
    }
  }

  /** Joining with a separator made of spaces gives text made only of spaces
      exactly when every element is made only of spaces. */
  lemma {:induction false} AllSpaceJoin(parts: seq<string>, sep: string)
    requires AllSpace(sep)
    ensures AllSpace(Join(parts, sep)) <==> forall i | 0 <= i < |parts| :: AllSpace(parts[i])
  {
    if |parts| > 1 {
      AllSpaceJoin(parts[1..], sep);
      AllSpaceConcat(parts[0], sep);
      AllSpaceConcat(parts[0] + sep, Join(parts[1..], sep));
      if forall i | 0 <= i < |parts[1..]| :: AllSpace(parts[1..][i]) {
        assert forall i | 1 <= i < |parts| :: AllSpace(parts[i]) by {
          forall i | 1 <= i < |parts| ensures AllSpace(parts[i]) {
            assert parts[i] == parts[1..][i - 1];
          }
        }
      }
    }
  }

  /** Every character of `s` from index `lo` up to (not including) `hi` is
      a space. */
  predicate SpacesBetween(s: string, lo: int, hi: int) {
    forall k | lo <= k < hi && 0 <= k < |s| :: IsSpace(s[k])
  }

  /** The index of the first character at or after `k` that is not a space
      (`|s|` if there is none). */
  function SkipSpaces(s: string, k: nat): (j: nat)
    requires k <= |s|
    ensures k <= j <= |s| && SpacesBetween(s, k, j)
    ensures j < |s| ==> !IsSpace(s[j])
    decreases |s| - k
  {
    if k < |s| && IsSpace(s[k]) then SkipSpaces(s, k + 1) else k
  }

  /** The index just past the last character before `k` that is not a space
      (`0` if there is none). */
  function SkipSpacesBack(s: string, k: nat): (j: nat)
    requires k <= |s|
    ensures j <= k && SpacesBetween(s, j, k)
    ensures 0 < j ==> !IsSpace(s[j - 1])
  {
    if 0 < k && IsSpace(s[k - 1]) then SkipSpacesBack(s, k - 1) else k
  }

  /** `r` is `s` less a run of spaces at the start (before index `i`) and a
      run of spaces at the end, and neither starts nor ends with a space. */
  predicate TrimmedAt(s: string, i: int, r: string) {
    0 <= i && i + |r| <= |s| && s[i..i + |r|] == r
    && SpacesBetween(s, 0, i) && SpacesBetween(s, i + |r|, |s|)
    && (r != "" ==> !IsSpace(r[0]) && !IsSpace(r[|r| - 1]))
  }

  /** `strings.TrimSpace`: `s` with all leading and trailing spaces removed. */
  function TrimSpace(s: string): (r: string)
    ensures exists i :: TrimmedAt(s, i, r)
  {
    var lo := SkipSpaces(s, 0);
    var hi := SkipSpacesBack(s, |s|);
    if hi <= lo then
      assert TrimmedAt(s, lo, "");
      ""
    else
      var r := s[lo..hi];
      assert r[0] == s[lo] && r[|r| - 1] == s[hi - 1];
      assert TrimmedAt(s, lo, r);
      r
  }

  /** Trimming leaves nothing exactly when the text is made only of spaces. */
  lemma TrimSpaceEmpty(s: string)
    ensures TrimSpace(s) == "" <==> AllSpace(s)
  {
    var r := TrimSpace(s);
    var i :| TrimmedAt(s, i, r);
    if r != "" {
      assert s[i] == r[0];
    }
  }

  /** Whatever `s` less spaces at both ends neither starts nor ends with a
      space is the trimmed text: TrimSpace's contract leaves no choice. */
  lemma TrimSpaceUnique(s: string, r: string, i: int)
    requires TrimmedAt(s, i, r)
    ensures r == TrimSpace(s)
  {
    var t := TrimSpace(s);
    var j :| TrimmedAt(s, j, t);
    if r != "" && t != "" {
      assert s[i] == r[0] && s[j] == t[0];
      assert s[i + |r| - 1] == r[|r| - 1] && s[j + |t| - 1] == t[|t| - 1];
      assert i == j;
      assert |r| == |t|;
    }
  }
}
