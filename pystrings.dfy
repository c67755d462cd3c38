/**
 * The two Python `str` methods the graph's handling of command text relies on:
 * `replace` (every non-overlapping occurrence, scanning left to right) and
 * `strip` with no argument (leading and trailing whitespace as `str.isspace`
 * defines it).
 */
module PyStrings {

  /** `c.isspace()` in Python: the characters `str.strip()` removes. */
  predicate IsSpace(c: char) {
    || ('\t' <= c <= '\r')
    || ('\U{1C}' <= c <= ' ')
    || c == '\U{85}' || c == '\U{A0}' || c == '\U{1680}'
    || ('\U{2000}' <= c <= '\U{200A}')
    || c == '\U{2028}' || c == '\U{2029}' || c == '\U{202F}' || c == '\U{205F}' || c == '\U{3000}'
  }

  /** `p` occurs in `s` starting at index `i`. */
  predicate OccursAt(s: string, p: string, i: int) {
    0 <= i && i + |p| <= |s| && s[i..i + |p|] == p
  }

  /** `p in s` in Python. */
  predicate Contains(s: string, p: string) {
    exists i :: 0 <= i <= |s| && OccursAt(s, p, i)
  }

  /** `s.replace(pat, rep)` for a non-empty `pat`. */
  function ReplaceAll(s: string, pat: string, rep: string): (r: string)
    requires pat != []
    ensures rep == pat ==> r == s
    ensures |rep| <= |pat| ==> |r| <= |s|
    decreases |s|
  {
    if |s| < |pat| then s
    else if s[..|pat|] == pat then rep + ReplaceAll(s[|pat|..], pat, rep)
    else [s[0]] + ReplaceAll(s[1..], pat, rep)
  }

  /** `s.lstrip()`: exactly the leading whitespace is removed. */
  function LStrip(s: string): (r: string)
    ensures |r| <= |s| && r == s[|s| - |r|..]
    ensures r != [] ==> !IsSpace(r[0])
    decreases |s|
  {
    if s != [] && IsSpace(s[0]) then LStrip(s[1..]) else s
  }

  /** `lstrip` removes whitespace only. */
  lemma {:induction false} LStripRemovesSpace(s: string)
    ensures forall i :: 0 <= i < |s| - |LStrip(s)| ==> IsSpace(s[i])
    decreases |s|
  {
    if s != [] && IsSpace(s[0]) {
      LStripRemovesSpace(s[1..]);
      assert forall i :: 1 <= i < |s| - |LStrip(s)| ==> s[i] == s[1..][i - 1];
    }
  }

  /** `s.rstrip()`: exactly the trailing whitespace is removed. */
  function RStrip(s: string): (r: string)
    ensures |r| <= |s| && r == s[..|r|]
    ensures r != [] ==> !IsSpace(r[|r| - 1])
    decreases |s|
  {
    if s != [] && IsSpace(s[|s| - 1]) then RStrip(s[..|s| - 1]) else s
  }

  /** `rstrip` removes whitespace only. */
  lemma {:induction false} RStripRemovesSpace(s: string)
    ensures forall i :: |RStrip(s)| <= i < |s| ==> IsSpace(s[i])
    decreases |s|
  {
    if s != [] && IsSpace(s[|s| - 1]) {
      RStripRemovesSpace(s[..|s| - 1]);
    }
  }

  /** Neither end of `s` is whitespace. */
  predicate IsStripped(s: string) {
    s == [] || (!IsSpace(s[0]) && !IsSpace(s[|s| - 1]))
  }

  /** `s.strip()`: `lstrip` and then `rstrip`. */
  function Strip(s: string): (r: string)
    ensures |r| <= |s|
  {
    RStrip(LStrip(s))
  }

  /** What `strip` leaves has no whitespace at either end. */
  lemma StripIsStripped(s: string)
    ensures IsStripped(Strip(s))
  {
    var left := LStrip(s);
    var right := RStrip(left);
    if right != [] {
      assert right == left[..|right|];
      assert right[0] == left[0];
    }
  }

  /** What `strip` leaves is the contiguous piece of `s` after its leading whitespace. */
  lemma StripIsSlice(s: string)
    ensures var k := |s| - |LStrip(s)|; k + |Strip(s)| <= |s| && Strip(s) == s[k..k + |Strip(s)|]
  {
    var left := LStrip(s);
    var k := |s| - |left|;
    assert left == s[k..];
    var right := RStrip(left);
    assert right == left[..|right|];
  }

  /** Replacing a pattern that does not occur changes nothing. */
  lemma {:induction false} ReplaceAbsent(s: string, pat: string, rep: string)
    requires pat != [] && !Contains(s, pat)
    ensures ReplaceAll(s, pat, rep) == s
    decreases |s|
  {
    if |s| >= |pat| {
      assert !OccursAt(s, pat, 0);
      forall i | OccursAt(s[1..], pat, i) ensures false {
        assert s[1..][i..i + |pat|] == s[i + 1..i + 1 + |pat|];
        assert OccursAt(s, pat, i + 1);
      }
      ReplaceAbsent(s[1..], pat, rep);
    }
  }

  /** A piece of a string that lacks `p` lacks `p` too. */
  lemma SliceKeepsAbsence(s: string, p: string, a: int, b: int)
    requires 0 <= a <= b <= |s| && !Contains(s, p)
    ensures !Contains(s[a..b], p)
  {
    forall i | OccursAt(s[a..b], p, i) ensures false {
      assert i + |p| <= b - a;
      forall k | 0 <= k < |p| ensures s[a + i..a + i + |p|][k] == p[k] {
        assert p[k] == s[a..b][i + k];
      }
      assert s[a + i..a + i + |p|] == p;
      assert OccursAt(s, p, a + i);
    }
  }

  /** Stripping a string that lacks `p` gives a string that lacks `p`. */
  lemma StripKeepsAbsence(s: string, p: string)
    requires !Contains(s, p)
    ensures !Contains(Strip(s), p)
  {
    var k := |s| - |LStrip(s)|;
    StripIsSlice(s);
    SliceKeepsAbsence(s, p, k, k + |Strip(s)|);
  }

  /** Whoever contains `p + q` contains `p`. */
  lemma ContainsPrefixOf(s: string, p: string, q: string)
    requires Contains(s, p + q)
    ensures Contains(s, p)
  {
    var i :| 0 <= i <= |s| && OccursAt(s, p + q, i);
    assert i + |p + q| <= |s| && s[i..i + |p + q|] == p + q;
    assert s[i..i + |p|] == (p + q)[..|p|];
    assert OccursAt(s, p, i);
  }

  /** `a + p + b` contains `p`. */
  lemma ContainsMiddle(a: string, p: string, b: string)
    ensures Contains(a + p + b, p)
  {
    assert (a + p + b)[|a|..|a| + |p|] == p;
    assert OccursAt(a + p + b, p, |a|);
  }

  /** A string with no whitespace at either end is its own strip. */
  lemma StripStripped(s: string)
    requires IsStripped(s)
    ensures Strip(s) == s
  {
  }

  /**
   * Replacing the only occurrence of `p` in `a + p + b`: when no occurrence of
   * `p` starts inside `a` (none in `a` followed by all of `p` but its last
   * character) and `b` does not contain `p`, the result is `a + rep + b`,
   * everything around the placeholder kept as it was.
   */
  lemma {:induction false} ReplaceSingle(a: string, p: string, b: string, rep: string)
    requires p != [] && !Contains(a + p[..|p| - 1], p) && !Contains(b, p)
    ensures ReplaceAll(a + p + b, p, rep) == a + rep + b
    decreases |a|
  {
    var s := a + p + b;
    if a == [] {
      assert s[..|p|] == p && s[|p|..] == b;
      ReplaceAbsent(b, p, rep);
    } else {
      var head := a + p[..|p| - 1];
      assert s[..|p|] == head[..|p|];
      assert !OccursAt(head, p, 0);
      assert s[1..] == a[1..] + p + b;
      assert head[1..|head|] == a[1..] + p[..|p| - 1];
      SliceKeepsAbsence(head, p, 1, |head|);
      ReplaceSingle(a[1..], p, b, rep);
      assert [a[0]] + (a[1..] + rep + b) == a + rep + b;
    }
  }
}
