/**
 * The Python `str` operations the core relies on: `strip()`, `in`, `split(sep)`
 * and the code-point ordering `<` that `sorted` uses.
 */
module Text {
  import opened Outcomes

  /** `c.isspace()` for the characters Python counts as whitespace. */
  predicate IsSpace(c: char) {
    || c == ' '
    || ('\t' <= c <= '\r')
    || ('\U{1c}' <= c <= '\U{1f}')
    || c == '\U{85}' || c == '\U{a0}' || c == '\U{1680}'
    || ('\U{2000}' <= c <= '\U{200a}')
    || c == '\U{2028}' || c == '\U{2029}' || c == '\U{202f}' || c == '\U{205f}' || c == '\U{3000}'
  }

  predicate AllSpace(s: string) {
    forall i :: 0 <= i < |s| ==> IsSpace(s[i])
  }

  /** `s.lstrip()` */
  function TrimLeft(s: string): (r: string)
    ensures |r| <= |s| && r == s[|s| - |r|..]
    ensures AllSpace(s[..|s| - |r|])
    ensures r != [] ==> !IsSpace(r[0])
  {
    if |s| > 0 && IsSpace(s[0]) then
      var t := TrimLeft(s[1..]);
      assert s[|s| - |t|..] == s[1..][|s| - 1 - |t|..];
      forall i | 0 <= i < |s| - |t| ensures IsSpace(s[i]) {
        if i > 0 {
          assert s[i] == s[1..][..|s| - 1 - |t|][i - 1];
        }
      }
      t
    else s
  }

  /** `s.rstrip()` */
  function TrimRight(s: string): (r: string)
    ensures |r| <= |s| && r == s[..|r|]
    ensures AllSpace(s[|r|..])
    ensures r != [] ==> !IsSpace(r[|r| - 1])
  {
    if |s| > 0 && IsSpace(s[|s| - 1]) then
      var t := TrimRight(s[..|s| - 1]);
      assert s[..|t|] == s[..|s| - 1][..|t|];
      forall i | |t| <= i < |s| ensures IsSpace(s[i]) {
        if i < |s| - 1 {
          assert s[i] == s[..|s| - 1][|t|..][i - |t|];
        }
      }
      t
    else s
  }

  /** A string that `strip()` leaves unchanged. */
  predicate IsStripped(s: string) {
    s == [] || (!IsSpace(s[0]) && !IsSpace(s[|s| - 1]))
  }

  /**
   * `s.strip()`: `s` with its leading and trailing whitespace removed, and
   * nothing else; it is empty exactly when `s` is all whitespace, which is
   * when Python treats `s.strip()` as false.
   */
  function Strip(s: string): (r: string)
    ensures IsStripped(r)
    ensures |r| <= |s|
    ensures r == [] <==> AllSpace(s)
  {
    var l := TrimLeft(s);
    var r := TrimRight(l);
    assert r == [] ==> AllSpace(s) by {
      if r == [] {
        assert l[|r|..] == l;
        assert l == [];
        assert s[..|s| - |l|] == s;
      }
    }
    r
  }

  /** `strip()` removes leading and trailing whitespace and nothing else. */
  lemma StripRemovesOnlyEnds(s: string)
    ensures exists a, b :: 0 <= a <= b <= |s| && Strip(s) == s[a..b] && AllSpace(s[..a]) && AllSpace(s[b..])
  {
    var l := TrimLeft(s);
    var r := TrimRight(l);
    var a := |s| - |l|;
    var b := a + |r|;
    assert l == s[a..];
    assert r == l[..|r|];
    assert s[b..] == l[|r|..];
    assert Strip(s) == s[a..b];
  }

  /** `strip()` leaves a stripped string alone. */
  lemma StripStripped(s: string)
    requires IsStripped(s)
    ensures Strip(s) == s
  {
  }

  /** `pat` occurs in `s` starting at index `i`. */
  predicate OccursAt(s: string, pat: string, i: int) {
    0 <= i && i + |pat| <= |s| && s[i..i + |pat|] == pat
  }

  /** `s.find(pat, from)`, with `None` for Python's -1. */
  function FindFrom(s: string, pat: string, from: nat): (r: Option<nat>)
    requires from <= |s|
    decreases |s| - from
    ensures r.Some? ==> from <= r.value && OccursAt(s, pat, r.value)
    ensures r.Some? ==> forall j :: from <= j < r.value ==> !OccursAt(s, pat, j)
    ensures r.None? ==> forall j :: from <= j ==> !OccursAt(s, pat, j)
  {
    if from + |pat| > |s| then None
    else if s[from..from + |pat|] == pat then Some(from)
    else FindFrom(s, pat, from + 1)
  }

  /** The first occurrence of `pat` in `s`. */
  function Find(s: string, pat: string): (r: Option<nat>)
    ensures r.Some? ==> OccursAt(s, pat, r.value) && forall j :: 0 <= j < r.value ==> !OccursAt(s, pat, j)
    ensures r.None? ==> forall j :: !OccursAt(s, pat, j)
  {
    FindFrom(s, pat, 0)
  }

  /** Python's `pat in s`. */
  predicate Contains(s: string, pat: string) {
    Find(s, pat).Some?
  }

  /** `s.split(pat)[0]`: everything before the first `pat`, or all of `s`. */
  function BeforeFirst(s: string, pat: string): (r: string)
    ensures |r| <= |s| && r == s[..|r|]
    ensures !Contains(r, pat) || pat == []
  {
    match Find(s, pat)
    case Some(i) =>
      assert forall j :: OccursAt(s[..i], pat, j) ==> OccursAt(s, pat, j) && j + |pat| <= i by {
        forall j | OccursAt(s[..i], pat, j) ensures OccursAt(s, pat, j) && j + |pat| <= i {
          assert s[..i][j..j + |pat|] == s[j..j + |pat|];
        }
      }
      s[..i]
    case None => s
  }

  /** `s.split(pat)[1]` when `pat in s`: what lies between the first and the second `pat`. */
  function SplitSecond(s: string, pat: string): (r: string)
    requires Contains(s, pat)
    ensures !Contains(r, pat) || pat == []
  {
    var i := Find(s, pat).value;
    BeforeFirst(s[i + |pat|..], pat)
  }

  /** Python's `a < b` on strings: lexicographic by code point. */
  predicate StrLess(a: string, b: string) {
    if |a| == 0 then |b| > 0
    else if |b| == 0 then false
    else if a[0] != b[0] then a[0] < b[0]
    else StrLess(a[1..], b[1..])
  }

  lemma {:induction false} StrLessIrreflexive(a: string)
    ensures !StrLess(a, a)
  {
    if |a| > 0 {
      StrLessIrreflexive(a[1..]);
    }
  }

  lemma {:induction false} StrLessTransitive(a: string, b: string, c: string)
    requires StrLess(a, b) && StrLess(b, c)
    ensures StrLess(a, c)
  {
    if |a| > 0 && |b| > 0 && |c| > 0 && a[0] == b[0] && b[0] == c[0] {
      StrLessTransitive(a[1..], b[1..], c[1..]);
    }
  }

  lemma {:induction false} StrLessTotal(a: string, b: string)
    requires a != b
    ensures StrLess(a, b) || StrLess(b, a)
  {
    if |a| > 0 && |b| > 0 && a[0] == b[0] {
      assert a[1..] != b[1..];
      StrLessTotal(a[1..], b[1..]);
    }
  }

  lemma {:induction false} StrLessAsymmetric(a: string, b: string)
    requires StrLess(a, b)
    ensures !StrLess(b, a)
  {
    if |a| > 0 && |b| > 0 && a[0] == b[0] {
      StrLessAsymmetric(a[1..], b[1..]);
    }
  }
}
