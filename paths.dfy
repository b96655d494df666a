/** `System.IO.Path.Combine` for two Windows path segments. */
module Paths {

  const DirectorySeparator: char := '\\'
  const AltDirectorySeparator: char := '/'
  const VolumeSeparator: char := ':'

  predicate IsSeparator(c: char)
  {
    c == DirectorySeparator || c == AltDirectorySeparator
  }

  /** `Path.IsPathRooted`: starts with a separator or has a drive letter. */
  predicate IsRooted(p: string)
  {
    (|p| >= 1 && IsSeparator(p[0])) || (|p| >= 2 && p[1] == VolumeSeparator)
  }

  /** `Path.Combine(a, b)`: an empty side yields the other side, a rooted b replaces a,
      and a separator is inserted unless a already ends with one or with a drive colon. */
  function Combine(a: string, b: string): (r: string)
  {
    if |b| == 0 then a
    else if |a| == 0 then b
    else if IsRooted(b) then b
    else if IsSeparator(a[|a| - 1]) || a[|a| - 1] == VolumeSeparator then a + b
    else a + [DirectorySeparator] + b
  }

  /** A path segment that `Combine` joins with exactly one separator on either side. */
  predicate PlainSegment(s: string)
  {
    |s| > 0 && !IsRooted(s) && !IsSeparator(s[|s| - 1]) && s[|s| - 1] != VolumeSeparator
  }

  /** A directory without a trailing separator and a relative name are joined by one separator. */
  lemma CombinePlain(a: string, b: string)
    requires |a| > 0 && !IsSeparator(a[|a| - 1]) && a[|a| - 1] != VolumeSeparator
    requires |b| > 0 && !IsRooted(b)
    ensures Combine(a, b) == a + [DirectorySeparator] + b
    ensures b[|b| - 1] == Combine(a, b)[|Combine(a, b)| - 1]
  {
  }

  /** Whether a path is rooted depends only on its first two characters. */
  lemma RootedByPrefix(p: string, s: string)
    requires |p| >= 2 && p <= s
    ensures IsRooted(s) == IsRooted(p)
  {
    assert s[0] == p[0] && s[1] == p[1];
  }

  /** Within one directory, `Combine` tells apart any two names that are both relative
      or both rooted, whatever the directory is. */
  lemma CombineInjective(a: string, b1: string, b2: string)
    requires |b1| > 0 && |b2| > 0 && IsRooted(b1) == IsRooted(b2)
    requires Combine(a, b1) == Combine(a, b2)
    ensures b1 == b2
  {
    if |a| > 0 && !IsRooted(b1) {
      var p := if IsSeparator(a[|a| - 1]) || a[|a| - 1] == VolumeSeparator then a else a + [DirectorySeparator];
      assert Combine(a, b1) == p + b1 && Combine(a, b2) == p + b2;
      assert (p + b1)[|p|..] == b1 && (p + b2)[|p|..] == b2;
    }
  }

  /** Combining never loses the second segment. */
  lemma CombineEndsWith(a: string, b: string)
    ensures |b| <= |Combine(a, b)|
    ensures Combine(a, b)[|Combine(a, b)| - |b|..] == b
  {
  }
}
