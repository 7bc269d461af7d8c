/**
 * The parts of java.lang.String and java.io.File that the configurator relies on,
 * written out with their Java meaning.
 */
module Strings {

  /** `s.startsWith(prefix)` */
  predicate StartsWith(s: string, prefix: string)
  {
    |prefix| <= |s| && s[..|prefix|] == prefix
  }

  /** `s.endsWith(suffix)` */
  predicate EndsWith(s: string, suffix: string)
  {
    |suffix| <= |s| && s[|s| - |suffix|..] == suffix
  }

  /** `s.contains(t)`, equivalently `s.indexOf(t) != -1`; the empty string occurs everywhere. */
  predicate Contains(s: string, t: string)
    decreases |s|
  {
    StartsWith(s, t) || (|s| > 0 && Contains(s[1..], t))
  }

  /** `Character.toLowerCase` restricted to ASCII letters. */
  function LowerChar(c: char): char
  {
    if 'A' <= c <= 'Z' then (c as int + 32) as char else c
  }

  /** `s.toLowerCase()` (ASCII letters only). */
  function Lower(s: string): (r: string)
    ensures |r| == |s|
  {
    seq(|s|, i requires 0 <= i < |s| => LowerChar(s[i]))
  }

  lemma LowerIdempotent(s: string)
    ensures Lower(Lower(s)) == Lower(s)
  {
  }

  /** What String.trim() strips: every character up to and including U+0020. */
  predicate IsTrimmed(c: char)
  {
    c <= ' '
  }

  function TrimStart(s: string): string
    decreases |s|
  {
    if |s| > 0 && IsTrimmed(s[0]) then TrimStart(s[1..]) else s
  }

  function TrimEnd(s: string): string
    decreases |s|
  {
    if |s| > 0 && IsTrimmed(s[|s| - 1]) then TrimEnd(s[..|s| - 1]) else s
  }

  /** `s.trim()` */
  function Trim(s: string): string
  {
    TrimEnd(TrimStart(s))
  }

  /** `s.indexOf(c)`: the first position of `c`, or -1. */
  function IndexOfChar(s: string, c: char): (k: int)
    ensures -1 <= k < |s|
    ensures k >= 0 ==> s[k] == c && c !in s[..k]
    ensures k == -1 <==> c !in s
    decreases |s|
  {
    if s == [] then -1
    else if s[0] == c then 0
    else
      var k := IndexOfChar(s[1..], c);
      assert s[1..][..if k < 0 then 0 else k] == s[1..if k < 0 then 1 else k + 1];
      if k == -1 then -1 else k + 1
  }

  /** The separators java.io.File recognises: '/' everywhere, '\' as well on Windows. */
  predicate IsSeparator(c: char, isWindows: bool)
  {
    c == '/' || (isWindows && c == '\\')
  }

  function StripTrailingSeparators(p: string, isWindows: bool): string
    decreases |p|
  {
    if |p| > 0 && IsSeparator(p[|p| - 1], isWindows) then StripTrailingSeparators(p[..|p| - 1], isWindows) else p
  }

  /** The longest separator-free suffix of `p`. */
  function LastComponent(p: string, isWindows: bool): (name: string)
    ensures |name| <= |p| && name == p[|p| - |name|..]
    ensures forall i :: 0 <= i < |name| ==> !IsSeparator(name[i], isWindows)
    ensures |name| < |p| ==> IsSeparator(p[|p| - |name| - 1], isWindows)
    decreases |p|
  {
    if p == [] || IsSeparator(p[|p| - 1], isWindows) then []
    else
      var init := p[..|p| - 1];
      var c := LastComponent(init, isWindows);
      c + [p[|p| - 1]]
  }

  /** `new File(p).getName()`: the last name of the normalised path. */
  function FileName(p: string, isWindows: bool): (name: string)
  {
    LastComponent(StripTrailingSeparators(p, isWindows), isWindows)
  }
}
