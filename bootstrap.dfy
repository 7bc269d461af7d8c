/**
 * isAutomaticallyStartedBundle: whether a candidate path is one the
 * framework's own bootstrap list (`osgi.bundles`) already provisions, so that
 * a failure to install it is not reported.
 */
module Bootstrap {
  import opened Wrappers
  import opened Strings

  const OSGI_CORE := "org.eclipse.osgi"
  const OSGI_BUNDLES_PROPERTY := "osgi.bundles"
  const REFERENCE_FILE := "reference:file:"

  /** The length of the leading run of non-comma characters. */
  function TokenLength(s: string): (n: nat)
    ensures n <= |s|
    ensures forall i :: 0 <= i < n ==> s[i] != ','
    ensures n < |s| ==> s[n] == ','
    decreases |s|
  {
    if s == [] || s[0] == ',' then 0 else 1 + TokenLength(s[1..])
  }

  /** The tokens `new StringTokenizer(s, ",")` hands out: maximal non-empty comma-free runs. */
  function Tokens(s: string): seq<string>
    decreases |s|
  {
    if s == [] then []
    else if s[0] == ',' then Tokens(s[1..])
    else
      var n := TokenLength(s);
      [s[..n]] + Tokens(s[n..])
  }

  predicate IsToken(t: string)
  {
    t != [] && ',' !in t
  }

  lemma {:induction false} TokensAreTokens(s: string)
    ensures forall k :: 0 <= k < |Tokens(s)| ==> IsToken(Tokens(s)[k])
    decreases |s|
  {
    if s != [] {
      if s[0] == ',' {
        TokensAreTokens(s[1..]);
      } else {
        TokensAreTokens(s[TokenLength(s)..]);
      }
    }
  }

  /** Tokens joined with commas. */
  function Join(ts: seq<string>): string
  {
    if ts == [] then [] else if |ts| == 1 then ts[0] else ts[0] + "," + Join(ts[1..])
  }

  /** The tokenizer gives back exactly the tokens a comma-separated list was written from. */
  lemma {:induction false} TokensJoin(ts: seq<string>)
    requires forall k :: 0 <= k < |ts| ==> IsToken(ts[k])
    ensures Tokens(Join(ts)) == ts
  {
    if ts != [] {
      var t := ts[0];
      var s := Join(ts);
      var rest := if |ts| == 1 then [] else "," + Join(ts[1..]);
      assert s == t + rest;
      assert TokenLength(s) == |t| by {
        TokenLengthOf(t, rest);
      }
      assert s[..|t|] == t;
      if |ts| == 1 {
        assert s[|t|..] == [];
      } else {
        assert s[|t|..] == "," + Join(ts[1..]);
        assert ("," + Join(ts[1..]))[1..] == Join(ts[1..]);
        TokensJoin(ts[1..]);
      }
    }
  }

  lemma {:induction false} TokenLengthOf(t: string, rest: string)
    requires ',' !in t
    requires rest == [] || rest[0] == ','
    ensures TokenLength(t + rest) == |t|
    decreases |t|
  {
    if t != [] {
      assert (t + rest)[1..] == t[1..] + rest;
      TokenLengthOf(t[1..], rest);
    }
  }

  /** `token.substring(0, token.indexOf('@'))` when there is an '@'. */
  function CutAtSign(t: string): (r: string)
    ensures '@' !in r && StartsWith(t, r)
  {
    var k := IndexOfChar(t, '@');
    if k == -1 then t else t[..k]
  }

  /** A token as compared: trimmed, any `@start-level` suffix cut. */
  function Normalize(token: string): string
  {
    CutAtSign(Trim(token))
  }

  /** One normalised token names the candidate path `u`. */
  predicate TokenMatches(u: string, token: string, isWindows: bool)
  {
    || (StartsWith(token, REFERENCE_FILE) && Contains(u, FileName(token[|REFERENCE_FILE|..], isWindows)))
    || Contains(u, token)
  }

  /**
   * The answer isAutomaticallyStartedBundle gives; None is the
   * NullPointerException of `new StringTokenizer(null, ",")` when
   * `osgi.bundles` is not set.
   */
  function AutoStarted(u: string, osgiBundles: Option<string>, isWindows: bool): Option<bool>
  {
    if Contains(u, OSGI_CORE) then Some(true)
    else if osgiBundles.None? then None
    else Some(exists t :: t in Tokens(osgiBundles.value) && TokenMatches(u, Normalize(t), isWindows))
  }

  method IsAutomaticallyStartedBundle(bundleURL: string, osgiBundles: Option<string>, isWindows: bool)
    returns (r: Option<bool>)
    ensures r == AutoStarted(bundleURL, osgiBundles, isWindows)
  {
    if Contains(bundleURL, OSGI_CORE) {
      return Some(true);
    }
    if osgiBundles.None? {
      return None;
    }
    var st := Tokens(osgiBundles.value);
    var i := 0;
    while i < |st|
      invariant 0 <= i <= |st|
      invariant forall k :: 0 <= k < i ==> !TokenMatches(bundleURL, Normalize(st[k]), isWindows)
    {
      var m := MatchesToken(bundleURL, st[i], isWindows);
      if m {
        assert st[i] in st;
        return Some(true);
      }
      i := i + 1;
    }
    return Some(false);
  }

  /** The body of the token loop: trim, cut at '@', then compare by file name or by containment. */
  method MatchesToken(bundleURL: string, t: string, isWindows: bool) returns (m: bool)
    ensures m == TokenMatches(bundleURL, Normalize(t), isWindows)
  {
    var token := Trim(t);
    var index := IndexOfChar(token, '@');
    if index != -1 {
      token := token[..index];
    }
    if StartsWith(token, REFERENCE_FILE) {
      var f := FileName(token[|REFERENCE_FILE|..], isWindows);
      if Contains(bundleURL, f) {
        return true;
      }
    }
    return Contains(bundleURL, token);
  }

  /** Anything naming the framework's own bundle counts as provisioned, whatever `osgi.bundles` says. */
  lemma CoreBundleAlwaysProvisioned(u: string, osgiBundles: Option<string>, isWindows: bool)
    requires Contains(u, OSGI_CORE)
    ensures AutoStarted(u, osgiBundles, isWindows) == Some(true)
  {
  }

  /** Without `osgi.bundles` every other path makes the matcher throw. */
  lemma MissingPropertyThrows(u: string, isWindows: bool)
    requires !Contains(u, OSGI_CORE)
    ensures AutoStarted(u, None, isWindows).None?
  {
  }

  /** A token that is blank or only an `@level` suffix normalises to "" and so matches every path. */
  lemma BlankTokenMatchesAll(u: string, osgiBundles: string, isWindows: bool, k: nat)
    requires k < |Tokens(osgiBundles)| && Normalize(Tokens(osgiBundles)[k]) == []
    ensures AutoStarted(u, Some(osgiBundles), isWindows) == Some(true)
  {
    assert StartsWith(u, []);
  }

  /** With no token and no framework name in it, no path is provisioned. */
  lemma EmptyListMatchesNothing(u: string, isWindows: bool)
    requires !Contains(u, OSGI_CORE)
    ensures AutoStarted(u, Some(""), isWindows) == Some(false)
  {
  }

  lemma TrimUnchanged(s: string)
    requires s != [] && !IsTrimmed(s[0]) && !IsTrimmed(s[|s| - 1])
    ensures Trim(s) == s
  {
  }

  lemma {:induction false} IndexOfFirstSign(t: string, rest: string)
    requires '@' !in t
    ensures IndexOfChar(t + "@" + rest, '@') == |t|
  {
    var s := t + "@" + rest;
    assert s[|t|] == '@';
    assert s[..|t|] == t;
  }

  /** The last name of `dir/name` is `name`, whatever `dir` holds. */
  lemma {:induction false} LastComponentAfterSeparator(dir: string, name: string, isWindows: bool)
    requires forall i :: 0 <= i < |name| ==> !IsSeparator(name[i], isWindows)
    ensures LastComponent(dir + "/" + name, isWindows) == name
    decreases |name|
  {
    var p := dir + "/" + name;
    if name != [] {
      var init := name[..|name| - 1];
      assert p[..|p| - 1] == dir + "/" + init;
      LastComponentAfterSeparator(dir, init, isWindows);
      assert name == init + [name[|name| - 1]];
    }
  }

  lemma FileNameOfPath(dir: string, name: string, isWindows: bool)
    requires name != [] && forall i :: 0 <= i < |name| ==> !IsSeparator(name[i], isWindows)
    ensures FileName(dir + "/" + name, isWindows) == name
  {
    var p := dir + "/" + name;
    assert p[|p| - 1] == name[|name| - 1];
    assert StripTrailingSeparators(p, isWindows) == p;
    LastComponentAfterSeparator(dir, name, isWindows);
  }

  lemma ReferenceFilePlain()
    ensures ',' !in REFERENCE_FILE && '@' !in REFERENCE_FILE && !IsTrimmed(REFERENCE_FILE[0])
  {
  }

  /** A `reference:file:` token with an `@level` suffix normalises to the reference itself. */
  lemma ReferenceTokenNormalizes(path: string, level: string)
    requires '@' !in path
    requires level == [] || !IsTrimmed(level[|level| - 1])
    ensures Normalize(REFERENCE_FILE + path + "@" + level) == REFERENCE_FILE + path
  {
    ReferenceFilePlain();
    var t := REFERENCE_FILE + path;
    var s := t + "@" + level;
    assert s[0] == REFERENCE_FILE[0];
    TrimUnchanged(s);
    IndexOfFirstSign(t, level);
  }

  /**
   * A `reference:file:` token is matched by its file name: whatever `@`
   * suffix it carries, it covers every candidate path containing the last
   * name of the path it points to.
   */
  lemma ReferenceTokenMatchesByName(u: string, path: string, level: string, isWindows: bool)
    requires ',' !in path && ',' !in level && '@' !in path
    requires level == [] || !IsTrimmed(level[|level| - 1])
    requires Contains(u, FileName(path, isWindows))
    ensures AutoStarted(u, Some(REFERENCE_FILE + path + "@" + level), isWindows) == Some(true)
  {
    var s := REFERENCE_FILE + path + "@" + level;
    ReferenceTokenAlone(path, level);
    ReferenceTokenNormalizes(path, level);
    ReferenceNameMatches(u, path, isWindows);
    ListedTokenProvisions(u, s, s, isWindows);
  }

  /** A comma-free `reference:file:` entry is the only token of its list. */
  lemma ReferenceTokenAlone(path: string, level: string)
    requires ',' !in path && ',' !in level
    ensures Tokens(REFERENCE_FILE + path + "@" + level) == [REFERENCE_FILE + path + "@" + level]
  {
    ReferenceFilePlain();
    var s := REFERENCE_FILE + path + "@" + level;
    assert IsToken(s);
    TokensJoin([s]);
  }

  /** `reference:file:path` is compared by the last name of `path`. */
  lemma ReferenceNameMatches(u: string, path: string, isWindows: bool)
    requires Contains(u, FileName(path, isWindows))
    ensures TokenMatches(u, REFERENCE_FILE + path, isWindows)
  {
    var t := REFERENCE_FILE + path;
    assert StartsWith(t, REFERENCE_FILE) && t[|REFERENCE_FILE|..] == path;
  }

  /** One matching token in the list is enough. */
  lemma ListedTokenProvisions(u: string, list: string, t: string, isWindows: bool)
    requires t in Tokens(list) && TokenMatches(u, Normalize(t), isWindows)
    ensures AutoStarted(u, Some(list), isWindows) == Some(true)
  {
  }
}
