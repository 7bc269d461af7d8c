/**
 * The plan of one run: which candidate paths to install and which cached
 * bundles to uninstall. Only bundles the configurator installed itself are
 * reconciled: their location is `update@` followed by the candidate path,
 * and neither the system bundle (id 0) nor the configurator is ever touched.
 */
module Reconcile {
  import opened Wrappers
  import opened Strings
  import opened Host

  const PI_CONFIGURATOR := "org.eclipse.equinox.autoconfigurator"
  const UPDATE_PREFIX := "update@"

  /** A cached bundle the reconciliation looks at. */
  predicate Managed(b: Bundle)
  {
    b.id != 0 && b.symbolicName != Some(PI_CONFIGURATOR) && StartsWith(b.location, UPDATE_PREFIX)
  }

  /** `location.substring(UPDATE_PREFIX.length())` */
  function Stripped(b: Bundle): string
    requires Managed(b)
  {
    b.location[|UPDATE_PREFIX|..]
  }

  /** The location a candidate path is installed under, and the round trip back to the path. */
  lemma PrefixRoundTrip(b: Bundle, p: string)
    requires b.location == UPDATE_PREFIX + p && b.id != 0 && b.symbolicName != Some(PI_CONFIGURATOR)
    ensures Managed(b) && Stripped(b) == p
  {
  }

  /** What one cached bundle adds to the lookup set of getBundlesToInstall. */
  function Contribution(b: Bundle, isWindows: bool): set<string>
  {
    if !Managed(b) then {}
    else if isWindows then {Stripped(b), Lower(Stripped(b))}
    else {Stripped(b)}
  }

  /** The lookup set `cachedBundlesSet` after the loop over the first |cached| bundles. */
  function CachedPaths(cached: seq<Bundle>, isWindows: bool): set<string>
    decreases |cached|
  {
    if cached == [] then {}
    else CachedPaths(cached[..|cached| - 1], isWindows) + Contribution(cached[|cached| - 1], isWindows)
  }

  lemma {:induction false} CachedPathsMembership(cached: seq<Bundle>, isWindows: bool, p: string)
    ensures p in CachedPaths(cached, isWindows) <==> exists b :: b in cached && p in Contribution(b, isWindows)
    decreases |cached|
  {
    if cached != [] {
      var init := cached[..|cached| - 1];
      CachedPathsMembership(init, isWindows, p);
      assert cached == init + [cached[|cached| - 1]];
    }
  }

  /** The candidate set after getBundlesToUninstall has added the lower-cased forms. */
  function Widen(plugins: set<string>, isWindows: bool): set<string>
  {
    if isWindows then plugins + set p | p in plugins :: Lower(p) else plugins
  }

  /** The paths getBundlesToInstall returns for candidate set `plugins`. */
  function InstallSet(cached: seq<Bundle>, plugins: set<string>, isWindows: bool): set<string>
  {
    var known := CachedPaths(cached, isWindows);
    set p | p in plugins && p !in known && !(isWindows && Lower(p) in known) && !Contains(p, PI_CONFIGURATOR)
  }

  /** A cached bundle getBundlesToUninstall returns for candidate set `plugins`. */
  predicate Stale(b: Bundle, plugins: set<string>, isWindows: bool)
  {
    Managed(b) && Stripped(b) !in plugins && !(isWindows && Lower(Stripped(b)) in plugins)
  }

  /** The bundles getBundlesToUninstall returns, in cache order. */
  function UninstallPlan(cached: seq<Bundle>, plugins: set<string>, isWindows: bool): seq<Bundle>
    decreases |cached|
  {
    if cached == [] then []
    else
      var last := cached[|cached| - 1];
      UninstallPlan(cached[..|cached| - 1], plugins, isWindows) + (if Stale(last, plugins, isWindows) then [last] else [])
  }

  lemma {:induction false} UninstallPlanMembership(cached: seq<Bundle>, plugins: set<string>, isWindows: bool, b: Bundle)
    ensures b in UninstallPlan(cached, plugins, isWindows) <==> b in cached && Stale(b, plugins, isWindows)
    decreases |cached|
  {
    if cached != [] {
      var init := cached[..|cached| - 1];
      UninstallPlanMembership(init, plugins, isWindows, b);
      assert cached == init + [cached[|cached| - 1]];
    }
  }

  predicate NoDuplicates<T(==)>(s: seq<T>)
  {
    forall i, j :: 0 <= i < j < |s| ==> s[i] != s[j]
  }

  /**
   * getBundlesToInstall: the candidates that are neither cached (exactly or,
   * case-insensitively, by lower-cased form) nor the configurator's own jar,
   * each once, in the candidate set's iteration order.
   */
  method GetBundlesToInstall(cached: seq<Bundle>, newPlugins: set<string>, isWindows: bool) returns (toInstall: seq<string>)
    ensures forall p :: p in toInstall <==> p in InstallSet(cached, newPlugins, isWindows)
    ensures NoDuplicates(toInstall)
  {
    var cachedBundlesSet: set<string> := {};
    var offset := |UPDATE_PREFIX|;
    var i := 0;
    while i < |cached|
      invariant 0 <= i <= |cached|
      invariant cachedBundlesSet == CachedPaths(cached[..i], isWindows)
    {
      assert cached[..i + 1][..i] == cached[..i];
      var b := cached[i];
      if b.id != 0 && b.symbolicName != Some(PI_CONFIGURATOR) && StartsWith(b.location, UPDATE_PREFIX) {
        var bundleLocation := b.location[offset..];
        cachedBundlesSet := cachedBundlesSet + {bundleLocation};
        if isWindows {
          cachedBundlesSet := cachedBundlesSet + {Lower(bundleLocation)};
        }
      }
      i := i + 1;
    }
    assert cached[..i] == cached;
    toInstall := [];
    var pending := newPlugins;
    while pending != {}
      invariant pending <= newPlugins
      invariant forall p :: p in toInstall <==> p in InstallSet(cached, newPlugins, isWindows) && p !in pending
      invariant NoDuplicates(toInstall)
      decreases pending
    {
      var location :| location in pending;
      if location !in cachedBundlesSet && !(isWindows && Lower(location) in cachedBundlesSet) && !Contains(location, PI_CONFIGURATOR) {
        toInstall := toInstall + [location];
      }
      pending := pending - {location};
    }
  }

  /**
   * getBundlesToUninstall: first adds, on Windows, the lower-cased form of
   * every candidate to the caller's set (returned here as `widened`), then
   * keeps, in cache order, the managed bundles whose path is not a candidate.
   */
  method GetBundlesToUninstall(cached: seq<Bundle>, newPlugins: set<string>, isWindows: bool)
    returns (toUninstall: seq<Bundle>, widened: set<string>)
    ensures widened == Widen(newPlugins, isWindows)
    ensures toUninstall == UninstallPlan(cached, widened, isWindows)
  {
    widened := newPlugins;
    var pending := newPlugins;
    while pending != {}
      invariant pending <= newPlugins
      invariant widened <= Widen(newPlugins, isWindows)
      invariant newPlugins <= widened
      invariant forall p :: p in newPlugins - pending && isWindows ==> Lower(p) in widened
      decreases pending
    {
      var pluginLocation :| pluginLocation in pending;
      if isWindows {
        widened := widened + {Lower(pluginLocation)};
      }
      pending := pending - {pluginLocation};
    }
    toUninstall := [];
    var offset := |UPDATE_PREFIX|;
    var i := 0;
    while i < |cached|
      invariant 0 <= i <= |cached|
      invariant toUninstall == UninstallPlan(cached[..i], widened, isWindows)
    {
      assert cached[..i + 1][..i] == cached[..i];
      var b := cached[i];
      if b.id != 0 && b.symbolicName != Some(PI_CONFIGURATOR) && StartsWith(b.location, UPDATE_PREFIX) {
        var cachedBundleLocation := b.location[offset..];
        if cachedBundleLocation !in widened && !(isWindows && Lower(cachedBundleLocation) in widened) {
          toUninstall := toUninstall + [b];
        }
      }
      i := i + 1;
    }
    assert cached[..i] == cached;
  }

  /**
   * The install rule stated over the cache: a candidate is installed iff no
   * managed cached bundle has its path (or, case-insensitively, the same
   * lower-cased path) and it is not the configurator's own jar.
   */
  lemma InstallSetMembership(cached: seq<Bundle>, plugins: set<string>, isWindows: bool, p: string)
    ensures p in InstallSet(cached, plugins, isWindows) <==>
              && p in plugins
              && !Contains(p, PI_CONFIGURATOR)
              && forall b :: b in cached && Managed(b) ==>
                   p != Stripped(b) && (isWindows ==> Lower(p) != Lower(Stripped(b)))
  {
    CachedPathsMembership(cached, isWindows, p);
    CachedPathsMembership(cached, isWindows, Lower(p));
    LowerIdempotent(p);
    forall b | b in cached && Managed(b) {
      LowerIdempotent(Stripped(b));
    }
  }

  /**
   * The uninstall rule over the candidates as the caller passed them: a cached
   * bundle goes iff it is managed and no candidate names its path (or,
   * case-insensitively, the same lower-cased path).
   */
  lemma UninstallMembership(cached: seq<Bundle>, plugins: set<string>, isWindows: bool, b: Bundle)
    ensures b in UninstallPlan(cached, Widen(plugins, isWindows), isWindows) <==>
              && b in cached
              && Managed(b)
              && forall p :: p in plugins ==> p != Stripped(b) && (isWindows ==> Lower(p) != Lower(Stripped(b)))
  {
    UninstallPlanMembership(cached, Widen(plugins, isWindows), isWindows, b);
    if Managed(b) {
      LowerIdempotent(Stripped(b));
      forall p | p in plugins {
        LowerIdempotent(p);
      }
      if isWindows && Lower(Stripped(b)) in Widen(plugins, true) && Lower(Stripped(b)) !in plugins {
        var q :| q in plugins && Lower(q) == Lower(Stripped(b));
      }
    }
  }

  /** In a table with distinct ids, the plan names each bundle once, and no id twice. */
  lemma {:induction false} UninstallPlanDistinct(cached: seq<Bundle>, plugins: set<string>, isWindows: bool)
    requires DistinctIds(cached)
    ensures DistinctIds(UninstallPlan(cached, plugins, isWindows))
    ensures NoDuplicates(UninstallPlan(cached, plugins, isWindows))
    decreases |cached|
  {
    if cached != [] {
      var init := cached[..|cached| - 1];
      var last := cached[|cached| - 1];
      var plan := UninstallPlan(init, plugins, isWindows);
      UninstallPlanDistinct(init, plugins, isWindows);
      forall k | 0 <= k < |plan| ensures plan[k].id != last.id {
        UninstallPlanMembership(init, plugins, isWindows, plan[k]);
        var j :| 0 <= j < |init| && init[j] == plan[k];
        assert cached[j] == init[j];
      }
    }
  }

  /** Reconciling reads no bundle state: tables equal up to states get the same plan. */
  lemma {:induction false} ReconcileIgnoresStates(a: seq<Bundle>, b: seq<Bundle>, plugins: set<string>, isWindows: bool)
    requires SameBundlesUpToState(a, b)
    ensures CachedPaths(a, isWindows) == CachedPaths(b, isWindows)
    ensures InstallSet(a, plugins, isWindows) == InstallSet(b, plugins, isWindows)
    ensures SameBundlesUpToState(UninstallPlan(a, plugins, isWindows), UninstallPlan(b, plugins, isWindows))
    decreases |a|
  {
    if a != [] {
      var n := |a| - 1;
      ReconcileIgnoresStates(a[..n], b[..n], plugins, isWindows);
      assert Managed(a[n]) == Managed(b[n]);
      var pa := UninstallPlan(a[..n], plugins, isWindows);
      var pb := UninstallPlan(b[..n], plugins, isWindows);
      if Stale(a[n], plugins, isWindows) {
        assert SameBundlesUpToState(pa + [a[n]], pb + [b[n]]) by {
          forall k | 0 <= k < |pa| + 1
            ensures (pb + [b[n]])[k].id == (pa + [a[n]])[k].id
            ensures (pb + [b[n]])[k].location == (pa + [a[n]])[k].location
            ensures (pb + [b[n]])[k].symbolicName == (pa + [a[n]])[k].symbolicName
          {
            if k < |pa| {
              assert (pa + [a[n]])[k] == pa[k] && (pb + [b[n]])[k] == pb[k];
            }
          }
        }
      } else {
        assert pa + [] == pa && pb + [] == pb;
      }
    }
  }

  /** The system bundle, the configurator and bundles installed from elsewhere are never planned for removal. */
  lemma UninstallSparesUnmanaged(cached: seq<Bundle>, plugins: set<string>, isWindows: bool, b: Bundle)
    requires b.id == 0 || b.symbolicName == Some(PI_CONFIGURATOR) || !StartsWith(b.location, UPDATE_PREFIX)
    ensures b !in UninstallPlan(cached, plugins, isWindows)
  {
    UninstallPlanMembership(cached, plugins, isWindows, b);
  }

  /** No path is both installed and the path of a bundle being uninstalled. */
  lemma PlanDisjoint(cached: seq<Bundle>, plugins: set<string>, isWindows: bool, b: Bundle)
    requires b in UninstallPlan(cached, plugins, isWindows)
    ensures Managed(b) && Stripped(b) !in InstallSet(cached, plugins, isWindows)
  {
    UninstallPlanMembership(cached, plugins, isWindows, b);
  }

  /** The cached bundles the uninstall plan leaves in place: those not stale, in cache order. */
  function Kept(cached: seq<Bundle>, plugins: set<string>, isWindows: bool): seq<Bundle>
    decreases |cached|
  {
    if cached == [] then []
    else
      var last := cached[|cached| - 1];
      Kept(cached[..|cached| - 1], plugins, isWindows) + (if Stale(last, plugins, isWindows) then [] else [last])
  }

  lemma {:induction false} KeptMembership(cached: seq<Bundle>, plugins: set<string>, isWindows: bool, b: Bundle)
    ensures b in Kept(cached, plugins, isWindows) <==> b in cached && !Stale(b, plugins, isWindows)
    decreases |cached|
  {
    if cached != [] {
      var init := cached[..|cached| - 1];
      KeptMembership(init, plugins, isWindows, b);
      assert cached == init + [cached[|cached| - 1]];
    }
  }

  /**
   * Reconciling is idempotent: once the plan for `candidates` is applied in
   * full (every stale bundle uninstalled, every planned path installed under
   * `update@` + path), reconciling the new cache against the same candidates
   * plans nothing.
   */
  lemma ReconcileIdempotent(cached: seq<Bundle>, candidates: set<string>, isWindows: bool, installed: seq<Bundle>)
    requires forall b :: b in installed ==>
               b.id != 0 && b.symbolicName != Some(PI_CONFIGURATOR) &&
               exists p :: p in InstallSet(cached, Widen(candidates, isWindows), isWindows) && b.location == UPDATE_PREFIX + p
    requires forall p :: p in InstallSet(cached, Widen(candidates, isWindows), isWindows) ==>
               exists b :: b in installed && b.location == UPDATE_PREFIX + p
    ensures var W := Widen(candidates, isWindows);
            var next := Kept(cached, W, isWindows) + installed;
            InstallSet(next, W, isWindows) == {} && UninstallPlan(next, W, isWindows) == []
  {
    var W := Widen(candidates, isWindows);
    var next := Kept(cached, W, isWindows) + installed;
    forall p | p in W
      ensures p !in InstallSet(next, W, isWindows)
    {
      InstallSetMembership(cached, W, isWindows, p);
      InstallSetMembership(next, W, isWindows, p);
      LowerIdempotent(p);
      if p in InstallSet(cached, W, isWindows) {
        var b :| b in installed && b.location == UPDATE_PREFIX + p;
        PrefixRoundTrip(b, p);
        assert b in next;
      } else if !Contains(p, PI_CONFIGURATOR) {
        var b :| b in cached && Managed(b) && !(p != Stripped(b) && (isWindows ==> Lower(p) != Lower(Stripped(b))));
        KeptMembership(cached, W, isWindows, b);
        if isWindows {
          assert Lower(p) in W by {
            if p !in candidates {
              var q :| q in candidates && Lower(q) == p;
              LowerIdempotent(q);
            }
          }
          LowerIdempotent(Stripped(b));
          assert !Stale(b, W, isWindows);
        }
        assert b in next;
      }
    }
    assert InstallSet(next, W, isWindows) == {};
    forall b | b in next
      ensures !Stale(b, W, isWindows)
    {
      if b in installed {
        var p :| p in InstallSet(cached, W, isWindows) && b.location == UPDATE_PREFIX + p;
        PrefixRoundTrip(b, p);
      } else {
        KeptMembership(cached, W, isWindows, b);
      }
    }
    if UninstallPlan(next, W, isWindows) != [] {
      UninstallPlanMembership(next, W, isWindows, UninstallPlan(next, W, isWindows)[0]);
    }
  }

  /**
   * On Windows the install plan is computed against the widened set, so a
   * missing candidate with upper-case letters is planned twice: as written
   * and lower-cased.
   */
  lemma WidenedInstallTwins(cached: seq<Bundle>, candidates: set<string>, p: string)
    requires p in InstallSet(cached, Widen(candidates, true), true)
    requires p in candidates && !Contains(Lower(p), PI_CONFIGURATOR)
    ensures Lower(p) in InstallSet(cached, Widen(candidates, true), true)
  {
    LowerIdempotent(p);
  }

  /**
   * On an empty cache under Windows, a candidate with upper-case letters is
   * installed twice: as written and lower-cased (`plugins\A.jar` gives
   * `plugins\A.jar` and `plugins\a.jar`).
   */
  lemma WindowsInstallsBothCases(p: string)
    requires Lower(p) != p && !Contains(p, PI_CONFIGURATOR) && !Contains(Lower(p), PI_CONFIGURATOR)
    ensures InstallSet([], Widen({p}, true), true) == {p, Lower(p)}
  {
    var q := Lower(p);
    LowerIdempotent(p);
    assert Widen({p}, true) == {p, q};
    forall x | x in {p, q}
      ensures x in InstallSet([], {p, q}, true)
    {
      InstallSetMembership([], {p, q}, true, x);
    }
  }

  /**
   * Without case folding, a candidate that differs from a cached path only in
   * case (`plugins/A.jar` against `plugins/a.jar`) is a different path: the
   * candidate is installed and the cached bundle removed.
   */
  lemma CaseSensitivePathsDiffer(b: Bundle, p: string)
    requires Managed(b) && p != Stripped(b) && !Contains(p, PI_CONFIGURATOR)
    ensures InstallSet([b], {p}, false) == {p}
    ensures UninstallPlan([b], {p}, false) == [b]
  {
    assert [b][..0] == [];
    InstallSetMembership([b], {p}, false, p);
    assert Stale(b, {p}, false);
  }

  /** A cache holding the bundle of candidate `Stripped(b)`, against it and a new candidate `c`: install `c`, remove nothing. */
  lemma NewCandidateInstalled(b: Bundle, c: string)
    requires Managed(b) && c != Stripped(b) && !Contains(c, PI_CONFIGURATOR)
    ensures InstallSet([b], {Stripped(b), c}, false) == {c}
    ensures UninstallPlan([b], {Stripped(b), c}, false) == []
  {
    assert [b][..0] == [];
    InstallSetMembership([b], {Stripped(b), c}, false, c);
    InstallSetMembership([b], {Stripped(b), c}, false, Stripped(b));
    assert !Stale(b, {Stripped(b), c}, false);
  }

  /** A cache holding the bundles of `a` and `c`, against candidate `a` alone: install nothing, remove `c`'s bundle. */
  lemma DroppedCandidateUninstalled(a: Bundle, c: Bundle)
    requires Managed(a) && Managed(c) && Stripped(a) != Stripped(c)
    ensures InstallSet([a, c], {Stripped(a)}, false) == {}
    ensures UninstallPlan([a, c], {Stripped(a)}, false) == [c]
  {
    assert [a, c][..1] == [a];
    assert [a][..0] == [];
    InstallSetMembership([a, c], {Stripped(a)}, false, Stripped(a));
    assert !Stale(a, {Stripped(a)}, false) && Stale(c, {Stripped(a)}, false);
    assert UninstallPlan([a], {Stripped(a)}, false) == [];
  }
}
