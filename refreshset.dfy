/**
 * The list of bundles handed to the framework refresh: seeded with the
 * unresolved bundles, then cleared of every bundle that shares a symbolic
 * name with a bundle provisioned through `initial@`.
 */
module RefreshSet {
  import opened Wrappers
  import opened Strings
  import opened Host

  const INITIAL_PREFIX := "initial@"

  /** The bundles in INSTALLED state, in table order. */
  function Unresolved(bs: seq<Bundle>): seq<Bundle>
    decreases |bs|
  {
    if bs == [] then []
    else
      var last := bs[|bs| - 1];
      Unresolved(bs[..|bs| - 1]) + (if last.state == Installed then [last] else [])
  }

  lemma {:induction false} UnresolvedMembership(bs: seq<Bundle>, b: Bundle)
    ensures b in Unresolved(bs) <==> b in bs && b.state == Installed
    decreases |bs|
  {
    if bs != [] {
      UnresolvedMembership(bs[..|bs| - 1], b);
      assert bs == bs[..|bs| - 1] + [bs[|bs| - 1]];
    }
  }

  /** getUnresolvedBundles, over the bundles `context.getBundles()` lists. */
  method GetUnresolvedBundles(allBundles: seq<Bundle>) returns (unresolved: seq<Bundle>)
    ensures unresolved == Unresolved(allBundles)
  {
    unresolved := [];
    var i := 0;
    while i < |allBundles|
      invariant 0 <= i <= |allBundles|
      invariant unresolved == Unresolved(allBundles[..i])
    {
      assert allBundles[..i + 1][..i] == allBundles[..i];
      if allBundles[i].state == Installed {
        unresolved := unresolved + [allBundles[i]];
      }
      i := i + 1;
    }
    assert allBundles[..i] == allBundles;
  }

  /** A bundle provisioned by the bootstrap configuration rather than by this configurator. */
  predicate IsInitial(b: Bundle)
  {
    StartsWith(b.location, INITIAL_PREFIX)
  }

  /** The non-null symbolic names of the `initial@` bundles, in cache order. */
  function InitialSymbolicNames(cached: seq<Bundle>): seq<string>
    decreases |cached|
  {
    if cached == [] then []
    else
      var last := cached[|cached| - 1];
      InitialSymbolicNames(cached[..|cached| - 1]) +
        (if IsInitial(last) && last.symbolicName.Some? then [last.symbolicName.value] else [])
  }

  lemma {:induction false} InitialNamesMembership(cached: seq<Bundle>, name: string)
    ensures name in InitialSymbolicNames(cached) <==>
              exists c :: c in cached && IsInitial(c) && c.symbolicName == Some(name)
    decreases |cached|
  {
    if cached != [] {
      InitialNamesMembership(cached[..|cached| - 1], name);
      assert cached == cached[..|cached| - 1] + [cached[|cached| - 1]];
    }
  }

  /** getInitialSymbolicNames */
  method GetInitialSymbolicNames(cached: seq<Bundle>) returns (initial: seq<string>)
    ensures initial == InitialSymbolicNames(cached)
  {
    initial := [];
    var i := 0;
    while i < |cached|
      invariant 0 <= i <= |cached|
      invariant initial == InitialSymbolicNames(cached[..i])
    {
      assert cached[..i + 1][..i] == cached[..i];
      var bundle := cached[i];
      if StartsWith(bundle.location, INITIAL_PREFIX) {
        var symbolicName := bundle.symbolicName;
        if symbolicName.Some? {
          initial := initial + [symbolicName.value];
        }
      }
      i := i + 1;
    }
    assert cached[..i] == cached;
  }

  /** `initialSymbolicNames[i].equals(bundle.getSymbolicName())` for some i; a null name never matches. */
  predicate NamedIn(b: Bundle, names: seq<string>)
  {
    b.symbolicName.Some? && b.symbolicName.value in names
  }

  /** The list with every bundle named in `names` taken out, the others in their order. */
  function RemoveNamed(bs: seq<Bundle>, names: seq<string>): seq<Bundle>
    decreases |bs|
  {
    if bs == [] then []
    else
      var last := bs[|bs| - 1];
      RemoveNamed(bs[..|bs| - 1], names) + (if NamedIn(last, names) then [] else [last])
  }

  lemma {:induction false} RemoveNamedMembership(bs: seq<Bundle>, names: seq<string>, b: Bundle)
    ensures b in RemoveNamed(bs, names) <==> b in bs && !NamedIn(b, names)
    decreases |bs|
  {
    if bs != [] {
      RemoveNamedMembership(bs[..|bs| - 1], names, b);
      assert bs == bs[..|bs| - 1] + [bs[|bs| - 1]];
    }
  }

  /** Removal works element by element, so the survivors keep their relative order. */
  lemma {:induction false} RemoveNamedConcat(a: seq<Bundle>, b: seq<Bundle>, names: seq<string>)
    ensures RemoveNamed(a + b, names) == RemoveNamed(a, names) + RemoveNamed(b, names)
    decreases |b|
  {
    if b != [] {
      var init := b[..|b| - 1];
      assert (a + b)[..|a + b| - 1] == a + init;
      RemoveNamedConcat(a, init, names);
    } else {
      assert a + b == a;
    }
  }

  /**
   * removeInitialBundles: the iterator walk over the list that removes each
   * bundle whose symbolic name is one of the initial names; the list is
   * returned rather than shrunk in place.
   */
  method RemoveInitialBundles(bundles: seq<Bundle>, cached: seq<Bundle>) returns (kept: seq<Bundle>)
    ensures kept == RemoveNamed(bundles, InitialSymbolicNames(cached))
  {
    var initialSymbolicNames := GetInitialSymbolicNames(cached);
    kept := [];
    var i := 0;
    while i < |bundles|
      invariant 0 <= i <= |bundles|
      invariant kept == RemoveNamed(bundles[..i], initialSymbolicNames)
    {
      assert bundles[..i + 1][..i] == bundles[..i];
      var bundle := bundles[i];
      var symbolicName := bundle.symbolicName;
      var removed := false;
      var j := 0;
      while j < |initialSymbolicNames|
        invariant 0 <= j <= |initialSymbolicNames|
        invariant removed <==> NamedIn(bundle, initialSymbolicNames[..j])
      {
        if Some(initialSymbolicNames[j]) == symbolicName {
          removed := true;
          break;
        }
        assert initialSymbolicNames[..j + 1] == initialSymbolicNames[..j] + [initialSymbolicNames[j]];
        j := j + 1;
      }
      if removed {
        assert NamedIn(bundle, initialSymbolicNames);
      } else {
        assert initialSymbolicNames[..j] == initialSymbolicNames;
        kept := kept + [bundle];
      }
      i := i + 1;
    }
    assert bundles[..i] == bundles;
  }

  /**
   * Bootstrap exclusion: after removeInitialBundles a bundle is still in the
   * list iff it was in it and no cached `initial@` bundle carries its
   * (non-null) symbolic name.
   */
  lemma BootstrapExclusion(bundles: seq<Bundle>, cached: seq<Bundle>, b: Bundle)
    ensures b in RemoveNamed(bundles, InitialSymbolicNames(cached)) <==>
              && b in bundles
              && !(b.symbolicName.Some? && exists c :: c in cached && IsInitial(c) && c.symbolicName == b.symbolicName)
  {
    RemoveNamedMembership(bundles, InitialSymbolicNames(cached), b);
    if b.symbolicName.Some? {
      InitialNamesMembership(cached, b.symbolicName.value);
    }
  }
}
