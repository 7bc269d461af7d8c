/**
 * The OSGi framework as the configurator sees it through its BundleContext:
 * the table of installed bundles, the framework properties, and the
 * lifecycle primitives. The primitives' outcomes are decided by the
 * framework, so each one may succeed or fail here, and every call is
 * appended to `calls`, the trace of what the configurator asked for.
 */
module Host {
  import opened Wrappers

  /** The bundle states of org.osgi.framework.Bundle. */
  datatype BundleState = Uninstalled | Installed | Resolved | Starting | Stopping | Active

  /** The bit OSGi assigns to each state (Bundle.UNINSTALLED = 0x01 ... Bundle.ACTIVE = 0x20). */
  function StateBits(s: BundleState): bv32
  {
    match s
    case Uninstalled => 0x01
    case Installed => 0x02
    case Resolved => 0x04
    case Starting => 0x08
    case Stopping => 0x10
    case Active => 0x20
  }

  const RESOLVED_BIT: bv32 := 0x04

  /** `(bundle.getState() & Bundle.RESOLVED) != 0` */
  predicate HasResolvedBit(s: BundleState)
  {
    StateBits(s) & RESOLVED_BIT != 0
  }

  /** Every state is a single bit, so the bit test holds of RESOLVED alone. */
  lemma ResolvedBitIsResolved(s: BundleState)
    ensures HasResolvedBit(s) <==> s == Resolved
  {
  }

  /** A snapshot of one bundle: id, location, symbolic name (null when absent) and state. */
  datatype Bundle = Bundle(id: int, location: string, symbolicName: Option<string>, state: BundleState)

  /** One request the configurator made of the framework, with what came of it. */
  datatype Call =
    | UninstallCall(bundle: Bundle, ok: bool)
    | InstallCall(location: string, result: Option<Bundle>)
    | SetStartLevelCall(id: int, level: int, ok: bool)
    | RefreshCall(bundles: seq<Bundle>, table: seq<Bundle>)
    | StartCall(bundle: Bundle, options: int, ok: bool, after: BundleState)

  /** `Bundle.START_ACTIVATION_POLICY` */
  const START_ACTIVATION_POLICY := 0x02

  predicate DistinctIds(bs: seq<Bundle>)
  {
    forall i, j :: 0 <= i < j < |bs| ==> bs[i].id != bs[j].id
  }

  /** The position of the bundle with id `id`, or -1. */
  function IndexOfId(bs: seq<Bundle>, id: int): (k: int)
    ensures -1 <= k < |bs|
    ensures k >= 0 ==> bs[k].id == id && forall j :: 0 <= j < k ==> bs[j].id != id
    ensures k == -1 ==> forall j :: 0 <= j < |bs| ==> bs[j].id != id
    decreases |bs|
  {
    if bs == [] then -1
    else if bs[0].id == id then 0
    else
      var k := IndexOfId(bs[1..], id);
      if k == -1 then -1 else k + 1
  }

  /** The live state of bundle `id`; a bundle no longer in the table is UNINSTALLED. */
  function StateIn(bs: seq<Bundle>, id: int): BundleState
  {
    var k := IndexOfId(bs, id);
    if k == -1 then Uninstalled else bs[k].state
  }

  lemma StateInAt(bs: seq<Bundle>, i: int)
    requires DistinctIds(bs) && 0 <= i < |bs|
    ensures StateIn(bs, bs[i].id) == bs[i].state
    ensures forall k :: 0 <= k < |bs| && k != i ==> bs[k].id != bs[i].id
  {
  }

  /** `b` lists the same bundles as `a`, in the same order; only their states may differ. */
  predicate SameBundlesUpToState(a: seq<Bundle>, b: seq<Bundle>)
  {
    && |a| == |b|
    && forall k :: 0 <= k < |a| ==>
         b[k].id == a[k].id && b[k].location == a[k].location && b[k].symbolicName == a[k].symbolicName
  }

  /** The part of the framework the configurator's calls change: the bundle table, the start levels, the next id. */
  datatype Table = Table(bundles: seq<Bundle>, startLevels: map<int, int>, nextId: int)

  /** The bundles of `bs` whose ids are not in `ids`, in order. */
  function WithoutIds(bs: seq<Bundle>, ids: set<int>): seq<Bundle>
    decreases |bs|
  {
    if bs == [] then []
    else
      var last := bs[|bs| - 1];
      WithoutIds(bs[..|bs| - 1], ids) + (if last.id in ids then [] else [last])
  }

  /** Excluding ids no bundle of `bs` has changes nothing. */
  lemma {:induction false} WithoutIdsNone(bs: seq<Bundle>, ids: set<int>)
    requires forall j :: 0 <= j < |bs| ==> bs[j].id !in ids
    ensures WithoutIds(bs, ids) == bs
    decreases |bs|
  {
    if bs != [] {
      var init := bs[..|bs| - 1];
      WithoutIdsNone(init, ids);
      assert bs == init + [bs[|bs| - 1]];
    }
  }

  /** Excluding an id that no remaining bundle has changes nothing. */
  lemma {:induction false} WithoutIdsAbsent(bs: seq<Bundle>, ids: set<int>, id: int)
    requires forall j :: 0 <= j < |bs| && bs[j].id == id ==> id in ids
    ensures WithoutIds(bs, ids + {id}) == WithoutIds(bs, ids)
    decreases |bs|
  {
    if bs != [] {
      WithoutIdsAbsent(bs[..|bs| - 1], ids, id);
    }
  }

  /** Excluding `s` and then `t` is excluding both at once. */
  lemma {:induction false} WithoutIdsTwice(bs: seq<Bundle>, s: set<int>, t: set<int>)
    ensures WithoutIds(WithoutIds(bs, s), t) == WithoutIds(bs, s + t)
    decreases |bs|
  {
    if bs != [] {
      var init := bs[..|bs| - 1];
      var last := bs[|bs| - 1];
      WithoutIdsTwice(init, s, t);
      var w := WithoutIds(init, s);
      if last.id in s {
        assert WithoutIds(bs, s) == w;
      } else {
        assert WithoutIds(bs, s) == w + [last];
        assert (w + [last])[..|w|] == w;
        assert WithoutIds(w + [last], t) == WithoutIds(w, t) + (if last.id in t then [] else [last]);
      }
    }
  }

  /** In a table with distinct ids, cutting out position `k` leaves the table without that bundle's id. */
  lemma {:induction false} RemoveAtIsWithout(bs: seq<Bundle>, k: int)
    requires DistinctIds(bs) && 0 <= k < |bs|
    ensures bs[..k] + bs[k + 1..] == WithoutIds(bs, {bs[k].id})
    decreases |bs|
  {
    var a := bs[..|bs| - 1];
    var x := bs[|bs| - 1];
    assert bs == a + [x];
    if k == |a| {
      assert bs[..k] + bs[k + 1..] == a;
      WithoutIdsNone(a, {x.id});
    } else {
      RemoveAtIsWithout(a, k);
      assert bs[..k] + bs[k + 1..] == (a[..k] + a[k + 1..]) + [x];
    }
  }

  /** The table with bundle `id` (if present) in state `s`. */
  function WithState(bs: seq<Bundle>, id: int, s: BundleState): (r: seq<Bundle>)
    ensures SameBundlesUpToState(bs, r)
    ensures forall k :: 0 <= k < |bs| && bs[k].id != id ==> r[k] == bs[k]
    ensures forall k :: 0 <= k < |bs| && bs[k].id == id && k == IndexOfId(bs, id) ==> r[k].state == s
  {
    var k := IndexOfId(bs, id);
    if k < 0 then bs else bs[k := bs[k].(state := s)]
  }

  /**
   * What a recorded call did to the table: a successful uninstall removes the
   * bundle, an install that handed back a bundle not yet listed appends it, a
   * successful setStartLevel records the level, a refresh leaves the table it
   * recorded, a start leaves its bundle in the state it recorded.
   */
  function Apply(t: Table, c: Call): Table
  {
    match c
    case UninstallCall(b, ok) => if ok then t.(bundles := WithoutIds(t.bundles, {b.id})) else t
    case InstallCall(_, r) =>
      if r.Some? && r.value !in t.bundles then Table(t.bundles + [r.value], t.startLevels, t.nextId + 1) else t
    case SetStartLevelCall(id, level, ok) => if ok then t.(startLevels := t.startLevels[id := level]) else t
    case RefreshCall(_, after) => t.(bundles := after)
    case StartCall(b, _, _, after) => t.(bundles := WithState(t.bundles, b.id, after))
  }

  /** The table after the calls `cs`, in order, starting from `t`. */
  function Replay(t: Table, cs: seq<Call>): Table
    decreases |cs|
  {
    if cs == [] then t else Apply(Replay(t, cs[..|cs| - 1]), cs[|cs| - 1])
  }

  lemma ReplayAppend(t: Table, cs: seq<Call>, c: Call)
    ensures Replay(t, cs + [c]) == Apply(Replay(t, cs), c)
  {
    assert (cs + [c])[..|cs|] == cs;
  }

  /** Replaying two stretches of a trace is replaying the whole. */
  lemma {:induction false} ReplayConcat(t: Table, a: seq<Call>, b: seq<Call>)
    ensures Replay(t, a + b) == Replay(Replay(t, a), b)
    decreases |b|
  {
    if b == [] {
      assert a + b == a;
    } else {
      var init := b[..|b| - 1];
      assert (a + b)[..|a + b| - 1] == a + init;
      ReplayConcat(t, a, init);
    }
  }

  class Framework {
    var bundles: seq<Bundle>
    var nextId: int
    var startLevels: map<int, int>
    var calls: seq<Call>
    const properties: map<string, string>

    ghost predicate Valid()
      reads this
    {
      DistinctIds(bundles) && forall k :: 0 <= k < |bundles| ==> bundles[k].id < nextId
    }

    constructor (bundles: seq<Bundle>, nextId: int, properties: map<string, string>)
      requires DistinctIds(bundles) && forall k :: 0 <= k < |bundles| ==> bundles[k].id < nextId
      ensures Valid()
      ensures this.bundles == bundles && this.nextId == nextId && this.properties == properties
      ensures startLevels == map[] && calls == []
    {
      this.bundles := bundles;
      this.nextId := nextId;
      this.properties := properties;
      startLevels := map[];
      calls := [];
    }

    /** `context.getProperty(key)` */
    function GetProperty(key: string): (v: Option<string>)
      ensures v.Some? <==> key in properties
      ensures v.Some? ==> v.value == properties[key]
    {
      if key in properties then Some(properties[key]) else None
    }

    /** The table as it stands. */
    function Current(): Table
      reads this
    {
      Table(bundles, startLevels, nextId)
    }

    /** `bundle.getState()`, read live. */
    function StateOf(id: int): BundleState
      reads this
    {
      StateIn(bundles, id)
    }

    /** `bundle.uninstall()`: may throw; a bundle no longer installed cannot be uninstalled. */
    method Uninstall(b: Bundle) returns (ok: bool)
      requires Valid()
      modifies this
      ensures Valid()
      ensures calls == old(calls) + [UninstallCall(b, ok)]
      ensures Current() == Apply(old(Current()), UninstallCall(b, ok))
      ensures ok ==> IndexOfId(old(bundles), b.id) >= 0
    {
      ok := *;
      var k := IndexOfId(bundles, b.id);
      if k < 0 {
        ok := false;
      }
      if ok {
        RemoveAtIsWithout(bundles, k);
        bundles := bundles[..k] + bundles[k + 1..];
        assert forall j :: 0 <= j < |bundles| ==> bundles[j] == old(bundles)[if j < k then j else j + 1];
      }
      calls := calls + [UninstallCall(b, ok)];
    }

    /**
     * `context.installBundle(location, stream)`: may throw (opening the stream
     * included); a location already installed gives back that bundle; otherwise
     * a bundle with a fresh id is added in INSTALLED state, its symbolic name
     * read from its manifest.
     */
    method Install(location: string) returns (r: Option<Bundle>)
      requires Valid()
      modifies this
      ensures Valid()
      ensures calls == old(calls) + [InstallCall(location, r)]
      ensures Current() == Apply(old(Current()), InstallCall(location, r))
      ensures r.Some? ==> r.value.location == location
      ensures r.Some? && r.value !in old(bundles) ==>
                && r.value.id == old(nextId) && r.value.state == Installed
                && forall j :: 0 <= j < |old(bundles)| ==> old(bundles)[j].location != location
    {
      var fails: bool := *;
      if fails {
        r := None;
      } else {
        var k := 0;
        while k < |bundles| && bundles[k].location != location
          invariant 0 <= k <= |bundles|
          invariant forall j :: 0 <= j < k ==> bundles[j].location != location
        {
          k := k + 1;
        }
        if k < |bundles| {
          r := Some(bundles[k]);
        } else {
          var name: Option<string> := *;
          var b := Bundle(nextId, location, name, Installed);
          assert b !in bundles;
          bundles := bundles + [b];
          nextId := nextId + 1;
          r := Some(b);
        }
      }
      calls := calls + [InstallCall(location, r)];
    }

    /** `bundle.adapt(BundleStartLevel.class).setStartLevel(level)`: may throw. */
    method SetStartLevel(id: int, level: int) returns (ok: bool)
      requires Valid()
      modifies this
      ensures Valid()
      ensures calls == old(calls) + [SetStartLevelCall(id, level, ok)]
      ensures Current() == Apply(old(Current()), SetStartLevelCall(id, level, ok))
    {
      ok := *;
      if ok {
        startLevels := startLevels[id := level];
      }
      calls := calls + [SetStartLevelCall(id, level, ok)];
    }

    /**
     * `FrameworkWiring.refreshBundles(list, listener)` followed by the wait for
     * PACKAGES_REFRESHED: resolution may change the state of any bundle. The
     * call records the table the refresh leaves.
     */
    method Refresh(list: seq<Bundle>)
      requires Valid()
      modifies this
      ensures Valid()
      ensures calls == old(calls) + [RefreshCall(list, bundles)]
      ensures Current() == Apply(old(Current()), RefreshCall(list, bundles))
      ensures SameBundlesUpToState(old(bundles), bundles)
    {
      var states: seq<BundleState> := *;
      if |states| == |bundles| {
        var was := bundles;
        bundles := seq(|was|, k requires 0 <= k < |was| => was[k].(state := states[k]));
        assert forall k :: 0 <= k < |bundles| ==> bundles[k].id == was[k].id;
      }
      calls := calls + [RefreshCall(list, bundles)];
    }

    /**
     * `bundle.start(options)`: may throw a BundleException; either way the
     * framework decides the state the bundle is left in, and no other bundle
     * changes. The call records the options and that state.
     */
    method Start(b: Bundle, options: int) returns (ok: bool)
      requires Valid()
      modifies this
      ensures Valid()
      ensures calls == old(calls) + [StartCall(b, options, ok, StateOf(b.id))]
      ensures Current() == Apply(old(Current()), StartCall(b, options, ok, StateOf(b.id)))
      ensures SameBundlesUpToState(old(bundles), bundles)
      ensures forall k :: 0 <= k < |bundles| && bundles[k].id != b.id ==> bundles[k] == old(bundles)[k]
    {
      ok := *;
      var after: BundleState := *;
      bundles := WithState(bundles, b.id, after);
      calls := calls + [StartCall(b, options, ok, StateOf(b.id))];
    }
  }
}
