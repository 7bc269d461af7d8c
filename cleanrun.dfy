/**
 * What a run does to the bundle table when the framework complies: every
 * planned uninstall succeeds and every install hands back a new bundle. The
 * table is then the cached bundles the plan keeps, followed by the new
 * bundles in install order, and a second run over the same listing plans
 * nothing.
 */
module CleanRun {
  import opened Wrappers
  import opened Host
  import opened Reconcile
  import opened Scanner
  import opened Activator

  /** The ids of the bundles of `bs`. */
  function IdsOf(bs: seq<Bundle>): set<int>
  {
    set b | b in bs :: b.id
  }

  /** Every attempt was answered with a bundle that was in neither `bs` nor an earlier answer. */
  predicate FreshInstalls(bs: seq<Bundle>, steps: seq<InstallStep>)
  {
    forall k :: 0 <= k < |steps| ==>
      steps[k].result.Some? && steps[k].result.value !in bs + Targets(steps[..k])
  }

  /** Successful uninstalls of the bundles of `plan` leave the table without their ids. */
  lemma {:induction false} CleanUninstallsExclude(t: Table, cs: seq<Call>, plan: seq<Bundle>)
    requires UninstallsOf(cs, plan)
    requires forall k :: 0 <= k < |cs| ==> cs[k].ok
    ensures Replay(t, cs).bundles == WithoutIds(t.bundles, IdsOf(plan))
    decreases |cs|
  {
    if cs == [] {
      assert IdsOf(plan) == {};
      WithoutIdsNone(t.bundles, {});
    } else {
      var n := |cs| - 1;
      CleanUninstallsExclude(t, cs[..n], plan[..n]);
      WithoutIdsTwice(t.bundles, IdsOf(plan[..n]), {plan[n].id});
      assert plan == plan[..n] + [plan[n]];
      assert IdsOf(plan) == IdsOf(plan[..n]) + {plan[n].id};
    }
  }

  /** In a table with distinct ids, excluding the ids of the plan leaves exactly what the plan keeps. */
  lemma {:induction false} PlanExclusionIsKept(cached: seq<Bundle>, plugins: set<string>, isWindows: bool)
    requires DistinctIds(cached)
    ensures WithoutIds(cached, IdsOf(UninstallPlan(cached, plugins, isWindows))) == Kept(cached, plugins, isWindows)
    decreases |cached|
  {
    if cached != [] {
      var a := cached[..|cached| - 1];
      var x := cached[|cached| - 1];
      var plan := UninstallPlan(a, plugins, isWindows);
      PlanExclusionIsKept(a, plugins, isWindows);
      assert forall j :: 0 <= j < |a| ==> a[j].id != x.id by {
        forall j | 0 <= j < |a| ensures a[j].id != x.id {
          assert a[j] == cached[j];
        }
      }
      assert x.id !in IdsOf(plan) by {
        forall b | b in plan ensures b.id != x.id {
          UninstallPlanMembership(a, plugins, isWindows, b);
        }
      }
      if Stale(x, plugins, isWindows) {
        assert IdsOf(plan + [x]) == IdsOf(plan) + {x.id};
        WithoutIdsAbsent(a, IdsOf(plan), x.id);
      } else {
        assert plan + [] == plan;
      }
    }
  }

  /** Installs that each hand back a new bundle append those bundles to the table, in order. */
  lemma {:induction false} FreshInstallsAppend(t: Table, level: int, steps: seq<InstallStep>)
    requires FreshInstalls(t.bundles, steps)
    ensures Replay(t, InstallCalls(level, steps)).bundles == t.bundles + Targets(steps)
    decreases |steps|
  {
    if steps != [] {
      var n := |steps| - 1;
      var init := steps[..n];
      var last := steps[n];
      assert FreshInstalls(t.bundles, init) by {
        forall k | 0 <= k < |init| ensures init[..k] == steps[..k] {
        }
      }
      FreshInstallsAppend(t, level, init);
      var t1 := Replay(t, InstallCalls(level, init));
      var r := last.result.value;
      var install := InstallCall(UPDATE_PREFIX + last.path, last.result);
      var setLevel := SetStartLevelCall(r.id, level, last.levelSet);
      assert r !in t1.bundles;
      ReplayConcat(t, InstallCalls(level, init), [install, setLevel]);
      ReplayAppend(t1, [install], setLevel);
      ReplayAppend(t1, [], install);
      assert [install] + [setLevel] == [install, setLevel];
      AppendAssoc(t.bundles, Targets(init), [r]);
    }
  }

  /** The bundles Targets collects are the answers of the attempts, and only those. */
  lemma {:induction false} TargetsMembership(steps: seq<InstallStep>, b: Bundle)
    ensures b in Targets(steps) <==> exists k :: 0 <= k < |steps| && steps[k].result == Some(b)
    decreases |steps|
  {
    if steps != [] {
      var n := |steps| - 1;
      TargetsMembership(steps[..n], b);
      if exists k :: 0 <= k < |steps| && steps[k].result == Some(b) {
        var k :| 0 <= k < |steps| && steps[k].result == Some(b);
        if k < n {
          assert steps[..n][k] == steps[k];
        }
      }
    }
  }

  /** When every attempt of a full install loop was answered, the answers are located at the planned paths and cover them. */
  lemma AnsweredAttemptsCover(steps: seq<InstallStep>, paths: seq<string>, planned: set<string>)
    requires Attempts(steps, paths) && |steps| == |paths|
    requires forall p :: p in paths <==> p in planned
    requires forall k :: 0 <= k < |steps| ==> steps[k].result.Some?
    ensures forall b :: b in Targets(steps) ==> exists p :: p in planned && b.location == UPDATE_PREFIX + p
    ensures forall p :: p in planned ==> exists b :: b in Targets(steps) && b.location == UPDATE_PREFIX + p
  {
    forall b | b in Targets(steps)
      ensures exists p :: p in planned && b.location == UPDATE_PREFIX + p
    {
      TargetsMembership(steps, b);
      var k :| 0 <= k < |steps| && steps[k].result == Some(b);
      assert paths[k] in paths;
    }
    forall p | p in planned
      ensures exists b :: b in Targets(steps) && b.location == UPDATE_PREFIX + p
    {
      var k :| 0 <= k < |paths| && paths[k] == p;
      TargetsMembership(steps, steps[k].result.value);
    }
  }

  /**
   * The table after the uninstall and install phases of a run in which every
   * uninstall succeeded and every install handed back a new bundle: the kept
   * cached bundles, then the new ones in install order.
   */
  lemma CleanPhasesTable(run: Run, t: Table, entries: seq<DirEntry>, osgiBundles: Option<string>, isWindows: bool)
    requires RunMatches(run, t.bundles, entries, osgiBundles, isWindows)
    requires DistinctIds(t.bundles)
    requires forall k :: 0 <= k < |run.uninstalls| ==> run.uninstalls[k].ok
    requires FreshInstalls(Kept(t.bundles, Widen(run.plugins, isWindows), isWindows), run.steps)
    ensures Replay(t, Phases(run)).bundles == Kept(t.bundles, Widen(run.plugins, isWindows), isWindows) + Targets(run.steps)
  {
    var widened := Widen(run.plugins, isWindows);
    CleanUninstallsExclude(t, run.uninstalls, run.plan);
    PlanExclusionIsKept(t.bundles, widened, isWindows);
    var t1 := Replay(t, run.uninstalls);
    FreshInstallsAppend(t1, run.level, run.steps);
    ReplayConcat(t, run.uninstalls, InstallCalls(run.level, run.steps));
  }

  /**
   * A run that got through the install loop, with every uninstall successful
   * and every install answered by a new bundle that is neither the system
   * bundle nor the configurator, leaves a table on which reconciling against
   * the same listing plans nothing: `final` is that table after the refresh
   * and the start loop, which change only bundle states.
   */
  lemma CleanRunSettles(run: Run, t: Table, entries: seq<DirEntry>, osgiBundles: Option<string>, isWindows: bool,
                        final: seq<Bundle>)
    requires RunMatches(run, t.bundles, entries, osgiBundles, isWindows)
    requires !Aborted(run.steps, osgiBundles, isWindows)
    requires DistinctIds(t.bundles)
    requires forall k :: 0 <= k < |run.uninstalls| ==> run.uninstalls[k].ok
    requires FreshInstalls(Kept(t.bundles, Widen(run.plugins, isWindows), isWindows), run.steps)
    requires forall b :: b in Targets(run.steps) ==> b.id != 0 && b.symbolicName != Some(PI_CONFIGURATOR)
    requires SameBundlesUpToState(Replay(t, Phases(run)).bundles, final)
    ensures var widened := Widen(run.plugins, isWindows);
            InstallSet(final, widened, isWindows) == {} && UninstallPlan(final, widened, isWindows) == []
  {
    var widened := Widen(run.plugins, isWindows);
    CleanPhasesTable(run, t, entries, osgiBundles, isWindows);
    AnsweredAttemptsCover(run.steps, run.toInstall, InstallSet(t.bundles, widened, isWindows));
    ReconcileIdempotent(t.bundles, run.plugins, isWindows, Targets(run.steps));
    ReconcileIgnoresStates(Replay(t, Phases(run)).bundles, final, widened, isWindows);
  }
}
