/**
 * ConfigurationActivator.installBundles: one reconciliation run. It reads the
 * default start level, lists the `plugins` directory, uninstalls the managed
 * bundles that are no longer candidates, installs the new candidates,
 * refreshes, and starts what the refresh left RESOLVED. A per-bundle failure
 * is skipped. A failed uninstall is always logged. A failed install or
 * start-level update is logged only when the bootstrap matcher answers false.
 * A failed start is logged only when the bundle still has the RESOLVED bit.
 * The run fails as a whole when there is no listing (no install location, or
 * `listFiles()` gives null) and when the matcher throws its
 * NullPointerException because `osgi.bundles` is not set. A start's
 * exceptions other than BundleException are not modelled.
 */
module Activator {
  import opened Wrappers
  import opened Host
  import opened StartLevel
  import opened Scanner
  import opened Reconcile
  import opened RefreshSet
  import opened Bootstrap

  /** The messages the run hands to the framework log. */
  datatype LogEntry =
    | CouldNotUninstall(bundle: Bundle)
    | CouldNotInstall(path: string)
    | CouldNotStart(location: string)
    | RunFailed

  /** The log entry a framework call leaves behind, if any. */
  function Reported(c: Call): seq<LogEntry>
  {
    match c
    case UninstallCall(b, ok) => if ok then [] else [CouldNotUninstall(b)]
    case StartCall(b, _, ok, after) => if !ok && HasResolvedBit(after) then [CouldNotStart(b.location)] else []
    case _ => []
  }

  function ReportedAll(cs: seq<Call>): seq<LogEntry>
    decreases |cs|
  {
    if cs == [] then [] else ReportedAll(cs[..|cs| - 1]) + Reported(cs[|cs| - 1])
  }

  lemma ReportedOne(c: Call)
    ensures ReportedAll([c]) == Reported(c)
  {
    assert [c][..0] == [];
  }

  lemma AppendAssoc<T>(a: seq<T>, b: seq<T>, c: seq<T>)
    ensures a + (b + c) == (a + b) + c
  {
  }

  lemma {:induction false} ReportedAllConcat(a: seq<Call>, b: seq<Call>)
    ensures ReportedAll(a + b) == ReportedAll(a) + ReportedAll(b)
    decreases |b|
  {
    if b == [] {
      assert a + b == a;
    } else {
      var init := b[..|b| - 1];
      assert (a + b)[..|a + b| - 1] == a + init;
      ReportedAllConcat(a, init);
    }
  }

  /** The trace is one uninstall call per bundle of `plan`, in order. */
  predicate UninstallsOf(cs: seq<Call>, plan: seq<Bundle>)
  {
    |cs| == |plan| && forall k :: 0 <= k < |cs| ==> cs[k].UninstallCall? && cs[k].bundle == plan[k]
  }

  /** What came of one attempted install: the framework's answer and whether its start level was set. */
  datatype InstallStep = InstallStep(path: string, result: Option<Bundle>, levelSet: bool)

  /** The attempt threw, from installBundle or from setStartLevel. */
  predicate Failed(s: InstallStep)
  {
    s.result.None? || !s.levelSet
  }

  /** The attempt failed and its catch block threw in turn, from the matcher. */
  predicate Aborts(s: InstallStep, osgiBundles: Option<string>, isWindows: bool)
  {
    Failed(s) && AutoStarted(s.path, osgiBundles, isWindows).None?
  }

  predicate Aborted(steps: seq<InstallStep>, osgiBundles: Option<string>, isWindows: bool)
  {
    |steps| > 0 && Aborts(steps[|steps| - 1], osgiBundles, isWindows)
  }

  /** Attempt k was made for `paths[k]`, and what it returned is located under `update@`. */
  predicate Attempts(steps: seq<InstallStep>, paths: seq<string>)
  {
    && |steps| <= |paths|
    && (forall k :: 0 <= k < |steps| ==> steps[k].path == paths[k])
    && (forall k :: 0 <= k < |steps| ==> steps[k].result.None? ==> !steps[k].levelSet)
    && (forall k :: 0 <= k < |steps| ==> steps[k].result.Some? ==> steps[k].result.value.location == UPDATE_PREFIX + steps[k].path)
  }

  /**
   * `steps` is the install loop over `paths`: a prefix of them, one attempt
   * each, every attempt but the last carried on past, and the loop cut short
   * only by an attempt that aborts.
   */
  predicate InstallRun(steps: seq<InstallStep>, paths: seq<string>, osgiBundles: Option<string>, isWindows: bool)
  {
    && Attempts(steps, paths)
    && (forall k :: 0 <= k < |steps| - 1 ==> !Aborts(steps[k], osgiBundles, isWindows))
    && (|steps| < |paths| ==> Aborted(steps, osgiBundles, isWindows))
  }

  /** The install loop after `i` turns, none of which aborted. */
  predicate InstallLoop(steps: seq<InstallStep>, paths: seq<string>, i: int, osgiBundles: Option<string>, isWindows: bool)
  {
    && |steps| == i <= |paths|
    && Attempts(steps, paths)
    && forall k :: 0 <= k < i ==> !Aborts(steps[k], osgiBundles, isWindows)
  }

  lemma InstallLoopStep(steps: seq<InstallStep>, paths: seq<string>, i: int, osgiBundles: Option<string>, isWindows: bool, step: InstallStep)
    requires InstallLoop(steps, paths, i, osgiBundles, isWindows) && i < |paths|
    requires Attempts([step], [paths[i]]) && !Aborts(step, osgiBundles, isWindows)
    ensures InstallLoop(steps + [step], paths, i + 1, osgiBundles, isWindows)
  {
  }

  lemma InstallLoopAborts(steps: seq<InstallStep>, paths: seq<string>, i: int, osgiBundles: Option<string>, isWindows: bool, step: InstallStep)
    requires InstallLoop(steps, paths, i, osgiBundles, isWindows) && i < |paths|
    requires Attempts([step], [paths[i]]) && Aborts(step, osgiBundles, isWindows)
    ensures InstallRun(steps + [step], paths, osgiBundles, isWindows)
    ensures Aborted(steps + [step], osgiBundles, isWindows)
  {
  }

  lemma InstallLoopDone(steps: seq<InstallStep>, paths: seq<string>, osgiBundles: Option<string>, isWindows: bool)
    requires InstallLoop(steps, paths, |paths|, osgiBundles, isWindows)
    ensures InstallRun(steps, paths, osgiBundles, isWindows)
    ensures !Aborted(steps, osgiBundles, isWindows)
  {
  }

  /** The framework calls of one attempt: the install, then the start level of what it gave back. */
  function StepCalls(level: int, s: InstallStep): seq<Call>
  {
    [InstallCall(UPDATE_PREFIX + s.path, s.result)] +
    (if s.result.Some? then [SetStartLevelCall(s.result.value.id, level, s.levelSet)] else [])
  }

  function InstallCalls(level: int, steps: seq<InstallStep>): seq<Call>
    decreases |steps|
  {
    if steps == [] then []
    else InstallCalls(level, steps[..|steps| - 1]) + StepCalls(level, steps[|steps| - 1])
  }

  /** The bundles the install loop adds to the refresh list: every one installBundle gave back. */
  function Targets(steps: seq<InstallStep>): seq<Bundle>
    decreases |steps|
  {
    if steps == [] then []
    else
      var last := steps[|steps| - 1];
      Targets(steps[..|steps| - 1]) + (if last.result.Some? then [last.result.value] else [])
  }

  /** The report of one attempt: a failure is logged unless the bootstrap list provisions the path. */
  function StepReported(s: InstallStep, osgiBundles: Option<string>, isWindows: bool): seq<LogEntry>
  {
    if Failed(s) && AutoStarted(s.path, osgiBundles, isWindows) == Some(false) then [CouldNotInstall(s.path)] else []
  }

  function InstallLog(steps: seq<InstallStep>, osgiBundles: Option<string>, isWindows: bool): seq<LogEntry>
    decreases |steps|
  {
    if steps == [] then []
    else InstallLog(steps[..|steps| - 1], osgiBundles, isWindows) + StepReported(steps[|steps| - 1], osgiBundles, isWindows)
  }

  /** One more turn of the install loop extends each of its records by that turn's part. */
  lemma InstallLoopRecords(t: Table, calls: seq<Call>, log: seq<LogEntry>, refresh: seq<Bundle>, level: int,
                           steps: seq<InstallStep>, step: InstallStep, osgiBundles: Option<string>, isWindows: bool)
    ensures calls + InstallCalls(level, steps + [step]) == (calls + InstallCalls(level, steps)) + StepCalls(level, step)
    ensures Replay(t, InstallCalls(level, steps + [step])) == Replay(Replay(t, InstallCalls(level, steps)), StepCalls(level, step))
    ensures log + InstallLog(steps + [step], osgiBundles, isWindows)
              == (log + InstallLog(steps, osgiBundles, isWindows)) + StepReported(step, osgiBundles, isWindows)
    ensures refresh + Targets(steps + [step])
              == (refresh + Targets(steps)) + (if step.result.Some? then [step.result.value] else [])
  {
    assert (steps + [step])[..|steps|] == steps;
    AppendAssoc(calls, InstallCalls(level, steps), StepCalls(level, step));
    ReplayConcat(t, InstallCalls(level, steps), StepCalls(level, step));
    AppendAssoc(log, InstallLog(steps, osgiBundles, isWindows), StepReported(step, osgiBundles, isWindows));
    AppendAssoc(refresh, Targets(steps), if step.result.Some? then [step.result.value] else []);
  }

  /** The refresh request, skipped for an empty list, and the table it left. */
  function RefreshCalls(list: seq<Bundle>, after: seq<Bundle>): seq<Call>
  {
    if list == [] then [] else [RefreshCall(list, after)]
  }

  /** The bundles of a table that are RESOLVED, in table order. */
  function ResolvedOnes(bs: seq<Bundle>): seq<Bundle>
    decreases |bs|
  {
    if bs == [] then []
    else
      var last := bs[|bs| - 1];
      ResolvedOnes(bs[..|bs| - 1]) + (if last.state == Resolved then [last] else [])
  }

  /** The trace is one `start(START_ACTIVATION_POLICY)` call per bundle of `bs`, in order. */
  predicate StartsOf(cs: seq<Call>, bs: seq<Bundle>)
  {
    && |cs| == |bs|
    && forall k :: 0 <= k < |cs| ==>
         cs[k].StartCall? && cs[k].bundle == bs[k] && cs[k].options == START_ACTIVATION_POLICY
  }

  lemma StartsOfConcat(a: seq<Call>, doneBs: seq<Bundle>, b: seq<Call>, bs: seq<Bundle>)
    requires StartsOf(a, doneBs) && StartsOf(b, bs)
    ensures StartsOf(a + b, doneBs + bs)
  {
  }

  /**
   * The start loop after `i` turns over the table `all`, which now reads
   * `now`: only states changed, the bundles not yet visited are untouched,
   * and the RESOLVED ones among those visited were each offered to start.
   */
  predicate StartLoop(all: seq<Bundle>, now: seq<Bundle>, i: int, starts: seq<Call>)
  {
    && 0 <= i <= |all|
    && SameBundlesUpToState(all, now)
    && (forall k :: i <= k < |all| ==> now[k] == all[k])
    && StartsOf(starts, ResolvedOnes(all[..i]))
  }

  lemma StartLoopStep(all: seq<Bundle>, before: seq<Bundle>, after: seq<Bundle>, i: int, starts: seq<Call>, made: seq<Call>)
    requires StartLoop(all, before, i, starts) && i < |all|
    requires before[i].state == Resolved ==>
               |made| == 1 && made[0].StartCall? && made[0].bundle == before[i] && made[0].options == START_ACTIVATION_POLICY
    requires before[i].state != Resolved ==> made == []
    requires SameBundlesUpToState(before, after)
    requires forall k :: 0 <= k < |after| && k != i ==> after[k] == before[k]
    ensures StartLoop(all, after, i + 1, starts + made)
  {
    assert all[..i + 1][..i] == all[..i];
    var extra := if all[i].state == Resolved then [all[i]] else [];
    assert ResolvedOnes(all[..i + 1]) == ResolvedOnes(all[..i]) + extra;
    StartsOfConcat(starts, ResolvedOnes(all[..i]), made, extra);
  }

  /** What one run decided and what the framework answered, phase by phase. */
  datatype Run = Run(
    level: int,
    plugins: set<string>,
    plan: seq<Bundle>,
    uninstalls: seq<Call>,
    toInstall: seq<string>,
    steps: seq<InstallStep>,
    refreshList: seq<Bundle>,
    snapshot: seq<Bundle>,
    starts: seq<Call>)

  /** Each phase of `run` is the one its inputs call for, from the cached table and the listing. */
  ghost predicate RunMatches(run: Run, cached: seq<Bundle>, entries: seq<DirEntry>, osgiBundles: Option<string>, isWindows: bool)
  {
    var widened := Widen(run.plugins, isWindows);
    && run.plugins == Candidates(entries, isWindows)
    && run.plan == UninstallPlan(cached, widened, isWindows)
    && UninstallsOf(run.uninstalls, run.plan)
    && (forall p :: p in run.toInstall <==> p in InstallSet(cached, widened, isWindows))
    && NoDuplicates(run.toInstall)
    && InstallRun(run.steps, run.toInstall, osgiBundles, isWindows)
  }

  /** The framework calls of the uninstall and install phases. */
  function Phases(run: Run): seq<Call>
  {
    run.uninstalls + InstallCalls(run.level, run.steps)
  }

  /** The framework calls of a run that completes, in phase order. */
  function Trace(run: Run): seq<Call>
  {
    Phases(run) + RefreshCalls(run.refreshList, run.snapshot) + run.starts
  }

  class ConfigurationActivator {
    const context: Framework
    const isWindows: bool
    var log: seq<LogEntry>

    constructor (context: Framework, isWindows: bool)
      ensures this.context == context && this.isWindows == isWindows && log == []
    {
      this.context := context;
      this.isWindows := isWindows;
      log := [];
    }

    /** The uninstall loop: each stale bundle joins the refresh list, then is uninstalled; a failure is logged. */
    method UninstallStale(plan: seq<Bundle>, toRefresh: seq<Bundle>) returns (refresh: seq<Bundle>, ghost made: seq<Call>)
      requires context.Valid()
      modifies this, context
      ensures context.Valid()
      ensures refresh == toRefresh + plan
      ensures UninstallsOf(made, plan)
      ensures context.calls == old(context.calls) + made
      ensures context.Current() == Replay(old(context.Current()), made)
      ensures log == old(log) + ReportedAll(made)
    {
      refresh := toRefresh;
      made := [];
      var i := 0;
      while i < |plan|
        invariant 0 <= i <= |plan|
        invariant context.Valid()
        invariant refresh == toRefresh + plan[..i]
        invariant UninstallsOf(made, plan[..i])
        invariant context.calls == old(context.calls) + made
        invariant context.Current() == Replay(old(context.Current()), made)
        invariant log == old(log) + ReportedAll(made)
      {
        assert plan[..i + 1] == plan[..i] + [plan[i]];
        AppendAssoc(toRefresh, plan[..i], [plan[i]]);
        refresh := refresh + [plan[i]];
        var ok := context.Uninstall(plan[i]);
        var c := UninstallCall(plan[i], ok);
        assert (made + [c])[..|made|] == made;
        AppendAssoc(old(context.calls), made, [c]);
        ReplayAppend(old(context.Current()), made, c);
        AppendAssoc(old(log), ReportedAll(made), Reported(c));
        made := made + [c];
        if !ok {
          log := log + [CouldNotUninstall(plan[i])];
        }
        i := i + 1;
      }
      assert plan[..i] == plan;
    }

    /** One attempt: `installBundle("update@" + path, ...)`, then the start level of what it returned. */
    method Attempt(path: string, level: int) returns (step: InstallStep)
      requires context.Valid()
      modifies context
      ensures context.Valid()
      ensures step.path == path && Attempts([step], [path])
      ensures context.calls == old(context.calls) + StepCalls(level, step)
      ensures context.Current() == Replay(old(context.Current()), StepCalls(level, step))
    {
      ghost var t := context.Current();
      var target := context.Install(UPDATE_PREFIX + path);
      ghost var install := InstallCall(UPDATE_PREFIX + path, target);
      ReplayAppend(t, [], install);
      var levelSet := false;
      if target.Some? {
        levelSet := context.SetStartLevel(target.value.id, level);
        ReplayAppend(t, [install], SetStartLevelCall(target.value.id, level, levelSet));
      }
      step := InstallStep(path, target, levelSet);
    }

    /**
     * The catch block of one attempt: a failed attempt is logged unless the
     * bootstrap list provisions its path; `abort` is the matcher throwing.
     */
    method ReportFailure(step: InstallStep) returns (abort: bool)
      modifies this
      ensures abort <==> Aborts(step, context.GetProperty(OSGI_BUNDLES_PROPERTY), isWindows)
      ensures log == old(log) + StepReported(step, context.GetProperty(OSGI_BUNDLES_PROPERTY), isWindows)
    {
      abort := false;
      if Failed(step) {
        var auto := IsAutomaticallyStartedBundle(step.path, context.GetProperty(OSGI_BUNDLES_PROPERTY), isWindows);
        if auto.None? {
          return true;
        }
        if !auto.value {
          log := log + [CouldNotInstall(step.path)];
        }
      }
    }

    /**
     * The install loop: each path is installed under `update@`, joins the
     * refresh list, and gets the start level. A failure is logged unless the
     * bootstrap list provisions it; a matcher that throws ends the loop.
     */
    method InstallNew(paths: seq<string>, level: int, toRefresh: seq<Bundle>)
      returns (refresh: seq<Bundle>, aborted: bool, ghost steps: seq<InstallStep>)
      requires context.Valid()
      modifies this, context
      ensures context.Valid()
      ensures InstallRun(steps, paths, context.GetProperty(OSGI_BUNDLES_PROPERTY), isWindows)
      ensures aborted <==> Aborted(steps, context.GetProperty(OSGI_BUNDLES_PROPERTY), isWindows)
      ensures refresh == toRefresh + Targets(steps)
      ensures context.calls == old(context.calls) + InstallCalls(level, steps)
      ensures context.Current() == Replay(old(context.Current()), InstallCalls(level, steps))
      ensures log == old(log) + InstallLog(steps, context.GetProperty(OSGI_BUNDLES_PROPERTY), isWindows)
    {
      ghost var osgi := context.GetProperty(OSGI_BUNDLES_PROPERTY);
      refresh := toRefresh;
      aborted := false;
      steps := [];
      var i := 0;
      while i < |paths|
        invariant 0 <= i <= |paths|
        invariant context.Valid()
        invariant InstallLoop(steps, paths, i, osgi, isWindows)
        invariant refresh == toRefresh + Targets(steps)
        invariant context.calls == old(context.calls) + InstallCalls(level, steps)
        invariant context.Current() == Replay(old(context.Current()), InstallCalls(level, steps))
        invariant log == old(log) + InstallLog(steps, osgi, isWindows)
      {
        var path := paths[i];
        var step := Attempt(path, level);
        InstallLoopRecords(old(context.Current()), old(context.calls), old(log), toRefresh, level, steps, step, osgi, isWindows);
        if step.result.Some? {
          refresh := refresh + [step.result.value];
        }
        var abort := ReportFailure(step);
        ghost var done := steps;
        steps := steps + [step];
        if abort {
          InstallLoopAborts(done, paths, i, osgi, isWindows, step);
          aborted := true;
          return;
        }
        InstallLoopStep(done, paths, i, osgi, isWindows, step);
        i := i + 1;
      }
      InstallLoopDone(steps, paths, osgi, isWindows);
    }

    /** refreshPackages: nothing to do for an empty list; otherwise one refresh, awaited. */
    method RefreshPackages(list: seq<Bundle>)
      requires context.Valid()
      modifies context
      ensures context.Valid()
      ensures context.calls == old(context.calls) + RefreshCalls(list, context.bundles)
      ensures context.Current() == Replay(old(context.Current()), RefreshCalls(list, context.bundles))
      ensures SameBundlesUpToState(old(context.bundles), context.bundles)
    {
      if |list| == 0 {
        return;
      }
      context.Refresh(list);
      ReplayAppend(old(context.Current()), [], RefreshCall(list, context.bundles));
    }

    /**
     * One turn of the start loop, for the bundle at position `i` of the
     * table: it is started when its live state is RESOLVED, and a failure is
     * logged if it is still resolved afterwards. No other bundle changes.
     */
    method StartIfResolved(i: nat) returns (ghost made: seq<Call>)
      requires context.Valid() && i < |context.bundles|
      modifies this, context
      ensures context.Valid()
      ensures var b := old(context.bundles[i]);
                && (b.state == Resolved ==>
                      |made| == 1 && made[0].StartCall? && made[0].bundle == b && made[0].options == START_ACTIVATION_POLICY)
                && (b.state != Resolved ==> made == [])
      ensures context.calls == old(context.calls) + made
      ensures context.Current() == Replay(old(context.Current()), made)
      ensures log == old(log) + ReportedAll(made)
      ensures SameBundlesUpToState(old(context.bundles), context.bundles)
      ensures forall k :: 0 <= k < |context.bundles| && k != i ==> context.bundles[k] == old(context.bundles[k])
    {
      var bundle := context.bundles[i];
      StateInAt(context.bundles, i);
      made := [];
      if context.StateOf(bundle.id) == Resolved {
        ghost var c := StartAndReport(bundle);
        made := [c];
        ReportedOne(c);
        ReplayAppend(old(context.Current()), [], c);
      }
    }

    /** `bundle.start(START_ACTIVATION_POLICY)`, and the log line for a bundle still resolved after a failed start. */
    method StartAndReport(bundle: Bundle) returns (ghost c: Call)
      requires context.Valid()
      modifies this, context
      ensures context.Valid()
      ensures c.StartCall? && c.bundle == bundle && c.options == START_ACTIVATION_POLICY
      ensures context.calls == old(context.calls) + [c]
      ensures context.Current() == Apply(old(context.Current()), c)
      ensures log == old(log) + Reported(c)
      ensures SameBundlesUpToState(old(context.bundles), context.bundles)
      ensures forall k :: 0 <= k < |context.bundles| && context.bundles[k].id != bundle.id ==>
                context.bundles[k] == old(context.bundles[k])
    {
      var ok := context.Start(bundle, START_ACTIVATION_POLICY);
      var after := context.StateOf(bundle.id);
      c := StartCall(bundle, START_ACTIVATION_POLICY, ok, after);
      if !ok && HasResolvedBit(after) {
        log := log + [CouldNotStart(bundle.location)];
      }
    }

    /**
     * The start loop over `context.getBundles()`, taken once when the loop
     * begins: each bundle RESOLVED in that table is offered to start, in order.
     */
    method StartResolved() returns (ghost snapshot: seq<Bundle>, ghost starts: seq<Call>)
      requires context.Valid()
      modifies this, context
      ensures context.Valid()
      ensures snapshot == old(context.bundles)
      ensures StartsOf(starts, ResolvedOnes(snapshot))
      ensures context.calls == old(context.calls) + starts
      ensures context.Current() == Replay(old(context.Current()), starts)
      ensures log == old(log) + ReportedAll(starts)
      ensures SameBundlesUpToState(snapshot, context.bundles)
    {
      var all := context.bundles;
      snapshot := all;
      starts := [];
      var i := 0;
      assert all[..0] == [];
      while i < |all|
        invariant 0 <= i <= |all|
        invariant context.Valid()
        invariant StartLoop(all, context.bundles, i, starts)
        invariant context.calls == old(context.calls) + starts
        invariant context.Current() == Replay(old(context.Current()), starts)
        invariant log == old(log) + ReportedAll(starts)
      {
        ghost var before := context.bundles;
        ghost var made := StartIfResolved(i);
        StartLoopStep(all, before, context.bundles, i, starts, made);
        ReportedAllConcat(starts, made);
        AppendAssoc(old(context.calls), starts, made);
        ReplayConcat(old(context.Current()), starts, made);
        AppendAssoc(old(log), ReportedAll(starts), ReportedAll(made));
        starts := starts + made;
        i := i + 1;
      }
      assert all[..i] == all;
    }

    /**
     * The reconciliation phases of installBundles, from the listing to the end
     * of the install loop; `toRefresh` is the refresh list as they leave it.
     */
    method Reconcile(entries: seq<DirEntry>, startLevel: int, cachedBundles: seq<Bundle>)
      returns (toRefresh: seq<Bundle>, aborted: bool, ghost run: Run)
      requires context.Valid() && cachedBundles == context.bundles
      modifies this, context
      ensures context.Valid()
      ensures run.level == startLevel
      ensures RunMatches(run, cachedBundles, entries, context.GetProperty(OSGI_BUNDLES_PROPERTY), isWindows)
      ensures aborted <==> Aborted(run.steps, context.GetProperty(OSGI_BUNDLES_PROPERTY), isWindows)
      ensures toRefresh == Unresolved(cachedBundles) + run.plan + Targets(run.steps)
      ensures context.calls == old(context.calls) + Phases(run)
      ensures context.Current() == Replay(old(context.Current()), Phases(run))
      ensures log == old(log) + ReportedAll(run.uninstalls) + InstallLog(run.steps, context.GetProperty(OSGI_BUNDLES_PROPERTY), isWindows)
    {
      var plugins := ScanPlugins(entries, isWindows);
      toRefresh := GetUnresolvedBundles(context.bundles);
      var bundlesToUninstall, widened := GetBundlesToUninstall(cachedBundles, plugins, isWindows);
      ghost var uninstalls;
      toRefresh, uninstalls := UninstallStale(bundlesToUninstall, toRefresh);
      var bundlesToInstall := GetBundlesToInstall(cachedBundles, widened, isWindows);
      ghost var steps;
      toRefresh, aborted, steps := InstallNew(bundlesToInstall, startLevel, toRefresh);
      run := Run(startLevel, plugins, bundlesToUninstall, uninstalls, bundlesToInstall, steps, [], [], []);
      AppendAssoc(old(context.calls), uninstalls, InstallCalls(startLevel, steps));
      ReplayConcat(old(context.Current()), uninstalls, InstallCalls(startLevel, steps));
    }

    /**
     * The closing phases of a run that got through the install loop: prune,
     * refresh, start. The start loop works over `snapshot`, the table the
     * refresh left (the table on entry when there was nothing to refresh).
     */
    method Finish(toRefresh: seq<Bundle>, cachedBundles: seq<Bundle>)
      returns (refreshList: seq<Bundle>, ghost snapshot: seq<Bundle>, ghost starts: seq<Call>)
      requires context.Valid()
      modifies this, context
      ensures context.Valid()
      ensures refreshList == RemoveNamed(toRefresh, InitialSymbolicNames(cachedBundles))
      ensures refreshList == [] ==> snapshot == old(context.bundles)
      ensures SameBundlesUpToState(old(context.bundles), snapshot)
      ensures StartsOf(starts, ResolvedOnes(snapshot))
      ensures SameBundlesUpToState(snapshot, context.bundles)
      ensures context.calls == old(context.calls) + RefreshCalls(refreshList, snapshot) + starts
      ensures context.Current() == Replay(old(context.Current()), RefreshCalls(refreshList, snapshot) + starts)
      ensures log == old(log) + ReportedAll(starts)
    {
      refreshList := RemoveInitialBundles(toRefresh, cachedBundles);
      RefreshPackages(refreshList);
      snapshot, starts := StartResolved();
      AppendAssoc(old(context.calls), RefreshCalls(refreshList, snapshot), starts);
      ReplayConcat(old(context.Current()), RefreshCalls(refreshList, snapshot), starts);
    }

    /**
     * installBundles over one listing of the `plugins` directory: None when
     * there is no install location (`getInstallURL` throws) or `listFiles()`
     * gives null, either of which fails the run before anything changes.
     * Returns whether the run completed.
     */
    method InstallBundles(listing: Option<seq<DirEntry>>) returns (ok: bool, ghost run: Run)
      requires context.Valid()
      modifies this, context
      ensures context.Valid()
      ensures run.level >= 1 && IsStartLevelFor(context.GetProperty(START_LEVEL_PROPERTY), run.level)
      ensures listing.None? ==>
                && !ok
                && context.calls == old(context.calls) && context.Current() == old(context.Current())
                && log == old(log) + [RunFailed]
      ensures listing.Some? ==>
                && RunMatches(run, old(context.bundles), listing.value, context.GetProperty(OSGI_BUNDLES_PROPERTY), isWindows)
                && (ok <==> !Aborted(run.steps, context.GetProperty(OSGI_BUNDLES_PROPERTY), isWindows))
      ensures listing.Some? && !ok ==>
                && context.calls == old(context.calls) + Phases(run)
                && context.Current() == Replay(old(context.Current()), Phases(run))
                && log == old(log) + ReportedAll(run.uninstalls)
                          + InstallLog(run.steps, context.GetProperty(OSGI_BUNDLES_PROPERTY), isWindows) + [RunFailed]
      ensures ok ==>
                && run.refreshList == RemoveNamed(Unresolved(old(context.bundles)) + run.plan + Targets(run.steps),
                                                  InitialSymbolicNames(old(context.bundles)))
                && (run.refreshList == [] ==> run.snapshot == Replay(old(context.Current()), Phases(run)).bundles)
                && SameBundlesUpToState(Replay(old(context.Current()), Phases(run)).bundles, run.snapshot)
                && StartsOf(run.starts, ResolvedOnes(run.snapshot))
                && SameBundlesUpToState(run.snapshot, context.bundles)
                && context.calls == old(context.calls) + Trace(run)
                && context.Current() == Replay(old(context.Current()), Trace(run))
                && log == old(log) + ReportedAll(run.uninstalls)
                          + InstallLog(run.steps, context.GetProperty(OSGI_BUNDLES_PROPERTY), isWindows)
                          + ReportedAll(run.starts)
      ensures listing.Some? && context.GetProperty(OSGI_BUNDLES_PROPERTY).Some? ==> ok
    {
      var startLevel := DefaultStartLevel(context.GetProperty(START_LEVEL_PROPERTY));
      run := Run(startLevel, {}, [], [], [], [], [], [], []);
      var cachedBundles := context.bundles;
      if listing.None? {
        log := log + [RunFailed];
        return false, run;
      }
      var toRefresh, aborted;
      toRefresh, aborted, run := Reconcile(listing.value, startLevel, cachedBundles);
      if aborted {
        log := log + [RunFailed];
        return false, run;
      }
      ghost var reconciled := context.calls;
      var refreshList;
      ghost var snapshot, starts;
      refreshList, snapshot, starts := Finish(toRefresh, cachedBundles);
      run := run.(refreshList := refreshList, snapshot := snapshot, starts := starts);
      ghost var phases := Phases(run);
      ghost var refreshed := RefreshCalls(refreshList, snapshot);
      AppendAssoc(reconciled, refreshed, starts);
      AppendAssoc(phases, refreshed, starts);
      AppendAssoc(old(context.calls), phases, refreshed + starts);
      assert Trace(run) == phases + (refreshed + starts);
      ReplayConcat(old(context.Current()), phases, refreshed + starts);
      return true, run;
    }
  }
}
