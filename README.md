# Equinox autoconfigurator: reconciliation and lifecycle core

This project models `ConfigurationActivator` from
`org.eclipse.equinox.autoconfigurator` in Dafny. At framework start the
activator compares the jars found under the install location's `plugins`
directory with the bundles it already installed under `update@` locations.
Then it:

1. uninstalls bundles whose jar is gone;
2. installs new jars, giving each the configured default start level;
3. refreshes every unresolved, uninstalled or newly installed bundle, except
   bundles whose symbolic name an `initial@` bundle also carries;
4. starts every bundle that is RESOLVED once the refresh has finished.

A per-bundle failure is skipped, and it is logged as follows:

- a failed uninstall is always logged;
- a failed install or start-level update is logged only when
  `isAutomaticallyStartedBundle` answers false for its path (CA.java:155-157);
- a start that throws a `BundleException` is logged only when the state read
  afterwards still has the RESOLVED bit (CA.java:169-171).

The run as a whole
fails, through the catch block at CA.java:177-180, in these modelled cases:

- a failed install whose `isAutomaticallyStartedBundle` check throws, because
  `osgi.bundles` is not set;
- no install location (`getInstallURL` throws, CA.java:386-387);
- a plugins directory that cannot be listed.

The last two happen before anything changes. A `start` that throws anything
other than a `BundleException` also fails the run; that case is listed under
"Left out".

The model is split into modules:

- `Wrappers`: the `Option` type.
- `Strings`: prefix, suffix and substring tests, ASCII lower-casing, Java
  `trim`, `indexOf`, and `File.getName` over `/` or `\` separators.
- `Host`: the OSGi framework seen from the activator. It is a class `Framework`
  holding:
  - the bundle table;
  - the start levels set so far;
  - the framework properties;
  - a trace of every `Call` issued.

  Uninstall, install, set start level, refresh and start each append one call.
  Their outcome is chosen nondeterministically, so every proof holds whatever
  the framework does within the contracts of `Host`. (That a start changes
  only its own bundle is an assumption, listed under "Left out".) Each also leaves the table, the start levels and the
  next id as `Apply` gives them for the call it recorded. A refresh or start
  call records the table or state it left, and a start call records its
  options. So `Replay` of a trace from the old table is the new table.
- `StartLevel`: the default start level (`Integer.parseInt` in 32 bits).
- `Scanner`: the candidate set built from the directory listing.
- `Reconcile`: `getBundlesToInstall`, `getBundlesToUninstall` and the Windows
  case widening.
- `RefreshSet`: `getUnresolvedBundles`, `getInitialSymbolicNames` and
  `removeInitialBundles`.
- `Bootstrap`: `isAutomaticallyStartedBundle`, the `osgi.bundles` tokenizer
  and its matcher.
- `Activator`: the class `ConfigurationActivator` with `installBundles` and
  `refreshPackages`. Its methods are proved against specification functions
  of the whole run: the calls issued (`Trace`), the table they leave
  (`Replay` of that trace), the log written, and the refresh list.
- `CleanRun`: suppose every uninstall of a run succeeded and every install
  returned a new bundle. Then the table after the install loop is the kept
  cache followed by the new bundles. After the refresh and the starts, the
  next run over the same listing plans nothing.

Two behaviours of the code are kept exactly as written.

- On Windows, `getBundlesToUninstall` adds the lower-cased form of every
  candidate to the same set that `getBundlesToInstall` then reads. So an
  uncached `plugins\A.jar` is installed twice, as `plugins\A.jar` and
  `plugins\a.jar`. See `Reconcile.WindowsInstallsBothCases` and
  `Reconcile.WidenedInstallTwins`.
- When `osgi.bundles` is missing, `new StringTokenizer(null, ",")` throws
  inside the catch block of a failed install. The exception escapes the
  install loop, and `installBundles` logs it and returns false. See
  `Bootstrap.MissingPropertyThrows` and two postconditions of
  `Activator.ConfigurationActivator.InstallBundles`. With a listing, one makes
  `ok` equivalent to the install loop not aborting. The other, for a listing
  and `!ok`, states the calls, the table and a log that ends in `RunFailed`.

An unlistable `plugins` directory could be read as an empty candidate set,
but the code does not do that, and the model follows the code. `listFiles()`
returns null, the for-each loop throws, and the run fails without
uninstalling anything. A missing install location has the same effect, so
both are the listing `None`.

## Model

All source paths below are in `org.eclipse.equinox.autoconfigurator/src/org/eclipse/equinox/autoconfigurator/ConfigurationActivator.java`, abbreviated `CA.java` in the prose; the table gives each path in full.

| member | source | states |
|---|---|---|
| StartLevel.DefaultStartLevel | org.eclipse.equinox.autoconfigurator/src/org/eclipse/equinox/autoconfigurator/ConfigurationActivator.java:80-90 | The level is always at least 1. It is the configured value exactly when `osgi.bundles.defaultStartLevel` parses as a 32-bit integer of at least 1, and 4 otherwise (missing, unparsable, zero or negative). |
| StartLevel.ParseIntDecimal | org.eclipse.equinox.autoconfigurator/src/org/eclipse/equinox/autoconfigurator/ConfigurationActivator.java:84 | Every non-negative 32-bit value written in decimal parses back to itself. |
| StartLevel.ConfiguredLevelIsUsed | org.eclipse.equinox.autoconfigurator/src/org/eclipse/equinox/autoconfigurator/ConfigurationActivator.java:82-84 | A property holding the decimal form of any n with 1 <= n <= 2^31-1 yields level n. |
| StartLevel.RejectedLevelsDefault | org.eclipse.equinox.autoconfigurator/src/org/eclipse/equinox/autoconfigurator/ConfigurationActivator.java:85-90 | The values "0", "-3" and "high" all give the default level 4. |
| Scanner.ScanPlugins | org.eclipse.equinox.autoconfigurator/src/org/eclipse/equinox/autoconfigurator/ConfigurationActivator.java:100-106 | A path is a candidate iff it is `plugins` + separator + the name of some listed regular file whose path ends in `.jar`. |
| Scanner.CandidatePathName | org.eclipse.equinox.autoconfigurator/src/org/eclipse/equinox/autoconfigurator/ConfigurationActivator.java:104 | Every candidate path starts with `plugins`, and after `plugins` and one separator it reads back the file name. |
| Reconcile.PrefixRoundTrip | org.eclipse.equinox.autoconfigurator/src/org/eclipse/equinox/autoconfigurator/ConfigurationActivator.java:150 | A bundle installed at `update@` + p that is neither the system bundle nor the configurator is managed, and stripping its prefix gives p back. |
| Reconcile.CachedPathsMembership | org.eclipse.equinox.autoconfigurator/src/org/eclipse/equinox/autoconfigurator/ConfigurationActivator.java:223-240 | The lookup set holds exactly the stripped locations of the managed cached bundles, plus their lower-cased forms on Windows. The system bundle, the configurator and non-`update@` bundles contribute nothing. |
| Reconcile.GetBundlesToInstall | org.eclipse.equinox.autoconfigurator/src/org/eclipse/equinox/autoconfigurator/ConfigurationActivator.java:221-255 | The result lists, once each, exactly the members of `InstallSet` for the candidates it is given. |
| Reconcile.InstallSetMembership | org.eclipse.equinox.autoconfigurator/src/org/eclipse/equinox/autoconfigurator/ConfigurationActivator.java:242-253 | p is installed iff it is a candidate, does not contain the configurator's name, and differs from every managed bundle's stripped location (on Windows, also after lower-casing both sides). |
| Reconcile.GetBundlesToUninstall | org.eclipse.equinox.autoconfigurator/src/org/eclipse/equinox/autoconfigurator/ConfigurationActivator.java:257-286 | It returns the candidate set widened by lower-cased forms (on Windows only), and the cached managed bundles that are stale against that set, in table order. |
| Reconcile.UninstallPlanMembership | org.eclipse.equinox.autoconfigurator/src/org/eclipse/equinox/autoconfigurator/ConfigurationActivator.java:267-284 | A bundle is in the plan iff it is cached, managed, and stale against the set it is checked against. |
| Reconcile.UninstallMembership | org.eclipse.equinox.autoconfigurator/src/org/eclipse/equinox/autoconfigurator/ConfigurationActivator.java:257-286 | Against the widened set, a bundle is uninstalled iff it is cached, managed, and no candidate equals its stripped location (on Windows, also case-insensitively). |
| Reconcile.UninstallSparesUnmanaged | org.eclipse.equinox.autoconfigurator/src/org/eclipse/equinox/autoconfigurator/ConfigurationActivator.java:268-275 | The system bundle, the configurator itself and bundles not under `update@` are never uninstalled. |
| Reconcile.PlanDisjoint | org.eclipse.equinox.autoconfigurator/src/org/eclipse/equinox/autoconfigurator/ConfigurationActivator.java:245-253 | No uninstalled bundle's path is reinstalled in the same run. |
| Reconcile.KeptMembership | org.eclipse.equinox.autoconfigurator/src/org/eclipse/equinox/autoconfigurator/ConfigurationActivator.java:278-283 | The bundles left installed are exactly the cached bundles that are not stale. |
| Reconcile.ReconcileIdempotent | org.eclipse.equinox.autoconfigurator/src/org/eclipse/equinox/autoconfigurator/ConfigurationActivator.java:126-159 | Take the kept cache followed by one `update@` bundle per planned path. A second run over the same candidates installs nothing and uninstalls nothing on that table. |
| Reconcile.WidenedInstallTwins | org.eclipse.equinox.autoconfigurator/src/org/eclipse/equinox/autoconfigurator/ConfigurationActivator.java:259-263 | On Windows, the lower-cased twin of every installed candidate is installed too, because the widened set is what `getBundlesToInstall` reads. |
| Reconcile.WindowsInstallsBothCases | org.eclipse.equinox.autoconfigurator/src/org/eclipse/equinox/autoconfigurator/ConfigurationActivator.java:126-141 | On Windows, with nothing cached, a mixed-case candidate p is installed as both p and its lower-case form. |
| Reconcile.CaseSensitivePathsDiffer | org.eclipse.equinox.autoconfigurator/src/org/eclipse/equinox/autoconfigurator/ConfigurationActivator.java:245-281 | Off Windows, a candidate differing from the managed bundle's path (even only in case) is installed, and that bundle is uninstalled. |
| Reconcile.NewCandidateInstalled | org.eclipse.equinox.autoconfigurator/src/org/eclipse/equinox/autoconfigurator/ConfigurationActivator.java:242-279 | A cached path stays installed; a new candidate beside it is the only install. |
| Reconcile.DroppedCandidateUninstalled | org.eclipse.equinox.autoconfigurator/src/org/eclipse/equinox/autoconfigurator/ConfigurationActivator.java:265-285 | Of two managed bundles, the one whose jar is gone is the only uninstall, and nothing is installed. |
| RefreshSet.GetUnresolvedBundles | org.eclipse.equinox.autoconfigurator/src/org/eclipse/equinox/autoconfigurator/ConfigurationActivator.java:212-219 | It returns the INSTALLED bundles of the table, in table order. |
| RefreshSet.UnresolvedMembership | org.eclipse.equinox.autoconfigurator/src/org/eclipse/equinox/autoconfigurator/ConfigurationActivator.java:215-217 | A bundle is listed iff it is in the table with state INSTALLED. |
| RefreshSet.GetInitialSymbolicNames | org.eclipse.equinox.autoconfigurator/src/org/eclipse/equinox/autoconfigurator/ConfigurationActivator.java:199-210 | It returns, in table order, the non-null symbolic names of the cached bundles whose location starts with `initial@`. |
| RefreshSet.InitialNamesMembership | org.eclipse.equinox.autoconfigurator/src/org/eclipse/equinox/autoconfigurator/ConfigurationActivator.java:201-207 | A name is listed iff some cached `initial@` bundle carries it. |
| RefreshSet.RemoveInitialBundles | org.eclipse.equinox.autoconfigurator/src/org/eclipse/equinox/autoconfigurator/ConfigurationActivator.java:184-197 | The list keeps, in order, exactly the bundles whose symbolic name is not one of the initial names. |
| RefreshSet.RemoveNamedMembership | org.eclipse.equinox.autoconfigurator/src/org/eclipse/equinox/autoconfigurator/ConfigurationActivator.java:187-195 | A bundle survives iff it was in the list and its name is not among the names removed. |
| RefreshSet.RemoveNamedConcat | org.eclipse.equinox.autoconfigurator/src/org/eclipse/equinox/autoconfigurator/ConfigurationActivator.java:186-196 | Removal works element by element, so it distributes over concatenation. |
| RefreshSet.BootstrapExclusion | org.eclipse.equinox.autoconfigurator/src/org/eclipse/equinox/autoconfigurator/ConfigurationActivator.java:184-210 | A bundle leaves the refresh list iff it has a symbolic name that some cached `initial@` bundle also has. |
| Bootstrap.TokensAreTokens | org.eclipse.equinox.autoconfigurator/src/org/eclipse/equinox/autoconfigurator/ConfigurationActivator.java:347-349 | Every token the tokenizer hands out is non-empty and free of commas. |
| Bootstrap.TokensJoin | org.eclipse.equinox.autoconfigurator/src/org/eclipse/equinox/autoconfigurator/ConfigurationActivator.java:347-349 | Tokenizing a comma-joined list of tokens gives that list back. |
| Bootstrap.IsAutomaticallyStartedBundle | org.eclipse.equinox.autoconfigurator/src/org/eclipse/equinox/autoconfigurator/ConfigurationActivator.java:342-362 | The loop returns `AutoStarted`: true for a path naming `org.eclipse.osgi`. Otherwise there is no answer (the NPE) when `osgi.bundles` is unset, and else whether some normalised token matches. |
| Bootstrap.MatchesToken | org.eclipse.equinox.autoconfigurator/src/org/eclipse/equinox/autoconfigurator/ConfigurationActivator.java:349-359 | One token, trimmed and cut at its first '@', matches when it is a `reference:file:` path whose file name the path contains, or when the path contains it. |
| Bootstrap.CoreBundleAlwaysProvisioned | org.eclipse.equinox.autoconfigurator/src/org/eclipse/equinox/autoconfigurator/ConfigurationActivator.java:343-344 | A path naming `org.eclipse.osgi` is provisioned whatever `osgi.bundles` holds, even when it is unset. |
| Bootstrap.MissingPropertyThrows | org.eclipse.equinox.autoconfigurator/src/org/eclipse/equinox/autoconfigurator/ConfigurationActivator.java:346-347 | With `osgi.bundles` unset, every other path makes the matcher throw. |
| Bootstrap.BlankTokenMatchesAll | org.eclipse.equinox.autoconfigurator/src/org/eclipse/equinox/autoconfigurator/ConfigurationActivator.java:349-358 | A token that trims to nothing, or to a bare `@level`, matches every path. |
| Bootstrap.EmptyListMatchesNothing | org.eclipse.equinox.autoconfigurator/src/org/eclipse/equinox/autoconfigurator/ConfigurationActivator.java:348-361 | An empty `osgi.bundles` provisions nothing but the framework itself. |
| Bootstrap.FileNameOfPath | org.eclipse.equinox.autoconfigurator/src/org/eclipse/equinox/autoconfigurator/ConfigurationActivator.java:354 | The file name of `dir/name` is `name`. |
| Bootstrap.ReferenceTokenNormalizes | org.eclipse.equinox.autoconfigurator/src/org/eclipse/equinox/autoconfigurator/ConfigurationActivator.java:349-352 | Normalising `reference:file:path@level` gives `reference:file:path`. |
| Bootstrap.ReferenceTokenMatchesByName | org.eclipse.equinox.autoconfigurator/src/org/eclipse/equinox/autoconfigurator/ConfigurationActivator.java:348-357 | A single `reference:file:path@level` entry provisions every candidate path that contains the last name of `path`. |
| Bootstrap.ListedTokenProvisions | org.eclipse.equinox.autoconfigurator/src/org/eclipse/equinox/autoconfigurator/ConfigurationActivator.java:348-360 | One matching token anywhere in the list is enough for a true answer. |
| Host.ResolvedBitIsResolved | org.eclipse.equinox.autoconfigurator/src/org/eclipse/equinox/autoconfigurator/ConfigurationActivator.java:170 | Of the bundle states, only RESOLVED has the RESOLVED bit (0x04) set. |
| Host.Framework.Uninstall | org.eclipse.equinox.autoconfigurator/src/org/eclipse/equinox/autoconfigurator/ConfigurationActivator.java:134 | `bundle.uninstall()` either removes exactly that bundle, which was in the table, or throws and changes nothing. Either way the call is recorded and the new table is `Apply` of it. |
| Host.Framework.Install | org.eclipse.equinox.autoconfigurator/src/org/eclipse/equinox/autoconfigurator/ConfigurationActivator.java:150 | `installBundle` either throws and changes nothing, or returns a bundle at the given location. A returned bundle already in the table changes nothing. Otherwise no listed bundle had that location, and the new bundle has the next id and state INSTALLED and is appended. |
| Host.Framework.SetStartLevel | org.eclipse.equinox.autoconfigurator/src/org/eclipse/equinox/autoconfigurator/ConfigurationActivator.java:153 | The start level is recorded for that bundle only when the call succeeds; nothing else changes. |
| Host.Framework.Refresh | org.eclipse.equinox.autoconfigurator/src/org/eclipse/equinox/autoconfigurator/ConfigurationActivator.java:301-323 | A refresh keeps the same bundles in the same order; only their states change. The call records the table left. |
| Host.Framework.Start | org.eclipse.equinox.autoconfigurator/src/org/eclipse/equinox/autoconfigurator/ConfigurationActivator.java:168 | `start(options)` records its options and the state the bundle is left in. Only that bundle's state may change. |
| Activator.ConfigurationActivator.UninstallStale | org.eclipse.equinox.autoconfigurator/src/org/eclipse/equinox/autoconfigurator/ConfigurationActivator.java:128-138 | Every planned bundle joins the refresh list, in order, whether or not its uninstall succeeds. One uninstall is issued per planned bundle, each failure is logged, and the table is the replay of those calls. |
| Activator.ConfigurationActivator.Attempt | org.eclipse.equinox.autoconfigurator/src/org/eclipse/equinox/autoconfigurator/ConfigurationActivator.java:150-153 | An install under `update@` + path is issued, and the start level is set only on a bundle the install returned. The table is the replay of those calls. |
| Activator.ConfigurationActivator.ReportFailure | org.eclipse.equinox.autoconfigurator/src/org/eclipse/equinox/autoconfigurator/ConfigurationActivator.java:155-157 | A failed attempt aborts the run iff the matcher throws. It is logged iff the matcher answers false. |
| Activator.ConfigurationActivator.InstallNew | org.eclipse.equinox.autoconfigurator/src/org/eclipse/equinox/autoconfigurator/ConfigurationActivator.java:143-159 | Paths are attempted in order. Every bundle an install returned joins the refresh list, even when its start level fails to set. The loop stops early exactly at the first failure whose matcher throws. The table is the replay of its calls. |
| Activator.ConfigurationActivator.RefreshPackages | org.eclipse.equinox.autoconfigurator/src/org/eclipse/equinox/autoconfigurator/ConfigurationActivator.java:295-324 | An empty list issues no refresh and changes nothing. Otherwise exactly one refresh of that list is issued, recording the table it left. The table keeps its bundles. |
| Activator.ConfigurationActivator.StartIfResolved | org.eclipse.equinox.autoconfigurator/src/org/eclipse/equinox/autoconfigurator/ConfigurationActivator.java:165-173 | A bundle is started with START_ACTIVATION_POLICY iff its live state is RESOLVED; nothing is issued otherwise. No other bundle changes, and the table is the replay of what was issued. |
| Activator.ConfigurationActivator.StartAndReport | org.eclipse.equinox.autoconfigurator/src/org/eclipse/equinox/autoconfigurator/ConfigurationActivator.java:166-172 | The bundle is started with START_ACTIVATION_POLICY. A failed start is logged only when the state read after it still has the RESOLVED bit. |
| Activator.ConfigurationActivator.StartResolved | org.eclipse.equinox.autoconfigurator/src/org/eclipse/equinox/autoconfigurator/ConfigurationActivator.java:164-175 | Exactly the bundles RESOLVED in the table taken when the loop begins are started, in table order, each with START_ACTIVATION_POLICY. |
| Activator.ConfigurationActivator.Reconcile | org.eclipse.equinox.autoconfigurator/src/org/eclipse/equinox/autoconfigurator/ConfigurationActivator.java:124-159 | The refresh list is the unresolved bundles, then every planned uninstall, then every installed bundle. The plan and the install set are those of `getBundlesToUninstall` and `getBundlesToInstall` over the widened candidates. The table is the replay of the uninstall and install calls. |
| Activator.ConfigurationActivator.Finish | org.eclipse.equinox.autoconfigurator/src/org/eclipse/equinox/autoconfigurator/ConfigurationActivator.java:161-175 | The initial bundles are removed from the refresh list before it is refreshed. The start loop works over the table the refresh recorded, or over the table on entry when nothing was refreshed. |
| Activator.ConfigurationActivator.InstallBundles | org.eclipse.equinox.autoconfigurator/src/org/eclipse/equinox/autoconfigurator/ConfigurationActivator.java:78-182 | The run succeeds iff the directory lists and no failed install's matcher throws. On success the host sees uninstalls, then installs with their start levels, then at most one refresh, then starts over the table the refresh left. The table is the replay of that trace. A failed listing changes nothing. With `osgi.bundles` set and a listing, the run always succeeds. |
| Activator.ReportedAllConcat | org.eclipse.equinox.autoconfigurator/src/org/eclipse/equinox/autoconfigurator/ConfigurationActivator.java:128-173 | The log of a sequence of calls is the logs of its parts, concatenated. |
| Activator.StartsOfConcat | org.eclipse.equinox.autoconfigurator/src/org/eclipse/equinox/autoconfigurator/ConfigurationActivator.java:164-175 | Start traces for consecutive runs of the table concatenate. |
| Activator.InstallLoopAborts | org.eclipse.equinox.autoconfigurator/src/org/eclipse/equinox/autoconfigurator/ConfigurationActivator.java:155-180 | A failed attempt whose matcher throws ends the install loop with an aborted run. |
| Activator.InstallLoopDone | org.eclipse.equinox.autoconfigurator/src/org/eclipse/equinox/autoconfigurator/ConfigurationActivator.java:143-159 | A loop that reaches the end of the paths has attempted each one and has not aborted. |
| Host.ReplayConcat | org.eclipse.equinox.autoconfigurator/src/org/eclipse/equinox/autoconfigurator/ConfigurationActivator.java:126-175 | Replaying two consecutive stretches of calls is replaying the whole trace. |
| Host.WithoutIdsTwice | org.eclipse.equinox.autoconfigurator/src/org/eclipse/equinox/autoconfigurator/ConfigurationActivator.java:128-138 | Removing one set of ids and then another removes their union. |
| Host.RemoveAtIsWithout | org.eclipse.equinox.autoconfigurator/src/org/eclipse/equinox/autoconfigurator/ConfigurationActivator.java:134 | In a table with distinct ids, cutting out one position removes exactly the bundles with that id. |
| Scanner.CandidatePathInjective | org.eclipse.equinox.autoconfigurator/src/org/eclipse/equinox/autoconfigurator/ConfigurationActivator.java:104 | Two file names give the same candidate path iff they are equal. |
| Reconcile.UninstallPlanDistinct | org.eclipse.equinox.autoconfigurator/src/org/eclipse/equinox/autoconfigurator/ConfigurationActivator.java:265-285 | In a table with distinct ids, the plan has no repeated bundle and no repeated id. |
| Reconcile.ReconcileIgnoresStates | org.eclipse.equinox.autoconfigurator/src/org/eclipse/equinox/autoconfigurator/ConfigurationActivator.java:221-286 | Tables that differ only in bundle states get the same lookup set, the same install set and the same uninstall plan up to states. |
| Activator.InstallLoopRecords | org.eclipse.equinox.autoconfigurator/src/org/eclipse/equinox/autoconfigurator/ConfigurationActivator.java:143-159 | One more turn of the install loop extends the calls, the table replay, the log and the refresh list by that turn's part. |
| CleanRun.CleanUninstallsExclude | org.eclipse.equinox.autoconfigurator/src/org/eclipse/equinox/autoconfigurator/ConfigurationActivator.java:128-138 | Successful uninstalls of the planned bundles leave the table without their ids. |
| CleanRun.PlanExclusionIsKept | org.eclipse.equinox.autoconfigurator/src/org/eclipse/equinox/autoconfigurator/ConfigurationActivator.java:265-285 | Removing the ids of the plan from a table with distinct ids leaves exactly the kept bundles, in order. |
| CleanRun.FreshInstallsAppend | org.eclipse.equinox.autoconfigurator/src/org/eclipse/equinox/autoconfigurator/ConfigurationActivator.java:143-153 | Installs that each return a new bundle append those bundles to the table in install order. |
| CleanRun.TargetsMembership | org.eclipse.equinox.autoconfigurator/src/org/eclipse/equinox/autoconfigurator/ConfigurationActivator.java:150-152 | The refresh list's installed part holds exactly the bundles the installs returned. |
| CleanRun.AnsweredAttemptsCover | org.eclipse.equinox.autoconfigurator/src/org/eclipse/equinox/autoconfigurator/ConfigurationActivator.java:143-153 | After a full install loop where every install returned a bundle, each returned bundle sits at `update@` + a planned path, and every planned path has one. |
| CleanRun.CleanPhasesTable | org.eclipse.equinox.autoconfigurator/src/org/eclipse/equinox/autoconfigurator/ConfigurationActivator.java:124-159 | Suppose every uninstall succeeded and every install returned a new bundle. Then the table after the install loop is the kept cache followed by the new bundles. |
| CleanRun.CleanRunSettles | org.eclipse.equinox.autoconfigurator/src/org/eclipse/equinox/autoconfigurator/ConfigurationActivator.java:124-175 | After such a run, the table left by the refresh and the starts, on which the next run reconciles, gets an empty install set and an empty uninstall plan. |

## Left out

- The wait/notify barrier of `refreshPackages` (CA.java:299-323) is one `Refresh` step after which the table holds the refreshed states. Concurrency and the interrupt loop are not modelled. Event types other than PACKAGES_REFRESHED are not modelled either.
- A null `FrameworkWiring` (CA.java:302) would make the real code wait for ever. The model's refresh always returns.
- The install location (`getInstallURL`, the `Location` service tracker) and directory listing are replaced by a parameter. That parameter is the listing of `plugins` as file entries. It is None when `getInstallURL` throws for a missing location (CA.java:386-387) or `listFiles()` returns null; both fail the run before anything changes.
- Host.Framework.Start: `bundle.start` can only throw a `BundleException` (absorbed per bundle) in the model. An `IllegalStateException` or `SecurityException` from `start` escapes the catch at CA.java:169 and fails the run through CA.java:177-180, leaving the remaining bundles unstarted. That path is not modelled, so Activator.ConfigurationActivator.InstallBundles does not promise it.
- `new URL(...).openStream()` is folded into `Install`: a failure to open the stream is an install that throws.
- `loadOptions`, `acquireFrameworkLogService`, `debug`, the `DEBUG` flag and `stop` are service plumbing and are not modelled. The log is a sequence of entries without message texts or exceptions.
- The model assumes a `FrameworkLog` service is registered. Without one, `acquireFrameworkLogService` leaves `log` null (CA.java:397-401). The first `log(...)` call then throws a NullPointerException (CA.java:409), including the one inside the outer catch at CA.java:179.
- `isWindows` comes from `os.name` at class load. Here it is a constructor parameter.
- `getBundlesToUninstall` adds to the set it iterates over, which could throw ConcurrentModificationException in a real `HashSet`. The model treats it as a union, as if the iteration completed.
- Strings.Lower: only ASCII `A`–`Z` are lower-cased. Java's locale-dependent Unicode `toLowerCase` is not modelled.
- StartLevel.DefaultStartLevel: only ASCII digits are accepted. `Integer.parseInt` also accepts other Unicode decimal digits.
- Strings.FileName: `\` separates names only on Windows; drive prefixes such as `C:` and `File`'s path normalisation are not modelled.
- Reconcile.GetBundlesToInstall: the order of the result depends on `HashSet` iteration, so the model states only its members and that none repeats.
- Host.Framework.Start: starting a bundle is assumed to change only that bundle's state. Lazy activation of other bundles is not modelled; the START_ACTIVATION_POLICY option is recorded on the call but gives no activation semantics.
- CleanRun.CleanRunSettles: the new bundles are required not to be the system bundle or to carry the configurator's name. A bundle of either kind is not managed and would be planned again.
- Host.Framework.Install, Host.Framework.Uninstall, Host.Framework.Refresh: the real OSGi semantics are not modelled (resolution, wiring, events, bundle identity). Install and Uninstall may succeed or fail freely within their contracts. Refresh always completes, changing bundle states only.
- Host.Framework.Refresh: `frameworkWiring.refreshBundles` (CA.java:303) can throw a `SecurityException` or an `IllegalArgumentException`. `refreshPackages` does not catch it, so it fails the run through CA.java:177-180 before any bundle is started. That path is not modelled, so Activator.ConfigurationActivator.InstallBundles does not promise it.
