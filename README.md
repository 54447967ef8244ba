# algernon startup decisions, in Dafny

This project models the startup decisions of algernon's `main()` (`main.go`). They take the settings `handleFlags` derived from the command line to one of two outcomes:

- an early exit: the version, a static Markdown file, a fatal error, or the slice-bounds panic of the removal pass over an extracted application's configuration list (`Exit.Panicked`);
- the call of `serve`, with the configuration record it is handed.

The settings are the `Flags` record. The answers of everything `main()` asks outside itself form the `World` record:

- `ioutil.TempDir`;
- `fs.isDir` and `fs.exists`;
- `unzip.Extract` and `getFilenames`;
- `aquirePermissions`;
- the log files;
- the outcome of each `runConfiguration`;
- `finalConfiguration`;
- `serve`.

The package-level variables that `main()` reassigns step by step are the fields of the class `Startup.Server`. So are the locals `perm` (as `permPresent`) and `ranServerReadyFunction`. Two further fields record effects:

- `trace`: what `main()` did to the outside, in order. That is serving a static file, extracting an archive, running a configuration or Lua server script, registering the default handlers, and calling `serve`.
- `shutdown`: the actions handed to `atShutdown`, in registration order.

Modules:

- `GoPath` (gopath.dfy): the few Go library functions the decisions rest on, for a Unix host. These are `filepath.Ext`, `filepath.Dir`, `filepath.Join`, ASCII `strings.ToLower`, and the "no `/` in the name" test.
- `ConfigNames` (confignames.dfy): the two passes over `serverConfigurationFilenames` after a ZIP/ALG application is extracted.
  - The append pass ranges over the list as it was when the loop started.
  - The removal pass deletes from the slice while ranging over it. It runs on an array that stands for the slice's backing store, with Go's index behaviour: the range keeps its original length while the slice shrinks.
  - The entry shifted into a deleted place is never examined. At an index past the shrunk length the loop reads a stale copy of the original last entry. If that entry is bare, then `s[i+1:]` with `i+1 > len(s)` is out of range, and the program panics.
  - Examples: `["a", "b"]` panics, and `["a", "b", "c/d"]` leaves `["b", "c/d"]`.
  - `RemovalAsWritten` gives the exact result of the pass, including the panic, and the model carries it through to `Exit.Panicked`.
- `ConfigLoop` (configloop.dfy): the configuration run loop. Every listed script that exists runs, in list order. A script error is fatal only when a permission backend is present. The names of the scripts that ran are recorded.
  - Recording follows the code at line 242, where the append comes after the error branch. So with no backend a script whose run failed is recorded too (`NoBackendRecordsFailedScript`). With a backend, the fatal exit comes before the append. The comments at main.go:245 and main.go:267 speak of keeping the active scripts and of scripts that ran successfully; the code keeps every existing script when there is no backend.
- `Startup` (startup.dfy): the state and the phases of `main()` from line 101 on.
  - The class `Server` holds the variables. Its methods perform the phases in source order: the server-root dispatch, the single-file defaults and the database backend, the pool registration, the Lua server adoption and the server log, the configuration scripts, exactly one handler path, the ready-flag fallback, the internal log and its fallback, and the `serve` configuration.
  - Each phase is also a function on `Run` values: how startup ended so far (if it did), the variables, the trace and the registry. `DispatchRun`, `PrepareRun`, `PoolRun`, `ScriptsRun`, `HandleRun`, and their compositions `StartupScriptsRun`, `ConfigureRun` and `LaunchRun`. Each chaining method of `Server` ensures that the state it leaves is exactly that function of the state before it.
- `Sequence` (sequence.dfy): `main()` as a whole.
  - `StartRun` is the preamble (the temporary directory, the version flag, the CPU profile file) followed by `LaunchRun` from the state `handleFlags` and the profile registrations leave. `Execute` computes it on a `Server` object.
  - `Start` is `main()`. Its contract is `StartRun` together with what the lemmas prove about it:
    - the shutdown registrations are always a prefix of CPU profile, heap profile, pool, internal log, and all of them once `serve` is reached;
    - there is exactly one handler step past the handler choice, and none before it;
    - a configuration script error is fatal only with a backend, and ends startup at that script;
    - each fatal cause happens exactly when its conditions hold;
    - the dispatch outcomes, the handler that serves, the `serve` configuration and the final modes;
    - `serve` is reached exactly when the conditions of `ServeConditions` hold.
  - The lemmas are proved first for any state after the dispatch (the `Configure...` lemmas), then for `StartRun`.

## Model

| member | source | states |
|---|---|---|
| GoPath.Ext | main.go:108 | filepath.Ext: the result is "" exactly when the final element has no dot; otherwise it is a suffix of the path that starts with a dot and contains no further dot or separator |
| GoPath.ExtOfName | main.go:108 | a name that ends in a well-formed extension has exactly that extension |
| GoPath.Bare | main.go:142 | a name is bare when it contains no separator, the test strings.Count(filepath.ToSlash(f), "/") == 0 on a Unix host; ConfigNames.SurvivorsDeleteOnlyBare and SurvivorsKeepSlashed state its role in the removal pass |
| GoPath.Lower | main.go:108 | strings.ToLower on ASCII keeps the length; GoPath.LowerLetters states what happens to each character |
| GoPath.LowerLetters | main.go:108 | each upper-case ASCII letter moves down by 32 and every other character is kept |
| GoPath.Dir | main.go:203 | filepath.Dir without Clean: "." for a name without a separator; "/" when the leading separator is the only one; otherwise the non-empty prefix of the path that is followed by its last separator and then a last element without one, so "//a" and "//" also give "/" |
| GoPath.Join | main.go:124 | filepath.Join of two non-empty parts is dir, then a separator right after it, then the name, so it contains a separator; with an empty dir it is the name, and with an empty name it is dir |
| ConfigNames.AppendExtracted | main.go:132-137 | the list after the append pass is the original list, unchanged, followed by the existing joined paths in the order of their originals |
| ConfigNames.JoinedEntries | main.go:132-137 | every appended entry exists and is Join(serverDir, f) for an original f; every original whose joined path exists is appended; there are at most as many appended entries as originals |
| ConfigNames.JoinedAppend | main.go:132-137 | the appended entries for a prefix of the originals come before those for the rest |
| ConfigNames.JoinedAreSlashed | main.go:133-134 | once the server directory contains a separator, every appended entry contains one |
| ConfigNames.RemoveBareNames | main.go:141-146 | the pass over the backing array gives exactly RemovalAsWritten: the survivors, or the slice-bounds panic when the last entry is bare and some deletion shifted an entry into place |
| ConfigNames.ShiftLeft | main.go:144 | append(s[:i], s[i+1:]...) shifts entries i+1 up to len-1 one place left in the backing array and leaves the rest unchanged |
| ConfigNames.SurvivorsDeleteOnlyBare | main.go:141-146 | the survivors are the original list with some positions removed, order kept, and every removed entry is bare |
| ConfigNames.SurvivorsKeepSlashed | main.go:141-146 | every entry that contains a separator survives, in its original order |
| ConfigNames.RemovalKeepsSlashedList | main.go:141-146 | a list without bare entries passes unchanged |
| ConfigNames.RemovalMayKeepBare | main.go:141-146 | the entry after a deleted one is skipped: ["a", "b", "c/d"] leaves the bare "b" |
| ConfigNames.RemovalPanicsOnTwoBareNames | main.go:141-146 | ["a", "b"] reads a stale bare copy past the shrunk length and panics on s[i+1:] |
| ConfigNames.ExtractedConfigurationsSurvive | main.go:132-146 | with a server directory that contains a separator and no panic, the separator-carrying originals and then every appended entry survive in order |
| ConfigLoop.Existing | main.go:229-230 | a name is among the existing names exactly when it is listed and exists |
| ConfigLoop.Pipeline | main.go:229-244 | the loop as a recursive definition; NoBackendRunsEveryExisting, BackendStopsAtFirstFailure and FatalIffBackendAndFailure state its meaning |
| ConfigLoop.RunScripts | main.go:228-246 | the loop gives Pipeline; when not fatal the recorded list is the existing names in list order; when fatal there is a backend, and the last script run failed and was not recorded |
| ConfigLoop.NoBackendRunsEveryExisting | main.go:234-242 | with no backend every existing script runs and is recorded in list order, including those whose run failed, and nothing is fatal |
| ConfigLoop.BackendStopsAtFirstFailure | main.go:234-238 | with a backend the first existing script that fails ends the loop: the earlier existing scripts ran and were recorded, it ran unrecorded, and no later script runs |
| ConfigLoop.FatalIffBackendAndFailure | main.go:234-240 | the loop is fatal if and only if a backend is present and some listed existing script fails |
| ConfigLoop.NoBackendRecordsFailedScript | main.go:234-242 | [A, B, C] with B failing: with no backend all three are recorded; with one, A and B run and only A is recorded |
| Startup.KindOfExtension | main.go:108-149 | the extension switch selects static Markdown, archive or single-file mode and nothing else |
| Startup.Classify | main.go:102-108 | the branch taken for serverDir by fs.isDir, fs.exists and the lower-cased extension; ClassifyCases and ClassifyByExtension state its meaning |
| Startup.ClassifyCases | main.go:102-108 | a directory is dispatched as a directory exactly when fs.isDir holds; the path is missing exactly when it is neither a directory nor an existing file; any other file goes by KindOfExtension of its lower-cased extension |
| Startup.ClassifyByExtension | main.go:102-108 | an existing non-directory is dispatched on the lower-cased extension of its name, so ".ZIP" selects the archive branch |
| Startup.ExtractedRoot | main.go:120-129 | the new server directory is the single extracted entry joined to the temporary directory exactly when there is one entry and that path is a directory, and the temporary directory otherwise; it contains a separator whenever the temporary directory does |
| Startup.DispatchRoot | main.go:102-153 | a missing path is fatal with its name, exactly for a missing path; Markdown is served statically, and only Markdown; a directory or a single file never stops and keeps the root and the list, and a single file sets single-file mode; extraction fails exactly for an archive that cannot be extracted, and an archive that extracts is handled as ExtractArchive says; a fatal dispatch does nothing and changes neither root nor list; only an extracted archive can panic; no handler step happens |
| Startup.ExtractArchive | main.go:118-146 | after extraction the root is ExtractedRoot, and the list is the result of both passes unless the removal pass panics |
| Startup.DispatchExits | main.go:101-153 | the dispatch ends main() only as a missing root, a served Markdown file, a failed extraction or the removal panic |
| Startup.HandlerEvent | main.go:249-261 | the step taken is a handler step, and it is the Lua server script exactly when luaServerFilename is set |
| Startup.ServeConfig | main.go:335-347 | the configuration record handed to serve: the flag values, plain HTTP as derived, and a shutdown timeout of 10 seconds; ConfigureServe and ServeRecord state which values reach it |
| Startup.ScriptFailure | main.go:229-240 | the exit of the script loop; Startup.ScriptFailureCases states its meaning |
| Startup.ScriptFailureCases | main.go:229-240 | the loop ends main() exactly when there is a backend and some listed existing script fails, and then with the script error of the first such script |
| Startup.DispatchRun | main.go:101-153 | DispatchRoot applied to the current variables; BeginDispatch and the Sequence lemmas state its meaning |
| Startup.PrepareRun | main.go:155-224 | the single-file defaults, the backend, the pool, the Lua adoption and the server log; PrepareRunOutcome states its meaning |
| Startup.PoolRun | main.go:185-224 | the pool registration, the Lua adoption and the server log; PrepareRunOutcome states its meaning |
| Startup.Moded | main.go:155-183 | the single-file defaults and the backend; Server.DeriveModes is proved to compute it and PrepareRunOutcome states its meaning |
| Startup.Adopt | main.go:198-205 | the Lua server adoption; Server.AdoptLuaServer is proved to compute it and PrepareRunOutcome and ConfigureHandler state its meaning |
| Startup.ScriptsRun | main.go:226-246 | the configuration loop on the current variables; ScriptsRunOutcome states its meaning |
| Startup.StartupScriptsRun | main.go:155-246 | PrepareRun, then ScriptsRun unless startup stopped; the Configure lemmas state its meaning |
| Startup.HandleRun | main.go:248-356 | every path from the handler choice ends main(); HandleRunOutcome states that it always ends past the handler choice, at a Lua error, the internal log or serve, and which one |
| Startup.ConfigureRun | main.go:155-356 | every path from the single-file defaults on ends main() |
| Startup.LaunchRun | main.go:101-356 | every path from the server-root dispatch on ends main() |
| Startup.Server.constructor | main.go:52 | the state starts as handleFlags left it, with no backend, no trace and no registrations |
| Startup.Server.AtShutdown | main.go:187-189 | registration appends the action to the registry |
| Startup.Server.ResolveServerRoot | main.go:101-153 | the new root, list, single-file flag, trace and exit are those DispatchRoot gives for the kind of the old root |
| Startup.Server.DispatchFile | main.go:106-149 | the switch on the lower-cased extension of an existing file has the effect DispatchRoot gives for that extension's kind |
| Startup.Server.ExtractApplication | main.go:118-146 | the extraction event, the new root and the rewritten list are those ExtractArchive gives |
| Startup.Server.DeriveModes | main.go:155-183 | single-file mode forces debug mode and plain HTTP; /dev/null disables the database; the backend is present exactly when the database is enabled and acquired; a failed acquisition is fatal |
| Startup.Server.AdoptLuaServer | main.go:198-205 | a single file with the case-sensitive extension ".lua" becomes the Lua server script, the root becomes its directory, and single-file mode is cleared; otherwise nothing changes |
| Startup.Server.RunConfigurations | main.go:226-246 | the scripts run as Pipeline says, and the list becomes the existing names unless a script is fatal; the exit is the first existing script that fails, when there is a backend, and nothing otherwise |
| Startup.Server.ChooseHandler | main.go:248-261 | exactly one handler step, the one HandlerEvent gives: the Lua server script, whose error is fatal whatever the backend, or the default handlers for the root |
| Startup.Server.MarkReady | main.go:265-274 | the server is ready when finalConfiguration says so or when no configuration script was recorded |
| Startup.Server.OpenInternalLog | main.go:283-298 | when the internal log does not open, the fallback's closing is registered, and a failing fallback is fatal |
| Startup.Server.OpenServerLog | main.go:185-224 | the pool is registered, the Lua server adoption applied, and an unopenable named server log is fatal: the state is exactly PoolRun of the state before |
| Startup.Server.PrepareScripts | main.go:155-224 | the exit, variables, trace and registry are exactly PrepareRun of the state before; PrepareRunOutcome states what that means |
| Startup.Server.RunStartupScripts | main.go:155-246 | the state is exactly StartupScriptsRun of the state before: PrepareRun, then ScriptsRun unless startup has stopped |
| Startup.Server.HandleAndServe | main.go:248-356 | the state is exactly HandleRun of the state before; HandleRunOutcome states what that means |
| Startup.Server.Configure | main.go:155-356 | the state is exactly ConfigureRun of the state before; the Configure lemmas state what that means |
| Startup.Server.Launch | main.go:101-356 | the state is exactly LaunchRun of the state before: the dispatch, then Configure unless the dispatch ended startup |
| Sequence.StartRun | main.go:38-356 | every path of main() ends; when the preamble does not pass, startup ends at the temporary directory, the version flag or the CPU profile file, with nothing done or registered and the variables as handleFlags left them |
| Sequence.PreambleOutcomes | main.go:44-67 | the temporary directory, the version flag and the CPU profile file each end main() exactly in the case the source checks, in that order |
| Sequence.LaunchEnds | main.go:101-356 | past the preamble, main() never ends with one of the preamble's exits |
| Sequence.EndsAtDispatch | main.go:101-153 | an exit that belongs neither to the preamble nor to main.go:155-356 is the one the dispatch gives, past the preamble |
| Sequence.NotPreambleExit | main.go:44-153 | proof helper, a case split over Exit: the exits of the dispatch and of main.go:155-356 are none of the preamble's |
| Sequence.Execute | main.go:38-356 | the outcome, trace, registry and final variables of main() on a Server object are exactly StartRun |
| Sequence.Start | main.go:38-356 | exactly StartRun, and with it: the preamble exits; the registry a prefix of CPU profile, heap profile, pool, internal log, and complete at serve; one handler step exactly when startup passed the handler choice; a script error fatal only with a backend and the last event; the dispatch exits; the serve configuration, final modes and handler; serve reached exactly under ServeConditions |
| Sequence.PrepareRunOutcome | main.go:155-224 | no backend is fatal exactly when a database is wanted and no backend is acquired; the server log is fatal exactly when the backend is settled, a log is named and it does not open; nothing else stops here; the pool is registered unless the backend is missing; the modes, and the Lua adoption of a single .lua file |
| Sequence.ScriptsRunOutcome | main.go:226-246 | a script ends startup exactly when a backend is present and some listed existing script fails; it is the first such script, which fails and ran last; otherwise the list becomes the existing names and nothing else changes |
| Sequence.HandleRunOutcome | main.go:248-356 | the step after the scripts is the handler HandlerEvent selects; a Lua error is fatal exactly when a Lua script is set and fails; the internal log is fatal exactly when neither it nor internal.log opens; serve is reached otherwise, with the record the settings give and the ready flag as MarkReady gives it; ServeFailed exactly when serve fails; the closing of the fallback is registered when the internal log does not open |
| Sequence.ConfigureRegistry | main.go:155-356 | from any state after the dispatch, the exit is one of this part's own; the registry gains at most the pool and the internal log, in that order, and both of them at serve; one handler step exactly when the handler choice was passed |
| Sequence.ConfigureEnds | main.go:155-356 | from any state after the dispatch, the exit is one of this part's own |
| Sequence.EarlyExit | main.go:155-246 | proof helper, a case split over Exit: no backend, the server log and a script error all come before the handler choice, and none is a Lua or internal-log error |
| Sequence.ConfigureScriptErrors | main.go:226-246 | from any state after the dispatch, a script error needs a backend and is the last event; without a backend neither the backend nor a script ends startup |
| Sequence.ConfigureHandler | main.go:198-261 | past the handler choice, the final Lua script and root are the Lua adoption of the state after the dispatch, and the handler step they select is in the trace |
| Sequence.ConfigureServe | main.go:155-356 | at serve, the serve record, debug mode, the backend flags, the recorded scripts (the existing ones) and the ready flag are those the earlier steps settle |
| Sequence.ConfigureServeCall | main.go:155-353 | at serve, the last event is the call of serve with the record the modes give, and debug mode follows single-file mode |
| Sequence.ConfigureServeSettings | main.go:155-274 | at serve, the backend flags are settled, the recorded scripts are the existing ones and the ready flag follows finalConfiguration or an empty list |
| Sequence.ConfigureEarlyFatalCauses | main.go:155-246 | no backend, the server log and a script error each end startup exactly when their conditions hold, and the script is the first existing one that fails |
| Sequence.ConfigureLateFatalCauses | main.go:248-298 | a Lua error and the internal log each end startup exactly when their conditions hold, including that nothing earlier stopped |
| Sequence.ConfigureLuaFailure | main.go:248-261 | a Lua error ends startup exactly when the earlier steps pass and the adopted Lua script is set and fails |
| Sequence.ConfigureInternalLogFailure | main.go:283-298 | the internal log ends startup exactly when the earlier steps and the Lua script pass and neither log file opens |
| Sequence.ConfigureReachesServeIff | main.go:155-356 | serve is reached exactly when the backend, the server log, the scripts, the Lua script and one of the internal logs all succeed; ServeFailed exactly when serve then fails |
| Sequence.BeginDispatch | main.go:101-153 | the dispatch from the state handleFlags leaves is the dispatch of the flags' server directory, and StartRun continues with ConfigureRun when it does not stop |
| Sequence.ProfileActionsBeginRegistry | main.go:62-89 | the profile registrations come first in the full registry |
| Sequence.RegistryInOrder | main.go:62-298 | the registry is always a prefix of CPU profile, heap profile, pool, internal log, and complete once serve is reached; exactly one handler step once startup passed the handler choice, none before |
| Sequence.ScriptErrorsNeedBackend | main.go:226-246 | a configuration script error ends startup only with a backend, at a failing script that ran last; with the database disabled neither the backend nor a script ends startup |
| Sequence.DispatchOutcomes | main.go:106-153 | past the preamble, a missing root is fatal with its name and a Markdown file is served statically and ends startup |
| Sequence.ArchiveOutcomes | main.go:114-146 | extraction fails exactly for an archive past the preamble that cannot be extracted; a panic happens only for an extracted archive |
| Sequence.ExtractionFailureEnds | main.go:114-117 | past the preamble, an archive that cannot be extracted ends main() with ExtractionFailed |
| Sequence.DispatchEndCause | main.go:114-146 | ExtractionFailed comes only from an archive past the preamble that cannot be extracted, and the panic only from an extracted one |
| Sequence.ArchiveExitsAreDispatchExits | main.go:114-146 | proof helper, a case split over Exit: ExtractionFailed and the panic are neither preamble exits nor exits of main.go:155-356 |
| Sequence.ServeRecord | main.go:155-353 | what reaches serve: the record with plain HTTP forced by single-file mode, debug mode likewise, the backend settled, the ready flag set when no script was recorded, the recorded scripts the existing ones for a root that is not an archive; past the handler choice the handler the Lua adoption selects |
| Sequence.ServeCall | main.go:155-353 | at serve, the last event is the call of serve with the record single-file mode gives; debug mode, the backend flags and the ready flag of an empty list |
| Sequence.ServeScripts | main.go:226-246 | at serve, a root that is not an archive has recorded exactly the listed scripts that exist |
| Sequence.ServeHandler | main.go:198-261 | past the handler choice, the handler is the one the Lua adoption of the dispatched root selects |
| Sequence.HandlerAfterDispatch | main.go:198-261 | proof helper: ConfigureHandler restated for a run whose variables are those a dispatch leaves: past the handler choice, the handler is the one the Lua adoption of that dispatch selects |
| Sequence.PastHandlersPassDispatch | main.go:101-261 | main() gets past the handler choice only after passing the preamble and a dispatch that carries on |
| Sequence.EarlyFatalCauses | main.go:155-246 | past the preamble: no backend, the server log and a script error each end main() exactly when their conditions hold, and the script is the first existing one that fails |
| Sequence.LateFatalCauses | main.go:248-298 | past the preamble: a Lua error and the internal log each end main() exactly when their conditions hold |
| Sequence.ReachesServeIff | main.go:38-356 | main() reaches serve exactly when it passes the preamble and ServeConditions hold of the dispatch; ServeFailed exactly when serve then fails |
| Sequence.BeforeHandlers | main.go:44-246 | proof helper, a case split over Exit: a preamble exit, or any exit before the handler choice, is neither serve returning nor ServeFailed |
| Sequence.ServesWhenEverythingSucceeds | main.go:38-356 | a directory or single file on which every step succeeds is served until serve returns |

## Left out

- `serve`, TLS and HTTP/2 selection, and the production-mode listeners are not part of this model. Only the configuration record built at main.go:337-347 and whether `serve` returned an error are modelled.
- The Lua state pool, `atShutdown`, `generateShutdownFunction` and the deferred cleanup are not modelled. Their effects appear only as entries in the shutdown registry and the trace.
- Goroutines, the REPL, channels and signal handling (main.go:68-71, 320-333) are left out: they concern concurrency, not the startup decisions.
- Logging, `fmt.Println` banners, `quietMode`/`verboseMode` output and closing stdout/stderr are left out: they are presentation only.
- `ioutil.TempDir`, `unzip.Extract`, `getFilenames`, `os.Create`, `os.OpenFile`, `os.Open`, `aquirePermissions`, `runConfiguration` and `finalConfiguration` are oracle answers in `World`. `handleFlags` is the `Flags` input.
- `initializeMime`, `NewFileStat` and `newFileCache` are left out: they answer no decision.
- `time.ParseDuration` and `EventServer` (main.go:304-318) are left out: they are library parsing and a background watcher that decide nothing later.
- Configuration scripts may change package-level variables (the comment at main.go:227), and `finalConfiguration` sets values that neither the flags nor the scripts set (main.go:263-264). The model assumes that neither changes the variables `main()` reads afterwards. `serverConfigurationFilenames`, `luaServerFilename`, `serverDir`, `serveJustHTTP`, `debugMode` and the rest of `Settings` keep the values the earlier steps gave them, so a script that sets `luaServerFilename` or `serveJustHTTP` is not captured.
- A script's outcome depends only on its file name: `World.failingScripts` is a set of names. A name listed twice fails both times or neither, and a script cannot succeed once and fail later.
- Two kinds of fatal exit are not told apart.
  - `TempDirFailed` (main.go:47), `CPUProfileUncreatable` (main.go:66), `ExtractionFailed` (main.go:117) and `NoDatabaseBackend` (main.go:181) come from `log.Fatal`/`log.Fatalln`. These exit at once without running any `atShutdown` action.
  - The other fatal causes go through `fatalExit` (main.go:151, 212, 237, 256, 296, 354), whose definition is not part of this model, so what it does before exiting is not modelled.
  - `shutdown` records what was registered, not what ran at exit.
- The `log.Fatal` inside the heap-profile action (main.go:84) runs at shutdown, after the decisions modelled here, and is left out.
- The oracles are fixed for one run. The model does not capture a file system that changes between two `fs.exists` calls.
- `serveStaticFile` internals are not modelled. Only its call and the return after it are.
- GoPath.Join: `filepath.Clean` is not applied, so paths with "..", "." or repeated separators are joined literally.
- GoPath.Dir: `filepath.Clean` is not applied to the result.
- GoPath.Lower: lower-cases ASCII letters only. Other Unicode case mappings are not modelled.
- Windows path separators are not modelled, and `filepath.ToSlash` is the identity.
- Warnings such as the "standalone server" warning for index.lua/data.lua (main.go:200-202) are left out: they are logging only.
