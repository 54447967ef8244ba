// main() as a whole (main.go:38-356): the preamble, then the phases of
// Startup in source order. StartRun is what main() does for given flags and
// oracles; Start computes it on a Server object, and the lemmas here state
// what the source promises about it.

module Sequence {
  import opened GoPath
  import opened ConfigLoop
  import opened Startup

  function Kind(f: Flags, w: World): RootKind {
    Classify(f.serverDir, w.dirs, w.files)
  }

  /** The run gets past the temporary directory, the version flag and the CPU profile file. */
  predicate PassesPreamble(f: Flags, w: World) {
    w.tempDir.Some? && !f.showVersion && (f.profileCPU != "" ==> w.cpuProfileCreatable)
  }

  /** Single-file mode as it stands after the server-root dispatch. */
  predicate SingleFileServed(f: Flags, w: World) {
    f.singleFileMode || Kind(f, w) == SingleFile
  }

  predicate NoDatabase(f: Flags) {
    f.useNoDatabase || f.boltFilename == "/dev/null"
  }

  /** Every shutdown action a complete startup registers, in registration order. */
  function Registry(f: Flags, w: World): seq<ShutdownAction> {
    ProfileActions(f) + [ShutdownPool] + (if w.internalLogOpens then [] else [CloseInternalLog])
  }

  /** The registrations made before the server root is resolved (main.go:62-89). */
  function ProfileActions(f: Flags): seq<ShutdownAction> {
    (if f.profileCPU != "" then [StopCPUProfile] else []) +
    (if f.profileMem != "" then [SaveHeapProfile] else [])
  }

  /** The state main.go:101 starts from: the variables handleFlags set and the profile registrations. */
  function Begin(f: Flags): Run {
    Run(None, Initial(f), [], ProfileActions(f))
  }

  /** The server-root dispatch of the flags' server directory. */
  function Dispatched(f: Flags, w: World, tempDir: string): Dispatch {
    DispatchRoot(Kind(f, w), f.serverDir, f.serverConfigurationFilenames, f.singleFileMode, tempDir, w)
  }

  /**
   * main(): the temporary directory, the version flag, the CPU profile file,
   * then main.go:101-356 from the state handleFlags and the profile
   * registrations leave.
   */
  function StartRun(f: Flags, w: World): (r: Run)
    ensures r.stop.Some?
    ensures !PassesPreamble(f, w) ==>
      r.trace == [] && r.shutdown == [] && r.vars == Initial(f) &&
      (r.stop.value == Fatal(TempDirFailed) || r.stop.value == ShowedVersion || r.stop.value == Fatal(CPUProfileUncreatable))
  {
    if w.tempDir.None? then Run(Some(Fatal(TempDirFailed)), Initial(f), [], [])
    else if f.showVersion then Run(Some(ShowedVersion), Initial(f), [], [])
    else if f.profileCPU != "" && !w.cpuProfileCreatable then Run(Some(Fatal(CPUProfileUncreatable)), Initial(f), [], [])
    else LaunchRun(f, w, w.tempDir.value, Begin(f))
  }

  /**
   * After the preamble and the dispatch `d`: the dispatch carries on, there
   * is a backend or none is wanted, the server log opens or none is named,
   * no listed existing script fails while a backend is present, the Lua
   * server script (if any) runs, and one of the two internal log files opens.
   */
  predicate ServeConditions(f: Flags, w: World, d: Dispatch) {
    var lua := LuaServer(d.singleFileMode, d.serverDir, f.luaServerFilename);
    d.stop.None? &&
    (NoDatabase(f) || w.permissionsAvailable) &&
    (f.serverLogFile == "" || w.serverLogOpens) &&
    (NoDatabase(f) || forall j :: 0 <= j < |d.names| ==> !(d.names[j] in w.files && d.names[j] in w.failingScripts)) &&
    !(lua != "" && w.luaServerFails) &&
    (w.internalLogOpens || w.fallbackLogOpens)
  }

  /** How main() ends. */
  function Outcome(f: Flags, w: World): Exit {
    StartRun(f, w).stop.value
  }

  /**
   * After a dispatch `d` that carries on: the Lua adoption applied to it,
   * and the handler step those values select, in the trace.
   */
  predicate ServedBy(f: Flags, d: Dispatch, luaServerFilename: string, serverDir: string, trace: seq<Event>) {
    luaServerFilename == LuaServer(d.singleFileMode, d.serverDir, f.luaServerFilename) &&
    serverDir == ServedDir(d.singleFileMode, d.serverDir) &&
    HandlerEvent(luaServerFilename, serverDir) in trace
  }

  /**
   * main() on a Server object: the preamble, the constructor standing for
   * the state handleFlags leaves, the profile registrations, then Launch.
   */
  method Execute(f: Flags, w: World) returns (exit: Exit, trace: seq<Event>, shutdown: seq<ShutdownAction>, final: Settings)
    ensures Run(Some(exit), final, trace, shutdown) == StartRun(f, w)
  {
    trace, shutdown := [], [];
    final := Initial(f);
    if w.tempDir.None? {
      return Fatal(TempDirFailed), trace, shutdown, final;
    }
    var serverTempDir := w.tempDir.value;
    if f.showVersion {
      return ShowedVersion, trace, shutdown, final;
    }
    var s := new Server(f);
    if f.profileCPU != "" {
      if !w.cpuProfileCreatable {
        return Fatal(CPUProfileUncreatable), s.trace, s.shutdown, s.Snapshot();
      }
      s.AtShutdown(StopCPUProfile);
    }
    if f.profileMem != "" {
      s.AtShutdown(SaveHeapProfile);
    }
    assert s.Now(None) == Begin(f);

    exit := s.Launch(f, w, serverTempDir);
    trace, shutdown, final := s.trace, s.shutdown, s.Snapshot();
  }

  /**
   * main(): the startup decisions in source order, ending in a call of serve.
   * Returns how main() ends, what it did outside, the atShutdown registry and
   * the final package-level state.
   */
  method Start(f: Flags, w: World) returns (exit: Exit, trace: seq<Event>, shutdown: seq<ShutdownAction>, final: Settings)
    ensures Run(Some(exit), final, trace, shutdown) == StartRun(f, w)
    // the preamble: temporary directory, version, CPU profile file
    ensures w.tempDir.None? ==> exit == Fatal(TempDirFailed) && trace == [] && shutdown == []
    ensures w.tempDir.Some? && f.showVersion ==> exit == ShowedVersion && trace == [] && shutdown == []
    ensures w.tempDir.Some? && !f.showVersion && f.profileCPU != "" && !w.cpuProfileCreatable ==>
      exit == Fatal(CPUProfileUncreatable) && trace == [] && shutdown == []
    // the registry grows in the fixed order CPU profile, heap profile, pool, internal log
    ensures shutdown <= Registry(f, w)
    ensures ReachedServe(exit) ==> shutdown == Registry(f, w)
    // exactly one handler path, and none when startup stops earlier
    ensures HandlerSteps(trace) == (if PastHandlers(exit) then 1 else 0)
    // a configuration script error is fatal only with a backend, and ends startup there
    ensures exit.Fatal? && exit.cause.ConfigurationScriptFailed? ==>
      !NoDatabase(f) && exit.cause.file in w.failingScripts &&
      |trace| > 0 && trace[|trace| - 1] == RanConfiguration(exit.cause.file, false)
    ensures NoDatabase(f) ==> exit != Fatal(NoDatabaseBackend) && !(exit.Fatal? && exit.cause.ConfigurationScriptFailed?)
    // server-root dispatch
    ensures PassesPreamble(f, w) && Kind(f, w) == Missing ==> exit == Fatal(FileDoesNotExist(f.serverDir))
    ensures PassesPreamble(f, w) && Kind(f, w) == StaticMarkdown ==>
      exit == StaticFileServed && trace == [ServedStaticFile(f.serverDir)]
    ensures exit == Fatal(ExtractionFailed) <==> PassesPreamble(f, w) && Kind(f, w) == Archive && !w.extractionSucceeds
    ensures exit == Panicked ==> Kind(f, w) == Archive && w.extractionSucceeds
    // what reaches serve, and which handler served
    ensures ReachedServe(exit) ==>
      |trace| > 0 && trace[|trace| - 1] == CalledServe(ServeConfig(f, f.serveJustHTTP || SingleFileServed(f, w))) &&
      final.debugMode == (f.debugMode || SingleFileServed(f, w)) &&
      final.useNoDatabase == NoDatabase(f) && final.permPresent == !NoDatabase(f) &&
      (|final.serverConfigurationFilenames| == 0 ==> final.ranServerReadyFunction)
    ensures ReachedServe(exit) && Kind(f, w) != Archive ==>
      final.serverConfigurationFilenames == Existing(f.serverConfigurationFilenames, w.files)
    ensures PastHandlers(exit) ==>
      w.tempDir.Some? && ServedBy(f, Dispatched(f, w, w.tempDir.value), final.luaServerFilename, final.serverDir, trace)
    // when serve is reached
    ensures ReachedServe(exit) <==> PassesPreamble(f, w) && ServeConditions(f, w, Dispatched(f, w, w.tempDir.value))
  {
    exit, trace, shutdown, final := Execute(f, w);
    RegistryInOrder(f, w);
    ScriptErrorsNeedBackend(f, w);
    DispatchOutcomes(f, w);
    ArchiveOutcomes(f, w);
    ServeRecord(f, w);
    ReachesServeIff(f, w);
  }

  // ---------------------------------------------------------------------
  // The phases
  // ---------------------------------------------------------------------

  /**
   * main.go:155-224: a missing backend is fatal exactly when one is wanted
   * and none can be had; an unopenable server log is fatal exactly when a
   * backend is settled and a log is named; the pool is registered once the
   * backend is settled; and a single .lua file becomes the Lua server script.
   */
  lemma PrepareRunOutcome(f: Flags, w: World, r: Run)
    ensures var a := PrepareRun(f, w, r);
      var noDatabase := r.vars.useNoDatabase || f.boltFilename == "/dev/null";
      (a.stop == Some(Fatal(NoDatabaseBackend)) <==> !noDatabase && !w.permissionsAvailable) &&
      (a.stop == Some(Fatal(ServerLogUnwritable)) <==>
         (noDatabase || w.permissionsAvailable) && f.serverLogFile != "" && !w.serverLogOpens) &&
      (a.stop.Some? ==> a.stop == Some(Fatal(NoDatabaseBackend)) || a.stop == Some(Fatal(ServerLogUnwritable)))
    ensures var a := PrepareRun(f, w, r);
      a.trace == r.trace &&
      a.shutdown == r.shutdown + (if a.stop == Some(Fatal(NoDatabaseBackend)) then [] else [ShutdownPool])
    ensures var a := PrepareRun(f, w, r); var v := r.vars;
      var noDatabase := v.useNoDatabase || f.boltFilename == "/dev/null";
      a.vars.debugMode == (v.debugMode || v.singleFileMode) &&
      a.vars.serveJustHTTP == (v.serveJustHTTP || v.singleFileMode) &&
      a.vars.useNoDatabase == noDatabase &&
      (a.stop.None? ==> a.vars.permPresent == !noDatabase) &&
      a.vars.serverConfigurationFilenames == v.serverConfigurationFilenames &&
      a.vars.ranServerReadyFunction == v.ranServerReadyFunction
    ensures var a := PrepareRun(f, w, r); var v := r.vars;
      a.stop != Some(Fatal(NoDatabaseBackend)) ==>
        a.vars.luaServerFilename == LuaServer(v.singleFileMode, v.serverDir, v.luaServerFilename) &&
        a.vars.serverDir == ServedDir(v.singleFileMode, v.serverDir) &&
        a.vars.singleFileMode == (v.singleFileMode && !AdoptsLua(v.singleFileMode, v.serverDir))
  {
  }

  /**
   * main.go:226-246: startup ends at a configuration script exactly when a
   * backend is present and some listed existing script fails; it ends at
   * that script, which ran last; otherwise the list becomes the existing
   * scripts, failing ones included.
   */
  lemma ScriptsRunOutcome(w: World, r: Run)
    ensures var s := ScriptsRun(w, r); var names := r.vars.serverConfigurationFilenames;
      s.stop.Some? <==>
        r.vars.permPresent && SomeScriptFails(names, w.files, w.failingScripts)
    ensures var s := ScriptsRun(w, r);
      s.stop.Some? ==>
        s.stop.value.Fatal? && s.stop.value.cause.ConfigurationScriptFailed? &&
        s.stop.value.cause.file in w.failingScripts && s.vars == r.vars &&
        |s.trace| > 0 && s.trace[|s.trace| - 1] == RanConfiguration(s.stop.value.cause.file, false)
    ensures var s := ScriptsRun(w, r); var names := r.vars.serverConfigurationFilenames;
      var k := FirstFailure(names, w.files, w.failingScripts);
      s.stop.Some? ==> k < |names| && s.stop.value == Fatal(ConfigurationScriptFailed(names[k]))
    ensures var s := ScriptsRun(w, r);
      s.stop.None? ==>
        s.vars == r.vars.(serverConfigurationFilenames := Existing(r.vars.serverConfigurationFilenames, w.files))
    ensures var s := ScriptsRun(w, r);
      HandlerSteps(s.trace) == HandlerSteps(r.trace) && s.shutdown == r.shutdown
  {
    var v := r.vars;
    var names := v.serverConfigurationFilenames;
    var p := Pipeline(names, w.files, w.failingScripts, v.permPresent);
    var k := FirstFailure(names, w.files, w.failingScripts);
    if v.permPresent {
      BackendStopsAtFirstFailure(names, w.files, w.failingScripts);
      if k < |names| {
        assert names[k] in w.files && names[k] in w.failingScripts;
        assert p.executed[|p.executed| - 1] == names[k];
      } else {
        assert names[..k] == names;
      }
    } else {
      NoBackendRunsEveryExisting(names, w.files, w.failingScripts);
    }
    NoHandlerStepsInRanEvents(p.executed);
    HandlerStepsAppend(r.trace, RanEvents(p.executed));
  }

  /**
   * main.go:248-356: the one handler step is the Lua server script exactly
   * when luaServerFilename is set, and the default handlers for serverDir
   * otherwise; a Lua error is fatal; the internal log is fatal exactly when
   * neither it nor "internal.log" opens; otherwise serve is called with the
   * settings main() has left.
   */
  lemma HandleRunOutcome(f: Flags, w: World, r: Run)
    ensures var h := HandleRun(f, w, r); var v := r.vars;
      |h.trace| > |r.trace| && h.trace[..|r.trace| + 1] == r.trace + [HandlerEvent(v.luaServerFilename, v.serverDir)] &&
      HandlerEvent(v.luaServerFilename, v.serverDir) in h.trace &&
      HandlerSteps(h.trace) == HandlerSteps(r.trace) + 1
    ensures var h := HandleRun(f, w, r); var v := r.vars;
      (h.stop.value == Fatal(LuaServerScriptFailed(v.luaServerFilename)) <==> v.luaServerFilename != "" && w.luaServerFails) &&
      (h.stop.value == Fatal(InternalLogUnwritable) <==>
         !(v.luaServerFilename != "" && w.luaServerFails) && !w.internalLogOpens && !w.fallbackLogOpens) &&
      (ReachedServe(h.stop.value) <==>
         !(v.luaServerFilename != "" && w.luaServerFails) && (w.internalLogOpens || w.fallbackLogOpens)) &&
      (h.stop.value == Fatal(ServeFailed) <==> ReachedServe(h.stop.value) && w.serveFails) &&
      PastHandlers(h.stop.value)
    ensures var h := HandleRun(f, w, r);
      h.shutdown == r.shutdown +
        (if (h.stop.value.Fatal? && h.stop.value.cause.LuaServerScriptFailed?) || w.internalLogOpens then [] else [CloseInternalLog])
    ensures var h := HandleRun(f, w, r); var v := r.vars;
      h.vars.luaServerFilename == v.luaServerFilename && h.vars.serverDir == v.serverDir &&
      (ReachedServe(h.stop.value) ==>
        h.trace[|h.trace| - 1] == CalledServe(ServeConfig(f, v.serveJustHTTP)) &&
        h.vars == v.(ranServerReadyFunction := w.finalConfigurationReady || |v.serverConfigurationFilenames| == 0))
  {
    var v := r.vars;
    var e := HandlerEvent(v.luaServerFilename, v.serverDir);
    HandlerStepsSnoc(r.trace, e);
    HandlerStepsSnoc(r.trace + [e], CalledServe(ServeConfig(f, v.serveJustHTTP)));
  }

  // ---------------------------------------------------------------------
  // main.go:155-356 from any state the dispatch leaves
  // ---------------------------------------------------------------------

  /** The ways main.go:155-356 can end. */
  predicate ConfigureExit(e: Exit) {
    e == Fatal(NoDatabaseBackend) || e == Fatal(ServerLogUnwritable) ||
    (e.Fatal? && e.cause.ConfigurationScriptFailed?) || PastHandlers(e)
  }

  /** The exits of main.go:155-246 come before the handler choice. */
  lemma EarlyExit(e: Exit)
    requires e == Fatal(NoDatabaseBackend) || e == Fatal(ServerLogUnwritable) || (e.Fatal? && e.cause.ConfigurationScriptFailed?)
    ensures !PastHandlers(e) && !(e.Fatal? && e.cause.LuaServerScriptFailed?) && e != Fatal(InternalLogUnwritable)
  {
  }

  /** main.go:155-356 ends in one of its own exits. */
  lemma ConfigureEnds(f: Flags, w: World, r: Run)
    ensures ConfigureExit(ConfigureRun(f, w, r).stop.value)
  {
    var p := PrepareRun(f, w, r);
    PrepareRunOutcome(f, w, r);
    if p.stop.None? {
      var s := ScriptsRun(w, p);
      ScriptsRunOutcome(w, p);
      if s.stop.None? {
        HandleRunOutcome(f, w, s);
      }
    }
  }

  /**
   * main.go:155-356 ends in one of its own exits, adds at most the pool and
   * the internal log to the registry, in that order and both once serve is
   * reached, and takes one handler step exactly when it gets past the
   * handler choice.
   */
  lemma ConfigureRegistry(f: Flags, w: World, r: Run)
    ensures var c := ConfigureRun(f, w, r);
      ConfigureExit(c.stop.value) &&
      c.shutdown <= r.shutdown + [ShutdownPool] + (if w.internalLogOpens then [] else [CloseInternalLog]) &&
      (ReachedServe(c.stop.value) ==>
         c.shutdown == r.shutdown + [ShutdownPool] + (if w.internalLogOpens then [] else [CloseInternalLog]))
    ensures var c := ConfigureRun(f, w, r);
      HandlerSteps(c.trace) == HandlerSteps(r.trace) + (if PastHandlers(c.stop.value) then 1 else 0)
  {
    var p := PrepareRun(f, w, r);
    PrepareRunOutcome(f, w, r);
    if p.stop.None? {
      var s := ScriptsRun(w, p);
      ScriptsRunOutcome(w, p);
      if s.stop.None? {
        HandleRunOutcome(f, w, s);
      }
    }
  }

  /**
   * A configuration script error ends main.go:155-356 only with a backend,
   * at an existing script that fails and ran last; without a backend
   * neither the backend nor a script ends it.
   */
  lemma ConfigureScriptErrors(f: Flags, w: World, r: Run)
    ensures var c := ConfigureRun(f, w, r); var e := c.stop.value;
      var noDatabase := r.vars.useNoDatabase || f.boltFilename == "/dev/null";
      (e.Fatal? && e.cause.ConfigurationScriptFailed? ==>
         !noDatabase && e.cause.file in w.failingScripts &&
         |c.trace| > 0 && c.trace[|c.trace| - 1] == RanConfiguration(e.cause.file, false)) &&
      (noDatabase ==> e != Fatal(NoDatabaseBackend) && !(e.Fatal? && e.cause.ConfigurationScriptFailed?))
  {
    var p := PrepareRun(f, w, r);
    PrepareRunOutcome(f, w, r);
    if p.stop.None? {
      var s := ScriptsRun(w, p);
      ScriptsRunOutcome(w, p);
      if s.stop.None? {
        HandleRunOutcome(f, w, s);
      }
    }
  }

  /** Past the handler choice, the Lua adoption decided the handler. */
  lemma ConfigureHandler(f: Flags, w: World, r: Run)
    ensures var c := ConfigureRun(f, w, r); var v := r.vars;
      PastHandlers(c.stop.value) ==>
        c.vars.luaServerFilename == LuaServer(v.singleFileMode, v.serverDir, v.luaServerFilename) &&
        c.vars.serverDir == ServedDir(v.singleFileMode, v.serverDir) &&
        HandlerEvent(c.vars.luaServerFilename, c.vars.serverDir) in c.trace
  {
    var p := PrepareRun(f, w, r);
    PrepareRunOutcome(f, w, r);
    if p.stop.None? {
      var s := ScriptsRun(w, p);
      ScriptsRunOutcome(w, p);
      if s.stop.None? {
        HandleRunOutcome(f, w, s);
      }
    }
  }

  /** At serve, the configuration record and the variables are those the earlier steps settle. */
  lemma ConfigureServe(f: Flags, w: World, r: Run)
    ensures var c := ConfigureRun(f, w, r); var v := r.vars;
      var noDatabase := v.useNoDatabase || f.boltFilename == "/dev/null";
      var ran := Existing(v.serverConfigurationFilenames, w.files);
      ReachedServe(c.stop.value) ==>
        |c.trace| > 0 && c.trace[|c.trace| - 1] == CalledServe(ServeConfig(f, v.serveJustHTTP || v.singleFileMode)) &&
        c.vars.debugMode == (v.debugMode || v.singleFileMode) &&
        c.vars.useNoDatabase == noDatabase && c.vars.permPresent == !noDatabase &&
        c.vars.serverConfigurationFilenames == ran &&
        c.vars.ranServerReadyFunction == (w.finalConfigurationReady || |ran| == 0)
  {
    ConfigureServeCall(f, w, r);
    ConfigureServeSettings(f, w, r);
  }

  /** At serve, the last thing done is the call of serve with the record the modes give; debug mode follows single-file mode. */
  lemma ConfigureServeCall(f: Flags, w: World, r: Run)
    ensures var c := ConfigureRun(f, w, r); var v := r.vars;
      ReachedServe(c.stop.value) ==>
        |c.trace| > 0 && c.trace[|c.trace| - 1] == CalledServe(ServeConfig(f, v.serveJustHTTP || v.singleFileMode)) &&
        c.vars.debugMode == (v.debugMode || v.singleFileMode)
  {
    var p := PrepareRun(f, w, r);
    PrepareRunOutcome(f, w, r);
    if p.stop.None? {
      var s := ScriptsRun(w, p);
      ScriptsRunOutcome(w, p);
      if s.stop.None? {
        HandleRunOutcome(f, w, s);
      }
    }
  }

  /** At serve, the backend is settled, the recorded scripts are the existing ones and the ready flag is set as the final configuration or an empty list says. */
  lemma ConfigureServeSettings(f: Flags, w: World, r: Run)
    ensures var c := ConfigureRun(f, w, r); var v := r.vars;
      var noDatabase := v.useNoDatabase || f.boltFilename == "/dev/null";
      var ran := Existing(v.serverConfigurationFilenames, w.files);
      ReachedServe(c.stop.value) ==>
        c.vars.useNoDatabase == noDatabase && c.vars.permPresent == !noDatabase &&
        c.vars.serverConfigurationFilenames == ran &&
        c.vars.ranServerReadyFunction == (w.finalConfigurationReady || |ran| == 0)
  {
    var p := PrepareRun(f, w, r);
    PrepareRunOutcome(f, w, r);
    if p.stop.None? {
      var s := ScriptsRun(w, p);
      ScriptsRunOutcome(w, p);
      if s.stop.None? {
        HandleRunOutcome(f, w, s);
      }
    }
  }

  /**
   * The fatal causes of main.go:155-246, each exactly when it happens: no
   * backend, the server log, and the first existing script that fails with
   * a backend.
   */
  lemma ConfigureEarlyFatalCauses(f: Flags, w: World, r: Run)
    ensures var v := r.vars; var names := v.serverConfigurationFilenames; var e := ConfigureRun(f, w, r).stop.value;
      var noDatabase := v.useNoDatabase || f.boltFilename == "/dev/null";
      var prepared := (noDatabase || w.permissionsAvailable) && (f.serverLogFile == "" || w.serverLogOpens);
      var failed := SomeScriptFails(names, w.files, w.failingScripts);
      (e == Fatal(NoDatabaseBackend) <==> !noDatabase && !w.permissionsAvailable) &&
      (e == Fatal(ServerLogUnwritable) <==>
         (noDatabase || w.permissionsAvailable) && f.serverLogFile != "" && !w.serverLogOpens) &&
      ((e.Fatal? && e.cause.ConfigurationScriptFailed?) <==> prepared && !noDatabase && failed)
    ensures var names := r.vars.serverConfigurationFilenames; var e := ConfigureRun(f, w, r).stop.value;
      var k := FirstFailure(names, w.files, w.failingScripts);
      e.Fatal? && e.cause.ConfigurationScriptFailed? ==> k < |names| && e.cause.file == names[k]
  {
    var p := PrepareRun(f, w, r);
    PrepareRunOutcome(f, w, r);
    if p.stop.None? {
      var s := ScriptsRun(w, p);
      ScriptsRunOutcome(w, p);
      if s.stop.None? {
        HandleRunOutcome(f, w, s);
      }
    }
  }

  /**
   * The fatal causes of main.go:248-298, each exactly when it happens: the
   * Lua server script and the internal log.
   */
  lemma ConfigureLateFatalCauses(f: Flags, w: World, r: Run)
    ensures var v := r.vars; var names := v.serverConfigurationFilenames; var e := ConfigureRun(f, w, r).stop.value;
      var noDatabase := v.useNoDatabase || f.boltFilename == "/dev/null";
      var prepared := (noDatabase || w.permissionsAvailable) && (f.serverLogFile == "" || w.serverLogOpens);
      var failed := SomeScriptFails(names, w.files, w.failingScripts);
      var lua := LuaServer(v.singleFileMode, v.serverDir, v.luaServerFilename);
      (e == Fatal(LuaServerScriptFailed(lua)) <==> prepared && (noDatabase || !failed) && lua != "" && w.luaServerFails) &&
      (e == Fatal(InternalLogUnwritable) <==>
         prepared && (noDatabase || !failed) && !(lua != "" && w.luaServerFails) && !w.internalLogOpens && !w.fallbackLogOpens)
  {
    ConfigureLuaFailure(f, w, r);
    ConfigureInternalLogFailure(f, w, r);
  }

  /** The Lua server script is fatal exactly when it is set, fails, and startup got that far. */
  lemma ConfigureLuaFailure(f: Flags, w: World, r: Run)
    ensures var v := r.vars; var names := v.serverConfigurationFilenames; var e := ConfigureRun(f, w, r).stop.value;
      var noDatabase := v.useNoDatabase || f.boltFilename == "/dev/null";
      var prepared := (noDatabase || w.permissionsAvailable) && (f.serverLogFile == "" || w.serverLogOpens);
      var failed := SomeScriptFails(names, w.files, w.failingScripts);
      var lua := LuaServer(v.singleFileMode, v.serverDir, v.luaServerFilename);
      (e == Fatal(LuaServerScriptFailed(lua)) <==> prepared && (noDatabase || !failed) && lua != "" && w.luaServerFails)
  {
    var p := PrepareRun(f, w, r);
    PrepareRunOutcome(f, w, r);
    if p.stop.None? {
      var s := ScriptsRun(w, p);
      ScriptsRunOutcome(w, p);
      if s.stop.None? {
        HandleRunOutcome(f, w, s);
      } else {
        EarlyExit(s.stop.value);
      }
    } else {
      EarlyExit(p.stop.value);
    }
  }

  /** The internal log is fatal exactly when neither log file opens and startup got past the Lua server script. */
  lemma ConfigureInternalLogFailure(f: Flags, w: World, r: Run)
    ensures var v := r.vars; var names := v.serverConfigurationFilenames; var e := ConfigureRun(f, w, r).stop.value;
      var noDatabase := v.useNoDatabase || f.boltFilename == "/dev/null";
      var prepared := (noDatabase || w.permissionsAvailable) && (f.serverLogFile == "" || w.serverLogOpens);
      var failed := SomeScriptFails(names, w.files, w.failingScripts);
      var lua := LuaServer(v.singleFileMode, v.serverDir, v.luaServerFilename);
      (e == Fatal(InternalLogUnwritable) <==>
         prepared && (noDatabase || !failed) && !(lua != "" && w.luaServerFails) && !w.internalLogOpens && !w.fallbackLogOpens)
  {
    var p := PrepareRun(f, w, r);
    PrepareRunOutcome(f, w, r);
    if p.stop.None? {
      var s := ScriptsRun(w, p);
      ScriptsRunOutcome(w, p);
      if s.stop.None? {
        HandleRunOutcome(f, w, s);
      } else {
        EarlyExit(s.stop.value);
      }
    } else {
      EarlyExit(p.stop.value);
    }
  }

  /**
   * main.go:155-356 reaches serve exactly when there is a backend or none is
   * wanted, the server log opens or none is named, no listed existing script
   * fails while a backend is present, the Lua server script (if any) runs,
   * and one of the two internal log files opens.
   */
  lemma ConfigureReachesServeIff(f: Flags, w: World, r: Run)
    ensures var v := r.vars; var names := v.serverConfigurationFilenames;
      var noDatabase := v.useNoDatabase || f.boltFilename == "/dev/null";
      var lua := LuaServer(v.singleFileMode, v.serverDir, v.luaServerFilename);
      ReachedServe(ConfigureRun(f, w, r).stop.value) <==>
        (noDatabase || w.permissionsAvailable) &&
        (f.serverLogFile == "" || w.serverLogOpens) &&
        (noDatabase || forall j :: 0 <= j < |names| ==> !(names[j] in w.files && names[j] in w.failingScripts)) &&
        !(lua != "" && w.luaServerFails) &&
        (w.internalLogOpens || w.fallbackLogOpens)
    ensures var e := ConfigureRun(f, w, r).stop.value;
      e == Fatal(ServeFailed) <==> ReachedServe(e) && w.serveFails
  {
    var p := PrepareRun(f, w, r);
    PrepareRunOutcome(f, w, r);
    if p.stop.None? {
      var s := ScriptsRun(w, p);
      ScriptsRunOutcome(w, p);
      if s.stop.None? {
        HandleRunOutcome(f, w, s);
      }
    }
  }

  // ---------------------------------------------------------------------
  // What main() promises
  // ---------------------------------------------------------------------

  /** The dispatch from the state handleFlags leaves is the dispatch of the flags' server directory. */
  lemma BeginDispatch(f: Flags, w: World)
    requires w.tempDir.Some?
    ensures var a := DispatchRun(w, w.tempDir.value, Begin(f)); var d := Dispatched(f, w, w.tempDir.value);
      a.stop == d.stop && a.trace == d.events && a.shutdown == ProfileActions(f) &&
      a.vars == Initial(f).(serverDir := d.serverDir, serverConfigurationFilenames := d.names, singleFileMode := d.singleFileMode)
    ensures var a := DispatchRun(w, w.tempDir.value, Begin(f));
      PassesPreamble(f, w) ==> StartRun(f, w) == (if a.stop.Some? then a else ConfigureRun(f, w, a))
  {
  }

  lemma ProfileActionsBeginRegistry(f: Flags, w: World)
    ensures ProfileActions(f) <= Registry(f, w)
  {
    assert Registry(f, w) == ProfileActions(f) + Registry(f, w)[|ProfileActions(f)|..];
  }

  /**
   * The atShutdown registry is always a prefix of CPU profile, heap profile,
   * pool, internal log, and all of it once serve is reached; exactly one
   * handler step is taken once startup gets past the handler choice, and
   * none before.
   */
  lemma RegistryInOrder(f: Flags, w: World)
    ensures StartRun(f, w).shutdown <= Registry(f, w)
    ensures ReachedServe(Outcome(f, w)) ==> StartRun(f, w).shutdown == Registry(f, w)
    ensures HandlerSteps(StartRun(f, w).trace) == (if PastHandlers(Outcome(f, w)) then 1 else 0)
  {
    if PassesPreamble(f, w) {
      BeginDispatch(f, w);
      ProfileActionsBeginRegistry(f, w);
      var a := DispatchRun(w, w.tempDir.value, Begin(f));
      HandlerStepsAppend([], a.trace);
      if a.stop.None? {
        ConfigureRegistry(f, w, a);
      }
    }
  }

  /**
   * A configuration script error ends startup only with a backend, at a
   * script that exists and fails and was the last thing run; without a
   * backend neither the backend nor a script can end startup.
   */
  lemma ScriptErrorsNeedBackend(f: Flags, w: World)
    ensures var e := Outcome(f, w); var t := StartRun(f, w).trace;
      e.Fatal? && e.cause.ConfigurationScriptFailed? ==>
        !NoDatabase(f) && e.cause.file in w.failingScripts && |t| > 0 && t[|t| - 1] == RanConfiguration(e.cause.file, false)
    ensures NoDatabase(f) ==>
      Outcome(f, w) != Fatal(NoDatabaseBackend) &&
      !(Outcome(f, w).Fatal? && Outcome(f, w).cause.ConfigurationScriptFailed?)
  {
    if PassesPreamble(f, w) {
      BeginDispatch(f, w);
      var a := DispatchRun(w, w.tempDir.value, Begin(f));
      if a.stop.None? {
        ConfigureScriptErrors(f, w, a);
      }
    }
  }

  /**
   * The temporary directory, the version flag and the CPU profile file end
   * startup exactly in the cases main.go:44-67 checks, in that order.
   */
  lemma PreambleOutcomes(f: Flags, w: World)
    ensures Outcome(f, w) == Fatal(TempDirFailed) <==> w.tempDir.None?
    ensures Outcome(f, w) == ShowedVersion <==> w.tempDir.Some? && f.showVersion
    ensures Outcome(f, w) == Fatal(CPUProfileUncreatable) <==>
      w.tempDir.Some? && !f.showVersion && f.profileCPU != "" && !w.cpuProfileCreatable
  {
    if PassesPreamble(f, w) {
      LaunchEnds(f, w);
    }
  }

  /** The exits of main.go:44-67. */
  predicate PreambleExit(e: Exit) {
    e == Fatal(TempDirFailed) || e == ShowedVersion || e == Fatal(CPUProfileUncreatable)
  }

  /** Past the preamble, startup never ends with one of the preamble's own exits. */
  lemma LaunchEnds(f: Flags, w: World)
    requires PassesPreamble(f, w)
    ensures !PreambleExit(Outcome(f, w))
  {
    BeginDispatch(f, w);
    var a := DispatchRun(w, w.tempDir.value, Begin(f));
    if a.stop.None? {
      ConfigureEnds(f, w, a);
      NotPreambleExit(ConfigureRun(f, w, a).stop.value);
    } else {
      DispatchExits(Kind(f, w), f.serverDir, f.serverConfigurationFilenames, f.singleFileMode, w.tempDir.value, w);
      NotPreambleExit(a.stop.value);
    }
  }

  /** The exits of the dispatch and of main.go:155-356 are not the preamble's. */
  lemma NotPreambleExit(e: Exit)
    requires ConfigureExit(e) || e == StaticFileServed || e == Panicked ||
      e == Fatal(ExtractionFailed) || (e.Fatal? && e.cause.FileDoesNotExist?)
    ensures !PreambleExit(e)
  {
  }

  /** An exit that is neither the preamble's nor one of main.go:155-356 is the dispatch's own. */
  lemma EndsAtDispatch(f: Flags, w: World)
    requires !PreambleExit(Outcome(f, w)) && !ConfigureExit(Outcome(f, w))
    ensures PassesPreamble(f, w) && Dispatched(f, w, w.tempDir.value).stop == Some(Outcome(f, w))
  {
    if PassesPreamble(f, w) {
      BeginDispatch(f, w);
      var a := DispatchRun(w, w.tempDir.value, Begin(f));
      if a.stop.None? {
        ConfigureEnds(f, w, a);
      }
    }
  }

  /** A missing server root and a static Markdown file end startup at the dispatch. */
  lemma DispatchOutcomes(f: Flags, w: World)
    ensures PassesPreamble(f, w) && Kind(f, w) == Missing ==> Outcome(f, w) == Fatal(FileDoesNotExist(f.serverDir))
    ensures PassesPreamble(f, w) && Kind(f, w) == StaticMarkdown ==>
      Outcome(f, w) == StaticFileServed && StartRun(f, w).trace == [ServedStaticFile(f.serverDir)]
  {
    if PassesPreamble(f, w) {
      BeginDispatch(f, w);
    }
  }

  /** Extraction fails exactly on an archive that cannot be extracted, and only an extracted application can panic. */
  lemma ArchiveOutcomes(f: Flags, w: World)
    ensures Outcome(f, w) == Fatal(ExtractionFailed) <==> PassesPreamble(f, w) && Kind(f, w) == Archive && !w.extractionSucceeds
    ensures Outcome(f, w) == Panicked ==> Kind(f, w) == Archive && w.extractionSucceeds
  {
    if PassesPreamble(f, w) && Kind(f, w) == Archive && !w.extractionSucceeds {
      ExtractionFailureEnds(f, w);
    }
    if Outcome(f, w) == Fatal(ExtractionFailed) || Outcome(f, w) == Panicked {
      DispatchEndCause(f, w);
    }
  }

  /** An archive that cannot be extracted ends startup with ExtractionFailed. */
  lemma ExtractionFailureEnds(f: Flags, w: World)
    requires PassesPreamble(f, w) && Kind(f, w) == Archive && !w.extractionSucceeds
    ensures Outcome(f, w) == Fatal(ExtractionFailed)
  {
    BeginDispatch(f, w);
  }

  /** ExtractionFailed and the panic come only from an archive root, failed or extracted. */
  lemma DispatchEndCause(f: Flags, w: World)
    requires Outcome(f, w) == Fatal(ExtractionFailed) || Outcome(f, w) == Panicked
    ensures Outcome(f, w) == Fatal(ExtractionFailed) ==> PassesPreamble(f, w) && Kind(f, w) == Archive && !w.extractionSucceeds
    ensures Outcome(f, w) == Panicked ==> Kind(f, w) == Archive && w.extractionSucceeds
  {
    ArchiveExitsAreDispatchExits(Outcome(f, w));
    EndsAtDispatch(f, w);
  }

  lemma ArchiveExitsAreDispatchExits(e: Exit)
    requires e == Fatal(ExtractionFailed) || e == Panicked
    ensures !PreambleExit(e) && !ConfigureExit(e)
  {
  }

  /**
   * What reaches serve: the configuration record with plain HTTP forced by
   * single-file mode, debug mode likewise, the backend settled, the ready
   * flag set when no script was recorded, and, for a root that is not an
   * archive, the recorded scripts are the listed ones that exist. Past the
   * handler choice, the handler is the one the Lua adoption of the
   * dispatched root selects.
   */
  lemma ServeRecord(f: Flags, w: World)
    ensures var r := StartRun(f, w);
      ReachedServe(Outcome(f, w)) ==>
        |r.trace| > 0 && r.trace[|r.trace| - 1] == CalledServe(ServeConfig(f, f.serveJustHTTP || SingleFileServed(f, w))) &&
        r.vars.debugMode == (f.debugMode || SingleFileServed(f, w)) &&
        r.vars.useNoDatabase == NoDatabase(f) && r.vars.permPresent == !NoDatabase(f) &&
        (|r.vars.serverConfigurationFilenames| == 0 ==> r.vars.ranServerReadyFunction)
    ensures ReachedServe(Outcome(f, w)) && Kind(f, w) != Archive ==>
      StartRun(f, w).vars.serverConfigurationFilenames == Existing(f.serverConfigurationFilenames, w.files)
    ensures var r := StartRun(f, w);
      PastHandlers(Outcome(f, w)) ==>
        w.tempDir.Some? && ServedBy(f, Dispatched(f, w, w.tempDir.value), r.vars.luaServerFilename, r.vars.serverDir, r.trace)
  {
    ServeCall(f, w);
    ServeScripts(f, w);
    ServeHandler(f, w);
  }

  /** At serve, the record, debug mode, the backend flags and the ready flag of an empty list. */
  lemma ServeCall(f: Flags, w: World)
    ensures var r := StartRun(f, w);
      ReachedServe(Outcome(f, w)) ==>
        |r.trace| > 0 && r.trace[|r.trace| - 1] == CalledServe(ServeConfig(f, f.serveJustHTTP || SingleFileServed(f, w))) &&
        r.vars.debugMode == (f.debugMode || SingleFileServed(f, w)) &&
        r.vars.useNoDatabase == NoDatabase(f) && r.vars.permPresent == !NoDatabase(f) &&
        (|r.vars.serverConfigurationFilenames| == 0 ==> r.vars.ranServerReadyFunction)
  {
    if ReachedServe(Outcome(f, w)) {
      PastHandlersPassDispatch(f, w);
      BeginDispatch(f, w);
      ConfigureServe(f, w, DispatchRun(w, w.tempDir.value, Begin(f)));
    }
  }

  /** At serve, a root that is not an archive has recorded exactly the listed scripts that exist. */
  lemma ServeScripts(f: Flags, w: World)
    ensures ReachedServe(Outcome(f, w)) && Kind(f, w) != Archive ==>
      StartRun(f, w).vars.serverConfigurationFilenames == Existing(f.serverConfigurationFilenames, w.files)
  {
    if ReachedServe(Outcome(f, w)) {
      PastHandlersPassDispatch(f, w);
      BeginDispatch(f, w);
      ConfigureServeSettings(f, w, DispatchRun(w, w.tempDir.value, Begin(f)));
    }
  }

  /** Past the handler choice, the handler is the one the Lua adoption of the dispatched root selects. */
  lemma ServeHandler(f: Flags, w: World)
    ensures var r := StartRun(f, w);
      PastHandlers(Outcome(f, w)) ==>
        w.tempDir.Some? && ServedBy(f, Dispatched(f, w, w.tempDir.value), r.vars.luaServerFilename, r.vars.serverDir, r.trace)
  {
    if PastHandlers(Outcome(f, w)) {
      PastHandlersPassDispatch(f, w);
      BeginDispatch(f, w);
      HandlerAfterDispatch(f, w, DispatchRun(w, w.tempDir.value, Begin(f)), Dispatched(f, w, w.tempDir.value));
    }
  }

  /** Startup gets past the handler choice only once it has passed the preamble and the dispatch. */
  lemma PastHandlersPassDispatch(f: Flags, w: World)
    requires PastHandlers(Outcome(f, w))
    ensures PassesPreamble(f, w) && DispatchRun(w, w.tempDir.value, Begin(f)).stop.None?
  {
    if PassesPreamble(f, w) {
      BeginDispatch(f, w);
    }
  }

  /** ConfigureHandler for a run whose variables are those a dispatch `d` leaves. */
  lemma HandlerAfterDispatch(f: Flags, w: World, a: Run, d: Dispatch)
    requires a.vars.singleFileMode == d.singleFileMode && a.vars.serverDir == d.serverDir
    requires a.vars.luaServerFilename == f.luaServerFilename
    ensures var c := ConfigureRun(f, w, a);
      PastHandlers(c.stop.value) ==> ServedBy(f, d, c.vars.luaServerFilename, c.vars.serverDir, c.trace)
  {
    ConfigureHandler(f, w, a);
  }

  /**
   * The fatal causes between the server-root dispatch and the handler
   * choice, each exactly when it happens: no backend, the server log, and
   * the first existing configuration script that fails with a backend.
   */
  lemma EarlyFatalCauses(f: Flags, w: World)
    requires PassesPreamble(f, w)
    ensures var d := Dispatched(f, w, w.tempDir.value); var e := Outcome(f, w);
      var prepared := (NoDatabase(f) || w.permissionsAvailable) && (f.serverLogFile == "" || w.serverLogOpens);
      var failed := SomeScriptFails(d.names, w.files, w.failingScripts);
      (e == Fatal(NoDatabaseBackend) <==> d.stop.None? && !NoDatabase(f) && !w.permissionsAvailable) &&
      (e == Fatal(ServerLogUnwritable) <==>
         d.stop.None? && (NoDatabase(f) || w.permissionsAvailable) && f.serverLogFile != "" && !w.serverLogOpens) &&
      ((e.Fatal? && e.cause.ConfigurationScriptFailed?) <==> d.stop.None? && prepared && !NoDatabase(f) && failed)
    ensures var d := Dispatched(f, w, w.tempDir.value); var e := Outcome(f, w);
      var k := FirstFailure(d.names, w.files, w.failingScripts);
      e.Fatal? && e.cause.ConfigurationScriptFailed? ==> k < |d.names| && e.cause.file == d.names[k]
  {
    BeginDispatch(f, w);
    var a := DispatchRun(w, w.tempDir.value, Begin(f));
    if a.stop.None? {
      ConfigureEarlyFatalCauses(f, w, a);
    }
  }

  /** The fatal causes from the handler choice on: the Lua server script and the internal log. */
  lemma LateFatalCauses(f: Flags, w: World)
    requires PassesPreamble(f, w)
    ensures var d := Dispatched(f, w, w.tempDir.value); var e := Outcome(f, w);
      var prepared := (NoDatabase(f) || w.permissionsAvailable) && (f.serverLogFile == "" || w.serverLogOpens);
      var failed := SomeScriptFails(d.names, w.files, w.failingScripts);
      var lua := LuaServer(d.singleFileMode, d.serverDir, f.luaServerFilename);
      (e == Fatal(LuaServerScriptFailed(lua)) <==>
         d.stop.None? && prepared && (NoDatabase(f) || !failed) && lua != "" && w.luaServerFails) &&
      (e == Fatal(InternalLogUnwritable) <==>
         d.stop.None? && prepared && (NoDatabase(f) || !failed) && !(lua != "" && w.luaServerFails) &&
         !w.internalLogOpens && !w.fallbackLogOpens)
  {
    BeginDispatch(f, w);
    var a := DispatchRun(w, w.tempDir.value, Begin(f));
    if a.stop.None? {
      ConfigureLateFatalCauses(f, w, a);
    }
  }

  /**
   * main() reaches serve exactly when it passes the preamble, the dispatch
   * carries on, there is a backend or none is wanted, the server log opens or
   * none is named, no existing configuration script fails while a backend is
   * present, the Lua server script (if any) runs, and one of the two internal
   * log files opens.
   */
  lemma ReachesServeIff(f: Flags, w: World)
    ensures ReachedServe(Outcome(f, w)) <==> PassesPreamble(f, w) && ServeConditions(f, w, Dispatched(f, w, w.tempDir.value))
    ensures Outcome(f, w) == Fatal(ServeFailed) <==> ReachedServe(Outcome(f, w)) && w.serveFails
  {
    if PassesPreamble(f, w) {
      BeginDispatch(f, w);
      var a := DispatchRun(w, w.tempDir.value, Begin(f));
      if a.stop.None? {
        ConfigureReachesServeIff(f, w, a);
      } else {
        BeforeHandlers(a.stop.value);
      }
    } else {
      BeforeHandlers(Outcome(f, w));
    }
  }

  /** An exit of the preamble, or any exit before the handler choice, is not serve's. */
  lemma BeforeHandlers(e: Exit)
    requires PreambleExit(e) || !PastHandlers(e)
    ensures !PastHandlers(e) && !ReachedServe(e) && e != Fatal(ServeFailed)
  {
  }

  /**
   * A directory root, or a single file, on which every step succeeds is
   * served until serve returns.
   */
  lemma ServesWhenEverythingSucceeds(f: Flags, w: World)
    requires PassesPreamble(f, w) && (Kind(f, w) == Directory || Kind(f, w) == SingleFile)
    requires NoDatabase(f) || w.permissionsAvailable
    requires f.serverLogFile == "" || w.serverLogOpens
    requires w.failingScripts == {} && !w.luaServerFails && w.internalLogOpens && !w.serveFails
    ensures Outcome(f, w) == ServeReturned
  {
    ReachesServeIff(f, w);
  }
}
