// The startup decisions of main() (main.go:38-356): the package-level state it
// reassigns step by step is the class Server; the answers of the file system,
// the archive extractor, the database backend and the configuration scripts
// are the oracle record World; what handleFlags sets is the input record Flags.

module Startup {
  import opened GoPath
  import opened ConfigNames
  import opened ConfigLoop

  datatype Option<T> = None | Some(value: T)

  /** The settings handleFlags derives from the command line. */
  datatype Flags = Flags(
    showVersion: bool,
    profileCPU: string,
    profileMem: string,
    serverDir: string,
    serverConfigurationFilenames: seq<string>,
    singleFileMode: bool,
    debugMode: bool,
    serveJustHTTP: bool,
    serveJustHTTP2: bool,
    productionMode: bool,
    useNoDatabase: bool,
    boltFilename: string,
    luaServerFilename: string,
    serverLogFile: string,
    internalLogFilename: string,
    serverHost: string,
    serverAddr: string,
    serverCert: string,
    serverKey: string)

  /** The answers of everything main() asks outside itself. */
  datatype World = World(
    tempDir: Option<string>,        // ioutil.TempDir, None on error
    cpuProfileCreatable: bool,      // os.Create(profileCPU)
    dirs: set<string>,              // fs.isDir
    files: set<string>,             // fs.exists
    extractionSucceeds: bool,       // unzip.Extract
    extractedEntries: seq<string>,  // getFilenames(serverTempDir)
    permissionsAvailable: bool,     // aquirePermissions
    serverLogOpens: bool,           // os.OpenFile(serverLogFile, ...)
    failingScripts: set<string>,    // runConfiguration(f, ..., false) returns an error
    luaServerFails: bool,           // runConfiguration(luaServerFilename, ..., true) returns an error
    finalConfigurationReady: bool,  // finalConfiguration(serverHost)
    internalLogOpens: bool,         // os.Open(internalLogFilename)
    fallbackLogOpens: bool,         // the fallback file internal.log opens
    serveFails: bool)               // serve(conf, mux, done, ready) returns an error

  /** The actions main() hands to atShutdown. */
  datatype ShutdownAction = StopCPUProfile | SaveHeapProfile | ShutdownPool | CloseInternalLog

  /** The configuration record passed to serve (main.go:337-347). */
  datatype ServerConfig = ServerConfig(
    productionMode: bool,
    serverHost: string,
    serverAddr: string,
    serverCert: string,
    serverKey: string,
    serveJustHTTP: bool,
    serveJustHTTP2: bool,
    shutdownTimeoutSeconds: nat,
    internalLogFilename: string)

  const ShutdownTimeoutSeconds: nat := 10

  /** The record main.go:337-347 builds from the flags, with serveJustHTTP as main() has left it. */
  function ServeConfig(f: Flags, serveJustHTTP: bool): ServerConfig {
    ServerConfig(f.productionMode, f.serverHost, f.serverAddr, f.serverCert, f.serverKey,
                 serveJustHTTP, f.serveJustHTTP2, ShutdownTimeoutSeconds, f.internalLogFilename)
  }

  /** What main() does to the outside besides registering shutdown actions. */
  datatype Event =
    | ServedStaticFile(file: string)
    | Extracted(archive: string, into: string)
    | RanConfiguration(file: string, standalone: bool)
    | RegisteredHandlers(root: string)
    | CalledServe(conf: ServerConfig)

  datatype Cause =
    | TempDirFailed
    | CPUProfileUncreatable
    | ExtractionFailed
    | FileDoesNotExist(path: string)
    | NoDatabaseBackend
    | ServerLogUnwritable
    | ConfigurationScriptFailed(file: string)
    | LuaServerScriptFailed(file: string)
    | InternalLogUnwritable
    | ServeFailed

  /** How main() ends. */
  datatype Exit =
    | ShowedVersion      // os.Exit(0) after the version
    | StaticFileServed   // serveStaticFile, then return
    | ServeReturned      // serve returned without error
    | Fatal(cause: Cause)
    | Panicked           // the slice-bounds panic of the removal pass

  /** The package-level variables main() reassigns, plus its locals perm and ranServerReadyFunction. */
  datatype Settings = Settings(
    serverDir: string,
    serverConfigurationFilenames: seq<string>,
    singleFileMode: bool,
    debugMode: bool,
    serveJustHTTP: bool,
    useNoDatabase: bool,
    luaServerFilename: string,
    permPresent: bool,
    ranServerReadyFunction: bool)

  // ---------------------------------------------------------------------
  // Server-root dispatch (main.go:102-153)
  // ---------------------------------------------------------------------

  datatype RootKind = Directory | StaticMarkdown | Archive | SingleFile | Missing

  /** The branch main() takes for serverDir, by fs.isDir, fs.exists and the lower-cased extension. */
  function Classify(serverDir: string, dirs: set<string>, files: set<string>): RootKind {
    if serverDir in dirs then Directory
    else if serverDir !in files then Missing
    else KindOfExtension(Lower(Ext(serverDir)))
  }

  /**
   * A directory is served as a directory, a path that is neither a directory
   * nor a file is missing, and any other file goes by its extension.
   */
  lemma ClassifyCases(serverDir: string, dirs: set<string>, files: set<string>)
    ensures Classify(serverDir, dirs, files) == Directory <==> serverDir in dirs
    ensures Classify(serverDir, dirs, files) == Missing <==> serverDir !in dirs && serverDir !in files
    ensures serverDir !in dirs && serverDir in files ==>
      Classify(serverDir, dirs, files) == KindOfExtension(Lower(Ext(serverDir)))
  {
  }

  /** The branch the switch of main.go:108-149 selects for a lower-cased extension. */
  function KindOfExtension(lowered: string): (k: RootKind)
    ensures k == StaticMarkdown || k == Archive || k == SingleFile
  {
    if lowered == ".md" || lowered == ".markdown" then StaticMarkdown
    else if lowered == ".zip" || lowered == ".alg" then Archive
    else SingleFile
  }

  /**
   * An existing file that is not a directory is dispatched on the extension
   * of its name, whatever the case of its letters.
   */
  lemma ClassifyByExtension(stem: string, e: string, dirs: set<string>, files: set<string>)
    requires IsExtension(e) && stem + e !in dirs && stem + e in files
    ensures Classify(stem + e, dirs, files) == KindOfExtension(Lower(e))
    ensures Lower(e) == ".zip" ==> Classify(stem + e, dirs, files) == Archive
  {
    ExtOfName(stem, e);
  }

  /** The new server directory after extraction (main.go:120-129). */
  function ExtractedRoot(tempDir: string, entries: seq<string>, dirs: set<string>): (root: string)
    ensures |entries| == 1 && Join(tempDir, entries[0]) in dirs ==> root == Join(tempDir, entries[0])
    ensures !(|entries| == 1 && Join(tempDir, entries[0]) in dirs) ==> root == tempDir
    ensures !Bare(tempDir) ==> !Bare(root)
  {
    if |entries| == 1 && Join(tempDir, entries[0]) in dirs then
      var full := Join(tempDir, entries[0]);
      assert entries[0] != "" ==> full[..|tempDir|] == tempDir;
      full
    else tempDir
  }

  /** The configuration list after both passes over an extracted application. */
  function ArchiveConfigurations(names: seq<string>, root: string, files: set<string>): Removal {
    RemovalAsWritten(names + Joined(root, names, files))
  }

  /** What the server-root dispatch leaves behind: the exit, if any, the new state and the events. */
  datatype Dispatch = Dispatch(
    stop: Option<Exit>,
    serverDir: string,
    names: seq<string>,
    singleFileMode: bool,
    events: seq<Event>)

  /**
   * The server-root dispatch of main.go:101-153 for a server directory of
   * the given kind, a configuration list and a single-file flag, extracting
   * into tempDir.
   */
  function DispatchRoot(kind: RootKind, serverDir: string, names: seq<string>, singleFileMode: bool, tempDir: string, w: World): (d: Dispatch)
    ensures HandlerSteps(d.events) == 0
    ensures d.stop.Some? ==> !PastHandlers(d.stop.value)
    ensures d.stop == Some(Fatal(FileDoesNotExist(serverDir))) <==> kind == Missing
    ensures d.stop == Some(StaticFileServed) <==> kind == StaticMarkdown
    ensures d.stop == Some(StaticFileServed) ==> d.events == [ServedStaticFile(serverDir)]
    ensures d.stop.None? ==> d.singleFileMode == (singleFileMode || kind == SingleFile)
    ensures d.stop.None? && kind != Archive ==> d.serverDir == serverDir && d.names == names && d.events == []
    ensures d.stop.Some? && d.stop.value.Fatal? ==>
      d.stop.value.cause == FileDoesNotExist(serverDir) || d.stop.value.cause == ExtractionFailed
    ensures d.stop == Some(Panicked) ==> kind == Archive && w.extractionSucceeds
    ensures kind == Directory || kind == SingleFile ==> d.stop.None?
    ensures d.stop == Some(Fatal(ExtractionFailed)) <==> kind == Archive && !w.extractionSucceeds
    ensures kind == Archive && w.extractionSucceeds ==> d == ExtractArchive(serverDir, names, singleFileMode, tempDir, w)
    ensures d.stop.Some? && d.stop.value.Fatal? ==> d.events == [] && d.serverDir == serverDir && d.names == names
  {
    match kind
    case Directory => Dispatch(None, serverDir, names, singleFileMode, [])
    case Missing => Dispatch(Some(Fatal(FileDoesNotExist(serverDir))), serverDir, names, singleFileMode, [])
    case StaticMarkdown =>
      var ev := [ServedStaticFile(serverDir)];
      assert HandlerSteps(ev) == 0 by { assert ev[1..] == []; }
      Dispatch(Some(StaticFileServed), serverDir, names, singleFileMode, ev)
    case SingleFile => Dispatch(None, serverDir, names, true, [])
    case Archive =>
      if !w.extractionSucceeds then Dispatch(Some(Fatal(ExtractionFailed)), serverDir, names, singleFileMode, [])
      else ExtractArchive(serverDir, names, singleFileMode, tempDir, w)
  }

  /**
   * main.go:118-146, once the archive is extracted: the application root,
   * and the configuration list after the append and removal passes.
   */
  function ExtractArchive(serverDir: string, names: seq<string>, singleFileMode: bool, tempDir: string, w: World): (d: Dispatch)
    ensures d.stop == None || d.stop == Some(Panicked)
    ensures d.events == [Extracted(serverDir, tempDir)] && HandlerSteps(d.events) == 0
    ensures d.serverDir == ExtractedRoot(tempDir, w.extractedEntries, w.dirs) && d.singleFileMode == singleFileMode
    ensures d.stop == None <==> ArchiveConfigurations(names, d.serverDir, w.files).Removed?
    ensures d.stop == None ==> d.names == ArchiveConfigurations(names, d.serverDir, w.files).names
  {
    var root := ExtractedRoot(tempDir, w.extractedEntries, w.dirs);
    var ev := [Extracted(serverDir, tempDir)];
    assert HandlerSteps(ev) == 0 by { assert ev[1..] == []; }
    match ArchiveConfigurations(names, root, w.files)
    case SliceBoundsPanic => Dispatch(Some(Panicked), root, names, singleFileMode, ev)
    case Removed(kept) => Dispatch(None, root, kept, singleFileMode, ev)
  }

  /** The dispatch ends main() only as a missing root, a served Markdown file, a failed extraction or the removal panic. */
  lemma DispatchExits(kind: RootKind, serverDir: string, names: seq<string>, singleFileMode: bool, tempDir: string, w: World)
    ensures var d := DispatchRoot(kind, serverDir, names, singleFileMode, tempDir, w);
      d.stop.Some? ==>
        d.stop.value == Fatal(FileDoesNotExist(serverDir)) || d.stop.value == StaticFileServed ||
        d.stop.value == Fatal(ExtractionFailed) || d.stop.value == Panicked
  {
  }

  function RanEvents(names: seq<string>): (es: seq<Event>)
    ensures |es| == |names| && forall k :: 0 <= k < |names| ==> es[k] == RanConfiguration(names[k], false)
  {
    seq(|names|, k requires 0 <= k < |names| => RanConfiguration(names[k], false))
  }

  class Server {
    var serverDir: string
    var serverConfigurationFilenames: seq<string>
    var singleFileMode: bool
    var debugMode: bool
    var serveJustHTTP: bool
    var useNoDatabase: bool
    var luaServerFilename: string
    var permPresent: bool            // perm != nil
    var ranServerReadyFunction: bool
    var trace: seq<Event>            // what main() has done to the outside, in order
    var shutdown: seq<ShutdownAction>  // the atShutdown registrations, in order

    function Snapshot(): Settings
      reads this
    {
      Settings(serverDir, serverConfigurationFilenames, singleFileMode, debugMode, serveJustHTTP,
               useNoDatabase, luaServerFilename, permPresent, ranServerReadyFunction)
    }

    constructor (f: Flags)
      ensures Snapshot() == Initial(f)
      ensures trace == [] && shutdown == []
    {
      serverDir := f.serverDir;
      serverConfigurationFilenames := f.serverConfigurationFilenames;
      singleFileMode := f.singleFileMode;
      debugMode := f.debugMode;
      serveJustHTTP := f.serveJustHTTP;
      useNoDatabase := f.useNoDatabase;
      luaServerFilename := f.luaServerFilename;
      permPresent := false;
      ranServerReadyFunction := false;
      trace := [];
      shutdown := [];
    }

    /** atShutdown: append an action to the registry. */
    method AtShutdown(action: ShutdownAction)
      modifies this`shutdown
      ensures shutdown == old(shutdown) + [action]
    {
      shutdown := shutdown + [action];
    }

    /**
     * main.go:101-153: a directory is served as it is; a missing path is
     * fatal; Markdown is served statically; an archive is extracted and its
     * configuration files registered; anything else is single-file mode.
     */
    method ResolveServerRoot(tempDir: string, w: World) returns (stop: Option<Exit>)
      modifies this`serverDir, this`serverConfigurationFilenames, this`singleFileMode, this`trace
      ensures var d := DispatchRoot(Classify(old(serverDir), w.dirs, w.files), old(serverDir), old(serverConfigurationFilenames), old(singleFileMode), tempDir, w);
        stop == d.stop && serverDir == d.serverDir && serverConfigurationFilenames == d.names &&
        singleFileMode == d.singleFileMode && trace == old(trace) + d.events
      ensures HandlerSteps(trace) == HandlerSteps(old(trace))
    {
      ghost var d := DispatchRoot(Classify(serverDir, w.dirs, w.files), serverDir, serverConfigurationFilenames,
                                  singleFileMode, tempDir, w);
      HandlerStepsAppend(trace, d.events);
      stop := None;
      if serverDir !in w.dirs {
        var filename := serverDir;
        if filename in w.files {
          stop := DispatchFile(filename, tempDir, w);
        } else {
          return Some(Fatal(FileDoesNotExist(filename)));
        }
      }
    }

    /** main.go:107-149: the switch on the lower-cased extension of an existing file. */
    method DispatchFile(filename: string, tempDir: string, w: World) returns (stop: Option<Exit>)
      requires serverDir == filename
      modifies this`serverDir, this`serverConfigurationFilenames, this`singleFileMode, this`trace
      ensures var d := DispatchRoot(KindOfExtension(Lower(Ext(filename))), filename, old(serverConfigurationFilenames),
                                    old(singleFileMode), tempDir, w);
        stop == d.stop && serverDir == d.serverDir && serverConfigurationFilenames == d.names &&
        singleFileMode == d.singleFileMode && trace == old(trace) + d.events
    {
      stop := None;
      match KindOfExtension(Lower(Ext(filename)))
      case StaticMarkdown =>
        trace := trace + [ServedStaticFile(filename)];
        return Some(StaticFileServed);
      case Archive =>
        if !w.extractionSucceeds {
          return Some(Fatal(ExtractionFailed));
        }
        stop := ExtractApplication(filename, tempDir, w);
      case SingleFile =>
        singleFileMode := true;
    }

    /**
     * main.go:118-146: the archive is extracted into tempDir; a lone
     * top-level directory in it becomes the root, the configuration files
     * it holds are appended, and the bare names are removed.
     */
    method ExtractApplication(filename: string, tempDir: string, w: World) returns (stop: Option<Exit>)
      modifies this`serverDir, this`serverConfigurationFilenames, this`trace
      ensures var d := ExtractArchive(filename, old(serverConfigurationFilenames), singleFileMode, tempDir, w);
        stop == d.stop && serverDir == d.serverDir && serverConfigurationFilenames == d.names &&
        trace == old(trace) + d.events
    {
      trace := trace + [Extracted(filename, tempDir)];
      serverDir := tempDir;
      if |w.extractedEntries| == 1 {
        var fullPath := Join(serverDir, w.extractedEntries[0]);
        if fullPath in w.dirs {
          serverDir := fullPath;
        }
      }
      var appended := AppendExtracted(serverConfigurationFilenames, serverDir, w.files);
      var removal := RemoveBareNames(appended);
      if removal.SliceBoundsPanic? {
        return Some(Panicked);
      }
      serverConfigurationFilenames := removal.names;
      stop := None;
    }

    /**
     * main.go:155-183: single-file mode forces debug mode and plain HTTP;
     * the BoltDB name /dev/null disables the database; otherwise a
     * permission backend is acquired, and failing to get one is fatal.
     */
    method DeriveModes(boltFilename: string, w: World) returns (stop: Option<Exit>)
      modifies this`debugMode, this`serveJustHTTP, this`useNoDatabase, this`permPresent
      ensures debugMode == (old(debugMode) || singleFileMode)
      ensures serveJustHTTP == (old(serveJustHTTP) || singleFileMode)
      ensures useNoDatabase == (old(useNoDatabase) || boltFilename == "/dev/null")
      ensures permPresent == (!useNoDatabase && w.permissionsAvailable)
      ensures stop == (if !useNoDatabase && !w.permissionsAvailable then Some(Fatal(NoDatabaseBackend)) else None)
      ensures stop == None ==> (permPresent <==> !useNoDatabase)
      ensures Snapshot() == Moded(boltFilename, w, old(Snapshot()))
    {
      if singleFileMode {
        debugMode := true;
        serveJustHTTP := true;
      }
      if boltFilename == "/dev/null" {
        useNoDatabase := true;
      }
      permPresent := false;
      stop := None;
      if !useNoDatabase {
        if w.permissionsAvailable {
          permPresent := true;
        } else {
          stop := Some(Fatal(NoDatabaseBackend));
        }
      }
    }

    /**
     * main.go:198-205: a single .lua file (case-sensitive extension) becomes
     * the Lua server script, served from its directory.
     */
    method AdoptLuaServer()
      modifies this`luaServerFilename, this`serverDir, this`singleFileMode
      ensures luaServerFilename == LuaServer(old(singleFileMode), old(serverDir), old(luaServerFilename))
      ensures serverDir == ServedDir(old(singleFileMode), old(serverDir))
      ensures singleFileMode == (old(singleFileMode) && !AdoptsLua(old(singleFileMode), old(serverDir)))
      ensures luaServerFilename != old(luaServerFilename) ==> Ext(luaServerFilename) == ".lua"
      ensures Snapshot() == Adopt(old(Snapshot()))
    {
      if singleFileMode && Ext(serverDir) == ".lua" {
        luaServerFilename := serverDir;
        serverDir := Dir(serverDir);
        singleFileMode := false;
      }
    }

    /**
     * main.go:226-246: the configuration scripts run in list order and the
     * list is replaced by the scripts that ran, unless a script error was
     * fatal because a permission backend is present.
     */
    method RunConfigurations(w: World) returns (stop: Option<Exit>)
      modifies this`serverConfigurationFilenames, this`trace
      ensures var r := Pipeline(old(serverConfigurationFilenames), w.files, w.failingScripts, permPresent);
        trace == old(trace) + RanEvents(r.executed) &&
        (r.fatal ==> |r.executed| > 0 && stop == Some(Fatal(ConfigurationScriptFailed(r.executed[|r.executed| - 1]))) &&
                     serverConfigurationFilenames == old(serverConfigurationFilenames)) &&
        (!r.fatal ==> stop == None && serverConfigurationFilenames == r.ran)
      ensures stop == None ==> serverConfigurationFilenames == Existing(old(serverConfigurationFilenames), w.files)
      ensures stop != None ==>
        permPresent && stop.value.Fatal? && stop.value.cause.ConfigurationScriptFailed? &&
        stop.value.cause.file in w.failingScripts &&
        |trace| > 0 && trace[|trace| - 1] == RanConfiguration(stop.value.cause.file, false)
      ensures !permPresent ==> stop == None
      ensures stop == ScriptFailure(permPresent, old(serverConfigurationFilenames), w.files, w.failingScripts)
      ensures HandlerSteps(trace) == HandlerSteps(old(trace))
    {
      if permPresent {
        BackendStopsAtFirstFailure(serverConfigurationFilenames, w.files, w.failingScripts);
      } else {
        NoBackendRunsEveryExisting(serverConfigurationFilenames, w.files, w.failingScripts);
      }
      var r := RunScripts(serverConfigurationFilenames, w.files, w.failingScripts, permPresent);
      NoHandlerStepsInRanEvents(r.executed);
      HandlerStepsAppend(trace, RanEvents(r.executed));
      trace := trace + RanEvents(r.executed);
      if r.fatal {
        return Some(Fatal(ConfigurationScriptFailed(r.executed[|r.executed| - 1])));
      }
      serverConfigurationFilenames := r.ran;
      stop := None;
    }

    /**
     * main.go:248-261: exactly one of running the Lua server script (whose
     * error is fatal whether or not a backend is present) and registering
     * the default handlers for serverDir.
     */
    method ChooseHandler(w: World) returns (stop: Option<Exit>)
      modifies this`trace
      ensures luaServerFilename != "" ==>
        trace == old(trace) + [RanConfiguration(luaServerFilename, true)] &&
        stop == (if w.luaServerFails then Some(Fatal(LuaServerScriptFailed(luaServerFilename))) else None)
      ensures luaServerFilename == "" ==>
        trace == old(trace) + [RegisteredHandlers(serverDir)] && stop == None
      ensures trace == old(trace) + [HandlerEvent(luaServerFilename, serverDir)]
      ensures HandlerSteps(trace) == HandlerSteps(old(trace)) + 1
    {
      stop := None;
      if luaServerFilename != "" {
        HandlerStepsSnoc(trace, RanConfiguration(luaServerFilename, true));
        trace := trace + [RanConfiguration(luaServerFilename, true)];
        if w.luaServerFails {
          stop := Some(Fatal(LuaServerScriptFailed(luaServerFilename)));
        }
      } else {
        HandlerStepsSnoc(trace, RegisteredHandlers(serverDir));
        trace := trace + [RegisteredHandlers(serverDir)];
      }
    }

    /** main.go:265-274: with no configuration script recorded the server counts as ready. */
    method MarkReady(w: World)
      modifies this`ranServerReadyFunction
      ensures ranServerReadyFunction == (w.finalConfigurationReady || |serverConfigurationFilenames| == 0)
    {
      ranServerReadyFunction := w.finalConfigurationReady;
      if |serverConfigurationFilenames| == 0 {
        ranServerReadyFunction := true;
      }
    }

    /**
     * main.go:283-298: when the internal log cannot be opened, "internal.log"
     * is tried, its closing is registered, and failing that too is fatal.
     */
    method OpenInternalLog(w: World) returns (stop: Option<Exit>)
      modifies this`shutdown
      ensures shutdown == old(shutdown) + (if w.internalLogOpens then [] else [CloseInternalLog])
      ensures stop == (if !w.internalLogOpens && !w.fallbackLogOpens then Some(Fatal(InternalLogUnwritable)) else None)
    {
      stop := None;
      if !w.internalLogOpens {
        AtShutdown(CloseInternalLog);
        if !w.fallbackLogOpens {
          stop := Some(Fatal(InternalLogUnwritable));
        }
      }
    }


    /** The state of startup so far; `stop` says how it ended, None while it carries on. */
    function Now(stop: Option<Exit>): Run
      reads this
    {
      Run(stop, Snapshot(), trace, shutdown)
    }

    /** main.go:101-356: the server-root dispatch, then the rest of startup. */
    method Launch(f: Flags, w: World, tempDir: string) returns (exit: Exit)
      modifies this
      ensures Now(Some(exit)) == LaunchRun(f, w, tempDir, old(Now(None)))
    {
      ghost var r := Now(None);
      ghost var d := DispatchRoot(Classify(serverDir, w.dirs, w.files), serverDir, serverConfigurationFilenames,
                                  singleFileMode, tempDir, w);
      var stop := ResolveServerRoot(tempDir, w);
      assert Now(stop) == Run(d.stop, r.vars.(serverDir := d.serverDir, serverConfigurationFilenames := d.names,
                                               singleFileMode := d.singleFileMode), r.trace + d.events, r.shutdown);
      if stop.Some? {
        return stop.value;
      }
      exit := Configure(f, w);
    }

    /**
     * main.go:155-356, once the server root is resolved: the modes, the
     * backend, the pool and the configuration scripts, then the handler
     * choice, the ready flag, the internal log and the call of serve.
     */
    method Configure(f: Flags, w: World) returns (exit: Exit)
      modifies this
      ensures Now(Some(exit)) == ConfigureRun(f, w, old(Now(None)))
    {
      var stop := RunStartupScripts(f, w);
      if stop.Some? {
        return stop.value;
      }
      exit := HandleAndServe(f, w);
    }

    /** main.go:155-246: modes, backend, pool, Lua server adoption, server log, configuration scripts. */
    method RunStartupScripts(f: Flags, w: World) returns (stop: Option<Exit>)
      modifies this`debugMode, this`serveJustHTTP, this`useNoDatabase, this`permPresent, this`shutdown,
               this`luaServerFilename, this`serverDir, this`singleFileMode,
               this`serverConfigurationFilenames, this`trace
      ensures Now(stop) == StartupScriptsRun(f, w, old(Now(None)))
    {
      stop := PrepareScripts(f, w);
      if stop.Some? {
        return stop;
      }
      stop := RunConfigurations(w);
    }

    /** main.go:155-224: modes, backend, pool, Lua server adoption and the server log. */
    method PrepareScripts(f: Flags, w: World) returns (stop: Option<Exit>)
      modifies this`debugMode, this`serveJustHTTP, this`useNoDatabase, this`permPresent, this`shutdown,
               this`luaServerFilename, this`serverDir, this`singleFileMode
      ensures Now(stop) == PrepareRun(f, w, old(Now(None)))
    {
      stop := DeriveModes(f.boltFilename, w);
      if stop.Some? {
        return stop;
      }
      stop := OpenServerLog(f, w);
    }

    /** main.go:185-224: the pool registration, the Lua server adoption and the server log. */
    method OpenServerLog(f: Flags, w: World) returns (stop: Option<Exit>)
      modifies this`shutdown, this`luaServerFilename, this`serverDir, this`singleFileMode
      ensures Now(stop) == PoolRun(f, w, old(Now(None)))
    {
      AtShutdown(ShutdownPool);
      AdoptLuaServer();
      if f.serverLogFile != "" && !w.serverLogOpens {
        return Some(Fatal(ServerLogUnwritable));
      }
      stop := None;
    }

    /** main.go:248-356: the handler choice, the ready flag, the internal log and serve. */
    method HandleAndServe(f: Flags, w: World) returns (exit: Exit)
      modifies this`trace, this`shutdown, this`ranServerReadyFunction
      ensures Now(Some(exit)) == HandleRun(f, w, old(Now(None)))
    {
      var stop := ChooseHandler(w);
      if stop.Some? {
        return stop.value;
      }

      MarkReady(w);
      stop := OpenInternalLog(w);
      if stop.Some? {
        return stop.value;
      }

      var conf := ServeConfig(f, serveJustHTTP);
      trace := trace + [CalledServe(conf)];
      exit := if w.serveFails then Fatal(ServeFailed) else ServeReturned;
    }
  }

  predicate ReachedServe(exit: Exit) {
    exit == ServeReturned || exit == Fatal(ServeFailed)
  }

  /** The run got past the handler choice of main.go:249-261. */
  predicate PastHandlers(exit: Exit) {
    ReachedServe(exit) || exit == Fatal(InternalLogUnwritable) ||
    (exit.Fatal? && exit.cause.LuaServerScriptFailed?)
  }

  predicate IsHandlerStep(e: Event) {
    e.RegisteredHandlers? || (e.RanConfiguration? && e.standalone)
  }

  /** The handler steps in a trace: Lua server script runs and default registrations. */
  function HandlerSteps(trace: seq<Event>): nat
    decreases |trace|
  {
    if trace == [] then 0
    else (if IsHandlerStep(trace[0]) then 1 else 0)
         + HandlerSteps(trace[1..])
  }

  lemma {:induction false} HandlerStepsAppend(a: seq<Event>, b: seq<Event>)
    ensures HandlerSteps(a + b) == HandlerSteps(a) + HandlerSteps(b)
    decreases |a|
  {
    if a == [] {
      assert a + b == b;
    } else {
      assert (a + b)[0] == a[0] && (a + b)[1..] == a[1..] + b;
      HandlerStepsAppend(a[1..], b);
    }
  }

  lemma HandlerStepsSnoc(t: seq<Event>, e: Event)
    ensures HandlerSteps(t + [e]) == HandlerSteps(t) + (if IsHandlerStep(e) then 1 else 0)
  {
    HandlerStepsAppend(t, [e]);
    assert [e][1..] == [];
  }

  lemma {:induction false} NoHandlerStepsInRanEvents(names: seq<string>)
    ensures HandlerSteps(RanEvents(names)) == 0
    decreases |names|
  {
    if names != [] {
      assert RanEvents(names)[1..] == RanEvents(names[1..]);
      NoHandlerStepsInRanEvents(names[1..]);
    }
  }

  // ---------------------------------------------------------------------
  // How each phase ends and what it leaves, as functions of the state it
  // starts from and the oracles
  // ---------------------------------------------------------------------

  /**
   * A point of startup: how it ended (None while it carries on), the
   * variables, what main() did outside, and the atShutdown registry.
   */
  datatype Run = Run(stop: Option<Exit>, vars: Settings, trace: seq<Event>, shutdown: seq<ShutdownAction>)

  /** main.go:198: single-file mode on a name whose extension is ".lua", compared case-sensitively. */
  predicate AdoptsLua(singleFileMode: bool, serverDir: string) {
    singleFileMode && Ext(serverDir) == ".lua"
  }

  /** The Lua server script after main.go:198-205. */
  function LuaServer(singleFileMode: bool, serverDir: string, luaServerFilename: string): string {
    if AdoptsLua(singleFileMode, serverDir) then serverDir else luaServerFilename
  }

  /** The server directory after main.go:198-205: an adopted script is served from its directory. */
  function ServedDir(singleFileMode: bool, serverDir: string): string {
    if AdoptsLua(singleFileMode, serverDir) then Dir(serverDir) else serverDir
  }

  /** The handler step of main.go:249-261: the Lua server script if there is one, else the default handlers. */
  function HandlerEvent(luaServerFilename: string, serverDir: string): (e: Event)
    ensures IsHandlerStep(e)
    ensures e.RanConfiguration? <==> luaServerFilename != ""
  {
    if luaServerFilename != "" then RanConfiguration(luaServerFilename, true) else RegisteredHandlers(serverDir)
  }

  /** How main.go:229-244 ends: with a backend, at the first existing script that fails. */
  function ScriptFailure(backend: bool, names: seq<string>, files: set<string>, failing: set<string>): Option<Exit> {
    var k := FirstFailure(names, files, failing);
    if backend && k < |names| then Some(Fatal(ConfigurationScriptFailed(names[k]))) else None
  }

  /** The loop stops exactly when there is a backend and a listed existing script fails, and then on the first such script. */
  lemma ScriptFailureCases(backend: bool, names: seq<string>, files: set<string>, failing: set<string>)
    ensures ScriptFailure(backend, names, files, failing).Some? <==>
      backend && SomeScriptFails(names, files, failing)
    ensures ScriptFailure(backend, names, files, failing).Some? ==>
      exists k :: 0 <= k < |names| && ScriptFailure(backend, names, files, failing) == Some(Fatal(ConfigurationScriptFailed(names[k]))) &&
        names[k] in files && names[k] in failing &&
        (forall j :: 0 <= j < k ==> !(names[j] in files && names[j] in failing))
  { }

  /** main.go:101-153: the server-root dispatch of the current server directory. */
  function DispatchRun(w: World, tempDir: string, r: Run): Run {
    var v := r.vars;
    var d := DispatchRoot(Classify(v.serverDir, w.dirs, w.files), v.serverDir, v.serverConfigurationFilenames,
                          v.singleFileMode, tempDir, w);
    Run(d.stop, v.(serverDir := d.serverDir, serverConfigurationFilenames := d.names, singleFileMode := d.singleFileMode),
        r.trace + d.events, r.shutdown)
  }

  /**
   * main.go:155-224: the single-file defaults, the database backend, the
   * pool registration, the Lua server adoption and the server log.
   */
  function PrepareRun(f: Flags, w: World, r: Run): Run {
    var moded := Moded(f.boltFilename, w, r.vars);
    if !moded.useNoDatabase && !w.permissionsAvailable then Run(Some(Fatal(NoDatabaseBackend)), moded, r.trace, r.shutdown)
    else PoolRun(f, w, r.(vars := moded))
  }

  /** main.go:185-224: the pool registration, the Lua server adoption and the server log. */
  function PoolRun(f: Flags, w: World, r: Run): Run {
    Run(if f.serverLogFile != "" && !w.serverLogOpens then Some(Fatal(ServerLogUnwritable)) else None,
        Adopt(r.vars), r.trace, r.shutdown + [ShutdownPool])
  }

  /** main.go:155-183: the single-file defaults and the database backend. */
  function Moded(boltFilename: string, w: World, v: Settings): Settings {
    var noDatabase := v.useNoDatabase || boltFilename == "/dev/null";
    v.(debugMode := v.debugMode || v.singleFileMode, serveJustHTTP := v.serveJustHTTP || v.singleFileMode,
       useNoDatabase := noDatabase, permPresent := !noDatabase && w.permissionsAvailable)
  }

  /** main.go:198-205: the Lua server adoption. */
  function Adopt(v: Settings): Settings {
    v.(luaServerFilename := LuaServer(v.singleFileMode, v.serverDir, v.luaServerFilename),
       serverDir := ServedDir(v.singleFileMode, v.serverDir),
       singleFileMode := v.singleFileMode && !AdoptsLua(v.singleFileMode, v.serverDir))
  }

  /** main.go:226-246: the configuration scripts, and the list of those that ran. */
  function ScriptsRun(w: World, r: Run): Run {
    var v := r.vars;
    var p := Pipeline(v.serverConfigurationFilenames, w.files, w.failingScripts, v.permPresent);
    var stop := ScriptFailure(v.permPresent, v.serverConfigurationFilenames, w.files, w.failingScripts);
    Run(stop, if stop.Some? then v else v.(serverConfigurationFilenames := p.ran),
        r.trace + RanEvents(p.executed), r.shutdown)
  }

  /** main.go:155-246. */
  function StartupScriptsRun(f: Flags, w: World, r: Run): Run {
    var a := PrepareRun(f, w, r);
    if a.stop.Some? then a else ScriptsRun(w, a)
  }

  /**
   * main.go:248-356: the handler step, then the ready flag, the internal log
   * (with the fallback and its registration) and the call of serve.
   */
  function HandleRun(f: Flags, w: World, r: Run): (h: Run)
    ensures h.stop.Some?
  {
    var v := r.vars;
    var handled := r.trace + [HandlerEvent(v.luaServerFilename, v.serverDir)];
    if v.luaServerFilename != "" && w.luaServerFails then
      Run(Some(Fatal(LuaServerScriptFailed(v.luaServerFilename))), v, handled, r.shutdown)
    else
      var ready := v.(ranServerReadyFunction := w.finalConfigurationReady || |v.serverConfigurationFilenames| == 0);
      var registered := r.shutdown + (if w.internalLogOpens then [] else [CloseInternalLog]);
      if !w.internalLogOpens && !w.fallbackLogOpens then
        Run(Some(Fatal(InternalLogUnwritable)), ready, handled, registered)
      else
        Run(Some(if w.serveFails then Fatal(ServeFailed) else ServeReturned), ready,
            handled + [CalledServe(ServeConfig(f, v.serveJustHTTP))], registered)
  }

  /** main.go:155-356. */
  function ConfigureRun(f: Flags, w: World, r: Run): (c: Run)
    ensures c.stop.Some?
  {
    var b := StartupScriptsRun(f, w, r);
    if b.stop.Some? then b else HandleRun(f, w, b)
  }

  /** main.go:101-356. */
  function LaunchRun(f: Flags, w: World, tempDir: string, r: Run): (l: Run)
    ensures l.stop.Some?
  {
    var a := DispatchRun(w, tempDir, r);
    if a.stop.Some? then a else ConfigureRun(f, w, a)
  }

  /** The state handleFlags leaves, before main() reassigns anything. */
  function Initial(f: Flags): Settings {
    Settings(f.serverDir, f.serverConfigurationFilenames, f.singleFileMode, f.debugMode,
             f.serveJustHTTP, f.useNoDatabase, f.luaServerFilename, false, false)
  }
}
