/** Process-wide configuration of the native module: which binary to load and
    from where, the latch that poisons path changes after a failed load, and
    the thread count handed to the module. */
module WasmConfig {
  import opened Wrappers

  const VanillaBinary: string := "tfjs-backend-wasm.wasm"
  const SimdBinary: string := "tfjs-backend-wasm-simd.wasm"
  const ThreadedSimdBinary: string := "tfjs-backend-wasm-threaded-simd.wasm"

  /** The three binaries a complete file map must name, in reporting order. */
  const WasmBinaryNames: seq<string> := [VanillaBinary, SimdBinary, ThreadedSimdBinary]

  /** wasmPath: a full path overriding every choice; wasmPathPrefix: the
      folder of all binaries; wasmFileMap: a per-binary path (absent keys
      are null entries); initAborted: set once a load has aborted. */
  datatype Config = Config(wasmPath: Option<string>, wasmPathPrefix: Option<string>,
                           wasmFileMap: map<string, string>, customFetch: bool,
                           initAborted: bool)

  const Defaults: Config := Config(None, None, map[], false, false)

  datatype ConfigError = AlreadyInitialized | MissingBinaries(names: seq<string>) | NotInitialized

  // ---------------------------------------------------------------------------
  // Choosing the binary
  // ---------------------------------------------------------------------------

  /** The default file name for the capabilities: the threaded SIMD build
      needs both, the SIMD build needs SIMD alone, otherwise the vanilla
      build. */
  function BinaryName(simd: bool, threads: bool): (name: string)
    ensures name == ThreadedSimdBinary <==> simd && threads
    ensures name == SimdBinary <==> simd && !threads
    ensures name == VanillaBinary <==> !simd
    ensures name in WasmBinaryNames
  {
    if simd && threads then ThreadedSimdBinary
    else if simd then SimdBinary
    else VanillaBinary
  }

  /** `getPathToWasmBinary(simd, threads, folder)`: an override path wins;
      otherwise the file-map entry for the binary the capabilities choose,
      and when the map has none, that binary's name in the folder. */
  function GetPathToWasmBinary(c: Config, simd: bool, threads: bool, folder: string): (path: string)
    ensures c.wasmPath.Some? ==> path == c.wasmPath.value
    ensures c.wasmPath.None? && BinaryName(simd, threads) in c.wasmFileMap
      ==> path == c.wasmFileMap[BinaryName(simd, threads)]
    ensures c.wasmPath.None? && BinaryName(simd, threads) !in c.wasmFileMap
      ==> path == folder + BinaryName(simd, threads)
  {
    if c.wasmPath.Some? then c.wasmPath.value
    else
      var name := BinaryName(simd, threads);
      if name in c.wasmFileMap then c.wasmFileMap[name] else folder + name
  }

  /** The location `locateFile` reports for a `.wasm` file: the configured
      prefix, when set, stands in for the loader script's own folder. */
  function LocateWasmBinary(c: Config, simd: bool, threads: bool, scriptFolder: string): (path: string)
    ensures c.wasmPath.Some? ==> path == c.wasmPath.value
    ensures c.wasmPath.None? && BinaryName(simd, threads) in c.wasmFileMap
      ==> path == c.wasmFileMap[BinaryName(simd, threads)]
    ensures c.wasmPath.None? && BinaryName(simd, threads) !in c.wasmFileMap && c.wasmPathPrefix.Some?
      ==> path == c.wasmPathPrefix.value + BinaryName(simd, threads)
    ensures c.wasmPath.None? && BinaryName(simd, threads) !in c.wasmFileMap && c.wasmPathPrefix.None?
      ==> path == scriptFolder + BinaryName(simd, threads)
  {
    GetPathToWasmBinary(c, simd, threads, c.wasmPathPrefix.GetOr(scriptFolder))
  }

  /** The selection rules by capability: an override path wins over
      everything; otherwise the binary named by the capabilities is taken
      from the file map when it has an entry, and from the folder when it
      has none, whatever else the map holds. */
  lemma PathSelection(c: Config, simd: bool, threads: bool, folder: string)
    ensures c.wasmPath.Some? ==> GetPathToWasmBinary(c, simd, threads, folder) == c.wasmPath.value
    ensures c.wasmPath.None? && !simd && VanillaBinary !in c.wasmFileMap
      ==> GetPathToWasmBinary(c, simd, threads, folder) == folder + VanillaBinary
    ensures c.wasmPath.None? && simd && !threads && SimdBinary !in c.wasmFileMap
      ==> GetPathToWasmBinary(c, simd, threads, folder) == folder + SimdBinary
    ensures c.wasmPath.None? && simd && threads && ThreadedSimdBinary !in c.wasmFileMap
      ==> GetPathToWasmBinary(c, simd, threads, folder) == folder + ThreadedSimdBinary
    ensures c.wasmPath.None? && !simd && VanillaBinary in c.wasmFileMap
      ==> GetPathToWasmBinary(c, simd, threads, folder) == c.wasmFileMap[VanillaBinary]
    ensures c.wasmPath.None? && simd && !threads && SimdBinary in c.wasmFileMap
      ==> GetPathToWasmBinary(c, simd, threads, folder) == c.wasmFileMap[SimdBinary]
    ensures c.wasmPath.None? && simd && threads && ThreadedSimdBinary in c.wasmFileMap
      ==> GetPathToWasmBinary(c, simd, threads, folder) == c.wasmFileMap[ThreadedSimdBinary]
  {
  }

  /** Which generated module factory instantiates the binary. */
  datatype Factory = ThreadedSimdFactory | VanillaFactory

  /** The threaded factory is used only when both capabilities are present
      and no override path is set; the vanilla factory also loads SIMD
      binaries. */
  function ChooseFactory(c: Config, simd: bool, threads: bool): (f: Factory)
    ensures f == ThreadedSimdFactory <==> simd && threads && c.wasmPath.None?
  {
    if threads && simd && c.wasmPath.None? then ThreadedSimdFactory else VanillaFactory
  }

  /** The factory agrees with the binary: the threaded factory runs exactly
      when the threaded SIMD file is the one located by name. */
  lemma FactoryMatchesBinary(c: Config, simd: bool, threads: bool)
    ensures ChooseFactory(c, simd, threads) == ThreadedSimdFactory
      <==> c.wasmPath.None? && BinaryName(simd, threads) == ThreadedSimdBinary
  {
  }

  // ---------------------------------------------------------------------------
  // Setting paths
  // ---------------------------------------------------------------------------

  /** The binary names a file map has no entry for, in reporting order. */
  function MissingFrom(names: seq<string>, fileMap: map<string, string>): (missing: seq<string>)
    ensures forall n :: n in missing <==> n in names && n !in fileMap
    ensures |missing| <= |names|
  {
    if names == [] then []
    else if names[0] in fileMap then MissingFrom(names[1..], fileMap)
    else [names[0]] + MissingFrom(names[1..], fileMap)
  }

  /** `setWasmPath(path, usePlatformFetch)`. Refused once a load has aborted;
      otherwise sets the override path and the fetch flag. */
  function SetWasmPath(c: Config, path: Option<string>, usePlatformFetch: bool): (r: (Config, Option<ConfigError>))
    ensures c.initAborted ==> r == (c, Some(AlreadyInitialized))
    ensures !c.initAborted ==> r.1.None? && r.0 == c.(wasmPath := path, customFetch := usePlatformFetch)
  {
    if c.initAborted then (c, Some(AlreadyInitialized))
    else (c.(wasmPath := path, customFetch := usePlatformFetch), None)
  }

  /** Argument of `setWasmPaths`: a folder prefix or a per-binary file map. */
  datatype PathsArg = Prefix(prefix: string) | FileMap(entries: map<string, string>)

  /** `setWasmPaths(prefixOrFileMap, usePlatformFetch)`. Refused once a load
      has aborted. A file map is stored before it is checked, so a map
      lacking any of the three binaries is kept even though the call fails;
      the fetch flag is set only when the call succeeds. */
  function SetWasmPaths(c: Config, arg: PathsArg, usePlatformFetch: bool): (r: (Config, Option<ConfigError>))
    ensures c.initAborted ==> r == (c, Some(AlreadyInitialized))
    ensures !c.initAborted && arg.Prefix? ==>
      r == (c.(wasmPathPrefix := Some(arg.prefix), customFetch := usePlatformFetch), None)
    ensures !c.initAborted && arg.FileMap? ==>
      && (r.1.Some? <==> exists n :: n in WasmBinaryNames && n !in arg.entries)
      && (r.1.Some? ==> (r.0 == c.(wasmFileMap := arg.entries)
                        && r.1.value == MissingBinaries(MissingFrom(WasmBinaryNames, arg.entries))))
      && (r.1.None? ==> r.0 == c.(wasmFileMap := arg.entries, customFetch := usePlatformFetch))
  {
    if c.initAborted then (c, Some(AlreadyInitialized))
    else match arg
      case Prefix(p) => (c.(wasmPathPrefix := Some(p), customFetch := usePlatformFetch), None)
      case FileMap(m) =>
        var c1 := c.(wasmFileMap := m);
        var missing := MissingFrom(WasmBinaryNames, m);
        assert |missing| > 0 ==> missing[0] in missing;
        if |missing| > 0 then
          (c1, Some(MissingBinaries(missing)))
        else
          (c1.(customFetch := usePlatformFetch), None)
  }

  /** `resetWasmPath()`: every path field, the fetch flag and the latch back
      to their defaults. */
  function ResetWasmPath(c: Config): (r: Config)
    ensures r.wasmPath.None? && r.wasmPathPrefix.None? && r.wasmFileMap == map[]
    ensures !r.customFetch && !r.initAborted
  {
    Defaults
  }

  /** After a complete file map is accepted, and with no override path, the
      binary is always taken from the map, whatever the capabilities and the
      prefix. */
  lemma FileMapDecidesPath(c: Config, m: map<string, string>, flag: bool,
                           simd: bool, threads: bool, scriptFolder: string)
    requires c.wasmPath.None?
    requires SetWasmPaths(c, FileMap(m), flag).1.None?
    ensures var c' := SetWasmPaths(c, FileMap(m), flag).0;
      LocateWasmBinary(c', simd, threads, scriptFolder) == m[BinaryName(simd, threads)]
  {
    if c.initAborted {
      assert false;
    }
    assert BinaryName(simd, threads) in WasmBinaryNames;
  }

  /** After a prefix is accepted, with no override path and no file-map entry
      for the chosen name, the binary is the prefix followed by its name. */
  lemma PrefixDecidesPath(c: Config, p: string, flag: bool, simd: bool, threads: bool, scriptFolder: string)
    requires !c.initAborted && c.wasmPath.None?
    requires BinaryName(simd, threads) !in c.wasmFileMap
    ensures var c' := SetWasmPaths(c, Prefix(p), flag).0;
      LocateWasmBinary(c', simd, threads, scriptFolder) == p + BinaryName(simd, threads)
  {
  }

  /** After an override path is accepted it is the located binary, whatever
      the capabilities, map and prefix. */
  lemma OverrideDecidesPath(c: Config, p: string, flag: bool, simd: bool, threads: bool, scriptFolder: string)
    requires !c.initAborted
    ensures LocateWasmBinary(SetWasmPath(c, Some(p), flag).0, simd, threads, scriptFolder) == p
    ensures ChooseFactory(SetWasmPath(c, Some(p), flag).0, simd, threads) == VanillaFactory
  {
  }

  // ---------------------------------------------------------------------------
  // The abort latch of one `init()` call
  // ---------------------------------------------------------------------------

  /** The state of the promise `init()` returns: only the first `resolve` or
      `reject` settles it, and later calls have no effect. */
  datatype Outcome = Pending | Resolved | Rejected

  /** Per-call state of `init()`: whether the module resolved, how many times
      `onAbort` called `reject`, and what the returned promise settled to. */
  datatype Attempt = Attempt(initialized: bool, abortRejects: nat, outcome: Outcome)

  const NewAttempt: Attempt := Attempt(false, 0, Pending)

  /** What the loader reports back during one `init()`: an abort through
      `onAbort`, the module promise resolving, or the module promise
      rejecting (a failed fetch), which `.catch(reject)` passes on. */
  datatype LoaderSignal = Aborted | ModuleReady | ModuleFailed

  /** `resolve` or `reject` applied to the returned promise. */
  function Settle(a: Attempt, o: Outcome): (r: Attempt)
    ensures r.initialized == a.initialized && r.abortRejects == a.abortRejects
    ensures r.outcome == if a.outcome == Pending then o else a.outcome
  {
    if a.outcome == Pending then a.(outcome := o) else a
  }

  /** `onAbort`: ignored once the module has resolved or a load has already
      aborted; otherwise latches `initAborted` and rejects. */
  function OnAbort(c: Config, a: Attempt): (r: (Config, Attempt))
    ensures a.initialized || c.initAborted ==> r == (c, a)
    ensures !a.initialized && !c.initAborted ==>
      && r.0 == c.(initAborted := true)
      && r.1.abortRejects == a.abortRejects + 1 && !r.1.initialized
      && r.1.outcome == (if a.outcome == Pending then Rejected else a.outcome)
  {
    if a.initialized then (c, a)
    else if c.initAborted then (c, a)
    else (c.(initAborted := true), Settle(a.(abortRejects := a.abortRejects + 1), Rejected))
  }

  /** The module promise resolving: the call is initialized, the latch
      cleared and the returned promise resolved unless already settled. */
  function OnModuleReady(c: Config, a: Attempt): (r: (Config, Attempt))
    ensures r.0 == c.(initAborted := false)
    ensures r.1.initialized && r.1.abortRejects == a.abortRejects
    ensures r.1.outcome == (if a.outcome == Pending then Resolved else a.outcome)
  {
    (c.(initAborted := false), Settle(a.(initialized := true), Resolved))
  }

  /** The module promise rejecting: `.catch(reject)` rejects the returned
      promise without consulting `initialized` or the latch, and without
      setting the latch. */
  function OnModuleFailed(c: Config, a: Attempt): (r: (Config, Attempt))
    ensures r.0 == c
    ensures r.1.initialized == a.initialized && r.1.abortRejects == a.abortRejects
    ensures r.1.outcome == (if a.outcome == Pending then Rejected else a.outcome)
  {
    (c, Settle(a, Rejected))
  }

  function Step(c: Config, a: Attempt, s: LoaderSignal): (Config, Attempt)
  {
    match s
    case Aborted => OnAbort(c, a)
    case ModuleReady => OnModuleReady(c, a)
    case ModuleFailed => OnModuleFailed(c, a)
  }

  function RunInit(c: Config, a: Attempt, signals: seq<LoaderSignal>): (Config, Attempt)
    decreases |signals|
  {
    if signals == [] then (c, a)
    else
      var next := Step(c, a, signals[0]);
      RunInit(next.0, next.1, signals[1..])
  }

  /** Reference for what the returned promise settles to: the first signal
      that acts decides. A ready module resolves, a failed one rejects, and
      an abort rejects unless a latch left by an earlier call makes
      `onAbort` ignore it. */
  function FirstOutcome(latched: bool, signals: seq<LoaderSignal>): Outcome
    decreases |signals|
  {
    if signals == [] then Pending
    else match signals[0]
      case ModuleReady => Resolved
      case ModuleFailed => Rejected
      case Aborted => if latched then FirstOutcome(latched, signals[1..]) else Rejected
  }

  /** Some abort arrives before any ready signal. */
  predicate AbortBeforeReady(signals: seq<LoaderSignal>)
  {
    exists i :: 0 <= i < |signals| && signals[i] == Aborted && ModuleReady !in signals[..i]
  }

  /** How `AbortBeforeReady` unfolds at the first signal. */
  lemma AbortBeforeReadyCons(signals: seq<LoaderSignal>)
    requires signals != []
    ensures AbortBeforeReady(signals) <==>
      signals[0] == Aborted || (signals[0] == ModuleFailed && AbortBeforeReady(signals[1..]))
  {
    var rest := signals[1..];
    if signals[0] == Aborted {
      assert signals[..0] == [];
    } else {
      if AbortBeforeReady(signals) {
        var i :| 0 <= i < |signals| && signals[i] == Aborted && ModuleReady !in signals[..i];
        assert signals[0] in signals[..i];
        assert rest[..i-1] == signals[1..i];
        assert rest[i-1] == Aborted && ModuleReady !in rest[..i-1];
      }
      if signals[0] == ModuleFailed && AbortBeforeReady(rest) {
        var j :| 0 <= j < |rest| && rest[j] == Aborted && ModuleReady !in rest[..j];
        assert signals[..j+1] == [signals[0]] + rest[..j];
        assert signals[j+1] == Aborted;
      }
    }
  }

  /** Whatever the loader reports, within one `init()`:
      - `onAbort` calls `reject` at most once, and does so exactly when no
        earlier call left the latch set and some abort arrives before the
        module is ready;
      - the returned promise, once settled, stays settled, and settles as
        `FirstOutcome` says, so a failed fetch rejects it even though it
        never reaches `onAbort`;
      - the latch ends set exactly when some report was an abort (or it was
        already set) and the module never resolved;
      - nothing but the latch changes in the configuration. */
  lemma {:induction false} InitRejectsAtMostOnce(c: Config, a: Attempt, signals: seq<LoaderSignal>)
    requires a.abortRejects <= 1
    requires a.abortRejects == 1 ==> c.initAborted || a.initialized
    ensures var (c', a') := RunInit(c, a, signals);
      && a.abortRejects <= a'.abortRejects <= 1
      && (a'.abortRejects == 1 ==> c'.initAborted || a'.initialized)
      && (a.abortRejects == 0 && !a.initialized ==>
            (a'.abortRejects == 1 <==> !c.initAborted && AbortBeforeReady(signals)))
      && (a.outcome != Pending ==> a'.outcome == a.outcome)
      && (a.outcome == Pending && !a.initialized ==> a'.outcome == FirstOutcome(c.initAborted, signals))
      && (!a.initialized ==>
            (c'.initAborted <==> ModuleReady !in signals && (c.initAborted || Aborted in signals)))
      && c'.(initAborted := false) == c.(initAborted := false)
    decreases |signals|
  {
    if signals != [] {
      var next := Step(c, a, signals[0]);
      InitRejectsAtMostOnce(next.0, next.1, signals[1..]);
      var rest := signals[1..];
      assert signals == [signals[0]] + rest;
      assert ModuleReady in signals <==> signals[0] == ModuleReady || ModuleReady in rest;
      assert Aborted in signals <==> signals[0] == Aborted || Aborted in rest;
      AbortBeforeReadyCons(signals);
      if signals[0] == ModuleReady {
        NoRejectionAfterReady(next.0, next.1, rest);
      }
    }
  }

  /** Once the module has resolved, no report changes the `onAbort`
      rejections or the latch, and a resolved promise stays resolved. */
  lemma {:induction false} NoRejectionAfterReady(c: Config, a: Attempt, signals: seq<LoaderSignal>)
    requires a.initialized
    ensures RunInit(c, a, signals).1.abortRejects == a.abortRejects
    ensures RunInit(c, a, signals).1.initialized
    ensures a.outcome == Resolved ==> RunInit(c, a, signals).1.outcome == Resolved
    ensures ModuleReady !in signals ==> RunInit(c, a, signals).0 == c
    ensures !c.initAborted ==> !RunInit(c, a, signals).0.initAborted
    decreases |signals|
  {
    if signals != [] {
      var next := Step(c, a, signals[0]);
      NoRejectionAfterReady(next.0, next.1, signals[1..]);
      if signals[0] != ModuleReady {
        assert ModuleReady !in signals ==> ModuleReady !in signals[1..];
      }
    }
  }

  /** An aborted load poisons path configuration until `resetWasmPath`:
      both setters then fail and change nothing. */
  lemma AbortPoisonsPaths(c: Config, signals: seq<LoaderSignal>, path: Option<string>, arg: PathsArg, flag: bool)
    requires signals != [] && signals[0] == Aborted && ModuleReady !in signals
    ensures var c' := RunInit(c, NewAttempt, signals).0;
      && SetWasmPath(c', path, flag) == (c', Some(AlreadyInitialized))
      && SetWasmPaths(c', arg, flag) == (c', Some(AlreadyInitialized))
      && SetWasmPath(ResetWasmPath(c'), path, flag).1.None?
  {
    InitRejectsAtMostOnce(c, NewAttempt, signals);
  }

  /** A failed fetch rejects the returned promise but, unlike an abort,
      leaves the latch as it was, so the path setters stay usable. */
  lemma FailedFetchRejectsWithoutLatch(c: Config, signals: seq<LoaderSignal>, path: Option<string>, flag: bool)
    requires !c.initAborted
    requires signals != [] && signals[0] == ModuleFailed && Aborted !in signals
    ensures RunInit(c, NewAttempt, signals).1.outcome == Rejected
    ensures RunInit(c, NewAttempt, signals).1.abortRejects == 0
    ensures SetWasmPath(RunInit(c, NewAttempt, signals).0, path, flag).1.None?
  {
    InitRejectsAtMostOnce(c, NewAttempt, signals);
  }

  // ---------------------------------------------------------------------------
  // Thread count
  // ---------------------------------------------------------------------------

  /** threadsCount: requested before construction (-1: the module's default);
      actualThreadsCount: what the module reported at construction (-1:
      no backend constructed yet). */
  datatype Threads = Threads(threadsCount: int, actualThreadsCount: int)

  const InitialThreads: Threads := Threads(-1, -1)

  /** `setThreadsCount(n)`: only the request changes. */
  function SetThreadsCount(t: Threads, n: int): (t': Threads)
    ensures t'.threadsCount == n && t'.actualThreadsCount == t.actualThreadsCount
  {
    t.(threadsCount := n)
  }

  /** Backend construction records the thread count the module reports. */
  function BackendConstructed(t: Threads, reported: int): (t': Threads)
    ensures t'.actualThreadsCount == reported && t'.threadsCount == t.threadsCount
  {
    t.(actualThreadsCount := reported)
  }

  /** `getThreadsCount()`: fails until a backend has been constructed. */
  function GetThreadsCount(t: Threads): (r: Result<int, ConfigError>)
    ensures r.Failure? <==> t.actualThreadsCount == -1
    ensures r.Failure? ==> r.error == NotInitialized
    ensures r.Success? ==> r.value == t.actualThreadsCount
  {
    if t.actualThreadsCount == -1 then Failure(NotInitialized) else Success(t.actualThreadsCount)
  }

  /** Before construction the count is unavailable; after it, later requests
      do not change what is reported. */
  lemma ThreadsCountLifecycle(n: int, reported: int, later: int)
    requires reported >= 1
    ensures GetThreadsCount(SetThreadsCount(InitialThreads, n)).Failure?
    ensures var t := BackendConstructed(SetThreadsCount(InitialThreads, n), reported);
      && GetThreadsCount(t) == Success(reported)
      && GetThreadsCount(SetThreadsCount(t, later)) == Success(reported)
  {
  }
}
