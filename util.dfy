/**
 * `util.py`: the harness's internal paths, the compiler command line and
 * `compile_file`, which skips, runs or fails a build against the cache.
 */
module Util {

  import opened Optional
  import opened Cache
  import Config

  /** A file-system path as its list of components. */
  type Path = seq<string>

  /** The user's home directory, standing for `pathlib.Path.home()`. */
  const Home: string := "~"

  /** `internal_path`: `~/.qstress/_internal`. */
  const InternalPath: Path := [Home, ".qstress", "_internal"]

  /**
   * `get_path(*args)`: the internal directory with `args` appended in order,
   * one component each. pathlib's `/` would drop `""` and `.` and let an
   * absolute argument replace the path; every caller passes plain names
   * (`io`, `input.txt`, `bin`, a target's key), where none of that happens.
   */
  function PathOf(args: seq<string>): (p: Path)
    ensures |p| == |InternalPath| + |args| && p[..|InternalPath|] == InternalPath
    ensures forall i :: 0 <= i < |args| ==> p[|InternalPath| + i] == args[i]
  {
    InternalPath + args
  }

  /** `get_path` is a left fold of `/`: one more argument is one more component. */
  lemma PathOfSnoc(args: seq<string>, x: string)
    ensures PathOf(args + [x]) == PathOf(args) + [x]
  {
  }

  /** `get_path` itself: start from the internal directory and `path /= x` per argument. */
  method GetPath(args: seq<string>) returns (path: Path)
    ensures path == PathOf(args)
  {
    path := InternalPath;
    for i := 0 to |args|
      invariant path == InternalPath + args[..i]
    {
      assert args[..i + 1] == args[..i] + [args[i]];
      path := path + [args[i]];
    }
    assert args[..|args|] == args;
  }

  /** `str(path)`: the components joined by `/`. */
  function Render(p: Path): string
  {
    if |p| == 0 then ""
    else if |p| == 1 then p[0]
    else Render(p[..|p| - 1]) + "/" + p[|p| - 1]
  }

  /** Where a target's binary lives: `get_path("bin", target)`. */
  function BinPath(t: Target): Path
  {
    PathOf(["bin", Key(t)])
  }

  lemma BinPathRendering(t: Target)
    ensures Render(BinPath(t)) == Render(PathOf(["bin"])) + "/" + Key(t)
  {
    var p := BinPath(t);
    assert p[..|p| - 1] == PathOf(["bin"]);
  }

  /** The four targets are compiled to four different files. */
  lemma BinPathsDistinct(t: Target, u: Target)
    requires t != u
    ensures Render(BinPath(t)) != Render(BinPath(u))
  {
    BinPathRendering(t);
    BinPathRendering(u);
    var prefix := Render(PathOf(["bin"])) + "/";
    assert Render(BinPath(t)) == prefix + Key(t);
    assert Render(BinPath(u)) == prefix + Key(u);
    assert Key(t) == Render(BinPath(t))[|prefix|..];
    assert Key(u) == Render(BinPath(u))[|prefix|..];
    KeyInjective(t, u);
  }

  /**
   * The compiler's argument vector: the compiler, the configured flags in
   * order, the source, then `-o` and the target's binary path.
   */
  function CompilerArgv(compiler: string, flags: seq<string>, source: string, t: Target): (argv: seq<string>)
    ensures |argv| == |flags| + 4 && argv[0] == compiler
    ensures argv[1..|flags| + 1] == flags
    ensures argv[|flags| + 1..] == [source, "-o", Render(BinPath(t))]
  {
    [compiler] + flags + [source, "-o", Render(BinPath(t))]
  }

  /** One compiler process: what it was started with. */
  datatype Invocation = Invocation(compiler: string, flags: seq<string>, source: string, target: Target)
  {
    /** The process's argument vector. */
    function Argv(): seq<string> {
      CompilerArgv(compiler, flags, source, target)
    }
  }

  /** `run_bin(t)`: the process started to run a target is its binary, with no arguments. */
  function RunArgv(t: Target): seq<string>
  {
    [Render(BinPath(t))]
  }

  /** What `compile_file` writes with `-o` is exactly what `run_bin` later executes. */
  lemma CompiledBinaryIsRun(compiler: string, flags: seq<string>, source: string, t: Target)
    ensures CompilerArgv(compiler, flags, source, t)[|flags| + 3] == RunArgv(t)[0]
    ensures forall u :: u != t ==> CompilerArgv(compiler, flags, source, t)[|flags| + 3] != RunArgv(u)[0]
  {
    var argv := CompilerArgv(compiler, flags, source, t);
    assert argv[|flags| + 3] == argv[|flags| + 1..][2];
    forall u | u != t ensures argv[|flags| + 3] != RunArgv(u)[0] {
      BinPathsDistinct(t, u);
    }
  }

  // ---------------------------------------------------------------------
  // `compile_file`

  /** A source file: its path (`str(cwd / source_file)`) and its bytes, `None` if there is no such file. */
  datatype Source = Source(path: string, content: Option<seq<Byte>>)

  /**
   * `hash_file(source_path)`: the digest of the file's bytes, or `None` for
   * the `FileNotFoundError` that opening a missing file raises.
   */
  function DigestOf(src: Source, hash: Hasher): Option<Digest>
  {
    match src.content
    case None => None
    case Some(bytes) => Some(hash(bytes))
  }

  /**
   * The compiler set-up: what `shutil.which(global_config["compilerBin"])`
   * found (`None` if nothing) and `global_config["compileArgs"]`.
   */
  datatype Toolchain = Toolchain(compiler: Option<string>, flags: seq<string>)

  /** The toolchain of a configuration, given what `which` finds for each program name. */
  function ToolchainOf(s: Config.Settings, which: string -> Option<string>): Toolchain
  {
    Toolchain(which(s.compilerBin), s.compileArgs)
  }

  /**
   * With the default configuration, the compiler is started as whatever
   * `which("g++")` found, with `-O2 -std=c++17`, the source, and `-o` and
   * the target's binary.
   */
  lemma DefaultCompilerArgv(which: string -> Option<string>, source: string, t: Target)
    requires which("g++").Some?
    ensures Config.Read(Config.DefaultConfig()).Some?
    ensures var tc := ToolchainOf(Config.Read(Config.DefaultConfig()).value, which);
      && tc.compiler == which("g++")
      && CompilerArgv(tc.compiler.value, tc.flags, source, t)
         == [which("g++").value, "-O2", "-std=c++17", source, "-o", Render(BinPath(t))]
  {
    Config.DefaultSettings();
  }

  /**
   * How one `compile_file` call ends. `Hit`, `Built` and `Failed` are its
   * three returns. The others are exceptions that abort the program:
   * `NoSource` is the `FileNotFoundError` of hashing a missing source,
   * `NoEntry` the `KeyError` of a cache file without this target, and
   * `NoCompiler` the `TypeError` of running a compiler `which` did not find.
   */
  datatype CompileOutcome = Hit | Built | Failed | NoSource | NoEntry | NoCompiler

  /** The `True` that `compile_file` returns. */
  predicate Succeeded(o: CompileOutcome) {
    o.Hit? || o.Built?
  }

  /**
   * The outcome of compiling a source with digest `d` (`None`: no such file)
   * to `t` when the compiler exits with `exit`.
   */
  function Decide(cache: Record, t: Target, d: Option<Digest>, tc: Toolchain, exit: int): CompileOutcome
  {
    if d.None? then NoSource
    else if t !in cache then NoEntry
    else if d.value == cache[t] then Hit
    else if tc.compiler.None? then NoCompiler
    else if exit != 0 then Failed
    else Built
  }

  /** The cache after that call: only a real successful build records the new digest. */
  function Next(cache: Record, t: Target, d: Option<Digest>, o: CompileOutcome): Record
  {
    if o.Built? && d.Some? then cache[t := d.value] else cache
  }

  /** A missing source aborts before the cache is consulted or a compiler starts, and changes nothing. */
  lemma MissingSourceAborts(cache: Record, t: Target, tc: Toolchain, exit: int)
    ensures Decide(cache, t, None, tc, exit) == NoSource
    ensures Next(cache, t, None, NoSource) == cache
  {
  }

  /** The compiler is skipped exactly when the stored digest equals the source's. */
  lemma HitIffSameDigest(cache: Record, t: Target, d: Option<Digest>, tc: Toolchain, exit: int)
    requires t in cache
    ensures Decide(cache, t, d, tc, exit) == Hit <==> d == Some(cache[t])
    ensures Decide(cache, t, d, tc, exit) == Hit ==> Next(cache, t, d, Hit) == cache
  {
  }

  /** A build that did not succeed leaves every entry as it was. */
  lemma FailureKeepsCache(cache: Record, t: Target, d: Option<Digest>, tc: Toolchain, exit: int)
    requires !Succeeded(Decide(cache, t, d, tc, exit))
    ensures Next(cache, t, d, Decide(cache, t, d, tc, exit)) == cache
  {
  }

  /** A successful build records the digest for its target and changes no other entry. */
  lemma SuccessUpdatesOneEntry(cache: Record, t: Target, d: Option<Digest>, tc: Toolchain, exit: int)
    requires Succeeded(Decide(cache, t, d, tc, exit))
    ensures var c := Next(cache, t, d, Decide(cache, t, d, tc, exit));
      && d.Some? && c.Keys == cache.Keys && c[t] == d.value
      && forall u :: u in cache && u != t ==> c[u] == cache[u]
  {
  }

  /** Right after a successful build, the same bytes are a cache hit whatever the compiler would do. */
  lemma RebuildIsHit(cache: Record, t: Target, d: Option<Digest>, tc: Toolchain, exit: int, tc': Toolchain, exit': int)
    requires Succeeded(Decide(cache, t, d, tc, exit))
    ensures Decide(Next(cache, t, d, Decide(cache, t, d, tc, exit)), t, d, tc', exit') == Hit
  {
  }

  /** An entry still at its default `""` never hits, so the first build of a target always compiles. */
  lemma DefaultEntryMisses(t: Target, d: Option<Digest>, tc: Toolchain, exit: int)
    ensures Decide(DefaultRecord(), t, d, tc, exit) != Hit
  {
    if d.Some? {
      DigestMissesDefault(d.value, t);
    }
  }

  /**
   * The in-memory `global_cache` together with the cache file it was loaded
   * from and is written back to.
   */
  class Builder {
    const store: CacheFile
    var cache: Record
    /** Every `compile_file` request, in order. */
    ghost var requests: seq<Target>
    /** Every compiler process started, in order. */
    ghost var compilerRuns: seq<Invocation>

    /** The cache in memory is always the one on disk. */
    ghost predicate Valid()
      reads this, store
    {
      store.contents == Some(cache)
    }

    /** `global_cache = get_cache()` when the module is loaded. */
    constructor (store: CacheFile)
      modifies store
      ensures this.store == store && Valid()
      ensures old(store.contents).None? ==> cache == DefaultRecord()
      ensures old(store.contents).Some? ==> cache == old(store.contents).value
      ensures requests == [] && compilerRuns == []
    {
      var loaded := store.Get();
      this.store := store;
      cache := loaded;
      requests := [];
      compilerRuns := [];
    }

    /** `compile_file(source, target)`. */
    method CompileFile(src: Source, target: Target, tc: Toolchain, hash: Hasher, exit: int)
      returns (outcome: CompileOutcome)
      requires Valid()
      modifies this, store
      ensures Valid()
      ensures outcome == Decide(old(cache), target, DigestOf(src, hash), tc, exit)
      ensures cache == Next(old(cache), target, DigestOf(src, hash), outcome)
      ensures requests == old(requests) + [target]
      ensures compilerRuns == old(compilerRuns) +
        if outcome.Built? || outcome.Failed? then [Invocation(tc.compiler.value, tc.flags, src.path, target)] else []
      ensures store.writes == old(store.writes) + if outcome.Built? then 1 else 0
    {
      requests := requests + [target];
      if src.content.None? {
        return NoSource;
      }
      var digest := hash(src.content.value);
      if target !in cache {
        return NoEntry;
      }
      if digest == cache[target] {
        return Hit;
      }
      if tc.compiler.None? {
        return NoCompiler;
      }
      compilerRuns := compilerRuns + [Invocation(tc.compiler.value, tc.flags, src.path, target)];
      if exit != 0 {
        return Failed;
      }
      cache := cache[target := digest];
      store.Set(cache);
      return Built;
    }
  }

}
