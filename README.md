# qstress, modelled in Dafny

qstress is a stress-testing harness for competitive-programming solutions.
It compiles a candidate program (`main`), a test generator (`gen`) and either a
checker (`check`) or a slow reference solution (`slow`). It then runs random
trials until it has found a given number of failing inputs or has run a given
number of trials. Each failing input is saved into a folder, and `view` can
replay the saved cases later. Builds are skipped when a source file's SHA-256
digest matches the one recorded in a persistent cache. Settings come from a
JSON file merged over built-in defaults.

This project models the decision logic under that plumbing and proves what
each piece promises:

- `optional.dfy` (`Optional`): the `Option` type.
- `text.dfy` (`Text`): Python's `str.strip()` and the decimal rendering of
  integers used in file names and messages, with their algebra (idempotence,
  padding is ignored, rendering is injective).
- `cache.dfy` (`Cache`): the build targets, the default cache record, the
  digest type and the `cache.json` file with create-if-absent `get_cache` and
  overwriting `set_cache`.
- `config.dfy` (`Config`): the defaults, the shallow merge
  `default_config | get_config()` and the typed settings read from it.
- `util.dfy` (`Util`): `get_path`, the compiler command line, the `bin/<target>`
  path shared by compiling and running, and `compile_file`, a method of a
  `Builder` class holding `global_cache` and its file.
- `trials.dfy` (`Trials`): the trial verdicts of `check` and `cmp`, a
  functional specification of the trial loop (`Run`) with its full
  characterization, the saved-case naming and the summary line.
- `cli.dfy` (`Cli`): the failing-case folder as a class, the build sequence,
  the `check`, `cmp` and `view` commands as imperative methods, each proved
  against the specifications above.

Processes are oracles:
- The hash is a parameter `hash: seq<Byte> -> Digest`, where a `Digest` is any
  64-character lower-case hex string.
- What `shutil.which` finds is `Toolchain.compiler`.
- The compiler's exit status for each target is `exit(t)`.
- What trial `i` observes (generated input, `main`'s output and the checker's
  or `slow`'s output) is `run(i)`.
- What program `t` prints when it is given `stdin` for the `j`-th panel of `view` is `out(t, j, stdin)`.

Three exceptions that the source lets escape become explicit outcomes of
`compile_file`, in the order the code meets them:
- `NoSource`: the `FileNotFoundError` raised when `hash_file` opens a missing
  source file. A `Source` holds `None` for its bytes then.
- `NoEntry`: the `KeyError` raised when the cache file lacks the target's key.
- `NoCompiler`: the `TypeError` raised when the compiler is not found and
  `None` is passed to `subprocess.run`.

For `view`, a missing folder (`NoFolder`) and a missing case file
(`NoCase(i)`) are faults that end the command.

In `check` mode the code strips the checker's output before comparing it with
`"1"` (`cli.py:60-63`). So `"1 "` and `" 1\n"` pass, as
`Trials.CheckerAcceptsExamples` proves.

Rows below whose member has no contract of its own are the definitions that
model the cited lines; the lemmas and methods in the following rows state
their properties.

## Model

| member | source | states |
|---|---|---|
| Text.IsSpace | src/qstress/cli.py:62 | definition: the characters Python's `str.isspace` accepts, which `strip()` removes |
| Text.LeadingSpaceSpec | src/qstress/cli.py:60-62 | the leading run counted by `strip()` is all whitespace and ends at the first non-space |
| Text.TrailingSpaceSpec | src/qstress/cli.py:60-62 | the trailing run counted by `strip()` is all whitespace and starts after the last non-space |
| Text.LeadingSpaceUnique | src/qstress/cli.py:60-62 | the leading run is the only length with those two properties |
| Text.TrailingSpaceUnique | src/qstress/cli.py:60-62 | the trailing run is the only length with those two properties |
| Text.Strip | src/qstress/cli.py:60-62 | the result of `strip()` has no leading or trailing whitespace and is no longer than its input |
| Text.StripCore | src/qstress/cli.py:116-117 | stripping whitespace padding from a whitespace-free-ended core returns that core exactly |
| Text.StripSplit | src/qstress/cli.py:116-117 | every string is whitespace, then its stripped form, then whitespace |
| Text.StripIdempotent | src/qstress/cli.py:116-117 | stripping twice is stripping once |
| Text.StripIgnoresPadding | src/qstress/cli.py:116-117 | adding whitespace at either end does not change the stripped string |
| Text.StripKeepsCoresApart | src/qstress/cli.py:116-117 | two padded strings with different cores strip to different strings |
| Text.NatToString | src/qstress/cli.py:65 | a natural number renders as a non-empty string starting with a digit, of one character exactly below 10 |
| Text.NatToStringDigits | src/qstress/cli.py:65 | every character of that rendering is a decimal digit |
| Text.NatToStringNoLeadingZero | src/qstress/cli.py:65 | a positive number's rendering does not start with `0` |
| Text.DecimalRoundTrip | src/qstress/cli.py:65 | reading back the decimal rendering of `n` gives `n` |
| Text.NatToStringInjective | src/qstress/cli.py:65 | different naturals render differently |
| Text.IntToString | src/qstress/cli.py:65 | the rendering of an int is non-empty and starts with `-` exactly for negatives |
| Text.IntToStringInjective | src/qstress/cli.py:119 | different ints render differently |
| Cache.Key | src/qstress/cache.py:11 | each target's key in the cache (and binary name) is one of `check`, `gen`, `main`, `slow` |
| Cache.KeyInjective | src/qstress/cache.py:11 | different targets have different keys |
| Cache.DefaultRecord | src/qstress/cache.py:11 | definition: the record written when there is no cache file, every target mapped to `""` |
| Cache.DefaultRecordShape | src/qstress/cache.py:11 | the default record has exactly the keys `check`, `gen`, `main`, `slow`, each mapped to `""` |
| Cache.DigestMissesDefault | src/qstress/cache.py:20-23 | no 64-digit hex digest equals a default entry |
| Cache.CacheFile.Get | src/qstress/cache.py:9-18 | a missing file is created holding the default record and returned; an existing file is returned and never rewritten |
| Cache.CacheFile.Set | src/qstress/cache.py:25-28 | the file then holds exactly the given record, written once more |
| Cache.StoreThenLoad | src/qstress/cache.py:17-28 | after `set_cache(c)`, `get_cache()` returns `c`; the file holds `c` and was written once, by `set_cache` |
| Config.Merge | src/qstress/config.py:22 | keys are the union; a file value overrides; a default key not in the file keeps its default |
| Config.DefaultConfig | src/qstress/config.py:6-9 | definition: the built-in defaults, `g++`, `-O2 -std=c++17`, 200 tests, 1 failing case to find, folder `test_cases` |
| Config.DefaultConfigKeys | src/qstress/config.py:6-9 | the defaults set exactly `compilerBin`, `compileArgs`, `tests`, `find` and `folder` |
| Config.MergeDefaultsWithDefaults | src/qstress/config.py:15-22 | a file with exactly the defaults yields the defaults |
| Config.MergeIsShallow | src/qstress/config.py:22 | a `compileArgs` list from the file replaces the default list whole |
| Config.MergeIdempotent | src/qstress/config.py:22 | merging the same file twice equals merging it once |
| Config.ConfigFile.Get | src/qstress/config.py:11-20 | a missing file is written with the defaults; an existing one is returned unchanged |
| Config.Load | src/qstress/config.py:11-22 | with no file the configuration is the defaults and the file is written with them; otherwise the configuration is the defaults merged with the file, which is left as it was |
| Config.Strings | src/qstress/config.py:7 | a JSON list reads as strings exactly when every item is a string, item for item |
| Config.StringsRoundTrip | src/qstress/config.py:7 | a list of strings written as JSON reads back unchanged |
| Config.Read | src/qstress/config.py:6-9 | settings are read exactly when all five keys are present with the right JSON types (`compileArgs` a list of strings), each holding the value returned |
| Config.DefaultSettings | src/qstress/config.py:6-9 | the defaults are `g++`, `-O2 -std=c++17`, 200 tests, find 1, folder `test_cases` |
| Config.OverrideFlags | src/qstress/config.py:22 | a file that only sets `compileArgs` changes the flags and no other setting |
| Util.PathOf | src/qstress/util.py:13-20 | `get_path(args)` is the internal directory followed by the arguments in order |
| Util.PathOfSnoc | src/qstress/util.py:17-18 | `get_path(a..., b) == get_path(a...) / b` |
| Util.GetPath | src/qstress/util.py:13-20 | the loop `path /= x` computes `PathOf(args)` |
| Util.Render | src/qstress/util.py:35 | definition: `str(path)`, the components joined by `/` |
| Util.BinPath | src/qstress/util.py:35 | definition: `get_path("bin", target)` |
| Util.RunArgv | src/qstress/util.py:51-53 | definition: `run_bin` starts the target's binary path with no arguments |
| Util.BinPathRendering | src/qstress/util.py:35 | a target's binary path renders as the `bin` directory, `/`, then the target's name |
| Util.BinPathsDistinct | src/qstress/util.py:35 | different targets compile to different paths |
| Util.CompilerArgv | src/qstress/util.py:33-36 | the argv is the compiler, the flags in order, the source path, `-o`, and the target's binary path |
| Util.CompiledBinaryIsRun | src/qstress/util.py:35-53 | the path a build writes with `-o` is the path `run_bin` runs for that target, and no other target's |
| Util.DigestOf | src/qstress/cache.py:20-23 | definition: `hash_file` gives the hash of the file's bytes, and nothing when the file is missing |
| Util.ToolchainOf | src/qstress/util.py:34 | definition: the compiler is what `which` finds for `compilerBin`, the flags are `compileArgs` |
| Util.DefaultCompilerArgv | src/qstress/util.py:33-36 | under the default configuration the compiler is started as `which("g++")` with `-O2 -std=c++17`, the source, `-o` and the target's binary |
| Util.Decide | src/qstress/util.py:27-41 | definition: the outcome of one `compile_file` call, in the order missing file, missing key, equal digest, no compiler, non-zero exit |
| Util.Next | src/qstress/util.py:45 | definition: only `Built` stores the new digest for the target |
| Util.MissingSourceAborts | src/qstress/util.py:27 | a missing source is `NoSource` before the cache is consulted, and changes no entry |
| Util.HitIffSameDigest | src/qstress/util.py:27-31 | the build is a cache hit exactly when the stored digest equals the source's, and a hit leaves the cache unchanged |
| Util.FailureKeepsCache | src/qstress/util.py:38-41 | a build that does not succeed leaves the cache unchanged |
| Util.SuccessUpdatesOneEntry | src/qstress/util.py:43-49 | a successful build stores the new digest for its target and changes no other entry |
| Util.RebuildIsHit | src/qstress/util.py:29-45 | right after a successful build, the same bytes are a hit whatever the compiler would do |
| Util.DefaultEntryMisses | src/qstress/util.py:29 | a target still at its default entry is never a hit |
| Util.Builder.constructor | src/qstress/cache.py:30 | `global_cache` is what `get_cache` returns, the default record when no file exists |
| Util.Builder.CompileFile | src/qstress/util.py:22-49 | the outcome is `NoSource`, `NoEntry`, `Hit`, `NoCompiler`, `Failed` or `Built` in that precedence; a compiler process (whose `Argv()` is the argv above) starts only for `Failed` and `Built`; only `Built` changes its entry and writes the cache file, once; memory and file stay equal |
| Trials.CheckerAccepts | src/qstress/cli.py:60-63 | definition: the checker passes a trial when its stripped output is `1` |
| Trials.Fails | src/qstress/cli.py:60-63 | definition: a trial fails when the checker does not pass it (`check`), or when the stripped outputs differ (`cmp`, lines 116-118) |
| Trials.CheckerVerdictOnCore | src/qstress/cli.py:60-63 | on output with no surrounding whitespace, the checker passes exactly on `1` |
| Trials.CheckerAcceptsExamples | src/qstress/cli.py:60-63 | checker outputs `1`, ` 1\n` and `1 ` pass |
| Trials.CheckerRejectsExamples | src/qstress/cli.py:60-63 | checker outputs `0`, empty, `1 1` and `1\n1` fail |
| Trials.CheckerAcceptsPaddedOne | src/qstress/cli.py:60-63 | a padded checker output passes exactly when its core is `1` |
| Trials.CmpIgnoresPadding | src/qstress/cli.py:116-118 | outputs that differ only in surrounding whitespace agree |
| Trials.CmpSeesContent | src/qstress/cli.py:116-118 | outputs whose cores differ are a failing trial |
| Trials.Step | src/qstress/cli.py:56-67 | definition: one trial, whose input is saved when it fails |
| Trials.Run | src/qstress/cli.py:54-69 | definition: the trial loop, stopping after `tests` trials or at once when `found == find` |
| Trials.RunFrom | src/qstress/cli.py:54-69 | from any reachable loop state, the loop ends within `tests` trials, with the failing inputs in order, having stopped at the first `found == find` or at `tests` |
| Trials.RunCharacterized | src/qstress/cli.py:54-69 | at most `tests` trials run, at least one if `tests >= 1`; the saved inputs are exactly the failing trials' inputs in order; the loop stops at the first trial that brings `found` to `find`, else after `tests` |
| Trials.FoundAtMostFind | src/qstress/cli.py:67-69 | with `find >= 1`, at most `find` failures are found |
| Trials.NoFailuresNothingSaved | src/qstress/cli.py:63 | if no trial fails, nothing is saved |
| Trials.ExampleStopsAtSecondFailure | src/qstress/cli.py:113-123 | `tests=5, find=2`, failures on trials 1 and 3: three trials run and those two inputs are saved |
| Trials.ExampleNoFailures | src/qstress/cli.py:54-69 | `tests=10, find=3`, no failure: ten trials run and nothing is saved |
| Trials.CaseName | src/qstress/cli.py:65 | definition: the file name `input_{k}.txt` |
| Trials.Cases | src/qstress/cli.py:63-67 | definition: the folder after saving the given inputs, the `k`-th as `input_{k}.txt` |
| Trials.CaseNameInjective | src/qstress/cli.py:65 | different indices give different case file names |
| Trials.CasesSnoc | src/qstress/cli.py:118-121 | saving one more input adds exactly the file `input_{found+1}.txt` |
| Trials.CasesContents | src/qstress/cli.py:63-67 | after saving `k` inputs the folder holds `k` files, `input_i.txt` holding the `i`-th input found |
| Trials.CasesOnlyNames | src/qstress/cli.py:63-67 | every file in that folder is one of `input_1.txt` … `input_k.txt` |
| Trials.NextNameIsNew | src/qstress/cli.py:64-67 | the next case name `input_{found+1}.txt` is not yet in the folder, so no case is overwritten |
| Trials.Report | src/qstress/cli.py:70-73 | definition: the summary line, `Passed {tests} test cases` or `Found {found} / {find} failing test cases` |
| Trials.ReportPassesIffNoneFound | src/qstress/cli.py:70-73 | the summary is the `Passed` line exactly when nothing was found |
| Trials.ReportExamples | src/qstress/cli.py:124-127 | the two summary lines for concrete counters |
| Cli.Folder.Reset | src/qstress/cli.py:35-41 | the folder is created if missing, else emptied entry by entry; afterwards it exists and is empty |
| Cli.Folder.Write | src/qstress/cli.py:119-120 | writing a case file sets that one file and keeps all others |
| Cli.CompilerRun | src/qstress/util.py:33-36 | definition: a build that reaches the compiler (`Built` or `Failed`) runs it once with the flags, the source and the target; every other outcome runs nothing |
| Cli.BuildAll | src/qstress/cli.py:46-51 | definition: `compile_file` on each request in turn, stopping at the first that does not succeed |
| Cli.BuildStopsAtFirstFailure | src/qstress/cli.py:46-51 | targets are attempted in order; a stop is at the last attempted target and is not a success; with no stop all were attempted |
| Cli.BuildStopIsFirst | src/qstress/cli.py:46-51 | a stop is at the first request that does not succeed: the requests before it, built on their own, do not stop |
| Cli.BuildRecordsDigests | src/qstress/cli.py:105-110 | after a build sequence with no stop, every source existed, each target holds its source's digest, and no other entry changed |
| Cli.Jobs | src/qstress/cli.py:46-51 | definition: the three `compile_file` requests, `main`, then `check` (`slow` in `cmp`, lines 105-110), then `gen`, each with its source and the compiler's exit status |
| Cli.JobsOrder | src/qstress/cli.py:46-51 | the three builds are `main`, then `check` (or `slow` in `cmp`), then `gen`, all distinct |
| Cli.BuildFrom | src/qstress/cli.py:105-110 | the chain of `compile_file` calls leaves the outcome, cache, requests and compiler runs of the build specification, stopping at the first failure |
| Cli.RunTrials | src/qstress/cli.py:53-73 | from an empty folder, the trial count, found count, folder contents and summary are exactly those of the loop specification for the given verdict |
| Cli.Check | src/qstress/cli.py:35-73 | the folder is reset; a failed build aborts with an empty folder; otherwise trials, count, folder contents and summary are those of the loop specification with the checker verdict |
| Cli.Cmp | src/qstress/cli.py:94-127 | the same with `slow` as the reference and the stripped-output comparison as the verdict |
| Cli.Shown | src/qstress/cli.py:194-198 | `test == 0` shows `1..N` in increasing order, any other value shows only that case |
| Cli.Reruns | src/qstress/cli.py:186-190 | definition: a replay re-runs `main` only in checker mode, else `main` then `slow` |
| Cli.Expected | src/qstress/cli.py:183-192 | definition: the panel for a case, holding its stored input and what `main` (and `slow` unless in checker mode) print when given that input |
| Cli.RerunsOnStoredInput | src/qstress/cli.py:183-190 | a panel holds the case's stored input, re-runs `main` only (checker mode) or `main` then `slow`, and every re-run is given that stored input on stdin |
| Cli.Display | src/qstress/cli.py:183-192 | a present case gives the panel `Expected` for it: its stored input, with `main` (and `slow` unless in checker mode) re-run on that input; a missing case gives nothing, and only then |
| Cli.ViewAll | src/qstress/cli.py:194-196 | the panels are cases `1..n` in order, where `n` is the number of files, each re-run on its own stored input; the loop stops at the first missing case and reports it, and finishes without a fault only if every case is shown |
| Cli.View | src/qstress/cli.py:183-198 | the panels are the shown cases in order, each with its stored input and the programs re-run on that input; a missing folder or case ends the command at that case |
| Cli.ReplayFollowsDiscovery | src/qstress/cli.py:63-67 | replaying the folder a run left shows exactly the saved inputs, in discovery order |

## Left out

- Processes (`subprocess.run`): the compiler's exit status, the programs'
  outputs and what `shutil.which` finds are inputs to the model. A child that
  crashes or hangs is not modelled; the source has no timeout.
- SHA-256 and JSON encoding: the hash is any function from bytes to a
  64-digit hex digest, and the cache and configuration files hold their
  decoded values. A malformed file (which makes `json.load` raise) is not
  modelled.
- JSON numbers are integers only. A configuration file whose top level is not
  an object is not modelled.
- File-system mechanics: `mkdir`, `unlink`, `shutil.copy` and the
  `io/input.txt` scratch file are not modelled. Each saved case is the
  generated input, written into the folder model.
- `src/qstress/globals.py` (`ensure_paths`, `console`) is not part of this
  model. The home directory is the placeholder component `~`.
- The `rich` console, status and panel output, markup and colours. The
  summary line is modelled without markup, and a `view` panel is modelled as
  its index, input and re-run outputs.
- `typer` argument parsing and the wiring of option defaults from the
  configuration.
- The `compile`, `gen` and `config` commands: they call `compile_file`, run
  the generator once or print the configuration, and add no logic of their own.
- `compile_file` targets are the four names only. Other names raise
  `KeyError` in the source, which is outside this model.
- Trials.FoundAtMostFind: requires `find >= 1`. With `find <= 0` the equality
  test never fires after the first failure, so `found` can exceed `find`.
  `Check` and `Cmp` model that case as the code does.
- `get_path` arguments are path components as given. pathlib's `/` also
  drops `""` and `.` and lets an absolute argument replace the path; every
  caller passes plain names, so the core never meets those cases.
- `check` and `cmp` repeat the same trial loop with different verdicts. The
  model proves that loop once, as `Cli.RunTrials`, over the verdict
  `Trials.Fails(mode, t)`. The stripping of outputs is therefore inside the
  verdict rather than in the loop body.
