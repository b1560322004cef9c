/**
 * The `check`, `cmp` and `view` commands (`cli.py`) as imperative methods
 * over the failing-case folder and the builder, each proved against the
 * specification functions of `Trials` and `Util`.
 */
module Cli {

  import opened Optional
  import opened Text
  import opened Cache
  import opened Util
  import opened Trials

  /** The failing-case folder (`cwd / folder`): whether it exists, and its files by name. */
  class Folder {
    var present: bool
    var files: map<string, string>

    /** A folder that does not exist holds no files. */
    ghost predicate Valid()
      reads this
    {
      !present ==> files == map[]
    }

    constructor (present: bool, files: map<string, string>)
      requires !present ==> files == map[]
      ensures Valid() && this.present == present && this.files == files
    {
      this.present := present;
      this.files := files;
    }

    /** Create the folder if it is missing, else `unlink` every entry: afterwards it exists and is empty. */
    method Reset()
      requires Valid()
      modifies this
      ensures Valid() && present && files == map[]
    {
      if !present {
        present := true;
        files := map[];
      } else {
        var entries := files.Keys;
        while entries != {}
          invariant present && entries == files.Keys
          decreases entries
        {
          var x :| x in entries;
          files := files - {x};
          entries := entries - {x};
        }
        assert forall name :: name !in files;
        assert files == map[];
      }
    }

    /** Write `data` to the file `name` in the folder, replacing any file of that name. */
    method Write(name: string, data: string)
      requires Valid() && present
      modifies this
      ensures Valid() && present && files == old(files)[name := data]
    {
      files := files[name := data];
    }
  }

  // ---------------------------------------------------------------------
  // Building the three binaries

  /** One `compile_file` request of a command, with the exit status its compiler would give. */
  datatype Job = Job(target: Target, source: Source, exit: int)

  /** What a sequence of `compile_file` calls did, stopping at the first that did not succeed. */
  datatype BuildReport = BuildReport(
    stop: Option<(Target, CompileOutcome)>,
    cache: Record,
    attempted: seq<Target>,
    compilerRuns: seq<Invocation>)

  /** The compiler process a request starts: one for `Built` and `Failed`, none otherwise. */
  function CompilerRun(j: Job, tc: Toolchain, o: CompileOutcome): seq<Invocation>
  {
    if (o.Built? || o.Failed?) && tc.compiler.Some? then [Invocation(tc.compiler.value, tc.flags, j.source.path, j.target)] else []
  }

  /** The specification of the `if not compile_file(...): return` sequence. */
  function BuildAll(cache: Record, jobs: seq<Job>, tc: Toolchain, hash: Hasher): BuildReport
  {
    if jobs == [] then BuildReport(None, cache, [], [])
    else
      var j := jobs[0];
      var d := DigestOf(j.source, hash);
      var o := Decide(cache, j.target, d, tc, j.exit);
      if !Succeeded(o) then BuildReport(Some((j.target, o)), cache, [j.target], CompilerRun(j, tc, o))
      else
        var rest := BuildAll(Next(cache, j.target, d, o), jobs[1..], tc, hash);
        rest.(attempted := [j.target] + rest.attempted, compilerRuns := CompilerRun(j, tc, o) + rest.compilerRuns)
  }

  /** One request of the sequence, then the rest: `BuildAll` unfolded once. */
  lemma BuildAllStep(cache: Record, jobs: seq<Job>, tc: Toolchain, hash: Hasher)
    requires jobs != []
    ensures var j := jobs[0];
      var d := DigestOf(j.source, hash);
      var o := Decide(cache, j.target, d, tc, j.exit);
      var r := BuildAll(cache, jobs, tc, hash);
      var rest := BuildAll(Next(cache, j.target, d, o), jobs[1..], tc, hash);
      && (!Succeeded(o) ==> r == BuildReport(Some((j.target, o)), cache, [j.target], CompilerRun(j, tc, o)))
      && (Succeeded(o) ==>
            && r.stop == rest.stop && r.cache == rest.cache
            && r.attempted == [j.target] + rest.attempted
            && r.compilerRuns == CompilerRun(j, tc, o) + rest.compilerRuns)
  {
  }

  function Targets(jobs: seq<Job>): (ts: seq<Target>)
    ensures |ts| == |jobs| && forall i :: 0 <= i < |jobs| ==> ts[i] == jobs[i].target
  {
    if jobs == [] then [] else [jobs[0].target] + Targets(jobs[1..])
  }

  /**
   * The targets compile in the order given: a stop is at the last target
   * attempted, with an outcome that is not a success, and a run with no stop
   * attempted them all.
   */
  lemma {:induction false} BuildStopsAtFirstFailure(cache: Record, jobs: seq<Job>, tc: Toolchain, hash: Hasher)
    ensures var r := BuildAll(cache, jobs, tc, hash);
      && |r.attempted| <= |jobs| && r.attempted == Targets(jobs)[..|r.attempted|]
      && (r.stop.None? ==> |r.attempted| == |jobs|)
      && (r.stop.Some? ==> |r.attempted| >= 1 && r.attempted[|r.attempted| - 1] == r.stop.value.0 && !Succeeded(r.stop.value.1))
  {
    if jobs != [] {
      var j := jobs[0];
      var d := DigestOf(j.source, hash);
      var o := Decide(cache, j.target, d, tc, j.exit);
      var ts := Targets(jobs);
      assert ts == [j.target] + Targets(jobs[1..]);
      BuildAllStep(cache, jobs, tc, hash);
      if Succeeded(o) {
        var c := Next(cache, j.target, d, o);
        var rest := BuildAll(c, jobs[1..], tc, hash);
        BuildStopsAtFirstFailure(c, jobs[1..], tc, hash);
        PrefixCons(j.target, Targets(jobs[1..]), |rest.attempted|);
      } else {
        assert ts[..1] == [j.target];
      }
    }
  }

  /** A prefix of `[x] + s` is `x` followed by a prefix of `s`. */
  lemma PrefixCons<T>(x: T, s: seq<T>, k: nat)
    requires k <= |s|
    ensures ([x] + s)[..k + 1] == [x] + s[..k]
  {
  }

  /**
   * The stop is at the FIRST request that does not succeed: the requests
   * before it, built on their own from the same cache, all succeed.
   */
  lemma {:induction false} BuildStopIsFirst(cache: Record, jobs: seq<Job>, tc: Toolchain, hash: Hasher)
    ensures var r := BuildAll(cache, jobs, tc, hash);
      r.stop.Some? ==> 1 <= |r.attempted| <= |jobs| && BuildAll(cache, jobs[..|r.attempted| - 1], tc, hash).stop.None?
  {
    if jobs != [] {
      var j := jobs[0];
      var d := DigestOf(j.source, hash);
      var o := Decide(cache, j.target, d, tc, j.exit);
      BuildAllStep(cache, jobs, tc, hash);
      if Succeeded(o) {
        var c := Next(cache, j.target, d, o);
        var rest := BuildAll(c, jobs[1..], tc, hash);
        BuildStopIsFirst(c, jobs[1..], tc, hash);
        if rest.stop.Some? {
          var k := |rest.attempted|;
          var before := jobs[..k];
          assert before[0] == j && before[1..] == jobs[1..][..k - 1];
          BuildAllStep(cache, before, tc, hash);
        }
      }
    }
  }

  predicate DistinctTargets(jobs: seq<Job>) {
    forall i, k :: 0 <= i < k < |jobs| ==> jobs[i].target != jobs[k].target
  }

  /**
   * After a build sequence with no failure, every target holds the digest of
   * the source just compiled for it, and no other entry changed.
   */
  lemma {:induction false} BuildRecordsDigests(cache: Record, jobs: seq<Job>, tc: Toolchain, hash: Hasher)
    requires DistinctTargets(jobs)
    ensures var r := BuildAll(cache, jobs, tc, hash);
      r.stop.None? ==>
        && (forall i :: 0 <= i < |jobs| ==> jobs[i].target in r.cache && DigestOf(jobs[i].source, hash) == Some(r.cache[jobs[i].target]))
        && (forall t :: t !in Targets(jobs) ==> (t in r.cache <==> t in cache) && (t in cache ==> r.cache[t] == cache[t]))
  {
    if jobs != [] {
      var j := jobs[0];
      var d := DigestOf(j.source, hash);
      var o := Decide(cache, j.target, d, tc, j.exit);
      if Succeeded(o) {
        var c := Next(cache, j.target, d, o);
        BuildRecordsDigests(c, jobs[1..], tc, hash);
        assert Targets(jobs) == [j.target] + Targets(jobs[1..]);
        assert j.target !in Targets(jobs[1..]);
      }
    }
  }

  /** The three requests of a command: `main`, then the checker or reference, then the generator. */
  function Jobs(mode: Mode, main: Source, second: Source, gen: Source, exit: Target -> int): seq<Job>
  {
    var t := if mode == CheckMode then Target.Check else Slow;
    [Job(Main, main, exit(Main)), Job(t, second, exit(t)), Job(Gen, gen, exit(Gen))]
  }

  lemma JobsOrder(mode: Mode, main: Source, second: Source, gen: Source, exit: Target -> int)
    ensures Targets(Jobs(mode, main, second, gen, exit)) == [Main, if mode == CheckMode then Target.Check else Slow, Gen]
    ensures DistinctTargets(Jobs(mode, main, second, gen, exit))
  {
    var jobs := Jobs(mode, main, second, gen, exit);
    assert Targets(jobs) == [jobs[0].target] + Targets(jobs[1..]);
  }

  /** How a `check` or `cmp` command ends. */
  datatype StressResult =
    | Aborted(stage: Target, why: CompileOutcome)
    | Finished(trials: nat, found: nat, report: string)

  /** The state the specification predicts for a command once its binaries are built. */
  predicate Concludes(r: StressResult, folder: map<string, string>, p: Progress, tests: int, find: int)
  {
    && r == Finished(p.trials, |p.saved|, Report(tests, find, |p.saved|))
    && folder == Cases(p.saved)
  }

  /**
   * The chain `if not compile_file(...): return`: compile the first request,
   * and go on with the rest only if it succeeded.
   */
  method BuildFrom(b: Builder, jobs: seq<Job>, tc: Toolchain, hash: Hasher) returns (stop: Option<(Target, CompileOutcome)>)
    requires b.Valid()
    modifies b, b.store
    ensures b.Valid()
    ensures var r := BuildAll(old(b.cache), jobs, tc, hash);
      && stop == r.stop && b.cache == r.cache
      && b.requests == old(b.requests) + r.attempted
      && b.compilerRuns == old(b.compilerRuns) + r.compilerRuns
    decreases |jobs|
  {
    if jobs == [] {
      return None;
    }
    ghost var c0, q0, r0 := b.cache, b.requests, b.compilerRuns;
    var j := jobs[0];
    BuildAllStep(c0, jobs, tc, hash);
    var o := b.CompileFile(j.source, j.target, tc, hash, j.exit);
    if !Succeeded(o) {
      return Some((j.target, o));
    }
    ghost var c1 := b.cache;
    stop := BuildFrom(b, jobs[1..], tc, hash);
    ghost var rest := BuildAll(c1, jobs[1..], tc, hash);
    SeqAssoc(q0, [j.target], rest.attempted);
    SeqAssoc(r0, CompilerRun(j, tc, o), rest.compilerRuns);
  }

  /** Concatenation regroups: spelled out so the solver need not search for it. */
  lemma SeqAssoc<T>(a: seq<T>, b: seq<T>, c: seq<T>)
    ensures (a + b) + c == a + (b + c)
  {
  }

  /**
   * The trial loop shared by `check` and `cmp`, which differ only in the
   * verdict `fails`: run up to `tests` trials, save each failing input as
   * `input_{found + 1}.txt`, and stop as soon as `found == find`.
   */
  method RunTrials(folder: Folder, tests: int, find: int, run: nat -> Trial, fails: Trial -> bool)
    returns (result: StressResult)
    requires folder.Valid() && folder.present && folder.files == map[]
    modifies folder
    ensures folder.Valid() && folder.present
    ensures Concludes(result, folder.files, Run(fails, tests, find, run, Start), tests, find)
  {
    var found := 0;
    var i := 0;
    ghost var saved: seq<string> := [];
    ghost var final := Run(fails, tests, find, run, Start);
    while i < tests
      invariant 0 <= i
      invariant found == |saved| && folder.Valid() && folder.present && folder.files == Cases(saved)
      invariant final == Run(fails, tests, find, run, Progress(i, saved))
      decreases tests - i
    {
      RunUnfold(fails, tests, find, run, Progress(i, saved));
      ghost var next := Step(fails, run, Progress(i, saved));
      var t := run(i);
      if fails(t) {
        CasesSnoc(saved, t.input);
        folder.Write(CaseName(found + 1), t.input);
        found := found + 1;
        saved := saved + [t.input];
      }
      i := i + 1;
      assert next == Progress(i, saved);
      if found == find {
        assert final == Progress(i, saved);
        return Finished(i, found, Report(tests, find, found));
      }
    }
    assert final == Progress(i, saved);
    return Finished(i, found, Report(tests, find, found));
  }

  /**
   * The `check` command: reset the folder, build `main`, `check` and `gen`
   * (returning at the first that does not succeed), then run the trials,
   * a trial failing when the checker's stripped output is not `1`.
   */
  method Check(b: Builder, folder: Folder, main: Source, checker: Source, gen: Source,
               tests: int, find: int, tc: Toolchain, hash: Hasher, exit: Target -> int, run: nat -> Trial)
    returns (result: StressResult)
    requires b.Valid() && folder.Valid()
    modifies b, b.store, folder
    ensures b.Valid() && folder.Valid() && folder.present
    ensures var build := BuildAll(old(b.cache), Jobs(CheckMode, main, checker, gen, exit), tc, hash);
      && b.cache == build.cache
      && b.requests == old(b.requests) + build.attempted
      && b.compilerRuns == old(b.compilerRuns) + build.compilerRuns
      && (build.stop.Some? ==> result == Aborted(build.stop.value.0, build.stop.value.1) && folder.files == map[])
      && (build.stop.None? ==> Concludes(result, folder.files, Run(Judge(CheckMode), tests, find, run, Start), tests, find))
  {
    folder.Reset();
    var stop := BuildFrom(b, Jobs(CheckMode, main, checker, gen, exit), tc, hash);
    if stop.Some? {
      return Aborted(stop.value.0, stop.value.1);
    }
    result := RunTrials(folder, tests, find, run, Judge(CheckMode));
  }

  /**
   * The `cmp` command: as `check`, but builds `slow` in place of `check`,
   * and a trial fails when the stripped outputs of `main` and `slow` differ.
   */
  method Cmp(b: Builder, folder: Folder, main: Source, slow: Source, gen: Source,
             tests: int, find: int, tc: Toolchain, hash: Hasher, exit: Target -> int, run: nat -> Trial)
    returns (result: StressResult)
    requires b.Valid() && folder.Valid()
    modifies b, b.store, folder
    ensures b.Valid() && folder.Valid() && folder.present
    ensures var build := BuildAll(old(b.cache), Jobs(CmpMode, main, slow, gen, exit), tc, hash);
      && b.cache == build.cache
      && b.requests == old(b.requests) + build.attempted
      && b.compilerRuns == old(b.compilerRuns) + build.compilerRuns
      && (build.stop.Some? ==> result == Aborted(build.stop.value.0, build.stop.value.1) && folder.files == map[])
      && (build.stop.None? ==> Concludes(result, folder.files, Run(Judge(CmpMode), tests, find, run, Start), tests, find))
  {
    folder.Reset();
    var stop := BuildFrom(b, Jobs(CmpMode, main, slow, gen, exit), tc, hash);
    if stop.Some? {
      return Aborted(stop.value.0, stop.value.1);
    }
    result := RunTrials(folder, tests, find, run, Judge(CmpMode));
  }

  // ---------------------------------------------------------------------
  // Replaying saved cases

  /** One displayed case: its index, its stored input and the programs re-run on it, in order. */
  datatype Panel = Panel(index: int, input: string, outputs: seq<(Target, string)>)

  /** Why `view` stopped early: the folder (`iterdir`) or a case file (`read_text`) is missing. */
  datatype ViewFault = NoFolder | NoCase(index: int)

  /** The cases `view` displays: all of `1..entries` for `test == 0`, else just `test`. */
  function Shown(test: int, entries: nat): (idx: seq<int>)
    ensures test == 0 ==> |idx| == entries && forall j :: 0 <= j < entries ==> idx[j] == j + 1
    ensures test != 0 ==> idx == [test]
  {
    if test == 0 then seq(entries, j => j + 1) else [test]
  }

  /** The programs re-run per case: only `main` in checker mode, else `main` then `slow`. */
  function Reruns(checker: bool, mainOut: string, slowOut: string): seq<(Target, string)>
  {
    if checker then [(Main, mainOut)] else [(Main, mainOut), (Slow, slowOut)]
  }

  /**
   * The panel `display(idx)` shows as the `j`-th of the command: the stored
   * input of case `idx` and what the programs print with that input as stdin.
   * `out(t, j, stdin)` is what program `t` prints when re-run for the `j`-th
   * panel on `stdin`.
   */
  function Expected(files: map<string, string>, idx: int, checker: bool, j: nat, out: (Target, nat, string) -> string): Panel
    requires CaseName(idx) in files
  {
    var data := files[CaseName(idx)];
    Panel(idx, data, Reruns(checker, out(Main, j, data), out(Slow, j, data)))
  }

  /** Every program of a panel is re-run on the case's stored input: `main` first, `slow` too outside checker mode. */
  lemma RerunsOnStoredInput(files: map<string, string>, idx: int, checker: bool, j: nat, out: (Target, nat, string) -> string)
    requires CaseName(idx) in files
    ensures var p := Expected(files, idx, checker, j, out);
      && p.index == idx && p.input == files[CaseName(idx)]
      && |p.outputs| == (if checker then 1 else 2) && p.outputs[0].0 == Main
      && (!checker ==> p.outputs[1].0 == Slow)
      && forall k :: 0 <= k < |p.outputs| ==> p.outputs[k].1 == out(p.outputs[k].0, j, p.input)
  {
  }

  /** `display(test_idx)`: read the case, re-run `main` and, outside checker mode, `slow` on it. */
  method Display(folder: Folder, idx: int, checker: bool, j: nat, out: (Target, nat, string) -> string)
    returns (panel: Option<Panel>)
    ensures panel.None? <==> CaseName(idx) !in folder.files
    ensures panel.Some? ==> CaseName(idx) in folder.files && panel.value == Expected(folder.files, idx, checker, j, out)
  {
    var name := CaseName(idx);
    if name !in folder.files {
      return None;
    }
    var data := folder.files[name];
    var outputs := [(Main, out(Main, j, data))];
    if !checker {
      outputs := outputs + [(Slow, out(Slow, j, data))];
    }
    return Some(Panel(idx, data, outputs));
  }

  /**
   * `view` with `test == 0` on an existing folder: `display(i)` for `i` in
   * `1..N`, where `N` is the number of entries, ending at the first case
   * file that is missing.
   */
  method ViewAll(folder: Folder, checker: bool, out: (Target, nat, string) -> string)
    returns (panels: seq<Panel>, fault: Option<ViewFault>)
    ensures var shown := Shown(0, |folder.files|);
      && |panels| <= |shown|
      && (forall j :: 0 <= j < |panels| ==>
            CaseName(shown[j]) in folder.files
            && panels[j] == Expected(folder.files, shown[j], checker, j, out))
      && (fault.None? <==> |panels| == |shown|)
      && (fault.Some? ==> fault.value == NoCase(shown[|panels|]) && CaseName(shown[|panels|]) !in folder.files)
  {
    panels := [];
    ghost var files := folder.files;
    var n := |folder.files|;
    ghost var shown := Shown(0, n);
    var i := 1;
    while i <= n
      invariant 1 <= i <= n + 1 && |panels| == i - 1 && |shown| == n
      invariant forall j :: 0 <= j < |panels| ==>
        CaseName(shown[j]) in files && panels[j] == Expected(files, shown[j], checker, j, out)
    {
      var p := Display(folder, i, checker, i - 1, out);
      assert shown[i - 1] == i;
      if p.None? {
        return panels, Some(NoCase(i));
      }
      ghost var prev := panels;
      panels := panels + [p.value];
      forall j | 0 <= j < |panels|
        ensures CaseName(shown[j]) in files && panels[j] == Expected(files, shown[j], checker, j, out)
      {
        if j < |prev| {
          assert panels[j] == prev[j];
        } else {
          assert j == i - 1 && panels[j] == p.value;
        }
      }
      i := i + 1;
    }
    return panels, None;
  }

  /**
   * The `view` command. `out(t, j, stdin)` is what program `t` prints when
   * re-run on `stdin` for the `j`-th displayed panel.
   */
  method View(folder: Folder, test: int, checker: bool, out: (Target, nat, string) -> string)
    returns (panels: seq<Panel>, fault: Option<ViewFault>)
    requires folder.Valid()
    ensures test == 0 && !folder.present ==> panels == [] && fault == Some(NoFolder)
    ensures test != 0 || folder.present ==>
      var shown := Shown(test, |folder.files|);
      && |panels| <= |shown|
      && (forall j :: 0 <= j < |panels| ==>
            CaseName(shown[j]) in folder.files
            && panels[j] == Expected(folder.files, shown[j], checker, j, out))
      && (fault.None? <==> |panels| == |shown|)
      && (fault.Some? ==> fault.value == NoCase(shown[|panels|]) && CaseName(shown[|panels|]) !in folder.files)
  {
    if test == 0 {
      if !folder.present {
        return [], Some(NoFolder);
      }
      panels, fault := ViewAll(folder, checker, out);
    } else {
      var p := Display(folder, test, checker, 0, out);
      if p.None? {
        return [], Some(NoCase(test));
      }
      return [p.value], None;
    }
  }

  /**
   * After a `check` or `cmp` run that saved `saved`, `view` with `test == 0`
   * finds exactly `|saved|` entries and shows them in discovery order.
   */
  lemma ReplayFollowsDiscovery(saved: seq<string>)
    ensures var files := Cases(saved);
      var shown := Shown(0, |files|);
      && |shown| == |saved|
      && forall j :: 0 <= j < |saved| ==> CaseName(shown[j]) in files && files[CaseName(shown[j])] == saved[j]
  {
    CasesContents(saved);
    var shown := Shown(0, |Cases(saved)|);
    forall j | 0 <= j < |saved|
      ensures CaseName(shown[j]) in Cases(saved) && Cases(saved)[CaseName(shown[j])] == saved[j]
    {
      assert shown[j] == j + 1;
    }
  }

}
