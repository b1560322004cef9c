/**
 * The decision logic of the `check` and `cmp` commands (`cli.py`): how one
 * trial is judged, when the trial loop stops, how failing inputs are named
 * in the test-case folder, and which summary line is printed.
 *
 * The programs are oracles: `run(i)` is what trial `i` (counting from 0)
 * observed — the generator's output, the candidate's output on it, and the
 * checker's output (`check`) or the reference solution's output (`cmp`).
 */
module Trials {

  import opened Text

  /** `check` judges with a checker program, `cmp` against a reference solution. */
  datatype Mode = CheckMode | CmpMode

  /** What one trial observed. `judgeOut` is the checker's or the slow program's stdout. */
  datatype Trial = Trial(input: string, mainOut: string, judgeOut: string)

  /** A checker passes a trial by printing `1`, surrounded by any whitespace. */
  predicate CheckerAccepts(out: string) {
    Strip(out) == "1"
  }

  /** Whether a trial is a failing case in the given mode. */
  predicate Fails(mode: Mode, t: Trial) {
    match mode
    case CheckMode => !CheckerAccepts(t.judgeOut)
    case CmpMode => Strip(t.mainOut) != Strip(t.judgeOut)
  }

  /** On a string with no surrounding whitespace the checker verdict is plain equality with `1`. */
  lemma CheckerVerdictOnCore(x: string)
    requires IsCore(x)
    ensures CheckerAccepts(x) <==> x == "1"
  {
    StripCore([], x, []);
    assert [] + x + [] == x;
  }

  /** Checker outputs that pass: `1` with any whitespace around it, since the output is stripped. */
  lemma CheckerAcceptsExamples()
    ensures CheckerAccepts("1") && CheckerAccepts(" 1\n") && CheckerAccepts("1 ")
  {
    CheckerVerdictOnCore("1");
    StripCore([' '], "1", ['\n']);
    assert [' '] + "1" + ['\n'] == " 1\n";
    StripCore([], "1", [' ']);
    assert [] + "1" + [' '] == "1 ";
  }

  /** Checker outputs that fail: anything else, such as `0`, nothing, or two values. */
  lemma CheckerRejectsExamples()
    ensures !CheckerAccepts("0") && !CheckerAccepts("") && !CheckerAccepts("1 1") && !CheckerAccepts("1\n1")
  {
    CheckerVerdictOnCore("0");
    CheckerVerdictOnCore("");
    CheckerVerdictOnCore("1 1");
    CheckerVerdictOnCore("1\n1");
  }

  /** A checker output passes exactly when, between its whitespace, it is `1`. */
  lemma CheckerAcceptsPaddedOne(p: string, q: string, x: string)
    requires AllSpace(p) && AllSpace(q) && IsCore(x)
    ensures CheckerAccepts(p + x + q) <==> x == "1"
  {
    StripCore(p, x, q);
  }

  /** In `cmp`, outputs that differ only in surrounding whitespace agree... */
  lemma CmpIgnoresPadding(p: string, s: string, q: string, p': string, q': string, input: string)
    requires AllSpace(p) && AllSpace(q) && AllSpace(p') && AllSpace(q')
    ensures !Fails(CmpMode, Trial(input, p + s + q, p' + s + q'))
  {
    StripIgnoresPadding(p, s, q);
    StripIgnoresPadding(p', s, q');
  }

  /** ...and outputs whose stripped contents differ disagree. */
  lemma CmpSeesContent(p: string, x: string, q: string, p': string, y: string, q': string, input: string)
    requires AllSpace(p) && AllSpace(q) && AllSpace(p') && AllSpace(q')
    requires IsCore(x) && IsCore(y) && x != y
    ensures Fails(CmpMode, Trial(input, p + x + q, p' + y + q'))
  {
    StripKeepsCoresApart(p, x, q, p', y, q');
  }

  // ---------------------------------------------------------------------
  // The trial loop

  /** The verdict a mode applies to each trial: `true` for a failing case. */
  function Judge(mode: Mode): Trial -> bool
  {
    t => Fails(mode, t)
  }

  /** Loop state: trials run so far and the inputs saved so far; `found` is `|saved|`. */
  datatype Progress = Progress(trials: nat, saved: seq<string>)

  /** `Run`'s starting state: no trial run, nothing saved. */
  const Start: Progress := Progress(0, [])

  /** The state after the next trial: its input is saved if it fails. */
  function Step(fails: Trial -> bool, run: nat -> Trial, p: Progress): Progress
  {
    var t := run(p.trials);
    if fails(t) then Progress(p.trials + 1, p.saved + [t.input])
    else Progress(p.trials + 1, p.saved)
  }

  /**
   * `for i in range(tests)`: run a trial, then stop at once if `found ==
   * find`; otherwise go on until `tests` trials have run.
   */
  function Run(fails: Trial -> bool, tests: int, find: int, run: nat -> Trial, p: Progress): Progress
    decreases tests - p.trials
  {
    if p.trials >= tests then p
    else
      var q := Step(fails, run, p);
      if |q.saved| == find then q else Run(fails, tests, find, run, q)
  }

  /** One more trial from a state before the end: `Run` unfolded once. */
  lemma RunUnfold(fails: Trial -> bool, tests: int, find: int, run: nat -> Trial, p: Progress)
    requires p.trials < tests
    ensures var q := Step(fails, run, p);
      Run(fails, tests, find, run, p) == if |q.saved| == find then q else Run(fails, tests, find, run, q)
  {
  }

  /** Reference definition: the inputs of the failing trials among the first `n`, in order. */
  function Failing(fails: Trial -> bool, run: nat -> Trial, n: nat): seq<string>
  {
    if n == 0 then []
    else Failing(fails, run, n - 1) + (if fails(run(n - 1)) then [run(n - 1).input] else [])
  }

  function Max0(n: int): nat {
    if n < 0 then 0 else n
  }

  /** The loop has not stopped early: no trial count in `1..m` had reached `find` failures. */
  predicate NotYetFound(fails: Trial -> bool, run: nat -> Trial, find: int, m: nat)
  {
    forall n :: 1 <= n <= m ==> |Failing(fails, run, n)| != find
  }

  /** The loop from any state it can reach: what holds of its final state. */
  lemma {:induction false} RunFrom(fails: Trial -> bool, tests: int, find: int, run: nat -> Trial, p: Progress)
    requires p.saved == Failing(fails, run, p.trials)
    requires p.trials <= Max0(tests)
    requires NotYetFound(fails, run, find, p.trials)
    requires find >= 1 ==> |p.saved| < find
    ensures var r := Run(fails, tests, find, run, p);
      && p.trials <= r.trials <= Max0(tests)
      && (p.trials < tests ==> p.trials < r.trials)
      && r.saved == Failing(fails, run, r.trials)
      && (r.trials == Max0(tests) || |r.saved| == find)
      && (r.trials == 0 || NotYetFound(fails, run, find, r.trials - 1))
      && (find >= 1 ==> |r.saved| <= find)
    decreases tests - p.trials
  {
    if p.trials < tests {
      var q := Step(fails, run, p);
      assert q.saved == Failing(fails, run, q.trials);
      if |q.saved| != find {
        RunFrom(fails, tests, find, run, q);
      }
    }
  }

  /**
   * What the loop does from its start: at most `tests` trials and at least
   * one if `tests >= 1`; the saved inputs are exactly the failing trials'
   * inputs in discovery order; it stops after the first trial at which the
   * failure count reaches `find`, and otherwise after `tests` trials.
   */
  lemma RunCharacterized(fails: Trial -> bool, tests: int, find: int, run: nat -> Trial)
    ensures var r := Run(fails, tests, find, run, Start);
      && r.trials <= Max0(tests)
      && (tests >= 1 ==> r.trials >= 1)
      && r.saved == Failing(fails, run, r.trials)
      && (r.trials == Max0(tests) || |r.saved| == find)
      && (forall n :: 1 <= n < r.trials ==> |Failing(fails, run, n)| != find)
  {
    RunFrom(fails, tests, find, run, Start);
  }

  /** With `find >= 1`, the loop never finds more failures than asked for. */
  lemma FoundAtMostFind(fails: Trial -> bool, tests: int, find: int, run: nat -> Trial)
    requires find >= 1
    ensures |Run(fails, tests, find, run, Start).saved| <= find
  {
    RunFrom(fails, tests, find, run, Start);
  }

  lemma {:induction false} NoFailuresNothingSaved(fails: Trial -> bool, run: nat -> Trial, n: nat)
    requires forall i :: 0 <= i < n ==> !fails(run(i))
    ensures Failing(fails, run, n) == []
  {
    if n > 0 {
      NoFailuresNothingSaved(fails, run, n - 1);
    }
  }

  /** `tests = 5`, `find = 2`, trials 1 and 3 fail: three trials run and two inputs are saved. */
  lemma ExampleStopsAtSecondFailure(fails: Trial -> bool, run: nat -> Trial)
    requires fails(run(0)) && !fails(run(1)) && fails(run(2))
    ensures Run(fails, 5, 2, run, Start) == Progress(3, [run(0).input, run(2).input])
  {
    var p1 := Step(fails, run, Start);
    var p2 := Step(fails, run, p1);
    var p3 := Step(fails, run, p2);
    assert p1 == Progress(1, [run(0).input]);
    assert p3 == Progress(3, [run(0).input, run(2).input]);
    assert Run(fails, 5, 2, run, p2) == p3;
    assert Run(fails, 5, 2, run, p1) == p3;
  }

  /** `tests = 10`, `find = 3`, no trial fails: all ten trials run and nothing is saved. */
  lemma ExampleNoFailures(fails: Trial -> bool, run: nat -> Trial)
    requires forall i :: 0 <= i < 10 ==> !fails(run(i))
    ensures Run(fails, 10, 3, run, Start) == Progress(10, [])
  {
    RunCharacterized(fails, 10, 3, run);
    var r := Run(fails, 10, 3, run, Start);
    NoFailuresNothingSaved(fails, run, r.trials);
  }

  // ---------------------------------------------------------------------
  // Saved cases and the summary line

  /** The file a failing case is saved to: `input_{k}.txt`. */
  function CaseName(k: int): string
  {
    "input_" + IntToString(k) + ".txt"
  }

  lemma CaseNameInjective(j: int, k: int)
    ensures CaseName(j) == CaseName(k) ==> j == k
  {
    var a, b := CaseName(j), CaseName(k);
    assert IntToString(j) == a[6..|a| - 4];
    assert IntToString(k) == b[6..|b| - 4];
    if a == b {
      IntToStringInjective(j, k);
    }
  }

  /** The folder after saving `saved` in order, one `input_{k}.txt` per input. */
  function Cases(saved: seq<string>): map<string, string>
  {
    if saved == [] then map[]
    else Cases(saved[..|saved| - 1])[CaseName(|saved|) := saved[|saved| - 1]]
  }

  /** Saving one more input adds exactly the file `input_{|saved| + 1}.txt`. */
  lemma CasesSnoc(saved: seq<string>, x: string)
    ensures Cases(saved + [x]) == Cases(saved)[CaseName(|saved| + 1) := x]
  {
    var s := saved + [x];
    assert s[..|s| - 1] == saved;
  }

  /** Every file in the folder is the name of one of the saved cases. */
  lemma {:induction false} CasesOnlyNames(saved: seq<string>)
    ensures forall name :: name in Cases(saved) ==> exists k :: 1 <= k <= |saved| && name == CaseName(k)
  {
    if saved != [] {
      var n := |saved|;
      CasesOnlyNames(saved[..n - 1]);
      forall name | name in Cases(saved)
        ensures exists k :: 1 <= k <= n && name == CaseName(k)
      {
        if name != CaseName(n) {
          assert name in Cases(saved[..n - 1]);
        }
      }
    }
  }

  /** Saving a new case never overwrites an earlier one: its name is new. */
  lemma NextNameIsNew(saved: seq<string>)
    ensures CaseName(|saved| + 1) !in Cases(saved)
  {
    CasesOnlyNames(saved);
    forall k | 1 <= k <= |saved|
      ensures CaseName(k) != CaseName(|saved| + 1)
    {
      CaseNameInjective(k, |saved| + 1);
    }
  }

  /**
   * After saving `saved` in order, there are exactly `|saved|` files and
   * input `k` (counting from 1) is in `input_{k}.txt`.
   */
  lemma {:induction false} CasesContents(saved: seq<string>)
    ensures |Cases(saved)| == |saved|
    ensures forall k :: 1 <= k <= |saved| ==> CaseName(k) in Cases(saved) && Cases(saved)[CaseName(k)] == saved[k - 1]
  {
    if saved != [] {
      var n := |saved|;
      var init := saved[..n - 1];
      CasesContents(init);
      NextNameIsNew(init);
      var prev, m := Cases(init), Cases(saved);
      forall k | 1 <= k <= n
        ensures CaseName(k) in m && m[CaseName(k)] == saved[k - 1]
      {
        if k < n {
          assert m[CaseName(k)] == prev[CaseName(k)] == init[k - 1];
        }
      }
    }
  }

  /** Python's `f"Passed {tests} test cases"` / `f"Found {found} / {find} failing test cases"`. */
  function Report(tests: int, find: int, found: nat): string
  {
    if found == 0 then "Passed " + IntToString(tests) + " test cases"
    else "Found " + IntToString(found) + " / " + IntToString(find) + " failing test cases"
  }

  predicate IsPassReport(s: string) {
    |s| >= 7 && s[..7] == "Passed "
  }

  /** The summary is the pass line exactly when no failing case was found. */
  lemma ReportPassesIffNoneFound(tests: int, find: int, found: nat)
    ensures IsPassReport(Report(tests, find, found)) <==> found == 0
  {
    var s := Report(tests, find, found);
    if found == 0 {
      assert s[..7] == "Passed ";
    } else {
      assert s[0] == 'F';
    }
  }

  lemma ReportExamples()
    ensures Report(5, 2, 2) == "Found 2 / 2 failing test cases"
    ensures Report(10, 3, 0) == "Passed 10 test cases"
  {
    assert IntToString(2) == [DigitChar(2)] == "2";
    assert IntToString(10) == NatToString(1) + [DigitChar(0)] == "10";
  }

}
