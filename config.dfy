/**
 * The configuration (`config.py`): built-in defaults, a JSON file that may
 * override any of them, and the shallow union `default_config | get_config()`.
 */
module Config {

  import opened Optional

  /** The JSON values a configuration file can hold (numbers restricted to integers). */
  datatype Json =
    | JNull
    | JBool(b: bool)
    | JNum(n: int)
    | JStr(s: string)
    | JArr(items: seq<Json>)
    | JObj(fields: map<string, Json>)

  type Dict = map<string, Json>

  function DefaultConfig(): Dict {
    map[
      "compilerBin" := JStr("g++"),
      "compileArgs" := JArr([JStr("-O2"), JStr("-std=c++17")]),
      "tests" := JNum(200),
      "find" := JNum(1),
      "folder" := JStr("test_cases")
    ]
  }

  /** The defaults set exactly the five keys the program reads. */
  lemma DefaultConfigKeys()
    ensures DefaultConfig().Keys == {"compilerBin", "compileArgs", "tests", "find", "folder"}
  {
  }

  /** `base | over`: every key of either, the value from `over` where both have it. */
  function Merge(base: Dict, over: Dict): (r: Dict)
    ensures r.Keys == base.Keys + over.Keys
    ensures forall k :: k in over ==> r[k] == over[k]
    ensures forall k :: k in base && k !in over ==> r[k] == base[k]
  {
    base + over
  }

  /** A file holding exactly the defaults yields exactly the defaults. */
  lemma MergeDefaultsWithDefaults()
    ensures Merge(DefaultConfig(), DefaultConfig()) == DefaultConfig()
  {
  }

  /** Merging is shallow: a value from the file replaces the default whole, lists included. */
  lemma MergeIsShallow(over: Dict, items: seq<Json>)
    requires "compileArgs" in over && over["compileArgs"] == JArr(items)
    ensures Merge(DefaultConfig(), over)["compileArgs"] == JArr(items)
  {
  }

  /** Re-applying the same file changes nothing. */
  lemma MergeIdempotent(base: Dict, over: Dict)
    ensures Merge(Merge(base, over), over) == Merge(base, over)
  {
  }

  /** `config.json`: absent (`None`) until the first `get_config`. */
  class ConfigFile {
    var contents: Option<Dict>

    constructor (initial: Option<Dict>)
      ensures contents == initial
    {
      contents := initial;
    }

    /** `get_config`: write the defaults if the file is missing, then read it. */
    method Get() returns (d: Dict)
      modifies this
      ensures old(contents).None? ==> contents == Some(DefaultConfig())
      ensures old(contents).Some? ==> contents == old(contents)
      ensures contents == Some(d)
    {
      if contents.None? {
        contents := Some(DefaultConfig());
      }
      d := contents.value;
    }
  }

  /** `global_config`: the defaults overridden by whatever the file holds. */
  method Load(f: ConfigFile) returns (cfg: Dict)
    modifies f
    ensures old(f.contents).None? ==> cfg == DefaultConfig()
    ensures old(f.contents).Some? ==> cfg == Merge(DefaultConfig(), old(f.contents).value)
    ensures f.contents == Some(if old(f.contents).None? then DefaultConfig() else old(f.contents).value)
  {
    var file := f.Get();
    cfg := Merge(DefaultConfig(), file);
  }

  // ---------------------------------------------------------------------
  // The typed view of the configuration that the rest of the program uses.

  /** The values `cli.py` and `util.py` read from `global_config`. */
  datatype Settings = Settings(
    compilerBin: string, compileArgs: seq<string>, tests: int, find: int, folder: string)

  /** The strings of a JSON list, if every item is a string. */
  function Strings(items: seq<Json>): (r: Option<seq<string>>)
    ensures r.Some? ==> |r.value| == |items| && forall i :: 0 <= i < |items| ==> items[i] == JStr(r.value[i])
    ensures r.None? ==> exists i :: 0 <= i < |items| && !items[i].JStr?
  {
    if items == [] then Some([])
    else if !items[0].JStr? then None
    else
      match Strings(items[1..])
      case None => None
      case Some(rest) => Some([items[0].s] + rest)
  }

  /** A list of strings written out as JSON reads back as the same list. */
  lemma {:induction false} StringsRoundTrip(xs: seq<string>)
    ensures Strings(seq(|xs|, i requires 0 <= i < |xs| => JStr(xs[i]))) == Some(xs)
  {
    var items := seq(|xs|, i requires 0 <= i < |xs| => JStr(xs[i]));
    if xs != [] {
      StringsRoundTrip(xs[1..]);
      assert items[1..] == seq(|xs[1..]|, i requires 0 <= i < |xs[1..]| => JStr(xs[1..][i]));
      assert [xs[0]] + xs[1..] == xs;
    }
  }

  /** The settings a configuration provides, or `None` if one is missing or ill-typed. */
  function Read(cfg: Dict): (r: Option<Settings>)
    ensures r.Some? ==>
      && "compilerBin" in cfg && "compileArgs" in cfg && "tests" in cfg && "find" in cfg && "folder" in cfg
      && cfg["compilerBin"] == JStr(r.value.compilerBin) && cfg["tests"] == JNum(r.value.tests)
      && cfg["find"] == JNum(r.value.find) && cfg["folder"] == JStr(r.value.folder)
      && cfg["compileArgs"].JArr? && Strings(cfg["compileArgs"].items) == Some(r.value.compileArgs)
    ensures
      && "compilerBin" in cfg && "compileArgs" in cfg && "tests" in cfg && "find" in cfg && "folder" in cfg
      && cfg["compilerBin"].JStr? && cfg["compileArgs"].JArr? && cfg["tests"].JNum?
      && cfg["find"].JNum? && cfg["folder"].JStr? && Strings(cfg["compileArgs"].items).Some?
      ==> r.Some?
  {
    if "compilerBin" !in cfg || "compileArgs" !in cfg || "tests" !in cfg
      || "find" !in cfg || "folder" !in cfg then None
    else
      var bin, args, tests, find, folder :=
        cfg["compilerBin"], cfg["compileArgs"], cfg["tests"], cfg["find"], cfg["folder"];
      if !bin.JStr? || !args.JArr? || !tests.JNum? || !find.JNum? || !folder.JStr? then None
      else
        match Strings(args.items)
        case None => None
        case Some(flags) => Some(Settings(bin.s, flags, tests.n, find.n, folder.s))
  }

  /** The defaults: `g++ -O2 -std=c++17`, 200 trials, stop at 1 failure, folder `test_cases`. */
  lemma DefaultSettings()
    ensures Read(DefaultConfig()) == Some(Settings("g++", ["-O2", "-std=c++17"], 200, 1, "test_cases"))
  {
    var flags := ["-O2", "-std=c++17"];
    StringsRoundTrip(flags);
    assert seq(|flags|, i requires 0 <= i < |flags| => JStr(flags[i])) == [JStr("-O2"), JStr("-std=c++17")];
  }

  /** A file that only replaces `compileArgs` changes the flags and nothing else. */
  lemma OverrideFlags(flags: seq<string>)
    ensures var over := map["compileArgs" := JArr(seq(|flags|, i requires 0 <= i < |flags| => JStr(flags[i])))];
      Read(Merge(DefaultConfig(), over)) == Some(Settings("g++", flags, 200, 1, "test_cases"))
  {
    StringsRoundTrip(flags);
  }

}
