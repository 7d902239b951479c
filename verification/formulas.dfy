/** Formulas (src/saltbox/formula.py): named salt commands listed in a box's
    `saltbox.yaml` manifest, each with a runner command line, a salt
    environment, configuration keywords and the argument declarations of
    its command-line parser.  `shlex.split`, `json.dumps` and the YAML
    loader are parameters. */
module Formulas {
  import opened Common
  import opened Paths
  import opened Disk
  import opened BoxConfig
  import opened Execution

  /** The keyword arguments of one `add_argument` call, as a manifest
      lists them (`dest`, `required`, ...). */
  type ArgSpec = map<string, Value>

  /** One manifest entry, `Formula._blob`, by the keys the code reads. */
  datatype Formula = Formula(name: string, runner: string, saltenv: string, config: map<string, Value>, args: seq<ArgSpec>)

  /** The public attributes of a Python `dict`.  `hasattr(x, name)` on a
      dict asks about these, never about the dict's keys. */
  const DictAttributes: set<string> :=
    {"clear", "copy", "fromkeys", "get", "items", "keys", "pop", "popitem", "setdefault", "update", "values"}

  predicate HasAttr(x: ArgSpec, name: string)
  {
    name in DictAttributes
  }

  // ---------------------------------------------------------------------
  // `_verify_args`

  /** The required set as written: argument declarations whose
      `hasattr(x, 'required')` holds and whose `required` is truthy.  The
      declarations are dicts, which have no attribute `required`, so the set
      is always empty. */
  function RequiredArgsAsWritten(args: seq<ArgSpec>): (req: set<string>)
    ensures req == {}
  {
    set x: ArgSpec | x in args && HasAttr(x, "required") && "required" in x && Truthy(x["required"]) &&
                         "dest" in x && x["dest"].Str? :: x["dest"].str
  }

  /** Declaration `x` is a required argument stored under `d`. */
  predicate DeclaresRequired(x: ArgSpec, d: string)
  {
    "required" in x && Truthy(x["required"]) && "dest" in x && x["dest"] == Str(d)
  }

  /** The required set as intended: the `dest` of every declaration whose
      `required` key is truthy, and nothing else. */
  function RequiredArgs(args: seq<ArgSpec>): (req: set<string>)
    ensures forall d :: d in req <==> exists x :: x in args && DeclaresRequired(x, d)
  {
    var req := set x: ArgSpec | x in args && "required" in x && Truthy(x["required"]) && "dest" in x && x["dest"].Str? :: x["dest"].str;
    assert forall d :: d in req ==> exists x :: x in args && DeclaresRequired(x, d);
    assert forall x: ArgSpec, d :: x in args && DeclaresRequired(x, d) ==> d in req by {
      forall x: ArgSpec, d | x in args && DeclaresRequired(x, d)
        ensures d in req
      {
        assert x["dest"].str == d;
      }
    }
    req
  }

  /** The comparison as written: `TypeError` only when the required set is
      a strict superset of the provided keys. */
  function CheckAsWritten(required: set<string>, provided: set<string>): (r: Option<Error>)
    ensures r.Some? ==> provided <= required && r == Some(TypeError(required - provided)) && required - provided != {}
  {
    if provided < required then
      assert required - provided != {} by {
        if required - provided == {} {
          forall x | x in required
            ensures x in provided
          {
            assert x !in required - provided;
          }
        }
      }
      Some(TypeError(required - provided))
    else None
  }

  /** The comparison as intended: `TypeError` naming the missing keys
      whenever any required key is missing. */
  function CheckCorrected(required: set<string>, provided: set<string>): (r: Option<Error>)
    ensures r.None? <==> required <= provided
    ensures r.Some? ==> r == Some(TypeError(required - provided))
  {
    if !(required <= provided) then Some(TypeError(required - provided)) else None
  }

  /** `_verify_args` as written: with an empty required set it never
      raises, whatever is missing. */
  function VerifyArgsAsWritten(f: Formula, provided: set<string>): (r: Option<Error>)
    ensures r.None?
  {
    CheckAsWritten(RequiredArgsAsWritten(f.args), provided)
  }

  /** `_verify_args` as intended, which `RunCorrected` uses. */
  function VerifyArgs(f: Formula, provided: set<string>): Option<Error>
  {
    CheckCorrected(RequiredArgs(f.args), provided)
  }

  /** Whenever the written comparison raises, the corrected one raises the
      same error; and without extra arguments the two agree. */
  lemma CheckAgreement(required: set<string>, provided: set<string>)
    ensures CheckAsWritten(required, provided).Some? ==> CheckCorrected(required, provided) == CheckAsWritten(required, provided)
    ensures provided <= required ==> CheckCorrected(required, provided) == CheckAsWritten(required, provided)
  {
  }

  /** A formula that requires `target`, run with only `verbose`: both
      written checks let it through, the corrected one names `target`. */
  lemma VerifyArgsCounterexample()
    ensures var f := Formula("deploy", "state.apply", "base", map[], [map["dest" := Str("target"), "required" := Bool(true)]]);
            VerifyArgsAsWritten(f, {"verbose"}).None? &&
            CheckAsWritten({"target"}, {"verbose"}).None? &&
            VerifyArgs(f, {"verbose"}) == Some(TypeError({"target"}))
  {
    var spec: ArgSpec := map["dest" := Str("target"), "required" := Bool(true)];
    var f := Formula("deploy", "state.apply", "base", map[], [spec]);
    assert spec in f.args;
    assert RequiredArgs(f.args) == {"target"};
    assert {"target"} - {"verbose"} == {"target"};
  }

  // ---------------------------------------------------------------------
  // `run`

  /** The arguments `run` hands to `api.execute`: the runner split into
      words, the formula name, the pillar as JSON and the salt environment. */
  function RunArgs(f: Formula, runArgs: map<string, Value>, split: string -> seq<string>,
                   dumps: map<string, Value> -> string): (argv: seq<string>)
    ensures |argv| == |split(f.runner)| + 3 && argv[..|split(f.runner)|] == split(f.runner)
    ensures argv[|argv| - 3..] == [f.name, "pillar=" + dumps(runArgs), "saltenv=" + f.saltenv]
  {
    split(f.runner) + [f.name, "pillar=" + dumps(runArgs), "saltenv=" + f.saltenv]
  }

  /** `Formula.run(api, **run_args)` as written, with an executor over `ns`
      and `fs`: the written argument check comes first, then the command. */
  function Run(f: Formula, runArgs: map<string, Value>, split: string -> seq<string>,
               dumps: map<string, Value> -> string, ns: Namespace, fs: Snapshot, call: seq<string> -> Result<int>)
    : (r: Result<int>)
    requires WellTyped(ns)
    ensures VerifyArgsAsWritten(f, runArgs.Keys).Some? ==> r == Err(VerifyArgsAsWritten(f, runArgs.Keys).value)
    ensures VerifyArgsAsWritten(f, runArgs.Keys).None? ==> r == Execute(ns, fs, RunArgs(f, runArgs, split, dumps), call)
  {
    match VerifyArgsAsWritten(f, runArgs.Keys)
    case Some(e) => Err(e)
    case None => Execute(ns, fs, RunArgs(f, runArgs, split, dumps), call)
  }

  /** As written, `run` never rejects its arguments: it always executes the
      command, whatever the formula declares required. */
  lemma {:induction false} RunNeverChecks(f: Formula, runArgs: map<string, Value>, split: string -> seq<string>,
                                         dumps: map<string, Value> -> string, ns: Namespace, fs: Snapshot,
                                         call: seq<string> -> Result<int>)
    requires WellTyped(ns)
    ensures Run(f, runArgs, split, dumps, ns, fs, call) == Execute(ns, fs, RunArgs(f, runArgs, split, dumps), call)
    ensures !fs.Exists(SaltConfigPath(ns)) ==> Run(f, runArgs, split, dumps, ns, fs, call) == Err(AssertionError(SaltConfigPath(ns)))
    ensures fs.Exists(SaltConfigPath(ns)) ==>
              Run(f, runArgs, split, dumps, ns, fs, call) == call(FormatArgs(ns, fs, RunArgs(f, runArgs, split, dumps)).value)
  {
  }

  /** `run` as intended: the corrected argument check comes first, and only
      then is the command run. */
  function RunCorrected(f: Formula, runArgs: map<string, Value>, split: string -> seq<string>,
                        dumps: map<string, Value> -> string, ns: Namespace, fs: Snapshot, call: seq<string> -> Result<int>)
    : (r: Result<int>)
    requires WellTyped(ns)
    ensures !(RequiredArgs(f.args) <= runArgs.Keys) ==> r == Err(TypeError(RequiredArgs(f.args) - runArgs.Keys))
    ensures RequiredArgs(f.args) <= runArgs.Keys && !fs.Exists(SaltConfigPath(ns)) ==>
              r == Err(AssertionError(SaltConfigPath(ns)))
    ensures RequiredArgs(f.args) <= runArgs.Keys && fs.Exists(SaltConfigPath(ns)) ==>
              r == call(FormatArgs(ns, fs, RunArgs(f, runArgs, split, dumps)).value)
  {
    match VerifyArgs(f, runArgs.Keys)
    case Some(e) => Err(e)
    case None => Execute(ns, fs, RunArgs(f, runArgs, split, dumps), call)
  }

  /** The formula requiring `target`, run with only `verbose` on a box whose
      configuration exists: as written the command runs and its exit code is
      returned (or the exception raised starting it); as intended `run` raises
      naming `target`. */
  lemma RunCounterexample(split: string -> seq<string>, dumps: map<string, Value> -> string,
                          ns: Namespace, fs: Snapshot, call: seq<string> -> Result<int>)
    requires WellTyped(ns) && fs.Exists(SaltConfigPath(ns))
    ensures var f := Formula("deploy", "state.apply", "base", map[], [map["dest" := Str("target"), "required" := Bool(true)]]);
            var runArgs := map["verbose" := Bool(true)];
            Run(f, runArgs, split, dumps, ns, fs, call) == call(FormatArgs(ns, fs, RunArgs(f, runArgs, split, dumps)).value) &&
            RunCorrected(f, runArgs, split, dumps, ns, fs, call) == Err(TypeError({"target"}))
  {
    var f := Formula("deploy", "state.apply", "base", map[], [map["dest" := Str("target"), "required" := Bool(true)]]);
    var runArgs := map["verbose" := Bool(true)];
    assert runArgs.Keys == {"verbose"};
    VerifyArgsCounterexample();
    RunNeverChecks(f, runArgs, split, dumps, ns, fs, call);
  }

  /** A failed corrected check stops `run` before anything is executed: the
      outcome depends neither on the child process nor on the filesystem. */
  lemma RunVerifiesFirst(f: Formula, runArgs: map<string, Value>, split: string -> seq<string>,
                         dumps: map<string, Value> -> string, ns: Namespace,
                         fs1: Snapshot, fs2: Snapshot, call1: seq<string> -> Result<int>, call2: seq<string> -> Result<int>)
    requires WellTyped(ns)
    requires !(RequiredArgs(f.args) <= runArgs.Keys)
    ensures RunCorrected(f, runArgs, split, dumps, ns, fs1, call1) == RunCorrected(f, runArgs, split, dumps, ns, fs2, call2)
  {
  }

  /** The command line a successful `run` executes: the pillar and the salt
      environment come last, after the formula name; with an empty runner
      the formula name itself becomes the program looked up under
      `bin_prefix`, ahead of the configuration options. */
  lemma RunCommandLine(f: Formula, runArgs: map<string, Value>, split: string -> seq<string>,
                       dumps: map<string, Value> -> string, ns: Namespace, fs: Snapshot)
    requires WellTyped(ns) && fs.Exists(SaltConfigPath(ns))
    ensures var argv := FormatArgs(ns, fs, RunArgs(f, runArgs, split, dumps));
            argv.Ok? && |argv.value| == |split(f.runner)| + 7 &&
            argv.value[|argv.value| - 2..] == ["pillar=" + dumps(runArgs), "saltenv=" + f.saltenv] &&
            (split(f.runner) != [] ==> argv.value[|argv.value| - 3] == f.name) &&
            (split(f.runner) == [] ==> argv.value[0] == Join(BinPrefix(ns), f.name))
  {
    var args := RunArgs(f, runArgs, split, dumps);
    var v := FormatArgs(ns, fs, args).value;
    assert v[5..] == args[1..];
    assert v[|v| - 2..] == args[|args| - 2..];
    if split(f.runner) != [] {
      assert v[|v| - 3] == args[|args| - 3];
    }
  }

  // ---------------------------------------------------------------------
  // `Manifest` and `Box`

  /** `Manifest.formulas`: the entries keyed by name, in manifest order, so
      that a later entry replaces an earlier one of the same name. */
  function FormulaTable(entries: seq<Formula>): (t: map<string, Formula>)
    ensures t.Keys == set e | e in entries :: e.name
    ensures forall name :: name in t ==> t[name] in entries && t[name].name == name
    decreases |entries|
  {
    if entries == [] then map[]
    else
      var last := entries[|entries| - 1];
      var init := entries[..|entries| - 1];
      assert forall e :: e in entries <==> e in init || e == last;
      FormulaTable(init)[last.name := last]
  }

  /** The last entry with a given name is the one the table keeps. */
  lemma {:induction false} LastEntryWins(entries: seq<Formula>, i: nat)
    requires i < |entries|
    requires forall j :: i < j < |entries| ==> entries[j].name != entries[i].name
    ensures entries[i].name in FormulaTable(entries) && FormulaTable(entries)[entries[i].name] == entries[i]
    decreases |entries|
  {
    if i < |entries| - 1 {
      var init := entries[..|entries| - 1];
      LastEntryWins(init, i);
    }
  }

  const ManifestFileName: string := "saltbox.yaml"

  /** `Manifest.from_path(path)`: the file must exist and be a regular
      file; its contents are loaded as the list of entries. */
  function LoadManifest(fs: Snapshot, path: Path, load: Content -> seq<Formula>): (r: Result<seq<Formula>>)
    ensures r.Ok? <==> fs.IsFile(path)
    ensures r.Err? ==> r.error == AssertionError("")
    ensures r.Ok? ==> r.value == load(fs.files[path])
  {
    if !fs.Exists(path) then Err(AssertionError(""))
    else if !fs.IsFile(path) then Err(AssertionError(""))
    else Ok(load(fs.files[path]))
  }

  /** `Box(path).manifest`: the manifest file sits directly in the box. */
  function BoxManifest(fs: Snapshot, boxPath: Path, load: Content -> seq<Formula>): (r: Result<seq<Formula>>)
    ensures var p := Join(boxPath, ManifestFileName);
            |p| > |boxPath| && p[..|boxPath|] == boxPath && p[|p| - |ManifestFileName|..] == ManifestFileName &&
            (r.Ok? <==> fs.IsFile(p))
  {
    LoadManifest(fs, Join(boxPath, ManifestFileName), load)
  }
}
