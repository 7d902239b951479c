/** `Executor` (src/saltbox/api.py): salt commands run from the box's
    binary directory against its configuration, at the fixed log level.
    The child process is a parameter: `call` maps an argument vector to the
    exit code `subprocess.call` would return, or to the exception it raises
    when the program cannot be run at all (a missing or non-executable
    file). */
module Execution {
  import opened Common
  import opened Paths
  import opened Disk
  import opened BoxConfig

  /** `Executor._format_args(args)`: the command looked up under
      `bin_prefix`, then the configuration directory and log level, then the
      remaining arguments unchanged. */
  function FormatArgs(ns: Namespace, fs: Snapshot, args: seq<string>): (r: Result<seq<string>>)
    requires WellTyped(ns)
    ensures r.Ok? <==> |args| > 0 && fs.Exists(SaltConfigPath(ns))
    ensures |args| == 0 ==> r == Err(AssertionError(""))
    ensures |args| > 0 && !fs.Exists(SaltConfigPath(ns)) ==> r == Err(AssertionError(SaltConfigPath(ns)))
    ensures r.Ok? ==> |r.value| == |args| + 4 && r.value[5..] == args[1..]
    ensures r.Ok? ==> r.value[1..5] == ["--config-dir", SaltConfigPath(ns), "--log-level", SaltLoglevel]
    ensures r.Ok? && IsAbsolute(args[0]) ==> r.value[0] == args[0]
    ensures r.Ok? && !IsAbsolute(args[0]) ==>
              |r.value[0]| >= |BinPrefix(ns)| + |args[0]| && r.value[0][..|BinPrefix(ns)|] == BinPrefix(ns) && r.value[0][|r.value[0]| - |args[0]|..] == args[0]
  {
    if |args| == 0 then Err(AssertionError(""))
    else if !fs.Exists(SaltConfigPath(ns)) then Err(AssertionError(SaltConfigPath(ns)))
    else
      var exe := [Join(BinPrefix(ns), args[0])];
      var config := ["--config-dir", SaltConfigPath(ns)];
      var log := ["--log-level", SaltLoglevel];
      Ok(exe + config + log + args[1..])
  }

  /** Two successful formats with the same configuration are equal exactly
      when the argument lists are, provided the commands are relative: the
      vector loses nothing. */
  lemma FormatArgsInjective(ns: Namespace, fs: Snapshot, a: seq<string>, b: seq<string>)
    requires WellTyped(ns)
    requires FormatArgs(ns, fs, a).Ok? && FormatArgs(ns, fs, b).Ok?
    requires !IsAbsolute(a[0]) && !IsAbsolute(b[0])
    ensures FormatArgs(ns, fs, a) == FormatArgs(ns, fs, b) <==> a == b
  {
    var ra := FormatArgs(ns, fs, a).value;
    var rb := FormatArgs(ns, fs, b).value;
    if ra == rb {
      FormatArgsHead(ns, fs, a);
      FormatArgsHead(ns, fs, b);
      JoinInjective(BinPrefix(ns), a[0], b[0]);
      HeadTail(a, b);
    }
  }

  lemma FormatArgsHead(ns: Namespace, fs: Snapshot, args: seq<string>)
    requires WellTyped(ns) && FormatArgs(ns, fs, args).Ok?
    ensures FormatArgs(ns, fs, args).value[0] == Join(BinPrefix(ns), args[0])
  {
  }

  lemma HeadTail(a: seq<string>, b: seq<string>)
    requires a != [] && b != [] && a[0] == b[0] && a[1..] == b[1..]
    ensures a == b
  {
    assert a == [a[0]] + a[1..] && b == [b[0]] + b[1..];
  }

  /** `Executor.execute(*args)`: the exit code of the formatted command, or
      the exception raised while formatting or starting it. */
  function Execute(ns: Namespace, fs: Snapshot, args: seq<string>, call: seq<string> -> Result<int>): (r: Result<int>)
    requires WellTyped(ns)
    ensures FormatArgs(ns, fs, args).Err? ==> r == Err(FormatArgs(ns, fs, args).error)
    ensures FormatArgs(ns, fs, args).Ok? ==> r == call(FormatArgs(ns, fs, args).value)
  {
    match FormatArgs(ns, fs, args)
    case Err(e) => Err(e)
    case Ok(argv) => call(argv)
  }
}
